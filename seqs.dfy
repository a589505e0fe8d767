/**
 * Sequence and string operations that both scripts lean on: keeping the
 * elements that pass a test (a regular-expression character class, a
 * boolean row mask), finding a substring, and the first piece of a split.
 */
module Seqs {

  /** The elements of `s` that satisfy `keep`, in their original order. */
  function Filter<T>(s: seq<T>, keep: T -> bool): (r: seq<T>)
    ensures |r| <= |s|
  {
    if s == [] then []
    else (if keep(s[0]) then [s[0]] else []) + Filter(s[1..], keep)
  }

  /** Each value occurs in the filtered sequence as often as in the input if it passes, and not at all otherwise. */
  lemma {:induction false} FilterCount<T>(s: seq<T>, keep: T -> bool, x: T)
    ensures multiset(Filter(s, keep))[x] == if keep(x) then multiset(s)[x] else 0
  {
    if s != [] {
      assert s == [s[0]] + s[1..];
      FilterCount(s[1..], keep, x);
    }
  }

  /** Every element of a filtered sequence passed the test; every element that passes is kept. */
  lemma FilterMembers<T>(s: seq<T>, keep: T -> bool, x: T)
    ensures x in Filter(s, keep) <==> x in s && keep(x)
  {
    FilterCount(s, keep, x);
    assert x in Filter(s, keep) <==> multiset(Filter(s, keep))[x] > 0;
    assert x in s <==> multiset(s)[x] > 0;
  }

  /** Filtering distributes over concatenation: survivors keep their relative order. */
  lemma {:induction false} FilterConcat<T>(a: seq<T>, b: seq<T>, keep: T -> bool)
    ensures Filter(a + b, keep) == Filter(a, keep) + Filter(b, keep)
  {
    if a == [] {
      assert a + b == b;
    } else {
      var head := if keep(a[0]) then [a[0]] else [];
      assert (a + b)[0] == a[0];
      assert (a + b)[1..] == a[1..] + b;
      assert Filter(a + b, keep) == head + Filter(a[1..] + b, keep);
      FilterConcat(a[1..], b, keep);
      assert Filter(a, keep) == head + Filter(a[1..], keep);
      ConcatAssoc(head, Filter(a[1..], keep), Filter(b, keep));
    }
  }

  /** A filter that keeps everything returns its input. */
  lemma {:induction false} FilterKeepsAll<T>(s: seq<T>, keep: T -> bool)
    requires forall i | 0 <= i < |s| :: keep(s[i])
    ensures Filter(s, keep) == s
  {
    if s != [] {
      FilterKeepsAll(s[1..], keep);
    }
  }

  /** A filter that keeps nothing returns the empty sequence. */
  lemma {:induction false} FilterKeepsNone<T>(s: seq<T>, keep: T -> bool)
    requires forall i | 0 <= i < |s| :: !keep(s[i])
    ensures Filter(s, keep) == []
  {
    if s != [] {
      FilterKeepsNone(s[1..], keep);
    }
  }

  /** Concatenation is associative (stated once so that callers need not re-derive it pointwise). */
  lemma ConcatAssoc<T>(a: seq<T>, b: seq<T>, c: seq<T>)
    ensures (a + b) + c == a + (b + c)
  {
  }

  /** A sequence is what comes before position i, the element at i, and what comes after. */
  lemma SplitAround<T>(s: seq<T>, i: nat)
    requires i < |s|
    ensures s == s[..i] + [s[i]] + s[i + 1..]
  {
  }

  /** Element d of a slice is element lo + d of the sequence. */
  lemma SliceAt<T>(s: seq<T>, lo: nat, hi: nat, d: nat)
    requires lo <= hi <= |s| && d < hi - lo
    ensures s[lo..hi][d] == s[lo + d]
  {
  }

  /** A slice that lies inside the left operand of a concatenation. */
  lemma SliceOfLeft<T>(a: seq<T>, b: seq<T>, lo: nat, hi: nat)
    requires lo <= hi <= |a|
    ensures (a + b)[lo..hi] == a[lo..hi]
  {
  }

  /** A slice that lies inside the right operand of a concatenation. */
  lemma SliceOfRight<T>(a: seq<T>, b: seq<T>, lo: nat, hi: nat)
    requires lo <= hi <= |b|
    ensures (a + b)[|a| + lo..|a| + hi] == b[lo..hi]
  {
  }

  /** Equal sequences with a common first part agree on the rest. */
  lemma CancelLeft<T>(p: seq<T>, x: seq<T>, y: seq<T>)
    requires p + x == p + y
    ensures x == y
  {
    assert x == (p + x)[|p|..];
    assert y == (p + y)[|p|..];
  }

  /** Equal sequences with a common last part agree on the rest. */
  lemma CancelRight<T>(x: seq<T>, y: seq<T>, q: seq<T>)
    requires x + q == y + q
    ensures x == y
  {
    assert x == (x + q)[..|x|];
    assert y == (y + q)[..|y|];
  }

  /**
   * When two sequences each consist of a part free of `m` and then a part
   * starting with `m`, the first `m` tells where the parts meet, so equal
   * sequences have equal parts.
   */
  lemma SplitAtFirst<T>(a1: seq<T>, b1: seq<T>, a2: seq<T>, b2: seq<T>, m: T)
    requires m !in a1 && m !in a2
    requires |b1| > 0 && b1[0] == m && |b2| > 0 && b2[0] == m
    requires a1 + b1 == a2 + b2
    ensures a1 == a2 && b1 == b2
  {
    assert forall k | 0 <= k < |a2| :: (a1 + b1)[k] != m by {
      forall k | 0 <= k < |a2| ensures (a1 + b1)[k] != m {
        assert (a2 + b2)[k] == a2[k];
      }
    }
    assert forall k | 0 <= k < |a1| :: (a2 + b2)[k] != m by {
      forall k | 0 <= k < |a1| ensures (a2 + b2)[k] != m {
        assert (a1 + b1)[k] == a1[k];
      }
    }
    assert (a1 + b1)[|a1|] == m && (a2 + b2)[|a2|] == m;
    assert a1 == (a1 + b1)[..|a1|];
    assert a2 == (a2 + b2)[..|a2|];
    CancelLeft(a1, b1, b2);
  }

  /** The concatenation of a sequence of sequences (pandas `concat` of row blocks). */
  function Flatten<T>(blocks: seq<seq<T>>): (r: seq<T>)
    ensures forall b, x | b in blocks && x in b :: x in r
  {
    if blocks == [] then []
    else
      var init := blocks[..|blocks| - 1];
      assert forall b | b in blocks :: b in init || b == blocks[|blocks| - 1];
      Flatten(init) + blocks[|blocks| - 1]
  }

  /** Everything in a concatenation comes from one of its blocks. */
  lemma {:induction false} FlattenMember<T>(blocks: seq<seq<T>>, x: T)
    requires x in Flatten(blocks)
    ensures exists k :: 0 <= k < |blocks| && x in blocks[k]
  {
    var init := blocks[..|blocks| - 1];
    if x !in blocks[|blocks| - 1] {
      FlattenMember(init, x);
      var k :| 0 <= k < |init| && x in init[k];
      assert x in blocks[k];
    }
  }

  /** Every block has exactly w elements. */
  predicate SameWidth<T>(blocks: seq<seq<T>>, w: nat) {
    forall k | 0 <= k < |blocks| :: |blocks[k]| == w
  }

  /** n blocks of w elements and one more take w * (n + 1) elements. */
  lemma MulSucc(w: nat, n: nat)
    ensures w * n >= 0
    ensures w * n + w == w * (n + 1)
  {
  }

  /** Concatenating n blocks of width w gives w * n elements. */
  lemma {:induction false} FlattenLength<T>(blocks: seq<seq<T>>, w: nat)
    requires SameWidth(blocks, w)
    ensures |Flatten(blocks)| == w * |blocks|
  {
    if blocks != [] {
      var init := blocks[..|blocks| - 1];
      FlattenLength(init, w);
      MulSucc(w, |init|);
    }
  }

  /** With blocks of width w, block k occupies positions w * k up to w * (k + 1) of the concatenation. */
  lemma {:induction false} FlattenBlock<T>(blocks: seq<seq<T>>, w: nat, k: nat)
    requires SameWidth(blocks, w) && k < |blocks|
    ensures w * k + w <= |Flatten(blocks)|
    ensures Flatten(blocks)[w * k..w * k + w] == blocks[k]
  {
    var init := blocks[..|blocks| - 1];
    var last := blocks[|blocks| - 1];
    assert SameWidth(init, w) by {
      forall i | 0 <= i < |init| ensures |init[i]| == w {
        assert init[i] == blocks[i];
      }
    }
    assert Flatten(blocks) == Flatten(init) + last;
    FlattenLength(init, w);
    MulSucc(w, k);
    var o: nat := w * k;
    if k == |init| {
      assert |Flatten(init)| == o;
      SliceOfRight(Flatten(init), last, 0, w);
      assert last[0..w] == last;
    } else {
      assert init[k] == blocks[k];
      FlattenBlock(init, w, k);
      SliceOfLeft(Flatten(init), last, o, o + w);
    }
  }

  /** When no block holds an element that passes a test, neither does their concatenation. */
  lemma {:induction false} FlattenFilterNone<T>(blocks: seq<seq<T>>, keep: T -> bool)
    requires forall k | 0 <= k < |blocks| :: Filter(blocks[k], keep) == []
    ensures Filter(Flatten(blocks), keep) == []
  {
    if blocks != [] {
      var init := blocks[..|blocks| - 1];
      FlattenFilterNone(init, keep);
      FilterConcat(Flatten(init), blocks[|blocks| - 1], keep);
    }
  }

  /** When only block m holds an element that passes a test, and just one, so does the concatenation (if block m exists). */
  lemma {:induction false} FlattenFilterOne<T>(blocks: seq<seq<T>>, keep: T -> bool, m: int)
    requires forall k | 0 <= k < |blocks| :: |Filter(blocks[k], keep)| == if k == m then 1 else 0
    ensures |Filter(Flatten(blocks), keep)| == if 0 <= m < |blocks| then 1 else 0
  {
    if blocks != [] {
      var init := blocks[..|blocks| - 1];
      FlattenFilterOne(init, keep, m);
      FilterConcat(Flatten(init), blocks[|blocks| - 1], keep);
    }
  }

  /** When every block holds c elements that pass a test, n blocks hold c * n of them. */
  lemma {:induction false} FlattenFilterEach<T>(blocks: seq<seq<T>>, keep: T -> bool, c: nat)
    requires forall k | 0 <= k < |blocks| :: |Filter(blocks[k], keep)| == c
    ensures |Filter(Flatten(blocks), keep)| == c * |blocks|
  {
    if blocks != [] {
      var init := blocks[..|blocks| - 1];
      FlattenFilterEach(init, keep, c);
      FilterConcat(Flatten(init), blocks[|blocks| - 1], keep);
      MulSucc(c, |init|);
    }
  }

  /** `pat` occurs in `s` starting at position `i`. */
  predicate OccursAt<T(==)>(s: seq<T>, pat: seq<T>, i: int) {
    0 <= i && i + |pat| <= |s| && s[i..i + |pat|] == pat
  }

  /** `pat` is a substring of `s` (Python's `pat in s`). */
  predicate Contains<T(==)>(s: seq<T>, pat: seq<T>) {
    exists i | 0 <= i <= |s| - |pat| :: OccursAt(s, pat, i)
  }

  /**
   * The first piece of `s.split(sep)`: everything before the first
   * occurrence of `sep`, or all of `s` when `sep` does not occur.
   */
  function BeforeFirst<T(==)>(s: seq<T>, sep: seq<T>): (r: seq<T>)
    requires |sep| > 0
    ensures |r| <= |s| && r == s[..|r|]
    ensures forall i :: 0 <= i < |r| ==> !OccursAt(s, sep, i)
    ensures |r| < |s| ==> OccursAt(s, sep, |r|)
  {
    if |s| < |sep| then s
    else if s[..|sep|] == sep then []
    else
      var rest := BeforeFirst(s[1..], sep);
      assert !OccursAt(s, sep, 0) by { assert s[0..|sep|] == s[..|sep|]; }
      assert forall i :: 1 <= i <= |rest| ==> !OccursAt(s, sep, i) by {
        forall i | 1 <= i <= |rest| ensures !OccursAt(s, sep, i) {
          assert !OccursAt(s[1..], sep, i - 1);
          if i + |sep| <= |s| {
            assert s[1..][i - 1..i - 1 + |sep|] == s[i..i + |sep|];
          }
        }
      }
      assert |rest| < |s| - 1 ==> s[1..][|rest|..|rest| + |sep|] == s[|rest| + 1..|rest| + 1 + |sep|];
      [s[0]] + rest
  }

  /** The first piece of a split is pinned down by where the first occurrence is. */
  lemma BeforeFirstAt<T>(s: seq<T>, sep: seq<T>, n: nat)
    requires |sep| > 0 && n <= |s|
    requires forall i :: 0 <= i < n ==> !OccursAt(s, sep, i)
    requires n == |s| || OccursAt(s, sep, n)
    ensures BeforeFirst(s, sep) == s[..n]
  {
    var r := BeforeFirst(s, sep);
    assert |r| == n;
  }

  /** Splitting a string without the separator keeps the whole string, and only then. */
  lemma BeforeFirstWhole<T>(s: seq<T>, sep: seq<T>)
    requires |sep| > 0
    ensures BeforeFirst(s, sep) == s <==> !Contains(s, sep)
  {
    var r := BeforeFirst(s, sep);
    if r == s {
      assert forall i :: OccursAt(s, sep, i) ==> 0 <= i < |r|;
    } else {
      assert |r| < |s|;
      assert OccursAt(s, sep, |r|);
    }
  }
}
