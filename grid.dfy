/**
 * The order in which the card's nested loops visit the 5x5 grid: row by
 * row, column by column, the centre cell skipped. Each visited cell issues
 * a block of items; a run of the loops issues the 24 blocks in visiting
 * order. Stated for any block-producing cell function, so that where each
 * cell's block lands, and what a whole run holds, are proved once, apart
 * from what a cell draws.
 */
module Grid {
  import opened Seqs

  /** The cells the loops visit: all of the 5x5 grid except row 2, column 2. */
  predicate Visited(i: int, j: int) {
    0 <= i < 5 && 0 <= j < 5 && (i != 2 || j != 2)
  }

  /** How many cells the loops have visited before reaching row i, column j (j = 5 is the end of row i). */
  function Rank(i: nat, j: nat): nat {
    if 5 * i + j > 12 then 5 * i + j - 1 else 5 * i + j
  }

  /** The row of the cell visited k-th. */
  function RowOf(k: nat): nat {
    (if k >= 12 then k + 1 else k) / 5
  }

  /** The column of the cell visited k-th. */
  function ColOf(k: nat): nat {
    (if k >= 12 then k + 1 else k) % 5
  }

  /** Each visited cell has a rank below 24, and the rank gives the cell back. */
  lemma RankDecode(i: nat, j: nat)
    requires Visited(i, j)
    ensures Rank(i, j) < 24 && RowOf(Rank(i, j)) == i && ColOf(Rank(i, j)) == j
  {
  }

  /** Every rank below 24 belongs to a visited cell. */
  lemma RankEncode(k: nat)
    requires k < 24
    ensures Visited(RowOf(k), ColOf(k)) && Rank(RowOf(k), ColOf(k)) == k
  {
  }

  /** Different visited cells have different ranks: the loops visit each of them once. */
  lemma RankInjective(i: nat, j: nat, k: nat, l: nat)
    requires Visited(i, j) && Visited(k, l) && Rank(i, j) == Rank(k, l)
    ensures i == k && j == l
  {
    RankDecode(i, j);
    RankDecode(k, l);
  }

  /** The 24 blocks in visiting order. */
  function Blocks<T>(cell: (int, int) -> seq<T>): (b: seq<seq<T>>)
    ensures |b| == 24
    ensures forall k | 0 <= k < 24 :: b[k] == cell(RowOf(k), ColOf(k))
  {
    seq(24, k requires 0 <= k < 24 => cell(RowOf(k), ColOf(k)))
  }

  /** The items issued once the loops have reached row i, column j. */
  function Issued<T>(cell: (int, int) -> seq<T>, i: nat, j: nat): seq<T>
    requires 5 * i + j <= 25
  {
    Flatten(Blocks(cell)[..Rank(i, j)])
  }

  /** The items of a whole run of the loops. */
  function Visit<T>(cell: (int, int) -> seq<T>): seq<T> {
    Flatten(Blocks(cell))
  }

  /** Nothing is issued before the loops start, and a finished run issues everything. */
  lemma IssuedEnds<T>(cell: (int, int) -> seq<T>)
    ensures Issued(cell, 0, 0) == []
    ensures Issued(cell, 5, 0) == Visit(cell)
  {
    assert Blocks(cell)[..0] == [];
    assert Blocks(cell)[..24] == Blocks(cell);
  }

  /** The end of row i is where row i + 1 starts. */
  lemma IssuedNextRow<T>(cell: (int, int) -> seq<T>, i: nat)
    requires i < 5
    ensures Issued(cell, i, 5) == Issued(cell, i + 1, 0)
  {
  }

  /** One step of the inner loop: a visited cell appends its block, the centre appends nothing. */
  lemma IssuedStep<T>(cell: (int, int) -> seq<T>, i: nat, j: nat)
    requires i < 5 && j < 5
    ensures Issued(cell, i, j + 1) == Issued(cell, i, j) + (if Visited(i, j) then cell(i, j) else [])
  {
    var b := Blocks(cell);
    if Visited(i, j) {
      var k := Rank(i, j);
      RankDecode(i, j);
      assert Rank(i, j + 1) == k + 1;
      assert b[..k + 1][..k] == b[..k];
    } else {
      assert Rank(i, j + 1) == Rank(i, j);
    }
  }

  /** Every visited cell issues exactly w items. */
  predicate Uniform<T>(cell: (int, int) -> seq<T>, w: nat) {
    forall i, j | 0 <= i < 5 && 0 <= j < 5 && Visited(i, j) :: |cell(i, j)| == w
  }

  lemma UniformBlocks<T>(cell: (int, int) -> seq<T>, w: nat)
    requires Uniform(cell, w)
    ensures SameWidth(Blocks(cell), w)
  {
    forall k | 0 <= k < 24 ensures |Blocks(cell)[k]| == w {
      RankEncode(k);
    }
  }

  /** A whole run holds 24 blocks of w items, the block of each visited cell at that cell's rank. */
  lemma VisitCell<T>(cell: (int, int) -> seq<T>, w: nat, i: nat, j: nat)
    requires Uniform(cell, w) && Visited(i, j)
    ensures |Visit(cell)| == w * 24
    ensures w * Rank(i, j) + w <= |Visit(cell)|
    ensures Visit(cell)[w * Rank(i, j)..w * Rank(i, j) + w] == cell(i, j)
  {
    UniformBlocks(cell, w);
    FlattenLength(Blocks(cell), w);
    RankDecode(i, j);
    FlattenBlock(Blocks(cell), w, Rank(i, j));
  }

  /** Everything a run issues comes from some visited cell's block. */
  lemma VisitMember<T>(cell: (int, int) -> seq<T>, x: T)
    requires x in Visit(cell)
    ensures exists i, j | 0 <= i < 5 && 0 <= j < 5 :: Visited(i, j) && x in cell(i, j)
  {
    FlattenMember(Blocks(cell), x);
    var k :| 0 <= k < 24 && x in Blocks(cell)[k];
    RankEncode(k);
    assert Visited(RowOf(k), ColOf(k)) && x in cell(RowOf(k), ColOf(k));
  }

  /** When no visited cell issues an item that passes a test, neither does a run. */
  lemma VisitFilterNone<T>(cell: (int, int) -> seq<T>, keep: T -> bool)
    requires forall i, j | 0 <= i < 5 && 0 <= j < 5 && Visited(i, j) :: Filter(cell(i, j), keep) == []
    ensures Filter(Visit(cell), keep) == []
  {
    forall k | 0 <= k < 24 ensures Filter(Blocks(cell)[k], keep) == [] {
      RankEncode(k);
    }
    FlattenFilterNone(Blocks(cell), keep);
  }

  /** When every visited cell issues c items that pass a test, a run issues 24 * c of them. */
  lemma VisitFilterEach<T>(cell: (int, int) -> seq<T>, keep: T -> bool, c: nat)
    requires forall i, j | 0 <= i < 5 && 0 <= j < 5 && Visited(i, j) :: |Filter(cell(i, j), keep)| == c
    ensures |Filter(Visit(cell), keep)| == c * 24
  {
    forall k | 0 <= k < 24 ensures |Filter(Blocks(cell)[k], keep)| == c {
      RankEncode(k);
    }
    FlattenFilterEach(Blocks(cell), keep, c);
  }

  /**
   * When only the block of cell (a, b) issues an item that passes a test,
   * and just one, a run issues one such item if that cell is visited and
   * none otherwise.
   */
  lemma VisitCountOne<T>(cell: (int, int) -> seq<T>, keep: T -> bool, a: int, b: int)
    requires forall i, j | 0 <= i < 5 && 0 <= j < 5 && Visited(i, j) ::
               |Filter(cell(i, j), keep)| == if i == a && j == b then 1 else 0
    ensures |Filter(Visit(cell), keep)| == if Visited(a, b) then 1 else 0
  {
    var m := if Visited(a, b) then Rank(a, b) else 24;
    forall k | 0 <= k < 24 ensures |Filter(Blocks(cell)[k], keep)| == if k == m then 1 else 0 {
      RankEncode(k);
      if Visited(a, b) {
        RankDecode(a, b);
        if k != m {
          assert RowOf(k) != a || ColOf(k) != b;
        }
      }
    }
    FlattenFilterOne(Blocks(cell), keep, m);
  }
}
