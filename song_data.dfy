/**
 * The metadata builder (src/generate_song_data.py): parse a play-count
 * label such as "3.4M plays", pair each saved page's titles with their
 * parsed play counts, stamp every row with its album's columns, collect the
 * albums in index order and drop the "Extended Mix" rows.
 *
 * The page extractor (BeautifulSoup), the files on disk and the copying of
 * cover art are outside the model: a page is given already split into its
 * title strings and its play-count strings, the saved pages are a map from
 * path to page, and each cover copy is recorded rather than performed.
 */
module SongData {
  import opened Results
  import opened Seqs
  import opened Decimal

  /** The separator whose first occurrence ends the count in a play label. */
  const PlaysMarker := " plays"

  /** The pattern of the row filter; as a regular expression its parentheses only group. */
  const ExtendedMix := "Extended Mix"

  datatype DataError =
    | EmptyPlayCount               // `play_str[-1]` on an empty string (IndexError)
    | NotANumber(digits: string)   // `float()` rejects the filtered string (ValueError)
    | LengthMismatch(titles: nat, plays: nat)  // DataFrame columns of unequal length
    | FileNotFound(path: string)   // `open` of a saved page that is missing
    | NothingToConcatenate         // `pd.concat([])` on an empty album index

  // ---------------------------------------------------------------- num_plays

  /** The characters that survive `re.sub("[^0-9.]", "", ...)`. */
  predicate IsNumeric(c: char) {
    IsDigit(c) || c == '.'
  }

  predicate AllNumeric(t: string) {
    forall i | 0 <= i < |t| :: IsNumeric(t[i])
  }

  function DotCount(t: string): nat {
    multiset(t)['.']
  }

  predicate HasDigit(t: string) {
    exists i | 0 <= i < |t| :: IsDigit(t[i])
  }

  /** `re.sub("[^0-9.]", "", s)`: the digits and dots of `s`, in order. */
  function KeepNumeric(s: string): (r: string)
    ensures AllNumeric(r)
    ensures DotCount(r) == DotCount(s)
    ensures HasDigit(r) <==> HasDigit(s)
  {
    var r := Filter(s, IsNumeric);
    assert AllNumeric(r) by {
      forall i | 0 <= i < |r| ensures IsNumeric(r[i]) { FilterMembers(s, IsNumeric, r[i]); }
    }
    FilterCount(s, IsNumeric, '.');
    assert HasDigit(s) ==> HasDigit(r) by {
      if HasDigit(s) {
        var i :| 0 <= i < |s| && IsDigit(s[i]);
        FilterMembers(s, IsNumeric, s[i]);
        var j :| 0 <= j < |r| && r[j] == s[i];
      }
    }
    assert HasDigit(r) ==> HasDigit(s) by {
      if HasDigit(r) {
        var i :| 0 <= i < |r| && IsDigit(r[i]);
        FilterMembers(s, IsNumeric, r[i]);
        var j :| 0 <= j < |s| && s[j] == r[i];
      }
    }
    r
  }

  /**
   * `float(...) * mult`, where the multiplier is named by the last
   * character of the count: `K` a thousand, `M` a million, anything else
   * (lower case included) one.
   */
  function Scale(count: string, v: real): (r: real)
    requires |count| > 0
    ensures v >= 0.0 ==> r >= 0.0
  {
    var last := count[|count| - 1];
    if last == 'K' then v * 1000.0 else if last == 'M' then v * 1000000.0 else v
  }

  /** Where a string that already has no dot ends up when split at its first dot. */
  lemma NoDotBefore(t: string, n: nat)
    requires n <= |t|
    requires forall i :: 0 <= i < n ==> !OccursAt(t, ".", i)
    ensures forall i | 0 <= i < n :: t[i] != '.'
  {
    forall i | 0 <= i < n ensures t[i] != '.' {
      if t[i] == '.' {
        assert t[i..i + 1] == ".";
        assert OccursAt(t, ".", i);
      }
    }
  }

  /** A digit-and-dot string without a dot is all digits, and has a digit exactly when it is not empty. */
  lemma NoDotFacts(t: string)
    requires AllNumeric(t)
    requires BeforeFirst(t, ".") == t
    ensures AllDigits(t) && DotCount(t) == 0
    ensures HasDigit(t) <==> t != []
  {
    NoDotBefore(t, |t|);
    assert '.' !in t;
    if t != [] { assert IsDigit(t[0]); }
  }

  /** The two sides of the first dot of a digit-and-dot string. */
  lemma FirstDotFacts(t: string, whole: string, frac: string)
    requires AllNumeric(t)
    requires whole == BeforeFirst(t, ".") && |whole| < |t|
    requires frac == t[|whole| + 1..]
    ensures t == whole + ['.'] + frac
    ensures AllDigits(whole)
    ensures DotCount(t) == 1 + DotCount(frac)
    ensures HasDigit(t) <==> whole != [] || HasDigit(frac)
    ensures '.' !in frac ==> AllDigits(frac) && (HasDigit(frac) <==> frac != [])
    ensures '.' in frac <==> DotCount(frac) > 0
  {
    FirstDotShape(t, whole, frac);
    DotSplit(whole, frac);
    DigitSplit(whole, frac);
    if '.' !in frac {
      DotFreeTail(whole, frac);
    }
  }

  /** A digit-and-dot string is the digits before its first dot, the dot, and the rest. */
  lemma FirstDotShape(t: string, whole: string, frac: string)
    requires AllNumeric(t)
    requires whole == BeforeFirst(t, ".") && |whole| < |t|
    requires frac == t[|whole| + 1..]
    ensures t == whole + ['.'] + frac
    ensures AllDigits(whole) && '.' !in whole
  {
    assert t[|whole|] == '.' by {
      assert t[|whole|..|whole| + 1] == ".";
    }
    SplitAround(t, |whole|);
    assert forall i | 0 <= i < |whole| :: whole[i] == t[i];
    assert '.' !in whole by {
      NoDotBefore(t, |whole|);
    }
    assert AllDigits(whole) by {
      forall i | 0 <= i < |whole| ensures IsDigit(whole[i]) {
        assert IsNumeric(t[i]);
      }
    }
  }

  lemma DotSplit(whole: string, frac: string)
    requires '.' !in whole
    ensures DotCount(whole + ['.'] + frac) == 1 + DotCount(frac)
    ensures '.' in frac <==> DotCount(frac) > 0
  {
    assert multiset(whole + ['.'] + frac) == multiset(whole) + multiset(['.']) + multiset(frac);
  }

  lemma DigitSplit(whole: string, frac: string)
    requires AllDigits(whole)
    ensures HasDigit(whole + ['.'] + frac) <==> whole != [] || HasDigit(frac)
  {
    var t := whole + ['.'] + frac;
    if whole != [] { assert IsDigit(t[0]); }
    if HasDigit(frac) {
      var i :| 0 <= i < |frac| && IsDigit(frac[i]);
      assert t[|whole| + 1 + i] == frac[i];
    }
    if HasDigit(t) && whole == [] {
      var i :| 0 <= i < |t| && IsDigit(t[i]);
      assert frac[i - 1] == t[i];
    }
  }

  lemma DotFreeTail(whole: string, frac: string)
    requires AllNumeric(whole + ['.'] + frac)
    requires '.' !in frac
    ensures AllDigits(frac) && (HasDigit(frac) <==> frac != [])
  {
    var t := whole + ['.'] + frac;
    forall i | 0 <= i < |frac| ensures IsDigit(frac[i]) {
      assert frac[i] == t[|whole| + 1 + i] && IsNumeric(t[|whole| + 1 + i]);
    }
    if frac != [] { assert IsDigit(frac[0]); }
  }

  /** The exact value of the decimal `whole.frac`. */
  function DecimalValue(whole: string, frac: string): (v: real)
    requires AllDigits(whole) && AllDigits(frac)
    ensures v >= 0.0
  {
    DigitsValue(whole) as real + DigitsValue(frac) as real / Pow10(|frac|) as real
  }

  /**
   * Python's `float()` on a string of digits and dots: at most one dot and
   * at least one digit, read as an exact decimal (digits before the dot,
   * then digits after it scaled by their number of places).
   */
  function ParseFloat(t: string): (r: Result<real, DataError>)
    requires AllNumeric(t)
    ensures r.Ok? <==> DotCount(t) <= 1 && HasDigit(t)
    ensures r.Ok? ==> r.value >= 0.0
    ensures r.Err? ==> r.error == NotANumber(t)
  {
    var whole := BeforeFirst(t, ".");
    if |whole| == |t| then
      NoDotFacts(t);
      if t == [] then Err(NotANumber(t)) else Ok(DigitsValue(t) as real)
    else
      var frac := t[|whole| + 1..];
      FirstDotFacts(t, whole, frac);
      if '.' in frac || (whole == [] && frac == []) then Err(NotANumber(t))
      else Ok(DecimalValue(whole, frac))
  }

  /**
   * The rest of `num_plays` once the label is cut before " plays": the
   * multiplier from the last character, then the number in the digits and
   * dots that are left. Float rounding is not modelled.
   */
  function ParseCount(count: string): (r: Result<real, DataError>)
    ensures r.Ok? ==> r.value >= 0.0
  {
    if count == [] then Err(EmptyPlayCount)
    else
      match ParseFloat(KeepNumeric(count))
      case Err(e) => Err(e)
      case Ok(v) => Ok(Scale(count, v))
  }

  /** `num_plays`: parse a YouTube Music play label such as "3.4M plays". */
  function NumPlays(text: string): (r: Result<real, DataError>)
    ensures r.Ok? ==> r.value >= 0.0
  {
    ParseCount(BeforeFirst(text, PlaysMarker))
  }

  /** A count string with no space cannot hold " plays"; the split stops exactly at the marker after it. */
  lemma CountBeforeMarker(count: string, rest: string)
    requires forall i | 0 <= i < |count| :: count[i] != ' '
    requires rest == [] || OccursAt(rest, PlaysMarker, 0)
    ensures BeforeFirst(count + rest, PlaysMarker) == count
  {
    var t := count + rest;
    forall i | 0 <= i < |count| ensures !OccursAt(t, PlaysMarker, i) {
      if i + |PlaysMarker| <= |t| {
        assert t[i..i + |PlaysMarker|][0] == count[i] != PlaysMarker[0];
      }
    }
    if rest != [] {
      assert t[|count|..|count| + |PlaysMarker|] == rest[..|PlaysMarker|];
    }
    BeforeFirstAt(t, PlaysMarker, |count|);
    assert t[..|count|] == count;
  }

  /** Everything from the first " plays" on is ignored: only the text before it is parsed. */
  lemma NumPlaysIgnoresTail(count: string, rest: string)
    requires !Contains(count, PlaysMarker)
    ensures NumPlays(count + PlaysMarker + rest) == NumPlays(count)
  {
    var t := count + PlaysMarker + rest;
    var n := |PlaysMarker|;
    forall i | 0 <= i < |count| ensures !OccursAt(t, PlaysMarker, i) {
      if i + n <= |count| {
        assert t[i..i + n] == count[i..i + n];
        assert !OccursAt(count, PlaysMarker, i);
      } else if i + n <= |t| {
        // the marker's only space is its first character, so it cannot straddle the boundary
        var k := |count| - i;
        assert 0 < k < n;
        assert t[i..i + n][k] == t[|count|] == ' ';
        assert PlaysMarker[k] != ' ';
      }
    }
    assert t[|count|..|count| + n] == PlaysMarker;
    BeforeFirstAt(t, PlaysMarker, |count|);
    assert t[..|count|] == count;
    BeforeFirstWhole(count, PlaysMarker);
  }

  /** `play_str[-1]` fails exactly when the label is empty or starts with " plays". */
  lemma NumPlaysEmpty(text: string)
    ensures NumPlays(text) == Err(EmptyPlayCount) <==> text == [] || OccursAt(text, PlaysMarker, 0)
  {
    var count := BeforeFirst(text, PlaysMarker);
    if count == [] && text != [] {
      assert OccursAt(text, PlaysMarker, |count|);
    }
  }

  /** Past the empty case, parsing fails exactly when the count has no digit or more than one dot. */
  lemma NumPlaysNotANumber(text: string, count: string)
    requires count == BeforeFirst(text, PlaysMarker) && count != []
    ensures NumPlays(text).Err? <==> DotCount(count) > 1 || !HasDigit(count)
  {
  }

  /** A digit string with no dot parses to the number its digits denote. */
  lemma ParseFloatDigits(d: string)
    requires AllDigits(d) && d != []
    ensures AllNumeric(d) && ParseFloat(d) == Ok(DigitsValue(d) as real)
  {
    forall i | 0 <= i <= |d| - 1 ensures !OccursAt(d, ".", i) {
      assert d[i..i + 1][0] == d[i];
    }
    BeforeFirstWhole(d, ".");
  }

  /** A digit-and-dot string whose first dot is followed only by digits. */
  lemma ParseFloatAtDot(t: string, whole: string, frac: string)
    requires AllDigits(whole) && AllDigits(frac) && (whole != [] || frac != [])
    requires AllNumeric(t) && |whole| < |t|
    requires BeforeFirst(t, ".") == whole && t[|whole| + 1..] == frac
    requires '.' !in frac
    ensures ParseFloat(t) == Ok(DecimalValue(whole, frac))
  {
    var r := ParseFloat(t);
    assert r.Ok?;
    assert r.value == DecimalValue(whole, frac);
  }

  /** Digits, one dot, digits: the exact decimal they denote. */
  lemma ParseFloatDecimal(whole: string, frac: string)
    requires AllDigits(whole) && AllDigits(frac) && (whole != [] || frac != [])
    ensures AllNumeric(whole + "." + frac)
    ensures ParseFloat(whole + "." + frac)
         == Ok(DecimalValue(whole, frac))
  {
    var t := whole + "." + frac;
    assert AllNumeric(t) by {
      forall i | 0 <= i < |t| ensures IsNumeric(t[i]) {
        if i < |whole| { assert t[i] == whole[i]; }
        else if i > |whole| { assert t[i] == frac[i - |whole| - 1]; }
      }
    }
    assert BeforeFirst(t, ".") == whole by {
      forall i | 0 <= i < |whole| ensures !OccursAt(t, ".", i) {
        assert t[i..i + 1][0] == whole[i] && IsDigit(whole[i]);
        assert t[i..i + 1][0] != "."[0];
      }
      assert t[|whole|..|whole| + 1] == ".";
      BeforeFirstAt(t, ".", |whole|);
      assert t[..|whole|] == whole;
    }
    assert t[|whole| + 1..] == frac;
    assert '.' !in frac by {
      forall i | 0 <= i < |frac| ensures frac[i] != '.' { assert IsDigit(frac[i]); }
    }
    ParseFloatAtDot(t, whole, frac);
  }

  /** The digits and dots of a count followed by a unit letter are those of the count. */
  lemma KeepNumericUnit(num: string, unit: string)
    requires AllNumeric(num)
    requires unit == "" || unit == "K" || unit == "M"
    ensures KeepNumeric(num + unit) == num
  {
    FilterConcat(num, unit, IsNumeric);
    FilterKeepsAll(num, IsNumeric);
    if unit != "" {
      assert unit[1..] == [];
    }
    assert Filter(unit, IsNumeric) == [];
  }

  /** A digit-and-dot count followed by a unit letter has no space, so the split stops at the " plays" after it. */
  lemma CountOfLabel(num: string, unit: string, rest: string)
    requires AllNumeric(num)
    requires unit == "" || unit == "K" || unit == "M"
    requires rest == [] || OccursAt(rest, PlaysMarker, 0)
    ensures BeforeFirst(num + unit + rest, PlaysMarker) == num + unit
  {
    var count := num + unit;
    forall i | 0 <= i < |count| ensures count[i] != ' ' {
      if i < |num| { assert IsNumeric(num[i]); }
    }
    assert count + rest == num + unit + rest;
    CountBeforeMarker(count, rest);
  }

  /** A parsable digit-and-dot count followed by a unit letter is the number scaled by the unit. */
  lemma ParseCountOfUnit(num: string, unit: string, v: real)
    requires AllNumeric(num) && ParseFloat(num) == Ok(v)
    requires unit == "" || unit == "K" || unit == "M"
    ensures ParseCount(num + unit)
         == Ok(if unit == "K" then v * 1000.0 else if unit == "M" then v * 1000000.0 else v)
  {
    var count := num + unit;
    assert HasDigit(num);
    KeepNumericUnit(num, unit);
    assert ParseCount(count) == Ok(Scale(count, v));
    assert unit == "" ==> count[|count| - 1] == num[|num| - 1];
    assert IsNumeric(num[|num| - 1]);
  }

  /** A count whose digits and dots parse to v is v scaled by the unit its last character names. */
  lemma ParseCountVia(count: string, v: real)
    requires count != [] && ParseFloat(KeepNumeric(count)) == Ok(v)
    ensures ParseCount(count) == Ok(Scale(count, v))
  {
  }

  /**
   * Any last character other than upper-case `K` or `M` (a digit, a dot,
   * lower-case `k` or `m`, anything else) leaves the multiplier at one: the
   * count is just the number in its digits and dots.
   */
  lemma ParseCountUnscaled(count: string)
    requires count != [] && count[|count| - 1] != 'K' && count[|count| - 1] != 'M'
    ensures ParseCount(count) == ParseFloat(KeepNumeric(count))
  {
  }

  /** An upper-case `K` or `M` at the end scales the number in the digits and dots by a thousand or a million. */
  lemma ParseCountScaled(count: string)
    requires count != [] && (count[|count| - 1] == 'K' || count[|count| - 1] == 'M')
    ensures var p := ParseFloat(KeepNumeric(count));
            var m := if count[|count| - 1] == 'K' then 1000.0 else 1000000.0;
            ParseCount(count) == if p.Ok? then Ok(p.value * m) else p
  {
  }

  /** `num_plays` is the count parser applied to the text before the first " plays". */
  lemma NumPlaysVia(text: string, count: string, w: real)
    requires BeforeFirst(text, PlaysMarker) == count && ParseCount(count) == Ok(w)
    ensures NumPlays(text) == Ok(w)
  {
  }

  /** A digit-and-dot count, a unit letter and then " plays" or nothing: the count alone is parsed, scaled by the unit. */
  lemma NumPlaysOfCount(num: string, unit: string, rest: string, v: real)
    requires AllNumeric(num) && ParseFloat(num) == Ok(v)
    requires unit == "" || unit == "K" || unit == "M"
    requires rest == [] || OccursAt(rest, PlaysMarker, 0)
    ensures NumPlays(num + unit + rest)
         == Ok(if unit == "K" then v * 1000.0 else if unit == "M" then v * 1000000.0 else v)
  {
    CountOfLabel(num, unit, rest);
    ParseCountOfUnit(num, unit, v);
    NumPlaysVia(num + unit + rest, num + unit,
                if unit == "K" then v * 1000.0 else if unit == "M" then v * 1000000.0 else v);
  }

  /** `str(n)` of a non-negative int is read back by `float()` as n. */
  lemma ParseFloatNat(n: nat)
    ensures AllNumeric(NatToString(n)) && ParseFloat(NatToString(n)) == Ok(n as real)
  {
    ParseFloatDigits(NatToString(n));
  }

  /** Round trip: a label written as `str(n)`, an optional `K` or `M` and " plays" parses back to n times the unit. */
  lemma NumPlaysRoundTrip(n: nat, unit: string, rest: string)
    requires unit == "" || unit == "K" || unit == "M"
    requires rest == [] || OccursAt(rest, PlaysMarker, 0)
    ensures NumPlays(NatToString(n) + unit + rest)
         == Ok(if unit == "K" then n as real * 1000.0 else if unit == "M" then n as real * 1000000.0 else n as real)
  {
    ParseFloatNat(n);
    NumPlaysOfCount(NatToString(n), unit, rest, n as real);
  }

  /** Round trip for a decimal count such as "3.4M plays": v is the exact value of the digits around the dot. */
  lemma NumPlaysDecimal(whole: string, frac: string, unit: string, rest: string, v: real)
    requires AllDigits(whole) && AllDigits(frac) && (whole != [] || frac != [])
    requires v == DecimalValue(whole, frac)
    requires unit == "" || unit == "K" || unit == "M"
    requires rest == [] || OccursAt(rest, PlaysMarker, 0)
    ensures NumPlays(whole + "." + frac + unit + rest)
         == Ok(if unit == "K" then v * 1000.0 else if unit == "M" then v * 1000000.0 else v)
  {
    ParseFloatDecimal(whole, frac);
    NumPlaysOfCount(whole + "." + frac, unit, rest, v);
  }

  /** Worked example: a thousands suffix with nothing after it. */
  lemma NumPlaysExampleThousands()
    ensures NumPlays("12K") == Ok(12000.0)
  {
    assert NatToString(12) == "12";
    NumPlaysRoundTrip(12, "K", "");
    assert "12" + "K" == "12K";
    assert "12K" + "" == "12K";
  }

  /** Worked example: a decimal count with a millions suffix. */
  lemma NumPlaysExampleMillions()
    ensures NumPlays("3" + "." + "4" + "M" + " plays") == Ok(3400000.0)
  {
    assert OccursAt(" plays", PlaysMarker, 0);
    assert DecimalValue("3", "4") == 3.4;
    NumPlaysDecimal("3", "4", "M", " plays", 3.4);

  }

  /** Worked example: a plain count. */
  lemma NumPlaysExamplePlain()
    ensures NumPlays("57" + " plays") == Ok(57.0)
  {
    assert NatToString(57) == "57";
    assert OccursAt(" plays", PlaysMarker, 0);
    NumPlaysRoundTrip(57, "", " plays");
    assert "57" + "" == "57";

  }

  /** Worked example: a thousands separator is dropped by the character filter. */
  lemma NumPlaysExampleSeparator()
    ensures NumPlays("1,234") == Ok(1234.0)
  {
    var s := "1,234";
    assert |s| < |PlaysMarker|;
    assert BeforeFirst(s, PlaysMarker) == s;
    SeparatorCount();
    NumPlaysVia(s, s, 1234.0);
  }

  lemma SeparatorCount()
    ensures ParseCount("1,234") == Ok(1234.0)
  {
    SeparatorParsed();
    ParseCountVia("1,234", 1234.0);
    SeparatorUnscaled();
  }

  /** "1,234" ends in a digit, so its multiplier is one. */
  lemma SeparatorUnscaled()
    ensures Scale("1,234", 1234.0) == 1234.0
  {
    assert "1,234"[4] == '4';
  }

  /** The digits left of "1,234" read as one thousand two hundred and thirty-four. */
  lemma SeparatorParsed()
    ensures ParseFloat(KeepNumeric("1,234")) == Ok(1234.0)
  {
    SeparatorFiltered();
    DigitsParsed();
  }

  /** `float("1234")` is 1234. */
  lemma DigitsParsed()
    ensures AllNumeric("1234") && ParseFloat("1234") == Ok(1234.0)
  {
    DigitsRead();
    ParseFloatDigits("1234");
  }

  /** The digits 1, 2, 3, 4 denote 1234. */
  lemma DigitsRead()
    ensures AllDigits("1234") && DigitsValue("1234") == 1234
  {
    var d := "1234";
    assert d[..3] == "123" && "123"[..2] == "12" && "12"[..1] == "1" && "1"[..0] == "";
  }

  /** The comma of "1,234" is the only character the filter drops. */
  lemma SeparatorFiltered()
    ensures KeepNumeric("1,234") == "1234"
  {
    var a, b := "1", "234";
    var comma := [','];
    assert a + comma + b == "1,234";
    assert Filter(a + comma + b, IsNumeric) == Filter(a + comma, IsNumeric) + Filter(b, IsNumeric) by {
      FilterConcat(a + comma, b, IsNumeric);
    }
    assert Filter(a + comma, IsNumeric) == a by {
      FilterConcat(a, comma, IsNumeric);
      FilterKeepsAll(a, IsNumeric);
      FilterKeepsNone(comma, IsNumeric);
    }
    assert Filter(b, IsNumeric) == b by {
      FilterKeepsAll(b, IsNumeric);
    }
    assert a + b == "1234";
  }

  /** Worked example: only an upper-case unit letter scales, so a lower-case `k` leaves the count as it is. */
  lemma NumPlaysExampleLowerCase()
    ensures NumPlays("12k") == Ok(12.0)
  {
    var s := "12k";
    assert !Contains(s, PlaysMarker);
    BeforeFirstWhole(s, PlaysMarker);
    FilterConcat("12", "k", IsNumeric);
    FilterKeepsAll("12", IsNumeric);
    assert Filter("k", IsNumeric) == [];
    assert s == "12" + "k";
    assert KeepNumeric(s) == "12";
    assert NatToString(12) == "12";
    ParseFloatNat(12);
  }

  /** Worked example: a label with no count before " plays" fails on `play_str[-1]`. */
  lemma NumPlaysExampleEmpty()
    ensures NumPlays(" plays") == Err(EmptyPlayCount)
  {
    assert OccursAt(" plays", PlaysMarker, 0);
    NumPlaysEmpty(" plays");
  }

  // ------------------------------------------------------- process_album_data

  /** A saved album page as the extractor returns it: the `title` attribute of each song element and of each play-count element, in page order. */
  datatype Page = Page(titles: seq<string>, playTexts: seq<string>)

  /** One row of a page's table: a song title and its parsed play count. */
  datatype Track = Track(title: string, plays: real)

  /** One row of the album index: file prefix, display name and release year. */
  datatype Album = Album(prefix: string, fullName: string, year: int)

  /** One row of the song table: a track stamped with its album's columns. */
  datatype SongRow = SongRow(title: string, plays: real, prefix: string, albumDisplayName: string, year: int)

  /** `[num_plays(play) for play in plays]`: every label parsed in order; the first label that fails raises. */
  function ParsePlays(texts: seq<string>): (r: Result<seq<real>, DataError>)
    ensures r.Ok? <==> forall i | 0 <= i < |texts| :: NumPlays(texts[i]).Ok?
    ensures r.Ok? ==> |r.value| == |texts| && forall i | 0 <= i < |texts| :: NumPlays(texts[i]) == Ok(r.value[i])
  {
    Traverse(texts, NumPlays)
  }

  /**
   * `process_album_data` on a page already read: the i-th title is paired
   * with the i-th parsed play count. The counts are parsed first, so a bad
   * label is reported before a length mismatch.
   */
  function ProcessAlbumData(page: Page): (r: Result<seq<Track>, DataError>)
    ensures r.Ok? <==> |page.titles| == |page.playTexts| && ParsePlays(page.playTexts).Ok?
    ensures ParsePlays(page.playTexts).Err? ==> r == Err(ParsePlays(page.playTexts).error)
    ensures ParsePlays(page.playTexts).Ok? && |page.titles| != |page.playTexts| ==>
              r == Err(LengthMismatch(|page.titles|, |page.playTexts|))
    ensures r.Ok? ==> |r.value| == |page.titles|
    ensures r.Ok? ==> forall i | 0 <= i < |page.titles| ::
              r.value[i].title == page.titles[i] && NumPlays(page.playTexts[i]) == Ok(r.value[i].plays)
  {
    match ParsePlays(page.playTexts)
    case Err(e) => Err(e)
    case Ok(plays) =>
      if |page.titles| != |plays| then Err(LengthMismatch(|page.titles|, |plays|))
      else Ok(seq(|plays|, i requires 0 <= i < |plays| => Track(page.titles[i], plays[i])))
  }

  // ------------------------------------------------------------- album loop

  /** The saved page of an album. */
  function PagePath(prefix: string): string {
    "../data/" + prefix + ".htm"
  }

  /** The cover copy the loop makes for an album: from the page's saved files into the covers directory. */
  function CoverCopyFor(prefix: string): (c: (string, string)) {
    ("../data/" + prefix + "_files/unnamed.jpg", "../album_covers/" + prefix + ".jpg")
  }

  /** `result_df['prefix'] = prefix` and so on: every track stamped with the album's three columns. */
  function AlbumRows(album: Album, tracks: seq<Track>): (rows: seq<SongRow>)
    ensures |rows| == |tracks|
    ensures forall i | 0 <= i < |tracks| ::
              rows[i] == SongRow(tracks[i].title, tracks[i].plays, album.prefix, album.fullName, album.year)
  {
    seq(|tracks|, i requires 0 <= i < |tracks| =>
      SongRow(tracks[i].title, tracks[i].plays, album.prefix, album.fullName, album.year))
  }

  /** One pass of the album loop: read the album's page, pair titles with counts and stamp the album's columns. */
  function AlbumSongs(album: Album, pages: map<string, Page>): (r: Result<seq<SongRow>, DataError>)
    ensures PagePath(album.prefix) !in pages ==> r == Err(FileNotFound(PagePath(album.prefix)))
    ensures r.Ok? ==> PagePath(album.prefix) in pages
    ensures r.Ok? ==> var page := pages[PagePath(album.prefix)];
              |r.value| == |page.titles| == |page.playTexts| &&
              forall i | 0 <= i < |page.titles| ::
                var row := r.value[i];
                row.title == page.titles[i] && NumPlays(page.playTexts[i]) == Ok(row.plays) &&
                row.prefix == album.prefix && row.albumDisplayName == album.fullName && row.year == album.year
    ensures PagePath(album.prefix) in pages ==> (r.Ok? <==> ProcessAlbumData(pages[PagePath(album.prefix)]).Ok?)
    ensures PagePath(album.prefix) in pages && ProcessAlbumData(pages[PagePath(album.prefix)]).Err? ==>
              r == Err(ProcessAlbumData(pages[PagePath(album.prefix)]).error)
  {
    var path := PagePath(album.prefix);
    if path !in pages then Err(FileNotFound(path))
    else
      match ProcessAlbumData(pages[path])
      case Err(e) => Err(e)
      case Ok(tracks) => Ok(AlbumRows(album, tracks))
  }

  /**
   * The `collect` list after the loop over `albums`: one block of rows per
   * album in index order, or the error of the first album whose page is
   * missing or does not parse.
   */
  function Collected(albums: seq<Album>, pages: map<string, Page>): (r: Result<seq<seq<SongRow>>, DataError>)
    ensures r.Ok? <==> forall k | 0 <= k < |albums| :: AlbumSongs(albums[k], pages).Ok?
    ensures r.Ok? ==> |r.value| == |albums| && forall k | 0 <= k < |albums| :: AlbumSongs(albums[k], pages) == Ok(r.value[k])
  {
    Traverse(albums, (a: Album) => AlbumSongs(a, pages))
  }

  // ------------------------------------------------------------- row filter

  /** `str.contains("(Extended Mix)")`: the pattern is a regular expression whose parentheses only group. */
  predicate HasExtendedMix(title: string) {
    Contains(title, ExtendedMix)
  }

  predicate Survives(row: SongRow) {
    !HasExtendedMix(row.title)
  }

  /** `song_df[~song_df['title'].str.contains('(Extended Mix)')]`. */
  function DropExtendedMixes(rows: seq<SongRow>): (r: seq<SongRow>)
    ensures forall i | 0 <= i < |r| :: !HasExtendedMix(r[i].title)
  {
    var r := Filter(rows, Survives);
    assert forall i | 0 <= i < |r| :: !HasExtendedMix(r[i].title) by {
      forall i | 0 <= i < |r| ensures !HasExtendedMix(r[i].title) { FilterMembers(rows, Survives, r[i]); }
    }
    r
  }

  /** The aligned version of every row that passes the filter: it survives with all of its copies, any other row with none. */
  lemma DropExtendedMixesCount(rows: seq<SongRow>, row: SongRow)
    ensures multiset(DropExtendedMixes(rows))[row] == if HasExtendedMix(row.title) then 0 else multiset(rows)[row]
  {
    FilterCount(rows, Survives, row);
  }

  /** A row is in the filtered table exactly when it was in the table and its title has no "Extended Mix". */
  lemma DropExtendedMixesMembers(rows: seq<SongRow>, row: SongRow)
    ensures row in DropExtendedMixes(rows) <==> row in rows && !HasExtendedMix(row.title)
  {
    FilterMembers(rows, Survives, row);
  }

  /** Survivors keep their relative order: filtering two runs of rows is filtering each. */
  lemma DropExtendedMixesConcat(a: seq<SongRow>, b: seq<SongRow>)
    ensures DropExtendedMixes(a + b) == DropExtendedMixes(a) + DropExtendedMixes(b)
  {
    FilterConcat(a, b, Survives);
  }

  /** The song table: the collected blocks concatenated, minus the Extended Mix rows; `pd.concat([])` raises. */
  function SongTable(albums: seq<Album>, pages: map<string, Page>): (r: Result<seq<SongRow>, DataError>)
    ensures albums == [] ==> r == Err(NothingToConcatenate)
    ensures r.Ok? <==> albums != [] && forall k | 0 <= k < |albums| :: AlbumSongs(albums[k], pages).Ok?
    ensures r.Ok? ==> forall i | 0 <= i < |r.value| :: !HasExtendedMix(r.value[i].title)
  {
    match Collected(albums, pages)
    case Err(e) => Err(e)
    case Ok(blocks) =>
      if blocks == [] then Err(NothingToConcatenate) else Ok(DropExtendedMixes(Flatten(blocks)))
  }

  /** The loop stops at the first album that fails, and the table is that album's error. */
  lemma CollectedStopsAt(albums: seq<Album>, pages: map<string, Page>, k: nat)
    requires k < |albums|
    requires forall j | 0 <= j < k :: AlbumSongs(albums[j], pages).Ok?
    requires AlbumSongs(albums[k], pages).Err?
    ensures Collected(albums, pages) == Err(AlbumSongs(albums[k], pages).error)
    ensures SongTable(albums, pages) == Err(AlbumSongs(albums[k], pages).error)
  {
    TraverseFirstError(albums, (a: Album) => AlbumSongs(a, pages), k);
  }

  /** One more album extends the collected blocks by its rows. */
  lemma CollectedSnoc(albums: seq<Album>, album: Album, pages: map<string, Page>)
    ensures Collected(albums + [album], pages)
         == match Collected(albums, pages)
            case Err(e) => Err(e)
            case Ok(blocks) => (match AlbumSongs(album, pages) case Err(e) => Err(e) case Ok(rows) => Ok(blocks + [rows]))
  {
    TraverseSnoc(albums, album, (a: Album) => AlbumSongs(a, pages));
  }

  /** The loop's step: when album k yields its rows, the blocks collected so far gain them. */
  lemma CollectedStep(albums: seq<Album>, pages: map<string, Page>, k: nat, collect: seq<seq<SongRow>>,
                      rows: seq<SongRow>)
    requires k < |albums|
    requires Collected(albums[..k], pages) == Ok(collect)
    requires AlbumSongs(albums[k], pages) == Ok(rows)
    ensures Collected(albums[..k + 1], pages) == Ok(collect + [rows])
  {
    var done := albums[..k];
    assert albums[..k + 1] == done + [albums[k]];
    CollectedSnoc(done, albums[k], pages);
  }

  /** The rows of the song table are exactly the rows of the albums' pages whose titles have no "Extended Mix". */
  lemma SongTableRows(albums: seq<Album>, pages: map<string, Page>, row: SongRow)
    requires SongTable(albums, pages).Ok?
    ensures row in SongTable(albums, pages).value
        <==> !HasExtendedMix(row.title) &&
             exists k | 0 <= k < |albums| :: row in AlbumSongs(albums[k], pages).value
  {
    var blocks := Collected(albums, pages).value;
    DropExtendedMixesMembers(Flatten(blocks), row);
    if row in Flatten(blocks) {
      FlattenMember(blocks, row);
      var k :| 0 <= k < |blocks| && row in blocks[k];
      assert row in AlbumSongs(albums[k], pages).value;
    }
    if exists k | 0 <= k < |albums| :: row in AlbumSongs(albums[k], pages).value {
      var k :| 0 <= k < |albums| && row in AlbumSongs(albums[k], pages).value;
      assert row in blocks[k];
    }
  }

  /** Adding an album to the index appends its surviving rows to the end of the table, after every earlier row. */
  lemma SongTableSnoc(albums: seq<Album>, album: Album, pages: map<string, Page>)
    requires SongTable(albums, pages).Ok? && AlbumSongs(album, pages).Ok?
    ensures SongTable(albums + [album], pages)
         == Ok(SongTable(albums, pages).value + DropExtendedMixes(AlbumSongs(album, pages).value))
  {
    CollectedSnoc(albums, album, pages);
    var blocks := Collected(albums, pages).value;
    var rows := AlbumSongs(album, pages).value;
    assert (blocks + [rows])[..|blocks + [rows]| - 1] == blocks;
    DropExtendedMixesConcat(Flatten(blocks), rows);
  }

  /**
   * The script's album loop and the table built after it: each album in
   * index order is read and stamped, its block appended to `collect` and its
   * cover copied; an album that fails ends the run before its cover is
   * copied. Then the blocks are concatenated and the Extended Mix rows dropped.
   */
  method BuildSongTable(albums: seq<Album>, pages: map<string, Page>)
    returns (table: Result<seq<SongRow>, DataError>, copies: seq<(string, string)>)
    ensures table == SongTable(albums, pages)
    ensures |copies| <= |albums|
    ensures forall k | 0 <= k < |copies| ::
              copies[k] == CoverCopyFor(albums[k].prefix) && AlbumSongs(albums[k], pages).Ok?
    ensures |copies| < |albums| ==>
              AlbumSongs(albums[|copies|], pages).Err? && table == Err(AlbumSongs(albums[|copies|], pages).error)
  {
    var collect: seq<seq<SongRow>> := [];
    copies := [];
    var k := 0;
    while k < |albums|
      invariant 0 <= k <= |albums| && |copies| == k
      invariant Collected(albums[..k], pages) == Ok(collect)
      invariant forall i | 0 <= i < k ::
                  copies[i] == CoverCopyFor(albums[i].prefix) && AlbumSongs(albums[i], pages).Ok?
    {
      var result := AlbumSongs(albums[k], pages);
      if result.Err? {
        CollectedStopsAt(albums, pages, k);
        return Err(result.error), copies;
      }
      CollectedStep(albums, pages, k, collect, result.value);
      collect := collect + [result.value];
      copies := copies + [CoverCopyFor(albums[k].prefix)];
      k := k + 1;
    }
    assert albums[..k] == albums;
    if collect == [] {
      table := Err(NothingToConcatenate);
    } else {
      table := Ok(DropExtendedMixes(Flatten(collect)));
    }
  }
}
