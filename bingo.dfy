/**
 * The card generator (src/generate_bingo.py, `kglw_bingo`): draw 25 songs,
 * lay them out on a 5x5 grid whose centre is a free space, label each cell
 * with its song, album and (optionally) cover art, and add the banner word,
 * the caption and the credit line.
 *
 * The random draw is a parameter: 25 distinct row positions of the song
 * table. Rendering is abstracted to the list of placements the script issues
 * (text with its style, or a picture with its zoom and opacity) and the
 * output path; fonts, strokes, grid lines and line wrapping are not modelled.
 */
module Bingo {
  import opened Results
  import opened Seqs
  import opened Decimal
  import opened Grid
  import SongData

  type SongRow = SongData.SongRow

  /** Cells on a card, side of the grid, and the row-major position of `grid[2][2]`. */
  const CardSize := 25
  const Side := 5
  const Centre := 12

  const FreeSpace := "FREE SPACE"
  const WatermarkPath := "../album_covers/gator.jpg"
  const CreditUrl := "https://github.com/reeserich/king_gizz_bingo"

  /** `np.random.seed` accepts None or an int in [0, 2^32). */
  const SeedBound := 0x1_0000_0000

  /** The `--weight` choices. */
  datatype Weighting = Popularity | Year | Hybrid | Unweighted

  /** Which call to `ax.text` placed a string (font, size, alignment and stroke follow from it). */
  datatype Style = SongTitle | AlbumLabel | FreeSpaceLabel | BannerLetter | CaptionLine | CreditLine

  /** What is drawn on the card and where, in data coordinates. */
  datatype Placement =
    | Text(s: string, x: real, y: real, style: Style)
    | Picture(path: string, x: real, y: real, zoom: real, alpha: real)

  /** The drawn figure and the file it is saved to. */
  datatype Card = Card(items: seq<Placement>, path: string)

  datatype BingoError =
    | InvalidSeed(seed: int)                // `np.random.seed` rejects it (ValueError)
    | EmptyPopulation                       // `np.random.choice` on an empty table ('a' cannot be empty)
    | SampleLargerThanPopulation(rows: nat) // `np.random.choice(size=25, replace=False)` on fewer rows
    | BannerTooShort(length: nat)           // `top_word[k]` past the end (IndexError)

  // ------------------------------------------------------------ lookup tables

  /** No later row of the table carries the title of row i. */
  predicate LastOccurrence(catalog: seq<SongRow>, i: int)
    requires 0 <= i < |catalog|
  {
    forall j | i < j < |catalog| :: catalog[j].title != catalog[i].title
  }

  /** The titles of a song table. */
  function Titles(catalog: seq<SongRow>): set<string> {
    set i | 0 <= i < |catalog| :: catalog[i].title
  }

  /** `dict(zip(song_df['title'], song_df[column]))`: one entry per distinct title. */
  function TitleDict<V>(catalog: seq<SongRow>, field: SongRow -> V): (m: map<string, V>)
    ensures m.Keys == Titles(catalog)
  {
    if catalog == [] then map[]
    else
      var n := |catalog| - 1;
      var init := catalog[..n];
      var last := catalog[n];
      assert Titles(catalog) == Titles(init) + {last.title} by {
        forall t | t in Titles(catalog) ensures t in Titles(init) + {last.title} {
          var i :| 0 <= i < |catalog| && catalog[i].title == t;
          if i < n { assert init[i].title == t; }
        }
        forall t | t in Titles(init) ensures t in Titles(catalog) {
          var i :| 0 <= i < |init| && init[i].title == t;
          assert catalog[i].title == t;
        }
      }
      TitleDict(init, field)[last.title := field(last)]
  }

  /** Every row's title is a key of the table. */
  lemma TitleInDict<V>(catalog: seq<SongRow>, field: SongRow -> V, i: nat)
    requires i < |catalog|
    ensures catalog[i].title in TitleDict(catalog, field)
  {
    assert catalog[i].title in Titles(catalog);
  }

  /** Later rows overwrite earlier ones: a title maps to the value of its last row. */
  lemma {:induction false} TitleDictLast<V>(catalog: seq<SongRow>, field: SongRow -> V, i: nat)
    requires i < |catalog| && LastOccurrence(catalog, i)
    ensures catalog[i].title in TitleDict(catalog, field)
    ensures TitleDict(catalog, field)[catalog[i].title] == field(catalog[i])
  {
    TitleInDict(catalog, field, i);
    var n := |catalog| - 1;
    if i < n {
      var init := catalog[..n];
      assert init[i] == catalog[i];
      assert LastOccurrence(init, i);
      TitleDictLast(init, field, i);
    }
  }

  function AlbumDict(catalog: seq<SongRow>): (m: map<string, string>)
    ensures m.Keys == Titles(catalog)
  {
    TitleDict(catalog, (row: SongRow) => row.albumDisplayName)
  }

  function PrefixDict(catalog: seq<SongRow>): (m: map<string, string>)
    ensures m.Keys == Titles(catalog)
  {
    TitleDict(catalog, (row: SongRow) => row.prefix)
  }

  // ---------------------------------------------------------------- the draw

  /** What `np.random.choice(size=25, replace=False)` returns, as row positions: 25 distinct rows of the table. */
  predicate ValidDraw(draw: seq<nat>, rows: nat) {
    |draw| == CardSize
    && (forall k | 0 <= k < |draw| :: draw[k] < rows)
    && (forall k, l | 0 <= k < l < |draw| :: draw[k] != draw[l])
  }

  /** The drawn titles in draw order. */
  function Selection(catalog: seq<SongRow>, draw: seq<nat>): (sel: seq<string>)
    requires ValidDraw(draw, |catalog|)
    ensures |sel| == CardSize
  {
    seq(CardSize, k requires 0 <= k < CardSize => catalog[draw[k]].title)
  }

  /** Every drawn title has an album and a prefix: the draw and the lookup tables come from the same column. */
  lemma SelectionInDicts(catalog: seq<SongRow>, draw: seq<nat>)
    requires ValidDraw(draw, |catalog|)
    ensures forall k | 0 <= k < CardSize ::
              Selection(catalog, draw)[k] in AlbumDict(catalog) && Selection(catalog, draw)[k] in PrefixDict(catalog)
  {
    var sel := Selection(catalog, draw);
    forall k | 0 <= k < CardSize ensures sel[k] in AlbumDict(catalog) && sel[k] in PrefixDict(catalog) {
      assert sel[k] in Titles(catalog) by { assert catalog[draw[k]].title == sel[k]; }
    }
  }

  /**
   * The draw never repeats a row, so the drawn titles repeat exactly when
   * the table itself repeats a title: two draws share a title only when
   * their two distinct rows do.
   */
  lemma SelectionRepeats(catalog: seq<SongRow>, draw: seq<nat>, k: nat, l: nat)
    requires ValidDraw(draw, |catalog|) && k < l < CardSize
    ensures draw[k] != draw[l]
    ensures Selection(catalog, draw)[k] == Selection(catalog, draw)[l]
        <==> catalog[draw[k]].title == catalog[draw[l]].title
  {
  }

  /** With no title repeated in the table, the 25 drawn titles are all different. */
  lemma SelectionDistinct(catalog: seq<SongRow>, draw: seq<nat>)
    requires ValidDraw(draw, |catalog|)
    requires forall m, n | 0 <= m < n < |catalog| :: catalog[m].title != catalog[n].title
    ensures forall k, l | 0 <= k < l < CardSize :: Selection(catalog, draw)[k] != Selection(catalog, draw)[l]
  {
    var sel := Selection(catalog, draw);
    forall k, l | 0 <= k < l < CardSize ensures sel[k] != sel[l] {
      SelectionRepeats(catalog, draw, k, l);
      if draw[k] > draw[l] {
        assert catalog[draw[l]].title != catalog[draw[k]].title;
      }
    }
  }

  /** The reshaped grid after `song_selection[2][2] = 'FREE SPACE'`, row-major. */
  function Board(sel: seq<string>): (b: seq<string>)
    requires |sel| == CardSize
    ensures |b| == CardSize && b[Centre] == FreeSpace
    ensures forall k | 0 <= k < CardSize && k != Centre :: b[k] == sel[k]
  {
    sel[Centre := FreeSpace]
  }

  // ------------------------------------------------------------------ cells

  /** Every grid cell the loop visits has an entry in both lookup tables. */
  predicate Listed(board: seq<string>, albums: map<string, string>, prefixes: map<string, string>)
    requires |board| == CardSize
  {
    forall k | 0 <= k < CardSize && k != Centre :: board[k] in albums && board[k] in prefixes
  }

  function CoverPath(prefix: string): string {
    "../album_covers/" + prefix + ".jpg"
  }

  /** The placements for the cell in row i, column j: drawn at x = i, y = j, so the grid appears transposed. */
  function CellItems(title: string, i: int, j: int, albums: map<string, string>, prefixes: map<string, string>,
                     covers: bool): (items: seq<Placement>)
    requires title in albums && title in prefixes
    ensures |items| == Width(covers)
  {
    [Text(title, i as real, j as real, SongTitle),
     Text(albums[title], i as real, j as real - 0.05, AlbumLabel)]
    + (if covers then [Picture(CoverPath(prefixes[title]), i as real, j as real, 0.22, 0.25)] else [])
  }

  /** Placements per visited cell. */
  function Width(covers: bool): nat {
    if covers then 3 else 2
  }

  /**
   * The placements the loop body issues for row i, column j of the board:
   * those of its song for every visited cell, nothing for the centre.
   */
  function CellFn(board: seq<string>, albums: map<string, string>, prefixes: map<string, string>,
                  covers: bool): (int, int) -> seq<Placement>
  {
    (i: int, j: int) =>
      if Visited(i, j) && |board| == CardSize && board[5 * i + j] in albums && board[5 * i + j] in prefixes
      then CellItems(board[5 * i + j], i, j, albums, prefixes, covers)
      else []
  }

  /** Row-major positions: cell (i, j) is position 5i + j, and that position's row and column are i and j. */
  lemma RowMajor(i: int, j: int)
    requires 0 <= i < 5 && 0 <= j < 5
    ensures 0 <= 5 * i + j < CardSize && (5 * i + j) / 5 == i && (5 * i + j) % 5 == j
    ensures 5 * i + j == Centre <==> i == 2 && j == 2
  {
  }

  /** A visited cell of a listed board issues the placements of its song. */
  lemma CellFnAt(board: seq<string>, albums: map<string, string>, prefixes: map<string, string>, covers: bool,
                 i: int, j: int)
    requires |board| == CardSize && Listed(board, albums, prefixes) && Visited(i, j)
    ensures board[5 * i + j] in albums && board[5 * i + j] in prefixes
    ensures CellFn(board, albums, prefixes, covers)(i, j) == CellItems(board[5 * i + j], i, j, albums, prefixes, covers)
  {
    assert 5 * i + j != Centre;
  }

  /** All 24 visited cells, in the order the nested loop visits them. */
  function Layout(board: seq<string>, albums: map<string, string>, prefixes: map<string, string>,
                  covers: bool): seq<Placement>
  {
    Visit(CellFn(board, albums, prefixes, covers))
  }

  // ------------------------------------------------------- the fixed labels

  function WatermarkItems(covers: bool): (items: seq<Placement>)
    ensures |items| == if covers then 1 else 0
    ensures forall p | p in items :: p.Picture?
  {
    if covers then [Picture(WatermarkPath, 2.0, 1.9, 0.04, 1.0)] else []
  }

  const FreeSpaceItem := Text(FreeSpace, 2.0, 2.25, FreeSpaceLabel)

  /** `top_word[0]` .. `top_word[4]` across the top row. */
  function Banner(word: string): (items: seq<Placement>)
    requires |word| >= Side
    ensures |items| == Side
    ensures forall k | 0 <= k < Side :: items[k] == Text([word[k]], k as real, 4.75, BannerLetter)
  {
    [Text([word[0]], 0.0, 4.75, BannerLetter),
     Text([word[1]], 1.0, 4.75, BannerLetter),
     Text([word[2]], 2.0, 4.75, BannerLetter),
     Text([word[3]], 3.0, 4.75, BannerLetter),
     Text([word[4]], 4.0, 4.75, BannerLetter)]
  }

  /** The names argparse accepts for `--weight`. */
  const WeightChoices := ["popularity", "year", "hybrid", "none"]

  /** The name the caption prints for a weighting: one of the accepted choices. */
  function WeightName(w: Weighting): (name: string)
    ensures name in WeightChoices
  {
    match w
    case Popularity => "popularity"
    case Year => "year"
    case Hybrid => "hybrid"
    case Unweighted => "none"
  }

  /** `str(seed)`. */
  function SeedText(seed: Option<int>): (s: string)
    ensures |s| > 0
    ensures s == "None" <==> seed.None?
  {
    match seed
    case None => "None"
    case Some(n) => IntToString(n)
  }

  /** Different weightings have different names, and no name holds a comma. */
  lemma WeightNameDistinct(a: Weighting, b: Weighting)
    ensures ',' !in WeightName(a)
    ensures WeightName(a) == WeightName(b) ==> a == b
  {
  }

  /** Every accepted `--weight` choice names exactly one weighting. */
  lemma WeightChoiceNamed(name: string)
    requires name in WeightChoices
    ensures exists w :: WeightName(w) == name
  {
    var k :| 0 <= k < |WeightChoices| && WeightChoices[k] == name;
    var w := [Popularity, Year, Hybrid, Unweighted][k];
    assert WeightName(w) == name;
  }

  /** Different seeds are written differently. */
  lemma SeedTextInjective(a: Option<int>, b: Option<int>)
    requires SeedText(a) == SeedText(b)
    ensures a == b
  {
    if a.Some? && b.Some? {
      IntToStringInjective(a.value, b.value);
    }
  }

  const CaptionPrefix := "Generated with KGLW Bingo Generator (weighting: "
  const SeedLabel := ", seed: "

  function Caption(weight: Weighting, seed: Option<int>): string {
    CaptionPrefix + WeightName(weight) + SeedLabel + SeedText(seed) + ")"
  }

  function OutputPath(filename: string): string {
    "../output/" + filename + ".pdf"
  }

  predicate SeedAccepted(seed: Option<int>) {
    seed.Some? ==> 0 <= seed.value < SeedBound
  }

  /** The caption and the credit line under the grid. */
  function Footer(weight: Weighting, seed: Option<int>): seq<Placement> {
    [Text(Caption(weight, seed), 2.0, -0.75, CaptionLine), Text(CreditUrl, 2.0, -1.0, CreditLine)]
  }

  // ---------------------------------------------------------------- the card

  /** What is drawn after the grid cells: the watermark, the free-space label, the banner, the caption and the credit. */
  function Labels(covers: bool, topWord: string, weight: Weighting, seed: Option<int>): seq<Placement>
    requires |topWord| >= Side
  {
    WatermarkItems(covers) + [FreeSpaceItem] + Banner(topWord) + Footer(weight, seed)
  }

  /** Everything drawn on a card, in drawing order. */
  function Placements(board: seq<string>, albums: map<string, string>, prefixes: map<string, string>, covers: bool,
                      topWord: string, weight: Weighting, seed: Option<int>): seq<Placement>
    requires |topWord| >= Side
  {
    Layout(board, albums, prefixes, covers) + Labels(covers, topWord, weight, seed)
  }

  /** The card `kglw_bingo` draws for the given draw, or the error it raises first. */
  function CardOf(catalog: seq<SongRow>, filename: string, topWord: string, covers: bool,
                  weight: Weighting, seed: Option<int>, draw: seq<nat>): (r: Result<Card, BingoError>)
    requires |catalog| >= CardSize ==> ValidDraw(draw, |catalog|)
    ensures r.Ok? <==> SeedAccepted(seed) && |catalog| >= CardSize && |topWord| >= Side
    ensures !SeedAccepted(seed) ==> r == Err(InvalidSeed(seed.value))
    ensures SeedAccepted(seed) && |catalog| == 0 ==> r == Err(EmptyPopulation)
    ensures SeedAccepted(seed) && 0 < |catalog| < CardSize ==> r == Err(SampleLargerThanPopulation(|catalog|))
    ensures SeedAccepted(seed) && |catalog| >= CardSize && |topWord| < Side ==> r == Err(BannerTooShort(|topWord|))
    ensures r.Ok? ==> r.value.path == OutputPath(filename)
  {
    if !SeedAccepted(seed) then Err(InvalidSeed(seed.value))
    else if |catalog| == 0 then Err(EmptyPopulation)
    else if |catalog| < CardSize then Err(SampleLargerThanPopulation(|catalog|))
    else if |topWord| < Side then Err(BannerTooShort(|topWord|))
    else
      var board := Board(Selection(catalog, draw));
      Ok(Card(Placements(board, AlbumDict(catalog), PrefixDict(catalog), covers, topWord, weight, seed),
              OutputPath(filename)))
  }

  // ---------------------------------------------------------- the procedure

  /** The grid holds the row-major cells `board`: row i, column j is board[5i + j]. */
  predicate Holds(grid: array2<string>, board: seq<string>)
    reads grid
  {
    grid.Length0 == 5 && grid.Length1 == 5 && |board| == CardSize
    && forall i, j | 0 <= i < 5 && 0 <= j < 5 :: grid[i, j] == board[5 * i + j]
  }

  /** `song_selection.reshape(5, 5)`: row i holds draws 5i to 5i+4. */
  method Reshape(sel: seq<string>) returns (grid: array2<string>)
    requires |sel| == CardSize
    ensures fresh(grid) && grid.Length0 == Side && grid.Length1 == Side
    ensures Holds(grid, sel)
  {
    grid := new string[Side, Side]((i: int, j: int) requires 0 <= i < Side && 0 <= j < Side => sel[5 * i + j]);
  }

  /** `song_selection[2][2] = 'FREE SPACE'`: the centre cell is overwritten and every other cell is left alone. */
  method MarkFreeSpace(grid: array2<string>)
    requires grid.Length0 == Side && grid.Length1 == Side
    modifies grid
    ensures grid[2, 2] == FreeSpace
    ensures forall i, j | 0 <= i < Side && 0 <= j < Side && (i != 2 || j != 2) :: grid[i, j] == old(grid[i, j])
  {
    grid[2, 2] := FreeSpace;
  }

  /** The nested `for i` / `for j` loop: every cell but the centre, row by row, issuing its placements. */
  method PlaceCells(grid: array2<string>, ghost board: seq<string>, albums: map<string, string>,
                    prefixes: map<string, string>, covers: bool) returns (items: seq<Placement>)
    requires Holds(grid, board) && Listed(board, albums, prefixes)
    ensures items == Layout(board, albums, prefixes, covers)
  {
    ghost var cell := CellFn(board, albums, prefixes, covers);
    IssuedEnds(cell);
    items := [];
    for i := 0 to 5
      invariant items == Issued(cell, i, 0)
    {
      for j := 0 to 5
        invariant items == Issued(cell, i, j)
      {
        IssuedStep(cell, i, j);
        if i != 2 || j != 2 {
          var title := grid[i, j];
          CellFnAt(board, albums, prefixes, covers, i, j);
          items := items + CellItems(title, i, j, albums, prefixes, covers);
        }
      }
      IssuedNextRow(cell, i);
    }
  }

  /** `kglw_bingo` with the random draw given: the card it saves, or the error it raises first. */
  method KglwBingo(catalog: seq<SongRow>, filename: string, topWord: string, covers: bool,
                   weight: Weighting, seed: Option<int>, draw: seq<nat>) returns (r: Result<Card, BingoError>)
    requires |catalog| >= CardSize ==> ValidDraw(draw, |catalog|)
    ensures r == CardOf(catalog, filename, topWord, covers, weight, seed, draw)
  {
    if !SeedAccepted(seed) {
      return Err(InvalidSeed(seed.value));
    }
    var albums := AlbumDict(catalog);
    var prefixes := PrefixDict(catalog);
    if |catalog| == 0 {
      return Err(EmptyPopulation);
    }
    if |catalog| < CardSize {
      return Err(SampleLargerThanPopulation(|catalog|));
    }
    var selection := Selection(catalog, draw);
    var grid := Reshape(selection);
    MarkFreeSpace(grid);
    ghost var board := Board(selection);
    assert Holds(grid, board);
    SelectionInDicts(catalog, draw);
    var items := PlaceCells(grid, board, albums, prefixes, covers);
    ghost var cells := items;
    items := items + WatermarkItems(covers);
    items := items + [FreeSpaceItem];
    if |topWord| < Side {
      return Err(BannerTooShort(|topWord|));
    }
    items := items + Banner(topWord);
    items := items + Footer(weight, seed);
    assert items == cells + Labels(covers, topWord, weight, seed) by {
      var w, f, b, t := WatermarkItems(covers), [FreeSpaceItem], Banner(topWord), Footer(weight, seed);
      ConcatAssoc(cells, w, f);
      ConcatAssoc(cells, w + f, b);
      ConcatAssoc(cells, w + f + b, t);
    }
    r := Ok(Card(items, OutputPath(filename)));
  }

  // ------------------------------------------------------- layout properties

  /** With every song listed, each visited cell issues the same number of placements. */
  lemma CellFnUniform(board: seq<string>, albums: map<string, string>, prefixes: map<string, string>, covers: bool)
    requires |board| == CardSize && Listed(board, albums, prefixes)
    ensures Uniform(CellFn(board, albums, prefixes, covers), Width(covers))
  {
  }

  /** Where the placements of the cell in row i, column j start in the layout. */
  function CellOffset(covers: bool, i: nat, j: nat): (o: nat)
    ensures o == Width(covers) * Rank(i, j)
  {
    if covers then 3 * Rank(i, j) else 2 * Rank(i, j)
  }

  /**
   * The cell in row i, column j (any but the centre) is drawn at x = i,
   * y = j: its song title, its album label just below, and its cover art when
   * covers are on, in that order, after the cells visited before it.
   */
  lemma LayoutCell(board: seq<string>, albums: map<string, string>, prefixes: map<string, string>, covers: bool,
                   i: nat, j: nat)
    requires |board| == CardSize && Listed(board, albums, prefixes) && Visited(i, j)
    ensures |Layout(board, albums, prefixes, covers)| == if covers then 72 else 48
    ensures var items := Layout(board, albums, prefixes, covers);
            var o := CellOffset(covers, i, j);
            var title := board[5 * i + j];
            o + Width(covers) <= |items|
            && items[o] == Text(title, i as real, j as real, SongTitle)
            && items[o + 1] == Text(albums[title], i as real, j as real - 0.05, AlbumLabel)
            && (covers ==> items[o + 2] == Picture(CoverPath(prefixes[title]), i as real, j as real, 0.22, 0.25))
  {
    var cell := CellFn(board, albums, prefixes, covers);
    var w := Width(covers);
    CellFnUniform(board, albums, prefixes, covers);
    VisitCell(cell, w, i, j);
    assert w * 24 == if covers then 72 else 48;
    CellFnAt(board, albums, prefixes, covers, i, j);
    var items := Layout(board, albums, prefixes, covers);
    var o := CellOffset(covers, i, j);
    var block := CellItems(board[5 * i + j], i, j, albums, prefixes, covers);
    assert items[o..o + w] == block;
    SliceAt(items, o, o + w, 0);
    SliceAt(items, o, o + w, 1);
    if covers {
      SliceAt(items, o, o + w, 2);
    }
  }

  // --------------------------------------------------------- card properties

  /** A song title drawn at x = a, y = b. */
  predicate IsTitleAt(p: Placement, a: int, b: int) {
    p.Text? && p.style == SongTitle && p.x == a as real && p.y == b as real
  }

  predicate IsSongTitle(p: Placement) {
    p.Text? && p.style == SongTitle
  }

  predicate IsFreeSpaceLabel(p: Placement) {
    p.Text? && p.style == FreeSpaceLabel
  }

  predicate IsPicture(p: Placement) {
    p.Picture?
  }

  /** A card that is drawn holds the placements of its board, and its board is fully listed. */
  lemma CardPlacements(catalog: seq<SongRow>, filename: string, topWord: string, covers: bool,
                       weight: Weighting, seed: Option<int>, draw: seq<nat>, card: Card)
    requires |catalog| >= CardSize ==> ValidDraw(draw, |catalog|)
    requires CardOf(catalog, filename, topWord, covers, weight, seed, draw) == Ok(card)
    ensures ValidDraw(draw, |catalog|) && |topWord| >= Side
    ensures Listed(Board(Selection(catalog, draw)), AlbumDict(catalog), PrefixDict(catalog))
    ensures card.items == Placements(Board(Selection(catalog, draw)), AlbumDict(catalog), PrefixDict(catalog),
                                     covers, topWord, weight, seed)
  {
    SelectionInDicts(catalog, draw);
  }

  /** Nothing after the grid cells is a song title. */
  lemma LabelsHaveNoTitles(covers: bool, topWord: string, weight: Weighting, seed: Option<int>)
    requires |topWord| >= Side
    ensures forall k | 0 <= k < |Labels(covers, topWord, weight, seed)| :: !IsSongTitle(Labels(covers, topWord, weight, seed)[k])
    ensures forall p | p in Labels(covers, topWord, weight, seed) :: !IsSongTitle(p)
  {
    var labels := Labels(covers, topWord, weight, seed);
    var banner := Banner(topWord);
    assert forall p | p in banner :: !IsSongTitle(p) by {
      forall p | p in banner ensures !IsSongTitle(p) {
        var k :| 0 <= k < |banner| && banner[k] == p;
      }
    }
    assert forall p | p in labels :: !IsSongTitle(p);
    forall k | 0 <= k < |labels| ensures !IsSongTitle(labels[k]) {
      assert labels[k] in labels;
    }
  }

  /** Filtering one cell's placements keeps the title, the album label and the cover that pass, in that order. */
  lemma CellFilter(title: string, i: int, j: int, albums: map<string, string>, prefixes: map<string, string>,
                   covers: bool, keep: Placement -> bool)
    requires title in albums && title in prefixes
    ensures var items := CellItems(title, i, j, albums, prefixes, covers);
            Filter(items, keep)
            == (if keep(items[0]) then [items[0]] else []) + (if keep(items[1]) then [items[1]] else [])
               + (if covers && keep(items[2]) then [items[2]] else [])
  {
    var items := CellItems(title, i, j, albums, prefixes, covers);
    var first := if keep(items[0]) then [items[0]] else [];
    var second := if keep(items[1]) then [items[1]] else [];
    var third := if covers && keep(items[2]) then [items[2]] else [];
    assert Filter(items, keep) == first + Filter(items[1..], keep);
    assert items[1..][1..] == items[2..];
    assert Filter(items[1..], keep) == second + Filter(items[2..], keep);
    if covers {
      assert items[2..][1..] == [];
      assert Filter(items[2..], keep) == third + Filter([], keep);
    } else {
      assert items[2..] == [];
    }
    ConcatAssoc(first, second, third);
  }

  /** The layout of a listed board has one song title at each visited cell and none anywhere else. */
  lemma LayoutTitleAt(board: seq<string>, albums: map<string, string>, prefixes: map<string, string>, covers: bool,
                      a: int, b: int)
    requires |board| == CardSize && Listed(board, albums, prefixes)
    ensures |Filter(Layout(board, albums, prefixes, covers), (p: Placement) => IsTitleAt(p, a, b))|
            == if Visited(a, b) then 1 else 0
  {
    var keep := (p: Placement) => IsTitleAt(p, a, b);
    var cell := CellFn(board, albums, prefixes, covers);
    forall i, j | 0 <= i < 5 && 0 <= j < 5 && Visited(i, j)
      ensures |Filter(cell(i, j), keep)| == if i == a && j == b then 1 else 0
    {
      CellFnAt(board, albums, prefixes, covers, i, j);
      CellFilter(board[5 * i + j], i, j, albums, prefixes, covers, keep);
    }
    VisitCountOne(cell, keep, a, b);
  }

  /** Only the layout draws song titles. */
  lemma PlacementsTitleAt(board: seq<string>, albums: map<string, string>, prefixes: map<string, string>,
                          covers: bool, topWord: string, weight: Weighting, seed: Option<int>, a: int, b: int)
    requires |board| == CardSize && Listed(board, albums, prefixes) && |topWord| >= Side
    ensures |Filter(Placements(board, albums, prefixes, covers, topWord, weight, seed), (p: Placement) => IsTitleAt(p, a, b))|
            == if Visited(a, b) then 1 else 0
  {
    var keep := (p: Placement) => IsTitleAt(p, a, b);
    LayoutTitleAt(board, albums, prefixes, covers, a, b);
    LabelsHaveNoTitles(covers, topWord, weight, seed);
    FilterKeepsNone(Labels(covers, topWord, weight, seed), keep);
    FilterConcat(Layout(board, albums, prefixes, covers), Labels(covers, topWord, weight, seed), keep);
  }

  /** Exactly one song title is drawn at each cell but the centre, and none at the centre or off the grid. */
  lemma CardTitleAt(catalog: seq<SongRow>, filename: string, topWord: string, covers: bool,
                    weight: Weighting, seed: Option<int>, draw: seq<nat>, card: Card, a: int, b: int)
    requires |catalog| >= CardSize ==> ValidDraw(draw, |catalog|)
    requires CardOf(catalog, filename, topWord, covers, weight, seed, draw) == Ok(card)
    ensures |Filter(card.items, (p: Placement) => IsTitleAt(p, a, b))| == if Visited(a, b) then 1 else 0
  {
    CardPlacements(catalog, filename, topWord, covers, weight, seed, draw, card);
    PlacementsTitleAt(Board(Selection(catalog, draw)), AlbumDict(catalog), PrefixDict(catalog), covers, topWord,
                      weight, seed, a, b);
  }

  /** The only song title a cell issues is its own, at its own position. */
  lemma CellTitle(title: string, i: int, j: int, albums: map<string, string>, prefixes: map<string, string>,
                  covers: bool, p: Placement)
    requires title in albums && title in prefixes
    requires p in CellItems(title, i, j, albums, prefixes, covers) && IsSongTitle(p)
    ensures p == Text(title, i as real, j as real, SongTitle)
  {
  }

  /** Every song title on the layout is the title of a visited cell of the board, drawn at that cell. */
  lemma LayoutTitleFrom(board: seq<string>, albums: map<string, string>, prefixes: map<string, string>, covers: bool,
                        p: Placement)
    requires |board| == CardSize && Listed(board, albums, prefixes)
    requires p in Layout(board, albums, prefixes, covers) && IsSongTitle(p)
    ensures exists i, j | 0 <= i < 5 && 0 <= j < 5 && Visited(i, j) ::
              p == Text(board[5 * i + j], i as real, j as real, SongTitle)
  {
    var cell := CellFn(board, albums, prefixes, covers);
    VisitMember(cell, p);
    var i, j :| 0 <= i < 5 && 0 <= j < 5 && Visited(i, j) && p in cell(i, j);
    CellFnAt(board, albums, prefixes, covers, i, j);
    CellTitle(board[5 * i + j], i, j, albums, prefixes, covers, p);
  }

  /** The drawn board holds draw 5i + j in row i, column j, for every cell but the centre. */
  lemma BoardAt(catalog: seq<SongRow>, draw: seq<nat>, i: int, j: int)
    requires ValidDraw(draw, |catalog|) && Visited(i, j)
    ensures 0 <= 5 * i + j < CardSize
    ensures Board(Selection(catalog, draw))[5 * i + j] == catalog[draw[5 * i + j]].title
  {
    RowMajor(i, j);
  }

  /** Every song title of a card's placements is the title of a visited cell, drawn at that cell. */
  lemma PlacementsTitleFrom(board: seq<string>, albums: map<string, string>, prefixes: map<string, string>,
                            covers: bool, topWord: string, weight: Weighting, seed: Option<int>, p: Placement)
    requires |board| == CardSize && Listed(board, albums, prefixes) && |topWord| >= Side
    requires p in Placements(board, albums, prefixes, covers, topWord, weight, seed) && IsSongTitle(p)
    ensures exists i, j | 0 <= i < 5 && 0 <= j < 5 && Visited(i, j) ::
              p == Text(board[5 * i + j], i as real, j as real, SongTitle)
  {
    LabelsHaveNoTitles(covers, topWord, weight, seed);
    LayoutTitleFrom(board, albums, prefixes, covers, p);
  }

  /**
   * Every song title on a card is a draw other than draw 12: draw 5i + j,
   * which `reshape(5, 5)` puts in row i, column j, drawn at x = i, y = j.
   */
  lemma CardTitleFrom(catalog: seq<SongRow>, filename: string, topWord: string, covers: bool,
                      weight: Weighting, seed: Option<int>, draw: seq<nat>, card: Card, p: Placement)
    requires |catalog| >= CardSize ==> ValidDraw(draw, |catalog|)
    requires CardOf(catalog, filename, topWord, covers, weight, seed, draw) == Ok(card)
    requires p in card.items && IsSongTitle(p)
    ensures ValidDraw(draw, |catalog|)
    ensures exists i, j | 0 <= i < 5 && 0 <= j < 5 && Visited(i, j) ::
              p == Text(catalog[draw[5 * i + j]].title, i as real, j as real, SongTitle)
  {
    CardPlacements(catalog, filename, topWord, covers, weight, seed, draw, card);
    var board := Board(Selection(catalog, draw));
    PlacementsTitleFrom(board, AlbumDict(catalog), PrefixDict(catalog), covers, topWord, weight, seed, p);
    var i, j :| 0 <= i < 5 && 0 <= j < 5 && Visited(i, j) && p == Text(board[5 * i + j], i as real, j as real, SongTitle);
    BoardAt(catalog, draw, i, j);
  }

  /** A card's placements show every visited cell: its title, its album label and, with covers, its cover art. */
  lemma PlacementsShowCell(board: seq<string>, albums: map<string, string>, prefixes: map<string, string>,
                           covers: bool, topWord: string, weight: Weighting, seed: Option<int>, i: nat, j: nat)
    requires |board| == CardSize && Listed(board, albums, prefixes) && |topWord| >= Side && Visited(i, j)
    ensures var title := board[5 * i + j];
            var items := Placements(board, albums, prefixes, covers, topWord, weight, seed);
            title in albums && title in prefixes
            && Text(title, i as real, j as real, SongTitle) in items
            && Text(albums[title], i as real, j as real - 0.05, AlbumLabel) in items
            && (covers ==> Picture(CoverPath(prefixes[title]), i as real, j as real, 0.22, 0.25) in items)
  {
    RowMajor(i, j);
    LayoutCell(board, albums, prefixes, covers, i, j);
    var layout := Layout(board, albums, prefixes, covers);
    var o := CellOffset(covers, i, j);
    assert layout[o] in layout && layout[o + 1] in layout;
    if covers {
      assert layout[o + 2] in layout;
    }
  }

  /**
   * Every draw but draw 12 is on the card: draw 5i + j at x = i, y = j, with
   * its title, its album label just below, and its cover art when covers are on.
   */
  lemma CardShowsDraw(catalog: seq<SongRow>, filename: string, topWord: string, covers: bool,
                      weight: Weighting, seed: Option<int>, draw: seq<nat>, card: Card, i: nat, j: nat)
    requires |catalog| >= CardSize ==> ValidDraw(draw, |catalog|)
    requires CardOf(catalog, filename, topWord, covers, weight, seed, draw) == Ok(card)
    requires Visited(i, j)
    ensures ValidDraw(draw, |catalog|)
    ensures var title := catalog[draw[5 * i + j]].title;
            var x, y := i as real, j as real;
            title in AlbumDict(catalog) && title in PrefixDict(catalog)
            && Text(title, x, y, SongTitle) in card.items
            && Text(AlbumDict(catalog)[title], x, y - 0.05, AlbumLabel) in card.items
            && (covers ==> Picture(CoverPath(PrefixDict(catalog)[title]), x, y, 0.22, 0.25) in card.items)
  {
    CardPlacements(catalog, filename, topWord, covers, weight, seed, draw, card);
    PlacementsShowCell(Board(Selection(catalog, draw)), AlbumDict(catalog), PrefixDict(catalog), covers, topWord,
                       weight, seed, i, j);
    BoardAt(catalog, draw, i, j);
  }

  /**
   * The album label and the cover art of a drawn song are those of its
   * row when no later row of the table has the same title (later rows win
   * in `dict(zip(...))`), and the cover is the file that the song-data
   * script copies for that album.
   */
  lemma CardCellOfRow(catalog: seq<SongRow>, filename: string, topWord: string, covers: bool,
                      weight: Weighting, seed: Option<int>, draw: seq<nat>, card: Card, i: nat, j: nat)
    requires |catalog| >= CardSize ==> ValidDraw(draw, |catalog|)
    requires CardOf(catalog, filename, topWord, covers, weight, seed, draw) == Ok(card)
    requires Visited(i, j)
    requires |catalog| >= CardSize ==> LastOccurrence(catalog, draw[5 * i + j])
    ensures ValidDraw(draw, |catalog|)
    ensures var row := catalog[draw[5 * i + j]];
            var x, y := i as real, j as real;
            Text(row.albumDisplayName, x, y - 0.05, AlbumLabel) in card.items
            && (covers ==> Picture(SongData.CoverCopyFor(row.prefix).1, x, y, 0.22, 0.25) in card.items)
  {
    CardShowsDraw(catalog, filename, topWord, covers, weight, seed, draw, card, i, j);
    TitleDictLast(catalog, (row: SongRow) => row.albumDisplayName, draw[5 * i + j]);
    TitleDictLast(catalog, (row: SongRow) => row.prefix, draw[5 * i + j]);
  }

  /**
   * The song drawn 13th is never shown: when no two rows of the table share
   * a title, no song title on the card is that song's.
   */
  lemma CentreDrawHidden(catalog: seq<SongRow>, filename: string, topWord: string, covers: bool,
                         weight: Weighting, seed: Option<int>, draw: seq<nat>, card: Card, p: Placement)
    requires |catalog| >= CardSize ==> ValidDraw(draw, |catalog|)
    requires forall m, n | 0 <= m < n < |catalog| :: catalog[m].title != catalog[n].title
    requires CardOf(catalog, filename, topWord, covers, weight, seed, draw) == Ok(card)
    requires p in card.items && IsSongTitle(p)
    ensures p.s != catalog[draw[Centre]].title
  {
    CardTitleFrom(catalog, filename, topWord, covers, weight, seed, draw, card, p);
    var i, j :| 0 <= i < 5 && 0 <= j < 5 && Visited(i, j)
                && p == Text(catalog[draw[5 * i + j]].title, i as real, j as real, SongTitle);
    RowMajor(i, j);
    assert draw[5 * i + j] != draw[Centre];
  }

  /** Which song is drawn 13th does not change the card. */
  lemma CentreDrawIgnored(catalog: seq<SongRow>, filename: string, topWord: string, covers: bool,
                          weight: Weighting, seed: Option<int>, draw: seq<nat>, other: seq<nat>)
    requires |catalog| >= CardSize ==> ValidDraw(draw, |catalog|) && ValidDraw(other, |catalog|)
    requires |draw| == |other| && forall k | 0 <= k < |draw| && k != Centre :: draw[k] == other[k]
    ensures CardOf(catalog, filename, topWord, covers, weight, seed, draw)
         == CardOf(catalog, filename, topWord, covers, weight, seed, other)
  {
    if |catalog| >= CardSize {
      assert Board(Selection(catalog, draw)) == Board(Selection(catalog, other));
    }
  }

  /** Only the first five letters of the banner word are drawn. */
  lemma BannerPrefix(catalog: seq<SongRow>, filename: string, topWord: string, covers: bool,
                     weight: Weighting, seed: Option<int>, draw: seq<nat>)
    requires |catalog| >= CardSize ==> ValidDraw(draw, |catalog|)
    requires |topWord| >= Side
    ensures CardOf(catalog, filename, topWord, covers, weight, seed, draw)
         == CardOf(catalog, filename, topWord[..Side], covers, weight, seed, draw)
  {
    assert Banner(topWord) == Banner(topWord[..Side]);
  }

  /** Filtering what follows the grid cells filters each of its parts. */
  lemma LabelsFilter(covers: bool, topWord: string, weight: Weighting, seed: Option<int>, keep: Placement -> bool)
    requires |topWord| >= Side
    ensures Filter(Labels(covers, topWord, weight, seed), keep)
         == Filter(WatermarkItems(covers), keep) + Filter([FreeSpaceItem], keep) + Filter(Banner(topWord), keep)
            + Filter(Footer(weight, seed), keep)
  {
    var w, f, b, t := WatermarkItems(covers), [FreeSpaceItem], Banner(topWord), Footer(weight, seed);
    FilterConcat(w + f + b, t, keep);
    FilterConcat(w + f, b, keep);
    FilterConcat(w, f, keep);
  }

  /** A card's placements that pass a test: those of the layout, then those of the labels. */
  lemma CardFilter(catalog: seq<SongRow>, filename: string, topWord: string, covers: bool,
                   weight: Weighting, seed: Option<int>, draw: seq<nat>, card: Card, keep: Placement -> bool)
    requires |catalog| >= CardSize ==> ValidDraw(draw, |catalog|)
    requires CardOf(catalog, filename, topWord, covers, weight, seed, draw) == Ok(card)
    ensures ValidDraw(draw, |catalog|) && |topWord| >= Side
    ensures Listed(Board(Selection(catalog, draw)), AlbumDict(catalog), PrefixDict(catalog))
    ensures Filter(card.items, keep)
         == Filter(Layout(Board(Selection(catalog, draw)), AlbumDict(catalog), PrefixDict(catalog), covers), keep)
            + Filter(Labels(covers, topWord, weight, seed), keep)
  {
    CardPlacements(catalog, filename, topWord, covers, weight, seed, draw, card);
    FilterConcat(Layout(Board(Selection(catalog, draw)), AlbumDict(catalog), PrefixDict(catalog), covers),
                 Labels(covers, topWord, weight, seed), keep);
  }

  /** The grid cells carry no free-space label. */
  lemma LayoutNoFreeSpace(board: seq<string>, albums: map<string, string>, prefixes: map<string, string>, covers: bool)
    requires |board| == CardSize && Listed(board, albums, prefixes)
    ensures Filter(Layout(board, albums, prefixes, covers), IsFreeSpaceLabel) == []
  {
    var cell := CellFn(board, albums, prefixes, covers);
    forall i, j | 0 <= i < 5 && 0 <= j < 5 && Visited(i, j) ensures Filter(cell(i, j), IsFreeSpaceLabel) == [] {
      CellFnAt(board, albums, prefixes, covers, i, j);
      CellFilter(board[5 * i + j], i, j, albums, prefixes, covers, IsFreeSpaceLabel);
    }
    VisitFilterNone(cell, IsFreeSpaceLabel);
  }

  /** The centre of a card is labelled FREE SPACE once, at x = 2, y = 2.25, and nothing else has that style. */
  lemma CardFreeSpaceOnce(catalog: seq<SongRow>, filename: string, topWord: string, covers: bool,
                          weight: Weighting, seed: Option<int>, draw: seq<nat>, card: Card)
    requires |catalog| >= CardSize ==> ValidDraw(draw, |catalog|)
    requires CardOf(catalog, filename, topWord, covers, weight, seed, draw) == Ok(card)
    ensures Filter(card.items, IsFreeSpaceLabel) == [Text("FREE SPACE", 2.0, 2.25, FreeSpaceLabel)]
  {
    CardFilter(catalog, filename, topWord, covers, weight, seed, draw, card, IsFreeSpaceLabel);
    LayoutNoFreeSpace(Board(Selection(catalog, draw)), AlbumDict(catalog), PrefixDict(catalog), covers);
    LabelsFreeSpace(covers, topWord, weight, seed);
  }

  /** After the grid cells, the free-space label is the only placement with that style. */
  lemma LabelsFreeSpace(covers: bool, topWord: string, weight: Weighting, seed: Option<int>)
    requires |topWord| >= Side
    ensures Filter(Labels(covers, topWord, weight, seed), IsFreeSpaceLabel) == [FreeSpaceItem]
  {
    LabelsFilter(covers, topWord, weight, seed, IsFreeSpaceLabel);
    FilterKeepsNone(WatermarkItems(covers), IsFreeSpaceLabel);
    FilterKeepsNone(Banner(topWord), IsFreeSpaceLabel);
    FilterKeepsNone(Footer(weight, seed), IsFreeSpaceLabel);
  }

  /** Each grid cell issues one picture when covers are on and none otherwise. */
  lemma LayoutPictures(board: seq<string>, albums: map<string, string>, prefixes: map<string, string>, covers: bool)
    requires |board| == CardSize && Listed(board, albums, prefixes)
    ensures |Filter(Layout(board, albums, prefixes, covers), IsPicture)| == if covers then 24 else 0
  {
    var cell := CellFn(board, albums, prefixes, covers);
    var c := if covers then 1 else 0;
    forall i, j | 0 <= i < 5 && 0 <= j < 5 && Visited(i, j) ensures |Filter(cell(i, j), IsPicture)| == c {
      CellFnAt(board, albums, prefixes, covers, i, j);
      CellFilter(board[5 * i + j], i, j, albums, prefixes, covers, IsPicture);
    }
    VisitFilterEach(cell, IsPicture, c);
  }

  /** With covers a card shows 24 cover images and the watermark; without covers it shows no image at all. */
  lemma CardPictures(catalog: seq<SongRow>, filename: string, topWord: string, covers: bool,
                     weight: Weighting, seed: Option<int>, draw: seq<nat>, card: Card)
    requires |catalog| >= CardSize ==> ValidDraw(draw, |catalog|)
    requires CardOf(catalog, filename, topWord, covers, weight, seed, draw) == Ok(card)
    ensures |Filter(card.items, IsPicture)| == if covers then 25 else 0
  {
    CardFilter(catalog, filename, topWord, covers, weight, seed, draw, card, IsPicture);
    LayoutPictures(Board(Selection(catalog, draw)), AlbumDict(catalog), PrefixDict(catalog), covers);
    LabelsPictures(covers, topWord, weight, seed);
  }

  /** After the grid cells, the only picture is the watermark, drawn when covers are on. */
  lemma LabelsPictures(covers: bool, topWord: string, weight: Weighting, seed: Option<int>)
    requires |topWord| >= Side
    ensures Filter(Labels(covers, topWord, weight, seed), IsPicture) == WatermarkItems(covers)
  {
    LabelsFilter(covers, topWord, weight, seed, IsPicture);
    FilterKeepsNone([FreeSpaceItem], IsPicture);
    FilterKeepsNone(Banner(topWord), IsPicture);
    FilterKeepsNone(Footer(weight, seed), IsPicture);
    FilterKeepsAll(WatermarkItems(covers), IsPicture);
  }

  /** Each grid cell issues exactly one song title. */
  lemma LayoutSongTitles(board: seq<string>, albums: map<string, string>, prefixes: map<string, string>, covers: bool)
    requires |board| == CardSize && Listed(board, albums, prefixes)
    ensures |Filter(Layout(board, albums, prefixes, covers), IsSongTitle)| == 24
  {
    var cell := CellFn(board, albums, prefixes, covers);
    forall i, j | 0 <= i < 5 && 0 <= j < 5 && Visited(i, j) ensures |Filter(cell(i, j), IsSongTitle)| == 1 {
      CellFnAt(board, albums, prefixes, covers, i, j);
      CellFilter(board[5 * i + j], i, j, albums, prefixes, covers, IsSongTitle);
    }
    VisitFilterEach(cell, IsSongTitle, 1);
  }

  /** A card shows 24 song titles. */
  lemma CardSongTitles(catalog: seq<SongRow>, filename: string, topWord: string, covers: bool,
                       weight: Weighting, seed: Option<int>, draw: seq<nat>, card: Card)
    requires |catalog| >= CardSize ==> ValidDraw(draw, |catalog|)
    requires CardOf(catalog, filename, topWord, covers, weight, seed, draw) == Ok(card)
    ensures |Filter(card.items, IsSongTitle)| == 24
  {
    CardFilter(catalog, filename, topWord, covers, weight, seed, draw, card, IsSongTitle);
    LayoutSongTitles(Board(Selection(catalog, draw)), AlbumDict(catalog), PrefixDict(catalog), covers);
    LabelsHaveNoTitles(covers, topWord, weight, seed);
    FilterKeepsNone(Labels(covers, topWord, weight, seed), IsSongTitle);
  }

  /** The caption tells the weighting and the seed apart: a card's caption is enough to regenerate it. */
  lemma CaptionInjective(w1: Weighting, s1: Option<int>, w2: Weighting, s2: Option<int>)
    requires Caption(w1, s1) == Caption(w2, s2)
    ensures w1 == w2 && s1 == s2
  {
    var n1, n2 := WeightName(w1), WeightName(w2);
    var t1, t2 := SeedLabel + SeedText(s1), SeedLabel + SeedText(s2);
    ConcatAssoc(CaptionPrefix, n1, SeedLabel);
    ConcatAssoc(CaptionPrefix, n2, SeedLabel);
    ConcatAssoc(CaptionPrefix + n1, SeedLabel, SeedText(s1));
    ConcatAssoc(CaptionPrefix + n2, SeedLabel, SeedText(s2));
    ConcatAssoc(CaptionPrefix, n1, t1);
    ConcatAssoc(CaptionPrefix, n2, t2);
    CancelRight(CaptionPrefix + (n1 + t1), CaptionPrefix + (n2 + t2), ")");
    CancelLeft(CaptionPrefix, n1 + t1, n2 + t2);
    WeightNameDistinct(w1, w2);
    WeightNameDistinct(w2, w1);
    SplitAtFirst(n1, t1, n2, t2, ',');
    CancelLeft(SeedLabel, SeedText(s1), SeedText(s2));
    SeedTextInjective(s1, s2);
  }
}
