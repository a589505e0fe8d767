# KGLW bingo card generator — a Dafny model

This project models the two scripts of the King Gizzard & the Lizard Wizard
bingo generator:

- **Card generator** (`src/generate_bingo.py`, `kglw_bingo`). It seeds the
  random generator and builds the title→album and title→prefix lookup tables.
  It draws 25 distinct rows of the song table and reshapes their titles row-major into a 5×5 grid. It
  overwrites the centre cell with `FREE SPACE`, so the 13th draw is thrown
  away. The nested `for i` / `for j` loop places each other cell's title at
  x = i, y = j, with the album label just below and, when covers are on, the
  album cover behind. Then come the watermark, the free-space label, the five
  banner letters, the caption and the credit line. The figure is saved as
  `../output/<filename>.pdf`.
- **Metadata builder** (`src/generate_song_data.py`). `num_plays` reads a play
  label such as `"3.4M plays"`. `process_album_data` pairs each page's titles
  with their parsed play counts. The album loop stamps each album's rows with
  its prefix, display name and year, and copies its cover. The blocks are then
  concatenated and the rows whose title contains `Extended Mix` are dropped.

Modules:

- `Results`: the `Result`/`Option` types, and `Traverse` (a loop or
  comprehension that raises at its first failing element).
- `Seqs`: order-preserving filter, substring search, and the first piece of
  `str.split`.
- `Decimal`: digit strings and Python's `str` of an int.
- `SongData`: `generate_song_data.py`.
- `Grid`: the visiting order of the card's nested loops (every cell except
  row 2, column 2), proved once for any per-cell output.
- `Bingo`: `generate_bingo.py`. The grid is an `array2<string>`. `Reshape`
  builds it, `MarkFreeSpace` overwrites the centre in place, and `PlaceCells`
  walks it with the nested loops. `KglwBingo` is proved equal to the
  specification function `CardOf`, and the card properties are lemmas about
  `CardOf`.

Abstractions:

- **The random draw.** `np.random.choice` is a parameter `draw`: 25 distinct
  row positions below the table's length.
- **The drawing.** It is the list of placements the script issues: a text
  with its position and the `ax.text` call it came from, or a picture with its
  position, zoom and opacity. The card also records its output path.
- **Play counts.** They are exact reals.
- **Saved pages.** They are a map from path to the extractor's output (the
  titles and play strings of a page).
- **Cover copies.** They are recorded as (source, destination) pairs.

Behaviours of the code worth knowing:

- Lookup tables: duplicate titles silently overwrite. The later row wins; they
  do not fail fast.
- Draw size: the draw fails for fewer than 25 table *rows*, not 25 distinct
  titles. Repeated titles can therefore appear on a card (`SelectionRepeats`).
- Watermark: it is drawn only when album covers are on.
- Row filter: `str.contains('(Extended Mix)')` is a regular expression, so
  the filter drops every title containing `Extended Mix`, with or without
  parentheses.
- Banner length: the banner is checked only after everything else is
  computed. A seed outside `[0, 2^32)` fails first, then an empty table, then
  a table of fewer than 25 rows, then a banner shorter than 5 characters
  (the checks `np.random.choice` makes on the probability vector are not
  modelled; see "Left out").

## Model

| member | source | states |
|---|---|---|
| `Seqs.BeforeFirst` | src/generate_song_data.py:29 | `split(' plays')[0]`: the result is a prefix of the label, no separator occurrence starts inside it, and when the result is shorter than the label an occurrence starts right after it |
| `Seqs.BeforeFirstWhole` | src/generate_song_data.py:29 | the split keeps the whole label exactly when the label does not contain the separator |
| `Results.Traverse` | src/generate_song_data.py:24 | the comprehension succeeds iff every element parses; on success value i is element i's result; otherwise the error is that of the first element that fails |
| `SongData.KeepNumeric` | src/generate_song_data.py:36 | `re.sub("[^0-9.]", "", s)` leaves only digits and dots, keeps every dot and has a digit iff the input has one |
| `SongData.Scale` | src/generate_song_data.py:30-35 | the multiplier picked by the last character never makes a non-negative count negative |
| `SongData.ParseFloat` | src/generate_song_data.py:37 | `float()` of a digit-and-dot string succeeds iff it has at most one dot and at least one digit; the value is non-negative; the error names the rejected string |
| `SongData.ParseCount` | src/generate_song_data.py:30-37 | a parsed count is never negative |
| `SongData.NumPlays` | src/generate_song_data.py:28-37 | `num_plays` never returns a negative count, because the filter removes `-` |
| `SongData.NumPlaysIgnoresTail` | src/generate_song_data.py:29 | everything from the first `" plays"` on is ignored: `NumPlays(c + " plays" + rest) == NumPlays(c)` |
| `SongData.NumPlaysEmpty` | src/generate_song_data.py:29-30 | `play_str[-1]` fails exactly when the label is empty or starts with `" plays"` |
| `SongData.NumPlaysNotANumber` | src/generate_song_data.py:36-37 | past the empty case, parsing fails exactly when the count has no digit or more than one dot |
| `SongData.ParseFloatDigits` | src/generate_song_data.py:37 | a plain digit string parses to the number its digits denote |
| `SongData.ParseFloatDecimal` | src/generate_song_data.py:37 | digits, one dot and digits parse to the exact decimal they denote |
| `SongData.ParseCountUnscaled` | src/generate_song_data.py:30-37 | for every count whose last character is not upper-case `K` or `M` (lower-case `k`/`m` included) the multiplier is 1: the result is the parse of its digits and dots |
| `SongData.ParseCountScaled` | src/generate_song_data.py:30-37 | for every count ending in `K` or `M` the parse of its digits and dots is multiplied by 1,000 or 1,000,000, and a parse error passes through |
| `SongData.ParseCountOfUnit` | src/generate_song_data.py:30-37 | a number followed by `K`, `M` or nothing is multiplied by 1,000, 1,000,000 or 1 |
| `SongData.NumPlaysOfCount` | src/generate_song_data.py:28-37 | a digit-and-dot count, a unit letter, then `" plays"` or nothing parses to the count times the unit |
| `SongData.NumPlaysRoundTrip` | src/generate_song_data.py:28-37 | round trip: `str(n)` with an optional `K`/`M` and `" plays"` parses back to n times the unit |
| `SongData.NumPlaysDecimal` | src/generate_song_data.py:28-37 | round trip for a decimal count such as `"3.4M plays"` |
| `SongData.NumPlaysExampleThousands` | src/generate_song_data.py:28-37 | `"12K"` parses to 12000 |
| `SongData.NumPlaysExampleMillions` | src/generate_song_data.py:28-37 | `"3.4M plays"` parses to 3400000 |
| `SongData.NumPlaysExamplePlain` | src/generate_song_data.py:28-37 | `"57 plays"` parses to 57 |
| `SongData.NumPlaysExampleSeparator` | src/generate_song_data.py:28-37 | `"1,234"` parses to 1234: the comma is filtered out |
| `SongData.NumPlaysExampleLowerCase` | src/generate_song_data.py:30-35 | a lower-case `k` gives multiplier 1: `"12k"` parses to 12 |
| `SongData.NumPlaysExampleEmpty` | src/generate_song_data.py:29-30 | `" plays"` fails with the empty-count error |
| `SongData.ProcessAlbumData` | src/generate_song_data.py:22-25 | succeeds iff every play label parses and the two lists have equal length; a parse error comes before a length mismatch; row i pairs title i with the parse of label i |
| `SongData.AlbumRows` | src/generate_song_data.py:47-49 | every track keeps its title and plays and gains the album's prefix, display name and year |
| `SongData.AlbumSongs` | src/generate_song_data.py:42-49 | a missing page is `FileNotFound` of `../data/<prefix>.htm`; otherwise it succeeds iff the page processes, fails with the page's own error when it does not, and each row pairs title i with label i and carries the album's columns |
| `SongData.DropExtendedMixes` | src/generate_song_data.py:56 | no surviving title contains `Extended Mix` |
| `SongData.DropExtendedMixesCount` | src/generate_song_data.py:56 | a row survives with all its copies when its title lacks `Extended Mix`, and with none otherwise |
| `SongData.DropExtendedMixesMembers` | src/generate_song_data.py:56 | a row is in the result iff it is in the table and its title lacks `Extended Mix` |
| `SongData.DropExtendedMixesConcat` | src/generate_song_data.py:56 | survivors keep their relative order: filtering `a + b` is filtering `a`, then `b` |
| `SongData.SongTable` | src/generate_song_data.py:55-56 | an empty album index fails (`pd.concat([])`); otherwise the table exists iff every album's page loads and parses, and no row of it has an `Extended Mix` title |
| `SongData.CollectedStopsAt` | src/generate_song_data.py:39-50 | the album loop stops at the first album that fails, and the run fails with that album's error |
| `SongData.CollectedStep` | src/generate_song_data.py:39-50 | one iteration appends the album's row block to `collect` |
| `SongData.CollectedSnoc` | src/generate_song_data.py:39-50 | the blocks for one more album are the earlier blocks plus that album's rows, or the first error |
| `SongData.SongTableRows` | src/generate_song_data.py:39-56 | the table's rows are exactly the albums' rows whose title lacks `Extended Mix` |
| `SongData.SongTableSnoc` | src/generate_song_data.py:39-56 | a further album appends its surviving rows after every earlier row |
| `SongData.BuildSongTable` | src/generate_song_data.py:39-56 | the imperative album loop returns `SongTable`; it copies the cover of each album that loaded, in index order, and stops before the cover copy of the first album that fails |
| `Grid.RankDecode` | src/generate_bingo.py:67-70 | each cell the loops place (all but row 2, column 2) has a visit rank below 24, and the rank gives the cell back |
| `Grid.RankEncode` | src/generate_bingo.py:67-70 | every rank below 24 belongs to a placed cell |
| `Grid.RankInjective` | src/generate_bingo.py:67-70 | the loops visit each placed cell once |
| `Grid.IssuedStep` | src/generate_bingo.py:67-72 | one inner-loop step appends the cell's output, or nothing at the centre |
| `Grid.VisitCell` | src/generate_bingo.py:67-72 | a whole run holds 24 blocks, and each cell's block sits at the cell's rank |
| `Grid.VisitMember` | src/generate_bingo.py:67-72 | everything a run issues comes from a placed cell |
| `Bingo.TitleDict` | src/generate_bingo.py:45-46 | `dict(zip(title, column))` has exactly the table's titles as keys |
| `Bingo.TitleInDict` | src/generate_bingo.py:45-46 | every row's title has an entry |
| `Bingo.TitleDictLast` | src/generate_bingo.py:45-46 | later rows overwrite earlier ones: a title maps to the value of its last row |
| `Bingo.Selection` | src/generate_bingo.py:49-51 | the draw yields 25 titles |
| `Bingo.SelectionInDicts` | src/generate_bingo.py:45-51 | every drawn title has an album and a prefix, because both come from the same column |
| `Bingo.SelectionRepeats` | src/generate_bingo.py:49-51 | draws are distinct rows, and two drawn titles are equal iff their rows share a title |
| `Bingo.SelectionDistinct` | src/generate_bingo.py:49-51 | with unique titles in the table, the 25 drawn titles are pairwise different |
| `Bingo.RowMajor` | src/generate_bingo.py:52 | cell (i, j) is position 5i + j, and that position is the centre iff (i, j) = (2, 2) |
| `Bingo.Reshape` | src/generate_bingo.py:52 | `reshape(5, 5)` is row-major: `grid[i, j] == selection[5*i + j]` |
| `Bingo.MarkFreeSpace` | src/generate_bingo.py:64 | the centre becomes `FREE SPACE`, and every other cell is unchanged |
| `Bingo.CellItems` | src/generate_bingo.py:72-86 | a cell issues three placements with covers on and two with covers off |
| `Bingo.PlaceCells` | src/generate_bingo.py:67-86 | the nested loop over the grid array issues exactly `Layout` of the board |
| `Bingo.CellFnUniform` | src/generate_bingo.py:67-86 | every placed cell issues the same number of placements |
| `Bingo.LayoutCell` | src/generate_bingo.py:67-86 | the layout has 72 (48 without covers) placements; cell (i, j) gets its title at (i, j), its album at (i, j − 0.05) and, with covers, `../album_covers/<prefix>.jpg` at (i, j) |
| `Bingo.Banner` | src/generate_bingo.py:98-107 | letter k of the banner word is drawn at (k, 4.75) for k < 5 |
| `Bingo.WeightName` | src/generate_bingo.py:18 | the caption's name of each weighting is one of the argparse `choices` |
| `Bingo.WeightChoiceNamed` | src/generate_bingo.py:18 | every argparse choice is the name of some weighting |
| `Bingo.WeightNameDistinct` | src/generate_bingo.py:18 | different weightings have different names, and no name holds a comma |
| `Bingo.SeedText` | src/generate_bingo.py:109 | `str(seed)` reads `None` exactly when there is no seed |
| `Decimal.NatToString` | src/generate_bingo.py:109 | `str(n)` is canonical digits that denote n: no leading zero unless it is the single digit of 0 |
| `Decimal.IntToString` | src/generate_bingo.py:109 | `str(n)` starts with `-` exactly when n is negative, and with a digit otherwise |
| `Decimal.IntToStringInjective` | src/generate_bingo.py:109 | different ints are written differently |
| `Bingo.SeedTextInjective` | src/generate_bingo.py:109 | different seeds are written differently |
| `Bingo.CaptionInjective` | src/generate_bingo.py:109 | the caption determines both the weighting and the seed |
| `Bingo.CardOf` | src/generate_bingo.py:41-114 | a card is drawn iff the seed is accepted, the table has at least 25 rows and the banner has at least 5 characters; the errors come in the order the script raises them (seed, empty table, too few rows, short banner); the card is saved to `../output/<filename>.pdf` |
| `Bingo.KglwBingo` | src/generate_bingo.py:41-114 | the imperative procedure (reshape, in-place overwrite, cell loop, labels) returns `CardOf` |
| `Bingo.CardPlacements` | src/generate_bingo.py:41-114 | a drawn card holds the board's layout followed by the labels, and every board title is listed |
| `Bingo.LabelsHaveNoTitles` | src/generate_bingo.py:87-112 | nothing drawn after the cell loop is a song title |
| `Bingo.LayoutTitleAt` | src/generate_bingo.py:67-77 | the layout has one title at each placed cell and none elsewhere |
| `Bingo.PlacementsTitleAt` | src/generate_bingo.py:67-112 | the same holds for everything the card draws |
| `Bingo.CardTitleAt` | src/generate_bingo.py:67-77 | a card has exactly one song title at each (i, j) ≠ (2, 2) of the grid, and none at the centre or off the grid |
| `Bingo.CellTitle` | src/generate_bingo.py:75 | the only title a cell issues is its own, at its own position |
| `Bingo.LayoutTitleFrom` | src/generate_bingo.py:67-77 | every title in the layout is a placed cell's title, drawn at that cell |
| `Bingo.BoardAt` | src/generate_bingo.py:52-64 | after the overwrite, the board holds draw 5i + j at every cell except the centre |
| `Bingo.PlacementsTitleFrom` | src/generate_bingo.py:67-112 | every song title the card draws comes from a placed cell |
| `Bingo.CardTitleFrom` | src/generate_bingo.py:49-77 | every song title on a card is draw 5i + j for some (i, j) ≠ (2, 2), drawn at x = i, y = j (so the board is transposed) |
| `Bingo.PlacementsShowCell` | src/generate_bingo.py:67-86 | each placed cell's title, album label and (with covers) cover are drawn |
| `Bingo.CardShowsDraw` | src/generate_bingo.py:67-86 | every draw except draw 12 is shown at its cell with its album label and, with covers, its cover |
| `Bingo.CardCellOfRow` | src/generate_bingo.py:45-86 | a drawn row with no later duplicate title shows its own album and the cover file the metadata builder copies for its prefix |
| `Bingo.CentreDrawHidden` | src/generate_bingo.py:49-64 | with unique titles, the 13th draw's title appears nowhere on the card |
| `Bingo.CentreDrawIgnored` | src/generate_bingo.py:52-64 | changing the 13th draw does not change the card |
| `Bingo.BannerPrefix` | src/generate_bingo.py:98-107 | only the first five characters of the banner word matter |
| `Bingo.LayoutNoFreeSpace` | src/generate_bingo.py:67-86 | the cell loop draws no free-space label |
| `Bingo.LabelsFreeSpace` | src/generate_bingo.py:87-112 | after the cells, the free-space label is the only placement with that style |
| `Bingo.CardFreeSpaceOnce` | src/generate_bingo.py:94-96 | the free-space label (the `ax.text` call of line 94) is drawn exactly once, at (2, 2.25), with covers on or off |
| `Bingo.LayoutPictures` | src/generate_bingo.py:81-86 | the cell loop draws 24 cover images with covers on and none with covers off |
| `Bingo.LabelsPictures` | src/generate_bingo.py:87-92 | after the cells, the only picture is the watermark, and only with covers on |
| `Bingo.CardPictures` | src/generate_bingo.py:81-92 | a card has 25 images (24 covers and the watermark) with covers on, and none with covers off |
| `Bingo.LayoutSongTitles` | src/generate_bingo.py:67-77 | the cell loop draws 24 song titles |
| `Bingo.CardSongTitles` | src/generate_bingo.py:67-112 | a card shows exactly 24 song titles |
| `Seqs.Flatten` | src/generate_song_data.py:55 | `pd.concat` of the blocks: every row of every block is in the result; `FlattenMember`, `FlattenBlock` and `FlattenLength` give the converse, the position of each block and the length |
| `SongData.ParsePlays` | src/generate_song_data.py:24 | the list comprehension succeeds iff every label parses, and then holds label i's count at position i |
| `SongData.PagePath` | src/generate_song_data.py:46 | definition; its use is stated in `SongData.AlbumSongs` |
| `SongData.CoverCopyFor` | src/generate_song_data.py:53 | definition; its use is stated in `SongData.BuildSongTable` and `Bingo.CardCellOfRow` |
| `SongData.Collected` | src/generate_song_data.py:39-50 | the loop's `collect` exists iff every album loads, and then block k is album k's rows |
| `Bingo.SeedAccepted` | src/generate_bingo.py:43 | definition; its properties are in `Bingo.CardOf` |
| `Bingo.AlbumDict` | src/generate_bingo.py:45 | the keys are exactly the table's titles; which row's album wins is stated in `Bingo.TitleDictLast` |
| `Bingo.PrefixDict` | src/generate_bingo.py:46 | the keys are exactly the table's titles; which row's prefix wins is stated in `Bingo.TitleDictLast` |
| `Bingo.ValidDraw` | src/generate_bingo.py:49-51 | definition; its properties are in `Bingo.SelectionRepeats` and `Bingo.SelectionDistinct` |
| `Bingo.Board` | src/generate_bingo.py:52-64 | the reshaped grid holds the free-space label at the centre and the draw everywhere else |
| `Bingo.Layout` | src/generate_bingo.py:67-86 | definition; its properties are in `Bingo.LayoutCell`, `Bingo.LayoutTitleAt` and `Bingo.PlaceCells` |
| `Bingo.CoverPath` | src/generate_bingo.py:82 | definition; its properties are in `Bingo.LayoutCell` and `Bingo.CardCellOfRow` |
| `Bingo.WatermarkItems` | src/generate_bingo.py:87-92 | one picture with covers, nothing without |
| `Bingo.Caption` | src/generate_bingo.py:109 | definition; its properties are in `Bingo.CaptionInjective` and `Bingo.SeedText` |
| `Bingo.Footer` | src/generate_bingo.py:109-112 | definition; its properties are in `Bingo.LabelsHaveNoTitles` and `Bingo.LabelsPictures` |
| `Bingo.Labels` | src/generate_bingo.py:87-112 | definition; its properties are in `Bingo.LabelsFreeSpace`, `Bingo.LabelsPictures` and `Bingo.LabelsHaveNoTitles` |
| `Bingo.Placements` | src/generate_bingo.py:67-112 | definition; its properties are in `Bingo.PlacementsTitleAt`, `Bingo.PlacementsTitleFrom` and `Bingo.PlacementsShowCell` |
| `Bingo.OutputPath` | src/generate_bingo.py:114 | definition; its use is stated in `Bingo.CardOf` |

## Left out

- Random draw: the numpy generator is left out. This covers `np.random.seed`
  beyond its range check, the sampling itself and the probability vector `p`.
  The vector's own checks are left out too: it must match the table's length,
  be non-negative, sum to one and have at least 25 non-zero entries. In
  `np.random.choice` these checks run after the empty-table check and before
  the too-few-rows check, so for a weighting other than `none` a bad weight
  column raises before the row count error that `Bingo.CardOf` reports. The
  empty-table error (`'a' cannot be empty`) is modelled as its own error. The
  draw is an input of 25 distinct row positions.
- Weight columns: `year_weight`, `popularity_weight` and `hybrid_weight`
  (src/generate_song_data.py:57-63) are left out. They are floating-point
  normalisation. The division by zero when an album's year is 2025 is not
  modelled.
- Rendering: the figure, the grid lines (src/generate_bingo.py:54-62,66),
  fonts, sizes, alignments, strokes, `OffsetImage`/`AnnotationBbox` and the PDF
  writing are left out. A placement records only its text or image path, its
  position and which call issued it; picture placements also keep their zoom
  and opacity. Coordinates such as `j - 0.05` are exact reals, not floats.
- Line wrapping: `textwrap.wrap` is a library call. Titles and album names are
  stored unwrapped.
- Reading and copying files: reading an image that does not exist, reading the
  CSV files, and a `shutil.copy` that fails are left out. Cover copies are
  recorded, never performed.
- HTML and command line: BeautifulSoup extraction (src/generate_song_data.py:15-21)
  and argparse (src/generate_bingo.py:13-21,116) are outside the model.
  A page arrives as its extracted title and play strings, and the options
  arrive as parameters.
- SongData.NumPlays: the result is the exact decimal value times the
  multiplier. The rounding of Python's `float` parse and of the float
  multiplication is not modelled.
- SongData.ParseFloat: only strings of digits and dots are modelled. That is
  all the character filter lets through, so the other spellings `float()`
  accepts (signs, exponents, `inf`, `nan`, underscores, surrounding
  whitespace) cannot reach it.
