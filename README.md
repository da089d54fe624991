# YaDc core: ship layouts, text formatting, Excel and CSV helpers, top lists

This project is a Dafny model of the computational core of YaDc, a Discord bot
for Pixel Starships. It covers four parts of the bot.

- **Ship layout rendering** (`src/pss_user.py`). The bot composes a picture of
  a user's ship. It recolours the interior sprite and draws an outline on every
  cell the ship design's mask marks. It then builds one tile per room and pastes
  each tile at its grid position. A room tile is a room sprite. A room larger
  than 1 x 1 also gets a decoration: a room frame, either the 3 x 2 template or
  one stitched from the template's eight pieces, over a door frame made of two
  halves. A decorated room also carries the design's logo, one power bar per
  unit of power and the room's short name. Room tiles and decorations are kept
  in in-memory caches while one layout is drawn. A trophy count is mapped to its
  league.
- **Text and lookup helpers** (`src/pss_core.py`):
  - `list_to_text` packs items into comma-separated chunks bounded by a length;
  - `fix_search_text` and `get_real_name` do fuzzy name lookup;
  - `create_reverse_lookup` inverts a table on two of its fields.
- **Export helpers** (`src/excel.py`):
  - the export file name, built from a prefix, a timestamp and an ending;
  - Excel table ranges such as `A1:C11`, built from column and row counts;
  - the text of a CSV export;
  - `fix_field`, the coercion of a raw text field into a datetime, int, float,
    bool or text.
- **Top lists** (`src/pss_top.py`): the text of the top fleets, the top
  captains, and the stars of one or every division.

Images are values. A `Sprite` records its size, where it came from (loaded
from the sprite store, a blank canvas, a crop, a resize, a recolouring) and
the ordered list of layers that were pasted or drawn on it. Pixels are not
computed. A paste, a rectangle or a text becomes one more layer, recording
the piece, its position and whether it was pasted through its own mask. This
captures what the compositing code decides: which pieces, where, in which
order, on a canvas of which size. Numeric constants such as `TILE_SIZE` (25)
and the power-bar geometry are parameters. The lemmas about tiling need an odd
tile size.

The sprite store maps sprite ids to sizes. Loading an unknown id is the error
`AssetNotFound(id)`. Lookups that raise `KeyError` in Python become `Result`
errors. Fields that may be absent (`entity_property_has_value`) are `Option`s.

Where a function loops or updates state, the model is a `method` with a loop,
proved equal to a specification function. This holds for the two caches of
`__get_ship_layout`, the loops of `list_to_text`, `create_reverse_lookup`, the
league scan and the top lists. Pure code is modelled as functions.

Where the code and its documentation disagree, this model follows the code.

- The decoration cache is read at `src/pss_user.py:184` with the keys frame →
  left door → size. It is written at `src/pss_user.py:189` with the keys frame →
  left door → right door → size. The read therefore never finds what the write
  stored, so every non-1 x 1 room design builds its decoration afresh. The model
  has this cache as a nested dictionary. `Layout.DecorationLookupNeverHits`
  proves that the read misses on every cache the writes can produce, and
  `Layout.DecorationStoreThenAt` shows where the decoration ends up instead. The
  rendered image is not affected, only the amount of work.
- `get_division_stars` checks the division argument against the allowed
  letters before it tests for `'-'`. Because `'-'` is not an allowed letter,
  the `division == '-'` branch cannot be reached. `Top.InvalidDivisionRefused`
  states this under the model's reading of the parameter check.

## Model

| member | source | states |
|---|---|---|
| Frames.CutPieces | src/pss_user.py:290-335 | the eight frame pieces have the sizes the crops give: corners of `from_left`/`from_right` (12/13) sides, centre pieces one tile long and as thick as their border |
| Frames.OddTileHalves | src/pss_user.py:288-289 | for an odd tile size, `from_right` is `from_left + 1`, so the two borders add up to one tile |
| Frames.MakeRoomFrameSprite | src/pss_user.py:284-362 | succeeds exactly when the frame template is in the store and otherwise reports it missing; the result is the stitched frame of the loaded template |
| Frames.FrameShape | src/pss_user.py:286-343 | a stitched frame of a room of at least one tile is `roomW*t` by `roomH*t` and has 4 corners plus 2 pieces per inner column and per inner row; the corners come first, in the order the code pastes them |
| Frames.PasteRowStrips | src/pss_user.py:344-352 | the `for x` loop keeps the canvas size and origin and appends, after the existing layers, a top and a bottom strip for every inner column |
| Frames.PasteColumnStrips | src/pss_user.py:353-361 | the `for y` loop keeps the canvas size and origin and appends, after the existing layers, a left and a right strip for every inner row |
| Frames.FrameHorizontalStrips | src/pss_user.py:344-352 | the `j`-th step of the `x` loop pastes the top piece at `(from_left + j*t, 0)` and the bottom piece at `(from_left + j*t, h - from_right)`, both masked |
| Frames.FrameVerticalStrips | src/pss_user.py:353-361 | the `j`-th step of the `y` loop pastes the left piece at `(0, from_left + j*t)` and the right piece at `(w - from_right, from_left + j*t)`, both unmasked |
| Frames.FrameHorizontalStripAt | src/pss_user.py:344-352 | the `j`-th top and bottom strips exist in the layer list and sit at `from_left + j*t` against the top and the bottom border |
| Frames.FrameSpriteLayout | src/pss_user.py:284-362 | every stitched frame has the complete piece layout: size, corners, and all top, bottom, left and right strips at their positions |
| Frames.StitchedEdgesTile | src/pss_user.py:339-361 | for pieces of the sizes the crops give and an odd tile size, every edge of the stitched frame is covered exactly and every piece lies against its border |
| Frames.FrameEdgesTile | src/pss_user.py:339-361 | with an odd tile size each of the four edges is covered exactly, without gap or overlap, from one canvas border to the other by its corners and strips, and every piece of an edge touches that edge's border |
| Frames.FitDoorFrameToRoomHeight | src/pss_user.py:238-245 | the width is kept and the height grows by `(roomH - 2)` tiles; the stretched first row and the door frame under it cover the new height exactly and both start at x = 0 |
| Frames.DoorFrameBase | src/pss_user.py:249-255 | the canvas is two pixels narrower than both halves together and as tall as the left half; the right half is pasted at x = 2 and the left half over it |
| Frames.DoorFrame | src/pss_user.py:248-260 | succeeds exactly when both halves load and their widths reach 2; a missing left half is reported before a missing right half; the width is the sum minus 2, and the height grows only for rooms taller than 2 |
| Frames.DoorFrameHalvesCover | src/pss_user.py:251-255 | the left half spans `[0, lw)` and the right half `[2, 2 + rw)`; one of them reaches the canvas's right side exactly when the left half is at most 4 or the right half at most 2 pixels wide |
| Frames.RoomFrame | src/pss_user.py:264-269 | a 3 x 2 room uses the template exactly as loaded; any other size uses the frame stitched from the loaded template, `roomW*t` by `roomH*t`; it succeeds exactly when the template loads and otherwise reports it missing |
| Frames.RoomDecoration | src/pss_user.py:263-281 | the decoration succeeds exactly when the frame template loads and the door frame builds; a missing template is reported before a door-frame error; the result is the room frame with the door frame pasted in |
| Frames.Decorate | src/pss_user.py:275-278 | the decoration keeps the frame's size and layers, then gets the door frame at `(1, frame height - door height - 1)` and the frame again on top, in that order |
| Frames.MakeRoomDecorationSprite | src/pss_user.py:263-281 | the decoration succeeds exactly when both the frame and the door frame can be built |
| RoomSprites.PowerBars | src/pss_user.py:369-373 | drawing `n` power bars adds exactly `n` filled rectangles |
| RoomSprites.DrawPowerBars | src/pss_user.py:365-373 | the sprite keeps its size and origin and gains exactly the power-bar rectangles after its existing layers, none for a non-positive count |
| RoomSprites.PowerBarsLayout | src/pss_user.py:366-373 | the first bar starts one bar width plus one pixel from the right edge; each next bar starts one step further left; with a positive step the bars move strictly leftwards |
| RoomSprites.NoPowerNoBars | src/pss_user.py:369 | a count of zero or less draws no bar |
| RoomSprites.PowerBarsCount | src/pss_user.py:219-226 | `MaxSystemPower` decides when present, else `MaxPowerGenerated`; a zero or absent value means no bars, and a count is never 0 |
| RoomSprites.ChooseRoomSpriteId | src/pss_user.py:191-197 | a room under construction uses the construction sprite; a decorated room uses the design's image sprite; an undecorated one uses the race override when there is one, else the image sprite |
| RoomSprites.WithLogo | src/pss_user.py:215-218 | without a logo the sprite is unchanged; with one, it succeeds exactly when the logo loads and pastes it at `(1, 2)` through its mask |
| RoomSprites.CreateRoomSprite | src/pss_user.py:207-234 | the method builds exactly the room sprite the specification function describes, failing where any load fails |
| RoomSprites.UndecoratedRoomIsEnhancedBase | src/pss_user.py:208-211 | without a decoration the room is the recoloured base sprite with nothing drawn on it, and it succeeds exactly when the base sprite loads |
| RoomSprites.DecoratedRoomLayers | src/pss_user.py:212-234 | with a decoration the base keeps its colours and size and carries, in order: the recoloured decoration at (0, 0), the logo at (1, 2) when the design has one, the power bars, and the short name at (12, 0) when the design has one |
| Grid.ParseMask | src/pss_user.py:152 | the mask parses exactly when every character is a digit; each cell is the digit's value; otherwise the error names a non-digit character |
| Grid.RasteriseGrid | src/pss_user.py:146-161 | the overlay succeeds exactly when the mask is all digits and has `rows * cols` cells; it is a blank canvas of the interior's size carrying the outlines of the nonzero cells |
| Grid.GridOutlinesMembers | src/pss_user.py:153-161 | a cell square is outlined exactly when some nonzero cell has that column and row |
| Grid.GridOutlinesAreCells | src/pss_user.py:153-161 | every drawn rectangle is the square of a nonzero cell, and there is one rectangle per nonzero cell |
| Grid.GridCellOutlined | src/pss_user.py:152-161 | for a mask reshaped to `rows x cols`, the square at column `c`, row `r` is outlined exactly when mask cell `r*cols + c` is nonzero |
| Grid.GridOutlinesDistinct | src/pss_user.py:153-161 | no cell is outlined twice |
| Grid.CellBoxInjective | src/pss_user.py:155-160 | distinct cells get distinct rectangles |
| Grid.TwoByTwoExample | src/pss_user.py:152-161 | the 2 x 2 mask `1010` outlines the squares `(0,0)-(24,24)` and `(0,25)-(24,49)` |
| Layout.LayoutFileName | src/pss_user.py:202 | the layout is saved as the prefix, `_`, the user id and `_layout` |
| Layout.RoomDecorationForCases | src/pss_user.py:179-189 | a 1 x 1 room has no decoration; any other room has the decoration of its size, and fails exactly when the frame template or the door frame cannot be built |
| Layout.RoomTileCases | src/pss_user.py:177-199 | an unknown design is the error `DesignNotFound`; a decoration error aborts the tile; otherwise the tile is the room sprite of the chosen sprite id with the room's decoration |
| Layout.DecorationStoreKeepsShape | src/pss_user.py:189 | a write to the decoration cache keeps the four-level shape frame → left door → right door → size |
| Layout.DecorationLookupNeverHits | src/pss_user.py:184 | the three-level read of the decoration cache finds nothing in any cache the writes produce |
| Layout.DecorationStoreThenAt | src/pss_user.py:189 | a stored decoration is found under frame, left door, right door and size |
| Layout.CacheRoomSound | src/pss_user.py:200 | caching a freshly built tile keeps every entry equal to the tile its key builds, and adds exactly that key |
| Layout.PlaceRoomsAbort | src/pss_user.py:171-201 | once a room's tile cannot be built, the whole layout fails with that room's error |
| Layout.BuildRoomTile | src/pss_user.py:177-199 | the tile built from scratch is the room tile of its design and status; the decoration cache stays well shaped |
| Layout.CachedRoomTile | src/pss_user.py:175-200 | the tile returned is the tile its design and status build, whether cached or not; it is built exactly when its key is not cached yet, and then the key is added |
| Layout.PlaceRoomTiles | src/pss_user.py:169-201 | the room loop with its two caches pastes exactly the tiles the specification gives, failing at the first room that fails; each design/status pair is built at most once, only for rooms of the ship, and on success for every room |
| Layout.RenderShipLayout | src/pss_user.py:134-204 | the image and file name are the layout of the ship; each design/status pair is built at most once and only for rooms of the ship; on success every room's pair was built |
| Leagues.FirstLeague | src/pss_user.py:624-627 | the index found is a league containing the count with no earlier league containing it; none is found exactly when no league contains it |
| Leagues.LeagueFromTrophies | src/pss_user.py:621-628 | the loop with its early exit returns the name the specification gives |
| Leagues.FirstLeagueIs | src/pss_user.py:624-627 | the first league whose range contains the count is the one found |
| Leagues.LeagueNameMeaning | src/pss_user.py:621-628 | an absent count, or one in no range, gives `-`; otherwise the result is the name of the first league whose inclusive range contains the count |
| Leagues.DisjointLeagues | src/pss_user.py:624-627 | with ordered, non-overlapping ranges, any league containing the count is the one returned |
| CoreText.ListToText | src/pss_core.py:144-158 | no items give one empty chunk; otherwise the chunks rejoined with `, ` are the items joined with `, `; each chunk joins a non-empty run of consecutive items, and a chunk of two or more items stays within the limit; a chunk is closed only when the next item would push it over the limit |
| CoreText.CloseChunk | src/pss_core.py:151-154 | starting a new chunk keeps the chunking invariant |
| CoreText.ExtendChunk | src/pss_core.py:151-156 | appending an item that fits keeps the chunking invariant |
| CoreText.CloseGreedy | src/pss_core.py:151-154 | closing a chunk because the next item does not fit keeps every closed chunk maximal |
| CoreText.ExtendGreedy | src/pss_core.py:155-156 | extending the open chunk keeps every closed chunk maximal |
| CoreText.FixSearchText | src/pss_core.py:162-165 | the result holds only lower-case ASCII letters and digits and is no longer than the input |
| CoreText.KeepSearchCharsMembers | src/pss_core.py:164 | a character survives exactly when it is a lower-case letter or digit present in the text |
| CoreText.KeepSearchCharsFixed | src/pss_core.py:164 | a text of only allowed characters is left unchanged |
| CoreText.FixSearchTextIdempotent | src/pss_core.py:162-165 | normalising a normalised text changes nothing |
| CoreText.FirstMatch | src/pss_core.py:172-177 | the index found matches with no earlier match; none is found exactly when nothing matches |
| CoreText.Normalised | src/pss_core.py:169 | the lookup list is the normalised names, position by position |
| CoreText.GetRealName | src/pss_core.py:168-179 | any name returned is one of the given names |
| CoreText.GetRealNameExact | src/pss_core.py:171-173 | the first name that normalises to the normalised search text is returned |
| CoreText.GetRealNameSubstring | src/pss_core.py:174-179 | without an exact match, nothing is found exactly when the search text is in no normalised name; otherwise the first name containing it is returned |
| CoreText.EmptySearchFindsFirst | src/pss_core.py:172-177 | a search that normalises to nothing finds a name whenever there is one |
| CoreText.CreateReverseLookup | src/pss_core.py:96-103 | the loop builds exactly the reverse lookup the specification gives, failing on the first record without both fields |
| CoreText.ReverseLookupAbort | src/pss_core.py:100-102 | a record missing a field fails the whole lookup, whatever follows it |
| CoreText.ReverseLookupLastWins | src/pss_core.py:96-103 | it succeeds exactly when every record has both fields; the keys are exactly the records' `new_key` values; each maps to the `new_value` of the last record with that key |
| CoreText.ReverseLookupOk | src/pss_core.py:99-102 | the inversion succeeds exactly when every record has both fields |
| CoreText.ReverseLookupKeys | src/pss_core.py:99-102 | the keys of a successful inversion are exactly the records' `new_key` values |
| CoreText.ReverseLookupValues | src/pss_core.py:99-102 | each key of a successful inversion maps to the `new_value` of the last record carrying it |
| CoreText.ReverseLookupExample | src/pss_core.py:99-102 | two records sharing a name keep the later id |
| Excel.Suffix | src/excel.py:125-132 | an absent or unknown ending falls back to `xlsx`; a known one gives its suffix, which never contains a dot |
| Excel.Timestamp | src/excel.py:128-131 | during a tournament, when asked to, the timestamp is `tournament-<year>-<month in lower case>`; otherwise it is the formatted date |
| Excel.FileName | src/excel.py:124-134 | the name is prefix, `_`, timestamp, `.`, suffix: every space of the prefix becomes `_`, every other character is kept, and the length is the sum of the parts plus 2 |
| Excel.FileNameParts | src/excel.py:127-133 | every space of the prefix became `_` and every other character is kept, so the prefix part has no space and equals the prefix when it had none; an underscore and the timestamp follow, then `.` and the suffix |
| Strings.ReplaceChar | src/excel.py:127 | every occurrence of the character is replaced and every other character is kept, position by position |
| Excel.ColumnLetter | src/excel.py:141-142 | a column letter exists exactly for columns 1 to 18278; it is one to three upper-case letters that read back as the column; otherwise the error names the column |
| Excel.LettersRoundTrip | src/excel.py:141-142 | reading back the letters of a column gives the column |
| Excel.ColumnIndexRoundTrip | src/excel.py:141-142 | every non-empty upper-case word is the letters of exactly one column |
| Excel.ConvertToRef | src/excel.py:137-144 | zero-based starts move to one-based; the range exists exactly when its first and last columns are valid, and is `<first cell>:<last cell>`; otherwise the error names the first invalid column |
| Excel.ConvertToRefRoundTrip | src/excel.py:143 | a range splits at its one colon into two cell references that read back as its first and last cells |
| Excel.RangeRoundTrip | src/excel.py:143 | any two cell references joined by a colon split back into the two cells, which read back as their columns and rows |
| Excel.CellRefRoundTrip | src/excel.py:143 | a cell reference reads back as its column and row |
| Excel.RefForFrameDefault | src/excel.py:147-151 | with the default starts a frame's range runs from `A1` to its last column and its last data row plus the header; a frame without columns has no range |
| Excel.RefForFrame | src/excel.py:147-151 | a frame's range exists exactly when its first and last columns are valid; it runs from the start cell to the column `columns - 1` further right and the row `rows` further down |
| Excel.CsvPath | src/excel.py:75-78 | an explicit file name is used as given; otherwise the CSV name from the prefix and timestamp |
| Excel.FieldText | src/excel.py:85 | text is kept, booleans give `True`/`False`, `None` gives `None`, and an integer gives a text that `int()` reads back as it |
| Excel.CsvLine | src/excel.py:84-88 | an empty line gives the empty text; with a one-character delimiter found in no field, the line splits back into its fields' texts |
| Excel.CsvText | src/excel.py:80-94 | no lines give the empty text and one line gives that line alone, with an empty delimiter meaning tab |
| Excel.CsvRoundTrip | src/excel.py:80-94 | for a one-character delimiter other than newline, and fields free of both, splitting the CSV text at newlines and then at the delimiter gives back every field's text; an empty delimiter means tab |
| Excel.FixField | src/excel.py:154-177 | an empty field is kept; a datetime wins; otherwise, without a leading zero, a field `int()` reads becomes that int, and one only `float()` reads becomes a float; every remaining field becomes `True`/`False` when its stripped lower-case form is `true`/`false`, and is kept as it is otherwise |
| Excel.ParseIntOfIntToString | src/excel.py:165 | `int()` reads back the decimal text of every integer |
| Excel.FixFieldOfInt | src/excel.py:163-165 | the decimal text of an integer is coerced back to that integer |
| Excel.LeadingZeroNotNumber | src/excel.py:163 | a field of two or more characters starting with `0` is never a number |
| Excel.PaddedTrue | src/excel.py:171-175 | ` TRUE ` is coerced to the bool `true` |
| Top.TopFleetsText | src/pss_top.py:40-62 | the headline names `take`, then one line per fleet, in order, numbered from 1 |
| Top.FleetLineStars | src/pss_top.py:53-59 | during a tournament the fleet line is the quiet line with `, <stars> <star>` inserted before its closing parenthesis |
| Top.TopCaptainsText | src/pss_top.py:84-102 | the headline, then the first `take` captains in order, numbered from 1, or every captain when `take` is not between 1 and their number |
| Top.CaptainLines | src/pss_top.py:88-99 | the lines of the first `n` captains: the `i`-th is captain `i` in order, numbered `i + 1` |
| Top.InsertSorted | src/pss_top.py:161 | inserting a fleet into a list sorted by descending score keeps it sorted |
| Top.InsertBounded | src/pss_top.py:161 | inserting a fleet keeps every score under a bound that the fleet and the list respect |
| Top.SortByScore | src/pss_top.py:161 | the fleets sorted by descending score are a permutation of the input |
| Top.DivisionStarsText | src/pss_top.py:159-171 | the division header, then one line per fleet in descending score order, numbered from 1, over a permutation of the fleets |
| Top.DivisionBlock | src/pss_top.py:159-171 | a division's block starts with its header and has one more line than the division has fleets |
| Top.StarLines | src/pss_top.py:162-170 | the lines of the first `n` sorted fleets: the `i`-th is fleet `i`, numbered `i + 1` |
| Top.NumberedStarLines | src/pss_top.py:160-170 | the loop writes the header, then one star line per sorted fleet, in order |
| Top.InDivision | src/pss_top.py:134 | a fleet is listed exactly when it is one of the fleets and belongs to the division |
| Top.InDivisionCounts | src/pss_top.py:134 | each fleet of the division is kept as many times as it occurs, and no other fleet is kept |
| Top.InDivisionAppend | src/pss_top.py:134 | the filter keeps the fleets' order: filtering two lists one after the other gives the filtered lists one after the other |
| Top.Put | src/pss_top.py:134-140 | assigning to a new key appends it; assigning to an existing key replaces the value at that key's place and leaves every other entry as it was |
| Top.CollectDivisions | src/pss_top.py:118-140 | the loop collects exactly the divisions the specification gives |
| Top.OneDivisionFilters | src/pss_top.py:132-134 | a valid letter gives one division, named by the upper-case letter, listing exactly the fleets of that division's design id |
| Top.InvalidDivisionRefused | src/pss_top.py:118-121 | a letter outside the allowed ones, `-` included, is refused with an error |
| Top.AppendBlock | src/pss_top.py:145-146 | one step of the join appends a division's block and the empty line |
| Top.BlocksWithSeparators | src/pss_top.py:143-146 | the join loop yields every block followed by an empty line |
| Top.JoinBlocks | src/pss_top.py:143-148 | dropping the last empty line leaves the blocks separated by single empty lines |
| Top.SeparatedInterleave | src/pss_top.py:144-148 | blocks each followed by an empty line, minus the last one, are the blocks separated by empty lines |
| Top.InterleaveShape | src/pss_top.py:144-148 | the joined lines hold every block's lines plus one empty line between consecutive blocks |
| Top.GetDivisionStars | src/pss_top.py:117-153 | the method computes exactly the lines and the flag the specification gives |
| Top.DivisionStarsShape | src/pss_top.py:142-153 | no division gives no lines and `false`; otherwise `true` and lines that start with the first division's header and end with the historic note when one is given |

## Left out

- The disk caches are not modelled. `load_sprite_from_disk` and `save_sprite` are file I/O, so the model always takes the path where the disk cache misses.
- Pixels, colour enhancement, resampling and fonts are not modelled: PIL operations only record their pieces, positions and masks. Brightness, hue and saturation are not interpreted; they are passed through as a `Tint`.
- Reading the user's ship, the designs and the sprites from the game's API and XML, and sending embeds, are not modelled; their results are parameters.
- `create_empty_room_sprite` lives in a file that is not part of this model. It is taken to give a canvas of `roomW * TILE_SIZE` by `roomH * TILE_SIZE`.
- `Grid.RasteriseGrid`: numpy's `reshape` can infer a dimension given as `-1`; rows and columns are natural numbers here, so that case is not modelled.
- Datetimes are not computed. Whether a tournament is running, the month's short name and the `strftime` text are parameters of `Excel.Timestamp`. Whether a field parses as a game datetime is a parameter of `Excel.FixField`, and the datetime branch's clamping to the earliest Excel date is left out.
- `Excel.FixField`: Python's `float()` is not modelled, so whether a field parses as a float is a parameter. `int()` is modelled for ASCII digits only, without underscores and without non-ASCII digits.
- `Grid.ParseMask` reads ASCII digits only. Python's `int()` also accepts other Unicode decimal digits, such as Arabic-Indic ones.
- `Excel.FixField` and `CoreText.FixSearchText` lower-case ASCII letters only. Python's `str.lower` also maps other Unicode letters; the Kelvin sign, for example, becomes `k`.
- `Excel.FieldText` renders text, integers, booleans and `None` as Python's `str` does; other field types, floats and datetimes included, are not modelled.
- The CSV text is modelled, but writing it to a file is not.
- `openpyxl.utils.get_column_letter` lives in a library that is not part of this model. It is modelled by its documented behaviour: bijective base-26 letters for columns 1 to 18278, and an error otherwise.
- `pss_assert.valid_parameter_value` lives in a file that is not part of this model. It is taken as a case-insensitive membership test against the allowed division letters.
- `util.sort_entities_by` lives in a file that is not part of this model. It is modelled as an insertion sort by descending integer score. `Top.SortByScore` proves sortedness and permutation but not that the sort is stable.
- `Top.FleetLine` prints the score and the trophy count as the texts the game sends. `Top.StarLine` prints the trophy count as sent, but the score as the decimal text of its integer value, because the same field is also sorted as an integer. The source prints the score text as sent, so the two differ on texts such as `012`, ` 12` or `+12`. The `Trophy` field of a division fleet is optional.
- `Top.SortByScore`: the `ValueError` that `int()` raises on a score that is not a number is not modelled, because scores are integers here.
- `util.escape_markdown`, the emojis, `settings.EMPTY_LINE`, `util.get_historic_data_note` and the `lookups` division tables are parameters.
- `LEAGUE_INFOS_CACHE` is a parameter of the league functions; loading it is left out.
- The ship-layout caches live only while one layout is drawn, as in the source. Concurrency between layouts is not modelled.
- `__get_ship_layout` reads a room's design with `rooms_designs_data[room_design_id]`. A missing design is the error `DesignNotFound`, which stands in for Python's `KeyError`.
