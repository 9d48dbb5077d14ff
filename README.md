# bs_meta in Dafny

A model of the two scripts that prepare a tiled microscopy acquisition for the
BigStitcher plugin of Fiji/ImageJ, with proofs about the model.

- `read_meta.py` reads every `Image` record of the acquisition metadata. From each
  record's `Bounds` it takes the channel, the tile and the pixel position. It builds
  a nested dict `channel -> tile -> location` in which the first record of a tile
  wins. For channel 0 it then derives the tile count (largest tile id plus one) and
  the list of tile locations. Two helpers sit beside this: reading the channel name
  and tile id out of a file name, and building the tile-size string.
- `generate_bigstitcher_macro.py` holds two classes whose fields the caller assigns.
  - `BigStitcherMacro` renders the macro that defines a dataset and estimates its
    stitching parameters, and writes it to `reg<region>_bigstitcher_macro.ijm` in the
    output directory.
  - `FuseMacro` renders the fusion macro and writes it to `fuse_only_macro.ijm` in
    the image directory.

Files:

- `wrappers.dfy`: `Option` and `Result`.
- `text.dfy` (module `Text`): the Python string built-ins the scripts use.
  - `split` and `join` on one separator character.
  - `strip` with a set of characters.
  - `str()` of an integer and `int()` of a string.
- `read_meta.dfy` (module `ReadMeta`): the field extractors and the arrangement loop,
  written as a method with loop invariants. The loop is specified by the predicate
  `Describes`, which states the result in terms of the records:
  - the channel keys are the channels seen;
  - each channel's keys are the tiles seen for it, in first-seen order;
  - each entry holds the location of its tile's first record.
- `macro_template.dfy` (module `MacroTemplate`): `str.format(**kwargs)` over a template
  made of literal segments and `{name}` fields.
- `bigstitcher.dfy` (module `BigStitcher`): `make_range`, `convert_tiling_mode`, the
  two templates (literal text reproduced segment by segment), the two classes, and
  the macro file names.

Two functions are parameters of the model, with nothing assumed about them:
- `convert_location`, from `create_meta`, is `convert: (int, int) -> L`. It is not
  assumed injective.
- `Path.absolute().as_posix()` is `pathToStr: Path -> string`.

Notes on the code:
- `strip('m')` on the tile field of a file name removes every leading and trailing
  `m`, however many there are.
- `FuseMacro.generate` returns None; only its write helper returns the path.
- Nothing makes `convert_location` injective, so no lemma relies on it.

## Model

| member | source | states |
|---|---|---|
| Text.JoinEnds | generate_bigstitcher_macro.py:76 | `Join`, i.e. `sep.join(fields)`, starts with the first field and ends with the last one |
| Text.Split | read_meta.py:7 | `str.split` gives at least one field, and no field holds the separator |
| Text.JoinSplit | read_meta.py:7 | joining the fields of a split with the separator gives back the split text |
| Text.SplitJoin | generate_bigstitcher_macro.py:76 | splitting fields joined by a separator they do not contain gives back the fields |
| Text.LStripRemovesPrefix | read_meta.py:9 | `lstrip` removes a prefix made only of stripped characters, and stops at a character it keeps |
| Text.RStripRemovesSuffix | read_meta.py:9 | `rstrip` removes a suffix made only of stripped characters, and stops at a character it keeps |
| Text.StripSlice | read_meta.py:9 | `Strip`, i.e. `str.strip(chars)`, keeps `s[i..i+n]` of the text; every character before and after the slice is a stripped one; the ends of a non-empty result are kept characters |
| Text.StripLeadingRun | read_meta.py:9 | stripping a run of one stripped character from text whose ends are kept leaves exactly that text |
| Text.NatToStringValue | generate_bigstitcher_macro.py:76 | the decimal digits `str(n)` writes are worth `n` |
| Text.IntToStringShape | generate_bigstitcher_macro.py:69 | `IntToString`, i.e. `str(i)`, starts with `-` exactly when `i < 0`; its digits are non-empty, decimal, and start with `0` only for zero |
| Text.ParseDigits | read_meta.py:9 | `ParseInt`, i.e. `int()`, of a string of decimal digits below the digit limit is the value of those digits |
| Text.ParseNegatedDigits | read_meta.py:9 | `int()` of `-` followed by decimal digits below the digit limit is the negated value of those digits |
| Text.ParseIntToString | read_meta.py:17 | `int(str(i)) == i` for every integer below Python's int/str digit limit, negative ones included (the limit is not modelled; see Left out) |
| Text.ParseIntPadded | read_meta.py:9 | `int()` reads a zero-padded numeral such as `007` as its number, for numerals below Python's int/str digit limit |
| Text.ParseIntNeedsDigit | read_meta.py:9 | text without a decimal digit is a ValueError for `int()` |
| ReadMeta.ExtractFromFilename | read_meta.py:5-10 | succeeds exactly when there is text with at least three `_` fields whose third-to-last field, stripped of `m`, reads as an integer; no text is an AttributeError, fewer fields an IndexError, an unreadable tile field a ValueError naming that field; a returned channel name holds no `_` |
| ReadMeta.SplitFileName | read_meta.py:7 | a file name joined from `_`-free fields splits back into those fields |
| ReadMeta.TileFieldReads | read_meta.py:9 | a field `m..m0..0<n>` holds no `_` and reads as tile `n` once its `m`s are stripped |
| ReadMeta.ExtractFromFields | read_meta.py:5-10 | the channel is the second-to-last field and the tile is the stripped, parsed third-to-last field, whatever precedes them |
| ReadMeta.ExtractFromComposedFilename | read_meta.py:5-10 | a name `<fields>_m<padded tile>_<channel>_<suffix>` gives back exactly `(channel, tile)` |
| ReadMeta.ExtractPosition | read_meta.py:12-17 | succeeds exactly when `Bounds` exists and StartC, StartM, StartX, StartY are integers; the result is channel, tile, x, y in that order |
| ReadMeta.ExtractPositionOfBounds | read_meta.py:12-17 | reading the attributes written for a position gives back that position |
| ReadMeta.GetTileSize | read_meta.py:20-24 | succeeds exactly when `Bounds`, SizeX and SizeY are present |
| ReadMeta.TileSizeFields | read_meta.py:23 | the tile size splits on spaces into SizeX, SizeY and `1` |
| ReadMeta.TryMap | read_meta.py:36-37 | a loop that stops at the first raise: on success, one result per element, in order |
| ReadMeta.TryMapError | read_meta.py:36-37 | a failure is the error of some element whose predecessors all succeed |
| ReadMeta.TryMapFirstError | read_meta.py:36-37 | when every earlier element succeeds, the first failing element decides the error |
| ReadMeta.Positions | read_meta.py:36-37 | on success, position `i` is the one read from record `i` |
| ReadMeta.FirstIndex | read_meta.py:39-43 | the first record of a channel and tile: it has that pair, and no earlier record does |
| ReadMeta.InnerDictsNonEmpty | read_meta.py:39-43 | every channel's dict has at least one entry |
| ReadMeta.RecordLocated | read_meta.py:39-43 | first write wins: every record's tile has an entry in its channel's dict, holding the location of the tile's first record, which comes no later |
| ReadMeta.RecordNewChannel | read_meta.py:42-43 | a record of a new channel adds that channel with its one tile, and the arrangement still describes the records |
| ReadMeta.RecordNewTile | read_meta.py:40-41 | a new tile of a known channel is appended to that channel's dict, and the arrangement still describes the records |
| ReadMeta.RecordDuplicate | read_meta.py:40 | a later record of a tile already present changes nothing, and the arrangement still describes the records |
| ReadMeta.BuildArrangement | read_meta.py:34-43 | the loop fails with the first unreadable record's error; otherwise the result describes the records: channel keys, tile keys in first-seen order, first location per tile |
| ReadMeta.MaxOf | read_meta.py:47 | `max()` is an element and no element exceeds it |
| ReadMeta.SummarizeChannel0 | read_meta.py:46-48 | KeyError without channel 0; otherwise the count is one more than the largest tile id, and the locations are the dict's values in insertion order |
| ReadMeta.Channel0Counts | read_meta.py:46-48 | on the records: fails exactly when no record has channel 0; the count exceeds every channel-0 tile id, the largest by one; one location per distinct tile id |
| ReadMeta.TileLocationsInFirstSeenOrder | read_meta.py:40-48 | the k-th location is the location of the k-th first record of a channel-0 tile, in record order; every first record is listed and no other |
| ReadMeta.FirstRecords | read_meta.py:40-43 | a channel's dict values are the locations of the channel's first records, in record order |
| ReadMeta.DuplicateTileScenario | read_meta.py:36-48 | tiles 0, 1, 1 at x = 0, 1000, 2000 give count 2 and the locations of x = 0 and x = 1000 |
| ReadMeta.ReadMeta | read_meta.py:36-50 | succeeds exactly when every position reads, channel 0 occurs and the first record has a tile size, and fails with the error of the first step that fails; on success there is an arrangement that describes the records whose channel-0 summary is exactly the returned count and locations, and the tile size is that of the first record |
| MacroTemplate.Format | generate_bigstitcher_macro.py:49-50 | `format` succeeds exactly when every field has an argument; otherwise the KeyError names a missing argument |
| MacroTemplate.FormatFirstMissing | generate_bigstitcher_macro.py:49-50 | the KeyError names the leftmost field without an argument |
| MacroTemplate.FormatConcat | generate_bigstitcher_macro.py:49-50 | formatting a concatenation concatenates the formatted parts, and the left part's error comes first |
| MacroTemplate.FormatAt | generate_bigstitcher_macro.py:49-50 | each segment appears in place: literal text unchanged, a field replaced by its argument, between the formatted text before and after it |
| MacroTemplate.FormatIgnoresUnusedArguments | generate_bigstitcher_macro.py:174-177 | the text depends only on the arguments some field names |
| BigStitcher.MakeRange | generate_bigstitcher_macro.py:75-76 | the range is empty exactly when `number <= 0` |
| BigStitcher.MakeRangeFields | generate_bigstitcher_macro.py:75-76 | for `number >= 1`, splitting on `,` gives `number` fields; field `i` is `str(i + 1)` and reads back as `i + 1` |
| BigStitcher.MakeRangeFive | generate_bigstitcher_macro.py:75-76 | `make_range(5) == "1,2,3,4,5"` |
| BigStitcher.ConvertTilingMode | generate_bigstitcher_macro.py:40-45 | `snake` and `grid` map to their grid types; any other mode is an UnboundLocalError |
| BigStitcher.ConvertTilingModeInjective | generate_bigstitcher_macro.py:40-45 | the two grid types differ, so a grid type determines its mode |
| BigStitcher.SpellingInjective | generate_bigstitcher_macro.py:50-63 | no two keywords share a `Spelling`, their name in the call and in the template |
| BigStitcher.MacroFileName | generate_bigstitcher_macro.py:69 | the name is `reg`, then `str(region)`, then `_bigstitcher_macro.ijm` |
| BigStitcher.MacroFileNameRegion | generate_bigstitcher_macro.py:69 | the numeral between `reg` and `_bigstitcher_macro.ijm` reads back as the region |
| BigStitcher.MacroFileNameInjective | generate_bigstitcher_macro.py:69-70 | different regions write different files |
| BigStitcher.StitchingTemplateFields | generate_bigstitcher_macro.py:81-157 | the stitching template names the dataset XML at its four BigStitcher calls and nowhere else, and has no `out_dir` field |
| BigStitcher.FuseTemplateFields | generate_bigstitcher_macro.py:190-209 | the fusion template's fields are the dataset XML and the output directory only |
| BigStitcher.FormatFuseTemplate | generate_bigstitcher_macro.py:190-209 | the fusion macro is its three literal pieces with the XML path and the output directory between them |
| BigStitcher.BigStitcherMacro.constructor | generate_bigstitcher_macro.py:6-29 | the default settings: unset directories, `dataset.xml`, the default pattern, counts 1, overlaps 10/10/1, distances 1, empty mode, region 1 |
| BigStitcher.BigStitcherMacro.Arguments | generate_bigstitcher_macro.py:50-63 | the arguments exist exactly when both directories are set and the mode is known; the error follows evaluation order; every keyword has an argument; the directories, the XML path, the tile range and the grid type are as passed |
| BigStitcher.PatternAndGridArguments | generate_bigstitcher_macro.py:53-56 | `ArgumentText`: `pattern` is passed unchanged, `num_tiles_x` and `num_tiles_y` as `str()` of the settings |
| BigStitcher.OverlapArguments | generate_bigstitcher_macro.py:57-59 | `overlap_x`, `overlap_y`, `overlap_z` are `str()` of the settings |
| BigStitcher.PixelDistanceArguments | generate_bigstitcher_macro.py:60-62 | `pixel_distance_x`, `pixel_distance_y`, `pixel_distance_z` are `str()` of the settings |
| BigStitcher.BigStitcherMacro.ReplaceValuesInMacro | generate_bigstitcher_macro.py:48-65 | succeeds exactly when the arguments do, fails with their error, and is the template formatted with them |
| BigStitcher.StitchingMacroFilePaths | generate_bigstitcher_macro.py:69-70 | the macro path is a file name joined onto the output directory; two settings give the same file name exactly when they have the same region, and the same output directory and region give the same path |
| BigStitcher.BigStitcherMacro.Generate | generate_bigstitcher_macro.py:34-37 | writes the rendered macro to `reg<region>_bigstitcher_macro.ijm` in the output directory, or fails as rendering does |
| BigStitcher.DefaultStitchingSettingsFail | generate_bigstitcher_macro.py:7 | a generator left at its defaults fails with a TypeError on `img_dir` |
| BigStitcher.DatasetPathInEveryCall | generate_bigstitcher_macro.py:52 | at each of the four calls, the macro holds the text of `img_dir` joined with `xml_file_name` |
| BigStitcher.SameArgumentsButOutDir | generate_bigstitcher_macro.py:50-63 | two settings differing only in `out_dir` and region pass the same arguments apart from `out_dir` |
| BigStitcher.StitchingTextIgnoresOutDir | generate_bigstitcher_macro.py:48-65 | the stitching text is the same for settings that differ only in `out_dir` and region |
| BigStitcher.FuseMacro.constructor | generate_bigstitcher_macro.py:161-164 | the default settings: image and output directory `.`, `dataset.xml` |
| BigStitcher.FuseMacro.Arguments | generate_bigstitcher_macro.py:174-177 | exactly the three arguments `img_dir`, `path_to_xml_file`, `out_dir`, with their values: the image directory, the image directory joined with the XML name, the output directory, each as text |
| BigStitcher.FuseMacro.ReplaceValuesInMacro | generate_bigstitcher_macro.py:172-178 | formatting never fails; the text is the template's literal pieces around the XML path and the output directory |
| BigStitcher.FuseMacroFilePaths | generate_bigstitcher_macro.py:182 | the macro path is `fuse_only_macro.ijm` joined onto the image directory, whatever the other settings, so the same image directory gives the same path |
| BigStitcher.FuseMacro.Generate | generate_bigstitcher_macro.py:167-169 | writes the rendered macro to `fuse_only_macro.ijm` in the image directory |
| BigStitcher.FuseTextIgnoresImgDirArgument | generate_bigstitcher_macro.py:174-176 | the fusion text depends only on the texts of the XML path and of the output directory |

## Left out

- XML parsing with ElementTree: each `Image` record is given as its optional `Bounds` with optional attribute texts.
- Finding the `Filename` node: `ExtractFromFilename` takes the node's optional text.
- File reading and writing: the model computes each file's path and text, but does not open or write files.
- `create_meta` and the writing of `dataset_gen.xml` are not part of this model. The script's values for it are the result of `ReadMeta`.
- `convert_location` and `Path.absolute().as_posix()` are function parameters, with nothing assumed about them. Both depend on code or host state outside the model.
- The hard-coded metadata path and file-name pattern of `read_meta.py` are left out, being constants of one acquisition.
- The unused `datetime` import and the unused private `__location` fields are left out.
- Text.ParseInt: `int()` is modelled on ASCII text only: ASCII white space, an optional sign and ASCII digits. Underscores between digits and non-ASCII digits or spaces are not modelled. A `_` cannot reach `int()` in the file-name path anyway, because the text was split on `_`. Python's limit on the number of digits in an int/str conversion (`sys.get_int_max_str_digits()`, 4300 by default; beyond it `int()` and `str()` raise ValueError) is not modelled: `ParseInt` and `IntToString` work on numerals of any length. Tile ids, coordinates and region numbers stay far below that limit.
- Text.ParseIntToString: holds for every integer in the model; in Python `str(i)` raises ValueError once `i` has more digits than the int/str digit limit allows.
- Text.ParseIntPadded: holds for numerals of any length in the model; in Python `int()` raises ValueError on a numeral longer than the int/str digit limit.
- BigStitcher.BigStitcherMacro.Arguments: the numeric fields are integers formatted with `str()`. Float settings and their text form are not modelled.
- BigStitcher.BigStitcherMacro.constructor: the class `Path` stored as the default directory is modelled as `None`. Any use of it in rendering is the TypeError it raises.
- BigStitcher.FuseMacro.Generate: returns the file it writes, standing for the write. The Python method returns None.
- Paths are terms: either a base, or a parent with a name joined on. Host path normalisation is left to `pathToStr`. Two different terms can name the same directory, so the path lemmas compare file names and promise only that equal settings give equal paths, never that equal paths come from equal directories.
