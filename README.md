# ImageJ extension — a Dafny model

This project models the logic of the ImageJ extension for the electrongui
desktop application. The extension:

- launches ImageJ in batch mode on one of four macros (map creation, object
  detection, holes detection, cropping of a large stitched image);
- follows the child process's progress and exit code;
- writes the layer description a map viewer loads afterwards.

Three parts are modelled.

- **The layer descriptor builder** (`ImageJUtil.createJSONConfiguration`,
  module `ImageJUtil`).
  - In folder mode, the directory listing is scanned for tiles named
    `..._X<n>..._Y<n>...`.
  - The tile counts are the spread of the tile coordinates.
  - The tile size and the mosaic size come from the first tile's dimensions.
  - A name template `..._X{x}..._Y{y}...` comes from the first tile's name.
  - A `points` or `pixels` descriptor is built from these.
  - Single-image and image-list modes take fixed paths.
  - The folder scan is a method with a loop, proved equal to a recursive
    specification whose meaning is proved in lemmas.
- **The four task classes** (`MapCreator`, `ObjectDetection`,
  `HolesDetection`, `Crop`). Each is a class whose methods are the events
  the task reacts to:
  - the options modal shown by `run`;
  - Ok (gated on an output folder, building the `params` record with the
    `"[]"` / `0` placeholders);
  - the Cancel button;
  - stdout chunks (progress);
  - the exit code (success, failure, cancellation);
  - the asynchronous build and write of the layer description;
  - spawn errors.

  The calls a task makes into the electrongui base `Task` are recorded in a
  `base` log. The base class's `cancel()` verdict is a parameter. The
  `#`-separated argument string handed to each macro is proved to split
  back into its fields.
- **The extension itself** (module `Extension`, plus `ExtensionActions`).
  This covers:
  - the JVM memory limits and their configuration dialog, which clamps
    values on blur, commits them on Save and keeps them on Cancel;
  - the batch command line `run(macro, args)` builds;
  - the open-dialog properties and task labels of the four menu actions.

Shared helpers:

- `Text`: digits, `split`/join on one character, `indexOf`-based split
  pieces, whitespace trimming.
- `NodePath`: POSIX `path.basename`, `path.extname` and `path.join` on
  plain strings.
- `Progress`: the stdout-to-percentage formulas.
- `TaskBase`: the exit-code convention, the placeholders, and the
  base-class call log.

Where the documented behaviour and the code differ, the model follows the
code:

- The progress percentage is neither clamped nor taken from the last
  match: the code splits the whole chunk on `/` and divides the first
  piece by the last one (map creator) or the second one (the other tasks).
- The memory fields have no lower clamp.

## Model

| member | source | states |
|---|---|---|
| Text.BoolToString | src/tasks/MapCreatorTask.js:60 | a boolean renders as `true` exactly when it holds, and as `false` otherwise |
| Text.NatToString | ImageJExtension.js:329 | the decimal rendering is non-empty and all digits |
| Text.IntToString | ImageJExtension.js:329 | the rendering of an integer is non-empty |
| Text.ParseInt | ImageJExtension.js:329 | only a non-empty text reads as an integer |
| Text.DecimalValueOfNatToString | ImageJExtension.js:329 | reading back a rendered natural number gives the number |
| Text.ParseIntOfIntToString | ImageJExtension.js:329 | reading back a rendered integer (sign included) gives the integer |
| Text.Split | src/tasks/MapCreatorTask.js:66 | `split` on one character gives at least one piece, at least two when the separator occurs, the whole string when it does not, and no piece holds the separator |
| Text.SplitJoin | src/tasks/MapCreatorTask.js:60 | fields free of the separator, joined and split again, come back unchanged |
| Text.JoinSplit | src/tasks/MapCreatorTask.js:66 | splitting then joining with the same separator gives back the string |
| Text.IndexFrom | src/ImageJUtil.js:74-77 | a found index is at or after the start and the pattern occurs there |
| Text.IndexOf | src/ImageJUtil.js:74-77 | `indexOf` returns an index where the pattern occurs |
| Text.IndexFromLeftmost | src/ImageJUtil.js:74-77 | no occurrence lies between the start and the found index, and none at all when nothing is found |
| Text.IndexOfLeftmost | src/ImageJUtil.js:74-77 | `indexOf` finds the leftmost occurrence, and finds one whenever there is one |
| Text.ReplaceAll | src/ImageJUtil.js:138 | `replace(/ /g, "_")` keeps the length and changes exactly the matching characters |
| Text.TrimStart | src/tasks/ObjectDetectionTask.js:64 | the result is a suffix of the text that does not start with whitespace, and everything removed before it is whitespace |
| Text.TrimEnd | src/tasks/ObjectDetectionTask.js:64 | the result is a prefix of the text that does not end with whitespace, and everything removed after it is whitespace |
| Text.TrimDigitsThenSpaces | src/tasks/ObjectDetectionTask.js:64 | trimming digits followed by whitespace leaves the digits |
| NodePath.Basename | src/ImageJUtil.js:127 | `path.basename`; stated by `NodePath.BasenameHasNoSep`, `NodePath.BasenameInPath` and `NodePath.BasenameAfterSep` |
| NodePath.BasenameHasNoSep | ImageJExtension.js:347 | `path.basename` holds no separator |
| NodePath.BasenameInPath | src/tasks/CropTask.js:52 | every character of the basename comes from the path |
| NodePath.BasenameWithout | src/tasks/CropTask.js:52 | `path.basename(p, ext)` is empty when `ext` is the whole path; otherwise it is the basename, or the basename less a trailing `ext`, and is empty only when the basename is |
| NodePath.LastIndexOf | src/tasks/MapCreatorTask.js:234 | a found index holds the character |
| NodePath.LastIndexOfIsLast | src/tasks/MapCreatorTask.js:234 | the found index is the last occurrence, and nothing is found only when the character is absent |
| NodePath.ExtName | ImageJExtension.js:373 | `path.extname` is empty or starts with a dot |
| NodePath.ExtNameSuffix | src/tasks/CropTask.js:52 | the extension is a proper suffix of the basename |
| NodePath.StemThenExtension | src/tasks/CropTask.js:52 | `path.basename(p, path.extname(p))` followed by the extension is the basename |
| NodePath.BasenameAfterSep | src/tasks/MapCreatorTask.js:81 | the basename of `dir/name` is `name` |
| NodePath.BasenameOfJoin | src/tasks/MapCreatorTask.js:81-83 | the basename of a joined path is its last segment |
| Progress.HasRatio | src/tasks/MapCreatorTask.js:64-65 | the regular expression test holds exactly when a digit, `/`, digit occurs somewhere |
| Progress.ToNumber | src/tasks/MapCreatorTask.js:67 | `Number(piece)` is a number exactly when the trimmed piece is all digits (empty included) |
| Progress.Percent | src/tasks/MapCreatorTask.js:67 | `a * 100 / b` is finite exactly for numbers with a positive divisor, infinite for a positive numerator over zero, and then `p * b == 100 * a` |
| Progress.FirstOverLast | src/tasks/MapCreatorTask.js:63-69 | the map creator reports progress exactly when the chunk holds a ratio |
| Progress.FirstOverSecond | src/tasks/ObjectDetectionTask.js:60-66 | the other tasks report progress exactly when the chunk holds a ratio |
| Progress.NumberOfRendering | src/tasks/ObjectDetectionTask.js:64 | a rendered number followed by whitespace converts back to the number |
| Progress.PercentAtMostHundred | src/tasks/MapCreatorTask.js:67 | the percentage is non-negative and at most 100 exactly when the done count is at most the total |
| Progress.UpdateOfTwoPieces | src/tasks/CropTask.js:57-61 | a chunk with one `/` reports head over tail under both formulas |
| Progress.RatioLineNumbers | src/tasks/CropTask.js:57-61 | a line `a/b` followed by whitespace reports `Percent(a, b)` under both formulas |
| Progress.RatioLine | src/tasks/HolesDetectionTask.js:58-64 | a line `a/b` with `b > 0` reports `100a/b`, which is at most 100 exactly when `a <= b` (no clamp) |
| Progress.NaNPiece | src/tasks/ObjectDetectionTask.js:64 | a piece that starts with neither a digit nor whitespace converts to NaN |
| Progress.LabelledRatio | src/tasks/ObjectDetectionTask.js:60-66 | a labelled line `caption a/b` passes the test but reports NaN, since its first piece is not a number |
| Progress.SingleSlashFormulasAgree | src/tasks/MapCreatorTask.js:66-67 | with exactly one `/`, the last piece and the second piece coincide, so both formulas agree |
| TaskBase.ExitOutcome | src/tasks/MapCreatorTask.js:78-92 | exit code 0 succeeds, 1 fails, and anything else (a signal's `null` included) cancels |
| TaskBase.OrPlaceholder | src/tasks/MapCreatorTask.js:146-152 | `value \|\| "[]"` is never empty, keeps a non-empty value and turns an empty one into `[]` |
| TaskBase.OrZero | src/tasks/CropTask.js:122-123 | `value \|\| 0` is never empty, keeps a non-empty value and renders an empty one as `0` |
| TaskBase.ProgressCallCount | src/tasks/MapCreatorTask.js:63-69 | a chunk leads to one progress update when it holds a ratio and none otherwise |
| TaskBase.FolderFilePrefix | src/tasks/ObjectDetectionTask.js:78 | `<dir>/<sub>/<name>` lies in `<dir>/<sub>/` |
| TaskBase.FolderFileLocation | src/tasks/HolesDetectionTask.js:76 | the file lies in `<dir>/<sub>/` and its basename is `name` |
| ImageJUtil.LeadingDigits | src/ImageJUtil.js:66-69 | `/[0-9]+/` on a tag takes the longest run of digits after the letter |
| ImageJUtil.FindTag | src/ImageJUtil.js:57-61 | a found tag starts at or after the start with `_<axis><digit>`, and its digits are all digits |
| ImageJUtil.FindTagLeftmost | src/ImageJUtil.js:57-61 | the tag found is the leftmost and carries all the digits that follow it; when none is found there is none |
| ImageJUtil.Tiles | src/ImageJUtil.js:56-64 | every tile is an entry of the listing that is a regular file with both tags, and every such entry is a tile |
| ImageJUtil.TilesAppend | src/ImageJUtil.js:53-64 | the tiles of two listings one after the other are the tiles of the first followed by those of the second (listing order is kept) |
| ImageJUtil.TilesSingle | src/ImageJUtil.js:56-64 | one entry is kept exactly when it is a regular file with both tags |
| ImageJUtil.Coordinates | src/ImageJUtil.js:66-71 | one coordinate per tile, each the number of the tile's first tag |
| ImageJUtil.ScanTemplate | src/ImageJUtil.js:73-78 | the representative image has both tags, and the template is built from it |
| ImageJUtil.CoordinatesSnoc | src/ImageJUtil.js:70-71 | a new tile appends its coordinate to the list |
| ImageJUtil.ScanCoordinates | src/ImageJUtil.js:66-71 | the pushed values are the coordinates of every tile, in listing order |
| ImageJUtil.ScanFirstTile | src/ImageJUtil.js:72 | the representative image is the first tile |
| ImageJUtil.Template | src/ImageJUtil.js:73-78 | the split-and-join template; what it yields for a tile name is stated by `ImageJUtil.TemplateOfTileName` |
| ImageJUtil.Scan | src/ImageJUtil.js:53-87 | the `forEach` scan as a fold over the listing; its meaning is stated by `ImageJUtil.ScanMeaning` |
| ImageJUtil.ScanMeaning | src/ImageJUtil.js:53-87 | the scan yields the tiles' coordinates, the first tile and that tile's template |
| ImageJUtil.ScanFolder | src/ImageJUtil.js:53-87 | the `forEach` loop computes the coordinates of every tile, the first tile and its template |
| ImageJUtil.Min | src/ImageJUtil.js:90 | `Math.min` is an element no greater than any other |
| ImageJUtil.Max | src/ImageJUtil.js:91 | `Math.max` is an element no smaller than any other |
| ImageJUtil.TileCount | src/ImageJUtil.js:94-95 | `max - min + 1` is at least one and exceeds every coordinate's offset from the minimum |
| ImageJUtil.Span | src/ImageJUtil.js:99 | at least one tile spans at least one tile's side |
| ImageJUtil.SpanIsProduct | src/ImageJUtil.js:99 | the span of `count` tiles is `count * side` |
| ImageJUtil.SpanMonotonic | src/ImageJUtil.js:99 | more tiles span at least as many pixels |
| ImageJUtil.MosaicSizes | src/ImageJUtil.js:98-100 | the tile size is the larger side, and the size is the larger of the two mosaic sides, so it is at least the tile size |
| ImageJUtil.LayerDimensions | src/ImageJUtil.js:45-120 | resolved sizes have `tileSize <= size`; an unknown mode never resolves; image-list mode is `[256, 256]`; only folder mode yields a template |
| ImageJUtil.Descriptor | src/ImageJUtil.js:130-167 | `points` builds a points layer, `pixels` a pixels layer, and anything else neither |
| ImageJUtil.FolderDimensions | src/ImageJUtil.js:46-106 | the folder branch computed with the scanning loop equals the specification |
| ImageJUtil.JsonConfiguration | src/ImageJUtil.js:42-171 | the configuration `next` receives, or none when it is never called; stated mode by mode by `ImageJUtil.ConfigurationByMode` and, for a folder, by `ImageJUtil.FolderConfiguration` |
| ImageJUtil.CreateJsonConfiguration | src/ImageJUtil.js:42-171 | the configuration passed to `next` (none when `next` is never called) equals the specification |
| ImageJUtil.LeadingDigitsOf | src/ImageJUtil.js:66-69 | digits followed by a non-digit are exactly the digit run |
| ImageJUtil.NoPatternAt | src/ImageJUtil.js:74-77 | an `_<c>...` pattern cannot start inside a prefix where no `_` precedes `c` |
| ImageJUtil.AbsentPattern | src/ImageJUtil.js:74-77 | such a pattern is absent, and `split(...)[0]` is the whole text |
| ImageJUtil.UnderscoresNotBeforeConcat | src/ImageJUtil.js:74-77 | two texts in which no `_` is followed by a letter make a text in which none is |
| ImageJUtil.MarkNotBefore | src/ImageJUtil.js:74-77 | in a tag text `_<axis><digits>` the `_` is followed by its own axis letter only |
| ImageJUtil.TagTextBetween | src/ImageJUtil.js:74-77 | a tag text of one axis between two such texts leaves no `_` before the other axis letter |
| ImageJUtil.NoUnderscoreNoTagStart | src/ImageJUtil.js:74-77 | no tag can start in a text without `_` |
| ImageJUtil.FirstPattern | src/ImageJUtil.js:74-77 | the pattern is first found right after such a prefix, and `split(...)[0]` is that prefix |
| ImageJUtil.SplitAfter | src/ImageJUtil.js:74-77 | `split(...)[0]` and `[1]` are the text before and after the pattern |
| ImageJUtil.TagFoundAt | src/ImageJUtil.js:57-61 | a tag with none before it is the one found, with its digit run |
| ImageJUtil.NoTagBefore | src/ImageJUtil.js:57-61 | no tag starts in a prefix where no `_` precedes the axis letter |
| ImageJUtil.TagFirst | src/ImageJUtil.js:57-69 | in `p_<axis><m>rest`, the tag found is at `\|p\|` with digits `m` |
| ImageJUtil.TileNameXTag | src/ImageJUtil.js:57-69 | a tile name `a_X<m>b_Y<n>c` yields X coordinate `m` |
| ImageJUtil.TileNameYTag | src/ImageJUtil.js:57-69 | the same name yields Y coordinate `n` |
| ImageJUtil.TileNameTags | src/ImageJUtil.js:57-69 | both tags of a tile name are found, with their numbers |
| ImageJUtil.TemplateFirstHalf | src/ImageJUtil.js:74-75 | replacing the X tag gives `a_X{x}b_Y<n>c` |
| ImageJUtil.TemplateSecondHalf | src/ImageJUtil.js:76-77 | replacing the Y tag gives `a_X{x}b_Y{y}c` |
| ImageJUtil.TemplateOfTileName | src/ImageJUtil.js:73-78 | for a name `a_X<m>b_Y<n>c` the template is `a_X{x}b_Y{y}c`, whenever no `_` in `a`, `b` or `c` is followed by `X` or `Y` or ends the piece (`a` may hold other underscores, as in `scan_01`) |
| ImageJUtil.UnderscoredTileName | src/ImageJUtil.js:73-78 | a name with an underscore of its own before the tags, such as `scan_01_X3_Y4.tif`, keeps it: `scan_01_X{x}_Y{y}.tif` |
| ImageJUtil.MosaicCovers | src/ImageJUtil.js:94-100 | every column and row of the mosaic ends within its size |
| ImageJUtil.CoordinatesWithinMosaic | src/ImageJUtil.js:90-100 | every tile found in the folder ends within the computed size |
| ImageJUtil.FolderSizes | src/ImageJUtil.js:89-100 | resolved folder sizes come from the first tile's dimensions and the two tile counts |
| ImageJUtil.FolderConfiguration | src/ImageJUtil.js:73-128 | a resolved folder layer carries the first tile's template, and `next` receives the descriptor named after that template with the resolved sizes |
| ImageJUtil.ConfigurationByMode | src/ImageJUtil.js:45-128 | no configuration for an unknown mode, a failed listing, an entry whose `stat` fails or a folder without tiles; image list `[256, 256]`; a single image its larger side, absent exactly when the probe fails |
| ImageJUtil.SpacelessFileName | src/ImageJUtil.js:138 | the URL keeps the prefix and suffix, has no space, and keeps every non-space character of the name in place |
| ImageJUtil.LayerUrls | src/ImageJUtil.js:133-166 | a points layer is `centroid_<name>` with url `points_<name>.csv`; a pixels layer is `holes_<name>`, role `holes`, with `holes_<name>.txt`; spaces become `_` and the sizes are passed on |
| Extension.MacroPath | ImageJExtension.js:329 | the macro file `Atlas<sep><macro>.ijm`; stated by `Extension.MacroPathInAtlas` |
| Extension.MacroPathInAtlas | ImageJExtension.js:329 | the macro path joins `Atlas` and `<macro>.ijm`, and its basename is `<macro>.ijm` |
| Extension.FlagRoundTrip | ImageJExtension.js:329 | the number in a `-Xmx<n>m` flag reads back as `n` |
| Extension.ClampEntry | ImageJExtension.js:456-459 | `parseInt(Math.min(value, max))` never exceeds `max`, equals it for larger values, and truncates the rest toward zero, a negative entry to `-floor(-value)` (no lower clamp) |
| Extension.ImageJExtension.constructor | ImageJExtension.js:143-148 | both limits start at their ceilings, and the stack ceiling is 515 |
| Extension.ImageJExtension.Run | ImageJExtension.js:328-331 | the command is `java` with seven arguments, the macro file `Atlas/<macro>.ijm` and the argument string last, run from the ImageJ directory |
| Extension.ImageJExtension.RunFlags | ImageJExtension.js:329 | the JVM flags read back as the current limits, followed by `-jar ij.jar -batchpath` |
| Extension.ConfigDialog.constructor | ImageJExtension.js:433-436 | the dialog edits a copy of the current limits |
| Extension.ConfigDialog.BlurMemory | ImageJExtension.js:456-459 | the pending memory becomes the clamped entry and stays within the ceiling |
| Extension.ConfigDialog.BlurStackMemory | ImageJExtension.js:471-474 | the pending stack memory becomes the clamped entry and stays within 515 |
| Extension.ConfigDialog.Save | ImageJExtension.js:485-492 | the extension takes both pending values, and they are within their ceilings |
| Extension.ConfigDialog.Cancel | ImageJExtension.js:477-484 | the extension keeps its limits |
| ExtensionActions.CreateMapTitle | ImageJExtension.js:335-338 | the title starts `Choose image` and is longer exactly in folder mode |
| ExtensionActions.MapDetails | ImageJExtension.js:345-350 | the `createMap` label; its shape is stated by `ExtensionActions.MapDetailsShape` |
| ExtensionActions.MapDetailsShape | ImageJExtension.js:345-350 | the label starts `Map: ` exactly for a map and ends with the file's basename |
| ExtensionActions.DialogProperties | ImageJExtension.js:359-362 | the open dialog's properties; their agreement with the label is stated by `ExtensionActions.DialogMatchesDetails` |
| ExtensionActions.DetectionDetails | ImageJExtension.js:370-377 | the detection label; its values are stated by `ExtensionActions.DetectionDetailsNeverFile` and `ExtensionActions.DialogMatchesDetails` |
| ExtensionActions.DetectionDetailsNeverFile | ImageJExtension.js:370-377 | outside folder mode the label is always `Image: <basename>`, since `extname` never equals `"txt"` |
| ExtensionActions.DialogMatchesDetails | ImageJExtension.js:359-377 | the dialog asks for a directory exactly when the label says `Folder: ` |
| ExtensionActions.CropDetails | ImageJExtension.js:422 | the crop label; its value is stated by `ExtensionActions.CropDetailsAsDetection` |
| ExtensionActions.CropDetailsAsDetection | ImageJExtension.js:422 | the crop label is the one a detection task on a single image gets, `Image: <basename>` |
| ExtensionActions.CreateMap | ImageJExtension.js:340-355 | a dismissed dialog creates nothing; otherwise a fresh map task, labelled after the first path, is started on it |
| ExtensionActions.ObjectDetectionAction | ImageJExtension.js:363-383 | likewise for an object detection task in the chosen mode |
| ExtensionActions.HolesDetectionAction | ImageJExtension.js:391-411 | likewise for a holes detection task, whose base task is not yet started |
| ExtensionActions.CropImage | ImageJExtension.js:415-429 | likewise for a crop task run without a callback |
| MapCreator.ParamsOf | src/tasks/MapCreatorTask.js:142-161 | parameters exist exactly when an output folder was chosen; every empty text becomes `"[]"` (the map name after sanitizing) and the rest is kept |
| MapCreator.FlagsDistinct | src/tasks/MapCreatorTask.js:56-60 | the `use `/`create ` words determine both flags |
| MapCreator.OptionsHashFree | src/tasks/MapCreatorTask.js:60 | the option string holds no `#` unless an input does |
| MapCreator.Args | src/tasks/MapCreatorTask.js:55-60 | the `#`-joined argument string; its round trip is stated by `MapCreator.ArgsFields` |
| MapCreator.ArgsFields | src/tasks/MapCreatorTask.js:60 | the argument string splits on `#` into exactly its seven fields |
| MapCreator.JsonPathLocation | src/tasks/MapCreatorTask.js:80-84 | the description lies in the output folder, named `<map>.json` for a map and `<map>_tiles.json` for a layer |
| MapCreator.CloseNotificationsDistinct | src/tasks/MapCreatorTask.js:77-93 | the three outcomes give different notifications |
| MapCreator.StripExtension | src/tasks/MapCreatorTask.js:234 | `replace(/\.[^/.]+$/, '')` removes exactly a final extension, and leaves the text alone when there is none |
| MapCreator.InitialMapName | src/tasks/MapCreatorTask.js:234 | the name field's initial value; stated for a file path by `MapCreator.InitialMapNameOfFile` |
| MapCreator.InitialMapNameOfFile | src/tasks/MapCreatorTask.js:234 | for an image `dir/stem.ext` the name field starts with the sanitized `stem`, dots inside `stem` kept |
| MapCreator.MapCreatorTask.constructor | src/tasks/MapCreatorTask.js:41-51 | no child process, description file or caption yet |
| MapCreator.MapCreatorTask.Run | src/tasks/MapCreatorTask.js:53-55 | the base task starts and the modal shows, capturing the path |
| MapCreator.MapCreatorTask.Submit | src/tasks/MapCreatorTask.js:142-161 | without a folder, an error box and no change; otherwise the macro is spawned on the parameters and the modal is destroyed |
| MapCreator.MapCreatorTask.Cancel | src/tasks/MapCreatorTask.js:122-130 | returns the base verdict and kills the child only when the verdict is yes and a child exists |
| MapCreator.MapCreatorTask.CancelButton | src/tasks/MapCreatorTask.js:306-309 | the task is cancelled, nothing is killed or spawned, and the modal closes |
| MapCreator.MapCreatorTask.OnData | src/tasks/MapCreatorTask.js:63-69 | a chunk adds the first-over-last progress update when it holds a ratio |
| MapCreator.MapCreatorTask.Success | src/tasks/MapCreatorTask.js:107-120 | the caption is `Load map to workspace` for a map, otherwise `Add layer to a map in workspace`, then the base succeeds |
| MapCreator.MapCreatorTask.OnClose | src/tasks/MapCreatorTask.js:76-95 | the child closes once: the exit outcome is recorded; code 0 records the description path and succeeds, code 1 fails with the JVM message, anything else cancels; each notifies; a description path exists only after a successful exit |
| MapCreator.MapCreatorTask.OnError | src/tasks/MapCreatorTask.js:97-100 | the task fails with the error and notifies |
| ObjectDetection.ParamsOf | src/tasks/ObjectDetectionTask.js:143-162 | parameters exist exactly when a folder was chosen; empty numbers become `"[]"`; the threshold method is kept |
| ObjectDetection.Args | src/tasks/ObjectDetectionTask.js:55 | the `#`-joined argument string; its round trip is stated by `ObjectDetection.ArgsFields` |
| ObjectDetection.ArgsFields | src/tasks/ObjectDetectionTask.js:55 | the argument string splits into exactly its eleven fields, the first reading back as the mode |
| ObjectDetection.DetectionLayer | src/tasks/ObjectDetectionTask.js:77 | the description built is a points layer named `centroid_...` |
| ObjectDetection.JsonPathLocation | src/tasks/ObjectDetectionTask.js:78 | the description is written to `<output>/points/<name>.json` |
| ObjectDetection.CloseNotificationsDistinct | src/tasks/ObjectDetectionTask.js:83-95 | the three outcomes give different notifications |
| ObjectDetection.ObjectDetectionTask.constructor | src/tasks/ObjectDetectionTask.js:42-50 | no child process, description file or caption yet |
| ObjectDetection.ObjectDetectionTask.Run | src/tasks/ObjectDetectionTask.js:52-54 | the base task starts and the modal shows |
| ObjectDetection.ObjectDetectionTask.Submit | src/tasks/ObjectDetectionTask.js:143-162 | without a folder, an error box and no change; otherwise the macro is spawned and the modal is destroyed |
| ObjectDetection.ObjectDetectionTask.Cancel | src/tasks/ObjectDetectionTask.js:125-133 | returns the base verdict and kills only on yes with a child |
| ObjectDetection.ObjectDetectionTask.CancelButton | src/tasks/ObjectDetectionTask.js:274-277 | cancels, closes the modal, spawns nothing |
| ObjectDetection.ObjectDetectionTask.OnData | src/tasks/ObjectDetectionTask.js:60-67 | a chunk adds the first-over-second update when it holds a ratio |
| ObjectDetection.ObjectDetectionTask.Success | src/tasks/ObjectDetectionTask.js:117-123 | the caption is `Add layer to a map in workspace`, then the base succeeds |
| ObjectDetection.ObjectDetectionTask.OnClose | src/tasks/ObjectDetectionTask.js:73-105 | the child closes once: the exit outcome is recorded; code 0 succeeds at once and defers the notification to the write; code 1 fails; anything else cancels; both notify |
| ObjectDetection.ObjectDetectionTask.OnConfiguration | src/tasks/ObjectDetectionTask.js:76-89 | only after exit code 0: the description is the builder's; a completed write records its path and notifies completion, a failed one notifies the error, and none is built when `next` never runs |
| ObjectDetection.ObjectDetectionTask.OnWritten | src/tasks/ObjectDetectionTask.js:79-87 | only after exit code 0, and only a completed write sets the description path, `<output>/points/<name>.json` |
| ObjectDetection.ObjectDetectionTask.OnError | src/tasks/ObjectDetectionTask.js:107-110 | the task fails with the error and notifies |
| HolesDetection.ParamsOf | src/tasks/HolesDetectionTask.js:137-148 | parameters exist exactly when a folder was chosen; an empty radius or threshold becomes `"[]"` |
| HolesDetection.Args | src/tasks/HolesDetectionTask.js:53 | the `#`-joined argument string; its round trip is stated by `HolesDetection.ArgsFields` |
| HolesDetection.ArgsFields | src/tasks/HolesDetectionTask.js:53 | the argument string splits into exactly its five fields, the first reading back as the mode |
| HolesDetection.DetectionLayer | src/tasks/HolesDetectionTask.js:75 | the description built is a pixels layer of role `holes` named `holes_...` |
| HolesDetection.JsonPathLocation | src/tasks/HolesDetectionTask.js:76 | the description is written to `<output>/holes_pixels/<name>.json` |
| HolesDetection.HolesDetectionTask.constructor | src/tasks/HolesDetectionTask.js:41-49 | no child process, description file or caption yet |
| HolesDetection.HolesDetectionTask.Run | src/tasks/HolesDetectionTask.js:51-52 | the modal shows; the base task is not started |
| HolesDetection.HolesDetectionTask.Submit | src/tasks/HolesDetectionTask.js:137-148 | without a folder, an error box and no change; otherwise the macro is spawned, the modal closes and only then the base task starts |
| HolesDetection.HolesDetectionTask.Cancel | src/tasks/HolesDetectionTask.js:119-127 | returns the base verdict and kills only on yes with a child |
| HolesDetection.HolesDetectionTask.CancelButton | src/tasks/HolesDetectionTask.js:180-183 | a dismissed modal never starts the base task |
| HolesDetection.HolesDetectionTask.OnData | src/tasks/HolesDetectionTask.js:58-65 | a chunk adds the first-over-second update when it holds a ratio |
| HolesDetection.HolesDetectionTask.OnStderr | src/tasks/HolesDetectionTask.js:67-69 | stderr output is reported to the base task as an error |
| HolesDetection.HolesDetectionTask.Success | src/tasks/HolesDetectionTask.js:111-117 | the caption is `Add layer to a map in workspace`, then the base succeeds |
| HolesDetection.HolesDetectionTask.OnClose | src/tasks/HolesDetectionTask.js:71-100 | the child closes once: the exit outcome is recorded; code 0 succeeds, 1 fails with the JVM message, anything else cancels |
| HolesDetection.HolesDetectionTask.OnConfiguration | src/tasks/HolesDetectionTask.js:74-87 | only after exit code 0: the description path is recorded exactly when one is built and written |
| HolesDetection.HolesDetectionTask.OnWritten | src/tasks/HolesDetectionTask.js:77-85 | only after exit code 0, and only a completed write sets the description path, `<output>/holes_pixels/<name>.json` |
| HolesDetection.HolesDetectionTask.OnError | src/tasks/HolesDetectionTask.js:102-104 | the task fails with the error |
| Crop.ParamsOf | src/tasks/CropTask.js:115-131 | parameters exist exactly when a folder was chosen; empty tile size, height and width become `"[]"`, an empty origin `0` |
| Crop.ImageName | src/tasks/CropTask.js:52 | `path.basename(runPath, path.extname(runPath))`; stated by `Crop.ImageNameParts` |
| Crop.ImageNameParts | src/tasks/CropTask.js:52 | the image name followed by the extension is the basename, and brings in no `#` |
| Crop.Args | src/tasks/CropTask.js:52 | the `#`-joined argument string; its round trip is stated by `Crop.ArgsFields` |
| Crop.ArgsFields | src/tasks/CropTask.js:52 | the argument string splits into exactly its eight fields, the second being the basename without its extension |
| Crop.CropTask.constructor | src/tasks/CropTask.js:41-47 | no child process yet |
| Crop.CropTask.Run | src/tasks/CropTask.js:49-51 | the base task starts and the modal shows, remembering whether a callback was given |
| Crop.CropTask.Launch | src/tasks/CropTask.js:51-94 | the run callback spawns the macro on the parameters and destroys the modal |
| Crop.CropTask.Submit | src/tasks/CropTask.js:115-131 | without a folder, an error box and no change; otherwise the macro is spawned and the modal is destroyed |
| Crop.CropTask.Cancel | src/tasks/CropTask.js:97-105 | returns the base verdict and kills only on yes with a child |
| Crop.CropTask.CancelButton | src/tasks/CropTask.js:200-204 | cancels, closes the modal, spawns nothing |
| Crop.CropTask.OnData | src/tasks/CropTask.js:55-63 | a chunk adds the first-over-second update when it holds a ratio |
| Crop.CropTask.OnClose | src/tasks/CropTask.js:69-87 | the child closes once: the exit outcome is recorded; code 0 succeeds, 1 fails; only a cancellation reaches the callback, with the cancelled notification |
| Crop.CropTask.OnError | src/tasks/CropTask.js:89-91 | the task fails with the error |

## Left out

- The user interface is not modelled: modals, form widgets, menus (ImageJExtension.js:53-142, 162-299), `activate`/`deactivate`/`show`, `launchImageJ`, `calcNumSlices`, and the map selector of src/tasks/TaskUtils.js, whose map list is hard-coded empty. Only the values the forms produce are modelled (`Form` records).
- The `customAction.onclick` handlers are not modelled, only the caption; they open the UI map selector or are commented out.
- The electrongui base `Task` is not visible. The model records the calls made into it and takes its `cancel()` verdict as a parameter.
- `TaskManager.addTask` is not modelled, since it belongs to the base application.
- Process spawning is reduced to the `Spawn` request: command, arguments and working directory. Stdout, stderr and exit events become method calls.
- File-system reads and image decoding are inputs:
  - `fs.readdir` and `fs.stat` are the listing of entries, each with its name and its `stat` outcome (a regular file or not, or an error), and `None` for a failed `readdir`;
  - `image-size` and the Tiff decoder are the `probe` function;
  - `ImageJUtil.Image.getTotalSlices` (which only feeds the UI) is not modelled, and neither is src/lib/Tiff.js.
- `fs.writeFile` is an input: its error, if any, is a parameter.
- `os.userInfo().username` is the `author` parameter. `os.totalmem()` is replaced by the given `maxMemory`.
- `sanitize-filename` is a function parameter, since it is a foreign library.
- Notifications:
  - `util.notifyOS` messages are recorded for the tasks that send them;
  - `console.log` of stderr is not modelled;
  - the holes and crop tasks' unused promise results are not modelled, except the crop callback.
- Asynchrony is sequential in the model:
  - the folder scan takes entries in listing order, so the representative image and template come from the first tile, whereas the code takes whichever `stat` callback finishes first;
  - the description write of the detection tasks is a separate method (`OnConfiguration`) that runs after `OnClose`.
- The modal's `oncancel` callback (closing the window) is modelled by the same `CancelButton` methods, which also record the modal as destroyed.
- `NodePath.Join`: `path.join` is plain concatenation with `/`. The `..`/`.` segments and duplicate separators that Node normalizes away are not modelled.
- `Progress.ToNumber`: `Number()` is modelled for decimal digit strings with surrounding whitespace (and empty text as 0). Every other text is NaN, including decimals, signs, hexadecimal and exponents, which JavaScript would read as numbers. Only ASCII whitespace is trimmed. The non-ASCII whitespace that `Number()` also trims (no-break space, U+FEFF, U+2028/2029 and the other Unicode space separators) is not modelled.
- `Progress.Percent`: doubles are modelled as exact reals; rounding is not modelled.
- `Extension.ClampEntry`: the input is a real number. A non-numeric entry, which JavaScript turns into NaN, is not modelled. `parseInt` reads the number's string form, and the model reads its value. The two differ where JavaScript writes the number in exponent form. A magnitude below 10^-6 other than 0 reads as its first significant digit with its sign (`5e-7` gives 5, `-5e-7` gives -5). A value of -10^21 or less reads the same way (-1 for -10^21), and so would a `max` of 10^21 or more. The contract holds only outside these ranges.
- `Crop.CropTask.Valid`: the invariant does not say that the child process runs the macro on the current parameters. That relation is stated by `Submit` and `Launch` at the moment of spawning, since no later method changes either.
- `Crop.CropTask.Launch` takes the path captured by the `run` closure as a parameter, which `Submit` passes from the `runPath` field.
- The four menu actions are module-level methods that take the extension as a parameter, not methods of the extension class.
- The menu entry for holes detection on a single image calls the misspelled `holestDetection` (ImageJExtension.js:117), a method that does not exist. That entry is not modelled.
- `util.Layers.Mode` in ImageJExtension.js is taken to equal `ImageJUtil.LayersMode` (0, 1, 2).
