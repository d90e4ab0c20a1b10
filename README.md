# YOLO annotation visualizer — a Dafny model

`YOLO-Annotation-Visualizer.py` draws YOLO-format bounding boxes onto images.
For each image in a directory whose name ends in `.jpg`, `.jpeg` or `.png`, the
function `draw_boxes` does five things in order:

- reads the class names from a YAML manifest;
- decodes the image;
- finds the label file `<labels_dir>/<stem>.txt`;
- converts every label line `class cx cy w h` into a clamped pixel rectangle,
  under the name of its class;
- writes the annotated image under its own name into the output directory.

Each line of a label file is treated as follows:

- The line is stripped and split on whitespace.
- Exactly five fields must convert to numbers. Otherwise the line is a
  `ValueError` and is skipped.
- The class field, truncated toward zero, must lie in `[0, number of classes)`.
  Otherwise the line is skipped.
- The corners are `trunc((c - s/2) * extent)` and `trunc((c + s/2) * extent)`.
- The clamp works one side per corner: `x1`/`y1` are raised to 0, and
  `x2`/`y2` are lowered to the width/height.
- The rectangle is drawn with thickness 2. The class name is drawn at
  `(x1, y1 - 10)` in Hershey Simplex, scale 0.5, thickness 2, in the same
  random colour.

The model is split into modules that follow the script's structure:

| module | file | what it holds |
|---|---|---|
| `Tokenize` | `tokenize.dfy` | `str.strip()` and `str.split()` over Python's whitespace set |
| `LabelBox` | `labelbox.dfy` | a single label line: parsing, class check, truncation, clamping; the imperative `ConvertLine` |
| `Drawing` | `drawing.dfy` | the image buffer as a class with a log of drawing calls; the label loop `DrawLabels` |
| `Paths` | `paths.dfy` | `basename`, `splitext`, `join` (POSIX rules), the label and output paths, the extension filter |
| `Annotator` | `annotator.dfy` | one call of `draw_boxes`, with its error exits, as a function and as a method |
| `Driver` | `driver.dfy` | the `__main__` loop over the directory listing |

The comment above the clamp says it keeps the coordinates inside the
image, but each corner is clamped on one side only: `x1` and `y1` from
below, `x2` and `y2` from above. The model follows the code, so the clamp
does not guarantee `0 <= x1 <= x2 <= width`:

- `LabelBox.NegativeWidthInvertsBox` exhibits a negative width, which gives
  `x1 > x2`.
- `LabelBox.CentreBeyondEdgeExceedsWidth` exhibits a centre beyond the edge,
  which puts `x1` past the width.
- `LabelBox.NormalisedBoxIsOrdered` proves the ordering only for normalised
  input: centres in `[0, 1]` and non-negative sizes.

The label values are not validated anywhere else, so the model keeps the
one-sided clamp as written.

The inputs the script gets from the outside world are parameters of the model:

- `parse`: the conversion of one token by `float()`, returning `None` for a
  `ValueError`;
- `draws`: the stream of random colours;
- `Files`: the manifest's class list, the decodable images with their sizes,
  and the label files with their lines.

## Model

| member | source | states |
|---|---|---|
| `Tokenize.IsSpace` | YOLO-Annotation-Visualizer.py:48 | no contract of its own: the character set of `str.isspace()` (tab to carriage return, the four separators 28-31, space, and the Unicode spaces), which `strip()` and `split()` both use; `Word`, `AllSpace` and the `Split` lemmas are stated over it |
| `Tokenize.TrimStart` | YOLO-Annotation-Visualizer.py:48 | the result is a suffix of the input; only whitespace was removed; no whitespace is left at its front |
| `Tokenize.TrimEnd` | YOLO-Annotation-Visualizer.py:48 | the result is a prefix of the input; only whitespace was removed; no whitespace is left at its end |
| `Tokenize.Strip` | YOLO-Annotation-Visualizer.py:48 | no contract of its own: `rstrip()` after `lstrip()`, so the two contracts above give what it removes; `SplitIgnoresStrip` proves it changes no field of the split |
| `Tokenize.Split` | YOLO-Annotation-Visualizer.py:48 | every token is a non-empty run of non-whitespace characters |
| `Tokenize.SplitIgnoresStrip` | YOLO-Annotation-Visualizer.py:48 | splitting a stripped line gives the same fields as splitting the raw line, so the `strip()` before `split()` changes nothing |
| `Tokenize.SplitJoinSpace` | YOLO-Annotation-Visualizer.py:48 | splitting words joined by single spaces gives back exactly those words (round trip) |
| `Tokenize.SplitKeepsAllNonSpace` | YOLO-Annotation-Visualizer.py:48 | the tokens, concatenated, are exactly the line's non-whitespace characters in order: split drops whitespace only |
| `Tokenize.SplitSkipsLeading` | YOLO-Annotation-Visualizer.py:48 | leading whitespace changes no field |
| `Tokenize.SplitSkipsTrailing` | YOLO-Annotation-Visualizer.py:48 | trailing whitespace, such as the newline `readlines` keeps, changes no field |
| `Tokenize.SplitFiveFields` | YOLO-Annotation-Visualizer.py:48 | a line of five space-separated words with any whitespace ending splits into those five words |
| `LabelBox.TruncToward0` | YOLO-Annotation-Visualizer.py:51 | `int()` of a float: the result satisfies `TruncatesTo`, lying between zero and the value (inclusive) and less than one away from the value, for both signs |
| `LabelBox.TruncMonotone` | YOLO-Annotation-Visualizer.py:56-59 | truncation preserves order |
| `LabelBox.TruncOfInt` | YOLO-Annotation-Visualizer.py:56-59 | an integral value truncates to itself |
| `LabelBox.ParseNumbers` | YOLO-Annotation-Visualizer.py:48 | `map(float, ...)` succeeds exactly when every token converts; the values are the conversions, in order |
| `LabelBox.ParseLine` | YOLO-Annotation-Visualizer.py:48 | a record exists exactly when the line has five fields and each converts; its fields are the five conversions in order |
| `LabelBox.ValidClass` | YOLO-Annotation-Visualizer.py:51-53 | `0 <= int(class_id) < n` holds exactly when `n > 0` and `-1 < class_id < n` |
| `LabelBox.FractionalClassIds` | YOLO-Annotation-Visualizer.py:51-53 | `1.7` is class 1 and `-0.5` is class 0, both accepted; `-1.0` with one class and `2.0` with two classes are rejected |
| `LabelBox.LowEdge` | YOLO-Annotation-Visualizer.py:56-57 | no contract of its own: `int((center - size / 2) * extent)` through `TruncToward0`, whose contract says how the pixel relates to the exact value; `OrderedAxis` and `LowEdgeAtMost` bound it |
| `LabelBox.HighEdge` | YOLO-Annotation-Visualizer.py:58-59 | no contract of its own: `int((center + size / 2) * extent)` through `TruncToward0`; `OrderedAxis` and `HighEdgeAtLeast` bound it |
| `LabelBox.RawCorners` | YOLO-Annotation-Visualizer.py:56-59 | no contract of its own: `x1`, `x2` from the x-centre and the box width against the image width, `y1`, `y2` from the y-centre and the box height against the height; `NormalisedBoxIsOrdered` and the two counterexample lemmas state what it gives |
| `LabelBox.Clamp` | YOLO-Annotation-Visualizer.py:62-65 | the clamped corners are in bounds; `x1`/`y1` are raised to 0 and `x2`/`y2` lowered to width/height, and nothing else changes |
| `LabelBox.ClampKeepsInRange` | YOLO-Annotation-Visualizer.py:62-65 | corners already in bounds are left alone; clamping twice is clamping once |
| `LabelBox.LineToBox` | YOLO-Annotation-Visualizer.py:48-65 | a box exists exactly when the line parses and its class is valid; the box's class is the truncated class field, below the class count; its corners are the clamped raw corners, in bounds |
| `LabelBox.ConvertLine` | YOLO-Annotation-Visualizer.py:48-65 | the step-by-step conversion, with its two early exits and its four clamp reassignments, computes `LineToBox` |
| `LabelBox.Rejected` | YOLO-Annotation-Visualizer.py:51-53 | a line that fails to parse or has an invalid class yields no box |
| `LabelBox.AcceptedRecord` | YOLO-Annotation-Visualizer.py:56-65 | a parsed line with a valid class yields the box built from its clamped corners |
| `LabelBox.WrongFieldCountSkipped` | YOLO-Annotation-Visualizer.py:48 | a line without exactly five fields is skipped (for example a blank or a six-field line) |
| `LabelBox.NonNumericFieldSkipped` | YOLO-Annotation-Visualizer.py:78-80 | a line with any field `float()` rejects is skipped |
| `LabelBox.BlankLineSkipped` | YOLO-Annotation-Visualizer.py:78-80 | an all-whitespace line is skipped |
| `LabelBox.ScaledTrunc` | YOLO-Annotation-Visualizer.py:56-59 | scaling by a non-negative extent and then truncating preserves order |
| `LabelBox.ScaledAtMost` | YOLO-Annotation-Visualizer.py:56-59 | a coordinate at most 1 scales to at most the extent |
| `LabelBox.ScaledAtLeast` | YOLO-Annotation-Visualizer.py:56-59 | a non-negative coordinate scales to a non-negative pixel |
| `LabelBox.EdgesOrdered` | YOLO-Annotation-Visualizer.py:56-59 | with a non-negative size the low edge is at most the high edge |
| `LabelBox.OrderedAxis` | YOLO-Annotation-Visualizer.py:56-65 | for a centre in `[0,1]` and a non-negative size: low edge <= high edge, low edge <= extent, high edge >= 0 |
| `LabelBox.NormalisedBoxIsOrdered` | YOLO-Annotation-Visualizer.py:56-65 | for normalised input the clamped box satisfies `0 <= x1 <= x2 <= width` and `0 <= y1 <= y2 <= height` |
| `LabelBox.NegativeWidthInvertsBox` | YOLO-Annotation-Visualizer.py:56-65 | width `-0.2` at centre `0.5` on a 100-pixel image gives `x1 = 60 > x2 = 40` after the clamp |
| `LabelBox.CentreBeyondEdgeExceedsWidth` | YOLO-Annotation-Visualizer.py:62-65 | centre `2.0` gives `x1 = 190`, beyond the width 100, because `x1` is clamped from below only |
| `LabelBox.ParseFiveFields` | YOLO-Annotation-Visualizer.py:48 | five convertible words separated by spaces, with a whitespace ending, parse to the record of their five values |
| `LabelBox.ExampleParse` | YOLO-Annotation-Visualizer.py:48 | the line `0 0.5 0.5 0.2 0.2\n` parses to class 0, centre (0.5, 0.5), size (0.2, 0.2) |
| `LabelBox.ExampleLine` | YOLO-Annotation-Visualizer.py:48-65 | that line, with one class on a 100x100 image, gives class 0 with corners (40,40)-(60,60) |
| `Drawing.Image.constructor` | YOLO-Annotation-Visualizer.py:26-31 | a freshly decoded image has the given size and nothing drawn on it |
| `Drawing.Image.DrawRectangle` | YOLO-Annotation-Visualizer.py:71 | `cv2.rectangle` appends exactly one rectangle with the given corners, colour and thickness, and changes nothing else |
| `Drawing.Image.PutText` | YOLO-Annotation-Visualizer.py:76 | `cv2.putText` appends exactly one text with the given string, origin, font, scale, colour and thickness |
| `Drawing.AcceptedBoxes` | YOLO-Annotation-Visualizer.py:46-65 | the boxes of the accepted lines, in order: never more than the lines, and every class index names a manifest entry |
| `Drawing.BoxCommands` | YOLO-Annotation-Visualizer.py:71-76 | no contract of its own: the rectangle with thickness 2, then the class name at `(x1, y1 - 10)` in Hershey Simplex, scale 0.5, thickness 2, in one colour; `DrawBox` is proved to make exactly these calls and `CommandsAt` locates them |
| `Drawing.Commands` | YOLO-Annotation-Visualizer.py:71-76 | each box contributes exactly two drawing calls |
| `Drawing.Annotation` | YOLO-Annotation-Visualizer.py:46-80 | no contract of its own: the calls for the accepted boxes, box `k` in colour `k`; `DrawLabels` is proved to draw exactly it, and `AnnotationSize`, `CommandsAt`, `AnnotationTextsAreClassNames` and `SkippedLineDrawsNothing` state what it holds |
| `Drawing.DrawBox` | YOLO-Annotation-Visualizer.py:71-76 | one box draws its rectangle and then its class name at `(x1, y1 - 10)`, both in the same colour |
| `Drawing.DrawLabels` | YOLO-Annotation-Visualizer.py:46-80 | the label loop appends to the image exactly the calls for the accepted lines, in order, and the `k`-th box takes the `k`-th random colour |
| `Drawing.AcceptedAppend` | YOLO-Annotation-Visualizer.py:46 | lines are handled independently: the boxes of `a + b` are the boxes of `a` followed by those of `b` |
| `Drawing.AcceptedStep` | YOLO-Annotation-Visualizer.py:46-53 | one more line adds its box, or nothing when it is skipped |
| `Drawing.AcceptedNext` | YOLO-Annotation-Visualizer.py:46-53 | the boxes of the first `i+1` lines are those of the first `i` lines followed by line `i`'s box, if any |
| `Drawing.AcceptedOne` | YOLO-Annotation-Visualizer.py:46-65 | a single line yields its own box or nothing |
| `Drawing.AcceptedBoxesInBounds` | YOLO-Annotation-Visualizer.py:62-65 | every drawn box has `x1, y1 >= 0`, `x2 <= width` and `y2 <= height` |
| `Drawing.SkippedLineDrawsNothing` | YOLO-Annotation-Visualizer.py:51-53 | removing a skipped line from anywhere in the file leaves the drawing unchanged |
| `Drawing.CommandsAppend` | YOLO-Annotation-Visualizer.py:71-76 | one more box appends its rectangle and text, in the next colour |
| `Drawing.CommandsStep` | YOLO-Annotation-Visualizer.py:46-76 | one loop step extends the drawing by the calls of the new box, if any, and keeps every class index valid |
| `Drawing.LoopStep` | YOLO-Annotation-Visualizer.py:46-80 | line `i` either leaves boxes and calls unchanged or adds one box and its two calls in colour number (boxes so far) |
| `Drawing.CommandsAt` | YOLO-Annotation-Visualizer.py:71-76 | call `2k` is box `k`'s rectangle and call `2k+1` is its class name at `(x1, y1 - 10)`, both in colour `k` |
| `Drawing.CommandsShape` | YOLO-Annotation-Visualizer.py:71-76 | the calls alternate rectangle and text, and every text is a class name |
| `Drawing.AnnotationTextsAreClassNames` | YOLO-Annotation-Visualizer.py:74-76 | in the drawn calls, the even positions are exactly the rectangles and every text is a manifest class name |
| `Drawing.AnnotationSize` | YOLO-Annotation-Visualizer.py:46-76 | twice as many calls as accepted lines, so at most twice as many as lines |
| `Paths.RFind` | YOLO-Annotation-Visualizer.py:34 | the index of the last occurrence of the character, or -1 when there is none |
| `Paths.Basename` | YOLO-Annotation-Visualizer.py:34 | the basename is the longest separator-free suffix of the path |
| `Paths.SplitExt` | YOLO-Annotation-Visualizer.py:34 | root and extension concatenate to the name; the extension is empty or a dot followed by no dot and no separator |
| `Paths.SplitExtCuts` | YOLO-Annotation-Visualizer.py:34 | for every path, the extension is non-empty exactly when the last component holds a non-dot character with a dot somewhere after it |
| `Paths.Stem` | YOLO-Annotation-Visualizer.py:34 | `image_name` is a separator-free prefix of the basename, and the rest of the basename is empty or one dot followed by no dot |
| `Paths.LabelPath` | YOLO-Annotation-Visualizer.py:35 | no contract of its own: `join(labels_dir, image_name + '.txt')`; `LabelPathShape`, `ImagePaths`, `HiddenFileKeepsName` and `UncutNameKeepsName` state what it is |
| `Paths.OutputPath` | YOLO-Annotation-Visualizer.py:84 | no contract of its own: `join(output_dir, basename(image_path))`; `OutputPathShape` and `ImagePaths` state what it is |
| `Paths.Join` | YOLO-Annotation-Visualizer.py:35 | an absolute second part replaces the first; otherwise the parts are concatenated when the first is empty or already ends in `/`, and joined by one `/` otherwise |
| `Paths.RFindIs` | YOLO-Annotation-Visualizer.py:34 | the last occurrence is characterised uniquely by its position |
| `Paths.BasenameAfter` | YOLO-Annotation-Visualizer.py:34 | a separator-free name after a separator is its own basename |
| `Paths.BasenameOfJoin` | YOLO-Annotation-Visualizer.py:34-35 | the basename of `join(dir, name)` is `name` for any separator-free name |
| `Paths.JoinedName` | YOLO-Annotation-Visualizer.py:35 | a separator-free name joined onto a directory is the basename of the result, and the directory is its prefix |
| `Paths.JoinShape` | YOLO-Annotation-Visualizer.py:35 | `join(dir, name)` starts with `dir`, ends with `name`, and has at most one `/` between them |
| `Paths.LabelPathShape` | YOLO-Annotation-Visualizer.py:34-35 | the label path lies in the labels directory, and its basename is the image's stem followed by `.txt` |
| `Paths.OutputPathShape` | YOLO-Annotation-Visualizer.py:84 | the output path lies in the output directory, under the image's own basename |
| `Paths.SplitExtOfStem` | YOLO-Annotation-Visualizer.py:34 | a stem that is not all dots, followed by an extension, splits back into that stem and extension |
| `Paths.ImagePaths` | YOLO-Annotation-Visualizer.py:34-35 | for `image_dir/stem.ext`, the label file is `labels_dir/stem.txt` (only the last extension is dropped) |
| `Paths.HiddenFileKeepsName` | YOLO-Annotation-Visualizer.py:34-35 | a dot-file such as `.jpg` keeps its whole name as its stem, so its label file is `.jpg.txt` |
| `Paths.HiddenFileExample` | YOLO-Annotation-Visualizer.py:34-35 | `images/.jpg` looks for `labels/.jpg.txt` |
| `Paths.UncutNameKeepsName` | YOLO-Annotation-Visualizer.py:34-35 | a separator-free name in which no non-dot character is followed by a dot, such as `..jpg`, is its own stem, so its label file is the whole name plus `.txt` |
| `Paths.EndsWith` | YOLO-Annotation-Visualizer.py:102 | `endswith` holds exactly when some tail of the name equals the suffix |
| `Paths.IsImageFile` | YOLO-Annotation-Visualizer.py:102 | no contract of its own: the disjunction of `endswith` over the tuple of three extensions; `ImageExtensionsAccepted` and `OtherNamesRejected` state which names pass |
| `Paths.ImageExtensionsAccepted` | YOLO-Annotation-Visualizer.py:102 | every name ending in one of the three extensions passes |
| `Paths.OtherNamesRejected` | YOLO-Annotation-Visualizer.py:102 | the test is case-sensitive and looks only at the end: `photo.JPG`, `photo.PNG`, `photo.jpg.txt` and `photo.gif` are rejected |
| `Annotator.Annotate` | YOLO-Annotation-Visualizer.py:6-89 | no contract of its own: `draw_boxes` as a function of the files it reads, checking in order manifest, image and label file; `DrawBoxes` is proved to end as it says, and `SavedIff`, `FirstFailureReported`, `SavedImage` and `CatExample` state what it gives |
| `Annotator.DrawBoxes` | YOLO-Annotation-Visualizer.py:6-89 | the method, with its early returns, ends as `Annotate` says: error exits in order, otherwise the saved image of the drawn calls |
| `Annotator.SavedIff` | YOLO-Annotation-Visualizer.py:17-43 | an image is written exactly when the manifest loads, the image decodes and its label file exists |
| `Annotator.FirstFailureReported` | YOLO-Annotation-Visualizer.py:17-43 | the failures are reported in order: manifest, then image, then label file |
| `Annotator.SavedImage` | YOLO-Annotation-Visualizer.py:31-85 | a saved image has the input's size and basename and lies in the output directory; it holds two alternating calls per accepted line, and every text is a class name |
| `Annotator.CatExample` | YOLO-Annotation-Visualizer.py:6-89 | `images/cat.jpg` (100x100, one class `cat`, label `0 0.5 0.5 0.2 0.2`) is saved as `output/cat.jpg` with rectangle (40,40)-(60,60) and text `cat` at (40,30) |
| `Annotator.CatPaths` | YOLO-Annotation-Visualizer.py:34-35 | `images/cat.jpg` reads `labels/cat.txt` and is written to `output/cat.jpg` |
| `Annotator.CatDrawing` | YOLO-Annotation-Visualizer.py:46-76 | the single example line draws exactly that rectangle and that text, in the first colour |
| `Driver.ImageEntries` | YOLO-Annotation-Visualizer.py:101-102 | the kept entries are exactly the listed names that pass the extension filter, no more of them than entries |
| `Driver.ImageEntriesAppend` | YOLO-Annotation-Visualizer.py:101-102 | filtering distributes over concatenation of listings, so the listing order is kept |
| `Driver.ImageEntriesNext` | YOLO-Annotation-Visualizer.py:101-102 | one more entry is kept exactly when it passes the filter |
| `Driver.Calls` | YOLO-Annotation-Visualizer.py:101-104 | one call of `draw_boxes` per image name |
| `Driver.CallsAppend` | YOLO-Annotation-Visualizer.py:101-104 | one more image adds its call last, with the next colour stream |
| `Driver.Run` | YOLO-Annotation-Visualizer.py:101-104 | the loop calls `draw_boxes` once per image entry, in listing order, on `join(image_dir, filename)`; the `k`-th outcome is that of the `k`-th image |

## Left out

- The YAML manifest is the class list, or `None` when it cannot be loaded. Errors in `open`, `yaml.safe_load` and `data['names']` all become this one `ManifestError`. A `names` given as a dictionary is not modelled; nor is the `print` of the class count.
- `cv2.imread` is a map from paths to image sizes; a path missing from it is an image that does not decode. Pixel data is not modelled. `cv2.rectangle` and `cv2.putText` are recorded as drawing calls, not rasterised.
- `os.makedirs` and `cv2.imwrite` cannot fail in the model. The `Saved` outcome records the output path, the size and the drawing calls. `imwrite`'s ignored boolean result is not modelled.
- Reading a label file is a map from paths to lists of lines. Only `FileNotFoundError` is modelled (as a missing key). Other I/O errors, encodings and universal-newline translation are not modelled.
- `float()` is the caller-supplied `parse`, with `None` meaning `ValueError`. IEEE rounding, `nan`, `inf`, and the `OverflowError` that `int()` of an infinity would raise are not modelled: coordinates are exact reals. The worked example's values (`0.5 ± 0.1` times 100) also come out exact in binary floating point.
- `random.randint` is the caller-supplied colour stream. `Run` gives the `k`-th image its own stream `draws(k)`, and in it the `n`-th box of that image takes colour `n`. Each channel lies in 0..255 by its type, as `randint(0, 255)` gives; the stream is otherwise unconstrained.
- Console output (`print`) is not modelled. The outer `except Exception` is not modelled beyond the exits above. In particular, OpenCV's limit on coordinates is not modelled. A finite label far outside the image, such as a centre of `3e7` on a 100-pixel image, gives corners beyond the range of a C `int`. `cv2.rectangle` then raises an error that is not a `ValueError`. That error skips the per-line handler and reaches the outer one, so no image is written, while the model draws the box and saves.
- Paths follow POSIX rules. `posixpath` itself is not modelled; its rules are taken from the Python documentation. Windows `ntpath` rules are not modelled: drive letters, `\` separators, and the `E:/` paths the driver hard-codes.
- `os.listdir` is the sequence of entries in the order it returns them. Whether an entry is a regular file is not checked, as in the script.
- `Drawing.AcceptedBoxesInBounds`: only the one-sided bounds the clamp gives are stated (`x1, y1 >= 0`, `x2 <= width`, `y2 <= height`). `x1 <= x2` and `x1 <= width` are not promised by the code; `LabelBox.NegativeWidthInvertsBox` and `LabelBox.CentreBeyondEdgeExceedsWidth` show they can fail.
- `LabelBox.NormalisedBoxIsOrdered`: the full ordering `0 <= x1 <= x2 <= width` is proved only for centres in `[0, 1]` and non-negative sizes, because outside that range the code does not keep it.
