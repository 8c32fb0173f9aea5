# Caption overlay: a verified model of the layout core of `addText.py`

`addText.py` is a small desktop tool. It asks for a set of images and a text
file, takes the non-blank lines of the file as captions, and writes caption
`i` onto image `i`. Each caption is wrapped to 90% of the image width and
drawn, centred, on a translucent black banner across the middle of the image.
CJK ideographs (U+4E00..U+9FFF) are drawn with a second font. The results are
saved as `output_1.png`, `output_2.png`, ...

This project models the tool's logic in Dafny and proves what it computes:

- `PyText.dfy` (`PyText`): the Python string primitives used by the tool,
  `str.split()` and `str.strip()`, over a fixed set of whitespace characters.
  It also holds `JoinSpaces`, the single-space join that `wrap_text` builds
  by hand: a line starts as its first word (`line = words.pop(0)`) and grows
  by `line += " " + word`. The tool never calls `" ".join`.
- `Segmenter.dfy` (`ScriptSegmenter`): `split_text_by_script`, as a loop.
  The loop is proved equal to a reference definition, `Runs`. `Runs` is
  proved to be the unique cut of a string into maximal one-script runs.
- `Wrapper.dfy` (`LineWrapper`): `wrap_text`, as the nested `pop(0)` loops.
  The loops are proved equal to a reference greedy wrap, `Wrap`. For `Wrap`,
  the model proves four things:
  - no word is lost;
  - only one-word lines may exceed the width;
  - the wrap is greedy;
  - wrapping again changes nothing.
- `Layout.dfy` (`CaptionLayout`): the geometry of `add_text_to_images`.
  This covers the line spacing, the line heights, the banner size and
  position, and the cursor that moves down line by line and right run by run.
  Drawing is recorded as a list of placements `(x, y, text, isCjk)`. The
  flag says which font the run is drawn with: `FontFor` picks the CJK font
  when it is set and the main font otherwise.
- `Batch.dfy` (`BatchDriver`): the rest of the driver. It filters the
  captions, pairs images with captions, names the outputs, raises the
  warning, and covers the script's top-level flow.
- `Options.dfy` (`Options`): an option type.

Fonts are not implemented. A font is known only through
`draw.textbbox((0, 0), s, font)`, so the model represents a `Font` by three
arbitrary functions from a string to an integer: its right, top and bottom
edges. Nothing is assumed about these functions. Every property below
therefore holds for any font.

## Model

| member | source | states |
|---|---|---|
| `PyText.Words` | addText.py:52 | `s.split()`: every piece is a non-empty word without whitespace |
| `PyText.WordsOfWordThen` | addText.py:52 | a word followed by whitespace, or by nothing, is split off whole as the first piece, and splitting carries on after it |
| `PyText.WordsSkipSpace` | addText.py:52 | whitespace in front of a string adds no words; with `WordsOfWordThen` and `WordsEmpty` this fixes `Words` as the maximal whitespace-free pieces, left to right |
| `PyText.WordsOfJoin` | addText.py:52-56 | splitting the single-space join of a list of words gives that list back |
| `PyText.WordsIdempotent` | addText.py:52 | re-splitting the rejoined words of a string gives the same words |
| `PyText.WordsEmpty` | addText.py:52-53 | a string has no words exactly when it is all whitespace |
| `PyText.JoinAppend` | addText.py:56 | the join of two non-empty lists is the two joins with exactly one space between them |
| `PyText.Strip` | addText.py:138 | `s.strip()` is the slice of `s` between its leading and trailing whitespace; it starts and ends with a non-space and is empty exactly when `s` is all whitespace |
| `ScriptSegmenter.SplitTextByScript` | addText.py:25-47 | the loop returns exactly the reference runs `Runs(text)` of its input |
| `ScriptSegmenter.RunsStep` | addText.py:31 | the runs of one more character are the reference step `AddChar` applied to the runs so far |
| `ScriptSegmenter.AddCharSame` | addText.py:37-38 | a character of the open run's class extends the open run |
| `ScriptSegmenter.UniformGrow` | addText.py:37-38 | a run stays of one class when a character of its class is appended |
| `ScriptSegmenter.AddCharOther` | addText.py:39-42 | a character of the other class closes the open run and opens a new one-character run |
| `ScriptSegmenter.RunsPartition` | addText.py:25-47 | the runs concatenate back to the input; each run is non-empty and of one class, where `IsCjk` (line 32) is a code point in U+4E00..U+9FFF; neighbouring runs differ in class |
| `ScriptSegmenter.PartitionUnique` | addText.py:31-42 | two cuts of a string into maximal one-class runs are equal |
| `ScriptSegmenter.SameLastRun` | addText.py:31-45 | two correct cuts of a non-empty string end in the same run, preceded by correct cuts of the same shorter string |
| `ScriptSegmenter.LastRunLength` | addText.py:37-42 | when two correct cuts end in runs of the same class, the run of the first is no longer than that of the second |
| `ScriptSegmenter.LastRunClass` | addText.py:37-38 | every character of the last run has the run's class |
| `ScriptSegmenter.CharBeforeLastRun` | addText.py:39-42 | the character just before the last run has the other class, or the last run is the whole string |
| `ScriptSegmenter.RunsCharacterized` | addText.py:25-47 | a list of segments is the output for a string if and only if it is a cut of that string into maximal one-class runs |
| `ScriptSegmenter.RunsEmpty` | addText.py:44-47 | the empty string, and only the empty string, gives no segments |
| `ScriptSegmenter.ThreeRuns` | addText.py:31-45 | other text, then ideographs, then other text gives exactly three segments: the three parts with their classes |
| `ScriptSegmenter.ThreeRunsPartition` | addText.py:31-45 | those three parts are a correct cut of their concatenation |
| `ScriptSegmenter.MixedLineExample` | addText.py:31-45 | `"abc漢字def"` gives the three segments `abc`/other, `漢字`/CJK, `def`/other |
| `LineWrapper.WrapText` | addText.py:49-58 | the `pop(0)` loops return exactly the reference greedy wrap `Wrap(width, text, maxWidth)` |
| `LineWrapper.FillLine` | addText.py:54-56 | the inner loop's line is the words up to the greedy fill end joined by single spaces, and the words left are those after it |
| `LineWrapper.LinesOfGroups` | addText.py:53-57 | the first line of the wrap holds the words up to the greedy fill end, and the rest wraps the remaining words |
| `LineWrapper.LinesCons` | addText.py:57 | writing a group in front of other groups puts its line in front of their lines |
| `LineWrapper.FillEndFits` | addText.py:55-56 | a line that took at least one further word measures at most the limit |
| `LineWrapper.FillEndGreedy` | addText.py:55 | a line stops taking words only at the end of the words or when the next word would not fit |
| `LineWrapper.GroupsPartition` | addText.py:53-57 | the line groups give back the words in order, none is empty, and there are no more groups than words |
| `LineWrapper.GroupsFit` | addText.py:54-56 | every group of two or more words fits the limit |
| `LineWrapper.GroupsClosed` | addText.py:55 | each group is closed only because the first word of the next group would not fit on it |
| `LineWrapper.JoinLines` | addText.py:56-57 | joining the lines with single spaces equals joining all their words with single spaces |
| `LineWrapper.LineWordsOfLines` | addText.py:56-57 | a line built from words splits back into exactly those words |
| `LineWrapper.WrapGroups` | addText.py:52-58 | the words of each output line are the words of its group, and the groups cover the caption's words |
| `LineWrapper.WrapKeepsWords` | addText.py:52-58 | nothing is lost or split: the lines' words in order are the caption's words; every line has a word; the lines joined by spaces equal the caption's words joined by spaces |
| `LineWrapper.WrapSize` | addText.py:52-58 | there are no more lines than words; the wrap is empty exactly when the caption has no words, that is, when it is all whitespace |
| `LineWrapper.WrapWidthBound` | addText.py:54-56 | a line wider than the limit holds a single word |
| `LineWrapper.WrapGreedy` | addText.py:55 | for each line followed by another, the line plus a space plus the next line's first word is wider than the limit |
| `LineWrapper.WrapSingleWord` | addText.py:52-58 | a caption with no whitespace becomes exactly one line, however wide it is |
| `LineWrapper.WrapIdempotent` | addText.py:49-58 | re-wrapping the space-joined lines at the same width gives the same lines |
| `CaptionLayout.LineSpacing` | addText.py:84 | `font_size // 4` is the floor of a quarter of the font size |
| `CaptionLayout.BoxTop` | addText.py:91 | `(H - box_height) // 2` leaves equal space above and below the banner, give or take one pixel that goes below |
| `CaptionLayout.LineLeft` | addText.py:100 | `(W - width(line)) // 2` centres the line, the odd pixel going to the right |
| `CaptionLayout.IndexOf` | addText.py:108 | `list.index`: an index holding the element, with no earlier occurrence |
| `CaptionLayout.AddTextToImage` | addText.py:80-108 | the plan equals `MakePlan`, the model of lines 80-94 (the wrapped lines, the heights, the spacing `font_size // 4`, `text_height`, the full-width banner `box_height = text_height + 20` tall at `box_y`); the draw calls are those of `Placements`: line `k` at `y = box_y + 10 + Σ_{j<k} (heights[j] + spacing)` |
| `CaptionLayout.DrawLines` | addText.py:97-108 | the line loop, whose cursor starts at `box_y + 10` and moves down by `text_heights[wrapped_text.index(line)] + line_spacing`, draws exactly `Placements`: line `k` at the closed-form top `LineTop(plan, k)` |
| `CaptionLayout.DrawLine` | addText.py:100-106 | the run loop draws the line's runs at `x0 + Σ_{j<i} width_font(j)(run j)`, starting from the centred `x0`, each run in its own font |
| `CaptionLayout.DrawRuns` | addText.py:103-106 | the cursor loop's draw calls are those of `RunPlacements`: each run where the runs before it end |
| `CaptionLayout.PlacementStep` | addText.py:105-106 | one more run appends its placement at the current cursor, which then moves right by the run's width in its own font |
| `CaptionLayout.RunPlacementAt` | addText.py:103-106 | there is one placement per run, and run `i` is at `x0` plus the widths of the runs before it |
| `CaptionLayout.RunPlacementsShape` | addText.py:103-105 | one draw call per run, all at the line's `y`, each with its run's text and font flag, the first at the starting `x` |
| `CaptionLayout.RunPlacementsFollow` | addText.py:104-106 | each run after the first is drawn where the one before it ends, measured in that one's font |
| `CaptionLayout.HeightLookup` | addText.py:108 | `text_heights[wrapped_text.index(line)]` is the height of the line itself, even when lines repeat |
| `CaptionLayout.SumSnoc` | addText.py:88 | a prefix sum grows by the next element |
| `CaptionLayout.LineTopStep` | addText.py:108 | each line moves the cursor down by its own height plus the spacing |
| `CaptionLayout.PlanGeometry` | addText.py:84-98 | covers the shape of the plan `MakePlan`: <ul><li>one height per line, each the line's bottom minus top, as `Heights` models line 87;</li><li>the lines are the wrap of the caption;</li><li>the banner spans the full image width and is `text_height + 20` tall;</li><li>the space below it is the space above it, or one more pixel;</li><li>the first line starts 10 below the banner top;</li><li>the last line ends 10 above the banner bottom;</li><li>with no lines, `text_height` is `-line_spacing`.</li></ul> |
| `CaptionLayout.LineDrawing` | addText.py:99-106 | what a line draws: <ul><li>the drawn texts cut the line into maximal one-script runs;</li><li>every run is at the line's `y`;</li><li>the first run is at the centred left edge;</li><li>every next run starts where the previous one ends, measured in the previous run's font.</li></ul> |
| `BatchDriver.MaxLineWidth` | addText.py:73 | a whole pixel width `w` is within `W * 0.9` exactly when `w` is at most this value, since `10m <= 9W < 10m + 10` |
| `BatchDriver.FontSize` | addText.py:74 | `int(H * 0.04)` is four percent of `H`, rounded down |
| `BatchDriver.Captions` | addText.py:138 | there are no more captions than lines; each caption is non-empty and starts and ends with a non-space |
| `BatchDriver.CaptionsAppend` | addText.py:138 | filtering works line by line, in order: it distributes over concatenation of files |
| `BatchDriver.CaptionsOfLine` | addText.py:138 | a single line is kept, stripped, exactly when it is not blank |
| `BatchDriver.CaptionsHaveLines` | addText.py:138 | every caption wraps to at least one line |
| `BatchDriver.BlankLineDropped` | addText.py:138 | a word line, a blank line and a word line give two captions: the blank line takes no index |
| `BatchDriver.CaptionOfWordLine` | addText.py:138 | a line holding one word and its line feed is kept as that word |
| `BatchDriver.CaptionsOfThree` | addText.py:138 | filtering three consecutive pieces of a file is filtering each piece, in order |
| `BatchDriver.ThreeLines` | addText.py:138 | a three-line file is filtered line by line, in order |
| `BatchDriver.BlankLineCaption` | addText.py:138 | a blank line gives no caption |
| `BatchDriver.MiddleLineDropped` | addText.py:138 | when the middle of three lines gives no caption, the captions are those of the first and the last line, in order |
| `BatchDriver.StripExample` | addText.py:138 | a word followed by a line feed strips to the word |
| `BatchDriver.DecimalString` | addText.py:114 | `str(n)`: non-empty, only decimal digits, no leading zero |
| `BatchDriver.DecimalRoundTrip` | addText.py:114 | reading back the decimal digits of `n` gives `n` |
| `BatchDriver.OutputNameParts` | addText.py:114 | `OutputName(i)`, the model of the f-string, is `output_`, then the decimal digits of `i + 1`, then `.png` |
| `BatchDriver.OutputNamesDistinct` | addText.py:114 | two outputs have the same file name if and only if they have the same index |
| `BatchDriver.RenderedCaptionHasLines` | addText.py:81-91 | the banner of every saved image holds at least one line of text |
| `BatchDriver.AddTextToImages` | addText.py:64-115 | the loop, which stops at the first image without a caption, produces exactly `ExpectedOutputs`: one output per position that has both an image and a caption |
| `BatchDriver.RenderImage` | addText.py:68-115 | one pass of the loop body: the layout of the caption at the image's font size and maximum width, named after the position |
| `BatchDriver.ExpectedOutputsShape` | addText.py:64-66 | <ul><li>there are `min(#images, #captions)` outputs;</li><li>there are fewer outputs than images exactly when there are fewer captions than images;</li><li>output `i` pairs image `i` with caption `i` and is named `output_{i+1}.png`.</li></ul> |
| `BatchDriver.ExpectedStep` | addText.py:64-67 | the outputs expected for the first `i + 1` pairs are those for the first `i` followed by the rendering of pair `i` |
| `BatchDriver.Run` | addText.py:124-147 | <ul><li>no images selected is an error;</li><li>otherwise, no text file selected is an error;</li><li>otherwise the captions are the file's stripped non-blank lines;</li><li>the warning is raised exactly when there are fewer captions than images, which is exactly when fewer outputs than images are produced;</li><li>the outputs are the expected outputs for those images and captions.</li></ul> |

## Left out

- The tkinter window, the file dialogs and the message boxes (lines 2-3, 15-23, 117, 119-134, 141, 150) are GUI plumbing. `Run` takes the dialogs' answers as inputs: the chosen images, and either the lines of the chosen text file or no file. It returns which message or warning would be shown.
- The warning text at line 141 says that some images will be saved without text. The code does not do that: the loop stops at line 66, and those images are not saved. The model follows the code: the outputs stop at the last caption.
- The PIL calls (`Image.open`, `convert`, `Image.new`, `draw.rectangle`, `draw.text`, `alpha_composite`, `save`, `ImageFont.truetype`; lines 68-78, 95, 105, 111, 115) are foreign rendering code.
  - An image is represented by its path and pixel size.
  - A font is represented by its `textbbox` edges as arbitrary functions.
  - The `draw.text` calls are recorded as `Placement`s, and the banner as a `Rect`.
  - Colours and transparency are not modelled.
- The choice of font files and the file-existence fallback (lines 7-13) is filesystem I/O. The model takes the two fonts as `BatchDriver.Fonts`, which gives a font for each size.
- Reading the text file, `os.makedirs` and `os.path.join` (lines 62, 114, 137) are I/O. The caption file is given as its list of lines, and the output name is built as a plain string without the folder.
- `BatchDriver.MaxLineWidth` and `BatchDriver.FontSize` use the exact values of `W * 0.9` and `H * 0.04`. Binary floating-point rounding of those products is not modelled.
- `re.match(r'[\u4e00-\u9fff]', char)` (line 32) is modelled as a direct code point range test. It does not model the regular expression engine.
- `PyText.IsSpace`: Python's `str.split()` and `str.strip()` also treat non-ASCII whitespace as whitespace (U+0085, U+00A0, U+2000..U+200A, U+3000 and others). The model treats only the ASCII whitespace as whitespace: tab, line feed, vertical tab, form feed, carriage return, 0x1C..0x1F and space.
- Concatenating the wrapped lines does not give back the caption in general. Runs of whitespace collapse to one space, and leading and trailing whitespace is lost. The model proves what the code does: `LineWrapper.WrapKeepsWords` shows that the lines joined by single spaces equal the caption's words joined by single spaces.
- The end-of-batch message (line 117) is not modelled.
- Errors raised by PIL or by file access in the middle of a batch are not modelled.
