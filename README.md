# vector_pi_plot: SVG to HPGL tool paths, in Dafny

A model of the plotting core of `tool_paths.py`, plus one function of `main.py`, with proofs about it.

The pipeline in `tool_paths.py`:
- reads the `d` string of each SVG `<path>` into points (`parse_svg_path`);
- reads the canvas size from the `width` and `height` attributes (`convert_to_pixels`, the unit branch of `get_svg_canvas_size_in_px`, `convert_pt_to_px`, `convert_px_to_pt`);
- picks a pen from each path's stroke colour (`color_to_pen`);
- writes one HPGL line per pen selection or movement into the module-level `hpgl_code` (`convert_svg_to_hpgl`).

Two readers replay that text:
- `estimate_plotting_time` totals pen-up and pen-down distances and turns them into minutes and seconds;
- `visualize_hpgl` flips y, collects pen-up movements and coloured pen-down strokes, and maps pens back to colours with `pen_color_mapping`.

From `main.py`, `apply_bezier_roundness` interleaves the points of a polyline with corner control points.

One Dafny module per part:

| file | module | models |
|---|---|---|
| python.dfy | `Python` | the built-ins the code relies on: `float()`, `int()` of a float, `str()` of an int, `strip`, `upper`, `splitlines`, `'\n'.join`, IndexError, ValueError |
| number_scan.dfy | `NumberScan` | `re.findall(r"[-+]?\d*\.\d+|\d+", s)` followed by `float()` |
| svg_path.dfy | `SvgPath` | `parse_svg_path`, as a method with a loop proved against a functional specification |
| units.dfy | `Units` | unit conversion and the canvas-size unit branch |
| pens.dfy | `Pens` | the two pen tables and `re.search(r'stroke:([^;]+);', style)` |
| hpgl_emitter.dfy | `HpglEmitter` | the lines `convert_svg_to_hpgl` writes, as a datatype `Line` with its text `Render` |
| hpgl_interpreter.dfy | `HpglInterpreter` | the two readers as folds over the instructions read from each line |
| session.dfy | `Session` | the class `ToolPathSession`, whose field `hpglCode` is the global `hpgl_code`; the conversion, the estimator and the visualizer are its methods, written as the source's loops |
| round_trip.dfy | `RoundTrip` | what the two readers make of the text the conversion stores |
| roundness.dfy | `Roundness` | `apply_bezier_roundness`, as a method with a loop |

Each loop is a method proved equal to a function of its inputs and of the old state. The properties are proved about those functions.

## How the model is built

- **Python's number formats.**
  - `int(x)` truncates toward zero (`Python.Trunc`).
  - `f"{n}"` writes a minus sign and then the digits (`Python.ShowInt`).
  - `float()` accepts white space, a sign, digits with an optional fraction, and an optional exponent.
- **Failure.** An exception the code would raise is an `Err` of a `Result`, not a precondition:
  - `params[1]` on a list of one number;
  - `points[0]` before any point;
  - `int(cmd[2])` on a short or non-digit line;
  - `float()` of an unreadable attribute.
  - `new_x_points[0]` in `apply_bezier_roundness` when there are fewer than two x values, and `y_points[i]` when there are fewer y values than x values.
- **`math.sqrt`.** It is not modelled. `calculate_distance` is a parameter `dist`; the lemmas that need it assume it is non-negative.
- **The two readers.** Each HPGL line is first read into an `Instruction` (opcode, numbers, third character), and each reader is a fold over those. The methods of `ToolPathSession` keep one helper method per loop pass (`Session.TallyLine`, `Session.LineY`, `Session.DrawLine`). Each helper's contract is stated over the fold.

## Behaviour worth knowing

- **No scaling, and no `IN;`/`PA;` header.** Coordinates are truncated toward zero but not scaled, and the text starts with the first path's lines.
- **A path that fails ends the whole conversion.** `parse_svg_path` raises IndexError for an M or L with fewer than two numbers, or for a Z before any point. This ends `convert_svg_to_hpgl`, and `hpgl_code` keeps its old value (`Session.ToolPathSession.ConvertSvgToHpgl`).
- **`SP<n>;` is written for every path whose style has a stroke token,** even when the pen does not change. No other path gets one.
- **`PD` has no semicolon.**
- **Nothing is de-duplicated.** There is no de-duplication of repeated `d` strings and no collapsing of repeated points.
- **Units.**
  - Only px and pt are known; any other unit goes to `float()` with the number and raises ValueError.
  - `get_svg_canvas_size_in_px` strips only "pt", so a "px" canvas size raises ValueError (`Units.CanvasRejectsPx`), even though `convert_to_pixels` reads it.
- **Negative coordinates lose their sign when read back.** The number regex keeps a sign only on a token with a decimal point, so `PU-2,3;` is read by both readers as (2, 3) (`RoundTrip.NegativeCoordinateUnsigned`).
- **`convert_px_to_pt` is defined twice** (tool_paths.py:93-94 and 119-120). Both definitions are the same and are modelled once.

## Model

| member | source | states |
|---|---|---|
| Python.Trunc | tool_paths.py:178-183 | `int()` of a float truncates toward zero: for x ≥ 0 the result is the floor, for x < 0 the ceiling |
| Python.ShowNatValue | tool_paths.py:164 | reading back the digits `str(n)` writes gives n |
| Python.Upper | tool_paths.py:157 | `upper()` keeps the length and upper-cases each ASCII letter, leaving every other character as it is |
| Python.StripTrims | tool_paths.py:156 | `strip()` returns a slice of the string with only white space outside it; with `Strip`'s own guarantee that the result neither starts nor ends with white space, this is exactly the string with its outer white space removed |
| Python.StripUnspaced | tool_paths.py:156 | `strip()` of a string with no white space at its ends is the string itself |
| Python.ParseFloatDigits | tool_paths.py:33 | `float()` of a digit string is its decimal value |
| Python.ParseFloatLastChar | tool_paths.py:86-87 | a literal `float()` accepts ends in a digit, a point or white space, and never in a unit letter |
| Python.SplitJoin | tool_paths.py:186-201 | `splitlines()` of the `'\n'.join` of non-empty lines without line breaks gives the lines back |
| NumberScan.ScanTokens | tool_paths.py:30 | every match of the number regex is an integer token or a decimal token |
| NumberScan.TokenParses | tool_paths.py:33 | `float()` of every match succeeds, with the match's value |
| NumberScan.ValuesParse | tool_paths.py:33 | each number read from a command is `float()` of its match |
| NumberScan.NegativeNeedsPoint | tool_paths.py:30 | a number read back is negative only when its match has a decimal point |
| NumberScan.SignDroppedOnInteger | tool_paths.py:30 | a sign in front of an integer is dropped: "-5" reads as 5 |
| NumberScan.SignKeptOnDecimal | tool_paths.py:30 | a minus in front of a decimal is kept: "-5.5" reads as -5.5 |
| NumberScan.ScanShowInt | tool_paths.py:178-183 | `str(i)` followed by a separator scans as the digits of the magnitude of i |
| SvgPath.CommandCount | tool_paths.py:24 | `re.findall(r'[MLZmlz][^MLZmlz]*', d)` gives one command per command letter of d |
| SvgPath.ParsedKinds | tool_paths.py:24-29 | after upper-casing, every command is an M, an L or a Z |
| SvgPath.ParseIgnoresCase | tool_paths.py:29 | a lower-case command reads like its upper-case one: relative commands are taken as absolute |
| SvgPath.ParseSvgPath | tool_paths.py:23-45 | the loop returns exactly `PathPoints(d)`: the points, or the IndexError |
| SvgPath.RunOutcome | tool_paths.py:28-43 | the loop succeeds exactly when every M and L has two numbers and no Z comes before the first point; it only ever raises IndexError |
| SvgPath.RunLength | tool_paths.py:28-43 | each command appends exactly one point after the points already there |
| SvgPath.PathPointsOutcome | tool_paths.py:23-45 | `parse_svg_path` fails, always with IndexError, exactly when an M or L lacks a number or a Z comes first |
| SvgPath.PathPointsOfCommands | tool_paths.py:23-45 | there are as many points as command letters, and point k comes from command k |
| SvgPath.EmptyPath | tool_paths.py:23-45 | an empty `d` gives no points |
| Units.UnitTable | tool_paths.py:50-56 | a number in digits gives that many pixels with "px" or no unit, and 1.333 times as many with "pt" |
| Units.PtPxRoundTrip | tool_paths.py:74-94 | `convert_px_to_pt(convert_pt_to_px(s))` is `float(s)`, and the first conversion fails exactly when `float(s)` does |
| Units.CanvasAgrees | tool_paths.py:86-87 | the canvas unit branch agrees with `convert_to_pixels` on every attribute not ending in "px" |
| Units.CanvasRejectsPx | tool_paths.py:86-87 | a "px" canvas attribute raises ValueError |
| Pens.TablesInverse | tool_paths.py:98-114 | `pen_color_mapping` has keys 1 to 6 and is the exact inverse of `color_to_pen`, both ways round |
| Pens.ColorPenRange | tool_paths.py:161 | every colour gets a pen from 1 to 6, and that pen has a colour in `pen_color_mapping` |
| Pens.ColorPenDefault | tool_paths.py:161 | pen 4 is chosen exactly for black and for every colour not in the table |
| Pens.LowerCaseColor | tool_paths.py:156-161 | lower-case hex is upper-cased before the lookup: "#ff0000" is pen 1 |
| Pens.MatchAtOf | tool_paths.py:151 | the stroke pattern matches "stroke:" + c + ";" with group c, for every non-empty c without ';' |
| Pens.MatchAtShape | tool_paths.py:151 | a match is "stroke:", a non-empty colour without ';', then ';' |
| Pens.SearchLeftmost | tool_paths.py:151 | `re.search` returns the match at the leftmost position that has one |
| Pens.SearchNone | tool_paths.py:151 | with no match at any position, `re.search` finds nothing |
| Pens.SearchFound | tool_paths.py:151 | whatever the search returns was matched at some position |
| Pens.StylePenOf | tool_paths.py:151-164 | a style that starts with a stroke token selects the pen of its colour, whatever follows |
| HpglEmitter.PathBodyShape | tool_paths.py:177-184 | a drawn path of k points writes k + 2 lines: `PU` to the truncated first point, `PD`, one `PA` per further point, `PU;` |
| HpglEmitter.PenLine | tool_paths.py:154-164 | `SP<pen>;` comes first exactly when the style has a stroke token, and there is no other `SP` line |
| HpglEmitter.Drawn | tool_paths.py:170-184 | any other path writes k + 2 lines after its optional `SP` line |
| HpglEmitter.BorderOrders | tool_paths.py:172 | the border test accepts the two corner orders it lists, and only with five points |
| HpglEmitter.TruncatedCoordinates | tool_paths.py:183 | coordinates are truncated toward zero and not scaled: (-2.7, 3.9) is written `PA-2,3;` |
| HpglEmitter.ConcatErrStays | tool_paths.py:146-166 | after the first path that raises, no later path changes the outcome |
| HpglEmitter.ConcatOutcome | tool_paths.py:146-166 | the lines are produced exactly when every path succeeds, and otherwise the exception is that of a path that failed |
| HpglEmitter.EmitPathOutcome | tool_paths.py:166 | a path fails exactly when its `d` does, with IndexError |
| HpglEmitter.ConvertErrors | tool_paths.py:124-186 | the conversion fails only with the ValueError of an unreadable canvas size or the IndexError of a `d` that does not parse |
| HpglInterpreter.ReadAllAt | tool_paths.py:201-209 | each line is read on its own, into its opcode, its numbers and its third character |
| HpglInterpreter.PenUpLifts | tool_paths.py:208-214 | every `PU` that does not raise lifts the pen and draws nothing |
| HpglInterpreter.MinutesSecondsBounds | tool_paths.py:233-234 | seconds are 0 to 59, minutes are not negative for a non-negative total, and 60·minutes + seconds is the total truncated to whole seconds |
| HpglInterpreter.TalliesNonNegative | tool_paths.py:207-225 | with a non-negative distance, both totals stay non-negative |
| HpglInterpreter.TalliesFail | tool_paths.py:207-225 | the loop raises exactly when some `PU` or `PA` line has a single number, and then always with IndexError |
| HpglInterpreter.TalliesErrStays | tool_paths.py:207-225 | once the loop has raised, later lines change nothing |
| HpglInterpreter.NoPenDownNoDrawing | tool_paths.py:216-224 | with no `PD` line the drawing total stays 0 |
| HpglInterpreter.EstimateOutcome | tool_paths.py:200-234 | the estimate of a text fails, with IndexError, exactly at a `PU` or `PA` line with one number; otherwise its seconds are 0 to 59, and with a non-negative distance its minutes are not negative |
| HpglInterpreter.Max | tool_paths.py:263 | `max(y_coords)` is one of the y values and no y value is greater |
| HpglInterpreter.YCoordsEmpty | tool_paths.py:249-258 | `y_coords` is empty exactly when no `PU` or `PA` line has two numbers |
| HpglInterpreter.YCoordsHold | tool_paths.py:252-256 | the y of every such line is in `y_coords` |
| HpglInterpreter.NothingToDraw | tool_paths.py:249-260 | the visualizer returns with nothing exactly when no line has coordinates |
| HpglInterpreter.ScenesErrStays | tool_paths.py:272-303 | once the second loop has raised, later lines change nothing |
| HpglInterpreter.ScenesFail | tool_paths.py:272-276 | the second loop raises exactly at a malformed `SP` line: IndexError when the line ends after the opcode, ValueError otherwise |
| HpglInterpreter.ScenesInView | tool_paths.py:279-303 | when no y exceeds max_y, every recorded point has a y that is not negative |
| HpglInterpreter.ScenesColored | tool_paths.py:270-302 | the current colour and every stroke's colour is 'black' or a value of the mapping |
| HpglInterpreter.PictureInView | tool_paths.py:249-303 | every plotted y is at least 0, and every stroke is 'black' or a colour of the mapping |
| HpglInterpreter.SegmentsFromMoves | tool_paths.py:252-303 | there are never more recorded segments than entries of `y_coords` |
| HpglInterpreter.SegmentCounts | tool_paths.py:279-303 | for any HPGL text, the second loop records exactly one pen-up movement per `PU` line with two numbers, and exactly one stroke per `PA` line with two numbers met while the pen is down |
| Session.ToolPathSession.constructor | tool_paths.py:16 | `hpgl_code` starts empty |
| Session.ToolPathSession.ConvertSvgToHpgl | tool_paths.py:124-186 | on success `hpgl_code` becomes the stored text of `Convert`; on an exception it is left as it was |
| Session.ToolPathSession.EstimatePlottingTime | tool_paths.py:200-234 | the loop returns exactly `Estimate(hpgl_code)`: minutes and seconds, or the IndexError |
| Session.ToolPathSession.VisualizeHpgl | tool_paths.py:249-303 | the two loops return exactly `Visualize(hpgl_code, mapping)`: nothing, the movements and strokes, or the exception |
| Session.TallyLine | tool_paths.py:207-225 | one pass of the estimator's loop advances its fold by exactly one line |
| Session.LineY | tool_paths.py:252-256 | one pass of the first loop appends the line's y exactly when it has two numbers |
| Session.DrawLine | tool_paths.py:272-303 | one pass of the second loop advances its fold by exactly one line |
| Session.SelectPenLines | tool_paths.py:151-164 | the pen lines written for a style are its `SP` line or none |
| Session.DrawLines | tool_paths.py:170-184 | the drawing lines written for a path are none for an empty path or the border, and `PU`, `PD`, the `PA` lines and `PU;` otherwise |
| Session.EmitFails | tool_paths.py:146-166 | a path whose `d` raises ends the conversion with that exception |
| RoundTrip.RenderOneLine | tool_paths.py:164-184 | every line written is non-empty and holds no line break |
| RoundTrip.SplitRendered | tool_paths.py:186-201 | `hpgl_code.splitlines()` gives back exactly the lines joined into it |
| RoundTrip.PairTokens | tool_paths.py:178-209 | the coordinates of a `PU<x>,<y>;` or `PA<x>,<y>;` line scan as the digits of the magnitudes of x and y |
| RoundTrip.PairNumbers | tool_paths.py:178-220 | those lines are read back as the magnitudes of x and y |
| RoundTrip.ReadPenUpTo | tool_paths.py:178-211 | `PU<x>,<y>;` is read as a pen-up with numbers \|x\| and \|y\| |
| RoundTrip.ReadPlotTo | tool_paths.py:183-222 | `PA<x>,<y>;` is read as a plot with numbers \|x\| and \|y\| |
| RoundTrip.ReadPenUp | tool_paths.py:184-214 | `PU;` is read as a pen-up without numbers |
| RoundTrip.ReadPenDown | tool_paths.py:179-217 | `PD` is read as a pen-down without numbers |
| RoundTrip.ReadSelectPen | tool_paths.py:164-275 | `SP<pen>;` is read as a pen selection whose third character is the pen's digit when the pen has one digit |
| RoundTrip.ReadRendered | tool_paths.py:164-222 | reading any written line gives exactly the instruction `Heard` of it |
| RoundTrip.ReadableLine | tool_paths.py:164-184 | no line written with a table pen makes either reader raise |
| RoundTrip.PathPens | tool_paths.py:151-164 | the lines of one path select only pens 1 to 6 |
| RoundTrip.EmittedPens | tool_paths.py:146-184 | every `SP` line of a conversion names a pen of `pen_color_mapping` |
| RoundTrip.ReadableText | tool_paths.py:186-201 | no line of the stored text makes either reader raise |
| RoundTrip.VisualizeSucceeds | tool_paths.py:249-303 | a text without a malformed `SP` line is visualized without an exception |
| RoundTrip.ConvertedReadable | tool_paths.py:124-303 | whatever `convert_svg_to_hpgl` stores, `estimate_plotting_time` and `visualize_hpgl` read without an exception |
| RoundTrip.PenOfColorRoundTrip | tool_paths.py:98-161 | `pen_color_mapping` gives back the colour that chose the pen: the upper-cased colour when the table has it, "#000000" otherwise |
| RoundTrip.SelectPenRoundTrip | tool_paths.py:161-276 | the `SP` line written for a stroke colour sets the visualizer's colour to exactly that table colour |
| RoundTrip.PenUpToRoundTrip | tool_paths.py:178-288 | the visualizer moves to the flipped magnitudes of a written `PU<x>,<y>;` |
| RoundTrip.PlotToRoundTrip | tool_paths.py:183-303 | the visualizer plots to the flipped magnitudes of a written `PA<x>,<y>;` |
| RoundTrip.SlewRoundTrip | tool_paths.py:178-214 | the estimator slews to the magnitudes of a written `PU<x>,<y>;` |
| RoundTrip.DrawRoundTrip | tool_paths.py:183-225 | the estimator draws to the magnitudes of a written `PA<x>,<y>;` while the pen is down |
| RoundTrip.PenLinesRoundTrip | tool_paths.py:179-217 | `PD` and `PU;` change only the pen state of either reader |
| RoundTrip.NegativeCoordinateUnsigned | tool_paths.py:178-209 | a written `PU-2,3;` is read back as (2, 3) |
| RoundTrip.PlayedText | tool_paths.py:186-201 | the stored text of some lines is read as their instructions, in order |
| RoundTrip.ScenesReplay | tool_paths.py:272-303 | the visualizer's loop over lines i to n continues from the scene after line i |
| RoundTrip.ChainColor | tool_paths.py:294-303 | each stroke of a drawn polyline has the current colour and ends at the flipped point |
| RoundTrip.PlotsDraw | tool_paths.py:182-183 | with the pen down, the `PA` lines of a path draw the chain of its points, one stroke per point, and change nothing else |
| RoundTrip.PathSegments | tool_paths.py:177-184 | a drawn path of k points gives one pen-up movement to its first point and the k - 1 strokes through the others, and the pen ends up |
| RoundTrip.PathSegmentCounts | tool_paths.py:177-303 | a drawn k-point path adds one pen-up movement and k - 1 strokes, all in the colour of the last `SP` |
| RoundTrip.DrawnPathInPicture | tool_paths.py:272-303 | inside the visualizer's loop, the lines of a drawn path add exactly those segments |
| Roundness.ApplyBezierRoundness | main.py:92-115 | the loop returns exactly `Roundness(xs, ys, r)`: the two rounded lists, or the IndexError |
| Roundness.CornersAt | main.py:97-110 | output 2i is input point i, and output 2i + 1 is its control point p_i + (mid(p_i, p_i+1) - p_i)·r |
| Roundness.CornersPrefix | main.py:97-99 | the corners read only the first n + 1 points, so extra y values are ignored |
| Roundness.RoundnessOutcome | main.py:92-115 | the function succeeds exactly with at least two x values and at least as many y values, and then returns two lists of length 2(n - 1) + 1 |
| Roundness.RoundedShape | main.py:92-115 | the rounded list keeps point i at 2i and its control point at 2i + 1, and ends with the first point, so it is closed |
| Roundness.ControlEnds | main.py:101-105 | with factor 0 a control point repeats its point; with factor 1 it is the midpoint |
| Roundness.LastPointNotCopied | main.py:97-113 | the last input point is not copied: points 0 and 1 with factor 0 give 0, 0, 0 |

## Left out

- File I/O: `minidom` reading of the SVG file, `current_svg`, `get_svg_canvas_size` (never called). The `d` and `style` attributes of the paths and the canvas `width` and `height` attributes are inputs of the conversion.
- The user interface: tkinter windows, the HPGL text box that `convert_svg_to_hpgl` fills, `messagebox` (the estimate is returned instead of shown), `include_border` (declared but never read) and `open_tool_path_window`.
- Matplotlib drawing: the figure set-up and the `plot` calls of `visualize_hpgl`. The model returns the two segment lists they would draw.
- `print` calls; they change no state.
- `calculate_distance`: `math.sqrt` is not modelled. The distance is a parameter, assumed non-negative where a lemma needs it.
- Floating point: coordinates, sizes and times are exact reals. The model has no IEEE rounding and no inf or nan. 1.333 is the exact rational 1333/1000.
- HpglEmitter.IsCanvasBorder: the border test is Python's `==` on floats, and the model compares exact reals, so the skip differs in both directions. For a canvas width written without a unit, the model's corner is the width divided by 1.333 exactly. For a width such as 100 that is 100000/1333, which no finite decimal in a `d` string equals, so the model never skips that border. Python does skip a path whose `d` holds the float's printed form (`75.01875468867217`). For an "Npt" canvas the model's corner is exactly N, so a `d` with N is skipped, while in Python `(N * 1.333) / 1.333` can differ from N in the last bit and the path is then drawn.
- `float()` literals `inf`, `nan` and underscores in digits are not modelled.
- Digits are ASCII only: the regex's `\d`, `float()` and `int(cmd[2])` accept any Unicode decimal digit in Python, but only '0' to '9' in the model. `upper()` is modelled on ASCII letters only. White space is Python's full `str.isspace()` set, so what `strip()` and `float()` remove is modelled.
- `generate_concentric_polygons`, `remove_clip_path_rectangles`, `update_plot`, `export_to_svg` and the layer editing of main.py; test_draw.py (serial-port I/O).
- Roundness.ApplyBezierRoundness: works on sequences, not numpy arrays. `np.array` of the result is the identity here.
- RoundTrip.PathSegmentCounts: states the segments of one drawn path within the visualizer's loop, not a closed form for a whole conversion's picture; for any HPGL text the counts are given by HpglInterpreter.SegmentCounts.
