# DataHelper label tools, modelled in Dafny

DataHelper is a set of command-line tools for computer-vision datasets. Its
core converts annotations between two formats:

- LabelMe JSON documents, which hold shapes with pixel coordinates.
- YOLO text labels, one line per object with coordinates normalised to the
  image size.

This project covers these tools:

- Three LabelMe→YOLO converters:
  - detection: one box per line;
  - segmentation: one polygon per line;
  - pose: a box followed by one `(x, y, visibility)` triple per keypoint.
- The YOLO-detection→LabelMe converter.
- The label search (`search_data_by_label`): rules of the form
  `name[:op][:count]` decide which label files match.
- The label editor (`modify_label`): renames or deletes a class in `.txt`
  and `.json` labels.
- The finder of images without usable labels (`find_unlabeled_data`).

Each source file is one module:

| module | models |
|---|---|
| `LabelmeToYoloDet` | `labelme_to_yolo_det.py` |
| `LabelmeToYoloSeg` | `labelme_to_yolo_seg.py` |
| `LabelmeToYoloPose` | `labelme_to_yolo_pose.py` |
| `YoloDetToLabelme` | `yolo_det_to_labelme.py` |
| `SearchDataByLabel` | `search_data_by_label.py` |
| `ModifyLabel` | `modify_label.py` |
| `FindUnlabeledData` | `find_unlabeled_data.py` |

Four support modules hold what the tools share:

- `Common`: `Option` and `Result` types, plus `AllOk`, which runs a list of
  steps that can each fail and stops at the first failure, like a Python
  loop that raises.
- `Text`: the Python string behaviour the tools rely on (`strip`, `split`,
  `join`, `int`, `str`, `list.index`), written over `seq<char>`.
- `LabelMe`: the LabelMe shape, and the `Document` class that converters
  fill in and the editor updates in place.
- `YoloRecord`: the text layout of one YOLO line.

Some parts become parameters of the model rather than being modelled:

- Reading and writing files: file contents arrive as sequences of lines or
  shapes, and results come back as the lines or documents to write.
- Image sizes.
- Python's float formatting and parsing: `f"{x:.6f}"` becomes `fmt6`,
  `round(x, 6)` becomes `round6` and `float(text)` becomes `parseFloat`.

Python exceptions become `Err` values. Each such value names the exception's
cause: an unknown class, a malformed line, a bad rule, a missing key.

Behaviour of the tools worth noting, as the model has it:

- The pose converter formats visibility and absent keypoints with `:.6f`
  (`2.000000`, `0.000000`), not as bare integers.
- The pose converter runs `int(shape["group_id"])` on every shape before
  it applies the default of 2. So a shape whose `group_id` is `null`
  (LabelMe's usual value) raises `TypeError`. `ConvertLabelmeToYolo`
  models this; the evidently intended check is modelled beside it (see
  "## Findings").
- A converter raises on the first bad shape or line, and that aborts the
  whole run. It does not skip the image and carry on.
- An image without a LabelMe document gets no label file at all, not an
  empty one.
- The `xyxy2xywh` in `labelme_to_yolo_pose.py:16-21` is the same as the
  one in the detection converter and shares one model,
  `LabelmeToYoloDet.Xyxy2Xywh`.
- A search `--total` of `0` is skipped, because `rules.get('total')` reads
  `0` as false.

## Model

| member | source | states |
|---|---|---|
| Common.AllOkSpec | tools/labelme_to_yolo_det.py:35-42 | A loop of steps that can each fail succeeds iff every step does. On success it returns every step's value, in order. On failure it returns the error of the first failing step. |
| Common.AllOkPrefixErr | tools/labelme_to_yolo_det.py:35-42 | Once a prefix of the steps has failed, the later steps do not change the outcome: the first exception ends the loop. |
| Text.TrimLeftSpec | tools/yolo_det_to_labelme.py:42 | `lstrip` keeps a suffix of the input and removes only white space in front of it. |
| Text.TrimRightSpec | tools/yolo_det_to_labelme.py:42 | `rstrip` keeps a prefix of the input and removes only white space after it. The result is empty or ends with a non-space character. |
| Text.StripEnds | tools/yolo_det_to_labelme.py:42 | A stripped text is empty, or it starts and ends with a non-space character. |
| Text.StripNoSpace | tools/modify_label.py:19 | Stripping a text that has no white space leaves it unchanged. |
| Text.TokenLength | tools/search_data_by_label.py:36 | Gives the length of the leading run of non-space characters: that run has no space, and the next character is a space. |
| Text.SplitWs | tools/search_data_by_label.py:36 | Every field that `split()` returns is non-empty and free of white space. |
| Text.StrippedLines | tools/yolo_det_to_labelme.py:42 | The stripped, non-blank lines of a file are never more than its lines, and none of them is empty. |
| Text.StrippedLinesMember | tools/modify_label.py:19 | A text is among the stripped, non-blank lines iff it is non-empty and is the stripped form of some line of the file. |
| Text.SplitOn | tools/search_data_by_label.py:70 | `split(c)` returns at least one field, and no field contains the separator. |
| Text.JoinSplitOn | tools/search_data_by_label.py:70 | Joining the fields of `split(c)` with the separator gives the original text back. |
| Text.SplitOnNone | tools/search_data_by_label.py:71-72 | A text without the separator splits into itself alone. |
| Text.SplitOnFirst | tools/modify_label.py:24 | Splitting `a + c + b`, where `a` has no `c`, gives `a` followed by the fields of `b`. |
| Text.SplitOnJoin | tools/modify_label.py:37 | Splitting a join of separator-free parts at the separator gives those parts back. |
| Text.IndexOf | tools/labelme_to_yolo_det.py:39 | `list.index(x)` fails iff `x` is absent. Otherwise it returns the position of the first occurrence of `x`. |
| Text.NatToString | tools/labelme_to_yolo_det.py:41 | `str(n)` of a non-negative integer is a non-empty run of digits with no leading zero. |
| Text.DigitsValueOfNat | tools/modify_label.py:32 | The digits of `str(n)` read back as `n`. |
| Text.NatToStringWellFormed | tools/modify_label.py:32 | `str(n)` is a digit string that `int()` accepts, and it has no white space. |
| Text.ParseInt | tools/search_data_by_label.py:88 | `int()` rejects a blank text. The value it gives is negative only after a minus sign. |
| Text.ParseIntAccepts | tools/search_data_by_label.py:88 | `int()` accepts a text iff, once stripped, it is base-10 digits with single underscores between them, after an optional sign. |
| Text.ParseIntDigits | tools/search_data_by_label.py:88 | `int()` of a well-formed digit string is its decimal value. |
| Text.ParseIntMinusDigits | tools/search_data_by_label.py:88 | `int()` of `-` followed by a well-formed digit string is the negated value. |
| Text.ParseIntToString | tools/search_data_by_label.py:146-148 | `int(str(i)) == i` for every integer `i`. |
| Text.ParseIntOfNat | tools/modify_label.py:24 | `int(str(n)) == n` for every non-negative `n`. |
| Text.ParseIntOfNegative | tools/search_data_by_label.py:88 | `int(str(i)) == i` for every negative `i`. |
| Text.NoColonInIntToString | tools/search_data_by_label.py:146 | `str(i)` never contains `:`, so `__TOTAL__:{total}` always splits into exactly two fields. |
| LabelMe.Document.Template | tools/yolo_det_to_labelme.py:12-20 | A fresh copy of the default document: version `5.3.1`, no flags, no shapes, and no image path, data, height or width. |
| YoloRecord.FormatFields | tools/labelme_to_yolo_det.py:41 | Formats every value, in order, one field per value. |
| YoloRecord.RecordLineFields | tools/labelme_to_yolo_det.py:40-42 | A YOLO line ends in a line feed. Before that, its space-separated fields are the class index and then each formatted value. |
| LabelmeToYoloDet.Xyxy2Xywh | tools/labelme_to_yolo_det.py:22-27 | The width and height are never negative. Scaled back to pixels, the centre is the corners' midpoint and the size is their extent on each axis, whichever corner comes first. |
| LabelmeToYoloDet.Xyxy2XywhExtent | tools/labelme_to_yolo_det.py:22-27 | The box's width and height are never negative. Un-normalised, its two edges on each axis are the minimum and the maximum of the two corners. |
| LabelmeToYoloDet.ExtentOnAxis | tools/labelme_to_yolo_det.py:23-26 | On one axis, centre minus and plus half the size, scaled back, give the minimum and the maximum of the two coordinates. |
| LabelmeToYoloDet.Xyxy2XywhSwap | tools/labelme_to_yolo_det.py:22-27 | The order of the two corners does not matter. |
| LabelmeToYoloDet.DetLine | tools/labelme_to_yolo_det.py:36-42 | Encoding a shape fails iff it has fewer than two points or its label is not a class. The error names the cause: a missing corner first, then an unknown class. |
| LabelmeToYoloDet.DetLineFields | tools/labelme_to_yolo_det.py:36-42 | A line's fields are the index of the label's first occurrence in the class list, then the formatted centre x, centre y, width and height made from the first two points. |
| LabelmeToYoloDet.ConvertLabelmeToYolo | tools/labelme_to_yolo_det.py:30-42 | The conversion succeeds iff every shape encodes. It then gives one line per shape, in shape order. Otherwise the error is that of the first shape that fails. |
| LabelmeToYoloSeg.ScaleBack | tools/labelme_to_yolo_seg.py:18-19 | Dividing a coordinate by the image size and multiplying back by it gives the coordinate again. |
| LabelmeToYoloSeg.Normalized | tools/labelme_to_yolo_seg.py:15-21 | A polygon of `n` points normalises to `2n` coordinates. |
| LabelmeToYoloSeg.NormalizedAt | tools/labelme_to_yolo_seg.py:17-20 | Coordinates `2i` and `2i+1` are the x and y of point `i`, each divided by the width or the height. |
| LabelmeToYoloSeg.Denormalized | tools/labelme_to_yolo_seg.py:15-21 | Regrouping `2n` coordinates gives `n` points. |
| LabelmeToYoloSeg.NormalizedRoundTrip | tools/labelme_to_yolo_seg.py:15-21 | Normalising a polygon and scaling it back gives the same polygon. |
| LabelmeToYoloSeg.NormalizePolygon | tools/labelme_to_yolo_seg.py:15-21 | The loop extends the coordinate list point by point and returns exactly the normalised polygon. |
| LabelmeToYoloSeg.SegLine | tools/labelme_to_yolo_seg.py:29-40 | Encoding a shape fails iff its label is not a class, and the error names that label. |
| LabelmeToYoloSeg.SegLineFields | tools/labelme_to_yolo_seg.py:32-40 | For a polygon of `n` points, the line has `1 + 2n` fields: the class index, then each normalised coordinate, formatted. |
| LabelmeToYoloSeg.SegLineEmptyPolygon | tools/labelme_to_yolo_seg.py:37-40 | A shape with no points still gives a line: the class index followed by a single space. |
| LabelmeToYoloSeg.ConvertLabelmeToYoloSeg | tools/labelme_to_yolo_seg.py:24-40 | The conversion succeeds iff every label is a class. It then gives one line per shape, in order. Otherwise the error is that of the first unknown label. |
| YoloDetToLabelme.Corners | tools/yolo_det_to_labelme.py:31-37 | The corners span the box's width and height in pixels and are centred on its pixel centre. For a box of non-negative size, the first corner is the top-left one. |
| YoloDetToLabelme.CornerSpan | tools/yolo_det_to_labelme.py:33-36 | On one axis, the corners are `size` apart, with their midpoint at `mid`, scaled by the image size. |
| YoloDetToLabelme.CornersOfXywh | tools/yolo_det_to_labelme.py:31-37 | Decoding the normalised box of an ordered pair of corners gives those corners back. |
| YoloDetToLabelme.XywhOfCorners | tools/yolo_det_to_labelme.py:31-37 | Encoding the corners of a box of non-negative size gives the box back. |
| YoloDetToLabelme.UnscaleAxis | tools/yolo_det_to_labelme.py:33-36 | On one axis, the centre and the size are recovered from the two edges. |
| YoloDetToLabelme.Trunc | tools/yolo_det_to_labelme.py:58 | `int(x)` truncates toward zero. |
| YoloDetToLabelme.PyIndex | tools/yolo_det_to_labelme.py:58 | Python list indexing succeeds iff `-len <= i < len`. A negative index counts from the end. |
| YoloDetToLabelme.ParseFields | tools/yolo_det_to_labelme.py:32 | `map(float, ...)` succeeds iff every token parses. It then gives each token's value, in order. |
| YoloDetToLabelme.ParseLine | tools/yolo_det_to_labelme.py:32 | A line parses iff it has exactly five whitespace-separated fields and each is a float. The result is the class value and the box. Otherwise the error names the line. |
| YoloDetToLabelme.LineShape | tools/yolo_det_to_labelme.py:55-64 | A line gives a shape iff it parses and its truncated class value is a valid Python index into the class list. Otherwise the error is the parse error or the out-of-range index. |
| YoloDetToLabelme.ReplaceAllNoDot | tools/yolo_det_to_labelme.py:47 | Replacing a pattern that starts with `.` leaves a text without dots unchanged. |
| YoloDetToLabelme.ImagePathOfStem | tools/yolo_det_to_labelme.py:47 | For a stem without dots, `stem.txt` becomes `stem.jpg`. |
| YoloDetToLabelme.LineShapes | tools/yolo_det_to_labelme.py:54-64 | There is one conversion step per line. |
| YoloDetToLabelme.ShapesOfSpec | tools/yolo_det_to_labelme.py:54-64 | The shapes are built iff every line converts. They are then the lines' shapes, in order; otherwise the error is that of the first failing line. |
| YoloDetToLabelme.BuildDocument | tools/yolo_det_to_labelme.py:44-64 | Builds a fresh document from the template, with the image path, height and width set and the lines' shapes appended in order. Any line error aborts the build, which returns that error. |
| YoloDetToLabelme.AppendShapes | tools/yolo_det_to_labelme.py:54-64 | The loop appends the shape of every line to the document, in order, or stops with the error of the first line that fails. |
| YoloDetToLabelme.ConvertYoloToLabelme | tools/yolo_det_to_labelme.py:40-64 | The same as `BuildDocument`, applied to the file's stripped, non-blank lines. |
| YoloDetToLabelme.LineShapeIsRectangle | tools/yolo_det_to_labelme.py:56-63 | Every shape built from a line is a `rectangle` with no group id and no flags. Its label is `classes[int(class_id)]`, with Python's negative indexing. Its two points are the corners the line's box decodes to. A box of non-negative size gives ordered corners. |
| YoloDetToLabelme.LineShapeRoundTrip | tools/yolo_det_to_labelme.py:31-37 | Encoding the rectangle built from a line, with the detection encoder, gives back the line's box when the box's size is non-negative. |
| LabelmeToYoloPose.SplitVocabulary | tools/labelme_to_yolo_pose.py:112-114 | Splitting the vocabulary fails iff there is no empty line. Otherwise the classes, an empty line and the keypoint names rebuild the input, and the split is at the first empty line. |
| LabelmeToYoloPose.CheckVisibilityAsWritten | tools/labelme_to_yolo_pose.py:36-42 | The check as written: it passes iff `group_id` is present and at most 2. A missing `group_id` raises. |
| LabelmeToYoloPose.Visibility | tools/labelme_to_yolo_pose.py:36-42 | The intended check: a missing `group_id` becomes visibility 2, a value of at most 2 is kept, and a larger one is rejected. |
| LabelmeToYoloPose.VisibilityFinding | tools/labelme_to_yolo_pose.py:36-42 | The check as written and the intended check agree on every present `group_id`. They differ only on a missing one, which the code rejects and the intent maps to 2. |
| LabelmeToYoloPose.CheckVisibility | tools/labelme_to_yolo_pose.py:36-42 | Both rules give the intended result on a present `group_id`. On a missing one only the intended rule succeeds; the rule as written fails with `NullGroupId`. |
| LabelmeToYoloPose.EmptySlots | tools/labelme_to_yolo_pose.py:33 | The keypoint slot map has exactly the keypoint names as keys, all empty. |
| LabelmeToYoloPose.ParseShape | tools/labelme_to_yolo_pose.py:35-54 | Sorting one shape fails on a bad visibility under the rule in force, or when it has too few points for its type. A `rectangle` gives a box with the first two points and empty slots. A `point` gives a keypoint with its first point and its visibility. Any other type is ignored. |
| LabelmeToYoloPose.OfType | tools/labelme_to_yolo_pose.py:47-54 | The shapes of one `shape_type` all come from the document and all have that type, and there are no more of them than the document has. |
| LabelmeToYoloPose.SortShapesSpec | tools/labelme_to_yolo_pose.py:35-54 | Sorting succeeds iff every shape sorts. Otherwise the first bad shape decides the error. |
| LabelmeToYoloPose.SortedRects | tools/labelme_to_yolo_pose.py:47-50 | The sorted boxes are the document's `rectangle` shapes in document order. Box `j` has the label and the first two points of the `j`-th rectangle shape, and all of its slots empty. |
| LabelmeToYoloPose.SortedPoints | tools/labelme_to_yolo_pose.py:51-54 | The sorted keypoints are the document's `point` shapes in document order. Keypoint `k` has the label and first point of the `k`-th point shape, and the visibility its rule gives. |
| LabelmeToYoloPose.SortShapesPrefixErr | tools/labelme_to_yolo_pose.py:35-39 | Once a shape fails, the later shapes do not change the outcome. |
| LabelmeToYoloPose.RulesAgree | tools/labelme_to_yolo_pose.py:35-54 | When every shape has a `group_id`, sorting gives the same result under the check as written and under the intended check. |
| LabelmeToYoloPose.ClassifyShapes | tools/labelme_to_yolo_pose.py:30-54 | The loop over the shapes, with the `group_id` check as written, computes exactly the sorted boxes and keypoints, or the first shape's error. |
| LabelmeToYoloPose.ContainsSwap | tools/labelme_to_yolo_pose.py:62-65 | The containment test does not depend on the order of the box's corners. |
| LabelmeToYoloPose.ContainsOrdered | tools/labelme_to_yolo_pose.py:62-65 | For ordered corners, containment is the closed range test on both axes. |
| LabelmeToYoloPose.ContainsCorners | tools/labelme_to_yolo_pose.py:62-65 | A box contains its own four corners: the boundary is inclusive. |
| LabelmeToYoloPose.JoinPoint | tools/labelme_to_yolo_pose.py:61-69 | Placing one keypoint keeps the number of boxes. |
| LabelmeToYoloPose.JoinAll | tools/labelme_to_yolo_pose.py:58-69 | Placing all keypoints keeps the number of boxes. |
| LabelmeToYoloPose.PlaceAllKeepsBox | tools/labelme_to_yolo_pose.py:58-69 | Placing keypoints changes a box's slots only, never its label or corners. |
| LabelmeToYoloPose.JoinAllPointwise | tools/labelme_to_yolo_pose.py:58-69 | Each box receives exactly the keypoints placed into it alone: boxes do not interact. |
| LabelmeToYoloPose.PlaceAllLastHit | tools/labelme_to_yolo_pose.py:65-68 | The slot of a keypoint name holds the last keypoint of that name that lies inside the box. |
| LabelmeToYoloPose.PlaceAllNoHit | tools/labelme_to_yolo_pose.py:65-68 | With no keypoint of that name inside the box, the slot is unchanged. |
| LabelmeToYoloPose.PlaceAllKeepsSlots | tools/labelme_to_yolo_pose.py:68 | Placing keypoints never removes a slot. |
| LabelmeToYoloPose.JoinAllOrphan | tools/labelme_to_yolo_pose.py:58-69 | A keypoint that lies in no box changes no box. |
| LabelmeToYoloPose.Orphans | tools/labelme_to_yolo_pose.py:56-73 | The outside points are exactly the keypoint coordinates that lie in no box. |
| LabelmeToYoloPose.JoinAllKeepsBoxes | tools/labelme_to_yolo_pose.py:58-69 | After the join, every box keeps its label and what it contains, so being inside some box does not change. |
| LabelmeToYoloPose.PlacePoint | tools/labelme_to_yolo_pose.py:61-69 | The inner loop places the keypoint into every box that contains it. It marks the keypoint as inside iff some box contains it. |
| LabelmeToYoloPose.JoinPoints | tools/labelme_to_yolo_pose.py:56-73 | The nested loops compute exactly the joined boxes and the set of outside points. |
| LabelmeToYoloPose.Triple | tools/labelme_to_yolo_pose.py:83-91 | Each keypoint contributes three values. |
| LabelmeToYoloPose.SlotValues | tools/labelme_to_yolo_pose.py:83-91 | `n` keypoint names contribute `3n` values. |
| LabelmeToYoloPose.SlotValuesAt | tools/labelme_to_yolo_pose.py:83-91 | Values `3i` to `3i+2` belong to keypoint name `i`. They are its normalised, rounded position and its visibility, or three zeros when the slot is empty. |
| LabelmeToYoloPose.BoxPart | tools/labelme_to_yolo_pose.py:81-82 | The box contributes four values. |
| LabelmeToYoloPose.RecordLayout | tools/labelme_to_yolo_pose.py:81-91 | A record holds `4 + 3n` values: the rounded box, then one triple per keypoint name in vocabulary order. |
| LabelmeToYoloPose.EncodeRecord | tools/labelme_to_yolo_pose.py:81-91 | The loop over the keypoint order builds exactly that record. |
| LabelmeToYoloPose.RecordLineFor | tools/labelme_to_yolo_pose.py:93-96 | Writing a box fails iff its label is not a class, and the error names that label. |
| LabelmeToYoloPose.EncodeAll | tools/labelme_to_yolo_pose.py:80-96 | When writing succeeds, there is one line per box. |
| LabelmeToYoloPose.EncodeAllOutcome | tools/labelme_to_yolo_pose.py:80-96 | Writing succeeds iff every box's label is a class. Otherwise the first unknown label decides the error. |
| LabelmeToYoloPose.EncodeAllLines | tools/labelme_to_yolo_pose.py:80-96 | When every label is a class, line `j` is box `j`'s record line. |
| LabelmeToYoloPose.EncodeAllPrefixErr | tools/labelme_to_yolo_pose.py:80-96 | Once a box fails, the later boxes do not change the outcome. |
| LabelmeToYoloPose.WriteRecords | tools/labelme_to_yolo_pose.py:79-96 | The writer loop produces exactly one record line per box, in order, or the error of the first box whose label is not a class. |
| LabelmeToYoloPose.JoinedHaveSlots | tools/labelme_to_yolo_pose.py:49-68 | After the join, every box still has a slot for every keypoint name. |
| LabelmeToYoloPose.SortedSlotsEmpty | tools/labelme_to_yolo_pose.py:47-50 | Every box of a sorted document starts with all of its keypoint slots empty. |
| LabelmeToYoloPose.ConvertLabelmeToYolo | tools/labelme_to_yolo_pose.py:24-96 | The converter, with the `group_id` check as written, computes exactly the sort, the join, the outside points and the encoding, in that order. |
| LabelmeToYoloPose.ConvertOutcome | tools/labelme_to_yolo_pose.py:24-96 | The conversion succeeds iff every shape passes its checks and every `rectangle` shape's label is a class. It then writes one line per `rectangle` shape. |
| LabelmeToYoloPose.ConvertNullGroupId | tools/labelme_to_yolo_pose.py:35-36 | As written, the first shape without a `group_id` stops the conversion with `NullGroupId`, unless an earlier shape has already failed. |
| LabelmeToYoloPose.ConvertRulesAgree | tools/labelme_to_yolo_pose.py:35-42 | When every shape has a `group_id`, the conversion as written and the corrected conversion give the same result. |
| LabelmeToYoloPose.ConvertRecord | tools/labelme_to_yolo_pose.py:79-96 | Line `j` belongs to the `j`-th `rectangle` shape of the document. Its box has that shape's label and first two points. The line holds the index of the class, then `4 + 3n` formatted values, so `5 + 3n` fields. |
| LabelmeToYoloPose.ConvertSlots | tools/labelme_to_yolo_pose.py:58-69 | In the record of the `j`-th `rectangle` shape, the slot for a keypoint name holds the last `point` shape of that name, in document order, that lies inside the box. When there is none, the slot is empty. |
| LabelmeToYoloPose.SortShapesAppendPoint | tools/labelme_to_yolo_pose.py:51-54 | A valid `point` shape at the end of the document adds one keypoint at the end of the sorted keypoints and leaves the boxes unchanged. |
| LabelmeToYoloPose.OrphansAppend | tools/labelme_to_yolo_pose.py:56-73 | A keypoint that lies in no box adds its position to the outside points. |
| LabelmeToYoloPose.OutsideSortedRects | tools/labelme_to_yolo_pose.py:62-65 | A position outside the box of every `rectangle` shape lies in no sorted box. |
| LabelmeToYoloPose.ConvertOrphan | tools/labelme_to_yolo_pose.py:56-77 | Adding a valid `point` shape outside every `rectangle` shape leaves the success, the lines and the error unchanged, and adds its position to the outside points. |
| SearchDataByLabel.OperatorOf | tools/search_data_by_label.py:15-22 | An operator symbol is known iff it is one of the six in the table. |
| SearchDataByLabel.OperatorTable | tools/search_data_by_label.py:15-22 | Symbols and operators correspond one to one. |
| SearchDataByLabel.ApplyNegations | tools/search_data_by_label.py:15-22 | `!=`, `<=` and `>=` are the negations of `=`, `>` and `<`. |
| SearchDataByLabel.ParseRule | tools/search_data_by_label.py:65-94 | A parsed rule's count is never negative. A rule is rejected as badly formed iff it has more than three `:`-separated parts. |
| SearchDataByLabel.ParseRuleNameOnly | tools/search_data_by_label.py:71-72 | A bare name means the default operator with count 1. |
| SearchDataByLabel.ParseRuleWithCount | tools/search_data_by_label.py:73-92 | `name:n` means the default operator with count `n`. A negative `n` is rejected with that count. |
| SearchDataByLabel.SplitThree | tools/search_data_by_label.py:70-76 | `name:op:count` splits into exactly those three parts. |
| SearchDataByLabel.ParseRuleCountText | tools/search_data_by_label.py:73-92 | For `name:c` with any count text `c`: a text `int()` rejects (`cat:abc`, `cat:1.5`) is a bad count, and so is a negative count. Otherwise the result is the default operator with `int(c)`. |
| SearchDataByLabel.ParseRuleFull | tools/search_data_by_label.py:75-92 | For `name:op:n`: an unknown operator is rejected, a negative count is rejected, and otherwise the result is that operator and count. |
| SearchDataByLabel.ParseRuleFullText | tools/search_data_by_label.py:75-92 | For `name:op:c` with any count text `c`: an unknown operator is rejected. With a known one, a text `int()` rejects (`cat:>:1.5`) or a negative count is a bad count. Otherwise the result is that operator with `int(c)`. |
| SearchDataByLabel.ParseAll | tools/search_data_by_label.py:67 | There is one parse step per rule. |
| SearchDataByLabel.CollectOutcome | tools/search_data_by_label.py:67-96 | Collecting parsed rules succeeds iff every rule parses. Otherwise the first bad rule's error is reported. |
| SearchDataByLabel.CollectContents | tools/search_data_by_label.py:94 | The rule map's keys are exactly the rule names, and a repeated name keeps its last rule. |
| SearchDataByLabel.ParseRulesSpec | tools/search_data_by_label.py:65-96 | `parse_rule_pairs` succeeds iff every rule parses, and the first bad rule decides the error. On success, every name maps to its last rule. |
| SearchDataByLabel.CollectPrefixErr | tools/search_data_by_label.py:67-92 | Once a rule fails, the later rules do not change the outcome. |
| SearchDataByLabel.ParseRulePairs | tools/search_data_by_label.py:65-96 | The loop computes exactly that rule map or that first error. |
| SearchDataByLabel.TallyCounts | tools/search_data_by_label.py:32-51 | Each name is counted iff it occurs. Its count is its number of occurrences. |
| SearchDataByLabel.TallyAppend | tools/search_data_by_label.py:40 | Counting one more name adds one to its count. |
| SearchDataByLabel.Tokens | tools/search_data_by_label.py:35-36 | There is one token list per line. |
| SearchDataByLabel.FirstTokens | tools/search_data_by_label.py:37-39 | Blank lines give no key, so there are at most as many keys as lines. |
| SearchDataByLabel.Names | tools/search_data_by_label.py:47-48 | There is one stripped label per shape. |
| SearchDataByLabel.NonEmpty | tools/search_data_by_label.py:49 | Empty labels are skipped, and every key counted is non-empty. |
| SearchDataByLabel.FirstTokensStep | tools/search_data_by_label.py:35-40 | A line contributes its first field, or nothing when it is blank. |
| SearchDataByLabel.NonEmptyStep | tools/search_data_by_label.py:47-50 | A shape contributes its stripped label, or nothing when that is empty. |
| SearchDataByLabel.CountTxtStep | tools/search_data_by_label.py:36-41 | Counting line `i` adds one to the count of its first field, if it has one, and changes nothing else. |
| SearchDataByLabel.CountJsonStep | tools/search_data_by_label.py:46-51 | Counting shape `i` adds one to the count of its stripped label, if that is not empty, and changes nothing else. |
| SearchDataByLabel.CountTxt | tools/search_data_by_label.py:33-41 | Counting a `.txt` label gives, for each class id, the number of non-blank lines that start with it. |
| SearchDataByLabel.CountJson | tools/search_data_by_label.py:43-51 | Counting a `.json` label gives, for each non-empty stripped label, the number of shapes that carry it. |
| SearchDataByLabel.LoadLabels | tools/search_data_by_label.py:31-53 | Gives counts for a `.txt` or `.json` file and nothing for any other suffix. |
| SearchDataByLabel.TxtKeysSpec | tools/search_data_by_label.py:35-38 | A `.txt` label has no keys iff every line is blank. |
| SearchDataByLabel.TotalRemove | tools/search_data_by_label.py:101 | The total of all counts is any one count plus the total of the rest. |
| SearchDataByLabel.TotalOfTally | tools/search_data_by_label.py:101 | The total of the counts equals the number of keys counted. |
| SearchDataByLabel.SumCounts | tools/search_data_by_label.py:101 | The loop sums exactly the total of all counts. |
| SearchDataByLabel.TotalOutcomeSpec | tools/search_data_by_label.py:144-152 | A total of 0 is skipped. A positive total `t` matches iff the label total is at least `t`. A negative total is rejected as a bad count. |
| SearchDataByLabel.Matching | tools/search_data_by_label.py:99-154 | `check_rule_matching` gives true only when some mode matched. An error is that of the first mode whose rules fail to parse, and every earlier mode was parsed and missed. |
| SearchDataByLabel.MatchingNoRules | tools/search_data_by_label.py:154 | With no rules at all, nothing matches. |
| SearchDataByLabel.MatchingPriority | tools/search_data_by_label.py:104-141 | A match under an earlier mode decides the result: any, then all, then exact. |
| SearchDataByLabel.MatchingOutcome | tools/search_data_by_label.py:99-154 | The file fails to match iff every mode reports no match. |
| SearchDataByLabel.AnyHolds | tools/search_data_by_label.py:106-109 | The loop answers exactly whether some rule holds. |
| SearchDataByLabel.AllHold | tools/search_data_by_label.py:114-123 | The loop answers exactly whether every rule holds. |
| SearchDataByLabel.CheckRuleMatching | tools/search_data_by_label.py:99-154 | Gives exactly the combined outcome of the modes in that order, including the first rule error. |
| SearchDataByLabel.SelectedNeedsLabels | tools/search_data_by_label.py:211-217 | A label file with no counted labels is never selected. |
| SearchDataByLabel.CountsTotal | tools/search_data_by_label.py:31-53 | A file's total count equals its number of counted entries. |
| ModifyLabel.ModifyTxt | tools/modify_label.py:17-39 | The loop computes exactly the new text of a `.txt` label, or its first error. |
| ModifyLabel.LineStepOutcome | tools/modify_label.py:23-34 | A line fails iff its first field is not an integer, or it is of the old class and the new name is not a class. The error names which. |
| ModifyLabel.NewLinesOutcome | tools/modify_label.py:17-34 | Editing fails when the old name is not a class. Otherwise it succeeds iff every line is acceptable, and the first bad line decides the error. |
| ModifyLabel.SurvivorsSpec | tools/modify_label.py:25-30 | The kept lines are exactly the lines of other classes. |
| ModifyLabel.DeleteSteps | tools/modify_label.py:25-30 | Without a new name, the loop keeps exactly the lines of other classes, in order. |
| ModifyLabel.DeleteSpec | tools/modify_label.py:17-30 | Deleting removes every line of the old class and keeps the others unchanged and in order. |
| ModifyLabel.PresentAllSome | tools/modify_label.py:22-34 | When no line is dropped, the output has one line per input line. |
| ModifyLabel.RenameSpec | tools/modify_label.py:23-34 | Renaming keeps the line count and leaves lines of other classes unchanged. A line of the old class has its leading id replaced by the new one. |
| ModifyLabel.RenamePrefixFields | tools/modify_label.py:32-33 | A line spelled `old_id rest` becomes `new_id rest`, whose class is the new id. |
| ModifyLabel.ClassOfLeading | tools/modify_label.py:24 | The class of `str(n) + " " + rest` is `n`. |
| ModifyLabel.RenameLeadingZero | tools/modify_label.py:24-33 | `01 0.5` has class 1, but the textual replacement leaves it unchanged. |
| ModifyLabel.StrippedClean | tools/modify_label.py:19 | When no file line holds a line feed, every stripped, non-blank line is non-empty and holds no line feed. |
| ModifyLabel.StripSlice | tools/modify_label.py:19 | A stripped text is a slice of the original. |
| ModifyLabel.LineStepClean | tools/modify_label.py:25-34 | A kept or renamed line stays free of line feeds. |
| ModifyLabel.PresentClean | tools/modify_label.py:22-34 | Every output line is free of line feeds. |
| ModifyLabel.ModifiedTextLines | tools/modify_label.py:36-37 | The written text is empty iff no line remains. Otherwise splitting it at line feeds gives the new lines back, with no trailing line feed. |
| ModifyLabel.JoinLast | tools/modify_label.py:37 | Joining one or more non-empty lines that hold no line feed gives a non-empty text that does not end with a line feed. |
| ModifyLabel.CountNamed | tools/modify_label.py:46-54 | The number of shapes with a label is at most the number of shapes. |
| ModifyLabel.WithoutSpec | tools/modify_label.py:46-49 | Deleting keeps exactly the shapes with another label, and removes as many shapes as had the old label. |
| ModifyLabel.Renamed | tools/modify_label.py:51-54 | Renaming keeps the number of shapes. |
| ModifyLabel.RenamedCounts | tools/modify_label.py:51-54 | After renaming, no shape has the old label. The new label counts the shapes that had either label. |
| ModifyLabel.RenamedKeepsGeometry | tools/modify_label.py:51-54 | Renaming changes labels only: points, group, type and flags stay. Shapes with other labels are untouched. |
| ModifyLabel.ModifyJson | tools/modify_label.py:42-57 | Updates the document's shapes in place: with no new name it keeps exactly the other shapes, and with a new name it relabels the matching shapes. |
| ModifyLabel.ModifyLabel | tools/modify_label.py:74-87 | The directory loop computes exactly the writes made and the error that stops it. |
| ModifyLabel.RunAfterFailure | tools/modify_label.py:79-87 | After the first error, no later file is rewritten. |
| ModifyLabel.RunSkipsClassFile | tools/modify_label.py:80-82 | `classes.txt` itself is never rewritten. |
| ModifyLabel.RunWithoutClassList | tools/modify_label.py:74-84 | With no class list, the run fails iff there is a `.txt` label other than `classes.txt`, and the error is the missing class list. |
| FindUnlabeledData.NoLabelTxt | tools/find_unlabeled_data.py:56-61 | A readable `.txt` label is unusable iff all its lines are blank or some line has fewer than five fields. |
| FindUnlabeledData.IsNoLabelFile | tools/find_unlabeled_data.py:50-72 | A `.json` label is unusable iff it does not parse or has no shapes. A missing, empty or unreadable file is unusable. A file with any other suffix is not. |
| FindUnlabeledData.RFind | tools/find_unlabeled_data.py:109 | Finds the last occurrence of a character, or reports that there is none. |
| FindUnlabeledData.RFindLast | tools/find_unlabeled_data.py:109 | No occurrence comes after the one found. |
| FindUnlabeledData.StemSuffix | tools/find_unlabeled_data.py:106-114 | The stem followed by the suffix is the name. A non-empty suffix is a dot and at least one more character, with no further dot, after a non-empty stem. |
| FindUnlabeledData.Lower | tools/find_unlabeled_data.py:109 | Lower-casing keeps the length. |
| FindUnlabeledData.RFindAfter | tools/find_unlabeled_data.py:109 | In `a.t` where `t` has no dot, the last dot is the one after `a`. |
| FindUnlabeledData.SuffixAfter | tools/find_unlabeled_data.py:106-114 | For `a.t`, with `a` non-empty and `t` non-empty and without a dot, the suffix is `.t` and the stem is `a`. |
| FindUnlabeledData.IsImageAfter | tools/find_unlabeled_data.py:106-110 | `a.t`, where `t` has no dot, is an image iff `.t` in lower case is one of the image suffixes. So the case of the suffix does not matter, and `a` may hold dots of its own. |
| FindUnlabeledData.NonImageSuffixes | tools/find_unlabeled_data.py:12-23 | `a.txt` is not an image, and neither is `.jpg`, whose suffix is empty. |
| FindUnlabeledData.ImageFilesSpec | tools/find_unlabeled_data.py:106-110 | A name is among the image files iff some entry of that name is a regular file with an image suffix. |
| FindUnlabeledData.RunLast | tools/find_unlabeled_data.py:113-134 | The run over one more image is the earlier run followed by that image's pass, which sees the label directory the earlier run left. |
| FindUnlabeledData.ProcessData | tools/find_unlabeled_data.py:96-134 | The loop makes exactly the transfers of the run and leaves the label directory as the run does. `processed` counts the transfers, and the number of images checked is reported. |
| FindUnlabeledData.StepPrefersTxt | tools/find_unlabeled_data.py:129 | When the `.txt` label exists, the `.json` label plays no part. |
| FindUnlabeledData.StepOutcomes | tools/find_unlabeled_data.py:121-134 | An image with no label goes to "single" iff that category is wanted. An unusable label sends the image and the label to "nolabel" when wanted, and a move removes the label. A usable label does nothing. At most two files move per image. |
| FindUnlabeledData.RunRespectsMode | tools/find_unlabeled_data.py:96-134 | Every transfer goes to a category that the mode creates. |
| FindUnlabeledData.RunLabels | tools/find_unlabeled_data.py:133 | The run only removes label files, never changes one, and removes nothing when copying. |
| FindUnlabeledData.ImageStem | tools/find_unlabeled_data.py:109-114 | An image has a suffix, so its stem is not empty. |
| FindUnlabeledData.LabelNameSuffixes | tools/find_unlabeled_data.py:114-116 | The label names of an image, `stem.txt` and `stem.json`, have the suffixes `.txt` and `.json`. |
| FindUnlabeledData.CheckedLabelFits | tools/find_unlabeled_data.py:118-130 | In a well-formed label directory, the label checked for an image exists. It is empty, unreadable, or the text or document that its own suffix names, never the "other suffix" case of `is_nolabel_file`. |
| FindUnlabeledData.RunKeepsWellFormed | tools/find_unlabeled_data.py:113-134 | The run only removes labels, so a well-formed label directory stays well-formed. |
| FindUnlabeledData.RunPrefix | tools/find_unlabeled_data.py:113 | Images are handled in order: the transfers for the first images start the transfers for all of them. |
| FindUnlabeledData.StepAsWrittenAgrees | tools/find_unlabeled_data.py:121-134 | A pass of the loop as written that does not raise does what the corrected pass does. In mode "all" it never raises. |
| FindUnlabeledData.RunAsWritten | tools/find_unlabeled_data.py:112-134 | The loop as written stops at the first `KeyError`. The key it raises for is `"single"` or `"nolabel"`, and only when the mode did not create that bin. |
| FindUnlabeledData.RunAsWrittenState | tools/find_unlabeled_data.py:112-134 | A run of the loop as written that does not raise ends with the corrected transfers and label directory. |
| FindUnlabeledData.RunAsWrittenAll | tools/find_unlabeled_data.py:97-134 | In mode "all", the loop as written never raises. |
| FindUnlabeledData.RunAsWrittenPrefix | tools/find_unlabeled_data.py:112-134 | The transfers made by the loop as written, up to the point where it raises, are a prefix of the corrected transfers. |
| FindUnlabeledData.RunAsWrittenAgrees | tools/find_unlabeled_data.py:112-134 | Until it raises, the loop as written makes the corrected transfers. What it has moved before raising is a prefix of the corrected transfers. In mode "all" it never raises. |
| FindUnlabeledData.ProcessDataAsWritten | tools/find_unlabeled_data.py:96-137 | `process_data` as written raises only for a bin the mode did not create. The clean-up list leaves the loop's transfers and label directory as they were. It finishes without `KeyError` only if the loop did and the mode created both bins. |
| FindUnlabeledData.AsWrittenFailsUnlessAll | tools/find_unlabeled_data.py:96-137 | As written, `process_data` raises `KeyError` in every mode but "all". In mode "all" it does what the corrected version does. |
| FindUnlabeledData.AsWrittenSingleEmpty | tools/find_unlabeled_data.py:137 | On an empty image directory, mode "single" raises on the key "nolabel", and mode "nolabel" raises on "single". |

## Left out

- File and directory I/O: it is kept out of the model.
  - Not modelled: `open`, `json.load`, `json.dump`, `Path.iterdir`, `exists`, `stat`, `shutil.copy`/`copy2`/`move`, `create_output_directory`, the image size from `PIL`, and the final `rmtree` of empty output directories (`find_unlabeled_data.py:136-140`).
  - File contents arrive as lines or shapes, and results are the lines or documents to write.
- The command-line layer: `typer` options, progress bars, `typer.echo`/`print`, and the pose tool's prompt to show results (`labelme_to_yolo_pose.py:132-134`).
- The image-copy loops of the converters (`labelme_to_yolo_det.py:52-70` and its counterparts). They only copy files and choose file names.
- In `search_data_by_label`, the lookup and copy of the image that goes with a label file, and the main loop's counter. The selection of one file is modelled, including the skip of files with no labels.
- Float arithmetic: coordinates are exact reals.
  - Not modelled: rounding, NaN, infinities and over-long fields.
  - `f"{x:.6f}"`, `round(x, 6)` and `float(text)` are the parameters `fmt6`, `round6` and `parseFloat`.
  - The field-layout lemmas only assume that `fmt6` never yields a space.
- White space and case are ASCII only: `IsSpace` covers the ASCII white-space characters, and `Lower` the ASCII letters. Python's Unicode `isspace`, `lower` and Unicode digits in `int()` are not modelled.
- `LabelmeToYoloPose.ParseShape`: the keypoint slots are a map of their own, whereas the source keeps them in the same dict as `label` and `xyxy`. A keypoint named `label` or `xyxy` would overwrite those keys; that collision is not modelled.
- LabelMe documents whose top-level value is not an object, shapes without `label`, `points` or `group_id`, and points that are not pairs. The converters would raise a `KeyError` or `TypeError` there.
  - `find_unlabeled_data` admits an unusable `.json` label (`Unparsable`), and a document without `shapes` (`ShapesMissing`, read with `data.get("shapes", [])`). A `shapes` value that is not a list is not modelled.
- `LabelmeToYoloPose.SplitVocabulary`: ending the vocabulary's last line with a line feed is not modelled. The vocabulary file arrives as the list that `splitlines()` gives.
- A partial output file when a converter raises mid-way: the model returns the error instead of the lines written so far.
- `YoloDetToLabelme.ReplaceAll`: modelled only for a non-empty pattern, which is the only one the source uses (`.txt`).
- `ModifyLabel.ModifyJson`: a document with no `shapes` key, or a shape with no `label`, is not modelled; either raises a `KeyError` in the source. The `indent=4` layout of the dump is also not modelled.
- `ModifyLabel.ModifyTxt`: `re.sub` with `MULTILINE` is modelled on a single line. The line cannot contain a line feed after `strip`, so `^` can match only at its start.
- `FindUnlabeledData.ProcessData`: a move or copy that fails inside `move_or_copy` is printed and ignored by the source. The model treats every move or copy as done, and counts it in `processed`, as the source does.
- `FindUnlabeledData.ProcessData`: the `is_dir` checks on the image and label directories (`find_unlabeled_data.py:91-94`) are not modelled.
- The context tools `show_pose.py`, `splitdata.py`, `video_to_images.py`, `generate_empty_label_file.py` and `utils.py` are not part of this model.

## Findings

| source | as written | input that shows it | evidently intended | confidence | as-written member | corrected member |
|---|---|---|---|---|---|---|
| tools/labelme_to_yolo_pose.py:36-42 | `int(shape["group_id"]) > 2` runs before the `None` default, so a shape without a `group_id` raises `TypeError`; lines 41-42 can never change anything | any shape with `"group_id": null`, such as a rectangle as LabelMe saves it | a missing `group_id` means visibility 2 | not executed | LabelmeToYoloPose.CheckVisibilityAsWritten, LabelmeToYoloPose.ConvertLabelmeToYolo, LabelmeToYoloPose.ConvertNullGroupId | LabelmeToYoloPose.Visibility, LabelmeToYoloPose.ConvertRulesAgree |
| tools/find_unlabeled_data.py:123-137 | `output_paths["single"]` and `output_paths["nolabel"]` are read directly, but only the keys that the mode creates exist, so modes "single" and "nolabel" raise `KeyError` (at the latest in the clean-up list) | `--mode single` on an empty image directory: `KeyError: 'nolabel'` at line 137 | look the categories up with `output_paths.get(...)`, so an unwanted category is skipped | not executed | FindUnlabeledData.ProcessDataAsWritten, FindUnlabeledData.AsWrittenFailsUnlessAll, FindUnlabeledData.AsWrittenSingleEmpty | FindUnlabeledData.ProcessData |
