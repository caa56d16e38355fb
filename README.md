# DrBone core in Dafny

DrBone takes an X-ray through a YOLO fracture detector and analyses the
contours of each detected zone. It attaches AI commentary and then lays out a
PDF report. This project models the four pieces of the pipeline that hold
its own logic, and proves properties of them:

- `values.dfy` (module `Values`): the Python dictionaries the pipeline passes
  around. A record is a `map<string, Value>`, where a `Value` is `None`, a
  string or a number, and `dict.get` with a default is modelled as `Get`.
- `geometry.dfy` (module `Geometry`): `analyze_contours`. The contours arrive
  as records of their area and first moments. The annotated image is a
  `Canvas` class whose `ops` field records every drawing call in order.
  `np.sqrt`, `round` and `cv2.matchShapes` arrive as a `Numerics` value. The
  method `AnalyzeContours` fills the entry field by field and draws on the
  canvas, as the source does. Its result and new canvas are tied to the
  function `Analyze`, and the lemmas state the source's promises about
  `Analyze`.
- `detector.dfy` (module `Detector`): the box loop of `run_yolo`. It covers
  the sharpness clamp, the shift normalisation, the uncertainty blend and the
  zone labels "Fracture Zone 1", "Fracture Zone 2", and so on. The nested
  loops are methods. Their report list and both canvases are tied to
  `Records`, `Outlines` and `Annotations` of the flattened detections.
- `text.dfy` (module `Text`): `clean_text`, which applies Python's
  `str.strip()` and then deletes every run of `*`.
- `report.dfy` (module `Report`): the data side of `create_pdf_report`:
  - the summary table with its "N/A" defaults;
  - the chain of literal substitutions on the doctor notes;
  - the story as a list of abstract items, where a missing logo or image
    becomes a warning paragraph.

Two facts about the code are worth stating up front:

- The uncertainty is a percentage, but the code halves the geometric term
  (models/detector.py:39), so within the nominal ranges it never exceeds 85.
  The model proves the bound and that it is reached.
- When a field such as "Shift (mm)" is present with the value None,
  `entry.get(key, "N/A")` gives None, not "N/A". The summary row keeps it as
  `Null` (`Report.NoneIsNotMissing`).

## Model

| member | source | states |
|---|---|---|
| Text.StripLeft | utils/ai_doctor.py:10 | the leading half of `strip()`: the result is a suffix of the text, everything dropped before it is whitespace, and it does not start with whitespace |
| Text.IsSpace | utils/ai_doctor.py:10 | the characters Python's `str.strip()` removes, those for which `str.isspace()` holds; what stripping them means is stated by `Text.StripLeft`, `Text.StripRight` and `Text.StripOfPadded` |
| Text.StripRight | utils/ai_doctor.py:10 | the trailing half of `strip()`: the result is a prefix of the text, everything dropped after it is whitespace, and it does not end with whitespace |
| Text.Strip | utils/ai_doctor.py:10 | `strip()` leaves no surrounding whitespace and never lengthens the text |
| Text.RemoveStars | utils/ai_doctor.py:10 | `re.sub(r"\*+", "", s)` leaves no `*` and never lengthens the text |
| Text.CleanText | utils/ai_doctor.py:10 | the output of `clean_text` contains no `*` and is no longer than its input |
| Text.StripLeftPadded | utils/ai_doctor.py:10 | left-stripping whitespace followed by text that starts with a non-space gives exactly that text |
| Text.StripRightPadded | utils/ai_doctor.py:10 | right-stripping text that ends with a non-space followed by whitespace gives exactly that text |
| Text.StripOfPadded | utils/ai_doctor.py:10 | `strip` removes exactly the surrounding whitespace: strip(a + m + b) = m for whitespace a, b and bare m |
| Text.StripBare | utils/ai_doctor.py:10 | text with no surrounding whitespace is unchanged by `strip` |
| Text.RemoveStarsAppend | utils/ai_doctor.py:10 | deleting asterisks distributes over concatenation, so every other character keeps its order |
| Text.RemoveStarsCounts | utils/ai_doctor.py:10 | deleting asterisks removes every `*` and keeps every other character as many times as it occurs |
| Text.RemoveStarsNoStars | utils/ai_doctor.py:10 | text without `*` is unchanged by the deletion |
| Text.RemoveStarsIdempotent | utils/ai_doctor.py:10 | deleting asterisks twice equals deleting them once |
| Text.CleanTextOfPadded | utils/ai_doctor.py:10 | clean_text(a + m + b) is m with its asterisks removed, for whitespace a, b and bare m |
| Text.CleanTextFixesClean | utils/ai_doctor.py:10 | text with no `*` and no surrounding whitespace is returned unchanged |
| Text.CleanTextIdempotentWhenBare | utils/ai_doctor.py:10 | cleaning twice equals cleaning once whenever the first result has no surrounding whitespace |
| Text.CleanTextNotIdempotent | utils/ai_doctor.py:10 | not idempotent in general: "* a" cleans to " a", which cleans to "a" |
| Geometry.Canvas.Draw | utils/image_processing.py:25-46 | a drawing call appends exactly one operation to the image and changes nothing else |
| Geometry.Trunc | utils/image_processing.py:22-23 | Python's `int()` on a float truncates toward zero: it rounds down for non-negative values and up for negative ones |
| Geometry.FirstLargest | utils/image_processing.py:15 | the index picked has the largest area among the candidates, and it is the first such index, as the stable descending sort orders it |
| Geometry.TopTwoLargest | utils/image_processing.py:15-16 | the two contours kept are distinct, area(cnt1) >= area(cnt2) >= the area of every discarded contour, and ties go to the earlier contour |
| Geometry.TopTwo | utils/image_processing.py:15 | the indices of the first two contours of `sorted(contours, key=cv2.contourArea, reverse=True)`; that they are distinct, the two largest and tie-broken by position is stated by `Geometry.TopTwoLargest` |
| Geometry.SquaredLength | utils/image_processing.py:53 | dx² + dy² is zero exactly when both offsets are zero |
| Geometry.DistSq | utils/image_processing.py:28-29 | the squared distance of two centroids is zero exactly when they coincide |
| Geometry.Analyze | utils/image_processing.py:9-58 | the entry always has exactly the three keys Shift (px), Shift (mm) and Shape Diff, and Shift (mm) is never a string |
| Geometry.MarkCentroids | utils/image_processing.py:17-25 | the centroid loop returns the centroids of the contours with m00 != 0, in order, and draws one circle per centroid |
| Geometry.DrawShiftLine | utils/image_processing.py:33-46 | the image gains the line between the centroids, then the outlined label, then the filled label, both at the midpoint shifted up by 10 |
| Geometry.MeasureShift | utils/image_processing.py:28-48 | the entry gets px = round(shift, 2), mm = round(shift * px_to_mm, 2) and Shape Diff = round(matchShapes, 3), with shift the distance of the centroids; the line and labels are drawn |
| Geometry.AnalyzePair | utils/image_processing.py:15-48 | the two-contour branch yields the entry and the drawings `Analyze` gives for the chosen pair |
| Geometry.AnalyzeBox | utils/image_processing.py:50-56 | the fallback branch yields the fallback entry and draws nothing |
| Geometry.AnalyzeContours | utils/image_processing.py:9-58 | the entry returned and the operations added to the image are those of `Analyze` |
| Geometry.FallbackFields | utils/image_processing.py:50-56 | with fewer than two contours, both shift fields are numbers, Shape Diff is "N/A", and nothing is drawn |
| Geometry.FallbackAnalysis | utils/image_processing.py:50-56 | the branch for fewer than two contours; what it yields is stated by `Geometry.FallbackFields` and `Geometry.FallbackShiftSquared`, and by `Geometry.AnalyzeBox` for the method |
| Geometry.TruncFourFifths | utils/image_processing.py:51 | for a width n >= 0, int(n * 0.8) = floor(4n / 5) |
| Geometry.TruncNegate | utils/image_processing.py:52 | truncation is odd, so the sign of dy does not matter |
| Geometry.FallbackDelta | utils/image_processing.py:51-52 | the fallback offsets int((x2-x1)*0.8) and int((y1-y2)*0.8); their values, floor(4w/5) and -floor(4h/5), are stated by `Geometry.FallbackShiftSquared`, `Geometry.TruncFourFifths` and `Geometry.TruncNegate` |
| Geometry.FallbackShiftSquared | utils/image_processing.py:51-53 | for a box with x1 <= x2 and y1 <= y2, the fallback has dx = floor(4w/5), dy = -floor(4h/5), and the squared shift is dx² + dy² |
| Geometry.FallbackExample | utils/image_processing.py:51-53 | the box (0, 0, 68, 39) gives dx = 54, dy = -31 and a squared shift of 3877 |
| Geometry.FallbackSquareBox | utils/image_processing.py:51-53 | the box (0, 0, 100, 100) gives dx = 80, dy = -80, a squared shift of 12800, and a shift between 113.137 and 113.138 |
| Geometry.RootOf3877 | utils/image_processing.py:53 | the fallback shift of the 68 × 39 box lies strictly between 62.2655 and 62.2656 |
| Geometry.MillimetresFromUnroundedShift | utils/image_processing.py:54-55 | mm is scaled from the unrounded shift: for the 68 × 39 box, px shows 62.27 and mm shows 16.47, while scaling 62.27 would give 16.48 |
| Geometry.CentroidsOfPair | utils/image_processing.py:19-24 | a centroid exists only for a contour with m00 != 0, and the centroids keep the order of the pair |
| Geometry.Centroid | utils/image_processing.py:19-23 | the centroid (int(m10/m00) + x1, int(m01/m00) + y1) of a contour with m00 != 0; the truncation it uses is stated by `Geometry.Trunc` |
| Geometry.Centroids | utils/image_processing.py:19-24 | the centroids appended by the loop, in order, skipping m00 == 0; stated by `Geometry.CentroidsOfPair` and `Geometry.CirclesAtCentroids`, and by `Geometry.MarkCentroids` for the loop itself |
| Geometry.CirclesAtCentroids | utils/image_processing.py:19-25 | exactly one filled circle of radius 6 is drawn per contour with m00 != 0, at its centroid, and no other circle is drawn |
| Geometry.DegenerateCentroids | utils/image_processing.py:27 | with fewer than two centroids, all three fields stay None, no shift exists, and at most one circle is drawn |
| Geometry.TwoCentroidDrawing | utils/image_processing.py:25-48 | with two centroids, the image gains 2 circles, then 1 line, then the outline label and the fill label at the same midpoint; Shape Diff is round(matchShapes, 3) |
| Geometry.PairAnalysis | utils/image_processing.py:15-48 | the branch for two contours or more; what it yields is stated by `Geometry.TwoCentroidDrawing` (two centroids) and `Geometry.DegenerateCentroids` (fewer), and by `Geometry.AnalyzePair` for the method |
| Geometry.ShiftLine | utils/image_processing.py:33-46 | the line between the centroids and the two labels at the midpoint raised by 10; stated by `Geometry.TwoCentroidDrawing` and `Geometry.DrawShiftLine` |
| Geometry.TwoCentroidShiftVanishes | utils/image_processing.py:28-29 | the two-centroid shift is zero exactly when the two integer centroids coincide |
| Geometry.ShiftFieldsAgree | utils/image_processing.py:29-31 | whenever a shift is set, px and mm come from the same unrounded value; otherwise both stay None |
| Geometry.ShiftFieldsOf | utils/image_processing.py:30-31 | the shift fields are round(shift, 2) and round(shift * px_to_mm, 2) |
| Geometry.PairedShiftFields | utils/image_processing.py:28-31 | the two-centroid shift fields come from the distance of the two centroids |
| Detector.Sharpness | models/detector.py:20 | sharpness is clamped to at most 100, reaches 100 exactly when the variance is at least 200, is half the variance below that, and is non-negative for a non-negative variance |
| Detector.RoundedSharpness | models/detector.py:20 | `round(min(lap_var / 2, 100), 2)`, the one sharpness every record of a run uses; its range before rounding is stated by `Detector.Sharpness`, its use by `Detector.RunDetector` |
| Detector.ShiftNorm | models/detector.py:38 | shift_norm is 0 for a None or zero Shift (mm), is min(mm / 50, 1) otherwise, never exceeds 1, and is non-negative for a non-negative shift |
| Detector.Uncertainty | models/detector.py:36-40 | for confidence in [0, 1], sharpness in [0, 100] and shift_norm in [0, 1], the blend lies in [0, 85] |
| Detector.UncertaintyZero | models/detector.py:36-40 | within the nominal ranges the uncertainty is 0 exactly when c = 1, s = 100 and shift_norm = 0 |
| Detector.UncertaintyCeiling | models/detector.py:36-40 | within the nominal ranges the uncertainty is at most 85, reached exactly when c = 0, s = 0 and shift_norm = 1: the halved geometric term keeps it below 100 |
| Detector.UncertaintyMonotone | models/detector.py:36-40 | the uncertainty does not increase with confidence or sharpness, and does not decrease with shift |
| Detector.ShiftNormMonotone | models/detector.py:38 | a larger Shift (mm) never gives a smaller shift_norm |
| Detector.UncertaintyMonotoneInShift | models/detector.py:36-40 | stated over Shift (mm) itself: the uncertainty does not increase with confidence or sharpness, and does not decrease with the shift in millimetres |
| Detector.UncertaintyUnclamped | models/detector.py:40-42 | the value is not clamped: a confidence above 1 on a sharp image with no shift gives a negative uncertainty (-40 for confidence 2) |
| Detector.DecimalString | models/detector.py:32 | the decimal text of the zone number is non-empty, all digits, with no leading zero |
| Detector.ParseDecimalString | models/detector.py:32 | the decimal text of a zone number reads back as that number |
| Detector.ZoneLabelInjective | models/detector.py:32 | equal labels "Fracture Zone n" have equal numbers |
| Detector.ZoneLabel | models/detector.py:32 | `f"Fracture Zone {zone_id}"`; that the number reads back and that labels of different numbers differ is stated by `Detector.ParseDecimalString`, `Detector.ZoneLabelInjective` and `Detector.ZoneLabelsDiffer` |
| Detector.ZoneLabelsDiffer | models/detector.py:32 | different zone numbers give different labels |
| Detector.ZoneAnalysis | models/detector.py:33-34 | the contour analysis adds the three shift fields, and Shift (mm) is never a string |
| Detector.ZoneEntryFields | models/detector.py:32-42 | a record has exactly Zone, Shift (px), Shift (mm), Shape Diff and Uncertainty (%), with the zone label, the analysis fields unchanged, and the uncertainty rounded to 2 places |
| Detector.ZoneEntryLabel | models/detector.py:32 | a record's Zone field is the label of its number |
| Detector.ZoneEntry | models/detector.py:32-42 | the record of one zone; its fields are stated by `Detector.ZoneEntryFields` and `Detector.ZoneEntryLabel`, its uncertainty range by `Detector.ZoneUncertaintyRange` |
| Detector.ZoneUncertaintyRange | models/detector.py:36-42 | for a confidence in [0, 1], a sharpness in [0, 100] and a Shift (mm) that is None or a non-negative number, a zone's unrounded uncertainty lies in [0, 85] |
| Detector.Outlines | models/detector.py:30 | the clean image gains one green rectangle of thickness 2 per box, in order |
| Detector.ProcessDetection | models/detector.py:28-43 | one box adds its rectangle to the clean image, its analysis drawings to the detailed image, and returns its record |
| Detector.RecordAt | models/detector.py:26-44 | there is one record per box, and record k is the record of box k with number firstId + k |
| Detector.DetectionStep | models/detector.py:32-44 | one iteration of the inner loop preserves the loop invariants: records, outlines and annotations of the boxes seen so far |
| Detector.ProcessResult | models/detector.py:27-44 | the inner loop appends the records of a batch, numbered from the current zone id, and draws its outlines and annotations |
| Detector.ResultStep | models/detector.py:26-27 | the boxes of batch i follow the boxes of the earlier batches, in the records and on both images |
| Detector.RunDetector | models/detector.py:18-44 | report_data is one record per box, in enumeration order across all batches, numbered from 1, all using the one sharpness computed for the image |
| Detector.RecordLabel | models/detector.py:24-44 | record k is labelled "Fracture Zone (firstId + k)", with no reordering |
| Detector.Records | models/detector.py:26-44 | the records of a run of detections; stated by `Detector.RecordAt` (one per box, record k numbered firstId + k) and `Detector.RecordLabel` |
| Detector.Annotations | models/detector.py:26-34 | the drawings of every detection on the detailed image, in order; stated by `Detector.ResultStep`, `Detector.ProcessResult` and `Detector.RunDetector` |
| Detector.ZoneLabelsDistinct | models/detector.py:24-44 | no two records of a run share a zone label |
| Report.ReplaceAllEvery | reports/report_generator.py:105-110 | a literal substitution replaces every occurrence: the text is its pattern-free pieces joined by the pattern, and the result is the same pieces joined by the replacement |
| Report.ReplaceAllAvoids | reports/report_generator.py:105-110 | a character absent from the text and from the replacement stays absent |
| Report.ReplaceAllRemovesChar | reports/report_generator.py:110 | replacing every `\n` by text without `\n` leaves none |
| Report.ReplaceAll | reports/report_generator.py:105-110 | a literal substitution; that it replaces every occurrence is stated by `Report.ReplaceAllEvery`, and what it keeps out by `Report.ReplaceAllAvoids` and `Report.ReplaceAllRemovesChar` |
| Report.SubstitutedSplit | reports/report_generator.py:104-110 | applying the substitutions in two runs equals applying them in one |
| Report.SubstitutedAvoids | reports/report_generator.py:104-110 | no substitution in the chain brings back a character that the text and every replacement avoid |
| Report.Substituted | reports/report_generator.py:105-110 | the substitutions applied one after the other; stated by `Report.SubstitutedSplit` and `Report.SubstitutedAvoids` |
| Report.FormattedNotes | reports/report_generator.py:104-110 | the doctor notes as the card shows them; stated by `Report.FormattedNotesClean` and by `Report.FormatNotes`, whose steps it equals |
| Report.HeadingsPlain | reports/report_generator.py:105-109 | the five headings are non-empty, and their emphasised forms (emoji, space, `<b>heading</b>`) hold no `*` and no newline |
| Report.NotesPatterns | reports/report_generator.py:105-110 | each substitution in the notes chain has a non-empty pattern, and none inserts a `*` |
| Report.FormattedNotesClean | reports/report_generator.py:104-110 | formatted doctor notes contain no `*` and no newline |
| Report.FormatNotes | reports/report_generator.py:104-110 | the notes are cleaned, then pass through the five heading substitutions and the newline substitution, in this order |
| Report.SummaryRow | reports/report_generator.py:68-73 | a row has four cells, the value of each column's field when the key is present and "N/A" when it is missing |
| Values.Get | reports/report_generator.py:69-72 | `dict.get(key, default)`; that it gives the field when present and the default when missing is stated by `Report.SummaryRow` and `Report.MakeCard`, and that a present None is not missing by `Report.NoneIsNotMissing` |
| Report.NoneIsNotMissing | reports/report_generator.py:71 | a present Shift (mm) of None shows as None, not as "N/A" |
| Report.BuildSummaryTable | reports/report_generator.py:66-73 | the table has len(report_data) + 1 rows, the fixed header first, row k + 1 built from record k in order, and every row has 4 cells |
| Report.LogoSlot | reports/report_generator.py:52-56 | a falsy or missing logo path puts exactly one warning paragraph in the logo's slot and changes nothing else on the front page |
| Report.ImageSlots | reports/report_generator.py:142-153 | a missing clean or detailed image puts exactly one warning paragraph in its slot and changes nothing else |
| Report.WarningWording | reports/report_generator.py:43-153 | exactly the three missing-file paragraphs (logo, clean image, detailed image) start with the warning sign ⚠ |
| Report.MakeCard | reports/report_generator.py:96-110 | the card shows the zone ("Unknown Zone" when missing), the three measurements ("N/A" when missing) and the formatted notes |
| Report.Card | reports/report_generator.py:96-110 | the card of one record; its fields are stated by `Report.MakeCard` and its position in the story by `Report.CardsAt` |
| Report.FrontMatter | reports/report_generator.py:43-56 | the front page is title, date, welcome, logo or warning, page break |
| Report.FrontPage | reports/report_generator.py:43-56 | the front page; its items are stated by `Report.FrontMatter`, its logo slot by `Report.LogoSlot` |
| Report.ImagePages | reports/report_generator.py:131-153 | the image section; its items are stated by `Report.ImageMatter`, its image slots by `Report.ImageSlots` |
| Report.InterleavedAt | reports/report_generator.py:128-129 | item 2k is the card of element k and item 2k + 1 the spacer after it |
| Report.CardsAt | reports/report_generator.py:96-129 | the observations section has two items per record: item 2k is the card of record k and item 2k + 1 its spacer |
| Report.ObservationCards | reports/report_generator.py:96-129 | the loop appends one card and one spacer per record, in the order of report_data |
| Report.ImageMatter | reports/report_generator.py:131-153 | the image section is the next-pages paragraph, page break, clean heading, clean image or warning, page break, detailed heading, detailed image or warning |
| Report.BuildStory | reports/report_generator.py:40-153 | the story has 18 + 2n items: the front page, the summary heading and table (with the table's rows), the observations heading, the cards in record order, and the image pages |

## Left out

- Reading and writing images, YOLO inference, timestamped output paths and
  prints (models/detector.py:10-16, 46-56): the detections arrive as a
  sequence of result batches of boxes and confidences.
- OpenCV: Canny, findContours, contourArea, moments, cvtColor and the
  Laplacian variance. The contours arrive as records of area and moments,
  and the variance arrives as a number. `canny_on_gray` is not modelled.
- Floating point: `np.sqrt`, `round` and `cv2.matchShapes` arrive as
  functions in `Numerics`, and all other arithmetic is exact over `real`.
  Shift properties are stated over the exact squared distance.
- Geometry.MeasureShift, Geometry.AnalyzeContours: the caption text
  `f"{shift_mm:.2f} mm"` is kept as the number it shows; float-to-text
  formatting is not modelled.
- The region of interest `img[y1:y2, x1:x2]` is not modelled: each
  detection carries the contours found in its box.
- The Gemini call and its configuration (utils/ai_doctor.py:5-7, 12-36): the
  notes arrive as a field of the record.
- reportlab: styles, fonts, the Table and Paragraph objects, the card's HTML
  markup and `doc.build`. A story item records which paragraph, image,
  spacer, page break, table or card it is, and with which content. The card
  keeps the zone, the three measurements and the formatted notes that its
  markup shows.
- The date comes in as already formatted text, and the file system comes in
  as the answer of `os.path.exists` for each path.
- Report.MakeCard, Report.BuildStory: notes that are present but not text
  (None or a number) make `clean_text` fail on `.strip()`. The model
  requires the notes to be text.
- Dictionary iteration order and the printing of values in the table cells
  are not modelled: a cell holds the value itself.
- main.py, config/settings.py and utils/pdf_styles.py are not part of this
  model.
