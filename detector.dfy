/** The per-detection loop of `run_yolo` (models/detector.py).

    The detector itself, image loading and saving, and the Laplacian variance
    of the grey image stay outside the model: the detections arrive grouped by
    result, each with its box corners, its confidence and the contours found
    inside its box, and the Laplacian variance arrives as a number. The two
    copies of the image are two canvases. */
module Detector {
  import opened Values
  import opened Geometry

  /** Millimetres per pixel (96 dpi). */
  const PxToMm: real := 0.2645833333

  /** One detection: box corners as floats, confidence, and the contours that
      contour analysis finds inside the box. */
  datatype Detection = Detection(x1: real, y1: real, x2: real, y2: real, conf: real, contours: seq<Contour>)

  // ---------------------------------------------------------------------
  // Image sharpness and uncertainty

  /** `min(100, (lap_var / 200.0) * 100)`: the sharpness score, capped at 100. */
  function Sharpness(lapVar: real): (s: real)
    ensures s <= 100.0
    ensures s == 100.0 <==> lapVar >= 200.0
    ensures lapVar < 200.0 ==> s * 2.0 == lapVar
    ensures 0.0 <= lapVar ==> 0.0 <= s
  {
    var scaled := lapVar / 200.0 * 100.0;
    if 100.0 <= scaled then 100.0 else scaled
  }

  /** The sharpness the loop uses, rounded to two decimals. */
  function RoundedSharpness(lapVar: real, num: Numerics): real {
    num.round(Sharpness(lapVar), 2)
  }

  /** `min(shift_mm / 50, 1) if shift_mm else 0`: None and 0.0 are falsy. */
  function ShiftNorm(mm: Value): (n: real)
    requires !mm.Str?
    ensures n <= 1.0
    ensures mm == Null || mm == Num(0.0) ==> n == 0.0
    ensures mm.Num? && 50.0 <= mm.x ==> n == 1.0
    ensures mm.Num? && mm.x <= 50.0 ==> n * 50.0 == mm.x
    ensures mm.Num? && 0.0 <= mm.x ==> 0.0 <= n
  {
    match mm
    case Null => 0.0
    case Num(x) => if x == 0.0 then 0.0 else if x / 50.0 <= 1.0 then x / 50.0 else 1.0
  }

  /** The weighted uncertainty in percent, before rounding: 40% model doubt
      (1 - confidence), 30% image doubt (1 - sharpness / 100) and 30% of the
      halved geometric doubt. */
  function Uncertainty(conf: real, sharp: real, norm: real): (u: real)
    ensures 0.0 <= conf <= 1.0 && 0.0 <= sharp <= 100.0 && 0.0 <= norm <= 1.0 ==> 0.0 <= u <= 85.0
  {
    100.0 * (0.4 * (1.0 - conf) + 0.3 * (1.0 - sharp / 100.0) + 0.3 * (0.5 * norm))
  }

  /** Within the nominal ranges the uncertainty is 0 exactly for a fully
      confident detection on a fully sharp image with no shift. */
  lemma UncertaintyZero(conf: real, sharp: real, norm: real)
    requires 0.0 <= conf <= 1.0 && 0.0 <= sharp <= 100.0 && 0.0 <= norm <= 1.0
    ensures Uncertainty(conf, sharp, norm) == 0.0 <==> conf == 1.0 && sharp == 100.0 && norm == 0.0
  {
  }

  /** Within the nominal ranges the uncertainty never exceeds 85, and reaches
      85 exactly for zero confidence, zero sharpness and a full shift. */
  lemma UncertaintyCeiling(conf: real, sharp: real, norm: real)
    requires 0.0 <= conf <= 1.0 && 0.0 <= sharp <= 100.0 && 0.0 <= norm <= 1.0
    ensures Uncertainty(conf, sharp, norm) <= 85.0
    ensures Uncertainty(conf, sharp, norm) == 85.0 <==> conf == 0.0 && sharp == 0.0 && norm == 1.0
  {
  }

  /** More confidence or more sharpness never raises the uncertainty; a
      larger shift never lowers it. */
  lemma UncertaintyMonotone(c1: real, c2: real, s1: real, s2: real, n1: real, n2: real)
    requires c1 <= c2 && s1 <= s2 && n1 <= n2
    ensures Uncertainty(c2, s2, n1) <= Uncertainty(c1, s1, n2)
  {
  }

  /** A larger shift in millimetres never gives a smaller normalised shift. */
  lemma ShiftNormMonotone(a: real, b: real)
    requires a <= b
    ensures ShiftNorm(Num(a)) <= ShiftNorm(Num(b))
  {
  }

  /** The monotonicity stated over the shift in millimetres itself: more
      confidence or sharpness never raises the uncertainty, a larger shift
      never lowers it. */
  lemma UncertaintyMonotoneInShift(c1: real, c2: real, s1: real, s2: real, mm1: real, mm2: real)
    requires c1 <= c2 && s1 <= s2 && mm1 <= mm2
    ensures Uncertainty(c2, s2, ShiftNorm(Num(mm1))) <= Uncertainty(c1, s1, ShiftNorm(Num(mm2)))
  {
    ShiftNormMonotone(mm1, mm2);
    UncertaintyMonotone(c1, c2, s1, s2, ShiftNorm(Num(mm1)), ShiftNorm(Num(mm2)));
  }

  /** The blend is not clamped: outside the nominal range of the confidence
      it leaves [0, 100], e.g. a confidence above 1 on a sharp image with no
      shift gives a negative uncertainty. */
  lemma UncertaintyUnclamped(conf: real)
    requires 1.0 < conf
    ensures Uncertainty(conf, 100.0, 0.0) < 0.0
    ensures Uncertainty(2.0, 100.0, 0.0) == -40.0
  {
  }

  // ---------------------------------------------------------------------
  // Zone labels

  function DigitChar(d: nat): char
    requires d < 10
  {
    ('0' as int + d) as char
  }

  /** Python's `str(n)` for a natural number: decimal, no leading zero. */
  function DecimalString(n: nat): (s: string)
    ensures |s| >= 1
    ensures forall i :: 0 <= i < |s| ==> '0' <= s[i] <= '9'
    ensures |s| > 1 ==> s[0] != '0'
  {
    if n < 10 then [DigitChar(n)] else DecimalString(n / 10) + [DigitChar(n % 10)]
  }

  /** The value of a string of decimal digits. */
  function ParseDecimal(s: string): nat
    requires forall i :: 0 <= i < |s| ==> '0' <= s[i] <= '9'
  {
    if s == [] then 0 else 10 * ParseDecimal(s[..|s| - 1]) + (s[|s| - 1] as int - '0' as int)
  }

  /** Reading back the decimal digits gives the number. */
  lemma {:induction false} ParseDecimalString(n: nat)
    ensures ParseDecimal(DecimalString(n)) == n
    decreases n
  {
    if n >= 10 {
      var s := DecimalString(n);
      assert s[..|s| - 1] == DecimalString(n / 10);
      ParseDecimalString(n / 10);
    }
  }

  /** `f"Fracture Zone {zone_id}"`. */
  function ZoneLabel(id: nat): string {
    "Fracture Zone " + DecimalString(id)
  }

  /** Different zone numbers give different labels. */
  lemma ZoneLabelInjective(a: nat, b: nat)
    requires ZoneLabel(a) == ZoneLabel(b)
    ensures a == b
  {
    var prefix := "Fracture Zone ";
    assert DecimalString(a) == ZoneLabel(a)[|prefix|..];
    assert DecimalString(b) == ZoneLabel(b)[|prefix|..];
    ParseDecimalString(a);
    ParseDecimalString(b);
  }

  // ---------------------------------------------------------------------
  // One zone

  /** The box corner `(int(x1), int(y1))`. */
  function Corner(d: Detection): Point {
    Point(Trunc(d.x1), Trunc(d.y1))
  }

  /** The box corner `(int(x2), int(y2))`. */
  function Opposite(d: Detection): Point {
    Point(Trunc(d.x2), Trunc(d.y2))
  }

  /** The contour analysis of a detection's box. */
  function ZoneAnalysis(d: Detection, num: Numerics): (a: Analysis)
    ensures a.entry.Keys == {ShiftPxKey, ShiftMmKey, ShapeDiffKey}
    ensures !a.entry[ShiftMmKey].Str?
  {
    Analyze(d.contours, Trunc(d.x1), Trunc(d.y1), Trunc(d.x2), Trunc(d.y2), PxToMm, num)
  }

  /** What contour analysis draws on the detailed image for a detection. */
  function ZoneDrawings(d: Detection, num: Numerics): seq<DrawOp> {
    ZoneAnalysis(d, num).draws
  }

  /** The unrounded uncertainty of a zone, from the millimetre field of its analysis. */
  function ZoneUncertainty(d: Detection, sharp: real, num: Numerics): real {
    Uncertainty(d.conf, sharp, ShiftNorm(ZoneAnalysis(d, num).entry[ShiftMmKey]))
  }

  /** The record of zone number `id`: its label, the fields of the contour
      analysis, and the rounded uncertainty. */
  function ZoneEntry(d: Detection, id: nat, sharp: real, num: Numerics): Entry {
    (map[ZoneKey := Str(ZoneLabel(id))] + ZoneAnalysis(d, num).entry)
      [UncertaintyKey := Num(num.round(ZoneUncertainty(d, sharp, num), 2))]
  }

  /** A zone record has exactly five fields: the label of its number, the
      three fields of its contour analysis unchanged, and the uncertainty. */
  lemma ZoneEntryFields(d: Detection, id: nat, sharp: real, num: Numerics)
    ensures var e := ZoneEntry(d, id, sharp, num);
      && e.Keys == {ZoneKey, ShiftPxKey, ShiftMmKey, ShapeDiffKey, UncertaintyKey}
      && e[ZoneKey] == Str(ZoneLabel(id))
      && (forall k :: k in ZoneAnalysis(d, num).entry ==> e[k] == ZoneAnalysis(d, num).entry[k])
      && e[UncertaintyKey] == Num(num.round(ZoneUncertainty(d, sharp, num), 2))
  {
    KeysDistinct();
  }

  /** With a confidence in [0, 1], a sharpness in [0, 100] and a non-negative
      millimetre shift, a zone's unrounded uncertainty lies in [0, 85]. */
  lemma ZoneUncertaintyRange(d: Detection, sharp: real, num: Numerics)
    requires 0.0 <= d.conf <= 1.0 && 0.0 <= sharp <= 100.0
    requires var mm := ZoneAnalysis(d, num).entry[ShiftMmKey]; mm.Num? ==> 0.0 <= mm.x
    ensures 0.0 <= ZoneUncertainty(d, sharp, num) <= 85.0
  {
    var mm := ZoneAnalysis(d, num).entry[ShiftMmKey];
    assert 0.0 <= ShiftNorm(mm) <= 1.0;
  }

  // ---------------------------------------------------------------------
  // The loop over all detections

  /** The detections of all results, in order. */
  function Flatten(results: seq<seq<Detection>>): seq<Detection> {
    if results == [] then [] else Flatten(results[..|results| - 1]) + results[|results| - 1]
  }

  /** The rectangle drawn on the clean image around a detection's box. */
  function BoxOutline(d: Detection): DrawOp {
    Rectangle(Corner(d), Opposite(d), BoxColor, 2)
  }

  /** Everything drawn on the clean image: one 2-pixel green rectangle per
      detection, in order, and nothing else. */
  function Outlines(ds: seq<Detection>): (ops: seq<DrawOp>)
    ensures |ops| == |ds|
    ensures forall k :: 0 <= k < |ds| ==> ops[k] == Rectangle(Corner(ds[k]), Opposite(ds[k]), BoxColor, 2)
  {
    if ds == [] then [] else Outlines(ds[..|ds| - 1]) + [BoxOutline(ds[|ds| - 1])]
  }

  /** The parts `part(d)` of the detections d, concatenated in order. */
  function Joined<T>(ds: seq<Detection>, part: Detection -> seq<T>): seq<T> {
    if ds == [] then [] else Joined(ds[..|ds| - 1], part) + part(ds[|ds| - 1])
  }

  /** The contour analysis drawings of one detection, as a function of the detection. */
  function Drawer(num: Numerics): Detection -> seq<DrawOp> {
    (d: Detection) => ZoneDrawings(d, num)
  }

  /** Everything drawn on the detailed image: the contour analysis drawings
      of each detection, in order. */
  function Annotations(ds: seq<Detection>, num: Numerics): seq<DrawOp> {
    Joined(ds, Drawer(num))
  }

  /** The body of the detection loop for zone number `zoneId`: outline the
      box on the clean image, analyse its contours on the detailed one, and
      build the zone's record. */
  method ProcessDetection(d: Detection, zoneId: nat, sharpness: real, num: Numerics, clean: Canvas, detailed: Canvas)
      returns (entry: Entry)
    requires clean != detailed
    modifies clean, detailed
    ensures entry == ZoneEntry(d, zoneId, sharpness, num)
    ensures clean.ops == old(clean.ops) + [BoxOutline(d)]
    ensures detailed.ops == old(detailed.ops) + ZoneDrawings(d, num)
  {
    KeysDistinct();
    var x1, y1, x2, y2 := Trunc(d.x1), Trunc(d.y1), Trunc(d.x2), Trunc(d.y2);
    var confidence := d.conf;
    clean.Draw(Rectangle(Point(x1, y1), Point(x2, y2), BoxColor, 2));
    entry := map[ZoneKey := Str(ZoneLabel(zoneId))];
    var contourData := AnalyzeContours(d.contours, x1, y1, x2, y2, detailed, PxToMm, num);
    entry := entry + contourData;

    var uModel := 1.0 - confidence;
    var uImage := 1.0 - sharpness / 100.0;
    var shiftNorm := ShiftNorm(entry[ShiftMmKey]);
    var uGeom := 0.5 * shiftNorm;
    var total := 100.0 * (0.4 * uModel + 0.3 * uImage + 0.3 * uGeom);
    assert total == ZoneUncertainty(d, sharpness, num);
    entry := entry[UncertaintyKey := Num(num.round(total, 2))];
  }

  /** The outlines for a run of detections split at any point. */
  lemma {:induction false} OutlinesAppend(ds: seq<Detection>, es: seq<Detection>)
    ensures Outlines(ds + es) == Outlines(ds) + Outlines(es)
    decreases |es|
  {
    if es == [] {
      assert ds + es == ds;
    } else {
      var front := es[..|es| - 1];
      assert (ds + es)[..|ds + es| - 1] == ds + front;
      OutlinesAppend(ds, front);
    }
  }

  /** The parts of a run of detections split at any point. */
  lemma {:induction false} JoinedAppend<T>(ds: seq<Detection>, es: seq<Detection>, part: Detection -> seq<T>)
    ensures Joined(ds + es, part) == Joined(ds, part) + Joined(es, part)
    decreases |es|
  {
    if es == [] {
      assert ds + es == ds;
    } else {
      var front := es[..|es| - 1];
      assert (ds + es)[..|ds + es| - 1] == ds + front;
      JoinedAppend(ds, front, part);
    }
  }

  /** The drawings for the first j + 1 detections extend those for the first j. */
  lemma DrawingsStep(r: seq<Detection>, j: nat, num: Numerics)
    requires j < |r|
    ensures Outlines(r[..j + 1]) == Outlines(r[..j]) + [BoxOutline(r[j])]
    ensures Annotations(r[..j + 1], num) == Annotations(r[..j], num) + ZoneDrawings(r[j], num)
  {
    assert r[..j + 1][..j] == r[..j];
    assert Joined(r[..j + 1], Drawer(num)) == Joined(r[..j], Drawer(num)) + Drawer(num)(r[j]);
  }

  /** A canvas that held `base + drawn` and then received `more` holds `base + (drawn + more)`. */
  lemma Extended(base: seq<DrawOp>, drawn: seq<DrawOp>, more: seq<DrawOp>, before: seq<DrawOp>, after: seq<DrawOp>)
    requires before == base + drawn && after == before + more
    ensures after == base + (drawn + more)
  {
  }

  /** `zone(d, id)` for each detection d, numbered on from `firstId`. */
  function Numbered<T>(ds: seq<Detection>, firstId: nat, zone: (Detection, nat) -> T): (rs: seq<T>)
    ensures |rs| == |ds|
  {
    if ds == [] then [] else Numbered(ds[..|ds| - 1], firstId, zone) + [zone(ds[|ds| - 1], firstId + |ds| - 1)]
  }

  /** The k-th element is numbered firstId + k. */
  lemma {:induction false} NumberedAt<T>(ds: seq<Detection>, firstId: nat, zone: (Detection, nat) -> T, k: nat)
    requires k < |ds|
    ensures Numbered(ds, firstId, zone)[k] == zone(ds[k], firstId + k)
    decreases |ds|
  {
    if k < |ds| - 1 {
      NumberedAt(ds[..|ds| - 1], firstId, zone, k);
    }
  }

  /** Two runs of detections, the second numbered on from the first. */
  lemma {:induction false} NumberedAppend<T>(ds: seq<Detection>, es: seq<Detection>, firstId: nat, zone: (Detection, nat) -> T)
    ensures Numbered(ds + es, firstId, zone) == Numbered(ds, firstId, zone) + Numbered(es, firstId + |ds|, zone)
    decreases |es|
  {
    if es == [] {
      assert ds + es == ds;
    } else {
      var front := es[..|es| - 1];
      assert (ds + es)[..|ds + es| - 1] == ds + front;
      NumberedAppend(ds, front, firstId, zone);
    }
  }

  /** The first j + 1 detections extend the first j by one numbered element. */
  lemma NumberedStep<T>(r: seq<Detection>, j: nat, firstId: nat, zone: (Detection, nat) -> T)
    requires j < |r|
    ensures Numbered(r[..j + 1], firstId, zone) == Numbered(r[..j], firstId, zone) + [zone(r[j], firstId + j)]
  {
    assert r[..j + 1][..j] == r[..j];
  }

  /** The record builder of a run with the given sharpness. */
  function Recorder(sharp: real, num: Numerics): (Detection, nat) -> Entry {
    (d: Detection, id: nat) => ZoneEntry(d, id, sharp, num)
  }

  /** The records of the detections `ds`, numbered from `firstId`. */
  function Records(ds: seq<Detection>, firstId: nat, sharp: real, num: Numerics): seq<Entry> {
    Numbered(ds, firstId, Recorder(sharp, num))
  }

  /** The record of the k-th detection is the zone entry numbered firstId + k. */
  lemma RecordAt(ds: seq<Detection>, firstId: nat, sharp: real, num: Numerics, k: nat)
    requires k < |ds|
    ensures |Records(ds, firstId, sharp, num)| == |ds|
    ensures Records(ds, firstId, sharp, num)[k] == ZoneEntry(ds[k], firstId + k, sharp, num)
  {
    NumberedAt(ds, firstId, Recorder(sharp, num), k);
  }

  /** One turn of the inner loop: the records and drawings for the first
      j detections, extended by those of detection j, are those for the
      first j + 1. */
  lemma DetectionStep(r: seq<Detection>, j: nat, firstId: nat, sharp: real, num: Numerics,
                      entries: seq<Entry>, entry: Entry,
                      cleanBase: seq<DrawOp>, cleanBefore: seq<DrawOp>, cleanAfter: seq<DrawOp>,
                      detailedBase: seq<DrawOp>, detailedBefore: seq<DrawOp>, detailedAfter: seq<DrawOp>)
    requires j < |r|
    requires entries == Records(r[..j], firstId, sharp, num)
    requires entry == ZoneEntry(r[j], firstId + j, sharp, num)
    requires cleanBefore == cleanBase + Outlines(r[..j]) && cleanAfter == cleanBefore + [BoxOutline(r[j])]
    requires detailedBefore == detailedBase + Annotations(r[..j], num)
    requires detailedAfter == detailedBefore + ZoneDrawings(r[j], num)
    ensures entries + [entry] == Records(r[..j + 1], firstId, sharp, num)
    ensures cleanAfter == cleanBase + Outlines(r[..j + 1])
    ensures detailedAfter == detailedBase + Annotations(r[..j + 1], num)
  {
    NumberedStep(r, j, firstId, Recorder(sharp, num));
    DrawingsStep(r, j, num);
    Extended(cleanBase, Outlines(r[..j]), [BoxOutline(r[j])], cleanBefore, cleanAfter);
    Extended(detailedBase, Annotations(r[..j], num), ZoneDrawings(r[j], num), detailedBefore, detailedAfter);
  }

  /** The inner loop of `run_yolo` over the boxes of one result, numbering
      its zones from `firstId`. */
  method ProcessResult(r: seq<Detection>, firstId: nat, sharpness: real, num: Numerics, clean: Canvas, detailed: Canvas)
      returns (entries: seq<Entry>)
    requires clean != detailed
    modifies clean, detailed
    ensures entries == Records(r, firstId, sharpness, num)
    ensures clean.ops == old(clean.ops) + Outlines(r)
    ensures detailed.ops == old(detailed.ops) + Annotations(r, num)
  {
    entries := [];
    var zoneId := firstId;
    for j := 0 to |r|
      invariant zoneId == firstId + j
      invariant entries == Records(r[..j], firstId, sharpness, num)
      invariant clean.ops == old(clean.ops) + Outlines(r[..j])
      invariant detailed.ops == old(detailed.ops) + Annotations(r[..j], num)
    {
      ghost var cleanBefore, detailedBefore := clean.ops, detailed.ops;
      var entry := ProcessDetection(r[j], zoneId, sharpness, num, clean, detailed);
      DetectionStep(r, j, firstId, sharpness, num, entries, entry,
                    old(clean.ops), cleanBefore, clean.ops, old(detailed.ops), detailedBefore, detailed.ops);
      entries := entries + [entry];
      zoneId := zoneId + 1;
    }
    assert r[..|r|] == r;
  }

  /** The detection loop of `run_yolo`: zones are numbered from 1 across all
      results; each detection outlines its box on the clean image, annotates
      the detailed one, and adds one record to the report. */
  method RunDetector(results: seq<seq<Detection>>, lapVar: real, num: Numerics, clean: Canvas, detailed: Canvas)
      returns (report: seq<Entry>)
    requires clean != detailed
    modifies clean, detailed
    ensures report == Records(Flatten(results), 1, RoundedSharpness(lapVar, num), num)
    ensures clean.ops == old(clean.ops) + Outlines(Flatten(results))
    ensures detailed.ops == old(detailed.ops) + Annotations(Flatten(results), num)
  {
    var sharpness := RoundedSharpness(lapVar, num);
    report := [];
    var zoneId := 1;
    for i := 0 to |results|
      invariant zoneId == |Flatten(results[..i])| + 1
      invariant report == Records(Flatten(results[..i]), 1, sharpness, num)
      invariant clean.ops == old(clean.ops) + Outlines(Flatten(results[..i]))
      invariant detailed.ops == old(detailed.ops) + Annotations(Flatten(results[..i]), num)
    {
      ghost var done := Flatten(results[..i]);
      ghost var cleanBefore, detailedBefore := clean.ops, detailed.ops;
      var entries := ProcessResult(results[i], zoneId, sharpness, num, clean, detailed);
      report := report + entries;
      zoneId := zoneId + |results[i]|;
      ResultStep(results, i, sharpness, num);
      Extended(old(clean.ops), Outlines(done), Outlines(results[i]), cleanBefore, clean.ops);
      Extended(old(detailed.ops), Annotations(done, num), Annotations(results[i], num), detailedBefore, detailed.ops);
    }
    assert results[..|results|] == results;
  }

  /** The detections, records and drawings of the first i + 1 results extend
      those of the first i by those of result i. */
  lemma ResultStep(results: seq<seq<Detection>>, i: nat, sharp: real, num: Numerics)
    requires i < |results|
    ensures Flatten(results[..i + 1]) == Flatten(results[..i]) + results[i]
    ensures Records(Flatten(results[..i + 1]), 1, sharp, num)
            == Records(Flatten(results[..i]), 1, sharp, num) + Records(results[i], |Flatten(results[..i])| + 1, sharp, num)
    ensures Outlines(Flatten(results[..i + 1])) == Outlines(Flatten(results[..i])) + Outlines(results[i])
    ensures Annotations(Flatten(results[..i + 1]), num) == Annotations(Flatten(results[..i]), num) + Annotations(results[i], num)
  {
    assert results[..i + 1][..i] == results[..i];
    var done := Flatten(results[..i]);
    NumberedAppend(done, results[i], 1, Recorder(sharp, num));
    OutlinesAppend(done, results[i]);
    JoinedAppend(done, results[i], Drawer(num));
  }

  /** Different zone numbers never share a label. */
  lemma ZoneLabelsDiffer(a: nat, b: nat)
    requires a != b
    ensures ZoneLabel(a) != ZoneLabel(b)
  {
    if ZoneLabel(a) == ZoneLabel(b) {
      ZoneLabelInjective(a, b);
    }
  }

  /** The label field of a zone record. */
  lemma ZoneEntryLabel(d: Detection, id: nat, sharp: real, num: Numerics)
    ensures ZoneKey in ZoneEntry(d, id, sharp, num)
    ensures ZoneEntry(d, id, sharp, num)[ZoneKey] == Str(ZoneLabel(id))
  {
    KeysDistinct();
  }

  /** The k-th record of a run is labelled with zone number firstId + k. */
  lemma RecordLabel(ds: seq<Detection>, firstId: nat, sharp: real, num: Numerics, k: nat)
    requires k < |ds|
    ensures |Records(ds, firstId, sharp, num)| == |ds|
    ensures ZoneKey in Records(ds, firstId, sharp, num)[k]
    ensures Records(ds, firstId, sharp, num)[k][ZoneKey] == Str(ZoneLabel(firstId + k))
  {
    RecordAt(ds, firstId, sharp, num, k);
    ZoneEntryLabel(ds[k], firstId + k, sharp, num);
  }

  /** Every record of a run carries a different zone label: zone k + 1 for
      the k-th detection. */
  lemma ZoneLabelsDistinct(ds: seq<Detection>, sharp: real, num: Numerics, i: nat, j: nat)
    requires i < j < |ds|
    ensures |Records(ds, 1, sharp, num)| == |ds|
    ensures ZoneKey in Records(ds, 1, sharp, num)[i] && ZoneKey in Records(ds, 1, sharp, num)[j]
    ensures Records(ds, 1, sharp, num)[i][ZoneKey] != Records(ds, 1, sharp, num)[j][ZoneKey]
  {
    RecordLabel(ds, 1, sharp, num, i);
    RecordLabel(ds, 1, sharp, num, j);
    ZoneLabelsDiffer(i + 1, j + 1);
  }
}
