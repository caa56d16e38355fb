/** Values that flow between the pipeline's stages.

    The pipeline passes its per-zone results around as Python dictionaries
    whose values are None, strings or floats; a zone record is therefore a
    finite map from field names to such values. */
module Values {

  datatype Option<T> = None | Some(value: T)

  /** A dictionary value: Python's None, a string, or a number (floats are exact reals here). */
  datatype Value = Null | Str(s: string) | Num(x: real)

  /** A zone record, keyed by the field names below. */
  type Entry = map<string, Value>

  const ZoneKey: string := "Zone"
  const ShiftPxKey: string := "Shift (px)"
  const ShiftMmKey: string := "Shift (mm)"
  const ShapeDiffKey: string := "Shape Diff"
  const UncertaintyKey: string := "Uncertainty (%)"
  const NotesKey: string := "AI Doctor Notes"

  /** The string "N/A" used as a sentinel and as a default. */
  const NotApplicable: Value := Str("N/A")

  /** The field names are pairwise different. */
  lemma KeysDistinct()
    ensures ShiftPxKey != ShiftMmKey && ShiftPxKey != ShapeDiffKey && ShiftMmKey != ShapeDiffKey
    ensures ZoneKey !in {ShiftPxKey, ShiftMmKey, ShapeDiffKey, UncertaintyKey}
    ensures UncertaintyKey !in {ShiftPxKey, ShiftMmKey, ShapeDiffKey}
  {}

  /** Python's `dict.get(key, default)`. */
  function Get(e: Entry, key: string, default: Value): Value {
    if key in e then e[key] else default
  }
}
