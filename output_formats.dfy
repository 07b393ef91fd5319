/** The three output formats a user can request, the record of which are
    selected, and the generated-file records the form and the results
    table share. */
module OutputFormats {
  import opened JsText

  /** The keys `'bpmn'`, `'processDoc'` and `'trainingScript'`. */
  datatype FormatKey = Bpmn | ProcessDoc | TrainingScript

  /** `{ bpmn, processDoc, trainingScript }` with a boolean per format. */
  datatype Formats = Formats(bpmn: bool, processDoc: bool, trainingScript: bool)

  const NoFormats := Formats(false, false, false)

  /** `formats[key]`. */
  function Selected(f: Formats, k: FormatKey): bool
  {
    match k
    case Bpmn => f.bpmn
    case ProcessDoc => f.processDoc
    case TrainingScript => f.trainingScript
  }

  /** `{ ...prev, [key]: !prev[key] }`: only the flag of `k` changes, and it flips. */
  function Toggle(f: Formats, k: FormatKey): (r: Formats)
    ensures Selected(r, k) == !Selected(f, k)
    ensures forall k' :: k' != k ==> Selected(r, k') == Selected(f, k')
  {
    match k
    case Bpmn => f.(bpmn := !f.bpmn)
    case ProcessDoc => f.(processDoc := !f.processDoc)
    case TrainingScript => f.(trainingScript := !f.trainingScript)
  }

  /** Two records that agree on every key are equal. */
  lemma FormatsExtensional(f: Formats, g: Formats)
    requires forall k :: Selected(f, k) == Selected(g, k)
    ensures f == g
  {
    assert Selected(f, Bpmn) == Selected(g, Bpmn);
    assert Selected(f, ProcessDoc) == Selected(g, ProcessDoc);
    assert Selected(f, TrainingScript) == Selected(g, TrainingScript);
  }

  /** Flipping the same flag twice restores the selection. */
  lemma ToggleTwice(f: Formats, k: FormatKey)
    ensures Toggle(Toggle(f, k), k) == f
  {
    FormatsExtensional(Toggle(Toggle(f, k), k), f);
  }

  /** Flips of different flags commute. */
  lemma ToggleCommutes(f: Formats, j: FormatKey, k: FormatKey)
    ensures Toggle(Toggle(f, j), k) == Toggle(Toggle(f, k), j)
  {
    FormatsExtensional(Toggle(Toggle(f, j), k), Toggle(Toggle(f, k), j));
  }

  /** At least one format is selected. */
  predicate AnySelected(f: Formats)
  {
    f.bpmn || f.processDoc || f.trainingScript
  }

  /** `{ type, name, content, status }` of one generated output. */
  datatype GeneratedFile = GeneratedFile(fileType: String, name: String, content: String, status: String)
}
