/** The `primary` label and the strategic-merge patch that sets or removes it. */
module Labels {
  import opened Wrappers
  import Strconv

  /** A pod's metadata labels. */
  type Labels = map<string, string>

  /** The one label key the labeler manages. */
  const PrimaryKey: string := "primary"

  /** What one patch does to the `primary` label: set it to "true", set it to
      "false", or delete it (a JSON null under strategic-merge semantics). */
  datatype LabelIntent = SetTrue | SetFalse | Remove

  /** `primaryLabelPatch(value, remove)`: the label value is the formatted
      boolean unless `remove` is set, which overrides it with null. */
  function PrimaryLabelPatch(value: bool, remove: bool): (i: LabelIntent)
    ensures i == Remove <==> remove
    ensures i == SetTrue <==> value && !remove
    ensures i == SetFalse <==> !value && !remove
  {
    if remove then Remove else if value then SetTrue else SetFalse
  }

  /** The JSON value carried under `metadata.labels.primary`: a string, or
      null (None). */
  function WireValue(i: LabelIntent): (v: Option<string>)
  {
    match i
    case SetTrue => Some(Strconv.FormatBool(true))
    case SetFalse => Some(Strconv.FormatBool(false))
    case Remove => None
  }

  /** Reads a patch body's label value back into an intent; any string other
      than the two the labeler writes is not one of its patches. */
  function IntentOfWireValue(v: Option<string>): (r: Option<LabelIntent>)
  {
    match v
    case None => Some(Remove)
    case Some(s) =>
      if s == "true" then Some(SetTrue)
      else if s == "false" then Some(SetFalse)
      else None
  }

  /** The wire encoding of an intent is lossless. */
  lemma WireValueRoundTrip(i: LabelIntent)
    ensures IntentOfWireValue(WireValue(i)) == Some(i)
    ensures WireValue(i) == None <==> i == Remove
  {
  }

  /** The `primary` label of a label map, if present. */
  function PrimaryLabel(labels: Labels): Option<string>
  {
    if PrimaryKey in labels then Some(labels[PrimaryKey]) else None
  }

  /** Strategic-merge application of the patch: a string value sets the key,
      null deletes it, and every other label is left as it was. */
  function ApplyPatch(labels: Labels, i: LabelIntent): (r: Labels)
    ensures PrimaryLabel(r) == WireValue(i)
    ensures forall k :: k != PrimaryKey ==> (k in r <==> k in labels)
    ensures forall k :: k != PrimaryKey && k in r ==> r[k] == labels[k]
  {
    match i
    case Remove => labels - {PrimaryKey}
    case _ => labels[PrimaryKey := WireValue(i).value]
  }

  /** Re-applying the same patch is a no-op, which is what makes a retried or
      repeated reconciliation safe. */
  lemma ApplyPatchIdempotent(labels: Labels, i: LabelIntent)
    ensures ApplyPatch(ApplyPatch(labels, i), i) == ApplyPatch(labels, i)
  {
  }

  /** Applying a patch when the label already has the patched value changes
      nothing: a converged pod is left untouched. */
  lemma ApplyPatchNoOp(labels: Labels, i: LabelIntent)
    requires PrimaryLabel(labels) == WireValue(i)
    ensures ApplyPatch(labels, i) == labels
  {
  }
}
