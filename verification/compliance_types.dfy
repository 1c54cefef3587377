/**
 * The values both views share: the colour and icon tokens the classifiers
 * return, the control-level finding record, and the truthiness test that
 * decides whether an optional text field is rendered.
 */
module ComplianceTypes {
  import opened Wrappers
  import opened Ascii

  /** Colour-scheme tokens handed to the UI toolkit. */
  datatype Color = Green | Yellow | Red | Gray

  /** The icon components from the Feather icon set that the views use. */
  datatype Icon = CheckCircle | Info | AlertCircle | AlertTriangle

  /** One control-level finding of a standard (a `ComplianceIssue`). */
  datatype Issue = Issue(
    control: string,
    pdfReference: string,
    adherence: string,
    status: string,
    details: Option<string>,
    recommendation: Option<string>)

  /** The three status labels the classifiers recognise, in lower case. */
  const CompliantLabel: string := "compliant"
  const PartialLabel: string := "partially compliant"
  const NonCompliantLabel: string := "non-compliant"

  lemma LabelsAreLowerCase()
    ensures IsLowerCase(CompliantLabel)
    ensures IsLowerCase(PartialLabel)
    ensures IsLowerCase(NonCompliantLabel)
  {
  }

  /**
   * `field && <element>` in JSX: the element appears only for a present,
   * non-empty string, since both `undefined` and `""` are falsy.
   */
  function Shown(field: Option<string>): (r: Option<string>)
    ensures r.Some? <==> field.Some? && field.value != ""
    ensures r.Some? ==> r == field
  {
    match field
    case Some(text) => if text == "" then None else field
    case None => None
  }
}
