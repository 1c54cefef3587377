/**
 * The standards page (src/pages/ComplianceStandards.tsx): its status-to-icon
 * and status-to-colour tables, the score band of the compliance bar, and the
 * control rows of the detail modal.
 */
module ComplianceStandards {
  import opened Wrappers
  import opened Ascii
  import opened ComplianceTypes

  /** The page's `getStatusIcon`: a non-compliant control gets the alert circle. */
  function StatusIcon(status: string): (r: Icon)
    ensures r == CheckCircle <==> MatchesIgnoringCase(status, CompliantLabel)
    ensures r == AlertCircle <==> MatchesIgnoringCase(status, NonCompliantLabel)
    ensures r == Info <==>
              !MatchesIgnoringCase(status, CompliantLabel) && !MatchesIgnoringCase(status, NonCompliantLabel)
  {
    LabelsAreLowerCase();
    ToLowerMatches(status, CompliantLabel);
    ToLowerMatches(status, NonCompliantLabel);
    var key := ToLower(status);
    if key == CompliantLabel then CheckCircle
    else if key == PartialLabel then Info
    else if key == NonCompliantLabel then AlertCircle
    else Info
  }

  /** The page's `getStatusColor`; anything unrecognised is gray. */
  function StatusColor(status: string): (r: Color)
    ensures r == Green <==> MatchesIgnoringCase(status, CompliantLabel)
    ensures r == Yellow <==> MatchesIgnoringCase(status, PartialLabel)
    ensures r == Red <==> MatchesIgnoringCase(status, NonCompliantLabel)
    ensures r == Gray <==>
              && !MatchesIgnoringCase(status, CompliantLabel)
              && !MatchesIgnoringCase(status, PartialLabel)
              && !MatchesIgnoringCase(status, NonCompliantLabel)
  {
    LabelsAreLowerCase();
    ToLowerMatches(status, CompliantLabel);
    ToLowerMatches(status, PartialLabel);
    ToLowerMatches(status, NonCompliantLabel);
    var key := ToLower(status);
    if key == CompliantLabel then Green
    else if key == PartialLabel then Yellow
    else if key == NonCompliantLabel then Red
    else Gray
  }

  /** The colour scheme of the compliance bar, from the percentage. */
  function ScoreBand(compliance: int): (r: Color)
    ensures r == Green <==> compliance > 80
    ensures r == Yellow <==> 60 < compliance <= 80
    ensures r == Red <==> compliance <= 60
    ensures r != Gray
  {
    if compliance > 80 then Green else if compliance > 60 then Yellow else Red
  }

  /** A standard as the page holds it; the modal reads `details` unconditionally. */
  datatype Standard = Standard(name: string, compliance: int, description: string, details: seq<Issue>)

  /** What one control box of the modal shows. */
  datatype ControlRow = ControlRow(
    icon: Icon,
    color: Color,
    control: string,
    pdfReference: string,
    adherence: string,
    status: string,
    details: Option<string>,
    recommendation: Option<string>)

  function ControlRowOf(issue: Issue): ControlRow {
    ControlRow(
      StatusIcon(issue.status), StatusColor(issue.status),
      issue.control, issue.pdfReference, issue.adherence, issue.status,
      issue.details, Shown(issue.recommendation))
  }

  /** `details.map(...)`: one control box per finding, in order. */
  function ControlRows(details: seq<Issue>): (rows: seq<ControlRow>)
    ensures |rows| == |details|
    ensures forall i :: 0 <= i < |details| ==>
              && rows[i].icon == StatusIcon(details[i].status)
              && rows[i].color == StatusColor(details[i].status)
              && rows[i].control == details[i].control
              && rows[i].status == details[i].status
    ensures forall i :: 0 <= i < |details| ==> rows[i] == ControlRowOf(details[i])
  {
    if details == [] then [] else [ControlRowOf(details[0])] + ControlRows(details[1..])
  }

  /** The body of the modal once a standard is selected. */
  datatype ModalView = ModalView(title: string, description: string, score: int, band: Color, rows: seq<ControlRow>)

  function Modal(s: Standard): (r: ModalView)
    ensures r.title == s.name && r.description == s.description && r.score == s.compliance
    ensures r.band == ScoreBand(s.compliance) && r.band != Gray
    ensures r.rows == ControlRows(s.details)
    ensures |r.rows| == |s.details|
    ensures forall i :: 0 <= i < |s.details| ==>
              r.rows[i].icon == StatusIcon(s.details[i].status) && r.rows[i].color == StatusColor(s.details[i].status)
  {
    ModalView(s.name, s.description, s.compliance, ScoreBand(s.compliance), ControlRows(s.details))
  }

  // ---------------------------------------------------------------------
  // Properties of the status tables

  /** Icon and colour are chosen consistently for every label. */
  lemma IconMatchesColor(status: string)
    ensures StatusIcon(status) == CheckCircle <==> StatusColor(status) == Green
    ensures StatusIcon(status) == Info <==> StatusColor(status) in {Yellow, Gray}
    ensures StatusIcon(status) == AlertCircle <==> StatusColor(status) == Red
    ensures StatusIcon(status) != AlertTriangle
  {
    LabelsAreLowerCase();
    ToLowerMatches(status, CompliantLabel);
    ToLowerMatches(status, PartialLabel);
    ToLowerMatches(status, NonCompliantLabel);
  }

  /** Labels that differ only in letter case are classified alike. */
  lemma {:induction false} ClassifyIgnoresCase(s: string, t: string)
    requires ToLower(s) == ToLower(t)
    ensures StatusColor(s) == StatusColor(t)
    ensures StatusIcon(s) == StatusIcon(t)
  {
    LabelsAreLowerCase();
    ToLowerMatches(s, CompliantLabel);
    ToLowerMatches(t, CompliantLabel);
    ToLowerMatches(s, PartialLabel);
    ToLowerMatches(t, PartialLabel);
    ToLowerMatches(s, NonCompliantLabel);
    ToLowerMatches(t, NonCompliantLabel);
  }

  /** Lower-casing a label first changes nothing. */
  lemma {:induction false} ClassifyLowerCased(s: string)
    ensures StatusColor(ToLower(s)) == StatusColor(s)
    ensures StatusIcon(ToLower(s)) == StatusIcon(s)
  {
    ToLowerIdempotent(s);
    ClassifyIgnoresCase(ToLower(s), s);
  }

  /** Case variants of the three labels. */
  lemma CompliantInAnyCase(status: string)
    requires status in {"Compliant", "compliant", "COMPLIANT"}
    ensures StatusColor(status) == Green && StatusIcon(status) == CheckCircle
  {
    assert MatchesIgnoringCase(status, CompliantLabel);
  }

  lemma PartiallyCompliantInAnyCase(status: string)
    requires status in {"Partially Compliant", "partially compliant", "PARTIALLY COMPLIANT"}
    ensures StatusColor(status) == Yellow && StatusIcon(status) == Info
  {
    assert MatchesIgnoringCase(status, PartialLabel);
  }

  lemma NonCompliantInAnyCase(status: string)
    requires status in {"Non-Compliant", "non-compliant", "NON-COMPLIANT"}
    ensures StatusColor(status) == Red && StatusIcon(status) == AlertCircle
  {
    assert MatchesIgnoringCase(status, NonCompliantLabel);
  }

  /** Everything else falls through to gray and the info icon, with no trimming. */
  lemma UnrecognisedLabels()
    ensures StatusColor("") == Gray && StatusIcon("") == Info
    ensures StatusColor("Unknown") == Gray && StatusIcon("Unknown") == Info
    ensures StatusColor("noncompliant") == Gray && StatusIcon("noncompliant") == Info
    ensures StatusColor("compliant ") == Gray && StatusIcon("compliant ") == Info
    ensures StatusColor("N/A") == Gray && StatusIcon("N/A") == Info
  {
  }

  // ---------------------------------------------------------------------
  // Properties of the score band

  /** A higher score never gets a worse band. */
  lemma ScoreBandMonotone(lo: int, hi: int)
    requires lo <= hi
    ensures ScoreBand(lo) == Green ==> ScoreBand(hi) == Green
    ensures ScoreBand(hi) == Red ==> ScoreBand(lo) == Red
  {
  }

  /** The boundaries, and scores outside 0..100, which are not clamped. */
  lemma ScoreBandExamples()
    ensures ScoreBand(81) == Green && ScoreBand(80) == Yellow
    ensures ScoreBand(61) == Yellow && ScoreBand(60) == Red
    ensures ScoreBand(150) == Green && ScoreBand(-5) == Red
  {
  }

  // ---------------------------------------------------------------------
  // Properties of the control rows

  /** Rows of a concatenation are the concatenation of the rows. */
  lemma ControlRowsAppend(a: seq<Issue>, b: seq<Issue>)
    ensures ControlRows(a + b) == ControlRows(a) + ControlRows(b)
  {
  }

  /** The hardcoded standards as test vectors. */
  function TestIssue(control: string, status: string): Issue {
    Issue(control, "", "", status, None, None)
  }

  lemma HardcodedScores()
    ensures Modal(Standard("NIST SP 800-53", 85, "", [])).band == Green
    ensures Modal(Standard("ISO/IEC 27001", 92, "", [])).band == Green
    ensures Modal(Standard("CIS Azure Foundations Benchmark", 78, "", [])).band == Yellow
    ensures Modal(Standard("Network Compliance", 78, "", [])).band == Yellow
  {
  }

  /** The ISO/IEC 27001 findings: two compliant controls, then a partial one. */
  lemma IsoStandardRows()
    ensures var rows := ControlRows([
                          TestIssue("A.9.2", "Compliant"),
                          TestIssue("A.12.4", "Compliant"),
                          TestIssue("A.13.1", "Partially Compliant")]);
            && |rows| == 3
            && [rows[0].icon, rows[1].icon, rows[2].icon] == [CheckCircle, CheckCircle, Info]
            && [rows[0].color, rows[1].color, rows[2].color] == [Green, Green, Yellow]
  {
    CompliantInAnyCase("Compliant");
    PartiallyCompliantInAnyCase("Partially Compliant");
  }

  /** The Network Compliance findings: partial, non-compliant, partial. */
  lemma NetworkComplianceRows()
    ensures var rows := ControlRows([
                          TestIssue("Firewall Configuration", "Partially Compliant"),
                          TestIssue("Network Segmentation", "Non-Compliant"),
                          TestIssue("Encryption in Transit", "Partially Compliant")]);
            && |rows| == 3
            && [rows[0].icon, rows[1].icon, rows[2].icon] == [Info, AlertCircle, Info]
            && [rows[0].color, rows[1].color, rows[2].color] == [Yellow, Red, Yellow]
  {
    PartiallyCompliantInAnyCase("Partially Compliant");
    NonCompliantInAnyCase("Non-Compliant");
  }
}
