/**
 * The detail component (src/components/ComplianceStandardDetail.tsx): its own
 * copies of the status tables, whose icon for a non-compliant control is the
 * alert triangle, the score band, and the optional table of findings.
 */
module ComplianceStandardDetail {
  import opened Wrappers
  import opened Ascii
  import opened ComplianceTypes

  /** The component's `getStatusColor`; anything unrecognised is gray. */
  function StatusColor(status: string): (r: Color)
    ensures r == Green <==> MatchesIgnoringCase(status, CompliantLabel)
    ensures r == Yellow <==> MatchesIgnoringCase(status, PartialLabel)
    ensures r == Red <==> MatchesIgnoringCase(status, NonCompliantLabel)
    ensures r == Gray <==>
              && !MatchesIgnoringCase(status, CompliantLabel)
              && !MatchesIgnoringCase(status, PartialLabel)
              && !MatchesIgnoringCase(status, NonCompliantLabel)
  {
    LabelsAreLowerCase();
    ToLowerMatches(status, CompliantLabel);
    ToLowerMatches(status, PartialLabel);
    ToLowerMatches(status, NonCompliantLabel);
    var key := ToLower(status);
    if key == CompliantLabel then Green
    else if key == PartialLabel then Yellow
    else if key == NonCompliantLabel then Red
    else Gray
  }

  /** The component's `getStatusIcon`: a non-compliant control gets the alert triangle. */
  function StatusIcon(status: string): (r: Icon)
    ensures r == CheckCircle <==> MatchesIgnoringCase(status, CompliantLabel)
    ensures r == AlertTriangle <==> MatchesIgnoringCase(status, NonCompliantLabel)
    ensures r == Info <==>
              !MatchesIgnoringCase(status, CompliantLabel) && !MatchesIgnoringCase(status, NonCompliantLabel)
  {
    LabelsAreLowerCase();
    ToLowerMatches(status, CompliantLabel);
    ToLowerMatches(status, NonCompliantLabel);
    var key := ToLower(status);
    if key == CompliantLabel then CheckCircle
    else if key == PartialLabel then Info
    else if key == NonCompliantLabel then AlertTriangle
    else Info
  }

  /** The colour scheme of the overall-compliance bar, from the percentage. */
  function ScoreBand(compliance: int): (r: Color)
    ensures r == Green <==> compliance > 80
    ensures r == Yellow <==> 60 < compliance <= 80
    ensures r == Red <==> compliance <= 60
    ensures r != Gray
  {
    if compliance > 80 then Green else if compliance > 60 then Yellow else Red
  }

  /** The component's props; `details` may be absent. */
  datatype StandardProps = StandardProps(name: string, compliance: int, description: string, details: Option<seq<Issue>>)

  /** One row of the findings table. */
  datatype TableRow = TableRow(
    control: string,
    pdfReference: string,
    color: Color,
    icon: Icon,
    status: string,
    adherence: string,
    details: Option<string>,
    recommendation: Option<string>)

  function TableRowOf(issue: Issue): TableRow {
    TableRow(
      issue.control, issue.pdfReference,
      StatusColor(issue.status), StatusIcon(issue.status), issue.status,
      issue.adherence, Shown(issue.details), Shown(issue.recommendation))
  }

  /** `details.map(...)`: one table row per finding, in order. */
  function TableRows(details: seq<Issue>): (rows: seq<TableRow>)
    ensures |rows| == |details|
    ensures forall i :: 0 <= i < |details| ==>
              && rows[i].color == StatusColor(details[i].status)
              && rows[i].icon == StatusIcon(details[i].status)
              && rows[i].control == details[i].control
              && rows[i].status == details[i].status
    ensures forall i :: 0 <= i < |details| ==> rows[i] == TableRowOf(details[i])
  {
    if details == [] then [] else [TableRowOf(details[0])] + TableRows(details[1..])
  }

  /**
   * `details && <table>`: no table when `details` is absent; an empty array is
   * truthy, so a present but empty list gives a table with no rows.
   */
  function FindingsTable(details: Option<seq<Issue>>): (table: Option<seq<TableRow>>)
    ensures table.None? <==> details.None?
    ensures details.Some? ==> |table.value| == |details.value|
    ensures details.Some? ==> forall i :: 0 <= i < |details.value| ==>
              && table.value[i].color == StatusColor(details.value[i].status)
              && table.value[i].icon == StatusIcon(details.value[i].status)
  {
    match details
    case None => None
    case Some(issues) => Some(TableRows(issues))
  }

  /** What the component renders. */
  datatype DetailView = DetailView(description: string, score: int, band: Color, table: Option<seq<TableRow>>)

  function Render(standard: StandardProps): (r: DetailView)
    ensures r.description == standard.description && r.score == standard.compliance
    ensures r.band == ScoreBand(standard.compliance) && r.band != Gray
    ensures r.table == FindingsTable(standard.details)
    ensures r.table.None? <==> standard.details.None?
    ensures standard.details.Some? ==> |r.table.value| == |standard.details.value|
  {
    DetailView(standard.description, standard.compliance, ScoreBand(standard.compliance), FindingsTable(standard.details))
  }

  // ---------------------------------------------------------------------
  // Properties of the component's tables

  /** Icon and colour are chosen consistently for every label. */
  lemma IconMatchesColor(status: string)
    ensures StatusIcon(status) == CheckCircle <==> StatusColor(status) == Green
    ensures StatusIcon(status) == Info <==> StatusColor(status) in {Yellow, Gray}
    ensures StatusIcon(status) == AlertTriangle <==> StatusColor(status) == Red
    ensures StatusIcon(status) != AlertCircle
  {
    LabelsAreLowerCase();
    ToLowerMatches(status, CompliantLabel);
    ToLowerMatches(status, PartialLabel);
    ToLowerMatches(status, NonCompliantLabel);
  }

  /** `non-compliant` in any case gets the alert triangle and red. */
  lemma NonCompliantGetsTriangle(status: string)
    requires status in {"Non-Compliant", "non-compliant", "NON-COMPLIANT"}
    ensures StatusIcon(status) == AlertTriangle && StatusColor(status) == Red
  {
    assert MatchesIgnoringCase(status, NonCompliantLabel);
  }

  /** Unrecognised labels get gray and the info icon. */
  lemma UnrecognisedLabels()
    ensures StatusColor("") == Gray && StatusIcon("") == Info
    ensures StatusColor("Unknown") == Gray && StatusIcon("Unknown") == Info
    ensures StatusColor("noncompliant") == Gray && StatusIcon("noncompliant") == Info
    ensures StatusColor("compliant ") == Gray && StatusIcon("compliant ") == Info
  {
  }

  /** Absent details render no table; present details one row per finding. */
  lemma FindingsTableExamples()
    ensures Render(StandardProps("CIS Azure Foundations Benchmark", 78, "", None)).table == None
    ensures Render(StandardProps("CIS Azure Foundations Benchmark", 78, "", Some([]))).table == Some([])
    ensures Render(StandardProps("CIS Azure Foundations Benchmark", 78, "", None)).band == Yellow
  {
  }
}
