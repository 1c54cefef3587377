/**
 * How the two copies of the classifier compare: the standards page and the
 * detail component agree on colours and score bands for every input, and on
 * icons for every label except `non-compliant`.
 */
module CallSiteAgreement {
  import opened Ascii
  import opened ComplianceTypes
  import Page = ComplianceStandards
  import Detail = ComplianceStandardDetail

  /** The two `getStatusColor` copies are the same function. */
  lemma ColorsAgree(status: string)
    ensures Detail.StatusColor(status) == Page.StatusColor(status)
  {
  }

  /** The two icon tables differ exactly on labels that lower-case to `non-compliant`. */
  lemma IconsAgreeExceptNonCompliant(status: string)
    ensures Detail.StatusIcon(status) == Page.StatusIcon(status) <==> ToLower(status) != NonCompliantLabel
    ensures ToLower(status) == NonCompliantLabel ==>
              Page.StatusIcon(status) == AlertCircle && Detail.StatusIcon(status) == AlertTriangle
  {
    LabelsAreLowerCase();
    ToLowerMatches(status, NonCompliantLabel);
  }

  /** The two score-band ternaries use the same thresholds. */
  lemma ScoreBandsAgree(compliance: int)
    ensures Detail.ScoreBand(compliance) == Page.ScoreBand(compliance)
  {
  }

  /**
   * For the same findings, the page's control boxes and the component's
   * table rows line up one to one, with the same colours; their icons
   * differ only on non-compliant findings.
   */
  lemma {:induction false} RowsAgree(details: seq<Issue>)
    ensures var boxes, rows := Page.ControlRows(details), Detail.TableRows(details);
            && |boxes| == |rows| == |details|
            && (forall i :: 0 <= i < |details| ==> boxes[i].color == rows[i].color)
            && (forall i :: 0 <= i < |details| ==>
                  (boxes[i].icon == rows[i].icon <==> ToLower(details[i].status) != NonCompliantLabel))
  {
    forall i | 0 <= i < |details|
      ensures Page.ControlRows(details)[i].color == Detail.TableRows(details)[i].color
      ensures (Page.ControlRows(details)[i].icon == Detail.TableRows(details)[i].icon)
                == (ToLower(details[i].status) != NonCompliantLabel)
    {
      ColorsAgree(details[i].status);
      IconsAgreeExceptNonCompliant(details[i].status);
    }
  }
}
