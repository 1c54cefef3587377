# Compliance-status classifier

A Dafny model of the only logic in the compliance dashboard: the rules that turn a
control's free-text status label into a colour token and an icon, the rule that turns a
standard's compliance percentage into the colour of its progress bar, and the
derivation of one displayed row per finding. The repository defines these rules twice,
once in the standards page (`src/pages/ComplianceStandards.tsx`) and once in the detail
component (`src/components/ComplianceStandardDetail.tsx`); both copies are modelled, each
in its own module, and a third module proves where they agree and where they differ.

- `Ascii` (ascii.dfy): `toLowerCase` restricted to ASCII, and an independent
  definition of "matches a lower-case label ignoring case" used to state the
  classifiers' contracts.
- `ComplianceTypes` (compliance_types.dfy): colour and icon tokens, the finding record
  (`ComplianceIssue`), the three recognised labels, and JSX truthiness of optional text.
- `ComplianceStandards` (compliance_standards.dfy): the page's `getStatusIcon`,
  `getStatusColor`, score band and control boxes of the detail modal.
- `ComplianceStandardDetail` (compliance_standard_detail.dfy): the component's copies
  of the same, and its optional findings table.
- `CallSiteAgreement` (call_site_agreement.dfy): the two copies compared.

Status labels are case-insensitive only for ASCII letters; nothing is trimmed, so
`"compliant "` is unrecognised. The score band is total over all integers, and the
percentage is not clamped: 150 is green and -5 is red. The two icon tables disagree on
`non-compliant`: the page returns the alert circle and the component the alert triangle.
Both are modelled as written.

## Model

| member | source | states |
|---|---|---|
| `Ascii.ToLower` | src/pages/ComplianceStandards.tsx:63 | `status.toLowerCase()` keeps the length, lower-cases each character in place, and leaves no upper-case letter |
| `Ascii.ToLowerMatches` | src/pages/ComplianceStandards.tsx:63-69 | comparing the lower-cased label with a lower-case label holds exactly when the label spells it ignoring case |
| `Ascii.ToLowerIdempotent` | src/components/ComplianceStandardDetail.tsx:40 | lower-casing an already lower-cased label changes nothing |
| `ComplianceTypes.Shown` | src/components/ComplianceStandardDetail.tsx:90-95 | an optional text line is rendered exactly when the field is present and non-empty, and then shows the field unchanged |
| `ComplianceStandards.StatusIcon` | src/pages/ComplianceStandards.tsx:49-59 | check circle exactly for `compliant` in any case, alert circle exactly for `non-compliant` in any case, info for everything else |
| `ComplianceStandards.StatusColor` | src/pages/ComplianceStandards.tsx:62-73 | green, yellow, red exactly for `compliant`, `partially compliant`, `non-compliant` in any case, and gray exactly for every other string |
| `ComplianceStandards.ScoreBand` | src/pages/ComplianceStandards.tsx:103 | green exactly above 80, yellow exactly from 61 to 80, red exactly at 60 and below, and never gray |
| `ComplianceStandards.ControlRows` | src/pages/ComplianceStandards.tsx:109-121 | one control box per finding, in order, each carrying that finding's classified icon and colour, control and status |
| `ComplianceStandards.Modal` | src/pages/ComplianceStandards.tsx:92-121 | the modal shows the selected standard's name, description and score, the score band of its percentage (never gray), and exactly the control boxes of its findings, one per finding with that finding's classified icon and colour |
| `ComplianceStandards.IconMatchesColor` | src/pages/ComplianceStandards.tsx:49-73 | the icon is the check circle exactly when the colour is green, info exactly when yellow or gray, the alert circle exactly when red |
| `ComplianceStandards.ClassifyIgnoresCase` | src/pages/ComplianceStandards.tsx:50-63 | two labels with the same lower-case form get the same colour and the same icon |
| `ComplianceStandards.ClassifyLowerCased` | src/pages/ComplianceStandards.tsx:50-63 | classifying the lower-cased label gives the same colour and icon as the label itself |
| `ComplianceStandards.CompliantInAnyCase` | src/pages/ComplianceStandards.tsx:62-65 | each of `Compliant`, `compliant` and `COMPLIANT` is green with the check circle |
| `ComplianceStandards.PartiallyCompliantInAnyCase` | src/pages/ComplianceStandards.tsx:66-67 | each of `Partially Compliant`, `partially compliant` and `PARTIALLY COMPLIANT` is yellow with the info icon |
| `ComplianceStandards.NonCompliantInAnyCase` | src/pages/ComplianceStandards.tsx:68-69 | each of `Non-Compliant`, `non-compliant` and `NON-COMPLIANT` is red with the alert circle |
| `ComplianceStandards.UnrecognisedLabels` | src/pages/ComplianceStandards.tsx:70-71 | the empty string, `Unknown`, `noncompliant`, `compliant ` (trailing space) and `N/A` are gray with the info icon |
| `ComplianceStandards.ScoreBandMonotone` | src/pages/ComplianceStandards.tsx:103 | raising the score never leaves green and never enters red |
| `ComplianceStandards.ScoreBandExamples` | src/pages/ComplianceStandards.tsx:103 | 81 green, 80 and 61 yellow, 60 red; 150 green and -5 red with no clamping |
| `ComplianceStandards.ControlRowsAppend` | src/pages/ComplianceStandards.tsx:109 | the boxes of two finding lists joined are the two lists' boxes joined |
| `ComplianceStandards.HardcodedScores` | src/pages/ComplianceStandards.tsx:11-141 | NIST SP 800-53 at 85 and ISO/IEC 27001 at 92 are green; CIS at 78 and the Network Compliance example at 78 are yellow |
| `ComplianceStandards.IsoStandardRows` | src/pages/ComplianceStandards.tsx:26-30 | the ISO/IEC 27001 findings give, in order, check/green, check/green, info/yellow |
| `ComplianceStandards.NetworkComplianceRows` | src/pages/ComplianceStandards.tsx:137-141 | the Network Compliance findings give, in order, info/yellow, alert circle/red, info/yellow |
| `ComplianceStandardDetail.StatusColor` | src/components/ComplianceStandardDetail.tsx:26-37 | green, yellow, red exactly for the three labels in any case, gray for every other string |
| `ComplianceStandardDetail.StatusIcon` | src/components/ComplianceStandardDetail.tsx:39-50 | check circle exactly for `compliant`, alert triangle exactly for `non-compliant`, in any case; info for everything else |
| `ComplianceStandardDetail.ScoreBand` | src/components/ComplianceStandardDetail.tsx:61 | green exactly above 80, yellow exactly from 61 to 80, red exactly at 60 and below, and never gray |
| `ComplianceStandardDetail.TableRows` | src/components/ComplianceStandardDetail.tsx:78-98 | one table row per finding, in order, each with that finding's classified colour and icon, control and status |
| `ComplianceStandardDetail.FindingsTable` | src/components/ComplianceStandardDetail.tsx:65-101 | no table exactly when `details` is absent; otherwise one row per finding with its classified colour and icon |
| `ComplianceStandardDetail.Render` | src/components/ComplianceStandardDetail.tsx:52-104 | the component shows the description and score, the score band of its percentage (never gray), and exactly the findings table of its `details`: none when absent, otherwise one row per finding |
| `ComplianceStandardDetail.IconMatchesColor` | src/components/ComplianceStandardDetail.tsx:26-50 | the icon is the check circle exactly when green, info exactly when yellow or gray, the alert triangle exactly when red |
| `ComplianceStandardDetail.NonCompliantGetsTriangle` | src/components/ComplianceStandardDetail.tsx:45-46 | each of `Non-Compliant`, `non-compliant` and `NON-COMPLIANT` gets the alert triangle and red |
| `ComplianceStandardDetail.UnrecognisedLabels` | src/components/ComplianceStandardDetail.tsx:34-35 | the empty string, `Unknown`, `noncompliant` and `compliant ` are gray with the info icon |
| `ComplianceStandardDetail.FindingsTableExamples` | src/components/ComplianceStandardDetail.tsx:65 | absent details give no table, an empty list gives a table with no rows |
| `CallSiteAgreement.ColorsAgree` | src/components/ComplianceStandardDetail.tsx:26-37 | the component's colour equals the page's colour for every string |
| `CallSiteAgreement.IconsAgreeExceptNonCompliant` | src/components/ComplianceStandardDetail.tsx:39-50 | the two icons are equal exactly when the lower-cased label is not `non-compliant`, where the page has the circle and the component the triangle |
| `CallSiteAgreement.ScoreBandsAgree` | src/components/ComplianceStandardDetail.tsx:61 | the two score bands are equal for every integer |
| `CallSiteAgreement.RowsAgree` | src/components/ComplianceStandardDetail.tsx:78-85 | for the same findings the page's boxes and the component's rows line up one to one with equal colours, and icons that differ exactly on non-compliant findings |

## Left out

- Rendering: the Chakra UI layout, modal, progress bar, table and badge components, and the icon components themselves, which are calls into libraries that are not shown; the model stops at the tokens handed to them.
- The selected-standard state and the open/close wiring of the modal (`useState`, `useDisclosure`, the click handler), which belong to React.
- `ComplianceStandardCard` is not part of this model; its source is not available.
- src/theme.ts: a static table of style tokens with no rules in it.
- `Ascii.ToLower`: lower-cases ASCII letters only; Unicode case mapping of `toLowerCase` (for example of accented letters) is not modelled. This changes no classification: the only non-ASCII characters that `toLowerCase` maps into ASCII are U+212A KELVIN SIGN (to `k`) and U+0130 (to `i` followed by U+0307), and neither can complete `compliant`, `partially compliant` or `non-compliant`, which contain no `k` and no U+0307.
- A `null` or missing status, on which `toLowerCase` would throw: the component types `status` as a string, so labels are always strings here.
- Fractional percentages: `compliance` is a JavaScript number, modelled as an integer.
- A missing `pdfReference`: the interface requires it, though the page's "Network Compliance" example omits it (the page would render `()`); the model always has one.
- The page's modal reads `details` without a presence check; a standard without `details` would throw there, so the page's `Standard` always has a list.
- The hardcoded standards' literal texts are used only as test vectors; descriptions and the remaining findings' fields are not reproduced.
