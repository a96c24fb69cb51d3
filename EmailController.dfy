/**
 * The pure and sequential parts of src/controllers/emailController.ts:
 * request validation (`validateRequestData`), the regrouping of a submitted
 * report into impact buckets for the PDF (`mapDataToPdfFormat`), the fixed
 * guidance table (`getWhatToFix`) and the plain-text email body
 * (`generateEmailText`).
 */
module EmailController {
  import opened Common
  import opened Report

  // ---------------------------------------------------------------------------
  // The submitted report
  // ---------------------------------------------------------------------------

  /**
   * An issue as the front end sends it. A text field that is missing or
   * empty (falsy) is modelled as "". `examples` and `resources` may be absent.
   */
  datatype Issue = Issue(
    id: string,
    impact: string,
    description: string,
    help: string,
    examples: Option<seq<Example>>,
    resources: Option<seq<string>>)

  /** A page of a report that passed validation. */
  datatype Page = Page(url: string, issues: seq<Issue>)

  /** A page as submitted, before validation: `issues` is None when it is not an array. */
  datatype SubmittedPage = SubmittedPage(url: string, issues: Option<seq<Issue>>)

  /** The `summarizedReport` field: falsy, truthy but not an array, or an array of pages. */
  datatype SubmittedReport = Missing | NotArray | Pages(pages: seq<SubmittedPage>)

  /** The request fields `validateRequestData` looks at. */
  datatype Request = Request(
    email: string,
    report: SubmittedReport,
    hasSummary: bool,
    hasWebsite: bool,
    audience: string)

  // ---------------------------------------------------------------------------
  // validateRequestData
  // ---------------------------------------------------------------------------

  /** Why a request is refused; `page` and `issue` are 0-based positions. */
  datatype ValidationError =
    | EmailRequired
    | ReportRequired
    | SummaryRequired
    | WebsiteRequired
    | AudienceRequired
    | AudienceInvalid
    | ReportNotArray
    | PageMissingUrl(page: nat)
    | PageIssuesNotArray(page: nat)
    | IssueMissingId(page: nat, issue: nat)
    | IssueMissingImpact(page: nat, issue: nat)
    | IssueMissingDescription(page: nat, issue: nat)
    | IssueMissingHelp(page: nat, issue: nat)
  {
    predicate IsPageLevel() {
      PageMissingUrl? || PageIssuesNotArray?
    }

    predicate IsIssueLevel() {
      IssueMissingId? || IssueMissingImpact? || IssueMissingDescription? || IssueMissingHelp?
    }
  }

  /** "Page N", with N the 1-based page number. */
  function PageLabel(i: nat): string {
    "Page " + NatToString(i + 1)
  }

  /** "Page N, Issue M", both 1-based. */
  function IssueLabel(i: nat, j: nat): string {
    PageLabel(i) + ", Issue " + NatToString(j + 1)
  }

  /** What follows the label in a message about an issue. */
  function IssueReason(e: ValidationError): string
    requires e.IsIssueLevel()
  {
    match e
    case IssueMissingId(_, _) => " is missing ID"
    case IssueMissingImpact(_, _) => " is missing impact level"
    case IssueMissingDescription(_, _) => " is missing description"
    case IssueMissingHelp(_, _) => " is missing help text"
  }

  /** What follows the label in a message about a page. */
  function PageReason(e: ValidationError): string
    requires e.IsPageLevel()
  {
    if e.PageMissingUrl? then " is missing URL" else " issues must be an array"
  }

  /** The text the source returns for each refusal. */
  function Message(e: ValidationError): string {
    match e
    case EmailRequired => "Email is required"
    case ReportRequired => "Summarized report data is required"
    case SummaryRequired => "Summary data is required"
    case WebsiteRequired => "Scanned website data is required"
    case AudienceRequired => "Audience type is required"
    case AudienceInvalid => "Audience must be 'developer' or 'enduser'"
    case ReportNotArray => "Summarized report must be an array"
    case PageMissingUrl(i) => PageLabel(i) + PageReason(e)
    case PageIssuesNotArray(i) => PageLabel(i) + PageReason(e)
    case _ => IssueLabel(e.page, e.issue) + IssueReason(e)
  }

  predicate AcceptedAudience(audience: string) {
    audience == "developer" || audience == "enduser"
  }

  predicate IssueValid(issue: Issue) {
    issue.id != "" && issue.impact != "" && issue.description != "" && issue.help != ""
  }

  /** The four field tests of issue j of page i, in the source's order. */
  function IssueError(i: nat, j: nat, issue: Issue): (r: Option<ValidationError>)
    ensures r.None? <==> IssueValid(issue)
    ensures r.Some? ==> r.value.IsIssueLevel() && r.value.page == i && r.value.issue == j
  {
    if issue.id == "" then Some(IssueMissingId(i, j))
    else if issue.impact == "" then Some(IssueMissingImpact(i, j))
    else if issue.description == "" then Some(IssueMissingDescription(i, j))
    else if issue.help == "" then Some(IssueMissingHelp(i, j))
    else None
  }

  /** The first refusal among issues j, j + 1, ... of page i. */
  function FirstIssueError(i: nat, issues: seq<Issue>, j: nat): Option<ValidationError>
    requires j <= |issues|
    decreases |issues| - j
  {
    if j == |issues| then None
    else if IssueError(i, j, issues[j]).Some? then IssueError(i, j, issues[j])
    else FirstIssueError(i, issues, j + 1)
  }

  predicate PageValid(page: SubmittedPage) {
    && page.url != ""
    && page.issues.Some?
    && forall j :: 0 <= j < |page.issues.value| ==> IssueValid(page.issues.value[j])
  }

  /** The tests of page i: its URL, its issues field, then each issue in turn. */
  function PageError(i: nat, page: SubmittedPage): Option<ValidationError> {
    if page.url == "" then Some(PageMissingUrl(i))
    else if page.issues.None? then Some(PageIssuesNotArray(i))
    else FirstIssueError(i, page.issues.value, 0)
  }

  /** The first refusal among pages i, i + 1, ... */
  function FirstPageError(pages: seq<SubmittedPage>, i: nat): Option<ValidationError>
    requires i <= |pages|
    decreases |pages| - i
  {
    if i == |pages| then None
    else if PageError(i, pages[i]).Some? then PageError(i, pages[i])
    else FirstPageError(pages, i + 1)
  }

  /** The request-level tests in the source's order, then the pages. */
  function RequestError(req: Request): Option<ValidationError> {
    if req.email == "" then Some(EmailRequired)
    else if req.report.Missing? then Some(ReportRequired)
    else if !req.hasSummary then Some(SummaryRequired)
    else if !req.hasWebsite then Some(WebsiteRequired)
    else if req.audience == "" then Some(AudienceRequired)
    else if !AcceptedAudience(req.audience) then Some(AudienceInvalid)
    else if req.report.NotArray? then Some(ReportNotArray)
    else FirstPageError(req.report.pages, 0)
  }

  /** What `validateRequestData` returns: None for `null`, else the message of the first refusal. */
  function Validate(req: Request): Option<string> {
    if RequestError(req).Some? then Some(Message(RequestError(req).value)) else None
  }

  /**
   * `validateRequestData`: the seven request-level tests, then for each page its
   * URL and issues field and for each issue its id, impact, description and
   * help, returning at the first failing test.
   */
  method ValidateRequestData(req: Request) returns (r: Option<string>)
    ensures r == Validate(req)
  {
    if req.email == "" { return Some(Message(EmailRequired)); }
    if req.report.Missing? { return Some(Message(ReportRequired)); }
    if !req.hasSummary { return Some(Message(SummaryRequired)); }
    if !req.hasWebsite { return Some(Message(WebsiteRequired)); }
    if req.audience == "" { return Some(Message(AudienceRequired)); }
    if !AcceptedAudience(req.audience) { return Some(Message(AudienceInvalid)); }
    if req.report.NotArray? { return Some(Message(ReportNotArray)); }
    var pages := req.report.pages;
    var i := 0;
    while i < |pages|
      invariant 0 <= i <= |pages|
      invariant RequestError(req) == FirstPageError(pages, i)
    {
      var page := pages[i];
      if page.url == "" { return Some(Message(PageMissingUrl(i))); }
      if page.issues.None? { return Some(Message(PageIssuesNotArray(i))); }
      var issues := page.issues.value;
      var j := 0;
      while j < |issues|
        invariant 0 <= j <= |issues|
        invariant PageError(i, page) == FirstIssueError(i, issues, j)
      {
        var issue := issues[j];
        if issue.id == "" { return Some(Message(IssueMissingId(i, j))); }
        if issue.impact == "" { return Some(Message(IssueMissingImpact(i, j))); }
        if issue.description == "" { return Some(Message(IssueMissingDescription(i, j))); }
        if issue.help == "" { return Some(Message(IssueMissingHelp(i, j))); }
        j := j + 1;
      }
      i := i + 1;
    }
    return None;
  }

  /**
   * The first refusal among the issues from j on: none exactly when they are
   * all well formed, and otherwise the refusal of a malformed issue that only
   * well-formed ones precede.
   */
  lemma {:induction false} FirstIssueErrorSpec(i: nat, issues: seq<Issue>, j: nat)
    requires j <= |issues|
    ensures FirstIssueError(i, issues, j).None? <==> forall l :: j <= l < |issues| ==> IssueValid(issues[l])
    ensures FirstIssueError(i, issues, j).Some? ==>
      var e := FirstIssueError(i, issues, j).value;
      && e.IsIssueLevel() && e.page == i
      && j <= e.issue < |issues|
      && Some(e) == IssueError(i, e.issue, issues[e.issue])
      && forall l :: j <= l < e.issue ==> IssueValid(issues[l])
    decreases |issues| - j
  {
    if j < |issues| && IssueError(i, j, issues[j]).None? {
      FirstIssueErrorSpec(i, issues, j + 1);
    }
  }

  /** The same for pages: the first malformed page decides the refusal, and is named by it. */
  lemma {:induction false} FirstPageErrorSpec(pages: seq<SubmittedPage>, i: nat)
    requires i <= |pages|
    ensures FirstPageError(pages, i).None? <==> forall k :: i <= k < |pages| ==> PageValid(pages[k])
    ensures FirstPageError(pages, i).Some? ==>
      var e := FirstPageError(pages, i).value;
      && (e.IsPageLevel() || e.IsIssueLevel())
      && i <= e.page < |pages|
      && Some(e) == PageError(e.page, pages[e.page])
      && forall k :: i <= k < e.page ==> PageValid(pages[k])
    decreases |pages| - i
  {
    if i < |pages| {
      PageErrorSpec(i, pages[i]);
      if PageError(i, pages[i]).None? {
        FirstPageErrorSpec(pages, i + 1);
      }
    }
  }

  /** A page is refused exactly when it is malformed, and the refusal names it. */
  lemma PageErrorSpec(i: nat, page: SubmittedPage)
    ensures PageError(i, page).None? <==> PageValid(page)
    ensures PageError(i, page).Some? ==>
      var e := PageError(i, page).value;
      (e.IsPageLevel() || e.IsIssueLevel()) && e.page == i
  {
    if page.url != "" && page.issues.Some? {
      FirstIssueErrorSpec(i, page.issues.value, 0);
    }
  }

  /** What a request must satisfy to be accepted, stated field by field. */
  predicate RequestValid(req: Request) {
    && req.email != ""
    && req.report.Pages?
    && req.hasSummary
    && req.hasWebsite
    && AcceptedAudience(req.audience)
    && forall i :: 0 <= i < |req.report.pages| ==> PageValid(req.report.pages[i])
  }

  /** `validateRequestData` returns `null` exactly when every field and every page and issue is well formed. */
  lemma ValidateNullIff(req: Request)
    ensures Validate(req).None? <==> RequestValid(req)
  {
    if req.report.Pages? {
      FirstPageErrorSpec(req.report.pages, 0);
    }
  }

  /** The request-level fields pass the first tests, up to and including the audience check. */
  predicate HeaderValid(req: Request) {
    req.email != "" && !req.report.Missing? && req.hasSummary && req.hasWebsite && req.audience != ""
  }

  /**
   * Each request-level refusal is reported exactly when every earlier test
   * passes and its own fails; a page or issue refusal only once all of them pass.
   */
  lemma RequestErrorOrder(req: Request)
    ensures RequestError(req) == Some(EmailRequired) <==> req.email == ""
    ensures RequestError(req) == Some(ReportRequired) <==> req.email != "" && req.report.Missing?
    ensures RequestError(req) == Some(SummaryRequired) <==>
      req.email != "" && !req.report.Missing? && !req.hasSummary
    ensures RequestError(req) == Some(WebsiteRequired) <==>
      req.email != "" && !req.report.Missing? && req.hasSummary && !req.hasWebsite
    ensures RequestError(req) == Some(AudienceRequired) <==>
      req.email != "" && !req.report.Missing? && req.hasSummary && req.hasWebsite && req.audience == ""
    ensures RequestError(req) == Some(AudienceInvalid) <==> HeaderValid(req) && !AcceptedAudience(req.audience)
    ensures RequestError(req) == Some(ReportNotArray) <==>
      HeaderValid(req) && AcceptedAudience(req.audience) && req.report.NotArray?
    ensures RequestError(req).Some? && (RequestError(req).value.IsPageLevel() || RequestError(req).value.IsIssueLevel())
      <==> HeaderValid(req) && AcceptedAudience(req.audience) && req.report.Pages? && RequestError(req).Some?
  {
    if HeaderValid(req) && AcceptedAudience(req.audience) && req.report.Pages? {
      FirstPageErrorSpec(req.report.pages, 0);
    }
  }

  /**
   * When the request-level fields are in order, the refusal is about the
   * first malformed page, and within it about the first malformed issue.
   */
  lemma FirstMalformedReported(req: Request, i: nat)
    requires req.email != "" && req.report.Pages? && req.hasSummary && req.hasWebsite && AcceptedAudience(req.audience)
    requires i < |req.report.pages| && !PageValid(req.report.pages[i])
    requires forall k :: 0 <= k < i ==> PageValid(req.report.pages[k])
    ensures RequestError(req) == PageError(i, req.report.pages[i])
    ensures RequestError(req).Some?
    ensures var e := RequestError(req).value; (e.IsPageLevel() || e.IsIssueLevel()) && e.page == i
  {
    var pages := req.report.pages;
    FirstPageErrorSpec(pages, 0);
    PageErrorSpec(i, pages[i]);
    var e := FirstPageError(pages, 0).value;
    PageErrorSpec(e.page, pages[e.page]);
  }

  lemma FirstMalformedIssueReported(i: nat, page: SubmittedPage, j: nat)
    requires page.url != "" && page.issues.Some?
    requires j < |page.issues.value| && !IssueValid(page.issues.value[j])
    requires forall l :: 0 <= l < j ==> IssueValid(page.issues.value[l])
    ensures PageError(i, page) == IssueError(i, j, page.issues.value[j])
    ensures PageError(i, page).Some?
    ensures var e := PageError(i, page).value; e.IsIssueLevel() && e.issue == j
  {
    FirstIssueErrorSpec(i, page.issues.value, 0);
  }

  /** Every message about a page opens with "Page N", and N reads back as the 1-based page number. */
  lemma MessageNamesPage(e: ValidationError)
    requires e.IsPageLevel() || e.IsIssueLevel()
    ensures |PageLabel(e.page)| <= |Message(e)| && Message(e)[..|PageLabel(e.page)|] == PageLabel(e.page)
    ensures DigitsValue(NatToString(e.page + 1)) == e.page + 1
  {
    NatToStringValue(e.page + 1);
    if e.IsIssueLevel() {
      MessageNamesIssue(e);
      IssueLabelNamesPage(e.page, e.issue);
      PrefixOfPrefix(PageLabel(e.page), IssueLabel(e.page, e.issue), Message(e));
    } else {
      AppendSliceLeft(PageLabel(e.page), PageReason(e), 0, |PageLabel(e.page)|);
    }
  }

  /** "Page N, Issue M" opens with "Page N". */
  lemma IssueLabelNamesPage(i: nat, j: nat)
    ensures |PageLabel(i)| <= |IssueLabel(i, j)| && IssueLabel(i, j)[..|PageLabel(i)|] == PageLabel(i)
  {
    var p := PageLabel(i);
    AppendSliceLeft(p + ", Issue ", NatToString(j + 1), 0, |p|);
    AppendSliceLeft(p, ", Issue ", 0, |p|);
  }

  /** A prefix of a prefix is a prefix. */
  lemma PrefixOfPrefix(p: string, q: string, m: string)
    requires |q| <= |m| && m[..|q|] == q
    requires |p| <= |q| && q[..|p|] == p
    ensures |p| <= |m| && m[..|p|] == p
  {
    SliceOfSlice(m, 0, |q|, 0, |p|);
  }

  /** Every message about an issue opens with "Page N, Issue M", and M reads back as the 1-based issue number. */
  lemma MessageNamesIssue(e: ValidationError)
    requires e.IsIssueLevel()
    ensures |IssueLabel(e.page, e.issue)| <= |Message(e)|
    ensures Message(e)[..|IssueLabel(e.page, e.issue)|] == IssueLabel(e.page, e.issue)
    ensures DigitsValue(NatToString(e.issue + 1)) == e.issue + 1
  {
    NatToStringValue(e.issue + 1);
    AppendSliceLeft(IssueLabel(e.page, e.issue), IssueReason(e), 0, |IssueLabel(e.page, e.issue)|);
  }

  // ---------------------------------------------------------------------------
  // getWhatToFix
  // ---------------------------------------------------------------------------

  const DefaultGuidance :=
    "Review the specific examples provided for detailed implementation guidance. Follow WCAG 2.1 guidelines for resolution."

  /** The rule ids with guidance of their own. */
  const RuleIds: set<string> := {
    "color-contrast", "link-name", "landmark-main-is-top-level", "landmark-no-duplicate-main",
    "landmark-unique", "page-has-heading-one", "nested-interactive", "aria-dialog-name",
    "landmark-one-main", "region", "presentation-role-conflict" }

  /** The number of rules with guidance of their own. */
  const RuleCount := 11

  /** The rule id of the k-th case of the source's `switch`. */
  function RuleId(k: nat): string {
    match k
    case 0 => "color-contrast"
    case 1 => "link-name"
    case 2 => "landmark-main-is-top-level"
    case 3 => "landmark-no-duplicate-main"
    case 4 => "landmark-unique"
    case 5 => "page-has-heading-one"
    case 6 => "nested-interactive"
    case 7 => "aria-dialog-name"
    case 8 => "landmark-one-main"
    case 9 => "region"
    case 10 => "presentation-role-conflict"
    case _ => ""
  }

  /** The guidance of the k-th case of the source's `switch`. */
  function RuleGuidance(k: nat): string {
    match k
    case 0 =>
      "Use color contrast checking tools to ensure text meets WCAG 2 AA minimum contrast ratio of 4.5:1 for normal text. Check the specific contrast ratios mentioned in the examples and adjust colors accordingly."
    case 1 =>
      "Add descriptive text content, aria-label, or title attribute to all links. Ensure all social media links, navigation elements, and icon buttons have proper accessible labels."
    case 2 =>
      "Ensure the main landmark is not nested inside other landmarks. Place <main> directly in the body element, not within other landmarks like header, nav, or aside."
    case 3 =>
      "Remove duplicate main landmarks and ensure only one main landmark per page. Check for multiple <main> elements and remove duplicates."
    case 4 =>
      "Add unique aria-label or aria-labelledby attributes to distinguish landmarks. This helps screen reader users understand the purpose of each landmark."
    case 5 =>
      "Add a h1 heading to establish the primary purpose of the page. Ensure there is exactly one h1 that describes the main content."
    case 6 =>
      "Remove nested interactive elements and ensure each control is independently focusable. Avoid placing buttons inside buttons or links inside links."
    case 7 =>
      "Add an accessible name to dialog elements using aria-label or aria-labelledby. This helps screen reader users understand the purpose of modal dialogs."
    case 8 =>
      "Add a main landmark to contain the primary content of the page. Wrap the main content area in a <main> element."
    case 9 =>
      "Ensure all page content is contained within appropriate landmarks (header, main, footer, nav, etc.). Use semantic HTML elements to structure the page."
    case 10 =>
      "Ensure elements marked as presentational do not have global ARIA attributes or tabindex. Remove conflicting attributes from decorative elements."
    case _ => DefaultGuidance
  }

  /** The first case of the `switch`, from the k-th on, whose id is `id`. */
  function RuleIndexFrom(k: nat, id: string): (r: Option<nat>)
    ensures r.Some? ==> k <= r.value < RuleCount && RuleId(r.value) == id
    decreases RuleCount - k
  {
    if k >= RuleCount then None
    else if RuleId(k) == id then Some(k)
    else RuleIndexFrom(k + 1, id)
  }

  /** The text after the help sentence, by rule id: the guidance of the first matching case, or the generic text. */
  function Guidance(id: string): string {
    var r := RuleIndexFrom(0, id);
    if r.Some? then RuleGuidance(r.value) else DefaultGuidance
  }

  /** Each listed rule has guidance other than the generic text. */
  lemma RuleGuidanceSpecific(k: nat)
    requires k < RuleCount
    ensures RuleGuidance(k) != DefaultGuidance
  {
  }

  /** The listed ids are pairwise different, so no case of the `switch` shadows another. */
  lemma RuleIdsDistinct(k: nat, l: nat)
    requires k < l < RuleCount
    ensures RuleId(k) != RuleId(l)
  {
  }

  /** The case of a listed rule is its own: no earlier case shadows it. */
  lemma {:induction false} RuleIndexFromRule(k: nat, l: nat)
    requires k <= l < RuleCount
    ensures RuleIndexFrom(k, RuleId(l)) == Some(l)
    decreases l - k
  {
    if k < l {
      RuleIdsDistinct(k, l);
      RuleIndexFromRule(k + 1, l);
    }
  }

  /** Each listed rule gets the guidance of its own case. */
  lemma GuidanceOfRule(l: nat)
    requires l < RuleCount
    ensures Guidance(RuleId(l)) == RuleGuidance(l)
  {
    RuleIndexFromRule(0, l);
  }

  /** The set of listed ids is the set of the cases' ids. */
  lemma RuleIdsListed(id: string)
    ensures id in RuleIds <==> exists l :: 0 <= l < RuleCount && RuleId(l) == id
  {
    if id in RuleIds {
      if id == "color-contrast" { assert RuleId(0) == id; }
      else if id == "link-name" { assert RuleId(1) == id; }
      else if id == "landmark-main-is-top-level" { assert RuleId(2) == id; }
      else if id == "landmark-no-duplicate-main" { assert RuleId(3) == id; }
      else if id == "landmark-unique" { assert RuleId(4) == id; }
      else if id == "page-has-heading-one" { assert RuleId(5) == id; }
      else if id == "nested-interactive" { assert RuleId(6) == id; }
      else if id == "aria-dialog-name" { assert RuleId(7) == id; }
      else if id == "landmark-one-main" { assert RuleId(8) == id; }
      else if id == "region" { assert RuleId(9) == id; }
      else { assert RuleId(10) == id; }
    }
  }

  /** The eleven listed rules get guidance of their own; every other id gets the generic text. */
  lemma GuidanceDefault(id: string)
    ensures Guidance(id) == DefaultGuidance <==> id !in RuleIds
  {
    RuleIdsListed(id);
    var r := RuleIndexFrom(0, id);
    if r.Some? {
      RuleGuidanceSpecific(r.value);
    } else if id in RuleIds {
      var l :| 0 <= l < RuleCount && RuleId(l) == id;
      GuidanceOfRule(l);
      RuleGuidanceSpecific(l);
    }
  }

  /** `getWhatToFix`: the issue's help text, a full stop, and the guidance for its rule. */
  function WhatToFix(issue: Issue): string {
    issue.help + ". " + Guidance(issue.id)
  }

  // ---------------------------------------------------------------------------
  // mapDataToPdfFormat
  // ---------------------------------------------------------------------------

  /** `mappedIssue`: the description becomes the title, the help text the reason, absent lists become empty. */
  function MapIssue(issue: Issue): IssueSummary {
    IssueSummary(issue.description, issue.impact, issue.help, WhatToFix(issue),
                 issue.examples.GetOr([]), issue.resources.GetOr([]))
  }

  /** The issues' mapped forms, in order. */
  function MapIssues(issues: seq<Issue>): seq<IssueSummary> {
    seq(|issues|, k requires 0 <= k < |issues| => MapIssue(issues[k]))
  }

  lemma MapIssuesAppend(issues: seq<Issue>, issue: Issue)
    ensures MapIssues(issues + [issue]) == MapIssues(issues) + [MapIssue(issue)]
  {
    var l, r := MapIssues(issues + [issue]), MapIssues(issues) + [MapIssue(issue)];
    assert forall k :: 0 <= k < |l| ==> l[k] == r[k];
  }

  function HasImpact(level: string): Issue -> bool {
    (issue: Issue) => issue.impact == level
  }

  function IsKnownImpact(issue: Issue): bool {
    issue.impact == "critical" || issue.impact == "serious" || issue.impact == "moderate" || issue.impact == "minor"
  }

  /** The issues of one impact level, in input order, mapped. */
  function Bucket(issues: seq<Issue>, level: string): seq<IssueSummary> {
    MapIssues(Filter(HasImpact(level), issues))
  }

  /** The page the PDF generator receives for a submitted page. */
  function MappedPageOf(page: Page): MappedPage {
    MappedPage(page.url, Buckets(Bucket(page.issues, "critical"), Bucket(page.issues, "serious"),
                                 Bucket(page.issues, "moderate"), Bucket(page.issues, "minor")))
  }

  /** One step of a bucket: the next issue joins it exactly when its impact is the bucket's. */
  lemma BucketStep(issues: seq<Issue>, j: nat, level: string)
    requires j < |issues|
    ensures Bucket(issues[..j + 1], level) ==
      Bucket(issues[..j], level) + (if issues[j].impact == level then [MapIssue(issues[j])] else [])
  {
    assert issues[..j + 1][..j] == issues[..j];
    var f := Filter(HasImpact(level), issues[..j]);
    if issues[j].impact == level {
      assert (f + [issues[j]])[..|f|] == f;
      MapIssuesAppend(f, issues[j]);
    }
  }

  /** The `switch` on an issue's impact: its mapped form joins the bucket of that impact, or none. */
  method Place(critical: seq<IssueSummary>, serious: seq<IssueSummary>, moderate: seq<IssueSummary>,
               minor: seq<IssueSummary>, issue: Issue)
    returns (critical': seq<IssueSummary>, serious': seq<IssueSummary>, moderate': seq<IssueSummary>,
             minor': seq<IssueSummary>)
    ensures critical' == critical + (if issue.impact == "critical" then [MapIssue(issue)] else [])
    ensures serious' == serious + (if issue.impact == "serious" then [MapIssue(issue)] else [])
    ensures moderate' == moderate + (if issue.impact == "moderate" then [MapIssue(issue)] else [])
    ensures minor' == minor + (if issue.impact == "minor" then [MapIssue(issue)] else [])
  {
    critical', serious', moderate', minor' := critical, serious, moderate, minor;
    var m := MapIssue(issue);
    if issue.impact == "critical" {
      critical' := critical + [m];
    } else if issue.impact == "serious" {
      serious' := serious + [m];
    } else if issue.impact == "moderate" {
      moderate' := moderate + [m];
    } else if issue.impact == "minor" {
      minor' := minor + [m];
    }
  }

  /** The `forEach` over a page's issues, pushing each into the bucket of its impact. */
  method MapPage(page: Page) returns (mapped: MappedPage)
    ensures mapped == MappedPageOf(page)
  {
    var critical: seq<IssueSummary> := [];
    var serious: seq<IssueSummary> := [];
    var moderate: seq<IssueSummary> := [];
    var minor: seq<IssueSummary> := [];
    var issues := page.issues;
    var j := 0;
    while j < |issues|
      invariant 0 <= j <= |issues|
      invariant critical == Bucket(issues[..j], "critical")
      invariant serious == Bucket(issues[..j], "serious")
      invariant moderate == Bucket(issues[..j], "moderate")
      invariant minor == Bucket(issues[..j], "minor")
    {
      BucketStep(issues, j, "critical");
      BucketStep(issues, j, "serious");
      BucketStep(issues, j, "moderate");
      BucketStep(issues, j, "minor");
      critical, serious, moderate, minor := Place(critical, serious, moderate, minor, issues[j]);
      j := j + 1;
    }
    assert issues[..j] == issues;
    mapped := MappedPage(page.url, Buckets(critical, serious, moderate, minor));
  }

  /**
   * `mapDataToPdfFormat`: one mapped page per submitted page, in order and with
   * the same URL; the summary and the website come back unchanged.
   */
  method MapDataToPdfFormat(report: seq<Page>, summary: Summary, website: ScannedWebsite)
    returns (mappedReport: seq<MappedPage>, mappedSummary: Summary, mappedWebsite: ScannedWebsite)
    ensures |mappedReport| == |report|
    ensures forall i :: 0 <= i < |report| ==> mappedReport[i] == MappedPageOf(report[i])
    ensures forall i :: 0 <= i < |report| ==> mappedReport[i].url == report[i].url
    ensures mappedSummary == summary && mappedWebsite == website
  {
    mappedReport := [];
    var i := 0;
    while i < |report|
      invariant 0 <= i <= |report|
      invariant |mappedReport| == i
      invariant forall k :: 0 <= k < i ==> mappedReport[k] == MappedPageOf(report[k])
    {
      var page := MapPage(report[i]);
      mappedReport := mappedReport + [page];
      i := i + 1;
    }
    mappedSummary, mappedWebsite := summary, website;
  }

  /**
   * A bucket holds the issues of its impact level, in input order and as often
   * as they occur, and nothing else; each entry is the mapped form of one of them.
   */
  lemma BucketSelection(issues: seq<Issue>, level: string)
    ensures IsSubsequence(Filter(HasImpact(level), issues), issues)
    ensures forall x ::
      multiset(Filter(HasImpact(level), issues))[x] == (if x.impact == level then multiset(issues)[x] else 0)
  {
    FilterSpec(HasImpact(level), issues);
  }

  /** Each entry of a bucket is an input issue of that level with its fields carried over. */
  lemma BucketEntry(issues: seq<Issue>, level: string, k: nat)
    requires k < |Bucket(issues, level)|
    ensures var m := Bucket(issues, level)[k];
      exists x :: x in issues && x.impact == level &&
        (m.title == x.description && m.impact == level && m.whyItMatters == x.help && m.whatToFix == WhatToFix(x) &&
         m.examples == x.examples.GetOr([]) && m.resources == x.resources.GetOr([]))
  {
    var f := Filter(HasImpact(level), issues);
    assert f[k] in f;
  }

  /** The four buckets together hold every issue of a known impact once; issues of any other impact are dropped. */
  lemma BucketSizes(issues: seq<Issue>)
    ensures |Bucket(issues, "critical")| + |Bucket(issues, "serious")| + |Bucket(issues, "moderate")| +
      |Bucket(issues, "minor")| == |Filter(IsKnownImpact, issues)|
  {
    FilterSizes(issues);
  }

  lemma {:induction false} FilterSizes(issues: seq<Issue>)
    ensures |Filter(HasImpact("critical"), issues)| + |Filter(HasImpact("serious"), issues)| +
      |Filter(HasImpact("moderate"), issues)| + |Filter(HasImpact("minor"), issues)| == |Filter(IsKnownImpact, issues)|
    decreases |issues|
  {
    if |issues| > 0 {
      FilterSizes(issues[..|issues| - 1]);
    }
  }

  // ---------------------------------------------------------------------------
  // generateEmailText
  // ---------------------------------------------------------------------------

  datatype Audience = Developer | EndUser

  /** `${score}` for a score held in tenths: the whole part, then "." and the tenth unless it is 0. */
  function ScoreText(score10: nat): string {
    NatToString(score10 / 10) + (if score10 % 10 == 0 then "" else "." + [DigitChar(score10 % 10)])
  }

  /** Reads a score back, in tenths, from its decimal text. */
  function TenthsValue(t: string): int {
    if |t| >= 2 && t[|t| - 2] == '.' then DigitsValue(t[..|t| - 2]) * 10 + DigitValue(t[|t| - 1])
    else DigitsValue(t) * 10
  }

  /** The printed score denotes the score: reading it back gives the same number of tenths. */
  lemma ScoreTextValue(score10: nat)
    ensures TenthsValue(ScoreText(score10)) == score10
  {
    var whole := NatToString(score10 / 10);
    NatToStringValue(score10 / 10);
    var t := ScoreText(score10);
    if score10 % 10 == 0 {
      assert t == whole;
      if |t| >= 2 {
        assert IsDigit(t[|t| - 2]);
      }
    } else {
      assert t == whole + ['.', DigitChar(score10 % 10)];
      assert t[..|t| - 2] == whole;
    }
  }

  /** A bullet line of the end-user text: present with its count when the count is positive, else empty. */
  function Bullet(count: nat, text: string): string {
    if count > 0 then "• " + NatToString(count) + text else ""
  }

  /** The fixed lines and labels of the developer template. */
  datatype DeveloperWording = DeveloperWording(
    title: string,
    website: string,
    score: string,
    total: string,
    breakdown: string,
    critical: string,
    serious: string,
    moderate: string,
    minor: string,
    attachment: string,
    priorities: string,
    first: string,
    second: string,
    third: string,
    fourth: string,
    closing: string,
    signature: string)

  const DeveloperText := DeveloperWording(
    "Accessibility Scan Report - Developer Version",
    "Website: ",
    "Overall Score: ",
    "Total Issues Found: ",
    "Breakdown by Severity:",
    "- Critical Issues: ",
    "- Serious Issues: ",
    "- Moderate Issues: ",
    "- Minor Issues: ",
    "The attached PDF contains detailed technical information, code examples, and step-by-step fixes for all identified issues.",
    "Priority Recommendations:",
    "1. Address all CRITICAL and SERIOUS issues first",
    "2. Fix color contrast issues for better readability",
    "3. Add proper labels to all interactive elements",
    "4. Ensure proper document structure and landmarks",
    "Best regards,",
    "Accessibility Scanner Team")

  /** The fixed lines and phrases of the end-user template. */
  datatype EndUserWording = EndUserWording(
    title: string,
    website: string,
    score: string,
    foundPrefix: string,
    foundSuffix: string,
    keyAreas: string,
    criticalText: string,
    seriousText: string,
    moderateText: string,
    share: string,
    closing: string,
    signature: string)

  const EndUserText := EndUserWording(
    "Accessibility Summary Report",
    "Website: ",
    "Overall Accessibility Score: ",
    "We found ",
    " accessibility considerations for your website. ",
    "Key Areas for Improvement:",
    " high-priority items needing immediate attention",
    " important improvements for better user experience",
    " recommendations for enhanced accessibility",
    "For detailed technical fixes, please share this report with your development team.",
    "Best regards,",
    "Accessibility Scanner Team")

  /** The lines of the developer template, after `trim`. */
  function DeveloperLines(w: DeveloperWording, summary: Summary, websiteUrl: string): seq<string> {
    [ w.title,
      "",
      w.website + websiteUrl,
      w.score + ScoreText(summary.score10) + "%",
      w.total + NatToString(summary.totalIssues),
      "",
      w.breakdown,
      w.critical + NatToString(summary.critical),
      w.serious + NatToString(summary.serious) + " ",
      w.moderate + NatToString(summary.moderate),
      w.minor + NatToString(summary.minor),
      "",
      w.attachment,
      "",
      w.priorities,
      w.first,
      w.second,
      w.third,
      w.fourth,
      "",
      w.closing,
      w.signature ]
  }

  /** The lines of the end-user template, after `trim`; lines 8 to 10 are the conditional bullets. */
  function EndUserLines(w: EndUserWording, summary: Summary, websiteUrl: string): seq<string> {
    [ w.title,
      "",
      w.website + websiteUrl,
      w.score + ScoreText(summary.score10) + "%",
      "",
      w.foundPrefix + NatToString(summary.totalIssues) + w.foundSuffix,
      "",
      w.keyAreas,
      Bullet(summary.critical, w.criticalText),
      Bullet(summary.serious, w.seriousText),
      Bullet(summary.moderate, w.moderateText),
      "",
      w.share,
      "",
      w.closing,
      w.signature ]
  }

  /**
   * `generateEmailText`. Both templates begin and end with a line break and
   * indentation that `trim` removes; what is left starts and ends with a
   * non-blank line, so the text is exactly the template's lines.
   */
  function EmailText(summary: Summary, audience: Audience, websiteUrl: string): string {
    match audience
    case Developer => JoinLines(DeveloperLines(DeveloperText, summary, websiteUrl))
    case EndUser => JoinLines(EndUserLines(EndUserText, summary, websiteUrl))
  }

  /** In any wording, the bullet lines are there exactly for the positive counts, and the text holds them. */
  lemma EndUserBulletsIn(w: EndUserWording, summary: Summary, websiteUrl: string)
    ensures var lines := EndUserLines(w, summary, websiteUrl);
      && (lines[8] != "" <==> summary.critical > 0)
      && (lines[9] != "" <==> summary.serious > 0)
      && (lines[10] != "" <==> summary.moderate > 0)
    ensures var text := JoinLines(EndUserLines(w, summary, websiteUrl));
      && (summary.critical > 0 ==> Contains(text, "• " + NatToString(summary.critical) + w.criticalText))
      && (summary.serious > 0 ==> Contains(text, "• " + NatToString(summary.serious) + w.seriousText))
      && (summary.moderate > 0 ==> Contains(text, "• " + NatToString(summary.moderate) + w.moderateText))
  {
    var lines := EndUserLines(w, summary, websiteUrl);
    JoinLinesHas(lines, 8, Bullet(summary.critical, w.criticalText));
    JoinLinesHas(lines, 9, Bullet(summary.serious, w.seriousText));
    JoinLinesHas(lines, 10, Bullet(summary.moderate, w.moderateText));
  }

  /**
   * In the end-user text the critical, serious and moderate lines are
   * non-empty exactly when their count is positive, and then the text
   * contains them with the count.
   */
  lemma EndUserBullets(summary: Summary, websiteUrl: string)
    ensures var lines := EndUserLines(EndUserText, summary, websiteUrl);
      && (lines[8] != "" <==> summary.critical > 0)
      && (lines[9] != "" <==> summary.serious > 0)
      && (lines[10] != "" <==> summary.moderate > 0)
    ensures var text := EmailText(summary, EndUser, websiteUrl);
      && (summary.critical > 0 ==> Contains(text, "• " + NatToString(summary.critical) + EndUserText.criticalText))
      && (summary.serious > 0 ==> Contains(text, "• " + NatToString(summary.serious) + EndUserText.seriousText))
      && (summary.moderate > 0 ==> Contains(text, "• " + NatToString(summary.moderate) + EndUserText.moderateText))
  {
    EndUserBulletsIn(EndUserText, summary, websiteUrl);
  }

  /** Minor issues are never itemised in the end-user text: their count does not change it. */
  lemma EndUserIgnoresMinor(summary: Summary, minor: nat, websiteUrl: string)
    ensures EmailText(summary, EndUser, websiteUrl) == EmailText(summary.(minor := minor), EndUser, websiteUrl)
  {
    assert EndUserLines(EndUserText, summary, websiteUrl) == EndUserLines(EndUserText, summary.(minor := minor), websiteUrl);
  }

  /** In any wording, the developer text states the score and the total. */
  lemma DeveloperTotalsIn(w: DeveloperWording, summary: Summary, websiteUrl: string)
    ensures var text := JoinLines(DeveloperLines(w, summary, websiteUrl));
      && Contains(text, w.score + ScoreText(summary.score10) + "%")
      && Contains(text, w.total + NatToString(summary.totalIssues))
  {
    var lines := DeveloperLines(w, summary, websiteUrl);
    JoinLinesHas(lines, 3, w.score + ScoreText(summary.score10) + "%");
    JoinLinesHas(lines, 4, w.total + NatToString(summary.totalIssues));
  }

  /** In any wording, the developer text lists each of the four counts. */
  lemma DeveloperSeveritiesIn(w: DeveloperWording, summary: Summary, websiteUrl: string)
    ensures var text := JoinLines(DeveloperLines(w, summary, websiteUrl));
      && Contains(text, w.critical + NatToString(summary.critical))
      && Contains(text, w.serious + NatToString(summary.serious) + " ")
      && Contains(text, w.moderate + NatToString(summary.moderate))
      && Contains(text, w.minor + NatToString(summary.minor))
  {
    var lines := DeveloperLines(w, summary, websiteUrl);
    JoinLinesHas(lines, 7, w.critical + NatToString(summary.critical));
    JoinLinesHas(lines, 8, w.serious + NatToString(summary.serious) + " ");
    JoinLinesHas(lines, 9, w.moderate + NatToString(summary.moderate));
    JoinLinesHas(lines, 10, w.minor + NatToString(summary.minor));
  }

  /** The developer text lists the score, the total and each of the four counts. */
  lemma DeveloperListsCounts(summary: Summary, websiteUrl: string)
    ensures var text, w := EmailText(summary, Developer, websiteUrl), DeveloperText;
      && Contains(text, w.score + ScoreText(summary.score10) + "%")
      && Contains(text, w.total + NatToString(summary.totalIssues))
      && Contains(text, w.critical + NatToString(summary.critical))
      && Contains(text, w.serious + NatToString(summary.serious) + " ")
      && Contains(text, w.moderate + NatToString(summary.moderate))
      && Contains(text, w.minor + NatToString(summary.minor))
  {
    DeveloperTotalsIn(DeveloperText, summary, websiteUrl);
    DeveloperSeveritiesIn(DeveloperText, summary, websiteUrl);
  }
}
