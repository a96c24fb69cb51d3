/**
 * The report shapes that the email controller builds and the developer PDF
 * generator reads: the `IssueSummary`, `MappedPageSummary`, `Summary` and
 * `ScannedWebsite` interfaces, declared alike in
 * src/controllers/emailController.ts and src/utils/generateDeveloperPdf.ts.
 */
module Report {

  /** One failing element as the front end reports it. */
  datatype Example = Example(element: string, snippet: string, problem: string)

  /** An issue as the PDF generator expects it. */
  datatype IssueSummary = IssueSummary(
    title: string,
    impact: string,
    whyItMatters: string,
    whatToFix: string,
    examples: seq<Example>,
    resources: seq<string>)

  /** The four impact buckets of a page, most severe first. */
  datatype Buckets = Buckets(
    critical: seq<IssueSummary>,
    serious: seq<IssueSummary>,
    moderate: seq<IssueSummary>,
    minor: seq<IssueSummary>)

  datatype MappedPage = MappedPage(url: string, summary: Buckets)

  /**
   * The overall figures of a scan. The score is kept in tenths of a point
   * (`score10 = 725` is a score of 72.5), the precision the scan service
   * rounds it to; `none` is the bucket the source keys `null`.
   */
  datatype Summary = Summary(
    score10: nat,
    totalIssues: nat,
    critical: nat,
    serious: nat,
    moderate: nat,
    minor: nat,
    none: nat)

  datatype ScannedWebsite = ScannedWebsite(id: string, url: string, date: string)

  /** The number of issues listed for a page: the four bucket lengths added up. */
  function IssueCount(page: MappedPage): nat {
    |page.summary.critical| + |page.summary.serious| + |page.summary.moderate| + |page.summary.minor|
  }
}
