# Accessibility scanner: crawl, scoring, report e-mail and developer PDF

This project models the core of a web accessibility scanner's back end in Dafny:

- the bounded breadth-first crawl that audits the pages of a site (`runAccessibilityScan`);
- the service that tallies the violations found and computes a weighted score (`performWebsiteScan`);
- the e-mail controller that checks a report request, puts a report's issues into impact buckets for the PDF generators, looks up repair guidance and writes the e-mail text;
- the pure helpers of the developer PDF generator: colours, text truncation, recommendations, the filter for pages with issues, the caps on listed examples and resources, the page-break rule and the input checks.

Modules:

- `Common` holds Option/Result, the string helpers (prefix, infix, numbers as text, joined lines) and the sequence helpers (take, filter, subsequence, distinctness).
- `Report` holds the report shapes that the controller builds and the PDF generator reads.
- `Crawler` models the crawl. The spec functions `Claim`, `CompleteOne`, `Step` and `Run` define it. The class `Crawl` holds the source's `queue`, `visited` and `results`, and its methods are proved to follow those functions.
  - The browser is a parameter `visit: string -> Visit`. `Failed` stands for a throw before the result is pushed. `Audited(violations, hrefs)` is a successful audit, where `hrefs` is `None` when collecting the anchors threw.
  - `new URL(link).toString()` is another parameter, `normalize: string -> Option<string>`.
  - A batch runs in two phases, in the order JavaScript runs them. First, each entry's synchronous prefix (the visited test and mark) runs for the whole batch. Then each claimed entry finishes its visit, in batch order.
- `ScanService` models `performWebsiteScan`. The score is held exactly, in tenths of a point, and is proved equal to the source's real-valued formula rounded half up.
- `EmailController` models `validateRequestData`, `mapDataToPdfFormat`, `getWhatToFix` and `generateEmailText`.
- `DeveloperPdf` models the pure parts of `generateDeveloperPDF`.

## Model

| member | source | states |
|---|---|---|
| Crawler.CandidateLinks | src/utils/accessibilityTest.ts:114-125 | at most 10 links, each one of the page's hrefs that starts with "http" and contains none of "#", "mailto:" or "tel:" |
| Crawler.CandidateLinksOrder | src/utils/accessibilityTest.ts:114-125 | the first 10 passing hrefs are kept, in document order: a passing href preceded by m < 10 passing hrefs is link number m + 1; when fewer than 10 are kept, every passing href is kept |
| Crawler.Enqueued | src/utils/accessibilityTest.ts:127-136 | the for-loop over links appends at most one entry per link |
| Crawler.EnqueuedSpec | src/utils/accessibilityTest.ts:127-136 | an entry is appended iff some link normalises to its URL, that URL is not visited and results are under budget; it has depth + 1; links that fail to normalise are skipped |
| Crawler.EnqueuedOrder | src/utils/accessibilityTest.ts:127-136 | the appended entries follow the order of the links |
| Crawler.EnqueuedUnderBudget | src/utils/accessibilityTest.ts:130 | nothing is appended once results reach maxScans |
| Crawler.EnqueuedSource | src/utils/accessibilityTest.ts:129-131 | each appended entry is one level deeper and comes from a link that normalises to its URL |
| Crawler.CompleteOne | src/utils/accessibilityTest.ts:82-139 | finishing one visit leaves visited unchanged, pushes at most this page's result, and only appends to the queue |
| Crawler.BatchSize | src/utils/accessibilityTest.ts:73 | the splice takes no more than the queue holds, and at least one entry when concurrency >= 1 and the queue is non-empty |
| Crawler.ClaimOrder | src/utils/accessibilityTest.ts:75-77 | the claimed entries are a subsequence of the batch |
| Crawler.ClaimEntries | src/utils/accessibilityTest.ts:76-77 | an entry is claimed only if it is in the batch, its URL was not visited and its depth is within maxDepth; every claimed URL is marked visited |
| Crawler.ClaimDistinct | src/utils/accessibilityTest.ts:76-77 | no two claimed entries share a URL, even when the batch repeats one |
| Crawler.ClaimVisited | src/utils/accessibilityTest.ts:76-77 | after phase 1, visited is the old set plus the URL of every batch entry within maxDepth |
| Crawler.SkippedEntry | src/utils/accessibilityTest.ts:76 | an entry that is already visited or too deep is not claimed, so it yields no result and no links |
| Crawler.ClaimAllFresh | src/utils/accessibilityTest.ts:76-77 | a batch of distinct, unvisited entries within the depth limit is claimed whole |
| Crawler.ClaimLeavesOthers | src/utils/accessibilityTest.ts:76-77 | a URL held by no batch entry stays unvisited through phase 1 |
| Crawler.Audits | src/utils/accessibilityTest.ts:107-139 | at most one result per claimed entry |
| Crawler.CompleteResults | src/utils/accessibilityTest.ts:107-147 | phase 2 appends exactly the audit results of the claimed entries, in batch order, and leaves visited unchanged |
| Crawler.AuditsUrls | src/utils/accessibilityTest.ts:107 | every result URL belongs to a claimed entry, and distinct claimed URLs give distinct result URLs |
| Crawler.AuditsClaimed | src/utils/accessibilityTest.ts:107 | every result URL belongs to a claimed entry |
| Crawler.AuditsDistinct | src/utils/accessibilityTest.ts:107 | distinct claimed URLs give distinct result URLs |
| Crawler.AuditsAllSucceed | src/utils/accessibilityTest.ts:107 | when every visit succeeds, each claimed entry yields a result |
| Crawler.StepResults | src/utils/accessibilityTest.ts:72-147 | one iteration adds the results of the claimed entries and at most BatchSize results |
| Crawler.StepFifo | src/utils/accessibilityTest.ts:73-131 | the queue is FIFO: an iteration removes the first BatchSize entries and appends new ones at the back |
| Crawler.CompletePrefix | src/utils/accessibilityTest.ts:131 | phase 2 only appends to the queue |
| Crawler.NoProgressWithoutConcurrency | src/utils/accessibilityTest.ts:72-73 | with concurrency <= 0 an iteration changes nothing, so the source loop never stops |
| Crawler.CompleteOneMeasure | src/utils/accessibilityTest.ts:107-136 | a completed visit never raises the termination measure: each result pays for at most 10 links |
| Crawler.CompleteMeasure | src/utils/accessibilityTest.ts:75-147 | phase 2 never raises the termination measure |
| Crawler.StepDecreases | src/utils/accessibilityTest.ts:72-148 | with concurrency >= 1, each iteration on a non-empty queue lowers the measure, so the loop terminates |
| Crawler.RunBudget | src/utils/accessibilityTest.ts:72-130 | the final number of results is at most maxScans + concurrency - 1 |
| Crawler.BudgetOvershoot | src/utils/accessibilityTest.ts:72-107 | 9 results plus a batch of 3 fresh pages that succeed end with 12 results, above maxScans = 10 |
| Crawler.FreshResults | src/utils/accessibilityTest.ts:76-107 | appending distinct results for newly visited URLs keeps the results unique and visited |
| Crawler.StepUnique | src/utils/accessibilityTest.ts:72-147 | an iteration preserves: no URL twice in results, every result URL visited |
| Crawler.RunUnique | src/utils/accessibilityTest.ts:72-148 | the whole crawl preserves that invariant |
| Crawler.LinkReachable | src/utils/accessibilityTest.ts:113-131 | a link target of a page reachable in d hops is reachable in d + 1 |
| Crawler.EnqueuedDepth | src/utils/accessibilityTest.ts:113-131 | entries appended from a page at depth < maxDepth have depth + 1 <= maxDepth and are reachable in that many hops |
| Crawler.CompleteOneDepth | src/utils/accessibilityTest.ts:107-136 | one visit preserves the depth invariant on queue and results |
| Crawler.CompleteOneQueueDepth | src/utils/accessibilityTest.ts:113-131 | after one visit, every queue entry has depth within [0, maxDepth] and is reachable in that many hops |
| Crawler.CompleteOneResultsDepth | src/utils/accessibilityTest.ts:107 | after one visit, every result URL is within maxDepth hops of the start |
| Crawler.CompleteDepth | src/utils/accessibilityTest.ts:75-147 | phase 2 preserves the depth invariant |
| Crawler.StepDepth | src/utils/accessibilityTest.ts:72-147 | an iteration preserves the depth invariant |
| Crawler.RunDepth | src/utils/accessibilityTest.ts:46-148 | no queue entry is ever deeper than maxDepth, and every result URL is within maxDepth hops of the start |
| Crawler.AccessibilityScan | src/utils/accessibilityTest.ts:31-155 | a missing or non-string start URL, or a failed browser launch, gives no results |
| Crawler.ZeroBudgetScan | src/utils/accessibilityTest.ts:72 | with maxScans <= 0 the loop never runs and the scan returns no results, whatever the concurrency |
| Crawler.AccessibilityScanSpec | src/utils/accessibilityTest.ts:34-155 | a successful crawl reports each URL once, every result reachable within maxDepth hops, at most maxScans + concurrency - 1 results |
| Crawler.Crawl.constructor | src/utils/accessibilityTest.ts:44-46 | queue holds the start entry at depth 0; visited and results are empty |
| Crawler.Crawl.ClaimBatch | src/utils/accessibilityTest.ts:73-77 | splices off min(concurrency, queue length) entries and runs phase 1 on them (Claim) |
| Crawler.Crawl.EnqueueLinks | src/utils/accessibilityTest.ts:127-136 | appends exactly Enqueued(...) to the queue |
| Crawler.Crawl.VisitPage | src/utils/accessibilityTest.ts:82-144 | the new state is CompleteOne of the old |
| Crawler.Crawl.RunBatch | src/utils/accessibilityTest.ts:72-148 | the new state is Step of the old |
| Crawler.RunAccessibilityScan | src/utils/accessibilityTest.ts:31-155 | returns AccessibilityScan(...), so every property above holds for it |
| ScanService.AllViolationsSpec | src/services/scanService.ts:56-62 | a violation is tallied iff some page reported it |
| ScanService.TotalIsBucketSum | src/services/scanService.ts:47-61 | totalIssues equals critical + serious + moderate + minor + null |
| ScanService.NodesWithAppend | src/services/scanService.ts:56-61 | the tallies of two lists of violations add up bucket by bucket |
| ScanService.NodesWithSwap | src/services/scanService.ts:56-61 | the tallies do not depend on the order of the pages |
| ScanService.CountsStep | src/services/scanService.ts:58-61 | one violation adds its node count to the bucket of its impact (null when absent) and to the total |
| ScanService.TallyPage | src/services/scanService.ts:58-62 | the inner forEach continues the tallies over one page's violations |
| ScanService.CountIssues | src/services/scanService.ts:47-62 | the nested loops compute the per-impact node counts and the total of all violations |
| ScanService.Penalty | src/services/scanService.ts:93-97 | the weighted penalty is at most 5 per issue and at least 1 per issue with an impact |
| ScanService.Score10IsRounded | src/services/scanService.ts:99-103 | the integer score in tenths equals max(0, round(10 * (100 - P / ((T + 10) * 5) * 100)) ) over the reals |
| ScanService.FloorOfQuotient | src/services/scanService.ts:103 | `Math.round`'s floor of a quotient is integer division |
| ScanService.ScoreRange | src/services/scanService.ts:99-103 | the score lies in [0, 100] in tenths; the `totalAudits === 0` branch and the clamp at 0 never decide anything |
| ScanService.ScoreBounds | src/services/scanService.ts:99-103 | a penalty of at most 5 per issue gives an unclamped score in [0, 1000] tenths |
| ScanService.PerfectScore | src/services/scanService.ts:99-103 | with zero issues the score is exactly 100 |
| ScanService.ZeroScore | src/services/scanService.ts:99-103 | no issues and no penalty give 1000 tenths |
| ScanService.ExampleScore | src/services/scanService.ts:93-103 | three single-node critical and two single-node serious violations give penalty 21, 15 audits and score 72.0 |
| ScanService.ScoreNotMonotone | src/services/scanService.ts:99-103 | more issues can raise the score: 90.9 with one critical node becomes 91.7 after adding a node with no impact |
| ScanService.WebsiteScan | src/services/scanService.ts:17-39 | "User not found" exactly when the user lookup fails, success otherwise |
| ScanService.WebsiteScanSpec | src/services/scanService.ts:23-128 | no results iff the crawl is empty, with its message; otherwise the stats record and the returned summary agree, the total is the bucket sum, the score is in [0, 100] and at most 12 pages were scanned |
| ScanService.PerformWebsiteScan | src/services/scanService.ts:17-128 | the step-by-step service returns WebsiteScan(...) |
| EmailController.IssueError | src/controllers/emailController.ts:299-302 | an issue is refused iff one of id, impact, description or help is missing; the refusal names its page and issue |
| EmailController.ValidateRequestData | src/controllers/emailController.ts:274-307 | the nested loops with early returns compute Validate(req) |
| EmailController.FirstIssueErrorSpec | src/controllers/emailController.ts:297-303 | no refusal iff all remaining issues are well formed; otherwise the refused issue is malformed and all issues before it are well formed |
| EmailController.FirstPageErrorSpec | src/controllers/emailController.ts:291-304 | the same for pages: the first malformed page decides the refusal |
| EmailController.PageErrorSpec | src/controllers/emailController.ts:293-303 | a page is refused iff its URL is missing, its issues are not an array, or one of its issues is malformed, and the refusal names it |
| EmailController.ValidateNullIff | src/controllers/emailController.ts:280-306 | `null` iff every field, page and issue is well formed |
| EmailController.RequestErrorOrder | src/controllers/emailController.ts:281-288 | each request-level message is returned iff all earlier checks pass and its own fails; the audience must be exactly "developer" or "enduser"; page errors come only after all of them |
| EmailController.FirstMalformedReported | src/controllers/emailController.ts:291-303 | the first malformed page is the one reported |
| EmailController.FirstMalformedIssueReported | src/controllers/emailController.ts:297-303 | within a page, the first malformed issue is the one reported |
| EmailController.MessageNamesPage | src/controllers/emailController.ts:293-302 | every page or issue message opens with "Page N", where N reads back as the 1-based page number |
| EmailController.IssueLabelNamesPage | src/controllers/emailController.ts:299-302 | "Page N, Issue M" opens with "Page N" |
| EmailController.MessageNamesIssue | src/controllers/emailController.ts:299-302 | every issue message opens with "Page N, Issue M", where M reads back as the 1-based issue number |
| EmailController.RuleIndexFrom | src/controllers/emailController.ts:178-211 | a found switch case lies in range and has the given rule id |
| EmailController.RuleGuidanceSpecific | src/controllers/emailController.ts:179-211 | each listed rule's guidance differs from the generic text |
| EmailController.RuleIdsDistinct | src/controllers/emailController.ts:179-209 | the 11 listed rule ids are pairwise different |
| EmailController.RuleIndexFromRule | src/controllers/emailController.ts:178-211 | no earlier case shadows a listed rule |
| EmailController.GuidanceOfRule | src/controllers/emailController.ts:178-211 | each listed rule gets the text of its own case |
| EmailController.RuleIdsListed | src/controllers/emailController.ts:179-209 | the listed id set is exactly the ids of the 11 cases |
| EmailController.GuidanceDefault | src/controllers/emailController.ts:174-214 | the generic "Follow WCAG 2.1 guidelines" text is given iff the id is not one of the 11 |
| EmailController.MapIssuesAppend | src/controllers/emailController.ts:88-95 | mapping issue by issue keeps their order |
| EmailController.BucketStep | src/controllers/emailController.ts:98-117 | the next issue joins a bucket iff its impact is that bucket's |
| EmailController.Place | src/controllers/emailController.ts:88-117 | the switch pushes the mapped issue (title = description, whyItMatters = help, absent lists become []) onto the bucket of its impact, or onto none |
| EmailController.MapPage | src/controllers/emailController.ts:79-121 | the forEach builds the page's four buckets as MappedPageOf |
| EmailController.MapDataToPdfFormat | src/controllers/emailController.ts:62-169 | one mapped page per input page, in order, with the same URL; summary and website come back unchanged |
| EmailController.BucketSelection | src/controllers/emailController.ts:98-117 | a bucket holds the issues of its impact, in input order and as often as they occur, and nothing else |
| EmailController.BucketEntry | src/controllers/emailController.ts:88-117 | each bucket entry is an input issue of that impact with title = description and whyItMatters = help |
| EmailController.BucketSizes | src/controllers/emailController.ts:98-117 | the bucket sizes add up to the number of issues with a known impact; others are dropped |
| EmailController.FilterSizes | src/controllers/emailController.ts:98-117 | the four impact filters together select each known-impact issue once |
| EmailController.ScoreTextValue | src/controllers/emailController.ts:229-254 | the printed score reads back as the same number of tenths |
| EmailController.EndUserBulletsIn | src/controllers/emailController.ts:250-267 | in any wording, a bullet line is present iff its count is positive, and the text holds it |
| EmailController.EndUserBullets | src/controllers/emailController.ts:258-261 | the critical, serious and moderate lines appear, with their counts, iff the count is positive |
| EmailController.EndUserIgnoresMinor | src/controllers/emailController.ts:250-267 | the minor count never changes the end-user text |
| EmailController.DeveloperTotalsIn | src/controllers/emailController.ts:225-248 | in any wording, the developer text states the score and the total |
| EmailController.DeveloperSeveritiesIn | src/controllers/emailController.ts:232-236 | in any wording, the developer text lists each of the four counts |
| EmailController.DeveloperListsCounts | src/controllers/emailController.ts:225-248 | the developer text lists the score, the total and the four counts |
| DeveloperPdf.CheckInputs | src/utils/generateDeveloperPdf.ts:64-74 | success iff report, summary and website are all present; otherwise the first missing one is named, in that order |
| DeveloperPdf.ScoreColor | src/utils/generateDeveloperPdf.ts:287-291 | green iff score >= 90, orange iff 70 <= score < 90, red iff score < 70 |
| DeveloperPdf.ScoreColorMonotone | src/utils/generateDeveloperPdf.ts:287-291 | a higher score never gets a worse colour |
| DeveloperPdf.ImpactColor | src/utils/generateDeveloperPdf.ts:293-301 | critical iff red, serious iff orange, moderate iff blue, minor iff gray; anything else iff black; never green |
| DeveloperPdf.TruncateText | src/utils/generateDeveloperPdf.ts:303-307 | empty gives "No text available"; a text that fits is unchanged; otherwise the first max - 3 characters plus "...", of length max (3 when max < 3) |
| DeveloperPdf.TruncateTextFits | src/utils/generateDeveloperPdf.ts:303-307 | the result fits whenever max is at least the length of the placeholder |
| DeveloperPdf.TruncateTextIdempotent | src/utils/generateDeveloperPdf.ts:303-307 | truncating twice equals truncating once |
| DeveloperPdf.RecommendationList | src/utils/generateDeveloperPdf.ts:310-321 | the fixed list has 10 items |
| DeveloperPdf.Item1Kept | src/utils/generateDeveloperPdf.ts:324-329 | item 1 is kept iff critical > 0 |
| DeveloperPdf.Item2Kept | src/utils/generateDeveloperPdf.ts:324-342 | item 2 is kept iff serious > 0 |
| DeveloperPdf.Item3Kept | src/utils/generateDeveloperPdf.ts:324-329 | item 3 is always kept |
| DeveloperPdf.Item4Kept | src/utils/generateDeveloperPdf.ts:324-348 | item 4 is kept iff moderate > 0 |
| DeveloperPdf.Item5Kept | src/utils/generateDeveloperPdf.ts:324-329 | item 5 is always kept |
| DeveloperPdf.Item6Kept | src/utils/generateDeveloperPdf.ts:324-329 | item 6 is always kept |
| DeveloperPdf.Item7Kept | src/utils/generateDeveloperPdf.ts:324-329 | item 7 is always kept |
| DeveloperPdf.Item8Kept | src/utils/generateDeveloperPdf.ts:324-329 | item 8 is always kept |
| DeveloperPdf.Item9Kept | src/utils/generateDeveloperPdf.ts:324-329 | item 9 is always kept |
| DeveloperPdf.Item10Kept | src/utils/generateDeveloperPdf.ts:324-329 | item 10 is always kept |
| DeveloperPdf.LacksColorContrast | src/utils/generateDeveloperPdf.ts:326 | a text without "contrast" cannot contain "color contrast" |
| DeveloperPdf.ItemKept | src/utils/generateDeveloperPdf.ts:324-329 | the filter's test keeps item k+1 exactly under the per-position rule: k = 0 iff critical > 0, k = 1 iff serious > 0, k = 3 iff moderate > 0, every other position always |
| DeveloperPdf.FixedListSelects | src/utils/generateDeveloperPdf.ts:324-329 | the fixed list of 10 follows that per-position rule at every position |
| DeveloperPdf.SelectionOfTen | src/utils/generateDeveloperPdf.ts:324-329 | filtering any list of 10 that follows the rule keeps item 1 if critical > 0, item 2 if serious > 0, item 3, item 4 if moderate > 0, then items 5 to 10 |
| DeveloperPdf.GetRecommendationsSelects | src/utils/generateDeveloperPdf.ts:309-336 | the result is item 1 if critical > 0, item 2 if serious > 0, item 3, item 4 if moderate > 0, then items 5 to 10, in order |
| DeveloperPdf.GetRecommendationsNeverFallback | src/utils/generateDeveloperPdf.ts:309-336 | 7 to 10 items, an order-preserving sublist of the 10, never the fallback list |
| DeveloperPdf.PagesWithIssuesSpec | src/utils/generateDeveloperPdf.ts:139-147 | exactly the pages whose four bucket lengths sum above 0, in input order |
| DeveloperPdf.ExamplesOf | src/utils/generateDeveloperPdf.ts:203-221 | no examples block iff there are none; otherwise the count found, the first min(2, N) examples shown, and "... and N - 2 more" iff N > 2 |
| DeveloperPdf.ExamplesBounded | src/utils/generateDeveloperPdf.ts:205-213 | shown examples are numbered 1 or 2, with element at most 70 and problem at most 80 characters |
| DeveloperPdf.ResourcesOf | src/utils/generateDeveloperPdf.ts:224-231 | no resources block iff there are none; otherwise the first min(2, N), numbered and truncated to 80 |
| DeveloperPdf.ResourcesBounded | src/utils/generateDeveloperPdf.ts:226-230 | each shown resource is at most 80 characters |
| DeveloperPdf.DetailedFindings | src/utils/generateDeveloperPdf.ts:151-245 | one section per page with issues |
| DeveloperPdf.LevelsListed | src/utils/generateDeveloperPdf.ts:178-181 | one level per non-empty bucket; each is a severity with a non-black colour and a positive count equal to its number of issues |
| DeveloperPdf.DetailedFindingsSpec | src/utils/generateDeveloperPdf.ts:157-245 | section i is numbered i + 1 with a positive issue count; a page break follows iff the page is not the last and has more than 3 issues; the last page never breaks |

Helper lemmas without a row: the generic ones in `Common`; `Crawler.SubsequencePrefix` and `Crawler.SubsequenceLength`; the filter-shape lemmas `DeveloperPdf.FilterSnoc`, `FilterKeepsPassing`, `FilterOfFour` and `FilterOfTen`; `EmailController.PrefixOfPrefix`; and the 27 `DeveloperPdf.ItemNLacks…` lemmas. Each of the last says that recommendation N lacks one of the words "CRITICAL", "contrast" or "landmarks", and the `ItemNKept` lemmas are built from them.

## Left out

- Browser automation (Puppeteer, axe-core, page set-up and closing, `getChromePath`) is replaced by the `visit` parameter, and the launch outcome by the `launched` flag.
- `new URL(...)` parsing is replaced by the `normalize` parameter. The start URL is never normalised, as in the source.
- `Promise.all` interleaving: phase 2 completes the claimed entries in batch order. Other completion orders are not modelled.
- A rejection that escapes a page's own `catch` (for example `page.close()` failing in the `finally`) rejects `Promise.all`; the outer `catch` then returns the results gathered so far. The model has no such rejection: a visit either fails inside its `catch` or completes.
- Crawler.RunAccessibilityScan: after a successful launch with a positive maxScans, requires concurrency >= 1, because the source loops forever otherwise (`Crawler.NoProgressWithoutConcurrency`). With maxScans <= 0 any concurrency is accepted and the result is empty (`Crawler.ZeroBudgetScan`).
- Crawler.AccessibilityScanSpec: the bound on results is maxScans + concurrency - 1, not maxScans, because the source checks the budget only before a batch (`Crawler.BudgetOvershoot`).
- ScanService.ScoreNotMonotone: score monotonicity in the number of issues does not hold, because of the baseline of 10 audits, so it is not claimed.
- `decodeAxeResults` and `summarizeReport` are not part of this model. The per-page data sent to the summariser and the stored summaries are not modelled; a completed scan's outcome carries the stats and the summary only.
- Persistence (user lookup, saving websites, reports and stats) is not modelled. The user lookup becomes the `userFound` flag.
- The scan date, the website id and the returned `summarizedReport` are not modelled.
- A violation's node list is modelled by its length only.
- Report text fields that are missing or falsy are modelled as the empty string, and non-string field values are not modelled.
- A `null` page or issue in a submitted report makes `validateRequestData` throw (`page.url` or `issue.id` on `null`) instead of returning a message; the model's pages and issues are never null, so that exception is not modelled.
- Lengths are counted in characters of `seq<char>`, not UTF-16 code units.
- The PDF recommendation texts (`DeveloperPdf.RecommendationPhrases`) are written as phrase lists joined by single spaces (`Sentence`), because the verifier cannot reason cheaply over long string literals; the joined texts are the source's.
- The score is held in whole tenths (`score10: nat`); a score that is not a multiple of 0.1, or is negative, is not modelled.
- ScanService.Score10: the score is computed exactly; the source computes it in IEEE-754 doubles, which can round a value that is exactly half a tenth (for example 99.05 with 400 audits and penalty 19) the other way.
- A report's bucket arrays are always present (the source's `?.length || 0` on an absent bucket is not modelled), and null pages are not modelled.
- The floating-point issue-distribution percentages of the developer PDF are not modelled.
- PDF drawing (pdfkit), fonts, colours on the page, the header, the summary block and the footer text are not modelled beyond the modelled helpers; the end-user PDF is not part of this model.
- Sending the e-mail (nodemailer), the SMTP error mapping and the HTTP response of `sendReport` are not modelled.
