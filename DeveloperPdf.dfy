/**
 * The pure decisions of the developer PDF report
 * (src/utils/generateDeveloperPdf.ts): the input checks made before any
 * rendering, the colour helpers, `truncateText`, the recommendation filter,
 * the selection of pages with issues, the caps on examples and resources
 * listed per issue, and the page-break rule. What is drawn is described by
 * the datatypes below; the drawing itself is not modelled.
 */
module DeveloperPdf {
  import opened Common
  import opened Report

  // ---------------------------------------------------------------------------
  // Input checks
  // ---------------------------------------------------------------------------

  /** The three inputs, each one possibly missing; a report that is not an array is `None` too. */
  datatype PdfInputs = PdfInputs(
    report: Option<seq<MappedPage>>,
    summary: Option<Summary>,
    website: Option<ScannedWebsite>)

  /** The inputs once they are known to be present. */
  datatype CheckedInputs = CheckedInputs(report: seq<MappedPage>, summary: Summary, website: ScannedWebsite)

  datatype InputError = ReportNotArray | SummaryMissing | WebsiteMissing

  /** The text of the error the generator throws. */
  function InputMessage(e: InputError): string {
    match e
    case ReportNotArray => "Invalid summarizedReport: must be an array"
    case SummaryMissing => "Summary data is required"
    case WebsiteMissing => "Scanned website data is required"
  }

  /**
   * The checks at the top of the generator, in their order: the first input
   * that is missing decides the error, and only inputs that are all present
   * go on to rendering.
   */
  function CheckInputs(inputs: PdfInputs): (r: Result<CheckedInputs, InputError>)
    ensures r.Success? <==> inputs.report.Some? && inputs.summary.Some? && inputs.website.Some?
    ensures r.Success? ==> r.value == CheckedInputs(inputs.report.value, inputs.summary.value, inputs.website.value)
    ensures r == Failure(ReportNotArray) <==> inputs.report.None?
    ensures r == Failure(SummaryMissing) <==> inputs.report.Some? && inputs.summary.None?
    ensures r == Failure(WebsiteMissing) <==> inputs.report.Some? && inputs.summary.Some? && inputs.website.None?
  {
    if inputs.report.None? then Failure(ReportNotArray)
    else if inputs.summary.None? then Failure(SummaryMissing)
    else if inputs.website.None? then Failure(WebsiteMissing)
    else Success(CheckedInputs(inputs.report.value, inputs.summary.value, inputs.website.value))
  }

  // ---------------------------------------------------------------------------
  // Colours
  // ---------------------------------------------------------------------------

  datatype Color = Green | Orange | Red | Blue | Gray | Black {
    /** The PDFKit colour name. */
    function Name(): string {
      match this
      case Green => "green"
      case Orange => "orange"
      case Red => "red"
      case Blue => "blue"
      case Gray => "gray"
      case Black => "black"
    }
  }

  /** How good a score colour is: red below orange below green. */
  function ScoreRank(c: Color): nat {
    match c
    case Green => 2
    case Orange => 1
    case _ => 0
  }

  /** `getScoreColor`, on the score in tenths of a point: green from 90, orange from 70, red below. */
  function ScoreColor(score10: nat): (c: Color)
    ensures c == Green <==> score10 >= 900
    ensures c == Orange <==> 700 <= score10 < 900
    ensures c == Red <==> score10 < 700
  {
    if score10 >= 900 then Green
    else if score10 >= 700 then Orange
    else Red
  }

  /** A higher score never gets a worse colour. */
  lemma ScoreColorMonotone(s: nat, t: nat)
    requires s <= t
    ensures ScoreRank(ScoreColor(s)) <= ScoreRank(ScoreColor(t))
  {
  }

  /** The four impact levels of the report. */
  predicate IsSeverity(impact: string) {
    impact == "critical" || impact == "serious" || impact == "moderate" || impact == "minor"
  }

  /** `getImpactColor`: one colour per impact level, black for anything else. */
  function ImpactColor(impact: string): (c: Color)
    ensures c == Red <==> impact == "critical"
    ensures c == Orange <==> impact == "serious"
    ensures c == Blue <==> impact == "moderate"
    ensures c == Gray <==> impact == "minor"
    ensures c == Black <==> !IsSeverity(impact)
    ensures c != Green
  {
    match impact
    case "critical" => Red
    case "serious" => Orange
    case "moderate" => Blue
    case "minor" => Gray
    case _ => Black
  }

  // ---------------------------------------------------------------------------
  // truncateText
  // ---------------------------------------------------------------------------

  /** What is printed in place of an empty text. */
  const NoText := "No text available"

  /**
   * `truncateText`: an empty text is replaced, a text that fits is kept, and a
   * longer one is cut to its first `maxLength - 3` characters (none when that
   * is negative, as `substring` clamps) followed by "...".
   */
  function TruncateText(text: string, maxLength: int): (r: string)
    ensures text == [] ==> r == NoText
    ensures text != [] && |text| <= maxLength ==> r == text
    ensures text != [] && |text| > maxLength ==>
      && |r| == Max(maxLength, 3)
      && r[|r| - 3..] == "..."
      && r[..|r| - 3] == text[..|r| - 3]
  {
    if text == [] then NoText
    else if |text| <= maxLength then text
    else Take(text, Max(0, maxLength - 3)) + "..."
  }

  /** With room for the placeholder, the result never exceeds the limit. */
  lemma TruncateTextFits(text: string, maxLength: int)
    requires maxLength >= |NoText|
    ensures |TruncateText(text, maxLength)| <= maxLength
  {
  }

  /** Truncating twice at the same limit changes nothing more. */
  lemma TruncateTextIdempotent(text: string, maxLength: int)
    requires maxLength >= |NoText|
    ensures TruncateText(TruncateText(text, maxLength), maxLength) == TruncateText(text, maxLength)
  {
    TruncateTextFits(text, maxLength);
    assert NoText != [];
  }

  // ---------------------------------------------------------------------------
  // getRecommendations
  // ---------------------------------------------------------------------------

  /**
   * The ten recommendations, each written as the phrases that, joined by
   * single spaces, spell the source's text: `Recommendation(1)`, for one, is
   * "1. Address all CRITICAL and SERIOUS issues first as they affect users the most".
   */
  function RecommendationPhrases(n: nat): seq<string> {
    match n
    case 1 => ["1. Address all", "CRITICAL", "and SERIOUS", "issues first as", "they affect", "users the most"]
    case 2 => ["2. Fix", "color contrast", "issues to ensure", "text is readable", "for users with", "visual", "impairments"]
    case 3 => ["3. Add proper", "labels to all", "interactive", "elements (links,", "buttons, icons)"]
    case 4 => ["4. Ensure proper", "document", "structure with", "landmarks", "and heading", "hierarchy"]
    case 5 => ["5. Test with", "screen readers", "and keyboard", "navigation after", "making changes"]
    case 6 => ["6. Implement", "automated", "accessibility", "testing in your", "development", "workflow"]
    case 7 => ["7. Focus on", "keyboard", "navigation and", "focus management", "for all", "interactive", "elements"]
    case 8 => ["8. Ensure all", "form elements", "have proper", "labels,", "instructions,", "and error", "messages"]
    case 9 => ["9. Use semantic", "HTML elements to", "improve screen", "reader", "compatibility"]
    case 10 => ["10. Conduct", "regular", "accessibility", "audits and user", "testing with", "people with", "disabilities"]
    case _ => []
  }

  /** The n-th recommendation of the fixed list, for 1 <= n <= 10. */
  function Recommendation(n: nat): string {
    Sentence(RecommendationPhrases(n))
  }

  /** The fixed list, in order. */
  function RecommendationList(): (r: seq<string>)
    ensures |r| == 10
  {
    seq(10, k requires 0 <= k < 10 => Recommendation(k + 1))
  }

  /** What the source returns when the filter leaves nothing. */
  const FallbackRecommendations := [
    "1. Maintain current accessibility standards with regular testing",
    "2. Continue monitoring for new accessibility issues during development",
    "3. Consider user testing with people with disabilities for further improvements" ]

  /** `hasColorContrastIssues`: serious issues stand in for colour-contrast ones. */
  predicate HasColorContrastIssues(summary: Summary) {
    summary.serious > 0
  }

  /** `hasLandmarkIssues`: moderate issues stand in for landmark ones. */
  predicate HasLandmarkIssues(summary: Summary) {
    summary.moderate > 0
  }

  /** The filter's test: a recommendation is dropped when it names a kind of issue the summary lacks. */
  predicate Keep(summary: Summary, rec: string) {
    && !(Contains(rec, "CRITICAL") && summary.critical == 0)
    && !(Contains(rec, "color contrast") && !HasColorContrastIssues(summary))
    && !(Contains(rec, "landmarks") && !HasLandmarkIssues(summary))
  }

  /** `getRecommendations`: the kept recommendations, or the fallback list when none is kept. */
  function GetRecommendations(summary: Summary): seq<string> {
    var kept := Filter((rec: string) => Keep(summary, rec), RecommendationList());
    if |kept| > 0 then kept else FallbackRecommendations
  }

  /** A text without "contrast" cannot contain "color contrast". */
  lemma LacksColorContrast(s: string)
    requires !Contains(s, "contrast")
    ensures !Contains(s, "color contrast")
  {
    ContainsSelf("contrast");
    ContainsInfix("color ", "contrast", "", "contrast");
    assert "color " + "contrast" + "" == "color contrast";
    if Contains(s, "color contrast") {
      ContainsTransitive(s, "color contrast", "contrast");
    }
  }

  lemma Item1LacksContrast()
    ensures !Contains(Recommendation(1), "contrast")
  {
    SentenceRulesOut(RecommendationPhrases(1), "contrast", "ccccoc");
  }

  lemma Item1LacksLandmarks()
    ensures !Contains(Recommendation(1), "landmarks")
  {
    SentenceRulesOut(RecommendationPhrases(1), "landmarks", "nlllll");
  }

  lemma Item2LacksCritical()
    ensures !Contains(Recommendation(2), "CRITICAL")
  {
    SentenceRulesOut(RecommendationPhrases(2), "CRITICAL", "CCCCCCC");
  }

  lemma Item2LacksLandmarks()
    ensures !Contains(Recommendation(2), "landmarks")
  {
    SentenceRulesOut(RecommendationPhrases(2), "landmarks", "ldlnlnl");
  }

  lemma Item3LacksCritical()
    ensures !Contains(Recommendation(3), "CRITICAL")
  {
    SentenceRulesOut(RecommendationPhrases(3), "CRITICAL", "CCCCC");
  }

  lemma Item3LacksContrast()
    ensures !Contains(Recommendation(3), "contrast")
  {
    SentenceRulesOut(RecommendationPhrases(3), "contrast", "ccocr");
  }

  lemma Item3LacksLandmarks()
    ensures !Contains(Recommendation(3), "landmarks")
  {
    SentenceRulesOut(RecommendationPhrases(3), "landmarks", "lnlal");
  }

  lemma Item4LacksCritical()
    ensures !Contains(Recommendation(4), "CRITICAL")
  {
    SentenceRulesOut(RecommendationPhrases(4), "CRITICAL", "CCCCCC");
  }

  lemma Item4LacksContrast()
    ensures !Contains(Recommendation(4), "contrast")
  {
    SentenceRulesOut(RecommendationPhrases(4), "contrast", "crocco");
  }

  lemma Item5LacksCritical()
    ensures !Contains(Recommendation(5), "CRITICAL")
  {
    SentenceRulesOut(RecommendationPhrases(5), "CRITICAL", "CCCCC");
  }

  lemma Item5LacksContrast()
    ensures !Contains(Recommendation(5), "contrast")
  {
    SentenceRulesOut(RecommendationPhrases(5), "contrast", "cocco");
  }

  lemma Item5LacksLandmarks()
    ensures !Contains(Recommendation(5), "landmarks")
  {
    SentenceRulesOut(RecommendationPhrases(5), "landmarks", "lllll");
  }

  lemma Item6LacksCritical()
    ensures !Contains(Recommendation(6), "CRITICAL")
  {
    SentenceRulesOut(RecommendationPhrases(6), "CRITICAL", "CCCCCC");
  }

  lemma Item6LacksContrast()
    ensures !Contains(Recommendation(6), "contrast")
  {
    SentenceRulesOut(RecommendationPhrases(6), "contrast", "ccoccc");
  }

  lemma Item6LacksLandmarks()
    ensures !Contains(Recommendation(6), "landmarks")
  {
    SentenceRulesOut(RecommendationPhrases(6), "landmarks", "alnlaa");
  }

  lemma Item7LacksCritical()
    ensures !Contains(Recommendation(7), "CRITICAL")
  {
    SentenceRulesOut(RecommendationPhrases(7), "CRITICAL", "CCCCCCC");
  }

  lemma Item7LacksContrast()
    ensures !Contains(Recommendation(7), "contrast")
  {
    SentenceRulesOut(RecommendationPhrases(7), "contrast", "tccrcoc");
  }

  lemma Item7LacksLandmarks()
    ensures !Contains(Recommendation(7), "landmarks")
  {
    SentenceRulesOut(RecommendationPhrases(7), "landmarks", "llllnla");
  }

  lemma Item8LacksCritical()
    ensures !Contains(Recommendation(8), "CRITICAL")
  {
    SentenceRulesOut(RecommendationPhrases(8), "CRITICAL", "CCCCCCC");
  }

  lemma Item8LacksContrast()
    ensures !Contains(Recommendation(8), "contrast")
  {
    SentenceRulesOut(RecommendationPhrases(8), "contrast", "ccccacc");
  }

  lemma Item8LacksLandmarks()
    ensures !Contains(Recommendation(8), "landmarks")
  {
    SentenceRulesOut(RecommendationPhrases(8), "landmarks", "dalnlll");
  }

  lemma Item9LacksCritical()
    ensures !Contains(Recommendation(9), "CRITICAL")
  {
    SentenceRulesOut(RecommendationPhrases(9), "CRITICAL", "CCCCC");
  }

  lemma Item9LacksContrast()
    ensures !Contains(Recommendation(9), "contrast")
  {
    SentenceRulesOut(RecommendationPhrases(9), "contrast", "octcn");
  }

  lemma Item9LacksLandmarks()
    ensures !Contains(Recommendation(9), "landmarks")
  {
    SentenceRulesOut(RecommendationPhrases(9), "landmarks", "lalln");
  }

  lemma Item10LacksCritical()
    ensures !Contains(Recommendation(10), "CRITICAL")
  {
    SentenceRulesOut(RecommendationPhrases(10), "CRITICAL", "RCCCCCC");
  }

  lemma Item10LacksContrast()
    ensures !Contains(Recommendation(10), "contrast")
  {
    SentenceRulesOut(RecommendationPhrases(10), "contrast", "rcocccc");
  }

  lemma Item10LacksLandmarks()
    ensures !Contains(Recommendation(10), "landmarks")
  {
    SentenceRulesOut(RecommendationPhrases(10), "landmarks", "lnnllan");
  }

  lemma Item1Kept(summary: Summary)
    ensures Keep(summary, Recommendation(1)) <==> summary.critical > 0
  {
    Item1LacksContrast();
    LacksColorContrast(Recommendation(1));
    Item1LacksLandmarks();
    SentenceHolds(RecommendationPhrases(1), 1);
  }

  lemma Item2Kept(summary: Summary)
    ensures Keep(summary, Recommendation(2)) <==> HasColorContrastIssues(summary)
  {
    Item2LacksCritical();
    Item2LacksLandmarks();
    SentenceHolds(RecommendationPhrases(2), 1);
  }

  lemma Item3Kept(summary: Summary)
    ensures Keep(summary, Recommendation(3))
  {
    Item3LacksCritical();
    Item3LacksContrast();
    LacksColorContrast(Recommendation(3));
    Item3LacksLandmarks();
  }

  lemma Item4Kept(summary: Summary)
    ensures Keep(summary, Recommendation(4)) <==> HasLandmarkIssues(summary)
  {
    Item4LacksCritical();
    Item4LacksContrast();
    LacksColorContrast(Recommendation(4));
    SentenceHolds(RecommendationPhrases(4), 3);
  }

  lemma Item5Kept(summary: Summary)
    ensures Keep(summary, Recommendation(5))
  {
    Item5LacksCritical();
    Item5LacksContrast();
    LacksColorContrast(Recommendation(5));
    Item5LacksLandmarks();
  }

  lemma Item6Kept(summary: Summary)
    ensures Keep(summary, Recommendation(6))
  {
    Item6LacksCritical();
    Item6LacksContrast();
    LacksColorContrast(Recommendation(6));
    Item6LacksLandmarks();
  }

  lemma Item7Kept(summary: Summary)
    ensures Keep(summary, Recommendation(7))
  {
    Item7LacksCritical();
    Item7LacksContrast();
    LacksColorContrast(Recommendation(7));
    Item7LacksLandmarks();
  }

  lemma Item8Kept(summary: Summary)
    ensures Keep(summary, Recommendation(8))
  {
    Item8LacksCritical();
    Item8LacksContrast();
    LacksColorContrast(Recommendation(8));
    Item8LacksLandmarks();
  }

  lemma Item9Kept(summary: Summary)
    ensures Keep(summary, Recommendation(9))
  {
    Item9LacksCritical();
    Item9LacksContrast();
    LacksColorContrast(Recommendation(9));
    Item9LacksLandmarks();
  }

  lemma Item10Kept(summary: Summary)
    ensures Keep(summary, Recommendation(10))
  {
    Item10LacksCritical();
    Item10LacksContrast();
    LacksColorContrast(Recommendation(10));
    Item10LacksLandmarks();
  }

  /** Filtering one more element keeps it at the end exactly when it passes. */
  lemma FilterSnoc<T>(p: T -> bool, s: seq<T>, x: T)
    ensures Filter(p, s + [x]) == Filter(p, s) + (if p(x) then [x] else [])
  {
    assert (s + [x])[..|s|] == s;
  }

  /** Elements appended that all pass the filter are kept whole. */
  lemma {:induction false} FilterKeepsPassing<T>(p: T -> bool, a: seq<T>, b: seq<T>)
    requires forall x :: x in b ==> p(x)
    ensures Filter(p, a + b) == Filter(p, a) + b
    decreases |b|
  {
    if |b| > 0 {
      var b' := b[..|b| - 1];
      assert (a + b)[..|a + b| - 1] == a + b';
      assert b' + [b[|b| - 1]] == b;
      FilterKeepsPassing(p, a, b');
    } else {
      assert a + b == a;
    }
  }

  /** Filtering a list of four whose third element passes. */
  lemma FilterOfFour<T>(p: T -> bool, l: seq<T>)
    requires |l| == 4 && p(l[2])
    ensures Filter(p, l) ==
      (if p(l[0]) then [l[0]] else []) + (if p(l[1]) then [l[1]] else []) + [l[2]]
      + (if p(l[3]) then [l[3]] else [])
  {
    assert l[..0] == [];
    FilterSnoc(p, l[..0], l[0]); assert l[..0] + [l[0]] == l[..1];
    FilterSnoc(p, l[..1], l[1]); assert l[..1] + [l[1]] == l[..2];
    FilterSnoc(p, l[..2], l[2]); assert l[..2] + [l[2]] == l[..3];
    FilterSnoc(p, l[..3], l[3]); assert l[..3] + [l[3]] == l;
  }

  /** Filtering a list of ten where the third and the last six always pass. */
  lemma FilterOfTen<T>(p: T -> bool, l: seq<T>)
    requires |l| == 10
    requires p(l[2]) && p(l[4]) && p(l[5]) && p(l[6]) && p(l[7]) && p(l[8]) && p(l[9])
    ensures Filter(p, l) ==
      (if p(l[0]) then [l[0]] else []) + (if p(l[1]) then [l[1]] else []) + [l[2]]
      + (if p(l[3]) then [l[3]] else []) + l[4..]
  {
    forall x | x in l[4..]
      ensures p(x)
    {
      var k :| 0 <= k < 6 && l[4..][k] == x;
      assert l[4..][k] == l[4 + k];
    }
    assert l == l[..4] + l[4..];
    FilterKeepsPassing(p, l[..4], l[4..]);
    FilterOfFour(p, l[..4]);
  }

  /** Whether the item at index k of the fixed list survives the filter for this summary. */
  predicate KeptAt(summary: Summary, k: nat) {
    && (k == 0 ==> summary.critical > 0)
    && (k == 1 ==> HasColorContrastIssues(summary))
    && (k == 3 ==> HasLandmarkIssues(summary))
  }

  /** A list of ten on which the filter's test agrees with `KeptAt`. */
  predicate SelectsLikeFixedList(summary: Summary, l: seq<string>) {
    |l| == 10 && forall k :: 0 <= k < 10 ==> (Keep(summary, l[k]) <==> KeptAt(summary, k))
  }

  /** The filter's test on each item of the fixed list. */
  lemma ItemKept(summary: Summary, k: nat)
    requires k < 10
    ensures Keep(summary, RecommendationList()[k]) <==> KeptAt(summary, k)
  {
    if k == 0 { Item1Kept(summary); }
    else if k == 1 { Item2Kept(summary); }
    else if k == 2 { Item3Kept(summary); }
    else if k == 3 { Item4Kept(summary); }
    else if k == 4 { Item5Kept(summary); }
    else if k == 5 { Item6Kept(summary); }
    else if k == 6 { Item7Kept(summary); }
    else if k == 7 { Item8Kept(summary); }
    else if k == 8 { Item9Kept(summary); }
    else { Item10Kept(summary); }
  }

  lemma FixedListSelects(summary: Summary)
    ensures SelectsLikeFixedList(summary, RecommendationList())
  {
    forall k | 0 <= k < 10
      ensures Keep(summary, RecommendationList()[k]) <==> KeptAt(summary, k)
    {
      ItemKept(summary, k);
    }
  }

  /** The filter on any list of ten on which its test agrees with `KeptAt`. */
  lemma SelectionOfTen(summary: Summary, l: seq<string>)
    requires SelectsLikeFixedList(summary, l)
    ensures Filter((rec: string) => Keep(summary, rec), l) ==
      (if summary.critical > 0 then [l[0]] else [])
      + (if summary.serious > 0 then [l[1]] else [])
      + [l[2]]
      + (if summary.moderate > 0 then [l[3]] else [])
      + l[4..]
  {
    assert KeptAt(summary, 2) && KeptAt(summary, 4);
    assert forall k :: 4 <= k < 10 ==> KeptAt(summary, k);
    FilterOfTen((rec: string) => Keep(summary, rec), l);
  }

  /**
   * What `getRecommendations` returns: the fixed list in order, without the
   * first item when there are no critical issues, the second when there are no
   * serious ones and the fourth when there are no moderate ones.
   */
  lemma GetRecommendationsSelects(summary: Summary)
    ensures GetRecommendations(summary) ==
      (if summary.critical > 0 then [RecommendationList()[0]] else [])
      + (if summary.serious > 0 then [RecommendationList()[1]] else [])
      + [RecommendationList()[2]]
      + (if summary.moderate > 0 then [RecommendationList()[3]] else [])
      + RecommendationList()[4..]
  {
    FixedListSelects(summary);
    SelectionOfTen(summary, RecommendationList());
  }

  /**
   * Seven items always remain, each taken from the fixed list in order, so the
   * fallback list is never returned.
   */
  lemma GetRecommendationsNeverFallback(summary: Summary)
    ensures 7 <= |GetRecommendations(summary)| <= 10
    ensures IsSubsequence(GetRecommendations(summary), RecommendationList())
    ensures GetRecommendations(summary) != FallbackRecommendations
  {
    GetRecommendationsSelects(summary);
    FilterSpec((rec: string) => Keep(summary, rec), RecommendationList());
  }

  // ---------------------------------------------------------------------------
  // Detailed findings
  // ---------------------------------------------------------------------------

  /** The `pagesWithIssues` filter's test. */
  predicate HasIssues(page: MappedPage) {
    IssueCount(page) > 0
  }

  /** `pagesWithIssues`: the pages that list at least one issue. */
  function PagesWithIssues(report: seq<MappedPage>): seq<MappedPage> {
    Filter(HasIssues, report)
  }

  /**
   * The filter keeps exactly the pages with issues, in input order, each as
   * often as the report lists it.
   */
  lemma PagesWithIssuesSpec(report: seq<MappedPage>)
    ensures forall page :: page in PagesWithIssues(report) <==> page in report && IssueCount(page) > 0
    ensures IsSubsequence(PagesWithIssues(report), report)
    ensures forall page ::
      multiset(PagesWithIssues(report))[page] == (if IssueCount(page) > 0 then multiset(report)[page] else 0)
  {
    FilterSpec(HasIssues, report);
    forall page | page in report && IssueCount(page) > 0
      ensures page in PagesWithIssues(report)
    {
      assert multiset(report)[page] > 0;
    }
  }

  /** One of the at most two examples listed for an issue. */
  datatype ShownExample = ShownExample(number: nat, element: Option<string>, problem: Option<string>)

  /** The examples block of an issue: the count found, those listed, and the "... and N more" line. */
  datatype ExamplesBlock = ExamplesBlock(found: nat, shown: seq<ShownExample>, more: Option<nat>)

  /** One of the at most two resources listed for an issue. */
  datatype ShownResource = ShownResource(number: nat, text: string)

  /** How many examples and resources an issue lists at most. */
  const ListedPerIssue := 2

  /** Example k (from 0): its element and its problem, each truncated and each printed only when non-empty. */
  function ShowExample(k: nat, example: Example): ShownExample {
    ShownExample(
      k + 1,
      if example.element != [] then Some(TruncateText(example.element, 70)) else None,
      if example.problem != [] then Some(TruncateText(example.problem, 80)) else None)
  }

  /** The examples block, present only when the issue has examples. */
  function ExamplesOf(examples: seq<Example>): (r: Option<ExamplesBlock>)
    ensures r.None? <==> |examples| == 0
    ensures r.Some? ==>
      && r.value.found == |examples|
      && |r.value.shown| == Min(ListedPerIssue, |examples|)
      && (forall k :: 0 <= k < |r.value.shown| ==> r.value.shown[k] == ShowExample(k, examples[k]))
      && (r.value.more.Some? <==> |examples| > ListedPerIssue)
      && (r.value.more.Some? ==> |r.value.shown| + r.value.more.value == |examples|)
  {
    if |examples| == 0 then None
    else
      var n := Min(ListedPerIssue, |examples|);
      Some(ExamplesBlock(
        |examples|,
        seq(n, k requires 0 <= k < n => ShowExample(k, examples[k])),
        if |examples| > ListedPerIssue then Some(|examples| - ListedPerIssue) else None))
  }

  /** Every listed example text fits its limit: 70 characters for an element, 80 for a problem. */
  lemma ExamplesBounded(examples: seq<Example>)
    requires |examples| > 0
    ensures forall e :: e in ExamplesOf(examples).value.shown ==>
      && 1 <= e.number <= ListedPerIssue
      && (e.element.Some? ==> |e.element.value| <= 70)
      && (e.problem.Some? ==> |e.problem.value| <= 80)
  {
    var shown := ExamplesOf(examples).value.shown;
    forall e | e in shown
      ensures 1 <= e.number <= ListedPerIssue
      ensures e.element.Some? ==> |e.element.value| <= 70
      ensures e.problem.Some? ==> |e.problem.value| <= 80
    {
      var k :| 0 <= k < |shown| && shown[k] == e;
      TruncateTextFits(examples[k].element, 70);
      TruncateTextFits(examples[k].problem, 80);
    }
  }

  /** The resources block, present only when the issue has resources. */
  function ResourcesOf(resources: seq<string>): (r: Option<seq<ShownResource>>)
    ensures r.None? <==> |resources| == 0
    ensures r.Some? ==>
      && |r.value| == Min(ListedPerIssue, |resources|)
      && forall k :: 0 <= k < |r.value| ==> r.value[k] == ShownResource(k + 1, TruncateText(resources[k], 80))
  {
    if |resources| == 0 then None
    else
      var n := Min(ListedPerIssue, |resources|);
      Some(seq(n, k requires 0 <= k < n => ShownResource(k + 1, TruncateText(resources[k], 80))))
  }

  /** Every listed resource fits in 80 characters. */
  lemma ResourcesBounded(resources: seq<string>)
    requires |resources| > 0
    ensures forall s :: s in ResourcesOf(resources).value ==> |s.text| <= 80
  {
    var shown := ResourcesOf(resources).value;
    forall s | s in shown
      ensures |s.text| <= 80
    {
      var k :| 0 <= k < |shown| && shown[k] == s;
      TruncateTextFits(resources[k], 80);
    }
  }

  /** What is printed for one issue; the two explanations only when non-empty. */
  datatype IssueBlock = IssueBlock(
    number: nat,
    title: string,
    whyItMatters: Option<string>,
    whatToFix: Option<string>,
    examples: Option<ExamplesBlock>,
    resources: Option<seq<ShownResource>>)

  function NonEmpty(s: string): Option<string> {
    if s != [] then Some(s) else None
  }

  /** Issue k (from 0) of a bucket. */
  function IssueBlockOf(k: nat, issue: IssueSummary): IssueBlock {
    IssueBlock(k + 1, issue.title, NonEmpty(issue.whyItMatters), NonEmpty(issue.whatToFix),
      ExamplesOf(issue.examples), ResourcesOf(issue.resources))
  }

  /** The heading and issues of one impact level of a page. */
  datatype LevelSection = LevelSection(impact: string, color: Color, count: nat, issues: seq<IssueBlock>)

  /** The section of one bucket, printed only when the bucket is not empty. */
  function LevelOf(impact: string, issues: seq<IssueSummary>): seq<LevelSection> {
    if |issues| == 0 then []
    else [LevelSection(impact, ImpactColor(impact), |issues|,
      seq(|issues|, k requires 0 <= k < |issues| => IssueBlockOf(k, issues[k])))]
  }

  /** The buckets of a page, most severe first, skipping the empty ones. */
  function LevelsOf(b: Buckets): seq<LevelSection> {
    LevelOf("critical", b.critical) + LevelOf("serious", b.serious)
      + LevelOf("moderate", b.moderate) + LevelOf("minor", b.minor)
  }

  /** The page-break rule: after every page but the last one, if that page has more than three issues. */
  predicate PageBreakAfter(pageIndex: nat, pageCount: nat, issueCount: nat) {
    pageIndex < pageCount - 1 && issueCount > 3
  }

  /** One page of the "Detailed Findings" part. */
  datatype PageSection = PageSection(
    number: nat,
    url: string,
    issueCount: nat,
    levels: seq<LevelSection>,
    pageBreak: bool)

  /** The page sections, one per page with issues, numbered from 1. */
  function DetailedFindings(report: seq<MappedPage>): (r: seq<PageSection>)
    ensures |r| == |PagesWithIssues(report)|
  {
    var pages := PagesWithIssues(report);
    seq(|pages|, i requires 0 <= i < |pages| =>
      PageSection(i + 1, pages[i].url, IssueCount(pages[i]), LevelsOf(pages[i].summary),
        PageBreakAfter(i, |pages|, IssueCount(pages[i]))))
  }

  /** Every listed level is a bucket that is not empty, coloured after its impact. */
  lemma LevelsListed(b: Buckets)
    ensures forall l :: l in LevelsOf(b) ==> IsSeverity(l.impact) && l.count == |l.issues| > 0 && l.color != Black
    ensures |LevelsOf(b)| == (if |b.critical| > 0 then 1 else 0) + (if |b.serious| > 0 then 1 else 0)
      + (if |b.moderate| > 0 then 1 else 0) + (if |b.minor| > 0 then 1 else 0)
  {
  }

  /**
   * Every page section lists a page with issues, no page breaks after the
   * last section, and a break follows an earlier section exactly when its
   * page has more than three issues.
   */
  lemma DetailedFindingsSpec(report: seq<MappedPage>)
    ensures forall i :: 0 <= i < |DetailedFindings(report)| ==>
      var s := DetailedFindings(report)[i];
      && s.number == i + 1
      && s.issueCount > 0
      && (s.pageBreak <==> i < |DetailedFindings(report)| - 1 && s.issueCount > 3)
    ensures |DetailedFindings(report)| > 0 ==> !DetailedFindings(report)[|DetailedFindings(report)| - 1].pageBreak
  {
    var pages := PagesWithIssues(report);
    forall i | 0 <= i < |pages|
      ensures IssueCount(pages[i]) > 0
    {
      assert pages[i] in pages;
    }
  }
}
