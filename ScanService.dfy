/**
 * `performWebsiteScan` (src/services/scanService.ts): the user check, the
 * crawl with fixed options, the per-impact node tallies, the weighted penalty
 * and the score, and the outcome returned to the caller.
 *
 * The score is kept exactly, in tenths of a point: `Score10` is ten times the
 * score the source computes, proved equal to the rounding of the real-valued
 * formula.
 */
module ScanService {
  import opened Common
  import opened Crawler

  /** `issueCounts`: nodes per impact bucket, `none` being the bucket keyed `"null"`. */
  datatype IssueCounts = IssueCounts(critical: nat, serious: nat, moderate: nat, minor: nat, none: nat)

  /** The values stored in the stats record and returned as `summary`. */
  datatype ScanSummary = ScanSummary(totalIssues: nat, counts: IssueCounts, score10: int)

  /** The value `performWebsiteScan` resolves to (when it does not throw). */
  datatype ScanOutcome =
    | NoResults(message: string)
    | Completed(message: string, stats: ScanSummary, summary: ScanSummary)

  const UserNotFound := "User not found"
  const NoResultsMessage := "No scan results. Website may block headless browsers."
  const CompletedMessage := "Scan completed & summaries saved"

  /** The crawl options the service always passes. */
  const ScanMaxDepth := 2
  const ScanMaxScans := 10
  const ScanConcurrency := 3

  /** `totalAudits` is the number of issues plus this baseline. */
  const AuditBaseline := 10

  // ---------------------------------------------------------------------------
  // Tallies
  // ---------------------------------------------------------------------------

  /** Every violation of every page, page by page. */
  function AllViolations(results: seq<PageResult>): (vs: seq<Violation>)
    decreases |results|
  {
    if |results| == 0 then []
    else AllViolations(results[..|results| - 1]) + results[|results| - 1].violations
  }

  /** A violation is tallied exactly when some page reported it. */
  lemma {:induction false} AllViolationsSpec(results: seq<PageResult>, v: Violation)
    ensures v in AllViolations(results) <==> exists r :: r in results && v in r.violations
    decreases |results|
  {
    if |results| > 0 {
      var init := results[..|results| - 1];
      var last := results[|results| - 1];
      AllViolationsSpec(init, v);
      assert results == init + [last];
      if v in AllViolations(results) && v !in last.violations {
        var r :| r in init && v in r.violations;
        assert r in results;
      }
      if v !in last.violations && (exists r :: r in results && v in r.violations) {
        var r :| r in results && v in r.violations;
        assert r in init;
      }
    }
  }

  /** The nodes of the violations whose impact (or its absence) is `impact`. */
  function NodesWith(vs: seq<Violation>, impact: Option<Impact>): nat
    decreases |vs|
  {
    if |vs| == 0 then 0
    else NodesWith(vs[..|vs| - 1], impact) + (if vs[|vs| - 1].impact == impact then vs[|vs| - 1].nodeCount else 0)
  }

  /** The nodes of all violations. */
  function Nodes(vs: seq<Violation>): nat
    decreases |vs|
  {
    if |vs| == 0 then 0 else Nodes(vs[..|vs| - 1]) + vs[|vs| - 1].nodeCount
  }

  /** The tally the source builds: each bucket sums the nodes of the violations of its impact. */
  function Counts(vs: seq<Violation>): IssueCounts {
    IssueCounts(NodesWith(vs, Some(Critical)), NodesWith(vs, Some(Serious)), NodesWith(vs, Some(Moderate)),
                NodesWith(vs, Some(Minor)), NodesWith(vs, None))
  }

  function BucketSum(c: IssueCounts): nat {
    c.critical + c.serious + c.moderate + c.minor + c.none
  }

  /** `totalIssues` equals the sum of the five buckets: every node lands in exactly one. */
  lemma {:induction false} TotalIsBucketSum(vs: seq<Violation>)
    ensures Nodes(vs) == BucketSum(Counts(vs))
    decreases |vs|
  {
    if |vs| > 0 {
      TotalIsBucketSum(vs[..|vs| - 1]);
      match vs[|vs| - 1].impact {
        case Some(Critical) =>
        case Some(Serious) =>
        case Some(Moderate) =>
        case Some(Minor) =>
        case None =>
      }
    }
  }

  /** The tallies of a concatenation add up bucket by bucket. */
  lemma {:induction false} NodesWithAppend(a: seq<Violation>, b: seq<Violation>, impact: Option<Impact>)
    ensures NodesWith(a + b, impact) == NodesWith(a, impact) + NodesWith(b, impact)
    decreases |b|
  {
    if |b| > 0 {
      assert (a + b)[..|a + b| - 1] == a + b[..|b| - 1];
      NodesWithAppend(a, b[..|b| - 1], impact);
    } else {
      assert a + b == a;
    }
  }

  /** The tallies do not depend on the order in which pages are visited. */
  lemma {:induction false} NodesWithSwap(a: seq<Violation>, b: seq<Violation>, impact: Option<Impact>)
    ensures NodesWith(a + b, impact) == NodesWith(b + a, impact)
  {
    NodesWithAppend(a, b, impact);
    NodesWithAppend(b, a, impact);
  }

  /** The two `+=` of the `forEach` callback for one violation. */
  function AddViolation(c: IssueCounts, v: Violation): IssueCounts {
    match v.impact
    case Some(Critical) => c.(critical := c.critical + v.nodeCount)
    case Some(Serious) => c.(serious := c.serious + v.nodeCount)
    case Some(Moderate) => c.(moderate := c.moderate + v.nodeCount)
    case Some(Minor) => c.(minor := c.minor + v.nodeCount)
    case None => c.(none := c.none + v.nodeCount)
  }

  lemma CountsStep(vs: seq<Violation>, v: Violation)
    ensures Counts(vs + [v]) == AddViolation(Counts(vs), v)
    ensures Nodes(vs + [v]) == Nodes(vs) + v.nodeCount
  {
    assert (vs + [v])[..|vs|] == vs;
  }

  /**
   * The nested `map`/`forEach` loop of lines 56-62: for every page, for every
   * violation, add its node count to its impact bucket and to the total.
   */
  method CountIssues(results: seq<PageResult>) returns (counts: IssueCounts, totalIssues: nat)
    ensures counts == Counts(AllViolations(results))
    ensures totalIssues == Nodes(AllViolations(results))
  {
    counts := IssueCounts(0, 0, 0, 0, 0);
    totalIssues := 0;
    var i := 0;
    while i < |results|
      invariant 0 <= i <= |results|
      invariant counts == Counts(AllViolations(results[..i]))
      invariant totalIssues == Nodes(AllViolations(results[..i]))
    {
      counts, totalIssues := TallyPage(AllViolations(results[..i]), counts, totalIssues, results[i].violations);
      assert results[..i + 1][..i] == results[..i];
      i := i + 1;
    }
    assert results[..i] == results;
  }

  /** The inner `forEach` over one page's violations, continuing the tallies of the violations already seen. */
  method TallyPage(ghost seen: seq<Violation>, counts0: IssueCounts, total0: nat, vs: seq<Violation>)
    returns (counts: IssueCounts, totalIssues: nat)
    requires counts0 == Counts(seen) && total0 == Nodes(seen)
    ensures counts == Counts(seen + vs)
    ensures totalIssues == Nodes(seen + vs)
  {
    counts, totalIssues := counts0, total0;
    var j := 0;
    assert seen + vs[..0] == seen;
    while j < |vs|
      invariant 0 <= j <= |vs|
      invariant counts == Counts(seen + vs[..j])
      invariant totalIssues == Nodes(seen + vs[..j])
    {
      CountsStep(seen + vs[..j], vs[j]);
      assert seen + vs[..j + 1] == (seen + vs[..j]) + [vs[j]];
      counts := AddViolation(counts, vs[j]);
      totalIssues := totalIssues + vs[j].nodeCount;
      j := j + 1;
    }
    assert vs[..j] == vs;
  }

  // ---------------------------------------------------------------------------
  // Penalty and score
  // ---------------------------------------------------------------------------

  /** The `reduce` over the buckets with weights 5, 3, 2, 1 and 0. */
  function Penalty(c: IssueCounts): (p: nat)
    ensures p <= 5 * BucketSum(c)
    ensures p >= BucketSum(c) - c.none
  {
    5 * c.critical + 3 * c.serious + 2 * c.moderate + 1 * c.minor + 0 * c.none
  }

  /**
   * Ten times `Math.max(0, Math.round((100 - penalty / (totalAudits * 5) * 100) * 10) / 10)`
   * with `totalAudits = total + 10`. `Math.round(x)` is `floor(x + 1/2)`, and
   * `(1000 - 200 * penalty / audits) + 1/2` is `(2001 * audits - 400 * penalty) / (2 * audits)`.
   */
  function Score10(totalIssues: nat, penalty: nat): int {
    Max(0, Unclamped10(totalIssues, penalty))
  }

  /** The rounded score in tenths before the clamp at 0. */
  function Unclamped10(totalIssues: nat, penalty: nat): int {
    var audits := totalIssues + AuditBaseline;
    (2001 * audits - 400 * penalty) / (2 * audits)
  }

  /** The score formula over the reals, as written in the source before rounding. */
  function RealScore(totalIssues: nat, penalty: nat): real {
    var audits := (totalIssues + AuditBaseline) as real;
    100.0 - (penalty as real / (audits * 5.0)) * 100.0
  }

  /** `Score10` is the score formula rounded half up to a tenth, clamped at 0. */
  lemma Score10IsRounded(totalIssues: nat, penalty: nat)
    ensures Score10(totalIssues, penalty) == Max(0, (RealScore(totalIssues, penalty) * 10.0 + 0.5).Floor)
  {
    var a := totalIssues + AuditBaseline;
    var n := 2001 * a - 400 * penalty;
    var x := RealScore(totalIssues, penalty) * 10.0 + 0.5;
    assert x == n as real / (2 * a) as real by {
      var ar := a as real;
      var y := penalty as real / (ar * 5.0);
      assert y * (ar * 5.0) == penalty as real;
      assert x == 1000.5 - 1000.0 * y;
      assert x * (2.0 * ar) == 2001.0 * ar - 400.0 * (y * (ar * 5.0));
      assert x * (2.0 * ar) == n as real;
    }
    FloorOfQuotient(n, 2 * a);
  }

  /** Rounding down a real quotient is Euclidean division when the divisor is positive. */
  lemma FloorOfQuotient(n: int, d: int)
    requires d > 0
    ensures (n as real / d as real).Floor == n / d
  {
    var q, r := n / d, n % d;
    assert n == q * d + r && 0 <= r < d;
    var x := n as real / d as real;
    assert x == q as real + r as real / d as real;
    assert 0.0 <= r as real / d as real < 1.0;
  }

  /**
   * The score lies between 0 and 100 in steps of a tenth, whatever the tallies:
   * the penalty is at most five points per issue, so the guard `totalAudits === 0`
   * and the clamp at 0 never decide anything.
   */
  lemma ScoreRange(vs: seq<Violation>)
    ensures Nodes(vs) + AuditBaseline != 0
    ensures 0 <= Unclamped10(Nodes(vs), Penalty(Counts(vs))) <= 1000
    ensures Score10(Nodes(vs), Penalty(Counts(vs))) == Unclamped10(Nodes(vs), Penalty(Counts(vs)))
  {
    var t, p := Nodes(vs), Penalty(Counts(vs));
    TotalIsBucketSum(vs);
    assert p <= 5 * t;
    ScoreBounds(t, p);
  }

  /** A penalty of at most five per issue keeps the unclamped score between 0 and 1000 tenths. */
  lemma ScoreBounds(totalIssues: nat, penalty: nat)
    requires penalty <= 5 * totalIssues
    ensures 0 <= Unclamped10(totalIssues, penalty) <= 1000
    ensures Score10(totalIssues, penalty) == Unclamped10(totalIssues, penalty)
  {
    var a := totalIssues + AuditBaseline;
    var n := 2001 * a - 400 * penalty;
    assert 0 <= n < 1001 * (2 * a);
    DivBounds(n, 2 * a, 1001);
  }

  lemma DivBounds(n: int, d: int, k: int)
    requires d > 0 && 0 <= n < k * d
    ensures 0 <= n / d < k
  {
    var q := n / d;
    assert n == q * d + n % d;
    if q >= k {
      MulMono(q, k, d);
    }
    if q < 0 {
      MulMono(-1, q + 1, d);
    }
  }

  lemma MulMono(q: int, k: int, d: int)
    requires q >= k && d > 0
    ensures q * d >= k * d
  {
    assert q * d - k * d == (q - k) * d;
  }

  /** With no issues the score is exactly 100. */
  lemma PerfectScore(vs: seq<Violation>)
    requires Nodes(vs) == 0
    ensures Score10(Nodes(vs), Penalty(Counts(vs))) == 1000
  {
    var t, p := Nodes(vs), Penalty(Counts(vs));
    TotalIsBucketSum(vs);
    assert t == 0 && p == 0;
    ZeroScore();
  }

  lemma ZeroScore()
    ensures Score10(0, 0) == 1000
  {
    assert Unclamped10(0, 0) == 20010 / 20 == 1000;
  }

  /** Three single-node critical and two single-node serious violations: penalty 21, 15 audits, score 72.0. */
  lemma ExampleScore(c1: Violation, c2: Violation, c3: Violation, s1: Violation, s2: Violation)
    requires c1.impact == c2.impact == c3.impact == Some(Critical) && s1.impact == s2.impact == Some(Serious)
    requires c1.nodeCount == c2.nodeCount == c3.nodeCount == s1.nodeCount == s2.nodeCount == 1
    ensures var vs := [c1, c2, c3, s1, s2];
      Penalty(Counts(vs)) == 21 && Nodes(vs) + AuditBaseline == 15 && Score10(Nodes(vs), Penalty(Counts(vs))) == 720
  {
    var vs := [c1, c2, c3, s1, s2];
    CountsStep([], c1);
    CountsStep([c1], c2);
    CountsStep([c1, c2], c3);
    CountsStep([c1, c2, c3], s1);
    CountsStep([c1, c2, c3, s1], s2);
    assert [] + [c1] == [c1] && [c1] + [c2] == [c1, c2] && [c1, c2] + [c3] == [c1, c2, c3];
    assert [c1, c2, c3] + [s1] == [c1, c2, c3, s1] && [c1, c2, c3, s1] + [s2] == vs;
    assert Counts(vs) == IssueCounts(3, 2, 0, 0, 0);
    assert Score10(5, 21) == 720;
  }

  /**
   * More issues can raise the score, because of the baseline of ten audits:
   * one critical node scores 90.9, and adding a node without impact makes it 91.7.
   */
  lemma ScoreNotMonotone()
    ensures Score10(1, 5) == 909 && Score10(2, 5) == 917
  {
  }

  // ---------------------------------------------------------------------------
  // The service
  // ---------------------------------------------------------------------------

  function CrawlOptions(url: string): ScanOptions {
    ScanOptions(Some(url), Some(ScanMaxDepth), Some(ScanMaxScans), Some(ScanConcurrency))
  }

  /** The outcome for a non-empty crawl. */
  function Summarize(results: seq<PageResult>): ScanOutcome {
    var vs := AllViolations(results);
    var counts := Counts(vs);
    var total := Nodes(vs);
    var stats := ScanSummary(total, counts, Score10(total, Penalty(counts)));
    Completed(CompletedMessage, stats, stats)
  }

  /**
   * `performWebsiteScan`: throws "User not found" before any crawl when the
   * user lookup fails; an empty crawl gives the failure message and no
   * counts; otherwise the tallies and score, stored and returned alike.
   */
  function WebsiteScan(url: string, userFound: bool, launched: bool, visit: string -> Visit,
                       normalize: string -> Option<string>): (r: Result<ScanOutcome, string>)
    ensures !userFound <==> r == Failure(UserNotFound)
    ensures userFound ==> r.Success?
  {
    if !userFound then Failure(UserNotFound)
    else
      var results := AccessibilityScan(CrawlOptions(url), launched, visit, normalize);
      if |results| == 0 then Success(NoResults(NoResultsMessage)) else Success(Summarize(results))
  }

  /**
   * What a completed scan reports: the stats record and the returned summary
   * carry the same values, the total is the sum of the buckets, and the score
   * lies in [0, 100]. An empty crawl, and only an empty crawl, gives the
   * failure message.
   */
  lemma WebsiteScanSpec(url: string, userFound: bool, launched: bool, visit: string -> Visit,
                        normalize: string -> Option<string>)
    requires userFound
    ensures var results := AccessibilityScan(CrawlOptions(url), launched, visit, normalize);
      var r := WebsiteScan(url, userFound, launched, visit, normalize);
      && (r.value.NoResults? <==> |results| == 0)
      && (r.value.NoResults? ==> r.value.message == NoResultsMessage)
      && (r.value.Completed? ==>
            && r.value.stats == r.value.summary
            && r.value.message == CompletedMessage
            && r.value.summary.totalIssues == BucketSum(r.value.summary.counts)
            && 0 <= r.value.summary.score10 <= 1000
            && |results| <= ScanMaxScans + ScanConcurrency - 1)
  {
    var results := AccessibilityScan(CrawlOptions(url), launched, visit, normalize);
    if |results| > 0 {
      var vs := AllViolations(results);
      TotalIsBucketSum(vs);
      ScoreRange(vs);
      AccessibilityScanSpec(CrawlOptions(url), launched, visit, normalize);
    }
  }

  /** `performWebsiteScan` as a sequence of steps: look up, crawl, tally, score. */
  method PerformWebsiteScan(url: string, userFound: bool, launched: bool, visit: string -> Visit,
                            normalize: string -> Option<string>) returns (r: Result<ScanOutcome, string>)
    ensures r == WebsiteScan(url, userFound, launched, visit, normalize)
  {
    if !userFound {
      return Failure(UserNotFound);
    }
    var results := RunAccessibilityScan(CrawlOptions(url), launched, visit, normalize);
    if |results| == 0 {
      return Success(NoResults(NoResultsMessage));
    }
    var counts, totalIssues := CountIssues(results);
    var penalty := Penalty(counts);
    var score10 := Score10(totalIssues, penalty);
    var stats := ScanSummary(totalIssues, counts, score10);
    r := Success(Completed(CompletedMessage, stats, stats));
  }
}
