/**
 * The bounded breadth-first crawl of `runAccessibilityScan`
 * (src/utils/accessibilityTest.ts).
 *
 * The browser is an oracle: `visit(url)` is what happens when a page is
 * opened, audited and its anchors collected, and `normalize(href)` stands for
 * `new URL(href).toString()`, which may throw (`None`).
 *
 * One iteration of the `while` loop is modelled in the order JavaScript runs
 * it. In phase 1 every entry of the batch runs synchronously up to its first
 * `await`, so the visited test and insertion happen for the whole batch, in
 * batch order. In phase 2 each claimed entry finishes its visit in batch order.
 *
 * `Step` and `Run` are the specification; the class `Crawl` holds the three
 * mutable pieces of state of the source and its methods are proved to follow it.
 */
module Crawler {
  import opened Common

  /** The impact levels axe-core reports. */
  datatype Impact = Critical | Serious | Moderate | Minor

  /** One axe-core violation: its rule, its impact (absent when axe gives none) and the number of offending nodes. */
  datatype Violation = Violation(id: string, impact: Option<Impact>, nodeCount: nat)

  /** `{ url, result }` pushed for every page that was audited. */
  datatype PageResult = PageResult(url: string, violations: seq<Violation>)

  /**
   * What opening a page yields. `Failed`: something before the result push threw.
   * `Audited(vs, hrefs)`: the audit succeeded; `hrefs` holds the `href` of every
   * anchor in document order, or `None` when collecting them threw.
   */
  datatype Visit = Failed | Audited(violations: seq<Violation>, hrefs: Option<seq<string>>)

  /** A queue entry `{ url, depth }`. */
  datatype Entry = Entry(url: string, depth: int)

  /** The options after defaults are applied, and the two oracles. */
  datatype Config = Config(
    startUrl: string,
    maxDepth: int,
    maxScans: int,
    concurrency: int,
    visit: string -> Visit,
    normalize: string -> Option<string>)

  /** `queue`, `visited` and `results`. */
  datatype State = State(queue: seq<Entry>, visited: set<string>, results: seq<PageResult>)

  /** Phase 1 of a batch: the entries that passed the skip test, and `visited` afterwards. */
  datatype Claimed = Claimed(entries: seq<Entry>, visited: set<string>)

  /** The caller's options; `None` is an omitted option (or a start URL that is not a string). */
  datatype ScanOptions = ScanOptions(
    startUrl: Option<string>,
    maxDepth: Option<int>,
    maxScans: Option<int>,
    concurrency: Option<int>)

  const DefaultMaxDepth := 2
  const DefaultMaxScans := 10
  const DefaultConcurrency := 3
  /** `.slice(0, 10)` on the filtered anchors. */
  const MaxLinksPerPage := 10

  function EntryUrls(es: seq<Entry>): (urls: seq<string>)
    ensures |urls| == |es| && forall i :: 0 <= i < |es| ==> urls[i] == es[i].url
  {
    seq(|es|, i requires 0 <= i < |es| => es[i].url)
  }

  function ResultUrls(rs: seq<PageResult>): (urls: seq<string>)
    ensures |urls| == |rs| && forall i :: 0 <= i < |rs| ==> urls[i] == rs[i].url
  {
    seq(|rs|, i requires 0 <= i < |rs| => rs[i].url)
  }

  // ---------------------------------------------------------------------------
  // Link filter
  // ---------------------------------------------------------------------------

  /** The anchor filter: absolute http(s) links without fragment, mail or phone parts. */
  predicate KeepHref(href: string) {
    StartsWith(href, "http") && !Contains(href, "#") && !Contains(href, "mailto:") && !Contains(href, "tel:")
  }

  /** The hrefs a page contributes: the kept ones, at most ten, in document order. */
  function CandidateLinks(hrefs: seq<string>): (links: seq<string>)
    ensures |links| <= MaxLinksPerPage
    ensures forall l :: l in links ==> l in hrefs && KeepHref(l)
  {
    Take(Filter(KeepHref, hrefs), MaxLinksPerPage)
  }

  /**
   * The links are the first ten passing hrefs in document order: an
   * order-preserving selection of the anchors; a passing href with fewer than
   * ten passing hrefs before it is kept, at the position that count gives; and
   * when fewer than ten were kept, every passing href is.
   */
  lemma CandidateLinksOrder(hrefs: seq<string>)
    ensures IsSubsequence(CandidateLinks(hrefs), hrefs)
    ensures |CandidateLinks(hrefs)| < MaxLinksPerPage ==>
      forall h :: h in hrefs && KeepHref(h) ==> h in CandidateLinks(hrefs)
    ensures forall i :: 0 <= i < |hrefs| && KeepHref(hrefs[i]) && |Filter(KeepHref, hrefs[..i])| < MaxLinksPerPage ==>
      |Filter(KeepHref, hrefs[..i])| < |CandidateLinks(hrefs)| &&
      CandidateLinks(hrefs)[|Filter(KeepHref, hrefs[..i])|] == hrefs[i]
  {
    forall i | 0 <= i < |hrefs| && KeepHref(hrefs[i]) && |Filter(KeepHref, hrefs[..i])| < MaxLinksPerPage
      ensures |Filter(KeepHref, hrefs[..i])| < |CandidateLinks(hrefs)|
      ensures CandidateLinks(hrefs)[|Filter(KeepHref, hrefs[..i])|] == hrefs[i]
    {
      FilterPosition(KeepHref, hrefs, i);
    }
    var kept := Filter(KeepHref, hrefs);
    FilterSpec(KeepHref, hrefs);
    SubsequencePrefix(kept, hrefs, |CandidateLinks(hrefs)|);
    if |CandidateLinks(hrefs)| < MaxLinksPerPage {
      forall h | h in hrefs && KeepHref(h) ensures h in CandidateLinks(hrefs) {
        assert multiset(hrefs)[h] > 0;
        assert multiset(kept)[h] > 0;
      }
    }
  }

  lemma {:induction false} SubsequencePrefix<T>(a: seq<T>, b: seq<T>, k: nat)
    requires IsSubsequence(a, b) && k <= |a|
    ensures IsSubsequence(a[..k], b)
    decreases |a| - k
  {
    if k < |a| {
      SubsequenceDropLast(a, b);
      SubsequencePrefix(a[..|a| - 1], b, k);
      assert a[..|a| - 1][..k] == a[..k];
    } else {
      assert a[..k] == a;
    }
  }

  // ---------------------------------------------------------------------------
  // One page
  // ---------------------------------------------------------------------------

  /**
   * The entries the link loop appends for a page at `depth`: a link is
   * enqueued at `depth + 1` when it normalises, its normal form has not been
   * visited and the result count is below the budget; a link that does not
   * normalise is skipped and the loop goes on.
   */
  function Enqueued(normalize: string -> Option<string>, visited: set<string>, resultCount: int,
                    maxScans: int, depth: int, links: seq<string>): (added: seq<Entry>)
    ensures |added| <= |links|
    decreases |links|
  {
    if |links| == 0 then []
    else
      var init := Enqueued(normalize, visited, resultCount, maxScans, depth, links[..|links| - 1]);
      match normalize(links[|links| - 1])
      case None => init
      case Some(normalized) =>
        if normalized !in visited && resultCount < maxScans then init + [Entry(normalized, depth + 1)] else init
  }

  /** An entry is appended exactly when some link normalises to its URL, that URL is unvisited and the budget allows. */
  lemma {:induction false} EnqueuedSpec(normalize: string -> Option<string>, visited: set<string>, resultCount: int,
                                        maxScans: int, depth: int, links: seq<string>)
    ensures forall e :: e in Enqueued(normalize, visited, resultCount, maxScans, depth, links) <==>
      e.depth == depth + 1 && e.url !in visited && resultCount < maxScans &&
      exists l :: l in links && normalize(l) == Some(e.url)
    decreases |links|
  {
    if |links| > 0 {
      var init := links[..|links| - 1];
      var last := links[|links| - 1];
      EnqueuedSpec(normalize, visited, resultCount, maxScans, depth, init);
      assert links == init + [last];
      forall e ensures e in Enqueued(normalize, visited, resultCount, maxScans, depth, links) <==>
        e.depth == depth + 1 && e.url !in visited && resultCount < maxScans &&
        exists l :: l in links && normalize(l) == Some(e.url)
      {
        if exists l :: l in links && normalize(l) == Some(e.url) {
          var l :| l in links && normalize(l) == Some(e.url);
          if l != last {
            assert l in init;
          }
        }
      }
    }
  }

  /** The order of the appended entries follows the order of the links. */
  lemma {:induction false} EnqueuedOrder(normalize: string -> Option<string>, visited: set<string>, resultCount: int,
                                         maxScans: int, depth: int, links: seq<string>, more: seq<string>)
    ensures Enqueued(normalize, visited, resultCount, maxScans, depth, links + more) ==
      Enqueued(normalize, visited, resultCount, maxScans, depth, links) +
      Enqueued(normalize, visited, resultCount, maxScans, depth, more)
    decreases |more|
  {
    if |more| > 0 {
      assert (links + more)[..|links + more| - 1] == links + more[..|more| - 1];
      EnqueuedOrder(normalize, visited, resultCount, maxScans, depth, links, more[..|more| - 1]);
    } else {
      assert links + more == links;
    }
  }

  /**
   * Phase 2 for one claimed entry. A failed visit changes nothing (the URL
   * stays visited). A successful one pushes its result; then, below the
   * maximum depth and when the anchors could be collected, it enqueues links.
   */
  function CompleteOne(cfg: Config, s: State, e: Entry): (t: State)
    ensures t.visited == s.visited
    ensures t.results == s.results ||
      (|t.results| == |s.results| + 1 && t.results[..|s.results|] == s.results && t.results[|s.results|].url == e.url)
    ensures |s.queue| <= |t.queue| && t.queue[..|s.queue|] == s.queue
  {
    match cfg.visit(e.url)
    case Failed => s
    case Audited(vs, hrefs) =>
      var results := s.results + [PageResult(e.url, vs)];
      var added :=
        if e.depth < cfg.maxDepth && hrefs.Some? then
          Enqueued(cfg.normalize, s.visited, |results|, cfg.maxScans, e.depth, CandidateLinks(hrefs.value))
        else [];
      assert (s.queue + added)[..|s.queue|] == s.queue;
      assert results[..|s.results|] == s.results;
      State(s.queue + added, s.visited, results)
  }

  /** Phase 2 of a batch: the claimed entries complete in batch order. */
  function Complete(cfg: Config, s: State, claimed: seq<Entry>): State
    decreases |claimed|
  {
    if |claimed| == 0 then s
    else CompleteOne(cfg, Complete(cfg, s, claimed[..|claimed| - 1]), claimed[|claimed| - 1])
  }

  /** Phase 1 of a batch: skip entries already visited or deeper than `maxDepth`, and mark the rest visited. */
  function Claim(visited: set<string>, batch: seq<Entry>, maxDepth: int): Claimed
    decreases |batch|
  {
    if |batch| == 0 then Claimed([], visited)
    else
      var c := Claim(visited, batch[..|batch| - 1], maxDepth);
      var e := batch[|batch| - 1];
      if e.url in c.visited || e.depth > maxDepth then c
      else Claimed(c.entries + [e], c.visited + {e.url})
  }

  /** `queue.splice(0, concurrency)` takes this many entries. */
  function BatchSize(cfg: Config, s: State): (n: nat)
    ensures n <= |s.queue|
    ensures cfg.concurrency >= 1 && |s.queue| > 0 ==> n >= 1
  {
    Min(Max(0, cfg.concurrency), |s.queue|)
  }

  /** One iteration of the `while` loop. */
  function Step(cfg: Config, s: State): State {
    var n := BatchSize(cfg, s);
    var c := Claim(s.visited, s.queue[..n], cfg.maxDepth);
    Complete(cfg, State(s.queue[n..], c.visited, s.results), c.entries)
  }

  /** The loop condition `queue.length && results.length < maxScans`. */
  predicate Continues(cfg: Config, s: State) {
    |s.queue| > 0 && |s.results| < cfg.maxScans
  }

  /** Decreases with every iteration: a result uses up budget that paid for its ten links. */
  function Measure(cfg: Config, s: State): nat {
    11 * Max(0, cfg.maxScans - |s.results|) + |s.queue|
  }

  /**
   * The loop stops: either every batch takes at least one entry, or the budget
   * test `results.length < maxScans` fails from the start.
   */
  predicate LoopStops(cfg: Config) {
    cfg.concurrency >= 1 || cfg.maxScans <= 0
  }

  /** The whole loop, from `s` to the state it stops in. */
  function Run(cfg: Config, s: State): State
    requires LoopStops(cfg)
    decreases Measure(cfg, s)
  {
    if !Continues(cfg, s) then s
    else
      StepDecreases(cfg, s);
      Run(cfg, Step(cfg, s))
  }

  /** The queue holds only the start entry; nothing is visited and nothing found. */
  function Initial(cfg: Config): State {
    State([Entry(cfg.startUrl, 0)], {}, [])
  }

  predicate HasStartUrl(options: ScanOptions) {
    options.startUrl.Some? && options.startUrl.value != ""
  }

  function Resolve(options: ScanOptions, visit: string -> Visit, normalize: string -> Option<string>): Config
    requires HasStartUrl(options)
  {
    Config(options.startUrl.value, options.maxDepth.GetOr(DefaultMaxDepth), options.maxScans.GetOr(DefaultMaxScans),
           options.concurrency.GetOr(DefaultConcurrency), visit, normalize)
  }

  /**
   * `runAccessibilityScan`. A missing or empty start URL returns no results
   * before any work; a browser that fails to launch returns the (still empty)
   * results. A concurrency below 1 with a positive budget makes the source
   * loop forever (see `NoProgressWithoutConcurrency`), so that case is excluded;
   * with a budget of 0 or less the loop never runs and the results are empty.
   */
  function AccessibilityScan(options: ScanOptions, launched: bool, visit: string -> Visit,
                             normalize: string -> Option<string>): (results: seq<PageResult>)
    requires HasStartUrl(options) && launched ==> options.maxScans.GetOr(DefaultMaxScans) <= 0 || options.concurrency.GetOr(DefaultConcurrency) >= 1
    ensures !HasStartUrl(options) || !launched ==> results == []
  {
    if !HasStartUrl(options) || !launched then []
    else
      var cfg := Resolve(options, visit, normalize);
      Run(cfg, Initial(cfg)).results
  }

  /**
   * With a budget of 0 or less the loop test fails at once, whatever the
   * concurrency, and the launched crawl returns no results.
   */
  lemma ZeroBudgetScan(options: ScanOptions, launched: bool, visit: string -> Visit,
                       normalize: string -> Option<string>)
    requires options.maxScans.GetOr(DefaultMaxScans) <= 0
    ensures AccessibilityScan(options, launched, visit, normalize) == []
  {
  }

  // ---------------------------------------------------------------------------
  // Facts about one batch
  // ---------------------------------------------------------------------------

  /** Phase 1 claims entries in batch order. */
  lemma {:induction false} ClaimOrder(visited: set<string>, batch: seq<Entry>, maxDepth: int)
    ensures IsSubsequence(Claim(visited, batch, maxDepth).entries, batch)
    decreases |batch|
  {
    if |batch| > 0 {
      var init := batch[..|batch| - 1];
      var e := batch[|batch| - 1];
      var c0 := Claim(visited, init, maxDepth);
      ClaimOrder(visited, init, maxDepth);
      assert batch == init + [e];
      if e.url in c0.visited || e.depth > maxDepth {
        SubsequenceExtend(c0.entries, init, e);
      } else {
        assert Claim(visited, batch, maxDepth).entries == c0.entries + [e];
      }
    }
  }

  /** Phase 1 claims only batch entries that were not visited and not too deep, and marks exactly their URLs. */
  lemma {:induction false} ClaimEntries(visited: set<string>, batch: seq<Entry>, maxDepth: int)
    ensures var c := Claim(visited, batch, maxDepth);
      && (forall e :: e in c.entries ==> e in batch && e.url !in visited && e.depth <= maxDepth)
      && c.visited == visited + (set e | e in c.entries :: e.url)
    decreases |batch|
  {
    if |batch| > 0 {
      var init := batch[..|batch| - 1];
      var e := batch[|batch| - 1];
      var c0 := Claim(visited, init, maxDepth);
      ClaimEntries(visited, init, maxDepth);
      assert forall x :: x in init ==> x in batch;
      if !(e.url in c0.visited || e.depth > maxDepth) {
        var c := Claim(visited, batch, maxDepth);
        assert c.entries == c0.entries + [e];
        assert (set x | x in c.entries :: x.url) == (set x | x in c0.entries :: x.url) + {e.url};
      }
    }
  }

  /** No two claimed entries share a URL. */
  lemma {:induction false} ClaimDistinct(visited: set<string>, batch: seq<Entry>, maxDepth: int)
    ensures Distinct(EntryUrls(Claim(visited, batch, maxDepth).entries))
    decreases |batch|
  {
    if |batch| > 0 {
      var init := batch[..|batch| - 1];
      var e := batch[|batch| - 1];
      var c0 := Claim(visited, init, maxDepth);
      ClaimDistinct(visited, init, maxDepth);
      ClaimEntries(visited, init, maxDepth);
      var c := Claim(visited, batch, maxDepth);
      if !(e.url in c0.visited || e.depth > maxDepth) {
        assert c.entries == c0.entries + [e];
        var urls := EntryUrls(c.entries);
        assert EntryUrls(c.entries) == EntryUrls(c0.entries) + [e.url];
        forall x | x in EntryUrls(c0.entries) ensures x != e.url {
          var k :| 0 <= k < |c0.entries| && EntryUrls(c0.entries)[k] == x;
          assert c0.entries[k] in c0.entries;
        }
        DistinctAppend(EntryUrls(c0.entries), [e.url]);
      }
    }
  }

  /** After phase 1, `visited` holds the old URLs plus the URL of every batch entry within `maxDepth`. */
  lemma {:induction false} ClaimVisited(visited: set<string>, batch: seq<Entry>, maxDepth: int)
    ensures Claim(visited, batch, maxDepth).visited == visited + (set e | e in batch && e.depth <= maxDepth :: e.url)
    decreases |batch|
  {
    if |batch| > 0 {
      var init := batch[..|batch| - 1];
      var e := batch[|batch| - 1];
      ClaimVisited(visited, init, maxDepth);
      assert batch == init + [e];
      assert (set x | x in batch && x.depth <= maxDepth :: x.url) ==
             (set x | x in init && x.depth <= maxDepth :: x.url) + (if e.depth <= maxDepth then {e.url} else {});
    }
  }

  /** An entry already visited, or deeper than `maxDepth`, is not claimed, so it yields no result and no links. */
  lemma SkippedEntry(visited: set<string>, batch: seq<Entry>, maxDepth: int, e: Entry)
    requires e.url in visited || e.depth > maxDepth
    ensures e !in Claim(visited, batch, maxDepth).entries
  {
    ClaimEntries(visited, batch, maxDepth);
  }

  /** The results of the audited claimed entries, in batch order. */
  function Audits(cfg: Config, claimed: seq<Entry>): (rs: seq<PageResult>)
    ensures |rs| <= |claimed|
    decreases |claimed|
  {
    if |claimed| == 0 then []
    else
      var init := Audits(cfg, claimed[..|claimed| - 1]);
      var e := claimed[|claimed| - 1];
      match cfg.visit(e.url)
      case Failed => init
      case Audited(vs, _) => init + [PageResult(e.url, vs)]
  }

  /** Phase 2 appends to `results` exactly the audits of the claimed entries and leaves `visited` alone. */
  lemma {:induction false} CompleteResults(cfg: Config, s: State, claimed: seq<Entry>)
    ensures Complete(cfg, s, claimed).results == s.results + Audits(cfg, claimed)
    ensures Complete(cfg, s, claimed).visited == s.visited
    decreases |claimed|
  {
    if |claimed| > 0 {
      CompleteResults(cfg, s, claimed[..|claimed| - 1]);
    } else {
      assert s.results + [] == s.results;
    }
  }

  /** Audited URLs are claimed URLs, and distinct claimed URLs give distinct audited URLs. */
  lemma AuditsUrls(cfg: Config, claimed: seq<Entry>)
    requires Distinct(EntryUrls(claimed))
    ensures forall r :: r in Audits(cfg, claimed) ==> exists e :: e in claimed && e.url == r.url
    ensures Distinct(ResultUrls(Audits(cfg, claimed)))
  {
    AuditsClaimed(cfg, claimed);
    AuditsDistinct(cfg, claimed);
  }

  lemma {:induction false} AuditsClaimed(cfg: Config, claimed: seq<Entry>)
    ensures forall r :: r in Audits(cfg, claimed) ==> exists e :: e in claimed && e.url == r.url
    decreases |claimed|
  {
    if |claimed| > 0 {
      var init := claimed[..|claimed| - 1];
      var e := claimed[|claimed| - 1];
      AuditsClaimed(cfg, init);
      forall r | r in Audits(cfg, claimed) ensures exists x :: x in claimed && x.url == r.url {
        if r in Audits(cfg, init) {
          var x :| x in init && x.url == r.url;
          assert x in claimed;
        } else {
          assert e in claimed;
        }
      }
    }
  }

  lemma {:induction false} AuditsDistinct(cfg: Config, claimed: seq<Entry>)
    requires Distinct(EntryUrls(claimed))
    ensures Distinct(ResultUrls(Audits(cfg, claimed)))
    decreases |claimed|
  {
    if |claimed| > 0 {
      var init := claimed[..|claimed| - 1];
      var e := claimed[|claimed| - 1];
      assert EntryUrls(init) == EntryUrls(claimed)[..|claimed| - 1];
      AuditsDistinct(cfg, init);
      AuditsClaimed(cfg, init);
      var rs := Audits(cfg, claimed);
      if cfg.visit(e.url).Audited? {
        var urls := ResultUrls(rs);
        forall i, j | 0 <= i < j < |urls| ensures urls[i] != urls[j] {
          if j == |urls| - 1 {
            var r := rs[i];
            assert r in Audits(cfg, init);
            var x :| x in init && x.url == r.url;
            var k :| 0 <= k < |init| && init[k] == x;
            assert EntryUrls(claimed)[k] == x.url && EntryUrls(claimed)[|claimed| - 1] == e.url;
          } else {
            assert ResultUrls(Audits(cfg, init))[i] == urls[i] && ResultUrls(Audits(cfg, init))[j] == urls[j];
          }
        }
      }
    }
  }

  /** A batch adds at most one result per claimed entry. */
  lemma StepResults(cfg: Config, s: State)
    ensures var c := Claim(s.visited, s.queue[..BatchSize(cfg, s)], cfg.maxDepth);
      Step(cfg, s).results == s.results + Audits(cfg, c.entries) &&
      Step(cfg, s).visited == c.visited
    ensures |s.results| <= |Step(cfg, s).results| <= |s.results| + BatchSize(cfg, s)
  {
    var n := BatchSize(cfg, s);
    var c := Claim(s.visited, s.queue[..n], cfg.maxDepth);
    CompleteResults(cfg, State(s.queue[n..], c.visited, s.results), c.entries);
    ClaimOrder(s.visited, s.queue[..n], cfg.maxDepth);
    SubsequenceLength(c.entries, s.queue[..n]);
  }

  lemma {:induction false} SubsequenceLength<T>(a: seq<T>, b: seq<T>)
    requires IsSubsequence(a, b)
    ensures |a| <= |b|
    decreases |b|
  {
    if |a| > 0 {
      if a[|a| - 1] == b[|b| - 1] {
        SubsequenceLength(a[..|a| - 1], b[..|b| - 1]);
      } else {
        SubsequenceLength(a, b[..|b| - 1]);
      }
    }
  }

  /**
   * The queue is first in, first out: a batch is the first `concurrency`
   * entries (or all of them), and what the batch enqueues goes behind the rest.
   */
  lemma {:induction false} StepFifo(cfg: Config, s: State)
    ensures var n := BatchSize(cfg, s);
      n == Min(Max(0, cfg.concurrency), |s.queue|) &&
      |s.queue| - n <= |Step(cfg, s).queue| &&
      Step(cfg, s).queue[..|s.queue| - n] == s.queue[n..]
  {
    var n := BatchSize(cfg, s);
    var c := Claim(s.visited, s.queue[..n], cfg.maxDepth);
    CompletePrefix(cfg, State(s.queue[n..], c.visited, s.results), c.entries);
  }

  lemma {:induction false} CompletePrefix(cfg: Config, s: State, claimed: seq<Entry>)
    ensures |s.queue| <= |Complete(cfg, s, claimed).queue|
    ensures Complete(cfg, s, claimed).queue[..|s.queue|] == s.queue
    decreases |claimed|
  {
    if |claimed| > 0 {
      var mid := Complete(cfg, s, claimed[..|claimed| - 1]);
      CompletePrefix(cfg, s, claimed[..|claimed| - 1]);
      var t := CompleteOne(cfg, mid, claimed[|claimed| - 1]);
      assert t.queue[..|mid.queue|] == mid.queue;
      assert t.queue[..|s.queue|] == t.queue[..|mid.queue|][..|s.queue|];
    }
  }

  /** With `concurrency <= 0`, `splice` takes nothing and an iteration changes nothing: the source never stops. */
  lemma NoProgressWithoutConcurrency(cfg: Config, s: State)
    requires cfg.concurrency <= 0
    ensures Step(cfg, s) == s
  {
    assert s.queue[0..] == s.queue;
  }

  // ---------------------------------------------------------------------------
  // Termination and the page budget
  // ---------------------------------------------------------------------------

  lemma EnqueuedUnderBudget(normalize: string -> Option<string>, visited: set<string>, resultCount: int,
                            maxScans: int, depth: int, links: seq<string>)
    requires resultCount >= maxScans
    ensures Enqueued(normalize, visited, resultCount, maxScans, depth, links) == []
  {
    EnqueuedSpec(normalize, visited, resultCount, maxScans, depth, links);
  }

  /** A completion never raises the measure: a pushed result pays for at most ten links, and none once over budget. */
  lemma CompleteOneMeasure(cfg: Config, s: State, e: Entry)
    ensures Measure(cfg, CompleteOne(cfg, s, e)) <= Measure(cfg, s)
  {
    match cfg.visit(e.url)
    case Failed =>
    case Audited(vs, hrefs) =>
      if e.depth < cfg.maxDepth && hrefs.Some? && |s.results| + 1 >= cfg.maxScans {
        EnqueuedUnderBudget(cfg.normalize, s.visited, |s.results| + 1, cfg.maxScans, e.depth, CandidateLinks(hrefs.value));
      }
  }

  lemma {:induction false} CompleteMeasure(cfg: Config, s: State, claimed: seq<Entry>)
    ensures Measure(cfg, Complete(cfg, s, claimed)) <= Measure(cfg, s)
    decreases |claimed|
  {
    if |claimed| > 0 {
      CompleteMeasure(cfg, s, claimed[..|claimed| - 1]);
      CompleteOneMeasure(cfg, Complete(cfg, s, claimed[..|claimed| - 1]), claimed[|claimed| - 1]);
    }
  }

  /** Every iteration with a non-empty queue lowers the measure, so the loop stops when `concurrency >= 1`. */
  lemma StepDecreases(cfg: Config, s: State)
    requires cfg.concurrency >= 1 && |s.queue| > 0
    ensures Measure(cfg, Step(cfg, s)) < Measure(cfg, s)
  {
    var n := BatchSize(cfg, s);
    var c := Claim(s.visited, s.queue[..n], cfg.maxDepth);
    CompleteMeasure(cfg, State(s.queue[n..], c.visited, s.results), c.entries);
  }

  /** The budget is only checked before a batch: the crawl can end up to `concurrency - 1` pages over `maxScans`. */
  predicate WithinBudget(cfg: Config, s: State) {
    |s.results| <= Max(0, cfg.maxScans + cfg.concurrency - 1)
  }

  lemma {:induction false} RunBudget(cfg: Config, s: State)
    requires LoopStops(cfg) && WithinBudget(cfg, s)
    ensures WithinBudget(cfg, Run(cfg, s))
    decreases Measure(cfg, s)
  {
    if Continues(cfg, s) {
      StepResults(cfg, s);
      StepDecreases(cfg, s);
      RunBudget(cfg, Step(cfg, s));
    }
  }

  /** A batch of distinct, unvisited entries within the depth limit is claimed whole. */
  lemma {:induction false} ClaimAllFresh(visited: set<string>, batch: seq<Entry>, maxDepth: int)
    requires forall i :: 0 <= i < |batch| ==> batch[i].url !in visited && batch[i].depth <= maxDepth
    requires forall i, j :: 0 <= i < j < |batch| ==> batch[i].url != batch[j].url
    ensures Claim(visited, batch, maxDepth).entries == batch
    decreases |batch|
  {
    if |batch| > 0 {
      var init := batch[..|batch| - 1];
      var e := batch[|batch| - 1];
      ClaimAllFresh(visited, init, maxDepth);
      ClaimLeavesOthers(visited, init, maxDepth, e.url);
      assert batch == init + [e];
    }
  }

  /** A URL that no batch entry has stays unvisited through phase 1. */
  lemma {:induction false} ClaimLeavesOthers(visited: set<string>, batch: seq<Entry>, maxDepth: int, u: string)
    requires u !in visited && forall k :: 0 <= k < |batch| ==> batch[k].url != u
    ensures u !in Claim(visited, batch, maxDepth).visited
    decreases |batch|
  {
    if |batch| > 0 {
      ClaimLeavesOthers(visited, batch[..|batch| - 1], maxDepth, u);
    }
  }

  /** When every visit succeeds, each claimed entry yields a result. */
  lemma {:induction false} AuditsAllSucceed(cfg: Config, claimed: seq<Entry>)
    requires forall u :: cfg.visit(u).Audited?
    ensures |Audits(cfg, claimed)| == |claimed|
    decreases |claimed|
  {
    if |claimed| > 0 {
      AuditsAllSucceed(cfg, claimed[..|claimed| - 1]);
      assert cfg.visit(claimed[|claimed| - 1].url).Audited?;
    }
  }

  /**
   * The bound cannot be tightened to `maxScans`: nine results and a batch of
   * three new pages that all succeed leave twelve results when the loop stops.
   */
  lemma BudgetOvershoot(cfg: Config, s: State)
    requires cfg.maxScans == 10 && cfg.concurrency == 3 && cfg.maxDepth >= 0
    requires |s.results| == 9 && |s.queue| == 3
    requires forall i :: 0 <= i < 3 ==> s.queue[i].depth == 0 && s.queue[i].url !in s.visited
    requires Distinct(EntryUrls(s.queue))
    requires forall u :: cfg.visit(u).Audited?
    ensures |Run(cfg, s).results| == 12
  {
    assert BatchSize(cfg, s) == 3 && s.queue[..3] == s.queue;
    forall i, j | 0 <= i < j < 3
      ensures s.queue[i].url != s.queue[j].url
    {
      assert EntryUrls(s.queue)[i] == s.queue[i].url && EntryUrls(s.queue)[j] == s.queue[j].url;
    }
    ClaimAllFresh(s.visited, s.queue, cfg.maxDepth);
    StepResults(cfg, s);
    AuditsAllSucceed(cfg, s.queue);
    assert !Continues(cfg, Step(cfg, s));
  }

  // ---------------------------------------------------------------------------
  // Uniqueness of results
  // ---------------------------------------------------------------------------

  /** No URL is reported twice, and every reported URL is visited. */
  predicate UniqueResults(s: State) {
    Distinct(ResultUrls(s.results)) && forall r :: r in s.results ==> r.url in s.visited
  }

  /** Appending results for URLs newly marked visited keeps the results unique. */
  lemma FreshResults(rs: seq<PageResult>, added: seq<PageResult>, v0: set<string>, v1: set<string>)
    requires UniqueResults(State([], v0, rs)) && v0 <= v1
    requires Distinct(ResultUrls(added)) && forall r :: r in added ==> r.url in v1 && r.url !in v0
    ensures UniqueResults(State([], v1, rs + added))
  {
    forall x | x in ResultUrls(added) ensures x !in v0 {
      var k :| 0 <= k < |added| && ResultUrls(added)[k] == x;
      assert added[k] in added;
    }
    forall x | x in ResultUrls(rs) ensures x in v0 {
      var m :| 0 <= m < |rs| && ResultUrls(rs)[m] == x;
      assert rs[m] in rs;
    }
    assert ResultUrls(rs + added) == ResultUrls(rs) + ResultUrls(added);
    DistinctAppend(ResultUrls(rs), ResultUrls(added));
  }

  lemma StepUnique(cfg: Config, s: State)
    requires UniqueResults(s)
    ensures UniqueResults(Step(cfg, s))
  {
    var n := BatchSize(cfg, s);
    var c := Claim(s.visited, s.queue[..n], cfg.maxDepth);
    ClaimEntries(s.visited, s.queue[..n], cfg.maxDepth);
    ClaimDistinct(s.visited, s.queue[..n], cfg.maxDepth);
    AuditsUrls(cfg, c.entries);
    var added := Audits(cfg, c.entries);
    forall r | r in added ensures r.url in c.visited && r.url !in s.visited {
      var x :| x in c.entries && x.url == r.url;
    }
    FreshResults(s.results, added, s.visited, c.visited);
    StepResults(cfg, s);
  }

  lemma {:induction false} RunUnique(cfg: Config, s: State)
    requires LoopStops(cfg) && UniqueResults(s)
    ensures UniqueResults(Run(cfg, s))
    decreases Measure(cfg, s)
  {
    if Continues(cfg, s) {
      StepUnique(cfg, s);
      StepDecreases(cfg, s);
      RunUnique(cfg, Step(cfg, s));
    }
  }

  // ---------------------------------------------------------------------------
  // Depth
  // ---------------------------------------------------------------------------

  /** Page p was audited and one of its candidate links normalises to u. */
  ghost predicate LinksTo(cfg: Config, p: string, u: string) {
    match cfg.visit(p)
    case Failed => false
    case Audited(_, hrefs) => hrefs.Some? && exists l :: l in CandidateLinks(hrefs.value) && cfg.normalize(l) == Some(u)
  }

  /** u is the start URL (d = 0), or linked from a page reachable in d - 1 hops. */
  ghost predicate Reachable(cfg: Config, u: string, d: nat)
    decreases d
  {
    if d == 0 then u == cfg.startUrl else exists p :: Reachable(cfg, p, d - 1) && LinksTo(cfg, p, u)
  }

  /** u is reachable from the start in at most `maxDepth` hops. */
  ghost predicate WithinDepth(cfg: Config, u: string) {
    exists d: nat :: d <= cfg.maxDepth && Reachable(cfg, u, d)
  }

  /**
   * Every queue entry has a depth between 0 and `maxDepth` (or is the start
   * entry at depth 0) and is reachable in exactly that many hops, and every
   * result is within `maxDepth` hops of the start.
   */
  ghost predicate DepthBounded(cfg: Config, s: State) {
    && (forall e :: e in s.queue ==> 0 <= e.depth <= Max(0, cfg.maxDepth) && Reachable(cfg, e.url, e.depth))
    && (forall r :: r in s.results ==> WithinDepth(cfg, r.url))
  }

  /** A candidate link of an audited page reachable in d hops is reachable in d + 1. */
  lemma LinkReachable(cfg: Config, p: string, d: nat, l: string, u: string)
    requires Reachable(cfg, p, d)
    requires cfg.visit(p).Audited? && cfg.visit(p).hrefs.Some?
    requires l in CandidateLinks(cfg.visit(p).hrefs.value) && cfg.normalize(l) == Some(u)
    ensures Reachable(cfg, u, d + 1)
  {
    assert LinksTo(cfg, p, u);
  }

  lemma EnqueuedDepth(cfg: Config, s: State, e: Entry)
    requires 0 <= e.depth < cfg.maxDepth && Reachable(cfg, e.url, e.depth)
    requires cfg.visit(e.url).Audited? && cfg.visit(e.url).hrefs.Some?
    ensures var added := Enqueued(cfg.normalize, s.visited, |s.results| + 1, cfg.maxScans, e.depth,
                                  CandidateLinks(cfg.visit(e.url).hrefs.value));
      forall x :: x in added ==> 0 <= x.depth <= cfg.maxDepth && Reachable(cfg, x.url, x.depth)
  {
    var links := CandidateLinks(cfg.visit(e.url).hrefs.value);
    var added := Enqueued(cfg.normalize, s.visited, |s.results| + 1, cfg.maxScans, e.depth, links);
    forall x | x in added ensures 0 <= x.depth <= cfg.maxDepth && Reachable(cfg, x.url, x.depth) {
      var l := EnqueuedSource(cfg.normalize, s.visited, |s.results| + 1, cfg.maxScans, e.depth, links, x);
      LinkReachable(cfg, e.url, e.depth, l, x.url);
    }
  }

  /** An appended entry sits one level deeper and comes from a link that normalises to its URL. */
  lemma EnqueuedSource(normalize: string -> Option<string>, visited: set<string>, resultCount: int,
                       maxScans: int, depth: int, links: seq<string>, x: Entry) returns (l: string)
    requires x in Enqueued(normalize, visited, resultCount, maxScans, depth, links)
    ensures x.depth == depth + 1 && l in links && normalize(l) == Some(x.url)
  {
    EnqueuedSpec(normalize, visited, resultCount, maxScans, depth, links);
    l :| l in links && normalize(l) == Some(x.url);
  }

  lemma CompleteOneDepth(cfg: Config, s: State, e: Entry)
    requires DepthBounded(cfg, s)
    requires 0 <= e.depth <= cfg.maxDepth && Reachable(cfg, e.url, e.depth)
    ensures DepthBounded(cfg, CompleteOne(cfg, s, e))
  {
    CompleteOneQueueDepth(cfg, s, e);
    CompleteOneResultsDepth(cfg, s, e);
  }

  lemma CompleteOneQueueDepth(cfg: Config, s: State, e: Entry)
    requires forall x :: x in s.queue ==> 0 <= x.depth <= Max(0, cfg.maxDepth) && Reachable(cfg, x.url, x.depth)
    requires 0 <= e.depth <= cfg.maxDepth && Reachable(cfg, e.url, e.depth)
    ensures forall x :: x in CompleteOne(cfg, s, e).queue ==> 0 <= x.depth <= Max(0, cfg.maxDepth) && Reachable(cfg, x.url, x.depth)
  {
    var t := CompleteOne(cfg, s, e);
    if cfg.visit(e.url).Audited? && e.depth < cfg.maxDepth && cfg.visit(e.url).hrefs.Some? {
      EnqueuedDepth(cfg, s, e);
      var added := Enqueued(cfg.normalize, s.visited, |s.results| + 1, cfg.maxScans, e.depth,
                            CandidateLinks(cfg.visit(e.url).hrefs.value));
      assert t.queue == s.queue + added;
    } else {
      assert t.queue == s.queue;
    }
  }

  lemma CompleteOneResultsDepth(cfg: Config, s: State, e: Entry)
    requires forall r :: r in s.results ==> WithinDepth(cfg, r.url)
    requires 0 <= e.depth <= cfg.maxDepth && Reachable(cfg, e.url, e.depth)
    ensures forall r :: r in CompleteOne(cfg, s, e).results ==> WithinDepth(cfg, r.url)
  {
    if cfg.visit(e.url).Audited? {
      var d: nat := e.depth;
      assert WithinDepth(cfg, e.url) by {
        assert d <= cfg.maxDepth && Reachable(cfg, e.url, d);
      }
      assert CompleteOne(cfg, s, e).results == s.results + [PageResult(e.url, cfg.visit(e.url).violations)];
    }
  }

  lemma {:induction false} CompleteDepth(cfg: Config, s: State, claimed: seq<Entry>)
    requires DepthBounded(cfg, s)
    requires forall e :: e in claimed ==> 0 <= e.depth <= cfg.maxDepth && Reachable(cfg, e.url, e.depth)
    ensures DepthBounded(cfg, Complete(cfg, s, claimed))
    decreases |claimed|
  {
    if |claimed| > 0 {
      var init := claimed[..|claimed| - 1];
      assert forall e :: e in init ==> e in claimed;
      CompleteDepth(cfg, s, init);
      CompleteOneDepth(cfg, Complete(cfg, s, init), claimed[|claimed| - 1]);
    }
  }

  lemma StepDepth(cfg: Config, s: State)
    requires DepthBounded(cfg, s)
    ensures DepthBounded(cfg, Step(cfg, s))
  {
    var n := BatchSize(cfg, s);
    var c := Claim(s.visited, s.queue[..n], cfg.maxDepth);
    ClaimEntries(s.visited, s.queue[..n], cfg.maxDepth);
    var s1 := State(s.queue[n..], c.visited, s.results);
    assert forall e :: e in s.queue[n..] ==> e in s.queue;
    assert forall e :: e in s.queue[..n] ==> e in s.queue;
    CompleteDepth(cfg, s1, c.entries);
  }

  lemma {:induction false} RunDepth(cfg: Config, s: State)
    requires LoopStops(cfg) && DepthBounded(cfg, s)
    ensures DepthBounded(cfg, Run(cfg, s))
    decreases Measure(cfg, s)
  {
    if Continues(cfg, s) {
      StepDepth(cfg, s);
      StepDecreases(cfg, s);
      RunDepth(cfg, Step(cfg, s));
    }
  }

  // ---------------------------------------------------------------------------
  // The whole crawl
  // ---------------------------------------------------------------------------

  /**
   * What `runAccessibilityScan` returns: distinct page URLs, each within
   * `maxDepth` link hops of the start, and at most `maxScans + concurrency - 1`
   * of them (none when `maxScans <= 0`).
   */
  lemma AccessibilityScanSpec(options: ScanOptions, launched: bool, visit: string -> Visit,
                              normalize: string -> Option<string>)
    requires HasStartUrl(options) && launched
    requires options.maxScans.GetOr(DefaultMaxScans) <= 0 || options.concurrency.GetOr(DefaultConcurrency) >= 1
    ensures var cfg := Resolve(options, visit, normalize);
      var results := AccessibilityScan(options, launched, visit, normalize);
      && Distinct(ResultUrls(results))
      && (forall r :: r in results ==> WithinDepth(cfg, r.url))
      && |results| <= Max(0, cfg.maxScans + cfg.concurrency - 1)
  {
    var cfg := Resolve(options, visit, normalize);
    var s := Initial(cfg);
    assert Reachable(cfg, cfg.startUrl, 0);
    RunUnique(cfg, s);
    RunDepth(cfg, s);
    RunBudget(cfg, s);
  }

  // ---------------------------------------------------------------------------
  // The crawl as the source runs it
  // ---------------------------------------------------------------------------

  class Crawl {
    var queue: seq<Entry>
    var visited: set<string>
    var results: seq<PageResult>

    /** `visited`, `results` and `queue` as first declared. */
    constructor(startUrl: string)
      ensures queue == [Entry(startUrl, 0)] && visited == {} && results == []
    {
      queue := [Entry(startUrl, 0)];
      visited := {};
      results := [];
    }

    function Snapshot(): State
      reads this
    {
      State(queue, visited, results)
    }

    /** `queue.splice(0, concurrency)`, then the synchronous prefix of every entry of the batch. */
    method ClaimBatch(concurrency: int, maxDepth: int) returns (claimed: seq<Entry>)
      modifies this
      ensures var n := Min(Max(0, concurrency), |old(queue)|);
        var c := Claim(old(visited), old(queue)[..n], maxDepth);
        queue == old(queue)[n..] && claimed == c.entries && visited == c.visited && results == old(results)
    {
      var n := Min(Max(0, concurrency), |queue|);
      var batch := queue[..n];
      queue := queue[n..];
      claimed := [];
      var i := 0;
      while i < |batch|
        invariant 0 <= i <= |batch|
        invariant Claimed(claimed, visited) == Claim(old(visited), batch[..i], maxDepth)
        invariant queue == old(queue)[n..] && results == old(results)
      {
        var e := batch[i];
        assert batch[..i + 1][..i] == batch[..i];
        if !(e.url in visited || e.depth > maxDepth) {
          visited := visited + {e.url};
          claimed := claimed + [e];
        }
        i := i + 1;
      }
      assert batch[..|batch|] == batch;
    }

    /** The `for (const link of links)` loop of one page. */
    method EnqueueLinks(normalize: string -> Option<string>, maxScans: int, depth: int, links: seq<string>)
      modifies this`queue
      ensures queue == old(queue) + Enqueued(normalize, visited, |results|, maxScans, depth, links)
    {
      var i := 0;
      while i < |links|
        invariant 0 <= i <= |links|
        invariant queue == old(queue) + Enqueued(normalize, visited, |results|, maxScans, depth, links[..i])
      {
        assert links[..i + 1][..i] == links[..i];
        match normalize(links[i]) {
          case None =>
          case Some(normalized) =>
            if normalized !in visited && |results| < maxScans {
              queue := queue + [Entry(normalized, depth + 1)];
            }
        }
        i := i + 1;
      }
      assert links[..|links|] == links;
    }

    /** The rest of one entry's visit, after its URL was claimed. */
    method VisitPage(cfg: Config, e: Entry)
      modifies this
      ensures Snapshot() == CompleteOne(cfg, old(Snapshot()), e)
    {
      match cfg.visit(e.url) {
        case Failed =>
        case Audited(vs, hrefs) =>
          results := results + [PageResult(e.url, vs)];
          if e.depth < cfg.maxDepth && hrefs.Some? {
            EnqueueLinks(cfg.normalize, cfg.maxScans, e.depth, CandidateLinks(hrefs.value));
          }
      }
    }

    /** One iteration of the `while` loop: splice and claim a batch, then await every claimed visit. */
    method RunBatch(cfg: Config)
      modifies this
      ensures Snapshot() == Step(cfg, old(Snapshot()))
    {
      var claimed := ClaimBatch(cfg.concurrency, cfg.maxDepth);
      ghost var s1 := Snapshot();
      var i := 0;
      while i < |claimed|
        invariant 0 <= i <= |claimed|
        invariant Snapshot() == Complete(cfg, s1, claimed[..i])
      {
        assert claimed[..i + 1][..i] == claimed[..i];
        VisitPage(cfg, claimed[i]);
        i := i + 1;
      }
      assert claimed[..|claimed|] == claimed;
    }
  }

  /** `runAccessibilityScan`, with the browser launch outcome and the two oracles as parameters. */
  method RunAccessibilityScan(options: ScanOptions, launched: bool, visit: string -> Visit,
                              normalize: string -> Option<string>) returns (results: seq<PageResult>)
    requires HasStartUrl(options) && launched ==> options.maxScans.GetOr(DefaultMaxScans) <= 0 || options.concurrency.GetOr(DefaultConcurrency) >= 1
    ensures results == AccessibilityScan(options, launched, visit, normalize)
  {
    if !HasStartUrl(options) {
      return [];
    }
    var cfg := Resolve(options, visit, normalize);
    var crawl := new Crawl(cfg.startUrl);
    if !launched {
      return crawl.results;
    }
    while |crawl.queue| > 0 && |crawl.results| < cfg.maxScans
      invariant Run(cfg, crawl.Snapshot()) == Run(cfg, Initial(cfg))
      decreases Measure(cfg, crawl.Snapshot())
    {
      StepDecreases(cfg, crawl.Snapshot());
      crawl.RunBatch(cfg);
    }
    results := crawl.results;
  }
}
