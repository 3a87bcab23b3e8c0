/**
 * What a crawler worker does to the frontier, and what a whole crawl
 * computes, stated over `Frontier.State`.
 *
 * The page fetch (`HTMLParserService.get_links_under_url`) becomes a map
 * from page URL to the links found on it. A missing page has no links: the
 * service returns [] when the request fails with a `ValueError`, an
 * `HTTPError` or a `URLError`; any other exception is not modelled. The subdomain used to confine the
 * crawl is a parameter `scopeOf`, so that both the full-hostname matching
 * of src/models/url.py and the first-label matching of html_parser.py can
 * be plugged in.
 */
module Crawling {
  import opened Urls
  import opened Seqs
  import opened Frontier

  type Web = map<Url, seq<Url>>

  /** The subdomain a link is compared by (`URL.subdomain`). */
  type Scope = Url -> Option<string>

  /** `Crawler.TERMINATION_SIGNAL`, the URL of the empty address. */
  const TerminationSignal: Url := URL("")

  /** The fetch: the links on the page of `u`, none for an unknown page. */
  function Links(web: Web, u: Url): seq<Url>
  {
    if u in web then web[u] else []
  }

  /** The test a link passes to be admitted: `linked_url.subdomain == base_url.subdomain`. */
  predicate InScope(scopeOf: Scope, base: Url, l: Url)
  {
    scopeOf(l) == scopeOf(base)
  }

  /** The links of a page that pass the scope test, kept in page order. */
  function ScopedLinks(links: seq<Url>, scopeOf: Scope, base: Url): (kept: seq<Url>)
    ensures |kept| <= |links|
    ensures forall l :: l in kept <==> l in links && InScope(scopeOf, base, l)
  {
    if links == [] then []
    else
      var init := links[..|links| - 1];
      var last := links[|links| - 1];
      assert links == init + [last];
      ScopedLinks(init, scopeOf, base) + (if InScope(scopeOf, base, last) then [last] else [])
  }

  /** Scanning one more link of the page extends the kept links by it exactly when it is in scope. */
  lemma ScopedLinksStep(links: seq<Url>, i: nat, scopeOf: Scope, base: Url)
    requires i < |links|
    ensures InScope(scopeOf, base, links[i]) ==>
              ScopedLinks(links[..i + 1], scopeOf, base) == ScopedLinks(links[..i], scopeOf, base) + [links[i]]
    ensures !InScope(scopeOf, base, links[i]) ==>
              ScopedLinks(links[..i + 1], scopeOf, base) == ScopedLinks(links[..i], scopeOf, base)
  {
    assert links[..i + 1][..i] == links[..i];
    assert ScopedLinks(links[..i], scopeOf, base) + [] == ScopedLinks(links[..i], scopeOf, base);
  }

  function PageLinks(web: Web, scopeOf: Scope, base: Url, u: Url): seq<Url>
  {
    ScopedLinks(Links(web, u), scopeOf, base)
  }

  /**
   * The frontier after a worker has processed the page of `u` (already
   * popped): admit the in-scope links in page order, then `task_done`.
   */
  function ProcessPage(web: Web, scopeOf: Scope, base: Url, s: State, u: Url): State
    requires s.unfinished > 0
  {
    var links := PageLinks(web, scopeOf, base, u);
    AdmitAllShape(s, links);
    TaskDone(AdmitAll(s, links))
  }

  /**
   * `crawl_next_url` on the frontier: pop the head; stop (the caller sees
   * False) on the termination signal, else process its page.
   */
  function CrawlStep(web: Web, scopeOf: Scope, base: Url, s: State): (t: State)
    requires s.queue != [] && Accounted(s)
    ensures Accounted(t) && s.visited <= t.visited
    ensures s.queue[0] == TerminationSignal ==>
              t.queue == s.queue[1..] && t.visited == s.visited && t.unfinished == s.unfinished
    ensures s.queue[0] != TerminationSignal ==>
              var links := PageLinks(web, scopeOf, base, s.queue[0]);
              && t.queue == s.queue[1..] + NewLinks(s.visited, links)
              && t.visited == s.visited + Elems(links)
              && t.unfinished == s.unfinished - 1 + |NewLinks(s.visited, links)|
  {
    if s.queue[0] == TerminationSignal then Pop(s)
    else
      AdmitAllShape(Pop(s), PageLinks(web, scopeOf, base, s.queue[0]));
      ProcessPage(web, scopeOf, base, Pop(s), s.queue[0])
  }

  /** The repository calls one `crawl_next_url` makes, in order. */
  function StepCalls(web: Web, scopeOf: Scope, base: Url, s: State): seq<Op>
    requires s.queue != []
  {
    if s.queue[0] == TerminationSignal then [GetNextUrl]
    else PageCalls(PageLinks(web, scopeOf, base, s.queue[0]))
  }

  /** Making those calls one after another returns at each call and yields the step's state. */
  lemma StepCallsReplay(web: Web, scopeOf: Scope, base: Url, s: State)
    requires s.queue != [] && Accounted(s)
    ensures Runnable(s, StepCalls(web, scopeOf, base, s))
    ensures Execute(s, StepCalls(web, scopeOf, base, s)) == CrawlStep(web, scopeOf, base, s)
    ensures Pulled(s, StepCalls(web, scopeOf, base, s)) == [s.queue[0]]
  {
    if s.queue[0] == TerminationSignal {
      var get: seq<Op> := [GetNextUrl];
      assert get[..0] == [];
    } else {
      PageCallsReplay(s, PageLinks(web, scopeOf, base, s.queue[0]));
      PageCallsPull(s, PageLinks(web, scopeOf, base, s.queue[0]));
    }
  }

  /** One step keeps every queued URL counted as unfinished, and the visited set only grows. */
  lemma StepAccounted(web: Web, scopeOf: Scope, base: Url, s: State)
    requires s.queue != [] && Accounted(s)
    ensures Accounted(CrawlStep(web, scopeOf, base, s))
    ensures s.visited <= CrawlStep(web, scopeOf, base, s).visited
  {
    if s.queue[0] != TerminationSignal {
      AdmitAllShape(Pop(s), PageLinks(web, scopeOf, base, s.queue[0]));
    }
  }

  /**
   * `Crawler.run`: repeat steps until one pops the termination signal.
   * It stops because nothing is ever inserted before the first signal.
   */
  function RunToSignal(web: Web, scopeOf: Scope, base: Url, s: State): (t: State)
    requires TerminationSignal in s.queue && Accounted(s)
    ensures Accounted(t) && s.visited <= t.visited
    decreases IndexOf(s.queue, TerminationSignal)
  {
    if s.queue[0] == TerminationSignal then Pop(s)
    else
      var next := CrawlStep(web, scopeOf, base, s);
      RunAdvances(web, scopeOf, base, s);
      RunToSignal(web, scopeOf, base, next)
  }

  /** The repository calls of `Crawler.run`: the steps' calls, up to and including the signal's `get_next_url`. */
  function RunCalls(web: Web, scopeOf: Scope, base: Url, s: State): seq<Op>
    requires TerminationSignal in s.queue && Accounted(s)
    decreases IndexOf(s.queue, TerminationSignal)
  {
    if s.queue[0] == TerminationSignal then [GetNextUrl]
    else
      RunAdvances(web, scopeOf, base, s);
      StepCalls(web, scopeOf, base, s) + RunCalls(web, scopeOf, base, CrawlStep(web, scopeOf, base, s))
  }

  /** Making a run's calls one after another returns at each call and yields `RunToSignal`. */
  lemma {:induction false} RunCallsReplay(web: Web, scopeOf: Scope, base: Url, s: State)
    requires TerminationSignal in s.queue && Accounted(s)
    ensures Runnable(s, RunCalls(web, scopeOf, base, s))
    ensures Execute(s, RunCalls(web, scopeOf, base, s)) == RunToSignal(web, scopeOf, base, s)
    decreases IndexOf(s.queue, TerminationSignal)
  {
    StepCallsReplay(web, scopeOf, base, s);
    if s.queue[0] != TerminationSignal {
      var next := CrawlStep(web, scopeOf, base, s);
      RunAdvances(web, scopeOf, base, s);
      RunCallsReplay(web, scopeOf, base, next);
      ExecuteAppend(s, StepCalls(web, scopeOf, base, s), RunCalls(web, scopeOf, base, next));
    }
  }

  /**
   * A run's calls all return, and their `get_next_url` calls return the
   * queue up to and including its first signal, in order.
   */
  ghost predicate PullsToSignal(web: Web, scopeOf: Scope, base: Url, s: State)
    requires TerminationSignal in s.queue && Accounted(s)
  {
    Runnable(s, RunCalls(web, scopeOf, base, s))
    && Pulled(s, RunCalls(web, scopeOf, base, s)) == s.queue[..IndexOf(s.queue, TerminationSignal) + 1]
  }

  /** Every admitted link goes behind the first signal, so a run pulls exactly the URLs before it, then it. */
  lemma {:induction false} RunCallsPull(web: Web, scopeOf: Scope, base: Url, s: State)
    requires TerminationSignal in s.queue && Accounted(s)
    ensures PullsToSignal(web, scopeOf, base, s)
    decreases IndexOf(s.queue, TerminationSignal)
  {
    if s.queue[0] == TerminationSignal {
      PullSignal(web, scopeOf, base, s);
    } else {
      RunAdvances(web, scopeOf, base, s);
      RunCallsPull(web, scopeOf, base, CrawlStep(web, scopeOf, base, s));
      PullThenRun(web, scopeOf, base, s);
    }
  }

  /** A run that starts on a signal makes one `get_next_url`, which returns it. */
  lemma PullSignal(web: Web, scopeOf: Scope, base: Url, s: State)
    requires s.queue != [] && s.queue[0] == TerminationSignal && Accounted(s)
    ensures PullsToSignal(web, scopeOf, base, s)
  {
    StepCallsReplay(web, scopeOf, base, s);
  }

  /** A page step's `get_next_url`, then the rest of the run, return the page and then what the rest returns. */
  lemma PullThenRun(web: Web, scopeOf: Scope, base: Url, s: State)
    requires TerminationSignal in s.queue && Accounted(s) && s.queue[0] != TerminationSignal
    requires TerminationSignal in CrawlStep(web, scopeOf, base, s).queue
    requires Accounted(CrawlStep(web, scopeOf, base, s))
    requires PullsToSignal(web, scopeOf, base, CrawlStep(web, scopeOf, base, s))
    ensures PullsToSignal(web, scopeOf, base, s)
  {
    var k := IndexOf(s.queue, TerminationSignal);
    var step := StepCalls(web, scopeOf, base, s);
    var next := CrawlStep(web, scopeOf, base, s);
    var rest := RunCalls(web, scopeOf, base, next);
    RunAdvances(web, scopeOf, base, s);
    assert Runnable(next, rest) && Pulled(next, rest) == next.queue[..k];
    StepCallsReplay(web, scopeOf, base, s);
    PulledAppend(s, step, rest);
    StepKeepsPrefix(web, scopeOf, base, s);
    assert Pulled(s, step + rest) == s.queue[..k + 1];
    assert RunCalls(web, scopeOf, base, s) == step + rest;
  }

  /** A page step keeps the URLs before the first signal, less the head, at the front. */
  lemma StepKeepsPrefix(web: Web, scopeOf: Scope, base: Url, s: State)
    requires TerminationSignal in s.queue && Accounted(s) && s.queue[0] != TerminationSignal
    ensures IndexOf(s.queue, TerminationSignal) <= |CrawlStep(web, scopeOf, base, s).queue|
    ensures [s.queue[0]] + CrawlStep(web, scopeOf, base, s).queue[..IndexOf(s.queue, TerminationSignal)]
            == s.queue[..IndexOf(s.queue, TerminationSignal) + 1]
  {
    var k := IndexOf(s.queue, TerminationSignal);
    var links := PageLinks(web, scopeOf, base, s.queue[0]);
    AdmitAllShape(Pop(s), links);
    var next := CrawlStep(web, scopeOf, base, s);
    assert next.queue == s.queue[1..] + NewLinks(s.visited, links);
    assert next.queue[..k] == s.queue[1..k + 1];
  }

  /** A step on a non-signal head moves the first signal one place forward. */
  lemma RunAdvances(web: Web, scopeOf: Scope, base: Url, s: State)
    requires TerminationSignal in s.queue && Accounted(s) && s.queue[0] != TerminationSignal
    ensures Accounted(CrawlStep(web, scopeOf, base, s))
    ensures TerminationSignal in CrawlStep(web, scopeOf, base, s).queue
    ensures IndexOf(CrawlStep(web, scopeOf, base, s).queue, TerminationSignal)
            == IndexOf(s.queue, TerminationSignal) - 1
  {
    StepAccounted(web, scopeOf, base, s);
    var links := PageLinks(web, scopeOf, base, s.queue[0]);
    AdmitAllShape(Pop(s), links);
    var rest := s.queue[1..];
    assert s.queue == [s.queue[0]] + rest;
    IndexOfAppend(rest, NewLinks(s.visited, links), TerminationSignal);
  }

  /** No page links to the termination signal (the real service returns only http(s) links). */
  predicate NoSignalLinks(web: Web)
  {
    forall u :: u in web ==> TerminationSignal !in web[u]
  }

  /**
   * `run` consumes exactly one termination signal: every other URL it pops
   * is a page, and pages never add signals.
   */
  lemma {:induction false} RunConsumesOneSignal(web: Web, scopeOf: Scope, base: Url, s: State)
    requires NoSignalLinks(web)
    requires TerminationSignal in s.queue && Accounted(s)
    ensures Count(RunToSignal(web, scopeOf, base, s).queue, TerminationSignal)
            == Count(s.queue, TerminationSignal) - 1
    ensures s.visited <= RunToSignal(web, scopeOf, base, s).visited
    decreases IndexOf(s.queue, TerminationSignal)
  {
    if s.queue[0] == TerminationSignal {
      assert s.queue == [s.queue[0]] + s.queue[1..];
      CountAppend([s.queue[0]], s.queue[1..], TerminationSignal);
    } else {
      RunAdvances(web, scopeOf, base, s);
      StepKeepsSignalCount(web, scopeOf, base, s);
      RunConsumesOneSignal(web, scopeOf, base, CrawlStep(web, scopeOf, base, s));
    }
  }

  /** Processing a page neither removes nor adds termination signals. */
  lemma StepKeepsSignalCount(web: Web, scopeOf: Scope, base: Url, s: State)
    requires NoSignalLinks(web)
    requires s.queue != [] && Accounted(s) && s.queue[0] != TerminationSignal
    ensures Count(CrawlStep(web, scopeOf, base, s).queue, TerminationSignal)
            == Count(s.queue, TerminationSignal)
    ensures s.visited <= CrawlStep(web, scopeOf, base, s).visited
  {
    var rest := s.queue[1..];
    assert s.queue == [s.queue[0]] + rest;
    CountAppend([s.queue[0]], rest, TerminationSignal);
    var links := PageLinks(web, scopeOf, base, s.queue[0]);
    AdmitAllShape(Pop(s), links);
    var added := NewLinks(s.visited, links);
    assert TerminationSignal !in Links(web, s.queue[0]);
    assert TerminationSignal !in Elems(added);
    CountAppend(rest, added, TerminationSignal);
  }

  /** A queue holding only signals: the run pops the first one and does nothing else. */
  lemma RunOnSignalsOnly(web: Web, scopeOf: Scope, base: Url, s: State)
    requires s.queue != [] && s.queue[0] == TerminationSignal && Accounted(s)
    ensures RunToSignal(web, scopeOf, base, s) == Pop(s)
    ensures RunCalls(web, scopeOf, base, s) == [GetNextUrl]
  {
  }

  // ---------------------------------------------------------------------------
  // The closure a crawl computes

  /**
   * Seeding the termination signal itself as the base: the first worker
   * takes it for the signal and stops without `task_done`; the queue is
   * then empty, so every other worker blocks, and one task stays
   * unfinished, so `join` never returns.
   */
  lemma SignalBaseStalls(web: Web, scopeOf: Scope)
    ensures Accounted(Admit(Empty, TerminationSignal))
    ensures CrawlStep(web, scopeOf, TerminationSignal, Admit(Empty, TerminationSignal)).queue == []
    ensures !AllTasksDone(CrawlStep(web, scopeOf, TerminationSignal, Admit(Empty, TerminationSignal)))
  {
  }

  /** Every URL the crawl could ever meet: the base and every link of every page. */
  ghost function Universe(web: Web, base: Url): set<Url>
  {
    {base} + set u, l | u in web && l in web[u] :: l
  }

  /** `S` contains the in-scope links of each of its pages. */
  ghost predicate Closed(web: Web, scopeOf: Scope, base: Url, S: set<Url>)
  {
    forall u, l :: u in S && l in PageLinks(web, scopeOf, base, u) ==> l in S
  }

  /** The smallest set that contains the base and is closed under in-scope links. */
  ghost function Closure(web: Web, scopeOf: Scope, base: Url): (c: set<Url>)
    ensures base in c && c <= Universe(web, base)
  {
    set u | u in Universe(web, base) &&
            forall S :: base in S && Closed(web, scopeOf, base, S) ==> u in S
  }

  lemma ClosureIsLeastClosedSet(web: Web, scopeOf: Scope, base: Url)
    ensures base in Closure(web, scopeOf, base)
    ensures Closed(web, scopeOf, base, Closure(web, scopeOf, base))
    ensures forall S :: base in S && Closed(web, scopeOf, base, S) ==> Closure(web, scopeOf, base) <= S
  {
    var C := Closure(web, scopeOf, base);
    forall u, l | u in C && l in PageLinks(web, scopeOf, base, u)
      ensures l in C
    {
      assert u in web && l in web[u];
      assert l in Universe(web, base);
    }
  }

  /**
   * The invariant of a crawl between worker steps, with `fetched` the pages
   * whose links have been processed so far:
   *  - processed pages and queued URLs are pairwise distinct and together are
   *    exactly the visited set (so no URL is queued or fetched twice);
   *  - the counter equals the queue length (no step is half-done);
   *  - the base is visited;
   *  - everything visited lies in the closure;
   *  - every in-scope link of a processed page is visited.
   */
  ghost predicate CrawlInv(web: Web, scopeOf: Scope, base: Url, s: State, fetched: seq<Url>)
  {
    && Distinct(fetched + s.queue)
    && s.visited == Elems(fetched + s.queue)
    && s.unfinished == |s.queue|
    && base in s.visited
    && s.visited <= Closure(web, scopeOf, base)
    && forall u, l :: u in fetched && l in PageLinks(web, scopeOf, base, u) ==> l in s.visited
  }

  /** Seeding the frontier with the base (`add_url_to_crawl(base_url)`) establishes the invariant. */
  lemma SeedEstablishesInv(web: Web, scopeOf: Scope, base: Url)
    ensures Admit(Empty, base) == State([base], {base}, 1)
    ensures CrawlInv(web, scopeOf, base, Admit(Empty, base), [])
  {
    ClosureIsLeastClosedSet(web, scopeOf, base);
    assert [] + [base] == [base];
    assert Elems([base]) == {base};
  }

  /**
   * Processing the page at the head keeps the invariant: the head becomes
   * processed and its new in-scope links are queued behind the rest.
   */
  lemma PagePreservesInv(web: Web, scopeOf: Scope, base: Url, s: State, fetched: seq<Url>)
    requires CrawlInv(web, scopeOf, base, s, fetched) && s.queue != []
    ensures Accounted(s)
    ensures CrawlInv(web, scopeOf, base, ProcessPage(web, scopeOf, base, Pop(s), s.queue[0]),
                     fetched + [s.queue[0]])
  {
    var u := s.queue[0];
    assert u in Elems(fetched + s.queue);
    var links := PageLinks(web, scopeOf, base, u);
    AdmitAllShape(Pop(s), links);
    var added := NewLinks(s.visited, links);
    var t := ProcessPage(web, scopeOf, base, Pop(s), u);
    assert t == State(s.queue[1..] + added, s.visited + Elems(links), s.unfinished - 1 + |added|);
    PageKeepsDistinct(s.queue, fetched, s.visited, added);
    assert t.visited <= Closure(web, scopeOf, base) by {
      ClosureIsLeastClosedSet(web, scopeOf, base);
    }
    var fetched' := fetched + [u];
    forall v, l | v in fetched' && l in PageLinks(web, scopeOf, base, v)
      ensures l in t.visited
    {
      if v != u {
        assert v in fetched;
      }
    }
  }

  /** Moving the head to the processed pages and queuing new URLs keeps them distinct and equal to visited. */
  lemma PageKeepsDistinct(queue: seq<Url>, fetched: seq<Url>, visited: set<Url>, added: seq<Url>)
    requires queue != [] && Distinct(fetched + queue) && visited == Elems(fetched + queue)
    requires Distinct(added) && Elems(added) !! visited
    ensures Distinct((fetched + [queue[0]]) + (queue[1..] + added))
    ensures Elems((fetched + [queue[0]]) + (queue[1..] + added)) == visited + Elems(added)
  {
    assert (fetched + [queue[0]]) + (queue[1..] + added) == (fetched + queue) + added;
    DistinctAppend(fetched + queue, added);
    assert Elems((fetched + queue) + added) == Elems(fetched + queue) + Elems(added);
  }

  /**
   * A worker step between two others keeps the invariant: while no signal
   * has been visited, the popped URL is a page, and its links bring none.
   */
  lemma StepPreservesInv(web: Web, scopeOf: Scope, base: Url, s: State, fetched: seq<Url>)
    requires NoSignalLinks(web)
    requires CrawlInv(web, scopeOf, base, s, fetched) && TerminationSignal !in s.visited
    requires s.queue != []
    ensures Accounted(s) && s.queue[0] != TerminationSignal
    ensures CrawlInv(web, scopeOf, base, CrawlStep(web, scopeOf, base, s), fetched + [s.queue[0]])
    ensures TerminationSignal !in CrawlStep(web, scopeOf, base, s).visited
  {
    var u := s.queue[0];
    assert u in Elems(fetched + s.queue);
    PagePreservesInv(web, scopeOf, base, s, fetched);
    AdmitAllShape(Pop(s), PageLinks(web, scopeOf, base, u));
    assert TerminationSignal !in Links(web, u);
  }

  /** Visited URLs are distinct across processed pages and queue, so they cannot outnumber the closure. */
  lemma InvBound(web: Web, scopeOf: Scope, base: Url, s: State, fetched: seq<Url>)
    requires CrawlInv(web, scopeOf, base, s, fetched)
    ensures |fetched| + |s.queue| <= |Closure(web, scopeOf, base)|
  {
    DistinctCard(fetched + s.queue);
    SubsetCard(s.visited, Closure(web, scopeOf, base));
  }

  lemma SubsetCard<T>(a: set<T>, b: set<T>)
    requires a <= b
    ensures |a| <= |b|
  {
    assert b == a + (b - a);
  }

  /**
   * Once `join` would return (no unfinished task), the queue is empty, the
   * visited set is exactly the closure of the base, and every URL of the
   * closure has been fetched exactly once.
   */
  lemma DrainedIsClosure(web: Web, scopeOf: Scope, base: Url, s: State, fetched: seq<Url>)
    requires CrawlInv(web, scopeOf, base, s, fetched) && AllTasksDone(s)
    ensures s.queue == []
    ensures s.visited == Closure(web, scopeOf, base)
    ensures Distinct(fetched) && Elems(fetched) == Closure(web, scopeOf, base)
  {
    assert fetched + s.queue == fetched;
    assert Closed(web, scopeOf, base, s.visited);
    ClosureIsLeastClosedSet(web, scopeOf, base);
  }

  /**
   * Processing a page either visits some new URL of the universe or
   * leaves the visited set as it was and shortens the queue: the measure
   * under which a worker that never meets a signal runs out of work.
   */
  lemma PageProgress(web: Web, scopeOf: Scope, base: Url, s: State)
    requires s.queue != [] && Accounted(s)
    ensures Accounted(ProcessPage(web, scopeOf, base, Pop(s), s.queue[0]))
    ensures s.visited <= ProcessPage(web, scopeOf, base, Pop(s), s.queue[0]).visited
    ensures |Universe(web, base) - ProcessPage(web, scopeOf, base, Pop(s), s.queue[0]).visited|
            <= |Universe(web, base) - s.visited|
    ensures ProcessPage(web, scopeOf, base, Pop(s), s.queue[0]).visited == s.visited ==>
              |ProcessPage(web, scopeOf, base, Pop(s), s.queue[0]).queue| < |s.queue|
    ensures ProcessPage(web, scopeOf, base, Pop(s), s.queue[0]).visited != s.visited ==>
              |Universe(web, base) - ProcessPage(web, scopeOf, base, Pop(s), s.queue[0]).visited|
              < |Universe(web, base) - s.visited|
  {
    var u := s.queue[0];
    var links := PageLinks(web, scopeOf, base, u);
    AdmitAllShape(Pop(s), links);
    var t := ProcessPage(web, scopeOf, base, Pop(s), u);
    var U := Universe(web, base);
    assert Elems(links) <= U by {
      forall l | l in links ensures l in U {
        assert u in web && l in web[u];
      }
    }
    SubsetCard(U - t.visited, U - s.visited);
    if t.visited != s.visited {
      var l :| l in t.visited && l !in s.visited;
      assert l in U - s.visited && l !in U - t.visited;
      assert U - s.visited == (U - t.visited) + (t.visited - s.visited);
    } else {
      var added := NewLinks(s.visited, links);
      assert Elems(added) == {};
      assert |added| == |Elems(added)| by { DistinctCard(added); }
    }
  }
}
