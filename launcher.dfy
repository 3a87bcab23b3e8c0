/**
 * `CrawlerLauncher` (src/crawler/launcher.py): seed the repository, start
 * `thread_count` workers, wait until the queue has no unfinished task, send
 * one termination signal per worker, join them and return the visited
 * URLs. The workers' threads are modelled by a scheduler that lets an
 * arbitrary worker take its next whole `crawl_next_url` step, and joining a
 * worker runs the rest of its `run` loop.
 */
module Launcher {
  import opened Urls
  import opened Seqs
  import opened Frontier
  import opened Crawling
  import Crawler
  import Repository

  class CrawlerLauncher {
    const options: Crawler.CrawlerOptions

    constructor (options: Crawler.CrawlerOptions)
      ensures this.options == options
    {
      this.options := options;
    }

    /**
     * `terminate_all_workers`, called once the queue has drained: enqueue
     * `thread_count` signals through `queue_next_url`, bypassing the
     * visited check, then join each worker, whose `run` makes a single
     * `get_next_url` (it pops a signal) and stops. The queue ends empty
     * and no signal has entered the visited set.
     */
    method TerminateAllWorkers(threads: seq<Crawler.Crawler>, threadCount: nat,
                               repository: Repository.Repository)
      requires threadCount <= |threads|
      requires forall i :: 0 <= i < |threads| ==> threads[i].repository == repository
      requires repository.urlsToVisit == [] && Accounted(repository.State())
      modifies repository
      ensures repository.urlsToVisit == []
      ensures repository.visitedUrls == old(repository.visitedUrls)
      ensures repository.unfinishedTasks == old(repository.unfinishedTasks) + threadCount
      ensures repository.calls == old(repository.calls) + Repeat(Op.QueueNextUrl(TerminationSignal), threadCount)
                                  + Repeat(GetNextUrl, threadCount)
    {
      ghost var called := repository.calls;
      for i := 0 to threadCount
        invariant repository.urlsToVisit == Repeat(TerminationSignal, i)
        invariant repository.visitedUrls == old(repository.visitedUrls)
        invariant repository.unfinishedTasks == old(repository.unfinishedTasks) + i
        invariant repository.calls == called + Repeat(Op.QueueNextUrl(TerminationSignal), i)
      {
        RepeatSnoc(TerminationSignal, i);
        RepeatSnoc(Op.QueueNextUrl(TerminationSignal), i);
        AppendAssoc(called, Repeat(Op.QueueNextUrl(TerminationSignal), i), [Op.QueueNextUrl(TerminationSignal)]);
        repository.QueueNextUrl(TerminationSignal);
      }
      ghost var signalled := repository.calls;
      for i := 0 to threadCount
        invariant repository.urlsToVisit == Repeat(TerminationSignal, threadCount - i)
        invariant repository.visitedUrls == old(repository.visitedUrls)
        invariant repository.unfinishedTasks == old(repository.unfinishedTasks) + threadCount
        invariant repository.calls == signalled + Repeat(GetNextUrl, i)
      {
        var thread := threads[i];
        RunOnSignalsOnly(thread.service, thread.scopeOf, thread.options.baseUrl, repository.State());
        RepeatSnoc(GetNextUrl, i);
        AppendAssoc(signalled, Repeat(GetNextUrl, i), [GetNextUrl]);
        thread.Run();
        assert Repeat(TerminationSignal, threadCount - i)[1..] == Repeat(TerminationSignal, threadCount - i - 1);
      }
    }

    /**
     * The workers' threads while the crawl lasts: until no task is
     * unfinished, an arbitrary worker takes its next `crawl_next_url` step.
     * `fetched` is what the `get_next_url` calls made meanwhile returned,
     * and the crawl invariant holds for it afterwards.
     */
    method Schedule(threads: seq<Crawler.Crawler>, repository: Repository.Repository,
                    service: Web, scopeOf: Scope) returns (ghost fetched: seq<Url>)
      requires |threads| >= 1 && NoSignalLinks(service)
      requires forall k :: 0 <= k < |threads| ==>
                 threads[k].repository == repository && threads[k].service == service
                 && threads[k].options == options && threads[k].scopeOf == scopeOf
      requires CrawlInv(service, scopeOf, options.baseUrl, repository.State(), [])
      requires TerminationSignal !in repository.visitedUrls
      requires Runnable(Empty, repository.calls) && repository.State() == Execute(Empty, repository.calls)
      requires Pulled(Empty, repository.calls) == [] && |repository.calls| >= 1
      modifies repository
      ensures AllTasksDone(repository.State())
      ensures CrawlInv(service, scopeOf, options.baseUrl, repository.State(), fetched)
      ensures TerminationSignal !in repository.visitedUrls
      ensures Runnable(Empty, repository.calls) && repository.State() == Execute(Empty, repository.calls)
      ensures Pulled(Empty, repository.calls) == fetched
      ensures |repository.calls| >= 1 && repository.calls[0] == old(repository.calls[0])
    {
      var base := options.baseUrl;
      fetched := [];
      while repository.unfinishedTasks != 0
        invariant CrawlInv(service, scopeOf, base, repository.State(), fetched)
        invariant TerminationSignal !in repository.visitedUrls
        invariant Runnable(Empty, repository.calls) && repository.State() == Execute(Empty, repository.calls)
        invariant Pulled(Empty, repository.calls) == fetched
        invariant |repository.calls| >= 1 && repository.calls[0] == old(repository.calls[0])
        decreases |Closure(service, scopeOf, base)| - |fetched|
      {
        ghost var before := repository.State();
        ghost var called := repository.calls;
        InvBound(service, scopeOf, base, before, fetched);
        StepPreservesInv(service, scopeOf, base, before, fetched);
        StepCallsReplay(service, scopeOf, base, before);
        var w :| 0 <= w < |threads|;
        var more := threads[w].CrawlNextUrl();
        ExecuteAppend(Empty, called, StepCalls(service, scopeOf, base, before));
        PulledAppend(Empty, called, StepCalls(service, scopeOf, base, before));
        fetched := fetched + [before.queue[0]];
      }
    }

    /**
     * `crawl`. The result lists, without duplicates, exactly the closure of
     * the base URL under same-subdomain links. `trace` is the record of the
     * calls made on the repository, oldest first: it starts with seeding the
     * base, every call returns, and its final visited set is the result.
     * `fetched` is what its `get_next_url` calls returned before the
     * signals: each URL of the closure exactly once. The remaining
     * `thread_count` pops take the signals, and the queue ends empty.
     */
    method Crawl(cls: Crawler.CrawlerClass, service: Web, scopeOf: Scope)
      returns (visitedUrls: seq<Url>, ghost fetched: seq<Url>, ghost trace: seq<Op>)
      requires options.threadCount >= 1
      requires options.baseUrl != TerminationSignal && NoSignalLinks(service)
      modifies cls
      ensures Distinct(visitedUrls)
      ensures Elems(visitedUrls) == Closure(service, scopeOf, options.baseUrl)
      ensures options.baseUrl in visitedUrls
      ensures Distinct(fetched) && Elems(fetched) == Closure(service, scopeOf, options.baseUrl)
      ensures cls.nextCrawlerId == old(cls.nextCrawlerId) + options.threadCount
      ensures |trace| >= 1 && trace[0] == Op.AddUrlToCrawl(options.baseUrl)
      ensures Runnable(Empty, trace) && Execute(Empty, trace).queue == []
      ensures Execute(Empty, trace).visited == Elems(visitedUrls)
      ensures Pulled(Empty, trace) == fetched + Repeat(TerminationSignal, options.threadCount)
    {
      var base := options.baseUrl;
      var repository := new Repository.Repository();
      repository.AddUrlToCrawl(base);
      SeedEstablishesInv(service, scopeOf, base);
      ExtendTrace(Empty, [], Op.AddUrlToCrawl(base));
      assert [] + [Op.AddUrlToCrawl(base)] == [Op.AddUrlToCrawl(base)];
      var threadCount := options.threadCount;
      var threads: seq<Crawler.Crawler> := [];
      for i := 0 to threadCount
        invariant |threads| == i
        invariant forall k :: 0 <= k < i ==>
                    threads[k].repository == repository && threads[k].service == service
                    && threads[k].options == options && threads[k].scopeOf == scopeOf
                    && threads[k].id == old(cls.nextCrawlerId) + k
        invariant cls.nextCrawlerId == old(cls.nextCrawlerId) + i
        invariant repository.State() == Admit(Empty, base)
        invariant repository.calls == [Op.AddUrlToCrawl(base)]
      {
        var thread := new Crawler.Crawler(cls, repository, service, options, scopeOf);
        threads := threads + [thread];
      }
      fetched := Schedule(threads, repository, service, scopeOf);
      repository.WaitUntilAllUrlsProcessed();
      DrainedIsClosure(service, scopeOf, base, repository.State(), fetched);
      ghost var drained := repository.calls;
      TerminateAllWorkers(threads, threadCount, repository);
      SignalRoundsAfter(Empty, drained, TerminationSignal, threadCount);
      visitedUrls := repository.VisitedUrls();
      trace := repository.calls;
    }
  }
}
