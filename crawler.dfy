/**
 * The worker of the current crawler (src/crawler/crawler.py). A `Crawler`
 * pulls URLs from the shared `Repository`, fetches their links, admits the
 * in-scope ones and reports the URL processed, until it pulls the
 * termination signal. Each call is an atomic step here; threads are
 * interleaved by `Launcher`.
 */
module Crawler {
  import opened Urls
  import opened Seqs
  import opened Frontier
  import opened Crawling
  import Repository

  /** `CrawlerOptions` (src/models/options.py), with its defaults: links are logged, one thread. */
  datatype CrawlerOptions = CrawlerOptions(baseUrl: Url, skipLinksFound: bool := false, threadCount: int := 1)

  /** The class object `Crawler`, which holds the class attribute `next_crawler_id`. */
  class CrawlerClass {
    var nextCrawlerId: nat

    constructor ()
      ensures nextCrawlerId == 0
    {
      nextCrawlerId := 0;
    }
  }

  class Crawler {
    const repository: Repository.Repository
    /** The links `HTMLParserService.get_links_under_url` finds on each page. */
    const service: Web
    const options: CrawlerOptions
    /** The `subdomain` accessor links and the base URL are compared by. */
    const scopeOf: Scope
    const id: nat

    /** `__init__`: the new worker takes the class counter as its id and bumps it. */
    constructor (cls: CrawlerClass, repository: Repository.Repository, service: Web,
                 options: CrawlerOptions, scopeOf: Scope)
      modifies cls
      ensures this.repository == repository && this.service == service
      ensures this.options == options && this.scopeOf == scopeOf
      ensures id == old(cls.nextCrawlerId) && cls.nextCrawlerId == old(cls.nextCrawlerId) + 1
    {
      this.repository := repository;
      this.service := service;
      this.options := options;
      this.scopeOf := scopeOf;
      this.id := cls.nextCrawlerId;
      cls.nextCrawlerId := cls.nextCrawlerId + 1;
    }

    /**
     * `crawl_next_url`: pop one URL. On the termination signal return False
     * with nothing fetched, admitted or reported. Otherwise admit, in page
     * order, exactly the links whose subdomain equals the base URL's, then
     * report the URL processed once, and return True. The calls it makes on
     * the repository are exactly `StepCalls`, in that order.
     */
    method CrawlNextUrl() returns (more: bool)
      requires repository.urlsToVisit != [] && Accounted(repository.State())
      modifies repository
      ensures more <==> old(repository.urlsToVisit)[0] != TerminationSignal
      ensures repository.State() == CrawlStep(service, scopeOf, options.baseUrl, old(repository.State()))
      ensures Accounted(repository.State())
      ensures repository.calls
              == old(repository.calls) + StepCalls(service, scopeOf, options.baseUrl, old(repository.State()))
    {
      var discoveredUrl := repository.GetNextUrl();
      if discoveredUrl == TerminationSignal {
        return false;
      }
      var linkedUrls := Links(service, discoveredUrl);
      AdmitInScope(linkedUrls);
      repository.NotifyUrlProcessed();
      PageCallsRecorded(old(repository.calls), ScopedLinks(linkedUrls, scopeOf, options.baseUrl));
      return true;
    }

    /**
     * The admission loop of `crawl_next_url`: `add_url_to_crawl` for each
     * link whose subdomain equals the base URL's, in page order, and no
     * other call.
     */
    method AdmitInScope(linkedUrls: seq<Url>)
      modifies repository
      ensures repository.State() == AdmitAll(old(repository.State()), ScopedLinks(linkedUrls, scopeOf, options.baseUrl))
      ensures repository.calls == old(repository.calls) + AddAll(ScopedLinks(linkedUrls, scopeOf, options.baseUrl))
    {
      ghost var start := repository.State();
      ghost var called := repository.calls;
      for i := 0 to |linkedUrls|
        invariant repository.State() == AdmitAll(start, ScopedLinks(linkedUrls[..i], scopeOf, options.baseUrl))
        invariant repository.calls == called + AddAll(ScopedLinks(linkedUrls[..i], scopeOf, options.baseUrl))
      {
        var link := linkedUrls[i];
        ScopedLinksStep(linkedUrls, i, scopeOf, options.baseUrl);
        if scopeOf(link) == scopeOf(options.baseUrl) {
          AdmitOneMore(start, called, ScopedLinks(linkedUrls[..i], scopeOf, options.baseUrl), link);
          repository.AddUrlToCrawl(link);
        }
      }
      assert linkedUrls[..|linkedUrls|] == linkedUrls;
    }

    /**
     * `run`: repeat `crawl_next_url` until it returns False, i.e. until it
     * pops a termination signal. The calls it makes on the repository are
     * exactly `RunCalls`: the steps' calls, ending with the signal's
     * `get_next_url`.
     */
    method Run()
      requires TerminationSignal in repository.urlsToVisit && Accounted(repository.State())
      modifies repository
      ensures repository.State() == RunToSignal(service, scopeOf, options.baseUrl, old(repository.State()))
      ensures repository.calls == old(repository.calls) + RunCalls(service, scopeOf, options.baseUrl, old(repository.State()))
    {
      ghost var start := repository.State();
      ghost var called := repository.calls;
      var more := true;
      while more
        invariant Accounted(repository.State())
        invariant more ==> TerminationSignal in repository.urlsToVisit
        invariant more ==> RunToSignal(service, scopeOf, options.baseUrl, start)
                           == RunToSignal(service, scopeOf, options.baseUrl, repository.State())
        invariant more ==> called + RunCalls(service, scopeOf, options.baseUrl, start)
                           == repository.calls + RunCalls(service, scopeOf, options.baseUrl, repository.State())
        invariant !more ==> repository.State() == RunToSignal(service, scopeOf, options.baseUrl, start)
        invariant !more ==> repository.calls == called + RunCalls(service, scopeOf, options.baseUrl, start)
        decreases if more then 1 + IndexOf(repository.urlsToVisit, TerminationSignal) else 0
      {
        ghost var before := repository.State();
        ghost var c := repository.calls;
        more := CrawlNextUrl();
        if more {
          RunAdvances(service, scopeOf, options.baseUrl, before);
          AppendAssoc(c, StepCalls(service, scopeOf, options.baseUrl, before),
                      RunCalls(service, scopeOf, options.baseUrl, repository.State()));
        }
      }
    }
  }
}
