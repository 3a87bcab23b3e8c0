/**
 * The first version of the worker (crawler.py at the top level): a thread
 * that loops forever taking a URL from the storage, fetching its links,
 * admitting those with the base URL's subdomain and committing. There is
 * no termination signal. The model runs the loop while the queue supplies
 * URLs and stops where the thread would block forever on an empty queue.
 */
module LegacyCrawler {
  import opened Urls
  import opened Frontier
  import opened Crawling
  import LegacyStorage

  /** The class object `Crawler`, which holds the class attribute `next_crawler_id`. */
  class CrawlerClass {
    var nextCrawlerId: nat

    constructor ()
      ensures nextCrawlerId == 0
    {
      nextCrawlerId := 0;
    }
  }

  class Crawler {
    const repository: LegacyStorage.CrawlerStorageContext
    const baseUrl: Url
    /** The links `HTMLParser.get_links_under_url` finds on each page. */
    const service: Web
    /** The `subdomain` accessor links and the base URL are compared by. */
    const scopeOf: Scope
    const id: nat

    /** `__init__`: the new worker takes the class counter as its id and bumps it. */
    constructor (cls: CrawlerClass, repository: LegacyStorage.CrawlerStorageContext, baseUrl: Url,
                 service: Web, scopeOf: Scope)
      modifies cls
      ensures this.repository == repository && this.baseUrl == baseUrl
      ensures this.service == service && this.scopeOf == scopeOf
      ensures id == old(cls.nextCrawlerId) && cls.nextCrawlerId == old(cls.nextCrawlerId) + 1
    {
      this.repository := repository;
      this.baseUrl := baseUrl;
      this.service := service;
      this.scopeOf := scopeOf;
      this.id := cls.nextCrawlerId;
      cls.nextCrawlerId := cls.nextCrawlerId + 1;
    }

    /**
     * One pass of the `while True` loop of `run`: take one URL, admit in
     * page order the links with the base URL's subdomain, then commit once.
     * The calls it makes on the storage are exactly `PageCalls` of those
     * links, in that order, so `commit` comes after every admission.
     */
    method RunIteration()
      requires repository.Valid() && repository.urlsToVisit != [] && Accounted(repository.State())
      modifies repository
      ensures repository.State()
              == ProcessPage(service, scopeOf, baseUrl, Pop(old(repository.State())), old(repository.urlsToVisit)[0])
      ensures Accounted(repository.State())
      ensures repository.Valid()
      ensures repository.calls
              == old(repository.calls) + PageCalls(PageLinks(service, scopeOf, baseUrl, old(repository.urlsToVisit)[0]))
    {
      var discoveredUrl := repository.GetNextUrl();
      ghost var popped := repository.State();
      var linkedUrls := Links(service, discoveredUrl);
      AdmitInScope(linkedUrls);
      AdmitAllShape(popped, ScopedLinks(linkedUrls, scopeOf, baseUrl));
      repository.Commit();
      PageCallsRecorded(old(repository.calls), ScopedLinks(linkedUrls, scopeOf, baseUrl));
    }

    /**
     * The inner `for` loop of `run`: `add_url_to_crawl` for each link with
     * the base URL's subdomain, in page order, and no other call.
     */
    method AdmitInScope(linkedUrls: seq<Url>)
      requires repository.Valid()
      modifies repository
      ensures repository.Valid()
      ensures repository.State() == AdmitAll(old(repository.State()), ScopedLinks(linkedUrls, scopeOf, baseUrl))
      ensures repository.calls == old(repository.calls) + AddAll(ScopedLinks(linkedUrls, scopeOf, baseUrl))
    {
      ghost var start := repository.State();
      ghost var called := repository.calls;
      for i := 0 to |linkedUrls|
        invariant repository.Valid()
        invariant repository.State() == AdmitAll(start, ScopedLinks(linkedUrls[..i], scopeOf, baseUrl))
        invariant repository.calls == called + AddAll(ScopedLinks(linkedUrls[..i], scopeOf, baseUrl))
      {
        var link := linkedUrls[i];
        ScopedLinksStep(linkedUrls, i, scopeOf, baseUrl);
        if scopeOf(link) == scopeOf(baseUrl) {
          AdmitOneMore(start, called, ScopedLinks(linkedUrls[..i], scopeOf, baseUrl), link);
          repository.AddUrlToCrawl(link);
        }
      }
      assert linkedUrls[..|linkedUrls|] == linkedUrls;
    }

    /**
     * `run`, up to the point where the queue is empty and the thread would
     * block for good. The visited set only grows. Started on a storage that
     * holds just the seeded base URL, as main.py does, a single worker
     * leaves exactly the closure of the base URL visited and no task
     * unfinished.
     */
    method Run()
      requires repository.Valid() && Accounted(repository.State())
      modifies repository
      ensures repository.Valid()
      ensures repository.urlsToVisit == []
      ensures old(repository.visitedUrls) <= repository.visitedUrls
      ensures old(repository.State()) == Admit(Empty, baseUrl) ==>
                repository.visitedUrls == Closure(service, scopeOf, baseUrl)
                && repository.unfinishedTasks == 0
    {
      ghost var seeded := repository.State() == Admit(Empty, baseUrl);
      ghost var fetched: seq<Url> := [];
      if seeded {
        SeedEstablishesInv(service, scopeOf, baseUrl);
      }
      while repository.urlsToVisit != []
        invariant repository.Valid() && Accounted(repository.State())
        invariant old(repository.visitedUrls) <= repository.visitedUrls
        invariant seeded ==> CrawlInv(service, scopeOf, baseUrl, repository.State(), fetched)
        decreases |Universe(service, baseUrl) - repository.visitedUrls|, |repository.urlsToVisit|
      {
        ghost var before := repository.State();
        PageProgress(service, scopeOf, baseUrl, before);
        if seeded {
          PagePreservesInv(service, scopeOf, baseUrl, before, fetched);
        }
        RunIteration();
        fetched := fetched + [before.queue[0]];
      }
      if seeded {
        DrainedIsClosure(service, scopeOf, baseUrl, repository.State(), fetched);
      }
    }
  }
}
