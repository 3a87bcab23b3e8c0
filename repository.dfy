/**
 * `Repository` (src/repository/repository.py): the frontier the current
 * crawler uses. Its methods are atomic steps here; the mutex and the
 * blocking of the underlying `queue.Queue` are abstracted (a `get` needs a
 * non-empty queue, the drain wait needs no unfinished task). The ghost
 * field `calls` records the frontier operations called on the object, so
 * that a client's contract can state which calls it makes and in what order.
 */
module Repository {
  import opened Urls
  import opened Seqs
  import opened Frontier

  class Repository {
    /** The items of `_urls_to_visit`, head first. */
    var urlsToVisit: seq<Url>
    /** The `unfinished_tasks` counter of `_urls_to_visit`. */
    var unfinishedTasks: nat
    /** `_visited_urls`. */
    var visitedUrls: set<Url>
    /** The frontier operations called on this object so far, oldest first. */
    ghost var calls: seq<Op>

    function State(): Frontier.State
      reads this
    {
      Frontier.State(urlsToVisit, visitedUrls, unfinishedTasks)
    }

    constructor ()
      ensures State() == Empty && calls == []
    {
      urlsToVisit, visitedUrls, unfinishedTasks := [], {}, 0;
      calls := [];
    }

    /** `queue_next_url`: enqueue unconditionally; the visited set is not touched. */
    method QueueNextUrl(url: Url)
      modifies this
      ensures State() == Put(old(State()), url)
      ensures urlsToVisit == old(urlsToVisit) + [url] && visitedUrls == old(visitedUrls)
      ensures calls == old(calls) + [Op.QueueNextUrl(url)]
    {
      urlsToVisit := urlsToVisit + [url];
      unfinishedTasks := unfinishedTasks + 1;
      calls := calls + [Op.QueueNextUrl(url)];
    }

    /**
     * `add_url_to_crawl`: a URL never visited goes to the back of the queue
     * and into the visited set; a visited one changes nothing.
     */
    method AddUrlToCrawl(url: Url)
      modifies this
      ensures State() == Admit(old(State()), url)
      ensures url !in old(visitedUrls) ==>
                urlsToVisit == old(urlsToVisit) + [url] && visitedUrls == old(visitedUrls) + {url}
                && unfinishedTasks == old(unfinishedTasks) + 1
      ensures url in old(visitedUrls) ==> State() == old(State())
      ensures calls == old(calls) + [Op.AddUrlToCrawl(url)]
    {
      ghost var before := calls;
      if url !in visitedUrls {
        // The second check is the one made while holding `_mutex`.
        if url !in visitedUrls {
          QueueNextUrl(url);
          visitedUrls := visitedUrls + {url};
        }
      }
      // The inner `queue_next_url` is part of this call, not a call of its own.
      calls := before + [Op.AddUrlToCrawl(url)];
    }

    /** `get_next_url`: remove and return the head; the visited set and the counter stay. */
    method GetNextUrl() returns (url: Url)
      requires urlsToVisit != []
      modifies this
      ensures url == old(urlsToVisit)[0]
      ensures State() == Pop(old(State()))
      ensures urlsToVisit == old(urlsToVisit)[1..] && visitedUrls == old(visitedUrls)
      ensures calls == old(calls) + [Op.GetNextUrl]
    {
      url := urlsToVisit[0];
      urlsToVisit := urlsToVisit[1..];
      calls := calls + [Op.GetNextUrl];
    }

    /**
     * `visited_urls`: a list without duplicates of exactly the visited URLs,
     * in the set's (unspecified) iteration order; nothing changes.
     */
    method VisitedUrls() returns (urls: seq<Url>)
      ensures Distinct(urls)
      ensures Elems(urls) == visitedUrls
    {
      urls := [];
      var rest := visitedUrls;
      while rest != {}
        invariant Distinct(urls)
        invariant Elems(urls) !! rest
        invariant Elems(urls) + rest == visitedUrls
        decreases |rest|
      {
        var u :| u in rest;
        DistinctAppend(urls, [u]);
        assert Elems(urls + [u]) == Elems(urls) + {u};
        urls := urls + [u];
        rest := rest - {u};
      }
    }

    /** `notify_url_processed` (`task_done`): one fewer unfinished task. */
    method NotifyUrlProcessed()
      requires unfinishedTasks > 0
      modifies this
      ensures State() == TaskDone(old(State()))
      ensures unfinishedTasks == old(unfinishedTasks) - 1
      ensures calls == old(calls) + [Op.NotifyUrlProcessed]
    {
      unfinishedTasks := unfinishedTasks - 1;
      calls := calls + [Op.NotifyUrlProcessed];
    }

    /**
     * `wait_until_all_urls_processed` (`join`): returns only once no task is
     * unfinished. The postcondition follows from that by arithmetic: no URL
     * waits on the queue unless some `task_done` was called for a URL
     * nobody took.
     */
    method WaitUntilAllUrlsProcessed()
      requires AllTasksDone(State())
      ensures Accounted(State()) <==> urlsToVisit == []
    {
    }
  }
}
