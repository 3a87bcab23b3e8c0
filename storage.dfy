/**
 * `CrawlerStorageContext` (src/repository/storage.py), the earlier copy of
 * `Repository`. It has no unguarded enqueue: each of its methods is one of
 * the guarded `Frontier.Op`s. The ghost field `calls` records the methods
 * called on the object so far, and `Valid` ties the fields to that trace,
 * so `Frontier.QueueIsAdmissionTail` applies to the object after every
 * call: its queue never holds a URL twice.
 */
module Storage {
  import opened Urls
  import opened Seqs
  import opened Frontier

  class CrawlerStorageContext {
    /** The items of `_urls_to_visit`, head first. */
    var urlsToVisit: seq<Url>
    /** The `unfinished_tasks` counter of `_urls_to_visit`. */
    var unfinishedTasks: nat
    /** `_visited_urls`. */
    var visitedUrls: set<Url>
    /** The calls made on this object since its construction, oldest first. */
    ghost var calls: seq<Op>

    function State(): Frontier.State
      reads this
    {
      Frontier.State(urlsToVisit, visitedUrls, unfinishedTasks)
    }

    /** The fields are what performing `calls` on a fresh frontier yields. */
    ghost predicate Valid()
      reads this
    {
      Runnable(Empty, calls) && NoBypass(calls) && State() == Execute(Empty, calls)
    }

    constructor ()
      ensures State() == Empty
      ensures Valid() && calls == []
    {
      urlsToVisit, visitedUrls, unfinishedTasks := [], {}, 0;
      calls := [];
    }

    /** `add_url_to_crawl`: put a never-visited URL on the queue and mark it visited; else nothing. */
    method AddUrlToCrawl(url: Url)
      requires Valid()
      modifies this
      ensures State() == Apply(old(State()), Op.AddUrlToCrawl(url))
      ensures url !in old(visitedUrls) ==>
                urlsToVisit == old(urlsToVisit) + [url] && visitedUrls == old(visitedUrls) + {url}
      ensures url in old(visitedUrls) ==> State() == old(State())
      ensures Valid() && calls == old(calls) + [Op.AddUrlToCrawl(url)]
      ensures Distinct(urlsToVisit)
    {
      ExtendTrace(Empty, calls, Op.AddUrlToCrawl(url));
      if url !in visitedUrls {
        // The second check is the one made while holding `_mutex`.
        if url !in visitedUrls {
          urlsToVisit := urlsToVisit + [url];
          unfinishedTasks := unfinishedTasks + 1;
          visitedUrls := visitedUrls + {url};
        }
      }
      calls := calls + [Op.AddUrlToCrawl(url)];
      QueueIsAdmissionTail(calls);
    }

    /** `get_next_url`: remove and return the FIFO head; the visited set stays. */
    method GetNextUrl() returns (url: Url)
      requires Valid() && urlsToVisit != []
      modifies this
      ensures url == old(urlsToVisit)[0]
      ensures State() == Apply(old(State()), Op.GetNextUrl)
      ensures urlsToVisit == old(urlsToVisit)[1..] && visitedUrls == old(visitedUrls)
      ensures Valid() && calls == old(calls) + [Op.GetNextUrl]
      ensures Distinct(urlsToVisit)
    {
      ExtendTrace(Empty, calls, Op.GetNextUrl);
      url := urlsToVisit[0];
      urlsToVisit := urlsToVisit[1..];
      calls := calls + [Op.GetNextUrl];
      QueueIsAdmissionTail(calls);
    }

    /** `notify_url_processed` (`task_done`): one fewer unfinished task. */
    method NotifyUrlProcessed()
      requires Valid() && unfinishedTasks > 0
      modifies this
      ensures State() == Apply(old(State()), Op.NotifyUrlProcessed)
      ensures unfinishedTasks == old(unfinishedTasks) - 1
      ensures Valid() && calls == old(calls) + [Op.NotifyUrlProcessed]
      ensures Distinct(urlsToVisit)
    {
      ExtendTrace(Empty, calls, Op.NotifyUrlProcessed);
      unfinishedTasks := unfinishedTasks - 1;
      calls := calls + [Op.NotifyUrlProcessed];
      QueueIsAdmissionTail(calls);
    }

    /**
     * `wait_until_urls_processed` (`join`): returns only once no task is
     * unfinished. The postcondition follows from that by arithmetic: no URL
     * waits on the queue unless some `task_done` was called for a URL
     * nobody took.
     */
    method WaitUntilUrlsProcessed()
      requires AllTasksDone(State())
      ensures Accounted(State()) <==> urlsToVisit == []
    {
    }
  }
}
