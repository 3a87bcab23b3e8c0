# A verified model of a multi-threaded web crawler

The crawler starts at a base URL. It fetches each page and follows only
the links whose subdomain matches the base's. It returns every URL it
visited. Two generations of the program exist side by side:

- **Current (`src/`).** A `Repository` holds a FIFO `queue.Queue` of URLs
  to crawl, a visited set and a mutex. A `CrawlerLauncher` seeds the base
  URL and starts `thread_count` `Crawler` threads. It waits until the
  queue has no unfinished task, then sends every worker a termination
  signal (the URL with the empty address), joins them all and returns the
  visited URLs. `URL` (src/models/url.py) parses its address once. Its
  subdomain is the full hostname.
- **Earlier (top level).** `CrawlerStorageContext` (storage.py), a worker
  that loops forever (crawler.py), and a `URL` class in html_parser.py.
  That `URL` computes its subdomain lazily as the first label of the
  hostname and caches it. src/repository/storage.py is an intermediate
  version of the same storage class.

The model has four layers:

- **`Frontier`: the queue and the visited set as one value.** It is
  `State(queue, visited, unfinished)`. `unfinished` is the queue's counter
  of tasks not yet marked done. The operations are `Put`, `Admit` (the
  double-checked `add_url_to_crawl`), `Pop` and `TaskDone`; each states
  what it does to the queue order, the visited set and the counter, and
  whether it keeps every queued URL counted as unfinished. A trace
  semantics (`Op`, `Execute`, `Admissions`) states what holds over any
  sequence of calls.
- **Three classes over that state.** `Repository.Repository`,
  `Storage.CrawlerStorageContext` and `LegacyStorage.CrawlerStorageContext`
  keep the queue as a `seq`, the visited set as a `set` and the counter as
  a `nat`. Every method states its new state as a `Frontier` function of
  the old one. All three classes record, as a ghost trace, the calls
  made on them. Only the two storage classes also tie their fields to
  that record (`Valid()`: the fields are what performing the calls on a
  fresh frontier yields), so the trace lemmas apply to them after every
  call: their queue never holds a URL twice. The crawl proofs tie the
  record of a `Repository` to its state themselves.
- **`Crawling`: what a worker step does, and what a whole crawl
  computes.** The web is a map from page to links, and the subdomain
  function is a parameter. The result of a crawl is characterised as the
  least set that contains the base and is closed under in-scope links.
- **The workers and the launcher as classes.**
  `Crawler.Crawler.CrawlNextUrl` and `Run` are proved against
  `Crawling.CrawlStep` and `RunToSignal`. `Launcher.CrawlerLauncher.Crawl`
  runs the workers under an arbitrary interleaving of whole
  `crawl_next_url` steps. It proves that:
  - the returned list has no duplicates;
  - it is exactly the closure of the base URL;
  - the `get_next_url` calls recorded on the repository return every URL
    of the closure exactly once, and then one termination signal per
    worker;
  - after the drain the launcher queues exactly `thread_count` signals
    through `queue_next_url`, and each joined worker makes a single
    `get_next_url`, which takes a signal, and stops.

  `LegacyCrawler.Crawler.Run` proves the same closure result for the
  earlier worker, up to the point where its queue is empty.

`Scenarios` replays the two crawler tests against the model, using a small
stand-in for `urlparse`.

URL equality in Python is address equality. The model therefore
represents a URL by the value `Urls.Url` (just its address), and set
membership and `==` on it are exactly the Python ones. `urllib.parse.urlparse`
is a function parameter (`Urls.UrlParser`). The page fetch is a map
(`Crawling.Web`): a page the map lacks has no links, as the service
returns `[]` when the request fails with a `ValueError`, `HTTPError` or
`URLError` (src/service/parser_service.py:26-29).

### Where the code and its description differ

`CrawlerLauncher.crawl` (src/crawler/launcher.py:56) calls
`repository.wait_until_urls_processed()`, but `Repository` only defines
`wait_until_all_urls_processed` (src/repository/repository.py:87). As
written, that call raises `AttributeError` just after the workers have
started. They go on, drain the queue and then block on `get` for good,
since no termination signal is ever sent; being non-daemon threads, they
keep the process alive. The model's `Crawl` performs the intended wait
(`Repository.Repository.WaitUntilAllUrlsProcessed`).

The crawler tests expect links to be matched by the first hostname label:
- `monzo.b.com` matches the base `monzo.com` (src/crawler/test/crawler_test.py:23-37);
- `monzo.a.a` is crawled from `monzo.com` (src/crawler/test/launcher_test.py:57-60).

That is the rule of html_parser.py:32. src/models/url.py:29 keeps the
whole hostname instead, and under that rule neither test's expectation
holds: the crawl visits only the base. The model keeps the subdomain as a
parameter, and `Scenarios` proves both outcomes.

The URL tests expect addresses that differ only in a fragment
(`.../a/b` and `.../a/b#frag`) to be equal
(src/models/test/url_test.py:46-58). `__eq__` and `__hash__`
(src/models/url.py:66-70) compare the whole address, so they are not
equal. The model follows the code, and `Scenarios.FragmentsDistinguish`
states the two cases.

## Model

| member | source | states |
|---|---|---|
| Urls.IsValid | src/models/url.py:51-61 | a URL is valid exactly when the as-written value is truthy; validity means a non-empty hostname and an http or https scheme |
| Urls.IsValidAsWrittenNotBoolean | src/models/url.py:61 | for an address with no or an empty hostname, the as-written `is_valid` is not the boolean False, although the URL is not valid |
| Urls.Subdomain | src/models/url.py:28-39 | definition (the hostname the parser gives); see `Urls.ParsedPartsFollowAddress` |
| Urls.Hash | src/models/url.py:66-67 | definition (the string hash of the address); see `Urls.HashAgreesWithEq` |
| Urls.Eq | src/models/url.py:69-70 | `__eq__` holds exactly for another URL value with the same address |
| Urls.EqIsAddressEquality | src/models/url.py:69-70 | equality is address equality, and is reflexive, symmetric and transitive |
| Urls.HashAgreesWithEq | src/models/url.py:66-67 | `__hash__` hashes the address, so URLs equal under `__eq__` hash alike for any string hash |
| Urls.ParsedPartsFollowAddress | src/models/url.py:13-39 | `subdomain` and the scheme are parsed once from the address, so equal URLs have the same subdomain, scheme and validity |
| Urls.IsValidAsWritten | src/models/url.py:61 | Python's `and` yields None exactly when there is no hostname, '' exactly when it is empty, and otherwise the boolean "scheme is http or https"; never a URL |
| Urls.NeverEqualsNonUrl | src/models/url.py:69-70 | a URL never equals a non-URL value, not even the string of its own address |
| LegacyUrls.FirstLabel | html_parser.py:32 | the label is a prefix of the hostname without a dot, ending at the first dot or at the end |
| LegacyUrls.LegacySubdomain | html_parser.py:29-35 | a subdomain exists exactly when the hostname is present and non-empty; it is the hostname's first label: a dot-free prefix that ends at the first dot or at the end |
| LegacyUrls.URL.constructor | html_parser.py:13-20 | a new URL keeps its address and starts with no cached subdomain |
| LegacyUrls.URL.Subdomain | html_parser.py:22-35 | the property returns the first label of the parsed hostname, or None, and leaves that value in the cache |
| LegacyUrls.URL.Equals | html_parser.py:53-54 | `__eq__` holds exactly when the other value is the URL this object stands for, i.e. a URL with the same address |
| LegacyUrls.EqualObjectsHashAlike | html_parser.py:50-54 | `__hash__` hashes the address, so objects equal under `__eq__` have equal hashes |
| LegacyUrls.SubdomainIsStable | html_parser.py:29-35 | two reads of the cached property return the same value, and afterwards the cache holds it |
| Frontier.Put | src/repository/repository.py:29-35 | `put` appends the URL behind the whole queue, adds one unfinished task, leaves visited alone and keeps every queued URL counted |
| Frontier.Admit | src/repository/repository.py:37-54 | the URL is visited afterwards; the state is unchanged exactly when it was visited before; otherwise it is appended with one more unfinished task; every queued URL stays counted |
| Frontier.Pop | src/repository/repository.py:56-64 | `get` removes the head and keeps the rest in order; visited and the counter are unchanged |
| Frontier.TaskDone | src/repository/repository.py:79-85 | `task_done` lowers the counter by one and changes nothing else; afterwards every queued URL is still counted exactly when there was a task beyond the queued ones |
| Frontier.AdmitAllStep | src/crawler/crawler.py:63-65 | unfolding step used by the loop proofs: admitting one more link after a batch is one more `add_url_to_crawl` |
| Frontier.NewLinks | src/repository/repository.py:50-54 | the links a batch enqueues are distinct and are exactly the links not yet visited |
| Frontier.AdmitAllShape | src/repository/repository.py:50-54 | admitting links in order appends exactly the new ones to the queue, marks all of them visited, and adds one unfinished task per enqueue |
| Frontier.ExecuteAppend | src/repository/repository.py:29-85 | performing one call sequence after another is performing their concatenation, and it returns at every call |
| Frontier.PulledAppend | src/repository/repository.py:56-64 | the URLs `get_next_url` returns over one call sequence after another are those of the first, then those of the second |
| Frontier.PutAllTrace | src/crawler/launcher.py:29-30 | `n` calls of `queue_next_url(u)` always return, append `n` copies of `u`, count `n` more tasks and return no URL |
| Frontier.PopAllTrace | src/repository/repository.py:56-64 | `n` calls of `get_next_url` on a queue of at least `n` URLs return its first `n` in order and leave the rest |
| Frontier.SignalRounds | src/crawler/launcher.py:29-32 | on an empty queue, `n` signals queued and then `n` `get_next_url` calls all return; the calls return exactly the `n` signals, the queue ends empty and `n` tasks stay unfinished |
| Frontier.PageCallsPull | src/crawler/crawler.py:53-66 | of a page's calls only the `get_next_url` returns a URL, and it is the head of the queue |
| Frontier.AdmitAllTrace | src/crawler/crawler.py:63-65 | one `add_url_to_crawl` call per link, in order, always returns and has the effect of admitting the links in order |
| Frontier.PageCallsReplay | src/crawler/crawler.py:53-66 | the calls a worker makes for one page (one `get_next_url`, one `add_url_to_crawl` per in-scope link in page order, then one `task_done`) all return on a non-empty queue; they pop the head, admit the links and mark one task done; after the `get_next_url` and any number of the admissions the counter is still at least its start value, so no `join` returns before that last call |
| Frontier.AdmitIdempotent | src/repository/repository.py:50-54 | admitting a visited URL changes nothing, so admitting twice equals admitting once |
| Frontier.AdmittedAtMostOnce | src/repository/repository.py:50-54 | over any sequence of calls, each URL is enqueued by `add_url_to_crawl` at most once, never when already visited, and visited grows by exactly the enqueued URLs |
| Frontier.QueueIsAdmissionTail | src/repository/storage.py:40-54 | a storage without the unguarded enqueue always holds the not-yet-popped tail of its admissions, so its queue never holds a URL twice |
| Repository.Repository.constructor | src/repository/repository.py:14-27 | a new repository has an empty queue, nothing visited, no unfinished task and no call recorded |
| Repository.Repository.QueueNextUrl | src/repository/repository.py:29-35 | appends the URL to the queue even if visited, adds one unfinished task, and leaves visited unchanged; the call is recorded |
| Repository.Repository.AddUrlToCrawl | src/repository/repository.py:37-54 | an unvisited URL is appended and marked visited with one more unfinished task; a visited URL leaves the state unchanged; the call is recorded as one `add_url_to_crawl` |
| Repository.Repository.GetNextUrl | src/repository/repository.py:56-64 | returns the head of a non-empty queue and removes it; visited and the counter are unchanged; the call is recorded |
| Repository.Repository.VisitedUrls | src/repository/repository.py:66-77 | returns a list without duplicates whose elements are exactly the visited set, changing nothing |
| Repository.Repository.NotifyUrlProcessed | src/repository/repository.py:79-85 | decrements the unfinished counter and nothing else; the call is recorded |
| Repository.Repository.WaitUntilAllUrlsProcessed | src/repository/repository.py:87-92 | returns only with no task unfinished (a precondition); the postcondition, that the queue is then empty exactly when every queued URL is still counted, follows from that by arithmetic and says nothing more about the wait |
| Storage.CrawlerStorageContext.constructor | src/repository/storage.py:14-26 | a new storage is the empty frontier state, with no call recorded |
| Storage.CrawlerStorageContext.AddUrlToCrawl | src/repository/storage.py:28-44 | the double-checked admission: an unvisited URL is enqueued and marked visited; a visited URL changes nothing; the call is recorded and the queue has no duplicates |
| Storage.CrawlerStorageContext.GetNextUrl | src/repository/storage.py:46-54 | returns and removes the head of a non-empty queue; the call is recorded and the queue has no duplicates |
| Storage.CrawlerStorageContext.NotifyUrlProcessed | src/repository/storage.py:63-69 | decrements the unfinished counter and nothing else; the call is recorded |
| Storage.CrawlerStorageContext.WaitUntilUrlsProcessed | src/repository/storage.py:71-76 | returns only with no task unfinished (a precondition); the postcondition, that the queue is then empty exactly when every queued URL is still counted, follows from that by arithmetic and says nothing more about the wait |
| LegacyStorage.CrawlerStorageContext.constructor | storage.py:11-23 | a new storage is the empty frontier state, with no call recorded |
| LegacyStorage.CrawlerStorageContext.AddUrlToCrawl | storage.py:25-41 | an unvisited URL is enqueued and marked visited; a visited URL changes nothing; the call is recorded and the queue has no duplicates |
| LegacyStorage.CrawlerStorageContext.GetNextUrl | storage.py:43-51 | returns and removes the head of a non-empty queue; the call is recorded and the queue has no duplicates |
| LegacyStorage.CrawlerStorageContext.Commit | storage.py:60-66 | decrements the unfinished counter and nothing else; the call is recorded |
| Crawling.ScopedLinks | src/crawler/crawler.py:63-65 | the kept links are exactly the page's links with the base's subdomain, never more than the page has |
| Crawling.ScopedLinksStep | src/crawler/crawler.py:63-65 | unfolding step used by the loop proofs, which fixes the order: scanning one more link appends it to the kept links exactly when its subdomain matches |
| Crawling.CrawlStep | src/crawler/crawler.py:44-67 | on the signal, the step pops it and changes nothing else (no task is marked done); on a page, the rest of the queue is followed by the page's new in-scope links, all of its in-scope links become visited, and the counter gains one per enqueue less one; every queued URL stays counted |
| Crawling.StepCallsReplay | src/crawler/crawler.py:44-67 | the repository calls of one `crawl_next_url` (only `get_next_url` on the signal, otherwise the page's calls) all return, performing them yields the worker step, and they return just the head of the queue |
| Crawling.RunCallsReplay | src/crawler/crawler.py:69-74 | the repository calls of `run` (each step's calls, ending with the signal's `get_next_url`) all return, and performing them yields `RunToSignal` |
| Crawling.RunCallsPull | src/crawler/crawler.py:69-74 | the `get_next_url` calls of `run` return the queue up to and including its first signal, in order, since every admitted link goes behind that signal |
| Crawling.StepAccounted | src/crawler/crawler.py:44-67 | a worker step keeps the counter at least the queue length and never shrinks the visited set |
| Crawling.RunToSignal | src/crawler/crawler.py:69-74 | `run` keeps every queued URL counted and never shrinks the visited set |
| Crawling.RunAdvances | src/crawler/crawler.py:69-74 | a step on a page moves the first termination signal exactly one place towards the head |
| Crawling.RunConsumesOneSignal | src/crawler/crawler.py:69-74 | `run` removes exactly one termination signal from the queue and never shrinks the visited set |
| Crawling.StepKeepsSignalCount | src/crawler/crawler.py:44-67 | processing a page neither adds nor removes termination signals |
| Crawling.RunOnSignalsOnly | src/crawler/test/crawler_test.py:39-64 | a worker whose next URL is the signal pops it and stops: its only call is one `get_next_url`, it admits nothing and marks no task done |
| Crawling.Closure | src/crawler/launcher.py:58 | the URLs a crawl returns: the base and only URLs some page links to |
| Crawling.SignalBaseStalls | src/crawler/launcher.py:48-57 | with the termination signal as the base, the first worker step leaves an empty queue and one unfinished task, so `join` never returns |
| Crawling.ClosureIsLeastClosedSet | src/crawler/launcher.py:34-58 | the closure contains the base, is closed under in-scope links, and lies inside every such set |
| Crawling.SeedEstablishesInv | src/crawler/launcher.py:48 | seeding the base URL gives queue [base], visited {base}, one task, and establishes the crawl invariant |
| Crawling.PagePreservesInv | src/crawler/crawler.py:56-67 | processing the head page keeps processed and queued URLs distinct, equal to visited, within the closure, and counted |
| Crawling.StepPreservesInv | src/crawler/crawler.py:44-67 | while no signal is queued, a worker step pops a page, keeps the crawl invariant and brings in no signal |
| Crawling.InvBound | src/repository/repository.py:50-54 | processed pages plus queued URLs never outnumber the closure |
| Crawling.DrainedIsClosure | src/repository/repository.py:87-92 | once no task is unfinished, the queue is empty, visited is exactly the closure, and every closure URL was fetched exactly once |
| Crawling.PageProgress | crawler.py:34-42 | processing a page either visits a new URL or shortens the queue, and visited only grows |
| Crawler.CrawlerClass.constructor | src/crawler/crawler.py:20 | the worker id counter starts at 0 |
| Crawler.Crawler.constructor | src/crawler/crawler.py:22-42 | a worker keeps its collaborators, takes the current counter as its id, and bumps the counter |
| Crawler.Crawler.CrawlNextUrl | src/crawler/crawler.py:44-67 | returns false exactly on the termination signal; the new state is one worker step on the old one; the calls made on the repository are exactly one `get_next_url`, then (on a page) one `add_url_to_crawl` per in-scope link in page order, then one `notify_url_processed` after all of them |
| Crawler.Crawler.AdmitInScope | src/crawler/crawler.py:63-65 | the link loop calls `add_url_to_crawl` once per link whose subdomain is the base URL's, in page order, and nothing else; the new state is those links admitted in order |
| Crawler.Crawler.Run | src/crawler/crawler.py:69-74 | the rest of a worker's `run` once signals are queued: it loops until it pops the first termination signal, and the new state is `RunToSignal` of the old one, and the calls made on the repository are exactly `RunCalls` |
| Launcher.CrawlerLauncher.constructor | src/crawler/launcher.py:15-16 | keeps the options |
| Launcher.CrawlerLauncher.TerminateAllWorkers | src/crawler/launcher.py:18-32 | on a drained queue, the calls made on the repository are exactly `thread_count` `queue_next_url(TERMINATION_SIGNAL)`, then `thread_count` `get_next_url`, one per joined worker; the queue is empty again, visited is unchanged, and one task per signal stays unfinished |
| Launcher.CrawlerLauncher.Schedule | src/crawler/launcher.py:51-56 | while tasks remain, any worker takes its next `crawl_next_url` step; afterwards no task is unfinished, the crawl invariant holds, the repository's fields are what its recorded calls yield, and the `get_next_url` calls returned exactly the fetched pages |
| Launcher.CrawlerLauncher.Crawl | src/crawler/launcher.py:34-58 | the returned list has no duplicates and is exactly the closure of the base URL; the repository's recorded calls start with seeding the base, all return, and yield the returned visited set and an empty queue; their `get_next_url` calls return every closure URL exactly once, then one signal per worker; one worker id per thread is used |
| LegacyCrawler.CrawlerClass.constructor | crawler.py:13 | the worker id counter starts at 0 |
| LegacyCrawler.Crawler.constructor | crawler.py:14-28 | a worker keeps its storage and base URL, takes the current counter as its id, and bumps it |
| LegacyCrawler.Crawler.RunIteration | crawler.py:35-42 | one loop pass pops the head, admits its in-scope links in page order and commits once; the calls made on the storage are exactly one `get_next_url`, one `add_url_to_crawl` per in-scope link in page order, then one `commit` after all of them; the storage stays tied to its call trace |
| LegacyCrawler.Crawler.AdmitInScope | crawler.py:38-41 | the inner loop calls `add_url_to_crawl` once per in-scope link, in page order, and nothing else; the new state is those links admitted in order |
| LegacyCrawler.Crawler.Run | crawler.py:30-42 | the loop runs until the queue is empty; visited only grows; from a seeded storage it ends with visited equal to the closure and no task unfinished |
| Scenarios.LauncherScenario | src/crawler/test/launcher_test.py:16-60 | under first-label matching the mock web's closure is exactly the seven monzo pages the test expects, without a.xyz or abc.xyz |
| Scenarios.LauncherScenarioByHostname | src/models/url.py:28-29 | under the full-hostname subdomain the same crawl visits only the base |
| Scenarios.CrawlerScenario | src/crawler/test/crawler_test.py:23-37 | under first-label matching exactly the two monzo links of the page's three are admitted, in page order |
| Scenarios.CrawlerScenarioByHostname | src/models/url.py:28-29 | under the full-hostname subdomain none of the three links of that page is admitted |
| Scenarios.FragmentsDistinguish | src/models/url.py:69-70 | URLs whose addresses differ only in a fragment are not equal |
| Scenarios.IsValidWithoutHostname | src/models/test/url_test.py:86-99 | the two test addresses without a host give None as written and false as a boolean |

## Left out

- Threads, the mutex and the blocking of `Queue.get`/`join` are not modelled as concurrency. Each repository method is one atomic step, and the launcher lets an arbitrary worker take its next whole `crawl_next_url` step. Interleavings inside a step, including the unlocked first check of the double-checked admission, are not modelled.
- Repository.Repository.GetNextUrl: blocking on an empty queue is a precondition (`urlsToVisit != []`), not a wait. The same holds for the two storage classes.
- Repository.Repository.NotifyUrlProcessed: the `ValueError` that `task_done` raises when called too often is excluded by a precondition. The launcher is proved never to violate it. The same holds for `Commit` and the intermediate storage.
- Repository.Repository.WaitUntilAllUrlsProcessed: `join` becomes the precondition that no task is unfinished; the wait itself is not modelled. The same holds for `Storage.CrawlerStorageContext.WaitUntilUrlsProcessed`.
- Repository.Repository: it records its calls, but, having the unguarded `queue_next_url`, it does not tie its state to that record by a validity predicate as the two storage classes do; its queue is shown duplicate-free only during a crawl, through the crawl invariant. A call record is an ordinary ghost field, so it states which methods a client called only because no client assigns it directly.
- Launcher.CrawlerLauncher.Crawl: requires at least one worker (with none, `join` waits forever). It also requires that the base URL is not the termination signal and that no page links to it. The real service yields only `http`/`https` hrefs, so the second part holds there. The first part hides a hang of the source: with the base `URL('')`, the first worker takes the seeded base for the termination signal and returns without `task_done`, so `join` never returns (`Crawling.SignalBaseStalls`). The model does not model that run.
- Launcher.CrawlerLauncher.Crawl: src/crawler/launcher.py:56 calls `wait_until_urls_processed`, which `Repository` does not define, so the source as written raises `AttributeError` there and never sends the signals. The model performs the intended `wait_until_all_urls_processed` and does not model the as-written failure.
- Crawler.Crawler.Run: a thread's `run` starts at src/crawler/launcher.py:54, before any signal is queued, and blocks on `get` whenever the queue is empty. The model splits it in two. While the crawl lasts, `Launcher.CrawlerLauncher.Crawl` performs the thread's `crawl_next_url` steps itself, in any interleaving. Once `TerminateAllWorkers` has queued the signals, `Run` performs the rest of the loop. `Run` therefore requires a signal on the queue, and no single method models a `run` started on a queue without one.
- LegacyCrawler.Crawler.Run: the real loop never ends, because `get` blocks on the empty queue. The model stops at that point.
- LegacyCrawler.Crawler.RunIteration: html_parser.py:72 catches only `ValueError` and `HTTPError`, so a page that fails with a `URLError` (an unreachable host, say) raises out of `get_links_under_url` and ends the worker thread at crawler.py:36, before `commit`; its task then stays unfinished. The model treats every fetch as returning a list of links.
- The page fetch (`urllib.request.urlopen`, BeautifulSoup, `HTMLParserService`) is a map from page to links. The `^https?://` filter of `get_links_under_url` appears only as the precondition on the signal.
- `urllib.parse.urlparse` and the string hash are function parameters. `Scenarios.TestParse` is a stand-in that covers the test addresses only.
- Logging and printing (`Logger`, `print`, `skip_links_found`) affect no state and are left out. `Crawler.CrawlerOptions` keeps `skip_links_found` and the defaults of src/models/options.py:12-14 only as data.
- `url_queue` (the getter of the storage classes) and `__repr__` return their field or a string, and are left out.
- src/main.py, main.py and gildas.py are entry scripts and are not part of this model. main.py calls `wait_for_empty_queue` and `visited_urls`, which storage.py does not define.
- The HTML service and its tests (src/service/) are not part of this model.

## Findings

| source | as written | input that shows it | evidently intended | confidence | as-written member | corrected member |
|---|---|---|---|---|---|---|
| src/models/url.py:61 | `is_valid` returns `self._subdomain and ...`, which is `None` (or `''`) when the address has no hostname | `URL("no-prefix.blog.monzo.com/").is_valid` is `None`, so the test at src/models/test/url_test.py:87 and :99 compares `None == False` | a boolean: False without a hostname | not executed | Urls.IsValidAsWrittenNotBoolean | Urls.IsValid |
