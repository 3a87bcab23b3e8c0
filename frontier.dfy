/**
 * The abstract state of the crawler's URL frontier, shared by `Repository`
 * (src/repository/repository.py) and the two `CrawlerStorageContext`
 * classes (src/repository/storage.py, storage.py):
 *  - the items of a `queue.Queue` (FIFO) of URLs still to crawl,
 *  - the set of URLs ever admitted ("visited"),
 *  - the queue's `unfinished_tasks` counter: one per `put`, minus one per
 *    `task_done`; `join` returns once it is zero.
 * Blocking `get` on an empty queue is a precondition; so is calling
 * `task_done` no more often than `put`.
 */
module Frontier {
  import opened Urls
  import opened Seqs

  datatype State = State(queue: seq<Url>, visited: set<Url>, unfinished: nat)

  /** A freshly constructed frontier. */
  const Empty: State := State([], {}, 0)

  /** `Queue.put`, the unguarded enqueue (`queue_next_url`). */
  function Put(s: State, u: Url): (t: State)
    ensures |t.queue| == |s.queue| + 1 && t.queue[..|s.queue|] == s.queue && t.queue[|s.queue|] == u
    ensures t.visited == s.visited && t.unfinished == s.unfinished + 1
    ensures Accounted(s) ==> Accounted(t)
  {
    assert (s.queue + [u])[..|s.queue|] == s.queue;
    State(s.queue + [u], s.visited, s.unfinished + 1)
  }

  /** `add_url_to_crawl`: enqueue and mark visited, unless already visited. */
  function Admit(s: State, u: Url): (t: State)
    ensures t.visited == s.visited + {u}
    ensures t == s <==> u in s.visited
    ensures u !in s.visited ==> t.queue == s.queue + [u] && t.unfinished == s.unfinished + 1
    ensures Accounted(s) ==> Accounted(t)
  {
    if u in s.visited then s else Put(s, u).(visited := s.visited + {u})
  }

  /** `Queue.get` on a non-empty queue: remove the head (returned as `s.queue[0]`). */
  function Pop(s: State): (t: State)
    requires s.queue != []
    ensures [s.queue[0]] + t.queue == s.queue
    ensures t.visited == s.visited && t.unfinished == s.unfinished
    ensures Accounted(s) ==> Accounted(t)
  {
    s.(queue := s.queue[1..])
  }

  /** `Queue.task_done`. */
  function TaskDone(s: State): (t: State)
    requires s.unfinished > 0
    ensures t.unfinished + 1 == s.unfinished
    ensures t.queue == s.queue && t.visited == s.visited
    ensures Accounted(t) <==> s.unfinished > |s.queue|
  {
    s.(unfinished := s.unfinished - 1)
  }

  /** The condition under which `Queue.join` returns. */
  predicate AllTasksDone(s: State)
  {
    s.unfinished == 0
  }

  /** Every URL waiting in the queue is still counted as unfinished. */
  predicate Accounted(s: State)
  {
    s.unfinished >= |s.queue|
  }

  /** `add_url_to_crawl` applied to each of `links` in order. */
  function AdmitAll(s: State, links: seq<Url>): (t: State)
    ensures s.visited <= t.visited && s.unfinished <= t.unfinished
  {
    if links == [] then s else Admit(AdmitAll(s, links[..|links| - 1]), links[|links| - 1])
  }

  /** Admitting one more link after a batch. */
  lemma AdmitAllStep(s: State, links: seq<Url>, u: Url)
    ensures AdmitAll(s, links + [u]) == Admit(AdmitAll(s, links), u)
  {
    assert (links + [u])[..|links|] == links;
  }

  /**
   * The URLs of `links` that admitting them in order enqueues: those not in
   * `visited`, each at its first occurrence, in page order.
   */
  function NewLinks(visited: set<Url>, links: seq<Url>): (added: seq<Url>)
    ensures Distinct(added)
    ensures Elems(added) == Elems(links) - visited
  {
    if links == [] then []
    else
      var init := links[..|links| - 1];
      var last := links[|links| - 1];
      assert links == init + [last];
      var prefix := NewLinks(visited, init);
      assert Elems(links) == Elems(init) + {last};
      if last in visited || last in init then prefix
      else
        DistinctAppend(prefix, [last]);
        assert Elems(prefix + [last]) == Elems(prefix) + {last};
        prefix + [last]
  }

  /**
   * Admitting a page's links appends exactly the new ones, in page order,
   * marks all of them visited, and counts one unfinished task per enqueue.
   */
  lemma {:induction false} AdmitAllShape(s: State, links: seq<Url>)
    ensures AdmitAll(s, links) ==
            State(s.queue + NewLinks(s.visited, links), s.visited + Elems(links),
                  s.unfinished + |NewLinks(s.visited, links)|)
  {
    if links != [] {
      var init := links[..|links| - 1];
      var last := links[|links| - 1];
      assert links == init + [last];
      AdmitAllShape(s, init);
      var mid := AdmitAll(s, init);
      assert Elems(links) == Elems(init) + {last};
      assert last in mid.visited <==> last in s.visited || last in init;
    }
  }

  /** Admitting a visited URL changes nothing, so admitting twice is admitting once. */
  lemma AdmitIdempotent(s: State, u: Url)
    ensures u in s.visited ==> Admit(s, u) == s
    ensures Admit(Admit(s, u), u) == Admit(s, u)
  {
  }

  /** The operations the frontier classes offer, as a trace a client may perform. */
  datatype Op = AddUrlToCrawl(url: Url) | QueueNextUrl(url: Url) | GetNextUrl | NotifyUrlProcessed

  /** An operation returns (rather than blocking or raising) in this state. */
  predicate Enabled(s: State, op: Op)
  {
    match op
    case GetNextUrl => s.queue != []
    case NotifyUrlProcessed => s.unfinished > 0
    case _ => true
  }

  function Apply(s: State, op: Op): State
    requires Enabled(s, op)
  {
    match op
    case AddUrlToCrawl(u) => Admit(s, u)
    case QueueNextUrl(u) => Put(s, u)
    case GetNextUrl => Pop(s)
    case NotifyUrlProcessed => TaskDone(s)
  }

  /** Every operation of the trace returns when it is performed. */
  predicate Runnable(s: State, ops: seq<Op>)
    decreases |ops|, 0
  {
    ops == [] || (Runnable(s, ops[..|ops| - 1]) && Enabled(Execute(s, ops[..|ops| - 1]), ops[|ops| - 1]))
  }

  function Execute(s: State, ops: seq<Op>): State
    requires Runnable(s, ops)
    decreases |ops|, 1
  {
    if ops == [] then s else Apply(Execute(s, ops[..|ops| - 1]), ops[|ops| - 1])
  }

  /** Performing one more enabled operation extends a runnable trace by its effect. */
  lemma ExtendTrace(s: State, ops: seq<Op>, op: Op)
    requires Runnable(s, ops) && Enabled(Execute(s, ops), op)
    ensures Runnable(s, ops + [op])
    ensures Execute(s, ops + [op]) == Apply(Execute(s, ops), op)
    ensures NoBypass(ops) && !op.QueueNextUrl? ==> NoBypass(ops + [op])
  {
    assert (ops + [op])[..|ops|] == ops;
  }

  /** Running one trace after another is running their concatenation. */
  lemma {:induction false} ExecuteAppend(s: State, a: seq<Op>, b: seq<Op>)
    requires Runnable(s, a) && Runnable(Execute(s, a), b)
    ensures Runnable(s, a + b)
    ensures Execute(s, a + b) == Execute(Execute(s, a), b)
    decreases |b|
  {
    if b == [] {
      assert a + b == a;
    } else {
      var init := b[..|b| - 1];
      ExecuteAppend(s, a, init);
      assert (a + b)[..|a + b| - 1] == a + init;
      assert (a + b)[|a + b| - 1] == b[|b| - 1];
    }
  }

  /** The URLs the `get_next_url` calls of the trace return, in order. */
  function Pulled(s: State, ops: seq<Op>): seq<Url>
    requires Runnable(s, ops)
    decreases |ops|
  {
    if ops == [] then []
    else
      var init := ops[..|ops| - 1];
      Pulled(s, init) + (if ops[|ops| - 1].GetNextUrl? then [Execute(s, init).queue[0]] else [])
  }

  /** The URLs one trace after another returns are those of the first, then those of the second. */
  lemma {:induction false} PulledAppend(s: State, a: seq<Op>, b: seq<Op>)
    requires Runnable(s, a) && Runnable(Execute(s, a), b)
    ensures Runnable(s, a + b)
    ensures Pulled(s, a + b) == Pulled(s, a) + Pulled(Execute(s, a), b)
    decreases |b|
  {
    ExecuteAppend(s, a, b);
    if b == [] {
      assert a + b == a;
    } else {
      var init := b[..|b| - 1];
      PulledAppend(s, a, init);
      ExecuteAppend(s, a, init);
      assert (a + b)[..|a + b| - 1] == a + init;
      assert (a + b)[|a + b| - 1] == b[|b| - 1];
    }
  }

  /** A trace without `get_next_url` returns no URL. */
  lemma {:induction false} PulledNoGets(s: State, ops: seq<Op>)
    requires Runnable(s, ops)
    requires forall i :: 0 <= i < |ops| ==> !ops[i].GetNextUrl?
    ensures Pulled(s, ops) == []
    decreases |ops|
  {
    if ops != [] {
      PulledNoGets(s, ops[..|ops| - 1]);
    }
  }

  /**
   * `n` calls of `queue_next_url(u)` always return; they append `n` copies
   * of `u` and count `n` more tasks, and return no URL.
   */
  lemma {:induction false} PutAllTrace(s: State, u: Url, n: nat)
    ensures Runnable(s, Repeat(Op.QueueNextUrl(u), n))
    ensures Execute(s, Repeat(Op.QueueNextUrl(u), n)) == State(s.queue + Repeat(u, n), s.visited, s.unfinished + n)
    ensures Pulled(s, Repeat(Op.QueueNextUrl(u), n)) == []
  {
    if n == 0 {
      assert s.queue + Repeat(u, 0) == s.queue;
    } else {
      PutAllTrace(s, u, n - 1);
      RepeatSnoc(Op.QueueNextUrl(u), n - 1);
      RepeatSnoc(u, n - 1);
      var ops := Repeat(Op.QueueNextUrl(u), n);
      assert ops[..n - 1] == Repeat(Op.QueueNextUrl(u), n - 1);
      assert s.queue + Repeat(u, n - 1) + [u] == s.queue + Repeat(u, n);
    }
  }

  /** `n` calls of `get_next_url` on a queue of at least `n` URLs return its first `n`, in order. */
  lemma {:induction false} PopAllTrace(s: State, n: nat)
    requires n <= |s.queue|
    ensures Runnable(s, Repeat(GetNextUrl, n))
    ensures Execute(s, Repeat(GetNextUrl, n)) == State(s.queue[n..], s.visited, s.unfinished)
    ensures Pulled(s, Repeat(GetNextUrl, n)) == s.queue[..n]
  {
    if n > 0 {
      PopAllTrace(s, n - 1);
      RepeatSnoc(GetNextUrl, n - 1);
      var ops := Repeat(GetNextUrl, n);
      assert ops[..n - 1] == Repeat(GetNextUrl, n - 1);
      assert s.queue[n - 1..][1..] == s.queue[n..];
      assert s.queue[..n - 1] + [s.queue[n - 1]] == s.queue[..n];
    }
  }

  /**
   * On an empty queue, `n` unguarded signals followed by `n` pops all
   * return: the pops take exactly the `n` signals, the queue ends empty
   * and `n` more tasks stay unfinished.
   */
  lemma SignalRounds(s: State, u: Url, n: nat)
    requires s.queue == []
    ensures Runnable(s, Repeat(Op.QueueNextUrl(u), n) + Repeat(GetNextUrl, n))
    ensures Execute(s, Repeat(Op.QueueNextUrl(u), n) + Repeat(GetNextUrl, n))
            == State([], s.visited, s.unfinished + n)
    ensures Pulled(s, Repeat(Op.QueueNextUrl(u), n) + Repeat(GetNextUrl, n)) == Repeat(u, n)
  {
    var puts := Repeat(Op.QueueNextUrl(u), n);
    PutAllTrace(s, u, n);
    assert s.queue + Repeat(u, n) == Repeat(u, n);
    var mid := Execute(s, puts);
    PopAllTrace(mid, n);
    assert mid.queue[..n] == Repeat(u, n);
    ExecuteAppend(s, puts, Repeat(GetNextUrl, n));
    PulledAppend(s, puts, Repeat(GetNextUrl, n));
  }

  /** The signal rounds after a runnable trace that leaves the queue empty. */
  lemma SignalRoundsAfter(s: State, ops: seq<Op>, u: Url, n: nat)
    requires Runnable(s, ops) && Execute(s, ops).queue == []
    ensures Runnable(s, ops + Repeat(Op.QueueNextUrl(u), n) + Repeat(GetNextUrl, n))
    ensures Execute(s, ops + Repeat(Op.QueueNextUrl(u), n) + Repeat(GetNextUrl, n))
            == State([], Execute(s, ops).visited, Execute(s, ops).unfinished + n)
    ensures Pulled(s, ops + Repeat(Op.QueueNextUrl(u), n) + Repeat(GetNextUrl, n)) == Pulled(s, ops) + Repeat(u, n)
  {
    var rounds := Repeat(Op.QueueNextUrl(u), n) + Repeat(GetNextUrl, n);
    SignalRounds(Execute(s, ops), u, n);
    ExecuteAppend(s, ops, rounds);
    PulledAppend(s, ops, rounds);
    AppendAssoc(ops, Repeat(Op.QueueNextUrl(u), n), Repeat(GetNextUrl, n));
  }

  /** One `add_url_to_crawl` call per link, in order. */
  function AddAll(links: seq<Url>): seq<Op>
  {
    seq(|links|, i requires 0 <= i < |links| => Op.AddUrlToCrawl(links[i]))
  }

  /** One more link after a batch is one more call. */
  lemma AddAllStep(links: seq<Url>, u: Url)
    ensures AddAll(links + [u]) == AddAll(links) + [Op.AddUrlToCrawl(u)]
  {
  }

  /** Admitting one more link, and recording its call, after a batch. */
  lemma AdmitOneMore(s: State, called: seq<Op>, links: seq<Url>, u: Url)
    ensures AdmitAll(s, links + [u]) == Admit(AdmitAll(s, links), u)
    ensures called + AddAll(links) + [Op.AddUrlToCrawl(u)] == called + AddAll(links + [u])
  {
    AdmitAllStep(s, links, u);
    AddAllStep(links, u);
  }

  /** The calls of `AddAll` always return, and their effect is `AdmitAll`. */
  lemma {:induction false} AdmitAllTrace(s: State, links: seq<Url>)
    ensures Runnable(s, AddAll(links))
    ensures Execute(s, AddAll(links)) == AdmitAll(s, links)
  {
    if links != [] {
      var init := links[..|links| - 1];
      AdmitAllTrace(s, init);
      var ops := AddAll(links);
      assert ops[..|ops| - 1] == AddAll(init);
    }
  }

  /**
   * The calls a worker makes for one page: one `get_next_url`, one
   * `add_url_to_crawl` per in-scope link in page order, and then a single
   * `task_done`, after every admission.
   */
  function PageCalls(links: seq<Url>): seq<Op>
  {
    [GetNextUrl] + AddAll(links) + [NotifyUrlProcessed]
  }

  /** Recording the calls of a page one by one records `PageCalls`. */
  lemma PageCallsRecorded(c: seq<Op>, links: seq<Url>)
    ensures c + [GetNextUrl] + AddAll(links) + [NotifyUrlProcessed] == c + PageCalls(links)
  {
  }

  /**
   * On a non-empty queue with an unfinished task, every call of a page's
   * sequence returns, and together they pop the head, admit the links and
   * mark one task done. After the `get_next_url` and any number of the
   * admissions the counter is still at least its start value, so no
   * `join` returns before the final `task_done`.
   */
  lemma PageCallsReplay(s: State, links: seq<Url>)
    requires s.queue != [] && s.unfinished > 0
    ensures Runnable(s, PageCalls(links))
    ensures Execute(s, PageCalls(links)) == TaskDone(AdmitAll(Pop(s), links))
    ensures forall j :: 0 <= j <= |links| ==>
              Runnable(s, [GetNextUrl] + AddAll(links[..j]))
              && Execute(s, [GetNextUrl] + AddAll(links[..j])).unfinished >= s.unfinished
  {
    var get: seq<Op> := [GetNextUrl];
    assert get[..0] == [];
    assert Runnable(s, get) && Execute(s, get) == Pop(s);
    forall j | 0 <= j <= |links|
      ensures Runnable(s, get + AddAll(links[..j]))
      ensures Execute(s, get + AddAll(links[..j])).unfinished >= s.unfinished
    {
      AdmitAllTrace(Pop(s), links[..j]);
      ExecuteAppend(s, get, AddAll(links[..j]));
    }
    AdmitAllTrace(Pop(s), links);
    ExecuteAppend(s, get, AddAll(links));
    var mid := Execute(s, get + AddAll(links));
    AdmitAllShape(Pop(s), links);
    var done: seq<Op> := [NotifyUrlProcessed];
    assert done[..0] == [];
    assert Runnable(mid, done) && Execute(mid, done) == TaskDone(mid);
    ExecuteAppend(s, get + AddAll(links), done);
  }

  /** Of a page's calls, only the first returns a URL: the head of the queue. */
  lemma PageCallsPull(s: State, links: seq<Url>)
    requires s.queue != [] && s.unfinished > 0
    ensures Runnable(s, PageCalls(links))
    ensures Pulled(s, PageCalls(links)) == [s.queue[0]]
  {
    PageCallsReplay(s, links);
    var get: seq<Op> := [GetNextUrl];
    assert get[..0] == [];
    AdmitAllTrace(Pop(s), links);
    PulledNoGets(Pop(s), AddAll(links));
    PulledAppend(s, get, AddAll(links));
    var mid := Execute(s, get + AddAll(links));
    var done: seq<Op> := [NotifyUrlProcessed];
    assert done[..0] == [];
    PulledNoGets(mid, done);
    PulledAppend(s, get + AddAll(links), done);
  }

  /** The URLs that `add_url_to_crawl` calls of the trace put on the queue, in order. */
  function Admissions(s: State, ops: seq<Op>): seq<Url>
    requires Runnable(s, ops)
  {
    if ops == [] then []
    else
      var init := ops[..|ops| - 1];
      var op := ops[|ops| - 1];
      Admissions(s, init)
      + (if op.AddUrlToCrawl? && op.url !in Execute(s, init).visited then [op.url] else [])
  }

  /**
   * Over any trace, `add_url_to_crawl` enqueues each URL at most once and
   * never one that was visited at the start; the visited set only grows,
   * and grows by exactly the admitted URLs.
   */
  lemma {:induction false} AdmittedAtMostOnce(s: State, ops: seq<Op>)
    requires Runnable(s, ops)
    ensures Distinct(Admissions(s, ops))
    ensures Elems(Admissions(s, ops)) !! s.visited
    ensures Execute(s, ops).visited == s.visited + Elems(Admissions(s, ops))
  {
    if ops != [] {
      var init := ops[..|ops| - 1];
      AdmittedAtMostOnce(s, init);
      var prev := Admissions(s, init);
      var op := ops[|ops| - 1];
      if op.AddUrlToCrawl? && op.url !in Execute(s, init).visited {
        DistinctAppend(prev, [op.url]);
        assert Elems(prev + [op.url]) == Elems(prev) + {op.url};
      } else {
        assert Admissions(s, ops) == prev;
      }
    }
  }

  /** The trace never uses the unguarded enqueue. */
  predicate NoBypass(ops: seq<Op>)
  {
    forall i :: 0 <= i < |ops| ==> !ops[i].QueueNextUrl?
  }

  /**
   * Without the unguarded enqueue (the two `CrawlerStorageContext`
   * classes have none), the queue of a fresh frontier is always the
   * not-yet-popped tail of the admissions, so it never holds a URL twice.
   */
  lemma {:induction false} QueueIsAdmissionTail(ops: seq<Op>)
    requires Runnable(Empty, ops) && NoBypass(ops)
    ensures IsTail(Execute(Empty, ops).queue, Admissions(Empty, ops))
    ensures Distinct(Execute(Empty, ops).queue)
  {
    AdmittedAtMostOnce(Empty, ops);
    if ops != [] {
      var init := ops[..|ops| - 1];
      assert NoBypass(init) by {
        forall i | 0 <= i < |init| ensures !init[i].QueueNextUrl? {
          assert init[i] == ops[i];
        }
      }
      QueueIsAdmissionTail(init);
      TailStep(Execute(Empty, init), Admissions(Empty, init), ops[|ops| - 1]);
      assert Execute(Empty, ops) == Apply(Execute(Empty, init), ops[|ops| - 1]);
    }
    TailOfDistinct(Execute(Empty, ops).queue, Admissions(Empty, ops));
  }

  /** `q` is what remains of `all` after some elements were taken from the front. */
  predicate IsTail<T(==)>(q: seq<T>, all: seq<T>)
  {
    |q| <= |all| && q == all[|all| - |q|..]
  }

  lemma TailOfDistinct<T>(q: seq<T>, all: seq<T>)
    requires IsTail(q, all) && Distinct(all)
    ensures Distinct(q)
  {
    forall i, j | 0 <= i < j < |q| ensures q[i] != q[j] {
      assert q[i] == all[|all| - |q| + i] && q[j] == all[|all| - |q| + j];
    }
  }

  /** One guarded operation keeps the queue a tail of the admissions. */
  lemma TailStep(s: State, adm: seq<Url>, op: Op)
    requires IsTail(s.queue, adm) && Enabled(s, op) && !op.QueueNextUrl?
    ensures IsTail(Apply(s, op).queue,
                   adm + (if op.AddUrlToCrawl? && op.url !in s.visited then [op.url] else []))
  {
    if op.GetNextUrl? {
      assert s.queue[1..] == adm[|adm| - |s.queue| + 1..];
    } else if op.AddUrlToCrawl? && op.url !in s.visited {
      var adm' := adm + [op.url];
      assert s.queue + [op.url] == adm'[|adm'| - |s.queue| - 1..];
    }
  }
}
