/** The stage worker's batching loop: it takes tasks from its input queue, lets
    those that share the first one's sampling parameters join its batch, and
    puts the others back. */
module StageWorker {
  import opened Common

  datatype Kind = Generate | ProfilerStart | ProfilerStop | Shutdown

  datatype Task = Task(kind: Kind, id: string, params: int)

  predicate IsProfiler(t: Task) {
    t.kind.ProfilerStart? || t.kind.ProfilerStop?
  }

  /** The tasks that join a batch with the given sampling parameters. */
  function Matching(q: seq<Task>, params: int): seq<Task> {
    if q == [] then []
    else
      var last := q[|q| - 1];
      Matching(q[..|q| - 1], params) + if last.kind.Generate? && last.params == params then [last] else []
  }

  /** The tasks that do not, and go back to the queue. */
  function Failing(q: seq<Task>, params: int): seq<Task> {
    if q == [] then []
    else
      var last := q[|q| - 1];
      Failing(q[..|q| - 1], params) + if last.kind.Generate? && last.params != params then [last] else []
  }

  /** Profiler commands, handled on the spot. */
  function Commands(q: seq<Task>): seq<Task> {
    if q == [] then []
    else Commands(q[..|q| - 1]) + if IsProfiler(q[|q| - 1]) then [q[|q| - 1]] else []
  }

  function Stops(q: seq<Task>): nat {
    if q == [] then 0 else Stops(q[..|q| - 1]) + if q[|q| - 1].kind.ProfilerStop? then 1 else 0
  }

  ghost predicate NoShutdown(q: seq<Task>) {
    forall i :: 0 <= i < |q| ==> !q[i].kind.Shutdown?
  }

  lemma CountOne(x: Task, t: Task)
    ensures Count([x], t) == if x == t then 1 else 0
  {
    assert [x][..0] == [];
  }

  /** Matching, failing and profiler tasks split a queue without shutdown. */
  lemma {:induction false} Split(q: seq<Task>, params: int, t: Task)
    requires NoShutdown(q)
    ensures Count(Matching(q, params), t) + Count(Failing(q, params), t) + Count(Commands(q), t) == Count(q, t)
  {
    if q != [] {
      var n := |q| - 1;
      var last := q[n];
      Split(q[..n], params, t);
      CountOne(last, t);
      if IsProfiler(last) {
        CountConcat(Commands(q[..n]), [last], t);
        assert Commands(q) == Commands(q[..n]) + [last];
        assert Matching(q, params) == Matching(q[..n], params);
        assert Failing(q, params) == Failing(q[..n], params);
      } else if last.params == params {
        CountConcat(Matching(q[..n], params), [last], t);
        assert Matching(q, params) == Matching(q[..n], params) + [last];
        assert Commands(q) == Commands(q[..n]);
        assert Failing(q, params) == Failing(q[..n], params);
      } else {
        CountConcat(Failing(q[..n], params), [last], t);
        assert Failing(q, params) == Failing(q[..n], params) + [last];
        assert Commands(q) == Commands(q[..n]);
        assert Matching(q, params) == Matching(q[..n], params);
      }
    }
  }

  lemma {:induction false} MatchingGrows(a: seq<Task>, b: seq<Task>, params: int)
    ensures Matching(a, params) <= Matching(a + b, params)
  {
    if b == [] {
      assert a + b == a;
    } else {
      var n := |b| - 1;
      MatchingGrows(a, b[..n], params);
      assert (a + b)[..|a + b| - 1] == a + b[..n];
    }
  }

  /** How one batch was formed: of everything queued or put meanwhile, the
      first m tasks were looked at, `arrived` had been put by the end, and the
      look stopped at a shutdown signal if `stopped`. */
  ghost predicate Formed(head: Task, all: seq<Task>, m: nat, arrived: nat, stopped: bool,
                         batch: seq<Task>, queue: seq<Task>, later: seq<Task>)
  {
    && m <= arrived <= |all|
    && NoShutdown(all[..m])
    && batch == [head] + Matching(all[..m], head.params)
    && later == all[arrived..]
    && (stopped ==> m < arrived && all[m].kind.Shutdown?)
    && queue == (if stopped then all[m + 1..arrived] + [all[m]] else all[m..arrived])
                + Failing(all[..m], head.params)
  }

  /** A formed batch starts with the head and continues with the first tasks
      that share its parameters, in their order. */
  lemma FormedInOrder(head: Task, all: seq<Task>, m: nat, arrived: nat, stopped: bool,
                      batch: seq<Task>, queue: seq<Task>, later: seq<Task>)
    requires Formed(head, all, m, arrived, stopped, batch, queue, later)
    ensures batch != [] && batch[0] == head && batch[1..] <= Matching(all, head.params)
  {
    MatchingGrows(all[..m], all[m..], head.params);
    assert all == all[..m] + all[m..];
    assert batch[1..] == Matching(all[..m], head.params);
  }

  lemma FormedShort(head: Task, all: seq<Task>, m: nat, arrived: nat, stopped: bool,
                    batch: seq<Task>, queue: seq<Task>, later: seq<Task>)
    requires Formed(head, all, m, arrived, stopped, batch, queue, later)
    ensures |queue| + |later| <= |all|
  {
    FailingShort(all[..m], head.params);
  }

  lemma QueueParts(all: seq<Task>, m: nat, arrived: nat, stopped: bool, t: Task)
    requires m <= arrived <= |all| && (stopped ==> m < arrived)
    ensures Count(all, t) == Count(all[..m], t) + Count(all[arrived..], t)
              + Count(if stopped then all[m + 1..arrived] + [all[m]] else all[m..arrived], t)
  {
    assert all == all[..m] + (all[m..arrived] + all[arrived..]);
    CountConcat(all[..m], all[m..arrived] + all[arrived..], t);
    CountConcat(all[m..arrived], all[arrived..], t);
    if stopped {
      assert all[m..arrived] == [all[m]] + all[m + 1..arrived];
      CountConcat([all[m]], all[m + 1..arrived], t);
      CountConcat(all[m + 1..arrived], [all[m]], t);
    }
  }

  /** Every task looked at is either in the batch, back in the queue, or was a
      profiler command; the others are still queued or yet to come. */
  lemma FormedConserves(head: Task, all: seq<Task>, m: nat, arrived: nat, stopped: bool,
                        batch: seq<Task>, queue: seq<Task>, later: seq<Task>, t: Task)
    requires Formed(head, all, m, arrived, stopped, batch, queue, later)
    ensures Count(batch, t) + Count(queue, t) + Count(later, t) + Count(Commands(all[..m]), t)
            == Count([head], t) + Count(all, t)
  {
    var rest := if stopped then all[m + 1..arrived] + [all[m]] else all[m..arrived];
    Split(all[..m], head.params, t);
    QueueParts(all, m, arrived, stopped, t);
    CountConcat([head], Matching(all[..m], head.params), t);
    CountConcat(rest, Failing(all[..m], head.params), t);
  }

  lemma {:induction false} MatchingGood(q: seq<Task>, params: int)
    ensures forall t :: t in Matching(q, params) ==> t.kind.Generate? && t.params == params
  {
    if q != [] {
      MatchingGood(q[..|q| - 1], params);
    }
  }

  lemma {:induction false} FailingQuiet(q: seq<Task>, params: int)
    ensures NoShutdown(Failing(q, params))
  {
    if q != [] {
      FailingQuiet(q[..|q| - 1], params);
    }
  }

  /** All tasks of a batch share the head's parameters. */
  lemma FormedGood(head: Task, all: seq<Task>, m: nat)
    requires m <= |all| && head.kind.Generate?
    ensures forall t :: t in [head] + Matching(all[..m], head.params) ==> t.kind.Generate? && t.params == head.params
  {
    MatchingGood(all[..m], head.params);
  }

  lemma FormedQuiet(head: Task, all: seq<Task>, m: nat, arrived: nat, stopped: bool,
                    batch: seq<Task>, queue: seq<Task>, later: seq<Task>)
    requires Formed(head, all, m, arrived, stopped, batch, queue, later)
    ensures NoShutdown(all) ==> NoShutdown(queue + later)
  {
    FailingQuiet(all[..m], head.params);
  }

  lemma FailingShort(q: seq<Task>, params: int)
    ensures |Failing(q, params)| <= |q|
  {
  }

  /** What looking at the first m tasks has produced. */
  ghost predicate Looked(head: Task, all: seq<Task>, m: nat,
                         batch: seq<Task>, failed: seq<Task>, commands: seq<Task>, stops: nat)
  {
    && m <= |all| && NoShutdown(all[..m])
    && batch == [head] + Matching(all[..m], head.params)
    && failed == Failing(all[..m], head.params)
    && commands == Commands(all[..m])
    && stops == Stops(all[..m])
  }

  lemma LookOne(head: Task, all: seq<Task>, m: nat,
                batch: seq<Task>, failed: seq<Task>, commands: seq<Task>, stops: nat)
    requires Looked(head, all, m, batch, failed, commands, stops) && m < |all| && !all[m].kind.Shutdown?
    ensures var x := all[m];
            Looked(head, all, m + 1,
                   batch + if x.kind.Generate? && x.params == head.params then [x] else [],
                   failed + if x.kind.Generate? && x.params != head.params then [x] else [],
                   commands + if IsProfiler(x) then [x] else [],
                   stops + if x.kind.ProfilerStop? then 1 else 0)
  {
    assert all[..m + 1][..m] == all[..m];
  }

  lemma SplitAt(all: seq<Task>, start: nat, front: seq<Task>, back: seq<Task>)
    requires start <= |all| && front + back == all[start..]
    ensures start + |front| + |back| == |all|
    ensures front == all[start..|all| - |back|] && back == all[|all| - |back|..]
  {
    assert front == (front + back)[..|front|] && back == (front + back)[|front|..];
  }

  /** The tasks left of `all` when the look ended after m of them. */
  ghost predicate LeftOver(all: seq<Task>, m: nat, stopped: bool, left: seq<Task>, later: seq<Task>) {
    if stopped then
      && left != [] && m < |all| && all[m].kind.Shutdown?
      && left[|left| - 1] == all[m] && left[..|left| - 1] + later == all[m + 1..]
    else m <= |all| && left + later == all[m..]
  }

  lemma LeftOne(all: seq<Task>, m: nat, left: seq<Task>, later: seq<Task>)
    requires LeftOver(all, m, false, left, later) && left != []
    ensures m < |all| && left[0] == all[m] && LeftOver(all, m + 1, false, left[1..], later)
    ensures all[m].kind.Shutdown? ==> LeftOver(all, m, true, left[1..] + [left[0]], later)
  {
    assert all[m..][1..] == all[m + 1..] && (left + later)[1..] == left[1..] + later;
    assert (left[1..] + [left[0]])[..|left| - 1] == left[1..];
  }

  lemma MakeFormed(head: Task, all: seq<Task>, m: nat, stopped: bool, batch: seq<Task>, failed: seq<Task>,
                   commands: seq<Task>, stops: nat, left: seq<Task>, later: seq<Task>)
    requires Looked(head, all, m, batch, failed, commands, stops) && LeftOver(all, m, stopped, left, later)
    ensures |later| <= |all| && Formed(head, all, m, |all| - |later|, stopped, batch, left + failed, later)
  {
    if stopped {
      SplitAt(all, m + 1, left[..|left| - 1], later);
      assert left == left[..|left| - 1] + [all[m]];
    } else {
      SplitAt(all, m, left, later);
    }
  }

  /** How often a task occurs among the served, handled, queued and later ones. */
  ghost function Tally(served: seq<seq<Task>>, handled: seq<Task>, queue: seq<Task>, later: seq<Task>, t: Task): nat {
    Count(Concat(served), t) + Count(handled, t) + Count(queue, t) + Count(later, t)
  }

  lemma ServeConserves(served: seq<seq<Task>>, handled: seq<Task>, q0: seq<Task>, l0: seq<Task>,
                       batch: seq<Task>, commands: seq<Task>, q1: seq<Task>, l1: seq<Task>, head: Task, t: Task)
    requires Count(batch, t) + Count(q1, t) + Count(l1, t) + Count(commands, t) == Count([head], t) + Count(q0 + l0, t)
    ensures Tally(served + [batch], handled + commands, q1, l1, t)
            == Tally(served, handled, q0, l0, t) + Count([head], t)
  {
    assert (served + [batch])[..|served|] == served;
    CountConcat(Concat(served), batch, t);
    CountConcat(handled, commands, t);
    CountConcat(q0, l0, t);
  }

  lemma GetConserves(served: seq<seq<Task>>, handled: seq<Task>, task: Task, queue: seq<Task>, later: seq<Task>,
                     t: Task)
    ensures Tally(served, handled, [task] + queue, later, t)
            == Count([task], t) + Tally(served, handled, queue, later, t)
    ensures Tally(served, handled, queue, [task] + later, t)
            == Count([task], t) + Tally(served, handled, queue, later, t)
    ensures Tally(served, handled + [task], queue, later, t)
            == Count([task], t) + Tally(served, handled, queue, later, t)
  {
    CountConcat([task], queue, t);
    CountConcat([task], later, t);
    CountConcat(handled, [task], t);
  }

  lemma Headed(head: Task, tail: seq<Task>, all: seq<Task>)
    requires all == [head] + tail
    ensures NoShutdown(all) <==> !head.kind.Shutdown? && NoShutdown(tail)
    ensures |all| == |tail| + 1
  {
    assert all[0] == head;
    assert forall i :: 0 <= i < |tail| ==> tail[i] == all[i + 1];
  }

  /** How a look at the queue goes on: further, or it has met a shutdown signal, or
      time is up. */
  datatype Verdict = Go | Stop | TimeUp

  /** The history of a look: everything queued or put meanwhile, how many tasks
      were looked at, the commands among them and their replies, the polls of an
      empty queue, how many tasks were queued at the start, and the fields at
      that time. */
  datatype Look = Look(all: seq<Task>, m: nat, commands: seq<Task>, stops: nat, polls: nat, queued: nat,
                       handled0: seq<Task>, replies0: nat, log0: seq<nat>)
  {
    /** The first reading of the clock. */
    function Start(readings: seq<nat>): int {
      if |log0| < |readings| then readings[|log0|] else -1
    }

    /** A later moment of the same look. */
    predicate Since(l: Look) {
      all == l.all && queued == l.queued && handled0 == l.handled0 && replies0 == l.replies0 && log0 == l.log0
    }
  }

  /** What a look has produced, and what it has left. The queue is polled only
      once the tasks queued at the start have been looked at. */
  ghost predicate Looking(l: Look, head: Task, batch: seq<Task>, failed: seq<Task>, queue: seq<Task>, later: seq<Task>,
                          verdict: Verdict)
  {
    && Looked(head, l.all, l.m, batch, failed, l.commands, l.stops)
    && LeftOver(l.all, l.m, verdict.Stop?, queue, later)
    && l.queued + |later| <= |l.all|
    && (l.polls > 0 ==> l.m >= l.queued)
  }

  /** The clock is read at the start, after each task but a command, and at each
      poll; time is up when the last reading says so, and no earlier one did. */
  ghost predicate Timed(l: Look, readings: seq<nat>, timeout: nat, verdict: Verdict) {
    && |l.log0| < |readings| && readings[..|l.log0|] == l.log0
    && |readings| + |l.commands| == |l.log0| + 1 + l.m + l.polls
    && (forall k :: |l.log0| < k < |readings| - 1 ==> readings[k] - readings[|l.log0|] <= timeout)
    && (verdict.TimeUp? <==> |readings| > |l.log0| + 1 && readings[|readings| - 1] - readings[|l.log0|] > timeout)
  }

  /** One more look or poll and one more reading of the clock. */
  lemma TimedNext(l: Look, log: seq<nat>, timeout: nat, next: Look, t: nat)
    requires Timed(l, log, timeout, Go) && next.log0 == l.log0
    requires next.m + next.polls + |l.commands| == l.m + l.polls + |next.commands| + 1
    ensures Timed(next, log + [t], timeout, if t - l.Start(log) > timeout then TimeUp else Go)
    ensures next.Start(log + [t]) == l.Start(log)
  {
  }

  /** Only profiler commands have been added to the handled ones. */
  ghost predicate CommandsAdded(before: seq<Task>, after: seq<Task>) {
    && |before| <= |after| && after[..|before|] == before
    && forall k :: |before| <= k < |after| ==> IsProfiler(after[k])
  }

  ghost predicate AllGenerate(b: seq<Task>) {
    forall k :: 0 <= k < |b| ==> b[k].kind.Generate?
  }

  lemma {:induction false} CommandsAreProfiler(q: seq<Task>)
    ensures forall k :: 0 <= k < |Commands(q)| ==> IsProfiler(Commands(q)[k])
  {
    if q != [] {
      CommandsAreProfiler(q[..|q| - 1]);
    }
  }

  lemma {:induction false} Absent(q: seq<Task>, t: Task)
    requires forall k :: 0 <= k < |q| ==> q[k] != t
    ensures Count(q, t) == 0
  {
    if q != [] {
      Absent(q[..|q| - 1], t);
    }
  }

  /** Handled commands do not count for another task. */
  lemma GenerateTally(served: seq<seq<Task>>, before: seq<Task>, handled: seq<Task>, queue: seq<Task>,
                      later: seq<Task>, t: Task)
    requires CommandsAdded(before, handled) && !IsProfiler(t)
    ensures Tally(served, handled, queue, later, t)
            == Count(Concat(served), t) + Count(before, t) + Count(queue + later, t)
  {
    var added := handled[|before|..];
    assert handled == before + added;
    CountConcat(before, added, t);
    Absent(added, t);
    CountConcat(queue, later, t);
  }

  /** Good batches hold no profiler command, so all of those were handled. */
  lemma ProfilerTally(served: seq<seq<Task>>, batches: seq<seq<Task>>, h0: seq<Task>, q0: seq<Task>, l0: seq<Task>,
                      h1: seq<Task>, q1: seq<Task>, l1: seq<Task>, t: Task)
    requires IsProfiler(t)
    requires forall b: seq<Task> :: b in batches ==> AllGenerate(b)
    requires Tally(served + batches, h1, q1, l1, t) == Tally(served, h0, q0, l0, t)
    ensures Count(h1, t) + Count(q1 + l1, t) == Count(h0, t) + Count(q0 + l0, t)
  {
    NoCommands(served, batches, t);
    CountConcat(q0, l0, t);
    CountConcat(q1, l1, t);
  }

  lemma {:induction false} NoCommands(served: seq<seq<Task>>, batches: seq<seq<Task>>, t: Task)
    requires IsProfiler(t)
    requires forall b: seq<Task> :: b in batches ==> AllGenerate(b)
    ensures Count(Concat(served + batches), t) == Count(Concat(served), t)
  {
    if batches == [] {
      assert served + batches == served;
    } else {
      var rest, last := batches[..|batches| - 1], batches[|batches| - 1];
      NoCommands(served, rest, t);
      assert (served + batches)[..|served + batches| - 1] == served + rest;
      CountConcat(Concat(served + rest), last, t);
      assert last in batches && AllGenerate(last);
      Absent(last, t);
    }
  }

  class Worker {
    const maxBatch: nat
    const timeout: nat
    var inQ: seq<Task>
    var later: seq<Task>     // tasks that other processes have yet to put
    var handled: seq<Task>   // profiler commands handled so far
    var replies: nat         // profiler results put on the output queue
    var served: seq<seq<Task>>
    var now: nat
    var readings: seq<nat>   // what the clock has shown so far

    constructor (maxBatch: nat, timeout: nat, queued: seq<Task>, later: seq<Task>)
      ensures this.maxBatch == maxBatch && this.timeout == timeout
      ensures inQ == queued && this.later == later && handled == [] && replies == 0 && served == []
    {
      this.maxBatch, this.timeout := maxBatch, timeout;
      inQ, this.later, handled, replies, served := queued, later, [], 0, [];
      now, readings := 0, [];
    }

    /** Other processes put some of their tasks. */
    method Arrivals()
      modifies this`inQ, this`later
      ensures inQ + later == old(inQ + later) && |old(inQ)| <= |inQ|
    {
      var k :| 0 <= k <= |later|;
      assert later == later[..k] + later[k..];
      inQ, later := inQ + later[..k], later[k..];
    }

    method HandleProfiler(t: Task)
      requires IsProfiler(t)
      modifies this`handled, this`replies
      ensures handled == old(handled) + [t]
      ensures replies == old(replies) + if t.kind.ProfilerStop? then 1 else 0
    {
      handled := handled + [t];
      if t.kind.ProfilerStop? {
        replies := replies + 1;
      }
    }

    /** Looks at one more task: a profiler command is handled, another task
        joins the batch or fails to. */
    method Consider(head: Task, extra: Task, batch: seq<Task>, failed: seq<Task>, ghost l: Look)
      returns (batch': seq<Task>, failed': seq<Task>, ghost l': Look)
      requires Looked(head, l.all, l.m, batch, failed, l.commands, l.stops)
      requires l.m < |l.all| && extra == l.all[l.m] && !extra.kind.Shutdown?
      requires handled == l.handled0 + l.commands && replies == l.replies0 + l.stops
      modifies this`handled, this`replies
      ensures Looked(head, l.all, l'.m, batch', failed', l'.commands, l'.stops)
      ensures handled == l.handled0 + l'.commands && replies == l.replies0 + l'.stops
      ensures l' == l.(m := l.m + 1, commands := l'.commands, stops := l'.stops)
      ensures |l'.commands| == |l.commands| + if IsProfiler(extra) then 1 else 0
      ensures |batch'| <= |batch| + 1
    {
      LookOne(head, l.all, l.m, batch, failed, l.commands, l.stops);
      batch', failed', l' := batch, failed, l.(m := l.m + 1);
      if IsProfiler(extra) {
        HandleProfiler(extra);
        l' := l'.(commands := l.commands + [extra], stops := l.stops + if extra.kind.ProfilerStop? then 1 else 0);
      } else if extra.params != head.params {
        failed' := failed + [extra];
      } else {
        batch' := batch + [extra];
      }
    }

    method ReadClock() returns (t: nat)
      modifies this`now, this`readings
      ensures t == now >= old(now) && readings == old(readings) + [t]
    {
      var passed: nat :| 0 <= passed;
      now := now + passed;
      t, readings := now, readings + [now];
    }

    method Sleep(ms: nat)
      modifies this`now
      ensures now == old(now) + ms
    {
      now := now + ms;
    }

    /** What has been looked at so far, on the fields of the worker. */
    ghost predicate LookingAt(l: Look, head: Task, batch: seq<Task>, failed: seq<Task>, verdict: Verdict)
      reads this
    {
      && Looking(l, head, batch, failed, inQ, later, verdict)
      && Timed(l, readings, timeout, verdict)
      && handled == l.handled0 + l.commands && replies == l.replies0 + l.stops
    }

    /** Takes the first task of the queue: a shutdown signal goes back and ends the
        look, any other task is considered, and unless it was a command the clock
        is read. */
    method LookAtTask(head: Task, start: nat, batch: seq<Task>, failed: seq<Task>, ghost l: Look)
      returns (batch': seq<Task>, failed': seq<Task>, verdict: Verdict, ghost l': Look)
      requires LookingAt(l, head, batch, failed, Go) && inQ != [] && start == l.Start(readings)
      modifies this`inQ, this`handled, this`replies, this`now, this`readings
      ensures LookingAt(l', head, batch', failed', verdict) && l'.Since(l) && l'.Start(readings) == start
      ensures |batch'| <= |batch| + 1
      ensures verdict.Go? ==> |inQ| == |old(inQ)| - 1
      ensures now >= old(now) && (l'.m > l.m || verdict.Stop?)
    {
      var extra := inQ[0];
      LeftOne(l.all, l.m, inQ, later);
      inQ := inQ[1..];
      batch', failed', verdict, l' := batch, failed, Go, l;
      if extra.kind.Shutdown? {
        inQ := inQ + [extra];
        verdict := Stop;
        return;
      }
      batch', failed', l' := Consider(head, extra, batch, failed, l);
      if !IsProfiler(extra) {
        var t := ReadClock();
        TimedNext(l, old(readings), timeout, l', t);
        if t - start > timeout {
          verdict := TimeUp;
        }
      }
    }

    /** Finds the queue empty: reads the clock and sleeps. */
    method Poll(head: Task, start: nat, ghost batch: seq<Task>, ghost failed: seq<Task>, ghost l: Look)
      returns (verdict: Verdict, ghost l': Look)
      requires LookingAt(l, head, batch, failed, Go) && inQ == [] && start == l.Start(readings) && start <= now
      modifies this`now, this`readings
      ensures LookingAt(l', head, batch, failed, verdict) && l'.Since(l) && l'.Start(readings) == start
      ensures !verdict.Stop? && now >= old(now)
      ensures verdict.Go? ==> old(now) + 50 <= now <= start + timeout + 50
    {
      var t := ReadClock();
      Sleep(50);
      verdict := if t - start > timeout then TimeUp else Go;
      l' := l.(polls := l.polls + 1);
      TimedNext(l, old(readings), timeout, l', t);
    }

    /** Looks at tasks until the batch is full, time is up, or a shutdown signal
        shows. It stops for no other reason, polls only once the tasks queued at
        the start have been looked at, and time is up at the last reading of the
        clock or never. */
    method Fill(head: Task)
      returns (batch: seq<Task>, failed: seq<Task>, verdict: Verdict, ghost l: Look)
      requires head.kind.Generate? && maxBatch > 0
      modifies this`inQ, this`later, this`handled, this`replies, this`now, this`readings
      ensures l.all == old(inQ + later) && l.queued == |old(inQ)|
      ensures l.handled0 == old(handled) && l.replies0 == old(replies) && l.log0 == old(readings)
      ensures LookingAt(l, head, batch, failed, verdict) && |batch| <= maxBatch
      ensures verdict.Go? ==> |batch| == maxBatch
    {
      batch, failed, verdict := [head], [], Go;
      l := Look(inQ + later, 0, [], 0, 0, |inQ|, handled, replies, readings);
      var start := ReadClock();
      while |batch| < maxBatch && verdict.Go?
        invariant LookingAt(l, head, batch, failed, verdict) && |batch| <= maxBatch
        invariant l.all == old(inQ + later) && l.queued == |old(inQ)|
        invariant l.handled0 == old(handled) && l.replies0 == old(replies) && l.log0 == old(readings)
        invariant start == l.Start(readings) && start <= now
        decreases verdict.Go?, |inQ| + |later|, Max(0, start + timeout + 100 - now)
      {
        Arrivals();
        if inQ != [] {
          batch, failed, verdict, l := LookAtTask(head, start, batch, failed, l);
        } else {
          verdict, l := Poll(head, start, batch, failed, l);
        }
      }
    }

    /** Forms a batch behind its first task and puts back what did not fit. The
        batch is full, or a shutdown signal showed, or time was up; a task queued
        at the start is looked at before any waiting. */
    method FormBatch(head: Task) returns (batch: seq<Task>, verdict: Verdict, ghost m: nat, ghost arrived: nat)
      requires head.kind.Generate? && maxBatch > 0
      modifies this`inQ, this`later, this`handled, this`replies, this`now, this`readings
      ensures Formed(head, old(inQ + later), m, arrived, verdict.Stop?, batch, inQ, later)
      ensures |batch| <= maxBatch && (verdict.Go? ==> |batch| == maxBatch)
      ensures handled == old(handled) + Commands(old(inQ + later)[..m])
      ensures replies == old(replies) + Stops(old(inQ + later)[..m])
      ensures |old(readings)| < |readings| && readings[..|old(readings)|] == old(readings)
      ensures var start := readings[|old(readings)|];
              && (verdict.TimeUp? <==>
                    |readings| > |old(readings)| + 1 && readings[|readings| - 1] - start > timeout)
              && (forall k :: |old(readings)| < k < |readings| - 1 ==> readings[k] - start <= timeout)
      ensures |readings| + |Commands(old(inQ + later)[..m])| > |old(readings)| + 1 + m ==> m >= |old(inQ)|
      ensures maxBatch > 1 && old(inQ) != [] ==> m >= 1 || verdict.Stop?
    {
      ghost var all := inQ + later;
      var failed;
      ghost var l;
      batch, failed, verdict, l := Fill(head);
      m := l.m;
      MakeFormed(head, all, m, verdict.Stop?, batch, failed, l.commands, l.stops, inQ, later);
      PutBack(failed);
      arrived := |all| - |later|;
    }

    /** Puts the tasks that could not join back at the end of the queue. */
    method PutBack(failed: seq<Task>)
      modifies this`inQ
      ensures inQ == old(inQ) + failed
    {
      for i := 0 to |failed|
        invariant inQ == old(inQ) + failed[..i]
      {
        inQ := inQ + [failed[i]];
      }
      assert failed[..|failed|] == failed;
    }

    /** All tasks of the served batches, in order. */
    ghost function Served(): seq<Task>
      reads this`served
    {
      Concat(served)
    }

    /** How often a task occurs anywhere: served, handled, queued or yet to come. */
    ghost function Everywhere(t: Task): nat
      reads this
    {
      Tally(served, handled, inQ, later, t)
    }

    /** Waits for a task and takes it. */
    method Get() returns (task: Task)
      requires inQ != [] || later != []
      modifies this`inQ, this`later
      ensures old(inQ + later) == [task] + (inQ + later)
      ensures forall t :: old(Everywhere(t)) == Count([task], t) + Everywhere(t)
    {
      if inQ == [] {
        assert later == [later[0]] + later[1..];
        task, later := later[0], later[1..];
      } else {
        assert inQ == [inQ[0]] + inQ[1..];
        task, inQ := inQ[0], inQ[1..];
      }
      forall t ensures old(Everywhere(t)) == Count([task], t) + Everywhere(t) {
        GetConserves(served, handled, task, inQ, later, t);
      }
    }

    /** Forms a batch; once it is served, every task is accounted for. */
    method NextBatch(head: Task) returns (batch: seq<Task>)
      requires maxBatch > 0 && head.kind.Generate?
      modifies this`inQ, this`later, this`handled, this`replies, this`now, this`readings
      ensures forall t :: Tally(served + [batch], handled, inQ, later, t) == old(Everywhere(t)) + Count([head], t)
      ensures GoodBatch(batch)
      ensures CommandsAdded(old(handled), handled)
      ensures NoShutdown(old(inQ + later)) ==> NoShutdown(inQ + later)
      ensures |inQ| + |later| <= |old(inQ)| + |old(later)|
    {
      ghost var all := inQ + later;
      var verdict;
      ghost var m, arrived;
      batch, verdict, m, arrived := FormBatch(head);
      ghost var stopped := verdict.Stop?;
      FormedGood(head, all, m);
      FormedInOrder(head, all, m, arrived, stopped, batch, inQ, later);
      FormedShort(head, all, m, arrived, stopped, batch, inQ, later);
      FormedQuiet(head, all, m, arrived, stopped, batch, inQ, later);
      CommandsAreProfiler(all[..m]);
      forall t ensures Tally(served + [batch], handled, inQ, later, t) == old(Everywhere(t)) + Count([head], t) {
        FormedConserves(head, all, m, arrived, stopped, batch, inQ, later, t);
        ServeConserves(served, old(handled), old(inQ), old(later), batch, Commands(all[..m]), inQ, later, head, t);
      }
    }

    /** Takes one task: a shutdown signal ends the loop, a profiler command is
        handled, and any other task starts a batch, which is served. */
    method ServeNext() returns (go: bool, ghost batches: seq<seq<Task>>)
      requires maxBatch > 0 && (inQ != [] || later != [])
      modifies this
      ensures forall t: Task :: !t.kind.Shutdown? ==> Everywhere(t) == old(Everywhere(t))
      ensures NoShutdown(old(inQ + later)) ==> go && NoShutdown(inQ + later)
      ensures served == old(served) + batches && forall b :: b in batches ==> GoodBatch(b)
      ensures CommandsAdded(old(handled), handled)
      ensures |inQ| + |later| < |old(inQ)| + |old(later)|
    {
      ghost var before := inQ + later;
      var task := Get();
      Headed(task, inQ + later, before);
      forall t ensures Count([task], t) == if task == t then 1 else 0 {
        CountOne(task, t);
      }
      go, batches := !task.kind.Shutdown?, [];
      if IsProfiler(task) {
        forall t ensures Tally(served, handled + [task], inQ, later, t) == Count([task], t) + Everywhere(t) {
          GetConserves(served, handled, task, inQ, later, t);
        }
        HandleProfiler(task);
      } else if go {
        var batch := NextBatch(task);
        batches := [batch];
        served := served + [batch];
      }
    }

    /** The worker's outer loop: until a shutdown signal, or until no task is
        left. Only profiler commands are handled on the spot. Of every other task
        each occurrence is served once or still queued behind a signal; without
        a signal none is left, so each was served exactly once. */
    method Run() returns (ghost batches: seq<seq<Task>>)
      requires maxBatch > 0
      modifies this
      ensures CommandsAdded(old(handled), handled)
      ensures forall t: Task :: !t.kind.Shutdown? ==> Everywhere(t) == old(Everywhere(t))
      ensures forall t: Task :: t.kind.Generate? ==>
                Count(Served(), t) + Count(inQ + later, t) == old(Count(Served(), t)) + old(Count(inQ + later, t))
      ensures forall t: Task :: IsProfiler(t) ==>
                Count(handled, t) + Count(inQ + later, t) == old(Count(handled, t)) + old(Count(inQ + later, t))
      ensures NoShutdown(old(inQ + later)) ==> inQ == [] && later == []
      ensures served == old(served) + batches && forall b :: b in batches ==> GoodBatch(b)
    {
      batches := [];
      ghost var served0, handled0, queued0, later0 := served, handled, inQ, later;
      var go := true;
      while go && (inQ != [] || later != [])
        invariant forall t: Task :: !t.kind.Shutdown? ==> Everywhere(t) == old(Everywhere(t))
        invariant NoShutdown(old(inQ + later)) ==> go && NoShutdown(inQ + later)
        invariant served == old(served) + batches && forall b :: b in batches ==> GoodBatch(b)
        invariant CommandsAdded(old(handled), handled)
        decreases |inQ| + |later|
      {
        ghost var more;
        go, more := ServeNext();
        batches := batches + more;
      }
      forall t: Task | t.kind.Generate?
        ensures Count(Served(), t) + Count(inQ + later, t) == Count(Concat(served0), t) + Count(queued0 + later0, t)
      {
        GenerateTally(served, handled0, handled, inQ, later, t);
        GenerateTally(served0, handled0, handled0, queued0, later0, t);
      }
      forall t: Task | IsProfiler(t)
        ensures Count(handled, t) + Count(inQ + later, t) == Count(handled0, t) + Count(queued0 + later0, t)
      {
        ProfilerTally(served0, batches, handled0, queued0, later0, handled, inQ, later, t);
      }
    }

    ghost predicate GoodBatch(b: seq<Task>) {
      && 0 < |b| <= maxBatch
      && forall j :: 0 <= j < |b| ==> b[j].kind.Generate? && b[j].params == b[0].params
    }
  }
}
