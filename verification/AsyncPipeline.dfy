/** The asynchronous pipeline: every request has a consumer coroutine with its
    own queue, stage workers stream partial and final results, and one output
    handler routes them. Any interleaving of these steps is a run. */
module AsyncPipeline {
  import opened Common
  import opened Pipelines

  /** One streamed result of a stage; a finished one is the task's last. */
  datatype Chunk = Chunk(id: Id, stage: nat, input: Input, part: nat, finished: bool)

  /** A live request: the stage its consumer is at, the results routed to it,
      and the stage the output handler noted last. */
  datatype Request = Request(at: nat, queue: seq<Chunk>, noted: Option<nat>)

  /** `work` holds each stage's submitted and unfinished tasks, which workers
      serve in any order; `emitted` and `consumed` are history. */
  datatype Net = Net(
    work: seq<map<Id, Input>>,
    outQ: seq<seq<Chunk>>,
    held: seq<Option<Output>>,
    live: map<Id, Request>,
    done: set<Id>,
    dropped: nat,
    emitted: map<Id, seq<Chunk>>,
    consumed: map<Id, seq<Chunk>>)

  datatype Action =
    | Start(id: Id)
    | Emit(stage: nat, id: Id, part: nat, finished: bool)
    | Route(stage: nat)
    | Consume(id: Id)

  function Idle(p: Pipeline): Net {
    Net(seq(p.Stages(), s => map[]), seq(p.Stages(), s => []), seq(p.Stages(), s => None),
        map[], {}, 0, map id | id in p.ids :: [], map id | id in p.ids :: [])
  }

  // ------------------------------------------------------------------ steps

  predicate CanStart(p: Pipeline, n: Net, id: Id) {
    id in p.ids && id !in n.live && id !in n.done && 0 < |n.work|
  }

  /** A client calls generate: its first task goes to stage 0. */
  function DoStart(p: Pipeline, n: Net, id: Id): Net
    requires CanStart(p, n, id)
  {
    n.(live := n.live[id := Request(0, [], None)],
       work := n.work[0 := n.work[0][id := Prompt(id)]])
  }

  predicate CanEmit(n: Net, s: nat, id: Id) {
    s < |n.work| == |n.outQ| && id in n.work[s] && id in n.emitted
  }

  /** A worker of stage s streams a result; the finished one ends the task. */
  function DoEmit(n: Net, s: nat, id: Id, part: nat, finished: bool): Net
    requires CanEmit(n, s, id)
  {
    var c := Chunk(id, s, n.work[s][id], part, finished);
    n.(outQ := n.outQ[s := n.outQ[s] + [c]],
       work := if finished then n.work[s := n.work[s] - {id}] else n.work,
       emitted := n.emitted[id := n.emitted[id] + [c]])
  }

  predicate CanRoute(n: Net, s: nat) {
    s < |n.outQ| && n.outQ[s] != []
  }

  /** The output handler takes the first result of stage s, queues it for its
      request and notes the stage; a result of no live request is dropped. */
  function DoRoute(n: Net, s: nat): Net
    requires CanRoute(n, s)
  {
    var c := n.outQ[s][0];
    var n1 := n.(outQ := n.outQ[s := n.outQ[s][1..]]);
    if c.id in n.live then
      var r := n.live[c.id];
      n1.(live := n.live[c.id := r.(queue := r.queue + [c], noted := Some(s))])
    else n1.(dropped := n.dropped + 1)
  }

  predicate CanConsume(p: Pipeline, n: Net, id: Id) {
    && id in n.live && id in p.final && id in n.consumed && n.live[id].queue != []
    && var s := n.live[id].at;
    && s < |n.held| == |n.work| == |p.source|
    && (s + 1 <= p.final[id] ==>
          && s + 1 < |n.work|
          && (p.source[s + 1] == s || (p.source[s + 1] < |n.held| && n.held[p.source[s + 1]].Some?)))
  }

  /** A consumer takes its next result. A finished one is stored as its stage's
      engine output, and the next stage's input is derived at once; past the
      final stage the request is over. */
  function DoConsume(p: Pipeline, n: Net, id: Id): Net
    requires CanConsume(p, n, id)
  {
    var r := n.live[id];
    var c := r.queue[0];
    var n1 := n.(consumed := n.consumed[id := n.consumed[id] + [c]],
                 live := n.live[id := r.(queue := r.queue[1..])]);
    if !c.finished then n1
    else
      var held := n.held[r.at := Some(Generated(r.at, c.input))];
      if r.at + 1 <= p.final[id] then
        var input := Derived(r.at + 1, held[p.source[r.at + 1]].value, id);
        n1.(held := held,
            live := n.live[id := r.(queue := r.queue[1..], at := r.at + 1)],
            work := n.work[r.at + 1 := n.work[r.at + 1][id := input]])
      else
        n1.(held := held, live := n.live - {id}, done := n.done + {id})
  }

  predicate Enabled(p: Pipeline, n: Net, a: Action) {
    match a
    case Start(id) => CanStart(p, n, id)
    case Emit(s, id, _, _) => CanEmit(n, s, id)
    case Route(s) => CanRoute(n, s)
    case Consume(id) => CanConsume(p, n, id)
  }

  function Apply(p: Pipeline, n: Net, a: Action): Net
    requires Enabled(p, n, a)
  {
    match a
    case Start(id) => DoStart(p, n, id)
    case Emit(s, id, part, finished) => DoEmit(n, s, id, part, finished)
    case Route(s) => DoRoute(n, s)
    case Consume(id) => DoConsume(p, n, id)
  }

  // -------------------------------------------------------------- invariant

  /** The chunks of one request in a queue, in order. */
  ghost function Of(q: seq<Chunk>, id: Id): seq<Chunk> {
    if q == [] then []
    else Of(q[..|q| - 1], id) + if q[|q| - 1].id == id then [q[|q| - 1]] else []
  }

  lemma {:induction false} OfConcat(a: seq<Chunk>, b: seq<Chunk>, id: Id)
    ensures Of(a + b, id) == Of(a, id) + Of(b, id)
  {
    if b == [] {
      assert a + b == a;
    } else {
      var n := |b| - 1;
      OfConcat(a, b[..n], id);
      assert (a + b)[..|a + b| - 1] == a + b[..n];
    }
  }

  lemma OfFirst(q: seq<Chunk>, id: Id)
    requires q != []
    ensures Of(q, id) == (if q[0].id == id then [q[0]] else []) + Of(q[1..], id)
  {
    OfConcat([q[0]], q[1..], id);
    assert [q[0]] + q[1..] == q;
  }

  lemma {:induction false} OfMember(q: seq<Chunk>, id: Id, i: nat)
    requires i < |q| && q[i].id == id
    ensures Of(q, id) != []
  {
    if i < |q| - 1 {
      OfMember(q[..|q| - 1], id, i);
    }
  }

  /** The stages whose finished result is in a history, in order. */
  ghost function FinishedStages(h: seq<Chunk>): seq<nat> {
    if h == [] then []
    else FinishedStages(h[..|h| - 1]) + if h[|h| - 1].finished then [h[|h| - 1].stage] else []
  }

  /** Results of one stage and request, of which only the last one may be, and
      `over` says whether it is, the finished one. */
  ghost predicate Stream(q: seq<Chunk>, id: Id, s: nat, over: bool) {
    && (forall k :: 0 <= k < |q| ==> q[k].id == id && q[k].stage == s)
    && (forall k :: 0 <= k < |q| - 1 ==> !q[k].finished)
    && (over ==> q != [])
    && (q != [] ==> q[|q| - 1].finished == over)
  }

  /** What is on its way to a live request. */
  ghost function Pending(n: Net, id: Id): seq<Chunk>
    requires id in n.live && n.live[id].at < |n.outQ|
  {
    n.live[id].queue + Of(n.outQ[n.live[id].at], id)
  }

  /** No stage but s has a task or a result of this request. */
  ghost predicate OnlyAt(n: Net, id: Id, s: int)
    requires |n.work| == |n.outQ|
  {
    forall t {:trigger n.work[t]} {:trigger n.outQ[t]} :: 0 <= t < |n.work| && t != s ==>
        id !in n.work[t] && Of(n.outQ[t], id) == []
  }

  ghost predicate Framed(p: Pipeline, n: Net) {
    && p.Valid()
    && |n.work| == |n.outQ| == |n.held| == p.Stages()
    && n.emitted.Keys == n.consumed.Keys == ToSet(p.ids)
    && n.live.Keys <= ToSet(p.ids) && n.done <= ToSet(p.ids) && n.live.Keys !! n.done
  }

  ghost predicate Sized(p: Pipeline, n: Net) {
    && Framed(p, n)
    && (forall s, id :: 0 <= s < |n.work| && id in n.work[s] ==> id in p.ids)
    && (forall s, i {:trigger n.outQ[s][i]} :: 0 <= s < |n.outQ| && 0 <= i < |n.outQ[s]| ==> n.outQ[s][i].id in p.ids)
  }

  /** A live request at stage s: everything on its way to it comes from stage
      s, nothing of it is anywhere else, and nothing was lost or reordered. */
  ghost predicate LiveOk(p: Pipeline, n: Net, id: Id)
    requires Framed(p, n) && id in n.live
  {
    var r := n.live[id];
    && r.at <= p.final[id]
    && OnlyAt(n, id, r.at)
    && Stream(Pending(n, id), id, r.at, id !in n.work[r.at])
    && (r.queue != [] ==> r.noted == Some(r.at))
    && n.emitted[id] == n.consumed[id] + Pending(n, id)
    && FinishedStages(n.consumed[id]) == Upto(r.at)
  }

  ghost predicate DoneOk(p: Pipeline, n: Net, id: Id)
    requires Framed(p, n) && id in n.done
  {
    && OnlyAt(n, id, -1)
    && n.emitted[id] == n.consumed[id]
    && FinishedStages(n.consumed[id]) == Upto(p.final[id] + 1)
  }

  ghost predicate RequestOk(p: Pipeline, n: Net, id: Id)
    requires Framed(p, n) && id in p.ids
  {
    if id in n.live then LiveOk(p, n, id)
    else if id in n.done then DoneOk(p, n, id)
    else OnlyAt(n, id, -1) && n.emitted[id] == n.consumed[id] == []
  }

  ghost predicate Inv(p: Pipeline, n: Net) {
    && Sized(p, n)
    && n.dropped == 0
    && (forall id :: id in p.ids ==> RequestOk(p, n, id))
    && HeldOk(n)
  }

  /** Every stage that a live request has passed holds some output. */
  ghost predicate HeldOk(n: Net) {
    forall id :: id in n.live ==> HeldBelow(n.held, n.live[id].at)
  }

  ghost predicate HeldBelow(held: seq<Option<Output>>, k: nat) {
    k <= |held| && forall t :: 0 <= t < k ==> held[t].Some?
  }

  /** The consumer's assertion never fails: the result it takes comes from the
      stage it is at, and that is the stage the handler noted. */
  lemma AssertionHolds(p: Pipeline, n: Net, id: Id)
    requires Inv(p, n) && id in n.live && n.live[id].queue != []
    ensures n.live[id].noted == Some(n.live[id].at)
    ensures n.live[id].queue[0].stage == n.live[id].at && n.live[id].queue[0].id == id
    ensures CanConsume(p, n, id)
  {
    assert RequestOk(p, n, id);
    assert Pending(n, id)[0] == n.live[id].queue[0];
  }

  // --------------------------------------------------------- preservation

  /** A request's own tasks and results are untouched. */
  ghost predicate SameTasks(n: Net, t: Net, id: Id)
    requires |n.work| == |n.outQ| == |t.work| == |t.outQ|
  {
    forall s {:trigger n.work[s]} {:trigger t.work[s]} {:trigger n.outQ[s]} {:trigger t.outQ[s]} ::
      0 <= s < |n.work| ==>
      (id in t.work[s] <==> id in n.work[s]) && Of(t.outQ[s], id) == Of(n.outQ[s], id)
  }

  lemma OnlyAtFrame(n: Net, t: Net, id: Id, s: int)
    requires |n.work| == |n.outQ| == |t.work| == |t.outQ| && SameTasks(n, t, id) && OnlyAt(n, id, s)
    ensures OnlyAt(t, id, s)
  {
  }

  /** Nor are its records: it stays fine. */
  lemma RequestFrame(p: Pipeline, n: Net, t: Net, id: Id)
    requires Framed(p, n) && Framed(p, t) && id in p.ids && RequestOk(p, n, id)
    requires id in n.live <==> id in t.live
    requires id in n.live ==> t.live[id] == n.live[id]
    requires id in n.done <==> id in t.done
    requires t.emitted[id] == n.emitted[id] && t.consumed[id] == n.consumed[id]
    requires SameTasks(n, t, id)
    ensures RequestOk(p, t, id)
  {
    if id in n.live {
      OnlyAtFrame(n, t, id, n.live[id].at);
      assert Pending(t, id) == Pending(n, id);
    } else {
      OnlyAtFrame(n, t, id, -1);
    }
  }

  lemma StartSized(p: Pipeline, n: Net, id: Id)
    requires Sized(p, n) && CanStart(p, n, id)
    ensures Sized(p, DoStart(p, n, id))
  {
  }

  lemma StartSelf(p: Pipeline, n: Net, id: Id)
    requires Framed(p, n) && CanStart(p, n, id) && RequestOk(p, n, id) && Framed(p, DoStart(p, n, id))
    ensures RequestOk(p, DoStart(p, n, id), id)
  {
    var t := DoStart(p, n, id);
    assert OnlyAt(n, id, -1);
    assert OnlyAt(t, id, 0);
    assert Of(n.outQ[0], id) == [];
    assert Pending(t, id) == [];
  }

  lemma StartOther(p: Pipeline, n: Net, id: Id, other: Id)
    requires Framed(p, n) && CanStart(p, n, id) && Framed(p, DoStart(p, n, id))
    requires other in p.ids && other != id && RequestOk(p, n, other)
    ensures RequestOk(p, DoStart(p, n, id), other)
  {
    RequestFrame(p, n, DoStart(p, n, id), other);
  }

  lemma StartInv(p: Pipeline, n: Net, id: Id)
    requires Inv(p, n) && CanStart(p, n, id)
    ensures Inv(p, DoStart(p, n, id))
  {
    StartSized(p, n, id);
    StartSelf(p, n, id);
    forall other | other in p.ids && other != id ensures RequestOk(p, DoStart(p, n, id), other) {
      StartOther(p, n, id, other);
    }
  }

  lemma EmitSized(p: Pipeline, n: Net, s: nat, id: Id, part: nat, finished: bool)
    requires Sized(p, n) && CanEmit(n, s, id)
    ensures Sized(p, DoEmit(n, s, id, part, finished))
  {
  }

  /** A request with a task at stage s is live and at s. */
  lemma WorkerOwns(p: Pipeline, n: Net, s: nat, id: Id)
    requires Framed(p, n) && s < p.Stages() && id in p.ids && id in n.work[s] && RequestOk(p, n, id)
    ensures id in n.live && n.live[id].at == s
  {
  }

  lemma StreamSnoc(q: seq<Chunk>, id: Id, s: nat, c: Chunk)
    requires Stream(q, id, s, false) && c.id == id && c.stage == s
    ensures Stream(q + [c], id, s, c.finished)
  {
  }

  lemma EmitPending(p: Pipeline, n: Net, s: nat, id: Id, part: nat, finished: bool)
    requires Framed(p, n) && CanEmit(n, s, id) && id in n.live && n.live[id].at == s
    ensures var t := DoEmit(n, s, id, part, finished);
            var c := Chunk(id, s, n.work[s][id], part, finished);
            && |t.outQ| == |n.outQ| && |t.work| == |n.work| && t.live == n.live && t.done == n.done
            && Pending(t, id) == Pending(n, id) + [c]
            && t.consumed == n.consumed && t.emitted == n.emitted[id := n.emitted[id] + [c]]
            && (id !in t.work[s] <==> finished)
  {
    var t := DoEmit(n, s, id, part, finished);
    var c := Chunk(id, s, n.work[s][id], part, finished);
    assert t.outQ[s] == n.outQ[s] + [c] && t.outQ[s][..|t.outQ[s]| - 1] == n.outQ[s];
  }

  lemma EmitOnlyAt(p: Pipeline, n: Net, s: nat, id: Id, part: nat, finished: bool)
    requires Framed(p, n) && CanEmit(n, s, id) && OnlyAt(n, id, s)
    ensures |DoEmit(n, s, id, part, finished).work| == |DoEmit(n, s, id, part, finished).outQ|
    ensures OnlyAt(DoEmit(n, s, id, part, finished), id, s)
  {
  }

  lemma EmitSelf(p: Pipeline, n: Net, s: nat, id: Id, part: nat, finished: bool)
    requires Framed(p, n) && CanEmit(n, s, id) && id in n.live && n.live[id].at == s && LiveOk(p, n, id)
    requires Framed(p, DoEmit(n, s, id, part, finished))
    ensures RequestOk(p, DoEmit(n, s, id, part, finished), id)
  {
    EmitPending(p, n, s, id, part, finished);
    EmitOnlyAt(p, n, s, id, part, finished);
    StreamSnoc(Pending(n, id), id, s, Chunk(id, s, n.work[s][id], part, finished));
  }

  lemma EmitOther(p: Pipeline, n: Net, s: nat, id: Id, part: nat, finished: bool, other: Id)
    requires Framed(p, n) && CanEmit(n, s, id) && other in p.ids && other != id && RequestOk(p, n, other)
    requires Framed(p, DoEmit(n, s, id, part, finished))
    ensures RequestOk(p, DoEmit(n, s, id, part, finished), other)
  {
    var t := DoEmit(n, s, id, part, finished);
    assert t.outQ[s][..|t.outQ[s]| - 1] == n.outQ[s];
    RequestFrame(p, n, t, other);
  }

  lemma EmitInv(p: Pipeline, n: Net, s: nat, id: Id, part: nat, finished: bool)
    requires Inv(p, n) && CanEmit(n, s, id)
    ensures Inv(p, DoEmit(n, s, id, part, finished))
  {
    EmitSized(p, n, s, id, part, finished);
    WorkerOwns(p, n, s, id);
    EmitSelf(p, n, s, id, part, finished);
    forall other | other in p.ids && other != id
      ensures RequestOk(p, DoEmit(n, s, id, part, finished), other)
    {
      EmitOther(p, n, s, id, part, finished, other);
    }
  }

  /** The request of a stage's first result is live and at that stage. */
  lemma ResultOwned(p: Pipeline, n: Net, s: nat)
    requires Framed(p, n) && CanRoute(n, s) && n.outQ[s][0].id in p.ids && RequestOk(p, n, n.outQ[s][0].id)
    ensures n.outQ[s][0].id in n.live && n.live[n.outQ[s][0].id].at == s
  {
    OfMember(n.outQ[s], n.outQ[s][0].id, 0);
  }

  lemma RouteSized(p: Pipeline, n: Net, s: nat)
    requires Sized(p, n) && CanRoute(n, s)
    ensures Sized(p, DoRoute(n, s))
  {
    var t := DoRoute(n, s);
    assert forall j :: 0 <= j < |t.outQ[s]| ==> t.outQ[s][j] == n.outQ[s][j + 1];
  }

  lemma RouteSelf(p: Pipeline, n: Net, s: nat)
    requires Framed(p, n) && CanRoute(n, s) && n.outQ[s][0].id in p.ids && RequestOk(p, n, n.outQ[s][0].id)
    requires Framed(p, DoRoute(n, s))
    ensures RequestOk(p, DoRoute(n, s), n.outQ[s][0].id)
  {
    var c := n.outQ[s][0];
    var t := DoRoute(n, s);
    ResultOwned(p, n, s);
    OfFirst(n.outQ[s], c.id);
    assert Pending(t, c.id) == Pending(n, c.id);
    assert OnlyAt(n, c.id, s);
    assert OnlyAt(t, c.id, s);
  }

  lemma RouteOther(p: Pipeline, n: Net, s: nat, other: Id)
    requires Framed(p, n) && CanRoute(n, s) && Framed(p, DoRoute(n, s)) && n.outQ[s][0].id in n.live
    requires other in p.ids && other != n.outQ[s][0].id && RequestOk(p, n, other)
    ensures RequestOk(p, DoRoute(n, s), other)
  {
    OfFirst(n.outQ[s], other);
    RequestFrame(p, n, DoRoute(n, s), other);
  }

  lemma RouteAll(p: Pipeline, n: Net, s: nat)
    requires Sized(p, n) && CanRoute(n, s) && Framed(p, DoRoute(n, s)) && n.outQ[s][0].id in n.live
    requires forall id :: id in p.ids ==> RequestOk(p, n, id)
    ensures forall id :: id in p.ids ==> RequestOk(p, DoRoute(n, s), id)
  {
    forall id | id in p.ids ensures RequestOk(p, DoRoute(n, s), id) {
      if id == n.outQ[s][0].id {
        RouteSelf(p, n, s);
      } else {
        RouteOther(p, n, s, id);
      }
    }
  }

  lemma RouteHeld(n: Net, s: nat)
    requires HeldOk(n) && CanRoute(n, s)
    ensures HeldOk(DoRoute(n, s))
  {
    var t := DoRoute(n, s);
    forall id | id in t.live ensures HeldBelow(t.held, t.live[id].at) {
      assert HeldBelow(n.held, n.live[id].at);
    }
  }

  lemma RouteInv(p: Pipeline, n: Net, s: nat)
    requires Inv(p, n) && CanRoute(n, s)
    ensures n.outQ[s][0].id in n.live && Inv(p, DoRoute(n, s))
  {
    ResultOwned(p, n, s);
    RouteSized(p, n, s);
    RouteAll(p, n, s);
    RouteHeld(n, s);
  }

  lemma ConsumeSized(p: Pipeline, n: Net, id: Id)
    requires Sized(p, n) && CanConsume(p, n, id)
    ensures Sized(p, DoConsume(p, n, id))
  {
  }

  /** Taking the first element of a stream. */
  lemma StreamTail(c: Chunk, rest: seq<Chunk>, id: Id, s: nat, over: bool)
    requires Stream([c] + rest, id, s, over)
    ensures c.id == id && c.stage == s
    ensures !c.finished ==> Stream(rest, id, s, over)
    ensures c.finished ==> rest == [] && over
  {
    var q := [c] + rest;
    assert q[0] == c;
    assert forall k :: 0 <= k < |rest| ==> rest[k] == q[k + 1];
  }

  lemma PendingSplit(p: Pipeline, n: Net, id: Id)
    requires Framed(p, n) && id in n.live && n.live[id].at < p.Stages() && n.live[id].queue != []
    ensures var r := n.live[id];
            Pending(n, id) == [r.queue[0]] + (r.queue[1..] + Of(n.outQ[r.at], id))
  {
  }

  lemma FinishedSnoc(h: seq<Chunk>, c: Chunk)
    ensures FinishedStages(h + [c]) == FinishedStages(h) + if c.finished then [c.stage] else []
  {
    assert (h + [c])[..|h|] == h;
  }

  /** What is still on its way to a request once its consumer has taken c. */
  lemma Taken(p: Pipeline, n: Net, id: Id, c: Chunk, rest: seq<Chunk>)
    requires Framed(p, n) && CanConsume(p, n, id) && LiveOk(p, n, id)
    requires c == n.live[id].queue[0] && rest == n.live[id].queue[1..] + Of(n.outQ[n.live[id].at], id)
    ensures c.id == id && c.stage == n.live[id].at
    ensures !c.finished ==> Stream(rest, id, n.live[id].at, id !in n.work[n.live[id].at])
    ensures c.finished ==> n.live[id].queue == [c] && Of(n.outQ[c.stage], id) == [] && id !in n.work[c.stage]
    ensures n.emitted[id] == n.consumed[id] + [c] + rest
    ensures FinishedStages(n.consumed[id] + [c]) == Upto(if c.finished then c.stage + 1 else c.stage)
  {
    PendingSplit(p, n, id);
    StreamTail(c, rest, id, n.live[id].at, id !in n.work[n.live[id].at]);
    FinishedSnoc(n.consumed[id], c);
    assert n.consumed[id] + ([c] + rest) == n.consumed[id] + [c] + rest;
  }

  lemma ConsumeSelf(p: Pipeline, n: Net, id: Id)
    requires Framed(p, n) && CanConsume(p, n, id) && LiveOk(p, n, id) && Framed(p, DoConsume(p, n, id))
    ensures RequestOk(p, DoConsume(p, n, id), id)
  {
    var t := DoConsume(p, n, id);
    var r := n.live[id];
    var c := r.queue[0];
    var rest := r.queue[1..] + Of(n.outQ[r.at], id);
    Taken(p, n, id, c, rest);
    if !c.finished {
      assert Pending(t, id) == rest;
      assert OnlyAt(t, id, r.at);
    } else if r.at + 1 <= p.final[id] {
      assert OnlyAt(t, id, r.at + 1);
      assert Pending(t, id) == [];
    } else {
      assert OnlyAt(t, id, -1);
    }
  }

  lemma ConsumeTasks(p: Pipeline, n: Net, id: Id, other: Id)
    requires Framed(p, n) && CanConsume(p, n, id) && other != id && other in p.ids
    ensures var t := DoConsume(p, n, id);
            && |t.work| == |n.work| && t.outQ == n.outQ && SameTasks(n, t, other)
            && (other in t.live <==> other in n.live) && (other in n.live ==> t.live[other] == n.live[other])
            && (other in t.done <==> other in n.done)
            && t.emitted == n.emitted && other in t.consumed && t.consumed[other] == n.consumed[other]
  {
  }

  lemma ConsumeOther(p: Pipeline, n: Net, id: Id, other: Id)
    requires Framed(p, n) && CanConsume(p, n, id) && Framed(p, DoConsume(p, n, id))
    requires other in p.ids && other != id && RequestOk(p, n, other)
    ensures RequestOk(p, DoConsume(p, n, id), other)
  {
    ConsumeTasks(p, n, id, other);
    RequestFrame(p, n, DoConsume(p, n, id), other);
  }

  lemma ConsumeHeld(p: Pipeline, n: Net, id: Id)
    requires HeldOk(n) && CanConsume(p, n, id)
    ensures HeldOk(DoConsume(p, n, id))
  {
    var t := DoConsume(p, n, id);
    forall x | x in t.live ensures HeldBelow(t.held, t.live[x].at) {
      assert HeldBelow(n.held, n.live[x].at);
    }
  }

  lemma ConsumeInv(p: Pipeline, n: Net, id: Id)
    requires Inv(p, n) && CanConsume(p, n, id)
    ensures Inv(p, DoConsume(p, n, id))
  {
    assert RequestOk(p, n, id);
    ConsumeHeld(p, n, id);
    ConsumeSized(p, n, id);
    ConsumeSelf(p, n, id);
    forall other | other in p.ids && other != id ensures RequestOk(p, DoConsume(p, n, id), other) {
      ConsumeOther(p, n, id, other);
    }
  }

  // ---------------------------------------------------------- payloads

  ghost predicate FaithfulWork(p: Pipeline, work: seq<map<Id, Input>>)
    requires p.Valid()
  {
    |work| == p.Stages() && forall s, id :: 0 <= s < |work| && id in work[s] ==> work[s][id] == p.Solo(id, s)
  }

  ghost predicate FaithfulSent(p: Pipeline, emitted: map<Id, seq<Chunk>>)
    requires p.Valid()
  {
    forall id, k :: id in emitted && 0 <= k < |emitted[id]| ==>
      var c := emitted[id][k];
      c.id == id && c.stage < p.Stages() && c.input == p.Solo(id, c.stage)
  }

  /** Every task and result carries the input of its request's solo run. */
  ghost predicate Faithful(p: Pipeline, n: Net)
    requires p.Valid()
  {
    FaithfulWork(p, n.work) && FaithfulSent(p, n.emitted)
  }

  /** The payloads, and what the shared fields hold, are those of solo runs. */
  ghost predicate Pure(p: Pipeline, n: Net)
    requires p.Valid()
  {
    Faithful(p, n) && HeldOwn(p, n.held)
  }

  lemma FaithfulSubmit(p: Pipeline, work: seq<map<Id, Input>>, s: nat, id: Id)
    requires p.Valid() && FaithfulWork(p, work) && s < p.Stages()
    ensures FaithfulWork(p, work[s := work[s][id := p.Solo(id, s)]])
  {
  }

  lemma EmitFaithful(p: Pipeline, n: Net, s: nat, id: Id, part: nat, finished: bool)
    requires Sized(p, n) && CanEmit(n, s, id) && Faithful(p, n)
    ensures Sized(p, DoEmit(n, s, id, part, finished)) && Faithful(p, DoEmit(n, s, id, part, finished))
  {
    EmitSized(p, n, s, id, part, finished);
  }

  lemma TakenIsFaithful(p: Pipeline, n: Net, id: Id)
    requires Sized(p, n) && CanConsume(p, n, id) && LiveOk(p, n, id) && Faithful(p, n)
    ensures n.live[id].queue[0].input == p.Solo(id, n.live[id].at)
  {
    var r := n.live[id];
    Taken(p, n, id, r.queue[0], r.queue[1..] + Of(n.outQ[r.at], id));
    assert n.emitted[id][|n.consumed[id]|] == r.queue[0];
  }

  lemma ConsumeEffect(p: Pipeline, n: Net, id: Id)
    requires CanConsume(p, n, id)
    ensures var r, t := n.live[id], DoConsume(p, n, id);
            var held := n.held[r.at := Some(Generated(r.at, r.queue[0].input))];
            && t.emitted == n.emitted
            && t.held == (if r.queue[0].finished then held else n.held)
            && t.work == if r.queue[0].finished && r.at + 1 <= p.final[id]
                         then n.work[r.at + 1 :=
                                n.work[r.at + 1][id := Derived(r.at + 1, held[p.source[r.at + 1]].value, id)]]
                         else n.work
  {
  }

  lemma StoredPure(p: Pipeline, n: Net, t: Net, id: Id, s: nat)
    requires p.Valid() && p.Unmixed() && Pure(p, n) && id in p.ids && s <= p.final[id]
    requires t.emitted == n.emitted && t.held == n.held[s := Some(p.SoloOutput(id, s))]
    requires s == p.final[id] ==> t.work == n.work
    requires s < p.final[id] ==>
               && t.held[p.source[s + 1]].Some?
               && t.work == n.work[s + 1 := n.work[s + 1][id := Derived(s + 1, t.held[p.source[s + 1]].value, id)]]
    ensures Pure(p, t)
  {
    StoreOwn(p, n.held, id, s);
    if s < p.final[id] {
      ReadsOwn(p, t.held, id, s);
      FaithfulSubmit(p, n.work, s + 1, id);
    }
  }

  lemma TakePure(p: Pipeline, n: Net, id: Id)
    requires p.Valid() && CanConsume(p, n, id) && id in p.ids && n.live[id].at <= p.final[id]
    requires n.live[id].queue[0].input == p.Solo(id, n.live[id].at)
    requires p.Unmixed() && Pure(p, n)
    ensures Pure(p, DoConsume(p, n, id))
  {
    ConsumeEffect(p, n, id);
    if n.live[id].queue[0].finished {
      StoredPure(p, n, DoConsume(p, n, id), id, n.live[id].at);
    }
  }

  /** The derived input is the request's own, although the field it is read
      from is shared, unless two requests cross. */
  lemma ConsumePure(p: Pipeline, n: Net, id: Id)
    requires Sized(p, n) && CanConsume(p, n, id) && LiveOk(p, n, id) && p.Unmixed() && Pure(p, n)
    ensures Pure(p, DoConsume(p, n, id))
  {
    TakenIsFaithful(p, n, id);
    TakePure(p, n, id);
  }

  // ---------------------------------------------------------- whole runs

  ghost predicate IsRun(p: Pipeline, actions: seq<Action>, states: seq<Net>) {
    && p.Valid()
    && |states| == |actions| + 1 && states[0] == Idle(p)
    && forall i :: 0 <= i < |actions| ==>
         Enabled(p, states[i], actions[i]) && states[i + 1] == Apply(p, states[i], actions[i])
  }

  lemma IdleInv(p: Pipeline)
    requires p.Valid()
    ensures Inv(p, Idle(p)) && Pure(p, Idle(p))
  {
  }

  /** Every step of a client, a worker, the handler or a consumer keeps the
      invariant, and the payloads unless two requests cross. */
  lemma StepInv(p: Pipeline, n: Net, a: Action)
    requires Inv(p, n) && Enabled(p, n, a)
    ensures Inv(p, Apply(p, n, a))
    ensures p.Unmixed() && Pure(p, n) ==> Pure(p, Apply(p, n, a))
  {
    match a
    case Start(id) => StartInv(p, n, id);
    case Emit(s, id, part, finished) =>
      EmitInv(p, n, s, id, part, finished);
      if p.Unmixed() && Pure(p, n) {
        EmitFaithful(p, n, s, id, part, finished);
      }
    case Route(s) => RouteInv(p, n, s);
    case Consume(id) =>
      ConsumeInv(p, n, id);
      assert RequestOk(p, n, id);
      if p.Unmixed() && Pure(p, n) {
        ConsumePure(p, n, id);
      }
  }

  /** Over every interleaving: the assertion of every consumer holds, no result
      is dropped, nothing is lost, duplicated or reordered on its way to a
      request, and unless requests cross every payload is that of a solo run. */
  lemma {:induction false} RunInv(p: Pipeline, actions: seq<Action>, states: seq<Net>)
    requires IsRun(p, actions, states)
    ensures Inv(p, states[|actions|])
    ensures p.Unmixed() ==> Pure(p, states[|actions|])
  {
    if actions == [] {
      IdleInv(p);
    } else {
      var n := |actions| - 1;
      RunInv(p, actions[..n], states[..n + 1]);
      assert states[..n + 1][n] == states[n];
      StepInv(p, states[n], actions[n]);
    }
  }

  /** A request that is not done always has a step to take: the pipeline
      cannot get stuck while a request is live. */
  lemma NeverStuck(p: Pipeline, n: Net, id: Id) returns (a: Action)
    requires Inv(p, n) && id in n.live
    ensures Enabled(p, n, a)
    ensures match a
            case Start(_) => false
            case Emit(s, i, _, finished) => i == id && s == n.live[id].at && finished
            case Route(s) => s == n.live[id].at
            case Consume(i) => i == id
  {
    var s := n.live[id].at;
    assert RequestOk(p, n, id);
    if n.live[id].queue != [] {
      AssertionHolds(p, n, id);
      a := Consume(id);
    } else if id in n.work[s] {
      a := Emit(s, id, 0, true);
    } else {
      a := Route(s);
    }
  }
}
