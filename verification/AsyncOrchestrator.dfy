/** The asynchronous orchestrator as its coroutines run it: clients register
    requests, the output handler routes results, and consumers take them. */
module AsyncOrchestrator {
  import opened Common
  import opened Pipelines
  import opened AsyncPipeline

  /** The results at the head of the first k stages that belong to a request, in
      stage order. */
  ghost function Heads(outQ: seq<seq<Chunk>>, id: Id, k: nat): seq<Chunk>
    requires k <= |outQ|
  {
    if k == 0 then []
    else Heads(outQ, id, k - 1) +
         if outQ[k - 1] != [] && outQ[k - 1][0].id == id then [outQ[k - 1][0]] else []
  }

  /** The last of the first k stages whose head belongs to a request. */
  ghost function LastHead(outQ: seq<seq<Chunk>>, id: Id, k: nat): Option<nat>
    requires k <= |outQ|
  {
    if k == 0 then None
    else if outQ[k - 1] != [] && outQ[k - 1][0].id == id then Some(k - 1)
    else LastHead(outQ, id, k - 1)
  }

  /** From m to n the heads of the first k stages, and nothing else, have moved:
      each to its live request, which notes the last stage it heard from. */
  ghost predicate PassedTo(m: Net, n: Net, k: nat) {
    && k <= |m.outQ| == |n.outQ|
    && (forall s :: 0 <= s < |m.outQ| ==>
          n.outQ[s] == if s < k && m.outQ[s] != [] then m.outQ[s][1..] else m.outQ[s])
    && n.live.Keys == m.live.Keys
    && (forall id :: id in m.live ==>
          && n.live[id].at == m.live[id].at
          && n.live[id].queue == m.live[id].queue + Heads(m.outQ, id, k)
          && n.live[id].noted == if LastHead(m.outQ, id, k).Some? then LastHead(m.outQ, id, k) else m.live[id].noted)
    && n.work == m.work && n.held == m.held && n.done == m.done
    && n.emitted == m.emitted && n.consumed == m.consumed
  }

  lemma PassedNothing(m: Net)
    ensures PassedTo(m, m, 0)
  {
    forall id | id in m.live ensures m.live[id].queue == m.live[id].queue + Heads(m.outQ, id, 0) {
    }
  }

  lemma RouteLive(m: Net, n: Net, s: nat, id: Id)
    requires PassedTo(m, n, s) && CanRoute(n, s) && n.outQ[s][0].id in n.live && id in m.live
    ensures var t := DoRoute(n, s);
            && id in t.live && t.live[id].at == m.live[id].at
            && t.live[id].queue == m.live[id].queue + Heads(m.outQ, id, s + 1)
            && t.live[id].noted
               == if LastHead(m.outQ, id, s + 1).Some? then LastHead(m.outQ, id, s + 1) else m.live[id].noted
  {
    assert n.outQ[s] == m.outQ[s];
  }

  lemma RoutePassed(m: Net, n: Net, s: nat)
    requires PassedTo(m, n, s) && CanRoute(n, s) && n.outQ[s][0].id in n.live
    ensures PassedTo(m, DoRoute(n, s), s + 1)
  {
    assert n.outQ[s] == m.outQ[s];
    forall id | id in m.live
      ensures var t := DoRoute(n, s);
              && id in t.live && t.live[id].at == m.live[id].at
              && t.live[id].queue == m.live[id].queue + Heads(m.outQ, id, s + 1)
              && t.live[id].noted
                 == if LastHead(m.outQ, id, s + 1).Some? then LastHead(m.outQ, id, s + 1) else m.live[id].noted
    {
      RouteLive(m, n, s, id);
    }
  }

  lemma SkipPassed(m: Net, n: Net, s: nat)
    requires PassedTo(m, n, s) && s < |m.outQ| && n.outQ[s] == []
    ensures PassedTo(m, n, s + 1)
  {
    assert m.outQ[s] == [];
    forall id | id in m.live
      ensures Heads(m.outQ, id, s + 1) == Heads(m.outQ, id, s) && LastHead(m.outQ, id, s + 1) == LastHead(m.outQ, id, s)
    {
    }
  }

  ghost function RoutedAt(n: Net, s: nat): Net {
    if CanRoute(n, s) then DoRoute(n, s) else n
  }

  lemma RoutedAtPassed(m: Net, n: Net, s: nat)
    requires PassedTo(m, n, s) && s < |n.outQ|
    requires n.outQ[s] != [] ==> CanRoute(n, s) && n.outQ[s][0].id in n.live
    ensures PassedTo(m, RoutedAt(n, s), s + 1)
  {
    if n.outQ[s] != [] {
      RoutePassed(m, n, s);
    } else {
      SkipPassed(m, n, s);
    }
  }

  /** The state once the first k stages have been routed, one after the other. */
  ghost function Passed(m: Net, k: nat): Net {
    if k == 0 then m else RoutedAt(Passed(m, k - 1), k - 1)
  }

  lemma {:induction false} PassedInv(p: Pipeline, m: Net, k: nat)
    requires Inv(p, m) && k <= p.Stages()
    ensures Inv(p, Passed(m, k))
  {
    if k > 0 {
      PassedInv(p, m, k - 1);
      if CanRoute(Passed(m, k - 1), k - 1) {
        RouteInv(p, Passed(m, k - 1), k - 1);
      }
    }
  }

  lemma RoutedLive(p: Pipeline, n: Net, s: nat)
    requires Inv(p, n) && s < p.Stages()
    ensures s < |n.outQ|
    ensures n.outQ[s] != [] ==> CanRoute(n, s) && n.outQ[s][0].id in n.live
  {
    if CanRoute(n, s) {
      RouteInv(p, n, s);
    }
  }

  lemma {:induction false} PassedMoves(p: Pipeline, m: Net, k: nat)
    requires Inv(p, m) && k <= p.Stages()
    ensures PassedTo(m, Passed(m, k), k)
  {
    if k == 0 {
      PassedNothing(m);
    } else {
      PassedMoves(p, m, k - 1);
      PassedInv(p, m, k - 1);
      RoutedLive(p, Passed(m, k - 1), k - 1);
      RoutedAtPassed(m, Passed(m, k - 1), k - 1);
    }
  }

  lemma PassedKeeps(p: Pipeline, m: Net, k: nat)
    requires Inv(p, m) && k <= p.Stages()
    ensures Inv(p, Passed(m, k)) && PassedTo(m, Passed(m, k), k)
  {
    PassedInv(p, m, k);
    PassedMoves(p, m, k);
  }

  lemma NextQueue(p: Pipeline, m: Net, k: nat)
    requires Inv(p, m) && k < p.Stages()
    ensures Inv(p, Passed(m, k)) && |m.outQ| == |Passed(m, k).outQ| == p.Stages()
    ensures Passed(m, k).outQ[k] == m.outQ[k]
  {
    PassedKeeps(p, m, k);
  }

  /** The orchestrator's shared state, as its coroutines update it. */
  class AsyncOmni {
    const p: Pipeline
    var work: seq<map<Id, Input>>
    var outQ: seq<seq<Chunk>>
    var held: seq<Option<Output>>
    var requestStates: map<Id, Request>
    ghost var done: set<Id>
    ghost var dropped: nat
    ghost var emitted: map<Id, seq<Chunk>>
    ghost var consumed: map<Id, seq<Chunk>>

    ghost function St(): Net
      reads this
    {
      Net(work, outQ, held, requestStates, done, dropped, emitted, consumed)
    }

    constructor (p: Pipeline)
      requires p.Valid()
      ensures this.p == p && St() == Idle(p) && Inv(p, St())
    {
      this.p := p;
      work, outQ, held := seq(p.Stages(), s => map[]), seq(p.Stages(), s => []), seq(p.Stages(), s => None);
      requestStates, done, dropped := map[], {}, 0;
      emitted, consumed := map id | id in p.ids :: [], map id | id in p.ids :: [];
      new;
      IdleInv(p);
    }

    /** Registers a request and submits its first task. */
    method Generate(id: Id)
      requires Inv(p, St()) && CanStart(p, St(), id)
      modifies this
      ensures St() == DoStart(p, old(St()), id) && Inv(p, St())
    {
      StartInv(p, St(), id);
      requestStates := requestStates[id := Request(0, [], None)];
      work := work[0 := work[0][id := Prompt(id)]];
    }

    /** Routes the first result of a stage. */
    method Route(s: nat)
      requires CanRoute(St(), s)
      modifies this`outQ, this`requestStates, this`dropped
      ensures St() == DoRoute(old(St()), s)
    {
      var c := outQ[s][0];
      outQ := outQ[s := outQ[s][1..]];
      if c.id in requestStates {
        var r := requestStates[c.id];
        requestStates := requestStates[c.id := r.(queue := r.queue + [c], noted := Some(s))];
      } else {
        dropped := dropped + 1;
      }
    }

    /** Takes one result of a stage, if there is one, and routes it. */
    method RouteOne(s: nat) returns (idle: bool)
      requires Inv(p, St()) && s < p.Stages()
      modifies this
      ensures idle == (old(outQ)[s] == [])
      ensures St() == if idle then old(St()) else DoRoute(old(St()), s)
      ensures !idle ==> old(outQ)[s][0].id in old(requestStates)
      ensures Inv(p, St())
    {
      idle := outQ[s] == [];
      if idle {
        return;
      }
      RouteInv(p, St(), s);
      Route(s);
    }

    /** One pass of the output handler over all stages: the first result of every
        stage that has one goes to its request, in stage order. It is idle when
        there was none. */
    method HandlerPass() returns (idle: bool)
      requires Inv(p, St())
      modifies this
      ensures Inv(p, St()) && dropped == 0 && PassedTo(old(St()), St(), p.Stages())
      ensures idle <==> forall s :: 0 <= s < p.Stages() ==> old(outQ)[s] == []
    {
      idle := true;
      ghost var before := St();
      for s := 0 to p.Stages()
        invariant St() == Passed(before, s) && |before.outQ| == p.Stages()
        invariant idle <==> forall t :: 0 <= t < s ==> before.outQ[t] == []
      {
        NextQueue(p, before, s);
        var none := RouteOne(s);
        idle := idle && none;
      }
      PassedKeeps(p, before, p.Stages());
    }

    /** Takes the next result of a request and passes a finished one on to the
        next stage. */
    method Take(id: Id) returns (finished: bool)
      requires CanConsume(p, St(), id)
      modifies this`work, this`held, this`requestStates, this`done, this`consumed
      ensures St() == DoConsume(p, old(St()), id)
      ensures finished == old(requestStates)[id].queue[0].finished
    {
      var r := requestStates[id];
      var c := r.queue[0];
      var stage := r.at;
      requestStates := requestStates[id := r.(queue := r.queue[1..])];
      consumed := consumed[id := consumed[id] + [c]];
      finished := c.finished;
      if !finished {
        return;
      }
      held := held[stage := Some(Generated(stage, c.input))];
      if stage + 1 <= p.final[id] {
        var input := Derived(stage + 1, held[p.source[stage + 1]].value, id);
        work := work[stage + 1 := work[stage + 1][id := input]];
        requestStates := requestStates[id := r.(queue := r.queue[1..], at := stage + 1)];
      } else {
        requestStates := requestStates - {id};
        done := done + {id};
      }
    }

    /** The consumer of a request takes its next result; its assertion on the
        stage holds. */
    method ConsumeNext(id: Id) returns (finished: bool)
      requires Inv(p, St()) && id in requestStates && requestStates[id].queue != []
      modifies this
      ensures CanConsume(p, old(St()), id) && St() == DoConsume(p, old(St()), id) && Inv(p, St())
      ensures finished == old(requestStates)[id].queue[0].finished
    {
      AssertionHolds(p, St(), id);
      assert requestStates[id].noted == Some(requestStates[id].at);
      ConsumeInv(p, St(), id);
      finished := Take(id);
    }
  }
}
