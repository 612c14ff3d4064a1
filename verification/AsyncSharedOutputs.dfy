/** The shared engine-outputs field under the asynchronous coroutines: exactly
    when can a request be fed another request's output? */
module AsyncSharedOutputs {
  import opened Common
  import opened Pipelines
  import opened AsyncPipeline

  ghost predicate Reachable(p: Pipeline, n: Net) {
    exists actions, states :: IsRun(p, actions, states) && n == states[|actions|]
  }

  lemma IdleReachable(p: Pipeline)
    requires p.Valid()
    ensures Reachable(p, Idle(p))
  {
    assert IsRun(p, [], [Idle(p)]);
  }

  lemma NextReachable(p: Pipeline, n: Net, a: Action)
    requires Reachable(p, n) && Enabled(p, n, a)
    ensures Reachable(p, Apply(p, n, a))
  {
    var actions, states :| IsRun(p, actions, states) && n == states[|actions|];
    var longer := states + [Apply(p, n, a)];
    forall i | 0 <= i < |actions + [a]|
      ensures Enabled(p, longer[i], (actions + [a])[i]) && longer[i + 1] == Apply(p, longer[i], (actions + [a])[i])
    {
      assert longer[i] == states[i];
      assert i < |actions| ==> longer[i + 1] == states[i + 1];
    }
    assert IsRun(p, actions + [a], longer);
  }

  lemma ReachableInv(p: Pipeline, n: Net)
    requires Reachable(p, n)
    ensures Inv(p, n) && (p.Unmixed() ==> Pure(p, n))
  {
    var actions, states :| IsRun(p, actions, states) && n == states[|actions|];
    RunInv(p, actions, states);
  }

  /** A reachable state in which nothing is on its way. */
  ghost predicate Calm(p: Pipeline, n: Net) {
    && Reachable(p, n) && p.Valid()
    && |n.work| == |n.outQ| == |n.held| == p.Stages()
    && forall s :: 0 <= s < |n.outQ| ==> n.outQ[s] == []
  }

  /** A request whose task waits at stage k. */
  ghost predicate WaitsAt(n: Net, id: Id, k: nat) {
    && id in n.live && n.live[id].at == k && n.live[id].queue == []
    && k < |n.work| && id in n.work[k] && Owner(n.work[k][id]) == id
  }

  lemma StartOne(p: Pipeline, n: Net, id: Id) returns (t: Net)
    requires Calm(p, n) && CanStart(p, n, id)
    ensures Calm(p, t) && WaitsAt(t, id, 0)
    ensures t.live == n.live[id := t.live[id]] && t.done == n.done
    ensures forall c, k :: c != id && WaitsAt(n, c, k) ==> WaitsAt(t, c, k)
  {
    NextReachable(p, n, Start(id));
    t := DoStart(p, n, id);
  }

  /** The stage of a waiting request answers and the handler routes the answer. */
  lemma Answer(p: Pipeline, n: Net, id: Id, k: nat) returns (t: Net)
    requires Calm(p, n) && WaitsAt(n, id, k) && CanEmit(n, k, id)
    ensures Reachable(p, t)
    ensures var c := Chunk(id, k, n.work[k][id], 0, true);
            t == n.(live := n.live[id := Request(k, [c], Some(k))],
                    work := n.work[k := n.work[k] - {id}],
                    emitted := n.emitted[id := n.emitted[id] + [c]])
  {
    NextReachable(p, n, Emit(k, id, 0, true));
    var e := DoEmit(n, k, id, 0, true);
    NextReachable(p, e, Route(k));
    assert e.outQ[k] == [Chunk(id, k, n.work[k][id], 0, true)];
    t := DoRoute(e, k);
    assert t.outQ[k] == [];
    assert t.outQ == n.outQ;
  }

  /** A request with an answer queued at stage k. */
  ghost predicate Answered(n: Net, id: Id, k: nat, input: Input) {
    id in n.live && n.live[id] == Request(k, [Chunk(id, k, input, 0, true)], Some(k))
  }

  /** The consumer takes the answer: its output is stored in the shared field. */
  lemma TakeAnswer(p: Pipeline, n: Net, id: Id, k: nat, input: Input) returns (t: Net)
    requires Calm(p, n) && Answered(n, id, k, input) && CanConsume(p, n, id) && k <= p.final[id]
    ensures Calm(p, t)
    ensures t.held == n.held[k := Some(Generated(k, input))]
    ensures forall c :: c != id ==> (c in t.live <==> c in n.live) && (c in t.done <==> c in n.done)
    ensures forall c, j :: c != id && WaitsAt(n, c, j) ==> WaitsAt(t, c, j)
    ensures k < p.final[id] ==> WaitsAt(t, id, k + 1) && t.held[p.source[k + 1]].Some?
                                && t.work[k + 1][id] == Derived(k + 1, t.held[p.source[k + 1]].value, id)
  {
    NextReachable(p, n, Consume(id));
    t := DoConsume(p, n, id);
  }

  /** A waiting request is answered and its consumer takes the answer. */
  lemma Serve(p: Pipeline, n: Net, id: Id, k: nat) returns (t: Net)
    requires Calm(p, n) && WaitsAt(n, id, k) && id in p.ids && k <= p.final[id]
    ensures Calm(p, t)
    ensures t.held == n.held[k := Some(Generated(k, n.work[k][id]))]
    ensures forall c :: c != id ==> (c in t.live <==> c in n.live) && (c in t.done <==> c in n.done)
    ensures forall c, j :: c != id && WaitsAt(n, c, j) ==> WaitsAt(t, c, j)
    ensures k < p.final[id] ==> WaitsAt(t, id, k + 1) && t.held[p.source[k + 1]].Some?
                                && t.work[k + 1][id] == Derived(k + 1, t.held[p.source[k + 1]].value, id)
  {
    ReachableSized(p, n);
    var r := Answer(p, n, id, k);
    assert Calm(p, r);
    ReachableConsume(p, r, id);
    t := TakeAnswer(p, r, id, k, n.work[k][id]);
  }

  lemma ReachableSized(p: Pipeline, n: Net)
    requires Reachable(p, n)
    ensures p.Valid() && |n.work| == |n.outQ| == p.Stages() && n.emitted.Keys == ToSet(p.ids)
  {
    ReachableInv(p, n);
  }

  lemma ReachableConsume(p: Pipeline, n: Net, id: Id)
    requires Reachable(p, n) && id in n.live && n.live[id].queue != []
    ensures CanConsume(p, n, id)
  {
    ReachableInv(p, n);
    AssertionHolds(p, n, id);
  }

  /** Request id starts and is served up to stage k. */
  lemma {:induction false} Bring(p: Pipeline, n: Net, id: Id, k: nat) returns (t: Net)
    requires Calm(p, n) && CanStart(p, n, id) && k <= p.final[id]
    ensures Calm(p, t) && WaitsAt(t, id, k)
    ensures forall c :: c != id ==> (c in t.live <==> c in n.live) && (c in t.done <==> c in n.done)
    ensures forall c, j :: c != id && WaitsAt(n, c, j) ==> WaitsAt(t, c, j)
  {
    if k == 0 {
      t := StartOne(p, n, id);
    } else {
      var m := Bring(p, n, id, k - 1);
      t := Serve(p, m, id, k - 1);
    }
  }

  /** When two requests cross, the second can overwrite the shared field, and
      the first is then fed its output. */
  lemma CrossingMixes(p: Pipeline, t: nat, a: Id, b: Id) returns (n: Net)
    requires p.Valid() && p.Crosses(a, b, t)
    ensures Calm(p, n) && WaitsAt(n, a, t)
    ensures n.work[t][a].Derived? && Owner(n.work[t][a].source.input) == b
  {
    var q := p.source[t];
    IdleReachable(p);
    var s := Bring(p, Idle(p), a, t - 1);
    var u := Bring(p, s, b, q);
    var v := Serve(p, u, b, q);
    n := Serve(p, v, a, t - 1);
  }

  /** Over all interleavings of clients, workers, handler and consumers, every
      reachable payload is that of a solo run if and only if no two requests
      cross. */
  lemma FaithfulIffUnmixed(p: Pipeline)
    requires p.Valid()
    ensures p.Unmixed() <==> forall n :: Reachable(p, n) ==> Faithful(p, n)
  {
    if p.Unmixed() {
      forall n | Reachable(p, n) ensures Faithful(p, n) {
        ReachableInv(p, n);
      }
    } else {
      var a, b, t: nat :| p.Crosses(a, b, t);
      var n := CrossingMixes(p, t, a, b);
      SoloOwner(p, a, p.source[t]);
      assert Reachable(p, n) && n.work[t][a] != p.Solo(a, t);
    }
  }
}
