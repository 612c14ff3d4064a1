/** The engine-outputs field that each stage shares between all requests:
    exactly when can a request be fed another request's output? */
module SharedOutputs {
  import opened Common
  import opened Pipelines
  import opened SyncPipeline

  ghost predicate Reachable(p: Pipeline, n: Net) {
    exists actions, states :: IsRun(p, actions, states) && n == states[|actions|]
  }

  lemma SeedReachable(p: Pipeline)
    requires p.Valid()
    ensures Reachable(p, Seed(p))
  {
    assert IsRun(p, [], [Seed(p)]);
  }

  lemma NextReachable(p: Pipeline, n: Net, a: Action)
    requires Reachable(p, n) && Enabled(p, n, a)
    ensures Reachable(p, Apply(p, n, a))
  {
    var actions, states :| IsRun(p, actions, states) && n == states[|actions|];
    RunSnoc(p, actions, states, a);
    assert IsRun(p, actions + [a], states + [Apply(p, n, a)]);
  }

  lemma ReachableInv(p: Pipeline, n: Net)
    requires Reachable(p, n)
    ensures Inv(p, n)
  {
    var actions, states :| IsRun(p, actions, states) && n == states[|actions|];
    RunInv(p, actions, states);
  }

  lemma ReachableShape(p: Pipeline, n: Net)
    requires Reachable(p, n)
    ensures p.Valid() && |n.inQ| == |n.outQ| == |n.held| == |n.remaining| == p.Stages() && n.loc.Keys == ToSet(p.ids)
  {
    ReachableInv(p, n);
  }

  /** What a worker's step leads to. */
  lemma WorkStep(p: Pipeline, n: Net, s: nat, i: nat) returns (t: Net)
    requires Reachable(p, n) && s < |n.inQ| == |n.outQ| && i < |n.inQ[s]|
    ensures Reachable(p, t)
    ensures var task := n.inQ[s][i];
            && t.inQ == n.inQ[s := Without(n.inQ[s], i)]
            && t.outQ == n.outQ[s := n.outQ[s] + [Result(task.id, Generated(s, task.input))]]
            && t.held == n.held && t.loc == n.loc[task.id := Out(s)]
  {
    NextReachable(p, n, Work(s, i));
    t := Deliver(n, s, i);
  }

  /** What polling a stage with a result leads to. */
  lemma PollStep(p: Pipeline, n: Net, s: nat) returns (t: Net)
    requires Reachable(p, n) && s < |n.outQ| && n.outQ[s] != []
    ensures Reachable(p, t) && p.Valid() && |n.inQ| == |n.held| == p.Stages()
    ensures var r := n.outQ[s][0];
            && r.id in p.ids && s <= p.final[r.id]
            && t.outQ == n.outQ[s := n.outQ[s][1..]]
            && t.held == n.held[s := Some(r.output)]
            && r.id in t.loc && t.loc == n.loc[r.id := t.loc[r.id]]
            && (s < p.final[r.id] ==>
                  && t.held[p.source[s + 1]].Some?
                  && t.inQ == n.inQ[s + 1 := n.inQ[s + 1] +
                                             [Task(r.id, Derived(s + 1, t.held[p.source[s + 1]].value, r.id))]])
            && (s == p.final[r.id] ==> t.inQ == n.inQ)
  {
    ReachableInv(p, n);
    Collectable(p, n, s);
    CollectPassed(p, n, s);
    NextReachable(p, n, Poll(s));
    t := Collect(p, n, s);
  }

  lemma Somewhere(p: Pipeline, n: Net, id: Id) returns (i: nat)
    requires Reachable(p, n) && id in n.loc && n.loc[id] == In(0)
    ensures InAt(n, 0, i, id)
  {
    ReachableInv(p, n);
    assert LocOk(p, n, id);
    i :| InAt(n, 0, i, id);
  }

  /** Stage j's output queue holds one result, made from the request's own task. */
  ghost predicate Lone(n: Net, j: nat, id: Id) {
    && j < |n.outQ| && |n.outQ[j]| == 1
    && n.outQ[j][0].id == id
    && n.outQ[j][0].output.stage == j && Owner(n.outQ[j][0].output.input) == id
  }

  /** Request a waits in the output queue of stage k; the others are untouched. */
  ghost predicate OneParked(p: Pipeline, n: Net, a: Id, k: nat) {
    && Reachable(p, n) && k < p.Stages() == |n.outQ| == |n.inQ|
    && Lone(n, k, a)
    && (forall j :: 0 <= j < p.Stages() && j != k ==> n.outQ[j] == [])
    && (forall j :: 0 < j < p.Stages() ==> n.inQ[j] == [])
    && (forall id :: id in p.ids && id != a ==> id in n.loc && n.loc[id] == In(0))
    && (forall i :: 0 <= i < |n.inQ[0]| ==> Owner(n.inQ[0][i].input) == n.inQ[0][i].id)
  }

  lemma WithoutOwners(tasks: seq<Task>, i: nat)
    requires i < |tasks| && forall j :: 0 <= j < |tasks| ==> Owner(tasks[j].input) == tasks[j].id
    ensures forall j :: 0 <= j < |Without(tasks, i)| ==>
              Owner(Without(tasks, i)[j].input) == Without(tasks, i)[j].id
  {
    assert forall j :: 0 <= j < |Without(tasks, i)| ==> Without(tasks, i)[j] == tasks[if j < i then j else j + 1];
  }

  lemma ParkFirst(p: Pipeline, a: Id) returns (n: Net)
    requires p.Valid() && a in p.ids
    ensures OneParked(p, n, a, 0)
  {
    SeedReachable(p);
    var s := Seed(p);
    var i :| 0 <= i < |p.ids| && p.ids[i] == a;
    assert s.inQ[0] == SeedTasks(p.ids) && s.inQ[0][i] == Task(a, Prompt(a));
    n := WorkStep(p, s, 0, i);
    assert n.outQ[0] == [Result(a, Generated(0, Prompt(a)))];
    WithoutOwners(s.inQ[0], i);
  }

  lemma {:induction false} Park(p: Pipeline, a: Id, k: nat) returns (n: Net)
    requires p.Valid() && a in p.ids && k <= p.final[a]
    ensures OneParked(p, n, a, k)
  {
    if k == 0 {
      n := ParkFirst(p, a);
    } else {
      var m := Park(p, a, k - 1);
      var c := PollStep(p, m, k - 1);
      n := WorkStep(p, c, k, 0);
    }
  }

  /** Request a waits behind stage m while request b waits behind stage k < m. */
  ghost predicate TwoParked(p: Pipeline, n: Net, a: Id, m: nat, b: Id, k: nat) {
    && Reachable(p, n) && k < m < p.Stages() == |n.outQ| == |n.inQ|
    && Lone(n, m, a) && Lone(n, k, b)
    && (forall j :: 0 <= j < p.Stages() && j != k && j != m ==> n.outQ[j] == [])
    && (forall j :: 0 < j < p.Stages() ==> n.inQ[j] == [])
  }

  lemma ParkBehind(p: Pipeline, a: Id, m: nat, b: Id) returns (n: Net)
    requires p.Valid() && a in p.ids && b in p.ids && a != b && 0 < m <= p.final[a]
    ensures TwoParked(p, n, a, m, b, 0)
  {
    var s := Park(p, a, m);
    ReachableShape(p, s);
    var i := Somewhere(p, s, b);
    n := WorkStep(p, s, 0, i);
  }

  lemma MoveSecond(p: Pipeline, s: Net, a: Id, m: nat, b: Id, k: nat) returns (n: Net)
    requires TwoParked(p, s, a, m, b, k) && k + 1 < m && b in p.final && k < p.final[b]
    ensures TwoParked(p, n, a, m, b, k + 1)
  {
    var c := PollStep(p, s, k);
    n := WorkStep(p, c, k + 1, 0);
  }

  lemma {:induction false} ParkSecond(p: Pipeline, a: Id, m: nat, b: Id, k: nat) returns (n: Net)
    requires p.Valid() && a in p.ids && b in p.ids && a != b && k < m <= p.final[a] && k <= p.final[b]
    ensures TwoParked(p, n, a, m, b, k)
  {
    if k == 0 {
      n := ParkBehind(p, a, m, b);
    } else {
      var s := ParkSecond(p, a, m, b, k - 1);
      n := MoveSecond(p, s, a, m, b, k - 1);
    }
  }

  /** The second request's result is stored, and the first one's still waits. */
  ghost predicate OneStored(p: Pipeline, n: Net, a: Id, m: nat, b: Id, q: nat) {
    && Reachable(p, n) && q < m < p.Stages() - 1 && p.Stages() == |n.outQ| == |n.inQ| == |n.held|
    && Lone(n, m, a) && n.inQ[m + 1] == []
    && n.held[q].Some? && Owner(n.held[q].value.input) == b
  }

  lemma StoreSecond(p: Pipeline, n: Net, a: Id, m: nat, b: Id, q: nat) returns (t: Net)
    requires TwoParked(p, n, a, m, b, q) && m + 1 < p.Stages()
    ensures OneStored(p, t, a, m, b, q)
  {
    t := PollStep(p, n, q);
  }

  /** When two requests cross, the second can overwrite the shared field, and
      the first is then fed its output. */
  lemma CrossingMixes(p: Pipeline, t: nat, a: Id, b: Id) returns (n: Net)
    requires p.Valid() && p.Crosses(a, b, t)
    ensures Reachable(p, n) && t < |n.inQ| && |n.inQ[t]| == 1
    ensures var task := n.inQ[t][0];
            task.id == a && task.input.Derived? && Owner(task.input.source.input) == b
  {
    var s := ParkSecond(p, a, t - 1, b, p.source[t]);
    var c := StoreSecond(p, s, a, t - 1, b, p.source[t]);
    n := PollStep(p, c, t - 1);
  }

  /** A request whose input was derived from another's output is not faithful. */
  lemma MixedIsUnfaithful(p: Pipeline, n: Net, t: nat)
    requires Shaped(p, n) && 0 < t < p.Stages() && n.inQ[t] != []
    requires n.inQ[t][0].input.Derived? && Owner(n.inQ[t][0].input.source.input) != n.inQ[t][0].id
    ensures !Faithful(p, n)
  {
    SoloOwner(p, n.inQ[t][0].id, p.source[t]);
  }

  /** Every reachable payload is that of a solo run if and only if no two
      requests cross: no stage that one request reaches reads further back than
      its predecessor a stage that another request passes too. */
  lemma FaithfulIffUnmixed(p: Pipeline)
    requires p.Valid()
    ensures p.Unmixed() <==> forall n :: Reachable(p, n) ==> Shaped(p, n) && Faithful(p, n)
  {
    if p.Unmixed() {
      forall n | Reachable(p, n) ensures Shaped(p, n) && Faithful(p, n) {
        ReachableInv(p, n);
      }
    } else {
      var a, b, t: nat :| p.Crosses(a, b, t);
      var n := CrossingMixes(p, t, a, b);
      if Shaped(p, n) {
        MixedIsUnfaithful(p, n, t);
      }
      assert Reachable(p, n) && !(Shaped(p, n) && Faithful(p, n));
    }
  }
}
