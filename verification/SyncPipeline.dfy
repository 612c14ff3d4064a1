/** The synchronous multi-stage pipeline: workers move tasks from a stage's
    input queue to its output queue at their own pace, and the orchestrator
    polls the output queues, forwarding or completing each request. */
module SyncPipeline {
  import opened Common
  import opened Pipelines

  datatype Task = Task(id: Id, input: Input)
  datatype Result = Result(id: Id, output: Output)
  datatype Visit = Visit(id: Id, stage: nat)
  datatype Yield = Yield(id: Id, stage: nat, output: Output)

  /** Where a request is. */
  datatype Loc = In(stage: nat) | Out(stage: nat) | Done

  /** Queues and bookkeeping. `held` is the engine-outputs field that each
      stage object shares between requests; `loc` and `visits` are history. */
  datatype Net = Net(
    inQ: seq<seq<Task>>,
    outQ: seq<seq<Result>>,
    held: seq<Option<Output>>,
    completed: nat,
    remaining: seq<nat>,
    yielded: seq<Yield>,
    loc: map<Id, Loc>,
    visits: seq<Visit>)

  ghost predicate Shaped(p: Pipeline, n: Net) {
    && p.Valid()
    && |n.inQ| == |n.outQ| == |n.held| == |n.remaining| == p.Stages()
    && n.loc.Keys == ToSet(p.ids)
  }

  function Seed(p: Pipeline): (n: Net)
    requires |p.finalOutput| > 0
  {
    Net(
      seq(p.Stages(), s => if s == 0 then SeedTasks(p.ids) else []),
      seq(p.Stages(), s => []),
      seq(p.Stages(), s => None),
      0,
      seq(p.Stages(), s => if s == 0 then |p.ids| else 0),
      [],
      map id | id in p.ids :: In(0),
      [])
  }

  function SeedTasks(ids: seq<Id>): seq<Task> {
    seq(|ids|, k requires 0 <= k < |ids| => Task(ids[k], Prompt(ids[k])))
  }

  // ------------------------------------------------------------------ steps

  /** A worker of stage s finishes the task at position i of its queue. */
  function Deliver(n: Net, s: nat, i: nat): Net
    requires s < |n.inQ| == |n.outQ| && i < |n.inQ[s]|
  {
    var task := n.inQ[s][i];
    n.(inQ := n.inQ[s := Without(n.inQ[s], i)],
       outQ := n.outQ[s := n.outQ[s] + [Result(task.id, Generated(s, task.input))]],
       loc := n.loc[task.id := Out(s)])
  }

  predicate CanCollect(p: Pipeline, n: Net, s: nat) {
    && s < |n.outQ| == |n.inQ| == |n.held| == |n.remaining| == |p.source| == |p.finalOutput|
    && n.outQ[s] != []
    && n.outQ[s][0].id in p.final && p.final[n.outQ[s][0].id] < |n.inQ|
    && (s + 1 < |n.inQ| ==> p.source[s + 1] == s || (p.source[s + 1] < |n.held| && n.held[p.source[s + 1]].Some?))
  }

  /** The orchestrator takes the first result of stage s. */
  function Collect(p: Pipeline, n: Net, s: nat): Net
    requires CanCollect(p, n, s)
  {
    var r := n.outQ[s][0];
    var held := n.held[s := Some(r.output)];
    var n1 := n.(
      outQ := n.outQ[s := n.outQ[s][1..]],
      held := held,
      yielded := if p.finalOutput[s] then n.yielded + [Yield(r.id, s, r.output)] else n.yielded,
      visits := n.visits + [Visit(r.id, s)]);
    if s + 1 <= p.final[r.id] then
      var input := Derived(s + 1, held[p.source[s + 1]].value, r.id);
      n1.(inQ := n.inQ[s + 1 := n.inQ[s + 1] + [Task(r.id, input)]],
          remaining := n.remaining[s + 1 := n.remaining[s + 1] + 1],
          loc := n.loc[r.id := In(s + 1)])
    else
      n1.(completed := n.completed + 1, loc := n.loc[r.id := Done])
  }

  // -------------------------------------------------- one place per request

  ghost predicate InAt(n: Net, s: nat, i: nat, id: Id) {
    s < |n.inQ| && i < |n.inQ[s]| && n.inQ[s][i].id == id
  }

  ghost predicate OutAt(n: Net, s: nat, i: nat, id: Id) {
    s < |n.outQ| && i < |n.outQ[s]| && n.outQ[s][i].id == id
  }

  /** Input queues hold requests that are there, each once. */
  ghost predicate InPlaced(n: Net) {
    && (forall s, i {:trigger n.inQ[s][i]} :: 0 <= s < |n.inQ| && 0 <= i < |n.inQ[s]| ==>
          n.inQ[s][i].id in n.loc && n.loc[n.inQ[s][i].id] == In(s))
    && (forall s, i, j {:trigger n.inQ[s][i], n.inQ[s][j]} :: 0 <= s < |n.inQ| && 0 <= i < j < |n.inQ[s]| ==>
          n.inQ[s][i].id != n.inQ[s][j].id)
  }

  /** Output queues hold requests that are there, each once. */
  ghost predicate OutPlaced(n: Net) {
    && (forall s, i {:trigger n.outQ[s][i]} :: 0 <= s < |n.outQ| && 0 <= i < |n.outQ[s]| ==>
          n.outQ[s][i].id in n.loc && n.loc[n.outQ[s][i].id] == Out(s))
    && (forall s, i, j {:trigger n.outQ[s][i], n.outQ[s][j]} :: 0 <= s < |n.outQ| && 0 <= i < j < |n.outQ[s]| ==>
          n.outQ[s][i].id != n.outQ[s][j].id)
  }

  /** Each request is in exactly one queue slot, or done, and never beyond its
      final stage: `loc` says where, and no queue holds an id twice. */
  ghost predicate Placed(p: Pipeline, n: Net) {
    && Shaped(p, n)
    && InPlaced(n)
    && OutPlaced(n)
    && (forall id :: id in n.loc ==> LocOk(p, n, id))
  }

  ghost predicate LocOk(p: Pipeline, n: Net, id: Id)
    requires id in n.loc && id in p.final
  {
    match n.loc[id]
    case In(s) => s <= p.final[id] && exists i :: InAt(n, s, i, id)
    case Out(s) => s <= p.final[id] && exists i :: OutAt(n, s, i, id)
    case Done => true
  }

  lemma SeedPlaced(p: Pipeline)
    requires p.Valid()
    ensures Placed(p, Seed(p))
  {
    var n := Seed(p);
    forall id | id in n.loc ensures LocOk(p, n, id) {
      var k :| 0 <= k < |p.ids| && p.ids[k] == id;
      assert InAt(n, 0, k, id);
    }
  }

  lemma DeliverPlaced(p: Pipeline, n: Net, s: nat, i: nat)
    requires Placed(p, n) && s < p.Stages() && i < |n.inQ[s]|
    ensures Placed(p, Deliver(n, s, i))
  {
    DeliverIn(p, n, s, i);
    DeliverOut(p, n, s, i);
    DeliverLoc(p, n, s, i);
  }

  lemma DeliverIn(p: Pipeline, n: Net, s: nat, i: nat)
    requires Placed(p, n) && s < p.Stages() && i < |n.inQ[s]|
    ensures InPlaced(Deliver(n, s, i))
  {
    var t := Deliver(n, s, i);
    assert forall j :: 0 <= j < |t.inQ[s]| ==> t.inQ[s][j] == n.inQ[s][if j < i then j else j + 1];
    forall r, j {:trigger t.inQ[r][j]} | 0 <= r < |t.inQ| && 0 <= j < |t.inQ[r]|
      ensures t.inQ[r][j].id in t.loc && t.loc[t.inQ[r][j].id] == In(r)
    {
      if r == s {
        var k := if j < i then j else j + 1;
        assert n.inQ[s][k].id != n.inQ[s][i].id;
      } else {
        assert n.loc[n.inQ[r][j].id] == In(r) && n.loc[n.inQ[s][i].id] == In(s);
      }
    }
  }

  lemma DeliverOut(p: Pipeline, n: Net, s: nat, i: nat)
    requires Placed(p, n) && s < p.Stages() && i < |n.inQ[s]|
    ensures OutPlaced(Deliver(n, s, i))
  {
    var t := Deliver(n, s, i);
    assert n.loc[n.inQ[s][i].id] == In(s);
    forall r, j {:trigger t.outQ[r][j]} | 0 <= r < |t.outQ| && 0 <= j < |t.outQ[r]|
      ensures t.outQ[r][j].id in t.loc && t.loc[t.outQ[r][j].id] == Out(r)
    {
      if j < |n.outQ[r]| {
        assert n.loc[n.outQ[r][j].id] == Out(r);
      }
    }
  }

  lemma DeliverLoc(p: Pipeline, n: Net, s: nat, i: nat)
    requires Placed(p, n) && s < p.Stages() && i < |n.inQ[s]|
    ensures forall id :: id in n.loc ==> LocOk(p, Deliver(n, s, i), id)
  {
    var t := Deliver(n, s, i);
    var id := n.inQ[s][i].id;
    assert LocOk(p, n, id);
    assert forall j :: 0 <= j < |t.inQ[s]| ==> t.inQ[s][j] == n.inQ[s][if j < i then j else j + 1];
    forall other | other in t.loc ensures LocOk(p, t, other) {
      if other == id {
        assert OutAt(t, s, |n.outQ[s]|, id);
      } else {
        assert LocOk(p, n, other);
        match n.loc[other]
        case In(r) =>
          var j: nat :| InAt(n, r, j, other);
          assert InAt(t, r, if r == s && j > i then j - 1 else j, other);
        case Out(r) =>
          var j: nat :| OutAt(n, r, j, other);
          assert OutAt(t, r, j, other);
        case Done =>
      }
    }
  }

  lemma CollectPlaced(p: Pipeline, n: Net, s: nat)
    requires Placed(p, n) && CanCollect(p, n, s)
    ensures Placed(p, Collect(p, n, s))
  {
    CollectIn(p, n, s);
    CollectOut(p, n, s);
    CollectLoc(p, n, s);
  }

  lemma CollectIn(p: Pipeline, n: Net, s: nat)
    requires Placed(p, n) && CanCollect(p, n, s)
    ensures InPlaced(Collect(p, n, s))
  {
    var t := Collect(p, n, s);
    assert n.loc[n.outQ[s][0].id] == Out(s);
    forall r, j {:trigger t.inQ[r][j]} | 0 <= r < |t.inQ| && 0 <= j < |t.inQ[r]|
      ensures t.inQ[r][j].id in t.loc && t.loc[t.inQ[r][j].id] == In(r)
    {
      if j < |n.inQ[r]| {
        assert n.loc[n.inQ[r][j].id] == In(r);
      }
    }
  }

  lemma CollectOut(p: Pipeline, n: Net, s: nat)
    requires Placed(p, n) && CanCollect(p, n, s)
    ensures OutPlaced(Collect(p, n, s))
  {
    var t := Collect(p, n, s);
    assert forall j :: 0 <= j < |t.outQ[s]| ==> t.outQ[s][j] == n.outQ[s][j + 1];
    forall r, j {:trigger t.outQ[r][j]} | 0 <= r < |t.outQ| && 0 <= j < |t.outQ[r]|
      ensures t.outQ[r][j].id in t.loc && t.loc[t.outQ[r][j].id] == Out(r)
    {
      var k := if r == s then j + 1 else j;
      assert n.loc[n.outQ[r][k].id] == Out(r) && n.loc[n.outQ[s][0].id] == Out(s);
      assert r == s ==> n.outQ[s][0].id != n.outQ[s][k].id;
    }
  }

  lemma CollectLoc(p: Pipeline, n: Net, s: nat)
    requires Placed(p, n) && CanCollect(p, n, s)
    ensures forall id :: id in n.loc ==> LocOk(p, Collect(p, n, s), id)
  {
    var t := Collect(p, n, s);
    var id := n.outQ[s][0].id;
    assert n.loc[id] == Out(s);
    assert forall j :: 0 <= j < |t.outQ[s]| ==> t.outQ[s][j] == n.outQ[s][j + 1];
    forall other | other in t.loc ensures LocOk(p, t, other) {
      assert LocOk(p, n, other);
      if other == id {
        if s + 1 <= p.final[id] {
          assert InAt(t, s + 1, |n.inQ[s + 1]|, id);
        }
      } else {
        match n.loc[other]
        case In(r) =>
          var j: nat :| InAt(n, r, j, other);
          assert InAt(t, r, j, other);
        case Out(r) =>
          var j: nat :| OutAt(n, r, j, other);
          assert OutAt(t, r, if r == s then j - 1 else j, other);
        case Done =>
      }
    }
  }

  // ------------------------------------------------- the content of the run

  /** Every queued payload is the one of a solo run of its request. */
  ghost predicate Faithful(p: Pipeline, n: Net)
    requires Shaped(p, n)
  {
    && (forall s, i {:trigger n.inQ[s][i]} :: 0 <= s < |n.inQ| && 0 <= i < |n.inQ[s]| ==>
          n.inQ[s][i].input == p.Solo(n.inQ[s][i].id, s))
    && (forall s, i {:trigger n.outQ[s][i]} :: 0 <= s < |n.outQ| && 0 <= i < |n.outQ[s]| ==>
          n.outQ[s][i].output == p.SoloOutput(n.outQ[s][i].id, s))
  }

  /** Once a request is at stage s, every earlier stage holds some output. */
  ghost predicate Holding(p: Pipeline, n: Net)
    requires Shaped(p, n)
  {
    forall id, t: nat :: id in n.loc && t < Passed(p, n.loc, id) && t < p.Stages() ==> n.held[t].Some?
  }

  /** The number of stages whose output has been collected for a request. */
  ghost function Passed(p: Pipeline, loc: map<Id, Loc>, id: Id): nat
    requires id in loc && id in p.final
  {
    match loc[id]
    case In(s) => s
    case Out(s) => s
    case Done => p.final[id] + 1
  }

  lemma DeliverHolding(p: Pipeline, n: Net, s: nat, i: nat)
    requires Placed(p, n) && s < p.Stages() && i < |n.inQ[s]| && Holding(p, n)
    ensures Shaped(p, Deliver(n, s, i)) && Holding(p, Deliver(n, s, i))
  {
    assert n.loc[n.inQ[s][i].id] == In(s);
  }

  lemma DeliverPure(p: Pipeline, n: Net, s: nat, i: nat)
    requires Shaped(p, n) && s < p.Stages() && i < |n.inQ[s]| && Shaped(p, Deliver(n, s, i)) && Pure(p, n)
    ensures Pure(p, Deliver(n, s, i))
  {
    var t := Deliver(n, s, i);
    assert forall j :: 0 <= j < |t.inQ[s]| ==> t.inQ[s][j] == n.inQ[s][if j < i then j else j + 1];
  }

  /** A result that has been placed can be collected. */
  lemma Collectable(p: Pipeline, n: Net, s: nat)
    requires Placed(p, n) && Holding(p, n) && s < p.Stages() && n.outQ[s] != []
    ensures CanCollect(p, n, s)
  {
    var id := n.outQ[s][0].id;
    assert n.loc[id] == Out(s);
    assert Passed(p, n.loc, id) == s;
  }

  /** The payloads, and what the shared fields hold, are those of solo runs. */
  ghost predicate Pure(p: Pipeline, n: Net)
    requires Shaped(p, n)
  {
    Faithful(p, n) && HeldOwn(p, n.held)
  }

  /** Collecting from stage s moves one request past s and no other. */
  lemma CollectPassed(p: Pipeline, n: Net, s: nat)
    requires Placed(p, n) && CanCollect(p, n, s)
    ensures var t := Collect(p, n, s);
            var r := n.outQ[s][0].id;
            && r in p.ids && s <= p.final[r]
            && n.loc[r] == Out(s) && Passed(p, t.loc, r) == s + 1
            && t.loc == n.loc[r := t.loc[r]]
            && (t.loc[r] == if s < p.final[r] then In(s + 1) else Done)
            && forall id :: id in n.loc && id != r ==> Passed(p, t.loc, id) == Passed(p, n.loc, id)
  {
    assert LocOk(p, n, n.outQ[s][0].id);
  }

  lemma CollectHolding(p: Pipeline, n: Net, s: nat)
    requires Placed(p, n) && CanCollect(p, n, s) && Holding(p, n)
    ensures Shaped(p, Collect(p, n, s)) && Holding(p, Collect(p, n, s))
  {
    var t := Collect(p, n, s);
    CollectPassed(p, n, s);
    forall id, k: nat | id in t.loc && k < Passed(p, t.loc, id) && k < p.Stages() ensures t.held[k].Some? {
      assert k < Passed(p, n.loc, id) || k == s;
    }
  }

  /** In an unmixed pipeline the collected output is the request's own, and so is
      what the next stage's input is derived from. */
  lemma CollectOwn(p: Pipeline, n: Net, s: nat)
    requires Placed(p, n) && CanCollect(p, n, s) && p.Unmixed() && Pure(p, n)
    ensures var r := n.outQ[s][0];
            var held := n.held[s := Some(r.output)];
            && r.id in p.ids && r.output == p.SoloOutput(r.id, s)
            && HeldOwn(p, held)
            && (s < p.final[r.id] ==> Derived(s + 1, held[p.source[s + 1]].value, r.id) == p.Solo(r.id, s + 1))
  {
    var r := n.outQ[s][0];
    CollectPassed(p, n, s);
    StoreOwn(p, n.held, r.id, s);
    if s < p.final[r.id] {
      ReadsOwn(p, n.held[s := Some(r.output)], r.id, s);
    }
  }

  lemma CollectPure(p: Pipeline, n: Net, s: nat)
    requires Placed(p, n) && CanCollect(p, n, s) && p.Unmixed() && Pure(p, n)
    requires Shaped(p, Collect(p, n, s))
    ensures Pure(p, Collect(p, n, s))
  {
    var t := Collect(p, n, s);
    CollectOwn(p, n, s);
    forall r, i {:trigger t.inQ[r][i]} | 0 <= r < |t.inQ| && 0 <= i < |t.inQ[r]|
      ensures t.inQ[r][i].input == p.Solo(t.inQ[r][i].id, r)
    {
      assert i < |n.inQ[r]| ==> t.inQ[r][i] == n.inQ[r][i];
    }
    forall r, i {:trigger t.outQ[r][i]} | 0 <= r < |t.outQ| && 0 <= i < |t.outQ[r]|
      ensures t.outQ[r][i].output == p.SoloOutput(t.outQ[r][i].id, r)
    {
      assert t.outQ[r][i] == n.outQ[r][if r == s then i + 1 else i];
    }
  }

  // ------------------------------------------------------------ bookkeeping

  /** The stages a request's results were collected from, in order. */
  ghost function VisitsOf(visits: seq<Visit>, id: Id): seq<nat> {
    if visits == [] then []
    else
      var last := visits[|visits| - 1];
      VisitsOf(visits[..|visits| - 1], id) + if last.id == id then [last.stage] else []
  }

  /** The stages a request yielded an output from, in order. */
  ghost function YieldsOf(yielded: seq<Yield>, id: Id): seq<nat> {
    if yielded == [] then []
    else
      var last := yielded[|yielded| - 1];
      YieldsOf(yielded[..|yielded| - 1], id) + if last.id == id then [last.stage] else []
  }

  /** The stages below k that are configured to yield. */
  ghost function Yielding(p: Pipeline, k: nat): seq<nat>
    requires k <= p.Stages()
  {
    if k == 0 then [] else Yielding(p, k - 1) + if p.finalOutput[k - 1] then [k - 1] else []
  }

  /** One request was collected once from every stage it has passed, in order,
      and yielded once from each yielding stage among them. */
  ghost predicate OrderedAt(p: Pipeline, n: Net, id: Id)
    requires Shaped(p, n) && id in n.loc
  {
    && Passed(p, n.loc, id) <= p.Stages()
    && VisitsOf(n.visits, id) == Upto(Passed(p, n.loc, id))
    && YieldsOf(n.yielded, id) == Yielding(p, Passed(p, n.loc, id))
  }

  /** Every yielded output is the one of a solo run. */
  ghost predicate YieldsPure(p: Pipeline, yielded: seq<Yield>)
    requires p.Valid()
  {
    forall k :: 0 <= k < |yielded| ==>
      var y := yielded[k];
      y.stage < p.Stages() && y.output == p.SoloOutput(y.id, y.stage)
  }

  ghost predicate Ordered(p: Pipeline, n: Net)
    requires Shaped(p, n)
  {
    && (forall id :: id in n.loc ==> OrderedAt(p, n, id))
    && (forall k :: 0 <= k < |n.visits| ==> n.visits[k].id in n.loc)
    && (p.Unmixed() ==> YieldsPure(p, n.yielded))
  }

  lemma VisitSnoc(visits: seq<Visit>, v: Visit, id: Id)
    ensures VisitsOf(visits + [v], id) == VisitsOf(visits, id) + if v.id == id then [v.stage] else []
  {
    assert (visits + [v])[..|visits|] == visits;
  }

  lemma YieldSnoc(yielded: seq<Yield>, y: Yield, id: Id)
    ensures YieldsOf(yielded + [y], id) == YieldsOf(yielded, id) + if y.id == id then [y.stage] else []
  {
    assert (yielded + [y])[..|yielded|] == yielded;
  }

  lemma VisitGrows(visits: seq<Visit>, v: Visit, after: seq<Visit>, id: Id, k: nat, next: nat)
    requires VisitsOf(visits, id) == Upto(k) && (v.id == id ==> v.stage == k)
    requires after == visits + [v] && next == k + if v.id == id then 1 else 0
    ensures VisitsOf(after, id) == Upto(next)
  {
    VisitSnoc(visits, v, id);
  }

  lemma YieldGrows(p: Pipeline, yielded: seq<Yield>, y: Yield, after: seq<Yield>, id: Id, k: nat, next: nat)
    requires k <= p.Stages() && YieldsOf(yielded, id) == Yielding(p, k)
    requires y.stage < p.Stages() && (y.id == id ==> y.stage == k)
    requires after == (if p.finalOutput[y.stage] then yielded + [y] else yielded)
    requires next == k + if y.id == id then 1 else 0
    ensures next <= p.Stages() && YieldsOf(after, id) == Yielding(p, next)
  {
    YieldSnoc(yielded, y, id);
  }

  lemma OrderedAfter(p: Pipeline, n: Net, t: Net, r: Result, s: nat, id: Id)
    requires Shaped(p, n) && Shaped(p, t) && s < p.Stages() && id in n.loc && id in t.loc && OrderedAt(p, n, id)
    requires t.visits == n.visits + [Visit(r.id, s)]
    requires t.yielded == if p.finalOutput[s] then n.yielded + [Yield(r.id, s, r.output)] else n.yielded
    requires Passed(p, t.loc, id) == Passed(p, n.loc, id) + if id == r.id then 1 else 0
    requires id == r.id ==> Passed(p, n.loc, id) == s
    ensures OrderedAt(p, t, id)
  {
    var k, next := Passed(p, n.loc, id), Passed(p, t.loc, id);
    VisitGrows(n.visits, Visit(r.id, s), t.visits, id, k, next);
    YieldGrows(p, n.yielded, Yield(r.id, s, r.output), t.yielded, id, k, next);
  }

  /** What collecting from stage s adds to the histories. */
  lemma CollectHistory(p: Pipeline, n: Net, s: nat)
    requires CanCollect(p, n, s)
    ensures var t, r := Collect(p, n, s), n.outQ[s][0];
            && t.visits == n.visits + [Visit(r.id, s)]
            && t.yielded == if p.finalOutput[s] then n.yielded + [Yield(r.id, s, r.output)] else n.yielded
  {
  }

  lemma YieldsAfter(p: Pipeline, n: Net, t: Net, r: Result, s: nat)
    requires p.Valid() && s < p.Stages() && YieldsPure(p, n.yielded) && r.output == p.SoloOutput(r.id, s)
    requires t.yielded == if p.finalOutput[s] then n.yielded + [Yield(r.id, s, r.output)] else n.yielded
    ensures YieldsPure(p, t.yielded)
  {
  }

  lemma CollectOrdered(p: Pipeline, n: Net, s: nat)
    requires Placed(p, n) && CanCollect(p, n, s) && Ordered(p, n) && Shaped(p, Collect(p, n, s))
    requires p.Unmixed() ==> Pure(p, n)
    ensures Ordered(p, Collect(p, n, s))
  {
    var r := n.outQ[s][0];
    CollectPassed(p, n, s);
    CollectHistory(p, n, s);
    OrderedNext(p, n, Collect(p, n, s), r, s);
    if p.Unmixed() {
      CollectOwn(p, n, s);
      YieldsAfter(p, n, Collect(p, n, s), r, s);
    }
  }

  lemma OrderedNext(p: Pipeline, n: Net, t: Net, r: Result, s: nat)
    requires Shaped(p, n) && Shaped(p, t) && s < p.Stages() && Ordered(p, n) && r.id in n.loc
    requires t.visits == n.visits + [Visit(r.id, s)]
    requires t.yielded == if p.finalOutput[s] then n.yielded + [Yield(r.id, s, r.output)] else n.yielded
    requires Passed(p, n.loc, r.id) == s && Passed(p, t.loc, r.id) == s + 1
    requires forall id :: id in n.loc && id != r.id ==> Passed(p, t.loc, id) == Passed(p, n.loc, id)
    ensures forall id :: id in t.loc ==> OrderedAt(p, t, id)
    ensures forall k :: 0 <= k < |t.visits| ==> t.visits[k].id in t.loc
  {
    forall id | id in t.loc ensures OrderedAt(p, t, id) {
      OrderedAfter(p, n, t, r, s, id);
    }
  }

  ghost function DoneWeights(loc: map<Id, Loc>): map<Id, int> {
    map id | id in loc :: if loc[id].Done? then 1 else 0
  }

  /** 1 for a request that was submitted to stage s. */
  ghost function ReachWeights(p: Pipeline, loc: map<Id, Loc>, s: nat): map<Id, int>
    requires loc.Keys <= p.final.Keys
  {
    map id | id in loc :: if s <= Min(Passed(p, loc, id), p.final[id]) then 1 else 0
  }

  /** The queue moves a request still has to make. */
  ghost function Hops(p: Pipeline, loc: map<Id, Loc>): map<Id, int>
    requires loc.Keys <= p.final.Keys
  {
    map id | id in loc ::
      match loc[id]
      case In(s) => 2 * (p.final[id] - s) + 2
      case Out(s) => 2 * (p.final[id] - s) + 1
      case Done => 0
  }

  ghost function Cost(p: Pipeline, n: Net): int
    requires Shaped(p, n)
  {
    Total(p.ids, Hops(p, n.loc))
  }

  /** The counters count what they say. */
  ghost predicate Counted(p: Pipeline, n: Net)
    requires Shaped(p, n)
  {
    && n.completed == Total(p.ids, DoneWeights(n.loc))
    && forall s :: 0 <= s < p.Stages() ==> n.remaining[s] == Total(p.ids, ReachWeights(p, n.loc, s))
  }

  /** Delivering a task passes no request on. */
  lemma DeliverPassed(p: Pipeline, n: Net, s: nat, i: nat)
    requires Placed(p, n) && s < p.Stages() && i < |n.inQ[s]|
    ensures var t := Deliver(n, s, i);
            var id := n.inQ[s][i].id;
            && Shaped(p, t)
            && id in p.ids && n.loc[id] == In(s) && t.loc == n.loc[id := Out(s)]
            && forall x :: x in n.loc ==> Passed(p, t.loc, x) == Passed(p, n.loc, x)
  {
  }

  lemma DeliverTotals(p: Pipeline, before: map<Id, Loc>, after: map<Id, Loc>, id: Id, s: nat)
    requires p.Valid() && before.Keys == ToSet(p.ids) && id in p.ids
    requires before[id] == In(s) && after == before[id := Out(s)]
    ensures Total(p.ids, DoneWeights(after)) == Total(p.ids, DoneWeights(before))
    ensures Total(p.ids, Hops(p, after)) == Total(p.ids, Hops(p, before)) - 1
    ensures forall r: nat :: Total(p.ids, ReachWeights(p, after, r)) == Total(p.ids, ReachWeights(p, before, r))
  {
    TotalUpdate(p.ids, Hops(p, before), Hops(p, after), id);
    TotalSame(p.ids, DoneWeights(before), DoneWeights(after));
    forall r: nat ensures Total(p.ids, ReachWeights(p, after, r)) == Total(p.ids, ReachWeights(p, before, r)) {
      TotalSame(p.ids, ReachWeights(p, before, r), ReachWeights(p, after, r));
    }
  }

  lemma DeliverCounted(p: Pipeline, n: Net, s: nat, i: nat)
    requires Placed(p, n) && s < p.Stages() && i < |n.inQ[s]|
    ensures var t := Deliver(n, s, i);
            && Shaped(p, t)
            && (Counted(p, n) ==> Counted(p, t))
            && (Ordered(p, n) ==> Ordered(p, t))
            && Cost(p, t) == Cost(p, n) - 1
  {
    DeliverPassed(p, n, s, i);
    DeliverTotals(p, n.loc, Deliver(n, s, i).loc, n.inQ[s][i].id, s);
  }

  /** Moving one request on to stage s + 1 adds it to that stage's reach only. */
  lemma ReachStep(p: Pipeline, before: map<Id, Loc>, after: map<Id, Loc>, id: Id, s: nat, r: nat)
    requires p.Valid() && before.Keys == after.Keys == ToSet(p.ids) && id in p.ids && s <= p.final[id]
    requires before[id] == Out(s) && after == before[id := if s < p.final[id] then In(s + 1) else Done]
    ensures Total(p.ids, ReachWeights(p, after, r))
            == Total(p.ids, ReachWeights(p, before, r)) + if s < p.final[id] && r == s + 1 then 1 else 0
  {
    TotalUpdate(p.ids, ReachWeights(p, before, r), ReachWeights(p, after, r), id);
  }

  lemma CollectTotals(p: Pipeline, before: map<Id, Loc>, after: map<Id, Loc>, id: Id, s: nat)
    requires p.Valid() && before.Keys == after.Keys == ToSet(p.ids) && id in p.ids && s <= p.final[id]
    requires before[id] == Out(s) && after == before[id := if s < p.final[id] then In(s + 1) else Done]
    ensures Total(p.ids, DoneWeights(after)) == Total(p.ids, DoneWeights(before)) + if s < p.final[id] then 0 else 1
    ensures Total(p.ids, Hops(p, after)) == Total(p.ids, Hops(p, before)) - 1
  {
    TotalUpdate(p.ids, Hops(p, before), Hops(p, after), id);
    TotalUpdate(p.ids, DoneWeights(before), DoneWeights(after), id);
  }

  lemma RemainingAfter(p: Pipeline, n: Net, t: Net, id: Id, s: nat, r: nat)
    requires Shaped(p, n) && Shaped(p, t) && r < p.Stages() && id in p.ids && s <= p.final[id]
    requires n.remaining[r] == Total(p.ids, ReachWeights(p, n.loc, r))
    requires n.loc[id] == Out(s) && t.loc == n.loc[id := if s < p.final[id] then In(s + 1) else Done]
    requires t.remaining == if s < p.final[id] then n.remaining[s + 1 := n.remaining[s + 1] + 1] else n.remaining
    ensures t.remaining[r] == Total(p.ids, ReachWeights(p, t.loc, r))
  {
    ReachStep(p, n.loc, t.loc, id, s, r);
  }

  lemma CountedAfter(p: Pipeline, n: Net, t: Net, id: Id, s: nat)
    requires Shaped(p, n) && Shaped(p, t) && Counted(p, n) && id in p.ids && s <= p.final[id]
    requires n.loc[id] == Out(s) && t.loc == n.loc[id := if s < p.final[id] then In(s + 1) else Done]
    requires t.completed == n.completed + if s < p.final[id] then 0 else 1
    requires t.remaining == if s < p.final[id] then n.remaining[s + 1 := n.remaining[s + 1] + 1] else n.remaining
    ensures Counted(p, t) && Cost(p, t) == Cost(p, n) - 1
  {
    CollectTotals(p, n.loc, t.loc, id, s);
    forall r: nat | r < p.Stages() ensures t.remaining[r] == Total(p.ids, ReachWeights(p, t.loc, r)) {
      RemainingAfter(p, n, t, id, s, r);
    }
  }

  lemma CollectCounted(p: Pipeline, n: Net, s: nat)
    requires Placed(p, n) && CanCollect(p, n, s) && Counted(p, n) && Shaped(p, Collect(p, n, s))
    ensures Counted(p, Collect(p, n, s)) && Cost(p, Collect(p, n, s)) == Cost(p, n) - 1
  {
    CollectPassed(p, n, s);
    CountedAfter(p, n, Collect(p, n, s), n.outQ[s][0].id, s);
  }

  // ------------------------------------------------------------- whole runs

  ghost predicate Inv(p: Pipeline, n: Net) {
    && Placed(p, n)
    && Holding(p, n)
    && Ordered(p, n)
    && Counted(p, n)
    && (p.Unmixed() ==> Pure(p, n))
  }

  datatype Action = Work(stage: nat, index: nat) | Poll(stage: nat)

  predicate Enabled(p: Pipeline, n: Net, a: Action) {
    match a
    case Work(s, i) => s < |n.inQ| == |n.outQ| && i < |n.inQ[s]|
    case Poll(s) => CanCollect(p, n, s)
  }

  function Apply(p: Pipeline, n: Net, a: Action): Net
    requires Enabled(p, n, a)
  {
    match a
    case Work(s, i) => Deliver(n, s, i)
    case Poll(s) => Collect(p, n, s)
  }

  lemma SeedCounted(p: Pipeline)
    requires p.Valid() && Shaped(p, Seed(p))
    ensures Counted(p, Seed(p))
  {
    var n := Seed(p);
    TotalConstant(p.ids, DoneWeights(n.loc), 0);
    forall s: nat | s < p.Stages() ensures n.remaining[s] == Total(p.ids, ReachWeights(p, n.loc, s)) {
      TotalConstant(p.ids, ReachWeights(p, n.loc, s), if s == 0 then 1 else 0);
    }
  }

  lemma SeedOrdered(p: Pipeline)
    requires p.Valid() && Shaped(p, Seed(p))
    ensures Ordered(p, Seed(p)) && Holding(p, Seed(p))
  {
  }

  lemma SeedPure(p: Pipeline)
    requires p.Valid() && Shaped(p, Seed(p))
    ensures Pure(p, Seed(p))
  {
  }

  lemma SeedInv(p: Pipeline)
    requires p.Valid()
    ensures Inv(p, Seed(p))
  {
    SeedPlaced(p);
    SeedCounted(p);
    SeedOrdered(p);
    SeedPure(p);
  }

  lemma CollectInv(p: Pipeline, n: Net, s: nat)
    requires Inv(p, n) && CanCollect(p, n, s)
    ensures Inv(p, Collect(p, n, s)) && Cost(p, Collect(p, n, s)) == Cost(p, n) - 1
  {
    CollectPlaced(p, n, s);
    CollectHolding(p, n, s);
    if p.Unmixed() {
      CollectPure(p, n, s);
    }
    CollectOrdered(p, n, s);
    CollectCounted(p, n, s);
  }

  /** Every step of a worker or of the orchestrator keeps the invariant and
      uses up one of the moves that were left. */
  lemma StepInv(p: Pipeline, n: Net, a: Action)
    requires Inv(p, n) && Enabled(p, n, a)
    ensures Inv(p, Apply(p, n, a)) && Cost(p, Apply(p, n, a)) == Cost(p, n) - 1
  {
    match a
    case Work(s, i) =>
      DeliverPlaced(p, n, s, i);
      DeliverHolding(p, n, s, i);
      if p.Unmixed() {
        DeliverPure(p, n, s, i);
      }
      DeliverCounted(p, n, s, i);
    case Poll(s) =>
      CollectInv(p, n, s);
  }

  /** As long as a request is unfinished, some step is enabled. */
  lemma SomeStep(p: Pipeline, n: Net) returns (a: Action)
    requires Inv(p, n) && n.completed < |p.ids|
    ensures Enabled(p, n, a)
  {
    if forall id :: id in p.ids ==> n.loc[id].Done? {
      TotalConstant(p.ids, DoneWeights(n.loc), 1);
      assert false;
    }
    var id :| id in p.ids && !n.loc[id].Done?;
    assert LocOk(p, n, id);
    match n.loc[id]
    case In(s) =>
      var i: nat :| InAt(n, s, i, id);
      a := Work(s, i);
    case Out(s) =>
      Collectable(p, n, s);
      a := Poll(s);
  }

  ghost predicate IsRun(p: Pipeline, actions: seq<Action>, states: seq<Net>) {
    && p.Valid()
    && |states| == |actions| + 1 && states[0] == Seed(p)
    && forall i :: 0 <= i < |actions| ==>
         Enabled(p, states[i], actions[i]) && states[i + 1] == Apply(p, states[i], actions[i])
  }

  /** At every moment of every interleaving each request is in one place, has
      passed its stages in order, and carries the payload of its solo run;
      every step uses up exactly one of the moves counted at the start. */
  lemma {:induction false} RunInv(p: Pipeline, actions: seq<Action>, states: seq<Net>)
    requires IsRun(p, actions, states)
    ensures Inv(p, states[|actions|])
    ensures Cost(p, states[|actions|]) == Cost(p, Seed(p)) - |actions|
  {
    if actions == [] {
      SeedInv(p);
    } else {
      var n := |actions| - 1;
      RunInv(p, actions[..n], states[..n + 1]);
      assert states[..n + 1][n] == states[n];
      StepInv(p, states[n], actions[n]);
    }
  }

  lemma DoneTotal(ids: seq<Id>, loc: map<Id, Loc>)
    requires forall id :: id in ids ==> id in loc
    ensures Total(ids, DoneWeights(loc)) <= |ids|
    ensures Total(ids, DoneWeights(loc)) == |ids| <==> forall id :: id in ids ==> loc[id].Done?
  {
    var open := map id | id in loc :: 1 - DoneWeights(loc)[id];
    OpenCount(ids, DoneWeights(loc), open);
    TotalZero(ids, open);
    assert forall id :: id in loc ==> (loc[id].Done? <==> open[id] == 0);
  }

  lemma AllDone(p: Pipeline, n: Net)
    requires Inv(p, n)
    ensures n.completed <= |p.ids|
    ensures n.completed == |p.ids| <==> forall id :: id in p.ids ==> n.loc[id].Done?
  {
    DoneTotal(p.ids, n.loc);
  }

  /** A place on the way of a request. */
  predicate OnWay(p: Pipeline, id: Id, l: Loc)
    requires id in p.final
  {
    match l
    case In(s) => s <= p.final[id]
    case Out(s) => s <= p.final[id]
    case Done => true
  }

  lemma HopsTotal(p: Pipeline, loc: map<Id, Loc>)
    requires p.Valid() && loc.Keys == ToSet(p.ids) && forall id :: id in loc ==> OnWay(p, id, loc[id])
    ensures Total(p.ids, Hops(p, loc)) >= 0
    ensures Total(p.ids, Hops(p, loc)) == 0 <==> forall id :: id in p.ids ==> loc[id].Done?
  {
    TotalZero(p.ids, Hops(p, loc));
    assert forall id :: id in loc ==> (loc[id].Done? <==> Hops(p, loc)[id] == 0);
  }

  lemma CostLeft(p: Pipeline, n: Net)
    requires Inv(p, n)
    ensures Cost(p, n) >= 0
    ensures Cost(p, n) == 0 <==> forall id :: id in p.ids ==> n.loc[id].Done?
  {
    forall id | id in n.loc ensures OnWay(p, id, n.loc[id]) {
      assert LocOk(p, n, id);
    }
    HopsTotal(p, n.loc);
  }

  /** An enabled step is about some unfinished request. */
  lemma EnabledIsOpen(p: Pipeline, n: Net, a: Action) returns (id: Id)
    requires Placed(p, n)
    ensures Enabled(p, n, a) ==> id in p.ids && !n.loc[id].Done?
  {
    id := "";
    if Enabled(p, n, a) {
      match a
      case Work(s, i) => id := n.inQ[s][i].id;
      case Poll(s) => id := n.outQ[s][0].id;
    }
  }

  /** The loop's exit condition holds exactly when no worker and no poll can
      do anything more, and exactly when no move is left. */
  lemma DoneIffIdle(p: Pipeline, n: Net)
    requires Inv(p, n)
    ensures n.completed == |p.ids| <==> forall a :: !Enabled(p, n, a)
    ensures n.completed == |p.ids| <==> Cost(p, n) == 0
  {
    AllDone(p, n);
    CostLeft(p, n);
    if n.completed == |p.ids| {
      forall a ensures !Enabled(p, n, a) {
        var id := EnabledIsOpen(p, n, a);
      }
    } else {
      var a := SomeStep(p, n);
    }
  }

  lemma {:induction false} OpenCount(ids: seq<Id>, done: map<Id, int>, open: map<Id, int>)
    requires forall id :: id in ids ==> id in done && id in open && open[id] == 1 - done[id]
    ensures Total(ids, open) == |ids| - Total(ids, done)
  {
    if ids != [] {
      OpenCount(ids[..|ids| - 1], done, open);
    }
  }

  /** A finished net: each request went once through stages 0 to its final one,
      in order, yielded once from each yielding stage on the way, and, when each
      stage is fed by its predecessor, every yield is that of a solo run. */
  ghost predicate Finished(p: Pipeline, n: Net)
    requires p.Valid()
  {
    && n.completed == |p.ids|
    && (forall id :: id in p.ids ==>
          && VisitsOf(n.visits, id) == Upto(p.final[id] + 1)
          && YieldsOf(n.yielded, id) == Yielding(p, p.final[id] + 1))
    && (p.Unmixed() ==> YieldsPure(p, n.yielded))
  }

  lemma IdleFinished(p: Pipeline, n: Net)
    requires Inv(p, n) && forall a :: !Enabled(p, n, a)
    ensures Finished(p, n) && Cost(p, n) == 0
  {
    DoneIffIdle(p, n);
    ExitFinished(p, n);
  }

  /** Every run that cannot go on has finished every request. */
  lemma StuckIsFinished(p: Pipeline, actions: seq<Action>, states: seq<Net>)
    requires IsRun(p, actions, states)
    requires forall a :: !Enabled(p, states[|actions|], a)
    ensures Finished(p, states[|actions|])
    ensures |actions| == Cost(p, Seed(p))
  {
    RunInv(p, actions, states);
    IdleFinished(p, states[|actions|]);
  }

  lemma RunSnoc(p: Pipeline, actions: seq<Action>, states: seq<Net>, a: Action)
    requires IsRun(p, actions, states) && Enabled(p, states[|actions|], a)
    ensures IsRun(p, actions + [a], states + [Apply(p, states[|actions|], a)])
  {
    var longer := states + [Apply(p, states[|actions|], a)];
    forall i | 0 <= i < |actions + [a]|
      ensures Enabled(p, longer[i], (actions + [a])[i]) && longer[i + 1] == Apply(p, longer[i], (actions + [a])[i])
    {
      assert longer[i] == states[i];
      assert i < |actions| ==> longer[i + 1] == states[i + 1];
    }
  }

  /** An unfinished run has a further step, and not all its moves are used. */
  lemma Unfinished(p: Pipeline, actions: seq<Action>, states: seq<Net>) returns (a: Action)
    requires IsRun(p, actions, states) && states[|actions|].completed < |p.ids|
    ensures Enabled(p, states[|actions|], a)
    ensures Shaped(p, Seed(p)) && Cost(p, Seed(p)) > |actions|
  {
    RunInv(p, actions, states);
    SeedPlaced(p);
    CostLeft(p, states[|actions|]);
    DoneIffIdle(p, states[|actions|]);
    a := SomeStep(p, states[|actions|]);
  }

  lemma CompletedBound(p: Pipeline, actions: seq<Action>, states: seq<Net>)
    requires IsRun(p, actions, states)
    ensures states[|actions|].completed <= |p.ids|
  {
    RunInv(p, actions, states);
    AllDone(p, states[|actions|]);
  }

  /** Every run can be continued until every request is done. */
  lemma {:induction false} RunOn(p: Pipeline, actions: seq<Action>, states: seq<Net>, left: int)
    returns (longer: seq<Action>, more: seq<Net>)
    requires IsRun(p, actions, states) && Shaped(p, Seed(p)) && left == Cost(p, Seed(p)) - |actions|
    ensures IsRun(p, longer, more) && more[|longer|].completed == |p.ids|
    decreases left
  {
    CompletedBound(p, actions, states);
    longer, more := actions, states;
    if states[|actions|].completed < |p.ids| {
      var a := Unfinished(p, actions, states);
      RunSnoc(p, actions, states, a);
      longer, more := RunOn(p, actions + [a], states + [Apply(p, states[|actions|], a)], left - 1);
    }
  }

  lemma FinishedRun(p: Pipeline) returns (actions: seq<Action>, states: seq<Net>)
    requires p.Valid()
    ensures IsRun(p, actions, states) && states[|actions|].completed == |p.ids|
  {
    SeedPlaced(p);
    actions, states := RunOn(p, [], [Seed(p)], Cost(p, Seed(p)));
  }

  // ------------------------------------------------- the orchestrator's loop

  /** From m to n the first s stages have been polled. When that used up no
      move, nobody has worked and nothing was there to collect. There is progress
      exactly when some result was collected. */
  ghost predicate Polled(p: Pipeline, m: Net, n: Net, progress: bool, s: nat) {
    && Inv(p, m) && Inv(p, n) && s <= p.Stages()
    && Cost(p, n) <= Cost(p, m)
    && (progress ==> Cost(p, n) < Cost(p, m))
    && |m.visits| <= |n.visits| && (progress <==> |n.visits| > |m.visits|)
    && (Cost(p, n) == Cost(p, m) ==>
          n.completed == m.completed && forall r :: 0 <= r < s ==> n.outQ[r] == [])
  }

  lemma PolledNext(p: Pipeline, m: Net, n: Net, t: Net, progress: bool, collected: bool, s: nat)
    requires Polled(p, m, n, progress, s) && s < p.Stages() && Inv(p, t) && Cost(p, t) <= Cost(p, n)
    requires collected ==> Cost(p, t) < Cost(p, n)
    requires |t.visits| == |n.visits| + if collected then 1 else 0
    requires Cost(p, t) == Cost(p, n) ==> t.completed == n.completed && t.outQ == n.outQ && t.outQ[s] == []
    ensures Polled(p, m, t, progress || collected, s + 1)
  {
  }

  /** The stage objects as the orchestrator sees them. */
  class Omni {
    const p: Pipeline
    var inQ: seq<seq<Task>>
    var outQ: seq<seq<Result>>
    var held: seq<Option<Output>>
    ghost var loc: map<Id, Loc>
    ghost var visits: seq<Visit>

    constructor (p: Pipeline)
      requires p.Valid()
      ensures this.p == p && |inQ| == |outQ| == |held| == p.Stages()
      ensures inQ == seq(p.Stages(), s => []) && outQ == seq(p.Stages(), s => []) && held == seq(p.Stages(), s => None)
    {
      this.p := p;
      inQ, outQ, held := seq(p.Stages(), s => []), seq(p.Stages(), s => []), seq(p.Stages(), s => None);
      loc, visits := map[], [];
    }

    /** The whole state, given the local variables of the scheduling loop. */
    ghost function At(completed: nat, remaining: seq<nat>, yielded: seq<Yield>): Net
      reads this
    {
      Net(inQ, outQ, held, completed, remaining, yielded, loc, visits)
    }

    /** A worker of stage s finishes the task at position i. */
    method WorkerDelivers(s: nat, i: nat, ghost completed: nat, ghost remaining: seq<nat>, ghost yielded: seq<Yield>)
      requires s < |inQ| == |outQ| && i < |inQ[s]|
      modifies this`inQ, this`outQ, this`loc
      ensures At(completed, remaining, yielded) == old(Deliver(At(completed, remaining, yielded), s, i))
    {
      var task := inQ[s][i];
      inQ := inQ[s := Without(inQ[s], i)];
      outQ := outQ[s := outQ[s] + [Result(task.id, Generated(s, task.input))]];
      loc := loc[task.id := Out(s)];
    }

    /** Some worker finishes some task. */
    method WorkerRuns(ghost completed: nat, ghost remaining: seq<nat>, ghost yielded: seq<Yield>)
      requires Inv(p, At(completed, remaining, yielded)) && exists s :: 0 <= s < |inQ| && inQ[s] != []
      modifies this`inQ, this`outQ, this`loc
      ensures Inv(p, At(completed, remaining, yielded))
      ensures 0 <= Cost(p, At(completed, remaining, yielded)) == old(Cost(p, At(completed, remaining, yielded))) - 1
    {
      var s :| 0 <= s < |inQ| && inQ[s] != [];
      var i: nat :| i < |inQ[s]|;
      StepInv(p, At(completed, remaining, yielded), Work(s, i));
      CostLeft(p, Deliver(At(completed, remaining, yielded), s, i));
      WorkerDelivers(s, i, completed, remaining, yielded);
    }

    /** The workers run for a while: any number of tasks of any stages finish,
        and at least one when the orchestrator is waiting for them. */
    method WorkersRun(waiting: bool, ghost completed: nat, ghost remaining: seq<nat>, ghost yielded: seq<Yield>)
      requires Inv(p, At(completed, remaining, yielded))
      modifies this`inQ, this`outQ, this`loc
      ensures var n := At(completed, remaining, yielded);
              var m := old(At(completed, remaining, yielded));
              && Inv(p, n) && Cost(p, n) <= Cost(p, m)
              && (Cost(p, n) == Cost(p, m) ==> outQ == old(outQ))
              && (waiting && (forall s :: 0 <= s < p.Stages() ==> old(outQ)[s] == []) && completed < |p.ids| ==>
                    Cost(p, n) < Cost(p, m))
    {
      ghost var m := At(completed, remaining, yielded);
      if completed < |p.ids| {
        ghost var a := SomeStep(p, m);
        assert a.Work? ==> a.stage < |inQ| && inQ[a.stage] != [];
      }
      if !exists s :: 0 <= s < |inQ| && inQ[s] != [] {
        return;
      }
      var more := true;
      if !waiting {
        more := *;
      }
      while more && exists s :: 0 <= s < |inQ| && inQ[s] != []
        invariant Inv(p, At(completed, remaining, yielded))
        invariant (At(completed, remaining, yielded) == m && (waiting ==> more))
                  || Cost(p, At(completed, remaining, yielded)) < Cost(p, m)
        decreases Cost(p, At(completed, remaining, yielded))
      {
        WorkerRuns(completed, remaining, yielded);
        more := *;
      }
    }

    /** Submits every request to stage 0. */
    method SeedStage0()
      requires p.Valid() && |inQ| == |outQ| == |held| == p.Stages()
      requires inQ == seq(p.Stages(), s => []) && outQ == seq(p.Stages(), s => []) && held == seq(p.Stages(), s => None)
      modifies this`inQ, this`loc, this`visits
      ensures At(0, [|p.ids|] + seq(p.Stages() - 1, _ => 0), []) == Seed(p)
    {
      for k := 0 to |p.ids|
        invariant |inQ| == p.Stages() && inQ[0] == SeedTasks(p.ids[..k])
        invariant forall s :: 0 < s < p.Stages() ==> inQ[s] == []
      {
        inQ := inQ[0 := inQ[0] + [Task(p.ids[k], Prompt(p.ids[k]))]];
        assert SeedTasks(p.ids[..k + 1]) == SeedTasks(p.ids[..k]) + [Task(p.ids[k], Prompt(p.ids[k]))];
      }
      assert p.ids[..|p.ids|] == p.ids;
      loc := map id | id in p.ids :: In(0);
      visits := [];
    }

    /** Takes the first result of stage s and forwards or completes its request. */
    method Take(s: nat, completed: nat, remaining: seq<nat>, yielded: seq<Yield>)
      returns (completed': nat, remaining': seq<nat>, yielded': seq<Yield>)
      requires CanCollect(p, At(completed, remaining, yielded), s)
      modifies this
      ensures At(completed', remaining', yielded') == Collect(p, old(At(completed, remaining, yielded)), s)
    {
      completed', remaining', yielded' := completed, remaining, yielded;
      var r := outQ[s][0];
      outQ := outQ[s := outQ[s][1..]];
      held := held[s := Some(r.output)];
      visits := visits + [Visit(r.id, s)];
      if p.finalOutput[s] {
        yielded' := yielded' + [Yield(r.id, s, r.output)];
      }
      if s + 1 <= p.final[r.id] {
        var input := Derived(s + 1, held[p.source[s + 1]].value, r.id);
        inQ := inQ[s + 1 := inQ[s + 1] + [Task(r.id, input)]];
        remaining' := remaining'[s + 1 := remaining'[s + 1] + 1];
        loc := loc[r.id := In(s + 1)];
      } else {
        completed' := completed' + 1;
        loc := loc[r.id := Done];
      }
    }

    /** Polls stage s once. */
    method TryCollect(s: nat, completed: nat, remaining: seq<nat>, yielded: seq<Yield>)
      returns (collected: bool, completed': nat, remaining': seq<nat>, yielded': seq<Yield>)
      requires s < p.Stages() && Inv(p, At(completed, remaining, yielded))
      modifies this
      ensures collected == (old(outQ)[s] != [])
      ensures collected ==> CanCollect(p, old(At(completed, remaining, yielded)), s)
      ensures var n := old(At(completed, remaining, yielded));
              At(completed', remaining', yielded') == if collected then Collect(p, n, s) else n
      ensures Inv(p, At(completed', remaining', yielded'))
      ensures Cost(p, At(completed', remaining', yielded'))
              == old(Cost(p, At(completed, remaining, yielded))) - if collected then 1 else 0
      ensures |visits| == |old(visits)| + if collected then 1 else 0
    {
      completed', remaining', yielded' := completed, remaining, yielded;
      collected := outQ[s] != [];
      if collected {
        Collectable(p, At(completed, remaining, yielded), s);
        StepInv(p, At(completed, remaining, yielded), Poll(s));
        CollectHistory(p, At(completed, remaining, yielded), s);
        completed', remaining', yielded' := Take(s, completed, remaining, yielded);
      }
    }

    /** Polls stage s once the workers have run for a while. When that uses up no
        move, nobody has worked and nothing was there to collect. */
    method PollOne(s: nat, completed: nat, remaining: seq<nat>, yielded: seq<Yield>)
      returns (collected: bool, completed': nat, remaining': seq<nat>, yielded': seq<Yield>)
      requires s < p.Stages() && Inv(p, At(completed, remaining, yielded))
      modifies this
      ensures Inv(p, At(completed', remaining', yielded'))
      ensures var n, m := At(completed', remaining', yielded'), old(At(completed, remaining, yielded));
              && Cost(p, n) <= Cost(p, m)
              && (collected ==> Cost(p, n) < Cost(p, m))
              && (Cost(p, n) == Cost(p, m) ==> completed' == completed && outQ == old(outQ) && outQ[s] == [])
      ensures |visits| == |old(visits)| + if collected then 1 else 0
    {
      WorkersRun(false, completed, remaining, yielded);
      collected, completed', remaining', yielded' := TryCollect(s, completed, remaining, yielded);
    }

    /** One more stage of the pass. */
    method PollNext(ghost m: Net, s: nat, progress: bool, completed: nat, remaining: seq<nat>, yielded: seq<Yield>)
      returns (progress': bool, completed': nat, remaining': seq<nat>, yielded': seq<Yield>)
      requires s < p.Stages() && Polled(p, m, At(completed, remaining, yielded), progress, s)
      modifies this
      ensures Polled(p, m, At(completed', remaining', yielded'), progress', s + 1)
    {
      ghost var n := At(completed, remaining, yielded);
      var collected;
      collected, completed', remaining', yielded' := PollOne(s, completed, remaining, yielded);
      progress' := progress || collected;
      PolledNext(p, m, n, At(completed', remaining', yielded'), progress, collected, s);
    }

    /** One pass over all stages, with workers running in between. When it
        uses up no move, nobody has worked and nothing was there to collect. */
    method PollAll(completed: nat, remaining: seq<nat>, yielded: seq<Yield>)
      returns (madeProgress: bool, completed': nat, remaining': seq<nat>, yielded': seq<Yield>)
      requires Inv(p, At(completed, remaining, yielded))
      modifies this
      ensures Polled(p, old(At(completed, remaining, yielded)), At(completed', remaining', yielded'),
                     madeProgress, p.Stages())
    {
      completed', remaining', yielded' := completed, remaining, yielded;
      madeProgress := false;
      ghost var m := At(completed, remaining, yielded);
      for s := 0 to p.Stages()
        invariant Polled(p, m, At(completed', remaining', yielded'), madeProgress, s)
      {
        madeProgress, completed', remaining', yielded' :=
          PollNext(m, s, madeProgress, completed', remaining', yielded');
      }
    }

    /** The scheduling loop: polls the stages in order until every request is
        completed. It ends, whatever the workers' pace, with every request done. */
    method RunGeneration() returns (yielded: seq<Yield>)
      requires p.Valid() && |inQ| == |outQ| == |held| == p.Stages()
      requires inQ == seq(p.Stages(), s => []) && outQ == seq(p.Stages(), s => []) && held == seq(p.Stages(), s => None)
      modifies this
      ensures exists remaining ::
                Finished(p, At(|p.ids|, remaining, yielded)) && Drained(p, At(|p.ids|, remaining, yielded))
    {
      SeedStage0();
      SeedInv(p);
      var completed: nat := 0;
      var remaining: seq<nat> := [|p.ids|] + seq(p.Stages() - 1, _ => 0);
      yielded := [];
      while completed < |p.ids|
        invariant Inv(p, At(completed, remaining, yielded))
        decreases Cost(p, At(completed, remaining, yielded))
      {
        CostLeft(p, At(completed, remaining, yielded));
        var madeProgress;
        madeProgress, completed, remaining, yielded := PollAll(completed, remaining, yielded);
        if !madeProgress {
          WorkersRun(true, completed, remaining, yielded);
        }
      }
      ExitFinished(p, At(completed, remaining, yielded));
    }
  }

  /** Nothing is queued anywhere. */
  ghost predicate Drained(p: Pipeline, n: Net) {
    && |n.inQ| == |n.outQ| == p.Stages()
    && forall s :: 0 <= s < p.Stages() ==> n.inQ[s] == [] && n.outQ[s] == []
  }

  lemma DoneHistory(p: Pipeline, n: Net, id: Id)
    requires Shaped(p, n) && id in p.ids && n.loc[id].Done? && OrderedAt(p, n, id)
    ensures VisitsOf(n.visits, id) == Upto(p.final[id] + 1) && YieldsOf(n.yielded, id) == Yielding(p, p.final[id] + 1)
  {
  }

  lemma ExitDrained(p: Pipeline, n: Net)
    requires Placed(p, n) && Holding(p, n) && forall id :: id in p.ids ==> n.loc[id].Done?
    ensures Drained(p, n)
  {
    forall s | 0 <= s < p.Stages() ensures n.inQ[s] == [] && n.outQ[s] == [] {
      if n.inQ[s] != [] {
        var id := EnabledIsOpen(p, n, Work(s, 0));
      }
      if n.outQ[s] != [] {
        Collectable(p, n, s);
        var id := EnabledIsOpen(p, n, Poll(s));
      }
    }
  }

  lemma ExitFinished(p: Pipeline, n: Net)
    requires Inv(p, n) && n.completed >= |p.ids|
    ensures n.completed == |p.ids| && Finished(p, n) && Drained(p, n)
  {
    AllDone(p, n);
    ExitDrained(p, n);
    forall id | id in p.ids
      ensures VisitsOf(n.visits, id) == Upto(p.final[id] + 1)
      ensures YieldsOf(n.yielded, id) == Yielding(p, p.final[id] + 1)
    {
      DoneHistory(p, n, id);
    }
  }
}
