/** Sequential engine initialisation: every stage process locks its devices one
    by one, in the order of its list, initialises, and releases them all. */
module InitLocks {
  import opened Common

  /** Per stage: how many locks it holds, in the order of its list, or that it is through. */
  datatype Stage = Locking(held: nat) | Released

  type State = seq<Stage>

  /** The lists of devices to lock: at most as many visible devices as a stage
      uses, sorted. */
  type Lists = seq<seq<nat>>

  ghost predicate SortedLists(lists: Lists) {
    forall p, i, j {:trigger lists[p][i], lists[p][j]} :: 0 <= p < |lists| && 0 <= i < j < |lists[p]| ==>
        lists[p][i] <= lists[p][j]
  }

  ghost predicate NoRepeats(lists: Lists) {
    forall p :: 0 <= p < |lists| ==> Distinct(lists[p])
  }

  ghost predicate Shaped(lists: Lists, s: State) {
    && |s| == |lists|
    && forall p :: 0 <= p < |s| ==> s[p].Locking? ==> s[p].held <= |lists[p]|
  }

  /** Stage p holds the lock at position i of its list. */
  predicate HoldsAt(s: State, p: nat, i: nat) {
    p < |s| && s[p].Locking? && i < s[p].held
  }

  ghost predicate Free(lists: Lists, s: State, device: nat)
    requires Shaped(lists, s)
  {
    forall p, i {:trigger lists[p][i]} :: 0 <= p < |s| && 0 <= i < |lists[p]| && HoldsAt(s, p, i) ==>
        lists[p][i] != device
  }

  /** Stage p takes its next lock, or, with all of them, initialises and releases. */
  ghost predicate CanStep(lists: Lists, s: State, p: nat)
    requires Shaped(lists, s)
  {
    && p < |s| && s[p].Locking?
    && (s[p].held < |lists[p]| ==> Free(lists, s, lists[p][s[p].held]))
  }

  function Step(lists: Lists, s: State, p: nat): State
    requires p < |s| == |lists| && s[p].Locking?
  {
    s[p := if s[p].held < |lists[p]| then Locking(s[p].held + 1) else Released]
  }

  function Start(lists: Lists): State {
    seq(|lists|, p => Locking(0))
  }

  ghost predicate IsRun(lists: Lists, steps: seq<nat>, states: seq<State>) {
    && |states| == |steps| + 1 && states[0] == Start(lists)
    && forall i :: 0 <= i < |steps| ==>
         && Shaped(lists, states[i]) && CanStep(lists, states[i], steps[i])
         && states[i + 1] == Step(lists, states[i], steps[i])
  }

  // ------------------------------------------------------ mutual exclusion

  /** No device lock is held twice, by two stages or by one. */
  ghost predicate Exclusive(lists: Lists, s: State)
    requires Shaped(lists, s)
  {
    forall p, i, q, j {:trigger lists[p][i], lists[q][j]} ::
      (&& 0 <= p < |s| && 0 <= i < |lists[p]| && 0 <= q < |s| && 0 <= j < |lists[q]|
       && HoldsAt(s, p, i) && HoldsAt(s, q, j) && lists[p][i] == lists[q][j])
      ==> p == q && i == j
  }

  lemma StepExclusive(lists: Lists, s: State, p: nat)
    requires Shaped(lists, s) && Exclusive(lists, s) && CanStep(lists, s, p)
    ensures Shaped(lists, Step(lists, s, p)) && Exclusive(lists, Step(lists, s, p))
  {
    var t := Step(lists, s, p);
    forall q, i, r, j {:trigger lists[q][i], lists[r][j]} |
      0 <= q < |t| && 0 <= i < |lists[q]| && 0 <= r < |t| && 0 <= j < |lists[r]|
      && HoldsAt(t, q, i) && HoldsAt(t, r, j) && lists[q][i] == lists[r][j]
      ensures q == r && i == j
    {
      assert HoldsAt(s, q, i) || (q == p && i == s[p].held);
      assert HoldsAt(s, r, j) || (r == p && j == s[p].held);
    }
  }

  /** Steps left before every stage is through. */
  ghost function Left(lists: Lists, s: State): nat
    requires Shaped(lists, s)
    decreases |s|
  {
    if s == [] then 0
    else
      var n := |s| - 1;
      Left(lists[..n], s[..n]) + if s[n].Locking? then |lists[n]| - s[n].held + 1 else 0
  }

  lemma {:induction false} StepLeft(lists: Lists, s: State, p: nat)
    requires Shaped(lists, s) && p < |s| && s[p].Locking?
    ensures Shaped(lists, Step(lists, s, p))
    ensures Left(lists, Step(lists, s, p)) == Left(lists, s) - 1
  {
    var n := |s| - 1;
    var t := Step(lists, s, p);
    if p == n {
      assert t[..n] == s[..n];
    } else {
      StepLeft(lists[..n], s[..n], p);
      assert t[..n] == Step(lists[..n], s[..n], p);
    }
  }

  /** In every run no device is locked twice at the same time, and each step
      brings the end closer. */
  lemma {:induction false} RunExclusive(lists: Lists, steps: seq<nat>, states: seq<State>)
    requires IsRun(lists, steps, states)
    ensures Shaped(lists, states[|steps|]) && Exclusive(lists, states[|steps|])
    ensures Left(lists, states[|steps|]) == Left(lists, Start(lists)) - |steps|
  {
    if steps != [] {
      var n := |steps| - 1;
      RunExclusive(lists, steps[..n], states[..n + 1]);
      assert states[..n + 1][n] == states[n];
      StepExclusive(lists, states[n], steps[n]);
      StepLeft(lists, states[n], steps[n]);
    }
  }

  // ------------------------------------------------------- deadlock freedom

  ghost predicate AllThrough(s: State) {
    forall p :: 0 <= p < |s| ==> s[p].Released?
  }

  /** The device a stage is waiting for. */
  function Wanted(lists: Lists, s: State, p: nat): nat
    requires p < |s| == |lists| && s[p].Locking? && s[p].held < |lists[p]|
  {
    lists[p][s[p].held]
  }

  ghost predicate Waiting(lists: Lists, s: State, p: nat) {
    p < |s| == |lists| && s[p].Locking? && s[p].held < |lists[p]|
  }

  /** A waiting stage whose device is taken waits for a holder that can step,
      or that waits for a larger device. */
  lemma HolderOf(lists: Lists, s: State, p: nat) returns (q: nat)
    requires Shaped(lists, s) && SortedLists(lists) && NoRepeats(lists)
    requires Waiting(lists, s, p) && !CanStep(lists, s, p)
    ensures q < |s| && s[q].Locking?
    ensures CanStep(lists, s, q) || (Waiting(lists, s, q) && Wanted(lists, s, q) > Wanted(lists, s, p))
  {
    var d := Wanted(lists, s, p);
    var r, i :| 0 <= r < |s| && 0 <= i < |lists[r]| && HoldsAt(s, r, i) && lists[r][i] == d;
    q := r;
    if s[q].held < |lists[q]| {
      assert Distinct(lists[q]);
      assert lists[q][i] <= lists[q][s[q].held] && lists[q][i] != lists[q][s[q].held];
    }
  }

  /** Following holders upwards ends at a stage that can step. */
  lemma {:induction false} Follow(lists: Lists, s: State, p: nat, bound: nat) returns (q: nat)
    requires Shaped(lists, s) && SortedLists(lists) && NoRepeats(lists)
    requires p < |s| && s[p].Locking?
    requires Waiting(lists, s, p) ==> Wanted(lists, s, p) <= bound
    requires forall r :: Waiting(lists, s, r) ==> Wanted(lists, s, r) <= bound
    ensures q < |s| && CanStep(lists, s, q)
    decreases if Waiting(lists, s, p) then bound - Wanted(lists, s, p) + 1 else 0
  {
    if CanStep(lists, s, p) {
      q := p;
    } else {
      q := HolderOf(lists, s, p);
      if !CanStep(lists, s, q) {
        q := Follow(lists, s, q, bound);
      }
    }
  }

  lemma {:induction false} DeviceBound(lists: Lists) returns (bound: nat)
    ensures forall p, i {:trigger lists[p][i]} :: 0 <= p < |lists| && 0 <= i < |lists[p]| ==> lists[p][i] <= bound
  {
    if lists == [] {
      bound := 0;
    } else {
      var b := DeviceBound(lists[1..]);
      var c := ListBound(lists[0]);
      bound := Max(b, c);
      forall p, i {:trigger lists[p][i]} | 0 <= p < |lists| && 0 <= i < |lists[p]| ensures lists[p][i] <= bound {
        if p > 0 {
          assert lists[p][i] == lists[1..][p - 1][i];
        }
      }
    }
  }

  lemma {:induction false} ListBound(list: seq<nat>) returns (bound: nat)
    ensures forall i :: 0 <= i < |list| ==> list[i] <= bound
  {
    if list == [] {
      bound := 0;
    } else {
      var b := ListBound(list[1..]);
      bound := Max(b, list[0]);
      assert forall i :: 0 < i < |list| ==> list[i] == list[1..][i - 1];
    }
  }

  /** Sorted lists of distinct devices cannot deadlock: in any state with an
      unfinished stage, some stage can step. */
  lemma NoDeadlock(lists: Lists, s: State)
    requires Shaped(lists, s) && SortedLists(lists) && NoRepeats(lists)
    ensures AllThrough(s) || exists p :: CanStep(lists, s, p)
  {
    if !AllThrough(s) {
      var p :| 0 <= p < |s| && s[p].Locking?;
      var bound := DeviceBound(lists);
      var q := Follow(lists, s, p, bound);
    }
  }

  // ------------------------------------------------- when a list has repeats

  ghost predicate Reachable(lists: Lists, s: State) {
    exists steps, states :: IsRun(lists, steps, states) && s == states[|steps|]
  }

  lemma StartReachable(lists: Lists)
    ensures Reachable(lists, Start(lists))
  {
    assert IsRun(lists, [], [Start(lists)]);
  }

  lemma NextReachable(lists: Lists, s: State, p: nat)
    requires Reachable(lists, s) && Shaped(lists, s) && CanStep(lists, s, p)
    ensures Reachable(lists, Step(lists, s, p))
  {
    var steps, states :| IsRun(lists, steps, states) && s == states[|steps|];
    var t := Step(lists, s, p);
    var longer := states + [t];
    forall i | 0 <= i < |steps + [p]|
      ensures Shaped(lists, longer[i]) && CanStep(lists, longer[i], (steps + [p])[i])
              && longer[i + 1] == Step(lists, longer[i], (steps + [p])[i])
    {
      assert longer[i] == states[i];
      assert i < |steps| ==> longer[i + 1] == states[i + 1];
    }
    assert IsRun(lists, steps + [p], longer);
  }

  ghost predicate Halted(lists: Lists, s: State)
    requires Shaped(lists, s)
  {
    forall p :: !CanStep(lists, s, p)
  }

  /** From every reachable state a reachable state without further steps. */
  lemma {:induction false} RunOn(lists: Lists, s: State) returns (t: State)
    requires Reachable(lists, s) && Shaped(lists, s)
    ensures Reachable(lists, t) && Shaped(lists, t) && Halted(lists, t)
    decreases Left(lists, s)
  {
    if Halted(lists, s) {
      t := s;
    } else {
      var p :| CanStep(lists, s, p);
      NextReachable(lists, s, p);
      StepLeft(lists, s, p);
      t := RunOn(lists, Step(lists, s, p));
    }
  }

  lemma {:induction false} NothingLeft(lists: Lists, s: State)
    requires Shaped(lists, s) && AllThrough(s)
    ensures Left(lists, s) == 0
    decreases |s|
  {
    if s != [] {
      NothingLeft(lists[..|s| - 1], s[..|s| - 1]);
    }
  }

  /** Every run over sorted lists of distinct devices that cannot go on has taken
      all its steps: every stage is through and every device is free again. */
  lemma HaltedRunReleases(lists: Lists, steps: seq<nat>, states: seq<State>)
    requires SortedLists(lists) && NoRepeats(lists) && IsRun(lists, steps, states)
    requires Shaped(lists, states[|steps|]) && Halted(lists, states[|steps|])
    ensures AllThrough(states[|steps|]) && |steps| == Left(lists, Start(lists))
    ensures forall device :: Free(lists, states[|steps|], device)
  {
    RunExclusive(lists, steps, states);
    NoDeadlock(lists, states[|steps|]);
    NothingLeft(lists, states[|steps|]);
  }

  /** A stage that would have to lock a device twice is never through: two
      descriptors of one process exclude each other too. */
  ghost predicate StuckBefore(s: State, p: nat, j: nat) {
    p < |s| && s[p].Locking? && s[p].held <= j
  }

  lemma Blocked(lists: Lists, s: State, p: nat, i: nat, j: nat)
    requires Shaped(lists, s) && p < |lists| && i < j < |lists[p]| && lists[p][i] == lists[p][j]
    ensures s[p] == Locking(j) ==> !CanStep(lists, s, p)
  {
    assert s[p] == Locking(j) ==> HoldsAt(s, p, i);
  }

  lemma {:induction false} NeverThrough(lists: Lists, p: nat, i: nat, j: nat, steps: seq<nat>, states: seq<State>)
    requires IsRun(lists, steps, states) && p < |lists| && i < j < |lists[p]| && lists[p][i] == lists[p][j]
    ensures StuckBefore(states[|steps|], p, j)
  {
    if steps != [] {
      var n := |steps| - 1;
      NeverThrough(lists, p, i, j, steps[..n], states[..n + 1]);
      assert states[..n + 1][n] == states[n];
      Blocked(lists, states[n], p, i, j);
    }
  }

  lemma ReachableShaped(lists: Lists, s: State)
    requires Reachable(lists, s)
    ensures Shaped(lists, s)
  {
    var steps, states :| IsRun(lists, steps, states) && s == states[|steps|];
    RunExclusive(lists, steps, states);
  }

  /** Locking sorted lists is free of deadlock if and only if no list names a
      device twice. */
  lemma DeadlockFreeIff(lists: Lists)
    requires SortedLists(lists)
    ensures NoRepeats(lists) <==>
            forall s :: Reachable(lists, s) ==> Shaped(lists, s) && (AllThrough(s) || !Halted(lists, s))
  {
    if NoRepeats(lists) {
      forall s | Reachable(lists, s) ensures Shaped(lists, s) && (AllThrough(s) || !Halted(lists, s)) {
        ReachableShaped(lists, s);
        NoDeadlock(lists, s);
      }
    } else {
      var p :| 0 <= p < |lists| && !Distinct(lists[p]);
      var i, j :| 0 <= i < j < |lists[p]| && lists[p][i] == lists[p][j];
      StartReachable(lists);
      var t := RunOn(lists, Start(lists));
      var steps, states :| IsRun(lists, steps, states) && t == states[|steps|];
      NeverThrough(lists, p, i, j, steps, states);
      assert Reachable(lists, t) && Halted(lists, t) && !AllThrough(t);
    }
  }

  /** Without the sorting, two stages can lock each other out. */
  lemma UnsortedDeadlocks()
    ensures exists s :: Reachable([[0, 1], [1, 0]], s) && Shaped([[0, 1], [1, 0]], s)
                        && Halted([[0, 1], [1, 0]], s) && !AllThrough(s)
  {
    var lists: Lists := [[0, 1], [1, 0]];
    CrossedReachable(lists);
    CrossedHalts(lists, [Locking(1), Locking(1)]);
  }

  lemma CrossedReachable(lists: Lists)
    requires lists == [[0, 1], [1, 0]]
    ensures Reachable(lists, [Locking(1), Locking(1)])
  {
    StartReachable(lists);
    assert Start(lists) == [Locking(0), Locking(0)];
    NextReachable(lists, [Locking(0), Locking(0)], 0);
    NextReachable(lists, [Locking(1), Locking(0)], 1);
  }

  lemma CrossedHalts(lists: Lists, t: State)
    requires lists == [[0, 1], [1, 0]] && t == [Locking(1), Locking(1)]
    ensures Shaped(lists, t) && Halted(lists, t) && !AllThrough(t)
  {
    assert HoldsAt(t, 0, 0) && lists[0][0] == 0 && HoldsAt(t, 1, 0) && lists[1][0] == 1;
    assert lists[0][1] == 1 && lists[1][1] == 0;
  }

  // --------------------------------------------------- the acquisition loop

  /** One stage process. What the other processes hold is part of its world: at
      each attempt, which it counts, some set of devices. They cannot take a
      device that this one holds. */
  class StageProcess {
    const world: nat -> set<nat>
    var mine: set<nat>
    var acquired: seq<nat>
    var initialised: Option<set<nat>>   // what it held when its engine was initialised

    constructor (world: nat -> set<nat>)
      ensures this.world == world && mine == {} && acquired == [] && initialised == None
    {
      this.world, mine, acquired, initialised := world, {}, [], None;
    }

    /** Tries to lock a device without waiting: it fails when someone, even this
        process itself by another descriptor, holds it. */
    method TryLock(device: nat, attempt: nat) returns (got: bool)
      modifies this`mine
      ensures got <==> device !in world(attempt) && device !in old(mine)
      ensures mine == if got then old(mine) + {device} else old(mine)
    {
      got := device !in world(attempt) && device !in mine;
      if got {
        mine := mine + {device};
      }
    }

    method Unlock(device: nat)
      modifies this`mine
      ensures mine == old(mine) - {device}
    {
      mine := mine - {device};
    }

    /** Tries until the device is locked or the time allowed is over: it gets the
        device at the first attempt in time at which that is free, and gives up
        exactly when there is none. */
    method AcquireOne(device: nat, waited: nat, timeout: nat) returns (got: bool, waited': nat)
      requires waited <= timeout + 1
      modifies this`mine, this`acquired
      ensures waited <= waited' <= timeout + 1
      ensures forall w :: waited <= w < waited' ==> device in world(w) || device in old(mine)
      ensures got <==> device !in world(waited') && device !in old(mine)
      ensures !got ==> waited' == timeout + 1
      ensures acquired == (if got then old(acquired) + [device] else old(acquired))
      ensures mine == if got then old(mine) + {device} else old(mine)
    {
      got, waited' := false, waited;
      while !got
        invariant waited <= waited' <= timeout + 1
        invariant forall w :: waited <= w < waited' ==> device in world(w) || device in old(mine)
        invariant got ==> device !in world(waited') && device !in old(mine)
        invariant acquired == if got then old(acquired) + [device] else old(acquired)
        invariant mine == if got then old(mine) + {device} else old(mine)
        decreases !got, timeout + 1 - waited'
      {
        got := TryLock(device, waited');
        if got {
          acquired := acquired + [device];
        } else {
          if waited' > timeout {
            break;
          }
          waited' := waited' + 1;
        }
      }
    }

    /** Locks the devices in order, skipping those that it cannot lock in time.
        In time it locks the whole list, and at once if all are free; a listed
        device that is free when time runs out is locked in any case. */
    method AcquireAll(devices: seq<nat>, timeout: nat) returns (waited: nat)
      requires mine == {} && acquired == []
      modifies this`mine, this`acquired
      ensures mine == ToSet(acquired) && Distinct(acquired) && ToSet(acquired) <= ToSet(devices)
      ensures waited <= timeout ==> acquired == devices
      ensures forall d :: d in devices && d !in world(timeout + 1) ==> d in mine
      ensures Distinct(devices) && (forall d :: d in devices ==> d !in world(0)) ==> waited == 0 && acquired == devices
    {
      waited := 0;
      for i := 0 to |devices|
        invariant waited <= timeout + 1
        invariant mine == ToSet(acquired) && Distinct(acquired) && ToSet(acquired) <= ToSet(devices[..i])
        invariant waited <= timeout ==> acquired == devices[..i]
        invariant forall d :: d in devices[..i] && d !in world(timeout + 1) ==> d in mine
        invariant Distinct(devices) && (forall d :: d in devices ==> d !in world(0)) ==>
                    waited == 0 && acquired == devices[..i]
      {
        assert devices[..i + 1] == devices[..i] + [devices[i]];
        ghost var before := acquired;
        var got;
        ghost var start := waited;
        got, waited := AcquireOne(devices[i], waited, timeout);
        if Distinct(devices) && forall d :: d in devices ==> d !in world(0) {
          assert devices[i] !in world(start) && devices[i] !in ToSet(before);
        }
        if got {
          assert devices[i] !in before by { assert devices[i] !in ToSet(before); }
        }
      }
      assert devices[..|devices|] == devices;
    }

    /** The engine is initialised with the locks held at this moment. */
    method Initialise()
      modifies this`initialised
      ensures initialised == Some(mine)
    {
      initialised := Some(mine);
    }

    /** Releases every lock that was acquired. */
    method ReleaseAll()
      requires mine == ToSet(acquired) && Distinct(acquired)
      modifies this`mine
      ensures mine == {}
    {
      for i := 0 to |acquired|
        invariant mine == ToSet(acquired[i..])
      {
        assert acquired[i..] == [acquired[i]] + acquired[i + 1..];
        assert ToSet(acquired[i..]) == {acquired[i]} + ToSet(acquired[i + 1..]);
        assert acquired[i] !in acquired[i + 1..] by {
          assert forall j :: i < j < |acquired| ==> acquired[i] != acquired[j];
        }
        Unlock(acquired[i]);
      }
    }

    /** The whole context. While the engine is initialised the locks of the list
        are held: all of them unless time ran out, and otherwise those that were
        acquired in time. Afterwards none is, whatever the other processes do. */
    method InitialiseLocked(devices: seq<nat>, timeout: nat) returns (waited: nat)
      requires mine == {} && acquired == []
      modifies this
      ensures mine == {} && initialised == Some(ToSet(acquired))
      ensures ToSet(acquired) <= ToSet(devices)
      ensures waited <= timeout ==> initialised == Some(ToSet(devices))
      ensures forall d :: d in devices && d !in world(timeout + 1) ==> d in initialised.value
      ensures Distinct(devices) && (forall d :: d in devices ==> d !in world(0)) ==> waited == 0
    {
      waited := AcquireAll(devices, timeout);
      Initialise();
      ReleaseAll();
    }
  }
}
