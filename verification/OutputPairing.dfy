/** How the stage worker pairs engine outputs with the requests of a batch: the
    engine sorts its outputs by id, and outputs under a foreign id are dealt to
    the requests in turn. */
module OutputPairing {
  import opened Common

  /** One engine output. Ids read "counter-suffix"; `payload` is its content. */
  datatype Output = Output(id: string, counter: nat, payload: nat)

  // ---------------------------------------------------------------- sorting

  ghost predicate Sorted(q: seq<Output>) {
    forall i, j :: 0 <= i < j < |q| ==> q[i].counter <= q[j].counter
  }

  /** Stable insertion behind all outputs with the same or a smaller counter. */
  function Insert(q: seq<Output>, x: Output): seq<Output> {
    if q == [] || q[|q| - 1].counter <= x.counter then q + [x]
    else Insert(q[..|q| - 1], x) + [q[|q| - 1]]
  }

  function Sort(q: seq<Output>): seq<Output> {
    if q == [] then [] else Insert(Sort(q[..|q| - 1]), q[|q| - 1])
  }

  lemma DropLast(q: seq<Output>)
    requires q != []
    ensures multiset(q) == multiset(q[..|q| - 1]) + multiset{q[|q| - 1]}
  {
    assert q == q[..|q| - 1] + [q[|q| - 1]];
  }

  lemma {:induction false} InsertPermutes(q: seq<Output>, x: Output)
    ensures multiset(Insert(q, x)) == multiset(q) + multiset{x}
  {
    if q != [] && q[|q| - 1].counter > x.counter {
      InsertPermutes(q[..|q| - 1], x);
      DropLast(q);
    }
  }

  ghost predicate Below(q: seq<Output>, bound: nat) {
    forall i :: 0 <= i < |q| ==> q[i].counter <= bound
  }

  lemma {:induction false} InsertSorted(q: seq<Output>, x: Output, bound: nat)
    requires Sorted(q)
    ensures Sorted(Insert(q, x))
    ensures Below(q, bound) && x.counter <= bound ==> Below(Insert(q, x), bound)
  {
    if q != [] && q[|q| - 1].counter > x.counter {
      InsertSorted(q[..|q| - 1], x, bound);
      InsertSorted(q[..|q| - 1], x, q[|q| - 1].counter);
    }
  }

  lemma {:induction false} SortSorts(q: seq<Output>)
    ensures Sorted(Sort(q)) && multiset(Sort(q)) == multiset(q)
  {
    if q != [] {
      var n := |q| - 1;
      SortSorts(q[..n]);
      InsertPermutes(Sort(q[..n]), q[n]);
      InsertSorted(Sort(q[..n]), q[n], 0);
      DropLast(q);
    }
  }

  ghost predicate StrictlySorted(q: seq<Output>) {
    forall i, j :: 0 <= i < j < |q| ==> q[i].counter < q[j].counter
  }

  lemma Cancel(a: multiset<Output>, b: multiset<Output>, x: Output)
    requires a + multiset{x} == b + multiset{x}
    ensures a == b
  {
    forall y ensures a[y] == b[y] {
      assert (a + multiset{x})[y] == (b + multiset{x})[y];
    }
  }

  lemma SameLast(a: seq<Output>, b: seq<Output>)
    requires Sorted(a) && StrictlySorted(b) && multiset(a) == multiset(b) && |a| == |b| > 0
    ensures a[|a| - 1] == b[|b| - 1]
  {
    var n := |b| - 1;
    assert b[n] in multiset(a) && a[n] in multiset(b);
    var i :| 0 <= i < |a| && a[i] == b[n];
    var j :| 0 <= j < |b| && b[j] == a[n];
    assert b[n].counter <= a[n].counter == b[j].counter;
  }

  /** A strictly ordered list is the only ordering of its elements by counter. */
  lemma {:induction false} SortedUnique(a: seq<Output>, b: seq<Output>)
    requires Sorted(a) && StrictlySorted(b) && multiset(a) == multiset(b)
    ensures a == b
  {
    assert |a| == |multiset(a)| == |multiset(b)| == |b|;
    if b != [] {
      var n := |b| - 1;
      SameLast(a, b);
      DropLast(a);
      DropLast(b);
      Cancel(multiset(a[..n]), multiset(b[..n]), a[n]);
      SortedUnique(a[..n], b[..n]);
      assert a == a[..n] + [a[n]] && b == b[..n] + [b[n]];
    }
  }

  /** What one engine step returns for one request. */
  datatype StepOutput = StepOutput(output: Output, finished: bool)

  function FinishedOf(step: seq<StepOutput>): seq<Output> {
    if step == [] then []
    else FinishedOf(step[..|step| - 1]) + if step[|step| - 1].finished then [step[|step| - 1].output] else []
  }

  function AllFinished(steps: seq<seq<StepOutput>>): seq<Output> {
    if steps == [] then [] else AllFinished(steps[..|steps| - 1]) + FinishedOf(steps[|steps| - 1])
  }

  lemma {:induction false} FinishedCount(step: seq<StepOutput>, o: Output)
    ensures Count(FinishedOf(step), o) == Count(step, StepOutput(o, true))
  {
    if step != [] {
      var n := |step| - 1;
      FinishedCount(step[..n], o);
      if step[n].finished {
        CountConcat(FinishedOf(step[..n]), [step[n].output], o);
        assert [step[n].output][..0] == [];
      } else {
        assert FinishedOf(step) == FinishedOf(step[..n]);
      }
    }
  }

  /** An output is collected as often as the engine returned it as finished. */
  lemma {:induction false} CollectedCount(steps: seq<seq<StepOutput>>, o: Output)
    ensures Count(AllFinished(steps), o) == Count(Concat(steps), StepOutput(o, true))
  {
    if steps != [] {
      var n := |steps| - 1;
      CollectedCount(steps[..n], o);
      FinishedCount(steps[n], o);
      CountConcat(AllFinished(steps[..n]), FinishedOf(steps[n]), o);
      CountConcat(Concat(steps[..n]), steps[n], StepOutput(o, true));
    }
  }

  lemma {:induction false} CountIsMultiset(q: seq<Output>, o: Output)
    ensures Count(q, o) == multiset(q)[o]
  {
    if q != [] {
      CountIsMultiset(q[..|q| - 1], o);
      DropLast(q);
    }
  }

  /** The engine's loop: it collects the finished outputs, in whatever order
      steps finish them, and sorts them. */
  method RunEngine(steps: seq<seq<StepOutput>>) returns (outputs: seq<Output>)
    ensures outputs == Sort(AllFinished(steps))
    ensures Sorted(outputs) && multiset(outputs) == multiset(AllFinished(steps))
    ensures forall o :: Count(outputs, o) == Count(Concat(steps), StepOutput(o, true))
  {
    outputs := [];
    for i := 0 to |steps|
      invariant outputs == AllFinished(steps[..i])
    {
      for j := 0 to |steps[i]|
        invariant outputs == AllFinished(steps[..i]) + FinishedOf(steps[i][..j])
      {
        assert steps[i][..j + 1][..j] == steps[i][..j];
        if steps[i][j].finished {
          outputs := outputs + [steps[i][j].output];
        }
      }
      assert steps[..i + 1][..i] == steps[..i] && steps[i][..|steps[i]|] == steps[i];
    }
    assert steps[..|steps|] == steps;
    SortSorts(outputs);
    forall o ensures Count(Sort(outputs), o) == Count(Concat(steps), StepOutput(o, true)) {
      CollectedCount(steps, o);
      CountIsMultiset(outputs, o);
      CountIsMultiset(Sort(outputs), o);
    }
    outputs := Sort(outputs);
  }

  // --------------------------------------------------------------- grouping

  /** The outputs whose id is a request of the batch, for one request. */
  function Mapped(q: seq<Output>, id: string): seq<Output> {
    if q == [] then []
    else Mapped(q[..|q| - 1], id) + if q[|q| - 1].id == id then [q[|q| - 1]] else []
  }

  /** The outputs under foreign ids, in order. */
  function Foreign(q: seq<Output>, ids: seq<string>): seq<Output> {
    if q == [] then []
    else Foreign(q[..|q| - 1], ids) + if q[|q| - 1].id in ids then [] else [q[|q| - 1]]
  }

  /** A request's own outputs are exactly those under its id. */
  lemma {:induction false} MappedExact(q: seq<Output>, id: string, o: Output)
    ensures Count(Mapped(q, id), o) == if o.id == id then Count(q, o) else 0
  {
    if q != [] {
      var n := |q| - 1;
      MappedExact(q[..n], id, o);
      if q[n].id == id {
        CountConcat(Mapped(q[..n], id), [q[n]], o);
        assert [q[n]][..0] == [];
      } else {
        assert Mapped(q, id) == Mapped(q[..n], id);
      }
    }
  }

  /** Whose turn it is at the i-th deal among n: the remainder of i by n. */
  function Turn(i: nat, n: nat): (k: nat)
    requires n > 0
    ensures k < n
  {
    if i < n then i else Turn(i - n, n)
  }

  lemma {:induction false} TurnIsRemainder(i: nat, n: nat)
    requires n > 0
    ensures Turn(i, n) == i % n
  {
    if i >= n {
      TurnIsRemainder(i - n, n);
      Recompose(i - n, n);
      DivMod((i - n) / n + 1, n, (i - n) % n);
    }
  }

  /** Every n-th output starting with the k-th, relabelled. */
  function Dealt(q: seq<Output>, n: nat, k: nat, id: string): seq<Output>
    requires n > 0
  {
    if q == [] then []
    else Dealt(q[..|q| - 1], n, k, id) + if Turn(|q| - 1, n) == k then [q[|q| - 1].(id := id)] else []
  }

  /** What request k of the batch is given. */
  function Share(q: seq<Output>, ids: seq<string>, k: nat): seq<Output>
    requires k < |ids|
  {
    Mapped(q, ids[k]) + Dealt(Foreign(q, ids), |ids|, k, ids[k])
  }

  /** Files each output under its own id, if that is a request of the batch. */
  method GroupMapped(ids: seq<string>, outputs: seq<Output>)
    returns (groups: map<string, seq<Output>>, unmapped: seq<Output>)
    ensures groups.Keys == ToSet(ids) && unmapped == Foreign(outputs, ids)
    ensures forall id :: id in ids ==> groups[id] == Mapped(outputs, id)
  {
    groups, unmapped := map id | id in ids :: [], [];
    for i := 0 to |outputs|
      invariant groups.Keys == ToSet(ids) && unmapped == Foreign(outputs[..i], ids)
      invariant forall id :: id in ids ==> groups[id] == Mapped(outputs[..i], id)
    {
      assert outputs[..i + 1][..i] == outputs[..i];
      var ro := outputs[i];
      if ro.id in groups {
        groups := groups[ro.id := groups[ro.id] + [ro]];
      } else {
        unmapped := unmapped + [ro];
      }
    }
    assert outputs[..|outputs|] == outputs;
  }

  /** Each request has its own outputs and then those dealt to it. */
  ghost predicate DealtTo(ids: seq<string>, mapped: map<string, seq<Output>>, dealt: seq<Output>,
                          groups: map<string, seq<Output>>)
    requires ids != [] && mapped.Keys == ToSet(ids)
  {
    && groups.Keys == ToSet(ids)
    && forall k {:trigger ids[k]} :: 0 <= k < |ids| ==>
        groups[ids[k]] == mapped[ids[k]] + Dealt(dealt, |ids|, k, ids[k])
  }

  lemma DealStep(ids: seq<string>, mapped: map<string, seq<Output>>, dealt: seq<Output>,
                 groups: map<string, seq<Output>>, o: Output)
    requires ids != [] && Distinct(ids) && mapped.Keys == ToSet(ids) && DealtTo(ids, mapped, dealt, groups)
    ensures var target := ids[|dealt| % |ids|];
            DealtTo(ids, mapped, dealt + [o], groups[target := groups[target] + [o.(id := target)]])
  {
    TurnIsRemainder(|dealt|, |ids|);
    var target := ids[|dealt| % |ids|];
    var more := groups[target := groups[target] + [o.(id := target)]];
    forall k {:trigger ids[k]} | 0 <= k < |ids|
      ensures more[ids[k]] == mapped[ids[k]] + Dealt(dealt + [o], |ids|, k, ids[k])
    {
      DealtSnoc(dealt, o, |ids|, k, ids[k]);
      assert k != |dealt| % |ids| ==> ids[k] != target;
    }
  }

  /** Deals the other outputs to the requests in turn. */
  method GroupUnmapped(ids: seq<string>, mapped: map<string, seq<Output>>, unmapped: seq<Output>)
    returns (groups: map<string, seq<Output>>)
    requires ids != [] && Distinct(ids) && mapped.Keys == ToSet(ids)
    ensures groups.Keys == ToSet(ids)
    ensures forall k :: 0 <= k < |ids| ==> groups[ids[k]] == mapped[ids[k]] + Dealt(unmapped, |ids|, k, ids[k])
  {
    groups := mapped;
    for idx := 0 to |unmapped|
      invariant DealtTo(ids, mapped, unmapped[..idx], groups)
    {
      DealStep(ids, mapped, unmapped[..idx], groups, unmapped[idx]);
      assert unmapped[..idx + 1] == unmapped[..idx] + [unmapped[idx]];
      var target := ids[idx % |ids|];
      groups := groups[target := groups[target] + [unmapped[idx].(id := target)]];
    }
    assert unmapped[..|unmapped|] == unmapped;
  }

  /** Groups the outputs by request, with the round-robin fallback. */
  method Group(ids: seq<string>, outputs: seq<Output>) returns (groups: map<string, seq<Output>>)
    requires ids != [] && Distinct(ids)
    ensures groups.Keys == ToSet(ids)
    ensures forall k :: 0 <= k < |ids| ==> groups[ids[k]] == Share(outputs, ids, k)
  {
    var mapped, unmapped := GroupMapped(ids, outputs);
    groups := GroupUnmapped(ids, mapped, unmapped);
  }

  /** A result put on the output queue. */
  datatype Message = Outputs(id: string, outputs: seq<Output>) | Failure(id: string)

  /** Emits one message per request of the batch, in batch order: its share of
      the outputs or, when the engine failed, the failure. */
  method EmitResults(ids: seq<string>, generated: Option<seq<Output>>) returns (out: seq<Message>)
    requires ids != [] && Distinct(ids)
    ensures |out| == |ids|
    ensures forall k :: 0 <= k < |ids| ==>
              out[k] == if generated.None? then Failure(ids[k]) else Outputs(ids[k], Share(generated.value, ids, k))
  {
    out := [];
    var groups := map[];
    if generated.Some? {
      groups := Group(ids, generated.value);
    }
    for i := 0 to |ids|
      invariant |out| == i
      invariant forall k :: 0 <= k < i ==>
                  out[k] == if generated.None? then Failure(ids[k]) else Outputs(ids[k], Share(generated.value, ids, k))
    {
      if generated.None? {
        out := out + [Failure(ids[i])];
      } else {
        out := out + [Outputs(ids[i], groups[ids[i]])];
      }
    }
  }

  /** How often a payload occurs. */
  ghost function Occurs(q: seq<Output>, x: nat): nat {
    if q == [] then 0 else Occurs(q[..|q| - 1], x) + if q[|q| - 1].payload == x then 1 else 0
  }

  /** How often a payload occurs in the shares of the first n requests. */
  ghost function InShares(q: seq<Output>, ids: seq<string>, x: nat, n: nat): nat
    requires n <= |ids|
  {
    if n == 0 then 0 else InShares(q, ids, x, n - 1) + Occurs(Share(q, ids, n - 1), x)
  }

  lemma {:induction false} OccursConcat(a: seq<Output>, b: seq<Output>, x: nat)
    ensures Occurs(a + b, x) == Occurs(a, x) + Occurs(b, x)
  {
    if b == [] {
      assert a + b == a;
    } else {
      OccursConcat(a, b[..|b| - 1], x);
      assert (a + b)[..|a + b| - 1] == a + b[..|b| - 1];
    }
  }

  lemma ForeignSnoc(q: seq<Output>, o: Output, ids: seq<string>)
    ensures Foreign(q + [o], ids) == Foreign(q, ids) + if o.id in ids then [] else [o]
  {
    assert (q + [o])[..|q|] == q;
  }

  lemma MappedSnoc(q: seq<Output>, o: Output, id: string)
    ensures Mapped(q + [o], id) == Mapped(q, id) + if o.id == id then [o] else []
  {
    assert (q + [o])[..|q|] == q;
  }

  lemma DealtSnoc(q: seq<Output>, o: Output, n: nat, k: nat, id: string)
    requires n > 0
    ensures Dealt(q + [o], n, k, id) == Dealt(q, n, k, id) + if Turn(|q|, n) == k then [o.(id := id)] else []
  {
    assert (q + [o])[..|q|] == q;
  }

  lemma OccursSnoc(q: seq<Output>, o: Output, x: nat)
    ensures Occurs(q + [o], x) == Occurs(q, x) + if o.payload == x then 1 else 0
  {
    assert (q + [o])[..|q|] == q;
  }

  /** The request that one more output goes to. */
  ghost predicate GoesTo(q: seq<Output>, o: Output, ids: seq<string>, target: nat)
    requires target < |ids|
  {
    if o.id in ids then ids[target] == o.id else target == Turn(|Foreign(q, ids)|, |ids|)
  }

  lemma OwnGrows(q: seq<Output>, o: Output, ids: seq<string>, x: nat, k: nat, target: nat)
    requires Distinct(ids) && k < |ids| && target < |ids| && o.id == ids[target]
    ensures Occurs(Share(q + [o], ids, k), x)
            == Occurs(Share(q, ids, k), x) + if target == k && o.payload == x then 1 else 0
  {
    var mapped, dealt := Mapped(q, ids[k]), Dealt(Foreign(q, ids), |ids|, k, ids[k]);
    MappedSnoc(q, o, ids[k]);
    ForeignSnoc(q, o, ids);
    assert Foreign(q + [o], ids) == Foreign(q, ids);
    OccursConcat(mapped, dealt, x);
    OccursConcat(Mapped(q + [o], ids[k]), dealt, x);
    OccursSnoc(mapped, o, x);
    assert mapped + [] == mapped;
  }

  lemma DealtGrows(q: seq<Output>, o: Output, ids: seq<string>, x: nat, k: nat)
    requires k < |ids| && o.id !in ids
    ensures Occurs(Share(q + [o], ids, k), x)
            == Occurs(Share(q, ids, k), x) + if Turn(|Foreign(q, ids)|, |ids|) == k && o.payload == x then 1 else 0
  {
    var mapped, dealt := Mapped(q, ids[k]), Dealt(Foreign(q, ids), |ids|, k, ids[k]);
    MappedSnoc(q, o, ids[k]);
    ForeignSnoc(q, o, ids);
    assert Mapped(q + [o], ids[k]) == mapped + [] == mapped;
    assert dealt + [] == dealt;
    DealtSnoc(Foreign(q, ids), o, |ids|, k, ids[k]);
    OccursConcat(mapped, dealt, x);
    OccursConcat(mapped, Dealt(Foreign(q, ids) + [o], |ids|, k, ids[k]), x);
    OccursSnoc(dealt, o.(id := ids[k]), x);
  }

  /** One more output changes one request's share by that output, or not at all. */
  lemma ShareGrows(q: seq<Output>, o: Output, all: seq<Output>, ids: seq<string>, x: nat, k: nat, target: nat)
    requires Distinct(ids) && k < |ids| && target < |ids| && all == q + [o]
    requires GoesTo(q, o, ids, target)
    ensures Occurs(Share(all, ids, k), x)
            == Occurs(Share(q, ids, k), x) + if target == k && o.payload == x then 1 else 0
  {
    if o.id in ids {
      OwnGrows(q, o, ids, x, k, target);
    } else {
      DealtGrows(q, o, ids, x, k);
    }
  }

  lemma {:induction false} NoShares(ids: seq<string>, x: nat, n: nat)
    requires n <= |ids|
    ensures InShares([], ids, x, n) == 0
  {
    if n > 0 {
      NoShares(ids, x, n - 1);
    }
  }

  /** When one share grows by one occurrence, so does their sum. */
  lemma {:induction false} OneMoreShared(q: seq<Output>, all: seq<Output>, ids: seq<string>, x: nat,
                                         target: nat, one: nat, n: nat)
    requires n <= |ids|
    requires forall k :: 0 <= k < n ==>
               Occurs(Share(all, ids, k), x) == Occurs(Share(q, ids, k), x) + if target == k then one else 0
    ensures InShares(all, ids, x, n) == InShares(q, ids, x, n) + if target < n then one else 0
  {
    if n > 0 {
      OneMoreShared(q, all, ids, x, target, one, n - 1);
      assert Occurs(Share(all, ids, n - 1), x) == Occurs(Share(q, ids, n - 1), x) + if target == n - 1 then one else 0;
    }
  }

  /** Every engine output goes to exactly one request of the batch: over all
      shares, each payload occurs as often as the engine produced it. */
  lemma {:induction false} SharesConserve(q: seq<Output>, ids: seq<string>, x: nat)
    requires ids != [] && Distinct(ids)
    ensures InShares(q, ids, x, |ids|) == Occurs(q, x)
  {
    if q == [] {
      NoShares(ids, x, |ids|);
    } else {
      SharesConserve(q[..|q| - 1], ids, x);
      LastShared(q, ids, x);
    }
  }

  lemma LastShared(q: seq<Output>, ids: seq<string>, x: nat)
    requires ids != [] && Distinct(ids) && q != []
    ensures InShares(q, ids, x, |ids|)
            == InShares(q[..|q| - 1], ids, x, |ids|) + if q[|q| - 1].payload == x then 1 else 0
  {
    var before, o := q[..|q| - 1], q[|q| - 1];
    var target := if o.id in ids then IndexOf(ids, o.id) else Turn(|Foreign(before, ids)|, |ids|);
    var one := if o.payload == x then 1 else 0;
    forall k | 0 <= k < |ids|
      ensures Occurs(Share(q, ids, k), x) == Occurs(Share(before, ids, k), x) + if target == k then one else 0
    {
      ShareGrows(before, o, q, ids, x, k, target);
    }
    OneMoreShared(before, q, ids, x, target, one, |ids|);
  }

  function IndexOf(ids: seq<string>, id: string): (k: nat)
    requires id in ids
    ensures k < |ids| && ids[k] == id
  {
    if ids[0] == id then 0 else 1 + IndexOf(ids[1..], id)
  }

  // ---------------------------------------------------------------- pairing

  /** Output j of an engine run on m inputs: counters follow the inputs. */
  ghost predicate ForInputs(q: seq<Output>, base: nat) {
    forall j :: 0 <= j < |q| ==> q[j].counter == base + j
  }

  lemma {:induction false} AllForeign(q: seq<Output>, ids: seq<string>)
    requires forall j :: 0 <= j < |q| ==> q[j].id !in ids
    ensures Foreign(q, ids) == q
  {
    if q != [] {
      AllForeign(q[..|q| - 1], ids);
      assert q == q[..|q| - 1] + [q[|q| - 1]];
    }
  }

  lemma {:induction false} NoneMapped(q: seq<Output>, id: string)
    requires forall j :: 0 <= j < |q| ==> q[j].id != id
    ensures Mapped(q, id) == []
  {
    if q != [] {
      NoneMapped(q[..|q| - 1], id);
    }
  }

  /** Of at most n outputs, request k is dealt the k-th one and no other. */
  lemma {:induction false} DealtOne(q: seq<Output>, n: nat, k: nat, id: string)
    requires k < n && |q| <= n
    ensures Dealt(q, n, k, id) == if k < |q| then [q[k].(id := id)] else []
  {
    if q != [] {
      DealtOne(q[..|q| - 1], n, k, id);
    }
  }

  /** When each of the n requests contributed one input, and the engine's ids
      are counters foreign to the batch, request k is given exactly the output
      of input k, whatever the order in which the engine finished them. */
  lemma PairingCorrect(ids: seq<string>, expected: seq<Output>, base: nat, finished: seq<Output>, k: nat)
    requires Distinct(ids) && |expected| == |ids| && k < |ids|
    requires ForInputs(expected, base) && forall j :: 0 <= j < |expected| ==> expected[j].id !in ids
    requires multiset(finished) == multiset(expected)
    ensures Share(Sort(finished), ids, k) == [expected[k].(id := ids[k])]
  {
    ShareIsDealt(ids, expected, base, finished, k);
    DealtOne(expected, |ids|, k, ids[k]);
  }

  /** Engine, grouping and emission together: with one input per request, the
      k-th message carries request k's own output and nothing else, in whatever
      order the engine's steps finished the requests. */
  method ServeBatch(ids: seq<string>, steps: seq<seq<StepOutput>>, ghost expected: seq<Output>, ghost base: nat)
    returns (out: seq<Message>)
    requires ids != [] && Distinct(ids) && |expected| == |ids|
    requires ForInputs(expected, base) && forall j :: 0 <= j < |expected| ==> expected[j].id !in ids
    requires multiset(AllFinished(steps)) == multiset(expected)
    ensures |out| == |ids|
    ensures forall k :: 0 <= k < |ids| ==> out[k] == Outputs(ids[k], [expected[k].(id := ids[k])])
  {
    var generated := RunEngine(steps);
    out := EmitResults(ids, Some(generated));
    forall k | 0 <= k < |ids| ensures Share(generated, ids, k) == [expected[k].(id := ids[k])] {
      PairingCorrect(ids, expected, base, AllFinished(steps), k);
    }
  }

  // --------------------------------------------- when dealing in turn is right

  /** The request that contributed the j-th input of the batch. */
  function OwnerOf(counts: seq<nat>, j: nat): (k: nat)
    requires j < Sum(counts)
    ensures k < |counts|
  {
    var last := |counts| - 1;
    if j >= Sum(counts[..last]) then last else OwnerOf(counts[..last], j)
  }

  /** Ones followed by zeros. */
  ghost predicate OnesThenZeros(counts: seq<nat>) {
    && (forall i :: 0 <= i < |counts| ==> counts[i] <= 1)
    && (forall i, j :: 0 <= i < j < |counts| && counts[i] == 0 ==> counts[j] == 0)
  }

  /** Entries of at most one add up to their number only when all are one. */
  lemma {:induction false} OnesSum(counts: seq<nat>)
    requires forall i :: 0 <= i < |counts| ==> counts[i] <= 1
    ensures Sum(counts) <= |counts|
    ensures Sum(counts) == |counts| <==> forall i :: 0 <= i < |counts| ==> counts[i] == 1
  {
    if counts != [] {
      OnesSum(counts[..|counts| - 1]);
    }
  }

  lemma {:induction false} OnesOwn(counts: seq<nat>, j: nat)
    requires OnesThenZeros(counts) && j < Sum(counts)
    ensures OwnerOf(counts, j) == j && Sum(counts) <= |counts|
  {
    var last := |counts| - 1;
    OnesSum(counts[..last]);
    if j < Sum(counts[..last]) {
      OnesOwn(counts[..last], j);
    }
  }

  /** When every input is its own request's, the counts are ones, then zeros. */
  lemma {:induction false} OwnIsOnes(counts: seq<nat>)
    requires forall j :: 0 <= j < Sum(counts) ==> OwnerOf(counts, j) == j
    ensures OnesThenZeros(counts)
  {
    if counts != [] {
      var last := |counts| - 1;
      forall j | 0 <= j < Sum(counts[..last]) ensures OwnerOf(counts[..last], j) == j {
        assert OwnerOf(counts, j) == j;
      }
      OwnIsOnes(counts[..last]);
      if counts[last] > 0 {
        assert OwnerOf(counts, Sum(counts[..last])) == last;
        assert counts[last] > 1 ==> OwnerOf(counts, last + 1) == last;
        OnesSum(counts[..last]);
        assert forall i :: 0 <= i < last ==> counts[..last][i] == 1;
      }
    }
  }

  lemma {:induction false} OwnerMonotone(counts: seq<nat>, i: nat, j: nat)
    requires i <= j < Sum(counts)
    ensures OwnerOf(counts, i) <= OwnerOf(counts, j)
  {
    var last := |counts| - 1;
    if j < Sum(counts[..last]) {
      OwnerMonotone(counts[..last], i, j);
    }
  }

  /** Dealing in turn is right for every input: the j-th output, dealt to the
      request at the remainder of j, answers an input of that request. */
  ghost predicate DealtRight(counts: seq<nat>)
    requires counts != []
  {
    forall j :: 0 <= j < Sum(counts) ==> OwnerOf(counts, j) == Turn(j, |counts|)
  }

  /** With two or more requests, dealing goes wrong once it comes round. */
  lemma DealtOnceOnly(counts: seq<nat>)
    requires |counts| > 1 && DealtRight(counts)
    ensures Sum(counts) <= |counts|
  {
    assert Turn(|counts|, |counts|) == Turn(0, |counts|) == 0 && Turn(1, |counts|) == 1;
    if Sum(counts) > |counts| {
      OwnerMonotone(counts, 1, |counts|);
    }
  }

  /** A request may contribute several inputs or none. Dealing outputs in turn
      gives every output to the request whose input it answers exactly when
      there is one request, or the requests contribute one input each up to
      some point and none after it. */
  lemma DealingRightIff(counts: seq<nat>)
    requires counts != []
    ensures DealtRight(counts) <==> |counts| == 1 || OnesThenZeros(counts)
  {
    if |counts| > 1 {
      if OnesThenZeros(counts) {
        forall j | 0 <= j < Sum(counts) ensures OwnerOf(counts, j) == Turn(j, |counts|) {
          OnesOwn(counts, j);
        }
      }
      if DealtRight(counts) {
        DealtOnceOnly(counts);
        forall j | 0 <= j < Sum(counts) ensures OwnerOf(counts, j) == j {
          assert OwnerOf(counts, j) == Turn(j, |counts|);
        }
        OwnIsOnes(counts);
      }
    }
  }

  /** The outputs that answer the inputs of request k, in order, relabelled. */
  function Owned(q: seq<Output>, counts: seq<nat>, k: nat, id: string): seq<Output>
    requires |q| <= Sum(counts)
  {
    if q == [] then []
    else Owned(q[..|q| - 1], counts, k, id) + if OwnerOf(counts, |q| - 1) == k then [q[|q| - 1].(id := id)] else []
  }

  lemma {:induction false} DealtIsOwned(q: seq<Output>, counts: seq<nat>, k: nat, id: string)
    requires counts != [] && |q| <= Sum(counts) && DealtRight(counts)
    ensures Dealt(q, |counts|, k, id) == Owned(q, counts, k, id)
  {
    if q != [] {
      DealtIsOwned(q[..|q| - 1], counts, k, id);
      assert OwnerOf(counts, |q| - 1) == Turn(|q| - 1, |counts|);
    }
  }

  lemma {:induction false} DealtHas(q: seq<Output>, n: nat, j: nat, id: string)
    requires n > 0 && j < |q|
    ensures q[j].(id := id) in Dealt(q, n, Turn(j, n), id)
  {
    if j < |q| - 1 {
      DealtHas(q[..|q| - 1], n, j, id);
    }
  }

  lemma {:induction false} OwnedFrom(q: seq<Output>, counts: seq<nat>, k: nat, id: string, o: Output) returns (j: nat)
    requires |q| <= Sum(counts) && o in Owned(q, counts, k, id)
    ensures j < |q| && OwnerOf(counts, j) == k && o == q[j].(id := id)
  {
    if o in Owned(q[..|q| - 1], counts, k, id) {
      j := OwnedFrom(q[..|q| - 1], counts, k, id, o);
    } else {
      j := |q| - 1;
    }
  }

  /** An output dealt and owned within one share was dealt to its owner. */
  lemma DealtToOwner(expected: seq<Output>, counts: seq<nat>, n: nat, base: nat, j: nat, id: string)
    requires n > 0 && |expected| == Sum(counts) && ForInputs(expected, base) && j < |expected|
    requires Dealt(expected, n, Turn(j, n), id) == Owned(expected, counts, Turn(j, n), id)
    ensures OwnerOf(counts, j) == Turn(j, n)
  {
    DealtHas(expected, n, j, id);
    var i := OwnedFrom(expected, counts, Turn(j, n), id, expected[j].(id := id));
    assert expected[j].counter == base + j && expected[i].counter == base + i;
  }

  /** When every share is the owner's, each output was dealt to its owner. */
  lemma OwnedIsDealtRight(expected: seq<Output>, counts: seq<nat>, ids: seq<string>, base: nat)
    requires ids != [] && |counts| == |ids| && |expected| == Sum(counts) && ForInputs(expected, base)
    requires forall k :: 0 <= k < |ids| ==> Dealt(expected, |ids|, k, ids[k]) == Owned(expected, counts, k, ids[k])
    ensures DealtRight(counts)
  {
    forall j | 0 <= j < Sum(counts) ensures OwnerOf(counts, j) == Turn(j, |counts|) {
      DealtToOwner(expected, counts, |ids|, base, j, ids[Turn(j, |ids|)]);
    }
  }

  /** The shares of a sorted run of outputs under foreign ids are those dealt. */
  lemma ShareIsDealt(ids: seq<string>, expected: seq<Output>, base: nat, finished: seq<Output>, k: nat)
    requires ids != [] && k < |ids| && ForInputs(expected, base)
    requires forall j :: 0 <= j < |expected| ==> expected[j].id !in ids
    requires multiset(finished) == multiset(expected)
    ensures Share(Sort(finished), ids, k) == Dealt(expected, |ids|, k, ids[k])
  {
    SortGives(expected, base, finished);
    ForeignShare(expected, ids, k);
  }

  lemma ForeignShare(q: seq<Output>, ids: seq<string>, k: nat)
    requires k < |ids| && forall j :: 0 <= j < |q| ==> q[j].id !in ids
    ensures Share(q, ids, k) == Dealt(q, |ids|, k, ids[k])
  {
    AllForeign(q, ids);
    NoneMapped(q, ids[k]);
  }

  lemma SortGives(expected: seq<Output>, base: nat, finished: seq<Output>)
    requires ForInputs(expected, base) && multiset(finished) == multiset(expected)
    ensures Sort(finished) == expected
  {
    SortSorts(finished);
    SortedUnique(Sort(finished), expected);
  }

  /** Requests may contribute any number of inputs. Whatever the order in which
      the engine finishes them, every request is given exactly the outputs of
      its own inputs if and only if there is one request, or the requests
      contribute one input each up to some point and none after it. */
  lemma PairingRightIff(ids: seq<string>, counts: seq<nat>, expected: seq<Output>, base: nat, finished: seq<Output>)
    requires ids != [] && |counts| == |ids| && |expected| == Sum(counts)
    requires ForInputs(expected, base) && forall j :: 0 <= j < |expected| ==> expected[j].id !in ids
    requires multiset(finished) == multiset(expected)
    ensures (forall k :: 0 <= k < |ids| ==> Share(Sort(finished), ids, k) == Owned(expected, counts, k, ids[k]))
            <==> |counts| == 1 || OnesThenZeros(counts)
  {
    forall k | 0 <= k < |ids| ensures Share(Sort(finished), ids, k) == Dealt(expected, |ids|, k, ids[k]) {
      ShareIsDealt(ids, expected, base, finished, k);
    }
    DealingRightIff(counts);
    if DealtRight(counts) {
      forall k | 0 <= k < |ids| ensures Dealt(expected, |ids|, k, ids[k]) == Owned(expected, counts, k, ids[k]) {
        DealtIsOwned(expected, counts, k, ids[k]);
      }
    }
    if forall k :: 0 <= k < |ids| ==> Share(Sort(finished), ids, k) == Owned(expected, counts, k, ids[k]) {
      OwnedIsDealtRight(expected, counts, ids, base);
    }
  }

  lemma {:induction false} AllOwned(q: seq<Output>, counts: seq<nat>, k: nat, id: string)
    requires |q| <= Sum(counts) && forall j :: 0 <= j < |q| ==> OwnerOf(counts, j) != k
    ensures Owned(q, counts, k, id) == []
  {
    if q != [] {
      AllOwned(q[..|q| - 1], counts, k, id);
    }
  }

  /** Two requests, of which the first contributed both inputs: the second
      request is given the output of the first one's second input. */
  lemma DealtToStranger(q: seq<Output>, counts: seq<nat>, ids: seq<string>)
    requires counts == [2, 0] && ids == ["a", "b"]
    requires |q| == 2 && ForInputs(q, 0) && forall j :: 0 <= j < |q| ==> q[j].id !in ids
    ensures Sum(counts) == 2 && Owned(q, counts, 1, "b") == []
    ensures Share(Sort(q), ids, 1) == [q[1].(id := "b")]
  {
    assert counts[..1] == [2] && [2][..0] == [];
    assert Sum([2]) == 2 && OwnerOf([2], 0) == 0 && OwnerOf([2], 1) == 0;
    AllOwned(q, counts, 1, "b");
    ShareIsDealt(ids, q, 0, q, 1);
    DealtOne(q, 2, 1, "b");
  }
}
