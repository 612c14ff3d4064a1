/** Accumulation of a request's multimodal payloads: tensors of one key are
    collected in a list and concatenated only when the request finishes. */
module Multimodal {
  import opened Common

  /** A tensor as its rows along the first dimension, with the shape of a row;
      a zero-dimensional tensor has no first dimension. */
  datatype Tensor = Tensor(rowShape: Option<seq<nat>>, rows: seq<int>)

  datatype Leaf = Ten(t: Tensor) | Many(items: seq<Leaf>) | Other(x: int)
  datatype Value = One(leaf: Leaf) | Dict(sub: map<string, Leaf>)
  type Acc = map<string, Value>

  datatype Payload = Whole(leaf: Leaf) | Entries(entries: seq<(string, Value)>)

  // --------------------------------------------------------- concatenation

  function Tensors(items: seq<Leaf>): (ts: seq<Tensor>)
    requires forall l :: l in items ==> l.Ten?
    ensures |ts| == |items|
  {
    seq(|items|, i requires 0 <= i < |items| => items[i].t)
  }

  /** Tensors can be concatenated along the first dimension when all have one
      and their rows have the same shape. */
  predicate CanCat(ts: seq<Tensor>) {
    ts != [] && ts[0].rowShape.Some? && forall t :: t in ts ==> t.rowShape == ts[0].rowShape
  }

  function Rows(ts: seq<Tensor>): seq<int> {
    if ts == [] then [] else Rows(ts[..|ts| - 1]) + ts[|ts| - 1].rows
  }

  function Cat(ts: seq<Tensor>): Tensor
    requires ts != []
  {
    Tensor(ts[0].rowShape, Rows(ts))
  }

  /** A list headed by a tensor becomes its concatenation, or its last item
      when that fails; everything else stays. */
  function CatLeaf(l: Leaf): Leaf {
    if !(l.Many? && l.items != [] && l.items[0].Ten?) then l
    else if (forall i :: i in l.items ==> i.Ten?) && CanCat(Tensors(l.items)) then Ten(Cat(Tensors(l.items)))
    else l.items[|l.items| - 1]
  }

  function CatDict(sub: map<string, Leaf>): map<string, Leaf> {
    map k | k in sub :: CatLeaf(sub[k])
  }

  function CatValue(k: string, v: Value): Value {
    match v
    case One(l) => if k == "audio" then v else One(CatLeaf(l))
    case Dict(sub) => Dict(CatDict(sub))
  }

  function Consolidated(acc: Acc): Acc {
    map k | k in acc :: CatValue(k, acc[k])
  }

  // --------------------------------------------------------------- merging

  datatype Policy = Deferred | Eager

  /** Deferred: a further tensor starts or extends a list. Eager: it is
      concatenated at once. */
  function Join(how: Policy, existing: Leaf, v: Leaf): Leaf {
    match how
    case Deferred =>
      if v.Ten? && existing.Ten? then Many([existing, v])
      else if v.Ten? && existing.Many? then Many(existing.items + [v])
      else v
    case Eager =>
      if v.Ten? && existing.Ten? && CanCat([existing.t, v.t]) then Ten(Cat([existing.t, v.t])) else v
  }

  function MergeDict(how: Policy, existing: map<string, Leaf>, v: map<string, Leaf>): map<string, Leaf> {
    map k | k in existing.Keys + v.Keys ::
      if k !in existing then v[k] else if k !in v then existing[k] else Join(how, existing[k], v[k])
  }

  function MergeValue(how: Policy, existing: Value, v: Value): Value {
    if existing.One? && v.One? then One(Join(how, existing.leaf, v.leaf))
    else if existing.Dict? && v.Dict? then Dict(MergeDict(how, existing.sub, v.sub))
    else v
  }

  function Merge(how: Policy, acc: Acc, incoming: Acc): Acc {
    map k | k in acc.Keys + incoming.Keys ::
      if k !in acc then incoming[k] else if k !in incoming then acc[k] else MergeValue(how, acc[k], incoming[k])
  }

  // -------------------------------------------------------------- payloads

  function LowerChar(c: char): char {
    if 'A' <= c <= 'Z' then c - 'A' + 'a' else c
  }

  function Lower(s: string): string {
    seq(|s|, i requires 0 <= i < |s| => LowerChar(s[i]))
  }

  function Target(mmType: string): string {
    if mmType == "" then "hidden" else mmType
  }

  /** The producer's generic names are replaced by the modality's. */
  function Renamed(k: string, target: string): string {
    if k == "model_outputs" || k == "hidden" then target else k
  }

  function IncomingEntries(entries: seq<(string, Value)>, target: string): Acc {
    if entries == [] then map[]
    else
      var (k, v) := entries[|entries| - 1];
      IncomingEntries(entries[..|entries| - 1], target)[Renamed(k, target) := v]
  }

  function Incoming(p: Payload, mmType: string): Acc {
    match p
    case Whole(l) => map[Target(mmType) := One(l)]
    case Entries(es) => IncomingEntries(es, Target(mmType))
  }

  // ----------------------------------------------------------------- state

  /** The modality name ("" while unset) and the accumulated dictionary. */
  datatype State = State(mmType: string, acc: Option<Acc>)

  datatype Event = Add(payload: Option<Payload>, mmType: string) | Consolidate

  function TypeAfter(t: string, e: Event): string {
    if e.Add? && e.payload.Some? && e.mmType != "" then Lower(e.mmType) else t
  }

  function Apply(how: Policy, s: State, e: Event): State {
    match e
    case Add(None, _) => s
    case Add(Some(p), _) =>
      var t := TypeAfter(s.mmType, e);
      var incoming := Incoming(p, t);
      State(t, Some(if s.acc.None? then incoming else Merge(how, s.acc.value, incoming)))
    case Consolidate => if s.acc.None? then s else State(s.mmType, Some(Consolidated(s.acc.value)))
  }

  const Empty := State("", None)

  function Run(how: Policy, events: seq<Event>): State {
    if events == [] then Empty else Apply(how, Run(how, events[..|events| - 1]), events[|events| - 1])
  }

  // ------------------------------------------------------------ properties

  /** A place for a value: a top-level key or a key of a nested dictionary. */
  datatype Path = Top(k: string) | Sub(k: string, sk: string)

  function Lookup(acc: Acc, p: Path): Option<Leaf> {
    if p.k !in acc then None
    else match p
      case Top(k) => if acc[k].One? then Some(acc[k].leaf) else None
      case Sub(k, sk) => if acc[k].Dict? && sk in acc[k].sub then Some(acc[k].sub[sk]) else None
  }

  /** The key holds the kind of value the place expects. */
  predicate Shaped(acc: Acc, p: Path) {
    p.k in acc ==> acc[p.k].One? == p.Top?
  }

  /** What one payload puts at a place. */
  function Given(mmType: string, e: Event, p: Path): Option<Leaf> {
    if e.Add? && e.payload.Some? then Lookup(Incoming(e.payload.value, TypeAfter(mmType, e)), p) else None
  }

  function TypeOf(events: seq<Event>): string {
    if events == [] then "" else TypeAfter(TypeOf(events[..|events| - 1]), events[|events| - 1])
  }

  /** Every payload that mentions the place puts a tensor there. */
  ghost predicate Consistent(events: seq<Event>, p: Path) {
    events != [] ==>
      var before, e := events[..|events| - 1], events[|events| - 1];
      var t := TypeOf(before);
      && Consistent(before, p)
      && (e.Add? && e.payload.Some? ==> Shaped(Incoming(e.payload.value, TypeAfter(t, e)), p))
      && (Given(t, e, p).Some? ==> Given(t, e, p).value.Ten?)
  }

  /** The tensors put at the place, in arrival order. */
  function Pieces(events: seq<Event>, p: Path): seq<Tensor> {
    if events == [] then []
    else
      var before, e := events[..|events| - 1], events[|events| - 1];
      var g := Given(TypeOf(before), e, p);
      Pieces(before, p) + if g.Some? && g.value.Ten? then [g.value.t] else []
  }

  ghost predicate Compatible(ts: seq<Tensor>) {
    |ts| <= 1 || CanCat(ts)
  }

  /** The accumulated value stands for the pieces: their concatenation, or a
      list of tensors with the same rows. */
  ghost predicate StandsFor(l: Option<Leaf>, ts: seq<Tensor>) {
    && (l.None? <==> ts == [])
    && (l.Some? && l.value.Ten? ==> l.value.t == Cat(ts))
    && (l.Some? && !l.value.Ten? ==>
          && l.value.Many? && |l.value.items| > 1 && (forall i :: i in l.value.items ==> i.Ten?)
          && CanCat(Tensors(l.value.items)) && Cat(Tensors(l.value.items)) == Cat(ts))
  }

  function Dictionary(s: State): Acc {
    if s.acc.None? then map[] else s.acc.value
  }

  function Joined(how: Policy, l: Option<Leaf>, v: Option<Leaf>): Option<Leaf> {
    if l.None? then v else if v.None? then l else Some(Join(how, l.value, v.value))
  }

  /** Merging acts on each place separately. */
  lemma MergeAt(how: Policy, acc: Acc, incoming: Acc, p: Path)
    requires Shaped(acc, p) && Shaped(incoming, p)
    ensures Shaped(Merge(how, acc, incoming), p)
    ensures Lookup(Merge(how, acc, incoming), p) == Joined(how, Lookup(acc, p), Lookup(incoming, p))
  {
  }

  lemma ConsolidateAt(acc: Acc, p: Path)
    ensures Shaped(acc, p) ==> Shaped(Consolidated(acc), p)
    ensures Lookup(Consolidated(acc), p) ==
            if Lookup(acc, p).None? || p == Top("audio") then Lookup(acc, p) else Some(CatLeaf(Lookup(acc, p).value))
  {
  }

  lemma RowsAppend(ts: seq<Tensor>, t: Tensor)
    ensures Rows(ts + [t]) == Rows(ts) + t.rows
  {
    assert (ts + [t])[..|ts|] == ts;
  }

  lemma RowsOfOne(t: Tensor)
    ensures Rows([t]) == t.rows && Cat([t]) == t
  {
    RowsAppend([], t);
    assert [] + [t] == [t];
  }

  lemma CompatiblePrefix(ts: seq<Tensor>, t: Tensor)
    requires Compatible(ts + [t])
    ensures Compatible(ts)
    ensures ts != [] ==> CanCat(ts) && t.rowShape == ts[0].rowShape
  {
    if ts != [] {
      assert (ts + [t])[0] == ts[0] && t in ts + [t];
      assert forall x :: x in ts ==> x in ts + [t];
    }
  }

  /** One more piece at a place, deferred or eager, keeps what it stands for. */
  lemma JoinStands(how: Policy, l: Option<Leaf>, ts: seq<Tensor>, t: Tensor)
    requires StandsFor(l, ts) && Compatible(ts + [t])
    requires how == Eager && l.Some? ==> l.value.Ten?
    ensures StandsFor(Joined(how, l, Some(Ten(t))), ts + [t])
    ensures how == Eager ==> Joined(how, l, Some(Ten(t))).value.Ten?
  {
    CompatiblePrefix(ts, t);
    RowsAppend(ts, t);
    RowsOfOne(t);
    if l.None? {
      assert ts + [t] == [t];
    } else if l.value.Ten? {
      TensorStands(how, l.value.t, ts, t);
    } else {
      ListStands(l.value.items, ts, t);
    }
  }

  lemma TensorStands(how: Policy, c: Tensor, ts: seq<Tensor>, t: Tensor)
    requires ts != [] && c == Cat(ts) && CanCat(ts) && t.rowShape == ts[0].rowShape
    ensures StandsFor(Some(Join(how, Ten(c), Ten(t))), ts + [t])
    ensures how == Eager ==> Join(how, Ten(c), Ten(t)).Ten?
  {
    RowsAppend(ts, t);
    PairCat(c, t);
    if how == Eager {
      assert Cat([c, t]) == Cat(ts + [t]);
    } else {
      assert Tensors([Ten(c), Ten(t)]) == [c, t];
    }
  }

  lemma ListStands(items: seq<Leaf>, ts: seq<Tensor>, t: Tensor)
    requires StandsFor(Some(Many(items)), ts) && t.rowShape == ts[0].rowShape
    ensures StandsFor(Some(Many(items + [Ten(t)])), ts + [t])
  {
    var earlier := Tensors(items);
    RowsAppend(ts, t);
    RowsAppend(earlier, t);
    assert Tensors(items + [Ten(t)]) == earlier + [t];
    assert forall i :: i in items + [Ten(t)] ==> i in items || i == Ten(t);
  }

  lemma PairCat(a: Tensor, b: Tensor)
    ensures Rows([a, b]) == a.rows + b.rows
  {
    RowsOfOne(a);
    RowsAppend([a], b);
    assert [a] + [b] == [a, b];
  }

  /** Consolidating a value keeps what it stands for and leaves a tensor. */
  lemma CatStands(l: Leaf, ts: seq<Tensor>)
    requires StandsFor(Some(l), ts)
    ensures CatLeaf(l) == Ten(Cat(ts))
    ensures StandsFor(Some(CatLeaf(l)), ts)
  {
  }

  lemma RunType(how: Policy, events: seq<Event>)
    ensures Run(how, events).mmType == TypeOf(events)
  {
  }

  lemma MergeIntoNothing(how: Policy, incoming: Acc)
    ensures Merge(how, map[], incoming) == incoming
  {
  }

  lemma ApplyAt(how: Policy, s: State, e: Event, p: Path)
    requires e.Add? && e.payload.Some? && Shaped(Dictionary(s), p)
    requires Shaped(Incoming(e.payload.value, TypeAfter(s.mmType, e)), p)
    ensures Shaped(Dictionary(Apply(how, s, e)), p)
    ensures Lookup(Dictionary(Apply(how, s, e)), p) == Joined(how, Lookup(Dictionary(s), p), Given(s.mmType, e, p))
  {
    MergeIntoNothing(how, Incoming(e.payload.value, TypeAfter(s.mmType, e)));
    MergeAt(how, Dictionary(s), Incoming(e.payload.value, TypeAfter(s.mmType, e)), p);
  }

  ghost predicate AllAdds(events: seq<Event>) {
    forall e :: e in events ==> e.Add?
  }

  /** Over any run, with consolidations anywhere, the value at a place stands
      for all pieces that arrived there; the eager run holds a plain tensor. */
  lemma {:induction false} RunStands(how: Policy, events: seq<Event>, p: Path)
    requires how == Deferred ==> p != Top("audio")
    requires how == Eager ==> AllAdds(events)
    requires Consistent(events, p) && Compatible(Pieces(events, p))
    ensures var d := Dictionary(Run(how, events));
            && Shaped(d, p) && StandsFor(Lookup(d, p), Pieces(events, p))
            && (how == Eager && Lookup(d, p).Some? ==> Lookup(d, p).value.Ten?)
  {
    if events != [] {
      var before, e := events[..|events| - 1], events[|events| - 1];
      var g := Given(TypeOf(before), e, p);
      RunType(how, before);
      if g.Some? {
        CompatiblePrefix(Pieces(before, p), g.value.t);
      } else {
        assert Pieces(events, p) == Pieces(before, p);
      }
      RunStands(how, before, p);
      StepStands(how, Run(how, before), e, p, Pieces(before, p));
    }
  }

  lemma StepStands(how: Policy, s: State, e: Event, p: Path, ts: seq<Tensor>)
    requires how == Deferred ==> p != Top("audio")
    requires how == Eager ==> e.Add?
    requires e.Add? && e.payload.Some? ==> Shaped(Incoming(e.payload.value, TypeAfter(s.mmType, e)), p)
    requires var g := Given(s.mmType, e, p);
             g.Some? ==> g.value.Ten? && Compatible(ts + [g.value.t])
    requires Shaped(Dictionary(s), p) && StandsFor(Lookup(Dictionary(s), p), ts)
    requires how == Eager && Lookup(Dictionary(s), p).Some? ==> Lookup(Dictionary(s), p).value.Ten?
    ensures var d := Dictionary(Apply(how, s, e));
            var g := Given(s.mmType, e, p);
            && Shaped(d, p) && StandsFor(Lookup(d, p), if g.Some? then ts + [g.value.t] else ts)
            && (how == Eager && Lookup(d, p).Some? ==> Lookup(d, p).value.Ten?)
  {
    if e.Consolidate? {
      ConsolidateAt(Dictionary(s), p);
      if Lookup(Dictionary(s), p).Some? {
        CatStands(Lookup(Dictionary(s), p).value, ts);
      }
    } else if e.payload.Some? {
      ApplyAt(how, s, e, p);
      var g := Given(s.mmType, e, p);
      if g.Some? {
        JoinStands(how, Lookup(Dictionary(s), p), ts, g.value.t);
      }
    }
  }

  /** Deferred accumulation with a final consolidation agrees with eager
      concatenation, wherever else consolidations happen on the way. */
  lemma DeferredIsEager(events: seq<Event>, adds: seq<Event>, p: Path)
    requires adds == Adds(events) && p != Top("audio")
    requires Consistent(events, p) && Compatible(Pieces(events, p))
    ensures Lookup(Consolidated(Dictionary(Run(Deferred, events))), p) == Lookup(Dictionary(Run(Eager, adds)), p)
    ensures Lookup(Consolidated(Dictionary(Run(Deferred, events))), p) ==
            if Pieces(events, p) == [] then None else Some(Ten(Cat(Pieces(events, p))))
  {
    AddsSame(events, p);
    AddsAdd(events);
    RunStands(Deferred, events, p);
    RunStands(Eager, adds, p);
    var d := Dictionary(Run(Deferred, events));
    ConsolidateAt(d, p);
    if Lookup(d, p).Some? {
      CatStands(Lookup(d, p).value, Pieces(events, p));
    }
  }

  /** The additions of a run, without the consolidations between them. */
  function Adds(events: seq<Event>): seq<Event> {
    if events == [] then []
    else Adds(events[..|events| - 1]) + if events[|events| - 1].Add? then [events[|events| - 1]] else []
  }

  lemma Snoc(before: seq<Event>, e: Event, p: Path)
    ensures var t := TypeOf(before);
            var g := Given(t, e, p);
            && TypeOf(before + [e]) == TypeAfter(t, e)
            && Pieces(before + [e], p) == Pieces(before, p) + (if g.Some? && g.value.Ten? then [g.value.t] else [])
            && (Consistent(before + [e], p) <==>
                && Consistent(before, p)
                && (e.Add? && e.payload.Some? ==> Shaped(Incoming(e.payload.value, TypeAfter(t, e)), p))
                && (g.Some? ==> g.value.Ten?))
  {
    var all := before + [e];
    assert all[..|all| - 1] == before && all[|all| - 1] == e;
  }

  lemma {:induction false} AddsAdd(events: seq<Event>)
    ensures AllAdds(Adds(events))
  {
    if events != [] {
      AddsAdd(events[..|events| - 1]);
    }
  }

  lemma {:induction false} AddsSame(events: seq<Event>, p: Path)
    requires Consistent(events, p)
    ensures var a := Adds(events);
            Consistent(a, p) && Pieces(a, p) == Pieces(events, p) && TypeOf(a) == TypeOf(events)
  {
    if events != [] {
      var before, e := events[..|events| - 1], events[|events| - 1];
      AddsSame(before, p);
      if e.Add? {
        Snoc(Adds(before), e, p);
      } else {
        assert Adds(events) == Adds(before);
      }
      assert before + [e] == events;
      Snoc(before, e, p);
    }
  }

  // --------------------------------------------------- chunks and outcomes

  /** What the deferred form holds for the pieces before any concatenation. */
  function Chunks(ts: seq<Tensor>): Option<Leaf> {
    if ts == [] then None
    else if |ts| == 1 then Some(Ten(ts[0]))
    else Some(Many(seq(|ts|, i requires 0 <= i < |ts| => Ten(ts[i]))))
  }

  lemma ChunksGrow(ts: seq<Tensor>, t: Tensor)
    ensures Joined(Deferred, Chunks(ts), Some(Ten(t))) == Chunks(ts + [t])
  {
    if |ts| == 1 {
      assert Chunks(ts + [t]).value.items == [Ten(ts[0]), Ten(t)];
    } else if |ts| > 1 {
      assert Chunks(ts).value.items + [Ten(t)] == Chunks(ts + [t]).value.items;
    }
  }

  /** While nothing is consolidated, and always for top-level audio, a place
      keeps its pieces: one tensor, or all of them in arrival order, whatever
      their shapes. */
  lemma {:induction false} KeepsChunks(events: seq<Event>, p: Path)
    requires Consistent(events, p) && (AllAdds(events) || p == Top("audio"))
    ensures var d := Dictionary(Run(Deferred, events)); Shaped(d, p) && Lookup(d, p) == Chunks(Pieces(events, p))
  {
    if events != [] {
      var before, e := events[..|events| - 1], events[|events| - 1];
      var s := Run(Deferred, before);
      KeepsChunks(before, p);
      RunType(Deferred, before);
      var g := Given(s.mmType, e, p);
      if g.Some? {
        ChunksGrow(Pieces(before, p), g.value.t);
      } else {
        assert Pieces(events, p) == Pieces(before, p);
      }
      if e.Consolidate? {
        ConsolidateAt(Dictionary(s), p);
      } else if e.payload.Some? {
        ApplyAt(Deferred, s, e, p);
      }
    }
  }

  /** One consolidation of the pieces held: their concatenation when they fit
      together, and otherwise only the last. */
  function Settled(ts: seq<Tensor>): (r: seq<Tensor>)
    ensures |r| == Min(|ts|, 1)
  {
    if ts == [] then [] else [if |ts| == 1 || CanCat(ts) then Cat(ts) else ts[|ts| - 1]]
  }

  /** The pieces a place holds: those since the last consolidation, behind the
      one tensor that it left. */
  function Held(events: seq<Event>, p: Path): seq<Tensor> {
    if events == [] then []
    else
      var before, e := events[..|events| - 1], events[|events| - 1];
      var g := Given(TypeOf(before), e, p);
      if e.Consolidate? then Settled(Held(before, p))
      else Held(before, p) + if g.Some? && g.value.Ten? then [g.value.t] else []
  }

  lemma ChunksSettle(ts: seq<Tensor>)
    requires ts != []
    ensures Some(CatLeaf(Chunks(ts).value)) == Chunks(Settled(ts))
  {
    if |ts| == 1 {
      RowsOfOne(ts[0]);
      assert ts == [ts[0]];
    } else {
      assert Tensors(Chunks(ts).value.items) == ts;
    }
  }

  /** Over any run, with consolidations anywhere and whatever the shapes, a place
      other than top-level audio holds exactly these pieces. */
  lemma {:induction false} HoldsPieces(events: seq<Event>, p: Path)
    requires Consistent(events, p) && p != Top("audio")
    ensures var d := Dictionary(Run(Deferred, events)); Shaped(d, p) && Lookup(d, p) == Chunks(Held(events, p))
  {
    if events != [] {
      var before, e := events[..|events| - 1], events[|events| - 1];
      HoldsPieces(before, p);
      RunType(Deferred, before);
      HoldsNext(Run(Deferred, before), e, p, Held(before, p));
      assert e.Add? && Given(TypeOf(before), e, p).None? ==> Held(events, p) == Held(before, p);
    }
  }

  lemma HoldsNext(s: State, e: Event, p: Path, ts: seq<Tensor>)
    requires p != Top("audio") && Shaped(Dictionary(s), p) && Lookup(Dictionary(s), p) == Chunks(ts)
    requires e.Add? && e.payload.Some? ==> Shaped(Incoming(e.payload.value, TypeAfter(s.mmType, e)), p)
    requires var g := Given(s.mmType, e, p); g.Some? ==> g.value.Ten?
    ensures var d, g := Dictionary(Apply(Deferred, s, e)), Given(s.mmType, e, p);
            && Shaped(d, p)
            && Lookup(d, p) == Chunks(if e.Consolidate? then Settled(ts) else if g.Some? then ts + [g.value.t] else ts)
  {
    if e.Consolidate? {
      ConsolidateAt(Dictionary(s), p);
      if ts != [] {
        ChunksSettle(ts);
      }
    } else if e.payload.Some? {
      ApplyAt(Deferred, s, e, p);
      if Given(s.mmType, e, p).Some? {
        ChunksGrow(ts, Given(s.mmType, e, p).value.t);
      }
    }
  }

  lemma {:induction false} AddsHold(events: seq<Event>, p: Path)
    requires AllAdds(events)
    ensures Held(events, p) == Pieces(events, p)
  {
    if events != [] {
      AddsHold(events[..|events| - 1], p);
    }
  }

  /** The outcome of a final consolidation, for any shapes and with any earlier
      consolidations: the pieces held, settled. When there were none, that is
      the concatenation of all pieces, or the last piece if they do not fit. */
  lemma FinalOutcome(events: seq<Event>, p: Path)
    requires Consistent(events, p) && p != Top("audio")
    ensures var outcome := Lookup(Consolidated(Dictionary(Run(Deferred, events))), p);
            var ts := Pieces(events, p);
            && outcome == Chunks(Settled(Held(events, p)))
            && (AllAdds(events) ==>
                  outcome == if ts == [] then None else Some(Ten(if Compatible(ts) then Cat(ts) else ts[|ts| - 1])))
  {
    SettledOutcome(events, p);
    if AllAdds(events) {
      AddsHold(events, p);
      SettledOnce(Pieces(events, p));
    }
  }

  lemma SettledOutcome(events: seq<Event>, p: Path)
    requires Consistent(events, p) && p != Top("audio")
    ensures Lookup(Consolidated(Dictionary(Run(Deferred, events))), p) == Chunks(Settled(Held(events, p)))
  {
    HoldsPieces(events, p);
    ConsolidateAt(Dictionary(Run(Deferred, events)), p);
    if Held(events, p) != [] {
      ChunksSettle(Held(events, p));
    }
  }

  lemma SettledOnce(ts: seq<Tensor>)
    ensures Chunks(Settled(ts))
            == if ts == [] then None else Some(Ten(if Compatible(ts) then Cat(ts) else ts[|ts| - 1]))
  {
  }

  predicate HeadedByTensor(l: Leaf) {
    l.Many? && l.items != [] && l.items[0].Ten?
  }

  /** A list headed by a tensor that cannot be concatenated and whose last item
      is again a list headed by a tensor. */
  predicate Unsettled(l: Leaf) {
    && HeadedByTensor(l)
    && !((forall i :: i in l.items ==> i.Ten?) && CanCat(Tensors(l.items)))
    && HeadedByTensor(l.items[|l.items| - 1])
  }

  lemma CatLeafIdempotent(l: Leaf)
    ensures CatLeaf(CatLeaf(l)) == CatLeaf(l) <==> !Unsettled(l)
  {
  }

  /** Consolidation is idempotent exactly when no place that it concatenates
      holds such a list. */
  lemma IdempotentIff(acc: Acc)
    ensures Consolidated(Consolidated(acc)) == Consolidated(acc)
            <==> (forall p :: p != Top("audio") && Lookup(acc, p).Some? ==> !Unsettled(Lookup(acc, p).value))
  {
    var once := Consolidated(acc);
    var twice := Consolidated(once);
    forall p ensures p != Top("audio") && Lookup(acc, p).Some? ==>
                       (Lookup(twice, p) == Lookup(once, p) <==> !Unsettled(Lookup(acc, p).value))
    {
      ConsolidateAt(acc, p);
      ConsolidateAt(once, p);
      if Lookup(acc, p).Some? {
        CatLeafIdempotent(Lookup(acc, p).value);
      }
    }
    if forall p :: p != Top("audio") && Lookup(acc, p).Some? ==> !Unsettled(Lookup(acc, p).value) {
      forall k | k in acc ensures twice[k] == once[k] {
        assert acc[k].One? ==> Lookup(acc, Top(k)) == Some(acc[k].leaf);
        if acc[k].Dict? {
          forall sk | sk in acc[k].sub ensures twice[k].sub[sk] == once[k].sub[sk] {
            assert Lookup(acc, Sub(k, sk)) == Some(acc[k].sub[sk]);
          }
        }
      }
    }
  }

  /** A list of a scalar tensor and a list of tensors: one payload puts
      it there, and the second consolidation still changes the dictionary. */
  lemma UnsettledReachable()
    ensures var t := Ten(Tensor(None, [1]));
            var list := Many([t, Many([t])]);
            var acc := Dictionary(Run(Deferred, [Add(Some(Whole(list)), "latent")]));
            && Lookup(acc, Top("latent")) == Some(list)
            && Consolidated(Consolidated(acc)) != Consolidated(acc)
  {
    var t := Ten(Tensor(None, [1]));
    var list := Many([t, Many([t])]);
    var e := Add(Some(Whole(list)), "latent");
    assert [e][..0] == [] && Lower("latent") == "latent";
    assert Run(Deferred, [e]) == Apply(Deferred, Empty, e);
    var acc := Dictionary(Run(Deferred, [e]));
    assert Lookup(acc, Top("latent")) == Some(list);
    assert !CanCat(Tensors(list.items[1].items)) && Unsettled(list);
    IdempotentIff(acc);
  }

  // -------------------------------------------------- names and other values

  /** A key of a payload arrives under the modality when it is one of the two
      generic names, and under its own name otherwise. */
  predicate ArrivesAs(key: string, mmType: string, k: string) {
    if key == "model_outputs" || (key == "hidden" && mmType != "") then k == (if mmType == "" then "hidden" else mmType)
    else k == key
  }

  /** Entry i is the last one that arrives as the key. */
  ghost predicate LastAs(es: seq<(string, Value)>, mmType: string, k: string, i: nat) {
    && i < |es| && ArrivesAs(es[i].0, mmType, k)
    && forall j {:trigger es[j]} :: i < j < |es| ==> !ArrivesAs(es[j].0, mmType, k)
  }

  /** The last entry of a dictionary payload decides its own key alone. */
  lemma LastEntry(es: seq<(string, Value)>, mmType: string, k: string)
    requires es != []
    ensures var n := |es| - 1;
            var incoming, before := Incoming(Entries(es), mmType), Incoming(Entries(es[..n]), mmType);
            if ArrivesAs(es[n].0, mmType, k) then k in incoming && incoming[k] == es[n].1
            else (k in incoming <==> k in before) && (k in incoming ==> incoming[k] == before[k])
  {
  }

  /** What a dictionary payload puts where: each key holds the value of the last
      entry that arrives as that key, and no other key is there. */
  lemma {:induction false} ArrivesExactly(es: seq<(string, Value)>, mmType: string, k: string)
    ensures var incoming := Incoming(Entries(es), mmType);
            && (k in incoming <==> exists i: nat :: LastAs(es, mmType, k, i))
            && (forall i: nat :: LastAs(es, mmType, k, i) ==> k in incoming && incoming[k] == es[i].1)
  {
    if es != [] {
      var n := |es| - 1;
      LastEntry(es, mmType, k);
      if ArrivesAs(es[n].0, mmType, k) {
        assert LastAs(es, mmType, k, n);
      } else {
        ArrivesExactly(es[..n], mmType, k);
        forall i: nat ensures LastAs(es, mmType, k, i) <==> LastAs(es[..n], mmType, k, i) {
          assert forall j :: 0 <= j < n ==> es[..n][j] == es[j];
        }
      }
    }
  }

  /** A modality is lower-cased, and a payload's generic outputs arrive under it. */
  lemma AudioArrives(v: Value, es: seq<(string, Value)>)
    requires es == [("model_outputs", v)]
    ensures TypeAfter("", Add(Some(Entries(es)), "Audio")) == "audio"
    ensures Incoming(Entries(es), "audio") == map["audio" := v]
  {
    assert Lower("Audio") == "audio";
    assert es[..0] == [] && Renamed("model_outputs", "audio") == "audio";
    assert IncomingEntries(es, "audio") == IncomingEntries([], "audio")["audio" := v];
  }

  /** A value that is no tensor replaces what was there, and so does a tensor
      where neither a tensor nor a list was. */
  lemma LastWins(events: seq<Event>, e: Event, p: Path)
    requires e.Add? && e.payload.Some? && Shaped(Dictionary(Run(Deferred, events)), p)
    requires Shaped(Incoming(e.payload.value, TypeAfter(TypeOf(events), e)), p)
    requires var g, held := Given(TypeOf(events), e, p), Lookup(Dictionary(Run(Deferred, events)), p);
             g.Some? && (!g.value.Ten? || held.None? || held.value.Other?)
    ensures Lookup(Dictionary(Run(Deferred, events + [e])), p) == Given(TypeOf(events), e, p)
  {
    RunType(Deferred, events);
    ApplyAt(Deferred, Run(Deferred, events), e, p);
    assert (events + [e])[..|events|] == events;
  }

  /** Where a key changes between a plain value and a nested dictionary, the newer
      one stays. */
  lemma KindWins(events: seq<Event>, e: Event, k: string)
    requires e.Add? && e.payload.Some?
    requires var d := Dictionary(Run(Deferred, events));
             var incoming := Incoming(e.payload.value, TypeAfter(TypeOf(events), e));
             k in incoming && (k in d ==> d[k].One? != incoming[k].One?)
    ensures var d := Dictionary(Run(Deferred, events + [e]));
            k in d && d[k] == Incoming(e.payload.value, TypeAfter(TypeOf(events), e))[k]
  {
    RunType(Deferred, events);
    assert (events + [e])[..|events|] == events;
  }

  /** Tensors fit together exactly when there are some and all have rows of one
      shape. */
  lemma FitIff(ts: seq<Tensor>)
    ensures CanCat(ts) <==> ts != [] && exists shape :: forall t :: t in ts ==> t.rowShape == Some(shape)
  {
    if CanCat(ts) {
      assert forall t :: t in ts ==> t.rowShape == Some(ts[0].rowShape.value);
    }
    assert ts != [] ==> ts[0] in ts;
  }

  /** Lower case leaves no capital letter, moves each by the same distance, and
      changes nothing else. */
  lemma LowerExact(s: string, i: nat)
    requires i < |s|
    ensures |Lower(s)| == |s| && !('A' <= Lower(s)[i] <= 'Z')
    ensures 'A' <= s[i] <= 'Z' ==> Lower(s)[i] as int - s[i] as int == 32
    ensures !('A' <= s[i] <= 'Z') ==> Lower(s)[i] == s[i]
  {
  }
}
