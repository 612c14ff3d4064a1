/** The orchestrator's accounting: token totals per stage and per request, and
    bytes per transfer edge. */
module Metrics {
  import opened Common

  type Id = string

  /** The statistics one finished stage reports for a request. */
  datatype StageStats = StageStats(stage: nat, id: Id, tokensIn: nat, tokensOut: nat, rxBytes: nat,
                                   rxDecodeMs: real, inFlightMs: real)

  datatype Edge = Edge(from: int, to: int, id: Id)
  datatype Transfer = Transfer(bytes: nat, txMs: real, usedShm: bool, rxDecodeMs: real, inFlightMs: real)
  datatype Record = Record(id: Id, ms: real, tokens: nat, transferMs: real, transferBytes: nat)

  /** The aggregator's state. Dictionaries keep their insertion order, which
      only the transfer dictionary's sums run over. */
  datatype Agg = Agg(
    totals: seq<nat>,
    e2eTokens: nat,
    e2eMs: real,
    e2eCount: nat,
    done: set<Id>,
    stageEvents: map<Id, seq<StageStats>>,
    edges: seq<Edge>,
    transfers: map<Edge, Transfer>,
    records: seq<Record>)

  datatype Event =
    | Stage(s: StageStats)
    | Tx(edge: Edge, bytes: nat, ms: real, shm: bool)
    | Finalize(id: Id, ms: real)

  // ------------------------------------------------------------- semantics

  /** Output tokens, and at stage 0 also the input tokens. */
  function Tokens(s: StageStats): nat {
    s.tokensOut + if s.stage == 0 then s.tokensIn else 0
  }

  function TokensOf(evts: seq<StageStats>): nat {
    if evts == [] then 0 else TokensOf(evts[..|evts| - 1]) + Tokens(evts[|evts| - 1])
  }

  const NoTransfer := Transfer(0, 0.0, false, 0.0, 0.0)

  function Lookup(transfers: map<Edge, Transfer>, e: Edge): Transfer {
    if e in transfers then transfers[e] else NoTransfer
  }

  function BytesFor(edges: seq<Edge>, transfers: map<Edge, Transfer>, id: Id): nat {
    if edges == [] then 0
    else
      var e := edges[|edges| - 1];
      BytesFor(edges[..|edges| - 1], transfers, id) + if e.id == id then Lookup(transfers, e).bytes else 0
  }

  function MsFor(edges: seq<Edge>, transfers: map<Edge, Transfer>, id: Id): real {
    if edges == [] then 0.0
    else
      var e := edges[|edges| - 1];
      var t := Lookup(transfers, e);
      MsFor(edges[..|edges| - 1], transfers, id) + if e.id == id then t.txMs + t.rxDecodeMs + t.inFlightMs else 0.0
  }

  function EventsOf(a: Agg, id: Id): seq<StageStats> {
    if id in a.stageEvents then a.stageEvents[id] else []
  }

  function TransferOf(a: Agg, e: Edge): Transfer {
    Lookup(a.transfers, e)
  }

  function WithTransfer(a: Agg, e: Edge, t: Transfer): Agg {
    a.(edges := if e in a.transfers then a.edges else a.edges + [e], transfers := a.transfers[e := t])
  }

  function Sent(t: Transfer, bytes: nat, ms: real, shm: bool): Transfer {
    Transfer(t.bytes + bytes, t.txMs + ms, t.usedShm || shm, t.rxDecodeMs, t.inFlightMs)
  }

  /** Received bytes count only where none have been recorded. */
  function Received(t: Transfer, s: StageStats): Transfer {
    Transfer(if t.bytes == 0 then s.rxBytes else t.bytes, t.txMs, t.usedShm,
             t.rxDecodeMs + s.rxDecodeMs, t.inFlightMs + s.inFlightMs)
  }

  function Inbound(s: StageStats): Edge {
    Edge(s.stage - 1, s.stage, s.id)
  }

  ghost predicate Wf(a: Agg) {
    && (forall e :: e in a.edges <==> e in a.transfers)
    && Distinct(a.edges)
  }

  function AddStage(a: Agg, s: StageStats): Agg
    requires s.stage < |a.totals|
  {
    var b := a.(totals := a.totals[s.stage := a.totals[s.stage] + Tokens(s)],
                stageEvents := a.stageEvents[s.id := EventsOf(a, s.id) + [s]]);
    if s.stage == 0 then b else WithTransfer(b, Inbound(s), Received(TransferOf(b, Inbound(s)), s))
  }

  function NewRecord(a: Agg, id: Id, ms: real): Record {
    Record(id, ms, TokensOf(EventsOf(a, id)), MsFor(a.edges, a.transfers, id), BytesFor(a.edges, a.transfers, id))
  }

  function AddRecord(a: Agg, id: Id, ms: real): Agg {
    if id in a.done then a
    else
      a.(e2eTokens := a.e2eTokens + TokensOf(EventsOf(a, id)), e2eMs := a.e2eMs + ms, e2eCount := a.e2eCount + 1,
         done := a.done + {id}, records := a.records + [NewRecord(a, id, ms)])
  }

  function Apply(a: Agg, e: Event): Agg
    requires e.Stage? ==> e.s.stage < |a.totals|
  {
    match e
    case Stage(s) => AddStage(a, s)
    case Tx(edge, bytes, ms, shm) => WithTransfer(a, edge, Sent(TransferOf(a, edge), bytes, ms, shm))
    case Finalize(id, ms) => AddRecord(a, id, ms)
  }

  function Empty(stages: nat): Agg {
    Agg(seq(stages, _ => 0), 0, 0.0, 0, {}, map[], [], map[], [])
  }

  /** Creating an edge and then setting it is setting it. */
  lemma CreatedThenSet(a: Agg, e: Edge, t: Transfer)
    requires Wf(a)
    ensures var b := if e in a.transfers then a else WithTransfer(a, e, NoTransfer);
            b.(transfers := b.transfers[e := t]) == WithTransfer(a, e, t) && Wf(WithTransfer(a, e, t))
  {
    assert a.transfers[e := NoTransfer][e := t] == a.transfers[e := t];
  }

  lemma ApplyWf(a: Agg, e: Event)
    requires Wf(a) && (e.Stage? ==> e.s.stage < |a.totals|)
    ensures Wf(Apply(a, e)) && |Apply(a, e).totals| == |a.totals|
  {
  }

  ghost predicate StagesExist(events: seq<Event>, stages: nat) {
    forall k {:trigger events[k]} :: 0 <= k < |events| && events[k].Stage? ==> events[k].s.stage < stages
  }

  function Run(stages: nat, events: seq<Event>): (a: Agg)
    requires StagesExist(events, stages)
    ensures Wf(a) && |a.totals| == stages
  {
    if events == [] then Empty(stages)
    else
      var before := Run(stages, events[..|events| - 1]);
      ApplyWf(before, events[|events| - 1]);
      Apply(before, events[|events| - 1])
  }

  // ---------------------------------------------------------------- tokens

  /** Everything reported in a run. */
  function Reported(events: seq<Event>): nat {
    if events == [] then 0
    else Reported(events[..|events| - 1]) + if events[|events| - 1].Stage? then Tokens(events[|events| - 1].s) else 0
  }

  function Finalized(events: seq<Event>): set<Id> {
    if events == [] then {}
    else Finalized(events[..|events| - 1]) + if events[|events| - 1].Finalize? then {events[|events| - 1].id} else {}
  }

  /** Tokens reported for a request after it was finalized. */
  function Late(events: seq<Event>): nat {
    if events == [] then 0
    else
      var before, e := events[..|events| - 1], events[|events| - 1];
      Late(before) + if e.Stage? && e.s.id in Finalized(before) then Tokens(e.s) else 0
  }

  /** Tokens reported for requests outside a set. */
  function Open(events: seq<Event>, done: set<Id>): nat {
    if events == [] then 0
    else
      var e := events[|events| - 1];
      Open(events[..|events| - 1], done) + if e.Stage? && e.s.id !in done then Tokens(e.s) else 0
  }

  function For(events: seq<Event>, id: Id): seq<StageStats> {
    if events == [] then []
    else
      var e := events[|events| - 1];
      For(events[..|events| - 1], id) + if e.Stage? && e.s.id == id then [e.s] else []
  }

  lemma TokensAppend(evts: seq<StageStats>, s: StageStats)
    ensures TokensOf(evts + [s]) == TokensOf(evts) + Tokens(s)
  {
    assert (evts + [s])[..|evts|] == evts;
  }

  /** Finalizing one more request closes exactly its own tokens. */
  lemma {:induction false} OpenLess(events: seq<Event>, done: set<Id>, id: Id)
    requires id !in done
    ensures Open(events, done + {id}) + TokensOf(For(events, id)) == Open(events, done)
  {
    if events != [] {
      OpenLess(events[..|events| - 1], done, id);
      var e := events[|events| - 1];
      var own := For(events[..|events| - 1], id);
      if e.Stage? && e.s.id == id {
        TokensAppend(own, e.s);
      } else {
        assert For(events, id) == own;
      }
    }
  }

  /** What one run's counters say about its events. */
  ghost predicate Accounts(a: Agg, events: seq<Event>) {
    && (forall id {:trigger EventsOf(a, id)} {:trigger For(events, id)} :: EventsOf(a, id) == For(events, id))
    && a.done == Finalized(events)
    && Sum(a.totals) == Reported(events)
    && a.e2eTokens + Open(events, a.done) + Late(events) == Reported(events)
  }

  ghost predicate Agrees(a: Agg) {
    && a.e2eCount == |a.done| == |a.records|
    && Distinct(Ids(a.records)) && ToSet(Ids(a.records)) == a.done
    && a.e2eTokens == RecordTokens(a.records)
    && a.e2eMs == RecordMs(a.records)
  }

  function Ids(rs: seq<Record>): (ids: seq<Id>)
    ensures |ids| == |rs|
  {
    seq(|rs|, k requires 0 <= k < |rs| => rs[k].id)
  }

  function RecordTokens(rs: seq<Record>): nat {
    if rs == [] then 0 else RecordTokens(rs[..|rs| - 1]) + rs[|rs| - 1].tokens
  }

  function RecordMs(rs: seq<Record>): real {
    if rs == [] then 0.0 else RecordMs(rs[..|rs| - 1]) + rs[|rs| - 1].ms
  }

  lemma {:induction false} RunAccounts(stages: nat, events: seq<Event>)
    requires StagesExist(events, stages)
    ensures Accounts(Run(stages, events), events)
  {
    if events == [] {
      SumConstant(Empty(stages).totals, 0);
    } else {
      var before, e := events[..|events| - 1], events[|events| - 1];
      RunAccounts(stages, before);
      match e
      case Stage(_) => StageAccounts(Run(stages, before), events);
      case Tx(_, _, _, _) =>
      case Finalize(_, _) => FinalizeAccounts(Run(stages, before), events);
    }
  }

  lemma AfterStage(events: seq<Event>, done: set<Id>, id: Id)
    requires events != [] && events[|events| - 1].Stage?
    ensures var before, s := events[..|events| - 1], events[|events| - 1].s;
            && For(events, id) == For(before, id) + (if s.id == id then [s] else [])
            && Reported(events) == Reported(before) + Tokens(s)
            && Late(events) == Late(before) + (if s.id in Finalized(before) then Tokens(s) else 0)
            && Open(events, done) == Open(before, done) + (if s.id !in done then Tokens(s) else 0)
            && Finalized(events) == Finalized(before)
  {
  }

  lemma StageEffect(a: Agg, s: StageStats)
    requires s.stage < |a.totals|
    ensures var b := AddStage(a, s);
            && b.done == a.done && b.e2eTokens == a.e2eTokens
            && b.totals == a.totals[s.stage := a.totals[s.stage] + Tokens(s)]
            && b.stageEvents == a.stageEvents[s.id := EventsOf(a, s.id) + [s]]
  {
  }

  lemma StageAccounts(a: Agg, events: seq<Event>)
    requires events != []
    requires var e := events[|events| - 1]; e.Stage? && e.s.stage < |a.totals|
    requires Accounts(a, events[..|events| - 1])
    ensures Accounts(Apply(a, events[|events| - 1]), events)
  {
    var before, s := events[..|events| - 1], events[|events| - 1].s;
    StageEffect(a, s);
    SumUpdate(a.totals, s.stage, Tokens(s));
    AfterStage(events, a.done, s.id);
    forall id ensures EventsOf(AddStage(a, s), id) == For(events, id) {
      AfterStage(events, a.done, id);
      assert EventsOf(a, id) == For(before, id);
      assert For(before, id) + [] == For(before, id);
    }
  }

  lemma AfterFinalize(events: seq<Event>, done: set<Id>, id: Id)
    requires events != [] && events[|events| - 1].Finalize?
    ensures var before := events[..|events| - 1];
            && For(events, id) == For(before, id) && Reported(events) == Reported(before)
            && Late(events) == Late(before) && Open(events, done) == Open(before, done)
            && Finalized(events) == Finalized(before) + {events[|events| - 1].id}
  {
  }

  lemma FinalizeAccounts(a: Agg, events: seq<Event>)
    requires events != [] && events[|events| - 1].Finalize?
    requires Accounts(a, events[..|events| - 1])
    ensures Accounts(Apply(a, events[|events| - 1]), events)
  {
    var before, e := events[..|events| - 1], events[|events| - 1];
    var b := Apply(a, e);
    AfterFinalize(events, b.done, e.id);
    assert b.done == Finalized(events) && b.totals == a.totals && b.stageEvents == a.stageEvents;
    assert b.e2eTokens + Open(before, b.done) == a.e2eTokens + Open(before, a.done) by {
      if e.id !in a.done {
        OpenLess(before, a.done, e.id);
        assert EventsOf(a, e.id) == For(before, e.id);
      }
    }
    forall id ensures EventsOf(b, id) == For(events, id) {
      AfterFinalize(events, b.done, id);
      assert EventsOf(a, id) == For(before, id);
    }
  }

  lemma RecordsAppend(rs: seq<Record>, r: Record)
    ensures RecordTokens(rs + [r]) == RecordTokens(rs) + r.tokens && RecordMs(rs + [r]) == RecordMs(rs) + r.ms
  {
    assert (rs + [r])[..|rs|] == rs;
  }

  /** The number of finalized requests, the set of them and the records agree,
      with one record each, and the totals are the sums over the records. */
  lemma {:induction false} RunAgrees(stages: nat, events: seq<Event>)
    requires StagesExist(events, stages)
    ensures Agrees(Run(stages, events))
  {
    if events != [] {
      var before, e := events[..|events| - 1], events[|events| - 1];
      RunAgrees(stages, before);
      var a, b := Run(stages, before), Run(stages, events);
      if e.Finalize? && e.id !in a.done {
        FinalizeAgrees(a, e.id, e.ms);
      }
    }
  }

  lemma FinalizeAgrees(a: Agg, id: Id, ms: real)
    requires Agrees(a) && id !in a.done
    ensures Agrees(AddRecord(a, id, ms))
  {
    var r := NewRecord(a, id, ms);
    RecordsAppend(a.records, r);
    IdsAppend(a.records, r, a.done);
  }

  lemma IdsAppend(rs: seq<Record>, r: Record, done: set<Id>)
    requires Distinct(Ids(rs)) && ToSet(Ids(rs)) == done && r.id !in done
    ensures Distinct(Ids(rs + [r])) && ToSet(Ids(rs + [r])) == done + {r.id}
  {
    assert Ids(rs + [r]) == Ids(rs) + [r.id];
    assert r.id !in Ids(rs);
  }

  /** The end-to-end total equals the sum of the stage totals exactly when no
      tokens were reported for a request after its finalization and none belong
      to a request that was never finalized. */
  lemma BalanceIff(stages: nat, events: seq<Event>)
    requires StagesExist(events, stages)
    ensures var a := Run(stages, events);
            && a.e2eTokens <= Sum(a.totals)
            && (a.e2eTokens == Sum(a.totals) <==> Late(events) == 0 && Open(events, Finalized(events)) == 0)
  {
    RunAccounts(stages, events);
  }

  /** Stage reports precede the finalization of their request, and every
      reported request is finalized. */
  ghost predicate Orderly(events: seq<Event>) {
    && NoneLate(events)
    && (forall j {:trigger events[j]} :: 0 <= j < |events| && events[j].Stage? ==> events[j].s.id in Finalized(events))
  }

  lemma {:induction false} FinalizedBy(events: seq<Event>, id: Id)
    ensures id in Finalized(events) <==>
              exists i {:trigger events[i]} :: 0 <= i < |events| && events[i].Finalize? && events[i].id == id
  {
    if events != [] {
      var before := events[..|events| - 1];
      FinalizedBy(before, id);
      if id in Finalized(before) {
        var i :| 0 <= i < |before| && before[i].Finalize? && before[i].id == id;
        assert events[i] == before[i];
      } else if id in Finalized(events) {
        assert events[|events| - 1].Finalize?;
      }
    }
  }

  lemma {:induction false} NothingLate(events: seq<Event>)
    requires NoneLate(events)
    ensures Late(events) == 0
  {
    if events != [] {
      NothingLate(events[..|events| - 1]);
      var e := events[|events| - 1];
      if e.Stage? {
        FinalizedBy(events[..|events| - 1], e.s.id);
      }
    }
  }

  lemma {:induction false} NothingOpen(events: seq<Event>, done: set<Id>)
    requires forall j {:trigger events[j]} :: 0 <= j < |events| && events[j].Stage? ==> events[j].s.id in done
    ensures Open(events, done) == 0
  {
    if events != [] {
      NothingOpen(events[..|events| - 1], done);
    }
  }

  /** After an orderly run the totals balance and the counters agree. */
  lemma Balance(stages: nat, events: seq<Event>)
    requires StagesExist(events, stages) && Orderly(events)
    ensures var a := Run(stages, events); a.e2eTokens == Sum(a.totals) && Agrees(a)
  {
    NothingLate(events);
    NothingOpen(events, Finalized(events));
    BalanceIff(stages, events);
    RunAgrees(stages, events);
  }

  ghost predicate NoneLate(events: seq<Event>) {
    forall i, j {:trigger events[i], events[j]} :: 0 <= i < j < |events| && events[i].Finalize? && events[j].Stage? ==>
      events[i].id != events[j].s.id
  }

  ghost predicate Complete(events: seq<Event>, rs: seq<Record>) {
    forall k {:trigger rs[k]} :: 0 <= k < |rs| ==> rs[k].tokens == TokensOf(For(events, rs[k].id))
  }

  /** When nothing is late, a request's record holds all tokens reported for it. */
  lemma {:induction false} RecordsComplete(stages: nat, events: seq<Event>)
    requires StagesExist(events, stages) && NoneLate(events)
    ensures Complete(events, Run(stages, events).records)
  {
    if events != [] {
      var before, e := events[..|events| - 1], events[|events| - 1];
      RecordsComplete(stages, before);
      RunAccounts(stages, before);
      RunAgrees(stages, before);
      RecordsStayComplete(Run(stages, before), events);
    }
  }

  lemma RecordsStayComplete(a: Agg, events: seq<Event>)
    requires events != [] && NoneLate(events) && Accounts(a, events[..|events| - 1]) && Agrees(a)
    requires Complete(events[..|events| - 1], a.records)
    requires var e := events[|events| - 1]; e.Stage? ==> e.s.stage < |a.totals|
    ensures Complete(events, Apply(a, events[|events| - 1]).records)
  {
    var before, e := events[..|events| - 1], events[|events| - 1];
    OldRecordsComplete(events, a.records, a.done);
    ApplyRecords(a, e);
    if e.Finalize? && e.id !in a.done {
      AfterFinalize(events, {}, e.id);
      assert EventsOf(a, e.id) == For(before, e.id);
      CompleteAppend(events, a.records, NewRecord(a, e.id, e.ms));
    }
  }

  lemma ApplyRecords(a: Agg, e: Event)
    requires e.Stage? ==> e.s.stage < |a.totals|
    ensures Apply(a, e).records ==
            if e.Finalize? && e.id !in a.done then a.records + [NewRecord(a, e.id, e.ms)] else a.records
  {
  }

  lemma CompleteAppend(events: seq<Event>, rs: seq<Record>, r: Record)
    requires Complete(events, rs) && r.tokens == TokensOf(For(events, r.id))
    ensures Complete(events, rs + [r])
  {
  }

  lemma OldRecordsComplete(events: seq<Event>, rs: seq<Record>, done: set<Id>)
    requires events != [] && NoneLate(events) && Complete(events[..|events| - 1], rs)
    requires ToSet(Ids(rs)) == done == Finalized(events[..|events| - 1])
    ensures Complete(events, rs)
  {
    forall k {:trigger rs[k]} | 0 <= k < |rs| ensures rs[k].tokens == TokensOf(For(events, rs[k].id)) {
      assert Ids(rs)[k] in done;
      ClosedKeeps(events, rs[k].id);
    }
  }

  lemma ClosedKeeps(events: seq<Event>, id: Id)
    requires NoneLate(events) && events != [] && id in Finalized(events[..|events| - 1])
    ensures For(events, id) == For(events[..|events| - 1], id)
  {
    FinalizedBy(events[..|events| - 1], id);
  }

  /** Finalizing again changes nothing, whatever happened in between. */
  lemma FinalizeOnce(stages: nat, events: seq<Event>, id: Id, ms: real)
    requires StagesExist(events, stages) && id in Finalized(events)
    ensures Apply(Run(stages, events), Finalize(id, ms)) == Run(stages, events)
  {
    RunAccounts(stages, events);
  }

  // ----------------------------------------------------------------- bytes

  datatype Move = Out(bytes: nat) | In(bytes: nat)

  function MoveOf(e: Event, edge: Edge): seq<Move> {
    match e
    case Tx(target, bytes, _, _) => if target == edge then [Out(bytes)] else []
    case Stage(s) => if s.stage > 0 && Inbound(s) == edge then [In(s.rxBytes)] else []
    case Finalize(_, _) => []
  }

  /** What a run did on one edge, in order. */
  function Moves(events: seq<Event>, edge: Edge): seq<Move> {
    if events == [] then [] else Moves(events[..|events| - 1], edge) + MoveOf(events[|events| - 1], edge)
  }

  function SentBytes(moves: seq<Move>): nat {
    if moves == [] then 0
    else SentBytes(moves[..|moves| - 1]) + if moves[|moves| - 1].Out? then moves[|moves| - 1].bytes else 0
  }

  /** The bytes of the first non-empty receipt, if it came before anything was
      sent. */
  function Early(moves: seq<Move>): nat {
    if moves == [] then 0
    else
      var before, m := moves[..|moves| - 1], moves[|moves| - 1];
      if Early(before) == 0 && SentBytes(before) == 0 && m.In? then m.bytes else Early(before)
  }

  lemma MovesAppend(moves: seq<Move>, m: Move)
    ensures SentBytes(moves + [m]) == SentBytes(moves) + if m.Out? then m.bytes else 0
    ensures Early(moves + [m]) == if Early(moves) == 0 && SentBytes(moves) == 0 && m.In? then m.bytes else Early(moves)
  {
    assert (moves + [m])[..|moves|] == moves;
  }

  /** An edge's byte count is what was sent, plus the early receipt: receipts
      after a non-empty send are never counted again. */
  lemma {:induction false} EdgeBytes(stages: nat, events: seq<Event>, edge: Edge)
    requires StagesExist(events, stages)
    ensures var moves := Moves(events, edge);
            TransferOf(Run(stages, events), edge).bytes == SentBytes(moves) + Early(moves)
  {
    if events != [] {
      var before, e := events[..|events| - 1], events[|events| - 1];
      EdgeBytes(stages, before, edge);
      MoveBytes(Run(stages, before), e, edge, Moves(before, edge));
      assert Moves(events, edge) == Moves(before, edge) + MoveOf(e, edge);
    }
  }

  function BytesAfter(bytes: nat, m: seq<Move>): nat {
    if m == [] then bytes
    else match m[0]
      case Out(n) => bytes + n
      case In(n) => if bytes == 0 then n else bytes
  }

  lemma ApplyBytes(a: Agg, e: Event, edge: Edge)
    requires e.Stage? ==> e.s.stage < |a.totals|
    ensures TransferOf(Apply(a, e), edge).bytes == BytesAfter(TransferOf(a, edge).bytes, MoveOf(e, edge))
  {
  }

  lemma MoveBytes(a: Agg, e: Event, edge: Edge, moves: seq<Move>)
    requires e.Stage? ==> e.s.stage < |a.totals|
    requires TransferOf(a, edge).bytes == SentBytes(moves) + Early(moves)
    ensures TransferOf(Apply(a, e), edge).bytes == SentBytes(moves + MoveOf(e, edge)) + Early(moves + MoveOf(e, edge))
  {
    ApplyBytes(a, e, edge);
    MovesCount(moves, MoveOf(e, edge));
  }

  lemma MovesCount(moves: seq<Move>, m: seq<Move>)
    requires |m| <= 1
    ensures SentBytes(moves + m) + Early(moves + m) == BytesAfter(SentBytes(moves) + Early(moves), m)
  {
    if m == [] {
      assert moves + m == moves;
    } else {
      MovesAppend(moves, m[0]);
      assert m == [m[0]];
    }
  }

  /** The count is exactly the sent bytes if and only if nothing non-empty was
      received before the first non-empty send. */
  ghost predicate SendsFirst(moves: seq<Move>) {
    forall k {:trigger moves[k]} :: 0 <= k < |moves| && moves[k].In? && moves[k].bytes > 0 ==> SentBytes(moves[..k]) > 0
  }

  lemma {:induction false} SendsFirstIff(moves: seq<Move>)
    ensures Early(moves) == 0 <==> SendsFirst(moves)
  {
    if moves != [] {
      var before, m := moves[..|moves| - 1], moves[|moves| - 1];
      SendsFirstIff(before);
      assert forall k :: 0 <= k < |before| ==> before[..k] == moves[..k] && before[k] == moves[k];
    }
  }

  lemma CountedOnceIff(stages: nat, events: seq<Event>, edge: Edge)
    requires StagesExist(events, stages)
    ensures TransferOf(Run(stages, events), edge).bytes == SentBytes(Moves(events, edge)) <==>
              SendsFirst(Moves(events, edge))
  {
    EdgeBytes(stages, events, edge);
    SendsFirstIff(Moves(events, edge));
  }

  // ------------------------------------------- what the records add up to

  /** Output tokens reported at a stage, and input tokens reported at stage 0. */
  function OutAt(events: seq<Event>, stage: nat): nat {
    if events == [] then 0
    else
      var e := events[|events| - 1];
      OutAt(events[..|events| - 1], stage) + if e.Stage? && e.s.stage == stage then e.s.tokensOut else 0
  }

  function InAtFirst(events: seq<Event>): nat {
    if events == [] then 0
    else
      var e := events[|events| - 1];
      InAtFirst(events[..|events| - 1]) + if e.Stage? && e.s.stage == 0 then e.s.tokensIn else 0
  }

  /** A stage's total counts the output tokens reported there; the input tokens
      count once, at stage 0. */
  lemma {:induction false} StageTotals(stages: nat, events: seq<Event>, stage: nat)
    requires StagesExist(events, stages) && stage < stages
    ensures Run(stages, events).totals[stage] == OutAt(events, stage) + if stage == 0 then InAtFirst(events) else 0
  {
    if events != [] {
      var before, e := events[..|events| - 1], events[|events| - 1];
      StageTotals(stages, before, stage);
      if e.Stage? {
        StageEffect(Run(stages, before), e.s);
      }
    }
  }

  /** All tokens reported for a request. */
  function TokensFor(events: seq<Event>, id: Id): nat {
    if events == [] then 0
    else
      var e := events[|events| - 1];
      TokensFor(events[..|events| - 1], id)
      + if e.Stage? && e.s.id == id then e.s.tokensOut + (if e.s.stage == 0 then e.s.tokensIn else 0) else 0
  }

  lemma {:induction false} TokensForIs(events: seq<Event>, id: Id)
    ensures TokensOf(For(events, id)) == TokensFor(events, id)
  {
    if events != [] {
      var before, e := events[..|events| - 1], events[|events| - 1];
      TokensForIs(before, id);
      if e.Stage? && e.s.id == id {
        TokensAppend(For(before, id), e.s);
      } else {
        assert For(events, id) == For(before, id);
      }
    }
  }

  /** What an event changes of the bytes and the milliseconds of one edge. */
  function MsOf(e: Event, edge: Edge): (real, real, real) {
    match e
    case Tx(target, _, ms, _) => if target == edge then (ms, 0.0, 0.0) else (0.0, 0.0, 0.0)
    case Stage(s) => if s.stage > 0 && Edge(s.stage - 1, s.stage, s.id) == edge
                     then (0.0, s.rxDecodeMs, s.inFlightMs) else (0.0, 0.0, 0.0)
    case Finalize(_, _) => (0.0, 0.0, 0.0)
  }

  function EdgeMs(events: seq<Event>, edge: Edge): (real, real, real) {
    if events == [] then (0.0, 0.0, 0.0)
    else
      var a, b := EdgeMs(events[..|events| - 1], edge), MsOf(events[|events| - 1], edge);
      (a.0 + b.0, a.1 + b.1, a.2 + b.2)
  }

  ghost predicate SentByShm(events: seq<Event>, edge: Edge) {
    exists i :: 0 <= i < |events| && events[i].Tx? && events[i].edge == edge && events[i].shm
  }

  lemma EdgeStep(a: Agg, e: Event, edge: Edge)
    requires e.Stage? ==> e.s.stage < |a.totals|
    ensures var was, t, ms := TransferOf(a, edge), TransferOf(Apply(a, e), edge), MsOf(e, edge);
            && t.txMs == was.txMs + ms.0 && t.rxDecodeMs == was.rxDecodeMs + ms.1
            && t.inFlightMs == was.inFlightMs + ms.2
            && t.usedShm == (was.usedShm || (e.Tx? && e.edge == edge && e.shm))
  {
  }

  lemma SentByShmNext(events: seq<Event>, edge: Edge)
    requires events != []
    ensures var e := events[|events| - 1];
            SentByShm(events, edge) <==> SentByShm(events[..|events| - 1], edge) || (e.Tx? && e.edge == edge && e.shm)
  {
    var before := events[..|events| - 1];
    if SentByShm(before, edge) {
      var i :| 0 <= i < |before| && before[i].Tx? && before[i].edge == edge && before[i].shm;
      assert events[i] == before[i];
    }
    if SentByShm(events, edge) {
      var i :| 0 <= i < |events| && events[i].Tx? && events[i].edge == edge && events[i].shm;
      assert i < |before| ==> before[i] == events[i];
    }
  }

  lemma {:induction false} EdgeShm(stages: nat, events: seq<Event>, edge: Edge)
    requires StagesExist(events, stages)
    ensures TransferOf(Run(stages, events), edge).usedShm <==> SentByShm(events, edge)
  {
    if events != [] {
      EdgeShm(stages, events[..|events| - 1], edge);
      EdgeStep(Run(stages, events[..|events| - 1]), events[|events| - 1], edge);
      SentByShmNext(events, edge);
    }
  }

  lemma {:induction false} EdgeMsIs(stages: nat, events: seq<Event>, edge: Edge)
    requires StagesExist(events, stages)
    ensures var t, ms := TransferOf(Run(stages, events), edge), EdgeMs(events, edge);
            t.txMs == ms.0 && t.rxDecodeMs == ms.1 && t.inFlightMs == ms.2
  {
    if events != [] {
      EdgeMsIs(stages, events[..|events| - 1], edge);
      EdgeStep(Run(stages, events[..|events| - 1]), events[|events| - 1], edge);
    }
  }

  /** An edge's times are the sums of what was reported for it, each of its kind,
      and it used shared memory if one of its sends did. */
  lemma EdgeTimes(stages: nat, events: seq<Event>, edge: Edge)
    requires StagesExist(events, stages)
    ensures var t := TransferOf(Run(stages, events), edge);
            && (t.txMs, t.rxDecodeMs, t.inFlightMs) == EdgeMs(events, edge)
            && (t.usedShm <==> SentByShm(events, edge))
  {
    EdgeShm(stages, events, edge);
    EdgeMsIs(stages, events, edge);
  }

  /** The request's edges, in the order of their first use, and sums over them. */
  function Own(edges: seq<Edge>, id: Id): seq<Edge> {
    if edges == [] then []
    else Own(edges[..|edges| - 1], id) + if edges[|edges| - 1].id == id then [edges[|edges| - 1]] else []
  }

  lemma {:induction false} OwnExact(edges: seq<Edge>, id: Id, e: Edge)
    ensures Count(Own(edges, id), e) == if e.id == id then Count(edges, e) else 0
  {
    if edges != [] {
      var n := |edges| - 1;
      OwnExact(edges[..n], id, e);
      if edges[n].id == id {
        CountConcat(Own(edges[..n], id), [edges[n]], e);
        assert [edges[n]][..0] == [];
      } else {
        assert Own(edges, id) == Own(edges[..n], id);
      }
    }
  }

  function ByteSum(edges: seq<Edge>, transfers: map<Edge, Transfer>): nat {
    if edges == [] then 0
    else ByteSum(edges[..|edges| - 1], transfers) +
         if edges[|edges| - 1] in transfers then transfers[edges[|edges| - 1]].bytes else 0
  }

  function MsSum(edges: seq<Edge>, transfers: map<Edge, Transfer>): real {
    if edges == [] then 0.0
    else
      var e := edges[|edges| - 1];
      MsSum(edges[..|edges| - 1], transfers) +
      if e in transfers then transfers[e].txMs + transfers[e].rxDecodeMs + transfers[e].inFlightMs else 0.0
  }

  lemma {:induction false} OwnSums(edges: seq<Edge>, transfers: map<Edge, Transfer>, id: Id)
    ensures BytesFor(edges, transfers, id) == ByteSum(Own(edges, id), transfers)
    ensures MsFor(edges, transfers, id) == MsSum(Own(edges, id), transfers)
  {
    if edges != [] {
      var n := |edges| - 1;
      OwnSums(edges[..n], transfers, id);
      if edges[n].id == id {
        assert (Own(edges[..n], id) + [edges[n]])[..|Own(edges[..n], id)|] == Own(edges[..n], id);
      } else {
        assert Own(edges, id) == Own(edges[..n], id);
      }
    }
  }

  /** The record of a request that is finalized: all its tokens so far, the given
      time, and the sums over its own edges, each of which it has once. */
  lemma FinalizedRecord(stages: nat, events: seq<Event>, id: Id, ms: real)
    requires StagesExist(events, stages) && id !in Finalized(events)
    ensures var a := Run(stages, events);
            var b := Apply(a, Finalize(id, ms));
            var own := Own(a.edges, id);
            var tokens, total, bytes := TokensFor(events, id), MsSum(own, a.transfers), ByteSum(own, a.transfers);
            && b.records == a.records + [Record(id, ms, tokens, total, bytes)]
            && forall e :: Count(own, e) == if e.id == id && e in a.transfers then 1 else 0
  {
    var a := Run(stages, events);
    RunAccounts(stages, events);
    TokensForIs(events, id);
    assert EventsOf(a, id) == For(events, id);
    OwnSums(a.edges, a.transfers, id);
    forall e ensures Count(Own(a.edges, id), e) == if e.id == id && e in a.transfers then 1 else 0 {
      OwnExact(a.edges, id, e);
      CountDistinct(a.edges, e);
    }
  }

  // ------------------------------------------------------------ aggregator

  class OrchestratorAggregator {
    var stageTotalTokens: seq<nat>
    var e2eTotalTokens: nat
    var e2eTotalMs: real
    var e2eCount: nat
    var e2eDone: set<Id>
    var stageEvents: map<Id, seq<StageStats>>
    var transferKeys: seq<Edge>
    var transferEvents: map<Edge, Transfer>
    var e2eEvents: seq<Record>

    ghost function St(): Agg
      reads this
    {
      Agg(stageTotalTokens, e2eTotalTokens, e2eTotalMs, e2eCount, e2eDone, stageEvents, transferKeys, transferEvents,
          e2eEvents)
    }

    ghost predicate Valid()
      reads this
    {
      Wf(St())
    }

    constructor (numStages: nat)
      ensures Valid() && St() == Empty(numStages)
    {
      stageTotalTokens := seq(numStages, _ => 0);
      e2eTotalTokens, e2eTotalMs, e2eCount, e2eDone := 0, 0.0, 0, {};
      stageEvents, transferKeys, transferEvents, e2eEvents := map[], [], map[], [];
    }

    method GetOrCreateTransferEvent(edge: Edge) returns (t: Transfer)
      requires Valid()
      modifies this`transferKeys, this`transferEvents
      ensures Valid() && edge in transferEvents && t == TransferOf(old(St()), edge)
      ensures St() == if edge in old(transferEvents) then old(St()) else WithTransfer(old(St()), edge, NoTransfer)
    {
      if edge !in transferEvents {
        transferKeys := transferKeys + [edge];
        transferEvents := transferEvents[edge := NoTransfer];
      }
      t := transferEvents[edge];
    }

    method RecordTransferTx(edge: Edge, bytes: nat, ms: real, shm: bool)
      requires Valid()
      modifies this`transferKeys, this`transferEvents
      ensures Valid() && St() == Apply(old(St()), Tx(edge, bytes, ms, shm))
    {
      var t := GetOrCreateTransferEvent(edge);
      var sent := Transfer(t.bytes + bytes, t.txMs + ms, t.usedShm || shm, t.rxDecodeMs, t.inFlightMs);
      transferEvents := transferEvents[edge := sent];
      CreatedThenSet(old(St()), edge, sent);
    }

    method RecordTransferRx(s: StageStats)
      requires Valid()
      modifies this`transferKeys, this`transferEvents
      ensures Valid()
      ensures St() == if s.stage == 0 then old(St())
                      else WithTransfer(old(St()), Inbound(s), Received(TransferOf(old(St()), Inbound(s)), s))
    {
      if s.stage <= 0 {
        return;
      }
      var edge := Edge(s.stage - 1, s.stage, s.id);
      var t := GetOrCreateTransferEvent(edge);
      var bytes := t.bytes;
      if bytes == 0 {
        bytes := s.rxBytes;
      }
      var received := Transfer(bytes, t.txMs, t.usedShm, t.rxDecodeMs + s.rxDecodeMs, t.inFlightMs + s.inFlightMs);
      transferEvents := transferEvents[edge := received];
      CreatedThenSet(old(St()), edge, received);
    }

    method OnStageMetrics(s: StageStats)
      requires Valid() && s.stage < |stageTotalTokens|
      modifies this
      ensures Valid() && St() == Apply(old(St()), Stage(s))
    {
      stageTotalTokens := stageTotalTokens[s.stage := stageTotalTokens[s.stage] + s.tokensOut];
      if s.stage == 0 {
        stageTotalTokens := stageTotalTokens[s.stage := stageTotalTokens[s.stage] + s.tokensIn];
      }
      stageEvents := stageEvents[s.id := (if s.id in stageEvents then stageEvents[s.id] else []) + [s]];
      RecordTransferRx(s);
    }

    method SumTokens(id: Id) returns (total: nat)
      ensures total == TokensOf(EventsOf(St(), id))
    {
      total := 0;
      if id in stageEvents {
        var evts := stageEvents[id];
        for i := 0 to |evts|
          invariant total == TokensOf(evts[..i])
        {
          assert evts[..i + 1][..i] == evts[..i];
          if evts[i].stage == 0 {
            total := total + evts[i].tokensIn;
          }
          total := total + evts[i].tokensOut;
        }
        assert evts[..|evts|] == evts;
      }
    }

    method SumTransfers(id: Id) returns (ms: real, bytes: nat)
      requires Valid()
      ensures ms == MsFor(transferKeys, transferEvents, id) && bytes == BytesFor(transferKeys, transferEvents, id)
    {
      ms, bytes := 0.0, 0;
      for i := 0 to |transferKeys|
        invariant ms == MsFor(transferKeys[..i], transferEvents, id)
        invariant bytes == BytesFor(transferKeys[..i], transferEvents, id)
      {
        assert transferKeys[..i + 1][..i] == transferKeys[..i];
        if transferKeys[i].id == id {
          var t := transferEvents[transferKeys[i]];
          ms, bytes := ms + (t.txMs + t.rxDecodeMs + t.inFlightMs), bytes + t.bytes;
        }
      }
      assert transferKeys[..|transferKeys|] == transferKeys;
    }

    method OnFinalizeRequest(id: Id, e2eMs: real)
      requires Valid()
      modifies this
      ensures Valid() && St() == Apply(old(St()), Finalize(id, e2eMs))
    {
      if id in e2eDone {
        return;
      }
      var tokens := SumTokens(id);
      var ms, bytes := SumTransfers(id);
      e2eTotalMs := e2eTotalMs + e2eMs;
      e2eTotalTokens := e2eTotalTokens + tokens;
      e2eCount := e2eCount + 1;
      e2eDone := e2eDone + {id};
      e2eEvents := e2eEvents + [Record(id, e2eMs, tokens, ms, bytes)];
    }
  }
}
