/** The accounting of a synchronous run: which events the scheduling loop reports
    to the aggregator, and when the totals balance at the end. */
module SyncMetrics {
  import opened Common
  import opened Pipelines
  import opened SyncPipeline
  import M = Metrics

  /** What a stage reports of a request, and what sending its output on costs. */
  datatype Report = Report(tokensIn: nat, tokensOut: nat, rxBytes: nat, rxDecodeMs: real, inFlightMs: real)
  datatype Sending = Sending(bytes: nat, ms: real, shm: bool)

  /** The reports of a run, by request and stage, and each request's duration. */
  datatype Reports = Reports(stats: (Id, nat) -> Report, sending: (Id, nat) -> Sending, duration: Id -> real)

  function StatsOf(rep: Reports, v: Visit): M.StageStats {
    var r := rep.stats(v.id, v.stage);
    M.StageStats(v.stage, v.id, r.tokensIn, r.tokensOut, r.rxBytes, r.rxDecodeMs, r.inFlightMs)
  }

  /** A request is finalized when its final stage is collected, but only if that
      stage yields a final output. */
  predicate Finalizes(p: Pipeline, v: Visit) {
    v.id in p.final && v.stage == p.final[v.id] && v.stage < p.Stages() && p.finalOutput[v.stage]
  }

  predicate Forwards(p: Pipeline, v: Visit) {
    v.id in p.final && v.stage < p.final[v.id]
  }

  /** What collecting one result reports: the stage's statistics, then the
      finalization or the transfer to the next stage. */
  function EventsOf(p: Pipeline, rep: Reports, v: Visit): seq<M.Event> {
    var s := rep.sending(v.id, v.stage);
    [M.Stage(StatsOf(rep, v))]
    + (if Finalizes(p, v) then [M.Finalize(v.id, rep.duration(v.id))] else [])
    + (if Forwards(p, v) then [M.Tx(M.Edge(v.stage, v.stage + 1, v.id), s.bytes, s.ms, s.shm)] else [])
  }

  function Log(p: Pipeline, rep: Reports, visits: seq<Visit>): seq<M.Event> {
    if visits == [] then []
    else Log(p, rep, visits[..|visits| - 1]) + EventsOf(p, rep, visits[|visits| - 1])
  }

  // -------------------------------------------------- one visit in the log

  lemma Snoc(log: seq<M.Event>, e: M.Event, done: set<Id>)
    ensures M.Finalized(log + [e]) == M.Finalized(log) + if e.Finalize? then {e.id} else {}
    ensures M.Late(log + [e]) == M.Late(log) + if e.Stage? && e.s.id in M.Finalized(log) then M.Tokens(e.s) else 0
    ensures M.Open(log + [e], done) == M.Open(log, done) + if e.Stage? && e.s.id !in done then M.Tokens(e.s) else 0
  {
    assert (log + [e])[..|log|] == log;
  }

  /** What one more visit changes. */
  lemma LogSnoc(p: Pipeline, rep: Reports, log: seq<M.Event>, v: Visit, done: set<Id>)
    ensures var longer := log + EventsOf(p, rep, v);
            var tokens := M.Tokens(StatsOf(rep, v));
            && M.Finalized(longer) == M.Finalized(log) + (if Finalizes(p, v) then {v.id} else {})
            && M.Late(longer) == M.Late(log) + (if v.id in M.Finalized(log) then tokens else 0)
            && M.Open(longer, done) == M.Open(log, done) + (if v.id in done then 0 else tokens)
  {
    var evs := EventsOf(p, rep, v);
    Snoc(log, evs[0], done);
    if |evs| == 1 {
      assert evs == [evs[0]];
    } else {
      assert evs == [evs[0], evs[1]];
      Snoc(log + [evs[0]], evs[1], done);
      assert log + evs == log + [evs[0]] + [evs[1]];
    }
  }

  // ------------------------------------------------------- tidy histories

  /** Each request is visited at stages 0, 1, ... in order, none beyond its
      final stage. */
  ghost predicate Tidy(p: Pipeline, visits: seq<Visit>) {
    && (forall k :: 0 <= k < |visits| ==>
          visits[k].id in p.final && visits[k].stage <= p.final[visits[k].id] < p.Stages())
    && forall id :: InOrder(VisitsOf(visits, id))
  }

  /** The numbers from 0, in order. */
  ghost predicate InOrder(q: seq<nat>) {
    forall j :: 0 <= j < |q| ==> q[j] == j
  }

  lemma {:induction false} UptoLength(k: nat)
    ensures |Upto(k)| == k && forall j {:trigger Upto(k)[j]} :: 0 <= j < k ==> Upto(k)[j] == j
  {
    if k > 0 {
      UptoLength(k - 1);
    }
  }

  /** The last visit of a tidy history is at the stage its request has reached. */
  lemma TidyLast(p: Pipeline, visits: seq<Visit>)
    requires Tidy(p, visits) && visits != []
    ensures var before, v := visits[..|visits| - 1], visits[|visits| - 1];
            && Tidy(p, before)
            && v.stage == |VisitsOf(before, v.id)|
            && forall id :: |VisitsOf(visits, id)| == |VisitsOf(before, id)| + if id == v.id then 1 else 0
  {
    var before, v := visits[..|visits| - 1], visits[|visits| - 1];
    forall id ensures InOrder(VisitsOf(before, id)) {
      VisitAdded(visits, id);
    }
    VisitAdded(visits, v.id);
    forall id ensures |VisitsOf(visits, id)| == |VisitsOf(before, id)| + if id == v.id then 1 else 0 {
      VisitAdded(visits, id);
    }
  }

  lemma VisitAdded(visits: seq<Visit>, id: Id)
    requires visits != [] && InOrder(VisitsOf(visits, id))
    ensures var before, v := visits[..|visits| - 1], visits[|visits| - 1];
            && InOrder(VisitsOf(before, id))
            && |VisitsOf(visits, id)| == |VisitsOf(before, id)| + (if id == v.id then 1 else 0)
            && (id == v.id ==> v.stage == |VisitsOf(before, id)|)
  {
    var before, v := visits[..|visits| - 1], visits[|visits| - 1];
    var all, earlier := VisitsOf(visits, id), VisitsOf(before, id);
    assert all == earlier + if id == v.id then [v.stage] else [];
    assert forall j :: 0 <= j < |earlier| ==> earlier[j] == all[j];
    assert id == v.id ==> all[|earlier|] == v.stage;
  }

  /** A request is finalized once its final stage, which must yield, has been
      visited; nothing is reported for it afterwards. */
  lemma {:induction false} TidyLog(p: Pipeline, rep: Reports, visits: seq<Visit>)
    requires Tidy(p, visits)
    ensures M.Late(Log(p, rep, visits)) == 0
    ensures forall id :: id in M.Finalized(Log(p, rep, visits)) <==>
              id in p.final && p.final[id] < p.Stages() && p.finalOutput[p.final[id]]
                  && |VisitsOf(visits, id)| > p.final[id]
  {
    if visits != [] {
      var before, v := visits[..|visits| - 1], visits[|visits| - 1];
      TidyLast(p, visits);
      TidyLog(p, rep, before);
      LogSnoc(p, rep, Log(p, rep, before), v, {});
    }
  }

  /** Nothing stays open if and only if every visit outside the set reported no
      tokens. */
  lemma {:induction false} OpenIff(p: Pipeline, rep: Reports, visits: seq<Visit>, done: set<Id>)
    ensures M.Open(Log(p, rep, visits), done) == 0 <==>
            forall k :: 0 <= k < |visits| ==> visits[k].id in done || M.Tokens(StatsOf(rep, visits[k])) == 0
  {
    if visits != [] {
      var before, v := visits[..|visits| - 1], visits[|visits| - 1];
      OpenIff(p, rep, before, done);
      LogSnoc(p, rep, Log(p, rep, before), v, done);
      assert forall k :: 0 <= k < |before| ==> before[k] == visits[k];
    }
  }

  lemma {:induction false} LogStages(p: Pipeline, rep: Reports, visits: seq<Visit>)
    requires forall k :: 0 <= k < |visits| ==> visits[k].stage < p.Stages()
    ensures M.StagesExist(Log(p, rep, visits), p.Stages())
  {
    if visits != [] {
      LogStages(p, rep, visits[..|visits| - 1]);
    }
  }

  // ---------------------------------------------------------- whole runs

  lemma {:induction false} VisitListed(visits: seq<Visit>, k: nat)
    requires k < |visits|
    ensures visits[k].stage in VisitsOf(visits, visits[k].id)
  {
    if k < |visits| - 1 {
      VisitListed(visits[..|visits| - 1], k);
    }
  }

  lemma {:induction false} ListedVisit(visits: seq<Visit>, id: Id, s: nat) returns (k: nat)
    requires s in VisitsOf(visits, id)
    ensures k < |visits| && visits[k] == Visit(id, s)
  {
    var last := visits[|visits| - 1];
    if s in VisitsOf(visits[..|visits| - 1], id) {
      k := ListedVisit(visits[..|visits| - 1], id, s);
    } else {
      k := |visits| - 1;
    }
  }

  lemma {:induction false} NoVisits(visits: seq<Visit>, id: Id)
    requires forall k :: 0 <= k < |visits| ==> visits[k].id != id
    ensures VisitsOf(visits, id) == []
  {
    if visits != [] {
      NoVisits(visits[..|visits| - 1], id);
    }
  }

  /** The visits of a finished run: each request at each stage of its way, once. */
  ghost predicate AllVisited(p: Pipeline, visits: seq<Visit>)
    requires p.Valid()
  {
    && (forall id :: id in p.ids ==> VisitsOf(visits, id) == Upto(p.final[id] + 1))
    && forall k :: 0 <= k < |visits| ==> visits[k].id in p.ids
  }

  lemma RunVisits(p: Pipeline, actions: seq<Action>, states: seq<Net>)
    requires IsRun(p, actions, states) && states[|actions|].completed == |p.ids|
    ensures AllVisited(p, states[|actions|].visits)
  {
    RunInv(p, actions, states);
    ExitFinished(p, states[|actions|]);
  }

  lemma UptoInOrder(q: seq<nat>, k: nat)
    requires q == Upto(k)
    ensures InOrder(q) && |q| == k
  {
    UptoLength(k);
  }

  lemma VisitsLength(p: Pipeline, visits: seq<Visit>, id: Id)
    requires p.Valid() && AllVisited(p, visits)
    ensures InOrder(VisitsOf(visits, id))
    ensures |VisitsOf(visits, id)| == if id in p.ids then p.final[id] + 1 else 0
  {
    if id in p.ids {
      UptoInOrder(VisitsOf(visits, id), p.final[id] + 1);
    } else {
      NoVisits(visits, id);
    }
  }

  lemma VisitsTidy(p: Pipeline, visits: seq<Visit>)
    requires p.Valid() && AllVisited(p, visits)
    ensures Tidy(p, visits)
  {
    forall id ensures InOrder(VisitsOf(visits, id)) {
      VisitsLength(p, visits, id);
    }
    forall k | 0 <= k < |visits| ensures visits[k].stage <= p.final[visits[k].id] {
      VisitListed(visits, k);
      VisitsLength(p, visits, visits[k].id);
    }
  }

  /** No stage on a request's way reports tokens for it. */
  ghost predicate NoTokens(p: Pipeline, rep: Reports, id: Id)
    requires id in p.final
  {
    forall s: nat :: s <= p.final[id] ==> M.Tokens(StatsOf(rep, Visit(id, s))) == 0
  }

  ghost predicate Yields(p: Pipeline, id: Id)
    requires p.Valid() && id in p.ids
  {
    p.finalOutput[p.final[id]]
  }

  /** The requests that a finished run finalizes. */
  lemma FinalizedIs(p: Pipeline, rep: Reports, visits: seq<Visit>, id: Id)
    requires p.Valid() && AllVisited(p, visits)
    ensures id in M.Finalized(Log(p, rep, visits)) <==> id in p.ids && Yields(p, id)
  {
    VisitsTidy(p, visits);
    VisitsLength(p, visits, id);
    TidyLog(p, rep, visits);
  }

  /** Every visit outside a set is without tokens if and only if every request
      outside it is. */
  lemma VisitTokensIff(p: Pipeline, rep: Reports, visits: seq<Visit>, done: set<Id>)
    requires p.Valid() && AllVisited(p, visits)
    ensures (forall k :: 0 <= k < |visits| ==> visits[k].id in done || M.Tokens(StatsOf(rep, visits[k])) == 0)
            <==> forall id :: id in p.ids ==> id in done || NoTokens(p, rep, id)
  {
    if forall k :: 0 <= k < |visits| ==> visits[k].id in done || M.Tokens(StatsOf(rep, visits[k])) == 0 {
      forall id, s: nat | id in p.ids && id !in done && s <= p.final[id]
        ensures M.Tokens(StatsOf(rep, Visit(id, s))) == 0
      {
        VisitsLength(p, visits, id);
        assert VisitsOf(visits, id)[s] == s;
        var k := ListedVisit(visits, id, s);
      }
    }
    if forall id :: id in p.ids ==> id in done || NoTokens(p, rep, id) {
      VisitsTidy(p, visits);
      forall k | 0 <= k < |visits| ensures visits[k].id in done || M.Tokens(StatsOf(rep, visits[k])) == 0 {
        assert visits[k] == Visit(visits[k].id, visits[k].stage);
      }
    }
  }

  /** What a finished run leaves open. */
  lemma NothingOpenIff(p: Pipeline, rep: Reports, visits: seq<Visit>)
    requires p.Valid() && AllVisited(p, visits)
    ensures var log := Log(p, rep, visits);
            M.Open(log, M.Finalized(log)) == 0 <==> forall id :: id in p.ids ==> Yields(p, id) || NoTokens(p, rep, id)
  {
    var done := M.Finalized(Log(p, rep, visits));
    OpenIff(p, rep, visits, done);
    VisitTokensIff(p, rep, visits, done);
    forall id | id in p.ids ensures id in done <==> Yields(p, id) {
      FinalizedIs(p, rep, visits, id);
    }
  }

  /** At the end of a synchronous run the end-to-end tokens equal the stage
      totals if and only if every request with tokens has a final stage that
      yields; the counters agree in any case. */
  lemma RunBalancesIff(p: Pipeline, rep: Reports, actions: seq<Action>, states: seq<Net>)
    requires IsRun(p, actions, states) && states[|actions|].completed == |p.ids|
    ensures var log := Log(p, rep, states[|actions|].visits);
            && M.StagesExist(log, p.Stages())
            && var a := M.Run(p.Stages(), log);
            && M.Agrees(a)
            && (a.e2eTokens == Sum(a.totals) <==> forall id :: id in p.ids ==> Yields(p, id) || NoTokens(p, rep, id))
  {
    var visits := states[|actions|].visits;
    var log := Log(p, rep, visits);
    RunVisits(p, actions, states);
    VisitsTidy(p, visits);
    LogStages(p, rep, visits);
    TidyLog(p, rep, visits);
    NothingOpenIff(p, rep, visits);
    M.BalanceIff(p.Stages(), log);
    M.RunAgrees(p.Stages(), log);
  }

  /** So a request with tokens whose final stage yields nothing leaves every
      finished run unbalanced, and such runs exist. */
  lemma UnbalancedRun(p: Pipeline, rep: Reports, id: Id) returns (actions: seq<Action>, states: seq<Net>)
    requires p.Valid() && id in p.ids && !Yields(p, id) && !NoTokens(p, rep, id)
    ensures IsRun(p, actions, states) && states[|actions|].completed == |p.ids|
    ensures var log := Log(p, rep, states[|actions|].visits);
            M.StagesExist(log, p.Stages())
            && M.Run(p.Stages(), log).e2eTokens != Sum(M.Run(p.Stages(), log).totals)
  {
    actions, states := FinishedRun(p);
    RunBalancesIff(p, rep, actions, states);
  }

  // ------------------------------------------------------------- transfers

  function SentOver(rep: Reports, id: Id, s: nat): M.Move {
    M.Out(rep.sending(id, s).bytes)
  }

  function ReceivedAt(rep: Reports, id: Id, s: nat): M.Move {
    M.In(rep.stats(id, s).rxBytes)
  }

  lemma MovesConcat(log: seq<M.Event>, evs: seq<M.Event>, edge: M.Edge)
    requires |evs| <= 2
    ensures M.Moves(log + evs, edge) == M.Moves(log, edge)
              + (if |evs| > 0 then M.MoveOf(evs[0], edge) else [])
              + (if |evs| > 1 then M.MoveOf(evs[1], edge) else [])
  {
    if |evs| == 0 {
      assert log + evs == log;
    } else {
      assert (log + [evs[0]])[..|log|] == log;
      if |evs| == 1 {
        assert log + evs == log + [evs[0]];
      } else {
        assert (log + evs)[..|log| + 1] == log + [evs[0]];
      }
    }
  }

  lemma EventMoves(p: Pipeline, rep: Reports, v: Visit, id: Id, s: nat)
    requires id in p.final && s < p.final[id]
    ensures var evs, edge := EventsOf(p, rep, v), M.Edge(s, s + 1, id);
            && 1 <= |evs| <= 2
            && M.MoveOf(evs[0], edge) == (if v == Visit(id, s + 1) then [ReceivedAt(rep, id, s + 1)] else [])
            && (|evs| > 1 ==> M.MoveOf(evs[1], edge) == if v == Visit(id, s) then [SentOver(rep, id, s)] else [])
            && (|evs| == 1 ==> v != Visit(id, s))
  {
  }

  lemma VisitMoves(p: Pipeline, rep: Reports, log: seq<M.Event>, v: Visit, id: Id, s: nat)
    requires id in p.final && s < p.final[id]
    ensures M.Moves(log + EventsOf(p, rep, v), M.Edge(s, s + 1, id)) == M.Moves(log, M.Edge(s, s + 1, id))
              + (if v == Visit(id, s) then [SentOver(rep, id, s)]
                 else if v == Visit(id, s + 1) then [ReceivedAt(rep, id, s + 1)] else [])
  {
    EventMoves(p, rep, v, id, s);
    MovesConcat(log, EventsOf(p, rep, v), M.Edge(s, s + 1, id));
  }

  /** On each edge a run sends once and then receives once. */
  lemma {:induction false} EdgeMoves(p: Pipeline, rep: Reports, visits: seq<Visit>, id: Id, s: nat)
    requires InOrder(VisitsOf(visits, id)) && id in p.final && s < p.final[id]
    ensures M.Moves(Log(p, rep, visits), M.Edge(s, s + 1, id)) == Exchanged(rep, id, s, |VisitsOf(visits, id)|)
  {
    if visits != [] {
      var before, v := visits[..|visits| - 1], visits[|visits| - 1];
      VisitAdded(visits, id);
      EdgeMoves(p, rep, before, id, s);
      VisitMoves(p, rep, Log(p, rep, before), v, id, s);
    }
  }

  /** The moves over an edge once a request has been visited at some stages. */
  function Exchanged(rep: Reports, id: Id, s: nat, reached: nat): seq<M.Move> {
    (if reached > s then [SentOver(rep, id, s)] else [])
    + (if reached > s + 1 then [ReceivedAt(rep, id, s + 1)] else [])
  }

  lemma BytesExchanged(rep: Reports, id: Id, s: nat, moves: seq<M.Move>)
    requires moves == [SentOver(rep, id, s), ReceivedAt(rep, id, s + 1)]
    ensures M.SentBytes(moves) + M.Early(moves) == rep.sending(id, s).bytes
            <==> rep.sending(id, s).bytes > 0 || rep.stats(id, s + 1).rxBytes == 0
  {
    var out, inn := SentOver(rep, id, s), ReceivedAt(rep, id, s + 1);
    M.MovesAppend([], out);
    M.MovesAppend([out], inn);
    assert [] + [out] == [out] && [out] + [inn] == moves;
  }

  /** At the end of a run each edge counts exactly the bytes sent over it if and
      only if the sender reported some, or the receiver none. */
  lemma RunCountsOnceIff(p: Pipeline, rep: Reports, actions: seq<Action>, states: seq<Net>, id: Id, s: nat)
    requires IsRun(p, actions, states) && states[|actions|].completed == |p.ids|
    requires id in p.ids && s < p.final[id]
    ensures var log := Log(p, rep, states[|actions|].visits);
            M.StagesExist(log, p.Stages())
            && (M.TransferOf(M.Run(p.Stages(), log), M.Edge(s, s + 1, id)).bytes == rep.sending(id, s).bytes
                <==> rep.sending(id, s).bytes > 0 || rep.stats(id, s + 1).rxBytes == 0)
  {
    var visits := states[|actions|].visits;
    var log := Log(p, rep, visits);
    RunVisits(p, actions, states);
    VisitsTidy(p, visits);
    LogStages(p, rep, visits);
    VisitsLength(p, visits, id);
    EdgeMoves(p, rep, visits, id, s);
    M.EdgeBytes(p.Stages(), log, M.Edge(s, s + 1, id));
    BytesExchanged(rep, id, s, M.Moves(log, M.Edge(s, s + 1, id)));
  }

  /** So a receipt behind a send that reports no bytes is counted, and there are
      runs that end this way. */
  lemma MiscountedRun(p: Pipeline, rep: Reports, id: Id, s: nat) returns (actions: seq<Action>, states: seq<Net>)
    requires p.Valid() && id in p.ids && s < p.final[id]
    requires rep.sending(id, s).bytes == 0 && rep.stats(id, s + 1).rxBytes > 0
    ensures IsRun(p, actions, states) && states[|actions|].completed == |p.ids|
    ensures var log := Log(p, rep, states[|actions|].visits);
            M.StagesExist(log, p.Stages())
            && M.TransferOf(M.Run(p.Stages(), log), M.Edge(s, s + 1, id)).bytes != 0
  {
    actions, states := FinishedRun(p);
    RunCountsOnceIff(p, rep, actions, states, id, s);
  }
}
