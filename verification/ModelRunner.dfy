/** The model runner's per-step update of its request states and of the
    persistent batch, stated as a relation between runner states. */
module ModelRunners {
  import opened Common
  import opened InputBatches

  datatype ReqState = ReqState(
    prompt: seq<Token>,
    output: seq<Token>,
    blocks: BlockTable,
    numComputed: int,
    prevDraft: nat)
  {
    function Tokens(): seq<Token> {
      prompt + output
    }
  }

  datatype NewRequest = NewRequest(
    id: ReqId, prompt: seq<Token>, blocks: BlockTable, numComputed: int)

  datatype CachedRequest = CachedRequest(
    id: ReqId,
    numComputed: int,
    newBlocks: Option<BlockTable>,
    numOutput: nat,
    newTokens: seq<Token>)

  /** One scheduler output. `validSampled` gives, by request, the number of
      tokens that the previous step sampled validly; `specLen` the number of
      draft tokens scheduled; `prompts` the refreshed prompts of async-chunk mode. */
  datatype SchedulerOutput = SchedulerOutput(
    finished: set<ReqId>,
    scheduled: set<ReqId>,
    news: seq<NewRequest>,
    cached: seq<CachedRequest>,
    resumed: set<ReqId>,
    allTokens: map<ReqId, seq<Token>>,
    validSampled: map<ReqId, int>,
    specLen: map<ReqId, nat>,
    prompts: map<ReqId, seq<Token>>)
  {
    ghost function NewIds(): set<ReqId> {
      set k | 0 <= k < |news| :: news[k].id
    }

    ghost function CachedIds(): set<ReqId> {
      set k | 0 <= k < |cached| :: cached[k].id
    }

    function SpecLen(id: ReqId): nat {
      if id in specLen then specLen[id] else 0
    }
  }

  datatype Config = Config(isLastRank: bool, useAsync: bool)

  // ------------------------------------------------------------ one request

  /** The last k elements, or everything when there are fewer. */
  function Suffix<T>(s: seq<T>, k: nat): (r: seq<T>)
  {
    if k >= |s| then s else s[|s| - k..]
  }

  function Placeholders(n: int): seq<Token> {
    if n <= 0 then [] else seq(n, _ => -1)
  }

  function ExtendBlocks(blocks: BlockTable, added: BlockTable): BlockTable
    requires |blocks| == |added|
  {
    seq(|blocks|, g requires 0 <= g < |blocks| => blocks[g] + added[g])
  }

  function TokenAt(start: nat, tokens: seq<Token>, i: nat): Token
    requires start <= i < start + |tokens|
  {
    tokens[i - start]
  }

  /** Tokens laid out in consecutive cells. */
  function CellsAt(start: nat, tokens: seq<Token>): map<nat, Token> {
    map i: nat | start <= i < start + |tokens| :: TokenAt(start, tokens, i)
  }

  /** The row that adding a request writes from its state. */
  function FreshRow(st: ReqState): Row {
    Row(st.blocks, st.numComputed, |st.prompt|, |st.Tokens()|, CellsAt(0, st.Tokens()))
  }

  function InitState(n: NewRequest): ReqState {
    ReqState(n.prompt, [], n.blocks, n.numComputed, 0)
  }

  predicate Corrects(cfg: Config, st: ReqState, inBatch: bool) {
    st.prevDraft > 0 && cfg.useAsync && inBatch
  }

  /** The computed-token count once rejected draft tokens are taken back. */
  function Computed(cfg: Config, so: SchedulerOutput, e: CachedRequest, st: ReqState, inBatch: bool): int
    requires Corrects(cfg, st, inBatch) ==> e.id in so.validSampled
  {
    if Corrects(cfg, st, inBatch)
    then e.numComputed - (st.prevDraft - (so.validSampled[e.id] - 1))
    else e.numComputed
  }

  function CorrectedOutput(cfg: Config, so: SchedulerOutput, e: CachedRequest, st: ReqState, inBatch: bool): seq<Token>
    requires Corrects(cfg, st, inBatch) ==> e.id in so.validSampled
  {
    if Corrects(cfg, st, inBatch)
    then st.output + Placeholders(so.validSampled[e.id] - 1)
    else st.output
  }

  /** Tokens sent back to a rank that does not sample: only those beyond the
      `known` ones are appended. None stands for the failing index of an empty list. */
  function TokensToAppend(known: nat, computed: int, newTokens: seq<Token>): Option<seq<Token>> {
    var numNew := computed + |newTokens| - known;
    if numNew == 1 then
      if newTokens == [] then None else Some([newTokens[|newTokens| - 1]])
    else if numNew > 0 then Some(Suffix(newTokens, numNew))
    else Some([])
  }

  /** What the scheduler owes for one cached request, so that no branch of the
      update indexes a missing entry. */
  ghost predicate EntryOk(cfg: Config, so: SchedulerOutput, e: CachedRequest, st: ReqState, inBatch: bool) {
    && (Corrects(cfg, st, inBatch) ==> e.id in so.validSampled)
    && (e.id in so.resumed ==> e.newBlocks.Some?)
    && (e.id !in so.resumed && e.newBlocks.Some? ==> |e.newBlocks.value| == |st.blocks|)
    && (!cfg.isLastRank ==>
          && 0 <= Computed(cfg, so, e, st, inBatch)
          && TokensToAppend(|st.prompt + CorrectedOutput(cfg, so, e, st, inBatch)|,
                            Computed(cfg, so, e, st, inBatch), e.newTokens).Some?)
    && (!inBatch && cfg.useAsync && e.numOutput > 0 ==> e.id in so.allTokens)
  }

  function NewBlocks(so: SchedulerOutput, e: CachedRequest, blocks: BlockTable): BlockTable
    requires e.id in so.resumed ==> e.newBlocks.Some?
    requires e.id !in so.resumed && e.newBlocks.Some? ==> |e.newBlocks.value| == |blocks|
  {
    if e.id in so.resumed then e.newBlocks.value
    else if e.newBlocks.Some? then ExtendBlocks(blocks, e.newBlocks.value)
    else blocks
  }

  ghost function NewOutput(cfg: Config, so: SchedulerOutput, e: CachedRequest, st: ReqState, inBatch: bool): seq<Token>
    requires EntryOk(cfg, so, e, st, inBatch)
  {
    var output := CorrectedOutput(cfg, so, e, st, inBatch);
    if !inBatch && cfg.useAsync && e.numOutput > 0 then Suffix(so.allTokens[e.id], e.numOutput)
    else if !cfg.isLastRank then
      output + TokensToAppend(|st.prompt + output|, Computed(cfg, so, e, st, inBatch), e.newTokens).value
    else if e.numOutput < |output| then output[..e.numOutput]
    else output
  }

  /** The state of a cached request after the step. */
  ghost function AdvanceState(cfg: Config, so: SchedulerOutput, e: CachedRequest, st: ReqState, inBatch: bool): ReqState
    requires EntryOk(cfg, so, e, st, inBatch)
  {
    ReqState(st.prompt, NewOutput(cfg, so, e, st, inBatch), NewBlocks(so, e, st.blocks),
             Computed(cfg, so, e, st, inBatch), so.SpecLen(e.id))
  }

  /** The incremental update of a row that stays in the batch. */
  ghost function AdvanceRow(cfg: Config, so: SchedulerOutput, e: CachedRequest, st: ReqState, row: Row): Row
    requires EntryOk(cfg, so, e, st, true)
    requires e.newBlocks.Some? ==> |e.newBlocks.value| == |row.blocks|
  {
    var computed := Computed(cfg, so, e, st, true);
    var blocks := if e.newBlocks.Some? then ExtendBlocks(row.blocks, e.newBlocks.value) else row.blocks;
    if !cfg.isLastRank then
      Row(blocks, computed, row.numPrompt, computed + |e.newTokens|,
          row.cells + CellsAt(computed, e.newTokens))
    else
      Row(blocks, computed, row.numPrompt,
          if e.numOutput < |CorrectedOutput(cfg, so, e, st, true)|
          then row.numPrompt + e.numOutput else row.numTokensNoSpec,
          row.cells)
  }

  /** A row written in place, given the computed count and whether discarded
      tokens shorten it. */
  function UpdatedRow(cfg: Config, e: CachedRequest, row: Row, computed: int, truncated: bool): Row
    requires e.newBlocks.Some? ==> |e.newBlocks.value| == |row.blocks|
    requires !cfg.isLastRank ==> computed >= 0
  {
    var blocks := if e.newBlocks.Some? then ExtendBlocks(row.blocks, e.newBlocks.value) else row.blocks;
    if !cfg.isLastRank then
      Row(blocks, computed, row.numPrompt, computed + |e.newTokens|, row.cells + CellsAt(computed, e.newTokens))
    else
      Row(blocks, computed, row.numPrompt,
          if truncated then row.numPrompt + e.numOutput else row.numTokensNoSpec, row.cells)
  }

  lemma UpdatedIsAdvanced(cfg: Config, so: SchedulerOutput, e: CachedRequest, st: ReqState, row: Row)
    requires EntryOk(cfg, so, e, st, true)
    requires e.newBlocks.Some? ==> |e.newBlocks.value| == |row.blocks|
    ensures AdvanceRow(cfg, so, e, st, row)
            == UpdatedRow(cfg, e, row, Computed(cfg, so, e, st, true),
                          cfg.isLastRank && e.numOutput < |CorrectedOutput(cfg, so, e, st, true)|)
  {
  }

  // --------------------------------------------------------- whole-step relation

  /** The runner's two tables: request states, and batch rows by request id. */
  datatype RunnerState = RunnerState(requests: map<ReqId, ReqState>, rows: map<ReqId, Row>)

  /** The rows that survive the removal of finished and unscheduled requests;
      a request resumed from preemption does not. */
  ghost function Kept(rows: map<ReqId, Row>, so: SchedulerOutput): set<ReqId> {
    rows.Keys * (so.scheduled - so.resumed) - so.finished
  }

  /** The batch caches the request states: same block table and same
      computed-token count, and no row without a state. */
  ghost predicate Mirrored(s: RunnerState) {
    && s.rows.Keys <= s.requests.Keys
    && forall id :: id in s.rows ==>
         && s.rows[id].blocks == s.requests[id].blocks
         && s.rows[id].numComputed == s.requests[id].numComputed
         && s.rows[id].numPrompt == |s.requests[id].prompt|
  }

  /** The ids of a scheduler output: scheduled ids are the disjoint union of
      new and cached ones, new ids are not live, cached ones are, and only
      cached ones are resumed. */
  ghost predicate IdsOk(requests: map<ReqId, ReqState>, so: SchedulerOutput) {
    && so.scheduled == so.NewIds() + so.CachedIds()
    && so.NewIds() !! so.CachedIds()
    && (forall j, k :: 0 <= j < k < |so.news| ==> so.news[j].id != so.news[k].id)
    && (forall j, k :: 0 <= j < k < |so.cached| ==> so.cached[j].id != so.cached[k].id)
    && so.resumed <= so.CachedIds()
    && so.NewIds() !! (requests.Keys - so.finished)
    && so.CachedIds() <= requests.Keys - so.finished
  }

  ghost predicate SchedulerContract(cfg: Config, s: RunnerState, so: SchedulerOutput) {
    && IdsOk(s.requests, so)
    && forall k {:trigger so.cached[k]} :: 0 <= k < |so.cached| ==>
         var e := so.cached[k];
         e.id in s.requests && EntryOk(cfg, so, e, s.requests[e.id], e.id in Kept(s.rows, so))
  }

  ghost predicate StepRequests(cfg: Config, s: RunnerState, so: SchedulerOutput, t: RunnerState)
    requires SchedulerContract(cfg, s, so)
  {
    && t.requests.Keys == (s.requests.Keys - so.finished) + so.NewIds()
    && (forall k {:trigger so.news[k]} :: 0 <= k < |so.news| ==>
          t.requests[so.news[k].id] == InitState(so.news[k]).(prevDraft := so.SpecLen(so.news[k].id)))
    && (forall k {:trigger so.cached[k]} :: 0 <= k < |so.cached| ==>
          var e := so.cached[k];
          t.requests[e.id] == AdvanceState(cfg, so, e, s.requests[e.id], e.id in Kept(s.rows, so)))
    && (forall id :: id in t.requests && id !in so.scheduled ==> t.requests[id] == s.requests[id])
  }

  ghost predicate StepRows(cfg: Config, s: RunnerState, so: SchedulerOutput, t: RunnerState)
    requires SchedulerContract(cfg, s, so) && Mirrored(s) && StepRequests(cfg, s, so, t)
  {
    && t.rows.Keys == so.scheduled
    && (forall k {:trigger so.cached[k]} :: 0 <= k < |so.cached| && so.cached[k].id in Kept(s.rows, so) ==>
          var e := so.cached[k];
          t.rows[e.id] == AdvanceRow(cfg, so, e, s.requests[e.id], s.rows[e.id]))
    && (forall id :: id in so.scheduled && id !in Kept(s.rows, so) ==> t.rows[id] == FreshRow(t.requests[id]))
  }

  /** One call of the update on a scheduler output takes s to t. */
  ghost predicate Step(cfg: Config, s: RunnerState, so: SchedulerOutput, t: RunnerState) {
    && SchedulerContract(cfg, s, so)
    && Mirrored(s)
    && StepRequests(cfg, s, so, t)
    && StepRows(cfg, s, so, t)
  }

  /** A cached request that the update can take: its state is known and its
      row, if it has one, caches its block table. */
  ghost predicate CachedReady(cfg: Config, so: SchedulerOutput, e: CachedRequest, s: RunnerState) {
    && e.id in s.requests
    && EntryOk(cfg, so, e, s.requests[e.id], e.id in s.rows)
    && (e.id in s.rows ==> e.id !in so.resumed && s.rows[e.id].blocks == s.requests[e.id].blocks)
  }

  /** A cached request whose update took s to t; `again` asks for a new row,
      which is when its draft count is set. */
  ghost predicate CachedDone(cfg: Config, so: SchedulerOutput, e: CachedRequest, s: RunnerState, t: RunnerState,
                             again: bool)
    requires CachedReady(cfg, so, e, s)
  {
    var st := AdvanceState(cfg, so, e, s.requests[e.id], e.id in s.rows);
    && again == (e.id !in s.rows)
    && e.id in t.requests
    && t.requests[e.id].(prevDraft := so.SpecLen(e.id)) == st
    && (!again ==>
          && e.id in t.rows
          && t.requests[e.id] == st
          && t.rows[e.id] == AdvanceRow(cfg, so, e, s.requests[e.id], s.rows[e.id]))
  }

  /** The two states agree on one request. */
  ghost predicate SameAt(id: ReqId, s: RunnerState, t: RunnerState) {
    && (id in s.requests <==> id in t.requests)
    && (id in s.rows <==> id in t.rows)
    && (id in s.requests ==> s.requests[id] == t.requests[id])
    && (id in s.rows ==> s.rows[id] == t.rows[id])
  }

  /** What a pass over the cached requests starts from. */
  ghost predicate CachedPending(cfg: Config, so: SchedulerOutput, s: RunnerState) {
    && (forall j, k :: 0 <= j < k < |so.cached| ==> so.cached[j].id != so.cached[k].id)
    && forall k {:trigger so.cached[k]} :: 0 <= k < |so.cached| ==> CachedReady(cfg, so, so.cached[k], s)
  }

  /** The first i cached requests are updated, the others are as they were,
      and `readd` lists those of the first i that need a new row. */
  ghost predicate CachedProgress(cfg: Config, so: SchedulerOutput, s: RunnerState, t: RunnerState,
                                 readd: seq<ReqId>, i: nat)
    requires CachedPending(cfg, so, s)
  {
    && t.requests.Keys == s.requests.Keys
    && t.rows.Keys == s.rows.Keys
    && (forall k {:trigger so.cached[k]} :: 0 <= k < |so.cached| ==>
          if k < i then CachedDone(cfg, so, so.cached[k], s, t, so.cached[k].id in readd)
          else so.cached[k].id !in readd && SameAt(so.cached[k].id, s, t))
    && (forall id :: id in t.requests && id !in so.CachedIds() ==> t.requests[id] == s.requests[id])
    && (forall id :: id in readd ==> id in so.CachedIds())
    && Distinct(readd)
  }

  lemma CachedNext(cfg: Config, so: SchedulerOutput, s: RunnerState, t: RunnerState, readd: seq<ReqId>, i: nat)
    requires CachedPending(cfg, so, s) && CachedProgress(cfg, so, s, t, readd, i) && i < |so.cached|
    ensures CachedReady(cfg, so, so.cached[i], t)
  {
    assert SameAt(so.cached[i].id, s, t);
  }

  /** The updates of one cached request, put together. */
  lemma DoneOne(cfg: Config, so: SchedulerOutput, e: CachedRequest, s: RunnerState, t: RunnerState, again: bool)
    requires CachedReady(cfg, so, e, s) && again == (e.id !in s.rows)
    requires var st := AdvanceState(cfg, so, e, s.requests[e.id], !again);
             e.id in t.requests &&
             t.requests == s.requests[e.id := if again then st.(prevDraft := t.requests[e.id].prevDraft) else st]
    requires t.rows == if again then s.rows else s.rows[e.id := AdvanceRow(cfg, so, e, s.requests[e.id], s.rows[e.id])]
    ensures CachedDone(cfg, so, e, s, t, again)
    ensures t.requests.Keys == s.requests.Keys && t.rows.Keys == s.rows.Keys
    ensures forall id :: id != e.id ==> SameAt(id, s, t)
  {
  }

  lemma DoneFrame(cfg: Config, so: SchedulerOutput, e: CachedRequest, s: RunnerState, t: RunnerState,
                  u: RunnerState, again: bool)
    requires CachedReady(cfg, so, e, s) && CachedDone(cfg, so, e, s, t, again) && SameAt(e.id, t, u)
    ensures CachedDone(cfg, so, e, s, u, again)
  {
  }

  lemma DoneFrom(cfg: Config, so: SchedulerOutput, e: CachedRequest, s: RunnerState, t: RunnerState,
                 u: RunnerState, again: bool)
    requires CachedReady(cfg, so, e, s) && SameAt(e.id, s, t)
    requires CachedReady(cfg, so, e, t) && CachedDone(cfg, so, e, t, u, again)
    ensures CachedDone(cfg, so, e, s, u, again)
  {
  }

  /** One more cached request updated. */
  lemma CachedProgressStep(cfg: Config, so: SchedulerOutput, s: RunnerState, t: RunnerState, u: RunnerState,
                           listed: seq<ReqId>, readd: seq<ReqId>, i: nat, again: bool)
    requires CachedPending(cfg, so, s) && CachedProgress(cfg, so, s, t, listed, i) && i < |so.cached|
    requires CachedReady(cfg, so, so.cached[i], t) && CachedDone(cfg, so, so.cached[i], t, u, again)
    requires readd == if again then listed + [so.cached[i].id] else listed
    requires u.requests.Keys == t.requests.Keys && u.rows.Keys == t.rows.Keys
    requires forall id :: id != so.cached[i].id ==> SameAt(id, t, u)
    ensures CachedProgress(cfg, so, s, u, readd, i + 1)
  {
    var e := so.cached[i];
    assert SameAt(e.id, s, t) && e.id !in listed && e.id in so.CachedIds();
    DoneFrom(cfg, so, e, s, t, u, again);
    forall k {:trigger so.cached[k]} | 0 <= k < |so.cached| && k != i
      ensures if k < i then CachedDone(cfg, so, so.cached[k], s, u, so.cached[k].id in readd)
              else so.cached[k].id !in readd && SameAt(so.cached[k].id, s, u)
    {
      assert so.cached[k].id != e.id;
      OtherProgress(cfg, so, s, t, u, listed, i, k);
    }
    forall id | id in u.requests && id !in so.CachedIds() ensures u.requests[id] == s.requests[id] {
      assert SameAt(id, t, u);
    }
  }

  lemma OtherProgress(cfg: Config, so: SchedulerOutput, s: RunnerState, t: RunnerState, u: RunnerState,
                      listed: seq<ReqId>, i: nat, k: nat)
    requires CachedPending(cfg, so, s) && CachedProgress(cfg, so, s, t, listed, i) && k < |so.cached|
    requires SameAt(so.cached[k].id, t, u)
    ensures if k < i then CachedDone(cfg, so, so.cached[k], s, u, so.cached[k].id in listed)
            else so.cached[k].id !in listed && SameAt(so.cached[k].id, s, u)
  {
    if k < i {
      DoneFrame(cfg, so, so.cached[k], s, t, u, so.cached[k].id in listed);
    } else {
      assert SameAt(so.cached[k].id, s, t);
    }
  }

  /** s to t: finished and unscheduled rows are gone, new states are there. */
  ghost predicate NewAdded(s: RunnerState, so: SchedulerOutput, t: RunnerState) {
    && t.rows.Keys == Kept(s.rows, so)
    && (forall id :: id in t.rows ==> t.rows[id] == s.rows[id])
    && t.requests.Keys == (s.requests.Keys - so.finished) + so.NewIds()
    && (forall k {:trigger so.news[k]} :: 0 <= k < |so.news| ==> t.requests[so.news[k].id] == InitState(so.news[k]))
    && (forall id :: id in t.requests && id !in so.NewIds() ==> t.requests[id] == s.requests[id])
  }

  /** s to t: the listed requests have fresh rows and their draft counts set. */
  ghost predicate RowsAdded(so: SchedulerOutput, s: RunnerState, t: RunnerState, toAdd: seq<ReqId>) {
    && t.requests.Keys == s.requests.Keys
    && t.rows.Keys == s.rows.Keys + ToSet(toAdd)
    && (forall id :: id in toAdd ==>
          && id in s.requests
          && t.requests[id] == s.requests[id].(prevDraft := so.SpecLen(id))
          && t.rows[id] == FreshRow(t.requests[id]))
    && (forall id :: id in s.requests && id !in toAdd ==> t.requests[id] == s.requests[id])
    && (forall id :: id in s.rows && id !in toAdd ==> t.rows[id] == s.rows[id])
  }

  lemma RowsAddedNext(so: SchedulerOutput, s: RunnerState, t: RunnerState, u: RunnerState, added: seq<ReqId>, id: ReqId)
    requires RowsAdded(so, s, t, added) && id !in added && id in s.requests && id !in s.rows
    requires u.requests == t.requests[id := t.requests[id].(prevDraft := so.SpecLen(id))]
    requires u.rows == t.rows[id := FreshRow(t.requests[id])]
    ensures RowsAdded(so, s, u, added + [id])
  {
  }

  lemma PendingAfterNew(cfg: Config, s: RunnerState, so: SchedulerOutput, p: RunnerState)
    requires Mirrored(s) && SchedulerContract(cfg, s, so) && NewAdded(s, so, p)
    ensures CachedPending(cfg, so, p)
  {
    forall k {:trigger so.cached[k]} | 0 <= k < |so.cached| ensures CachedReady(cfg, so, so.cached[k], p) {
      var id := so.cached[k].id;
      assert id in so.CachedIds();
      assert p.requests[id] == s.requests[id];
      assert id in p.rows <==> id in Kept(s.rows, so);
    }
  }

  lemma ListedIds(so: SchedulerOutput, newIds: seq<ReqId>)
    requires |newIds| == |so.news| && forall k :: 0 <= k < |so.news| ==> newIds[k] == so.news[k].id
    requires forall j, k :: 0 <= j < k < |so.news| ==> so.news[j].id != so.news[k].id
    ensures ToSet(newIds) == so.NewIds() && Distinct(newIds)
  {
    forall id | id in so.NewIds() ensures id in newIds {
      var k :| 0 <= k < |so.news| && so.news[k].id == id;
      assert newIds[k] == id;
    }
  }

  /** A cached request is listed for a new row exactly when it has lost its old
      one. */
  lemma ReaddIsLost(cfg: Config, so: SchedulerOutput, p: RunnerState, q: RunnerState, readd: seq<ReqId>, id: ReqId)
    requires CachedPending(cfg, so, p) && CachedProgress(cfg, so, p, q, readd, |so.cached|)
    ensures id in readd <==> id in so.CachedIds() && id !in p.rows
  {
    if id in so.CachedIds() {
      var k :| 0 <= k < |so.cached| && so.cached[k].id == id;
      assert CachedDone(cfg, so, so.cached[k], p, q, id in readd);
    }
  }

  /** The rows to add: none is in the batch, all have a state. */
  lemma ToAddReady(cfg: Config, s: RunnerState, so: SchedulerOutput, p: RunnerState, q: RunnerState,
                   newIds: seq<ReqId>, readd: seq<ReqId>)
    requires Mirrored(s) && SchedulerContract(cfg, s, so) && NewAdded(s, so, p) && CachedPending(cfg, so, p)
    requires CachedProgress(cfg, so, p, q, readd, |so.cached|)
    requires |newIds| == |so.news| && forall k :: 0 <= k < |so.news| ==> newIds[k] == so.news[k].id
    ensures Distinct(newIds + readd)
    ensures forall id :: id in newIds + readd ==> id in q.requests && id !in q.rows
    ensures ToSet(newIds) == so.NewIds()
    ensures forall id :: id in readd <==> id in so.CachedIds() && id !in Kept(s.rows, so)
  {
    ListedIds(so, newIds);
    forall id ensures id in readd <==> id in so.CachedIds() && id !in Kept(s.rows, so) {
      ReaddIsLost(cfg, so, p, q, readd, id);
    }
    assert forall id :: id in newIds ==> id in ToSet(newIds);
    forall id | id in newIds + readd ensures id in q.requests && id !in q.rows {
      assert id in newIds || id in readd;
    }
  }

  lemma PhasesUpdateRequests(cfg: Config, s: RunnerState, so: SchedulerOutput, p: RunnerState, q: RunnerState,
                             t: RunnerState,
                             newIds: seq<ReqId>, readd: seq<ReqId>)
    requires Mirrored(s) && SchedulerContract(cfg, s, so) && NewAdded(s, so, p) && CachedPending(cfg, so, p)
    requires CachedProgress(cfg, so, p, q, readd, |so.cached|)
    requires ToSet(newIds) == so.NewIds()
    requires forall id :: id in readd <==> id in so.CachedIds() && id !in Kept(s.rows, so)
    requires RowsAdded(so, q, t, newIds + readd)
    ensures StepRequests(cfg, s, so, t)
  {
    forall k {:trigger so.news[k]} | 0 <= k < |so.news|
      ensures t.requests[so.news[k].id] == InitState(so.news[k]).(prevDraft := so.SpecLen(so.news[k].id))
    {
      var id := so.news[k].id;
      assert id in so.NewIds() && id !in so.CachedIds();
      assert id in ToSet(newIds);
      assert id in newIds + readd;
    }
    forall k {:trigger so.cached[k]} | 0 <= k < |so.cached|
      ensures var e := so.cached[k];
              t.requests[e.id] == AdvanceState(cfg, so, e, s.requests[e.id], e.id in Kept(s.rows, so))
    {
      var e := so.cached[k];
      assert e.id in so.CachedIds() && e.id !in so.NewIds();
      assert p.requests[e.id] == s.requests[e.id];
      assert CachedDone(cfg, so, e, p, q, e.id in readd);
      assert e.id !in ToSet(newIds);
      assert e.id in newIds + readd <==> e.id in readd;
    }
    forall id | id in t.requests && id !in so.scheduled ensures t.requests[id] == s.requests[id] {
      assert id !in ToSet(newIds) && id !in readd;
      assert id !in newIds + readd;
    }
  }

  /** The rows after all phases: those kept, and those added. */
  lemma PhasesRowKeys(s: RunnerState, so: SchedulerOutput, p: RunnerState, q: RunnerState, t: RunnerState,
                      newIds: seq<ReqId>, readd: seq<ReqId>)
    requires IdsOk(s.requests, so) && Mirrored(s) && NewAdded(s, so, p) && q.rows.Keys == p.rows.Keys
    requires ToSet(newIds) == so.NewIds()
    requires forall id :: id in readd <==> id in so.CachedIds() && id !in Kept(s.rows, so)
    requires RowsAdded(so, q, t, newIds + readd)
    ensures t.rows.Keys == so.scheduled
    ensures forall id :: id in so.scheduled && id !in Kept(s.rows, so) ==> t.rows[id] == FreshRow(t.requests[id])
  {
    assert forall id :: id in newIds + readd <==> id in ToSet(newIds) || id in readd;
    assert Kept(s.rows, so) <= so.CachedIds();
  }

  /** The rows kept are advanced in place. */
  lemma PhasesKeptRow(cfg: Config, s: RunnerState, so: SchedulerOutput, p: RunnerState, q: RunnerState, t: RunnerState,
                      newIds: seq<ReqId>, readd: seq<ReqId>, k: nat)
    requires Mirrored(s) && SchedulerContract(cfg, s, so) && NewAdded(s, so, p) && CachedPending(cfg, so, p)
    requires CachedProgress(cfg, so, p, q, readd, |so.cached|)
    requires ToSet(newIds) == so.NewIds() && RowsAdded(so, q, t, newIds + readd)
    requires k < |so.cached| && so.cached[k].id in Kept(s.rows, so)
    ensures var e := so.cached[k];
            e.id in t.rows && t.rows[e.id] == AdvanceRow(cfg, so, e, s.requests[e.id], s.rows[e.id])
  {
    var e := so.cached[k];
    assert e.id in so.CachedIds() && e.id !in so.NewIds();
    assert p.requests[e.id] == s.requests[e.id] && p.rows[e.id] == s.rows[e.id];
    assert CachedDone(cfg, so, e, p, q, e.id in readd);
    assert e.id !in ToSet(newIds);
  }

  lemma PhasesUpdateRows(cfg: Config, s: RunnerState, so: SchedulerOutput, p: RunnerState, q: RunnerState,
                         t: RunnerState,
                         newIds: seq<ReqId>, readd: seq<ReqId>)
    requires Mirrored(s) && SchedulerContract(cfg, s, so) && NewAdded(s, so, p) && CachedPending(cfg, so, p)
    requires CachedProgress(cfg, so, p, q, readd, |so.cached|)
    requires ToSet(newIds) == so.NewIds()
    requires forall id :: id in readd <==> id in so.CachedIds() && id !in Kept(s.rows, so)
    requires RowsAdded(so, q, t, newIds + readd) && StepRequests(cfg, s, so, t)
    ensures StepRows(cfg, s, so, t)
  {
    PhasesRowKeys(s, so, p, q, t, newIds, readd);
    forall k {:trigger so.cached[k]} | 0 <= k < |so.cached| && so.cached[k].id in Kept(s.rows, so)
      ensures var e := so.cached[k];
              t.rows[e.id] == AdvanceRow(cfg, so, e, s.requests[e.id], s.rows[e.id])
    {
      PhasesKeptRow(cfg, s, so, p, q, t, newIds, readd, k);
    }
  }

  // --------------------------------------------------------------- the runner

  class ModelRunner {
    var requests: map<ReqId, ReqState>
    const batch: InputBatch
    const cfg: Config

    constructor (cfg: Config)
      ensures this.cfg == cfg && fresh(batch) && batch.Valid() && batch.Dense()
      ensures Abs() == RunnerState(map[], map[])
    {
      this.cfg := cfg;
      requests := map[];
      batch := new InputBatch();
    }

    ghost function Abs(): RunnerState
      requires batch.Valid()
      reads this, batch
    {
      RunnerState(requests, batch.View())
    }

    /** Removes every id of a set from the batch, in any order. */
    method RemoveAll(ids: set<ReqId>)
      requires batch.Valid()
      modifies batch
      ensures batch.Valid() && batch.View() == old(batch.View()) - ids
    {
      var todo := ids;
      while todo != {}
        invariant batch.Valid() && todo <= ids
        invariant batch.View() == old(batch.View()) - (ids - todo)
        decreases todo
      {
        var id :| id in todo;
        batch.Remove(id);
        todo := todo - {id};
      }
    }

    /** Forgets the states of finished requests. */
    method DropFinished(finished: set<ReqId>)
      modifies this`requests
      ensures requests == old(requests) - finished
    {
      var todo := finished;
      while todo != {}
        invariant todo <= finished
        invariant requests == old(requests) - (finished - todo)
        decreases todo
      {
        var id :| id in todo;
        requests := requests - {id};
        todo := todo - {id};
      }
    }

    /** Keeps only the rows of requests that stay scheduled and are not resumed. */
    method DropUnscheduled(so: SchedulerOutput)
      requires batch.Valid()
      modifies batch
      ensures batch.Valid() && batch.View().Keys == Kept(old(batch.View()), so)
      ensures forall id :: id in batch.View() ==> batch.View()[id] == old(batch.View())[id]
    {
      RemoveAll(so.finished);
      RemoveAll(batch.index.Keys - (so.scheduled - so.resumed));
    }

    /** Creates the states of the new requests. */
    method AddNewStates(so: SchedulerOutput) returns (toAdd: seq<ReqId>)
      requires forall j, k :: 0 <= j < k < |so.news| ==> so.news[j].id != so.news[k].id
      modifies this`requests
      ensures |toAdd| == |so.news| && forall k :: 0 <= k < |so.news| ==> toAdd[k] == so.news[k].id
      ensures requests.Keys == old(requests).Keys + so.NewIds()
      ensures forall k {:trigger so.news[k]} :: 0 <= k < |so.news| ==> requests[so.news[k].id] == InitState(so.news[k])
      ensures forall id :: id in old(requests) && id !in so.NewIds() ==> requests[id] == old(requests)[id]
    {
      toAdd := [];
      for i := 0 to |so.news|
        invariant |toAdd| == i && forall k :: 0 <= k < i ==> toAdd[k] == so.news[k].id
        invariant requests.Keys == old(requests).Keys + set k | 0 <= k < i :: so.news[k].id
        invariant forall k {:trigger so.news[k]} :: 0 <= k < i ==> requests[so.news[k].id] == InitState(so.news[k])
        invariant forall id :: id in old(requests) && id !in so.NewIds() ==> requests[id] == old(requests)[id]
      {
        requests := requests[so.news[i].id := InitState(so.news[i])];
        toAdd := toAdd + [so.news[i].id];
      }
    }

    /** Updates the state of one cached request. */
    method UpdateCachedState(so: SchedulerOutput, e: CachedRequest, inBatch: bool)
      returns (computed: int, truncated: bool)
      requires e.id in requests && EntryOk(cfg, so, e, requests[e.id], inBatch)
      requires inBatch ==> e.id !in so.resumed
      modifies this`requests
      ensures computed == Computed(cfg, so, e, old(requests[e.id]), inBatch)
      ensures truncated == (cfg.isLastRank && e.numOutput < |CorrectedOutput(cfg, so, e, old(requests[e.id]), inBatch)|)
      ensures var st := AdvanceState(cfg, so, e, old(requests[e.id]), inBatch);
              requests == old(requests)[e.id := if inBatch then st else
                            st.(prevDraft := if cfg.useAsync then 0 else old(requests[e.id].prevDraft))]
    {
      var st := requests[e.id];
      computed := e.numComputed;
      if st.prevDraft > 0 && cfg.useAsync {
        if !inBatch {
          st := st.(prevDraft := 0);
        } else {
          var accepted := so.validSampled[e.id] - 1;
          computed := computed - (st.prevDraft - accepted);
          st := st.(output := st.output + Placeholders(accepted));
        }
      }
      st := st.(numComputed := computed);

      truncated := false;
      if !cfg.isLastRank {
        var append := TokensToAppend(|st.Tokens()|, computed, e.newTokens);
        st := st.(output := st.output + append.value);
      } else if e.numOutput < |st.output| {
        st := st.(output := st.output[..e.numOutput]);
        truncated := true;
      }

      if e.id !in so.resumed {
        if e.newBlocks.Some? {
          st := st.(blocks := ExtendBlocks(st.blocks, e.newBlocks.value));
        }
      } else {
        assert !inBatch;
        st := st.(blocks := e.newBlocks.value);
      }

      if inBatch {
        st := st.(prevDraft := so.SpecLen(e.id));
      } else if cfg.useAsync && e.numOutput > 0 {
        st := st.(output := Suffix(so.allTokens[e.id], e.numOutput));
      }
      requests := requests[e.id := st];
    }

    /** Updates the row of a request in the batch in place. */
    method UpdateRow(e: CachedRequest, computed: int, truncated: bool)
      requires batch.Valid() && e.id in batch.index
      requires e.newBlocks.Some? ==> |e.newBlocks.value| == |batch.View()[e.id].blocks|
      requires !cfg.isLastRank ==> computed >= 0
      modifies batch
      ensures batch.Valid()
      ensures batch.View()
              == old(batch.View())[e.id := UpdatedRow(cfg, e, old(batch.View())[e.id], computed, truncated)]
    {
      var i := batch.index[e.id];
      var row := batch.slots[i].row;
      if truncated {
        row := row.(numTokensNoSpec := row.numPrompt + e.numOutput);
      }
      row := row.(numComputed := computed);
      if e.newBlocks.Some? {
        row := row.(blocks := ExtendBlocks(row.blocks, e.newBlocks.value));
      }
      if !cfg.isLastRank {
        row := row.(cells := row.cells + CellsAt(computed, e.newTokens),
                    numTokensNoSpec := computed + |e.newTokens|);
      }
      batch.SetRow(i, row);
    }

    /** Updates one cached request and, when it is in the batch, its row; the
        result says whether its row has to be added to the batch again. */
    method UpdateCached(so: SchedulerOutput, e: CachedRequest) returns (again: bool)
      requires batch.Valid() && CachedReady(cfg, so, e, Abs())
      modifies this`requests, batch
      ensures batch.Valid() && CachedDone(cfg, so, e, old(Abs()), Abs(), again)
      ensures requests.Keys == old(requests).Keys && batch.View().Keys == old(batch.View()).Keys
      ensures forall id :: id != e.id ==> SameAt(id, old(Abs()), Abs())
    {
      ghost var s := Abs();
      again := e.id !in batch.index;
      var computed, truncated := UpdateCachedState(so, e, !again);
      if !again {
        UpdatedIsAdvanced(cfg, so, e, s.requests[e.id], s.rows[e.id]);
        UpdateRow(e, computed, truncated);
      }
      DoneOne(cfg, so, e, s, Abs(), again);
    }

    /** Updates every cached request, in order. */
    method UpdateAllCached(so: SchedulerOutput) returns (readd: seq<ReqId>)
      requires batch.Valid() && CachedPending(cfg, so, Abs())
      modifies this`requests, batch
      ensures batch.Valid() && CachedProgress(cfg, so, old(Abs()), Abs(), readd, |so.cached|)
    {
      readd := [];
      ghost var s := Abs();
      for i := 0 to |so.cached|
        invariant batch.Valid() && CachedProgress(cfg, so, s, Abs(), readd, i)
      {
        ghost var t := Abs();
        ghost var listed := readd;
        var e := so.cached[i];
        CachedNext(cfg, so, s, t, readd, i);
        var again := UpdateCached(so, e);
        if again {
          readd := readd + [e.id];
        }
        CachedProgressStep(cfg, so, s, t, Abs(), listed, readd, i, again);
      }
    }

    /** Adds rows for the listed requests, in order. */
    method AddRows(so: SchedulerOutput, toAdd: seq<ReqId>)
      requires batch.Valid() && Distinct(toAdd)
      requires forall id :: id in toAdd ==> id in requests && id !in batch.View()
      modifies this`requests, batch
      ensures batch.Valid() && RowsAdded(so, old(Abs()), Abs(), toAdd)
    {
      ghost var s := Abs();
      for i := 0 to |toAdd|
        invariant batch.Valid() && RowsAdded(so, s, Abs(), toAdd[..i])
      {
        var id := toAdd[i];
        ghost var t := Abs();
        assert id !in toAdd[..i] && toAdd[..i + 1] == toAdd[..i] + [id];
        batch.Add(id, FreshRow(requests[id]));
        requests := requests[id := requests[id].(prevDraft := so.SpecLen(id))];
        RowsAddedNext(so, s, t, Abs(), toAdd[..i], id);
      }
      assert toAdd[..|toAdd|] == toAdd;
    }

    /** The whole per-step update: finish, unschedule, new, cached, add, condense. */
    method UpdateStates(so: SchedulerOutput)
      requires batch.Valid() && Mirrored(Abs()) && SchedulerContract(cfg, Abs(), so)
      modifies this`requests, batch
      ensures batch.Valid() && batch.Dense() && |batch.slots| == |so.scheduled|
      ensures Step(cfg, old(Abs()), so, Abs())
    {
      ghost var s := Abs();
      DropFinished(so.finished);
      DropUnscheduled(so);
      var newIds := AddNewStates(so);
      ghost var p := Abs();
      assert NewAdded(s, so, p);
      PendingAfterNew(cfg, s, so, p);
      var readd := UpdateAllCached(so);
      ghost var q := Abs();
      ToAddReady(cfg, s, so, p, q, newIds, readd);
      AddRows(so, newIds + readd);
      PhasesUpdateRequests(cfg, s, so, p, q, Abs(), newIds, readd);
      PhasesUpdateRows(cfg, s, so, p, q, Abs(), newIds, readd);
      batch.Condense();
    }

    /** Gives every cached request its new prompt and takes it out of the batch. */
    method RefreshPrompts(so: SchedulerOutput)
      requires batch.Valid() && batch.View().Keys <= so.CachedIds() <= requests.Keys * so.prompts.Keys
      requires forall j, k :: 0 <= j < k < |so.cached| ==> so.cached[j].id != so.cached[k].id
      modifies this`requests, batch
      ensures batch.Valid() && batch.View() == map[]
      ensures requests.Keys == old(requests).Keys
      ensures forall id :: id in requests ==>
                requests[id] == if id in so.CachedIds() then Refreshed(so, id, old(requests)[id]) else old(requests)[id]
    {
      ghost var before := requests;
      for i := 0 to |so.cached|
        invariant batch.Valid() && batch.View().Keys <= so.CachedIds() - FirstIds(so, i)
        invariant PromptsRefreshed(so, before, requests, FirstIds(so, i))
      {
        var id := so.cached[i].id;
        FirstIdsNext(so, i);
        RefreshNext(so, before, requests, FirstIds(so, i), id);
        requests := requests[id := requests[id].(prompt := so.prompts[id])];
        if id in batch.index {
          batch.Remove(id);
        }
      }
      assert FirstIds(so, |so.cached|) == so.CachedIds();
      assert batch.View().Keys == {};
    }

    /** Adds a fresh row for every cached request. */
    method ReaddCached(so: SchedulerOutput)
      requires batch.Valid() && batch.View() == map[] && so.CachedIds() <= requests.Keys
      requires forall j, k :: 0 <= j < k < |so.cached| ==> so.cached[j].id != so.cached[k].id
      modifies batch
      ensures batch.Valid() && batch.View().Keys == so.CachedIds()
      ensures forall id :: id in so.CachedIds() ==> batch.View()[id] == FreshRow(requests[id])
    {
      for i := 0 to |so.cached|
        invariant batch.Valid() && FreshRows(requests, batch.View(), FirstIds(so, i))
      {
        FirstIdsNext(so, i);
        batch.Add(so.cached[i].id, FreshRow(requests[so.cached[i].id]));
      }
      assert FirstIds(so, |so.cached|) == so.CachedIds();
    }

    /** Async-chunk mode, first half: drops the rows of every cached request
        and adds them again with the refreshed prompt. */
    method UpdateRequestStates(so: SchedulerOutput)
      requires batch.Valid() && Mirrored(Abs()) && IdsOk(requests, so) && so.CachedIds() <= so.prompts.Keys
      modifies this`requests, batch
      ensures batch.Valid() && Refresh(old(Abs()), so, Abs())
    {
      DropUnscheduled(so);
      RefreshPrompts(so);
      ReaddCached(so);
    }

    /** What one model step does to the tables; only async-chunk mode refreshes. */
    method PrepareStep(so: SchedulerOutput, asyncChunk: bool)
      requires batch.Valid() && Mirrored(Abs())
      requires asyncChunk ==> AsyncChunkContract(cfg, Abs(), so)
      requires !asyncChunk ==> SchedulerContract(cfg, Abs(), so)
      modifies this`requests, batch
      ensures batch.Valid() && batch.Dense() && |batch.slots| == |so.scheduled|
      ensures !asyncChunk ==> Step(cfg, old(Abs()), so, Abs())
      ensures asyncChunk ==> AsyncChunkStep(cfg, old(Abs()), so, Abs())
    {
      if asyncChunk {
        ghost var s := Abs();
        UpdateRequestStates(so);
        ghost var mid := Abs();
        RefreshKeepsContract(cfg, s, so, mid);
        UpdateStates(so);
        assert Refresh(s, so, mid) && Step(cfg, mid, so, Abs());
      } else {
        UpdateStates(so);
      }
    }
  }

  // -------------------------------------------------------- async-chunk mode

  /** s to t: every cached request has a new prompt and a fresh row, and
      every other row is gone. */
  ghost predicate Refresh(s: RunnerState, so: SchedulerOutput, t: RunnerState) {
    && t.requests.Keys == s.requests.Keys
    && t.rows.Keys == so.CachedIds()
    && so.CachedIds() <= t.requests.Keys * so.prompts.Keys
    && (forall id :: id in so.CachedIds() ==>
          && t.requests[id] == s.requests[id].(prompt := so.prompts[id])
          && t.rows[id] == FreshRow(t.requests[id]))
    && (forall id :: id in t.requests && id !in so.CachedIds() ==> t.requests[id] == s.requests[id])
  }

  /** The rows of exactly these requests, each as it would be added. */
  ghost predicate FreshRows(requests: map<ReqId, ReqState>, rows: map<ReqId, Row>, ids: set<ReqId>) {
    rows.Keys == ids && forall id :: id in rows ==> id in requests && rows[id] == FreshRow(requests[id])
  }

  /** The ids of the first n cached requests. */
  ghost function FirstIds(so: SchedulerOutput, n: nat): (ids: set<ReqId>)
    requires n <= |so.cached|
    ensures ids <= so.CachedIds()
  {
    set k | 0 <= k < n :: so.cached[k].id
  }

  lemma FirstIdsNext(so: SchedulerOutput, i: nat)
    requires i < |so.cached|
    requires forall j, k :: 0 <= j < k < |so.cached| ==> so.cached[j].id != so.cached[k].id
    ensures FirstIds(so, i + 1) == FirstIds(so, i) + {so.cached[i].id}
    ensures so.cached[i].id in so.CachedIds() && so.cached[i].id !in FirstIds(so, i)
  {
  }

  /** The refreshed state of a request whose prompt was replaced. */
  ghost function Refreshed(so: SchedulerOutput, id: ReqId, st: ReqState): ReqState
    requires id in so.prompts
  {
    st.(prompt := so.prompts[id])
  }

  /** The prompts of the given requests have been replaced. */
  ghost predicate PromptsRefreshed(so: SchedulerOutput, before: map<ReqId, ReqState>, now: map<ReqId, ReqState>,
                                   ids: set<ReqId>)
    requires ids <= so.prompts.Keys
  {
    && now.Keys == before.Keys
    && forall id :: id in now ==> now[id] == if id in ids then Refreshed(so, id, before[id]) else before[id]
  }

  lemma RefreshNext(so: SchedulerOutput, before: map<ReqId, ReqState>, now: map<ReqId, ReqState>,
                    ids: set<ReqId>, id: ReqId)
    requires ids <= so.prompts.Keys && PromptsRefreshed(so, before, now, ids) && id in so.prompts && id in now
    ensures PromptsRefreshed(so, before, now[id := now[id].(prompt := so.prompts[id])], ids + {id})
  {
  }

  /** The contract of a whole async-chunk step: after the refresh every cached
      request is in the batch unless it is resumed. */
  ghost predicate AsyncChunkContract(cfg: Config, s: RunnerState, so: SchedulerOutput) {
    && IdsOk(s.requests, so)
    && so.CachedIds() <= so.prompts.Keys
    && forall k {:trigger so.cached[k]} :: 0 <= k < |so.cached| ==>
         var e := so.cached[k];
         && e.id in s.requests && e.id in so.prompts
         && EntryOk(cfg, so, e, Refreshed(so, e.id, s.requests[e.id]), e.id !in so.resumed)
  }

  ghost predicate AsyncChunkStep(cfg: Config, s: RunnerState, so: SchedulerOutput, t: RunnerState) {
    exists mid :: Refresh(s, so, mid) && Step(cfg, mid, so, t)
  }

  lemma RefreshKeepsContract(cfg: Config, s: RunnerState, so: SchedulerOutput, mid: RunnerState)
    requires Refresh(s, so, mid) && AsyncChunkContract(cfg, s, so)
    ensures Mirrored(mid) && SchedulerContract(cfg, mid, so)
    ensures Kept(mid.rows, so) == so.CachedIds() - so.resumed
  {
    forall k {:trigger so.cached[k]} | 0 <= k < |so.cached|
      ensures so.cached[k].id in Kept(mid.rows, so) <==> so.cached[k].id !in so.resumed
    {
      assert so.cached[k].id in so.CachedIds();
    }
  }
}
