/** What every step, and every run of steps, keeps of the persistent batch. */
module BatchProperties {
  import opened Common
  import opened InputBatches
  import opened ModelRunners

  // ------------------------------------------------ the batch is a cache

  /** What attention reads of a row. */
  datatype Cached = Cached(blocks: BlockTable, numComputed: int, numPrompt: nat)

  /** The batch as it would be rebuilt from the request states alone. */
  ghost function Rebuild(requests: map<ReqId, ReqState>, ids: set<ReqId>): map<ReqId, Cached>
    requires ids <= requests.Keys
  {
    map id | id in ids :: Cached(requests[id].blocks, requests[id].numComputed, |requests[id].prompt|)
  }

  ghost function Contents(rows: map<ReqId, Row>): map<ReqId, Cached> {
    map id | id in rows :: Cached(rows[id].blocks, rows[id].numComputed, rows[id].numPrompt)
  }

  lemma EntryOf(so: SchedulerOutput, id: ReqId) returns (k: nat)
    requires id in so.CachedIds()
    ensures k < |so.cached| && so.cached[k].id == id
  {
    k :| 0 <= k < |so.cached| && so.cached[k].id == id;
  }

  lemma NewEntryOf(so: SchedulerOutput, id: ReqId) returns (k: nat)
    requires id in so.NewIds()
    ensures k < |so.news| && so.news[k].id == id
  {
    k :| 0 <= k < |so.news| && so.news[k].id == id;
  }

  lemma ScheduledMirrored(cfg: Config, s: RunnerState, so: SchedulerOutput, t: RunnerState, id: ReqId)
    requires Step(cfg, s, so, t) && id in so.scheduled
    ensures id in t.requests && id in t.rows
    ensures t.rows[id].blocks == t.requests[id].blocks
    ensures t.rows[id].numComputed == t.requests[id].numComputed
    ensures t.rows[id].numPrompt == |t.requests[id].prompt|
  {
    if id in Kept(s.rows, so) {
      assert id !in so.NewIds();
      var k := EntryOf(so, id);
      assert so.cached[k].id in Kept(s.rows, so);
    }
  }

  lemma AllMirrored(cfg: Config, s: RunnerState, so: SchedulerOutput, t: RunnerState)
    requires Step(cfg, s, so, t)
    ensures Mirrored(t) && t.rows.Keys == so.scheduled
  {
    forall id | id in so.scheduled
      ensures id in t.requests
      ensures t.rows[id].blocks == t.requests[id].blocks
      ensures t.rows[id].numComputed == t.requests[id].numComputed
      ensures t.rows[id].numPrompt == |t.requests[id].prompt|
    {
      ScheduledMirrored(cfg, s, so, t, id);
    }
  }

  lemma MirroredIsRebuild(t: RunnerState)
    requires Mirrored(t)
    ensures Contents(t.rows) == Rebuild(t.requests, t.rows.Keys)
  {
  }

  /** After one step the batch holds exactly the scheduled ids and equals the
      rebuild from the request states; block ids are appended once. */
  lemma StepRebuilds(cfg: Config, s: RunnerState, so: SchedulerOutput, t: RunnerState)
    requires Step(cfg, s, so, t)
    ensures Mirrored(t) && so.scheduled <= t.requests.Keys
    ensures t.rows.Keys == so.scheduled
    ensures Contents(t.rows) == Rebuild(t.requests, so.scheduled)
    ensures forall k {:trigger so.cached[k]} :: 0 <= k < |so.cached| ==>
              var e := so.cached[k];
              t.rows[e.id].blocks == NewBlocks(so, e, s.requests[e.id].blocks)
  {
    AllMirrored(cfg, s, so, t);
    MirroredIsRebuild(t);
    forall k {:trigger so.cached[k]} | 0 <= k < |so.cached|
      ensures t.rows[so.cached[k].id].blocks == NewBlocks(so, so.cached[k], s.requests[so.cached[k].id].blocks)
    {
      BlocksExtended(cfg, s, so, t, k);
    }
  }

  lemma BlocksExtended(cfg: Config, s: RunnerState, so: SchedulerOutput, t: RunnerState, k: nat)
    requires Step(cfg, s, so, t) && k < |so.cached|
    ensures var e := so.cached[k];
            e.id in t.rows && t.rows[e.id].blocks == NewBlocks(so, e, s.requests[e.id].blocks)
  {
    assert so.cached[k].id in so.CachedIds() && so.cached[k].id in so.scheduled;
    ScheduledMirrored(cfg, s, so, t, so.cached[k].id);
  }

  /** The async-chunk step, which removes every cached row and adds it again
      before the ordinary update, ends with the same guarantee: no request is
      lost, each block id is appended once, and the prompts are the new ones. */
  lemma AsyncChunkRebuilds(cfg: Config, s: RunnerState, so: SchedulerOutput, t: RunnerState)
    requires AsyncChunkContract(cfg, s, so) && AsyncChunkStep(cfg, s, so, t)
    ensures Mirrored(t) && so.scheduled <= t.requests.Keys
    ensures t.rows.Keys == so.scheduled
    ensures t.requests.Keys == (s.requests.Keys - so.finished) + so.NewIds()
    ensures Contents(t.rows) == Rebuild(t.requests, so.scheduled)
    ensures forall k {:trigger so.cached[k]} :: 0 <= k < |so.cached| ==>
              var e := so.cached[k];
              && t.rows[e.id].blocks == NewBlocks(so, e, s.requests[e.id].blocks)
              && t.requests[e.id].prompt == so.prompts[e.id]
  {
    var mid :| Refresh(s, so, mid) && Step(cfg, mid, so, t);
    StepRebuilds(cfg, mid, so, t);
    forall k {:trigger so.cached[k]} | 0 <= k < |so.cached|
      ensures var e := so.cached[k];
              && t.rows[e.id].blocks == NewBlocks(so, e, s.requests[e.id].blocks)
              && t.requests[e.id].prompt == so.prompts[e.id]
    {
      assert so.cached[k].id in so.CachedIds();
    }
  }

  /** Both ways of taking the step correct the computed count of the request
      alike: it has a row on both, on neither, or nothing is corrected. */
  predicate CorrectsAlike(cfg: Config, so: SchedulerOutput, e: CachedRequest, st: ReqState, inBatch: bool) {
    || inBatch || e.id in so.resumed
    || !cfg.useAsync || st.prevDraft == 0
    || (e.id in so.validSampled && so.validSampled[e.id] - 1 == st.prevDraft)
  }

  /** Going through the batch leaves the same rows with the same block tables,
      and the same states of unscheduled requests. The computed counts agree if
      and only if no request outside the batch has rejected drafts pending. */
  lemma AsyncChunkAgreesWithPlain(cfg: Config, s: RunnerState, so: SchedulerOutput, t: RunnerState, plain: RunnerState)
    requires AsyncChunkContract(cfg, s, so) && AsyncChunkStep(cfg, s, so, t) && Step(cfg, s, so, plain)
    ensures t.rows.Keys == plain.rows.Keys && t.requests.Keys == plain.requests.Keys
    ensures forall id :: id in t.rows ==> t.rows[id].blocks == plain.rows[id].blocks
    ensures forall id :: id in t.requests && id !in so.scheduled ==> t.requests[id] == plain.requests[id]
    ensures (forall id :: id in t.rows ==> t.rows[id].numComputed == plain.rows[id].numComputed)
            <==> forall k {:trigger so.cached[k]} :: 0 <= k < |so.cached| ==>
                   var e := so.cached[k];
                   CorrectsAlike(cfg, so, e, s.requests[e.id], e.id in Kept(s.rows, so))
  {
    var mid :| Refresh(s, so, mid) && Step(cfg, mid, so, t);
    RefreshKeepsContract(cfg, s, so, mid);
    forall id | id in so.scheduled && id !in so.CachedIds()
      ensures t.rows[id].blocks == plain.rows[id].blocks && t.rows[id].numComputed == plain.rows[id].numComputed
    {
      var k := NewEntryOf(so, id);
      NewOutcome(cfg, mid, so, t, k);
      NewOutcome(cfg, s, so, plain, k);
    }
    forall k {:trigger so.cached[k]} | 0 <= k < |so.cached|
      ensures var e := so.cached[k];
              && e.id in t.rows && t.rows[e.id].blocks == plain.rows[e.id].blocks
              && (t.rows[e.id].numComputed == plain.rows[e.id].numComputed <==>
                  CorrectsAlike(cfg, so, e, s.requests[e.id], e.id in Kept(s.rows, so)))
    {
      CachedAgrees(cfg, s, so, mid, t, plain, k);
    }
    forall id | id in so.CachedIds()
      ensures exists k {:trigger so.cached[k]} :: 0 <= k < |so.cached| && so.cached[k].id == id
    {
      var k := EntryOf(so, id);
    }
  }

  lemma ComputedAlike(cfg: Config, so: SchedulerOutput, e: CachedRequest, st: ReqState, renewed: ReqState,
                      before: bool, after: bool)
    requires renewed.prevDraft == st.prevDraft && after == (e.id !in so.resumed) && (before ==> after)
    requires Corrects(cfg, st, after) ==> e.id in so.validSampled
    ensures Computed(cfg, so, e, renewed, after) == Computed(cfg, so, e, st, before)
            <==> CorrectsAlike(cfg, so, e, st, before)
  {
  }

  lemma CachedAgrees(cfg: Config, s: RunnerState, so: SchedulerOutput, mid: RunnerState, t: RunnerState,
                     plain: RunnerState, k: nat)
    requires AsyncChunkContract(cfg, s, so) && Refresh(s, so, mid) && Step(cfg, mid, so, t) && Step(cfg, s, so, plain)
    requires Kept(mid.rows, so) == so.CachedIds() - so.resumed && k < |so.cached|
    ensures var e := so.cached[k];
            && e.id in t.rows && e.id in plain.rows
            && t.rows[e.id].blocks == plain.rows[e.id].blocks
            && (t.rows[e.id].numComputed == plain.rows[e.id].numComputed <==>
                CorrectsAlike(cfg, so, e, s.requests[e.id], e.id in Kept(s.rows, so)))
  {
    var e := so.cached[k];
    assert e.id in so.CachedIds();
    CachedOutcome(cfg, mid, so, t, k);
    CachedOutcome(cfg, s, so, plain, k);
    ComputedAlike(cfg, so, e, s.requests[e.id], mid.requests[e.id], e.id in Kept(s.rows, so), e.id !in so.resumed);
  }

  lemma CachedOutcome(cfg: Config, s: RunnerState, so: SchedulerOutput, t: RunnerState, k: nat)
    requires Step(cfg, s, so, t) && k < |so.cached|
    ensures var e := so.cached[k];
            && e.id in t.rows
            && t.rows[e.id].blocks == NewBlocks(so, e, s.requests[e.id].blocks)
            && t.rows[e.id].numComputed == Computed(cfg, so, e, s.requests[e.id], e.id in Kept(s.rows, so))
  {
    assert so.cached[k].id in so.CachedIds();
    ScheduledMirrored(cfg, s, so, t, so.cached[k].id);
  }

  /** A new request's state is what was sent for it, with nothing put out yet. */
  lemma NewOutcome(cfg: Config, s: RunnerState, so: SchedulerOutput, t: RunnerState, k: nat)
    requires Step(cfg, s, so, t) && k < |so.news|
    ensures var n := so.news[k];
            && n.id in t.requests
            && t.requests[n.id] == ReqState(n.prompt, [], n.blocks, n.numComputed, so.SpecLen(n.id))
            && n.id in t.rows && t.rows[n.id].blocks == n.blocks && t.rows[n.id].numComputed == n.numComputed
  {
    assert so.news[k].id in so.NewIds();
    assert so.news[k].id !in Kept(s.rows, so);
  }

  // ------------------------------------------------------------ whole runs

  /** What can happen to the runner's tables: a scheduled step, plain or in
      async-chunk mode, or the sampler appending tokens to live rows. */
  datatype Event =
    | Scheduled(so: SchedulerOutput)
    | AsyncChunk(so: SchedulerOutput)
    | Sampled(tokens: map<ReqId, seq<Token>>)

  /** The sampler writes its tokens to both tables, behind the known ones. */
  ghost predicate Sample(s: RunnerState, tokens: map<ReqId, seq<Token>>, t: RunnerState) {
    && tokens.Keys <= s.rows.Keys * s.requests.Keys
    && t.requests.Keys == s.requests.Keys && t.rows.Keys == s.rows.Keys
    && (forall id :: id in s.requests ==>
          t.requests[id] == if id in tokens then Extended(s.requests[id], tokens[id]) else s.requests[id])
    && (forall id :: id in s.rows ==>
          t.rows[id] == if id in tokens then ExtendedRow(s.rows[id], tokens[id]) else s.rows[id])
  }

  function Extended(st: ReqState, more: seq<Token>): ReqState {
    st.(output := st.output + more)
  }

  function ExtendedRow(row: Row, more: seq<Token>): Row {
    row.(numTokensNoSpec := row.numTokensNoSpec + |more|, cells := row.cells + CellsAt(row.numTokensNoSpec, more))
  }

  ghost predicate Happens(cfg: Config, s: RunnerState, ev: Event, t: RunnerState) {
    match ev
    case Scheduled(so) => Step(cfg, s, so, t)
    case AsyncChunk(so) => AsyncChunkContract(cfg, s, so) && AsyncChunkStep(cfg, s, so, t)
    case Sampled(tokens) => Sample(s, tokens, t)
  }

  /** A run: one state more than events, starting empty. */
  ghost predicate IsRun(cfg: Config, events: seq<Event>, states: seq<RunnerState>) {
    && |states| == |events| + 1
    && states[0] == RunnerState(map[], map[])
    && forall i :: 0 <= i < |events| ==> Happens(cfg, states[i], events[i], states[i + 1])
  }

  /** The ids of the last scheduled step of a run. */
  ghost function LastScheduled(events: seq<Event>): set<ReqId> {
    if events == [] then {}
    else match events[|events| - 1]
      case Scheduled(so) => so.scheduled
      case AsyncChunk(so) => so.scheduled
      case Sampled(_) => LastScheduled(events[..|events| - 1])
  }

  /** The batch is the rebuild from the request states. */
  ghost predicate Rebuilt(t: RunnerState) {
    Mirrored(t) && Contents(t.rows) == Rebuild(t.requests, t.rows.Keys)
  }

  lemma HappensRebuilds(cfg: Config, s: RunnerState, ev: Event, t: RunnerState)
    requires Happens(cfg, s, ev, t) && Rebuilt(s)
    ensures Rebuilt(t)
    ensures t.rows.Keys == match ev
                           case Scheduled(so) => so.scheduled
                           case AsyncChunk(so) => so.scheduled
                           case Sampled(_) => s.rows.Keys
  {
    match ev
    case Scheduled(so) => StepRebuilds(cfg, s, so, t);
    case AsyncChunk(so) => AsyncChunkRebuilds(cfg, s, so, t);
    case Sampled(_) =>
  }

  /** At every moment of every run the batch holds exactly the ids of the last
      step and equals the rebuild from the request states. */
  lemma {:induction false} RunRebuilds(cfg: Config, events: seq<Event>, states: seq<RunnerState>)
    requires IsRun(cfg, events, states)
    ensures Rebuilt(states[|events|]) && states[|events|].rows.Keys == LastScheduled(events)
  {
    if events != [] {
      var n := |events| - 1;
      RunRebuilds(cfg, events[..n], states[..n + 1]);
      assert states[..n + 1][n] == states[n];
      assert Happens(cfg, states[n], events[n], states[n + 1]);
      HappensRebuilds(cfg, states[n], events[n], states[n + 1]);
    }
  }

  // ---------------------------------------------------------- block lists

  /** The lists of one request grow from `before` to `after` by what is sent:
      group by group behind the old ids, anew after a resumption, or not at all. */
  ghost predicate ListsFollow(so: SchedulerOutput, e: CachedRequest, before: BlockTable, after: BlockTable) {
    if e.id in so.resumed then e.newBlocks.Some? && after == e.newBlocks.value
    else if e.newBlocks.None? then after == before
    else
      && |after| == |before| == |e.newBlocks.value|
      && forall g :: 0 <= g < |before| ==> after[g] == before[g] + e.newBlocks.value[g]
  }

  lemma AdvancedLists(cfg: Config, so: SchedulerOutput, e: CachedRequest, st: ReqState, inBatch: bool)
    requires EntryOk(cfg, so, e, st, inBatch)
    ensures ListsFollow(so, e, st.blocks, AdvanceState(cfg, so, e, st, inBatch).blocks)
  {
  }

  /** One step gives every request its lists, and its row the same: a cached one
      what was sent behind what it had, a new one what was sent. */
  lemma StepListsFollow(cfg: Config, s: RunnerState, so: SchedulerOutput, t: RunnerState)
    requires Step(cfg, s, so, t)
    ensures forall k {:trigger so.cached[k]} :: 0 <= k < |so.cached| ==>
              var e := so.cached[k];
              && e.id in t.requests && e.id in t.rows
              && ListsFollow(so, e, s.requests[e.id].blocks, t.requests[e.id].blocks)
              && t.rows[e.id].blocks == t.requests[e.id].blocks
    ensures forall k {:trigger so.news[k]} :: 0 <= k < |so.news| ==>
              var n := so.news[k];
              n.id in t.requests && n.id in t.rows && t.rows[n.id].blocks == t.requests[n.id].blocks == n.blocks
  {
    forall k {:trigger so.cached[k]} | 0 <= k < |so.cached|
      ensures var e := so.cached[k];
              && e.id in t.requests && e.id in t.rows
              && ListsFollow(so, e, s.requests[e.id].blocks, t.requests[e.id].blocks)
              && t.rows[e.id].blocks == t.requests[e.id].blocks
    {
      CachedListsFollow(cfg, s, so, t, k);
    }
    forall k {:trigger so.news[k]} | 0 <= k < |so.news|
      ensures var n := so.news[k];
              n.id in t.requests && n.id in t.rows && t.rows[n.id].blocks == t.requests[n.id].blocks == n.blocks
    {
      assert so.news[k].id in so.NewIds();
      ScheduledMirrored(cfg, s, so, t, so.news[k].id);
    }
  }

  lemma CachedListsFollow(cfg: Config, s: RunnerState, so: SchedulerOutput, t: RunnerState, k: nat)
    requires Step(cfg, s, so, t) && k < |so.cached|
    ensures var e := so.cached[k];
            && e.id in s.requests && e.id in t.requests && e.id in t.rows
            && ListsFollow(so, e, s.requests[e.id].blocks, t.requests[e.id].blocks)
            && t.rows[e.id].blocks == t.requests[e.id].blocks
  {
    var e := so.cached[k];
    assert e.id in so.CachedIds();
    AdvancedLists(cfg, so, e, s.requests[e.id], e.id in Kept(s.rows, so));
    ScheduledMirrored(cfg, s, so, t, e.id);
  }

  /** The scheduler output of an event, if it has one. */
  function OutputOf(ev: Event): Option<SchedulerOutput> {
    match ev
    case Scheduled(so) => Some(so)
    case AsyncChunk(so) => Some(so)
    case Sampled(_) => None
  }

  /** What an output sends as the new request with an id, and as the cached one. */
  ghost function NewFor(so: SchedulerOutput, id: ReqId): (r: Option<NewRequest>)
    ensures r.Some? ==> r.value in so.news && r.value.id == id
    ensures r.None? ==> id !in so.NewIds()
  {
    if n :| n in so.news && n.id == id then Some(n)
    else
      assert forall k :: 0 <= k < |so.news| ==> so.news[k] in so.news;
      None
  }

  ghost function CachedFor(so: SchedulerOutput, id: ReqId): (r: Option<CachedRequest>)
    ensures r.Some? ==> r.value in so.cached && r.value.id == id
    ensures r.None? ==> id !in so.CachedIds()
  {
    if e :| e in so.cached && e.id == id then Some(e)
    else
      assert forall k :: 0 <= k < |so.cached| ==> so.cached[k] in so.cached;
      None
  }

  function GroupOf(table: BlockTable, g: nat): seq<BlockId> {
    if g < |table| then table[g] else []
  }

  /** What an output adds to the ids sent before for a group of one request. */
  ghost function SentNext(so: SchedulerOutput, id: ReqId, g: nat, before: seq<BlockId>): seq<BlockId> {
    match (NewFor(so, id), CachedFor(so, id))
    case (Some(n), _) => GroupOf(n.blocks, g)
    case (None, Some(e)) =>
      if e.newBlocks.None? then before
      else if id in so.resumed then GroupOf(e.newBlocks.value, g)
      else before + GroupOf(e.newBlocks.value, g)
    case (None, None) => before
  }

  /** Everything sent for a group of one request, in order: its initial ids and
      those appended since, or since it was last resumed, those of the
      resumption and after. */
  ghost function SentSince(events: seq<Event>, id: ReqId, g: nat): seq<BlockId> {
    if events == [] then []
    else
      var before := SentSince(events[..|events| - 1], id, g);
      match OutputOf(events[|events| - 1])
      case None => before
      case Some(so) => SentNext(so, id, g, before)
  }

  /** The lists of all requests are what was sent for them. */
  ghost predicate ListsSent(events: seq<Event>, t: RunnerState) {
    forall id, g: nat :: id in t.requests && g < |t.requests[id].blocks| ==>
      t.requests[id].blocks[g] == SentSince(events, id, g)
  }

  lemma CachedSent(so: SchedulerOutput, k: nat, before: BlockTable, after: BlockTable, g: nat, sent: seq<BlockId>)
    requires k < |so.cached| && g < |after| && so.cached[k].id !in so.NewIds()
    requires forall i, j :: 0 <= i < j < |so.cached| ==> so.cached[i].id != so.cached[j].id
    requires ListsFollow(so, so.cached[k], before, after)
    requires g < |before| ==> before[g] == sent
    ensures after[g] == SentNext(so, so.cached[k].id, g, sent)
  {
    var e := so.cached[k];
    assert e.id in so.CachedIds();
    assert NewFor(so, e.id).None? by { NewForNone(so, e.id); }
    CachedForIs(so, k);
  }

  lemma NewForNone(so: SchedulerOutput, id: ReqId)
    requires id !in so.NewIds()
    ensures NewFor(so, id).None?
  {
    assert forall n :: n in so.news ==> exists k :: 0 <= k < |so.news| && so.news[k] == n;
    assert forall k :: 0 <= k < |so.news| ==> so.news[k].id in so.NewIds();
  }

  lemma CachedForNone(so: SchedulerOutput, id: ReqId)
    requires id !in so.CachedIds()
    ensures CachedFor(so, id).None?
  {
    assert forall e :: e in so.cached ==> exists k :: 0 <= k < |so.cached| && so.cached[k] == e;
    assert forall k :: 0 <= k < |so.cached| ==> so.cached[k].id in so.CachedIds();
  }

  lemma CachedForIs(so: SchedulerOutput, k: nat)
    requires k < |so.cached|
    requires forall i, j :: 0 <= i < j < |so.cached| ==> so.cached[i].id != so.cached[j].id
    ensures CachedFor(so, so.cached[k].id) == Some(so.cached[k])
  {
    assert so.cached[k].id in so.CachedIds();
    var e := CachedFor(so, so.cached[k].id).value;
    var j :| 0 <= j < |so.cached| && so.cached[j] == e;
  }

  lemma NewForIs(so: SchedulerOutput, k: nat)
    requires k < |so.news|
    requires forall i, j :: 0 <= i < j < |so.news| ==> so.news[i].id != so.news[j].id
    ensures NewFor(so, so.news[k].id) == Some(so.news[k])
  {
    assert so.news[k].id in so.NewIds();
    var n := NewFor(so, so.news[k].id).value;
    var j :| 0 <= j < |so.news| && so.news[j] == n;
  }

  lemma ListSent(cfg: Config, events: seq<Event>, s: RunnerState, so: SchedulerOutput, t: RunnerState,
                 id: ReqId, g: nat)
    requires Step(cfg, s, so, t) && ListsSent(events, s)
    requires id in t.requests && g < |t.requests[id].blocks|
    ensures t.requests[id].blocks[g] == SentNext(so, id, g, SentSince(events, id, g))
  {
    if id in so.CachedIds() {
      var k := EntryOf(so, id);
      CachedListsFollow(cfg, s, so, t, k);
      CachedSent(so, k, s.requests[id].blocks, t.requests[id].blocks, g, SentSince(events, id, g));
    } else if id in so.NewIds() {
      var k := NewEntryOf(so, id);
      NewOutcome(cfg, s, so, t, k);
      NewForIs(so, k);
    } else {
      NewForNone(so, id);
      CachedForNone(so, id);
    }
  }

  lemma StepListsSent(cfg: Config, events: seq<Event>, s: RunnerState, so: SchedulerOutput, t: RunnerState)
    requires events != [] && OutputOf(events[|events| - 1]) == Some(so)
    requires Step(cfg, s, so, t) && ListsSent(events[..|events| - 1], s)
    ensures ListsSent(events, t)
  {
    forall id, g: nat | id in t.requests && g < |t.requests[id].blocks|
      ensures t.requests[id].blocks[g] == SentSince(events, id, g)
    {
      ListSent(cfg, events[..|events| - 1], s, so, t, id, g);
    }
  }

  /** Over every run a request's block lists are its initial ones followed by
      everything sent since, in order and once, and so are its row's. */
  lemma {:induction false} RunListsSent(cfg: Config, events: seq<Event>, states: seq<RunnerState>)
    requires IsRun(cfg, events, states)
    ensures var t := states[|events|];
            && ListsSent(events, t)
            && forall id :: id in t.rows ==> id in t.requests && t.rows[id].blocks == t.requests[id].blocks
  {
    RunRebuilds(cfg, events, states);
    if events != [] {
      var n := |events| - 1;
      RunListsSent(cfg, events[..n], states[..n + 1]);
      assert states[..n + 1][n] == states[n];
      assert Happens(cfg, states[n], events[n], states[n + 1]);
      match events[n]
      case Scheduled(so) => StepListsSent(cfg, events, states[n], so, states[n + 1]);
      case AsyncChunk(so) =>
        var mid :| Refresh(states[n], so, mid) && Step(cfg, mid, so, states[n + 1]);
        assert ListsSent(events[..n], mid);
        StepListsSent(cfg, events, mid, so, states[n + 1]);
      case Sampled(_) =>
    }
  }

  // -------------------------------------------------------- token streams

  ghost predicate IsPrefix(a: seq<Token>, b: seq<Token>) {
    |a| <= |b| && forall i :: 0 <= i < |a| ==> a[i] == b[i]
  }

  /** The token cells of a row hold the request's tokens. */
  ghost predicate RowHolds(row: Row, tokens: seq<Token>) {
    && row.numTokensNoSpec <= |tokens|
    && forall i: nat :: i < |tokens| ==> i in row.cells && row.cells[i] == tokens[i]
  }

  /** Every request's known tokens are a prefix of its true stream, and its row
      holds them. */
  ghost predicate StreamInv(streams: map<ReqId, seq<Token>>, s: RunnerState) {
    && s.requests.Keys <= streams.Keys
    && (forall id :: id in s.requests ==> IsPrefix(s.requests[id].Tokens(), streams[id]))
    && (forall id :: id in s.rows && id in s.requests ==> RowHolds(s.rows[id], s.requests[id].Tokens()))
  }

  /** A cached request outside the batch whose output is recovered from all its
      tokens, which async scheduling does. */
  predicate Recovers(cfg: Config, e: CachedRequest, inBatch: bool) {
    !inBatch && cfg.useAsync && e.numOutput > 0
  }

  /** No placeholder for an accepted draft enters the request's output. */
  predicate NoPlaceholder(cfg: Config, so: SchedulerOutput, e: CachedRequest, st: ReqState, inBatch: bool)
    requires Corrects(cfg, st, inBatch) ==> e.id in so.validSampled
  {
    Corrects(cfg, st, inBatch) ==> so.validSampled[e.id] <= 1
  }

  /** What is sent of one cached request: all its tokens up to the scheduled
      output, or a slice of its stream that starts at the computed count and no
      later than the first unknown token. */
  ghost predicate SendsStream(cfg: Config, so: SchedulerOutput, e: CachedRequest, st: ReqState, inBatch: bool,
                              stream: seq<Token>)
    requires EntryOk(cfg, so, e, st, inBatch)
  {
    if Recovers(cfg, e, inBatch) then
      IsPrefix(so.allTokens[e.id], stream) && |so.allTokens[e.id]| == |st.prompt| + e.numOutput
    else
      && NoPlaceholder(cfg, so, e, st, inBatch)
      && IsSlice(e.newTokens, Computed(cfg, so, e, st, inBatch), stream)
      && Computed(cfg, so, e, st, inBatch) <= |st.Tokens()|
  }

  /** The scheduler sends true streams only. */
  ghost predicate SendsStreams(cfg: Config, streams: map<ReqId, seq<Token>>, s: RunnerState, so: SchedulerOutput)
    requires SchedulerContract(cfg, s, so)
  {
    && (forall k {:trigger so.news[k]} :: 0 <= k < |so.news| ==>
          so.news[k].id in streams && IsPrefix(so.news[k].prompt, streams[so.news[k].id]))
    && (forall k {:trigger so.cached[k]} :: 0 <= k < |so.cached| ==>
          var e := so.cached[k];
          e.id in streams && SendsStream(cfg, so, e, s.requests[e.id], e.id in Kept(s.rows, so), streams[e.id]))
  }

  ghost predicate IsSlice(part: seq<Token>, start: int, whole: seq<Token>) {
    && 0 <= start && start + |part| <= |whole|
    && forall i :: 0 <= i < |part| ==> part[i] == whole[start + i]
  }

  /** The appended tokens are the part of the slice beyond the known ones. */
  lemma AppendedSlice(known: nat, computed: nat, newTokens: seq<Token>, stream: seq<Token>)
    requires computed <= known <= |stream| && IsSlice(newTokens, computed, stream)
    ensures TokensToAppend(known, computed, newTokens)
            == Some(stream[known..Max(known, computed + |newTokens|)])
  {
    var end := computed + |newTokens|;
    assert newTokens == stream[computed..end];
    if end > known {
      var rest := stream[known..end];
      assert Suffix(newTokens, end - known) == rest;
      if end - known == 1 {
        assert [newTokens[|newTokens| - 1]] == rest;
      }
    } else {
      assert stream[known..known] == [];
    }
  }

  /** The tokens of a request after a resend, when no placeholder is added. */
  lemma ResentTokens(cfg: Config, so: SchedulerOutput, e: CachedRequest, st: ReqState, inBatch: bool)
    requires !cfg.isLastRank && EntryOk(cfg, so, e, st, inBatch)
    requires !Recovers(cfg, e, inBatch) && NoPlaceholder(cfg, so, e, st, inBatch)
    ensures var append := TokensToAppend(|st.Tokens()|, Computed(cfg, so, e, st, inBatch), e.newTokens);
            append.Some? && AdvanceState(cfg, so, e, st, inBatch).Tokens() == st.Tokens() + append.value
  {
    assert CorrectedOutput(cfg, so, e, st, inBatch) == st.output;
  }

  /** The tokens of a recovered request are those up to its scheduled output. */
  lemma RecoveredTokens(cfg: Config, so: SchedulerOutput, e: CachedRequest, st: ReqState, stream: seq<Token>)
    requires EntryOk(cfg, so, e, st, false) && Recovers(cfg, e, false)
    requires SendsStream(cfg, so, e, st, false, stream) && IsPrefix(st.prompt, stream)
    ensures AdvanceState(cfg, so, e, st, false).Tokens() == stream[..|st.prompt| + e.numOutput]
  {
    var all := so.allTokens[e.id];
    assert all == stream[..|all|];
    assert Suffix(all, e.numOutput) == stream[|st.prompt|..|all|];
    assert st.prompt == stream[..|st.prompt|];
  }

  lemma UnknownPart(tokens: seq<Token>, computed: nat, newTokens: seq<Token>, stream: seq<Token>)
    requires IsPrefix(tokens, stream) && computed <= |tokens| && IsSlice(newTokens, computed, stream)
    ensures TokensToAppend(|tokens|, computed, newTokens).Some?
    ensures tokens + TokensToAppend(|tokens|, computed, newTokens).value
            == stream[..Max(|tokens|, computed + |newTokens|)]
  {
    AppendedSlice(|tokens|, computed, newTokens, stream);
    assert tokens == stream[..|tokens|];
  }

  /** On a rank that does not sample, a request learns exactly the tokens beyond
      those it knew. */
  lemma AppendsUnknown(cfg: Config, so: SchedulerOutput, e: CachedRequest, st: ReqState, inBatch: bool,
                       stream: seq<Token>)
    requires !cfg.isLastRank && EntryOk(cfg, so, e, st, inBatch)
    requires !Recovers(cfg, e, inBatch) && SendsStream(cfg, so, e, st, inBatch, stream)
    requires IsPrefix(st.Tokens(), stream)
    ensures AdvanceState(cfg, so, e, st, inBatch).Tokens()
            == stream[..Max(|st.Tokens()|, Computed(cfg, so, e, st, inBatch) + |e.newTokens|)]
  {
    UnknownPart(st.Tokens(), Computed(cfg, so, e, st, inBatch), e.newTokens, stream);
    ResentTokens(cfg, so, e, st, inBatch);
  }

  lemma OverwrittenCells(row: Row, known: nat, start: nat, part: seq<Token>, stream: seq<Token>, cells: map<nat, Token>)
    requires start <= known <= |stream| && IsSlice(part, start, stream)
    requires RowHolds(row, stream[..known]) && cells == row.cells + CellsAt(start, part)
    ensures forall i: nat :: i < Max(known, start + |part|) ==> i in cells && cells[i] == stream[i]
  {
    forall i: nat | i < Max(known, start + |part|) ensures i in cells && cells[i] == stream[i] {
      if start <= i < start + |part| {
        assert i in CellsAt(start, part) && part[i - start] == stream[start + (i - start)];
      } else {
        assert stream[..known][i] == stream[i];
      }
    }
  }

  /** What the in-place update writes on a rank that does not sample. */
  lemma AdvancedCells(cfg: Config, so: SchedulerOutput, e: CachedRequest, st: ReqState, row: Row)
    requires !cfg.isLastRank && EntryOk(cfg, so, e, st, true)
    requires e.newBlocks.Some? ==> |e.newBlocks.value| == |row.blocks|
    ensures var computed, after := Computed(cfg, so, e, st, true), AdvanceRow(cfg, so, e, st, row);
            && after.cells == row.cells + CellsAt(computed, e.newTokens)
            && after.numTokensNoSpec == computed + |e.newTokens|
  {
  }

  lemma KeptRowHolds(cfg: Config, so: SchedulerOutput, e: CachedRequest, st: ReqState, row: Row, stream: seq<Token>)
    requires !cfg.isLastRank && EntryOk(cfg, so, e, st, true) && e.id !in so.resumed
    requires row.blocks == st.blocks
    requires SendsStream(cfg, so, e, st, true, stream)
    requires IsPrefix(st.Tokens(), stream) && RowHolds(row, st.Tokens())
    ensures RowHolds(AdvanceRow(cfg, so, e, st, row),
                     stream[..Max(|st.Tokens()|, Computed(cfg, so, e, st, true) + |e.newTokens|)])
  {
    var after := AdvanceRow(cfg, so, e, st, row);
    assert st.Tokens() == stream[..|st.Tokens()|];
    AdvancedCells(cfg, so, e, st, row);
    OverwrittenCells(row, |st.Tokens()|, Computed(cfg, so, e, st, true), e.newTokens, stream, after.cells);
  }

  /** One cached request, in the batch or not, keeps to its stream. */
  lemma CachedKeepsStream(cfg: Config, so: SchedulerOutput, e: CachedRequest, st: ReqState, inBatch: bool,
                          stream: seq<Token>)
    requires !cfg.isLastRank && EntryOk(cfg, so, e, st, inBatch)
    requires SendsStream(cfg, so, e, st, inBatch, stream) && IsPrefix(st.Tokens(), stream)
    ensures IsPrefix(AdvanceState(cfg, so, e, st, inBatch).Tokens(), stream)
  {
    if Recovers(cfg, e, inBatch) {
      assert forall i :: 0 <= i < |st.prompt| ==> st.prompt[i] == st.Tokens()[i];
      RecoveredTokens(cfg, so, e, st, stream);
    } else {
      AppendsUnknown(cfg, so, e, st, inBatch, stream);
    }
  }

  /** What the invariant says of one request. */
  ghost predicate StreamAt(streams: map<ReqId, seq<Token>>, s: RunnerState, id: ReqId) {
    id in s.requests ==>
      && id in streams && IsPrefix(s.requests[id].Tokens(), streams[id])
      && (id in s.rows ==> RowHolds(s.rows[id], s.requests[id].Tokens()))
  }

  lemma CachedStep(cfg: Config, streams: map<ReqId, seq<Token>>, s: RunnerState, so: SchedulerOutput,
                   t: RunnerState, k: nat)
    requires !cfg.isLastRank && k < |so.cached|
    requires Step(cfg, s, so, t) && StreamInv(streams, s) && SendsStreams(cfg, streams, s, so)
    ensures StreamAt(streams, t, so.cached[k].id)
  {
    var e := so.cached[k];
    var st := s.requests[e.id];
    var inBatch := e.id in Kept(s.rows, so);
    assert e.id in so.CachedIds() && e.id in so.scheduled;
    CachedKeepsStream(cfg, so, e, st, inBatch, streams[e.id]);
    if inBatch {
      KeptRowHolds(cfg, so, e, st, s.rows[e.id], streams[e.id]);
      AppendsUnknown(cfg, so, e, st, inBatch, streams[e.id]);
    } else {
      FreshRowHolds(t.requests[e.id]);
    }
  }

  lemma NewStep(cfg: Config, streams: map<ReqId, seq<Token>>, s: RunnerState, so: SchedulerOutput,
                t: RunnerState, k: nat)
    requires k < |so.news| && Step(cfg, s, so, t) && SendsStreams(cfg, streams, s, so)
    ensures StreamAt(streams, t, so.news[k].id)
  {
    var id := so.news[k].id;
    assert id in so.NewIds() && id !in Kept(s.rows, so);
    assert t.requests[id].Tokens() == so.news[k].prompt;
    FreshRowHolds(t.requests[id]);
  }

  /** On a rank that does not sample, one step keeps every request's cached
      tokens, and its row, a prefix of the true stream: overlapping resends
      never duplicate a token. */
  lemma StepKeepsStreams(cfg: Config, streams: map<ReqId, seq<Token>>, s: RunnerState, so: SchedulerOutput,
                         t: RunnerState)
    requires !cfg.isLastRank
    requires Step(cfg, s, so, t) && StreamInv(streams, s) && SendsStreams(cfg, streams, s, so)
    ensures StreamInv(streams, t)
  {
    forall id | id in t.requests ensures StreamAt(streams, t, id) {
      if id in so.CachedIds() {
        var k := EntryOf(so, id);
        CachedStep(cfg, streams, s, so, t, k);
      } else if id in so.NewIds() {
        var k := NewEntryOf(so, id);
        NewStep(cfg, streams, s, so, t, k);
      } else {
        assert id !in t.rows;
      }
    }
  }

  lemma FreshRowHolds(st: ReqState)
    ensures RowHolds(FreshRow(st), st.Tokens())
  {
  }

  /** The streams survive every run of a rank that does not sample. */
  lemma {:induction false} RunKeepsStreams(cfg: Config, streams: map<ReqId, seq<Token>>,
                                           outputs: seq<SchedulerOutput>, states: seq<RunnerState>)
    requires !cfg.isLastRank && IsStepRun(cfg, outputs, states)
    requires forall i :: 0 <= i < |outputs| ==>
               Step(cfg, states[i], outputs[i], states[i + 1]) && SendsStreams(cfg, streams, states[i], outputs[i])
    ensures StreamInv(streams, states[|outputs|])
  {
    if outputs != [] {
      var n := |outputs| - 1;
      RunKeepsStreams(cfg, streams, outputs[..n], states[..n + 1]);
      assert states[..n + 1][n] == states[n];
      assert Step(cfg, states[n], outputs[n], states[n + 1]);
      StepKeepsStreams(cfg, streams, states[n], outputs[n], states[n + 1]);
    }
  }

  /** A run of scheduled steps, starting empty. */
  ghost predicate IsStepRun(cfg: Config, outputs: seq<SchedulerOutput>, states: seq<RunnerState>) {
    && |states| == |outputs| + 1 && states[0] == RunnerState(map[], map[])
    && forall i :: 0 <= i < |outputs| ==> Step(cfg, states[i], outputs[i], states[i + 1])
  }

  ghost predicate NothingDrafted(s: RunnerState) {
    forall id :: id in s.requests ==> s.requests[id].prevDraft == 0
  }

  lemma StepDraftsNothing(cfg: Config, s: RunnerState, so: SchedulerOutput, t: RunnerState)
    requires Step(cfg, s, so, t) && NothingDrafted(s) && forall id :: so.SpecLen(id) == 0
    ensures NothingDrafted(t)
  {
    forall id | id in t.requests ensures t.requests[id].prevDraft == 0 {
      if id in so.CachedIds() {
        var k := EntryOf(so, id);
      } else if id in so.NewIds() {
        var k := NewEntryOf(so, id);
        assert t.requests[so.news[k].id].prevDraft == so.SpecLen(so.news[k].id);
      }
    }
  }

  /** While the scheduler schedules no drafts, none is ever pending, so no
      correction takes place, with async scheduling or without. */
  lemma {:induction false} RunWithoutDrafts(cfg: Config, outputs: seq<SchedulerOutput>, states: seq<RunnerState>)
    requires IsStepRun(cfg, outputs, states)
    requires forall i, id :: 0 <= i < |outputs| ==> outputs[i].SpecLen(id) == 0
    ensures NothingDrafted(states[|outputs|])
    ensures forall id, inBatch :: id in states[|outputs|].requests ==>
              !Corrects(cfg, states[|outputs|].requests[id], inBatch)
  {
    if outputs != [] {
      var n := |outputs| - 1;
      RunWithoutDrafts(cfg, outputs[..n], states[..n + 1]);
      assert states[..n + 1][n] == states[n];
      assert Step(cfg, states[n], outputs[n], states[n + 1]);
      StepDraftsNothing(cfg, states[n], outputs[n], states[n + 1]);
    }
  }

  /** When the tokens of a stream all differ and none is the placeholder, the
      request's tokens stay a prefix of it exactly when no placeholder is added
      and the resend leaves no gap, or resends nothing. */
  lemma PrefixIffNoGap(cfg: Config, so: SchedulerOutput, e: CachedRequest, st: ReqState, inBatch: bool,
                       stream: seq<Token>)
    requires !cfg.isLastRank && EntryOk(cfg, so, e, st, inBatch) && !Recovers(cfg, e, inBatch)
    requires IsPrefix(st.Tokens(), stream) && IsSlice(e.newTokens, Computed(cfg, so, e, st, inBatch), stream)
    requires Distinct(stream) && -1 !in stream
    ensures IsPrefix(AdvanceState(cfg, so, e, st, inBatch).Tokens(), stream) <==>
            && NoPlaceholder(cfg, so, e, st, inBatch)
            && (Computed(cfg, so, e, st, inBatch) <= |st.Tokens()| || e.newTokens == [])
  {
    var known, computed := |st.Tokens()|, Computed(cfg, so, e, st, inBatch);
    var tokens := AdvanceState(cfg, so, e, st, inBatch).Tokens();
    if !NoPlaceholder(cfg, so, e, st, inBatch) {
      assert tokens[known] == -1;
      assert known < |stream| ==> stream[known] in stream;
    } else if computed <= known {
      AppendsUnknown(cfg, so, e, st, inBatch, stream);
    } else {
      ResentTokens(cfg, so, e, st, inBatch);
      assert tokens == st.Tokens() + e.newTokens;
      if e.newTokens != [] {
        assert tokens[known] == e.newTokens[0] == stream[computed + 0];
        assert stream[known] != stream[computed];
      }
    }
  }

  /** A recovered request keeps to its stream of distinct tokens exactly when
      the tokens it recovers from end with its scheduled output. */
  lemma RecoveredIffAligned(cfg: Config, so: SchedulerOutput, e: CachedRequest, st: ReqState, stream: seq<Token>)
    requires EntryOk(cfg, so, e, st, false) && Recovers(cfg, e, false)
    requires IsPrefix(st.prompt, stream) && IsPrefix(so.allTokens[e.id], stream) && Distinct(stream)
    requires |so.allTokens[e.id]| >= e.numOutput
    ensures IsPrefix(AdvanceState(cfg, so, e, st, false).Tokens(), stream) <==>
            |so.allTokens[e.id]| == |st.prompt| + e.numOutput
  {
    var all, tokens := so.allTokens[e.id], AdvanceState(cfg, so, e, st, false).Tokens();
    if |all| == |st.prompt| + e.numOutput {
      RecoveredTokens(cfg, so, e, st, stream);
    } else {
      var first := |all| - e.numOutput;
      assert tokens[|st.prompt|] == Suffix(all, e.numOutput)[0] == all[first] == stream[first];
    }
  }

  /** A resend with a gap: of the stream 1, 2, 3 the request knows 1, is sent 3
      and then holds 1, 3. */
  lemma GapBreaksPrefix()
    ensures var cfg := Config(false, false);
            var e := CachedRequest("r", 2, None, 0, [3]);
            var so := SchedulerOutput({}, {"r"}, [], [e], {}, map[], map[], map[], map[]);
            var st := ReqState([1], [], [], 0, 0);
            && EntryOk(cfg, so, e, st, true)
            && AdvanceState(cfg, so, e, st, true).Tokens() == [1, 3]
            && !IsPrefix([1, 3], [1, 2, 3])
  {
    assert [1, 3][1] != [1, 2, 3][1];
  }

  /** A recovery from tokens that are behind the scheduled output: one output
      token is taken from 1, 2, which repeats token 2 of the prompt. */
  lemma MisalignedRecovery()
    ensures var cfg := Config(true, true);
            var e := CachedRequest("r", 2, None, 1, []);
            var so := SchedulerOutput({}, {"r"}, [], [e], {}, map["r" := [1, 2]], map[], map[], map[]);
            var st := ReqState([1, 2], [], [], 0, 0);
            && EntryOk(cfg, so, e, st, false)
            && AdvanceState(cfg, so, e, st, false).Tokens() == [1, 2, 2]
            && !IsPrefix([1, 2, 2], [1, 2, 3])
  {
    assert [1, 2, 2][2] != [1, 2, 3][2];
  }

  // --------------------------------------------------- drafts and counts

  /** What a step makes of counts, drafts and the length of a kept row, in terms
      of what was sent: rejected drafts are taken back from the computed count
      and accepted ones stand as placeholders behind the output. */
  lemma StepCounts(cfg: Config, s: RunnerState, so: SchedulerOutput, t: RunnerState, k: nat)
    requires Step(cfg, s, so, t) && k < |so.cached|
    ensures var e := so.cached[k];
            var kept := e.id in s.rows && e.id in so.scheduled && e.id !in so.resumed && e.id !in so.finished;
            && e.id in s.requests && e.id in t.requests && e.id in t.rows
            && t.requests[e.id].prevDraft == so.SpecLen(e.id)
            && var was, st := s.requests[e.id], t.requests[e.id];
            var corrects := kept && cfg.useAsync && was.prevDraft > 0;
            && (corrects ==> e.id in so.validSampled)
            && var accepted := if corrects then so.validSampled[e.id] - 1 else 0;
            && st.numComputed == e.numComputed - (if corrects then was.prevDraft - accepted else 0)
            && t.rows[e.id].numComputed == st.numComputed
            && (kept && cfg.isLastRank && accepted >= 0 ==>
                  && |st.output| == Min(|was.output| + accepted, Max(e.numOutput, 0))
                  && forall i :: 0 <= i < |st.output| ==>
                       st.output[i] == if i < |was.output| then was.output[i] else -1)
            && (kept && !cfg.isLastRank ==>
                  t.rows[e.id].numTokensNoSpec == st.numComputed + |e.newTokens|)
  {
    var e := so.cached[k];
    assert e.id in so.CachedIds() && e.id in so.scheduled;
    assert e.id in Kept(s.rows, so) <==> e.id in s.rows && e.id !in so.resumed && e.id !in so.finished;
    ScheduledMirrored(cfg, s, so, t, e.id);
    CountsOf(cfg, so, e, s.requests[e.id], e.id in Kept(s.rows, so));
    if e.id in Kept(s.rows, so) && !cfg.isLastRank {
      AdvancedCells(cfg, so, e, s.requests[e.id], s.rows[e.id]);
    }
  }

  lemma CountsOf(cfg: Config, so: SchedulerOutput, e: CachedRequest, st: ReqState, inBatch: bool)
    requires EntryOk(cfg, so, e, st, inBatch)
    ensures var after := AdvanceState(cfg, so, e, st, inBatch);
            var corrects := inBatch && cfg.useAsync && st.prevDraft > 0;
            && (corrects ==> e.id in so.validSampled)
            && var accepted := if corrects then so.validSampled[e.id] - 1 else 0;
            && after.numComputed == e.numComputed - (if corrects then st.prevDraft - accepted else 0)
            && (inBatch && cfg.isLastRank && accepted >= 0 ==>
                  && |after.output| == Min(|st.output| + accepted, Max(e.numOutput, 0))
                  && forall i :: 0 <= i < |after.output| ==>
                       after.output[i] == if i < |st.output| then st.output[i] else -1)
  {
  }

  // ------------------------------------------------------ the sampling rank

  /** The row confirms exactly the given tokens; it never holds a placeholder. */
  ghost predicate Confirms(row: Row, tokens: seq<Token>) {
    && RowHolds(row, tokens)
    && row.numTokensNoSpec == |tokens|
    && forall i :: i in row.cells ==> row.cells[i] >= 0
  }

  /** On the sampling rank the row's confirmed length is the request's length. */
  ghost predicate SampledInv(s: RunnerState) {
    forall id :: id in s.requests ==>
      && RealTokens(s.requests[id].Tokens())
      && (id in s.rows ==> Confirms(s.rows[id], s.requests[id].Tokens()))
  }

  ghost predicate RealTokens(tokens: seq<Token>) {
    forall i :: 0 <= i < |tokens| ==> tokens[i] >= 0
  }

  /** No placeholder stays in the output of a request that keeps its row: none
      is added, or the scheduler discards all that are. */
  predicate NoneStays(cfg: Config, so: SchedulerOutput, e: CachedRequest, st: ReqState, inBatch: bool)
    requires Corrects(cfg, st, inBatch) ==> e.id in so.validSampled
  {
    NoPlaceholder(cfg, so, e, st, inBatch) || e.numOutput <= |st.output|
  }

  /** A row that stays in the batch confirms exactly the request's tokens after
      the update if and only if no placeholder stays in them. */
  lemma KeptRowIff(cfg: Config, so: SchedulerOutput, e: CachedRequest, st: ReqState, row: Row)
    requires cfg.isLastRank && EntryOk(cfg, so, e, st, true) && e.id !in so.resumed
    requires row.blocks == st.blocks && row.numPrompt == |st.prompt|
    requires RealTokens(st.Tokens()) && Confirms(row, st.Tokens())
    ensures Confirms(AdvanceRow(cfg, so, e, st, row), AdvanceState(cfg, so, e, st, true).Tokens())
            <==> NoneStays(cfg, so, e, st, true)
    ensures NoneStays(cfg, so, e, st, true) ==> RealTokens(AdvanceState(cfg, so, e, st, true).Tokens())
  {
    var tokens := AdvanceState(cfg, so, e, st, true).Tokens();
    if NoneStays(cfg, so, e, st, true) {
      assert IsPrefix(tokens, st.Tokens());
    } else {
      assert tokens[|st.Tokens()|] == -1;
    }
  }

  /** What the sampling rank is sent: tokens are real, recovered ones included,
      and no placeholder stays. */
  ghost predicate SendsReal(cfg: Config, s: RunnerState, so: SchedulerOutput)
    requires SchedulerContract(cfg, s, so)
  {
    && (forall k {:trigger so.news[k]} :: 0 <= k < |so.news| ==> RealTokens(so.news[k].prompt))
    && (forall id :: id in so.allTokens ==> RealTokens(so.allTokens[id]))
    && (forall k {:trigger so.cached[k]} :: 0 <= k < |so.cached| ==>
          var e := so.cached[k];
          NoneStays(cfg, so, e, s.requests[e.id], e.id in Kept(s.rows, so)))
  }

  ghost predicate SampledAt(s: RunnerState, id: ReqId) {
    id in s.requests ==>
      && RealTokens(s.requests[id].Tokens())
      && (id in s.rows ==> Confirms(s.rows[id], s.requests[id].Tokens()))
  }

  lemma FreshRowConfirms(st: ReqState)
    requires RealTokens(st.Tokens())
    ensures Confirms(FreshRow(st), st.Tokens())
  {
  }

  lemma SampledCached(cfg: Config, s: RunnerState, so: SchedulerOutput, t: RunnerState, k: nat)
    requires cfg.isLastRank && k < |so.cached|
    requires Step(cfg, s, so, t) && SampledInv(s) && SendsReal(cfg, s, so)
    ensures SampledAt(t, so.cached[k].id)
  {
    var e := so.cached[k];
    var st := s.requests[e.id];
    assert e.id in so.CachedIds() && e.id in so.scheduled;
    if e.id in Kept(s.rows, so) {
      KeptRowIff(cfg, so, e, st, s.rows[e.id]);
    } else {
      AddedTokensReal(cfg, so, e, st);
      FreshRowConfirms(t.requests[e.id]);
    }
  }

  lemma AddedTokensReal(cfg: Config, so: SchedulerOutput, e: CachedRequest, st: ReqState)
    requires cfg.isLastRank && EntryOk(cfg, so, e, st, false) && RealTokens(st.Tokens())
    requires e.id in so.allTokens ==> RealTokens(so.allTokens[e.id])
    ensures RealTokens(AdvanceState(cfg, so, e, st, false).Tokens())
  {
    var tokens := AdvanceState(cfg, so, e, st, false).Tokens();
    if !Recovers(cfg, e, false) {
      assert IsPrefix(tokens, st.Tokens());
    } else {
      assert forall i :: 0 <= i < |st.prompt| ==> tokens[i] == st.Tokens()[i];
    }
  }

  /** The sampling rank's rows hold exactly the known tokens after every step,
      also when the scheduler discards some. */
  lemma LastRankStepKeepsRows(cfg: Config, s: RunnerState, so: SchedulerOutput, t: RunnerState)
    requires cfg.isLastRank && Step(cfg, s, so, t) && SampledInv(s) && SendsReal(cfg, s, so)
    ensures SampledInv(t)
  {
    forall id | id in t.requests ensures SampledAt(t, id) {
      if id in so.CachedIds() {
        var k := EntryOf(so, id);
        SampledCached(cfg, s, so, t, k);
      } else if id in so.NewIds() {
        var k := NewEntryOf(so, id);
        assert id !in Kept(s.rows, so) && t.requests[id].Tokens() == so.news[k].prompt;
        FreshRowConfirms(t.requests[id]);
      } else {
        assert id !in t.rows;
      }
    }
  }

  lemma AppendedCells(cells: map<nat, Token>, tokens: seq<Token>, more: seq<Token>)
    requires forall i: nat :: i < |tokens| ==> i in cells && cells[i] == tokens[i]
    ensures forall i: nat :: i < |tokens + more| ==>
              && i in cells + CellsAt(|tokens|, more)
              && (cells + CellsAt(|tokens|, more))[i] == (tokens + more)[i]
  {
    forall i: nat | i < |tokens + more|
      ensures i in cells + CellsAt(|tokens|, more) && (cells + CellsAt(|tokens|, more))[i] == (tokens + more)[i]
    {
      assert i >= |tokens| ==> i in CellsAt(|tokens|, more);
    }
  }

  lemma ExtendedRowConfirms(st: ReqState, row: Row, more: seq<Token>)
    requires Confirms(row, st.Tokens()) && RealTokens(st.Tokens()) && RealTokens(more)
    ensures Confirms(ExtendedRow(row, more), Extended(st, more).Tokens())
    ensures RealTokens(Extended(st, more).Tokens())
  {
    assert Extended(st, more).Tokens() == st.Tokens() + more;
    AppendedCells(row.cells, st.Tokens(), more);
  }

  lemma SampleKeepsRows(s: RunnerState, tokens: map<ReqId, seq<Token>>, t: RunnerState)
    requires Sample(s, tokens, t) && SampledInv(s) && forall id :: id in tokens ==> RealTokens(tokens[id])
    ensures SampledInv(t)
  {
    forall id | id in t.requests ensures SampledAt(t, id) {
      if id in tokens {
        ExtendedRowConfirms(s.requests[id], s.rows[id], tokens[id]);
      }
    }
  }

  /** The condition of one event of a run, in terms of what is sent. */
  ghost predicate EventReal(cfg: Config, s: RunnerState, ev: Event)
    requires ev.Scheduled? ==> SchedulerContract(cfg, s, ev.so)
    requires ev.AsyncChunk? ==> AsyncChunkContract(cfg, s, ev.so)
  {
    match ev
    case Scheduled(so) => SendsReal(cfg, s, so)
    case AsyncChunk(so) =>
      && (forall k {:trigger so.news[k]} :: 0 <= k < |so.news| ==> RealTokens(so.news[k].prompt))
      && (forall id :: id in so.allTokens ==> RealTokens(so.allTokens[id]))
      && (forall id :: id in so.prompts ==> RealTokens(so.prompts[id]))
      && (forall k {:trigger so.cached[k]} :: 0 <= k < |so.cached| ==>
            var e := so.cached[k];
            NoneStays(cfg, so, e, Refreshed(so, e.id, s.requests[e.id]), e.id !in so.resumed))
    case Sampled(tokens) => forall id :: id in tokens ==> RealTokens(tokens[id])
  }

  lemma RefreshedSampled(st: ReqState, prompt: seq<Token>)
    requires RealTokens(st.Tokens()) && RealTokens(prompt)
    ensures var renewed := st.(prompt := prompt);
            RealTokens(renewed.Tokens()) && Confirms(FreshRow(renewed), renewed.Tokens())
  {
    assert forall i :: 0 <= i < |st.output| ==> st.output[i] == st.Tokens()[|st.prompt| + i];
    FreshRowConfirms(st.(prompt := prompt));
  }

  lemma RefreshKeepsRows(s: RunnerState, so: SchedulerOutput, mid: RunnerState)
    requires SampledInv(s) && Refresh(s, so, mid) && forall id :: id in so.prompts ==> RealTokens(so.prompts[id])
    ensures SampledInv(mid)
  {
    forall id | id in mid.requests ensures SampledAt(mid, id) {
      if id in so.CachedIds() {
        RefreshedSampled(s.requests[id], so.prompts[id]);
      }
    }
  }

  lemma RefreshSendsReal(cfg: Config, s: RunnerState, so: SchedulerOutput, mid: RunnerState)
    requires AsyncChunkContract(cfg, s, so) && EventReal(cfg, s, AsyncChunk(so))
    requires Refresh(s, so, mid)
    ensures SchedulerContract(cfg, mid, so) && SendsReal(cfg, mid, so)
  {
    RefreshKeepsContract(cfg, s, so, mid);
    forall k {:trigger so.cached[k]} | 0 <= k < |so.cached|
      ensures var e := so.cached[k]; NoneStays(cfg, so, e, mid.requests[e.id], e.id in Kept(mid.rows, so))
    {
      assert so.cached[k].id in so.CachedIds();
    }
  }

  /** Every run of the sampling rank keeps its rows equal to the known tokens. */
  lemma {:induction false} RunKeepsRows(cfg: Config, events: seq<Event>, states: seq<RunnerState>)
    requires cfg.isLastRank && IsRun(cfg, events, states)
    requires forall i {:trigger events[i]} :: 0 <= i < |events| ==>
               Happens(cfg, states[i], events[i], states[i + 1]) && EventReal(cfg, states[i], events[i])
    ensures SampledInv(states[|events|])
  {
    if events != [] {
      var n := |events| - 1;
      RunKeepsRows(cfg, events[..n], states[..n + 1]);
      assert states[..n + 1][n] == states[n];
      assert Happens(cfg, states[n], events[n], states[n + 1]);
      match events[n]
      case Scheduled(so) => LastRankStepKeepsRows(cfg, states[n], so, states[n + 1]);
      case AsyncChunk(so) =>
        var mid :| Refresh(states[n], so, mid) && Step(cfg, mid, so, states[n + 1]);
        RefreshKeepsRows(states[n], so, mid);
        RefreshSendsReal(cfg, states[n], so, mid);
        LastRankStepKeepsRows(cfg, mid, so, states[n + 1]);
      case Sampled(tokens) => SampleKeepsRows(states[n], tokens, states[n + 1]);
    }
  }

  // --------------------------------------------- placeholders among the tokens

  /** The number of tokens before the first placeholder. */
  function Known(tokens: seq<Token>): (k: nat)
    ensures k <= |tokens| && (forall i :: 0 <= i < k ==> tokens[i] >= 0) && (k < |tokens| ==> tokens[k] < 0)
  {
    if tokens == [] || tokens[0] < 0 then 0 else 1 + Known(tokens[1..])
  }

  lemma {:induction false} KnownOfPrefix(a: seq<Token>, b: seq<Token>)
    requires IsPrefix(a, b)
    ensures Known(a) == Min(|a|, Known(b))
  {
    if a != [] && a[0] >= 0 {
      KnownOfPrefix(a[1..], b[1..]);
    }
  }

  /** The row confirms the tokens before the first placeholder, and ends with
      them when there is none. */
  ghost predicate ConfirmsKnown(row: Row, tokens: seq<Token>) {
    && Known(tokens) <= row.numTokensNoSpec
    && (Known(tokens) == |tokens| ==> row.numTokensNoSpec == |tokens|)
    && forall i: nat :: i < Known(tokens) ==> i in row.cells && row.cells[i] == tokens[i]
  }

  ghost predicate KnownInv(s: RunnerState) {
    forall id :: id in s.rows && id in s.requests ==> ConfirmsKnown(s.rows[id], s.requests[id].Tokens())
  }

  lemma FreshRowKnown(st: ReqState)
    ensures ConfirmsKnown(FreshRow(st), st.Tokens())
  {
  }

  /** Placeholders behind the tokens, and then a cut that the row follows, leave
      what is known confirmed. */
  lemma StillKnown(row: Row, tokens: seq<Token>, corrected: seq<Token>, after: seq<Token>, num: nat)
    requires ConfirmsKnown(row, tokens) && IsPrefix(tokens, corrected) && IsPrefix(after, corrected)
    requires |corrected| > |tokens| ==> corrected[|tokens|] < 0
    requires num == if |after| < |corrected| then |after| else row.numTokensNoSpec
    ensures Known(after) <= num && (Known(after) == |after| ==> num == |after|)
    ensures forall i: nat :: i < Known(after) ==> i in row.cells && row.cells[i] == after[i]
  {
    KnownOfPrefix(tokens, corrected);
    KnownOfPrefix(after, corrected);
  }

  /** The row and the tokens of a kept request on the sampling rank. */
  lemma AdvancedTokens(cfg: Config, so: SchedulerOutput, e: CachedRequest, st: ReqState, row: Row)
    requires cfg.isLastRank && EntryOk(cfg, so, e, st, true)
    requires (e.newBlocks.Some? ==> |e.newBlocks.value| == |row.blocks|) && row.numPrompt == |st.prompt|
    ensures var corrected := st.prompt + CorrectedOutput(cfg, so, e, st, true);
            var tokens, after := AdvanceState(cfg, so, e, st, true).Tokens(), AdvanceRow(cfg, so, e, st, row);
            && IsPrefix(st.Tokens(), corrected) && IsPrefix(tokens, corrected)
            && (|corrected| > |st.Tokens()| ==> corrected[|st.Tokens()|] < 0)
            && after.cells == row.cells
            && after.numTokensNoSpec == if |tokens| < |corrected| then |tokens| else row.numTokensNoSpec
  {
  }

  lemma KeptRowKnown(cfg: Config, so: SchedulerOutput, e: CachedRequest, st: ReqState, row: Row)
    requires cfg.isLastRank && EntryOk(cfg, so, e, st, true) && e.id !in so.resumed
    requires row.blocks == st.blocks && row.numPrompt == |st.prompt| && ConfirmsKnown(row, st.Tokens())
    ensures ConfirmsKnown(AdvanceRow(cfg, so, e, st, row), AdvanceState(cfg, so, e, st, true).Tokens())
  {
    AdvancedTokens(cfg, so, e, st, row);
    StillKnown(row, st.Tokens(), st.prompt + CorrectedOutput(cfg, so, e, st, true),
               AdvanceState(cfg, so, e, st, true).Tokens(), AdvanceRow(cfg, so, e, st, row).numTokensNoSpec);
  }

  lemma StepConfirmsKnown(cfg: Config, s: RunnerState, so: SchedulerOutput, t: RunnerState)
    requires cfg.isLastRank && Step(cfg, s, so, t) && KnownInv(s)
    ensures KnownInv(t)
  {
    forall id | id in t.rows && id in t.requests ensures ConfirmsKnown(t.rows[id], t.requests[id].Tokens()) {
      if id in Kept(s.rows, so) {
        assert id !in so.NewIds();
        var k := EntryOf(so, id);
        KeptRowKnown(cfg, so, so.cached[k], s.requests[id], s.rows[id]);
      } else {
        FreshRowKnown(t.requests[id]);
      }
    }
  }

  lemma KnownCells(cells: map<nat, Token>, tokens: seq<Token>, more: seq<Token>, at: nat)
    requires Known(tokens) <= at && (Known(tokens) == |tokens| ==> at == |tokens|)
    requires forall i: nat :: i < Known(tokens) ==> i in cells && cells[i] == tokens[i]
    ensures var known := Known(tokens + more);
            && known <= at + |more| && (known < |tokens| ==> known == Known(tokens))
            && forall i: nat :: i < known ==>
                 && i in cells + CellsAt(at, more) && (cells + CellsAt(at, more))[i] == (tokens + more)[i]
  {
    KnownOfPrefix(tokens, tokens + more);
    if Known(tokens) == |tokens| {
      AppendedCells(cells, tokens, more);
    }
  }

  lemma ExtendedRowKnown(st: ReqState, row: Row, more: seq<Token>)
    requires ConfirmsKnown(row, st.Tokens())
    ensures ConfirmsKnown(ExtendedRow(row, more), Extended(st, more).Tokens())
  {
    assert Extended(st, more).Tokens() == st.Tokens() + more;
    KnownCells(row.cells, st.Tokens(), more, row.numTokensNoSpec);
    KnownOfPrefix(st.Tokens(), st.Tokens() + more);
  }

  lemma SampleConfirmsKnown(s: RunnerState, tokens: map<ReqId, seq<Token>>, t: RunnerState)
    requires Sample(s, tokens, t) && KnownInv(s)
    ensures KnownInv(t)
  {
    forall id | id in t.rows && id in t.requests ensures ConfirmsKnown(t.rows[id], t.requests[id].Tokens()) {
      if id in tokens {
        ExtendedRowKnown(s.requests[id], s.rows[id], tokens[id]);
      }
    }
  }

  lemma RefreshConfirmsKnown(s: RunnerState, so: SchedulerOutput, mid: RunnerState)
    requires Refresh(s, so, mid)
    ensures KnownInv(mid)
  {
    forall id | id in mid.rows && id in mid.requests ensures ConfirmsKnown(mid.rows[id], mid.requests[id].Tokens()) {
      FreshRowKnown(mid.requests[id]);
    }
  }

  /** Every run of the sampling rank, in every scheduling mode and whatever is
      sampled or sent, keeps its rows confirming the tokens up to the first
      placeholder. */
  lemma {:induction false} RunConfirmsKnown(cfg: Config, events: seq<Event>, states: seq<RunnerState>)
    requires cfg.isLastRank && IsRun(cfg, events, states)
    ensures KnownInv(states[|events|])
  {
    if events != [] {
      var n := |events| - 1;
      RunConfirmsKnown(cfg, events[..n], states[..n + 1]);
      assert states[..n + 1][n] == states[n];
      assert Happens(cfg, states[n], events[n], states[n + 1]);
      match events[n]
      case Scheduled(so) => StepConfirmsKnown(cfg, states[n], so, states[n + 1]);
      case AsyncChunk(so) =>
        var mid :| Refresh(states[n], so, mid) && Step(cfg, mid, so, states[n + 1]);
        RefreshConfirmsKnown(states[n], so, mid);
        StepConfirmsKnown(cfg, mid, so, states[n + 1]);
      case Sampled(tokens) => SampleConfirmsKnown(states[n], tokens, states[n + 1]);
    }
  }

  /** Recovering a request restores the rest: from real tokens its row confirms
      all of them again, whatever placeholders its state held. */
  lemma RecoveryRestores(cfg: Config, s: RunnerState, so: SchedulerOutput, t: RunnerState, k: nat)
    requires Step(cfg, s, so, t) && k < |so.cached|
    requires Recovers(cfg, so.cached[k], so.cached[k].id in Kept(s.rows, so))
    requires var id := so.cached[k].id;
             RealTokens(s.requests[id].prompt) && id in so.allTokens && RealTokens(so.allTokens[id])
    ensures var id := so.cached[k].id;
            id in t.rows && RealTokens(t.requests[id].Tokens()) && Confirms(t.rows[id], t.requests[id].Tokens())
  {
    var e := so.cached[k];
    assert e.id in so.CachedIds() && e.id in so.scheduled;
    assert t.requests[e.id].output == Suffix(so.allTokens[e.id], e.numOutput);
    FreshRowConfirms(t.requests[e.id]);
  }
}
