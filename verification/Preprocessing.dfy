/** The per-request preprocessing loop of a step and the batched talker behind
    it: one-token requests are gathered into compact buffers, run as one padded
    batch and scattered back into the flattened embeddings. */
module Preprocessing {
  import opened Common
  import opened FlatBuffers

  /** A value of a request's additional information. */
  datatype Value = Val(x: int) | Mtp(hidden: int, textStep: int)
  type Info = map<string, Value>

  /** One row of the talker's input. */
  datatype Row = Row(tok: Tok, emb: Emb, hidden: int, textStep: int)

  /** What the model's preprocessing returns for one request. */
  datatype Pre = Pre(ids: Option<seq<Tok>>, embeds: seq<Emb>, update: Info)

  /** The model: an arbitrary preprocessing function, and an arbitrary
      row-wise talker returning an embedding and the predicted codes. */
  datatype Model = Model(preprocess: (seq<Tok>, seq<Emb>, Info) -> Pre, talker: Option<Row -> (Emb, int)>)

  /** A request's share of the step's state. */
  datatype Share = Share(ids: seq<Tok>, embeds: seq<Emb>, info: Info)

  function Run(m: Model, s: Share): Pre {
    m.preprocess(s.ids, s.embeds, s.info)
  }

  /** The talker runs for requests with exactly one token in this step. */
  predicate Decodes(m: Model, s: Share) {
    m.talker.Some? && |s.embeds| == 1
  }

  /** What the code demands of the model for one-token requests: one id, one
      embedding row and the talker's other inputs. */
  predicate Answers(m: Model, s: Share) {
    Decodes(m, s) ==>
      var p := Run(m, s);
      && p.ids.Some? && |p.ids.value| == 1 && |p.embeds| == 1
      && "mtp_inputs" in p.update && p.update["mtp_inputs"].Mtp?
  }

  function TalkerRow(m: Model, s: Share): Row
    requires Decodes(m, s) && Answers(m, s)
  {
    var p := Run(m, s);
    Row(p.ids.value[0], p.embeds[0], p.update["mtp_inputs"].hidden, p.update["mtp_inputs"].textStep)
  }

  /** The share after preprocessing, before the talker. */
  function Preprocessed(m: Model, s: Share): (after: Share)
    requires Answers(m, s)
    ensures |s.ids| == |s.embeds| ==> |after.ids| == |s.ids| && |after.embeds| == |s.embeds|
  {
    var p := Run(m, s);
    var seg := Min(|s.embeds|, |p.embeds|);
    var ids := if p.ids.Some? && |p.ids.value| == seg && seg <= |s.ids| then Replaced(s.ids, p.ids.value) else s.ids;
    var update := if Decodes(m, s) then p.update - {"mtp_inputs"} else p.update;
    Share(ids, Replaced(s.embeds, p.embeds[..seg]), s.info + update)
  }

  /** One request handled on its own, without batching. */
  function Alone(m: Model, s: Share): Share
    requires Answers(m, s)
  {
    var after := Preprocessed(m, s);
    if !Decodes(m, s) then after
    else
      var (emb, codes) := m.talker.value(TalkerRow(m, s));
      Share(after.ids, [emb], after.info["code_predictor_codes" := Val(codes)])
  }

  // ------------------------------------------------- what a request ends with

  /** An info after an update: the update's keys win, the others stay. */
  ghost predicate Overrides(before: Info, update: Info, after: Info) {
    && after.Keys == before.Keys + update.Keys
    && (forall k :: k in update ==> after[k] == update[k])
    && (forall k :: k in before && k !in update ==> after[k] == before[k])
  }

  /** A one-token request that goes to the talker: the talker is called once, with
      the id, the embedding, the hidden state and the text step that the
      preprocessing returned. Its embedding becomes the request's row and its
      codes enter the info; the talker's inputs do not. */
  ghost predicate TalkedOutcome(m: Model, before: Share, after: Share)
    requires m.talker.Some?
  {
    exists i, e, h, t, u: Info ::
      && m.preprocess(before.ids, before.embeds, before.info) == Pre(Some([i]), [e], u)
      && "mtp_inputs" in u && u["mtp_inputs"] == Mtp(h, t)
      && var (row, codes) := m.talker.value(Row(i, e, h, t));
      && after.embeds == [row]
      && (|before.ids| == 1 ==> after.ids == [i])
      && Overrides(before.info, (u - {"mtp_inputs"})["code_predictor_codes" := Val(codes)], after.info)
  }

  /** Any other request: the rows returned replace its first rows, and the ids
      returned, if there are as many, its first ids; the rest of its span stays. */
  ghost predicate PlainOutcome(m: Model, before: Share, after: Share) {
    var p := m.preprocess(before.ids, before.embeds, before.info);
    && |after.embeds| == |before.embeds| && |after.ids| == |before.ids|
    && (forall j :: 0 <= j < |after.embeds| ==>
          after.embeds[j] == if j < |p.embeds| then p.embeds[j] else before.embeds[j])
    && (p.ids.Some? && |p.ids.value| == Min(|before.embeds|, |p.embeds|) && |p.ids.value| <= |before.ids| ==>
          forall j :: 0 <= j < |after.ids| ==>
            after.ids[j] == if j < |p.ids.value| then p.ids.value[j] else before.ids[j])
    && (p.ids.None? || |p.ids.value| != Min(|before.embeds|, |p.embeds|) ==> after.ids == before.ids)
    && Overrides(before.info, p.update, after.info)
  }

  ghost predicate Outcome(m: Model, before: Share, after: Share) {
    if m.talker.Some? && |before.embeds| == 1 then TalkedOutcome(m, before, after)
    else PlainOutcome(m, before, after)
  }

  lemma TalkedAlone(m: Model, s: Share)
    requires Answers(m, s) && Decodes(m, s)
    ensures TalkedOutcome(m, s, Alone(m, s))
  {
    var p := m.preprocess(s.ids, s.embeds, s.info);
    var mtp := p.update["mtp_inputs"];
    var i, e, h, t, u := p.ids.value[0], p.embeds[0], mtp.hidden, mtp.textStep, p.update;
    assert p.ids.value == [i] && p.embeds == [e];
    assert u["mtp_inputs"] == Mtp(h, t);
  }

  lemma PlainAlone(m: Model, s: Share)
    requires Answers(m, s) && !Decodes(m, s)
    ensures PlainOutcome(m, s, Alone(m, s))
  {
  }

  /** Handled on its own, a request ends this way. */
  lemma AloneOutcome(m: Model, s: Share)
    requires Answers(m, s)
    ensures Outcome(m, s, Alone(m, s))
  {
    if Decodes(m, s) {
      TalkedAlone(m, s);
    } else {
      PlainAlone(m, s);
    }
  }

  // ------------------------------------------------------- compact buffers

  /** The talker's four input buffers. */
  class TalkerBuffers {
    const tok: array<int>
    const emb: array<int>
    const hidden: array<int>
    const textStep: array<int>

    ghost predicate Valid() {
      && tok.Length == emb.Length == hidden.Length == textStep.Length
      && tok != emb && tok != hidden && tok != textStep && emb != hidden && emb != textStep && hidden != textStep
    }

    ghost function Rows(n: nat): (rows: seq<Row>)
      requires Valid() && n <= tok.Length
      reads this, tok, emb, hidden, textStep
      ensures |rows| == n
    {
      seq(n, k requires 0 <= k < n reads this, tok, emb, hidden, textStep =>
        Row(tok[k], emb[k], hidden[k], textStep[k]))
    }

    constructor (size: nat)
      ensures Valid() && tok.Length == size && fresh(tok) && fresh(emb) && fresh(hidden) && fresh(textStep)
    {
      tok, emb, hidden, textStep := new int[size], new int[size], new int[size], new int[size];
    }

    method Put(k: nat, row: Row)
      requires Valid() && k < tok.Length
      modifies tok, emb, hidden, textStep
      ensures Rows(k + 1) == old(Rows(k)) + [row]
    {
      tok[k], emb[k], hidden[k], textStep[k] := row.tok, row.emb, row.hidden, row.textStep;
    }

    /** The talker on the first `padded` rows, row by row. */
    method RunTalker(talker: Row -> (Emb, int), padded: nat) returns (embs: seq<Emb>, codes: seq<int>)
      requires Valid() && padded <= tok.Length
      ensures |embs| == |codes| == padded
      ensures forall k :: 0 <= k < padded ==> (embs[k], codes[k]) == talker(Rows(padded)[k])
    {
      embs, codes := [], [];
      for k := 0 to padded
        invariant |embs| == |codes| == k
        invariant forall j :: 0 <= j < k ==> (embs[j], codes[j]) == talker(Rows(padded)[j])
      {
        var (e, c) := talker(Row(tok[k], emb[k], hidden[k], textStep[k]));
        embs, codes := embs + [e], codes + [c];
      }
    }
  }

  // ------------------------------------------------------------ step state

  /** The step's state as values: both flat buffers and all request infos. */
  datatype State = State(ids: seq<Tok>, embeds: seq<Emb>, infos: map<Id, Info>)

  ghost predicate StateOk(st: State, reqs: seq<Req>) {
    && |st.ids| == |st.embeds| && Spans(reqs, |st.embeds|)
    && forall r {:trigger reqs[r]} :: 0 <= r < |reqs| ==> reqs[r].id in st.infos
  }

  function ShareOf(st: State, q: Req): Share
    requires |st.ids| == |st.embeds| && q.start + q.len <= |st.ids| && q.id in st.infos
  {
    Share(SpanOf(st.ids, q), SpanOf(st.embeds, q), st.infos[q.id])
  }

  /** Every request's share is the given one. */
  ghost predicate SharesAre(st: State, reqs: seq<Req>, want: seq<Share>) {
    && StateOk(st, reqs) && |want| == |reqs|
    && forall r {:trigger reqs[r]} :: 0 <= r < |reqs| ==> ShareOf(st, reqs[r]) == want[r]
  }

  /** The states differ only inside the spans and in the requests' own infos. */
  ghost predicate SameElsewhere(a: State, b: State, reqs: seq<Req>) {
    && SameOutside(a.ids, b.ids, reqs) && SameOutside(a.embeds, b.embeds, reqs)
    && a.infos.Keys == b.infos.Keys
    && forall id {:trigger a.infos[id]} {:trigger b.infos[id]} ::
         id in a.infos && (forall r :: 0 <= r < |reqs| ==> reqs[r].id != id) ==> a.infos[id] == b.infos[id]
  }

  function SharesOf(st: State, reqs: seq<Req>): (shares: seq<Share>)
    requires StateOk(st, reqs)
    ensures SharesAre(st, reqs, shares)
  {
    seq(|reqs|, r requires 0 <= r < |reqs| => ShareOf(st, reqs[r]))
  }

  /** The state with rows written at the start of a span and its owner's info
      replaced. */
  function WriteState(st: State, q: Req, ids: seq<Tok>, embeds: seq<Emb>, info: Info): State
    requires q.start + |ids| <= |st.ids| && q.start + |embeds| <= |st.embeds|
  {
    State(Write(st.ids, q.start, ids), Write(st.embeds, q.start, embeds), st.infos[q.id := info])
  }

  /** Such a write changes only the owner's share. */
  lemma WriteShare(st: State, reqs: seq<Req>, want: seq<Share>, i: nat, ids: seq<Tok>, embeds: seq<Emb>, info: Info)
    requires SharesAre(st, reqs, want) && i < |reqs| && |ids| <= reqs[i].len && |embeds| <= reqs[i].len
    ensures var after := WriteState(st, reqs[i], ids, embeds, info);
            && SharesAre(after, reqs,
                want[i := Share(Replaced(want[i].ids, ids), Replaced(want[i].embeds, embeds), info)])
            && SameElsewhere(st, after, reqs)
  {
    WriteInSpan(st.ids, reqs, SpansOf(st.ids, reqs), i, ids);
    WriteInSpan(st.embeds, reqs, SpansOf(st.embeds, reqs), i, embeds);
  }

  lemma ElsewhereTransitive(a: State, b: State, c: State, reqs: seq<Req>)
    requires SameElsewhere(a, b, reqs) && SameElsewhere(b, c, reqs)
    ensures SameElsewhere(a, c, reqs)
  {
    OutsideTransitive(a.ids, b.ids, c.ids, reqs);
    OutsideTransitive(a.embeds, b.embeds, c.embeds, reqs);
  }

  /** The preprocessed share as writes at the start of the span. */
  function Writes(m: Model, s: Share): (w: Share)
    requires Answers(m, s)
    ensures |w.embeds| <= |s.embeds| && |w.ids| <= |s.ids|
    ensures Preprocessed(m, s) == Share(Replaced(s.ids, w.ids), Replaced(s.embeds, w.embeds), w.info)
  {
    var p := Run(m, s);
    var seg := Min(|s.embeds|, |p.embeds|);
    WriteNothing(s.ids, 0, s.ids);
    Share(if p.ids.Some? && |p.ids.value| == seg && seg <= |s.ids| then p.ids.value else [],
          p.embeds[..seg], Preprocessed(m, s).info)
  }

  /** The requests among the first i that go to the talker, in order. */
  ghost function DecodeList(m: Model, shares: seq<Share>, i: nat): (d: seq<nat>)
    requires i <= |shares|
    ensures |d| <= i
  {
    if i == 0 then []
    else if Decodes(m, shares[i - 1]) then DecodeList(m, shares, i - 1) + [i - 1]
    else DecodeList(m, shares, i - 1)
  }

  lemma {:induction false} DecodeListEntry(m: Model, shares: seq<Share>, i: nat, k: nat)
    requires i <= |shares| && k < |DecodeList(m, shares, i)|
    ensures var r := DecodeList(m, shares, i)[k]; r < i && Decodes(m, shares[r])
    ensures forall j :: 0 <= j < k ==> DecodeList(m, shares, i)[j] < DecodeList(m, shares, i)[k]
  {
    var d0 := DecodeList(m, shares, i - 1);
    if k < |d0| {
      DecodeListEntry(m, shares, i - 1, k);
    } else {
      forall j | 0 <= j < k ensures d0[j] < i - 1 {
        DecodeListEntry(m, shares, i - 1, j);
      }
    }
  }

  lemma {:induction false} DecodeListHas(m: Model, shares: seq<Share>, i: nat, r: nat)
    requires r < i <= |shares| && Decodes(m, shares[r])
    ensures r in DecodeList(m, shares, i)
  {
    if r < i - 1 {
      DecodeListHas(m, shares, i - 1, r);
    }
  }

  /** It lists exactly the decoding requests, each once. */
  lemma DecodeListExact(m: Model, shares: seq<Share>, i: nat)
    requires i <= |shares|
    ensures var d := DecodeList(m, shares, i);
            && (forall k {:trigger d[k]} :: 0 <= k < |d| ==> d[k] < i && Decodes(m, shares[d[k]]))
            && (forall j, k :: 0 <= j < k < |d| ==> d[j] < d[k])
            && forall r {:trigger shares[r]} :: 0 <= r < i && Decodes(m, shares[r]) ==> r in d
  {
    var d := DecodeList(m, shares, i);
    forall k | 0 <= k < |d| ensures d[k] < i && Decodes(m, shares[d[k]]) && forall j :: 0 <= j < k ==> d[j] < d[k] {
      DecodeListEntry(m, shares, i, k);
    }
    forall r | 0 <= r < i && Decodes(m, shares[r]) ensures r in d {
      DecodeListHas(m, shares, i, r);
    }
  }

  /** The compact buffers hold the talker's input for each listed request, and
      the names are those of the listed requests. */
  ghost predicate Gathered(m: Model, reqs: seq<Req>, shares: seq<Share>, i: nat, decode: seq<Id>, rows: seq<Row>)
    requires i <= |shares| == |reqs|
  {
    var d := DecodeList(m, shares, i);
    && |rows| == |decode| == |d|
    && forall k {:trigger d[k]} {:trigger decode[k]} :: 0 <= k < |d| ==>
         && d[k] < |shares| && Decodes(m, shares[d[k]]) && Answers(m, shares[d[k]])
         && rows[k] == TalkerRow(m, shares[d[k]])
         && decode[k] == reqs[d[k]].id
  }

  lemma GatherStep(m: Model, reqs: seq<Req>, shares: seq<Share>, i: nat, decode: seq<Id>, rows: seq<Row>)
    requires i < |shares| == |reqs| && Answers(m, shares[i]) && Gathered(m, reqs, shares, i, decode, rows)
    ensures Gathered(m, reqs, shares, i + 1,
              if Decodes(m, shares[i]) then decode + [reqs[i].id] else decode,
              rows + if Decodes(m, shares[i]) then [TalkerRow(m, shares[i])] else [])
  {
    assert rows + [] == rows;
  }

  /** Every request's preprocessed share. */
  ghost function AfterPreprocess(m: Model, shares: seq<Share>, i: nat): (want: seq<Share>)
    requires forall r {:trigger shares[r]} :: 0 <= r < |shares| ==> Answers(m, shares[r])
    ensures |want| == |shares|
  {
    seq(|shares|, r requires 0 <= r < |shares| => if r < i then Preprocessed(m, shares[r]) else shares[r])
  }

  /** The shares once the talker's results for the first k listed requests are
      back. */
  ghost function AfterTalker(m: Model, shares: seq<Share>, d: seq<nat>, k: nat): (want: seq<Share>)
    requires k <= |d|
    requires forall r {:trigger shares[r]} :: 0 <= r < |shares| ==> Answers(m, shares[r])
    ensures |want| == |shares|
  {
    seq(|shares|, r requires 0 <= r < |shares| =>
      if r in d[..k] then Alone(m, shares[r]) else Preprocessed(m, shares[r]))
  }

  ghost predicate AllAnswer(m: Model, shares: seq<Share>) {
    forall r {:trigger shares[r]} :: 0 <= r < |shares| ==> Answers(m, shares[r])
  }

  /** Request i has been preprocessed on top of the first i. */
  lemma PreprocessStep(m: Model, reqs: seq<Req>, shares: seq<Share>, st: State, i: nat)
    requires AllAnswer(m, shares) && i < |shares| && SharesAre(st, reqs, AfterPreprocess(m, shares, i))
    ensures ShareOf(st, reqs[i]) == shares[i]
    ensures var w := Writes(m, shares[i]);
            var after := WriteState(st, reqs[i], w.ids, w.embeds, w.info);
            && SharesAre(after, reqs, AfterPreprocess(m, shares, i + 1))
            && SameElsewhere(st, after, reqs)
  {
    var want := AfterPreprocess(m, shares, i);
    assert want[i] == shares[i];
    var w := Writes(m, shares[i]);
    WriteShare(st, reqs, want, i, w.ids, w.embeds, w.info);
    assert want[i := Preprocessed(m, shares[i])] == AfterPreprocess(m, shares, i + 1);
  }

  /** The loop has handled the first i requests. */
  ghost predicate Handled(m: Model, reqs: seq<Req>, shares: seq<Share>, before: State, now: State, i: nat,
                          decode: seq<Id>, rows: seq<Row>) {
    && i <= |shares| == |reqs| && AllAnswer(m, shares)
    && SharesAre(now, reqs, AfterPreprocess(m, shares, i))
    && SameElsewhere(before, now, reqs)
    && Gathered(m, reqs, shares, i, decode, rows)
    && |decode| <= i
  }

  lemma HandledStart(m: Model, reqs: seq<Req>, shares: seq<Share>, before: State, rows: seq<Row>)
    requires SharesAre(before, reqs, shares) && AllAnswer(m, shares) && rows == []
    ensures Handled(m, reqs, shares, before, before, 0, [], rows)
  {
    assert AfterPreprocess(m, shares, 0) == shares;
  }

  lemma HandledStep(m: Model, reqs: seq<Req>, shares: seq<Share>, before: State, now: State, i: nat,
                    decode: seq<Id>, rows: seq<Row>)
    requires Handled(m, reqs, shares, before, now, i, decode, rows) && i < |reqs|
    ensures reqs[i].start + reqs[i].len <= |now.ids| == |now.embeds| && reqs[i].id in now.infos
    ensures ShareOf(now, reqs[i]) == shares[i]
    ensures var s := shares[i];
            var w := Writes(m, s);
            Handled(m, reqs, shares, before, WriteState(now, reqs[i], w.ids, w.embeds, w.info), i + 1,
              if Decodes(m, s) then decode + [reqs[i].id] else decode,
              rows + if Decodes(m, s) then [TalkerRow(m, s)] else [])
  {
    var w := Writes(m, shares[i]);
    PreprocessStep(m, reqs, shares, now, i);
    GatherStep(m, reqs, shares, i, decode, rows);
    ElsewhereTransitive(before, now, WriteState(now, reqs[i], w.ids, w.embeds, w.info), reqs);
  }

  /** The first k talker results are back. */
  ghost predicate Scattered(m: Model, reqs: seq<Req>, shares: seq<Share>, before: State, now: State,
                            d: seq<nat>, k: nat) {
    && |shares| == |reqs| && AllAnswer(m, shares) && k <= |d|
    && SharesAre(now, reqs, AfterTalker(m, shares, d, k))
    && SameElsewhere(before, now, reqs)
  }

  function Talked(m: Model, s: Share): (Emb, int)
    requires Decodes(m, s) && Answers(m, s)
  {
    m.talker.value(TalkerRow(m, s))
  }

  /** The info of a request with the talker's codes merged in. */
  function WithCodes(info: Info, codes: int): Info {
    info["code_predictor_codes" := Val(codes)]
  }

  /** The k-th talker result has been scattered on top of the first k. */
  lemma ScatterStep(m: Model, reqs: seq<Req>, shares: seq<Share>, before: State, st: State, d: seq<nat>, k: nat)
    requires Scattered(m, reqs, shares, before, st, d, k)
    requires k < |d| && d[k] < |shares| && Decodes(m, shares[d[k]]) && d[k] !in d[..k]
    ensures Spans(reqs, |st.embeds|) && |st.ids| == |st.embeds|
    ensures reqs[d[k]].len == 1 && reqs[d[k]].id in st.infos
    ensures var (emb, codes) := Talked(m, shares[d[k]]);
            Scattered(m, reqs, shares, before,
              WriteState(st, reqs[d[k]], [], [emb], WithCodes(st.infos[reqs[d[k]].id], codes)), d, k + 1)
  {
    var r := d[k];
    var want := AfterTalker(m, shares, d, k);
    var (emb, codes) := Talked(m, shares[r]);
    PreprocessedLength(m, shares[r]);
    assert ShareOf(st, reqs[r]) == want[r] == Preprocessed(m, shares[r]);
    var info := WithCodes(st.infos[reqs[r].id], codes);
    WriteShare(st, reqs, want, r, [], [emb], info);
    ElsewhereTransitive(before, st, WriteState(st, reqs[r], [], [emb], info), reqs);
    WriteNothing(st.ids, reqs[r].start, want[r].ids);
    assert Replaced(want[r].embeds, [emb]) == [emb];
    TalkerNext(m, shares, d, k);
  }

  lemma TalkerNext(m: Model, shares: seq<Share>, d: seq<nat>, k: nat)
    requires AllAnswer(m, shares) && k < |d| && d[k] < |shares|
    ensures AfterTalker(m, shares, d, k + 1) == AfterTalker(m, shares, d, k)[d[k] := Alone(m, shares[d[k]])]
  {
    assert d[..k + 1] == d[..k] + [d[k]];
  }

  lemma PreprocessedLength(m: Model, s: Share)
    requires Answers(m, s)
    ensures |Preprocessed(m, s).embeds| == |s.embeds|
  {
  }

  lemma HandledAlone(m: Model, reqs: seq<Req>, shares: seq<Share>, before: State, now: State)
    requires var d := DecodeList(m, shares, |shares|); Scattered(m, reqs, shares, before, now, d, |d|)
    ensures forall r {:trigger reqs[r]} :: 0 <= r < |reqs| ==> ShareOf(now, reqs[r]) == Alone(m, shares[r])
  {
    DecodeListExact(m, shares, |shares|);
    var d := DecodeList(m, shares, |shares|);
    assert d[..|d|] == d;
    assert forall r {:trigger reqs[r]} :: 0 <= r < |reqs| ==>
        ShareOf(now, reqs[r]) == AfterTalker(m, shares, d, |d|)[r];
  }

  class Preprocessor {
    const ids: array<Tok>
    const embeds: array<Emb>
    const buffers: TalkerBuffers
    var infos: map<Id, Info>

    ghost predicate Valid() {
      && buffers.Valid() && ids != embeds && ids.Length == embeds.Length
      && ids !in {buffers.tok, buffers.emb, buffers.hidden, buffers.textStep}
      && embeds !in {buffers.tok, buffers.emb, buffers.hidden, buffers.textStep}
    }

    ghost function St(): State
      reads this`infos, ids, embeds
    {
      State(ids[..], embeds[..], infos)
    }

    constructor (size: nat, capacity: nat, infos: map<Id, Info>)
      ensures Valid() && ids.Length == size && buffers.tok.Length == capacity && this.infos == infos
    {
      this.infos := infos;
      ids, embeds := new int[size], new int[size];
      buffers := new TalkerBuffers(capacity);
    }

    /** Merges an update into a request's info; unknown requests are ignored. */
    method Merge(id: Id, update: Info)
      modifies this`infos
      ensures infos == if id in old(infos) then old(infos)[id := old(infos)[id] + update] else old(infos)
    {
      if id in infos {
        infos := infos[id := infos[id] + update];
      }
    }

    /** Writes rows at the start of a span and merges the owner's info. */
    method Apply(q: Req, idRows: seq<Tok>, embedRows: seq<Emb>, update: Info)
      requires Valid() && q.start + |idRows| <= ids.Length && q.start + |embedRows| <= embeds.Length && q.id in infos
      modifies this`infos, ids, embeds
      ensures St() == WriteState(old(St()), q, idRows, embedRows, old(infos)[q.id] + update)
    {
      Merge(q.id, update);
      WriteRows(embeds, q.start, embedRows);
      WriteRows(ids, q.start, idRows);
    }

    /** Preprocesses one request and, when it decodes, gathers its talker input. */
    method PreprocessOne(m: Model, q: Req, decode: seq<Id>) returns (grown: seq<Id>)
      requires Valid() && |decode| < buffers.tok.Length
      requires q.start + q.len <= ids.Length && q.id in infos && Answers(m, ShareOf(St(), q))
      modifies this`infos, ids, embeds, buffers.tok, buffers.emb, buffers.hidden, buffers.textStep
      ensures var s := ShareOf(old(St()), q);
              var w := Writes(m, s);
              && St() == WriteState(old(St()), q, w.ids, w.embeds, w.info)
              && grown == (if Decodes(m, s) then decode + [q.id] else decode)
              && buffers.Rows(|grown|) == old(buffers.Rows(|decode|)) + if Decodes(m, s) then [TalkerRow(m, s)] else []
    {
      ghost var s := ShareOf(St(), q);
      var p := m.preprocess(ids[q.start..q.start + q.len], embeds[q.start..q.start + q.len], infos[q.id]);
      var update := p.update;
      grown := decode;
      assert p == Run(m, s);
      if m.talker.Some? && q.len == 1 {
        var mtp := update["mtp_inputs"];
        update := update - {"mtp_inputs"};
        buffers.Put(|decode|, Row(p.ids.value[0], p.embeds[0], mtp.hidden, mtp.textStep));
        grown := grown + [q.id];
      }
      var seg := Min(q.len, |p.embeds|);
      var writesIds := p.ids.Some? && |p.ids.value| == seg;
      Apply(q, if writesIds then p.ids.value else [], p.embeds[..seg], update);
    }

    /** Puts one talker result at its request's start and its codes in the
        request's info. */
    method ScatterOne(reqs: seq<Req>, id: Id, emb: Emb, codes: int, ghost r: nat)
      requires Valid() && Spans(reqs, embeds.Length) && id in infos
      requires r < |reqs| && reqs[r].id == id && reqs[r].len == 1
      modifies this`infos, embeds
      ensures St() == WriteState(old(St()), reqs[r], [], [emb], WithCodes(old(infos)[id], codes))
    {
      var reqIndex := 0;
      while reqs[reqIndex].id != id
        invariant reqIndex <= r
        decreases r - reqIndex
      {
        reqIndex := reqIndex + 1;
      }
      assert reqIndex == r;
      ghost var before := St();
      var at := reqs[reqIndex].start;
      embeds[at] := emb;
      Merge(id, map["code_predictor_codes" := Val(codes)]);
      assert before.infos[id] + map["code_predictor_codes" := Val(codes)] == WithCodes(before.infos[id], codes);
      WriteNothing(before.ids, at, []);
      assert embeds[..] == Write(before.embeds, at, [emb]);
    }

    method PreprocessNext(m: Model, reqs: seq<Req>, i: nat, decode: seq<Id>, ghost shares: seq<Share>,
                          ghost before: State)
      returns (grown: seq<Id>)
      requires Valid() && i < |reqs| <= buffers.tok.Length && |decode| < buffers.tok.Length
      requires Handled(m, reqs, shares, before, St(), i, decode, buffers.Rows(|decode|))
      modifies this`infos, ids, embeds, buffers.tok, buffers.emb, buffers.hidden, buffers.textStep
      ensures |grown| <= buffers.tok.Length
      ensures Handled(m, reqs, shares, before, St(), i + 1, grown, buffers.Rows(|grown|))
    {
      HandledStep(m, reqs, shares, before, St(), i, decode, buffers.Rows(|decode|));
      grown := PreprocessOne(m, reqs[i], decode);
    }

    /** The preprocessing loop over the batch. */
    method PreprocessAll(m: Model, reqs: seq<Req>, ghost shares: seq<Share>) returns (decode: seq<Id>)
      requires Valid() && |reqs| <= buffers.tok.Length
      requires SharesAre(St(), reqs, shares) && AllAnswer(m, shares)
      modifies this`infos, ids, embeds, buffers.tok, buffers.emb, buffers.hidden, buffers.textStep
      ensures |decode| <= buffers.tok.Length
      ensures Handled(m, reqs, shares, old(St()), St(), |reqs|, decode, buffers.Rows(|decode|))
    {
      decode := [];
      ghost var before := St();
      HandledStart(m, reqs, shares, before, buffers.Rows(0));
      for i := 0 to |reqs|
        invariant |decode| <= buffers.tok.Length
        invariant Handled(m, reqs, shares, before, St(), i, decode, buffers.Rows(|decode|))
      {
        decode := PreprocessNext(m, reqs, i, decode, shares, before);
      }
    }

    method ScatterNext(m: Model, reqs: seq<Req>, id: Id, emb: Emb, codes: int,
                       ghost shares: seq<Share>, ghost before: State, ghost d: seq<nat>, ghost k: nat)
      requires Valid() && Scattered(m, reqs, shares, before, St(), d, k)
      requires k < |d| && d[k] < |shares| && Decodes(m, shares[d[k]]) && d[k] !in d[..k]
      requires reqs[d[k]].id == id && (emb, codes) == Talked(m, shares[d[k]])
      modifies this`infos, embeds
      ensures Scattered(m, reqs, shares, before, St(), d, k + 1)
    {
      ScatterStep(m, reqs, shares, before, St(), d, k);
      ScatterOne(reqs, id, emb, codes, d[k]);
    }

    /** The padded batch run gives each gathered request its own result. */
    method RunGathered(m: Model, decode: seq<Id>, padded: nat, ghost reqs: seq<Req>, ghost shares: seq<Share>)
      returns (embs: seq<Emb>, codes: seq<int>)
      requires Valid() && m.talker.Some? && |decode| <= padded <= buffers.tok.Length && |shares| == |reqs|
      requires Gathered(m, reqs, shares, |reqs|, decode, buffers.Rows(|decode|))
      ensures |embs| >= |decode| && |codes| >= |decode|
      ensures var d := DecodeList(m, shares, |reqs|);
              |d| == |decode| && forall k {:trigger d[k]} :: 0 <= k < |d| ==>
                && d[k] < |shares| && Decodes(m, shares[d[k]]) && Answers(m, shares[d[k]])
                && (embs[k], codes[k]) == Talked(m, shares[d[k]])
    {
      embs, codes := buffers.RunTalker(m.talker.value, padded);
      assert forall k :: 0 <= k < |decode| ==> buffers.Rows(padded)[k] == buffers.Rows(|decode|)[k];
    }

    /** The talker over the gathered requests, as one padded batch. */
    method TalkerForward(m: Model, reqs: seq<Req>, decode: seq<Id>, padded: nat, ghost shares: seq<Share>,
                         ghost before: State)
      requires Valid() && m.talker.Some? && |decode| <= padded <= buffers.tok.Length
      requires Handled(m, reqs, shares, before, St(), |reqs|, decode, buffers.Rows(|decode|))
      modifies this`infos, embeds
      ensures var d := DecodeList(m, shares, |reqs|); Scattered(m, reqs, shares, before, St(), d, |d|)
    {
      ghost var d := DecodeList(m, shares, |reqs|);
      DecodeListExact(m, shares, |reqs|);
      assert AfterPreprocess(m, shares, |reqs|) == AfterTalker(m, shares, d, 0);
      if |decode| == 0 {
        return;
      }
      var embs, codes := RunGathered(m, decode, padded, reqs, shares);
      for k := 0 to |decode|
        invariant Scattered(m, reqs, shares, before, St(), d, k)
      {
        ScatterNext(m, reqs, decode[k], embs[k], codes[k], shares, before, d, k);
      }
    }

    /** The whole step: every request ends exactly as if it had been handled on
        its own, with what the model returned for it, and nothing else changes. */
    method Step(m: Model, reqs: seq<Req>, pad: nat -> nat)
      requires Valid() && |reqs| <= buffers.tok.Length
      requires forall n :: 0 <= n <= |reqs| ==> n <= pad(n) <= buffers.tok.Length
      requires StateOk(St(), reqs) && AllAnswer(m, SharesOf(St(), reqs))
      modifies this`infos, ids, embeds, buffers.tok, buffers.emb, buffers.hidden, buffers.textStep
      ensures StateOk(St(), reqs) && SameElsewhere(old(St()), St(), reqs)
      ensures forall r {:trigger reqs[r]} :: 0 <= r < |reqs| ==>
                && Answers(m, ShareOf(old(St()), reqs[r]))
                && ShareOf(St(), reqs[r]) == Alone(m, ShareOf(old(St()), reqs[r]))
      ensures forall r {:trigger reqs[r]} :: 0 <= r < |reqs| ==>
                Outcome(m, ShareOf(old(St()), reqs[r]), ShareOf(St(), reqs[r]))
    {
      ghost var before := St();
      ghost var shares := SharesOf(before, reqs);
      var decode := PreprocessAll(m, reqs, shares);
      if m.talker.Some? {
        TalkerForward(m, reqs, decode, pad(|decode|), shares, before);
        HandledAlone(m, reqs, shares, before, St());
      }
      forall r {:trigger reqs[r]} | 0 <= r < |reqs| ensures Outcome(m, shares[r], Alone(m, shares[r])) {
        AloneOutcome(m, shares[r]);
      }
    }
  }
}
