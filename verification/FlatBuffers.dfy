/** The flattened per-step token buffers: each request owns one span, and the
    prefill overlay, the preprocessing loop and the batched talker write into
    the spans in place. */
module FlatBuffers {
  import opened Common

  type Id = string
  type Tok = int
  /** One embedding row. */
  type Emb = int

  /** A request of the batch and its span of the flattened sequence. */
  datatype Req = Req(id: Id, start: nat, len: nat)

  /** Spans lie in the buffer, one behind the other, for distinct requests. */
  ghost predicate Spans(reqs: seq<Req>, size: nat) {
    && (forall r {:trigger reqs[r]} :: 0 <= r < |reqs| ==> reqs[r].start + reqs[r].len <= size)
    && (forall r, q {:trigger reqs[r], reqs[q]} :: 0 <= r < q < |reqs| ==>
          reqs[r].start + reqs[r].len <= reqs[q].start && reqs[r].id != reqs[q].id)
  }

  function SpanOf(s: seq<int>, q: Req): seq<int>
    requires q.start + q.len <= |s|
  {
    s[q.start..q.start + q.len]
  }

  predicate InSpan(q: Req, pos: int) {
    q.start <= pos < q.start + q.len
  }

  /** s with part written at a position. */
  function Write(s: seq<int>, at: nat, part: seq<int>): seq<int>
    requires at + |part| <= |s|
  {
    s[..at] + part + s[at + |part|..]
  }

  method WriteRows(a: array<int>, at: nat, part: seq<int>)
    requires at + |part| <= a.Length
    modifies a
    ensures a[..] == Write(old(a[..]), at, part)
  {
    for j := 0 to |part|
      invariant a[..] == Write(old(a[..]), at, part[..j])
    {
      a[at + j] := part[j];
      assert part[..j + 1] == part[..j] + [part[j]];
    }
    assert part[..|part|] == part;
  }

  /** The spans of a buffer hold the given rows. */
  ghost predicate SpansAre(s: seq<int>, reqs: seq<Req>, want: seq<seq<int>>) {
    && Spans(reqs, |s|) && |want| == |reqs|
    && forall r {:trigger reqs[r]} :: 0 <= r < |reqs| ==> SpanOf(s, reqs[r]) == want[r]
  }

  /** Two buffers agree at every position outside the spans. */
  ghost predicate SameOutside(a: seq<int>, b: seq<int>, reqs: seq<Req>) {
    && |a| == |b|
    && forall pos {:trigger a[pos]} {:trigger b[pos]} ::
         0 <= pos < |a| && (forall r :: 0 <= r < |reqs| ==> !InSpan(reqs[r], pos)) ==> a[pos] == b[pos]
  }

  function SpansOf(s: seq<int>, reqs: seq<Req>): (rows: seq<seq<int>>)
    requires Spans(reqs, |s|)
    ensures SpansAre(s, reqs, rows)
  {
    seq(|reqs|, r requires 0 <= r < |reqs| => SpanOf(s, reqs[r]))
  }

  /** The rows of a span once its first rows have been replaced. */
  function Replaced(rows: seq<int>, part: seq<int>): seq<int>
    requires |part| <= |rows|
  {
    part + rows[|part|..]
  }

  /** Writing at the start of one span replaces that many of its first rows;
      every other span and everything outside the spans stays as it was. */
  lemma WriteInSpan(s: seq<int>, reqs: seq<Req>, want: seq<seq<int>>, i: nat, part: seq<int>)
    requires SpansAre(s, reqs, want) && i < |reqs| && |part| <= reqs[i].len
    ensures SpansAre(Write(s, reqs[i].start, part), reqs, want[i := Replaced(want[i], part)])
    ensures SameOutside(s, Write(s, reqs[i].start, part), reqs)
  {
    var after := Write(s, reqs[i].start, part);
    forall r {:trigger reqs[r]} | 0 <= r < |reqs|
      ensures SpanOf(after, reqs[r]) == if r == i then Replaced(want[i], part) else want[r]
    {
      WriteHere(s, part, reqs[i]);
      if r != i {
        WriteElsewhere(s, reqs[i].start, part, reqs[r]);
      }
    }
    forall pos | 0 <= pos < |s| && (forall r :: 0 <= r < |reqs| ==> !InSpan(reqs[r], pos))
      ensures s[pos] == after[pos]
    {
      assert !InSpan(reqs[i], pos);
    }
  }

  lemma OutsideTransitive(a: seq<int>, b: seq<int>, c: seq<int>, reqs: seq<Req>)
    requires SameOutside(a, b, reqs) && SameOutside(b, c, reqs)
    ensures SameOutside(a, c, reqs)
  {
  }

  /** Writing inside one span leaves every other span as it was. */
  lemma WriteElsewhere(s: seq<int>, at: nat, part: seq<int>, q: Req)
    requires at + |part| <= |s| && q.start + q.len <= |s|
    requires q.start + q.len <= at || at + |part| <= q.start
    ensures SpanOf(Write(s, at, part), q) == SpanOf(s, q)
  {
  }

  /** Writing at the start of a span replaces that many of its first rows. */
  lemma WriteHere(s: seq<int>, part: seq<int>, q: Req)
    requires q.start + q.len <= |s| && |part| <= q.len
    ensures SpanOf(Write(s, q.start, part), q) == Replaced(SpanOf(s, q), part)
  {
  }

  // -------------------------------------------------------- prefill overlay

  /** The state of a request as the overlay reads it. */
  datatype Prefill = Prefill(promptLen: nat, numComputed: nat, promptEmbeds: Option<seq<Emb>>)

  function OverlayLen(f: Prefill, sched: nat): nat {
    Min(sched, Max(0, f.promptLen - f.numComputed))
  }

  /** The rows of this step's chunk that come from the prompt embeddings. */
  function Overlay(f: Prefill, sched: nat): (part: seq<Emb>)
    requires f.promptEmbeds.Some? ==> |f.promptEmbeds.value| == f.promptLen
    ensures |part| <= sched
  {
    if f.promptEmbeds.None? || OverlayLen(f, sched) == 0 then []
    else f.promptEmbeds.value[f.numComputed..f.numComputed + OverlayLen(f, sched)]
  }

  ghost predicate PrefillOk(fs: seq<Prefill>) {
    forall r {:trigger fs[r]} :: 0 <= r < |fs| && fs[r].promptEmbeds.Some? ==>
        |fs[r].promptEmbeds.value| == fs[r].promptLen
  }

  /** What one overlay pass leaves in the buffer. */
  ghost predicate Overlaid(before: seq<Emb>, after: seq<Emb>, reqs: seq<Req>, fs: seq<Prefill>)
    requires Spans(reqs, |before|) && |fs| == |reqs| && PrefillOk(fs)
  {
    && SameOutside(before, after, reqs)
    && forall r {:trigger reqs[r]} :: 0 <= r < |reqs| ==>
         SpanOf(after, reqs[r]) == Replaced(SpanOf(before, reqs[r]), Overlay(fs[r], reqs[r].len))
  }

  /** The first i requests are overlaid, the others are as before. */
  ghost predicate OverlaidUpTo(before: seq<Emb>, now: seq<Emb>, reqs: seq<Req>, fs: seq<Prefill>, i: nat)
    requires Spans(reqs, |before|) && |fs| == |reqs| && PrefillOk(fs)
  {
    && SameOutside(before, now, reqs)
    && forall r {:trigger reqs[r]} :: 0 <= r < |reqs| ==>
         SpanOf(now, reqs[r]) == if r < i then Replaced(SpanOf(before, reqs[r]), Overlay(fs[r], reqs[r].len))
                                 else SpanOf(before, reqs[r])
  }

  lemma OverlayNext(before: seq<Emb>, now: seq<Emb>, reqs: seq<Req>, fs: seq<Prefill>, i: nat)
    requires Spans(reqs, |before|) && |fs| == |reqs| && PrefillOk(fs) && i < |reqs|
    requires OverlaidUpTo(before, now, reqs, fs, i)
    ensures var part := Overlay(fs[i], reqs[i].len);
            && reqs[i].start + |part| <= |now|
            && OverlaidUpTo(before, Write(now, reqs[i].start, part), reqs, fs, i + 1)
  {
    var part := Overlay(fs[i], reqs[i].len);
    var want := SpansOf(now, reqs);
    var after := Write(now, reqs[i].start, part);
    WriteInSpan(now, reqs, want, i, part);
    OutsideTransitive(before, now, after, reqs);
    forall r {:trigger reqs[r]} | 0 <= r < |reqs|
      ensures SpanOf(after, reqs[r]) == if r < i + 1 then Replaced(SpanOf(before, reqs[r]), Overlay(fs[r], reqs[r].len))
                                        else SpanOf(before, reqs[r])
    {
      assert SpanOf(after, reqs[r]) == want[i := Replaced(want[i], part)][r];
    }
  }

  lemma WriteNothing(s: seq<int>, at: nat, rows: seq<int>)
    requires at <= |s|
    ensures Write(s, at, []) == s && Replaced(rows, []) == rows
  {
  }

  /** Overlays the prompt embeddings of one request. */
  method OverlayRequest(embeds: array<Emb>, q: Req, f: Prefill)
    requires f.promptEmbeds.Some? ==> |f.promptEmbeds.value| == f.promptLen
    requires q.start + q.len <= embeds.Length
    modifies embeds
    ensures embeds[..] == Write(old(embeds[..]), q.start, Overlay(f, q.len))
  {
    var overlayLen := OverlayLen(f, q.len);
    WriteNothing(embeds[..], q.start, []);
    if overlayLen > 0 && f.promptEmbeds.Some? {
      WriteRows(embeds, q.start, f.promptEmbeds.value[f.numComputed..f.numComputed + overlayLen]);
    }
  }

  /** Overlays the prompt embeddings of every request on its span. Each span
      starts with the overlay and is otherwise unchanged, and so is everything
      outside the spans: decode positions are never written. */
  method CollectForPrefill(embeds: array<Emb>, reqs: seq<Req>, fs: seq<Prefill>)
    requires Spans(reqs, embeds.Length) && |fs| == |reqs| && PrefillOk(fs)
    modifies embeds
    ensures Overlaid(old(embeds[..]), embeds[..], reqs, fs)
  {
    ghost var before := embeds[..];
    for i := 0 to |reqs|
      invariant OverlaidUpTo(before, embeds[..], reqs, fs, i)
    {
      OverlayNext(before, embeds[..], reqs, fs, i);
      OverlayRequest(embeds, reqs[i], fs[i]);
    }
  }

  // -------------------------------------------------- the overlay's writes

  /** The pass writes prompt row `row` of the request at a position: the token
      of that row is the one at the position, and both the chunk and the
      prompt contain it. */
  predicate OverlayWrites(q: Req, f: Prefill, pos: int, row: int) {
    f.promptEmbeds.Some? && row == f.numComputed + (pos - q.start) && 0 <= pos - q.start < OverlayLen(f, q.len)
  }

  /** A written position holds its row of the request's own prompt embeddings;
      it lies in the request's span and no other, and is no decode position. */
  lemma WrittenRow(before: seq<Emb>, after: seq<Emb>, reqs: seq<Req>, fs: seq<Prefill>, r: nat, pos: nat, row: nat)
    requires Spans(reqs, |before|) && |fs| == |reqs| && PrefillOk(fs) && Overlaid(before, after, reqs, fs)
    requires r < |reqs| && OverlayWrites(reqs[r], fs[r], pos, row)
    ensures fs[r].numComputed <= row < fs[r].promptLen && pos < |after| && after[pos] == fs[r].promptEmbeds.value[row]
    ensures forall k :: 0 <= k < |reqs| ==> (InSpan(reqs[k], pos) <==> k == r)
  {
    var part := Overlay(fs[r], reqs[r].len);
    assert after[pos] == SpanOf(after, reqs[r])[pos - reqs[r].start] == part[pos - reqs[r].start];
  }

  lemma UnwrittenInSpan(before: seq<Emb>, after: seq<Emb>, q: Req, f: Prefill, pos: nat)
    requires q.start + q.len <= |before| == |after| && InSpan(q, pos)
    requires f.promptEmbeds.Some? ==> |f.promptEmbeds.value| == f.promptLen
    requires SpanOf(after, q) == Replaced(SpanOf(before, q), Overlay(f, q.len))
    requires !OverlayWrites(q, f, pos, f.numComputed + (pos - q.start))
    ensures after[pos] == before[pos]
  {
    var k := pos - q.start;
    assert after[pos] == SpanOf(after, q)[k] && before[pos] == SpanOf(before, q)[k];
  }

  /** Every other position keeps its value. */
  lemma UnwrittenStays(before: seq<Emb>, after: seq<Emb>, reqs: seq<Req>, fs: seq<Prefill>, pos: nat)
    requires Spans(reqs, |before|) && |fs| == |reqs| && PrefillOk(fs) && Overlaid(before, after, reqs, fs)
    requires pos < |before| && forall r, row: nat :: 0 <= r < |reqs| ==> !OverlayWrites(reqs[r], fs[r], pos, row)
    ensures after[pos] == before[pos]
  {
    if r :| 0 <= r < |reqs| && InSpan(reqs[r], pos) {
      UnwrittenInSpan(before, after, reqs[r], fs[r], pos);
    }
  }

  // ----------------------------------------- chunks over the whole prefill

  /** One step of a run: the batch, the buffer before and after the pass, and
      where in the batch the observed request is. */
  datatype PrefillStep = PrefillStep(reqs: seq<Req>, fs: seq<Prefill>, before: seq<Emb>, after: seq<Emb>, at: nat)
  {
    predicate Placed() {
      at < |reqs| == |fs|
    }

    ghost predicate Valid() {
      && Placed() && Spans(reqs, |before|) && PrefillOk(fs)
      && Overlaid(before, after, reqs, fs)
    }

    function Own(): Req
      requires Placed()
    {
      reqs[at]
    }

    function Prefill(): Prefill
      requires Placed()
    {
      fs[at]
    }
  }

  ghost predicate AllPlaced(steps: seq<PrefillStep>) {
    forall i {:trigger steps[i]} :: 0 <= i < |steps| ==> steps[i].Placed()
  }

  /** The chunk sizes of the observed request. */
  ghost function Chunks(steps: seq<PrefillStep>): (chunks: seq<nat>)
    requires AllPlaced(steps)
    ensures |chunks| == |steps|
  {
    seq(|steps|, i requires 0 <= i < |steps| => steps[i].Own().len)
  }

  /** A prefill run: each step the request is scheduled with some chunk of its
      tokens, and counts as computed what the chunks before it covered. */
  ghost predicate PrefillRun(steps: seq<PrefillStep>, base: nat, prompt: seq<Emb>) {
    && AllPlaced(steps)
    && forall i {:trigger steps[i]} :: 0 <= i < |steps| ==>
         steps[i].Prefill() == Prefill(|prompt|, base + Start(Chunks(steps), i), Some(prompt))
  }

  /** Step i writes the request's row at a position of its buffer. */
  ghost predicate WritesRow(steps: seq<PrefillStep>, i: nat, pos: int, row: int) {
    i < |steps| && steps[i].Placed() && OverlayWrites(steps[i].Own(), steps[i].Prefill(), pos, row)
  }

  /** Token `row` is in chunk i and a prompt row. */
  ghost predicate InChunk(chunks: seq<nat>, base: nat, len: nat, i: nat, row: int) {
    && i < |chunks| && row < len
    && base + Start(chunks, i) <= row < base + Start(chunks, i) + chunks[i]
  }

  /** The flat position of that token in step i. */
  ghost function FlatPosition(steps: seq<PrefillStep>, base: nat, i: nat, row: int): int
    requires AllPlaced(steps) && i < |steps|
  {
    steps[i].Own().start + (row - (base + Start(Chunks(steps), i)))
  }

  /** A step writes the prompt rows of its chunk, at their flat positions. */
  lemma WritesChunk(steps: seq<PrefillStep>, base: nat, prompt: seq<Emb>, i: nat, pos: int, row: int)
    requires PrefillRun(steps, base, prompt) && i < |steps|
    ensures WritesRow(steps, i, pos, row) <==>
            InChunk(Chunks(steps), base, |prompt|, i, row) && pos == FlatPosition(steps, base, i, row)
  {
    assert steps[i].Prefill() == Prefill(|prompt|, base + Start(Chunks(steps), i), Some(prompt));
  }

  /** Under any split into chunks, a row is written by exactly one step, at one
      position, its token's flat position, when it is a prompt row the chunks
      reach, and by none otherwise. */
  lemma RowsWrittenOnce(steps: seq<PrefillStep>, base: nat, prompt: seq<Emb>, row: nat)
    requires PrefillRun(steps, base, prompt)
    ensures base <= row < |prompt| && row < base + Sum(Chunks(steps)) ==>
              exists i: nat :: i < |steps| && OnlyWrite(steps, i, FlatPosition(steps, base, i, row), row)
    ensures !(base <= row < |prompt| && row < base + Sum(Chunks(steps))) ==>
              forall i: nat, pos: int :: !WritesRow(steps, i, pos, row)
  {
    var chunks := Chunks(steps);
    if base <= row < |prompt| && row < base + Sum(chunks) {
      var i := SpanOfRow(chunks, row - base);
      WrittenOnlyThere(steps, base, prompt, i, row);
    } else {
      forall i: nat, pos: int ensures !WritesRow(steps, i, pos, row) {
        if i < |steps| {
          WritesChunk(steps, base, prompt, i, pos, row);
          StartGrows(chunks, i, |chunks|);
          assert chunks[..|chunks|] == chunks;
        }
      }
    }
  }

  /** Step i, and no other, writes the row, there and nowhere else. */
  ghost predicate OnlyWrite(steps: seq<PrefillStep>, i: nat, pos: int, row: int) {
    forall j: nat, q: int :: WritesRow(steps, j, q, row) <==> j == i && q == pos
  }

  lemma WrittenOnlyThere(steps: seq<PrefillStep>, base: nat, prompt: seq<Emb>, i: nat, row: nat)
    requires PrefillRun(steps, base, prompt) && InChunk(Chunks(steps), base, |prompt|, i, row)
    ensures OnlyWrite(steps, i, FlatPosition(steps, base, i, row), row)
  {
    var pos := FlatPosition(steps, base, i, row);
    forall j: nat, q: int ensures WritesRow(steps, j, q, row) <==> j == i && q == pos {
      if j < |steps| {
        WritesChunk(steps, base, prompt, j, q, row);
        if j < i {
          StartGrows(Chunks(steps), j, i);
        } else if i < j {
          StartGrows(Chunks(steps), i, j);
        }
      }
    }
  }

  /** After the step that writes it, the buffer holds the row at the flat
      position of its token, in the request's span and in no other. */
  lemma RowInPlace(steps: seq<PrefillStep>, base: nat, prompt: seq<Emb>, i: nat, row: nat)
    requires PrefillRun(steps, base, prompt) && InChunk(Chunks(steps), base, |prompt|, i, row) && steps[i].Valid()
    ensures var pos := FlatPosition(steps, base, i, row);
            && 0 <= pos < |steps[i].after| && steps[i].after[pos] == prompt[row]
            && forall k :: 0 <= k < |steps[i].reqs| ==> (InSpan(steps[i].reqs[k], pos) <==> k == steps[i].at)
  {
    var s, pos := steps[i], FlatPosition(steps, base, i, row);
    WritesChunk(steps, base, prompt, i, pos, row);
    WrittenRow(s.before, s.after, s.reqs, s.fs, s.at, pos, row);
  }
}
