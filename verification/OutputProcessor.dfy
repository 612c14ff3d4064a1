/** The request state behind the engine's output processor: it accumulates
    multimodal payloads and decides which tokens each call emits. */
module OutputProcessors {
  import opened Common
  import opened Multimodal

  // ---------------------------------------------------------- request state

  datatype OutputKind = Cumulative | Delta | FinalOnly

  /** A request output: the token ids it carries and the attached dictionary. */
  datatype Output = Output(tokens: seq<int>, multimodal: Option<Acc>, finished: bool)

  /** What one call emits: nothing, or the tokens of an output. */
  function Emitted(kind: OutputKind, interval: nat, all: seq<int>, sent: nat, newTokens: seq<int>,
                   finished: bool): Option<seq<int>>
    requires sent <= |all|
  {
    if !finished && kind == FinalOnly then None
    else if interval > 1 && !(finished || sent == 0 || |all| - sent >= interval) then None
    else if kind != Delta then Some(all)
    else if interval > 1 then Some(all[sent..]) else Some(newTokens)
  }

  function SentAfter(kind: OutputKind, interval: nat, all: seq<int>, sent: nat, newTokens: seq<int>,
                     finished: bool): nat
    requires sent <= |all|
  {
    var emits := Emitted(kind, interval, all, sent, newTokens, finished).Some?;
    if kind == Delta && interval > 1 && emits then |all| else sent
  }

  // -------------------------------------------------------- delta streaming

  /** One call: the newly generated tokens, and whether the request finished. */
  datatype Call = Call(tokens: seq<int>, finished: bool)

  /** All tokens so far, how many were sent, and the deltas emitted. */
  datatype Stream = Stream(all: seq<int>, sent: nat, deltas: seq<seq<int>>)

  function StreamStep(interval: nat, s: Stream, c: Call): (r: Stream)
    requires s.sent <= |s.all|
    ensures r.sent <= |r.all|
  {
    var all := s.all + c.tokens;
    var e := Emitted(Delta, interval, all, s.sent, c.tokens, c.finished);
    Stream(all, SentAfter(Delta, interval, all, s.sent, c.tokens, c.finished),
           if e.Some? then s.deltas + [e.value] else s.deltas)
  }

  function StreamRun(interval: nat, calls: seq<Call>): (r: Stream)
    ensures r.sent <= |r.all|
  {
    if calls == [] then Stream([], 0, [])
    else StreamStep(interval, StreamRun(interval, calls[..|calls| - 1]), calls[|calls| - 1])
  }

  function Generated(calls: seq<Call>): seq<int> {
    if calls == [] then [] else Generated(calls[..|calls| - 1]) + calls[|calls| - 1].tokens
  }

  /** The deltas so far hold all tokens that count as sent, and fewer than
      `interval` tokens are pending. */
  ghost predicate Balanced(interval: nat, s: Stream) {
    && s.sent <= |s.all|
    && Concat(s.deltas) == (if interval > 1 then s.all[..s.sent] else s.all)
    && (interval > 1 ==> |s.all| - s.sent < interval)
  }

  lemma StreamStepBalanced(interval: nat, s: Stream, c: Call)
    requires Balanced(interval, s)
    ensures Balanced(interval, StreamStep(interval, s, c))
    ensures c.finished ==> Concat(StreamStep(interval, s, c).deltas) == s.all + c.tokens
  {
    var all := s.all + c.tokens;
    assert all[..s.sent] == s.all[..s.sent];
    assert all[..s.sent] + all[s.sent..] == all && all[..|all|] == all;
    ConcatAppend(s.deltas, all[s.sent..]);
    ConcatAppend(s.deltas, c.tokens);
  }

  /** The deltas are consecutive slices of the generated tokens. After a
      suppressed call fewer than `interval` tokens are pending, after an
      emission none are; so a finished request has emitted everything. */
  lemma {:induction false} DeltasConserve(interval: nat, calls: seq<Call>)
    ensures StreamRun(interval, calls).all == Generated(calls) && Balanced(interval, StreamRun(interval, calls))
    ensures calls != [] && calls[|calls| - 1].finished ==> Concat(StreamRun(interval, calls).deltas) == Generated(calls)
  {
    if calls != [] {
      DeltasConserve(interval, calls[..|calls| - 1]);
      StreamStepBalanced(interval, StreamRun(interval, calls[..|calls| - 1]), calls[|calls| - 1]);
    }
  }

  /** No call follows one that finished the request. */
  ghost predicate FinishesLast(calls: seq<Call>) {
    forall k :: 0 <= k < |calls| - 1 ==> !calls[k].finished
  }

  /** Each of the deltas, the last one perhaps excepted, brings at least
      `interval` tokens, unless nothing had been sent before it. */
  ghost predicate Spaced(interval: nat, deltas: seq<seq<int>>, last: bool) {
    forall k {:trigger deltas[k]} :: 0 <= k < |deltas| - (if last then 1 else 0) ==>
      Concat(deltas[..k]) == [] || |deltas[k]| >= interval
  }

  lemma SpacedNext(interval: nat, s: Stream, c: Call)
    requires interval > 1 && Balanced(interval, s) && Spaced(interval, s.deltas, false)
    ensures Spaced(interval, StreamStep(interval, s, c).deltas, c.finished)
  {
    var t := StreamStep(interval, s, c);
    forall k {:trigger t.deltas[k]} | 0 <= k < |t.deltas| - (if c.finished then 1 else 0)
      ensures Concat(t.deltas[..k]) == [] || |t.deltas[k]| >= interval
    {
      assert t.deltas[..k] == s.deltas[..k];
      assert k == |s.deltas| ==> s.deltas[..k] == s.deltas;
    }
  }

  /** Over any run, every delta brings at least `interval` tokens, unless it
      finishes the request or nothing had been sent before it. */
  lemma {:induction false} DeltasSpaced(interval: nat, calls: seq<Call>)
    requires interval > 1 && FinishesLast(calls)
    ensures Spaced(interval, StreamRun(interval, calls).deltas, calls != [] && calls[|calls| - 1].finished)
  {
    if calls != [] {
      var before := calls[..|calls| - 1];
      assert before != [] ==> !before[|before| - 1].finished;
      DeltasConserve(interval, before);
      DeltasSpaced(interval, before);
      SpacedNext(interval, StreamRun(interval, before), calls[|calls| - 1]);
    }
  }

  /** A run of calls in any output mode: what was sent, and what the last call
      emitted. */
  ghost function SentBy(kind: OutputKind, interval: nat, calls: seq<Call>): (sent: nat)
    ensures sent <= |Generated(calls)|
  {
    if calls == [] then 0
    else
      var before, c := calls[..|calls| - 1], calls[|calls| - 1];
      SentAfter(kind, interval, Generated(calls), SentBy(kind, interval, before), c.tokens, c.finished)
  }

  ghost function EmittedBy(kind: OutputKind, interval: nat, calls: seq<Call>): Option<seq<int>>
    requires calls != []
  {
    var before, c := calls[..|calls| - 1], calls[|calls| - 1];
    assert |Generated(before)| <= |Generated(calls)|;
    Emitted(kind, interval, Generated(calls), SentBy(kind, interval, before), c.tokens, c.finished)
  }

  /** Outside delta mode nothing ever counts as sent, so the interval has no
      effect: a cumulative request emits all its tokens at every call, and a
      final-only one emits them once, when it finishes. */
  lemma {:induction false} WholeOutputs(kind: OutputKind, interval: nat, calls: seq<Call>)
    requires kind != Delta
    ensures SentBy(kind, interval, calls) == 0
    ensures calls != [] ==>
              EmittedBy(kind, interval, calls)
              == if kind == Cumulative || calls[|calls| - 1].finished then Some(Generated(calls)) else None
  {
    if calls != [] {
      WholeOutputs(kind, interval, calls[..|calls| - 1]);
    }
  }

  /** In delta mode this is the stream of deltas. */
  lemma {:induction false} DeltaOutputs(interval: nat, calls: seq<Call>)
    ensures StreamRun(interval, calls).all == Generated(calls)
    ensures StreamRun(interval, calls).sent == SentBy(Delta, interval, calls)
    ensures calls != [] ==>
              var e := EmittedBy(Delta, interval, calls);
              StreamRun(interval, calls).deltas
              == StreamRun(interval, calls[..|calls| - 1]).deltas + if e.Some? then [e.value] else []
  {
    if calls != [] {
      DeltaOutputs(interval, calls[..|calls| - 1]);
    }
  }

  /** The merge loops: the keys still to do are as before, the others merged. */
  ghost predicate NestedSoFar(existing: map<string, Leaf>, v: map<string, Leaf>, todo: set<string>,
                              merged: map<string, Leaf>) {
    && todo <= v.Keys && merged.Keys == existing.Keys + (v.Keys - todo)
    && forall k {:trigger merged[k]} :: k in merged ==>
         merged[k] == (if k !in existing then v[k]
                       else if k in v && k !in todo then Join(Deferred, existing[k], v[k]) else existing[k])
  }

  lemma NestedStep(existing: map<string, Leaf>, v: map<string, Leaf>, todo: set<string>,
                   merged: map<string, Leaf>, k: string)
    requires NestedSoFar(existing, v, todo, merged) && k in todo
    ensures k in merged <==> k in existing
    ensures k in existing ==> merged[k] == existing[k]
    ensures NestedSoFar(existing, v, todo - {k},
            merged[k := if k in existing then Join(Deferred, existing[k], v[k]) else v[k]])
  {
  }

  ghost predicate MergedSoFar(acc: Acc, incoming: Acc, todo: set<string>, merged: Acc) {
    && todo <= incoming.Keys && merged.Keys == acc.Keys + (incoming.Keys - todo)
    && forall k {:trigger merged[k]} :: k in merged ==>
         merged[k] == (if k !in acc then incoming[k]
                       else if k in incoming && k !in todo then MergeValue(Deferred, acc[k], incoming[k]) else acc[k])
  }

  lemma MergedStep(acc: Acc, incoming: Acc, todo: set<string>, merged: Acc, k: string)
    requires MergedSoFar(acc, incoming, todo, merged) && k in todo
    ensures k in merged <==> k in acc
    ensures k in acc ==> merged[k] == acc[k]
    ensures MergedSoFar(acc, incoming, todo - {k},
            merged[k := if k in acc then MergeValue(Deferred, acc[k], incoming[k]) else incoming[k]])
  {
  }

  lemma NestedDone(existing: map<string, Leaf>, v: map<string, Leaf>, merged: map<string, Leaf>)
    requires NestedSoFar(existing, v, {}, merged)
    ensures merged == MergeDict(Deferred, existing, v)
  {
  }

  lemma MergedDone(acc: Acc, incoming: Acc, merged: Acc)
    requires MergedSoFar(acc, incoming, {}, merged)
    ensures merged == Merge(Deferred, acc, incoming)
  {
  }

  class OmniRequestState {
    const outputKind: OutputKind
    const streamInterval: nat
    var mmType: string
    var mmAccumulated: Option<Acc>
    var outputTokenIds: seq<int>
    var sentTokensOffset: nat

    ghost function St(): State
      reads this`mmType, this`mmAccumulated
    {
      State(mmType, mmAccumulated)
    }

    constructor (outputKind: OutputKind, streamInterval: nat)
      ensures this.outputKind == outputKind && this.streamInterval == streamInterval
      ensures St() == Empty && outputTokenIds == [] && sentTokensOffset == 0
    {
      this.outputKind, this.streamInterval := outputKind, streamInterval;
      mmType, mmAccumulated, outputTokenIds, sentTokensOffset := "", None, [], 0;
    }

    method Normalize(payload: Payload) returns (incoming: Acc)
      ensures incoming == Incoming(payload, mmType)
    {
      var target := Target(mmType);
      match payload
      case Whole(l) =>
        incoming := map[target := One(l)];
      case Entries(es) =>
        incoming := map[];
        for i := 0 to |es|
          invariant incoming == IncomingEntries(es[..i], target)
        {
          var (k, v) := es[i];
          assert es[..i + 1][..i] == es[..i];
          if k == "model_outputs" {
            k := target;
          } else if k == "hidden" && target != "hidden" {
            k := target;
          }
          incoming := incoming[k := v];
        }
        assert es[..|es|] == es;
    }

    method JoinLeaves(existing: Leaf, v: Leaf) returns (r: Leaf)
      ensures r == Join(Deferred, existing, v)
    {
      if v.Ten? && existing.Ten? {
        r := Many([existing, v]);
      } else if v.Ten? && existing.Many? {
        r := Many(existing.items + [v]);
      } else {
        r := v;
      }
    }

    /** Merges one key of a nested dictionary. */
    method MergeKey(existing: map<string, Leaf>, v: map<string, Leaf>, ghost todo: set<string>,
                    current: map<string, Leaf>, sk: string)
      returns (merged: map<string, Leaf>)
      requires NestedSoFar(existing, v, todo, current) && sk in todo
      ensures NestedSoFar(existing, v, todo - {sk}, merged)
    {
      NestedStep(existing, v, todo, current, sk);
      var joined := v[sk];
      if sk in current {
        joined := JoinLeaves(current[sk], v[sk]);
      }
      merged := current[sk := joined];
    }

    method MergeNested(existing: map<string, Leaf>, v: map<string, Leaf>) returns (merged: map<string, Leaf>)
      ensures merged == MergeDict(Deferred, existing, v)
    {
      merged := existing;
      var todo := v.Keys;
      while todo != {}
        invariant NestedSoFar(existing, v, todo, merged)
        decreases |todo|
      {
        var sk :| sk in todo;
        merged := MergeKey(existing, v, todo, merged, sk);
        todo := todo - {sk};
      }
      NestedDone(existing, v, merged);
    }

    /** Adds a payload to the accumulated dictionary. */
    method AddMultimodalTensor(payload: Option<Payload>, newType: string)
      modifies this`mmType, this`mmAccumulated
      ensures St() == Apply(Deferred, old(St()), Add(payload, newType))
    {
      if payload.None? {
        return;
      }
      if newType != "" {
        mmType := Lower(newType);
      }
      var incoming := Normalize(payload.value);
      if mmAccumulated.None? {
        mmAccumulated := Some(incoming);
      } else {
        var merged := MergeIncoming(mmAccumulated.value, incoming);
        mmAccumulated := Some(merged);
      }
    }

    /** Merges one key of a payload. */
    method MergeEntry(acc: Acc, incoming: Acc, ghost todo: set<string>, current: Acc, k: string) returns (merged: Acc)
      requires MergedSoFar(acc, incoming, todo, current) && k in todo
      ensures MergedSoFar(acc, incoming, todo - {k}, merged)
    {
      MergedStep(acc, incoming, todo, current, k);
      var joined := incoming[k];
      if k in current {
        joined := JoinValues(current[k], joined);
      }
      merged := current[k := joined];
    }

    method MergeIncoming(acc: Acc, incoming: Acc) returns (merged: Acc)
      ensures merged == Merge(Deferred, acc, incoming)
    {
      merged := acc;
      var todo := incoming.Keys;
      while todo != {}
        invariant MergedSoFar(acc, incoming, todo, merged)
        decreases |todo|
      {
        var k :| k in todo;
        merged := MergeEntry(acc, incoming, todo, merged, k);
        todo := todo - {k};
      }
      MergedDone(acc, incoming, merged);
    }

    method JoinValues(existing: Value, v: Value) returns (r: Value)
      ensures r == MergeValue(Deferred, existing, v)
    {
      if existing.One? && v.One? {
        var l := JoinLeaves(existing.leaf, v.leaf);
        r := One(l);
      } else if v.Dict? && existing.Dict? {
        var sub := MergeNested(existing.sub, v.sub);
        r := Dict(sub);
      } else {
        r := v;
      }
    }

    /** Concatenates every collected list. */
    method ConsolidateMultimodalTensors()
      modifies this`mmAccumulated
      ensures St() == Apply(Deferred, old(St()), Consolidate)
    {
      if mmAccumulated.None? {
        return;
      }
      var acc := mmAccumulated.value;
      ghost var before := acc;
      var todo := acc.Keys;
      while todo != {}
        invariant todo <= acc.Keys == before.Keys
        invariant forall k :: k in acc ==> acc[k] == if k in todo then before[k] else CatValue(k, before[k])
        decreases |todo|
      {
        var k :| k in todo;
        todo := todo - {k};
        match acc[k]
        case One(l) =>
          if l.Many? && l.items != [] && l.items[0].Ten? && k != "audio" {
            acc := acc[k := One(CatLeaf(l))];
          }
        case Dict(sub) =>
          var merged := ConsolidateNested(sub);
          acc := acc[k := Dict(merged)];
      }
      assert acc == Consolidated(before);
      mmAccumulated := Some(acc);
    }

    method ConsolidateNested(sub: map<string, Leaf>) returns (r: map<string, Leaf>)
      ensures r == CatDict(sub)
    {
      r := sub;
      var todo := sub.Keys;
      while todo != {}
        invariant todo <= r.Keys == sub.Keys
        invariant forall k :: k in r ==> r[k] == if k in todo then sub[k] else CatLeaf(sub[k])
        decreases |todo|
      {
        var sk :| sk in todo;
        todo := todo - {sk};
        if r[sk].Many? && r[sk].items != [] && r[sk].items[0].Ten? {
          r := r[sk := CatLeaf(r[sk])];
        }
      }
    }

    /** Builds the output of a call, once the detokenizer holds the new tokens. */
    method MakeRequestOutput(newTokenIds: seq<int>, finished: bool) returns (out: Option<Output>)
      requires sentTokensOffset <= |outputTokenIds|
      modifies this`mmAccumulated, this`sentTokensOffset
      ensures var sent, all := old(sentTokensOffset), outputTokenIds;
              var e := Emitted(outputKind, streamInterval, all, sent, newTokenIds, finished);
              && sentTokensOffset == SentAfter(outputKind, streamInterval, all, sent, newTokenIds, finished)
              && St() == (if finished then Apply(Deferred, old(St()), Consolidate) else old(St()))
              && out == (if e.None? then None else Some(Output(e.value, mmAccumulated, finished)))
    {
      var finalOnly := outputKind == FinalOnly;
      if !finished && finalOnly {
        return None;
      }
      if finished {
        ConsolidateMultimodalTensors();
      }
      var tokens := newTokenIds;
      if streamInterval > 1 {
        if !(finished || sentTokensOffset == 0 || |outputTokenIds| - sentTokensOffset >= streamInterval) {
          return None;
        }
        if outputKind == Delta {
          tokens := outputTokenIds[sentTokensOffset..];
          sentTokensOffset := |outputTokenIds|;
        }
      }
      if outputKind != Delta {
        tokens := outputTokenIds;
      }
      out := Some(Output(tokens, mmAccumulated, finished));
    }
  }
}
