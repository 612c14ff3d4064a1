/** Where each request's pipeline ends: the last stage whose final output is of
    a requested modality. */
module FinalStage {
  import opened Common

  datatype StageInfo = StageInfo(finalOutput: bool, outputType: string)

  function Known(modalities: seq<string>, defaults: seq<string>): seq<string> {
    if modalities == [] then []
    else Known(modalities[..|modalities| - 1], defaults) +
         if modalities[|modalities| - 1] in defaults then [modalities[|modalities| - 1]] else []
  }

  lemma {:induction false} KnownExact(modalities: seq<string>, defaults: seq<string>, m: string)
    ensures m in Known(modalities, defaults) <==> m in modalities && m in defaults
  {
    if modalities != [] {
      KnownExact(modalities[..|modalities| - 1], defaults, m);
      assert modalities == modalities[..|modalities| - 1] + [modalities[|modalities| - 1]];
    }
  }

  /** A stage yields something the caller asked for; without a request every
      supported modality counts, and unsupported ones never do. */
  predicate Wanted(asked: Option<seq<string>>, defaults: seq<string>, s: StageInfo) {
    s.finalOutput && s.outputType in defaults && (asked.Some? ==> s.outputType in asked.value)
  }

  /** The final stage is the last wanted one, and the last of all when none is. */
  ghost predicate IsFinal(asked: Option<seq<string>>, defaults: seq<string>, stages: seq<StageInfo>, id: int) {
    && -1 <= id < |stages|
    && (forall s {:trigger stages[s]} :: 0 <= s < |stages| && Wanted(asked, defaults, stages[s]) ==> s <= id)
    && ((id >= 0 && Wanted(asked, defaults, stages[id]))
        || (id == |stages| - 1 && forall s {:trigger stages[s]} :: 0 <= s < |stages| ==>
            !Wanted(asked, defaults, stages[s])))
  }

  method GetFinalStageId(asked: Option<seq<string>>, defaults: seq<string>, stages: seq<StageInfo>) returns (id: int)
    ensures IsFinal(asked, defaults, stages, id)
  {
    var modalities := defaults;
    if asked.Some? {
      modalities := FilterKnown(asked.value, defaults);
    }
    var sid := |stages| - 1;
    while sid > -1
      invariant -1 <= sid < |stages|
      invariant forall s {:trigger stages[s]} :: sid < s < |stages| ==> !Wanted(asked, defaults, stages[s])
    {
      if asked.Some? {
        KnownExact(asked.value, defaults, stages[sid].outputType);
      }
      if stages[sid].finalOutput && stages[sid].outputType in modalities {
        return sid;
      }
      sid := sid - 1;
    }
    id := |stages| - 1;
  }

  method FilterKnown(modalities: seq<string>, defaults: seq<string>) returns (known: seq<string>)
    ensures known == Known(modalities, defaults)
  {
    known := [];
    for i := 0 to |modalities|
      invariant known == Known(modalities[..i], defaults)
    {
      assert modalities[..i + 1][..i] == modalities[..i];
      if modalities[i] in defaults {
        known := known + [modalities[i]];
      }
    }
    assert modalities[..|modalities|] == modalities;
  }

  /** The choice is unique, so the search finds the only final stage. */
  lemma FinalUnique(asked: Option<seq<string>>, defaults: seq<string>, stages: seq<StageInfo>, a: int, b: int)
    requires IsFinal(asked, defaults, stages, a) && IsFinal(asked, defaults, stages, b)
    ensures a == b
  {
    if a >= 0 && Wanted(asked, defaults, stages[a]) {
      assert a <= b;
    }
    if b >= 0 && Wanted(asked, defaults, stages[b]) {
      assert b <= a;
    }
  }

  /** The chosen stage yields a final output if and only if some stage is wanted
      or the last one yields regardless. */
  lemma FinalYieldsIff(asked: Option<seq<string>>, defaults: seq<string>, stages: seq<StageInfo>, id: int)
    requires stages != [] && IsFinal(asked, defaults, stages, id)
    ensures 0 <= id < |stages|
    ensures stages[id].finalOutput <==>
            stages[|stages| - 1].finalOutput || exists s :: 0 <= s < |stages| && Wanted(asked, defaults, stages[s])
  {
    if s :| 0 <= s < |stages| && Wanted(asked, defaults, stages[s]) {
      assert Wanted(asked, defaults, stages[id]);
    }
  }
}
