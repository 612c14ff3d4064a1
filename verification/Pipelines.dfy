/** The stages of a pipeline, the requests of a call, and what flows between them. */
module Pipelines {
  import opened Common

  type Id = string

  /** What a stage is fed, as a term: any actual generation and derivation
      functions interpret these terms. */
  datatype Input = Prompt(id: Id) | Derived(stage: nat, source: Output, prompt: Id)
  datatype Output = Generated(stage: nat, input: Input)

  /** The pipeline and one call's requests: which stages yield, which earlier
      stage each stage derives its inputs from, and where each request ends. */
  datatype Pipeline = Pipeline(finalOutput: seq<bool>, source: seq<nat>, ids: seq<Id>, final: map<Id, nat>)
  {
    function Stages(): nat { |finalOutput| }

    ghost predicate Valid() {
      && |source| == Stages() > 0
      && Distinct(ids)
      && (forall s :: 0 < s < Stages() ==> source[s] < s)
      && (forall id :: id in ids ==> id in final && final[id] < Stages())
    }

    /** Every stage is fed by its predecessor. */
    ghost predicate Linear() {
      |source| == Stages() && forall s :: 0 < s < Stages() ==> source[s] == s - 1
    }

    /** Stage t, on the way of request a, reads a stage further back than its
        predecessor. */
    predicate FarReads(a: Id, t: nat)
      requires Valid()
    {
      a in ids && 0 < t <= final[a] && source[t] < t - 1
    }

    /** Stage t, on the way of request a, reads a stage further back than its
        predecessor, and request b passes that stage too. */
    predicate Crosses(a: Id, b: Id, t: nat)
      requires Valid()
    {
      FarReads(a, t) && b in ids && a != b && source[t] <= final[b]
    }

    ghost predicate Unmixed()
      requires Valid()
    {
      forall a, b, t: nat :: !Crosses(a, b, t)
    }

    /** What stage s is fed when the request runs through the pipeline alone. */
    ghost function Solo(id: Id, s: nat): Input
      requires Valid() && s < Stages()
      decreases s
    {
      if s == 0 then Prompt(id)
      else Derived(s, Generated(source[s], Solo(id, source[s])), id)
    }

    ghost function SoloOutput(id: Id, s: nat): Output
      requires Valid() && s < Stages()
    {
      Generated(s, Solo(id, s))
    }
  }

  /** The request whose prompt went into an input last. */
  function Owner(i: Input): Id {
    match i
    case Prompt(id) => id
    case Derived(_, _, id) => id
  }

  lemma SoloOwner(p: Pipeline, id: Id, s: nat)
    requires p.Valid() && s < p.Stages()
    ensures Owner(p.Solo(id, s)) == id
  {
  }

  /** A field read further back than its predecessor by a stage on the way of a
      request holds, if anything, that request's own output. */
  ghost predicate HeldOwn(p: Pipeline, held: seq<Option<Output>>)
    requires p.Valid()
  {
    && |held| == p.Stages()
    && forall a, t: nat :: p.FarReads(a, t) && held[p.source[t]].Some? ==>
         held[p.source[t]].value == p.SoloOutput(a, p.source[t])
  }

  /** In an unmixed pipeline, storing a request's own output keeps that. */
  lemma StoreOwn(p: Pipeline, held: seq<Option<Output>>, id: Id, s: nat)
    requires p.Valid() && p.Unmixed() && HeldOwn(p, held) && id in p.ids && s <= p.final[id]
    ensures HeldOwn(p, held[s := Some(p.SoloOutput(id, s))])
  {
    forall a, t: nat | p.FarReads(a, t) && p.source[t] == s ensures a == id {
      assert !p.Crosses(a, id, t);
    }
  }

  /** The next stage's input is then derived from the request's own output. */
  lemma ReadsOwn(p: Pipeline, held: seq<Option<Output>>, id: Id, s: nat)
    requires p.Valid() && HeldOwn(p, held) && id in p.ids && s < p.final[id]
    requires held[s] == Some(p.SoloOutput(id, s)) && held[p.source[s + 1]].Some?
    ensures held[p.source[s + 1]].value == p.SoloOutput(id, p.source[s + 1])
    ensures Derived(s + 1, held[p.source[s + 1]].value, id) == p.Solo(id, s + 1)
  {
    assert p.source[s + 1] < s + 1;
    assert p.FarReads(id, s + 1) <==> p.source[s + 1] < s;
  }

  /** Pipelines whose stages read their predecessors are unmixed, and so are
      those of a single request. */
  lemma UnmixedCases(p: Pipeline)
    requires p.Valid() && (p.Linear() || |p.ids| <= 1)
    ensures p.Unmixed()
  {
    forall a, b, t: nat ensures !p.Crosses(a, b, t) {
      if a in p.ids && b in p.ids && a != b {
        var i :| 0 <= i < |p.ids| && p.ids[i] == a;
        var j :| 0 <= j < |p.ids| && p.ids[j] == b;
        assert i != j;
      }
    }
  }

  /** With two requests through the whole pipeline, only linear ones are. */
  lemma UnmixedIffLinear(p: Pipeline, a: Id, b: Id)
    requires p.Valid() && a in p.ids && b in p.ids && a != b
    requires p.final[a] == p.final[b] == p.Stages() - 1
    ensures p.Unmixed() <==> p.Linear()
  {
    if p.Linear() {
      UnmixedCases(p);
    } else {
      var t :| 0 < t < p.Stages() && p.source[t] != t - 1;
      assert p.Crosses(a, b, t);
    }
  }

  /** The numbers below k, in order. */
  ghost function Upto(k: nat): seq<nat> {
    if k == 0 then [] else Upto(k - 1) + [k - 1]
  }
}
