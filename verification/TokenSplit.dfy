/** How a dummy run splits its tokens over requests, and how prefix-sum offsets
    turn per-request token counts into spans of the flattened step. */
module TokenSplit {
  import opened Common

  datatype Mode = Mixed | Uniform | Default

  function CeilDiv(a: nat, b: nat): (r: nat)
    requires b > 0
  {
    (a + b - 1) / b
  }

  function Repeat(x: nat, n: nat): (s: seq<nat>)
    ensures |s| == n
  {
    seq(n, _ => x)
  }

  /** The same list with its last entry replaced. */
  function WithLast(s: seq<nat>, x: nat): (t: seq<nat>)
    requires s != []
    ensures |t| == |s|
  {
    s[..|s| - 1] + [x]
  }

  /** The number of scheduled tokens of each request of the dummy batch. */
  function Split(mode: Mode, numTokens: nat, maxReqs: nat, queryLen: nat): (s: seq<nat>)
    requires numTokens > 0 && maxReqs > 0 && queryLen > 0
  {
    match mode
    case Mixed => SplitMixed(numTokens, maxReqs)
    case Uniform => SplitUniform(numTokens, maxReqs, queryLen)
    case Default => SplitDefault(numTokens, maxReqs)
  }

  /** One-token decodes, then one prefill with the rest. */
  function SplitMixed(numTokens: nat, maxReqs: nat): seq<nat>
    requires numTokens > 0 && maxReqs > 0
  {
    var decodes := Min(maxReqs - 1, numTokens / 2);
    Repeat(1, decodes) + [numTokens - decodes]
  }

  /** Pieces of the query length, the last one holding the remainder. */
  function SplitUniform(numTokens: nat, maxReqs: nat, queryLen: nat): seq<nat>
    requires numTokens > 0 && maxReqs > 0 && queryLen > 0
  {
    var n := Min(maxReqs, CeilDiv(numTokens, queryLen));
    CeilDivPositive(numTokens, queryLen);
    if numTokens % queryLen != 0 then WithLast(Repeat(queryLen, n), numTokens % queryLen) else Repeat(queryLen, n)
  }

  /** Equal shares, the last one holding the remainder too. */
  function SplitDefault(numTokens: nat, maxReqs: nat): seq<nat>
    requires numTokens > 0 && maxReqs > 0
  {
    var n := Min(numTokens, maxReqs);
    WithLast(Repeat(numTokens / n, n), numTokens / n + numTokens % n)
  }

  lemma CeilDivOf(q: nat, b: nat, r: nat)
    requires r < b
    ensures CeilDiv(q * b + r, b) == q + if r == 0 then 0 else 1
  {
    if r == 0 {
      DivMod(q, b, b - 1);
    } else {
      DivMod(q + 1, b, r - 1);
      assert q * b + r + b - 1 == (q + 1) * b + (r - 1);
    }
  }

  lemma CeilDivPositive(a: nat, b: nat)
    requires a > 0 && b > 0
    ensures CeilDiv(a, b) >= 1
    ensures CeilDiv(a, b) == a / b + if a % b == 0 then 0 else 1
  {
    Recompose(a, b);
    CeilDivOf(a / b, b, a % b);
    QuotientZero(a, b);
  }

  lemma QuotientZero(a: nat, b: nat)
    requires b > 0
    ensures a / b == 0 && a % b == 0 ==> a == 0
  {
    Recompose(a, b);
  }

  lemma QuotientPositive(a: nat, n: nat)
    requires 0 < n <= a
    ensures a / n >= 1
  {
  }

  lemma SumWithLast(x: nat, n: nat, last: nat)
    requires n > 0
    ensures Sum(WithLast(Repeat(x, n), last)) == (n - 1) * x + last
  {
    SumConstant(Repeat(x, n - 1), x);
    assert WithLast(Repeat(x, n), last)[..n - 1] == Repeat(x, n - 1);
  }

  /** Every entry is positive and there are at most `maxReqs` of them; the
      entries add up to the token count always in the mixed and default modes,
      and in the uniform mode exactly when the query-length pieces fit in the
      batch. */
  lemma SplitBalances(mode: Mode, numTokens: nat, maxReqs: nat, queryLen: nat)
    requires numTokens > 0 && maxReqs > 0 && queryLen > 0
    ensures var s := Split(mode, numTokens, maxReqs, queryLen);
            && 1 <= |s| <= maxReqs
            && (forall i {:trigger s[i]} :: 0 <= i < |s| ==> s[i] > 0)
            && (Sum(s) == numTokens <==> (mode == Uniform ==> CeilDiv(numTokens, queryLen) <= maxReqs))
  {
    match mode
    case Mixed => MixedBalances(numTokens, maxReqs);
    case Uniform => UniformBalances(numTokens, maxReqs, queryLen);
    case Default => DefaultBalances(numTokens, maxReqs);
  }

  lemma MixedBalances(numTokens: nat, maxReqs: nat)
    requires numTokens > 0 && maxReqs > 0
    ensures var s := SplitMixed(numTokens, maxReqs);
            && 1 <= |s| <= maxReqs && Sum(s) == numTokens
            && (forall i {:trigger s[i]} :: 0 <= i < |s| ==> s[i] > 0)
  {
    var decodes := Min(maxReqs - 1, numTokens / 2);
    SumConstant(Repeat(1, decodes), 1);
    var s := SplitMixed(numTokens, maxReqs);
    assert s[..decodes] == Repeat(1, decodes);
  }

  lemma DefaultBalances(numTokens: nat, maxReqs: nat)
    requires numTokens > 0 && maxReqs > 0
    ensures var s := SplitDefault(numTokens, maxReqs);
            && 1 <= |s| <= maxReqs && Sum(s) == numTokens
            && (forall i {:trigger s[i]} :: 0 <= i < |s| ==> s[i] > 0)
  {
    var n := Min(numTokens, maxReqs);
    var each := numTokens / n;
    SumWithLast(each, n, each + numTokens % n);
    QuotientPositive(numTokens, n);
    Recompose(numTokens, n);
    Distribute(n, each);
  }

  lemma Distribute(n: nat, each: nat)
    requires n > 0
    ensures (n - 1) * each + each == each * n
  {
  }

  /** The shape of the split: one-token decodes before a single prefill, pieces of
      the query length before what is left, or equal shares before the rest. */
  lemma SplitShape(mode: Mode, numTokens: nat, maxReqs: nat, queryLen: nat, i: nat)
    requires numTokens > 0 && maxReqs > 0 && queryLen > 0 && i < |Split(mode, numTokens, maxReqs, queryLen)|
    ensures var s := Split(mode, numTokens, maxReqs, queryLen);
            match mode
            case Mixed => |s| == Min(maxReqs, numTokens / 2 + 1) && (i < |s| - 1 ==> s[i] == 1)
            case Uniform => |s| == Min(maxReqs, CeilDiv(numTokens, queryLen))
                            && (if i < |s| - 1 then s[i] == queryLen else s[i] <= queryLen)
            case Default => |s| == Min(numTokens, maxReqs) && (i < |s| - 1 ==> s[i] == numTokens / |s|)
  {
  }

  /** Three tokens in pieces of two do not fit in a batch of one request. */
  lemma UniformOverflows()
    ensures Split(Uniform, 3, 1, 2) == [1] && Sum(Split(Uniform, 3, 1, 2)) != 3
  {
    SplitBalances(Uniform, 3, 1, 2);
    assert CeilDiv(3, 2) == 2;
  }

  lemma UniformBalances(numTokens: nat, maxReqs: nat, queryLen: nat)
    requires numTokens > 0 && maxReqs > 0 && queryLen > 0
    ensures var s := SplitUniform(numTokens, maxReqs, queryLen);
            && 1 <= |s| <= maxReqs
            && (forall i {:trigger s[i]} :: 0 <= i < |s| ==> s[i] > 0)
            && (Sum(s) == numTokens <==> CeilDiv(numTokens, queryLen) <= maxReqs)
  {
    var pieces := CeilDiv(numTokens, queryLen);
    var n := Min(maxReqs, pieces);
    CeilDivPositive(numTokens, queryLen);
    UniformSum(numTokens, n, queryLen);
  }

  /** The first n pieces hold all tokens exactly when they are all the pieces. */
  lemma UniformSum(numTokens: nat, n: nat, queryLen: nat)
    requires numTokens > 0 && queryLen > 0 && 1 <= n <= CeilDiv(numTokens, queryLen)
    ensures var rest := numTokens % queryLen;
            var s := if rest != 0 then WithLast(Repeat(queryLen, n), rest) else Repeat(queryLen, n);
            Sum(s) == numTokens <==> n == CeilDiv(numTokens, queryLen)
  {
    var rest := numTokens % queryLen;
    var whole := numTokens / queryLen;
    CeilDivPositive(numTokens, queryLen);
    MulStep(n, whole, queryLen);
    MulStep(n - 1, whole, queryLen);
    Recompose(numTokens, queryLen);
    if rest == 0 {
      SumConstant(Repeat(queryLen, n), queryLen);
    } else {
      SumWithLast(queryLen, n, rest);
    }
  }

  // ----------------------------------------------------------------- spans

  /** The (start, end) pairs computed from the query start locations. */
  method ComputeSpans(queryStart: array<nat>, counts: seq<nat>) returns (spans: seq<(nat, nat)>)
    requires queryStart.Length > |counts|
    requires forall i :: 0 <= i <= |counts| ==> queryStart[i] == Start(counts, i)
    ensures |spans| == |counts|
    ensures forall i :: 0 <= i < |spans| ==> spans[i].0 == Start(counts, i) && spans[i].1 == Start(counts, i + 1)
    ensures forall i, j :: 0 <= i < j < |spans| ==> spans[i].1 <= spans[j].0
  {
    spans := [];
    for i := 0 to |counts|
      invariant |spans| == i
      invariant forall j :: 0 <= j < i ==> spans[j].0 == Start(counts, j) && spans[j].1 == Start(counts, j + 1)
      invariant forall j, k :: 0 <= j < k < i ==> spans[j].1 <= spans[k].0
    {
      forall j | 0 <= j < i ensures spans[j].1 <= Start(counts, i) {
        StartGrows(counts, j, i);
        StartNext(counts, j);
      }
      StartNext(counts, i);
      spans := spans + [(queryStart[i], queryStart[i] + counts[i])];
    }
  }

  /** The per-request slices of the step's hidden states, in batch order. */
  method SliceHidden<T>(hidden: seq<T>, queryStart: array<nat>, counts: seq<nat>) returns (slices: seq<seq<T>>)
    requires queryStart.Length > |counts| && Sum(counts) <= |hidden|
    requires forall i :: 0 <= i <= |counts| ==> queryStart[i] == Start(counts, i)
    ensures |slices| == |counts| && Concat(slices) == hidden[..Sum(counts)]
    ensures forall i :: 0 <= i < |slices| ==> |slices[i]| == counts[i]
  {
    slices := [];
    assert counts[..|counts|] == counts;
    for i := 0 to |counts|
      invariant |slices| == i && Start(counts, i) <= |hidden| && Concat(slices) == hidden[..Start(counts, i)]
      invariant forall j :: 0 <= j < i ==> |slices[j]| == counts[j]
    {
      StartNext(counts, i);
      if i + 1 < |counts| { StartGrows(counts, i + 1, |counts|); }
      var slice := hidden[queryStart[i]..queryStart[i] + counts[i]];
      assert (slices + [slice])[..|slices|] == slices;
      slices := slices + [slice];
    }
  }
}
