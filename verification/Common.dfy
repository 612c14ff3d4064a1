/** Small shared definitions: an option type, sums and filters over sequences. */
module Common {

  datatype Option<+T> = None | Some(value: T)

  function Min(a: int, b: int): int {
    if a <= b then a else b
  }

  function Max(a: int, b: int): int {
    if a >= b then a else b
  }

  /** The set of elements of a sequence. */
  function ToSet<T>(s: seq<T>): set<T> {
    set x | x in s
  }

  ghost predicate Distinct<T>(s: seq<T>) {
    forall i, j :: 0 <= i < j < |s| ==> s[i] != s[j]
  }

  /** A sequence without repetitions has as many elements as its set. */
  lemma {:induction false} DistinctCardinality<T>(s: seq<T>)
    requires Distinct(s)
    ensures |ToSet(s)| == |s|
  {
    if s != [] {
      DistinctCardinality(s[1..]);
      assert ToSet(s) == {s[0]} + ToSet(s[1..]);
      assert s[0] !in s[1..];
    }
  }

  /** The sum of the weights of the listed keys. */
  ghost function Total<K>(keys: seq<K>, weight: map<K, int>): int
    requires forall k :: k in keys ==> k in weight
  {
    if keys == [] then 0 else Total(keys[..|keys| - 1], weight) + weight[keys[|keys| - 1]]
  }

  lemma {:induction false} TotalSame<K>(keys: seq<K>, a: map<K, int>, b: map<K, int>)
    requires forall k :: k in keys ==> k in a && k in b && a[k] == b[k]
    ensures Total(keys, a) == Total(keys, b)
  {
    if keys != [] {
      TotalSame(keys[..|keys| - 1], a, b);
    }
  }

  /** Changing the weight of one listed key changes the sum by the difference. */
  lemma {:induction false} TotalUpdate<K>(keys: seq<K>, a: map<K, int>, b: map<K, int>, key: K)
    requires Distinct(keys) && key in keys
    requires forall k :: k in keys ==> k in a && k in b && (k != key ==> a[k] == b[k])
    ensures Total(keys, b) == Total(keys, a) - a[key] + b[key]
  {
    var n := |keys| - 1;
    if keys[n] == key {
      TotalSame(keys[..n], a, b);
    } else {
      TotalUpdate(keys[..n], a, b, key);
    }
  }

  /** A sum of non-negative weights is zero only when all are. */
  lemma {:induction false} TotalZero<K>(keys: seq<K>, weight: map<K, int>)
    requires forall k :: k in keys ==> k in weight && weight[k] >= 0
    ensures Total(keys, weight) >= 0
    ensures Total(keys, weight) == 0 <==> forall k :: k in keys ==> weight[k] == 0
  {
    if keys != [] {
      TotalZero(keys[..|keys| - 1], weight);
      assert keys == keys[..|keys| - 1] + [keys[|keys| - 1]];
    }
  }

  lemma {:induction false} TotalConstant<K>(keys: seq<K>, weight: map<K, int>, c: int)
    requires forall k :: k in keys ==> k in weight && weight[k] == c
    ensures Total(keys, weight) == c * |keys|
  {
    if keys != [] {
      TotalConstant(keys[..|keys| - 1], weight, c);
    }
  }

  /** A sequence without its i-th element. */
  function Without<T>(q: seq<T>, i: nat): seq<T>
    requires i < |q|
  {
    q[..i] + q[i + 1..]
  }

  function Concat<T>(parts: seq<seq<T>>): seq<T> {
    if parts == [] then [] else Concat(parts[..|parts| - 1]) + parts[|parts| - 1]
  }

  lemma ConcatAppend<T>(parts: seq<seq<T>>, part: seq<T>)
    ensures Concat(parts + [part]) == Concat(parts) + part
  {
    assert (parts + [part])[..|parts|] == parts;
  }

  /** How often an element occurs. */
  function Count<T(==)>(q: seq<T>, x: T): nat {
    if q == [] then 0 else Count(q[..|q| - 1], x) + if q[|q| - 1] == x then 1 else 0
  }

  lemma {:induction false} CountConcat<T>(a: seq<T>, b: seq<T>, x: T)
    ensures Count(a + b, x) == Count(a, x) + Count(b, x)
  {
    if b == [] {
      assert a + b == a;
    } else {
      var n := |b| - 1;
      CountConcat(a, b[..n], x);
      assert (a + b)[..|a + b| - 1] == a + b[..n];
    }
  }

  lemma CountAppend<T>(q: seq<T>, y: T, x: T)
    ensures Count(q + [y], x) == Count(q, x) + if y == x then 1 else 0
  {
    assert (q + [y])[..|q|] == q;
  }

  lemma {:induction false} CountWithout<T>(q: seq<T>, i: nat, x: T)
    requires i < |q|
    ensures Count(q, x) == Count(Without(q, i), x) + if q[i] == x then 1 else 0
  {
    var n := |q| - 1;
    if i == n {
      assert Without(q, i) == q[..n];
    } else {
      CountWithout(q[..n], i, x);
      assert Without(q, i) == Without(q[..n], i) + [q[n]];
      CountAppend(Without(q[..n], i), q[n], x);
    }
  }

  /** In a sequence without repetitions an element occurs once or not at all. */
  lemma {:induction false} CountDistinct<T>(q: seq<T>, x: T)
    requires Distinct(q)
    ensures Count(q, x) == if x in q then 1 else 0
  {
    if q != [] {
      CountDistinct(q[..|q| - 1], x);
    }
  }

  function Sum(s: seq<nat>): nat {
    if s == [] then 0 else Sum(s[..|s| - 1]) + s[|s| - 1]
  }

  /** Adding to one entry adds to the sum. */
  lemma {:induction false} SumUpdate(s: seq<nat>, i: nat, x: nat)
    requires i < |s|
    ensures Sum(s[i := s[i] + x]) == Sum(s) + x
  {
    var t := s[i := s[i] + x];
    if i == |s| - 1 {
      assert t[..|s| - 1] == s[..|s| - 1];
    } else {
      SumUpdate(s[..|s| - 1], i, x);
      assert t[..|s| - 1] == s[..|s| - 1][i := s[i] + x];
    }
  }

  lemma {:induction false} SumConstant(s: seq<nat>, x: nat)
    requires forall i :: 0 <= i < |s| ==> s[i] == x
    ensures Sum(s) == |s| * x
  {
    if s != [] {
      SumConstant(s[..|s| - 1], x);
    }
  }

  /** Where part i starts when parts of the given sizes lie one behind the other. */
  function Start(counts: seq<nat>, i: nat): nat
    requires i <= |counts|
  {
    Sum(counts[..i])
  }

  lemma {:induction false} StartGrows(counts: seq<nat>, i: nat, j: nat)
    requires i < j <= |counts|
    ensures Start(counts, i) + counts[i] <= Start(counts, j)
  {
    assert counts[..j][..j - 1] == counts[..j - 1];
    if i < j - 1 {
      StartGrows(counts, i, j - 1);
    }
  }

  lemma StartNext(counts: seq<nat>, i: nat)
    requires i < |counts|
    ensures Start(counts, i + 1) == Start(counts, i) + counts[i]
  {
    assert counts[..i + 1][..i] == counts[..i];
  }

  /** Every row lies in exactly one part. */
  lemma {:induction false} SpanOfRow(counts: seq<nat>, p: nat) returns (i: nat)
    requires p < Sum(counts)
    ensures i < |counts| && Start(counts, i) <= p < Start(counts, i) + counts[i]
    ensures forall j :: 0 <= j < |counts| && j != i ==> !(Start(counts, j) <= p < Start(counts, j) + counts[j])
  {
    var n := |counts| - 1;
    if p >= Sum(counts[..n]) {
      i := n;
    } else {
      i := SpanOfRow(counts[..n], p);
      assert counts[..n][..i] == counts[..i];
    }
    forall j | 0 <= j < |counts| && j != i
      ensures !(Start(counts, j) <= p < Start(counts, j) + counts[j])
    {
      if i < j { StartGrows(counts, i, j); } else { StartGrows(counts, j, i); }
    }
  }

  // ------------------------------------------------- division and remainder

  lemma MulStep(x: nat, y: nat, b: nat)
    ensures x < y ==> x * b + b <= y * b
  {
    if x < y {
      assert (x + 1) * b <= y * b;
    }
  }

  lemma Recompose(a: nat, b: nat)
    requires b > 0
    ensures a / b >= 0 && 0 <= a % b < b && a == (a / b) * b + a % b
  {
  }

  /** Quotient and remainder are the only way to split a number. */
  lemma DivMod(q: nat, b: nat, r: nat)
    requires r < b
    ensures (q * b + r) / b == q && (q * b + r) % b == r
  {
    var n := q * b + r;
    Recompose(n, b);
    MulStep(q, n / b, b);
    MulStep(n / b, q, b);
  }
}
