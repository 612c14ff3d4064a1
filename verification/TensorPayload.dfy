/** Additional information on its way into the engine: tensors become shape,
    element type and row-major bytes, and are rebuilt by the worker. */
module TensorPayload {
  import opened Common

  type Byte = bv8
  /** One tensor element, as the bytes of its type's width. */
  type Elem = seq<Byte>
  type Index = seq<nat>

  datatype Dtype = Float16 | BFloat16 | Float32 | Float64 | Int8 | Int16 | Int32 | Int64 | UInt8 | Bool

  function Width(d: Dtype): (w: nat)
    ensures w > 0
  {
    match d
    case Int8 | UInt8 | Bool => 1
    case Float16 | BFloat16 | Int16 => 2
    case Float32 | Int32 => 4
    case Float64 | Int64 => 8
  }

  function Name(d: Dtype): string {
    match d
    case Float16 => "float16" case BFloat16 => "bfloat16" case Float32 => "float32" case Float64 => "float64"
    case Int8 => "int8" case Int16 => "int16" case Int32 => "int32" case Int64 => "int64"
    case UInt8 => "uint8" case Bool => "bool"
  }

  /** The array library's reading of a type name; it has no bfloat16. */
  function OfName(s: string): Option<Dtype> {
    if s == "float16" then Some(Float16) else if s == "float32" then Some(Float32)
    else if s == "float64" then Some(Float64)
    else if s == "int8" then Some(Int8) else if s == "int16" then Some(Int16) else if s == "int32" then Some(Int32)
    else if s == "int64" then Some(Int64) else if s == "uint8" then Some(UInt8) else if s == "bool" then Some(Bool)
    else None
  }

  // --------------------------------------------------------------- indices

  function Product(shape: seq<nat>): nat {
    if shape == [] then 1 else shape[0] * Product(shape[1..])
  }

  predicate InShape(idx: Index, shape: seq<nat>) {
    |idx| == |shape| && forall k :: 0 <= k < |shape| ==> idx[k] < shape[k]
  }

  /** The row-major position of an index. */
  function Ravel(idx: Index, shape: seq<nat>): nat
    requires InShape(idx, shape)
  {
    if shape == [] then 0 else idx[0] * Product(shape[1..]) + Ravel(idx[1..], shape[1..])
  }

  /** The index at a row-major position. */
  function Unravel(n: nat, shape: seq<nat>): Index
    requires n < Product(shape)
  {
    if shape == [] then []
    else
      var rest := Product(shape[1..]);
      RestPositive(shape);
      Recompose(n, rest);
      [n / rest] + Unravel(n % rest, shape[1..])
  }

  lemma RestPositive(shape: seq<nat>)
    requires shape != [] && Product(shape) > 0
    ensures Product(shape[1..]) > 0
  {
    TimesZero(shape[0], Product(shape[1..]));
  }

  lemma TimesZero(a: nat, b: nat)
    ensures b == 0 ==> a * b == 0
  {
  }

  lemma {:induction false} RavelBounded(idx: Index, shape: seq<nat>)
    requires InShape(idx, shape)
    ensures Ravel(idx, shape) < Product(shape)
  {
    if shape != [] {
      RavelBounded(idx[1..], shape[1..]);
      MulStep(idx[0], shape[0], Product(shape[1..]));
    }
  }

  lemma {:induction false} UnravelInShape(n: nat, shape: seq<nat>)
    requires n < Product(shape)
    ensures InShape(Unravel(n, shape), shape)
    ensures Ravel(Unravel(n, shape), shape) == n
  {
    if shape != [] {
      var rest := Product(shape[1..]);
      RestPositive(shape);
      Recompose(n, rest);
      UnravelInShape(n % rest, shape[1..]);
      var idx := Unravel(n, shape);
      assert idx[1..] == Unravel(n % rest, shape[1..]);
      QuotientBelow(n, rest, shape[0]);
      forall k | 0 <= k < |shape| ensures idx[k] < shape[k] {
        if k > 0 {
          assert idx[k] == idx[1..][k - 1] && shape[k] == shape[1..][k - 1];
        }
      }
    }
  }

  lemma QuotientBelow(n: nat, b: nat, q: nat)
    requires b > 0 && n < q * b
    ensures n / b < q
  {
    Recompose(n, b);
    MulStep(q - 1, n / b, b);
  }

  lemma {:induction false} RavelUnravel(idx: Index, shape: seq<nat>)
    requires InShape(idx, shape)
    ensures Ravel(idx, shape) < Product(shape) && Unravel(Ravel(idx, shape), shape) == idx
  {
    RavelBounded(idx, shape);
    if shape != [] {
      RavelBounded(idx[1..], shape[1..]);
      RavelUnravel(idx[1..], shape[1..]);
      DivMod(idx[0], Product(shape[1..]), Ravel(idx[1..], shape[1..]));
      assert idx == [idx[0]] + idx[1..];
    }
  }

  // --------------------------------------------------------------- tensors

  /** A tensor as a view on a storage: any offset and strides. */
  datatype Tensor = Tensor(dtype: Dtype, storage: seq<Elem>, offset: int, shape: seq<nat>, strides: seq<int>)

  function Dot(idx: Index, strides: seq<int>): int
    requires |idx| == |strides|
  {
    if idx == [] then 0 else idx[0] * strides[0] + Dot(idx[1..], strides[1..])
  }

  /** Every index of the shape falls into the storage, whose elements have the
      width of the element type. */
  ghost predicate ValidTensor(t: Tensor) {
    && |t.strides| == |t.shape|
    && (forall idx {:trigger InShape(idx, t.shape)} :: InShape(idx, t.shape) ==>
          0 <= t.offset + Dot(idx, t.strides) < |t.storage|)
    && (forall e :: e in t.storage ==> |e| == Width(t.dtype))
  }

  function At(t: Tensor, idx: Index): Elem
    requires ValidTensor(t) && InShape(idx, t.shape)
  {
    t.storage[t.offset + Dot(idx, t.strides)]
  }

  /** Same shape, same type and the same element at every index. */
  ghost predicate SameTensor(a: Tensor, b: Tensor)
    requires ValidTensor(a) && ValidTensor(b)
  {
    && a.dtype == b.dtype && a.shape == b.shape
    && forall idx {:trigger InShape(idx, a.shape)} :: InShape(idx, a.shape) ==> At(a, idx) == At(b, idx)
  }

  /** The n-th element in row-major order. */
  function Nth(t: Tensor, n: nat): (e: Elem)
    requires ValidTensor(t) && n < Product(t.shape)
    ensures |e| == Width(t.dtype)
  {
    UnravelInShape(n, t.shape);
    At(t, Unravel(n, t.shape))
  }

  /** The elements in row-major order, whatever the strides. */
  function Elements(t: Tensor): (es: seq<Elem>)
    requires ValidTensor(t)
    ensures |es| == Product(t.shape)
    ensures forall n :: 0 <= n < |es| ==> |es[n]| == Width(t.dtype)
  {
    seq(Product(t.shape), n requires 0 <= n < Product(t.shape) => Nth(t, n))
  }

  function RowMajor(shape: seq<nat>): (strides: seq<int>)
    ensures |strides| == |shape|
  {
    if shape == [] then [] else [Product(shape[1..])] + RowMajor(shape[1..])
  }

  lemma {:induction false} RowMajorDot(idx: Index, shape: seq<nat>)
    requires InShape(idx, shape)
    ensures Dot(idx, RowMajor(shape)) == Ravel(idx, shape)
  {
    if shape != [] {
      RowMajorDot(idx[1..], shape[1..]);
      assert RowMajor(shape)[1..] == RowMajor(shape[1..]);
    }
  }

  /** A tensor laid out in row-major order, as made contiguous or reshaped. */
  function Packed(d: Dtype, es: seq<Elem>, shape: seq<nat>): Tensor {
    Tensor(d, es, 0, shape, RowMajor(shape))
  }

  lemma PackedAt(d: Dtype, es: seq<Elem>, shape: seq<nat>)
    requires |es| == Product(shape) && forall e :: e in es ==> |e| == Width(d)
    ensures ValidTensor(Packed(d, es, shape))
    ensures forall idx {:trigger InShape(idx, shape)} :: InShape(idx, shape) ==>
              Ravel(idx, shape) < |es| && At(Packed(d, es, shape), idx) == es[Ravel(idx, shape)]
  {
    forall idx | InShape(idx, shape) ensures Dot(idx, RowMajor(shape)) == Ravel(idx, shape) < Product(shape) {
      RowMajorDot(idx, shape);
      RavelBounded(idx, shape);
    }
  }

  /** Making a tensor contiguous keeps every element at its index. */
  lemma ContiguousSame(t: Tensor)
    requires ValidTensor(t)
    ensures var c := Packed(t.dtype, Elements(t), t.shape); ValidTensor(c) && SameTensor(t, c)
  {
    PackedAt(t.dtype, Elements(t), t.shape);
    forall idx | InShape(idx, t.shape) ensures At(Packed(t.dtype, Elements(t), t.shape), idx) == At(t, idx) {
      RavelUnravel(idx, t.shape);
    }
  }

  // ----------------------------------------------------------------- bytes

  function Bytes(es: seq<Elem>): seq<Byte> {
    if es == [] then [] else es[0] + Bytes(es[1..])
  }

  /** A buffer cut into elements of a width, as the worker reads it; a length
      that is no multiple of the width is an error. */
  function FromBuffer(data: seq<Byte>, w: nat): Option<seq<Elem>>
    requires w > 0
    decreases |data|
  {
    if data == [] then Some([])
    else if |data| < w then None
    else
      var rest := FromBuffer(data[w..], w);
      if rest.None? then None else Some([data[..w]] + rest.value)
  }

  lemma {:induction false} FromBufferBytes(es: seq<Elem>, w: nat)
    requires w > 0 && forall e :: e in es ==> |e| == w
    ensures FromBuffer(Bytes(es), w) == Some(es)
  {
    if es != [] {
      FromBufferBytes(es[1..], w);
      var data := Bytes(es);
      assert |es[0]| == w && data[..w] == es[0] && data[w..] == Bytes(es[1..]);
      assert [es[0]] + es[1..] == es;
    }
  }

  // --------------------------------------------------------------- entries

  datatype Entry = TensorEntry(data: seq<Byte>, shape: seq<nat>, dtype: string) | ListEntry(list: seq<int>)

  /** A value of the caller's dictionary; `Scalar` stands for every value that
      is neither a tensor nor a list. */
  datatype Value = TensorValue(t: Tensor) | ListValue(list: seq<int>) | Scalar(x: int)

  datatype Error = BadValue | BadDtype | BadBuffer
  datatype Result<T> = Ok(value: T) | Err(error: Error)

  /** Encodes one value. Handing a bfloat16 tensor to the array library fails. */
  function Encode(v: Value): Result<Entry>
    requires v.TensorValue? ==> ValidTensor(v.t)
  {
    match v
    case TensorValue(t) =>
      if t.dtype == BFloat16 then Err(BadDtype) else Ok(TensorEntry(Bytes(Elements(t)), t.shape, Name(t.dtype)))
    case ListValue(l) => Ok(ListEntry(l))
    case Scalar(_) => Err(BadValue)
  }

  /** Rebuilds one value: the bytes are cut into elements and reshaped. */
  function Decode(e: Entry): Result<Value> {
    match e
    case ListEntry(l) => Ok(ListValue(l))
    case TensorEntry(data, shape, dtype) =>
      var d := OfName(dtype);
      if d.None? then Err(BadDtype)
      else
        var es := FromBuffer(data, Width(d.value));
        if es.None? || |es.value| != Product(shape) then Err(BadBuffer)
        else Ok(TensorValue(Packed(d.value, es.value, shape)))
  }

  ghost predicate SameValue(a: Value, b: Value) {
    match (a, b)
    case (TensorValue(t), TensorValue(u)) => ValidTensor(t) && ValidTensor(u) && SameTensor(t, u)
    case (ListValue(l), ListValue(m)) => l == m
    case _ => false
  }

  ghost predicate ValidValue(v: Value) {
    v.TensorValue? ==> ValidTensor(v.t)
  }

  /** A type's name is read back as the same type, bfloat16 excepted. */
  lemma NameTrip(d: Dtype)
    ensures OfName(Name(d)) == if d == BFloat16 then None else Some(d)
  {
  }

  /** Decoding an encoded tensor gives its contiguous form. */
  lemma TensorTrip(t: Tensor)
    requires ValidTensor(t) && t.dtype != BFloat16
    ensures Decode(TensorEntry(Bytes(Elements(t)), t.shape, Name(t.dtype)))
            == Ok(TensorValue(Packed(t.dtype, Elements(t), t.shape)))
  {
    NameTrip(t.dtype);
    FromBufferBytes(Elements(t), Width(t.dtype));
  }

  /** What is encoded comes back index for index, for every shape and stride;
      encoding fails exactly on values that are neither tensor nor list and on
      bfloat16 tensors. */
  lemma RoundTrip(v: Value)
    requires ValidValue(v)
    ensures Encode(v).Ok? <==> !v.Scalar? && !(v.TensorValue? && v.t.dtype == BFloat16)
    ensures Encode(v).Err? ==> Encode(v).error == if v.Scalar? then BadValue else BadDtype
    ensures Encode(v).Ok? ==> Decode(Encode(v).value).Ok? && SameValue(v, Decode(Encode(v).value).value)
  {
    if v.TensorValue? && v.t.dtype != BFloat16 {
      TensorTrip(v.t);
      ContiguousSame(v.t);
    }
  }

  // ------------------------------------------------------------ dictionary

  ghost predicate UniqueKeys(raw: seq<(string, Value)>) {
    forall i, j :: 0 <= i < j < |raw| ==> raw[i].0 != raw[j].0
  }

  ghost predicate HasKey(raw: seq<(string, Value)>, k: string) {
    exists i :: 0 <= i < |raw| && raw[i].0 == k
  }

  predicate Encodable(v: Value) {
    !v.Scalar? && !(v.TensorValue? && v.t.dtype == BFloat16)
  }

  lemma EncodedIff(v: Value)
    requires ValidValue(v)
    ensures Encode(v).Ok? <==> Encodable(v)
  {
  }

  /** The entry of every key encodes its value. */
  ghost predicate EncodesAll(raw: seq<(string, Value)>, entries: map<string, Entry>) {
    && (forall i {:trigger raw[i]} :: 0 <= i < |raw| ==>
          raw[i].0 in entries && ValidValue(raw[i].1) && Encode(raw[i].1) == Ok(entries[raw[i].0]))
    && forall k {:trigger k in entries} :: k in entries ==> HasKey(raw, k)
  }

  /** Encodes a dictionary, given in its own order; the first value that cannot
      be encoded fails the whole call. */
  method EncodeInfo(raw: seq<(string, Value)>) returns (r: Result<map<string, Entry>>)
    requires UniqueKeys(raw) && forall i {:trigger raw[i]} :: 0 <= i < |raw| ==> ValidValue(raw[i].1)
    ensures r.Ok? <==> forall i {:trigger raw[i]} :: 0 <= i < |raw| ==> Encodable(raw[i].1)
    ensures r.Ok? ==> EncodesAll(raw, r.value)
  {
    var entries: map<string, Entry> := map[];
    for i := 0 to |raw|
      invariant EncodesAll(raw[..i], entries)
      invariant forall j {:trigger raw[j]} :: 0 <= j < i ==> Encodable(raw[j].1)
    {
      var (key, value) := raw[i];
      var entry := Encode(value);
      EncodedIff(value);
      if entry.Err? {
        return Err(entry.error);
      }
      EncodesOneMore(raw, i, entries, entry.value);
      entries := entries[key := entry.value];
    }
    assert raw[..|raw|] == raw;
    r := Ok(entries);
  }

  lemma EncodesOneMore(raw: seq<(string, Value)>, i: nat, entries: map<string, Entry>, entry: Entry)
    requires UniqueKeys(raw) && i < |raw| && EncodesAll(raw[..i], entries)
    requires ValidValue(raw[i].1) && Encode(raw[i].1) == Ok(entry)
    ensures EncodesAll(raw[..i + 1], entries[raw[i].0 := entry])
  {
    var more := entries[raw[i].0 := entry];
    forall j {:trigger raw[..i + 1][j]} | 0 <= j < i + 1
      ensures raw[j].0 in more && ValidValue(raw[j].1) && Encode(raw[j].1) == Ok(more[raw[j].0])
    {
      assert j < i ==> raw[..i][j] == raw[j];
    }
    forall k | k in more ensures HasKey(raw[..i + 1], k) {
      if k == raw[i].0 {
        assert raw[..i + 1][i].0 == k;
      } else {
        var j :| 0 <= j < i && raw[..i][j].0 == k;
        assert raw[..i + 1][j].0 == k;
      }
    }
  }

  /** Rebuilds a dictionary key by key; the first entry that cannot be rebuilt
      fails the whole call. */
  method DecodeInfo(entries: map<string, Entry>) returns (r: Result<map<string, Value>>)
    ensures r.Ok? <==> forall k {:trigger entries[k]} :: k in entries ==> Decode(entries[k]).Ok?
    ensures r.Ok? ==> r.value.Keys == entries.Keys
                      && forall k {:trigger entries[k]} :: k in entries ==> Decode(entries[k]) == Ok(r.value[k])
  {
    var info: map<string, Value> := map[];
    var todo := entries.Keys;
    while todo != {}
      invariant todo <= entries.Keys && info.Keys == entries.Keys - todo
      invariant forall k {:trigger entries[k]} :: k in entries && k !in todo ==> Decode(entries[k]) == Ok(info[k])
      decreases |todo|
    {
      var k :| k in todo;
      todo := todo - {k};
      var value := Decode(entries[k]);
      if value.Err? {
        return Err(value.error);
      }
      info := info[k := value.value];
    }
    r := Ok(info);
  }

  /** The whole trip: an encodable dictionary comes back with the same keys and
      the same value at every key. */
  method Transfer(raw: seq<(string, Value)>) returns (r: Result<map<string, Value>>)
    requires UniqueKeys(raw) && forall i {:trigger raw[i]} :: 0 <= i < |raw| ==> ValidValue(raw[i].1)
    ensures r.Ok? <==> forall i {:trigger raw[i]} :: 0 <= i < |raw| ==> Encodable(raw[i].1)
    ensures r.Ok? ==> forall i {:trigger raw[i]} :: 0 <= i < |raw| ==>
                        raw[i].0 in r.value && SameValue(raw[i].1, r.value[raw[i].0])
    ensures r.Ok? ==> forall k :: k in r.value ==> HasKey(raw, k)
  {
    var encoded := EncodeInfo(raw);
    if encoded.Err? {
      return Err(encoded.error);
    }
    forall i | 0 <= i < |raw|
      ensures Decode(encoded.value[raw[i].0]).Ok? && SameValue(raw[i].1, Decode(encoded.value[raw[i].0]).value)
    {
      RoundTrip(raw[i].1);
    }
    r := DecodeInfo(encoded.value);
  }
}
