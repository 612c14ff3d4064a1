/** Messages between processes: small objects travel inline, large ones through
    a shared-memory segment that the sender creates and the receiver unlinks. */
module IpcStore {
  import opened Common

  type Byte = bv8
  type Bytes = seq<Byte>
  type Store = map<string, Bytes>

  /** The serializer, assumed to give back what it was given. */
  datatype Codec<!T> = Codec(serialize: T -> Bytes, deserialize: Bytes -> T)

  ghost predicate Faithful<T(!new)>(c: Codec<T>) {
    forall x {:trigger c.serialize(x)} :: c.deserialize(c.serialize(x)) == x
  }

  datatype Meta = Meta(name: string, size: nat)
  datatype Message<T> = Shm(meta: Meta) | Inline(obj: T)

  /** A segment for a payload: the operating system may round its size up. */
  function Segment(payload: Bytes, padding: Bytes): Bytes {
    payload + padding
  }

  predicate UsesShm<T>(c: Codec<T>, x: T, threshold: int) {
    |c.serialize(x)| > threshold
  }

  /** The process-wide store of shared-memory segments. */
  class SharedMemory<!T(!new)> {
    var segments: Store

    constructor ()
      ensures segments == map[]
    {
      segments := map[];
    }

    /** Creates a segment; its name must not be taken. */
    method Create(name: string, contents: Bytes)
      requires name !in segments
      modifies this
      ensures segments == old(segments)[name := contents]
    {
      segments := segments[name := contents];
    }

    method Unlink(name: string)
      requires name in segments
      modifies this
      ensures segments == old(segments) - {name}
    {
      segments := segments - {name};
    }

    /** Creates a segment and writes the payload; an empty one cannot be created.
        A given name that is taken is unlinked first; without a name the system
        picks an unused one. */
    method WriteBytes(payload: Bytes, name: Option<string>, unused: string, padding: Bytes) returns (r: Option<Meta>)
      requires unused !in segments
      modifies this
      ensures r.Some? <==> payload != []
      ensures payload == [] ==> segments == old(segments)
      ensures r.Some? ==> var n := if name.Some? then name.value else unused;
                          r.value == Meta(n, |payload|) && segments == old(segments)[n := Segment(payload, padding)]
    {
      if payload == [] {
        return None;
      }
      var n := if name.Some? then name.value else unused;
      if n in segments {
        Unlink(n);
      }
      Create(n, Segment(payload, padding));
      r := Some(Meta(n, |payload|));
    }

    /** Reads a payload and unlinks its segment; a missing segment is an error. */
    method ReadBytes(meta: Meta) returns (r: Option<Bytes>)
      modifies this
      ensures r.Some? <==> meta.name in old(segments)
      ensures r.None? ==> segments == old(segments)
      ensures r.Some? ==> segments == old(segments) - {meta.name}
                          && r.value == old(segments)[meta.name][..Min(meta.size, |old(segments)[meta.name]|)]
    {
      if meta.name !in segments {
        return None;
      }
      var segment := segments[meta.name];
      Unlink(meta.name);
      r := Some(segment[..Min(meta.size, |segment|)]);
    }

    /** Sends an object: by segment when it is larger than the threshold. */
    method EncodeForIpc(c: Codec<T>, x: T, threshold: int, unused: string, padding: Bytes) returns (m: Message<T>)
      requires threshold >= 0 && unused !in segments
      modifies this
      ensures m == Sent(c, x, threshold, unused)
      ensures |c.serialize(x)| > threshold ==> m == Shm(Meta(unused, |c.serialize(x)|)) && unused in segments
      ensures |c.serialize(x)| <= threshold ==> m == Inline(x) && segments == old(segments)
      ensures segments == StoreAfterSend(c, old(segments), x, threshold, unused, padding)
    {
      var payload := c.serialize(x);
      if |payload| > threshold {
        var meta := WriteBytes(payload, None, unused, padding);
        m := Shm(meta.value);
      } else {
        m := Inline(x);
      }
    }

    /** Receives an object. */
    method LoadFromIpc(c: Codec<T>, m: Message<T>) returns (x: T)
      requires m.Shm? ==> m.meta.name in segments && m.meta.size <= |segments[m.meta.name]|
      modifies this
      ensures x == Loaded(c, old(segments), m)
      ensures segments == StoreAfterLoad(old(segments), m)
    {
      if m.Shm? {
        var data := ReadBytes(m.meta);
        x := c.deserialize(data.value);
      } else {
        x := m.obj;
      }
    }
  }

  function Sent<T>(c: Codec<T>, x: T, threshold: int, unused: string): Message<T> {
    if UsesShm(c, x, threshold) then Shm(Meta(unused, |c.serialize(x)|)) else Inline(x)
  }

  function StoreAfterSend<T>(c: Codec<T>, segments: Store, x: T, threshold: int, unused: string,
                             padding: Bytes): Store {
    if UsesShm(c, x, threshold) then segments[unused := Segment(c.serialize(x), padding)] else segments
  }

  function Loaded<T>(c: Codec<T>, segments: Store, m: Message<T>): T
    requires m.Shm? ==> m.meta.name in segments && m.meta.size <= |segments[m.meta.name]|
  {
    match m
    case Shm(meta) => c.deserialize(segments[meta.name][..meta.size])
    case Inline(x) => x
  }

  function StoreAfterLoad<T>(segments: Store, m: Message<T>): Store {
    if m.Shm? then segments - {m.meta.name} else segments
  }

  // ------------------------------------------------------------------ runs

  datatype Entry = Created(name: string) | Unlinked(name: string)

  /** A message under way, with the object it was made from. */
  datatype Flight<T> = Flight(message: Message<T>, origin: T)

  /** The store, the messages under way, every (sent, loaded) pair, and the
      history of segments. */
  datatype State<T> = State(store: Store, flights: seq<Flight<T>>, loads: seq<(T, T)>, history: seq<Entry>)

  datatype Event<T> = Send(x: T, threshold: nat, unused: string, padding: Bytes) | Load(i: nat)

  /** The system never hands out a name in use; a message is loaded once. */
  predicate Enabled<T>(s: State<T>, e: Event<T>) {
    match e
    case Send(_, _, unused, _) => unused !in s.store
    case Load(i) =>
      i < |s.flights| &&
      var m := s.flights[i].message;
      m.Shm? ==> m.meta.name in s.store && m.meta.size <= |s.store[m.meta.name]|
  }

  function Step<T>(c: Codec<T>, s: State<T>, e: Event<T>): State<T>
    requires Enabled(s, e)
  {
    match e
    case Send(x, threshold, unused, padding) =>
      var m := Sent(c, x, threshold, unused);
      State(StoreAfterSend(c, s.store, x, threshold, unused, padding), s.flights + [Flight(m, x)], s.loads,
            if m.Shm? then s.history + [Created(unused)] else s.history)
    case Load(i) =>
      var f := s.flights[i];
      State(StoreAfterLoad(s.store, f.message), Without(s.flights, i),
            s.loads + [(f.origin, Loaded(c, s.store, f.message))],
            if f.message.Shm? then s.history + [Unlinked(f.message.meta.name)] else s.history)
  }

  /** Whether the last history entry about a name is its creation. */
  function Live(history: seq<Entry>, name: string): bool {
    if history == [] then false
    else
      var e := history[|history| - 1];
      if e.name == name then e.Created? else Live(history[..|history| - 1], name)
  }

  /** Segments are created only while absent and unlinked only while present. */
  ghost predicate Alternates(history: seq<Entry>) {
    history != [] ==>
      var e := history[|history| - 1];
      Alternates(history[..|history| - 1]) && Live(history[..|history| - 1], e.name) == e.Unlinked?
  }

  /** Each creation of a segment has exactly one unlinking, except that the
      live one still waits for it. */
  lemma {:induction false} CreatedOnce(history: seq<Entry>, name: string)
    requires Alternates(history)
    ensures Count(history, Created(name)) == Count(history, Unlinked(name)) + if Live(history, name) then 1 else 0
  {
    if history != [] {
      CreatedOnce(history[..|history| - 1], name);
    }
  }

  /** Message i holds its object, inline or in its own segment, which was not
      there initially. */
  ghost predicate Carries<T>(c: Codec<T>, s: State<T>, initial: Store, f: Flight<T>) {
    match f.message
    case Inline(x) => x == f.origin
    case Shm(meta) =>
      && meta.name in s.store && meta.name !in initial
      && meta.size <= |s.store[meta.name]| && s.store[meta.name][..meta.size] == c.serialize(f.origin)
  }

  ghost predicate Names<T>(flights: seq<Flight<T>>, name: string) {
    exists i :: 0 <= i < |flights| && flights[i].message.Shm? && flights[i].message.meta.name == name
  }

  ghost predicate Inv<T(!new)>(c: Codec<T>, s: State<T>, initial: Store) {
    && Faithful(c)
    && (forall i {:trigger s.flights[i]} :: 0 <= i < |s.flights| ==> Carries(c, s, initial, s.flights[i]))
    && (forall i, j {:trigger s.flights[i], s.flights[j]} :: 0 <= i < j < |s.flights| ==>
          s.flights[i].message.Shm? && s.flights[j].message.Shm? ==>
            s.flights[i].message.meta.name != s.flights[j].message.meta.name)
    && (forall name {:trigger name in s.store} :: name in s.store <==> name in initial || Names(s.flights, name))
    && (forall name {:trigger s.store[name]} :: name in initial ==> name in s.store && s.store[name] == initial[name])
    && (forall k {:trigger s.loads[k]} :: 0 <= k < |s.loads| ==> s.loads[k].0 == s.loads[k].1)
    && Alternates(s.history)
    && (forall name {:trigger Live(s.history, name)} :: Live(s.history, name) <==> Names(s.flights, name))
  }

  lemma NamesAppend<T>(flights: seq<Flight<T>>, f: Flight<T>, name: string)
    ensures Names(flights + [f], name) <==> Names(flights, name) || (f.message.Shm? && f.message.meta.name == name)
  {
    var more := flights + [f];
    if Names(flights, name) {
      var i :| 0 <= i < |flights| && flights[i].message.Shm? && flights[i].message.meta.name == name;
      assert more[i] == flights[i];
    }
    assert more[|flights|] == f;
  }

  ghost predicate Distinctly<T>(flights: seq<Flight<T>>) {
    forall i, j {:trigger flights[i], flights[j]} :: 0 <= i < j < |flights| ==>
      flights[i].message.Shm? && flights[j].message.Shm? ==>
          flights[i].message.meta.name != flights[j].message.meta.name
  }

  lemma NamesDrop<T>(flights: seq<Flight<T>>, i: nat, name: string)
    requires Distinctly(flights) && i < |flights|
    ensures Distinctly(Without(flights, i))
    ensures Names(Without(flights, i), name) <==>
            Names(flights, name) && !(flights[i].message.Shm? && flights[i].message.meta.name == name)
  {
    var less := Without(flights, i);
    assert forall k :: 0 <= k < |less| ==> less[k] == flights[if k < i then k else k + 1];
    if Names(flights, name) && !(flights[i].message.Shm? && flights[i].message.meta.name == name) {
      var j :| 0 <= j < |flights| && flights[j].message.Shm? && flights[j].message.meta.name == name;
      assert less[if j < i then j else j - 1] == flights[j];
    }
  }

  lemma HistoryAppend(history: seq<Entry>, e: Entry)
    requires Alternates(history) && Live(history, e.name) == e.Unlinked?
    ensures Alternates(history + [e])
    ensures forall name {:trigger Live(history + [e], name)} ::
              Live(history + [e], name) == if name == e.name then e.Created? else Live(history, name)
  {
    assert (history + [e])[..|history|] == history;
  }

  /** A message under way can always be loaded. */
  lemma LoadEnabled<T(!new)>(c: Codec<T>, s: State<T>, initial: Store, i: nat)
    requires Inv(c, s, initial) && i < |s.flights|
    ensures Enabled(s, Load(i))
    ensures Loaded(c, s.store, s.flights[i].message) == s.flights[i].origin
  {
    assert Carries(c, s, initial, s.flights[i]);
  }

  lemma SendInv<T(!new)>(c: Codec<T>, s: State<T>, initial: Store, e: Event<T>)
    requires Inv(c, s, initial) && e.Send? && e.unused !in s.store
    ensures Inv(c, Step(c, s, e), initial)
  {
    var t := Step(c, s, e);
    var m := Sent(c, e.x, e.threshold, e.unused);
    forall name ensures Names(t.flights, name) <==> Names(s.flights, name) || (m.Shm? && m.meta.name == name) {
      NamesAppend(s.flights, Flight(m, e.x), name);
    }
    assert !Names(s.flights, e.unused);
    if m.Shm? {
      assert t.store[e.unused][..m.meta.size] == c.serialize(e.x);
      HistoryAppend(s.history, Created(e.unused));
    }
    forall i {:trigger t.flights[i]} | 0 <= i < |t.flights| ensures Carries(c, t, initial, t.flights[i]) {
      if i < |s.flights| {
        assert Carries(c, s, initial, s.flights[i]);
        assert s.flights[i].message.Shm? ==> Names(s.flights, s.flights[i].message.meta.name);
      }
    }
  }

  lemma LoadInv<T(!new)>(c: Codec<T>, s: State<T>, initial: Store, i: nat)
    requires Inv(c, s, initial) && i < |s.flights| && Enabled(s, Load(i))
    ensures Inv(c, Step(c, s, Load(i)), initial)
  {
    var t := Step(c, s, Load(i));
    var f := s.flights[i];
    LoadEnabled(c, s, initial, i);
    assert Distinctly(s.flights);
    forall name
      ensures Names(t.flights, name) <==> Names(s.flights, name) && !(f.message.Shm? && f.message.meta.name == name)
    {
      NamesDrop(s.flights, i, name);
    }
    NamesDrop(s.flights, i, "");
    if f.message.Shm? {
      assert Names(s.flights, f.message.meta.name);
      HistoryAppend(s.history, Unlinked(f.message.meta.name));
    }
    forall k {:trigger t.flights[k]} | 0 <= k < |t.flights| ensures Carries(c, t, initial, t.flights[k]) {
      var j := if k < i then k else k + 1;
      assert t.flights[k] == s.flights[j] && Carries(c, s, initial, s.flights[j]);
      assert j < i ==> s.flights[j].message.Shm? && f.message.Shm? ==>
          s.flights[j].message.meta.name != f.message.meta.name;
    }
  }

  /** A run: a sender picks a name not in use, a receiver any message under way. */
  ghost predicate Run<T(!new)>(c: Codec<T>, initial: Store, events: seq<Event<T>>, s: State<T>) {
    if events == [] then s == State(initial, [], [], [])
    else
      var e := events[|events| - 1];
      exists before: State<T> {:trigger Run(c, initial, events[..|events| - 1], before)} ::
        && Run(c, initial, events[..|events| - 1], before)
        && (e.Send? ==> e.unused !in before.store) && (e.Load? ==> e.i < |before.flights|)
        && (Enabled(before, e) ==> s == Step(c, before, e))
  }

  lemma {:induction false} RunInv<T(!new)>(c: Codec<T>, initial: Store, events: seq<Event<T>>, s: State<T>)
    requires Faithful(c) && Run(c, initial, events, s)
    ensures Inv(c, s, initial)
  {
    if events != [] {
      var e := events[|events| - 1];
      var before: State<T> :| Run(c, initial, events[..|events| - 1], before)
                    && (e.Send? ==> e.unused !in before.store) && (e.Load? ==> e.i < |before.flights|)
                    && (Enabled(before, e) ==> s == Step(c, before, e));
      RunInv(c, initial, events[..|events| - 1], before);
      if e.Send? {
        SendInv(c, before, initial, e);
      } else {
        LoadEnabled(c, before, initial, e.i);
        LoadInv(c, before, initial, e.i);
      }
    }
  }

  /** Under every interleaving of sends and loads, each load returned what was
      sent; each segment created has been unlinked once or its message is still
      under way; and with no message under way the store is as it was. */
  lemma StoreBalances<T(!new)>(c: Codec<T>, initial: Store, events: seq<Event<T>>, s: State<T>)
    requires Faithful(c) && Run(c, initial, events, s)
    ensures forall k {:trigger s.loads[k]} :: 0 <= k < |s.loads| ==> s.loads[k].0 == s.loads[k].1
    ensures forall name {:trigger Names(s.flights, name)} ::
              Count(s.history, Created(name))
              == Count(s.history, Unlinked(name)) + if Names(s.flights, name) then 1 else 0
    ensures s.flights == [] ==> s.store == initial
  {
    RunInv(c, initial, events, s);
    forall name
      ensures Count(s.history, Created(name))
              == Count(s.history, Unlinked(name)) + if Names(s.flights, name) then 1 else 0
    {
      CreatedOnce(s.history, name);
    }
  }

  /** In a run, exactly the sends larger than their threshold create a segment. */
  function Large<T>(c: Codec<T>, events: seq<Event<T>>): nat {
    if events == [] then 0
    else
      var e := events[|events| - 1];
      Large(c, events[..|events| - 1]) + if e.Send? && |c.serialize(e.x)| > e.threshold then 1 else 0
  }

  function Creations(history: seq<Entry>): nat {
    if history == [] then 0
    else Creations(history[..|history| - 1]) + if history[|history| - 1].Created? then 1 else 0
  }

  lemma {:induction false} CreatesForLarge<T(!new)>(c: Codec<T>, initial: Store, events: seq<Event<T>>, s: State<T>)
    requires Faithful(c) && Run(c, initial, events, s)
    ensures Creations(s.history) == Large(c, events)
  {
    if events != [] {
      var e := events[|events| - 1];
      var before: State<T> :| Run(c, initial, events[..|events| - 1], before)
                    && (e.Send? ==> e.unused !in before.store) && (e.Load? ==> e.i < |before.flights|)
                    && (Enabled(before, e) ==> s == Step(c, before, e));
      RunInv(c, initial, events[..|events| - 1], before);
      CreatesForLarge(c, initial, events[..|events| - 1], before);
      if e.Load? {
        LoadEnabled(c, before, initial, e.i);
      }
      if s.history != before.history {
        assert s.history[..|s.history| - 1] == before.history;
      }
    }
  }

  /** The objects a run sends, in order. */
  function Objects<T>(events: seq<Event<T>>): seq<T> {
    if events == [] then []
    else
      var e := events[|events| - 1];
      Objects(events[..|events| - 1]) + if e.Send? then [e.x] else []
  }

  function Origins<T>(flights: seq<Flight<T>>): (xs: seq<T>)
    ensures |xs| == |flights|
  {
    seq(|flights|, i requires 0 <= i < |flights| => flights[i].origin)
  }

  function Arrived<T>(loads: seq<(T, T)>): (xs: seq<T>)
    ensures |xs| == |loads|
  {
    seq(|loads|, i requires 0 <= i < |loads| => loads[i].0)
  }

  lemma SendCounts<T>(c: Codec<T>, s: State<T>, e: Event<T>, x: T)
    requires e.Send? && Enabled(s, e)
    ensures var t := Step(c, s, e);
            && t.loads == s.loads
            && Count(Origins(t.flights), x) == Count(Origins(s.flights), x) + if e.x == x then 1 else 0
  {
    assert Origins(Step(c, s, e).flights) == Origins(s.flights) + [e.x];
    CountAppend(Origins(s.flights), e.x, x);
  }

  lemma LoadCounts<T>(c: Codec<T>, s: State<T>, i: nat, x: T)
    requires i < |s.flights| && Enabled(s, Load(i))
    ensures var t := Step(c, s, Load(i));
            Count(Arrived(t.loads), x) + Count(Origins(t.flights), x)
            == Count(Arrived(s.loads), x) + Count(Origins(s.flights), x)
  {
    var t := Step(c, s, Load(i));
    assert Origins(t.flights) == Without(Origins(s.flights), i);
    assert Arrived(t.loads) == Arrived(s.loads) + [s.flights[i].origin];
    CountWithout(Origins(s.flights), i, x);
    CountAppend(Arrived(s.loads), s.flights[i].origin, x);
  }

  /** Every object sent is loaded once or still under way. */
  lemma {:induction false} SentIsLoadedOnce<T(!new)>(c: Codec<T>, initial: Store, events: seq<Event<T>>, s: State<T>,
                                                     x: T)
    requires Faithful(c) && Run(c, initial, events, s)
    ensures Count(Objects(events), x) == Count(Arrived(s.loads), x) + Count(Origins(s.flights), x)
  {
    if events != [] {
      var e, earlier := events[|events| - 1], events[..|events| - 1];
      var before: State<T> :| Run(c, initial, earlier, before)
                    && (e.Send? ==> e.unused !in before.store) && (e.Load? ==> e.i < |before.flights|)
                    && (Enabled(before, e) ==> s == Step(c, before, e));
      SentIsLoadedOnce(c, initial, earlier, before, x);
      if e.Load? {
        RunInv(c, initial, earlier, before);
        LoadEnabled(c, before, initial, e.i);
        LoadCounts(c, before, e.i, x);
        assert Objects(events) == Objects(earlier);
      } else {
        SendCounts(c, before, e, x);
        CountAppend(Objects(earlier), e.x, x);
      }
    }
  }
}
