/** Reassembly of streamed results. */
module Streaming {
  import opened Serialization
  import opened Protocol

  /** What a receiver holds; `metadata` is what the start message brought. */
  datatype Receiver = Receiver(chunks: seq<Wire>, metadata: Wire, complete: bool)

  const EMPTY: Receiver := Receiver([], NO_ENTRIES, false)

  function Nones(n: nat): seq<Wire> {
    seq(n, _ => WNull)
  }

  /** `chunks` filled up with None until it has a place `index`. */
  function Padded(chunks: seq<Wire>, index: int): seq<Wire> {
    if |chunks| <= index then chunks + Nones(index + 1 - |chunks|) else chunks
  }

  /** Where `chunks[index]` is once padded: Python counts negative indices from the end. Nothing on IndexError. */
  function Place(chunks: seq<Wire>, index: int): (place: Option<nat>)
    ensures place.Some? ==> place.value < |Padded(chunks, index)|
  {
    if index >= 0 then Some(index)
    else if |chunks| + index >= 0 then Some(|chunks| + index)
    else Nothing
  }

  function Stored(r: Receiver, data: Wire, index: int): Receiver {
    match Place(r.chunks, index)
    case Some(place) => r.(chunks := Padded(r.chunks, index)[place := data])
    case Nothing => r
  }

  /** The index in the metadata of a chunk; an index that is no integer raises. */
  function IndexOf(metadata: Wire): Option<int> {
    if !metadata.WDict? then Nothing
    else match Get(metadata.entries, "index", WInt(0))
      case WInt(i) => Some(i)
      case WBool(b) => Some(if b then 1 else 0)
      case _ => Nothing
  }

  /** An index that is a fraction raises too, but only when the list has been padded up to it. */
  function Stretched(r: Receiver, metadata: Wire): Receiver {
    if metadata.WDict? && Get(metadata.entries, "index", WInt(0)).WFloat?
    then r.(chunks := Padded(r.chunks, Get(metadata.entries, "index", WInt(0)).f.Floor))
    else r
  }

  function Taken(r: Receiver, m: Fields): Receiver {
    match m.kind
    case STREAM_START => r.(metadata := m.metadata)
    case STREAM_CHUNK =>
      (match IndexOf(m.metadata)
       case Some(i) => Stored(r, m.result, i)
       case Nothing => Stretched(r, m.metadata))
    case STREAM_END => r.(complete := true)
    case _ => r
  }

  /** Receivers by the id they are attached to, and what every receiver ever made holds. */
  datatype Hub<!H> = Hub(attached: map<string, H>, states: map<H, Receiver>)

  function Created<H>(s: Hub<H>, id: string, h: H): Hub<H> {
    Hub(s.attached[id := h], s.states[h := EMPTY])
  }

  predicate Addressed<H>(s: Hub<H>, m: Fields) {
    m.id.WStr? && m.id.s in s.attached
  }

  function Handled<H>(s: Hub<H>, m: Fields): Hub<H> {
    if Addressed(s, m) && s.attached[m.id.s] in s.states then
      var h := s.attached[m.id.s];
      Hub(if m.kind == STREAM_END then s.attached - {m.id.s} else s.attached,
          s.states[h := Taken(s.states[h], m)])
    else s
  }

  /** A chunk whose index has no place raises. */
  predicate Misplaced(r: Receiver, m: Fields) {
    m.kind == STREAM_CHUNK &&
    (IndexOf(m.metadata).Nothing? || Place(r.chunks, IndexOf(m.metadata).value).Nothing?)
  }

  /** `after` is `chunks` with `data` at the place `i`, and None in whatever gap that leaves. */
  ghost predicate SetAt(chunks: seq<Wire>, i: nat, data: Wire, after: seq<Wire>) {
    |after| == (if i < |chunks| then |chunks| else i + 1) &&
    forall k | 0 <= k < |after| ::
      after[k] == if k == i then data else if k < |chunks| then chunks[k] else WNull
  }

  /** `after` is `chunks` filled up with None to at least `n` places. */
  ghost predicate FilledTo(chunks: seq<Wire>, n: int, after: seq<Wire>) {
    |after| == (if n < |chunks| then |chunks| else n) &&
    forall k | 0 <= k < |after| :: after[k] == if k < |chunks| then chunks[k] else WNull
  }

  lemma StoredSets(r: Receiver, data: Wire, index: int)
    ensures index < -|r.chunks| ==> Place(r.chunks, index).Nothing? && Stored(r, data, index) == r
    ensures index >= -|r.chunks| ==>
      Place(r.chunks, index).Some? &&
      SetAt(r.chunks, if index >= 0 then index else |r.chunks| + index, data, Stored(r, data, index).chunks)
  {}

  /** Where a chunk goes: to the number under "index", or to the front without one; true and false are one
      and zero. A number before the first place raises and changes nothing; a fraction raises after the
      list has been filled up to it; anything else raises at once. */
  lemma ChunkIsPlaced(r: Receiver, m: Fields)
    ensures m.kind != STREAM_CHUNK ==> !Misplaced(r, m) && Taken(r, m).chunks == r.chunks
    ensures m.kind == STREAM_CHUNK ==> Taken(r, m).metadata == r.metadata && Taken(r, m).complete == r.complete
    ensures m.kind == STREAM_CHUNK && !m.metadata.WDict? ==> Misplaced(r, m) && Taken(r, m) == r
    ensures m.kind == STREAM_CHUNK && m.metadata.WDict? ==>
      var d := m.metadata.entries;
      match if "index" in d then d["index"] else WInt(0)
      case WInt(i) =>
        if i < -|r.chunks| then Misplaced(r, m) && Taken(r, m) == r
        else !Misplaced(r, m) && SetAt(r.chunks, if i >= 0 then i else |r.chunks| + i, m.result, Taken(r, m).chunks)
      case WBool(b) => !Misplaced(r, m) && SetAt(r.chunks, if b then 1 else 0, m.result, Taken(r, m).chunks)
      case WFloat(x) => Misplaced(r, m) && FilledTo(r.chunks, x.Floor + 1, Taken(r, m).chunks)
      case _ => Misplaced(r, m) && Taken(r, m) == r
  {
    if m.kind == STREAM_CHUNK && IndexOf(m.metadata).Some? {
      StoredSets(r, m.result, IndexOf(m.metadata).value);
    }
  }

  class StreamReceiver {
    const callId: string
    var chunks: seq<Wire>
    var metadata: Wire
    var complete: bool

    ghost function Spec(): Receiver
      reads this
    {
      Receiver(chunks, metadata, complete)
    }

    constructor (callId: string)
      ensures Spec() == EMPTY && this.callId == callId
    {
      this.callId := callId;
      chunks, metadata, complete := [], WDict(map[]), false;
    }

    method OnStart(metadata: Wire)
      modifies this
      ensures Spec() == old(Spec()).(metadata := metadata)
    {
      this.metadata := metadata;
    }

    /** Appends None while the list is no longer than the index. */
    method Pad(index: int)
      modifies this
      ensures Spec() == old(Spec()).(chunks := Padded(old(chunks), index))
    {
      while |chunks| <= index
        invariant chunks == Padded(old(chunks), |chunks| - 1)
        invariant |chunks| == |old(chunks)| || |chunks| <= index + 1
        invariant |chunks| >= |old(chunks)|
        invariant metadata == old(metadata) && complete == old(complete)
        decreases index - |chunks|
      {
        chunks := chunks + [WNull];
      }
    }

    method OnChunk(data: Wire, index: int) returns (raised: bool)
      modifies this
      ensures Spec() == Stored(old(Spec()), data, index)
      ensures raised <==> Place(old(chunks), index).Nothing?
    {
      Pad(index);
      if index >= 0 {
        chunks := chunks[index := data];
        raised := false;
      } else if |chunks| + index >= 0 {
        chunks := chunks[|chunks| + index := data];
        raised := false;
      } else {
        raised := true;
      }
    }

    method OnEnd()
      modifies this
      ensures Spec() == old(Spec()).(complete := true)
    {
      complete := true;
    }

    /** The branch of the manager that a message for this receiver takes. */
    method Take(msg: RPCMessage) returns (raised: bool)
      modifies this
      ensures Spec() == Taken(old(Spec()), msg.Spec())
      ensures raised <==> Misplaced(old(Spec()), msg.Spec())
    {
      raised := false;
      match msg.kind {
        case STREAM_START => OnStart(msg.metadata);
        case STREAM_CHUNK =>
          if IndexOf(msg.metadata).Some? {
            raised := OnChunk(msg.result, IndexOf(msg.metadata).value);
          } else {
            if msg.metadata.WDict? && Get(msg.metadata.entries, "index", WInt(0)).WFloat? {
              Pad(Get(msg.metadata.entries, "index", WInt(0)).f.Floor);
            }
            raised := true;
          }
        case STREAM_END => OnEnd();
        case _ =>
      }
    }
  }

  class StreamManager {
    var streams: map<string, StreamReceiver>
    ghost var made: set<StreamReceiver>

    ghost predicate Valid()
      reads this
    {
      streams.Values <= made
    }

    ghost function Spec(): Hub<StreamReceiver>
      reads this, made
    {
      Hub(streams, map r | r in made :: r.Spec())
    }

    constructor ()
      ensures Valid() && Spec() == Hub(map[], map[])
    {
      streams := map[];
      made := {};
    }

    method CreateStream(callId: string) returns (receiver: StreamReceiver)
      requires Valid()
      modifies this
      ensures Valid() && fresh(receiver)
      ensures Spec() == Created(old(Spec()), callId, receiver)
    {
      receiver := new StreamReceiver(callId);
      streams := streams[callId := receiver];
      made := made + {receiver};
    }

    method HandleMessage(msg: RPCMessage) returns (raised: bool)
      requires Valid()
      modifies this, made
      ensures Valid() && made == old(made)
      ensures Spec() == Handled(old(Spec()), old(msg.Spec()))
      ensures raised <==> old(msg.id.WList? || msg.id.WDict? ||
        (msg.id.WStr? && msg.id.s in streams && Misplaced(streams[msg.id.s].Spec(), msg.Spec())))
    {
      raised := msg.id.WList? || msg.id.WDict?;
      if !(msg.id.WStr? && msg.id.s in streams) {
        return;
      }
      var receiver := streams[msg.id.s];
      assert receiver in made;
      raised := receiver.Take(msg);
      if msg.kind == STREAM_END {
        streams := streams - {msg.id.s};
      }
    }
  }

  // ---- One stream among many ------------------------------------------------

  datatype Event<H> = Create(id: string, h: H) | Arrive(msg: Fields)

  function Step<H>(s: Hub<H>, e: Event<H>): Hub<H> {
    match e
    case Create(id, h) => Created(s, id, h)
    case Arrive(m) => Handled(s, m)
  }

  function Run<H>(s: Hub<H>, es: seq<Event<H>>): Hub<H>
    decreases es
  {
    if es == [] then s else Run(Step(s, es[0]), es[1..])
  }

  /** Different ids have different receivers, and every attached receiver is known. */
  predicate Separate<H>(s: Hub<H>) {
    (forall id | id in s.attached :: s.attached[id] in s.states) &&
    (forall i, j | i in s.attached && j in s.attached && i != j :: s.attached[i] != s.attached[j])
  }

  /** Every receiver is made afresh. */
  predicate FreshCreates<H>(s: Hub<H>, es: seq<Event<H>>)
    decreases es
  {
    es == [] || ((es[0].Create? ==> es[0].h !in s.states) && FreshCreates(Step(s, es[0]), es[1..]))
  }

  /** The messages for a stream, up to its end message or until its id is given to another stream. */
  function Own<H>(es: seq<Event<H>>, id: string): seq<Fields>
    decreases es
  {
    if es == [] then []
    else match es[0]
      case Create(j, _) => if j == id then [] else Own(es[1..], id)
      case Arrive(m) =>
        if m.id != WStr(id) then Own(es[1..], id)
        else if m.kind == STREAM_END then [m]
        else [m] + Own(es[1..], id)
  }

  function TakenAll(r: Receiver, ms: seq<Fields>): Receiver
    decreases ms
  {
    if ms == [] then r else TakenAll(Taken(r, ms[0]), ms[1..])
  }

  predicate Detached<H>(s: Hub<H>, h: H) {
    h in s.states && forall id | id in s.attached :: s.attached[id] != h
  }

  lemma StepKeepsSeparate<H>(s: Hub<H>, e: Event<H>)
    requires Separate(s) && (e.Create? ==> e.h !in s.states)
    ensures Separate(Step(s, e))
  {}

  /** Nothing reaches a receiver that is attached to no id. */
  lemma {:induction false} DetachedIsFrozen<H>(s: Hub<H>, es: seq<Event<H>>, h: H)
    requires Separate(s) && Detached(s, h) && FreshCreates(s, es)
    ensures h in Run(s, es).states && Run(s, es).states[h] == s.states[h]
    decreases es
  {
    if es != [] {
      StepKeepsSeparate(s, es[0]);
      assert Detached(Step(s, es[0]), h);
      DetachedIsFrozen(Step(s, es[0]), es[1..], h);
    }
  }

  /**
   * However streams interleave, a receiver holds what its own messages up to the end say: no other
   * stream reaches it, and nothing after its end does.
   */
  lemma {:induction false} StreamSeesOnlyItsOwn<H>(s: Hub<H>, es: seq<Event<H>>, id: string, h: H)
    requires Separate(s) && FreshCreates(s, es) && id in s.attached && s.attached[id] == h
    ensures h in Run(s, es).states
    ensures Run(s, es).states[h] == TakenAll(s.states[h], Own(es, id))
    decreases es
  {
    if es != [] {
      var next := Step(s, es[0]);
      StepKeepsSeparate(s, es[0]);
      if es[0].Create? && es[0].id == id {
        assert Detached(next, h);
        DetachedIsFrozen(next, es[1..], h);
      } else if es[0].Arrive? && es[0].msg.id == WStr(id) && es[0].msg.kind == STREAM_END {
        assert Detached(next, h);
        DetachedIsFrozen(next, es[1..], h);
        assert TakenAll(s.states[h], [es[0].msg]) == next.states[h];
      } else {
        StreamSeesOnlyItsOwn(next, es[1..], id, h);
        if es[0].Arrive? && es[0].msg.id == WStr(id) {
          var rest := Own(es[1..], id);
          assert ([es[0].msg] + rest)[1..] == rest;
        }
      }
    }
  }

  // ---- Any order, any repetition --------------------------------------------

  predicate IsChunk(m: Fields) {
    m.kind == STREAM_CHUNK
  }

  /** The place a chunk names. */
  predicate Names(m: Fields, i: int) {
    IsChunk(m) && IndexOf(m.metadata) == Some(i)
  }

  /** The chunks name places counted from zero. */
  predicate CountsUp(ms: seq<Fields>) {
    forall m | m in ms && IsChunk(m) :: IndexOf(m.metadata).Some? && IndexOf(m.metadata).value >= 0
  }

  /** The data of the last chunk for place `i`, None if none arrived. */
  function LastFor(ms: seq<Fields>, i: int): Wire {
    if ms == [] then WNull
    else if Names(ms[|ms| - 1], i) then ms[|ms| - 1].result
    else LastFor(ms[..|ms| - 1], i)
  }

  /** One more than the largest place named. */
  function Extent(ms: seq<Fields>): nat {
    if ms == [] then 0
    else
      var n := Extent(ms[..|ms| - 1]);
      var m := ms[|ms| - 1];
      if IsChunk(m) && IndexOf(m.metadata).Some? && IndexOf(m.metadata).value >= n
      then IndexOf(m.metadata).value + 1 else n
  }

  lemma {:induction false} TakenLast(r: Receiver, ms: seq<Fields>)
    requires ms != []
    ensures TakenAll(r, ms) == Taken(TakenAll(r, ms[..|ms| - 1]), ms[|ms| - 1])
    decreases ms
  {
    if |ms| > 1 {
      TakenLast(Taken(r, ms[0]), ms[1..]);
      assert ms[1..][..|ms| - 2] == ms[..|ms| - 1][1..];
    }
  }

  lemma {:induction false} NothingBeyondExtent(ms: seq<Fields>, i: int)
    requires i >= Extent(ms)
    ensures LastFor(ms, i) == WNull
  {
    if ms != [] {
      NothingBeyondExtent(ms[..|ms| - 1], i);
    }
  }

  /** Every place up to the largest named holds the last data sent for it, or None. */
  lemma {:induction false} SlotsHoldTheLast(ms: seq<Fields>)
    requires CountsUp(ms)
    ensures |TakenAll(EMPTY, ms).chunks| == Extent(ms)
    ensures forall i | 0 <= i < Extent(ms) :: TakenAll(EMPTY, ms).chunks[i] == LastFor(ms, i)
  {
    if ms != [] {
      var front, m := ms[..|ms| - 1], ms[|ms| - 1];
      SlotsHoldTheLast(front);
      TakenLast(EMPTY, ms);
      forall i | Extent(front) <= i < Extent(ms) ensures LastFor(front, i) == WNull {
        NothingBeyondExtent(front, i);
      }
    }
  }

  predicate Occurs(ms: seq<Fields>, i: int) {
    exists m :: m in ms && Names(m, i)
  }

  /** The chunks of `data`, each at least once and nothing else, in any order. */
  predicate Carries(ms: seq<Fields>, data: seq<Wire>) {
    (forall m | m in ms && IsChunk(m) ::
      IndexOf(m.metadata).Some? && 0 <= IndexOf(m.metadata).value < |data| &&
      m.result == data[IndexOf(m.metadata).value]) &&
    (forall i | 0 <= i < |data| :: Occurs(ms, i))
  }

  lemma {:induction false} LastForIsSent(ms: seq<Fields>, data: seq<Wire>, i: int)
    requires 0 <= i < |data| && forall m | m in ms && Names(m, i) :: m.result == data[i]
    ensures LastFor(ms, i) == if Occurs(ms, i) then data[i] else WNull
  {
    if ms != [] {
      var front, m := ms[..|ms| - 1], ms[|ms| - 1];
      assert ms == front + [m];
      if !Names(m, i) {
        LastForIsSent(front, data, i);
        assert Occurs(ms, i) <==> Occurs(front, i);
      }
    }
  }

  lemma {:induction false} ExtentBounds(ms: seq<Fields>, n: nat)
    requires forall m, i | m in ms && Names(m, i) :: i < n
    ensures Extent(ms) <= n
    ensures forall m, i | m in ms && Names(m, i) :: i < Extent(ms)
  {
    if ms != [] {
      var front, m := ms[..|ms| - 1], ms[|ms| - 1];
      assert ms == front + [m];
      ExtentBounds(front, n);
      if IsChunk(m) && IndexOf(m.metadata).Some? {
        assert Names(m, IndexOf(m.metadata).value);
      }
    }
  }

  /** Any order and repetition of a sequence's chunks gives exactly that sequence. */
  lemma ChunksReassemble(ms: seq<Fields>, data: seq<Wire>)
    requires Carries(ms, data)
    ensures TakenAll(EMPTY, ms).chunks == data
  {
    SlotsHoldTheLast(ms);
    ExtentBounds(ms, |data|);
    if |data| > 0 {
      assert Occurs(ms, |data| - 1);
      var m :| m in ms && Names(m, |data| - 1);
    }
    forall i | 0 <= i < |data| ensures LastFor(ms, i) == data[i] {
      LastForIsSent(ms, data, i);
    }
  }

  /** In any run, whatever the other streams do and whatever comes after the end. */
  lemma StreamReassembles<H>(s: Hub<H>, es: seq<Event<H>>, id: string, h: H, data: seq<Wire>)
    requires Separate(s) && FreshCreates(s, es)
    requires id in s.attached && s.attached[id] == h && s.states[h] == EMPTY
    requires Carries(Own(es, id), data)
    ensures h in Run(s, es).states && Run(s, es).states[h].chunks == data
  {
    StreamSeesOnlyItsOwn(s, es, id, h);
    ChunksReassemble(Own(es, id), data);
  }

  // ---- From sender to receiver ----------------------------------------------

  /** The ids and clocks a message meets where it is made and where it is read. */
  datatype Transit = Transit(madeUuid: string, madeAt: real, readUuid: string, readAt: real)

  /** What the sender of a stream sends: the start, a chunk with its number, or the end. */
  datatype Sent =
    | SentStart(metadata: Wire, transit: Transit)
    | SentChunk(index: nat, transit: Transit)
    | SentEnd(transit: Transit)

  predicate Numbers(xs: seq<Sent>, n: nat) {
    forall k | 0 <= k < |xs| :: xs[k].SentChunk? ==> xs[k].index < n
  }

  predicate IsSent(xs: seq<Sent>, i: nat) {
    exists k | 0 <= k < |xs| :: xs[k].SentChunk? && xs[k].index == i
  }

  predicate EndIsSent(xs: seq<Sent>) {
    exists k | 0 <= k < |xs| :: xs[k].SentEnd?
  }

  /** The message as it is made for the call. */
  function Outgoing(id: string, data: seq<Wire>, x: Sent): Fields
    requires x.SentChunk? ==> x.index < |data|
  {
    match x
    case SentStart(metadata, t) => MakeStreamStart(WStr(id), metadata, t.madeUuid, t.madeAt)
    case SentChunk(i, t) => MakeStreamChunk(WStr(id), data[i], i, t.madeUuid, t.madeAt)
    case SentEnd(t) => MakeStreamEnd(WStr(id), t.madeUuid, t.madeAt)
  }

  /** The message as it is read from its dictionary form. */
  function Incoming(id: string, data: seq<Wire>, x: Sent): Fields
    requires x.SentChunk? ==> x.index < |data|
  {
    var m := Outgoing(id, data, x);
    match Decoded(Encoded(m), x.transit.readUuid, x.transit.readAt)
    case Message(fields) => fields
    case ValueError => m
  }

  function Arrivals(id: string, data: seq<Wire>, xs: seq<Sent>): (ms: seq<Fields>)
    requires Numbers(xs, |data|)
    ensures |ms| == |xs|
  {
    seq(|xs|, k requires 0 <= k < |xs| => Incoming(id, data, xs[k]))
  }

  /** A chunk arrives with its call's id, its data and its number. */
  lemma ChunkArrives(id: string, data: seq<Wire>, x: Sent)
    requires id != "" && x.SentChunk? && x.index < |data|
    ensures var m := Incoming(id, data, x);
      m.id == WStr(id) && Names(m, x.index) && m.result == data[x.index]
  {
    var m := Outgoing(id, data, x);
    assert m.metadata == WDict(map["index" := WInt(x.index)]);
    assert Get(m.metadata.entries, "index", WInt(0)) == WInt(x.index);
    assert Truthy(m.metadata) by { assert "index" in m.metadata.entries; }
    RoundTrips(m, x.transit.readUuid, x.transit.readAt);
  }

  lemma BracketArrives(id: string, data: seq<Wire>, x: Sent)
    requires id != "" && !x.SentChunk?
    ensures Incoming(id, data, x).id == WStr(id)
    ensures Incoming(id, data, x).kind == if x.SentEnd? then STREAM_END else STREAM_START
  {
    RoundTrips(Outgoing(id, data, x), x.transit.readUuid, x.transit.readAt);
  }

  lemma ArrivalsCarry(id: string, data: seq<Wire>, xs: seq<Sent>)
    requires id != "" && Numbers(xs, |data|)
    requires forall i: nat | i < |data| :: IsSent(xs, i)
    ensures Carries(Arrivals(id, data, xs), data)
  {
    var ms := Arrivals(id, data, xs);
    forall k | 0 <= k < |xs|
      ensures xs[k].SentChunk? ==> Names(ms[k], xs[k].index) && ms[k].result == data[xs[k].index]
      ensures !xs[k].SentChunk? ==> !IsChunk(ms[k])
    {
      if xs[k].SentChunk? {
        ChunkArrives(id, data, xs[k]);
      } else {
        BracketArrives(id, data, xs[k]);
      }
    }
    forall i: nat | i < |data| ensures Occurs(ms, i) {
      assert IsSent(xs, i);
      var k :| 0 <= k < |xs| && xs[k].SentChunk? && xs[k].index == i;
      assert ms[k] in ms && Names(ms[k], i);
    }
  }

  predicate Ends(ms: seq<Fields>) {
    exists m :: m in ms && m.kind == STREAM_END
  }

  lemma {:induction false} CompleteIff(ms: seq<Fields>)
    ensures TakenAll(EMPTY, ms).complete <==> Ends(ms)
  {
    if ms != [] {
      var front, m := ms[..|ms| - 1], ms[|ms| - 1];
      assert ms == front + [m];
      TakenLast(EMPTY, ms);
      CompleteIff(front);
      if m.kind != STREAM_END {
        assert Ends(ms) <==> Ends(front);
      } else {
        assert m in ms;
      }
    }
  }

  lemma EndsIffSent(id: string, data: seq<Wire>, xs: seq<Sent>)
    requires id != "" && Numbers(xs, |data|)
    ensures Ends(Arrivals(id, data, xs)) <==> EndIsSent(xs)
  {
    var ms := Arrivals(id, data, xs);
    forall k | 0 <= k < |xs| ensures ms[k].kind == STREAM_END <==> xs[k].SentEnd? {
      if xs[k].SentChunk? {
        ChunkArrives(id, data, xs[k]);
      } else {
        BracketArrives(id, data, xs[k]);
      }
    }
    if EndIsSent(xs) {
      var k :| 0 <= k < |xs| && xs[k].SentEnd?;
      assert ms[k] in ms;
    }
  }

  /**
   * From end to end: numbered chunks made for a call, written, read, and delivered in any order and
   * as often as you like among other streams give the receiver exactly the data; it is complete
   * exactly when the end has arrived.
   */
  lemma SentStreamReassembles<H>(s: Hub<H>, es: seq<Event<H>>, id: string, h: H, data: seq<Wire>, xs: seq<Sent>)
    requires Separate(s) && FreshCreates(s, es) && id != ""
    requires id in s.attached && s.attached[id] == h && s.states[h] == EMPTY
    requires Numbers(xs, |data|) && Own(es, id) == Arrivals(id, data, xs)
    requires forall i: nat | i < |data| :: IsSent(xs, i)
    ensures h in Run(s, es).states
    ensures Run(s, es).states[h].chunks == data && (Run(s, es).states[h].complete <==> EndIsSent(xs))
  {
    ArrivalsCarry(id, data, xs);
    StreamReassembles(s, es, id, h, data);
    StreamSeesOnlyItsOwn(s, es, id, h);
    CompleteIff(Own(es, id));
    EndsIffSent(id, data, xs);
  }

  // ---- Assembly -------------------------------------------------------------

  /** JSON, text, or the UTF-8 bytes of a text; broken when the metadata is no table. */
  datatype Assembly = Json(value: Wire) | Text(text: string) | Utf8(text: string) | Broken

  function Shown(show: Wire -> string, chunks: seq<Wire>): (texts: seq<string>)
    ensures |texts| == |chunks| && forall i | 0 <= i < |chunks| :: texts[i] == show(chunks[i])
  {
    seq(|chunks|, i requires 0 <= i < |chunks| => show(chunks[i]))
  }

  function Concat(ss: seq<string>): string {
    if ss == [] then "" else ss[0] + Concat(ss[1..])
  }

  /** A single chunk stands for itself. */
  function AssembledJson(chunks: seq<Wire>): Wire {
    if |chunks| == 1 then chunks[0] else WList(chunks)
  }

  /** `show` is Python's `str`. */
  function Assembled(r: Receiver, show: Wire -> string): Assembly {
    if !r.metadata.WDict? then Broken
    else
      var contentType := Get(r.metadata.entries, "content_type", WStr("json"));
      if contentType == WStr("bytes") then Utf8(Concat(Shown(show, r.chunks)))
      else if contentType == WStr("text") then Text(Concat(Shown(show, r.chunks)))
      else Json(AssembledJson(r.chunks))
  }

  predicate IsStart(m: Fields) {
    m.kind == STREAM_START
  }

  predicate Starts(ms: seq<Fields>) {
    exists m :: m in ms && IsStart(m)
  }

  /** The metadata is that of the start messages, wherever among the chunks they arrive. */
  lemma {:induction false} StartIsKept(ms: seq<Fields>, metadata: Wire)
    requires forall m | m in ms && IsStart(m) :: m.metadata == metadata
    ensures TakenAll(EMPTY, ms).metadata == if Starts(ms) then metadata else NO_ENTRIES
  {
    if ms != [] {
      var front, m := ms[..|ms| - 1], ms[|ms| - 1];
      assert ms == front + [m];
      TakenLast(EMPTY, ms);
      StartIsKept(front, metadata);
      if !IsStart(m) {
        assert Starts(ms) <==> Starts(front);
      } else {
        assert m in ms;
      }
    }
  }

  /** Joining keeps every piece, in order. */
  lemma {:induction false} ConcatJoins(a: seq<string>, b: seq<string>, s: string)
    ensures Concat(a + b) == Concat(a) + Concat(b) && Concat([s]) == s
  {
    if a == [] {
      assert a + b == b;
    } else {
      ConcatJoins(a[1..], b, s);
      assert (a + b)[1..] == a[1..] + b;
    }
  }

  /** What a finished stream assembles to, whatever order its messages came in: the pieces joined for bytes
      and for text, the single value or the list of values for JSON, which is also what a stream without a
      start or without a content type is. */
  lemma StreamAssembles<H>(s: Hub<H>, es: seq<Event<H>>, id: string, h: H, data: seq<Wire>, metadata: Wire,
                           show: Wire -> string)
    requires Separate(s) && FreshCreates(s, es)
    requires id in s.attached && s.attached[id] == h && s.states[h] == EMPTY
    requires Carries(Own(es, id), data) && (Starts(Own(es, id)) || metadata == NO_ENTRIES)
    requires forall m | m in Own(es, id) && IsStart(m) :: m.metadata == metadata
    ensures h in Run(s, es).states
    ensures Assembled(Run(s, es).states[h], show) ==
      if !metadata.WDict? then Broken
      else if "content_type" in metadata.entries && metadata.entries["content_type"] == WStr("bytes")
      then Utf8(Concat(Shown(show, data)))
      else if "content_type" in metadata.entries && metadata.entries["content_type"] == WStr("text")
      then Text(Concat(Shown(show, data)))
      else Json(if |data| == 1 then data[0] else WList(data))
  {
    StreamReassembles(s, es, id, h, data);
    StreamSeesOnlyItsOwn(s, es, id, h);
    StartIsKept(Own(es, id), metadata);
  }

}
