/** The tagged encoding of values for remote calls, and its decoder. */
module Serialization {
  import Base64

  /** A Python value. A set lists its members in the order iteration yields them. */
  datatype Value =
    | None
    | Bool(b: bool)
    | Int(i: int)
    | Float(f: real)
    | Str(s: string)
    | Bytes(data: seq<Base64.Byte>)
    | Complex(re: real, im: real)
    | List(elems: seq<Value>)
    | Tuple(items: seq<Value>)
    | Dict(entries: map<string, Value>)
    | Set(members: seq<Value>)

  /** What travels: a JSON value. */
  datatype Wire =
    | WNull
    | WBool(b: bool)
    | WInt(i: int)
    | WFloat(f: real)
    | WStr(s: string)
    | WList(elems: seq<Wire>)
    | WDict(entries: map<string, Wire>)

  datatype Outcome = Ok(value: Value) | Raised

  datatype Option<T> = Some(value: T) | Nothing

  /** What the decoder of an array, a tensor or a pickle does: give the data back undecoded, for want of
      the library or of permission, or decode it. */
  datatype Foreign = HandedBack | TakenApart(outcome: Outcome)

  /** The decoders of foreign types, and the order in which a dictionary yields its keys. */
  datatype Env = Env(foreign: map<string, Wire> -> Foreign, keyOrder: map<string, Wire> -> seq<string>)

  datatype Tag = ListTag | DictTag | BytesTag | ComplexTag | SetTag | ForeignTag | ReprTag | OtherTag

  const TYPE := "__type__"

  // ---- Encoding -------------------------------------------------------------

  function Tagged(tag: string, key: string, w: Wire): Wire {
    WDict(map[TYPE := WStr(tag), key := w])
  }

  function SerializeValue(v: Value): Wire {
    match v
    case None => WNull
    case Bool(b) => WBool(b)
    case Int(i) => WInt(i)
    case Float(f) => WFloat(f)
    case Str(s) => WStr(s)
    case List(vs) => Tagged("list", "values", WList(SerializeEach(vs)))
    case Tuple(vs) => Tagged("list", "values", WList(SerializeEach(vs)))
    case Dict(m) => Tagged("dict", "items", WDict(map k | k in m :: SerializeValue(m[k])))
    case Bytes(data) => Tagged("bytes", "data", WStr(Base64.Encode(data)))
    case Complex(re, im) => WDict(map[TYPE := WStr("complex"), "real" := WFloat(re), "imag" := WFloat(im)])
    case Set(vs) => Tagged("set", "values", WList(SerializeEach(vs)))
  }

  function SerializeEach(vs: seq<Value>): seq<Wire> {
    seq(|vs|, i requires 0 <= i < |vs| => SerializeValue(vs[i]))
  }

  function SerializeEntries(m: map<string, Value>): map<string, Wire> {
    map k | k in m :: SerializeValue(m[k])
  }

  /** Arguments travel untagged at the top: lists and dictionaries as themselves. */
  function SerializeArgs(args: Value): Wire {
    match args
    case List(vs) => WList(SerializeEach(vs))
    case Tuple(vs) => WList(SerializeEach(vs))
    case Dict(m) => WDict(SerializeEntries(m))
    case _ => SerializeValue(args)
  }

  // ---- Python's notions -----------------------------------------------------

  predicate Truthy(w: Wire) {
    match w
    case WNull => false
    case WBool(b) => b
    case WInt(i) => i != 0
    case WFloat(f) => f != 0.0
    case WStr(s) => s != ""
    case WList(ws) => ws != []
    case WDict(m) => m != map[]
  }

  predicate IsNumber(v: Value) {
    v.Bool? || v.Int? || v.Float? || v.Complex?
  }

  /** Numbers compare across types: True == 1 == 1.0. */
  function NumberOf(v: Value): (real, real)
    requires IsNumber(v)
  {
    match v
    case Bool(b) => (if b then 1.0 else 0.0, 0.0)
    case Int(i) => (i as real, 0.0)
    case Float(f) => (f, 0.0)
    case Complex(re, im) => (re, im)
  }

  predicate PyEq(u: Value, v: Value) {
    if IsNumber(u) && IsNumber(v) then NumberOf(u) == NumberOf(v)
    else if u.Tuple? && v.Tuple? then
      |u.items| == |v.items| && forall i | 0 <= i < |u.items| :: PyEq(u.items[i], v.items[i])
    else u == v
  }

  predicate IsHashable(v: Value) {
    match v
    case List(_) => false
    case Dict(_) => false
    case Set(_) => false
    case Tuple(vs) => forall i | 0 <= i < |vs| :: IsHashable(vs[i])
    case _ => true
  }

  predicate AllHashable(vs: seq<Value>) {
    forall i | 0 <= i < |vs| :: IsHashable(vs[i])
  }

  predicate Distinct(vs: seq<Value>) {
    forall i, j | 0 <= i < j < |vs| :: !PyEq(vs[i], vs[j])
  }

  predicate Holds(vs: seq<Value>, v: Value) {
    exists i | 0 <= i < |vs| :: PyEq(vs[i], v)
  }

  /** The members a set built from `vs` keeps: the first of equal ones. */
  function Deduplicated(vs: seq<Value>): seq<Value> {
    if vs == [] then []
    else
      var kept := Deduplicated(vs[..|vs| - 1]);
      if Holds(kept, vs[|vs| - 1]) then kept else kept + [vs[|vs| - 1]]
  }

  /** The seven values Python counts as false. */
  lemma FalsyIff(w: Wire)
    ensures !Truthy(w) <==>
      w == WNull || w == WBool(false) || w == WInt(0) || w == WFloat(0.0) || w == WStr("") || w == WList([]) ||
      w == WDict(map[])
  {}

  /** When values are equal: numbers by what they are worth, whatever their types, tuples item by item, and
      anything else only to itself. */
  lemma EqualIff(u: Value, v: Value, b: bool, i: int, f: real, re: real, im: real, us: seq<Value>, vs: seq<Value>)
    ensures PyEq(Bool(b), Int(i)) <==> i == if b then 1 else 0
    ensures PyEq(Bool(b), Float(f)) <==> f == if b then 1.0 else 0.0
    ensures PyEq(Int(i), Float(f)) <==> i as real == f
    ensures PyEq(Int(i), Complex(re, im)) <==> i as real == re && im == 0.0
    ensures PyEq(Float(f), Complex(re, im)) <==> f == re && im == 0.0
    ensures PyEq(Tuple(us), Tuple(vs)) <==> |us| == |vs| && forall k | 0 <= k < |us| :: PyEq(us[k], vs[k])
    ensures !(u.Bool? || u.Int? || u.Float? || u.Complex? || u.Tuple?) ==> (PyEq(u, v) <==> u == v)
  {}

  lemma {:induction false} EqualToItself(u: Value)
    ensures PyEq(u, u)
  {
    if u.Tuple? {
      forall k | 0 <= k < |u.items| ensures PyEq(u.items[k], u.items[k]) { EqualToItself(u.items[k]); }
    }
  }

  lemma {:induction false} EqualBothWays(u: Value, v: Value)
    requires PyEq(u, v)
    ensures PyEq(v, u)
  {
    if u.Tuple? && v.Tuple? {
      forall k | 0 <= k < |u.items| ensures PyEq(v.items[k], u.items[k]) { EqualBothWays(u.items[k], v.items[k]); }
    }
  }

  lemma {:induction false} EqualOnward(u: Value, v: Value, w: Value)
    requires PyEq(u, v) && PyEq(v, w)
    ensures PyEq(u, w)
  {
    if u.Tuple? && v.Tuple? {
      forall k | 0 <= k < |u.items| ensures PyEq(u.items[k], w.items[k]) {
        EqualOnward(u.items[k], v.items[k], w.items[k]);
      }
    }
  }

  /** A tuple can be a member of a set, or a key, exactly when each of its items can. */
  lemma TupleHashesIff(vs: seq<Value>)
    ensures IsHashable(Tuple(vs)) <==> forall v | v in vs :: IsHashable(v)
  {
    if forall v | v in vs :: IsHashable(v) {
      forall i | 0 <= i < |vs| ensures IsHashable(vs[i]) { assert vs[i] in vs; }
    }
  }

  /** What a set built from a list holds: no two equal members, each taken from the list, and an equal of
      every item of the list. */
  lemma {:induction false} DeduplicatedIsSet(vs: seq<Value>)
    ensures Distinct(Deduplicated(vs))
    ensures forall v | v in Deduplicated(vs) :: v in vs
    ensures forall v | v in vs :: Holds(Deduplicated(vs), v)
  {
    if vs != [] {
      var front, last := vs[..|vs| - 1], vs[|vs| - 1];
      DeduplicatedIsSet(front);
      var kept := Deduplicated(front);
      EqualToItself(last);
      assert vs == front + [last];
      if !Holds(kept, last) {
        DistinctSnoc(kept, last);
        forall v | v in vs ensures Holds(kept + [last], v) { HoldsSnoc(kept, last, v); }
      }
    }
  }

  lemma DistinctSnoc(kept: seq<Value>, last: Value)
    requires Distinct(kept) && !Holds(kept, last)
    ensures Distinct(kept + [last])
  {
    var vs := kept + [last];
    forall i, j | 0 <= i < j < |vs| ensures !PyEq(vs[i], vs[j]) {
      assert vs[i] == kept[i];
    }
  }

  lemma HoldsSnoc(kept: seq<Value>, last: Value, v: Value)
    requires Holds(kept, v) || v == last
    ensures Holds(kept + [last], v)
  {
    EqualToItself(last);
    var vs := kept + [last];
    if Holds(kept, v) {
      var i :| 0 <= i < |kept| && PyEq(kept[i], v);
      assert vs[i] == kept[i];
    } else {
      assert vs[|kept|] == last;
    }
  }

  // ---- Decoding -------------------------------------------------------------

  function TagOf(w: Wire): Tag {
    if w == WStr("list") then ListTag
    else if w == WStr("dict") then DictTag
    else if w == WStr("bytes") then BytesTag
    else if w == WStr("complex") then ComplexTag
    else if w == WStr("set") then SetTag
    else if w == WStr("ndarray") || w == WStr("tensor") || w == WStr("pickle") then ForeignTag
    else if w == WStr("repr") then ReprTag
    else OtherTag
  }

  /** Data handed back undecoded. */
  function Plain(w: Wire): Value {
    match w
    case WNull => None
    case WBool(b) => Bool(b)
    case WInt(i) => Int(i)
    case WFloat(f) => Float(f)
    case WStr(s) => Str(s)
    case WList(ws) => List(seq(|ws|, i requires 0 <= i < |ws| => Plain(ws[i])))
    case WDict(m) => Dict(map k | k in m :: Plain(m[k]))
  }

  predicate AllOk(rs: seq<Outcome>) {
    forall i | 0 <= i < |rs| :: rs[i].Ok?
  }

  function Values(rs: seq<Outcome>): seq<Value>
    requires AllOk(rs)
  {
    seq(|rs|, i requires 0 <= i < |rs| => rs[i].value)
  }

  function GatherList(rs: seq<Outcome>): Outcome {
    if AllOk(rs) then Ok(List(Values(rs))) else Raised
  }

  function GatherSet(rs: seq<Outcome>): Outcome {
    if AllOk(rs) && AllHashable(Values(rs)) then Ok(Set(Deduplicated(Values(rs)))) else Raised
  }

  predicate AllOkIn(rs: map<string, Outcome>) {
    forall k | k in rs :: rs[k].Ok?
  }

  function GatherDict(rs: map<string, Outcome>): Outcome {
    if AllOkIn(rs) then Ok(Dict(map k | k in rs :: rs[k].value)) else Raised
  }

  predicate IsReal(w: Wire) {
    w.WBool? || w.WInt? || w.WFloat?
  }

  function RealOf(w: Wire): real
    requires IsReal(w)
  {
    match w
    case WBool(b) => if b then 1.0 else 0.0
    case WInt(i) => i as real
    case WFloat(f) => f
  }

  function DecodeBytes(m: map<string, Wire>): Outcome {
    if "data" !in m || !m["data"].WStr? then Raised
    else match Base64.Decode(m["data"].s)
      case Malformed => Raised
      case Bytes(data) => Ok(Bytes(data))
  }

  function DecodeComplex(m: map<string, Wire>): Outcome {
    if "real" !in m || "imag" !in m || !IsReal(m["real"]) || !IsReal(m["imag"]) then Raised
    else Ok(Complex(RealOf(m["real"]), RealOf(m["imag"])))
  }

  function Strings(ss: seq<string>): seq<Outcome> {
    seq(|ss|, i requires 0 <= i < |ss| => Ok(Str(ss[i])))
  }

  function Characters(s: string): seq<string> {
    seq(|s|, i requires 0 <= i < |s| => [s[i]])
  }

  function Deserialize(env: Env, w: Wire): Outcome
    decreases w, 2
  {
    match w
    case WList(ws) => GatherList(DeserializeEach(env, ws))
    case WDict(m) =>
      if TYPE in m && Truthy(m[TYPE]) then DeserializeTyped(env, TagOf(m[TYPE]), w)
      else GatherDict(DeserializeEntries(env, w))
    case _ => Ok(Plain(w))
  }

  /** What iterating over `m.get("values", [])` and decoding each item gives; None when it cannot iterate. */
  function DeserializeValues(env: Env, w: Wire): Option<seq<Outcome>>
    requires w.WDict?
    decreases w, 0
  {
    var m := w.entries;
    if "values" !in m then Some([])
    else match m["values"]
      case WList(ws) => Some(DeserializeEach(env, ws))
      case WStr(s) => Some(Strings(Characters(s)))
      case WDict(d) => Some(Strings(env.keyOrder(d)))
      case _ => Nothing
  }

  function DeserializeTyped(env: Env, tag: Tag, w: Wire): Outcome
    requires w.WDict?
    decreases w, 1
  {
    var m := w.entries;
    match tag
    case ListTag =>
      (match DeserializeValues(env, w) case Nothing => Raised case Some(rs) => GatherList(rs))
    case SetTag =>
      (match DeserializeValues(env, w) case Nothing => Raised case Some(rs) => GatherSet(rs))
    case DictTag =>
      if "items" !in m then Ok(Dict(map[]))
      else if !m["items"].WDict? then Raised
      else GatherDict(DeserializeEntries(env, m["items"]))
    case BytesTag => DecodeBytes(m)
    case ComplexTag => DecodeComplex(m)
    case ForeignTag =>
      (match env.foreign(m) case HandedBack => Ok(Plain(w)) case TakenApart(outcome) => outcome)
    case ReprTag => Ok(if "value" in m then Plain(m["value"]) else Str(""))
    case OtherTag => Ok(Plain(w))
  }

  function DeserializeEach(env: Env, ws: seq<Wire>): seq<Outcome>
    decreases ws, 3
  {
    seq(|ws|, i requires 0 <= i < |ws| => Deserialize(env, ws[i]))
  }

  function DeserializeEntries(env: Env, w: Wire): map<string, Outcome>
    requires w.WDict?
    decreases w, 0
  {
    map k | k in w.entries :: Deserialize(env, w.entries[k])
  }

  // ---- What comes back ------------------------------------------------------

  /** `v` with every tuple outside a set turned into a list. */
  function Listified(v: Value): Value {
    match v
    case List(vs) => List(ListifiedEach(vs))
    case Tuple(vs) => List(ListifiedEach(vs))
    case Dict(m) => Dict(map k | k in m :: Listified(m[k]))
    case _ => v
  }

  function ListifiedEach(vs: seq<Value>): seq<Value> {
    seq(|vs|, i requires 0 <= i < |vs| => Listified(vs[i]))
  }

  function ListifiedEntries(m: map<string, Value>): map<string, Value> {
    map k | k in m :: Listified(m[k])
  }

  /** A value Python can hold: the members of a set are hashable and distinct. */
  predicate WellFormed(v: Value) {
    match v
    case List(vs) => forall i | 0 <= i < |vs| :: WellFormed(vs[i])
    case Tuple(vs) => forall i | 0 <= i < |vs| :: WellFormed(vs[i])
    case Dict(m) => forall k | k in m :: WellFormed(m[k])
    case Set(vs) => AllHashable(vs) && Distinct(vs) && forall i | 0 <= i < |vs| :: WellFormed(vs[i])
    case _ => true
  }

  /** No set inside `v` has a tuple as a member. */
  predicate FlatSets(v: Value) {
    match v
    case List(vs) => AllFlat(vs)
    case Tuple(vs) => AllFlat(vs)
    case Dict(m) => forall k | k in m :: FlatSets(m[k])
    case Set(vs) => forall i | 0 <= i < |vs| :: !vs[i].Tuple?
    case _ => true
  }

  predicate AllFlat(vs: seq<Value>) {
    forall i | 0 <= i < |vs| :: FlatSets(vs[i])
  }

  predicate AllFlatIn(m: map<string, Value>) {
    forall k | k in m :: FlatSets(m[k])
  }

  function Expected(v: Value): Outcome {
    if FlatSets(v) then Ok(Listified(v)) else Raised
  }

  lemma DistinctFront(front: seq<Value>, last: Value)
    requires Distinct(front + [last])
    ensures Distinct(front) && !Holds(front, last)
  {
    var vs := front + [last];
    assert forall i | 0 <= i < |front| :: vs[i] == front[i];
    assert vs[|front|] == last;
  }

  lemma DeduplicatedSnoc(front: seq<Value>, last: Value)
    requires Deduplicated(front) == front && !Holds(front, last)
    ensures Deduplicated(front + [last]) == front + [last]
  {
    assert (front + [last])[..|front|] == front;
  }

  lemma {:induction false} DistinctIsKept(vs: seq<Value>)
    requires Distinct(vs)
    ensures Deduplicated(vs) == vs
  {
    if vs != [] {
      var front, last := vs[..|vs| - 1], vs[|vs| - 1];
      assert vs == front + [last];
      DistinctFront(front, last);
      DistinctIsKept(front);
      DeduplicatedSnoc(front, last);
    }
  }

  lemma TaggedListDecodes(env: Env, ws: seq<Wire>)
    ensures Deserialize(env, Tagged("list", "values", WList(ws))) == GatherList(DeserializeEach(env, ws))
  {
    var w := Tagged("list", "values", WList(ws));
    assert TagOf(w.entries[TYPE]) == ListTag;
    assert w.entries["values"] == WList(ws);
    assert DeserializeValues(env, w) == Some(DeserializeEach(env, ws));
    assert Deserialize(env, w) == DeserializeTyped(env, ListTag, w);
  }

  lemma TaggedSetDecodes(env: Env, ws: seq<Wire>)
    ensures Deserialize(env, Tagged("set", "values", WList(ws))) == GatherSet(DeserializeEach(env, ws))
  {
    var w := Tagged("set", "values", WList(ws));
    assert TagOf(w.entries[TYPE]) == SetTag;
    assert w.entries["values"] == WList(ws);
    assert DeserializeValues(env, w) == Some(DeserializeEach(env, ws));
    assert Deserialize(env, w) == DeserializeTyped(env, SetTag, w);
  }

  /** A decoded set is one: no two equal members, and an equal of every item that was sent, each of which
      could be hashed. */
  lemma DecodedSetIsSet(env: Env, ws: seq<Wire>)
    requires Deserialize(env, Tagged("set", "values", WList(ws))).Ok?
    ensures var v, rs := Deserialize(env, Tagged("set", "values", WList(ws))).value, DeserializeEach(env, ws);
      v.Set? && Distinct(v.members) &&
      forall i | 0 <= i < |ws| :: rs[i].Ok? && IsHashable(rs[i].value) && Holds(v.members, rs[i].value)
  {
    TaggedSetDecodes(env, ws);
    var rs := DeserializeEach(env, ws);
    DeduplicatedIsSet(Values(rs));
    forall i | 0 <= i < |ws|
      ensures IsHashable(rs[i].value) && Holds(Deduplicated(Values(rs)), rs[i].value)
    {
      assert Values(rs)[i] == rs[i].value && Values(rs)[i] in Values(rs);
    }
  }

  /** How each value is written: scalars as themselves, all else as a table tagged with its type. */
  lemma WireForm(v: Value)
    ensures SerializeValue(v) ==
      match v
      case None => WNull
      case Bool(b) => WBool(b)
      case Int(i) => WInt(i)
      case Float(f) => WFloat(f)
      case Str(s) => WStr(s)
      case List(vs) => WDict(map["__type__" := WStr("list"), "values" := WList(SerializeEach(vs))])
      case Tuple(vs) => WDict(map["__type__" := WStr("list"), "values" := WList(SerializeEach(vs))])
      case Set(vs) => WDict(map["__type__" := WStr("set"), "values" := WList(SerializeEach(vs))])
      case Dict(m) => WDict(map["__type__" := WStr("dict"), "items" := WDict(SerializeEntries(m))])
      case Bytes(data) => WDict(map["__type__" := WStr("bytes"), "data" := WStr(Base64.Encode(data))])
      case Complex(re, im) =>
        WDict(map["__type__" := WStr("complex"), "real" := WFloat(re), "imag" := WFloat(im)])
  {}

  lemma TaggedDictDecodes(env: Env, d: map<string, Wire>)
    ensures Deserialize(env, Tagged("dict", "items", WDict(d))) == GatherDict(DeserializeEntries(env, WDict(d)))
  {
    var w := Tagged("dict", "items", WDict(d));
    assert TagOf(w.entries[TYPE]) == DictTag;
    assert w.entries["items"] == WDict(d);
    assert Deserialize(env, w) == DeserializeTyped(env, DictTag, w);
  }

  lemma TaggedBytesDecodes(env: Env, text: string)
    ensures Deserialize(env, Tagged("bytes", "data", WStr(text))) ==
      DecodeBytes(map[TYPE := WStr("bytes"), "data" := WStr(text)])
  {
    var w := Tagged("bytes", "data", WStr(text));
    assert TagOf(w.entries[TYPE]) == BytesTag;
    assert Deserialize(env, w) == DeserializeTyped(env, BytesTag, w);
  }

  lemma BytesRoundTrip(env: Env, data: seq<Base64.Byte>)
    ensures Deserialize(env, SerializeValue(Bytes(data))) == Ok(Bytes(data))
  {
    TaggedBytesDecodes(env, Base64.Encode(data));
    Base64.DecodeEncode(data);
    assert SerializeValue(Bytes(data)) == Tagged("bytes", "data", WStr(Base64.Encode(data)));
  }

  lemma ComplexRoundTrip(env: Env, re: real, im: real)
    ensures Deserialize(env, SerializeValue(Complex(re, im))) == Ok(Complex(re, im))
  {
    var w := SerializeValue(Complex(re, im));
    assert TagOf(w.entries[TYPE]) == ComplexTag;
    assert w.entries["real"] == WFloat(re) && w.entries["imag"] == WFloat(im);
  }

  /** A list comes back when every item does. */
  lemma ListGathers(vs: seq<Value>, rs: seq<Outcome>)
    requires |rs| == |vs| && forall i | 0 <= i < |vs| :: rs[i] == Expected(vs[i])
    ensures GatherList(rs) == if AllFlat(vs) then Ok(List(ListifiedEach(vs))) else Raised
  {
    if AllFlat(vs) {
      assert AllOk(rs) && Values(rs) == ListifiedEach(vs);
    } else {
      var i :| 0 <= i < |vs| && !FlatSets(vs[i]);
      assert !rs[i].Ok?;
    }
  }

  lemma DictGathers(m: map<string, Value>, rs: map<string, Outcome>)
    requires rs.Keys == m.Keys && forall k | k in m :: rs[k] == Expected(m[k])
    ensures GatherDict(rs) == if AllFlatIn(m) then Ok(Dict(ListifiedEntries(m))) else Raised
  {
    if AllFlatIn(m) {
      assert AllOkIn(rs) && (map k | k in rs :: rs[k].value) == ListifiedEntries(m);
    } else {
      var k :| k in m && !FlatSets(m[k]);
      assert !rs[k].Ok?;
    }
  }

  /** A set comes back when none of its members is a tuple; a list would not be hashable. */
  lemma SetGathers(vs: seq<Value>, rs: seq<Outcome>)
    requires AllHashable(vs) && Distinct(vs)
    requires |rs| == |vs| && forall i | 0 <= i < |vs| :: rs[i] == Expected(vs[i])
    ensures GatherSet(rs) == Expected(Set(vs))
  {
    if FlatSets(Set(vs)) {
      forall i | 0 <= i < |vs| ensures rs[i] == Ok(vs[i]) {
        assert IsHashable(vs[i]);
      }
      assert AllOk(rs) && Values(rs) == vs;
      DistinctIsKept(vs);
    } else {
      var i :| 0 <= i < |vs| && vs[i].Tuple?;
      if AllOk(rs) {
        assert !IsHashable(Values(rs)[i]);
      }
    }
  }

  /**
   * Decoding an encoded value gives the value back with tuples as lists, whatever keys its
   * dictionaries have, exactly when no set in it holds a tuple; otherwise decoding raises.
   */
  lemma {:induction false} RoundTrip(env: Env, v: Value)
    requires WellFormed(v)
    ensures Deserialize(env, SerializeValue(v)) == Expected(v)
    decreases v, 2
  {
    match v {
      case List(vs) => ListRoundTrip(env, vs);
      case Tuple(vs) => ListRoundTrip(env, vs);
      case Set(vs) => SetRoundTrip(env, vs);
      case Dict(m) => DictRoundTrip(env, m);
      case Bytes(data) => BytesRoundTrip(env, data);
      case Complex(re, im) => ComplexRoundTrip(env, re, im);
      case _ =>
    }
  }

  lemma {:induction false} EachRoundTrip(env: Env, vs: seq<Value>)
    requires forall i | 0 <= i < |vs| :: WellFormed(vs[i])
    ensures forall i | 0 <= i < |vs| :: DeserializeEach(env, SerializeEach(vs))[i] == Expected(vs[i])
    decreases vs, 0
  {
    forall i | 0 <= i < |vs| ensures DeserializeEach(env, SerializeEach(vs))[i] == Expected(vs[i]) {
      RoundTrip(env, vs[i]);
    }
  }

  lemma {:induction false} ListRoundTrip(env: Env, vs: seq<Value>)
    requires forall i | 0 <= i < |vs| :: WellFormed(vs[i])
    ensures Deserialize(env, Tagged("list", "values", WList(SerializeEach(vs)))) == Expected(List(vs))
    decreases vs, 1
  {
    EachRoundTrip(env, vs);
    TaggedListDecodes(env, SerializeEach(vs));
    ListGathers(vs, DeserializeEach(env, SerializeEach(vs)));
  }

  lemma {:induction false} SetRoundTrip(env: Env, vs: seq<Value>)
    requires WellFormed(Set(vs))
    ensures Deserialize(env, Tagged("set", "values", WList(SerializeEach(vs)))) == Expected(Set(vs))
    decreases vs, 1
  {
    EachRoundTrip(env, vs);
    TaggedSetDecodes(env, SerializeEach(vs));
    SetGathers(vs, DeserializeEach(env, SerializeEach(vs)));
  }

  lemma {:induction false} DictRoundTrip(env: Env, m: map<string, Value>)
    requires WellFormed(Dict(m))
    ensures Deserialize(env, SerializeValue(Dict(m))) == Expected(Dict(m))
    decreases Dict(m), 1
  {
    EntriesRoundTrip(env, m);
    var ws := SerializeEntries(m);
    assert SerializeValue(Dict(m)) == Tagged("dict", "items", WDict(ws));
    TaggedDictDecodes(env, ws);
    DictGathers(m, DeserializeEntries(env, WDict(ws)));
    assert Listified(Dict(m)) == Dict(ListifiedEntries(m));
  }

  lemma {:induction false} EntriesRoundTrip(env: Env, m: map<string, Value>)
    requires forall k | k in m :: WellFormed(m[k])
    ensures forall k | k in m :: DeserializeEntries(env, WDict(SerializeEntries(m)))[k] == Expected(m[k])
    decreases Dict(m), 0
  {
    forall k | k in m ensures DeserializeEntries(env, WDict(SerializeEntries(m)))[k] == Expected(m[k]) {
      assert m[k] < Dict(m);
      RoundTrip(env, m[k]);
    }
  }

  /** No tuple inside `v`. */
  predicate TupleFree(v: Value) {
    match v
    case List(vs) => forall i | 0 <= i < |vs| :: TupleFree(vs[i])
    case Tuple(_) => false
    case Dict(m) => forall k | k in m :: TupleFree(m[k])
    case Set(vs) => forall i | 0 <= i < |vs| :: !vs[i].Tuple?
    case _ => true
  }

  lemma {:induction false} OnlyTuplesChange(v: Value)
    ensures TupleFree(v) <==> FlatSets(v) && Listified(v) == v
  {
    match v {
      case List(vs) =>
        forall i | 0 <= i < |vs| ensures TupleFree(vs[i]) <==> FlatSets(vs[i]) && Listified(vs[i]) == vs[i] {
          OnlyTuplesChange(vs[i]);
        }
        assert Listified(v) == List(ListifiedEach(vs));
        if Listified(v) == v {
          assert forall i | 0 <= i < |vs| :: ListifiedEach(vs)[i] == vs[i];
        }
      case Dict(m) =>
        forall k | k in m ensures TupleFree(m[k]) <==> FlatSets(m[k]) && Listified(m[k]) == m[k] {
          assert m[k] < v;
          OnlyTuplesChange(m[k]);
        }
        assert Listified(v) == Dict(ListifiedEntries(m));
        if Listified(v) == v {
          assert forall k | k in m :: ListifiedEntries(m)[k] == m[k];
        }
      case _ =>
    }
  }

  /** The very same value comes back exactly when it holds no tuple. */
  lemma ExactRoundTripIff(env: Env, v: Value)
    requires WellFormed(v)
    ensures Deserialize(env, SerializeValue(v)) == Ok(v) <==> TupleFree(v)
  {
    RoundTrip(env, v);
    OnlyTuplesChange(v);
  }

  // ---- Arguments ------------------------------------------------------------

  /** An argument list, like any argument that is not a dictionary, survives as a value does. */
  lemma ArgsRoundTrip(env: Env, args: Value)
    requires WellFormed(args) && !args.Dict?
    ensures Deserialize(env, SerializeArgs(args)) == Expected(args)
  {
    match args {
      case List(vs) =>
        EachRoundTrip(env, vs);
        ListGathers(vs, DeserializeEach(env, SerializeEach(vs)));
      case Tuple(vs) =>
        EachRoundTrip(env, vs);
        ListGathers(vs, DeserializeEach(env, SerializeEach(vs)));
      case _ => RoundTrip(env, args);
    }
  }

  predicate IsScalar(v: Value) {
    v.None? || v.Bool? || v.Int? || v.Float? || v.Str?
  }

  /** Whether the untagged dictionary reads as a tagged value. */
  predicate LooksTagged(m: map<string, Value>) {
    TYPE in m && Truthy(SerializeValue(m[TYPE]))
  }

  function KwargsTag(m: map<string, Value>): Tag
    requires TYPE in m
  {
    TagOf(SerializeValue(m[TYPE]))
  }

  predicate IsNestedDict(m: map<string, Value>) {
    m.Keys == {TYPE, "items"} && m["items"].Dict?
  }

  predicate AllScalar(m: map<string, Value>) {
    forall k | k in m :: IsScalar(m[k])
  }

  /**
   * When a dictionary of keyword arguments survives: it does not look tagged; or its tag is unknown, or
   * that of a decoder that hands it back, and all it holds is scalars; or such a decoder happens to make
   * this very dictionary; or it repeats the very form of an encoded dictionary.
   */
  predicate KwargsSurvive(env: Env, m: map<string, Value>)
    decreases Dict(m)
  {
    if !LooksTagged(m) then AllFlatIn(m)
    else if KwargsTag(m) == OtherTag then AllScalar(m)
    else if KwargsTag(m) == ForeignTag then
      match env.foreign(SerializeEntries(m))
      case HandedBack => AllScalar(m)
      case TakenApart(outcome) => outcome == Ok(Listified(Dict(m)))
    else
      KwargsTag(m) == DictTag && IsNestedDict(m) &&
      (assert m["items"] < Dict(m);
       KwargsSurvive(env, m["items"].entries))
  }

  lemma UntaggedSurvives(env: Env, m: map<string, Value>)
    requires WellFormed(Dict(m)) && !LooksTagged(m)
    ensures Deserialize(env, SerializeArgs(Dict(m))) == Expected(Dict(m))
  {
    EntriesRoundTrip(env, m);
    var ws := SerializeEntries(m);
    assert Deserialize(env, WDict(ws)) == GatherDict(DeserializeEntries(env, WDict(ws)));
    DictGathers(m, DeserializeEntries(env, WDict(ws)));
    assert Listified(Dict(m)) == Dict(ListifiedEntries(m));
  }

  /** How far one can follow "items". */
  function ItemsDepth(v: Value): nat {
    if v.Dict? && "items" in v.entries then
      assert v.entries["items"] < v;
      1 + ItemsDepth(v.entries["items"])
    else 0
  }

  lemma {:induction false} ListifiedKeepsDepth(v: Value)
    ensures ItemsDepth(Listified(v)) == ItemsDepth(v)
  {
    if v.Dict? && "items" in v.entries {
      assert v.entries["items"] < v;
      ListifiedKeepsDepth(v.entries["items"]);
      assert Listified(v).entries["items"] == Listified(v.entries["items"]);
    }
  }

  lemma {:induction false} EncodingDeepens(v: Value)
    ensures ItemsDepth(Plain(SerializeValue(v))) >= ItemsDepth(v)
    ensures v.Dict? ==> ItemsDepth(Plain(SerializeValue(v))) > ItemsDepth(v)
  {
    if v.Dict? {
      var inner := Plain(WDict(SerializeEntries(v.entries)));
      assert Plain(SerializeValue(v)).entries["items"] == inner;
      if "items" in v.entries {
        assert v.entries["items"] < v;
        EncodingDeepens(v.entries["items"]);
        assert inner.entries["items"] == Plain(SerializeValue(v.entries["items"]));
      }
    }
  }

  /** Left undecoded, only a scalar reads as itself. */
  lemma PlainIsListifiedIff(v: Value)
    ensures Plain(SerializeValue(v)) == Listified(v) <==> IsScalar(v)
  {
    if v.Dict? {
      EncodingDeepens(v);
      ListifiedKeepsDepth(v);
    }
  }

  function PlainEntries(m: map<string, Value>): map<string, Value> {
    map k | k in m :: Plain(SerializeValue(m[k]))
  }

  lemma PlainOfEntries(m: map<string, Value>)
    ensures Plain(WDict(SerializeEntries(m))) == Dict(PlainEntries(m))
  {
    assert Plain(WDict(SerializeEntries(m))).entries == PlainEntries(m);
  }

  lemma SameEntriesIff(a: map<string, Value>, b: map<string, Value>)
    requires a.Keys == b.Keys
    ensures a == b <==> forall k | k in a :: a[k] == b[k]
  {}

  lemma PlainSurvivesIff(m: map<string, Value>)
    ensures Plain(WDict(SerializeEntries(m))) == Listified(Dict(m)) <==> AllScalar(m)
  {
    PlainOfEntries(m);
    assert Listified(Dict(m)) == Dict(ListifiedEntries(m));
    SameEntriesIff(PlainEntries(m), ListifiedEntries(m));
    forall k | k in m ensures PlainEntries(m)[k] == ListifiedEntries(m)[k] <==> IsScalar(m[k]) {
      PlainIsListifiedIff(m[k]);
    }
  }

  /** Dictionaries that no decoder of this module takes apart. */
  lemma UndecodedSurvivesIff(env: Env, m: map<string, Value>)
    requires LooksTagged(m) && KwargsTag(m) in {OtherTag, ForeignTag}
    ensures Deserialize(env, SerializeArgs(Dict(m))) == Ok(Listified(Dict(m))) <==> KwargsSurvive(env, m)
  {
    var w := WDict(SerializeEntries(m));
    assert Deserialize(env, w) == DeserializeTyped(env, KwargsTag(m), w);
    PlainSurvivesIff(m);
  }

  /** Any other tag but "dict" gives something that is no dictionary, or one tagged otherwise. */
  lemma KnownTagLoses(env: Env, m: map<string, Value>)
    requires LooksTagged(m) && KwargsTag(m) !in {OtherTag, DictTag, ForeignTag}
    ensures Deserialize(env, SerializeArgs(Dict(m))) != Ok(Listified(Dict(m)))
  {
    var w := WDict(SerializeEntries(m));
    assert Deserialize(env, w) == DeserializeTyped(env, KwargsTag(m), w);
    if KwargsTag(m) == ReprTag {
      TagMeans(m[TYPE]);
      assert Listified(Dict(m)).entries[TYPE] == Str("repr");
      if "value" in m {
        PlainTag(m["value"]);
      }
    }
  }

  /** A tag is known only from its text. */
  lemma TagMeans(v: Value)
    ensures TagOf(SerializeValue(v)) == ReprTag ==> v == Str("repr")
    ensures TagOf(SerializeValue(v)) == DictTag ==> v == Str("dict")
  {}

  lemma PlainTag(v: Value)
    ensures Plain(SerializeValue(v)).Dict? ==>
      TYPE in Plain(SerializeValue(v)).entries && Plain(SerializeValue(v)).entries[TYPE] != Str("repr")
  {
    if Plain(SerializeValue(v)).Dict? {
      assert SerializeValue(v).entries[TYPE].s != "repr";
    }
  }

  lemma DictTagDecodes(env: Env, m: map<string, Value>)
    requires LooksTagged(m) && KwargsTag(m) == DictTag
    ensures "items" !in m ==> Deserialize(env, SerializeArgs(Dict(m))) == Ok(Dict(map[]))
    ensures "items" in m && !SerializeValue(m["items"]).WDict? ==>
      Deserialize(env, SerializeArgs(Dict(m))) == Raised
    ensures "items" in m && SerializeValue(m["items"]).WDict? ==>
      Deserialize(env, SerializeArgs(Dict(m))) == GatherDict(DeserializeEntries(env, SerializeValue(m["items"])))
  {
    var w := WDict(SerializeEntries(m));
    assert Deserialize(env, w) == DeserializeTyped(env, DictTag, w);
  }

  lemma DictItemsDecode(env: Env, m: map<string, Value>)
    requires LooksTagged(m) && KwargsTag(m) == DictTag && "items" in m && m["items"].Dict?
    ensures var w := Tagged("dict", "items", SerializeArgs(m["items"]));
      Deserialize(env, SerializeArgs(Dict(m))) == GatherDict(DeserializeEntries(env, w))
  {
    DictTagDecodes(env, m);
    assert SerializeValue(m["items"]) == Tagged("dict", "items", SerializeArgs(m["items"]));
  }

  lemma TaggedEntries(env: Env, inner: Wire)
    ensures var rs := DeserializeEntries(env, Tagged("dict", "items", inner));
      rs.Keys == {TYPE, "items"} && rs[TYPE] == Ok(Str("dict")) && rs["items"] == Deserialize(env, inner)
  {}

  lemma DictItems(env: Env, m: map<string, Value>)
    requires LooksTagged(m) && KwargsTag(m) == DictTag && "items" in m && m["items"].Dict?
    ensures Deserialize(env, SerializeArgs(Dict(m))) == Ok(Listified(Dict(m))) <==>
      IsNestedDict(m) && Deserialize(env, SerializeArgs(m["items"])) == Ok(Listified(m["items"]))
  {
    DictItemsDecode(env, m);
    TagMeans(m[TYPE]);
    TaggedEntries(env, SerializeArgs(m["items"]));
    NestedDict(env, m, DeserializeEntries(env, Tagged("dict", "items", SerializeArgs(m["items"]))));
    assert Listified(Dict(m)) == Dict(ListifiedEntries(m));
  }

  /** Another encoded value under "items" brings its own tag. */
  lemma TaggedItems(env: Env, m: map<string, Value>)
    requires LooksTagged(m) && KwargsTag(m) == DictTag && "items" in m && !m["items"].Dict?
    requires SerializeValue(m["items"]).WDict?
    ensures Deserialize(env, SerializeArgs(Dict(m))) != Ok(Listified(Dict(m)))
  {
    DictTagDecodes(env, m);
    TagMeans(m[TYPE]);
    var w := SerializeValue(m["items"]);
    assert w.entries[TYPE].s != "dict";
    assert DeserializeEntries(env, w)[TYPE] == Ok(Str(w.entries[TYPE].s));
    assert ListifiedEntries(m)[TYPE] == Str("dict");
  }

  /** The items of a dictionary tagged "dict" are read where the whole dictionary was meant. */
  lemma DictTagSurvivesIff(env: Env, m: map<string, Value>)
    requires LooksTagged(m) && KwargsTag(m) == DictTag
    ensures Deserialize(env, SerializeArgs(Dict(m))) == Ok(Listified(Dict(m))) <==>
      IsNestedDict(m) && Deserialize(env, SerializeArgs(m["items"])) == Ok(Listified(m["items"]))
  {
    if "items" in m && m["items"].Dict? {
      DictItems(env, m);
    } else if "items" in m && SerializeValue(m["items"]).WDict? {
      TaggedItems(env, m);
    } else {
      DictTagDecodes(env, m);
      assert TYPE in Listified(Dict(m)).entries;
    }
  }

  lemma NestedDict(env: Env, m: map<string, Value>, rs: map<string, Outcome>)
    requires TYPE in m && m[TYPE] == Str("dict") && "items" in m && m["items"].Dict?
    requires rs.Keys == {TYPE, "items"} && rs[TYPE] == Ok(Str("dict"))
    requires rs["items"] == Deserialize(env, SerializeArgs(m["items"]))
    ensures GatherDict(rs) == Ok(Dict(ListifiedEntries(m))) <==>
      IsNestedDict(m) && Deserialize(env, SerializeArgs(m["items"])) == Ok(Listified(m["items"]))
  {
    if IsNestedDict(m) && rs["items"] == Ok(Listified(m["items"])) {
      assert AllOkIn(rs);
      assert (map k | k in rs :: rs[k].value) == ListifiedEntries(m);
    }
    if GatherDict(rs) == Ok(Dict(ListifiedEntries(m))) {
      var es := map k | k in rs :: rs[k].value;
      assert es == ListifiedEntries(m);
      assert es.Keys == rs.Keys && ListifiedEntries(m).Keys == m.Keys;
      assert es["items"] == ListifiedEntries(m)["items"];
    }
  }

  /**
   * Keyword arguments come back exactly under `KwargsSurvive`, a condition on the dictionary and, for
   * foreign tags, their decoders; in particular whenever it has no key "__type__" and no set in it holds
   * a tuple.
   */
  lemma {:induction false} KwargsRoundTripIff(env: Env, m: map<string, Value>)
    requires WellFormed(Dict(m))
    ensures Deserialize(env, SerializeArgs(Dict(m))) == Ok(Listified(Dict(m))) <==> KwargsSurvive(env, m)
    decreases Dict(m)
  {
    if !LooksTagged(m) {
      UntaggedSurvives(env, m);
    } else if KwargsTag(m) in {OtherTag, ForeignTag} {
      UndecodedSurvivesIff(env, m);
    } else if KwargsTag(m) == DictTag {
      DictTagSurvivesIff(env, m);
      if IsNestedDict(m) {
        assert m["items"] < Dict(m);
        KwargsRoundTripIff(env, m["items"].entries);
      }
    } else {
      KnownTagLoses(env, m);
    }
  }

  /** A keyword argument named "__type__" can turn the dictionary into something else. */
  lemma TagKeyIsMisread(env: Env)
    ensures Deserialize(env, SerializeArgs(Dict(map[TYPE := Str("list"), "a" := Int(1)]))) == Ok(List([]))
  {
    var m := map[TYPE := Str("list"), "a" := Int(1)];
    var w := WDict(SerializeEntries(m));
    assert w.entries[TYPE] == WStr("list") && "values" !in w.entries;
    assert Deserialize(env, w) == DeserializeTyped(env, ListTag, w);
    assert DeserializeValues(env, w) == Some([]);
    assert Values([]) == [];
  }

  /** A set of tuples travels as a set of lists, which cannot be built. */
  lemma TupleInSetRaises(env: Env)
    ensures Deserialize(env, SerializeValue(Set([Tuple([Int(1)])]))) == Raised
  {
    assert !FlatSets(Set([Tuple([Int(1)])])) by {
      assert Set([Tuple([Int(1)])]).members[0].Tuple?;
    }
    RoundTrip(env, Set([Tuple([Int(1)])]));
  }

  // ---- Tables no encoder wrote ----------------------------------------------

  /** The tags that are not lists or sets: what each reads of its table, and that any other tag hands the
      whole table back. */
  lemma TagReads(env: Env, m: map<string, Wire>)
    requires "__type__" in m
    ensures m["__type__"] == WStr("repr") ==>
      Deserialize(env, WDict(m)) == Ok(if "value" in m then Plain(m["value"]) else Str(""))
    ensures m["__type__"] == WStr("ndarray") || m["__type__"] == WStr("tensor") || m["__type__"] == WStr("pickle") ==>
      Deserialize(env, WDict(m)) ==
        match env.foreign(m) case HandedBack => Ok(Plain(WDict(m))) case TakenApart(outcome) => outcome
    ensures m["__type__"] == WStr("dict") ==>
      ("items" !in m ==> Deserialize(env, WDict(m)) == Ok(Dict(map[]))) &&
      ("items" in m && !m["items"].WDict? ==> Deserialize(env, WDict(m)) == Raised)
    ensures m["__type__"] == WStr("bytes") && ("data" !in m || !m["data"].WStr?) ==>
      Deserialize(env, WDict(m)) == Raised
    ensures m["__type__"] == WStr("complex") && ("real" !in m || "imag" !in m) ==>
      Deserialize(env, WDict(m)) == Raised
    ensures m["__type__"] == WStr("complex") && "real" in m && "imag" in m && m["real"].WInt? && m["imag"].WInt? ==>
      Deserialize(env, WDict(m)) == Ok(Complex(m["real"].i as real, m["imag"].i as real))
    ensures var known := {"list", "dict", "bytes", "complex", "set", "ndarray", "tensor", "pickle", "repr"};
      m["__type__"].WStr? && m["__type__"].s != "" && m["__type__"].s !in known ==>
      Deserialize(env, WDict(m)) == Ok(Plain(WDict(m)))
  {}

  /** The list of texts, as values. */
  predicate IsTexts(r: Outcome, ss: seq<string>) {
    r.Ok? && r.value.List? && |r.value.elems| == |ss| &&
    forall i | 0 <= i < |ss| :: r.value.elems[i] == Str(ss[i])
  }

  predicate IsCharacters(ss: seq<string>, s: string) {
    |ss| == |s| && forall i | 0 <= i < |s| :: ss[i] == [s[i]]
  }

  /** What a list tag makes of values that are no list: the characters of a text, the keys of a table in
      their order, nothing of nothing; anything else cannot be iterated. */
  lemma ListTagIterates(env: Env, m: map<string, Wire>, ss: seq<string>)
    requires "__type__" in m && m["__type__"] == WStr("list")
    ensures "values" !in m ==> Deserialize(env, WDict(m)) == Ok(List([]))
    ensures "values" in m && m["values"].WStr? && IsCharacters(ss, m["values"].s) ==>
      IsTexts(Deserialize(env, WDict(m)), ss)
    ensures "values" in m && m["values"].WDict? && ss == env.keyOrder(m["values"].entries) ==>
      IsTexts(Deserialize(env, WDict(m)), ss)
    ensures "values" in m && !m["values"].WStr? && !m["values"].WDict? && !m["values"].WList? ==>
      Deserialize(env, WDict(m)) == Raised
  {
    ListTagGathers(env, m);
    StringsGather(ss);
    assert Values([]) == [];
    if "values" in m && m["values"].WStr? && IsCharacters(ss, m["values"].s) {
      assert Characters(m["values"].s) == ss;
    }
  }

  lemma ListTagGathers(env: Env, m: map<string, Wire>)
    requires "__type__" in m && m["__type__"] == WStr("list")
    ensures DeserializeValues(env, WDict(m)).Nothing? ==> Deserialize(env, WDict(m)) == Raised
    ensures DeserializeValues(env, WDict(m)).Some? ==>
      Deserialize(env, WDict(m)) == GatherList(DeserializeValues(env, WDict(m)).value)
  {
    var w := WDict(m);
    assert m[TYPE] == WStr("list") && Truthy(m[TYPE]) && TagOf(m[TYPE]) == ListTag;
    assert Deserialize(env, w) == DeserializeTyped(env, ListTag, w);
  }

  lemma StringsGather(ss: seq<string>)
    ensures IsTexts(GatherList(Strings(ss)), ss)
  {}
}
