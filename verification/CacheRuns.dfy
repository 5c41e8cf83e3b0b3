/** Properties of the package cache: what eviction guarantees, how large the index can get in
    any run, and when an integrity pass leaves only sound entries. */
module CacheRuns {
  import opened OrderedDict
  import opened PackageCache

  // ---------------------------------------------------------------- eviction

  lemma {:induction false} TotalJoin(a: Index, b: Index)
    ensures Total(a + b) == Total(a) + Total(b)
  {
    if a == [] {
      assert a + b == b;
    } else {
      TotalJoin(a[1..], b);
      assert (a + b)[1..] == a[1..] + b;
    }
  }

  lemma TotalWithout(d: Index, i: nat)
    requires i < |d|
    ensures Total(d) == Total(d[..i] + d[i + 1..]) + d[i].value.size
  {
    assert Total(d[i..]) == d[i].value.size + Total(d[i + 1..]) by { assert d[i..][1..] == d[i + 1..]; }
    TotalJoin(d[..i], d[i..]);
    TotalJoin(d[..i], d[i + 1..]);
    assert d == d[..i] + d[i..];
  }

  lemma ItemsWithout(d: Index, i: nat)
    requires i < |d|
    ensures multiset(d) == multiset(d[..i] + d[i + 1..]) + multiset{d[i]}
  {
    assert d == d[..i] + ([d[i]] + d[i + 1..]);
  }

  ghost function Paths(d: Index): set<string> { set x | x in d :: x.value.path }

  /** Eviction ends at or below nine tenths of the maximum, unless a negative maximum empties the index. */
  lemma {:induction false} EvictionMeetsLimit(s: State, maxMb: int)
    ensures var kept := Evicted(s, maxMb).index;
            10 * Total(kept) <= 9 * maxMb * 1_048_576 || (kept == [] && maxMb < 0)
    decreases |s.index|
  {
    if OverLimit(Total(s.index), maxMb) && s.index != [] {
      EvictionMeetsLimit(EvictOne(s), maxMb);
    }
  }

  predicate MustEvict(s: State, maxMb: int) {
    OverLimit(Total(s.index), maxMb) && s.index != []
  }

  lemma EvictionUnfolds(s: State, maxMb: int)
    requires MustEvict(s, maxMb)
    ensures Evicted(s, maxMb) == Evicted(EvictOne(s), maxMb)
    ensures Victims(s, maxMb) == [s.index[LruPos(s.index)]] + Victims(EvictOne(s), maxMb)
  {}

  lemma EvictionStops(s: State, maxMb: int)
    requires !MustEvict(s, maxMb)
    ensures Evicted(s, maxMb) == s && Victims(s, maxMb) == []
  {}

  /** Nothing is evicted, and no file touched, exactly when the recorded total is within nine tenths of
      the maximum or there is nothing to evict. */
  lemma EvictsNothingIff(s: State, maxMb: int)
    ensures Evicted(s, maxMb) == s <==> 10 * Total(s.index) <= 9 * maxMb * 1_048_576 || s.index == []
    ensures Victims(s, maxMb) == [] <==> 10 * Total(s.index) <= 9 * maxMb * 1_048_576 || s.index == []
  {
    if 10 * Total(s.index) <= 9 * maxMb * 1_048_576 || s.index == [] {
      EvictionStops(s, maxMb);
    } else {
      EvictionUnfolds(s, maxMb);
      EvictionConserves(s, maxMb);
      assert |multiset(s.index)| == |multiset(Victims(s, maxMb))| + |multiset(Evicted(s, maxMb).index)|;
    }
  }

  /** The two lists hold the entries of the index, and their sizes. */
  ghost predicate Accounts(d: Index, victims: Index, kept: Index) {
    && multiset(d) == multiset(victims) + multiset(kept)
    && Total(d) == Total(victims) + Total(kept)
  }

  lemma AccountsTaken(d: Index, i: nat, rest: Index, victims: Index, kept: Index)
    requires i < |d| && rest == d[..i] + d[i + 1..] && Accounts(rest, victims, kept)
    ensures Accounts(d, [d[i]] + victims, kept)
  {
    TotalWithout(d, i);
    ItemsWithout(d, i);
    assert ([d[i]] + victims)[1..] == victims;
  }

  /** Every entry is kept or evicted, none twice, and no recorded size is lost. */
  lemma {:induction false} EvictionConserves(s: State, maxMb: int)
    ensures Accounts(s.index, Victims(s, maxMb), Evicted(s, maxMb).index)
    decreases |s.index|
  {
    if MustEvict(s, maxMb) {
      var i, one := LruPos(s.index), EvictOne(s);
      EvictionUnfolds(s, maxMb);
      EvictionConserves(one, maxMb);
      AccountsTaken(s.index, i, one.index, Victims(one, maxMb), Evicted(one, maxMb).index);
    } else {
      EvictionStops(s, maxMb);
    }
  }

  lemma PathsCons(x: Item<Entry>, d: Index)
    ensures Paths([x] + d) == {x.value.path} + Paths(d)
  {
    assert forall y :: y in [x] + d <==> y == x || y in d;
  }

  lemma FilesTaken(files: Files, x: Item<Entry>, d: Index)
    ensures files - {x.value.path} - Paths(d) == files - Paths([x] + d)
  {
    PathsCons(x, d);
  }

  /** The files removed are exactly those of evicted entries. */
  lemma {:induction false} EvictionRemovesVictimFiles(s: State, maxMb: int)
    ensures Evicted(s, maxMb).files == s.files - Paths(Victims(s, maxMb))
    decreases |s.index|
  {
    if MustEvict(s, maxMb) {
      EvictionUnfolds(s, maxMb);
      EvictionRemovesVictimFiles(EvictOne(s), maxMb);
      FilesTaken(s.files, s.index[LruPos(s.index)], Victims(EvictOne(s), maxMb));
    } else {
      EvictionStops(s, maxMb);
      assert Paths([]) == {};
    }
  }

  /** Least recently used goes first: no evicted entry was used after a kept one. */
  lemma {:induction false} EvictionIsLru(s: State, maxMb: int, v: Item<Entry>, k: Item<Entry>)
    requires v in Victims(s, maxMb) && k in Evicted(s, maxMb).index
    ensures v.value.lastAccessed <= k.value.lastAccessed
    decreases |s.index|
  {
    var i := LruPos(s.index);
    EvictionUnfolds(s, maxMb);
    if v == s.index[i] {
      KeptIsOld(s, maxMb, k);
    } else {
      EvictionIsLru(EvictOne(s), maxMb, v, k);
    }
  }

  lemma KeptIsOld(s: State, maxMb: int, k: Item<Entry>)
    requires k in Evicted(s, maxMb).index
    ensures k in s.index
  {
    EvictionConserves(s, maxMb);
    assert k in multiset(Evicted(s, maxMb).index);
    assert k in multiset(s.index);
  }

  /** Putting the last victim back would break the threshold. */
  predicate Minimal(victims: Index, kept: Index, maxMb: int)
    requires victims != []
  {
    10 * (Total(kept) + victims[|victims| - 1].value.size) > 9 * maxMb * 1_048_576
  }

  lemma MinimalCons(x: Item<Entry>, victims: Index, kept: Index, maxMb: int)
    requires victims != [] && Minimal(victims, kept, maxMb)
    ensures Minimal([x] + victims, kept, maxMb)
  {}

  lemma FirstIsMinimal(s: State, maxMb: int)
    requires MustEvict(s, maxMb)
    ensures Minimal([s.index[LruPos(s.index)]], EvictOne(s).index, maxMb)
  {
    TotalWithout(s.index, LruPos(s.index));
  }

  /** Eviction is minimal: with the last victim back, the total would exceed nine tenths of the maximum. */
  lemma {:induction false} EvictionIsMinimal(s: State, maxMb: int)
    requires Victims(s, maxMb) != []
    ensures var victims := Victims(s, maxMb);
            10 * (Total(Evicted(s, maxMb).index) + victims[|victims| - 1].value.size) > 9 * maxMb * 1_048_576
    decreases |s.index|
  {
    var one, x := EvictOne(s), s.index[LruPos(s.index)];
    EvictionUnfolds(s, maxMb);
    if MustEvict(one, maxMb) {
      EvictionUnfolds(one, maxMb);
      EvictionIsMinimal(one, maxMb);
      MinimalCons(x, Victims(one, maxMb), Evicted(one, maxMb).index, maxMb);
    } else {
      EvictionStops(one, maxMb);
      FirstIsMinimal(s, maxMb);
    }
  }

  // ---------------------------------------------------------------- size over whole runs

  datatype Event =
    | StoreWheel(package: string, version: string, source: string, sha256: string, now: real)
    | StoreLayer(id: string, source: string, digest: string, now: real)
    | GetWheel(package: string, version: string, now: real)
    | GetLayer(id: string, now: real)
    | Verify
    | Outside(files: Files)

  /** The configuration of a cache. */
  datatype Env = Env(maxMb: nat, hash: string -> string)

  function Step(env: Env, s: State, e: Event): State {
    match e
    case StoreWheel(p, v, source, sha256, now) =>
      WheelStored(env.hash, Evicted(s, env.maxMb), WheelKey(p, v), source, sha256, now).1
    case StoreLayer(id, source, sha256, now) => LayerStored(Evicted(s, env.maxMb), id, source, sha256, now).1
    case GetWheel(p, v, now) => WheelLookup(env.hash, s, WheelKey(p, v), now).1
    case GetLayer(id, now) => LayerLookup(s, LayerKey(id), now).1
    case Verify => State(Kept(env.hash, s.index, s.files), FilesLeft(env.hash, s.index, s.files))
    case Outside(files) => s.(files := files)
  }

  /** The size recorded by the most recent store of a run, `last` if it stored nothing. */
  function LastStored(env: Env, s: State, es: seq<Event>, last: nat): nat
    decreases es
  {
    if es == [] then last
    else LastStored(env, Step(env, s, es[0]), es[1..], StoredSize(env, s, es[0], last))
  }

  function SizeAt(d: Index, key: string): nat { if Has(d, key) then Get(d, key).size else 0 }

  function StoredSize(env: Env, s: State, e: Event, last: nat): nat {
    match e
    case StoreWheel(p, v, source, sha256, now) =>
      SizeOr(WheelStored(env.hash, Evicted(s, env.maxMb), WheelKey(p, v), source, sha256, now), WheelKey(p, v), last)
    case StoreLayer(id, source, sha256, now) =>
      SizeOr(LayerStored(Evicted(s, env.maxMb), id, source, sha256, now), LayerKey(id), last)
    case _ => last
  }

  /** The size recorded by a store that went well. */
  function SizeOr(r: (Lookup, State), key: string, last: nat): nat {
    if r.0.Hit? then SizeAt(r.1.index, key) else last
  }

  function Run(env: Env, s: State, es: seq<Event>): State
    decreases es
  {
    if es == [] then s else Run(env, Step(env, s, es[0]), es[1..])
  }

  lemma {:induction false} TotalPut(d: Index, k: string, v: Entry)
    ensures Total(Put(d, k, v)) == Total(d) + v.size - if Has(d, k) then Get(d, k).size else 0
    ensures Has(Put(d, k, v), k) && Get(Put(d, k, v), k) == v
  {
    if d != [] && d[0].key != k { TotalPut(d[1..], k, v); }
  }

  lemma {:induction false} TotalDel(d: Index, k: string)
    ensures Total(Del(d, k)) <= Total(d)
  {
    if d != [] && d[0].key != k { TotalDel(d[1..], k); }
  }

  lemma {:induction false} GetWithin(d: Index, k: string)
    requires Has(d, k)
    ensures Get(d, k).size <= Total(d)
  {
    if d[0].key != k { GetWithin(d[1..], k); }
  }

  lemma {:induction false} TotalKept(hash: string -> string, todo: Index, files: Files)
    ensures Total(Kept(hash, todo, files)) <= Total(todo)
  {
    if todo != [] {
      var e := todo[0].value;
      if e.path !in files { TotalKept(hash, todo[1..], files); }
      else if Corrupt(hash, e, files) { TotalKept(hash, todo[1..], files - {e.path}); }
      else { TotalKept(hash, todo[1..], files); }
    }
  }

  /** Without the entry stored last, the index would be within the threshold. */
  predicate Within(env: Env, s: State, last: nat) { !OverLimit(Total(s.index) - last, env.maxMb) }

  lemma LookupSize(hash: string -> string, s: State, key: string, now: real)
    ensures Total(WheelLookup(hash, s, key, now).1.index) <= Total(s.index)
    ensures Total(LayerLookup(s, key, now).1.index) <= Total(s.index)
  {
    TotalDel(s.index, key);
    if Has(s.index, key) { TotalPut(s.index, key, Get(s.index, key).(lastAccessed := now)); }
  }

  lemma PutWithin(d: Index, key: string, v: Entry, maxMb: int)
    requires !OverLimit(Total(d), maxMb)
    ensures !OverLimit(Total(Put(d, key, v)) - v.size, maxMb)
    ensures SizeAt(Put(d, key, v), key) == v.size
  {
    TotalPut(d, key, v);
    if Has(d, key) { GetWithin(d, key); }
  }

  /** A store into an index within the limit leaves it within, but for what is stored. */
  predicate PutFits(d: Index, r: (Lookup, State), key: string, maxMb: int) {
    if r.0.Hit? then !OverLimit(Total(r.1.index) - SizeAt(r.1.index, key), maxMb) else r.1.index == d
  }

  lemma WheelPutSize(hash: string -> string, r: State, key: string, source: string, sha256: string, now: real,
                     maxMb: int)
    requires !OverLimit(Total(r.index), maxMb)
    ensures PutFits(r.index, WheelStored(hash, r, key, source, sha256, now), key, maxMb)
  {
    if source in r.files && r.files[source].File? {
      var content := r.files[source].content;
      var digest := if sha256 != "" then sha256 else hash(content);
      PutWithin(r.index, key, Entry(WHEELS + BaseName(source), digest, |content|, now, Wheel), maxMb);
    }
  }

  lemma LayerPutSize(r: State, id: string, source: string, sha256: string, now: real, maxMb: int)
    requires !OverLimit(Total(r.index), maxMb)
    ensures PutFits(r.index, LayerStored(r, id, source, sha256, now), LayerKey(id), maxMb)
  {
    var (hit, s') := LayerStored(r, id, source, sha256, now);
    if hit.Hit? {
      var dest := LAYERS + id;
      PutWithin(r.index, LayerKey(id), Entry(dest, sha256, DirSize(s'.files, dest), now, Layer), maxMb);
    }
  }

  lemma FitsIsWithin(env: Env, d: Index, r: (Lookup, State), key: string, last: nat)
    requires !OverLimit(Total(d), env.maxMb) && PutFits(d, r, key, env.maxMb)
    ensures Within(env, r.1, SizeOr(r, key, last))
  {}

  lemma EvictedFits(s: State, maxMb: nat)
    ensures !OverLimit(Total(Evicted(s, maxMb).index), maxMb)
  {
    EvictionMeetsLimit(s, maxMb);
  }

  lemma StoreSize(env: Env, s: State, e: Event, last: nat)
    requires e.StoreWheel? || e.StoreLayer?
    ensures Within(env, Step(env, s, e), StoredSize(env, s, e, last))
  {
    var r := Evicted(s, env.maxMb);
    EvictedFits(s, env.maxMb);
    match e
    case StoreWheel(p, v, source, sha256, now) =>
      WheelPutSize(env.hash, r, WheelKey(p, v), source, sha256, now, env.maxMb);
      FitsIsWithin(env, r.index, WheelStored(env.hash, r, WheelKey(p, v), source, sha256, now), WheelKey(p, v), last);
    case StoreLayer(id, source, sha256, now) =>
      LayerPutSize(r, id, source, sha256, now, env.maxMb);
      FitsIsWithin(env, r.index, LayerStored(r, id, source, sha256, now), LayerKey(id), last);
  }

  lemma StepKeepsWithin(env: Env, s: State, e: Event, last: nat)
    requires Within(env, s, last)
    ensures Within(env, Step(env, s, e), StoredSize(env, s, e, last))
  {
    match e
    case StoreWheel(_, _, _, _, _) => StoreSize(env, s, e, last);
    case StoreLayer(_, _, _, _) => StoreSize(env, s, e, last);
    case GetWheel(p, v, now) => LookupSize(env.hash, s, WheelKey(p, v), now);
    case GetLayer(id, now) => LookupSize(env.hash, s, LayerKey(id), now);
    case Verify => TotalKept(env.hash, s.index, s.files);
    case Outside(_) =>
  }

  lemma {:induction false} RunKeepsWithin(env: Env, s: State, es: seq<Event>, last: nat)
    requires Within(env, s, last)
    ensures Within(env, Run(env, s, es), LastStored(env, s, es, last))
    decreases es
  {
    if es != [] {
      StepKeepsWithin(env, s, es[0], last);
      RunKeepsWithin(env, Step(env, s, es[0]), es[1..], StoredSize(env, s, es[0], last));
    }
  }

  /** Starting from an empty index, whatever is stored, overwritten, looked up, verified or
      changed on disk, the recorded total never exceeds nine tenths of the maximum plus the
      size of the entry stored last. */
  lemma RecordedSizeIsBounded(env: Env, files: Files, es: seq<Event>)
    ensures var s := Run(env, State([], files), es);
            10 * Total(s.index) <= 9 * env.maxMb * 1_048_576 + 10 * LastStored(env, State([], files), es, 0)
  {
    RunKeepsWithin(env, State([], files), es, 0);
  }

  // ---------------------------------------------------------------- integrity

  lemma {:induction false} EvictionKeepsKeys(s: State, maxMb: int)
    requires Unique(s.index)
    ensures Unique(Evicted(s, maxMb).index)
    ensures forall k :: Has(Evicted(s, maxMb).index, k) ==> Has(s.index, k)
    decreases |s.index|
  {
    if OverLimit(Total(s.index), maxMb) && s.index != [] {
      var i := LruPos(s.index);
      DelAt(s.index, i);
      DelUnique(s.index, s.index[i].key);
      EvictionKeepsKeys(EvictOne(s), maxMb);
    }
  }

  lemma {:induction false} KeptKeepsKeys(hash: string -> string, d: Index, files: Files)
    requires Unique(d)
    ensures Unique(Kept(hash, d, files))
    ensures forall k :: Has(Kept(hash, d, files), k) ==> Has(d, k)
    decreases |d|
  {
    if d != [] {
      var left := if Corrupt(hash, d[0].value, files) then files - {d[0].value.path} else files;
      KeptKeepsKeys(hash, d[1..], left);
      HasAt(d[1..], d[0].key);
      ConsUnique(d[0], Kept(hash, d[1..], left));
    }
  }

  /** The step stores an entry under the key. */
  predicate StoresKey(e: Event, key: string) {
    (e.StoreWheel? && WheelKey(e.package, e.version) == key) || (e.StoreLayer? && LayerKey(e.id) == key)
  }

  lemma PutKeepsKeys(d: Index, key: string, v: Entry)
    requires Unique(d)
    ensures Unique(Put(d, key, v)) && forall k :: Has(Put(d, key, v), k) ==> Has(d, k) || k == key
  {
    PutUnique(d, key, v);
  }

  /** No step repeats a key, and only a store brings one in. */
  lemma StepKeepsKeys(env: Env, s: State, e: Event)
    requires Unique(s.index)
    ensures Unique(Step(env, s, e).index)
    ensures forall k :: Has(Step(env, s, e).index, k) ==> Has(s.index, k) || StoresKey(e, k)
  {
    match e
    case StoreWheel(p, v, source, sha256, now) =>
      EvictionKeepsKeys(s, env.maxMb);
      StoreWheelKeepsKeys(env.hash, Evicted(s, env.maxMb), WheelKey(p, v), source, sha256, now);
    case StoreLayer(id, source, sha256, now) =>
      EvictionKeepsKeys(s, env.maxMb);
      StoreLayerKeepsKeys(Evicted(s, env.maxMb), id, source, sha256, now);
    case GetWheel(p, v, now) => WheelLookupKeepsKeys(env.hash, s, WheelKey(p, v), now);
    case GetLayer(id, now) => LayerLookupKeepsKeys(s, LayerKey(id), now);
    case Verify => KeptKeepsKeys(env.hash, s.index, s.files);
    case Outside(_) =>
  }

  lemma StoreWheelKeepsKeys(hash: string -> string, s: State, key: string, source: string, sha256: string, now: real)
    requires Unique(s.index)
    ensures var d := WheelStored(hash, s, key, source, sha256, now).1.index;
            Unique(d) && forall k :: Has(d, k) ==> Has(s.index, k) || k == key
  {
    if source in s.files && s.files[source].File? {
      var content := s.files[source].content;
      PutKeepsKeys(s.index, key, Entry(WHEELS + BaseName(source), if sha256 != "" then sha256 else hash(content),
                                       |content|, now, Wheel));
    }
  }

  lemma StoreLayerKeepsKeys(s: State, id: string, source: string, sha256: string, now: real)
    requires Unique(s.index)
    ensures var d := LayerStored(s, id, source, sha256, now).1.index;
            Unique(d) && forall k :: Has(d, k) ==> Has(s.index, k) || k == LayerKey(id)
  {
    var stored := LayerStored(s, id, source, sha256, now).1.index;
    LayerIsPut(s, id, source, sha256, now);
    if stored != s.index {
      PutKeepsKeys(s.index, LayerKey(id), Get(stored, LayerKey(id)));
    }
  }

  lemma LayerIsPut(s: State, id: string, source: string, sha256: string, now: real)
    ensures var stored := LayerStored(s, id, source, sha256, now).1.index;
            stored != s.index ==>
              Has(stored, LayerKey(id)) && stored == Put(s.index, LayerKey(id), Get(stored, LayerKey(id)))
  {
    var dest := LAYERS + id;
    var files := if source in s.files then s.files[dest := s.files[source]] else s.files;
    PutGet(s.index, LayerKey(id), Entry(dest, sha256, DirSize(s.files, dest), now, Layer), LayerKey(id));
    PutGet(s.index, LayerKey(id), Entry(dest, sha256, DirSize(files, dest), now, Layer), LayerKey(id));
  }

  lemma WheelLookupKeepsKeys(hash: string -> string, s: State, key: string, now: real)
    requires Unique(s.index)
    ensures var d := WheelLookup(hash, s, key, now).1.index;
            Unique(d) && forall k :: Has(d, k) ==> Has(s.index, k)
    ensures WheelLookup(hash, s, key, now).0.Miss? ==> !Has(WheelLookup(hash, s, key, now).1.index, key)
  {
    DelUnique(s.index, key);
    if Has(s.index, key) {
      PutKeepsKeys(s.index, key, Get(s.index, key).(lastAccessed := now));
    }
  }

  lemma LayerLookupKeepsKeys(s: State, key: string, now: real)
    requires Unique(s.index)
    ensures var d := LayerLookup(s, key, now).1.index;
            Unique(d) && forall k :: Has(d, k) ==> Has(s.index, k)
  {
    DelUnique(s.index, key);
    if Has(s.index, key) {
      PutKeepsKeys(s.index, key, Get(s.index, key).(lastAccessed := now));
    }
  }

  /** In every run the index repeats no key, and one that is not there comes back only by a store. */
  lemma {:induction false} RunKeepsUnique(env: Env, s: State, es: seq<Event>, key: string)
    requires Unique(s.index)
    ensures Unique(Run(env, s, es).index)
    ensures !Has(s.index, key) && (forall e :: e in es ==> !StoresKey(e, key)) ==> !Has(Run(env, s, es).index, key)
    decreases es
  {
    if es != [] {
      StepKeepsKeys(env, s, es[0]);
      RunKeepsUnique(env, Step(env, s, es[0]), es[1..], key);
      assert es[0] in es;
    }
  }

  /** A lookup that misses has dropped the entry: it misses again, whatever happens to the index and
      the files, until something is stored under its key. */
  lemma MissStaysMiss(env: Env, s: State, key: string, now: real, after: seq<Event>, later: real)
    requires Unique(s.index) && WheelLookup(env.hash, s, key, now).0.Miss?
    requires forall e :: e in after ==> !StoresKey(e, key)
    ensures WheelLookup(env.hash, Run(env, WheelLookup(env.hash, s, key, now).1, after), key, later).0.Miss?
  {
    WheelLookupKeepsKeys(env.hash, s, key, now);
    RunKeepsUnique(env, WheelLookup(env.hash, s, key, now).1, after, key);
  }

  /** A stored wheel is found again exactly when the digest it came with, if any, is its own. */
  lemma StoredWheelIsFoundIff(hash: string -> string, s: State, key: string, source: string, sha256: string,
                              now: real, later: real)
    requires WheelStored(hash, s, key, source, sha256, now).0.Hit?
    ensures var stored := WheelStored(hash, s, key, source, sha256, now).1;
            var dest := WHEELS + BaseName(source);
            var content := s.files[source].content;
            WheelLookup(hash, stored, key, later).0 ==
              (if sha256 == "" || hash(content) == sha256 then Hit(dest) else Miss)
            && stored.files == s.files[dest := File(content)]
  {
    var dest, content := WHEELS + BaseName(source), s.files[source].content;
    var e := Entry(dest, if sha256 != "" then sha256 else hash(content), |content|, now, Wheel);
    PutGet(s.index, key, e, key);
  }

  /** Another wheel of the same file name is overwritten: it is served again only if the new
      content has the digest recorded for it. */
  lemma SharedNameIsServedIff(hash: string -> string, s: State, key: string, source: string, sha256: string,
                              now: real, other: string, later: real)
    requires WheelStored(hash, s, key, source, sha256, now).0.Hit?
    requires other != key && Has(s.index, other) && Get(s.index, other).path == WHEELS + BaseName(source)
    ensures WheelLookup(hash, WheelStored(hash, s, key, source, sha256, now).1, other, later).0.Hit? <==>
              hash(s.files[source].content) == Get(s.index, other).sha256
  {
    var dest, content := WHEELS + BaseName(source), s.files[source].content;
    var e := Entry(dest, if sha256 != "" then sha256 else hash(content), |content|, now, Wheel);
    PutGet(s.index, key, e, other);
  }

  /** The entry's file is there and, if it is a file recorded with a digest, has that digest. */
  predicate Fine(hash: string -> string, e: Entry, files: Files) {
    e.path in files && (files[e.path].File? && e.sha256 != "" ==> hash(files[e.path].content) == e.sha256)
  }

  /** Some entry before position `n` shares the path `p` and is corrupt. */
  ghost predicate CorruptBefore(hash: string -> string, d: Index, files: Files, p: string, n: nat) {
    exists h :: 0 <= h < n && h < |d| && d[h].value.path == p && Corrupt(hash, d[h].value, files)
  }

  lemma CorruptTail(hash: string -> string, d: Index, files: Files, p: string, n: nat)
    requires d != [] && n > 0
    ensures CorruptBefore(hash, d, files, p, n) <==>
              (d[0].value.path == p && Corrupt(hash, d[0].value, files)) || CorruptBefore(hash, d[1..], files, p, n - 1)
  {
    if CorruptBefore(hash, d, files, p, n) {
      var h :| 0 <= h < n && h < |d| && d[h].value.path == p && Corrupt(hash, d[h].value, files);
      if h > 0 { assert d[1..][h - 1] == d[h]; }
    }
    if CorruptBefore(hash, d[1..], files, p, n - 1) {
      var h :| 0 <= h < n - 1 && h < |d[1..]| && d[1..][h].value.path == p && Corrupt(hash, d[1..][h].value, files);
      assert d[h + 1] == d[1..][h];
    }
  }

  lemma CorruptElsewhere(hash: string -> string, d: Index, files: Files, p: string, q: string, n: nat)
    requires p != q
    ensures CorruptBefore(hash, d, files - {q}, p, n) <==> CorruptBefore(hash, d, files, p, n)
  {}

  /** A file survives the pass exactly when no entry naming it was corrupt. */
  lemma {:induction false} FileSurvivesIff(hash: string -> string, d: Index, files: Files, p: string)
    ensures p in FilesLeft(hash, d, files) <==> p in files && !CorruptBefore(hash, d, files, p, |d|)
    ensures p in FilesLeft(hash, d, files) ==> FilesLeft(hash, d, files)[p] == files[p]
    decreases |d|
  {
    if d != [] {
      var e := d[0].value;
      CorruptTail(hash, d, files, p, |d|);
      if Corrupt(hash, e, files) {
        FileSurvivesIff(hash, d[1..], files - {e.path}, p);
        if p != e.path { CorruptElsewhere(hash, d[1..], files, p, e.path, |d| - 1); }
      } else {
        FileSurvivesIff(hash, d[1..], files, p);
      }
    }
  }

  /** An entry survives the pass exactly when it was fine and no earlier entry took its file. */
  lemma {:induction false} EntrySurvivesIff(hash: string -> string, d: Index, files: Files, i: nat)
    requires Unique(d) && i < |d|
    ensures d[i] in Kept(hash, d, files) <==>
              Fine(hash, d[i].value, files) && !CorruptBefore(hash, d, files, d[i].value.path, i)
    decreases |d|
  {
    var e, p := d[0].value, d[i].value.path;
    var left := if Corrupt(hash, e, files) then files - {e.path} else files;
    if i == 0 {
      if d[0] in Kept(hash, d[1..], left) { KeptFrom(hash, d[1..], left, d[0]); }
    } else {
      assert d[1..][i - 1] == d[i];
      CorruptTail(hash, d, files, p, i);
      EntrySurvivesIff(hash, d[1..], left, i - 1);
      if Corrupt(hash, e, files) && p != e.path { CorruptElsewhere(hash, d[1..], files, p, e.path, i - 1); }
    }
  }

  lemma {:induction false} KeptFrom(hash: string -> string, d: Index, files: Files, x: Item<Entry>)
    requires x in Kept(hash, d, files)
    ensures x in d
    decreases |d|
  {
    var e := d[0].value;
    if e.path !in files { KeptFrom(hash, d[1..], files, x); }
    else if Corrupt(hash, e, files) { KeptFrom(hash, d[1..], files - {e.path}, x); }
    else if x != d[0] { KeptFrom(hash, d[1..], files, x); }
  }

  ghost predicate Sound(hash: string -> string, s: State) {
    forall i :: 0 <= i < |s.index| ==> Fine(hash, s.index[i].value, s.files)
  }

  /** Two entries share a file, the earlier one agrees with it, a later one does not, and no
      entry before the two condemns the file first. */
  ghost predicate SharedFileConflict(hash: string -> string, d: Index, files: Files) {
    exists i, j :: 0 <= i < j < |d| && d[i].value.path == d[j].value.path
      && Fine(hash, d[i].value, files) && Corrupt(hash, d[j].value, files)
      && !CorruptBefore(hash, d, files, d[i].value.path, i)
  }

  /** After verify_integrity every remaining entry exists and matches, if and only if no such
      conflict was in the index; in particular whenever entries have distinct paths. */
  lemma VerifyLeavesSoundIff(hash: string -> string, d: Index, files: Files)
    requires Unique(d)
    ensures Sound(hash, State(Kept(hash, d, files), FilesLeft(hash, d, files))) <==>
              !SharedFileConflict(hash, d, files)
    ensures (forall i, j :: 0 <= i < j < |d| ==> d[i].value.path != d[j].value.path) ==>
              Sound(hash, State(Kept(hash, d, files), FilesLeft(hash, d, files)))
  {
    var kept, left := Kept(hash, d, files), FilesLeft(hash, d, files);
    if !SharedFileConflict(hash, d, files) {
      forall k | 0 <= k < |kept| ensures Fine(hash, kept[k].value, left) {
        KeptFrom(hash, d, files, kept[k]);
        var i :| 0 <= i < |d| && d[i] == kept[k];
        KeptIsFine(hash, d, files, i);
      }
    } else {
      var i, j :| 0 <= i < j < |d| && d[i].value.path == d[j].value.path
        && Fine(hash, d[i].value, files) && Corrupt(hash, d[j].value, files)
        && !CorruptBefore(hash, d, files, d[i].value.path, i);
      EntrySurvivesIff(hash, d, files, i);
      FileSurvivesIff(hash, d, files, d[i].value.path);
      var k :| 0 <= k < |kept| && kept[k] == d[i];
      assert !Fine(hash, kept[k].value, left);
    }
  }

  lemma KeysDiffer()
    ensures WheelKey("p", "1") != WheelKey("q", "1")
  {
    assert WheelKey("p", "1")[6] == 'p' && WheelKey("q", "1")[6] == 'q';
  }

  lemma TwoSteps(env: Env, s: State, a: Event, b: Event)
    ensures Run(env, s, [a, b]) == Step(env, Step(env, s, a), b)
  {
    assert [a, b][1..] == [b] && [b][1..] == [];
    assert Run(env, Step(env, s, a), [b]) == Run(env, Step(env, Step(env, s, a), b), []);
  }

  lemma StoresAppend(env: Env, s: State, package: string, source: string, sha256: string, now: real)
    requires !MustEvict(s, env.maxMb) && !Has(s.index, WheelKey(package, "1"))
    requires source in s.files && s.files[source].File?
    ensures var dest, content := WHEELS + BaseName(source), s.files[source].content;
            var e := Entry(dest, if sha256 != "" then sha256 else env.hash(content), |content|, now, Wheel);
            Step(env, s, StoreWheel(package, "1", source, sha256, now)) ==
              State(s.index + [Item(WheelKey(package, "1"), e)], s.files[dest := File(content)])
  {
    EvictionStops(s, env.maxMb);
    var dest, content := WHEELS + BaseName(source), s.files[source].content;
    PutAbsent(s.index, WheelKey(package, "1"),
              Entry(dest, if sha256 != "" then sha256 else env.hash(content), |content|, now, Wheel));
  }

  lemma PairConflicts(hash: string -> string, d: Item<Entry>, e: Item<Entry>, files: Files)
    requires d.value.path == e.value.path && Fine(hash, d.value, files) && Corrupt(hash, e.value, files)
    ensures SharedFileConflict(hash, [d, e], files)
  {
    var index := [d, e];
    assert index[0] == d && index[1] == e;
    assert !CorruptBefore(hash, index, files, d.value.path, 0);
  }

  /** The two stores, one after the other. */
  lemma StoredTwice(env: Env, files: Files, source: string, content: string, wrong: string, now: real, later: real)
    requires source in files && files[source] == File(content) && wrong != ""
    requires !OverLimit(|content|, env.maxMb)
    ensures var dest := WHEELS + BaseName(source);
            Run(env, State([], files), [StoreWheel("p", "1", source, "", now),
                                        StoreWheel("q", "1", source, wrong, later)]) ==
              State([Item(WheelKey("p", "1"), Entry(dest, env.hash(content), |content|, now, Wheel)),
                     Item(WheelKey("q", "1"), Entry(dest, wrong, |content|, later, Wheel))],
                    files[dest := File(content)])
  {
    var dest, start := WHEELS + BaseName(source), State([], files);
    var first, second := StoreWheel("p", "1", source, "", now), StoreWheel("q", "1", source, wrong, later);
    var d := Item(WheelKey("p", "1"), Entry(dest, env.hash(content), |content|, now, Wheel));
    KeysDiffer();
    StoresAppend(env, start, "p", source, "", now);
    assert Step(env, start, first) == State([d], files[dest := File(content)]);
    assert [d][1..] == [];
    StoresAppend(env, Step(env, start, first), "q", source, wrong, later);
    TwoSteps(env, start, first, second);
  }

  /** The conflict does arise: the same wheel stored for two packages, the second time with a digest
      that is not its own, and verifying then leaves an entry whose file is gone. */
  lemma SecondDigestConflicts(env: Env, files: Files, source: string, wrong: string, now: real, later: real)
    requires source in files && files[source].File?
    requires wrong != "" && wrong != env.hash(files[source].content)
    requires !OverLimit(|files[source].content|, env.maxMb)
    ensures var s := Run(env, State([], files), [StoreWheel("p", "1", source, "", now),
                                                 StoreWheel("q", "1", source, wrong, later)]);
            SharedFileConflict(env.hash, s.index, s.files) && !Sound(env.hash, Step(env, s, Verify))
  {
    var content, dest := files[source].content, WHEELS + BaseName(source);
    StoredTwice(env, files, source, content, wrong, now, later);
    var d := Item(WheelKey("p", "1"), Entry(dest, env.hash(content), |content|, now, Wheel));
    var e := Item(WheelKey("q", "1"), Entry(dest, wrong, |content|, later, Wheel));
    PairConflicts(env.hash, d, e, files[dest := File(content)]);
    KeysDiffer();
    VerifyLeavesSoundIff(env.hash, [d, e], files[dest := File(content)]);
  }

  lemma LaterCorruptConflicts(hash: string -> string, d: Index, files: Files, i: nat)
    requires Unique(d) && i < |d| && d[i] in Kept(hash, d, files)
    requires CorruptBefore(hash, d, files, d[i].value.path, |d|)
    ensures SharedFileConflict(hash, d, files)
  {
    var p := d[i].value.path;
    EntrySurvivesIff(hash, d, files, i);
    FileSurvivesIff(hash, d, files, p);
    var j :| 0 <= j < |d| && d[j].value.path == p && Corrupt(hash, d[j].value, files);
  }

  lemma KeptIsFine(hash: string -> string, d: Index, files: Files, i: nat)
    requires Unique(d) && i < |d| && d[i] in Kept(hash, d, files) && !SharedFileConflict(hash, d, files)
    ensures Fine(hash, d[i].value, FilesLeft(hash, d, files))
  {
    var p := d[i].value.path;
    EntrySurvivesIff(hash, d, files, i);
    FileSurvivesIff(hash, d, files, p);
    if CorruptBefore(hash, d, files, p, |d|) {
      LaterCorruptConflicts(hash, d, files, i);
    }
  }
}
