/** What a lookup and a store write in the index of the package cache, and what that is for: keys tell
    packages, versions and layers apart, and an entry just used is the last to be evicted. */
module CacheUse {
  import opened OrderedDict
  import opened PackageCache
  import opened CacheRuns

  // ---------------------------------------------------------------- keys

  lemma FirstColon(p: string, v: string)
    requires ':' !in p
    ensures forall k :: 0 <= k < |p| ==> (p + ":" + v)[k] != ':'
    ensures (p + ":" + v)[|p|] == ':'
    ensures p == (p + ":" + v)[..|p|] && v == (p + ":" + v)[|p| + 1..]
  {}

  lemma ColonSplits(p: string, v: string, q: string, u: string)
    requires ':' !in p && ':' !in q && p + ":" + v == q + ":" + u
    ensures p == q && v == u
  {
    FirstColon(p, v);
    FirstColon(q, u);
    assert |p| == |q|;
  }

  /** Wheels of different packages or versions have different keys, as long as no package name has a
      colon in it; a wheel never shares a key with a layer, nor a layer with another. */
  lemma KeysApart(p: string, v: string, q: string, u: string, i: string, j: string)
    ensures WheelKey(p, v) == WheelKey(q, u) <==> p + ":" + v == q + ":" + u
    ensures ':' !in p && ':' !in q && WheelKey(p, v) == WheelKey(q, u) ==> p == q && v == u
    ensures WheelKey(p, v) != LayerKey(i)
    ensures LayerKey(i) == LayerKey(j) ==> i == j
  {
    assert WheelKey(p, v)[6..] == p + ":" + v && WheelKey(q, u)[6..] == q + ":" + u;
    assert WheelKey(p, v) == "wheel:" + (p + ":" + v) && WheelKey(q, u) == "wheel:" + (q + ":" + u);
    if ':' !in p && ':' !in q && WheelKey(p, v) == WheelKey(q, u) {
      ColonSplits(p, v, q, u);
    }
    assert WheelKey(p, v)[0] == 'w' && LayerKey(i)[0] == 'l';
    assert LayerKey(i)[6..] == i && LayerKey(j)[6..] == j;
  }

  /** With a colon in a name two packages can meet under one key. */
  lemma ColonsCollide()
    ensures WheelKey("a:b", "c") == WheelKey("a", "b:c")
  {}

  // ---------------------------------------------------------------- lookups

  /** The index with the entry at `i` marked as accessed at `now`, in its place. */
  ghost predicate Touched(d: Index, i: nat, now: real, r: Index) {
    i < |d| && r == d[i := Item(d[i].key, d[i].value.(lastAccessed := now))]
  }

  lemma PutTouches(d: Index, i: nat, now: real)
    requires Unique(d) && i < |d|
    ensures Touched(d, i, now, Put(d, d[i].key, d[i].value.(lastAccessed := now)))
  {
    PutAt(d, i, d[i].value.(lastAccessed := now));
  }

  /** A wheel is found exactly when its entry names a file that is there and has the recorded digest;
      its entry is then marked as accessed now, in its place, and nothing else changes. */
  lemma WheelHitIff(hash: string -> string, s: State, i: nat, now: real)
    requires Unique(s.index) && i < |s.index|
    ensures var e, r := s.index[i].value, WheelLookup(hash, s, s.index[i].key, now);
            && (r.0 == Hit(e.path) <==>
                  e.path in s.files && s.files[e.path].File? && hash(s.files[e.path].content) == e.sha256)
            && (r.0.Hit? ==> r.0.path == e.path && r.1.files == s.files && Touched(s.index, i, now, r.1.index))
            && (r.0 == Raised <==> e.path in s.files && s.files[e.path].Directory?)
            && (r.0 == Raised ==> r.1 == s)
            && (r.0 == Miss ==> r.1.index == s.index[..i] + s.index[i + 1..] && r.1.files == s.files - {e.path})
  {
    GetAt(s.index, i);
    PutTouches(s.index, i, now);
    DelAt(s.index, i);
    var p := s.index[i].value.path;
    if p !in s.files { assert s.files - {p} == s.files; }
  }

  /** A layer is found exactly when its entry names something that is there. */
  lemma LayerHitIff(s: State, i: nat, now: real)
    requires Unique(s.index) && i < |s.index|
    ensures var e, r := s.index[i].value, LayerLookup(s, s.index[i].key, now);
            && (r.0 == Hit(e.path) <==> e.path in s.files) && (r.0 == Miss <==> e.path !in s.files)
            && r.1.files == s.files
            && (r.0.Hit? ==> Touched(s.index, i, now, r.1.index))
            && (r.0 == Miss ==> r.1.index == s.index[..i] + s.index[i + 1..])
  {
    GetAt(s.index, i);
    PutTouches(s.index, i, now);
    DelAt(s.index, i);
  }

  // ---------------------------------------------------------------- stores

  /** The last component of a path is what follows its last slash. */
  lemma {:induction false} BaseNameIsLast(dir: string, name: string)
    requires '/' !in name
    ensures BaseName(dir + "/" + name) == name && BaseName(name) == name
  {
    var path := dir + "/" + name;
    assert path[|dir|] == '/';
    if dir == [] {
      assert path[1..] == name;
    } else {
      assert path[1..] == dir[1..] + "/" + name;
      BaseNameIsLast(dir[1..], name);
    }
  }

  /** The index says of the key that entry, and of every other key what it said before. */
  ghost predicate Records(d: Index, key: string, e: Entry, r: Index) {
    && Has(r, key) && Get(r, key) == e
    && (forall k :: k != key ==> (Has(r, k) <==> Has(d, k)))
    && (forall k :: k != key && Has(d, k) ==> Has(r, k) && Get(r, k) == Get(d, k))
  }

  lemma PutRecords(d: Index, key: string, e: Entry)
    ensures Records(d, key, e, Put(d, key, e))
  {
    PutGet(d, key, e, key);
    forall k | k != key
      ensures Has(Put(d, key, e), k) <==> Has(d, k)
      ensures Has(d, k) ==> Get(Put(d, key, e), k) == Get(d, k)
    {
      PutGet(d, key, e, k);
    }
  }

  /** A wheel is copied to its own file name among the wheels and recorded with the digest given, or else
      its own, its size, and the present time; a source that is no file raises and changes nothing. */
  lemma StoredWheelIsRecorded(hash: string -> string, s: State, key: string, dir: string, name: string, sha256: string,
                              now: real)
    requires '/' !in name
    ensures var source, dest := dir + "/" + name, "cache/wheels/" + name;
            var r := WheelStored(hash, s, key, source, sha256, now);
            if source in s.files && s.files[source].File? then
              var content := s.files[source].content;
              && r.0 == Hit(dest) && r.1.files == s.files[dest := File(content)]
              && Records(s.index, key,
                         Entry(dest, if sha256 == "" then hash(content) else sha256, |content|, now, Wheel), r.1.index)
            else r == (Raised, s)
  {
    BaseNameIsLast(dir, name);
    var source, dest := dir + "/" + name, "cache/wheels/" + name;
    if source in s.files && s.files[source].File? {
      var content := s.files[source].content;
      PutRecords(s.index, key, Entry(dest, if sha256 == "" then hash(content) else sha256, |content|, now, Wheel));
    }
  }

  /** A layer is copied to its own directory among the layers, in place of what was there, and recorded
      with its size and the present time; one already in place is only recorded. */
  lemma StoredLayerIsRecorded(s: State, id: string, source: string, sha256: string, now: real)
    ensures var dest, r := "cache/layers/" + id, LayerStored(s, id, source, sha256, now);
            var there := source in s.files && s.files[source].Directory?;
            if source != dest && dest in s.files && s.files[dest].File? then r == (Raised, s)
            else if source != dest && !there then r == (Raised, s.(files := s.files - {dest}))
            else
              && r.0 == Hit(dest) && r.1.files == (if source == dest then s.files else s.files[dest := s.files[source]])
              && Records(s.index, "layer:" + id,
                         Entry(dest, sha256, if there then s.files[source].size else 0, now, Layer), r.1.index)
  {
    var dest, there := "cache/layers/" + id, source in s.files && s.files[source].Directory?;
    PutRecords(s.index, "layer:" + id, Entry(dest, sha256, if there then s.files[source].size else 0, now, Layer));
  }

  // ---------------------------------------------------------------- recency

  /** The entry at `i` was accessed after every other. */
  ghost predicate Newest(d: Index, i: nat) {
    i < |d| && forall j :: 0 <= j < |d| && j != i ==> d[j].value.lastAccessed < d[i].value.lastAccessed
  }

  /** The entry accessed last is evicted only when every entry is. */
  lemma NewestIsEvictedLast(s: State, maxMb: int, i: nat)
    requires Newest(s.index, i)
    ensures s.index[i] in Evicted(s, maxMb).index || Evicted(s, maxMb).index == []
  {
    var x, kept := s.index[i], Evicted(s, maxMb).index;
    if kept != [] && x !in kept {
      EvictionConserves(s, maxMb);
      assert x in multiset(s.index);
      assert x in multiset(Victims(s, maxMb)) + multiset(kept);
      KeptIsOld(s, maxMb, kept[0]);
      EvictionIsLru(s, maxMb, x, kept[0]);
    }
  }

  /** A lookup that finds its entry makes it recent: if the clock is past all recorded accesses, the next
      eviction takes that entry only when it takes every one. */
  lemma FoundIsEvictedLast(hash: string -> string, s: State, i: nat, now: real, maxMb: int)
    requires Unique(s.index) && i < |s.index|
    requires forall j :: 0 <= j < |s.index| ==> s.index[j].value.lastAccessed < now
    ensures var r := WheelLookup(hash, s, s.index[i].key, now);
            r.0.Hit? ==> var kept := Evicted(r.1, maxMb).index;
                         Item(s.index[i].key, s.index[i].value.(lastAccessed := now)) in kept || kept == []
    ensures var r := LayerLookup(s, s.index[i].key, now);
            r.0.Hit? ==> var kept := Evicted(r.1, maxMb).index;
                         Item(s.index[i].key, s.index[i].value.(lastAccessed := now)) in kept || kept == []
  {
    WheelHitIff(hash, s, i, now);
    LayerHitIff(s, i, now);
    var w, l := WheelLookup(hash, s, s.index[i].key, now), LayerLookup(s, s.index[i].key, now);
    if w.0.Hit? { NewestIsEvictedLast(w.1, maxMb, i); }
    if l.0.Hit? { NewestIsEvictedLast(l.1, maxMb, i); }
  }
}
