/** The LRU package cache of client/cache.py: its index, and the files it points at. Files may
    change behind the cache's back between calls. Sizes are exact integers, so the threshold
    of nine tenths of the maximum, in megabytes, is compared without rounding. */
module PackageCache {
  import opened OrderedDict

  const MEGABYTE := 1_048_576

  datatype Node = File(content: string) | Directory(size: nat)

  datatype Kind = Wheel | Layer

  datatype Entry = Entry(path: string, sha256: string, size: nat, lastAccessed: real, kind: Kind)

  type Index = seq<Item<Entry>>
  type Files = map<string, Node>

  datatype State = State(index: Index, files: Files)

  function Total(index: Index): nat {
    if index == [] then 0 else index[0].value.size + Total(index[1..])
  }

  predicate OverLimit(total: int, maxMb: int) { 10 * total > 9 * maxMb * MEGABYTE }

  /** The first entry among those accessed longest ago. */
  function LruPos(index: Index): (i: nat)
    requires index != []
    ensures i < |index|
    ensures forall j :: 0 <= j < |index| ==> index[i].value.lastAccessed <= index[j].value.lastAccessed
    ensures forall j :: 0 <= j < i ==> index[i].value.lastAccessed < index[j].value.lastAccessed
  {
    if |index| == 1 then 0
    else
      var i := LruPos(index[..|index| - 1]);
      if index[|index| - 1].value.lastAccessed < index[i].value.lastAccessed then |index| - 1 else i
  }

  function EvictOne(s: State): State
    requires s.index != []
  {
    var i := LruPos(s.index);
    State(s.index[..i] + s.index[i + 1..], s.files - {s.index[i].value.path})
  }

  function Evicted(s: State, maxMb: int): State
    decreases |s.index|
  {
    if OverLimit(Total(s.index), maxMb) && s.index != [] then Evicted(EvictOne(s), maxMb) else s
  }

  /** The entries evicted, in order. */
  function Victims(s: State, maxMb: int): Index
    decreases |s.index|
  {
    if OverLimit(Total(s.index), maxMb) && s.index != []
    then [s.index[LruPos(s.index)]] + Victims(EvictOne(s), maxMb)
    else []
  }

  // ---------------------------------------------------------------- operations by value

  datatype Lookup = Hit(path: string) | Miss | Raised

  function WheelKey(package: string, version: string): string { "wheel:" + package + ":" + version }

  function LayerKey(id: string): string { "layer:" + id }

  /** The last component of a path. */
  function BaseName(path: string): string {
    if '/' in path then BaseName(path[1..]) else path
  }

  const WHEELS := "cache/wheels/"
  const LAYERS := "cache/layers/"

  predicate Corrupt(hash: string -> string, e: Entry, files: Files) {
    e.path in files && files[e.path].File? && e.sha256 != "" && hash(files[e.path].content) != e.sha256
  }

  /** get_wheel: a missing file or a wrong hash drops the entry. */
  function WheelLookup(hash: string -> string, s: State, key: string, now: real): (Lookup, State) {
    if !Has(s.index, key) then (Miss, s)
    else
      var e := Get(s.index, key);
      if e.path !in s.files then (Miss, s.(index := Del(s.index, key)))
      else if s.files[e.path].Directory? then (Raised, s)
      else if hash(s.files[e.path].content) != e.sha256 then
        (Miss, State(Del(s.index, key), s.files - {e.path}))
      else (Hit(e.path), s.(index := Put(s.index, key, e.(lastAccessed := now))))
  }

  /** get_layer: existence is all that is checked. */
  function LayerLookup(s: State, key: string, now: real): (Lookup, State) {
    if !Has(s.index, key) then (Miss, s)
    else
      var e := Get(s.index, key);
      if e.path !in s.files then (Miss, s.(index := Del(s.index, key)))
      else (Hit(e.path), s.(index := Put(s.index, key, e.(lastAccessed := now))))
  }

  /** store_wheel after eviction: the destination is the file name alone. */
  function WheelStored(hash: string -> string, s: State, key: string, source: string, sha256: string,
                       now: real): (Lookup, State)
  {
    var dest := WHEELS + BaseName(source);
    if source !in s.files || !s.files[source].File? then (Raised, s)
    else
      var files := s.files[dest := s.files[source]];
      var content := s.files[source].content;
      var e := Entry(dest, if sha256 != "" then sha256 else hash(content), |content|, now, Wheel);
      (Hit(dest), State(Put(s.index, key, e), files))
  }

  function DirSize(files: Files, path: string): nat {
    if path in files && files[path].Directory? then files[path].size else 0
  }

  /** store_layer after eviction: an old destination is removed before the copy is made, and a
      layer already in place is only measured. */
  function LayerStored(s: State, id: string, source: string, sha256: string, now: real): (Lookup, State) {
    var dest := LAYERS + id;
    if source == dest then
      (Hit(dest), s.(index := Put(s.index, LayerKey(id), Entry(dest, sha256, DirSize(s.files, dest), now, Layer))))
    else if dest in s.files && s.files[dest].File? then (Raised, s)
    else if source !in s.files || !s.files[source].Directory? then (Raised, s.(files := s.files - {dest}))
    else
      var files := s.files[dest := s.files[source]];
      (Hit(dest), State(Put(s.index, LayerKey(id), Entry(dest, sha256, DirSize(files, dest), now, Layer)), files))
  }

  /** verify_integrity over a list of entries: which stay, and which files. */
  function Kept(hash: string -> string, todo: Index, files: Files): Index {
    if todo == [] then []
    else
      var e := todo[0].value;
      if e.path !in files then Kept(hash, todo[1..], files)
      else if Corrupt(hash, e, files) then Kept(hash, todo[1..], files - {e.path})
      else [todo[0]] + Kept(hash, todo[1..], files)
  }

  function FilesLeft(hash: string -> string, todo: Index, files: Files): Files {
    if todo == [] then files
    else if Corrupt(hash, todo[0].value, files) then FilesLeft(hash, todo[1..], files - {todo[0].value.path})
    else FilesLeft(hash, todo[1..], files)
  }

  // ---------------------------------------------------------------- the class

  class CacheManager {
    const maxSizeMb: int
    const hash: string -> string
    var index: Index
    var files: Files

    ghost function View(): State
      reads this
    {
      State(index, files)
    }

    constructor (maxSizeMb: int, hash: string -> string, files: Files)
      ensures View() == State([], files) && this.maxSizeMb == maxSizeMb && this.hash == hash
    {
      this.maxSizeMb, this.hash, this.files := maxSizeMb, hash, files;
      index := [];
    }

    method CurrentSize() returns (total: nat)
      ensures total == Total(index)
    {
      total := 0;
      assert index[0..] == index;
      for i := 0 to |index|
        invariant total + Total(index[i..]) == Total(index)
      {
        assert index[i..][1..] == index[i + 1..];
        total := total + index[i].value.size;
      }
    }

    method MaybeEvict()
      requires Unique(index)
      modifies this
      ensures View() == Evicted(old(View()), maxSizeMb) && Unique(index)
    {
      var total := CurrentSize();
      while OverLimit(total, maxSizeMb)
        invariant Unique(index) && total == Total(index)
        invariant Evicted(View(), maxSizeMb) == Evicted(old(View()), maxSizeMb)
        decreases |index|
      {
        if index == [] {
          break;
        }
        var lru := LruPos(index);
        var entry := index[lru];
        files := files - {entry.value.path};
        DelAt(index, lru);
        DelUnique(index, entry.key);
        index := Del(index, entry.key);
        total := CurrentSize();
      }
    }

    method GetWheel(package: string, version: string, now: real) returns (r: Lookup)
      requires Unique(index)
      modifies this
      ensures (r, View()) == WheelLookup(hash, old(View()), WheelKey(package, version), now) && Unique(index)
      ensures r.Hit? ==> r.path in files && files[r.path].File? && files == old(files)
                         && old(Has(index, WheelKey(package, version)))
                         && hash(files[r.path].content) == old(Get(index, WheelKey(package, version)).sha256)
      ensures r.Miss? ==> !Has(index, WheelKey(package, version))
    {
      var key := WheelKey(package, version);
      if !Has(index, key) {
        return Miss;
      }
      var entry := Get(index, key);
      DelUnique(index, key);
      PutUnique(index, key, entry.(lastAccessed := now));
      if entry.path !in files {
        index := Del(index, key);
        return Miss;
      }
      if files[entry.path].Directory? {
        return Raised;
      }
      if hash(files[entry.path].content) != entry.sha256 {
        files := files - {entry.path};
        index := Del(index, key);
        return Miss;
      }
      index := Put(index, key, entry.(lastAccessed := now));
      return Hit(entry.path);
    }

    method GetLayer(id: string, now: real) returns (r: Lookup)
      requires Unique(index)
      modifies this`index
      ensures (r, View()) == LayerLookup(old(View()), LayerKey(id), now) && Unique(index)
      ensures r.Miss? ==> !Has(index, LayerKey(id))
    {
      var key := LayerKey(id);
      if !Has(index, key) {
        return Miss;
      }
      var entry := Get(index, key);
      DelUnique(index, key);
      PutUnique(index, key, entry.(lastAccessed := now));
      if entry.path !in files {
        index := Del(index, key);
        return Miss;
      }
      index := Put(index, key, entry.(lastAccessed := now));
      return Hit(entry.path);
    }

    method StoreWheel(package: string, version: string, source: string, sha256: string, now: real) returns (r: Lookup)
      requires Unique(index)
      modifies this
      ensures (r, View()) ==
                WheelStored(hash, Evicted(old(View()), maxSizeMb), WheelKey(package, version), source, sha256, now)
      ensures Unique(index)
    {
      MaybeEvict();
      var dest := WHEELS + BaseName(source);
      if source !in files || !files[source].File? {
        return Raised;
      }
      if source != dest {
        files := files[dest := files[source]];
      } else {
        assert files[dest := files[source]] == files;
      }
      var actualHash := if sha256 != "" then sha256 else hash(files[dest].content);
      var entry := Entry(dest, actualHash, |files[dest].content|, now, Wheel);
      PutUnique(index, WheelKey(package, version), entry);
      index := Put(index, WheelKey(package, version), entry);
      return Hit(dest);
    }

    method StoreLayer(id: string, source: string, sha256: string, now: real) returns (r: Lookup)
      requires Unique(index)
      modifies this
      ensures (r, View()) == LayerStored(Evicted(old(View()), maxSizeMb), id, source, sha256, now)
      ensures Unique(index)
    {
      MaybeEvict();
      ghost var evicted := files;
      var dest := LAYERS + id;
      if source != dest {
        if dest in files {
          if files[dest].File? {
            return Raised;
          }
          files := files - {dest};
        } else {
          assert files - {dest} == files;
        }
        if source !in files || !files[source].Directory? {
          return Raised;
        }
        assert (files - {dest})[dest := files[source]] == files[dest := files[source]];
        assert files[dest := files[source]] == evicted[dest := evicted[source]];
        files := files[dest := files[source]];
      }
      var entry := Entry(dest, sha256, DirSize(files, dest), now, Layer);
      PutStaysUnique(index, LayerKey(id), entry);
      index := Put(index, LayerKey(id), entry);
      return Hit(dest);
    }

    /** One entry of verify_integrity: dropped if its file is gone or has the wrong hash. */
    method CheckEntry(item: Item<Entry>, ghost at: nat) returns (issue: bool)
      requires Unique(index) && at < |index| && index[at] == item
      modifies this
      ensures Unique(index)
      ensures issue <==> item.value.path !in old(files) || Corrupt(hash, item.value, old(files))
      ensures index == if issue then old(index)[..at] + old(index)[at + 1..] else old(index)
      ensures files == if Corrupt(hash, item.value, old(files)) then old(files) - {item.value.path} else old(files)
    {
      DelAt(index, at);
      DelUnique(index, item.key);
      issue := false;
      if item.value.path !in files {
        issue := true;
        index := Del(index, item.key);
      } else if Corrupt(hash, item.value, files) {
        issue := true;
        files := files - {item.value.path};
        index := Del(index, item.key);
      }
    }

    method VerifyIntegrity() returns (issues: nat)
      requires Unique(index)
      modifies this
      ensures index == Kept(hash, old(index), old(files)) && files == FilesLeft(hash, old(index), old(files))
      ensures Unique(index) && issues + |index| == |old(index)|
    {
      issues := 0;
      ghost var kept: Index := [];
      var items := index;
      assert items[0..] == items;
      for i := 0 to |items|
        invariant Unique(index) && Midway(hash, items, old(files), i, kept, index, files)
        invariant issues + |kept| == i
      {
        ghost var was := View();
        var issue := CheckEntry(items[i], |kept|);
        MidwayNext(hash, items, old(files), i, kept, was, issue, index, files);
        if issue {
          issues := issues + 1;
        } else {
          kept := kept + [items[i]];
        }
      }
      MidwayEnd(hash, items, old(files), kept, index, files);
    }
  }

  /** After `i` entries: what was kept, what is still to do, and that the end result stands. */
  ghost predicate Midway(hash: string -> string, items: Index, files0: Files, i: nat, kept: Index, index: Index,
                         files: Files)
  {
    && i <= |items| && index == kept + items[i..]
    && kept + Kept(hash, items[i..], files) == Kept(hash, items, files0)
    && FilesLeft(hash, items[i..], files) == FilesLeft(hash, items, files0)
  }

  lemma MidwayEnd(hash: string -> string, items: Index, files0: Files, kept: Index, index: Index, files: Files)
    requires Midway(hash, items, files0, |items|, kept, index, files)
    ensures index == kept == Kept(hash, items, files0) && files == FilesLeft(hash, items, files0)
  {
    assert items[|items|..] == [];
  }

  lemma MidwayNext(hash: string -> string, items: Index, files0: Files, i: nat, kept: Index,
                   was: State, issue: bool, index: Index, files: Files)
    requires i < |items| && Midway(hash, items, files0, i, kept, was.index, was.files)
    requires issue <==> items[i].value.path !in was.files || Corrupt(hash, items[i].value, was.files)
    requires index == if issue then was.index[..|kept|] + was.index[|kept| + 1..] else was.index
    requires files == if Corrupt(hash, items[i].value, was.files) then was.files - {items[i].value.path} else was.files
    ensures was.index[|kept|] == items[i]
    ensures Midway(hash, items, files0, i + 1, if issue then kept else kept + [items[i]], index, files)
  {
    KeptNext(hash, kept, items, i, was.files);
    if issue {
      assert index == kept + items[i + 1..];
    } else {
      assert index == kept + [items[i]] + items[i + 1..];
    }
  }

  lemma KeptNext(hash: string -> string, kept: Index, items: Index, i: nat, files: Files)
    requires i < |items|
    ensures var e, rest := items[i].value, items[i + 1..];
            kept + Kept(hash, items[i..], files) ==
              if e.path !in files then kept + Kept(hash, rest, files)
              else if Corrupt(hash, e, files) then kept + Kept(hash, rest, files - {e.path})
              else kept + [items[i]] + Kept(hash, rest, files)
    ensures var e, rest := items[i].value, items[i + 1..];
            FilesLeft(hash, items[i..], files) ==
              if Corrupt(hash, e, files) then FilesLeft(hash, rest, files - {e.path}) else FilesLeft(hash, rest, files)
  {
    assert items[i..][1..] == items[i + 1..];
    var rest := Kept(hash, items[i + 1..], files);
    assert kept + ([items[i]] + rest) == kept + [items[i]] + rest;
  }
}
