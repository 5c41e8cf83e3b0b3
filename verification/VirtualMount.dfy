/** The mount table of virtualization/mount.py and the import path it edits. */
module VirtualMount {
  import opened OrderedDict
  import L = LayerStore

  /** The mount table in mounting order, and Python's import path. */
  datatype View = View(mounts: seq<Item<string>>, path: seq<string>)

  function Without(path: seq<string>, dir: string): seq<string> {
    if path == [] then []
    else if path[0] == dir then path[1..]
    else [path[0]] + Without(path[1..], dir)
  }

  function Mounted(v: View, name: string, dir: string): View {
    if Has(v.mounts, name) then v
    else View(Put(v.mounts, name, dir), if dir in v.path then v.path else [dir] + v.path)
  }

  function Unmounted(v: View, name: string): View {
    if !Has(v.mounts, name) then v
    else View(Del(v.mounts, name), Without(v.path, Get(v.mounts, name)))
  }

  /** The module itself or anything inside it. */
  predicate BelongsTo(m: string, package: string) {
    m == package || (|m| > |package| && m[..|package|] == package && m[|package|] == '.')
  }

  /** The package's modules are the package and what a dot separates from it: submodules go with it, and a
      name that merely begins like it stays. */
  lemma BelongsToIff(m: string, package: string)
    ensures BelongsTo(m, package) <==> m == package || exists rest :: m == package + "." + rest
  {
    if |m| > |package| && m[..|package|] == package && m[|package|] == '.' {
      assert m == package + "." + m[|package| + 1..];
    }
    forall rest | m == package + "." + rest ensures BelongsTo(m, package) {
      assert m[..|package|] == package;
    }
  }

  predicate BelongsToAny(m: string, packages: seq<string>) {
    exists p :: p in packages && BelongsTo(m, p)
  }

  class VirtualMount {
    const manager: L.LayerManager
    var mounts: seq<Item<string>>
    var sysPath: seq<string>
    var sysModules: set<string>

    ghost function Now(): View
      reads this
    {
      View(mounts, sysPath)
    }

    constructor (manager: L.LayerManager, sysPath: seq<string>, sysModules: set<string>)
      ensures Now() == View([], sysPath) && this.manager == manager && this.sysModules == sysModules
    {
      this.manager, this.sysPath, this.sysModules := manager, sysPath, sysModules;
      mounts := [];
    }

    method Mount(name: string, layers: seq<string>) returns (dir: string, raised: bool)
      requires manager as object != this
      modifies this`mounts, this`sysPath, manager
      ensures raised ==> Now() == old(Now())
      ensures !raised ==> Now() == Mounted(old(Now()), name, dir)
      ensures !raised ==> Has(mounts, name) && Get(mounts, name) == dir
      ensures !old(Has(mounts, name)) ==> dir == manager.env.Id(L.Join(layers))
      ensures old(Has(mounts, name)) ==> !raised && manager.View() == old(manager.View())
    {
      if Has(mounts, name) {
        return Get(mounts, name), false;
      }
      dir, raised := manager.ComposeLayers(layers);
      if raised {
        return;
      }
      if dir !in sysPath {
        sysPath := [dir] + sysPath;
      }
      PutGet(mounts, name, dir, name);
      mounts := Put(mounts, name, dir);
    }

    method Unmount(name: string)
      modifies this
      ensures Now() == Unmounted(old(Now()), name)
      ensures sysModules == set m | m in old(sysModules) && !BelongsTo(m, name)
    {
      if Has(mounts, name) {
        var dir := Get(mounts, name);
        mounts := Del(mounts, name);
        if dir in sysPath {
          sysPath := Without(sysPath, dir);
        } else {
          WithoutAbsent(sysPath, dir);
        }
      }
      sysModules := set m | m in sysModules && !BelongsTo(m, name);
    }

    method UnmountAll()
      modifies this
      ensures Now() == AllUnmounted(old(Now()))
      ensures mounts == []
      ensures sysModules == set m | m in old(sysModules) && !BelongsToAny(m, Names(old(mounts)))
    {
      ghost var table := mounts;
      var names := Names(mounts);
      for i := 0 to |names|
        invariant mounts == table[i..]
        invariant sysModules == set m | m in old(sysModules) && !BelongsToAny(m, names[..i])
        invariant AllUnmounted(Now()) == AllUnmounted(old(Now()))
      {
        assert table[i..][1..] == table[i + 1..];
        Unmount(names[i]);
      }
    }
  }

  function Names(mounts: seq<Item<string>>): (names: seq<string>)
    ensures |names| == |mounts| && forall i :: 0 <= i < |mounts| ==> names[i] == mounts[i].key
  {
    if mounts == [] then [] else [mounts[0].key] + Names(mounts[1..])
  }

  lemma {:induction false} WithoutAbsent(path: seq<string>, dir: string)
    requires dir !in path
    ensures Without(path, dir) == path
  {
    if path != [] { WithoutAbsent(path[1..], dir); }
  }

  /** unmount_all: every name in mounting order. */
  ghost function AllUnmounted(v: View): View
    decreases |v.mounts|
  {
    if v.mounts == [] then v
    else AllUnmounted(View(v.mounts[1..], Without(v.path, v.mounts[0].value)))
  }

  // ---------------------------------------------------------------- runs

  datatype Event = Mount(name: string, dir: string) | Unmount(name: string)

  function Step(v: View, e: Event): View {
    match e case Mount(name, dir) => Mounted(v, name, dir) case Unmount(name) => Unmounted(v, name)
  }

  function Run(v: View, es: seq<Event>): View
    decreases es
  {
    if es == [] then v else Run(Step(v, es[0]), es[1..])
  }

  predicate MountsDir(v: View, dir: string) { exists i :: 0 <= i < |v.mounts| && v.mounts[i].value == dir }

  /** A package newly mounted has a directory of its own, outside the initial path. */
  predicate Distinct(initial: seq<string>, v: View, e: Event) {
    e.Mount? && !Has(v.mounts, e.name) ==> e.dir !in initial && !MountsDir(v, e.dir)
  }

  predicate DistinctRun(initial: seq<string>, v: View, es: seq<Event>)
    decreases es
  {
    es == [] || (Distinct(initial, v, es[0]) && DistinctRun(initial, Step(v, es[0]), es[1..]))
  }

  /** The mounted directories, newest first. */
  function NewestFirst(mounts: seq<Item<string>>): seq<string> {
    if mounts == [] then [] else [mounts[|mounts| - 1].value] + NewestFirst(mounts[..|mounts| - 1])
  }

  ghost predicate Inv(initial: seq<string>, v: View) {
    && v.path == NewestFirst(v.mounts) + initial
    && Unique(v.mounts) && OwnDirs(initial, v.mounts)
  }

  /** Mounted directories are pairwise different and outside the initial path. */
  ghost predicate OwnDirs(initial: seq<string>, mounts: seq<Item<string>>) {
    && DistinctDirs(mounts)
    && (forall i :: 0 <= i < |mounts| ==> mounts[i].value !in initial)
  }

  lemma OwnDirsTakenOut(initial: seq<string>, mounts: seq<Item<string>>, i: nat, r: seq<Item<string>>)
    requires OwnDirs(initial, mounts) && i < |mounts| && r == mounts[..i] + mounts[i + 1..]
    ensures OwnDirs(initial, r)
  {
    TakenOut(mounts, i, r);
  }

  lemma {:induction false} NewestAt(mounts: seq<Item<string>>, d: string)
    ensures |NewestFirst(mounts)| == |mounts|
    ensures d in NewestFirst(mounts) <==> exists i :: 0 <= i < |mounts| && mounts[i].value == d
  {
    if mounts != [] {
      var front := mounts[..|mounts| - 1];
      NewestAt(front, d);
      if i :| 0 <= i < |mounts| && mounts[i].value == d && i < |mounts| - 1 { assert front[i].value == d; }
    }
  }

  lemma {:induction false} WithoutInFront(a: seq<string>, b: seq<string>, dir: string)
    requires dir in a
    ensures Without(a + b, dir) == Without(a, dir) + b
  {
    if a[0] == dir {
      assert (a + b)[1..] == a[1..] + b;
    } else {
      WithoutInFront(a[1..], b, dir);
      assert (a + b)[1..] == a[1..] + b;
    }
  }

  lemma WithoutSecond(x: string, rest: seq<string>, dir: string)
    requires x != dir
    ensures Without([x] + rest, dir) == [x] + Without(rest, dir)
  {
    assert ([x] + rest)[1..] == rest;
  }

  lemma NewestSnoc(mounts: seq<Item<string>>, x: Item<string>)
    ensures NewestFirst(mounts + [x]) == [x.value] + NewestFirst(mounts)
  {
    assert (mounts + [x])[..|mounts|] == mounts;
  }

  lemma NewestWithoutOlder(front: seq<Item<string>>, last: Item<string>, rest: seq<Item<string>>, dir: string)
    requires Without(NewestFirst(front), dir) == NewestFirst(rest) && last.value != dir
    ensures Without(NewestFirst(front + [last]), dir) == NewestFirst(rest + [last])
  {
    NewestSnoc(front, last);
    NewestSnoc(rest, last);
    WithoutSecond(last.value, NewestFirst(front), dir);
  }

  lemma NewestWithoutLast(front: seq<Item<string>>, last: Item<string>)
    ensures Without(NewestFirst(front + [last]), last.value) == NewestFirst(front)
  {
    NewestSnoc(front, last);
    assert ([last.value] + NewestFirst(front))[1..] == NewestFirst(front);
  }

  ghost predicate DistinctDirs(mounts: seq<Item<string>>) {
    forall i, j :: 0 <= i < j < |mounts| ==> mounts[i].value != mounts[j].value
  }

  /** Taking one mounted directory out of the path takes it out of the list. */
  lemma {:induction false} NewestWithout(mounts: seq<Item<string>>, i: nat)
    requires i < |mounts| && DistinctDirs(mounts)
    ensures Without(NewestFirst(mounts), mounts[i].value) == NewestFirst(mounts[..i] + mounts[i + 1..])
  {
    var n := |mounts| - 1;
    var front, last := mounts[..n], mounts[n];
    assert mounts == front + [last];
    if i == n {
      NewestWithoutLast(front, last);
      assert mounts[..i] + mounts[i + 1..] == front;
    } else {
      NewestWithout(front, i);
      NewestWithoutOlder(front, last, front[..i] + front[i + 1..], mounts[i].value);
      assert mounts[..i] + mounts[i + 1..] == front[..i] + front[i + 1..] + [last];
    }
  }

  lemma UniqueSnoc(mounts: seq<Item<string>>, name: string, dir: string)
    requires Unique(mounts) && !Has(mounts, name)
    ensures Unique(mounts + [Item(name, dir)])
  {
    forall i | 0 <= i < |mounts| ensures mounts[i].key != name { HasAt(mounts, name); }
  }

  lemma OwnDirsSnoc(initial: seq<string>, mounts: seq<Item<string>>, name: string, dir: string)
    requires OwnDirs(initial, mounts) && dir !in initial
    requires forall i :: 0 <= i < |mounts| ==> mounts[i].value != dir
    ensures OwnDirs(initial, mounts + [Item(name, dir)])
  {}

  /** A directory of its own is not on the path yet. */
  lemma OwnDirIsOffPath(initial: seq<string>, mounts: seq<Item<string>>, dir: string)
    requires dir !in initial && forall i :: 0 <= i < |mounts| ==> mounts[i].value != dir
    ensures dir !in NewestFirst(mounts) + initial
  {
    NewestAt(mounts, dir);
  }

  lemma StackGrows(initial: seq<string>, mounts: seq<Item<string>>, x: Item<string>)
    ensures [x.value] + (NewestFirst(mounts) + initial) == NewestFirst(mounts + [x]) + initial
  {
    NewestSnoc(mounts, x);
  }

  lemma MountKeepsInv(initial: seq<string>, v: View, name: string, dir: string)
    requires Inv(initial, v) && Distinct(initial, v, Mount(name, dir))
    ensures Inv(initial, Mounted(v, name, dir))
  {
    if !Has(v.mounts, name) {
      PutAbsent(v.mounts, name, dir);
      OwnDirIsOffPath(initial, v.mounts, dir);
      StackGrows(initial, v.mounts, Item(name, dir));
      UniqueSnoc(v.mounts, name, dir);
      OwnDirsSnoc(initial, v.mounts, name, dir);
      assert Mounted(v, name, dir) == View(v.mounts + [Item(name, dir)], [dir] + v.path);
    }
  }

  lemma UnmountKeepsInv(initial: seq<string>, v: View, name: string)
    requires Inv(initial, v)
    ensures Inv(initial, Unmounted(v, name))
  {
    if Has(v.mounts, name) {
      var i := Position(v.mounts, name);
      GetAt(v.mounts, i);
      DelAt(v.mounts, i);
      NewestWithout(v.mounts, i);
      NewestAt(v.mounts, v.mounts[i].value);
      WithoutInFront(NewestFirst(v.mounts), initial, v.mounts[i].value);
      OwnDirsTakenOut(initial, v.mounts, i, Del(v.mounts, name));
      assert Unique(Del(v.mounts, name)) by { DelUnique(v.mounts, name); }
    }
  }

  lemma {:induction false} RunKeepsInv(initial: seq<string>, v: View, es: seq<Event>)
    requires Inv(initial, v) && DistinctRun(initial, v, es)
    ensures Inv(initial, Run(v, es))
    decreases es
  {
    if es != [] {
      match es[0] {
        case Mount(name, dir) => MountKeepsInv(initial, v, name, dir);
        case Unmount(name) => UnmountKeepsInv(initial, v, name);
      }
      RunKeepsInv(initial, Step(v, es[0]), es[1..]);
    }
  }

  /** Across mounts, remounts and unmounts in any order the import path is the mounted
      directories newest first, then the initial path; unmounting all restores the latter. */
  lemma PathIsMountStack(initial: seq<string>, es: seq<Event>)
    requires DistinctRun(initial, View([], initial), es)
    ensures var v := Run(View([], initial), es);
            && v.path == NewestFirst(v.mounts) + initial
            && AllUnmounted(v) == View([], initial)
  {
    assert NewestFirst([]) + initial == initial;
    RunKeepsInv(initial, View([], initial), es);
    DistinctStaysOff(initial, View([], initial), es);
    UnmountAllRestoresIff(initial, es);
    AllUnmountedIsEmpty(Run(View([], initial), es));
  }

  lemma {:induction false} AllUnmountedIsEmpty(v: View)
    ensures AllUnmounted(v).mounts == []
    decreases |v.mounts|
  {
    if v.mounts != [] { AllUnmountedIsEmpty(View(v.mounts[1..], Without(v.path, v.mounts[0].value))); }
  }

  lemma {:induction false} DistinctStaysOff(initial: seq<string>, v: View, es: seq<Event>)
    requires DistinctRun(initial, v, es)
    ensures forall d :: d in NewDirs(v, es) ==> d !in initial
    decreases es
  {
    if es != [] { DistinctStaysOff(initial, Step(v, es[0]), es[1..]); }
  }

  // ---------------------------------------------------------------- any directories at all

  /** The mounted directories. */
  function Dirs(mounts: seq<Item<string>>): set<string> {
    if mounts == [] then {} else {mounts[0].value} + Dirs(mounts[1..])
  }

  lemma {:induction false} PutDirs(mounts: seq<Item<string>>, name: string, dir: string)
    requires !Has(mounts, name)
    ensures Dirs(Put(mounts, name, dir)) == Dirs(mounts) + {dir}
  {
    if mounts != [] { PutDirs(mounts[1..], name, dir); }
  }

  lemma {:induction false} DelDirs(mounts: seq<Item<string>>, name: string)
    requires Has(mounts, name)
    ensures Get(mounts, name) in Dirs(mounts) && Dirs(Del(mounts, name)) <= Dirs(mounts)
    ensures Dirs(mounts) <= Dirs(Del(mounts, name)) + {Get(mounts, name)}
  {
    if mounts[0].key != name { DelDirs(mounts[1..], name); }
  }

  ghost predicate NoRepeats(path: seq<string>) { path == [] || (path[0] !in path[1..] && NoRepeats(path[1..])) }

  lemma {:induction false} WithoutOnce(path: seq<string>, dir: string, d: string)
    requires NoRepeats(path)
    ensures d in Without(path, dir) <==> d in path && d != dir
  {
    if path != [] {
      WithoutOnce(path[1..], dir, d);
      assert forall x :: x in path <==> x == path[0] || x in path[1..];
    }
  }

  /** What mounts have put before the initial path. */
  function Front(initial: seq<string>, path: seq<string>): seq<string>
    requires |initial| <= |path|
  {
    path[..|path| - |initial|]
  }

  /** The initial path is whole, behind directories that are mounted, each once, and not in it. */
  ghost predicate Restorable(initial: seq<string>, v: View) {
    && |initial| <= |v.path| && v.path == Front(initial, v.path) + initial
    && NoRepeats(Front(initial, v.path))
    && (forall d :: d in Front(initial, v.path) ==> d in Dirs(v.mounts))
    && (forall d :: d in Dirs(v.mounts) ==> d !in initial)
  }

  lemma FrontOf(initial: seq<string>, front: seq<string>)
    ensures Front(initial, front + initial) == front
  {}

  lemma {:induction false} WithoutKeepsOthers(path: seq<string>, dir: string)
    requires NoRepeats(path)
    ensures NoRepeats(Without(path, dir))
  {
    if path != [] && path[0] != dir {
      WithoutKeepsOthers(path[1..], dir);
      WithoutOnce(path[1..], dir, path[0]);
    }
  }

  lemma MountKeepsRestorable(initial: seq<string>, v: View, name: string, dir: string)
    requires Restorable(initial, v) && !Has(v.mounts, name) && dir !in initial
    ensures Restorable(initial, Mounted(v, name, dir))
  {
    PutDirs(v.mounts, name, dir);
    if dir !in v.path {
      var front := [dir] + Front(initial, v.path);
      assert [dir] + v.path == front + initial;
      FrontOf(initial, front);
      assert front[1..] == Front(initial, v.path);
    }
  }

  lemma UnmountKeepsRestorable(initial: seq<string>, v: View, name: string)
    requires Restorable(initial, v)
    ensures Restorable(initial, Unmounted(v, name))
  {
    if Has(v.mounts, name) {
      var dir, front := Get(v.mounts, name), Front(initial, v.path);
      DelDirs(v.mounts, name);
      if dir in front {
        WithoutInFront(front, initial, dir);
        WithoutKeepsOthers(front, dir);
        FrontOf(initial, Without(front, dir));
        forall d | d in Without(front, dir) ensures d in Dirs(Del(v.mounts, name)) {
          WithoutOnce(front, dir, d);
        }
      } else {
        WithoutAbsent(v.path, dir);
      }
    }
  }

  /** unmount_all unmounts the first package and goes on. */
  lemma AllUnmountedStep(v: View)
    requires v.mounts != []
    ensures AllUnmounted(v) == AllUnmounted(Unmounted(v, v.mounts[0].key))
  {}

  lemma {:induction false} UnmountAllRestores(initial: seq<string>, v: View)
    requires Restorable(initial, v)
    ensures AllUnmounted(v) == View([], initial)
    decreases |v.mounts|
  {
    if v.mounts == [] {
      var front := Front(initial, v.path);
      assert front != [] ==> front[0] in Dirs(v.mounts);
      assert [] + initial == initial;
    } else {
      AllUnmountedStep(v);
      UnmountKeepsRestorable(initial, v, v.mounts[0].key);
      UnmountAllRestores(initial, Unmounted(v, v.mounts[0].key));
    }
  }

  function Count(path: seq<string>, dir: string): nat {
    if path == [] then 0 else (if path[0] == dir then 1 else 0) + Count(path[1..], dir)
  }

  lemma {:induction false} CountIn(path: seq<string>, dir: string)
    ensures Count(path, dir) > 0 <==> dir in path
  {
    if path != [] { CountIn(path[1..], dir); }
  }

  lemma {:induction false} CountWithout(path: seq<string>, dir: string, d: string)
    ensures Count(Without(path, dir), d) == Count(path, d) - (if d == dir && dir in path then 1 else 0)
  {
    if path != [] && path[0] != dir {
      CountWithout(path[1..], dir, d);
    }
  }

  /** An entry of the initial path is no more often on the path than at first; having been mounted,
      it is still mounted or was taken off. */
  ghost predicate Endangered(initial: seq<string>, v: View, d: string, mounted: bool) {
    && d in initial && Count(v.path, d) <= Count(initial, d)
    && (mounted ==> d in Dirs(v.mounts) || Count(v.path, d) < Count(initial, d))
  }

  lemma StepKeepsEndangered(initial: seq<string>, v: View, e: Event, d: string, mounted: bool)
    requires Endangered(initial, v, d, mounted)
    ensures Endangered(initial, Step(v, e), d, mounted || (NewlyMounts(v, e) && e.dir == d))
  {
    CountIn(initial, d);
    CountIn(v.path, d);
    match e
    case Mount(name, dir) =>
      if !Has(v.mounts, name) {
        PutDirs(v.mounts, name, dir);
        assert ([dir] + v.path)[1..] == v.path;
      }
    case Unmount(name) =>
      if Has(v.mounts, name) {
        DelDirs(v.mounts, name);
        CountWithout(v.path, Get(v.mounts, name), d);
      }
  }

  predicate NewlyMounts(v: View, e: Event) {
    e.Mount? && !Has(v.mounts, e.name)
  }

  /** The directories that mounts of packages not yet mounted brought in. */
  function NewDirs(v: View, es: seq<Event>): set<string>
    decreases es
  {
    if es == [] then {}
    else (if NewlyMounts(v, es[0]) then {es[0].dir} else {}) + NewDirs(Step(v, es[0]), es[1..])
  }

  lemma {:induction false} RunKeepsRestorable(initial: seq<string>, v: View, es: seq<Event>)
    requires Restorable(initial, v) && forall d :: d in NewDirs(v, es) ==> d !in initial
    ensures Restorable(initial, Run(v, es))
    decreases es
  {
    if es != [] {
      match es[0] {
        case Mount(name, dir) =>
          if !Has(v.mounts, name) {
            assert dir in NewDirs(v, es);
            MountKeepsRestorable(initial, v, name, dir);
          }
        case Unmount(name) => UnmountKeepsRestorable(initial, v, name);
      }
      RunKeepsRestorable(initial, Step(v, es[0]), es[1..]);
    }
  }

  lemma {:induction false} RunKeepsEndangered(initial: seq<string>, v: View, es: seq<Event>, d: string, mounted: bool)
    requires Endangered(initial, v, d, mounted)
    ensures Endangered(initial, Run(v, es), d, mounted || d in NewDirs(v, es))
    decreases es
  {
    if es != [] {
      var now := mounted || (NewlyMounts(v, es[0]) && es[0].dir == d);
      StepKeepsEndangered(initial, v, es[0], d, mounted);
      RunKeepsEndangered(initial, Step(v, es[0]), es[1..], d, now);
    }
  }

  lemma {:induction false} UnmountAllLoses(initial: seq<string>, v: View, d: string)
    requires Endangered(initial, v, d, true)
    ensures AllUnmounted(v).path != initial
    decreases |v.mounts|
  {
    if v.mounts != [] {
      AllUnmountedStep(v);
      StepKeepsEndangered(initial, v, Unmount(v.mounts[0].key), d, true);
      UnmountAllLoses(initial, Unmounted(v, v.mounts[0].key), d);
    }
  }

  /** In every run, whatever packages share directories: unmounting all gives the initial path back
      if and only if no package was newly mounted from a directory that is on it. */
  lemma UnmountAllRestoresIff(initial: seq<string>, es: seq<Event>)
    ensures AllUnmounted(Run(View([], initial), es)).path == initial <==>
              forall d :: d in NewDirs(View([], initial), es) ==> d !in initial
  {
    var start := View([], initial);
    if forall d :: d in NewDirs(start, es) ==> d !in initial {
      FrontOf(initial, []);
      assert [] + initial == initial;
      RunKeepsRestorable(initial, start, es);
      UnmountAllRestores(initial, Run(start, es));
    } else {
      var d :| d in NewDirs(start, es) && d in initial;
      RunKeepsEndangered(initial, start, es, d, false);
      UnmountAllLoses(initial, Run(start, es), d);
    }
  }

  // ---------------------------------------------------------------- one unmount

  /** Every mounted directory is importable, each once. */
  ghost predicate Importable(v: View) {
    && Unique(v.mounts)
    && forall i :: 0 <= i < |v.mounts| ==> v.mounts[i].value in v.path
  }

  lemma StillOnPathIff(path: seq<string>, dir: string, d: string)
    requires d in path && dir in path
    ensures d in Without(path, dir) <==> d != dir || Count(path, dir) > 1
  {
    CountIn(path, d);
    CountWithout(path, dir, d);
    CountIn(Without(path, dir), d);
  }

  /** No other package is mounted from the directory of the `i`th. */
  ghost predicate SharesWithNone(mounts: seq<Item<string>>, i: nat)
    requires i < |mounts|
  {
    forall j :: 0 <= j < |mounts| && j != i ==> mounts[j].value != mounts[i].value
  }

  lemma SharersLoseDir(mounts: seq<Item<string>>, path: seq<string>, i: nat, r: seq<Item<string>>, p: seq<string>)
    requires i < |mounts| && r == mounts[..i] + mounts[i + 1..]
    requires p == Without(path, mounts[i].value)
    requires forall j :: 0 <= j < |mounts| ==> mounts[j].value in path
    ensures (forall j :: 0 <= j < |r| ==> r[j].value in p) <==>
            SharesWithNone(mounts, i) || Count(path, mounts[i].value) > 1
  {
    var dir := mounts[i].value;
    TakenOut(mounts, i, r);
    forall j | 0 <= j < |r| ensures r[j].value in p <==> r[j].value != dir || Count(path, dir) > 1 {
      StillOnPathIff(path, dir, r[j].value);
    }
    if !SharesWithNone(mounts, i) {
      var j :| 0 <= j < |mounts| && j != i && mounts[j].value == dir;
      assert r[if j < i then j else j - 1].value == dir;
    }
  }

  /** Without distinct directories an unmount can break another package: those that stay mounted
      stay importable if and only if none of them shares the directory, or the path has it twice. */
  lemma UnmountBreaksSharers(v: View, i: nat)
    requires Importable(v) && i < |v.mounts|
    ensures var u := Unmounted(v, v.mounts[i].key);
            (forall j :: 0 <= j < |u.mounts| ==> u.mounts[j].value in u.path) <==>
            SharesWithNone(v.mounts, i) || Count(v.path, v.mounts[i].value) > 1
  {
    var v' := Unmounted(v, v.mounts[i].key);
    GetAt(v.mounts, i);
    DelAt(v.mounts, i);
    DelStaysUnique(v.mounts, v.mounts[i].key);
    SharersLoseDir(v.mounts, v.path, i, v'.mounts, v'.path);
  }

  // ---------------------------------------------------------------- a directory over a run

  /** The step unmounts a package mounted from the directory. */
  predicate UnmountsFrom(v: View, e: Event, d: string) {
    e.Unmount? && Has(v.mounts, e.name) && Get(v.mounts, e.name) == d
  }

  predicate MountsFrom(v: View, e: Event, d: string) {
    NewlyMounts(v, e) && e.dir == d
  }

  /** How often the run unmounts a package mounted from the directory. */
  function UnmountsOf(v: View, es: seq<Event>, d: string): nat
    decreases es
  {
    if es == [] then 0
    else (if UnmountsFrom(v, es[0], d) then 1 else 0) + UnmountsOf(Step(v, es[0]), es[1..], d)
  }

  /** The path has the directory more often than the run takes it off. */
  predicate Outlasts(v: View, es: seq<Event>, d: string) {
    Count(v.path, d) > UnmountsOf(v, es, d)
  }

  /** Some package is newly mounted from the directory, and what is on the path then outlasts the
      unmounts that follow. */
  predicate MountedAndKept(v: View, es: seq<Event>, d: string)
    decreases es
  {
    es != [] &&
    var v' := Step(v, es[0]);
    ((MountsFrom(v, es[0], d) && Outlasts(v', es[1..], d)) || MountedAndKept(v', es[1..], d))
  }

  lemma StepCount(v: View, e: Event, d: string)
    ensures var n, n' := Count(v.path, d), Count(Step(v, e).path, d);
            n' == if MountsFrom(v, e, d) && n == 0 then 1 else if UnmountsFrom(v, e, d) && n > 0 then n - 1 else n
  {
    CountIn(v.path, d);
    match e
    case Mount(name, dir) => assert ([dir] + v.path)[1..] == v.path;
    case Unmount(name) => if Has(v.mounts, name) { CountWithout(v.path, Get(v.mounts, name), d); }
  }

  /** In any run, with any packages sharing any directories and any path to begin with: a directory
      is on the path at the end exactly when the path had it, or a mount put or found it there, more
      often than packages mounted from it have been unmounted since. */
  lemma {:induction false} OnPathIff(v: View, es: seq<Event>, d: string)
    ensures d in Run(v, es).path <==> Outlasts(v, es, d) || MountedAndKept(v, es, d)
    decreases es
  {
    if es == [] {
      CountIn(v.path, d);
    } else {
      StepCount(v, es[0], d);
      OnPathIff(Step(v, es[0]), es[1..], d);
    }
  }

  /** Some package is newly mounted from the directory, and none is unmounted from it after that. */
  predicate MountedAndSpared(v: View, es: seq<Event>, d: string)
    decreases es
  {
    es != [] &&
    var v' := Step(v, es[0]);
    ((MountsFrom(v, es[0], d) && UnmountsOf(v', es[1..], d) == 0) || MountedAndSpared(v', es[1..], d))
  }

  lemma {:induction false} SparedIsKept(v: View, es: seq<Event>, d: string)
    requires Count(v.path, d) <= 1
    ensures MountedAndKept(v, es, d) <==> MountedAndSpared(v, es, d)
    decreases es
  {
    if es != [] {
      StepCount(v, es[0], d);
      SparedIsKept(Step(v, es[0]), es[1..], d);
    }
  }

  /** From the start of the program: the directory of a mounted package, when it is not one of the
      initial path, can be imported from exactly when no sharer of it has been unmounted since a
      package was last newly mounted from it. */
  lemma OwnDirOnPathIff(initial: seq<string>, es: seq<Event>, d: string)
    requires d !in initial
    ensures d in Run(View([], initial), es).path <==> MountedAndSpared(View([], initial), es, d)
  {
    CountIn(initial, d);
    OnPathIff(View([], initial), es, d);
    SparedIsKept(View([], initial), es, d);
  }
}
