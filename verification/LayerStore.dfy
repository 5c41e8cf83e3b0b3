/** Content-addressed layers of virtualization/layers.py. Directories are maps from relative
    file paths to contents; the digest and the archive reader are parameters, since neither
    can be seen from here. */
module LayerStore {

  type Path = seq<string>
  type Tree = map<Path, string>

  const ID_LENGTH := 16

  /** Left to right, files of later layers win. */
  function Overlay(trees: seq<Tree>): Tree {
    if trees == [] then map[] else Overlay(trees[..|trees| - 1]) + trees[|trees| - 1]
  }

  function Join(ids: seq<string>): string {
    if ids == [] then ""
    else if |ids| == 1 then ids[0]
    else ids[0] + ":" + Join(ids[1..])
  }

  ghost predicate FullIds(ids: seq<string>) { forall i :: 0 <= i < |ids| ==> |ids[i]| == ID_LENGTH }

  lemma {:induction false} JoinLength(ids: seq<string>)
    requires FullIds(ids)
    ensures |Join(ids)| == if ids == [] then 0 else (ID_LENGTH + 1) * |ids| - 1
  {
    if |ids| > 1 { JoinLength(ids[1..]); }
  }

  /** On ids of full length the separator is not needed to tell lists apart: the join of two
      lists is equal only if the lists are. */
  lemma {:induction false} JoinInjective(a: seq<string>, b: seq<string>)
    requires FullIds(a) && FullIds(b) && Join(a) == Join(b)
    ensures a == b
  {
    JoinLength(a);
    JoinLength(b);
    if a != [] {
      assert |a| == |b|;
      assert a[0] == Join(a)[..ID_LENGTH] && b[0] == Join(b)[..ID_LENGTH];
      if |a| > 1 {
        assert Join(a[1..]) == Join(a)[ID_LENGTH + 1..] && Join(b[1..]) == Join(b)[ID_LENGTH + 1..];
        JoinInjective(a[1..], b[1..]);
        assert a == [a[0]] + a[1..] && b == [b[0]] + b[1..];
      }
    }
  }

  // ---------------------------------------------------------------- copying

  ghost predicate ProperPrefix(p: Path, q: Path) { |p| < |q| && q[..|p|] == p }

  /** No path is a file in one tree and a directory in the other. */
  ghost predicate NoClash(a: Tree, b: Tree) {
    forall p, q :: p in a && q in b ==> !ProperPrefix(p, q) && !ProperPrefix(q, p)
  }

  ghost predicate NoClashes(trees: seq<Tree>) {
    forall i, j :: 0 <= i < |trees| && 0 <= j < |trees| ==> NoClash(trees[i], trees[j])
  }

  predicate HasFileAbove(t: Tree, p: Path) { exists n :: 0 <= n < |p| && p[..n] in t }

  predicate IsDirectory(t: Tree, p: Path) { exists q :: q in t && |p| < |q| && q[..|p|] == p }

  datatype Copied = Wrote(tree: Tree) | Raised

  /** mkdir -p for the parent, then copy2: a file in the way of a parent raises; a directory
      in the way of the target receives the file under its own name inside. */
  function CopyFile(t: Tree, p: Path, content: string): Copied {
    if HasFileAbove(t, p) then Raised
    else if !IsDirectory(t, p) then Wrote(t[p := content])
    else if p == [] then Raised
    else
      var inside := p + [p[|p| - 1]];
      if IsDirectory(t, inside) then Raised else Wrote(t[inside := content])
  }

  /** No path is both a file and a directory: what a file system can hold. */
  ghost predicate Clean(t: Tree) { NoClash(t, t) }

  lemma WriteKeepsClean(t: Tree, p: Path, content: string)
    requires Clean(t) && !HasFileAbove(t, p) && !IsDirectory(t, p)
    ensures Clean(t[p := content])
  {
    assert forall n :: 0 <= n < |p| ==> p[..n] !in t;
  }

  lemma NothingAboveInside(t: Tree, p: Path, inside: Path)
    requires Clean(t) && !HasFileAbove(t, p) && IsDirectory(t, p) && |inside| == |p| + 1 && inside[..|p|] == p
    ensures !HasFileAbove(t, inside)
  {
    var q :| q in t && |p| < |q| && q[..|p|] == p;
    assert ProperPrefix(p, q);
    forall n | 0 <= n < |inside| ensures inside[..n] !in t {
      assert n < |p| ==> inside[..n] == p[..n];
    }
  }

  /** Copying a file leaves a tree a file system can hold. */
  lemma CopyKeepsClean(t: Tree, p: Path, content: string)
    requires Clean(t) && CopyFile(t, p, content).Wrote?
    ensures Clean(CopyFile(t, p, content).tree)
  {
    if !IsDirectory(t, p) {
      WriteKeepsClean(t, p, content);
    } else {
      var inside := p + [p[|p| - 1]];
      NothingAboveInside(t, p, inside);
      WriteKeepsClean(t, inside, content);
    }
  }

  lemma UnionIsCleanIff(a: Tree, b: Tree)
    requires Clean(a)
    ensures Clean(a + b) <==> NoClash(a, b) && Clean(b)
  {}

  lemma {:induction false} OverlayKeys(trees: seq<Tree>, p: Path)
    ensures p in Overlay(trees) <==> exists i :: 0 <= i < |trees| && p in trees[i]
  {
    if trees != [] {
      var front, last := trees[..|trees| - 1], trees[|trees| - 1];
      OverlayKeys(front, p);
      if i :| 0 <= i < |trees| && p in trees[i] {
        assert i < |front| ==> front[i] == trees[i];
      }
    }
  }

  /** Layers overlay to something a file system can hold exactly when they do not clash. */
  lemma OverlayIsCleanIff(trees: seq<Tree>)
    ensures Clean(Overlay(trees)) <==> NoClashes(trees)
  {
    if NoClashes(trees) {
      forall p, q | p in Overlay(trees) && q in Overlay(trees)
        ensures !ProperPrefix(p, q) && !ProperPrefix(q, p)
      {
        OverlayKeys(trees, p);
        OverlayKeys(trees, q);
        var i :| 0 <= i < |trees| && p in trees[i];
        var j :| 0 <= j < |trees| && q in trees[j];
        assert NoClash(trees[i], trees[j]);
      }
    }
    if Clean(Overlay(trees)) {
      forall i, j | 0 <= i < |trees| && 0 <= j < |trees| ensures NoClash(trees[i], trees[j]) {
        forall p, q | p in trees[i] && q in trees[j] ensures !ProperPrefix(p, q) && !ProperPrefix(q, p) {
          OverlayKeys(trees, p);
          OverlayKeys(trees, q);
        }
      }
    }
  }

  // ---------------------------------------------------------------- the store by value

  datatype Event = Store(data: string) | Compose(ids: seq<string>) | Cleanup(active: set<string>)

  /** The layer directories and the composed directories. */
  datatype Core = Core(layers: map<string, Tree>, composed: map<string, Tree>)

  /** The digest and the archive reader. */
  datatype Env = Env(sha: string -> string, extract: string -> Tree) {
    ghost predicate Valid() { forall d :: |sha(d)| >= ID_LENGTH }

    function Id(data: string): string {
      if |sha(data)| >= ID_LENGTH then sha(data)[..ID_LENGTH] else sha(data)
    }
  }

  /** The trees of the named layers that exist, in order. */
  function PresentIn(layers: map<string, Tree>, ids: seq<string>): seq<Tree> {
    if ids == [] then []
    else
      var front, last := PresentIn(layers, ids[..|ids| - 1]), ids[|ids| - 1];
      if last in layers then front + [layers[last]] else front
  }

  function Next(env: Env, c: Core, e: Event): Core {
    match e
    case Store(data) =>
      var id := env.Id(data);
      if id in c.layers then c else c.(layers := c.layers[id := env.extract(data)])
    case Compose(ids) =>
      var dir := env.Id(Join(ids));
      if dir in c.composed then c else c.(composed := c.composed[dir := Overlay(PresentIn(c.layers, ids))])
    case Cleanup(active) => c.(layers := map id | id in c.layers && id in active :: c.layers[id])
  }

  datatype Layer = Layer(layerId: string, digest: string, files: set<Path>)

  class LayerManager {
    const env: Env
    var layers: map<string, Tree>
    var composed: map<string, Tree>

    ghost function View(): Core
      reads this
    {
      Core(layers, composed)
    }

    constructor (env: Env)
      ensures this.env == env && View() == Core(map[], map[])
    {
      this.env := env;
      layers, composed := map[], map[];
    }

    method StoreLayer(data: string) returns (layer: Layer)
      modifies this`layers
      ensures View() == Next(env, old(View()), Store(data))
      ensures layer.layerId == env.Id(data) && layer.layerId in layers
      ensures layer.layerId == if |env.sha(data)| >= 16 then env.sha(data)[..16] else env.sha(data)
      ensures layer.digest == env.sha(data) && layer.files == layers[layer.layerId].Keys
    {
      var layerId := env.Id(data);
      if layerId !in layers {
        layers := layers[layerId := env.extract(data)];
      }
      layer := Layer(layerId, env.sha(data), layers[layerId].Keys);
    }

    /** Copies every file of `src` over `dest`, in any order: the result is the overlay exactly when
        the two do not clash, and otherwise the copying raises or goes astray. */
    method CopyLayer(dest: Tree, src: Tree) returns (result: Tree, raised: bool)
      requires Clean(dest)
      ensures Clean(result)
      ensures result == dest + src <==> NoClash(dest, src) && Clean(src)
      ensures raised ==> !(NoClash(dest, src) && Clean(src))
    {
      UnionIsCleanIff(dest, src);
      ghost var fits := NoClash(dest, src) && Clean(src);
      result, raised := dest, false;
      var todo := src.Keys;
      while todo != {}
        invariant todo <= src.Keys && Clean(result)
        invariant fits ==> result == dest + (map p | p in src && p !in todo :: src[p])
        decreases todo
      {
        var p :| p in todo;
        if fits {
          NoClashCopies(dest, src, todo, result, p);
        }
        match CopyFile(result, p, src[p])
        case Raised =>
          return result, true;
        case Wrote(tree) =>
          CopyKeepsClean(result, p, src[p]);
          result := tree;
          todo := todo - {p};
      }
      assert (map p | p in src && p !in todo :: src[p]) == src;
    }

    /** Copies the layers that exist over each other into an empty directory. */
    method CopyLayers(ids: seq<string>) returns (tree: Tree, raised: bool)
      ensures tree == Overlay(PresentIn(layers, ids)) <==> NoClashes(PresentIn(layers, ids))
      ensures raised ==> !NoClashes(PresentIn(layers, ids))
    {
      OverlayIsCleanIff(PresentIn(layers, ids));
      ghost var fits := NoClashes(PresentIn(layers, ids));
      tree, raised := map[], false;
      for n := 0 to |ids|
        invariant !raised && Clean(tree)
        invariant fits ==> tree == Overlay(PresentIn(layers, ids[..n]))
      {
        assert ids[..n + 1][..n] == ids[..n];
        if ids[n] in layers {
          if fits { PresentPrefix(layers, ids, n); }
          tree, raised := CopyLayer(tree, layers[ids[n]]);
          if raised {
            return;
          }
        }
      }
      assert ids[..|ids|] == ids;
    }

    /** A composition is made once: a directory that exists is returned as it is, without raising,
        whatever has become of the layers since; otherwise the layers that exist are copied over each
        other. What is made is their overlay exactly when they do not clash; a copy that raises leaves
        what was copied so far under the same name. */
    method ComposeLayers(ids: seq<string>) returns (dir: string, raised: bool)
      modifies this`composed
      ensures dir == env.Id(Join(ids)) && dir in composed
      ensures dir in old(composed) ==> !raised && View() == old(View())
      ensures composed - {dir} == old(composed) - {dir}
      ensures dir !in old(composed) ==>
        (View() == Next(env, old(View()), Compose(ids)) <==> NoClashes(PresentIn(layers, ids)))
      ensures raised ==> !NoClashes(PresentIn(layers, ids))
    {
      dir, raised := env.Id(Join(ids)), false;
      if dir in composed {
        return;
      }
      var tree: Tree := map[];
      composed := composed[dir := tree];
      tree, raised := CopyLayers(ids);
      Redefined(old(composed), dir, map[], tree);
      composed := composed[dir := tree];
      assert composed[dir] == tree;
    }

    /** Removes the layers not in use; composed directories stay. */
    method CleanupUnused(active: set<string>) returns (removed: nat)
      modifies this`layers
      ensures View() == Next(env, old(View()), Cleanup(active))
      ensures layers.Keys == old(layers).Keys * active && composed == old(composed)
      ensures forall id :: id in layers ==> layers[id] == old(layers)[id]
      ensures removed == |old(layers).Keys - active|
    {
      removed := 0;
      var todo := layers.Keys;
      while todo != {}
        invariant todo <= layers.Keys && Cleaning(old(layers), active, todo, layers)
        invariant removed + |layers.Keys| == |old(layers).Keys|
        decreases todo
      {
        var id :| id in todo;
        todo := todo - {id};
        if id !in active {
          assert (layers - {id}).Keys == layers.Keys - {id};
          layers := layers - {id};
          removed := removed + 1;
        }
      }
      Cleaned(old(layers), active, layers);
    }
  }

  /** Part of the way through a cleanup: what is in use or still to be looked at is there, unchanged. */
  ghost predicate Cleaning(was: map<string, Tree>, active: set<string>, todo: set<string>, layers: map<string, Tree>) {
    && (forall id :: id in was && (id in active || id in todo) ==> id in layers)
    && (forall id :: id in layers ==> id in was && (id in active || id in todo) && layers[id] == was[id])
  }

  lemma Cleaned(was: map<string, Tree>, active: set<string>, layers: map<string, Tree>)
    requires Cleaning(was, active, {}, layers)
    ensures layers == map id | id in was && id in active :: was[id]
    ensures layers.Keys == was.Keys * active && |was.Keys| == |layers.Keys| + |was.Keys - active|
  {
    assert layers.Keys == was.Keys * active;
    KeysSplit(was.Keys, active);
  }

  lemma KeysSplit(keys: set<string>, active: set<string>)
    ensures |keys| == |keys * active| + |keys - active|
  {
    assert keys == keys * active + (keys - active);
  }

  lemma Redefined(m: map<string, Tree>, k: string, first: Tree, last: Tree)
    ensures m[k := first][k := last] == m[k := last] && m[k := last] - {k} == m - {k}
  {}

  lemma {:induction false} PresentPrefix(layers: map<string, Tree>, ids: seq<string>, n: nat)
    requires n < |ids| && ids[n] in layers && NoClashes(PresentIn(layers, ids))
    ensures NoClash(Overlay(PresentIn(layers, ids[..n])), layers[ids[n]])
    ensures NoClash(layers[ids[n]], layers[ids[n]])
    ensures PresentIn(layers, ids[..n + 1]) == PresentIn(layers, ids[..n]) + [layers[ids[n]]]
  {
    var all, some := PresentIn(layers, ids), PresentIn(layers, ids[..n + 1]);
    assert ids[..n + 1][..n] == ids[..n];
    PresentGrows(layers, ids, n + 1);
    assert forall i :: 0 <= i < |some| ==> some[i] == all[i];
    var front := PresentIn(layers, ids[..n]);
    forall p, q | p in Overlay(front) && q in layers[ids[n]]
      ensures !ProperPrefix(p, q) && !ProperPrefix(q, p)
    {
      OverlayKeys(front, p);
      var i :| 0 <= i < |front| && p in front[i];
      assert NoClash(all[i], all[|front|]);
    }
    assert NoClash(all[|front|], all[|front|]);
  }

  lemma {:induction false} PresentGrows(layers: map<string, Tree>, ids: seq<string>, n: nat)
    requires n <= |ids|
    ensures PresentIn(layers, ids[..n]) <= PresentIn(layers, ids)
    decreases |ids|
  {
    if n < |ids| {
      PresentGrows(layers, ids[..|ids| - 1], n);
      assert ids[..|ids| - 1][..n] == ids[..n];
    } else {
      assert ids[..n] == ids;
    }
  }

  /** A file of neither tree is in the way. */
  lemma NothingInTheWay(t: Tree, dest: Tree, src: Tree, p: Path)
    requires NoClash(dest, src) && Clean(src) && p in src
    requires forall q :: q in t ==> q in dest || q in src
    ensures !HasFileAbove(t, p) && !IsDirectory(t, p)
  {
    forall n | 0 <= n < |p| ensures p[..n] !in t {
      assert ProperPrefix(p[..n], p);
    }
    forall q | q in t ensures !(|p| < |q| && q[..|p|] == p) {
      assert !ProperPrefix(p, q);
    }
  }

  lemma CopiedSoFar(dest: Tree, src: Tree, todo: set<Path>, p: Path)
    requires p in todo && todo <= src.Keys
    ensures (dest + (map q | q in src && q !in todo :: src[q]))[p := src[p]] ==
              dest + (map q | q in src && q !in todo - {p} :: src[q])
  {}

  lemma NoClashCopies(dest: Tree, src: Tree, todo: set<Path>, result: Tree, p: Path)
    requires NoClash(dest, src) && NoClash(src, src) && p in todo && todo <= src.Keys
    requires result == dest + (map q | q in src && q !in todo :: src[q])
    ensures CopyFile(result, p, src[p]) == Wrote(dest + (map q | q in src && q !in todo - {p} :: src[q]))
  {
    NothingInTheWay(result, dest, src, p);
    CopiedSoFar(dest, src, todo, p);
  }

  // ---------------------------------------------------------------- runs

  function Run(env: Env, c: Core, es: seq<Event>): Core
    decreases es
  {
    if es == [] then c else Run(env, Next(env, c, es[0]), es[1..])
  }

  // ---------------------------------------------------------------- which layers are there

  /** Every cleanup of the run names the layer as in use. */
  predicate NamedBy(es: seq<Event>, id: string) {
    forall i :: 0 <= i < |es| && es[i].Cleanup? ==> id in es[i].active
  }

  /** Some step of the run stores data with the layer's id, and every cleanup after it names the layer. */
  predicate StoredAndNamed(env: Env, es: seq<Event>, id: string)
    decreases es
  {
    es != [] &&
    ((es[0].Store? && env.Id(es[0].data) == id && NamedBy(es[1..], id)) || StoredAndNamed(env, es[1..], id))
  }

  /** A layer is there after a run if and only if it was there before and every cleanup named it, or it
      was stored during the run and every cleanup since named it. In the first case it has its old tree. */
  lemma {:induction false} LayerStaysIff(env: Env, c: Core, es: seq<Event>, id: string)
    ensures id in Run(env, c, es).layers <==> (id in c.layers && NamedBy(es, id)) || StoredAndNamed(env, es, id)
    ensures id in c.layers && NamedBy(es, id) ==> Run(env, c, es).layers[id] == c.layers[id]
    decreases es
  {
    if es != [] {
      LayerStaysIff(env, Next(env, c, es[0]), es[1..], id);
      NamedBySplits(es, id);
    }
  }

  lemma NamedBySplits(es: seq<Event>, id: string)
    requires es != []
    ensures NamedBy(es, id) <==> (es[0].Cleanup? ==> id in es[0].active) && NamedBy(es[1..], id)
  {
    assert forall i :: 1 <= i < |es| ==> es[i] == es[1..][i - 1];
    if (es[0].Cleanup? ==> id in es[0].active) && NamedBy(es[1..], id) {
      forall i | 0 <= i < |es| && es[i].Cleanup? ensures id in es[i].active {
        assert i > 0 ==> es[1..][i - 1].Cleanup?;
      }
    }
    if NamedBy(es, id) {
      assert forall i :: 0 <= i < |es| - 1 ==> es[1..][i] == es[i + 1];
    }
  }

  /** Once stored, a layer stays as long as cleanups name it, with the tree unpacked from the data, or the
      tree it already had. */
  lemma StoredLayerStays(env: Env, c: Core, data: string, es: seq<Event>)
    requires NamedBy(es, env.Id(data))
    ensures var id, layers := env.Id(data), Run(env, c, [Store(data)] + es).layers;
            id in layers && layers[id] == if id in c.layers then c.layers[id] else env.extract(data)
  {
    assert ([Store(data)] + es)[1..] == es;
    LayerStaysIff(env, Next(env, c, Store(data)), es, env.Id(data));
  }

  /** A layer left out of a cleanup is gone until its data is stored again. */
  lemma LeftOutIsGone(env: Env, c: Core, active: set<string>, es: seq<Event>, id: string)
    requires id !in active
    ensures id in Run(env, c, [Cleanup(active)] + es).layers <==> StoredAndNamed(env, es, id)
  {
    assert ([Cleanup(active)] + es)[1..] == es;
    LayerStaysIff(env, Next(env, c, Cleanup(active)), es, id);
  }

  /** A composed directory, once made, never changes. */
  lemma {:induction false} ComposedStays(env: Env, c: Core, es: seq<Event>, d: string)
    requires d in c.composed
    ensures d in Run(env, c, es).composed && Run(env, c, es).composed[d] == c.composed[d]
    decreases es
  {
    if es != [] { ComposedStays(env, Next(env, c, es[0]), es[1..], d); }
  }

  // ---------------------------------------------------------------- the overlay theorem

  /** The data and the compositions of a run, among which digests do not collide. */
  datatype Universe = Universe(datas: set<string>, lists: set<seq<string>>)

  ghost predicate CollisionFree(env: Env, u: Universe) {
    && (forall a, b :: a in u.datas && b in u.datas && env.Id(a) == env.Id(b) ==> a == b)
    && (forall a, b :: a in u.lists && b in u.lists && env.Id(Join(a)) == env.Id(Join(b)) ==> Join(a) == Join(b))
  }

  /** A composition names only layers present at that moment, without file/directory clash. */
  ghost predicate Legal(u: Universe, c: Core, e: Event) {
    match e
    case Store(data) => data in u.datas
    case Compose(ids) =>
      && ids in u.lists
      && (forall i :: 0 <= i < |ids| ==> ids[i] in c.layers)
      && NoClashes(PresentIn(c.layers, ids))
    case Cleanup(_) => true
  }

  ghost predicate LegalRun(env: Env, u: Universe, c: Core, es: seq<Event>)
    decreases es
  {
    es == [] || (Legal(u, c, es[0]) && LegalRun(env, u, Next(env, c, es[0]), es[1..]))
  }

  /** What was ever stored, by id, and what each composed directory was made from. */
  datatype History = History(stored: map<string, string>, made: map<string, seq<string>>)

  ghost function Blobs(env: Env, h: History): map<string, Tree> {
    map id | id in h.stored :: env.extract(h.stored[id])
  }

  ghost predicate StoredOk(env: Env, u: Universe, stored: map<string, string>) {
    forall id :: id in stored ==> stored[id] in u.datas && env.Id(stored[id]) == id
  }

  ghost predicate LayersOk(blobs: map<string, Tree>, layers: map<string, Tree>) {
    forall id :: id in layers ==> id in blobs && layers[id] == blobs[id]
  }

  ghost predicate ComposedOk(env: Env, u: Universe, blobs: map<string, Tree>, made: map<string, seq<string>>,
                             composed: map<string, Tree>)
  {
    forall d :: d in composed ==> d in made && MadeFrom(env, u, blobs, composed[d], d, made[d])
  }

  ghost predicate Inv(env: Env, u: Universe, c: Core, h: History) {
    && StoredOk(env, u, h.stored) && LayersOk(Blobs(env, h), c.layers)
    && ComposedOk(env, u, Blobs(env, h), h.made, c.composed)
  }

  ghost predicate MadeFrom(env: Env, u: Universe, blobs: map<string, Tree>, tree: Tree, d: string, ids: seq<string>) {
    && ids in u.lists && env.Id(Join(ids)) == d
    && (forall i :: 0 <= i < |ids| ==> ids[i] in blobs)
    && tree == Overlay(PresentIn(blobs, ids))
  }

  lemma {:induction false} PresentAgree(a: map<string, Tree>, b: map<string, Tree>, ids: seq<string>)
    requires forall i :: 0 <= i < |ids| ==> ids[i] in a && ids[i] in b && a[ids[i]] == b[ids[i]]
    ensures PresentIn(a, ids) == PresentIn(b, ids) && |PresentIn(a, ids)| == |ids|
    ensures forall i :: 0 <= i < |ids| ==> PresentIn(a, ids)[i] == a[ids[i]]
  {
    if ids != [] { PresentAgree(a, b, ids[..|ids| - 1]); }
  }

  ghost function Record(env: Env, c: Core, h: History, e: Event): History {
    match e
    case Store(data) => h.(stored := h.stored[env.Id(data) := data])
    case Compose(ids) =>
      if env.Id(Join(ids)) in c.composed then h else h.(made := h.made[env.Id(Join(ids)) := ids])
    case Cleanup(_) => h
  }

  lemma MadeStable(env: Env, u: Universe, b: map<string, Tree>, b': map<string, Tree>,
                   tree: Tree, d: string, ids: seq<string>)
    requires MadeFrom(env, u, b, tree, d, ids)
    requires forall id :: id in b ==> id in b' && b'[id] == b[id]
    ensures MadeFrom(env, u, b', tree, d, ids)
  {
    PresentAgree(b, b', ids);
  }

  /** Storing data again, or other data, leaves every stored blob what it was. */
  lemma BlobsGrow(env: Env, u: Universe, c: Core, h: History, data: string, h': History)
    requires CollisionFree(env, u) && Inv(env, u, c, h) && data in u.datas
    requires h' == Record(env, c, h, Store(data))
    ensures forall id :: id in Blobs(env, h) ==> id in Blobs(env, h') && Blobs(env, h')[id] == Blobs(env, h)[id]
  {
    assert forall id :: id in h.stored ==> h'.stored[id] == h.stored[id];
  }

  lemma StoredOkStays(env: Env, u: Universe, stored: map<string, string>, data: string)
    requires StoredOk(env, u, stored) && data in u.datas
    ensures StoredOk(env, u, stored[env.Id(data) := data])
  {}

  lemma LayersOkStays(b: map<string, Tree>, b': map<string, Tree>, layers: map<string, Tree>, id: string)
    requires LayersOk(b, layers) && forall i :: i in b ==> i in b' && b'[i] == b[i]
    requires id in b'
    ensures LayersOk(b', layers[id := b'[id]]) && LayersOk(b', layers)
  {}

  lemma StoredBlob(env: Env, h: History, id: string, data: string)
    ensures var b := Blobs(env, h.(stored := h.stored[id := data]));
            id in b && b[id] == env.extract(data)
  {}

  lemma StoreKeepsInv(env: Env, u: Universe, c: Core, h: History, data: string)
    requires CollisionFree(env, u) && Inv(env, u, c, h) && data in u.datas
    ensures Inv(env, u, Next(env, c, Store(data)), Record(env, c, h, Store(data)))
  {
    var h', id := Record(env, c, h, Store(data)), env.Id(data);
    BlobsGrow(env, u, c, h, data, h');
    StoredOkStays(env, u, h.stored, data);
    StoredBlob(env, h, id, data);
    LayersOkStays(Blobs(env, h), Blobs(env, h'), c.layers, id);
    ComposedStable(env, u, Blobs(env, h), Blobs(env, h'), h.made, c.composed);
  }

  lemma ComposedStable(env: Env, u: Universe, b: map<string, Tree>, b': map<string, Tree>,
                       made: map<string, seq<string>>, composed: map<string, Tree>)
    requires ComposedOk(env, u, b, made, composed)
    requires forall id :: id in b ==> id in b' && b'[id] == b[id]
    ensures ComposedOk(env, u, b', made, composed)
  {
    forall d | d in composed ensures MadeFrom(env, u, b', composed[d], d, made[d]) {
      MadeStable(env, u, b, b', composed[d], d, made[d]);
    }
  }

  lemma ComposeKeepsInv(env: Env, u: Universe, c: Core, h: History, ids: seq<string>)
    requires Inv(env, u, c, h) && Legal(u, c, Compose(ids))
    ensures Inv(env, u, Next(env, c, Compose(ids)), Record(env, c, h, Compose(ids)))
  {
    if env.Id(Join(ids)) !in c.composed {
      PresentAgree(c.layers, Blobs(env, h), ids);
      assert Blobs(env, Record(env, c, h, Compose(ids))) == Blobs(env, h);
    }
  }

  lemma NextKeepsInv(env: Env, u: Universe, c: Core, h: History, e: Event)
    requires CollisionFree(env, u) && Inv(env, u, c, h) && Legal(u, c, e)
    ensures Inv(env, u, Next(env, c, e), Record(env, c, h, e))
  {
    match e
    case Store(data) => StoreKeepsInv(env, u, c, h, data);
    case Compose(ids) => ComposeKeepsInv(env, u, c, h, ids);
    case Cleanup(_) =>
  }

  lemma {:induction false} RunKeepsInv(env: Env, u: Universe, c: Core, h: History, es: seq<Event>) returns (h': History)
    requires CollisionFree(env, u) && Inv(env, u, c, h) && LegalRun(env, u, c, es)
    ensures Inv(env, u, Run(env, c, es), h')
    decreases es
  {
    h' := h;
    if es != [] {
      NextKeepsInv(env, u, c, h, es[0]);
      h' := RunKeepsInv(env, u, Next(env, c, es[0]), Record(env, c, h, es[0]), es[1..]);
    }
  }

  /** The list a cached directory was made from is the one asked for. */
  lemma SameList(env: Env, u: Universe, c: Core, h: History, ids: seq<string>)
    requires env.Valid() && CollisionFree(env, u) && Inv(env, u, c, h) && Legal(u, c, Compose(ids))
    requires env.Id(Join(ids)) in c.composed
    ensures h.made[env.Id(Join(ids))] == ids
  {
    var made := h.made[env.Id(Join(ids))];
    assert FullIds(made) && FullIds(ids);
    JoinInjective(made, ids);
  }

  lemma ComposeYields(env: Env, u: Universe, c: Core, h: History, ids: seq<string>)
    requires env.Valid() && CollisionFree(env, u) && Inv(env, u, c, h) && Legal(u, c, Compose(ids))
    ensures var d, c' := env.Id(Join(ids)), Next(env, c, Compose(ids));
            d in c'.composed && c'.composed[d] == Overlay(PresentIn(c.layers, ids))
  {
    var d := env.Id(Join(ids));
    if d in c.composed {
      assert MadeFrom(env, u, Blobs(env, h), c.composed[d], d, h.made[d]);
      assert h.made[d] == ids by { SameList(env, u, c, h, ids); }
      assert PresentIn(c.layers, ids) == PresentIn(Blobs(env, h), ids) by {
        PresentAgree(c.layers, Blobs(env, h), ids);
      }
      assert Next(env, c, Compose(ids)) == c;
    } else {
      assert Next(env, c, Compose(ids)).composed[d] == Overlay(PresentIn(c.layers, ids));
    }
  }

  /** The trees of layers that are all there. */
  function Trees(layers: map<string, Tree>, ids: seq<string>): seq<Tree>
    requires forall i :: 0 <= i < |ids| ==> ids[i] in layers
  {
    seq(|ids|, i requires 0 <= i < |ids| => layers[ids[i]])
  }

  lemma PresentIsTrees(layers: map<string, Tree>, ids: seq<string>)
    requires forall i :: 0 <= i < |ids| ==> ids[i] in layers
    ensures PresentIn(layers, ids) == Trees(layers, ids)
  {
    PresentAgree(layers, layers, ids);
  }

  /** Cache coherence: in every run whose compositions name only present layers, the directory
      returned for a list of layers, cached or fresh, is the left-to-right overlay of those
      layers as they are now, whatever was cleaned up and stored again in between. */
  lemma ComposeIsOverlay(env: Env, u: Universe, es: seq<Event>, ids: seq<string>)
    requires env.Valid() && CollisionFree(env, u)
    requires LegalRun(env, u, Core(map[], map[]), es)
    requires Legal(u, Run(env, Core(map[], map[]), es), Compose(ids))
    ensures var c := Run(env, Core(map[], map[]), es);
            var d, c' := env.Id(Join(ids)), Next(env, c, Compose(ids));
            d in c'.composed && c'.composed[d] == Overlay(Trees(c.layers, ids))
  {
    var c := Run(env, Core(map[], map[]), es);
    var h := RunKeepsInv(env, u, Core(map[], map[]), History(map[], map[]), es);
    ComposeYields(env, u, c, h, ids);
    PresentIsTrees(c.layers, ids);
  }

  lemma PresentOne(layers: map<string, Tree>, id: string)
    ensures PresentIn(layers, [id]) == if id in layers then [layers[id]] else []
    ensures id in layers ==> Overlay(PresentIn(layers, [id])) == layers[id]
  {
    assert [id][..0] == [];
    if id in layers {
      assert [layers[id]][..0] == [];
      assert map[] + layers[id] == layers[id];
    }
  }

  /** Naming a missing layer poisons its composition: the empty directory is cached, and once
      the layer is stored the cached directory differs from the overlay, unless the layer
      holds no file at all. */
  lemma MissingLayerPoisons(env: Env, c: Core, data: string, ids: seq<string>)
    requires ids == [env.Id(data)] && ids[0] !in c.layers && env.Id(Join(ids)) !in c.composed
    ensures var late := Next(env, Next(env, Next(env, c, Compose(ids)), Store(data)), Compose(ids));
            late.composed[env.Id(Join(ids))] == Overlay(PresentIn(late.layers, ids)) <==> env.extract(data) == map[]
  {
    PresentOne(c.layers, ids[0]);
    PresentOne(c.layers[ids[0] := env.extract(data)], ids[0]);
    var empty := Next(env, c, Compose(ids));
    assert empty.composed[env.Id(Join(ids))] == map[];
    var stored := Next(env, empty, Store(data));
    assert stored.layers == c.layers[ids[0] := env.extract(data)];
  }
}
