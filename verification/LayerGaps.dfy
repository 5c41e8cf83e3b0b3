/** Compositions that name layers not there. compose_layers skips them silently and keeps the
    result for ever; this is exactly when that result is still right once the layers are stored. */
module LayerGaps {
  import opened LayerStore

  // ---------------------------------------------------------------- overlays with gaps

  /** The last layer that is there and holds the file; -1 if none does. */
  function Top(layers: map<string, Tree>, ids: seq<string>, p: Path): (i: int)
    ensures -1 <= i < |ids|
    ensures i >= 0 ==> ids[i] in layers && p in layers[ids[i]]
    ensures forall k :: i < k < |ids| && ids[k] in layers ==> p !in layers[ids[k]]
  {
    if ids == [] then -1
    else
      var n := |ids| - 1;
      if ids[n] in layers && p in layers[ids[n]] then n else Top(layers, ids[..n], p)
  }

  lemma {:induction false} OverlayAt(layers: map<string, Tree>, ids: seq<string>, p: Path)
    ensures var tree, i := Overlay(PresentIn(layers, ids)), Top(layers, ids, p);
            (p in tree <==> i >= 0) && (i >= 0 ==> tree[p] == layers[ids[i]][p])
  {
    if ids != [] {
      var front, last := ids[..|ids| - 1], ids[|ids| - 1];
      OverlayAt(layers, front, p);
      if last in layers {
        var trees := PresentIn(layers, ids);
        assert trees[..|trees| - 1] == PresentIn(layers, front);
      }
    }
  }

  lemma {:induction false} TopOfPrefix(layers: map<string, Tree>, ids: seq<string>, n: nat, p: Path)
    requires n <= |ids| && Top(layers, ids, p) < n
    ensures Top(layers, ids[..n], p) == Top(layers, ids, p)
    decreases |ids|
  {
    if n < |ids| {
      TopOfPrefix(layers, ids[..|ids| - 1], n, p);
      assert ids[..|ids| - 1][..n] == ids[..n];
    } else {
      assert ids[..n] == ids;
    }
  }

  ghost predicate AllIn(layers: map<string, Tree>, ids: seq<string>) {
    forall i :: 0 <= i < |ids| ==> ids[i] in layers
  }

  ghost predicate Agree(was: map<string, Tree>, now: map<string, Tree>) {
    forall id :: id in was && id in now ==> was[id] == now[id]
  }

  /** Layer `i` is the last to hold the file. */
  ghost predicate Shows(now: map<string, Tree>, ids: seq<string>, i: int, p: Path)
    requires AllIn(now, ids) && 0 <= i < |ids|
  {
    p in now[ids[i]] && forall k :: i < k < |ids| ==> p !in now[ids[k]]
  }

  /** Every file that a missing layer should show was already there, with the same content, from
      the layers before it. */
  ghost predicate GapsShowNothingNew(was: map<string, Tree>, now: map<string, Tree>, ids: seq<string>)
    requires AllIn(now, ids)
  {
    forall i, p :: 0 <= i < |ids| && ids[i] !in was && Shows(now, ids, i, p) ==>
      var below := Overlay(PresentIn(was, ids[..i]));
      p in below && below[p] == now[ids[i]][p]
  }

  /** What the two overlays say of one file, in terms of the last layer that holds it now. */
  lemma FileAgreesIff(was: map<string, Tree>, now: map<string, Tree>, ids: seq<string>, p: Path)
    requires Agree(was, now) && AllIn(now, ids)
    ensures var before, after := Overlay(PresentIn(was, ids)), Overlay(PresentIn(now, ids));
            var i := Top(now, ids, p);
            (p in after <==> i >= 0) &&
            (i < 0 || ids[i] in was ==> (p in before <==> p in after) && (p in before ==> before[p] == after[p])) &&
            (i >= 0 && ids[i] !in was ==>
              var below := Overlay(PresentIn(was, ids[..i]));
              after[p] == now[ids[i]][p] &&
              (p in before <==> p in below) && (p in before ==> before[p] == below[p]))
  {
    var i, j := Top(now, ids, p), Top(was, ids, p);
    OverlayAt(was, ids, p);
    OverlayAt(now, ids, p);
    if j >= 0 {
      assert j <= i;
    }
    if i >= 0 && ids[i] in was {
      assert j == i;
    } else if i >= 0 {
      TopOfPrefix(was, ids, i, p);
      OverlayAt(was, ids[..i], p);
    }
  }

  /** A directory made when some layers were missing is the overlay of all of them, once they are
      there, if and only if the missing ones show nothing new. */
  lemma StillOverlayIff(was: map<string, Tree>, now: map<string, Tree>, ids: seq<string>)
    requires Agree(was, now) && AllIn(now, ids)
    ensures Overlay(PresentIn(was, ids)) == Overlay(PresentIn(now, ids)) <==> GapsShowNothingNew(was, now, ids)
  {
    var before, after := Overlay(PresentIn(was, ids)), Overlay(PresentIn(now, ids));
    if GapsShowNothingNew(was, now, ids) {
      forall p ensures p in before <==> p in after
               ensures p in before ==> before[p] == after[p]
      {
        FileAgreesIff(was, now, ids, p);
        var i := Top(now, ids, p);
        if i >= 0 && ids[i] !in was {
          assert Shows(now, ids, i, p);
        }
      }
      assert before == after;
    }
    if before == after {
      forall i, p | 0 <= i < |ids| && ids[i] !in was && Shows(now, ids, i, p)
        ensures var below := Overlay(PresentIn(was, ids[..i])); p in below && below[p] == now[ids[i]][p]
      {
        FileAgreesIff(was, now, ids, p);
        assert Top(now, ids, p) == i;
      }
    }
  }

  // ---------------------------------------------------------------- runs with gaps

  const START := Core(map[], map[])

  /** As in any run, but a composition may name layers that are not there. */
  ghost predicate Permitted(u: Universe, c: Core, e: Event) {
    match e
    case Store(data) => data in u.datas
    case Compose(ids) => ids in u.lists && NoClashes(PresentIn(c.layers, ids))
    case Cleanup(_) => true
  }

  ghost predicate PermittedRun(env: Env, u: Universe, c: Core, es: seq<Event>)
    decreases es
  {
    es == [] || (Permitted(u, c, es[0]) && PermittedRun(env, u, Next(env, c, es[0]), es[1..]))
  }

  ghost predicate FromData(env: Env, u: Universe, layers: map<string, Tree>) {
    forall id :: id in layers ==>
      exists data :: data in u.datas && env.Id(data) == id && layers[id] == env.extract(data)
  }

  lemma {:induction false} RunFromData(env: Env, u: Universe, c: Core, es: seq<Event>)
    requires FromData(env, u, c.layers) && PermittedRun(env, u, c, es)
    ensures FromData(env, u, Run(env, c, es).layers)
    decreases es
  {
    if es != [] {
      assert FromData(env, u, Next(env, c, es[0]).layers);
      RunFromData(env, u, Next(env, c, es[0]), es[1..]);
    }
  }

  lemma {:induction false} PrefixPermitted(env: Env, u: Universe, c: Core, es: seq<Event>, k: nat)
    requires PermittedRun(env, u, c, es) && k <= |es|
    ensures PermittedRun(env, u, c, es[..k])
    ensures k < |es| ==> Permitted(u, Run(env, c, es[..k]), es[k])
    decreases es
  {
    if k > 0 {
      assert es[..k][1..] == es[1..][..k - 1];
      PrefixPermitted(env, u, Next(env, c, es[0]), es[1..], k - 1);
    }
  }

  lemma {:induction false} ComposedStays(env: Env, c: Core, es: seq<Event>, d: string)
    requires d in c.composed
    ensures d in Run(env, c, es).composed && Run(env, c, es).composed[d] == c.composed[d]
    decreases es
  {
    if es != [] { ComposedStays(env, Next(env, c, es[0]), es[1..], d); }
  }

  /** A composed directory was made by one step, from the layers there were then. */
  lemma {:induction false} FirstMade(env: Env, c: Core, es: seq<Event>, d: string) returns (k: nat)
    requires d !in c.composed && d in Run(env, c, es).composed
    ensures k < |es| && es[k].Compose? && env.Id(Join(es[k].ids)) == d
    ensures var made := Run(env, c, es[..k]);
            d !in made.composed && Run(env, c, es).composed[d] == Overlay(PresentIn(made.layers, es[k].ids))
    decreases es
  {
    var c' := Next(env, c, es[0]);
    if d in c'.composed {
      k := 0;
      ComposedStays(env, c', es[1..], d);
    } else {
      var j := FirstMade(env, c', es[1..], d);
      k := j + 1;
      assert es[..k][1..] == es[1..][..j];
    }
  }

  /** The step that made the directory of a list, or the end of the run if none did. */
  lemma MakingStep(env: Env, u: Universe, es: seq<Event>, ids: seq<string>) returns (k: nat)
    requires CollisionFree(env, u) && (forall list :: list in u.lists ==> FullIds(list))
    requires PermittedRun(env, u, START, es) && ids in u.lists
    ensures k <= |es| && (k < |es| ==> es[k] == Compose(ids))
    ensures k < |es| <==> env.Id(Join(ids)) in Run(env, START, es).composed
    ensures env.Id(Join(ids)) !in Run(env, START, es[..k]).composed
    ensures Next(env, Run(env, START, es), Compose(ids)).composed[env.Id(Join(ids))] ==
              Overlay(PresentIn(Run(env, START, es[..k]).layers, ids))
  {
    if env.Id(Join(ids)) in Run(env, START, es).composed {
      k := FirstMade(env, START, es, env.Id(Join(ids)));
      PrefixPermitted(env, u, START, es, k);
      JoinInjective(es[k].ids, ids);
    } else {
      k := |es|;
      assert es[..k] == es;
    }
  }

  /** An id always names the same tree. */
  lemma LayersAgree(env: Env, u: Universe, was: map<string, Tree>, now: map<string, Tree>)
    requires CollisionFree(env, u) && FromData(env, u, was) && FromData(env, u, now)
    ensures Agree(was, now)
  {}

  lemma RunLayersAgree(env: Env, u: Universe, es: seq<Event>, k: nat)
    requires CollisionFree(env, u) && PermittedRun(env, u, START, es) && k <= |es|
    ensures Agree(Run(env, START, es[..k]).layers, Run(env, START, es).layers)
  {
    PrefixPermitted(env, u, START, es, k);
    RunFromData(env, u, START, es);
    RunFromData(env, u, START, es[..k]);
    LayersAgree(env, u, Run(env, START, es[..k]).layers, Run(env, START, es).layers);
  }

  /** In any run, whatever was missing whenever something was composed: the directory returned for
      a list of layers that are there now is the overlay of those that were there at step `k`, when
      it was made, and is their overlay as they are now if and only if the layers missing then show
      nothing new. */
  lemma ComposeIsOverlayIff(env: Env, u: Universe, es: seq<Event>, ids: seq<string>) returns (k: nat)
    requires CollisionFree(env, u) && (forall list :: list in u.lists ==> FullIds(list))
    requires PermittedRun(env, u, START, es) && Legal(u, Run(env, START, es), Compose(ids))
    ensures k <= |es| && (k < |es| ==> es[k] == Compose(ids))
    ensures var c, d, made := Run(env, START, es), env.Id(Join(ids)), Run(env, START, es[..k]);
            var dir := Next(env, c, Compose(ids)).composed[d];
            (k < |es| <==> d in c.composed) && d !in made.composed &&
            dir == Overlay(PresentIn(made.layers, ids)) &&
            (dir == Overlay(Trees(c.layers, ids)) <==> GapsShowNothingNew(made.layers, c.layers, ids))
  {
    k := MakingStep(env, u, es, ids);
    RunLayersAgree(env, u, es, k);
    StillOverlayIff(Run(env, START, es[..k]).layers, Run(env, START, es).layers, ids);
    PresentIsTrees(Run(env, START, es).layers, ids);
  }
}
