/** The queue order of builder/queue.py: entries keyed by (priority, time), kept in order by
    a stable sort. The sort is pinned down without naming its body: its result is the one
    sorted arrangement that keeps entries of equal key in their old relative order. */
module StableOrder {

  datatype Entry<R> = Entry(prio: int, time: real, req: R)

  predicate KeyLeq<R>(a: Entry<R>, b: Entry<R>) {
    a.prio < b.prio || (a.prio == b.prio && a.time <= b.time)
  }

  predicate SameKey<R>(a: Entry<R>, b: Entry<R>) {
    a.prio == b.prio && a.time == b.time
  }

  ghost predicate Sorted<R>(q: seq<Entry<R>>) {
    forall i, j :: 0 <= i < j < |q| ==> KeyLeq(q[i], q[j])
  }

  /** Puts `e` after every trailing entry whose key is at most its own. */
  function Insert<R>(q: seq<Entry<R>>, e: Entry<R>): seq<Entry<R>> {
    if q == [] || KeyLeq(q[|q| - 1], e) then q + [e]
    else Insert(q[..|q| - 1], e) + [q[|q| - 1]]
  }

  function StableSort<R>(q: seq<Entry<R>>): seq<Entry<R>> {
    if q == [] then [] else Insert(StableSort(q[..|q| - 1]), q[|q| - 1])
  }

  /** The position Insert chooses. */
  function InsertPos<R>(q: seq<Entry<R>>, e: Entry<R>): (n: nat)
    ensures n <= |q|
    ensures forall i :: n <= i < |q| ==> !KeyLeq(q[i], e)
    ensures n > 0 ==> KeyLeq(q[n - 1], e)
  {
    if q == [] || KeyLeq(q[|q| - 1], e) then |q| else InsertPos(q[..|q| - 1], e)
  }

  lemma {:induction false} InsertSplits<R>(q: seq<Entry<R>>, e: Entry<R>)
    ensures Insert(q, e) == q[..InsertPos(q, e)] + [e] + q[InsertPos(q, e)..]
  {
    if q == [] || KeyLeq(q[|q| - 1], e) {
    } else {
      var front, n := q[..|q| - 1], InsertPos(q, e);
      InsertSplits(front, e);
      assert q[..n] == front[..n];
      assert q[n..] == front[n..] + [q[|q| - 1]];
    }
  }

  /** In a sorted queue the new entry lands behind exactly the entries of no larger key. */
  lemma InsertPosBehind<R>(q: seq<Entry<R>>, e: Entry<R>, j: nat)
    requires Sorted(q) && j < |q|
    ensures j < InsertPos(q, e) <==> KeyLeq(q[j], e)
  {
    var n := InsertPos(q, e);
    if j + 1 < n { assert KeyLeq(q[j], q[n - 1]); }
  }

  lemma InsertSorted<R>(q: seq<Entry<R>>, e: Entry<R>)
    requires Sorted(q)
    ensures Sorted(Insert(q, e))
  {
    InsertSplits(q, e);
    var n := InsertPos(q, e);
    forall i | 0 <= i < n ensures KeyLeq(q[i], e) {
      if i + 1 < n { assert KeyLeq(q[i], q[n - 1]); }
    }
  }

  lemma {:induction false} SortSorts<R>(q: seq<Entry<R>>)
    ensures Sorted(StableSort(q))
  {
    if q != [] {
      SortSorts(q[..|q| - 1]);
      InsertSorted(StableSort(q[..|q| - 1]), q[|q| - 1]);
    }
  }

  /** The entries of `q` with the key of `k`, in order. */
  ghost function WithKey<R>(q: seq<Entry<R>>, k: Entry<R>): seq<Entry<R>> {
    if q == [] then []
    else WithKey(q[..|q| - 1], k) + if SameKey(q[|q| - 1], k) then [q[|q| - 1]] else []
  }

  lemma {:induction false} InsertKeepsClasses<R>(q: seq<Entry<R>>, e: Entry<R>, k: Entry<R>)
    requires Sorted(q)
    ensures WithKey(Insert(q, e), k) == WithKey(q, k) + if SameKey(e, k) then [e] else []
  {
    if q == [] || KeyLeq(q[|q| - 1], e) {
      assert (q + [e])[..|q|] == q;
    } else {
      var front, last := q[..|q| - 1], q[|q| - 1];
      InsertKeepsClasses(front, e, k);
      var r := Insert(q, e);
      assert r[..|r| - 1] == Insert(front, e);
      if SameKey(e, k) && SameKey(last, k) { assert false; }
    }
  }

  /** Stability: every class of equal keys keeps its members and their order. */
  lemma {:induction false} SortKeepsClasses<R>(q: seq<Entry<R>>, k: Entry<R>)
    ensures WithKey(StableSort(q), k) == WithKey(q, k)
  {
    if q != [] {
      SortKeepsClasses(q[..|q| - 1], k);
      SortSorts(q[..|q| - 1]);
      InsertKeepsClasses(StableSort(q[..|q| - 1]), q[|q| - 1], k);
    }
  }

  lemma {:induction false} ClassMember<R>(q: seq<Entry<R>>, i: nat)
    requires i < |q|
    ensures WithKey(q, q[i]) != []
  {
    if i < |q| - 1 { ClassMember(q[..|q| - 1], i); }
  }

  lemma {:induction false} ClassWitness<R>(q: seq<Entry<R>>, k: Entry<R>) returns (i: nat)
    requires WithKey(q, k) != []
    ensures i < |q| && SameKey(q[i], k)
  {
    if SameKey(q[|q| - 1], k) { i := |q| - 1; } else { i := ClassWitness(q[..|q| - 1], k); }
  }

  lemma LastDominates<R>(s: seq<Entry<R>>, t: seq<Entry<R>>)
    requires s != [] && Sorted(t)
    requires forall k :: WithKey(s, k) == WithKey(t, k)
    ensures t != [] && KeyLeq(s[|s| - 1], t[|t| - 1])
  {
    var e := s[|s| - 1];
    ClassMember(s, |s| - 1);
    assert WithKey(t, e) != [];
    var i := ClassWitness(t, e);
    if i + 1 < |t| { assert KeyLeq(t[i], t[|t| - 1]); }
  }

  /** A sorted arrangement with given classes is unique, so sortedness and stability
      together determine the sort. */
  lemma {:induction false} StableArrangementUnique<R>(s: seq<Entry<R>>, t: seq<Entry<R>>)
    requires Sorted(s) && Sorted(t)
    requires forall k :: WithKey(s, k) == WithKey(t, k)
    ensures s == t
  {
    if s == [] {
      if t != [] { LastDominates(t, s); }
    } else {
      LastDominates(s, t);
      LastDominates(t, s);
      var e, f := s[|s| - 1], t[|t| - 1];
      var s', t' := s[..|s| - 1], t[..|t| - 1];
      assert WithKey(s, e) == WithKey(t, e);
      assert e == f by {
        assert WithKey(s, e)[|WithKey(s, e)| - 1] == e;
        assert WithKey(t, e)[|WithKey(t, e)| - 1] == f;
      }
      forall k ensures WithKey(s', k) == WithKey(t', k) {
        assert WithKey(s, k) == WithKey(t, k);
        var tail := if SameKey(e, k) then [e] else [];
        assert WithKey(s', k) + tail == WithKey(t', k) + tail;
        assert (WithKey(s', k) + tail)[..|WithKey(s', k)|] == WithKey(s', k);
        assert (WithKey(t', k) + tail)[..|WithKey(t', k)|] == WithKey(t', k);
      }
      StableArrangementUnique(s', t');
      assert s == s' + [e] && t == t' + [e];
    }
  }

  /** Sorting is idempotent; with it, append-then-sort on a sorted queue is one insertion. */
  lemma SortedIsFixed<R>(q: seq<Entry<R>>)
    requires Sorted(q)
    ensures StableSort(q) == q
  {
    SortSorts(q);
    forall k ensures WithKey(StableSort(q), k) == WithKey(q, k) { SortKeepsClasses(q, k); }
    StableArrangementUnique(StableSort(q), q);
  }

  lemma AppendThenSort<R>(q: seq<Entry<R>>, e: Entry<R>)
    requires Sorted(q)
    ensures StableSort(q + [e]) == Insert(q, e)
    ensures StableSort(q + [e]) == q[..InsertPos(q, e)] + [e] + q[InsertPos(q, e)..]
  {
    assert (q + [e])[..|q|] == q;
    SortedIsFixed(q);
    InsertSplits(q, e);
  }
}
