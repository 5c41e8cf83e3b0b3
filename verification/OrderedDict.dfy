/** A dictionary that remembers insertion order: overwriting keeps a key's place, deleting and
    adding again moves it to the end. */
module OrderedDict {

  datatype Item<V> = Item(key: string, value: V)

  ghost predicate Unique<V>(d: seq<Item<V>>) {
    forall i, j :: 0 <= i < j < |d| ==> d[i].key != d[j].key
  }

  predicate Has<V>(d: seq<Item<V>>, k: string) {
    d != [] && (d[0].key == k || Has(d[1..], k))
  }

  function Get<V>(d: seq<Item<V>>, k: string): V
    requires Has(d, k)
  {
    if d[0].key == k then d[0].value else Get(d[1..], k)
  }

  function Put<V>(d: seq<Item<V>>, k: string, v: V): seq<Item<V>> {
    if d == [] then [Item(k, v)]
    else if d[0].key == k then [Item(k, v)] + d[1..]
    else [d[0]] + Put(d[1..], k, v)
  }

  function Del<V>(d: seq<Item<V>>, k: string): seq<Item<V>> {
    if d == [] then []
    else if d[0].key == k then d[1..]
    else [d[0]] + Del(d[1..], k)
  }

  lemma {:induction false} HasAt<V>(d: seq<Item<V>>, k: string)
    ensures Has(d, k) <==> exists i :: 0 <= i < |d| && d[i].key == k
  {
    if d != [] {
      HasAt(d[1..], k);
      if i :| 0 <= i < |d| && d[i].key == k {
        if i > 0 { assert d[1..][i - 1] == d[i]; }
      }
    }
  }

  lemma {:induction false} GetAt<V>(d: seq<Item<V>>, i: nat)
    requires Unique(d) && i < |d|
    ensures Has(d, d[i].key) && Get(d, d[i].key) == d[i].value
  {
    if i > 0 {
      assert d[1..][i - 1] == d[i];
      GetAt(d[1..], i - 1);
    }
  }

  /** Deleting the key at a position takes that position out. */
  lemma {:induction false} DelAt<V>(d: seq<Item<V>>, i: nat)
    requires Unique(d) && i < |d|
    ensures Del(d, d[i].key) == d[..i] + d[i + 1..]
  {
    if i > 0 {
      assert d[1..][i - 1] == d[i];
      DelAt(d[1..], i - 1);
      assert d[..i] == [d[0]] + d[1..][..i - 1];
      assert d[1..][i..] == d[i + 1..];
    }
  }

  /** Only the key put changes. */
  lemma {:induction false} PutGet<V>(d: seq<Item<V>>, k: string, v: V, j: string)
    ensures Has(Put(d, k, v), j) <==> j == k || Has(d, j)
    ensures j == k ==> Get(Put(d, k, v), j) == v
    ensures j != k && Has(d, j) ==> Get(Put(d, k, v), j) == Get(d, j)
  {
    if d != [] && d[0].key != k {
      PutGet(d[1..], k, v, j);
    }
  }

  lemma {:induction false} DelAbsent<V>(d: seq<Item<V>>, k: string)
    requires !Has(d, k)
    ensures Del(d, k) == d
  {
    if d != [] { DelAbsent(d[1..], k); }
  }

  lemma {:induction false} PutAbsent<V>(d: seq<Item<V>>, k: string, v: V)
    requires !Has(d, k)
    ensures Put(d, k, v) == d + [Item(k, v)]
  {
    if d != [] {
      PutAbsent(d[1..], k, v);
      assert d + [Item(k, v)] == [d[0]] + (d[1..] + [Item(k, v)]);
    }
  }

  /** Overwriting the key at a position keeps the position. */
  lemma {:induction false} PutAt<V>(d: seq<Item<V>>, i: nat, v: V)
    requires Unique(d) && i < |d|
    ensures Put(d, d[i].key, v) == d[i := Item(d[i].key, v)]
  {
    if i > 0 {
      assert d[1..][i - 1] == d[i];
      var x := Item(d[i].key, v);
      PutAt(d[1..], i - 1, v);
      assert d[0].key != d[i].key;
      assert Put(d, d[i].key, v) == [d[0]] + d[1..][i - 1 := x];
      assert [d[0]] + d[1..][i - 1 := x] == d[i := x];
    }
  }

  /** Where a key is. */
  lemma Position<V>(d: seq<Item<V>>, k: string) returns (i: nat)
    requires Has(d, k)
    ensures i < |d| && d[i].key == k
  {
    HasAt(d, k);
    i :| 0 <= i < |d| && d[i].key == k;
  }

  lemma PutStaysUnique<V>(d: seq<Item<V>>, k: string, v: V)
    requires Unique(d)
    ensures Unique(Put(d, k, v))
  {
    if Has(d, k) {
      var at := Position(d, k);
      PutAt(d, at, v);
    } else {
      PutAbsent(d, k, v);
      forall i | 0 <= i < |d| ensures d[i].key != k { HasAt(d, k); }
    }
  }

  lemma PutUnique<V>(d: seq<Item<V>>, k: string, v: V)
    requires Unique(d)
    ensures Unique(Put(d, k, v))
    ensures forall x :: Has(Put(d, k, v), x) <==> Has(d, x) || x == k
    ensures Has(Put(d, k, v), k) && Get(Put(d, k, v), k) == v
    ensures forall x :: Has(d, x) && x != k ==> Has(Put(d, k, v), x) && Get(Put(d, k, v), x) == Get(d, x)
  {
    PutStaysUnique(d, k, v);
    PutGet(d, k, v, k);
    forall x
      ensures Has(Put(d, k, v), x) <==> Has(d, x) || x == k
      ensures Has(d, x) && x != k ==> Has(Put(d, k, v), x) && Get(Put(d, k, v), x) == Get(d, x)
    {
      PutGet(d, k, v, x);
    }
  }

  lemma TakenOut<V>(d: seq<V>, at: nat, r: seq<V>)
    requires at < |d| && r == d[..at] + d[at + 1..]
    ensures |r| == |d| - 1
    ensures forall i {:trigger r[i]} :: 0 <= i < |r| ==> r[i] == d[if i < at then i else i + 1]
  {}

  lemma ConsUnique<V>(x: Item<V>, d: seq<Item<V>>)
    requires Unique(d) && !Has(d, x.key)
    ensures Unique([x] + d)
  {
    HasAt(d, x.key);
  }

  lemma TailUnique<V>(d: seq<Item<V>>)
    requires Unique(d) && d != []
    ensures Unique(d[1..]) && !Has(d[1..], d[0].key)
  {
    HasAt(d[1..], d[0].key);
  }

  /** Deleting takes away the one key. */
  lemma {:induction false} DelHas<V>(d: seq<Item<V>>, k: string, x: string)
    requires Unique(d)
    ensures Has(Del(d, k), x) <==> Has(d, x) && x != k
  {
    if d != [] {
      TailUnique(d);
      if d[0].key != k {
        DelHas(d[1..], k, x);
        assert ([d[0]] + Del(d[1..], k))[1..] == Del(d[1..], k);
      }
    }
  }

  lemma {:induction false} DelStaysUnique<V>(d: seq<Item<V>>, k: string)
    requires Unique(d)
    ensures Unique(Del(d, k))
  {
    if d != [] {
      TailUnique(d);
      if d[0].key != k {
        DelStaysUnique(d[1..], k);
        DelHas(d[1..], k, d[0].key);
        ConsUnique(d[0], Del(d[1..], k));
      }
    }
  }

  lemma DelUnique<V>(d: seq<Item<V>>, k: string)
    requires Unique(d)
    ensures Unique(Del(d, k))
    ensures forall x :: Has(Del(d, k), x) <==> Has(d, x) && x != k
  {
    DelStaysUnique(d, k);
    forall x ensures Has(Del(d, k), x) <==> Has(d, x) && x != k {
      DelHas(d, k, x);
    }
  }
}
