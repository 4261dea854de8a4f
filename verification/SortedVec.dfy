/** Vectors kept sorted by a strictly increasing key, as the receive side keeps its
    groups, its reassembled packets and its incomplete objects; and sums over them. */
module SortedVec {
  import opened Wrappers

  datatype Entry<+T> = Entry(key: nat, value: T)

  ghost predicate Sorted<T>(xs: seq<Entry<T>>) {
    forall i, j | 0 <= i < j < |xs| :: xs[i].key < xs[j].key
  }

  ghost function Keys<T>(xs: seq<Entry<T>>): set<nat> {
    set x | x in xs :: x.key
  }

  /** The contract of a binary search by key: the first position whose key is not below `k`. */
  function Search<T>(xs: seq<Entry<T>>, k: nat): (i: nat)
    ensures i <= |xs|
    ensures forall j | 0 <= j < i :: xs[j].key < k
    ensures i < |xs| ==> k <= xs[i].key
  {
    if xs == [] || k <= xs[0].key then 0 else 1 + Search(xs[1..], k)
  }

  predicate Has<T>(xs: seq<Entry<T>>, k: nat) {
    var i := Search(xs, k);
    i < |xs| && xs[i].key == k
  }

  function InsertAt<T>(xs: seq<T>, i: nat, x: T): seq<T>
    requires i <= |xs|
  {
    xs[..i] + [x] + xs[i..]
  }

  function RemoveAt<T>(xs: seq<T>, i: nat): seq<T>
    requires i < |xs|
  {
    xs[..i] + xs[i + 1..]
  }

  /** The entries whose key is above `t`, in order. */
  function KeepAbove<T>(xs: seq<Entry<T>>, t: nat): seq<Entry<T>> {
    if xs == [] then []
    else if xs[0].key <= t then KeepAbove(xs[1..], t)
    else [xs[0]] + KeepAbove(xs[1..], t)
  }

  lemma KeysAt<T>(xs: seq<Entry<T>>, k: nat)
    ensures k in Keys(xs) <==> exists i :: 0 <= i < |xs| && xs[i].key == k
  {
    if k in Keys(xs) {
      var x :| x in xs && x.key == k;
      var i :| 0 <= i < |xs| && xs[i] == x;
      assert xs[i].key == k;
    }
  }

  lemma HasIffKey<T>(xs: seq<Entry<T>>, k: nat)
    requires Sorted(xs)
    ensures Has(xs, k) <==> k in Keys(xs)
  {
    KeysAt(xs, k);
    var i := Search(xs, k);
    if k in Keys(xs) {
      var j :| 0 <= j < |xs| && xs[j].key == k;
      assert i <= j;
    }
  }

  lemma InsertSorted<T>(xs: seq<Entry<T>>, e: Entry<T>)
    requires Sorted(xs) && !Has(xs, e.key)
    ensures Sorted(InsertAt(xs, Search(xs, e.key), e))
    ensures Keys(InsertAt(xs, Search(xs, e.key), e)) == Keys(xs) + {e.key}
  {
    var i := Search(xs, e.key);
    InsertKeys(xs, i, e);
    InsertBetween(xs, i, e);
  }

  lemma InsertBetween<T>(xs: seq<Entry<T>>, i: nat, e: Entry<T>)
    requires Sorted(xs) && i <= |xs|
    requires 0 < i ==> xs[i - 1].key < e.key
    requires i < |xs| ==> e.key < xs[i].key
    ensures Sorted(InsertAt(xs, i, e))
  {
    var ys := InsertAt(xs, i, e);
    forall a, b | 0 <= a < b < |ys| ensures ys[a].key < ys[b].key {
      assert ys[a] == if a < i then xs[a] else if a == i then e else xs[a - 1];
      assert ys[b] == if b < i then xs[b] else if b == i then e else xs[b - 1];
    }
  }

  lemma InsertKeys<T>(xs: seq<Entry<T>>, i: nat, e: Entry<T>)
    requires i <= |xs|
    ensures Keys(InsertAt(xs, i, e)) == Keys(xs) + {e.key}
  {
    var ys := InsertAt(xs, i, e);
    assert xs == xs[..i] + xs[i..];
    assert forall x :: x in ys <==> x in xs || x == e;
  }

  lemma RemoveSorted<T>(xs: seq<Entry<T>>, i: nat)
    requires Sorted(xs) && i < |xs|
    ensures Sorted(RemoveAt(xs, i))
    ensures Keys(RemoveAt(xs, i)) == Keys(xs) - {xs[i].key}
  {
    var ys := RemoveAt(xs, i);
    forall a, b | 0 <= a < b < |ys| ensures ys[a].key < ys[b].key {
      assert ys[a] == xs[if a < i then a else a + 1] && ys[b] == xs[if b < i then b else b + 1];
    }
    RemovedKeys(xs, i);
  }

  lemma KeyStays<T>(xs: seq<Entry<T>>, i: nat, k: nat)
    requires i < |xs| && k in Keys(xs) && k != xs[i].key
    ensures k in Keys(RemoveAt(xs, i))
  {
    KeysAt(xs, k);
    var j :| 0 <= j < |xs| && xs[j].key == k;
    assert RemoveAt(xs, i)[if j < i then j else j - 1] == xs[j];
    KeysAt(RemoveAt(xs, i), k);
  }

  lemma KeyWasOther<T>(xs: seq<Entry<T>>, i: nat, k: nat)
    requires Sorted(xs) && i < |xs| && k in Keys(RemoveAt(xs, i))
    ensures k in Keys(xs) && k != xs[i].key
  {
    var ys := RemoveAt(xs, i);
    KeysAt(ys, k);
    var j :| 0 <= j < |ys| && ys[j].key == k;
    assert ys[j] == xs[if j < i then j else j + 1];
    KeysAt(xs, k);
  }

  lemma RemovedKeys<T>(xs: seq<Entry<T>>, i: nat)
    requires Sorted(xs) && i < |xs|
    ensures Keys(RemoveAt(xs, i)) == Keys(xs) - {xs[i].key}
  {
    forall k | k in Keys(xs) && k != xs[i].key ensures k in Keys(RemoveAt(xs, i)) {
      KeyStays(xs, i, k);
    }
    forall k | k in Keys(RemoveAt(xs, i)) ensures k in Keys(xs) && k != xs[i].key {
      KeyWasOther(xs, i, k);
    }
  }

  lemma UpdateSorted<T>(xs: seq<Entry<T>>, i: nat, v: T)
    requires Sorted(xs) && i < |xs|
    ensures Sorted(xs[i := xs[i].(value := v)])
    ensures Keys(xs[i := xs[i].(value := v)]) == Keys(xs)
  {
    var ys := xs[i := xs[i].(value := v)];
    assert forall j | 0 <= j < |xs| :: ys[j].key == xs[j].key;
    forall k ensures k in Keys(ys) <==> k in Keys(xs) {
      KeysAt(xs, k);
      KeysAt(ys, k);
    }
  }

  lemma SearchInserted<T>(xs: seq<Entry<T>>, e: Entry<T>)
    ensures Search(InsertAt(xs, Search(xs, e.key), e), e.key) == Search(xs, e.key)
  {
    var i := Search(xs, e.key);
    var ys := InsertAt(xs, i, e);
    var j := Search(ys, e.key);
    assert ys[i] == e;
    assert forall k | 0 <= k < i :: ys[k] == xs[k];
  }

  /** What is left when the entries below `k` are drained from the front. */
  lemma DrainedKeys<T>(xs: seq<Entry<T>>, k: nat)
    requires Sorted(xs)
    ensures var kept := xs[Search(xs, k)..];
            && Sorted(kept)
            && (forall e | e in kept :: e in xs && k <= e.key)
            && (forall n :: n in Keys(kept) <==> n in Keys(xs) && k <= n)
  {
    var kept := xs[Search(xs, k)..];
    DrainedMembers(xs, k);
    forall n ensures n in Keys(kept) <==> n in Keys(xs) && k <= n {
      if n in Keys(kept) {
        var e :| e in kept && e.key == n;
      }
      if n in Keys(xs) && k <= n {
        var e :| e in xs && e.key == n;
        assert e in kept;
      }
    }
  }

  lemma DrainedMember<T>(xs: seq<Entry<T>>, k: nat, e: Entry<T>)
    requires Sorted(xs)
    ensures e in xs[Search(xs, k)..] <==> e in xs && k <= e.key
  {
    var i := Search(xs, k);
    if e in xs[i..] {
      var j :| i <= j < |xs| && xs[j] == e;
      assert j == i || xs[i].key < xs[j].key;
    }
    if e in xs && k <= e.key {
      var j :| 0 <= j < |xs| && xs[j] == e;
      assert e == xs[i..][j - i];
    }
  }

  lemma DrainedMembers<T>(xs: seq<Entry<T>>, k: nat)
    requires Sorted(xs)
    ensures forall e :: e in xs[Search(xs, k)..] <==> e in xs && k <= e.key
  {
    forall e ensures e in xs[Search(xs, k)..] <==> e in xs && k <= e.key {
      DrainedMember(xs, k, e);
    }
  }

  /** What is left when the first entry is taken. */
  lemma PoppedKeys<T>(xs: seq<Entry<T>>)
    requires Sorted(xs) && xs != []
    ensures Sorted(xs[1..])
    ensures forall e | e in xs[1..] :: e in xs && xs[0].key < e.key
    ensures forall n | n in Keys(xs[1..]) :: n in Keys(xs) && xs[0].key < n
  {
    forall e | e in xs[1..] ensures e in xs && xs[0].key < e.key {
      var j :| 0 <= j < |xs[1..]| && xs[1..][j] == e;
      assert xs[j + 1] == e;
    }
  }

  // ----- Values by key

  function At<T>(xs: seq<Entry<T>>, k: nat): Option<T> {
    var i := Search(xs, k);
    if i < |xs| && xs[i].key == k then Some(xs[i].value) else None
  }

  lemma AtMember<T>(xs: seq<Entry<T>>, k: nat, v: T)
    requires Sorted(xs)
    ensures At(xs, k) == Some(v) <==> Entry(k, v) in xs
  {
    if Entry(k, v) in xs {
      var j :| 0 <= j < |xs| && xs[j] == Entry(k, v);
      var i := Search(xs, k);
      assert i <= j;
    }
  }

  /** Two sorted vectors with the same entries for a key agree on it. */
  lemma AtSame<T>(xs: seq<Entry<T>>, ys: seq<Entry<T>>, k: nat)
    requires Sorted(xs) && Sorted(ys)
    requires forall v :: Entry(k, v) in xs <==> Entry(k, v) in ys
    ensures At(xs, k) == At(ys, k)
  {
    if At(xs, k).Some? {
      AtMember(xs, k, At(xs, k).value);
      AtMember(ys, k, At(xs, k).value);
    } else if At(ys, k).Some? {
      AtMember(xs, k, At(ys, k).value);
      AtMember(ys, k, At(ys, k).value);
    }
  }

  lemma InsertMembers<T>(xs: seq<T>, i: nat, e: T)
    requires i <= |xs|
    ensures forall x :: x in InsertAt(xs, i, e) <==> x in xs || x == e
  {
    assert xs == xs[..i] + xs[i..];
  }

  lemma AtInsert<T>(xs: seq<Entry<T>>, e: Entry<T>, k: nat)
    requires Sorted(xs) && !Has(xs, e.key)
    ensures At(InsertAt(xs, Search(xs, e.key), e), k) == if k == e.key then Some(e.value) else At(xs, k)
  {
    var i := Search(xs, e.key);
    var ys := InsertAt(xs, i, e);
    InsertSorted(xs, e);
    InsertMembers(xs, i, e);
    if k == e.key {
      AtMember(ys, k, e.value);
    } else {
      AtSame(xs, ys, k);
    }
  }

  lemma AtRemove<T>(xs: seq<Entry<T>>, i: nat, k: nat)
    requires Sorted(xs) && i < |xs|
    ensures At(RemoveAt(xs, i), k) == if k == xs[i].key then None else At(xs, k)
  {
    var ys := RemoveAt(xs, i);
    RemoveSorted(xs, i);
    if k == xs[i].key {
      HasIffKey(ys, k);
    } else {
      assert xs == xs[..i] + [xs[i]] + xs[i + 1..];
      forall w ensures Entry(k, w) in xs <==> Entry(k, w) in ys {
        assert Entry(k, w) != xs[i];
      }
      AtSame(xs, ys, k);
    }
  }

  lemma AtUpdate<T>(xs: seq<Entry<T>>, i: nat, v: T, k: nat)
    requires Sorted(xs) && i < |xs|
    ensures At(xs[i := Entry(xs[i].key, v)], k) == if k == xs[i].key then Some(v) else At(xs, k)
  {
    var ys := xs[i := Entry(xs[i].key, v)];
    UpdateSorted(xs, i, v);
    if k == xs[i].key {
      assert ys[i] == Entry(k, v);
      AtMember(ys, k, v);
    } else {
      forall w ensures Entry(k, w) in xs <==> Entry(k, w) in ys {
        if Entry(k, w) in xs {
          var j :| 0 <= j < |xs| && xs[j] == Entry(k, w);
          assert ys[j] == Entry(k, w);
        }
      }
      AtSame(xs, ys, k);
    }
  }

  lemma AtSuffix<T>(xs: seq<Entry<T>>, i: nat, k: nat)
    requires Sorted(xs) && i <= |xs|
    requires forall j | 0 <= j < i :: xs[j].key < k
    ensures At(xs[i..], k) == At(xs, k)
  {
    assert xs == xs[..i] + xs[i..];
    forall w ensures Entry(k, w) in xs <==> Entry(k, w) in xs[i..] {
      if Entry(k, w) in xs {
        var j :| 0 <= j < |xs| && xs[j] == Entry(k, w);
        assert xs[i..][j - i] == xs[j];
      }
    }
    AtSame(xs, xs[i..], k);
  }

  // ----- KeepAbove

  lemma {:induction false} KeepAboveKeys<T>(xs: seq<Entry<T>>, t: nat)
    ensures forall x :: x in KeepAbove(xs, t) <==> x in xs && t < x.key
    ensures Keys(KeepAbove(xs, t)) == set k | k in Keys(xs) && t < k
  {
    if xs != [] {
      KeepAboveKeys(xs[1..], t);
      assert xs == [xs[0]] + xs[1..];
    }
    var ys := KeepAbove(xs, t);
    assert forall x :: x in ys <==> x in xs && t < x.key;
    forall k ensures k in Keys(ys) <==> k in Keys(xs) && t < k {
      if k in Keys(xs) && t < k {
        var x :| x in xs && x.key == k;
        assert x in ys;
      }
      if k in Keys(ys) {
        var x :| x in ys && x.key == k;
        assert x in xs;
      }
    }
  }

  lemma {:induction false} KeepAboveTwice<T>(xs: seq<Entry<T>>, s: nat, t: nat)
    requires s <= t
    ensures KeepAbove(KeepAbove(xs, s), t) == KeepAbove(xs, t)
  {
    if xs != [] {
      KeepAboveTwice(xs[1..], s, t);
      if s < xs[0].key {
        var ys := KeepAbove(xs, s);
        assert ys[0] == xs[0] && ys[1..] == KeepAbove(xs[1..], s);
      }
    }
  }

  lemma {:induction false} KeepAboveAll<T>(xs: seq<Entry<T>>, t: nat)
    requires forall k | k in Keys(xs) :: t < k
    ensures KeepAbove(xs, t) == xs
  {
    if xs != [] {
      assert xs[0].key in Keys(xs);
      assert Keys(xs[1..]) <= Keys(xs);
      KeepAboveAll(xs[1..], t);
      assert xs == [xs[0]] + xs[1..];
    }
  }

  lemma KeepAboveFront<T>(xs: seq<Entry<T>>)
    requires Sorted(xs) && xs != []
    ensures KeepAbove(xs, xs[0].key) == xs[1..]
  {
    forall k | k in Keys(xs[1..]) ensures xs[0].key < k {
      KeysAt(xs[1..], k);
    }
    KeepAboveAll(xs[1..], xs[0].key);
  }

  // ----- Sums

  function Sum<T>(xs: seq<T>, f: T -> nat): nat {
    if xs == [] then 0 else f(xs[0]) + Sum(xs[1..], f)
  }

  lemma {:induction false} SumConcat<T>(xs: seq<T>, ys: seq<T>, f: T -> nat)
    ensures Sum(xs + ys, f) == Sum(xs, f) + Sum(ys, f)
  {
    if xs == [] {
      assert xs + ys == ys;
    } else {
      assert (xs + ys)[1..] == xs[1..] + ys;
      SumConcat(xs[1..], ys, f);
    }
  }

  lemma SumOne<T>(x: T, f: T -> nat)
    ensures Sum([x], f) == f(x)
  {
    assert [x][1..] == [];
  }

  lemma SumInsert<T>(xs: seq<T>, i: nat, x: T, f: T -> nat)
    requires i <= |xs|
    ensures Sum(InsertAt(xs, i, x), f) == Sum(xs, f) + f(x)
  {
    SumConcat(xs[..i] + [x], xs[i..], f);
    SumConcat(xs[..i], [x], f);
    SumOne(x, f);
    SumSplit(xs, i, f);
  }

  lemma SumRemove<T>(xs: seq<T>, i: nat, f: T -> nat)
    requires i < |xs|
    ensures Sum(xs, f) == Sum(RemoveAt(xs, i), f) + f(xs[i])
  {
    SumInsert(RemoveAt(xs, i), i, xs[i], f);
    Reinserted(xs, i);
  }

  lemma Reinserted<T>(xs: seq<T>, i: nat)
    requires i < |xs|
    ensures InsertAt(RemoveAt(xs, i), i, xs[i]) == xs
  {
    var ys := RemoveAt(xs, i);
    assert ys[..i] == xs[..i] && ys[i..] == xs[i + 1..];
  }

  lemma SumUpdate<T>(xs: seq<T>, i: nat, x: T, f: T -> nat)
    requires i < |xs|
    ensures Sum(xs[i := x], f) + f(xs[i]) == Sum(xs, f) + f(x)
  {
    SumRemove(xs, i, f);
    SumRemove(xs[i := x], i, f);
    assert RemoveAt(xs[i := x], i) == RemoveAt(xs, i);
  }

  lemma SumSplit<T>(xs: seq<T>, i: nat, f: T -> nat)
    requires i <= |xs|
    ensures Sum(xs, f) == Sum(xs[..i], f) + Sum(xs[i..], f)
  {
    SumConcat(xs[..i], xs[i..], f);
    assert xs == xs[..i] + xs[i..];
  }

  /** Dropping the first `i` elements and replacing the next one. */
  lemma SumSuffix<T>(xs: seq<T>, i: nat, x: T, f: T -> nat)
    requires i < |xs|
    ensures Sum(xs[..i], f) + f(xs[i]) + Sum([x] + xs[i + 1..], f) == Sum(xs, f) + f(x)
  {
    SumSplit(xs, i, f);
    assert xs[i..] == [xs[i]] + xs[i + 1..];
    SumConcat([xs[i]], xs[i + 1..], f);
    SumConcat([x], xs[i + 1..], f);
    SumOne(xs[i], f);
    SumOne(x, f);
  }

  lemma {:induction false} SumAtMost<T>(xs: seq<T>, f: T -> nat, most: nat)
    requires forall x | x in xs :: f(x) <= most
    ensures Sum(xs, f) <= |xs| * most
  {
    if xs != [] {
      SumAtMost(xs[1..], f, most);
      assert |xs| * most == (|xs| - 1) * most + most;
    }
  }

  lemma {:induction false} SumOrdered<T>(xs: seq<T>, f: T -> nat, g: T -> nat)
    requires forall x | x in xs :: f(x) <= g(x)
    ensures Sum(xs, f) <= Sum(xs, g)
  {
    if xs != [] {
      SumOrdered(xs[1..], f, g);
    }
  }
}
