/** The collections of the host language that the models share: an optional value and a map that
    remembers insertion order. Overwriting a key keeps its place; deleting a key and setting it
    again moves it to the end. */
module OrderedMaps {

  datatype Option<+T> = None | Some(value: T)

  ghost predicate Distinct<T>(s: seq<T>) {
    forall i, j :: 0 <= i < j < |s| ==> s[i] != s[j]
  }

  /** Position of the first occurrence of `x`, or -1. */
  function IndexOf<T(==)>(s: seq<T>, x: T): (i: int)
    ensures -1 <= i < |s|
    ensures i == -1 <==> x !in s
    ensures i >= 0 ==> s[i] == x && x !in s[..i]
  {
    if s == [] then -1
    else if s[0] == x then 0
    else
      var i := IndexOf(s[1..], x);
      assert x in s <==> x in s[1..];
      assert i >= 0 ==> s[..i + 1] == [s[0]] + s[1..][..i];
      if i == -1 then -1 else i + 1
  }

  lemma IndexIs<T>(s: seq<T>, x: T, i: nat)
    requires i < |s| && s[i] == x && x !in s[..i]
    ensures IndexOf(s, x) == i
  {
    var j := IndexOf(s, x);
    assert j >= i by { assert forall k :: 0 <= k < i ==> s[k] == s[..i][k]; }
    assert j <= i by { assert forall k :: 0 <= k < j ==> s[k] == s[..j][k]; }
  }

  lemma IndexUnique<T>(s: seq<T>, i: nat)
    requires Distinct(s) && i < |s|
    ensures IndexOf(s, s[i]) == i
  {
    IndexIs(s, s[i], i);
  }

  lemma AppendIndex<T>(s: seq<T>, x: T, y: T)
    requires x !in s
    ensures IndexOf(s + [x], y) == if y in s then IndexOf(s, y) else if y == x then |s| else -1
  {
    if y in s {
      var j := IndexOf(s, y);
      assert (s + [x])[..j] == s[..j];
      IndexIs(s + [x], y, j);
    } else if y == x {
      assert (s + [x])[..|s|] == s;
      IndexIs(s + [x], y, |s|);
    }
  }

  function WithoutIndex<T>(s: seq<T>, i: nat): seq<T>
    requires i < |s|
  {
    s[..i] + s[i + 1..]
  }

  lemma WithoutIndexFacts<T>(s: seq<T>, i: nat)
    requires Distinct(s) && i < |s|
    ensures Distinct(WithoutIndex(s, i))
    ensures forall x :: x in WithoutIndex(s, i) <==> x in s && x != s[i]
  {
    var rest := WithoutIndex(s, i);
    assert forall j :: 0 <= j < |rest| ==> rest[j] == s[if j < i then j else j + 1];
    forall x | x in s && x != s[i] ensures x in rest {
      var j :| 0 <= j < |s| && s[j] == x;
      assert rest[if j < i then j else j - 1] == x;
    }
  }

  datatype OMap<!K(==, !new), V> = OMap(keys: seq<K>, vals: map<K, V>) {

    ghost predicate Valid() {
      && Distinct(keys)
      && (forall k :: k in keys <==> k in vals)
    }

    predicate Has(k: K) {
      k in vals
    }

    function Get(k: K): Option<V> {
      if k in vals then Some(vals[k]) else None
    }

    function Set(k: K, v: V): (m: OMap<K, V>)
      requires Valid()
      ensures m.Valid()
    {
      if k in vals then OMap(keys, vals[k := v]) else OMap(keys + [k], vals[k := v])
    }

    function Delete(k: K): (m: OMap<K, V>)
      requires Valid()
      ensures m.Valid()
    {
      if k in vals then
        var i := IndexOf(keys, k);
        WithoutIndexFacts(keys, i);
        OMap(WithoutIndex(keys, i), vals - {k})
      else this
    }
  }

  /** A map together with the order in which its keys were inserted. */
  type Ordered<!K(==, !new), V> = m: OMap<K, V> | m.Valid() witness OMap([], map[])
}
