/**
 A JavaScript plain object used as a dictionary from string keys to values.
 Besides the key/value map it keeps the order in which `Object.keys` and
 `for ... in` enumerate the keys: insertion order (the keys here are socket
 ids, which are not array-index-like strings). Assigning to an existing key
 keeps its position; `delete` takes the key out of the order.
 */
module Objects {

  /** A property name; in this program always a socket.io connection id. */
  type Id = string

  /** No element occurs twice; stated from the last element backwards,
      the way assignments to new keys extend the order. */
  ghost predicate NoDup(s: seq<Id>)
    decreases |s|
  {
    s == [] || (s[|s| - 1] !in s[..|s| - 1] && NoDup(s[..|s| - 1]))
  }

  /** The sequence `s` with every occurrence of `x` taken out, order kept. */
  function Without(s: seq<Id>, x: Id): (r: seq<Id>)
    ensures forall y :: y in r <==> y in s && y != x
    ensures x !in s ==> r == s
    ensures NoDup(s) ==> NoDup(r)
    ensures NoDup(s) && x in s ==> |r| == |s| - 1
    decreases |s|
  {
    if s == [] then []
    else
      var init, last := s[..|s| - 1], s[|s| - 1];
      assert s == init + [last];
      var rest := Without(init, x);
      if last == x then rest
      else
        assert (rest + [last])[..|rest|] == rest;
        rest + [last]
  }

  /** Taking `x` out works element by element, so it keeps the relative
      order of the remaining elements: out of `a + b` it leaves what it
      leaves of `a`, followed by what it leaves of `b`. */
  lemma {:induction false} WithoutAppend(a: seq<Id>, b: seq<Id>, x: Id)
    ensures Without(a + b, x) == Without(a, x) + Without(b, x)
    decreases |b|
  {
    if b == [] {
      assert a + b == a;
    } else {
      var init, last := b[..|b| - 1], b[|b| - 1];
      assert b == init + [last];
      assert a + b == (a + init) + [last];
      assert (a + b)[..|a + b| - 1] == a + init;
      WithoutAppend(a, init, x);
    }
  }

  /** A single element survives exactly when it is not `x`. */
  lemma WithoutOne(y: Id, x: Id)
    ensures Without([y], x) == if y == x then [] else [y]
  {
    assert [y][..0] == [];
  }

  datatype Obj<V> = Obj(keys: seq<Id>, vals: map<Id, V>) {

    /** The enumeration order lists every property exactly once: true of
        every object JavaScript can produce. */
    ghost predicate Valid() {
      NoDup(keys) && forall k :: k in vals <==> k in keys
    }

    /** `o[k] = v` */
    function Put(k: Id, v: V): (r: Obj<V>)
      ensures Valid() ==> r.Valid()
      ensures forall j :: j in r.vals <==> j in vals || j == k
      ensures k in r.vals && r.vals[k] == v
      ensures forall j :: j in vals && j != k ==> r.vals[j] == vals[j]
      ensures k in vals ==> r.keys == keys
      ensures k !in vals ==> r.keys == keys + [k]
    {
      if k in vals then Obj(keys, vals[k := v])
      else
        assert (keys + [k])[..|keys|] == keys;
        Obj(keys + [k], vals[k := v])
    }

    /** `delete o[k]`: a no-op when `k` is not a property. */
    function Delete(k: Id): (r: Obj<V>)
      ensures Valid() ==> r.Valid()
      ensures forall j :: j in r.vals <==> j in vals && j != k
      ensures forall j :: j in r.vals ==> r.vals[j] == vals[j]
      ensures Valid() && k !in vals ==> r == this
      ensures Valid() && k in vals ==> |r.keys| == |keys| - 1
    {
      Obj(Without(keys, k), vals - {k})
    }
  }

  /** `{}` */
  function Empty<V>(): (r: Obj<V>)
    ensures r.Valid() && r.vals == map[] && r.keys == []
  {
    Obj([], map[])
  }
}
