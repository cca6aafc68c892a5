/** Plain JavaScript objects as ordered key/value association lists: the order is
    the insertion order that `Object.keys` and `Object.values` report, and a spread
    or property assignment of an existing key replaces its value in place. */
module JsObjects {
  import opened Wrappers

  type Object<V> = seq<(string, V)>

  function Keys<V>(o: Object<V>): (ks: seq<string>)
    ensures |ks| == |o|
  {
    if o == [] then [] else [o[0].0] + Keys(o[1..])
  }

  function Values<V>(o: Object<V>): (vs: seq<V>)
    ensures |vs| == |o|
  {
    if o == [] then [] else [o[0].1] + Values(o[1..])
  }

  lemma {:induction false} KeysAt<V>(o: Object<V>)
    ensures forall i :: 0 <= i < |o| ==> Keys(o)[i] == o[i].0
    decreases |o|
  {
    if o != [] { KeysAt(o[1..]); }
  }

  lemma {:induction false} ValuesAt<V>(o: Object<V>)
    ensures forall i :: 0 <= i < |o| ==> Values(o)[i] == o[i].1
    decreases |o|
  {
    if o != [] { ValuesAt(o[1..]); }
  }

  /** An object is determined by its keys and its values. */
  lemma KeysValuesDetermine<V>(o1: Object<V>, o2: Object<V>)
    requires Keys(o1) == Keys(o2) && Values(o1) == Values(o2)
    ensures o1 == o2
  {
    KeysAt(o1);
    KeysAt(o2);
    ValuesAt(o1);
    ValuesAt(o2);
    assert forall i :: 0 <= i < |o1| ==> o1[i] == (o1[i].0, o1[i].1);
  }

  predicate UniqueKeys<V>(o: Object<V>)
  {
    forall i, j :: 0 <= i < j < |o| ==> o[i].0 != o[j].0
  }

  /** The value of property `k`, or `None` for `undefined`. */
  function Get<V>(o: Object<V>, k: string): (r: Option<V>)
    ensures r.None? <==> k !in Keys(o)
  {
    if o == [] then None else if o[0].0 == k then Some(o[0].1) else Get(o[1..], k)
  }

  /** The first entry with a key is the one a read finds. */
  lemma {:induction false} GetAt<V>(o: Object<V>, i: nat)
    requires i < |o|
    requires forall j :: 0 <= j < i ==> o[j].0 != o[i].0
    ensures Get(o, o[i].0) == Some(o[i].1)
    decreases i
  {
    if i > 0 {
      assert o[1..][i - 1] == o[i];
      GetAt(o[1..], i - 1);
    }
  }

  /** A property that is present reads as one of `Object.values(o)`. */
  lemma {:induction false} GetInValues<V>(o: Object<V>, k: string)
    requires k in Keys(o)
    ensures Get(o, k).value in Values(o)
    decreases |o|
  {
    if o[0].0 != k { GetInValues(o[1..], k); }
  }

  /** `o[k] = v` on a copy: an existing key keeps its position, a new key goes last. */
  function Put<V>(o: Object<V>, k: string, v: V): (r: Object<V>)
  {
    if o == [] then [(k, v)]
    else if o[0].0 == k then [(k, v)] + o[1..]
    else [o[0]] + Put(o[1..], k, v)
  }

  /** After `o[k] = v`, reading `k` gives `v` and every other property reads as before. */
  lemma {:induction false} PutGet<V>(o: Object<V>, k: string, v: V, k': string)
    ensures Get(Put(o, k, v), k) == Some(v)
    ensures k' != k ==> Get(Put(o, k, v), k') == Get(o, k')
    decreases |o|
  {
    if o != [] && o[0].0 != k {
      PutGet(o[1..], k, v, k');
      assert Put(o, k, v)[1..] == Put(o[1..], k, v);
    }
  }

  /** Assigning an existing key keeps the key order; a new key is appended, with its value. */
  lemma {:induction false} PutKeys<V>(o: Object<V>, k: string, v: V)
    ensures k in Keys(o) ==> Keys(Put(o, k, v)) == Keys(o)
    ensures k !in Keys(o) ==> Keys(Put(o, k, v)) == Keys(o) + [k] && Values(Put(o, k, v)) == Values(o) + [v]
    decreases |o|
  {
    if o != [] && o[0].0 != k {
      PutKeys(o[1..], k, v);
      assert Put(o, k, v) == [o[0]] + Put(o[1..], k, v);
      assert Keys(o) == [o[0].0] + Keys(o[1..]);
    }
  }

  lemma PutUnique<V>(o: Object<V>, k: string, v: V)
    requires UniqueKeys(o)
    ensures UniqueKeys(Put(o, k, v))
  {
    PutKeys(o, k, v);
    var r := Put(o, k, v);
    KeysAt(o);
    KeysAt(r);
    forall i, j | 0 <= i < j < |r| ensures r[i].0 != r[j].0 {
      if j < |o| {
        assert Keys(r)[i] == Keys(o)[i] && Keys(r)[j] == Keys(o)[j];
      } else {
        assert k !in Keys(o) && Keys(r)[j] == k && Keys(r)[i] == Keys(o)[i];
      }
    }
  }

  /** `{...o, ...extra}`: the properties of `extra` assigned one by one, in order. */
  function Spread<V>(o: Object<V>, extra: Object<V>): Object<V>
    decreases |extra|
  {
    if extra == [] then o else Spread(Put(o, extra[0].0, extra[0].1), extra[1..])
  }

  lemma TailUnique<V>(extra: Object<V>)
    requires extra != [] && UniqueKeys(extra)
    ensures UniqueKeys(extra[1..])
    ensures forall i :: 1 <= i < |extra| ==> extra[i].0 != extra[0].0
  {
  }

  /** After the first fresh property is assigned, the remaining ones are still fresh. */
  lemma FreshTail<V>(o: Object<V>, extra: Object<V>)
    requires extra != [] && UniqueKeys(extra)
    requires forall i :: 0 <= i < |extra| ==> extra[i].0 !in Keys(o)
    ensures Keys(Put(o, extra[0].0, extra[0].1)) == Keys(o) + [extra[0].0]
    ensures Values(Put(o, extra[0].0, extra[0].1)) == Values(o) + [extra[0].1]
    ensures forall i :: 0 <= i < |extra[1..]| ==> extra[1..][i].0 !in Keys(Put(o, extra[0].0, extra[0].1))
  {
    assert extra[0].0 !in Keys(o);
    PutKeys(o, extra[0].0, extra[0].1);
    TailUnique(extra);
  }

  /** Spreading properties that are new to `o` and distinct among themselves appends
      them, keys and values, in their own order. */
  lemma {:induction false} SpreadFresh<V>(o: Object<V>, extra: Object<V>)
    requires UniqueKeys(extra)
    requires forall i :: 0 <= i < |extra| ==> extra[i].0 !in Keys(o)
    ensures Keys(Spread(o, extra)) == Keys(o) + Keys(extra)
    ensures Values(Spread(o, extra)) == Values(o) + Values(extra)
    decreases |extra|
  {
    if extra != [] {
      var k0, v0, rest := extra[0].0, extra[0].1, extra[1..];
      var o' := Put(o, k0, v0);
      assert Spread(o, extra) == Spread(o', rest);
      assert Keys(Spread(o', rest)) == (Keys(o) + [k0]) + Keys(rest)
          && Values(Spread(o', rest)) == (Values(o) + [v0]) + Values(rest) by {
        FreshTail(o, extra);
        TailUnique(extra);
        SpreadFresh(o', rest);
      }
      assert Keys(o) + Keys(extra) == (Keys(o) + [k0]) + Keys(rest) by {
        assert Keys(extra) == [k0] + Keys(rest);
      }
      assert Values(o) + Values(extra) == (Values(o) + [v0]) + Values(rest) by {
        assert Values(extra) == [v0] + Values(rest);
      }
    }
  }

  /** The first key of an object survives any spread into it. */
  lemma {:induction false} SpreadKeepsFirstKey<V>(o: Object<V>, extra: Object<V>)
    requires o != []
    ensures Spread(o, extra) != [] && Spread(o, extra)[0].0 == o[0].0
    decreases |extra|
  {
    if extra != [] {
      var o' := Put(o, extra[0].0, extra[0].1);
      PutKeys(o, extra[0].0, extra[0].1);
      assert Keys(o')[0] == Keys(o)[0];
      SpreadKeepsFirstKey(o', extra[1..]);
    }
  }

  /** `{...o}` of an object with distinct keys is a copy of it. */
  lemma SpreadCopies<V>(o: Object<V>)
    requires UniqueKeys(o)
    ensures Spread([], o) == o
  {
    var empty: Object<V> := [];
    KeysAt(o);
    assert Keys(empty) == [] && Values(empty) == [];
    SpreadFresh(empty, o);
    KeysValuesDetermine(Spread([], o), o);
  }
}
