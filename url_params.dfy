/**
 * `URLSearchParams` as an ordered list of key/value pairs (percent-encoding is
 * not modelled): `get` reads the first value of a key, `append` adds a pair at
 * the end, `set` overwrites the first pair of a key and drops the others, or
 * appends when the key is absent.
 */
module UrlParams {
  import opened Wrappers

  type Pairs = seq<(string, string)>

  /** `params.get(key)`: the value of the first pair with that key. */
  function Lookup(pairs: Pairs, key: string): (r: Option<string>)
    ensures r.None? <==> forall k :: 0 <= k < |pairs| ==> pairs[k].0 != key
    ensures r.Some? ==> (key, r.value) in pairs
    ensures (r.Some? ==> exists k :: (0 <= k < |pairs| && pairs[k] == (key, r.value) &&
               forall j :: 0 <= j < k ==> pairs[j].0 != key))
  {
    if |pairs| == 0 then None
    else if pairs[0].0 == key then Some(pairs[0].1)
    else
      assert forall k :: 1 <= k < |pairs| ==> pairs[k] == pairs[1..][k - 1];
      var r := Lookup(pairs[1..], key);
      assert (r.Some? ==> exists k :: (0 <= k < |pairs| && pairs[k] == (key, r.value) &&
                forall j :: 0 <= j < k ==> pairs[j].0 != key)) by {
        if r.Some? {
          var k :| 0 <= k < |pairs[1..]| && pairs[1..][k] == (key, r.value) &&
                   forall j :: 0 <= j < k ==> pairs[1..][j].0 != key;
          assert pairs[k + 1] == (key, r.value);
        }
      }
      r
  }

  /** The pairs whose key differs from `key`, in order. */
  function Without(pairs: Pairs, key: string): (r: Pairs)
    ensures forall k :: 0 <= k < |r| ==> r[k].0 != key
    ensures forall p :: p in r ==> p in pairs
  {
    if |pairs| == 0 then []
    else (if pairs[0].0 == key then [] else [pairs[0]]) + Without(pairs[1..], key)
  }

  /** The list `params.set(key, value)` leaves behind. */
  function SetPair(pairs: Pairs, key: string, value: string): Pairs {
    if |pairs| == 0 then [(key, value)]
    else if pairs[0].0 == key then [(key, value)] + Without(pairs[1..], key)
    else [pairs[0]] + SetPair(pairs[1..], key, value)
  }

  lemma {:induction false} LookupAppend(a: Pairs, b: Pairs, key: string)
    ensures Lookup(a + b, key) == if Lookup(a, key).Some? then Lookup(a, key) else Lookup(b, key)
  {
    if |a| == 0 {
      assert a + b == b;
    } else {
      assert (a + b)[1..] == a[1..] + b;
      LookupAppend(a[1..], b, key);
    }
  }

  lemma {:induction false} LookupWithout(pairs: Pairs, key: string, other: string)
    requires other != key
    ensures Lookup(Without(pairs, key), other) == Lookup(pairs, other)
  {
    if |pairs| > 0 {
      var head := if pairs[0].0 == key then [] else [pairs[0]];
      LookupAppend(head, Without(pairs[1..], key), other);
      LookupWithout(pairs[1..], key, other);
    }
  }

  /**
   * After `set(key, value)`, `get(key)` is `value`, every other key reads as
   * before, and `key` occurs exactly once.
   */
  lemma {:induction false} SetPairLookup(pairs: Pairs, key: string, value: string)
    ensures Lookup(SetPair(pairs, key, value), key) == Some(value)
    ensures forall other :: other != key ==> Lookup(SetPair(pairs, key, value), other) == Lookup(pairs, other)
    ensures (forall i, j :: (0 <= i < |SetPair(pairs, key, value)| && 0 <= j < |SetPair(pairs, key, value)| &&
               SetPair(pairs, key, value)[i].0 == key && SetPair(pairs, key, value)[j].0 == key) ==> i == j)
  {
    SetPairKeyOnce(pairs, key, value);
    if |pairs| == 0 {
    } else if pairs[0].0 == key {
      forall other | other != key
        ensures Lookup(SetPair(pairs, key, value), other) == Lookup(pairs, other)
      {
        LookupAppend([(key, value)], Without(pairs[1..], key), other);
        LookupWithout(pairs[1..], key, other);
      }
    } else {
      SetPairLookup(pairs[1..], key, value);
      forall other | other != key
        ensures Lookup(SetPair(pairs, key, value), other) == Lookup(pairs, other)
      {
        LookupAppend([pairs[0]], SetPair(pairs[1..], key, value), other);
      }
      LookupAppend([pairs[0]], SetPair(pairs[1..], key, value), key);
    }
  }

  /** After `set(key, value)`, no two pairs carry `key`. */
  lemma {:induction false} SetPairKeyOnce(pairs: Pairs, key: string, value: string)
    ensures (forall i, j :: (0 <= i < |SetPair(pairs, key, value)| && 0 <= j < |SetPair(pairs, key, value)| &&
               SetPair(pairs, key, value)[i].0 == key && SetPair(pairs, key, value)[j].0 == key) ==> i == j)
  {
    var t := SetPair(pairs, key, value);
    if |pairs| == 0 {
    } else if pairs[0].0 == key {
      var w := Without(pairs[1..], key);
      assert t == [(key, value)] + w;
      assert forall i :: 1 <= i < |t| ==> t[i] == w[i - 1];
    } else {
      var u := SetPair(pairs[1..], key, value);
      SetPairKeyOnce(pairs[1..], key, value);
      assert t == [pairs[0]] + u;
      assert forall i :: 1 <= i < |t| ==> t[i] == u[i - 1];
    }
  }

  /** On a list without `key`, `set` and `append` agree. */
  lemma {:induction false} SetAbsentAppends(pairs: Pairs, key: string, value: string)
    requires Lookup(pairs, key).None?
    ensures SetPair(pairs, key, value) == pairs + [(key, value)]
  {
    if |pairs| > 0 {
      assert pairs[0].0 != key;
      assert forall k :: 1 <= k < |pairs| ==> pairs[k] == pairs[1..][k - 1];
      SetAbsentAppends(pairs[1..], key, value);
      assert pairs == [pairs[0]] + pairs[1..];
    }
  }

  /** A `URLSearchParams` object under construction. */
  class SearchParams {
    var pairs: Pairs

    /** `new URLSearchParams()`. */
    constructor()
      ensures pairs == []
    {
      pairs := [];
    }

    method Append(key: string, value: string)
      modifies this
      ensures pairs == old(pairs) + [(key, value)]
    {
      pairs := pairs + [(key, value)];
    }

    method Set(key: string, value: string)
      modifies this
      ensures pairs == SetPair(old(pairs), key, value)
      ensures Lookup(pairs, key) == Some(value)
      ensures forall other :: other != key ==> Lookup(pairs, other) == Lookup(old(pairs), other)
    {
      SetPairLookup(pairs, key, value);
      pairs := SetPair(pairs, key, value);
    }

    function Get(key: string): Option<string>
      reads this
    {
      Lookup(pairs, key)
    }
  }
}
