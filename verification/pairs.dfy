/**
  Association lists: the (key, value) pairs of a Python dict in insertion
  order, as a dict literal or `parse_qs` builds them.
 */
module Pairs {
  import opened Wrappers

  /** The keys, in order. */
  function Keys<V>(ps: seq<(string, V)>): (ks: seq<string>)
    ensures |ks| == |ps|
    ensures forall i :: 0 <= i < |ps| ==> ks[i] == ps[i].0
  {
    if |ps| == 0 then [] else [ps[0].0] + Keys(ps[1..])
  }

  /** `d.get(key)`: the value paired with the first occurrence of `key`. */
  function Lookup<V>(ps: seq<(string, V)>, key: string): (v: Option<V>)
    ensures v.Some? <==> key in Keys(ps)
  {
    if |ps| == 0 then None
    else if ps[0].0 == key then Some(ps[0].1)
    else Lookup(ps[1..], key)
  }

  /** The lookup finds the first pair with the key. */
  lemma {:induction false} LookupAt<V>(ps: seq<(string, V)>, i: nat, key: string)
    requires i < |ps| && ps[i].0 == key
    requires forall j :: 0 <= j < i ==> ps[j].0 != key
    ensures Lookup(ps, key) == Some(ps[i].1)
  {
    if i > 0 {
      LookupAt(ps[1..], i - 1, key);
    }
  }

  /** Keys and lookups of a list with one more pair at the front. */
  lemma LookupCons<V>(head: (string, V), tail: seq<(string, V)>)
    ensures Keys([head] + tail) == [head.0] + Keys(tail)
    ensures forall k :: Lookup([head] + tail, k) == if head.0 == k then Some(head.1) else Lookup(tail, k)
  {
    assert ([head] + tail)[1..] == tail;
  }
}
