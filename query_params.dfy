/** The part of `URLSearchParams` the search forms use: `set`, `get` and
    `toString`, over a list of key/value pairs in insertion order. */
module QueryParams {
  import opened Common

  type Params = seq<(string, string)>

  /** `params.get(key)`: the value of the first pair with that key. */
  function Lookup(ps: Params, key: string): Option<string>
  {
    if ps == [] then None
    else if ps[0].0 == key then Some(ps[0].1)
    else Lookup(ps[1..], key)
  }

  /** The keys, in order. */
  function Keys(ps: Params): (r: seq<string>)
    ensures |r| == |ps| && forall i :: 0 <= i < |ps| ==> r[i] == ps[i].0
  {
    seq(|ps|, i requires 0 <= i < |ps| => ps[i].0)
  }

  /** Every pair with `key` removed. */
  function DropKey(ps: Params, key: string): (r: Params)
    ensures forall i :: 0 <= i < |r| ==> r[i].0 != key
  {
    if ps == [] then []
    else (if ps[0].0 == key then [] else [ps[0]]) + DropKey(ps[1..], key)
  }

  /** `params.set(key, value)`: the first pair with `key` takes the new
      value and later ones are removed; without such a pair, the pair is
      appended. */
  function SetParam(ps: Params, key: string, value: string): (r: Params)
  {
    if ps == [] then [(key, value)]
    else if ps[0].0 == key then [(key, value)] + DropKey(ps[1..], key)
    else [ps[0]] + SetParam(ps[1..], key, value)
  }

  lemma {:induction false} LookupDropKey(ps: Params, key: string, other: string)
    requires other != key
    ensures Lookup(DropKey(ps, key), other) == Lookup(ps, other)
  {
    if ps != [] {
      LookupDropKey(ps[1..], key, other);
      var rest := DropKey(ps[1..], key);
      if ps[0].0 != key {
        assert ([ps[0]] + rest)[1..] == rest;
      } else {
        assert DropKey(ps, key) == rest;
      }
    }
  }

  /** After `set`, `get` returns the new value for that key and what it
      returned before for every other key. */
  lemma {:induction false} LookupSetParam(ps: Params, key: string, value: string, other: string)
    ensures Lookup(SetParam(ps, key, value), key) == Some(value)
    ensures other != key ==> Lookup(SetParam(ps, key, value), other) == Lookup(ps, other)
  {
    if ps != [] {
      if ps[0].0 == key {
        if other != key {
          LookupDropKey(ps[1..], key, other);
        }
      } else {
        LookupSetParam(ps[1..], key, value, other);
      }
    }
  }

  /** Setting a key that is not there yet appends the pair. */
  lemma {:induction false} SetParamFresh(ps: Params, key: string, value: string)
    requires Lookup(ps, key).None?
    ensures SetParam(ps, key, value) == ps + [(key, value)]
  {
    if ps != [] {
      SetParamFresh(ps[1..], key, value);
    }
  }

  /** `get` on two lists of pairs one after the other: the first list is
      searched first. */
  lemma {:induction false} LookupAppend(a: Params, b: Params, key: string)
    ensures Lookup(a + b, key) == if Lookup(a, key).Some? then Lookup(a, key) else Lookup(b, key)
  {
    if a != [] {
      assert (a + b)[1..] == a[1..] + b;
      LookupAppend(a[1..], b, key);
    } else {
      assert a + b == b;
    }
  }

  /** `params.toString()`, without percent-encoding: `key=value` pairs
      joined by `&`. */
  function QueryString(ps: Params): string
  {
    Join(seq(|ps|, i requires 0 <= i < |ps| => ps[i].0 + "=" + ps[i].1), "&")
  }
}
