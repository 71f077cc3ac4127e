/**
 * `URLSearchParams` as the front end uses it: an ordered list of name/value
 * pairs read with `get`, written with `set` and rendered with `toString`.
 * Percent-encoding is left to an encoder passed in by the caller.
 */
module QueryParams {
  import opened Wrappers

  datatype Param = Param(key: string, value: string)

  /** Some pair of `ps` is named `k`. */
  predicate HasKey(ps: seq<Param>, k: string) {
    exists p :: p in ps && p.key == k
  }

  /** `params.get(k)`: the value of the first pair named `k`, `null` when there is none. */
  function Get(ps: seq<Param>, k: string): (r: Option<string>)
    ensures r.None? <==> !HasKey(ps, k)
    ensures r.Some? ==> Param(k, r.value) in ps
  {
    if ps == [] then None
    else if ps[0].key == k then Some(ps[0].value)
    else
      var r := Get(ps[1..], k);
      assert forall p :: p in ps ==> p == ps[0] || p in ps[1..];
      r
  }

  /** `ps` without any pair named `k`. */
  function RemoveKey(ps: seq<Param>, k: string): (r: seq<Param>)
    ensures !HasKey(r, k)
    ensures forall k' :: k' != k ==> Get(r, k') == Get(ps, k')
  {
    if ps == [] then []
    else if ps[0].key == k then RemoveKey(ps[1..], k)
    else [ps[0]] + RemoveKey(ps[1..], k)
  }

  /**
   * `params.set(k, v)`: the first pair named `k` takes the value `v` and the
   * other pairs of that name are removed; without such a pair, `(k, v)` is appended.
   */
  function SetParam(ps: seq<Param>, k: string, v: string): seq<Param> {
    if ps == [] then [Param(k, v)]
    else if ps[0].key == k then [Param(k, v)] + RemoveKey(ps[1..], k)
    else [ps[0]] + SetParam(ps[1..], k, v)
  }

  /** After `set`, `get` of that name gives the new value and every other name is unchanged. */
  lemma {:induction false} SetThenGet(ps: seq<Param>, k: string, v: string, k': string)
    ensures Get(SetParam(ps, k, v), k') == if k' == k then Some(v) else Get(ps, k')
  {
    if ps != [] && ps[0].key != k {
      SetThenGet(ps[1..], k, v, k');
    }
  }

  /** `set` of a new name appends the pair at the end. */
  lemma {:induction false} SetNewKeyAppends(ps: seq<Param>, k: string, v: string)
    requires !HasKey(ps, k)
    ensures SetParam(ps, k, v) == ps + [Param(k, v)]
  {
    if ps != [] {
      assert ps[0] in ps;
      assert !HasKey(ps[1..], k) by {
        forall p | p in ps[1..] ensures p.key != k { assert p in ps; }
      }
      SetNewKeyAppends(ps[1..], k, v);
    }
  }

  /** No name occurs twice. */
  predicate DistinctKeys(ps: seq<Param>) {
    forall i, j :: 0 <= i < j < |ps| ==> ps[i].key != ps[j].key
  }

  /** `params.toString()`: `name=value` pairs joined by `&`, each part encoded with `encode`. */
  function Serialize(ps: seq<Param>, encode: string -> string): (r: string)
    ensures r == "" <==> ps == []
  {
    if ps == [] then ""
    else
      var pair := encode(ps[0].key) + "=" + encode(ps[0].value);
      assert pair[|encode(ps[0].key)|] == '=';
      if |ps| == 1 then pair else pair + "&" + Serialize(ps[1..], encode)
  }

  /** A `URLSearchParams` object that the code fills in place with `set`. */
  class SearchParams {
    var entries: seq<Param>

    constructor ()
      ensures entries == []
    {
      entries := [];
    }

    method Set(k: string, v: string)
      modifies this
      ensures entries == SetParam(old(entries), k, v)
    {
      entries := SetParam(entries, k, v);
    }
  }

  /** `set` keeps the names distinct. */
  lemma {:induction false} SetKeepsDistinct(ps: seq<Param>, k: string, v: string)
    requires DistinctKeys(ps)
    ensures DistinctKeys(SetParam(ps, k, v))
  {
    if ps != [] {
      if ps[0].key == k {
        RemoveKeyKeeps(ps[1..], k);
        RemoveKeyDistinct(ps[1..], k);
      } else {
        SetKeepsDistinct(ps[1..], k, v);
        SetParamKeys(ps[1..], k, v);
        forall p | p in SetParam(ps[1..], k, v) ensures p.key != ps[0].key {
          if p.key != k {
            var i :| 0 <= i < |ps[1..]| && ps[1..][i] == p;
            assert ps[i + 1] == p;
          }
        }
      }
    }
  }

  /** Removing a name keeps the others distinct. */
  lemma {:induction false} RemoveKeyDistinct(ps: seq<Param>, k: string)
    requires DistinctKeys(ps)
    ensures DistinctKeys(RemoveKey(ps, k))
  {
    if ps != [] {
      RemoveKeyDistinct(ps[1..], k);
      RemoveKeyKeeps(ps[1..], k);
      if ps[0].key != k {
        forall p | p in RemoveKey(ps[1..], k) ensures p.key != ps[0].key {
          var i :| 0 <= i < |ps[1..]| && ps[1..][i] == p;
          assert ps[i + 1] == p;
        }
      }
    }
  }

  /** `set` introduces no name other than its own. */
  lemma {:induction false} SetParamKeys(ps: seq<Param>, k: string, v: string)
    ensures forall p :: p in SetParam(ps, k, v) ==> p.key == k || p in ps
  {
    if ps != [] && ps[0].key != k {
      SetParamKeys(ps[1..], k, v);
    } else if ps != [] {
      RemoveKeyKeeps(ps[1..], k);
    }
  }

  /** `RemoveKey` keeps only pairs of `ps`. */
  lemma {:induction false} RemoveKeyKeeps(ps: seq<Param>, k: string)
    ensures forall p :: p in RemoveKey(ps, k) ==> p in ps
  {
    if ps != [] {
      RemoveKeyKeeps(ps[1..], k);
    }
  }
}
