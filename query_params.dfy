/**
 * A URL query as an ordered list of name-value pairs, with the `set`
 * operation of the WHATWG URL Standard's URLSearchParams, and the way the
 * backend's query parser turns a name into a request property.
 */
module QueryParams {
  import opened Wrappers
  import opened JobModel

  type Params = seq<(string, string)>

  /** The number of pairs named `k`. */
  function Count(ps: Params, k: string): nat {
    if ps == [] then 0 else (if ps[0].0 == k then 1 else 0) + Count(ps[1..], k)
  }

  /** The value of the first pair named `k`, as URLSearchParams.get returns it. */
  function Get(ps: Params, k: string): (r: Option<string>)
    ensures r.Some? <==> Count(ps, k) > 0
    ensures r.Some? ==> (k, r.value) in ps
  {
    if ps == [] then None
    else if ps[0].0 == k then Some(ps[0].1)
    else Get(ps[1..], k)
  }

  /** `ps` without any pair named `k`, the other pairs in their order. */
  function RemoveAll(ps: Params, k: string): (r: Params)
    ensures Count(r, k) == 0
    ensures forall k' :: k' != k ==> Count(r, k') == Count(ps, k') && Get(r, k') == Get(ps, k')
  {
    if ps == [] then []
    else if ps[0].0 == k then RemoveAll(ps[1..], k)
    else [ps[0]] + RemoveAll(ps[1..], k)
  }

  /** The first pair named `k` takes the value `v` and the later ones are dropped. */
  function ReplaceFirst(ps: Params, k: string, v: string): (r: Params)
    requires Count(ps, k) > 0
    ensures Count(r, k) == 1 && Get(r, k) == Some(v)
    ensures forall k' :: k' != k ==> Count(r, k') == Count(ps, k') && Get(r, k') == Get(ps, k')
    ensures RemoveAll(r, k) == RemoveAll(ps, k)
  {
    if ps[0].0 == k then
      var rest := RemoveAll(ps[1..], k);
      RemoveAllIdle(rest, k);
      assert ([(k, v)] + rest)[1..] == rest;
      [(k, v)] + rest
    else
      [ps[0]] + ReplaceFirst(ps[1..], k, v)
  }

  /** Removing a name that no pair carries changes nothing. */
  lemma {:induction false} RemoveAllIdle(ps: Params, k: string)
    requires Count(ps, k) == 0
    ensures RemoveAll(ps, k) == ps
  {
    if ps != [] {
      RemoveAllIdle(ps[1..], k);
    }
  }

  /** Appending one pair adds one to its name's count and leaves the first value of every name already present. */
  lemma {:induction false} AppendPair(ps: Params, k: string, v: string)
    ensures forall k' :: Count(ps + [(k, v)], k') == Count(ps, k') + (if k' == k then 1 else 0)
    ensures forall k' :: Get(ps + [(k, v)], k') == if Count(ps, k') > 0 then Get(ps, k') else if k' == k then Some(v) else None
    ensures Count(ps, k) == 0 ==> RemoveAll(ps + [(k, v)], k) == RemoveAll(ps, k)
  {
    if ps != [] {
      AppendPair(ps[1..], k, v);
      assert ps + [(k, v)] == [ps[0]] + (ps[1..] + [(k, v)]);
    }
  }

  /**
   * URLSearchParams.set: if some pair is named `k`, the first such pair takes
   * the value `v` and the others are removed; otherwise (k, v) is appended.
   */
  function Set(ps: Params, k: string, v: string): (r: Params)
    ensures Count(r, k) == 1 && Get(r, k) == Some(v)
    ensures forall k' :: k' != k ==> Count(r, k') == Count(ps, k') && Get(r, k') == Get(ps, k')
    ensures RemoveAll(r, k) == RemoveAll(ps, k)
  {
    if Count(ps, k) > 0 then ReplaceFirst(ps, k, v)
    else
      AppendPair(ps, k, v);
      ps + [(k, v)]
  }

  /**
   * How the backend's query parser presents the name `k` to the validator:
   * missing when no pair carries it, the string when one does, and an array
   * (not a string) when the name is repeated.
   */
  function ParamValue(ps: Params, k: string): Wire {
    if Count(ps, k) == 0 then Absent
    else if Count(ps, k) == 1 then Text(Get(ps, k).value)
    else NonText
  }
}
