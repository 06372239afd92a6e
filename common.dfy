/** Option and Result values, and the "check every line, stop at the first bad one"
    traversal that both order-building loops of the backend follow. */
module Common {

  datatype Option<+T> = None | Some(value: T) {
    /** Python's `d.get(key, default)` once the lookup has been done. */
    function GetOr(default: T): T {
      if Some? then value else default
    }
  }

  /** An operation that either returns a value or raises an exception. */
  datatype Result<+T, +E> = Ok(value: T) | Err(error: E)

  /** `m.get(k, default)` on a Python dict. */
  function Get<K, V>(m: map<K, V>, k: K, default: V): (v: V)
    ensures k in m ==> v == m[k]
    ensures k !in m ==> v == default
  {
    if k in m then m[k] else default
  }

  /** Applies `f` to every element, left to right; the first element `f` rejects
      aborts the whole traversal with that element's error. */
  function MapAll<A, B, E(==)>(xs: seq<A>, f: A -> Result<B, E>): (r: Result<seq<B>, E>)
    ensures r.Ok? <==> forall k :: 0 <= k < |xs| ==> f(xs[k]).Ok?
    ensures r.Ok? ==> |r.value| == |xs| && forall k :: 0 <= k < |xs| ==> r.value[k] == f(xs[k]).value
    ensures r.Err? ==> exists k :: 0 <= k < |xs| && (forall j :: 0 <= j < k ==> f(xs[j]).Ok?) && f(xs[k]) == Err(r.error)
  {
    if xs == [] then Ok([])
    else
      match f(xs[0])
      case Err(e) => Err(e)
      case Ok(y) =>
        match MapAll(xs[1..], f)
        case Err(e) =>
          assert exists k :: 0 <= k < |xs| - 1 && (forall j :: 0 <= j < k ==> f(xs[1..][j]).Ok?) && f(xs[1..][k]) == Err(e);
          var k :| 0 <= k < |xs| - 1 && (forall j :: 0 <= j < k ==> f(xs[1..][j]).Ok?) && f(xs[1..][k]) == Err(e);
          assert forall j :: 0 <= j < k + 1 ==> f(xs[j]).Ok? by {
            forall j | 0 <= j < k + 1 ensures f(xs[j]).Ok? {
              if j > 0 { assert xs[j] == xs[1..][j - 1]; }
            }
          }
          assert f(xs[k + 1]) == Err(e);
          Err(e)
        case Ok(ys) =>
          assert forall k :: 0 <= k < |xs| ==> f(xs[k]).Ok? by {
            forall k | 0 <= k < |xs| ensures f(xs[k]).Ok? {
              if k > 0 { assert xs[k] == xs[1..][k - 1]; }
            }
          }
          Ok([y] + ys)
  }
}
