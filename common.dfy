/** Option and Result wrappers, and the kinds of failure the pipeline can raise. */
module Common {

  datatype Option<+T> = None | Some(value: T) {
    function GetOr(default: T): T {
      match this
      case Some(v) => v
      case None => default
    }
  }

  /** What a thrown JavaScript error or a rejected promise carries, by kind. */
  datatype Fault =
    | TypeError                      // a property read or call on a value without it
    | SyntaxError                    // JSON.parse refused its text
    | NetworkFailure                 // fetch rejected (DNS, reset, abort)
    | ConfigMissing                  // the vision endpoint or key is not configured
    | ImageRequired                  // neither an image URL nor a file was given
    | EmptyReply                     // the model reply was falsy
    | UpstreamStatus(status: int, body: string)  // a non-2xx HTTP answer from a provider
    | StorageFailure                 // the object store or the database threw
    | S3EnvMissing                   // AWS_S3_BUCKET or AWS_REGION is unset

  datatype Result<+T> = Ok(value: T) | Err(error: Fault) {
    predicate IsFailure() { Err? }
    function PropagateFailure<U>(): Result<U> requires Err? { Err(error) }
    function Extract(): T requires Ok? { value }
  }

  /**
   * `xs.map(f)` where `f` may throw: the mapped list, or the error of the first element
   * that throws.
   */
  function MapResult<A, B>(f: A -> Result<B>, xs: seq<A>): (r: Result<seq<B>>)
    ensures r.Err? <==> exists i :: 0 <= i < |xs| && f(xs[i]).Err?
    ensures r.Err? ==> exists i :: 0 <= i < |xs| && f(xs[i]) == Err(r.error) && forall j :: 0 <= j < i ==> f(xs[j]).Ok?
    ensures r.Ok? ==> |r.value| == |xs| && forall i :: 0 <= i < |xs| ==> f(xs[i]) == Ok(r.value[i])
  {
    if xs == [] then Ok([])
    else
      match f(xs[0])
      case Err(e) => Err(e)
      case Ok(head) =>
        var tail := MapResult(f, xs[1..]);
        assert forall i :: 0 <= i < |xs| - 1 ==> xs[1..][i] == xs[i + 1];
        match tail
        case Err(e) => Err(e)
        case Ok(rest) =>
          var all := [head] + rest;
          assert forall i :: 1 <= i < |all| ==> all[i] == rest[i - 1];
          Ok(all)
  }

  /** `xs.slice(0, n)`: the first n elements, or all of them when there are fewer. */
  function Take<T>(xs: seq<T>, n: nat): (r: seq<T>)
    ensures |r| <= n && |r| <= |xs| && r == xs[..|r|]
    ensures |xs| <= n ==> r == xs
    ensures |xs| >= n ==> |r| == n
  {
    if |xs| <= n then xs else xs[..n]
  }
}
