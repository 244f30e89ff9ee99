/** Option, error and outcome types shared by every module of the model. */
module Common {
  datatype Option<T> = None | Some(value: T)

  /** An error value as Go code returns it; only its identity matters to the model. */
  datatype Error = Error(code: nat)

  /** The `error` result of a Go call: nil, or an error. */
  datatype Outcome = Ok | Fail(err: Error)

  /** A value-or-error result, the `(T, error)` pair of a Go call. */
  datatype Result<T> = Success(value: T) | Failure(err: Error)

  /** The position of the first failure among outcomes taken in order, or their count when all are Ok. */
  function FirstFailureAt(outs: seq<Outcome>): (k: nat)
    ensures k <= |outs|
    ensures forall j :: 0 <= j < k ==> outs[j].Ok?
    ensures k < |outs| ==> outs[k].Fail?
  {
    if outs == [] then 0
    else if outs[0].Fail? then 0
    else 1 + FirstFailureAt(outs[1..])
  }

  /** What a loop that stops at the first error returns: that error, or Ok. */
  function FirstFailure(outs: seq<Outcome>): (r: Outcome)
    ensures r.Ok? <==> forall j :: 0 <= j < |outs| ==> outs[j].Ok?
    ensures r.Fail? ==> exists k :: 0 <= k < |outs| && outs[k] == r && forall j :: 0 <= j < k ==> outs[j].Ok?
  {
    var k := FirstFailureAt(outs);
    if k < |outs| then outs[k] else Ok
  }

  /** How many outcomes such a loop computes: those before the first failure, and that failure. */
  function Attempted(outs: seq<Outcome>): (n: nat)
    ensures n <= |outs|
    ensures n < |outs| ==> 0 < n && outs[n - 1].Fail?
  {
    var k := FirstFailureAt(outs);
    if k < |outs| then k + 1 else k
  }
}
