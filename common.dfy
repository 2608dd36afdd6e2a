/**
 * Shared vocabulary of the ad-serving backend: identifiers, the
 * error outcomes of the HTTP endpoints, and a few facts about
 * maxima and minima of real sequences used by the ranking code.
 */
module Common {

  // Primary keys are UUIDs in the service; only their identity matters here.
  type ClientId = nat
  type AdvertiserId = nat
  type CampaignId = nat

  datatype Option<T> = None | Some(value: T)

  /** The error responses the endpoints produce (404, 403 and 400). */
  datatype Error = NotFound | Forbidden | ValidationError

  datatype Result<T> = Ok(value: T) | Err(error: Error)

  /** Python's `max(values)` on a non-empty list. */
  function Max(values: seq<real>): (m: real)
    requires |values| > 0
    ensures m in values
    ensures forall i :: 0 <= i < |values| ==> values[i] <= m
  {
    if |values| == 1 then values[0]
    else
      var rest := Max(values[..|values| - 1]);
      var last := values[|values| - 1];
      assert forall i :: 0 <= i < |values| - 1 ==> values[i] == values[..|values| - 1][i];
      if last > rest then last else rest
  }

  /** Python's `min(values)` on a non-empty list. */
  function Min(values: seq<real>): (m: real)
    requires |values| > 0
    ensures m in values
    ensures forall i :: 0 <= i < |values| ==> m <= values[i]
  {
    if |values| == 1 then values[0]
    else
      var rest := Min(values[..|values| - 1]);
      var last := values[|values| - 1];
      assert forall i :: 0 <= i < |values| - 1 ==> values[i] == values[..|values| - 1][i];
      if last < rest then last else rest
  }

  /** The minimum and the maximum coincide exactly when all values are equal. */
  lemma MinEqualsMaxIffConstant(values: seq<real>)
    requires |values| > 0
    ensures Min(values) == Max(values) <==>
            forall i, j :: 0 <= i < |values| && 0 <= j < |values| ==> values[i] == values[j]
  {
    if forall i, j :: 0 <= i < |values| && 0 <= j < |values| ==> values[i] == values[j] {
      var lo :| lo in values && lo == Min(values);
      var hi :| hi in values && hi == Max(values);
    }
  }

  /** 0 <= a <= b and b > 0 give a quotient in [0, 1]. */
  lemma QuotientInUnit(a: real, b: real)
    requires 0.0 <= a <= b && b > 0.0
    ensures 0.0 <= a / b <= 1.0
  {
    assert a / b * b == a;
  }

  /** A product of two non-negative reals is non-negative. */
  lemma ProductNonNegative(a: real, b: real)
    requires a >= 0.0 && b >= 0.0
    ensures a * b >= 0.0
  {
  }
}
