/**
 * The simulated calendar (time_emulation): one global day counter that
 * reads as 0 until it is first set and that the advance endpoint only
 * moves forward.
 */
module TimeEmulation {
  import opened Common

  /** The cache cell holding the current day. */
  class Clock {
    var date: int

    /** An unset cell reads as day 0. */
    constructor()
      ensures date == 0
    {
      date := 0;
    }

    /** `get_date`. */
    function GetDate(): int
      reads this
    {
      date
    }

    /**
     * `set_data`: a negative day fails schema validation, a day before
     * the current one is refused; otherwise the clock is set and the
     * payload returned.
     */
    method SetData(requested: int) returns (r: Result<int>)
      modifies this
      ensures r == Advance(old(date), requested)
      ensures date == (if r.Ok? then requested else old(date))
    {
      if requested < 0 {
        return Err(ValidationError);
      }
      if requested < date {
        return Err(ValidationError);
      }
      date := requested;
      r := Ok(requested);
    }
  }

  /** The outcome of one advance request against the current day. */
  function Advance(current: int, requested: int): (r: Result<int>)
    ensures r.Ok? <==> requested >= 0 && requested >= current
    ensures r.Ok? ==> r.value == requested
    ensures r.Err? ==> r.error == ValidationError
  {
    if requested < 0 || requested < current then Err(ValidationError) else Ok(requested)
  }

  /** The day after one request: the requested day on success, the old one otherwise. */
  function Next(current: int, requested: int): int {
    match Advance(current, requested)
    case Ok(d) => d
    case Err(_) => current
  }

  /** The day after a series of requests, applied in order. */
  function AfterAll(current: int, requests: seq<int>): int
    decreases |requests|
  {
    if |requests| == 0 then current
    else AfterAll(Next(current, requests[0]), requests[1..])
  }

  /** The clock never goes back, over any series of requests. */
  lemma {:induction false} AfterAllMonotone(current: int, requests: seq<int>)
    ensures AfterAll(current, requests) >= current
    ensures forall k :: 0 <= k <= |requests| ==> AfterAll(current, requests[..k]) <= AfterAll(current, requests)
    decreases |requests|
  {
    if |requests| > 0 {
      var next := Next(current, requests[0]);
      AfterAllMonotone(next, requests[1..]);
      forall k | 0 <= k <= |requests|
        ensures AfterAll(current, requests[..k]) <= AfterAll(current, requests)
      {
        if k > 0 {
          assert requests[..k][1..] == requests[1..][..k - 1];
        }
      }
    }
  }
}
