/**
 * `GET /estimate/quantity` of the small estimator backend: half a litre per
 * guest per hour, with 10 guests and 4 hours standing in for a missing,
 * non-numeric or zero query parameter.
 */
module QuantityEndpoint {
  import opened Wrappers

  /** The JSON body `{ guestCount, duration, estimatedLiters }`. */
  datatype Reply = Reply(guestCount: real, duration: real, estimatedLiters: real)

  const DefaultGuests: real := 10.0
  const DefaultHours: real := 4.0

  /**
   * `Number(param) || d`. A parameter is `None` when `Number` gives `NaN`
   * (absent or not numeric); `NaN` and `0` are both falsy, so both take the
   * default, and every other number, negative ones included, is kept.
   */
  function OrDefault(param: Option<real>, d: real): (v: real)
    ensures param.None? ==> v == d
    ensures param == Some(0.0) ==> v == d
    ensures param.Some? && param.value != 0.0 ==> v == param.value
  {
    match param
    case None => d
    case Some(x) => if x == 0.0 then d else x
  }

  /** The handler: the echoed effective inputs and `guestCount * duration * 0.5`. */
  function Estimate(guestCount: Option<real>, duration: Option<real>): (r: Reply)
    ensures r.guestCount == OrDefault(guestCount, DefaultGuests) && r.duration == OrDefault(duration, DefaultHours)
    ensures r.guestCount != 0.0 && r.duration != 0.0
    ensures r.estimatedLiters * 2.0 == r.guestCount * r.duration
    ensures guestCount.Some? && guestCount.value != 0.0 ==> r.guestCount == guestCount.value
    ensures duration.Some? && duration.value != 0.0 ==> r.duration == duration.value
  {
    var g := OrDefault(guestCount, DefaultGuests);
    var h := OrDefault(duration, DefaultHours);
    Reply(g, h, g * h * 0.5)
  }

  /** Sending the echoed inputs back gives the same reply: the defaults are a fixed point. */
  lemma EchoIsStable(guestCount: Option<real>, duration: Option<real>)
    ensures var r := Estimate(guestCount, duration);
            Estimate(Some(r.guestCount), Some(r.duration)) == r
  {
  }

  /** A single unusable parameter takes its own default only: 10 guests, or 4 hours. */
  lemma MixedDefaults()
    ensures Estimate(None, Some(3.0)) == Reply(10.0, 3.0, 15.0)
    ensures Estimate(Some(25.0), None) == Reply(25.0, 4.0, 50.0)
  {
  }

  /** With no usable parameters the reply is 10 guests, 4 hours and 20 litres. */
  lemma DefaultEstimate()
    ensures Estimate(None, None) == Reply(10.0, 4.0, 20.0)
    ensures Estimate(Some(0.0), Some(0.0)) == Reply(10.0, 4.0, 20.0)
  {
  }

  /** More guests for a positive duration never lowers the estimate. */
  lemma {:induction false} EstimateMonotone(g1: real, g2: real, h: real)
    requires 0.0 < g1 <= g2 && 0.0 < h
    ensures Estimate(Some(g1), Some(h)).estimatedLiters <= Estimate(Some(g2), Some(h)).estimatedLiters
  {
    assert g1 * h <= g2 * h;
  }

  /**
   * Negative inputs are not clamped: one negative count against a positive
   * duration gives a negative estimate.
   */
  lemma NegativeNotClamped(g: real, h: real)
    requires g < 0.0 && 0.0 < h
    ensures Estimate(Some(g), Some(h)).guestCount == g
    ensures Estimate(Some(g), Some(h)).estimatedLiters < 0.0
  {
  }
}
