/** The amounts a trip derives from its stored fields (the `Trip` properties). */
module TripMoney {
  import opened Base
  import opened Domain

  /** The package's per-km rate when the trip has a package that defines one,
      otherwise the vehicle's own rate. */
  function EffectiveKmRate(t: Trip): (rate: Money)
    ensures (t.package.Some? && t.package.value.extraChargePerKm.Some?) ==>
              rate == t.package.value.extraChargePerKm.value
    ensures (t.package.None? || t.package.value.extraChargePerKm.None?) ==>
              rate == t.vehicle.pricePerKm
  {
    if t.package.Some? && t.package.value.extraChargePerKm.Some? then t.package.value.extraChargePerKm.value
    else t.vehicle.pricePerKm
  }

  /** The cost of the distance driven beyond the booking, at the effective rate. */
  function ExtraDistanceCost(t: Trip): Money
  {
    OrZero(t.additionalDistance) * EffectiveKmRate(t)
  }

  /** What the customer has paid so far. */
  function AmountPaid(t: Trip): Money
  {
    t.advancePaid + OrZero(t.finalPaymentAmount)
  }

  /** `final_balance`: the price plus the extra-distance cost, less the amounts paid. */
  function FinalBalance(t: Trip): (b: Money)
    ensures b + AmountPaid(t) == t.totalPrice + OrZero(t.additionalDistance) * EffectiveKmRate(t)
  {
    var grandTotal := t.totalPrice + ExtraDistanceCost(t);
    grandTotal - AmountPaid(t)
  }

  /** `agent_revenue`: the commission, when both the price and the vendor's
      price are set and non-zero; 0.00 otherwise. */
  function AgentRevenue(t: Trip): (r: Money)
    ensures t.totalPrice != 0.0 && t.vendorPrice.Some? && t.vendorPrice.value != 0.0 ==>
              r + t.vendorPrice.value == t.totalPrice
    ensures t.totalPrice == 0.0 || t.vendorPrice.None? || t.vendorPrice.value == 0.0 ==> r == 0.0
  {
    if t.totalPrice != 0.0 && t.vendorPrice.Some? && t.vendorPrice.value != 0.0 then
      t.totalPrice - t.vendorPrice.value
    else
      0.0
  }

  /** `remaining_amount`: what is left after the advance. */
  function RemainingAmount(t: Trip): (r: Money)
    ensures r + t.advancePaid == t.totalPrice
  {
    t.totalPrice - t.advancePaid
  }

  /** Without extra distance the final balance is the price less what was paid,
      that is the remaining amount less the final payment. */
  lemma FinalBalanceWithoutDistance(t: Trip)
    requires t.additionalDistance.None? || t.additionalDistance.value == 0.0
    ensures FinalBalance(t) == t.totalPrice - AmountPaid(t)
    ensures FinalBalance(t) == RemainingAmount(t) - OrZero(t.finalPaymentAmount)
  {
  }

  /** The balance grows with the recorded distance by exactly the rate per km:
      two trips that differ only in their extra distance differ in balance by
      the difference in distance times the rate. */
  lemma FinalBalanceLinearInDistance(t: Trip, d1: Money, d2: Money)
    ensures FinalBalance(t.(additionalDistance := Some(d2))) - FinalBalance(t.(additionalDistance := Some(d1)))
            == (d2 - d1) * EffectiveKmRate(t)
  {
  }
}
