/** The invoice figures and the date-filtered trip report. */
module Reports {
  import opened Base
  import opened Domain
  import opened TripMoney
  import opened Seqs
  import opened TripViews

  datatype Invoice = Invoice(basePrice: Money, additionalCost: Money, grandTotal: Money, balanceDue: Money)

  /** The invoice treats the distance as driven only when it is set and positive. */
  predicate HasExtraDistance(t: Trip)
  {
    t.additionalDistance.Some? && t.additionalDistance.value > 0.0
  }

  /** The invoice of a trip. It splits the stored price back into the base
      price and the extra-distance cost that finalizing added, then adds them
      up again, so the grand total is always the stored price. */
  function Bill(t: Trip): (inv: Invoice)
    ensures inv.grandTotal == t.totalPrice
    ensures inv.basePrice + inv.additionalCost == inv.grandTotal
    ensures inv.balanceDue == t.totalPrice - AmountPaid(t)
    ensures HasExtraDistance(t) ==> inv.additionalCost == t.additionalDistance.value * EffectiveKmRate(t)
    ensures !HasExtraDistance(t) ==> inv.additionalCost == 0.0 && inv.basePrice == t.totalPrice
  {
    var additionalCost := if HasExtraDistance(t) then t.additionalDistance.value * EffectiveKmRate(t) else 0.0;
    var basePrice := t.totalPrice - additionalCost;
    var grandTotal := basePrice + additionalCost;
    Invoice(basePrice, additionalCost, grandTotal, grandTotal - t.advancePaid - OrZero(t.finalPaymentAmount))
  }

  /** `generate_bill_view`, step by step. */
  method GenerateBill(t: Trip) returns (inv: Invoice)
    ensures inv == Bill(t)
  {
    var basePrice := t.totalPrice;
    var additionalCost := 0.0;
    if t.additionalDistance.Some? && t.additionalDistance.value != 0.0 && t.additionalDistance.value > 0.0 {
      var extraKmRate;
      if t.package.Some? && t.package.value.extraChargePerKm.Some? {
        extraKmRate := t.package.value.extraChargePerKm.value;
      } else {
        extraKmRate := t.vehicle.pricePerKm;
      }
      additionalCost := t.additionalDistance.value * extraKmRate;
      basePrice := basePrice - additionalCost;
    }
    var grandTotal := basePrice + additionalCost;
    var balanceDue := grandTotal - t.advancePaid - OrZero(t.finalPaymentAmount);
    inv := Invoice(basePrice, additionalCost, grandTotal, balanceDue);
  }

  /** On a finalized trip with a non-negative distance, the invoice recovers
      the price from before finalizing and the cost that finalizing added. */
  lemma InvoiceUndoesFinalize(t: Trip, data: FinalizeData, now: DateTime)
    requires data.additionalDistance.None? || data.additionalDistance.value >= 0.0
    ensures Bill(Finalized(t, data, now)).basePrice == t.totalPrice
    ensures Bill(Finalized(t, data, now)).additionalCost == OrZero(data.additionalDistance) * EffectiveKmRate(t)
  {
    FinalizeKeepsRate(t, data, now);
  }

  /** With a negative distance (nothing bounds it from below) finalizing
      lowers the price, and the invoice shows the lowered price as the base
      price with no distance cost at all. */
  lemma InvoiceHidesNegativeDistance(t: Trip, data: FinalizeData, now: DateTime)
    requires data.additionalDistance.Some? && data.additionalDistance.value < 0.0
    requires EffectiveKmRate(t) > 0.0
    ensures Bill(Finalized(t, data, now)).additionalCost == 0.0
    ensures Bill(Finalized(t, data, now)).basePrice < t.totalPrice
  {
    var d := data.additionalDistance.value;
    var rate := EffectiveKmRate(t);
    assert d * rate < 0.0 by {
      assert (-d) * rate > 0.0;
    }
  }

  /** The trip's `final_balance` adds the extra-distance cost on top of the
      stored price, although finalizing already put it there; the invoice's
      balance does not. The two differ by exactly that cost. */
  lemma FinalBalanceExceedsInvoice(t: Trip)
    ensures FinalBalance(t) - Bill(t).balanceDue == OrZero(t.additionalDistance) * EffectiveKmRate(t)
  {
  }

  /** After finalizing, `final_balance` charges the extra distance twice. */
  lemma FinalBalanceChargesDistanceTwice(t: Trip, data: FinalizeData, now: DateTime)
    ensures FinalBalance(Finalized(t, data, now))
            == t.totalPrice + 2.0 * OrZero(data.additionalDistance) * EffectiveKmRate(t)
               - AmountPaid(Finalized(t, data, now))
  {
    FinalizeKeepsRate(t, data, now);
  }

  /** What the customer still owes: the stored price, which finalizing has
      brought up to date, less the amounts paid. It is the invoice's balance. */
  function OutstandingBalance(t: Trip): (b: Money)
    ensures b == Bill(t).balanceDue
    ensures b == FinalBalance(t) - OrZero(t.additionalDistance) * EffectiveKmRate(t)
  {
    t.totalPrice - AmountPaid(t)
  }

  /** After finalizing, the outstanding balance charges the extra distance
      once, and agrees with `final_balance` only when that charge is zero. */
  lemma OutstandingChargesDistanceOnce(t: Trip, data: FinalizeData, now: DateTime)
    ensures OutstandingBalance(Finalized(t, data, now))
            == t.totalPrice + OrZero(data.additionalDistance) * EffectiveKmRate(t)
               - AmountPaid(Finalized(t, data, now))
    ensures OutstandingBalance(Finalized(t, data, now)) == FinalBalance(Finalized(t, data, now))
            <==> OrZero(data.additionalDistance) * EffectiveKmRate(t) == 0.0
  {
    FinalizeKeepsRate(t, data, now);
  }

  /** The report's totals. The database's `Sum` over no rows is null, and the
      agent-revenue sum skips rows without a vendor price. */
  datatype Summary = Summary(
    totalTrips: nat,
    totalRevenue: Option<Money>,
    totalAgentRevenue: Option<Money>,
    totalAdvance: Option<Money>)

  /** Whether the trip's date lies within the given bounds, both inclusive;
      a missing bound does not restrict. */
  predicate InDateRange(t: Trip, start: Option<Date>, end: Option<Date>)
  {
    (start.None? || DateOf(t.tripDate) >= start.value) && (end.None? || DateOf(t.tripDate) <= end.value)
  }

  function BoundOf(p: Param<Date>): Option<Date>
  {
    if p.Given? then Some(p.value) else None
  }

  const BadDateMessage: string := "time data does not match format '%Y-%m-%d'"

  /** The trips `trip_report_view` selects; a bound that is not a date fails
      the request. */
  function ReportTrips(trips: seq<Trip>, startParam: Param<Date>, endParam: Param<Date>): (r: Result<seq<Trip>>)
    ensures r.Err? <==> startParam.Malformed? || endParam.Malformed?
    ensures r.Ok? ==> forall i :: 0 <= i < |r.value| ==>
              r.value[i] in trips && InDateRange(r.value[i], BoundOf(startParam), BoundOf(endParam))
    ensures r.Ok? ==> forall i :: 0 <= i < |trips| && InDateRange(trips[i], BoundOf(startParam), BoundOf(endParam)) ==>
              trips[i] in r.value
  {
    if startParam.Malformed? || endParam.Malformed? then Err(BadDateMessage)
    else
      var afterStart := if startParam.Given? then Filter(trips, (t: Trip) => DateOf(t.tripDate) >= startParam.value) else trips;
      var beforeEnd := if endParam.Given? then Filter(afterStart, (t: Trip) => DateOf(t.tripDate) <= endParam.value) else afterStart;
      Ok(beforeEnd)
  }

  /** Without bounds the report covers every trip, in table order. */
  lemma ReportWithoutBounds(trips: seq<Trip>)
    ensures ReportTrips(trips, Missing, Missing) == Ok(trips)
  {
  }

  /** The end bound includes the whole of its day, up to its last second. */
  lemma EndDateIsInclusive(t: Trip, end: Date)
    requires t.tripDate == end * SecondsPerDay + SecondsPerDay - 1
    ensures InDateRange(t, None, Some(end))
    ensures !InDateRange(t, None, Some(end - 1))
  {
  }

  function Price(t: Trip): Money { t.totalPrice }
  function Advance(t: Trip): Money { t.advancePaid }
  function Margin(t: Trip): Money requires t.vendorPrice.Some? { t.totalPrice - t.vendorPrice.value }

  /** A row whose vendor price is not null; the others drop out of the
      agent-revenue sum. */
  predicate HasVendorPrice(t: Trip)
  {
    t.vendorPrice.Some?
  }

  /** A row's term in the agent-revenue sum. */
  function PricedMargin(t: Trip): Money
  {
    if t.vendorPrice.Some? then Margin(t) else 0.0
  }

  /** The rows that take part in the agent-revenue sum. */
  function PricedRows(trips: seq<Trip>): (r: seq<Trip>)
    ensures forall i :: 0 <= i < |r| ==> r[i].vendorPrice.Some?
  {
    Filter(trips, HasVendorPrice)
  }

  /** The aggregate of `trip_report_view` over the selected trips. */
  function Summarize(trips: seq<Trip>): (s: Summary)
    ensures s.totalTrips == |trips|
    ensures trips == [] ==> s.totalRevenue.None? && s.totalAgentRevenue.None? && s.totalAdvance.None?
    ensures trips != [] ==> s.totalRevenue == Some(Sum(trips, Price)) && s.totalAdvance == Some(Sum(trips, Advance))
    ensures s.totalAgentRevenue.Some? <==> exists i :: 0 <= i < |trips| && trips[i].vendorPrice.Some?
  {
    var priced := PricedRows(trips);
    assert (exists i :: 0 <= i < |trips| && trips[i].vendorPrice.Some?) ==> priced != [] by {
      if exists i :: 0 <= i < |trips| && trips[i].vendorPrice.Some? {
        var i :| 0 <= i < |trips| && trips[i].vendorPrice.Some?;
        assert trips[i] in priced;
      }
    }
    Summary(
      |trips|,
      if trips == [] then None else Some(Sum(trips, Price)),
      if priced == [] then None else Some(Sum(priced, PricedMargin)),
      if trips == [] then None else Some(Sum(trips, Advance)))
  }

  /** When every trip has a non-zero price and a non-zero vendor price, the
      report's agent-revenue total is the sum of the trips' `agent_revenue`. */
  lemma AgentRevenueTotalAgrees(trips: seq<Trip>)
    requires trips != []
    requires forall i :: 0 <= i < |trips| ==>
               trips[i].totalPrice != 0.0 && trips[i].vendorPrice.Some? && trips[i].vendorPrice.value != 0.0
    ensures Summarize(trips).totalAgentRevenue == Some(Sum(trips, AgentRevenue))
  {
    FilterAll(trips, HasVendorPrice);
    SumCongruent(trips, PricedMargin, AgentRevenue);
  }

  /** One more trip adds its margin to the agent-revenue total exactly when
      it has a vendor price, a zero one included; a trip without one leaves
      the total as it was. */
  lemma AgentRevenueTotalAppend(trips: seq<Trip>, t: Trip)
    ensures t.vendorPrice.Some? ==>
              Summarize(trips + [t]).totalAgentRevenue == Some(OrZero(Summarize(trips).totalAgentRevenue) + Margin(t))
    ensures t.vendorPrice.None? ==>
              Summarize(trips + [t]).totalAgentRevenue == Summarize(trips).totalAgentRevenue
  {
    FilterAppend(trips, t, HasVendorPrice);
    var priced := PricedRows(trips);
    if t.vendorPrice.Some? {
      assert PricedRows(trips + [t]) == priced + [t];
      SumAppend(priced, t, PricedMargin);
      if priced == [] {
        assert Sum(priced, PricedMargin) == 0.0;
      }
    } else {
      assert PricedRows(trips + [t]) == priced;
    }
  }
}
