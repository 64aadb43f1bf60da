/** The trip views that change or select trips: finalize, cancel, rate, the
    status-filtered list and the calendar feed. The trip and rating tables
    are the state of a `TripStore`. */
module TripViews {
  import opened Base
  import opened Domain
  import opened TripMoney
  import opened Seqs
  import opened Grouping

  datatype Method = Get | Post

  /** A submitted model form after the framework's own field checks. */
  datatype Form<T> = Invalid | Valid(data: T)

  /** What a view answers: a 404, the form page again, or a redirect to the
      trip list carrying a success or an error message. */
  datatype Response = NotFound | Page | Redirect(success: bool)

  /** The cleaned fields of the finalize form. */
  datatype FinalizeData = FinalizeData(
    additionalDistance: Option<Money>,
    finalPaymentAmount: Option<Money>,
    finalPaymentDate: Option<Date>)

  /** The cleaned fields of the rating form. */
  datatype RatingData = RatingData(stars: int, comment: Option<string>)

  /** The trip as `trip_finalize_view` saves it: the form's three fields are
      written, the extra distance is charged at the effective rate on top of
      the stored price, the status becomes Completed whatever it was, and the
      save stamps the modification time. */
  function Finalized(t: Trip, data: FinalizeData, now: DateTime): (r: Trip)
    ensures r.totalPrice == t.totalPrice + OrZero(data.additionalDistance) * EffectiveKmRate(t)
    ensures r.status == Completed
    ensures r.additionalDistance == data.additionalDistance
    ensures r.finalPaymentAmount == data.finalPaymentAmount && r.finalPaymentDate == data.finalPaymentDate
    ensures r.updatedAt == now
    ensures r.(totalPrice := t.totalPrice, status := t.status, additionalDistance := t.additionalDistance,
               finalPaymentAmount := t.finalPaymentAmount, finalPaymentDate := t.finalPaymentDate,
               updatedAt := t.updatedAt) == t
  {
    var rate := EffectiveKmRate(t);
    var edited := t.(additionalDistance := data.additionalDistance,
                     finalPaymentAmount := data.finalPaymentAmount,
                     finalPaymentDate := data.finalPaymentDate);
    var additionalCost := OrZero(edited.additionalDistance) * rate;
    edited.(totalPrice := edited.totalPrice + additionalCost, status := Completed, updatedAt := now)
  }

  /** The trip as `trip_cancel_view` saves it on POST. */
  function CancelledTrip(t: Trip, now: DateTime): (r: Trip)
    ensures r.status == Cancelled && r.updatedAt == now
    ensures r.(status := t.status, updatedAt := t.updatedAt) == t
  {
    t.(status := Cancelled, updatedAt := now)
  }

  /** Finalizing leaves the package and the vehicle alone, so the rate it used
      is still the trip's effective rate afterwards. */
  lemma FinalizeKeepsRate(t: Trip, data: FinalizeData, now: DateTime)
    ensures EffectiveKmRate(Finalized(t, data, now)) == EffectiveKmRate(t)
  {
  }

  /** There is no guard against finalizing twice: a second finalize with the
      same form charges the extra distance again. */
  lemma FinalizeTwiceChargesTwice(t: Trip, data: FinalizeData, now1: DateTime, now2: DateTime)
    ensures Finalized(Finalized(t, data, now1), data, now2).totalPrice
            == t.totalPrice + 2.0 * OrZero(data.additionalDistance) * EffectiveKmRate(t)
    ensures OrZero(data.additionalDistance) * EffectiveKmRate(t) != 0.0 ==>
            Finalized(Finalized(t, data, now1), data, now2) != Finalized(t, data, now2)
  {
    FinalizeKeepsRate(t, data, now1);
  }

  /** There is no guard on the status either: a cancelled trip can be
      finalized, and a finalized one cancelled. */
  lemma NoStatusGuards(t: Trip, data: FinalizeData, now: DateTime)
    ensures t.status == Cancelled ==> Finalized(t, data, now).status == Completed
    ensures CancelledTrip(Finalized(t, data, now), now).status == Cancelled
    ensures Finalized(CancelledTrip(t, now), data, now).status == Completed
  {
  }

  /** Whether a rating already points at the trip (`hasattr(trip, 'rating')`). */
  predicate HasRating(ratings: seq<Rating>, tripId: nat)
  {
    exists i :: 0 <= i < |ratings| && ratings[i].tripId == tripId
  }

  /** The guard of `add_rating_view`: only a completed trip that has no
      rating yet may be rated. */
  predicate MayRate(t: Trip, ratings: seq<Rating>)
  {
    t.status == Completed && !HasRating(ratings, t.id)
  }

  /** A trip saved with the model's field defaults is Upcoming, so it cannot
      be rated yet. A trip form may store another status. */
  lemma NewTripMayNotBeRated(id: nat, customer: Customer, vehicle: Vehicle, tripDate: DateTime, now: DateTime,
                             ratings: seq<Rating>)
    ensures !MayRate(NewTrip(id, customer, vehicle, tripDate, now), ratings)
  {
  }

  /** `trip_list_view`: every trip when the status filter is empty, otherwise
      exactly the trips whose stored status text equals it, in table order. */
  function TripList(trips: seq<Trip>, statusFilter: string): (r: seq<Trip>)
    ensures statusFilter == "" ==> r == trips
    ensures statusFilter != "" ==> forall i :: 0 <= i < |r| ==> r[i] in trips && StatusValue(r[i].status) == statusFilter
    ensures statusFilter != "" ==> forall i :: 0 <= i < |trips| && StatusValue(trips[i].status) == statusFilter ==> trips[i] in r
  {
    if statusFilter == "" then trips else Filter(trips, (t: Trip) => StatusValue(t.status) == statusFilter)
  }

  /** A filter naming a status that does not exist selects nothing. */
  lemma UnknownStatusSelectsNothing(trips: seq<Trip>, statusFilter: string)
    requires statusFilter != "" && StatusFromValue(statusFilter).None?
    ensures TripList(trips, statusFilter) == []
  {
    var r := TripList(trips, statusFilter);
    if r != [] {
      StatusValueRoundTrip(r[0].status);
      assert false;
    }
  }

  /** One entry of the calendar feed. */
  datatype FeedEvent = FeedEvent(title: string, start: Date, allDay: bool)

  function TripDates(trips: seq<Trip>): (ds: seq<Date>)
    ensures |ds| == |trips|
    ensures forall i :: 0 <= i < |trips| ==> ds[i] == DateOf(trips[i].tripDate)
  {
    if trips == [] then [] else [DateOf(trips[0].tripDate)] + TripDates(trips[1..])
  }

  /** `trip_feed_view`: one all-day event per date that has trips, in date
      order, titled with that date's number of trips. */
  method TripFeed(trips: seq<Trip>) returns (events: seq<FeedEvent>)
    ensures |events| == |CountByDay(TripDates(trips))|
    ensures forall i :: 0 <= i < |events| ==>
              events[i].start == CountByDay(TripDates(trips))[i].day && events[i].allDay &&
              events[i].title == "Total Trips: " + NatToString(CountByDay(TripDates(trips))[i].count)
    ensures forall i, j :: 0 <= i < j < |events| ==> events[i].start < events[j].start
    ensures forall k :: 0 <= k < |trips| ==> exists i :: 0 <= i < |events| && events[i].start == DateOf(trips[k].tripDate)
  {
    var dailyCounts := CountByDay(TripDates(trips));
    events := [];
    for i := 0 to |dailyCounts|
      invariant |events| == i
      invariant forall j :: 0 <= j < i ==>
                  events[j] == FeedEvent("Total Trips: " + NatToString(dailyCounts[j].count), dailyCounts[j].day, true)
    {
      events := events + [FeedEvent("Total Trips: " + NatToString(dailyCounts[i].count), dailyCounts[i].day, true)];
    }
    forall k | 0 <= k < |trips|
      ensures exists i :: 0 <= i < |events| && events[i].start == DateOf(trips[k].tripDate)
    {
      var d := TripDates(trips)[k];
      assert d in Keys(dailyCounts);
      var i :| 0 <= i < |dailyCounts| && dailyCounts[i].day == d;
      assert events[i].start == d;
    }
  }

  /** The trip and rating tables. */
  class TripStore {
    var trips: map<nat, Trip>
    var ratings: seq<Rating>

    /** Trips are stored under their own id; a rating belongs to a stored
        trip, has 1 to 5 stars, and no trip has two ratings. */
    ghost predicate Valid()
      reads this
    {
      && (forall pk :: pk in trips ==> trips[pk].id == pk)
      && (forall i :: 0 <= i < |ratings| ==> ratings[i].tripId in trips && StarsInRange(ratings[i].stars))
      && (forall i, j :: 0 <= i < j < |ratings| ==> ratings[i].tripId != ratings[j].tripId)
    }

    constructor (initial: map<nat, Trip>)
      requires forall pk :: pk in initial ==> initial[pk].id == pk
      ensures Valid()
      ensures trips == initial && ratings == []
    {
      trips := initial;
      ratings := [];
    }

    /** `trip_finalize_view`. */
    method Finalize(pk: nat, m: Method, form: Form<FinalizeData>, now: DateTime) returns (resp: Response)
      requires Valid()
      modifies this
      ensures Valid() && ratings == old(ratings)
      ensures pk !in old(trips) ==> resp == NotFound && trips == old(trips)
      ensures pk in old(trips) && m == Post && form.Valid? ==>
                resp == Redirect(true) && trips == old(trips)[pk := Finalized(old(trips)[pk], form.data, now)]
      ensures pk in old(trips) && !(m == Post && form.Valid?) ==> resp == Page && trips == old(trips)
    {
      if pk !in trips {
        return NotFound;
      }
      var trip := trips[pk];
      var extraKmRate := if trip.package.Some? && trip.package.value.extraChargePerKm.Some?
                         then trip.package.value.extraChargePerKm.value
                         else trip.vehicle.pricePerKm;
      if m == Post && form.Valid? {
        var finalized := trip.(additionalDistance := form.data.additionalDistance,
                               finalPaymentAmount := form.data.finalPaymentAmount,
                               finalPaymentDate := form.data.finalPaymentDate);
        var additionalDistance := OrZero(finalized.additionalDistance);
        var additionalCost := additionalDistance * extraKmRate;
        finalized := finalized.(totalPrice := finalized.totalPrice + additionalCost);
        finalized := finalized.(status := Completed, updatedAt := now);
        assert extraKmRate == EffectiveKmRate(trip);
        assert finalized == Finalized(trip, form.data, now);
        trips := trips[pk := finalized];
        resp := Redirect(true);
      } else {
        resp := Page;
      }
    }

    /** `trip_cancel_view`: POST cancels, GET only shows the confirmation. */
    method Cancel(pk: nat, m: Method, now: DateTime) returns (resp: Response)
      requires Valid()
      modifies this
      ensures Valid() && ratings == old(ratings)
      ensures pk !in old(trips) ==> resp == NotFound && trips == old(trips)
      ensures pk in old(trips) && m == Post ==>
                resp == Redirect(true) && trips == old(trips)[pk := CancelledTrip(old(trips)[pk], now)]
      ensures pk in old(trips) && m == Get ==> resp == Page && trips == old(trips)
    {
      if pk !in trips {
        return NotFound;
      }
      if m == Post {
        var trip := trips[pk];
        trip := trip.(status := Cancelled);
        trip := trip.(updatedAt := now);
        trips := trips[pk := trip];
        resp := Redirect(true);
      } else {
        resp := Page;
      }
    }

    /** `add_rating_view`: refuses a trip that is not completed or already
        rated; otherwise a valid POST stores a rating for this trip and the
        vendor of its vehicle. */
    method AddRating(pk: nat, m: Method, form: Form<RatingData>, now: DateTime) returns (resp: Response)
      requires Valid()
      modifies this
      ensures Valid() && trips == old(trips)
      ensures pk !in old(trips) ==> resp == NotFound && ratings == old(ratings)
      ensures pk in old(trips) && !MayRate(old(trips)[pk], old(ratings)) ==>
                resp == Redirect(false) && ratings == old(ratings)
      ensures pk in old(trips) && MayRate(old(trips)[pk], old(ratings)) &&
              m == Post && form.Valid? && StarsInRange(form.data.stars) ==>
                resp == Redirect(true) &&
                ratings == old(ratings) + [Rating(pk, old(trips)[pk].vehicle.vendor, form.data.stars, form.data.comment, now)]
      ensures pk in old(trips) && MayRate(old(trips)[pk], old(ratings)) &&
              !(m == Post && form.Valid? && StarsInRange(form.data.stars)) ==>
                resp == Page && ratings == old(ratings)
    {
      if pk !in trips {
        return NotFound;
      }
      var trip := trips[pk];
      if trip.status != Completed || HasRating(ratings, trip.id) {
        return Redirect(false);
      }
      if m == Post && form.Valid? && StarsInRange(form.data.stars) {
        var rating := Rating(trip.id, trip.vehicle.vendor, form.data.stars, form.data.comment, now);
        ratings := ratings + [rating];
        resp := Redirect(true);
      } else {
        resp := Page;
      }
    }
  }
}
