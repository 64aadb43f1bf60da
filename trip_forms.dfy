/** The trip forms: which fields each one lets a user set, and the one
    hand-written validation rule. */
module TripForms {
  import opened Base

  const PastDateMessage: string := "Trip date cannot be in the past."

  /** `TripForm.clean_trip_date`: a date before the current instant is
      rejected; any other date is accepted unchanged. */
  function CleanTripDate(tripDate: DateTime, now: DateTime): (r: Result<DateTime>)
    ensures r.Err? <==> tripDate < now
    ensures r.Err? ==> r.error == PastDateMessage
    ensures r.Ok? ==> r.value == tripDate
  {
    if tripDate < now then Err(PastDateMessage) else Ok(tripDate)
  }

  /** The columns of the Trip model a form can name. */
  const TripModelFields: set<string> := {
    "customer", "vehicle", "trip_date", "package", "total_price", "advance_paid", "advance_paid_date",
    "final_payment_amount", "final_payment_date", "vendor_price", "vendor_advance", "vendor_advance_date",
    "status", "additional_distance", "remarks"}

  /** The columns of the Rating model a form can name. */
  const RatingModelFields: set<string> := {"trip", "vendor", "stars", "comment"}

  /** `TripForm.Meta.fields` exactly as listed: it names two payment-option
      fields that the Trip model does not have. */
  const TripFormFieldsAsWritten: set<string> := {
    "customer", "vehicle", "trip_date", "package", "total_price", "advance_paid", "advance_paid_date",
    "customer_payment_option",
    "vendor_price", "vendor_advance", "vendor_advance_date", "vendor_payment_option",
    "status", "remarks"}

  /** `TripForm.Meta.fields` restricted to fields the model has: the form the
      rest of this model assumes. */
  const TripFormFields: set<string> := TripFormFieldsAsWritten - {"customer_payment_option", "vendor_payment_option"}

  const FinalizeFormFields: set<string> := {"additional_distance", "final_payment_amount", "final_payment_date"}

  const RatingFormFields: set<string> := {"stars", "comment"}

  /** A model form must name only model fields; the listed trip form names two
      that are not, so building the form class fails. */
  lemma TripFormNamesUnknownFields()
    ensures "customer_payment_option" in TripFormFieldsAsWritten - TripModelFields
    ensures "vendor_payment_option" in TripFormFieldsAsWritten - TripModelFields
    ensures !(TripFormFieldsAsWritten <= TripModelFields)
  {
  }

  /** Without the two unknown names every field of the trip form exists, and
      the form exposes neither the extra distance nor the final payment. */
  lemma TripFormFieldsExist()
    ensures TripFormFields <= TripModelFields
    ensures "additional_distance" !in TripFormFields
    ensures "final_payment_amount" !in TripFormFields && "final_payment_date" !in TripFormFields
  {
  }

  /** The finalize form edits only existing trip fields, none of which the
      general trip form edits. */
  lemma FinalizeFormIsDisjoint()
    ensures FinalizeFormFields <= TripModelFields
    ensures FinalizeFormFields * TripFormFields == {}
    ensures "total_price" !in FinalizeFormFields && "status" !in FinalizeFormFields
  {
  }

  /** The rating form takes only stars and a comment, so the rated trip and
      the vendor never come from user input. */
  lemma RatingFormExcludesLinks()
    ensures RatingFormFields <= RatingModelFields
    ensures "trip" !in RatingFormFields && "vendor" !in RatingFormFields
  {
  }
}
