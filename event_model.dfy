/** models/Event.js: an event document and the checks its schema makes when a
    document is saved or updated with validators. */
module EventModel {
  import opened Common

  /** An event as stored. `registrations` holds the ObjectId strings pushed by
      the register route; `detailedDescription` and `image` may be absent. */
  datatype Event = Event(
    title: string,
    description: string,
    detailedDescription: Option<string>,
    date: Time,
    time: string,
    location: string,
    availableSeats: int,
    image: Option<string>,
    registrations: seq<string>,
    createdAt: Time,
    updatedAt: Time)

  /** Mongoose's `Path ... is required.` message for a String path. */
  function Required(path: string): string {
    "Path `" + path + "` is required."
  }

  /** The messages of the ValidationError a save would raise, one per failing
      path in schema order: the required String paths must be non-empty, and
      `availableSeats` must be at least 1. (`date` and `availableSeats` are
      always present in this representation.) */
  function SchemaErrors(e: Event): (errs: seq<string>)
    ensures errs == [] <==>
      e.title != "" && e.description != "" && e.time != "" && e.location != "" && e.availableSeats >= 1
    ensures |errs| <= 5
  {
    (if e.title == "" then [Required("title")] else [])
    + (if e.description == "" then [Required("description")] else [])
    + (if e.time == "" then [Required("time")] else [])
    + (if e.location == "" then [Required("location")] else [])
    + (if e.availableSeats < 1
       then ["Path `availableSeats` (" + IntToDecimal(e.availableSeats) + ") is less than minimum allowed value (1)."]
       else [])
  }

  predicate Conforms(e: Event) {
    SchemaErrors(e) == []
  }

  /** The `trim: true` paths hold trimmed strings. */
  predicate Stored(e: Event) {
    && Trimmed(e.title)
    && Trimmed(e.description)
    && (e.detailedDescription.Some? ==> Trimmed(e.detailedDescription.value))
    && Trimmed(e.location)
  }

  /** A new document: no registrations yet, and `createdAt` from its default;
      the pre-save hook then sets `updatedAt` (see Saved). */
  function Fresh(title: string, description: string, detailedDescription: Option<string>, date: Time,
                 time: string, location: string, availableSeats: int, image: Option<string>, now: Time): Event
  {
    Event(title, description, detailedDescription, date, time, location, availableSeats, image, [], now, now)
  }

  /** The pre-save hook: every `save()` stamps `updatedAt` with the current
      time. Updates through `findByIdAndUpdate` do not run it. */
  function Saved(e: Event, now: Time): Event {
    e.(updatedAt := now)
  }

  lemma SavedStampsOnlyUpdatedAt(e: Event, now: Time)
    ensures Saved(e, now).updatedAt == now
    ensures Saved(e, now).(updatedAt := e.updatedAt) == e
    ensures Conforms(Saved(e, now)) == Conforms(e) && Stored(Saved(e, now)) == Stored(e)
  {
  }
}
