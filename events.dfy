/** routes/events.js: list, read, create, register for, delete and update
    events. The collection is an `EventTable`; every handler's decision is a
    function of the request and the collection, and the table's methods apply
    it in the order the handlers do. */
module Events {
  import opened Common
  import opened EventModel
  import Query

  /** The members of a request body the handlers read. */
  datatype EventBody = EventBody(
    title: Json,
    description: Json,
    detailedDescription: Json,
    date: Json,
    time: Json,
    location: Json,
    availableSeats: Json,
    image: Json)

  const RequiredFields: seq<string> := ["title", "description", "date", "time", "location", "availableSeats"]

  /** `req.body[name]`. */
  function Member(b: EventBody, name: string): Json {
    if name == "title" then b.title
    else if name == "description" then b.description
    else if name == "detailedDescription" then b.detailedDescription
    else if name == "date" then b.date
    else if name == "time" then b.time
    else if name == "location" then b.location
    else if name == "availableSeats" then b.availableSeats
    else if name == "image" then b.image
    else Missing
  }

  /** `requiredFields.filter(field => !req.body[field])`: exactly the falsy
      required members, in the order of the list. */
  function MissingFields(b: EventBody): (r: seq<string>)
    ensures forall k :: 0 <= k < |r| ==> r[k] in RequiredFields && !Truthy(Member(b, r[k]))
    ensures forall k :: 0 <= k < |RequiredFields| && !Truthy(Member(b, RequiredFields[k])) ==> RequiredFields[k] in r
    ensures IsSubsequence(r, RequiredFields)
  {
    FilterSpec(RequiredFields, f => !Truthy(Member(b, f)));
    Filter(RequiredFields, f => !Truthy(Member(b, f)))
  }

  /** `v.trim()`: only strings have the method; on any other value the call
      throws a TypeError (None). */
  function TrimMember(v: Json): Option<string> {
    if v.Str? then Some(Trim(v.s)) else None
  }

  /** `v?.trim() || ''`. */
  function TrimOptional(v: Json): Option<string> {
    match v
    case Missing => Some("")
    case Null => Some("")
    case Str(s) => Some(Trim(s))
    case _ => None
  }

  // ---------------------------------------------------------------------------
  // POST /create

  datatype CreateResult =
    | Created(event: Event)
    | MissingRequired(fields: seq<string>)
    | InvalidDate
    | InvalidSeats
    | ValidationFailed(errors: seq<string>)
    | CreateFailed
  {
    function Status(): int {
      match this
      case Created(_) => 201
      case CreateFailed => 500
      case _ => 400
    }
  }

  /** The document the create handler builds once the date and the seat
      count have parsed: trimmed text, '' for an absent long description or
      image, the time label as sent. None when a `trim()` call throws because
      the member is not a string. */
  function NewEvent(b: EventBody, date: Time, seats: int, now: Time): (r: Option<Event>)
    ensures r.Some? ==> Stored(r.value) && r.value.registrations == [] && r.value.createdAt == now && r.value.updatedAt == now
    ensures r.Some? <==> b.title.Str? && b.description.Str? && b.location.Str? && TrimOptional(b.detailedDescription).Some?
  {
    var title, description := TrimMember(b.title), TrimMember(b.description);
    var detailed, location := TrimOptional(b.detailedDescription), TrimMember(b.location);
    if title.None? || description.None? || detailed.None? || location.None? then None
    else
      var image := if Truthy(b.image) then JsString(b.image) else "";
      Some(Saved(Fresh(title.value, description.value, Some(detailed.value), date,
                       JsString(b.time), location.value, seats, Some(image), now), now))
  }

  /** The create handler: missing members, then the date, then the seat count,
      then the `trim()` calls (a non-string throws, answered with 500), then
      the schema's validation of the document the handler built. */
  function CreateOutcome(b: EventBody, plat: Platform, now: Time): (r: CreateResult)
    ensures r.MissingRequired? <==> MissingFields(b) != []
    ensures r.MissingRequired? ==> r.fields == MissingFields(b)
    ensures MissingFields(b) == [] ==> (r == InvalidDate <==> plat.parseDate(b.date).None?)
    ensures MissingFields(b) == [] && plat.parseDate(b.date).Some? ==>
      (r == InvalidSeats <==> plat.parseInt(b.availableSeats).None? || plat.parseInt(b.availableSeats).value < 1)
    ensures r.CreateFailed? <==>
      && MissingFields(b) == [] && plat.parseDate(b.date).Some?
      && plat.parseInt(b.availableSeats).Some? && plat.parseInt(b.availableSeats).value >= 1
      && NewEvent(b, plat.parseDate(b.date).value, plat.parseInt(b.availableSeats).value, now).None?
    ensures r.Created? <==>
      && MissingFields(b) == [] && plat.parseDate(b.date).Some?
      && plat.parseInt(b.availableSeats).Some? && plat.parseInt(b.availableSeats).value >= 1
      && NewEvent(b, plat.parseDate(b.date).value, plat.parseInt(b.availableSeats).value, now).Some?
      && SchemaErrors(NewEvent(b, plat.parseDate(b.date).value, plat.parseInt(b.availableSeats).value, now).value) == []
    ensures r.ValidationFailed? ==>
      && MissingFields(b) == [] && plat.parseDate(b.date).Some?
      && plat.parseInt(b.availableSeats).Some? && plat.parseInt(b.availableSeats).value >= 1
      && NewEvent(b, plat.parseDate(b.date).value, plat.parseInt(b.availableSeats).value, now).Some?
      && r.errors == SchemaErrors(NewEvent(b, plat.parseDate(b.date).value, plat.parseInt(b.availableSeats).value, now).value)
      && r.errors != []
    ensures r.Created? ==>
      && Conforms(r.event) && Stored(r.event)
      && r.event.registrations == [] && r.event.createdAt == now && r.event.updatedAt == now
  {
    var missing := MissingFields(b);
    if missing != [] then MissingRequired(missing)
    else if plat.parseDate(b.date).None? then InvalidDate
    else if plat.parseInt(b.availableSeats).None? || plat.parseInt(b.availableSeats).value < 1 then InvalidSeats
    else
      var e := NewEvent(b, plat.parseDate(b.date).value, plat.parseInt(b.availableSeats).value, now);
      if e.None? then CreateFailed
      else if SchemaErrors(e.value) != [] then ValidationFailed(SchemaErrors(e.value))
      else Created(e.value)
  }

  /** A created event holds the request's values: trimmed text, '' for an
      absent long description or image, the parsed date and seat count, and
      the time label as sent. */
  lemma CreateStoresRequest(b: EventBody, plat: Platform, now: Time)
    requires CreateOutcome(b, plat, now).Created?
    ensures var e := CreateOutcome(b, plat, now).event;
      && b.title.Str? && e.title == Trim(b.title.s)
      && b.description.Str? && e.description == Trim(b.description.s)
      && b.location.Str? && e.location == Trim(b.location.s)
      && e.detailedDescription == Some(if b.detailedDescription.Str? then Trim(b.detailedDescription.s) else "")
      && e.image == Some(if Truthy(b.image) then JsString(b.image) else "")
      && plat.parseDate(b.date) == Some(e.date)
      && plat.parseInt(b.availableSeats) == Some(e.availableSeats) && e.availableSeats >= 1
      && e.time == JsString(b.time)
  {
    var date, seats := plat.parseDate(b.date).value, plat.parseInt(b.availableSeats).value;
    assert CreateOutcome(b, plat, now).event == NewEvent(b, date, seats, now).value;
  }

  /** A title of blanks passes the handler's presence check (it is truthy) but
      is trimmed to '' and then fails the schema's `required`. */
  lemma BlankTitleFailsValidation(b: EventBody, plat: Platform, now: Time)
    requires b.title == Str(" ")
    requires MissingFields(b) == []
    requires plat.parseDate(b.date).Some? && plat.parseInt(b.availableSeats).Some?
    requires plat.parseInt(b.availableSeats).value >= 1
    requires b.description.Str? && b.location.Str? && b.detailedDescription.Missing?
    ensures CreateOutcome(b, plat, now).ValidationFailed?
    ensures Required("title") in CreateOutcome(b, plat, now).errors
  {
    var e := NewEvent(b, plat.parseDate(b.date).value, plat.parseInt(b.availableSeats).value, now);
    assert e.Some? && e.value.title == "" by {
      assert Trim(" ") == "" by {
        assert IsSpace(' ');
      }
    }
    assert SchemaErrors(e.value)[0] == Required("title");
  }

  // ---------------------------------------------------------------------------
  // Lookups by id

  datatype Lookup = Found(event: Event) | NotFound | CastFailed

  /** `Event.findById(id)` (and `findByIdAndDelete`): a string that is not an
      ObjectId makes Mongoose throw a CastError, which every handler here
      answers with 500, not 404. */
  function FindById(docs: map<string, Event>, id: string, plat: Platform): (r: Lookup)
    ensures r.Found? <==> plat.isObjectId(id) && id in docs
    ensures r.Found? ==> r.event == docs[id]
    ensures r.NotFound? <==> plat.isObjectId(id) && id !in docs
  {
    if !plat.isObjectId(id) then CastFailed
    else if id !in docs then NotFound
    else Found(docs[id])
  }

  function LookupStatus(r: Lookup): int {
    match r
    case Found(_) => 200
    case NotFound => 404
    case CastFailed => 500
  }

  // ---------------------------------------------------------------------------
  // POST /:id/register

  datatype RegisterResult = Registered | RegisterNotFound | NoSeats | RegisterFailed
  {
    function Status(): int {
      match this
      case Registered => 200
      case RegisterNotFound => 404
      case NoSeats => 400
      case RegisterFailed => 500
    }
  }

  /** `req.body.userId || 'anonymous'`. */
  function RegisterEntry(userId: Json): string {
    if Truthy(userId) then JsString(userId) else "anonymous"
  }

  /** The register handler's decision as written. `registrations` is an
      array of ObjectIds, so pushing an entry that is not one throws a
      CastError (500). */
  function RegisterOutcome(docs: map<string, Event>, id: string, userId: Json, plat: Platform): (r: RegisterResult)
    ensures r.Registered? <==>
      && plat.isObjectId(id) && id in docs
      && |docs[id].registrations| < docs[id].availableSeats
      && plat.isObjectId(RegisterEntry(userId))
    ensures r.RegisterNotFound? <==> plat.isObjectId(id) && id !in docs
    ensures r.NoSeats? <==>
      plat.isObjectId(id) && id in docs && |docs[id].registrations| >= docs[id].availableSeats
  {
    match FindById(docs, id, plat)
    case CastFailed => RegisterFailed
    case NotFound => RegisterNotFound
    case Found(e) =>
      if |e.registrations| >= e.availableSeats then NoSeats
      else if !plat.isObjectId(RegisterEntry(userId)) then RegisterFailed
      else Registered
  }

  /** The entries the register handler evidently means to keep: a user's
      ObjectId, or the 'anonymous' placeholder for a request without one. */
  predicate IntendedEntry(entry: string, plat: Platform) {
    entry == "anonymous" || plat.isObjectId(entry)
  }

  /** The register handler as intended: the placeholder takes a seat like any
      user. */
  function IntendedRegisterOutcome(docs: map<string, Event>, id: string, userId: Json, plat: Platform): (r: RegisterResult)
    ensures r.Registered? <==>
      && plat.isObjectId(id) && id in docs
      && |docs[id].registrations| < docs[id].availableSeats
      && IntendedEntry(RegisterEntry(userId), plat)
    ensures r.RegisterNotFound? <==> plat.isObjectId(id) && id !in docs
    ensures r.NoSeats? <==>
      plat.isObjectId(id) && id in docs && |docs[id].registrations| >= docs[id].availableSeats
  {
    match FindById(docs, id, plat)
    case CastFailed => RegisterFailed
    case NotFound => RegisterNotFound
    case Found(e) =>
      if |e.registrations| >= e.availableSeats then NoSeats
      else if !IntendedEntry(RegisterEntry(userId), plat) then RegisterFailed
      else Registered
  }

  /** The collection after a register request, as intended: one entry
      appended and the document saved, or nothing changed. */
  function AfterRegister(docs: map<string, Event>, id: string, userId: Json, plat: Platform, now: Time): map<string, Event> {
    if IntendedRegisterOutcome(docs, id, userId, plat).Registered?
    then docs[id := Saved(docs[id].(registrations := docs[id].registrations + [RegisterEntry(userId)]), now)]
    else docs
  }

  /** Registering never takes an event past its seat count, appends at most
      one entry, and changes no other event. */
  lemma RegisterKeepsSeatBound(docs: map<string, Event>, id: string, userId: Json, plat: Platform, now: Time)
    requires id in docs && |docs[id].registrations| <= docs[id].availableSeats
    ensures var after := AfterRegister(docs, id, userId, plat, now);
      && after.Keys == docs.Keys
      && |after[id].registrations| <= after[id].availableSeats
      && (forall other :: other in docs && other != id ==> after[other] == docs[other])
      && (after[id].registrations == docs[id].registrations
          || after[id].registrations == docs[id].registrations + [RegisterEntry(userId)])
  {
  }

  /** Succeeding registrations fill an event one seat at a time: after `n`
      of them an event that had `k` entries has `k + n`, never more than its
      seats. */
  lemma {:induction false} RepeatedRegistrations(docs: map<string, Event>, id: string, userIds: seq<Json>, plat: Platform, now: Time)
    requires id in docs && |docs[id].registrations| <= docs[id].availableSeats
    ensures var after := RegisterAll(docs, id, userIds, plat, now);
      && id in after
      && |docs[id].registrations| <= |after[id].registrations| <= docs[id].availableSeats
      && after[id].availableSeats == docs[id].availableSeats
      && |after[id].registrations| <= |docs[id].registrations| + |userIds|
    decreases |userIds|
  {
    if userIds != [] {
      RegisterKeepsSeatBound(docs, id, userIds[0], plat, now);
      RepeatedRegistrations(AfterRegister(docs, id, userIds[0], plat, now), id, userIds[1..], plat, now);
    }
  }

  /** The collection after a series of register requests for one event. */
  function RegisterAll(docs: map<string, Event>, id: string, userIds: seq<Json>, plat: Platform, now: Time): map<string, Event>
    decreases |userIds|
  {
    if userIds == [] then docs
    else RegisterAll(AfterRegister(docs, id, userIds[0], plat, now), id, userIds[1..], plat, now)
  }

  /** As written, a request without `userId` pushes 'anonymous' into an array
      of ObjectIds; the cast fails, so such a request is answered with 500
      and never takes a seat, however many seats are free, where the
      intended handler registers it. */
  lemma AnonymousRegistrationFails(docs: map<string, Event>, id: string, userId: Json, plat: Platform)
    requires !Truthy(userId) && !plat.isObjectId("anonymous")
    requires plat.isObjectId(id) && id in docs
    requires |docs[id].registrations| < docs[id].availableSeats
    ensures RegisterOutcome(docs, id, userId, plat) == RegisterFailed
    ensures IntendedRegisterOutcome(docs, id, userId, plat) == Registered
  {
  }

  /** With the intended entries an anonymous request takes a free seat, and
      is refused exactly when the seats are taken. */
  lemma IntendedAnonymousTakesSeat(docs: map<string, Event>, id: string, userId: Json, plat: Platform)
    requires !Truthy(userId)
    requires plat.isObjectId(id) && id in docs
    ensures IntendedRegisterOutcome(docs, id, userId, plat) ==
      if |docs[id].registrations| < docs[id].availableSeats then Registered else NoSeats
  {
  }

  // ---------------------------------------------------------------------------
  // PUT /:id

  /** The `updateData` object the update handler builds: a member is copied
      when truthy, `detailedDescription` and `image` whenever they are not
      `undefined`, a falsy image as "remove it" (Some(None)). `date` and
      `availableSeats` hold `new Date(...)` and `parseInt(...)`, None standing
      for an Invalid Date or NaN. */
  datatype EventPatch = EventPatch(
    title: Option<string>,
    description: Option<string>,
    detailedDescription: Option<Option<string>>,
    date: Option<Option<Time>>,
    time: Option<string>,
    location: Option<string>,
    availableSeats: Option<Option<int>>,
    image: Option<Option<string>>)

  function PatchOf(b: EventBody, plat: Platform): EventPatch {
    EventPatch(
      if Truthy(b.title) then Some(JsString(b.title)) else None,
      if Truthy(b.description) then Some(JsString(b.description)) else None,
      if b.detailedDescription.Missing? then None else Some(CastString(b.detailedDescription)),
      if Truthy(b.date) then Some(plat.parseDate(b.date)) else None,
      if Truthy(b.time) then Some(JsString(b.time)) else None,
      if Truthy(b.location) then Some(JsString(b.location)) else None,
      if Truthy(b.availableSeats) then Some(plat.parseInt(b.availableSeats)) else None,
      if b.image.Missing? then None else if !Truthy(b.image) then Some(None) else Some(Some(JsString(b.image))))
  }

  /** Casting `$set`: an Invalid Date or NaN cannot be cast. */
  predicate PatchCasts(p: EventPatch) {
    p.date != Some(None) && p.availableSeats != Some(None)
  }

  /** The update validators (`runValidators: true`) check only the paths being
      set, after the `trim` setters: required text must stay non-empty and
      the seat count at least 1. Nothing compares it with the registrations. */
  predicate PatchValid(p: EventPatch)
    requires PatchCasts(p)
  {
    && (p.title.Some? ==> Trim(p.title.value) != "")
    && (p.description.Some? ==> Trim(p.description.value) != "")
    && (p.time.Some? ==> p.time.value != "")
    && (p.location.Some? ==> Trim(p.location.value) != "")
    && (p.availableSeats.Some? ==> p.availableSeats.value.value >= 1)
  }

  function TrimSome(o: Option<string>): Option<string> {
    if o.Some? then Some(Trim(o.value)) else None
  }

  /** `$set` with the schema's setters; `updatedAt` is left alone because
      `findByIdAndUpdate` does not run the pre-save hook. */
  function Apply(e: Event, p: EventPatch): Event
    requires PatchCasts(p)
  {
    e.(title := if p.title.Some? then Trim(p.title.value) else e.title,
       description := if p.description.Some? then Trim(p.description.value) else e.description,
       detailedDescription := if p.detailedDescription.Some? then TrimSome(p.detailedDescription.value) else e.detailedDescription,
       date := if p.date.Some? then p.date.value.value else e.date,
       time := if p.time.Some? then p.time.value else e.time,
       location := if p.location.Some? then Trim(p.location.value) else e.location,
       availableSeats := if p.availableSeats.Some? then p.availableSeats.value.value else e.availableSeats,
       image := if p.image.Some? then p.image.value else e.image)
  }

  datatype UpdateResult = Updated(event: Event) | UpdateNotFound | UpdateFailed
  {
    function Status(): int {
      match this
      case Updated(_) => 200
      case UpdateNotFound => 404
      case UpdateFailed => 500
    }
  }

  /** The update handler: lookup (CastError 500, absent 404), then the update,
      whose cast and validation errors all end in the handler's 500. */
  function UpdateOutcome(docs: map<string, Event>, id: string, b: EventBody, plat: Platform): (r: UpdateResult)
    ensures r.UpdateNotFound? <==> plat.isObjectId(id) && id !in docs
    ensures r.Updated? ==> plat.isObjectId(id) && id in docs
    ensures r.Updated? <==>
      plat.isObjectId(id) && id in docs && PatchCasts(PatchOf(b, plat)) && PatchValid(PatchOf(b, plat))
    ensures r.Updated? && PatchCasts(PatchOf(b, plat)) ==> r.event == Apply(docs[id], PatchOf(b, plat))
  {
    match FindById(docs, id, plat)
    case CastFailed => UpdateFailed
    case NotFound => UpdateNotFound
    case Found(e) =>
      var p := PatchOf(b, plat);
      if !PatchCasts(p) || !PatchValid(p) then UpdateFailed else Updated(Apply(e, p))
  }

  /** An update overwrites exactly the members sent: truthy ones, and
      `detailedDescription` and `image` whenever present (even empty); every
      other field, the registrations and both timestamps are unchanged. */
  lemma UpdateTouchesOnlySuppliedFields(docs: map<string, Event>, id: string, b: EventBody, plat: Platform)
    requires UpdateOutcome(docs, id, b, plat).Updated?
    ensures var e, u := docs[id], UpdateOutcome(docs, id, b, plat).event;
      && u.title == (if Truthy(b.title) then Trim(JsString(b.title)) else e.title)
      && u.description == (if Truthy(b.description) then Trim(JsString(b.description)) else e.description)
      && u.detailedDescription == (if b.detailedDescription.Missing? then e.detailedDescription
                                   else TrimSome(CastString(b.detailedDescription)))
      && (Truthy(b.date) ==> Some(u.date) == plat.parseDate(b.date))
      && (!Truthy(b.date) ==> u.date == e.date)
      && u.time == (if Truthy(b.time) then JsString(b.time) else e.time)
      && u.location == (if Truthy(b.location) then Trim(JsString(b.location)) else e.location)
      && (Truthy(b.availableSeats) ==> Some(u.availableSeats) == plat.parseInt(b.availableSeats))
      && (!Truthy(b.availableSeats) ==> u.availableSeats == e.availableSeats)
      && u.image == (if b.image.Missing? then e.image else if !Truthy(b.image) then None else Some(JsString(b.image)))
      && u.registrations == e.registrations && u.createdAt == e.createdAt && u.updatedAt == e.updatedAt
  {
  }

  /** An update keeps a conforming, trimmed event conforming and trimmed. */
  lemma UpdateKeepsEventValid(docs: map<string, Event>, id: string, b: EventBody, plat: Platform)
    requires UpdateOutcome(docs, id, b, plat).Updated?
    requires Conforms(docs[id]) && Stored(docs[id])
    ensures Conforms(UpdateOutcome(docs, id, b, plat).event) && Stored(UpdateOutcome(docs, id, b, plat).event)
  {
    var p := PatchOf(b, plat);
    if p.detailedDescription.Some? && p.detailedDescription.value.Some? {
      assert Trimmed(Trim(p.detailedDescription.value.value));
    }
  }

  /** The seat count can be lowered below the number of registrations: any
      parsed value of at least 1 is accepted. */
  lemma UpdateIgnoresRegistrations(docs: map<string, Event>, id: string, b: EventBody, plat: Platform, n: int)
    requires plat.isObjectId(id) && id in docs
    requires b == EventBody(Missing, Missing, Missing, Missing, Missing, Missing, b.availableSeats, Missing)
    requires Truthy(b.availableSeats) && plat.parseInt(b.availableSeats) == Some(n) && n >= 1
    ensures UpdateOutcome(docs, id, b, plat) == Updated(docs[id].(availableSeats := n))
  {
  }

  /** A truthy seat value that parses below 1 (such as "0") fails the `min`
      validator: the handler answers 500 and the event is unchanged. */
  lemma UpdateRejectsSeatsBelowOne(docs: map<string, Event>, id: string, b: EventBody, plat: Platform)
    requires Truthy(b.availableSeats)
    requires plat.parseInt(b.availableSeats).Some? && plat.parseInt(b.availableSeats).value < 1
    ensures !UpdateOutcome(docs, id, b, plat).Updated?
  {
  }

  // ---------------------------------------------------------------------------
  // The collection

  datatype DeleteResult = Deleted | DeleteNotFound | DeleteFailed
  {
    function Status(): int {
      match this
      case Deleted => 200
      case DeleteNotFound => 404
      case DeleteFailed => 500
    }
  }

  /** The handler's `updateData`, built member by member. */
  method BuildPatch(b: EventBody, plat: Platform) returns (patch: EventPatch)
    ensures patch == PatchOf(b, plat)
  {
    patch := EventPatch(None, None, None, None, None, None, None, None);
    if Truthy(b.title) {
      patch := patch.(title := Some(JsString(b.title)));
    }
    if Truthy(b.description) {
      patch := patch.(description := Some(JsString(b.description)));
    }
    if !b.detailedDescription.Missing? {
      patch := patch.(detailedDescription := Some(CastString(b.detailedDescription)));
    }
    if Truthy(b.date) {
      patch := patch.(date := Some(plat.parseDate(b.date)));
    }
    if Truthy(b.time) {
      patch := patch.(time := Some(JsString(b.time)));
    }
    if Truthy(b.location) {
      patch := patch.(location := Some(JsString(b.location)));
    }
    if Truthy(b.availableSeats) {
      patch := patch.(availableSeats := Some(plat.parseInt(b.availableSeats)));
    }
    if !b.image.Missing? {
      if !Truthy(b.image) {
        patch := patch.(image := Some(None));
      } else {
        patch := patch.(image := Some(Some(JsString(b.image))));
      }
    }
  }

  class EventTable {
    var docs: map<string, Event>

    /** Every stored event passed the schema and holds trimmed text. */
    ghost predicate Valid()
      reads this
    {
      forall id :: id in docs ==> Conforms(docs[id]) && Stored(docs[id])
    }

    constructor ()
      ensures Valid() && docs == map[]
    {
      docs := map[];
    }

    /** GET /: every event, latest date first. */
    method List() returns (ids: seq<string>)
      ensures Query.IsSortedSelection(ids, docs, (e: Event) => true, (e: Event) => e.date)
    {
      ids := Query.SortedSelection(docs, (e: Event) => true, (e: Event) => e.date);
    }

    /** GET /:id. */
    method Get(id: string, plat: Platform) returns (r: Lookup)
      ensures r.Found? <==> plat.isObjectId(id) && id in docs
      ensures r.Found? ==> r.event == docs[id]
      ensures r.NotFound? <==> plat.isObjectId(id) && id !in docs
    {
      if !plat.isObjectId(id) {
        return CastFailed;
      }
      if id !in docs {
        return NotFound;
      }
      r := Found(docs[id]);
    }

    /** POST /create: stores the new event under the fresh id the database
        assigns. */
    method Create(b: EventBody, plat: Platform, now: Time, newId: string) returns (r: CreateResult)
      requires Valid() && newId !in docs
      modifies this
      ensures Valid()
      ensures r == CreateOutcome(b, plat, now)
      ensures docs == if r.Created? then old(docs)[newId := r.event] else old(docs)
    {
      r := CreateOutcome(b, plat, now);
      if r.Created? {
        docs := docs[newId := r.event];
      }
    }

    /** POST /:id/register: check the seats, push the entry, save; with the
        'anonymous' placeholder accepted as the handler intends. */
    method Register(id: string, userId: Json, plat: Platform, now: Time) returns (r: RegisterResult)
      requires Valid()
      modifies this
      ensures Valid()
      ensures r == IntendedRegisterOutcome(old(docs), id, userId, plat)
      ensures docs == AfterRegister(old(docs), id, userId, plat, now)
    {
      if !plat.isObjectId(id) {
        return RegisterFailed;
      }
      if id !in docs {
        return RegisterNotFound;
      }
      var event := docs[id];
      if |event.registrations| >= event.availableSeats {
        return NoSeats;
      }
      var entry := RegisterEntry(userId);
      if !IntendedEntry(entry, plat) {
        return RegisterFailed;
      }
      event := event.(registrations := event.registrations + [entry]);
      event := Saved(event, now);
      assert Conforms(event) && Stored(event);
      docs := docs[id := event];
      r := Registered;
    }

    /** PUT /:id: builds `updateData` member by member and `$set`s it. */
    method Update(id: string, b: EventBody, plat: Platform) returns (r: UpdateResult)
      requires Valid()
      modifies this
      ensures Valid()
      ensures r == UpdateOutcome(old(docs), id, b, plat)
      ensures docs == if r.Updated? then old(docs)[id := r.event] else old(docs)
    {
      if !plat.isObjectId(id) {
        return UpdateFailed;
      }
      if id !in docs {
        return UpdateNotFound;
      }
      var patch := BuildPatch(b, plat);
      if !PatchCasts(patch) || !PatchValid(patch) {
        return UpdateFailed;
      }
      var event := Apply(docs[id], patch);
      UpdateKeepsEventValid(docs, id, b, plat);
      docs := docs[id := event];
      r := Updated(event);
    }

    /** DELETE /:id. */
    method Delete(id: string, plat: Platform) returns (r: DeleteResult)
      requires Valid()
      modifies this
      ensures Valid()
      ensures r == Deleted <==> plat.isObjectId(id) && id in old(docs)
      ensures r == DeleteNotFound <==> plat.isObjectId(id) && id !in old(docs)
      ensures docs == if r == Deleted then old(docs) - {id} else old(docs)
    {
      if !plat.isObjectId(id) {
        return DeleteFailed;
      }
      if id !in docs {
        return DeleteNotFound;
      }
      docs := docs - {id};
      r := Deleted;
    }
  }
}
