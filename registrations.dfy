/** routes/registrations.js: the Registration collection and its handlers.
    This path is separate from the event's own `registrations` array: it reads
    the Event collection only through the pre-save hook, for an event's
    existence and date, and never writes to it. */
module Registrations {
  import opened Common
  import EventModel
  import opened RegistrationModel
  import Events
  import Query

  // ---------------------------------------------------------------------------
  // POST /

  datatype CreateResult =
    | Created(registration: Registration)
    | Invalid(message: string)
    | Rejected(message: string)
    | AlreadyRegistered
  {
    function Status(): int {
      match this
      case Created(_) => 201
      case Invalid(_) => 400
      case Rejected(_) => 500
      case AlreadyRegistered => 400
    }
  }

  /** Some stored registration already holds this (event, e-mail) pair: the
      unique compound index refuses a second one (E11000). */
  predicate Taken(docs: map<string, Registration>, eventId: string, email: string) {
    exists id :: id in docs && docs[id].eventId == eventId && docs[id].email == email
  }

  /** The create handler: validation (400, messages joined by ", "), then the
      pre-save hook (its error reaches the generic branch: 500 with the
      hook's message), then the unique index (400). */
  function CreateOutcome(docs: map<string, Registration>, events: map<string, EventModel.Event>, b: RegistrationBody,
                         plat: Platform, now: Time): (r: CreateResult)
    ensures r.Invalid? <==> ValidationErrors(b, plat) != []
    ensures r.Invalid? ==> r.message == Join(ValidationErrors(b, plat), ", ")
    ensures ValidationErrors(b, plat) == [] ==> r == SaveNew(docs, events, NewRegistration(b, plat, now), now)
  {
    var errs := ValidationErrors(b, plat);
    if errs != [] then Invalid(Join(errs, ", "))
    else
      SaveNew(docs, events, NewRegistration(b, plat, now), now)
  }

  /** What `save()` does with a validated new document: the pre-save hook,
      then the unique index. */
  function SaveNew(docs: map<string, Registration>, events: map<string, EventModel.Event>, reg: Registration, now: Time)
    : (r: CreateResult)
    ensures r.Created? <==> HookError(events, reg.eventId, now).None? && !Taken(docs, reg.eventId, reg.email)
    ensures r.Created? ==> r.registration == reg
    ensures r.AlreadyRegistered? <==> HookError(events, reg.eventId, now).None? && Taken(docs, reg.eventId, reg.email)
    ensures HookError(events, reg.eventId, now).Some? ==> r == Rejected(HookError(events, reg.eventId, now).value)
    ensures r.Rejected? ==> r.message in {"Event not found", "Registration is closed for past events"}
  {
    var hook := HookError(events, reg.eventId, now);
    if hook.Some? then Rejected(hook.value)
    else if Taken(docs, reg.eventId, reg.email) then AlreadyRegistered
    else Created(reg)
  }

  /** Every stored registration conforms. */
  ghost predicate AllConform(docs: map<string, Registration>, plat: Platform) {
    forall id :: id in docs ==> Conforms(docs[id], plat)
  }

  /** No two stored registrations share an (event, e-mail) pair. */
  ghost predicate PairsUnique(docs: map<string, Registration>) {
    forall a, c :: a in docs && c in docs && a != c ==> docs[a].eventId != docs[c].eventId || docs[a].email != docs[c].email
  }

  /** The collection after the create handler stores a new document under the
      fresh id `newId`. */
  function AfterCreate(docs: map<string, Registration>, events: map<string, EventModel.Event>, b: RegistrationBody,
                       plat: Platform, now: Time, newId: string): map<string, Registration>
  {
    var r := CreateOutcome(docs, events, b, plat, now);
    if r.Created? then docs[newId := r.registration] else docs
  }

  /** Inserting a conforming document whose pair is free keeps the
      collection valid. */
  lemma InsertKeepsTableValid(docs: map<string, Registration>, reg: Registration, plat: Platform, newId: string)
    requires AllConform(docs, plat) && PairsUnique(docs) && newId !in docs
    requires Conforms(reg, plat) && !Taken(docs, reg.eventId, reg.email)
    ensures AllConform(docs[newId := reg], plat) && PairsUnique(docs[newId := reg])
  {
    var after := docs[newId := reg];
    forall id | id in after ensures Conforms(after[id], plat) {
      if id != newId {
        assert after[id] == docs[id];
      }
    }
    forall a, c | a in after && c in after && a != c
      ensures after[a].eventId != after[c].eventId || after[a].email != after[c].email
    {
      if a == newId {
        assert c in docs && docs[c] == after[c];
      } else if c == newId {
        assert a in docs && docs[a] == after[a];
      } else {
        assert after[a] == docs[a] && after[c] == docs[c];
      }
    }
  }

  /** Creating keeps every document conforming and every (event, e-mail)
      pair unique, and changes nothing unless it succeeds. */
  lemma CreateKeepsTableValid(docs: map<string, Registration>, events: map<string, EventModel.Event>, b: RegistrationBody,
                              plat: Platform, now: Time, newId: string)
    requires AllConform(docs, plat) && PairsUnique(docs) && newId !in docs
    ensures AllConform(AfterCreate(docs, events, b, plat, now, newId), plat)
    ensures PairsUnique(AfterCreate(docs, events, b, plat, now, newId))
    ensures !CreateOutcome(docs, events, b, plat, now).Created? ==> AfterCreate(docs, events, b, plat, now, newId) == docs
  {
    var r := CreateOutcome(docs, events, b, plat, now);
    if r.Created? {
      NewRegistrationConforms(b, plat, now);
      InsertKeepsTableValid(docs, r.registration, plat, newId);
    }
  }

  /** After one registration for an event, a second body for the same event
      whose e-mail differs only in case or surrounding blanks is refused as a
      duplicate and adds nothing. */
  lemma SecondRegistrationRefused(docs: map<string, Registration>, events: map<string, EventModel.Event>, b1: RegistrationBody,
                                  b2: RegistrationBody, plat: Platform, now: Time, later: Time, newId: string)
    requires CreateOutcome(docs, events, b1, plat, now).Created?
    requires ValidationErrors(b2, plat) == [] && b2.eventId == b1.eventId
    requires Normalise(CastString(b2.email).value) == Normalise(CastString(b1.email).value)
    requires HookError(events, b1.eventId.s, later).None?
    ensures CreateOutcome(docs[newId := CreateOutcome(docs, events, b1, plat, now).registration], events, b2, plat, later)
            == AlreadyRegistered
  {
    var first := CreateOutcome(docs, events, b1, plat, now).registration;
    assert ValidationErrors(b1, plat) == [];
    assert first == NewRegistration(b1, plat, now);
    var second := NewRegistration(b2, plat, later);
    SameRegistrationKey(b1, b2, plat, now, later);
    var docs' := docs[newId := first];
    assert Taken(docs', second.eventId, second.email) by {
      assert newId in docs' && docs'[newId] == first;
    }
    assert HookError(events, second.eventId, later).None?;
    assert SaveNew(docs', events, second, later).AlreadyRegistered?;
  }

  /** Two valid bodies for one event whose e-mails normalise alike yield
      documents with the same (event, e-mail) pair. */
  lemma SameRegistrationKey(b1: RegistrationBody, b2: RegistrationBody, plat: Platform, now: Time, later: Time)
    requires ValidationErrors(b1, plat) == [] && ValidationErrors(b2, plat) == [] && b2.eventId == b1.eventId
    requires Normalise(CastString(b2.email).value) == Normalise(CastString(b1.email).value)
    ensures NewRegistration(b2, plat, later).eventId == NewRegistration(b1, plat, now).eventId
    ensures NewRegistration(b2, plat, later).email == NewRegistration(b1, plat, now).email
  {
    NewRegistrationConforms(b1, plat, now);
    NewRegistrationConforms(b2, plat, later);
  }

  /** The hook's check comes before the unique index and is strict: a valid
      body for an event whose date has passed is refused with 500 whether or
      not the pair is taken, while an event dated exactly now is open. */
  lemma ClosedEventRejected(docs: map<string, Registration>, events: map<string, EventModel.Event>, b: RegistrationBody,
                            plat: Platform, now: Time)
    requires ValidationErrors(b, plat) == []
    requires b.eventId.Str? && b.eventId.s in events
    ensures events[b.eventId.s].date < now ==>
      CreateOutcome(docs, events, b, plat, now) == Rejected("Registration is closed for past events")
    ensures events[b.eventId.s].date == now ==>
      CreateOutcome(docs, events, b, plat, now).Created? || CreateOutcome(docs, events, b, plat, now).AlreadyRegistered?
  {
    var reg := NewRegistration(b, plat, now);
    assert reg.eventId == b.eventId.s;
    assert HookError(events, reg.eventId, now).None? <==> events[b.eventId.s].date >= now;
  }

  /** The outcome depends on the Event collection only through which events
      exist and their dates: seat counts and the events' own registration
      arrays play no part. */
  lemma CreateIgnoresSeats(docs: map<string, Registration>, ev1: map<string, EventModel.Event>, ev2: map<string, EventModel.Event>,
                           b: RegistrationBody, plat: Platform, now: Time)
    requires ev1.Keys == ev2.Keys
    requires forall k :: k in ev1 ==> ev1[k].date == ev2[k].date
    ensures CreateOutcome(docs, ev1, b, plat, now) == CreateOutcome(docs, ev2, b, plat, now)
  {
  }

  // ---------------------------------------------------------------------------
  // PATCH /:id/status

  datatype StatusResult = StatusUpdated(registration: Registration) | BadId | BadStatus | StatusNotFound
  {
    function Status(): int {
      match this
      case StatusUpdated(_) => 200
      case StatusNotFound => 404
      case _ => 400
    }
  }

  /** The id format first, then the value (strict membership, so only the
      three strings themselves), then the lookup. Any of the three values
      replaces any current one, and `timestamps` stamps `updatedAt`. */
  function StatusOutcome(docs: map<string, Registration>, id: string, status: Json, plat: Platform, now: Time): (r: StatusResult)
    ensures r.BadId? <==> !plat.isObjectId(id)
    ensures r.BadStatus? <==> plat.isObjectId(id) && !(status.Str? && status.s in Statuses)
    ensures r.StatusNotFound? <==> plat.isObjectId(id) && status.Str? && status.s in Statuses && id !in docs
  {
    if !plat.isObjectId(id) then BadId
    else if !(status.Str? && status.s in Statuses) then BadStatus
    else if id !in docs then StatusNotFound
    else StatusUpdated(docs[id].(status := status.s, updatedAt := now))
  }

  /** The status update changes the status and `updatedAt` and nothing else,
      from whatever status the registration had; it keeps the document
      conforming. */
  lemma StatusUpdateOnlyStatus(docs: map<string, Registration>, id: string, s: string, plat: Platform, now: Time)
    requires plat.isObjectId(id) && id in docs && s in Statuses
    requires Conforms(docs[id], plat)
    ensures var r := StatusOutcome(docs, id, Str(s), plat, now);
      && r.StatusUpdated?
      && r.registration.status == s && r.registration.updatedAt == now
      && r.registration.(status := docs[id].status, updatedAt := docs[id].updatedAt) == docs[id]
      && Conforms(r.registration, plat)
  {
  }

  // ---------------------------------------------------------------------------
  // GET /:id and DELETE /:id

  datatype LookupResult = Got(registration: Registration) | LookupBadId | LookupNotFound
  {
    function Status(): int {
      match this
      case Got(_) => 200
      case LookupBadId => 400
      case LookupNotFound => 404
    }
  }

  datatype DeleteResult = Removed | DeleteBadId | DeleteNotFound
  {
    function Status(): int {
      match this
      case Removed => 200
      case DeleteBadId => 400
      case DeleteNotFound => 404
    }
  }

  // ---------------------------------------------------------------------------
  // GET /event/:eventId and GET /user/:email

  function OfEvent(eventId: string): Registration -> bool {
    (r: Registration) => r.eventId == eventId
  }

  function WithEmail(email: string): Registration -> bool {
    (r: Registration) => r.email == email
  }

  function RegisteredAt(r: Registration): int {
    r.registeredAt
  }

  /** Without setters on query values, an address with an upper-case letter
      finds nothing, because every stored address is lower-cased. */
  lemma MixedCaseEmailFindsNothing(docs: map<string, Registration>, email: string, plat: Platform)
    requires forall id :: id in docs ==> IsLower(docs[id].email)
    requires !plat.querySetters && !IsLower(email)
    ensures Query.Matching(docs, WithEmail(EmailQuery(email, plat))) == {}
  {
  }

  /** With setters on query values, an address finds the same registrations
      as its trimmed, lower-cased form. */
  lemma EmailQueryIgnoresCase(email: string, plat: Platform)
    requires plat.querySetters
    ensures EmailQuery(email, plat) == EmailQuery(Normalise(email), plat)
    ensures IsLower(EmailQuery(email, plat))
  {
    NormaliseIsNormal(email);
  }

  datatype ListResult = Listed(ids: seq<string>, count: nat) | ListBadId

  // ---------------------------------------------------------------------------
  // The collection

  class RegistrationTable {
    var docs: map<string, Registration>

    /** Every stored registration conforms, and no two share an (event,
        e-mail) pair. */
    ghost predicate Valid(plat: Platform)
      reads this
    {
      AllConform(docs, plat) && PairsUnique(docs)
    }

    constructor ()
      ensures docs == map[]
      ensures forall plat :: Valid(plat)
    {
      docs := map[];
    }

    /** POST /: builds, validates and saves the document under the fresh id
        the database assigns. The Event collection is only read. */
    method Create(b: RegistrationBody, events: Events.EventTable, plat: Platform, now: Time, newId: string)
      returns (r: CreateResult)
      requires Valid(plat) && newId !in docs
      modifies this
      ensures Valid(plat)
      ensures r == CreateOutcome(old(docs), events.docs, b, plat, now)
      ensures docs == AfterCreate(old(docs), events.docs, b, plat, now, newId)
    {
      CreateKeepsTableValid(docs, events.docs, b, plat, now, newId);
      r := CreateOutcome(docs, events.docs, b, plat, now);
      if r.Created? {
        docs := docs[newId := r.registration];
      }
    }

    /** PATCH /:id/status. */
    method UpdateStatus(id: string, status: Json, plat: Platform, now: Time) returns (r: StatusResult)
      requires Valid(plat)
      modifies this
      ensures Valid(plat)
      ensures r == StatusOutcome(old(docs), id, status, plat, now)
      ensures docs == if r.StatusUpdated? then old(docs)[id := r.registration] else old(docs)
    {
      if !plat.isObjectId(id) {
        return BadId;
      }
      if !(status.Str? && status.s in Statuses) {
        return BadStatus;
      }
      if id !in docs {
        return StatusNotFound;
      }
      var reg := docs[id].(status := status.s, updatedAt := now);
      docs := docs[id := reg];
      r := StatusUpdated(reg);
    }

    /** GET /:id. */
    method Get(id: string, plat: Platform) returns (r: LookupResult)
      ensures r.LookupBadId? <==> !plat.isObjectId(id)
      ensures r.LookupNotFound? <==> plat.isObjectId(id) && id !in docs
      ensures r.Got? ==> id in docs && r.registration == docs[id]
    {
      if !plat.isObjectId(id) {
        return LookupBadId;
      }
      if id !in docs {
        return LookupNotFound;
      }
      r := Got(docs[id]);
    }

    /** DELETE /:id: removes that registration and no other. */
    method Delete(id: string, plat: Platform) returns (r: DeleteResult)
      requires Valid(plat)
      modifies this
      ensures Valid(plat)
      ensures r.DeleteBadId? <==> !plat.isObjectId(id)
      ensures r.DeleteNotFound? <==> plat.isObjectId(id) && id !in old(docs)
      ensures docs == if r.Removed? then old(docs) - {id} else old(docs)
    {
      if !plat.isObjectId(id) {
        return DeleteBadId;
      }
      if id !in docs {
        return DeleteNotFound;
      }
      docs := docs - {id};
      r := Removed;
    }

    /** GET /event/:eventId: that event's registrations, latest first, and
        their number. */
    method ListByEvent(eventId: string, plat: Platform) returns (r: ListResult)
      ensures r.ListBadId? <==> !plat.isObjectId(eventId)
      ensures r.Listed? ==>
        && Query.IsSortedSelection(r.ids, docs, OfEvent(eventId), RegisteredAt)
        && r.count == |r.ids| == |Query.Matching(docs, OfEvent(eventId))|
    {
      if !plat.isObjectId(eventId) {
        return ListBadId;
      }
      var ids := Query.SortedSelection(docs, OfEvent(eventId), RegisteredAt);
      Query.SelectionCount(ids, docs, OfEvent(eventId), RegisteredAt);
      r := Listed(ids, |ids|);
    }

    /** GET /user/:email: the registrations under that address, latest first.
        There is no id check on this route. */
    method ListByEmail(email: string, plat: Platform) returns (ids: seq<string>, count: nat)
      ensures Query.IsSortedSelection(ids, docs, WithEmail(EmailQuery(email, plat)), RegisteredAt)
      ensures count == |ids| == |Query.Matching(docs, WithEmail(EmailQuery(email, plat)))|
    {
      ids := Query.SortedSelection(docs, WithEmail(EmailQuery(email, plat)), RegisteredAt);
      Query.SelectionCount(ids, docs, WithEmail(EmailQuery(email, plat)), RegisteredAt);
      count := |ids|;
    }
  }
}
