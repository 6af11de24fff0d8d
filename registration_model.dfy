/** models/Registration.js: a registration document, the validators each path
    runs when a new registration is saved, and the pre-save hook that checks
    the event it names. */
module RegistrationModel {
  import opened Common
  import opened EventModel

  datatype Registration = Registration(
    eventId: string,
    name: string,
    email: string,
    phone: string,
    githubAccount: Option<string>,
    linkedinId: string,
    portfolio: Option<string>,
    registeredAt: Time,
    status: string,
    createdAt: Time,
    updatedAt: Time)

  const Statuses: seq<string> := ["pending", "confirmed", "cancelled"]

  /** The members of a request body the schema keeps; any other member is
      dropped by the schema. */
  datatype RegistrationBody = RegistrationBody(
    eventId: Json,
    name: Json,
    email: Json,
    phone: Json,
    githubAccount: Json,
    linkedinId: Json,
    portfolio: Json,
    registeredAt: Json,
    status: Json)

  // ---------------------------------------------------------------------------
  // One function per path: the message of its first failing validator.

  /** `eventId` is a required ObjectId reference. */
  function EventIdError(v: Json, plat: Platform): (r: Option<string>)
    ensures r.None? <==> v.Str? && plat.isObjectId(v.s)
  {
    match v
    case Missing => Some("Path `eventId` is required.")
    case Null => Some("Path `eventId` is required.")
    case Str(s) =>
      if plat.isObjectId(s) then None
      else Some("Cast to ObjectId failed for value \"" + s + "\" at path \"eventId\"")
    case _ => Some("Cast to ObjectId failed for value \"" + JsString(v) + "\" at path \"eventId\"")
  }

  function NameError(v: Json): (r: Option<string>)
    ensures r.None? <==> TrimmedPath(v).Some? && TrimmedPath(v).value != ""
  {
    if TrimmedPath(v).None? || TrimmedPath(v).value == "" then Some("Name is required") else None
  }

  /** `email` is trimmed and lower-cased before its pattern is tried. */
  function EmailError(v: Json): (r: Option<string>)
    ensures r.None? <==> CastString(v).Some? && Normalise(CastString(v).value) != "" && SimpleEmail(Normalise(CastString(v).value))
  {
    if CastString(v).None? || Normalise(CastString(v).value) == "" then Some("Email is required")
    else if !SimpleEmail(Normalise(CastString(v).value)) then Some("Please enter a valid email")
    else None
  }

  /** `phone` must be exactly ten digits once trimmed. */
  function PhoneError(v: Json): (r: Option<string>)
    ensures r.None? <==> TrimmedPath(v).Some? && TenDigits(TrimmedPath(v).value)
  {
    if TrimmedPath(v).None? || TrimmedPath(v).value == "" then Some("Phone number is required")
    else if !TenDigits(TrimmedPath(v).value) then Some("Please enter a valid 10-digit phone number")
    else None
  }

  /** An optional path: no validator but `required` runs on an absent value,
      and the custom validator lets '' through. */
  function GithubError(v: Json): (r: Option<string>)
    ensures r.None? <==>
      TrimmedPath(v).None? || TrimmedPath(v).value == "" || StartsWith(TrimmedPath(v).value, "https://github.com/")
  {
    var t := TrimmedPath(v);
    if t.None? || t.value == "" || StartsWith(t.value, "https://github.com/") then None
    else Some("GitHub profile must be a valid GitHub URL")
  }

  function LinkedinError(v: Json): (r: Option<string>)
    ensures r.None? <==>
      && TrimmedPath(v).Some? && TrimmedPath(v).value != ""
      && (StartsWith(TrimmedPath(v).value, "https://www.linkedin.com/") || StartsWith(TrimmedPath(v).value, "https://linkedin.com/"))
  {
    var t := TrimmedPath(v);
    if t.None? || t.value == "" then Some("LinkedIn profile is required")
    else if StartsWith(t.value, "https://www.linkedin.com/") || StartsWith(t.value, "https://linkedin.com/") then None
    else Some("LinkedIn profile must be a valid LinkedIn URL")
  }

  function PortfolioError(v: Json, plat: Platform): (r: Option<string>)
    ensures r.None? <==> TrimmedPath(v).None? || TrimmedPath(v).value == "" || plat.isUrl(TrimmedPath(v).value)
  {
    var t := TrimmedPath(v);
    if t.None? || t.value == "" || plat.isUrl(t.value) then None
    else Some("Portfolio must be a valid URL")
  }

  /** `registeredAt` is absent (the default, the current time, applies) or a
      value the Date cast accepts; the body may set it. */
  function RegisteredAtError(v: Json, plat: Platform): (r: Option<string>)
    ensures r.None? <==> v.Missing? || v.Null? || plat.parseDate(v).Some?
  {
    if v.Missing? || v.Null? || plat.parseDate(v).Some? then None
    else Some("Cast to date failed for value \"" + JsString(v) + "\" at path \"registeredAt\"")
  }

  /** `status` is absent (the default applies) or one of the three values. */
  function StatusError(v: Json): (r: Option<string>)
    ensures r.None? <==> CastString(v).None? || CastString(v).value in Statuses
  {
    if CastString(v).None? || CastString(v).value in Statuses then None
    else Some("`" + CastString(v).value + "` is not a valid enum value for path `status`.")
  }

  /** `[m]` for a failing path, nothing for a passing one. */
  function Msg(o: Option<string>): (r: seq<string>)
    ensures |r| == if o.Some? then 1 else 0
  {
    if o.Some? then [o.value] else []
  }

  /** The ValidationError's messages, one per failing path in schema order;
      none exactly when every path's check passes. */
  function ValidationErrors(b: RegistrationBody, plat: Platform): (errs: seq<string>)
    ensures errs == [] <==>
      && EventIdError(b.eventId, plat).None? && NameError(b.name).None? && EmailError(b.email).None?
      && PhoneError(b.phone).None? && GithubError(b.githubAccount).None? && LinkedinError(b.linkedinId).None?
      && PortfolioError(b.portfolio, plat).None? && RegisteredAtError(b.registeredAt, plat).None?
      && StatusError(b.status).None?
    ensures |errs| <= 9
  {
    Msg(EventIdError(b.eventId, plat)) + Msg(NameError(b.name)) + Msg(EmailError(b.email)) + Msg(PhoneError(b.phone))
    + Msg(GithubError(b.githubAccount)) + Msg(LinkedinError(b.linkedinId)) + Msg(PortfolioError(b.portfolio, plat))
    + Msg(RegisteredAtError(b.registeredAt, plat)) + Msg(StatusError(b.status))
  }

  /** A stored registration: every validator holds of it, and `email` is
      trimmed and lower-cased. */
  predicate Conforms(r: Registration, plat: Platform) {
    && plat.isObjectId(r.eventId)
    && r.name != "" && Trimmed(r.name)
    && r.email != "" && SimpleEmail(r.email) && Trimmed(r.email) && IsLower(r.email)
    && TenDigits(r.phone)
    && (r.githubAccount.Some? ==>
          Trimmed(r.githubAccount.value) && (r.githubAccount.value == "" || StartsWith(r.githubAccount.value, "https://github.com/")))
    && Trimmed(r.linkedinId)
    && (StartsWith(r.linkedinId, "https://www.linkedin.com/") || StartsWith(r.linkedinId, "https://linkedin.com/"))
    && (r.portfolio.Some? ==> Trimmed(r.portfolio.value) && (r.portfolio.value == "" || plat.isUrl(r.portfolio.value)))
    && r.status in Statuses
  }

  /** `registeredAt` as sent, cast to a date, or the current time. */
  function RegisteredAtOf(v: Json, plat: Platform, now: Time): Time
    requires RegisteredAtError(v, plat).None?
  {
    if v.Missing? || v.Null? then now else plat.parseDate(v).value
  }

  /** The document `new Registration(req.body)` holds: setters applied,
      `status` defaulting to 'pending', `registeredAt` as sent or the current
      time, and both timestamps at the current time. */
  function NewRegistration(b: RegistrationBody, plat: Platform, now: Time): Registration
    requires ValidationErrors(b, plat) == []
  {
    Registration(
      b.eventId.s,
      TrimmedPath(b.name).value,
      Normalise(CastString(b.email).value),
      TrimmedPath(b.phone).value,
      TrimmedPath(b.githubAccount),
      TrimmedPath(b.linkedinId).value,
      TrimmedPath(b.portfolio),
      RegisteredAtOf(b.registeredAt, plat, now),
      if CastString(b.status).Some? then CastString(b.status).value else "pending",
      now,
      now)
  }

  /** A body that passes validation yields a conforming document whose e-mail
      is the normalised one sent, whose status is the one sent or 'pending',
      and whose `registeredAt` is the date sent or, without one, now. */
  lemma NewRegistrationConforms(b: RegistrationBody, plat: Platform, now: Time)
    requires ValidationErrors(b, plat) == []
    ensures var r := NewRegistration(b, plat, now);
      && Conforms(r, plat)
      && r.email == Normalise(CastString(b.email).value)
      && r.status == (if CastString(b.status).Some? then CastString(b.status).value else "pending")
      && r.registeredAt == (if b.registeredAt.Missing? || b.registeredAt.Null? then now else plat.parseDate(b.registeredAt).value)
      && r.createdAt == now && r.updatedAt == now
  {
    assert EventIdError(b.eventId, plat).None? && NameError(b.name).None? && EmailError(b.email).None?;
    assert PhoneError(b.phone).None? && GithubError(b.githubAccount).None? && LinkedinError(b.linkedinId).None?;
    assert PortfolioError(b.portfolio, plat).None? && StatusError(b.status).None?;
    assert RegisteredAtError(b.registeredAt, plat).None?;
    var r := NewRegistration(b, plat, now);
    NormaliseIsNormal(CastString(b.email).value);
    assert r.email != "" && SimpleEmail(r.email) && Trimmed(r.email) && IsLower(r.email);
    assert r.name != "" && Trimmed(r.name);
    assert Trimmed(r.linkedinId) && TenDigits(r.phone);
    assert r.githubAccount.Some? ==> Trimmed(r.githubAccount.value);
    assert r.portfolio.Some? ==> Trimmed(r.portfolio.value);
  }

  /** The pre-save hook for a new document: the event must exist and its date
      must not be earlier than now (an event on this very instant is still
      open). It reads only the event's existence and date. */
  function HookError(events: map<string, Event>, eventId: string, now: Time): (r: Option<string>)
    ensures r.None? <==> eventId in events && events[eventId].date >= now
    ensures eventId !in events ==> r == Some("Event not found")
    ensures eventId in events && events[eventId].date < now ==> r == Some("Registration is closed for past events")
  {
    if eventId !in events then Some("Event not found")
    else if events[eventId].date < now then Some("Registration is closed for past events")
    else None
  }
}
