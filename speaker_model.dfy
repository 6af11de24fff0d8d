/** models/SpeakerSubmission.js: a speaker proposal as stored, the checks its
    schema makes on save, and the pre-save hook that stamps `lastUpdated`. */
module SpeakerModel {
  import opened Common
  import SpeakerValidation

  datatype SpeakerSubmission = SpeakerSubmission(
    fullName: string,
    email: string,
    organization: string,
    talkTitle: string,
    talkType: string,
    talkDescription: string,
    previousSpeakingExperience: bool,
    submittedAt: Time,
    speakerBio: Option<string>,
    linkedin: Option<string>,
    twitter: Option<string>,
    github: Option<string>,
    preferredTimeSlot: string,
    additionalNotes: Option<string>,
    adminNotes: Option<string>,
    lastUpdated: Time,
    createdAt: Time,
    updatedAt: Time)

  const TalkTypes: seq<string> := ["technical", "casestudy", "workshop", "lightning"]
  const TimeSlots: seq<string> := ["morning", "afternoon", "evening", "any"]

  const FullNameMax := 100
  const OrganizationMax := 100
  const TalkTitleMax := 200
  const DescriptionMin := 50
  const DescriptionMax := 1000
  const BioMax := 500
  const NotesMax := 500
  const AdminNotesMax := 1000

  /** The members `new SpeakerSubmission(body)` is given. */
  datatype SpeakerDoc = SpeakerDoc(
    fullName: Json,
    email: Json,
    organization: Json,
    talkTitle: Json,
    talkType: Json,
    talkDescription: Json,
    previousSpeakingExperience: Json,
    speakerBio: Json,
    linkedin: Json,
    twitter: Json,
    github: Json,
    preferredTimeSlot: Json,
    additionalNotes: Json,
    adminNotes: Json)

  /** The paths that carry a validator, in schema order. */
  datatype Path = FullName | Email | Organization | TalkTitle | TalkType | TalkDescription
                | PreviousSpeakingExperience | SpeakerBio | PreferredTimeSlot | AdditionalNotes | AdminNotes

  datatype Failure = Required | TooShort | TooLong | Mismatch | NotInEnum | CastFailed

  datatype Violation = Violation(path: Path, failure: Failure)

  /** A required, trimmed path with length bounds. */
  function BoundedRequired(v: Json, min: nat, max: nat): (r: Option<Failure>)
    ensures r.None? <==> !Blank(v) && min <= |TrimmedPath(v).value| <= max
  {
    if Blank(v) then Some(Required)
    else if |TrimmedPath(v).value| < min then Some(TooShort)
    else if |TrimmedPath(v).value| > max then Some(TooLong)
    else None
  }

  /** An optional, trimmed path with a length cap. */
  function BoundedOptional(v: Json, max: nat): (r: Option<Failure>)
    ensures r.None? <==> TrimmedPath(v).None? || |TrimmedPath(v).value| <= max
  {
    if TrimmedPath(v).Some? && |TrimmedPath(v).value| > max then Some(TooLong) else None
  }

  function EmailCheck(v: Json): (r: Option<Failure>)
    ensures r.None? <==> NormalisedPath(v).Some? && NormalisedPath(v).value != "" && SimpleEmail(NormalisedPath(v).value)
  {
    if NormalisedPath(v).None? || NormalisedPath(v).value == "" then Some(Required)
    else if !SimpleEmail(NormalisedPath(v).value) then Some(Mismatch)
    else None
  }

  lemma NoEmptyTalkType()
    ensures "" !in TalkTypes
  {
  }

  function TalkTypeCheck(v: Json): (r: Option<Failure>)
    ensures r.None? <==> CastString(v).Some? && CastString(v).value in TalkTypes
  {
    NoEmptyTalkType();
    if CastString(v).None? || CastString(v).value == "" then Some(Required)
    else if CastString(v).value !in TalkTypes then Some(NotInEnum)
    else None
  }

  /** An enumerated path without `required`: absent passes (the default
      applies), anything else must be listed. */
  function SlotCheck(v: Json): (r: Option<Failure>)
    ensures r.None? <==> CastString(v).None? || CastString(v).value in TimeSlots
  {
    if CastString(v).None? || CastString(v).value in TimeSlots then None else Some(NotInEnum)
  }

  /** Mongoose's Boolean cast: true, 'true', 1, '1', 'yes' and false,
      'false', 0, '0', 'no'; any other value fails to cast. */
  function CastBoolean(v: Json): Option<bool> {
    match v
    case Bool(b) => Some(b)
    case Num(n) => if n == 1 then Some(true) else if n == 0 then Some(false) else None
    case Str(s) =>
      if s == "true" || s == "1" || s == "yes" then Some(true)
      else if s == "false" || s == "0" || s == "no" then Some(false)
      else None
    case _ => None
  }

  function ExperienceCheck(v: Json): (r: Option<Failure>)
    ensures r.None? <==> v.Missing? || v.Null? || CastBoolean(v).Some?
  {
    if v.Missing? || v.Null? || CastBoolean(v).Some? then None else Some(CastFailed)
  }

  function Check(d: SpeakerDoc, p: Path): Option<Failure> {
    match p
    case FullName => BoundedRequired(d.fullName, 0, FullNameMax)
    case Email => EmailCheck(d.email)
    case Organization => BoundedRequired(d.organization, 0, OrganizationMax)
    case TalkTitle => BoundedRequired(d.talkTitle, 0, TalkTitleMax)
    case TalkType => TalkTypeCheck(d.talkType)
    case TalkDescription => BoundedRequired(d.talkDescription, DescriptionMin, DescriptionMax)
    case PreviousSpeakingExperience => ExperienceCheck(d.previousSpeakingExperience)
    case SpeakerBio => BoundedOptional(d.speakerBio, BioMax)
    case PreferredTimeSlot => SlotCheck(d.preferredTimeSlot)
    case AdditionalNotes => BoundedOptional(d.additionalNotes, NotesMax)
    case AdminNotes => BoundedOptional(d.adminNotes, AdminNotesMax)
  }

  function Flag(o: Option<Failure>, p: Path): (r: seq<Violation>)
    ensures r == [] <==> o.None?
    ensures forall x :: x in r <==> o.Some? && x == Violation(p, o.value)
  {
    if o.Some? then [Violation(p, o.value)] else []
  }

  /** The errors of the ValidationError a save raises, in schema order. */
  function Violations(d: SpeakerDoc): (r: seq<Violation>)
    ensures |r| <= 11
  {
    Flag(BoundedRequired(d.fullName, 0, FullNameMax), FullName) + Flag(EmailCheck(d.email), Email)
    + Flag(BoundedRequired(d.organization, 0, OrganizationMax), Organization)
    + Flag(BoundedRequired(d.talkTitle, 0, TalkTitleMax), TalkTitle)
    + Flag(TalkTypeCheck(d.talkType), TalkType)
    + Flag(BoundedRequired(d.talkDescription, DescriptionMin, DescriptionMax), TalkDescription)
    + Flag(ExperienceCheck(d.previousSpeakingExperience), PreviousSpeakingExperience)
    + Flag(BoundedOptional(d.speakerBio, BioMax), SpeakerBio)
    + Flag(SlotCheck(d.preferredTimeSlot), PreferredTimeSlot)
    + Flag(BoundedOptional(d.additionalNotes, NotesMax), AdditionalNotes)
    + Flag(BoundedOptional(d.adminNotes, AdminNotesMax), AdminNotes)
  }

  /** The document saves exactly when: full name and organization are
      non-blank with at most 100 characters once trimmed, the title non-blank
      with at most 200, the description 50 to 1000; the normalised e-mail
      matches `\S+@\S+\.\S+`; the talk type is one of the four; the experience
      flag casts to a boolean; the bio and notes have at most 500 characters
      and the admin notes at most 1000; the time slot is absent or one of the
      four. */
  lemma ViolationsEmpty(d: SpeakerDoc)
    ensures Violations(d) == [] <==>
      && !Blank(d.fullName) && |TrimmedPath(d.fullName).value| <= FullNameMax
      && NormalisedPath(d.email).Some? && NormalisedPath(d.email).value != "" && SimpleEmail(NormalisedPath(d.email).value)
      && !Blank(d.organization) && |TrimmedPath(d.organization).value| <= OrganizationMax
      && !Blank(d.talkTitle) && |TrimmedPath(d.talkTitle).value| <= TalkTitleMax
      && CastString(d.talkType).Some? && CastString(d.talkType).value in TalkTypes
      && !Blank(d.talkDescription) && DescriptionMin <= |TrimmedPath(d.talkDescription).value| <= DescriptionMax
      && (d.previousSpeakingExperience.Missing? || d.previousSpeakingExperience.Null? || CastBoolean(d.previousSpeakingExperience).Some?)
      && (TrimmedPath(d.speakerBio).None? || |TrimmedPath(d.speakerBio).value| <= BioMax)
      && (CastString(d.preferredTimeSlot).None? || CastString(d.preferredTimeSlot).value in TimeSlots)
      && (TrimmedPath(d.additionalNotes).None? || |TrimmedPath(d.additionalNotes).value| <= NotesMax)
      && (TrimmedPath(d.adminNotes).None? || |TrimmedPath(d.adminNotes).value| <= AdminNotesMax)
  {
  }

  /** A path is reported, with the validator it failed, exactly when its
      check fails. */
  lemma ViolationsListFailingPaths(d: SpeakerDoc, x: Violation)
    ensures x in Violations(d) <==> Check(d, x.path) == Some(x.failure)
  {
    var n, e, o := Flag(BoundedRequired(d.fullName, 0, FullNameMax), FullName), Flag(EmailCheck(d.email), Email),
      Flag(BoundedRequired(d.organization, 0, OrganizationMax), Organization);
    var t, ty := Flag(BoundedRequired(d.talkTitle, 0, TalkTitleMax), TalkTitle), Flag(TalkTypeCheck(d.talkType), TalkType);
    var de := Flag(BoundedRequired(d.talkDescription, DescriptionMin, DescriptionMax), TalkDescription);
    var ex, bio := Flag(ExperienceCheck(d.previousSpeakingExperience), PreviousSpeakingExperience), Flag(BoundedOptional(d.speakerBio, BioMax), SpeakerBio);
    var sl, an := Flag(SlotCheck(d.preferredTimeSlot), PreferredTimeSlot), Flag(BoundedOptional(d.additionalNotes, NotesMax), AdditionalNotes);
    var ad := Flag(BoundedOptional(d.adminNotes, AdminNotesMax), AdminNotes);
    assert Violations(d) == n + e + o + t + ty + de + ex + bio + sl + an + ad;
    assert x in Violations(d) <==>
      x in n || x in e || x in o || x in t || x in ty || x in de || x in ex || x in bio || x in sl || x in an || x in ad;
    match x.path {
      case FullName => assert x in Violations(d) <==> x in n;
      case Email => assert x in Violations(d) <==> x in e;
      case Organization => assert x in Violations(d) <==> x in o;
      case TalkTitle => assert x in Violations(d) <==> x in t;
      case TalkType => assert x in Violations(d) <==> x in ty;
      case TalkDescription => assert x in Violations(d) <==> x in de;
      case PreviousSpeakingExperience => assert x in Violations(d) <==> x in ex;
      case SpeakerBio => assert x in Violations(d) <==> x in bio;
      case PreferredTimeSlot => assert x in Violations(d) <==> x in sl;
      case AdditionalNotes => assert x in Violations(d) <==> x in an;
      case AdminNotes => assert x in Violations(d) <==> x in ad;
    }
  }

  /** A stored proposal: the schema's constraints hold of it. */
  predicate Conforms(s: SpeakerSubmission) {
    && s.fullName != "" && Trimmed(s.fullName) && |s.fullName| <= FullNameMax
    && s.email != "" && Trimmed(s.email) && IsLower(s.email) && SimpleEmail(s.email)
    && s.organization != "" && Trimmed(s.organization) && |s.organization| <= OrganizationMax
    && s.talkTitle != "" && Trimmed(s.talkTitle) && |s.talkTitle| <= TalkTitleMax
    && s.talkType in TalkTypes
    && Trimmed(s.talkDescription) && DescriptionMin <= |s.talkDescription| <= DescriptionMax
    && (s.speakerBio.Some? ==> Trimmed(s.speakerBio.value) && |s.speakerBio.value| <= BioMax)
    && s.preferredTimeSlot in TimeSlots
    && (s.additionalNotes.Some? ==> Trimmed(s.additionalNotes.value) && |s.additionalNotes.value| <= NotesMax)
    && (s.adminNotes.Some? ==> Trimmed(s.adminNotes.value) && |s.adminNotes.value| <= AdminNotesMax)
  }

  /** The document `new SpeakerSubmission(body)` holds: setters applied,
      `previousSpeakingExperience` defaulting to false, `preferredTimeSlot` to
      'any', and every date to the current time. */
  function NewSubmission(d: SpeakerDoc, now: Time): SpeakerSubmission
    requires Violations(d) == []
  {
    ViolationsEmpty(d);
    SpeakerSubmission(
      TrimmedPath(d.fullName).value,
      NormalisedPath(d.email).value,
      TrimmedPath(d.organization).value,
      TrimmedPath(d.talkTitle).value,
      CastString(d.talkType).value,
      TrimmedPath(d.talkDescription).value,
      if CastBoolean(d.previousSpeakingExperience).Some? then CastBoolean(d.previousSpeakingExperience).value else false,
      now,
      TrimmedPath(d.speakerBio),
      CastString(d.linkedin),
      CastString(d.twitter),
      CastString(d.github),
      if CastString(d.preferredTimeSlot).Some? then CastString(d.preferredTimeSlot).value else "any",
      TrimmedPath(d.additionalNotes),
      TrimmedPath(d.adminNotes),
      now,
      now,
      now)
  }

  /** A document that passes validation conforms; its flag is false and its
      slot 'any' when the body leaves them out. */
  lemma NewSubmissionConforms(d: SpeakerDoc, now: Time)
    requires Violations(d) == []
    ensures var s := NewSubmission(d, now);
      && Conforms(s)
      && (d.previousSpeakingExperience.Missing? ==> !s.previousSpeakingExperience)
      && (d.preferredTimeSlot.Missing? ==> s.preferredTimeSlot == "any")
  {
    ViolationsEmpty(d);
    NormaliseIsNormal(CastString(d.email).value);
  }

  /** The pre-save hook: every save sets `lastUpdated` to the current time,
      and changes nothing else. */
  function Saved(s: SpeakerSubmission, now: Time): (r: SpeakerSubmission)
    ensures r.lastUpdated == now
    ensures r.(lastUpdated := s.lastUpdated) == s
  {
    s.(lastUpdated := now)
  }

  /** Saving keeps a document conforming. */
  lemma SavedKeepsConforming(s: SpeakerSubmission, now: Time)
    requires Conforms(s)
    ensures Conforms(Saved(s, now))
  {
  }

  /** A trimmed string is stored as it is: its trimmed path is itself. */
  lemma TrimmedStringPath(s: string)
    requires Trimmed(s)
    ensures TrimmedPath(Str(s)) == Some(s)
  {
    assert CastString(Str(s)) == Some(s);
    TrimmedIsFixpoint(s);
  }

  /** The middleware and the schema bound the description differently: a
      description of 1500 characters passes the middleware and the schema
      refuses it as too long. */
  lemma DescriptionCapsDiffer(s: string)
    requires |s| == 1500 && Trimmed(s)
    ensures SpeakerValidation.StringRule(Str(s), SpeakerValidation.DescriptionMin, SpeakerValidation.DescriptionMax).None?
    ensures BoundedRequired(Str(s), DescriptionMin, DescriptionMax) == Some(TooLong)
  {
    TrimmedStringPath(s);
  }

  /** The middleware allows organizations of up to 200 characters, the schema
      only up to 100. */
  lemma OrganizationCapsDiffer(org: string)
    requires |org| == 150 && Trimmed(org)
    ensures SpeakerValidation.StringRule(Str(org), 0, SpeakerValidation.OrganizationMax).None?
    ensures BoundedRequired(Str(org), 0, OrganizationMax) == Some(TooLong)
  {
    TrimmedStringPath(org);
  }

  /** The middleware counts a blank full name's spaces, while the schema
      trims them away and finds the name missing. */
  lemma BlankNamesDiffer()
    ensures SpeakerValidation.StringRule(Str("   "), SpeakerValidation.FullNameMin, SpeakerValidation.FullNameMax).None?
    ensures BoundedRequired(Str("   "), 0, FullNameMax) == Some(Required)
  {
    assert Trim("   ") == "" by {
      assert IsSpace(' ');
      assert TrimStart("   ") == "";
    }
    assert TrimmedPath(Str("   ")) == Some("");
  }
}
