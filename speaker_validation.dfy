/** middleware/validateSubmission.js: the Joi schema for a speaker proposal and
    the middleware that validates the whole body with `abortEarly: false`,
    answering 400 with every error or letting the request through. */
module SpeakerValidation {
  import opened Common

  /** The body as Joi sees it: the eight keys the schema knows, and the names
      of any other keys, in the order they appear. */
  datatype SpeakerBody = SpeakerBody(
    fullName: Json,
    email: Json,
    organization: Json,
    talkTitle: Json,
    talkType: Json,
    talkDescription: Json,
    previousSpeakingExperience: Json,
    termsAccepted: Json,
    unknownKeys: seq<string>)

  /** The schema's keys, in schema order. */
  datatype Key = FullName | Email | Organization | TalkTitle | TalkType | TalkDescription
               | PreviousSpeakingExperience | TermsAccepted

  /** The Joi error codes these keys can produce. */
  datatype Issue =
    | AnyRequired      // any.required: the key is absent
    | StringBase       // string.base: present but not a string
    | StringEmpty      // string.empty: the empty string
    | StringMin        // string.min
    | StringMax        // string.max
    | StringEmail      // string.email
    | AnyOnly          // any.only: not one of the allowed values
    | BooleanBase      // boolean.base: not a boolean, even after conversion

  /** One entry of `error.details`: a failing key, or a key the schema does
      not know (object.unknown). */
  datatype Detail = KeyError(key: Key, issue: Issue) | UnknownKey(name: string)

  const TalkTypes: seq<string> := ["technical", "casestudy", "workshop", "lightning"]

  const FullNameMin := 2
  const FullNameMax := 100
  const OrganizationMax := 200
  const TalkTitleMin := 5
  const TalkTitleMax := 200
  const DescriptionMin := 50
  const DescriptionMax := 2000

  /** `Joi.string().min(min).max(max).required()`: no trimming, and the empty
      string is refused before the length rules run. */
  function StringRule(v: Json, min: nat, max: nat): (r: Option<Issue>)
    ensures r.None? <==> v.Str? && v.s != "" && min <= |v.s| <= max
  {
    match v
    case Missing => Some(AnyRequired)
    case Str(s) =>
      if s == "" then Some(StringEmpty)
      else if |s| < min then Some(StringMin)
      else if |s| > max then Some(StringMax)
      else None
    case _ => Some(StringBase)
  }

  /** `Joi.string().email({ tlds: { allow: false } }).required()`. */
  function EmailRule(v: Json, plat: Platform): (r: Option<Issue>)
    ensures r.None? <==> v.Str? && v.s != "" && plat.joiEmail(v.s)
  {
    match v
    case Missing => Some(AnyRequired)
    case Str(s) =>
      if s == "" then Some(StringEmpty)
      else if !plat.joiEmail(s) then Some(StringEmail)
      else None
    case _ => Some(StringBase)
  }

  /** `valid(...)` is checked before the type: any present value outside the
      list fails with any.only and, since the validation does not abort
      early, then goes through the type check, which adds string.base for a
      value that is not a string and string.empty for ''. */
  function TalkTypeRule(v: Json): (r: seq<Issue>)
    ensures r == [] <==> v.Str? && v.s in TalkTypes
    ensures v.Missing? ==> r == [AnyRequired]
    ensures !v.Missing? && r != [] ==> r[0] == AnyOnly
    ensures |r| == 2 <==> !v.Missing? && !(v.Str? && v.s != "")
    ensures |r| == 2 ==> r[1] == if v.Str? then StringEmpty else StringBase
  {
    if v.Missing? then [AnyRequired]
    else if v.Str? && v.s in TalkTypes then []
    else if !v.Str? then [AnyOnly, StringBase]
    else if v.s == "" then [AnyOnly, StringEmpty]
    else [AnyOnly]
  }

  /** Joi's boolean conversion: a boolean, or the string 'true' or 'false'
      in any case. */
  function JoiBoolean(v: Json): Option<bool> {
    match v
    case Bool(b) => Some(b)
    case Str(s) =>
      if Lower(s) == "true" then Some(true) else if Lower(s) == "false" then Some(false) else None
    case _ => None
  }

  /** `Joi.boolean().default(false)`: optional, but a boolean when present. */
  function ExperienceRule(v: Json): (r: Option<Issue>)
    ensures r.None? <==> v.Missing? || JoiBoolean(v).Some?
  {
    if v.Missing? || JoiBoolean(v).Some? then None else Some(BooleanBase)
  }

  /** `Joi.boolean().valid(true).required()`: only `true`, after conversion.
      Any other present value fails with any.only and, when it does not
      convert to a boolean at all, with boolean.base after it. */
  function TermsRule(v: Json): (r: seq<Issue>)
    ensures r == [] <==> JoiBoolean(v) == Some(true)
    ensures v.Missing? ==> r == [AnyRequired]
    ensures !v.Missing? && r != [] ==> r[0] == AnyOnly
    ensures |r| == 2 <==> !v.Missing? && JoiBoolean(v).None?
    ensures |r| == 2 ==> r[1] == BooleanBase
  {
    if v.Missing? then [AnyRequired]
    else if JoiBoolean(v) == Some(true) then []
    else if JoiBoolean(v).None? then [AnyOnly, BooleanBase]
    else [AnyOnly]
  }

  /** The issue of a rule that stops at its first failure, as a list. */
  function Single(o: Option<Issue>): (r: seq<Issue>)
    ensures r == [] <==> o.None?
  {
    if o.Some? then [o.value] else []
  }

  /** The issues of key `k`, in the order Joi records them. */
  function Rule(b: SpeakerBody, plat: Platform, k: Key): seq<Issue> {
    match k
    case FullName => Single(StringRule(b.fullName, FullNameMin, FullNameMax))
    case Email => Single(EmailRule(b.email, plat))
    case Organization => Single(StringRule(b.organization, 0, OrganizationMax))
    case TalkTitle => Single(StringRule(b.talkTitle, TalkTitleMin, TalkTitleMax))
    case TalkType => TalkTypeRule(b.talkType)
    case TalkDescription => Single(StringRule(b.talkDescription, DescriptionMin, DescriptionMax))
    case PreviousSpeakingExperience => Single(ExperienceRule(b.previousSpeakingExperience))
    case TermsAccepted => TermsRule(b.termsAccepted)
  }

  /** The details of key `k` for its issues, in order. */
  function Flag(issues: seq<Issue>, k: Key): (r: seq<Detail>)
    ensures |r| == |issues|
    ensures forall i :: 0 <= i < |r| ==> r[i] == KeyError(k, issues[i])
  {
    seq(|issues|, i requires 0 <= i < |issues| => KeyError(k, issues[i]))
  }

  /** The details `Flag` lists are those of its issues. */
  lemma InFlag(issues: seq<Issue>, k: Key, d: Detail)
    ensures d in Flag(issues, k) <==> d.KeyError? && d.key == k && d.issue in issues
  {
    if d.KeyError? && d.key == k && d.issue in issues {
      var i :| 0 <= i < |issues| && issues[i] == d.issue;
      assert Flag(issues, k)[i] == d;
    }
  }

  function Unknown(names: seq<string>): (r: seq<Detail>)
    ensures |r| == |names|
    ensures forall k :: 0 <= k < |r| ==> r[k] == UnknownKey(names[k])
  {
    seq(|names|, k requires 0 <= k < |names| => UnknownKey(names[k]))
  }

  /** `error.details` with `abortEarly: false`: every key's error in schema
      order, then one per unknown key. */
  function Details(b: SpeakerBody, plat: Platform): (r: seq<Detail>)
    ensures |r| <= 10 + |b.unknownKeys|
  {
    Flag(Rule(b, plat, FullName), FullName) + Flag(Rule(b, plat, Email), Email)
    + Flag(Rule(b, plat, Organization), Organization) + Flag(Rule(b, plat, TalkTitle), TalkTitle)
    + Flag(Rule(b, plat, TalkType), TalkType) + Flag(Rule(b, plat, TalkDescription), TalkDescription)
    + Flag(Rule(b, plat, PreviousSpeakingExperience), PreviousSpeakingExperience)
    + Flag(Rule(b, plat, TermsAccepted), TermsAccepted)
    + Unknown(b.unknownKeys)
  }

  /** Every failure is collected: a key is reported with each issue its
      rule records, and with no other, and every unknown key is reported. */
  lemma DetailsCollectEveryFailure(b: SpeakerBody, plat: Platform, d: Detail)
    ensures d.KeyError? ==> (d in Details(b, plat) <==> d.issue in Rule(b, plat, d.key))
    ensures d.UnknownKey? ==> (d in Details(b, plat) <==> d.name in b.unknownKeys)
  {
    var f, e, o := Flag(Rule(b, plat, FullName), FullName), Flag(Rule(b, plat, Email), Email),
      Flag(Rule(b, plat, Organization), Organization);
    var t, ty := Flag(Rule(b, plat, TalkTitle), TalkTitle), Flag(Rule(b, plat, TalkType), TalkType);
    var de := Flag(Rule(b, plat, TalkDescription), TalkDescription);
    var p, a := Flag(Rule(b, plat, PreviousSpeakingExperience), PreviousSpeakingExperience),
      Flag(Rule(b, plat, TermsAccepted), TermsAccepted);
    var u := Unknown(b.unknownKeys);
    assert Details(b, plat) == f + e + o + t + ty + de + p + a + u;
    assert d in Details(b, plat) <==> d in f || d in e || d in o || d in t || d in ty || d in de || d in p || d in a || d in u;
    InFlag(Rule(b, plat, FullName), FullName, d);
    InFlag(Rule(b, plat, Email), Email, d);
    InFlag(Rule(b, plat, Organization), Organization, d);
    InFlag(Rule(b, plat, TalkTitle), TalkTitle, d);
    InFlag(Rule(b, plat, TalkType), TalkType, d);
    InFlag(Rule(b, plat, TalkDescription), TalkDescription, d);
    InFlag(Rule(b, plat, PreviousSpeakingExperience), PreviousSpeakingExperience, d);
    InFlag(Rule(b, plat, TermsAccepted), TermsAccepted, d);
    if d.UnknownKey? {
      assert d in u <==> d.name in b.unknownKeys by {
        if d.name in b.unknownKeys {
          var k :| 0 <= k < |b.unknownKeys| && b.unknownKeys[k] == d.name;
          assert u[k] == d;
        }
      }
    } else {
      assert d !in u;
    }
  }

  /** The request proceeds exactly when the body has no unknown key and:
      the full name has 2 to 100 characters, the organization 1 to 200, the
      title 5 to 200 and the description 50 to 2000 (counted untrimmed); the
      e-mail is accepted by Joi; the talk type is one of the four; the
      experience flag is absent or a boolean; and the terms are `true`. */
  lemma ProceedsExactlyWhenValid(b: SpeakerBody, plat: Platform)
    ensures Details(b, plat) == [] <==>
      && b.unknownKeys == []
      && b.fullName.Str? && FullNameMin <= |b.fullName.s| <= FullNameMax
      && b.email.Str? && b.email.s != "" && plat.joiEmail(b.email.s)
      && b.organization.Str? && 1 <= |b.organization.s| <= OrganizationMax
      && b.talkTitle.Str? && TalkTitleMin <= |b.talkTitle.s| <= TalkTitleMax
      && b.talkType.Str? && b.talkType.s in TalkTypes
      && b.talkDescription.Str? && DescriptionMin <= |b.talkDescription.s| <= DescriptionMax
      && (b.previousSpeakingExperience.Missing? || JoiBoolean(b.previousSpeakingExperience).Some?)
      && JoiBoolean(b.termsAccepted) == Some(true)
  {
  }

  function KeyName(k: Key): string {
    match k
    case FullName => "fullName"
    case Email => "email"
    case Organization => "organization"
    case TalkTitle => "talkTitle"
    case TalkType => "talkType"
    case TalkDescription => "talkDescription"
    case PreviousSpeakingExperience => "previousSpeakingExperience"
    case TermsAccepted => "termsAccepted"
  }

  /** The schema's own message for the codes it overrides, Joi's default
      message, quoting the key, for the others. */
  function MessageOf(d: Detail): string {
    match d
    case UnknownKey(name) => "\"" + name + "\" is not allowed"
    case KeyError(k, issue) =>
      match (k, issue)
      case (FullName, StringEmpty) => "Full name is required"
      case (FullName, StringMin) => "Full name must be at least 2 characters long"
      case (FullName, StringMax) => "Full name cannot exceed 100 characters"
      case (Email, StringEmpty) => "Email is required"
      case (Email, StringEmail) => "Please enter a valid email address"
      case (Organization, StringEmpty) => "Organization is required"
      case (Organization, StringMax) => "Organization name cannot exceed 200 characters"
      case (TalkTitle, StringEmpty) => "Talk title is required"
      case (TalkTitle, StringMin) => "Talk title must be at least 5 characters long"
      case (TalkTitle, StringMax) => "Talk title cannot exceed 200 characters"
      case (TalkType, AnyOnly) => "Invalid talk type selected"
      case (TalkDescription, StringEmpty) => "Talk description is required"
      case (TalkDescription, StringMin) => "Talk description must be at least 50 characters long"
      case (TalkDescription, StringMax) => "Talk description cannot exceed 2000 characters"
      case (TermsAccepted, AnyOnly) => "Terms and conditions must be accepted"
      case (_, AnyRequired) => "\"" + KeyName(k) + "\" is required"
      case (_, StringEmpty) => "\"" + KeyName(k) + "\" is not allowed to be empty"
      case (_, StringBase) => "\"" + KeyName(k) + "\" must be a string"
      case (_, BooleanBase) => "\"" + KeyName(k) + "\" must be a boolean"
      case _ => "\"" + KeyName(k) + "\" is invalid"
  }

  /** `detail.path[0]`: the key the error is about. */
  function FieldOf(d: Detail): string {
    match d
    case UnknownKey(name) => name
    case KeyError(k, _) => KeyName(k)
  }

  datatype Verdict = Proceed | Rejected(errors: seq<FieldError>)

  /** The middleware: 400 with `{ field, message }` for every detail, or
      `next()`. */
  function Validate(b: SpeakerBody, plat: Platform): (v: Verdict)
    ensures v.Proceed? <==> Details(b, plat) == []
    ensures v.Rejected? ==> |v.errors| == |Details(b, plat)|
    ensures v.Rejected? ==> forall k :: 0 <= k < |v.errors| ==>
      v.errors[k] == FieldError(FieldOf(Details(b, plat)[k]), MessageOf(Details(b, plat)[k]))
  {
    var ds := Details(b, plat);
    if ds == [] then Proceed
    else Rejected(seq(|ds|, k requires 0 <= k < |ds| => FieldError(FieldOf(ds[k]), MessageOf(ds[k]))))
  }

  /** A value outside `valid(...)` that also fails the type check is reported
      twice: an empty talk type with any.only and string.empty, and terms of
      'on' with any.only and boolean.base. */
  lemma TypeCheckFollowsAnyOnly(b: SpeakerBody, plat: Platform)
    ensures b.talkType == Str("") ==>
      KeyError(TalkType, AnyOnly) in Details(b, plat) && KeyError(TalkType, StringEmpty) in Details(b, plat)
    ensures b.termsAccepted == Str("on") ==>
      KeyError(TermsAccepted, AnyOnly) in Details(b, plat) && KeyError(TermsAccepted, BooleanBase) in Details(b, plat)
  {
    DetailsCollectEveryFailure(b, plat, KeyError(TalkType, AnyOnly));
    DetailsCollectEveryFailure(b, plat, KeyError(TalkType, StringEmpty));
    DetailsCollectEveryFailure(b, plat, KeyError(TermsAccepted, AnyOnly));
    DetailsCollectEveryFailure(b, plat, KeyError(TermsAccepted, BooleanBase));
    if b.termsAccepted == Str("on") {
      assert Lower("on") == "on";
      assert JoiBoolean(b.termsAccepted).None?;
    }
  }

  /** Lengths are counted before any trimming: two blanks make a full name
      long enough, and a one-character name is too short. */
  lemma LengthsAreUntrimmed()
    ensures StringRule(Str("  "), FullNameMin, FullNameMax).None?
    ensures StringRule(Str("A"), FullNameMin, FullNameMax) == Some(StringMin)
  {
  }
}
