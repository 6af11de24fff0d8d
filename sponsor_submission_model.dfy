/** models/SponsorSubmission.js: the document the sponsorship form creates, and
    the checks its schema makes when one is created. */
module SponsorSubmissionModel {
  import opened Common

  datatype SponsorSubmission = SponsorSubmission(
    name: string,
    email: string,
    company: string,
    phone: string,
    jobTitle: Option<string>,
    package: string,
    message: Option<string>,
    additionalOptions: seq<string>,
    submittedAt: Time,
    createdAt: Time,
    updatedAt: Time)

  const Packages: seq<string> := ["TITLE", "GOLD", "SILVER", "ASSOCIATE", "IN KIND"]

  const NameMax := 100
  const CompanyMax := 100
  const JobTitleMax := 100
  const MessageMax := 1000

  /** The members `SponsorSubmission.create` is given. */
  datatype SubmissionBody = SubmissionBody(
    name: Json,
    email: Json,
    company: Json,
    phone: Json,
    jobTitle: Json,
    package: Json,
    message: Json,
    additionalOptions: seq<string>)

  /** The paths that carry a validator, in schema order. */
  datatype Path = Name | Email | Company | Phone | JobTitle | Package | Message

  /** The validator a path fails. */
  datatype Failure = Required | TooLong | Mismatch

  datatype Violation = Violation(path: Path, failure: Failure)

  /** A required, trimmed path with a length cap. */
  function BoundedRequired(v: Json, max: nat): (r: Option<Failure>)
    ensures r.None? <==> !Blank(v) && |TrimmedPath(v).value| <= max
  {
    if Blank(v) then Some(Required)
    else if |TrimmedPath(v).value| > max then Some(TooLong)
    else None
  }

  /** An optional, trimmed path with a length cap. */
  function BoundedOptional(v: Json, max: nat): (r: Option<Failure>)
    ensures r.None? <==> TrimmedPath(v).None? || |TrimmedPath(v).value| <= max
    ensures r != Some(Required)
  {
    if TrimmedPath(v).Some? && |TrimmedPath(v).value| > max then Some(TooLong) else None
  }

  /** `email`: required, then `/^\S+@\S+\.\S+$/`, on the trimmed and
      lower-cased value. */
  function EmailCheck(v: Json): (r: Option<Failure>)
    ensures r.None? <==> NormalisedPath(v).Some? && NormalisedPath(v).value != "" && SimpleEmail(NormalisedPath(v).value)
  {
    if NormalisedPath(v).None? || NormalisedPath(v).value == "" then Some(Required)
    else if !SimpleEmail(NormalisedPath(v).value) then Some(Mismatch)
    else None
  }

  /** `phone`: required, then `/^\+?[\d\s-]{10,}$/`, on the trimmed value. */
  function PhoneCheck(v: Json): (r: Option<Failure>)
    ensures r.None? <==> !Blank(v) && PlusPhone(TrimmedPath(v).value)
  {
    if Blank(v) then Some(Required)
    else if !PlusPhone(TrimmedPath(v).value) then Some(Mismatch)
    else None
  }

  lemma NoEmptyPackage()
    ensures "" !in Packages
  {
  }

  /** `package`: required, then the enumeration, compared exactly. */
  function PackageCheck(v: Json): (r: Option<Failure>)
    ensures r.None? <==> CastString(v).Some? && CastString(v).value in Packages
  {
    NoEmptyPackage();
    if CastString(v).None? || CastString(v).value == "" then Some(Required)
    else if CastString(v).value !in Packages then Some(Mismatch)
    else None
  }

  function Check(b: SubmissionBody, p: Path): Option<Failure> {
    match p
    case Name => BoundedRequired(b.name, NameMax)
    case Email => EmailCheck(b.email)
    case Company => BoundedRequired(b.company, CompanyMax)
    case Phone => PhoneCheck(b.phone)
    case JobTitle => BoundedOptional(b.jobTitle, JobTitleMax)
    case Package => PackageCheck(b.package)
    case Message => BoundedOptional(b.message, MessageMax)
  }

  /** The violation of `p`, when its check failed. */
  function Flag(o: Option<Failure>, p: Path): (r: seq<Violation>)
    ensures r == [] <==> o.None?
    ensures forall x :: x in r <==> o.Some? && x == Violation(p, o.value)
  {
    if o.Some? then [Violation(p, o.value)] else []
  }

  /** The errors of the ValidationError `create` raises, in schema order. */
  function Violations(b: SubmissionBody): (r: seq<Violation>)
    ensures |r| <= 7
  {
    Flag(BoundedRequired(b.name, NameMax), Name) + Flag(EmailCheck(b.email), Email)
    + Flag(BoundedRequired(b.company, CompanyMax), Company) + Flag(PhoneCheck(b.phone), Phone)
    + Flag(BoundedOptional(b.jobTitle, JobTitleMax), JobTitle) + Flag(PackageCheck(b.package), Package)
    + Flag(BoundedOptional(b.message, MessageMax), Message)
  }

  /** A path is reported, with the validator it failed, exactly when its
      check fails. */
  lemma ViolationsListFailingPaths(b: SubmissionBody, x: Violation)
    ensures x in Violations(b) <==> Check(b, x.path) == Some(x.failure)
  {
    var n, e, c := Flag(BoundedRequired(b.name, NameMax), Name), Flag(EmailCheck(b.email), Email), Flag(BoundedRequired(b.company, CompanyMax), Company);
    var ph, j := Flag(PhoneCheck(b.phone), Phone), Flag(BoundedOptional(b.jobTitle, JobTitleMax), JobTitle);
    var pk, m := Flag(PackageCheck(b.package), Package), Flag(BoundedOptional(b.message, MessageMax), Message);
    assert Violations(b) == n + e + c + ph + j + pk + m;
    assert x in Violations(b) <==> x in n || x in e || x in c || x in ph || x in j || x in pk || x in m;
    match x.path {
      case Name => assert x in Violations(b) <==> x in n;
      case Email => assert x in Violations(b) <==> x in e;
      case Company => assert x in Violations(b) <==> x in c;
      case Phone => assert x in Violations(b) <==> x in ph;
      case JobTitle => assert x in Violations(b) <==> x in j;
      case Package => assert x in Violations(b) <==> x in pk;
      case Message => assert x in Violations(b) <==> x in m;
    }
  }

  /** The body is stored exactly when: name and company are non-blank and at
      most 100 characters once trimmed; the normalised e-mail is non-empty and
      matches `\S+@\S+\.\S+`; the trimmed phone matches the phone pattern; a
      job title has at most 100 characters and a message at most 1000; and the
      package is one of the five names. */
  lemma ViolationsEmpty(b: SubmissionBody)
    ensures Violations(b) == [] <==>
      && !Blank(b.name) && |TrimmedPath(b.name).value| <= NameMax
      && NormalisedPath(b.email).Some? && NormalisedPath(b.email).value != "" && SimpleEmail(NormalisedPath(b.email).value)
      && !Blank(b.company) && |TrimmedPath(b.company).value| <= CompanyMax
      && !Blank(b.phone) && PlusPhone(TrimmedPath(b.phone).value)
      && (TrimmedPath(b.jobTitle).None? || |TrimmedPath(b.jobTitle).value| <= JobTitleMax)
      && CastString(b.package).Some? && CastString(b.package).value in Packages
      && (TrimmedPath(b.message).None? || |TrimmedPath(b.message).value| <= MessageMax)
  {
  }

  /** The schema's own message for each failed validator. */
  function MessageOf(v: Violation): string {
    match (v.path, v.failure)
    case (Name, Required) => "Name is required"
    case (Name, _) => "Name cannot be more than 100 characters"
    case (Email, Required) => "Email is required"
    case (Email, _) => "Please enter a valid email address"
    case (Company, Required) => "Company name is required"
    case (Company, _) => "Company name cannot be more than 100 characters"
    case (Phone, Required) => "Phone number is required"
    case (Phone, _) => "Please enter a valid phone number"
    case (JobTitle, _) => "Job title cannot be more than 100 characters"
    case (Package, Required) => "Sponsorship package is required"
    case (Package, _) => "Invalid sponsorship package"
    case (Message, _) => "Message cannot be more than 1000 characters"
  }

  function PathName(p: Path): string {
    match p
    case Name => "name"
    case Email => "email"
    case Company => "company"
    case Phone => "phone"
    case JobTitle => "jobTitle"
    case Package => "package"
    case Message => "message"
  }

  /** `{ field: err.path, message: err.message }` for each error. */
  function Render(vs: seq<Violation>): (r: seq<FieldError>)
    ensures |r| == |vs|
    ensures forall k :: 0 <= k < |r| ==> r[k] == FieldError(PathName(vs[k].path), MessageOf(vs[k]))
  {
    seq(|vs|, k requires 0 <= k < |vs| => FieldError(PathName(vs[k].path), MessageOf(vs[k])))
  }

  /** The `errors` of the validation 400: an entry is listed exactly when the
      path it names fails a validator whose message it carries. */
  lemma RenderedErrors(b: SubmissionBody, e: FieldError)
    ensures e in Render(Violations(b)) <==>
      exists p :: PathName(p) == e.field && Check(b, p).Some? && MessageOf(Violation(p, Check(b, p).value)) == e.message
  {
    var vs := Violations(b);
    if e in Render(vs) {
      var k :| 0 <= k < |vs| && Render(vs)[k] == e;
      ViolationsListFailingPaths(b, vs[k]);
      assert PathName(vs[k].path) == e.field && Check(b, vs[k].path) == Some(vs[k].failure);
    }
    if exists p :: PathName(p) == e.field && Check(b, p).Some? && MessageOf(Violation(p, Check(b, p).value)) == e.message {
      var p :| PathName(p) == e.field && Check(b, p).Some? && MessageOf(Violation(p, Check(b, p).value)) == e.message;
      var x := Violation(p, Check(b, p).value);
      ViolationsListFailingPaths(b, x);
      var k :| 0 <= k < |vs| && vs[k] == x;
      assert Render(vs)[k] == e;
    }
  }

  /** A stored submission: the schema's constraints hold of it. */
  predicate Conforms(s: SponsorSubmission) {
    && s.name != "" && Trimmed(s.name) && |s.name| <= NameMax
    && s.email != "" && Trimmed(s.email) && IsLower(s.email) && SimpleEmail(s.email)
    && s.company != "" && Trimmed(s.company) && |s.company| <= CompanyMax
    && Trimmed(s.phone) && PlusPhone(s.phone)
    && (s.jobTitle.Some? ==> Trimmed(s.jobTitle.value) && |s.jobTitle.value| <= JobTitleMax)
    && s.package in Packages
    && (s.message.Some? ==> Trimmed(s.message.value) && |s.message.value| <= MessageMax)
    && (forall k :: 0 <= k < |s.additionalOptions| ==> Trimmed(s.additionalOptions[k]))
  }

  /** Each `additionalOptions` entry after its `trim` setter. */
  function TrimAll(xs: seq<string>): (r: seq<string>)
    ensures |r| == |xs|
    ensures forall k :: 0 <= k < |r| ==> r[k] == Trim(xs[k]) && Trimmed(r[k])
  {
    seq(|xs|, k requires 0 <= k < |xs| => TrimIdempotent(xs[k]); Trim(xs[k]))
  }

  /** The document `create` stores: setters applied, `submittedAt` the time
      the route passes, both timestamps the current time. */
  function NewSubmission(b: SubmissionBody, submittedAt: Time, now: Time): SponsorSubmission
    requires Violations(b) == []
  {
    ViolationsEmpty(b);
    SponsorSubmission(
      TrimmedPath(b.name).value,
      NormalisedPath(b.email).value,
      TrimmedPath(b.company).value,
      TrimmedPath(b.phone).value,
      TrimmedPath(b.jobTitle),
      CastString(b.package).value,
      TrimmedPath(b.message),
      TrimAll(b.additionalOptions),
      submittedAt,
      now,
      now)
  }

  /** A body that passes validation yields a conforming document. */
  lemma NewSubmissionConforms(b: SubmissionBody, submittedAt: Time, now: Time)
    requires Violations(b) == []
    ensures var s := NewSubmission(b, submittedAt, now);
      && Conforms(s)
      && s.email == Normalise(CastString(b.email).value)
      && s.submittedAt == submittedAt && s.createdAt == now && s.updatedAt == now
  {
    ViolationsEmpty(b);
    NormaliseIsNormal(CastString(b.email).value);
  }

  /** The cap is inclusive: a trimmed name of 100 characters passes and one
      of 101 fails as too long. */
  lemma NameCapIsInclusive(b: SubmissionBody, s: string)
    requires s != [] && Trimmed(s)
    ensures b.name == Str(s) && |s| == 100 ==> BoundedRequired(b.name, NameMax).None?
    ensures b.name == Str(s) && |s| == 101 ==> BoundedRequired(b.name, NameMax) == Some(TooLong)
  {
    TrimmedIsFixpoint(s);
  }
}
