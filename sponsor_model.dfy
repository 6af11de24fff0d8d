/** models/Sponsor.js: a sponsor document and the checks its schema makes when
    a new document is saved. */
module SponsorModel {
  import opened Common

  datatype Sponsor = Sponsor(
    name: string,
    email: string,
    company: string,
    phone: string,
    jobTitle: Option<string>,
    package: string,
    message: Option<string>,
    additionalOptions: seq<string>,
    status: string,
    createdAt: Time)

  const Packages: seq<string> := ["Gold", "Silver", "Bronze", "Community"]

  const Statuses: seq<string> := ["pending", "approved", "rejected"]

  /** The members of a request body the schema keeps. */
  datatype SponsorBody = SponsorBody(
    name: Json,
    email: Json,
    company: Json,
    phone: Json,
    jobTitle: Json,
    package: Json,
    message: Json,
    additionalOptions: seq<string>,
    status: Json)

  /** The paths that carry a validator, in schema order. */
  datatype Path = Name | Email | Company | Phone | Package | Status

  /** The validator a path fails: `required`, or its `match` or `enum`. */
  datatype Failure = Required | Mismatch

  /** `required` on a trimmed path. */
  function RequiredCheck(v: Json): (r: Option<Failure>)
    ensures r.None? <==> !Blank(v)
  {
    if Blank(v) then Some(Required) else None
  }

  /** `email`: required, then the word-based pattern, on the trimmed and
      lower-cased value. */
  function EmailCheck(v: Json, plat: Platform): (r: Option<Failure>)
    ensures r.None? <==> NormalisedPath(v).Some? && NormalisedPath(v).value != "" && plat.wordEmail(NormalisedPath(v).value)
  {
    if NormalisedPath(v).None? || NormalisedPath(v).value == "" then Some(Required)
    else if !plat.wordEmail(NormalisedPath(v).value) then Some(Mismatch)
    else None
  }

  /** `package`: required, then the enumeration, compared exactly (the path
      has no setter). */
  function PackageCheck(v: Json): (r: Option<Failure>)
    ensures r.None? <==> CastString(v).Some? && CastString(v).value in Packages
  {
    NoEmptyPackage();
    if CastString(v).None? || CastString(v).value == "" then Some(Required)
    else if CastString(v).value !in Packages then Some(Mismatch)
    else None
  }

  /** `status`: only the enumeration, which an absent value skips. */
  function StatusCheck(v: Json): (r: Option<Failure>)
    ensures r.None? <==> CastString(v).None? || CastString(v).value in Statuses
    ensures r != Some(Required)
  {
    if CastString(v).None? || CastString(v).value in Statuses then None else Some(Mismatch)
  }

  function Check(b: SponsorBody, plat: Platform, p: Path): Option<Failure> {
    match p
    case Name => RequiredCheck(b.name)
    case Email => EmailCheck(b.email, plat)
    case Company => RequiredCheck(b.company)
    case Phone => RequiredCheck(b.phone)
    case Package => PackageCheck(b.package)
    case Status => StatusCheck(b.status)
  }

  /** `[p]` when the check of `p` failed. */
  function Flag(o: Option<Failure>, p: Path): (r: seq<Path>)
    ensures r == [] <==> o.None?
    ensures forall q :: q in r <==> o.Some? && q == p
  {
    if o.Some? then [p] else []
  }

  /** The paths of the ValidationError a save raises, in schema order. */
  function Violations(b: SponsorBody, plat: Platform): (r: seq<Path>)
    ensures |r| <= 6
  {
    Flag(RequiredCheck(b.name), Name) + Flag(EmailCheck(b.email, plat), Email) + Flag(RequiredCheck(b.company), Company)
    + Flag(RequiredCheck(b.phone), Phone) + Flag(PackageCheck(b.package), Package) + Flag(StatusCheck(b.status), Status)
  }

  /** A path is reported exactly when its check fails. */
  lemma ViolationsListFailingPaths(b: SponsorBody, plat: Platform, p: Path)
    ensures p in Violations(b, plat) <==> Check(b, plat, p).Some?
  {
    var n, e, c := Flag(RequiredCheck(b.name), Name), Flag(EmailCheck(b.email, plat), Email), Flag(RequiredCheck(b.company), Company);
    var ph, pk, st := Flag(RequiredCheck(b.phone), Phone), Flag(PackageCheck(b.package), Package), Flag(StatusCheck(b.status), Status);
    assert Violations(b, plat) == n + e + c + ph + pk + st;
    assert p in Violations(b, plat) <==> p in n || p in e || p in c || p in ph || p in pk || p in st;
  }

  /** The body saves exactly when name, company and phone are non-blank once
      trimmed, the normalised e-mail is non-empty and matches the word-based
      pattern, the package is one of the four names, and the status is absent
      or one of the three values. */
  lemma ViolationsEmpty(b: SponsorBody, plat: Platform)
    ensures Violations(b, plat) == [] <==>
      && !Blank(b.name) && !Blank(b.company) && !Blank(b.phone)
      && NormalisedPath(b.email).Some? && NormalisedPath(b.email).value != ""
      && plat.wordEmail(NormalisedPath(b.email).value)
      && CastString(b.package).Some? && CastString(b.package).value in Packages
      && (CastString(b.status).None? || CastString(b.status).value in Statuses)
  {
  }

  lemma NoEmptyPackage()
    ensures "" !in Packages
  {
  }

  /** A stored sponsor: the schema's constraints hold of it. */
  predicate Conforms(s: Sponsor, plat: Platform) {
    && s.name != "" && Trimmed(s.name)
    && s.email != "" && Trimmed(s.email) && IsLower(s.email) && plat.wordEmail(s.email)
    && s.company != "" && Trimmed(s.company)
    && s.phone != "" && Trimmed(s.phone)
    && (s.jobTitle.Some? ==> Trimmed(s.jobTitle.value))
    && (s.message.Some? ==> Trimmed(s.message.value))
    && s.package in Packages
    && s.status in Statuses
  }

  /** The document `new Sponsor(body)` holds: setters applied, `status`
      defaulting to 'pending' and `createdAt` to the current time. */
  function NewSponsor(b: SponsorBody, plat: Platform, now: Time): Sponsor
    requires Violations(b, plat) == []
  {
    ViolationsEmpty(b, plat);
    Sponsor(
      TrimmedPath(b.name).value,
      NormalisedPath(b.email).value,
      TrimmedPath(b.company).value,
      TrimmedPath(b.phone).value,
      TrimmedPath(b.jobTitle),
      CastString(b.package).value,
      TrimmedPath(b.message),
      b.additionalOptions,
      if CastString(b.status).Some? then CastString(b.status).value else "pending",
      now)
  }

  /** A body that passes validation yields a conforming document, pending
      unless a status was sent, stamped with the current time. */
  lemma NewSponsorConforms(b: SponsorBody, plat: Platform, now: Time)
    requires Violations(b, plat) == []
    ensures var s := NewSponsor(b, plat, now);
      && Conforms(s, plat)
      && (b.status.Missing? ==> s.status == "pending")
      && s.createdAt == now
  {
    ViolationsEmpty(b, plat);
    NormaliseIsNormal(CastString(b.email).value);
  }

  /** An upper-case package name is refused: the enumeration is compared
      exactly. */
  lemma UpperCasePackageRefused(b: SponsorBody, plat: Platform)
    ensures b.package == Str("GOLD") ==> Check(b, plat, Package) == Some(Mismatch)
    ensures b.package == Str("Gold") ==> Check(b, plat, Package).None?
  {
  }
}
