/** models/EmailSubmission.js: the interest-form submission and the checks its
    schema makes when one is created. */
module EmailModel {
  import opened Common

  datatype EmailSubmission = EmailSubmission(
    userName: string,
    userEmail: string,
    userInterest: string,
    userNumber: string,
    submittedAt: Time)

  const Interests: seq<string> := ["Volunteer", "Management", "Social Media", "Content Creation", "Design"]

  const NumberMin := 10
  const NumberMax := 15

  /** The members `EmailSubmission.create` is given. */
  datatype EmailBody = EmailBody(userName: Json, userEmail: Json, userInterest: Json, userNumber: Json)

  /** The paths that carry a validator, in schema order. */
  datatype Path = UserName | UserEmail | UserInterest | UserNumber

  /** The validator a path fails; an enumeration failure keeps the value,
      which its message quotes. */
  datatype Failure = Required | Mismatch | NotInEnum(value: string) | TooShort | TooLong

  datatype Violation = Violation(path: Path, failure: Failure)

  /** `userEmail`: required, then the word-based pattern, on the trimmed and
      lower-cased value. */
  function EmailCheck(v: Json, plat: Platform): (r: Option<Failure>)
    ensures r.None? <==> NormalisedPath(v).Some? && NormalisedPath(v).value != "" && plat.wordEmail(NormalisedPath(v).value)
  {
    if NormalisedPath(v).None? || NormalisedPath(v).value == "" then Some(Required)
    else if !plat.wordEmail(NormalisedPath(v).value) then Some(Mismatch)
    else None
  }

  lemma NoEmptyInterest()
    ensures "" !in Interests
  {
  }

  /** `userInterest`: required, then the enumeration, compared exactly. */
  function InterestCheck(v: Json): (r: Option<Failure>)
    ensures r.None? <==> CastString(v).Some? && CastString(v).value in Interests
  {
    NoEmptyInterest();
    if CastString(v).None? || CastString(v).value == "" then Some(Required)
    else if CastString(v).value !in Interests then Some(NotInEnum(CastString(v).value))
    else None
  }

  /** `userNumber`: required, then at least 10 and at most 15 characters,
      counted on the trimmed value. */
  function NumberCheck(v: Json): (r: Option<Failure>)
    ensures r.None? <==> !Blank(v) && NumberMin <= |TrimmedPath(v).value| <= NumberMax
  {
    if Blank(v) then Some(Required)
    else if |TrimmedPath(v).value| < NumberMin then Some(TooShort)
    else if |TrimmedPath(v).value| > NumberMax then Some(TooLong)
    else None
  }

  function Check(b: EmailBody, plat: Platform, p: Path): Option<Failure> {
    match p
    case UserName => if Blank(b.userName) then Some(Required) else None
    case UserEmail => EmailCheck(b.userEmail, plat)
    case UserInterest => InterestCheck(b.userInterest)
    case UserNumber => NumberCheck(b.userNumber)
  }

  function Flag(o: Option<Failure>, p: Path): (r: seq<Violation>)
    ensures r == [] <==> o.None?
    ensures forall x :: x in r <==> o.Some? && x == Violation(p, o.value)
  {
    if o.Some? then [Violation(p, o.value)] else []
  }

  /** The errors of the ValidationError `create` raises, in schema order. */
  function Violations(b: EmailBody, plat: Platform): (r: seq<Violation>)
    ensures |r| <= 4
  {
    Flag(Check(b, plat, UserName), UserName) + Flag(EmailCheck(b.userEmail, plat), UserEmail)
    + Flag(InterestCheck(b.userInterest), UserInterest) + Flag(NumberCheck(b.userNumber), UserNumber)
  }

  /** A path is reported, with the validator it failed, exactly when its
      check fails. */
  lemma ViolationsListFailingPaths(b: EmailBody, plat: Platform, x: Violation)
    ensures x in Violations(b, plat) <==> Check(b, plat, x.path) == Some(x.failure)
  {
    var n, e := Flag(Check(b, plat, UserName), UserName), Flag(EmailCheck(b.userEmail, plat), UserEmail);
    var i, u := Flag(InterestCheck(b.userInterest), UserInterest), Flag(NumberCheck(b.userNumber), UserNumber);
    assert Violations(b, plat) == n + e + i + u;
    assert x in Violations(b, plat) <==> x in n || x in e || x in i || x in u;
    match x.path {
      case UserName => assert x in Violations(b, plat) <==> x in n;
      case UserEmail => assert x in Violations(b, plat) <==> x in e;
      case UserInterest => assert x in Violations(b, plat) <==> x in i;
      case UserNumber => assert x in Violations(b, plat) <==> x in u;
    }
  }

  /** The body is stored exactly when the name is non-blank, the normalised
      e-mail is non-empty and matches the word-based pattern, the interest is
      one of the five areas, and the trimmed number has 10 to 15 characters. */
  lemma ViolationsEmpty(b: EmailBody, plat: Platform)
    ensures Violations(b, plat) == [] <==>
      && !Blank(b.userName)
      && NormalisedPath(b.userEmail).Some? && NormalisedPath(b.userEmail).value != ""
      && plat.wordEmail(NormalisedPath(b.userEmail).value)
      && CastString(b.userInterest).Some? && CastString(b.userInterest).value in Interests
      && !Blank(b.userNumber) && NumberMin <= |TrimmedPath(b.userNumber).value| <= NumberMax
  {
  }

  function MessageOf(v: Violation): string {
    match v.failure
    case Required =>
      (match v.path
       case UserName => "Name is required"
       case UserEmail => "Email is required"
       case UserInterest => "Interest area is required"
       case UserNumber => "Phone number is required")
    case Mismatch => "Please enter a valid email"
    case NotInEnum(value) => "`" + value + "` is not a valid enum value for path `userInterest`."
    case TooShort => "Phone number must be at least 10 digits"
    case TooLong => "Phone number must be at most 15 digits"
  }

  function PathName(p: Path): string {
    match p
    case UserName => "userName"
    case UserEmail => "userEmail"
    case UserInterest => "userInterest"
    case UserNumber => "userNumber"
  }

  /** `{ field: err.path, message: err.message }` for each error. */
  function Render(vs: seq<Violation>): (r: seq<FieldError>)
    ensures |r| == |vs|
    ensures forall k :: 0 <= k < |r| ==> r[k] == FieldError(PathName(vs[k].path), MessageOf(vs[k]))
  {
    seq(|vs|, k requires 0 <= k < |vs| => FieldError(PathName(vs[k].path), MessageOf(vs[k])))
  }

  /** The `errors` of the validation 400: an entry is listed exactly when the
      path it names fails a validator whose message it carries. */
  lemma RenderedErrors(b: EmailBody, plat: Platform, e: FieldError)
    ensures e in Render(Violations(b, plat)) <==>
      exists p :: PathName(p) == e.field && Check(b, plat, p).Some? && MessageOf(Violation(p, Check(b, plat, p).value)) == e.message
  {
    var vs := Violations(b, plat);
    if e in Render(vs) {
      var k :| 0 <= k < |vs| && Render(vs)[k] == e;
      ViolationsListFailingPaths(b, plat, vs[k]);
      assert PathName(vs[k].path) == e.field && Check(b, plat, vs[k].path) == Some(vs[k].failure);
    }
    if exists p :: PathName(p) == e.field && Check(b, plat, p).Some? && MessageOf(Violation(p, Check(b, plat, p).value)) == e.message {
      var p :| PathName(p) == e.field && Check(b, plat, p).Some? && MessageOf(Violation(p, Check(b, plat, p).value)) == e.message;
      var x := Violation(p, Check(b, plat, p).value);
      ViolationsListFailingPaths(b, plat, x);
      var k :| 0 <= k < |vs| && vs[k] == x;
      assert Render(vs)[k] == e;
    }
  }

  /** A stored submission: the schema's constraints hold of it. */
  predicate Conforms(s: EmailSubmission, plat: Platform) {
    && s.userName != "" && Trimmed(s.userName)
    && s.userEmail != "" && Trimmed(s.userEmail) && IsLower(s.userEmail) && plat.wordEmail(s.userEmail)
    && s.userInterest in Interests
    && Trimmed(s.userNumber) && NumberMin <= |s.userNumber| <= NumberMax
  }

  /** The document `create` stores, with the `submittedAt` the route passes. */
  function NewSubmission(b: EmailBody, plat: Platform, submittedAt: Time): EmailSubmission
    requires Violations(b, plat) == []
  {
    ViolationsEmpty(b, plat);
    EmailSubmission(
      TrimmedPath(b.userName).value,
      NormalisedPath(b.userEmail).value,
      CastString(b.userInterest).value,
      TrimmedPath(b.userNumber).value,
      submittedAt)
  }

  /** A body that passes validation yields a conforming document that holds
      the normalised e-mail and the trimmed number. */
  lemma NewSubmissionConforms(b: EmailBody, plat: Platform, submittedAt: Time)
    requires Violations(b, plat) == []
    ensures var s := NewSubmission(b, plat, submittedAt);
      && Conforms(s, plat)
      && s.userEmail == Normalise(CastString(b.userEmail).value)
      && s.userNumber == Trim(CastString(b.userNumber).value)
      && s.submittedAt == submittedAt
  {
    ViolationsEmpty(b, plat);
    NormaliseIsNormal(CastString(b.userEmail).value);
  }

  /** The bounds count characters of the trimmed value, not digits, and are
      inclusive at both ends. */
  lemma NumberBounds(s: string)
    requires Trimmed(s)
    ensures |s| == 10 ==> NumberCheck(Str(s)).None?
    ensures |s| == 15 ==> NumberCheck(Str(s)).None?
    ensures |s| == 9 ==> NumberCheck(Str(s)) == Some(TooShort)
    ensures |s| == 16 ==> NumberCheck(Str(s)) == Some(TooLong)
  {
    TrimmedIsFixpoint(s);
  }
}
