/** middleware/validateSponsorSubmission.js: checks five members of a sponsor
    request, collects one error per failing member, and either lets the
    request through or answers 400 with all of them. */
module SponsorMiddleware {
  import opened Common

  datatype SponsorFields = SponsorFields(name: Json, email: Json, company: Json, phone: Json, package: Json)

  /** The checked members, in the order the middleware checks them. */
  datatype Field = Name | Email | Company | Phone | Package

  const FieldOrder: seq<Field> := [Name, Email, Company, Phone, Package]

  function FieldName(f: Field): string {
    match f
    case Name => "name"
    case Email => "email"
    case Company => "company"
    case Phone => "phone"
    case Package => "package"
  }

  const Packages: seq<string> := ["Gold", "Silver", "Bronze", "Community"]

  /** `next()`, a 400 with the collected `{ field, message }` errors, or a
      TypeError thrown by a `trim()` call, which the application's error
      handler answers with 500. */
  datatype Verdict = Proceed | Rejected(errors: seq<FieldError>) | Thrown

  /** `!v || v.trim().length < 2`; None when `trim` is called on a truthy
      value that is not a string, and throws. */
  function TooShort(v: Json): Option<bool> {
    if !Truthy(v) then Some(true)
    else if v.Str? then Some(|Trim(v.s)| < 2)
    else None
  }

  function Message(f: Field): string {
    match f
    case Name => "Name is required and must be at least 2 characters long"
    case Email => "Please enter a valid email address"
    case Company => "Company name is required and must be at least 2 characters long"
    case Phone => "Please enter a valid phone number"
    case Package => "Please select a valid sponsorship package"
  }

  /** Whether the middleware reports `field`. The two regular expressions
      see `String(v)`; the package test is strict equality with one of the
      four names. */
  predicate Fails(b: SponsorFields, f: Field) {
    match f
    case Name => TooShort(b.name) == Some(true)
    case Email => !Truthy(b.email) || !SimpleEmail(JsString(b.email))
    case Company => TooShort(b.company) == Some(true)
    case Phone => !Truthy(b.phone) || !PlusPhone(JsString(b.phone))
    case Package => !(b.package.Str? && b.package.s in Packages)
  }

  /** The check of every field on one request, as a predicate on fields. */
  function FailsOn(b: SponsorFields): Field -> bool {
    (f: Field) => Fails(b, f)
  }

  function ErrorOf(f: Field): FieldError {
    FieldError(FieldName(f), Message(f))
  }

  /** One `{ field, message }` per field, in order. */
  function ErrorsFor(fields: seq<Field>): (r: seq<FieldError>)
    ensures |r| == |fields|
  {
    if fields == [] then [] else [ErrorOf(fields[0])] + ErrorsFor(fields[1..])
  }

  /** The entry at `k` is the error of the field at `k`. */
  lemma {:induction false} ErrorsForAt(fields: seq<Field>, k: nat)
    requires k < |fields|
    ensures ErrorsFor(fields)[k] == ErrorOf(fields[k])
  {
    if k > 0 {
      ErrorsForAt(fields[1..], k - 1);
    }
  }

  /** Pushing one more field's error. */
  lemma {:induction false} ErrorsForAppend(fields: seq<Field>, f: Field)
    ensures ErrorsFor(fields + [f]) == ErrorsFor(fields) + [ErrorOf(f)]
  {
    if fields == [] {
      assert [] + [f] == [f];
    } else {
      assert (fields + [f])[1..] == fields[1..] + [f];
      ErrorsForAppend(fields[1..], f);
    }
  }

  /** The errors listed for `fields` are those of its members. */
  lemma InErrorsFor(fields: seq<Field>, e: FieldError)
    ensures e in ErrorsFor(fields) <==> exists f :: f in fields && e == ErrorOf(f)
  {
    if e in ErrorsFor(fields) {
      var k :| 0 <= k < |fields| && ErrorsFor(fields)[k] == e;
      ErrorsForAt(fields, k);
      assert fields[k] in fields;
    }
    if exists f :: f in fields && e == ErrorOf(f) {
      var f :| f in fields && e == ErrorOf(f);
      var k :| 0 <= k < |fields| && fields[k] == f;
      ErrorsForAt(fields, k);
    }
  }

  /** `[f]` when `f` fails, nothing otherwise. */
  function IfFails(p: Field -> bool, f: Field): (r: seq<Field>)
    ensures |r| <= 1
  {
    if p(f) then [f] else []
  }

  /** The fields the middleware reports: the failing ones, in the order of
      `FieldOrder`. */
  function FailingFields(b: SponsorFields): seq<Field> {
    Filter(FieldOrder, FailsOn(b))
  }

  /** The middleware's verdict, stated over the list of fields: the errors of
      the failing ones, in the order of `FieldOrder`. */
  function Expected(b: SponsorFields): Verdict {
    if TooShort(b.name).None? || TooShort(b.company).None? then Thrown
    else
      var failing := FailingFields(b);
      if failing == [] then Proceed else Rejected(ErrorsFor(failing))
  }

  /** Filtering the five fields, written out one field at a time. */
  lemma FilterFields(p: Field -> bool)
    ensures Filter(FieldOrder, p)
      == IfFails(p, Name) + IfFails(p, Email) + IfFails(p, Company) + IfFails(p, Phone) + IfFails(p, Package)
  {
    FilterAppend([], Name, p);
    assert [] + [Name] == FieldOrder[..1];
    FilterAppend(FieldOrder[..1], Email, p);
    assert FieldOrder[..1] + [Email] == FieldOrder[..2];
    FilterAppend(FieldOrder[..2], Company, p);
    assert FieldOrder[..2] + [Company] == FieldOrder[..3];
    FilterAppend(FieldOrder[..3], Phone, p);
    assert FieldOrder[..3] + [Phone] == FieldOrder[..4];
    FilterAppend(FieldOrder[..4], Package, p);
    assert FieldOrder[..4] + [Package] == FieldOrder;
  }

  /** The middleware: one `push` per failing check, then a branch on the
      length of the list. */
  method Validate(b: SponsorFields) returns (v: Verdict)
    ensures v == Expected(b)
  {
    ghost var p := FailsOn(b);
    var errors: seq<FieldError> := [];
    ghost var failing: seq<Field> := [];
    var nameShort := TooShort(b.name);
    if nameShort.None? {
      return Thrown;
    }
    errors, failing := PushIf(nameShort.value, p, Name, errors, failing);
    errors, failing := PushIf(Fails(b, Email), p, Email, errors, failing);
    var companyShort := TooShort(b.company);
    if companyShort.None? {
      return Thrown;
    }
    errors, failing := PushIf(companyShort.value, p, Company, errors, failing);
    errors, failing := PushIf(Fails(b, Phone), p, Phone, errors, failing);
    errors, failing := PushIf(Fails(b, Package), p, Package, errors, failing);
    PushedAreFailing(b);
    if |errors| > 0 {
      return Rejected(errors);
    }
    return Proceed;
  }

  /** The fields pushed one check at a time are the failing ones. */
  lemma PushedAreFailing(b: SponsorFields)
    ensures var p := FailsOn(b);
      [] + IfFails(p, Name) + IfFails(p, Email) + IfFails(p, Company) + IfFails(p, Phone) + IfFails(p, Package)
        == FailingFields(b)
  {
    var p := FailsOn(b);
    FilterFields(p);
    assert [] + IfFails(p, Name) == IfFails(p, Name);
  }

  /** `errors.push({ field, message })` for `f` when its check `p` failed;
      `failing` follows the fields pushed so far. */
  method PushIf(failed: bool, ghost p: Field -> bool, f: Field, errors: seq<FieldError>, ghost failing: seq<Field>)
    returns (errors': seq<FieldError>, ghost failing': seq<Field>)
    requires failed == p(f)
    requires errors == ErrorsFor(failing)
    ensures failing' == failing + IfFails(p, f)
    ensures errors' == ErrorsFor(failing')
  {
    errors', failing' := errors, failing;
    if failed {
      ErrorsForAppend(failing, f);
      errors', failing' := errors + [ErrorOf(f)], failing + [f];
    }
  }

  /** The request passes exactly when no check fails, and a rejection lists
      every failing field, each once, in the order name, email, company,
      phone, package, with that field's message. */
  lemma RejectsExactlyFailingFields(b: SponsorFields)
    requires !Expected(b).Thrown?
    ensures Expected(b).Proceed? <==> forall k :: 0 <= k < |FieldOrder| ==> !Fails(b, FieldOrder[k])
    ensures Expected(b).Rejected? ==>
      && |Expected(b).errors| == |FailingFields(b)|
      && forall k :: 0 <= k < |Expected(b).errors| ==>
           Expected(b).errors[k] == FieldError(FieldName(FailingFields(b)[k]), Message(FailingFields(b)[k]))
    ensures forall k :: 0 <= k < |FailingFields(b)| ==> Fails(b, FailingFields(b)[k])
    ensures forall k :: 0 <= k < |FieldOrder| && Fails(b, FieldOrder[k]) ==> FieldOrder[k] in FailingFields(b)
    ensures IsSubsequence(FailingFields(b), FieldOrder)
  {
    FilterSpec(FieldOrder, FailsOn(b));
    var failing := FailingFields(b);
    if failing != [] {
      InFailingFields(b, failing[0]);
      var j := FieldIndex(failing[0]);
      assert Fails(b, FieldOrder[j]);
    }
    forall k | 0 <= k < |failing|
      ensures ErrorsFor(failing)[k] == FieldError(FieldName(failing[k]), Message(failing[k]))
    {
      ErrorsForAt(failing, k);
    }
  }

  /** The position of `f` in `FieldOrder`. */
  function FieldIndex(f: Field): (j: nat)
    ensures j < |FieldOrder| && FieldOrder[j] == f
  {
    match f
    case Name => 0
    case Email => 1
    case Company => 2
    case Phone => 3
    case Package => 4
  }

  /** An error is reported exactly when the field it names failed its check,
      and it carries that field's message. */
  lemma ReportedErrors(b: SponsorFields, e: FieldError)
    requires !Expected(b).Thrown?
    ensures Expected(b).Rejected? && e in Expected(b).errors <==> exists f :: Fails(b, f) && e == ErrorOf(f)
  {
    var failing := FailingFields(b);
    assert Expected(b).Rejected? && e in Expected(b).errors <==> e in ErrorsFor(failing);
    InErrorsFor(failing, e);
    forall f ensures f in failing <==> Fails(b, f) {
      InFailingFields(b, f);
    }
  }

  /** A field is among the failing ones exactly when its check fails. */
  lemma InFailingFields(b: SponsorFields, f: Field)
    ensures f in FailingFields(b) <==> Fails(b, f)
  {
    FilterSpec(FieldOrder, FailsOn(b));
    var j := FieldIndex(f);
    if f in FailingFields(b) {
      var k :| 0 <= k < |FailingFields(b)| && FailingFields(b)[k] == f;
    }
  }

  /** A name of blanks around one character is too short, and a truthy name
      that is not a string makes the middleware throw. */
  lemma NameEdgeCases(b: SponsorFields)
    ensures b.name == Str(" a ") ==> Fails(b, Name)
    ensures b.name == Num(42) ==> Expected(b) == Thrown
  {
    if b.name == Str(" a ") {
      assert IsSpace(' ') && !IsSpace('a');
      assert TrimStart(" a ") == "a ";
      assert Trim(" a ") == "a";
    } else if b.name == Num(42) {
      assert TooShort(b.name).None?;
    }
  }
}
