/** routes/sponsorRoutes.js: POST /submit, which runs its own chain of checks
    before creating a SponsorSubmission, and GET /, which lists the
    submissions newest first. */
module SponsorRoutes {
  import opened Common
  import opened SponsorSubmissionModel
  import SponsorModel
  import SponsorMiddleware
  import Query

  /** The members the handler requires, in the order it reports them. */
  datatype Field = FName | FEmail | FCompany | FPhone | FPackage

  const RequiredFields: seq<Field> := [FName, FEmail, FCompany, FPhone, FPackage]

  function Member(b: SubmissionBody, f: Field): Json {
    match f
    case FName => b.name
    case FEmail => b.email
    case FCompany => b.company
    case FPhone => b.phone
    case FPackage => b.package
  }

  function MissingOn(b: SubmissionBody): Field -> bool {
    (f: Field) => !Truthy(Member(b, f))
  }

  /** The `errors` of the first 400: one entry per falsy required member, in
      the order name, email, company, phone, package. */
  function MissingFields(b: SubmissionBody): (r: seq<Field>)
    ensures forall k :: 0 <= k < |r| ==> !Truthy(Member(b, r[k]))
    ensures forall k :: 0 <= k < |RequiredFields| && !Truthy(Member(b, RequiredFields[k])) ==> RequiredFields[k] in r
    ensures IsSubsequence(r, RequiredFields)
  {
    FilterSpec(RequiredFields, MissingOn(b));
    Filter(RequiredFields, MissingOn(b))
  }

  /** The handler's own package list, written out again in the route. */
  const RoutePackages: seq<string> := ["TITLE", "GOLD", "SILVER", "ASSOCIATE", "IN KIND"]

  datatype SubmitResult =
    | MissingRequired(fields: seq<Field>)
    | InvalidEmail
    | InvalidPhone
    | InvalidPackage
    | ValidationFailed(errors: seq<FieldError>)
    | Submitted(submission: SponsorSubmission)
  {
    function Status(): int {
      if Submitted? then 201 else 400
    }
  }

  /** `phone.length < 10`: only a string has a length; for a number or a
      boolean the comparison is with `undefined` and is false. */
  predicate ShortPhone(v: Json) {
    v.Str? && |v.s| < 10
  }

  /** `validPackages.includes(package)`: strict equality, so only a string
      can be found. */
  predicate ListedPackage(v: Json) {
    v.Str? && v.s in RoutePackages
  }

  /** POST /submit. The checks run in order and the first failure answers;
      `create` receives the body's members and `submittedAt: new Date()`. */
  function SubmitOutcome(b: SubmissionBody, plat: Platform, now: Time): (r: SubmitResult)
    ensures r.MissingRequired? <==> MissingFields(b) != []
    ensures r.MissingRequired? ==> r.fields == MissingFields(b)
    ensures r.Submitted? <==>
      && MissingFields(b) == [] && plat.wordEmail(JsString(b.email)) && !ShortPhone(b.phone)
      && ListedPackage(b.package) && Violations(b) == []
  {
    var missing := MissingFields(b);
    if missing != [] then MissingRequired(missing)
    else if !plat.wordEmail(JsString(b.email)) then InvalidEmail
    else if ShortPhone(b.phone) then InvalidPhone
    else if !ListedPackage(b.package) then InvalidPackage
    else if Violations(b) != [] then ValidationFailed(Render(Violations(b)))
    else Submitted(NewSubmission(b, now, now))
  }

  /** A request with every required member present answers with the earliest
      failure of the chain e-mail, phone length, package, schema. */
  lemma FirstFailureAnswers(b: SubmissionBody, plat: Platform, now: Time)
    requires MissingFields(b) == []
    ensures !plat.wordEmail(JsString(b.email)) ==> SubmitOutcome(b, plat, now) == InvalidEmail
    ensures plat.wordEmail(JsString(b.email)) && ShortPhone(b.phone) ==> SubmitOutcome(b, plat, now) == InvalidPhone
    ensures plat.wordEmail(JsString(b.email)) && !ShortPhone(b.phone) && !ListedPackage(b.package) ==>
      SubmitOutcome(b, plat, now) == InvalidPackage
    ensures plat.wordEmail(JsString(b.email)) && !ShortPhone(b.phone) && ListedPackage(b.package) && Violations(b) != [] ==>
      SubmitOutcome(b, plat, now) == ValidationFailed(Render(Violations(b)))
    ensures SubmitOutcome(b, plat, now).ValidationFailed? ==> SubmitOutcome(b, plat, now).errors == Render(Violations(b))
  {
  }

  /** A stored submission conforms to the schema, carries the normalised
      e-mail, and is stamped with the time of the request. */
  lemma SubmittedConforms(b: SubmissionBody, plat: Platform, now: Time)
    requires SubmitOutcome(b, plat, now).Submitted?
    ensures var s := SubmitOutcome(b, plat, now).submission;
      && Conforms(s)
      && s.email == Normalise(CastString(b.email).value)
      && s.submittedAt == now && s.createdAt == now
  {
    NewSubmissionConforms(b, now, now);
  }

  /** The route's length check counts characters, not digits: ten characters
      with only five digits pass it, and the schema's pattern then refuses the
      phone after the plus sign is dropped. */
  lemma PhoneLengthCountsCharacters()
    ensures !ShortPhone(Str("+1-2-3-4-5"))
    ensures !PlusPhone("+1-2-3-4-5")
    ensures !ShortPhone(Num(5))
  {
    assert |"+1-2-3-4-5"[1..]| == 9;
  }

  /** The route's list is the schema's enumeration, so the two package checks
      agree; the Sponsor model and the sponsor middleware use a different,
      mixed-case list that shares no name with it. */
  lemma PackageListsCompared()
    ensures RoutePackages == SponsorSubmissionModel.Packages
    ensures SponsorMiddleware.Packages == SponsorModel.Packages
    ensures forall p :: p in SponsorModel.Packages ==> p !in RoutePackages
  {
  }

  function CreatedAt(s: SponsorSubmission): int {
    s.createdAt
  }

  function Every(s: SponsorSubmission): bool {
    true
  }

  ghost predicate AllConform(docs: map<string, SponsorSubmission>) {
    forall id :: id in docs ==> Conforms(docs[id])
  }

  /** Storing a conforming submission keeps every stored one conforming. */
  lemma InsertKeepsConforming(docs: map<string, SponsorSubmission>, id: string, s: SponsorSubmission)
    requires AllConform(docs) && Conforms(s)
    ensures AllConform(docs[id := s])
  {
    var after := docs[id := s];
    forall x | x in after ensures Conforms(after[x]) {
      if x != id {
        assert after[x] == docs[x];
      }
    }
  }

  /** The SponsorSubmission collection. */
  class SponsorTable {
    var docs: map<string, SponsorSubmission>

    ghost predicate Valid()
      reads this
    {
      AllConform(docs)
    }

    constructor ()
      ensures docs == map[] && Valid()
    {
      docs := map[];
    }

    /** POST /submit under the id the database assigns. No index is unique,
        so a submission is stored whatever the collection already holds, and
        the notification e-mail's failure changes nothing. */
    method Submit(b: SubmissionBody, plat: Platform, now: Time, newId: string, notificationFails: bool)
      returns (r: SubmitResult)
      requires Valid() && newId !in docs
      modifies this
      ensures Valid()
      ensures r == SubmitOutcome(b, plat, now)
      ensures docs == if r.Submitted? then old(docs)[newId := r.submission] else old(docs)
    {
      r := SubmitOutcome(b, plat, now);
      if r.Submitted? {
        SubmittedConforms(b, plat, now);
        InsertKeepsConforming(docs, newId, r.submission);
        docs := docs[newId := r.submission];
      }
    }

    /** GET /: every submission, newest `createdAt` first, and their number. */
    method List() returns (ids: seq<string>, results: nat)
      ensures Query.IsSortedSelection(ids, docs, Every, CreatedAt)
      ensures results == |ids| == |docs|
    {
      ids := Query.SortedSelection(docs, Every, CreatedAt);
      Query.SelectionCount(ids, docs, Every, CreatedAt);
      assert Query.Matching(docs, Every) == docs.Keys;
      results := |ids|;
    }
  }
}
