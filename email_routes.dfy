/** routes/emailRoutes.js: POST /submit, which checks the interest form, looks
    for an earlier submission under the same e-mail and creates one, and GET /,
    which lists the submissions newest first. */
module EmailRoutes {
  import opened Common
  import opened EmailModel
  import Query

  /** The members the handler requires, in the order it reports them. */
  datatype Field = FUserName | FUserEmail | FUserInterest | FUserNumber

  const RequiredFields: seq<Field> := [FUserName, FUserEmail, FUserInterest, FUserNumber]

  function Member(b: EmailBody, f: Field): Json {
    match f
    case FUserName => b.userName
    case FUserEmail => b.userEmail
    case FUserInterest => b.userInterest
    case FUserNumber => b.userNumber
  }

  function MissingOn(b: EmailBody): Field -> bool {
    (f: Field) => !Truthy(Member(b, f))
  }

  /** The `errors` of the first 400: one entry per falsy member, in the order
      userName, userEmail, userInterest, userNumber. */
  function MissingFields(b: EmailBody): (r: seq<Field>)
    ensures forall k :: 0 <= k < |r| ==> !Truthy(Member(b, r[k]))
    ensures forall k :: 0 <= k < |RequiredFields| && !Truthy(Member(b, RequiredFields[k])) ==> RequiredFields[k] in r
    ensures IsSubsequence(r, RequiredFields)
  {
    FilterSpec(RequiredFields, MissingOn(b));
    Filter(RequiredFields, MissingOn(b))
  }

  datatype SubmitResult =
    | MissingRequired(fields: seq<Field>)
    | InvalidEmail
    | AlreadySubmitted
    | ValidationFailed(errors: seq<FieldError>)
    | DuplicateNumber
    | Submitted(submission: EmailSubmission)
  {
    /** The duplicate-key error of the unique `userNumber` index is not a
        ValidationError and reaches the generic branch. */
    function Status(): int {
      match this
      case Submitted(_) => 201
      case DuplicateNumber => 500
      case _ => 400
    }
  }

  /** `findOne({ userEmail })` finds a document. */
  predicate EmailTaken(docs: map<string, EmailSubmission>, query: string) {
    exists id :: id in docs && docs[id].userEmail == query
  }

  /** Some stored submission already has this number: the unique index
      refuses a second one. */
  predicate NumberTaken(docs: map<string, EmailSubmission>, number: string) {
    exists id :: id in docs && docs[id].userNumber == number
  }

  /** What `create` does with the body: validation, then the unique index. */
  function CreateOutcome(docs: map<string, EmailSubmission>, b: EmailBody, plat: Platform, now: Time): (r: SubmitResult)
    ensures r.ValidationFailed? <==> Violations(b, plat) != []
    ensures r.ValidationFailed? ==> r.errors == Render(Violations(b, plat))
    ensures r.Submitted? <==> Violations(b, plat) == [] && !NumberTaken(docs, NewSubmission(b, plat, now).userNumber)
    ensures r.Submitted? ==> r.submission == NewSubmission(b, plat, now)
  {
    if Violations(b, plat) != [] then ValidationFailed(Render(Violations(b, plat)))
    else if NumberTaken(docs, NewSubmission(b, plat, now).userNumber) then DuplicateNumber
    else Submitted(NewSubmission(b, plat, now))
  }

  /** POST /submit: the missing members, the word-based pattern on the raw
      e-mail, the lookup by e-mail, then `create` with `submittedAt` now. */
  function SubmitOutcome(docs: map<string, EmailSubmission>, b: EmailBody, plat: Platform, now: Time): (r: SubmitResult)
    ensures r.MissingRequired? <==> MissingFields(b) != []
    ensures r.MissingRequired? ==> r.fields == MissingFields(b)
    ensures MissingFields(b) == [] ==> (r == InvalidEmail <==> !plat.wordEmail(JsString(b.userEmail)))
    ensures r.AlreadySubmitted? <==>
      MissingFields(b) == [] && plat.wordEmail(JsString(b.userEmail))
      && EmailTaken(docs, EmailQuery(JsString(b.userEmail), plat))
    ensures (MissingFields(b) == [] && plat.wordEmail(JsString(b.userEmail))
             && !EmailTaken(docs, EmailQuery(JsString(b.userEmail), plat))) ==> r == CreateOutcome(docs, b, plat, now)
    ensures r.Submitted? ==>
      && MissingFields(b) == [] && plat.wordEmail(JsString(b.userEmail))
      && !EmailTaken(docs, EmailQuery(JsString(b.userEmail), plat))
  {
    var missing := MissingFields(b);
    if missing != [] then MissingRequired(missing)
    else if !plat.wordEmail(JsString(b.userEmail)) then InvalidEmail
    else if EmailTaken(docs, EmailQuery(JsString(b.userEmail), plat)) then AlreadySubmitted
    else CreateOutcome(docs, b, plat, now)
  }

  ghost predicate AllConform(docs: map<string, EmailSubmission>, plat: Platform) {
    forall id :: id in docs ==> Conforms(docs[id], plat)
  }

  ghost predicate NumbersUnique(docs: map<string, EmailSubmission>) {
    forall a, c :: a in docs && c in docs && a != c ==> docs[a].userNumber != docs[c].userNumber
  }

  /** Storing a conforming submission whose number is free keeps the
      collection valid. */
  lemma InsertKeepsTableValid(docs: map<string, EmailSubmission>, s: EmailSubmission, plat: Platform, newId: string)
    requires AllConform(docs, plat) && NumbersUnique(docs) && newId !in docs
    requires Conforms(s, plat) && !NumberTaken(docs, s.userNumber)
    ensures AllConform(docs[newId := s], plat) && NumbersUnique(docs[newId := s])
  {
    var after := docs[newId := s];
    forall id | id in after ensures Conforms(after[id], plat) {
      if id != newId {
        assert after[id] == docs[id];
      }
    }
    forall a, c | a in after && c in after && a != c ensures after[a].userNumber != after[c].userNumber {
      if a == newId {
        assert c in docs && docs[c] == after[c];
      } else if c == newId {
        assert a in docs && docs[a] == after[a];
      } else {
        assert after[a] == docs[a] && after[c] == docs[c];
      }
    }
  }

  /** A submission under an address already stored in exactly that form is
      refused and adds nothing. */
  lemma StoredAddressRefused(docs: map<string, EmailSubmission>, b: EmailBody, plat: Platform, now: Time, id: string)
    requires MissingFields(b) == [] && plat.wordEmail(JsString(b.userEmail))
    requires id in docs && docs[id].userEmail == JsString(b.userEmail)
    requires IsLower(JsString(b.userEmail)) && Trimmed(JsString(b.userEmail))
    ensures SubmitOutcome(docs, b, plat, now) == AlreadySubmitted
  {
    var e := JsString(b.userEmail);
    assert EmailQuery(e, plat) == e by {
      NormalIsFixpoint(e);
    }
    assert EmailTaken(docs, EmailQuery(e, plat)) by {
      assert docs[id].userEmail == EmailQuery(e, plat);
    }
    assert SubmitOutcome(docs, b, plat, now).AlreadySubmitted?;
  }

  /** Without setters on query values, the lookup uses the address as typed
      while the stored one is lower-cased: resending the same form with an
      upper-case letter in the address passes the guard, and with another
      number it is stored a second time. */
  lemma CaseVariantPassesGuard(docs: map<string, EmailSubmission>, b: EmailBody, plat: Platform, now: Time)
    requires !plat.querySetters
    requires forall id :: id in docs ==> IsLower(docs[id].userEmail)
    requires MissingFields(b) == [] && plat.wordEmail(JsString(b.userEmail)) && !IsLower(JsString(b.userEmail))
    ensures !SubmitOutcome(docs, b, plat, now).AlreadySubmitted?
    ensures Violations(b, plat) == [] && !NumberTaken(docs, NewSubmission(b, plat, now).userNumber) ==>
      SubmitOutcome(docs, b, plat, now).Submitted?
  {
  }

  /** With setters on query values, the lookup finds any stored address equal
      to the normalised one, so a case variant is refused. */
  lemma CaseVariantRefusedWithSetters(docs: map<string, EmailSubmission>, b: EmailBody, plat: Platform, now: Time, id: string)
    requires plat.querySetters
    requires MissingFields(b) == [] && plat.wordEmail(JsString(b.userEmail))
    requires id in docs && docs[id].userEmail == Normalise(JsString(b.userEmail))
    ensures SubmitOutcome(docs, b, plat, now) == AlreadySubmitted
  {
    assert EmailTaken(docs, EmailQuery(JsString(b.userEmail), plat));
  }

  function SubmittedAt(s: EmailSubmission): int {
    s.submittedAt
  }

  function Every(s: EmailSubmission): bool {
    true
  }

  /** The EmailSubmission collection. */
  class EmailTable {
    var docs: map<string, EmailSubmission>

    /** Every stored submission conforms and no two share a number. */
    ghost predicate Valid(plat: Platform)
      reads this
    {
      AllConform(docs, plat) && NumbersUnique(docs)
    }

    constructor ()
      ensures docs == map[]
      ensures forall plat :: Valid(plat)
    {
      docs := map[];
    }

    /** POST /submit under the id the database assigns. The notification
        e-mail is sent after the document is stored; its failure is logged
        and changes neither the answer nor the collection. */
    method Submit(b: EmailBody, plat: Platform, now: Time, newId: string, notificationFails: bool)
      returns (r: SubmitResult)
      requires Valid(plat) && newId !in docs
      modifies this
      ensures Valid(plat)
      ensures r == SubmitOutcome(old(docs), b, plat, now)
      ensures docs == if r.Submitted? then old(docs)[newId := r.submission] else old(docs)
    {
      r := SubmitOutcome(docs, b, plat, now);
      if r.Submitted? {
        NewSubmissionConforms(b, plat, now);
        InsertKeepsTableValid(docs, r.submission, plat, newId);
        docs := docs[newId := r.submission];
      }
    }

    /** GET /: every submission, newest `submittedAt` first, and their number. */
    method List() returns (ids: seq<string>, results: nat)
      ensures Query.IsSortedSelection(ids, docs, Every, SubmittedAt)
      ensures results == |ids| == |docs|
    {
      ids := Query.SortedSelection(docs, Every, SubmittedAt);
      Query.SelectionCount(ids, docs, Every, SubmittedAt);
      assert Query.Matching(docs, Every) == docs.Keys;
      results := |ids|;
    }
  }
}
