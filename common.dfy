/** Values and string operations shared by the whole model: a member of a JSON
    request body as the route handlers see it, the JavaScript coercions and
    string methods the handlers and the Mongoose schemas apply to such members,
    the three regular expressions that are simple enough to state exactly, and
    the platform behaviour (parsers, ObjectId check, the other regular
    expressions) that the model takes as given. */
module Common {

  datatype Option<+T> = None | Some(value: T)

  /** One entry of the `errors` array a handler answers with. */
  datatype FieldError = FieldError(field: string, message: string)

  /** Milliseconds since the epoch, as a JavaScript `Date` holds them. */
  type Time = int

  /** One member of a parsed JSON request body: `undefined` when the member is
      absent, `null`, a boolean, an integral number or a string. */
  datatype Json = Missing | Null | Bool(b: bool) | Num(n: int) | Str(s: string)

  /** JavaScript truthiness: `!v` is false exactly for these values. */
  predicate Truthy(v: Json) {
    match v
    case Bool(b) => b
    case Num(n) => n != 0
    case Str(s) => s != ""
    case _ => false
  }

  /** The behaviour of the platform that the source relies on but does not
      define: `mongoose.Types.ObjectId.isValid`, `new Date(x)` (None for an
      Invalid Date), `parseInt(x)` (None for NaN), `new URL(v)` not throwing,
      the word-based e-mail regular expression
      `/^\w+([.-]?\w+)*@\w+([.-]?\w+)*(\.\w{2,3})+$/`, Joi's
      `string().email({ tlds: { allow: false } })`, and whether Mongoose runs a
      path's setters (trim, lowercase) over a query value it casts. */
  datatype Platform = Platform(
    isObjectId: string -> bool,
    parseDate: Json -> Option<Time>,
    parseInt: Json -> Option<int>,
    isUrl: string -> bool,
    wordEmail: string -> bool,
    joiEmail: string -> bool,
    querySetters: bool)

  // ---------------------------------------------------------------------------
  // Characters

  /** The characters `String.prototype.trim` removes and `\s` matches: the
      ECMAScript WhiteSpace and LineTerminator code points. */
  predicate IsSpace(c: char) {
    c == '\t' || c == '\n' || c == '\U{000B}' || c == '\U{000C}' || c == '\r' || c == ' '
    || c == '\U{00A0}' || c == '\U{1680}' || ('\U{2000}' <= c <= '\U{200A}')
    || c == '\U{2028}' || c == '\U{2029}' || c == '\U{202F}' || c == '\U{205F}'
    || c == '\U{3000}' || c == '\U{FEFF}'
  }

  predicate IsDigit(c: char) { '0' <= c <= '9' }

  predicate IsUpper(c: char) { 'A' <= c <= 'Z' }

  function LowerChar(c: char): (r: char)
    ensures !IsUpper(r)
    ensures IsSpace(r) == IsSpace(c)
  {
    if IsUpper(c) then (c as int - 'A' as int + 'a' as int) as char else c
  }

  // ---------------------------------------------------------------------------
  // JavaScript coercions

  function DigitChar(d: nat): (c: char)
    requires d < 10
    ensures IsDigit(c)
  {
    ('0' as int + d) as char
  }

  /** Decimal notation of a natural number, as `String(n)` writes it. */
  function NatToDecimal(n: nat): (r: string)
    ensures |r| >= 1
    ensures forall k :: 0 <= k < |r| ==> IsDigit(r[k])
    decreases n
  {
    if n < 10 then [DigitChar(n)] else NatToDecimal(n / 10) + [DigitChar(n % 10)]
  }

  function IntToDecimal(n: int): (r: string)
    ensures |r| >= 1
    ensures forall k :: 0 <= k < |r| ==> IsDigit(r[k]) || r[k] == '-'
  {
    if n < 0 then "-" + NatToDecimal(-n) else NatToDecimal(n)
  }

  /** `String(v)`, the coercion `RegExp.prototype.test` applies to its argument. */
  function JsString(v: Json): string {
    match v
    case Missing => "undefined"
    case Null => "null"
    case Bool(b) => if b then "true" else "false"
    case Num(n) => IntToDecimal(n)
    case Str(s) => s
  }

  /** Mongoose's cast of a request member to a String path: absent for
      `undefined` and `null`, otherwise the string form of the value. */
  function CastString(v: Json): (r: Option<string>)
    ensures r.None? <==> v.Missing? || v.Null?
    ensures r.Some? ==> r.value == JsString(v)
  {
    match v
    case Missing => None
    case Null => None
    case _ => Some(JsString(v))
  }

  /** A truthy member casts to a non-empty string. */
  lemma TruthyCastsNonEmpty(v: Json)
    requires Truthy(v)
    ensures CastString(v).Some? && CastString(v).value != ""
  {
  }

  // ---------------------------------------------------------------------------
  // String methods

  /** `s.startsWith(p)`. */
  predicate StartsWith(s: string, p: string) {
    |p| <= |s| && s[..|p|] == p
  }

  /** ASCII lower-casing, the part of `toLowerCase` the model keeps. */
  function Lower(s: string): (r: string)
    ensures |r| == |s|
    ensures forall k :: 0 <= k < |s| ==> r[k] == LowerChar(s[k])
  {
    seq(|s|, k requires 0 <= k < |s| => LowerChar(s[k]))
  }

  predicate IsLower(s: string) {
    forall k :: 0 <= k < |s| ==> !IsUpper(s[k])
  }

  lemma LowerIsLower(s: string)
    ensures IsLower(Lower(s))
    ensures Lower(Lower(s)) == Lower(s)
  {
  }

  /** Lower-casing leaves a string with no upper-case letter as it is. */
  lemma LowerOfLower(s: string)
    requires IsLower(s)
    ensures Lower(s) == s
  {
  }

  /** Strips leading white space. */
  function TrimStart(s: string): (r: string)
    ensures |r| <= |s| && r == s[|s| - |r|..]
    ensures r != [] ==> !IsSpace(r[0])
    ensures forall k :: 0 <= k < |s| - |r| ==> IsSpace(s[k])
    decreases |s|
  {
    if s != [] && IsSpace(s[0]) then TrimStart(s[1..]) else s
  }

  /** Strips trailing white space. */
  function TrimEnd(s: string): (r: string)
    ensures |r| <= |s| && r == s[..|r|]
    ensures r != [] ==> !IsSpace(r[|r| - 1])
    ensures forall k :: |r| <= k < |s| ==> IsSpace(s[k])
    decreases |s|
  {
    if s != [] && IsSpace(s[|s| - 1]) then TrimEnd(s[..|s| - 1]) else s
  }

  /** `s.trim()`: the longest factor of `s` that neither starts nor ends with
      white space, once only white space has been cut from both ends. */
  function Trim(s: string): (r: string)
    ensures |r| <= |s|
    ensures r != [] ==> !IsSpace(r[0]) && !IsSpace(r[|r| - 1])
  {
    TrimEnd(TrimStart(s))
  }

  predicate Trimmed(s: string) {
    s == [] || (!IsSpace(s[0]) && !IsSpace(s[|s| - 1]))
  }

  /** A string with no white space at either end is its own trim. */
  lemma {:induction false} TrimmedIsFixpoint(s: string)
    requires Trimmed(s)
    ensures Trim(s) == s
  {
    assert TrimStart(s) == s;
  }

  lemma TrimIdempotent(s: string)
    ensures Trimmed(Trim(s))
    ensures Trim(Trim(s)) == Trim(s)
  {
    TrimmedIsFixpoint(Trim(s));
  }

  lemma {:induction false} TrimStartLower(s: string)
    ensures TrimStart(Lower(s)) == Lower(TrimStart(s))
    decreases |s|
  {
    if s != [] && IsSpace(s[0]) {
      assert Lower(s)[1..] == Lower(s[1..]);
      TrimStartLower(s[1..]);
    }
  }

  lemma {:induction false} TrimEndLower(s: string)
    ensures TrimEnd(Lower(s)) == Lower(TrimEnd(s))
    decreases |s|
  {
    if s != [] && IsSpace(s[|s| - 1]) {
      assert Lower(s)[..|s| - 1] == Lower(s[..|s| - 1]);
      TrimEndLower(s[..|s| - 1]);
    }
  }

  /** Mongoose applies a path's `trim` and `lowercase` setters in the order the
      schema lists them; the order does not matter. */
  lemma TrimLowerCommute(s: string)
    ensures Trim(Lower(s)) == Lower(Trim(s))
  {
    TrimStartLower(s);
    TrimEndLower(TrimStart(s));
  }

  /** The value a `trim: true, lowercase: true` String path stores. */
  function Normalise(s: string): string {
    Lower(Trim(s))
  }

  /** A normalised value has no white space at its ends, no upper-case
      letter, and normalising it again changes nothing. */
  lemma NormaliseIsNormal(s: string)
    ensures Trimmed(Normalise(s)) && IsLower(Normalise(s))
    ensures Normalise(Normalise(s)) == Normalise(s)
  {
    var t := Trim(s);
    TrimIdempotent(s);
    TrimLowerCommute(s);
    LowerIsLower(t);
    TrimLowerCommute(t);
    assert Trim(Lower(t)) == Lower(t);
  }

  /** A trimmed string with no upper-case letter is already normal. */
  lemma NormalIsFixpoint(s: string)
    requires Trimmed(s) && IsLower(s)
    ensures Normalise(s) == s
  {
    TrimmedIsFixpoint(s);
    LowerOfLower(s);
  }

  /** A String path with `trim: true`: the cast value after its setter. */
  function TrimmedPath(v: Json): (r: Option<string>)
    ensures r.None? <==> v.Missing? || v.Null?
    ensures r.Some? ==> Trimmed(r.value)
  {
    if CastString(v).Some? then Some(Trim(CastString(v).value)) else None
  }

  /** A String path with `trim: true, lowercase: true`. */
  function NormalisedPath(v: Json): (r: Option<string>)
    ensures r.None? <==> v.Missing? || v.Null?
  {
    if CastString(v).Some? then Some(Normalise(CastString(v).value)) else None
  }

  /** The `required` validator of a trimmed String path: absent, or empty
      once trimmed. */
  predicate Blank(v: Json) {
    TrimmedPath(v).None? || TrimmedPath(v).value == ""
  }

  /** The value a query on a trimmed, lower-cased e-mail path compares with:
      the path's setters run on it only when Mongoose applies setters to
      query values. */
  function EmailQuery(email: string, plat: Platform): string {
    if plat.querySetters then Normalise(email) else email
  }

  /** `parts.join(sep)`. */
  function Join(parts: seq<string>, sep: string): string
    decreases |parts|
  {
    if parts == [] then "" else if |parts| == 1 then parts[0] else parts[0] + sep + Join(parts[1..], sep)
  }

  // ---------------------------------------------------------------------------
  // Regular expressions stated exactly

  /** `/^\S+@\S+\.\S+$/`: no white space anywhere, an `@` after at least one
      character, and a later `.` with at least one character on each side. */
  predicate SimpleEmail(s: string) {
    (forall k :: 0 <= k < |s| ==> !IsSpace(s[k]))
    && exists i, j :: 1 <= i && i + 2 <= j && j + 2 <= |s| && s[i] == '@' && s[j] == '.'
  }

  /** `/^\+?[\d\s-]{10,}$/`: an optional `+` and then at least ten characters,
      each a digit, white space or `-`. */
  predicate PlusPhone(s: string) {
    var t := if |s| > 0 && s[0] == '+' then s[1..] else s;
    |t| >= 10 && forall k :: 0 <= k < |t| ==> IsDigit(t[k]) || IsSpace(t[k]) || t[k] == '-'
  }

  /** `/^[0-9]{10}$/`. */
  predicate TenDigits(s: string) {
    |s| == 10 && forall k :: 0 <= k < |s| ==> IsDigit(s[k])
  }

  // ---------------------------------------------------------------------------
  // Sequences

  /** `s.filter(p)`. */
  function Filter<T>(s: seq<T>, p: T -> bool): (r: seq<T>)
    ensures |r| <= |s|
    decreases |s|
  {
    if s == [] then [] else if p(s[0]) then [s[0]] + Filter(s[1..], p) else Filter(s[1..], p)
  }

  /** The filtered list keeps exactly the elements that pass, in their
      order. */
  lemma {:induction false} FilterSpec<T>(s: seq<T>, p: T -> bool)
    ensures forall k :: 0 <= k < |Filter(s, p)| ==> Filter(s, p)[k] in s && p(Filter(s, p)[k])
    ensures forall k :: 0 <= k < |s| && p(s[k]) ==> s[k] in Filter(s, p)
    ensures IsSubsequence(Filter(s, p), s)
    decreases |s|
  {
    if s != [] {
      FilterSpec(s[1..], p);
      var r := Filter(s, p);
      var t := Filter(s[1..], p);
      if p(s[0]) {
        assert r == [s[0]] + t;
        assert r[1..] == t;
        forall k | 0 <= k < |r| ensures r[k] in s && p(r[k]) {
          if k > 0 {
            assert r[k] == t[k - 1];
          }
        }
      } else {
        assert r == t;
      }
      forall k | 0 <= k < |s| && p(s[k]) ensures s[k] in r {
        if k > 0 {
          assert s[k] == s[1..][k - 1];
        }
      }
    }
  }

  /** Filtering a list with one more element at its end. */
  lemma {:induction false} FilterAppend<T>(s: seq<T>, x: T, p: T -> bool)
    ensures Filter(s + [x], p) == Filter(s, p) + (if p(x) then [x] else [])
    decreases |s|
  {
    if s == [] {
      assert [x][1..] == [];
    } else {
      assert (s + [x])[1..] == s[1..] + [x];
      FilterAppend(s[1..], x, p);
    }
  }

  /** `r` is `s` with some elements left out and the rest in their order. */
  predicate IsSubsequence<T(==)>(r: seq<T>, s: seq<T>)
    decreases |s|
  {
    if r == [] then true
    else if s == [] then false
    else if r[0] == s[0] then IsSubsequence(r[1..], s[1..])
    else IsSubsequence(r, s[1..])
  }
}
