/** index.js: the `origin` callback given to the CORS middleware, which decides
    whether a cross-origin request may proceed. */
module Cors {
  import opened Common

  const AllowedOrigins: seq<string> := [
    "http://localhost:5173",
    "http://localhost:3000",
    "http://localhost:5002",
    "https://postman-frontend-three.vercel.app",
    "https://postman-frontend-five.vercel.app",
    "https://www.postmancommunitypune.in",
    "http://www.postmancommunitypune.in",
    "https://postmancommunitypune.in",
    "http://postmancommunitypune.in",
    "https://www.theapicommunity.org",
    "https://theapicommunity.org"
  ]

  const Refusal := "Not allowed by CORS"

  /** What the callback hands back: `callback(null, true)` or
      `callback(new Error(message))`. */
  datatype Decision = Allow | Deny(message: string)

  /** `Array.prototype.indexOf` with strict equality: the first position of
      `x`, or -1. */
  function IndexOf(list: seq<string>, x: string): (r: int)
    ensures -1 <= r < |list|
    ensures r == -1 <==> x !in list
    ensures r != -1 ==> list[r] == x && x !in list[..r]
  {
    if list == [] then -1
    else if list[0] == x then 0
    else
      var i := IndexOf(list[1..], x);
      assert list[1..][..if i == -1 then 0 else i] == list[1..1 + if i == -1 then 0 else i];
      if i == -1 then -1 else i + 1
  }

  /** The callback, given the request's `Origin` header (absent when the
      request carries none) and whether NODE_ENV is 'development'. */
  function Decide(origin: Option<string>, development: bool): (r: Decision)
    ensures r.Deny? ==> r.message == Refusal
  {
    if origin.None? || origin.value == "" then Allow
    else if IndexOf(AllowedOrigins, origin.value) != -1 || development then Allow
    else Deny(Refusal)
  }

  /** An origin is let through exactly when there is none, it is one of the
      eleven listed strings character for character, or the server runs in
      development. */
  lemma AllowedExactly(origin: Option<string>, development: bool)
    ensures Decide(origin, development) == Allow <==>
      origin.None? || origin.value == "" || origin.value in AllowedOrigins || development
  {
  }

  /** Only the last listed origin has 27 characters, and none has 28. */
  lemma ListedLengths(k: nat)
    requires k < |AllowedOrigins|
    ensures |AllowedOrigins[k]| != 28
    ensures |AllowedOrigins[k]| == 27 ==> k == 10
  {
  }

  /** Outside development, a listed origin is allowed. */
  lemma ListedOriginAllowed()
    ensures Decide(Some("https://theapicommunity.org"), false) == Allow
  {
    assert AllowedOrigins[10] == "https://theapicommunity.org";
  }

  /** Outside development, the comparison is exact: a listed origin with a
      trailing slash is refused ... */
  lemma TrailingSlashRefused()
    ensures Decide(Some("https://theapicommunity.org/"), false) == Deny(Refusal)
  {
    var slash := "https://theapicommunity.org/";
    assert |slash| == 28;
    forall k | 0 <= k < |AllowedOrigins| ensures AllowedOrigins[k] != slash {
      ListedLengths(k);
    }
  }

  /** ... and so is one whose host is written in capitals. */
  lemma CapitalsRefused()
    ensures Decide(Some("https://TheAPICommunity.org"), false) == Deny(Refusal)
  {
    var caps := "https://TheAPICommunity.org";
    assert |caps| == 27 && caps[8] == 'T';
    forall k | 0 <= k < |AllowedOrigins| ensures AllowedOrigins[k] != caps {
      ListedLengths(k);
      if k == 10 {
        assert AllowedOrigins[10][8] == 't';
      }
    }
  }

  /** In development every origin is allowed, whatever it is. */
  lemma DevelopmentAllowsAll(origin: Option<string>)
    ensures Decide(origin, true) == Allow
  {
  }
}
