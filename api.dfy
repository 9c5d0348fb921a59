// The profile-selection logic of src/lib/api.js (fetchUserByEmail). The two
// requests it makes are not performed here: their outcomes are parameters,
// one per request, exactly as the awaited fetchJSON calls would settle.

module Api {
  import opened JsBuiltins
  import opened Records

  /** A response body as the selection logic inspects it: an array of entries
      (`None` for a null entry), a falsy non-array (null), or any other
      non-array value (an object, a string, a number). */
  datatype Body = List(items: seq<Option<Profile>>) | Null | Other

  /** How one awaited fetchJSON call settles: with a parsed body, with an error
      carrying a message (a non-2xx status or a malformed body), or with an
      AbortError (the caller's signal or the internal timeout fired before the
      headers arrived). After the headers an abort no longer gives an
      AbortError: on success fetchJSON's `finally` unhooks the signal before
      the body is parsed, and on a non-2xx status an aborted `res.text()` is
      caught as '' and the HTTP error is thrown as usual. */
  datatype Fetch = Got(body: Body) | HttpFailure(message: string) | Aborted

  /** How fetchUserByEmail settles: resolved with a profile, resolved with null,
      rejected with an error message, or rejected with an AbortError. */
  datatype Lookup = Match(profile: Profile) | NoMatch | Failure(message: string) | Cancelled

  /** The TypeError message of calling `.find` on a truthy non-array body. */
  const FindNotAFunction: string := "(all || []).find is not a function"

  /** String(u?.email || '').toLowerCase(): a null entry or a missing email
      reads as the empty string. */
  function EmailKey(u: Option<Profile>): string {
    ToLower(if u.Some? then u.value.email else "")
  }

  /** Array.prototype.findIndex with the comparison of line 41: the first entry
      whose lower-cased email is `lower`, or -1. */
  function FindIndex(items: seq<Option<Profile>>, lower: string): (k: int)
    ensures -1 <= k < |items|
    ensures 0 <= k ==> EmailKey(items[k]) == lower
    ensures 0 <= k ==> forall j :: 0 <= j < k ==> EmailKey(items[j]) != lower
    ensures k < 0 ==> forall j :: 0 <= j < |items| ==> EmailKey(items[j]) != lower
    decreases |items|
  {
    if items == [] then -1
    else if EmailKey(items[0]) == lower then 0
    else
      var k := FindIndex(items[1..], lower);
      if k < 0 then -1 else k + 1
  }

  /** The exact tier hits when its body is an array whose first entry is truthy. */
  predicate ExactHit(exact: Fetch) {
    exact.Got? && exact.body.List? && |exact.body.items| > 0 && exact.body.items[0].Some?
  }

  /** The full-list tier: `(all || []).find(...)`, then `found || null`. */
  function ScanAll(email: string, all: Fetch): Lookup {
    match all
    case Aborted => Cancelled
    case HttpFailure(m) => Failure(m)
    case Got(Null) => NoMatch
    case Got(Other) => Failure(FindNotAFunction)
    case Got(List(items)) =>
      var k := FindIndex(items, ToLower(email));
      if k < 0 then NoMatch
      else if items[k].Some? then Match(items[k].value)
      else NoMatch
  }

  /** fetchUserByEmail(apiBase, email, signal), given how its exact-filter
      request and its full-list request settle. A rejected first request
      rejects the call before the second one is made. */
  function FetchUserByEmail(email: string, exact: Fetch, all: Fetch): Lookup {
    match exact
    case Aborted => Cancelled
    case HttpFailure(m) => Failure(m)
    case Got(_) => if ExactHit(exact) then Match(exact.body.items[0].value) else ScanAll(email, all)
  }

  // --------------------------------------------------------------------- lemmas

  /** A hit in the exact tier is returned as it is, whatever the full list
      would have held: the second request plays no part. */
  lemma ExactHitWins(email: string, exact: Fetch, all1: Fetch, all2: Fetch)
    requires ExactHit(exact)
    ensures FetchUserByEmail(email, exact, all1) == Match(exact.body.items[0].value)
    ensures FetchUserByEmail(email, exact, all1) == FetchUserByEmail(email, exact, all2)
  {
  }

  /** A non-array, empty or null-headed exact result falls through to the
      full-list scan. */
  lemma ExactMissFallsThrough(email: string, exact: Fetch, all: Fetch)
    requires exact.Got? && !ExactHit(exact)
    ensures FetchUserByEmail(email, exact, all) == ScanAll(email, all)
  {
  }

  /** A profile found by the scan is the first entry of the full list whose
      email equals the query up to letter case. */
  lemma ScanMatchIsFirstCaseInsensitive(email: string, items: seq<Option<Profile>>, p: Profile)
    requires ScanAll(email, Got(List(items))) == Match(p)
    ensures ToLower(p.email) == ToLower(email)
    ensures exists k :: 0 <= k < |items| && items[k] == Some(p) &&
                        forall j :: 0 <= j < k ==> EmailKey(items[j]) != ToLower(email)
  {
    var k := FindIndex(items, ToLower(email));
    assert items[k] == Some(p);
  }

  /** For a non-empty query the scan finds nothing exactly when no profile in
      the list has that email up to letter case; a null list is read as an
      empty one. */
  lemma ScanNoMatch(email: string, items: seq<Option<Profile>>)
    requires email != ""
    ensures ScanAll(email, Got(List(items))) == NoMatch <==>
      forall j :: 0 <= j < |items| && items[j].Some? ==> ToLower(items[j].value.email) != ToLower(email)
    ensures ScanAll(email, Got(Null)) == ScanAll(email, Got(List([]))) == NoMatch
  {
    var lower := ToLower(email);
    assert |lower| > 0;
    var k := FindIndex(items, lower);
    if k >= 0 {
      assert EmailKey(items[k]) == lower;
      assert items[k].Some?;
    }
  }

  /** The scan ignores letter case in the query. */
  lemma ScanIgnoresCase(e1: string, e2: string, all: Fetch)
    requires ToLower(e1) == ToLower(e2)
    ensures ScanAll(e1, all) == ScanAll(e2, all)
  {
  }

  /** An AbortError in either request rejects the call with an AbortError, and
      an error in either request rejects it with that error's message, unless
      the exact tier already hit. */
  lemma RejectionsPropagate(email: string, exact: Fetch, all: Fetch)
    ensures exact.Aborted? ==> FetchUserByEmail(email, exact, all) == Cancelled
    ensures exact.HttpFailure? ==> FetchUserByEmail(email, exact, all) == Failure(exact.message)
    ensures exact.Got? && !ExactHit(exact) && all.Aborted? ==> FetchUserByEmail(email, exact, all) == Cancelled
    ensures exact.Got? && !ExactHit(exact) && all.HttpFailure? ==>
      FetchUserByEmail(email, exact, all) == Failure(all.message)
    ensures exact.Got? && !ExactHit(exact) && all == Got(Other) ==>
      FetchUserByEmail(email, exact, all) == Failure(FindNotAFunction)
  {
  }
}
