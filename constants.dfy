// src/lib/constants.js: the email sanitizer, the client-side email pattern and
// the de-duplicated list of preset test emails.

module Constants {
  import opened JsBuiltins

  /** The preset list as written; two entries carry a stray space. */
  const RawTestEmails: seq<string> := [
    "Sincere@april.biz",
    "Shanna@melissa.tv",
    "Nathan@yesenia.net",
    "Julianne.OConner@kory.org",
    "Lucio_Hettinger@annie.ca",
    "Karley_Dach@jasper.info",
    "Telly. Hoeger@billy.biz",
    "Sherwood@rosamond.me",
    "Chaim_McDermott@dana.io",
    "Rey. Padberg@karina.biz"
  ]

  // ---------------------------------------------------------------- sanitizeEmail

  /** The global replacement of `\s+` by the empty string. */
  function RemoveSpaces(s: string): (r: string)
    ensures NoSpace(r)
    ensures |r| <= |s|
    decreases |s|
  {
    if s == [] then [] else (if IsSpace(s[0]) then [] else [s[0]]) + RemoveSpaces(s[1..])
  }

  /** sanitizeEmail(s): every whitespace character removed, then trimmed. Called
      without an argument it sanitizes the empty string. */
  function SanitizeEmail(s: string): (r: string)
    ensures NoSpace(r)
    ensures s == [] ==> r == []
  {
    TrimBoth(RemoveSpaces(s))
  }

  /** The trailing trim() never has anything left to remove. */
  lemma SanitizeIsRemoveSpaces(s: string)
    ensures SanitizeEmail(s) == RemoveSpaces(s)
  {
    TrimBothNoSpace(RemoveSpaces(s));
  }

  /** Removing whitespace works piece by piece ... */
  lemma {:induction false} RemoveSpacesAppend(a: string, b: string)
    ensures RemoveSpaces(a + b) == RemoveSpaces(a) + RemoveSpaces(b)
    decreases |a|
  {
    if a != [] {
      var head := if IsSpace(a[0]) then [] else [a[0]];
      assert (a + b)[0] == a[0];
      assert (a + b)[1..] == a[1..] + b;
      calc {
        RemoveSpaces(a + b);
        head + RemoveSpaces(a[1..] + b);
        { RemoveSpacesAppend(a[1..], b); }
        head + (RemoveSpaces(a[1..]) + RemoveSpaces(b));
        (head + RemoveSpaces(a[1..])) + RemoveSpaces(b);
      }
    } else {
      assert a + b == b;
    }
  }

  /** ... drops a whitespace character, and keeps every other character as it
      is: a string is unchanged exactly when it has no whitespace. Together these
      say that sanitizing keeps the non-whitespace characters in their order. */
  lemma {:induction false} RemoveSpacesFixedPoint(s: string)
    ensures RemoveSpaces(s) == s <==> NoSpace(s)
    decreases |s|
  {
    if s != [] {
      RemoveSpacesFixedPoint(s[1..]);
      if IsSpace(s[0]) {
        assert |RemoveSpaces(s)| < |s|;
      } else {
        assert NoSpace(s) <==> NoSpace(s[1..]) by {
          if NoSpace(s[1..]) {
            forall k | 0 <= k < |s| ensures !IsSpace(s[k]) {
              if k > 0 { assert s[k] == s[1..][k - 1]; }
            }
          }
        }
        assert [s[0]] + s[1..] == s;
      }
    }
  }

  lemma SanitizeDropsSpace(c: char)
    requires IsSpace(c)
    ensures SanitizeEmail([c]) == []
  {
    SanitizeIsRemoveSpaces([c]);
  }

  lemma SanitizeKeepsNonSpace(c: char)
    requires !IsSpace(c)
    ensures SanitizeEmail([c]) == [c]
  {
    SanitizeIsRemoveSpaces([c]);
  }

  /** sanitizeEmail leaves a string without whitespace as it is ... */
  lemma SanitizeClean(s: string)
    requires NoSpace(s)
    ensures SanitizeEmail(s) == s
  {
    SanitizeIsRemoveSpaces(s);
    RemoveSpacesFixedPoint(s);
  }

  /** ... and closes up a single space between two such strings. */
  lemma SanitizeAroundSpace(a: string, b: string)
    requires NoSpace(a) && NoSpace(b)
    ensures SanitizeEmail(a + " " + b) == a + b
  {
    SanitizeIsRemoveSpaces(a + " " + b);
    RemoveSpacesAppend(a + " ", b);
    RemoveSpacesAppend(a, " ");
    RemoveSpacesFixedPoint(a);
    RemoveSpacesFixedPoint(b);
  }

  /** sanitizeEmail(sanitizeEmail(s)) == sanitizeEmail(s). */
  lemma SanitizeIdempotent(s: string)
    ensures SanitizeEmail(SanitizeEmail(s)) == SanitizeEmail(s)
  {
    var r := SanitizeEmail(s);
    SanitizeIsRemoveSpaces(r);
    RemoveSpacesFixedPoint(r);
  }

  // ------------------------------------------------------------------ emailRegex

  /** A character of the class `[^\s@]`. */
  predicate PartChar(c: char) {
    !IsSpace(c) && c != '@'
  }

  /** emailRegex, /^[^\s@]+@[^\s@]+\.[^\s@]+$/i, read literally: an '@' at i and a
      '.' at j cut the string into three non-empty runs of `[^\s@]`. (The `i`
      flag changes nothing: the pattern has no letters.) */
  predicate EmailRegex(s: string) {
    exists i, j :: 0 < i < |s| && i + 1 < j < |s| - 1 && s[i] == '@' && s[j] == '.'
      && forall k :: 0 <= k < |s| && k != i ==> PartChar(s[k])
  }

  predicate LocalPart(l: string) {
    |l| > 0 && forall k :: 0 <= k < |l| ==> PartChar(l[k])
  }

  predicate DomainPart(d: string) {
    (forall k :: 0 <= k < |d| ==> PartChar(d[k]))
    && exists k :: 0 < k < |d| - 1 && d[k] == '.'
  }

  /** The form local@domain.tld: one '@', a non-empty local part, and a domain
      holding a '.' with at least one character on each side. */
  predicate LocalAtDomain(s: string) {
    exists i :: 0 <= i < |s| && s[i] == '@' && LocalPart(s[..i]) && DomainPart(s[i + 1..])
  }

  lemma EmailRegexIff(s: string)
    ensures EmailRegex(s) <==> LocalAtDomain(s)
  {
    if EmailRegex(s) {
      var i, j :| 0 < i < |s| && i + 1 < j < |s| - 1 && s[i] == '@' && s[j] == '.'
        && forall k :: 0 <= k < |s| && k != i ==> PartChar(s[k]);
      var d := s[i + 1..];
      assert d[j - i - 1] == '.';
      assert LocalPart(s[..i]);
      assert DomainPart(d);
    }
    if LocalAtDomain(s) {
      var i :| 0 <= i < |s| && s[i] == '@' && LocalPart(s[..i]) && DomainPart(s[i + 1..]);
      var d := s[i + 1..];
      var k :| 0 < k < |d| - 1 && d[k] == '.';
      assert s[i + 1 + k] == '.';
      forall m | 0 <= m < |s| && m != i ensures PartChar(s[m]) {
        if m < i { assert s[m] == s[..i][m]; } else { assert s[m] == d[m - i - 1]; }
      }
    }
  }

  function CountChar(s: string, c: char): nat
    decreases |s|
  {
    if s == [] then 0 else (if s[0] == c then 1 else 0) + CountChar(s[1..], c)
  }

  lemma {:induction false} CountCharAppend(a: string, b: string, c: char)
    ensures CountChar(a + b, c) == CountChar(a, c) + CountChar(b, c)
    decreases |a|
  {
    if a != [] {
      assert (a + b)[0] == a[0];
      assert (a + b)[1..] == a[1..] + b;
      calc {
        CountChar(a + b, c);
        (if a[0] == c then 1 else 0) + CountChar(a[1..] + b, c);
        { CountCharAppend(a[1..], b, c); }
        (if a[0] == c then 1 else 0) + CountChar(a[1..], c) + CountChar(b, c);
      }
    } else {
      assert a + b == b;
    }
  }

  lemma {:induction false} CountCharAbsent(s: string, c: char)
    requires forall k :: 0 <= k < |s| ==> s[k] != c
    ensures CountChar(s, c) == 0
    decreases |s|
  {
    if s != [] {
      CountCharAbsent(s[1..], c);
    }
  }

  /** The pattern rejects every string without an '@' and every string with two
      or more. */
  lemma EmailRegexExactlyOneAt(s: string)
    ensures EmailRegex(s) ==> CountChar(s, '@') == 1
  {
    if EmailRegex(s) {
      var i, j :| 0 < i < |s| && i + 1 < j < |s| - 1 && s[i] == '@' && s[j] == '.'
        && forall k :: 0 <= k < |s| && k != i ==> PartChar(s[k]);
      assert s == s[..i] + [s[i]] + s[i + 1..];
      CountCharAppend(s[..i] + [s[i]], s[i + 1..], '@');
      CountCharAppend(s[..i], [s[i]], '@');
      forall k | 0 <= k < i ensures s[..i][k] != '@' { assert s[..i][k] == s[k]; }
      CountCharAbsent(s[..i], '@');
      var rest := s[i + 1..];
      forall k | 0 <= k < |rest| ensures rest[k] != '@' { assert rest[k] == s[i + 1 + k]; }
      CountCharAbsent(s[i + 1..], '@');
    }
  }

  // ----------------------------------------------------------------- TEST_EMAILS

  predicate NoDuplicates(xs: seq<string>) {
    forall i, j :: 0 <= i < j < |xs| ==> xs[i] != xs[j]
  }

  /** Array.from(new Set(xs)): each value once, in the order of its first
      occurrence (a Set iterates in insertion order). */
  function Dedup(xs: seq<string>): (r: seq<string>)
    ensures NoDuplicates(r)
    ensures forall x :: x in r <==> x in xs
    decreases |xs|
  {
    if xs == [] then []
    else
      var kept := Dedup(xs[..|xs| - 1]);
      var x := xs[|xs| - 1];
      assert forall y :: y in xs <==> y in xs[..|xs| - 1] || y == x;
      if x in kept then kept else kept + [x]
  }

  /** Where `x` first occurs in `xs`: `findIndex((e) => e === x)` for a value
      that is present. */
  function FirstIndex(xs: seq<string>, x: string): (k: nat)
    requires x in xs
    ensures k < |xs| && xs[k] == x
    ensures forall m :: 0 <= m < k ==> xs[m] != x
    decreases |xs|
  {
    if xs[0] == x then 0 else 1 + FirstIndex(xs[1..], x)
  }

  lemma FirstIndexOfPrefix(xs: seq<string>, n: nat, x: string)
    requires n <= |xs| && x in xs[..n]
    ensures x in xs && FirstIndex(xs, x) == FirstIndex(xs[..n], x)
  {
    var k := FirstIndex(xs[..n], x);
    assert xs[k] == x;
  }

  /** The de-duplicated list keeps the order of first occurrences. */
  lemma {:induction false} DedupKeepsFirstOccurrenceOrder(xs: seq<string>)
    ensures forall i, j :: 0 <= i < j < |Dedup(xs)| ==>
      FirstIndex(xs, Dedup(xs)[i]) < FirstIndex(xs, Dedup(xs)[j])
    decreases |xs|
  {
    if xs != [] {
      var n := |xs| - 1;
      var init := xs[..n];
      var kept := Dedup(init);
      DedupKeepsFirstOccurrenceOrder(init);
      forall y | y in kept ensures FirstIndex(xs, y) == FirstIndex(init, y) && FirstIndex(xs, y) < n {
        FirstIndexOfPrefix(xs, n, y);
      }
      var x := xs[n];
      var d := Dedup(xs);
      assert d == if x in kept then kept else kept + [x];
      forall i, j | 0 <= i < j < |d|
        ensures FirstIndex(xs, d[i]) < FirstIndex(xs, d[j])
      {
        assert d[i] == kept[i] && d[i] in kept;
        if j == |kept| {
          assert x !in init && d[j] == x;
          assert FirstIndex(xs, x) == n;
        } else {
          assert d[j] == kept[j] && d[j] in kept;
        }
      }
    }
  }

  /** RAW_TEST_EMAILS.map(sanitizeEmail). */
  function SanitizeAll(xs: seq<string>): (r: seq<string>)
    ensures |r| == |xs|
    ensures forall i :: 0 <= i < |xs| ==> r[i] == SanitizeEmail(xs[i])
  {
    seq(|xs|, i requires 0 <= i < |xs| => SanitizeEmail(xs[i]))
  }

  /** TEST_EMAILS. */
  function TestEmails(): seq<string> {
    Dedup(SanitizeAll(RawTestEmails))
  }

  /** What the construction guarantees for any raw list: every entry is
      sanitized, none repeats, the entries are exactly the sanitized raw values,
      and they come in the order of their first occurrences. */
  lemma PresetListWellFormed(raw: seq<string>)
    ensures NoDuplicates(Dedup(SanitizeAll(raw)))
    ensures forall e :: e in Dedup(SanitizeAll(raw)) ==> SanitizeEmail(e) == e
    ensures forall e :: e in Dedup(SanitizeAll(raw)) <==> e in SanitizeAll(raw)
    ensures forall i, j :: 0 <= i < j < |Dedup(SanitizeAll(raw))| ==>
      FirstIndex(SanitizeAll(raw), Dedup(SanitizeAll(raw))[i])
        < FirstIndex(SanitizeAll(raw), Dedup(SanitizeAll(raw))[j])
  {
    var sanitized := SanitizeAll(raw);
    forall e | e in Dedup(sanitized) ensures SanitizeEmail(e) == e {
      var k :| 0 <= k < |sanitized| && sanitized[k] == e;
      SanitizeIdempotent(raw[k]);
    }
    DedupKeepsFirstOccurrenceOrder(sanitized);
  }

  /** TEST_EMAILS is never empty: the quick-pick index arithmetic relies on it. */
  lemma TestEmailsNonEmpty()
    ensures |TestEmails()| > 0
  {
    var sanitized := SanitizeAll(RawTestEmails);
    assert sanitized[0] in sanitized;
  }

  /** The two halves around the stray space of that preset. */
  lemma StraySpaceHalves(raw: string, joined: string) returns (local: string, domain: string)
    requires raw == "Telly. Hoeger@billy.biz" && joined == "Telly.Hoeger@billy.biz"
    ensures raw == local + " " + domain && joined == local + domain
    ensures NoSpace(local) && NoSpace(domain)
  {
    local, domain := "Telly.", "Hoeger@billy.biz";
  }

  /** The preset with a stray space comes out joined up. */
  lemma StraySpaceRemoved(raw: string, joined: string)
    requires raw == "Telly. Hoeger@billy.biz" && joined == "Telly.Hoeger@billy.biz"
    ensures SanitizeEmail(raw) == joined
  {
    var local, domain := StraySpaceHalves(raw, joined);
    SanitizeAroundSpace(local, domain);
  }
}
