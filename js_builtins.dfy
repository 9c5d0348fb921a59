// The few JavaScript built-ins the widget's core relies on, written out so that
// the other modules can state exactly what they compute: the `\s` character
// class, String.prototype.trimEnd / trimStart / trim, an ASCII toLowerCase,
// Array.prototype.join, and a split used to read joined text back.

module JsBuiltins {

  /** `null` / `undefined` versus a present value. */
  datatype Option<T> = None | Some(value: T)

  /** The ECMAScript WhiteSpace and LineTerminator code points: exactly what the
      regular-expression class `\s` matches and what trimEnd and trim remove. */
  predicate IsSpace(c: char) {
    if c <= ' ' then
      c == ' ' || '\t' <= c <= '\r'
    else if c < '\U{A0}' then
      false
    else
      c == '\U{A0}' || c == '\U{1680}' || ('\U{2000}' <= c <= '\U{200A}')
      || c == '\U{2028}' || c == '\U{2029}' || c == '\U{202F}' || c == '\U{205F}'
      || c == '\U{3000}' || c == '\U{FEFF}'
  }

  predicate NoSpace(s: string) {
    forall k :: 0 <= k < |s| ==> !IsSpace(s[k])
  }

  /** String.prototype.trimEnd: the longest prefix that does not end in whitespace. */
  function TrimEnd(s: string): (r: string)
    ensures r <= s
    ensures r == [] || !IsSpace(r[|r| - 1])
    ensures forall k :: |r| <= k < |s| ==> IsSpace(s[k])
    decreases |s|
  {
    if s == [] || !IsSpace(s[|s| - 1]) then s else TrimEnd(s[..|s| - 1])
  }

  /** String.prototype.trimStart: drops the leading whitespace. */
  function TrimStart(s: string): (r: string)
    ensures |r| <= |s| && r == s[|s| - |r|..]
    ensures r == [] || !IsSpace(r[0])
    ensures forall k :: 0 <= k < |s| - |r| ==> IsSpace(s[k])
    decreases |s|
  {
    if s == [] || !IsSpace(s[0]) then s else TrimStart(s[1..])
  }

  /** String.prototype.trim: both ends. */
  function TrimBoth(s: string): string {
    TrimStart(TrimEnd(s))
  }

  /** A string without whitespace is left alone by trim. */
  lemma TrimBothNoSpace(s: string)
    requires NoSpace(s)
    ensures TrimBoth(s) == s
  {
  }

  /** String.prototype.toLowerCase, restricted to the ASCII letters. */
  function ToLower(s: string): (r: string)
    ensures |r| == |s|
    ensures forall k :: 0 <= k < |s| ==>
      r[k] == if 'A' <= s[k] <= 'Z' then (s[k] as int + 32) as char else s[k]
  {
    seq(|s|, k requires 0 <= k < |s| => if 'A' <= s[k] <= 'Z' then (s[k] as int + 32) as char else s[k])
  }

  /** Array.prototype.join: the elements with `sep` between neighbours. */
  function Join(xs: seq<string>, sep: string): string
    decreases |xs|
  {
    if xs == [] then "" else if |xs| == 1 then xs[0] else xs[0] + sep + Join(xs[1..], sep)
  }

  /** The pieces of `s` between the occurrences of `d` (String.prototype.split on
      a one-character separator); there is always at least one piece. It is
      here as the inverse `Join` is checked against: the page itself never
      splits. */
  function Split(s: string, d: char): (r: seq<string>)
    ensures |r| >= 1
    decreases |s|
  {
    if s == [] then [""]
    else
      var rest := Split(s[1..], d);
      if s[0] == d then [""] + rest else [[s[0]] + rest[0]] + rest[1..]
  }

  /** Splitting a piece that holds no separator, followed by a separator and more text. */
  lemma {:induction false} SplitAfterPiece(a: string, d: char, b: string)
    requires d !in a
    ensures Split(a + [d] + b, d) == [a] + Split(b, d)
    decreases |a|
  {
    if a == [] {
      assert [d] + b == a + [d] + b;
      assert ([d] + b)[1..] == b;
    } else {
      assert (a + [d] + b)[1..] == a[1..] + [d] + b;
      SplitAfterPiece(a[1..], d, b);
      assert [a[0]] + a[1..] == a;
    }
  }

  lemma {:induction false} SplitNoSeparator(a: string, d: char)
    requires d !in a
    ensures Split(a, d) == [a]
    decreases |a|
  {
    if a != [] {
      SplitNoSeparator(a[1..], d);
      assert [a[0]] + a[1..] == a;
    }
  }

  /** `Join`'s inverse: splitting undoes joining, as long as no element holds
      the separator, so joining the reply's lines loses nothing. */
  lemma {:induction false} SplitJoin(xs: seq<string>, d: char)
    requires |xs| >= 1
    requires forall i :: 0 <= i < |xs| ==> d !in xs[i]
    ensures Split(Join(xs, [d]), d) == xs
    decreases |xs|
  {
    if |xs| == 1 {
      SplitNoSeparator(xs[0], d);
    } else {
      SplitJoin(xs[1..], d);
      SplitAfterPiece(xs[0], d, Join(xs[1..], [d]));
      assert [xs[0]] + xs[1..] == xs;
    }
  }

  /** A joined list begins with its first element and a separator. */
  lemma {:induction false} JoinStartsWith(xs: seq<string>, sep: string)
    requires |xs| >= 2
    ensures xs[0] + sep <= Join(xs, sep)
  {
  }

  /** A joined list of two or more ends with a separator and its last element. */
  lemma {:induction false} JoinEndsWith(xs: seq<string>, sep: string)
    requires |xs| >= 2
    ensures var j := Join(xs, sep);
      |j| >= |sep| + |xs[|xs| - 1]| && j[|j| - |sep| - |xs[|xs| - 1]|..] == sep + xs[|xs| - 1]
    decreases |xs|
  {
    if |xs| > 2 {
      JoinEndsWith(xs[1..], sep);
    }
  }}
