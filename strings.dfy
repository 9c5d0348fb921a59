// The text truncation helper of src/lib/strings.js.

module Strings {
  import opened JsBuiltins

  /** The marker appended to a truncated text (U+2026, one code unit). */
  const Ellipsis: string := "\U{2026}"

  /** The end index that `slice(0, end)` uses on a string of length `len`:
      a negative end counts back from the length, and both are clamped. */
  function SliceEnd(len: nat, end: int): (k: nat)
    ensures k <= len
    ensures 0 <= end <= len ==> k == end
  {
    if end < 0 then (if len + end < 0 then 0 else len + end)
    else if end > len then len else end
  }

  /** trim(text, max): an empty text gives the empty string; a text longer than
      `max` keeps its first max-1 characters, loses trailing whitespace and gets
      the ellipsis; a text that fits is returned as it is. */
  function Trim(text: string, max: int): (r: string)
    ensures text == [] ==> r == []
    ensures |text| <= max ==> r == text
    ensures 1 <= max < |text| ==> r == TrimEnd(text[..max - 1]) + Ellipsis
    ensures 1 <= max ==> |r| <= max
    ensures text != [] && |text| > max ==>
      |r| >= 1 && r[|r| - 1] == '\U{2026}' && (|r| == 1 || !IsSpace(r[|r| - 2]))
  {
    if text == [] then []
    else if |text| > max then TrimEnd(text[..SliceEnd(|text|, max - 1)]) + Ellipsis
    else text
  }}
