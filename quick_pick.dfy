// The index arithmetic of src/components/EmailQuickPick.jsx: which preset is
// "current" for the value in the email box, and which preset the Prev and
// Next buttons move to. The arithmetic is stated over any list; the buttons
// use the preset list TEST_EMAILS.

module QuickPick {
  import opened Constants

  /** Math.max(0, TEST_EMAILS.findIndex((e) => e === value)): the first
      position holding `value`; a value that is not a preset counts as the
      first one. */
  function Idx(list: seq<string>, value: string): (i: nat)
    ensures value in list ==> i < |list| && list[i] == value
    ensures value in list ==> forall j :: 0 <= j < i ==> list[j] != value
    ensures value !in list ==> i == 0
  {
    if value in list then FirstIndex(list, value) else 0
  }

  /** `idx <= 0 ? TEST_EMAILS.length - 1 : idx - 1` */
  function PrevIdx(list: seq<string>, value: string): int {
    var i := Idx(list, value);
    if i <= 0 then |list| - 1 else i - 1
  }

  /** `(idx + 1) % TEST_EMAILS.length`; the list is never empty. */
  function NextIdx(list: seq<string>, value: string): int
    requires |list| > 0
  {
    (Idx(list, value) + 1) % |list|
  }

  /** In a list without repetitions, the preset at position k is at index k. */
  lemma IdxOfEntry(list: seq<string>, k: nat)
    requires NoDuplicates(list) && k < |list|
    ensures Idx(list, list[k]) == k
  {
    var i := Idx(list, list[k]);
    assert list[i] == list[k];
  }

  /** Both neighbours are positions of the list; Next wraps from the last
      position to the first and Prev from the first to the last. */
  lemma NeighboursInRange(list: seq<string>, value: string)
    requires |list| > 0
    ensures 0 <= PrevIdx(list, value) < |list| && 0 <= NextIdx(list, value) < |list|
    ensures Idx(list, value) == |list| - 1 ==> NextIdx(list, value) == 0
    ensures Idx(list, value) < |list| - 1 ==> NextIdx(list, value) == Idx(list, value) + 1
    ensures Idx(list, value) == 0 ==> PrevIdx(list, value) == |list| - 1
    ensures 0 < Idx(list, value) ==> PrevIdx(list, value) == Idx(list, value) - 1
    ensures value !in list ==> PrevIdx(list, value) == |list| - 1 && NextIdx(list, value) == 1 % |list|
  {
    var i, n := Idx(list, value), |list|;
    assert i < n;
    if i == n - 1 {
      assert (i + 1) % n == 0;
    } else {
      assert (i + 1) % n == i + 1;
    }
  }

  /** Prev undoes Next: stepping back from the next preset returns to the
      current one. */
  lemma PrevAfterNext(list: seq<string>, value: string)
    requires NoDuplicates(list) && value in list
    ensures var n := NextIdx(list, value);
      0 <= n < |list| && PrevIdx(list, list[n]) == Idx(list, value)
  {
    NeighboursInRange(list, value);
    IdxOfEntry(list, NextIdx(list, value));
  }

  /** Next undoes Prev. */
  lemma NextAfterPrev(list: seq<string>, value: string)
    requires NoDuplicates(list) && value in list
    ensures var p := PrevIdx(list, value);
      0 <= p < |list| && NextIdx(list, list[p]) == Idx(list, value)
  {
    NeighboursInRange(list, value);
    var p := PrevIdx(list, value);
    IdxOfEntry(list, p);
    if Idx(list, value) == 0 {
      assert (p + 1) % |list| == 0;
    }
  }

  /** onPrev: the preset before the current one, which is both put in the email
      box and applied. */
  function OnPrev(value: string): (em: string)
    ensures em in TestEmails()
  {
    TestEmailsNonEmpty();
    NeighboursInRange(TestEmails(), value);
    TestEmails()[PrevIdx(TestEmails(), value)]
  }

  /** onNext: the preset after the current one, put in the box and applied. */
  function OnNext(value: string): (em: string)
    ensures em in TestEmails()
  {
    TestEmailsNonEmpty();
    NeighboursInRange(TestEmails(), value);
    TestEmails()[NextIdx(TestEmails(), value)]
  }

  /** Pressing Next and then Prev, or Prev and then Next, comes back to the
      preset shown; from a value that is not a preset, Prev gives the last
      preset. */
  lemma PrevAndNextUndoEachOther(value: string)
    ensures value in TestEmails() ==> OnPrev(OnNext(value)) == value && OnNext(OnPrev(value)) == value
    ensures value !in TestEmails() ==> OnPrev(value) == TestEmails()[|TestEmails()| - 1]
  {
    TestEmailsNonEmpty();
    PresetListWellFormed(RawTestEmails);
    if value in TestEmails() {
      PrevAfterNext(TestEmails(), value);
      NextAfterPrev(TestEmails(), value);
    } else {
      NeighboursInRange(TestEmails(), value);
    }
  }
}
