/**
 * Operations on the ordered lists of e-mail addresses and phone numbers.
 * Removal by position is what both profile editors do; replacement at a
 * position belongs to the contact form's inline edit alone.
 */
module Entries {

  /**
   * `s.filter((_, i) => i !== index)`: keeps every element whose position
   * differs from `index`. Inside the bounds exactly that element goes and the
   * rest close up in order; any other index keeps the whole list.
   */
  function RemoveAt<T>(s: seq<T>, index: int): (r: seq<T>)
    ensures 0 <= index < |s| ==> r == s[..index] + s[index + 1..]
    ensures !(0 <= index < |s|) ==> r == s
  {
    if s == [] then []
    else
      var init := s[..|s| - 1];
      RemoveAt(init, index) + (if index == |s| - 1 then [] else [s[|s| - 1]])
  }

  /**
   * The copy-then-assign of `updated[index] = value`: only the entry at
   * `index` changes.
   */
  function ReplaceAt<T>(s: seq<T>, index: nat, value: T): (r: seq<T>)
    requires index < |s|
    ensures |r| == |s| && r[index] == value
    ensures forall j :: 0 <= j < |s| && j != index ==> r[j] == s[j]
  {
    s[index := value]
  }

  /** Every entry occurs once. */
  predicate Distinct<T(==)>(s: seq<T>) {
    forall i, j :: 0 <= i < j < |s| ==> s[i] != s[j]
  }

  /** Keystroke after keystroke on the same entry: only the last value remains. */
  lemma ReplaceAtLastWins<T>(s: seq<T>, index: nat, a: T, b: T)
    requires index < |s|
    ensures ReplaceAt(ReplaceAt(s, index, a), index, b) == ReplaceAt(s, index, b)
  {
    var x, y := ReplaceAt(ReplaceAt(s, index, a), index, b), ReplaceAt(s, index, b);
    assert forall j :: 0 <= j < |s| ==> x[j] == y[j];
  }

  /** Writing an entry back with its own value leaves the list as it was. */
  lemma ReplaceAtSame<T>(s: seq<T>, index: nat)
    requires index < |s|
    ensures ReplaceAt(s, index, s[index]) == s
  {
    var x := ReplaceAt(s, index, s[index]);
    assert forall j :: 0 <= j < |s| ==> x[j] == s[j];
  }

  /** Removing an entry cannot create a duplicate: a list of distinct entries stays distinct. */
  lemma {:induction false} RemoveAtKeepsDistinct<T>(s: seq<T>, index: int)
    requires Distinct(s)
    ensures Distinct(RemoveAt(s, index))
  {
    if 0 <= index < |s| {
      var r := RemoveAt(s, index);
      forall i, j | 0 <= i < j < |r| ensures r[i] != r[j] {
        var i' := if i < index then i else i + 1;
        var j' := if j < index then j else j + 1;
        assert r[i] == s[i'] && r[j] == s[j'];
      }
    }
  }
}
