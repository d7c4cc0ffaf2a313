/** Identifier generation (`IdUtil.randomId`): a prefix followed by `len`
    characters drawn from a 62-character alphabet. The secure random source is
    injected as the sequence of indices it would return. */
module Ids {
  import opened Common

  const Upper: string := "ABCDEFGHIJKLMNOPQRSTUVWXYZ"
  const Lower: string := "abcdefghijklmnopqrstuvwxyz"
  const Digits: string := "0123456789"

  /** The alphabet, in the order the source lists it. */
  const Alphanum: string := Upper + Lower + Digits

  /** Independent description of the alphabet: ASCII letters and digits. */
  predicate IsAlphanumeric(c: char) {
    'A' <= c <= 'Z' || 'a' <= c <= 'z' || '0' <= c <= '9'
  }

  /** Every index the random source may return (`nextInt(62)`) is in range. */
  predicate ValidDraws(draws: seq<int>) {
    forall k :: 0 <= k < |draws| ==> 0 <= draws[k] < |Alphanum|
  }

  /** The characters the draws select. */
  function Picked(draws: seq<int>): (s: string)
    requires ValidDraws(draws)
    ensures |s| == |draws|
  {
    seq(|draws|, k requires 0 <= k < |draws| => Alphanum[draws[k]])
  }

  /** Every character of the alphabet is an ASCII letter or digit, and there
      are exactly 62 of them. */
  lemma AlphabetIsAlphanumeric()
    ensures |Alphanum| == 62
    ensures forall i :: 0 <= i < |Alphanum| ==> IsAlphanumeric(Alphanum[i])
  {
    assert forall i :: 0 <= i < |Upper| ==> 'A' <= Upper[i] <= 'Z';
    assert forall i :: 0 <= i < |Lower| ==> 'a' <= Lower[i] <= 'z';
    assert forall i :: 0 <= i < |Digits| ==> '0' <= Digits[i] <= '9';
  }

  /** The number of characters the loop appends: none for a negative length. */
  function Appended(len: int): nat {
    if len < 0 then 0 else len
  }

  /** `randomId(prefix, len)` with the random indices given up front. */
  method RandomId(prefix: string, len: int, draws: seq<int>) returns (id: string)
    requires ValidDraws(draws)
    requires len <= |draws|
    ensures StartsWith(id, prefix)
    ensures |id| == |prefix| + Appended(len)
    ensures id[|prefix|..] == Picked(draws[..Appended(len)])
    ensures forall k :: |prefix| <= k < |id| ==> IsAlphanumeric(id[k])
    ensures len <= 0 ==> id == prefix
  {
    AlphabetIsAlphanumeric();
    id := prefix;
    var i := 0;
    while i < len
      invariant 0 <= i <= Appended(len)
      invariant id == prefix + Picked(draws[..i])
    {
      assert draws[..i + 1] == draws[..i] + [draws[i]];
      id := id + [Alphanum[draws[i]]];
      i := i + 1;
    }
    assert i == Appended(len);
    assert id[|prefix|..] == Picked(draws[..i]);
  }
}
