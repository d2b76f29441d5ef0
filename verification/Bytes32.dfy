/** `bytes32ToString` of `UiPoolDataProviderV2`: the text in a zero-padded 32-byte word. */
module Bytes32 {
  import opened Calldata

  type bytes32 = s: seq<byte> | |s| == WORD witness seq(WORD, _ => 0)

  /** The index of the first zero byte, or the length. */
  function TextLength(s: seq<byte>): (n: nat)
    ensures n <= |s|
    ensures forall i :: 0 <= i < n ==> s[i] != 0
    ensures n < |s| ==> s[n] == 0
  {
    if |s| == 0 || s[0] == 0 then 0 else 1 + TextLength(s[1..])
  }

  function Text(s: seq<byte>): seq<byte> {
    s[..TextLength(s)]
  }

  function Pad(text: seq<byte>): (s: bytes32)
    requires |text| <= WORD
  {
    text + seq(WORD - |text|, _ => 0)
  }

  ghost predicate ZeroFree(s: seq<byte>) {
    forall i :: 0 <= i < |s| ==> s[i] != 0
  }

  /** The result is the longest prefix without a zero: nothing longer would do. */
  lemma TextIsLongest(s: seq<byte>, n: nat)
    requires n <= |s|
    ensures ZeroFree(s[..n]) <==> n <= |Text(s)|
    ensures ZeroFree(Text(s)) && Text(s) <= s
  {
  }

  /** Reading back a padded text gives the text, for every text that can be told from its padding. */
  lemma TextOfPadded(text: seq<byte>)
    requires |text| <= WORD
    ensures Text(Pad(text)) == text <==> ZeroFree(text)
  {
    var s := Pad(text);
    TextIsLongest(s, |text|);
    assert s[..|text|] == text;
    if ZeroFree(text) && |text| < WORD {
      assert s[|text|] == 0;
    }
  }

  /** Padding the text again gives the word, exactly when nothing follows its first zero. */
  lemma PaddedText(s: bytes32)
    ensures Pad(Text(s)) == s <==> forall i :: TextLength(s) <= i < WORD ==> s[i] == 0
  {
  }

  method Bytes32ToString(s: bytes32) returns (text: array<byte>)
    ensures fresh(text)
    ensures text[..] == Text(s)
  {
    var i := 0;
    while i < WORD && s[i] != 0
      invariant 0 <= i <= WORD
      invariant ZeroFree(s[..i])
    {
      i := i + 1;
    }
    TextIsLongest(s, i);
    if i < WORD {
      TextIsLongest(s, i + 1);
      assert s[..i + 1][i] == 0;
    }
    text := new byte[i];
    i := 0;
    while i < WORD && s[i] != 0
      invariant 0 <= i <= text.Length == |Text(s)|
      invariant text[..i] == s[..i]
    {
      TextIsLongest(s, i + 1);
      assert s[..i + 1] == s[..i] + [s[i]];
      text[i] := s[i];
      i := i + 1;
    }
  }
}
