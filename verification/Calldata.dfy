/** 256-bit words in a byte buffer, most significant byte first. */
module Calldata {
  import opened Evm

  type byte = n: nat | n < 256

  const WORD := 32

  function BigEndian(v: nat, n: nat): (s: seq<byte>)
    ensures |s| == n
  {
    if n == 0 then [] else BigEndian(v / 256, n - 1) + [v % 256]
  }

  function FromBigEndian(s: seq<byte>): nat {
    if |s| == 0 then 0 else FromBigEndian(s[..|s| - 1]) * 256 + s[|s| - 1]
  }

  function Pow256(n: nat): nat {
    if n == 0 then 1 else 256 * Pow256(n - 1)
  }

  lemma {:induction false} DecodesBack(v: nat, n: nat)
    requires v < Pow256(n)
    ensures FromBigEndian(BigEndian(v, n)) == v
  {
    if n > 0 {
      DecodesBack(v / 256, n - 1);
      assert BigEndian(v, n)[..n - 1] == BigEndian(v / 256, n - 1);
    }
  }

  lemma {:induction false} EncodesBack(s: seq<byte>)
    ensures FromBigEndian(s) < Pow256(|s|)
    ensures BigEndian(FromBigEndian(s), |s|) == s
  {
    if |s| > 0 {
      EncodesBack(s[..|s| - 1]);
    }
  }

  /** The first byte counts most. */
  lemma {:induction false} MostSignificantFirst(s: seq<byte>)
    requires 0 < |s|
    ensures FromBigEndian(s) == s[0] * Pow256(|s| - 1) + FromBigEndian(s[1..])
  {
    var n := |s| - 1;
    if n == 0 {
    } else {
      MostSignificantFirst(s[..n]);
      assert s[..n][1..] == s[1..][..n - 1];
      var low := FromBigEndian(s[1..][..n - 1]);
      assert (s[0] * Pow256(n - 1) + low) * 256 == s[0] * (256 * Pow256(n - 1)) + low * 256;
    }
  }

  lemma WordFits()
    ensures Pow256(WORD) == TWO_256
  {
    assert Pow256(8) == 0x1_0000_0000_0000_0000;
    Pow256Shift8(8, 0x1_0000_0000_0000_0000);
    Pow256Shift8(16, 0x1_0000_0000_0000_0000_0000_0000_0000_0000);
    Pow256Shift8(24, 0x1_0000_0000_0000_0000_0000_0000_0000_0000_0000_0000_0000_0000);
  }

  lemma Pow256Shift8(n: nat, c: nat)
    requires Pow256(n) == c
    ensures Pow256(n + 8) == 0x1_0000_0000_0000_0000 * c
  {
    assert Pow256(n + 2) == 0x1_0000 * Pow256(n);
    assert Pow256(n + 4) == 0x1_0000 * Pow256(n + 2);
    assert Pow256(n + 6) == 0x1_0000 * Pow256(n + 4);
    assert Pow256(n + 8) == 0x1_0000 * Pow256(n + 6);
  }

  predicate InRange(length: nat, offset: uint256) {
    4 <= offset && WORD <= length && offset <= length - WORD
  }

  /** The buffer with the word at `offset` overwritten. */
  function Patched(data: seq<byte>, offset: nat, amount: nat): (r: seq<byte>)
    requires offset + WORD <= |data|
    ensures |r| == |data|
  {
    data[..offset] + BigEndian(amount, WORD) + data[offset + WORD..]
  }

  /** Patching is local, leaves the function selector alone, and what it writes reads back as the amount. */
  lemma PatchedReadsBack(data: seq<byte>, offset: uint256, amount: uint256)
    requires InRange(|data|, offset)
    ensures FromBigEndian(Patched(data, offset, amount)[offset..offset + WORD]) == amount
    ensures Patched(data, offset, amount)[..4] == data[..4]
    ensures Patched(data, offset, amount)[..offset] == data[..offset]
    ensures Patched(data, offset, amount)[offset + WORD..] == data[offset + WORD..]
    ensures Patched(data, offset, FromBigEndian(data[offset..offset + WORD])) == data
  {
    WordFits();
    assert Patched(data, offset, amount)[offset..offset + WORD] == BigEndian(amount, WORD);
    DecodesBack(amount, WORD);
    EncodesBack(data[offset..offset + WORD]);
    assert data == data[..offset] + data[offset..offset + WORD] + data[offset + WORD..];
  }

  /** Writes the amount into the calldata in place; offset zero asks for no patch. */
  method PatchAmount(data: array<byte>, offset: uint256, amount: uint256) returns (o: Outcome)
    modifies data
    ensures o.Pass? <==> offset == 0 || 4 <= offset <= data.Length - 32
    ensures o.Pass? && offset != 0 ==>
              && FromBigEndian(data[offset..offset + 32]) == amount
              && data[..offset] == old(data[..offset])
              && data[offset + 32..] == old(data[offset + 32..])
    ensures data[..] == if o.Pass? && offset != 0 then Patched(old(data[..]), offset, amount) else old(data[..])
  {
    o := Pass;
    ghost var before := data[..];
    if offset != 0 {
      hide BigEndian, FromBigEndian, Pow256;
      :- Need(WORD <= data.Length, Underflow);
      :- Need(offset >= 4 && offset <= data.Length - WORD, InvalidCalldata);
      var word := BigEndian(amount, WORD);
      forall i | 0 <= i < WORD {
        data[offset + i] := word[i];
      }
      assert data[..] == Patched(before, offset, amount);
      PatchedReadsBack(before, offset, amount);
      hide Patched, FromBigEndian;
      assert data[..][offset..offset + WORD] == data[offset..offset + WORD];
      assert data[..][..offset] == data[..offset];
      assert data[..][offset + WORD..] == data[offset + WORD..];
    }
  }
}
