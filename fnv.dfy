/**
 * 32-bit FNV-1a (section 2 of the IETF Internet-Draft draft-eastlake-fnv):
 * start from the offset basis, and for every octet XOR it into the low byte
 * and multiply by the FNV prime, modulo 2^32.
 */
module Fnv {

  const OffsetBasis: bv32 := 0x811c9dc5  // 2166136261
  const Prime: bv32 := 0x0100_0193       // 16777619

  /** One round of FNV-1a; bv32 multiplication wraps modulo 2^32. */
  function Step(h: bv32, octet: bv8): bv32 {
    (h ^ (octet as bv32)) * Prime
  }

  /** The 32-bit FNV-1a hash of a sequence of octets. */
  function Fnv1a32(data: seq<bv8>): bv32
    decreases |data|
  {
    if data == [] then OffsetBasis else Step(Fnv1a32(data[..|data| - 1]), data[|data| - 1])
  }

  predicate IsAscii(s: string) {
    forall i :: 0 <= i < |s| ==> s[i] as int < 128
  }

  /**
   * The octets the hash is taken over.  For ASCII text, which is all a
   * 24-character hexadecimal ObjectId string contains, this is its encoding.
   */
  function Octets(s: string): (data: seq<bv8>)
    ensures |data| == |s|
    ensures IsAscii(s) ==> forall i :: 0 <= i < |s| ==> data[i] as int == s[i] as int
  {
    seq(|s|, i requires 0 <= i < |s| => (s[i] as int % 256) as bv8)
  }

  /** The hash of a string, as the number `fnv1a32(s)` returns. */
  function HashString(s: string): (h: nat)
    ensures h < 0x1_0000_0000
  {
    Fnv1a32(Octets(s)) as nat
  }

  /** Reference values of 32-bit FNV-1a. */
  lemma TestVectors()
    ensures Fnv1a32([]) == 0x811c9dc5
    ensures Fnv1a32([0x61]) == 0xe40c292c
    ensures HashString("a") == 0xe40c292c
  {
    assert Octets("a") == [0x61];
    assert [0x61][..0] == [];
  }
}
