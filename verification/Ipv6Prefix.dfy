/** The prefix length of an IPv6 netmask. */
module Ipv6Prefix {

  const ADDRESS_LENGTH := 16

  /** A byte of an address. */
  type Byte = x: int | 0 <= x < 256

  ghost function Ones(b: nat): nat {
    if b == 0 then 0 else b % 2 + Ones(b / 2)
  }

  ghost function OnesIn(bytes: seq<Byte>): nat {
    if bytes == [] then 0 else OnesIn(bytes[..|bytes| - 1]) + Ones(bytes[|bytes| - 1])
  }

  /** UpnpComputeIpv6PrefixLength counts the ones; it shifts them out, so the mask is lost. */
  method ComputePrefixLength(mask: array?<Byte>) returns (length: nat)
    requires mask != null ==> mask.Length == ADDRESS_LENGTH
    modifies mask
    ensures mask == null ==> length == 0
    ensures mask != null ==> length == OnesIn(old(mask[..])) && forall i :: 0 <= i < mask.Length ==> mask[i] == 0
  {
    length := 0;
    if mask == null {
      return;
    }
    for i := 0 to mask.Length
      invariant length == OnesIn(old(mask[..])[..i])
      invariant forall k :: 0 <= k < i ==> mask[k] == 0
      invariant forall k :: i <= k < mask.Length ==> mask[k] == old(mask[k])
    {
      assert old(mask[..])[..i + 1][..i] == old(mask[..])[..i];
      while mask[i] != 0
        invariant length + Ones(mask[i]) == OnesIn(old(mask[..])[..i + 1])
        invariant forall k :: 0 <= k < i ==> mask[k] == 0
        invariant forall k :: i < k < mask.Length ==> mask[k] == old(mask[k])
        decreases mask[i]
      {
        length := length + mask[i] % 2;
        mask[i] := mask[i] / 2;
      }
    }
    assert old(mask[..])[..mask.Length] == old(mask[..]);
  }

  /** A byte whose k highest bits are set. */
  function TopBits(k: int): Byte
    requires 0 <= k <= 8
  {
    if k == 0 then 0 else if k == 1 then 0x80 else if k == 2 then 0xC0 else if k == 3 then 0xE0
    else if k == 4 then 0xF0 else if k == 5 then 0xF8 else if k == 6 then 0xFC else if k == 7 then 0xFE else 0xFF
  }

  function Within(x: int): (r: int)
    ensures 0 <= r <= 8
  {
    if x < 0 then 0 else if x > 8 then 8 else x
  }

  /** The first n bytes of the netmask with prefix length p. */
  ghost function Netmask(p: nat, n: nat): (r: seq<Byte>)
    ensures |r| == n && forall i :: 0 <= i < n ==> r[i] == TopBits(Within(p - 8 * i))
  {
    if n == 0 then [] else Netmask(p, n - 1) + [TopBits(Within(p - 8 * (n - 1)))]
  }

  lemma OnesOfTopBits(k: int)
    requires 0 <= k <= 8
    ensures Ones(TopBits(k)) == k
  {
    assert Ones(1) == 1 && Ones(3) == 2 && Ones(7) == 3 && Ones(15) == 4;
    assert Ones(31) == 5 && Ones(63) == 6 && Ones(127) == 7 && Ones(255) == 8;
    assert Ones(2) == 1 && Ones(4) == 1 && Ones(8) == 1 && Ones(16) == 1 && Ones(32) == 1 && Ones(64) == 1
        && Ones(128) == 1;
    assert Ones(6) == 2 && Ones(12) == 2 && Ones(24) == 2 && Ones(48) == 2 && Ones(96) == 2 && Ones(192) == 2;
    assert Ones(14) == 3 && Ones(28) == 3 && Ones(56) == 3 && Ones(112) == 3 && Ones(224) == 3;
    assert Ones(30) == 4 && Ones(60) == 4 && Ones(120) == 4 && Ones(240) == 4;
    assert Ones(62) == 5 && Ones(124) == 5 && Ones(248) == 5;
    assert Ones(126) == 6 && Ones(252) == 6 && Ones(254) == 7;
  }

  lemma {:induction false} OnesOfNetmask(p: nat, n: nat)
    requires p <= 8 * ADDRESS_LENGTH
    ensures OnesIn(Netmask(p, n)) == if p < 8 * n then p else 8 * n
  {
    if n > 0 {
      OnesOfNetmask(p, n - 1);
      OnesOfTopBits(Within(p - 8 * (n - 1)));
      assert Netmask(p, n)[..n - 1] == Netmask(p, n - 1);
      hide Ones, TopBits;
    }
  }

  /** For the netmask of a prefix of p bits the count is p. */
  method PrefixOfNetmask(p: nat, mask: array<Byte>) returns (length: nat)
    requires p <= 8 * ADDRESS_LENGTH && mask[..] == Netmask(p, ADDRESS_LENGTH)
    modifies mask
    ensures length == p
  {
    OnesOfNetmask(p, ADDRESS_LENGTH);
    length := ComputePrefixLength(mask);
  }
}
