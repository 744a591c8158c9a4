/** Bytes, and 32-bit numbers with the highest byte first. */
module Bytes {
  type byte = x: nat | x < 256

  const U32_LIMIT: nat := 0x1_0000_0000

  function Be32(n: nat): (r: seq<byte>)
    ensures |r| == 4
  {
    [(n / 0x100_0000) % 256, (n / 0x1_0000) % 256, (n / 0x100) % 256, n % 256]
  }

  function FromBe32(s: seq<byte>): nat
    requires |s| >= 4
  {
    0x100_0000 * (s[0] as nat) + 0x1_0000 * (s[1] as nat) + 0x100 * (s[2] as nat) + s[3] as nat
  }

  lemma Be32RoundTrip(n: nat, more: seq<byte>)
    requires n < U32_LIMIT
    ensures FromBe32(Be32(n) + more) == n
  {
    var s := Be32(n) + more;
    assert s[0] == n / 0x100_0000;
    assert s[1] == (n / 0x1_0000) % 256 && s[2] == (n / 0x100) % 256 && s[3] == n % 256;
    assert n / 0x100 == 256 * (n / 0x1_0000) + s[2];
    assert n / 0x1_0000 == 256 * (n / 0x100_0000) + s[1];
  }

  function Concat(parts: seq<seq<byte>>): seq<byte> {
    if parts == [] then [] else Concat(parts[..|parts| - 1]) + parts[|parts| - 1]
  }
}
