/** Octets and numbers in network order. */
module Wire {
  type octet = n: int | 0 <= n < 256
  type PDU = seq<octet>

  const TWO8 := 0x100
  const TWO16 := 0x1_0000
  const TWO24 := 0x100_0000
  const TWO31 := 0x8000_0000
  const TWO32 := 0x1_0000_0000

  function Pow256(w: nat): (p: nat)
    ensures p > 0
  {
    if w == 0 then 1 else 256 * Pow256(w - 1)
  }

  /** The last w octets of a number, the highest first. */
  function Be(n: nat, w: nat): (s: seq<octet>)
    ensures |s| == w
  {
    if w == 0 then [] else Be(n / 256, w - 1) + [n % 256]
  }

  /** n shifted right by k octets. */
  function Shifted(n: nat, k: nat): nat {
    if k == 0 then n else Shifted(n / 256, k - 1)
  }

  /** The highest octet comes first. */
  lemma {:induction false} BeAt(n: nat, w: nat, i: nat)
    requires i < w
    ensures Be(n, w)[i] == Shifted(n, w - 1 - i) % 256
  {
    if i < w - 1 {
      BeAt(n / 256, w - 1, i);
    }
  }

  lemma FourOctets(x: nat)
    ensures Be(x, 4) == [x / TWO24 % TWO8, x / TWO16 % TWO8, x / TWO8 % TWO8, x % TWO8]
  {
    assert x / TWO8 / TWO8 == x / TWO16 && x / TWO16 / TWO8 == x / TWO24;
    assert Be(x / TWO24, 1) == Be(x / TWO24 / TWO8, 0) + [x / TWO24 % TWO8];
    assert Be(x / TWO16, 2) == Be(x / TWO24, 1) + [x / TWO16 % TWO8];
    assert Be(x / TWO8, 3) == Be(x / TWO16, 2) + [x / TWO8 % TWO8];
  }

  /** ntohl */
  function Un32(s: seq<octet>): (n: nat)
    requires |s| == 4
    ensures n < TWO32
  {
    s[0] * TWO24 + s[1] * TWO16 + s[2] * TWO8 + s[3]
  }

  /** The same as a signed int. */
  function Signed32(s: seq<octet>): (n: int)
    requires |s| == 4
    ensures -TWO31 <= n < TWO31
  {
    if Un32(s) < TWO31 then Un32(s) else Un32(s) - TWO32
  }

  lemma LengthRoundTrip(n: nat)
    requires n < TWO32
    ensures Un32(Be(n, 4)) == n && (n < TWO31 ==> Signed32(Be(n, 4)) == n)
  {
    FourOctets(n);
    assert n / TWO24 % TWO8 == n / TWO24;
  }
}
