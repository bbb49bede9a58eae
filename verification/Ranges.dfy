// The address ranges written into the nft script, and what they hold read as
// octets and groups.
module Ranges {
  import opened Net
  import opened PrefixSets

  // ---- The ranges ---------------------------------------------------------

  function Bit(n: nat, k: nat): bool {
    if k == 0 then n % 2 == 1 else Bit(n / 2, k - 1)
  }

  function Byte(n: nat): (b: seq<bool>)
    ensures |b| == 8
  {
    seq(8, i requires 0 <= i < 8 => Bit(n, 7 - i))
  }

  function Net4(a: nat, b: nat, len: nat): Prefix
    requires len <= 32
  {
    RawPrefix(RawAddr(V4, Byte(a) + Byte(b) + Zeros(16)), len)
  }

  function Net6(group: nat, len: nat): Prefix
    requires len <= 128
  {
    RawPrefix(RawAddr(V6, Byte(group / 256) + Byte(group % 256) + Zeros(112)), len)
  }

  function Loopback(fam: Family): Prefix {
    match fam
    case V4 => Net4(127, 0, 8)
    case V6 => HostPrefix(RawAddr(V6, Zeros(127) + [true]))
  }

  // The private, link-local and multicast ranges the guard lets out directly.
  function ListedRanges(fam: Family): seq<Prefix> {
    match fam
    case V4 => [Net4(10, 0, 8), Net4(172, 16, 12), Net4(192, 168, 16), Net4(169, 254, 16), Net4(224, 0, 4)]
    case V6 => [Net6(0xfe80, 10), Net6(0xfc00, 7), Net6(0xff02, 16)]
  }

  // ---- Bits as numbers ----------------------------------------------------

  function Pow2(n: nat): (p: nat)
    ensures p > 0
  {
    if n == 0 then 1 else 2 * Pow2(n - 1)
  }

  // The number a bit string spells, most significant bit first.
  function Value(b: seq<bool>): nat {
    if b == [] then 0 else 2 * Value(b[..|b| - 1]) + if b[|b| - 1] then 1 else 0
  }

  function Octet(a: Addr, i: nat): nat
    requires 8 * i + 8 <= |a.bits|
  {
    Value(a.bits[8 * i..8 * i + 8])
  }

  function Group(a: Addr, i: nat): nat
    requires 16 * i + 16 <= |a.bits|
  {
    Value(a.bits[16 * i..16 * i + 16])
  }

  lemma {:induction false} ValueBelow(b: seq<bool>)
    ensures Value(b) < Pow2(|b|)
  {
    if b != [] {
      ValueBelow(b[..|b| - 1]);
    }
  }

  // v doubled n times.
  function Doubled(v: nat, n: nat): nat {
    if n == 0 then v else 2 * Doubled(v, n - 1)
  }

  lemma {:induction false} ValueOfConcat(a: seq<bool>, b: seq<bool>)
    ensures Value(a + b) == Doubled(Value(a), |b|) + Value(b)
    decreases |b|
  {
    if b == [] {
      assert a + b == a;
    } else {
      var n := |b| - 1;
      ValueOfConcat(a, b[..n]);
      assert (a + b)[..|a| + n] == a + b[..n];
    }
  }

  // The small cases, as numbers.
  lemma {:induction false} Doublings(v: nat)
    ensures Doubled(v, 1) == 2 * v && Doubled(v, 4) == 16 * v && Doubled(v, 6) == 64 * v && Doubled(v, 8) == 256 * v
  {
    assert Doubled(v, 2) == 2 * Doubled(v, 1) == 4 * v;
    assert Doubled(v, 4) == 2 * Doubled(v, 3) == 4 * Doubled(v, 2);
    assert Doubled(v, 6) == 2 * Doubled(v, 5) == 4 * Doubled(v, 4);
    assert Doubled(v, 8) == 2 * Doubled(v, 7) == 4 * Doubled(v, 6);
  }

  lemma Powers()
    ensures Pow2(1) == 2 && Pow2(4) == 16 && Pow2(6) == 64 && Pow2(8) == 256
  {
    assert Pow2(2) == 2 * Pow2(1) == 4;
    assert Pow2(4) == 2 * Pow2(3) == 4 * Pow2(2);
    assert Pow2(6) == 2 * Pow2(5) == 4 * Pow2(4);
    assert Pow2(8) == 2 * Pow2(7) == 4 * Pow2(6);
  }

  lemma {:induction false} ValueDetermines(a: seq<bool>, b: seq<bool>)
    requires |a| == |b| && Value(a) == Value(b)
    ensures a == b
  {
    if a != [] {
      var n := |a| - 1;
      ValueDetermines(a[..n], b[..n]);
      assert a == a[..n] + [a[n]] && b == b[..n] + [b[n]];
    }
  }

  // How the leading k bits of an octet show in its number.
  lemma {:induction false} OctetLead(b: seq<bool>, c: seq<bool>, k: nat)
    requires |b| == |c| == 8 && k in {2, 4, 7, 8}
    ensures k == 2 ==> (b[..k] == c[..k] <==> Value(b) / 64 == Value(c) / 64)
    ensures k == 4 ==> (b[..k] == c[..k] <==> Value(b) / 16 == Value(c) / 16)
    ensures k == 7 ==> (b[..k] == c[..k] <==> Value(b) / 2 == Value(c) / 2)
    ensures k == 8 ==> (b[..k] == c[..k] <==> Value(b) == Value(c))
  {
    Lead(b, k);
    Lead(c, k);
    if Value(b[..k]) == Value(c[..k]) {
      ValueDetermines(b[..k], c[..k]);
    }
  }

  lemma {:induction false} Lead(b: seq<bool>, k: nat)
    requires |b| == 8 && k in {2, 4, 7, 8}
    ensures k == 2 ==> Value(b[..k]) == Value(b) / 64
    ensures k == 4 ==> Value(b[..k]) == Value(b) / 16
    ensures k == 7 ==> Value(b[..k]) == Value(b) / 2
    ensures k == 8 ==> Value(b[..k]) == Value(b)
  {
    assert b == b[..k] + b[k..];
    ValueOfConcat(b[..k], b[k..]);
    ValueBelow(b[k..]);
    Doublings(Value(b[..k]));
    Powers();
  }

  // n with its last j bits cut off.
  function Shifted(n: nat, j: nat): nat {
    if j == 0 then n else Shifted(n / 2, j - 1)
  }

  lemma {:induction false} BitByBit(n: nat, j: nat)
    ensures Shifted(n, j) == 2 * Shifted(n, j + 1) + if Bit(n, j) then 1 else 0
    decreases j
  {
    if j > 0 {
      BitByBit(n / 2, j - 1);
    }
  }

  lemma {:induction false} ShiftedAway(n: nat, j: nat)
    requires n < Pow2(j)
    ensures Shifted(n, j) == 0
    decreases j
  {
    if j > 0 {
      ShiftedAway(n / 2, j - 1);
    }
  }

  lemma {:induction false} LeadOfByte(n: nat, k: nat)
    requires n < 256 && k <= 8
    ensures Value(Byte(n)[..k]) == Shifted(n, 8 - k)
    decreases k
  {
    if k == 0 {
      Powers();
      ShiftedAway(n, 8);
    } else {
      LeadOfByte(n, k - 1);
      assert Byte(n)[..k][..k - 1] == Byte(n)[..k - 1];
      BitByBit(n, 8 - k);
    }
  }

  // A byte spells its number.
  lemma ValueOfByte(n: nat)
    requires n < 256
    ensures Value(Byte(n)) == n
  {
    LeadOfByte(n, 8);
    assert Byte(n)[..8] == Byte(n);
  }

  lemma ValueOfTwoBytes(x: nat, y: nat)
    requires x < 256 && y < 256
    ensures Value(Byte(x) + Byte(y)) == 256 * x + y
  {
    ValueOfByte(x);
    ValueOfByte(y);
    ValueOfConcat(Byte(x), Byte(y));
    Doublings(x);
  }

  lemma OctetsBelow(a: Addr)
    ensures Octet(a, 0) < 256 && Octet(a, 1) < 256
    ensures a.fam == V6 ==> Group(a, 0) == 256 * Octet(a, 0) + Octet(a, 1)
  {
    var b, c := a.bits[0..8], a.bits[8..16];
    ValueBelow(b);
    ValueBelow(c);
    Powers();
    assert a.bits[0..16] == b + c;
    ValueOfConcat(b, c);
    Doublings(Value(b));
  }

  // Leading bits that end in the first octet, or in the second.
  lemma {:induction false} InFirstOctet(p: Prefix, x: nat, a: Addr)
    requires x < 256 && p.len <= 8 && p.addr.bits[0..8] == Byte(x) && a.fam == p.addr.fam
    ensures Contains(p, a) <==> a.bits[0..8][..p.len] == Byte(x)[..p.len]
    ensures Value(Byte(x)) == x
  {
    ValueOfByte(x);
    assert a.bits[0..8][..p.len] == a.bits[..p.len];
    assert p.addr.bits[0..8][..p.len] == p.addr.bits[..p.len];
  }

  lemma {:induction false} InSecondOctet(p: Prefix, x: nat, y: nat, a: Addr)
    requires x < 256 && y < 256 && 8 <= p.len <= 16 && a.fam == p.addr.fam
    requires p.addr.bits[0..8] == Byte(x) && p.addr.bits[8..16] == Byte(y)
    ensures Contains(p, a) <==> Octet(a, 0) == x && a.bits[8..16][..p.len - 8] == Byte(y)[..p.len - 8]
    ensures Value(Byte(y)) == y
  {
    ValueOfByte(x);
    ValueOfByte(y);
    var k := p.len;
    assert a.bits[..k] == a.bits[0..8] + a.bits[8..16][..k - 8];
    assert p.addr.bits[..k] == p.addr.bits[0..8] + p.addr.bits[8..16][..k - 8];
    assert a.bits[..k][..8] == a.bits[0..8] && p.addr.bits[..k][..8] == p.addr.bits[0..8];
    assert a.bits[..k][8..] == a.bits[8..16][..k - 8] && p.addr.bits[..k][8..] == p.addr.bits[8..16][..k - 8];
    if Octet(a, 0) == x {
      ValueDetermines(a.bits[0..8], Byte(x));
    }
  }

  // ---- What the ranges hold -----------------------------------------------

  // 10/8, 172.16/12, 192.168/16, 169.254/16 and 224/4; fe80::/10, fc00::/7, ff02::/16.
  predicate Listed(fam: Family, a: Addr) {
    && a.fam == fam
    && match fam
       case V4 =>
         var x, y := Octet(a, 0), Octet(a, 1);
         || x == 10
         || (x == 172 && 16 <= y < 32)
         || (x == 192 && y == 168)
         || (x == 169 && y == 254)
         || 224 <= x < 240
       case V6 =>
         var g := Group(a, 0);
         0xfe80 <= g < 0xfec0 || 0xfc00 <= g < 0xfe00 || g == 0xff02
  }

  lemma OctetRange(x: nat, len: nat, a: Addr)
    requires x < 256 && len in {4, 8}
    ensures Contains(Net4(x, 0, len), a) <==>
      a.fam == V4 && if len == 8 then Octet(a, 0) == x else Octet(a, 0) / 16 == x / 16
  {
    var p := Net4(x, 0, len);
    assert p.addr.bits[0..8] == Byte(x);
    if a.fam == V4 {
      InFirstOctet(p, x, a);
      OctetLead(a.bits[0..8], Byte(x), len);
    }
  }

  lemma TwoOctetRange(x: nat, y: nat, len: nat, a: Addr)
    requires x < 256 && y < 256 && len in {12, 16}
    ensures Contains(Net4(x, y, len), a) <==>
      a.fam == V4 && Octet(a, 0) == x && if len == 16 then Octet(a, 1) == y else Octet(a, 1) / 16 == y / 16
  {
    var p := Net4(x, y, len);
    assert p.addr.bits[0..8] == Byte(x) && p.addr.bits[8..16] == Byte(y);
    if a.fam == V4 {
      InSecondOctet(p, x, y, a);
      OctetLead(a.bits[8..16], Byte(y), len - 8);
    }
  }

  lemma GroupRange(x: nat, y: nat, len: nat, a: Addr)
    requires x < 256 && y < 256 && len in {7, 10, 16} && a.fam == V6
    ensures Contains(Net6(256 * x + y, len), a) <==>
      if len == 7 then Octet(a, 0) / 2 == x / 2
      else Octet(a, 0) == x && if len == 16 then Octet(a, 1) == y else Octet(a, 1) / 64 == y / 64
  {
    var p := Net6(256 * x + y, len);
    assert p.addr.bits[0..8] == Byte(x) && p.addr.bits[8..16] == Byte(y);
    if len == 7 {
      InFirstOctet(p, x, a);
      OctetLead(a.bits[0..8], Byte(x), len);
    } else {
      InSecondOctet(p, x, y, a);
      OctetLead(a.bits[8..16], Byte(y), len - 8);
    }
  }

  lemma ListedV4(a: Addr)
    ensures Denotes(ListedRanges(V4), a) <==> Listed(V4, a)
  {
    OctetsBelow(a);
    OctetRange(10, 8, a);
    TwoOctetRange(172, 16, 12, a);
    TwoOctetRange(192, 168, 16, a);
    TwoOctetRange(169, 254, 16, a);
    OctetRange(224, 4, a);
    FiveRanges(Net4(10, 0, 8), Net4(172, 16, 12), Net4(192, 168, 16), Net4(169, 254, 16), Net4(224, 0, 4), a);
  }

  lemma FiveRanges(p: Prefix, q: Prefix, r: Prefix, s: Prefix, t: Prefix, a: Addr)
    ensures Denotes([p, q, r, s, t], a) <==>
      Contains(p, a) || Contains(q, a) || Contains(r, a) || Contains(s, a) || Contains(t, a)
  {
    var ps := [p, q, r, s, t];
    assert ps[0] in ps && ps[1] in ps && ps[2] in ps && ps[3] in ps && ps[4] in ps;
  }

  lemma ListedV6(a: Addr)
    ensures Denotes(ListedRanges(V6), a) <==> Listed(V6, a)
  {
    var ps := ListedRanges(V6);
    assert ps[0] in ps && ps[1] in ps && ps[2] in ps;
    if a.fam == V6 {
      OctetsBelow(a);
      GroupRange(0xfe, 0x80, 10, a);
      GroupRange(0xfc, 0x00, 7, a);
      GroupRange(0xff, 0x02, 16, a);
    }
  }

  lemma ListedMeans(fam: Family, a: Addr)
    ensures Denotes(ListedRanges(fam), a) <==> Listed(fam, a)
  {
    if fam == V4 {
      ListedV4(a);
    } else {
      ListedV6(a);
    }
  }

  // 127/8 and ::1.
  predicate IsLoopback(fam: Family, a: Addr) {
    a.fam == fam && if fam == V4 then Octet(a, 0) == 127 else Value(a.bits) == 1
  }

  lemma {:induction false} ValueOfZeros(n: nat)
    ensures Value(Zeros(n)) == 0
  {
    if n > 0 {
      ValueOfZeros(n - 1);
      assert Zeros(n)[..n - 1] == Zeros(n - 1);
    }
  }

  lemma LoopbackMeans(fam: Family, a: Addr)
    ensures Contains(Loopback(fam), a) <==> IsLoopback(fam, a)
  {
    if fam == V4 {
      OctetRange(127, 8, a);
    } else {
      var one: Addr := RawAddr(V6, Zeros(127) + [true]);
      ValueOfZeros(127);
      assert one.bits[..127] == Zeros(127);
      HostPrefixHoldsOnlyItself(one, a);
      if a.fam == V6 && Value(a.bits) == 1 {
        ValueDetermines(a.bits, one.bits);
      }
    }
  }
}
