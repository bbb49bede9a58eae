// IP addresses and prefixes as bit strings, the shape of Go's net/netip values.
//
// An address is the list of its bits, most significant first. A prefix keeps
// the whole address it was written with and a length, so one with host bits set
// (10.0.0.1/8) is a value too; `Canonical` singles out the masked ones.
module Net {

  datatype Option<+T> = None | Some(value: T)

  datatype Family = V4 | V6

  function Width(fam: Family): nat {
    match fam
    case V4 => 32
    case V6 => 128
  }

  function Zeros(n: nat): (z: seq<bool>)
    ensures |z| == n
  {
    seq(n, _ => false)
  }

  datatype RawAddr = RawAddr(fam: Family, bits: seq<bool>)
  type Addr = a: RawAddr | |a.bits| == Width(a.fam) witness RawAddr(V4, Zeros(32))

  datatype RawPrefix = RawPrefix(addr: Addr, len: nat)
  type Prefix = p: RawPrefix | p.len <= Width(p.addr.fam) witness RawPrefix(RawAddr(V4, Zeros(32)), 0)

  // The fixed leading bits of p.
  function Network(p: Prefix): seq<bool> {
    p.addr.bits[..p.len]
  }

  predicate Contains(p: Prefix, a: Addr) {
    p.addr.fam == a.fam && a.bits[..p.len] == Network(p)
  }

  // The address of fam whose leading bits are b and whose other bits are zero.
  function Pad(fam: Family, b: seq<bool>): (a: Addr)
    requires |b| <= Width(fam)
    ensures a.fam == fam && a.bits[..|b|] == b
  {
    RawAddr(fam, b + Zeros(Width(fam) - |b|))
  }

  function Masked(p: Prefix): (q: Prefix)
    ensures q.len == p.len && Network(q) == Network(p)
  {
    RawPrefix(Pad(p.addr.fam, Network(p)), p.len)
  }

  predicate Canonical(p: Prefix) {
    p == Masked(p)
  }

  // The prefix holding a alone.
  function HostPrefix(a: Addr): (p: Prefix)
    ensures Canonical(p)
  {
    assert a.bits[..Width(a.fam)] + Zeros(0) == a.bits;
    RawPrefix(a, Width(a.fam))
  }

  lemma HostPrefixHoldsOnlyItself(a: Addr, b: Addr)
    ensures Contains(HostPrefix(a), b) <==> a == b
  {
    assert a.bits[..Width(a.fam)] == a.bits;
    assert b.bits[..Width(b.fam)] == b.bits;
  }

  // Every address of p is an address of q.
  ghost predicate Within(p: Prefix, q: Prefix) {
    forall a: Addr :: Contains(p, a) ==> Contains(q, a)
  }

  // Flipping the first bit p leaves free stays in p and leaves any longer q.
  lemma LongerDoesNotCover(p: Prefix, q: Prefix)
    requires p.addr.fam == q.addr.fam && p.len < q.len
    ensures !Within(p, q)
  {
    var flipped: Addr := RawAddr(p.addr.fam, p.addr.bits[p.len := !p.addr.bits[p.len]]);
    var a := if Contains(q, p.addr) then flipped else p.addr;
    assert Contains(q, p.addr) ==> a.bits[..q.len][p.len] != p.addr.bits[..q.len][p.len];
    assert a.bits[..p.len] == p.addr.bits[..p.len];
    assert Contains(p, a) && !Contains(q, a);
  }

  // Inclusion of prefixes read off their bits.
  lemma WithinIsLeadingBits(p: Prefix, q: Prefix)
    ensures Within(p, q) <==> q.addr.fam == p.addr.fam && q.len <= p.len && Contains(q, p.addr)
  {
    if q.addr.fam == p.addr.fam && q.len <= p.len && Contains(q, p.addr) {
      forall a: Addr | Contains(p, a) ensures Contains(q, a) {
        assert a.bits[..q.len] == a.bits[..p.len][..q.len] == p.addr.bits[..p.len][..q.len] == p.addr.bits[..q.len];
      }
    }
    if p.addr.fam == q.addr.fam && p.len < q.len {
      LongerDoesNotCover(p, q);
    }
    assert Contains(p, p.addr);
  }

  // Two prefixes that share an address are nested.
  lemma SharingIsNesting(p: Prefix, q: Prefix, a: Addr)
    requires Contains(p, a) && Contains(q, a) && q.len <= p.len
    ensures Within(p, q)
  {
    assert p.addr.bits[..q.len] == p.addr.bits[..p.len][..q.len] == a.bits[..p.len][..q.len] == a.bits[..q.len];
    WithinIsLeadingBits(p, q);
  }

  // Canonical prefixes with the same addresses are the same value.
  lemma CanonicalIsDetermined(p: Prefix, q: Prefix)
    requires Canonical(p) && Canonical(q) && Within(p, q) && Within(q, p)
    ensures p == q
  {
    WithinIsLeadingBits(p, q);
    WithinIsLeadingBits(q, p);
    assert Network(p) == Network(q);
  }
}
