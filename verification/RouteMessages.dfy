// The BSD routing-socket watcher on macOS: splitting a read into messages,
// finding the socket addresses in one, and deciding which call for a reconnect.
module RouteMessages {

  type Byte = b: int | 0 <= b < 256

  const VERSION := 5
  const ADD := 1
  const DELETE := 2
  const CHANGE := 3
  const IFINFO := 14
  const INET := 2
  const INET6 := 30
  const LINK := 18
  const SLOTS := 8
  const DST := 0
  const NETMASK := 2
  const HEADER := 92
  const EVENTS := 16

  // Bits of rtm_flags: llinfo, wascloned, ifscope; and if_flags: up.
  const LLINFO_BIT := 10
  const WASCLONED_BIT := 17
  const IFSCOPE_BIT := 24
  const UP_BIT := 0

  function HasBit(n: nat, k: nat): bool {
    if k == 0 then n % 2 == 1 else HasBit(n / 2, k - 1)
  }

  function U16(b: seq<Byte>, i: nat): (n: nat)
    requires i + 2 <= |b|
    ensures n < 65536
  {
    var lo: int, hi: int := b[i], b[i + 1];
    lo + 256 * hi
  }

  function U32(b: seq<Byte>, i: nat): nat
    requires i + 4 <= |b|
  {
    U16(b, i) + 65536 * U16(b, i + 2)
  }

  function Min(a: nat, b: nat): nat {
    if a < b then a else b
  }

  // The room a socket address of n bytes takes: a multiple of 4, at least 4.
  function Stride(n: nat): (s: nat)
    ensures s >= 4 && s >= n && s % 4 == 0 && s < n + 5
  {
    if n <= 4 then 4 else (n + 3) / 4 * 4
  }

  // ---- Socket addresses -----------------------------------------------------

  datatype Found = Found(dst: seq<Byte>, mask: seq<Byte>, link: nat)

  function LinkIndex(sa: seq<Byte>): nat {
    if |sa| >= 4 && sa[1] == LINK then U16(sa, 2) else 0
  }

  function Note(f: Found, i: nat, sa: seq<Byte>): Found {
    Found(if i == DST then sa else f.dst,
          if i == NETMASK then sa else f.mask,
          if f.link == 0 then LinkIndex(sa) else f.link)
  }

  function Scan(b: seq<Byte>, addrs: nat, i: nat, f: Found): Found
    requires i <= SLOTS
    decreases SLOTS - i
  {
    if i == SLOTS || b == [] then f
    else if !HasBit(addrs, i) then Scan(b, addrs, i + 1, f)
    else Scan(b[Min(Stride(b[0]), |b|)..], addrs, i + 1, Note(f, i, b[..Min(b[0], |b|)]))
  }

  method Sockaddrs(bytes: seq<Byte>, addrs: nat) returns (f: Found)
    ensures f == Scan(bytes, addrs, 0, Found([], [], 0))
  {
    var b := bytes;
    var dst, mask, link := [], [], 0;
    var i := 0;
    while i < SLOTS && |b| > 0
      invariant 0 <= i <= SLOTS
      invariant Scan(b, addrs, i, Found(dst, mask, link)) == Scan(bytes, addrs, 0, Found([], [], 0))
    {
      if HasBit(addrs, i) {
        var n := b[0];
        var sa := b[..Min(n, |b|)];
        if i == DST {
          dst := sa;
        } else if i == NETMASK {
          mask := sa;
        }
        if link == 0 && |sa| >= 4 && sa[1] == LINK {
          link := U16(sa, 2);
        }
        b := b[Min(Stride(n), |b|)..];
      }
      i := i + 1;
    }
    f := Found(dst, mask, link);
  }

  // How a message carries its socket addresses: those present, in slot order,
  // each padded. An empty one is a zero-length sockaddr in four bytes.
  datatype Slot = Absent | Present(sa: seq<Byte>)

  predicate WellFormed(s: Slot) {
    s.Present? ==> s.sa == [] || s.sa[0] == |s.sa|
  }

  ghost predicate Packable(slots: seq<Slot>, addrs: nat) {
    && |slots| == SLOTS
    && forall i :: 0 <= i < SLOTS ==> WellFormed(slots[i]) && (HasBit(addrs, i) <==> slots[i].Present?)
  }

  function ZeroBytes(n: nat): seq<Byte> {
    seq(n, _ => 0)
  }

  function Padded(sa: seq<Byte>): (p: seq<Byte>)
    ensures |p| == Stride(|sa|)
  {
    sa + ZeroBytes(Stride(|sa|) - |sa|)
  }

  function Pack(slots: seq<Slot>): seq<Byte> {
    if slots == [] then []
    else (if slots[0].Present? then Padded(slots[0].sa) else []) + Pack(slots[1..])
  }

  // What a reader should find, taken from the slots themselves.
  function SlotBytes(s: Slot): seq<Byte> {
    if s.Present? then s.sa else []
  }

  function FirstLink(slots: seq<Slot>): nat {
    if slots == [] then 0
    else
      var k := LinkIndex(SlotBytes(slots[0]));
      if k != 0 then k else FirstLink(slots[1..])
  }

  ghost function Expected(slots: seq<Slot>, i: nat, f: Found): Found
    requires i <= |slots|
    decreases |slots| - i
  {
    if i == |slots| then f
    else Expected(slots, i + 1, if slots[i].Present? then Note(f, i, slots[i].sa) else f)
  }

  lemma {:induction false} NothingLeft(slots: seq<Slot>, i: nat, f: Found)
    requires i <= |slots| && Pack(slots[i..]) == []
    ensures Expected(slots, i, f) == f
    decreases |slots| - i
  {
    if i < |slots| {
      assert slots[i..][0] == slots[i] && slots[i..][1..] == slots[i + 1..];
      NothingLeft(slots, i + 1, f);
    }
  }

  lemma {:induction false} ScanReadsPacked(slots: seq<Slot>, addrs: nat, i: nat, f: Found)
    requires i <= SLOTS && Packable(slots, addrs)
    ensures Scan(Pack(slots[i..]), addrs, i, f) == Expected(slots, i, f)
    decreases SLOTS - i
  {
    var b := Pack(slots[i..]);
    if i < SLOTS {
      assert slots[i..][0] == slots[i] && slots[i..][1..] == slots[i + 1..];
      if b == [] {
        NothingLeft(slots, i, f);
      } else if slots[i].Absent? {
        assert b == Pack(slots[i + 1..]);
        ScanReadsPacked(slots, addrs, i + 1, f);
      } else {
        var sa := slots[i].sa;
        assert b == Padded(sa) + Pack(slots[i + 1..]);
        assert b[0] == |sa|;
        assert b[..Min(b[0], |b|)] == sa;
        assert b[Min(Stride(b[0]), |b|)..] == Pack(slots[i + 1..]);
        ScanReadsPacked(slots, addrs, i + 1, Note(f, i, sa));
      }
    }
  }

  lemma {:induction false} ExpectedFields(slots: seq<Slot>, i: nat, f: Found)
    requires i <= |slots| == SLOTS
    ensures var e := Expected(slots, i, f);
            && e.dst == (if i <= DST && slots[DST].Present? then slots[DST].sa else f.dst)
            && e.mask == (if i <= NETMASK && slots[NETMASK].Present? then slots[NETMASK].sa else f.mask)
            && e.link == (if f.link != 0 then f.link else FirstLink(slots[i..]))
    decreases |slots| - i
  {
    if i < |slots| {
      assert slots[i..][0] == slots[i] && slots[i..][1..] == slots[i + 1..];
      ExpectedFields(slots, i + 1, if slots[i].Present? then Note(f, i, slots[i].sa) else f);
    }
  }

  // On every packed message: the destination, the netmask, and the first link index.
  lemma {:induction false} SockaddrsRecovered(slots: seq<Slot>, addrs: nat)
    requires Packable(slots, addrs)
    ensures Scan(Pack(slots), addrs, 0, Found([], [], 0)) ==
            Found(SlotBytes(slots[DST]), SlotBytes(slots[NETMASK]), FirstLink(slots))
  {
    assert slots[0..] == slots;
    ScanReadsPacked(slots, addrs, 0, Found([], [], 0));
    ExpectedFields(slots, 0, Found([], [], 0));
  }

  // FirstLink is the first nonzero index of a link address, by slot order.
  lemma {:induction false} FirstLinkIsFirst(slots: seq<Slot>)
    ensures FirstLink(slots) != 0 ==>
      exists i :: 0 <= i < |slots| && LinkIndex(SlotBytes(slots[i])) == FirstLink(slots)
                  && forall j :: 0 <= j < i ==> LinkIndex(SlotBytes(slots[j])) == 0
    ensures FirstLink(slots) == 0 ==> forall i :: 0 <= i < |slots| ==> LinkIndex(SlotBytes(slots[i])) == 0
  {
    if slots != [] {
      FirstLinkIsFirst(slots[1..]);
      if LinkIndex(SlotBytes(slots[0])) == 0 && FirstLink(slots) != 0 {
        var i :| 0 <= i < |slots[1..]| && LinkIndex(SlotBytes(slots[1..][i])) == FirstLink(slots[1..])
                 && forall j :: 0 <= j < i ==> LinkIndex(SlotBytes(slots[1..][j])) == 0;
        assert slots[1..][i] == slots[i + 1];
        forall j | 0 <= j < i + 1 ensures LinkIndex(SlotBytes(slots[j])) == 0 {
          assert j > 0 ==> slots[j] == slots[1..][j - 1];
        }
      }
    }
  }

  // ---- Zero addresses -------------------------------------------------------

  ghost predicate AllZero(b: seq<Byte>) {
    forall i :: 0 <= i < |b| ==> b[i] == 0
  }

  function Zero(sa: seq<Byte>): bool {
    forall i :: 2 <= i < |sa| ==> sa[i] == 0
  }

  method IsZero(sa: seq<Byte>) returns (z: bool)
    ensures z == Zero(sa)
  {
    var i := Min(2, |sa|);
    while i < |sa|
      invariant Min(2, |sa|) <= i <= |sa|
      invariant forall k :: 2 <= k < i ==> sa[k] == 0
    {
      if sa[i] != 0 {
        return false;
      }
      i := i + 1;
    }
    return true;
  }

  // The kernel's trimmed form: the first k bytes with the length set to k, where
  // everything cut off was zero.
  function Trim(sa: seq<Byte>, k: nat): seq<Byte>
    requires k <= |sa| && k < 256
  {
    if k == 0 then [] else [k] + sa[1..k]
  }

  lemma {:induction false} TrimmedMaskIsJudgedAlike(sa: seq<Byte>, k: nat)
    requires k <= |sa| && k < 256 && AllZero(sa[k..])
    ensures Zero(Trim(sa, k)) == Zero(sa)
  {
    forall i | 2 <= i < |sa| ensures i < k ==> Trim(sa, k)[i] == sa[i]
      ensures i >= k ==> sa[i] == 0
    {
      assert i >= k ==> sa[i] == sa[k..][i - k];
    }
  }

  // ---- Messages ---------------------------------------------------------------

  // An unscoped default route changed on another interface, or the tunnel went
  // down under its kill-switch.
  function Interesting(m: seq<Byte>, self: nat, killSwitch: bool): bool {
    if |m| < 4 || m[2] != VERSION then false
    else if m[3] == ADD || m[3] == DELETE || m[3] == CHANGE then
      if |m| < HEADER then false
      else
        var flags := U32(m, 8);
        if HasBit(flags, IFSCOPE_BIT) || HasBit(flags, WASCLONED_BIT) || HasBit(flags, LLINFO_BIT)
           || U32(m, 24) != 0 then false
        else
          var f := Scan(m[HEADER..], U32(m, 12), 0, Found([], [], 0));
          if |f.dst| < 2 || (f.dst[1] != INET && f.dst[1] != INET6) || !Zero(f.dst) || !Zero(f.mask) then false
          else
            var idx := if U16(m, 4) == 0 then f.link else U16(m, 4);
            idx == 0 || idx != self
    else if m[3] == IFINFO then
      |m| >= 14 && !HasBit(U32(m, 8), UP_BIT) && U16(m, 12) == self && killSwitch
    else false
  }

  method Judge(m: seq<Byte>, self: nat, killSwitch: bool) returns (yes: bool)
    ensures yes == Interesting(m, self, killSwitch)
  {
    if |m| < 4 || m[2] != VERSION {
      return false;
    }
    if m[3] == ADD || m[3] == DELETE || m[3] == CHANGE {
      if |m| < HEADER {
        return false;
      }
      var flags := U32(m, 8);
      if HasBit(flags, IFSCOPE_BIT) || HasBit(flags, WASCLONED_BIT) || HasBit(flags, LLINFO_BIT) || U32(m, 24) != 0 {
        return false;
      }
      var f := Sockaddrs(m[HEADER..], U32(m, 12));
      var zd := IsZero(f.dst);
      var zm := IsZero(f.mask);
      if |f.dst| < 2 || (f.dst[1] != INET && f.dst[1] != INET6) || !zd || !zm {
        return false;
      }
      var idx := U16(m, 4);
      if idx == 0 {
        idx := f.link;
      }
      return idx == 0 || idx != self;
    }
    if m[3] == IFINFO {
      if |m| < 14 {
        return false;
      }
      return !HasBit(U32(m, 8), UP_BIT) && U16(m, 12) == self && killSwitch;
    }
    return false;
  }

  // A read is a run of messages, each starting with its length; a length that
  // cannot be ends the run.
  function Frames(b: seq<Byte>): seq<seq<Byte>> {
    if |b| < 4 || U16(b, 0) < 4 || U16(b, 0) > |b| then []
    else [b[..U16(b, 0)]] + Frames(b[U16(b, 0)..])
  }

  function CountInteresting(ms: seq<seq<Byte>>, self: nat, killSwitch: bool): nat {
    if ms == [] then 0
    else (if Interesting(ms[0], self, killSwitch) then 1 else 0) + CountInteresting(ms[1..], self, killSwitch)
  }

  // A count of messages: one for each that is interesting, added up.
  lemma {:induction false} CountAddsUp(ms: seq<seq<Byte>>, ns: seq<seq<Byte>>, self: nat, killSwitch: bool)
    ensures CountInteresting(ms + ns, self, killSwitch) ==
            CountInteresting(ms, self, killSwitch) + CountInteresting(ns, self, killSwitch)
  {
    if ms == [] {
      assert ms + ns == ns;
    } else {
      CountAddsUp(ms[1..], ns, self, killSwitch);
      assert (ms + ns)[1..] == ms[1..] + ns;
    }
  }

  lemma {:induction false} CountOfOne(m: seq<Byte>, self: nat, killSwitch: bool)
    ensures CountInteresting([m], self, killSwitch) == if Interesting(m, self, killSwitch) then 1 else 0
  {
    assert [m][1..] == [];
  }

  // An event is queued exactly when there is something interesting and room.
  lemma {:induction false} CountsSome(ms: seq<seq<Byte>>, self: nat, killSwitch: bool)
    ensures CountInteresting(ms, self, killSwitch) > 0 <==>
      exists i :: 0 <= i < |ms| && Interesting(ms[i], self, killSwitch)
    ensures CountInteresting(ms, self, killSwitch) <= |ms|
  {
    if ms != [] {
      CountsSome(ms[1..], self, killSwitch);
      assert ms == [ms[0]] + ms[1..];
      if i :| 0 <= i < |ms| && Interesting(ms[i], self, killSwitch) {
        assert i > 0 ==> Interesting(ms[1..][i - 1], self, killSwitch);
      }
      if i :| 0 <= i < |ms[1..]| && Interesting(ms[1..][i], self, killSwitch) {
        assert Interesting(ms[i + 1], self, killSwitch);
      }
    }
  }

  // One read of the watcher's loop: each interesting message queues an event
  // unless the queue is full.
  method HandleRead(b: seq<Byte>, self: nat, killSwitch: bool, queued: nat) returns (now: nat)
    requires queued <= 16
    ensures now == Min(16, queued + CountInteresting(Frames(b), self, killSwitch))
  {
    var m := b;
    now := queued;
    while |m| >= 4
      invariant now <= EVENTS
      invariant Min(EVENTS, now + CountInteresting(Frames(m), self, killSwitch))
             == Min(EVENTS, queued + CountInteresting(Frames(b), self, killSwitch))
      decreases |m|
    {
      var l := U16(m, 0);
      if l < 4 || l > |m| {
        break;
      }
      var yes := Judge(m[..l], self, killSwitch);
      if yes && now < EVENTS {
        now := now + 1;
      }
      assert Frames(m)[1..] == Frames(m[l..]) && Frames(m)[0] == m[..l];
      m := m[l..];
    }
  }

  predicate Framed(m: seq<Byte>) {
    |m| >= 4 && U16(m, 0) == |m|
  }

  function Joined(ms: seq<seq<Byte>>): seq<Byte> {
    if ms == [] then [] else ms[0] + Joined(ms[1..])
  }

  // A read that holds whole messages is split into exactly those.
  lemma {:induction false} FramesRecovered(ms: seq<seq<Byte>>)
    requires forall i :: 0 <= i < |ms| ==> Framed(ms[i])
    ensures Frames(Joined(ms)) == ms
  {
    if ms != [] {
      var b, rest := Joined(ms), Joined(ms[1..]);
      assert b[0] == ms[0][0] && b[1] == ms[0][1];
      assert b[..|ms[0]|] == ms[0] && b[|ms[0]|..] == rest;
      FramesRecovered(ms[1..]);
    }
  }

  // ---- Route messages end to end ---------------------------------------------

  function Le16(n: nat): seq<Byte>
    requires n < 65536
  {
    [n % 256, n / 256]
  }

  function Le32(n: nat): seq<Byte>
    requires n < 0x1_0000_0000
  {
    Le16(n % 65536) + Le16(n / 65536)
  }

  datatype RouteMsg = RouteMsg(kind: Byte, index: nat, flags: nat, errno: nat, addrs: nat, slots: seq<Slot>)

  ghost predicate Sendable(r: RouteMsg) {
    && r.index < 65536 && r.flags < 0x1_0000_0000 && r.errno < 0x1_0000_0000 && r.addrs < 0x1_0000_0000
    && Packable(r.slots, r.addrs) && HEADER + |Pack(r.slots)| < 65536
  }

  ghost function Encode(r: RouteMsg): (m: seq<Byte>)
    requires Sendable(r)
    ensures |m| == HEADER + |Pack(r.slots)|
  {
    Le16(HEADER + |Pack(r.slots)|) + [VERSION, r.kind] + Le16(r.index) + [0, 0]
    + Le32(r.flags) + Le32(r.addrs) + ZeroBytes(8) + Le32(r.errno) + ZeroBytes(64) + Pack(r.slots)
  }

  lemma {:induction false} U16At(a: seq<Byte>, n: nat, z: seq<Byte>)
    requires n < 65536
    ensures U16(a + Le16(n) + z, |a|) == n
  {
    var b := a + Le16(n) + z;
    assert b[|a|] == n % 256 && b[|a| + 1] == n / 256;
  }

  lemma {:induction false} U32At(a: seq<Byte>, n: nat, z: seq<Byte>)
    requires n < 0x1_0000_0000
    ensures U32(a + Le32(n) + z, |a|) == n
  {
    var lo, hi := Le16(n % 65536), Le16(n / 65536);
    U16At(a, n % 65536, hi + z);
    U16At(a + lo, n / 65536, z);
    assert a + Le32(n) + z == a + lo + (hi + z) == (a + lo) + hi + z;
  }

  // A number of one, two or four bytes, least significant first.
  function Number(b: seq<Byte>): nat {
    if b == [] then 0
    else
      var low: int := b[0];
      low + 256 * Number(b[1..])
  }

  lemma NumberOfTwo(x: Byte, y: Byte)
    ensures var low: int, high: int := x, y; Number([x, y]) == low + 256 * high
  {
    assert [x, y][1..] == [y] && [y][1..] == [];
    assert Number([y]) == y;
  }

  lemma NumberOfFour(x: Byte, y: Byte, z: Byte, w: Byte)
    ensures Number([x, y, z, w]) == Number([x, y]) + 65536 * Number([z, w])
  {
    assert [x, y, z, w][1..] == [y, z, w] && [y, z, w][1..] == [z, w];
    NumberOfTwo(x, y);
  }

  lemma {:induction false} WordsAreNumbers(b: seq<Byte>, i: nat)
    requires i + 2 <= |b|
    ensures U16(b, i) == Number(b[i..i + 2])
    ensures i + 4 <= |b| ==> U32(b, i) == Number(b[i..i + 4])
  {
    assert b[i..i + 2] == [b[i], b[i + 1]];
    NumberOfTwo(b[i], b[i + 1]);
    if i + 4 <= |b| {
      assert b[i..i + 4] == [b[i], b[i + 1], b[i + 2], b[i + 3]];
      NumberOfFour(b[i], b[i + 1], b[i + 2], b[i + 3]);
      NumberOfTwo(b[i + 2], b[i + 3]);
    }
  }

  lemma HeaderFields(r: RouteMsg)
    requires Sendable(r)
    ensures var m := Encode(r);
            && m[2] == VERSION && m[3] == r.kind && Framed(m)
            && U16(m, 4) == r.index && U32(m, 8) == r.flags && U32(m, 12) == r.addrs && U32(m, 24) == r.errno
            && m[HEADER..] == Pack(r.slots)
  {
    var m, pack := Encode(r), Pack(r.slots);
    var len, vers := Le16(HEADER + |pack|), [VERSION, r.kind];
    var a4 := len + vers;
    var a8 := a4 + Le16(r.index) + [0, 0];
    var a12 := a8 + Le32(r.flags);
    var a24 := a12 + Le32(r.addrs) + ZeroBytes(8);
    var z28 := ZeroBytes(64) + pack;
    var z16 := ZeroBytes(8) + Le32(r.errno) + z28;
    var z12 := Le32(r.addrs) + z16;
    var z8 := Le32(r.flags) + z12;
    assert m == a24 + Le32(r.errno) + z28;
    assert m == a12 + Le32(r.addrs) + z16;
    assert m == a8 + Le32(r.flags) + z12;
    assert m == a4 + Le16(r.index) + ([0, 0] + z8);
    assert m == [] + len + (vers + Le16(r.index) + [0, 0] + z8);
    U16At([], HEADER + |pack|, vers + Le16(r.index) + [0, 0] + z8);
    U16At(a4, r.index, [0, 0] + z8);
    U32At(a8, r.flags, z12);
    U32At(a12, r.addrs, z16);
    U32At(a24, r.errno, z28);
  }

  // A link address carries its index in the two bytes after length and family.
  lemma {:induction false} LinkIndexMeans(sa: seq<Byte>)
    ensures LinkIndex(sa) == if |sa| >= 4 && sa[1] == 18 then Number(sa[2..4]) else 0
  {
    if |sa| >= 4 {
      WordsAreNumbers(sa, 2);
    }
  }

  // The header of the wire, byte by byte, for whoever writes one: the length, the
  // version 5, the kind, and little-endian words at their offsets.
  lemma HeaderBytes(r: RouteMsg)
    requires Sendable(r)
    ensures var m := Encode(r);
            && Number(m[0..2]) == |m| && m[2] == 5 && m[3] == r.kind
            && Number(m[4..6]) == r.index && Number(m[8..12]) == r.flags
            && Number(m[12..16]) == r.addrs && Number(m[24..28]) == r.errno
            && m[92..] == Pack(r.slots)
  {
    HeaderFields(r);
    var m := Encode(r);
    WordsAreNumbers(m, 0);
    WordsAreNumbers(m, 4);
    WordsAreNumbers(m, 8);
    WordsAreNumbers(m, 12);
    WordsAreNumbers(m, 24);
  }

  // Skipping two, and then four, of a number's last bits.
  lemma {:induction false} SkipTwo(n: nat, k: nat)
    ensures HasBit(n, k + 2) == HasBit(n / 4, k)
  {
    assert HasBit(n, k + 2) == HasBit(n / 2, k + 1) == HasBit(n / 2 / 2, k);
    assert n / 2 / 2 == n / 4;
  }

  lemma {:induction false} SkipEight(n: nat, k: nat)
    ensures HasBit(n, k + 8) == HasBit(n / 256, k)
  {
    SkipTwo(n, k + 6);
    SkipTwo(n / 4, k + 4);
    assert n / 4 / 4 == n / 16;
    SkipTwo(n / 16, k + 2);
    assert n / 16 / 4 == n / 64;
    SkipTwo(n / 64, k);
    assert n / 64 / 4 == n / 256;
  }

  // The three flags that rule a message out: RTF_LLINFO, RTF_WASCLONED, RTF_IFSCOPE.
  predicate Ruled(flags: nat) {
    flags / 0x400 % 2 == 1 || flags / 0x20000 % 2 == 1 || flags / 0x1000000 % 2 == 1
  }

  lemma {:induction false} BitTen(n: nat)
    ensures HasBit(n, LLINFO_BIT) <==> n / 0x400 % 2 == 1
  {
    SkipEight(n, 2);
    SkipTwo(n / 256, 0);
    assert n / 256 / 4 == n / 0x400;
  }

  lemma {:induction false} BitSeventeen(n: nat)
    ensures HasBit(n, WASCLONED_BIT) <==> n / 0x20000 % 2 == 1
  {
    SkipEight(n, 9);
    SkipEight(n / 256, 1);
    assert n / 256 / 256 == n / 0x10000;
    assert HasBit(n / 0x10000, 1) == HasBit(n / 0x10000 / 2, 0);
    assert n / 0x10000 / 2 == n / 0x20000;
  }

  lemma {:induction false} BitTwentyFour(n: nat)
    ensures HasBit(n, IFSCOPE_BIT) <==> n / 0x1000000 % 2 == 1
  {
    SkipEight(n, 16);
    SkipEight(n / 256, 8);
    assert n / 256 / 256 == n / 0x10000;
    SkipEight(n / 0x10000, 0);
    assert n / 0x10000 / 256 == n / 0x1000000;
  }

  lemma {:induction false} FlagsMean(flags: nat)
    ensures Ruled(flags) <==> HasBit(flags, LLINFO_BIT) || HasBit(flags, WASCLONED_BIT) || HasBit(flags, IFSCOPE_BIT)
  {
    BitTen(flags);
    BitSeventeen(flags);
    BitTwentyFour(flags);
  }

  // What the watcher makes of a route message, in the message's own terms: an
  // add, delete or change of a default route of IPv4 or IPv6, without error or a
  // flag that rules it out, on no interface in particular or on another one.
  lemma RouteMessageJudged(r: RouteMsg, self: nat, killSwitch: bool)
    requires Sendable(r) && r.kind != IFINFO
    ensures Interesting(Encode(r), self, killSwitch) <==>
      var dst := SlotBytes(r.slots[0]);
      var idx := if r.index != 0 then r.index else FirstLink(r.slots);
      && r.kind in {1, 2, 3} && !Ruled(r.flags) && r.errno == 0
      && |dst| >= 2 && dst[1] in {2, 30} && Zero(dst) && Zero(SlotBytes(r.slots[2]))
      && (idx == 0 || idx != self)
  {
    HeaderFields(r);
    FlagsMean(r.flags);
    SockaddrsRecovered(r.slots, r.addrs);
  }

  // ---- Interface messages ------------------------------------------------------

  // if_msghdr: the flags at 8 and the index at 12.
  datatype IfMsg = IfMsg(addrs: nat, flags: nat, index: nat, data: seq<Byte>)

  ghost predicate IfSendable(i: IfMsg) {
    i.addrs < 0x1_0000_0000 && i.flags < 0x1_0000_0000 && i.index < 65536 && 14 + |i.data| < 65536
  }

  function EncodeIf(i: IfMsg): (m: seq<Byte>)
    requires IfSendable(i)
    ensures |m| == 14 + |i.data|
  {
    Le16(14 + |i.data|) + [5, 14] + Le32(i.addrs) + Le32(i.flags) + Le16(i.index) + i.data
  }

  // An interface message calls for a reconnect exactly when it says that the
  // tunnel's own interface is not up, while the kill-switch is in.
  lemma InterfaceMessageJudged(i: IfMsg, self: nat, killSwitch: bool)
    requires IfSendable(i)
    ensures Interesting(EncodeIf(i), self, killSwitch) <==> i.flags % 2 == 0 && i.index == self && killSwitch
  {
    var m := EncodeIf(i);
    var a8 := Le16(14 + |i.data|) + [5, 14] + Le32(i.addrs);
    assert |a8| == 8 && m == a8 + Le32(i.flags) + (Le16(i.index) + i.data);
    U32At(a8, i.flags, Le16(i.index) + i.data);
    var a12 := a8 + Le32(i.flags);
    assert |a12| == 12 && m == a12 + Le16(i.index) + i.data;
    U16At(a12, i.index, i.data);
    assert m[2] == 5 && m[3] == 14;
  }

  // One cut short of its index is passed over, like any of another version.
  lemma {:induction false} ShortOrForeignIsPassedOver(m: seq<Byte>, self: nat, killSwitch: bool)
    requires |m| < 4 || m[2] != 5 || m[3] !in {1, 2, 3, 14} || |m| < (if m[3] == 14 then 14 else 92)
    ensures !Interesting(m, self, killSwitch)
  {
  }
}
