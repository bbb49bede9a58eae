// UDP over TCP: each datagram goes out behind a two-byte big-endian length, and
// comes back however the stream is cut into reads.
module Framing {
  import opened Net

  type Byte = b: int | 0 <= b < 256
  type Datagram = d: seq<Byte> | |d| <= MAX_FRAME witness []

  const MAX_FRAME := 65535

  // The 16-bit conversion of the length, wrapping as Go's does.
  function Uint16(n: nat): nat {
    n % 65536
  }

  function Header(n: nat): seq<Byte> {
    [Uint16(n) / 256, Uint16(n) % 256]
  }

  function Length(b: seq<Byte>): (n: nat)
    requires |b| >= 2
    ensures n <= MAX_FRAME
  {
    var hi: int, lo: int := b[0], b[1];
    256 * hi + lo
  }

  // A datagram read into a buffer of MAX_FRAME bytes has a length that survives
  // the conversion.
  lemma {:induction false} HeaderRoundTrip(d: Datagram, rest: seq<Byte>)
    ensures Length(Header(|d|) + rest) == |d|
  {
  }

  // On the wire the length is big-endian, in front of the bytes it counts.
  lemma {:induction false} StreamStartsWithLength(ds: seq<Datagram>)
    requires ds != []
    ensures var s, n := Encode(ds), |ds[0]|;
            && |s| >= 2 + n && s[0] == n / 256 && s[1] == n % 256 && s[2..2 + n] == ds[0]
            && s[2 + n..] == Encode(ds[1..])
  {
    var n := |ds[0]|;
    assert Encode(ds) == Header(n) + (ds[0] + Encode(ds[1..]));
  }

  function Encode(ds: seq<Datagram>): seq<Byte> {
    if ds == [] then [] else Header(|ds[0]|) + ds[0] + Encode(ds[1..])
  }

  // What a reader gets out of a stream: every datagram that is there whole.
  function Decode(s: seq<Byte>): seq<Datagram> {
    if |s| < 2 || |s| < 2 + Length(s) then []
    else [s[2..2 + Length(s)]] + Decode(s[2 + Length(s)..])
  }

  lemma {:induction false} DecodeUndoesEncode(ds: seq<Datagram>)
    ensures Decode(Encode(ds)) == ds
  {
    if ds != [] {
      var s, rest := Encode(ds), Encode(ds[1..]);
      assert s == Header(|ds[0]|) + (ds[0] + rest);
      HeaderRoundTrip(ds[0], ds[0] + rest);
      assert s[2..2 + |ds[0]|] == ds[0] && s[2 + |ds[0]|..] == rest;
      DecodeUndoesEncode(ds[1..]);
    }
  }

  // However early the stream breaks off, what was read is a prefix of what was sent.
  lemma {:induction false} PrefixDecodesToPrefix(s: seq<Byte>, n: nat)
    requires n <= |s|
    ensures Decode(s[..n]) <= Decode(s)
    decreases n
  {
    var t := s[..n];
    if |t| >= 2 && |t| >= 2 + Length(t) {
      var l := 2 + Length(t);
      assert Length(t) == Length(s);
      assert t[2..l] == s[2..l] && t[l..] == s[l..][..n - l];
      PrefixDecodesToPrefix(s[l..], n - l);
    }
  }

  lemma {:induction false} BrokenStreamYieldsPrefix(ds: seq<Datagram>, n: nat)
    requires n <= |Encode(ds)|
    ensures Decode(Encode(ds)[..n]) <= ds
  {
    PrefixDecodesToPrefix(Encode(ds), n);
    DecodeUndoesEncode(ds);
  }

  // The bound is what makes it so: one byte more and the length wraps to 0.
  lemma LongerWouldWrap()
    ensures Uint16(MAX_FRAME + 1) == 0 && Length(Header(MAX_FRAME + 1)) != MAX_FRAME + 1
  {
    assert Header(65536) == [0, 0];
  }

  // ---- The code -----------------------------------------------------------------

  function Flat(chunks: seq<seq<Byte>>): seq<Byte> {
    if chunks == [] then [] else chunks[0] + Flat(chunks[1..])
  }

  // A TCP stream as it arrives: chunks of any size, empty ones included; the end
  // of the list is the end of the stream.
  class Stream {
    var chunks: seq<seq<Byte>>

    constructor (cs: seq<seq<Byte>>)
      ensures chunks == cs
    {
      chunks := cs;
    }

    // One read: at most n bytes of the next chunk, in order.
    method Read(n: nat) returns (got: seq<Byte>, eof: bool)
      modifies this
      ensures got + Flat(chunks) == Flat(old(chunks)) && |got| <= n
      ensures eof <==> old(chunks) == []
      ensures !eof && n > 0 ==> |chunks| < |old(chunks)| || (|chunks| == |old(chunks)| && |got| == n)
      ensures eof ==> got == [] && chunks == []
    {
      if chunks == [] {
        return [], true;
      }
      var head := chunks[0];
      if |head| <= n {
        got := head;
        chunks := chunks[1..];
      } else {
        got := head[..n];
        chunks := [head[n..]] + chunks[1..];
        assert head == head[..n] + head[n..];
      }
      eof := false;
    }

    // io.ReadFull: exactly n bytes, or the stream ends first.
    method ReadFull(n: nat) returns (buf: seq<Byte>, ok: bool)
      modifies this
      ensures buf + Flat(chunks) == Flat(old(chunks))
      ensures ok <==> |Flat(old(chunks))| >= n
      ensures ok ==> |buf| == n
      ensures !ok ==> chunks == []
    {
      buf := [];
      while |buf| < n
        invariant |buf| <= n
        invariant buf + Flat(chunks) == Flat(old(chunks))
        decreases n - |buf|, |chunks|
      {
        ghost var before := buf;
        ghost var left := chunks;
        var got, eof := Read(n - |buf|);
        assert before + (got + Flat(chunks)) == (before + got) + Flat(chunks);
        buf := buf + got;
        if eof {
          return buf, false;
        }
      }
      return buf, true;
    }
  }

  // What the front of a stream decodes to.
  lemma {:induction false} DecodeFront(s: seq<Byte>, hdr: seq<Byte>, rest: seq<Byte>)
    requires s == hdr + rest && |hdr| == 2
    ensures Length(s) == Length(hdr)
    ensures Decode(s) == if |rest| < Length(hdr) then [] else [rest[..Length(hdr)]] + Decode(rest[Length(hdr)..])
  {
    var n := Length(hdr);
    assert s[0] == hdr[0] && s[1] == hdr[1];
    if |rest| >= n {
      assert s[2..2 + n] == rest[..n] && s[2 + n..] == rest[n..];
    }
  }

  // One round of the tcp-to-udp loop: a header, then that many bytes.
  method ReadFrame(tcp: Stream) returns (d: Datagram, ok: bool)
    modifies tcp
    ensures !ok ==> Decode(Flat(old(tcp.chunks))) == []
    ensures ok ==> Decode(Flat(old(tcp.chunks))) == [d] + Decode(Flat(tcp.chunks))
    ensures ok ==> |Flat(tcp.chunks)| < |Flat(old(tcp.chunks))|
  {
    d := [];
    var hdr, got := tcp.ReadFull(2);
    if !got {
      return d, false;
    }
    ghost var rest := Flat(tcp.chunks);
    DecodeFront(Flat(old(tcp.chunks)), hdr, rest);
    var n := Length(hdr);
    var buf, whole := tcp.ReadFull(n);
    if !whole {
      return d, false;
    }
    assert buf == rest[..n] && Flat(tcp.chunks) == rest[n..];
    return buf, true;
  }

  type Peer = nat

  // What the two loops share and the network does: the sources of the UDP
  // datagrams in order of arrival, how many of them the other loop has stored by
  // the time this one's i-th round asks, and whether that round's write goes through.
  datatype Beside = Beside(sources: seq<Peer>, seen: nat -> nat, accepts: nat -> bool)

  // The destination round i finds: the last source stored, if any.
  function Loaded(e: Beside, i: nat): Option<Peer> {
    var n := if e.seen(i) < |e.sources| then e.seen(i) else |e.sources|;
    if n == 0 then None else Some(e.sources[n - 1])
  }

  // It is the last one stored: one among those stored, and the last of them all
  // or of those the round had seen.
  lemma LoadedIsTheLast(e: Beside, i: nat)
    ensures Loaded(e, i).None? <==> e.seen(i) == 0 || e.sources == []
    ensures Loaded(e, i).Some? ==>
      exists k :: 0 <= k < |e.sources| && e.sources[k] == Loaded(e, i).value
                  && k < e.seen(i) && (k + 1 == e.seen(i) || k + 1 == |e.sources|)
  {
    if Loaded(e, i).Some? {
      var k := (if e.seen(i) < |e.sources| then e.seen(i) else |e.sources|) - 1;
      assert e.sources[k] == Loaded(e, i).value;
    }
  }

  predicate WriteFails(e: Beside, i: nat) {
    Loaded(e, i).Some? && !e.accepts(i)
  }

  datatype Packet<T> = Packet(d: T, to: Peer)

  function Addressed<T>(d: T, to: Option<Peer>): seq<Packet<T>> {
    if to.None? then [] else [Packet(d, to.value)]
  }

  // From round i on: each datagram to the destination its round finds, dropped
  // if none, until a write fails.
  function Delivered<T>(ds: seq<T>, i: nat, e: Beside): seq<Packet<T>> {
    if ds == [] || WriteFails(e, i) then []
    else Addressed(ds[0], Loaded(e, i)) + Delivered(ds[1..], i + 1, e)
  }

  lemma {:induction false} NextDelivered<T>(d: T, rest: seq<T>, i: nat, e: Beside, sent: seq<Packet<T>>)
    requires !WriteFails(e, i)
    ensures sent + Delivered([d] + rest, i, e) == sent + Addressed(d, Loaded(e, i)) + Delivered(rest, i + 1, e)
  {
    assert ([d] + rest)[1..] == rest;
  }

  // The tcp-to-udp loop, until the stream ends or a write fails.
  method TcpToUdp(tcp: Stream, e: Beside) returns (sent: seq<Packet<Datagram>>)
    modifies tcp
    ensures sent == Delivered(Decode(Flat(old(tcp.chunks))), 0, e)
  {
    ghost var all := Decode(Flat(tcp.chunks));
    sent := [];
    var i := 0;
    var d, ok := ReadFrame(tcp);
    ghost var rest := Decode(Flat(tcp.chunks));
    while ok && !WriteFails(e, i)
      invariant Delivered(all, 0, e) == sent + if ok then Delivered([d] + rest, i, e) else []
      invariant ok ==> rest == Decode(Flat(tcp.chunks))
      decreases ok, |Flat(tcp.chunks)|
    {
      NextDelivered(d, rest, i, e, sent);
      sent := sent + Addressed(d, Loaded(e, i));
      i := i + 1;
      d, ok := ReadFrame(tcp);
      assert rest == if ok then [d] + Decode(Flat(tcp.chunks)) else [];
      rest := Decode(Flat(tcp.chunks));
    }
  }

  // What a failing write cuts off: everything from its round on, and no more.
  lemma {:induction false} DeliveryStopsAtFailure<T>(ds: seq<T>, i: nat, e: Beside) returns (r: nat)
    ensures r <= |ds| && Delivered(ds, i, e) == Delivered(ds[..r], i, e)
    ensures (forall j :: i <= j < i + r ==> !WriteFails(e, j)) && (r < |ds| ==> WriteFails(e, i + r))
  {
    if ds == [] || WriteFails(e, i) {
      r := 0;
    } else {
      var r' := DeliveryStopsAtFailure(ds[1..], i + 1, e);
      r := r' + 1;
      assert ds[..r][1..] == ds[1..][..r'];
    }
  }

  function Payloads<T>(ps: seq<Packet<T>>): seq<T> {
    if ps == [] then [] else [ps[0].d] + Payloads(ps[1..])
  }

  // Sources are stored one after another and stay stored.
  ghost predicate Ordered(e: Beside) {
    forall i: nat, j: nat :: i <= j ==> e.seen(i) <= e.seen(j)
  }

  // The rounds below n find a destination from the k-th on, and none before.
  ghost predicate KnownFrom(e: Beside, n: nat, k: nat) {
    k <= n && forall j :: 0 <= j < n ==> (Loaded(e, j).Some? <==> k <= j)
  }

  lemma {:induction false} FirstKnown(e: Beside, n: nat) returns (k: nat)
    requires Ordered(e)
    ensures KnownFrom(e, n, k)
  {
    k := 0;
    while k < n && Loaded(e, k).None?
      invariant k <= n && forall j :: 0 <= j < k ==> Loaded(e, j).None?
    {
      k := k + 1;
    }
    forall j | k <= j < n ensures Loaded(e, j).Some? {
      assert e.seen(k) <= e.seen(j);
    }
  }

  lemma {:induction false} PayloadsOfOneMore<T>(d: T, to: Option<Peer>, rest: seq<Packet<T>>)
    ensures Payloads(Addressed(d, to) + rest) == (if to.Some? then [d] else []) + Payloads(rest)
  {
    if to.Some? {
      assert ([Packet(d, to.value)] + rest)[1..] == rest;
    } else {
      assert [] + rest == rest;
    }
  }

  // Rounds i on, of which those from k find a destination and none fails to write.
  lemma {:induction false} DeliveredFrom<T>(ds: seq<T>, i: nat, e: Beside, k: nat)
    requires forall j :: i <= j < i + |ds| ==> !WriteFails(e, j)
    requires forall j :: i <= j < i + |ds| ==> (Loaded(e, j).Some? <==> k <= j)
    ensures Payloads(Delivered(ds, i, e)) == if k <= i then ds else if k - i <= |ds| then ds[k - i..] else []
  {
    if ds != [] {
      DeliveredFrom(ds[1..], i + 1, e, k);
      PayloadsOfOneMore(ds[0], Loaded(e, i), Delivered(ds[1..], i + 1, e));
      assert ds == [ds[0]] + ds[1..];
    }
  }

  // While writes go through and once a destination is known, nothing is dropped:
  // what goes out is what came in from the first round that found one.
  lemma {:induction false} OnlyTheFirstAreDropped<T>(ds: seq<T>, e: Beside) returns (k: nat)
    requires Ordered(e) && forall j :: 0 <= j < |ds| ==> !WriteFails(e, j)
    ensures KnownFrom(e, |ds|, k) && Payloads(Delivered(ds, 0, e)) == ds[k..]
  {
    k := FirstKnown(e, |ds|);
    DeliveredFrom(ds, 0, e, k);
  }

  // The udp-to-tcp loop: one buffer, the length in front. written is what a
  // write error may cut short.
  method UdpToTcp(datagrams: seq<Datagram>, written: nat) returns (stream: seq<Byte>)
    ensures stream == if written <= |Encode(datagrams)| then Encode(datagrams)[..written] else Encode(datagrams)
  {
    stream := [];
    for i := 0 to |datagrams|
      invariant stream + Encode(datagrams[i..]) == Encode(datagrams)
      invariant |stream| <= written
    {
      assert datagrams[i..][0] == datagrams[i] && datagrams[i..][1..] == datagrams[i + 1..];
      var frame := Header(|datagrams[i]|) + datagrams[i];
      if |stream| + |frame| > written {
        stream := stream + frame[..written - |stream|];
        assert stream <= Encode(datagrams);
        return;
      }
      stream := stream + frame;
    }
  }

  // Sent into one end and cut up at will on the way: the other end delivers the
  // same datagrams, up to its first failing write.
  method Relay(datagrams: seq<Datagram>, chunks: seq<seq<Byte>>, e: Beside) returns (sent: seq<Packet<Datagram>>)
    requires Flat(chunks) == Encode(datagrams)
    ensures sent == Delivered(datagrams, 0, e)
  {
    var tcp := new Stream(chunks);
    sent := TcpToUdp(tcp, e);
    DecodeUndoesEncode(datagrams);
  }
}
