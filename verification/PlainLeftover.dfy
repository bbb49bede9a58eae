// The one start from which connect --split does not confine the split set: a
// plain IPv6 default left in table 60 by a full session, on a device without an
// IPv6 address. How it comes about, and where it lets packets out.
module PlainLeftover {
  import opened Net
  import opened PrefixSets
  import opened Tables
  import opened Ranges
  import opened SplitRouting
  import opened World
  import opened Session
  import opened SessionInvariant
  import opened SplitStates
  import opened SplitSession
  import opened SessionTheorems
  import opened Unfaulted
  import opened PlainSession

  // The case the condition shuts out: with a plain default left behind, a marked
  // packet to a listed range leaves by it although no main route claims it.
  lemma {:induction false} PlainLeftoverLeaks(c: TunnelConfig, m: Machine, f: FamState, p: Packet, dev: string)
    requires f.mainRule && FailsClosed(c.fam, f) && f.nft == Some(Tunnel(TunnelChains(c)))
    requires Shaped(c.fam, f.table60) && BaseKey(c.fam) in f.table60 && f.table60[BaseKey(c.fam)] == Dev(dev)
    requires p.dst.fam == c.fam && !IsDns(p)
    requires Tagged(f, p).Passed? && Tagged(f, p).packet.mark
    requires !IsLocal(m, p.dst) && !MainClaims(m, p.dst) && Listed(c.fam, p.dst)
    ensures FateOf(m, f, p) == Sent(dev, FromSplitTable, p.dst)
  {
    WhoIsMarked(c, f, p);
    var q := Tagged(f, p).packet;
    RewriteIsDnsTarget(c, f, q);
    MarkedRoute(c.fam, m, f, q.dst);
    SplitTableAnswers(c.fam, f, q.dst);
    DefaultCoversAll(c.fam, q.dst);
    assert Beats(Lookup(f.table60, q.dst).value, BaseKey(c.fam));
    GuardVerdict(c, q, dev);
  }

  // A plain default through dev sits in table 60.
  ghost predicate LeftBy(dev: string, f: FamState) {
    BaseKey(V6) in f.table60 && f.table60[BaseKey(V6)] == Dev(dev)
  }

  // From a clean machine, a full connect where nothing fails gets that far.
  lemma {:induction false} FullConnectLeavesDefault(p: Proc, o: Opts, e: Outside, dev: string, orig: string)
    requires Free(p) && Clean(p.w, orig) && !o.split && !o.retry && e.gateway == Some(dev) && e.hasGateway6
    ensures Connect(p, o, e).ok ==> LeftBy(dev, Connect(p, o, e).p.w.split.v6)
  {
    FullConnectRaisesPlain(p, o, e, dev, orig);
  }

  // Connecting does not touch the device's own addresses.
  lemma {:induction false} ConnectKeepsDevice(p: Proc, o: Opts, e: Outside, orig: string)
    requires Inv(p.w, orig)
    ensures Connect(p, o, e).p.w.saved.hasV6 == p.w.saved.hasV6
  {
    var f := RefreshRelays(p, o, e);
    SaveKeeps(p, f.cfg, orig);
    InstallEffect(p, SaveConfig(f.cfg));
    var d := ChooseRelays(f.cfg, o, e);
    assert f.p.w.saved.hasV6 == f.cfg.hasV6 == p.w.saved.hasV6;
    if d.Some? && Connect(p, o, e).p != f.p && Connect(p, o, e).p != p {
      assert Connect(p, o, e) == Build(f.p, o, e, d.value, p.w.saved.split);
      BuildSaves(f.p, o, e, d.value, p.w.saved.split, orig);
    }
  }

  // A packet of the split cgroup to a listed range that nothing else claims.
  ghost predicate Unclaimed(m: Machine, p: Packet) {
    && p.dst.fam == V6 && !IsDns(p) && p.inCgroup && p.fromHost && !p.reply
    && !IsLocal(m, p.dst) && !MainClaims(m, p.dst) && Listed(V6, p.dst)
  }

  lemma {:induction false} RaisedOverLeftoverLeaks(was: FamState, f: FamState, t: TunnelConfig, dev: string,
                                                   m: Machine, p: Packet)
    requires t.fam == V6 && Raised(was, f, t, false) && LeftBy(dev, was) && dev != IFACE && Unclaimed(m, p)
    ensures FateOf(m, f, p) == Sent(dev, FromSplitTable, p.dst)
  {
    WhoIsMarked(t, f, p);
    PlainLeftoverLeaks(t, m, f, p, dev);
  }

  lemma {:induction false} SplitOverLeftoverLeaks(w: World, relay: string, via: string, e: Outside, plan: seq<Fault>,
                                                  dev: string, m: Machine, p: Packet, orig: string)
    requires Inv(w, orig) && !w.saved.hasV6 && dev != IFACE && LeftBy(dev, w.split.v6) && Unclaimed(m, p)
    ensures var r := Execute(w, DoConnect(relay, via, true, e), plan);
            r.ok ==> FateOf(m, r.p.w.split.v6, p) == Sent(dev, FromSplitTable, p.dst)
  {
    SplitConnectEstablishes(w, relay, via, e, plan, {e.nets}, V6, orig);
    var r := Execute(w, DoConnect(relay, via, true, e), plan);
    if r.ok {
      RaisedOverLeftoverLeaks(w.split.v6, r.p.w.split.v6, TunnelConfigOf(V6, e.nets), dev, m, p);
    }
  }

  // connect, then connect --split, both successful: such a packet leaves by the
  // old gateway's device.
  lemma {:induction false} FullThenSplitLeaks(w: World, full: Command, split: Command, dev: string,
                                              m: Machine, p: Packet, orig: string)
    requires Clean(w, orig) && !w.saved.hasV6 && dev != IFACE && Unclaimed(m, p)
    requires full.DoConnect? && !full.split && full.e.gateway == Some(dev) && full.e.hasGateway6
    requires split.DoConnect? && split.split
    ensures Execute(w, full, []).ok && Execute(Execute(w, full, []).p.w, split, []).ok ==>
      FateOf(m, RunAll(w, [Turn(full, []), Turn(split, [])]).split.v6, p) == Sent(dev, FromSplitTable, p.dst)
  {
    var q, o := Proc(w, [], true), ConnectOpts(full.relay, full.via, false);
    FullConnectLeavesDefault(q, o, full.e, dev, orig);
    ConnectKeeps(q, o, full.e, orig);
    ConnectKeepsDevice(q, o, full.e, orig);
    if Execute(w, full, []).ok {
      SplitOverLeftoverLeaks(Execute(w, full, []).p.w, split.relay, split.via, split.e, [], dev, m, p, orig);
    }
    TwoTurns(w, Turn(full, []), Turn(split, []));
  }

  lemma {:induction false} TwoTurns(w: World, a: Turn, b: Turn)
    ensures RunAll(w, [a, b]) == Execute(Execute(w, a.c, a.plan).p.w, b.c, b.plan).p.w
  {
    assert [a, b][..1] == [a] && [a][..0] == [];
    assert RunAll(w, [a]) == Execute(w, a.c, a.plan).p.w;
  }
}
