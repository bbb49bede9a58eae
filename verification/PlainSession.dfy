// The split set beside a full session: tagged traffic goes out by the plain
// gateway while everything else takes the tunnel.
module PlainSession {
  import opened Net
  import opened PrefixSets
  import opened Tables
  import opened SplitRouting
  import opened World
  import opened Session
  import opened SessionInvariant
  import opened SplitStates
  import opened SessionTheorems
  import opened Unfaulted

  // One family of a plain split set: its rules, no resolver rule, the sets, and
  // in table 60 the gateway's device, or for IPv6 without a gateway a dead end.
  ghost predicate PlainHolds(fam: Family, f: FamState, dev: string, hasGateway6: bool, nets: seq<Prefix>) {
    && f.mainRule && f.tableRule && f.dnsRules == [] && Shaped(fam, f.table60)
    && f.nft == Some(Plain(OfFamily(Coalesced(nets), fam)))
    && BaseKey(fam) in f.table60
    && f.table60[BaseKey(fam)] == if fam == V4 || hasGateway6 then Dev(dev) else Unreachable
  }

  // Where a marked packet of such a set goes: out by that device, or nowhere. The
  // tunnel's default in the main table never gets it.
  lemma {:induction false} PlainSetBypassesTunnel(fam: Family, m: Machine, f: FamState, dev: string, hasGateway6: bool,
                                                  nets: seq<Prefix>, dst: Addr)
    requires PlainHolds(fam, f, dev, hasGateway6, nets) && dst.fam == fam
    ensures !IsLocal(m, dst) && !MainClaims(m, dst) ==>
      Route(m, f, true, dst) == if fam == V4 || hasGateway6 then Via(dev, FromSplitTable) else NoWay
    ensures forall d :: Route(m, f, true, dst) != Via(d, FromMainDefault)
  {
    DefaultCoversAll(fam, dst);
    LookupMisses(f.table60, dst);
    AnsweredRoute(m, f, dst);
    assert Beats(Lookup(f.table60, dst).value, BaseKey(fam));
    assert LastKey(fam) != BaseKey(fam);
  }

  ghost predicate PlainRaised(sp: SplitState, dev: string, hasGateway6: bool, nets: seq<Prefix>) {
    && PlainHolds(V4, sp.v4, dev, hasGateway6, nets) && PlainHolds(V6, sp.v6, dev, hasGateway6, nets)
    && sp.mark && sp.file.Some? && !sp.file.value.split
  }

  lemma {:induction false} PlainUpRaises(p: Proc, dev: string, hasGateway6: bool, nets: seq<Prefix>)
    requires SplitInv(p.w.split, true)
    ensures var r := SplitUp(p, PlainMode(dev, hasGateway6, nets));
            r.ok ==> PlainRaised(r.p.w.split, dev, hasGateway6, nets)
  {
    SplitUpState(p, PlainMode(dev, hasGateway6, nets));
    SplitUpKeeps(p, PlainMode(dev, hasGateway6, nets));
  }

  lemma {:induction false} FinishRaisesPlain(p: Proc, e: Outside, d: Dial, dev: string)
    requires Free(p) && p.w.full.iface.Some? && SplitInv(p.w.split, true) && e.gateway == Some(dev)
    ensures var r := FinishFull(p, e, d); r.ok && PlainRaised(r.p.w.split, dev, e.hasGateway6, e.nets)
  {
    var q := Install(DnsSet(p).p, Full(KillSwitchUp));
    SplitUpSucceeds(q, PlainMode(dev, e.hasGateway6, e.nets));
    PlainUpRaises(q, dev, e.hasGateway6, e.nets);
  }

  lemma {:induction false} FullBuildRaisesPlain(p: Proc, e: Outside, d: Dial, dev: string)
    requires Unhindered(p) && SplitInv(p.w.split, true) && d.cfg.endpoint.Some? && e.gateway == Some(dev)
    ensures var r := EstablishFull(p, e, d); r.ok && PlainRaised(r.p.w.split, dev, e.hasGateway6, e.nets)
  {
    var r1 := Install(p, Full(WgUp(d.key)));
    RoutesSucceed(r1, d.cfg.endpoint.value.ip);
    FinishRaisesPlain(RouteSet(r1, d.cfg.endpoint.value.ip).p, e, d, dev);
  }

  lemma {:induction false} BuildRaisesPlain(p: Proc, o: Opts, e: Outside, d: Dial, before: bool,
                                            dev: string, orig: string)
    requires Free(p) && Inv(p.w, orig) && !o.split && d.cfg.endpoint.Some? && e.gateway == Some(dev)
    ensures PlainRaised(Build(p, o, e, d, before).p.w.split, dev, e.hasGateway6, e.nets)
  {
    ClearsTheWayFreely(p, o.split);
    WayIsClear(p, o.split, orig);
    FullBuildRaisesPlain(Install(ClearTheWay(p, o.split), SaveConfig(d.cfg)), e, d, dev);
  }

  // From any state: a full connect that meets no fault leaves the plain split set
  // in place, for the nets it was given and the gateway it found.
  lemma {:induction false} FullConnectRaisesPlain(p: Proc, o: Opts, e: Outside, dev: string, orig: string)
    requires Free(p) && Inv(p.w, orig) && !o.split && !o.retry && e.gateway == Some(dev)
    ensures Connect(p, o, e).ok ==> PlainRaised(Connect(p, o, e).p.w.split, dev, e.hasGateway6, e.nets)
  {
    var f := RefreshRelays(p, o, e);
    SaveKeeps(p, f.cfg, orig);
    var d := ChooseRelays(f.cfg, o, e);
    if Connect(p, o, e).ok {
      assert Connect(p, o, e) == Build(f.p, o, e, d.value, p.w.saved.split);
      BuildRaisesPlain(f.p, o, e, d.value, p.w.saved.split, dev, orig);
    }
  }
}
