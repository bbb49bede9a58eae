// Split sessions over time: what a finished split.Up establishes, why replacing
// one split session by another never opens a gap.
module SplitSession {
  import opened Net
  import opened PrefixSets
  import opened Tables
  import opened SplitRouting
  import opened World
  import opened Session
  import opened SessionInvariant
  import opened SplitStates

  // ---- What split.Up establishes ------------------------------------------

  // The steps of split.Up in tunnel mode.
  predicate Tunneling(s: Step) {
    || s.LoadNft?
    || s == WriteMark(true)
    || (s.Fam? && (s.step.AddMainRule? || s.step.AddTableRule? || s.step.LastRoute? || s.step.TunnelRoute?
                   || s.step == AddDnsRule(Resolver(s.fam))))
  }

  ghost predicate AllTunneling(steps: seq<Step>, load: Step) {
    forall i :: 0 <= i < |steps| ==> Tunneling(steps[i]) && (steps[i].LoadNft? ==> steps[i] == load)
  }

  lemma {:induction false} TunnelingConcat(a: seq<Step>, b: seq<Step>, load: Step)
    requires AllTunneling(a, load) && AllTunneling(b, load)
    ensures AllTunneling(a + b, load)
  {
  }

  lemma StepsAreTunneling(load: Step, c: SplitConfig)
    requires c.TunnelMode? && load.LoadNft?
    ensures AllTunneling(StepsAfter(load, c), load)
  {
    var rules, routes := RuleSteps(), RouteSteps(c);
    assert AllTunneling([load], load) && AllTunneling([WriteMark(true)], load);
    assert AllTunneling(rules, load) && AllTunneling(routes, load);
    TunnelingConcat([load], rules, load);
    TunnelingConcat([load] + rules, routes, load);
    TunnelingConcat([load] + rules + routes, [WriteMark(true)], load);
  }

  // The rules and the last-resort route of a split session.
  ghost predicate HalfHolds(fam: Family, f: FamState) {
    f.mainRule && f.tableRule && LastKey(fam) in f.table60 && f.table60[LastKey(fam)] == Unreachable
  }

  // No route of an earlier plain session is left for marked packets to take.
  ghost predicate NoPlainLeftover(fam: Family, f: FamState) {
    BaseKey(fam) in f.table60 ==> f.table60[BaseKey(fam)] in {Dev(IFACE), Unreachable}
  }

  // The default of the usual metric is the same, or missing from both.
  ghost predicate SameBase(fam: Family, f: FamState, g: FamState) {
    && (BaseKey(fam) in g.table60 <==> BaseKey(fam) in f.table60)
    && (BaseKey(fam) in f.table60 ==> g.table60[BaseKey(fam)] == f.table60[BaseKey(fam)])
  }

  // What a finished split.Up in tunnel mode makes of one family.
  ghost predicate Raised(was: FamState, f: FamState, t: TunnelConfig, hasV6: bool) {
    && (Established(t, f) <==> t.fam == V4 || hasV6 || NoPlainLeftover(t.fam, was))
    && (t.fam == V4 || hasV6 ==> TunnelWins(t, f))
    && (Established(t, f) <==> OnlyTunnel(t.fam, IFACE, f.table60))
    && HalfHolds(t.fam, f) && f.nft == Some(Tunnel(TunnelChains(t))) && Shaped(t.fam, f.table60)
    && (t.fam == V4 || hasV6 || NoPlainLeftover(t.fam, was) || SameBase(t.fam, was, f))
  }

  lemma UpHalfIsRaised(fam: Family, was: FamState, c: SplitConfig)
    requires c.TunnelMode? && HalfInv(fam, was, true)
    ensures Raised(was, UpHalf(fam, was, c), TunnelConfigOf(fam, c.nets), c.hasV6)
  {
    var f, t := UpHalf(fam, was, c), TunnelConfigOf(fam, c.nets);
    assert LastKey(fam) != BaseKey(fam);
    assert OnlyTunnel(fam, IFACE, f.table60) <==> NoPlainLeftover(fam, f) by {
      assert BaseKey(fam) in f.table60 ==> BaseKey(fam).dst == Anywhere(fam);
    }
    assert Established(t, f) <==> OnlyTunnel(fam, IFACE, f.table60);
  }

  // A finished split.Up in tunnel mode confines the split set, in either family,
  // exactly when the tunnel carries the family or no plain-mode default of that
  // family was left in table 60.
  lemma {:induction false} SplitUpEstablishes(p: Proc, nets: seq<Prefix>, hasV6: bool, fam: Family)
    requires SplitInv(p.w.split, true)
    ensures var r := SplitUp(p, TunnelMode(hasV6, nets));
            r.ok ==> Raised(Half(p.w.split, fam), Half(r.p.w.split, fam), TunnelConfigOf(fam, nets), hasV6)
  {
    SplitUpState(p, TunnelMode(hasV6, nets));
    UpHalfIsRaised(fam, Half(p.w.split, fam), TunnelMode(hasV6, nets));
  }

  // The interface takes no plain route with it.
  lemma LeftoverOutlivesInterface(fam: Family, f: FamState)
    ensures NoPlainLeftover(fam, DropRoutes(f)) <==> NoPlainLeftover(fam, f)
    ensures NoPlainLeftover(fam, f) || SameBase(fam, f, DropRoutes(f))
  {
  }

  // Both starting points the mode is meant for leave no plain default.
  lemma CleanStartsHaveNoLeftover(fam: Family, f: FamState, t: TunnelConfig)
    requires f.table60 == map[] || (t.fam == fam && t.iface == IFACE && Established(t, f))
    ensures NoPlainLeftover(fam, f)
  {
  }

  // ---- Replacing one split session by another -----------------------------

  // The chains of a split session that was given one of the lists in allowed.
  ghost predicate Ours(fam: Family, n: NftTable, allowed: set<seq<Prefix>>) {
    exists nets :: nets in allowed && n == Tunnel(TunnelChains(TunnelConfigOf(fam, nets)))
  }

  // How much is asked of what is in place: None asks for what keeps marked
  // packets off the main default; Some(allowed) also that every way out but the
  // tunnel is shut, by chains made from a list in allowed.
  type Bound = Option<set<seq<Prefix>>>

  // What is in place for one family while a split session stands or is being
  // replaced.
  ghost predicate HalfHolding(fam: Family, f: FamState, bound: Bound) {
    && HalfHolds(fam, f)
    && (bound.Some? ==> f.dnsRules == [Resolver(fam)] && OnlyTunnel(fam, IFACE, f.table60)
                        && f.nft.Some? && Ours(fam, f.nft.value, bound.value))
  }

  // Both families hold, and the state file says whose they are.
  ghost predicate Holding(sp: SplitState, bound: Bound) {
    && sp.file.Some? && sp.file.value.split
    && HalfHolding(V4, sp.v4, bound) && HalfHolding(V6, sp.v6, bound)
  }

  lemma {:induction false} EstablishedFor(fam: Family, f: FamState, nets: seq<Prefix>)
    requires HalfHolds(fam, f)
    ensures Established(TunnelConfigOf(fam, nets), f) <==>
      && f.dnsRules == [Resolver(fam)] && OnlyTunnel(fam, IFACE, f.table60)
      && f.nft == Some(Tunnel(TunnelChains(TunnelConfigOf(fam, nets))))
  {
  }

  // Holding within bounds is being established for one of the lists allowed.
  lemma {:induction false} HoldingIsEstablished(fam: Family, f: FamState, allowed: set<seq<Prefix>>)
    requires HalfHolds(fam, f)
    ensures HalfHolding(fam, f, Some(allowed)) <==>
      exists nets :: nets in allowed && Established(TunnelConfigOf(fam, nets), f)
  {
    if HalfHolding(fam, f, Some(allowed)) {
      var nets :| nets in allowed && f.nft.value == Tunnel(TunnelChains(TunnelConfigOf(fam, nets)));
      EstablishedFor(fam, f, nets);
    }
    if nets :| nets in allowed && Established(TunnelConfigOf(fam, nets), f) {
      EstablishedFor(fam, f, nets);
    }
  }

  lemma FamStepHolds(s: FamStep, fam: Family, f: FamState, bound: Bound)
    requires Tunneling(Fam(fam, s)) && HalfHolding(fam, f, bound)
    ensures HalfHolding(fam, ApplyFam(s, fam, f), bound)
  {
  }

  ghost predicate OursToLoad(load: Step, bound: Bound) {
    load.LoadNft? && (bound.Some? ==> Ours(V4, load.nft4, bound.value) && Ours(V6, load.nft6, bound.value))
  }

  ghost predicate Admits(bound: Bound, nets: seq<Prefix>) {
    bound.Some? ==> nets in bound.value
  }

  lemma TunnelingStepHolds(s: Step, sp: SplitState, bound: Bound)
    requires Tunneling(s) && (s.LoadNft? ==> OursToLoad(s, bound)) && Holding(sp, bound)
    ensures Holding(ApplySplit(s, sp), bound)
  {
    if s.Fam? {
      FamStepHolds(s.step, s.fam, Half(sp, s.fam), bound);
    }
  }

  lemma {:induction false} TunnelingAllHolds(p: Proc, steps: seq<Step>, load: Step, bound: Bound)
    requires AllTunneling(steps, load) && OursToLoad(load, bound)
    requires Holding(p.w.split, bound)
    ensures Holding(InstallAll(p, steps).p.w.split, bound)
    decreases |steps|
  {
    if steps != [] {
      InstallEffect(p, steps[0]);
      if Succeeds(p, steps[0]) {
        TunnelingStepHolds(steps[0], p.w.split, bound);
        TunnelingAllHolds(Install(p, steps[0]), steps[1..], load, bound);
      }
    }
  }

  lemma RaiseHolds(p: Proc, c: SplitConfig, prior: Option<bool>, bound: Bound)
    requires c.TunnelMode? && Admits(bound, c.nets) && Holding(p.w.split, bound)
    ensures Holding(Raise(p, UpSteps(c), true, prior).p.w.split, bound)
  {
    StepsAreTunneling(LoadStep(c), c);
    assert OursToLoad(LoadStep(c), bound);
    TunnelingAllHolds(p, UpSteps(c), LoadStep(c), bound);
  }

  // Taking over, a failed or stopped split.Up strips nothing.
  lemma SplitUpHolds(p: Proc, c: SplitConfig, bound: Bound)
    requires c.TunnelMode? && Admits(bound, c.nets) && Holding(p.w.split, bound)
    ensures Holding(SplitUp(p, c).p.w.split, bound)
  {
    var prior := PriorMark(p.w.split);
    var write := WriteState(SplitFile(true, prior));
    InstallEffect(p, MakeCgroup);
    var r0 := Install(p, MakeCgroup);
    InstallEffect(r0, write);
    RaiseHolds(Install(r0, write), c, prior, bound);
  }

  lemma WgDownHolds(p: Proc, bound: Bound)
    requires Holding(p.w.split, bound)
    ensures Holding(Remove(p, WgDown).w.split, bound)
  {
    RemoveEffect(p, WgDown);
  }

  lemma TeardownHolds(p: Proc, bound: Bound)
    requires Holding(p.w.split, bound)
    ensures Holding(Teardown(p).w.split, bound) && Teardown(p).w.saved == p.w.saved
  {
    TeardownFrame(p);
  }

  lemma BuildHolds(p: Proc, o: Opts, e: Outside, d: Dial, bound: Bound)
    requires Holding(p.w.split, bound) && Admits(bound, e.nets)
    requires p.w.saved.split && o.split && d.cfg.endpoint.Some? && d.cfg.split
    ensures var q := Build(p, o, e, d, true).p.w; Holding(q.split, bound) && q.saved.split
  {
    TeardownHolds(p, bound);
    var q := Teardown(p);
    InstallEffect(q, SaveConfig(d.cfg));
    var s := Try(q, SaveConfig(d.cfg));
    if s.ok {
      var wg := Full(WgUp(d.key));
      InstallEffect(s.p, wg);
      var r1 := Try(s.p, wg);
      if r1.ok {
        var c := TunnelMode(d.cfg.hasV6, e.nets);
        SplitUpHolds(r1.p, c, bound);
        SplitUpSaves(r1.p, c);
        var r2 := SplitUp(r1.p, c);
        WgDownHolds(r2.p, bound);
        RemoveEffect(r2.p, WgDown);
      }
    }
  }

  lemma {:induction false} RaiseSaves(p: Proc, steps: seq<Step>, takingOver: bool, prior: Option<bool>)
    requires AllUpping(steps)
    ensures Raise(p, steps, takingOver, prior).p.w.saved == p.w.saved
    ensures Raise(p, steps, takingOver, prior).p.w.otherWg == p.w.otherWg
  {
    InstallAllSplitSide(p, steps);
    var q := InstallAll(p, steps).p;
    assert AllSplitSide(ClearSteps());
    ClearSaves(q, ClearSteps(), prior);
  }

  lemma {:induction false} ClearSaves(p: Proc, steps: seq<Step>, prior: Option<bool>)
    requires AllSplitSide(steps)
    ensures ClearWith(p, steps, prior).w.saved == p.w.saved && ClearWith(p, steps, prior).w.otherWg == p.w.otherWg
  {
    RemoveAllSplitSide(p, steps);
    var q := RemoveAll(p, steps);
    RemoveEffect(q, RemoveState);
    RemoveEffect(Remove(q, RemoveState), WriteMark(false));
  }

  lemma SplitUpSaves(p: Proc, c: SplitConfig)
    ensures SplitUp(p, c).p.w.saved == p.w.saved && SplitUp(p, c).p.w.otherWg == p.w.otherWg
  {
    var prior := PriorMark(p.w.split);
    var write := WriteState(SplitFile(c.TunnelMode?, prior));
    InstallEffect(p, MakeCgroup);
    var r0 := Install(p, MakeCgroup);
    InstallEffect(r0, write);
    UpStepsAreUpping(c);
    RaiseSaves(Install(r0, write), UpSteps(c), ReplacesSplit(p.w.split, c), prior);
  }

  lemma ConnectHolds(p: Proc, o: Opts, e: Outside, bound: Bound)
    requires Holding(p.w.split, bound) && Admits(bound, e.nets) && p.w.saved.split && o.split
    ensures var q := Connect(p, o, e).p.w; Holding(q.split, bound) && q.saved.split
  {
    var f := RefreshRelays(p, o, e);
    InstallEffect(p, SaveConfig(f.cfg));
    var d := ChooseRelays(f.cfg, o, e);
    if d.Some? {
      BuildHolds(f.p, o, e, d.value, bound);
    }
  }

  // connect --split and reconnect.
  predicate StaysSplit(c: Command) {
    c.DoReconnect? || (c.DoConnect? && c.split)
  }

  // The split set a command was given.
  function NetsOf(c: Command): seq<Prefix> {
    if c.DoDisconnect? then [] else c.e.nets
  }

  ghost predicate StayWithin(turns: seq<Turn>, bound: Bound) {
    forall i :: 0 <= i < |turns| ==> StaysSplit(turns[i].c) && Admits(bound, NetsOf(turns[i].c))
  }

  // However often a split session is redialed, whatever fails and wherever a
  // process stops, what keeps the split set in stays.
  lemma {:induction false} RedialsHold(w: World, turns: seq<Turn>, bound: Bound)
    requires Holding(w.split, bound) && w.saved.split && StayWithin(turns, bound)
    ensures var v := RunAll(w, turns); Holding(v.split, bound) && v.saved.split
    decreases |turns|
  {
    if turns != [] {
      var before := turns[..|turns| - 1];
      RedialsHold(w, before, bound);
      RedialHolds(RunAll(w, before), turns[|turns| - 1], bound);
    }
  }

  lemma {:induction false} RedialHolds(w: World, t: Turn, bound: Bound)
    requires Holding(w.split, bound) && w.saved.split && StaysSplit(t.c) && Admits(bound, NetsOf(t.c))
    ensures var v := Execute(w, t.c, t.plan).p.w; Holding(v.split, bound) && v.saved.split
  {
    var p := Proc(w, t.plan, true);
    match t.c
    case DoConnect(relay, via, split, e) => ConnectHolds(p, ConnectOpts(relay, via, split), e, bound);
    case DoReconnect(ifDead, h, e) => ConnectHolds(p, ReconnectOpts(w.saved, ifDead), e, bound);
  }

  // So no marked packet ever takes the main table's default route in between.
  lemma {:induction false} RedialsNeverLeakToDefault(w: World, turns: seq<Turn>, fam: Family, m: Machine, dst: Addr)
    requires Holding(w.split, None) && w.saved.split && dst.fam == fam && StayWithin(turns, None)
    ensures forall d :: Route(m, Half(RunAll(w, turns).split, fam), true, dst) != Via(d, FromMainDefault)
  {
    RedialsHold(w, turns, None);
    MarkedNeverTakesMainDefault(fam, m, Half(RunAll(w, turns).split, fam), dst);
  }

  // The chains of a session given one of the lists in allowed are in place, and
  // p if it is marked is confined by them, on either reading of the guard's device.
  ghost predicate KeptIn(allowed: set<seq<Prefix>>, fam: Family, m: Machine, f: FamState, p: Packet) {
    exists nets :: nets in allowed && KeptInBy(TunnelConfigOf(fam, nets), m, f, p)
  }

  ghost predicate KeptInBy(c: TunnelConfig, m: Machine, f: FamState, p: Packet) {
    && Established(c, f)
    && (Tagged(f, p).Passed? && Tagged(f, p).packet.mark ==> Confined(c, m, f, p) && EarlyConfined(c, m, f, p))
  }

  lemma EstablishedKeepsIn(c: TunnelConfig, m: Machine, f: FamState, p: Packet)
    requires Established(c, f) && p.dst.fam == c.fam
    ensures KeptInBy(c, m, f, p)
  {
    if Tagged(f, p).Passed? && Tagged(f, p).packet.mark {
      MarkedIsConfined(c, m, f, p);
      EarlyIsConfined(c, m, f, p);
    }
  }

  // And each one stays confined, by the nets of the session that stood at first
  // or of one of the redials.
  lemma {:induction false} RedialsStayConfined(w: World, turns: seq<Turn>, allowed: set<seq<Prefix>>,
                                               fam: Family, m: Machine, p: Packet)
    requires Holding(w.split, Some(allowed)) && w.saved.split && p.dst.fam == fam
    requires StayWithin(turns, Some(allowed))
    ensures KeptIn(allowed, fam, m, Half(RunAll(w, turns).split, fam), p)
  {
    RedialsHold(w, turns, Some(allowed));
    var f := Half(RunAll(w, turns).split, fam);
    HoldingIsEstablished(fam, f, allowed);
    var nets :| nets in allowed && Established(TunnelConfigOf(fam, nets), f);
    EstablishedKeepsIn(TunnelConfigOf(fam, nets), m, f, p);
  }

  // A finished split connect is such a session, shut but for its own nets unless
  // a plain default of a family the tunnel does not carry was left in table 60.
  lemma {:induction false} FinishedSplitUpHolds(p: Proc, nets: seq<Prefix>, hasV6: bool, allowed: set<seq<Prefix>>)
    requires SplitInv(p.w.split, true) && nets in allowed
    ensures var r := SplitUp(p, TunnelMode(hasV6, nets));
            r.ok ==>
              && r.p.w.split.mark && Holding(r.p.w.split, None)
              && (Holding(r.p.w.split, Some(allowed)) <==> hasV6 || NoPlainLeftover(V6, p.w.split.v6))
  {
    var c := TunnelMode(hasV6, nets);
    if SplitUp(p, c).ok {
      SplitUpState(p, c);
      UpHalfIsRaised(V4, p.w.split.v4, c);
      UpHalfIsRaised(V6, p.w.split.v6, c);
      var q := SplitUp(p, c).p.w.split;
      HoldingIsEstablished(V4, q.v4, allowed);
      HoldingIsEstablished(V6, q.v6, allowed);
    }
  }
}
