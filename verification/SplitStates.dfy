// What a finished split.Up leaves, in either mode: the exact state.
module SplitStates {
  import opened Net
  import opened PrefixSets
  import opened Tables
  import opened SplitRouting
  import opened World
  import opened Session
  import opened SessionInvariant

  // ---- Steps that all go through ------------------------------------------

  function ApplyAll(steps: seq<Step>, sp: SplitState): SplitState {
    if steps == [] then sp else ApplyAll(steps[1..], ApplySplit(steps[0], sp))
  }

  lemma {:induction false} InstalledAll(p: Proc, steps: seq<Step>)
    requires AllSplitSide(steps) && InstallAll(p, steps).ok
    ensures InstallAll(p, steps).p.w.split == ApplyAll(steps, p.w.split)
    decreases |steps|
  {
    if steps != [] {
      InstallEffect(p, steps[0]);
      InstalledAll(Install(p, steps[0]), steps[1..]);
    }
  }

  lemma {:induction false} ApplyInTwo(a: seq<Step>, b: seq<Step>, sp: SplitState)
    ensures ApplyAll(a + b, sp) == ApplyAll(b, ApplyAll(a, sp))
    decreases |a|
  {
    if a == [] {
      assert a + b == b;
    } else {
      assert (a + b)[1..] == a[1..] + b;
      ApplyInTwo(a[1..], b, ApplySplit(a[0], sp));
    }
  }

  lemma {:induction false} ApplyOne(a: Step, sp: SplitState)
    ensures ApplyAll([a], sp) == ApplySplit(a, sp)
  {
    assert [a][1..] == [];
  }

  lemma {:induction false} ApplyTwo(a: Step, b: Step, sp: SplitState)
    ensures ApplyAll([a, b], sp) == ApplySplit(b, ApplySplit(a, sp))
  {
    assert [a, b][1..] == [b];
    ApplyOne(b, ApplySplit(a, sp));
  }

  lemma {:induction false} ApplyFour(a: Step, b: Step, c: Step, d: Step, sp: SplitState)
    ensures ApplyAll([a, b, c, d], sp) == ApplySplit(d, ApplySplit(c, ApplySplit(b, ApplySplit(a, sp))))
  {
    assert [a, b, c, d] == [a, b] + [c, d];
    ApplyInTwo([a, b], [c, d], sp);
    ApplyTwo(a, b, sp);
    ApplyTwo(c, d, ApplySplit(b, ApplySplit(a, sp)));
  }

  lemma {:induction false} InOrderEffect(load: Step, rules: seq<Step>, routes: seq<Step>, sp: SplitState)
    ensures ApplyAll(InOrder(load, rules, routes), sp) ==
            ApplyAll(routes, ApplyAll(rules, ApplySplit(load, sp))).(mark := true)
  {
    var mark := [WriteMark(true)];
    ApplyInTwo([load] + rules + routes, mark, sp);
    ApplyInTwo([load] + rules, routes, sp);
    ApplyInTwo([load], rules, sp);
    ApplyOne(load, sp);
    ApplyOne(WriteMark(true), ApplyAll([load] + rules + routes, sp));
  }

  // ---- Rules and routes ---------------------------------------------------

  function WithRules(f: FamState): FamState {
    f.(mainRule := true, tableRule := true)
  }

  lemma {:induction false} RulesEffect(sp: SplitState)
    ensures ApplyAll(RuleSteps(), sp) == sp.(v4 := WithRules(sp.v4), v6 := WithRules(sp.v6))
  {
    ApplyFour(Fam(V4, AddMainRule), Fam(V4, AddTableRule), Fam(V6, AddMainRule), Fam(V6, AddTableRule), sp);
  }

  function LastKey(fam: Family): RouteKey {
    RouteKey(Anywhere(fam), LAST_METRIC)
  }

  function BaseKey(fam: Family): RouteKey {
    RouteKey(Anywhere(fam), BaseMetric(fam))
  }

  // Does c set a default of the usual metric for fam, and where to? In plain mode
  // always: the gateway's device, or for IPv6 without a gateway a dead end, so
  // that the lookup does not fall through to the tunnel.
  function Default(fam: Family, c: SplitConfig): Option<Target> {
    match c
    case TunnelMode(hasV6, _) => if fam == V4 || hasV6 then Some(Dev(IFACE)) else None
    case PlainMode(dev, hasGateway6, _) => Some(if fam == V4 || hasGateway6 then Dev(dev) else Unreachable)
  }

  function UpTable(fam: Family, t: Table<Target>, c: SplitConfig): Table<Target> {
    var u := if c.TunnelMode? then t[LastKey(fam) := Unreachable] else t;
    var d := Default(fam, c);
    if d.Some? then u[BaseKey(fam) := d.value] else u
  }

  // Tunnel mode has its resolver's rule; plain mode drops a stale one.
  function UpDnsRules(fam: Family, c: SplitConfig): seq<Addr> {
    if c.TunnelMode? then [Resolver(fam)] else []
  }

  function Routed(fam: Family, f: FamState, c: SplitConfig): FamState {
    f.(dnsRules := UpDnsRules(fam, c), table60 := UpTable(fam, f.table60, c))
  }

  // Two steps for each family, in turn.
  lemma {:induction false} FamilyByFamily(a: FamStep, b: FamStep, c: FamStep, d: FamStep, sp: SplitState)
    ensures ApplyAll([Fam(V4, a), Fam(V6, b), Fam(V4, c), Fam(V6, d)], sp) ==
            sp.(v4 := ApplyFam(c, V4, ApplyFam(a, V4, sp.v4)), v6 := ApplyFam(d, V6, ApplyFam(b, V6, sp.v6)))
  {
    ApplyFour(Fam(V4, a), Fam(V6, b), Fam(V4, c), Fam(V6, d), sp);
  }

  lemma PlainHalf(fam: Family, f: FamState, c: SplitConfig)
    requires c.PlainMode? && HalfInv(fam, f, true)
    ensures var route := if fam == V4 || c.hasGateway6 then PlainRoute(c.dev) else RefuseRoute;
            ApplyFam(route, fam, ApplyFam(DelDnsRule, fam, f)) == Routed(fam, f, c)
  {
  }

  lemma {:induction false} PlainRoutesEffect(c: SplitConfig, sp: SplitState)
    requires c.PlainMode? && HalfInv(V4, sp.v4, true) && HalfInv(V6, sp.v6, true)
    ensures ApplyAll(RouteSteps(c), sp) == sp.(v4 := Routed(V4, sp.v4, c), v6 := Routed(V6, sp.v6, c))
  {
    var last := if c.hasGateway6 then PlainRoute(c.dev) else RefuseRoute;
    FamilyByFamily(DelDnsRule, DelDnsRule, PlainRoute(c.dev), last, sp);
    PlainHalf(V4, sp.v4, c);
    PlainHalf(V6, sp.v6, c);
  }

  // The resolver's rule and the last resort, before the tunnel's own default.
  function Guarded(fam: Family, f: FamState): FamState {
    f.(dnsRules := [Resolver(fam)], table60 := f.table60[LastKey(fam) := Unreachable])
  }

  lemma GuardedHalf(fam: Family, f: FamState)
    requires HalfInv(fam, f, true)
    ensures ApplyFam(LastRoute, fam, ApplyFam(AddDnsRule(Resolver(fam)), fam, f)) == Guarded(fam, f)
  {
  }

  lemma TunnelHalf(fam: Family, f: FamState, c: SplitConfig)
    requires c.TunnelMode?
    ensures Routed(fam, f, c) ==
            if fam == V4 || c.hasV6 then ApplyFam(TunnelRoute, fam, Guarded(fam, f)) else Guarded(fam, f)
  {
  }

  // The tunnel's own defaults.
  lemma {:induction false} OwnEffect(hasV6: bool, sp: SplitState)
    ensures ApplyAll([Fam(V4, TunnelRoute)] + (if hasV6 then [Fam(V6, TunnelRoute)] else []), sp) ==
            sp.(v4 := ApplyFam(TunnelRoute, V4, sp.v4), v6 := if hasV6 then ApplyFam(TunnelRoute, V6, sp.v6) else sp.v6)
  {
    var a, b := [Fam(V4, TunnelRoute)], if hasV6 then [Fam(V6, TunnelRoute)] else [];
    ApplyInTwo(a, b, sp);
    ApplyOne(Fam(V4, TunnelRoute), sp);
    ApplyOne(Fam(V6, TunnelRoute), ApplyAll(a, sp));
  }

  lemma {:induction false} TunnelRoutesEffect(c: SplitConfig, sp: SplitState)
    requires c.TunnelMode? && HalfInv(V4, sp.v4, true) && HalfInv(V6, sp.v6, true)
    ensures ApplyAll(RouteSteps(c), sp) == sp.(v4 := Routed(V4, sp.v4, c), v6 := Routed(V6, sp.v6, c))
  {
    var guard := [Fam(V4, AddDnsRule(Resolver(V4))), Fam(V6, AddDnsRule(Resolver(V6))),
                  Fam(V4, LastRoute), Fam(V6, LastRoute)];
    var own := [Fam(V4, TunnelRoute)] + if c.hasV6 then [Fam(V6, TunnelRoute)] else [];
    assert RouteSteps(c) == guard + own;
    ApplyInTwo(guard, own, sp);
    FamilyByFamily(AddDnsRule(Resolver(V4)), AddDnsRule(Resolver(V6)), LastRoute, LastRoute, sp);
    GuardedHalf(V4, sp.v4);
    GuardedHalf(V6, sp.v6);
    OwnEffect(c.hasV6, ApplyAll(guard, sp));
    TunnelHalf(V4, sp.v4, c);
    TunnelHalf(V6, sp.v6, c);
  }

  // ---- The state ----------------------------------------------------------

  // One family after split.Up.
  function UpHalf(fam: Family, was: FamState, c: SplitConfig): FamState {
    FamState(UpDnsRules(fam, c), true, true, UpTable(fam, was.table60, c), Some(ScriptFor(fam, c)))
  }

  lemma {:induction false} StepsEffect(load: Step, c: SplitConfig, sp: SplitState)
    requires load == LoadStep(c) && SplitInv(sp, true)
    ensures ApplyAll(StepsAfter(load, c), sp) == SplitState(UpHalf(V4, sp.v4, c), UpHalf(V6, sp.v6, c), sp.file, true)
  {
    InOrderEffect(load, RuleSteps(), RouteSteps(c), sp);
    var sp1 := ApplySplit(load, sp);
    RulesEffect(sp1);
    var sp2 := ApplyAll(RuleSteps(), sp1);
    if c.TunnelMode? {
      TunnelRoutesEffect(c, sp2);
    } else {
      PlainRoutesEffect(c, sp2);
    }
  }

  // The whole of it: rules in place, table 60 with the mode's defaults over what
  // was there, the chains loaded, the sysctl raised, and the file on disk with
  // the mode and the sysctl's first value.
  lemma SplitUpState(p: Proc, c: SplitConfig)
    requires SplitInv(p.w.split, true)
    ensures var r, was := SplitUp(p, c), p.w.split;
            r.ok ==> r.p.w.split == SplitState(UpHalf(V4, was.v4, c), UpHalf(V6, was.v6, c),
                                               Some(SplitFile(c.TunnelMode?, PriorMark(was))), true)
  {
    var was := p.w.split;
    var write := WriteState(SplitFile(c.TunnelMode?, PriorMark(was)));
    if SplitUp(p, c).ok {
      InstallEffect(p, MakeCgroup);
      InstallEffect(Install(p, MakeCgroup), write);
      var q := Install(Install(p, MakeCgroup), write);
      UpStepsAreUpping(c);
      InstalledAll(q, UpSteps(c));
      StepsEffect(LoadStep(c), c, q.w.split);
    }
  }
}
