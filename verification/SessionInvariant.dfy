// What every step of every command keeps, so that it holds wherever a process
// fails or stops.
module SessionInvariant {
  import opened Net
  import opened PrefixSets
  import opened Tables
  import opened SplitRouting
  import opened Relays
  import opened World
  import opened Session

  // ---- The invariant ------------------------------------------------------

  // Nothing of a full session is in place; orig is resolv.conf as mvad found it.
  ghost predicate NothingFull(n: FullState, orig: string) {
    n.pins == {} && !n.tunnel4 && !n.tunnel6 && n.resolv == orig && !n.killSwitch
  }

  // Every part of a full session with peer key, dialed at ip.
  function FullSession(key: nat, ip: Addr, orig: string): FullState {
    FullState(Some(key), true, true, {ip}, TUNNEL_RESOLV, Some(orig), true)
  }

  ghost predicate PinsOnDisk(n: FullState, endpoint: Option<Endpoint>) {
    forall ip :: ip in n.pins ==> endpoint.Some? && endpoint.value.ip == ip
  }

  // The backup holds the original or nothing, and an override has its backup.
  ghost predicate DnsSafe(n: FullState, orig: string) {
    && (n.backup.Some? ==> n.backup.value == orig)
    && (n.resolv == orig || (n.resolv == TUNNEL_RESOLV && n.backup.Some?))
  }

  // A full session stands and falls in layers: the tunnel's routes only over the
  // endpoint's pin, the resolver only over both routes, the kill-switch on top.
  ghost predicate Layered(n: FullState, endpoint: Option<Endpoint>, orig: string) {
    && (n.tunnel4 || n.tunnel6 ==> endpoint.Some? && endpoint.value.ip in n.pins)
    && (n.resolv != orig ==> n.tunnel4 && n.tunnel6)
    && (n.killSwitch ==> n.resolv == TUNNEL_RESOLV && n.tunnel4 && n.tunnel6)
  }

  ghost predicate FullInv(n: FullState, endpoint: Option<Endpoint>, orig: string) {
    && PinsOnDisk(n, endpoint) && DnsSafe(n, orig) && Layered(n, endpoint, orig)
    && (n.iface.None? ==> NothingFull(n, orig))
  }

  // Table 60 holds defaults only: one of the usual metric, and the last resort.
  ghost predicate Shaped(fam: Family, t: Table<Target>) {
    forall k :: k in t ==>
      && k.dst == Anywhere(fam)
      && (k.metric == BaseMetric(fam) || (k.metric == LAST_METRIC && t[k] == Unreachable))
  }

  // At most one DNS rule per family, the resolver's; without the interface no
  // route through it.
  ghost predicate HalfInv(fam: Family, f: FamState, up: bool) {
    && (f.dnsRules == [] || f.dnsRules == [Resolver(fam)])
    && (!up ==> GoneFrom(IFACE, f.table60))
    && Shaped(fam, f.table60)
  }

  // Any split artefact has the state file.
  ghost predicate SplitInv(sp: SplitState, up: bool) {
    && (sp.file.None? ==> sp.v4 == BLANK && sp.v6 == BLANK)
    && HalfInv(V4, sp.v4, up) && HalfInv(V6, sp.v6, up)
  }

  ghost predicate Inv(w: World, orig: string) {
    FullInv(w.full, w.saved.endpoint, orig) && SplitInv(w.split, w.full.iface.Some?)
  }

  // What a finished disconnect leaves: none of mvad.
  ghost predicate Clean(w: World, orig: string) {
    && w.full == FullState(None, false, false, {}, orig, None, false)
    && w.split.file.None? && w.split.v4 == BLANK && w.split.v6 == BLANK
  }

  // ---- Single steps -------------------------------------------------------

  // A removal either happened, or the process had stopped and changed nothing.
  lemma RemoveEffect(p: Proc, s: Step)
    ensures Remove(p, s).w == if Remove(p, s).alive then Apply(s, p.w) else p.w
    ensures Remove(p, s).alive ==> p.alive
  {
  }

  lemma InstallEffect(p: Proc, s: Step)
    ensures Install(p, s).w == if Succeeds(p, s) then Apply(s, p.w) else p.w
    ensures Install(p, s).alive ==> p.alive
    ensures Succeeds(p, s) ==> Install(p, s).alive
  {
  }

  // Steps that only touch the split state.
  predicate SplitSide(s: Step) {
    !s.Full? && !s.WgDown? && !s.SaveConfig?
  }

  ghost predicate AllSplitSide(steps: seq<Step>) {
    forall i :: 0 <= i < |steps| ==> SplitSide(steps[i])
  }

  lemma {:induction false} InstallAllSplitSide(p: Proc, steps: seq<Step>)
    requires AllSplitSide(steps)
    ensures var q := InstallAll(p, steps).p; q.w == p.w.(split := q.w.split) && (q.alive ==> p.alive)
    ensures InstallAll(p, steps).ok && p.alive ==> InstallAll(p, steps).p.alive
    decreases |steps|
  {
    if steps != [] {
      InstallEffect(p, steps[0]);
      if Succeeds(p, steps[0]) {
        InstallAllSplitSide(Install(p, steps[0]), steps[1..]);
      }
    }
  }

  lemma {:induction false} RemoveAllSplitSide(p: Proc, steps: seq<Step>)
    requires AllSplitSide(steps)
    ensures var q := RemoveAll(p, steps); q.w == p.w.(split := q.w.split) && (q.alive ==> p.alive)
    decreases |steps|
  {
    if steps != [] {
      RemoveEffect(p, steps[0]);
      RemoveAllSplitSide(Remove(p, steps[0]), steps[1..]);
    }
  }

  // ---- Clearing the split state -------------------------------------------

  predicate Clearing(s: FamStep) {
    s.DelDnsRule? || s.DelMainRule? || s.DelTableRule? || s.FlushTable? || s.DeleteNft?
  }

  // What a clearing step brings about.
  ghost predicate Cleared(s: FamStep, f: FamState)
    requires Clearing(s)
  {
    match s
    case DelDnsRule => f.dnsRules == []
    case DelMainRule => !f.mainRule
    case DelTableRule => !f.tableRule
    case FlushTable => f.table60 == map[]
    case DeleteNft => f.nft.None?
  }

  lemma ClearingStep(s: FamStep, t: FamStep, fam: Family, f: FamState, up: bool)
    requires Clearing(s) && Clearing(t) && HalfInv(fam, f, up)
    ensures var g := ApplyFam(s, fam, f);
            HalfInv(fam, g, up) && Cleared(s, g) && (Cleared(t, f) ==> Cleared(t, g))
  {
  }

  // The same, seen from the whole split state and either family.
  lemma ClearingSplitStep(s: Step, t: FamStep, fam: Family, sp: SplitState, up: bool)
    requires s.Fam? && Clearing(s.step) && Clearing(t) && SplitInv(sp, up) && sp.file.Some?
    ensures var q := ApplySplit(s, sp);
            && SplitInv(q, up) && q.file == sp.file && q.mark == sp.mark
            && (Cleared(t, Half(sp, fam)) || s == Fam(fam, t) ==> Cleared(t, Half(q, fam)))
  {
    ClearingStep(s.step, t, s.fam, Half(sp, s.fam), up);
  }

  ghost predicate AllClearing(steps: seq<Step>) {
    forall i :: 0 <= i < |steps| ==> steps[i].Fam? && Clearing(steps[i].step)
  }

  // Clearing keeps the invariant wherever it stops, and once it has run to the
  // end every one of its steps is done.
  lemma {:induction false} ClearingAll(p: Proc, steps: seq<Step>, fam: Family, t: FamStep, up: bool)
    requires AllClearing(steps) && Clearing(t)
    requires SplitInv(p.w.split, up) && p.w.split.file.Some?
    ensures var q := RemoveAll(p, steps).w.split;
            && SplitInv(q, up) && q.file == p.w.split.file && q.mark == p.w.split.mark
            && (Cleared(t, Half(p.w.split, fam)) || (Fam(fam, t) in steps && RemoveAll(p, steps).alive)
                ==> Cleared(t, Half(q, fam)))
    decreases |steps|
  {
    if steps != [] {
      var s, q := steps[0], Remove(p, steps[0]);
      RemoveEffect(p, s);
      ClearingSplitStep(s, t, fam, p.w.split, up);
      RemoveAllSplitSide(q, steps[1..]);
      ClearingAll(q, steps[1..], fam, t, up);
      assert Fam(fam, t) in steps ==> Fam(fam, t) == s || Fam(fam, t) in steps[1..];
    }
  }

  // Every kind of artefact of the family has its clearing step among steps.
  ghost predicate ClearsAll(steps: seq<Step>, fam: Family) {
    && Fam(fam, DelDnsRule) in steps && Fam(fam, DelMainRule) in steps && Fam(fam, DelTableRule) in steps
    && Fam(fam, FlushTable) in steps && Fam(fam, DeleteNft) in steps
  }

  lemma {:induction false} ClearedIsBlank(p: Proc, steps: seq<Step>, fam: Family, up: bool)
    requires AllClearing(steps) && ClearsAll(steps, fam)
    requires SplitInv(p.w.split, up) && p.w.split.file.Some?
    ensures var q := RemoveAll(p, steps);
            && SplitInv(q.w.split, up) && q.w == p.w.(split := q.w.split) && (q.alive ==> p.alive)
            && q.w.split.file == p.w.split.file && q.w.split.mark == p.w.split.mark
            && (q.alive ==> Half(q.w.split, fam) == BLANK)
  {
    assert AllSplitSide(steps);
    RemoveAllSplitSide(p, steps);
    ClearingAll(p, steps, fam, DelDnsRule, up);
    ClearingAll(p, steps, fam, DelMainRule, up);
    ClearingAll(p, steps, fam, DelTableRule, up);
    ClearingAll(p, steps, fam, FlushTable, up);
    ClearingAll(p, steps, fam, DeleteNft, up);
  }

  lemma ClearStepsClearAll(fam: Family)
    ensures AllClearing(ClearSteps()) && ClearsAll(ClearSteps(), fam)
  {
    var steps := ClearSteps();
    if fam == V4 {
      assert steps[0] == Fam(fam, DelDnsRule);
      assert steps[2] == Fam(fam, DelMainRule) && steps[3] == Fam(fam, DelTableRule);
      assert steps[6] == Fam(fam, FlushTable) && steps[8] == Fam(fam, DeleteNft);
    } else {
      assert steps[1] == Fam(fam, DelDnsRule);
      assert steps[4] == Fam(fam, DelMainRule) && steps[5] == Fam(fam, DelTableRule);
      assert steps[7] == Fam(fam, FlushTable) && steps[9] == Fam(fam, DeleteNft);
    }
  }

  // What split.Down, and a failed split.Up's rollback, leave.
  ghost predicate SplitGone(sp: SplitState) {
    sp.file.None? && sp.v4 == BLANK && sp.v6 == BLANK
  }

  ghost predicate KeptClearing(p: Proc, q: Proc, prior: Option<bool>, up: bool) {
    && SplitInv(q.w.split, up) && q.w == p.w.(split := q.w.split)
    && (q.alive ==> p.alive && SplitGone(q.w.split))
    && (q.w.split.file == p.w.split.file || q.w.split.file.None?)
    && q.w.split.mark == if q.alive && prior == Some(false) && !p.w.otherWg then false else p.w.split.mark
  }

  lemma {:induction false} ClearWithKeeps(p: Proc, steps: seq<Step>, prior: Option<bool>, up: bool)
    requires AllClearing(steps) && ClearsAll(steps, V4) && ClearsAll(steps, V6)
    requires SplitInv(p.w.split, up) && p.w.split.file.Some?
    ensures KeptClearing(p, ClearWith(p, steps, prior), prior, up)
  {
    ClearedIsBlank(p, steps, V4, up);
    ClearedIsBlank(p, steps, V6, up);
    var q := RemoveAll(p, steps);
    RemoveEffect(q, RemoveState);
    RemoveEffect(Remove(q, RemoveState), WriteMark(false));
  }

  lemma ClearSplitKeeps(p: Proc, prior: Option<bool>, up: bool)
    requires SplitInv(p.w.split, up) && p.w.split.file.Some?
    ensures KeptClearing(p, ClearSplit(p, prior), prior, up)
  {
    ClearStepsClearAll(V4);
    ClearStepsClearAll(V6);
    ClearWithKeeps(p, ClearSteps(), prior, up);
  }

  // ---- Installing the split state -----------------------------------------

  // The steps split.Up takes once the state file is written.
  predicate Upping(s: Step) {
    (s.Fam? && (s.step.AddDnsRule? ==> s.step.to == Resolver(s.fam))) || s.LoadNft? || s.WriteMark?
  }

  lemma ReplaceKeepsShape(fam: Family, t: Table<Target>, metric: nat, to: Target)
    requires Shaped(fam, t) && (metric == BaseMetric(fam) || (metric == LAST_METRIC && to == Unreachable))
    ensures Shaped(fam, t[RouteKey(Anywhere(fam), metric) := to])
  {
  }

  lemma UppingHalf(s: FamStep, fam: Family, f: FamState)
    requires HalfInv(fam, f, true) && (s.AddDnsRule? ==> s.to == Resolver(fam))
    ensures HalfInv(fam, ApplyFam(s, fam, f), true)
  {
    match s
    case LastRoute => ReplaceKeepsShape(fam, f.table60, LAST_METRIC, Unreachable);
    case TunnelRoute => ReplaceKeepsShape(fam, f.table60, BaseMetric(fam), Dev(IFACE));
    case PlainRoute(dev) => ReplaceKeepsShape(fam, f.table60, BaseMetric(fam), Dev(dev));
    case RefuseRoute => ReplaceKeepsShape(fam, f.table60, BaseMetric(fam), Unreachable);
    case _ =>
  }

  lemma UppingStep(s: Step, sp: SplitState)
    requires Upping(s) && SplitInv(sp, true) && sp.file.Some?
    ensures SplitInv(ApplySplit(s, sp), true) && ApplySplit(s, sp).file == sp.file
  {
    if s.Fam? {
      UppingHalf(s.step, s.fam, Half(sp, s.fam));
    }
  }

  ghost predicate AllUpping(steps: seq<Step>) {
    forall i :: 0 <= i < |steps| ==> Upping(steps[i])
  }

  lemma {:induction false} UppingAll(p: Proc, steps: seq<Step>)
    requires AllUpping(steps)
    requires SplitInv(p.w.split, true) && p.w.split.file.Some?
    ensures var q := InstallAll(p, steps).p.w.split; SplitInv(q, true) && q.file == p.w.split.file
    decreases |steps|
  {
    if steps != [] {
      InstallEffect(p, steps[0]);
      if Succeeds(p, steps[0]) {
        UppingStep(steps[0], p.w.split);
        UppingAll(Install(p, steps[0]), steps[1..]);
      }
    }
  }

  lemma {:induction false} UppingConcat(a: seq<Step>, b: seq<Step>)
    requires AllUpping(a) && AllUpping(b)
    ensures AllUpping(a + b)
  {
  }

  lemma RouteStepsAreUpping(c: SplitConfig)
    ensures AllUpping(RuleSteps()) && AllUpping(RouteSteps(c))
  {
    if c.TunnelMode? {
      UppingConcat([Fam(V4, AddDnsRule(Resolver(V4))), Fam(V6, AddDnsRule(Resolver(V6))),
                    Fam(V4, LastRoute), Fam(V6, LastRoute), Fam(V4, TunnelRoute)],
                   if c.hasV6 then [Fam(V6, TunnelRoute)] else []);
    }
  }

  lemma StepsAfterAreUpping(load: Step, c: SplitConfig)
    requires load.LoadNft?
    ensures AllUpping(StepsAfter(load, c))
  {
    RouteStepsAreUpping(c);
    assert AllUpping([load]) && AllUpping([WriteMark(true)]);
    UppingConcat([load], RuleSteps());
    UppingConcat([load] + RuleSteps(), RouteSteps(c));
    UppingConcat([load] + RuleSteps() + RouteSteps(c), [WriteMark(true)]);
  }

  lemma UpStepsAreUpping(c: SplitConfig)
    ensures AllUpping(UpSteps(c))
  {
    StepsAfterAreUpping(LoadStep(c), c);
  }

  lemma {:induction false} RaiseKeeps(p: Proc, steps: seq<Step>, takingOver: bool, prior: Option<bool>)
    requires AllUpping(steps)
    requires SplitInv(p.w.split, true) && p.w.split.file.Some?
    ensures var r := Raise(p, steps, takingOver, prior); var q := r.p;
            && SplitInv(q.w.split, true) && q.w == p.w.(split := q.w.split) && (q.alive ==> p.alive)
            && (!r.ok && !takingOver && q.alive ==> SplitGone(q.w.split))
  {
    UppingAll(p, steps);
    InstallAllSplitSide(p, steps);
    ClearSplitKeeps(InstallAll(p, steps).p, prior, true);
  }

  // No split.Up leaves an artefact without its state file; one that fails and
  // takes over from no split session leaves what was there or nothing at all.
  lemma SplitUpKeeps(p: Proc, c: SplitConfig)
    requires SplitInv(p.w.split, true)
    ensures var r := SplitUp(p, c); var q := r.p;
            && SplitInv(q.w.split, true) && q.w == p.w.(split := q.w.split) && (q.alive ==> p.alive)
            && (!r.ok && q.alive && !(c.TunnelMode? && p.w.split.file.Some? && p.w.split.file.value.split) ==>
                  q.w.split == p.w.split || SplitGone(q.w.split))
  {
    var prior := PriorMark(p.w.split);
    var write := WriteState(SplitFile(c.TunnelMode?, prior));
    var r0 := Try(p, MakeCgroup);
    InstallEffect(p, MakeCgroup);
    if r0.ok {
      var r1 := Try(r0.p, write);
      InstallEffect(r0.p, write);
      if r1.ok {
        UpStepsAreUpping(c);
        RaiseKeeps(r1.p, UpSteps(c), ReplacesSplit(p.w.split, c), prior);
      }
    }
  }

  // ---- Taking a session down ----------------------------------------------

  lemma {:induction false} DnsRestoreEffect(p: Proc, orig: string)
    requires DnsSafe(p.w.full, orig)
    ensures var q := DnsRestore(p); var n := q.w.full;
            && DnsSafe(n, orig) && q.w == p.w.(full := p.w.full.(resolv := n.resolv, backup := n.backup))
            && (p.w.full.resolv == orig ==> n.resolv == orig)
            && (q.alive ==> p.alive && n.resolv == orig && n.backup.None?)
  {
    var q := Remove(p, Full(RestoreResolv));
    RemoveEffect(p, Full(RestoreResolv));
    RemoveEffect(q, Full(RemoveBackup));
  }

  lemma RouteUnsetEffect(p: Proc, e: Option<Endpoint>)
    requires PinsOnDisk(p.w.full, e)
    ensures var q := RouteUnset(p, e); var n := q.w.full;
            && q.w == p.w.(full := p.w.full.(tunnel4 := n.tunnel4, tunnel6 := n.tunnel6, pins := n.pins))
            && n.pins <= p.w.full.pins && (n.tunnel4 ==> p.w.full.tunnel4) && (n.tunnel6 ==> p.w.full.tunnel6)
            && (n.tunnel4 || n.tunnel6 ==> n.pins == p.w.full.pins) && (!p.alive ==> n == p.w.full)
            && (q.alive ==> p.alive && n.pins == {} && !n.tunnel4 && !n.tunnel6)
  {
    var p1 := Remove(p, Full(NoTunnelDefault(V4)));
    var p2 := Remove(p1, Full(NoTunnelDefault(V6)));
    RemoveEffect(p, Full(NoTunnelDefault(V4)));
    RemoveEffect(p1, Full(NoTunnelDefault(V6)));
    if e.Some? {
      RemoveEffect(p2, Full(Unpin(e.value.ip)));
    }
  }

  lemma {:induction false} WgDownKeeps(p: Proc, orig: string)
    requires PinsOnDisk(p.w.full, p.w.saved.endpoint) && DnsSafe(p.w.full, orig)
    requires Layered(p.w.full, p.w.saved.endpoint, orig) && SplitInv(p.w.split, p.w.full.iface.Some?)
    requires p.alive || p.w.full.iface.None? ==> NothingFull(p.w.full, orig)
    ensures var q := Remove(p, WgDown);
            && Inv(q.w, orig) && q.w.saved == p.w.saved && q.w.otherWg == p.w.otherWg
            && q.w.split.file == p.w.split.file && q.w.split.mark == p.w.split.mark
            && q.w.full.backup == p.w.full.backup
            && (q.alive ==> p.alive && q.w.full.iface.None? && NothingFull(q.w.full, orig))
  {
    RemoveEffect(p, WgDown);
    assert DropRoutes(BLANK) == BLANK;
  }

  lemma {:induction false} TeardownKeeps(p: Proc, orig: string)
    requires Inv(p.w, orig)
    ensures var q := Teardown(p);
            && Inv(q.w, orig) && q.w.saved == p.w.saved && q.w.otherWg == p.w.otherWg
            && q.w.split.file == p.w.split.file && q.w.split.mark == p.w.split.mark
            && (q.alive ==> p.alive && q.w.full == FullState(None, false, false, {}, orig, None, false))
  {
    var p1 := Remove(p, Full(KillSwitchDown));
    RemoveEffect(p, Full(KillSwitchDown));
    DnsRestoreEffect(p1, orig);
    var p2 := DnsRestore(p1);
    RouteUnsetEffect(p2, p.w.saved.endpoint);
    WgDownKeeps(RouteUnset(p2, p.w.saved.endpoint), orig);
  }

  lemma SplitDownKeeps(p: Proc, up: bool)
    requires SplitInv(p.w.split, up)
    ensures var q := SplitDown(p);
            && SplitInv(q.w.split, up) && q.w == p.w.(split := q.w.split)
            && (q.alive ==> p.alive && SplitGone(q.w.split))
  {
    if p.w.split.file.Some? {
      ClearSplitKeeps(p, p.w.split.file.value.mark, up);
    }
  }

  // Steps on the full session's state leave the rest alone.
  lemma DnsRestoreFrame(p: Proc)
    ensures var q := DnsRestore(p); q.w == p.w.(full := q.w.full)
  {
    RemoveEffect(p, Full(RestoreResolv));
    RemoveEffect(Remove(p, Full(RestoreResolv)), Full(RemoveBackup));
  }

  lemma RouteUnsetFrame(p: Proc, e: Option<Endpoint>)
    ensures var q := RouteUnset(p, e); q.w == p.w.(full := q.w.full)
  {
    var p1 := Remove(p, Full(NoTunnelDefault(V4)));
    var p2 := Remove(p1, Full(NoTunnelDefault(V6)));
    RemoveEffect(p, Full(NoTunnelDefault(V4)));
    RemoveEffect(p1, Full(NoTunnelDefault(V6)));
    if e.Some? {
      RemoveEffect(p2, Full(Unpin(e.value.ip)));
    }
  }

  function DropAllRoutes(sp: SplitState): SplitState {
    sp.(v4 := DropRoutes(sp.v4), v6 := DropRoutes(sp.v6))
  }

  // A finished doTeardown leaves the split state but for routes by the
  // interface; one that stops before its last step leaves all of it.
  lemma TeardownFrame(p: Proc)
    ensures var q := Teardown(p);
            && q.w.saved == p.w.saved && q.w.otherWg == p.w.otherWg
            && q.w.split == if q.alive then DropAllRoutes(p.w.split) else p.w.split
  {
    var p1 := Remove(p, Full(KillSwitchDown));
    RemoveEffect(p, Full(KillSwitchDown));
    DnsRestoreFrame(p1);
    var p2 := DnsRestore(p1);
    RouteUnsetFrame(p2, p.w.saved.endpoint);
    RemoveEffect(RouteUnset(p2, p.w.saved.endpoint), WgDown);
  }

  lemma TeardownKeepsBlank(p: Proc)
    requires SplitGone(p.w.split)
    ensures SplitGone(Teardown(p).w.split)
  {
    TeardownFrame(p);
    assert DropRoutes(BLANK) == BLANK;
  }

  lemma {:induction false} DisconnectKeeps(p: Proc, orig: string)
    requires Inv(p.w, orig)
    ensures var q := Disconnect(p);
            Inv(q.w, orig) && q.w.saved == p.w.saved && (q.alive ==> p.alive && Clean(q.w, orig))
  {
    SplitDownKeeps(p, p.w.full.iface.Some?);
    var q := SplitDown(p);
    TeardownKeeps(q, orig);
    if q.alive {
      TeardownKeepsBlank(q);
    }
  }

  // ---- Building a session -------------------------------------------------

  lemma {:induction false} RouteSetKeeps(p: Proc, e: Endpoint, orig: string)
    requires FullInv(p.w.full, Some(e), orig) && p.w.full.iface.Some? && NothingFull(p.w.full, orig)
    ensures var r := RouteSet(p, e.ip); var n := r.p.w.full;
            && FullInv(n, Some(e), orig) && r.p.w == p.w.(full := n) && (r.p.alive ==> p.alive)
            && n == p.w.full.(pins := n.pins, tunnel4 := n.tunnel4, tunnel6 := n.tunnel6)
            && (!r.ok && r.p.alive ==> NothingFull(n, orig))
            && (r.ok ==> n.pins == {e.ip} && n.tunnel4 && n.tunnel6)
  {
    var r1 := Try(p, Full(Pin(e.ip)));
    InstallEffect(p, Full(Pin(e.ip)));
    if r1.ok {
      var r2 := Try(r1.p, Full(TunnelDefault(V4)));
      InstallEffect(r1.p, Full(TunnelDefault(V4)));
      if !r2.ok {
        RemoveEffect(r2.p, Full(Unpin(e.ip)));
      } else {
        var r3 := Try(r2.p, Full(TunnelDefault(V6)));
        InstallEffect(r2.p, Full(TunnelDefault(V6)));
        if !r3.ok {
          RemoveEffect(r3.p, Full(NoTunnelDefault(V4)));
          RemoveEffect(Remove(r3.p, Full(NoTunnelDefault(V4))), Full(Unpin(e.ip)));
        }
      }
    }
  }

  lemma {:induction false} DnsSetKeeps(p: Proc, orig: string)
    requires DnsSafe(p.w.full, orig) && p.w.full.resolv == orig
    ensures var r := DnsSet(p); var n := r.p.w.full;
            && DnsSafe(n, orig) && r.p.w == p.w.(full := p.w.full.(resolv := n.resolv, backup := n.backup))
            && (!r.ok ==> n.resolv == orig)
            && (r.ok ==> n.resolv == TUNNEL_RESOLV && n.backup == Some(orig))
            && (r.p.alive ==> p.alive)
  {
    InstallEffect(p, Full(WriteBackup));
    InstallEffect(Install(p, Full(WriteBackup)), Full(WriteResolv));
  }

  lemma {:induction false} FinishFullKeeps(p: Proc, e: Outside, d: Dial, orig: string)
    requires d.cfg.endpoint.Some? && p.w.saved.endpoint == d.cfg.endpoint
    requires Inv(p.w, orig) && p.w.full.iface.Some? && p.w.full.tunnel4 && p.w.full.tunnel6
    requires p.w.full.resolv == orig && !p.w.full.killSwitch
    ensures var r := FinishFull(p, e, d);
            && Inv(r.p.w, orig) && r.p.w.saved == p.w.saved && r.p.w.otherWg == p.w.otherWg
            && (!r.ok && r.p.alive ==> r.p.w.full.iface.None?)
            && (r.ok ==> r.p.w.full == p.w.full.(resolv := TUNNEL_RESOLV, backup := Some(orig), killSwitch := true))
  {
    var ep := d.cfg.endpoint;
    DnsSetKeeps(p, orig);
    var r3 := DnsSet(p);
    if !r3.ok {
      RouteUnsetEffect(r3.p, ep);
      WgDownKeeps(RouteUnset(r3.p, ep), orig);
    } else {
      var r4 := Try(r3.p, Full(KillSwitchUp));
      InstallEffect(r3.p, Full(KillSwitchUp));
      if !r4.ok {
        DnsRestoreEffect(r4.p, orig);
        RouteUnsetEffect(DnsRestore(r4.p), ep);
        WgDownKeeps(RouteUnset(DnsRestore(r4.p), ep), orig);
      } else if e.gateway.Some? {
        SplitUpKeeps(r4.p, PlainMode(e.gateway.value, e.hasGateway6, e.nets));
      }
    }
  }

  // A full session that fails is gone again; one that stops keeps the invariant;
  // one that succeeds has every part in place.
  lemma {:induction false} EstablishFullKeeps(p: Proc, e: Outside, d: Dial, orig: string)
    requires d.cfg.endpoint.Some? && p.w.saved.endpoint == d.cfg.endpoint
    requires Inv(p.w, orig) && p.w.full.iface.None?
    ensures var r := EstablishFull(p, e, d);
            && Inv(r.p.w, orig) && r.p.w.saved == p.w.saved && r.p.w.otherWg == p.w.otherWg
            && (!r.ok && r.p.alive ==> r.p.w.full.iface.None?)
            && (r.ok ==> r.p.w.full == FullSession(d.key, d.cfg.endpoint.value.ip, orig))
  {
    var ep := d.cfg.endpoint;
    var r1 := Try(p, Full(WgUp(d.key)));
    InstallEffect(p, Full(WgUp(d.key)));
    if r1.ok {
      RouteSetKeeps(r1.p, ep.value, orig);
      var r2 := RouteSet(r1.p, ep.value.ip);
      if !r2.ok {
        WgDownKeeps(r2.p, orig);
      } else {
        FinishFullKeeps(r2.p, e, d, orig);
      }
    }
  }

  lemma {:induction false} EstablishSplitKeeps(p: Proc, e: Outside, d: Dial, orig: string)
    requires Inv(p.w, orig) && p.w.full.iface.None?
    ensures var r := EstablishSplit(p, e, d);
            && Inv(r.p.w, orig) && r.p.w.saved == p.w.saved && NothingFull(r.p.w.full, orig)
            && (!r.ok && r.p.alive ==> r.p.w.full.iface.None?)
  {
    var r1 := Try(p, Full(WgUp(d.key)));
    InstallEffect(p, Full(WgUp(d.key)));
    if r1.ok {
      var c := TunnelMode(d.cfg.hasV6, e.nets);
      SplitUpKeeps(r1.p, c);
      WgDownKeeps(SplitUp(r1.p, c).p, orig);
      RemoveEffect(SplitUp(r1.p, c).p, WgDown);
    }
  }

  // Saving another endpoint is safe while nothing is pinned.
  lemma {:induction false} SaveKeeps(p: Proc, cfg: Saved, orig: string)
    requires Inv(p.w, orig) && (p.w.full.pins == {} || cfg.endpoint == p.w.saved.endpoint)
    ensures var q := Install(p, SaveConfig(cfg)); Inv(q.w, orig) && q.w == p.w.(saved := q.w.saved)
  {
    InstallEffect(p, SaveConfig(cfg));
  }

  // The slate a connect builds on: whatever was there is down.
  lemma {:induction false} WayIsClear(p: Proc, split: bool, orig: string)
    requires Inv(p.w, orig)
    ensures var q := ClearTheWay(p, split);
            && Inv(q.w, orig) && q.w.saved == p.w.saved && (q.alive ==> p.alive)
            && (q.alive ==> q.w.full.iface.None? && NothingFull(q.w.full, orig))
  {
    if split {
      TeardownKeeps(p, orig);
    } else {
      DisconnectKeeps(p, orig);
    }
  }

  lemma {:induction false} BuildKeeps(p: Proc, o: Opts, e: Outside, d: Dial, before: bool, orig: string)
    requires Inv(p.w, orig) && d.cfg.endpoint.Some?
    ensures var r := Build(p, o, e, d, before);
            Inv(r.p.w, orig) && (!r.ok && r.p.alive ==> r.p.w.full.iface.None? && NothingFull(r.p.w.full, orig))
  {
    WayIsClear(p, o.split, orig);
    var q := ClearTheWay(p, o.split);
    var s := Try(q, SaveConfig(d.cfg));
    InstallEffect(q, SaveConfig(d.cfg));
    if s.ok {
      SaveKeeps(q, d.cfg, orig);
      if o.split {
        EstablishSplitKeeps(s.p, e, d, orig);
      } else {
        EstablishFullKeeps(s.p, e, d, orig);
      }
      var r := Establish(s.p, o, e, d);
      InstallEffect(r.p, SaveConfig(d.cfg.(split := before)));
      SaveKeeps(r.p, d.cfg.(split := before), orig);
    }
  }

  lemma {:induction false} ConnectKeeps(p: Proc, o: Opts, e: Outside, orig: string)
    requires Inv(p.w, orig)
    ensures Inv(Connect(p, o, e).p.w, orig)
  {
    var f := RefreshRelays(p, o, e);
    SaveKeeps(p, f.cfg, orig);
    var d := ChooseRelays(f.cfg, o, e);
    if d.Some? {
      BuildKeeps(f.p, o, e, d.value, p.w.saved.split, orig);
    }
  }

  // Every command, however its steps fare and wherever it stops.
  lemma {:induction false} CommandKeeps(w: World, c: Command, plan: seq<Fault>, orig: string)
    requires Inv(w, orig)
    ensures Inv(Execute(w, c, plan).p.w, orig)
  {
    var p := Proc(w, plan, true);
    match c
    case DoConnect(relay, via, split, e) => ConnectKeeps(p, ConnectOpts(relay, via, split), e, orig);
    case DoReconnect(ifDead, h, e) => ConnectKeeps(p, ReconnectOpts(w.saved, ifDead), e, orig);
    case DoDisconnect => DisconnectKeeps(p, orig);
  }

  lemma {:induction false} RunKeeps(w: World, turns: seq<Turn>, orig: string)
    requires Inv(w, orig)
    ensures Inv(RunAll(w, turns), orig)
    decreases |turns|
  {
    if turns != [] {
      RunKeeps(w, turns[..|turns| - 1], orig);
      var last := turns[|turns| - 1];
      CommandKeeps(RunAll(w, turns[..|turns| - 1]), last.c, last.plan, orig);
    }
  }
}
