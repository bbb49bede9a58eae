// What holds of whole runs: any commands, any failures, stops anywhere.
module SessionTheorems {
  import opened Net
  import opened PrefixSets
  import opened Tables
  import opened SplitRouting
  import opened Relays
  import opened World
  import opened Session
  import opened SessionInvariant
  import opened SplitStates
  import opened SplitSession
  import opened Rollback

  // ---- Disconnecting ------------------------------------------------------

  // From a machine without mvad, whatever ran in between: a disconnect that
  // completes leaves none of it, and resolv.conf as it was found.
  lemma {:induction false} DisconnectLeavesNothing(w: World, turns: seq<Turn>, plan: seq<Fault>, orig: string)
    requires Clean(w, orig)
    ensures var r := Execute(RunAll(w, turns), DoDisconnect, plan); r.p.alive ==> Clean(r.p.w, orig)
  {
    RunKeeps(w, turns, orig);
    DisconnectKeeps(Proc(RunAll(w, turns), plan, true), orig);
  }

  // In every state of every run: pins only for the endpoint on disk, nothing of
  // a full session without the interface, no split artefact without the state
  // file, and a backup that is the original.
  lemma {:induction false} EveryStateIsRecoverable(w: World, turns: seq<Turn>, orig: string)
    requires Clean(w, orig)
    ensures var v := RunAll(w, turns);
            && (forall ip :: ip in v.full.pins ==> v.saved.endpoint.Some? && v.saved.endpoint.value.ip == ip)
            && (v.full.pins != {} || v.full.tunnel4 || v.full.tunnel6 || v.full.killSwitch || v.full.resolv != orig
                ==> v.full.iface.Some?)
            && (v.split.v4 != BLANK || v.split.v6 != BLANK ==> v.split.file.Some?)
            && (v.full.backup.Some? ==> v.full.backup.value == orig)
            && (v.full.resolv != orig ==> v.full.backup == Some(orig))
            && Layered(v.full, v.saved.endpoint, orig)
  {
    RunKeeps(w, turns, orig);
  }

  // A disconnect that is never interrupted does complete.
  lemma {:induction false} RemovalsComplete(p: Proc, steps: seq<Step>)
    requires p.alive && NoStop(p.plan)
    ensures RemoveAll(p, steps).alive && NoStop(RemoveAll(p, steps).plan)
    decreases |steps|
  {
    if steps != [] {
      RemovalsComplete(Remove(p, steps[0]), steps[1..]);
    }
  }

  lemma {:induction false} ClearingCompletes(p: Proc, steps: seq<Step>, prior: Option<bool>)
    requires p.alive && NoStop(p.plan)
    ensures ClearWith(p, steps, prior).alive && NoStop(ClearWith(p, steps, prior).plan)
  {
    RemovalsComplete(p, steps);
  }

  lemma TeardownCompletes(p: Proc)
    requires p.alive && NoStop(p.plan)
    ensures Teardown(p).alive
  {
    var q := Remove(p, Full(KillSwitchDown));
    var q1 := DnsRestore(q);
    assert q1.alive && NoStop(q1.plan);
    var q2 := RouteUnset(q1, p.w.saved.endpoint);
    assert q2.alive && NoStop(q2.plan);
  }

  lemma {:induction false} UninterruptedDisconnectCompletes(w: World, plan: seq<Fault>)
    requires NoStop(plan)
    ensures Execute(w, DoDisconnect, plan).p.alive
  {
    var p := Proc(w, plan, true);
    if w.split.file.Some? {
      ClearingCompletes(p, ClearSteps(), w.split.file.value.mark);
    }
    TeardownCompletes(SplitDown(p));
  }

  // A deliberate disconnect stays down: the failover command finds nothing dead.
  lemma {:induction false} IfDeadLeavesDisconnectAlone(w: World, turns: seq<Turn>, plan: seq<Fault>,
                                                       h: Health, e: Outside, next: seq<Fault>, orig: string)
    requires Clean(w, orig)
    ensures var r := Execute(RunAll(w, turns), DoDisconnect, plan);
            r.p.alive ==> Execute(r.p.w, DoReconnect(true, h, e), next) == Ran(Proc(r.p.w, next, true), true)
  {
    DisconnectLeavesNothing(w, turns, plan, orig);
  }

  // ---- Full connects ------------------------------------------------------

  // The relay list a connect chooses from: a new one whenever it is due and
  // arrives, and otherwise the one on disk.
  function ListFor(s: Saved, due: bool, e: Outside): seq<Relay> {
    if (due || e.stale || s.relays == []) && e.fetched.Some? then e.fetched.value else s.relays
  }

  lemma RefreshedList(p: Proc, o: Opts, e: Outside)
    ensures RefreshRelays(p, o, e).cfg == p.w.saved.(relays := ListFor(p.w.saved, o.refresh, e))
  {
  }

  // A connect that returns an error either never touched the session that was
  // there, or took it down and left nothing of its own: no part of a full
  // session, and of the split state what was there before or none of it, unless
  // it was taking over from a split session, which it then leaves holding.
  lemma {:induction false} FailedConnectLeavesNothing(p: Proc, o: Opts, e: Outside, orig: string)
    requires Inv(p.w, orig)
    ensures var r := Connect(p, o, e); var v := r.p.w;
            !r.ok && r.p.alive ==>
              || (v.full == p.w.full && v.split == p.w.split && v.saved.(relays := p.w.saved.relays) == p.w.saved)
              || (v.full.iface.None? && NothingFull(v.full, orig) && Undone(p.w.split, v.split, o.split))
  {
    var f := RefreshRelays(p, o, e);
    SaveKeeps(p, f.cfg, orig);
    InstallEffect(p, SaveConfig(f.cfg));
    var d := ChooseRelays(f.cfg, o, e);
    if d.Some? {
      FailedBuildLeavesNothing(f.p, o, e, d.value, p.w.saved.split, orig);
    }
  }

  lemma {:induction false} FailedBuildLeavesNothing(p: Proc, o: Opts, e: Outside, d: Dial, before: bool, orig: string)
    requires Inv(p.w, orig) && d.cfg.endpoint.Some?
    ensures var r := Build(p, o, e, d, before); var v := r.p.w;
            !r.ok && r.p.alive ==>
              v.full.iface.None? && NothingFull(v.full, orig) && Undone(p.w.split, v.split, o.split)
  {
    BuildKeeps(p, o, e, d, before, orig);
    BuildUndoes(p, o, e, d, before, orig);
  }

  // ---- Split connects -----------------------------------------------------

  // A split session as a finished connect leaves it: nothing of a full session,
  // the family raised, and holding, by its own nets exactly when it confines.
  ghost predicate SplitStands(was: SplitState, v: World, nets: seq<Prefix>, hasV6: bool, allowed: set<seq<Prefix>>,
                              fam: Family, orig: string) {
    && v.full.iface.Some? && NothingFull(v.full, orig)
    && Raised(Half(was, fam), Half(v.split, fam), TunnelConfigOf(fam, nets), hasV6)
    && v.split.mark && Holding(v.split, None)
    && (Holding(v.split, Some(allowed)) <==> hasV6 || NoPlainLeftover(V6, was.v6))
  }

  // The routes that went with the interface change none of that.
  lemma {:induction false} StandsFromBefore(was: SplitState, v: World, nets: seq<Prefix>, hasV6: bool,
                                            allowed: set<seq<Prefix>>, fam: Family, orig: string)
    requires SplitStands(DropAllRoutes(was), v, nets, hasV6, allowed, fam, orig)
    ensures SplitStands(was, v, nets, hasV6, allowed, fam, orig)
  {
    LeftoverOutlivesInterface(fam, Half(was, fam));
    LeftoverOutlivesInterface(V6, was.v6);
  }

  lemma {:induction false} EstablishStands(p: Proc, e: Outside, d: Dial, allowed: set<seq<Prefix>>,
                                           fam: Family, orig: string)
    requires Inv(p.w, orig) && p.w.full.iface.None? && e.nets in allowed
    ensures var r := EstablishSplit(p, e, d);
            r.ok ==> r.p.w.full.iface == Some(d.key)
                     && SplitStands(p.w.split, r.p.w, e.nets, d.cfg.hasV6, allowed, fam, orig)
  {
    var r, c := Install(p, Full(WgUp(d.key))), TunnelMode(d.cfg.hasV6, e.nets);
    InstallEffect(p, Full(WgUp(d.key)));
    if EstablishSplit(p, e, d).ok {
      SplitUpKeeps(r, c);
      SplitUpEstablishes(r, e.nets, d.cfg.hasV6, fam);
      FinishedSplitUpHolds(r, e.nets, d.cfg.hasV6, allowed);
    }
  }

  lemma {:induction false} BuildEstablishes(p: Proc, o: Opts, e: Outside, d: Dial, before: bool,
                                            allowed: set<seq<Prefix>>, fam: Family, orig: string)
    requires Inv(p.w, orig) && o.split && d.cfg.endpoint.Some? && e.nets in allowed
    ensures var r := Build(p, o, e, d, before);
            r.ok ==> r.p.w.full.iface == Some(d.key)
                     && SplitStands(p.w.split, r.p.w, e.nets, d.cfg.hasV6, allowed, fam, orig)
  {
    TeardownKeeps(p, orig);
    TeardownFrame(p);
    var q := Teardown(p);
    InstallEffect(q, SaveConfig(d.cfg));
    if Succeeds(q, SaveConfig(d.cfg)) {
      SaveKeeps(q, d.cfg, orig);
      var s := Install(q, SaveConfig(d.cfg));
      EstablishStands(s, e, d, allowed, fam, orig);
      if EstablishSplit(s, e, d).ok {
        StandsFromBefore(p.w.split, EstablishSplit(s, e, d).p.w, e.nets, d.cfg.hasV6, allowed, fam, orig);
      }
    }
  }

  // End to end: a connect --split that succeeds leaves the split set confined,
  // in either family, exactly when the device has an address of that family or
  // no plain default of it was lying in table 60; and it then holds on redials.
  lemma {:induction false} SplitConnectEstablishes(w: World, relay: string, via: string, e: Outside, plan: seq<Fault>,
                                                   allowed: set<seq<Prefix>>, fam: Family, orig: string)
    requires Inv(w, orig) && e.nets in allowed
    ensures var r := Execute(w, DoConnect(relay, via, true, e), plan);
            r.ok ==> r.p.w.saved.split && SplitStands(w.split, r.p.w, e.nets, w.saved.hasV6, allowed, fam, orig)
  {
    var p, o := Proc(w, plan, true), ConnectOpts(relay, via, true);
    ConnectEstablishes(p, o, e, allowed, fam, orig);
    ConnectSavesMode(p, o, e, orig);
  }

  lemma {:induction false} ConnectEstablishes(p: Proc, o: Opts, e: Outside, allowed: set<seq<Prefix>>,
                                              fam: Family, orig: string)
    requires Inv(p.w, orig) && e.nets in allowed && o.split && !o.retry
    ensures var r := Connect(p, o, e);
            r.ok ==> SplitStands(p.w.split, r.p.w, e.nets, p.w.saved.hasV6, allowed, fam, orig)
  {
    var f := RefreshRelays(p, o, e);
    SaveKeeps(p, f.cfg, orig);
    var d := ChooseRelays(f.cfg, o, e);
    assert f.p.w.split == p.w.split && f.cfg.hasV6 == p.w.saved.hasV6;
    if Connect(p, o, e).ok {
      assert Connect(p, o, e) == Build(f.p, o, e, d.value, p.w.saved.split);
      BuildEstablishes(f.p, o, e, d.value, p.w.saved.split, allowed, fam, orig);
    }
  }

  lemma {:induction false} ConnectSavesMode(p: Proc, o: Opts, e: Outside, orig: string)
    requires Inv(p.w, orig) && !o.retry
    ensures Connect(p, o, e).ok ==> Connect(p, o, e).p.w.saved.split == o.split
  {
    var f := RefreshRelays(p, o, e);
    SaveKeeps(p, f.cfg, orig);
    var d := ChooseRelays(f.cfg, o, e);
    if d.Some? {
      BuildSaves(f.p, o, e, d.value, p.w.saved.split, orig);
    }
  }

  // Packet by packet, right after the connect: confined by its own nets, and left
  // to the tunnel or refused where nothing else claims it.
  lemma {:induction false} SplitConnectConfines(w: World, relay: string, via: string, e: Outside, plan: seq<Fault>,
                                                m: Machine, p: Packet, orig: string)
    requires Inv(w, orig) && (p.dst.fam == V4 || w.saved.hasV6 || NoPlainLeftover(V6, w.split.v6))
    ensures var r := Execute(w, DoConnect(relay, via, true, e), plan);
            var fam := p.dst.fam;
            r.ok ==> KeptInBy(TunnelConfigOf(fam, e.nets), m, Half(r.p.w.split, fam), p)
                     && (fam == V4 || w.saved.hasV6 ==> TunnelWins(TunnelConfigOf(fam, e.nets), Half(r.p.w.split, fam)))
  {
    var fam := p.dst.fam;
    SplitConnectEstablishes(w, relay, via, e, plan, {e.nets}, fam, orig);
    var r := Execute(w, DoConnect(relay, via, true, e), plan);
    if r.ok {
      EstablishedKeepsIn(TunnelConfigOf(fam, e.nets), m, Half(r.p.w.split, fam), p);
    }
  }

  // The lists the commands of a run were given.
  function TurnNets(turns: seq<Turn>): set<seq<Prefix>> {
    set t | t in turns :: NetsOf(t.c)
  }

  // From the connect on, through every step of every redial, failed or stopped:
  // no marked packet is routed by the main default, and unless a plain default
  // was left behind each is confined by the nets of one of these sessions.
  lemma {:induction false} SplitSetStaysIn(w: World, relay: string, via: string, e: Outside, plan: seq<Fault>,
                                           turns: seq<Turn>, m: Machine, p: Packet, orig: string)
    requires Inv(w, orig) && StayWithin(turns, None)
    ensures var r := Execute(w, DoConnect(relay, via, true, e), plan);
            var f := Half(RunAll(r.p.w, turns).split, p.dst.fam);
            r.ok ==>
              && (forall d :: Route(m, f, true, p.dst) != Via(d, FromMainDefault))
              && (w.saved.hasV6 || NoPlainLeftover(V6, w.split.v6) ==>
                    KeptIn({e.nets} + TurnNets(turns), p.dst.fam, m, f, p))
  {
    var allowed := {e.nets} + TurnNets(turns);
    SplitConnectEstablishes(w, relay, via, e, plan, allowed, V6, orig);
    var r := Execute(w, DoConnect(relay, via, true, e), plan);
    if r.ok {
      RedialsNeverLeakToDefault(r.p.w, turns, p.dst.fam, m, p.dst);
      if w.saved.hasV6 || NoPlainLeftover(V6, w.split.v6) {
        forall i | 0 <= i < |turns| ensures NetsOf(turns[i].c) in allowed {
          assert turns[i] in turns;
        }
        RedialsStayConfined(r.p.w, turns, allowed, p.dst.fam, m, p);
      }
    }
  }

  // ---- What success means -------------------------------------------------

  lemma {:induction false} SplitUpRan(p: Proc, c: SplitConfig)
    ensures SplitUp(p, c).ok ==> SplitUp(p, c).p.alive
  {
    var write := WriteState(SplitFile(c.TunnelMode?, PriorMark(p.w.split)));
    InstallEffect(p, MakeCgroup);
    InstallEffect(Install(p, MakeCgroup), write);
    UpStepsAreUpping(c);
    InstallAllSplitSide(Install(Install(p, MakeCgroup), write), UpSteps(c));
  }

  lemma EstablishRan(p: Proc, o: Opts, e: Outside, d: Dial)
    requires d.cfg.endpoint.Some?
    ensures Establish(p, o, e, d).ok ==> Establish(p, o, e, d).p.alive
  {
    if o.split {
      SplitUpRan(Install(p, Full(WgUp(d.key))), TunnelMode(d.cfg.hasV6, e.nets));
    }
  }

  // A command that returns nil ran to its end.
  lemma {:induction false} SuccessRanToItsEnd(w: World, c: Command, plan: seq<Fault>)
    ensures Execute(w, c, plan).ok ==> Execute(w, c, plan).p.alive
  {
    var p := Proc(w, plan, true);
    if Connects(w, c) {
      ConnectRan(p, OptsOf(w, c), c.e);
    }
  }

  lemma ConnectRan(p: Proc, o: Opts, e: Outside)
    ensures Connect(p, o, e).ok ==> Connect(p, o, e).p.alive
  {
    var f := RefreshRelays(p, o, e);
    var d := ChooseRelays(f.cfg, o, e);
    if d.Some? {
      EstablishRan(Install(ClearTheWay(f.p, o.split), SaveConfig(d.value.cfg)), o, e, d.value);
    }
  }

  // ---- The saved mode -----------------------------------------------------

  lemma {:induction false} EstablishSaves(p: Proc, o: Opts, e: Outside, d: Dial, orig: string)
    requires d.cfg.endpoint.Some? && p.w.saved.endpoint == d.cfg.endpoint
    requires Inv(p.w, orig) && p.w.full.iface.None?
    ensures Establish(p, o, e, d).p.w.saved == p.w.saved
  {
    if o.split {
      EstablishSplitKeeps(p, e, d, orig);
    } else {
      EstablishFullKeeps(p, e, d, orig);
    }
  }

  // The new mode is on disk, the session did not come about, and the deferred
  // save that puts the old mode back did not go through: it failed, or the
  // process had stopped.
  predicate ModeLost(p: Proc, o: Opts, e: Outside, d: Dial, before: bool)
    requires d.cfg.endpoint.Some?
  {
    var s := Try(ClearTheWay(p, o.split), SaveConfig(d.cfg));
    s.ok && d.cfg.split != before &&
    var r := Establish(s.p, o, e, d);
    !r.ok && !Succeeds(r.p, SaveConfig(d.cfg.(split := before)))
  }

  lemma {:induction false} BuildMode(p: Proc, o: Opts, e: Outside, d: Dial, orig: string)
    requires Inv(p.w, orig) && d.cfg.endpoint.Some? && d.cfg.split == o.split
    ensures var r := Build(p, o, e, d, p.w.saved.split);
            r.p.w.saved.split == (if r.ok then o.split else p.w.saved.split)
            <==> !ModeLost(p, o, e, d, p.w.saved.split)
  {
    WayIsClear(p, o.split, orig);
    var q := ClearTheWay(p, o.split);
    var s := Try(q, SaveConfig(d.cfg));
    InstallEffect(q, SaveConfig(d.cfg));
    if s.ok {
      SaveKeeps(q, d.cfg, orig);
      EstablishSaves(s.p, o, e, d, orig);
      InstallEffect(Establish(s.p, o, e, d).p, SaveConfig(d.cfg.(split := p.w.saved.split)));
    }
  }

  // The whole connect: did it lose the mode of the session before it?
  predicate ConnectLosesMode(p: Proc, o: Opts, e: Outside) {
    var f := RefreshRelays(p, o, e);
    var d := ChooseRelays(f.cfg, o, e);
    && e.ready && !(o.split && e.lockdown) && d.Some? && !SameSession(f.p.w, f.cfg, o, d.value)
    && d.value.cfg.endpoint.Some? && ModeLost(f.p, o, e, d.value, p.w.saved.split)
  }

  // A connect saves its mode when it succeeds and the mode before it when it
  // fails or stops, exactly unless the save that does the latter was due and did
  // not happen.
  lemma {:induction false} ConnectMode(p: Proc, o: Opts, e: Outside, orig: string)
    requires Inv(p.w, orig) && (o.retry ==> o.split == p.w.saved.split)
    ensures var r := Connect(p, o, e);
            r.p.w.saved.split == (if r.ok then o.split else p.w.saved.split) <==> !ConnectLosesMode(p, o, e)
  {
    var f := RefreshRelays(p, o, e);
    SaveKeeps(p, f.cfg, orig);
    InstallEffect(p, SaveConfig(f.cfg));
    assert f.p.w.saved.split == p.w.saved.split;
    var d := ChooseRelays(f.cfg, o, e);
    if e.ready && !(o.split && e.lockdown) && d.Some? && !SameSession(f.p.w, f.cfg, o, d.value) {
      BuildMode(f.p, o, e, d.value, orig);
    }
  }

  // It does happen: the interface cannot be configured, and then neither can the
  // file be written; the failed connect --split has become the saved mode.
  lemma {:induction false} FailedSaveFlipsMode(w: World, relay: string, via: string, e: Outside, orig: string)
    requires Clean(w, orig) && w.saved.endpoint.None? && !w.saved.split && w.saved.relays != []
    requires e.ready && !e.lockdown && !e.stale && ChooseRelays(w.saved, ConnectOpts(relay, via, true), e).Some?
    ensures var r := Execute(w, DoConnect(relay, via, true, e), [Go, Go, Go, Go, Go, Fail, Fail]);
            !r.ok && r.p.alive && r.p.w.saved.split
  {
    var q, o := Proc(w, [Go, Go, Go, Go] + [Go, Fail, Fail], true), ConnectOpts(relay, via, true);
    CleanTeardown(w, [Go, Fail, Fail]);
    BothSavesCount(q, o, e, ChooseRelays(w.saved, o, e).value);
    assert q.plan == [Go, Go, Go, Go, Go, Fail, Fail];
  }

  lemma BothSavesCount(q: Proc, o: Opts, e: Outside, d: Dial)
    requires o.split && d.cfg.split && d.cfg.endpoint.Some? && Teardown(q).alive && Teardown(q).plan == [Go, Fail, Fail]
    ensures var r := Build(q, o, e, d, false); !r.ok && r.p.alive && r.p.w.saved == d.cfg
  {
    var s := Install(Teardown(q), SaveConfig(d.cfg));
    assert s.plan == [Fail, Fail];
    var u := Install(s, Full(WgUp(d.key)));
    assert u.plan == [Fail] && u.alive;
  }

  // And without any failure: the process stops right after the first save.
  lemma {:induction false} StopFlipsMode(w: World, relay: string, via: string, e: Outside, orig: string)
    requires Clean(w, orig) && w.saved.endpoint.None? && !w.saved.split && w.saved.relays != []
    requires e.ready && !e.lockdown && !e.stale && ChooseRelays(w.saved, ConnectOpts(relay, via, true), e).Some?
    ensures var r := Execute(w, DoConnect(relay, via, true, e), [Go, Go, Go, Go, Go, Stop]);
            !r.ok && !r.p.alive && r.p.w.saved.split && r.p.w.full.iface.None?
  {
    var q, o := Proc(w, [Go, Go, Go, Go] + [Go, Stop], true), ConnectOpts(relay, via, true);
    CleanTeardown(w, [Go, Stop]);
    StopKeepsFirstSave(q, o, e, ChooseRelays(w.saved, o, e).value, orig);
    assert q.plan == [Go, Go, Go, Go, Go, Stop];
  }

  lemma {:induction false} StopKeepsFirstSave(q: Proc, o: Opts, e: Outside, d: Dial, orig: string)
    requires o.split && d.cfg.split && d.cfg.endpoint.Some? && Teardown(q).alive && Teardown(q).plan == [Go, Stop]
    requires Inv(q.w, orig)
    ensures var r := Build(q, o, e, d, false);
            !r.ok && !r.p.alive && r.p.w.saved == d.cfg && r.p.w.full.iface.None?
  {
    TeardownKeeps(q, orig);
    var s := Install(Teardown(q), SaveConfig(d.cfg));
    assert s.plan == [Stop];
    assert !Install(s, Full(WgUp(d.key))).alive;
  }

  lemma {:induction false} CleanTeardown(w: World, rest: seq<Fault>)
    requires w.full.backup.None? && w.saved.endpoint.None?
    ensures var q := Teardown(Proc(w, [Go, Go, Go, Go] + rest, true)); q.alive && q.plan == rest
  {
    var p := Proc(w, [Go, Go, Go, Go] + rest, true);
    var p1 := Remove(p, Full(KillSwitchDown));
    assert p1.plan == [Go, Go, Go] + rest;
    var p2 := Remove(p1, Full(NoTunnelDefault(V4)));
    assert p2.plan == [Go, Go] + rest;
    var p3 := Remove(p2, Full(NoTunnelDefault(V6)));
    assert p3.plan == [Go] + rest;
    assert Remove(p3, WgDown).plan == rest;
  }

  function OptsOf(w: World, c: Command): Opts
    requires !c.DoDisconnect?
  {
    if c.DoConnect? then ConnectOpts(c.relay, c.via, c.split) else ReconnectOpts(w.saved, c.ifDead)
  }

  // Does the command get as far as a connect?
  predicate Connects(w: World, c: Command) {
    match c
    case DoConnect(_, _, _, _) => true
    case DoReconnect(ifDead, h, e) =>
      !(ifDead && !TunnelDead(w, h)) && e.ready && ReconnectOpts(w.saved, ifDead).relay != ""
    case DoDisconnect => false
  }

  // A turn that does not lose the mode.
  predicate Steady(w: World, t: Turn) {
    Connects(w, t.c) ==> !ConnectLosesMode(Proc(w, t.plan, true), OptsOf(w, t.c), t.c.e)
  }

  // The mode one turn should leave: a connect's own once it returns nil, and
  // otherwise the one before.
  function ModeAfter(w: World, t: Turn): bool {
    if t.c.DoConnect? && Execute(w, t.c, t.plan).ok then t.c.split else w.saved.split
  }

  // It leaves that mode exactly when it is steady, wherever it fails or stops.
  lemma {:induction false} TurnModeIff(w: World, t: Turn, orig: string)
    requires Inv(w, orig)
    ensures Execute(w, t.c, t.plan).p.w.saved.split == ModeAfter(w, t) <==> Steady(w, t)
  {
    var p := Proc(w, t.plan, true);
    match t.c
    case DoConnect(relay, via, split, e) => ConnectMode(p, ConnectOpts(relay, via, split), e, orig);
    case DoReconnect(ifDead, h, e) =>
      if Connects(w, t.c) {
        ConnectMode(p, ReconnectOpts(w.saved, ifDead), e, orig);
      }
    case DoDisconnect => DisconnectKeeps(p, orig);
  }

  predicate AllSteady(w: World, turns: seq<Turn>)
    decreases |turns|
  {
    turns == [] ||
    (AllSteady(w, turns[..|turns| - 1]) && Steady(RunAll(w, turns[..|turns| - 1]), turns[|turns| - 1]))
  }

  // The mode of the last connect that returned without an error.
  function LastMode(w: World, turns: seq<Turn>): bool
    decreases |turns|
  {
    if turns == [] then w.saved.split
    else
      var before, last := turns[..|turns| - 1], turns[|turns| - 1];
      if last.c.DoConnect? && Execute(RunAll(w, before), last.c, last.plan).ok then last.c.split
      else LastMode(w, before)
  }

  // Over any run of steady turns a reconnect replays that mode and no other.
  lemma {:induction false} SavedModeIsLastSuccess(w: World, turns: seq<Turn>, orig: string)
    requires Inv(w, orig) && AllSteady(w, turns)
    ensures RunAll(w, turns).saved.split == LastMode(w, turns)
    decreases |turns|
  {
    if turns != [] {
      var before, last := turns[..|turns| - 1], turns[|turns| - 1];
      SavedModeIsLastSuccess(w, before, orig);
      RunKeeps(w, before, orig);
      TurnModeIff(RunAll(w, before), last, orig);
    }
  }

  // ---- The scope of reconnects --------------------------------------------

  // What a build can leave in the saved session, wherever it stops.
  lemma {:induction false} BuildSaves(p: Proc, o: Opts, e: Outside, d: Dial, before: bool, orig: string)
    requires Inv(p.w, orig) && d.cfg.endpoint.Some?
    ensures Build(p, o, e, d, before).p.w.saved in {p.w.saved, d.cfg, d.cfg.(split := before)}
    ensures Build(p, o, e, d, before).ok ==> Build(p, o, e, d, before).p.w.saved == d.cfg
  {
    WayIsClear(p, o.split, orig);
    var q := ClearTheWay(p, o.split);
    InstallEffect(q, SaveConfig(d.cfg));
    var s := Try(q, SaveConfig(d.cfg));
    if s.ok {
      SaveKeeps(q, d.cfg, orig);
      EstablishSaves(s.p, o, e, d, orig);
      InstallEffect(Establish(s.p, o, e, d).p, SaveConfig(d.cfg.(split := before)));
    }
  }

  lemma {:induction false} ConnectSaves(p: Proc, o: Opts, e: Outside, orig: string)
    requires Inv(p.w, orig)
    ensures var v := Connect(p, o, e).p.w.saved;
            || (v.relay == p.w.saved.relay && v.query == p.w.saved.query)
            || (v.query == o.relay && InScope(o.relay, v.relay))
  {
    var f := RefreshRelays(p, o, e);
    SaveKeeps(p, f.cfg, orig);
    InstallEffect(p, SaveConfig(f.cfg));
    var d := ChooseRelays(f.cfg, o, e);
    if d.Some? {
      PickStaysInScope(f.cfg.relays, o.relay, o.avoid, e.dieExit);
      BuildSaves(f.p, o, e, d.value, p.w.saved.split, orig);
    }
  }

  // The saved exit lies in the saved query's scope.
  predicate Scoped(s: Saved) {
    s.query != "" ==> InScope(s.query, s.relay)
  }

  // In every run of any commands, so that whatever a reconnect replays is a
  // query its own last exit answers.
  lemma {:induction false} SavedExitIsInScope(w: World, turns: seq<Turn>, orig: string)
    requires Inv(w, orig) && Scoped(w.saved)
    ensures Scoped(RunAll(w, turns).saved)
    decreases |turns|
  {
    if turns != [] {
      var before, last := turns[..|turns| - 1], turns[|turns| - 1];
      SavedExitIsInScope(w, before, orig);
      RunKeeps(w, before, orig);
      var v := RunAll(w, before);
      var p := Proc(v, last.plan, true);
      match last.c
      case DoConnect(relay, via, split, e) => ConnectSaves(p, ConnectOpts(relay, via, split), e, orig);
      case DoReconnect(ifDead, h, e) => ConnectSaves(p, ReconnectOpts(v.saved, ifDead), e, orig);
      case DoDisconnect => DisconnectKeeps(p, orig);
    }
  }

  predicate Follows(s: Saved, query: string) {
    s.query == query && InScope(query, s.relay)
  }

  // However often and with whatever relay lists a session is redialed, its exit
  // stays within the query it was started with.
  lemma {:induction false} RedialsStayInScope(w: World, turns: seq<Turn>, query: string, orig: string)
    requires Inv(w, orig) && query != "" && Follows(w.saved, query)
    requires forall i :: 0 <= i < |turns| ==> !turns[i].c.DoConnect?
    ensures Follows(RunAll(w, turns).saved, query)
    decreases |turns|
  {
    if turns != [] {
      var before, last := turns[..|turns| - 1], turns[|turns| - 1];
      RedialsStayInScope(w, before, query, orig);
      RunKeeps(w, before, orig);
      var v := RunAll(w, before);
      var p := Proc(v, last.plan, true);
      match last.c
      case DoReconnect(ifDead, h, e) => ConnectSaves(p, ReconnectOpts(v.saved, ifDead), e, orig);
      case DoDisconnect => DisconnectKeeps(p, orig);
    }
  }
}
