// The src_valid_mark sysctl: raised by split.Up, recorded in the state file, and
// put back by split.Down, which removes the file first.
module SrcValidMark {
  import opened Net
  import opened PrefixSets
  import opened Tables
  import opened SplitRouting
  import opened Relays
  import opened World
  import opened Session
  import opened SessionInvariant
  import opened SplitStates
  import opened SplitSession
  import opened SessionTheorems
  import opened Unfaulted

  // ---- What is kept -------------------------------------------------------

  // m0 is the value before mvad first set it: kept in the state file while
  // there is one, and in force whenever there is none.
  ghost predicate MarkInv(sp: SplitState, m0: bool) {
    && (sp.file.None? ==> sp.mark == m0)
    && (sp.file.Some? ==> sp.file.value.mark == Some(m0))
    && (m0 ==> sp.mark)
  }

  // The record is gone and the sysctl still raised, though it was 0 at first.
  predicate MarkLost(sp: SplitState, m0: bool) {
    sp.file.None? && sp.mark && !m0
  }

  // From p to q: the first value is kept, or it is lost, in a process that
  // stopped there or beside another WireGuard interface, and then the machine is
  // as if it had been 1 all along.
  ghost predicate MarkKept(p: Proc, q: Proc, m0: bool) {
    && q.w.otherWg == p.w.otherWg
    && (|| MarkInv(q.w.split, m0)
        || (MarkInv(q.w.split, true) && (p.w.otherWg || (!q.alive && MarkLost(q.w.split, m0)))))
  }

  lemma ClearMark(p: Proc, m0: bool, up: bool)
    requires SplitInv(p.w.split, up) && p.w.split.file.Some? && MarkInv(p.w.split, m0)
    ensures MarkKept(p, ClearSplit(p, Some(m0)), m0)
  {
    ClearSplitKeeps(p, Some(m0), up);
  }

  lemma {:induction false} RaisesMark(p: Proc, steps: seq<Step>)
    requires forall i :: 0 <= i < |steps| ==> Upping(steps[i]) && (steps[i].WriteMark? ==> steps[i].value)
    ensures var q := InstallAll(p, steps).p.w.split; q.file == p.w.split.file && (p.w.split.mark ==> q.mark)
    decreases |steps|
  {
    if steps != [] {
      InstallEffect(p, steps[0]);
      if Succeeds(p, steps[0]) {
        RaisesMark(Install(p, steps[0]), steps[1..]);
      }
    }
  }

  lemma {:induction false} RaiseMark(p: Proc, steps: seq<Step>, takingOver: bool, m0: bool)
    requires forall i :: 0 <= i < |steps| ==> Upping(steps[i]) && (steps[i].WriteMark? ==> steps[i].value)
    requires SplitInv(p.w.split, true) && p.w.split.file.Some? && MarkInv(p.w.split, m0)
    ensures MarkKept(p, Raise(p, steps, takingOver, Some(m0)).p, m0)
  {
    assert AllUpping(steps);
    RaisesMark(p, steps);
    UppingAll(p, steps);
    InstallAllSplitSide(p, steps);
    ClearMark(InstallAll(p, steps).p, m0, true);
  }

  lemma StepsAfterSetMark(load: Step, c: SplitConfig)
    requires load.LoadNft?
    ensures var steps := StepsAfter(load, c);
            forall i :: 0 <= i < |steps| && steps[i].WriteMark? ==> steps[i].value
  {
  }

  lemma SplitUpMark(p: Proc, c: SplitConfig, m0: bool)
    requires SplitInv(p.w.split, true) && MarkInv(p.w.split, m0)
    ensures MarkKept(p, SplitUp(p, c).p, m0)
  {
    var prior := PriorMark(p.w.split);
    var write := WriteState(SplitFile(c.TunnelMode?, prior));
    InstallEffect(p, MakeCgroup);
    var r0 := Install(p, MakeCgroup);
    InstallEffect(r0, write);
    if Succeeds(p, MakeCgroup) && Succeeds(r0, write) {
      StepsAfterAreUpping(LoadStep(c), c);
      StepsAfterSetMark(LoadStep(c), c);
      RaiseMark(Install(r0, write), UpSteps(c), ReplacesSplit(p.w.split, c), m0);
    }
  }

  lemma TeardownMark(p: Proc)
    ensures var q := Teardown(p);
            && q.w.otherWg == p.w.otherWg && (q.alive ==> p.alive)
            && q.w.split.file == p.w.split.file && q.w.split.mark == p.w.split.mark
  {
    TeardownFrame(p);
    TeardownAlive(p);
  }

  lemma TeardownAlive(p: Proc)
    ensures Teardown(p).alive ==> p.alive
  {
    var q := DnsRestore(Remove(p, Full(KillSwitchDown)));
    assert q.alive ==> p.alive;
    assert RouteUnset(q, p.w.saved.endpoint).alive ==> q.alive;
  }

  lemma {:induction false} DisconnectMark(p: Proc, m0: bool, orig: string)
    requires Inv(p.w, orig) && MarkInv(p.w.split, m0)
    ensures MarkKept(p, Disconnect(p), m0)
  {
    if p.w.split.file.Some? {
      ClearMark(p, m0, p.w.full.iface.Some?);
    }
    TeardownMark(SplitDown(p));
  }

  lemma {:induction false} EstablishSplitMark(p: Proc, e: Outside, d: Dial, m0: bool, orig: string)
    requires Inv(p.w, orig) && p.w.full.iface.None? && MarkInv(p.w.split, m0)
    ensures MarkKept(p, EstablishSplit(p, e, d).p, m0)
  {
    var wg := Full(WgUp(d.key));
    InstallEffect(p, wg);
    if Succeeds(p, wg) {
      var r1, c := Install(p, wg), TunnelMode(d.cfg.hasV6, e.nets);
      SplitUpMark(r1, c, m0);
      RemoveEffect(SplitUp(r1, c).p, WgDown);
    }
  }

  lemma {:induction false} FinishFullMark(p: Proc, e: Outside, d: Dial, m0: bool, orig: string)
    requires d.cfg.endpoint.Some? && p.w.saved.endpoint == d.cfg.endpoint
    requires Inv(p.w, orig) && p.w.full.iface.Some? && p.w.full.resolv == orig && MarkInv(p.w.split, m0)
    ensures MarkKept(p, FinishFull(p, e, d).p, m0)
  {
    var ep := d.cfg.endpoint;
    DnsSetKeeps(p, orig);
    var r3 := DnsSet(p);
    if !r3.ok {
      RouteUnsetFrame(r3.p, ep);
      RemoveEffect(RouteUnset(r3.p, ep), WgDown);
    } else {
      var r4 := Try(r3.p, Full(KillSwitchUp));
      InstallEffect(r3.p, Full(KillSwitchUp));
      if !r4.ok {
        DnsRestoreFrame(r4.p);
        RouteUnsetFrame(DnsRestore(r4.p), ep);
        RemoveEffect(RouteUnset(DnsRestore(r4.p), ep), WgDown);
      } else if e.gateway.Some? {
        SplitUpMark(r4.p, PlainMode(e.gateway.value, e.hasGateway6, e.nets), m0);
      }
    }
  }

  lemma {:induction false} EstablishFullMark(p: Proc, e: Outside, d: Dial, m0: bool, orig: string)
    requires d.cfg.endpoint.Some? && p.w.saved.endpoint == d.cfg.endpoint
    requires Inv(p.w, orig) && p.w.full.iface.None? && MarkInv(p.w.split, m0)
    ensures MarkKept(p, EstablishFull(p, e, d).p, m0)
  {
    var ep := d.cfg.endpoint;
    var r1 := Try(p, Full(WgUp(d.key)));
    InstallEffect(p, Full(WgUp(d.key)));
    if r1.ok {
      RouteSetKeeps(r1.p, ep.value, orig);
      var r2 := RouteSet(r1.p, ep.value.ip);
      if !r2.ok {
        RemoveEffect(r2.p, WgDown);
      } else {
        FinishFullMark(r2.p, e, d, m0, orig);
      }
    }
  }

  lemma {:induction false} WayMark(p: Proc, split: bool, m0: bool, orig: string)
    requires Inv(p.w, orig) && MarkInv(p.w.split, m0)
    ensures MarkKept(p, ClearTheWay(p, split), m0)
  {
    if split {
      TeardownMark(p);
    } else if p.w.full.iface.Some? || p.w.full.killSwitch {
      DisconnectMark(p, m0, orig);
    }
  }

  lemma {:induction false} EstablishMark(p: Proc, o: Opts, e: Outside, d: Dial, m0: bool, orig: string)
    requires d.cfg.endpoint.Some? && p.w.saved.endpoint == d.cfg.endpoint
    requires Inv(p.w, orig) && p.w.full.iface.None? && MarkInv(p.w.split, m0)
    ensures MarkKept(p, Establish(p, o, e, d).p, m0)
  {
    if o.split {
      EstablishSplitMark(p, e, d, m0, orig);
    } else {
      EstablishFullMark(p, e, d, m0, orig);
    }
  }

  // A save changes neither the split state nor what lives beside it.
  lemma SaveMark(p: Proc, cfg: Saved)
    ensures var q := Install(p, SaveConfig(cfg));
            q.w.split == p.w.split && q.w.otherWg == p.w.otherWg && (q.alive ==> p.alive)
  {
  }

  lemma KeptInTwo(p: Proc, q: Proc, r: Proc, m0: bool)
    requires MarkKept(p, q, m0) && q.alive
    requires MarkInv(q.w.split, m0) ==> MarkKept(q, r, m0)
    requires MarkInv(q.w.split, true) ==> MarkKept(q, r, true)
    ensures MarkKept(p, r, m0)
  {
  }

  lemma {:induction false} BuildMark(p: Proc, o: Opts, e: Outside, d: Dial, before: bool, m0: bool, orig: string)
    requires Inv(p.w, orig) && d.cfg.endpoint.Some? && MarkInv(p.w.split, m0)
    ensures MarkKept(p, Build(p, o, e, d, before).p, m0)
  {
    WayIsClear(p, o.split, orig);
    WayMark(p, o.split, m0, orig);
    var q := ClearTheWay(p, o.split);
    var s := Try(q, SaveConfig(d.cfg));
    SaveMark(q, d.cfg);
    if s.ok {
      SaveKeeps(q, d.cfg, orig);
      var r := Establish(s.p, o, e, d);
      if MarkInv(q.w.split, m0) {
        EstablishMark(s.p, o, e, d, m0, orig);
      }
      if MarkInv(q.w.split, true) {
        EstablishMark(s.p, o, e, d, true, orig);
      }
      KeptInTwo(p, s.p, r.p, m0);
      SaveMark(r.p, d.cfg.(split := before));
    }
  }

  lemma {:induction false} ConnectMark(p: Proc, o: Opts, e: Outside, m0: bool, orig: string)
    requires Inv(p.w, orig) && MarkInv(p.w.split, m0)
    ensures MarkKept(p, Connect(p, o, e).p, m0)
  {
    var f := RefreshRelays(p, o, e);
    SaveKeeps(p, f.cfg, orig);
    SaveMark(p, f.cfg);
    var d := ChooseRelays(f.cfg, o, e);
    if e.ready && !(o.split && e.lockdown) && d.Some? && !SameSession(f.p.w, f.cfg, o, d.value) {
      BuildMark(f.p, o, e, d.value, p.w.saved.split, m0, orig);
    }
  }

  lemma {:induction false} TurnMark(w: World, t: Turn, m0: bool, orig: string)
    requires Inv(w, orig) && MarkInv(w.split, m0)
    ensures MarkKept(Proc(w, t.plan, true), Execute(w, t.c, t.plan).p, m0)
  {
    var p := Proc(w, t.plan, true);
    match t.c
    case DoConnect(relay, via, split, e) => ConnectMark(p, ConnectOpts(relay, via, split), e, m0, orig);
    case DoReconnect(ifDead, h, e) =>
      if !(ifDead && !TunnelDead(w, h)) && e.ready && ReconnectOpts(w.saved, ifDead).relay != "" {
        ConnectMark(p, ReconnectOpts(w.saved, ifDead), e, m0, orig);
      }
    case DoDisconnect => DisconnectMark(p, m0, orig);
  }

  // ---- Whole runs ---------------------------------------------------------

  // One command without another WireGuard interface: the first value is kept
  // exactly unless the process stopped with the file gone and the sysctl raised.
  lemma {:induction false} TurnKeepsMarkIff(w: World, t: Turn, m0: bool, orig: string)
    requires Inv(w, orig) && MarkInv(w.split, m0) && !w.otherWg
    ensures var q := Execute(w, t.c, t.plan).p;
            !q.w.otherWg && (MarkInv(q.w.split, m0) <==> q.alive || !MarkLost(q.w.split, m0))
  {
    TurnMark(w, t, m0, orig);
  }

  // No command of the run stops between removing the file and writing 0 back.
  predicate NoneStopsShort(w: World, turns: seq<Turn>, m0: bool)
    decreases |turns|
  {
    turns == [] ||
    var before, last := turns[..|turns| - 1], turns[|turns| - 1];
    && NoneStopsShort(w, before, m0)
    && var q := Execute(RunAll(w, before), last.c, last.plan).p; q.alive || !MarkLost(q.w.split, m0)
  }

  // Stops anywhere else do no harm: whenever no state file is there, the sysctl
  // has the value it had before mvad first set it.
  lemma {:induction false} MarkIsPutBack(w: World, turns: seq<Turn>, m0: bool, orig: string)
    requires Inv(w, orig) && MarkInv(w.split, m0) && !w.otherWg && NoneStopsShort(w, turns, m0)
    ensures var v := RunAll(w, turns);
            MarkInv(v.split, m0) && !v.otherWg && (v.split.file.None? ==> v.split.mark == m0)
    decreases |turns|
  {
    if turns != [] {
      var before, last := turns[..|turns| - 1], turns[|turns| - 1];
      MarkIsPutBack(w, before, m0, orig);
      RunKeeps(w, before, orig);
      TurnKeepsMarkIff(RunAll(w, before), last, m0, orig);
    }
  }

  // In every run whatsoever, stops and other interfaces included: what is in
  // force without a state file is the first value or 1, never a 0 that was not.
  lemma {:induction false} MarkIsNeverLowered(w: World, turns: seq<Turn>, m0: bool, orig: string)
    requires Inv(w, orig) && MarkInv(w.split, m0)
    ensures var v := RunAll(w, turns).split;
            (MarkInv(v, m0) || MarkInv(v, true)) && (m0 ==> v.mark)
    decreases |turns|
  {
    if turns != [] {
      var before, last := turns[..|turns| - 1], turns[|turns| - 1];
      MarkIsNeverLowered(w, before, m0, orig);
      RunKeeps(w, before, orig);
      var v := RunAll(w, before);
      TurnMark(v, last, if MarkInv(v.split, m0) then m0 else true, orig);
    }
  }

  // ---- One split.Down -----------------------------------------------------

  // Wherever it stops and whatever lives beside it: once the file is gone the
  // value is back exactly when it was 1, or is 0 already, or the down ran to its
  // end with no other WireGuard interface.
  lemma DownPutsMarkBackIff(p: Proc, m0: bool, up: bool)
    requires SplitInv(p.w.split, up) && p.w.split.file.Some? && MarkInv(p.w.split, m0)
    ensures var q := SplitDown(p);
            q.w.split.file.None? ==>
              (q.w.split.mark == m0 <==> m0 || !p.w.split.mark || (q.alive && !p.w.otherWg))
  {
    ClearSplitKeeps(p, p.w.split.file.value.mark, up);
  }

  // The same on the faults to come. A stop befalls one of the next n steps.
  predicate StopsWithin(plan: seq<Fault>, n: nat) {
    Stop in if n <= |plan| then plan[..n] else plan
  }

  function After(plan: seq<Fault>, n: nat): seq<Fault> {
    if n <= |plan| then plan[n..] else []
  }

  lemma {:induction false} OneStepOn(plan: seq<Fault>, n: nat)
    ensures StopsWithin(plan, n + 1) <==> (plan != [] && plan[0] == Stop) || StopsWithin(After(plan, 1), n)
    ensures After(After(plan, 1), n) == After(plan, n + 1)
  {
    if plan != [] {
      var k := if n + 1 <= |plan| then n + 1 else |plan|;
      assert plan[..k] == [plan[0]] + plan[1..][..k - 1];
    }
  }

  lemma {:induction false} RemoveOn(p: Proc, s: Step)
    requires p.alive
    ensures Remove(p, s).alive <==> !StopsWithin(p.plan, 1)
    ensures Remove(p, s).alive ==> Remove(p, s).plan == After(p.plan, 1)
  {
    OneStepOn(p.plan, 0);
  }

  lemma {:induction false} DeadStays(p: Proc, steps: seq<Step>)
    requires !p.alive
    ensures RemoveAll(p, steps) == p
    decreases |steps|
  {
    if steps != [] {
      DeadStays(Remove(p, steps[0]), steps[1..]);
    }
  }

  lemma {:induction false} RemovalsOn(p: Proc, steps: seq<Step>)
    requires p.alive
    ensures var q := RemoveAll(p, steps);
            && (q.alive <==> !StopsWithin(p.plan, |steps|))
            && (q.alive ==> q.plan == After(p.plan, |steps|))
    decreases |steps|
  {
    if steps != [] {
      var q := Remove(p, steps[0]);
      RemoveOn(p, steps[0]);
      OneStepOn(p.plan, |steps| - 1);
      OneStepOn(p.plan, 0);
      if q.alive {
        RemovalsOn(q, steps[1..]);
      } else {
        DeadStays(q, steps[1..]);
      }
    } else {
      assert After(p.plan, 0) == p.plan;
    }
  }

  lemma {:induction false} RemoveOneMore(p: Proc, steps: seq<Step>, s: Step)
    ensures RemoveAll(p, steps + [s]) == Remove(RemoveAll(p, steps), s)
    decreases |steps|
  {
    if steps == [] {
      assert steps + [s] == [s] && [s][1..] == [];
    } else {
      assert (steps + [s])[1..] == steps[1..] + [s];
      RemoveOneMore(Remove(p, steps[0]), steps[1..], s);
    }
  }

  // Clearing n artefacts takes n removals and one of the file.
  lemma {:induction false} FileGoesOn(p: Proc, steps: seq<Step>, up: bool)
    requires AllClearing(steps) && ClearsAll(steps, V4)
    requires SplitInv(p.w.split, up) && p.w.split.file.Some? && p.alive
    ensures var r := Remove(RemoveAll(p, steps), RemoveState);
            && (r.alive <==> !StopsWithin(p.plan, |steps| + 1))
            && r.w.split.file == (if r.alive then None else p.w.split.file)
            && r.w.split.mark == p.w.split.mark && r.w.otherWg == p.w.otherWg
  {
    RemoveOneMore(p, steps, RemoveState);
    RemovalsOn(p, steps + [RemoveState]);
    ClearedIsBlank(p, steps, V4, up);
    RemoveEffect(RemoveAll(p, steps), RemoveState);
  }

  // The sysctl's write is one more.
  lemma {:induction false} MarkGoesOn(p: Proc, steps: seq<Step>)
    requires p.alive
    ensures var r := Remove(RemoveAll(p, steps), RemoveState);
            Remove(r, WriteMark(false)).alive <==> !StopsWithin(p.plan, |steps| + 2)
  {
    RemoveOneMore(p, steps, RemoveState);
    RemoveOneMore(p, steps + [RemoveState], WriteMark(false));
    RemovalsOn(p, steps + [RemoveState] + [WriteMark(false)]);
  }

  lemma {:induction false} ClearOn(p: Proc, steps: seq<Step>, up: bool)
    requires AllClearing(steps) && ClearsAll(steps, V4)
    requires SplitInv(p.w.split, up) && p.w.split.file.Some? && p.alive
    ensures var q := ClearWith(p, steps, Some(false)).w.split;
            && q.file == (if StopsWithin(p.plan, |steps| + 1) then p.w.split.file else None)
            && q.mark == (p.w.split.mark && (p.w.otherWg || StopsWithin(p.plan, |steps| + 2)))
  {
    FileGoesOn(p, steps, up);
    MarkGoesOn(p, steps);
    RemoveEffect(Remove(RemoveAll(p, steps), RemoveState), WriteMark(false));
  }

  // So a disconnect loses the value exactly when it was 0, is raised, the file
  // gets removed, and either another interface is there or the very next step,
  // the one that would write 0, is the one it stops at.
  lemma {:induction false} DisconnectKeepsMarkIff(w: World, plan: seq<Fault>, m0: bool, orig: string)
    requires Inv(w, orig) && w.split.file.Some? && MarkInv(w.split, m0)
    ensures var n := |ClearSteps()|; var v := Execute(w, DoDisconnect, plan).p.w.split;
            MarkInv(v, m0) <==>
              || m0 || !w.split.mark
              || StopsWithin(plan, n + 1)
              || (!w.otherWg && !StopsWithin(plan, n + 2))
  {
    var p := Proc(w, plan, true);
    DownKeepsMarkIff(p, m0, w.full.iface.Some?);
    TeardownMark(SplitDown(p));
  }

  lemma {:induction false} DownKeepsMarkIff(p: Proc, m0: bool, up: bool)
    requires SplitInv(p.w.split, up) && p.w.split.file.Some? && MarkInv(p.w.split, m0) && p.alive
    ensures var n := |ClearSteps()|;
            MarkInv(SplitDown(p).w.split, m0) <==>
              || m0 || !p.w.split.mark
              || StopsWithin(p.plan, n + 1)
              || (!p.w.otherWg && !StopsWithin(p.plan, n + 2))
  {
    if m0 {
      ClearSplitKeeps(p, Some(true), up);
    } else {
      ClearStepsClearAll(V4);
      ClearOn(p, ClearSteps(), up);
    }
  }

  // ---- The two ways to lose it --------------------------------------------

  function Gos(n: nat): seq<Fault> {
    if n == 0 then [] else [Go] + Gos(n - 1)
  }

  lemma {:induction false} RemovalsGoThrough(p: Proc, steps: seq<Step>, rest: seq<Fault>)
    requires p.alive && p.plan == Gos(|steps|) + rest
    ensures var q := RemoveAll(p, steps); q.alive && q.plan == rest
    decreases |steps|
  {
    if steps != [] {
      assert p.plan[1..] == Gos(|steps| - 1) + rest;
      RemovalsGoThrough(Remove(p, steps[0]), steps[1..], rest);
    } else {
      assert p.plan == rest;
    }
  }

  // Every removal goes through, the file's too, and then the process stops.
  function StopShort(n: nat): seq<Fault> {
    Gos(n) + [Go, Stop]
  }

  lemma {:induction false} StoppedClear(p: Proc, steps: seq<Step>, up: bool)
    requires AllClearing(steps) && ClearsAll(steps, V4) && ClearsAll(steps, V6)
    requires SplitInv(p.w.split, up) && p.w.split.file.Some? && p.alive && p.plan == StopShort(|steps|) && !p.w.otherWg
    ensures var q := ClearWith(p, steps, Some(false));
            !q.alive && q.w.split.file.None? && q.w.split.mark == p.w.split.mark
  {
    RemovalsGoThrough(p, steps, [Go, Stop]);
    ClearedIsBlank(p, steps, V4, up);
    var q := RemoveAll(p, steps);
    var r := Remove(q, RemoveState);
    assert r.alive && r.plan == [Stop];
    RemoveEffect(q, RemoveState);
  }

  // A down that stops right after it removed the file.
  lemma StoppedDownLosesMark(p: Proc, up: bool)
    requires SplitInv(p.w.split, up) && p.w.split.file.Some? && p.w.split.file.value.mark == Some(false)
    requires p.w.split.mark && !p.w.otherWg && p.alive && p.plan == StopShort(|ClearSteps()|)
    ensures !SplitDown(p).alive && MarkLost(SplitDown(p).w.split, false)
  {
    ClearStepsClearAll(V4);
    ClearStepsClearAll(V6);
    StoppedClear(p, ClearSteps(), up);
  }

  lemma {:induction false} StoppedDisconnectLosesMark(p: Proc, up: bool)
    requires SplitInv(p.w.split, up) && p.w.split.file.Some? && p.w.split.file.value.mark == Some(false)
    requires p.w.split.mark && !p.w.otherWg && p.alive && p.plan == StopShort(|ClearSteps()|)
    ensures MarkLost(Disconnect(p).w.split, false)
  {
    StoppedDownLosesMark(p, up);
    TeardownMark(SplitDown(p));
  }

  // Without the file a disconnect has nothing to put back.
  lemma {:induction false} LostStaysLost(w: World, plan: seq<Fault>)
    requires MarkLost(w.split, false)
    ensures MarkLost(Execute(w, DoDisconnect, plan).p.w.split, false)
  {
    TeardownMark(Proc(w, plan, true));
  }

  // A finished connect --split has the sysctl raised and its value on record.
  lemma {:induction false} SplitConnectRaisesMark(w: World, c: Command, orig: string)
    requires Inv(w, orig) && MarkInv(w.split, false) && c.DoConnect? && c.split && Execute(w, c, []).ok
    ensures var v := Execute(w, c, []).p.w;
            Inv(v, orig) && v.split.mark && v.split.file.Some? && v.otherWg == w.otherWg
    ensures Execute(w, c, []).p.alive && (!w.otherWg ==> MarkInv(Execute(w, c, []).p.w.split, false))
  {
    SplitConnectEstablishes(w, c.relay, c.via, c.e, [], {c.e.nets}, V4, orig);
    ConnectSucceedsIff(w, ConnectOpts(c.relay, c.via, true), c.e, orig);
    CommandKeeps(w, c, [], orig);
    TurnMark(w, Turn(c, []), false, orig);
  }

  lemma {:induction false} StopAfterLosesMark(w: World, later: seq<Fault>, orig: string)
    requires Inv(w, orig) && w.split.file.Some? && MarkInv(w.split, false) && w.split.mark && !w.otherWg
    ensures var v := Execute(w, DoDisconnect, StopShort(|ClearSteps()|)).p.w;
            MarkLost(v.split, false) && MarkLost(Execute(v, DoDisconnect, later).p.w.split, false)
  {
    var plan := StopShort(|ClearSteps()|);
    StoppedDisconnectLosesMark(Proc(w, plan, true), w.full.iface.Some?);
    LostStaysLost(Execute(w, DoDisconnect, plan).p.w, later);
  }

  // From a clean machine: connect --split, then a disconnect that stops between
  // the two. A later disconnect finds no file and leaves the sysctl raised.
  lemma {:induction false} StopLosesMark(w: World, c: Command, later: seq<Fault>, orig: string)
    requires Clean(w, orig) && !w.split.mark && !w.otherWg && c.DoConnect? && c.split
    ensures Execute(w, c, []).ok ==>
      var v := Execute(Execute(w, c, []).p.w, DoDisconnect, StopShort(|ClearSteps()|)).p.w;
      MarkLost(v.split, false) && MarkLost(Execute(v, DoDisconnect, later).p.w.split, false)
  {
    if Execute(w, c, []).ok {
      SplitConnectRaisesMark(w, c, orig);
      StopAfterLosesMark(Execute(w, c, []).p.w, later, orig);
    }
  }

  // From a clean machine beside another WireGuard interface: connect --split and
  // a disconnect, nothing failing, leave the sysctl raised.
  lemma {:induction false} OtherInterfaceKeepsMarkRaised(w: World, c: Command, orig: string)
    requires Clean(w, orig) && !w.split.mark && w.otherWg && c.DoConnect? && c.split
    ensures Execute(w, c, []).ok ==>
      MarkLost(Execute(Execute(w, c, []).p.w, DoDisconnect, []).p.w.split, false)
  {
    if Execute(w, c, []).ok {
      SplitConnectRaisesMark(w, c, orig);
      var w1 := Execute(w, c, []).p.w;
      var p := Proc(w1, [], true);
      UninterruptedDisconnectCompletes(w1, []);
      DisconnectKeeps(p, orig);
      ClearSplitKeeps(p, w1.split.file.value.mark, w1.full.iface.Some?);
      TeardownMark(SplitDown(p));
    }
  }
}
