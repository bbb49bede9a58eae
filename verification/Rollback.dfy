// What a build that fails leaves of the split state.
module Rollback {
  import opened Net
  import opened PrefixSets
  import opened Tables
  import opened SplitRouting
  import opened World
  import opened Session
  import opened SessionInvariant

  // Taking over from a split session.
  predicate TakesOver(was: SplitState, split: bool) {
    split && was.file.Some? && was.file.value.split
  }

  // What was there before, but for routes through an interface taken down, or
  // nothing; a takeover keeps what it took over.
  ghost predicate Undone(was: SplitState, now: SplitState, split: bool) {
    now == DropAllRoutes(was) || SplitGone(now) || (TakesOver(was, split) && TakesOver(now, true))
  }

  // Without the interface there is nothing to drop.
  lemma NothingToDrop(sp: SplitState)
    requires SplitInv(sp, false)
    ensures DropAllRoutes(sp) == sp
  {
    assert Without(IFACE, sp.v4.table60) == sp.v4.table60;
    assert Without(IFACE, sp.v6.table60) == sp.v6.table60;
  }

  lemma BlankStaysBlank(sp: SplitState)
    requires SplitGone(sp)
    ensures SplitGone(DropAllRoutes(sp))
  {
    assert DropRoutes(BLANK) == BLANK;
  }

  lemma {:induction false} WayIsUndone(p: Proc, split: bool, orig: string)
    requires Inv(p.w, orig)
    ensures var q := ClearTheWay(p, split);
            q.alive ==> q.w.split == DropAllRoutes(p.w.split) || (!split && SplitGone(q.w.split))
  {
    if split {
      TeardownFrame(p);
    } else if p.w.full.iface.Some? || p.w.full.killSwitch {
      DisconnectKeeps(p, orig);
    } else {
      NothingToDrop(p.w.split);
    }
  }

  // The state file of a takeover still says split when it fails.
  lemma TakeoverKeepsFile(p: Proc, c: SplitConfig)
    requires SplitInv(p.w.split, true) && ReplacesSplit(p.w.split, c)
    ensures !SplitUp(p, c).ok ==> TakesOver(SplitUp(p, c).p.w.split, true)
  {
    var write := WriteState(SplitFile(c.TunnelMode?, PriorMark(p.w.split)));
    var r0 := Install(p, MakeCgroup);
    InstallEffect(p, MakeCgroup);
    InstallEffect(r0, write);
    if Succeeds(p, MakeCgroup) && Succeeds(r0, write) {
      UpStepsAreUpping(c);
      UppingAll(Install(r0, write), UpSteps(c));
    }
  }

  lemma {:induction false} SplitBuildUndoes(p: Proc, e: Outside, d: Dial, orig: string)
    requires Inv(p.w, orig) && p.w.full.iface.None?
    ensures var r := EstablishSplit(p, e, d); !r.ok && r.p.alive ==> Undone(p.w.split, r.p.w.split, true)
  {
    var wg := Full(WgUp(d.key));
    InstallEffect(p, wg);
    NothingToDrop(p.w.split);
    if Succeeds(p, wg) {
      var r1, c := Install(p, wg), TunnelMode(d.cfg.hasV6, e.nets);
      SplitUpKeeps(r1, c);
      if ReplacesSplit(p.w.split, c) {
        TakeoverKeepsFile(r1, c);
      }
      var q := SplitUp(r1, c).p;
      RemoveEffect(q, WgDown);
      if SplitGone(q.w.split) {
        BlankStaysBlank(q.w.split);
      }
    }
  }

  // Past the routes, a full session that fails only takes its interface down.
  lemma {:induction false} FinishUndoes(p: Proc, e: Outside, d: Dial, orig: string)
    requires d.cfg.endpoint.Some? && DnsSafe(p.w.full, orig) && p.w.full.resolv == orig
    ensures var r := FinishFull(p, e, d); !r.ok && r.p.alive ==> r.p.w.split == DropAllRoutes(p.w.split)
  {
    var ep := d.cfg.endpoint;
    DnsSetKeeps(p, orig);
    var r3 := DnsSet(p);
    if !r3.ok {
      RouteUnsetFrame(r3.p, ep);
      RemoveEffect(RouteUnset(r3.p, ep), WgDown);
    } else {
      var r4 := Try(r3.p, Full(KillSwitchUp));
      InstallEffect(r3.p, Full(KillSwitchUp));
      if !r4.ok {
        DnsRestoreFrame(r4.p);
        RouteUnsetFrame(DnsRestore(r4.p), ep);
        RemoveEffect(RouteUnset(DnsRestore(r4.p), ep), WgDown);
      }
    }
  }

  lemma {:induction false} FullBuildUndoes(p: Proc, e: Outside, d: Dial, orig: string)
    requires d.cfg.endpoint.Some? && p.w.saved.endpoint == d.cfg.endpoint
    requires Inv(p.w, orig) && p.w.full.iface.None?
    ensures var r := EstablishFull(p, e, d); !r.ok && r.p.alive ==> r.p.w.split == p.w.split
  {
    var ep := d.cfg.endpoint.value;
    NothingToDrop(p.w.split);
    InstallEffect(p, Full(WgUp(d.key)));
    if Succeeds(p, Full(WgUp(d.key))) {
      var r1 := Install(p, Full(WgUp(d.key)));
      RouteSetKeeps(r1, ep, orig);
      var r2 := RouteSet(r1, ep.ip);
      if !r2.ok {
        RemoveEffect(r2.p, WgDown);
      } else {
        FinishUndoes(r2.p, e, d, orig);
      }
    }
  }

  lemma {:induction false} EstablishUndoes(p: Proc, o: Opts, e: Outside, d: Dial, orig: string)
    requires d.cfg.endpoint.Some? && p.w.saved.endpoint == d.cfg.endpoint
    requires Inv(p.w, orig) && p.w.full.iface.None?
    ensures var r := Establish(p, o, e, d); !r.ok && r.p.alive ==> Undone(p.w.split, r.p.w.split, o.split)
  {
    NothingToDrop(p.w.split);
    if o.split {
      SplitBuildUndoes(p, e, d, orig);
    } else {
      FullBuildUndoes(p, e, d, orig);
    }
  }

  // Clearing the way and then failing to build undoes what was there before.
  lemma UndoneInTwo(was: SplitState, mid: SplitState, now: SplitState, split: bool)
    requires mid == DropAllRoutes(was) || (!split && SplitGone(mid))
    requires SplitInv(mid, false) && Undone(mid, now, split)
    ensures Undone(was, now, split)
  {
    NothingToDrop(mid);
  }

  lemma {:induction false} BuildUndoes(p: Proc, o: Opts, e: Outside, d: Dial, before: bool, orig: string)
    requires Inv(p.w, orig) && d.cfg.endpoint.Some?
    ensures var r := Build(p, o, e, d, before); !r.ok && r.p.alive ==> Undone(p.w.split, r.p.w.split, o.split)
  {
    WayIsClear(p, o.split, orig);
    WayIsUndone(p, o.split, orig);
    var q := ClearTheWay(p, o.split);
    InstallEffect(q, SaveConfig(d.cfg));
    var s := Try(q, SaveConfig(d.cfg));
    if s.ok {
      SaveKeeps(q, d.cfg, orig);
      EstablishUndoes(s.p, o, e, d, orig);
      var r := Establish(s.p, o, e, d);
      InstallEffect(r.p, SaveConfig(d.cfg.(split := before)));
      if !r.ok && r.p.alive {
        UndoneInTwo(p.w.split, q.w.split, r.p.w.split, o.split);
      }
    }
  }
}
