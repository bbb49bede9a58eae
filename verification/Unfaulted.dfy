// Runs in which nothing fails and nothing stops: every command does its work.
module Unfaulted {
  import opened Net
  import opened Tables
  import opened SplitRouting
  import opened Relays
  import opened World
  import opened Session
  import opened SessionInvariant
  import opened SessionTheorems

  ghost predicate Free(p: Proc) {
    p.alive && p.plan == []
  }

  lemma {:induction false} InstallsAll(p: Proc, steps: seq<Step>)
    requires Free(p) && p.w.full.iface.Some? && AllSplitSide(steps)
    ensures var r := InstallAll(p, steps); r.ok && Free(r.p) && r.p.w.full == p.w.full
    decreases |steps|
  {
    if steps != [] {
      InstallsAll(Install(p, steps[0]), steps[1..]);
    }
  }

  lemma {:induction false} RemovesAll(p: Proc, steps: seq<Step>)
    requires Free(p)
    ensures Free(RemoveAll(p, steps))
    decreases |steps|
  {
    if steps != [] {
      RemovesAll(Remove(p, steps[0]), steps[1..]);
    }
  }

  lemma {:induction false} ClearsFreely(p: Proc, steps: seq<Step>, prior: Option<bool>)
    requires Free(p)
    ensures Free(ClearWith(p, steps, prior))
  {
    RemovesAll(p, steps);
  }

  lemma TearsDownFreely(p: Proc)
    requires Free(p)
    ensures Free(Teardown(p))
  {
    var q := DnsRestore(Remove(p, Full(KillSwitchDown)));
    assert Free(q);
    assert Free(RouteUnset(q, p.w.saved.endpoint));
  }

  lemma ClearsTheWayFreely(p: Proc, split: bool)
    requires Free(p)
    ensures Free(ClearTheWay(p, split))
  {
    TearsDownFreely(p);
    if p.w.split.file.Some? {
      ClearsFreely(p, ClearSteps(), p.w.split.file.value.mark);
    }
    TearsDownFreely(SplitDown(p));
  }

  lemma SplitUpSucceeds(p: Proc, c: SplitConfig)
    requires Free(p) && p.w.full.iface.Some?
    ensures SplitUp(p, c).ok && Free(SplitUp(p, c).p)
  {
    var r := Install(Install(p, MakeCgroup), WriteState(SplitFile(c.TunnelMode?, PriorMark(p.w.split))));
    UpStepsAreUpping(c);
    InstallsAll(r, UpSteps(c));
  }

  lemma RoutesSucceed(p: Proc, ip: Addr)
    requires Free(p) && p.w.full.iface.Some? && ip !in p.w.full.pins
    ensures var r := RouteSet(p, ip); r.ok && Free(r.p) && r.p.w.full.iface.Some? && r.p.w.split == p.w.split
  {
  }

  // A process with nothing of a full session in its way.
  ghost predicate Unhindered(p: Proc) {
    Free(p) && p.w.full.iface.None? && p.w.full.pins == {} && !p.w.full.killSwitch
  }

  lemma FinishSucceeds(p: Proc, e: Outside, d: Dial)
    requires Free(p) && p.w.full.iface.Some?
    ensures FinishFull(p, e, d).ok && FinishFull(p, e, d).p.alive
  {
    var r := Install(DnsSet(p).p, Full(KillSwitchUp));
    if e.gateway.Some? {
      SplitUpSucceeds(r, PlainMode(e.gateway.value, e.hasGateway6, e.nets));
    }
  }

  lemma EstablishSucceeds(p: Proc, o: Opts, e: Outside, d: Dial)
    requires Unhindered(p) && d.cfg.endpoint.Some?
    ensures Establish(p, o, e, d).ok && Establish(p, o, e, d).p.alive
  {
    var r := Install(p, Full(WgUp(d.key)));
    if o.split {
      SplitUpSucceeds(r, TunnelMode(d.cfg.hasV6, e.nets));
    } else {
      RoutesSucceed(r, d.cfg.endpoint.value.ip);
      FinishSucceeds(RouteSet(r, d.cfg.endpoint.value.ip).p, e, d);
    }
  }

  lemma {:induction false} BuildSucceeds(p: Proc, o: Opts, e: Outside, d: Dial, before: bool, orig: string)
    requires Free(p) && Inv(p.w, orig) && d.cfg.endpoint.Some?
    ensures Build(p, o, e, d, before).ok && Build(p, o, e, d, before).p.alive
  {
    ClearsTheWayFreely(p, o.split);
    WayIsClear(p, o.split, orig);
    EstablishSucceeds(Install(ClearTheWay(p, o.split), SaveConfig(d.cfg)), o, e, d);
  }

  // A list that answers a query, and with an entry that query too, provided the
  // exit that comes up has a port for it.
  ghost predicate Answers(relays: seq<Relay>, relay: string, avoid: string, die: nat, via: string) {
    && Offers(relays, relay)
    && (via != "" ==>
          var exit := PickExcept(relays, relay, avoid, die);
          Offers(relays, via) && exit.Some? && exit.value.multihopPort != 0)
  }

  lemma {:induction false} ChosenIff(cfg: Saved, o: Opts, e: Outside)
    ensures ChooseRelays(cfg, o, e).Some? <==> Answers(cfg.relays, o.relay, o.avoid, e.dieExit, o.via)
  {
    PickFindsOne(cfg.relays, o.relay, o.avoid, e.dieExit);
    PickFindsOne(cfg.relays, o.via, o.avoidVia, e.dieEntry);
  }

  // From any state mvad can be in, a connect that meets no fault succeeds
  // exactly when it may run at all and the relay list has what was asked for.
  lemma {:induction false} ConnectSucceedsIff(w: World, o: Opts, e: Outside, orig: string)
    requires Inv(w, orig)
    ensures var p := Proc(w, [], true);
            && Connect(p, o, e).p.alive
            && (Connect(p, o, e).ok <==>
                && e.ready && !(o.split && e.lockdown)
                && Answers(ListFor(w.saved, o.refresh, e), o.relay, o.avoid, e.dieExit, o.via))
  {
    var p := Proc(w, [], true);
    var f := RefreshRelays(p, o, e);
    SaveKeeps(p, f.cfg, orig);
    RefreshedList(p, o, e);
    ChosenIff(f.cfg, o, e);
    var d := ChooseRelays(f.cfg, o, e);
    if d.Some? {
      BuildSucceeds(f.p, o, e, d.value, w.saved.split, orig);
    }
  }

  // The command itself: nothing to avoid, and a refresh only of a stale or empty list.
  lemma {:induction false} ConnectCommandSucceedsIff(w: World, relay: string, via: string, split: bool, e: Outside,
                                                     orig: string)
    requires Inv(w, orig)
    ensures Execute(w, DoConnect(relay, via, split, e), []).ok <==>
      && e.ready && !(split && e.lockdown)
      && Answers(ListFor(w.saved, false, e), relay, "", e.dieExit, via)
  {
    ConnectSucceedsIff(w, ConnectOpts(relay, via, split), e, orig);
  }
}
