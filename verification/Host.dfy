// The commands as they run: methods that change the machine step by step, each
// proved equal to its function in Session.
module Host {
  import opened Net
  import opened PrefixSets
  import opened Tables
  import opened SplitRouting
  import opened Relays
  import opened World
  import opened Session

  class Machinery {
    var world: World
    var plan: seq<Fault>
    var alive: bool

    function State(): Proc
      reads this
    {
      Proc(world, plan, alive)
    }

    constructor (w: World, faults: seq<Fault>)
      ensures State() == Proc(w, faults, true)
    {
      world, plan, alive := w, faults, true;
    }

    method DoInstall(s: Step) returns (ok: bool)
      modifies this
      ensures Ran(State(), ok) == Try(old(State()), s)
    {
      ok := false;
      if alive {
        var fault := NextFault(State());
        if fault == Stop {
          alive := false;
        } else {
          ok := fault == Go && Possible(s, world);
          if plan != [] {
            plan := plan[1..];
          }
          if ok {
            world := Apply(s, world);
          }
        }
      }
    }

    method DoRemove(s: Step)
      modifies this
      ensures State() == Remove(old(State()), s)
    {
      if alive {
        if NextFault(State()) == Stop {
          alive := false;
        } else {
          if plan != [] {
            plan := plan[1..];
          }
          world := Apply(s, world);
        }
      }
    }

    method DoInstallAll(steps: seq<Step>) returns (ok: bool)
      modifies this
      ensures Ran(State(), ok) == InstallAll(old(State()), steps)
    {
      for i := 0 to |steps|
        invariant InstallAll(State(), steps[i..]) == InstallAll(old(State()), steps)
      {
        assert steps[i..][1..] == steps[i + 1..];
        ok := DoInstall(steps[i]);
        if !ok {
          return false;
        }
      }
      return true;
    }

    method DoRemoveAll(steps: seq<Step>)
      modifies this
      ensures State() == RemoveAll(old(State()), steps)
    {
      for i := 0 to |steps|
        invariant RemoveAll(State(), steps[i..]) == RemoveAll(old(State()), steps)
      {
        assert steps[i..][1..] == steps[i + 1..];
        DoRemove(steps[i]);
      }
    }

    // ---- Routes and DNS ----

    method SetRoute(ip: Addr) returns (ok: bool)
      modifies this
      ensures Ran(State(), ok) == RouteSet(old(State()), ip)
    {
      ok := DoInstall(Full(Pin(ip)));
      if !ok {
        return;
      }
      ok := DoInstall(Full(TunnelDefault(V4)));
      if !ok {
        DoRemove(Full(Unpin(ip)));
        return;
      }
      ok := DoInstall(Full(TunnelDefault(V6)));
      if !ok {
        DoRemove(Full(NoTunnelDefault(V4)));
        DoRemove(Full(Unpin(ip)));
      }
    }

    method UnsetRoute(endpoint: Option<Endpoint>)
      modifies this
      ensures State() == RouteUnset(old(State()), endpoint)
    {
      DoRemove(Full(NoTunnelDefault(V4)));
      DoRemove(Full(NoTunnelDefault(V6)));
      if endpoint.Some? {
        DoRemove(Full(Unpin(endpoint.value.ip)));
      }
    }

    method SetDns() returns (ok: bool)
      modifies this
      ensures Ran(State(), ok) == DnsSet(old(State()))
    {
      ok := DoInstall(Full(WriteBackup));
      if ok {
        ok := DoInstall(Full(WriteResolv));
      }
    }

    method RestoreDns()
      modifies this
      ensures State() == DnsRestore(old(State()))
    {
      if world.full.backup.None? {
        return;
      }
      DoRemove(Full(RestoreResolv));
      DoRemove(Full(RemoveBackup));
    }

    // ---- Split state ----

    method PutMarkBack(prior: Option<bool>)
      modifies this
      ensures State() == RestoreMark(old(State()), prior)
    {
      if prior != Some(false) || world.otherWg {
        return;
      }
      DoRemove(WriteMark(false));
    }

    method ClearAway(prior: Option<bool>)
      modifies this
      ensures State() == ClearSplit(old(State()), prior)
    {
      DoRemoveAll(ClearSteps());
      DoRemove(RemoveState);
      PutMarkBack(prior);
    }

    method RaiseSplit(steps: seq<Step>, takingOver: bool, prior: Option<bool>) returns (ok: bool)
      modifies this
      ensures Ran(State(), ok) == Raise(old(State()), steps, takingOver, prior)
    {
      ok := DoInstallAll(steps);
      if !ok && !takingOver {
        ClearAway(prior);
      }
    }

    method BringSplitUp(c: SplitConfig) returns (ok: bool)
      modifies this
      ensures Ran(State(), ok) == SplitUp(old(State()), c)
    {
      var takingOver := ReplacesSplit(world.split, c);
      var prior := PriorMark(world.split);
      ok := DoInstall(MakeCgroup);
      if !ok {
        return;
      }
      ok := DoInstall(WriteState(SplitFile(c.TunnelMode?, prior)));
      if !ok {
        return;
      }
      ok := RaiseSplit(UpSteps(c), takingOver, prior);
    }

    method BringSplitDown()
      modifies this
      ensures State() == SplitDown(old(State()))
    {
      if world.split.file.None? {
        return;
      }
      ClearAway(world.split.file.value.mark);
    }

    // ---- Commands ----

    method TearDown()
      modifies this
      ensures State() == Teardown(old(State()))
    {
      var endpoint := world.saved.endpoint;
      DoRemove(Full(KillSwitchDown));
      RestoreDns();
      UnsetRoute(endpoint);
      DoRemove(WgDown);
    }

    method DisconnectNow()
      modifies this
      ensures State() == Disconnect(old(State()))
    {
      BringSplitDown();
      TearDown();
    }

    method BuildSplit(e: Outside, d: Dial) returns (ok: bool)
      modifies this
      ensures Ran(State(), ok) == EstablishSplit(old(State()), e, d)
    {
      ok := DoInstall(Full(WgUp(d.key)));
      if !ok {
        return;
      }
      ok := BringSplitUp(TunnelMode(d.cfg.hasV6, e.nets));
      if !ok {
        DoRemove(WgDown);
      }
    }

    method FinishBuildFull(e: Outside, d: Dial) returns (ok: bool)
      modifies this
      ensures Ran(State(), ok) == FinishFull(old(State()), e, d)
    {
      ok := SetDns();
      if !ok {
        UnsetRoute(d.cfg.endpoint);
        DoRemove(WgDown);
        return;
      }
      ok := DoInstall(Full(KillSwitchUp));
      if !ok {
        RestoreDns();
        UnsetRoute(d.cfg.endpoint);
        DoRemove(WgDown);
        return;
      }
      // A split setup that fails is only reported.
      if e.gateway.Some? {
        var _ := BringSplitUp(PlainMode(e.gateway.value, e.hasGateway6, e.nets));
        ok := alive;
      }
    }

    method BuildFull(e: Outside, d: Dial) returns (ok: bool)
      requires d.cfg.endpoint.Some?
      modifies this
      ensures Ran(State(), ok) == EstablishFull(old(State()), e, d)
    {
      ok := DoInstall(Full(WgUp(d.key)));
      if !ok {
        return;
      }
      ok := SetRoute(d.cfg.endpoint.value.ip);
      if !ok {
        DoRemove(WgDown);
        return;
      }
      ok := FinishBuildFull(e, d);
    }

    method BuildSession(o: Opts, e: Outside, d: Dial, before: bool) returns (ok: bool)
      requires d.cfg.endpoint.Some?
      modifies this
      ensures Ran(State(), ok) == Build(old(State()), o, e, d, before)
    {
      if o.split {
        TearDown();
      } else if world.full.iface.Some? || world.full.killSwitch {
        DisconnectNow();
      }
      ok := DoInstall(SaveConfig(d.cfg));
      if !ok {
        return;
      }
      if o.split {
        ok := BuildSplit(e, d);
      } else {
        ok := BuildFull(e, d);
      }
      // Deferred: a failed connect puts the saved mode back.
      if !ok && d.cfg.split != before {
        var _ := DoInstall(SaveConfig(d.cfg.(split := before)));
      }
    }

    method ConnectNow(o: Opts, e: Outside) returns (ok: bool)
      modifies this
      ensures Ran(State(), ok) == Connect(old(State()), o, e)
    {
      if (o.split && e.lockdown) || !e.ready {
        return false;
      }
      var before := world.saved.split;
      var cfg := world.saved;
      if (o.refresh || e.stale || cfg.relays == []) && e.fetched.Some? {
        cfg := cfg.(relays := e.fetched.value);
        var _ := DoInstall(SaveConfig(cfg));
      }
      var d := ChooseRelays(cfg, o, e);
      if d.None? {
        return false;
      }
      if SameSession(world, cfg, o, d.value) {
        return alive;
      }
      ok := BuildSession(o, e, d.value, before);
    }

    method ReconnectNow(ifDead: bool, h: Health, e: Outside) returns (ok: bool)
      modifies this
      ensures Ran(State(), ok) == Reconnect(old(State()), ifDead, h, e)
    {
      if ifDead && !TunnelDead(world, h) {
        return true;
      }
      var o := ReconnectOpts(world.saved, ifDead);
      if !e.ready || o.relay == "" {
        return false;
      }
      ok := ConnectNow(o, e);
    }

    // One command from start to end, or to where it stops.
    method Run(c: Command) returns (ok: bool)
      modifies this
      ensures Ran(State(), ok) == RunCommand(old(State()), c)
    {
      match c {
        case DoConnect(relay, via, split, e) => ok := ConnectNow(ConnectOpts(relay, via, split), e);
        case DoReconnect(ifDead, h, e) => ok := ReconnectNow(ifDead, h, e);
        case DoDisconnect => DisconnectNow(); ok := alive;
      }
    }
  }

  // A run of commands, each its own process on what the last one left.
  method RunTurns(w: World, turns: seq<Turn>) returns (v: World)
    ensures v == RunAll(w, turns)
  {
    v := w;
    for i := 0 to |turns|
      invariant v == RunAll(w, turns[..i])
    {
      var host := new Machinery(v, turns[i].plan);
      var _ := host.Run(turns[i].c);
      v := host.world;
      assert turns[..i + 1][..i] == turns[..i] && turns[..i + 1][i] == turns[i];
    }
    assert turns[..|turns|] == turns;
  }

  // probeTunnel: every resolver is tried under each of the two timeouts, and one
  // answer is enough.
  method ProbeTunnel(answers: seq<seq<bool>>) returns (alive: bool)
    ensures alive <==> exists i, j :: 0 <= i < |answers| && 0 <= j < |answers[i]| && answers[i][j]
  {
    for i := 0 to |answers|
      invariant forall k, j :: 0 <= k < i && 0 <= j < |answers[k]| ==> !answers[k][j]
    {
      for j := 0 to |answers[i]|
        invariant forall l :: 0 <= l < j ==> !answers[i][l]
      {
        if answers[i][j] {
          return true;
        }
      }
    }
    return false;
  }
}
