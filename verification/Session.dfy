// The commands, as functions of a process: each applies its steps in the order
// the code does, takes the same branches on failure and rolls back the same way.
module Session {
  import opened Net
  import opened PrefixSets
  import opened Tables
  import opened SplitRouting
  import opened Relays
  import opened World

  const WIREGUARD_PORT := 51820

  // ---- Routes and DNS -----------------------------------------------------

  function RouteSet(p: Proc, ip: Addr): Ran {
    var r1 := Try(p, Full(Pin(ip)));
    if !r1.ok then r1
    else
      var r2 := Try(r1.p, Full(TunnelDefault(V4)));
      if !r2.ok then Ran(Remove(r2.p, Full(Unpin(ip))), false)
      else
        var r3 := Try(r2.p, Full(TunnelDefault(V6)));
        if !r3.ok then Ran(Remove(Remove(r3.p, Full(NoTunnelDefault(V4))), Full(Unpin(ip))), false)
        else r3
  }

  function RouteUnset(p: Proc, endpoint: Option<Endpoint>): Proc {
    var q := Remove(Remove(p, Full(NoTunnelDefault(V4))), Full(NoTunnelDefault(V6)));
    if endpoint.None? then q else Remove(q, Full(Unpin(endpoint.value.ip)))
  }

  // The original goes to the backup before resolv.conf is written.
  function DnsSet(p: Proc): Ran {
    var r := Try(p, Full(WriteBackup));
    if !r.ok then r else Try(r.p, Full(WriteResolv))
  }

  function DnsRestore(p: Proc): Proc {
    if p.w.full.backup.None? then p
    else Remove(Remove(p, Full(RestoreResolv)), Full(RemoveBackup))
  }

  // ---- Split state --------------------------------------------------------

  // split.Config for either mode.
  datatype SplitConfig =
    | TunnelMode(hasV6: bool, nets: seq<Prefix>)
    | PlainMode(dev: string, hasGateway6: bool, nets: seq<Prefix>)

  function TunnelConfigOf(fam: Family, nets: seq<Prefix>): TunnelConfig {
    TunnelConfig(fam, IFACE, OfFamily(Coalesced(nets), fam), Some(Resolver(fam)))
  }

  function ScriptFor(fam: Family, c: SplitConfig): NftTable {
    match c
    case TunnelMode(_, nets) => Tunnel(TunnelChains(TunnelConfigOf(fam, nets)))
    case PlainMode(_, _, nets) => Plain(OfFamily(Coalesced(nets), fam))
  }

  // installRoutes: rules tolerate ones already there, routes replace.
  function RuleSteps(): seq<Step> {
    [Fam(V4, AddMainRule), Fam(V4, AddTableRule), Fam(V6, AddMainRule), Fam(V6, AddTableRule)]
  }

  function RouteSteps(c: SplitConfig): seq<Step> {
    match c
    case TunnelMode(hasV6, _) =>
      [Fam(V4, AddDnsRule(Resolver(V4))), Fam(V6, AddDnsRule(Resolver(V6))),
       Fam(V4, LastRoute), Fam(V6, LastRoute), Fam(V4, TunnelRoute)]
      + if hasV6 then [Fam(V6, TunnelRoute)] else []
    case PlainMode(dev, hasGateway6, _) =>
      [Fam(V4, DelDnsRule), Fam(V6, DelDnsRule), Fam(V4, PlainRoute(dev)),
       Fam(V6, if hasGateway6 then PlainRoute(dev) else RefuseRoute)]
  }

  // delRule, delRoute, nftDel.
  function ClearSteps(): seq<Step> {
    [Fam(V4, DelDnsRule), Fam(V6, DelDnsRule),
     Fam(V4, DelMainRule), Fam(V4, DelTableRule), Fam(V6, DelMainRule), Fam(V6, DelTableRule),
     Fam(V4, FlushTable), Fam(V6, FlushTable), Fam(V4, DeleteNft), Fam(V6, DeleteNft)]
  }

  function RestoreMark(p: Proc, prior: Option<bool>): Proc {
    if prior == Some(false) && !p.w.otherWg then Remove(p, WriteMark(false)) else p
  }

  // The state file goes last but for the sysctl.
  function ClearWith(p: Proc, steps: seq<Step>, prior: Option<bool>): Proc {
    RestoreMark(Remove(RemoveAll(p, steps), RemoveState), prior)
  }

  function ClearSplit(p: Proc, prior: Option<bool>): Proc {
    ClearWith(p, ClearSteps(), prior)
  }

  // The value to put back: the one an earlier session recorded, or today's.
  function PriorMark(sp: SplitState): Option<bool> {
    if sp.file.Some? && sp.file.value.mark.Some? then sp.file.value.mark else Some(sp.mark)
  }

  // One split session taking over from another.
  predicate ReplacesSplit(sp: SplitState, c: SplitConfig) {
    sp.file.Some? && sp.file.value.split && c.TunnelMode?
  }

  // A failed install must not strip the split session it replaces.
  function Rollback(p: Proc, takingOver: bool, prior: Option<bool>): Proc {
    if takingOver then p else ClearSplit(p, prior)
  }

  function LoadStep(c: SplitConfig): (s: Step)
    ensures s.LoadNft?
  {
    LoadNft(ScriptFor(V4, c), ScriptFor(V6, c))
  }

  function InOrder(load: Step, rules: seq<Step>, routes: seq<Step>): seq<Step> {
    [load] + rules + routes + [WriteMark(true)]
  }

  function StepsAfter(load: Step, c: SplitConfig): seq<Step> {
    InOrder(load, RuleSteps(), RouteSteps(c))
  }

  function UpSteps(c: SplitConfig): seq<Step> {
    StepsAfter(LoadStep(c), c)
  }

  function Raise(p: Proc, steps: seq<Step>, takingOver: bool, prior: Option<bool>): Ran {
    var r := InstallAll(p, steps);
    if r.ok then r else Ran(Rollback(r.p, takingOver, prior), false)
  }

  function SplitUp(p: Proc, c: SplitConfig): Ran {
    var prior := PriorMark(p.w.split);
    var r0 := Try(p, MakeCgroup);
    if !r0.ok then r0
    else
      // The state file is written before anything it answers for.
      var r1 := Try(r0.p, WriteState(SplitFile(c.TunnelMode?, prior)));
      if !r1.ok then r1 else Raise(r1.p, UpSteps(c), ReplacesSplit(p.w.split, c), prior)
  }

  function SplitDown(p: Proc): Proc {
    if p.w.split.file.None? then p else ClearSplit(p, p.w.split.file.value.mark)
  }

  // ---- Commands -----------------------------------------------------------

  function Teardown(p: Proc): Proc {
    Remove(RouteUnset(DnsRestore(Remove(p, Full(KillSwitchDown))), p.w.saved.endpoint), WgDown)
  }

  function Disconnect(p: Proc): Proc {
    Teardown(SplitDown(p))
  }

  datatype Opts = Opts(
    relay: string,
    via: string,
    avoid: string,
    avoidVia: string,
    retry: bool,
    refresh: bool,
    split: bool)

  // Everything a connect learns from outside: whether it may run at all, what
  // the relay list looks like now, the dice, the split set, the plain gateway.
  datatype Outside = Outside(
    ready: bool,
    lockdown: bool,
    stale: bool,
    fetched: Option<seq<Relay>>,
    dieExit: nat,
    dieEntry: nat,
    nets: seq<Prefix>,
    gateway: Option<string>,
    hasGateway6: bool)

  datatype Refreshed = Refreshed(p: Proc, cfg: Saved)

  function RefreshRelays(p: Proc, o: Opts, e: Outside): Refreshed {
    if (o.refresh || e.stale || p.w.saved.relays == []) && e.fetched.Some? then
      var cfg := p.w.saved.(relays := e.fetched.value);
      Refreshed(Install(p, SaveConfig(cfg)), cfg)
    else Refreshed(p, p.w.saved)
  }

  // The session to build: the configuration to save, and the peer.
  datatype Dial = Dial(cfg: Saved, key: nat)

  function ChooseRelays(cfg: Saved, o: Opts, e: Outside): (r: Option<Dial>)
    ensures r.Some? ==>
      var v := r.value.cfg;
      && v.endpoint.Some? && v.split == o.split && v.query == o.relay && v.via == o.via
      && v.hasV6 == cfg.hasV6 && v.relays == cfg.relays
      && PickExcept(cfg.relays, o.relay, o.avoid, e.dieExit).Some?
      && v.relay == PickExcept(cfg.relays, o.relay, o.avoid, e.dieExit).value.hostname
  {
    match PickExcept(cfg.relays, o.relay, o.avoid, e.dieExit)
    case None => None
    case Some(exit) =>
      var dialed := cfg.(relay := exit.hostname, query := o.relay, via := o.via, split := o.split);
      if o.via == "" then
        Some(Dial(dialed.(entry := "", endpoint := Some(Endpoint(exit.ip, WIREGUARD_PORT))), exit.key))
      else
        match PickExcept(cfg.relays, o.via, o.avoidVia, e.dieEntry)
        case None => None
        case Some(entry) =>
          if exit.multihopPort == 0 then None
          else
            var at := Endpoint(entry.ip, exit.multihopPort);
            Some(Dial(dialed.(entry := entry.hostname, endpoint := Some(at)), exit.key))
  }

  // An unattended redial that would rebuild the very session that is up.
  predicate SameSession(w: World, cfg: Saved, o: Opts, d: Dial) {
    && o.retry
    && d.cfg.relay == cfg.relay && d.cfg.entry == cfg.entry && d.cfg.endpoint == cfg.endpoint
    && w.full.iface == Some(d.key)
  }

  function ClearTheWay(p: Proc, split: bool): Proc {
    if split then Teardown(p)
    else if p.w.full.iface.Some? || p.w.full.killSwitch then Disconnect(p)
    else p
  }

  function EstablishSplit(p: Proc, e: Outside, d: Dial): Ran {
    var r1 := Try(p, Full(WgUp(d.key)));
    if !r1.ok then r1
    else
      var r2 := SplitUp(r1.p, TunnelMode(d.cfg.hasV6, e.nets));
      if !r2.ok then Ran(Remove(r2.p, WgDown), false) else r2
  }

  // A full session once the routes are in: DNS, the kill-switch, and the plain
  // split set, whose failure is only reported. A process that stops returns nothing.
  function FinishFull(p: Proc, e: Outside, d: Dial): Ran {
    var r3 := DnsSet(p);
    if !r3.ok then Ran(Remove(RouteUnset(r3.p, d.cfg.endpoint), WgDown), false)
    else
      var r4 := Try(r3.p, Full(KillSwitchUp));
      if !r4.ok then Ran(Remove(RouteUnset(DnsRestore(r4.p), d.cfg.endpoint), WgDown), false)
      else if e.gateway.None? then Ran(r4.p, true)
      else
        var q := SplitUp(r4.p, PlainMode(e.gateway.value, e.hasGateway6, e.nets)).p;
        Ran(q, q.alive)
  }

  function EstablishFull(p: Proc, e: Outside, d: Dial): Ran
    requires d.cfg.endpoint.Some?
  {
    var r1 := Try(p, Full(WgUp(d.key)));
    if !r1.ok then r1
    else
      var r2 := RouteSet(r1.p, d.cfg.endpoint.value.ip);
      if !r2.ok then Ran(Remove(r2.p, WgDown), false) else FinishFull(r2.p, e, d)
  }

  function Establish(p: Proc, o: Opts, e: Outside, d: Dial): Ran
    requires d.cfg.endpoint.Some?
  {
    if o.split then EstablishSplit(p, e, d) else EstablishFull(p, e, d)
  }

  // The deferred rollback: a failed connect must not flip the saved mode.
  function KeepMode(r: Ran, cfg: Saved, before: bool): Ran {
    if r.ok || cfg.split == before then r
    else Ran(Install(r.p, SaveConfig(cfg.(split := before))), false)
  }

  function Build(p: Proc, o: Opts, e: Outside, d: Dial, before: bool): Ran
    requires d.cfg.endpoint.Some?
  {
    var s := Try(ClearTheWay(p, o.split), SaveConfig(d.cfg));
    if !s.ok then s else KeepMode(Establish(s.p, o, e, d), d.cfg, before)
  }

  function Connect(p: Proc, o: Opts, e: Outside): Ran {
    if (o.split && e.lockdown) || !e.ready then Ran(p, false)
    else
      var f := RefreshRelays(p, o, e);
      match ChooseRelays(f.cfg, o, e)
      case None => Ran(f.p, false)
      case Some(d) =>
        if SameSession(f.p.w, f.cfg, o, d) then Ran(f.p, f.p.alive)
        else Build(f.p, o, e, d, p.w.saved.split)
  }

  // What the probe and the handshake clock say.
  datatype Health = Health(recent: bool, answers: bool)

  predicate TunnelDead(w: World, h: Health) {
    if w.full.iface.None? then w.full.killSwitch else !h.recent && !h.answers
  }

  function ReconnectOpts(s: Saved, ifDead: bool): Opts {
    Opts(if s.query == "" then s.relay else s.query,
         if s.via == "" then s.entry else s.via,
         s.relay, s.entry, ifDead, ifDead, s.split)
  }

  function Reconnect(p: Proc, ifDead: bool, h: Health, e: Outside): Ran {
    if ifDead && !TunnelDead(p.w, h) then Ran(p, true)
    else if !e.ready || ReconnectOpts(p.w.saved, ifDead).relay == "" then Ran(p, false)
    else Connect(p, ReconnectOpts(p.w.saved, ifDead), e)
  }

  // The options of mvad connect itself.
  function ConnectOpts(relay: string, via: string, split: bool): Opts {
    Opts(relay, via, "", "", false, false, split)
  }

  datatype Command =
    | DoConnect(relay: string, via: string, split: bool, e: Outside)
    | DoReconnect(ifDead: bool, h: Health, e: Outside)
    | DoDisconnect

  function RunCommand(p: Proc, c: Command): Ran {
    match c
    case DoConnect(relay, via, split, e) => Connect(p, ConnectOpts(relay, via, split), e)
    case DoReconnect(ifDead, h, e) => Reconnect(p, ifDead, h, e)
    case DoDisconnect => Ran(Disconnect(p), Disconnect(p).alive)
  }

  // One process from start to end, or to where it stopped.
  function Execute(w: World, c: Command, plan: seq<Fault>): Ran {
    RunCommand(Proc(w, plan, true), c)
  }

  datatype Turn = Turn(c: Command, plan: seq<Fault>)

  // Any number of commands, one after another under the lock.
  function RunAll(w: World, turns: seq<Turn>): World
    decreases |turns|
  {
    if turns == [] then w
    else
      var last := turns[|turns| - 1];
      Execute(RunAll(w, turns[..|turns| - 1]), last.c, last.plan).p.w
  }
}
