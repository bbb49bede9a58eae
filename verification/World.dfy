// The machine as mvad leaves it between commands, and the single steps that
// change it. A step either happens whole or not at all.
module World {
  import opened Net
  import opened PrefixSets
  import opened Tables
  import opened Ranges
  import opened SplitRouting
  import opened Relays

  const IFACE := "mvad-wg0"

  // 10.64.0.1 and 2a07:e340::2, the resolvers split mode rewrites to.
  const RESOLVER4: Addr := RawAddr(V4, Byte(10) + Byte(64) + Byte(0) + Byte(1))
  const RESOLVER6: Addr := RawAddr(V6, Byte(0x2a) + Byte(0x07) + Byte(0xe3) + Byte(0x40) + Zeros(88) + Byte(2))

  function Resolver(fam: Family): (a: Addr)
    ensures a.fam == fam
  {
    match fam
    case V4 => RESOLVER4
    case V6 => RESOLVER6
  }

  lemma {:induction false} Eighths(a: seq<bool>, b: seq<bool>, c: seq<bool>, d: seq<bool>)
    requires |a| == |b| == |c| == |d| == 8
    ensures var w := a + b + c + d; w[0..8] == a && w[8..16] == b && w[16..24] == c && w[24..32] == d
  {
  }

  // 10.64.0.1
  lemma Resolver4Means()
    ensures Octet(Resolver(V4), 0) == 10 && Octet(Resolver(V4), 1) == 64
    ensures Octet(Resolver(V4), 2) == 0 && Octet(Resolver(V4), 3) == 1
  {
    Eighths(Byte(10), Byte(64), Byte(0), Byte(1));
    ValueOfByte(10);
    ValueOfByte(64);
    ValueOfByte(0);
    ValueOfByte(1);
  }

  lemma {:induction false} Parts(a: seq<bool>, b: seq<bool>, z: seq<bool>, c: seq<bool>)
    requires |a| == |b| == 16 && z == Zeros(88) && |c| == 8
    ensures var w := a + b + z + c; w[0..16] == a && w[16..32] == b && w[112..128] == Zeros(8) + c
    ensures forall i :: 2 <= i < 7 ==> (a + b + z + c)[16 * i..16 * i + 16] == Zeros(16)
  {
  }

  // 2a07:e340::2
  lemma Resolver6Means()
    ensures Group(Resolver(V6), 0) == 0x2a07 && Group(Resolver(V6), 1) == 0xe340 && Group(Resolver(V6), 7) == 2
    ensures forall i :: 2 <= i < 7 ==> Group(Resolver(V6), i) == 0
  {
    var a, b := Byte(0x2a) + Byte(0x07), Byte(0xe3) + Byte(0x40);
    assert RESOLVER6.bits == a + b + Zeros(88) + Byte(2);
    Parts(a, b, Zeros(88), Byte(2));
    ValueOfTwoBytes(0x2a, 0x07);
    ValueOfTwoBytes(0xe3, 0x40);
    ValueOfZeros(16);
    ValueOfByte(2);
    ValueOfZeros(8);
    ValueOfConcat(Zeros(8), Byte(2));
    Doublings(0);
  }

  // What dns.Set writes into resolv.conf.
  const TUNNEL_RESOLV := "nameserver 10.64.0.1\n"

  datatype Endpoint = Endpoint(ip: Addr, port: nat)

  // The part of config.json that sessions read and write.
  datatype Saved = Saved(
    relay: string,
    entry: string,
    query: string,
    via: string,
    endpoint: Option<Endpoint>,
    split: bool,
    hasV6: bool,
    relays: seq<Relay>)

  // The split state file: mode, and the src_valid_mark value found before mvad
  // first set it.
  datatype SplitFile = SplitFile(split: bool, mark: Option<bool>)

  // What belongs to a full session: the interface with its peer's key, the
  // main-table defaults through it, the host routes that keep an endpoint off
  // it, resolv.conf with its backup, and the kill-switch.
  datatype FullState = FullState(
    iface: Option<nat>,
    tunnel4: bool,
    tunnel6: bool,
    pins: set<Addr>,
    resolv: string,
    backup: Option<string>,
    killSwitch: bool)

  // What belongs to split routing, and the src_valid_mark sysctl.
  datatype SplitState = SplitState(v4: FamState, v6: FamState, file: Option<SplitFile>, mark: bool)

  // otherWg: some other WireGuard interface is live.
  datatype World = World(full: FullState, split: SplitState, saved: Saved, otherWg: bool)

  function Half(s: SplitState, fam: Family): FamState {
    match fam
    case V4 => s.v4
    case V6 => s.v6
  }

  function WithHalf(s: SplitState, fam: Family, f: FamState): SplitState {
    match fam
    case V4 => s.(v4 := f)
    case V6 => s.(v6 := f)
  }

  // Steps on a full session's state; the interface going down is a step of its
  // own, since the kernel then drops routes elsewhere too.
  datatype FullStep =
    | WgUp(key: nat)
    | Pin(ip: Addr)
    | Unpin(ip: Addr)
    | TunnelDefault(fam: Family)
    | NoTunnelDefault(fam: Family)
    | WriteBackup
    | WriteResolv
    | RestoreResolv
    | RemoveBackup
    | KillSwitchUp
    | KillSwitchDown

  function ApplyFull(s: FullStep, n: FullState): FullState {
    match s
    case WgUp(key) => n.(iface := Some(key))
    case Pin(ip) => n.(pins := n.pins + {ip})
    case Unpin(ip) => n.(pins := n.pins - {ip})
    case TunnelDefault(fam) => if fam == V4 then n.(tunnel4 := true) else n.(tunnel6 := true)
    case NoTunnelDefault(fam) => if fam == V4 then n.(tunnel4 := false) else n.(tunnel6 := false)
    case WriteBackup => n.(backup := Some(n.resolv))
    case WriteResolv => n.(resolv := TUNNEL_RESOLV)
    case RestoreResolv => if n.backup.Some? then n.(resolv := n.backup.value) else n
    case RemoveBackup => n.(backup := None)
    case KillSwitchUp => n.(killSwitch := true)
    case KillSwitchDown => n.(killSwitch := false)
  }

  // Steps on one family's rules, table 60 and nft table.
  datatype FamStep =
    | DeleteNft
    | AddDnsRule(to: Addr)
    | AddMainRule
    | AddTableRule
    | DelDnsRule
    | DelMainRule
    | DelTableRule
    | LastRoute
    | TunnelRoute
    | PlainRoute(dev: string)
    | RefuseRoute
    | FlushTable

  function Replace(f: FamState, fam: Family, metric: nat, t: Target): FamState {
    f.(table60 := f.table60[RouteKey(Anywhere(fam), metric) := t])
  }

  // Adding a rule that is there is no error; deleting one by priority takes the first.
  function ApplyFam(s: FamStep, fam: Family, f: FamState): FamState {
    match s
    case DeleteNft => f.(nft := None)
    case AddDnsRule(to) => if to in f.dnsRules then f else f.(dnsRules := f.dnsRules + [to])
    case AddMainRule => f.(mainRule := true)
    case AddTableRule => f.(tableRule := true)
    case DelDnsRule => if f.dnsRules == [] then f else f.(dnsRules := f.dnsRules[1..])
    case DelMainRule => f.(mainRule := false)
    case DelTableRule => f.(tableRule := false)
    case LastRoute => Replace(f, fam, LAST_METRIC, Unreachable)
    case TunnelRoute => Replace(f, fam, BaseMetric(fam), Dev(IFACE))
    case PlainRoute(dev) => Replace(f, fam, BaseMetric(fam), Dev(dev))
    case RefuseRoute => Replace(f, fam, BaseMetric(fam), Unreachable)
    case FlushTable => f.(table60 := map[])
  }

  datatype Step =
    | Full(full: FullStep)
    | WgDown
    | SaveConfig(cfg: Saved)
    | Fam(fam: Family, step: FamStep)
    | MakeCgroup
    | WriteState(file: SplitFile)
    | RemoveState
    | LoadNft(nft4: NftTable, nft6: NftTable)
    | WriteMark(value: bool)

  // Steps the system itself turns down: a second interface of the name, a host
  // route that exists, a route through an interface that does not.
  predicate Possible(s: Step, w: World) {
    match s
    case Full(WgUp(_)) => w.full.iface.None?
    case Full(Pin(ip)) => ip !in w.full.pins
    case Full(TunnelDefault(_)) => w.full.iface.Some?
    case Fam(_, TunnelRoute) => w.full.iface.Some?
    case _ => true
  }

  function ApplySplit(s: Step, sp: SplitState): SplitState {
    match s
    case Fam(fam, step) => WithHalf(sp, fam, ApplyFam(step, fam, Half(sp, fam)))
    case WriteState(file) => sp.(file := Some(file))
    case RemoveState => sp.(file := None)
    case LoadNft(n4, n6) => sp.(v4 := sp.v4.(nft := Some(n4)), v6 := sp.v6.(nft := Some(n6)))
    case WriteMark(value) => sp.(mark := value)
    case _ => sp
  }

  // Routes through the interface, gone with it.
  function DropRoutes(f: FamState): FamState {
    f.(table60 := Without(IFACE, f.table60))
  }

  function Apply(s: Step, w: World): World {
    match s
    case Full(step) => w.(full := ApplyFull(step, w.full))
    case WgDown =>
      w.(full := w.full.(iface := None, tunnel4 := false, tunnel6 := false),
         split := w.split.(v4 := DropRoutes(w.split.v4), v6 := DropRoutes(w.split.v6)))
    case SaveConfig(cfg) => w.(saved := cfg)
    case _ => w.(split := ApplySplit(s, w.split))
  }

  // ---- Faults -------------------------------------------------------------

  // What befalls the next step of a process: it goes through, it fails without
  // effect, or the process stops before it.
  datatype Fault = Go | Fail | Stop

  // A process at work: the world it changes, the faults to come (none once the
  // list runs out), and whether it still runs.
  datatype Proc = Proc(w: World, plan: seq<Fault>, alive: bool)

  function NextFault(p: Proc): Fault {
    if p.plan == [] then Go else p.plan[0]
  }

  function Advance(p: Proc): Proc {
    if p.plan == [] then p else p.(plan := p.plan[1..])
  }

  predicate Succeeds(p: Proc, s: Step) {
    p.alive && NextFault(p) == Go && Possible(s, p.w)
  }

  // An installing step. Once the process has stopped nothing happens any more.
  function Install(p: Proc, s: Step): Proc {
    if !p.alive then p
    else if NextFault(p) == Stop then p.(alive := false)
    else if Succeeds(p, s) then Advance(p).(w := Apply(s, p.w))
    else Advance(p)
  }

  // A removing step: idempotent, and it does not fail.
  function Remove(p: Proc, s: Step): Proc {
    if !p.alive then p
    else if NextFault(p) == Stop then p.(alive := false)
    else Advance(p).(w := Apply(s, p.w))
  }

  datatype Ran = Ran(p: Proc, ok: bool)

  function Try(p: Proc, s: Step): Ran {
    Ran(Install(p, s), Succeeds(p, s))
  }

  // Installs in order, up to the first that does not go through.
  function InstallAll(p: Proc, steps: seq<Step>): Ran
    decreases |steps|
  {
    if steps == [] then Ran(p, true)
    else if Succeeds(p, steps[0]) then InstallAll(Install(p, steps[0]), steps[1..])
    else Ran(Install(p, steps[0]), false)
  }

  function RemoveAll(p: Proc, steps: seq<Step>): Proc
    decreases |steps|
  {
    if steps == [] then p else RemoveAll(Remove(p, steps[0]), steps[1..])
  }

  predicate NoStop(plan: seq<Fault>) {
    Stop !in plan
  }
}
