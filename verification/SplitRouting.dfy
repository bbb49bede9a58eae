// Split routing as a function of one packet: the nft chains that tag it and
// rewrite its DNS, the policy rules and tables that route it, and the guard
// chain that has the last word.
module SplitRouting {
  import opened Net
  import opened PrefixSets
  import opened Tables
  import opened Ranges

  // ---- Constants ----------------------------------------------------------

  const DNS_PRIORITY := 97
  const MAIN_PRIORITY := 98
  const TABLE_PRIORITY := 99
  const LAST_METRIC := 4294967295

  // The metric `ip route` uses when none is given.
  function BaseMetric(fam: Family): nat {
    match fam
    case V4 => 0
    case V6 => 1024
  }

  // ---- nft chains as data -------------------------------------------------

  datatype Proto = Udp | Tcp | OtherProto

  datatype Packet = Packet(
    src: Addr,
    dst: Addr,
    proto: Proto,
    dport: nat,
    fromHost: bool,   // sent by this machine; otherwise forwarded
    inCgroup: bool,   // by a process in the split cgroup
    reply: bool,      // conntrack direction
    mark: bool,
    ctMark: bool)

  datatype Match =
    | IsReply
    | InCgroup
    | Marked
    | CtMarked
    | SrcIn(nets: seq<Prefix>)
    | DstIn(nets: seq<Prefix>)
    | DnsOver(proto: Proto)
    | LeavesBy(dev: string)

  datatype Statement = Return | Accept | Drop | SetMark | SetMarkReturn | SaveMark | Dnat(to: Addr)

  datatype NftRule = NftRule(conditions: seq<Match>, statement: Statement)

  ghost predicate Meets(m: Match, p: Packet, oif: string) {
    match m
    case IsReply => p.reply
    case InCgroup => p.inCgroup
    case Marked => p.mark
    case CtMarked => p.ctMark
    case SrcIn(nets) => Denotes(nets, p.src)
    case DstIn(nets) => Denotes(nets, p.dst)
    case DnsOver(proto) => p.proto == proto && p.dport == 53
    case LeavesBy(dev) => oif == dev
  }

  ghost predicate MeetsAll(ms: seq<Match>, p: Packet, oif: string) {
    forall m :: m in ms ==> Meets(m, p, oif)
  }

  datatype Verdict = Passed(packet: Packet) | Dropped

  // What a rule that applies does: end the chain, or change the packet and go on.
  datatype Effect = Ends(verdict: Verdict) | GoesOn(packet: Packet)

  // Return ends a base chain with its accept policy.
  function Perform(s: Statement, p: Packet): Effect {
    match s
    case Return => Ends(Passed(p))
    case Accept => Ends(Passed(p))
    case Drop => Ends(Dropped)
    case SetMark => GoesOn(p.(mark := true))
    case SetMarkReturn => Ends(Passed(p.(mark := true)))
    case SaveMark => GoesOn(p.(ctMark := true))
    case Dnat(to) => Ends(Passed(p.(dst := to)))
  }

  // Rules run top to bottom.
  ghost function RunChain(rules: seq<NftRule>, p: Packet, oif: string): Verdict {
    if rules == [] then Passed(p)
    else if !MeetsAll(rules[0].conditions, p, oif) then RunChain(rules[1..], p, oif)
    else
      match Perform(rules[0].statement, p)
      case Ends(v) => v
      case GoesOn(q) => RunChain(rules[1..], q, oif)
  }

  datatype Chains = Chains(
    output: seq<NftRule>,
    prerouting: seq<NftRule>,
    dnsout: seq<NftRule>,
    dnspre: seq<NftRule>,
    guard: seq<NftRule>,
    guardfwd: seq<NftRule>)

  // What the tunnel-mode script of one family is built from.
  datatype TunnelConfig = TunnelConfig(fam: Family, iface: string, nets: seq<Prefix>, dns: Option<Addr>)

  function Rewrites(dns: Option<Addr>): seq<NftRule> {
    if dns.None? then []
    else [NftRule([Marked, DnsOver(Udp)], Dnat(dns.value)), NftRule([Marked, DnsOver(Tcp)], Dnat(dns.value))]
  }

  function TunnelChains(c: TunnelConfig): Chains {
    var guard := [
      NftRule([LeavesBy(c.iface)], Accept),
      NftRule([DstIn(c.nets)], Accept),
      NftRule([DstIn(ListedRanges(c.fam))], Accept),
      NftRule([Marked], Drop)];
    Chains(
      output := [
        NftRule([IsReply], Return),
        NftRule([InCgroup], SetMark),
        NftRule([Marked], SaveMark)],
      prerouting := [
        NftRule([CtMarked], SetMarkReturn),
        NftRule([IsReply], Return),
        NftRule([SrcIn(c.nets)], SetMark),
        NftRule([Marked], SaveMark)],
      dnsout :=
        if c.dns.None? then []
        else [NftRule([DstIn(c.nets)], Accept), NftRule([DstIn([Loopback(c.fam)])], Accept)] + Rewrites(c.dns),
      dnspre :=
        if c.dns.None? then [] else [NftRule([DstIn(c.nets)], Accept)] + Rewrites(c.dns),
      guard := [NftRule([LeavesBy("lo")], Accept)] + guard,
      guardfwd := guard)
  }

  // ---- Policy routing -----------------------------------------------------

  datatype Target = Dev(name: string) | Unreachable

  // One family's share of the split state: its three kinds of rule, table 60
  // and its nft table. A plain-mode table is kept opaque.
  datatype NftTable = Tunnel(chains: Chains) | Plain(nets: seq<Prefix>)

  datatype FamState = FamState(
    dnsRules: seq<Addr>,
    mainRule: bool,
    tableRule: bool,
    table60: Table<Target>,
    nft: Option<NftTable>)

  const BLANK := FamState([], false, false, map[], None)

  datatype TableName = LocalTable | MainTable | SplitTable

  datatype Rule = Rule(priority: nat, needsMark: bool, to: Option<Addr>, table: TableName, suppressDefault: bool)

  function DnsRuleList(to: seq<Addr>): seq<Rule> {
    if to == [] then [] else [Rule(DNS_PRIORITY, true, Some(to[0]), SplitTable, false)] + DnsRuleList(to[1..])
  }

  // The rule list the kernel walks, in priority order.
  function RuleList(f: FamState): seq<Rule> {
    [Rule(0, false, None, LocalTable, false)]
    + DnsRuleList(f.dnsRules)
    + (if f.mainRule then [Rule(MAIN_PRIORITY, true, None, MainTable, true)] else [])
    + (if f.tableRule then [Rule(TABLE_PRIORITY, true, None, SplitTable, false)] else [])
    + [Rule(32766, false, None, MainTable, false)]
  }

  // Each rule has its own priority, and the list is in that order: 97 for the
  // resolver, 98 for the main table without its defaults, 99 for table 60.
  function PriorityOf(r: Rule): nat {
    match r.table
    case LocalTable => 0
    case SplitTable => if r.to.Some? then 97 else 99
    case MainTable => if r.suppressDefault then 98 else 32766
  }

  lemma {:induction false} DnsRulesPriority(to: seq<Addr>)
    ensures forall i :: 0 <= i < |DnsRuleList(to)| ==>
      DnsRuleList(to)[i].priority == 97 == PriorityOf(DnsRuleList(to)[i])
  {
    if to != [] {
      DnsRulesPriority(to[1..]);
    }
  }

  lemma RulesInOrder(f: FamState)
    ensures var rs := RuleList(f);
            && (forall i :: 0 <= i < |rs| ==> rs[i].priority == PriorityOf(rs[i]))
            && (forall i, j :: 0 <= i < j < |rs| ==> rs[i].priority <= rs[j].priority)
  {
    DnsRulesPriority(f.dnsRules);
  }

  // Everything outside mvad a packet's route depends on.
  datatype Machine = Machine(local: Table<Target>, main: Table<Target>)

  datatype Source = FromLocal | FromMainSpecific | FromMainDefault | FromSplitTable

  datatype Decision = Via(dev: string, source: Source) | NoWay

  function TableOf(n: TableName, m: Machine, f: FamState): Table<Target> {
    match n
    case LocalTable => m.local
    case MainTable => m.main
    case SplitTable => f.table60
  }

  function SourceOf(n: TableName, len: nat): Source {
    match n
    case LocalTable => FromLocal
    case MainTable => if len == 0 then FromMainDefault else FromMainSpecific
    case SplitTable => FromSplitTable
  }

  // A rule that does not apply, finds nothing or finds only what it suppresses
  // passes the packet on; an unreachable route ends the walk.
  ghost function Walk(rules: seq<Rule>, m: Machine, f: FamState, mark: bool, dst: Addr): Decision {
    if rules == [] then NoWay
    else
      var r := rules[0];
      var k := Lookup(TableOf(r.table, m, f), dst);
      if (r.needsMark && !mark) || (r.to.Some? && r.to.value != dst)
         || k.None? || (r.suppressDefault && k.value.dst.len == 0)
      then Walk(rules[1..], m, f, mark, dst)
      else
        match TableOf(r.table, m, f)[k.value]
        case Unreachable => NoWay
        case Dev(d) => Via(d, SourceOf(r.table, k.value.dst.len))
  }

  ghost function Route(m: Machine, f: FamState, mark: bool, dst: Addr): Decision {
    Walk(RuleList(f), m, f, mark, dst)
  }

  // ---- The whole path of a packet -----------------------------------------

  datatype Fate =
    | Sent(dev: string, source: Source, dst: Addr)
    | Refused             // no route, or an unreachable one
    | Guarded             // dropped by the guard chain

  const NO_CHAINS := Chains([], [], [], [], [], [])

  function ChainsOf(f: FamState): Chains {
    match f.nft
    case Some(Tunnel(cs)) => cs
    case _ => NO_CHAINS
  }

  // The packet as routing sees it: tagged, then with its destination rewritten.
  // None when a chain drops it; the tagging and DNS chains never do.
  ghost function Tagged(f: FamState, p: Packet): Verdict {
    RunChain(if p.fromHost then ChainsOf(f).output else ChainsOf(f).prerouting, p, "")
  }

  ghost function Rewritten(f: FamState, p: Packet): Verdict {
    RunChain(if p.fromHost then ChainsOf(f).dnsout else ChainsOf(f).dnspre, p, "")
  }

  ghost predicate Guard(f: FamState, p: Packet, dev: string) {
    RunChain(if p.fromHost then ChainsOf(f).guard else ChainsOf(f).guardfwd, p, dev).Passed?
  }

  // The device the guard chain is shown. The marking chain is of type route, so
  // the kernel routes a packet it marked again when that chain is through, before
  // the guard at priority 0; seen None says so. Some(d) is the other reading: the
  // guard still sees the device d the packet had when it was first routed.
  ghost function Deliver(m: Machine, f: FamState, p: Packet, seen: Option<string>): Fate {
    match Route(m, f, p.mark, p.dst)
    case NoWay => if seen.Some? && !Guard(f, p, seen.value) then Guarded else Refused
    case Via(d, src) =>
      // A forwarded packet for this machine goes to input, past no guard.
      if src == FromLocal && !p.fromHost then Sent(d, src, p.dst)
      else if Guard(f, p, if seen.Some? then seen.value else d) then Sent(d, src, p.dst)
      else Guarded
  }

  ghost function FateSeen(m: Machine, f: FamState, p: Packet, seen: Option<string>): Fate {
    match Tagged(f, p)
    case Dropped => Guarded
    case Passed(p1) =>
      match Rewritten(f, p1)
      case Dropped => Guarded
      case Passed(p2) => Deliver(m, f, p2, seen)
  }

  ghost function FateOf(m: Machine, f: FamState, p: Packet): Fate {
    FateSeen(m, f, p, None)
  }

  // The other reading: a local packet is routed as it comes, and the guard goes
  // by that device. Forwarded packets are routed once, after their marking.
  ghost function EarlyFate(m: Machine, f: FamState, p: Packet): Fate {
    if !p.fromHost then FateOf(m, f, p)
    else
      match Route(m, f, p.mark, p.dst)
      case NoWay => Refused
      case Via(d, _) => FateSeen(m, f, p, Some(d))
  }

  // ---- States that keep the split set in ----------------------------------

  // Marked packets never reach the main table's default route.
  ghost predicate FailsClosed(fam: Family, f: FamState) {
    && f.tableRule
    && RouteKey(Anywhere(fam), LAST_METRIC) in f.table60
  }

  // Table 60 holds only defaults, each through iface or unreachable.
  ghost predicate OnlyTunnel(fam: Family, iface: string, t: Table<Target>) {
    forall k :: k in t ==> k.dst == Anywhere(fam) && t[k] in {Dev(iface), Unreachable}
  }

  // What a finished split.Up leaves behind in tunnel mode.
  ghost predicate Established(c: TunnelConfig, f: FamState) {
    && f.dnsRules == (if c.dns.Some? then [c.dns.value] else [])
    && f.mainRule
    && FailsClosed(c.fam, f)
    && OnlyTunnel(c.fam, c.iface, f.table60)
    && f.nft == Some(Tunnel(TunnelChains(c)))
    && (c.dns.Some? ==> c.dns.value.fam == c.fam)
  }

  // The tunnel default sits in table 60 with the metric that beats the last resort.
  ghost predicate TunnelRouted(c: TunnelConfig, f: FamState) {
    var k := RouteKey(Anywhere(c.fam), BaseMetric(c.fam));
    k in f.table60 && f.table60[k] == Dev(c.iface)
  }

  // No route of t leaves by iface.
  ghost predicate GoneFrom(iface: string, t: Table<Target>) {
    forall k :: k in t ==> t[k] != Dev(iface)
  }

  ghost predicate IsLocal(m: Machine, a: Addr) {
    Lookup(m.local, a).Some?
  }

  // Some route of the main table other than its defaults wins for a.
  ghost predicate MainClaims(m: Machine, a: Addr) {
    Lookup(m.main, a).Some? && Lookup(m.main, a).value.dst.len > 0
  }

  // ---- Theorems -----------------------------------------------------------

  lemma DefaultCoversAll(fam: Family, a: Addr)
    requires a.fam == fam
    ensures Contains(Anywhere(fam), a)
  {
    assert a.bits[..0] == Anywhere(fam).addr.bits[..0] == [];
  }

  // Walking past, or stopping at, the first rule.
  lemma {:induction false} FirstPolicy(r: Rule, rest: seq<Rule>, m: Machine, f: FamState, mark: bool, dst: Addr)
    ensures (r.needsMark && !mark) || (r.to.Some? && r.to.value != dst) ==>
              Walk([r] + rest, m, f, mark, dst) == Walk(rest, m, f, mark, dst)
    ensures r == Rule(DNS_PRIORITY, true, Some(dst), SplitTable, false) && mark && Lookup(f.table60, dst).Some? ==>
              Walk([r] + rest, m, f, mark, dst) == AskSplitTable(f, dst)
  {
    assert ([r] + rest)[1..] == rest;
  }

  // Skipping rules that name another destination.
  lemma {:induction false} DnsRulesSkip(to: seq<Addr>, rest: seq<Rule>, m: Machine, f: FamState, mark: bool, dst: Addr)
    requires dst !in to || !mark
    ensures Walk(DnsRuleList(to) + rest, m, f, mark, dst) == Walk(rest, m, f, mark, dst)
  {
    if to == [] {
      assert DnsRuleList(to) + rest == rest;
    } else {
      var tail := DnsRuleList(to[1..]) + rest;
      var r := Rule(DNS_PRIORITY, true, Some(to[0]), SplitTable, false);
      assert DnsRuleList(to) + rest == [r] + tail;
      FirstPolicy(r, tail, m, f, mark, dst);
      DnsRulesSkip(to[1..], rest, m, f, mark, dst);
    }
  }

  // A marked packet for an address with its own rule asks table 60 next.
  lemma {:induction false} DnsRulesHit(to: seq<Addr>, rest: seq<Rule>, m: Machine, f: FamState, dst: Addr)
    requires dst in to && Lookup(f.table60, dst).Some?
    ensures Walk(DnsRuleList(to) + rest, m, f, true, dst) == AskSplitTable(f, dst)
  {
    var tail := DnsRuleList(to[1..]) + rest;
    var r := Rule(DNS_PRIORITY, true, Some(to[0]), SplitTable, false);
    assert DnsRuleList(to) + rest == [r] + tail;
    FirstPolicy(r, tail, m, f, true, dst);
    if to[0] != dst {
      DnsRulesHit(to[1..], rest, m, f, dst);
    }
  }

  ghost function AskSplitTable(f: FamState, dst: Addr): Decision {
    var k := Lookup(f.table60, dst);
    if k.None? then NoWay
    else
      match f.table60[k.value]
      case Unreachable => NoWay
      case Dev(d) => Via(d, FromSplitTable)
  }

  lemma SplitTableAnswers(fam: Family, f: FamState, dst: Addr)
    requires FailsClosed(fam, f) && dst.fam == fam
    ensures Lookup(f.table60, dst).Some?
  {
    DefaultCoversAll(fam, dst);
    LookupMisses(f.table60, dst);
  }

  // Where every marked packet is routed, for every main table.
  lemma MarkedRoute(fam: Family, m: Machine, f: FamState, dst: Addr)
    requires FailsClosed(fam, f) && dst.fam == fam
    ensures Route(m, f, true, dst) == MarkedDecision(m, f, dst)
  {
    SplitTableAnswers(fam, f, dst);
    AnsweredRoute(m, f, dst);
  }

  // This machine first; then table 60 where the resolver's rule names the target
  // or no specific main route does; else that route.
  ghost function MarkedDecision(m: Machine, f: FamState, dst: Addr): Decision {
    if IsLocal(m, dst) then
      match m.local[Lookup(m.local, dst).value]
      case Unreachable => NoWay
      case Dev(d) => Via(d, FromLocal)
    else if dst in f.dnsRules || !f.mainRule || !MainClaims(m, dst) then AskSplitTable(f, dst)
    else
      match m.main[Lookup(m.main, dst).value]
      case Unreachable => NoWay
      case Dev(d) => Via(d, FromMainSpecific)
  }

  lemma AnsweredRoute(m: Machine, f: FamState, dst: Addr)
    requires f.tableRule && Lookup(f.table60, dst).Some?
    ensures Route(m, f, true, dst) == MarkedDecision(m, f, dst)
  {
    var plain := [Rule(32766, false, None, MainTable, false)];
    var table := [Rule(TABLE_PRIORITY, true, None, SplitTable, false)] + plain;
    var main := if f.mainRule then [Rule(MAIN_PRIORITY, true, None, MainTable, true)] + table else table;
    var all := RuleList(f);
    assert all == [Rule(0, false, None, LocalTable, false)] + (DnsRuleList(f.dnsRules) + main);
    assert all[1..] == DnsRuleList(f.dnsRules) + main;
    if !IsLocal(m, dst) {
      assert Walk(all, m, f, true, dst) == Walk(DnsRuleList(f.dnsRules) + main, m, f, true, dst);
      if dst in f.dnsRules {
        DnsRulesHit(f.dnsRules, main, m, f, dst);
      } else {
        DnsRulesSkip(f.dnsRules, main, m, f, true, dst);
        assert Walk(table, m, f, true, dst) == AskSplitTable(f, dst);
        if f.mainRule {
          assert main[1..] == table;
        }
      }
    }
  }

  // The main table's default never carries a marked packet.
  lemma MarkedNeverTakesMainDefault(fam: Family, m: Machine, f: FamState, dst: Addr)
    requires FailsClosed(fam, f) && dst.fam == fam
    ensures forall d :: Route(m, f, true, dst) != Via(d, FromMainDefault)
  {
    MarkedRoute(fam, m, f, dst);
  }

  // Which packets the tunnel-mode chains tag.
  lemma WhoIsMarked(c: TunnelConfig, f: FamState, p: Packet)
    requires f.nft == Some(Tunnel(TunnelChains(c)))
    ensures Tagged(f, p).Passed?
    ensures Tagged(f, p).packet.mark <==>
      p.mark || (if p.fromHost then p.inCgroup && !p.reply
                 else p.ctMark || (Denotes(c.nets, p.src) && !p.reply))
    ensures var q := Tagged(f, p).packet; q.(mark := p.mark, ctMark := p.ctMark) == p
  {
    if p.fromHost {
      OutputTags(c, p);
    } else {
      PreroutingTags(c, p);
    }
  }

  // A packet that passed with nothing but its marks changed.
  ghost predicate OnlyMarks(p: Packet, v: Verdict, mark: bool) {
    v.Passed? && v.packet.mark == mark && v.packet.(mark := p.mark, ctMark := p.ctMark) == p
  }

  lemma {:induction false} OutputTags(c: TunnelConfig, p: Packet)
    ensures OnlyMarks(p, RunChain(TunnelChains(c).output, p, ""), p.mark || (p.inCgroup && !p.reply))
  {
    var tail := [NftRule([InCgroup], SetMark), NftRule([Marked], SaveMark)];
    FirstRule(IsReply, Return, tail, p, "");
    assert TunnelChains(c).output == [NftRule([IsReply], Return)] + tail;
    MarkTail(InCgroup, p);
  }

  lemma {:induction false} PreroutingTags(c: TunnelConfig, p: Packet)
    ensures OnlyMarks(p, RunChain(TunnelChains(c).prerouting, p, ""),
                      p.mark || p.ctMark || (Denotes(c.nets, p.src) && !p.reply))
  {
    var tail := [NftRule([SrcIn(c.nets)], SetMark), NftRule([Marked], SaveMark)];
    var rest := [NftRule([IsReply], Return)] + tail;
    FirstRule(CtMarked, SetMarkReturn, rest, p, "");
    FirstRule(IsReply, Return, tail, p, "");
    assert TunnelChains(c).prerouting == [NftRule([CtMarked], SetMarkReturn)] + rest;
    MarkTail(SrcIn(c.nets), p);
  }

  ghost function Resume(e: Effect, rest: seq<NftRule>, oif: string): Verdict {
    if e.Ends? then e.verdict else RunChain(rest, e.packet, oif)
  }

  // Running a chain whose first rule has one condition.
  lemma {:induction false} FirstRule(m: Match, s: Statement, rest: seq<NftRule>, p: Packet, oif: string)
    ensures RunChain([NftRule([m], s)] + rest, p, oif) ==
      if !Meets(m, p, oif) then RunChain(rest, p, oif) else Resume(Perform(s, p), rest, oif)
  {
    var rules := [NftRule([m], s)] + rest;
    assert rules[1..] == rest;
    assert m in [m];
  }

  lemma {:induction false} MarkTail(tag: Match, p: Packet)
    requires tag == InCgroup || tag.SrcIn?
    ensures var v := RunChain([NftRule([tag], SetMark), NftRule([Marked], SaveMark)], p, "");
            v.Passed? && v.packet.mark == (p.mark || Meets(tag, p, ""))
            && v.packet.(mark := p.mark, ctMark := p.ctMark) == p
  {
    var save := [NftRule([Marked], SaveMark)];
    assert [NftRule([tag], SetMark), NftRule([Marked], SaveMark)] == [NftRule([tag], SetMark)] + save;
    FirstRule(tag, SetMark, save, p, "");
    assert save == save + [];
    FirstRule(Marked, SaveMark, [], p, "");
    FirstRule(Marked, SaveMark, [], p.(mark := true), "");
  }

  // Port 53 over UDP or TCP.
  predicate IsDns(p: Packet) {
    p.proto != OtherProto && p.dport == 53
  }

  // A query the rewrite leaves alone: to a tagged net, or from here to loopback.
  ghost predicate ExemptDns(c: TunnelConfig, p: Packet) {
    Denotes(c.nets, p.dst) || (p.fromHost && IsLoopback(c.fam, p.dst))
  }

  ghost function DnsTarget(c: TunnelConfig, p: Packet): Addr {
    if c.dns.Some? && p.mark && IsDns(p) && !ExemptDns(c, p) then c.dns.value else p.dst
  }

  lemma {:induction false} RewriteTail(dns: Addr, p: Packet)
    ensures RunChain(Rewrites(Some(dns)), p, "") == Passed(if p.mark && IsDns(p) then p.(dst := dns) else p)
  {
    var udp, tcp := [Marked, DnsOver(Udp)], [Marked, DnsOver(Tcp)];
    var rules := Rewrites(Some(dns));
    assert rules[1..] == [NftRule(tcp, Dnat(dns))] && rules[1..][1..] == [];
    assert MeetsAll(udp, p, "") <==> p.mark && p.proto == Udp && p.dport == 53 by {
      assert udp[0] in udp && udp[1] in udp;
    }
    assert MeetsAll(tcp, p, "") <==> p.mark && p.proto == Tcp && p.dport == 53 by {
      assert tcp[0] in tcp && tcp[1] in tcp;
    }
    var q := if p.mark && p.proto == Tcp && p.dport == 53 then p.(dst := dns) else p;
    assert RunChain(rules[1..], p, "") == Passed(q);
  }

  lemma LoopbackSet(fam: Family, a: Addr)
    ensures Denotes([Loopback(fam)], a) <==> IsLoopback(fam, a)
  {
    LoopbackMeans(fam, a);
    assert Loopback(fam) in [Loopback(fam)];
  }

  lemma RewriteIsDnsTarget(c: TunnelConfig, f: FamState, p: Packet)
    requires f.nft == Some(Tunnel(TunnelChains(c)))
    ensures Rewritten(f, p) == Passed(p.(dst := DnsTarget(c, p)))
  {
    if c.dns.Some? {
      var tail := Rewrites(c.dns);
      var loop := [NftRule([DstIn([Loopback(c.fam)])], Accept)] + tail;
      RewriteTail(c.dns.value, p);
      if p.fromHost {
        LoopbackSet(c.fam, p.dst);
        FirstRule(DstIn([Loopback(c.fam)]), Accept, tail, p, "");
        FirstRule(DstIn(c.nets), Accept, loop, p, "");
        assert TunnelChains(c).dnsout == [NftRule([DstIn(c.nets)], Accept)] + loop;
      } else {
        FirstRule(DstIn(c.nets), Accept, tail, p, "");
      }
    }
  }

  // The guard lets a marked packet out by the tunnel, by loopback when it is
  // ours, or towards a tagged or listed range.
  lemma {:induction false} GuardVerdict(c: TunnelConfig, p: Packet, dev: string)
    requires p.mark
    ensures RunChain(if p.fromHost then TunnelChains(c).guard else TunnelChains(c).guardfwd, p, dev).Passed? <==>
      || dev == c.iface
      || (p.fromHost && dev == "lo")
      || Denotes(c.nets, p.dst)
      || Listed(c.fam, p.dst)
  {
    var drop := [NftRule([Marked], Drop)];
    var listed := [NftRule([DstIn(ListedRanges(c.fam))], Accept)] + drop;
    var tagged := [NftRule([DstIn(c.nets)], Accept)] + listed;
    var fwd := [NftRule([LeavesBy(c.iface)], Accept)] + tagged;
    assert drop == drop + [];
    ListedMeans(c.fam, p.dst);
    FirstRule(Marked, Drop, [], p, dev);
    FirstRule(DstIn(ListedRanges(c.fam)), Accept, drop, p, dev);
    FirstRule(DstIn(c.nets), Accept, listed, p, dev);
    FirstRule(LeavesBy(c.iface), Accept, tagged, p, dev);
    FirstRule(LeavesBy("lo"), Accept, fwd, p, dev);
    assert TunnelChains(c).guardfwd == fwd;
    assert TunnelChains(c).guard == [NftRule([LeavesBy("lo")], Accept)] + fwd;
  }

  // Once the chains are loaded, whatever rules and routes are in yet: no marked
  // packet leaves but by the tunnel, to a tagged or listed range, or to itself.
  lemma ChainsAloneGuard(c: TunnelConfig, m: Machine, f: FamState, p: Packet)
    requires f.nft == Some(Tunnel(TunnelChains(c))) && Tagged(f, p).Passed? && Tagged(f, p).packet.mark
    ensures match FateOf(m, f, p)
            case Sent(d, src, dst) =>
              || d == c.iface || (p.fromHost && d == "lo") || (!p.fromHost && src == FromLocal)
              || Denotes(c.nets, dst) || Listed(c.fam, dst)
            case _ => true
  {
    WhoIsMarked(c, f, p);
    var q := Tagged(f, p).packet;
    RewriteIsDnsTarget(c, f, q);
    var r := q.(dst := DnsTarget(c, q));
    var d := Route(m, f, true, r.dst);
    if d.Via? {
      GuardVerdict(c, r, d.dev);
    }
  }

  // Table 60 answers with the tunnel or refuses, and only refuses once the
  // interface is gone.
  lemma SplitTableDecides(c: TunnelConfig, f: FamState, dst: Addr)
    requires Established(c, f) && dst.fam == c.fam
    ensures GoneFrom(c.iface, f.table60) ==> AskSplitTable(f, dst) == NoWay
    ensures AskSplitTable(f, dst) in {Via(c.iface, FromSplitTable), NoWay}
  {
    SplitTableAnswers(c.fam, f, dst);
  }

  // Neither this machine nor a specific main route takes the packet away: no
  // local address, and no main route longer than a default unless the resolver
  // rule comes first.
  ghost predicate LeftToTable60(c: TunnelConfig, m: Machine, to: Addr) {
    !IsLocal(m, to) && (!MainClaims(m, to) || c.dns == Some(to))
  }

  // A packet that is sent goes to its target, and directly only on a specific
  // main route to a tagged or listed range (or stays on this machine).
  ghost predicate SentConfined(c: TunnelConfig, m: Machine, p: Packet, to: Addr, fate: Fate) {
    match fate
    case Sent(d, src, dst) =>
      && dst == to
      && (|| src == FromLocal
          || (d == c.iface && src in {FromSplitTable, FromMainSpecific})
          || (src == FromMainSpecific && MainClaims(m, dst)
              && ((p.fromHost && d == "lo") || Denotes(c.nets, dst) || Listed(c.fam, dst))))
    case _ => true
  }

  // A marked packet is confined so, and one left to table 60 takes the tunnel or
  // is refused; on the other reading of the guard's device it may also be dropped.
  ghost predicate Confined(c: TunnelConfig, m: Machine, f: FamState, p: Packet)
    requires Tagged(f, p).Passed?
  {
    var to := DnsTarget(c, Tagged(f, p).packet);
    && SentConfined(c, m, p, to, FateOf(m, f, p))
    && (LeftToTable60(c, m, to) ==> FateOf(m, f, p) in {Sent(c.iface, FromSplitTable, to), Refused})
  }

  ghost predicate EarlyConfined(c: TunnelConfig, m: Machine, f: FamState, p: Packet)
    requires Tagged(f, p).Passed?
  {
    var to := DnsTarget(c, Tagged(f, p).packet);
    && SentConfined(c, m, p, to, EarlyFate(m, f, p))
    && (LeftToTable60(c, m, to) ==> EarlyFate(m, f, p) in {Sent(c.iface, FromSplitTable, to), Refused, Guarded})
  }

  // Every marked packet, every main table.
  lemma MarkedIsConfined(c: TunnelConfig, m: Machine, f: FamState, p: Packet)
    requires Established(c, f) && p.dst.fam == c.fam
    requires Tagged(f, p).Passed? && Tagged(f, p).packet.mark
    ensures Confined(c, m, f, p)
  {
    WhoIsMarked(c, f, p);
    var q := Tagged(f, p).packet;
    RewriteIsDnsTarget(c, f, q);
    var r := q.(dst := DnsTarget(c, q));
    assert FateOf(m, f, p) == Deliver(m, f, r, None);
    DeliveryIsConfined(c, m, f, p, r);
  }

  lemma DeliveryIsConfined(c: TunnelConfig, m: Machine, f: FamState, p: Packet, r: Packet)
    requires Established(c, f) && r.dst.fam == c.fam && p.fromHost == r.fromHost && r.mark
    ensures SentConfined(c, m, p, r.dst, Deliver(m, f, r, None))
    ensures LeftToTable60(c, m, r.dst) ==> Deliver(m, f, r, None) in {Sent(c.iface, FromSplitTable, r.dst), Refused}
  {
    MarkedRoute(c.fam, m, f, r.dst);
    SplitTableDecides(c, f, r.dst);
    var d := Route(m, f, true, r.dst);
    if d.Via? {
      GuardPasses(c, f, r, d.dev);
    }
  }

  // A packet left to table 60 takes the tunnel or is refused in every
  // established state; which of the two, the tunnel's own default decides.
  lemma UnclaimedTakesTunnel(c: TunnelConfig, m: Machine, f: FamState, p: Packet)
    requires Established(c, f) && p.dst.fam == c.fam
    requires Tagged(f, p).Passed? && Tagged(f, p).packet.mark
    requires LeftToTable60(c, m, DnsTarget(c, Tagged(f, p).packet))
    ensures FateOf(m, f, p) in {Sent(c.iface, FromSplitTable, DnsTarget(c, Tagged(f, p).packet)), Refused}
    ensures TunnelWins(c, f) ==>
              FateOf(m, f, p) == Sent(c.iface, FromSplitTable, DnsTarget(c, Tagged(f, p).packet))
    ensures GoneFrom(c.iface, f.table60) ==> FateOf(m, f, p) == Refused
  {
    WhoIsMarked(c, f, p);
    var q := Tagged(f, p).packet;
    RewriteIsDnsTarget(c, f, q);
    var r := q.(dst := DnsTarget(c, q));
    MarkedRoute(c.fam, m, f, r.dst);
    SplitTableDecides(c, f, r.dst);
    GuardVerdict(c, r, c.iface);
    if TunnelWins(c, f) {
      TunnelWinsDecides(c, f, r.dst);
    }
  }

  // The tunnel default is in place and is the only route besides last resorts.
  ghost predicate TunnelWins(c: TunnelConfig, f: FamState) {
    && TunnelRouted(c, f)
    && forall k :: k in f.table60 && f.table60[k] == Unreachable ==> k.metric > BaseMetric(c.fam)
  }

  lemma TunnelWinsDecides(c: TunnelConfig, f: FamState, dst: Addr)
    requires Established(c, f) && TunnelWins(c, f) && dst.fam == c.fam
    ensures AskSplitTable(f, dst) == Via(c.iface, FromSplitTable)
  {
    SplitTableAnswers(c.fam, f, dst);
    var base := RouteKey(Anywhere(c.fam), BaseMetric(c.fam));
    DefaultCoversAll(c.fam, dst);
    assert Beats(Lookup(f.table60, dst).value, base);
  }

  // DNS of the split set never answers in the clear, whatever the main table: a
  // query leaves for the resolver by the tunnel or is refused, unless this
  // machine has the resolver's address itself and keeps it.
  lemma DnsLeavesByTunnel(c: TunnelConfig, m: Machine, f: FamState, p: Packet)
    requires Established(c, f) && p.dst.fam == c.fam && c.dns.Some?
    requires Tagged(f, p).Passed? && Tagged(f, p).packet.mark
    requires IsDns(p) && !ExemptDns(c, p)
    ensures !IsLocal(m, c.dns.value) ==>
      && FateOf(m, f, p) in {Sent(c.iface, FromSplitTable, c.dns.value), Refused}
      && (TunnelWins(c, f) ==> FateOf(m, f, p) == Sent(c.iface, FromSplitTable, c.dns.value))
      && (GoneFrom(c.iface, f.table60) ==> FateOf(m, f, p) == Refused)
    ensures IsLocal(m, c.dns.value) && FateOf(m, f, p).Sent? ==>
      FateOf(m, f, p).source == FromLocal && FateOf(m, f, p).dst == c.dns.value
  {
    WhoIsMarked(c, f, p);
    if IsLocal(m, c.dns.value) {
      var q := Tagged(f, p).packet;
      RewriteIsDnsTarget(c, f, q);
      MarkedRoute(c.fam, m, f, c.dns.value);
    } else {
      UnclaimedTakesTunnel(c, m, f, p);
    }
  }

  // ---- The other reading of the guard's device ----------------------------

  // An unmarked packet is routed by the local table and then the main one.
  lemma UnmarkedRoute(m: Machine, f: FamState, dst: Addr)
    ensures Route(m, f, false, dst) ==
      if IsLocal(m, dst) then Answer(m.local, LocalTable, dst) else Answer(m.main, MainTable, dst)
  {
    var plain := [Rule(32766, false, None, MainTable, false)];
    var table := if f.tableRule then [Rule(TABLE_PRIORITY, true, None, SplitTable, false)] + plain else plain;
    var main := if f.mainRule then [Rule(MAIN_PRIORITY, true, None, MainTable, true)] + table else table;
    var all := RuleList(f);
    assert all == [Rule(0, false, None, LocalTable, false)] + (DnsRuleList(f.dnsRules) + main);
    assert all[1..] == DnsRuleList(f.dnsRules) + main;
    if !IsLocal(m, dst) {
      DnsRulesSkip(f.dnsRules, main, m, f, false, dst);
      assert f.mainRule ==> main[1..] == table;
      assert f.tableRule ==> table[1..] == plain;
      assert plain[1..] == [];
      assert Walk(plain, m, f, false, dst) == Answer(m.main, MainTable, dst);
      assert Walk(table, m, f, false, dst) == Walk(plain, m, f, false, dst);
      assert Walk(main, m, f, false, dst) == Walk(table, m, f, false, dst);
    }
  }

  ghost function Answer(t: Table<Target>, n: TableName, dst: Addr): Decision {
    var k := Lookup(t, dst);
    if k.None? then NoWay
    else
      match t[k.value]
      case Unreachable => NoWay
      case Dev(d) => Via(d, SourceOf(n, k.value.dst.len))
  }

  // A marked packet on a specific main route has the device it had unmarked.
  lemma SpecificRouteIsEarly(fam: Family, m: Machine, f: FamState, mark: bool, dst: Addr)
    requires FailsClosed(fam, f) && dst.fam == fam
    requires Route(m, f, true, dst).Via? && Route(m, f, true, dst).source == FromMainSpecific
    ensures Route(m, f, mark, dst) == Route(m, f, true, dst)
  {
    MarkedRoute(fam, m, f, dst);
    UnmarkedRoute(m, f, dst);
  }

  // What the guard lets pass on a device it is shown.
  lemma {:induction false} GuardPasses(c: TunnelConfig, f: FamState, p: Packet, dev: string)
    requires f.nft == Some(Tunnel(TunnelChains(c))) && p.mark
    ensures Guard(f, p, dev) <==>
      || dev == c.iface
      || (p.fromHost && dev == "lo")
      || Denotes(c.nets, p.dst)
      || Listed(c.fam, p.dst)
  {
    GuardVerdict(c, p, dev);
  }

  // Confinement does not depend on which device the guard is shown.
  lemma EarlyIsConfined(c: TunnelConfig, m: Machine, f: FamState, p: Packet)
    requires Established(c, f) && p.dst.fam == c.fam
    requires Tagged(f, p).Passed? && Tagged(f, p).packet.mark
    ensures EarlyConfined(c, m, f, p)
  {
    if !p.fromHost {
      MarkedIsConfined(c, m, f, p);
    } else if Route(m, f, p.mark, p.dst).Via? {
      var seen := Route(m, f, p.mark, p.dst).dev;
      WhoIsMarked(c, f, p);
      var q := Tagged(f, p).packet;
      RewriteIsDnsTarget(c, f, q);
      var r := q.(dst := DnsTarget(c, q));
      assert FateSeen(m, f, p, Some(seen)) == Deliver(m, f, r, Some(seen));
      SeenIsConfined(c, m, f, p, r, seen);
    }
  }

  lemma {:induction false} SeenIsConfined(c: TunnelConfig, m: Machine, f: FamState, p: Packet, r: Packet, seen: string)
    requires Established(c, f) && p.dst.fam == c.fam == r.dst.fam && p.fromHost && r.fromHost && r.mark
    requires Route(m, f, p.mark, p.dst).Via? && Route(m, f, p.mark, p.dst).dev == seen
    requires r.dst == p.dst || c.dns == Some(r.dst)
    ensures SentConfined(c, m, p, r.dst, Deliver(m, f, r, Some(seen)))
    ensures LeftToTable60(c, m, r.dst) ==>
      Deliver(m, f, r, Some(seen)) in {Sent(c.iface, FromSplitTable, r.dst), Refused, Guarded}
  {
    MarkedRoute(c.fam, m, f, r.dst);
    SplitTableDecides(c, f, r.dst);
    GuardPasses(c, f, r, seen);
    var d := Route(m, f, true, r.dst);
    if d.Via? && d.source == FromMainSpecific && r.dst == p.dst {
      SpecificRouteIsEarly(c.fam, m, f, p.mark, p.dst);
    }
  }

  // What does depend on it: a packet left to table 60 then gets out by the tunnel
  // exactly when its first device or its target pleases the guard, so one for
  // the public network with a plain first route is dropped.
  lemma EarlyTunnelIff(c: TunnelConfig, m: Machine, f: FamState, p: Packet)
    requires Established(c, f) && TunnelWins(c, f) && p.dst.fam == c.fam && p.fromHost
    requires Tagged(f, p).Passed? && Tagged(f, p).packet.mark
    requires LeftToTable60(c, m, DnsTarget(c, Tagged(f, p).packet))
    ensures var to, first := DnsTarget(c, Tagged(f, p).packet), Route(m, f, p.mark, p.dst);
            EarlyFate(m, f, p) ==
              if first.NoWay? then Refused
              else if first.dev in {c.iface, "lo"} || Denotes(c.nets, to) || Listed(c.fam, to)
              then Sent(c.iface, FromSplitTable, to)
              else Guarded
  {
    var first := Route(m, f, p.mark, p.dst);
    if first.Via? {
      WhoIsMarked(c, f, p);
      var q := Tagged(f, p).packet;
      RewriteIsDnsTarget(c, f, q);
      var r := q.(dst := DnsTarget(c, q));
      MarkedRoute(c.fam, m, f, r.dst);
      TunnelWinsDecides(c, f, r.dst);
      GuardPasses(c, f, r, first.dev);
    }
  }

  // Removing an interface removes the routes through it.
  function Without(iface: string, t: Table<Target>): Table<Target> {
    map k | k in t && t[k] != Dev(iface) :: t[k]
  }

  lemma InterfaceGoneStaysEstablished(c: TunnelConfig, f: FamState)
    requires Established(c, f) && f.table60[RouteKey(Anywhere(c.fam), LAST_METRIC)] == Unreachable
    ensures var g := f.(table60 := Without(c.iface, f.table60));
            Established(c, g) && GoneFrom(c.iface, g.table60)
  {
  }
}
