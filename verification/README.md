# mvad, modelled and proved

mvad is a command-line client for a WireGuard VPN. It has no daemon: the
interface, the routes, the firewall, `resolv.conf`, the split-tunnel rules and a
few files on disk *are* its state, and short root commands move that state one
external step at a time. Any step may fail, and a command may be killed between
any two of them. This project models those commands and the byte-level and
shared-resource code around them, and proves what holds of every run.

Check everything with `dafny verify dfyconfig.toml`.

## How the model is laid out

| module | what it holds |
|---|---|
| `Net`, `Tables` | addresses and prefixes as bit strings, longest-prefix-match tables with metrics |
| `PrefixSets`, `LiveSets` | `coalesce`, the per-family nft sets, reading them back, resolving and reconciling |
| `Ranges` | the ranges written into the nft script, and what they hold as octets and groups |
| `SplitRouting` | the tunnel-mode nft chains, the policy rules and table 60 as data, and the fate of one packet |
| `Relays` | `PickExcept` with an arbitrary die |
| `World`, `Session` | the machine, the single steps with their faults, and every command as a function of a process |
| `Host` | the same commands as methods that change the machine step by step, each proved equal to its `Session` function |
| `SessionInvariant`, `SplitStates`, `SplitSession` | what every step keeps, what a finished `split.Up` leaves, what a takeover keeps |
| `Rollback` | what a build that fails leaves of the split state |
| `SessionTheorems`, `SrcValidMark` | what whole runs guarantee, and what becomes of the sysctl |
| `Unfaulted`, `Dials`, `Redials` | when a connect or a reconnect succeeds, who is dialed, and what a redial changes |
| `PlainSession`, `PlainLeftover` | the split set beside a full session, and the one leak it leaves |
| `RootLock`, `PfTokens`, `HalfRoutes` | the reentrant flock, the pf reference tokens, the macOS half-routes |
| `RouteMessages`, `Framing`, `ShapeRects` | the routing-socket parser, the UDP-over-TCP frames, the tray-icon scan |

A run is a list of turns, each a command with a list of faults. A fault says what
befalls the next step: `Go`, `Fail` (no effect) or `Stop` (the process ends
before the step and everything after it is skipped). A theorem about every list
of faults is therefore a theorem about every intermediate state of every command:
the state before step *k* is the final state of the run that stops there.

What the session model takes as given: `wg.Up`, `firewall.Up`, each `nft -f`, and
each file replacement happen whole or not at all; removing is idempotent and does
not fail; commands run one after another under the lock (`RootLock` proves that
part); nobody else edits `resolv.conf`, the state files or mvad's routes; and the
interface goes away only through mvad. The resolver list is the constant one the
program is built with.

What the packet model takes as given: the chain that marks a local packet is of
type route, so the kernel routes the packet again when that chain is through, and
the guard chain at priority 0 sees the new device. The comment at
internal/firewall/firewall_linux.go:88-90 reads the same hook the other way: the
guard would still see the device of the first routing. Confinement is proved on
both readings (`SplitRouting.MarkedIsConfined`, `SplitRouting.EarlyIsConfined`),
and `SplitSession.KeptInBy` asks for both, so it holds of whole runs either way.
That an unclaimed packet takes the tunnel holds on the first reading
(`SplitRouting.UnclaimedTakesTunnel`); on the second the guard drops one for the
public network whose first route is plain, and `SplitRouting.EarlyTunnelIff` says
exactly which packets get out.

## Findings

Each of these is a place where a promise fails. The code is modelled as it is,
the failing case is a lemma, and the exact condition is proved.

- **A plain IPv6 default survives a switch to split mode.** `connect --split`
  keeps table 60 on purpose, and without an IPv6 address on the device it never
  replaces the IPv6 default a full session put there. A tagged packet to
  `fc00::/7`, `fe80::/10` or `ff02::/16` that no main route claims then leaves by
  the old gateway (`PlainLeftover.FullThenSplitLeaks`, from a clean machine with
  two successful connects). `SplitSession.SplitUpEstablishes` gives the exact
  condition; the main table's default is never used in either case.
- **A connect that does not come about can flip the saved mode**, in two ways:
  the deferred save that puts the old mode back fails as well
  (`SessionTheorems.FailedSaveFlipsMode`), or the process stops after the first
  save and never gets to it, though nothing failed
  (`SessionTheorems.StopFlipsMode`). `SessionTheorems.ConnectMode` and
  `SessionTheorems.TurnModeIff` are the exact conditions, stops included.
- **`src_valid_mark` can stay raised.** The state file that records its first
  value is removed before the sysctl is written back, so a stop between the two
  loses the value for good (`SrcValidMark.StopLosesMark`), and beside another
  WireGuard interface it is left raised on purpose and then forgotten
  (`SrcValidMark.OtherInterfaceKeepsMarkRaised`). `SrcValidMark.DownPutsMarkBackIff`
  is the exact condition for one `split.Down`, stopped or not;
  `SrcValidMark.DisconnectKeepsMarkIff` gives it on the faults to come.
- **`coalesce` can leave overlapping prefixes** (`PrefixSets.SpellingClashOverlaps`),
  exactly when the list handed in writes one of its widest networks with two
  different host parts (`PrefixSets.CoalescedIsDisjoint`); masked prefixes, which
  the command line enforces, never do.
- **`pfctl -E` without a readable token leaks a reference**
  (`PfTokens.UnreadTokenStaysLive`, `PfTokens.EnableKeepsMatch`), and after a
  foreign `pfctl -d` two token files may record one value
  (`PfTokens.RemintedTokenIsDropped`); `PfTokens.DisablesAreSurvived` and
  `PfTokens.RepeatEndangersIff` say that only a repeated value does harm.
- **Shape rectangles wrap** for runs that start beyond column or row 32767 or are
  65536 pixels and longer (`ShapeRects.WideImagesWrap`, an image;
  `ShapeRects.ShapeExactlyWhenRunsFit`, the condition); the icon is 22 by 22.

## Model

| member | source | states |
|---|---|---|
| `Net.WithinIsLeadingBits` | internal/split/split_linux.go:291-301 | one prefix holds all of another's addresses exactly when it is no longer and its leading bits agree: the test `coalesce` makes is inclusion of address sets |
| `Net.SharingIsNesting` | internal/split/split_linux.go:284-286 | prefixes that share an address are nested, so overlap can only come from covering |
| `PrefixSets.Coalesce` | internal/split/split_linux.go:286-308 | the double loop with its early exit returns `Coalesced` |
| `PrefixSets.CoverChain` | internal/split/split_linux.go:288-306 | an address of a dropped prefix is still held by one that is kept, however long the chain of covers |
| `PrefixSets.CoalescedDenotesTheSame` | internal/split/split_linux.go:286-308 | the union of addresses is unchanged, host bits or not |
| `PrefixSets.CoalescedIsTheMaximalOnes` | internal/split/split_linux.go:286-308 | on masked prefixes, exactly the maximal ones are kept |
| `PrefixSets.KeptIffWidest` | internal/split/split_linux.go:290-302 | on any input, host bits or not, a member is kept exactly when none wider holds it |
| `PrefixSets.KeptInOrder` | internal/split/split_linux.go:287-307 | the result is the input at strictly rising, uncovered indices |
| `PrefixSets.CoalescedIsDisjoint` | internal/split/split_linux.go:284-308 | results are pairwise disjoint exactly when the input spells none of its widest networks two ways |
| `PrefixSets.CanonicalCoalescesDisjoint` | internal/split/split_linux.go:284-308 | masked input always gives disjoint, masked output |
| `PrefixSets.SpellingClashOverlaps` | internal/split/split_linux.go:294-301 | two spellings of one /8 both survive and overlap |
| `PrefixSets.CoalescedIsIdempotent` | internal/split/split_linux.go:286-308 | coalescing twice is coalescing once, on any input |
| `PrefixSets.FamilyElems` | internal/split/split_linux.go:602-608 | the filtering loop of both set writers returns `OfFamily` |
| `PrefixSets.FamilySetIsExact` | internal/split/split_linux.go:200-221 | the set nft gets for a family denotes exactly the input's addresses of that family |
| `LiveSets.ShownElementReadsBack` | internal/split/split_linux.go:261-282 | an element inside any number of wrappers, with any other members, reads back as its prefix |
| `LiveSets.PrintedSetReadsBack` | internal/split/split_linux.go:239-259 | a listed set of masked prefixes reads back as itself |
| `LiveSets.ParseSetElems` | internal/split/split_linux.go:250-258 | the loop keeps the elements that parse, in order |
| `LiveSets.ReadLiveNets` | internal/split/split_linux.go:225-237 | both families in turn, skipping one whose listing failed |
| `LiveSets.ComposeNets` | cmd/mvad/docker.go:74-100 | the loop with its early exits returns `ComposeEntry`, the lookup `ResolveSplitNets` is specified by |
| `LiveSets.ComposeResolvesIff` | cmd/mvad/docker.go:74-100 | an entry resolves exactly when its containers can be listed, all resolve and one has an address, and then to exactly their addresses |
| `LiveSets.AppendEntries` | cmd/mvad/docker.go:26-36 | resolved addresses and failed names are appended, each in order |
| `LiveSets.AppendCompose` | cmd/mvad/docker.go:37-45 | the same for compose entries, each through `ComposeNets` |
| `LiveSets.ParseNets` | cmd/mvad/split.go:560-571 | the recorded prefixes that parse, in order |
| `LiveSets.ResolveSplitNets` | cmd/mvad/docker.go:23-55 | the nets hold exactly what the entries stand for, and there is an error exactly when an entry of some kind does not resolve |
| `LiveSets.AllFailedIff` | cmd/mvad/docker.go:26-53 | nothing failed exactly when every container has an address, every compose entry is up and every k8s entry resolves |
| `LiveSets.AllResolvedDenotes` | cmd/mvad/docker.go:24-54 | the nets hold exactly the addresses the recorded prefixes and the entries that resolve stand for |
| `LiveSets.SeedKeepsTheOldSet` | cmd/mvad/main.go:843-855 | the seeded set holds an address exactly when an entry stands for it or, in split mode with an entry that does not resolve, the old set held it and could be listed |
| `LiveSets.NftSets.SetNets` | internal/split/split_linux.go:199-221 | one transaction: both sets become the coalesced families, or nothing changes |
| `LiveSets.NftSets.SyncNets` | cmd/mvad/split.go:546-558 | any entry that does not resolve changes nothing; otherwise the live sets hold exactly the addresses the entries stand for |
| `Ranges.ListedMeans` | internal/split/split_linux.go:724-728 | the listed ranges hold exactly the addresses with these octets or first groups |
| `Ranges.LoopbackMeans` | internal/split/split_linux.go:693-696 | 127/8 by its first octet, ::1 by its value |
| `Ranges.ValueOfByte` | internal/split/split_linux.go:724-728 | an octet written in bits spells its number |
| `World.Resolver4Means` | cmd/mvad/main.go:51-56 | the IPv4 resolver is 10.64.0.1 |
| `World.Resolver6Means` | cmd/mvad/main.go:53-56 | the IPv6 resolver is 2a07:e340::2 |
| `SplitRouting.RulesInOrder` | internal/split/split.go:20-23 | the kernel walks the rules in the order of their priorities 97, 98 and 99 |
| `SplitRouting.MarkedRoute` | internal/split/split_linux.go:434-501 | for every main table: where each marked packet is routed, once the last-resort route and the table rule are in |
| `SplitRouting.AnsweredRoute` | internal/split/split_linux.go:434-455 | the same for any table 60 that has an answer, in either mode |
| `SplitRouting.MarkedNeverTakesMainDefault` | internal/split/split_linux.go:465-500 | the main table's default never carries a marked packet |
| `SplitRouting.WhoIsMarked` | internal/split/split_linux.go:675-687 | exactly which local and forwarded packets the chains tag; nothing but the marks changes |
| `SplitRouting.RewriteIsDnsTarget` | internal/split/split_linux.go:688-711 | exactly which packets have their destination rewritten, and to what |
| `SplitRouting.GuardVerdict` | internal/split/split_linux.go:712-731 | exactly which marked packets the guard lets leave by which device, the listed ranges read as octets |
| `SplitRouting.ChainsAloneGuard` | internal/split/split_linux.go:712-731 | from the moment the chains are loaded, whatever rules and routes are in yet, no marked packet leaves but by the tunnel or to a tagged or listed range |
| `SplitRouting.MarkedIsConfined` | internal/split/split_linux.go:674-736 | chains, rules and tables together: a marked packet leaves directly only on a specific main route to a tagged or listed range, and one left to table 60 takes the tunnel or is refused; the guard sees the device of the second routing |
| `SplitRouting.UnclaimedTakesTunnel` | internal/split/split_linux.go:464-501 | in every established state a packet nothing else claims takes the tunnel or is refused; the tunnel where its default stands, refused once it is gone; the guard sees the device of the second routing |
| `SplitRouting.DnsLeavesByTunnel` | internal/split/split_linux.go:470-487 | a rewritten query leaves by the tunnel or is refused, even when a main route covers the resolver; only a machine that owns the resolver's address keeps it, and then locally; the guard sees the device of the second routing |
| `SplitRouting.UnmarkedRoute` | internal/split/split_linux.go:437-449 | none of the three rules touches an unmarked packet |
| `SplitRouting.EarlyIsConfined` | internal/firewall/firewall_linux.go:88-90 | the same confinement when the guard is shown the device of the first routing; a packet left to table 60 may then also be dropped |
| `SplitRouting.EarlyTunnelIff` | internal/firewall/firewall_linux.go:88-90 | on that reading, exactly which packets left to table 60 get out by the tunnel and which are dropped |
| `SplitRouting.InterfaceGoneStaysEstablished` | internal/split/split_linux.go:465-468 | losing the interface keeps the state established, with no route through it |
| `Relays.Pick` | internal/mullvad/mullvad.go:452-482 | the two loops and the random choice return `PickExcept` for every value of the die |
| `Relays.PickStaysInScope` | internal/mullvad/mullvad.go:449-482 | a pick is listed, in the query's scope, active for a prefix, and not the excepted relay when another active one matches |
| `Relays.PickFindsOne` | internal/mullvad/mullvad.go:452-482 | one is found exactly when the scope holds one |
| `Relays.PickReachesAll` | internal/mullvad/mullvad.go:475-481 | every relay that may be picked comes up for some die |
| `Relays.ScopeMeans` | internal/mullvad/mullvad.go:456-468 | two dashes make a hostname; a shorter query stands for the hosts that go on with a dash |
| `SessionInvariant.RouteSetKeeps` | internal/route/route_linux.go:16-36 | route.Set is all or nothing unless the process stops, and never pins anything but the saved endpoint |
| `SessionInvariant.DnsSetKeeps` | internal/dns/dns_linux.go:108-124 | the backup is the original before `resolv.conf` changes |
| `SessionInvariant.DnsRestoreEffect` | internal/dns/dns_linux.go:127-149 | restoring brings the original back and clears the backup, or stops with both still safe |
| `SessionInvariant.SplitUpKeeps` | internal/split/split_linux.go:46-107 | any split.Up, either mode, leaves no artefact without its state file; one that fails without taking over leaves what was there or nothing |
| `SessionInvariant.ClearSplitKeeps` | internal/split/split_linux.go:531-566 | a completed clearing leaves no rule, route, table or file; a stopped one keeps the file while anything is left |
| `SessionInvariant.TeardownKeeps` | cmd/mvad/main.go:1182-1189 | the order of teardown keeps the invariant at every stop, and a completed one leaves nothing of a full session |
| `SessionInvariant.TeardownFrame` | cmd/mvad/main.go:944-951 | teardown leaves the split state alone but for routes through the interface |
| `SessionInvariant.WayIsClear` | cmd/mvad/main.go:944-956 | every build starts with nothing of an earlier full session in place |
| `SessionInvariant.EstablishFullKeeps` | cmd/mvad/main.go:961-1061 | a full build that succeeds has every part in place, one that fails has none, one that stops keeps the invariant |
| `SessionInvariant.EstablishSplitKeeps` | cmd/mvad/main.go:971-1002 | a split build touches nothing of a full session and takes its interface down when it fails |
| `SessionInvariant.BuildKeeps` | cmd/mvad/main.go:944-1063 | teardown, save, build and deferred save together keep the invariant |
| `Rollback.TakeoverKeepsFile` | internal/split/split_linux.go:61-79 | a takeover that fails still has its state file say split |
| `Rollback.BuildUndoes` | cmd/mvad/main.go:944-1022 | a build that fails leaves of the split state what was there before it, nothing, or the split session it was taking over |
| `SessionInvariant.CommandKeeps` | cmd/mvad/main.go:797-1189 | every command under every fault list keeps the invariant |
| `SessionInvariant.RunKeeps` | cmd/mvad/main.go:797-1189 | and so does every run of commands |
| `SplitStates.SplitUpState` | internal/split/split_linux.go:87-107 | a finished split.Up, in either mode and under any faults it survived, leaves exactly this state: rules, DNS rule, table 60, chains, state file and sysctl |
| `SplitStates.PlainRoutesEffect` | internal/split/split_linux.go:503-529 | the plain routes replace only the usual default and drop a stale DNS rule |
| `SplitStates.TunnelRoutesEffect` | internal/split/split_linux.go:469-501 | the tunnel routes add the last resort of both families and the default of the families carried |
| `SplitSession.SplitUpEstablishes` | internal/split/split_linux.go:469-501 | a finished split.Up confines a family exactly when the tunnel carries it or no plain default of it was left |
| `SplitSession.CleanStartsHaveNoLeftover` | internal/split/split_linux.go:431-433 | an empty table 60 and an earlier split session both meet that condition |
| `SplitSession.SplitUpHolds` | internal/split/split_linux.go:61-86 | taking over from a split session, a failed or stopped split.Up strips nothing |
| `SplitSession.HoldingIsEstablished` | internal/split/split_linux.go:431-501 | what is kept through a takeover is an established session for one of the lists allowed, and nothing less |
| `SplitSession.FinishedSplitUpHolds` | internal/split/split_linux.go:87-107 | a finished split.Up is such a session for its own nets, under the same exact condition |
| `SplitSession.RedialsHold` | cmd/mvad/main.go:944-985 | however often a split session is redialed, whatever fails or stops, that stays in place |
| `SplitSession.RedialsNeverLeakToDefault` | internal/split/split_linux.go:431-433 | at every intermediate step no marked packet is routed by the main default |
| `SplitSession.RedialsStayConfined` | internal/split/split_linux.go:61-86 | at every intermediate step every marked packet is confined by nets the first session or one of the redials was given |
| `Dials.ChosenIsDialed` | cmd/mvad/main.go:872-888 | the peer is an exit in the query's scope, dialed at its own address or at an in-scope entry's address on the exit's multihop port |
| `Dials.ConnectDials` | cmd/mvad/main.go:926-1063 | after a connect that returns nil, the interface's peer was dialed as asked from the list in use and the session on disk is that one, rebuilt with every part of its mode, or for an unattended redial found up and untouched |
| `Dials.SameSessionIsLeftAlone` | cmd/mvad/main.go:908-918 | an unattended redial whose picks name the session that is up leaves it alone, and every other connect that returns nil rebuilds |
| `SessionTheorems.RefreshedList` | cmd/mvad/main.go:865-871 | the list in use is the fetched one exactly when a new one was due and arrived |
| `Unfaulted.ChosenIff` | cmd/mvad/main.go:872-888 | relays are chosen exactly when the list offers the exit and, with an entry, that one too and a multihop port on the exit picked |
| `Unfaulted.ConnectSucceedsIff` | cmd/mvad/main.go:797-1063 | from any reachable state, a connect that meets no fault succeeds exactly when it may run and the list in use answers its queries |
| `Unfaulted.ConnectCommandSucceedsIff` | cmd/mvad/main.go:797-888 | the same for the command, with nothing to avoid and a refresh only of a stale or empty list |
| `Redials.LiveTunnelIsLeftAlone` | cmd/mvad/check.go:55-63 | reconnect --if-dead changes nothing while the interface is up with a fresh handshake or an answer, or was taken down on purpose |
| `Redials.RedialSucceedsIff` | cmd/mvad/main.go:1097-1153 | a reconnect that meets no fault succeeds exactly when there is nothing to do or the list in use answers the replayed queries; --if-dead makes a new list due |
| `Redials.RedialDials` | cmd/mvad/main.go:1118-1140 | what stands after it was dialed by the replayed exit and entry queries in the saved mode |
| `Redials.RedialOfTheSameIsQuiet` | cmd/mvad/main.go:908-918 | unattended, with picks that name the session that is up, it changes nothing |
| `PlainSession.PlainSetBypassesTunnel` | internal/split/split_linux.go:503-529 | beside a full session a marked packet nothing else claims leaves by the gateway's device, or for IPv6 without a gateway nowhere, and never by the main default |
| `PlainSession.FullConnectRaisesPlain` | cmd/mvad/main.go:1003-1061 | a full connect that meets no fault leaves that split set in place for its nets and the gateway found |
| `PlainLeftover.PlainLeftoverLeaks` | internal/split/split_linux.go:495-499 | with a plain default left, a marked packet to a listed range leaves by it |
| `PlainLeftover.FullConnectLeavesDefault` | internal/split/split_linux.go:518-523 | a full connect with an IPv6 gateway and no failure leaves such a default |
| `PlainLeftover.FullThenSplitLeaks` | cmd/mvad/main.go:944-951 | from a clean machine, connect and then connect --split reaches that state |
| `SessionTheorems.DisconnectLeavesNothing` | cmd/mvad/main.go:1175-1189 | after any run, a completed disconnect leaves nothing of mvad and `resolv.conf` as it was found |
| `SessionTheorems.EveryStateIsRecoverable` | cmd/mvad/main.go:944-1047 | in every state: pins only for the endpoint on disk, nothing of a full session without the interface, no split artefact without the state file, a backup that is the original, and the session in layers: tunnel routes over the pin, the resolver over both routes, the kill-switch on top |
| `SessionTheorems.UninterruptedDisconnectCompletes` | cmd/mvad/main.go:1175-1189 | a disconnect that is not stopped completes |
| `SessionTheorems.IfDeadLeavesDisconnectAlone` | cmd/mvad/main.go:1097-1110 | after any run and a completed disconnect, reconnect --if-dead changes nothing |
| `SessionTheorems.FailedConnectLeavesNothing` | cmd/mvad/main.go:952-1047 | a failed connect left the old session untouched, or took it down and left no part of a full session and no split artefact of its own |
| `SessionTheorems.SplitConnectEstablishes` | cmd/mvad/main.go:944-1002 | a successful connect --split has its interface, saved its mode, clears full-session state, raises the sysctl and confines under the exact condition |
| `SessionTheorems.SplitConnectConfines` | cmd/mvad/main.go:972-985 | packet by packet right after it: confined by its own nets, tunnelled or refused where nothing else claims the packet |
| `SessionTheorems.SplitSetStaysIn` | cmd/mvad/main.go:944-985 | from that connect on, through every step of every redial, every marked packet stays confined by the nets of one of these sessions and off the main default |
| `SessionTheorems.ConnectMode` | cmd/mvad/main.go:830-842 | wherever it fails or stops, the saved mode is the new one after success and the old one otherwise, exactly unless the save that puts the old one back was due and did not happen |
| `SessionTheorems.FailedSaveFlipsMode` | cmd/mvad/main.go:834-842 | a run that loses the mode because that save fails |
| `SessionTheorems.StopFlipsMode` | cmd/mvad/main.go:957-960 | a run that loses it because the process stops after the first save, with no failure at all |
| `SessionTheorems.TurnModeIff` | cmd/mvad/main.go:830-842 | the same for any command: it leaves the mode it should exactly when it is steady |
| `SessionTheorems.SuccessRanToItsEnd` | cmd/mvad/main.go:797-1063 | only a command that ran to its end returns nil |
| `SessionTheorems.SavedModeIsLastSuccess` | cmd/mvad/main.go:830-842 | over any run whose commands do not lose the mode, stopped ones included, the saved mode is that of the last connect that returned nil |
| `SessionTheorems.ConnectSaves` | cmd/mvad/main.go:926-960 | wherever a connect stops, the saved relay and query are the old pair or a pick within the new query |
| `SessionTheorems.SavedExitIsInScope` | cmd/mvad/main.go:926-960 | in every run of any commands the saved exit lies in the saved query's scope |
| `SessionTheorems.RedialsStayInScope` | cmd/mvad/main.go:1118-1153 | through any run of reconnects and disconnects with changing relay lists, the exit stays in the saved query's scope |
| `Redials.RedialLeavesTheRelay` | cmd/mvad/main.go:1129-1140 | a reconnect that returns nil leaves the old exit, and the old entry, whenever the prefix has another active match, and stays in both queries' scopes |
| `SrcValidMark.MarkIsPutBack` | internal/split/split_linux.go:65-132 | with no other WireGuard interface and no stop between removing the file and writing the sysctl, whenever no state file exists the sysctl has its first value |
| `SrcValidMark.TurnKeepsMarkIff` | internal/split/split_linux.go:65-132 | one command keeps the first value exactly unless it stops with the file gone and the sysctl raised |
| `SrcValidMark.MarkIsNeverLowered` | internal/split/split_linux.go:124-132 | in every run whatsoever the value in force is the first one or 1 |
| `SrcValidMark.StopLosesMark` | internal/split/split_linux.go:116-117 | from a clean machine: connect --split and a disconnect stopped there lose the value, and a later disconnect does not bring it back |
| `SrcValidMark.OtherInterfaceKeepsMarkRaised` | internal/split/split_linux.go:124-132 | from a clean machine beside another WireGuard interface: connect --split and disconnect leave it raised |
| `SrcValidMark.DownPutsMarkBackIff` | internal/split/split_linux.go:109-132 | once a split.Down has removed the file, stopped or not, the value is back exactly when it was 1, is 0 already, or the down ended with no other WireGuard interface |
| `SrcValidMark.DownKeepsMarkIff` | internal/split/split_linux.go:109-132 | the same on the faults to come: the value is lost exactly when the file goes and the next step, the sysctl's write, is stopped at or withheld |
| `SrcValidMark.DisconnectKeepsMarkIff` | cmd/mvad/main.go:1175-1189 | and for a whole disconnect |
| `Host.Machinery.SetRoute` | internal/route/route_linux.go:16-36 | pin and two defaults with undo: equals `RouteSet` |
| `Host.Machinery.UnsetRoute` | internal/route/route_linux.go:38-46 | equals `RouteUnset` |
| `Host.Machinery.SetDns` | internal/dns/dns_linux.go:108-124 | equals `DnsSet` |
| `Host.Machinery.RestoreDns` | internal/dns/dns_linux.go:127-149 | equals `DnsRestore` |
| `Host.Machinery.ClearAway` | internal/split/split_linux.go:531-566 | equals `ClearSplit` |
| `Host.Machinery.BringSplitUp` | internal/split/split_linux.go:46-107 | equals `SplitUp`, rollback and takeover included |
| `Host.Machinery.BringSplitDown` | internal/split/split_linux.go:109-122 | equals `SplitDown` |
| `Host.Machinery.TearDown` | cmd/mvad/main.go:1182-1189 | equals `Teardown` |
| `Host.Machinery.DisconnectNow` | cmd/mvad/main.go:1175-1180 | equals `Disconnect` |
| `Host.Machinery.BuildSession` | cmd/mvad/main.go:944-1063 | equals `Build`, deferred save included |
| `Host.Machinery.ConnectNow` | cmd/mvad/main.go:797-960 | equals `Connect` |
| `Host.Machinery.ReconnectNow` | cmd/mvad/main.go:1097-1153 | equals `Reconnect` |
| `Host.RunTurns` | cmd/mvad/main.go:797-1189 | a run of commands on the machine is `RunAll`, so every theorem about runs is about these methods |
| `Host.ProbeTunnel` | cmd/mvad/check.go:74-107 | the probe succeeds exactly when some attempt is answered |
| `RootLock.EveryInterleavingKeeps` | internal/lock/lock_unix.go:15-63 | over every interleaving of acquires, waits, releases and exits of any processes the lock invariant holds |
| `RootLock.MutualExclusion` | internal/lock/lock_unix.go:23-63 | at most one process is inside, it holds the flock, depth counts unreleased handles, and a waiter has none |
| `RootLock.FreeLockIsTaken` | internal/lock/lock_unix.go:26-50 | whoever asks for or waits on a free lock gets it |
| `RootLock.HeldLockNests` | internal/lock/lock_unix.go:26-50 | who is inside already always gets one more handle |
| `RootLock.ReleasingAllLetsGo` | internal/lock/lock_unix.go:48-63 | releasing every handle, in any order and repeatedly, lets go |
| `RootLock.Package.AcquireRoot` | internal/lock/lock_unix.go:23-51 | one call is one `Acquire` step, with a new handle exactly on success and each error exactly when it is due |
| `RootLock.Package.Resume` | internal/lock/lock_unix.go:39-50 | a blocked call completes exactly when the flock is free, and then holds it alone |
| `RootLock.Package.ReleaseHandle` | internal/lock/lock_unix.go:49-63 | one call is one `Release` step, and nothing the second time |
| `PfTokens.EnableKeepsMatch` | internal/pf/pf_darwin.go:75-103 | live references stay exactly the recorded tokens, unless the token could not be read, and then never |
| `PfTokens.ReleaseKeepsMatch` | internal/pf/pf_darwin.go:105-121 | releasing keeps the match |
| `PfTokens.RunKeepsMatch` | internal/pf/pf_darwin.go:75-131 | and so does every run over any number of files |
| `PfTokens.ReleaseSparesOthers` | internal/pf/pf_darwin.go:105-131 | releasing one file never turns pf off under another |
| `PfTokens.OneFileRun` | internal/pf/pf_darwin.go:97-102 | for one file this survives foreign disables and re-minted values |
| `PfTokens.DisablesAreSurvived` | internal/pf/pf_darwin.go:75-131 | over any run with foreign disables anywhere in which no mint repeats a value another file records: every live reference is recorded by one file, and releasing a file spares every other live one |
| `PfTokens.EnableKeepsRecorded` | internal/pf/pf_darwin.go:78-103 | one value per file survives an enable exactly when its mint does not repeat |
| `PfTokens.RepeatEndangersIff` | internal/pf/pf_darwin.go:97-102 | a recorded mint is endangered by another file's release exactly when that file records its value |
| `PfTokens.UnreadTokenStaysLive` | internal/pf/pf_darwin.go:85-88 | a run in which a reference outlives every file |
| `PfTokens.RemintedTokenIsDropped` | internal/pf/pf_darwin.go:97-102 | a run in which releasing one file turns pf off under another |
| `PfTokens.System.EnableFile` | internal/pf/pf_darwin.go:78-103 | equals `Enable` |
| `PfTokens.System.ReleaseFile` | internal/pf/pf_darwin.go:107-121 | equals `Release` |
| `HalfRoutes.RouteTable.Drop` | internal/route/route_darwin.go:54-69 | deletes a destination only when it is there and goes through the interface |
| `HalfRoutes.RouteTable.Pin` | internal/route/route_darwin.go:76-96 | pins the endpoint to its present hop or changes nothing, and exactly when it does which |
| `HalfRoutes.RouteTable.AddHalves` | internal/route/route_darwin.go:29-39 | all four halves exactly when none is there and none refused; otherwise a refusal that undoes the ones added |
| `HalfRoutes.RouteTable.Set` | internal/route/route_darwin.go:23-41 | all or nothing, for every table and every pattern of refusals, and exactly when all |
| `HalfRoutes.RouteTable.Unset` | internal/route/route_darwin.go:43-52 | equals `UnsetRoutes` |
| `HalfRoutes.UnsetUndoesSet` | internal/route/route_darwin.go:15-100 | unset after set gives back the table, and so every lookup |
| `HalfRoutes.SetKeepsEndpoint` | internal/route/route_darwin.go:76-96 | the endpoint keeps its next hop |
| `HalfRoutes.SetTakesTheRest` | internal/route/route_darwin.go:15-41 | every other address without a route longer than a half goes to the tunnel |
| `HalfRoutes.UnsetSparesOthers` | internal/route/route_darwin.go:54-69 | a half through another interface is never removed |
| `RouteMessages.Sockaddrs` | cmd/mvad/watch_darwin.go:113-132 | the slot loop terminates in bounds on every byte string and returns `Scan` |
| `RouteMessages.SockaddrsRecovered` | cmd/mvad/watch_darwin.go:109-132 | on any packed message: destination, netmask and first link index |
| `RouteMessages.FirstLinkIsFirst` | cmd/mvad/watch_darwin.go:126-128 | that index is the first nonzero one, in slot order |
| `RouteMessages.IsZero` | cmd/mvad/watch_darwin.go:136-143 | zero exactly when every byte from the third on is |
| `RouteMessages.TrimmedMaskIsJudgedAlike` | cmd/mvad/watch_darwin.go:111-112 | a mask trimmed of trailing zeros is judged zero exactly when the whole one is |
| `RouteMessages.Judge` | cmd/mvad/watch_darwin.go:69-107 | in bounds on every byte string, and equals `Interesting` |
| `RouteMessages.HandleRead` | cmd/mvad/watch_darwin.go:49-61 | one event per interesting message, up to the queue's room |
| `RouteMessages.CountAddsUp` | cmd/mvad/watch_darwin.go:49-61 | the count of a read is the sum over its messages |
| `RouteMessages.CountsSome` | cmd/mvad/watch_darwin.go:54-59 | it is positive exactly when some message is interesting, and at most one each |
| `RouteMessages.FramesRecovered` | cmd/mvad/watch_darwin.go:49-61 | a read of whole messages is split into exactly those |
| `RouteMessages.HeaderFields` | cmd/mvad/watch_darwin_test.go:14-37 | every header field is read where the packing puts it |
| `RouteMessages.RouteMessageJudged` | cmd/mvad/watch_darwin.go:65-94 | from bytes to meaning: exactly which route messages call for a reconnect, kinds, families and flags as numbers |
| `RouteMessages.InterfaceMessageJudged` | cmd/mvad/watch_darwin.go:95-104 | an interface message calls for one exactly when it says the tunnel's own interface is not up under the kill-switch |
| `RouteMessages.ShortOrForeignIsPassedOver` | cmd/mvad/watch_darwin.go:70-106 | messages cut short, of another version or another kind never do |
| `RouteMessages.HeaderBytes` | cmd/mvad/watch_darwin_test.go:14-37 | every header word as the number its bytes spell |
| `RouteMessages.LinkIndexMeans` | cmd/mvad/watch_darwin.go:126-128 | the index of a link address is in its third and fourth byte |
| `Framing.DecodeUndoesEncode` | internal/udp2tcp/udp2tcp.go:22-61 | decoding the framed stream gives back the datagrams |
| `Framing.StreamStartsWithLength` | internal/udp2tcp/udp2tcp.go:31-32 | a stream starts with the big-endian length, then that datagram, then the rest |
| `Framing.PrefixDecodesToPrefix` | internal/udp2tcp/udp2tcp.go:39-61 | any prefix of any stream decodes to a prefix |
| `Framing.BrokenStreamYieldsPrefix` | internal/udp2tcp/udp2tcp.go:39-61 | a connection cut anywhere yields a prefix of what was sent |
| `Framing.LongerWouldWrap` | internal/udp2tcp/udp2tcp.go:13-31 | one byte beyond the buffer bound would wrap the length |
| `Framing.Stream.ReadFull` | internal/udp2tcp/udp2tcp.go:43-51 | exactly the next bytes however the stream is chunked, or the end |
| `Framing.ReadFrame` | internal/udp2tcp/udp2tcp.go:43-51 | one round takes exactly the first datagram off the stream |
| `Framing.TcpToUdp` | internal/udp2tcp/udp2tcp.go:39-61 | every whole datagram goes to the last source stored when its round asks, until the stream ends or a write fails |
| `Framing.LoadedIsTheLast` | internal/udp2tcp/udp2tcp.go:30-55 | the destination of a round is the last source stored by then |
| `Framing.DeliveryStopsAtFailure` | internal/udp2tcp/udp2tcp.go:52-59 | a failing write cuts off its own round and everything after, and no more |
| `Framing.OnlyTheFirstAreDropped` | internal/udp2tcp/udp2tcp.go:15-17 | with sources stored in order, only datagrams before the first known source are dropped |
| `Framing.UdpToTcp` | internal/udp2tcp/udp2tcp.go:22-37 | what is written is the encoding, or its start up to a write error |
| `Framing.Relay` | internal/udp2tcp/udp2tcp.go:18-64 | end to end under any chunking: the same datagrams are delivered, up to a failing write |
| `ShapeRects.FindRun` | cmd/mvad-gui/xembed.go:189-195 | the next maximal run of the row, or its end |
| `ShapeRects.ScanRow` | cmd/mvad-gui/xembed.go:187-204 | one row adds exactly its runs |
| `ShapeRects.BuildShapeRects` | cmd/mvad-gui/xembed.go:184-207 | the rectangles come from exactly the maximal runs in order, and are the shape exactly when every run fits |
| `ShapeRects.RectanglesAreTheShape` | cmd/mvad-gui/xembed.go:119-121 | rectangles of fitting runs cover exactly the opaque pixels, disjoint, in YXBanded order |
| `ShapeRects.ShapeExactlyWhenRunsFit` | cmd/mvad-gui/xembed.go:197-202 | and only of fitting runs: a wrapped one is out of order or not a run |
| `ShapeRects.SmallImagesFit` | cmd/mvad-gui/xembed.go:119-121 | every image of up to 32768 by 32768 pixels fits |
| `ShapeRects.WideImagesWrap` | cmd/mvad-gui/xembed.go:198-200 | an image one pixel too wide whose rectangles are not its shape |

## Left out

- Transport shims (udp2tcp and shadowsocks processes), their endpoints and the rollback of a shim that does not start: other processes' state.
- systemd-resolved and a symlinked `resolv.conf`: only the plain-file backend of DNS is modelled.
- The LAN multicast route, `--allow-lan`, notifications, the cgroup directory beyond its creation and the moving of pids: only easy members.
- The plain-mode nft chains: a plain table is one opaque value; nothing is claimed about packets in full-tunnel mode.
- Masquerading in the postrouting chains, and conntrack's memory of a rewrite: NAT is decided per packet here.
- SessionTheorems.DisconnectLeavesNothing: does not say that the user's own default route is back, because `ip route replace` leaves that to the kernel and the DHCP client.
- HalfRoutes.SetKeepsEndpoint: takes the kernel's table to hold masked destinations, and the answer of `route get` to be the best route.
- Framing.TcpToUdp: what the other loop has stored at each round is a parameter; the scheduler itself is not modelled.
- RouteMessages.Judge: native byte order is little-endian.
- LiveSets.ParseSetElems: starts from the decoded element list of one set; JSON text and address syntax are parameters.
- Host.ProbeTunnel: which attempts are answered is a parameter; sockets and timeouts are not modelled.
- Corrupt state or config files, failed reads of the sysctl, edits by the GUI, and other writers of routes or files: assumed away.
- Editing the recorded split entries (`splitAddEntry`, `splitRmMatch`, `parseNet`): short list edits.
- The text handed to and read from `nft`, `ip`, `route` and `pfctl`: each call is one step with a result.
- HTTP, tokens, accounts, devices, lockdown, the `mvad up` loop and the GUI.
