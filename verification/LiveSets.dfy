// Reading nft sets back, resolving the recorded entries, and reconciling the
// two: what a reconnect seeds and what a refresh installs.
module LiveSets {
  import opened Net
  import opened PrefixSets

  // ---- Reading a set back -------------------------------------------------

  // A decoded JSON value; of object members with one name the last counts.
  datatype Json =
    | Null
    | Num(n: int)
    | Str(s: string)
    | Obj(members: seq<(string, Json)>)

  function Member(members: seq<(string, Json)>, key: string): (v: Json)
    ensures v == Null || exists i :: 0 <= i < |members| && members[i].1 == v
  {
    if members == [] then Null
    else
      var n := |members| - 1;
      if members[n].0 == key then members[n].1 else Member(members[..n], key)
  }

  // Address syntax, left abstract: what the text of an address parses to.
  type AddrParser = string -> Option<Addr>

  // The masked prefix of the given length, when there is one.
  function PrefixAt(a: Addr, len: int): (r: Option<Prefix>)
    ensures r.Some? <==> 0 <= len <= Width(a.fam)
  {
    if 0 <= len <= Width(a.fam) then Some(Masked(RawPrefix(a, len))) else None
  }

  // A missing or ill-typed length reads as 0, a missing address as "".
  function PrefixObject(members: seq<(string, Json)>, parse: AddrParser): Option<Prefix> {
    var addr := Member(members, "addr");
    var len := Member(members, "len");
    match parse(if addr.Str? then addr.s else "")
    case None => None
    case Some(a) => PrefixAt(a, if len.Num? then len.n else 0)
  }

  function ElemPrefix(e: Json, parse: AddrParser): Option<Prefix>
    decreases e
  {
    match e
    case Str(s) =>
      (match parse(s)
       case None => None
       case Some(a) => Some(HostPrefix(a)))
    case Obj(members) =>
      var inner := Member(members, "elem");
      if inner.Obj? then
        var val := Member(inner.members, "val");
        if val == Null then None else ElemPrefix(val, parse)
      else
        var pr := Member(members, "prefix");
        if pr.Obj? then PrefixObject(pr.members, parse) else None
    case _ => None
  }

  // How nft prints the element p: bare, or inside any number of elem wrappers,
  // each carrying whatever other members (timeouts, counters) it likes.
  ghost predicate Shows(e: Json, p: Prefix, parse: AddrParser, depth: nat)
    decreases depth
  {
    if depth == 0 then
      || (e.Str? && p == HostPrefix(p.addr) && parse(e.s) == Some(p.addr))
      || (e.Obj? && !Member(e.members, "elem").Obj?
          && Member(e.members, "prefix").Obj?
          && var pr := Member(e.members, "prefix").members;
             Member(pr, "addr").Str? && parse(Member(pr, "addr").s) == Some(p.addr) && Member(pr, "len") == Num(p.len))
    else
      && e.Obj? && Member(e.members, "elem").Obj?
      && Shows(Member(Member(e.members, "elem").members, "val"), p, parse, depth - 1)
  }

  lemma {:induction false} ShownElementReadsBack(e: Json, p: Prefix, parse: AddrParser, depth: nat)
    requires Canonical(p) && Shows(e, p, parse, depth)
    ensures ElemPrefix(e, parse) == Some(p)
    decreases depth
  {
    if depth > 0 {
      ShownElementReadsBack(Member(Member(e.members, "elem").members, "val"), p, parse, depth - 1);
    }
  }

  function IfAny(p: Option<Prefix>): seq<Prefix> {
    if p.Some? then [p.value] else []
  }

  // The values that are there, in order.
  function Somes(os: seq<Option<Prefix>>): seq<Prefix> {
    if os == [] then [] else Somes(os[..|os| - 1]) + IfAny(os[|os| - 1])
  }

  function Elems(es: seq<Json>, parse: AddrParser): (os: seq<Option<Prefix>>)
    ensures |os| == |es| && forall i :: 0 <= i < |es| ==> os[i] == ElemPrefix(es[i], parse)
  {
    seq(|es|, i requires 0 <= i < |es| => ElemPrefix(es[i], parse))
  }

  // The elements that parse, in order.
  function Readable(es: seq<Json>, parse: AddrParser): seq<Prefix> {
    Somes(Elems(es, parse))
  }

  // One family's listing: None when the nft command failed.
  type Listing = Option<seq<Json>>

  function ListingNets(doc: Listing, parse: AddrParser): seq<Prefix> {
    if doc.None? then [] else Readable(doc.value, parse)
  }

  function LiveNets(doc4: Listing, doc6: Listing, parse: AddrParser): seq<Prefix> {
    ListingNets(doc4, parse) + ListingNets(doc6, parse)
  }

  method ParseSetElems(es: seq<Json>, parse: AddrParser) returns (out: seq<Prefix>)
    ensures out == Readable(es, parse)
  {
    out := [];
    ghost var os := Elems(es, parse);
    for i := 0 to |es|
      invariant out == Somes(os[..i])
    {
      assert os[..i + 1][..i] == os[..i];
      var p := ElemPrefix(es[i], parse);
      if p.Some? {
        out := out + [p.value];
      }
    }
    assert os[..|es|] == os;
  }

  method ReadLiveNets(docs: seq<Listing>, parse: AddrParser) returns (out: seq<Prefix>)
    requires |docs| == 2
    ensures out == LiveNets(docs[0], docs[1], parse)
  {
    out := [];
    for fam := 0 to 2
      invariant fam == 0 ==> out == []
      invariant fam == 1 ==> out == ListingNets(docs[0], parse)
      invariant fam == 2 ==> out == LiveNets(docs[0], docs[1], parse)
    {
      if docs[fam].Some? {
        var ps := ParseSetElems(docs[fam].value, parse);
        out := out + ps;
      }
    }
  }

  ghost predicate Printed(e: Json, p: Prefix, parse: AddrParser) {
    exists depth: nat :: Shows(e, p, parse, depth)
  }

  lemma {:induction false} PrintedElementReadsBack(e: Json, p: Prefix, parse: AddrParser)
    requires Canonical(p) && Printed(e, p, parse)
    ensures ElemPrefix(e, parse) == Some(p)
  {
    var depth: nat :| Shows(e, p, parse, depth);
    ShownElementReadsBack(e, p, parse, depth);
  }

  // es prints the set ps: every element shown, nothing else shown.
  ghost predicate Prints(es: seq<Json>, ps: seq<Prefix>, parse: AddrParser) {
    && |es| == |ps|
    && forall i :: 0 <= i < |es| ==> Printed(es[i], ps[i], parse)
  }

  lemma {:induction false} SomesOfAll(os: seq<Option<Prefix>>, ps: seq<Prefix>)
    requires |os| == |ps| && forall i :: 0 <= i < |os| ==> os[i] == Some(ps[i])
    ensures Somes(os) == ps
  {
    if os != [] {
      var n := |os| - 1;
      SomesOfAll(os[..n], ps[..n]);
      assert ps == ps[..n] + [ps[n]];
    }
  }

  lemma {:induction false} PrintedSetReadsBack(es: seq<Json>, ps: seq<Prefix>, parse: AddrParser)
    requires AllCanonical(ps) && Prints(es, ps, parse)
    ensures Readable(es, parse) == ps
  {
    forall i | 0 <= i < |es| ensures ElemPrefix(es[i], parse) == Some(ps[i]) {
      assert ps[i] in ps;
      PrintedElementReadsBack(es[i], ps[i], parse);
    }
    SomesOfAll(Elems(es, parse), ps);
  }

  // ---- Resolving the recorded entries -------------------------------------

  // What the outside says about a name at the time it is asked.
  type Resolver = string -> Option<seq<Prefix>>

  datatype SplitConfig = SplitConfig(
    nets: seq<Option<Prefix>>,  // recorded prefixes; None does not parse and is skipped
    docker: seq<string>,
    compose: seq<string>,
    k8s: seq<string>)

  // A container without an address counts as unresolved.
  function DockerEntry(docker: Resolver): Resolver {
    name => var r := docker(name); if r == Some([]) then None else r
  }

  // Compose: every container of the project resolves and at least one has an address.
  function Flatten(ids: seq<string>, docker: Resolver): Option<seq<Prefix>> {
    if ids == [] then Some([])
    else
      match docker(ids[0])
      case None => None
      case Some(ps) =>
        match Flatten(ids[1..], docker)
        case None => None
        case Some(qs) => Some(ps + qs)
  }

  // What docker says the containers of a project or service are.
  type Containers = string -> Option<seq<string>>

  function ComposeEntry(containers: Containers, docker: Resolver): Resolver {
    entry =>
      var ids := containers(entry);
      if ids.None? then None
      else
        var ps := Flatten(ids.value, docker);
        if ps == Some([]) then None else ps
  }

  method ComposeNets(entry: string, containers: Containers, docker: Resolver) returns (r: Option<seq<Prefix>>)
    ensures r == ComposeEntry(containers, docker)(entry)
  {
    var ids := containers(entry);
    if ids.None? {
      return None;
    }
    var ps: seq<Prefix> := [];
    ghost var all := Flatten(ids.value, docker);
    assert ids.value[0..] == ids.value;
    for i := 0 to |ids.value|
      invariant all.Some? <==> Flatten(ids.value[i..], docker).Some?
      invariant all.Some? ==> all.value == ps + Flatten(ids.value[i..], docker).value
    {
      var got := docker(ids.value[i]);
      assert ids.value[i..][1..] == ids.value[i + 1..];
      if got.None? {
        return None;
      }
      ps := ps + got.value;
    }
    assert ps + [] == ps;
    return if ps == [] then None else Some(ps);
  }

  // A compose entry resolves exactly when its containers can be listed, every
  // one of them resolves and some one has an address; then to all addresses.
  lemma {:induction false} ComposeResolvesIff(entry: string, containers: Containers, docker: Resolver)
    ensures var r, ids := ComposeEntry(containers, docker)(entry), containers(entry);
            && (r.Some? <==> ids.Some? && (forall id :: id in ids.value ==> docker(id).Some?)
                             && exists id :: id in ids.value && docker(id).Some? && docker(id).value != [])
            && (r.Some? ==> forall p :: p in r.value <==> exists id :: id in ids.value && p in docker(id).value)
  {
    if containers(entry).Some? {
      FlattenMembers(containers(entry).value, docker);
    }
  }

  lemma {:induction false} FlattenMembers(ids: seq<string>, docker: Resolver)
    ensures Flatten(ids, docker).Some? <==> forall id :: id in ids ==> docker(id).Some?
    ensures Flatten(ids, docker).Some? ==>
      && (forall p :: p in Flatten(ids, docker).value <==> exists id :: id in ids && p in docker(id).value)
      && (Flatten(ids, docker).value != [] <==> exists id :: id in ids && docker(id).value != [])
  {
    if ids != [] {
      FlattenMembers(ids[1..], docker);
      assert ids == [ids[0]] + ids[1..];
    }
  }

  function Resolved(names: seq<string>, lookup: Resolver): seq<Prefix> {
    if names == [] then []
    else
      var last := lookup(names[|names| - 1]);
      Resolved(names[..|names| - 1], lookup) + if last.Some? then last.value else []
  }

  function Failed(names: seq<string>, lookup: Resolver): seq<string> {
    if names == [] then []
    else
      var last := names[|names| - 1];
      Failed(names[..|names| - 1], lookup) + if lookup(last).Some? then [] else [last]
  }

  datatype Sources = Sources(docker: Resolver, containers: Containers, k8s: Resolver)

  function AllResolved(cfg: SplitConfig, env: Sources): seq<Prefix> {
    Somes(cfg.nets) + Resolved(cfg.docker, DockerEntry(env.docker))
    + Resolved(cfg.compose, ComposeEntry(env.containers, env.docker)) + Resolved(cfg.k8s, env.k8s)
  }

  function AllFailed(cfg: SplitConfig, env: Sources): seq<string> {
    Failed(cfg.docker, DockerEntry(env.docker))
    + Failed(cfg.compose, ComposeEntry(env.containers, env.docker)) + Failed(cfg.k8s, env.k8s)
  }

  method AppendEntries(names: seq<string>, lookup: Resolver, nets0: seq<Prefix>, errs0: seq<string>)
    returns (nets: seq<Prefix>, errs: seq<string>)
    ensures nets == nets0 + Resolved(names, lookup)
    ensures errs == errs0 + Failed(names, lookup)
  {
    nets, errs := nets0, errs0;
    for i := 0 to |names|
      invariant nets == nets0 + Resolved(names[..i], lookup)
      invariant errs == errs0 + Failed(names[..i], lookup)
    {
      assert names[..i + 1][..i] == names[..i];
      var ps := lookup(names[i]);
      if ps.None? {
        errs := errs + [names[i]];
      } else {
        nets := nets + ps.value;
      }
    }
    assert names[..|names|] == names;
  }

  // The middle loop, each entry through ComposeNets.
  method AppendCompose(names: seq<string>, env: Sources, nets0: seq<Prefix>, errs0: seq<string>)
    returns (nets: seq<Prefix>, errs: seq<string>)
    ensures nets == nets0 + Resolved(names, ComposeEntry(env.containers, env.docker))
    ensures errs == errs0 + Failed(names, ComposeEntry(env.containers, env.docker))
  {
    ghost var lookup := ComposeEntry(env.containers, env.docker);
    nets, errs := nets0, errs0;
    for i := 0 to |names|
      invariant nets == nets0 + Resolved(names[..i], lookup)
      invariant errs == errs0 + Failed(names[..i], lookup)
    {
      assert names[..i + 1][..i] == names[..i];
      var ps := ComposeNets(names[i], env.containers, env.docker);
      if ps.None? {
        errs := errs + [names[i]];
      } else {
        nets := nets + ps.value;
      }
    }
    assert names[..|names|] == names;
  }

  method ParseNets(nets: seq<Option<Prefix>>) returns (ps: seq<Prefix>)
    ensures ps == Somes(nets)
  {
    ps := [];
    for i := 0 to |nets|
      invariant ps == Somes(nets[..i])
    {
      assert nets[..i + 1][..i] == nets[..i];
      if nets[i].Some? {
        ps := ps + [nets[i].value];
      }
    }
    assert nets[..|nets|] == nets;
  }

  method ResolveSplitNets(cfg: SplitConfig, env: Sources) returns (nets: seq<Prefix>, errs: seq<string>)
    ensures nets == AllResolved(cfg, env)
    ensures errs == AllFailed(cfg, env)
    ensures errs == [] <==> EveryEntryResolves(cfg, env)
    ensures forall a: Addr :: Denotes(nets, a) <==> StandsFor(cfg, env, a)
  {
    AllFailedIff(cfg, env);
    forall a: Addr ensures Denotes(AllResolved(cfg, env), a) <==> StandsFor(cfg, env, a) {
      AllResolvedDenotes(cfg, env, a);
    }
    nets := ParseNets(cfg.nets);
    var docker := DockerEntry(env.docker);
    nets, errs := AppendEntries(cfg.docker, docker, nets, []);
    assert errs == Failed(cfg.docker, docker);
    nets, errs := AppendCompose(cfg.compose, env, nets, errs);
    nets, errs := AppendEntries(cfg.k8s, env.k8s, nets, errs);
  }

  // ---- What was resolved, entry by entry -----------------------------------

  // A container with an address.
  predicate Addressed(docker: Resolver, name: string) {
    docker(name).Some? && docker(name).value != []
  }

  // A compose entry whose containers can be listed, all of them resolve, and one
  // has an address.
  ghost predicate ComposeUp(env: Sources, entry: string) {
    && env.containers(entry).Some?
    && (forall id :: id in env.containers(entry).value ==> env.docker(id).Some?)
    && exists id :: id in env.containers(entry).value && Addressed(env.docker, id)
  }

  // Every recorded entry resolves.
  ghost predicate EveryEntryResolves(cfg: SplitConfig, env: Sources) {
    && (forall name :: name in cfg.docker ==> Addressed(env.docker, name))
    && (forall entry :: entry in cfg.compose ==> ComposeUp(env, entry))
    && (forall entry :: entry in cfg.k8s ==> env.k8s(entry).Some?)
  }

  // An address some recorded entry stands for now: a prefix that parses, a
  // container, a container of a compose entry that is up, or a k8s entry.
  ghost predicate StandsFor(cfg: SplitConfig, env: Sources, a: Addr) {
    || (exists p :: Some(p) in cfg.nets && Contains(p, a))
    || (exists name :: name in cfg.docker && env.docker(name).Some? && Denotes(env.docker(name).value, a))
    || (exists entry, id :: entry in cfg.compose && ComposeUp(env, entry)
                            && id in env.containers(entry).value && Denotes(env.docker(id).value, a))
    || (exists entry :: entry in cfg.k8s && env.k8s(entry).Some? && Denotes(env.k8s(entry).value, a))
  }

  lemma {:induction false} FailedMembers(names: seq<string>, lookup: Resolver, name: string)
    ensures name in Failed(names, lookup) <==> name in names && lookup(name).None?
  {
    if names != [] {
      var n := |names| - 1;
      FailedMembers(names[..n], lookup, name);
      assert names == names[..n] + [names[n]];
    }
  }

  lemma {:induction false} NoneFailedIff(names: seq<string>, lookup: Resolver)
    ensures Failed(names, lookup) == [] <==> forall name :: name in names ==> lookup(name).Some?
  {
    forall name ensures name in Failed(names, lookup) <==> name in names && lookup(name).None? {
      FailedMembers(names, lookup, name);
    }
    if Failed(names, lookup) != [] {
      assert Failed(names, lookup)[0] in Failed(names, lookup);
    }
  }

  lemma {:induction false} ResolvedDenotes(names: seq<string>, lookup: Resolver, a: Addr)
    ensures Denotes(Resolved(names, lookup), a) <==>
      exists name :: name in names && lookup(name).Some? && Denotes(lookup(name).value, a)
  {
    if names != [] {
      var n := |names| - 1;
      var last := lookup(names[n]);
      ResolvedDenotes(names[..n], lookup, a);
      DenotesAppend(Resolved(names[..n], lookup), if last.Some? then last.value else [], a);
      assert names == names[..n] + [names[n]];
    }
  }

  lemma {:induction false} SomesDenotes(os: seq<Option<Prefix>>, a: Addr)
    ensures Denotes(Somes(os), a) <==> exists p :: Some(p) in os && Contains(p, a)
  {
    if os != [] {
      var n := |os| - 1;
      SomesDenotes(os[..n], a);
      DenotesAppend(Somes(os[..n]), IfAny(os[n]), a);
      assert os == os[..n] + [os[n]];
    }
  }

  lemma {:induction false} ComposeIs(env: Sources, entry: string, a: Addr)
    ensures var r := ComposeEntry(env.containers, env.docker)(entry);
            && (r.Some? <==> ComposeUp(env, entry))
            && (r.Some? ==> (Denotes(r.value, a) <==>
                  exists id :: id in env.containers(entry).value && Denotes(env.docker(id).value, a)))
  {
    ComposeResolvesIff(entry, env.containers, env.docker);
  }

  // Nothing failed exactly when every entry resolves.
  lemma AllFailedIff(cfg: SplitConfig, env: Sources)
    ensures AllFailed(cfg, env) == [] <==> EveryEntryResolves(cfg, env)
  {
    var compose := ComposeEntry(env.containers, env.docker);
    NoneFailedIff(cfg.docker, DockerEntry(env.docker));
    NoneFailedIff(cfg.compose, compose);
    NoneFailedIff(cfg.k8s, env.k8s);
    forall entry ensures compose(entry).Some? <==> ComposeUp(env, entry) {
      ComposeResolvesIff(entry, env.containers, env.docker);
    }
  }

  // What was resolved holds exactly the addresses the entries stand for.
  lemma AllResolvedDenotes(cfg: SplitConfig, env: Sources, a: Addr)
    ensures Denotes(AllResolved(cfg, env), a) <==> StandsFor(cfg, env, a)
  {
    var docker, compose := DockerEntry(env.docker), ComposeEntry(env.containers, env.docker);
    var nets, dockers, composes, pods :=
      Somes(cfg.nets), Resolved(cfg.docker, docker), Resolved(cfg.compose, compose), Resolved(cfg.k8s, env.k8s);
    DenotesAppend(nets + dockers + composes, pods, a);
    DenotesAppend(nets + dockers, composes, a);
    DenotesAppend(nets, dockers, a);
    SomesDenotes(cfg.nets, a);
    DockersDenote(cfg.docker, env.docker, a);
    ComposesDenote(cfg.compose, env, a);
    ResolvedDenotes(cfg.k8s, env.k8s, a);
  }

  lemma {:induction false} DockersDenote(names: seq<string>, docker: Resolver, a: Addr)
    ensures Denotes(Resolved(names, DockerEntry(docker)), a) <==>
      exists name :: name in names && docker(name).Some? && Denotes(docker(name).value, a)
  {
    ResolvedDenotes(names, DockerEntry(docker), a);
  }

  lemma {:induction false} ComposesDenote(entries: seq<string>, env: Sources, a: Addr)
    ensures Denotes(Resolved(entries, ComposeEntry(env.containers, env.docker)), a) <==>
      exists entry, id :: entry in entries && ComposeUp(env, entry)
                          && id in env.containers(entry).value && Denotes(env.docker(id).value, a)
  {
    var compose := ComposeEntry(env.containers, env.docker);
    ResolvedDenotes(entries, compose, a);
    forall entry ensures compose(entry).Some? <==> ComposeUp(env, entry)
      ensures compose(entry).Some? ==> (Denotes(compose(entry).value, a) <==>
        exists id :: id in env.containers(entry).value && Denotes(env.docker(id).value, a))
    {
      ComposeIs(env, entry, a);
    }
  }

  // ---- Seeding and reconciling --------------------------------------------

  // The list a connect hands to split.Up.
  function SeedNets(split: bool, cfg: SplitConfig, env: Sources, live: seq<Prefix>): seq<Prefix> {
    AllResolved(cfg, env) + if split && AllFailed(cfg, env) != [] then live else []
  }

  lemma {:induction false} DenotesAppend(ps: seq<Prefix>, qs: seq<Prefix>, a: Addr)
    ensures Denotes(ps + qs, a) <==> Denotes(ps, a) || Denotes(qs, a)
  {
  }

  // What the new set protects, address by address: everything that resolved,
  // and in split mode with an unresolved entry also everything the old set of
  // that family held, provided nft could list it.
  lemma {:induction false} SeedKeepsTheOldSet(split: bool, cfg: SplitConfig, env: Sources,
                                              old4: seq<Prefix>, old6: seq<Prefix>, doc4: Listing, doc6: Listing,
                                              parse: AddrParser, a: Addr)
    requires AllCanonical(old4) && AllCanonical(old6)
    requires forall p :: p in old4 ==> p.addr.fam == V4
    requires forall p :: p in old6 ==> p.addr.fam == V6
    requires doc4.Some? ==> Prints(doc4.value, old4, parse)
    requires doc6.Some? ==> Prints(doc6.value, old6, parse)
    ensures var seed := SeedNets(split, cfg, env, LiveNets(doc4, doc6, parse));
            Denotes(OfFamily(Coalesced(seed), a.fam), a) <==>
              || StandsFor(cfg, env, a)
              || (split && !EveryEntryResolves(cfg, env)
                  && (if a.fam == V4 then doc4.Some? && Denotes(old4, a) else doc6.Some? && Denotes(old6, a)))
  {
    var live := LiveNets(doc4, doc6, parse);
    AllFailedIff(cfg, env);
    AllResolvedDenotes(cfg, env, a);
    if doc4.Some? {
      PrintedSetReadsBack(doc4.value, old4, parse);
    }
    if doc6.Some? {
      PrintedSetReadsBack(doc6.value, old6, parse);
    }
    DenotesAppend(ListingNets(doc4, parse), ListingNets(doc6, parse), a);
    var seed := SeedNets(split, cfg, env, live);
    FamilySetIsExact(seed, a.fam, a);
    DenotesAppend(AllResolved(cfg, env), if split && AllFailed(cfg, env) != [] then live else [], a);
  }

  // The two live sets and whether a session's state file is there.
  class NftSets {
    var available: bool
    var net4: seq<Prefix>
    var net6: seq<Prefix>

    ghost predicate Holds(a: Addr)
      reads this
    {
      Denotes(if a.fam == V4 then net4 else net6, a)
    }

    // One nft transaction; accepted says whether nft took it.
    method SetNets(ps: seq<Prefix>, accepted: bool) returns (ok: bool)
      modifies this
      ensures ok == (available && accepted) && available == old(available)
      ensures !ok ==> unchanged(this)
      ensures ok ==> net4 == OfFamily(Coalesced(ps), V4) && net6 == OfFamily(Coalesced(ps), V6)
    {
      if !available {
        return false;
      }
      var kept := Coalesce(ps);
      var e4 := FamilyElems(kept, V4);
      var e6 := FamilyElems(kept, V6);
      if accepted {
        net4, net6 := e4, e6;
      }
      return accepted;
    }

    // Refuses to reconcile on any unresolved entry; otherwise the live sets
    // become exactly the resolved addresses.
    method SyncNets(cfg: SplitConfig, env: Sources, accepted: bool) returns (ok: bool)
      modifies this
      ensures ok <==> !available || (EveryEntryResolves(cfg, env) && accepted)
      ensures !ok || !available ==> unchanged(this)
      ensures available == old(available)
      ensures ok && available ==> forall a: Addr :: Holds(a) <==> StandsFor(cfg, env, a)
    {
      if !available {
        return true;
      }
      var nets, errs := ResolveSplitNets(cfg, env);
      AllFailedIff(cfg, env);
      if errs != [] {
        return false;
      }
      ok := SetNets(nets, accepted);
      if ok {
        forall a: Addr ensures Holds(a) <==> StandsFor(cfg, env, a) {
          FamilySetIsExact(nets, a.fam, a);
          AllResolvedDenotes(cfg, env, a);
        }
      }
    }
  }
}
