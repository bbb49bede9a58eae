// The macOS routes: two half-space routes per family outrank the default, which
// configd owns, and a host route keeps the endpoint off the tunnel.
module HalfRoutes {
  import opened Net
  import opened Tables

  // An on-link or interface route has no gateway.
  datatype Hop = Hop(gateway: Option<string>, dev: string)

  type Routes = Table<Hop>

  // The table is keyed by destination and mask alone.
  function Key(dst: Prefix): RouteKey {
    RouteKey(dst, 0)
  }

  function HalfSpace(fam: Family, upper: bool): (p: Prefix)
    ensures p.len == 1 && p.addr.fam == fam && Canonical(p) && Network(p) == [upper]
  {
    var a := Pad(fam, [upper]);
    assert Pad(fam, a.bits[..1]) == a;
    RawPrefix(a, 1)
  }

  // 0/1, 128/1, ::/1 and 8000::/1.
  function Halves(): (hs: seq<RouteKey>)
    ensures |hs| == 4
    ensures forall i, j :: 0 <= i < j < 4 ==> hs[i] != hs[j]
  {
    var hs := [Key(HalfSpace(V4, false)), Key(HalfSpace(V4, true)),
               Key(HalfSpace(V6, false)), Key(HalfSpace(V6, true))];
    assert Network(hs[0].dst) != Network(hs[1].dst) && Network(hs[2].dst) != Network(hs[3].dst);
    hs
  }

  function HostKey(a: Addr): RouteKey {
    Key(HostPrefix(a))
  }

  // The first n destinations of hs added, all through iface.
  function Added(t: Routes, iface: string, hs: seq<RouteKey>, n: nat): Routes
    requires n <= |hs|
  {
    if n == 0 then t else Added(t, iface, hs, n - 1)[hs[n - 1] := Hop(None, iface)]
  }

  // The table with the endpoint pinned to the hop it has now.
  ghost function Pinned(t: Routes, endpoint: Option<Addr>): Routes
    requires endpoint.Some? ==> Lookup(t, endpoint.value).Some?
  {
    if endpoint.None? then t else t[HostKey(endpoint.value) := t[Lookup(t, endpoint.value).value]]
  }

  // What route get says of an address: its best route's hop.
  ghost function Answer(t: Routes, a: Addr): Option<Hop> {
    if Lookup(t, a).Some? then Some(t[Lookup(t, a).value]) else None
  }

  // drop: delete dst if it is there and goes through iface.
  function Dropped(t: Routes, iface: string, k: RouteKey): Routes {
    if k in t && t[k].dev == iface then t - {k} else t
  }

  function DroppedAll(t: Routes, iface: string, hs: seq<RouteKey>, n: nat): Routes
    requires n <= |hs|
  {
    if n == 0 then t else Dropped(DroppedAll(t, iface, hs, n - 1), iface, hs[n - 1])
  }

  function Unpinned(t: Routes, endpoint: Option<Addr>): Routes {
    if endpoint.None? then t else t - {HostKey(endpoint.value)}
  }

  function UnsetRoutes(t: Routes, iface: string, endpoint: Option<Addr>): Routes {
    Unpinned(DroppedAll(t, iface, Halves(), 4), endpoint)
  }

  // What a successful set needs and makes.
  ghost predicate Settable(t: Routes, endpoint: Option<Addr>) {
    && (forall i :: 0 <= i < 4 ==> Halves()[i] !in t)
    && (endpoint.Some? ==> HostKey(endpoint.value) !in t && Lookup(t, endpoint.value).Some?)
  }

  ghost function SetRoutes(t: Routes, iface: string, endpoint: Option<Addr>): Routes
    requires Settable(t, endpoint)
  {
    Added(Pinned(t, endpoint), iface, Halves(), 4)
  }

  // ---- The code -------------------------------------------------------------

  class RouteTable {
    var routes: Routes

    // route add: refused when the destination is there, or for reasons of its own.
    method Add(k: RouteKey, hop: Hop, accepted: bool) returns (ok: bool)
      modifies this
      ensures ok <==> accepted && k !in old(routes)
      ensures routes == if ok then old(routes)[k := hop] else old(routes)
    {
      ok := accepted && k !in routes;
      if ok {
        routes := routes[k := hop];
      }
    }

    // route get of a network: its own route, or else the default.
    method GetNet(k: RouteKey) returns (hop: Option<Hop>)
      ensures k in routes ==> hop == Some(routes[k])
      ensures k !in routes ==>
        var fallback := Key(Anywhere(k.dst.addr.fam));
        hop == if fallback in routes then Some(routes[fallback]) else None
    {
      var fallback := Key(Anywhere(k.dst.addr.fam));
      hop := if k in routes then Some(routes[k]) else if fallback in routes then Some(routes[fallback]) else None;
    }

    // Deleting what is not there is no error.
    method Delete(k: RouteKey)
      modifies this
      ensures routes == old(routes) - {k}
    {
      routes := routes - {k};
    }

    method Drop(iface: string, k: RouteKey)
      modifies this
      ensures routes == Dropped(old(routes), iface, k)
    {
      var hop := GetNet(k);
      if hop.None? || hop.value.dev != iface {
        return;
      }
      Delete(k);
      assert k !in old(routes) ==> old(routes) - {k} == old(routes);
    }

    // answer is what route get printed for the endpoint: its best route's hop.
    method Pin(endpoint: Addr, answer: Option<Hop>, accepted: bool) returns (ok: bool)
      requires answer == Answer(routes, endpoint)
      modifies this
      ensures ok ==> HostKey(endpoint) !in old(routes) && Lookup(old(routes), endpoint).Some?
                     && routes == Pinned(old(routes), Some(endpoint))
      ensures !ok ==> routes == old(routes)
      ensures ok <==> accepted && answer.Some? && answer.value.dev != "" && HostKey(endpoint) !in old(routes)
    {
      if answer.None? || answer.value.dev == "" {
        return false;
      }
      ok := Add(HostKey(endpoint), answer.value, accepted);
    }

    // The halves one by one; a refusal drops the ones already added.
    method AddHalves(iface: string, hs: seq<RouteKey>, accepted: seq<bool>) returns (ok: bool)
      requires |accepted| == |hs| && Distinct(hs)
      modifies this
      ensures ok ==>
        && (forall i :: 0 <= i < |hs| ==> hs[i] !in old(routes))
        && routes == Added(old(routes), iface, hs, |hs|)
      ensures !ok ==> routes == old(routes)
      ensures ok <==> forall i :: 0 <= i < |hs| ==> accepted[i] && hs[i] !in old(routes)
    {
      for i := 0 to |hs|
        invariant routes == Added(old(routes), iface, hs, i)
        invariant forall j :: 0 <= j < i ==> accepted[j] && hs[j] !in old(routes)
      {
        AddedKeys(old(routes), iface, hs, i);
        ok := Add(hs[i], Hop(None, iface), accepted[i]);
        if !ok {
          for j := 0 to i
            invariant routes == DroppedAll(Added(old(routes), iface, hs, i), iface, hs, j)
          {
            Drop(iface, hs[j]);
          }
          DroppingUndoes(old(routes), iface, hs, i);
          return;
        }
      }
      ok := true;
    }

    // All or nothing. pinned is the fate of the pin, accepted that of the halves.
    method Set(iface: string, endpoint: Option<Addr>, answer: Option<Hop>, pinned: bool, accepted: seq<bool>)
      returns (ok: bool)
      requires |accepted| == 4
      requires endpoint.Some? ==>
        answer == Answer(routes, endpoint.value)
      modifies this
      ensures ok ==> Settable(old(routes), endpoint) && routes == SetRoutes(old(routes), iface, endpoint)
      ensures !ok ==> routes == old(routes)
      ensures ok <==>
        && Settable(old(routes), endpoint) && (forall i :: 0 <= i < 4 ==> accepted[i])
        && (endpoint.Some? ==> pinned && answer.value.dev != "")
    {
      if endpoint.Some? {
        ok := Pin(endpoint.value, answer, pinned);
        if !ok {
          return;
        }
      }
      PinnedHalves(old(routes), endpoint);
      ok := AddHalves(iface, Halves(), accepted);
      if !ok && endpoint.Some? {
        Delete(HostKey(endpoint.value));
        assert routes == old(routes);
      }
    }

    method Unset(iface: string, endpoint: Option<Addr>)
      modifies this
      ensures routes == UnsetRoutes(old(routes), iface, endpoint)
    {
      var hs := Halves();
      for i := 0 to 4
        invariant routes == DroppedAll(old(routes), iface, hs, i)
      {
        Drop(iface, hs[i]);
      }
      if endpoint.Some? {
        Delete(HostKey(endpoint.value));
      }
    }
  }

  // ---- Lemmas about the table -------------------------------------------------

  ghost predicate Distinct(hs: seq<RouteKey>) {
    forall i, j :: 0 <= i < j < |hs| ==> hs[i] != hs[j]
  }

  lemma {:induction false} AddedKeys(t: Routes, iface: string, hs: seq<RouteKey>, n: nat)
    requires n <= |hs|
    ensures forall k :: k in Added(t, iface, hs, n) <==> k in t || k in hs[..n]
    ensures forall k :: k in t && k !in hs[..n] ==> Added(t, iface, hs, n)[k] == t[k]
    ensures forall k :: k in hs[..n] ==> Added(t, iface, hs, n)[k] == Hop(None, iface)
  {
    if n > 0 {
      AddedKeys(t, iface, hs, n - 1);
      assert hs[..n] == hs[..n - 1] + [hs[n - 1]];
    }
  }

  // Dropping the first m of n added destinations.
  lemma {:induction false} DroppingSome(t: Routes, iface: string, hs: seq<RouteKey>, n: nat, m: nat)
    requires m <= n <= |hs| && Distinct(hs) && forall k :: k in hs[..n] ==> k !in t
    ensures var u := DroppedAll(Added(t, iface, hs, n), iface, hs, m);
            && (forall k :: k in u <==> k in t || k in hs[m..n])
            && (forall k :: k in t ==> u[k] == t[k])
            && (forall k :: k in hs[m..n] ==> u[k] == Hop(None, iface))
    decreases m
  {
    if m == 0 {
      AddedKeys(t, iface, hs, n);
      assert hs[0..n] == hs[..n];
    } else {
      DroppingSome(t, iface, hs, n, m - 1);
      assert hs[m - 1..n] == [hs[m - 1]] + hs[m..n];
      assert hs[m - 1] in hs[..n];
      assert hs[m - 1] !in hs[m..n];
    }
  }

  lemma {:induction false} DroppingUndoes(t: Routes, iface: string, hs: seq<RouteKey>, n: nat)
    requires n <= |hs| && Distinct(hs) && forall i :: 0 <= i < n ==> hs[i] !in t
    ensures DroppedAll(Added(t, iface, hs, n), iface, hs, n) == t
  {
    DroppingSome(t, iface, hs, n, n);
  }

  lemma PinnedHalves(t: Routes, endpoint: Option<Addr>)
    requires endpoint.Some? ==> Lookup(t, endpoint.value).Some?
    ensures forall i :: 0 <= i < 4 ==> (Halves()[i] in Pinned(t, endpoint) <==> Halves()[i] in t)
  {
    assert forall i :: 0 <= i < 4 ==> Halves()[i].dst.len == 1;
  }

  // Unset after set gives back the table, and with it every lookup.
  lemma {:induction false} UnsetUndoesSet(t: Routes, iface: string, endpoint: Option<Addr>)
    requires Settable(t, endpoint)
    ensures UnsetRoutes(SetRoutes(t, iface, endpoint), iface, endpoint) == t
  {
    PinnedHalves(t, endpoint);
    DroppingUndoes(Pinned(t, endpoint), iface, Halves(), 4);
  }

  // The endpoint keeps the hop it had.
  lemma {:induction false} SetKeepsEndpoint(t: Routes, iface: string, endpoint: Addr)
    requires CanonicalKeys(t) && Settable(t, Some(endpoint))
    ensures var u := SetRoutes(t, iface, Some(endpoint));
            Lookup(u, endpoint).Some? && u[Lookup(u, endpoint).value] == t[Lookup(t, endpoint).value]
  {
    HostPrefixHoldsOnlyItself(endpoint, endpoint);
    assert forall i :: 0 <= i < 4 ==> Halves()[i].dst.len == 1 && Canonical(Halves()[i].dst);
    HostWins(Pinned(t, Some(endpoint)), iface, Halves(), endpoint);
  }

  // A host route beats the added halves and everything else.
  lemma {:induction false} HostWins(p: Routes, iface: string, hs: seq<RouteKey>, a: Addr)
    requires CanonicalKeys(p) && forall j :: 0 <= j < |hs| ==> hs[j].dst.len == 1 && Canonical(hs[j].dst)
    requires HostKey(a) in p && Contains(HostKey(a).dst, a)
    ensures var u := Added(p, iface, hs, |hs|); Lookup(u, a).Some? && u[Lookup(u, a).value] == p[HostKey(a)]
  {
    var u, k := Added(p, iface, hs, |hs|), HostKey(a);
    AddedKeys(p, iface, hs, |hs|);
    assert hs[..|hs|] == hs;
    assert k.dst.len == Width(a.fam);
    assert IsBest(u, a, k);
    LookupFindsBest(u, a, k);
  }

  // A destination no route longer than a half covers goes to the tunnel.
  lemma {:induction false} SetTakesTheRest(t: Routes, iface: string, endpoint: Option<Addr>, a: Addr)
    requires CanonicalKeys(t) && Settable(t, endpoint)
    requires endpoint != Some(a) && forall k :: k in t && Contains(k.dst, a) ==> k.dst.len <= 1
    ensures var u := SetRoutes(t, iface, endpoint);
            Lookup(u, a).Some? && u[Lookup(u, a).value] == Hop(None, iface)
  {
    var i := HalfOf(a);
    if endpoint.Some? {
      HostPrefixHoldsOnlyItself(endpoint.value, a);
    }
    PinnedHalves(t, endpoint);
    AddedWins(Pinned(t, endpoint), iface, Halves(), i, a);
  }

  // Each address lies in one of the halves.
  lemma HalfOf(a: Addr) returns (i: nat)
    ensures i < 4 && Contains(Halves()[i].dst, a) && Halves()[i].metric == 0
    ensures forall j :: 0 <= j < 4 ==> Halves()[j].dst.len == 1 && Canonical(Halves()[j].dst)
  {
    i := (if a.fam == V4 then 0 else 2) + if a.bits[0] then 1 else 0;
    assert Halves()[i] == Key(HalfSpace(a.fam, a.bits[0]));
    assert a.bits[..1] == [a.bits[0]];
  }

  // An added half that covers a beats whatever else covers it.
  lemma {:induction false} AddedWins(p: Routes, iface: string, hs: seq<RouteKey>, i: nat, a: Addr)
    requires i < |hs| && Contains(hs[i].dst, a) && hs[i].metric == 0
    requires CanonicalKeys(p) && forall j :: 0 <= j < |hs| ==> hs[j].dst.len == 1 && Canonical(hs[j].dst)
    requires hs[i] !in p && forall k :: k in p && Contains(k.dst, a) ==> k.dst.len <= 1
    ensures var u := Added(p, iface, hs, |hs|); Lookup(u, a).Some? && u[Lookup(u, a).value] == Hop(None, iface)
  {
    var u := Added(p, iface, hs, |hs|);
    AddedKeys(p, iface, hs, |hs|);
    assert hs[..|hs|] == hs && hs[i] in hs;
    assert forall l :: l in u ==> Canonical(l.dst);
    assert IsBest(u, a, hs[i]);
    LookupFindsBest(u, a, hs[i]);
  }

  // A half that goes elsewhere is not mvad's to remove.
  lemma {:induction false} DroppingSparesOthers(t: Routes, iface: string, hs: seq<RouteKey>, n: nat, k: RouteKey)
    requires n <= |hs| && k in t && t[k].dev != iface
    ensures var u := DroppedAll(t, iface, hs, n); k in u && u[k] == t[k]
  {
    if n > 0 {
      DroppingSparesOthers(t, iface, hs, n - 1, k);
    }
  }

  lemma {:induction false} UnsetSparesOthers(t: Routes, iface: string, endpoint: Option<Addr>, i: nat)
    requires i < 4 && Halves()[i] in t && t[Halves()[i]].dev != iface
    ensures var u := UnsetRoutes(t, iface, endpoint); Halves()[i] in u && u[Halves()[i]] == t[Halves()[i]]
  {
    DroppingSparesOthers(t, iface, Halves(), 4, Halves()[i]);
    assert Halves()[i].dst.len == 1;
  }
}
