// Routing tables: routes keyed by destination and metric, looked up by longest
// prefix and then lowest metric.
module Tables {
  import opened Net

  datatype RouteKey = RouteKey(dst: Prefix, metric: nat)

  type Table<T> = map<RouteKey, T>

  // k beats l: a longer prefix, or the same length and no larger metric.
  predicate Beats(k: RouteKey, l: RouteKey) {
    k.dst.len > l.dst.len || (k.dst.len == l.dst.len && k.metric <= l.metric)
  }

  ghost predicate IsBest<T>(t: Table<T>, a: Addr, k: RouteKey) {
    k in t && Contains(k.dst, a) && forall l :: l in t && Contains(l.dst, a) ==> Beats(k, l)
  }

  ghost function Lookup<T>(t: Table<T>, a: Addr): (r: Option<RouteKey>)
    ensures r.Some? ==> IsBest(t, a, r.value)
  {
    if exists k :: IsBest(t, a, k) then
      var k :| IsBest(t, a, k);
      Some(k)
    else None
  }

  // A destination covered by any route has a best one.
  lemma {:induction false} CoveredHasBest<T>(t: Table<T>, a: Addr, k: RouteKey) returns (b: RouteKey)
    requires k in t && Contains(k.dst, a)
    ensures IsBest(t, a, b)
    decreases |t|
  {
    if l :| l in t && Contains(l.dst, a) && !Beats(k, l) {
      // k is out of the running: search without it.
      var t' := t - {k};
      assert t'.Keys == t.Keys - {k};
      b := CoveredHasBest(t', a, l);
      assert Beats(b, l) && Beats(l, k);
    } else {
      b := k;
    }
  }

  ghost predicate CanonicalKeys<T>(t: Table<T>) {
    forall k :: k in t ==> Canonical(k.dst)
  }

  // With masked destinations there is only one best route.
  lemma BestIsUnique<T>(t: Table<T>, a: Addr, k: RouteKey, l: RouteKey)
    requires CanonicalKeys(t) && IsBest(t, a, k) && IsBest(t, a, l)
    ensures k == l
  {
    SharingIsNesting(k.dst, l.dst, a);
    SharingIsNesting(l.dst, k.dst, a);
    CanonicalIsDetermined(k.dst, l.dst);
  }

  lemma LookupFindsBest<T>(t: Table<T>, a: Addr, k: RouteKey)
    requires CanonicalKeys(t) && IsBest(t, a, k)
    ensures Lookup(t, a) == Some(k)
  {
    BestIsUnique(t, a, k, Lookup(t, a).value);
  }

  // The lookup misses exactly the destinations no route covers.
  lemma LookupMisses<T>(t: Table<T>, a: Addr)
    ensures Lookup(t, a).None? <==> forall k :: k in t ==> !Contains(k.dst, a)
  {
    if k :| k in t && Contains(k.dst, a) {
      var b := CoveredHasBest(t, a, k);
    }
  }

  // The default route's destination.
  function Anywhere(fam: Family): (p: Prefix)
    ensures p.len == 0 && p.addr.fam == fam && Canonical(p)
  {
    assert Zeros(Width(fam))[..0] + Zeros(Width(fam)) == Zeros(Width(fam));
    RawPrefix(RawAddr(fam, Zeros(Width(fam))), 0)
  }
}
