// Dropping covered prefixes before a set is handed to nft, and the two
// per-family element lists made from what is left.
module PrefixSets {
  import opened Net

  // The addresses a list of prefixes stands for.
  ghost predicate Denotes(ps: seq<Prefix>, a: Addr) {
    exists p :: p in ps && Contains(p, a)
  }

  // The inner test of coalesce: ps[j] makes ps[i] redundant.
  predicate CoveredBy(ps: seq<Prefix>, i: nat, j: nat)
    requires i < |ps| && j < |ps|
  {
    && i != j
    && ps[i].addr.fam == ps[j].addr.fam
    && ((ps[j].len < ps[i].len && Contains(ps[j], ps[i].addr)) || (ps[j] == ps[i] && j < i))
  }

  predicate Covered(ps: seq<Prefix>, i: nat)
    requires i < |ps|
  {
    exists j: nat :: j < |ps| && CoveredBy(ps, i, j)
  }

  function Kept(ps: seq<Prefix>, n: nat): seq<Prefix>
    requires n <= |ps|
  {
    if n == 0 then []
    else Kept(ps, n - 1) + if Covered(ps, n - 1) then [] else [ps[n - 1]]
  }

  function Coalesced(ps: seq<Prefix>): seq<Prefix> {
    Kept(ps, |ps|)
  }

  method Coalesce(ps: seq<Prefix>) returns (out: seq<Prefix>)
    ensures out == Coalesced(ps)
  {
    out := [];
    for i := 0 to |ps|
      invariant out == Kept(ps, i)
    {
      var covered := false;
      var j := 0;
      while j < |ps| && !covered
        invariant 0 <= j <= |ps|
        invariant covered ==> Covered(ps, i)
        invariant !covered ==> forall k: nat :: k < j ==> !CoveredBy(ps, i, k)
        decreases |ps| - j, !covered
      {
        if CoveredBy(ps, i, j) {
          covered := true;
        }
        j := j + 1;
      }
      if !covered {
        out := out + [ps[i]];
      }
    }
  }

  // Where the members of Kept come from.
  lemma {:induction false} KeptMembers(ps: seq<Prefix>, n: nat, p: Prefix)
    requires n <= |ps|
    ensures p in Kept(ps, n) <==> exists i: nat :: i < n && ps[i] == p && !Covered(ps, i)
  {
    if n > 0 {
      KeptMembers(ps, n - 1, p);
    }
  }

  // Following covers upwards ends at a kept prefix that holds the address.
  lemma {:induction false} CoverChain(ps: seq<Prefix>, i: nat, a: Addr)
    requires i < |ps| && Contains(ps[i], a)
    ensures Denotes(Coalesced(ps), a)
    decreases ps[i].len, i
  {
    if Covered(ps, i) {
      var j: nat :| j < |ps| && CoveredBy(ps, i, j);
      WithinIsLeadingBits(ps[i], ps[j]);
      CoverChain(ps, j, a);
    } else {
      KeptMembers(ps, |ps|, ps[i]);
    }
  }

  // Nothing is lost or gained, whether or not host bits are set.
  lemma {:induction false} CoalescedDenotesTheSame(ps: seq<Prefix>, a: Addr)
    ensures Denotes(Coalesced(ps), a) <==> Denotes(ps, a)
  {
    if Denotes(ps, a) {
      var p :| p in ps && Contains(p, a);
      var i: nat :| i < |ps| && ps[i] == p;
      CoverChain(ps, i, a);
    }
    if Denotes(Coalesced(ps), a) {
      var p :| p in Coalesced(ps) && Contains(p, a);
      KeptMembers(ps, |ps|, p);
    }
  }

  // p is in ps and no other member of ps holds all of its addresses.
  ghost predicate Maximal(ps: seq<Prefix>, p: Prefix) {
    p in ps && forall q :: q in ps && Within(p, q) ==> q == p
  }

  ghost predicate AllCanonical(ps: seq<Prefix>) {
    forall p :: p in ps ==> Canonical(p)
  }

  // The least index of p in ps.
  lemma {:induction false} FirstIndex(ps: seq<Prefix>, p: Prefix) returns (i: nat)
    requires p in ps
    ensures i < |ps| && ps[i] == p && forall k :: 0 <= k < i ==> ps[k] != p
  {
    i := 0;
    while ps[i] != p
      invariant i < |ps| && forall k :: 0 <= k < i ==> ps[k] != p
      invariant exists k :: i <= k < |ps| && ps[k] == p
      decreases |ps| - i
    {
      i := i + 1;
    }
  }

  lemma {:induction false} CoalescedIsTheMaximalOnes(ps: seq<Prefix>, p: Prefix)
    requires AllCanonical(ps)
    ensures p in Coalesced(ps) <==> Maximal(ps, p)
  {
    KeptMembers(ps, |ps|, p);
    if p in Coalesced(ps) {
      var i: nat :| i < |ps| && ps[i] == p && !Covered(ps, i);
      forall q | q in ps && Within(p, q) ensures q == p {
        WithinIsLeadingBits(p, q);
        var j: nat :| j < |ps| && ps[j] == q;
        if q.len == p.len {
          WithinIsLeadingBits(q, p);
          CanonicalIsDetermined(p, q);
        } else {
          assert CoveredBy(ps, i, j);
        }
      }
    }
    if Maximal(ps, p) {
      var i := FirstIndex(ps, p);
      forall j: nat | j < |ps| ensures !CoveredBy(ps, i, j) {
        WithinIsLeadingBits(p, ps[j]);
      }
    }
  }

  // Kept prefixes stand in the order of the input, each taken from one index.
  lemma {:induction false} KeptInOrder(ps: seq<Prefix>, n: nat) returns (at: seq<nat>)
    requires n <= |ps|
    ensures |at| == |Kept(ps, n)|
    ensures forall k :: 0 <= k < |at| ==> at[k] < n && !Covered(ps, at[k]) && Kept(ps, n)[k] == ps[at[k]]
    ensures forall k, l :: 0 <= k < l < |at| ==> at[k] < at[l]
  {
    if n == 0 {
      at := [];
    } else {
      var before := KeptInOrder(ps, n - 1);
      at := before;
      if !Covered(ps, n - 1) {
        at := before + [n - 1];
        assert Kept(ps, n) == Kept(ps, n - 1) + [ps[n - 1]];
      } else {
        assert Kept(ps, n) == Kept(ps, n - 1);
      }
    }
  }

  ghost predicate PairwiseDisjoint(ps: seq<Prefix>) {
    forall i, j, a: Addr {:trigger Contains(ps[i], a), Contains(ps[j], a)} ::
      0 <= i < j < |ps| ==> !(Contains(ps[i], a) && Contains(ps[j], a))
  }

  // No two members write the same network with different host bits.
  ghost predicate NoSpellingClash(ps: seq<Prefix>) {
    forall p, q :: p in ps && q in ps && Within(p, q) && Within(q, p) ==> p == q
  }

  lemma {:induction false} CanonicalHasNoClash(ps: seq<Prefix>)
    requires AllCanonical(ps)
    ensures NoSpellingClash(ps)
  {
    forall p, q | p in ps && q in ps && Within(p, q) && Within(q, p) ensures p == q {
      CanonicalIsDetermined(p, q);
    }
  }

  // Two uncovered indices that share an address hold one network under two spellings.
  lemma {:induction false} UncoveredShareOnlySpellings(ps: seq<Prefix>, i: nat, j: nat, a: Addr)
    requires i < j < |ps| && !Covered(ps, i) && !Covered(ps, j)
    requires Contains(ps[i], a) && Contains(ps[j], a)
    ensures Within(ps[i], ps[j]) && Within(ps[j], ps[i]) && ps[i] != ps[j]
  {
    assert !CoveredBy(ps, i, j) && !CoveredBy(ps, j, i);
    if ps[i].len <= ps[j].len {
      SharingIsNesting(ps[j], ps[i], a);
      WithinIsLeadingBits(ps[j], ps[i]);
    }
    if ps[j].len <= ps[i].len {
      SharingIsNesting(ps[i], ps[j], a);
      WithinIsLeadingBits(ps[i], ps[j]);
    }
  }

  // Nothing in ps is a wider network than p.
  ghost predicate Widest(ps: seq<Prefix>, p: Prefix) {
    forall q :: q in ps && Within(p, q) ==> q.len == p.len
  }

  // Whatever the host bits, a member is kept exactly when none wider holds it.
  lemma {:induction false} KeptIffWidest(ps: seq<Prefix>, p: Prefix)
    requires p in ps
    ensures p in Coalesced(ps) <==> Widest(ps, p)
  {
    KeptMembers(ps, |ps|, p);
    var i := FirstIndex(ps, p);
    if Widest(ps, p) {
      forall j: nat | j < |ps| ensures !CoveredBy(ps, i, j) {
        WithinIsLeadingBits(p, ps[j]);
      }
    }
    if p in Coalesced(ps) {
      var k: nat :| k < |ps| && ps[k] == p && !Covered(ps, k);
      forall q | q in ps && Within(p, q) ensures q.len == p.len {
        WithinIsLeadingBits(p, q);
        var j: nat :| j < |ps| && ps[j] == q;
        assert !CoveredBy(ps, k, j);
      }
    }
  }

  // Two members spell one network with different host bits, and none wider
  // would have covered both.
  ghost predicate SpeltTwice(ps: seq<Prefix>, p: Prefix, q: Prefix) {
    p in ps && q in ps && p != q && Within(p, q) && Within(q, p) && Widest(ps, p)
  }

  lemma {:induction false} ClashIsSpeltTwice(ps: seq<Prefix>)
    ensures NoSpellingClash(Coalesced(ps)) <==> !exists p, q :: SpeltTwice(ps, p, q)
  {
    forall p, q ensures SpeltTwice(ps, p, q) <==>
      p in Coalesced(ps) && q in Coalesced(ps) && p != q && Within(p, q) && Within(q, p)
    {
      KeptMembers(ps, |ps|, p);
      KeptMembers(ps, |ps|, q);
      if p in ps && q in ps {
        KeptIffWidest(ps, p);
        KeptIffWidest(ps, q);
        if Within(p, q) && Within(q, p) {
          WithinIsLeadingBits(p, q);
          WithinIsLeadingBits(q, p);
        }
      }
    }
  }

  // Kept prefixes are disjoint exactly when none of their networks is spelled twice.
  lemma {:induction false} KeptAreDisjoint(ps: seq<Prefix>)
    ensures PairwiseDisjoint(Coalesced(ps)) <==> NoSpellingClash(Coalesced(ps))
  {
    var at := KeptInOrder(ps, |ps|);
    var out := Coalesced(ps);
    if NoSpellingClash(out) {
      forall i, j, a: Addr | 0 <= i < j < |out| ensures !(Contains(out[i], a) && Contains(out[j], a)) {
        if Contains(out[i], a) && Contains(out[j], a) {
          UncoveredShareOnlySpellings(ps, at[i], at[j], a);
        }
      }
    }
    if PairwiseDisjoint(out) {
      forall p, q | p in out && q in out && Within(p, q) && Within(q, p) ensures p == q {
        var i :| 0 <= i < |out| && out[i] == p;
        var j :| 0 <= j < |out| && out[j] == q;
        assert Contains(out[i], p.addr) && Contains(out[j], p.addr);
      }
    }
  }

  // The intervals nft is given conflict exactly when the list handed in spells
  // one of its widest networks with two different host parts.
  lemma {:induction false} CoalescedIsDisjoint(ps: seq<Prefix>)
    ensures PairwiseDisjoint(Coalesced(ps)) <==> !exists p, q :: SpeltTwice(ps, p, q)
  {
    KeptAreDisjoint(ps);
    ClashIsSpeltTwice(ps);
  }

  lemma {:induction false} CanonicalCoalescesDisjoint(ps: seq<Prefix>)
    requires AllCanonical(ps)
    ensures PairwiseDisjoint(Coalesced(ps)) && AllCanonical(Coalesced(ps))
  {
    forall p | p in Coalesced(ps) ensures p in ps {
      KeptMembers(ps, |ps|, p);
    }
    CanonicalHasNoClash(Coalesced(ps));
    KeptAreDisjoint(ps);
  }

  // Host bits defeat it: 0.0.0.1/8 and 0.0.0.2/8 both survive and overlap.
  lemma SpellingClashOverlaps() returns (ps: seq<Prefix>)
    ensures !PairwiseDisjoint(Coalesced(ps))
  {
    var a: Addr := RawAddr(V4, Zeros(31) + [true]);
    var b: Addr := RawAddr(V4, Zeros(30) + [true, false]);
    var p: Prefix := RawPrefix(a, 8);
    var q: Prefix := RawPrefix(b, 8);
    ps := [p, q];
    assert a.bits[31] != b.bits[31];
    assert a.bits[..8] == b.bits[..8] == Zeros(8);
    assert !Covered(ps, 0) && !Covered(ps, 1);
    NothingCoveredKeepsAll(ps, 2);
    assert Coalesced(ps) == [p, q];
    assert Contains(p, a) && Contains(q, a);
    assert Contains(Coalesced(ps)[0], a) && Contains(Coalesced(ps)[1], a);
  }

  // A list of pairwise incomparable, distinct prefixes is left alone.
  lemma {:induction false} NothingCoveredKeepsAll(ps: seq<Prefix>, n: nat)
    requires n <= |ps| && forall i: nat :: i < n ==> !Covered(ps, i)
    ensures Kept(ps, n) == ps[..n]
  {
    if n > 0 {
      NothingCoveredKeepsAll(ps, n - 1);
      assert ps[..n] == ps[..n - 1] + [ps[n - 1]];
    }
  }

  lemma {:induction false} CoalescedIsIdempotent(ps: seq<Prefix>)
    ensures Coalesced(Coalesced(ps)) == Coalesced(ps)
  {
    var out := Coalesced(ps);
    var at := KeptInOrder(ps, |ps|);
    forall i: nat, j: nat | i < |out| && j < |out| ensures !CoveredBy(out, i, j) {
      assert i < j ==> at[i] < at[j];
      assert j < i ==> at[j] < at[i];
      assert !CoveredBy(ps, at[i], at[j]);
    }
    NothingCoveredKeepsAll(out, |out|);
    assert out[..|out|] == out;
  }

  // The element list of one family, as both writeNetSet and setNets build it.
  function OfFamily(ps: seq<Prefix>, fam: Family): seq<Prefix> {
    if ps == [] then []
    else
      var last := ps[|ps| - 1];
      OfFamily(ps[..|ps| - 1], fam) + if last.addr.fam == fam then [last] else []
  }

  method FamilyElems(ps: seq<Prefix>, fam: Family) returns (elems: seq<Prefix>)
    ensures elems == OfFamily(ps, fam)
  {
    elems := [];
    for i := 0 to |ps|
      invariant elems == OfFamily(ps[..i], fam)
    {
      assert ps[..i + 1][..i] == ps[..i];
      if ps[i].addr.fam == fam {
        elems := elems + [ps[i]];
      }
    }
    assert ps[..|ps|] == ps;
  }

  lemma {:induction false} OfFamilyMembers(ps: seq<Prefix>, fam: Family, p: Prefix)
    ensures p in OfFamily(ps, fam) <==> p in ps && p.addr.fam == fam
  {
    if ps != [] {
      var n := |ps| - 1;
      OfFamilyMembers(ps[..n], fam, p);
      assert ps == ps[..n] + [ps[n]];
    }
  }

  // The set nft holds for a family: exactly the input's addresses of that family.
  lemma {:induction false} FamilySetIsExact(ps: seq<Prefix>, fam: Family, a: Addr)
    ensures Denotes(OfFamily(Coalesced(ps), fam), a) <==> a.fam == fam && Denotes(ps, a)
  {
    CoalescedDenotesTheSame(ps, a);
    forall p ensures p in OfFamily(Coalesced(ps), fam) <==> p in Coalesced(ps) && p.addr.fam == fam {
      OfFamilyMembers(Coalesced(ps), fam, p);
    }
  }
}
