// Who a finished connect talks to, and what stands around that session.
module Dials {
  import opened Net
  import opened PrefixSets
  import opened Tables
  import opened SplitRouting
  import opened Relays
  import opened World
  import opened Session
  import opened SessionInvariant
  import opened SplitStates
  import opened SplitSession
  import opened SessionTheorems

  // The peer is an exit in the query's scope. Without an entry it is dialed at
  // its own address; with one, at the entry's address on the exit's own port.
  ghost predicate Reaches(d: Dial, relays: seq<Relay>, relay: string, via: string, exit: Relay) {
    && exit in relays && InScope(relay, exit.hostname)
    && d.key == exit.key && d.cfg.relay == exit.hostname
    && (via == "" ==> d.cfg.entry == "" && d.cfg.endpoint == Some(Endpoint(exit.ip, 51820)))
    && (via != "" ==> exit.multihopPort != 0 && exists entry :: EntersBy(d, relays, via, exit, entry))
  }

  ghost predicate EntersBy(d: Dial, relays: seq<Relay>, via: string, exit: Relay, entry: Relay) {
    && entry in relays && InScope(via, entry.hostname) && d.cfg.entry == entry.hostname
    && d.cfg.endpoint == Some(Endpoint(entry.ip, exit.multihopPort))
  }

  ghost predicate Dialed(d: Dial, relays: seq<Relay>, relay: string, via: string) {
    exists exit :: Reaches(d, relays, relay, via, exit)
  }

  lemma ChosenIsDialed(cfg: Saved, o: Opts, e: Outside)
    ensures var d := ChooseRelays(cfg, o, e); d.Some? ==> Dialed(d.value, cfg.relays, o.relay, o.via)
  {
    var d := ChooseRelays(cfg, o, e);
    if d.Some? {
      var exit := PickExcept(cfg.relays, o.relay, o.avoid, e.dieExit).value;
      PickStaysInScope(cfg.relays, o.relay, o.avoid, e.dieExit);
      if o.via != "" {
        PickStaysInScope(cfg.relays, o.via, o.avoidVia, e.dieEntry);
        assert EntersBy(d.value, cfg.relays, o.via, exit, PickExcept(cfg.relays, o.via, o.avoidVia, e.dieEntry).value);
      }
      assert Reaches(d.value, cfg.relays, o.relay, o.via, exit);
    }
  }

  // What stands around a session with peer key: every part of a full session,
  // or in split mode none but the interface.
  ghost predicate Stands(v: World, key: nat, split: bool, orig: string) {
    && v.full.iface == Some(key) && v.saved.endpoint.Some?
    && (split ==> NothingFull(v.full, orig))
    && (!split ==> v.full == FullSession(key, v.saved.endpoint.value.ip, orig))
  }

  lemma {:induction false} BuildStands(p: Proc, o: Opts, e: Outside, d: Dial, before: bool, orig: string)
    requires Inv(p.w, orig) && d.cfg.endpoint.Some?
    ensures var r := Build(p, o, e, d, before); r.ok ==> Stands(r.p.w, d.key, o.split, orig) && r.p.w.saved == d.cfg
  {
    BuildSaves(p, o, e, d, before, orig);
    if Build(p, o, e, d, before).ok {
      if o.split {
        BuildEstablishes(p, o, e, d, before, {e.nets}, V4, orig);
      } else {
        WayIsClear(p, o.split, orig);
        var q := ClearTheWay(p, o.split);
        InstallEffect(q, SaveConfig(d.cfg));
        SaveKeeps(q, d.cfg, orig);
        EstablishFullKeeps(Install(q, SaveConfig(d.cfg)), e, d, orig);
      }
    }
  }

  // The session was built anew, as asked: mode and queries on disk, all its parts
  // in place.
  ghost predicate Rebuilt(v: World, key: nat, split: bool, relay: string, via: string, orig: string) {
    && v.saved.split == split && v.saved.query == relay && v.saved.via == via
    && Stands(v, key, split, orig)
  }

  // Nothing was touched but the relay list on disk.
  predicate Untouched(w: World, v: World) {
    v.full == w.full && v.split == w.split && v.saved == w.saved.(relays := v.saved.relays)
  }

  // What a build that returns nil dialed.
  lemma {:induction false} BuildDials(p: Proc, o: Opts, e: Outside, cfg: Saved, d: Dial, before: bool, orig: string)
    requires Inv(p.w, orig) && ChooseRelays(cfg, o, e) == Some(d)
    ensures var r := Build(p, o, e, d, before); var v := r.p.w;
            r.ok ==>
              && v.full.iface == Some(d.key) && Dialed(Dial(v.saved, d.key), cfg.relays, o.relay, o.via)
              && Rebuilt(v, d.key, o.split, o.relay, o.via, orig)
  {
    BuildStands(p, o, e, d, before, orig);
    ChosenIsDialed(cfg, o, e);
    assert Dial(d.cfg, d.key) == d;
  }

  // What the identical session that is up was dialed as.
  lemma {:induction false} SameDials(w: World, cfg: Saved, o: Opts, e: Outside, d: Dial, saved: Saved)
    requires ChooseRelays(cfg, o, e) == Some(d) && SameSession(w, cfg, o, d)
    requires saved.relay == cfg.relay && saved.entry == cfg.entry && saved.endpoint == cfg.endpoint
    ensures w.full.iface == Some(d.key) && Dialed(Dial(saved, d.key), cfg.relays, o.relay, o.via)
  {
    ChosenIsDialed(cfg, o, e);
    DialedAlike(d, Dial(saved, d.key), cfg.relays, o.relay, o.via);
  }

  // A connect that returns nil: the interface has a peer that was dialed as
  // asked, and the session on disk is that one. It was rebuilt, or an unattended
  // redial found it up already.
  lemma {:induction false} ConnectDials(p: Proc, o: Opts, e: Outside, orig: string)
    requires Inv(p.w, orig)
    ensures var r := Connect(p, o, e); var v := r.p.w;
            r.ok ==> exists key ::
              && v.full.iface == Some(key)
              && Dialed(Dial(v.saved, key), ListFor(p.w.saved, o.refresh, e), o.relay, o.via)
              && (Rebuilt(v, key, o.split, o.relay, o.via, orig) || (o.retry && Untouched(p.w, v)))
  {
    var f := RefreshRelays(p, o, e);
    RefreshedList(p, o, e);
    SaveKeeps(p, f.cfg, orig);
    InstallEffect(p, SaveConfig(f.cfg));
    var d := ChooseRelays(f.cfg, o, e);
    assert Untouched(p.w, f.p.w);
    if Connect(p, o, e).ok {
      if SameSession(f.p.w, f.cfg, o, d.value) {
        assert Connect(p, o, e).p == f.p;
        SameDials(f.p.w, f.cfg, o, e, d.value, f.p.w.saved);
      } else {
        assert Connect(p, o, e) == Build(f.p, o, e, d.value, p.w.saved.split);
        BuildDials(f.p, o, e, f.cfg, d.value, p.w.saved.split, orig);
      }
    }
  }

  // Only the relay, the entry, the endpoint and the key tell a dial.
  lemma {:induction false} DialedAlike(d: Dial, d': Dial, relays: seq<Relay>, relay: string, via: string)
    requires Dialed(d, relays, relay, via) && d'.key == d.key
    requires d'.cfg.relay == d.cfg.relay && d'.cfg.entry == d.cfg.entry && d'.cfg.endpoint == d.cfg.endpoint
    ensures Dialed(d', relays, relay, via)
  {
    var exit :| Reaches(d, relays, relay, via, exit);
    if via != "" {
      var entry :| EntersBy(d, relays, via, exit, entry);
      assert EntersBy(d', relays, via, exit, entry);
    }
    assert Reaches(d', relays, relay, via, exit);
  }

  // The dice name the very session that is up: its exit, its entry, its endpoint,
  // and the interface has that exit's key.
  ghost predicate PicksTheSame(w: World, relays: seq<Relay>, relay: string, avoid: string, via: string,
                               avoidVia: string, e: Outside) {
    var exit := PickExcept(relays, relay, avoid, e.dieExit);
    var entry := PickExcept(relays, via, avoidVia, e.dieEntry);
    && exit.Some? && exit.value.hostname == w.saved.relay && w.full.iface == Some(exit.value.key)
    && (via == "" ==> w.saved.entry == "" && w.saved.endpoint == Some(Endpoint(exit.value.ip, 51820)))
    && (via != "" ==>
          && entry.Some? && exit.value.multihopPort != 0 && entry.value.hostname == w.saved.entry
          && w.saved.endpoint == Some(Endpoint(entry.value.ip, exit.value.multihopPort)))
  }

  ghost predicate SameAsked(w: World, relays: seq<Relay>, o: Opts, e: Outside) {
    PicksTheSame(w, relays, o.relay, o.avoid, o.via, o.avoidVia, e)
  }

  lemma {:induction false} PicksTheSameIff(p: Proc, o: Opts, e: Outside)
    ensures var f := RefreshRelays(p, o, e); var d := ChooseRelays(f.cfg, o, e);
            o.retry && SameAsked(p.w, ListFor(p.w.saved, o.refresh, e), o, e) <==>
              d.Some? && SameSession(f.p.w, f.cfg, o, d.value)
  {
    RefreshedList(p, o, e);
    InstallEffect(p, SaveConfig(RefreshRelays(p, o, e).cfg));
  }

  // An unattended redial then leaves it alone; every other connect rebuilds.
  lemma {:induction false} SameSessionIsLeftAlone(p: Proc, o: Opts, e: Outside, orig: string)
    requires Inv(p.w, orig) && e.ready && !(o.split && e.lockdown)
    ensures var list, r := ListFor(p.w.saved, o.refresh, e), Connect(p, o, e);
            && (o.retry && SameAsked(p.w, list, o, e) ==> Untouched(p.w, r.p.w) && r.ok == r.p.alive)
            && (r.ok && !(o.retry && SameAsked(p.w, list, o, e)) ==>
                  exists key :: Rebuilt(r.p.w, key, o.split, o.relay, o.via, orig))
  {
    var f := RefreshRelays(p, o, e);
    PicksTheSameIff(p, o, e);
    RefreshedList(p, o, e);
    SaveKeeps(p, f.cfg, orig);
    InstallEffect(p, SaveConfig(f.cfg));
    var d := ChooseRelays(f.cfg, o, e);
    if d.Some? && SameSession(f.p.w, f.cfg, o, d.value) {
      assert Connect(p, o, e).p == f.p;
    } else if Connect(p, o, e).ok {
      assert Connect(p, o, e) == Build(f.p, o, e, d.value, p.w.saved.split);
      BuildStands(f.p, o, e, d.value, p.w.saved.split, orig);
      assert Rebuilt(Connect(p, o, e).p.w, d.value.key, o.split, o.relay, o.via, orig);
    }
  }
}
