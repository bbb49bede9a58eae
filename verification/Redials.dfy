// Reconnecting: when it happens, when it succeeds, and where it leads.
module Redials {
  import opened Net
  import opened PrefixSets
  import opened Tables
  import opened SplitRouting
  import opened Relays
  import opened World
  import opened Session
  import opened SessionInvariant
  import opened SessionTheorems
  import opened Unfaulted
  import opened Dials

  // ---- When ---------------------------------------------------------------

  // Gone under its kill-switch, or up without a recent handshake or an answer.
  predicate CarriesNothing(w: World, h: Health) {
    if w.full.iface.None? then w.full.killSwitch else !(h.recent || h.answers)
  }

  // A tunnel that carries traffic, or was taken down on purpose, is left alone:
  // one failed probe condemns nothing while the handshake is fresh.
  lemma {:induction false} LiveTunnelIsLeftAlone(w: World, h: Health, e: Outside, plan: seq<Fault>)
    requires !CarriesNothing(w, h)
    ensures Execute(w, DoReconnect(true, h, e), plan) == Ran(Proc(w, plan, true), true)
  {
  }

  // The queries a reconnect replays: the saved ones, or what they led to.
  function Replayed(query: string, last: string): string {
    if query == "" then last else query
  }

  function ExitQuery(s: Saved): string {
    Replayed(s.query, s.relay)
  }

  function EntryQuery(s: Saved): string {
    Replayed(s.via, s.entry)
  }

  // Exactly when: meeting no fault, a reconnect succeeds if there is nothing to
  // do, and otherwise if the list has what the saved session asked for. With
  // --if-dead a new list is due.
  lemma {:induction false} RedialSucceedsIff(w: World, ifDead: bool, h: Health, e: Outside, orig: string)
    requires Inv(w, orig)
    ensures var s := w.saved;
            Execute(w, DoReconnect(ifDead, h, e), []).ok <==>
              || (ifDead && !CarriesNothing(w, h))
              || (&& e.ready && !(s.split && e.lockdown)
                  && Answers(ListFor(s, ifDead, e), ExitQuery(s), s.relay, e.dieExit, EntryQuery(s)))
  {
    ConnectSucceedsIff(w, ReconnectOpts(w.saved, ifDead), e, orig);
  }

  // ---- Where to -----------------------------------------------------------

  // A redial that returns nil replays the saved queries and the saved mode, and
  // what stands was dialed by them; unattended, it may find that session up.
  lemma {:induction false} RedialDials(p: Proc, ifDead: bool, h: Health, e: Outside, orig: string)
    requires Inv(p.w, orig) && (ifDead ==> CarriesNothing(p.w, h))
    ensures var s, r := p.w.saved, Reconnect(p, ifDead, h, e); var v := r.p.w;
            r.ok ==> exists key ::
              && v.full.iface == Some(key)
              && Dialed(Dial(v.saved, key), ListFor(s, ifDead, e), ExitQuery(s), EntryQuery(s))
              && (Rebuilt(v, key, s.split, ExitQuery(s), EntryQuery(s), orig) || (ifDead && Untouched(p.w, v)))
  {
    ConnectDials(p, ReconnectOpts(p.w.saved, ifDead), e, orig);
  }

  // Unattended, and the dice name the very session that is up: nothing happens.
  lemma {:induction false} RedialOfTheSameIsQuiet(p: Proc, h: Health, e: Outside, orig: string)
    requires Inv(p.w, orig) && CarriesNothing(p.w, h) && e.ready && !(p.w.saved.split && e.lockdown)
    requires var s := p.w.saved;
             PicksTheSame(p.w, ListFor(s, true, e), ExitQuery(s), s.relay, EntryQuery(s), s.entry, e)
    ensures var r := Reconnect(p, true, h, e); Untouched(p.w, r.p.w) && r.ok == r.p.alive
  {
    SameSessionIsLeftAlone(p, ReconnectOpts(p.w.saved, true), e, orig);
  }

  predicate Enters(s: Saved, via: string) {
    s.via == via && InScope(via, s.entry)
  }

  // Another active relay answers the prefix query.
  ghost predicate HasAnother(relays: seq<Relay>, query: string, last: string) {
    query != "" && !IsHostname(query) && exists r :: r in relays && Candidate(r, query) && r.hostname != last
  }

  lemma {:induction false} ChosenLeaves(cfg: Saved, o: Opts, e: Outside)
    ensures var d := ChooseRelays(cfg, o, e);
            d.Some? ==>
              && (HasAnother(cfg.relays, o.relay, o.avoid) ==> d.value.cfg.relay != o.avoid)
              && (HasAnother(cfg.relays, o.via, o.avoidVia) ==> d.value.cfg.entry != o.avoidVia)
  {
    if ChooseRelays(cfg, o, e).Some? {
      PickStaysInScope(cfg.relays, o.relay, o.avoid, e.dieExit);
      if o.via != "" {
        PickStaysInScope(cfg.relays, o.via, o.avoidVia, e.dieEntry);
      }
    }
  }

  // A dead tunnel does not say which hop failed, so a redial that returns nil
  // leaves the exit, and the entry, whenever its prefix has another active match.
  lemma {:induction false} RedialLeavesTheRelay(p: Proc, ifDead: bool, h: Health, e: Outside, orig: string)
    requires Inv(p.w, orig) && (ifDead ==> CarriesNothing(p.w, h))
    ensures var s, r := p.w.saved, Reconnect(p, ifDead, h, e); var list, v := ListFor(s, ifDead, e), r.p.w.saved;
            r.ok ==>
              && (HasAnother(list, ExitQuery(s), s.relay) ==> v.relay != s.relay && Follows(v, ExitQuery(s)))
              && (HasAnother(list, EntryQuery(s), s.entry) ==> v.entry != s.entry && Enters(v, EntryQuery(s)))
  {
    var o := ReconnectOpts(p.w.saved, ifDead);
    var f := RefreshRelays(p, o, e);
    RefreshedList(p, o, e);
    SaveKeeps(p, f.cfg, orig);
    var d := ChooseRelays(f.cfg, o, e);
    ChosenLeaves(f.cfg, o, e);
    ChosenIsDialed(f.cfg, o, e);
    if Connect(p, o, e).ok {
      if SameSession(f.p.w, f.cfg, o, d.value) {
        assert f.cfg.relay == p.w.saved.relay && f.cfg.entry == p.w.saved.entry;
      } else {
        BuildSaves(f.p, o, e, d.value, p.w.saved.split, orig);
        assert Connect(p, o, e) == Build(f.p, o, e, d.value, p.w.saved.split);
      }
    }
  }
}
