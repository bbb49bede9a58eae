// Choosing a relay for a query, and failing over within its scope.
module Relays {
  import opened Net

  datatype Relay = Relay(hostname: string, ip: Addr, key: nat, multihopPort: nat, active: bool)

  function Dashes(s: string): nat {
    if s == "" then 0 else (if s[0] == '-' then 1 else 0) + Dashes(s[1..])
  }

  // Three or more segments name one relay; fewer name a country or a city.
  predicate IsHostname(query: string) {
    Dashes(query) >= 2
  }

  // The hosts a query may stand for.
  predicate InScope(query: string, hostname: string) {
    if IsHostname(query) then hostname == query else query + "-" <= hostname
  }

  predicate Candidate(r: Relay, query: string) {
    r.active && query + "-" <= r.hostname
  }

  function Matching(relays: seq<Relay>, query: string): seq<Relay> {
    if relays == [] then []
    else
      var last := relays[|relays| - 1];
      Matching(relays[..|relays| - 1], query) + (if Candidate(last, query) then [last] else [])
  }

  function Others(relays: seq<Relay>, query: string, except: string): seq<Relay> {
    if relays == [] then []
    else
      var last := relays[|relays| - 1];
      Others(relays[..|relays| - 1], query, except)
      + (if Candidate(last, query) && last.hostname != except then [last] else [])
  }

  function Named(relays: seq<Relay>, hostname: string): Option<Relay> {
    if relays == [] then None
    else if relays[0].hostname == hostname then Some(relays[0])
    else Named(relays[1..], hostname)
  }

  // die stands for the random number: any value may come up.
  function PickExcept(relays: seq<Relay>, query: string, except: string, die: nat): Option<Relay> {
    if query == "" then None
    else if IsHostname(query) then Named(relays, query)
    else
      var others := Others(relays, query, except);
      var choice := if others != [] then others else Matching(relays, query);
      if choice == [] then None else Some(choice[die % |choice|])
  }

  method PickNamed(relays: seq<Relay>, hostname: string) returns (r: Option<Relay>)
    ensures r == Named(relays, hostname)
  {
    for i := 0 to |relays|
      invariant Named(relays[i..], hostname) == Named(relays, hostname)
    {
      assert relays[i..][1..] == relays[i + 1..];
      if relays[i].hostname == hostname {
        return Some(relays[i]);
      }
    }
    return None;
  }

  method Gather(relays: seq<Relay>, query: string, except: string) returns (matching: seq<Relay>, others: seq<Relay>)
    ensures matching == Matching(relays, query) && others == Others(relays, query, except)
  {
    matching, others := [], [];
    for i := 0 to |relays|
      invariant matching == Matching(relays[..i], query)
      invariant others == Others(relays[..i], query, except)
    {
      assert relays[..i + 1][..i] == relays[..i];
      if Candidate(relays[i], query) {
        matching := matching + [relays[i]];
        if relays[i].hostname != except {
          others := others + [relays[i]];
        }
      }
    }
    assert relays[..|relays|] == relays;
  }

  method Pick(relays: seq<Relay>, query: string, except: string, die: nat) returns (r: Option<Relay>)
    ensures r == PickExcept(relays, query, except, die)
  {
    if query == "" {
      return None;
    }
    if IsHostname(query) {
      r := PickNamed(relays, query);
      return;
    }
    var matching, others := Gather(relays, query, except);
    if |others| > 0 {
      matching := others;
    }
    return if |matching| == 0 then None else Some(matching[die % |matching|]);
  }

  lemma {:induction false} MatchingMembers(relays: seq<Relay>, query: string, except: string, r: Relay)
    ensures r in Matching(relays, query) <==> r in relays && Candidate(r, query)
    ensures r in Others(relays, query, except) <==> r in relays && Candidate(r, query) && r.hostname != except
  {
    if relays != [] {
      var init, last := relays[..|relays| - 1], relays[|relays| - 1];
      MatchingMembers(init, query, except, r);
      assert relays == init + [last];
    }
  }

  lemma {:induction false} NamedIsListed(relays: seq<Relay>, hostname: string)
    ensures match Named(relays, hostname)
            case Some(r) => r in relays && r.hostname == hostname
            case None => forall r :: r in relays ==> r.hostname != hostname
  {
    if relays != [] {
      NamedIsListed(relays[1..], hostname);
      assert relays == [relays[0]] + relays[1..];
    }
  }

  // A pick is a listed relay in the query's scope, and another one than except
  // whenever the query is a prefix with another active match.
  lemma {:induction false} PickStaysInScope(relays: seq<Relay>, query: string, except: string, die: nat)
    requires PickExcept(relays, query, except, die).Some?
    ensures var r := PickExcept(relays, query, except, die).value;
            && r in relays && InScope(query, r.hostname)
            && (!IsHostname(query) ==> r.active)
            && (!IsHostname(query) && (exists o :: o in relays && Candidate(o, query) && o.hostname != except)
                ==> r.hostname != except)
  {
    NamedIsListed(relays, query);
    forall r ensures r in Matching(relays, query) <==> r in relays && Candidate(r, query)
      ensures r in Others(relays, query, except) <==> r in relays && Candidate(r, query) && r.hostname != except
    {
      MatchingMembers(relays, query, except, r);
    }
  }

  // The list has something for the query: a relay of that name, or for a prefix
  // an active one within it.
  ghost predicate Offers(relays: seq<Relay>, query: string) {
    query != "" && exists r :: r in relays && InScope(query, r.hostname) && (IsHostname(query) || r.active)
  }

  // It finds one exactly when the list has one.
  lemma {:induction false} PickFindsOne(relays: seq<Relay>, query: string, except: string, die: nat)
    ensures PickExcept(relays, query, except, die).Some? <==> Offers(relays, query)
  {
    NamedIsListed(relays, query);
    forall r ensures r in Matching(relays, query) <==> r in relays && Candidate(r, query)
      ensures r in Others(relays, query, except) <==> r in relays && Candidate(r, query) && r.hostname != except
    {
      MatchingMembers(relays, query, except, r);
    }
    if !IsHostname(query) && query != "" {
      if r :| r in relays && InScope(query, r.hostname) && r.active {
        assert r in Matching(relays, query);
      }
      if PickExcept(relays, query, except, die).Some? {
        PickStaysInScope(relays, query, except, die);
      }
    }
  }

  lemma SmallRemainder(die: nat, n: nat)
    requires die < n
    ensures die % n == die
  {
  }

  // A choice by the die reaches every member.
  lemma {:induction false} DieReaches(choice: seq<Relay>, r: Relay) returns (die: nat)
    requires r in choice
    ensures choice != [] && choice[die % |choice|] == r
  {
    die :| 0 <= die < |choice| && choice[die] == r;
    SmallRemainder(die, |choice|);
  }

  // Any of the relays it may pick does come up, for some value of the die.
  lemma {:induction false} PickReachesAll(relays: seq<Relay>, query: string, except: string, r: Relay)
    returns (die: nat)
    requires query != "" && !IsHostname(query) && r in relays && r.active && InScope(query, r.hostname)
    requires r.hostname != except || forall o :: o in relays && Candidate(o, query) ==> o.hostname == except
    ensures PickExcept(relays, query, except, die) == Some(r)
  {
    var others := Others(relays, query, except);
    MatchingMembers(relays, query, except, r);
    if others != [] {
      MatchingMembers(relays, query, except, others[0]);
      die := DieReaches(others, r);
    } else {
      die := DieReaches(Matching(relays, query), r);
    }
  }

  // Two dashes or more make a hostname; a shorter query stands for the hosts that
  // go on with a dash.
  lemma {:induction false} ScopeMeans(query: string, hostname: string)
    ensures IsHostname(query) <==> exists i, j :: 0 <= i < j < |query| && query[i] == '-' && query[j] == '-'
    ensures InScope(query, hostname) <==>
      if IsHostname(query) then hostname == query
      else |hostname| > |query| && hostname[..|query|] == query && hostname[|query|] == '-'
  {
    TwoDashes(query);
    if |hostname| > |query| {
      assert hostname[..|query| + 1] == hostname[..|query|] + [hostname[|query|]];
    }
  }

  lemma {:induction false} OneDash(s: string)
    ensures Dashes(s) >= 1 <==> exists i :: 0 <= i < |s| && s[i] == '-'
  {
    if s != "" {
      OneDash(s[1..]);
      if i :| 0 <= i < |s| && s[i] == '-' {
        assert i > 0 ==> s[1..][i - 1] == '-';
      }
      if i :| 0 <= i < |s[1..]| && s[1..][i] == '-' {
        assert s[i + 1] == '-';
      }
    }
  }

  lemma {:induction false} TwoDashes(s: string)
    ensures Dashes(s) >= 2 <==> exists i, j :: 0 <= i < j < |s| && s[i] == '-' && s[j] == '-'
  {
    if s != "" {
      OneDash(s[1..]);
      TwoDashes(s[1..]);
      if i, j :| 0 <= i < j < |s| && s[i] == '-' && s[j] == '-' {
        assert s[1..][j - 1] == '-';
        assert i > 0 ==> s[1..][i - 1] == '-' && s[1..][j - 1] == '-';
      }
      if i, j :| 0 <= i < j < |s[1..]| && s[1..][i] == '-' && s[1..][j] == '-' {
        assert s[i + 1] == '-' && s[j + 1] == '-';
      }
      if j :| 0 <= j < |s[1..]| && s[1..][j] == '-' && s[0] == '-' {
        assert s[0] == '-' && s[j + 1] == '-';
      }
    }
  }
}
