// The reentrant cross-process lock: one flock shared by nested acquires within
// a process, contended for between processes.
module RootLock {

  // One process's package variables. waiting: a blocking acquire sits in flock
  // with the mutex held. live: handles whose release has not run; the handles
  // given out are numbered below issued.
  datatype Vars = Vars(depth: int, file: bool, waiting: bool, live: set<nat>, issued: nat)

  const FRESH := Vars(0, false, false, {}, 0)

  // A process and the kernel's view of who holds the flock.
  datatype Local = Local(v: Vars, holders: set<nat>)

  // Another handle on a lock already held.
  function Nest(v: Vars): Vars {
    v.(depth := v.depth + 1, live := v.live + {v.issued}, issued := v.issued + 1)
  }

  // The first handle, with the flock just obtained.
  function Take(v: Vars): Vars {
    Nest(v).(file := true, waiting := false)
  }

  // The kernel grants an exclusive flock only when nobody has one.
  predicate Grants(holders: set<nat>) {
    holders == {}
  }

  // What becomes of the lock file: fine, or it cannot be opened, or flock fails
  // on it for a reason other than a holder.
  datatype LockFile = Fine | Unopened | Unlockable

  // acquireRoot under the mutex.
  function Acquire(l: Local, me: nat, block: bool, f: LockFile): Local {
    if l.v.waiting then l
    else if l.v.depth != 0 then l.(v := Nest(l.v))
    else if f != Fine then l
    else if Grants(l.holders) then Local(Take(l.v), l.holders + {me})
    else if block then l.(v := l.v.(waiting := true))
    else l
  }

  // The flock a blocked acquire waits for is granted, or the call is broken off.
  function Wake(l: Local, me: nat): Local {
    if l.v.waiting && Grants(l.holders) then Local(Take(l.v), l.holders + {me}) else l
  }

  function BreakOff(l: Local): Local {
    l.(v := l.v.(waiting := false))
  }

  // A handle's release: once only, and under the mutex.
  function Release(l: Local, me: nat, h: nat): Local {
    if l.v.waiting || h !in l.v.live then l
    else
      var v := l.v.(depth := l.v.depth - 1, live := l.v.live - {h});
      if v.depth > 0 then l.(v := v) else Local(v.(file := false), l.holders - {me})
  }

  // The process ends and the kernel closes its files.
  function Exit(l: Local, me: nat): Local {
    Local(FRESH, l.holders - {me})
  }

  // ---- Any number of processes, interleaved --------------------------------

  datatype System = System(procs: map<nat, Vars>, holders: set<nat>)

  function VarsOf(s: System, p: nat): Vars {
    if p in s.procs then s.procs[p] else FRESH
  }

  datatype Event =
    | Acquires(p: nat, block: bool, f: LockFile)
    | Wakes(p: nat)
    | BreaksOff(p: nat)
    | Releases(p: nat, h: nat)
    | Exits(p: nat)

  function Step(s: System, e: Event): System {
    var l := Local(VarsOf(s, e.p), s.holders);
    var l' :=
      match e
      case Acquires(p, block, f) => Acquire(l, p, block, f)
      case Wakes(p) => Wake(l, p)
      case BreaksOff(p) => BreakOff(l)
      case Releases(p, h) => Release(l, p, h)
      case Exits(p) => Exit(l, p);
    System(s.procs[e.p := l'.v], l'.holders)
  }

  function Run(s: System, events: seq<Event>): System
    decreases |events|
  {
    if events == [] then s else Step(Run(s, events[..|events| - 1]), events[|events| - 1])
  }

  // A process in order: depth counts its unreleased handles, the file is open
  // and the flock held exactly while there are some, and none while it waits.
  ghost predicate InOrder(v: Vars, held: bool) {
    && v.depth == |v.live|
    && (v.file <==> v.depth > 0)
    && (held <==> v.depth > 0)
    && (v.waiting ==> v.live == {})
    && (forall h :: h in v.live ==> h < v.issued)
  }

  ghost predicate AtMostOne(holders: set<nat>) {
    forall p, q :: p in holders && q in holders ==> p == q
  }

  ghost predicate LockInv(s: System) {
    AtMostOne(s.holders) && forall p :: InOrder(VarsOf(s, p), p in s.holders)
  }

  // One process's move keeps it in order and touches nobody else's hold.
  ghost predicate GoodMove(l: Local, l': Local, me: nat) {
    && AtMostOne(l'.holders) && InOrder(l'.v, me in l'.holders)
    && l'.holders - {me} == l.holders - {me}
  }

  lemma TakeKeeps(v: Vars)
    requires v.depth == |v.live| && forall h :: h in v.live ==> h < v.issued
    ensures InOrder(Take(v), true)
    ensures v.file && !v.waiting ==> InOrder(Nest(v), true)
  {
    assert v.issued !in v.live;
  }

  lemma ReleaseKeeps(l: Local, me: nat, h: nat)
    requires AtMostOne(l.holders) && InOrder(l.v, me in l.holders)
    ensures GoodMove(l, Release(l, me, h), me)
  {
    if h in l.v.live {
      assert |l.v.live - {h}| == |l.v.live| - 1;
    }
  }

  lemma GrantIsGood(l: Local, me: nat, v: Vars)
    requires Grants(l.holders) && InOrder(v, true)
    ensures GoodMove(l, Local(v, l.holders + {me}), me)
  {
  }

  lemma AcquireKeeps(l: Local, me: nat, block: bool, f: LockFile)
    requires AtMostOne(l.holders) && InOrder(l.v, me in l.holders)
    ensures GoodMove(l, Acquire(l, me, block, f), me)
  {
    TakeKeeps(l.v);
    if Grants(l.holders) {
      GrantIsGood(l, me, Take(l.v));
    }
  }

  lemma WakeKeeps(l: Local, me: nat)
    requires AtMostOne(l.holders) && InOrder(l.v, me in l.holders)
    ensures GoodMove(l, Wake(l, me), me)
  {
    TakeKeeps(l.v);
    if Grants(l.holders) {
      GrantIsGood(l, me, Take(l.v));
    }
  }

  lemma StepKeeps(s: System, e: Event)
    requires LockInv(s)
    ensures LockInv(Step(s, e))
  {
    var l := Local(VarsOf(s, e.p), s.holders);
    assert InOrder(l.v, e.p in s.holders);
    match e {
      case Acquires(p, block, f) => AcquireKeeps(l, p, block, f);
      case Wakes(p) => WakeKeeps(l, p);
      case BreaksOff(p) =>
      case Releases(p, h) => ReleaseKeeps(l, p, h);
      case Exits(p) =>
    }
    var t := Step(s, e);
    assert GoodMove(l, Local(VarsOf(t, e.p), t.holders), e.p);
    forall p ensures InOrder(VarsOf(t, p), p in t.holders) {
      if p != e.p {
        assert p in t.holders <==> p in t.holders - {e.p};
        assert p in s.holders <==> p in s.holders - {e.p};
        assert InOrder(VarsOf(s, p), p in s.holders);
      }
    }
  }

  lemma {:induction false} EveryInterleavingKeeps(events: seq<Event>)
    ensures LockInv(Run(System(map[], {}), events))
    decreases |events|
  {
    if events != [] {
      EveryInterleavingKeeps(events[..|events| - 1]);
      StepKeeps(Run(System(map[], {}), events[..|events| - 1]), events[|events| - 1]);
    }
  }

  // At most one process is inside the lock, whatever the interleaving; it holds
  // the flock, and a process waiting for it has no handle.
  lemma {:induction false} MutualExclusion(events: seq<Event>, p: nat, q: nat)
    ensures var s := Run(System(map[], {}), events);
            && (VarsOf(s, p).depth > 0 && VarsOf(s, q).depth > 0 ==> p == q)
            && (VarsOf(s, p).depth > 0 <==> p in s.holders)
            && VarsOf(s, p).depth == |VarsOf(s, p).live|
            && (VarsOf(s, p).waiting ==> VarsOf(s, p).live == {} && p !in s.holders)
  {
    EveryInterleavingKeeps(events);
    var s := Run(System(map[], {}), events);
    assert InOrder(VarsOf(s, p), p in s.holders) && InOrder(VarsOf(s, q), q in s.holders);
  }

  // And it does let in: whoever asks for or waits on a free lock gets it.
  lemma FreeLockIsTaken(s: System, p: nat, block: bool)
    requires LockInv(s) && s.holders == {}
    ensures var waits := VarsOf(s, p).waiting;
            var t := Step(s, if waits then Wakes(p) else Acquires(p, block, Fine));
            t.holders == {p} && VarsOf(t, p).depth == 1 && !VarsOf(t, p).waiting
  {
    assert InOrder(VarsOf(s, p), p in s.holders);
  }

  // Who is inside already always gets one more handle.
  lemma HeldLockNests(s: System, p: nat, block: bool, f: LockFile)
    requires LockInv(s) && p in s.holders
    ensures var t := Step(s, Acquires(p, block, f));
            t.holders == s.holders && VarsOf(t, p).depth == VarsOf(s, p).depth + 1
  {
    assert InOrder(VarsOf(s, p), p in s.holders);
  }

  function Releasing(p: nat, hs: seq<nat>): (es: seq<Event>)
    ensures |es| == |hs|
  {
    seq(|hs|, i requires 0 <= i < |hs| => Releases(p, hs[i]))
  }

  lemma {:induction false} ReleasingSome(s: System, p: nat, hs: seq<nat>, n: nat)
    requires LockInv(s) && n <= |hs|
    ensures var t := Run(s, Releasing(p, hs)[..n]);
            LockInv(t) && forall h :: h in VarsOf(t, p).live ==> h in VarsOf(s, p).live && h !in hs[..n]
    decreases n
  {
    var events := Releasing(p, hs);
    if n > 0 {
      ReleasingSome(s, p, hs, n - 1);
      var t := Run(s, events[..n - 1]);
      assert events[..n][..n - 1] == events[..n - 1] && events[..n][n - 1] == Releases(p, hs[n - 1]);
      StepKeeps(t, Releases(p, hs[n - 1]));
      assert InOrder(VarsOf(t, p), p in t.holders);
      assert hs[..n] == hs[..n - 1] + [hs[n - 1]];
    }
  }

  // Releasing every handle, in whatever order and as often as one likes, lets go.
  lemma {:induction false} ReleasingAllLetsGo(s: System, p: nat, hs: seq<nat>)
    requires LockInv(s) && forall h :: h in VarsOf(s, p).live ==> h in hs
    ensures var t := Run(s, Releasing(p, hs)); p !in t.holders && VarsOf(t, p).depth == 0
  {
    ReleasingSome(s, p, hs, |hs|);
    assert Releasing(p, hs)[..|hs|] == Releasing(p, hs) && hs[..|hs|] == hs;
    var t := Run(s, Releasing(p, hs));
    assert InOrder(VarsOf(t, p), p in t.holders);
    assert VarsOf(t, p).live == {};
  }

  // ---- The code of one process ----------------------------------------------

  class Kernel {
    var holders: set<nat>
    constructor ()
      ensures holders == {}
    {
      holders := {};
    }
  }

  datatype Outcome = Got(handle: nat) | ErrLocked | OpenFailed | FlockFailed | Waits

  // The package state of one process. The mutex makes each method one step; a
  // blocking acquire that cannot have the flock yet leaves with Waits, the
  // mutex held, and Resume continues it.
  class Package {
    const me: nat
    var depth: int
    var file: bool
    var waiting: bool
    var live: set<nat>
    var issued: nat

    function View(k: Kernel): Local
      reads this, k
    {
      Local(Vars(depth, file, waiting, live, issued), k.holders)
    }

    constructor (pid: nat)
      ensures me == pid && Vars(depth, file, waiting, live, issued) == FRESH
    {
      me := pid;
      depth, file, waiting, live, issued := 0, false, false, {}, 0;
    }

    method AcquireRoot(k: Kernel, block: bool, f: LockFile) returns (r: Outcome)
      requires !waiting
      modifies this, k
      ensures View(k) == Acquire(old(View(k)), me, block, f)
      ensures r.Got? <==> live != old(live) || depth != old(depth)
      ensures r.Got? ==> r.handle == old(issued) && live == old(live) + {r.handle}
      ensures r.Waits? <==> waiting
      ensures r.Waits? <==> block && f == Fine && old(depth) == 0 && old(k.holders) != {}
      ensures r.ErrLocked? <==> !block && f == Fine && old(depth) == 0 && old(k.holders) != {}
      ensures r.OpenFailed? <==> f == Unopened && old(depth) == 0
      ensures r.FlockFailed? <==> f == Unlockable && old(depth) == 0
    {
      if depth == 0 {
        if f == Unopened {
          return OpenFailed;
        }
        if f == Unlockable {
          return FlockFailed;
        }
        if k.holders != {} {
          if !block {
            return ErrLocked;
          }
          waiting := true;
          return Waits;
        }
        k.holders := k.holders + {me};
        file := true;
      }
      depth := depth + 1;
      r := Got(issued);
      live := live + {issued};
      issued := issued + 1;
    }

    method Resume(k: Kernel) returns (r: Outcome)
      requires waiting
      modifies this, k
      ensures View(k) == Wake(old(View(k)), me)
      ensures r.Got? <==> !waiting
      ensures r.Got? <==> old(k.holders) == {}
      ensures r.Got? ==> k.holders == {me} && depth == old(depth) + 1 && live == old(live) + {r.handle}
    {
      if k.holders != {} {
        return Waits;
      }
      k.holders := k.holders + {me};
      file := true;
      waiting := false;
      depth := depth + 1;
      r := Got(issued);
      live := live + {issued};
      issued := issued + 1;
    }

    method ReleaseHandle(k: Kernel, h: nat)
      requires !waiting
      modifies this, k
      ensures View(k) == Release(old(View(k)), me, h)
    {
      if h !in live {
        return;
      }
      live := live - {h};
      depth := depth - 1;
      if depth > 0 {
        return;
      }
      k.holders := k.holders - {me};
      file := false;
    }
  }
}
