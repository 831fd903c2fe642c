/** Binary semaphores conserve tokens, and a semaphore used as a bracket admits one holder. */
module Semaphores {
  import opened Prelude
  import opened NucleusState
  import opened NucleusInvariant
  import opened KillTree
  import opened NucleusStep
  import opened NucleusRuns
  import opened NucleusTheorems

  /** A P or a V that was carried through: by whom, on what. */
  datatype Done = Done(pid: nat, key: Key, isP: bool)

  ghost function DoneByP(s: Sys, k: Key): seq<Done>
    requires Shape(s) && s.act.Some?
  {
    if SemVal(s, k) == 0 then []
    else if k in s.asl then [Done(s.act.value, k, true), Done(s.asl[k][0], k, false)]
    else [Done(s.act.value, k, true)]
  }

  /** V by the running process, or by an interrupt handler, for which pid is nobody's. */
  ghost function DoneByV(s: Sys, k: Key, pid: nat): seq<Done>
    requires Shape(s)
  {
    if SemVal(s, k) == 1 then []
    else if k in s.asl then [Done(pid, k, false), Done(s.asl[k][0], k, true)]
    else [Done(pid, k, false)]
  }

  /** A tick: a V and the P it completes for each waiter in turn; the last V, which the reset undoes, is left out. */
  ghost function DoneByTick(q: seq<nat>, nobody: nat): seq<Done> {
    if q == [] then [] else [Done(nobody, Clock, false), Done(q[0], Clock, true)] + DoneByTick(q[1..], nobody)
  }

  /** The operations a passage carries through, handlers' included. */
  ghost function Completed(s: Sys, e: Event): seq<Done>
    requires Settled(s) && Possible(s, e)
  {
    if DoesP(s, e) then DoneByP(s, KeyOf(e))
    else if DoesV(s, e) then DoneByV(s, KeyOf(e), if e.Device? then |s.at| else s.act.value)
    else if e.Tick? then DoneByTick(Queue(s, Clock), |s.at|)
    else []
  }

  ghost function Log(s: Sys, run: seq<Entry>): seq<Done>
    requires Settled(s) && CanRun(s, run)
    decreases |run|
  {
    if run == [] then [] else Completed(s, run[0].event) + Log(After(s, run[0]), run[1..])
  }

  ghost function Count(log: seq<Done>, k: Key, isP: bool): nat {
    if log == [] then 0
    else (if log[0].key == k && log[0].isP == isP then 1 else 0) + Count(log[1..], k, isP)
  }

  lemma {:induction false} CountAppend(a: seq<Done>, b: seq<Done>, k: Key, isP: bool)
    ensures Count(a + b, k, isP) == Count(a, k, isP) + Count(b, k, isP)
  {
    if a == [] {
      assert a + b == b;
    } else {
      assert (a + b)[0] == a[0] && (a + b)[1..] == a[1..] + b;
      CountAppend(a[1..], b, k, isP);
    }
  }

  lemma CountTwo(d: seq<Done>, k: Key, isP: bool)
    requires |d| == 2
    ensures Count(d, k, isP) == (if d[0].key == k && d[0].isP == isP then 1 else 0) +
                                (if d[1].key == k && d[1].isP == isP then 1 else 0)
  {
    assert d[1..] == [d[1]] && d[1..][1..] == [];
    assert Count(d[1..], k, isP) == (if d[1].key == k && d[1].isP == isP then 1 else 0);
  }

  /** Tokens on a semaphore change only through completed operations. */
  lemma StepConserves(s: Sys, x: Entry, k: Key)
    requires Settled(s) && Possible(s, x.event) && Tame(s, x.event)
    ensures var done := Completed(s, x.event);
            SemVal(After(s, x), k) == SemVal(s, k) + Count(done, k, false) - Count(done, k, true)
  {
    AfterSem(s, x);
    HandleConserves(s, x.event, k);
    hide Settled, Possible, Tame, Handle, After, Completed;
  }

  /** Dispatch writes no semaphore. */
  lemma AfterSem(s: Sys, x: Entry)
    requires Settled(s) && Possible(s, x.event) && Tame(s, x.event)
    ensures After(s, x).sem == Handle(s, x.event).0.sem
  {
    AfterIs(s, x);
    var (s1, v) := Handle(s, x.event);
    ReleasedSem(s1, v, x.serving);
    assert Dispatched(s, x).sem == s1.sem;
    hide *;
    if Dispatches(s, x) {
      SchedulerSem(Dispatched(s, x), x.loading);
    } else if v != Resumed {
      LoadFields(Charge(s1, x.serving), s.act.value, x.loading);
    }
  }

  lemma ReleasedSem(s: Sys, v: Verdict, serving: nat)
    requires Shape(s)
    ensures Released(s, v, serving).sem == s.sem && Charge(s, serving).sem == s.sem
  {
  }

  lemma SchedulerSem(s: Sys, elapsed: nat)
    requires Shape(s)
    ensures SchedulerNext(s, elapsed).sem == s.sem
  {
    if s.high != [] {
      LoadFields(PopHigh(s), s.high[0], elapsed);
    } else if s.low != [] {
      LoadFields(PopLow(s), s.low[0], elapsed);
    }
    hide Load, Shape;
  }

  lemma PConserves(s: Sys, k: Key, j: Key)
    requires Shape(s) && s.act.Some? && (SemVal(s, k) == 0 || SemVal(s, k) == 1)
    ensures SemVal(P(s, k).0, j) == SemVal(s, j) + Count(DoneByP(s, k), j, false) - Count(DoneByP(s, k), j, true)
  {
    var d := DoneByP(s, k);
    if |d| == 2 {
      CountTwo(d, j, true);
      CountTwo(d, j, false);
    }
    hide Shape;
  }

  lemma VConserves(s: Sys, k: Key, pid: nat, j: Key)
    requires Shape(s) && (SemVal(s, k) == 0 || SemVal(s, k) == 1)
    ensures SemVal(V(s, k).0, j) ==
            SemVal(s, j) + Count(DoneByV(s, k, pid), j, false) - Count(DoneByV(s, k, pid), j, true)
  {
    var d := DoneByV(s, k, pid);
    if |d| == 2 {
      CountTwo(d, j, true);
      CountTwo(d, j, false);
    }
    hide Shape;
  }

  lemma {:induction false} TickConserves(q: seq<nat>, nobody: nat, k: Key)
    ensures Count(DoneByTick(q, nobody), k, false) == Count(DoneByTick(q, nobody), k, true)
    ensures k != Clock ==> Count(DoneByTick(q, nobody), k, false) == 0
    ensures forall i :: 0 <= i < |q| ==> Done(q[i], Clock, true) in DoneByTick(q, nobody)
    ensures forall d :: d in DoneByTick(q, nobody) ==> d.key == Clock
  {
    if q != [] {
      TickConserves(q[1..], nobody, k);
      var two := [Done(nobody, Clock, false), Done(q[0], Clock, true)];
      var rest := DoneByTick(q[1..], nobody);
      CountTwo(two, k, false);
      CountTwo(two, k, true);
      CountAppend(two, rest, k, false);
      CountAppend(two, rest, k, true);
      forall i | 0 <= i < |q| ensures Done(q[i], Clock, true) in two + rest {
        if i == 0 { assert two[1] in two; } else { assert Done(q[1..][i - 1], Clock, true) in rest; }
      }
    }
  }

  lemma KeyBinary(s: Sys, e: Event)
    requires Settled(s) && (DoesP(s, e) || DoesV(s, e))
    ensures BinaryValue(s, KeyOf(e))
  {
  }

  lemma HandleConserves(s: Sys, e: Event, k: Key)
    requires Settled(s) && Possible(s, e) && Tame(s, e)
    ensures var done := Completed(s, e);
            SemVal(Handle(s, e).0, k) == SemVal(s, k) + Count(done, k, false) - Count(done, k, true)
  {
    hide ListsOk, AslOk, ValuesOk, TreeOk, PriosOk, CountsOk, Handle, P, V, ClockTick, MkProc, KillProcess, DoneByP,
      DoneByV;
    HandleIs(s, e);
    if DoesP(s, e) {
      KeyBinary(s, e);
      PConserves(s, KeyOf(e), k);
    } else if DoesV(s, e) {
      KeyBinary(s, e);
      VConserves(s, KeyOf(e), if e.Device? then |s.at| else s.act.value, k);
    } else if e.Tick? {
      TickWakesAll(s);
      TickConserves(Queue(s, Clock), |s.at|, k);
      hide DoneByTick;
    } else {
      if e.CreateProcess? { CreateApart(s, e.prio, e.support, e.reg); }
      if Kills(s, e) { KillApart(s, Victim(s, e), k); }
    }
  }

  /** The value is what it was, plus the Vs, minus the Ps carried through since. */
  lemma {:induction false} TokensConserved(s: Sys, run: seq<Entry>, k: Key)
    requires Settled(s) && CanRun(s, run)
    ensures var log := Log(s, run);
            SemVal(Run(s, run), k) == SemVal(s, k) + Count(log, k, false) - Count(log, k, true)
    decreases |run|
  {
    if run != [] {
      var s1 := After(s, run[0]);
      StepConserves(s, run[0], k);
      hide Settled, Possible, Tame, After, Completed;
      TokensConserved(s1, run[1..], k);
      CountAppend(Completed(s, run[0].event), Log(s1, run[1..]), k, false);
      CountAppend(Completed(s, run[0].event), Log(s1, run[1..]), k, true);
    }
  }

  // ---------------------------------------------------------------- binary for ever

  /** P and V on a binary semaphore leave it binary. */
  lemma PVBinary(s: Sys, k: Key, j: Key)
    requires Shape(s) && BinaryValue(s, j) && BinaryValue(s, k)
    ensures BinaryValue(V(s, k).0, j) && (s.act.Some? ==> BinaryValue(P(s, k).0, j))
  {
    if j != k { PVApart(s, k, j); }
  }

  lemma StaysBinary(s: Sys, x: Entry, k: Key)
    requires Settled(s) && Possible(s, x.event) && Tame(s, x.event) && BinaryValue(s, k)
    ensures BinaryValue(After(s, x), k)
  {
    hide ListsOk, AslOk, ValuesOk, TreeOk, PriosOk, CountsOk, Handle, P, V, ClockTick, MkProc, KillProcess, After;
    var e := x.event;
    AfterSem(s, x);
    HandleIs(s, e);
    if DoesP(s, e) || DoesV(s, e) {
      KeyBinary(s, e);
      PVBinary(s, KeyOf(e), k);
    }
    if e.Tick? { TickWakesAll(s); }
    if e.CreateProcess? { CreateApart(s, e.prio, e.support, e.reg); }
    if Kills(s, e) { KillApart(s, Victim(s, e), k); }
  }

  /** A semaphore that starts 0 or 1 is 0 or 1 for ever, as long as only P and V touch it. */
  lemma {:induction false} BinaryForever(s: Sys, run: seq<Entry>, k: Key)
    requires Settled(s) && CanRun(s, run) && BinaryValue(s, k)
    ensures BinaryValue(Run(s, run), k)
    decreases |run|
  {
    if run != [] {
      StaysBinary(s, run[0], k);
      BinaryForever(After(s, run[0]), run[1..], k);
    }
  }

  /**
   * So on a run from binary semaphores no P or V ever panics: only a null request, a wild interrupt or starvation
   * does.
   */
  lemma ValuesNeverPanic(s: Sys, run: seq<Entry>, x: Entry)
    requires Settled(s) && CanRun(s, run) && Possible(Run(s, run), x.event) && Tame(Run(s, run), x.event)
    requires forall addr :: BinaryValue(s, User(addr))
    ensures After(Run(s, run), x).mode == Panicked <==>
              x.event.NullRequest? || x.event.WildInterrupt? || Starves(Run(s, run), x.event)
  {
    PanicsExactly(Run(s, run), x);
    if x.event.Passeren? || x.event.Verhogen? {
      BinaryForever(s, run, KeyOf(x.event));
    }
    hide Settled, Possible, Tame, After, Starves, CanRun, Run;
  }

  // ---------------------------------------------------------------- who waits, and who goes on

  /** Waiters on a semaphore at 0 are all in a P, on one at 1 all in a V; it is binary meanwhile. */
  lemma WaitersAgree(s: Sys, k: Key, p: nat)
    requires Settled(s) && p in Queue(s, k)
    ensures p < |s.at| && (SemVal(s, k) == 0 || SemVal(s, k) == 1)
    ensures s.waitsP[p] <==> SemVal(s, k) == 0
  {
    assert Holds(s.asl[k], s.at, Blocked(k));
  }

  lemma PVKeeps(s: Sys, k: Key, p: nat)
    requires Inv(s) && p < |s.at| && s.at[p].Blocked? && (s.act.Some? ==> s.at[s.act.value] == Running)
    ensures s.act.Some? ==>
              || P(s, k).0.at[p] == s.at[p]
              || (k in s.asl && s.asl[k][0] == p && s.at[p] == Blocked(k) && SemVal(s, k) != 0)
    ensures V(s, k).0.at[p] == s.at[p] || (k in s.asl && s.asl[k][0] == p && s.at[p] == Blocked(k) && SemVal(s, k) != 1)
  {
    hide ListsOk, AslOk, ValuesOk, TreeOk, PriosOk, CountsOk, Wake;
    if k in s.asl {
      WakePlaces(s, k, p);
    }
  }

  lemma {:induction false} ClockLoopKeeps(s: Sys, p: nat)
    requires Inv(s) && p < |s.at| && s.at[p].Blocked? && s.at[p] != Blocked(Clock)
    requires s.yielded == None && (s.act.Some? ==> s.at[s.act.value] == Running)
    requires SemVal(s, Clock) == 0 || (SemVal(s, Clock) == 1 && Clock !in s.asl)
    ensures ClockLoop(s).at[p] == s.at[p]
    decreases |Queue(s, Clock)| + (if SemVal(s, Clock) == 1 then 0 else 1)
  {
    hide ListsOk, AslOk, ValuesOk, TreeOk, PriosOk, CountsOk;
    if SemVal(s, Clock) != 1 {
      VInv(s, Clock);
      PVKeeps(s, Clock, p);
      ClockLoopKeeps(V(s, Clock).0, p);
    }
  }

  lemma CreateKeeps(s: Sys, prio: int, support: int, reg: int, p: nat)
    requires Core(s) && s.act.Some? && s.at[s.act.value] == Running && p < |s.at| && s.at[p].Blocked?
    ensures MkProc(s, prio, support, reg).0.at[p] == s.at[p]
  {
    hide ListsOk, AslOk, ValuesOk, TreeOk, PriosOk, CountsOk;
    if s.free != [] {
      SpawnCore(s, prio, support, reg);
    }
  }

  lemma KillKeeps(s: Sys, v: nat, p: nat)
    requires Core(s) && v < |s.at| && s.at[v] != Free && p < |s.at| && p !in Subtree(s, v)
    ensures KillProcess(s, v).at[p] == s.at[p]
  {
    KillsExactlySubtree(s, v);
  }

  lemma HandleKeepsWaiting(s: Sys, e: Event, k: Key, p: nat)
    requires Settled(s) && Possible(s, e) && Tame(s, e)
    requires p < |s.at| && s.at[p] == Blocked(k) && p !in Killed(s, e)
    ensures || Handle(s, e).0.at[p] == s.at[p]
            || (e.Tick? && k == Clock)
            || ((DoesP(s, e) || DoesV(s, e)) && KeyOf(e) == k && k in s.asl && s.asl[k][0] == p &&
                SemVal(s, k) == (if DoesP(s, e) then 1 else 0))
  {
    hide ListsOk, AslOk, ValuesOk, TreeOk, PriosOk, CountsOk, Handle, P, V, ClockLoop, MkProc, KillProcess, Subtree;
    HandleIs(s, e);
    if DoesP(s, e) || DoesV(s, e) {
      KeyBinary(s, e);
      PVKeeps(s, KeyOf(e), p);
    }
    if e.CreateProcess? { CreateKeeps(s, e.prio, e.support, e.reg, p); }
    if e.Tick? && k != Clock { ClockLoopKeeps(s, p); }
    if Kills(s, e) { KillKeeps(s, Victim(s, e), p); }
  }

  lemma WaiterListed(s: Sys, k: Key, p: nat)
    requires Settled(s) && (s.mode == Active || s.mode == Idle) && p < |s.at| && s.at[p] == Blocked(k)
    ensures p in Queue(s, k) && (s.waitsP[p] <==> SemVal(s, k) == 0) && s.act != Some(p)
    ensures exists i :: 0 <= i < |Queue(s, k)| && Queue(s, k)[i] == p
  {
    assert Holds(s.asl[k], s.at, Blocked(k));
  }

  /** A waiter leaves its semaphore only because its operation was carried through, or it died. */
  lemma LeavesByCompletion(s: Sys, x: Entry, k: Key, p: nat)
    requires Settled(s) && Possible(s, x.event) && Tame(s, x.event)
    requires p < |s.at| && s.at[p] == Blocked(k) && After(s, x).at[p] != s.at[p]
    requires p !in Killed(s, x.event)
    ensures Done(p, k, s.waitsP[p]) in Completed(s, x.event)
  {
    hide ListsOk, AslOk, ValuesOk, TreeOk, PriosOk, CountsOk, Handle, After, Killed, DoneByTick;
    var e := x.event;
    AfterDeals(s, x, p);
    WaiterListed(s, k, p);
    HandleKeepsWaiting(s, e, k, p);
    assert Handle(s, e).0.at[p] != s.at[p];
    var d := Completed(s, e);
    if e.Tick? && k == Clock {
      TickConserves(Queue(s, Clock), |s.at|, k);
    } else {
      assert |d| == 2 && d[1] == Done(p, k, s.waitsP[p]);
    }
  }

  // ---------------------------------------------------------------- mutual exclusion

  /** Who is inside a bracket after a passage: carried a P through, did not yet ask for the V. */
  ghost function Inside(s: Sys, e: Event, k: Key, inside: set<nat>): set<nat>
    requires Settled(s) && Possible(s, e)
  {
    (inside - Killed(s, e) - (if e.Verhogen? && User(e.addr) == k then {s.act.value} else {}))
    + Entered(Completed(s, e), k)
  }

  /** Whose P on `k` was carried through. */
  ghost function Entered(log: seq<Done>, k: Key): set<nat> {
    set d | d in log && d.key == k && d.isP :: d.pid
  }

  ghost function InsideAfter(s: Sys, run: seq<Entry>, k: Key, inside: set<nat>): set<nat>
    requires Settled(s) && CanRun(s, run)
    decreases |run|
  {
    if run == [] then inside
    else InsideAfter(After(s, run[0]), run[1..], k, Inside(s, run[0].event, k, inside))
  }

  /** Only a process inside asks for the V. */
  ghost predicate Brackets(s: Sys, run: seq<Entry>, k: Key, inside: set<nat>)
    requires Settled(s) && CanRun(s, run)
    decreases |run|
  {
    run == [] || (
      && (run[0].event.Verhogen? && User(run[0].event.addr) == k ==> s.act.value in inside)
      && Brackets(After(s, run[0]), run[1..], k, Inside(s, run[0].event, k, inside)))
  }

  /** The semaphore is 1 and nobody is inside or waiting, or it is 0 and at most one is inside. */
  ghost predicate Guarded(s: Sys, k: Key, inside: set<nat>) {
    || (SemVal(s, k) == 1 && inside == {} && k !in s.asl)
    || (SemVal(s, k) == 0 && |inside| <= 1)
  }

  lemma UnyieldAsl(s: Sys)
    requires Shape(s)
    ensures Unyield(s).asl == s.asl
  {
  }

  lemma SchedulerAsl(s: Sys, elapsed: nat)
    requires Shape(s)
    ensures SchedulerNext(s, elapsed).asl == s.asl
  {
    UnyieldAsl(s);
    if s.high != [] {
      LoadFields(PopHigh(s), s.high[0], elapsed);
    } else if s.low != [] {
      LoadFields(PopLow(s), s.low[0], elapsed);
    }
    hide Load, Shape, Unyield;
  }

  lemma ReleasedAsl(s: Sys, v: Verdict, serving: nat)
    requires Shape(s)
    ensures Released(s, v, serving).asl == s.asl && Charge(s, serving).asl == s.asl
  {
  }

  /** Dispatch changes no semaphore queue. */
  lemma AfterAsl(s: Sys, x: Entry)
    requires Settled(s) && Possible(s, x.event) && Tame(s, x.event)
    ensures After(s, x).asl == Handle(s, x.event).0.asl
  {
    AfterIs(s, x);
    var (s1, v) := Handle(s, x.event);
    ReleasedAsl(s1, v, x.serving);
    assert Dispatched(s, x).asl == s1.asl;
    hide *;
    if Dispatches(s, x) {
      SchedulerAsl(Dispatched(s, x), x.loading);
    } else if v != Resumed {
      LoadFields(Charge(s1, x.serving), s.act.value, x.loading);
    }
  }

  predicate OnKey(e: Event, k: Key) {
    (e.Passeren? || e.Verhogen?) && User(e.addr) == k
  }

  /** Exceptions that are no P or V on a process's semaphore leave its value, and an empty queue empty. */
  lemma HandleApart(s: Sys, e: Event, addr: int)
    requires Settled(s) && Possible(s, e) && Tame(s, e) && !OnKey(e, User(addr))
    ensures var r := Handle(s, e).0;
            SemVal(r, User(addr)) == SemVal(s, User(addr)) && (User(addr) !in s.asl ==> User(addr) !in r.asl)
  {
    var k := User(addr);
    hide ListsOk, AslOk, ValuesOk, TreeOk, PriosOk, CountsOk, Handle, P, V, ClockTick, MkProc, KillProcess;
    HandleIs(s, e);
    if DoesP(s, e) || DoesV(s, e) { PVApart(s, KeyOf(e), k); }
    if e.CreateProcess? { CreateApart(s, e.prio, e.support, e.reg); }
    if e.Tick? { TickApart(s, k); }
    if Kills(s, e) { KillApart(s, Victim(s, e), k); }
  }

  lemma CreateApart(s: Sys, prio: int, support: int, reg: int)
    requires Shape(s) && s.act.Some?
    ensures MkProc(s, prio, support, reg).0.sem == s.sem && MkProc(s, prio, support, reg).0.asl == s.asl
  {
  }

  /** P and V on one semaphore leave the others alone. */
  lemma PVApart(s: Sys, j: Key, k: Key)
    requires Shape(s) && j != k
    ensures SemVal(V(s, j).0, k) == SemVal(s, k) && (k in V(s, j).0.asl <==> k in s.asl)
    ensures s.act.Some? ==> SemVal(P(s, j).0, k) == SemVal(s, k) && (k in P(s, j).0.asl <==> k in s.asl)
  {
    hide Wake, Shape;
    if j in s.asl { WakesOther(s, j, k); }
  }

  lemma WakesOther(s: Sys, j: Key, k: Key)
    requires Shape(s) && j in s.asl && j != k
    ensures Wake(s, j).sem == s.sem && (k in Wake(s, j).asl <==> k in s.asl)
  {
  }

  lemma TickApart(s: Sys, k: Key)
    requires Settled(s) && (s.mode == Active || s.mode == Idle) && k != Clock
    ensures SemVal(ClockTick(s), k) == SemVal(s, k)
    ensures k !in s.asl ==> k !in ClockTick(s).asl
  {
    ClockLoopWakes(s);
    hide Inv, ClockLoop;
    assert Queue(ClockLoop(s), k) == Queue(s, k);
  }

  lemma KillApart(s: Sys, p: nat, k: Key)
    requires Core(s) && p < |s.at| && s.at[p] != Free
    ensures KillProcess(s, p).sem == s.sem && (k !in s.asl ==> k !in KillProcess(s, p).asl)
  {
    hide Core;
  }

  /** P on a semaphore at 0 completes nothing; on one at 1 that nobody waits for it takes the token. */
  lemma PCloses(s: Sys, k: Key)
    requires Shape(s) && s.act.Some? && BinaryValue(s, k) && (SemVal(s, k) == 1 ==> k !in s.asl)
    ensures SemVal(P(s, k).0, k) == 0
    ensures Entered(DoneByP(s, k), k) == if SemVal(s, k) == 1 then {s.act.value} else {}
  {
  }

  lemma GuardedP(s: Sys, x: Entry, k: Key, inside: set<nat>)
    requires Settled(s) && Possible(s, x.event) && Tame(s, x.event) && Guarded(s, k, inside)
    requires x.event.Passeren? && User(x.event.addr) == k
    ensures Guarded(After(s, x), k, Inside(s, x.event, k, inside))
  {
    hide ListsOk, AslOk, ValuesOk, TreeOk, PriosOk, CountsOk, After, Killed, Handle, P, DoneByP, Entered;
    AfterSem(s, x);
    HandleIs(s, x.event);
    PCloses(s, k);
    var r := Inside(s, x.event, k, inside);
    assert Completed(s, x.event) == DoneByP(s, k);
    SubsetSize(r, if SemVal(s, k) == 1 then {s.act.value} else inside);
  }

  /** V on a semaphore at 0 passes the token to the oldest waiter, or puts it back. */
  lemma VOpens(s: Sys, k: Key)
    requires Shape(s) && SemVal(s, k) == 0
    ensures k in s.asl ==> SemVal(V(s, k).0, k) == 0
    ensures k !in s.asl ==> SemVal(V(s, k).0, k) == 1 && k !in V(s, k).0.asl
  {
  }

  lemma GuardedV(s: Sys, x: Entry, k: Key, inside: set<nat>)
    requires Settled(s) && Possible(s, x.event) && Tame(s, x.event) && Guarded(s, k, inside)
    requires x.event.Verhogen? && User(x.event.addr) == k && s.act.value in inside
    ensures Guarded(After(s, x), k, Inside(s, x.event, k, inside))
  {
    hide ListsOk, TreeOk, PriosOk, CountsOk, Tame, After, Handle, V, Killed, Completed;
    var a := s.act.value;
    assert Inside(s, x.event, k, inside) == (inside - Killed(s, x.event) - {a}) + Entered(Completed(s, x.event), k);
    assert SemVal(s, k) == 0;
    AfterSem(s, x);
    AfterAsl(s, x);
    VOpens(s, k);
    VHandled(s, x.event, k);
    VPasses(s, k, a);
    OnlyMember(inside, Killed(s, x.event), a);
    hide *;
    assert SemVal(After(s, x), k) == SemVal(V(s, k).0, k);
    assert forall m: set<nat> :: {} + m == m;
    Close(After(s, x), k, Inside(s, x.event, k, inside), Queue(s, k));
  }

  /** The one let in by a V is the oldest waiter, if there is one. */
  lemma VPasses(s: Sys, k: Key, a: nat)
    requires Shape(s) && SemVal(s, k) == 0
    ensures Entered(DoneByV(s, k, a), k) == if k in s.asl then {Queue(s, k)[0]} else {}
    ensures k in s.asl <==> Queue(s, k) != []
  {
  }

  lemma OnlyMember(a: set<nat>, b: set<nat>, x: nat)
    requires x in a && |a| <= 1
    ensures a - b - {x} == {}
  {
    assert |a| == |a - {x}| + 1;
  }

  lemma Close(r: Sys, k: Key, inside: set<nat>, q: seq<nat>)
    requires q != [] ==> SemVal(r, k) == 0 && inside == {q[0]}
    requires q == [] ==> SemVal(r, k) == 1 && inside == {} && k !in r.asl
    ensures Guarded(r, k, inside)
  {
  }

  lemma VHandled(s: Sys, e: Event, k: Key)
    requires Settled(s) && Possible(s, e) && e.Verhogen? && User(e.addr) == k && SemVal(s, k) == 0
    ensures Handle(s, e).0 == V(s, k).0
    ensures Completed(s, e) == DoneByV(s, k, s.act.value)
  {
    hide Inv, V;
  }

  lemma CompletedApart(s: Sys, e: Event, addr: int)
    requires Settled(s) && Possible(s, e) && !OnKey(e, User(addr))
    ensures forall d :: d in Completed(s, e) ==> d.key != User(addr)
  {
    hide Inv, DoneByTick;
    TickConserves(Queue(s, Clock), |s.at|, Clock);
  }

  lemma GuardedOther(s: Sys, x: Entry, addr: int, inside: set<nat>)
    requires Settled(s) && Possible(s, x.event) && Tame(s, x.event) && Guarded(s, User(addr), inside)
    requires !OnKey(x.event, User(addr))
    ensures Guarded(After(s, x), User(addr), Inside(s, x.event, User(addr), inside))
  {
    AfterSem(s, x);
    AfterAsl(s, x);
    HandleApart(s, x.event, addr);
    CompletedApart(s, x.event, addr);
    hide Settled, Possible, Tame, Handle, After, Completed, Killed;
    var r := Inside(s, x.event, User(addr), inside);
    assert r <= inside;
    SubsetSize(r, inside);
  }

  /**
   * Mutual exclusion: a semaphore that starts at 1, on which only processes inside ask for the
   * V, never has two processes inside, whoever is killed or blocked meanwhile.
   */
  lemma {:induction false} AtMostOneInside(s: Sys, run: seq<Entry>, addr: int, inside: set<nat>)
    requires Settled(s) && CanRun(s, run) && Guarded(s, User(addr), inside)
    requires Brackets(s, run, User(addr), inside)
    ensures Guarded(Run(s, run), User(addr), InsideAfter(s, run, User(addr), inside))
    ensures |InsideAfter(s, run, User(addr), inside)| <= 1
    decreases |run|
  {
    if run != [] {
      var k := User(addr);
      var e := run[0].event;
      if OnKey(e, k) {
        if e.Passeren? {
          GuardedP(s, run[0], k, inside);
        } else {
          GuardedV(s, run[0], k, inside);
        }
      } else {
        GuardedOther(s, run[0], addr, inside);
      }
      hide Settled, Possible, Tame, After, Inside, Guarded;
      AtMostOneInside(After(s, run[0]), run[1..], addr, Inside(s, e, k, inside));
    }
  }
}
