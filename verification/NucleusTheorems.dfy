/** What the invariant means for whoever relies on the nucleus. */
module NucleusTheorems {
  import opened Prelude
  import opened NucleusState
  import opened NucleusInvariant
  import opened KillTree
  import opened NucleusStep
  import opened NucleusRuns

  // ---------------------------------------------------------------- one place each

  /** The places the kernel's own structures give a block, without the `at` column. */
  ghost function Found(s: Sys, p: nat): set<Place> {
    (if p in s.free then {Free} else {}) +
    (if p in s.low then {Low} else {}) +
    (if p in s.high then {High} else {}) +
    QueuedOn(s, p) +
    (if s.act == Some(p) then {Running} else {}) +
    (if s.yielded == Some(p) then {Yielded} else {})
  }

  ghost function QueuedOn(s: Sys, p: nat): set<Place> {
    set k | k in s.asl && p in s.asl[k] :: Blocked(k)
  }

  lemma QueuedOnOne(s: Sys, p: nat)
    requires AslOk(s) && p < |s.at|
    ensures QueuedOn(s, p) == if s.at[p].Blocked? then {s.at[p]} else {}
  {
    forall k | k in s.asl ensures p in s.asl[k] <==> s.at[p] == Blocked(k) {
      assert Holds(s.asl[k], s.at, Blocked(k));
    }
  }

  ghost predicate NoRepeats(s: Sys) {
    NoDup(s.free) && NoDup(s.low) && NoDup(s.high) && forall k :: k in s.asl ==> NoDup(s.asl[k])
  }

  /** A live process that no structure holds: nothing will ever run it again. */
  ghost predicate Lost(s: Sys, p: nat) {
    p < |s.at| && s.at[p] == Detached
  }

  /** Between passages every block of the table is in exactly one place, unless it was lost. */
  lemma ExactlyOnePlace(s: Sys, p: nat)
    requires Settled(s) && (s.mode == Active || s.mode == Idle) && p < |s.at|
    ensures Found(s, p) == if Lost(s, p) then {} else {s.at[p]}
    ensures NoRepeats(s)
  {
    hide ValuesOk, TreeOk, PriosOk, CountsOk;
    QueuedOnOne(s, p);
    assert p in s.free <==> s.at[p] == Free;
    assert p in s.low <==> s.at[p] == Low;
    assert p in s.high <==> s.at[p] == High;
  }

  // ---------------------------------------------------------------- lost processes

  /** The passages after which a process is in no structure although it is alive. */
  ghost predicate Loses(s: Sys, e: Event, p: nat)
    requires Settled(s) && Possible(s, e)
  {
    // a full table: the caller gets -1, which exception_handler does not recognise
    || (e.CreateProcess? && s.free == [] && s.act == Some(p))
    // a priority enqueue_proc does not know: the new process is queued nowhere
    || (e.CreateProcess? && s.free != [] && s.free[0] == p && e.prio != PRIO_LOW && e.prio != PRIO_HIGH)
    // a request on a device semaphore left at 1: the caller neither blocks nor is requeued
    || (e.DoIO? && SemVal(s, Dev(e.line, e.dev)) != 0 && s.act == Some(p))
  }

  lemma WakePlaces(s: Sys, k: Key, p: nat)
    requires Inv(s) && k in s.asl && p < |s.at|
    ensures var r := Wake(s, k);
            if p == s.asl[k][0] then r.at[p] in {Low, High} && s.at[p] == Blocked(k) else r.at[p] == s.at[p]
  {
    UnqueueCore(s, k);
    PrioBinary(s, s.asl[k][0]);
  }

  /** P and V send nobody to nowhere. */
  lemma PVPlaces(s: Sys, k: Key, p: nat)
    requires Inv(s) && p < |s.at| && (s.act.Some? ==> s.at[s.act.value] == Running)
    ensures (V(s, k).0.at[p] == Detached) == (s.at[p] == Detached)
    ensures s.act.Some? ==> (P(s, k).0.at[p] == Detached) == (s.at[p] == Detached)
    ensures s.at[p] == Running ==> V(s, k).0.at[p] == (if SemVal(s, k) == 1 then Blocked(k) else Running)
    ensures s.at[p] == Running ==> P(s, k).0.at[p] == (if SemVal(s, k) == 0 then Blocked(k) else Running)
    ensures s.act.Some? ==> P(s, k).1 == (if SemVal(s, k) == 0 then Nothing else Renqueue)
    ensures s.act.Some? ==> (V(s, k).1 == None <==> SemVal(s, k) == 1)
  {
    hide ListsOk, AslOk, ValuesOk, TreeOk, PriosOk, CountsOk, Wake;
    if k in s.asl {
      WakePlaces(s, k, p);
    }
  }

  lemma {:induction false} ClockLoopPlaces(s: Sys, p: nat)
    requires Inv(s) && p < |s.at| && (s.act.Some? ==> s.at[s.act.value] == Running) && s.yielded == None
    requires SemVal(s, Clock) == 0 || (SemVal(s, Clock) == 1 && Clock !in s.asl)
    ensures (ClockLoop(s).at[p] == Detached) == (s.at[p] == Detached)
    decreases |Queue(s, Clock)| + (if SemVal(s, Clock) == 1 then 0 else 1)
  {
    hide ListsOk, AslOk, ValuesOk, TreeOk, PriosOk, CountsOk;
    if SemVal(s, Clock) != 1 {
      VInv(s, Clock);
      PVPlaces(s, Clock, p);
      ClockLoopPlaces(V(s, Clock).0, p);
    }
  }

  /** The handler leaves `p` nowhere, or running with a verdict that links it nowhere. */
  ghost predicate LeftNowhere(s: Sys, r: Sys, v: Verdict, p: nat)
    requires p < |r.at|
  {
    r.at[p] == Detached || (v != Resumed && s.act == Some(p) && r.at[p] == Running && v != Continue && v != Renqueue)
  }

  lemma CreatePlaces(s: Sys, prio: int, support: int, reg: int, p: nat)
    requires Settled(s) && s.mode == Active && p < |s.at| && s.at[p] != Detached
    ensures var e := CreateProcess(prio, support, reg); var (r, v) := Handle(s, e);
            |r.at| == |s.at| && (LeftNowhere(s, r, v, p) <==> Loses(s, e, p))
  {
    hide ListsOk, AslOk, ValuesOk, TreeOk, PriosOk, CountsOk;
    if s.free != [] {
      SpawnCore(s, prio, support, reg);
    }
  }

  lemma VictimDies(s: Sys, p: nat)
    requires Core(s) && p < |s.at| && s.at[p] != Free
    ensures KillProcess(s, p).at[p] == Free
  {
    var ks := PostOrder(s.kids, s.born, s.births, p);
    assert ks[|ks| - 1] == p;
    hide Unblocked, Pruned, Orphaned, Without, Reverse, BlockedIn;
  }

  lemma DeathPlaces(s: Sys, e: Event, p: nat)
    requires Settled(s) && Possible(s, e) && Tame(s, e) && (e.TermProcess? || e.Trap?) && p < |s.at| &&
             s.at[p] != Detached
    ensures var (r, v) := Handle(s, e); |r.at| == |s.at| && !LeftNowhere(s, r, v, p)
  {
    hide ListsOk, AslOk, ValuesOk, TreeOk, PriosOk, CountsOk, Handle, KillProcess, P, V, ClockTick, MkProc;
    HandleIs(s, e);
    VerdictIs(s, e);
    KillInv(s, Victim(s, e));
    VictimDies(s, Victim(s, e));
  }

  lemma HandlePlaces(s: Sys, e: Event, p: nat)
    requires Settled(s) && Possible(s, e) && Tame(s, e) && p < |s.at| && s.at[p] != Detached
    ensures var (r, v) := Handle(s, e); LeftNowhere(s, r, v, p) <==> Loses(s, e, p)
  {
    hide ListsOk, AslOk, ValuesOk, TreeOk, PriosOk, CountsOk, P, V, ClockLoop, MkProc, KillProcess, Handle;
    if e.CreateProcess? {
      CreatePlaces(s, e.prio, e.support, e.reg, p);
    } else if e.TermProcess? || e.Trap? {
      DeathPlaces(s, e, p);
    } else {
      HandleIs(s, e);
      VerdictIs(s, e);
      if DoesP(s, e) || DoesV(s, e) { PVPlaces(s, KeyOf(e), p); }
      if e.Tick? { ClockLoopPlaces(s, p); }
    }
  }

  /** A passage loses a process exactly in three situations, each visible before it. */
  lemma LostExactly(s: Sys, x: Entry, p: nat)
    requires Settled(s) && Possible(s, x.event) && Tame(s, x.event) && p < |s.at| && !Lost(s, p)
    ensures Lost(After(s, x), p) <==> Loses(s, x.event, p)
  {
    HandlePlaces(s, x.event, p);
    AfterPlaces(s, x, p);
    hide *;
  }

  /** After a passage a block is nowhere if its handler left it nowhere, or running and unclaimed. */
  lemma AfterPlaces(s: Sys, x: Entry, p: nat)
    requires Settled(s) && Possible(s, x.event) && Tame(s, x.event) && p < |s.at|
    ensures var (s1, v) := Handle(s, x.event);
            After(s, x).at[p] == Detached <==> LeftNowhere(s, s1, v, p)
  {
    AfterDeals(s, x, p);
    hide Settled, Possible, Tame, Handle, After;
  }

  // ---------------------------------------------------------------- termination

  ghost function Subtree(s: Sys, p: nat): set<nat>
    requires Shape(s) && TreeOk(s)
  {
    set q | 0 <= q < |s.at| && Under(s, q, p)
  }

  lemma SubtreeOrder(s: Sys, p: nat)
    requires Core(s) && p < |s.at| && s.at[p] != Free
    ensures var ks := PostOrder(s.kids, s.born, s.births, p);
            && Closed(s, ks) && Elems(ks) == Subtree(s, p) && |ks| == |Subtree(s, p)|
            && BlockedIn(s.at, ks) == |Subtree(s, p) * Waiting(s.at)|
  {
    var ks := PostOrder(s.kids, s.born, s.births, p);
    PostOrderSubtree(s, p);
    SubtreeClosed(s, p);
    assert Elems(ks) == Subtree(s, p);
    NoDupCount(ks);
    BlockedInCounts(s.at, ks);
    assert WaitingAmong(s.at, ks) == Subtree(s, p) * Waiting(s.at);
  }

  lemma DropFacts(s: Sys, ks: seq<nat>)
    requires Shape(s) && InTable(ks, |s.at|)
    ensures var r, K := Drop(s, ks), Elems(ks);
            && (forall q :: 0 <= q < |s.at| ==> r.at[q] == if q in K then Free else s.at[q])
            && (forall k :: Queue(r, k) == Without(Queue(s, k), K))
            && (forall q :: 0 <= q < |s.at| && q !in K ==>
                  r.kids[q] == Without(s.kids[q], K) && r.parent[q] == s.parent[q])
            && Elems(r.free) == K + Elems(s.free) && |r.free| == |ks| + |s.free|
  {
    var r, K := Drop(s, ks), Elems(ks);
    forall k ensures Queue(r, k) == Without(Queue(s, k), K) {
    }
    forall x ensures x in r.free <==> x in ks || x in s.free {
    }
  }

  /**
   * kill_parent_and_progeny frees exactly the process and its descendants; in every queue and
   * child list the others keep their order, and the counters fall by what was removed.
   */
  lemma KillsExactlySubtree(s: Sys, p: nat)
    requires Core(s) && p < |s.at| && s.at[p] != Free
    ensures var r := KillProcess(s, p);
            var K := Subtree(s, p);
            && (forall q :: 0 <= q < |s.at| ==> r.at[q] == if q in K then Free else s.at[q])
            && r.low == Without(s.low, K) && r.high == Without(s.high, K)
            && (forall k :: Queue(r, k) == Without(Queue(s, k), K))
            && (forall q :: 0 <= q < |s.at| && q !in K ==>
                  r.kids[q] == Without(s.kids[q], K) && r.parent[q] == s.parent[q])
            && Elems(r.free) == K + Elems(s.free) && |r.free| == |K| + |s.free|
            && r.procs == s.procs - |K|
            && r.sb == s.sb - |K * Waiting(s.at)|
  {
    SubtreeOrder(s, p);
    DropFacts(s, PostOrder(s.kids, s.born, s.births, p));
    hide *;
    assert KillProcess(s, p) == Drop(s, PostOrder(s.kids, s.born, s.births, p));
  }

  /** The processes a passage terminates. */
  ghost function Killed(s: Sys, e: Event): set<nat>
    requires Settled(s) && Possible(s, e)
  {
    if Kills(s, e) then Subtree(s, Victim(s, e)) else {}
  }

  lemma CreateKeepsLost(s: Sys, prio: int, support: int, reg: int, p: nat)
    requires Settled(s) && s.mode == Active && Lost(s, p)
    ensures Handle(s, CreateProcess(prio, support, reg)).0.at[p] == Detached
  {
    hide ListsOk, AslOk, ValuesOk, TreeOk, PriosOk, CountsOk;
    if s.free != [] {
      SpawnCore(s, prio, support, reg);
    }
  }

  lemma HandleLost(s: Sys, e: Event, p: nat)
    requires Settled(s) && Possible(s, e) && Tame(s, e) && Lost(s, p) && p !in Killed(s, e)
    ensures Handle(s, e).0.at[p] == Detached
  {
    hide ListsOk, AslOk, ValuesOk, TreeOk, PriosOk, CountsOk, Subtree, P, V, ClockLoop, MkProc, KillProcess, Handle;
    HandleIs(s, e);
    if e.CreateProcess? { CreateKeepsLost(s, e.prio, e.support, e.reg, p); }
    if DoesP(s, e) || DoesV(s, e) { PVPlaces(s, KeyOf(e), p); }
    if e.Tick? { ClockLoopPlaces(s, p); }
    if Kills(s, e) { KillsExactlySubtree(s, Victim(s, e)); }
  }

  /** A lost process stays lost until it is terminated. */
  lemma LostForGood(s: Sys, x: Entry, p: nat)
    requires Settled(s) && Possible(s, x.event) && Tame(s, x.event) && Lost(s, p)
    requires p !in Killed(s, x.event)
    ensures Lost(After(s, x), p)
  {
    HandleLost(s, x.event, p);
    AfterPlaces(s, x, p);
    hide *;
  }

  // ---------------------------------------------------------------- what the scheduler finds

  /** With nothing ready: halt when nothing lives, wait while somebody is blocked, else panic. */
  lemma NothingReady(s: Sys, elapsed: nat)
    requires Core(s) && Quiet(s) && s.high == [] && s.low == []
    ensures var r := SchedulerNext(s, elapsed);
            && (r.mode == Halted <==> Live(s.at) == {})
            && (r.mode == Idle <==> Waiting(s.at) != {})
            && (r.mode == Panicked <==> Live(s.at) != {} && Waiting(s.at) == {})
            && (forall p :: p in Live(s.at) ==> p in Waiting(s.at) || s.yielded == Some(p) || Lost(s, p))
  {
    assert Waiting(s.at) <= Live(s.at);
    forall p | p in Live(s.at) ensures p in Waiting(s.at) || s.yielded == Some(p) || Lost(s, p) {
      assert p !in s.low && p !in s.high;
    }
  }

  lemma LoadedNext(s: Sys, p: nat, elapsed: nat)
    requires Shape(s) && p < |s.at|
    requires s.yielded.Some? ==> s.yielded != Some(p) && s.prio[s.yielded.value] in {PRIO_LOW, PRIO_HIGH}
    ensures var r := Load(s, p, elapsed);
            && r.mode == Active && r.act == Some(p) && r.at[p] == Running
            && (s.yielded.Some? ==> r.at[s.yielded.value] == Low || r.at[s.yielded.value] == High)
  {
  }

  /** With something ready: the oldest process of the highest priority runs next, never the yielder. */
  lemma SomethingReady(s: Sys, elapsed: nat)
    requires Core(s) && Quiet(s) && (s.high != [] || s.low != [])
    ensures var r := SchedulerNext(s, elapsed);
            var next := if s.high != [] then s.high[0] else s.low[0];
            && r.mode == Active && r.act == Some(next) && r.at[next] == Running
            && s.yielded != Some(next)
            && (s.yielded.Some? ==> r.at[s.yielded.value] == Low || r.at[s.yielded.value] == High)
  {
    hide ListsOk, AslOk, ValuesOk, TreeOk, PriosOk, CountsOk, Load;
    PopCore(s);
    if s.yielded.Some? {
      PrioBinary(s, s.yielded.value);
    }
    if s.high != [] {
      LoadedNext(s.(high := s.high[1..], at := s.at[s.high[0] := Detached]), s.high[0], elapsed);
    } else {
      LoadedNext(s.(low := s.low[1..], at := s.at[s.low[0] := Detached]), s.low[0], elapsed);
    }
  }

  // ---------------------------------------------------------------- panics

  /** The semaphore's value is neither 0 nor 1. */
  predicate BadValue(s: Sys, e: Event) {
    (e.Passeren? || e.Verhogen?) && !BinaryValue(s, KeyOf(e))
  }

  /** What a handler answers with PANIC: such a value, a null command address, a bit past the last device. */
  predicate BadArgument(s: Sys, e: Event) {
    BadValue(s, e) || e.NullRequest? || e.WildInterrupt?
  }

  /** Ready, or blocked. */
  predicate Stirring(x: Place) {
    x == Low || x == High || x.Blocked?
  }

  /** The passage leaves its caller, if there is one, neither running nor ready nor blocked. */
  ghost predicate CallerStops(s: Sys, e: Event)
    requires Settled(s) && Possible(s, e)
  {
    || s.act == None
    || e.Yield?
    || (e.CreateProcess? && s.free == [])
    || (e.DoIO? && SemVal(s, KeyOf(e)) != 0)
    || s.act.value in Killed(s, e)
  }

  /** The passage leaves somebody alive, but nobody ready or blocked. */
  ghost predicate Starves(s: Sys, e: Event)
    requires Settled(s) && Possible(s, e)
  {
    && CallerStops(s, e)
    && (forall p :: 0 <= p < |s.at| && Stirring(s.at[p]) ==> p in Killed(s, e))
    && (exists p :: 0 <= p < |s.at| && s.at[p] != Free && p !in Killed(s, e))
  }

  lemma PVStirs(s: Sys, k: Key, p: nat)
    requires Inv(s) && p < |s.at| && s.act != Some(p) && (s.act.Some? ==> s.at[s.act.value] == Running)
    ensures Stirring(V(s, k).0.at[p]) == Stirring(s.at[p]) && (V(s, k).0.at[p] == Free) == (s.at[p] == Free)
    ensures s.act.Some? ==>
              Stirring(P(s, k).0.at[p]) == Stirring(s.at[p]) && (P(s, k).0.at[p] == Free) == (s.at[p] == Free)
  {
    hide ListsOk, AslOk, ValuesOk, TreeOk, PriosOk, CountsOk, Wake;
    if k in s.asl {
      WakePlaces(s, k, p);
    }
  }

  lemma {:induction false} ClockLoopStirs(s: Sys, p: nat)
    requires Inv(s) && p < |s.at| && s.act != Some(p) && (s.act.Some? ==> s.at[s.act.value] == Running) &&
             s.yielded == None
    requires SemVal(s, Clock) == 0 || (SemVal(s, Clock) == 1 && Clock !in s.asl)
    ensures Stirring(ClockLoop(s).at[p]) == Stirring(s.at[p]) && (ClockLoop(s).at[p] == Free) == (s.at[p] == Free)
    decreases |Queue(s, Clock)| + (if SemVal(s, Clock) == 1 then 0 else 1)
  {
    hide ListsOk, AslOk, ValuesOk, TreeOk, PriosOk, CountsOk;
    if SemVal(s, Clock) != 1 {
      VInv(s, Clock);
      PVStirs(s, Clock, p);
      ClockLoopStirs(V(s, Clock).0, p);
    }
  }

  lemma KillStirs(s: Sys, v: nat, p: nat)
    requires Core(s) && v < |s.at| && s.at[v] != Free && p < |s.at|
    ensures KillProcess(s, v).at[p] == if p in Subtree(s, v) then Free else s.at[p]
  {
    KillsExactlySubtree(s, v);
  }

  lemma SelfUnder(s: Sys, p: nat)
    requires Shape(s) && TreeOk(s) && p < |s.at|
    ensures p in Subtree(s, p)
  {
  }

  /** Others are ready or blocked after the handler if they were before and were not terminated. */
  lemma OthersStir(s: Sys, e: Event, p: nat)
    requires Settled(s) && Possible(s, e) && Tame(s, e) && p < |s.at| && s.act != Some(p)
    requires e.CreateProcess? ==> s.free == []
    ensures var r := Handle(s, e).0;
            && Stirring(r.at[p]) == (Stirring(s.at[p]) && p !in Killed(s, e))
            && (r.at[p] == Free) == (s.at[p] == Free || p in Killed(s, e))
  {
    hide ListsOk, AslOk, ValuesOk, TreeOk, PriosOk, CountsOk, Handle, P, V, ClockLoop, KillProcess, Subtree;
    HandleIs(s, e);
    if DoesP(s, e) || DoesV(s, e) { PVStirs(s, KeyOf(e), p); }
    if e.Tick? { ClockLoopStirs(s, p); }
    if Kills(s, e) { KillStirs(s, Victim(s, e), p); }
  }

  /** The caller, if it is not resumed, ends up ready or blocked unless it stops. */
  lemma CallerStirs(s: Sys, e: Event)
    requires Settled(s) && Possible(s, e) && Tame(s, e) && s.act.Some? && Handle(s, e).1 != Resumed &&
             Handle(s, e).1 != Continue
    ensures var (r, v) := Handle(s, e); var a := s.act.value;
            && a < |s.at| && Stirring(Parked(r, v, a)) == !CallerStops(s, e)
            && (Parked(r, v, a) == Free) == (a in Killed(s, e))
  {
    hide ListsOk, AslOk, ValuesOk, TreeOk, PriosOk, CountsOk, Handle, P, V, ClockLoop, KillProcess, Subtree;
    var a := s.act.value;
    HandleIs(s, e);
    VerdictIs(s, e);
    HandleHandled(s, e);
    if DoesP(s, e) || DoesV(s, e) { PVPlaces(s, KeyOf(e), a); }
    if Kills(s, e) {
      SelfUnder(s, Victim(s, e));
      KillStirs(s, Victim(s, e), a);
    }
  }

  /** With empty ready queues, ready or blocked means blocked. */
  lemma OnlyBlockedStir(r: Sys)
    requires Core(r) && r.high == [] && r.low == []
    ensures Waiting(r.at) == {} <==> forall p :: 0 <= p < |r.at| ==> !Stirring(r.at[p])
    ensures Live(r.at) != {} <==> exists p :: 0 <= p < |r.at| && r.at[p] != Free
  {
    forall p | 0 <= p < |r.at| ensures Stirring(r.at[p]) == (p in Waiting(r.at)) {
      assert p !in r.low && p !in r.high;
    }
    hide ListsOk, AslOk, ValuesOk, TreeOk, PriosOk, CountsOk, Stirring;
    if p :| 0 <= p < |r.at| && r.at[p] != Free { assert p in Live(r.at); }
    if p :| p in Live(r.at) { assert r.at[p] != Free; }
    if p :| p in Waiting(r.at) { assert Stirring(r.at[p]); }
  }

  /** Dispatch panics just when somebody lives and nobody is ready or blocked. */
  lemma DispatchPanics(r: Sys, elapsed: nat)
    requires Core(r) && Quiet(r) && r.mode != Panicked
    ensures SchedulerNext(r, elapsed).mode == Panicked <==>
            (forall p :: 0 <= p < |r.at| ==> !Stirring(r.at[p])) && (exists p :: 0 <= p < |r.at| && r.at[p] != Free)
  {
    assert r.low != [] ==> r.low[0] in r.low;
    assert r.high != [] ==> r.high[0] in r.high;
    if r.high == [] && r.low == [] {
      OnlyBlockedStir(r);
      NothingReady(r, elapsed);
    } else {
      SomethingReady(r, elapsed);
    }
    hide AslOk, ValuesOk, TreeOk, PriosOk, CountsOk, SchedulerNext;
  }

  /** A passage that ends in a dispatch panics exactly when it starves everybody. */
  lemma DispatchedPanics(s: Sys, x: Entry)
    requires Settled(s) && Possible(s, x.event) && Tame(s, x.event) && Dispatches(s, x)
    ensures After(s, x).mode == Panicked <==> Starves(s, x.event)
  {
    hide ListsOk, AslOk, ValuesOk, TreeOk, PriosOk, CountsOk, Handle, Released, Parked, Dispatched, SchedulerNext,
      Stirring;
    var e := x.event;
    var r := Dispatched(s, x);
    AfterIs(s, x);
    DispatchedQuiet(s, x);
    DispatchedMode(s, x);
    DispatchPanics(r, x.loading);
    if e.CreateProcess? && s.free != [] {
      VerdictIs(s, e);
      assert false;
    }
    forall p | 0 <= p < |s.at| && s.act != Some(p)
      ensures Stirring(r.at[p]) == (Stirring(s.at[p]) && p !in Killed(s, e)) &&
              (r.at[p] == Free) == (s.at[p] == Free || p in Killed(s, e))
    {
      OthersStir(s, e, p);
    }
    if s.act.Some? {
      CallerStirs(s, e);
      CallerRuns(s);
    }
    hide Killed, CallerStops, Inv, Quiet;
  }

  lemma CallerRuns(s: Sys)
    requires Settled(s) && s.act.Some? && s.mode == Active
    ensures !Stirring(s.at[s.act.value]) && s.at[s.act.value] != Free
  {
  }

  lemma DispatchedMode(s: Sys, x: Entry)
    requires Settled(s) && Possible(s, x.event) && Tame(s, x.event) && Dispatches(s, x)
    ensures Dispatched(s, x).mode != Panicked && (s.act.Some? ==> s.mode == Active && Handle(s, x.event).1 != Continue)
    ensures Handle(s, x.event).1 != Resumed
  {
    hide Handle, Inv, HandleSyscall;
    HandleHandled(s, x.event);
  }

  /** A passage that does not end in a dispatch panics exactly on a bad argument. */
  lemma ResumedPanics(s: Sys, x: Entry)
    requires Settled(s) && Possible(s, x.event) && Tame(s, x.event) && !Dispatches(s, x)
    ensures After(s, x).mode == Panicked <==> BadArgument(s, x.event)
    ensures x.event.WildInterrupt? || !CallerStops(s, x.event)
  {
    hide ListsOk, AslOk, ValuesOk, TreeOk, PriosOk, CountsOk, P, V, ClockTick, MkProc, KillProcess, Handle, Subtree;
    AfterIs(s, x);
    HandleIs(s, x.event);
    VerdictIs(s, x.event);
    BadResumes(s, x.event);
  }

  lemma BadResumes(s: Sys, e: Event)
    requires Settled(s) && Possible(s, e) && Tame(s, e)
    ensures Handle(s, e).1 == Resumed ==>
              (Handle(s, e).0.mode == Panicked <==> BadArgument(s, e))
    ensures BadArgument(s, e) ==> Handle(s, e).1 == Resumed
  {
    hide ListsOk, AslOk, ValuesOk, TreeOk, PriosOk, CountsOk, P, V, ClockTick, MkProc, KillProcess;
  }

  /**
   * The kernel panics exactly on a bad argument, or when the passage leaves somebody alive and nobody ready or
   * blocked: all visible before the passage.
   */
  lemma PanicsExactly(s: Sys, x: Entry)
    requires Settled(s) && Possible(s, x.event) && Tame(s, x.event)
    ensures After(s, x).mode == Panicked <==> BadArgument(s, x.event) || Starves(s, x.event)
  {
    BadResumes(s, x.event);
    if Dispatches(s, x) {
      DispatchedPanics(s, x);
    } else {
      ResumedPanics(s, x);
    }
    hide *;
  }

  /** With nobody lost, before or by it, a passage starves only the sole live process, which has just yielded. */
  lemma StarvesOnlyYielder(s: Sys, e: Event)
    requires Settled(s) && Possible(s, e) && Tame(s, e)
    requires forall p :: 0 <= p < |s.at| ==> !Lost(s, p) && !Loses(s, e, p)
    ensures Starves(s, e) <==> e.Yield? && Live(s.at) == {s.act.value}
  {
    hide ListsOk, AslOk, ValuesOk, TreeOk, PriosOk, CountsOk, Subtree;
    var K := Killed(s, e);
    forall p | 0 <= p < |s.at| && s.at[p] != Free && !Stirring(s.at[p]) ensures s.act == Some(p) && s.at[p] == Running {
      assert !Lost(s, p);
    }
    if Starves(s, e) {
      var p :| 0 <= p < |s.at| && s.at[p] != Free && p !in K;
      assert s.act == Some(p) && !Loses(s, e, p);
      forall q | q in Live(s.at) ensures q == p { }
      assert Live(s.at) == {p};
    }
    if e.Yield? && Live(s.at) == {s.act.value} {
      assert s.act.value in Live(s.at);
      assert forall p :: 0 <= p < |s.at| && Stirring(s.at[p]) ==> p in Live(s.at);
    }
  }

  /** Then the deadlock panic is the only one, bad arguments apart. */
  lemma PanicOnlyWhen(s: Sys, x: Entry)
    requires Settled(s) && Possible(s, x.event) && Tame(s, x.event)
    requires forall p :: 0 <= p < |s.at| ==> !Lost(s, p) && !Loses(s, x.event, p)
    ensures After(s, x).mode == Panicked <==>
            || BadArgument(s, x.event)
            || (x.event.Yield? && Live(s.at) == {s.act.value})
  {
    PanicsExactly(s, x);
    StarvesOnlyYielder(s, x.event);
    hide *;
  }

  /** Idling means somebody is blocked, so a wait that returns goes on waiting or finds work. */
  lemma WaitNeverPanics(s: Sys, elapsed: nat)
    requires Settled(s) && s.mode == Idle
    ensures SchedulerNext(s, elapsed).mode == Panicked ==> exists p :: Lost(SchedulerNext(s, elapsed), p)
  {
    if s.high == [] && s.low == [] {
      NothingReady(s, elapsed);
      if SchedulerNext(s, elapsed).mode == Panicked {
        var p :| p in Live(s.at);
        assert Lost(SchedulerNext(s, elapsed), p);
      }
    } else {
      SomethingReady(s, elapsed);
    }
  }

  // ---------------------------------------------------------------- the pseudo-clock

  /** The members of `q` with priority `x`, in order. */
  ghost function OfPrio(q: seq<nat>, prio: seq<int>, x: int): seq<nat>
    requires InTable(q, |prio|)
  {
    if q == [] then []
    else (if prio[q[0]] == x then [q[0]] else []) + OfPrio(q[1..], prio, x)
  }

  lemma OfPrioSplit(p: nat, q: seq<nat>, prio: seq<int>, x: int)
    requires p < |prio| && InTable(q, |prio|)
    ensures OfPrio([p] + q, prio, x) == (if prio[p] == x then [p] else []) + OfPrio(q, prio, x)
  {
    assert ([p] + q)[1..] == q;
  }

  lemma WakeFacts(s: Sys, k: Key)
    requires Inv(s) && k in s.asl
    ensures var r, q := Wake(s, k), s.asl[k];
            && Queue(r, k) == q[1..] && (forall j :: j != k ==> Queue(r, j) == Queue(s, j))
            && r.low == s.low + (if s.prio[q[0]] == PRIO_LOW then [q[0]] else [])
            && r.high == s.high + (if s.prio[q[0]] == PRIO_HIGH then [q[0]] else [])
            && r.sb == s.sb - 1 && r.prio == s.prio && r.sem == s.sem
            && r.v0 == s.v0 && r.yielded == s.yielded
  {
    hide ListsOk, AslOk, ValuesOk, TreeOk, PriosOk, CountsOk, ActOk;
    UnqueueCore(s, k);
    PrioBinary(s, s.asl[k][0]);
    var q := s.asl[k];
    var s1 := Unqueue(s, k).(sb := s.sb);
    assert Queue(s1, k) == q[1..];
    assert Wake(s, k) == Enqueue(s1, q[0]).(sb := s.sb - 1);
  }

  /** What the loop adds up to, for one more waiter at the front of the queue. */
  ghost predicate WokenFrom(s: Sys, r: Sys)
    requires Shape(s)
  {
    var q := Queue(s, Clock);
    && |s.prio| == |s.at|
    && Queue(r, Clock) == [] && (forall j :: j != Clock ==> Queue(r, j) == Queue(s, j))
    && r.low == s.low + OfPrio(q, s.prio, PRIO_LOW)
    && r.high == s.high + OfPrio(q, s.prio, PRIO_HIGH)
    && r.sb == s.sb - |q|
    && SemVal(r, Clock) == 1
    && (forall j :: j != Clock ==> SemVal(r, j) == SemVal(s, j))
  }

  lemma WokenOneMore(s: Sys, r: Sys)
    requires Inv(s) && Clock in s.asl && SemVal(s, Clock) == 0
    requires WokenFrom(Wake(s, Clock), r)
    ensures WokenFrom(s, r)
  {
    hide ListsOk, AslOk, ValuesOk, TreeOk, PriosOk, CountsOk, ActOk, Wake, OfPrio;
    var q := s.asl[Clock];
    WakeFacts(s, Clock);
    assert q == [q[0]] + q[1..];
    OfPrioSplit(q[0], q[1..], s.prio, PRIO_LOW);
    OfPrioSplit(q[0], q[1..], s.prio, PRIO_HIGH);
  }

  lemma {:induction false} ClockLoopWakes(s: Sys)
    requires Inv(s) && (s.act.Some? ==> s.at[s.act.value] == Running) && s.yielded == None
    requires SemVal(s, Clock) == 0
    ensures WokenFrom(s, ClockLoop(s))
    decreases |Queue(s, Clock)|
  {
    hide ListsOk, AslOk, ValuesOk, TreeOk, PriosOk, CountsOk, ActOk;
    if Clock in s.asl {
      VInv(s, Clock);
      WakeFacts(s, Clock);
      hide WokenFrom, Wake;
      ClockLoopWakes(Wake(s, Clock));
      WokenOneMore(s, ClockLoop(Wake(s, Clock)));
      assert ClockLoop(s) == ClockLoop(V(s, Clock).0);
    } else {
      assert ClockLoop(V(s, Clock).0) == V(s, Clock).0;
    }
  }

  /** A tick wakes exactly the processes waiting for it, oldest first, and re-arms the semaphore. */
  lemma TickWakesAll(s: Sys)
    requires Settled(s) && (s.mode == Active || s.mode == Idle)
    ensures var (r, v) := Handle(s, Tick); var q := Queue(s, Clock);
            && v == Continue
            && Queue(r, Clock) == [] && (forall j :: j != Clock ==> Queue(r, j) == Queue(s, j))
            && r.low == s.low + OfPrio(q, s.prio, PRIO_LOW)
            && r.high == s.high + OfPrio(q, s.prio, PRIO_HIGH)
            && r.sb == s.sb - |q|
            && (forall j :: SemVal(r, j) == SemVal(s, j))
  {
    hide ListsOk, AslOk, ValuesOk, TreeOk, PriosOk, CountsOk;
    ClockLoopWakes(s);
  }

  // ---------------------------------------------------------------- devices

  /** Whom a completion gives its status to: the oldest requester; failing one, whoever happens to be running. */
  ghost function Answered(s: Sys, k: Key): Option<nat> {
    if SemVal(s, k) == 1 then None
    else if Queue(s, k) != [] then Some(Queue(s, k)[0])
    else s.act
  }

  lemma CompletionIs(s: Sys, line: nat, dev: nat, status: int)
    requires Settled(s) && (s.mode == Active || s.mode == Idle)
    ensures Handle(s, Device(line, dev, status)).0 == Complete(s, Dev(line, dev), status)
  {
    hide Settled, Inv, Complete, HandleSyscall;
  }

  /** A completion somebody waits for. */
  lemma CompletionWakes(s: Sys, k: Key, status: int)
    requires Inv(s) && k in s.asl && SemVal(s, k) == 0
    ensures var r := Complete(s, k, status); var q := s.asl[k];
            && q[0] < |s.v0| && r.v0 == s.v0[q[0] := status] && Queue(r, k) == q[1..]
            && (r.at[q[0]] == Low || r.at[q[0]] == High) && SemVal(r, k) == 0
            && (forall j :: j != k ==> Queue(r, j) == Queue(s, j))
  {
    hide ListsOk, ValuesOk, TreeOk, PriosOk, CountsOk, ActOk, Wake, AslOk;
    WakeFacts(s, k);
    OldestWaits(s, k);
    WakePlaces(s, k, s.asl[k][0]);
    hide Queue;
  }

  /** A completion nobody waits for. */
  lemma CompletionSets(s: Sys, k: Key, status: int)
    requires Inv(s) && BinaryValue(s, k) && k !in s.asl && !(SemVal(s, k) == 1 && s.act.Some?)
    ensures var r := Complete(s, k, status);
            && (Answered(s, k).Some? ==> Answered(s, k).value < |s.v0|)
            && r.v0 == (if Answered(s, k) == None then s.v0 else s.v0[Answered(s, k).value := status])
            && r.at == s.at && r.asl == s.asl && SemVal(r, k) == 1
  {
    hide ListsOk, AslOk, ValuesOk, TreeOk, PriosOk, CountsOk, ActOk, Wake;
  }

  /** What a completion does to registers, queues and the semaphore, whoever waits. */
  lemma CompletionAnswers(s: Sys, line: nat, dev: nat, status: int)
    requires Settled(s) && Possible(s, Device(line, dev, status)) && Tame(s, Device(line, dev, status))
    ensures var r := Handle(s, Device(line, dev, status)).0; var k := Dev(line, dev); var q := Queue(s, k);
            && (Answered(s, k).Some? ==> Answered(s, k).value < |s.v0|)
            && r.v0 == (if Answered(s, k) == None then s.v0 else s.v0[Answered(s, k).value := status])
            && (SemVal(s, k) == 1 || q == [] ==> r.at == s.at && r.asl == s.asl && SemVal(r, k) == 1)
            && (SemVal(s, k) == 0 && q != [] ==>
                  Queue(r, k) == q[1..] && (r.at[q[0]] == Low || r.at[q[0]] == High) && SemVal(r, k) == 0)
            && (forall j :: j != k ==> Queue(r, j) == Queue(s, j))
  {
    var k := Dev(line, dev);
    hide ListsOk, ValuesOk, TreeOk, PriosOk, CountsOk, ActOk, AslOk, Handle, Complete;
    CompletionIs(s, line, dev, status);
    DeviceBinary(s, k);
    QueuesFull(s, k);
    if SemVal(s, k) == 1 && s.act == None {
      IdleCompletion(s, k, status);
    } else if k in s.asl {
      CompletionWakes(s, k, status);
    } else {
      CompletionSets(s, k, status);
    }
  }

  /** With nobody running a completion at 1 changes nothing. */
  lemma IdleCompletion(s: Sys, k: Key, status: int)
    requires Shape(s) && SemVal(s, k) == 1 && s.act == None
    ensures Complete(s, k, status) == s && Answered(s, k) == None
  {
  }

  lemma QueuesFull(s: Sys, k: Key)
    requires Shape(s)
    ensures Queue(s, k) == [] <==> k !in s.asl
  {
  }

  lemma DeviceBinary(s: Sys, k: Key)
    requires Inv(s) && !k.User?
    ensures BinaryValue(s, k)
  {
  }

  /** Only processes waiting for the device can have their v0 changed by the status. */
  ghost predicate OnlyRequesters(s: Sys, line: nat, dev: nat, status: int)
    requires Settled(s) && (s.mode == Active || s.mode == Idle)
  {
    var r := Handle(s, Device(line, dev, status)).0;
    |r.v0| == |s.at| == |s.v0| &&
    forall p :: 0 <= p < |s.at| && r.v0[p] != s.v0[p] ==> s.at[p] == Blocked(Dev(line, dev))
  }

  /** Whatever its status, a completion touches nobody but a requester: exactly if there is one, or nobody runs. */
  lemma CompletionExactly(s: Sys, line: nat, dev: nat)
    requires Settled(s) && (s.mode == Active || s.mode == Idle) && Tame(s, Device(line, dev, 0))
    ensures (forall status: int :: OnlyRequesters(s, line, dev, status)) <==> (Dev(line, dev) in s.asl || s.act == None)
  {
    if Dev(line, dev) in s.asl || s.act == None {
      forall status: int ensures OnlyRequesters(s, line, dev, status) {
        CompletionAsked(s, line, dev, status);
      }
    } else {
      CompletionStrays(s, line, dev);
    }
    hide *;
  }

  lemma CompletionAsked(s: Sys, line: nat, dev: nat, status: int)
    requires Settled(s) && Possible(s, Device(line, dev, status)) && Tame(s, Device(line, dev, status))
    requires Dev(line, dev) in s.asl || s.act == None
    ensures OnlyRequesters(s, line, dev, status)
  {
    hide ListsOk, AslOk, ValuesOk, TreeOk, PriosOk, CountsOk, ActOk, Handle;
    OldestWaits(s, Dev(line, dev));
    CompletionAnswers(s, line, dev, status);
  }

  /** Nobody having asked, any status but the one it already holds changes the running process's v0. */
  lemma CompletionStrays(s: Sys, line: nat, dev: nat)
    requires Settled(s) && s.mode == Active && Tame(s, Device(line, dev, 0)) && Dev(line, dev) !in s.asl
    ensures s.act.value < |s.v0| && !OnlyRequesters(s, line, dev, s.v0[s.act.value] + 1)
  {
    hide ListsOk, AslOk, ValuesOk, TreeOk, PriosOk, CountsOk, ActOk, Handle;
    DeviceBinary(s, Dev(line, dev));
    OldestWaits(s, Dev(line, dev));
    CompletionAnswers(s, line, dev, s.v0[s.act.value] + 1);
  }

  lemma OldestWaits(s: Sys, k: Key)
    requires Inv(s)
    ensures k in s.asl ==> s.asl[k][0] < |s.at| && s.at[s.asl[k][0]] == Blocked(k)
    ensures s.act.Some? ==> s.act.value < |s.at|
  {
    if k in s.asl {
      assert Holds(s.asl[k], s.at, Blocked(k)) && s.asl[k][0] in s.asl[k];
    }
  }

  /**
   * Why Tame is needed: an interrupt nobody waits for leaves the semaphore at 1, and the next
   * one queues the running process, which is then resumed although it is still in the queue.
   */
  lemma DoubleCompletionBreaks(s: Sys, x: Entry)
    requires Settled(s) && Possible(s, x.event) && x.event.Device?
    requires SemVal(s, Dev(x.event.dline, x.event.ddev)) == 1 && s.act.Some?
    ensures var r := Step(s, x.event, x.serving, x.loading);
            var a := s.act.value; var k := Dev(x.event.dline, x.event.ddev);
            r.mode == Active && r.act == Some(a) && r.at[a] == Running && a in Queue(r, k) && !Inv(r)
  {
    var a := s.act.value; var k := Dev(x.event.dline, x.event.ddev);
    var r := Step(s, x.event, x.serving, x.loading);
    assert r.asl == s.asl[k := Queue(s, k) + [a]];
    assert a in r.asl[k];
    assert !Holds(r.asl[k], r.at, Blocked(k));
  }

  /** And NSYS2 on a free block counts one process too few before it is lost in the free list. */
  lemma FreeTargetBreaks(s: Sys, x: Entry)
    requires Settled(s) && Possible(s, x.event) && Hangs(s, x.event)
    ensures var r := Step(s, x.event, x.serving, x.loading);
            r.mode == Hung && r.at == s.at && r.procs == |Live(r.at)| - 1 && !Inv(r)
  {
    hide ListsOk, AslOk, ValuesOk, TreeOk, PriosOk;
    HandleIs(s, x.event);
    VerdictIs(s, x.event);
    hide Handle;
  }

  /** Whatever the exception, the kernel's state stays sound exactly if it was tame. */
  lemma SettledExactly(s: Sys, x: Entry)
    requires Settled(s) && Possible(s, x.event)
    ensures Settled(Step(s, x.event, x.serving, x.loading)) <==> Tame(s, x.event)
  {
    if Tame(s, x.event) {
      StepSettles(s, x.event, x.serving, x.loading);
    } else if Hangs(s, x.event) {
      FreeTargetBreaks(s, x);
    } else {
      DoubleCompletionBreaks(s, x);
    }
    hide *;
    SettledInv(Step(s, x.event, x.serving, x.loading));
  }

  lemma SettledInv(s: Sys)
    ensures Settled(s) ==> Inv(s)
  {
  }
}
