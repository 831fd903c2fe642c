/** A ready process of low priority waits a bounded number of turns. */
module Waiting {
  import opened Prelude
  import opened NucleusState
  import opened NucleusInvariant
  import opened KillTree
  import opened NucleusStep
  import opened NucleusRuns
  import opened NucleusTheorems

  /** Taking others out of a queue brings nobody further from its head. */
  lemma {:induction false} WithoutIndex(q: seq<nat>, K: set<nat>, i: nat) returns (j: nat)
    requires i < |q| && q[i] !in K
    ensures j <= i && j < |Without(q, K)| && Without(q, K)[j] == q[i]
  {
    if i == 0 {
      j := 0;
    } else {
      j := WithoutIndex(q[1..], K, i - 1);
      if q[0] !in K {
        j := j + 1;
      }
    }
  }

  lemma {:induction false} ClockLoopLow(s: Sys)
    requires Inv(s) && (s.act.Some? ==> s.at[s.act.value] == Running) && s.yielded == None
    requires SemVal(s, Clock) == 0
    ensures s.low <= ClockLoop(s).low
  {
    ClockLoopWakes(s);
  }

  lemma KeepsOrder(q: seq<nat>, r: seq<nat>)
    requires q <= r
    ensures Without(q, {}) <= r
  {
    WithoutAbsent(q, {});
  }

  /** A handler only takes terminated processes out of the low queue and appends to it. */
  lemma PVLow(s: Sys, k: Key)
    requires Shape(s)
    ensures s.low <= V(s, k).0.low && (s.act.Some? ==> s.low <= P(s, k).0.low)
  {
  }

  lemma CreateLow(s: Sys, prio: int, support: int, reg: int)
    requires Shape(s) && s.act.Some?
    ensures s.low <= MkProc(s, prio, support, reg).0.low
  {
  }

  lemma KillLow(s: Sys, p: nat)
    requires Core(s) && p < |s.at| && s.at[p] != Free
    ensures Without(s.low, Subtree(s, p)) == KillProcess(s, p).low
  {
    KillsExactlySubtree(s, p);
  }

  lemma TickLow(s: Sys)
    requires Settled(s) && (s.mode == Active || s.mode == Idle)
    ensures s.low <= ClockTick(s).low
  {
    ClockLoopLow(s);
  }

  lemma HandleLow(s: Sys, e: Event)
    requires Settled(s) && Possible(s, e) && Tame(s, e)
    ensures Without(s.low, Killed(s, e)) <= Handle(s, e).0.low
  {
    hide ListsOk, AslOk, ValuesOk, TreeOk, PriosOk, CountsOk, Subtree, Handle, P, V, ClockTick, MkProc, KillProcess;
    HandleIs(s, e);
    if Kills(s, e) {
      KillLow(s, Victim(s, e));
    } else {
      if DoesP(s, e) || DoesV(s, e) { PVLow(s, KeyOf(e)); }
      if e.CreateProcess? { CreateLow(s, e.prio, e.support, e.reg); }
      if e.Tick? { TickLow(s); }
      KeepsOrder(s.low, Handle(s, e).0.low);
    }
  }

  /** scheduler_next serves the low queue: somebody is there and no high-priority process is ready. */
  ghost predicate LowTurn(s: Sys, x: Entry)
    requires Settled(s) && Possible(s, x.event)
  {
    Dispatches(s, x) && Dispatched(s, x).high == [] && Dispatched(s, x).low != []
  }

  lemma ReleasedLow(s: Sys, v: Verdict, serving: nat)
    requires Shape(s)
    ensures s.low <= Released(s, v, serving).low
  {
  }

  lemma DispatchedLow(s: Sys, x: Entry)
    requires Settled(s) && Possible(s, x.event) && Tame(s, x.event)
    ensures Without(s.low, Killed(s, x.event)) <= Dispatched(s, x).low
    ensures Without(s.low, Killed(s, x.event)) <= Handle(s, x.event).0.low
  {
    HandleLow(s, x.event);
    ReleasedLow(Handle(s, x.event).0, Handle(s, x.event).1, x.serving);
    hide Settled, Possible, Tame, Killed, Handle, Released;
  }

  lemma LoadLow(s: Sys, p: nat, elapsed: nat)
    requires Shape(s) && p < |s.at|
    ensures s.low <= Load(s, p, elapsed).low
  {
  }

  lemma SchedulerLow(s: Sys, elapsed: nat)
    requires Shape(s)
    ensures var r := SchedulerNext(s, elapsed);
            if s.high == [] && s.low != []
            then s.low[1..] <= r.low && r.act == Some(s.low[0]) && r.mode == Active
            else s.low <= r.low
  {
    if s.high == [] && s.low != [] {
      var s1 := s.(low := s.low[1..], at := s.at[s.low[0] := Detached]);
      LoadLow(s1, s.low[0], elapsed);
    }
  }

  /** `p` runs in `r`, or stands there at a position of the low queue no further than `i`. */
  ghost predicate NoFurther(r: Sys, p: nat, i: int) {
    || (r.mode == Active && r.act == Some(p))
    || (exists j :: 0 <= j <= i && j < |r.low| && r.low[j] == p)
  }

  lemma DispatchTurn(s: Sys, elapsed: nat, i: nat)
    requires Shape(s) && i < |s.low|
    ensures NoFurther(SchedulerNext(s, elapsed), s.low[i], if s.high == [] then i - 1 else i)
  {
    SchedulerLow(s, elapsed);
    var r := SchedulerNext(s, elapsed);
    hide SchedulerNext, Shape;
    if s.high == [] {
      if i > 0 {
        assert s.low[1..][i - 1] == s.low[i] && r.low[i - 1] == s.low[i];
      }
    } else {
      assert r.low[i] == s.low[i];
    }
  }

  lemma DispatchingTurn(s: Sys, x: Entry, i: nat, j: nat)
    requires Settled(s) && Possible(s, x.event) && Tame(s, x.event) && Dispatches(s, x)
    requires i < |s.low| && j <= i && j < |Dispatched(s, x).low| && Dispatched(s, x).low[j] == s.low[i]
    ensures NoFurther(After(s, x), s.low[i], if LowTurn(s, x) then i - 1 else i)
  {
    hide Settled, Possible, Tame, Shape, Handle, SchedulerNext, NoFurther, Dispatched, After;
    AfterIs(s, x);
    DispatchTurn(Dispatched(s, x), x.loading, j);
    Nearer(After(s, x), s.low[i], if Dispatched(s, x).high == [] then j - 1 else j,
           if LowTurn(s, x) then i - 1 else i);
  }

  lemma ResumingTurn(s: Sys, x: Entry, i: nat, j: nat)
    requires Settled(s) && Possible(s, x.event) && Tame(s, x.event) && !Dispatches(s, x)
    requires i < |s.low| && j <= i
    requires j < |Handle(s, x.event).0.low| && Handle(s, x.event).0.low[j] == s.low[i]
    ensures NoFurther(After(s, x), s.low[i], i)
  {
    assert s.act.Some? ==> s.act.value < |s.at|;
    hide Settled, Possible, Tame, Shape, Handle, NoFurther, After;
    AfterIs(s, x);
    var (s1, v) := Handle(s, x.event);
    if v != Resumed {
      LoadLow(Charge(s1, x.serving), s.act.value, x.loading);
    }
    AtPosition(After(s, x), j);
    Nearer(After(s, x), s.low[i], j, i);
  }

  /** One passage: running, or at least as near the head; nearer when the low queue is served. */
  lemma TurnStep(s: Sys, x: Entry, i: nat)
    requires Settled(s) && Possible(s, x.event) && Tame(s, x.event)
    requires i < |s.low| && s.low[i] !in Killed(s, x.event)
    ensures NoFurther(After(s, x), s.low[i], if LowTurn(s, x) then i - 1 else i)
  {
    hide Settled, Possible, Tame, Killed, Shape, Handle, NoFurther, Dispatched, After;
    var j := WithoutIndex(s.low, Killed(s, x.event), i);
    DispatchedLow(s, x);
    if Dispatches(s, x) {
      DispatchingTurn(s, x, i, j);
    } else {
      ResumingTurn(s, x, i, j);
    }
  }

  lemma Nearer(r: Sys, p: nat, j: int, i: int)
    requires NoFurther(r, p, j) && j <= i
    ensures NoFurther(r, p, i)
  {
  }

  lemma AtPosition(r: Sys, j: nat)
    requires j < |r.low|
    ensures NoFurther(r, r.low[j], j)
  {
  }

  /** How often the low queue is served along a run. */
  ghost function LowTurns(s: Sys, run: seq<Entry>): nat
    requires Settled(s) && CanRun(s, run)
    decreases |run|
  {
    if run == [] then 0
    else (if LowTurn(s, run[0]) then 1 else 0) + LowTurns(After(s, run[0]), run[1..])
  }

  /** Somewhere along the run `p` is running, or is terminated. */
  ghost predicate Served(s: Sys, run: seq<Entry>, p: nat)
    requires Settled(s) && CanRun(s, run)
    decreases |run|
  {
    || (s.mode == Active && s.act == Some(p))
    || (run != [] && (p in Killed(s, run[0].event) || Served(After(s, run[0]), run[1..], p)))
  }

  /**
   * Bounded waiting: a process at position `i` of the low queue runs, or is terminated, before
   * the low queue has been served more than `i` times, whatever wakes, yields or is created.
   */
  lemma {:induction false} BoundedWait(s: Sys, run: seq<Entry>, i: nat)
    requires Settled(s) && CanRun(s, run) && i < |s.low|
    requires LowTurns(s, run) > i
    ensures Served(s, run, s.low[i])
    decreases |run|
  {
    hide Settled, Possible, Tame, Killed, Shape;
    var x := run[0];
    if s.low[i] !in Killed(s, x.event) {
      TurnStep(s, x, i);
      var r := After(s, x);
      if !(r.mode == Active && r.act == Some(s.low[i])) {
        var j :| 0 <= j <= (if LowTurn(s, x) then i - 1 else i) && j < |r.low| && r.low[j] == s.low[i];
        BoundedWait(r, run[1..], j);
      }
    }
  }
}
