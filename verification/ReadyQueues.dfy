/**
 * The two ready queues, passage by passage: who leaves them, who joins them and in what order, and who runs next; and
 * that the high queue is served first come, first served.
 */
module ReadyQueues {
  import opened Prelude
  import opened NucleusState
  import opened NucleusInvariant
  import opened KillTree
  import opened NucleusStep
  import opened NucleusRuns
  import opened NucleusTheorems
  import opened Semaphores
  import Turns = Waiting
  import opened Passages

  /** The members of `q` with priority `level`, in order. */
  ghost function OfLevel(q: seq<nat>, prio: seq<int>, level: int): (r: seq<nat>)
    ensures forall p :: p in r ==> p in q
  {
    if q == [] then []
    else (if q[0] < |prio| && prio[q[0]] == level then [q[0]] else []) + OfLevel(q[1..], prio, level)
  }

  lemma {:induction false} LevelIsPrio(q: seq<nat>, prio: seq<int>, level: int)
    requires InTable(q, |prio|)
    ensures OfLevel(q, prio, level) == OfPrio(q, prio, level)
  {
    if q != [] {
      LevelIsPrio(q[1..], prio, level);
    }
  }

  lemma LevelOne(p: nat, prio: seq<int>, level: int)
    ensures OfLevel([p], prio, level) == if p < |prio| && prio[p] == level then [p] else []
    ensures OfLevel([], prio, level) == []
  {
    assert [p][1..] == [];
  }

  lemma {:induction false} LevelAppend(a: seq<nat>, b: seq<nat>, prio: seq<int>, level: int)
    ensures OfLevel(a + b, prio, level) == OfLevel(a, prio, level) + OfLevel(b, prio, level)
  {
    if a == [] {
      assert a + b == b;
    } else {
      assert (a + b)[0] == a[0] && (a + b)[1..] == a[1..] + b;
      LevelAppend(a[1..], b, prio, level);
    }
  }

  function First(q: seq<nat>): seq<nat> {
    if q == [] then [] else [q[0]]
  }

  // ---------------------------------------------------------------- what the exception says

  /** Who is woken or created, oldest first. */
  ghost function Awakened(s: Sys, e: Event): seq<nat> {
    match e
    case CreateProcess(_, _, _) => First(s.free)
    case Tick => Queue(s, Clock)
    case Passeren(addr) => if SemVal(s, User(addr)) == 1 then First(Queue(s, User(addr))) else []
    case Verhogen(addr) => if SemVal(s, User(addr)) == 0 then First(Queue(s, User(addr))) else []
    case DoIO(line, dev) => if SemVal(s, Dev(line, dev)) == 1 then First(Queue(s, Dev(line, dev))) else []
    case Device(line, dev, _) => if SemVal(s, Dev(line, dev)) == 0 then First(Queue(s, Dev(line, dev))) else []
    case _ => []
  }

  // ---------------------------------------------------------------- the handler

  /** What `q` becomes when those of `K` leave it and those of `j` with priority `level` join. */
  ghost function Joined(q: seq<nat>, K: set<nat>, j: seq<nat>, prio: seq<int>, level: int): seq<nat> {
    Without(q, K) + OfLevel(j, prio, level)
  }

  ghost predicate Joins(s: Sys, K: set<nat>, j: seq<nat>, r: Sys) {
    r.high == Joined(s.high, K, j, r.prio, 1) && r.low == Joined(s.low, K, j, r.prio, 0)
  }

  lemma NobodyLeaves(s: Sys, j: seq<nat>, r: Sys)
    requires r.high == s.high + OfLevel(j, r.prio, 1) && r.low == s.low + OfLevel(j, r.prio, 0)
    ensures Joins(s, {}, j, r)
  {
    WithoutAbsent(s.high, {});
    WithoutAbsent(s.low, {});
  }

  lemma WakeJoins(s: Sys, k: Key)
    requires Inv(s) && k in s.asl
    ensures Joins(s, {}, First(Queue(s, k)), Wake(s, k))
  {
    WakeFacts(s, k);
    var p := s.asl[k][0];
    LevelOne(p, s.prio, 1);
    LevelOne(p, s.prio, 0);
    hide Wake, Inv, OfLevel;
    NobodyLeaves(s, [p], Wake(s, k));
  }

  lemma StayJoins(s: Sys, r: Sys)
    requires r.high == s.high && r.low == s.low
    ensures Joins(s, {}, [], r)
  {
    LevelOne(0, r.prio, 1);
    LevelOne(0, r.prio, 0);
    hide OfLevel, Joins;
    NobodyLeaves(s, [], r);
  }

  lemma PVJoins(s: Sys, k: Key)
    requires Inv(s) && BinaryValue(s, k)
    ensures Joins(s, {}, if SemVal(s, k) == 0 then First(Queue(s, k)) else [], V(s, k).0)
    ensures s.act.Some? ==> Joins(s, {}, if SemVal(s, k) == 1 then First(Queue(s, k)) else [], P(s, k).0)
  {
    hide ListsOk, AslOk, ValuesOk, TreeOk, PriosOk, CountsOk, ActOk, Wake, Joins;
    if k in s.asl { WakeJoins(s, k); }
    if k !in s.asl || SemVal(s, k) == 1 { StayJoins(s, V(s, k).0); }
    if s.act.Some? && (k !in s.asl || SemVal(s, k) == 0) { StayJoins(s, P(s, k).0); }
  }

  lemma MadeReady(s: Sys, prio: int, support: int, reg: int)
    requires Shape(s) && s.act.Some?
    ensures var r := MkProc(s, prio, support, reg).0;
            if s.free == [] then r == s
            else
              && s.free[0] < |s.at| && r.prio == s.prio[s.free[0] := prio]
              && r.high == s.high + (if prio == 1 then [s.free[0]] else [])
              && r.low == s.low + (if prio == 0 then [s.free[0]] else [])
  {
  }

  lemma CreateJoins(s: Sys, e: Event)
    requires Settled(s) && Possible(s, e) && e.CreateProcess?
    ensures Joins(s, {}, First(s.free), Handle(s, e).0)
  {
    hide ListsOk, AslOk, ValuesOk, TreeOk, PriosOk, CountsOk, Handle, MkProc;
    HandleIs(s, e);
    MadeReady(s, e.prio, e.support, e.reg);
    var r := Handle(s, e).0;
    hide Settled, Possible;
    if s.free == [] {
      StayJoins(s, r);
    } else {
      LevelOne(s.free[0], r.prio, 1);
      LevelOne(s.free[0], r.prio, 0);
      hide OfLevel, Joins;
      NobodyLeaves(s, First(s.free), r);
    }
  }

  lemma TickJoins(s: Sys)
    requires Settled(s) && (s.mode == Active || s.mode == Idle)
    ensures Joins(s, {}, Queue(s, Clock), ClockTick(s))
  {
    ClockLoopTable(s);
    ClockLoopWakes(s);
    QueueInTable(s, Clock);
    LevelIsPrio(Queue(s, Clock), s.prio, 1);
    LevelIsPrio(Queue(s, Clock), s.prio, 0);
    hide Inv, ClockLoop, OfLevel, OfPrio, Joins, Queue;
    NobodyLeaves(s, Queue(s, Clock), ClockTick(s));
  }

  lemma QueueInTable(s: Sys, k: Key)
    requires Shape(s)
    ensures InTable(Queue(s, k), |s.prio|)
  {
  }

  lemma JoinsNobody(s: Sys, K: set<nat>, r: Sys)
    requires r.high == Without(s.high, K) && r.low == Without(s.low, K)
    ensures Joins(s, K, [], r)
  {
    LevelOne(0, r.prio, 1);
    LevelOne(0, r.prio, 0);
    hide OfLevel, Without;
  }

  lemma KillJoins(s: Sys, p: nat)
    requires Core(s) && p < |s.at| && s.at[p] != Free
    ensures Joins(s, Subtree(s, p), [], KillProcess(s, p))
  {
    KillsExactlySubtree(s, p);
    hide *;
    JoinsNobody(s, Subtree(s, p), KillProcess(s, p));
  }

  /** The handler takes the terminated out of the ready queues and lets the awakened join them. */
  lemma HandleJoins(s: Sys, e: Event)
    requires Settled(s) && Possible(s, e) && Tame(s, e)
    ensures Joins(s, Killed(s, e), Awakened(s, e), Handle(s, e).0)
  {
    hide ListsOk, AslOk, ValuesOk, TreeOk, PriosOk, CountsOk, Handle, P, V, ClockTick, MkProc, KillProcess, Subtree;
    hide Joins;
    if e.CreateProcess? {
      CreateJoins(s, e);
    } else {
      HandleIs(s, e);
      if Kills(s, e) {
        KillJoins(s, Victim(s, e));
      } else if DoesP(s, e) || DoesV(s, e) {
        CallJoins(s, e);
      } else if e.Tick? {
        TickJoins(s);
      } else {
        StayJoins(s, Handle(s, e).0);
      }
    }
  }

  lemma CallJoins(s: Sys, e: Event)
    requires Settled(s) && Possible(s, e) && Tame(s, e) && (DoesP(s, e) || DoesV(s, e))
    ensures Joins(s, {}, Awakened(s, e), Handle(s, e).0)
  {
    hide ListsOk, AslOk, ValuesOk, TreeOk, PriosOk, CountsOk, Handle, P, V, ClockTick, MkProc, KillProcess, Subtree;
    HandleIs(s, e);
    KeyBinary(s, e);
    PVJoins(s, KeyOf(e));
    hide Joined, First;
  }

  // ---------------------------------------------------------------- dispatch

  function One(p: Option<nat>): seq<nat> {
    if p == None then [] else [p.value]
  }

  lemma EnqueueReady(s: Sys, p: nat)
    requires Shape(s) && p < |s.at|
    ensures var r := Enqueue(s, p);
            && r.high == s.high + OfLevel([p], s.prio, 1) && r.low == s.low + OfLevel([p], s.prio, 0)
            && r.prio == s.prio && r.yielded == s.yielded && r.procs == s.procs && r.sb == s.sb && r.mode == s.mode
  {
    LevelOne(p, s.prio, 1);
    LevelOne(p, s.prio, 0);
    hide OfLevel;
  }

  lemma NobodyJoins(q: seq<nat>, prio: seq<int>, level: int)
    ensures q + OfLevel([], prio, level) == q && OfLevel([], prio, level) + q == q
  {
  }

  lemma SentBackReady(s: Sys, serving: nat)
    requires Shape(s) && s.act.Some?
    ensures var (r, j) := (Released(s, Renqueue, serving), [s.act.value]);
            && r.high == s.high + OfLevel(j, s.prio, 1) && r.low == s.low + OfLevel(j, s.prio, 0)
            && r.prio == s.prio && r.yielded == s.yielded && r.procs == s.procs && r.sb == s.sb && r.mode == s.mode
  {
    EnqueueReady(Charge(s, serving), s.act.value);
    hide OfLevel, Enqueue;
  }

  lemma ReleasedReady(s: Sys, v: Verdict, serving: nat)
    requires Shape(s)
    ensures var (r, j) := (Released(s, v, serving), One(if v == Renqueue then s.act else None));
            && r.high == s.high + OfLevel(j, s.prio, 1) && r.low == s.low + OfLevel(j, s.prio, 0)
            && r.prio == s.prio && r.yielded == s.yielded && r.procs == s.procs && r.sb == s.sb && r.mode == s.mode
  {
    if v == Renqueue && s.act.Some? {
      SentBackReady(s, serving);
      hide Released, OfLevel;
    } else {
      NobodyJoins(s.high, s.prio, 1);
      NobodyJoins(s.low, s.prio, 0);
      hide OfLevel;
    }
  }

  lemma UnyieldReady(s: Sys)
    requires Shape(s)
    ensures var (r, j) := (Unyield(s), One(s.yielded));
            && r.high == s.high + OfLevel(j, s.prio, 1) && r.low == s.low + OfLevel(j, s.prio, 0)
            && r.prio == s.prio && r.procs == s.procs && r.sb == s.sb
  {
    LevelOne(0, s.prio, 1);
    LevelOne(0, s.prio, 0);
    if s.yielded.Some? { EnqueueReady(s, s.yielded.value); }
    hide OfLevel, Enqueue;
  }

  lemma LoadReady(s: Sys, p: nat, elapsed: nat)
    requires Shape(s) && p < |s.at|
    ensures var (r, j) := (Load(s, p, elapsed), One(s.yielded));
            && r.mode == Active && r.act == Some(p) && r.prio == s.prio
            && r.high == s.high + OfLevel(j, s.prio, 1) && r.low == s.low + OfLevel(j, s.prio, 0)
  {
    UnyieldReady(s);
    hide OfLevel, Unyield, One;
  }

  /** What scheduler_next makes of the two queues `high` and `low` and of whoever has just yielded. */
  ghost predicate Scheduled(high: seq<nat>, low: seq<nat>, yielder: Option<nat>, r: Sys) {
    var (h, l) := (OfLevel(One(yielder), r.prio, 1), OfLevel(One(yielder), r.prio, 0));
    if high != [] then
      r.mode == Active && r.act == Some(high[0]) && r.high == high[1..] + h && r.low == low + l
    else if low != [] then
      r.mode == Active && r.act == Some(low[0]) && r.high == h && r.low == low[1..] + l
    else if r.mode == Idle then
      r.act == None && r.high == h && r.low == l
    else
      (r.mode == Halted || r.mode == Panicked) && r.high == [] && r.low == []
  }

  lemma HighRuns(s: Sys, elapsed: nat)
    requires Shape(s) && s.high != []
    ensures Scheduled(s.high, s.low, s.yielded, SchedulerNext(s, elapsed))
  {
    LoadReady(PopHigh(s), s.high[0], elapsed);
    hide OfLevel, One, Load, Shape;
  }

  lemma LowRuns(s: Sys, elapsed: nat)
    requires Shape(s) && s.high == [] && s.low != []
    ensures Scheduled(s.high, s.low, s.yielded, SchedulerNext(s, elapsed))
  {
    LoadReady(PopLow(s), s.low[0], elapsed);
    hide OfLevel, One, Load, Shape;
    Alone(OfLevel(One(s.yielded), s.prio, 1));
  }

  lemma Alone(q: seq<nat>)
    ensures [] + q == q
  {
  }

  /** Idling, whoever yielded first goes back to its queue. */
  lemma IdleReady(s: Sys)
    requires Shape(s) && s.high == [] && s.low == []
    ensures var r := Unyield(s).(act := None, mode := Idle);
            Scheduled([], [], s.yielded, r) && r.procs == s.procs && r.sb == s.sb
  {
    UnyieldReady(s);
    Alone(OfLevel(One(s.yielded), s.prio, 1));
    Alone(OfLevel(One(s.yielded), s.prio, 0));
    hide OfLevel, One, Unyield, Shape;
  }

  lemma NobodyRuns(s: Sys, elapsed: nat)
    requires Shape(s) && s.high == [] && s.low == []
    ensures var r := SchedulerNext(s, elapsed);
            && Scheduled(s.high, s.low, s.yielded, r) && r.procs == s.procs && r.sb == s.sb
            && r.mode == if r.procs == 0 then Halted else if r.sb > 0 then Idle else Panicked
  {
    hide OfLevel, One, Unyield, Shape, Load, InTable;
    if s.procs != 0 && s.sb > 0 {
      IdleReady(s);
      hide Scheduled;
    }
  }

  lemma SchedulerReady(s: Sys, elapsed: nat)
    requires Shape(s)
    ensures var r := SchedulerNext(s, elapsed);
            && Scheduled(s.high, s.low, s.yielded, r)
            && (s.high == [] && s.low == [] ==>
                  r.mode == if r.procs == 0 then Halted else if r.sb > 0 then Idle else Panicked)
  {
    hide SchedulerNext, Scheduled, Shape;
    if s.high != [] {
      HighRuns(s, elapsed);
    } else if s.low != [] {
      LowRuns(s, elapsed);
    } else {
      NobodyRuns(s, elapsed);
    }
  }

  // ---------------------------------------------------------------- the passage

  /** Everybody who becomes ready: the awakened, then the caller if it is sent back. */
  ghost function Readied(s: Sys, e: Event): seq<nat>
    requires Settled(s) && Possible(s, e)
  {
    Awakened(s, e) + (if SentBack(s, e) then [s.act.value] else [])
  }

  /**
   * The ready queues and the running process after a passage. The terminated leave their queue; who becomes ready joins
   * the queue of its priority at the end, in order; if nobody goes on the head of the high queue runs, failing one
   * that of the low queue, and only then does a yielder join; with both empty the kernel halts if nobody lives, waits
   * if somebody is blocked, and else panics.
   */
  ghost predicate ReadyAndRunning(s: Sys, e: Event, r: Sys)
    requires Settled(s) && Possible(s, e)
  {
    var high := Joined(s.high, Killed(s, e), Readied(s, e), r.prio, 1);
    var low := Joined(s.low, Killed(s, e), Readied(s, e), r.prio, 0);
    if LeavesKernel(s, e) then
      r.high == s.high && r.low == s.low && r.act == s.act && r.mode == if BadArgument(s, e) then Panicked else s.mode
    else if GoesOn(s, e) then
      r.high == high && r.low == low && r.act == s.act && r.mode == Active
    else
      && Scheduled(high, low, if e.Yield? then s.act else None, r)
      && (high == [] && low == [] ==>
            && (r.mode == Halted <==> Live(r.at) == {}) && (r.mode == Idle <==> Waiting(r.at) != {})
            && (r.mode == Panicked <==> Live(r.at) != {} && Waiting(r.at) == {}))
  }

  lemma JoinMore(q: seq<nat>, K: set<nat>, a: seq<nat>, b: seq<nat>, prio: seq<int>, level: int)
    ensures Joined(q, K, a, prio, level) + OfLevel(b, prio, level) == Joined(q, K, a + b, prio, level)
  {
    LevelAppend(a, b, prio, level);
  }

  /** What the handler and the requeue leave for scheduler_next. */
  lemma DispatchedReady(s: Sys, x: Entry)
    requires Settled(s) && Possible(s, x.event) && Tame(s, x.event) && Redispatches(s, x.event)
    ensures Dispatches(s, x)
    ensures var (e, d) := (x.event, Dispatched(s, x));
            && d.high == Joined(s.high, Killed(s, e), Readied(s, e), d.prio, 1)
            && d.low == Joined(s.low, Killed(s, e), Readied(s, e), d.prio, 0)
            && d.yielded == if e.Yield? then s.act else None
  {
    var e := x.event;
    Verdicts(s, e);
    HandleJoins(s, e);
    HandleYields(s, e);
    assert s.act == Handle(s, e).0.act;
    hide Settled, Possible, Tame, Handle, Killed, Awakened, SentBack, GoesOn, LeavesKernel, Joined, OfLevel, Released;
    var (h, v) := Handle(s, e);
    if e.WaitReturns? {
      JoinMore(s.high, Killed(s, e), Awakened(s, e), [], h.prio, 1);
      JoinMore(s.low, Killed(s, e), Awakened(s, e), [], h.prio, 0);
    } else {
      ReleasedReady(h, v, x.serving);
      var back := if v == Renqueue then One(s.act) else [];
      JoinMore(s.high, Killed(s, e), Awakened(s, e), back, h.prio, 1);
      JoinMore(s.low, Killed(s, e), Awakened(s, e), back, h.prio, 0);
    }
  }

  lemma HandleYields(s: Sys, e: Event)
    requires Settled(s) && Possible(s, e) && Tame(s, e)
    ensures Handle(s, e).1 != Resumed ==> Handle(s, e).0.yielded == if e.Yield? then s.act else None
  {
    hide ListsOk, AslOk, ValuesOk, TreeOk, PriosOk, CountsOk, Handle, P, V, ClockTick, MkProc, KillProcess;
    HandleIs(s, e);
    if DoesP(s, e) || DoesV(s, e) { PVYields(s, KeyOf(e)); }
    if e.Tick? { TickYields(s); }
    if e.CreateProcess? { CreateYields(s, e.prio, e.support, e.reg); }
    if Kills(s, e) { KillYields(s, Victim(s, e)); }
  }

  lemma PVYields(s: Sys, k: Key)
    requires Shape(s)
    ensures V(s, k).0.yielded == s.yielded && (s.act.Some? ==> P(s, k).0.yielded == s.yielded)
  {
    if k in s.asl { WakeApart(s, k); }
    hide Wake, Shape;
  }

  lemma {:induction false} LoopYields(s: Sys)
    requires Shape(s)
    ensures ClockLoop(s).yielded == s.yielded
    decreases |Queue(s, Clock)| + (if SemVal(s, Clock) == 1 then 0 else 1)
  {
    if SemVal(s, Clock) != 1 {
      PVYields(s, Clock);
      LoopYields(V(s, Clock).0);
    }
  }

  lemma TickYields(s: Sys)
    requires Shape(s)
    ensures ClockTick(s).yielded == s.yielded
  {
    LoopYields(s);
    hide Shape, ClockLoop;
  }

  lemma CreateYields(s: Sys, prio: int, support: int, reg: int)
    requires Shape(s) && s.act.Some?
    ensures MkProc(s, prio, support, reg).0.yielded == s.yielded
  {
    hide Shape;
  }

  lemma KillYields(s: Sys, p: nat)
    requires Core(s) && p < |s.at| && s.at[p] != Free
    ensures KillProcess(s, p).yielded == s.yielded
  {
    hide Core;
  }

  /** A passage that ends in a dispatch. */
  lemma RedispatchReady(s: Sys, x: Entry)
    requires Settled(s) && Possible(s, x.event) && Tame(s, x.event) && Redispatches(s, x.event)
    ensures ReadyAndRunning(s, x.event, After(s, x))
  {
    AfterIs(s, x);
    DispatchedReady(s, x);
    var (d, r) := (Dispatched(s, x), After(s, x));
    SchedulerReady(d, x.loading);
    SchedulerTable(d, x.loading);
    CountsAre(r);
    hide *;
    RedispatchedIs(s, x.event, d.high, d.low, r);
  }

  lemma RedispatchedIs(s: Sys, e: Event, high: seq<nat>, low: seq<nat>, r: Sys)
    requires Settled(s) && Possible(s, e) && Redispatches(s, e)
    requires high == Joined(s.high, Killed(s, e), Readied(s, e), r.prio, 1)
    requires low == Joined(s.low, Killed(s, e), Readied(s, e), r.prio, 0)
    requires Scheduled(high, low, if e.Yield? then s.act else None, r)
    requires high == [] && low == [] ==> r.mode == if r.procs == 0 then Halted else if r.sb > 0 then Idle else Panicked
    requires (r.procs == 0 <==> Live(r.at) == {}) && (r.sb > 0 <==> Waiting(r.at) != {}) && (r.sb > 0 ==> r.procs != 0)
    ensures ReadyAndRunning(s, e, r)
  {
    hide Settled, Possible, Scheduled, Joined, Killed, Readied, LeavesKernel, GoesOn, Live, Waiting;
  }

  lemma CountsAre(s: Sys)
    requires Settled(s)
    ensures s.procs == |Live(s.at)| && s.sb == |Waiting(s.at)| && Waiting(s.at) <= Live(s.at)
    ensures s.procs == 0 <==> Live(s.at) == {}
    ensures s.sb > 0 <==> Waiting(s.at) != {}
    ensures s.sb > 0 ==> s.procs != 0
  {
    if s.sb > 0 { var p :| p in Waiting(s.at); assert p in Live(s.at); }
  }

  lemma ResumedReady(h: Sys, a: nat, serving: nat, loading: nat)
    requires Shape(h) && a < |h.at| && h.yielded == None
    ensures var r := Load(Charge(h, serving), a, loading);
            r.high == h.high && r.low == h.low && r.prio == h.prio && r.mode == Active && r.act == Some(a)
  {
    hide Enqueue;
  }

  /** A passage after which the interrupted process goes on. */
  lemma GoingOnReady(s: Sys, x: Entry)
    requires Settled(s) && Possible(s, x.event) && Tame(s, x.event) && GoesOn(s, x.event) && !LeavesKernel(s, x.event)
    ensures ReadyAndRunning(s, x.event, After(s, x))
  {
    var e := x.event;
    assert s.act.Some? && s.act.value < |s.at|;
    AfterIs(s, x);
    Verdicts(s, e);
    HandleJoins(s, e);
    HandleYields(s, e);
    NobodySentBack(s, e);
    ResumedReady(Handle(s, e).0, s.act.value, x.serving, x.loading);
    hide *;
    GoneOnIs(s, e, Handle(s, e).0, After(s, x));
  }

  lemma NobodySentBack(s: Sys, e: Event)
    requires Settled(s) && Possible(s, e) && GoesOn(s, e)
    ensures Readied(s, e) == Awakened(s, e) && !e.Yield?
    ensures s.act.Some?
  {
    hide Settled, Possible, Killed;
  }

  lemma GoneOnIs(s: Sys, e: Event, h: Sys, r: Sys)
    requires Settled(s) && Possible(s, e) && GoesOn(s, e) && !LeavesKernel(s, e)
    requires Joins(s, Killed(s, e), Readied(s, e), h)
    requires r.high == h.high && r.low == h.low && r.prio == h.prio && r.mode == Active && r.act == s.act
    ensures ReadyAndRunning(s, e, r)
  {
    hide Settled, Possible, Joined, Killed, Readied, LeavesKernel, GoesOn;
  }

  /** A passage that ends in a panic, or in the process's own handler. */
  lemma LeavingReady(s: Sys, x: Entry)
    requires Settled(s) && Possible(s, x.event) && Tame(s, x.event) && LeavesKernel(s, x.event)
    ensures ReadyAndRunning(s, x.event, After(s, x))
  {
    var e := x.event;
    AfterIs(s, x);
    Verdicts(s, e);
    BadResumes(s, e);
    LeftAlone(s, e);
    hide Settled, Possible, Tame, Handle, After, Killed, Joined, Readied;
  }

  lemma LeftAlone(s: Sys, e: Event)
    requires Settled(s) && Possible(s, e) && Tame(s, e) && LeavesKernel(s, e)
    ensures var h := Handle(s, e).0;
            && h.high == s.high && h.low == s.low && h.act == s.act
            && h.mode == if BadArgument(s, e) then Panicked else s.mode
  {
    hide ListsOk, AslOk, ValuesOk, TreeOk, PriosOk, CountsOk, P, V, ClockTick, MkProc, KillProcess;
  }

  /** Who is ready and who runs after any passage, and in what order they became ready. */
  lemma ReadyAfter(s: Sys, x: Entry)
    requires Settled(s) && Possible(s, x.event) && Tame(s, x.event)
    ensures ReadyAndRunning(s, x.event, After(s, x))
  {
    if LeavesKernel(s, x.event) {
      LeavingReady(s, x);
    } else if GoesOn(s, x.event) {
      GoingOnReady(s, x);
    } else {
      RedispatchReady(s, x);
    }
    hide *;
  }

  // ---------------------------------------------------------------- first come, first served

  /** `p` runs in `r`, or is in the high queue at position `i` or nearer its head. */
  ghost predicate InLine(r: Sys, p: nat, i: int) {
    || (r.mode == Active && r.act == Some(p))
    || (exists j :: 0 <= j <= i && j < |r.high| && r.high[j] == p)
  }

  lemma ScheduledLine(high: seq<nat>, low: seq<nat>, yielder: Option<nat>, r: Sys, j: nat)
    requires j < |high| && Scheduled(high, low, yielder, r)
    ensures InLine(r, high[j], j - 1) && r.mode == Active && r.act == Some(high[0])
  {
    hide OfLevel;
    if j > 0 {
      assert high[1..][j - 1] == high[j] && r.high[j - 1] == high[j];
    }
  }

  /** Where somebody who stays in a queue is afterwards. */
  lemma Position(q: seq<nat>, K: set<nat>, joins: seq<nat>, prio: seq<int>, level: int, i: nat) returns (j: nat)
    requires i < |q| && q[i] !in K
    ensures var r := Joined(q, K, joins, prio, level); j <= i && j < |r| && r[j] == q[i] && r[0] in q
  {
    j := Turns.WithoutIndex(q, K, i);
    var stay := Without(q, K);
    assert stay[0] in stay;
    var r := Joined(q, K, joins, prio, level);
    assert r[j] == stay[j] && r[0] == stay[0];
  }

  lemma LinePasses(s: Sys, e: Event, r: Sys, i: nat)
    requires Settled(s) && Possible(s, e) && ReadyAndRunning(s, e, r) && i < |s.high| && s.high[i] !in Killed(s, e)
    ensures InLine(r, s.high[i], if Redispatches(s, e) then i - 1 else i)
    ensures Redispatches(s, e) ==> r.mode == Active && r.act.Some? && r.act.value in s.high
  {
    hide Settled, Possible, Killed, Readied, Joined, LeavesKernel, GoesOn, Scheduled, InLine, Live, Waiting;
    var j: int := Position(s.high, Killed(s, e), Readied(s, e), r.prio, 1, i);
    if LeavesKernel(s, e) {
      InLineAt(r, i);
    } else if GoesOn(s, e) {
      InLineAt(r, j);
      StaysInLine(r, s.high[i], j, i);
    } else {
      ScheduledLine(Joined(s.high, Killed(s, e), Readied(s, e), r.prio, 1),
                    Joined(s.low, Killed(s, e), Readied(s, e), r.prio, 0), if e.Yield? then s.act else None, r, j);
      StaysInLine(r, s.high[i], j - 1, i - 1);
    }
  }

  /**
   * One passage: whoever is ready with high priority is terminated, runs, or is at least as near the head; nearer
   * whenever scheduler_next chooses, and it then chooses one from the high queue.
   */
  lemma HighTurn(s: Sys, x: Entry, i: nat)
    requires Settled(s) && Possible(s, x.event) && Tame(s, x.event)
    requires i < |s.high| && s.high[i] !in Killed(s, x.event)
    ensures InLine(After(s, x), s.high[i], if Redispatches(s, x.event) then i - 1 else i)
    ensures Redispatches(s, x.event) ==>
              After(s, x).mode == Active && After(s, x).act.Some? && After(s, x).act.value in s.high
  {
    ReadyAfter(s, x);
    hide *;
    LinePasses(s, x.event, After(s, x), i);
  }

  lemma StaysInLine(r: Sys, p: nat, j: int, i: int)
    requires InLine(r, p, j) && j <= i
    ensures InLine(r, p, i)
  {
  }

  lemma InLineAt(r: Sys, j: nat)
    requires j < |r.high|
    ensures InLine(r, r.high[j], j)
  {
  }

  /** How often scheduler_next chooses who runs along a run. */
  ghost function Choices(s: Sys, run: seq<Entry>): nat
    requires Settled(s) && CanRun(s, run)
    decreases |run|
  {
    if run == [] then 0
    else (if Redispatches(s, run[0].event) then 1 else 0) + Choices(After(s, run[0]), run[1..])
  }

  /**
   * A process at position `i` of the high queue runs, or is terminated, before scheduler_next has chosen more than
   * `i` times, whatever is woken, created, sent back or yields meanwhile.
   */
  lemma {:induction false} HighBoundedWait(s: Sys, run: seq<Entry>, i: nat)
    requires Settled(s) && CanRun(s, run) && i < |s.high|
    requires Choices(s, run) > i
    ensures Turns.Served(s, run, s.high[i])
    decreases |run|
  {
    hide Settled, Possible, Tame, Killed, Redispatches;
    var x := run[0];
    if s.high[i] !in Killed(s, x.event) {
      HighTurn(s, x, i);
      var r := After(s, x);
      if !(r.mode == Active && r.act == Some(s.high[i])) {
        var j :| 0 <= j <= (if Redispatches(s, x.event) then i - 1 else i) && j < |r.high| && r.high[j] == s.high[i];
        HighBoundedWait(r, run[1..], j);
      }
    }
  }
}
