/** Processor time is conserved: what is charged was spent, once, by the process charged. */
module CpuTime {
  import opened Prelude
  import opened NucleusState
  import opened NucleusInvariant
  import opened KillTree
  import opened NucleusStep
  import opened NucleusRuns
  import opened NucleusTheorems
  import opened Passages

  /** A process pays for the stretch of the clock from `start` to `end`. */
  datatype Charged = Charged(pid: nat, start: int, end: int)

  /** The stretch a passage charges: from the caller's load to the end of its handler. */
  ghost function Bill(s: Sys, x: Entry): seq<Charged>
    requires Settled(s) && Possible(s, x.event)
  {
    if s.act == None || LeavesKernel(s, x.event) then []
    else [Charged(s.act.value, s.upd[s.act.value], s.clock + x.serving)]
  }

  ghost function Bills(s: Sys, run: seq<Entry>): seq<Charged>
    requires Settled(s) && CanRun(s, run)
    decreases |run|
  {
    if run == [] then [] else Bill(s, run[0]) + Bills(After(s, run[0]), run[1..])
  }

  /** The running process was loaded when the clock stood where it stands. */
  ghost predicate Punctual(s: Sys)
    requires Shape(s)
  {
    s.mode == Active && s.act.Some? ==> s.upd[s.act.value] == s.clock
  }

  /** What the table says the live processes have used. */
  ghost function Used(at: seq<Place>, time: seq<int>): int
    requires |at| == |time|
  {
    if at == [] then 0
    else (if at[0] == Free then 0 else time[0]) + Used(at[1..], time[1..])
  }

  ghost predicate NonNegative(time: seq<int>) {
    forall p :: 0 <= p < |time| ==> 0 <= time[p]
  }

  ghost function Share(at: seq<Place>, time: seq<int>, p: nat): int
    requires p < |at| == |time|
  {
    if at[p] == Free then 0 else time[p]
  }

  /** If only process `a` uses more than before, and `d` more at most, so does the sum. */
  lemma {:induction false} UsedGrows(at: seq<Place>, time: seq<int>, at': seq<Place>, time': seq<int>, a: int, d: nat)
    requires |at| == |time| == |at'| == |time'|
    requires forall p :: 0 <= p < |at| ==> Share(at', time', p) <= Share(at, time, p) + (if p == a then d else 0)
    ensures Used(at', time') <= Used(at, time) + (if 0 <= a then d else 0)
  {
    if at != [] {
      forall p | 0 <= p < |at[1..]|
        ensures Share(at'[1..], time'[1..], p) <= Share(at[1..], time[1..], p) + (if p == a - 1 then d else 0)
      {
        assert Share(at', time', p + 1) <= Share(at, time, p + 1) + (if p + 1 == a then d else 0);
      }
      UsedGrows(at[1..], time[1..], at'[1..], time'[1..], a - 1, d);
      assert Share(at', time', 0) <= Share(at, time, 0) + (if 0 == a then d else 0);
    }
  }

  // ---------------------------------------------------------------- one passage

  /** The table entry a passage allocates, if it creates a process. */
  ghost predicate Creates(s: Sys, e: Event, p: nat) {
    e.CreateProcess? && s.free != [] && s.free[0] == p
  }

  ghost predicate SameTimes(s: Sys, r: Sys) {
    r.time == s.time && r.upd == s.upd && r.clock == s.clock
  }

  lemma {:induction false} ClockLoopTimes(s: Sys)
    requires Shape(s)
    ensures SameTimes(s, ClockLoop(s))
    decreases |Queue(s, Clock)| + (if SemVal(s, Clock) == 1 then 0 else 1)
  {
    if SemVal(s, Clock) != 1 {
      assert SameTimes(s, V(s, Clock).0);
      ClockLoopTimes(V(s, Clock).0);
    }
  }

  /** Handlers leave the accounts alone; a new process starts from nothing. */
  lemma PVTimes(s: Sys, k: Key)
    requires Shape(s)
    ensures SameTimes(s, V(s, k).0) && (s.act.Some? ==> SameTimes(s, P(s, k).0))
  {
  }

  lemma KillTimes(s: Sys, p: nat)
    requires Inv(s) && p < |s.at| && s.at[p] != Free && s.yielded == None
    ensures SameTimes(s, KillProcess(s, p))
    ensures forall q :: 0 <= q < |s.at| && s.at[q] == Free ==> KillProcess(s, p).at[q] == Free
  {
    KillInv(s, p);
  }

  lemma TickTimes(s: Sys)
    requires Settled(s) && (s.mode == Active || s.mode == Idle)
    ensures SameTimes(s, ClockTick(s)) && forall p :: 0 <= p < |s.at| && s.at[p] == Free ==> ClockTick(s).at[p] == Free
  {
    ClockLoopTimes(s);
    ClockLoopFree(s);
  }

  lemma HandleTimes(s: Sys, e: Event)
    requires Settled(s) && Possible(s, e) && Tame(s, e)
    ensures var r := Handle(s, e).0;
            && r.clock == s.clock
            && (forall p :: 0 <= p < |s.at| ==>
                  if Creates(s, e, p) then r.time[p] == 0
                  else r.time[p] == s.time[p] && r.upd[p] == s.upd[p])
            && (forall p :: 0 <= p < |s.at| && s.at[p] == Free && r.at[p] != Free ==> Creates(s, e, p))
  {
    hide ListsOk, AslOk, ValuesOk, TreeOk, PriosOk, CountsOk, Handle, P, V, ClockTick, MkProc, KillProcess;
    HandleIs(s, e);
    if e.CreateProcess? {
      CreateTimes(s, e);
    } else if Kills(s, e) {
      KillTimes(s, Victim(s, e));
    } else if e.Tick? {
      TickTimes(s);
    } else if DoesP(s, e) || DoesV(s, e) {
      PVTimes(s, KeyOf(e));
      PVFree(s, KeyOf(e));
    }
  }

  lemma CreateTimes(s: Sys, e: Event)
    requires Settled(s) && Possible(s, e) && e.CreateProcess?
    ensures var r := Handle(s, e).0;
            && r.clock == s.clock
            && (forall p :: 0 <= p < |s.at| ==>
                  if Creates(s, e, p) then r.time[p] == 0
                  else r.time[p] == s.time[p] && r.upd[p] == s.upd[p] && r.at[p] == s.at[p])
  {
    hide ListsOk, AslOk, ValuesOk, TreeOk, PriosOk, CountsOk;
  }

  /** P and V do not bring anybody to life. */
  lemma PVFree(s: Sys, k: Key)
    requires Inv(s) && (s.act.Some? ==> s.at[s.act.value] == Running)
    ensures forall p :: 0 <= p < |s.at| && s.at[p] == Free ==> V(s, k).0.at[p] == Free
    ensures s.act.Some? ==> forall p :: 0 <= p < |s.at| && s.at[p] == Free ==> P(s, k).0.at[p] == Free
  {
    hide ListsOk, AslOk, ValuesOk, TreeOk, PriosOk, CountsOk, Wake;
    if k in s.asl {
      forall p | 0 <= p < |s.at| && s.at[p] == Free ensures Wake(s, k).at[p] == Free {
        WakePlaces(s, k, p);
      }
    }
  }

  lemma {:induction false} ClockLoopFree(s: Sys)
    requires Inv(s) && (s.act.Some? ==> s.at[s.act.value] == Running) && s.yielded == None
    requires SemVal(s, Clock) == 0 || (SemVal(s, Clock) == 1 && Clock !in s.asl)
    ensures forall p :: 0 <= p < |s.at| && s.at[p] == Free ==> ClockLoop(s).at[p] == Free
    decreases |Queue(s, Clock)| + (if SemVal(s, Clock) == 1 then 0 else 1)
  {
    hide ListsOk, AslOk, ValuesOk, TreeOk, PriosOk, CountsOk;
    if SemVal(s, Clock) != 1 {
      VInv(s, Clock);
      PVFree(s, Clock);
      ClockLoopFree(V(s, Clock).0);
    }
  }

  ghost function BilledTo(b: seq<Charged>, p: nat): int {
    if b == [] then 0
    else (if b[0].pid == p then b[0].end - b[0].start else 0) + BilledTo(b[1..], p)
  }

  /** Dispatch loads whoever runs next now, and writes no other account. */
  lemma SchedulerTimes(s: Sys, elapsed: nat)
    requires Shape(s) && s.mode in {Active, Idle}
    ensures var r := SchedulerNext(s, elapsed);
            && r.time == s.time && r.clock == s.clock + (if r.mode == Active then elapsed else 0)
            && (r.mode == Active ==> r.act.Some? && r.act.value < |s.upd|)
            && r.upd == if r.mode == Active then s.upd[r.act.value := r.clock] else s.upd
  {
    assert s.high != [] ==> s.high[0] < |s.at|;
    assert s.low != [] ==> s.low[0] < |s.at|;
    assert |s.upd| == |s.at|;
    UnyieldTimes(s);
    hide Load, Shape, Unyield;
    if s.high != [] {
      LoadFields(PopHigh(s), s.high[0], elapsed);
    } else if s.low != [] {
      LoadFields(PopLow(s), s.low[0], elapsed);
    }
  }

  lemma UnyieldTimes(s: Sys)
    requires Shape(s)
    ensures var r := Unyield(s); r.time == s.time && r.clock == s.clock && r.upd == s.upd
  {
  }

  lemma ChargeClock(s: Sys, serving: nat)
    requires Shape(s)
    ensures Charge(s, serving).clock == s.clock + serving
  {
  }

  lemma ChargeTimes(s: Sys, v: Verdict, serving: nat, p: nat)
    requires Shape(s) && p < |s.at|
    ensures Released(s, v, serving).clock == s.clock + serving && Released(s, v, serving).mode == s.mode
    ensures Released(s, v, serving).time == Charge(s, serving).time
    ensures Charge(s, serving).time[p] ==
            s.time[p] + (if s.act == Some(p) then s.clock + serving - s.upd[p] else 0)
  {
  }

  /** The clock never goes back, and a bill is over before the passage is. */
  lemma AfterClock(s: Sys, x: Entry)
    requires Settled(s) && Possible(s, x.event) && Tame(s, x.event)
    ensures var r := After(s, x);
            && |r.time| == |r.at| == |s.at| == |s.time|
            && s.clock <= r.clock && (Bill(s, x) != [] ==> s.clock + x.serving <= r.clock)
  {
    assert Shape(s) && Shape(After(s, x));
    if s.act.Some? {
      FinishTimes(s, x, s.act.value);
      HandleTimes(s, x.event);
    } else {
      WaitIsNothing(s, x.event);
      HandleTimes(s, x.event);
      HandleHandled(s, x.event);
      hide Inv, Core, Handle, SchedulerNext, Charge, Tame, After;
      AfterIs(s, x);
      if Dispatches(s, x) {
        SchedulerTimes(Dispatched(s, x), x.loading);
        ChargeClock(Handle(s, x.event).0, x.serving);
      }
    }
  }

  lemma StartFacts(s: Sys, e: Event)
    requires Settled(s) && Possible(s, e)
    ensures Shape(s) && (s.act.Some? ==> s.act.value < |s.at|)
    ensures e.WaitReturns? ==> Handle(s, e).0 == s && s.act == None
  {
  }

  lemma FinishTimes(s: Sys, x: Entry, p: nat)
    requires Settled(s) && Possible(s, x.event) && Tame(s, x.event) && p < |s.at|
    ensures var r := After(s, x); var s1 := Handle(s, x.event).0;
            && |r.at| == |s.at|
            && r.time[p] == s1.time[p] +
                 (if Bill(s, x) != [] && s.act == Some(p) then s1.clock + x.serving - s1.upd[p] else 0)
            && s1.clock <= r.clock
            && (Bill(s, x) != [] ==> s1.clock + x.serving <= r.clock)
  {
    StartFacts(s, x.event);
    HandleHandled(s, x.event);
    Verdicts(s, x.event);
    hide Inv, Core, Handle, SchedulerNext, Released, Charge, Load, Tame, Shape, After, LeavesKernel, GoesOn, SentBack;
    AfterIs(s, x);
    var (s1, v) := Handle(s, x.event);
    ChargeTimes(s1, v, x.serving, p);
    if Dispatches(s, x) {
      SchedulerTimes(Dispatched(s, x), x.loading);
    } else if v != Resumed {
      LoadFields(Charge(s1, x.serving), s.act.value, x.loading);
      ChargeClock(s1, x.serving);
    }
  }

  /** What a passage does to the accounts is what its bill says. */
  lemma StepTimes(s: Sys, x: Entry, p: nat)
    requires Settled(s) && Possible(s, x.event) && Tame(s, x.event) && p < |s.at|
    ensures var r := After(s, x);
            && |r.at| == |s.at|
            && r.time[p] == (if Creates(s, x.event, p) then 0 else s.time[p] + BilledTo(Bill(s, x), p))
            && (Bill(s, x) != [] ==> s.clock + x.serving <= r.clock)
            && s.clock <= r.clock
  {
    HandleTimes(s, x.event);
    FinishTimes(s, x, p);
    AfterClock(s, x);
    CallerNotCreated(s, x.event);
    assert s.act.Some? ==> s.act.value < |s.at|;
    hide Settled, Handle, Tame, Possible, After;
  }

  lemma CallerNotCreated(s: Sys, e: Event)
    requires Settled(s) && Possible(s, e)
    ensures s.act.Some? ==> !Creates(s, e, s.act.value)
  {
    if e.CreateProcess? && s.free != [] {
      assert s.free[0] in s.free;
    }
  }

  /** Dispatch neither kills nor creates. */
  lemma AfterLive(s: Sys, x: Entry, p: nat)
    requires Settled(s) && Possible(s, x.event) && Tame(s, x.event) && p < |s.at|
    ensures |After(s, x).at| == |s.at|
    ensures After(s, x).at[p] == Free <==> Handle(s, x.event).0.at[p] == Free
  {
    AfterDeals(s, x, p);
    hide Settled, Possible, Tame, Handle, After;
  }

  lemma WaitIsNothing(s: Sys, e: Event)
    requires Settled(s) && Possible(s, e)
    ensures e.WaitReturns? ==> Handle(s, e).0 == s
  {
    hide Settled, Possible, HandleSyscall, ClockTick, Complete, PassUpOrDie;
  }

  /** The running process's account was opened when it was loaded, which is now. */
  lemma StaysPunctual(s: Sys, x: Entry)
    requires Settled(s) && Possible(s, x.event) && Tame(s, x.event) && Punctual(s)
    ensures Punctual(After(s, x))
  {
    HandleHandled(s, x.event);
    AfterIs(s, x);
    WaitIsNothing(s, x.event);
    var (s1, v) := Handle(s, x.event);
    hide *;
    if v == Resumed {
      ResumedAccounts(s, x.event);
      PunctualSame(s, s1, After(s, x));
    } else if Dispatches(s, x) {
      DispatchPunctual(s, x);
    } else {
      LoadPunctual(Charge(s1, x.serving), s.act.value, x.loading);
    }
  }

  lemma PunctualSame(s: Sys, s1: Sys, r: Sys)
    requires Shape(s) && Shape(r) && Punctual(s) && r == s1 && SameTimes(s, s1) && s1.act == s.act
    requires s1.mode == Active ==> s.mode == Active
    ensures Punctual(r)
  {
  }

  lemma LoadPunctual(s: Sys, p: nat, elapsed: nat)
    requires Shape(s) && p < |s.at|
    ensures Punctual(Load(s, p, elapsed))
  {
    LoadFields(s, p, elapsed);
    hide Load;
  }

  lemma DispatchPunctual(s: Sys, x: Entry)
    requires Settled(s) && Possible(s, x.event) && Tame(s, x.event) && Dispatches(s, x)
    requires Handled(Handle(s, x.event).0, Handle(s, x.event).1)
    ensures Punctual(SchedulerNext(Dispatched(s, x), x.loading))
  {
    var (s1, v) := Handle(s, x.event);
    ReleasedMode(s1, v, x.serving);
    assert Dispatched(s, x).mode == s1.mode;
    hide Inv, Handle, Dispatched, Released;
    SchedulerTimes(Dispatched(s, x), x.loading);
    hide SchedulerNext;
  }

  lemma ReleasedMode(s: Sys, v: Verdict, serving: nat)
    requires Shape(s)
    ensures Released(s, v, serving).mode == s.mode
  {
  }

  /** Passing an exception up, or panicking, leaves the accounts as they are. */
  lemma ResumedAccounts(s: Sys, e: Event)
    requires Settled(s) && Possible(s, e) && Tame(s, e) && Handle(s, e).1 == Resumed
    ensures SameTimes(s, Handle(s, e).0) && Handle(s, e).0.act == s.act
    ensures Handle(s, e).0.mode == Active ==> s.mode == Active
  {
    hide Inv, ListsOk, AslOk, ValuesOk, TreeOk, PriosOk, CountsOk;
  }

  /** The live processes' total grows at most by what was billed. */
  lemma UsedStep(s: Sys, x: Entry)
    requires Settled(s) && Possible(s, x.event) && Tame(s, x.event) && Punctual(s) && s.mode in {Active, Idle}
    requires NonNegative(s.time)
    ensures var r := After(s, x);
            NonNegative(r.time) && Used(r.at, r.time) <= Used(s.at, s.time) + (r.clock - s.clock)
  {
    var r := After(s, x);
    var a := if Bill(s, x) == [] then -1 else s.act.value;
    forall p | 0 <= p < |s.at|
      ensures 0 <= r.time[p]
      ensures Share(r.at, r.time, p) <= Share(s.at, s.time, p) + (if p == a then x.serving else 0)
    {
      UsedStepAt(s, x, p);
    }
    AfterClock(s, x);
    hide Inv, Handle, After, Tame, Possible;
    UsedGrows(s.at, s.time, r.at, r.time, a, x.serving);
  }

  lemma UsedStepAt(s: Sys, x: Entry, p: nat)
    requires Settled(s) && Possible(s, x.event) && Tame(s, x.event) && Punctual(s) && s.mode in {Active, Idle}
    requires NonNegative(s.time) && p < |s.at|
    ensures var r := After(s, x);
            && |r.at| == |s.at| && 0 <= r.time[p]
            && Share(r.at, r.time, p) <= Share(s.at, s.time, p) +
               (if Bill(s, x) != [] && s.act == Some(p) then x.serving else 0)
  {
    HandleTimes(s, x.event);
    AfterLive(s, x, p);
    StepTimes(s, x, p);
    hide Inv, Core, Handle, Tame, After;
  }

  // ---------------------------------------------------------------- whole runs

  /** Every bill's stretch begins after the one before it ended, inside the run. */
  ghost predicate Apart(b: seq<Charged>, from: int, to: int) {
    && (forall i :: 0 <= i < |b| ==> from <= b[i].start <= b[i].end <= to)
    && (forall i, j :: 0 <= i < j < |b| ==> b[i].end <= b[j].start)
  }

  lemma ApartJoin(b: seq<Charged>, c: seq<Charged>, from: int, mid: int, to: int)
    requires Apart(b, from, mid) && Apart(c, mid, to) && from <= mid <= to
    ensures Apart(b + c, from, to)
  {
  }

  lemma BillStep(s: Sys, x: Entry)
    requires Settled(s) && Possible(s, x.event) && Tame(s, x.event) && Punctual(s)
    ensures s.clock <= After(s, x).clock && Apart(Bill(s, x), s.clock, After(s, x).clock)
  {
    hide ListsOk, AslOk, ValuesOk, TreeOk, PriosOk, CountsOk, After, Handle, Tame;
    AfterClock(s, x);
  }

  /** No instant is charged twice. */
  lemma {:induction false} BillsApart(s: Sys, run: seq<Entry>)
    requires Settled(s) && CanRun(s, run) && Punctual(s)
    ensures Apart(Bills(s, run), s.clock, Run(s, run).clock) && s.clock <= Run(s, run).clock
    ensures Punctual(Run(s, run))
    decreases |run|
  {
    if run != [] {
      hide Inv, Handle, After, Tame, Possible, Settled, Punctual, Apart;
      var s1 := After(s, run[0]);
      StaysPunctual(s, run[0]);
      BillsApart(s1, run[1..]);
      BillStep(s, run[0]);
      ApartJoin(Bill(s, run[0]), Bills(s1, run[1..]), s.clock, s1.clock, Run(s, run).clock);
    }
  }

  /** The processes alive never account for more than the time that passed. */
  lemma {:induction false} UsedBounded(s: Sys, run: seq<Entry>)
    requires Settled(s) && CanRun(s, run) && Punctual(s) && NonNegative(s.time)
    ensures var r := Run(s, run);
            |r.at| == |r.time| && Used(r.at, r.time) <= Used(s.at, s.time) + (r.clock - s.clock)
    decreases |run|
  {
    if run != [] {
      UsedStep(s, run[0]);
      StaysPunctual(s, run[0]);
      UsedBounded(After(s, run[0]), run[1..]);
    }
  }

  /** At boot every account is empty and the first process was loaded just now. */
  lemma BootAccounts(n: nat, base: nat, size: nat, sem: map<Key, int>, loading: nat)
    requires n > 0
    ensures var s := Boot(n, base, size, sem, loading);
            && Settled(s) && Punctual(s) && NonNegative(s.time) && |s.at| == |s.time| && Used(s.at, s.time) == 0 &&
               0 <= s.clock
  {
    BootSettles(n, base, size, sem, loading);
    var s := Boot(n, base, size, sem, loading);
    SchedulerTimes(Booting(n, base, size, sem), loading);
    Unused(s.at, s.time);
  }

  lemma {:induction false} Unused(at: seq<Place>, time: seq<int>)
    requires |at| == |time| && forall p :: 0 <= p < |time| ==> time[p] == 0
    ensures Used(at, time) == 0
  {
    if at != [] {
      Unused(at[1..], time[1..]);
    }
  }

  /** From power-on, the sum of p_time over the live processes never exceeds the time that has passed. */
  lemma UsedFromBoot(n: nat, base: nat, size: nat, sem: map<Key, int>, loading: nat, run: seq<Entry>)
    requires n > 0
    ensures Settled(Boot(n, base, size, sem, loading))
    ensures CanRun(Boot(n, base, size, sem, loading), run) ==>
              var r := Run(Boot(n, base, size, sem, loading), run);
              |r.at| == |r.time| && Used(r.at, r.time) <= r.clock
  {
    BootAccounts(n, base, size, sem, loading);
    hide *;
    if CanRun(Boot(n, base, size, sem, loading), run) {
      UsedBounded(Boot(n, base, size, sem, loading), run);
    }
  }

  lemma {:induction false} BilledToAppend(b: seq<Charged>, c: seq<Charged>, p: nat)
    ensures BilledTo(b + c, p) == BilledTo(b, p) + BilledTo(c, p)
  {
    if b == [] {
      assert b + c == c;
    } else {
      assert (b + c)[0] == b[0] && (b + c)[1..] == b[1..] + c;
      BilledToAppend(b[1..], c, p);
    }
  }

  /** The table entry is not given to a new process during the run. */
  ghost predicate NeverCreated(s: Sys, run: seq<Entry>, p: nat)
    requires Settled(s) && CanRun(s, run)
    decreases |run|
  {
    run == [] || (!Creates(s, run[0].event, p) && NeverCreated(After(s, run[0]), run[1..], p))
  }

  /** What a process's account gained is the sum of its own bills. */
  lemma {:induction false} TimeIsBilled(s: Sys, run: seq<Entry>, p: nat)
    requires Settled(s) && CanRun(s, run) && p < |s.at| && NeverCreated(s, run, p)
    ensures |Run(s, run).time| == |s.time| && p < |s.time|
    ensures Run(s, run).time[p] == s.time[p] + BilledTo(Bills(s, run), p)
    decreases |run|
  {
    assert Shape(s);
    if run != [] {
      var s1 := After(s, run[0]);
      assert Shape(s1);
      StepTimes(s, run[0], p);
      hide Inv, Handle, After, Tame, Possible, Settled, Shape;
      TimeIsBilled(s1, run[1..], p);
      BilledToAppend(Bill(s, run[0]), Bills(s1, run[1..]), p);
    }
  }

  // ---------------------------------------------------------------- clocks, exactly

  /**
   * The clock, p_time and p_tm_updt after a passage: a new process starts from 0, the interrupted one pays from its
   * load to the end of its handler, and whoever runs next is loaded when the clock stands where it then stands.
   */
  ghost predicate Clocked(s: Sys, x: Entry, r: Sys)
    requires Settled(s) && Possible(s, x.event)
  {
    var e := x.event;
    if LeavesKernel(s, e) then
      r.clock == s.clock && r.time == s.time && r.upd == s.upd
    else
      var now := s.clock + if e.WaitReturns? then 0 else x.serving;
      var (time, upd) := if e.CreateProcess? && s.free != [] then (s.time[s.free[0] := 0], s.upd[s.free[0] := 0])
                         else (s.time, s.upd);
      var stopped := Stop(time, upd, s.act, now);
      && r.clock == now + (if r.mode == Active then x.loading else 0)
      && r.time == stopped.0
      && (r.mode == Active ==> r.act.Some? && r.act.value < |stopped.1|)
      && r.upd == if r.mode == Active then stopped.1[r.act.value := r.clock] else stopped.1
  }

  /** The accounts once the process that was running has been charged. */
  ghost function Stop(time: seq<int>, upd: seq<int>, act: Option<nat>, now: int): (seq<int>, seq<int>) {
    if act == None || act.value >= |time| || act.value >= |upd| then (time, upd)
    else (time[act.value := time[act.value] + (now - upd[act.value])], upd[act.value := now])
  }

  /** The accounts after the handler. */
  ghost predicate Opened(s: Sys, e: Event, h: Sys) {
    && h.clock == s.clock
    && (if e.CreateProcess? && s.free != [] && s.free[0] < |s.time| == |s.upd|
        then h.time == s.time[s.free[0] := 0] && h.upd == s.upd[s.free[0] := 0]
        else h.time == s.time && h.upd == s.upd)
  }

  lemma HandleClocks(s: Sys, e: Event)
    requires Settled(s) && Possible(s, e) && Tame(s, e)
    ensures Opened(s, e, Handle(s, e).0)
  {
    hide ListsOk, AslOk, ValuesOk, TreeOk, PriosOk, CountsOk, Handle, P, V, ClockTick, MkProc, KillProcess;
    HandleIs(s, e);
    if e.CreateProcess? {
      CreateClocks(s, e.prio, e.support, e.reg);
    } else if Kills(s, e) {
      KillTimes(s, Victim(s, e));
    } else if e.Tick? {
      TickTimes(s);
    } else if DoesP(s, e) || DoesV(s, e) {
      PVTimes(s, KeyOf(e));
    }
  }

  lemma CreateClocks(s: Sys, prio: int, support: int, reg: int)
    requires Shape(s) && s.act.Some?
    ensures Opened(s, CreateProcess(prio, support, reg), MkProc(s, prio, support, reg).0)
  {
  }

  lemma ReleasedClocks(s: Sys, v: Verdict, serving: nat)
    requires Shape(s)
    ensures var r := Released(s, v, serving);
            && r.clock == s.clock + serving && (r.time, r.upd) == Stop(s.time, s.upd, s.act, r.clock)
            && Charge(s, serving).clock == r.clock
            && Charge(s, serving).time == r.time && Charge(s, serving).upd == r.upd
  {
    hide Enqueue;
    if s.act.Some? { EnqueueClocks(Charge(s, serving), s.act.value); }
  }

  lemma EnqueueClocks(s: Sys, p: nat)
    requires Shape(s) && p < |s.at|
    ensures SameTimes(s, Enqueue(s, p))
  {
  }

  /** The accounts when the next process is chosen or resumed. */
  ghost predicate Stopped(s: Sys, x: Entry, h: Sys, d: Sys) {
    && d.clock == s.clock + (if x.event.WaitReturns? then 0 else x.serving)
    && (d.time, d.upd) == Stop(h.time, h.upd, s.act, d.clock)
  }

  ghost predicate LoadedFrom(d: Sys, x: Entry, r: Sys) {
    && r.time == d.time && r.clock == d.clock + (if r.mode == Active then x.loading else 0)
    && (r.mode == Active ==> r.act.Some? && r.act.value < |d.upd|)
    && r.upd == if r.mode == Active then d.upd[r.act.value := r.clock] else d.upd
  }

  lemma ClockedIs(s: Sys, x: Entry, h: Sys, d: Sys, r: Sys)
    requires Settled(s) && Possible(s, x.event) && !LeavesKernel(s, x.event)
    requires Opened(s, x.event, h) && Stopped(s, x, h, d) && LoadedFrom(d, x, r)
    ensures Clocked(s, x, r)
  {
    assert |s.time| == |s.upd| == |s.at| && (s.free != [] ==> s.free[0] < |s.at|);
    hide Settled, Possible, LeavesKernel, Stop;
  }

  lemma StoppedIs(s: Sys, x: Entry)
    requires Settled(s) && Possible(s, x.event) && Tame(s, x.event) && Handle(s, x.event).0.clock == s.clock
    ensures Dispatches(s, x) ==> Stopped(s, x, Handle(s, x.event).0, Dispatched(s, x))
    ensures !x.event.WaitReturns? ==> Stopped(s, x, Handle(s, x.event).0, Charge(Handle(s, x.event).0, x.serving))
  {
    StartFacts(s, x.event);
    var (h, v) := Handle(s, x.event);
    ReleasedClocks(h, v, x.serving);
    hide Settled, Possible, Tame, Handle, Released, Charge, Shape;
    if x.event.WaitReturns? {
      assert Stop(h.time, h.upd, s.act, h.clock) == (h.time, h.upd);
    }
    hide Stop;
  }

  lemma DispatchingMode(s: Sys, x: Entry)
    requires Settled(s) && Possible(s, x.event) && Tame(s, x.event) && Dispatches(s, x)
    ensures Dispatched(s, x).mode in {Active, Idle}
  {
    HandleHandled(s, x.event);
    WaitIsNothing(s, x.event);
    var (h, v) := Handle(s, x.event);
    ReleasedMode(h, v, x.serving);
    hide Inv, Handle, Released;
  }

  lemma ClocksRedispatch(s: Sys, x: Entry)
    requires Settled(s) && Possible(s, x.event) && Tame(s, x.event) && Dispatches(s, x)
    ensures LoadedFrom(Dispatched(s, x), x, SchedulerNext(Dispatched(s, x), x.loading))
  {
    DispatchingMode(s, x);
    SchedulerTimes(Dispatched(s, x), x.loading);
    hide Settled, Possible, Tame, Handle, SchedulerNext, Dispatched;
  }

  lemma ClocksGoOn(d: Sys, x: Entry, a: nat)
    requires Shape(d) && a < |d.at|
    ensures LoadedFrom(d, x, Load(d, a, x.loading))
  {
    assert |d.upd| == |d.at|;
    LoadFields(d, a, x.loading);
    hide Load, Shape;
  }

  /** What a passage does to the clock and to every account, exactly. */
  lemma ClocksAfter(s: Sys, x: Entry)
    requires Settled(s) && Possible(s, x.event) && Tame(s, x.event)
    ensures Clocked(s, x, After(s, x))
  {
    var (h, v) := Handle(s, x.event);
    Verdicts(s, x.event);
    HandleClocks(s, x.event);
    AfterIs(s, x);
    if v == Resumed {
      ResumedClocks(s, x, After(s, x));
    } else {
      assert h.clock == s.clock;
      StoppedIs(s, x);
      if Dispatches(s, x) {
        ClocksRedispatch(s, x);
        hide *;
        ClockedIs(s, x, h, Dispatched(s, x), After(s, x));
      } else {
        ContinuesNotWaits(s, x.event);
        ClocksGoOn(Charge(h, x.serving), x, s.act.value);
        hide *;
        ClockedIs(s, x, h, Charge(h, x.serving), After(s, x));
      }
    }
    hide *;
  }

  lemma ContinuesNotWaits(s: Sys, e: Event)
    requires Settled(s) && Possible(s, e)
    ensures s.act.Some? ==> s.act.value < |s.at| && !e.WaitReturns?
  {
  }

  lemma ResumedClocks(s: Sys, x: Entry, r: Sys)
    requires Settled(s) && Possible(s, x.event) && Tame(s, x.event) && LeavesKernel(s, x.event)
    requires Handle(s, x.event).1 == Resumed && r == Handle(s, x.event).0
    ensures Clocked(s, x, r)
  {
    ResumedAccounts(s, x.event);
    hide Settled, Possible, Tame, Handle, LeavesKernel;
  }
}
