/** What holds in every state the kernel can reach from boot. */
module NucleusRuns {
  import opened Prelude
  import opened NucleusState
  import opened NucleusInvariant
  import opened KillTree
  import opened NucleusStep

  /** One entry to the kernel, with the time it and the following load take. */
  datatype Entry = Entry(event: Event, serving: nat, loading: nat)

  ghost function After(s: Sys, x: Entry): (r: Sys)
    requires Settled(s) && Possible(s, x.event) && Tame(s, x.event)
    ensures Settled(r) && |r.at| == |s.at|
  {
    StepSettles(s, x.event, x.serving, x.loading);
    Step(s, x.event, x.serving, x.loading)
  }

  /** The state handed to scheduler_next, when the exception ends there. */
  ghost predicate Dispatches(s: Sys, x: Entry)
    requires Settled(s) && Possible(s, x.event)
  {
    var (s1, v) := Handle(s, x.event);
    v != Resumed && !(s.act.Some? && v == Continue)
  }

  ghost function Dispatched(s: Sys, x: Entry): (r: Sys)
    requires Settled(s) && Possible(s, x.event)
    ensures Shape(r) && |r.at| == |s.at|
  {
    var (s1, v) := Handle(s, x.event);
    if x.event.WaitReturns? then s1 else Released(s1, v, x.serving)
  }

  /** A passage ends in the process passing the exception up, in its resumption, or in a dispatch. */
  lemma AfterIs(s: Sys, x: Entry)
    requires Settled(s) && Possible(s, x.event) && Tame(s, x.event)
    ensures var (s1, v) := Handle(s, x.event);
            && (v == Resumed ==> After(s, x) == s1)
            && (v != Resumed && !Dispatches(s, x) ==>
                  s.act.Some? && s.act.value < |s.at| && v == Continue &&
                  After(s, x) == Load(Charge(s1, x.serving), s.act.value, x.loading))
            && (Dispatches(s, x) ==> After(s, x) == SchedulerNext(Dispatched(s, x), x.loading))
  {
    assert s.act.Some? ==> s.act.value < |s.at|;
    hide Inv, Tame, Handle, SchedulerNext, Load, Charge, Released, Shape;
  }

  /** At dispatch nobody runs; only the caller's place may differ from what the handler left. */
  lemma DispatchedQuiet(s: Sys, x: Entry)
    requires Settled(s) && Possible(s, x.event) && Tame(s, x.event) && Dispatches(s, x)
    ensures var (s1, v) := Handle(s, x.event);
            var r := Dispatched(s, x);
            && Core(r) && Quiet(r) && r.yielded == s1.yielded
            && (forall p :: 0 <= p < |s.at| && s.act != Some(p) ==> r.at[p] == s1.at[p])
            && (s.act.Some? ==> s.act.value < |s.at| && r.at[s.act.value] == Parked(s1, v, s.act.value))
  {
    assert s.act.Some? ==> s.act.value < |s.at|;
    assert x.event.WaitReturns? ==> Quiet(s) && Core(s) && Handle(s, x.event).0 == s && s.act == None;
    HandleHandled(s, x.event);
    hide Inv, Core, Tame, Handle, Released, Shape, Quiet, Parked;
    var (s1, v) := Handle(s, x.event);
    if !x.event.WaitReturns? {
      ReleasedQuiet(s1, v, x.serving);
    }
  }

  /** Where the handler and the verdict leave a block, before dispatch. */
  ghost function Left(s: Sys, x: Entry, p: nat): Place
    requires Settled(s) && Possible(s, x.event) && p < |s.at|
  {
    var (s1, v) := Handle(s, x.event);
    if s.act == Some(p) && v != Continue && v != Resumed then Parked(s1, v, p) else s1.at[p]
  }

  lemma DispatchedDeals(s: Sys, x: Entry, p: nat)
    requires Settled(s) && Possible(s, x.event) && Tame(s, x.event) && p < |s.at| && Dispatches(s, x)
    ensures Dealt(Left(s, x, p), SchedulerNext(Dispatched(s, x), x.loading).at[p])
  {
    DispatchedQuiet(s, x);
    hide Core, Quiet, Tame, Handle, SchedulerNext, Dispatched, Parked, Inv, Shape, Dealt;
    SchedulerDeals(Dispatched(s, x), x.loading, p);
  }

  lemma ResumedDeals(s: Sys, x: Entry, p: nat)
    requires Settled(s) && Possible(s, x.event) && Tame(s, x.event) && p < |s.at| && !Dispatches(s, x)
    requires Handle(s, x.event).1 != Resumed
    ensures s.act.Some? && s.act.value < |s.at|
    ensures Dealt(Left(s, x, p), Load(Charge(Handle(s, x.event).0, x.serving), s.act.value, x.loading).at[p])
  {
    assert s.act.Some? && s.act.value < |s.at|;
    HandleHandled(s, x.event);
    var s1 := Handle(s, x.event).0;
    assert s1.yielded == None && s1.at[s.act.value] == Running;
    hide Core, Tame, Handle, Inv, Shape;
    LoadFields(Charge(s1, x.serving), s.act.value, x.loading);
    hide Load;
  }

  /** A passage as a whole moves a block as its handler did, and then as dispatch may. */
  lemma AfterDeals(s: Sys, x: Entry, p: nat)
    requires Settled(s) && Possible(s, x.event) && Tame(s, x.event) && p < |s.at|
    ensures Dealt(Left(s, x, p), After(s, x).at[p])
  {
    AfterIs(s, x);
    if Dispatches(s, x) {
      DispatchedDeals(s, x, p);
    } else if Handle(s, x.event).1 != Resumed {
      ResumedDeals(s, x, p);
    }
    hide *;
    assert Handle(s, x.event).1 == Resumed ==> Left(s, x, p) == Handle(s, x.event).0.at[p];
    assert forall y :: Dealt(y, y);
  }

  /** Every exception of the run can occur when it does, and no device completes twice. */
  ghost predicate CanRun(s: Sys, run: seq<Entry>)
    requires Settled(s)
    decreases |run|
  {
    run == [] ||
    (Possible(s, run[0].event) && Tame(s, run[0].event) && CanRun(After(s, run[0]), run[1..]))
  }

  /** Safety over whole runs: whatever the exceptions, the state reached is settled. */
  ghost function Run(s: Sys, run: seq<Entry>): (r: Sys)
    requires Settled(s) && CanRun(s, run)
    ensures Settled(r)
    decreases |run|
  {
    if run == [] then s else Run(After(s, run[0]), run[1..])
  }

  // ---------------------------------------------------------------- boot

  const SEM_LINES := 6     // disk, flash, network, printer, terminal input, terminal output
  const DEVPERINT := 8

  /** The semaphores after init_dev_sem: the kernel's own are 0. */
  ghost function Zeroed(sem: map<Key, int>): map<Key, int> {
    map k | k in sem :: if k.User? then sem[k] else 0
  }

  /** Every block but the first, in order. */
  function Others(n: nat): seq<nat>
    requires n > 0
  {
    seq(n - 1, i => i + 1)
  }

  /** main: the tables initialised, the first process created and put in the low queue. */
  ghost function Booting(n: nat, base: nat, size: nat, sem: map<Key, int>): (r: Sys)
    requires n > 0
    ensures Shape(r)
  {
    Sys(seq(n, p => if p == 0 then Low else Free), Others(n), [0], [], map[],
        Fill(n, None), Fill(n, []), Fill(n, 0)[0 := 1], 2, Fill(n, false),
        Fill(n, PRIO_LOW), Fill(n, 0)[0 := NULL], Fill(n, 0), Fill(n, 0), Fill(n, 0), 0,
        Zeroed(sem), None, None, 1, 0, Active, base, size)
  }

  ghost function Boot(n: nat, base: nat, size: nat, sem: map<Key, int>, loading: nat): Sys
    requires n > 0
  {
    SchedulerNext(Booting(n, base, size, sem), loading)
  }

  lemma BootCore(n: nat, base: nat, size: nat, sem: map<Key, int>)
    requires n > 0
    ensures Core(Booting(n, base, size, sem)) && Quiet(Booting(n, base, size, sem))
  {
    var s := Booting(n, base, size, sem);
    assert Live(s.at) == {0};
    assert Waiting(s.at) == {};
    forall p: nat ensures p in s.free <==> p < |s.at| && s.at[p] == Free {
      if 0 < p < n {
        assert s.free[p - 1] == p;
      }
    }
    assert s.low[0] == 0;
  }

  /** Whatever memory held, the state that main hands over is sound, and init runs. */
  lemma BootSettles(n: nat, base: nat, size: nat, sem: map<Key, int>, loading: nat)
    requires n > 0
    ensures Settled(Boot(n, base, size, sem, loading))
    ensures Boot(n, base, size, sem, loading).act == Some(0)
  {
    BootCore(n, base, size, sem);
    SchedulerSettles(Booting(n, base, size, sem), loading);
  }

  /** What the first dispatch hands the processor to: init, with low priority and nothing else. */
  lemma BootExactly(n: nat, base: nat, size: nat, sem: map<Key, int>, loading: nat)
    requires n > 0
    ensures var s := Boot(n, base, size, sem, loading);
            && s.mode == Active && s.act == Some(0) && |s.at| == n && s.low == [] && s.high == [] && s.asl == map[]
            && s.free == Others(n) && s.procs == 1 && s.sb == 0 && s.base == base && s.size == size
            && |s.prio| == |s.support| == |s.parent| == |s.kids| == |s.time| == |s.upd| == n
            && s.prio[0] == 0 && s.support[0] == NULL && s.parent[0] == None && s.kids[0] == []
            && s.time[0] == 0 && s.clock == s.upd[0] == loading
            && (forall k: Key :: SemVal(s, k) == if k.User? && k in sem then sem[k] else 0)
  {
    var b := Booting(n, base, size, sem);
    assert b.low[1..] == [];
  }

  lemma RunStart(s: Sys)
    requires Settled(s)
    ensures CanRun(s, []) && Run(s, []) == s
  {
  }

  lemma {:induction false} RunThen(s: Sys, run: seq<Entry>, x: Entry)
    requires Settled(s) && CanRun(s, run) && Possible(Run(s, run), x.event) && Tame(Run(s, run), x.event)
    ensures CanRun(s, run + [x]) && Run(s, run + [x]) == After(Run(s, run), x)
    decreases |run|
  {
    hide Settled, Possible, Tame, After;
    if run == [] {
      assert [x][1..] == [];
    } else {
      assert (run + [x])[0] == run[0] && (run + [x])[1..] == run[1..] + [x];
      RunThen(After(s, run[0]), run[1..], x);
    }
  }

  /** What a run has come to after `i` passages, and after one more. */
  lemma {:induction false} RunOnce(s: Sys, run: seq<Entry>, i: nat)
    requires Settled(s) && CanRun(s, run) && i < |run|
    ensures CanRun(s, run[..i]) && CanRun(s, run[..i + 1])
    ensures var t := Run(s, run[..i]);
            Possible(t, run[i].event) && Tame(t, run[i].event) && Run(s, run[..i + 1]) == After(t, run[i])
    decreases |run|
  {
    hide Settled, Possible, Tame, After;
    assert run[..i + 1][0] == run[0] && run[..i + 1][1..] == run[1..][..i];
    if i == 0 {
      assert run[..0] == [] && run[1..][..0] == [];
    } else {
      RunOnce(After(s, run[0]), run[1..], i - 1);
      assert run[..i][0] == run[0] && run[..i][1..] == run[1..][..i - 1];
    }
  }
}
