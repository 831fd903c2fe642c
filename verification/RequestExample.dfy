/** A run from power-on after which a process is given the status of a request it never made. */
module RequestExample {
  import opened Prelude
  import opened NucleusState
  import opened NucleusInvariant
  import opened KillTree
  import opened NucleusStep
  import opened NucleusRuns
  import opened NucleusTheorems
  import opened Requests

  /** Init creates a process, its time slice ends, the other asks for a disk, and init terminates it. */
  function Happens(i: nat): Entry {
    if i == 0 then Entry(CreateProcess(PRIO_LOW, NULL, 0), 0, 0)
    else if i == 1 then Entry(SliceEnd, 0, 0)
    else if i == 2 then Entry(DoIO(0, 0), 0, 0)
    else Entry(TermProcess(Some(1)), 0, 0)
  }

  /** The kernel before each of them: two blocks, at address 1 and 2. */
  function Before(i: nat): Sys {
    var one, two := [0, 0], [PRIO_LOW, PRIO_LOW];
    if i == 0 then
      Sys([Running, Free], [1], [], [], map[], [None, None], [[], []], [1, 0], 2, [false, false], two, [NULL, 0],
          one, one, one, 0, map[], Some(0), None, 1, 0, Active, 1, 1)
    else if i == 1 then
      Sys([Running, Low], [], [1], [], map[], [None, Some(0)], [[1], []], [1, 2], 3, [false, false], two, [NULL, NULL],
          [2, 0], one, one, 0, map[], Some(0), None, 2, 0, Active, 1, 1)
    else if i == 2 then
      Sys([Low, Running], [], [0], [], map[], [None, Some(0)], [[1], []], [1, 2], 3, [false, false], two, [NULL, NULL],
          [2, 0], one, one, 0, map[], Some(1), None, 2, 0, Active, 1, 1)
    else
      Sys([Running, Blocked(Dev(0, 0))], [], [], [], map[Dev(0, 0) := [1]], [None, Some(0)], [[1], []], [1, 2], 3,
          [false, true], two, [NULL, NULL], [2, 0], one, one, 0, map[], Some(0), None, 2, 1, Active, 1, 1)
  }

  lemma Starts()
    ensures Boot(2, 1, 1, map[], 0) == Before(0)
  {
    assert Others(2) == [1];
  }

  lemma Created()
    requires Settled(Before(0))
    ensures Possible(Before(0), Happens(0).event) && Tame(Before(0), Happens(0).event)
    ensures After(Before(0), Happens(0)) == Before(1)
  {
    hide Inv, KillProcess, ClockTick, MkProc, SchedulerNext, P, V;
    Spawned();
  }

  lemma Spawned()
    ensures MkProc(Before(0), PRIO_LOW, NULL, 0) == (Before(1).(v0 := [0, 0]), Some(1))
  {
    var (b, r) := (Before(0), MkProc(Before(0), PRIO_LOW, NULL, 0).0);
    assert b.free[1..] == [] && b.low + [1] == [1] && [1] + b.kids[1 := []][0] == [1];
    assert r.at == [Running, Low] && r.kids == [[1], []] && r.parent == [None, Some(0)] && r.born == [1, 2];
    assert r == Before(1).(v0 := [0, 0]);
  }

  lemma Sliced()
    requires Settled(Before(1))
    ensures Possible(Before(1), Happens(1).event) && Tame(Before(1), Happens(1).event)
    ensures After(Before(1), Happens(1)) == Before(2)
  {
    Requeued();
    hide Inv, KillProcess, ClockTick, HandleSyscall, Released, SchedulerNext;
  }

  lemma Requeued()
    ensures SchedulerNext(Released(Before(1), Renqueue, 0), 0) == Before(2)
  {
    var r := Released(Before(1), Renqueue, 0);
    assert r == Before(1).(at := [Low, Low], low := [1, 0]);
  }

  lemma Asked()
    requires Settled(Before(2))
    ensures Possible(Before(2), Happens(2).event) && Tame(Before(2), Happens(2).event)
    ensures After(Before(2), Happens(2)) == Before(3)
  {
    hide Inv, KillProcess, ClockTick, P, V, MkProc, SchedulerNext, Released, Charge;
    Queued();
    Stopped();
    Resumes();
  }

  function Waiting2(): Sys {
    Before(2).(asl := map[Dev(0, 0) := [1]], at := [Low, Blocked(Dev(0, 0))], waitsP := [false, true], sb := 1)
  }

  lemma Queued()
    ensures P(Before(2), Dev(0, 0)) == (Waiting2(), Nothing)
  {
    hide SchedulerNext, Handle, KillProcess, MkProc, V, Inv, Core;
    var r := P(Before(2), Dev(0, 0)).0;
    assert Queue(Before(2), Dev(0, 0)) + [1] == [1];
    assert r.asl == map[Dev(0, 0) := [1]] && r.at == [Low, Blocked(Dev(0, 0))] && r.waitsP == [false, true];
    assert r == Waiting2();
  }

  lemma Stopped()
    ensures Shape(Waiting2()) && Released(Waiting2(), Nothing, 0) == Waiting2()
  {
    hide SchedulerNext, Handle, KillProcess, MkProc, P, V, Inv, Core;
    assert [0, 0][1 := 0] == [0, 0];
    assert Charge(Waiting2(), 0) == Waiting2();
    assert Waiting2().at[1] == Blocked(Dev(0, 0)) && Release(Waiting2(), 1) == Waiting2();
  }

  lemma Resumes()
    ensures Shape(Waiting2()) && SchedulerNext(Waiting2(), 0) == Before(3)
  {
    hide Handle, KillProcess, MkProc, P, V, Inv, Core, Released;
    assert Waiting2().low[1..] == [];
  }

  lemma Terminated(status: int)
    requires Settled(Before(3))
    ensures Possible(Before(3), Happens(3).event) && Tame(Before(3), Happens(3).event)
    ensures var t := After(Before(3), Happens(3)); var e := Device(0, 0, status);
            t.act == Some(0) && Possible(t, e) && Tame(t, e) && |t.v0| == 2 && Handle(t, e).0.v0[0] == status
  {
    hide Inv, Core, Handle, After, KillProcess, AslOk, ValuesOk;
    var s, x := Before(3), Happens(3);
    NotBelow(s);
    KilledRequester(s, x, 0, 0, 1, status);
    OnlyInit(After(s, x));
  }

  lemma NotBelow(s: Sys)
    requires s == Before(3) && Inv(s)
    ensures 0 !in Subtree(s, 1)
  {
  }

  lemma OnlyInit(t: Sys)
    requires Settled(t) && t.mode == Active && |t.at| == 2 && t.at[1] == Free
    ensures t.act == Some(0) && |t.v0| == 2
  {
  }

  lemma Reaches()
    ensures Settled(Before(0)) && Settled(Before(1)) && Settled(Before(2)) && Settled(Before(3))
    ensures CanRun(Before(0), [Happens(0), Happens(1), Happens(2)])
    ensures Run(Before(0), [Happens(0), Happens(1), Happens(2)]) == Before(3)
  {
    hide Before, Happens, Settled, Possible, Tame, After, CanRun, Run, Boot;
    BootSettles(2, 1, 1, map[], 0);
    Starts();
    Created();
    Sliced();
    Asked();
    RunStart(Before(0));
    RunThen(Before(0), [], Happens(0));
    assert [] + [Happens(0)] == [Happens(0)];
    RunThen(Before(0), [Happens(0)], Happens(1));
    assert [Happens(0)] + [Happens(1)] == [Happens(0), Happens(1)];
    RunThen(Before(0), [Happens(0), Happens(1)], Happens(2));
    assert [Happens(0), Happens(1)] + [Happens(2)] == [Happens(0), Happens(1), Happens(2)];
  }

  /**
   * From power-on: the process that init created asks for a disk, init terminates it, and when the disk is
   * done its status lands in v0 of init, which never asked for anything.
   */
  lemma StrangerIsAnswered(status: int) returns (run: seq<Entry>, t: Sys)
    ensures Settled(Boot(2, 1, 1, map[], 0)) && CanRun(Boot(2, 1, 1, map[], 0), run) &&
            t == Run(Boot(2, 1, 1, map[], 0), run)
    ensures run == [Happens(0), Happens(1), Happens(2), Happens(3)]
    ensures var e := Device(0, 0, status);
            t.act == Some(0) && Possible(t, e) && Tame(t, e) && |t.v0| == 2 && Handle(t, e).0.v0[0] == status
  {
    hide Before, Happens, Settled, Possible, Tame, After, CanRun, Run, Boot, Handle;
    Reaches();
    Terminated(status);
    Starts();
    run := [Happens(0), Happens(1), Happens(2)] + [Happens(3)];
    t := After(Before(3), Happens(3));
    RunThen(Before(0), [Happens(0), Happens(1), Happens(2)], Happens(3));
  }
}
