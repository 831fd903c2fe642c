/**
 * What one passage through the kernel does to every variable of the nucleus, told by the state before it and the
 * exception alone.
 */
module Passages {
  import opened Prelude
  import opened NucleusState
  import opened NucleusInvariant
  import opened KillTree
  import opened NucleusStep
  import opened NucleusRuns
  import opened NucleusTheorems

  // ---------------------------------------------------------------- how a passage ends

  /** The caller is sent back to the ready queue of its priority. */
  ghost predicate SentBack(s: Sys, e: Event)
    requires Settled(s) && Possible(s, e)
  {
    s.act.Some? &&
    match e
    case SliceEnd => true
    case NoPendingLine => true
    case Passeren(addr) => SemVal(s, User(addr)) == 1
    case Verhogen(addr) => SemVal(s, User(addr)) == 0
    case TermProcess(_) => s.act.value !in Killed(s, e)
    case _ => false
  }

  /** The caller, or the process that was interrupted, goes on at once. */
  ghost predicate GoesOn(s: Sys, e: Event) {
    s.act.Some? &&
    match e
    case CreateProcess(_, _, _) => s.free != []
    case GetTime => true
    case GetSupport => true
    case GetProcessId(_) => true
    case Tick => true
    case Device(_, _, _) => true
    case Ignored => true
    case _ => false
  }

  /** The kernel panics, or passes the exception up to the process's own handler. */
  ghost predicate LeavesKernel(s: Sys, e: Event)
    requires Settled(s)
  {
    || BadArgument(s, e)
    || (e.Trap? && s.act.Some? && s.act.value < |s.support| && s.support[s.act.value] != NULL)
  }

  /** scheduler_next chooses who runs. */
  ghost predicate Redispatches(s: Sys, e: Event)
    requires Settled(s)
  {
    !GoesOn(s, e) && !LeavesKernel(s, e)
  }

  lemma SyscallVerdicts(s: Sys, e: Event)
    requires Settled(s) && Possible(s, e) && Tame(s, e) && IsSyscall(e)
    ensures var v := Handle(s, e).1;
            && s.act.Some? && (v == Continue <==> GoesOn(s, e)) && (v == Resumed <==> LeavesKernel(s, e))
            && (v == Renqueue <==> SentBack(s, e))
  {
    hide ListsOk, AslOk, ValuesOk, TreeOk, PriosOk, CountsOk, Handle, P, V, ClockTick, MkProc, KillProcess, Subtree;
    HandleIs(s, e);
    VerdictIs(s, e);
    if DoesP(s, e) || DoesV(s, e) { PVPlaces(s, KeyOf(e), s.act.value); }
    if e.TermProcess? {
      KillStirs(s, Victim(s, e), s.act.value);
    }
  }

  lemma Verdicts(s: Sys, e: Event)
    requires Settled(s) && Possible(s, e) && Tame(s, e)
    ensures var v := Handle(s, e).1;
            && (s.act.Some? && v == Continue <==> GoesOn(s, e)) && (v == Resumed <==> LeavesKernel(s, e))
            && (s.act.Some? && v == Renqueue <==> SentBack(s, e))
  {
    hide ListsOk, AslOk, ValuesOk, TreeOk, PriosOk, CountsOk, Handle, P, V, ClockTick, MkProc, KillProcess, Subtree;
    if IsSyscall(e) {
      SyscallVerdicts(s, e);
    } else {
      VerdictIs(s, e);
    }
  }

  // ---------------------------------------------------------------- the process table

  /** The columns only creation and termination write, and the free list. */
  ghost predicate SameTable(s: Sys, r: Sys) {
    && r.prio == s.prio && r.support == s.support && r.parent == s.parent && r.kids == s.kids
    && r.born == s.born && r.births == s.births && r.free == s.free && r.base == s.base && r.size == s.size
  }

  lemma EnqueueTable(s: Sys, p: nat)
    requires Shape(s) && p < |s.at|
    ensures var r := Enqueue(s, p); SameTable(s, r) && r.v0 == s.v0 && r.waitsP == s.waitsP
  {
    hide Shape;
  }

  lemma WakeTable(s: Sys, k: Key)
    requires Shape(s) && k in s.asl
    ensures var r := Wake(s, k); SameTable(s, r) && r.v0 == s.v0 && r.waitsP == s.waitsP
  {
    EnqueueTable(Unqueue(s, k), s.asl[k][0]);
    hide Shape, Enqueue;
  }

  lemma PVTable(s: Sys, k: Key)
    requires Shape(s)
    ensures SameTable(s, V(s, k).0) && V(s, k).0.v0 == s.v0
    ensures s.act.Some? ==> SameTable(s, P(s, k).0) && P(s, k).0.v0 == s.v0
  {
    if k in s.asl { WakeTable(s, k); }
    hide Shape, Wake;
  }

  lemma {:induction false} ClockLoopTable(s: Sys)
    requires Shape(s)
    ensures SameTable(s, ClockLoop(s)) && ClockLoop(s).v0 == s.v0
    decreases |Queue(s, Clock)| + (if SemVal(s, Clock) == 1 then 0 else 1)
  {
    if SemVal(s, Clock) != 1 {
      PVTable(s, Clock);
      ClockLoopTable(V(s, Clock).0);
    }
  }

  lemma UnyieldTable(s: Sys)
    requires Shape(s)
    ensures var r := Unyield(s); SameTable(s, r) && r.v0 == s.v0 && r.waitsP == s.waitsP
  {
    if s.yielded.Some? { EnqueueTable(s, s.yielded.value); }
    hide Shape, Enqueue;
  }

  lemma LoadTable(s: Sys, p: nat, elapsed: nat)
    requires Shape(s) && p < |s.at|
    ensures var r := Load(s, p, elapsed); SameTable(s, r) && r.v0 == s.v0 && r.waitsP == s.waitsP
  {
    UnyieldTable(s);
    hide Shape, Unyield;
  }

  lemma SchedulerTable(s: Sys, elapsed: nat)
    requires Shape(s)
    ensures var r := SchedulerNext(s, elapsed); SameTable(s, r) && r.v0 == s.v0 && r.waitsP == s.waitsP
  {
    assert s.high != [] ==> s.high[0] < |s.at|;
    assert s.low != [] ==> s.low[0] < |s.at|;
    hide Load, Unyield, Shape, InTable;
    UnyieldTable(s);
    if s.high != [] {
      LoadTable(PopHigh(s), s.high[0], elapsed);
    } else if s.low != [] {
      LoadTable(PopLow(s), s.low[0], elapsed);
    }
  }

  lemma ReleasedTable(s: Sys, v: Verdict, serving: nat)
    requires Shape(s)
    ensures var r := Released(s, v, serving); SameTable(s, r) && r.v0 == s.v0 && r.waitsP == s.waitsP
    ensures var r := Charge(s, serving); SameTable(s, r) && r.v0 == s.v0 && r.waitsP == s.waitsP
  {
    if s.act.Some? { EnqueueTable(Charge(s, serving), s.act.value); }
    hide Shape, Enqueue;
  }

  /** What follows the handler leaves these columns to it. */
  lemma FinishTable(s: Sys, x: Entry)
    requires Settled(s) && Possible(s, x.event) && Tame(s, x.event)
    ensures var (h, r) := (Handle(s, x.event).0, After(s, x));
            SameTable(h, r) && r.v0 == h.v0 && r.waitsP == h.waitsP
  {
    assert s.act.Some? ==> s.act.value < |s.at|;
    hide Settled, Possible, Tame, Handle, SchedulerNext, Load, Charge, Released, Shape;
    AfterIs(s, x);
    var (h, v) := Handle(s, x.event);
    ReleasedTable(h, v, x.serving);
    if Dispatches(s, x) {
      SchedulerTable(Dispatched(s, x), x.loading);
    } else if v != Resumed {
      LoadTable(Charge(h, x.serving), s.act.value, x.loading);
    }
  }

  /** The table after a creation, in terms of what the caller asked for. */
  ghost predicate TableCreated(s: Sys, e: Event, r: Sys)
    requires Settled(s) && e.CreateProcess? && s.free != [] && s.act.Some?
  {
    var (p, a) := (s.free[0], s.act.value);
    && p < |s.at| && a < |s.at| && p != a
    && r.prio == s.prio[p := e.prio] && r.support == s.support[p := e.support]
    && r.parent == s.parent[p := Some(a)] && r.kids == s.kids[a := [p] + s.kids[a]]
    && r.born == s.born[p := s.births] && r.births == s.births + 1
    && r.free == s.free[1..] && r.base == s.base && r.size == s.size
  }

  /** The table after the processes of `K` were terminated, the last of them `v`. */
  ghost predicate TableKilled(s: Sys, v: nat, K: set<nat>, r: Sys)
    requires Settled(s)
  {
    && r.prio == s.prio && r.support == s.support && r.born == s.born && r.births == s.births
    && r.base == s.base && r.size == s.size && |r.parent| == |r.kids| == |s.at| == |s.parent| == |s.kids|
    && (forall q :: 0 <= q < |s.at| ==> r.parent[q] == if q in K then None else s.parent[q])
    && (forall q :: 0 <= q < |s.at| ==> r.kids[q] == if q in K then [] else Without(s.kids[q], K))
    && |r.free| == |K| + |s.free| && r.free[|K|..] == s.free && Elems(r.free[..|K|]) == K && v in K && r.free[0] == v
  }

  lemma SpawnedTable(s: Sys, e: Event)
    requires Settled(s) && s.mode == Active && e.CreateProcess? && s.free != []
    ensures TableCreated(s, e, MkProc(s, e.prio, e.support, e.reg).0)
  {
    hide AslOk, ValuesOk, PriosOk, CountsOk;
    assert s.free[0] in s.free;
    var p := s.free[0];
    assert s.at[p] == Free && s.kids[p] == [];
    assert s.kids[p := []] == s.kids;
  }

  lemma KilledTable(s: Sys, p: nat)
    requires Settled(s) && p < |s.at| && s.at[p] != Free
    ensures TableKilled(s, p, Subtree(s, p), KillProcess(s, p))
  {
    SubtreeOrder(s, p);
    var ks := PostOrder(s.kids, s.born, s.births, p);
    assert ks[|ks| - 1] == p;
    hide ListsOk, AslOk, ValuesOk, TreeOk, PriosOk, CountsOk, PostOrder, Subtree, Closed;
    DroppedTable(s, ks);
  }

  lemma DroppedTable(s: Sys, ks: seq<nat>)
    requires Settled(s) && InTable(ks, |s.at|) && ks != [] && |Elems(ks)| == |ks|
    ensures TableKilled(s, ks[|ks| - 1], Elems(ks), Drop(s, ks))
  {
    hide ListsOk, AslOk, ValuesOk, TreeOk, PriosOk, CountsOk, Unblocked, BlockedIn, Without, Reverse;
    FreedFirst(ks);
    var r := Reverse(ks) + s.free;
    assert r[..|ks|] == Reverse(ks) && r[|ks|..] == s.free;
    assert Elems(Reverse(ks)) == Elems(ks);
  }

  lemma {:induction false} FreedFirst(ks: seq<nat>)
    requires ks != []
    ensures Reverse(ks)[0] == ks[|ks| - 1]
  {
    if |ks| == 1 {
      assert Reverse(ks) == Reverse(ks[1..]) + [ks[0]] && ks[1..] == [];
    } else {
      FreedFirst(ks[1..]);
    }
  }

  lemma HandleTable(s: Sys, e: Event)
    requires Settled(s) && Possible(s, e) && Tame(s, e)
    ensures TableMoved(s, e, Handle(s, e).0)
  {
    hide ListsOk, AslOk, ValuesOk, TreeOk, PriosOk, CountsOk, Handle, P, V, ClockTick, MkProc, KillProcess, Subtree;
    hide TableCreated, TableKilled;
    HandleIs(s, e);
    if e.CreateProcess? {
      CreatedTable(s, e);
    } else if Kills(s, e) {
      SelfUnder(s, Victim(s, e));
      KilledTable(s, Victim(s, e));
    } else if DoesP(s, e) || DoesV(s, e) {
      PVTable(s, KeyOf(e));
    } else if e.Tick? {
      TickTable(s);
    }
  }

  lemma TickTable(s: Sys)
    requires Shape(s)
    ensures SameTable(s, ClockTick(s)) && ClockTick(s).v0 == s.v0
  {
    ClockLoopTable(s);
  }

  lemma CreatedTable(s: Sys, e: Event)
    requires Settled(s) && Possible(s, e) && e.CreateProcess?
    ensures TableMoved(s, e, MkProc(s, e.prio, e.support, e.reg).0)
    ensures TableMoved(s, e, MkProc(s, e.prio, e.support, e.reg).0) ==> TableMoved(s, e, Handle(s, e).0)
  {
    hide ListsOk, AslOk, ValuesOk, TreeOk, PriosOk, CountsOk, Handle, MkProc;
    HandleIs(s, e);
    if s.free != [] {
      SpawnedTable(s, e);
    } else {
      FullTable(s, e.prio, e.support, e.reg);
    }
  }

  lemma FullTable(s: Sys, prio: int, support: int, reg: int)
    requires Shape(s) && s.act.Some? && s.free == []
    ensures MkProc(s, prio, support, reg) == (s, None)
  {
  }

  /** What a passage with this exception makes of the table. */
  ghost predicate TableMoved(s: Sys, e: Event, r: Sys)
    requires Settled(s) && Possible(s, e)
  {
    if e.CreateProcess? && s.free != [] then s.act.Some? && TableCreated(s, e, r)
    else if Killed(s, e) != {} then TableKilled(s, Victim(s, e), Killed(s, e), r)
    else SameTable(s, r)
  }

  /**
   * A creation gives the new block, the first of the free list, what the caller asked for, and makes it the caller's
   * newest child; a termination unlinks the terminated and frees them; nothing else writes these columns.
   */
  lemma TableAfter(s: Sys, x: Entry)
    requires Settled(s) && Possible(s, x.event) && Tame(s, x.event)
    ensures TableMoved(s, x.event, After(s, x))
  {
    FinishTable(s, x);
    HandleTable(s, x.event);
    hide *;
    TableCarries(s, x.event, Handle(s, x.event).0, After(s, x));
  }

  lemma TableCarries(s: Sys, e: Event, h: Sys, r: Sys)
    requires Settled(s) && Possible(s, e) && TableMoved(s, e, h) && SameTable(h, r)
    ensures TableMoved(s, e, r)
  {
    hide Settled, Possible, Killed, Without, Elems;
  }

  // ---------------------------------------------------------------- answers

  /** A value given to a process in v0. */
  datatype Reply = Reply(pid: nat, value: int)

  /**
   * Whom a passage answers, and what: NSYS1 with the address of the new block, NSYS6 with the account, NSYS8 with the
   * support structure, NSYS9 with the caller's own address, its parent's, or 0; a completion with the status, for the
   * oldest requester or, failing one, whoever runs.
   */
  ghost function Replies(s: Sys, e: Event): Option<Reply>
    requires Settled(s) && Possible(s, e)
  {
    if e.Device? then
      var q := Queue(s, Dev(e.dline, e.ddev));
      if SemVal(s, Dev(e.dline, e.ddev)) == 1 then None
      else if q != [] then Some(Reply(q[0], e.status))
      else if s.act.Some? then Some(Reply(s.act.value, e.status)) else None
    else if s.act == None || s.act.value >= |s.at| then None
    else
      var a := s.act.value;
      match e
      case CreateProcess(_, _, _) => if s.free == [] then None else Some(Reply(a, s.base + s.size * s.free[0]))
      case GetTime => Some(Reply(a, s.time[a]))
      case GetSupport => Some(Reply(a, s.support[a]))
      case GetProcessId(ofParent) =>
        Some(Reply(a, if !ofParent then s.base + s.size * a
                      else if s.parent[a].Some? then s.base + s.size * s.parent[a].value else 0))
      case _ => None
  }

  /** The registers after a passage: a new process has the one it was created with, and the answer is given. */
  ghost predicate Replied(s: Sys, e: Event, r: Sys)
    requires Settled(s) && Possible(s, e)
  {
    var given := if e.CreateProcess? && s.free != [] then s.v0[s.free[0] := e.reg] else s.v0;
    match Replies(s, e)
    case None => r.v0 == given
    case Some(reply) => reply.pid < |given| && r.v0 == given[reply.pid := reply.value]
  }

  lemma DeviceReplied(s: Sys, e: Event)
    requires Settled(s) && Possible(s, e) && Tame(s, e) && e.Device?
    ensures Replied(s, e, Handle(s, e).0)
  {
    hide ListsOk, AslOk, ValuesOk, TreeOk, PriosOk, CountsOk, Handle;
    CompletionAnswers(s, e.dline, e.ddev, e.status);
    assert e == Device(e.dline, e.ddev, e.status);
  }

  lemma CreateReplied(s: Sys, e: Event)
    requires Settled(s) && Possible(s, e) && e.CreateProcess?
    ensures Replied(s, e, Handle(s, e).0)
  {
    hide ListsOk, AslOk, ValuesOk, TreeOk, PriosOk, CountsOk;
  }

  lemma CallReplied(s: Sys, e: Event)
    requires Settled(s) && Possible(s, e) && (e.GetTime? || e.GetSupport? || e.GetProcessId?)
    ensures Replied(s, e, Handle(s, e).0)
  {
    hide ListsOk, AslOk, ValuesOk, TreeOk, PriosOk, CountsOk;
  }

  lemma OfSyscall(s: Sys, e: Event)
    requires Settled(s) && Possible(s, e) && IsSyscall(e)
    ensures Handle(s, e) == HandleSyscall(s, e)
  {
    hide HandleSyscall, Settled;
  }

  /** The other exceptions leave every v0 alone. */
  lemma HandleSilent(s: Sys, e: Event)
    requires Settled(s) && Possible(s, e) && Tame(s, e)
    requires !e.Device? && !e.CreateProcess? && !e.GetTime? && !e.GetSupport? && !e.GetProcessId?
    ensures Handle(s, e).0.v0 == s.v0
  {
    hide ListsOk, AslOk, ValuesOk, TreeOk, PriosOk, CountsOk, Handle, P, V, ClockTick, MkProc, KillProcess, SameTable;
    if Kills(s, e) {
      HandleIs(s, e);
      KilledRegisters(s, Victim(s, e));
    } else if DoesP(s, e) || DoesV(s, e) {
      SyscallIs(s, e);
      assert Handle(s, e) == HandleSyscall(s, e) by { OfSyscall(s, e); }
      hide HandleSyscall;
      PVTable(s, KeyOf(e));
    } else if e.Tick? {
      HandleIs(s, e);
      TickTable(s);
    } else if e.Yield? {
      HandleIs(s, e);
    } else {
      OthersSilent(s, e);
    }
  }

  lemma NobodyReplied(s: Sys, e: Event)
    requires Settled(s) && Possible(s, e) && Tame(s, e)
    requires !e.Device? && !e.CreateProcess? && !e.GetTime? && !e.GetSupport? && !e.GetProcessId?
    ensures Replied(s, e, Handle(s, e).0)
  {
    HandleSilent(s, e);
    hide Settled, Possible, Tame, Handle;
  }

  lemma KilledRegisters(s: Sys, p: nat)
    requires Core(s) && p < |s.at| && s.at[p] != Free
    ensures KillProcess(s, p).v0 == s.v0
  {
    hide Core;
  }

  lemma OthersSilent(s: Sys, e: Event)
    requires Settled(s) && Possible(s, e) && !Kills(s, e)
    requires !DoesP(s, e) && !DoesV(s, e) && !e.Tick? && !e.Yield?
    requires !e.CreateProcess? && !e.GetTime? && !e.GetSupport? && !e.GetProcessId?
    ensures Handle(s, e).0.v0 == s.v0
  {
    hide ListsOk, AslOk, ValuesOk, TreeOk, PriosOk, CountsOk, P, V, ClockTick, KillProcess;
  }

  /** A passage answers exactly those whom it should, with the right value, and writes no other v0. */
  lemma RepliesAfter(s: Sys, x: Entry)
    requires Settled(s) && Possible(s, x.event) && Tame(s, x.event)
    ensures Replied(s, x.event, After(s, x))
  {
    var e := x.event;
    FinishTable(s, x);
    if e.Device? {
      DeviceReplied(s, e);
    } else if e.CreateProcess? {
      CreateReplied(s, e);
    } else if e.GetTime? || e.GetSupport? || e.GetProcessId? {
      CallReplied(s, e);
    } else {
      NobodyReplied(s, e);
    }
    hide Settled, Possible, Tame, Handle, After, Replies;
  }

  // ---------------------------------------------------------------- what a blocked process was doing

  /** A process that blocks is marked as in a P or as in a V. */
  ghost function Marked(s: Sys, e: Event): seq<bool>
    requires Settled(s) && Possible(s, e)
  {
    if s.act == None || s.act.value >= |s.waitsP| then s.waitsP
    else
      var a := s.act.value;
      match e
      case Passeren(addr) => if SemVal(s, User(addr)) == 0 then s.waitsP[a := true] else s.waitsP
      case DoIO(line, dev) => if SemVal(s, Dev(line, dev)) == 0 then s.waitsP[a := true] else s.waitsP
      case ClockWait => s.waitsP[a := true]
      case Verhogen(addr) => if SemVal(s, User(addr)) == 1 then s.waitsP[a := false] else s.waitsP
      case _ => s.waitsP
  }

  lemma PVMarks(s: Sys, k: Key)
    requires Shape(s)
    ensures V(s, k).0.waitsP == if SemVal(s, k) == 1 && s.act.Some? then s.waitsP[s.act.value := false] else s.waitsP
    ensures s.act.Some? ==>
              P(s, k).0.waitsP == if SemVal(s, k) == 0 then s.waitsP[s.act.value := true] else s.waitsP
  {
    if k in s.asl { WakeTable(s, k); }
    hide Wake;
  }

  lemma {:induction false} LoopMarks(s: Sys)
    requires Inv(s) && (s.act.Some? ==> s.at[s.act.value] == Running)
    ensures ClockLoop(s).waitsP == s.waitsP
    decreases |Queue(s, Clock)| + (if SemVal(s, Clock) == 1 then 0 else 1)
  {
    hide ListsOk, AslOk, ValuesOk, TreeOk, PriosOk, CountsOk;
    if SemVal(s, Clock) != 1 {
      PVMarks(s, Clock);
      VInv(s, Clock);
      hide V;
      LoopMarks(V(s, Clock).0);
    }
  }

  lemma CreatedMarks(s: Sys, prio: int, support: int, reg: int)
    requires Shape(s) && s.act.Some?
    ensures MkProc(s, prio, support, reg).0.waitsP == s.waitsP
  {
    hide Shape;
  }

  lemma HandleMarks(s: Sys, e: Event)
    requires Settled(s) && Possible(s, e) && Tame(s, e)
    ensures Handle(s, e).0.waitsP == Marked(s, e)
  {
    hide ListsOk, AslOk, ValuesOk, TreeOk, PriosOk, CountsOk, Handle, P, V, ClockLoop, MkProc, KillProcess, Subtree;
    HandleIs(s, e);
    if DoesP(s, e) || DoesV(s, e) {
      PVMarks(s, KeyOf(e));
    } else if e.Tick? {
      LoopMarks(s);
    } else if e.CreateProcess? {
      CreatedMarks(s, e.prio, e.support, e.reg);
    } else if Kills(s, e) {
      KilledMarks(s, Victim(s, e));
    }
  }

  lemma KilledMarks(s: Sys, p: nat)
    requires Core(s) && p < |s.at| && s.at[p] != Free
    ensures KillProcess(s, p).waitsP == s.waitsP
  {
    hide Core;
  }

  lemma MarksAfter(s: Sys, x: Entry)
    requires Settled(s) && Possible(s, x.event) && Tame(s, x.event)
    ensures After(s, x).waitsP == Marked(s, x.event)
  {
    FinishTable(s, x);
    HandleMarks(s, x.event);
    hide *;
  }

  // ---------------------------------------------------------------- deaths

  /** Whom the exception terminates: the process NSYS2 names, or its caller, or whoever traps unsupported, and below. */
  ghost predicate Doomed(s: Sys, e: Event, p: nat)
    requires Settled(s) && Possible(s, e) && p < |s.at|
  {
    match e
    case TermProcess(target) =>
      if target.Some? then s.at[target.value] != Free && Under(s, p, target.value)
      else s.act.Some? && Under(s, p, s.act.value)
    case Trap => s.act.Some? && s.act.value < |s.support| && s.support[s.act.value] == NULL && Under(s, p, s.act.value)
    case _ => false
  }

  /** A passage terminates exactly the doomed. */
  lemma KilledExactly(s: Sys, e: Event, p: nat)
    requires Settled(s) && Possible(s, e) && p < |s.at|
    ensures p in Killed(s, e) <==> Doomed(s, e, p)
  {
    hide ListsOk, AslOk, ValuesOk, PriosOk, CountsOk, Under;
  }
}
