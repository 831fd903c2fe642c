/**
 * One passage through the kernel, from the exception to the next process, the idle wait,
 * the halt or the panic; and what holds after any number of them.
 */
module NucleusStep {
  import opened Prelude
  import opened NucleusState
  import opened NucleusInvariant
  import opened KillTree

  /** What makes the processor enter the kernel. */
  datatype Event =
    | CreateProcess(prio: int, support: int, reg: int)   // reg: v0 in the state handed over
    | TermProcess(target: Option<nat>)          // None: the caller
    | Passeren(addr: int)
    | Verhogen(addr: int)
    | DoIO(line: nat, dev: nat)
    | NullRequest                               // DOIO with a command address of 0 or NULL
    | GetTime
    | ClockWait
    | GetSupport
    | GetProcessId(ofParent: bool)
    | Yield
    | Trap                                      // page fault, fault, or a call passed up
    | SliceEnd                                  // processor local timer
    | Tick                                      // pseudo-clock
    | Device(dline: nat, ddev: nat, status: int)
    | Ignored                                   // an interrupt no handler acts on
    | WildInterrupt                             // a device bitmap with a bit past the last device
    | NoPendingLine
    | WaitReturns                               // WAIT came back without an exception

  predicate IsSyscall(e: Event) {
    e.CreateProcess? || e.TermProcess? || e.Passeren? || e.Verhogen? || e.DoIO? || e.NullRequest? ||
    e.GetTime? || e.ClockWait? || e.GetSupport? || e.GetProcessId? || e.Yield?
  }

  /** Between two passages: somebody runs, or the processor waits, or all is over. */
  ghost predicate Settled(s: Sys) {
    && Inv(s)
    && SemVal(s, Clock) == 0
    && (s.mode == Active ==> s.act.Some? && s.at[s.act.value] == Running && s.yielded == None)
    && (s.mode == Idle ==> s.act == None && s.yielded == None)
  }

  /** Which exceptions can occur: system calls need a running process, idling ends by interrupt. */
  ghost predicate Possible(s: Sys, e: Event) {
    && (s.mode == Active || s.mode == Idle)
    && (IsSyscall(e) || e.Trap? ==> s.mode == Active)
    && (e.WaitReturns? ==> s.mode == Idle)
    && (e.TermProcess? && e.target.Some? ==> e.target.value < |s.at| && Allocated(s, e.target.value))
  }

  /** The block was allocated at some time, whether or not it has been freed since. */
  predicate Allocated(s: Sys, p: nat)
    requires p < |s.at|
  {
    s.at[p] != Free || (p < |s.born| && s.born[p] > 0)
  }

  /** A device does not complete a second time while a process runs, and nobody terminates a freed block. */
  ghost predicate Tame(s: Sys, e: Event) {
    && (e.Device? ==> !(SemVal(s, Dev(e.dline, e.ddev)) == 1 && s.act.Some?))
    && !Hangs(s, e)
  }

  /**
   * NSYS2 on a block that has been freed, on which term_process never returns: see
   * Kernel.Nucleus.TerminateFree.
   */
  ghost predicate Hangs(s: Sys, e: Event) {
    e.TermProcess? && e.target.Some? && e.target.value < |s.at| && s.at[e.target.value] == Free
  }

  ghost function Running1(s: Sys): nat
    requires Settled(s) && s.mode == Active
    ensures Running1(s) < |s.at| && s.at[Running1(s)] == Running
  {
    s.act.value
  }

  ghost function KillProcess(s: Sys, p: nat): (r: Sys)
    requires Core(s) && p < |s.at| && s.at[p] != Free
    ensures Core(r) && |r.at| == |s.at| && r.act == s.act
  {
    SubtreeClosed(s, p);
    DropCore(s, PostOrder(s.kids, s.born, s.births, p));
    Kill(s, p)
  }

  /** passup_or_die: without a support structure the process and its progeny die. */
  ghost function PassUpOrDie(s: Sys): (r: (Sys, Verdict))
    requires Core(s) && (s.act.Some? ==> s.at[s.act.value] != Free)
    ensures Shape(r.0) && |r.0.at| == |s.at| && r.0.act == s.act
  {
    if s.act == None then (s, Nothing)
    else if s.support[s.act.value] == NULL then (KillProcess(s, s.act.value), Nothing)
    else (s, Resumed)
  }

  /** The loop of a pseudo-clock tick: V until the semaphore is 1. */
  ghost function ClockLoop(s: Sys): (r: Sys)
    requires Shape(s)
    ensures Shape(r) && |r.at| == |s.at| && r.act == s.act
    decreases |Queue(s, Clock)| + (if SemVal(s, Clock) == 1 then 0 else 1)
  {
    if SemVal(s, Clock) == 1 then s else ClockLoop(V(s, Clock).0)
  }

  ghost function ClockTick(s: Sys): (r: Sys)
    requires Shape(s)
    ensures Shape(r) && |r.at| == |s.at| && r.act == s.act
  {
    var r := ClockLoop(s);
    r.(sem := r.sem[Clock := 0])
  }

  /** A device completes: V on its semaphore, and the status for whoever V returns. */
  ghost function Complete(s: Sys, k: Key, status: int): (r: Sys)
    requires Shape(s)
    ensures Shape(r) && |r.at| == |s.at| && r.act == s.act
  {
    var (s1, p) := V(s, k);
    if p == None then s1 else s1.(v0 := s1.v0[p.value := status])
  }

  ghost function Panic(s: Sys): (r: (Sys, Verdict))
    requires Shape(s)
    ensures Shape(r.0) && |r.0.at| == |s.at| && r.0.act == s.act
  {
    (s.(mode := Panicked), Resumed)
  }

  ghost function Answer(s: Sys, value: int): (r: (Sys, Verdict))
    requires Shape(s) && s.act.Some?
    ensures Shape(r.0) && |r.0.at| == |s.at| && r.0.act == s.act
  {
    (s.(v0 := s.v0[s.act.value := value]), Continue)
  }

  function ProcessId(s: Sys, a: nat, ofParent: bool): int
    requires a < |s.parent|
  {
    if !ofParent then Address(s, a) else if s.parent[a].Some? then Address(s, s.parent[a].value) else 0
  }

  ghost function Yielding(s: Sys): (r: Sys)
    requires Shape(s) && s.act.Some?
    ensures Shape(r) && |r.at| == |s.at| && r.act == s.act
  {
    s.(yielded := s.act, at := s.at[s.act.value := Yielded])
  }

  /** NSYS2 on a block that has been freed. */
  ghost function Hang(s: Sys): (r: (Sys, Verdict))
    requires Shape(s)
    ensures Shape(r.0) && |r.0.at| == |s.at| && r.0.act == s.act
  {
    (s.(procs := s.procs - 1, mode := Hung), Resumed)
  }

  /** NSYS2: the caller goes on if it is still alive. */
  ghost function Terminate(s: Sys, p: nat): (r: (Sys, Verdict))
    requires Core(s) && s.act.Some? && p < |s.at| && s.at[p] != Free
    ensures Shape(r.0) && |r.0.at| == |s.at| && r.0.act == s.act
  {
    var s1 := KillProcess(s, p);
    (s1, if s1.at[s1.act.value] != Free then Renqueue else Nothing)
  }

  function Victim(s: Sys, e: Event): nat {
    if e.TermProcess? && e.target.Some? then e.target.value else if s.act.Some? then s.act.value else 0
  }

  /** handle_syscall, called by the running process. */
  ghost function HandleSyscall(s: Sys, e: Event): (r: (Sys, Verdict))
    requires Settled(s) && Possible(s, e) && IsSyscall(e)
    ensures Shape(r.0) && |r.0.at| == |s.at| && r.0.act == s.act
  {
    match e
    case CreateProcess(prio, support, reg) =>
      var (s1, p) := MkProc(s, prio, support, reg);
      if p == None then (s1, MinusOne) else Answer(s1, Address(s1, p.value))
    case TermProcess(target) => if Hangs(s, e) then Hang(s) else Terminate(s, Victim(s, e))
    case Passeren(addr) =>
      if SemVal(s, User(addr)) != 0 && SemVal(s, User(addr)) != 1 then Panic(s) else P(s, User(addr))
    case Verhogen(addr) =>
      if SemVal(s, User(addr)) != 0 && SemVal(s, User(addr)) != 1 then Panic(s)
      else
        var (s1, p) := V(s, User(addr));
        (s1, if p == None then Nothing else Renqueue)
    case DoIO(line, dev) => (P(s, Dev(line, dev)).0, Nothing)
    case NullRequest => Panic(s)
    case GetTime => Answer(s, s.time[s.act.value])
    case ClockWait => P(s, Clock)
    case GetSupport => Answer(s, s.support[s.act.value])
    case GetProcessId(ofParent) =>
      Answer(s, ProcessId(s, s.act.value, ofParent))
    case Yield => (Yielding(s), Nothing)
  }

  /** The handler an exception is given to, up to its verdict. */
  ghost function Handle(s: Sys, e: Event): (r: (Sys, Verdict))
    requires Settled(s) && Possible(s, e)
    ensures Shape(r.0) && |r.0.at| == |s.at| && r.0.act == s.act
  {
    if IsSyscall(e) then HandleSyscall(s, e)
    else match e
      case Trap => PassUpOrDie(s)
      case SliceEnd => (s, Renqueue)
      case Tick => (ClockTick(s), Continue)
      case Device(line, dev, status) => (Complete(s, Dev(line, dev), status), Continue)
      case Ignored => (s, Continue)
      case WildInterrupt => Panic(s)
      case NoPendingLine => (s, Renqueue)
      case WaitReturns => (s, Nothing)
  }

  /** The semaphore a P, a V, a request or a completion is about. */
  function KeyOf(e: Event): Key {
    match e
    case Passeren(addr) => User(addr)
    case Verhogen(addr) => User(addr)
    case DoIO(line, dev) => Dev(line, dev)
    case Device(line, dev, _) => Dev(line, dev)
    case _ => Clock
  }

  predicate BinaryValue(s: Sys, k: Key) {
    SemVal(s, k) == 0 || SemVal(s, k) == 1
  }

  /** Exceptions that are a P on a semaphore, and those that are a V. */
  predicate DoesP(s: Sys, e: Event) {
    (e.Passeren? && BinaryValue(s, KeyOf(e))) || e.DoIO? || e.ClockWait?
  }

  predicate DoesV(s: Sys, e: Event) {
    (e.Verhogen? && BinaryValue(s, KeyOf(e))) || e.Device?
  }

  /** Exceptions that terminate somebody, and whom. */
  ghost predicate Kills(s: Sys, e: Event)
    requires s.act.Some? ==> s.act.value < |s.support|
  {
    (e.TermProcess? && !Hangs(s, e)) || (e.Trap? && s.act.Some? && s.support[s.act.value] == NULL)
  }

  /**
   * Every handler is a P, a V, a tick, a creation, a termination or a yield, or leaves all but registers and mode
   * alone.
   */
  lemma HandleIs(s: Sys, e: Event)
    requires Settled(s) && Possible(s, e)
    ensures var r := Handle(s, e).0;
            && Shape(s) && Core(s)
            && (DoesP(s, e) ==> s.act.Some? && r == P(s, KeyOf(e)).0)
            && (DoesV(s, e) ==> r == V(s, KeyOf(e)).0.(v0 := r.v0))
            && (e.Tick? ==> r == ClockTick(s))
            && (e.CreateProcess? ==> s.act.Some? && r == MkProc(s, e.prio, e.support, e.reg).0.(v0 := r.v0))
            && (Kills(s, e) ==>
                  Victim(s, e) < |s.at| && s.at[Victim(s, e)] != Free && r == KillProcess(s, Victim(s, e)))
            && (e.Yield? ==> s.act.Some? && r == s.(yielded := s.act, at := s.at[s.act.value := Yielded]))
            && (Hangs(s, e) ==> r == s.(procs := s.procs - 1, mode := Hung))
            && (!DoesP(s, e) && !DoesV(s, e) && !e.Tick? && !e.CreateProcess? && !Kills(s, e) && !Hangs(s, e)
                && !e.Yield? ==>
                  r == s.(v0 := r.v0, mode := r.mode))
  {
    hide P, V, ClockTick, MkProc, KillProcess, ListsOk, AslOk, ValuesOk, TreeOk, PriosOk, CountsOk;
    if IsSyscall(e) {
      SyscallIs(s, e);
    }
  }

  /** What the handler asks for afterwards. */
  lemma VerdictIs(s: Sys, e: Event)
    requires Settled(s) && Possible(s, e)
    ensures var (r, v) := Handle(s, e);
            && (IsSyscall(e) ==> s.act.Some?)
            && ((e.Passeren? && DoesP(s, e)) || e.ClockWait? ==> v == P(s, KeyOf(e)).1)
            && (e.Verhogen? && DoesV(s, e) ==> v == if V(s, KeyOf(e)).1 == None then Nothing else Renqueue)
            && ((e.Passeren? || e.Verhogen?) && !BinaryValue(s, KeyOf(e)) ==> v == Resumed)
            && (e.DoIO? || e.Yield? || e.WaitReturns? ==> v == Nothing)
            && (e.CreateProcess? ==> v == if s.free == [] then MinusOne else Continue)
            && (e.NullRequest? || e.WildInterrupt? || Hangs(s, e) ==> v == Resumed)
            && (e.TermProcess? && Kills(s, e) ==>
                  s.act.value < |s.at| && v == if r.at[s.act.value] != Free then Renqueue else Nothing)
            && (e.Trap? ==> v == if s.act == None || Kills(s, e) then Nothing else Resumed)
            && (e.Tick? || e.Device? || e.Ignored? || e.GetTime? || e.GetSupport? || e.GetProcessId? ==> v == Continue)
            && (e.SliceEnd? || e.NoPendingLine? ==> v == Renqueue)
  {
    hide P, V, ClockTick, KillProcess, HandleSyscall, ListsOk, AslOk, ValuesOk, TreeOk, PriosOk, CountsOk;
    if IsSyscall(e) { SyscallVerdict(s, e); }
  }

  lemma SyscallVerdict(s: Sys, e: Event)
    requires Settled(s) && Possible(s, e) && IsSyscall(e)
    ensures var (r, v) := HandleSyscall(s, e);
            && s.act.Some?
            && ((e.Passeren? && DoesP(s, e)) || e.ClockWait? ==> v == P(s, KeyOf(e)).1)
            && (e.Verhogen? && DoesV(s, e) ==> v == if V(s, KeyOf(e)).1 == None then Nothing else Renqueue)
            && ((e.Passeren? || e.Verhogen?) && !BinaryValue(s, KeyOf(e)) ==> v == Resumed)
            && (e.DoIO? || e.Yield? ==> v == Nothing)
            && (e.CreateProcess? ==> v == if s.free == [] then MinusOne else Continue)
            && (e.NullRequest? || Hangs(s, e) ==> v == Resumed)
            && (e.TermProcess? && Kills(s, e) ==>
                  s.act.value < |s.at| && v == if r.at[s.act.value] != Free then Renqueue else Nothing)
            && (e.GetTime? || e.GetSupport? || e.GetProcessId? ==> v == Continue)
  {
    hide P, V, KillProcess, ListsOk, AslOk, ValuesOk, TreeOk, PriosOk, CountsOk;
  }

  lemma SyscallIs(s: Sys, e: Event)
    requires Settled(s) && Possible(s, e) && IsSyscall(e)
    ensures var r := HandleSyscall(s, e).0;
            && s.act.Some?
            && (DoesP(s, e) ==> r == P(s, KeyOf(e)).0)
            && (DoesV(s, e) ==> r == V(s, KeyOf(e)).0)
            && (e.CreateProcess? ==> r == MkProc(s, e.prio, e.support, e.reg).0.(v0 := r.v0))
            && (Kills(s, e) ==>
                  Victim(s, e) < |s.at| && s.at[Victim(s, e)] != Free && r == KillProcess(s, Victim(s, e)))
            && (Hangs(s, e) ==> r == s.(procs := s.procs - 1, mode := Hung))
            && (e.Yield? ==> r == s.(yielded := s.act, at := s.at[s.act.value := Yielded]))
            && (!DoesP(s, e) && !DoesV(s, e) && !e.CreateProcess? && !e.TermProcess? && !e.Yield? ==>
                  r == s.(v0 := r.v0, mode := r.mode))
  {
    hide P, V, MkProc, KillProcess, ListsOk, AslOk, ValuesOk, TreeOk, PriosOk, CountsOk;
  }

  /** exception_handler, and WAIT's return into scheduler_next, which charges nobody. */
  ghost function Step(s: Sys, e: Event, serving: nat, loading: nat): (r: Sys)
    requires Settled(s) && Possible(s, e)
    ensures |r.at| == |s.at|
  {
    var (s1, v) := Handle(s, e);
    if v == Resumed then s1
    else if e.WaitReturns? then SchedulerNext(s1, loading)
    else Finish(s1, v, serving, loading)
  }

  // ---------------------------------------------------------------- preservation

  /** What a handler leaves for exception_handler to finish. */
  ghost predicate Handled(s: Sys, v: Verdict) {
    && Inv(s)
    && SemVal(s, Clock) == 0
    && (v == Continue || v == Renqueue ==> s.yielded == None && (s.act.Some? ==> s.at[s.act.value] == Running))
    && (s.yielded.Some? ==> s.yielded == s.act)
    && (s.mode == Active || s.mode == Idle)
  }

  lemma WakeInv(s: Sys, k: Key)
    requires Inv(s) && k in s.asl
    ensures Inv(Wake(s, k)) && s.at[s.asl[k][0]] == Blocked(k)
  {
    hide ListsOk, AslOk, ValuesOk, TreeOk, PriosOk, CountsOk;
    UnqueueCore(s, k);
    WakeCore(s, k);
  }

  lemma WakeApart(s: Sys, k: Key)
    requires Shape(s) && k in s.asl
    ensures var r := Wake(s, k); r.sem == s.sem && r.act == s.act && r.yielded == s.yielded && r.mode == s.mode
    ensures forall q :: 0 <= q < |s.at| && q != s.asl[k][0] ==> Wake(s, k).at[q] == s.at[q]
  {
  }

  lemma PHandled(s: Sys, k: Key)
    requires Inv(s) && SemVal(s, Clock) == 0 && s.mode == Active
    requires s.act.Some? && s.at[s.act.value] == Running && s.yielded == None
    ensures Handled(P(s, k).0, P(s, k).1) && SemVal(P(s, k).0, Clock) == 0
    ensures Handled(P(s, k).0, Nothing) && P(s, k).1 != Resumed
  {
    hide ListsOk, AslOk, ValuesOk, TreeOk, PriosOk, CountsOk;
    if SemVal(s, k) == 0 {
      BlockCore(s, k, true);
    } else if k in s.asl {
      WakeInv(s, k);
    } else {
      SetSemCore(s, k, 0);
    }
  }

  lemma VInv(s: Sys, k: Key)
    requires Inv(s) && (s.act.Some? ==> s.at[s.act.value] == Running)
    ensures Inv(V(s, k).0)
    ensures V(s, k).0.yielded == s.yielded && V(s, k).0.act == s.act && V(s, k).0.mode == s.mode
    ensures forall j :: j != k ==> SemVal(V(s, k).0, j) == SemVal(s, j)
    ensures s.act.Some? && !(SemVal(s, k) == 1) ==> V(s, k).0.at[s.act.value] == Running
    ensures SemVal(s, k) != 1 && k !in s.asl ==> SemVal(V(s, k).0, k) == 1 && k !in V(s, k).0.asl
    ensures SemVal(s, k) != 1 && k in s.asl ==> SemVal(V(s, k).0, k) == SemVal(s, k)
  {
    hide ListsOk, AslOk, ValuesOk, TreeOk, PriosOk, CountsOk;
    if SemVal(s, k) == 1 {
      if s.act.Some? {
        BlockCore(s, k, false);
      }
    } else if k in s.asl {
      WakeInv(s, k);
      WakeApart(s, k);
    } else {
      SetSemCore(s, k, 1);
    }
  }

  /** Terminating a live process keeps everything but, perhaps, the caller's life. */
  lemma KillInv(s: Sys, p: nat)
    requires Inv(s) && p < |s.at| && s.at[p] != Free && s.yielded == None
    ensures Inv(KillProcess(s, p))
    ensures forall q :: 0 <= q < |s.at| ==> KillProcess(s, p).at[q] == s.at[q] || KillProcess(s, p).at[q] == Free
  {
    hide ListsOk, AslOk, ValuesOk, PriosOk, CountsOk, Unblocked, Pruned, Orphaned, Without, Reverse, BlockedIn;
    SubtreeClosed(s, p);
    DropCore(s, PostOrder(s.kids, s.born, s.births, p));
  }

  lemma {:induction false} ClockLoopInv(s: Sys)
    requires Inv(s) && (s.act.Some? ==> s.at[s.act.value] == Running) && s.yielded == None
    requires SemVal(s, Clock) == 0 || (SemVal(s, Clock) == 1 && Clock !in s.asl)
    ensures var r := ClockLoop(s);
            && Inv(r) && (r.act.Some? ==> r.at[r.act.value] == Running) && r.yielded == None
            && r.mode == s.mode && SemVal(r, Clock) == 1 && Clock !in r.asl
    decreases |Queue(s, Clock)| + (if SemVal(s, Clock) == 1 then 0 else 1)
  {
    hide ListsOk, AslOk, ValuesOk, TreeOk, PriosOk, CountsOk;
    if SemVal(s, Clock) != 1 {
      VInv(s, Clock);
      ClockLoopInv(V(s, Clock).0);
    }
  }

  lemma Spawned(s: Sys, prio: int, support: int, reg: int)
    requires Settled(s) && s.mode == Active && s.free != []
    requires s.at[s.free[0]] == Free && Core(Spawn(s, prio, support, reg))
    ensures var s1 := Enqueue(Spawn(s, prio, support, reg), s.free[0]);
            Handled(Answer(s1, Address(s1, s.free[0])).0, Continue)
  {
    hide ListsOk, AslOk, ValuesOk, TreeOk, PriosOk, CountsOk;
    var s1 := Enqueue(Spawn(s, prio, support, reg), s.free[0]);
    EnqueueCore(Spawn(s, prio, support, reg), s.free[0]);
    SameCore(s1, Answer(s1, Address(s1, s.free[0])).0);
  }

  lemma CreateHandled(s: Sys, prio: int, support: int, reg: int)
    requires Settled(s) && s.mode == Active
    ensures var (r, v) := Handle(s, CreateProcess(prio, support, reg)); Handled(r, v)
  {
    hide ListsOk, AslOk, ValuesOk, TreeOk, PriosOk, CountsOk;
    if s.free != [] {
      SpawnCore(s, prio, support, reg);
      Spawned(s, prio, support, reg);
    }
  }

  lemma AnswerHandled(s: Sys, value: int)
    requires Settled(s) && s.mode == Active
    ensures Handled(Answer(s, value).0, Continue)
  {
    hide ListsOk, AslOk, ValuesOk, TreeOk, PriosOk, CountsOk;
    SameCore(s, Answer(s, value).0);
  }

  lemma YieldHandled(s: Sys)
    requires Settled(s) && s.mode == Active
    ensures Handled(Handle(s, Yield).0, Nothing)
  {
    hide ListsOk, AslOk, ValuesOk, TreeOk, PriosOk, CountsOk;
    PrioBinary(s, s.act.value);
    RelabelCore(s, s.act.value, Yielded);
    var s1 := s.(at := s.at[s.act.value := Yielded]);
    SameCore(s1, Handle(s, Yield).0);
  }

  lemma PanicSettled(s: Sys)
    requires Settled(s)
    ensures Settled(Panic(s).0)
  {
    hide ListsOk, AslOk, ValuesOk, TreeOk, PriosOk, CountsOk;
    SameCore(s, Panic(s).0);
  }

  lemma TickHandled(s: Sys)
    requires Settled(s) && (s.mode == Active || s.mode == Idle)
    ensures Handled(ClockTick(s), Continue)
  {
    hide ListsOk, AslOk, ValuesOk, TreeOk, PriosOk, CountsOk;
    ClockLoopInv(s);
    SetSemCore(ClockLoop(s), Clock, 0);
  }

  lemma CompleteHandled(s: Sys, k: Key, status: int)
    requires Settled(s) && (s.mode == Active || s.mode == Idle) && k != Clock
    requires !(SemVal(s, k) == 1 && s.act.Some?)
    ensures Handled(Complete(s, k, status), Continue)
  {
    hide ListsOk, AslOk, ValuesOk, TreeOk, PriosOk, CountsOk;
    VInv(s, k);
    SameCore(V(s, k).0, Complete(s, k, status));
  }

  lemma TermHandled(s: Sys, p: nat)
    requires Settled(s) && s.mode == Active && p < |s.at| && s.at[p] != Free
    ensures var r := KillProcess(s, p);
            r.act == s.act && Handled(r, if r.at[s.act.value] != Free then Renqueue else Nothing)
  {
    hide ListsOk, AslOk, ValuesOk, TreeOk, PriosOk, CountsOk;
    KillInv(s, p);
  }

  lemma SyscallHandled(s: Sys, e: Event)
    requires Settled(s) && Possible(s, e) && Tame(s, e) && IsSyscall(e)
    ensures var (r, v) := Handle(s, e);
            if v == Resumed then Settled(r) else Handled(r, v)
  {
    hide ListsOk, AslOk, ValuesOk, TreeOk, PriosOk, CountsOk, P, V, MkProc, KillProcess;
    match e
    case CreateProcess(prio, support, reg) => CreateHandled(s, prio, support, reg);
    case TermProcess(target) => TermHandled(s, if target.Some? then target.value else s.act.value);
    case Passeren(addr) =>
      PanicSettled(s);
      PHandled(s, User(addr));
    case Verhogen(addr) =>
      PanicSettled(s);
      if BinaryValue(s, User(addr)) { FreeHandled(s, addr); }
    case DoIO(line, dev) => PHandled(s, Dev(line, dev));
    case NullRequest => PanicSettled(s);
    case GetTime => AnswerHandled(s, s.time[s.act.value]);
    case ClockWait => PHandled(s, Clock);
    case GetSupport => AnswerHandled(s, s.support[s.act.value]);
    case GetProcessId(_) => AnswerHandled(s, Handle(s, e).0.v0[s.act.value]);
    case Yield => YieldHandled(s);
  }

  lemma FreeHandled(s: Sys, addr: int)
    requires Settled(s) && s.mode == Active && BinaryValue(s, User(addr))
    ensures var (r, p) := V(s, User(addr)); Handled(r, if p == None then Nothing else Renqueue)
  {
    hide ListsOk, AslOk, ValuesOk, TreeOk, PriosOk, CountsOk;
    VInv(s, User(addr));
  }

  lemma HandleHandled(s: Sys, e: Event)
    requires Settled(s) && Possible(s, e) && Tame(s, e)
    ensures var (r, v) := Handle(s, e);
            if v == Resumed then Settled(r) else Handled(r, v)
  {
    hide ListsOk, AslOk, ValuesOk, TreeOk, PriosOk, CountsOk, P, V, MkProc, HandleSyscall, ClockTick, Complete;
    if IsSyscall(e) {
      SyscallHandled(s, e);
    } else {
      match e
      case Trap => KillInv(s, s.act.value);
      case Tick => TickHandled(s);
      case Device(line, dev, status) => CompleteHandled(s, Dev(line, dev), status);
      case WildInterrupt => PanicSettled(s);
      case _ =>
    }
  }

  // ---------------------------------------------------------------- dispatch

  lemma UnyieldCore(s: Sys)
    requires Core(s) && (s.yielded.Some? ==> s.at[s.yielded.value] == Yielded)
    ensures Core(Unyield(s))
    ensures s.yielded == None ==> Unyield(s) == s
    ensures s.yielded.Some? ==>
              Unyield(s).at == s.at[s.yielded.value := Low] || Unyield(s).at == s.at[s.yielded.value := High]
    ensures Unyield(s).sem == s.sem && Unyield(s).yielded == None
  {
    if s.yielded.Some? {
      PrioBinary(s, s.yielded.value);
      EnqueueCore(s, s.yielded.value);
    }
  }

  /** What load_proc leaves alone and what it sets. */
  lemma LoadFields(s: Sys, p: nat, elapsed: nat)
    requires Shape(s) && p < |s.at|
    ensures var r := Load(s, p, elapsed);
            && r.act == Some(p) && r.mode == Active && r.yielded == None
            && r.clock == s.clock + elapsed && r.upd == s.upd[p := s.clock + elapsed] && r.time == s.time
            && r.asl == s.asl && r.sem == s.sem && r.free == s.free && r.v0 == s.v0
    ensures Load(s, p, elapsed).at == Unyield(s).at[p := Running]
  {
    hide Shape;
  }

  /** Nobody is marked running, and only `yielded` is marked yielded. */
  ghost predicate Quiet(s: Sys) {
    forall p :: 0 <= p < |s.at| ==> s.at[p] != Running && (s.at[p] == Yielded <==> s.yielded == Some(p))
  }

  lemma LoadCore(s: Sys, p: nat, elapsed: nat)
    requires Core(s) && p < |s.at| && Loose(s.at[p])
    requires s.prio[p] == PRIO_LOW || s.prio[p] == PRIO_HIGH
    requires s.yielded.Some? ==> s.at[s.yielded.value] == Yielded && s.yielded != Some(p)
    ensures Core(Load(s, p, elapsed))
  {
    hide ListsOk, AslOk, ValuesOk, TreeOk, PriosOk, CountsOk;
    UnyieldCore(s);
    var s1 := Unyield(s);
    RelabelCore(s1, p, Running);
    SameCore(s1.(at := s1.at[p := Running]), Load(s, p, elapsed));
  }

  lemma LoadSettles(s: Sys, p: nat, elapsed: nat)
    requires Core(s) && SemVal(s, Clock) == 0 && p < |s.at|
    requires s.at[p] == Detached || s.at[p] == Running
    requires s.prio[p] == PRIO_LOW || s.prio[p] == PRIO_HIGH
    requires forall q :: 0 <= q < |s.at| && q != p ==>
               s.at[q] != Running && (s.at[q] == Yielded <==> s.yielded == Some(q))
    requires s.yielded != Some(p)
    ensures Settled(Load(s, p, elapsed)) && Load(s, p, elapsed).mode == Active
  {
    hide ListsOk, AslOk, ValuesOk, TreeOk, PriosOk, CountsOk, Unyield;
    LoadCore(s, p, elapsed);
    UnyieldCore(s);
  }

  ghost function PopHigh(s: Sys): (r: Sys)
    requires Shape(s) && s.high != []
    ensures Shape(r)
  {
    s.(high := s.high[1..], at := s.at[s.high[0] := Detached])
  }

  ghost function PopLow(s: Sys): (r: Sys)
    requires Shape(s) && s.low != []
    ensures Shape(r)
  {
    s.(low := s.low[1..], at := s.at[s.low[0] := Detached])
  }

  lemma PopCore(s: Sys)
    requires Core(s)
    ensures s.high != [] ==> s.at[s.high[0]] == High && Core(PopHigh(s))
    ensures s.low != [] ==> s.at[s.low[0]] == Low && Core(PopLow(s))
  {
    hide ListsOk, AslOk, ValuesOk, TreeOk, PriosOk, CountsOk, PopHigh, PopLow;
    if s.high != [] { PopHighCore(s); }
    if s.low != [] { PopLowCore(s); }
  }

  lemma PopHighCore(s: Sys)
    requires Core(s) && s.high != []
    ensures s.at[s.high[0]] == High && Core(PopHigh(s))
  {
    var p := s.high[0];
    assert p in s.high;
    HoldsTail(s.high, s.at, High, Detached);
    HoldsOther(s.low, s.at, Low, p, Detached);
    PopRest(s, p, PopHigh(s));
    hide Holds, ValuesOk, TreeOk, PriosOk, CountsOk, Shape, AslOk;
  }

  lemma PopLowCore(s: Sys)
    requires Core(s) && s.low != []
    ensures s.at[s.low[0]] == Low && Core(PopLow(s))
  {
    var p := s.low[0];
    assert p in s.low;
    HoldsTail(s.low, s.at, Low, Detached);
    HoldsOther(s.high, s.at, High, p, Detached);
    PopRest(s, p, PopLow(s));
    hide Holds, ValuesOk, TreeOk, PriosOk, CountsOk, Shape, AslOk;
  }

  /** A block out of a ready queue, but for the two queues themselves. */
  lemma PopRest(s: Sys, p: nat, r: Sys)
    requires Core(s) && Shape(r) && p < |s.at| && (s.at[p] == Low || s.at[p] == High)
    requires r == s.(low := r.low, high := r.high, at := s.at[p := Detached])
    ensures Holds(r.free, r.at, Free) && AslOk(r) && ValuesOk(r) && TreeOk(r) && PriosOk(r) && CountsOk(r)
  {
    CountsMoved(s.at, p, Detached);
    HoldsOther(s.free, s.at, Free, p, Detached);
    forall k | k in s.asl ensures Holds(s.asl[k], s.at[p := Detached], Blocked(k)) {
      HoldsOther(s.asl[k], s.at, Blocked(k), p, Detached);
    }
    TreeApart(s, r);
    hide TreeOk, Holds;
  }

  lemma IdleSettles(s: Sys)
    requires Core(s) && Quiet(s) && SemVal(s, Clock) == 0
    ensures Settled(Unyield(s).(act := None, mode := Idle))
  {
    hide ListsOk, AslOk, ValuesOk, TreeOk, PriosOk, CountsOk, Unyield;
    UnyieldCore(s);
    SameCore(Unyield(s), Unyield(s).(act := None, mode := Idle));
  }

  /** Dispatch moves a block only from a ready queue to the processor, or back to a ready queue. */
  ghost predicate Dealt(x: Place, y: Place) {
    x == y || ((x == Low || x == High) && y == Running) || (x == Yielded && (y == Low || y == High))
  }

  lemma LoadDeals(s: Sys, p: nat, elapsed: nat, q: nat)
    requires Core(s) && Quiet(s) && p < |s.at| && s.at[p] == Detached && q < |s.at|
    ensures if q == p then Load(s, p, elapsed).at[q] == Running else Dealt(s.at[q], Load(s, p, elapsed).at[q])
  {
    hide ListsOk, AslOk, ValuesOk, TreeOk, PriosOk, CountsOk;
    UnyieldCore(s);
    LoadFields(s, p, elapsed);
    hide Load, Unyield;
  }

  lemma SchedulerDeals(s: Sys, elapsed: nat, q: nat)
    requires Core(s) && Quiet(s) && q < |s.at|
    ensures Dealt(s.at[q], SchedulerNext(s, elapsed).at[q])
  {
    hide ListsOk, AslOk, ValuesOk, TreeOk, PriosOk, CountsOk;
    PopCore(s);
    if s.high != [] {
      LoadDeals(PopHigh(s), s.high[0], elapsed, q);
    } else if s.low != [] {
      LoadDeals(PopLow(s), s.low[0], elapsed, q);
    } else {
      UnyieldCore(s);
    }
    hide Load, Unyield, Shape;
  }

  lemma SchedulerSettles(s: Sys, elapsed: nat)
    requires Core(s) && Quiet(s) && SemVal(s, Clock) == 0
    ensures Settled(SchedulerNext(s, elapsed))
  {
    hide ListsOk, AslOk, ValuesOk, TreeOk, PriosOk, CountsOk;
    PopCore(s);
    if s.high != [] {
      PrioBinary(s, s.high[0]);
      LoadSettles(PopHigh(s), s.high[0], elapsed);
    } else if s.low != [] {
      PrioBinary(s, s.low[0]);
      LoadSettles(PopLow(s), s.low[0], elapsed);
    } else if s.procs != 0 && s.sb > 0 {
      IdleSettles(s);
    } else {
      SameCore(s, SchedulerNext(s, elapsed));
    }
  }

  /** Where the caller ends up when it is not resumed. */
  ghost function Parked(s: Sys, v: Verdict, a: nat): Place
    requires Shape(s) && a < |s.at|
  {
    if s.at[a] != Running then s.at[a]
    else if v != Renqueue then Detached
    else if s.prio[a] == PRIO_HIGH then High else Low
  }

  /** When the caller is not resumed, nobody is running any more. */
  lemma ReleasedQuiet(s: Sys, v: Verdict, serving: nat)
    requires Handled(s, v) && (s.act == None || v != Continue)
    ensures var r := Released(s, v, serving);
            && Core(r) && Quiet(r) && r.sem == s.sem && r.yielded == s.yielded && r.mode == s.mode
            && (forall p :: 0 <= p < |s.at| && s.act != Some(p) ==> r.at[p] == s.at[p])
            && (s.act.Some? ==> r.at[s.act.value] == Parked(s, v, s.act.value))
  {
    hide ListsOk, AslOk, ValuesOk, TreeOk, PriosOk, CountsOk;
    var s1 := Charge(s, serving);
    SameCore(s, s1);
    if s.act.Some? {
      var a := s.act.value;
      if v == Renqueue {
        PrioBinary(s1, a);
        EnqueueCore(s1, a);
      } else if s1.at[a] == Running {
        RelabelCore(s1, a, Detached);
      }
    }
  }

  lemma FinishSettles(s: Sys, v: Verdict, serving: nat, loading: nat)
    requires Handled(s, v)
    ensures Settled(Finish(s, v, serving, loading))
  {
    hide ListsOk, AslOk, ValuesOk, TreeOk, PriosOk, CountsOk;
    if s.act.Some? && v == Continue {
      var s1 := Charge(s, serving);
      SameCore(s, s1);
      PrioBinary(s1, s.act.value);
      LoadSettles(s1, s.act.value, loading);
    } else {
      ReleasedQuiet(s, v, serving);
      hide Released;
      SchedulerSettles(Released(s, v, serving), loading);
    }
  }

  lemma WaitSettles(s: Sys, loading: nat)
    requires Settled(s) && Possible(s, WaitReturns)
    ensures Handle(s, WaitReturns).0 == s && Settled(SchedulerNext(s, loading))
  {
    hide ListsOk, AslOk, ValuesOk, TreeOk, PriosOk, CountsOk, SchedulerNext, HandleSyscall;
    SchedulerSettles(s, loading);
  }

  /** One passage through the kernel keeps everything. */
  lemma StepSettles(s: Sys, e: Event, serving: nat, loading: nat)
    requires Settled(s) && Possible(s, e) && Tame(s, e)
    ensures Settled(Step(s, e, serving, loading))
  {
    hide Settled, Handled, Possible, Tame, Handle, SchedulerNext, Finish;
    HandleHandled(s, e);
    var (s1, v) := Handle(s, e);
    if v != Resumed {
      if e.WaitReturns? {
        WaitSettles(s, loading);
      } else {
        FinishSettles(s1, v, serving, loading);
      }
    }
  }
}
