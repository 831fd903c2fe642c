/**
 * The nucleus as values: what the process table, the queues, the semaphore list and the
 * scheduler's variables hold, and what each kernel routine does to them.
 *
 * Lists are sequences here; the Kernel module shows that the pointer code computes
 * exactly these functions.
 */
module NucleusState {
  import opened Prelude

  /** The address of a semaphore: a process's own, the pseudo-clock's, or a device's. */
  datatype Key = User(addr: int) | Clock | Dev(line: nat, dev: nat)

  /**
   * Where a process control block is.  `Detached` is nowhere: in no list, neither running
   * nor yielded.  The kernel holds blocks there between unlinking and linking them; a live
   * block still there when the kernel is left can never run again.
   */
  datatype Place = Free | Low | High | Blocked(key: Key) | Running | Yielded | Detached

  datatype Mode = Active | Idle | Halted | Panicked | Hung

  /** What a handler asks exception_handler to do; -1 is the value no branch tests for. */
  datatype Verdict = Nothing | Renqueue | Continue | MinusOne | Resumed

  const PRIO_LOW := 0
  const PRIO_HIGH := 1
  const NULL := 0xFFFF_FFFF

  datatype Sys = Sys(
    at: seq<Place>,
    free: seq<nat>, low: seq<nat>, high: seq<nat>,
    asl: map<Key, seq<nat>>,
    parent: seq<Option<nat>>, kids: seq<seq<nat>>,
    born: seq<nat>, births: nat,           // order of creation, from 1; 0 for a block never allocated
    waitsP: seq<bool>,                     // what a blocked process was doing: P, or V
    prio: seq<int>, support: seq<int>, v0: seq<int>,
    time: seq<int>, upd: seq<int>, clock: int,
    sem: map<Key, int>,
    act: Option<nat>, yielded: Option<nat>,
    procs: int, sb: int,
    mode: Mode,
    base: nat, size: nat)                  // address of the table, size of an entry

  function SemVal(s: Sys, k: Key): int {
    if k in s.sem then s.sem[k] else 0
  }

  function Queue(s: Sys, k: Key): seq<nat> {
    if k in s.asl then s.asl[k] else []
  }

  /** A process id is the address of the process's table entry. */
  function Address(s: Sys, p: nat): nat {
    s.base + s.size * p
  }

  ghost predicate InTable(q: seq<nat>, n: nat) {
    forall i :: 0 <= i < |q| ==> q[i] < n
  }

  lemma PartInTable(part: seq<nat>, q: seq<nat>, n: nat)
    requires InTable(q, n) && forall x :: x in part ==> x in q
    ensures InTable(part, n)
  {
    forall i | 0 <= i < |part| ensures part[i] < n {
      assert part[i] in part;
    }
  }

  /** The table's columns have one entry a process, and nothing points outside it. */
  ghost predicate Shape(s: Sys) {
    var n := |s.at|;
    && |s.parent| == |s.kids| == |s.born| == |s.waitsP| == |s.prio| == |s.support| == |s.v0| == n
    && |s.time| == |s.upd| == n
    && InTable(s.free, n) && InTable(s.low, n) && InTable(s.high, n)
    && (forall k :: k in s.asl ==> s.asl[k] != [] && InTable(s.asl[k], n))
    && (s.act.Some? ==> s.act.value < n)
    && (s.yielded.Some? ==> s.yielded.value < n)
  }

  // ---------------------------------------------------------------- scheduler.c, asl.c

  /** enqueue_proc: a priority that is neither LOW nor HIGH is in no queue. */
  ghost function Enqueue(s: Sys, p: nat): (r: Sys)
    requires Shape(s) && p < |s.at|
    ensures Shape(r) && |r.at| == |s.at| && r.act == s.act
  {
    if s.prio[p] == PRIO_HIGH then s.(high := s.high + [p], at := s.at[p := High])
    else if s.prio[p] == PRIO_LOW then s.(low := s.low + [p], at := s.at[p := Low])
    else s
  }

  /** insert_blocked on the running process, and the counter that goes with it. */
  ghost function Block(s: Sys, k: Key, inP: bool): (r: Sys)
    requires Shape(s) && s.act.Some?
    ensures Shape(r) && |r.at| == |s.at| && r.act == s.act
  {
    var a := s.act.value;
    s.(asl := s.asl[k := Queue(s, k) + [a]], at := s.at[a := Blocked(k)],
        waitsP := s.waitsP[a := inP], sb := s.sb + 1)
  }

  /** The active semaphores when the queue of `k` is left as `q`: an empty one is not kept. */
  ghost function Shrunk(active: map<Key, seq<nat>>, k: Key, q: seq<nat>): map<Key, seq<nat>> {
    if q == [] then active - {k} else active[k := q]
  }

  /** remove_blocked: the oldest waiter leaves its queue, and the semaphore with it if it was alone. */
  ghost function Unqueue(s: Sys, k: Key): (r: Sys)
    requires Shape(s) && k in s.asl
    ensures Shape(r) && |r.at| == |s.at| && r.act == s.act
  {
    var q := s.asl[k];
    s.(asl := Shrunk(s.asl, k, q[1..]), at := s.at[q[0] := Detached], sb := s.sb - 1)
  }

  /** remove_blocked on a semaphore somebody waits for, then enqueue_proc. */
  ghost function Wake(s: Sys, k: Key): (r: Sys)
    requires Shape(s) && k in s.asl
    ensures Shape(r) && |r.at| == |s.at| && r.act == s.act
  {
    Enqueue(Unqueue(s, k), s.asl[k][0])
  }

  /** passeren. */
  ghost function P(s: Sys, k: Key): (r: (Sys, Verdict))
    requires Shape(s) && s.act.Some?
    ensures (r.1 == Nothing || r.1 == Renqueue) && Shape(r.0) && |r.0.at| == |s.at| && r.0.act == s.act
  {
    if SemVal(s, k) == 0 then (Block(s, k, true), Nothing)
    else if k in s.asl then (Wake(s, k), Renqueue)
    else (s.(sem := s.sem[k := 0]), Renqueue)
  }

  /** verhogen: the process woken, the caller when nobody was, or nobody. */
  ghost function V(s: Sys, k: Key): (r: (Sys, Option<nat>))
    requires Shape(s)
    ensures Shape(r.0) && (r.1.Some? ==> r.1.value < |s.at|) && |r.0.at| == |s.at| && r.0.act == s.act
  {
    if SemVal(s, k) == 1 then
      if s.act == None then (s, None) else (Block(s, k, false), None)
    else if k in s.asl then
      (Wake(s, k), Some(s.asl[k][0]))
    else (s.(sem := s.sem[k := 1]), s.act)
  }

  /** alloc_pcb and insert_child; `reg` is v0 in the state the process starts from. */
  ghost function Spawn(s: Sys, prio: int, support: int, reg: int): (r: Sys)
    requires Shape(s) && s.act.Some? && s.free != []
    ensures Shape(r) && |r.at| == |s.at| && r.act == s.act
  {
    var p, a := s.free[0], s.act.value;
    s.(free := s.free[1..], at := s.at[p := Detached],
       parent := s.parent[p := Some(a)], kids := s.kids[p := []][a := [p] + s.kids[p := []][a]],
       born := s.born[p := s.births], births := s.births + 1,
       prio := s.prio[p := prio], support := s.support[p := support], v0 := s.v0[p := reg],
       time := s.time[p := 0], upd := s.upd[p := 0], procs := s.procs + 1)
  }

  /** mk_proc; None when the table is full. */
  ghost function MkProc(s: Sys, prio: int, support: int, reg: int): (r: (Sys, Option<nat>))
    requires Shape(s) && s.act.Some?
    ensures Shape(r.0) && (r.1.Some? ==> r.1.value < |s.at|) && |r.0.at| == |s.at| && r.0.act == s.act
  {
    if s.free == [] then (s, None)
    else (Enqueue(Spawn(s, prio, support, reg), s.free[0]), Some(s.free[0]))
  }

  // ---------------------------------------------------------------- termination

  /** `p` and everything below it, children before parents, in the order they are freed. */
  ghost function PostOrder(kids: seq<seq<nat>>, born: seq<nat>, births: nat, p: nat): seq<nat>
    requires Ordered(kids, born, births) && p < |kids|
    decreases births - born[p], |kids[p]| + 1
  {
    PostOrders(kids, born, births, kids[p], born[p]) + [p]
  }

  ghost function PostOrders(kids: seq<seq<nat>>, born: seq<nat>, births: nat, cs: seq<nat>, above: nat): seq<nat>
    requires Ordered(kids, born, births) && above < births
    requires forall i :: 0 <= i < |cs| ==> cs[i] < |kids| && above < born[cs[i]]
    decreases births - above, |cs|
  {
    if cs == [] then []
    else
      PostOrder(kids, born, births, cs[0]) + PostOrders(kids, born, births, cs[1..], above)
  }

  /** Children were created after their parents, so the tree has no cycle. */
  ghost predicate Ordered(kids: seq<seq<nat>>, born: seq<nat>, births: nat) {
    && |kids| == |born|
    && (forall p :: 0 <= p < |born| ==> born[p] < births)
    && (forall p, i :: 0 <= p < |kids| && 0 <= i < |kids[p]| ==> kids[p][i] < |kids| && born[p] < born[kids[p][i]])
  }

  ghost function BlockedIn(at: seq<Place>, ks: seq<nat>): nat
    requires InTable(ks, |at|)
  {
    if ks == [] then 0
    else
      (if at[ks[0]].Blocked? then 1 else 0) + BlockedIn(at, ks[1..])
  }

  ghost function Freed(at: seq<Place>, K: set<nat>): (r: seq<Place>)
    ensures |r| == |at|
  {
    seq(|at|, p requires 0 <= p < |at| => if p in K then Free else at[p])
  }

  ghost function Orphaned(parent: seq<Option<nat>>, K: set<nat>): (r: seq<Option<nat>>)
    ensures |r| == |parent|
  {
    seq(|parent|, p requires 0 <= p < |parent| => if p in K then None else parent[p])
  }

  ghost function Pruned(kids: seq<seq<nat>>, K: set<nat>): (r: seq<seq<nat>>)
    ensures |r| == |kids|
  {
    seq(|kids|, p requires 0 <= p < |kids| => if p in K then [] else Without(kids[p], K))
  }

  ghost function Unblocked(asl: map<Key, seq<nat>>, K: set<nat>, n: nat): (r: map<Key, seq<nat>>)
    requires forall k :: k in asl ==> InTable(asl[k], n)
    ensures forall k :: k in r ==> r[k] != [] && InTable(r[k], n)
  {
    var r := map k | k in asl && Without(asl[k], K) != [] :: Without(asl[k], K);
    assert forall k :: k in r ==> InTable(r[k], n) by {
      forall k | k in r ensures InTable(r[k], n) {
        PartInTable(r[k], asl[k], n);
      }
    }
    r
  }

  /** The state once every process of `ks` was terminated, in that order. */
  ghost function Drop(s: Sys, ks: seq<nat>): (r: Sys)
    requires Shape(s) && InTable(ks, |s.at|)
    ensures Shape(r) && |r.at| == |s.at| && r.act == s.act
  {
    var K := Elems(ks);
    PartInTable(Reverse(ks), ks, |s.at|);
    PartInTable(Without(s.low, K), s.low, |s.at|);
    PartInTable(Without(s.high, K), s.high, |s.at|);
    s.(at := Freed(s.at, K), free := Reverse(ks) + s.free,
       low := Without(s.low, K), high := Without(s.high, K), asl := Unblocked(s.asl, K, |s.at|),
       parent := Orphaned(s.parent, K), kids := Pruned(s.kids, K),
       procs := s.procs - |ks|, sb := s.sb - BlockedIn(s.at, ks))
  }

  /** kill_parent_and_progeny. */
  ghost function Kill(s: Sys, p: nat): (r: Sys)
    requires Shape(s) && p < |s.at| && Ordered(s.kids, s.born, s.births)
    requires InTable(PostOrder(s.kids, s.born, s.births, p), |s.at|)
  {
    Drop(s, PostOrder(s.kids, s.born, s.births, p))
  }

  // ---------------------------------------------------------------- dispatch

  /** load_proc: a process that yielded goes back to its queue first. */
  ghost function Load(s: Sys, p: nat, elapsed: nat): (r: Sys)
    requires Shape(s) && p < |s.at|
    ensures Shape(r) && |r.at| == |s.at|
  {
    var s1 := Unyield(s);
    s1.(act := Some(p), at := s1.at[p := Running], clock := s1.clock + elapsed,
        upd := s1.upd[p := s1.clock + elapsed], mode := Active)
  }

  ghost function Unyield(s: Sys): (r: Sys)
    requires Shape(s)
    ensures Shape(r) && |r.at| == |s.at|
  {
    if s.yielded == None then s else Enqueue(s, s.yielded.value).(yielded := None)
  }

  /** scheduler_next. */
  ghost function SchedulerNext(s: Sys, elapsed: nat): (r: Sys)
    requires Shape(s)
    ensures Shape(r) && |r.at| == |s.at|
  {
    if s.high != [] then
      Load(s.(high := s.high[1..], at := s.at[s.high[0] := Detached]), s.high[0], elapsed)
    else if s.low != [] then
      Load(s.(low := s.low[1..], at := s.at[s.low[0] := Detached]), s.low[0], elapsed)
    else if s.procs == 0 then s.(mode := Halted)
    else if s.sb > 0 then Unyield(s).(act := None, mode := Idle)
    else s.(mode := Panicked)
  }

  /** The process the exception interrupted pays for everything since it was loaded. */
  ghost function Charge(s: Sys, elapsed: nat): (r: Sys)
    requires Shape(s)
    ensures Shape(r) && |r.at| == |s.at| && r.act == s.act
  {
    var now := s.clock + elapsed;
    if s.act == None then s.(clock := now)
    else
      var a := s.act.value;
      s.(clock := now, time := s.time[a := s.time[a] + (now - s.upd[a])], upd := s.upd[a := now])
  }

  /** What exception_handler leaves to scheduler_next when it does not resume the caller. */
  ghost function Released(s: Sys, v: Verdict, serving: nat): (r: Sys)
    requires Shape(s)
    ensures Shape(r) && |r.at| == |s.at| && r.act == s.act
  {
    var s1 := Charge(s, serving);
    if s.act == None then s1
    else
      var a := s.act.value;
      Release(if v == Renqueue then Enqueue(s1, a) else s1, a)
  }

  /** A process still marked running that nothing linked anywhere is nowhere. */
  ghost function Release(s: Sys, a: nat): (r: Sys)
    requires Shape(s) && a < |s.at|
    ensures Shape(r) && |r.at| == |s.at| && r.act == s.act
  {
    if s.at[a] == Running then s.(at := s.at[a := Detached]) else s
  }

  /** The end of exception_handler: charge, obey the verdict, dispatch. */
  ghost function Finish(s: Sys, v: Verdict, serving: nat, loading: nat): (r: Sys)
    requires Shape(s)
    ensures Shape(r) && |r.at| == |s.at|
  {
    if s.act.Some? && v == Continue then Load(Charge(s, serving), s.act.value, loading)
    else SchedulerNext(Released(s, v, serving), loading)
  }
}
