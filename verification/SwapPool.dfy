/**
 * The swap pool's mutual exclusion, from the nucleus to the pager: processes that call P and V on sp_sem in turn, as
 * tlb_exc_handler does, enter and leave the pool one at a time, and the protocol's guards on Lock and Unlock say the
 * same.
 */
module SwapPool {
  import opened Prelude
  import opened NucleusState
  import opened NucleusInvariant
  import opened NucleusStep
  import opened NucleusRuns
  import opened NucleusTheorems
  import opened Semaphores
  import opened SemaphoreQueues
  import Pool = PagerState
  import Paging = PagerTheorems
  import PagerInvariant

  datatype PoolStep = Enter(p: nat) | Leave(p: nat)

  /** Whoever enters finds the pool empty, and whoever leaves was inside. */
  ghost predicate Exclusive(holder: Option<nat>, steps: seq<PoolStep>)
    decreases |steps|
  {
    steps == [] ||
    match steps[0]
    case Enter(p) => holder == None && Exclusive(Some(p), steps[1..])
    case Leave(p) => holder == Some(p) && Exclusive(None, steps[1..])
  }

  /** Who is inside after the steps. */
  function HolderAfter(holder: Option<nat>, steps: seq<PoolStep>): Option<nat>
    decreases |steps|
  {
    if steps == [] then holder
    else HolderAfter(if steps[0].Enter? then Some(steps[0].p) else None, steps[1..])
  }

  lemma {:induction false} ExclusiveJoin(holder: Option<nat>, a: seq<PoolStep>, b: seq<PoolStep>)
    requires Exclusive(holder, a) && Exclusive(HolderAfter(holder, a), b)
    ensures Exclusive(holder, a + b)
    decreases |a|
  {
    if a == [] {
      assert a + b == b;
    } else {
      assert (a + b)[0] == a[0] && (a + b)[1..] == a[1..] + b;
      ExclusiveJoin(if a[0].Enter? then Some(a[0].p) else None, a[1..], b);
    }
  }

  // ---------------------------------------------------------------- the nucleus

  /** The entries among operations carried through. */
  function Entries(log: seq<Done>, k: Key): seq<PoolStep> {
    if log == [] then []
    else (if log[0].key == k && log[0].isP then [Enter(log[0].pid)] else []) + Entries(log[1..], k)
  }

  /** What a passage does: a V leaves, and a P that is carried through, at once or later, enters. */
  ghost function PoolSteps(s: Sys, e: Event, k: Key): seq<PoolStep>
    requires Settled(s) && Possible(s, e)
  {
    (if e.Verhogen? && User(e.addr) == k then [Leave(s.act.value)] else []) + Entries(Completed(s, e), k)
  }

  ghost function PoolTrace(s: Sys, run: seq<Entry>, k: Key): seq<PoolStep>
    requires Settled(s) && CanRun(s, run)
    decreases |run|
  {
    if run == [] then [] else PoolSteps(s, run[0].event, k) + PoolTrace(After(s, run[0]), run[1..], k)
  }

  /** The processes between their call of P on `k` and their call of V. */
  ghost function Bracketed(s: Sys, e: Event, k: Key, asked: set<nat>): set<nat>
    requires Settled(s) && Possible(s, e)
  {
    (asked - Killed(s, e) - (if e.Verhogen? && User(e.addr) == k then {s.act.value} else {}))
    + (if e.Passeren? && User(e.addr) == k then {s.act.value} else {})
  }

  /** The program of every process: P on `k`, then V on `k`, and so on, as in tlb_exc_handler. */
  ghost predicate Alternates(s: Sys, run: seq<Entry>, k: Key, asked: set<nat>)
    requires Settled(s) && CanRun(s, run)
    decreases |run|
  {
    run == [] || (
      && (run[0].event.Passeren? && User(run[0].event.addr) == k ==> s.act.value !in asked)
      && (run[0].event.Verhogen? && User(run[0].event.addr) == k ==> s.act.value in asked)
      && Alternates(After(s, run[0]), run[1..], k, Bracketed(s, run[0].event, k, asked)))
  }

  // ---------------------------------------------------------------- one passage

  /**
   * Of the semaphore's value, its queue, who has asked, who is inside and who holds the pool: whoever waits has
   * asked, whoever has asked waits or is inside, only the holder is inside, and the value is 1 when nobody holds it.
   */
  ghost predicate Orderly(value: int, q: seq<nat>, asked: set<nat>, inside: set<nat>, holder: Option<nat>) {
    && (value == if holder == None then 1 else 0)
    && (holder == None ==> asked == {})
    && (forall p :: p in q ==> p in asked)
    && (forall p :: p in asked ==> p in inside || p in q)
    && (forall p :: p in inside ==> holder == Some(p))
  }

  lemma Values(value: int, q: seq<nat>, asked: set<nat>, inside: set<nat>, holder: Option<nat>)
    requires Orderly(value, q, asked, inside, holder)
    ensures value == 0 || (value == 1 && q == [])
  {
    if q != [] {
      assert q[0] in q;
    }
  }

  lemma Held(value: int, q: seq<nat>, asked: set<nat>, inside: set<nat>, holder: Option<nat>, a: nat)
    requires Orderly(value, q, asked, inside, holder) && a in asked
    ensures value == 0
  {
  }

  /** A P on the free pool: nobody else has asked, and the caller is inside. */
  lemma Taken(q: seq<nat>, asked: set<nat>, inside: set<nat>, holder: Option<nat>, a: nat)
    requires Orderly(1, q, asked, inside, holder)
    ensures holder == None && asked == {} == inside && Orderly(0, [], {a}, {a}, Some(a))
  {
  }

  /** A P on the pool when it is held: the caller waits. */
  lemma Joined(q: seq<nat>, asked: set<nat>, inside: set<nat>, holder: Option<nat>, a: nat)
    requires Orderly(0, q, asked, inside, holder)
    ensures Orderly(0, q + [a], asked + {a}, inside, holder)
  {
  }

  /** A V by someone who has asked and does not wait: the holder's, and the pool goes to the oldest waiter. */
  lemma Passed(q: seq<nat>, asked: set<nat>, inside: set<nat>, holder: Option<nat>, a: nat)
    requires Orderly(0, q, asked, inside, holder) && NoDup(q) && a in asked && a !in q
    ensures a in inside && holder == Some(a)
    ensures q == [] ==> Orderly(1, [], asked - {a}, inside - {a}, None)
    ensures q != [] ==> Orderly(0, q[1..], asked - {a}, (inside - {a}) + {q[0]}, Some(q[0]))
  {
    assert inside - {a} == {};
    if q != [] {
      assert q == [q[0]] + q[1..];
    } else {
      assert asked - {a} == {};
    }
  }

  lemma Thinned(value: int, q: seq<nat>, asked: set<nat>, inside: set<nat>, holder: Option<nat>, K: set<nat>)
    requires Orderly(value, q, asked, inside, holder)
    ensures Orderly(value, Without(q, K), asked - K, inside - K, holder)
  {
  }

  /** The state of the pool after a passage. */
  ghost predicate OrderlyAfter(s: Sys, x: Entry, k: Key, asked: set<nat>, inside: set<nat>, holder: Option<nat>)
    requires Settled(s) && Possible(s, x.event) && Tame(s, x.event)
  {
    && Exclusive(holder, PoolSteps(s, x.event, k))
    && Orderly(SemVal(After(s, x), k), Queue(After(s, x), k), Bracketed(s, x.event, k, asked),
               Inside(s, x.event, k, inside), HolderAfter(holder, PoolSteps(s, x.event, k)))
  }

  /** The caller of a P or V runs, so it waits for nothing. */
  lemma CallerFree(s: Sys, e: Event, k: Key)
    requires Settled(s) && Possible(s, e)
    ensures e.Passeren? || e.Verhogen? ==> s.act.Some? && s.act.value !in Queue(s, k)
    ensures NoDup(Queue(s, k)) && (Queue(s, k) == [] <==> k !in s.asl)
  {
    hide ValuesOk, TreeOk, PriosOk, CountsOk;
    if s.act.Some? { Queued(s, k, s.act.value); }
    Queued(s, k, 0);
  }

  /** What a P on the semaphore does. */
  lemma CalledP(s: Sys, x: Entry, k: Key)
    requires Settled(s) && Possible(s, x.event) && Tame(s, x.event) && x.event.Passeren? && User(x.event.addr) == k
    requires SemVal(s, k) == 0 || (SemVal(s, k) == 1 && k !in s.asl)
    ensures s.act.Some? && Killed(s, x.event) == {} && SemVal(After(s, x), k) == 0
    ensures Completed(s, x.event) == if SemVal(s, k) == 1 then [Done(s.act.value, k, true)] else []
    ensures Queue(After(s, x), k) == if SemVal(s, k) == 1 then [] else Queue(s, k) + [s.act.value]
  {
    hide ListsOk, AslOk, ValuesOk, TreeOk, PriosOk, CountsOk, P, Handle, After;
    HandleIs(s, x.event);
    PCloses(s, k);
    QueueAfter(s, x, k);
    AfterSem(s, x);
  }

  /** What a V on the semaphore does when it is 0. */
  lemma CalledV(s: Sys, x: Entry, k: Key)
    requires Settled(s) && Possible(s, x.event) && Tame(s, x.event) && x.event.Verhogen? && User(x.event.addr) == k
    requires SemVal(s, k) == 0
    ensures s.act.Some? && Killed(s, x.event) == {}
    ensures SemVal(After(s, x), k) == if k in s.asl then 0 else 1
    ensures Completed(s, x.event) == [Done(s.act.value, k, false)] +
            (if k in s.asl then [Done(Queue(s, k)[0], k, true)] else [])
    ensures Queue(After(s, x), k) == Rest(Queue(s, k))
  {
    hide ListsOk, AslOk, ValuesOk, TreeOk, PriosOk, CountsOk, V, Handle, After;
    HandleIs(s, x.event);
    VOpens(s, k);
    QueueAfter(s, x, k);
    AfterSem(s, x);
  }

  lemma One(d: Done, k: Key)
    ensures Entries([d], k) == if d.key == k && d.isP then [Enter(d.pid)] else []
    ensures Entered([d], k) == if d.key == k && d.isP then {d.pid} else {}
    ensures Entries([], k) == [] && Entered([], k) == {}
  {
    assert [d][1..] == [];
    assert d in [d];
  }

  lemma Two(d: Done, c: Done, k: Key)
    requires !d.isP && c.isP && d.key == k == c.key
    ensures Entries([d] + [c], k) == [Enter(c.pid)] && Entered([d] + [c], k) == {c.pid}
  {
    assert ([d] + [c])[1..] == [c] && c == ([d] + [c])[1];
    One(c, k);
    forall e | e in [d] + [c] && e.isP ensures e == c {}
  }

  /** The bookkeeping of a call on the semaphore. */
  lemma CallKept(s: Sys, e: Event, k: Key, asked: set<nat>, inside: set<nat>)
    requires Settled(s) && Possible(s, e) && OnKey(e, k) && Killed(s, e) == {} && s.act.Some?
    ensures var (a, d) := (s.act.value, Completed(s, e));
            && PoolSteps(s, e, k) == (if e.Passeren? then [] else [Leave(a)]) + Entries(d, k)
            && Bracketed(s, e, k, asked) == (if e.Passeren? then asked + {a} else asked - {a})
            && Inside(s, e, k, inside) == (if e.Passeren? then inside else inside - {a}) + Entered(d, k)
  {
    hide Settled, Possible, Killed, Completed, Entries, Entered;
  }

  lemma Steps(holder: Option<nat>, p: nat, q: nat)
    ensures Exclusive(holder, []) && HolderAfter(holder, []) == holder
    ensures Exclusive(None, [Enter(p)]) && HolderAfter(None, [Enter(p)]) == Some(p)
    ensures Exclusive(Some(p), [Leave(p)]) && HolderAfter(Some(p), [Leave(p)]) == None
    ensures Exclusive(Some(p), [Leave(p)] + [Enter(q)]) && HolderAfter(Some(p), [Leave(p)] + [Enter(q)]) == Some(q)
  {
    assert [Enter(p)][1..] == [] && [Leave(p)][1..] == [] && [Enter(q)][1..] == [];
    var both := [Leave(p)] + [Enter(q)];
    assert both[0] == Leave(p) && both[1..] == [Enter(q)];
    assert Exclusive(None, [Enter(q)]) && HolderAfter(None, [Enter(q)]) == Some(q) by {
      assert [Enter(q)][1..] == [];
    }
    assert HolderAfter(Some(p), both) == HolderAfter(None, both[1..]);
  }

  lemma OrderlyP(s: Sys, x: Entry, k: Key, asked: set<nat>, inside: set<nat>, holder: Option<nat>)
    requires Settled(s) && Possible(s, x.event) && Tame(s, x.event) && x.event.Passeren? && User(x.event.addr) == k
    requires Orderly(SemVal(s, k), Queue(s, k), asked, inside, holder)
    ensures OrderlyAfter(s, x, k, asked, inside, holder)
  {
    hide Settled, Possible, Tame, After, Killed, Completed, Queue, SemVal, Entries, Entered, PoolSteps, Bracketed;
    hide Inside, Orderly, Exclusive, HolderAfter;
    CallerFree(s, x.event, k);
    var (a, q) := (s.act.value, Queue(s, k));
    Values(SemVal(s, k), q, asked, inside, holder);
    CalledP(s, x, k);
    CallKept(s, x.event, k, asked, inside);
    One(Done(a, k, true), k);
    if SemVal(s, k) == 1 {
      Taken(q, asked, inside, holder, a);
      Steps(holder, a, a);
      assert [] + [Enter(a)] == [Enter(a)] && asked + {a} == {a} == inside + {a};
    } else {
      Joined(q, asked, inside, holder, a);
      Steps(holder, a, a);
      assert inside + {} == inside;
    }
  }

  lemma OrderlyV(s: Sys, x: Entry, k: Key, asked: set<nat>, inside: set<nat>, holder: Option<nat>)
    requires Settled(s) && Possible(s, x.event) && Tame(s, x.event) && x.event.Verhogen? && User(x.event.addr) == k
    requires Orderly(SemVal(s, k), Queue(s, k), asked, inside, holder) && s.act.Some? && s.act.value in asked
    ensures s.act.value in inside && OrderlyAfter(s, x, k, asked, inside, holder)
  {
    hide Settled, Possible, Tame, After, Killed, Completed, Queue, SemVal, Entries, Entered, PoolSteps, Bracketed;
    hide Inside, Orderly, Exclusive, HolderAfter;
    var (a, q) := (s.act.value, Queue(s, k));
    CallerFree(s, x.event, k);
    Held(SemVal(s, k), q, asked, inside, holder, a);
    CalledV(s, x, k);
    Passed(q, asked, inside, holder, a);
    CallKept(s, x.event, k, asked, inside);
    One(Done(a, k, false), k);
    if q == [] {
      Steps(holder, a, a);
      assert [Done(a, k, false)] + [] == [Done(a, k, false)] && [Leave(a)] + [] == [Leave(a)];
      assert inside - {a} + {} == inside - {a};
    } else {
      Two(Done(a, k, false), Done(q[0], k, true), k);
      Steps(holder, a, q[0]);
    }
  }

  lemma OrderlyOther(s: Sys, x: Entry, addr: int, asked: set<nat>, inside: set<nat>, holder: Option<nat>)
    requires Settled(s) && Possible(s, x.event) && Tame(s, x.event) && !OnKey(x.event, User(addr))
    requires Orderly(SemVal(s, User(addr)), Queue(s, User(addr)), asked, inside, holder)
    ensures OrderlyAfter(s, x, User(addr), asked, inside, holder)
  {
    var k := User(addr);
    ApartFromKey(s, x, addr);
    Thinned(SemVal(s, k), Queue(s, k), asked, inside, holder, Killed(s, x.event));
    hide Settled, Possible, Tame, After, Killed, Completed, Queue, SemVal, Entries, Entered, Orderly;
    assert PoolSteps(s, x.event, k) == [];
    assert Bracketed(s, x.event, k, asked) == asked - Killed(s, x.event);
    assert Inside(s, x.event, k, inside) == inside - Killed(s, x.event);
  }

  /** An exception that is no P or V on the semaphore only takes the terminated out of its queue. */
  lemma ApartFromKey(s: Sys, x: Entry, addr: int)
    requires Settled(s) && Possible(s, x.event) && Tame(s, x.event) && !OnKey(x.event, User(addr))
    ensures var k := User(addr);
            && SemVal(After(s, x), k) == SemVal(s, k)
            && Queue(After(s, x), k) == Without(Queue(s, k), Killed(s, x.event))
            && Entries(Completed(s, x.event), k) == [] && Entered(Completed(s, x.event), k) == {}
  {
    hide Settled, Possible, Tame, After, Handle, Completed, Queue, Entries, Entered, Killed;
    AfterSem(s, x);
    HandleApart(s, x.event, addr);
    CompletedApart(s, x.event, addr);
    NoEntries(Completed(s, x.event), User(addr));
    QueueAfter(s, x, User(addr));
    QueueApart(s, x.event, addr);
  }

  lemma QueueApart(s: Sys, e: Event, addr: int)
    requires Settled(s) && Possible(s, e) && !OnKey(e, User(addr))
    ensures NextQueue(s, e, User(addr)) == Without(Queue(s, User(addr)), Killed(s, e))
  {
    hide ListsOk, AslOk, ValuesOk, TreeOk, PriosOk, CountsOk, Queue, Subtree, Without;
    if !Kills(s, e) { WithoutAbsent(Queue(s, User(addr)), {}); }
  }

  lemma {:induction false} NoEntries(log: seq<Done>, k: Key)
    requires forall d :: d in log ==> d.key != k
    ensures Entries(log, k) == [] && Entered(log, k) == {}
  {
    if log != [] {
      NoEntries(log[1..], k);
    }
  }

  // ---------------------------------------------------------------- runs

  lemma {:induction false} OrderlyRun(s: Sys, run: seq<Entry>, addr: int, asked: set<nat>, inside: set<nat>,
                                      holder: Option<nat>)
    requires Settled(s) && CanRun(s, run) && Alternates(s, run, User(addr), asked)
    requires Orderly(SemVal(s, User(addr)), Queue(s, User(addr)), asked, inside, holder)
    ensures Brackets(s, run, User(addr), inside) && Exclusive(holder, PoolTrace(s, run, User(addr)))
    decreases |run|
  {
    if run != [] {
      var (x, k) := (run[0], User(addr));
      CallerFree(s, x.event, k);
      if OnKey(x.event, k) {
        if x.event.Passeren? {
          OrderlyP(s, x, k, asked, inside, holder);
        } else {
          OrderlyV(s, x, k, asked, inside, holder);
        }
      } else {
        OrderlyOther(s, x, addr, asked, inside, holder);
      }
      hide Settled, Possible, Tame, After, Bracketed, Inside, Orderly, PoolSteps, Queue, SemVal;
      var steps := PoolSteps(s, x.event, k);
      OrderlyRun(After(s, x), run[1..], addr, Bracketed(s, x.event, k, asked), Inside(s, x.event, k, inside),
                 HolderAfter(holder, steps));
      ExclusiveJoin(holder, steps, PoolTrace(After(s, x), run[1..], k));
    }
  }

  /**
   * If every process calls P and V on a semaphore in turn, as tlb_exc_handler does on sp_sem, and it is 1 and nobody
   * waits at the start, then on every run, whoever is terminated, only a process inside calls V, at most one is inside,
   * and the pool is entered and left one process at a time.
   */
  lemma OneInThePool(s: Sys, run: seq<Entry>, addr: int)
    requires Settled(s) && CanRun(s, run) && Alternates(s, run, User(addr), {})
    requires SemVal(s, User(addr)) == 1 && User(addr) !in s.asl
    ensures Brackets(s, run, User(addr), {}) && |InsideAfter(s, run, User(addr), {})| <= 1
    ensures Exclusive(None, PoolTrace(s, run, User(addr)))
  {
    OrderlyRun(s, run, addr, {}, {}, None);
    AtMostOneInside(s, run, addr, {});
  }

  // ---------------------------------------------------------------- the pager's protocol

  function Holder(s: Pool.Pager): Option<nat> {
    if s.phase.Unlocked? then None else Some(s.phase.p)
  }

  /** Lock is the P carried through, Unlock the V. */
  function PagerSteps(s: Pool.Pager, a: Pool.Action): seq<PoolStep> {
    match a
    case Lock(p) => [Enter(p)]
    case Unlock => if s.phase.Unlocked? then [] else [Leave(s.phase.p)]
    case _ => []
  }

  ghost function PagerTrace(s: Pool.Pager, acts: seq<Pool.Action>): seq<PoolStep>
    requires Pool.Shape(s) && Paging.CanRun(s, acts)
    decreases |acts|
  {
    if acts == [] then []
    else
      PagerInvariant.ShapeKept(s, acts[0]);
      PagerSteps(s, acts[0]) + PagerTrace(Pool.Apply(s, acts[0]), acts[1..])
  }

  lemma PagerStep(s: Pool.Pager, a: Pool.Action)
    requires Pool.Shape(s) && Pool.Enabled(s, a)
    ensures Exclusive(Holder(s), PagerSteps(s, a))
    ensures HolderAfter(Holder(s), PagerSteps(s, a)) == Holder(Pool.Apply(s, a))
  {
    hide Pool.Shape, Pool.ChosenFrame, Pool.UpdatedTlb;
  }

  /** In the protocol too the pool is entered and left one process at a time. */
  lemma {:induction false} PagerIsExclusive(s: Pool.Pager, acts: seq<Pool.Action>)
    requires Pool.Shape(s) && Paging.CanRun(s, acts)
    ensures Exclusive(Holder(s), PagerTrace(s, acts))
    decreases |acts|
  {
    if acts != [] {
      PagerStep(s, acts[0]);
      PagerInvariant.ShapeKept(s, acts[0]);
      var t := Pool.Apply(s, acts[0]);
      PagerIsExclusive(t, acts[1..]);
      hide Pool.Shape, Pool.Enabled, Pool.Apply;
      ExclusiveJoin(Holder(s), PagerSteps(s, acts[0]), PagerTrace(t, acts[1..]));
    }
  }

  lemma {:induction false} HolderJoin(holder: Option<nat>, a: seq<PoolStep>, b: seq<PoolStep>)
    ensures HolderAfter(holder, a + b) == HolderAfter(HolderAfter(holder, a), b)
    decreases |a|
  {
    if a == [] {
      assert a + b == b;
    } else {
      assert (a + b)[0] == a[0] && (a + b)[1..] == a[1..] + b;
      HolderJoin(if a[0].Enter? then Some(a[0].p) else None, a[1..], b);
    }
  }

  /** Whoever the trace says is inside holds the pool. */
  lemma {:induction false} TraceTellsHolder(s: Pool.Pager, acts: seq<Pool.Action>)
    requires Pool.Shape(s) && Paging.CanRun(s, acts)
    ensures HolderAfter(Holder(s), PagerTrace(s, acts)) == Holder(Paging.Run(s, acts))
    decreases |acts|
  {
    if acts != [] {
      PagerStep(s, acts[0]);
      PagerInvariant.ShapeKept(s, acts[0]);
      var t := Pool.Apply(s, acts[0]);
      TraceTellsHolder(t, acts[1..]);
      hide Pool.Shape, Pool.Enabled, Pool.Apply;
      HolderJoin(Holder(s), PagerSteps(s, acts[0]), PagerTrace(t, acts[1..]));
    }
  }

  lemma {:induction false} ExclusivePrefix(holder: Option<nat>, a: seq<PoolStep>, b: seq<PoolStep>)
    requires Exclusive(holder, a + b)
    ensures Exclusive(HolderAfter(holder, a), b)
    decreases |a|
  {
    if a == [] {
      assert a + b == b;
    } else {
      assert (a + b)[0] == a[0] && (a + b)[1..] == a[1..] + b;
      ExclusivePrefix(if a[0].Enter? then Some(a[0].p) else None, a[1..], b);
    }
  }

  /**
   * The two put together. On a run of the nucleus whose processes call P and V on sp_sem in turn, let the pager have
   * taken the locks and unlocks that the nucleus has granted so far. Then the next process that the nucleus lets past
   * its P finds the pool unlocked, and the next that calls V is the one that holds it.
   */
  lemma NucleusGuardsThePool(n: Sys, run: seq<Entry>, addr: int, s: Pool.Pager, acts: seq<Pool.Action>, i: nat)
    requires Settled(n) && CanRun(n, run) && Alternates(n, run, User(addr), {})
    requires SemVal(n, User(addr)) == 1 && User(addr) !in n.asl
    requires Pool.Shape(s) && s.phase.Unlocked? && Paging.CanRun(s, acts)
    requires i < |PoolTrace(n, run, User(addr))| && PagerTrace(s, acts) == PoolTrace(n, run, User(addr))[..i]
    ensures match PoolTrace(n, run, User(addr))[i]
            case Enter(p) => Paging.Run(s, acts).phase.Unlocked?
            case Leave(p) => !Paging.Run(s, acts).phase.Unlocked? && Paging.Run(s, acts).phase.p == p
  {
    hide Settled, CanRun, Alternates, PoolTrace, PagerTrace, Paging.Run, Paging.CanRun, Pool.Shape, SemVal;
    hide Brackets, InsideAfter, Exclusive, HolderAfter;
    var steps := PoolTrace(n, run, User(addr));
    OneInThePool(n, run, addr);
    TraceTellsHolder(s, acts);
    assert steps == steps[..i] + steps[i..];
    ExclusivePrefix(None, steps[..i], steps[i..]);
    FirstGuarded(Holder(Paging.Run(s, acts)), steps[i..]);
  }

  lemma FirstGuarded(holder: Option<nat>, steps: seq<PoolStep>)
    requires Exclusive(holder, steps) && steps != []
    ensures if steps[0].Enter? then holder == None else holder == Some(steps[0].p)
  {
  }

  /** The protocol's guard on Lock is that of the semaphore. */
  lemma LockExactly(s: Pool.Pager, p: nat)
    requires Pool.Shape(s) && p < |s.alive| && s.alive[p] && s.faulted[p].Some?
    ensures Pool.Enabled(s, Pool.Lock(p)) <==> Exclusive(Holder(s), [Enter(p)])
  {
    assert [Enter(p)][1..] == [];
    assert Exclusive(Some(p), []);
  }
}
