/**
 * The nucleus as the C code runs it: columns of the process table, rings of links, the
 * semaphore list and the scheduler's variables, changed in place.  Every method is proved to
 * compute the function of NucleusState and NucleusStep it is named after.
 */
module Kernel {
  import opened Prelude
  import opened Listx
  import opened ProcQueues
  import opened ActiveSemaphores
  import opened NucleusState
  import opened NucleusInvariant
  import opened KillTree
  import K = KillSteps
  import opened NucleusStep
  import opened NucleusRuns

  const FREE_H := 0    // pcb_free_h
  const LOW_H := 1     // l_queue
  const HIGH_H := 2    // h_queue

  /** A block in no list has a link that points at itself. */
  ghost predicate LooseSolo(at: seq<Place>, solo: set<nat>) {
    forall p :: 0 <= p < |at| && Loose(at[p]) ==> p in solo
  }

  ghost predicate KidsReady(at: seq<Place>, ready: set<nat>) {
    forall p :: 0 <= p < |at| && at[p] != Free ==> p in ready
  }

  /** A live process's id is its address; a free entry keeps its last one, at first 0. */
  ghost predicate PidsOk(at: seq<Place>, pid: seq<nat>, base: nat, size: nat) {
    && |pid| == |at|
    && (forall p :: 0 <= p < |at| ==> pid[p] == base + size * p || (at[p] == Free && pid[p] == 0))
  }

  /** A p_parent field: the zero of static memory, which is not NULL on this machine, NULL, or a block. */
  datatype Parent = Zero | Null | ChildOf(of: nat)

  /** What the fields say to whoever looks at live blocks. */
  function Parents(fields: seq<Parent>): (r: seq<Option<nat>>)
    ensures |r| == |fields|
  {
    seq(|fields|, p requires 0 <= p < |fields| => if fields[p].ChildOf? then Some(fields[p].of) else None)
  }

  lemma ParentsWrite(fields: seq<Parent>, p: nat, x: Parent)
    requires p < |fields|
    ensures Parents(fields[p := x]) == Parents(fields)[p := if x.ChildOf? then Some(x.of) else None]
  {
  }

  /** The sibling rings once `p`, whose p_parent is `up`, has left its parent's. */
  ghost function Unparented(rings: seq<seq<nat>>, up: Parent, p: nat): seq<seq<nat>>
    requires up.ChildOf? ==> up.of < |rings|
  {
    if up.ChildOf? then rings[up.of := Without<nat>(rings[up.of], {p})] else rings
  }

  /** Exactly the blocks that were allocated at some time have an initialised list of children and a p_parent. */
  ghost predicate Begun(born: seq<nat>, parent: seq<Parent>, ready: set<nat>) {
    && |born| == |parent|
    && (forall p :: 0 <= p < |born| ==> (born[p] > 0 <==> p in ready) && (born[p] > 0 <==> parent[p] != Zero))
  }

  lemma BegunWrite(born: seq<nat>, parent: seq<Parent>, ready: set<nat>, p: nat, x: Parent)
    requires Begun(born, parent, ready) && p < |parent| && parent[p] != Zero && x != Zero
    ensures Begun(born, parent[p := x], ready)
  {
  }

  lemma BegunNew(born: seq<nat>, parent: seq<Parent>, ready: set<nat>, p: nat, births: nat, x: Parent)
    requires Begun(born, parent, ready) && p < |parent| && births > 0 && x != Zero
    ensures Begun(born[p := births], parent[p := x], ready + {p})
  {
  }

  class Nucleus {
    const n: nat
    const base: nat
    const size: nat
    const pl: ListMemory       // p_list links: pcb_free_h, l_queue, h_queue and the semaphores' queues
    const sl: ListMemory       // p_child sentinels and p_sib links
    const dl: ListMemory       // semaphore descriptors
    const asl: Asl

    var parent: seq<Parent>
    var prio: seq<int>
    var support: seq<int>
    var v0: seq<int>
    var time: seq<int>
    var upd: seq<int>
    var pid: seq<nat>
    var sem: map<Key, int>
    var clock: int
    var act: Option<nat>
    var yielded: Option<nat>
    var procs: int
    var sb: int
    var mode: Mode

    ghost var at: seq<Place>
    ghost var born: seq<nat>
    ghost var births: nat
    ghost var waitsP: seq<bool>

    /** A process's id: the address of its control block. */
    function PidOf(p: nat): nat {
      base + size * p
    }

    /** The state the pointers and fields stand for. */
    ghost function Abs(): Sys
      reads this, asl, pl, sl
      requires |pl.rings| >= 3
    {
      Sys(at, pl.rings[FREE_H], pl.rings[LOW_H], pl.rings[HIGH_H], asl.active, Parents(parent), sl.rings, born,
          births, waitsP, prio, support, v0, time, upd, clock, sem, act, yielded, procs, sb, mode, base, size)
    }

    ghost predicate Rep()
      reads this, asl, pl, sl, dl
    {
      && pl != sl && pl != dl && sl != dl && asl.queues == pl && asl.semds == dl && asl.n == n
      && asl.Valid() && sl.Valid() && |pl.rings| == 3 + n
      && |at| == n && |sl.rings| == n && |sl.owner| == n
      && FREE_H in pl.ready && LOW_H in pl.ready && HIGH_H in pl.ready
      && base > 0 && size > 0
      && LooseSolo(at, pl.solo) && KidsReady(at, sl.ready) && PidsOk(at, pid, base, size)
      && Begun(born, parent, sl.ready)
    }

    /** Storage before the kernel starts: links, p_semAdd and semaphores hold anything. */
    constructor (n: nat, base: nat, size: nat, sem: map<Key, int>, memory: Pointers, semAdd: seq<Option<Key>>)
      requires n > 0 && base > 0 && size > 0 && |semAdd| == n && OwnSemaphores(sem)
      ensures Static() && this.n == n && this.base == base && this.size == size && this.sem == sem
      ensures fresh(asl) && fresh(pl) && fresh(sl) && fresh(dl)
    {
      hide OwnSemaphores, ListMemory.Valid, Asl.Valid, AllRings, Owned, Solo, Untouched, Fill;
      this.n, this.base, this.size := n, base, size;
      var lists := new ListMemory(3 + n, n, memory);
      var siblings := new ListMemory(n, n, memory);
      var descriptors := new ListMemory(2, n, memory);
      var semaphores := new Asl(n, lists, descriptors, semAdd);
      pl, sl, dl, asl := lists, siblings, descriptors, semaphores;
      parent, support, v0 := Fill(n, Zero), Fill(n, 0), Fill(n, 0);
      prio, time, upd, pid := Fill(n, PRIO_LOW), Fill(n, 0), Fill(n, 0), Fill(n, 0);
      this.sem, clock, act, yielded, procs, sb, mode := sem, 0, None, None, 0, 0, Active;
      at, born, births, waitsP := Fill(n, Free), Fill(n, 0), 0, Fill(n, false);
    }

    /** The table and the scheduler's variables at their first values. */
    ghost predicate Columns()
      reads this
    {
      && parent == Fill(n, Zero) && support == Fill(n, 0) && v0 == Fill(n, 0)
      && prio == Fill(n, PRIO_LOW) && time == Fill(n, 0) && upd == Fill(n, 0) && pid == Fill(n, 0)
      && clock == 0 && act == None && yielded == None && procs == 0 && sb == 0 && mode == Active
      && at == Fill(n, Free) && born == Fill(n, 0) && births == 0 && waitsP == Fill(n, false)
    }

    /** sem_it and the arrays of interrupts.c exist, and nothing else is the kernel's. */
    static ghost predicate OwnSemaphores(sem: map<Key, int>) {
      Clock in sem && forall l: nat, d: nat :: Dev(l, d) in sem <==> l < SEM_LINES && d < DEVPERINT
    }

    ghost predicate Static()
      reads this, asl, pl, sl, dl
    {
      && Blank()
      && pl.Valid() && dl.Valid() && pl.ready == {} && pl.solo == {}
      && |pl.rings| == 3 + n && |pl.owner| == n && |dl.rings| == 2 && |dl.owner| == n
      && |asl.key| == |asl.semAdd| == n && asl.active == map[] && asl.desc == map[] && OwnSemaphores(sem)
      && (forall h :: 0 <= h < 3 + n ==> pl.rings[h] == []) && (forall h :: 0 <= h < 2 ==> dl.rings[h] == [])
      && (forall p :: 0 <= p < n ==> pl.owner[p] == None && dl.owner[p] == None)
    }

    /** No process yet: every column of the table, and every scheduler variable, at its first value. */
    ghost predicate Blank()
      reads this, asl, sl
    {
      && n > 0 && base > 0 && size > 0
      && pl != sl && pl != dl && sl != dl && asl.queues == pl && asl.semds == dl && asl.n == n
      && sl.Valid() && |sl.owner| == n && sl.ready == {} && sl.rings == Fill(n, [])
      && (forall p :: 0 <= p < n ==> sl.owner[p] == None)
      && Columns()
    }

    /** init_pcbs, init_asl, init_scheduler, init_dev_sem. */
    method InitDataStructures()
      requires Static()
      modifies this`sem, asl`semAdd, pl, dl
      ensures Blank() && asl.Valid() && asl.active == map[] && sem == Zeroed(old(sem))
      ensures FREE_H in pl.ready && LOW_H in pl.ready && HIGH_H in pl.ready
      ensures pl.rings[FREE_H] == seq(n, i => i) && pl.rings[LOW_H] == [] && pl.rings[HIGH_H] == []
    {
      hide Blank, AllRings, Owned, Solo, Untouched;
      Distinct();
      InitPcbs();
      asl.InitAsl();
      ListFacts0();
      label Linked:
      pl.InitHead(LOW_H);
      pl.InitHead(HIGH_H);
      AslKept@Linked();
      InitDevSem();
      BlankKept();
    }

    /** What the initialisation leaves alone. */
    twostate lemma BlankKept()
      requires old(Blank()) && unchanged(sl) && unchanged(this`parent, this`support, this`v0, this`prio, this`time,
               this`upd)
      requires unchanged(this`pid, this`clock, this`act, this`yielded, this`procs, this`sb, this`mode)
      requires unchanged(this`at, this`born, this`births, this`waitsP)
      ensures Blank()
    {
    }

    /** init_dev_sem. */
    method InitDevSem()
      requires OwnSemaphores(sem)
      modifies this`sem
      ensures sem == Zeroed(old(sem))
    {
      sem := sem[Clock := 0];
      for i := 0 to DEVPERINT
        invariant sem.Keys == old(sem).Keys
        invariant forall k :: k in sem ==>
                    sem[k] == if k.Clock? || (k.Dev? && k.dev < i) then 0 else old(sem)[k]
      {
        for l := 0 to SEM_LINES
          invariant sem.Keys == old(sem).Keys
          invariant forall k :: k in sem ==>
                      sem[k] == if k.Clock? || (k.Dev? && (k.dev < i || (k.dev == i && k.line < l)))
                                then 0 else old(sem)[k]
        {
          sem := sem[Dev(l, i) := 0];
        }
      }
    }

    lemma Distinct()
      requires Blank()
      ensures pl != sl && pl != dl && sl != dl && asl.queues == pl && asl.semds == dl && asl.n == n
    {
    }

    /** create_init_proc: the first block of the free list, linked into the low queue. */
    method CreateInitProc(ghost memory: map<Key, int>)
      requires Blank() && asl.Valid() && asl.active == map[] && sem == Zeroed(memory)
      requires FREE_H in pl.ready && LOW_H in pl.ready && HIGH_H in pl.ready
      requires pl.rings[FREE_H] == seq(n, i => i) && pl.rings[LOW_H] == [] && pl.rings[HIGH_H] == []
      modifies this, pl, sl
      ensures Rep() && Abs() == Booting(n, base, size, memory)
    {
      hide AllRings, Owned, Solo, Untouched, Asl.Valid, ListMemory.Valid, Rep, Abs, Booting, Others;
      hide Blank, Starting;
      BlankParts();
      LinkInitProc();
      ClearInit();
      pid := pid[0 := base];
      procs := procs + 1;
      CountInit();
      Begins(memory);
      Started(memory);
      StartedAs(memory);
    }

    /** What alloc_pcb sets in the first block that static memory did not hold already. */
    method ClearInit()
      requires 0 < |parent| && 0 < |support|
      modifies this`parent, this`support
      ensures parent == old(parent)[0 := Null] && support == old(support)[0 := NULL]
    {
      parent, support := parent[0 := Null], support[0 := NULL];
    }

    /** The first block counts as a process, the oldest one. */
    ghost method CountInit()
      requires 0 < |at| && 0 < |born|
      modifies this`at, this`born, this`births
      ensures at == old(at)[0 := Low] && born == old(born)[0 := 1] && births == 2
    {
      at, born, births := at[0 := Low], born[0 := 1], 2;
    }

    /** The table when the init process is in the low queue. */
    ghost predicate Starting(memory: map<Key, int>)
      reads this, asl, pl, sl
    {
      && n > 0 && base > 0 && size > 0 && sem == Zeroed(memory)
      && pl != sl && pl != dl && sl != dl && asl.queues == pl && asl.semds == dl && asl.n == n && asl.active == map[]
      && |sl.owner| == n && sl.rings == Fill(n, []) && sl.ready == {0} && |pl.rings| == 3 + n
      && pl.rings[FREE_H] == Others(n) && pl.rings[LOW_H] == [0] && pl.rings[HIGH_H] == []
      && parent == Fill(n, Zero)[0 := Null] && support == Fill(n, 0)[0 := NULL] && v0 == Fill(n, 0)
      && prio == Fill(n, PRIO_LOW) && time == Fill(n, 0) && upd == Fill(n, 0) && pid == Fill(n, 0)[0 := base]
      && clock == 0 && act == None && yielded == None && procs == 1 && sb == 0 && mode == Active
      && at == Fill(n, Free)[0 := Low] && born == Fill(n, 0)[0 := 1] && births == 2 && waitsP == Fill(n, false)
    }

    lemma BlankParts()
      requires Blank()
      ensures n > 0 && pl != sl && pl != dl && sl != dl && asl.queues == pl && asl.semds == dl && asl.n == n
      ensures sl.Valid() && |sl.owner| == |sl.rings| == n && sl.rings[0] == [] && sl.owner[0] == None
      ensures |parent| == |support| == |pid| == |at| == |born| == n
    {
      hide ListMemory.Valid;
    }

    /** What create_init_proc makes of the blank table. */
    twostate lemma Begins(memory: map<Key, int>)
      requires old(Blank()) && |parent| > 0 && |support| > 0 && |at| > 0 && |born| > 0 && |pid| > 0
      requires sem == Zeroed(memory) && asl.active == map[] && |pl.rings| == 3 + n && |sl.owner| == n
      requires pl.rings[FREE_H] == Others(n) && pl.rings[LOW_H] == [0] && pl.rings[HIGH_H] == []
      requires sl.rings == old(sl.rings) && sl.ready == old(sl.ready) + {0}
      requires |old(parent)| > 0 && |old(support)| > 0 && |old(at)| > 0 && |old(born)| > 0 && |old(pid)| > 0
      requires parent == old(parent)[0 := Null] && support == old(support)[0 := NULL] && pid == old(pid)[0 := base]
      requires at == old(at)[0 := Low] && born == old(born)[0 := 1] && births == 2 && procs == old(procs) + 1
      requires unchanged(this`v0, this`prio, this`time, this`upd, this`clock, this`act, this`yielded)
      requires unchanged(this`sb, this`mode)
      requires unchanged(this`waitsP)
      ensures Starting(memory)
    {
      hide ListMemory.Valid, Others;
      assert {} + {0} == {0};
    }

    lemma Started(memory: map<Key, int>)
      requires Starting(memory) && asl.Valid() && sl.Valid()
      requires FREE_H in pl.ready && LOW_H in pl.ready && HIGH_H in pl.ready
      ensures Rep()
    {
      hide Asl.Valid, ListMemory.Valid;
    }

    lemma StartedAs(memory: map<Key, int>)
      requires Starting(memory)
      ensures Abs() == Booting(n, base, size, memory)
    {
    }

    /** Its links: out of the free list, childless, last of the low queue. */
    method LinkInitProc()
      requires n > 0 && pl != sl && pl != dl && asl.queues == pl && asl.semds == dl && asl.n == n
      requires asl.Valid() && sl.Valid() && |sl.owner| == n && |sl.rings| == n && sl.rings[0] == [] &&
               sl.owner[0] == None
      requires FREE_H in pl.ready && LOW_H in pl.ready && HIGH_H in pl.ready
      requires pl.rings[FREE_H] == seq(n, i => i) && pl.rings[LOW_H] == [] && pl.rings[HIGH_H] == []
      modifies pl, sl
      ensures asl.Valid() && sl.Valid() && |sl.owner| == n && sl.rings == old(sl.rings)
      ensures sl.ready == old(sl.ready) + {0}
      ensures FREE_H in pl.ready && LOW_H in pl.ready && HIGH_H in pl.ready && |pl.rings| == 3 + n
      ensures pl.rings[FREE_H] == Others(n) && pl.rings[LOW_H] == [0] && pl.rings[HIGH_H] == []
    {
      hide AllRings, Owned, Solo, Untouched, Asl.Valid;
      ListFacts0();
      var p := RemoveProcQ(pl, FREE_H);
      InsertProcQ(pl, LOW_H, 0);
      AslKept();
      sl.InitHead(0);
      sl.InitElem(0);
    }

    /** main, up to the first dispatch. */
    method Boot()
      requires Static()
      modifies this, asl`semAdd, pl, sl, dl
      ensures Rep() && Core(Abs()) && Abs() == Booting(n, base, size, old(sem))
    {
      assert n > 0;
      hide Blank, AllRings, Owned, Solo, Untouched, Rep, Asl.Valid, Parents;
      ghost var memory := sem;
      InitDataStructures();
      CreateInitProc(memory);
      BootCore(n, base, size, memory);
    }

    lemma ListFacts0()
      requires asl.Valid() && asl.queues == pl && asl.n == n
      ensures pl.Valid() && |pl.rings| == 3 + n && |pl.owner| == n
    {
    }

    /** init_pcbs: every block goes to the end of the free list. */
    method InitPcbs()
      requires pl.Valid() && |pl.rings| == 3 + n && |pl.owner| == n && pl.solo == {} && pl.ready == {}
      requires forall h :: 0 <= h < 3 + n ==> pl.rings[h] == []
      requires forall p :: 0 <= p < n ==> pl.owner[p] == None
      requires |asl.semAdd| == n
      modifies pl, asl`semAdd
      ensures asl.semAdd == Fill(n, None)
      ensures pl.Valid() && pl.ready == {FREE_H} && pl.solo == {} && |pl.rings| == 3 + n && |pl.owner| == n
      ensures pl.rings[FREE_H] == seq(n, i => i) && forall h :: 0 < h < 3 + n ==> pl.rings[h] == []
    {
      hide AllRings, Owned, Solo, Untouched;
      pl.InitHead(FREE_H);
      for i := 0 to n
        invariant pl.Valid() && pl.ready == {FREE_H} && pl.solo == {} && |pl.rings| == 3 + n && |pl.owner| == n
        invariant pl.rings[FREE_H] == seq(i, j => j) && forall h :: 0 < h < 3 + n ==> pl.rings[h] == []
        invariant forall p :: i <= p < n ==> pl.owner[p] == None
        invariant |asl.semAdd| == n && forall p :: 0 <= p < i ==> asl.semAdd[p] == None
      {
        asl.ClearSemAdd(i);
        pl.AddTail(i, FREE_H);
      }
    }

    /** What the invariant says of a block in no list. */
    lemma LooseFacts(p: nat)
      requires Rep() && Core(Abs()) && p < n && Loose(at[p])
      ensures pl.owner[p] == None && p in pl.solo && asl.semAdd[p] == None
    {
      LooseUnqueued(at, asl.active, asl.semAdd, p);
    }

    lemma LooseUnqueued(at: seq<Place>, active: map<Key, seq<nat>>, semAdd: seq<Option<Key>>, p: nat)
      requires p < |at| == |semAdd| && !at[p].Blocked? && Blockers(active, semAdd)
      requires forall k :: k in active ==> Holds(active[k], at, Blocked(k))
      ensures semAdd[p] == None && forall k :: k in active ==> p !in active[k]
    {
      forall k | k in active ensures p !in active[k] {
        assert Holds(active[k], at, Blocked(k));
      }
    }

    /** The semaphore list does not notice what happens to the first three rings. */
    twostate lemma AslKept()
      requires old(allocated(asl)) && old(allocated(asl.queues)) && old(allocated(asl.semds))
      requires old(asl.Valid()) && unchanged(asl) && unchanged(asl.semds) && asl.queues.Valid()
      requires |asl.queues.rings| == 3 + asl.n && |asl.queues.owner| == asl.n
      requires old(asl.queues.ready) <= asl.queues.ready
      requires forall h :: 3 <= h < 3 + asl.n ==> asl.queues.rings[h] == old(asl.queues.rings[h])
      ensures asl.Valid()
    {
    }

    /** A block that was in no list was linked into one, or the other way round. */
    lemma Replaced(p: nat, x: Place, solo: set<nat>)
      requires Rep() && p < n && x != Free && at[p] != Free
      requires if Loose(x) then pl.solo + {p} <= solo else pl.solo - {p} <= solo
      ensures LooseSolo(at[p := x], solo) && KidsReady(at[p := x], sl.ready) && PidsOk(at[p := x], pid, base, size)
    {
    }

    lemma ListFacts()
      requires Rep()
      ensures pl.Valid() && |pl.rings| == 3 + n && |pl.owner| == n
    {
    }

    lemma TimesSized()
      requires Rep() && Core(Abs())
      ensures Shape(Abs()) && |upd| == |time| == |v0| == |support| == |prio| == |parent| == |waitsP| == |born| == n
      ensures act.Some? ==> act.value < n
    {
    }

    /** enqueue_proc. */
    method EnqueueProc(p: nat)
      requires Rep() && Core(Abs()) && p < n && Loose(at[p])
      modifies this`at, pl
      ensures Rep() && Abs() == Enqueue(old(Abs()), p)
    {
      hide ListsOk, AslOk, ValuesOk, TreeOk, PriosOk, CountsOk, AllRings, Owned, Solo, Untouched, Parents;
      hide LooseSolo, KidsReady, PidsOk, Asl.Valid;
      LooseFacts(p);
      ListFacts();
      Replaced(p, if prio[p] == PRIO_HIGH then High else Low, pl.solo - {p});
      if prio[p] == PRIO_HIGH {
        InsertProcQ(pl, HIGH_H, p);
        at := at[p := High];
        AslKept();
      } else if prio[p] == PRIO_LOW {
        InsertProcQ(pl, LOW_H, p);
        at := at[p := Low];
        AslKept();
      }
    }

    /** dequeue_proc on the queue of high, or of low, priority. */
    method DequeueProc(high: bool) returns (p: Option<nat>)
      requires Rep() && Core(Abs())
      modifies this`at, pl
      ensures Rep()
      ensures p.Some? <==> (if high then old(Abs()).high else old(Abs()).low) != []
      ensures p == None ==> Abs() == old(Abs())
      ensures p.Some? && high ==> p.value == old(Abs()).high[0] && Abs() == PopHigh(old(Abs()))
      ensures p.Some? && !high ==> p.value == old(Abs()).low[0] && Abs() == PopLow(old(Abs()))
    {
      hide ListsOk, AslOk, ValuesOk, TreeOk, PriosOk, CountsOk, AllRings, Owned, Solo, Untouched, Parents;
      hide LooseSolo, KidsReady, PidsOk, Asl.Valid;
      ListFacts();
      PopLive(Abs());
      ghost var q := if high then pl.rings[HIGH_H] else pl.rings[LOW_H];
      if q != [] {
        Replaced(q[0], Detached, pl.solo + {q[0]});
      }
      p := RemoveProcQ(pl, if high then HIGH_H else LOW_H);
      AslKept();
      if p.Some? {
        at := at[p.value := Detached];
      }
    }

    lemma PopLive(s: Sys)
      requires Core(s)
      ensures s.high != [] ==> s.at[s.high[0]] != Free
      ensures s.low != [] ==> s.at[s.low[0]] != Free
    {
      PopCore(s);
    }

    // -------------------------------------------------------------- scheduler.c

    /** The process that yielded, if any, goes back to its queue. */
    method RequeueYielded()
      requires Rep() && Core(Abs())
      requires yielded.Some? ==> yielded.value < n && at[yielded.value] == Yielded
      modifies this`at, this`yielded, pl
      ensures Rep() && Abs() == Unyield(old(Abs()))
      ensures |at| == n && forall p :: 0 <= p < n && Loose(old(at)[p]) && old(yielded) != Some(p) ==>
              at[p] == old(at)[p]
    {
      hide ListsOk, AslOk, ValuesOk, TreeOk, PriosOk, CountsOk, AllRings, Owned, Solo, Untouched, Parents;
      hide LooseSolo, KidsReady, PidsOk, Asl.Valid;
      if yielded.Some? {
        EnqueueProc(yielded.value);
        yielded := None;
      }
    }

    /** load_proc, up to LDST; `elapsed` is what the clock advances before it is read. */
    method LoadProc(p: nat, elapsed: nat)
      requires Rep() && Core(Abs()) && p < n && (at[p] == Detached || at[p] == Running)
      requires yielded.Some? ==> yielded.value < n && at[yielded.value] == Yielded
      modifies this, pl
      ensures Rep() && Abs() == Load(old(Abs()), p, elapsed)
    {
      hide ListsOk, AslOk, ValuesOk, TreeOk, PriosOk, CountsOk, AllRings, Owned, Solo, Untouched, Parents;
      hide LooseSolo, KidsReady, PidsOk, Asl.Valid;
      hide Unyield, Core, Shape;
      TimesSized();
      ghost var s0 := Abs();
      RequeueYielded();
      ghost var s := Abs();
      assert s == Unyield(s0);
      Start(p, elapsed);
      assert Abs() == s.(act := Some(p), at := s.at[p := Running], clock := s.clock + elapsed,
                         upd := s.upd[p := s.clock + elapsed], mode := Active);
    }

    /** load_proc once nobody has yielded. */
    method Start(p: nat, elapsed: nat)
      requires Rep() && p < n && p < |upd| && Loose(at[p])
      modifies this`act, this`at, this`clock, this`upd, this`mode
      ensures Rep() && |old(at)| == n && p < |old(upd)|
      ensures Abs() == old(Abs()).(act := Some(p), at := old(at)[p := Running], clock := old(clock) + elapsed,
                                   upd := old(upd)[p := old(clock) + elapsed], mode := Active)
    {
      hide AllRings, Owned, Solo, Untouched, LooseSolo, KidsReady, PidsOk, Asl.Valid, Parents;
      Relabelled(p, Running);
      SetRunning(p, elapsed);
    }

    /** The scheduler's variables, and the times of the process loaded. */
    method SetRunning(p: nat, elapsed: nat)
      requires p < |at| && p < |upd|
      modifies this`act, this`at, this`clock, this`upd, this`mode
      ensures act == Some(p) && at == old(at)[p := Running] && clock == old(clock) + elapsed
      ensures upd == old(upd)[p := clock] && mode == Active
    {
      act := Some(p);
      at := at[p := Running];
      clock := clock + elapsed;
      upd := upd[p := clock];
      mode := Active;
    }

    /** A block in no list changes only what it is called. */
    lemma Relabelled(p: nat, x: Place)
      requires Rep() && p < n && Loose(at[p]) && x != Free
      ensures LooseSolo(at[p := x], pl.solo) && KidsReady(at[p := x], sl.ready) && PidsOk(at[p := x], pid, base, size)
    {
    }

    lemma YieldedFacts()
      requires Rep() && Core(Abs()) && Quiet(Abs())
      ensures yielded.Some? ==> yielded.value < n && at[yielded.value] == Yielded
      ensures pl.rings[LOW_H] != [] ==> pl.rings[LOW_H][0] < n
      ensures pl.rings[HIGH_H] != [] ==> pl.rings[HIGH_H][0] < n
    {
    }

    /** scheduler_next: the next process, the wait for an interrupt, the halt, or the deadlock panic. */
    method Dispatch(elapsed: nat)
      requires Rep() && Core(Abs()) && Quiet(Abs())
      modifies this, pl
      ensures Rep() && Abs() == SchedulerNext(old(Abs()), elapsed)
    {
      hide ListsOk, AslOk, ValuesOk, TreeOk, PriosOk, CountsOk, AllRings, Owned, Solo, Untouched, Parents;
      hide LooseSolo, KidsReady, PidsOk, Asl.Valid, ListMemory.Valid, Load, Unyield, Shape, Core;
      ListFacts();
      var noHigh := pl.IsEmpty(HIGH_H);
      var noLow := pl.IsEmpty(LOW_H);
      if !noHigh || !noLow {
        RunNext(!noHigh, elapsed);
      } else {
        RunNobody(elapsed);
      }
    }

    /** The oldest process of a queue that is not empty: of the high one, or of the low one when the high one is. */
    method RunNext(high: bool, elapsed: nat)
      requires Rep() && Core(Abs()) && Quiet(Abs())
      requires high == (Abs().high != []) && (high || Abs().low != [])
      modifies this, pl
      ensures Rep() && Abs() == SchedulerNext(old(Abs()), elapsed)
    {
      hide ListsOk, AslOk, ValuesOk, TreeOk, PriosOk, CountsOk, AllRings, Owned, Solo, Untouched, Parents;
      hide LooseSolo, KidsReady, PidsOk, Asl.Valid, ListMemory.Valid, Load, Unyield, Shape, Core;
      YieldedFacts();
      PopCore(Abs());
      var p := DequeueProc(high);
      LoadProc(p.value, elapsed);
    }

    /** With nothing ready: halt, wait or panic. */
    method RunNobody(ghost elapsed: nat)
      requires Rep() && Core(Abs()) && Quiet(Abs()) && Abs().high == [] && Abs().low == []
      modifies this, pl
      ensures Rep() && Abs() == SchedulerNext(old(Abs()), elapsed)
    {
      hide ListsOk, AslOk, ValuesOk, TreeOk, PriosOk, CountsOk, AllRings, Owned, Solo, Untouched, Parents;
      hide LooseSolo, KidsReady, PidsOk, Asl.Valid, ListMemory.Valid, Load, Unyield, Shape, Core;
      YieldedFacts();
      if procs == 0 {
        mode := Halted;
      } else if sb > 0 {
        RequeueYielded();
        act := None;
        mode := Idle;
      } else {
        mode := Panicked;
      }
    }

    // -------------------------------------------------------------- syscalls.c: P and V

    /** Its link points at itself, so passeren and verhogen need not unlink the caller first. */
    method CheckUnlinked(p: nat)
      requires Rep() && Core(Abs()) && p < n && at[p] == Running
    {
      hide ListsOk, AslOk, ValuesOk, TreeOk, PriosOk, CountsOk, AllRings, Owned, Solo, Untouched, Parents;
      LooseFacts(p);
      ListFacts();
      var empty := pl.IsSolo(p);
      if !empty {
        assert false;
      }
    }

    /** The blocking half of passeren and verhogen: insert_blocked cannot fail, so its panic is dead code. */
    method BlockCaller(k: Key, inP: bool)
      requires Rep() && Core(Abs()) && act.Some? && act.value < n && at[act.value] == Running
      modifies this`at, this`waitsP, this`sb, asl, pl, dl
      ensures Rep() && Abs() == Block(old(Abs()), k, inP)
    {
      hide ListsOk, AslOk, ValuesOk, TreeOk, PriosOk, CountsOk, AllRings, Owned, Solo, Untouched, Parents;
      hide LooseSolo, KidsReady, PidsOk, Asl.Valid;
      var a := act.value;
      CheckUnlinked(a);
      LooseFacts(a);
      TimesSized();
      Replaced(a, Blocked(k), pl.solo - {a});
      var full := asl.InsertBlocked(k, a);
      ListFacts0();
      if full {
        assert false;
      }
      at := at[a := Blocked(k)];
      waitsP := waitsP[a := inP];
      sb := sb + 1;
    }

    lemma Loosened(k: Key)
      requires Rep() && Core(Abs()) && k in asl.active
      ensures asl.active[k] != [] && asl.active[k][0] < n
      ensures var (p, solo) := (asl.active[k][0], pl.solo + {asl.active[k][0]});
              && LooseSolo(at[p := Detached], solo)
              && KidsReady(at[p := Detached], sl.ready) && PidsOk(at[p := Detached], pid, base, size)
    {
      hide ListsOk, AslOk, ValuesOk, TreeOk, PriosOk, CountsOk, LooseSolo, KidsReady, PidsOk, Asl.Valid, Begun;
      UnqueueCore(Abs(), k);
      Replaced(asl.active[k][0], Detached, pl.solo + {asl.active[k][0]});
    }

    /** remove_blocked, and the count of those blocked. */
    method Unblock(k: Key) returns (p: Option<nat>)
      requires Rep() && Core(Abs())
      modifies this`at, this`sb, asl, pl, dl
      ensures p == if k in old(asl.active) then Some(old(asl.active)[k][0]) else None
      ensures Rep() && (p == None ==> Abs() == old(Abs())) && (p.Some? ==> Abs() == Unqueue(old(Abs()), k))
    {
      hide ListsOk, AslOk, ValuesOk, TreeOk, PriosOk, CountsOk, AllRings, Owned, Solo, Untouched, Parents;
      hide LooseSolo, KidsReady, PidsOk, Asl.Valid, ListMemory.Valid, Rep, Begun, Core;
      RepPieces();
      if k in asl.active {
        Loosened(k);
      }
      p := asl.RemoveBlocked(k);
      ListFacts0();
      if p.Some? {
        Loosen(p.value);
      } else {
        RepAgain();
      }
    }

    /** A block taken off its semaphore counts as blocked no more. */
    method Loosen(p: nat)
      requires Apart() && Tables() && p < n
      requires LooseSolo(at[p := Detached], pl.solo) && KidsReady(at[p := Detached], sl.ready)
      requires PidsOk(at[p := Detached], pid, base, size) && Begun(born, parent, sl.ready)
      modifies this`at, this`sb
      ensures Rep() && p < |old(at)| && at == old(at)[p := Detached] && sb == old(sb) - 1
    {
      hide AllRings, Owned, Solo, Untouched, Asl.Valid, LooseSolo, KidsReady, PidsOk, ListMemory.Valid, Rep;
      at := at[p := Detached];
      sb := sb - 1;
      RepAgain();
    }

    /** The waking half: the oldest waiter, if there is one, goes to its ready queue. */
    method WakeOne(k: Key) returns (p: Option<nat>)
      requires Rep() && Core(Abs())
      modifies this`at, this`sb, asl, pl, dl
      ensures p == if k in old(asl.active) then Some(old(asl.active)[k][0]) else None
      ensures Rep() && (p == None ==> Abs() == old(Abs())) && (p.Some? ==> Abs() == Wake(old(Abs()), k))
    {
      hide ListsOk, AslOk, ValuesOk, TreeOk, PriosOk, CountsOk, AllRings, Owned, Solo, Untouched, Parents;
      hide LooseSolo, KidsReady, PidsOk, Asl.Valid;
      ghost var s := Abs();
      p := Unblock(k);
      if p.Some? {
        UnqueueCore(s, k);
        WakeIs(s, k);
        hide Shape, Unqueue, Wake;
        EnqueueProc(p.value);
      }
    }

    lemma WakeIs(s: Sys, k: Key)
      requires Core(s) && k in s.asl
      ensures Wake(s, k) == Enqueue(Unqueue(s, k), s.asl[k][0])
      ensures s.asl[k][0] < |s.at| && Unqueue(s, k).at[s.asl[k][0]] == Detached
    {
    }

    function Value(k: Key): int
      reads this
    {
      if k in sem then sem[k] else 0
    }

    /** passeren. */
    method Passeren(k: Key) returns (verdict: Verdict)
      requires Rep() && Core(Abs()) && act.Some? && act.value < n && at[act.value] == Running
      modifies this`at, this`waitsP, this`sb, this`sem, asl, pl, dl
      ensures Rep() && (Abs(), verdict) == P(old(Abs()), k)
    {
      hide ListsOk, AslOk, ValuesOk, TreeOk, PriosOk, CountsOk, AllRings, Owned, Solo, Untouched, Parents;
      hide LooseSolo, KidsReady, PidsOk, Asl.Valid, Wake, Block;
      if Value(k) == 0 {
        BlockCaller(k, true);
        return Nothing;
      }
      var p := WakeOne(k);
      if p == None {
        sem := sem[k := 0];
      }
      return Renqueue;
    }

    /** verhogen. */
    method Verhogen(k: Key) returns (p: Option<nat>)
      requires Rep() && Core(Abs()) && (act.Some? ==> act.value < n && at[act.value] == Running)
      modifies this`at, this`waitsP, this`sb, this`sem, asl, pl, dl
      ensures Rep() && (Abs(), p) == V(old(Abs()), k)
    {
      hide ListsOk, AslOk, ValuesOk, TreeOk, PriosOk, CountsOk, AllRings, Owned, Solo, Untouched, Parents;
      hide LooseSolo, KidsReady, PidsOk, Asl.Valid, Wake, Block;
      if Value(k) == 1 {
        if act == None {
          return None;
        }
        BlockCaller(k, false);
        return None;
      }
      p := WakeOne(k);
      if p == None {
        sem := sem[k := 1];
        p := act;
      }
    }

    // -------------------------------------------------------------- interrupts.c

    /** Within the pseudo-clock's loop. */
    ghost predicate Ticking()
      reads this, asl, pl, sl, dl
    {
      && Rep() && Inv(Abs()) && (act.Some? ==> at[act.value] == Running) && yielded == None
      && (SemVal(Abs(), Clock) == 0 || (SemVal(Abs(), Clock) == 1 && Clock !in Abs().asl))
    }

    ghost function TicksLeft(): nat
      reads this, asl, pl, sl
      requires |pl.rings| >= 3
    {
      |Queue(Abs(), Clock)| + (if SemVal(Abs(), Clock) == 1 then 0 else 1)
    }

    /** The pseudo-clock's interrupt: V until the semaphore is 1, then set it to 0. */
    method TickHandler()
      requires Ticking() && Value(Clock) == 0
      modifies this`at, this`waitsP, this`sb, this`sem, asl, pl, dl
      ensures Rep() && Abs() == ClockTick(old(Abs()))
    {
      hide ListsOk, AslOk, ValuesOk, TreeOk, PriosOk, CountsOk, AllRings, Owned, Solo, Untouched, Parents;
      hide LooseSolo, KidsReady, PidsOk, Asl.Valid, V, ClockLoop, ListMemory.Valid, Apart, Tables;
      while Value(Clock) != 1
        invariant Ticking() && act == old(act) && ClockLoop(Abs()) == ClockLoop(old(Abs()))
        decreases TicksLeft()
      {
        TickOnce();
      }
      LoopEnds(Abs());
      sem := sem[Clock := 0];
    }

    lemma LoopEnds(s: Sys)
      requires Shape(s) && SemVal(s, Clock) == 1
      ensures ClockLoop(s) == s
    {
    }

    method TickOnce()
      requires Ticking() && Value(Clock) != 1
      modifies this`at, this`waitsP, this`sb, this`sem, asl, pl, dl
      ensures Ticking() && act == old(act) && ClockLoop(Abs()) == ClockLoop(old(Abs()))
      ensures TicksLeft() < old(TicksLeft())
    {
      hide ListsOk, AslOk, ValuesOk, TreeOk, PriosOk, CountsOk, AllRings, Owned, Solo, Untouched, Parents;
      hide LooseSolo, KidsReady, PidsOk, Asl.Valid, V;
      ghost var s := Abs();
      VInv(s, Clock);
      LoopShrinks(s);
      var p := Verhogen(Clock);
    }

    lemma LoopShrinks(s: Sys)
      requires Shape(s) && SemVal(s, Clock) != 1
      ensures var r := V(s, Clock).0;
              |Queue(r, Clock)| + (if SemVal(r, Clock) == 1 then 0 else 1) <
              |Queue(s, Clock)| + (if SemVal(s, Clock) == 1 then 0 else 1)
    {
    }

    /** generic_interrupt_handler, once it knows the device: V, and the status to whoever it returns. */
    method CompleteHandler(k: Key, status: int)
      requires Rep() && Core(Abs()) && (act.Some? ==> act.value < n && at[act.value] == Running)
      modifies this`at, this`waitsP, this`sb, this`sem, this`v0, asl, pl, dl
      ensures Rep() && Abs() == Complete(old(Abs()), k, status)
    {
      hide ListsOk, AslOk, ValuesOk, TreeOk, PriosOk, CountsOk, AllRings, Owned, Solo, Untouched, Parents;
      hide LooseSolo, KidsReady, PidsOk, Asl.Valid, V;
      TimesSized();
      var p := Verhogen(k);
      if p.Some? {
        v0 := v0[p.value := status];
      }
    }

    // -------------------------------------------------------------- pcb.c

    lemma AddressesDiffer(p: nat, q: nat)
      requires size > 0 && p != q
      ensures PidOf(p) != PidOf(q)
    {
      if p < q {
        assert size * q == size * p + size * (q - p);
        assert size * (q - p) >= q - p by { Product(size, q - p); }
      } else {
        assert size * p == size * q + size * (p - q);
        assert size * (p - q) >= p - q by { Product(size, p - q); }
      }
    }

    lemma {:induction false} Product(a: nat, b: nat)
      requires a > 0
      ensures a * b >= b
    {
      if b > 0 {
        Product(a, b - 1);
        assert a * b == a * (b - 1) + a;
      }
    }

    /** is_alive: no free block has the same id. */
    method IsAlive(p: nat) returns (alive: bool)
      requires Rep() && Core(Abs()) && p < n && pid[p] == PidOf(p)
      ensures alive <==> at[p] != Free
    {
      hide AslOk, ValuesOk, TreeOk, PriosOk, CountsOk, AllRings, Owned, Solo, Untouched, LooseSolo, KidsReady, Parents;
      ghost var s := pl.rings[FREE_H];
      ListFacts();
      FreeRing();
      hide Ring, ListsOk, Asl.Valid;
      assert pl.next(Stop(FREE_H, s, 0)) == Stop(FREE_H, s, 1);
      var ptr := pl.next(Head(FREE_H));
      ghost var j := 0;
      while ptr != Head(FREE_H)
        invariant 0 <= j <= |s| && ptr == Stop(FREE_H, s, j + 1)
        invariant forall i :: 0 <= i < j ==> s[i] != p
        decreases |s| - j
      {
        assert s[j] in s;
        if pid[ptr.i] == pid[p] {
          if s[j] != p {
            AddressesDiffer(s[j], p);
          }
          return false;
        }
        assert pl.next(Stop(FREE_H, s, j + 1)) == Stop(FREE_H, s, j + 2);
        ptr := pl.next(ptr);
        j := j + 1;
      }
      return true;
    }

    lemma FreeRing()
      requires Rep() && Core(Abs())
      ensures var s := pl.rings[FREE_H];
              && (forall p: nat :: p in s <==> p < n && at[p] == Free)
              && (forall j {:trigger Stop(FREE_H, s, j)} :: 0 <= j <= |s| ==>
                 pl.next(Stop(FREE_H, s, j)) == Stop(FREE_H, s, j + 1))
    {
      hide AslOk, ValuesOk, TreeOk, PriosOk, CountsOk, Owned, Solo, Untouched, LooseSolo, KidsReady, Described;
      hide Blockers, Parents;
      assert Ring(pl.next, pl.prev, FREE_H, pl.rings[FREE_H]);
    }

    /** alloc_pcb on a non-empty free list, as far as links go: out of the free list, and alone. */
    method AllocLinks() returns (p: nat)
      requires Rep() && Core(Abs()) && pl.rings[FREE_H] != []
      modifies pl, sl
      ensures p == old(pl.rings)[FREE_H][0] && p < n && old(at)[p] == Free
      ensures asl.Valid() && sl.Valid() && |pl.rings| == 3 + n && |sl.owner| == n
      ensures pl.rings[FREE_H] == old(pl.rings)[FREE_H][1..]
      ensures pl.rings[LOW_H] == old(pl.rings)[LOW_H] && pl.rings[HIGH_H] == old(pl.rings)[HIGH_H]
      ensures FREE_H in pl.ready && LOW_H in pl.ready && HIGH_H in pl.ready
      ensures pl.solo == old(pl.solo) + {p} && sl.ready == old(sl.ready) + {p}
      ensures sl.rings == old(sl.rings) && sl.owner == old(sl.owner) && sl.owner[p] == None
    {
      hide AslOk, ValuesOk, PriosOk, CountsOk, AllRings, Solo, Untouched, Parents;
      hide LooseSolo, KidsReady, PidsOk, Asl.Valid;
      FreshBlock();
      ListFacts();
      hide ListsOk, TreeOk, Owned;
      var e := RemoveProcQ(pl, FREE_H);
      p := e.value;
      AslKept();
      sl.InitHead(p);
      sl.InitElem(p);
    }

    lemma FreshBlock()
      requires Rep() && Core(Abs()) && pl.rings[FREE_H] != []
      ensures var p := pl.rings[FREE_H][0];
              p < n && at[p] == Free && sl.rings[p] == [] && sl.owner[p] == None
    {
      var p := pl.rings[FREE_H][0];
      assert p in pl.rings[FREE_H];
      if sl.owner[p].Some? {
        assert p in sl.rings[sl.owner[p].value];
      }
    }

    /** mk_proc; None when the table is full. */
    method MkProc(prio0: int, support0: int, reg0: int) returns (r: Option<nat>)
      requires Rep() && Core(Abs()) && act.Some? && act.value < n && at[act.value] == Running
      modifies this, pl, sl
      ensures Rep() && (Abs(), r) == NucleusState.MkProc(old(Abs()), prio0, support0, reg0)
      ensures act == old(act) && |v0| == n
      ensures r.Some? ==> r.value < n && |pid| == n && pid[r.value] == PidOf(r.value)
    {
      hide ListsOk, AslOk, ValuesOk, TreeOk, PriosOk, CountsOk, AllRings, Owned, Solo, Untouched, Parents;
      hide LooseSolo, KidsReady, PidsOk, Asl.Valid;
      ghost var s := Abs();
      ListFacts();
      TimesSized();
      var full := pl.IsEmpty(FREE_H);
      if full {
        return None;
      }
      var p := CreateBlock(prio0, support0, reg0);
      SpawnCore(s, prio0, support0, reg0);
      EnqueueProc(p);
      r := Some(p);
    }

    /** The body of mk_proc between alloc_pcb and enqueue_proc. */
    method CreateBlock(prio0: int, support0: int, reg0: int) returns (p: nat)
      requires Rep() && Core(Abs()) && act.Some? && act.value < n && at[act.value] == Running
      requires pl.rings[FREE_H] != []
      modifies this, pl, sl
      ensures p == old(pl.rings)[FREE_H][0] && p < n && act == old(act) && |v0| == n
      ensures |pid| == n && pid[p] == PidOf(p)
      ensures Rep() && Abs() == Spawn(old(Abs()), prio0, support0, reg0)
    {
      hide ListsOk, AslOk, ValuesOk, TreeOk, PriosOk, CountsOk, AllRings, Owned, Solo, Untouched, Asl.Valid, Parents;
      hide LooseSolo, KidsReady, PidsOk, Core, Shape, PidOf, ListMemory.Valid, Rep, Spawn, Apart, Tables;
      RepPieces();
      TimesSized();
      CallerReady();
      SpawnIs(Abs(), prio0, support0, reg0);
      ParentsWrite(parent, pl.rings[FREE_H][0], ChildOf(act.value));
      p := AllocFilled(prio0, support0, reg0);
    }

    /** A filled block becomes a process. */
    method Admit(p: nat)
      requires Apart() && Tables() && p < n && p < |born|
      requires LooseSolo(at[p := Detached], pl.solo) && KidsReady(at[p := Detached], sl.ready)
      requires PidsOk(at[p := Detached], pid, base, size) && Begun(born[p := births], parent, sl.ready)
      modifies this`procs, this`at, this`born, this`births
      ensures Rep() && |old(at)| == n && p < |old(born)|
      ensures procs == old(procs) + 1 && at == old(at)[p := Detached]
      ensures born == old(born)[p := old(births)] && births == old(births) + 1
    {
      hide AllRings, Owned, Solo, Untouched, Asl.Valid, LooseSolo, KidsReady, PidsOk, ListMemory.Valid, Rep;
      procs := procs + 1;
      at := at[p := Detached];
      born, births := born[p := births], births + 1;
      RepAgain();
    }

    /** alloc_pcb, the fields mk_proc sets, and insert_child. */
    method AllocFilled(prio0: int, support0: int, reg0: int) returns (p: nat)
      requires Rep() && Core(Abs()) && act.Some? && act.value < n && at[act.value] == Running
      requires pl.rings[FREE_H] != []
      modifies this`support, this`prio, this`v0, this`time, this`upd, this`pid, this`parent, pl, sl
      modifies this`procs, this`at, this`born, this`births
      ensures p == old(pl.rings)[FREE_H][0] && p < n && Rep() && |pl.rings| == 3 + n
      ensures pl.rings[FREE_H] == old(pl.rings)[FREE_H][1..]
      ensures pl.rings[LOW_H] == old(pl.rings)[LOW_H] && pl.rings[HIGH_H] == old(pl.rings)[HIGH_H]
      ensures sl.rings == old(sl.rings)[act.value := [p] + old(sl.rings)[act.value]]
      ensures |old(at)| == |old(born)| == n && procs == old(procs) + 1 && at == old(at)[p := Detached]
      ensures born == old(born)[p := old(births)] && births == old(births) + 1
      ensures |old(support)| == |old(prio)| == |old(v0)| == |old(time)| == |old(upd)| == |old(pid)| == n
      ensures |old(parent)| == n
      ensures support == old(support)[p := support0] && prio == old(prio)[p := prio0]
      ensures v0 == old(v0)[p := reg0] && time == old(time)[p := 0] && upd == old(upd)[p := 0]
      ensures pid == old(pid)[p := PidOf(p)] && parent == old(parent)[p := ChildOf(act.value)]
    {
      hide AllRings, Owned, Solo, Untouched, Asl.Valid, LooseSolo, KidsReady, PidsOk, Core, Shape, Rep, Abs, PidOf;
      hide Begun, ListMemory.Valid, Allocated;
      RepPieces();
      TimesSized();
      CallerReady();
      Created(pl.rings[FREE_H][0], pl.solo, sl.ready);
      BegunNew(born, parent, sl.ready, pl.rings[FREE_H][0], births, ChildOf(act.value));
      p := AllocLinks();
      FillBlock(p, prio0, support0, reg0);
      InsertChild(act.value, p);
      Admit(p);
    }

    /** A free block has no children to begin with. */
    lemma SpawnIs(s: Sys, prio0: int, support0: int, reg0: int)
      requires Core(s) && s.act.Some? && s.free != []
      ensures Shape(s) && s.free[0] < |s.at|
      ensures var p, a := s.free[0], s.act.value;
              Spawn(s, prio0, support0, reg0) ==
              s.(free := s.free[1..], at := s.at[p := Detached], parent := s.parent[p := Some(a)],
                 kids := s.kids[a := [p] + s.kids[a]], born := s.born[p := s.births], births := s.births + 1,
                 prio := s.prio[p := prio0], support := s.support[p := support0], v0 := s.v0[p := reg0],
                 time := s.time[p := 0], upd := s.upd[p := 0], procs := s.procs + 1)
    {
      assert s.free[0] in s.free;
      assert s.kids[s.free[0] := []] == s.kids;
    }

    lemma RepPieces()
      requires Rep()
      ensures Apart() && Tables() && |pid| == n && Begun(born, parent, sl.ready)
      ensures LooseSolo(at, pl.solo) && KidsReady(at, sl.ready) && PidsOk(at, pid, base, size)
    {
    }

    /** The kernel's objects are four different ones. */
    ghost predicate Apart() {
      pl != sl && pl != dl && sl != dl && asl.queues == pl && asl.semds == dl && asl.n == n && base > 0 && size > 0
    }

    /** Rep but for what it says of `at`. */
    ghost predicate Tables()
      reads this, asl, pl, sl, dl
    {
      && asl.queues == pl && asl.semds == dl
      && asl.Valid() && sl.Valid() && |pl.rings| == 3 + n
      && |at| == n && |sl.rings| == n && |sl.owner| == n
      && FREE_H in pl.ready && LOW_H in pl.ready && HIGH_H in pl.ready
    }

    lemma RepAgain()
      requires Apart() && Tables() && Begun(born, parent, sl.ready)
      requires LooseSolo(at, pl.solo) && KidsReady(at, sl.ready) && PidsOk(at, pid, base, size)
      ensures Rep()
    {
    }

    lemma CallerReady()
      requires Rep() && Core(Abs()) && act.Some? && act.value < n && at[act.value] == Running
      ensures act.value in sl.ready && |parent| == n && births > 0
      ensures pl.rings[FREE_H] != [] ==> pl.rings[FREE_H][0] < n
    {
    }

    lemma Created(p: nat, solo: set<nat>, ready: set<nat>)
      requires Rep() && p < n && solo == pl.solo && ready == sl.ready
      ensures LooseSolo(at[p := Detached], solo + {p}) && KidsReady(at[p := Detached], ready + {p})
      ensures |pid| == n && PidsOk(at[p := Detached], pid[p := PidOf(p)], base, size)
    {
    }

    /** The fields alloc_pcb clears and mk_proc then sets. */
    method FillBlock(p: nat, prio0: int, support0: int, reg0: int)
      requires p < |support| == |prio| == |v0| == |time| == |upd| == |pid|
      modifies this`support, this`prio, this`v0, this`time, this`upd, this`pid
      ensures support == old(support)[p := support0] && prio == old(prio)[p := prio0]
      ensures v0 == old(v0)[p := reg0] && time == old(time)[p := 0] && upd == old(upd)[p := 0]
      ensures pid == old(pid)[p := PidOf(p)]
    {
      v0, time, upd := v0[p := 0], time[p := 0], upd[p := 0];
      support, prio := support[p := support0], prio[p := prio0];
      pid := pid[p := PidOf(p)];
      v0 := v0[p := reg0];
    }

    /** insert_child: the newest child is the first of its parent's list. */
    method InsertChild(prnt: nat, p: nat)
      requires sl.Valid() && prnt in sl.ready && p < |sl.owner| && sl.owner[p] == None
      requires prnt < |sl.rings| && p < |parent|
      modifies this`parent, sl
      ensures sl.Valid() && sl.ready == old(sl.ready) && sl.owner == old(sl.owner)[p := Some(prnt)]
      ensures sl.rings == old(sl.rings)[prnt := [p] + old(sl.rings)[prnt]]
      ensures parent == old(parent)[p := ChildOf(prnt)]
    {
      parent := parent[p := ChildOf(prnt)];
      sl.Add(p, prnt);
    }

    // -------------------------------------------------------------- termination

    /** remove_child. */
    method RemoveChild(p: nat) returns (c: Option<nat>)
      requires Rep() && Core(Abs()) && p < n && Allocated(Abs(), p)
      modifies this`parent, sl
      ensures Rep()
      ensures c == None <==> old(Abs()).kids[p] == []
      ensures c == None ==> Abs() == old(Abs()) && unchanged(sl)
      ensures c.Some? ==> c.value < n && c.value == old(Abs()).kids[p][0] && Abs() == K.Detach(old(Abs()), p)
    {
      hide ListsOk, AslOk, ValuesOk, TreeOk, PriosOk, CountsOk, AllRings, Owned, Solo, Untouched, Core;
      hide LooseSolo, PidsOk, KidsReady, Begun, Asl.Valid, ListMemory.Valid, Rep, Parents;
      RepPieces();
      TimesSized();
      ChildReady(p);
      ChildFacts(p);
      c := sl.First(p);
      if c.Some? {
        BegunWrite(born, parent, sl.ready, c.value, Null);
        ParentsWrite(parent, c.value, Null);
        CutFirst(p, c.value);
        parent := parent[c.value := Null];
        RepAgain();
      }
    }

    lemma ChildReady(p: nat)
      requires Rep() && p < n && Allocated(Abs(), p)
      ensures p in sl.ready && sl.Valid() && |sl.rings| == |sl.owner| == n
    {
    }

    /** The links of remove_child. */
    method CutFirst(ghost p: nat, c: nat)
      requires sl.Valid() && p < |sl.rings| && NoDup(sl.rings[p]) && sl.rings[p] != [] && c == sl.rings[p][0]
      requires c < |sl.owner| && sl.owner[c] == Some(p)
      modifies sl
      ensures sl.Valid() && sl.ready == old(sl.ready) && |sl.owner| == old(|sl.owner|)
      ensures sl.rings == old(sl.rings)[p := old(sl.rings)[p][1..]]
    {
      hide AllRings, Owned, Solo, Untouched, ListMemory.Valid;
      WithoutAt<nat>(sl.rings[p], 0);
      assert sl.rings[p][..0] + sl.rings[p][1..] == sl.rings[p][1..];
      sl.Del(c);
    }

    lemma ChildFacts(p: nat)
      requires Rep() && Core(Abs()) && p < n
      ensures NoDup(sl.rings[p])
      ensures sl.rings[p] != [] ==> sl.rings[p][0] < n && sl.owner[sl.rings[p][0]] == Some(p)
      ensures |parent| == n && (sl.rings[p] != [] ==> parent[sl.rings[p][0]].ChildOf?)
      ensures parent[p].ChildOf? ==> parent[p].of < n && sl.owner[p] == Some(parent[p].of)
    {
      hide ListsOk, AslOk, ValuesOk, PriosOk, CountsOk, AllRings, Solo, Untouched, LooseSolo, KidsReady, PidsOk, Begun;
      hide Asl.Valid;
      assert |Abs().parent| == n;
      assert OwnedBy(sl.rings[p], sl.owner, p);
      if parent[p].ChildOf? { assert Abs().parent[p] == Some(parent[p].of); }
      if sl.rings[p] != [] {
        assert sl.rings[p][0] in sl.rings[p] && Abs().parent[sl.rings[p][0]] == Some(p);
      }
      if parent[p].ChildOf? {
        assert p in sl.rings[parent[p].of] && OwnedBy(sl.rings[parent[p].of], sl.owner, parent[p].of);
      }
    }

    /** out_child. */
    method OutChild(p: nat)
      requires sl.Valid() && |sl.owner| == n && |sl.rings| == n && |parent| == n && p < n
      requires parent[p] != Zero && (parent[p].ChildOf? ==> parent[p].of < n && sl.owner[p] == Some(parent[p].of))
      modifies this`parent, sl
      ensures sl.Valid() && sl.ready == old(sl.ready) && |sl.owner| == n && |sl.rings| == n
      ensures parent == old(parent)[p := Null]
      ensures sl.rings == Unparented(old(sl.rings), old(parent)[p], p)
    {
      hide AllRings, Owned, Solo, Untouched;
      if parent[p] != Null {
        sl.Del(p);
        parent := parent[p := Null];
      }
    }

    /** Which lists a live block may be in, as kill_proc finds out. */
    ghost predicate Linked(p: nat)
      reads this`at, this`prio, asl, pl, dl
    {
      && pl != dl && asl.queues == pl && asl.semds == dl && asl.n == n && asl.Valid() && p < n && p < |at| && p < |prio|
      && |asl.semAdd| == n && |pl.rings| == 3 + n
      && FREE_H in pl.ready && LOW_H in pl.ready && HIGH_H in pl.ready
      && asl.semAdd[p] == (if at[p].Blocked? then Some(at[p].key) else None)
      && (at[p].Blocked? ==> at[p].key in asl.active)
      && (p in pl.rings[LOW_H] ==> at[p] == Low && prio[p] == PRIO_LOW)
      && (p in pl.rings[HIGH_H] ==> at[p] == High && prio[p] == PRIO_HIGH)
      && (p in pl.rings[LOW_H] || p in pl.rings[HIGH_H] || at[p].Blocked? || p in pl.solo)
      && (p !in pl.rings[LOW_H] ==> Without<nat>(pl.rings[LOW_H], {p}) == pl.rings[LOW_H])
      && (p !in pl.rings[HIGH_H] ==> Without<nat>(pl.rings[HIGH_H], {p}) == pl.rings[HIGH_H])
    }

    lemma WhereLinked(p: nat)
      requires Rep() && Core(Abs()) && p < n && at[p] != Free
      ensures Linked(p) && (at[p].Blocked? ==> at[p].key in asl.active)
    {
      hide ValuesOk, TreeOk, CountsOk, AllRings, Owned, Solo, Untouched, PidsOk, KidsReady, Described, Parents;
      if at[p].Blocked? {
        assert Holds(asl.active[at[p].key], at, at[p]);
        AllWaiting(at[p].key, p);
      } else {
        NotWaiting(p);
      }
      if at[p] != Low { WithoutAbsent<nat>(pl.rings[LOW_H], {p}); }
      if at[p] != High { WithoutAbsent<nat>(pl.rings[HIGH_H], {p}); }
    }

    lemma AllWaiting(k: Key, p: nat)
      requires asl.Valid() && k in asl.active && p in asl.active[k] && p < asl.n
      ensures asl.semAdd[p] == Some(k)
    {
      assert AllWait(asl.active[k], asl.semAdd, k);
    }

    lemma NotWaiting(p: nat)
      requires Rep() && Core(Abs()) && p < n && !at[p].Blocked?
      ensures asl.semAdd[p] == None
    {
      hide ValuesOk, TreeOk, PriosOk, CountsOk, Parents;
    }

    /** kill_proc's out_blocked, on a process that waits: it is found. */
    method LeaveSemaphore(p: nat)
      requires Linked(p)
      modifies this`sb, asl, pl, dl
      ensures asl.Valid() && |pl.rings| == 3 + n && pl.ready == old(pl.ready) && old(pl.solo) <= pl.solo
      ensures forall h :: 0 <= h < 3 ==> pl.rings[h] == old(pl.rings)[h]
      ensures at[p].Blocked? ==> p in pl.solo && sb == old(sb) - 1
      ensures at[p].Blocked? ==>
                asl.active == Shrunk(old(asl.active), at[p].key, Without<nat>(old(asl.active)[at[p].key], {p}))
      ensures !at[p].Blocked? ==> asl.active == old(asl.active) && sb == old(sb)
    {
      hide AllRings, Owned, Solo, Untouched, Asl.Valid;
      if asl.semAdd[p].Some? {
        sb := sb - 1;
        var found := asl.OutBlocked(p);
        if !found {
          assert false;
        }
        ListFacts0();
      }
    }

    /** kill_proc from out_blocked to free_pcb. */
    method LeaveQueues(p: nat)
      requires Linked(p)
      modifies this`sb, asl, pl, dl
      ensures asl.Valid() && |pl.rings| == 3 + n && pl.ready == old(pl.ready) && old(pl.solo) - {p} <= pl.solo
      ensures pl.rings[FREE_H] == [p] + old(pl.rings)[FREE_H]
      ensures pl.rings[LOW_H] == Without<nat>(old(pl.rings)[LOW_H], {p})
      ensures pl.rings[HIGH_H] == Without<nat>(old(pl.rings)[HIGH_H], {p})
      ensures sb == old(sb) - (if at[p].Blocked? then 1 else 0)
      ensures asl.active == if at[p].Blocked?
                            then Shrunk(old(asl.active), at[p].key, Without<nat>(old(asl.active)[at[p].key], {p}))
                            else old(asl.active)
    {
      hide AllRings, Owned, Asl.Valid;
      LeaveSemaphore(p);
      ListFacts0();
      label Unblocked:
      var found := false;
      if prio[p] == PRIO_HIGH {
        found := OutProcQ(pl, HIGH_H, p);
      } else if prio[p] == PRIO_LOW {
        found := OutProcQ(pl, LOW_H, p);
      }
      pl.Add(p, FREE_H);
      AslKept@Unblocked();
    }

    /** kill_proc, on a process without children. */
    method KillProc(p: nat)
      requires Rep() && Core(Abs()) && p < n && at[p] != Free && sl.rings[p] == []
      requires parent[p].ChildOf? ==> parent[p].of < n
      modifies this`procs, this`sb, this`parent, this`at, asl, pl, sl, dl
      ensures Rep() && Abs() == K.DropOne(old(Abs()), p)
    {
      hide ListsOk, AslOk, ValuesOk, TreeOk, PriosOk, CountsOk, AllRings, Owned, Solo, Untouched, Parents;
      hide LooseSolo, PidsOk, KidsReady, Asl.Valid, Core, Shape, Linked, K.DropOne, Apart;
      ghost var s := Abs();
      TimesSized();
      RepPieces();
      KillFields(p);
      RepAgain();
    }

    lemma LiveParent(p: nat)
      requires Rep() && p < n && at[p] != Free
      ensures p < |parent| ==> parent[p] != Zero
    {
    }

    /** kill_proc, field by field. */
    method KillFields(p: nat)
      requires Rep() && Core(Abs()) && p < n && at[p] != Free && sl.rings[p] == []
      requires parent[p].ChildOf? ==> parent[p].of < n
      modifies this`procs, this`sb, this`parent, this`at, asl, pl, sl, dl
      ensures Tables() && Abs() == K.DropOne(old(Abs()), p)
      ensures LooseSolo(at, pl.solo) && KidsReady(at, sl.ready) && PidsOk(at, pid, base, size)
      ensures Begun(born, parent, sl.ready)
    {
      hide ListsOk, AslOk, ValuesOk, TreeOk, PriosOk, CountsOk, AllRings, Owned, Solo, Untouched, KillWrites, K.DropOne,
        Parents;
      hide Begun;
      hide LooseSolo, PidsOk, KidsReady, Asl.Valid, Core, Shape, Linked, ListMemory.Valid, Rep, Shrunk, Without;
      RepPieces();
      TimesSized();
      WhereLinked(p);
      ChildFacts(p);
      Dead(p, pl.solo - {p});
      LiveParent(p);
      BegunWrite(born, parent, sl.ready, p, Null);
      ghost var solo := pl.solo - {p};
      KillLinks(p);
      Bury(p, solo);
      WroteDropOne(p);
    }

    /** What kill_proc has written, the block's place apart. */
    twostate predicate KillWrites(p: nat)
      reads this`procs, this`sb, this`parent, asl, pl, sl
    {
      && |old(pl.rings)| >= 3 && |pl.rings| >= 3 && p < |old(at)| && p < |old(parent)|
      && pl.rings[FREE_H] == [p] + old(pl.rings)[FREE_H]
      && pl.rings[LOW_H] == Without<nat>(old(pl.rings)[LOW_H], {p})
      && pl.rings[HIGH_H] == Without<nat>(old(pl.rings)[HIGH_H], {p})
      && procs == old(procs) - 1 && sb == old(sb) - (if old(at)[p].Blocked? then 1 else 0)
      && (old(at)[p].Blocked? ==> old(at)[p].key in old(asl.active))
      && asl.active == (if old(at)[p].Blocked?
                        then Shrunk(old(asl.active), old(at)[p].key, Without<nat>(old(asl.active)[old(at)[p].key], {p}))
                        else old(asl.active))
      && parent == old(parent)[p := Null] && old(parent)[p] != Zero
      && (old(parent)[p].ChildOf? ==> old(parent)[p].of < |old(sl.rings)|)
      && sl.rings == Unparented(old(sl.rings), old(parent)[p], p)
    }

    /** That is the removal of one process. */
    twostate lemma WroteDropOne(p: nat)
      requires KillWrites(p) && at == old(at)[p := Free] && Shape(old(Abs()))
      requires unchanged(this`prio, this`support, this`v0, this`time, this`upd, this`pid, this`sem, this`clock)
      requires unchanged(this`act, this`yielded, this`mode, this`born, this`births, this`waitsP)
      ensures Abs() == K.DropOne(old(Abs()), p)
    {
      hide Shrunk, Without;
    }

    /** The block counts as free, wherever it was. */
    method Bury(p: nat, ghost solo: set<nat>)
      requires p < |at| && LooseSolo(at[p := Free], solo) && solo <= pl.solo
      modifies this`at
      ensures p < |old(at)| && at == old(at)[p := Free] && LooseSolo(at, pl.solo)
    {
      StillLoose(at[p := Free], solo, pl.solo);
      at := at[p := Free];
    }

    lemma StillLoose(at: seq<Place>, solo: set<nat>, more: set<nat>)
      requires LooseSolo(at, solo) && solo <= more
      ensures LooseSolo(at, more)
    {
    }

    /** Everything kill_proc writes. */
    method KillLinks(p: nat)
      requires Linked(p) && Apart() && Tables() && |parent| == n
      requires parent[p] != Zero && (parent[p].ChildOf? ==> parent[p].of < n && sl.owner[p] == Some(parent[p].of))
      modifies this`procs, this`sb, this`parent, asl, pl, sl, dl
      ensures Tables() && old(pl.solo) - {p} <= pl.solo && sl.ready == old(sl.ready) && KillWrites(p)
      ensures p < |old(parent)| && parent == old(parent)[p := Null]
    {
      hide AllRings, Owned, Solo, Untouched, Asl.Valid, Linked, Shrunk, Without, ListMemory.Valid;
      LinkedBlocked(p);
      KillEach(p);
    }

    method KillEach(p: nat)
      requires Linked(p) && Apart() && Tables() && |parent| == n
      requires parent[p] != Zero && (parent[p].ChildOf? ==> parent[p].of < n && sl.owner[p] == Some(parent[p].of))
      modifies this`procs, this`sb, this`parent, asl, pl, sl, dl
      ensures Tables() && old(pl.solo) - {p} <= pl.solo
      ensures pl.rings[FREE_H] == [p] + old(pl.rings)[FREE_H]
      ensures pl.rings[LOW_H] == Without<nat>(old(pl.rings)[LOW_H], {p})
      ensures pl.rings[HIGH_H] == Without<nat>(old(pl.rings)[HIGH_H], {p})
      ensures procs == old(procs) - 1 && sb == old(sb) - (if at[p].Blocked? then 1 else 0)
      ensures asl.active == if at[p].Blocked?
                            then Shrunk(old(asl.active), at[p].key, Without<nat>(old(asl.active)[at[p].key], {p}))
                            else old(asl.active)
      ensures sl.ready == old(sl.ready)
      ensures parent == old(parent)[p := Null]
      ensures sl.rings == Unparented(old(sl.rings), old(parent)[p], p)
    {
      hide AllRings, Owned, Solo, Untouched, Asl.Valid, Linked, Shrunk, Without, Unparented, ListMemory.Valid;
      LinkedBlocked(p);
      LinkedPlaces(p);
      procs := procs - 1;
      OutChild(p);
      LeaveQueues(p);
    }

    lemma LinkedPlaces(p: nat)
      requires Tables()
      ensures asl.Valid() && sl.Valid() && |pl.rings| == 3 + n && |at| == n && |sl.rings| == n && |sl.owner| == n
    {
    }

    lemma LinkedBlocked(p: nat)
      requires Linked(p)
      ensures p < n && p < |at| && |pl.rings| == 3 + n && (at[p].Blocked? ==> at[p].key in asl.active)
      ensures asl.queues == pl && asl.semds == dl && pl != dl
    {
    }

    lemma Dead(p: nat, solo: set<nat>)
      requires Rep() && p < n && pl.solo - {p} <= solo
      ensures LooseSolo(at[p := Free], solo)
      ensures KidsReady(at[p := Free], sl.ready) && PidsOk(at[p := Free], pid, base, size)
    {
    }

    // -------------------------------------------------------------- NSYS2 on a free block

    /** What kill_parent_and_progeny finds of a freed block: no child, no parent, no semaphore, no ready queue. */
    lemma FreedBlock(p: nat)
      requires Rep() && Core(Abs()) && p < n && at[p] == Free && Allocated(Abs(), p)
      ensures p in sl.ready && sl.rings[p] == [] && |parent| == |prio| == |asl.semAdd| == n
      ensures parent[p] == Null && asl.semAdd[p] == None
      ensures p !in pl.rings[LOW_H] && p !in pl.rings[HIGH_H]
    {
      hide ListsOk, ValuesOk, PriosOk, CountsOk, AllRings, Owned, Solo, Untouched, LooseSolo, KidsReady, PidsOk,
        Described;
      FreeUnlinked(Abs(), p);
      LooseUnqueued(at, asl.active, asl.semAdd, p);
    }

    static lemma FreeUnlinked(s: Sys, p: nat)
      requires Shape(s) && ListsOk(s) && p < |s.at| && s.at[p] == Free
      ensures p !in s.low && p !in s.high && p in s.free
    {
    }

    /**
     * A block that was never allocated is another matter: remove_child finds its list of children empty exactly if
     * the sentinel already pointed at itself in static memory, and its p_parent is not NULL.
     */
    lemma NeverAllocated(p: nat)
      requires Rep() && Core(Abs()) && p < n && !Allocated(Abs(), p)
      ensures |parent| == n && parent[p] != Null
      ensures sl.next(Head(p)) == Head(p) <==> sl.start(Head(p)) == Head(p)
    {
    }

    /** kill_proc on a block that was freed: nothing but the count and list_add's links. */
    method KillFreed(p: nat)
      requires Rep() && Core(Abs()) && p < n && at[p] == Free && Allocated(Abs(), p)
      modifies this`procs, this`sb, this`parent, asl, pl, sl, dl
      ensures |pl.rings| >= 3 && Abs() == old(Abs()).(procs := old(procs) - 1) && pid == old(pid)
      ensures pl.next == AddedNext(old(pl.next), FREE_H, p)
    {
      hide ListsOk, AslOk, ValuesOk, TreeOk, PriosOk, CountsOk, AllRings, Owned, Solo, Untouched, Core;
      hide LooseSolo, KidsReady, PidsOk, Begun;
      FreedBlock(p);
      ListFacts();
      procs := procs - 1;
      if parent[p] != Null {
        assert false;
      }
      if asl.semAdd[p].Some? {
        assert false;
      }
      var found := false;
      if prio[p] == PRIO_HIGH {
        found := OutProcQ(pl, HIGH_H, p);
      } else if prio[p] == PRIO_LOW {
        found := OutProcQ(pl, LOW_H, p);
      }
      asl.ClearSemAdd(p);
      pl.Prepend(p, FREE_H);
    }

    /** After `i + 1` links the walk is at a block, and not at one with the id of `a`. */
    static ghost predicate Circling(next: Pointers, pid: seq<nat>, a: nat, i: nat)
      requires a < |pid|
    {
      var w := Walk(next, Head(FREE_H), i + 1);
      w.Elem? && w.i < |pid| && pid[w.i] != pid[a]
    }

    /** The loop of is_alive, cut off after `turns` turns. */
    method AliveFor(a: nat, turns: nat) returns (walking: bool)
      requires a < |pid| && forall i :: Circling(pl.next, pid, a, i)
      ensures walking
    {
      var ptr := pl.next(Head(FREE_H));
      for i := 0 to turns
        invariant ptr == Walk(pl.next, Head(FREE_H), i + 1)
      {
        assert Circling(pl.next, pid, a, i);
        if ptr == Head(FREE_H) {
          assert false;
          return false;
        }
        if pid[ptr.i] == pid[a] {
          assert false;
          return false;
        }
        ptr := pl.next(ptr);
      }
      return true;
    }

    /** The walk that is_alive then begins meets neither the sentinel nor the caller's id. */
    lemma FreeTargetNeverReturns(p: nat, a: nat, i: nat)
      requires Rep() && Core(Abs()) && p < n && at[p] == Free && a < n && at[a] != Free
      ensures |pid| == n && Circling(AddedNext(pl.next, FREE_H, p), pid, a, i)
    {
      hide AslOk, ValuesOk, TreeOk, PriosOk, CountsOk, LooseSolo, KidsReady, Asl.Valid, Parents;
      FreeUnlinked(Abs(), p);
      ListFacts();
      var s := pl.rings[FREE_H];
      var k :| 0 <= k < |s| && s[k] == p;
      FreeRing();
      AddedTwiceLoops(pl.next, pl.prev, FREE_H, s, k, i);
      hide ListsOk, AllRings, Owned, Solo, Untouched, AddedNext, Walk, Ring;
      var m :| 0 <= m <= k && Walk(AddedNext(pl.next, FREE_H, p), Head(FREE_H), i + 1) == Elem(s[m]);
      assert s[m] in s;
      AddressesDiffer(s[m], a);
    }

    /**
     * NSYS2 on a block that was freed: remove_child finds no child, kill_proc counts one process less and links the
     * block into the free list a second time, and however many turns one waits is_alive is still walking that list.
     */
    method TerminateFree(p: nat, turns: nat) returns (walking: bool)
      requires Rep() && Settled(Abs())
      requires Possible(Abs(), Event.TermProcess(Some(p))) && Hangs(Abs(), Event.TermProcess(Some(p)))
      modifies this`procs, this`sb, this`parent, this`mode, asl, pl, sl, dl
      ensures walking && |pl.rings| >= 3
      ensures (Abs(), Resumed) == Handle(old(Abs()), Event.TermProcess(Some(p)))
    {
      hide ListsOk, AslOk, ValuesOk, TreeOk, PriosOk, CountsOk, AllRings, Owned, Solo, Untouched, Parents;
      hide LooseSolo, KidsReady, PidsOk, Begun, Asl.Valid, ListMemory.Valid, AddedNext, Circling;
      CallerFacts();
      FreedBlock(p);
      var c := RemoveChild(p);
      if c.Some? {
        assert false;
      }
      ghost var a := act.value;
      forall i: nat ensures Circling(AddedNext(pl.next, FREE_H, p), pid, a, i) {
        FreeTargetNeverReturns(p, a, i);
      }
      KillFreed(p);
      walking := AliveFor(act.value, turns);
      mode := Hung;
    }

    // -------------------------------------------------------------- kill_parent_and_progeny

    /** Within the loop of kill_parent_and_progeny(p), begun in `s`: `i` children are dead, `c` is detached. */
    ghost predicate Dealing(s: Sys, p: nat, i: nat, c: Option<nat>)
      reads this, asl, pl, sl, dl
    {
      && Core(s) && |s.at| == n && p < n && s.at[p] != Free && i <= |s.kids[p]|
      && Rep() && born == s.born && births == s.births && Closed(s, K.Done(s, p, i))
      && (c == None <==> i == |s.kids[p]|)
      && (c == None ==> Abs() == Drop(s, K.Done(s, p, i)))
      && (c.Some? ==> c.value == s.kids[p][i] < n && Abs() == K.Midway(s, p, i))
    }

    /** remove_child, once the first `i` children are dead. */
    method NextChild(p: nat, ghost s: Sys, ghost i: nat) returns (c: Option<nat>)
      requires Core(s) && |s.at| == n && p < n && s.at[p] != Free && i <= |s.kids[p]| && Closed(s, K.Done(s, p, i))
      requires Rep() && Abs() == Drop(s, K.Done(s, p, i))
      modifies this`parent, sl
      ensures Dealing(s, p, i, c)
    {
      hide ListsOk, AslOk, ValuesOk, TreeOk, PriosOk, CountsOk, AllRings, Owned, Solo, Untouched, Core, Shape, Closed,
        Parents;
      hide LooseSolo, PidsOk, KidsReady, Asl.Valid, Drop, K.Done, Rep;
      K.DoneLeaves(s, p, i);
      c := RemoveChild(p);
    }

    /** One turn of the loop. */
    method NextTurn(p: nat, c: nat, ghost s: Sys, ghost i: nat) returns (d: Option<nat>)
      requires Dealing(s, p, i, Some(c))
      modifies this`procs, this`sb, this`parent, this`at, asl, pl, sl, dl
      ensures i < |s.kids[p]| && Dealing(s, p, i + 1, d)
      decreases s.births - s.born[p], 0
    {
      hide ListsOk, AslOk, ValuesOk, TreeOk, PriosOk, CountsOk, AllRings, Owned, Solo, Untouched, Core, Shape, Closed;
      hide LooseSolo, PidsOk, KidsReady, Asl.Valid, Drop, KillProcess, K.Done, K.Midway, Rep;
      K.Turn(s, p, i);
      K.TurnYounger(s, p, i);
      KillParentAndProgeny(c);
      d := NextChild(p, s, i + 1);
    }

    lemma ParentInside(p: nat)
      requires Rep() && p < |parent| && (Parents(parent)[p].Some? ==> Parents(parent)[p].value < n)
      ensures parent[p].ChildOf? ==> parent[p].of < n
    {
    }

    /** kill_parent_and_progeny. */
    method KillParentAndProgeny(p: nat)
      requires Rep() && Core(Abs()) && p < n && at[p] != Free
      modifies this`procs, this`sb, this`parent, this`at, asl, pl, sl, dl
      ensures Rep() && Abs() == KillProcess(old(Abs()), p)
      decreases births - born[p], 1
    {
      hide ListsOk, AslOk, ValuesOk, TreeOk, PriosOk, CountsOk, AllRings, Owned, Solo, Untouched, Core, Shape, Parents;
      hide LooseSolo, PidsOk, KidsReady, Asl.Valid, K.DropOne, Drop, KillProcess, K.Done, K.Midway;
      ghost var s := Abs();
      ghost var i := 0;
      TimesSized();
      K.DropNone(s, p);
      K.DoneLeaves(s, p, 0);
      var c := NextChild(p, s, 0);
      while c.Some?
        invariant Dealing(s, p, i, c)
        decreases |s.kids[p]| - i
      {
        c := NextTurn(p, c.value, s, i);
        i := i + 1;
      }
      K.LastTurn(s, p);
      ParentInside(p);
      KillProc(p);
    }

    // -------------------------------------------------------------- the system calls

    lemma CallerFacts()
      requires Rep() && Settled(Abs()) && mode == Active
      ensures Core(Abs()) && act.Some? && act.value < n && at[act.value] == Running && yielded == None
      ensures |pid| == n && pid[act.value] == PidOf(act.value) && |asl.semAdd| == n && asl.semAdd[act.value] == None
    {
      LooseFacts(act.value);
    }

    /** NSYS1. */
    method CreateProcess(prio0: int, support0: int, reg0: int) returns (v: Verdict)
      requires Rep() && Settled(Abs()) && mode == Active
      modifies this, pl, sl
      ensures Rep() && (Abs(), v) == NucleusStep.HandleSyscall(old(Abs()), Event.CreateProcess(prio0, support0, reg0))
    {
      hide Inv, Core, Shape, NucleusState.MkProc, LooseSolo, PidsOk, KidsReady, Asl.Valid, ListMemory.Valid, Parents;
      CallerFacts();
      TimesSized();
      var p := MkProc(prio0, support0, reg0);
      if p == None {
        return MinusOne;
      }
      v0 := v0[act.value := pid[p.value]];
      return Continue;
    }

    /** NSYS2: the caller's own end shows in whether it is still alive. */
    method TermProcess(target: Option<nat>) returns (v: Verdict)
      requires Rep() && Settled(Abs()) && Possible(Abs(), Event.TermProcess(target)) &&
               Tame(Abs(), Event.TermProcess(target))
      modifies this, asl, pl, sl, dl
      ensures Rep() && (Abs(), v) == NucleusStep.HandleSyscall(old(Abs()), Event.TermProcess(target))
    {
      hide Inv, Core, Shape, KillProcess, LooseSolo, PidsOk, KidsReady, Asl.Valid, ListMemory.Valid, Parents;
      CallerFacts();
      var p := if target.Some? then target.value else act.value;
      KillParentAndProgeny(p);
      var alive := IsAlive(act.value);
      v := if alive then Renqueue else Nothing;
    }

    /** NSYS3 and NSYS4, with their check that the semaphore is binary. */
    method PassUser(addr: int) returns (v: Verdict)
      requires Rep() && Settled(Abs()) && mode == Active
      modifies this, asl, pl, dl
      ensures Rep() && (Abs(), v) == NucleusStep.HandleSyscall(old(Abs()), Event.Passeren(addr))
    {
      hide Inv, Core, Shape, P, LooseSolo, PidsOk, KidsReady, Asl.Valid, ListMemory.Valid, Parents;
      CallerFacts();
      if Value(User(addr)) != 0 && Value(User(addr)) != 1 {
        mode := Panicked;
        return Resumed;
      }
      v := Passeren(User(addr));
    }

    method FreeUser(addr: int) returns (v: Verdict)
      requires Rep() && Settled(Abs()) && mode == Active
      modifies this, asl, pl, dl
      ensures Rep() && (Abs(), v) == NucleusStep.HandleSyscall(old(Abs()), Event.Verhogen(addr))
    {
      hide Inv, Core, Shape, V, LooseSolo, PidsOk, KidsReady, Asl.Valid, ListMemory.Valid, Parents;
      CallerFacts();
      if Value(User(addr)) != 0 && Value(User(addr)) != 1 {
        mode := Panicked;
        return Resumed;
      }
      var p := Verhogen(User(addr));
      v := if p == None then Nothing else Renqueue;
    }

    /** NSYS6, NSYS8, NSYS9: a value in v0. */
    method Inform(e: Event) returns (v: Verdict)
      requires Rep() && Settled(Abs()) && Possible(Abs(), e) && (e.GetTime? || e.GetSupport? || e.GetProcessId?)
      modifies this`v0
      ensures Rep() && (Abs(), v) == NucleusStep.HandleSyscall(old(Abs()), e)
    {
      hide Inv, Core, LooseSolo, PidsOk, KidsReady, Asl.Valid, ListMemory.Valid;
      CallerFacts();
      TimesSized();
      var a := act.value;
      if e.GetTime? {
        v0 := v0[a := time[a]];
      } else if e.GetSupport? {
        v0 := v0[a := support[a]];
      } else if !e.ofParent {
        v0 := v0[a := pid[a]];
      } else {
        ParentId();
        v0 := v0[a := if parent[a] != Null then pid[parent[a].of] else 0];
      }
      v := Continue;
    }

    lemma ParentId()
      requires Rep() && Settled(Abs()) && mode == Active
      ensures act.Some? && act.value < n && |parent| == n && |pid| == n
      ensures parent[act.value] != Null ==> parent[act.value].ChildOf? && parent[act.value].of < n
      ensures parent[act.value] != Null ==> pid[parent[act.value].of] == PidOf(parent[act.value].of)
    {
      hide ListsOk, AslOk, ValuesOk, PriosOk, CountsOk, Asl.Valid, ListMemory.Valid;
      if parent[act.value].ChildOf? {
        var q := parent[act.value].of;
        assert Abs().parent[act.value] == Some(q);
        assert q < n && at[q] != Free;
      }
    }

    /** NSYS10. */
    method YieldCaller() returns (v: Verdict)
      requires Rep() && Settled(Abs()) && mode == Active
      modifies this`yielded, this`at
      ensures Rep() && (Abs(), v) == NucleusStep.HandleSyscall(old(Abs()), Event.Yield)
    {
      hide Inv, Core, Shape, LooseSolo, PidsOk, KidsReady, Asl.Valid, ListMemory.Valid, Parents;
      CallerFacts();
      Relabelled(act.value, Yielded);
      yielded := act;
      at := at[act.value := Yielded];
      v := Nothing;
    }

    /** NSYS5, once the device is known. */
    method RequestIo(line: nat, dev: nat) returns (v: Verdict)
      requires Rep() && Settled(Abs()) && mode == Active
      modifies this, asl, pl, dl
      ensures Rep() && (Abs(), v) == NucleusStep.HandleSyscall(old(Abs()), Event.DoIO(line, dev))
    {
      hide Inv, Core, Shape, P, LooseSolo, PidsOk, KidsReady, Asl.Valid, ListMemory.Valid, Parents;
      CallerFacts();
      v := Passeren(Dev(line, dev));
      v := Nothing;
    }

    /** NSYS7. */
    method WaitClock() returns (v: Verdict)
      requires Rep() && Settled(Abs()) && mode == Active
      modifies this, asl, pl, dl
      ensures Rep() && (Abs(), v) == NucleusStep.HandleSyscall(old(Abs()), Event.ClockWait)
    {
      hide Inv, Core, Shape, P, LooseSolo, PidsOk, KidsReady, Asl.Valid, ListMemory.Valid, Parents;
      CallerFacts();
      v := Passeren(Clock);
    }

    /** PANIC, for a null command address. */
    method PanicNow() returns (v: Verdict)
      requires Rep() && Settled(Abs()) && mode == Active
      modifies this`mode
      ensures Rep() && (Abs(), v) == NucleusStep.HandleSyscall(old(Abs()), Event.NullRequest)
    {
      hide Inv, Core, Shape, LooseSolo, PidsOk, KidsReady, Asl.Valid, ListMemory.Valid, Parents;
      mode := Panicked;
      v := Resumed;
    }

    /** The two panics of handle_syscall, on a dead caller and a blocked one, cannot happen. */
    method CheckCaller()
      requires Rep() && Settled(Abs()) && mode == Active
    {
      hide Inv, Core, Shape, LooseSolo, PidsOk, KidsReady, Asl.Valid, ListMemory.Valid, Parents;
      CallerFacts();
      var alive := IsAlive(act.value);
      if !alive {
        assert false;
      } else if asl.semAdd[act.value].Some? {
        assert false;
      }
    }

    /** handle_syscall. */
    method HandleSyscall(e: Event) returns (v: Verdict)
      requires Rep() && Settled(Abs()) && Possible(Abs(), e) && Tame(Abs(), e) && IsSyscall(e)
      modifies this, asl, pl, sl, dl
      ensures Rep() && (Abs(), v) == NucleusStep.HandleSyscall(old(Abs()), e)
    {
      hide Inv, Core, Shape, NucleusStep.HandleSyscall, LooseSolo, PidsOk, KidsReady, Asl.Valid, ListMemory.Valid,
        Settled, Parents;
      CallerActive(e);
      CheckCaller();
      match e
      case CreateProcess(prio0, support0, reg0) => v := CreateProcess(prio0, support0, reg0);
      case TermProcess(target) => v := TermProcess(target);
      case Passeren(addr) => v := PassUser(addr);
      case Verhogen(addr) => v := FreeUser(addr);
      case DoIO(line, dev) => v := RequestIo(line, dev);
      case NullRequest => v := PanicNow();
      case ClockWait => v := WaitClock();
      case Yield => v := YieldCaller();
      case _ => v := Inform(e);
    }

    lemma CallerActive(e: Event)
      requires Rep() && Possible(Abs(), e) && IsSyscall(e)
      ensures mode == Active
    {
    }

    /** passup_or_die. */
    method PassUpOrDie() returns (v: Verdict)
      requires Rep() && Settled(Abs()) && mode == Active
      modifies this, asl, pl, sl, dl
      ensures Rep() && (Abs(), v) == NucleusStep.PassUpOrDie(old(Abs()))
    {
      hide Inv, Core, Shape, KillProcess, LooseSolo, PidsOk, KidsReady, Asl.Valid, ListMemory.Valid, Parents;
      CallerFacts();
      TimesSized();
      if act == None {
        return Nothing;
      }
      if support[act.value] == NULL {
        KillParentAndProgeny(act.value);
        return Nothing;
      }
      return Resumed;
    }

    // -------------------------------------------------------------- kernel.c

    /** The dispatch of exception_handler on the cause, up to the verdict. */
    method HandleException(e: Event) returns (v: Verdict)
      requires Rep() && Settled(Abs()) && Possible(Abs(), e) && Tame(Abs(), e)
      modifies this, asl, pl, sl, dl
      ensures Rep() && (Abs(), v) == Handle(old(Abs()), e)
    {
      hide Inv, Core, Shape, NucleusStep.HandleSyscall, KillProcess, ClockTick, Complete, Parents;
      hide LooseSolo, PidsOk, KidsReady, Asl.Valid, ListMemory.Valid;
      SettledFacts();
      if IsSyscall(e) {
        v := HandleSyscall(e);
      } else {
        match e
        case Trap => v := PassUpOrDie();
        case SliceEnd => v := Renqueue;
        case Tick =>
          TickHandler();
          v := Continue;
        case Device(line, dev, status) =>
          CompleteHandler(Dev(line, dev), status);
          v := Continue;
        case Ignored => v := Continue;
        case WildInterrupt =>
          mode := Panicked;
          v := Resumed;
        case NoPendingLine => v := Renqueue;
        case WaitReturns => v := Nothing;
      }
    }

    lemma SettledFacts()
      requires Rep() && Settled(Abs()) && (mode == Active || mode == Idle)
      ensures Inv(Abs()) && Core(Abs()) && (act.Some? ==> act.value < n && at[act.value] == Running) && yielded == None
      ensures Value(Clock) == 0
    {
    }

    /** The tail of exception_handler: charge the caller, resume, requeue or drop it, and dispatch. */
    method Conclude(v: Verdict, serving: nat, loading: nat)
      requires Rep() && Handled(Abs(), v)
      modifies this, pl
      ensures Rep() && Abs() == Finish(old(Abs()), v, serving, loading)
    {
      hide ListsOk, AslOk, ValuesOk, TreeOk, PriosOk, CountsOk, Load, SchedulerNext, Charge, Enqueue, Shape, Parents;
      hide LooseSolo, PidsOk, KidsReady, Asl.Valid, ListMemory.Valid;
      ghost var s := Abs();
      ChargeCaller(serving);
      ChargedFacts(s, v, serving);
      if act.Some? && v == Continue {
        LoadProc(act.value, loading);
      } else {
        ReleasedQuiet(s, v, serving);
        if act.Some? {
          if v == Renqueue {
            EnqueueProc(act.value);
          }
          ReleaseCaller();
        }
        Dispatch(loading);
      }
    }

    /** The caller's processor time, up to now. */
    method ChargeCaller(serving: nat)
      requires Rep() && Core(Abs())
      modifies this`clock, this`time, this`upd
      ensures Rep() && Abs() == Charge(old(Abs()), serving)
    {
      hide Core, LooseSolo, PidsOk, KidsReady, Asl.Valid, ListMemory.Valid, Parents;
      TimesSized();
      clock := clock + serving;
      if act.Some? {
        time := time[act.value := time[act.value] + (clock - upd[act.value])];
        upd := upd[act.value := clock];
      }
    }

    /** No pointer is written: whoever is linked nowhere now is only named so. */
    ghost method ReleaseCaller()
      requires Rep() && Shape(Abs()) && act.Some? && act.value < n
      modifies this`at
      ensures Rep() && Abs() == Release(old(Abs()), act.value)
    {
      hide Asl.Valid, ListMemory.Valid, Shape, Parents;
      if at[act.value] == Running {
        at := at[act.value := Detached];
      }
    }

    lemma ChargedFacts(s: Sys, v: Verdict, serving: nat)
      requires Handled(s, v)
      ensures Core(Charge(s, serving)) && Charge(s, serving).at == s.at && Charge(s, serving).act == s.act
      ensures Charge(s, serving).yielded == s.yielded
      ensures s.act.Some? ==> s.act.value < |s.at|
      ensures s.act.Some? && v == Continue ==> s.at[s.act.value] == Running && s.yielded == None
      ensures s.act.Some? && v == Renqueue ==> s.at[s.act.value] == Running
    {
      hide ListsOk, AslOk, ValuesOk, TreeOk, PriosOk, CountsOk;
      SameCore(s, Charge(s, serving));
    }

    /** exception_handler, from the saved state to the next load, wait, halt or panic. */
    method ExceptionHandler(e: Event, serving: nat, loading: nat)
      requires Rep() && Settled(Abs()) && Possible(Abs(), e) && Tame(Abs(), e)
      modifies this, asl, pl, sl, dl
      ensures Rep() && Settled(Abs()) && Abs() == Step(old(Abs()), e, serving, loading)
    {
      hide Inv, Handle, Finish, SchedulerNext, Tame, Possible, LooseSolo, PidsOk, KidsReady, Asl.Valid,
        ListMemory.Valid, Parents;
      ghost var s := Abs();
      StepSettles(s, e, serving, loading);
      HandleHandled(s, e);
      IdleFacts(s, e);
      var v := HandleException(e);
      if v == Resumed {
        return;
      }
      if e.WaitReturns? {
        Dispatch(loading);
      } else {
        Conclude(v, serving, loading);
      }
    }

    lemma IdleFacts(s: Sys, e: Event)
      requires Settled(s) && Possible(s, e)
      ensures e.WaitReturns? ==> Handle(s, e).0 == s && Core(s) && Quiet(s)
    {
    }

    /** The kernel from power-on through any run of exceptions. */
    method RunKernel(loading: nat, run: seq<Entry>)
      requires Static() && n > 0 && Settled(NucleusRuns.Boot(n, base, size, sem, loading))
      requires CanRun(NucleusRuns.Boot(n, base, size, sem, loading), run)
      modifies this, asl, pl, sl, dl
      ensures old(CanRun(NucleusRuns.Boot(n, base, size, sem, loading), run))
      ensures Rep() && Abs() == Run(old(NucleusRuns.Boot(n, base, size, sem, loading)), run)
    {
      hide Inv, Step, SchedulerNext, Tame, Possible, CanRun, Run, Core, Quiet, Settled, Parents;
      hide Static, Blank, Booting, LooseSolo, PidsOk, KidsReady, Asl.Valid, ListMemory.Valid;
      ghost var s0 := NucleusRuns.Boot(n, base, size, sem, loading);
      BootCore(n, base, size, sem);
      Boot();
      Dispatch(loading);
      assert run[..0] == [];
      RunStart(s0);
      for i := 0 to |run|
        invariant CanRun(s0, run[..i]) && Rep() && Abs() == Run(s0, run[..i])
      {
        RunOnce(s0, run, i);
        ExceptionHandler(run[i].event, run[i].serving, run[i].loading);
      }
      assert run[..|run|] == run;
    }
  }
}
