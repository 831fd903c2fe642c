/**
 * What every kernel routine keeps: each process control block is in exactly one place,
 * the semaphore list is exact, the process tree is a forest, the counters count.
 */
module NucleusInvariant {
  import opened Prelude
  import opened NucleusState

  /** `q` lists the blocks whose place is `x`, each once. */
  ghost predicate Holds(q: seq<nat>, at: seq<Place>, x: Place) {
    && NoDup(q)
    && (forall p: nat :: p in q <==> p < |at| && at[p] == x)
  }

  ghost predicate ListsOk(s: Sys) {
    Holds(s.free, s.at, Free) && Holds(s.low, s.at, Low) && Holds(s.high, s.at, High)
  }

  /** Active semaphores have non-empty queues, holding exactly the processes blocked on them. */
  ghost predicate AslOk(s: Sys) {
    && (forall k :: k in s.asl ==> s.asl[k] != [] && Holds(s.asl[k], s.at, Blocked(k)))
    && (forall p :: 0 <= p < |s.at| && s.at[p].Blocked? ==> s.at[p].key in s.asl)
  }

  /** Whoever waits on a semaphore at 0 waits in a P, at 1 in a V; kernel semaphores are binary. */
  ghost predicate ValuesOk(s: Sys)
    requires Shape(s)
  {
    && (forall p :: 0 <= p < |s.at| && s.at[p].Blocked? ==>
          SemVal(s, s.at[p].key) == if s.waitsP[p] then 0 else 1)
    && (forall k :: k in s.sem && !k.User? ==> s.sem[k] == 0 || s.sem[k] == 1)
  }

  /** Parent and child links mirror each other and join live processes only. */
  ghost predicate TreeOk(s: Sys)
    requires Shape(s)
  {
    && Ordered(s.kids, s.born, s.births)
    && (forall p :: 0 <= p < |s.kids| ==> NoDup(s.kids[p]))
    && (forall p, c :: 0 <= p < |s.kids| && c in s.kids[p] ==> c < |s.at| && s.parent[c] == Some(p))
    && (forall c :: 0 <= c < |s.at| && s.parent[c].Some? ==>
          s.parent[c].value < |s.at| && c in s.kids[s.parent[c].value])
    && (forall p :: 0 <= p < |s.at| && s.at[p] == Free ==> s.parent[p] == None && s.kids[p] == [])
  }

  ghost predicate PriosOk(s: Sys)
    requires Shape(s)
  {
    forall p :: 0 <= p < |s.at| ==>
      && (s.at[p] == Low ==> s.prio[p] == PRIO_LOW)
      && (s.at[p] == High ==> s.prio[p] == PRIO_HIGH)
      && (s.at[p] == Running || s.at[p] == Yielded || s.at[p].Blocked? ==>
            s.prio[p] == PRIO_LOW || s.prio[p] == PRIO_HIGH)
  }

  ghost function Live(at: seq<Place>): set<nat> {
    set p | 0 <= p < |at| && at[p] != Free
  }

  ghost function Waiting(at: seq<Place>): set<nat> {
    set p | 0 <= p < |at| && at[p].Blocked?
  }

  ghost predicate CountsOk(s: Sys) {
    s.procs == |Live(s.at)| && s.sb == |Waiting(s.at)|
  }

  ghost predicate ActOk(s: Sys) {
    forall p :: 0 <= p < |s.at| ==>
      && (s.at[p] == Running ==> s.act == Some(p))
      && (s.at[p] == Yielded <==> s.yielded == Some(p))
  }

  ghost predicate Inv(s: Sys) {
    Shape(s) && ListsOk(s) && AslOk(s) && ValuesOk(s) && TreeOk(s) && PriosOk(s) && CountsOk(s) && ActOk(s)
  }

  // ---------------------------------------------------------------- one block moves

  lemma HoldsAppend(q: seq<nat>, at: seq<Place>, x: Place, p: nat)
    requires Holds(q, at, x) && p < |at| && at[p] != x
    ensures Holds(q + [p], at[p := x], x)
  {
  }

  lemma HoldsTail(q: seq<nat>, at: seq<Place>, x: Place, y: Place)
    requires Holds(q, at, x) && q != [] && y != x
    ensures q[0] < |at| && Holds(q[1..], at[q[0] := y], x)
  {
    assert q[0] in q;
    forall p: nat ensures p in q[1..] <==> p in q && p != q[0] {
      assert q == [q[0]] + q[1..];
    }
  }

  lemma HoldsOther(q: seq<nat>, at: seq<Place>, x: Place, p: nat, y: Place)
    requires Holds(q, at, x) && p < |at| && at[p] != x && y != x
    ensures Holds(q, at[p := y], x)
  {
  }

  lemma SizeMoved(a: set<nat>, b: set<nat>, p: nat)
    requires forall x: nat :: x != p ==> (x in a <==> x in b)
    ensures |b| == |a| + (if p in b then 1 else 0) - (if p in a then 1 else 0)
  {
    assert a - {p} == b - {p};
    assert p !in a ==> a - {p} == a;
    assert p !in b ==> b - {p} == b;
  }

  /** Moving a live block between live places that are both waiting, or both not. */
  lemma CountsMoved(at: seq<Place>, p: nat, y: Place)
    requires p < |at|
    ensures |Live(at[p := y])| ==
            |Live(at)| + (if at[p] == Free then 0 else -1) + (if y == Free then 0 else 1)
    ensures |Waiting(at[p := y])| ==
            |Waiting(at)| + (if at[p].Blocked? then -1 else 0) + (if y.Blocked? then 1 else 0)
  {
    SizeMoved(Live(at), Live(at[p := y]), p);
    SizeMoved(Waiting(at), Waiting(at[p := y]), p);
  }

  ghost predicate Loose(x: Place) {
    x == Detached || x == Running || x == Yielded
  }

  /** The part of the invariant that does not speak of the running and yielded process. */
  ghost predicate Core(s: Sys) {
    Shape(s) && ListsOk(s) && AslOk(s) && ValuesOk(s) && TreeOk(s) && PriosOk(s) && CountsOk(s)
  }

  /** The tree does not depend on where a block is, as long as it is not freed. */
  lemma TreeApart(s: Sys, r: Sys)
    requires Shape(s) && Shape(r) && TreeOk(s) && |r.at| == |s.at|
    requires r.parent == s.parent && r.kids == s.kids && r.born == s.born && r.births == s.births
    requires forall p :: 0 <= p < |s.at| && r.at[p] == Free ==> s.at[p] == Free
    ensures TreeOk(r)
  {
  }

  lemma RelabelLists(s: Sys, p: nat, y: Place)
    requires Shape(s) && ListsOk(s) && AslOk(s) && p < |s.at| && Loose(s.at[p]) && Loose(y)
    ensures ListsOk(s.(at := s.at[p := y])) && AslOk(s.(at := s.at[p := y]))
  {
    forall k | k in s.asl ensures Holds(s.asl[k], s.at[p := y], Blocked(k)) {
      HoldsOther(s.asl[k], s.at, Blocked(k), p, y);
    }
  }

  /** Relabelling a block that is in no list as another place that is no list. */
  lemma RelabelCore(s: Sys, p: nat, y: Place)
    requires Core(s) && p < |s.at| && Loose(s.at[p]) && Loose(y)
    requires y != Detached ==> s.prio[p] == PRIO_LOW || s.prio[p] == PRIO_HIGH
    ensures Core(s.(at := s.at[p := y]))
  {
    hide ListsOk, AslOk, TreeOk;
    CountsMoved(s.at, p, y);
    RelabelLists(s, p, y);
    TreeApart(s, s.(at := s.at[p := y]));
  }

  lemma EnqueueLists(s: Sys, p: nat)
    requires Shape(s) && ListsOk(s) && AslOk(s) && p < |s.at| && Loose(s.at[p])
    ensures ListsOk(Enqueue(s, p)) && AslOk(Enqueue(s, p))
  {
    var y := if s.prio[p] == PRIO_HIGH then High else Low;
    forall k | k in s.asl ensures Holds(s.asl[k], s.at[p := y], Blocked(k)) {
      HoldsOther(s.asl[k], s.at, Blocked(k), p, y);
    }
  }

  lemma EnqueueCore(s: Sys, p: nat)
    requires Core(s) && p < |s.at| && Loose(s.at[p])
    ensures Core(Enqueue(s, p))
  {
    hide ListsOk, AslOk;
    EnqueueLists(s, p);
    CountsMoved(s.at, p, if s.prio[p] == PRIO_HIGH then High else Low);
  }

  lemma BlockLists(s: Sys, k: Key, inP: bool)
    requires Shape(s) && ListsOk(s) && AslOk(s) && s.act.Some? && s.at[s.act.value] == Running
    ensures ListsOk(Block(s, k, inP)) && AslOk(Block(s, k, inP))
  {
    var a := s.act.value;
    var at' := s.at[a := Blocked(k)];
    HoldsOther(s.free, s.at, Free, a, Blocked(k));
    HoldsOther(s.low, s.at, Low, a, Blocked(k));
    HoldsOther(s.high, s.at, High, a, Blocked(k));
    assert Holds(Queue(s, k), s.at, Blocked(k));
    HoldsAppend(Queue(s, k), s.at, Blocked(k), a);
    forall j | j in s.asl && j != k ensures Holds(s.asl[j], at', Blocked(j)) {
      HoldsOther(s.asl[j], s.at, Blocked(j), a, Blocked(k));
    }
  }

  /** The running process starts waiting; the semaphore's value says in which operation. */
  lemma BlockCore(s: Sys, k: Key, inP: bool)
    requires Core(s) && s.act.Some? && s.at[s.act.value] == Running
    requires SemVal(s, k) == if inP then 0 else 1
    ensures Core(Block(s, k, inP))
  {
    hide ListsOk, AslOk, TreeOk;
    BlockLists(s, k, inP);
    CountsMoved(s.at, s.act.value, Blocked(k));
    TreeApart(s, Block(s, k, inP));
  }

  lemma UnqueueAsl(s: Sys, k: Key)
    requires Shape(s) && AslOk(s) && k in s.asl
    ensures s.at[s.asl[k][0]] == Blocked(k) && AslOk(Unqueue(s, k))
  {
    var q := s.asl[k];
    var p := q[0];
    assert Holds(q, s.at, Blocked(k)) && p in q;
    HoldsTail(q, s.at, Blocked(k), Detached);
    forall j | j in s.asl && j != k ensures Holds(s.asl[j], s.at[p := Detached], Blocked(j)) {
      HoldsOther(s.asl[j], s.at, Blocked(j), p, Detached);
    }
    forall x | 0 <= x < |s.at| && s.at[x] == Blocked(k) && x != p ensures |q| > 1 {
      assert x in q;
    }
  }

  lemma UnqueueCore(s: Sys, k: Key)
    requires Core(s) && k in s.asl
    ensures s.at[s.asl[k][0]] == Blocked(k) && Core(Unqueue(s, k))
  {
    UnqueueAsl(s, k);
    UnqueueLists(s, k);
    TreeApart(s, Unqueue(s, k));
    UnqueueRest(s, k);
    hide AslOk, ListsOk, TreeOk, Unqueue, ValuesOk, PriosOk, CountsOk, Shape;
  }

  lemma UnqueueRest(s: Sys, k: Key)
    requires Shape(s) && k in s.asl && s.at[s.asl[k][0]] == Blocked(k) && ValuesOk(s) && PriosOk(s) && CountsOk(s)
    ensures ValuesOk(Unqueue(s, k)) && PriosOk(Unqueue(s, k)) && CountsOk(Unqueue(s, k))
  {
    CountsMoved(s.at, s.asl[k][0], Detached);
  }

  lemma UnqueueLists(s: Sys, k: Key)
    requires Shape(s) && ListsOk(s) && k in s.asl && s.at[s.asl[k][0]] == Blocked(k)
    ensures ListsOk(Unqueue(s, k))
  {
    var p := s.asl[k][0];
    HoldsOther(s.free, s.at, Free, p, Detached);
    HoldsOther(s.low, s.at, Low, p, Detached);
    HoldsOther(s.high, s.at, High, p, Detached);
  }

  lemma WakeCore(s: Sys, k: Key)
    requires Core(s) && k in s.asl
    ensures Core(Wake(s, k))
  {
    UnqueueCore(s, k);
    EnqueueCore(Unqueue(s, k), s.asl[k][0]);
  }

  /** Writing a semaphore nobody waits on. */
  lemma SetSemCore(s: Sys, k: Key, v: int)
    requires Core(s) && k !in s.asl && (v == 0 || v == 1)
    ensures Core(s.(sem := s.sem[k := v]))
  {
  }

  /** The new block is nobody's child yet, and it is younger than all. */
  lemma SpawnOrder(s: Sys, prio: int, support: int, reg: int)
    requires Shape(s) && TreeOk(s) && s.act.Some? && s.free != []
    requires s.at[s.free[0]] == Free && s.at[s.act.value] != Free
    ensures Ordered(Spawn(s, prio, support, reg).kids, Spawn(s, prio, support, reg).born,
            Spawn(s, prio, support, reg).births)
    ensures forall q, c :: 0 <= q < |s.kids| && c in s.kids[q] ==> c != s.free[0]
  {
    var p, a := s.free[0], s.act.value;
    var r := Spawn(s, prio, support, reg);
    assert forall q, c :: 0 <= q < |s.kids| && c in s.kids[q] ==> c != p;
    forall q, i | 0 <= q < |r.kids| && 0 <= i < |r.kids[q]|
      ensures r.kids[q][i] < |r.kids| && r.born[q] < r.born[r.kids[q][i]]
    {
      if q == a && i > 0 {
        assert r.kids[q][i] == s.kids[a][i - 1] && r.kids[q][i] in s.kids[a];
      } else if q != a && q != p {
        assert s.kids[q][i] in s.kids[q];
      }
    }
  }

  lemma SpawnTree(s: Sys, prio: int, support: int, reg: int)
    requires Shape(s) && TreeOk(s) && s.act.Some? && s.free != []
    requires s.at[s.free[0]] == Free && s.at[s.act.value] != Free
    ensures TreeOk(Spawn(s, prio, support, reg))
  {
    SpawnOrder(s, prio, support, reg);
    assert s.free[0] !in s.kids[s.act.value];
  }

  lemma SpawnCore(s: Sys, prio: int, support: int, reg: int)
    requires Core(s) && s.act.Some? && s.at[s.act.value] == Running && s.free != []
    ensures s.at[s.free[0]] == Free && Core(Spawn(s, prio, support, reg))
  {
    var p := s.free[0];
    assert p in s.free;
    SpawnTree(s, prio, support, reg);
    CountsMoved(s.at, p, Detached);
    HoldsTail(s.free, s.at, Free, Detached);
    HoldsOther(s.low, s.at, Low, p, Detached);
    HoldsOther(s.high, s.at, High, p, Detached);
    forall k | k in s.asl ensures Holds(s.asl[k], s.at[p := Detached], Blocked(k)) {
      HoldsOther(s.asl[k], s.at, Blocked(k), p, Detached);
    }
  }

  /** Time, results and the dispatcher's variables are no part of Core. */
  lemma SameCore(s: Sys, r: Sys)
    requires Core(s) && Shape(r)
    requires r.at == s.at && r.free == s.free && r.low == s.low && r.high == s.high && r.asl == s.asl
    requires r.parent == s.parent && r.kids == s.kids && r.born == s.born && r.births == s.births
    requires r.waitsP == s.waitsP && r.prio == s.prio && r.sem == s.sem && r.procs == s.procs && r.sb == s.sb
    ensures Core(r)
  {
  }

  lemma PrioBinary(s: Sys, p: nat)
    requires Core(s) && p < |s.at| && s.at[p] != Free && s.at[p] != Detached
    ensures s.prio[p] == PRIO_LOW || s.prio[p] == PRIO_HIGH
    ensures s.at[p] == Low ==> s.prio[p] == PRIO_LOW
    ensures s.at[p] == High ==> s.prio[p] == PRIO_HIGH
  {
  }
}
