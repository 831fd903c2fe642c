/**
 * A process from its creation to its termination: it keeps what it was created with, and the system calls that ask
 * for it are answered accordingly, on every run.
 */
module Lifetimes {
  import opened Prelude
  import opened NucleusState
  import opened NucleusInvariant
  import opened KillTree
  import opened NucleusStep
  import opened NucleusRuns
  import opened NucleusTheorems
  import opened Passages
  import opened CpuTime
  import Ready = ReadyQueues

  // ---------------------------------------------------------------- one passage

  lemma FreeList(s: Sys, p: nat)
    requires Settled(s) && p < |s.at|
    ensures s.at[p] == Free <==> p in s.free
  {
  }

  lemma FirstGone(q: seq<nat>, p: nat)
    requires q != [] && NoDup(q)
    ensures p in q[1..] <==> p in q && p != q[0]
  {
    assert q == [q[0]] + q[1..];
  }

  lemma PrefixAdds(q: seq<nat>, n: nat, K: set<nat>, rest: seq<nat>, p: nat)
    requires n <= |q| && Elems(q[..n]) == K && q[n..] == rest
    ensures p in q <==> p in K || p in rest
  {
    assert q == q[..n] + q[n..];
    assert p in Elems(q[..n]) <==> p in q[..n];
  }

  /** The free list loses the block of a new process and gains those of the terminated. */
  lemma FreeAfter(s: Sys, x: Entry, p: nat)
    requires Settled(s) && Possible(s, x.event) && Tame(s, x.event)
    ensures p in After(s, x).free <==> (p in s.free && !Creates(s, x.event, p)) || p in Killed(s, x.event)
  {
    var (e, r) := (x.event, After(s, x));
    TableAfter(s, x);
    FreeOnce(s);
    KillsApart(s, e, p);
    hide Settled, Possible, Tame, After, Killed;
    if e.CreateProcess? && s.free != [] {
      FirstGone(s.free, p);
    } else if Killed(s, e) != {} {
      PrefixAdds(r.free, |Killed(s, e)|, Killed(s, e), s.free, p);
    }
    hide NoDup, Elems;
  }

  /** Exactly those live after a passage who did before and were not terminated, and the new process. */
  lemma LivesExactly(s: Sys, x: Entry, p: nat)
    requires Settled(s) && Possible(s, x.event) && Tame(s, x.event) && p < |s.at|
    ensures After(s, x).at[p] != Free <==>
            (s.at[p] != Free && p !in Killed(s, x.event)) || Creates(s, x.event, p)
  {
    FreeAfter(s, x, p);
    FreeList(s, p);
    FreeList(After(s, x), p);
    KillsApart(s, x.event, p);
    hide Settled, Possible, Tame, After, Killed;
    if Creates(s, x.event, p) { assert s.free[0] in s.free; }
  }

  lemma FreeOnce(s: Sys)
    requires Settled(s)
    ensures NoDup(s.free) && forall p :: p in s.free ==> p < |s.at|
  {
  }

  lemma KillsApart(s: Sys, e: Event, p: nat)
    requires Settled(s) && Possible(s, e)
    ensures e.CreateProcess? ==> Killed(s, e) == {}
  {
    hide Settled, Possible, Subtree;
  }

  /** A process that is not terminated keeps its priority, its support structure and its parent. */
  lemma Kept(s: Sys, x: Entry, p: nat)
    requires Settled(s) && Possible(s, x.event) && Tame(s, x.event)
    requires p < |s.at| && s.at[p] != Free && p !in Killed(s, x.event)
    ensures var r := After(s, x);
            && p < |r.at| && r.at[p] != Free && SameFields(s, r, p) && r.base == s.base && r.size == s.size
            && !Creates(s, x.event, p)
  {
    LivesExactly(s, x, p);
    TableAfter(s, x);
    Sized(s, p);
    Sized(After(s, x), p);
    FreeOnce(s);
    hide *;
    NotCreated(s, x.event, p);
    TableKeeps(s, x.event, After(s, x), p);
  }

  lemma NotCreated(s: Sys, e: Event, p: nat)
    requires Settled(s) && p < |s.at| && s.at[p] != Free
    ensures !Creates(s, e, p)
  {
    FreeList(s, p);
    if s.free != [] { assert s.free[0] in s.free; }
  }

  lemma TableKeeps(s: Sys, e: Event, r: Sys, p: nat)
    requires Settled(s) && Possible(s, e) && TableMoved(s, e, r) && !Creates(s, e, p) && p !in Killed(s, e)
    requires p < |s.prio| == |s.support| == |s.parent| == |s.born|
    requires p < |r.prio| == |r.support| == |r.parent| == |r.born|
    ensures SameFields(s, r, p) && r.base == s.base && r.size == s.size
  {
    hide Settled, Possible, Killed, Without, Elems;
  }

  lemma Sized(s: Sys, p: nat)
    requires Settled(s) && p < |s.at|
    ensures p < |s.prio| == |s.support| == |s.parent| == |s.born| == |s.at| == |s.v0| == |s.time| == |s.kids|
  {
  }

  ghost predicate SameFields(s: Sys, r: Sys, p: nat) {
    && p < |s.prio| && p < |r.prio| && r.prio[p] == s.prio[p]
    && p < |s.support| && p < |r.support| && r.support[p] == s.support[p]
    && p < |s.parent| && p < |r.parent| && r.parent[p] == s.parent[p]
    && p < |s.born| && p < |r.born| && r.born[p] == s.born[p]
  }

  // ---------------------------------------------------------------- whole runs

  /** Nobody terminates `p` during the run. */
  ghost predicate Survives(s: Sys, run: seq<Entry>, p: nat)
    requires Settled(s) && CanRun(s, run)
    decreases |run|
  {
    run == [] || (p !in Killed(s, run[0].event) && Survives(After(s, run[0]), run[1..], p))
  }

  /** As long as a process is not terminated it lives, and its fields stay. */
  lemma {:induction false} FieldsStay(s: Sys, run: seq<Entry>, p: nat)
    requires Settled(s) && CanRun(s, run) && p < |s.at| && s.at[p] != Free && Survives(s, run, p)
    ensures var t := Run(s, run);
            && p < |t.at| && t.at[p] != Free && SameFields(s, t, p) && t.base == s.base && t.size == s.size
    ensures NeverCreated(s, run, p)
    decreases |run|
  {
    Sized(s, p);
    if run != [] {
      Kept(s, run[0], p);
      hide Settled, Possible, Tame, Killed;
      FieldsStay(After(s, run[0]), run[1..], p);
    }
  }

  // ---------------------------------------------------------------- creation

  /** What NSYS1 leaves: the new process as asked for, the answer, and everybody else as they were. */
  ghost predicate Created(s: Sys, e: Event, r: Sys)
    requires Settled(s) && e.CreateProcess? && s.free != [] && s.act.Some?
  {
    var (p, a) := (s.free[0], s.act.value);
    && p < |s.at| && a < |s.at| && p != a && p < |s.v0| && a < |s.v0|
    && r.prio == s.prio[p := e.prio] && r.support == s.support[p := e.support]
    && r.parent == s.parent[p := Some(a)] && r.kids == s.kids[a := [p] + s.kids[a]]
    && r.v0 == s.v0[p := e.reg][a := s.base + s.size * p]
    && r.high == (if e.prio == 1 then s.high + [p] else s.high)
    && r.low == (if e.prio == 0 then s.low + [p] else s.low)
    && r.mode == Active && r.act == s.act
    && |r.time| == |s.time| == |s.at| && r.time[p] == 0
    && (forall q :: 0 <= q < |s.time| && q != p && q != a ==> r.time[q] == s.time[q])
  }

  lemma CreationJoins(s: Sys, x: Entry)
    requires Settled(s) && Possible(s, x.event) && Tame(s, x.event) && x.event.CreateProcess? && s.free != []
    requires s.free[0] < |After(s, x).prio| && After(s, x).prio[s.free[0]] == x.event.prio
    ensures var (e, r, p) := (x.event, After(s, x), s.free[0]);
            && r.high == (if e.prio == 1 then s.high + [p] else s.high)
            && r.low == (if e.prio == 0 then s.low + [p] else s.low)
            && r.mode == Active && r.act == s.act
  {
    Ready.ReadyAfter(s, x);
    CallerThere(s, x.event);
    KillsApart(s, x.event, s.free[0]);
    hide *;
    ChildJoins(s, x.event, After(s, x));
  }

  lemma ChildJoins(s: Sys, e: Event, r: Sys)
    requires Settled(s) && Possible(s, e) && e.CreateProcess? && s.free != [] && Killed(s, e) == {}
    requires GoesOn(s, e) && !LeavesKernel(s, e) && Ready.ReadyAndRunning(s, e, r)
    requires s.free[0] < |r.prio| && r.prio[s.free[0]] == e.prio
    ensures r.high == (if e.prio == 1 then s.high + [s.free[0]] else s.high)
    ensures r.low == (if e.prio == 0 then s.low + [s.free[0]] else s.low)
    ensures r.mode == Active && r.act == s.act
  {
    var p := s.free[0];
    Ready.LevelOne(p, r.prio, 1);
    Ready.LevelOne(p, r.prio, 0);
    WithoutAbsent(s.high, {});
    WithoutAbsent(s.low, {});
    hide Settled, Possible, Killed, Without, Ready.OfLevel, Ready.Scheduled, LeavesKernel, GoesOn;
    assert Ready.Readied(s, e) == [p];
  }

  lemma CallerThere(s: Sys, e: Event)
    requires Settled(s) && Possible(s, e)
    ensures IsSyscall(e) ==> s.act.Some? && s.act.value < |s.at| && s.at[s.act.value] == Running
    ensures e.CreateProcess? && s.free != [] ==> GoesOn(s, e) && !LeavesKernel(s, e)
  {
  }

  lemma CreationTimes(s: Sys, x: Entry, q: nat)
    requires Settled(s) && Possible(s, x.event) && Tame(s, x.event) && x.event.CreateProcess? && s.free != []
    requires q < |s.at|
    ensures |After(s, x).time| == |s.time| == |s.at|
    ensures q == s.free[0] ==> After(s, x).time[q] == 0
    ensures q != s.free[0] && s.act != Some(q) ==> After(s, x).time[q] == s.time[q]
  {
    StepTimes(s, x, q);
    Sized(s, q);
    Sized(After(s, x), q);
    hide Settled, Possible, Tame, After;
  }

  /** NSYS1, in terms of what the caller asked for alone. */
  lemma CreationExactly(s: Sys, x: Entry)
    requires Settled(s) && Possible(s, x.event) && Tame(s, x.event) && x.event.CreateProcess? && s.free != []
    ensures s.act.Some? && Created(s, x.event, After(s, x))
  {
    CallerThere(s, x.event);
    TableAfter(s, x);
    RepliesAfter(s, x);
    Sized(s, s.act.value);
    forall q | 0 <= q < |s.at|
      ensures |After(s, x).time| == |s.time| == |s.at|
      ensures q == s.free[0] ==> After(s, x).time[q] == 0
      ensures q != s.free[0] && s.act != Some(q) ==> After(s, x).time[q] == s.time[q]
    {
      CreationTimes(s, x, q);
    }
    TableWith(s, x.event, After(s, x));
    CreationJoins(s, x);
    hide *;
    AskedFor(s, x.event, After(s, x));
  }

  lemma TableWith(s: Sys, e: Event, r: Sys)
    requires Settled(s) && Possible(s, e) && e.CreateProcess? && s.free != [] && TableMoved(s, e, r)
    requires |s.prio| == |s.at|
    ensures s.act.Some? && TableCreated(s, e, r) && s.free[0] < |r.prio| && r.prio[s.free[0]] == e.prio
  {
    hide Settled, Possible;
  }

  lemma AskedFor(s: Sys, e: Event, r: Sys)
    requires Settled(s) && Possible(s, e) && e.CreateProcess? && s.free != [] && s.act.Some?
    requires TableCreated(s, e, r) && Replied(s, e, r) && |s.v0| == |s.at|
    requires r.high == (if e.prio == 1 then s.high + [s.free[0]] else s.high)
    requires r.low == (if e.prio == 0 then s.low + [s.free[0]] else s.low)
    requires r.mode == Active && r.act == s.act
    requires |r.time| == |s.time| == |s.at|
    requires forall q :: 0 <= q < |s.at| && q == s.free[0] ==> r.time[q] == 0
    requires forall q :: 0 <= q < |s.at| && q != s.free[0] && s.act != Some(q) ==> r.time[q] == s.time[q]
    ensures Created(s, e, r)
  {
    hide Settled, Possible;
  }

  // ---------------------------------------------------------------- for life

  /** A process is created by `x` and lives, through `run`, in `t`. */
  ghost predicate Lives(s: Sys, x: Entry, run: seq<Entry>, t: Sys) {
    && Settled(s) && Possible(s, x.event) && Tame(s, x.event) && x.event.CreateProcess? && s.free != []
    && CanRun(After(s, x), run) && Survives(After(s, x), run, s.free[0]) && t == Run(After(s, x), run)
  }

  /** On every run on which it survives, a process is what the caller of NSYS1 asked for, and the caller's child. */
  lemma CreatedForLife(s: Sys, x: Entry, run: seq<Entry>, t: Sys)
    requires Lives(s, x, run, t)
    ensures s.act.Some? && Settled(t)
    ensures var (p, e) := (s.free[0], x.event);
            && p < |t.at| && t.at[p] != Free
            && p < |t.prio| && t.prio[p] == e.prio && p < |t.support| && t.support[p] == e.support
            && p < |t.parent| && t.parent[p] == s.act && t.base == s.base && t.size == s.size
    ensures NeverCreated(After(s, x), run, s.free[0]) && s.free[0] < |s.at|
  {
    var (r, p) := (After(s, x), s.free[0]);
    CreationExactly(s, x);
    FreeOnce(s);
    assert p in s.free;
    KillsApart(s, x.event, p);
    LivesExactly(s, x, p);
    TableAfter(s, x);
    hide Settled, Possible, Tame, After, Killed;
    FieldsStay(r, run, p);
  }

  /** Its account is the sum of its bills since then. */
  lemma AccountForLife(s: Sys, x: Entry, run: seq<Entry>, t: Sys)
    requires Lives(s, x, run, t)
    ensures s.free[0] < |t.time| && t.time[s.free[0]] == BilledTo(Bills(After(s, x), run), s.free[0])
  {
    CreationExactly(s, x);
    CreatedForLife(s, x, run, t);
    StartsAtZero(s, x.event, After(s, x));
    hide *;
    TimeIsBilled(After(s, x), run, s.free[0]);
  }

  lemma StartsAtZero(s: Sys, e: Event, r: Sys)
    requires Settled(s) && e.CreateProcess? && s.free != [] && s.act.Some? && Created(s, e, r)
    ensures s.free[0] < |s.at| == |r.time| && r.time[s.free[0]] == 0 && s.act.value < |r.v0|
    ensures r.v0[s.act.value] == s.base + s.size * s.free[0]
  {
    hide Settled;
  }

  /** What the running process `p` is told by an information call. */
  lemma Asked(t: Sys, y: Entry, p: nat)
    requires Settled(t) && Possible(t, y.event) && Tame(t, y.event) && t.act == Some(p) && p < |t.at|
    requires y.event.GetSupport? || y.event.GetProcessId? || y.event.GetTime?
    ensures p < |t.support| == |t.parent| == |t.time| == |After(t, y).v0|
    ensures var told := After(t, y).v0[p];
            && (y.event == GetSupport ==> told == t.support[p])
            && (y.event == GetProcessId(false) ==> told == t.base + t.size * p)
            && (y.event == GetProcessId(true) ==>
                  told == if t.parent[p].Some? then t.base + t.size * t.parent[p].value else 0)
            && (y.event == GetTime ==> told == t.time[p])
  {
    RepliesAfter(t, y);
    Sized(t, p);
    hide *;
    Told(t, y.event, After(t, y), p);
  }

  /** The information calls, of the state before them. */
  lemma Told(t: Sys, e: Event, u: Sys, p: nat)
    requires Settled(t) && Possible(t, e) && Replied(t, e, u) && t.act == Some(p)
    requires p < |t.at| == |t.v0| == |t.support| == |t.parent| == |t.time|
    ensures e.GetSupport? || e.GetProcessId? || e.GetTime? ==> |u.v0| == |t.v0|
    ensures e == GetSupport ==> u.v0[p] == t.support[p]
    ensures e == GetProcessId(false) ==> u.v0[p] == t.base + t.size * p
    ensures e == GetProcessId(true) ==>
              u.v0[p] == if t.parent[p].Some? then t.base + t.size * t.parent[p].value else 0
    ensures e == GetTime ==> u.v0[p] == t.time[p]
  {
    hide Settled, Possible;
  }

  /** NSYS1 told the parent the new process's address. */
  lemma LifeBegins(s: Sys, x: Entry, run: seq<Entry>, t: Sys)
    requires Lives(s, x, run, t)
    ensures Settled(s) && Possible(s, x.event) && Tame(s, x.event) && s.free != [] && s.act.Some?
    ensures s.act.value < |After(s, x).v0| && After(s, x).v0[s.act.value] == s.base + s.size * s.free[0]
  {
    CreationExactly(s, x);
    StartsAtZero(s, x.event, After(s, x));
    hide *;
  }

  // What such a process is told when it asks.

  /** Its support structure is the one it was created with. */
  lemma SupportForLife(s: Sys, x: Entry, run: seq<Entry>, t: Sys, y: Entry)
    requires Lives(s, x, run, t) && t.mode == Active && t.act == Some(s.free[0])
    requires y.event == GetSupport && Possible(t, y.event) && Tame(t, y.event)
    ensures s.free[0] < |After(t, y).v0| && After(t, y).v0[s.free[0]] == x.event.support
  {
    CreatedForLife(s, x, run, t);
    hide *;
    Asked(t, y, s.free[0]);
  }

  /** Its time is the sum of its bills since its creation. */
  lemma TimeForLife(s: Sys, x: Entry, run: seq<Entry>, t: Sys, y: Entry)
    requires Lives(s, x, run, t) && t.mode == Active && t.act == Some(s.free[0])
    requires y.event == GetTime && Possible(t, y.event) && Tame(t, y.event)
    ensures s.free[0] < |After(t, y).v0|
    ensures After(t, y).v0[s.free[0]] == BilledTo(Bills(After(s, x), run), s.free[0])
  {
    CreatedForLife(s, x, run, t);
    AccountForLife(s, x, run, t);
    hide *;
    Asked(t, y, s.free[0]);
  }

  /** Its identifier is what NSYS1 told its parent, */
  lemma IdentifierForLife(s: Sys, x: Entry, run: seq<Entry>, t: Sys, y: Entry)
    requires Lives(s, x, run, t) && t.mode == Active && t.act == Some(s.free[0])
    requires y.event == GetProcessId(false) && Possible(t, y.event) && Tame(t, y.event)
    ensures s.free[0] < |After(t, y).v0| && s.act.Some? && s.act.value < |After(s, x).v0|
    ensures After(t, y).v0[s.free[0]] == After(s, x).v0[s.act.value]
  {
    hide *;
    LifeBegins(s, x, run, t);
    CreatedForLife(s, x, run, t);
    Asked(t, y, s.free[0]);
  }

  /** and its parent's identifier is the parent's address. */
  lemma ParentForLife(s: Sys, x: Entry, run: seq<Entry>, t: Sys, y: Entry)
    requires Lives(s, x, run, t) && t.mode == Active && t.act == Some(s.free[0])
    requires y.event == GetProcessId(true) && Possible(t, y.event) && Tame(t, y.event)
    ensures s.free[0] < |After(t, y).v0| && s.act.Some?
    ensures After(t, y).v0[s.free[0]] == s.base + s.size * s.act.value
  {
    CreatedForLife(s, x, run, t);
    hide *;
    Asked(t, y, s.free[0]);
  }

  // ---------------------------------------------------------------- NSYS9

  /** NSYS9 for the parent: the address of the process among whose children the caller is, or 0 if there is none. */
  lemma ParentTold(s: Sys, x: Entry)
    requires Settled(s) && Possible(s, x.event) && Tame(s, x.event) && x.event == GetProcessId(true)
    requires s.base > 0 && s.size > 0
    ensures s.act.Some? && s.act.value < |s.at| == |After(s, x).v0| == |s.kids|
    ensures var (a, told) := (s.act.value, After(s, x).v0[s.act.value]);
            && (forall q :: 0 <= q < |s.at| ==> (told == s.base + s.size * q <==> a in s.kids[q]))
            && (told == 0 <==> forall q :: 0 <= q < |s.at| ==> a !in s.kids[q])
  {
    var a := s.act.value;
    CallerThere(s, x.event);
    RepliesAfter(s, x);
    Sized(s, a);
    Told(s, x.event, After(s, x), a);
    ParentInside(s, a);
    hide Settled, Possible, Tame, After, Replied;
    forall q | 0 <= q < |s.at|
      ensures After(s, x).v0[a] == s.base + s.size * q <==> a in s.kids[q]
    {
      ChildMeansParent(s, a, q);
      if s.parent[a].Some? { AddressesApart(s, s.parent[a].value, q); }
      AddressesApart(s, q, q);
    }
    if s.parent[a].Some? {
      ChildMeansParent(s, a, s.parent[a].value);
      AddressesApart(s, s.parent[a].value, 0);
    } else {
      forall q | 0 <= q < |s.at| ensures a !in s.kids[q] {
        ChildMeansParent(s, a, q);
      }
    }
  }

  lemma AddressesApart(s: Sys, p: nat, q: nat)
    requires s.base > 0 && s.size > 0
    ensures s.base + s.size * p == s.base + s.size * q <==> p == q
    ensures s.base + s.size * p > 0 && s.base + s.size * q > 0
  {
    if p < q { Grows(s.size, p, q); } else if q < p { Grows(s.size, q, p); }
  }

  lemma ChildMeansParent(s: Sys, a: nat, q: nat)
    requires Settled(s) && a < |s.at| && q < |s.at|
    ensures |s.kids| == |s.parent| == |s.at| && (a in s.kids[q] <==> s.parent[a] == Some(q))
  {
  }

  lemma ParentInside(s: Sys, a: nat)
    requires Settled(s) && a < |s.at|
    ensures a < |s.parent| && (s.parent[a].Some? ==> s.parent[a].value < |s.at|)
  {
  }
}
