/** The queue of a semaphore, passage by passage; and how long a process can be in it. */
module SemaphoreQueues {
  import opened Prelude
  import opened NucleusState
  import opened NucleusInvariant
  import opened KillTree
  import opened NucleusStep
  import opened NucleusRuns
  import opened NucleusTheorems
  import opened Semaphores
  import opened Waiting

  function Rest(q: seq<nat>): seq<nat> {
    if q == [] then [] else q[1..]
  }

  /** The queue of `k` after a passage: the terminated leave it, a release takes its head, a caller joins its end. */
  ghost function NextQueue(s: Sys, e: Event, k: Key): seq<nat>
    requires Settled(s) && Possible(s, e)
  {
    var q := Queue(s, k);
    if Kills(s, e) then Without(q, Killed(s, e))
    else if e.Tick? && k == Clock then []
    else if DoesP(s, e) && KeyOf(e) == k then if SemVal(s, k) == 0 then q + [s.act.value] else Rest(q)
    else if DoesV(s, e) && KeyOf(e) == k then
      if SemVal(s, k) != 1 then Rest(q) else if s.act == None then q else q + [s.act.value]
    else q
  }

  lemma PVQueue(s: Sys, j: Key, k: Key)
    requires Inv(s)
    ensures Queue(V(s, j).0, k) ==
            if j != k then Queue(s, k)
            else if SemVal(s, k) != 1 then Rest(Queue(s, k))
            else if s.act == None then Queue(s, k) else Queue(s, k) + [s.act.value]
    ensures s.act.Some? ==>
              Queue(P(s, j).0, k) ==
              if j != k then Queue(s, k)
              else if SemVal(s, k) == 0 then Queue(s, k) + [s.act.value] else Rest(Queue(s, k))
  {
    hide ListsOk, ValuesOk, TreeOk, PriosOk, CountsOk, ActOk, AslOk, Wake;
    if j in s.asl { WakeFacts(s, j); }
  }

  lemma TickQueue(s: Sys, k: Key)
    requires Settled(s) && (s.mode == Active || s.mode == Idle)
    ensures Queue(ClockTick(s), k) == if k == Clock then [] else Queue(s, k)
  {
    hide ListsOk, ValuesOk, TreeOk, PriosOk, CountsOk, ActOk, AslOk;
    ClockLoopWakes(s);
  }

  lemma CreateQueue(s: Sys, prio: int, support: int, reg: int, k: Key)
    requires Shape(s) && s.act.Some?
    ensures Queue(MkProc(s, prio, support, reg).0, k) == Queue(s, k)
  {
    CreateApart(s, prio, support, reg);
  }

  lemma CallQueue(s: Sys, e: Event, k: Key)
    requires Settled(s) && Possible(s, e) && (DoesP(s, e) || DoesV(s, e))
    ensures Queue(Handle(s, e).0, k) == NextQueue(s, e, k)
  {
    hide ListsOk, AslOk, ValuesOk, TreeOk, PriosOk, CountsOk, Handle, P, V, ClockTick, MkProc, KillProcess, Subtree;
    HandleIs(s, e);
    PVQueue(s, KeyOf(e), k);
  }

  lemma HandleQueue(s: Sys, e: Event, k: Key)
    requires Settled(s) && Possible(s, e) && Tame(s, e)
    ensures Queue(Handle(s, e).0, k) == NextQueue(s, e, k)
  {
    hide ListsOk, AslOk, ValuesOk, TreeOk, PriosOk, CountsOk, Handle, P, V, ClockTick, MkProc, KillProcess, Subtree;
    HandleIs(s, e);
    if Kills(s, e) {
      KillsExactlySubtree(s, Victim(s, e));
    } else if DoesP(s, e) || DoesV(s, e) {
      CallQueue(s, e, k);
    } else if e.CreateProcess? {
      CreateQueue(s, e.prio, e.support, e.reg, k);
    } else if e.Tick? {
      TickQueue(s, k);
    }
  }

  /** Exactly what a passage does to the queue of any semaphore. */
  lemma QueueAfter(s: Sys, x: Entry, k: Key)
    requires Settled(s) && Possible(s, x.event) && Tame(s, x.event)
    ensures Queue(After(s, x), k) == NextQueue(s, x.event, k)
  {
    AfterAsl(s, x);
    HandleQueue(s, x.event, k);
    hide NextQueue, Handle, After, Settled, Possible, Tame;
  }

  // ---------------------------------------------------------------- releases

  /** How many a passage releases from the head of the queue. */
  ghost function Releases(s: Sys, e: Event, k: Key): nat
    requires Settled(s) && Possible(s, e)
  {
    var q := Queue(s, k);
    if Kills(s, e) || q == [] then 0
    else if e.Tick? && k == Clock then |q|
    else if DoesP(s, e) && KeyOf(e) == k && SemVal(s, k) != 0 then 1
    else if DoesV(s, e) && KeyOf(e) == k && SemVal(s, k) != 1 then 1
    else 0
  }

  ghost function Releasings(s: Sys, run: seq<Entry>, k: Key): nat
    requires Settled(s) && CanRun(s, run)
    decreases |run|
  {
    if run == [] then 0 else Releases(s, run[0].event, k) + Releasings(After(s, run[0]), run[1..], k)
  }

  /** Somewhere along the run `p` is terminated, or its operation on `k` is carried through. */
  ghost predicate LetGo(s: Sys, run: seq<Entry>, k: Key, p: nat)
    requires Settled(s) && CanRun(s, run)
    decreases |run|
  {
    run != [] &&
    (|| p in Killed(s, run[0].event)
     || Done(p, k, true) in Completed(s, run[0].event)
     || Done(p, k, false) in Completed(s, run[0].event)
     || LetGo(After(s, run[0]), run[1..], k, p))
  }

  /** Who is in the queue, as the blocks say it. */
  lemma Queued(s: Sys, k: Key, p: nat)
    requires Inv(s)
    ensures p in Queue(s, k) <==> p < |s.at| && s.at[p] == Blocked(k)
    ensures NoDup(Queue(s, k)) && (p in Queue(s, k) && s.act.Some? && s.at[s.act.value] == Running ==> s.act != Some(p))
  {
    if k in s.asl { assert Holds(s.asl[k], s.at, Blocked(k)); }
  }

  lemma Calls(s: Sys, e: Event)
    requires Settled(s) && Possible(s, e)
    ensures DoesP(s, e) ==> s.act.Some?
  {
  }

  /** `r` is `q` without its first `n` members, and perhaps with the caller at its end. */
  ghost predicate Shifted(q: seq<nat>, r: seq<nat>, n: nat, act: Option<nat>) {
    n <= |q| && (r == q[n..] || (act.Some? && r == q[n..] + [act.value]))
  }

  /** Without a termination the queue loses its first members, as many as are released, and may gain the caller. */
  lemma QueueShifts(s: Sys, e: Event, k: Key)
    requires Settled(s) && Possible(s, e) && !Kills(s, e)
    ensures Shifted(Queue(s, k), NextQueue(s, e, k), Releases(s, e, k), s.act)
  {
    Calls(s, e);
    hide Settled, Possible, Kills, Queue, SemVal, KeyOf, BinaryValue;
    var q := Queue(s, k);
    assert q[0..] == q && q[|q|..] == [];
  }

  /** `p` is in the queue of `k` at position `i` or nearer its head. */
  ghost predicate AsNear(r: Sys, k: Key, p: nat, i: int) {
    exists j :: 0 <= j <= i && j < |Queue(r, k)| && Queue(r, k)[j] == p
  }

  lemma AheadReleased(s: Sys, x: Entry, k: Key, i: nat)
    requires Settled(s) && Possible(s, x.event) && Tame(s, x.event) && !Kills(s, x.event)
    requires i < |Queue(s, k)| && i < Releases(s, x.event, k)
    ensures var p := Queue(s, k)[i];
            p < |s.at| && p < |s.waitsP| && Done(p, k, s.waitsP[p]) in Completed(s, x.event)
  {
    var q, p, r := Queue(s, k), Queue(s, k)[i], Releases(s, x.event, k);
    assert p in q && p !in Killed(s, x.event);
    Queued(s, k, p);
    Queued(After(s, x), k, p);
    QueueAfter(s, x, k);
    QueueShifts(s, x.event, k);
    RunningOne(s, x.event);
    assert p !in q[r..];
    assert p !in Queue(After(s, x), k);
    assert |s.at| == |s.waitsP|;
    hide Settled, Possible, Tame, Kills, NextQueue, Releases, Queue, Completed, After;
    LeavesByCompletion(s, x, k, p);
  }

  lemma RunningOne(s: Sys, e: Event)
    requires Settled(s) && Possible(s, e)
    ensures s.act.Some? ==> s.act.value < |s.at| && s.at[s.act.value] == Running
  {
  }

  /** One passage: let go, or nearer the head by as many as were released, at least. */
  lemma QueueTurn(s: Sys, x: Entry, k: Key, i: nat)
    requires Settled(s) && Possible(s, x.event) && Tame(s, x.event)
    requires i < |Queue(s, k)| && Queue(s, k)[i] !in Killed(s, x.event)
    ensures var p, n := Queue(s, k)[i], Releases(s, x.event, k);
            if i < n then Done(p, k, true) in Completed(s, x.event) || Done(p, k, false) in Completed(s, x.event)
            else AsNear(After(s, x), k, p, i - n)
  {
    QueueAfter(s, x, k);
    hide Settled, Possible, Tame, Kills, NextQueue, Releases, Queue, Completed, After, Killed, AsNear;
    if Kills(s, x.event) {
      NearerByKill(s, x, k, i);
    } else if i < Releases(s, x.event, k) {
      AheadReleased(s, x, k, i);
    } else {
      NearerByRelease(s, x, k, i);
    }
  }

  lemma NearerByKill(s: Sys, x: Entry, k: Key, i: nat)
    requires Settled(s) && Possible(s, x.event) && Tame(s, x.event) && Kills(s, x.event)
    requires i < |Queue(s, k)| && Queue(s, k)[i] !in Killed(s, x.event)
    requires Queue(After(s, x), k) == NextQueue(s, x.event, k)
    ensures Releases(s, x.event, k) == 0 && AsNear(After(s, x), k, Queue(s, k)[i], i)
  {
    hide Settled, Possible, Queue, After, Killed, Kills, DoesP, DoesV;
    var j := WithoutIndex(Queue(s, k), Killed(s, x.event), i);
  }

  lemma NearerByRelease(s: Sys, x: Entry, k: Key, i: nat)
    requires Settled(s) && Possible(s, x.event) && Tame(s, x.event) && !Kills(s, x.event)
    requires Releases(s, x.event, k) <= i < |Queue(s, k)| && Queue(After(s, x), k) == NextQueue(s, x.event, k)
    ensures AsNear(After(s, x), k, Queue(s, k)[i], i - Releases(s, x.event, k))
  {
    hide Settled, Possible, Queue, After, Kills, NextQueue, Releases;
    var n := Releases(s, x.event, k);
    QueueShifts(s, x.event, k);
    assert Queue(s, k)[n..][i - n] == Queue(s, k)[i] == Queue(After(s, x), k)[i - n];
  }

  /**
   * First come, first served: a process at position `i` of a semaphore's queue has its operation carried
   * through, or is terminated, at the latest by the release number `i + 1` on that semaphore.
   */
  lemma {:induction false} ServedInTurn(s: Sys, run: seq<Entry>, k: Key, i: nat)
    requires Settled(s) && CanRun(s, run) && i < |Queue(s, k)|
    requires Releasings(s, run, k) > i
    ensures LetGo(s, run, k, Queue(s, k)[i])
    decreases |run|
  {
    hide Settled, Possible, Tame, Killed, Queue, Releases, Completed;
    var x, p := run[0], Queue(s, k)[i];
    if p !in Killed(s, x.event) {
      QueueTurn(s, x, k, i);
      var r, n := After(s, x), Releases(s, x.event, k);
      if i >= n {
        var j :| 0 <= j <= i - n && j < |Queue(r, k)| && Queue(r, k)[j] == p;
        ServedInTurn(r, run[1..], k, j);
      }
    }
  }
}
