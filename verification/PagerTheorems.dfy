/** What holds on every run of the pager: the replacement order, the TLB, the mapping, sp_asids. */
module PagerTheorems {
  import opened Prelude
  import opened PagerState
  import opened PagerInvariant

  // ---------------------------------------------------------------- runs

  /** The steps can be taken one after the other, in any interleaving of the processes. */
  ghost predicate CanRun(s: Pager, acts: seq<Action>)
    requires Shape(s)
    decreases |acts|
  {
    if acts == [] then true
    else Enabled(s, acts[0]) && (ShapeKept(s, acts[0]); CanRun(Apply(s, acts[0]), acts[1..]))
  }

  ghost function Run(s: Pager, acts: seq<Action>): (r: Pager)
    requires Shape(s) && CanRun(s, acts)
    ensures Shape(r) && SameSizes(s, r)
    decreases |acts|
  {
    if acts == [] then s
    else
      ShapeKept(s, acts[0]);
      Run(Apply(s, acts[0]), acts[1..])
  }

  ghost predicate SameSizes(s: Pager, r: Pager) {
    && r.pages == s.pages && |r.slots| == |s.slots| && |r.pt| == |s.pt| && |r.alive| == |s.alive| &&
       |r.bits| == |s.bits|
    && |r.tlb| == |s.tlb|
  }

  /** No process writes sp_asids back over another's change. */
  ghost predicate NothingLost(s: Pager, acts: seq<Action>)
    requires Shape(s) && CanRun(s, acts)
    decreases |acts|
  {
    acts == [] || (Fresh(s, acts[0]) && (ShapeKept(s, acts[0]); NothingLost(Apply(s, acts[0]), acts[1..])))
  }

  lemma RunNothing(s: Pager)
    requires Shape(s)
    ensures CanRun(s, []) && Run(s, []) == s
  {
  }

  /** A run and one step more. */
  lemma {:induction false} RunOn(s: Pager, acts: seq<Action>, a: Action)
    requires Shape(s) && CanRun(s, acts) && Enabled(Run(s, acts), a)
    ensures CanRun(s, acts + [a]) && Run(s, acts + [a]) == Apply(Run(s, acts), a)
    ensures NothingLost(s, acts) && Fresh(Run(s, acts), a) ==> NothingLost(s, acts + [a])
    decreases |acts|
  {
    hide Shape, Enabled, Apply, Fresh, SameSizes;
    if acts == [] {
      assert [a][1..] == [];
      ShapeKept(s, a);
    } else {
      ShapeKept(s, acts[0]);
      assert (acts + [a])[0] == acts[0] && (acts + [a])[1..] == acts[1..] + [a];
      RunOn(Apply(s, acts[0]), acts[1..], a);
    }
  }

  lemma {:induction false} RunSound(s: Pager, acts: seq<Action>)
    requires Sound(s) && CanRun(s, acts)
    ensures Sound(Run(s, acts))
    decreases |acts|
  {
    if acts != [] {
      StepSound(s, acts[0]);
      RunSound(Apply(s, acts[0]), acts[1..]);
    }
  }

  lemma {:induction false} RunInv(s: Pager, acts: seq<Action>)
    requires Inv(s) && CanRun(s, acts) && NothingLost(s, acts)
    ensures Inv(Run(s, acts))
    decreases |acts|
  {
    if acts != [] {
      StepInv(s, acts[0]);
      RunInv(Apply(s, acts[0]), acts[1..]);
    }
  }

  /** The invariant holds at every point of the run. */
  ghost predicate InvThroughout(s: Pager, acts: seq<Action>)
    requires Shape(s) && CanRun(s, acts)
    decreases |acts|
  {
    Inv(s) && (acts == [] || (ShapeKept(s, acts[0]); InvThroughout(Apply(s, acts[0]), acts[1..])))
  }

  /** The invariant holds all along a run exactly if no write of sp_asids in it is lost. */
  lemma {:induction false} InvThroughoutExactly(s: Pager, acts: seq<Action>)
    requires Inv(s) && CanRun(s, acts)
    ensures InvThroughout(s, acts) <==> NothingLost(s, acts)
    decreases |acts|
  {
    if acts != [] {
      var a, t := acts[0], Apply(s, acts[0]);
      ShapeKept(s, a);
      FreshExactly(s, a);
      hide Inv, Shape, Enabled, Apply, Fresh;
      if Inv(t) {
        InvThroughoutExactly(t, acts[1..]);
      }
    }
  }

  /** One step keeps the invariant exactly if it is no stale write. */
  lemma FreshExactly(s: Pager, a: Action)
    requires Inv(s) && Enabled(s, a)
    ensures Inv(Apply(s, a)) <==> Fresh(s, a)
  {
    hide Sound, EntriesFramed, TransferOk, BitsExact, Apply;
    if Fresh(s, a) {
      StepInv(s, a);
    } else {
      WriteByteExactly(s, a.p);
    }
  }

  // ---------------------------------------------------------------- every run

  /**
   * On every run from the start every TLB entry is its page's current entry and no page has two entries,
   * dead processes included, although a failed probe is not noticed.
   */
  lemma TlbStaysCoherent(s0: Pager, acts: seq<Action>)
    requires Initial(s0)
    ensures CanRun(s0, acts) ==>
              var s := Run(s0, acts);
              && (forall t :: 0 <= t < |s.tlb| && s.tlb[t].Some? ==>
                    s.tlb[t].value.lo == s.pt[s.tlb[t].value.asid][s.tlb[t].value.page])
              && (forall t, u ::
                    (0 <= t < |s.tlb| && 0 <= u < |s.tlb| && s.tlb[t].Some? && s.tlb[u].Some? &&
                     s.tlb[t].value.asid == s.tlb[u].value.asid && s.tlb[t].value.page == s.tlb[u].value.page)
                    ==> t == u)
  {
    if CanRun(s0, acts) {
      InitialInv(s0);
      RunSound(s0, acts);
    }
  }

  /** The step a process inside the swap pool's semaphore takes next if its transfers succeed. */
  function NextAction(s: Pager, spare: nat): Action
    requires !s.phase.Unlocked? && !s.phase.Abandoned?
  {
    match s.phase
    case Locked(_, _) => Choose
    case Chosen(_, _, _) => Check
    case Evicting(_, _, _) => Invalidate(spare)
    case Invalidated(_, _, _) => WriteBack
    case WrittenBack(_, _, _) => MarkFree
    case Reading(_, _, _) => BringIn
    case Loaded(_, _, _) => Commit(spare)
    case Committed(_, _) => Unlock
  }

  /** Unless its read failed the holder is never stuck: whatever the others did, its next step can be taken. */
  lemma HolderProceeds(s: Pager, spare: nat)
    requires Sound(s) && !s.phase.Unlocked? && !s.phase.Abandoned? && spare < |s.tlb|
    ensures Enabled(s, NextAction(s, spare))
  {
  }

  /** After a failed read nobody is served any more: the pool stays locked, and whoever waits for a page waits on. */
  lemma {:induction false} AbandonedForGood(s: Pager, acts: seq<Action>)
    requires Shape(s) && CanRun(s, acts) && s.phase.Abandoned?
    ensures Run(s, acts).phase == s.phase
    ensures forall o :: 0 <= o < |s.faulted| && s.faulted[o].Some? ==> Run(s, acts).faulted[o] == s.faulted[o]
    decreases |acts|
  {
    if acts != [] {
      ShapeKept(s, acts[0]);
      AbandonedForGood(Apply(s, acts[0]), acts[1..]);
      hide Shape, SameSizes;
    }
  }

  /** How many faults have been given a frame. */
  function Chooses(acts: seq<Action>): (n: nat) {
    if acts == [] then 0 else (if acts[0].Choose? then 1 else 0) + Chooses(acts[1..])
  }

  lemma {:induction false} CallsCount(s: Pager, acts: seq<Action>)
    requires Shape(s) && CanRun(s, acts)
    ensures Run(s, acts).calls == s.calls + Chooses(acts)
    decreases |acts|
  {
    if acts != [] {
      ShapeKept(s, acts[0]);
      CallsCount(Apply(s, acts[0]), acts[1..]);
      hide Shape, Enabled;
    }
  }

  /**
   * On every run from the start, whatever ends in between, the fault number n, from 0, is given frame
   * n mod SP_SIZE; and once every frame has been used none is ever vacant between two faults.
   */
  lemma FramesInTurn(s0: Pager, acts: seq<Action>)
    requires Initial(s0)
    ensures CanRun(s0, acts) ==>
              var s := Run(s0, acts);
              && (Enabled(s, Choose) ==> Apply(s, Choose).phase.f == Chooses(acts) % |s.slots|)
              && (Chooses(acts) >= |s.slots| && !Replacing(s) ==> Vacant !in s.slots)
  {
    if CanRun(s0, acts) {
      InitialInv(s0);
      RunSound(s0, acts);
      CallsCount(s0, acts);
      InTurn(Run(s0, acts), Chooses(acts));
      hide *;
    }
  }

  lemma InTurn(s: Pager, n: nat)
    requires Sound(s) && s.calls == n
    ensures Shape(s) && (Enabled(s, Choose) ==> Apply(s, Choose).phase.f == n % |s.slots|)
    ensures n >= |s.slots| && !Replacing(s) ==> Vacant !in s.slots
  {
    hide FramesMapped, FaultedOk, TlbCoherent, TlbUnique, PhaseOk, OwnersUsed;
    if Enabled(s, Choose) { ChoosesInTurn(s); }
    hide ChosenFrame;
  }

  // ---------------------------------------------------------------- runs on which no write of sp_asids is lost

  /** A state that such a run from the start leads to. */
  ghost predicate Reachable(s: Pager) {
    exists s0: Pager, acts :: Initial(s0) && CanRun(s0, acts) && NothingLost(s0, acts) && Run(s0, acts) == s
  }

  lemma ReachableInv(s: Pager)
    requires Reachable(s)
    ensures Inv(s)
  {
    var s0: Pager, acts :| Initial(s0) && CanRun(s0, acts) && NothingLost(s0, acts) && Run(s0, acts) == s;
    InitialInv(s0);
    RunInv(s0, acts);
  }

  /**
   * Between the frames of known processes and their valid entries there is a bijection: a frame's slot names
   * an entry that is valid and holds the frame's address, a valid entry's frame names the entry, two
   * valid entries hold different addresses, and none holds the address of a frame with a transfer pending.
   */
  lemma MappingIsBijective(s: Pager)
    requires Reachable(s)
    ensures Inv(s)
    ensures forall f :: 0 <= f < |s.slots| && s.slots[f].Taken? && !Busy(s, f) ==>
              s.pt[s.slots[f].asid][s.slots[f].page] == Lo(Addr(f), true)
    ensures forall o, h :: 0 <= o < |s.pt| && 0 <= h < |s.pt[o]| && s.pt[o][h].valid && Known(s, o) ==>
              exists f :: 0 <= f < |s.slots| && s.pt[o][h].addr == Addr(f) && s.slots[f] == Taken(o, h) && !Busy(s, f)
    ensures forall o, h, p, g ::
              (0 <= o < |s.pt| && 0 <= h < |s.pt[o]| && 0 <= p < |s.pt| && 0 <= g < |s.pt[p]| &&
               Known(s, o) && Known(s, p) &&
               s.pt[o][h].valid && s.pt[p][g].valid && s.pt[o][h].addr == s.pt[p][g].addr) ==>
              o == p && h == g
  {
    ReachableInv(s);
    forall o, h | 0 <= o < |s.pt| && 0 <= h < |s.pt[o]| && s.pt[o][h].valid && Known(s, o)
      ensures exists f :: 0 <= f < |s.slots| && s.pt[o][h].addr == Addr(f) && s.slots[f] == Taken(o, h) && !Busy(s, f)
    {
      assert Framed(s, o, h);
    }
    forall o, h, p, g | 0 <= o < |s.pt| && 0 <= h < |s.pt[o]| && 0 <= p < |s.pt| && 0 <= g < |s.pt[p]| &&
        s.pt[o][h].valid && s.pt[p][g].valid && Known(s, o) && Known(s, p) && s.pt[o][h].addr == s.pt[p][g].addr
      ensures o == p && h == g
    {
      NoSharing(s, o, h, p, g);
    }
  }

  // ---------------------------------------------------------------- sp_asids

  /** Process `o` has had a page brought in during the run. */
  ghost predicate EverLoaded(s: Pager, acts: seq<Action>, o: nat)
    requires Shape(s) && CanRun(s, acts)
    decreases |acts|
  {
    acts != [] &&
    ((acts[0].Commit? && s.phase.p == o) || (ShapeKept(s, acts[0]); EverLoaded(Apply(s, acts[0]), acts[1..], o)))
  }

  lemma {:induction false} UsedMeans(s: Pager, acts: seq<Action>, o: nat)
    requires Shape(s) && CanRun(s, acts) && o < |s.used|
    ensures Run(s, acts).used[o] <==> s.used[o] || EverLoaded(s, acts, o)
    decreases |acts|
  {
    if acts != [] {
      ShapeKept(s, acts[0]);
      UsedMeans(Apply(s, acts[0]), acts[1..], o);
    }
  }

  lemma {:induction false} EndingMeans(s: Pager, acts: seq<Action>, o: nat)
    requires Shape(s) && CanRun(s, acts) && o < |s.ending|
    ensures Run(s, acts).ending[o].Written? <==> s.ending[o].Written? || WriteByte(o) in acts
    decreases |acts|
  {
    if acts != [] {
      ShapeKept(s, acts[0]);
      EndingMeans(Apply(s, acts[0]), acts[1..], o);
      hide Shape, SameSizes;
    }
  }

  /**
   * The bit says whether the process has had a page brought in, turned over if it has given up its frames: so
   * it goes off with SYS2 just when the process had faulted, and a trapped process that is killed keeps it on.
   */
  lemma BitMeans(s0: Pager, acts: seq<Action>, o: nat)
    requires Initial(s0) && o < |s0.bits|
    ensures CanRun(s0, acts) && NothingLost(s0, acts) ==>
              (Run(s0, acts).bits[o] <==> (EverLoaded(s0, acts, o) <==> WriteByte(o) !in acts))
  {
    if CanRun(s0, acts) && NothingLost(s0, acts) {
      InitialInv(s0);
      RunInv(s0, acts);
      UsedMeans(s0, acts, o);
      EndingMeans(s0, acts, o);
      hide Sound, EntriesFramed, TransferOk;
    }
  }

  lemma {:induction false} TheDeadStayDead(s: Pager, acts: seq<Action>, o: nat)
    requires Shape(s) && CanRun(s, acts) && o < |s.alive| && !s.alive[o]
    ensures SafeKill(o) !in acts && End(o) !in acts && WriteByte(o) !in acts && !Run(s, acts).alive[o]
    decreases |acts|
  {
    if acts != [] {
      ShapeKept(s, acts[0]);
      TheDeadStayDead(Apply(s, acts[0]), acts[1..], o);
      hide Shape, SameSizes;
    }
  }

  /** A process that has given up its frames does nothing but end. */
  lemma {:induction false} TheEndingEnd(s: Pager, acts: seq<Action>, o: nat)
    requires Shape(s) && CanRun(s, acts) && o < |s.alive| && s.ending[o].Written?
    ensures SafeKill(o) !in acts && Run(s, acts).ending[o].Written?
    decreases |acts|
  {
    if acts != [] {
      ShapeKept(s, acts[0]);
      TheEndingEnd(Apply(s, acts[0]), acts[1..], o);
      hide Shape, SameSizes;
    }
  }

  /** A process that was alive is dead at the end just when it ended in one of the two ways. */
  lemma {:induction false} EndsOnce(s: Pager, acts: seq<Action>, o: nat)
    requires Shape(s) && CanRun(s, acts) && o < |s.alive| && s.alive[o] && !s.ending[o].Written?
    ensures !Run(s, acts).alive[o] ==> (WriteByte(o) in acts <==> SafeKill(o) !in acts)
    decreases |acts|
  {
    if acts != [] {
      ShapeKept(s, acts[0]);
      EndStep(s, acts[0], o);
      var t := Apply(s, acts[0]);
      hide Shape, SameSizes, Enabled, Apply;
      assert acts == [acts[0]] + acts[1..];
      if !t.alive[o] {
        TheDeadStayDead(t, acts[1..], o);
      } else if t.ending[o].Written? {
        TheEndingEnd(t, acts[1..], o);
      } else {
        EndsOnce(t, acts[1..], o);
      }
    }
  }

  /** One step of a living process ends it in one of the two ways or in neither. */
  lemma EndStep(s: Pager, a: Action, o: nat)
    requires Shape(s) && Enabled(s, a) && o < |s.alive| && s.alive[o] && !s.ending[o].Written?
    ensures var t := Apply(s, a);
            && |t.alive| == |t.ending| == |s.alive| && (!t.alive[o] <==> a == SafeKill(o))
            && (t.ending[o].Written? <==> a == WriteByte(o))
  {
  }

  /**
   * The comment on sp_asids says a bit that is on belongs to a living process.  It does so exactly unless
   * the process was killed after a page had been brought in for it, or called SYS2 before any had.
   */
  lemma BitOfTheDead(s0: Pager, acts: seq<Action>, o: nat)
    requires Initial(s0) && o < |s0.alive|
    ensures CanRun(s0, acts) && NothingLost(s0, acts) ==>
              var s := Run(s0, acts);
              && (Living(s, o) ==> (s.bits[o] <==> EverLoaded(s0, acts, o)))
              && (!s.alive[o] ==> (s.bits[o] <==> (EverLoaded(s0, acts, o) <==> SafeKill(o) in acts)))
  {
    if CanRun(s0, acts) && NothingLost(s0, acts) {
      BitMeans(s0, acts, o);
      EndingMeans(s0, acts, o);
      EndsOnce(s0, acts, o);
    }
  }

  // ---------------------------------------------------------------- when no write is lost

  /** With one process no write of sp_asids can be lost. */
  ghost predicate AloneFresh(s: Pager)
    requires Shape(s)
  {
    |s.pt| == 1 && (s.ending[0].Read? ==> s.ending[0].byte == s.bits)
  }

  lemma AloneStep(s: Pager, a: Action)
    requires Sound(s) && AloneFresh(s) && Enabled(s, a)
    ensures Fresh(s, a) && Shape(Apply(s, a)) && AloneFresh(Apply(s, a))
  {
    ShapeKept(s, a);
    hide FramesMapped, OwnersUsed, TlbCoherent, TlbUnique, FifoOk, ChosenFrame, UpdatedTlb;
  }

  lemma {:induction false} AloneLosesNothing(s: Pager, acts: seq<Action>)
    requires Sound(s) && AloneFresh(s) && CanRun(s, acts)
    ensures NothingLost(s, acts)
    decreases |acts|
  {
    if acts != [] {
      AloneStep(s, acts[0]);
      StepSound(s, acts[0]);
      AloneLosesNothing(Apply(s, acts[0]), acts[1..]);
    }
  }

  /** Steps that leave sp_asids alone. */
  predicate LeavesByte(a: Action) {
    !a.Commit? && !a.WriteByte?
  }

  /** A write is fresh if between the read and it nobody has a page brought in and nobody else ends. */
  lemma {:induction false} UndisturbedIsFresh(s: Pager, acts: seq<Action>, p: nat)
    requires Shape(s) && CanRun(s, acts) && p < |s.ending| && s.ending[p].Read? && s.ending[p].byte == s.bits
    requires forall i :: 0 <= i < |acts| ==> LeavesByte(acts[i])
    ensures Fresh(Run(s, acts), WriteByte(p)) && Run(s, acts).bits == s.bits && Run(s, acts).ending[p] == s.ending[p]
    decreases |acts|
  {
    if acts != [] {
      ShapeKept(s, acts[0]);
      assert LeavesByte(acts[0]);
      UndisturbedIsFresh(Apply(s, acts[0]), acts[1..], p);
    }
  }
}
