/**
 * Paging is transparent: what a living process reads at a page is what it last stored there, wherever the
 * page is at the moment.  It holds of every run in which no write of sp_asids is lost, each victim belongs
 * to the faulting process and its write-back succeeds; the write-back goes to the device of the faulting process,
 * so it fails otherwise.
 */
module Transparency {
  import opened Prelude
  import opened PagerState
  import opened PagerInvariant
  import opened PagerTheorems

  /** The page's entry has been invalidated and its write-back not yet done. */
  predicate Pending(s: Pager, o: nat, h: nat) {
    s.phase.Invalidated? && s.phase.f < |s.slots| && s.slots[s.phase.f] == Taken(o, h)
  }

  /** The current contents of a page: in its frame, or in its block of the flash device. */
  function View(s: Pager, o: nat, h: nat): Page
    requires Shape(s) && PageOf(s, o, h)
  {
    if Pending(s, o, h) then s.ram[s.phase.f]
    else if s.pt[o][h].valid && 0 <= FrameAt(s.pt[o][h].addr) < |s.ram| then s.ram[FrameAt(s.pt[o][h].addr)]
    else s.flash[o][h]
  }

  /** The frame being written back belongs to the faulting process, or to nobody and its block is not looked at. */
  ghost predicate SafeVictim(s: Pager)
    requires Shape(s)
  {
    s.phase.Invalidated? && s.phase.f < |s.slots| && s.slots[s.phase.f].Taken? &&
      PageOf(s, s.phase.p, s.slots[s.phase.f].page) ==>
      var (o, h) := (s.slots[s.phase.f].asid, s.slots[s.phase.f].page);
      o == s.phase.p || (!Living(s, o) && s.pt[s.phase.p][h].valid)
  }

  /** The frame about to be written back belongs to nobody alive, and its block is not looked at. */
  ghost predicate Expendable(s: Pager)
    requires Shape(s)
  {
    WritePending(s) && PageOf(s, s.phase.p, s.slots[s.phase.f].page) ==>
      !Living(s, s.slots[s.phase.f].asid) && s.pt[s.phase.p][s.slots[s.phase.f].page].valid
  }

  /** Every living process's pages keep their contents from `s` to `t`. */
  ghost predicate KeepsViews(s: Pager, t: Pager)
    requires Shape(s) && Shape(t) && SameSizes(s, t)
  {
    forall o, h :: 0 <= o < |t.alive| && 0 <= h < t.pages && Living(t, o) ==> View(t, o, h) == View(s, o, h)
  }

  // ---------------------------------------------------------------- reading

  /** A process reads, through any valid TLB entry of its own, the contents of the page. */
  lemma ReadsView(s: Pager, p: nat, t: nat)
    requires Inv(s) && p < |s.alive| && Living(s, p)
    requires t < |s.tlb| && s.tlb[t].Some? && s.tlb[t].value.asid == p && s.tlb[t].value.lo.valid
    ensures var f := FrameAt(s.tlb[t].value.lo.addr);
            0 <= f < |s.ram| && s.ram[f] == View(s, p, s.tlb[t].value.page)
  {
    assert Framed(s, p, s.tlb[t].value.page);
  }

  // ---------------------------------------------------------------- one step

  /** A store changes the one page it is to. */
  lemma StoreView(s: Pager, p: nat, t: nat, value: Page, o: nat, h: nat)
    requires Inv(s) && Enabled(s, Store(p, t, value)) && PageOf(s, o, h) && Living(s, o)
    ensures Shape(Apply(s, Store(p, t, value)))
    ensures View(Apply(s, Store(p, t, value)), o, h)
              == if o == p && h == s.tlb[t].value.page then value else View(s, o, h)
  {
    ShapeKept(s, Store(p, t, value));
    var g := s.tlb[t].value.page;
    assert Framed(s, p, g);
    if s.pt[o][h].valid {
      assert Framed(s, o, h);
    }
  }

  lemma MoveKeepsView(s: Pager, a: Action, o: nat, h: nat)
    requires Inv(s) && Enabled(s, a) && PageOf(s, o, h)
    requires !a.Store? && !a.Commit? && !Transfers(a)
    ensures Shape(Apply(s, a)) && View(Apply(s, a), o, h) == View(s, o, h)
  {
    ShapeKept(s, a);
    hide FramesMapped, OwnersUsed, FaultedOk, TlbCoherent, TlbUnique, FifoOk, ChosenFrame, EntriesFramed, BitsExact;
  }

  lemma InvalidateKeepsView(s: Pager, spare: nat, o: nat, h: nat)
    requires Inv(s) && Enabled(s, Invalidate(spare)) && PageOf(s, o, h)
    ensures Shape(Apply(s, Invalidate(spare))) && View(Apply(s, Invalidate(spare)), o, h) == View(s, o, h)
  {
    ShapeKept(s, Invalidate(spare));
    AddrInjective(s.phase.f);
    hide FramesMapped, OwnersUsed, FaultedOk, TlbCoherent, TlbUnique, FifoOk, EntriesFramed, BitsExact, UpdatedTlb;
  }

  lemma WriteBackKeepsView(s: Pager, o: nat, h: nat)
    requires Inv(s) && Enabled(s, WriteBack) && PageOf(s, o, h) && Living(s, o) && SafeVictim(s)
    ensures Shape(Apply(s, WriteBack)) && View(Apply(s, WriteBack), o, h) == View(s, o, h)
  {
    ShapeKept(s, WriteBack);
    if s.pt[o][h].valid {
      assert Framed(s, o, h);
    }
  }

  lemma WriteFailsKeepsView(s: Pager, left: Page, o: nat, h: nat)
    requires Inv(s) && Enabled(s, WriteFails(left)) && PageOf(s, o, h) && Living(s, o) && Expendable(s)
    ensures Shape(Apply(s, WriteFails(left))) && View(Apply(s, WriteFails(left)), o, h) == View(s, o, h)
  {
    ShapeKept(s, WriteFails(left));
    if s.pt[o][h].valid {
      assert Framed(s, o, h);
    }
  }

  lemma MarkFreeKeepsView(s: Pager, o: nat, h: nat)
    requires Inv(s) && Enabled(s, MarkFree) && PageOf(s, o, h)
    ensures Shape(Apply(s, MarkFree)) && View(Apply(s, MarkFree), o, h) == View(s, o, h)
  {
    ShapeKept(s, MarkFree);
  }

  lemma BringInKeepsView(s: Pager, o: nat, h: nat)
    requires Inv(s) && Enabled(s, BringIn) && PageOf(s, o, h) && Living(s, o)
    ensures Shape(Apply(s, BringIn)) && View(Apply(s, BringIn), o, h) == View(s, o, h)
  {
    ShapeKept(s, BringIn);
    if s.pt[o][h].valid {
      assert Framed(s, o, h);
    }
  }

  lemma ReadFailsKeepsView(s: Pager, left: Page, o: nat, h: nat)
    requires Inv(s) && Enabled(s, ReadFails(left)) && PageOf(s, o, h) && Living(s, o)
    ensures Shape(Apply(s, ReadFails(left))) && View(Apply(s, ReadFails(left)), o, h) == View(s, o, h)
  {
    ShapeKept(s, ReadFails(left));
    if s.pt[o][h].valid {
      assert Framed(s, o, h);
    }
  }

  lemma CommitKeepsView(s: Pager, spare: nat, o: nat, h: nat)
    requires Inv(s) && Enabled(s, Commit(spare)) && PageOf(s, o, h) && Living(s, o)
    ensures Shape(Apply(s, Commit(spare))) && View(Apply(s, Commit(spare)), o, h) == View(s, o, h)
  {
    ShapeKept(s, Commit(spare));
    AddrInjective(s.phase.f);
    Trapped(s);
  }

  /** No step of a fault is noticed by any living process, the faulting one included, if the victim is safe. */
  lemma StepKeepsView(s: Pager, a: Action, o: nat, h: nat)
    requires Inv(s) && Enabled(s, a) && PageOf(s, o, h) && Living(s, o)
    requires !a.Store? && (a.WriteBack? ==> SafeVictim(s)) && (a.WriteFails? ==> Expendable(s))
    ensures Shape(Apply(s, a)) && View(Apply(s, a), o, h) == View(s, o, h)
  {
    hide Inv, Sound, Shape, View, Apply, Enabled;
    match a
    case Invalidate(spare) => InvalidateKeepsView(s, spare, o, h);
    case WriteBack => WriteBackKeepsView(s, o, h);
    case WriteFails(left) => WriteFailsKeepsView(s, left, o, h);
    case MarkFree => MarkFreeKeepsView(s, o, h);
    case BringIn => BringInKeepsView(s, o, h);
    case ReadFails(left) => ReadFailsKeepsView(s, left, o, h);
    case Commit(spare) => CommitKeepsView(s, spare, o, h);
    case _ => MoveKeepsView(s, a, o, h);
  }

  // ---------------------------------------------------------------- exactly when

  /**
   * Whatever the frame holds, the write-back leaves every living process's pages alone: exactly when the
   * victim is the faulting process's own, or a dead process's and the block written over is not in use.
   */
  lemma WriteBackExactly(s: Pager)
    requires Inv(s) && Enabled(s, WriteBack)
    ensures SafeVictim(s) <==>
            forall x: Page :: WriteBackHarmless(s, x)
  {
    if SafeVictim(s) {
      forall x: Page ensures WriteBackHarmless(s, x) {
        var u := Holding(s, x);
        HoldingInv(s, x);
        forall o, h | 0 <= o < |u.alive| && 0 <= h < u.pages && Living(u, o)
          ensures View(Apply(u, WriteBack), o, h) == View(u, o, h)
        {
          WriteBackKeepsView(u, o, h);
        }
      }
    } else {
      UnsafeHarms(s);
    }
  }

  /** The same state with other contents in the frame being replaced. */
  function Holding(s: Pager, x: Page): Pager
    requires s.phase.Invalidated? && s.phase.f < |s.ram|
  {
    s.(ram := s.ram[s.phase.f := x])
  }

  lemma HoldingInv(s: Pager, x: Page)
    requires Inv(s) && Enabled(s, WriteBack)
    ensures Inv(Holding(s, x)) && Enabled(Holding(s, x), WriteBack) && SafeVictim(Holding(s, x)) == SafeVictim(s)
    ensures Inv(Apply(Holding(s, x), WriteBack)) && SameSizes(Holding(s, x), Apply(Holding(s, x), WriteBack))
  {
    StepInv(Holding(s, x), WriteBack);
  }

  ghost predicate WriteBackHarmless(s: Pager, x: Page)
    requires Inv(s) && Enabled(s, WriteBack)
  {
    HoldingInv(s, x);
    KeepsViews(Holding(s, x), Apply(Holding(s, x), WriteBack))
  }

  lemma UnsafeHarms(s: Pager)
    requires Inv(s) && Enabled(s, WriteBack) && !SafeVictim(s)
    ensures exists x: Page :: !WriteBackHarmless(s, x)
  {
    var f, p := s.phase.f, s.phase.p;
    var (o, h) := (s.slots[f].asid, s.slots[f].page);
    var q := if Living(s, o) then o else p;
    var x := s.flash[q][h] + 1;
    var u := Holding(s, x);
    HoldingInv(s, x);
    var v := Apply(u, WriteBack);
    assert View(v, q, h) != View(u, q, h);
    assert !WriteBackHarmless(s, x);
  }

  // ---------------------------------------------------------------- failed writes

  /**
   * Whatever the frame holds and whatever a failed write-back leaves in the block, it leaves every living process's
   * pages alone: exactly when the victim's owner is dead and the block written over is not in use.
   */
  lemma WriteFailsExactly(s: Pager)
    requires Inv(s) && Enabled(s, WriteBack)
    ensures Expendable(s) <==> forall x: Page, left: Page :: FailureHarmless(s, x, left)
  {
    if Expendable(s) {
      forall x: Page, left: Page ensures FailureHarmless(s, x, left) {
        var u := Holding(s, x);
        FailingInv(s, x, left);
        forall o, h | 0 <= o < |u.alive| && 0 <= h < u.pages && Living(u, o)
          ensures View(Apply(u, WriteFails(left)), o, h) == View(u, o, h)
        {
          WriteFailsKeepsView(u, left, o, h);
        }
      }
    } else {
      FailureHarms(s);
    }
  }

  lemma FailingInv(s: Pager, x: Page, left: Page)
    requires Inv(s) && Enabled(s, WriteBack)
    ensures var (u, a) := (Holding(s, x), WriteFails(left));
            && Inv(u) && Enabled(u, a) && Expendable(u) == Expendable(s)
            && Inv(Apply(u, a)) && SameSizes(u, Apply(u, a))
  {
    StepInv(Holding(s, x), WriteFails(left));
  }

  ghost predicate FailureHarmless(s: Pager, x: Page, left: Page)
    requires Inv(s) && Enabled(s, WriteBack)
  {
    FailingInv(s, x, left);
    KeepsViews(Holding(s, x), Apply(Holding(s, x), WriteFails(left)))
  }

  /** A living victim loses what its frame holds, or the faulting process what its block held. */
  lemma FailureHarms(s: Pager)
    requires Inv(s) && Enabled(s, WriteBack) && !Expendable(s)
    ensures exists x: Page, left: Page :: !FailureHarmless(s, x, left)
  {
    var (f, p) := (s.phase.f, s.phase.p);
    var (o, h) := (s.slots[f].asid, s.slots[f].page);
    var (x, left) := (s.flash[o][h] + 2, s.flash[p][h] + 1);
    var q := if Living(s, o) then o else p;
    FailingInv(s, x, left);
    assert View(Apply(Holding(s, x), WriteFails(left)), q, h) != View(Holding(s, x), q, h);
    assert !FailureHarmless(s, x, left);
  }

  // ---------------------------------------------------------------- runs

  /** Every victim written back during the run is safe, and expendable if the write fails. */
  ghost predicate SafeVictims(s: Pager, acts: seq<Action>)
    requires Shape(s) && CanRun(s, acts)
    decreases |acts|
  {
    acts == [] ||
    ((acts[0].WriteBack? ==> SafeVictim(s)) && (acts[0].WriteFails? ==> Expendable(s)) &&
     (ShapeKept(s, acts[0]); SafeVictims(Apply(s, acts[0]), acts[1..])))
  }

  /** A memory without paging: what the page holds at the end of the run when it held `x` at the start. */
  ghost function Flat(s: Pager, acts: seq<Action>, o: nat, h: nat, x: Page): Page
    requires Shape(s) && CanRun(s, acts)
    decreases |acts|
  {
    if acts == [] then x
    else
      ShapeKept(s, acts[0]);
      Flat(Apply(s, acts[0]), acts[1..], o, h, Stored(s, acts[0], o, h, x))
  }

  /** What the page holds after a step when it held `x` before. */
  ghost function Stored(s: Pager, a: Action, o: nat, h: nat, x: Page): Page
    requires Shape(s) && Enabled(s, a)
  {
    if a.Store? && a.p == o && s.tlb[a.t].value.page == h then a.value else x
  }

  /** Paged memory refines the flat one. */
  lemma {:induction false} PagingIsTransparent(s: Pager, acts: seq<Action>, o: nat, h: nat)
    requires Inv(s) && CanRun(s, acts) && NothingLost(s, acts) && SafeVictims(s, acts)
    requires PageOf(s, o, h) && Living(Run(s, acts), o)
    ensures View(Run(s, acts), o, h) == Flat(s, acts, o, h, View(s, o, h))
    decreases |acts|
  {
    if acts != [] {
      var a := acts[0];
      StepInv(s, a);
      if !Living(s, o) { TheGoneStayGone(s, acts, o); }
      if a.Store? {
        StoreView(s, a.p, a.t, a.value, o, h);
      } else {
        StepKeepsView(s, a, o, h);
      }
      PagingIsTransparent(Apply(s, a), acts[1..], o, h);
    }
  }

  lemma TheGoneStayGone(s: Pager, acts: seq<Action>, o: nat)
    requires Shape(s) && CanRun(s, acts) && o < |s.alive| && !Living(s, o)
    ensures !Living(Run(s, acts), o)
  {
    if s.ending[o].Written? {
      TheEndingEnd(s, acts, o);
    } else {
      TheDeadStayDead(s, acts, o);
    }
  }

  /** No write-back fails. */
  predicate AllWritten(acts: seq<Action>) {
    forall i :: 0 <= i < |acts| ==> !acts[i].WriteFails?
  }

  /** With one process every victim is safe, and none is expendable. */
  lemma {:induction false} AloneIsSafe(s: Pager, acts: seq<Action>)
    requires Sound(s) && CanRun(s, acts) && |s.pt| == 1
    ensures SafeVictims(s, acts) <==> AllWritten(acts)
    decreases |acts|
  {
    if acts != [] {
      StepSound(s, acts[0]);
      AloneIsSafe(Apply(s, acts[0]), acts[1..]);
      assert AllWritten(acts) <==> !acts[0].WriteFails? && AllWritten(acts[1..]) by {
        assert forall i :: 0 < i < |acts| ==> acts[i] == acts[1..][i - 1];
        assert forall i :: 0 <= i < |acts[1..]| ==> acts[1..][i] == acts[i + 1];
      }
      AloneNeedsWrites(s, acts[0]);
      hide Sound, Enabled, Apply, AllWritten, Expendable;
    }
  }

  lemma AloneNeedsWrites(s: Pager, a: Action)
    requires Sound(s) && Enabled(s, a) && |s.pt| == 1
    ensures a.WriteBack? ==> SafeVictim(s)
    ensures a.WriteFails? ==> !Expendable(s)
  {
  }

  /**
   * So a single process, from the start and as long as no write-back fails, reads back what it stored, and its
   * program's image where it stored nothing.
   */
  lemma AloneIsTransparent(s: Pager, acts: seq<Action>, h: nat)
    requires Initial(s) && |s.pt| == 1 && h < s.pages && AllWritten(acts)
    ensures CanRun(s, acts) && Living(Run(s, acts), 0) ==>
              View(Run(s, acts), 0, h) == Flat(s, acts, 0, h, s.flash[0][h])
  {
    if CanRun(s, acts) && Living(Run(s, acts), 0) {
      InitialInv(s);
      AloneIsSafe(s, acts);
      AloneLosesNothing(s, acts);
      PagingIsTransparent(s, acts, 0, h);
      StartsFromFlash(s, 0, h);
    }
  }

  /** At the start a page's contents are its block of the device: the program's image. */
  lemma StartsFromFlash(s: Pager, o: nat, h: nat)
    requires Initial(s) && PageOf(s, o, h)
    ensures View(s, o, h) == s.flash[o][h]
  {
  }
}
