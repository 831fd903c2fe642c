/**
 * What every step of every process keeps, in whatever order they come.  `Sound` survives any interleaving;
 * `Inv`, which says what sp_asids means, survives as long as no write of that byte undoes another.
 */
module PagerInvariant {
  import opened Prelude
  import opened PagerState

  // ---------------------------------------------------------------- whatever happens to sp_asids

  /** A frame with a flash transfer pending into or out of it, or abandoned with one. */
  predicate Busy(s: Pager, f: nat) {
    && (s.phase.Invalidated? || s.phase.WrittenBack? || s.phase.Reading? || s.phase.Loaded? || s.phase.Abandoned?)
    && s.phase.f == f
  }

  /** A frame that is not busy is mapped by the entry its slot names, at the frame's address. */
  ghost predicate FramesMapped(s: Pager)
    requires Shape(s)
  {
    forall f :: 0 <= f < |s.slots| && s.slots[f].Taken? && !Busy(s, f) ==>
      s.pt[s.slots[f].asid][s.slots[f].page] == Lo(Addr(f), true)
  }

  /** A frame's owner has had a page brought in. */
  ghost predicate OwnersUsed(s: Pager)
    requires Shape(s)
  {
    forall f :: 0 <= f < |s.slots| && s.slots[f].Taken? ==> s.used[s.slots[f].asid]
  }

  /** A trapped process lives, is not ending, and its page is not valid until it has been brought in. */
  ghost predicate FaultedOk(s: Pager)
    requires Shape(s)
  {
    forall o :: 0 <= o < |s.faulted| && s.faulted[o].Some? ==>
      s.alive[o] && s.ending[o] == Not &&
      (s.phase == Committed(o, s.faulted[o].value) || !s.pt[o][s.faulted[o].value].valid)
  }

  /** Every TLB entry is its page's current entry. */
  ghost predicate TlbCoherent(s: Pager)
    requires Shape(s)
  {
    forall t :: 0 <= t < |s.tlb| && s.tlb[t].Some? ==>
      s.tlb[t].value.lo == s.pt[s.tlb[t].value.asid][s.tlb[t].value.page]
  }

  /** No page has two TLB entries. */
  ghost predicate TlbUnique(tlb: seq<Option<TlbEntry>>) {
    forall t, u :: 0 <= t < u < |tlb| && tlb[t].Some? && tlb[u].Some? ==>
      tlb[t].value.asid != tlb[u].value.asid || tlb[t].value.page != tlb[u].value.page
  }

  /** What is known at each point of a fault. */
  ghost predicate PhaseOk(s: Pager)
    requires Shape(s)
  {
    && (s.phase.Unlocked? || Holder(s, s.phase.p, s.phase.g))
    && (Replacing(s) ==> s.phase.f == s.top)
    && (s.phase.Evicting? ==> Maps(s, s.phase.f, true))
    && (s.phase.Invalidated? || s.phase.WrittenBack? ==> Maps(s, s.phase.f, false))
  }

  ghost predicate Holder(s: Pager, p: nat, g: nat)
    requires Shape(s)
  {
    PageOf(s, p, g) && s.faulted[p] == Some(g)
  }

  ghost predicate Maps(s: Pager, f: nat, valid: bool)
    requires Shape(s) && f < |s.slots|
  {
    s.slots[f].Taken? && s.pt[s.slots[f].asid][s.slots[f].page] == Lo(Addr(f), valid)
  }

  /** The frames are taken in turn: the first `calls` of them, but for the one being replaced. */
  ghost predicate FifoOk(s: Pager)
    requires Shape(s)
  {
    && s.top == (if s.calls == 0 then 0 else (s.calls - 1) % |s.slots|)
    && (Replacing(s) ==> s.calls > 0)
    && (forall f :: 0 <= f < |s.slots| && !(Replacing(s) && f == s.top) ==> (s.slots[f].Taken? <==> f < s.calls))
  }

  /** Between choose_frame and fill_frame, which an abandoned fault never reaches. */
  predicate Replacing(s: Pager) {
    || s.phase.Chosen? || s.phase.Evicting? || s.phase.Invalidated? || s.phase.WrittenBack? || s.phase.Reading?
    || s.phase.Loaded? || s.phase.Abandoned?
  }

  ghost predicate Sound(s: Pager) {
    && Shape(s) && FramesMapped(s) && OwnersUsed(s) && FaultedOk(s) && TlbCoherent(s) && TlbUnique(s.tlb)
    && PhaseOk(s) && FifoOk(s)
  }

  // ---------------------------------------------------------------- as long as sp_asids is exact

  /** A process's bit is on just when a page was brought in for it, turned over once it has given up its frames. */
  ghost predicate BitsExact(s: Pager)
    requires Shape(s)
  {
    forall o :: 0 <= o < |s.bits| ==> (s.bits[o] <==> s.used[o] != s.ending[o].Written?)
  }

  /** Living, or marked in sp_asids: its frames count as in use. */
  predicate Known(s: Pager, o: nat)
    requires o < |s.bits| == |s.alive| == |s.ending|
  {
    s.bits[o] || Living(s, o)
  }

  /** A known owner's valid entry holds the address of a frame that names it, and that is not busy. */
  ghost predicate EntriesFramed(s: Pager)
    requires Shape(s)
  {
    forall o, h :: 0 <= o < |s.pt| && 0 <= h < |s.pt[o]| && s.pt[o][h].valid && Known(s, o) ==> Framed(s, o, h)
  }

  predicate Framed(s: Pager, o: nat, h: nat)
    requires o < |s.pt| && h < |s.pt[o]|
  {
    var f := FrameAt(s.pt[o][h].addr);
    0 <= f < |s.slots| && s.pt[o][h].addr == Addr(f) && s.slots[f] == Taken(o, h) && !Busy(s, f)
  }

  /** No known process's page is in the frame a page is being brought into, and once loaded it holds that page. */
  ghost predicate TransferOk(s: Pager)
    requires Shape(s)
  {
    && (s.phase.Reading? || s.phase.Loaded? || s.phase.Abandoned? ==>
          s.phase.f < |s.slots| && Unclaimed(s, s.phase.f))
    && (s.phase.Loaded? ==> PageOf(s, s.phase.p, s.phase.g) && s.ram[s.phase.f] == s.flash[s.phase.p][s.phase.g])
  }

  ghost predicate Unclaimed(s: Pager, f: nat)
    requires Shape(s) && f < |s.slots|
  {
    s.slots[f].Taken? && Known(s, s.slots[f].asid) ==> !s.pt[s.slots[f].asid][s.slots[f].page].valid
  }

  ghost predicate Inv(s: Pager) {
    Sound(s) && BitsExact(s) && EntriesFramed(s) && TransferOk(s)
  }

  lemma InitialInv(s: Pager)
    requires Initial(s)
    ensures Inv(s)
  {
  }

  lemma AddrInjective(f: nat)
    ensures FrameAt(Addr(f)) == f
  {
  }

  lemma ShapeKept(s: Pager, a: Action)
    requires Shape(s) && Enabled(s, a)
    ensures Shape(Apply(s, a))
  {
    hide Scan, Round, ChosenFrame;
  }

  // ---------------------------------------------------------------- steps that only move on

  lemma FaultSound(s: Pager, p: nat, t: nat)
    requires Sound(s) && Enabled(s, Fault(p, t))
    ensures Sound(Apply(s, Fault(p, t)))
  {
  }

  lemma LockSound(s: Pager, p: nat)
    requires Sound(s) && Enabled(s, Lock(p))
    ensures Sound(Apply(s, Lock(p)))
  {
  }

  lemma CheckSound(s: Pager)
    requires Sound(s) && Enabled(s, Check)
    ensures Sound(Apply(s, Check))
  {
    assert s.slots[s.phase.f].Taken? ==> Maps(s, s.phase.f, true);
  }

  lemma UnlockSound(s: Pager)
    requires Sound(s) && Enabled(s, Unlock)
    ensures Sound(Apply(s, Unlock))
  {
  }

  lemma EndingSound(s: Pager, a: Action)
    requires Sound(s) && Enabled(s, a) && (a.ReadByte? || a.WriteByte? || a.End? || a.SafeKill?)
    ensures Sound(Apply(s, a))
  {
    hide FifoOk, TlbUnique;
    ShapeKept(s, a);
    FifoApart(s, Apply(s, a));
  }

  lemma FifoApart(s: Pager, t: Pager)
    requires Shape(s) && Shape(t) && FifoOk(s) && t.slots == s.slots && t.top == s.top && t.calls == s.calls &&
             t.phase == s.phase
    ensures FifoOk(t)
  {
  }

  // ---------------------------------------------------------------- choosing a frame

  /** Frame `r` is vacant and nearer to `top`, going round, than every other vacant frame. */
  ghost predicate Nearest(slots: seq<Slot>, top: nat, r: nat)
    requires top < |slots|
  {
    exists d :: 0 <= d < |slots| && r == Round(top, d, |slots|) && slots[Round(top, d, |slots|)] == Vacant &&
      forall e :: 0 <= e < d ==> slots[Round(top, e, |slots|)] != Vacant
  }

  lemma {:induction false} ScanNearest(slots: seq<Slot>, top: nat, i: nat)
    requires top < |slots| && i <= |slots|
    requires forall e :: 0 <= e < i ==> slots[Round(top, e, |slots|)] != Vacant
    ensures Vacant in slots ==> Nearest(slots, top, Scan(slots, top, i))
    ensures Vacant !in slots ==> Scan(slots, top, i) == Round(top, 1, |slots|)
    decreases |slots| - i
  {
    if i == |slots| {
      forall f | 0 <= f < |slots| ensures slots[f] != Vacant {
        var d := if f >= top then f - top else f - top + |slots|;
        assert Round(top, d, |slots|) == f;
      }
    } else if slots[Round(top, i, |slots|)] != Vacant {
      ScanNearest(slots, top, i + 1);
    }
  }

  /** For any table: the circularly nearest vacant frame, or the one after the last chosen when all are taken. */
  lemma ChoosesNearest(slots: seq<Slot>, top: nat)
    requires top < |slots|
    ensures Vacant in slots ==> Nearest(slots, top, ChosenFrame(slots, top))
    ensures Vacant !in slots ==> ChosenFrame(slots, top) == if top + 1 < |slots| then top + 1 else 0
  {
    ScanNearest(slots, top, 0);
  }

  /** choose_frame is a counter: its call number `calls`, from 0, takes frame calls mod SP_SIZE. */
  lemma ChoosesInTurn(s: Pager)
    requires Shape(s) && FifoOk(s) && !Replacing(s)
    ensures ChosenFrame(s.slots, s.top) == s.calls % |s.slots|
  {
    var n := |s.slots|;
    ChoosesNearest(s.slots, s.top);
    if s.calls < n {
      Small(s.calls, n);
      if s.calls > 0 { Small(s.calls - 1, n); }
      assert s.slots[s.calls] == Vacant;
      assert Round(s.top, if s.calls == 0 then 0 else 1, n) == s.calls;
    } else {
      ModNext(s.calls - 1, n);
    }
  }

  lemma ChooseSound(s: Pager)
    requires Sound(s) && Enabled(s, Choose)
    ensures Sound(Apply(s, Choose))
  {
    ChoosesInTurn(s);
    hide ChosenFrame;
    var t := Apply(s, Choose);
    forall f | 0 <= f < |t.slots| && f != t.top ensures t.slots[f].Taken? <==> f < t.calls {
      assert t.calls == s.calls + 1;
      if s.calls < |s.slots| { Small(s.calls, |s.slots|); }
    }
  }

  // ---------------------------------------------------------------- the steps of a replacement

  /** A new entry for a page, in the table and in the TLB. */
  lemma UpdateShape(s: Pager, o: nat, h: nat, lo: Lo, spare: nat)
    requires Shape(s) && TlbUnique(s.tlb) && TlbCoherent(s) && PageOf(s, o, h) && spare < |s.tlb|
    ensures var u := s.(pt := SetPte(s.pt, o, h, lo), tlb := UpdatedTlb(s.tlb, o, h, lo, spare));
            Shape(u) && TlbUnique(u.tlb) && TlbCoherent(u)
  {
    var u := s.(pt := SetPte(s.pt, o, h, lo), tlb := UpdatedTlb(s.tlb, o, h, lo, spare));
    forall t | 0 <= t < |u.tlb| && u.tlb[t].Some?
      ensures PageOf(u, u.tlb[t].value.asid, u.tlb[t].value.page)
      ensures u.tlb[t].value.lo == u.pt[u.tlb[t].value.asid][u.tlb[t].value.page]
    {
      if !Matches(u.tlb[t], o, h) {
        assert u.tlb[t] == s.tlb[t];
      }
    }
    if !Present(s.tlb, o, h) {
      forall t | 0 <= t < |s.tlb| ensures !Matches(s.tlb[t], o, h) {}
    }
  }

  lemma InvalidateSound(s: Pager, spare: nat)
    requires Sound(s) && Enabled(s, Invalidate(spare))
    ensures Sound(Apply(s, Invalidate(spare)))
  {
    var f := s.phase.f;
    var (o, h) := (s.slots[f].asid, s.slots[f].page);
    UpdateShape(s, o, h, s.pt[o][h].(valid := false), spare);
    hide UpdatedTlb;
  }

  lemma MoveSound(s: Pager, a: Action)
    requires Sound(s) && Enabled(s, a) && (a.WriteBack? || a.WriteFails? || a.BringIn? || a.ReadFails? || a.Store?)
    ensures Sound(Apply(s, a))
  {
    hide TlbUnique, FrameAt;
  }

  lemma MarkFreeSound(s: Pager)
    requires Sound(s) && Enabled(s, MarkFree)
    ensures Sound(Apply(s, MarkFree))
  {
    hide TlbUnique;
  }

  lemma CommitTlb(s: Pager, spare: nat)
    requires Sound(s) && Enabled(s, Commit(spare))
    ensures var t := Apply(s, Commit(spare)); Shape(t) && TlbUnique(t.tlb) && TlbCoherent(t)
  {
    hide FramesMapped, OwnersUsed, PhaseOk, FifoOk, FaultedOk;
    UpdateShape(s, s.phase.p, s.phase.g, Lo(Addr(s.phase.f), true), spare);
    hide UpdatedTlb;
  }

  lemma CommitRest(s: Pager, spare: nat)
    requires Sound(s) && Enabled(s, Commit(spare)) && Shape(Apply(s, Commit(spare)))
    ensures var t := Apply(s, Commit(spare)); OwnersUsed(t) && FaultedOk(t) && PhaseOk(t)
  {
    hide FramesMapped, UpdatedTlb, TlbCoherent, TlbUnique, FifoOk;
  }

  lemma CommitFifo(s: Pager, spare: nat)
    requires Sound(s) && Enabled(s, Commit(spare)) && Shape(Apply(s, Commit(spare)))
    ensures FifoOk(Apply(s, Commit(spare)))
  {
    hide FramesMapped, UpdatedTlb, TlbCoherent, TlbUnique, FaultedOk, OwnersUsed;
  }

  /** The process whose page is being read, or was not, lives, and the page is not valid yet. */
  lemma Trapped(s: Pager)
    requires Sound(s) && (s.phase.Loaded? || s.phase.Reading? || s.phase.Abandoned?)
    ensures PageOf(s, s.phase.p, s.phase.g) && s.alive[s.phase.p] && s.ending[s.phase.p] == Not
    ensures !s.pt[s.phase.p][s.phase.g].valid && s.phase.f < |s.slots|
  {
  }

  lemma CommitFrames(s: Pager, spare: nat)
    requires Sound(s) && Enabled(s, Commit(spare)) && Shape(Apply(s, Commit(spare)))
    ensures FramesMapped(Apply(s, Commit(spare)))
  {
    Trapped(s);
    hide UpdatedTlb, TlbCoherent, TlbUnique, FifoOk, FaultedOk, OwnersUsed, PhaseOk;
    var t := Apply(s, Commit(spare));
    var (p, g, f) := (s.phase.p, s.phase.g, s.phase.f);
    forall k | 0 <= k < |t.slots| && t.slots[k].Taken?
      ensures t.pt[t.slots[k].asid][t.slots[k].page] == Lo(Addr(k), true)
    {
      if k != f {
        assert s.pt[s.slots[k].asid][s.slots[k].page] == Lo(Addr(k), true);
      }
    }
  }

  lemma CommitSound(s: Pager, spare: nat)
    requires Sound(s) && Enabled(s, Commit(spare))
    ensures Sound(Apply(s, Commit(spare)))
  {
    hide FramesMapped, OwnersUsed, TlbCoherent, TlbUnique, FifoOk, FaultedOk, PhaseOk, Shape, UpdatedTlb;
    CommitTlb(s, spare);
    CommitRest(s, spare);
    CommitFifo(s, spare);
    CommitFrames(s, spare);
  }

  lemma RefillSound(s: Pager, p: nat, g: nat, t: nat)
    requires Sound(s) && Enabled(s, Refill(p, g, t))
    ensures Sound(Apply(s, Refill(p, g, t)))
  {
    hide FifoOk, FramesMapped;
    forall u | 0 <= u < |s.tlb| ensures !Matches(s.tlb[u], p, g) {}
    ShapeKept(s, Refill(p, g, t));
    var r := Apply(s, Refill(p, g, t));
    FifoApart(s, r);
    assert FramesMapped(r) by { FramesApart(s, r); }
  }

  lemma FramesApart(s: Pager, t: Pager)
    requires Shape(s) && Shape(t) && FramesMapped(s) && t.slots == s.slots && t.pt == s.pt && t.phase == s.phase
    ensures FramesMapped(t)
  {
  }

  /** Whoever takes a step, and whatever was done to sp_asids, the state stays sound. */
  lemma StepSound(s: Pager, a: Action)
    requires Sound(s) && Enabled(s, a)
    ensures Sound(Apply(s, a))
  {
    hide Sound, Shape, Enabled, Apply;
    match a
    case Fault(p, t) => FaultSound(s, p, t);
    case Lock(p) => LockSound(s, p);
    case Choose => ChooseSound(s);
    case Check => CheckSound(s);
    case Invalidate(spare) => InvalidateSound(s, spare);
    case MarkFree => MarkFreeSound(s);
    case Commit(spare) => CommitSound(s, spare);
    case Unlock => UnlockSound(s);
    case Refill(p, g, t) => RefillSound(s, p, g, t);
    case WriteBack => MoveSound(s, a);
    case WriteFails(_) => MoveSound(s, a);
    case BringIn => MoveSound(s, a);
    case ReadFails(_) => MoveSound(s, a);
    case Store(_, _, _) => MoveSound(s, a);
    case _ => EndingSound(s, a);
  }

  // ---------------------------------------------------------------- the meaning of sp_asids

  /** No other process has changed sp_asids since the byte now written back was read. */
  predicate Fresh(s: Pager, a: Action) {
    a.WriteByte? && a.p < |s.ending| && s.ending[a.p].Read? ==> s.ending[a.p].byte == s.bits
  }

  /** The valid entries of known processes lead to different frames. */
  lemma NoSharing(s: Pager, o: nat, h: nat, p: nat, g: nat)
    requires Shape(s) && EntriesFramed(s) && PageOf(s, o, h) && PageOf(s, p, g)
    requires s.pt[o][h].valid && s.pt[p][g].valid && Known(s, o) && Known(s, p)
    ensures s.pt[o][h].addr == s.pt[p][g].addr ==> o == p && h == g
  {
    assert Framed(s, o, h) && Framed(s, p, g);
  }

  lemma CommitBits(s: Pager, spare: nat)
    requires Sound(s) && BitsExact(s) && Enabled(s, Commit(spare)) && Shape(Apply(s, Commit(spare)))
    ensures BitsExact(Apply(s, Commit(spare)))
    ensures forall o :: 0 <= o < |s.bits| && Known(Apply(s, Commit(spare)), o) ==> Known(s, o)
  {
    hide FramesMapped, TlbCoherent, TlbUnique, FifoOk, UpdatedTlb;
    Trapped(s);
    hide FaultedOk, PhaseOk, OwnersUsed;
  }

  lemma EndingBits(s: Pager, a: Action)
    requires Sound(s) && BitsExact(s) && Enabled(s, a) && Fresh(s, a) && Shape(Apply(s, a))
    requires a.WriteByte? || a.ReadByte? || a.End? || a.SafeKill?
    ensures BitsExact(Apply(s, a))
    ensures forall o :: 0 <= o < |s.bits| && Known(Apply(s, a), o) ==> Known(s, o)
  {
    hide FramesMapped, TlbCoherent, TlbUnique, FifoOk, PhaseOk, OwnersUsed;
  }

  lemma BitsStep(s: Pager, a: Action)
    requires Inv(s) && Enabled(s, a) && Fresh(s, a) && Shape(Apply(s, a))
    ensures BitsExact(Apply(s, a))
    ensures forall o :: 0 <= o < |s.bits| && Known(Apply(s, a), o) ==> Known(s, o)
  {
    hide FramesMapped, EntriesFramed, TlbCoherent, TlbUnique, FifoOk, TransferOk, UpdatedTlb, ChosenFrame, FrameAt;
    hide FaultedOk, PhaseOk, OwnersUsed;
    if a.Commit? {
      CommitBits(s, a.spare);
    } else if a.WriteByte? || a.ReadByte? || a.End? || a.SafeKill? {
      EndingBits(s, a);
    }
  }

  /** The steps of an eviction, and the read. */
  predicate Transfers(a: Action) {
    a.Invalidate? || a.WriteBack? || a.WriteFails? || a.MarkFree? || a.BringIn? || a.ReadFails?
  }

  lemma QuietInv(s: Pager, a: Action)
    requires Inv(s) && Enabled(s, a) && Fresh(s, a) && Sound(Apply(s, a))
    requires !a.Check? && !a.Commit? && !a.Store? && !Transfers(a)
    ensures Inv(Apply(s, a))
  {
    BitsStep(s, a);
    QuietFields(s, a);
    FramesStay(s, Apply(s, a));
    hide Sound, EntriesFramed, TransferOk, BitsExact, Apply, Enabled;
  }

  /** Such a step moves no page and no transfer. */
  lemma QuietFields(s: Pager, a: Action)
    requires Shape(s) && Enabled(s, a)
    requires !a.Check? && !a.Commit? && !a.Store? && !Transfers(a)
    ensures var t := Apply(s, a);
            && t.slots == s.slots && t.pt == s.pt && t.ram == s.ram && t.flash == s.flash && t.pages == s.pages
            && (t.phase == s.phase || t.phase.Unlocked? || t.phase.Locked? || t.phase.Chosen?)
  {
    hide ChosenFrame, UpdatedTlb;
  }

  lemma FramesStay(s: Pager, t: Pager)
    requires Shape(s) && EntriesFramed(s) && TransferOk(s)
    requires Shape(t) && t.slots == s.slots && t.pt == s.pt && t.ram == s.ram && t.flash == s.flash &&
             t.pages == s.pages
    requires t.phase == s.phase || t.phase.Unlocked? || t.phase.Locked? || t.phase.Chosen?
    requires forall o :: 0 <= o < |s.bits| && Known(t, o) ==> Known(s, o)
    ensures EntriesFramed(t) && TransferOk(t)
  {
    hide Known, FrameAt;
    forall o, h | 0 <= o < |t.pt| && 0 <= h < |t.pt[o]| && t.pt[o][h].valid && Known(t, o) ensures Framed(t, o, h) {
      assert Framed(s, o, h);
    }
  }

  lemma CheckInv(s: Pager)
    requires Inv(s) && Enabled(s, Check) && Sound(Apply(s, Check))
    ensures Inv(Apply(s, Check))
  {
    BitsStep(s, Check);
    AddrInjective(s.phase.f);
    NotBusyYet(s);
    hide FramesMapped, FaultedOk, TlbCoherent, TlbUnique, FifoOk;
  }

  /** A known process's valid entry does not lead to a frame found free, or marked as nobody's. */
  lemma NotBusyYet(s: Pager)
    requires Inv(s) && s.phase.Chosen? && s.phase.f < |s.slots|
    ensures s.slots[s.phase.f].Taken? && !s.bits[s.slots[s.phase.f].asid] ==> !Known(s, s.slots[s.phase.f].asid)
  {
  }

  lemma InvalidateInv(s: Pager, spare: nat)
    requires Inv(s) && Enabled(s, Invalidate(spare)) && Sound(Apply(s, Invalidate(spare)))
    ensures Inv(Apply(s, Invalidate(spare)))
  {
    BitsStep(s, Invalidate(spare));
    AddrInjective(s.phase.f);
    hide OwnersUsed, FaultedOk, TlbCoherent, TlbUnique, FifoOk, BitsExact, UpdatedTlb;
  }

  lemma TransferInv(s: Pager, a: Action)
    requires Inv(s) && Enabled(s, a) && Sound(Apply(s, a))
    requires a.WriteBack? || a.WriteFails? || a.MarkFree? || a.BringIn? || a.ReadFails?
    ensures Inv(Apply(s, a))
  {
    BitsStep(s, a);
    hide FramesMapped, OwnersUsed, FaultedOk, TlbCoherent, TlbUnique, FifoOk, BitsExact;
  }

  lemma StoreInv(s: Pager, p: nat, t: nat, value: Page)
    requires Inv(s) && Enabled(s, Store(p, t, value)) && Sound(Apply(s, Store(p, t, value)))
    ensures Inv(Apply(s, Store(p, t, value)))
  {
    BitsStep(s, Store(p, t, value));
    assert Framed(s, p, s.tlb[t].value.page);
    hide FramesMapped, OwnersUsed, FaultedOk, TlbUnique, FifoOk, BitsExact;
  }

  lemma CommitInv(s: Pager, spare: nat)
    requires Inv(s) && Enabled(s, Commit(spare)) && Sound(Apply(s, Commit(spare)))
    ensures Inv(Apply(s, Commit(spare)))
  {
    BitsStep(s, Commit(spare));
    Trapped(s);
    hide UpdatedTlb, TlbCoherent, TlbUnique, FifoOk, FaultedOk, BitsExact, FramesMapped, OwnersUsed, PhaseOk;
    var t := Apply(s, Commit(spare));
    var (p, g, f) := (s.phase.p, s.phase.g, s.phase.f);
    AddrInjective(f);
    forall o, h | 0 <= o < |t.pt| && 0 <= h < |t.pt[o]| && t.pt[o][h].valid && Known(t, o) ensures Framed(t, o, h) {
      if o != p || h != g {
        assert Framed(s, o, h);
      }
    }
  }

  /** The whole invariant survives every step but a stale write of sp_asids. */
  lemma StepInv(s: Pager, a: Action)
    requires Inv(s) && Enabled(s, a) && Fresh(s, a)
    ensures Inv(Apply(s, a))
  {
    StepSound(s, a);
    hide Sound, Inv, Shape, Enabled, Apply, Fresh;
    match a
    case Check => CheckInv(s);
    case Invalidate(spare) => InvalidateInv(s, spare);
    case WriteBack => TransferInv(s, a);
    case WriteFails(_) => TransferInv(s, a);
    case MarkFree => TransferInv(s, a);
    case BringIn => TransferInv(s, a);
    case ReadFails(_) => TransferInv(s, a);
    case Commit(spare) => CommitInv(s, spare);
    case Store(p, t, value) => StoreInv(s, p, t, value);
    case _ => QuietInv(s, a);
  }

  /** A write of sp_asids keeps the invariant exactly when the byte is still the one that was read. */
  lemma WriteByteExactly(s: Pager, p: nat)
    requires Inv(s) && Enabled(s, WriteByte(p))
    ensures Inv(Apply(s, WriteByte(p))) <==> s.ending[p].byte == s.bits
  {
    var byte, t := s.ending[p].byte, Apply(s, WriteByte(p));
    if byte == s.bits {
      StepInv(s, WriteByte(p));
    } else {
      hide FramesMapped, EntriesFramed, TlbCoherent, TlbUnique, FifoOk, TransferOk, FaultedOk, OwnersUsed, PhaseOk;
      ShapeKept(s, WriteByte(p));
      var o :| 0 <= o < |byte| && byte[o] != s.bits[o];
      assert t.bits[o] != (t.used[o] != t.ending[o].Written?);
    }
  }
}
