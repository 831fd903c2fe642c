/**
 * pager.c, the page tables of support.c and the refill handler of kernel.c, as code over the swap pool
 * table, the page tables and the processor's TLB.  Each piece of a fault is proved to be the step of the
 * protocol it stands for, and the whole handler, when nothing comes in between, the run of them.
 */
module PagerCode {
  import opened Prelude
  import opened PagerState
  import opened PagerInvariant
  import opened PagerTheorems
  import opened Transparency

  const KUSEG := 0x8000_0000
  const STK_PG := 0x3FFFF
  const GETPAGENO := 0x3FFF_F000
  const VPN_UNIT := 0x1000         // 1 << VPNSHIFT
  const ASID_UNIT := 0x40          // 1 << ASIDSHIFT
  const P_BIT := 0x4000_0000       // the bit update_tlb looks at
  const PROBE_FAILED := 0x8000_0000
  const INDEX_UNIT := 0x100
  const EXC_MOD := 1

  // ---------------------------------------------------------------- entryHI

  /** The entryHI that init_page_table gives page `h` of process `o`: the last page is the stack's. */
  function EntryHi(o: nat, h: nat, pages: nat): int {
    if h + 1 < pages then KUSEG + h * VPN_UNIT + (o + 1) * ASID_UNIT
    else KUSEG + GETPAGENO + (o + 1) * ASID_UNIT
  }

  /** ENTRYHI_GET_VPN. */
  function Vpn(hi: int): int {
    (hi / VPN_UNIT) % 0x40000
  }

  function AsidOf(hi: int): int {
    (hi / ASID_UNIT) % 0x40
  }

  /** The page table index of a virtual page number, as the three handlers compute it. */
  function PageNumber(vpn: int, pages: nat): int {
    if vpn == STK_PG then pages - 1 else vpn
  }

  /** The handlers find in entryHI the page and the process it was made for. */
  lemma EntryHiDecodes(o: nat, h: nat, pages: nat)
    requires o < 63 && h < pages <= 0x40000
    ensures PageNumber(Vpn(EntryHi(o, h, pages)), pages) == h && AsidOf(EntryHi(o, h, pages)) == o + 1
  {
    var v := if h + 1 < pages then h else STK_PG;
    var hi := EntryHi(o, h, pages);
    assert hi == (0x80000 + v) * VPN_UNIT + (o + 1) * ASID_UNIT;
    assert hi / VPN_UNIT == 0x80000 + v;
    assert hi / ASID_UNIT == (0x80000 + v) * 0x40 + (o + 1);
  }

  /** Different pages have different entryHI values. */
  lemma EntryHiInjective(o: nat, h: nat, p: nat, g: nat, pages: nat)
    requires o < 63 && p < 63 && h < pages <= 0x40000 && g < pages
    ensures EntryHi(o, h, pages) == EntryHi(p, g, pages) <==> o == p && h == g
  {
    EntryHiDecodes(o, h, pages);
    EntryHiDecodes(p, g, pages);
  }

  datatype Pte = Pte(hi: int, lo: Lo)

  /** An entry of the processor's TLB. */
  function Decoded(e: Option<Pte>, pages: nat): Option<TlbEntry>
  {
    if e.Some? && 0 < AsidOf(e.value.hi) && 0 <= PageNumber(Vpn(e.value.hi), pages)
    then Some(TlbEntry(AsidOf(e.value.hi) - 1, PageNumber(Vpn(e.value.hi), pages), e.value.lo))
    else None
  }

  function AllDecoded(tlb: seq<Option<Pte>>, pages: nat): (r: seq<Option<TlbEntry>>)
    ensures |r| == |tlb|
  {
    seq(|tlb|, t requires 0 <= t < |tlb| => Decoded(tlb[t], pages))
  }

  /** An entryHI some page table holds. */
  predicate IsEntryHi(hi: int, procs: nat, pages: nat) {
    0 < AsidOf(hi) <= procs && 0 <= PageNumber(Vpn(hi), pages) < pages &&
    hi == EntryHi(AsidOf(hi) - 1, PageNumber(Vpn(hi), pages), pages)
  }

  lemma HiMatches(e: Option<Pte>, o: nat, h: nat, procs: nat, pages: nat)
    requires o < procs < 63 && h < pages <= 0x40000
    requires e.Some? ==> IsEntryHi(e.value.hi, procs, pages)
    ensures IsEntryHi(EntryHi(o, h, pages), procs, pages)
    ensures Matches(Decoded(e, pages), o, h) <==> e.Some? && e.value.hi == EntryHi(o, h, pages)
  {
    EntryHiDecodes(o, h, pages);
  }

  // ---------------------------------------------------------------- the whole handler

  /** How a flash transfer ends: with status READY, or with another one, and then anything is left where it goes. */
  datatype Transfer = Ready | Failed(left: Page)

  function WriteStep(w: Transfer): Action {
    if w.Ready? then WriteBack else WriteFails(w.left)
  }

  function ReadStep(r: Transfer): Action {
    if r.Ready? then BringIn else ReadFails(r.left)
  }

  /** free_frame: after a failed write the frame is not marked free. */
  function Eviction(x: nat, w: Transfer): seq<Action> {
    [Invalidate(x)] + (if w.Ready? then [WriteStep(w), MarkFree] else [WriteStep(w)])
  }

  /** From the read on: after a failed one the handler returns, the semaphore still taken. */
  function Filling(y: nat, r: Transfer): seq<Action> {
    [ReadStep(r)] + (if r.Ready? then [Commit(y), Unlock] else [])
  }

  /** The steps of one page fault of process `p`, taken without a break. */
  ghost function Service(s: Pager, p: nat, x: nat, y: nat, w: Transfer, r: Transfer): seq<Action>
    requires Shape(s)
  {
    [Lock(p), Choose, Check] + (if Evicts(s) then Eviction(x, w) else []) + Filling(y, r)
  }

  /**
   * What tlb_exc_handler does, undisturbed: nothing without a support structure, the end for a write to a read-only
   * page.
   */
  ghost function Handled(s: Pager, p: nat, supported: bool, cause: int, x: nat, y: nat, w: Transfer, r: Transfer)
    : seq<Action>
    requires Shape(s)
  {
    if !supported then [] else if cause == EXC_MOD then [SafeKill(p)] else Service(s, p, x, y, w, r)
  }

  predicate Evicts(s: Pager)
    requires Shape(s)
  {
    var v := s.slots[ChosenFrame(s.slots, s.top)];
    v.Taken? && s.bits[v.asid]
  }

  class PagerMemory {
    const procs: nat
    const pages: nat
    const slots: array<Slot>         // sp_tbl
    const pt: array2<Pte>            // the page tables, a row a process
    const devSems: array2<int>
    var spSem: int
    var top: nat                     // frame_top
    var bits: seq<bool>              // sp_asids
    // the processor and the devices
    var tlb: seq<Option<Pte>>
    var ram: seq<Page>
    var flash: seq<seq<Page>>
    // where the processes are
    ghost var used: seq<bool>
    ghost var alive: seq<bool>
    ghost var ending: seq<Ending>
    ghost var faulted: seq<Option<nat>>
    ghost var phase: Phase
    ghost var calls: nat

    ghost function Row(o: nat): seq<Lo>
      requires o < pt.Length0
      reads pt
    {
      seq(pt.Length1, h requires 0 <= h < pt.Length1 reads pt => pt[o, h].lo)
    }

    ghost function Tables(): seq<seq<Lo>>
      reads pt
    {
      seq(pt.Length0, o requires 0 <= o < pt.Length0 reads pt => Row(o))
    }

    ghost function Tlb(): seq<Option<TlbEntry>>
      reads `tlb
    {
      AllDecoded(tlb, pages)
    }

    ghost function Abs(): Pager
      reads this, slots, pt
    {
      Pager(pages, slots[..], top, Tables(), bits, used, alive, ending, faulted, ram, flash, Tlb(), phase, calls)
    }

    /**
     * The memory is laid out as init_page_table leaves it, the TLB holds entries of page tables, and sp_sem is 0
     * while a process is inside.
     */
    ghost predicate Rep()
      reads this, slots, pt
    {
      && procs < 63 && pages <= 0x40000 && |tlb| <= 64
      && pt.Length0 == procs && pt.Length1 == pages
      && spSem == (if phase.Unlocked? then 1 else 0)
      && (forall o, h :: 0 <= o < procs && 0 <= h < pages ==> pt[o, h].hi == EntryHi(o, h, pages))
      && (forall t :: 0 <= t < |tlb| && tlb[t].Some? ==> IsEntryHi(tlb[t].value.hi, procs, pages))
      && Shape(Abs())
    }

    // -------------------------------------------------------------- initialisation

    method InitSuppStructures()
      modifies this, slots, devSems
      ensures unchanged(`tlb) && unchanged(`ram) && unchanged(`flash) && unchanged(`used) && unchanged(`alive)
      ensures unchanged(`ending) && unchanged(`faulted) && unchanged(`phase) && unchanged(`calls) && unchanged(`top)
      ensures spSem == 1 && bits == seq(procs, _ => false)
      ensures forall f :: 0 <= f < slots.Length ==> slots[f] == Vacant
      ensures forall i, j :: 0 <= i < devSems.Length0 && 0 <= j < devSems.Length1 ==> devSems[i, j] == 1
    {
      spSem := 1;
      bits := seq(procs, _ => false);
      for i := 0 to slots.Length
        invariant forall f :: 0 <= f < i ==> slots[f] == Vacant
        modifies slots
      {
        slots[i] := Vacant;
      }
      for i := 0 to devSems.Length0
        invariant forall k, j :: 0 <= k < i && 0 <= j < devSems.Length1 ==> devSems[k, j] == 1
        modifies devSems
      {
        for j := 0 to devSems.Length1
          invariant forall k, l :: 0 <= k < i && 0 <= l < devSems.Length1 ==> devSems[k, l] == 1
          invariant forall l :: 0 <= l < j ==> devSems[i, l] == 1
          modifies devSems
        {
          devSems[i, j] := 1;
        }
      }
    }

    method InitPageTable(o: nat)
      requires o < pt.Length0 && pt.Length1 == pages > 0
      modifies pt
      ensures forall h :: 0 <= h < pages ==> pt[o, h] == Pte(EntryHi(o, h, pages), Lo(0, false))
      ensures forall h :: 0 <= h < pages - 1 ==> pt[o, h].hi == 0x8000_0000 + 0x1000 * h + 0x40 * (o + 1)
      ensures pt[o, pages - 1].hi == 0xBFFF_F000 + 0x40 * (o + 1)
      ensures forall p, h :: 0 <= p < pt.Length0 && 0 <= h < pages && p != o ==> pt[p, h] == old(pt[p, h])
    {
      var i := 0;
      while i < pages - 1
        invariant 0 <= i <= pages - 1
        invariant forall h :: 0 <= h < i ==> pt[o, h] == Pte(EntryHi(o, h, pages), Lo(0, false))
        invariant forall p, h :: 0 <= p < pt.Length0 && 0 <= h < pages && p != o ==> pt[p, h] == old(pt[p, h])
      {
        pt[o, i] := Pte(KUSEG + i * VPN_UNIT + (o + 1) * ASID_UNIT, Lo(0, false));
        i := i + 1;
      }
      pt[o, i] := Pte(KUSEG + GETPAGENO + (o + 1) * ASID_UNIT, Lo(0, false));
    }

    /** Nothing in memory, nobody has run. */
    ghost predicate Blank()
      reads this, slots, pt
    {
      && 0 < procs < 63 && 0 < pages <= 0x40000 && 0 < |tlb| <= 64 && slots.Length == |ram| > 0
      && pt.Length0 == procs == |bits| == |used| == |alive| == |ending| == |faulted| == |flash| && pt.Length1 == pages
      && top == 0 && phase == Unlocked && calls == 0 && spSem == 1
      && (forall f :: 0 <= f < slots.Length ==> slots[f] == Vacant)
      && (forall t :: 0 <= t < |tlb| ==> tlb[t] == None)
      && (forall o :: 0 <= o < procs ==> !bits[o] && !used[o] && |flash[o]| == pages)
      && (forall o :: 0 <= o < procs ==> alive[o] && ending[o] == Not && faulted[o] == None)
      && (forall o, h :: 0 <= o < procs && 0 <= h < pages ==> pt[o, h] == Pte(EntryHi(o, h, pages), Lo(0, false)))
    }

    lemma BlankIsInitial()
      requires Blank()
      ensures Rep() && Initial(Abs())
    {
      var s := Abs();
      forall o, h | 0 <= o < |s.pt| && 0 <= h < |s.pt[o]| ensures s.pt[o][h] == Lo(0, false) {}
    }

    /** The machine before the first process runs. */
    constructor (procs: nat, pages: nat, frames: nat, types: nat, perType: nat, tlbSize: nat, image: seq<seq<Page>>)
      requires 0 < procs < 63 && 0 < pages <= 0x40000 && frames > 0 && 0 < tlbSize <= 64
      requires |image| == procs && forall o :: 0 <= o < procs ==> |image[o]| == pages
      ensures Rep() && Initial(Abs()) && flash == image && this.procs == procs && this.pages == pages
      ensures fresh(slots) && fresh(pt) && fresh(devSems)
      ensures spSem == 1
      ensures forall i, j :: 0 <= i < devSems.Length0 && 0 <= j < devSems.Length1 ==> devSems[i, j] == 1
    {
      hide Rep, Abs, Initial;
      this.procs, this.pages := procs, pages;
      slots := new Slot[frames](_ => Vacant);
      pt := new Pte[procs, pages]((_, _) => Pte(0, Lo(0, false)));
      devSems := new int[types, perType]((_, _) => 0);
      spSem, top, bits := 0, 0, [];
      tlb, ram, flash := seq(tlbSize, _ => None), seq(frames, _ => 0), image;
      used, alive, ending := seq(procs, _ => false), seq(procs, _ => true), seq(procs, _ => Not);
      faulted, phase, calls := seq(procs, _ => None), Unlocked, 0;
      new;
      InitSuppStructures();
      for o := 0 to procs
        invariant forall p, h :: 0 <= p < o && 0 <= h < pages ==> pt[p, h] == Pte(EntryHi(p, h, pages), Lo(0, false))
        modifies pt
      {
        InitPageTable(o);
      }
      BlankIsInitial();
    }

    // -------------------------------------------------------------- choose_frame

    method ChooseFrame() returns (f: nat)
      requires Rep()
      modifies `top
      ensures Rep() && f == top == ChosenFrame(slots[..], old(top))
      ensures Abs() == old(Abs()).(top := top)
    {
      hide Rep, Abs, Tables, Tlb;
      ghost var before := Abs();
      RepTop();
      var i := 0;
      while i < slots.Length
        invariant 0 <= i <= slots.Length && top == old(top) < slots.Length && Rep() && Abs() == before
        invariant Scan(slots[..], top, i) == ChosenFrame(slots[..], top)
      {
        RoundIs(top, i, slots.Length);
        if slots[(top + i) % slots.Length] == Vacant {
          assert (top + i) % slots.Length == Round(top, i, slots.Length) == ChosenFrame(slots[..], top);
          MoveTop((top + i) % slots.Length);
          f := top;
          return;
        }
        i := i + 1;
      }
      RoundIs(top, 1, slots.Length);
      MoveTop((top + 1) % slots.Length);
      f := top;
    }

    lemma RepTop()
      requires Rep()
      ensures top < slots.Length
    {
    }

    method MoveTop(f: nat)
      requires Rep() && f < slots.Length
      modifies `top
      ensures Rep() && top == f && Abs() == old(Abs()).(top := f)
    {
      top := f;
      assert Tlb() == old(Tlb());
      assert Tables() == old(Tables());
    }

    // -------------------------------------------------------------- update_tlb

    /** TLBP: INDEX is the matching entry's, or has its top bit set. */
    method Probe(hi: int, spare: nat) returns (index: int)
      ensures (exists t :: 0 <= t < |tlb| && Holds(t, hi) && index == t * INDEX_UNIT) ||
              ((forall t :: 0 <= t < |tlb| ==> !Holds(t, hi)) && index == PROBE_FAILED + spare * INDEX_UNIT)
    {
      var t := 0;
      while t < |tlb|
        invariant 0 <= t <= |tlb|
        invariant forall u :: 0 <= u < t ==> !Holds(u, hi)
      {
        if tlb[t].Some? && tlb[t].value.hi == hi {
          assert Holds(t, hi);
          return t * INDEX_UNIT;
        }
        t := t + 1;
      }
      return PROBE_FAILED + spare * INDEX_UNIT;
    }

    predicate Holds(t: nat, hi: int)
      requires t < |tlb|
      reads `tlb
    {
      tlb[t].Some? && tlb[t].value.hi == hi
    }

    /** The TLB part of Rep. */
    ghost predicate TlbOk()
      reads `tlb
    {
      && procs < 63 && pages <= 0x40000 && |tlb| <= 64
      && (forall t :: 0 <= t < |tlb| && tlb[t].Some? ==> IsEntryHi(tlb[t].value.hi, procs, pages))
    }

    /** What one write to the TLB does to the entries it stands for. */
    lemma Rewritten(o: nat, h: nat, lo: Lo, spare: nat, k: nat, was: seq<Option<TlbEntry>>, hit: bool)
      requires TlbOk() && o < procs && h < pages && |was| == |tlb| && k < |tlb| && spare < |tlb| && TlbUnique(was)
      requires tlb[k] == Some(Pte(EntryHi(o, h, pages), lo))
      requires forall t :: 0 <= t < |tlb| && t != k ==> was[t] == Decoded(tlb[t], pages)
      requires if hit then Matches(was[k], o, h) else k == spare && !Present(was, o, h)
      ensures Tlb() == UpdatedTlb(was, o, h, lo, spare)
    {
      EntryHiDecodes(o, h, pages);
      var r := UpdatedTlb(was, o, h, lo, spare);
      forall t | 0 <= t < |tlb| ensures Tlb()[t] == r[t] {}
    }

    method UpdateTlb(ghost o: nat, ghost h: nat, hi: int, lo: Lo, spare: nat) returns (ok: int)
      requires TlbOk() && TlbUnique(Tlb()) && o < procs && h < pages && hi == EntryHi(o, h, pages) && spare < |tlb|
      modifies `tlb
      ensures TlbOk() && |tlb| == old(|tlb|)
      ensures Tlb() == UpdatedTlb(old(Tlb()), o, h, lo, spare)
      ensures ok == 1
    {
      ghost var was := Tlb();
      var index := Probe(hi, spare);
      forall t | 0 <= t < |tlb| ensures Matches(was[t], o, h) <==> Holds(t, hi) {
        HiMatches(tlb[t], o, h, procs, pages);
      }
      HiMatches(None, o, h, procs, pages);
      ghost var hit := index < PROBE_FAILED;
      ghost var k := if hit then index / INDEX_UNIT else spare;
      IndexField(k);
      if (index / P_BIT) % 2 != 0 {
        assert false;
        return 0;
      }
      tlb := tlb[(index / INDEX_UNIT) % 0x40 := Some(Pte(hi, lo))];
      Rewritten(o, h, lo, spare, k, was, hit);
      return 1;
    }

    lemma IndexField(k: nat)
      requires k < 64
      ensures (k * INDEX_UNIT / P_BIT) % 2 == 0 && (k * INDEX_UNIT / INDEX_UNIT) % 0x40 == k
      ensures ((PROBE_FAILED + k * INDEX_UNIT) / P_BIT) % 2 == 0
      ensures ((PROBE_FAILED + k * INDEX_UNIT) / INDEX_UNIT) % 0x40 == k
    {
      assert k * INDEX_UNIT < P_BIT;
      assert (PROBE_FAILED + k * INDEX_UNIT) / P_BIT == 2;
      assert (PROBE_FAILED + k * INDEX_UNIT) / INDEX_UNIT == 0x80_0000 + k;
    }

    // -------------------------------------------------------------- free_frame

    method SetEntry(o: nat, h: nat, lo: Lo)
      requires o < pt.Length0 && h < pt.Length1
      modifies pt
      ensures pt[o, h] == old(pt[o, h]).(lo := lo)
      ensures forall p, g :: 0 <= p < pt.Length0 && 0 <= g < pt.Length1 && (p != o || g != h) ==>
              pt[p, g] == old(pt[p, g])
      ensures Tables() == SetPte(old(Tables()), o, h, lo)
    {
      ghost var was := Tables();
      pt[o, h] := pt[o, h].(lo := lo);
      assert Row(o) == was[o][h := lo];
      forall p | 0 <= p < pt.Length0 && p != o ensures Row(p) == was[p] {}
      assert Tables() == SetPte(was, o, h, lo);
    }

    /** A step can be taken. */
    ghost predicate At(a: Action)
      reads this, slots, pt
    {
      Rep() && Sound(Abs()) && Enabled(Abs(), a)
    }

    lemma RepParts()
      requires Rep()
      ensures TlbOk() && pt.Length0 == procs == |bits| == |used| == |alive| == |ending| == |faulted| == |flash|
      ensures pt.Length1 == pages && spSem == (if phase.Unlocked? then 1 else 0)
      ensures slots.Length == |ram| > 0
      ensures forall o, h :: 0 <= o < procs && 0 <= h < pages ==> pt[o, h].hi == EntryHi(o, h, pages)
      ensures forall f :: 0 <= f < slots.Length && slots[f].Taken? ==> slots[f].asid < procs && slots[f].page < pages
      ensures forall o, h :: 0 <= o < procs && 0 <= h < pages ==> Tables()[o][h] == pt[o, h].lo
    {
      var s := Abs();
      forall f | 0 <= f < slots.Length && slots[f].Taken? ensures slots[f].asid < procs && slots[f].page < pages {
        assert PageOf(s, s.slots[f].asid, s.slots[f].page);
      }
    }

    /** Rep again, from the shape of the protocol's state. */
    lemma RepAgain()
      requires TlbOk() && pt.Length0 == procs && pt.Length1 == pages && Shape(Abs())
      requires spSem == (if phase.Unlocked? then 1 else 0)
      requires forall o, h :: 0 <= o < procs && 0 <= h < pages ==> pt[o, h].hi == EntryHi(o, h, pages)
      ensures Rep()
    {
    }

    lemma Evicted(spare: nat)
      requires At(Invalidate(spare))
      ensures phase.Evicting? && phase.f < slots.Length && slots[phase.f].Taken? && spare < |tlb| && TlbUnique(Tlb())
      ensures Shape(Abs()) && Shape(Apply(Abs(), Invalidate(spare)))
      ensures var (o, h) := (slots[phase.f].asid, slots[phase.f].page);
              o < |Tables()| && h < |Tables()[o]| && Tables()[o][h].valid
      ensures var (o, h) := (slots[phase.f].asid, slots[phase.f].page); var lo := Tables()[o][h].(valid := false);
              Apply(Abs(), Invalidate(spare)) ==
              Abs().(pt := SetPte(Tables(), o, h, lo), tlb := UpdatedTlb(Tlb(), o, h, lo, spare),
                     phase := Invalidated(phase.p, phase.g, phase.f))
    {
      StepSound(Abs(), Invalidate(spare));
    }

    /** The first interrupt-free window: the victim's entry and the TLB. */
    method InvalidateVictim(f: nat, spare: nat)
      requires At(Invalidate(spare)) && phase.f == f
      modifies pt, `tlb, `phase
      ensures Rep() && Abs() == Apply(old(Abs()), Invalidate(spare)) && Sound(Abs()) && |tlb| == old(|tlb|)
      ensures old(phase).Evicting? && phase == Invalidated(old(phase).p, old(phase).g, f)
    {
      hide Rep, Sound, Shape, UpdatedTlb, Tlb, Tables, TlbOk, SetPte, TlbUnique, Apply, Enabled;
      ghost var was := Abs();
      StepSound(was, Invalidate(spare));
      RepParts();
      Evicted(spare);
      var (o, h) := (slots[f].asid, slots[f].page);
      assert Tables()[o][h] == pt[o, h].lo;
      if pt[o, h].lo.valid {
        SetEntry(o, h, pt[o, h].lo.(valid := false));
      }
      var _ := UpdateTlb(o, h, pt[o, h].hi, pt[o, h].lo, spare);
      phase := Invalidated(phase.p, phase.g, phase.f);
      assert Abs() == Apply(was, Invalidate(spare));
      RepAgain();
    }

    method WriteToFlash(p: nat, block: nat, data: int, w: Transfer) returns (ready: bool)
      requires p < |flash| && block < |flash[p]| && 0 <= FrameAt(data) < |ram|
      modifies `flash
      ensures ready == w.Ready?
      ensures flash == old(flash[p := flash[p][block := if w.Ready? then ram[FrameAt(data)] else w.left]])
    {
      flash := flash[p := flash[p][block := if w.Ready? then ram[FrameAt(data)] else w.left]];
      return w.Ready?;
    }

    method ReadFromFlash(p: nat, page: nat, dest: int, r: Transfer) returns (ready: bool)
      requires p < |flash| && page < |flash[p]| && 0 <= FrameAt(dest) < |ram|
      modifies `ram
      ensures ready == r.Ready?
      ensures ram == old(ram[FrameAt(dest) := if r.Ready? then flash[p][page] else r.left])
    {
      ram := ram[FrameAt(dest) := if r.Ready? then flash[p][page] else r.left];
      return r.Ready?;
    }

    static function AfterWrite(w: Transfer, p: nat, g: nat, f: nat): Phase {
      if w.Ready? then WrittenBack(p, g, f) else Reading(p, g, f)
    }

    lemma ToWriteBack(w: Transfer)
      requires At(WriteStep(w))
      ensures phase.Invalidated? && phase.f < slots.Length && slots[phase.f].Taken?
      ensures phase.p < |flash| && slots[phase.f].page < |flash[phase.p]| && FrameAt(Addr(phase.f)) == phase.f
      ensures var (o, h) := (slots[phase.f].asid, slots[phase.f].page);
              o < procs < 63 && h < pages <= 0x40000 && o < pt.Length0 && h < pt.Length1 &&
              pt[o, h] == Pte(EntryHi(o, h, pages), Lo(Addr(phase.f), false))
      ensures var block := if w.Ready? then ram[phase.f] else w.left;
              Apply(Abs(), WriteStep(w)) ==
              Abs().(flash := flash[phase.p := flash[phase.p][slots[phase.f].page := block]],
                     phase := AfterWrite(w, phase.p, phase.g, phase.f))
    {
      var (o, h) := (slots[phase.f].asid, slots[phase.f].page);
      AddrInjective(phase.f);
      assert PageOf(Abs(), o, h) && Tables()[o][h] == pt[o, h].lo;
    }

    lemma ToWrite(w: Transfer)
      requires Sound(Abs()) && phase.Invalidated?
      ensures Enabled(Abs(), WriteStep(w))
    {
      HolderProceeds(Abs(), 0);
    }

    /** The victim's page goes to the device of process `p`, the faulting one. */
    method WriteVictimBack(f: nat, p: nat, w: Transfer) returns (ready: bool)
      requires At(WriteStep(w)) && phase.f == f && phase.p == p
      modifies `flash, `phase
      ensures Rep() && Abs() == Apply(old(Abs()), WriteStep(w)) && Sound(Abs()) && ready == w.Ready?
      ensures old(phase).Invalidated? && phase == AfterWrite(w, p, old(phase).g, f)
    {
      hide Rep, Sound, Shape, Tlb, Tables, TlbOk, Apply, Enabled, FrameAt, Addr, Vpn, EntryHi, AsidOf, PageNumber;
      ghost var was := Abs();
      RepParts();
      ToWriteBack(w);
      ShapeAfter(WriteStep(w));
      var (o, h) := (slots[f].asid, slots[f].page);
      EntryHiDecodes(o, h, pages);
      ready := WriteToFlash(p, PageNumber(Vpn(pt[o, h].hi), pages), pt[o, h].lo.addr, w);
      phase := AfterWrite(w, phase.p, phase.g, phase.f);
      assert Abs() == Apply(was, WriteStep(w));
      RepAgain();
    }

    lemma ShapeAfter(a: Action)
      requires At(a)
      ensures Shape(Abs()) && Shape(Apply(Abs(), a)) && Sound(Apply(Abs(), a))
    {
      StepSound(Abs(), a);
    }

    /** The end of free_frame. */
    method MarkFrameFree(f: nat)
      requires At(MarkFree) && phase.f == f
      modifies slots, `phase
      ensures Rep() && Abs() == Apply(old(Abs()), MarkFree) && Sound(Abs())
      ensures old(phase).WrittenBack? && phase == Reading(old(phase).p, old(phase).g, f)
    {
      hide Rep, Sound, Shape, Tlb, Tables, TlbOk;
      RepParts();
      ShapeAfter(MarkFree);
      ghost var was := Abs();
      slots[f] := Vacant;
      phase := Reading(phase.p, phase.g, phase.f);
      assert slots[..] == was.slots[f := Vacant];
      assert Abs() == Apply(was, MarkFree);
      RepAgain();
    }

    /** free_frame: `asid` is the faulting process's, whoever owns the frame; a failed write leaves the frame taken. */
    method FreeFrame(f: nat, p: nat, spare: nat, w: Transfer, ghost s0: Pager, ghost acts: seq<Action>)
      requires At(Invalidate(spare)) && phase.f == f && phase.p == p
      requires Sound(s0) && CanRun(s0, acts) && Run(s0, acts) == Abs()
      modifies slots, pt, `tlb, `flash, `phase
      ensures Rep() && Sound(Abs()) && phase == Reading(p, old(phase.g), f) && |tlb| == old(|tlb|)
      ensures CanRun(s0, acts + Eviction(spare, w)) && Run(s0, acts + Eviction(spare, w)) == Abs()
    {
      hide Rep, Sound, Shape, Tlb, Tables, TlbOk, CanRun, Run, UpdatedTlb, Apply, Enabled;
      ShapeAfter(Invalidate(spare));
      ShapeOfSound(s0);
      RunOn(s0, acts, Invalidate(spare));
      InvalidateVictim(f, spare);
      ToWrite(w);
      ShapeAfter(WriteStep(w));
      RunOn(s0, acts + [Invalidate(spare)], WriteStep(w));
      var ready := WriteVictimBack(f, p, w);
      assert acts + [Invalidate(spare)] + [WriteStep(w)] == acts + [Invalidate(spare), WriteStep(w)];
      if !ready {
        assert Eviction(spare, w) == [Invalidate(spare), WriteStep(w)];
        return;
      }
      HolderProceeds(Abs(), 0);
      ShapeAfter(MarkFree);
      RunOn(s0, acts + [Invalidate(spare), WriteStep(w)], MarkFree);
      MarkFrameFree(f);
      assert acts + [Invalidate(spare), WriteStep(w)] + [MarkFree] == acts + Eviction(spare, w);
    }

    // -------------------------------------------------------------- fill_frame and sp_asids

    /** set_sp_asids: switched on it is set, switched off it is turned over. */
    method SetSpAsids(on: bool, o: nat)
      requires o < |bits|
      modifies `bits
      ensures bits == old(bits)[o := if on then true else !old(bits)[o]]
    {
      if on {
        bits := bits[o := true];
      } else {
        bits := bits[o := !bits[o]];
      }
    }

    method FillFrame(p: nat, f: nat, g: nat)
      requires f < slots.Length && p < |bits|
      modifies slots, `bits
      ensures slots[..] == old(slots[..])[f := Taken(p, g)] && bits == old(bits)[p := true]
    {
      slots[f] := Taken(p, g);
      SetSpAsids(true, p);
    }

    lemma Committing(spare: nat)
      requires At(Commit(spare))
      ensures phase.Loaded? && phase.f < slots.Length && phase.p < procs && phase.g < pages && spare < |tlb| &&
              TlbUnique(Tlb())
      ensures phase.p < |Tables()| && phase.g < |Tables()[phase.p]|
      ensures var (p, g, f, lo) := (phase.p, phase.g, phase.f, Lo(Addr(phase.f), true));
              Apply(Abs(), Commit(spare)) ==
              Abs().(slots := slots[..][f := Taken(p, g)], bits := bits[p := true], used := used[p := true],
                     pt := SetPte(Tables(), p, g, lo), tlb := UpdatedTlb(Tlb(), p, g, lo, spare),
                     phase := Committed(p, g))
    {
    }

    /** The second interrupt-free window: the table, the entry and the TLB. */
    method CommitFrame(p: nat, g: nat, f: nat, spare: nat)
      requires At(Commit(spare)) && phase == Loaded(p, g, f)
      modifies slots, pt, `bits, `used, `tlb, `phase
      ensures Rep() && Abs() == Apply(old(Abs()), Commit(spare)) && Sound(Abs()) && phase == Committed(p, g)
    {
      hide Rep, Sound, Shape, UpdatedTlb, Tlb, Tables, TlbOk, SetPte, TlbUnique, Apply, Enabled;
      ghost var was := Abs();
      RepParts();
      Committing(spare);
      ShapeAfter(Commit(spare));
      FillFrame(p, f, g);
      SetEntry(p, g, Lo(SP_BEGIN + f * PAGESIZE, true));
      var _ := UpdateTlb(p, g, pt[p, g].hi, pt[p, g].lo, spare);
      phase, used := Committed(p, g), used[p := true];
      assert Abs() == Apply(was, Commit(spare));
      RepAgain();
    }

    // -------------------------------------------------------------- terminate

    /** The load of sp_asids, in set_sp_asids called from clean_frames with interrupts on. */
    method LoadAsids(p: nat) returns (byte: seq<bool>)
      requires At(ReadByte(p))
      modifies `ending
      ensures Rep() && Abs() == Apply(old(Abs()), ReadByte(p)) && Sound(Abs())
      ensures byte == bits && p < |bits| && p < |ending| && ending[p] == Ending.Read(byte)
    {
      hide Rep, Sound, Shape, Tlb, Tables, TlbOk;
      ghost var was := Abs();
      RepParts();
      ShapeAfter(ReadByte(p));
      byte := bits;
      ending := ending[p := Ending.Read(byte)];
      assert Abs() == Apply(was, ReadByte(p));
      RepAgain();
    }

    /** The exclusive or and the store: whatever was done to sp_asids since the load is undone. */
    method StoreAsids(p: nat, byte: seq<bool>)
      requires At(WriteByte(p)) && p < |ending| && ending[p] == Ending.Read(byte)
      modifies `bits, `ending
      ensures Rep() && Abs() == Apply(old(Abs()), WriteByte(p)) && Sound(Abs())
      ensures p < |byte| && bits == byte[p := !byte[p]] && p < |ending| && ending[p] == Written
    {
      hide Rep, Sound, Shape, Tlb, Tables, TlbOk;
      ghost var was := Abs();
      RepParts();
      ShapeAfter(WriteByte(p));
      bits := byte[p := !byte[p]];
      ending := ending[p := Written];
      assert Abs() == Apply(was, WriteByte(p));
      RepAgain();
    }

    /** NSYS2. */
    method Die(p: nat)
      requires At(End(p))
      modifies `alive
      ensures Rep() && Abs() == Apply(old(Abs()), End(p)) && Sound(Abs())
    {
      hide Rep, Sound, Shape, Tlb, Tables, TlbOk;
      ghost var was := Abs();
      RepParts();
      ShapeAfter(End(p));
      alive := alive[p := false];
      assert Abs() == Apply(was, End(p));
      RepAgain();
    }

    // -------------------------------------------------------------- the refill handler

    /** uTLB_RefillHandler: `missing` is the virtual page number that was looked for; TLBWR picks the slot. */
    method RefillHandler(p: nat, missing: int, slot: nat)
      requires 0 <= PageNumber(missing, pages) < pages && At(Refill(p, PageNumber(missing, pages), slot))
      modifies `tlb
      ensures Rep() && Abs() == Apply(old(Abs()), Refill(p, PageNumber(missing, pages), slot)) && Sound(Abs())
    {
      hide Rep, Sound, Shape, Tables, UpdatedTlb, Present, EntryHi, AsidOf, Vpn;
      ghost var was := Abs();
      RepParts();
      var g := PageNumber(missing, pages);
      ShapeAfter(Refill(p, g, slot));
      tlb := tlb[slot := Some(pt[p, g])];
      EntryHiDecodes(p, g, pages);
      HiMatches(None, p, g, procs, pages);
      assert Tlb() == was.tlb[slot := Some(TlbEntry(p, g, pt[p, g].lo))];
      assert Abs() == Apply(was, Refill(p, g, slot));
      RepAgain();
    }

    // -------------------------------------------------------------- tlb_exc_handler

    /** The run so far. */
    ghost predicate Follows(s0: Pager, acts: seq<Action>)
      reads this, slots, pt
    {
      Rep() && Sound(Abs()) && Sound(s0) && CanRun(s0, acts) && Run(s0, acts) == Abs()
    }

    lemma Prolonged(s0: Pager, acts: seq<Action>, a: Action)
      requires Follows(s0, acts) && At(a)
      ensures Shape(Abs()) && Shape(Apply(Abs(), a)) && Sound(Apply(Abs(), a))
      ensures CanRun(s0, acts + [a]) && Run(s0, acts + [a]) == Apply(Abs(), a)
    {
      ShapeAfter(a);
      RunOn(s0, acts, a);
    }

    lemma Next(s0: Pager, acts: seq<Action>, spare: nat)
      requires Follows(s0, acts) && !phase.Unlocked? && !phase.Abandoned? && spare < |tlb|
      ensures var a := NextAction(Abs(), spare);
              At(a) && Shape(Abs()) && Shape(Apply(Abs(), a)) && Sound(Apply(Abs(), a)) &&
              CanRun(s0, acts + [a]) && Run(s0, acts + [a]) == Apply(Abs(), a)
    {
      HolderProceeds(Abs(), spare);
      Prolonged(s0, acts, NextAction(Abs(), spare));
    }

    lemma Starting(p: nat)
      requires At(Lock(p))
      ensures Follows(Abs(), []) && Shape(Abs()) && Shape(Apply(Abs(), Lock(p))) && Sound(Apply(Abs(), Lock(p)))
      ensures CanRun(Abs(), [Lock(p)]) && Run(Abs(), [Lock(p)]) == Apply(Abs(), Lock(p))
      ensures p < |faulted| && faulted[p].Some? && p < procs < 63 && faulted[p].value < pages <= 0x40000 && |tlb| > 0
    {
      ShapeAfter(Lock(p));
      RunOn(Abs(), [], Lock(p));
      assert [] + [Lock(p)] == [Lock(p)];
      assert PageOf(Abs(), p, faulted[p].value);
    }

    /** P on the swap pool's semaphore, the missing page's number from entryHI, choose_frame. */
    method TakeFrame(p: nat, hi: int) returns (f: nat, g: nat)
      requires At(Lock(p)) && hi == EntryHi(p, faulted[p].value, pages)
      modifies `top, `phase, `calls, `spSem
      ensures Follows(old(Abs()), [Lock(p), Choose]) && phase == Chosen(p, g, f)
      ensures f == ChosenFrame(old(slots[..]), old(top)) && f < slots.Length
    {
      hide Sound, Shape, Tables, Tlb, CanRun, Run, Scan, ChosenFrame, EntryHi, AsidOf, Vpn, PageNumber;
      ghost var s0 := Abs();
      Starting(p);
      RepParts();
      EntryHiDecodes(p, faulted[p].value, pages);
      spSem := spSem - 1;
      g := PageNumber(Vpn(hi), pages);
      phase := Locked(p, g);
      assert Abs() == Apply(s0, Lock(p));
      RepAgain();
      Next(s0, [Lock(p)], 0);
      ghost var s1 := Abs();
      RepTop();
      f := ChooseFrame();
      phase, calls := Chosen(p, g, f), calls + 1;
      assert Abs() == Apply(s1, Choose);
      RepAgain();
      assert [Lock(p)] + [Choose] == [Lock(p), Choose];
    }

    lemma Checked(s0: Pager, acts: seq<Action>)
      requires Follows(s0, acts) && phase.Chosen?
      ensures phase.f < slots.Length && |tlb| > 0 && (slots[phase.f].Taken? ==> slots[phase.f].asid < |bits|)
      ensures Enabled(Abs(), Check) && Apply(Abs(), Check) ==
              Abs().(phase := if slots[phase.f].Taken? && bits[slots[phase.f].asid]
                              then Evicting(phase.p, phase.g, phase.f)
                              else Reading(phase.p, phase.g, phase.f))
    {
      HolderProceeds(Abs(), 0);
    }

    /** A frame of a known process is freed first. */
    method MakeRoom(p: nat, f: nat, x: nat, w: Transfer, ghost s0: Pager, ghost acts: seq<Action>)
      returns (ghost more: seq<Action>)
      requires Follows(s0, acts) && phase.Chosen? && phase.p == p && phase.f == f && x < |tlb|
      modifies slots, pt, `tlb, `flash, `phase
      ensures Follows(s0, acts + more) && phase == Reading(p, old(phase.g), f)
      ensures |tlb| == old(|tlb|)
      ensures more == if old(slots[f].Taken? && bits[slots[f].asid])
                      then [Check] + Eviction(x, w) else [Check]
    {
      hide Sound, Shape, Tables, Tlb, CanRun, Run, Apply, Enabled;
      ghost var was := Abs();
      Checked(s0, acts);
      RepParts();
      Next(s0, acts, x);
      more := [Check];
      if slots[f].Taken? && bits[slots[f].asid] {
        phase := Evicting(p, phase.g, f);
        assert Abs() == Apply(was, Check);
        RepAgain();
        Next(s0, acts + more, x);
        FreeFrame(f, p, x, w, s0, acts + more);
        more := [Check] + Eviction(x, w);
        assert acts + [Check] + Eviction(x, w) == acts + more;
      } else {
        phase := Reading(p, phase.g, f);
        assert Abs() == Apply(was, Check);
        RepAgain();
      }
    }

    lemma Bringing(s0: Pager, acts: seq<Action>, r: Transfer)
      requires Follows(s0, acts) && phase.Reading?
      ensures phase.p < procs && |flash| == procs && phase.g < |flash[phase.p]| && phase.f < |ram| &&
              FrameAt(Addr(phase.f)) == phase.f
      ensures At(ReadStep(r)) && Apply(Abs(), ReadStep(r)) ==
              Abs().(ram := ram[phase.f := if r.Ready? then flash[phase.p][phase.g] else r.left],
                     phase := AfterRead(r, phase.p, phase.g, phase.f))
    {
      HolderProceeds(Abs(), 0);
      AddrInjective(phase.f);
    }

    static function AfterRead(r: Transfer, p: nat, g: nat, f: nat): Phase {
      if r.Ready? then Loaded(p, g, f) else Abandoned(p, g, f)
    }

    /** read_from_flash. */
    method ReadPage(p: nat, g: nat, f: nat, r: Transfer, ghost s0: Pager, ghost acts: seq<Action>)
      returns (ready: bool)
      requires Follows(s0, acts) && phase == Reading(p, g, f)
      modifies `ram, `phase
      ensures Follows(s0, acts + [ReadStep(r)]) && phase == AfterRead(r, p, g, f) && ready == r.Ready?
    {
      hide Sound, Shape, Tables, Tlb, CanRun, Run, Apply, Enabled;
      ghost var was := Abs();
      RepParts();
      Bringing(s0, acts, r);
      Prolonged(s0, acts, ReadStep(r));
      ready := ReadFromFlash(p, g, SP_BEGIN + f * PAGESIZE, r);
      phase := AfterRead(r, p, g, f);
      assert Abs() == Apply(was, ReadStep(r));
      RepAgain();
    }

    /** read_from_flash and the second window. */
    method FetchPage(p: nat, g: nat, f: nat, y: nat, r: Transfer, ghost s0: Pager, ghost acts: seq<Action>)
      returns (ready: bool)
      requires Follows(s0, acts) && phase == Reading(p, g, f) && y < |tlb|
      modifies slots, pt, `bits, `used, `tlb, `ram, `phase
      ensures ready == r.Ready? && phase == (if ready then Committed(p, g) else Abandoned(p, g, f))
      ensures Follows(s0, acts + if ready then [ReadStep(r), Commit(y)] else [ReadStep(r)])
    {
      hide Sound, Shape, Tables, Tlb, CanRun, Run, Apply, Enabled, Rep;
      ready := ReadPage(p, g, f, r, s0, acts);
      if !ready {
        return;
      }
      Next(s0, acts + [ReadStep(r)], y);
      CommitFrame(p, g, f, y);
      assert acts + [ReadStep(r)] + [Commit(y)] == acts + [ReadStep(r), Commit(y)];
    }

    lemma Releasing(s0: Pager, acts: seq<Action>)
      requires Follows(s0, acts) && phase.Committed?
      ensures phase.p < |faulted| && |tlb| > 0
      ensures Enabled(Abs(), Unlock) && Apply(Abs(), Unlock) ==
              Abs().(phase := Unlocked, faulted := faulted[phase.p := None])
      ensures spSem == 0
    {
      HolderProceeds(Abs(), 0);
    }

    /** V on the swap pool's semaphore and back to the instruction. */
    method Release(p: nat, ghost s0: Pager, ghost acts: seq<Action>)
      requires Follows(s0, acts) && phase.Committed? && phase.p == p
      modifies `phase, `faulted, `spSem
      ensures Follows(s0, acts + [Unlock])
    {
      hide Sound, Shape, Tables, Tlb, CanRun, Run, Apply, Enabled;
      ghost var was := Abs();
      Releasing(s0, acts);
      RepParts();
      Next(s0, acts, 0);
      spSem := spSem + 1;
      phase, faulted := Unlocked, faulted[p := None];
      assert Abs() == Apply(was, Unlock);
      RepAgain();
    }

    /** The part of tlb_exc_handler that serves a fault. */
    method ServeFault(p: nat, hi: int, x: nat, y: nat, w: Transfer, r: Transfer)
      requires At(Lock(p)) && hi == EntryHi(p, faulted[p].value, pages) && x < |tlb| && y < |tlb|
      modifies this, slots, pt
      ensures Follows(old(Abs()), Service(old(Abs()), p, x, y, w, r))
    {
      hide Rep, Sound, Shape, Tables, Tlb, CanRun, Run, Apply, Enabled, ChosenFrame, EntryHi, Follows, At;
      hide Eviction, ReadStep;
      ghost var s0 := Abs();
      ShapeAfter(Lock(p));
      var f, g := TakeFrame(p, hi);
      ghost var acts := [Lock(p), Choose];
      ghost var more := MakeRoom(p, f, x, w, s0, acts);
      acts := acts + more;
      var ready := FetchPage(p, g, f, y, r, s0, acts);
      if !ready {
        assert acts + [ReadStep(r)] == Service(s0, p, x, y, w, r);
        return;
      }
      acts := acts + [ReadStep(r), Commit(y)];
      Release(p, s0, acts);
      assert acts + [Unlock] == Service(s0, p, x, y, w, r);
    }

    /**
     * tlb_exc_handler, when no other process runs in between.  `supported` says whether NSYS8 gave a support
     * structure, `x` and `y` are the TLB slots that a failed probe leaves in INDEX, `w` and `r` how the write-back and
     * the read end.  A modification trap is of a page that is in memory, so it ends its process while that waits for
     * no page.
     */
    method TlbExcHandler(p: nat, supported: bool, cause: int, hi: int, x: nat, y: nat, w: Transfer, r: Transfer)
      requires Rep() && Sound(Abs()) && x < |tlb| && y < |tlb|
      requires supported && cause == EXC_MOD ==> Enabled(Abs(), SafeKill(p))
      requires supported && cause != EXC_MOD ==> Enabled(Abs(), Lock(p)) && hi == EntryHi(p, faulted[p].value, pages)
      modifies this, slots, pt
      ensures Follows(old(Abs()), Handled(old(Abs()), p, supported, cause, x, y, w, r))
    {
      hide Rep, Sound, Apply, Enabled, Service, CanRun, Run, ChosenFrame, EntryHi;
      ghost var s0 := Abs();
      ShapeOfSound(s0);
      if !supported {
        RunNothing(s0);
        return;
      }
      if cause == EXC_MOD {
        SafelyKill(p);
        return;
      }
      ServeFault(p, hi, x, y, w, r);
    }

    /** safe_kill. */
    method SafelyKill(p: nat)
      requires At(SafeKill(p))
      modifies `alive
      ensures Follows(old(Abs()), [SafeKill(p)])
    {
      hide Rep, Sound, Shape, Tlb, Tables, TlbOk, CanRun, Run;
      ghost var was := Abs();
      RepParts();
      Alone(SafeKill(p));
      alive := alive[p := false];
      assert Abs() == Apply(was, SafeKill(p));
      RepAgain();
    }

    /** The run of one step. */
    lemma Alone(a: Action)
      requires At(a)
      ensures Shape(Abs()) && Shape(Apply(Abs(), a)) && Sound(Apply(Abs(), a))
      ensures CanRun(Abs(), [a]) && Run(Abs(), [a]) == Apply(Abs(), a)
    {
      ShapeAfter(a);
      RunNothing(Abs());
      RunOn(Abs(), [], a);
      assert [] + [a] == [a];
    }

    /** clean_frames, when no other process runs in between. */
    method CleanFrames(p: nat)
      requires At(ReadByte(p))
      modifies `bits, `ending
      ensures Follows(old(Abs()), [ReadByte(p), WriteByte(p)]) && At(End(p))
      ensures p < |old(bits)| && bits == old(bits)[p := !old(bits[p])]
    {
      hide Rep, Sound, Shape, Tlb, Tables, TlbOk, CanRun, Run, At, Apply, Enabled, Abs;
      ghost var s0 := Abs();
      Alone(ReadByte(p));
      Lives(p);
      var byte := LoadAsids(p);
      Goes(s0, [ReadByte(p)], WriteByte(p));
      StoreAsids(p, byte);
      assert [ReadByte(p)] + [WriteByte(p)] == [ReadByte(p), WriteByte(p)];
      Goes(s0, [ReadByte(p), WriteByte(p)], End(p));
    }

    lemma Lives(p: nat)
      requires At(ReadByte(p))
      ensures Sound(Abs()) && p < |alive| && alive[p]
    {
    }

    /** Within terminate: the next step can be taken, and prolongs the run. */
    lemma Goes(s0: Pager, acts: seq<Action>, a: Action)
      requires Follows(s0, acts) && (a.WriteByte? || a.End?) && a.p < |alive| && a.p < |ending|
      requires alive[a.p] && (if a.WriteByte? then ending[a.p].Read? else ending[a.p].Written?)
      ensures At(a) && Shape(Abs()) && Shape(s0) && CanRun(s0, acts + [a]) && Run(s0, acts + [a]) == Apply(Abs(), a)
    {
      ShapeAfter(a);
      ShapeOfSound(s0);
      RunOn(s0, acts, a);
    }

    /**
     * terminate, when no other process runs in between: the process's bit is turned over, the others' stay, and
     * it is dead.
     */
    method Terminate(p: nat)
      requires At(ReadByte(p))
      modifies `bits, `alive, `ending
      ensures Follows(old(Abs()), [ReadByte(p), WriteByte(p), End(p)])
      ensures p < |old(bits)| && bits == old(bits)[p := !old(bits[p])]
      ensures p < |alive| && !alive[p]
    {
      hide Rep, Sound, Shape, Tlb, Tables, TlbOk, CanRun, Run;
      ghost var s0 := Abs();
      ShapeOfSound(s0);
      CleanFrames(p);
      ShapeAfter(End(p));
      RunOn(s0, [ReadByte(p), WriteByte(p)], End(p));
      Die(p);
      assert [ReadByte(p), WriteByte(p)] + [End(p)] == [ReadByte(p), WriteByte(p), End(p)];
    }
  }

  // ---------------------------------------------------------------- what a fault achieves

  lemma RunOne(s: Pager, a: Action, rest: seq<Action>)
    requires Sound(s) && CanRun(s, [a] + rest)
    ensures Shape(s) && Enabled(s, a) && Sound(Apply(s, a)) && CanRun(Apply(s, a), rest)
    ensures Run(s, [a] + rest) == Run(Apply(s, a), rest)
  {
    assert ([a] + rest)[1..] == rest;
    StepSound(s, a);
  }

  lemma RunThree(s: Pager, a: Action, b: Action, c: Action, rest: seq<Action>)
    requires Sound(s) && CanRun(s, [a, b, c] + rest)
    ensures Shape(s) && Enabled(s, a) && Sound(Apply(s, a)) && Shape(Apply(s, a))
    ensures Enabled(Apply(s, a), b) && Sound(Apply(Apply(s, a), b)) && Shape(Apply(Apply(s, a), b))
    ensures Enabled(Apply(Apply(s, a), b), c) && Sound(Apply(Apply(Apply(s, a), b), c))
    ensures var t := Apply(Apply(Apply(s, a), b), c); CanRun(t, rest) && Run(s, [a, b, c] + rest) == Run(t, rest)
  {
    hide Sound, Apply, Enabled, CanRun, Run;
    assert [a, b, c] + rest == [a] + ([b] + ([c] + rest));
    RunOne(s, a, [b] + ([c] + rest));
    RunOne(Apply(s, a), b, [c] + rest);
    RunOne(Apply(Apply(s, a), b), c, rest);
  }

  /** The victim leaves; after a failed write its slot stays. */
  lemma FreedFrame(s: Pager, x: nat, w: Transfer)
    requires Sound(s) && s.phase.Evicting? && Enabled(s, Invalidate(x))
    requires var t := Apply(s, Invalidate(x)); Shape(t) && Enabled(t, WriteStep(w))
    ensures var u := Apply(Apply(s, Invalidate(x)), WriteStep(w));
            && u.phase.p == s.phase.p && u.phase.g == s.phase.g && u.phase.f == s.phase.f
            && u.phase == (if w.Ready? then WrittenBack(u.phase.p, u.phase.g, u.phase.f)
                           else Reading(u.phase.p, u.phase.g, u.phase.f))
            && u.slots == s.slots && u.top == s.top && u.faulted == s.faulted && |u.tlb| == |s.tlb|
  {
    hide UpdatedTlb;
  }

  lemma MarkedFree(s: Pager)
    requires Sound(s) && s.phase.WrittenBack? && Enabled(s, MarkFree)
    ensures var u := Apply(s, MarkFree);
            && u.phase == Reading(s.phase.p, s.phase.g, s.phase.f) && u.slots == s.slots[s.phase.f := Vacant]
            && u.top == s.top && u.faulted == s.faulted && |u.tlb| == |s.tlb|
  {
  }

  /** The state after an eviction. */
  lemma Vacated(s: Pager, x: nat, w: Transfer, rest: seq<Action>) returns (u: Pager)
    requires Sound(s) && s.phase.Evicting? && CanRun(s, Eviction(x, w) + rest)
    ensures Sound(u) && CanRun(u, rest) && Run(s, Eviction(x, w) + rest) == Run(u, rest)
    ensures u.phase == Reading(s.phase.p, s.phase.g, s.phase.f) && s.phase.f < |s.slots|
    ensures u.slots == if w.Ready? then s.slots[s.phase.f := Vacant] else s.slots
    ensures u.top == s.top && u.faulted == s.faulted && |u.tlb| == |s.tlb|
  {
    EvictingInside(s);
    hide Sound, Apply, Enabled, CanRun, Run;
    var last := (if w.Ready? then [MarkFree] else []) + rest;
    assert Eviction(x, w) + rest == [Invalidate(x)] + ([WriteStep(w)] + last);
    RunOne(s, Invalidate(x), [WriteStep(w)] + last);
    var t := Apply(s, Invalidate(x));
    RunOne(t, WriteStep(w), last);
    FreedFrame(s, x, w);
    u := Apply(t, WriteStep(w));
    if w.Ready? {
      RunOne(u, MarkFree, rest);
      MarkedFree(u);
      u := Apply(u, MarkFree);
    } else {
      assert last == rest;
    }
  }

  lemma EvictingInside(s: Pager)
    requires Sound(s) && s.phase.Evicting?
    ensures Shape(s) && s.phase.f < |s.slots|
  {
  }

  /** The missing page comes. */
  lemma BroughtIn(s: Pager, y: nat)
    requires Sound(s) && s.phase.Reading? && Enabled(s, BringIn)
    requires var t := Apply(s, BringIn); Shape(t) && Enabled(t, Commit(y))
    requires var t := Apply(Apply(s, BringIn), Commit(y)); Shape(t) && Enabled(t, Unlock) && Sound(t)
    ensures var r := Apply(Apply(Apply(s, BringIn), Commit(y)), Unlock);
            var (p, g, f) := (s.phase.p, s.phase.g, s.phase.f);
            && r.phase == Unlocked && p < |s.faulted| && r.faulted == s.faulted[p := None]
            && f < |s.slots| && r.slots == s.slots[f := Taken(p, g)] && r.top == s.top && p < |r.bits| && r.bits[p]
            && PageOf(r, p, g) && g < |r.pt[p]| && r.pt[p][g] == Lo(Addr(f), true) && Present(r.tlb, p, g)
  {
    var (p, g, f) := (s.phase.p, s.phase.g, s.phase.f);
    var r := Apply(Apply(Apply(s, BringIn), Commit(y)), Unlock);
    UpdatedPresent(s.tlb, p, g, Lo(Addr(f), true), y);
    hide UpdatedTlb;
  }

  lemma UpdatedPresent(tlb: seq<Option<TlbEntry>>, o: nat, h: nat, lo: Lo, spare: nat)
    requires spare < |tlb|
    ensures Present(UpdatedTlb(tlb, o, h, lo, spare), o, h)
  {
    var r := UpdatedTlb(tlb, o, h, lo, spare);
    if Present(tlb, o, h) {
      var t :| 0 <= t < |tlb| && Matches(tlb[t], o, h);
      assert Matches(r[t], o, h);
    } else {
      assert Matches(r[spare], o, h);
    }
  }

  lemma Picked(s: Pager, p: nat)
    requires Sound(s) && Enabled(s, Lock(p))
    requires var t := Apply(s, Lock(p)); Shape(t) && Enabled(t, Choose)
    requires var t := Apply(Apply(s, Lock(p)), Choose); Shape(t) && Enabled(t, Check)
    ensures var t := Apply(Apply(Apply(s, Lock(p)), Choose), Check);
            var (g, f) := (s.faulted[p].value, ChosenFrame(s.slots, s.top));
            && t.phase == (if Evicts(s) then Evicting(p, g, f) else Reading(p, g, f))
            && t.slots == s.slots && t.top == f && t.faulted == s.faulted
  {
    hide ChosenFrame;
  }

  /** A fault up to its read. */
  lemma UpToRead(s: Pager, p: nat, x: nat, y: nat, w: Transfer, r: Transfer) returns (u: Pager)
    requires Sound(s) && Enabled(s, Lock(p)) && CanRun(s, Service(s, p, x, y, w, r))
    ensures Sound(u) && CanRun(u, Filling(y, r)) && Run(s, Service(s, p, x, y, w, r)) == Run(u, Filling(y, r))
    ensures var (g, f) := (s.faulted[p].value, ChosenFrame(s.slots, s.top));
            && u.phase == Reading(p, g, f) && u.top == f && u.faulted == s.faulted
            && u.slots == (if Evicts(s) && w.Ready? then s.slots[f := Vacant] else s.slots)
  {
    hide Sound, Shape, Apply, Enabled, CanRun, Run, Evicts, ChosenFrame, Eviction, Filling;
    ShapeOfSound(s);
    var middle := if Evicts(s) then Eviction(x, w) else [];
    assert Service(s, p, x, y, w, r) == [Lock(p), Choose, Check] + (middle + Filling(y, r));
    RunThree(s, Lock(p), Choose, Check, middle + Filling(y, r));
    Picked(s, p);
    u := Apply(Apply(Apply(s, Lock(p)), Choose), Check);
    if Evicts(s) {
      u := Vacated(u, x, w, Filling(y, r));
    } else {
      assert middle + Filling(y, r) == Filling(y, r);
    }
  }

  /**
   * A fault taken without a break whose read succeeds: the page is valid in the frame that choose_frame picked, which
   * now names it, the TLB has it, and the process goes on.
   */
  lemma FaultServed(s: Pager, p: nat, x: nat, y: nat, w: Transfer)
    requires Sound(s) && Enabled(s, Lock(p)) && CanRun(s, Service(s, p, x, y, w, Ready))
    ensures var r := Run(s, Service(s, p, x, y, w, Ready));
            var (g, f) := (s.faulted[p].value, ChosenFrame(s.slots, s.top));
            && r.phase == Unlocked && r.faulted == s.faulted[p := None]
            && r.slots == s.slots[f := Taken(p, g)] && r.top == f && p < |r.bits| && r.bits[p]
            && PageOf(r, p, g) && g < |r.pt[p]| && r.pt[p][g] == Lo(Addr(f), true) && Present(r.tlb, p, g)
  {
    hide Sound, Shape, Apply, Enabled, CanRun, Run, Evicts, ChosenFrame, Present, Service;
    var u := UpToRead(s, p, x, y, w, Ready);
    assert Filling(y, Ready) == [BringIn, Commit(y), Unlock] == [BringIn, Commit(y), Unlock] + [];
    RunThree(u, BringIn, Commit(y), Unlock, []);
    BroughtIn(u, y);
    ShapeOfSound(Apply(Apply(Apply(u, BringIn), Commit(y)), Unlock));
    RunNothing(Apply(Apply(Apply(u, BringIn), Commit(y)), Unlock));
  }

  /** If its read fails the process is not served, and the handler returns without V. */
  lemma FaultAbandoned(s: Pager, p: nat, x: nat, y: nat, w: Transfer, left: Page)
    requires Sound(s) && Enabled(s, Lock(p)) && CanRun(s, Service(s, p, x, y, w, Failed(left)))
    ensures var r := Run(s, Service(s, p, x, y, w, Failed(left)));
            var (g, f) := (s.faulted[p].value, ChosenFrame(s.slots, s.top));
            && r.phase == Abandoned(p, g, f) && r.faulted == s.faulted && r.top == f
            && r.slots == (if Evicts(s) && w.Ready? then s.slots[f := Vacant] else s.slots)
            && PageOf(r, p, g) && g < |r.pt[p]| && !r.pt[p][g].valid
  {
    hide Sound, CanRun, Run, Evicts, ChosenFrame, Service;
    var u := UpToRead(s, p, x, y, w, Failed(left));
    assert Filling(y, Failed(left)) == [ReadFails(left)] + [];
    RunOne(u, ReadFails(left), []);
    ShapeOfSound(Apply(u, ReadFails(left)));
    RunNothing(Apply(u, ReadFails(left)));
    Trapped(Apply(u, ReadFails(left)));
  }

  lemma ShapeOfSound(s: Pager)
    requires Sound(s)
    ensures Shape(s)
  {
  }
}
