/**
 * The pager's data, and the steps a page fault is made of.
 *
 * tlb_exc_handler gives up the processor at every system call and can be interrupted anywhere
 * else but in its two interrupt-free windows, so between its steps other processes use their
 * memory, refill the TLB, fault and end.  Processes are numbered from 0, asid minus one.
 */
module PagerState {
  import opened Prelude

  const SP_BEGIN := 0x2002_0000
  const PAGESIZE := 4096

  /** The contents of a page; only equality matters. */
  type Page = int

  /** A page table entry's entryLO: the frame's address and the valid bit. */
  datatype Lo = Lo(addr: int, valid: bool)

  /** A swap pool table entry; Vacant is asid -1, and a taken one points at an entry of a page table. */
  datatype Slot = Vacant | Taken(asid: nat, page: nat)

  datatype TlbEntry = TlbEntry(asid: nat, page: nat, lo: Lo)

  /** How far the process inside the swap pool's semaphore is: its number, its missing page, its frame. */
  datatype Phase =
    | Unlocked
    | Locked(p: nat, g: nat)
    | Chosen(p: nat, g: nat, f: nat)
    | Evicting(p: nat, g: nat, f: nat)
    | Invalidated(p: nat, g: nat, f: nat)    // write-back pending
    | WrittenBack(p: nat, g: nat, f: nat)
    | Reading(p: nat, g: nat, f: nat)        // read pending
    | Loaded(p: nat, g: nat, f: nat)
    | Committed(p: nat, g: nat)
    | Abandoned(p: nat, g: nat, f: nat)      // the read failed: the handler returned without V

  /**
   * How far terminate has come: clean_frames reads the byte sp_asids, turns its own bit over in a register, and
   * writes the byte back, with interrupts on; then NSYS2 ends the process.
   */
  datatype Ending = Not | Read(byte: seq<bool>) | Written

  datatype Pager = Pager(
    pages: nat,                      // USERPGTBLSIZE
    slots: seq<Slot>, top: nat,
    pt: seq<seq<Lo>>,
    bits: seq<bool>,                 // sp_asids
    used: seq<bool>,                 // a page of the process was brought in at some time
    alive: seq<bool>,
    ending: seq<Ending>,
    faulted: seq<Option<nat>>,       // the page a process trapped on and waits for
    ram: seq<Page>, flash: seq<seq<Page>>,
    tlb: seq<Option<TlbEntry>>,
    phase: Phase,
    calls: nat)                      // how often choose_frame was called

  datatype Action =
    | Fault(p: nat, t: nat)
    | Lock(p: nat)
    | Choose
    | Check
    | Invalidate(spare: nat)
    | WriteBack
    | WriteFails(left: Page)
    | MarkFree
    | BringIn
    | ReadFails(left: Page)
    | Commit(spare: nat)
    | Unlock
    | Refill(p: nat, g: nat, t: nat)
    | Store(p: nat, t: nat, value: Page)
    | ReadByte(p: nat)
    | WriteByte(p: nat)
    | End(p: nat)
    | SafeKill(p: nat)

  function Addr(f: nat): int {
    SP_BEGIN + f * PAGESIZE
  }

  function FrameAt(addr: int): int {
    (addr - SP_BEGIN) / PAGESIZE
  }

  ghost predicate Shape(s: Pager) {
    && |s.slots| == |s.ram| > 0
    && |s.pt| == |s.bits| == |s.used| == |s.alive| == |s.ending| == |s.faulted| == |s.flash|
    && (forall o :: 0 <= o < |s.ending| && s.ending[o].Read? ==> |s.ending[o].byte| == |s.bits|)
    && |s.tlb| > 0
    && (forall o :: 0 <= o < |s.pt| ==> |s.pt[o]| == |s.flash[o]| == s.pages)
    && (forall f :: 0 <= f < |s.slots| && s.slots[f].Taken? ==> PageOf(s, s.slots[f].asid, s.slots[f].page))
    && (forall t :: 0 <= t < |s.tlb| && s.tlb[t].Some? ==> PageOf(s, s.tlb[t].value.asid, s.tlb[t].value.page))
    && (forall o :: 0 <= o < |s.faulted| && s.faulted[o].Some? ==> PageOf(s, o, s.faulted[o].value))
    && s.top < |s.slots|
  }

  predicate PageOf(s: Pager, o: nat, h: nat) {
    o < |s.pt| && h < s.pages
  }

  // ---------------------------------------------------------------- choose_frame

  /** The frame `d` places after `top`, going round. */
  function Round(top: nat, d: nat, n: nat): (r: nat)
    requires top < n && d <= n
    ensures r < n
  {
    if top + d < n then top + d else top + d - n
  }

  lemma RoundIs(top: nat, d: nat, n: nat)
    requires top < n && d <= n
    ensures (top + d) % n == Round(top, d, n)
  {
    if top + d < n { Remainder(top + d, n, 0, top + d); } else { Remainder(top + d, n, 1, top + d - n); }
  }

  /** The scan of choose_frame: the first vacant frame met from `top + i` on, going round. */
  function Scan(slots: seq<Slot>, top: nat, i: nat): (r: nat)
    requires top < |slots| && i <= |slots|
    ensures r < |slots|
    decreases |slots| - i
  {
    if i == |slots| then Round(top, 1, |slots|)
    else if slots[Round(top, i, |slots|)] == Vacant then Round(top, i, |slots|)
    else Scan(slots, top, i + 1)
  }

  function ChosenFrame(slots: seq<Slot>, top: nat): (r: nat)
    requires top < |slots|
    ensures r < |slots|
  {
    Scan(slots, top, 0)
  }

  // ---------------------------------------------------------------- update_tlb

  ghost predicate Matches(e: Option<TlbEntry>, o: nat, h: nat) {
    e.Some? && e.value.asid == o && e.value.page == h
  }

  ghost predicate Present(tlb: seq<Option<TlbEntry>>, o: nat, h: nat) {
    exists t :: 0 <= t < |tlb| && Matches(tlb[t], o, h)
  }

  /** update_tlb: the entry of the page, or, since the failed probe is not noticed, an arbitrary one. */
  ghost function UpdatedTlb(tlb: seq<Option<TlbEntry>>, o: nat, h: nat, lo: Lo, spare: nat): (r: seq<Option<TlbEntry>>)
    requires spare < |tlb|
    ensures |r| == |tlb|
  {
    if Present(tlb, o, h)
    then seq(|tlb|, t requires 0 <= t < |tlb| => if Matches(tlb[t], o, h) then Some(TlbEntry(o, h, lo)) else tlb[t])
    else tlb[spare := Some(TlbEntry(o, h, lo))]
  }

  // ---------------------------------------------------------------- the steps

  /** The frame is about to be written back. */
  predicate WritePending(s: Pager) {
    s.phase.Invalidated? && s.phase.f < |s.slots| && s.slots[s.phase.f].Taken? && s.phase.p < |s.flash|
  }

  /** When a step can be taken. */
  ghost predicate Enabled(s: Pager, a: Action)
    requires Shape(s)
  {
    match a
    // a process whose page is in the TLB but not valid traps
    case Fault(p, t) => InUser(s, p) && t < |s.tlb| && s.tlb[t].Some? && s.tlb[t].value.asid == p &&
      !s.tlb[t].value.lo.valid
    case Lock(p) => s.phase == Unlocked && p < |s.alive| && s.alive[p] && s.faulted[p].Some?
    case Choose => s.phase.Locked?
    case Check => s.phase.Chosen? && s.phase.f < |s.slots|
    case Invalidate(spare) => s.phase.Evicting? && s.phase.f < |s.slots| && s.slots[s.phase.f].Taken? && spare < |s.tlb|
    case WriteBack => WritePending(s)
    case WriteFails(_) => WritePending(s)
    case MarkFree => s.phase.WrittenBack? && s.phase.f < |s.slots|
    case BringIn => s.phase.Reading? && s.phase.f < |s.slots| && PageOf(s, s.phase.p, s.phase.g)
    case ReadFails(_) => s.phase.Reading? && s.phase.f < |s.slots|
    case Commit(spare) => s.phase.Loaded? && s.phase.f < |s.slots| && PageOf(s, s.phase.p, s.phase.g) && spare < |s.tlb|
    case Unlock => s.phase.Committed? && s.phase.p < |s.faulted|
    // the refill exception: no entry for the page
    case Refill(p, g, t) => InUser(s, p) && PageOf(s, p, g) && t < |s.tlb| && !Present(s.tlb, p, g)
    // a store through a valid entry
    case Store(p, t, _) => InUser(s, p) && t < |s.tlb| && s.tlb[t].Some? && s.tlb[t].value.asid == p &&
                           s.tlb[t].value.lo.valid && 0 <= FrameAt(s.tlb[t].value.lo.addr) < |s.ram|
    case ReadByte(p) => InUser(s, p)
    case WriteByte(p) => p < |s.alive| && s.alive[p] && s.ending[p].Read?
    case End(p) => p < |s.alive| && s.alive[p] && s.ending[p].Written?
    case SafeKill(p) => InUser(s, p)
  }

  /** Alive and running its own code. */
  predicate InUser(s: Pager, p: nat) {
    p < |s.alive| == |s.faulted| == |s.ending| && s.alive[p] && s.faulted[p] == None && s.ending[p] == Not
  }

  /** Alive, and not past giving up its frames: such a process may still use its memory. */
  predicate Living(s: Pager, o: nat)
    requires o < |s.alive| == |s.ending|
  {
    s.alive[o] && !s.ending[o].Written?
  }

  ghost function Apply(s: Pager, a: Action): Pager
    requires Shape(s) && Enabled(s, a)
  {
    match a
    case Fault(p, t) => s.(faulted := s.faulted[p := Some(s.tlb[t].value.page)])
    case Lock(p) => s.(phase := Locked(p, s.faulted[p].value))
    case Choose =>
      var f := ChosenFrame(s.slots, s.top);
      s.(top := f, calls := s.calls + 1, phase := Chosen(s.phase.p, s.phase.g, f))
    case Check =>
      var (p, g, f) := (s.phase.p, s.phase.g, s.phase.f);
      s.(phase := if s.slots[f].Taken? && s.bits[s.slots[f].asid] then Evicting(p, g, f) else Reading(p, g, f))
    case Invalidate(spare) =>
      var f := s.phase.f;
      var (o, h) := (s.slots[f].asid, s.slots[f].page);
      var lo := s.pt[o][h].(valid := false);
      s.(pt := SetPte(s.pt, o, h, lo), tlb := UpdatedTlb(s.tlb, o, h, lo, spare),
         phase := Invalidated(s.phase.p, s.phase.g, f))
    case WriteBack =>
      // the device is the faulting process's, the block is the victim's page
      var (p, h) := (s.phase.p, s.slots[s.phase.f].page);
      s.(flash := s.flash[p := s.flash[p][h := s.ram[s.phase.f]]],
         phase := WrittenBack(p, s.phase.g, s.phase.f))
    // a failed transfer leaves anything in the block or the frame; after a failed write the frame stays taken
    case WriteFails(left) =>
      var (p, h) := (s.phase.p, s.slots[s.phase.f].page);
      s.(flash := s.flash[p := s.flash[p][h := left]], phase := Reading(p, s.phase.g, s.phase.f))
    case MarkFree => s.(slots := s.slots[s.phase.f := Vacant], phase := Reading(s.phase.p, s.phase.g, s.phase.f))
    case BringIn =>
      s.(ram := s.ram[s.phase.f := s.flash[s.phase.p][s.phase.g]],
         phase := Loaded(s.phase.p, s.phase.g, s.phase.f))
    case ReadFails(left) =>
      s.(ram := s.ram[s.phase.f := left], phase := Abandoned(s.phase.p, s.phase.g, s.phase.f))
    case Commit(spare) =>
      var (p, g, f) := (s.phase.p, s.phase.g, s.phase.f);
      var lo := Lo(Addr(f), true);
      s.(slots := s.slots[f := Taken(p, g)], bits := s.bits[p := true], used := s.used[p := true],
         pt := SetPte(s.pt, p, g, lo), tlb := UpdatedTlb(s.tlb, p, g, lo, spare), phase := Committed(p, g))
    case Unlock => s.(phase := Unlocked, faulted := s.faulted[s.phase.p := None])
    case Refill(p, g, t) => s.(tlb := s.tlb[t := Some(TlbEntry(p, g, s.pt[p][g]))])
    case Store(p, t, value) => s.(ram := s.ram[FrameAt(s.tlb[t].value.lo.addr) := value])
    // the bit is switched over, not cleared
    case ReadByte(p) => s.(ending := s.ending[p := Ending.Read(s.bits)])
    case WriteByte(p) =>
      var byte := s.ending[p].byte;
      s.(bits := byte[p := !byte[p]], ending := s.ending[p := Ending.Written])
    case End(p) => s.(alive := s.alive[p := false])
    case SafeKill(p) => s.(alive := s.alive[p := false])
  }

  function SetPte(pt: seq<seq<Lo>>, o: nat, h: nat, lo: Lo): seq<seq<Lo>>
    requires o < |pt| && h < |pt[o]|
  {
    pt[o := pt[o][h := lo]]
  }

  /** init_supp_structures and init_page_table: nothing in memory, nobody dead, nobody waiting. */
  ghost predicate Initial(s: Pager) {
    && Shape(s) && s.phase == Unlocked && s.calls == 0 && s.top == 0
    && (forall f :: 0 <= f < |s.slots| ==> s.slots[f] == Vacant)
    && (forall o, h :: 0 <= o < |s.pt| && 0 <= h < s.pages ==> |s.pt[o]| == s.pages && !s.pt[o][h].valid)
    && (forall o :: 0 <= o < |s.pt| ==> s.alive[o] && !s.bits[o] && !s.used[o])
    && (forall o :: 0 <= o < |s.pt| ==> s.ending[o] == Not && s.faulted[o] == None)
    && (forall t :: 0 <= t < |s.tlb| ==> s.tlb[t] == None)
  }
}
