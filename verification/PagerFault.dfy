/** A whole page fault: that it can always be served, and exactly when no living process can tell it happened. */
module PagerFault {
  import opened Prelude
  import opened PagerState
  import opened PagerInvariant
  import opened PagerTheorems
  import opened Transparency
  import opened PagerCode

  // ---------------------------------------------------------------- a fault can always be served

  lemma TakesStep(s: Pager, acts: seq<Action>, a: Action)
    requires Sound(s) && CanRun(s, acts) && Enabled(Run(s, acts), a)
    ensures Shape(s) && Sound(Run(s, acts)) && Sound(Apply(Run(s, acts), a))
    ensures CanRun(s, acts + [a]) && Run(s, acts + [a]) == Apply(Run(s, acts), a)
  {
    hide Sound, CanRun, Run, Enabled, Apply, Shape;
    ShapeOfSound(s);
    RunSound(s, acts);
    StepSound(Run(s, acts), a);
    RunOn(s, acts, a);
  }

  lemma GoesOn(s: Pager, acts: seq<Action>, spare: nat)
    requires Sound(s) && CanRun(s, acts) && spare < |s.tlb|
    requires !Run(s, acts).phase.Unlocked? && !Run(s, acts).phase.Abandoned?
    ensures var t := Run(s, acts); var a := NextAction(t, spare);
            Shape(s) && Sound(t) && Enabled(t, a) && CanRun(s, acts + [a]) && Run(s, acts + [a]) == Apply(t, a)
  {
    hide Sound, CanRun, Run, Enabled, Apply, Shape, NextAction;
    ShapeOfSound(s);
    RunSound(s, acts);
    HolderProceeds(Run(s, acts), spare);
    TakesStep(s, acts, NextAction(Run(s, acts), spare));
  }

  /** The first half: the frame is chosen and looked at. */
  ghost predicate Opening(s: Pager, p: nat, acts: seq<Action>)
    requires Sound(s) && Enabled(s, Lock(p))
  {
    && CanRun(s, acts)
    && var t := Run(s, acts);
    var (g, f) := (s.faulted[p].value, ChosenFrame(s.slots, s.top));
    t == s.(top := f, calls := s.calls + 1, phase := if Evicts(s) then Evicting(p, g, f) else Reading(p, g, f))
  }

  lemma Opens(s: Pager, p: nat)
    requires Sound(s) && Enabled(s, Lock(p))
    ensures Opening(s, p, [Lock(p), Choose, Check])
  {
    hide CanRun, Run, Sound, ChosenFrame;
    ShapeOfSound(s);
    RunNothing(s);
    RunOn(s, [], Lock(p));
    Sized(s);
    assert [] + [Lock(p)] == [Lock(p)];
    GoesOn(s, [Lock(p)], 0);
    assert [Lock(p)] + [Choose] == [Lock(p), Choose];
    GoesOn(s, [Lock(p), Choose], 0);
    assert [Lock(p), Choose] + [Check] == [Lock(p), Choose, Check];
  }

  lemma Sized(s: Pager)
    requires Sound(s)
    ensures 0 < |s.tlb|
  {
  }

  lemma PhaseMoves(s: Pager, spare: nat)
    requires Sound(s) && !s.phase.Unlocked? && !s.phase.Abandoned? && spare < |s.tlb|
    ensures Shape(s) && Enabled(s, NextAction(s, spare))
    ensures var t := Apply(s, NextAction(s, spare));
            && (s.phase.Locked? ==> t.phase.Chosen?)
            && (s.phase.Chosen? ==> t.phase.Evicting? || t.phase.Reading?)
            && (s.phase.Evicting? ==> t.phase.Invalidated?)
            && (s.phase.Invalidated? ==> t.phase.WrittenBack?)
            && (s.phase.WrittenBack? ==> t.phase.Reading?)
            && (s.phase.Reading? ==> t.phase.Loaded?)
            && (s.phase.Loaded? ==> t.phase.Committed?)
            && (s.phase.Committed? ==> t.phase.Unlocked?)
  {
    HolderProceeds(s, spare);
    hide UpdatedTlb;
  }

  lemma WriteMoves(s: Pager, left: Page)
    requires Sound(s) && s.phase.Invalidated?
    ensures Enabled(s, WriteFails(left)) && Apply(s, WriteFails(left)).phase.Reading?
  {
    HolderProceeds(s, 0);
  }

  lemma ReadMoves(s: Pager, left: Page)
    requires Sound(s) && s.phase.Reading?
    ensures Enabled(s, ReadFails(left)) && Apply(s, ReadFails(left)).phase.Abandoned?
  {
    HolderProceeds(s, 0);
  }

  lemma Empties(s: Pager, acts: seq<Action>, x: nat, w: Transfer)
    requires Sound(s) && CanRun(s, acts) && Run(s, acts).phase.Evicting? && x < |s.tlb|
    ensures CanRun(s, acts + Eviction(x, w)) && Run(s, acts + Eviction(x, w)).phase.Reading?
  {
    hide CanRun, Run, Sound, Apply, Enabled, Shape;
    ShapeOfSound(s);
    GoesOn(s, acts, x);
    PhaseMoves(Run(s, acts), x);
    var a1 := acts + [Invalidate(x)];
    if w.Ready? {
      GoesOn(s, a1, x);
      PhaseMoves(Run(s, a1), x);
      var a2 := a1 + [WriteBack];
      GoesOn(s, a2, x);
      PhaseMoves(Run(s, a2), x);
      assert a2 + [MarkFree] == acts + Eviction(x, w);
    } else {
      RunSound(s, a1);
      WriteMoves(Run(s, a1), w.left);
      TakesStep(s, a1, WriteFails(w.left));
      assert a1 + [WriteFails(w.left)] == acts + Eviction(x, w);
    }
  }

  lemma Finishes(s: Pager, acts: seq<Action>, y: nat, r: Transfer)
    requires Sound(s) && CanRun(s, acts) && Run(s, acts).phase.Reading? && y < |s.tlb|
    ensures CanRun(s, acts + Filling(y, r))
  {
    hide CanRun, Run, Sound, Apply, Enabled, Shape;
    ShapeOfSound(s);
    if r.Ready? {
      GoesOn(s, acts, y);
      PhaseMoves(Run(s, acts), y);
      var a1 := acts + [BringIn];
      GoesOn(s, a1, y);
      PhaseMoves(Run(s, a1), y);
      var a2 := a1 + [Commit(y)];
      GoesOn(s, a2, y);
      assert a2 + [Unlock] == acts + Filling(y, r);
    } else {
      RunSound(s, acts);
      ReadMoves(Run(s, acts), r.left);
      TakesStep(s, acts, ReadFails(r.left));
      assert acts + [ReadFails(r.left)] == acts + Filling(y, r);
    }
  }

  /** Whatever the state, the fault of a process that can lock the swap pool is served, however its transfers end. */
  lemma ServiceRuns(s: Pager, p: nat, x: nat, y: nat, w: Transfer, r: Transfer)
    requires Sound(s) && Enabled(s, Lock(p)) && x < |s.tlb| && y < |s.tlb|
    ensures CanRun(s, Service(s, p, x, y, w, r))
  {
    Opens(s, p);
    ShapeOfSound(s);
    hide CanRun, Run, Sound, Shape, ChosenFrame, Apply, Enabled, Eviction, Filling;
    var acts := [Lock(p), Choose, Check];
    if Evicts(s) {
      Empties(s, acts, x, w);
      acts := acts + Eviction(x, w);
    }
    Finishes(s, acts, y, r);
    assert acts + Filling(y, r) == Service(s, p, x, y, w, r);
  }

  // ---------------------------------------------------------------- every access can be served

  /** The refill puts the page's own entry in the slot chosen, and writes nothing else. */
  lemma RefillServes(s: Pager, p: nat, g: nat, t: nat)
    requires Shape(s) && Enabled(s, Refill(p, g, t))
    ensures p < |s.pt| && g < |s.pt[p]| && t < |s.tlb|
    ensures var r := Apply(s, Refill(p, g, t));
            && Present(r.tlb, p, g) && |r.tlb| == |s.tlb|
            && (forall u :: 0 <= u < |s.tlb| ==>
                  if u == t then Matches(r.tlb[u], p, g) && r.tlb[u].value.lo == s.pt[p][g] else r.tlb[u] == s.tlb[u])
            && r == s.(tlb := r.tlb)
  {
    assert Matches(Apply(s, Refill(p, g, t)).tlb[t], p, g);
  }

  /** In slot `t` is a valid entry of page `g` of process `p`, so an access through it does not trap. */
  ghost predicate Accessible(s: Pager, p: nat, g: nat, t: nat) {
    && InUser(s, p) && t < |s.tlb| && Matches(s.tlb[t], p, g)
    && s.tlb[t].value.lo.valid && 0 <= FrameAt(s.tlb[t].value.lo.addr) < |s.ram|
  }

  /** With an entry that is not valid in the TLB, the process traps, is served, and comes back to a valid one. */
  lemma TrapServed(s: Pager, p: nat, g: nat, t: nat) returns (acts: seq<Action>, u: nat)
    requires Sound(s) && s.phase.Unlocked? && InUser(s, p) && PageOf(s, p, g)
    requires t < |s.tlb| && Matches(s.tlb[t], p, g) && !s.tlb[t].value.lo.valid
    ensures CanRun(s, acts) && Accessible(Run(s, acts), p, g, u)
  {
    var f := Apply(s, Fault(p, t));
    FaultSound(s, p, t);
    ServiceRuns(f, p, 0, 0, Ready, Ready);
    var service := Service(f, p, 0, 0, Ready, Ready);
    acts := [Fault(p, t)] + service;
    assert acts[0] == Fault(p, t) && acts[1..] == service;
    u := ComesBack(f, p);
    hide Sound, Enabled, Service, Accessible;
  }

  /** A process whose fault is served finds its page. */
  lemma ComesBack(f: Pager, p: nat) returns (u: nat)
    requires Sound(f) && Enabled(f, Lock(p)) && CanRun(f, Service(f, p, 0, 0, Ready, Ready))
    requires p < |f.ending| && f.ending[p] == Not
    ensures Accessible(Run(f, Service(f, p, 0, 0, Ready, Ready)), p, f.faulted[p].value, u)
  {
    var service := Service(f, p, 0, 0, Ready, Ready);
    var (r, g) := (Run(f, service), f.faulted[p].value);
    FaultServed(f, p, 0, 0, Ready);
    u :| 0 <= u < |r.tlb| && Matches(r.tlb[u], p, g);
    RunSound(f, service);
    ServedUser(f, service, p);
    AddrInjective(ChosenFrame(f.slots, f.top));
    hide CanRun, Run, Service, ChosenFrame, FramesMapped, FifoOk, PhaseOk, FaultedOk, OwnersUsed, TlbUnique;
  }

  lemma PresentServed(s: Pager, p: nat, g: nat, t: nat) returns (acts: seq<Action>, u: nat)
    requires Inv(s) && s.phase.Unlocked? && InUser(s, p) && PageOf(s, p, g) && t < |s.tlb| && Matches(s.tlb[t], p, g)
    ensures CanRun(s, acts) && Accessible(Run(s, acts), p, g, u)
  {
    if s.tlb[t].value.lo.valid {
      acts, u := [], t;
      assert Framed(s, p, g);
    } else {
      acts, u := TrapServed(s, p, g, t);
    }
  }

  /**
   * Whenever the pool is free, an access of a process to any page of its own can be served: by a refill if the TLB has
   * no entry of the page, and by a fault if the entry is not valid. Afterwards the access does not trap.
   */
  lemma AccessServed(s: Pager, p: nat, g: nat) returns (acts: seq<Action>, u: nat)
    requires Inv(s) && s.phase.Unlocked? && InUser(s, p) && PageOf(s, p, g)
    ensures CanRun(s, acts) && Accessible(Run(s, acts), p, g, u)
  {
    if Present(s.tlb, p, g) {
      var t :| 0 <= t < |s.tlb| && Matches(s.tlb[t], p, g);
      acts, u := PresentServed(s, p, g, t);
    } else {
      var a := Refill(p, g, 0);
      RefillServes(s, p, g, 0);
      StepInv(s, a);
      var rest: seq<Action>;
      rest, u := PresentServed(Apply(s, a), p, g, 0);
      acts := [a] + rest;
      assert acts[0] == a && acts[1..] == rest;
      hide Inv, Accessible;
    }
  }

  lemma {:induction false} ServedUser(s: Pager, acts: seq<Action>, p: nat)
    requires Sound(s) && CanRun(s, acts) && p < |s.alive|
    requires forall i :: 0 <= i < |acts| ==> !Ends(acts[i])
    ensures var r := Run(s, acts); r.alive == s.alive && r.ending == s.ending && |r.ram| == |s.ram|
    decreases |acts|
  {
    if acts != [] {
      assert !Ends(acts[0]);
      StepSound(s, acts[0]);
      ServedUser(Apply(s, acts[0]), acts[1..], p);
    }
  }

  // ---------------------------------------------------------------- whether the pool is released

  /** How many steps the holder is from its V. */
  function Distance(f: Phase): nat {
    match f
    case Unlocked => 0
    case Locked(_, _) => 8
    case Chosen(_, _, _) => 7
    case Evicting(_, _, _) => 6
    case Invalidated(_, _, _) => 5
    case WrittenBack(_, _, _) => 4
    case Reading(_, _, _) => 3
    case Loaded(_, _, _) => 2
    case Committed(_, _) => 1
    case Abandoned(_, _, _) => 0
  }

  lemma {:induction false} Releases(s: Pager) returns (acts: seq<Action>)
    requires Sound(s) && !s.phase.Abandoned?
    ensures CanRun(s, acts) && Run(s, acts).phase.Unlocked?
    decreases Distance(s.phase)
  {
    acts := [];
    if !s.phase.Unlocked? {
      Sized(s);
      var a := NextAction(s, 0);
      PhaseMoves(s, 0);
      StepSound(s, a);
      var rest := Releases(Apply(s, a));
      acts := [a] + rest;
      assert acts[0] == a && acts[1..] == rest;
    }
  }

  /** In whatever sound state, the pool can still be released exactly if the holder's read has not failed. */
  lemma ReleasedExactly(s: Pager)
    requires Sound(s)
    ensures (exists acts :: CanRun(s, acts) && Run(s, acts).phase.Unlocked?) <==> !s.phase.Abandoned?
  {
    if s.phase.Abandoned? {
      forall acts | CanRun(s, acts) ensures !Run(s, acts).phase.Unlocked? {
        AbandonedForGood(s, acts);
      }
    } else {
      var acts := Releases(s);
    }
  }

  // ---------------------------------------------------------------- runs without stores

  /** Steps by which processes end. */
  predicate Ends(a: Action) {
    a.ReadByte? || a.WriteByte? || a.End? || a.SafeKill?
  }

  predicate Quiet(acts: seq<Action>) {
    forall i :: 0 <= i < |acts| ==> !acts[i].Store? && !acts[i].WriteBack? && !acts[i].WriteFails? && !Ends(acts[i])
  }

  lemma {:induction false} QuietKeeps(s: Pager, acts: seq<Action>, o: nat, h: nat)
    requires Inv(s) && CanRun(s, acts) && Quiet(acts) && PageOf(s, o, h) && Living(s, o)
    ensures var t := Run(s, acts);
            PageOf(t, o, h) && t.alive == s.alive && t.ending == s.ending && View(t, o, h) == View(s, o, h)
    decreases |acts|
  {
    if acts != [] {
      StepInv(s, acts[0]);
      StepKeepsView(s, acts[0], o, h);
      QuietKeeps(Apply(s, acts[0]), acts[1..], o, h);
    }
  }

  lemma {:induction false} RunSplit(s: Pager, a: seq<Action>, b: seq<Action>)
    requires Sound(s) && CanRun(s, a + b)
    ensures CanRun(s, a) && Sound(Run(s, a)) && CanRun(Run(s, a), b) && Run(s, a + b) == Run(Run(s, a), b)
    decreases |a|
  {
    if a == [] {
      assert a + b == b;
    } else {
      assert a + b == [a[0]] + (a[1..] + b);
      RunOne(s, a[0], a[1..] + b);
      RunSplit(Apply(s, a[0]), a[1..], b);
    }
  }

  /** Runs on which no process ends keep the whole invariant. */
  lemma {:induction false} QuietInv(s: Pager, acts: seq<Action>)
    requires Inv(s) && CanRun(s, acts) && (forall i :: 0 <= i < |acts| ==> !Ends(acts[i]))
    ensures Inv(Run(s, acts))
    decreases |acts|
  {
    if acts != [] {
      assert !Ends(acts[0]);
      StepInv(s, acts[0]);
      QuietInv(Apply(s, acts[0]), acts[1..]);
    }
  }

  lemma ShapeOfInv(s: Pager)
    requires Inv(s)
    ensures Shape(s) && Sound(s)
  {
  }

  // ---------------------------------------------------------------- exactly when

  /**
   * Nothing is evicted, or the victim is the faulting process's, or its owner is dead and the block it goes to is
   * not in use.
   */
  ghost predicate FairVictim(s: Pager, p: nat)
    requires Inv(s) && Enabled(s, Lock(p))
  {
    Evicts(s) ==>
      var v := s.slots[ChosenFrame(s.slots, s.top)];
      PageOf(s, p, v.page) && (v.asid == p || (!Living(s, v.asid) && s.pt[p][v.page].valid))
  }

  /** The same state with other contents in the frame that is going to be replaced. */
  function Filled(s: Pager, v: Page): (r: Pager)
    requires s.top < |s.slots| == |s.ram|
    ensures Inv(s) && !Replacing(s) ==> Inv(r)
  {
    s.(ram := s.ram[ChosenFrame(s.slots, s.top) := v])
  }

  /** No living process can tell that the fault of `p` has been served. */
  ghost predicate Unnoticed(s: Pager, p: nat, x: nat, y: nat)
    requires Inv(s) && Enabled(s, Lock(p)) && x < |s.tlb| && y < |s.tlb|
  {
    ServiceRuns(s, p, x, y, Ready, Ready);
    KeepsViews(s, Run(s, Service(s, p, x, y, Ready, Ready)))
  }

  lemma FilledInv(s: Pager, v: Page, p: nat)
    requires Inv(s) && Enabled(s, Lock(p))
    ensures var u := Filled(s, v);
            Inv(u) && Enabled(u, Lock(p)) && |u.tlb| == |s.tlb| && Evicts(u) == Evicts(s) &&
              (FairVictim(u, p) <==> FairVictim(s, p))
  {
    hide ChosenFrame;
  }

  /** The fault up to its write-back. */
  ghost predicate Emptied(s: Pager, p: nat, x: nat, t: Pager)
    requires Inv(s) && Enabled(s, Lock(p))
  {
    var f := ChosenFrame(s.slots, s.top);
    && s.slots[f].Taken?
    && var (o, h) := (s.slots[f].asid, s.slots[f].page);
    && Inv(t) && t.phase.Invalidated? && t.phase.p == p && t.phase.f == f
    && t.slots == s.slots && t.alive == s.alive && t.ending == s.ending && t.flash == s.flash && t.ram == s.ram &&
       t.pages == s.pages
    && PageOf(s, o, h) && t.pt == SetPte(s.pt, o, h, s.pt[o][h].(valid := false))
  }

  lemma UpToWriteBack(s: Pager, p: nat, x: nat, y: nat)
    requires Inv(s) && Enabled(s, Lock(p)) && x < |s.tlb| && y < |s.tlb| && Evicts(s)
    ensures var a := [Lock(p), Choose, Check, Invalidate(x)];
            && CanRun(s, a) && Inv(Run(s, a)) && Emptied(s, p, x, Run(s, a)) && Enabled(Run(s, a), WriteBack)
            && var w := Apply(Run(s, a), WriteBack);
            var b := [MarkFree, BringIn, Commit(y), Unlock];
            && Inv(w) && CanRun(w, b) && CanRun(s, Service(s, p, x, y, Ready, Ready))
            && Run(s, Service(s, p, x, y, Ready, Ready)) == Run(w, b)
  {
    hide Inv, Sound, CanRun, Run, Apply, Enabled, Shape, ChosenFrame, Emptied;
    ShapeOfInv(s);
    ServiceRuns(s, p, x, y, Ready, Ready);
    var a, b := [Lock(p), Choose, Check, Invalidate(x)], [MarkFree, BringIn, Commit(y), Unlock];
    assert Service(s, p, x, y, Ready, Ready) == a + ([WriteBack] + b);
    RunSplit(s, a, [WriteBack] + b);
    RunOne(Run(s, a), WriteBack, b);
    Opens(s, p);
    assert a == [Lock(p), Choose, Check] + [Invalidate(x)];
    RunSplit(s, [Lock(p), Choose, Check], [Invalidate(x)]);
    var t := Run(s, [Lock(p), Choose, Check]);
    assert [Invalidate(x)] + [] == [Invalidate(x)];
    RunOne(t, Invalidate(x), []);
    ShapeOfSound(Apply(t, Invalidate(x)));
    RunNothing(Apply(t, Invalidate(x)));
    QuietInv(s, [Lock(p), Choose, Check]);
    QuietInv(s, a);
    StepInv(Run(s, a), WriteBack);
    ByInvalidating(s, p, x, t);
  }

  lemma ByInvalidating(s: Pager, p: nat, x: nat, t: Pager)
    requires Inv(s) && Enabled(s, Lock(p)) && Evicts(s) && Inv(t) && Enabled(t, Invalidate(x)) &&
             Inv(Apply(t, Invalidate(x)))
    requires var (g, f) := (s.faulted[p].value, ChosenFrame(s.slots, s.top));
             t == s.(top := f, calls := s.calls + 1, phase := Evicting(p, g, f))
    ensures Emptied(s, p, x, Apply(t, Invalidate(x)))
  {
    hide ChosenFrame, UpdatedTlb;
    assert t.slots == s.slots;
  }

  lemma FairIsSafe(s: Pager, p: nat, x: nat, t: Pager)
    requires Inv(s) && Enabled(s, Lock(p)) && Evicts(s) && Emptied(s, p, x, t)
    ensures SafeVictim(t) <==> FairVictim(s, p)
  {
    hide ChosenFrame;
  }

  lemma SamePages(s: Pager, p: nat, x: nat, y: nat, o: nat, h: nat)
    requires Inv(s) && Enabled(s, Lock(p)) && x < |s.tlb| && y < |s.tlb| && Evicts(s) && PageOf(s, o, h) && Living(s, o)
    ensures CanRun(s, Service(s, p, x, y, Ready, Ready)) && CanRun(s, [Lock(p), Choose, Check, Invalidate(x)])
    ensures var t := Run(s, [Lock(p), Choose, Check, Invalidate(x)]);
            var r := Run(s, Service(s, p, x, y, Ready, Ready));
            && Enabled(t, WriteBack) && Inv(Apply(t, WriteBack)) && PageOf(t, o, h) && t.alive == s.alive &&
               t.ending == s.ending && r.alive == s.alive && r.ending == s.ending
            && PageOf(r, o, h) && PageOf(Apply(t, WriteBack), o, h) && View(t, o, h) == View(s, o, h)
            && View(r, o, h) == View(Apply(t, WriteBack), o, h)
  {
    hide Inv, Sound, CanRun, Run, Enabled, Shape, ChosenFrame, Emptied, View;
    ShapeOfInv(s);
    UpToWriteBack(s, p, x, y);
    var a, b := [Lock(p), Choose, Check, Invalidate(x)], [MarkFree, BringIn, Commit(y), Unlock];
    QuietKeeps(s, a, o, h);
    ShapeOfInv(Run(s, a));
    var w := Apply(Run(s, a), WriteBack);
    QuietKeeps(w, b, o, h);
  }

  /**
   * Whatever the chosen frame holds, no living process can tell that the fault was served: exactly when
   * nothing is evicted, or the victim is the faulting process's own, or its owner is dead and the block
   * of the faulting process's device that it goes to is not in use.
   */
  lemma FaultUnnoticedExactly(s: Pager, p: nat, x: nat, y: nat)
    requires Inv(s) && Enabled(s, Lock(p)) && x < |s.tlb| && y < |s.tlb|
    ensures FairVictim(s, p) <==> forall v: Page :: UnnoticedWith(s, v, p, x, y)
  {
    if FairVictim(s, p) {
      forall v: Page ensures UnnoticedWith(s, v, p, x, y) {
        FilledInv(s, v, p);
        FairUnnoticed(Filled(s, v), p, x, y);
      }
    } else {
      UnfairNoticed(s, p, x, y);
    }
  }

  ghost predicate UnnoticedWith(s: Pager, v: Page, p: nat, x: nat, y: nat)
    requires Inv(s) && Enabled(s, Lock(p)) && x < |s.tlb| && y < |s.tlb|
  {
    FilledInv(s, v, p);
    Unnoticed(Filled(s, v), p, x, y)
  }

  lemma ServiceInv(s: Pager, p: nat, x: nat, y: nat)
    requires Inv(s) && Enabled(s, Lock(p)) && x < |s.tlb| && y < |s.tlb|
    ensures CanRun(s, Service(s, p, x, y, Ready, Ready))
    ensures var r := Run(s, Service(s, p, x, y, Ready, Ready)); Inv(r) && Shape(r) && |r.alive| == |r.ending|
  {
    hide Inv, Sound, CanRun, Run, Enabled, Shape, ChosenFrame;
    ShapeOfInv(s);
    ServiceRuns(s, p, x, y, Ready, Ready);
    QuietInv(s, Service(s, p, x, y, Ready, Ready));
    ShapeOfInv(Run(s, Service(s, p, x, y, Ready, Ready)));
    SizesOf(Run(s, Service(s, p, x, y, Ready, Ready)));
  }

  lemma SizesOf(s: Pager)
    requires Shape(s)
    ensures |s.alive| == |s.ending|
  {
  }

  lemma FairUnnoticed(s: Pager, p: nat, x: nat, y: nat)
    requires Inv(s) && Enabled(s, Lock(p)) && x < |s.tlb| && y < |s.tlb| && FairVictim(s, p)
    ensures Unnoticed(s, p, x, y)
  {
    hide Inv, Sound, CanRun, Run, Enabled, Shape, ChosenFrame, Emptied, View, FairVictim, Apply;
    ShapeOfInv(s);
    ServiceInv(s, p, x, y);
    var r := Run(s, Service(s, p, x, y, Ready, Ready));
    RunAlive(s, Service(s, p, x, y, Ready, Ready));
    forall o, h | 0 <= o < |r.alive| && 0 <= h < r.pages && Living(r, o) ensures View(r, o, h) == View(s, o, h) {
      if Evicts(s) {
        SamePages(s, p, x, y, o, h);
        UpToWriteBack(s, p, x, y);
        var t := Run(s, [Lock(p), Choose, Check, Invalidate(x)]);
        FairIsSafe(s, p, x, t);
        WriteBackKeepsView(t, o, h);
      } else {
        QuietKeeps(s, Service(s, p, x, y, Ready, Ready), o, h);
      }
    }
  }

  lemma {:induction false} RunAlive(s: Pager, acts: seq<Action>)
    requires Sound(s) && CanRun(s, acts)
    ensures forall o :: 0 <= o < |s.alive| && Living(Run(s, acts), o) ==> Living(s, o)
    ensures |s.alive| == |s.pt|
    decreases |acts|
  {
    if acts != [] {
      StepSound(s, acts[0]);
      RunAlive(Apply(s, acts[0]), acts[1..]);
    }
  }

  lemma UnfairNoticed(s: Pager, p: nat, x: nat, y: nat)
    requires Inv(s) && Enabled(s, Lock(p)) && x < |s.tlb| && y < |s.tlb| && !FairVictim(s, p)
    ensures exists v: Page :: !UnnoticedWith(s, v, p, x, y)
  {
    var (q, h) := Hurt(s, p);
    var v := s.flash[q][h] + 1;
    FilledInv(s, v, p);
    var u := Filled(s, v);
    HurtNotices(u, p, x, y, q, h);
    assert !UnnoticedWith(s, v, p, x, y);
  }

  /** The page that loses its contents: the victim itself, or the one whose block is written over. */
  function Hurt(s: Pager, p: nat): (nat, nat)
    requires Shape(s) && s.slots[ChosenFrame(s.slots, s.top)].Taken?
  {
    var v := s.slots[ChosenFrame(s.slots, s.top)];
    (if v.asid < |s.alive| && Living(s, v.asid) then v.asid else p, v.page)
  }

  lemma HurtNotices(s: Pager, p: nat, x: nat, y: nat, q: nat, h: nat)
    requires Inv(s) && Enabled(s, Lock(p)) && x < |s.tlb| && y < |s.tlb| && !FairVictim(s, p)
    requires (q, h) == Hurt(s, p) && PageOf(s, q, h) && s.ram[ChosenFrame(s.slots, s.top)] == s.flash[q][h] + 1
    ensures !Unnoticed(s, p, x, y)
  {
    hide Inv, CanRun, Run, Enabled, ChosenFrame, View, Apply, FairVictim;
    HurtLives(s, p);
    ShapeOfInv(s);
    assert Hurt(s, p).0 == q;
    SamePages(s, p, x, y, q, h);
    UpToWriteBack(s, p, x, y);
    var t := Run(s, [Lock(p), Choose, Check, Invalidate(x)]);
    FairIsSafe(s, p, x, t);
    HurtByWriteBack(s, p, x, t, q, h);
    var r := Run(s, Service(s, p, x, y, Ready, Ready));
    ServiceInv(s, p, x, y);
    assert View(r, q, h) != View(s, q, h);
  }

  lemma HurtLives(s: Pager, p: nat)
    requires Inv(s) && Enabled(s, Lock(p)) && !FairVictim(s, p)
    ensures Evicts(s) && Living(s, Hurt(s, p).0)
  {
    hide ChosenFrame;
  }

  lemma HurtByWriteBack(s: Pager, p: nat, x: nat, t: Pager, q: nat, h: nat)
    requires Inv(s) && Enabled(s, Lock(p)) && Evicts(s) && !FairVictim(s, p) && Emptied(s, p, x, t) &&
             Enabled(t, WriteBack)
    requires (q, h) == Hurt(s, p) && PageOf(s, q, h) && s.ram[ChosenFrame(s.slots, s.top)] == s.flash[q][h] + 1
    ensures Shape(Apply(t, WriteBack)) && View(Apply(t, WriteBack), q, h) != View(t, q, h)
  {
    hide ChosenFrame;
    StepInv(t, WriteBack);
  }
}
