/** Device requests from NSYS5 to the interrupt that answers them, and the one case in which a stranger is answered. */
module Requests {
  import opened Prelude
  import opened NucleusState
  import opened NucleusInvariant
  import opened KillTree
  import opened NucleusStep
  import opened NucleusRuns
  import opened NucleusTheorems
  import opened CpuTime
  import opened Semaphores
  import opened SemaphoreQueues
  import opened Passages
  import opened DeviceIo

  /**
   * A request with an address in a device's register queues its caller last on that device's semaphore; and while
   * somebody waits there, the interrupt that reports the device gives its status to the one who asked first, and to
   * nobody else.
   */
  lemma RequestIsAnswered(s: Sys, x: Entry, t: Sys, y: Entry, cmd: int, line: nat, dev: nat)
    requires InRegister(cmd, line, dev) && Reports(y.event, cmd, line, dev) && RequestEvent(cmd) == Some(x.event)
    requires Settled(s) && Possible(s, x.event) && Tame(s, x.event)
    requires Settled(t) && Possible(t, y.event) && Tame(t, y.event)
    ensures x.event.DoIO? && s.act.Some? && y.event.Device?
    ensures var k := KeyOf(y.event);
            && (SemVal(s, k) == 0 ==> Queue(After(s, x), k) == Queue(s, k) + [s.act.value])
            && (SemVal(t, k) == 0 && Queue(t, k) != [] ==>
                  var (r, q) := (After(t, y), Queue(t, k));
                  && q[0] < |t.v0| && r.v0 == t.v0[q[0] := y.event.status] && Queue(r, k) == q[1..]
                  && q[0] < |r.at| && (r.at[q[0]] == Low || r.at[q[0]] == High || r.at[q[0]] == Running))
  {
    RequestMeetsInterrupt(cmd, line, dev, y.event);
    RequestQueues(s, x);
    CompletionReaches(t, y);
    hide *;
  }

  lemma RequestQueues(s: Sys, x: Entry)
    requires Settled(s) && Possible(s, x.event) && Tame(s, x.event) && x.event.DoIO?
    ensures s.act.Some?
    ensures SemVal(s, KeyOf(x.event)) == 0 ==>
              Queue(After(s, x), KeyOf(x.event)) == Queue(s, KeyOf(x.event)) + [s.act.value]
  {
    QueueAfter(s, x, KeyOf(x.event));
    RequestNext(s, x.event);
    hide *;
  }

  lemma RequestNext(s: Sys, e: Event)
    requires Settled(s) && Possible(s, e) && e.DoIO?
    ensures s.act.Some?
    ensures SemVal(s, KeyOf(e)) == 0 ==> NextQueue(s, e, KeyOf(e)) == Queue(s, KeyOf(e)) + [s.act.value]
  {
    hide ListsOk, AslOk, ValuesOk, TreeOk, PriosOk, CountsOk, Queue, SemVal, Subtree, Without;
  }

  /** Whoever gets the status is ready, or runs. */
  lemma CompletionReaches(t: Sys, y: Entry)
    requires Settled(t) && Possible(t, y.event) && Tame(t, y.event) && y.event.Device?
    ensures var (k, r) := (KeyOf(y.event), After(t, y)); var q := Queue(t, k);
            SemVal(t, k) == 0 && q != [] ==>
              && q[0] < |t.v0| && r.v0 == t.v0[q[0] := y.event.status] && Queue(r, k) == q[1..]
              && q[0] < |r.at| && (r.at[q[0]] == Low || r.at[q[0]] == High || r.at[q[0]] == Running)
  {
    var k := KeyOf(y.event);
    if SemVal(t, k) == 0 && Queue(t, k) != [] {
      QueueAfter(t, y, k);
      RepliesAfter(t, y);
      RequesterReady(t, y);
      KeyOfDevice(y.event);
      NotKills(t, y.event);
      hide Settled, Possible, Tame, Handle, After, Queue, SemVal, KeyOf;
    }
  }

  lemma NotKills(s: Sys, e: Event)
    requires Settled(s) && Possible(s, e) && e.Device?
    ensures !Kills(s, e) && DoesV(s, e) && !DoesP(s, e)
  {
    hide Settled, Possible;
  }

  lemma RequesterReady(t: Sys, y: Entry)
    requires Settled(t) && Possible(t, y.event) && Tame(t, y.event) && y.event.Device?
    requires SemVal(t, KeyOf(y.event)) == 0 && Queue(t, KeyOf(y.event)) != []
    ensures var (p, r) := (Queue(t, KeyOf(y.event))[0], After(t, y));
            p < |r.at| && (r.at[p] == Low || r.at[p] == High || r.at[p] == Running)
  {
    var (p, e) := (Queue(t, KeyOf(y.event))[0], y.event);
    CompletionAnswers(t, e.dline, e.ddev, e.status);
    assert e == Device(e.dline, e.ddev, e.status) && KeyOf(e) == Dev(e.dline, e.ddev);
    OldestWaits(t, KeyOf(e));
    BlockedNotRunning(t, p);
    AfterDeals(t, y, p);
    hide Settled, Possible, Tame, Handle, After;
  }

  lemma BlockedNotRunning(t: Sys, p: nat)
    requires Settled(t) && p < |t.at| && t.at[p].Blocked? && (t.mode == Active || t.mode == Idle)
    ensures t.act != Some(p)
  {
  }

  lemma KeyOfDevice(e: Event)
    requires e.Device?
    ensures KeyOf(e) == Dev(e.dline, e.ddev)
  {
  }

  /**
   * When the only requester of a device is terminated while its request is under way, the completion is tame,
   * and its status overwrites v0 of whoever is running.
   */
  lemma KilledRequester(s: Sys, x: Entry, line: nat, dev: nat, q: nat, status: int)
    requires Settled(s) && s.mode == Active && x.event == TermProcess(Some(q)) && q < |s.at|
    requires Queue(s, Dev(line, dev)) == [q] && SemVal(s, Dev(line, dev)) == 0 && s.act.value !in Subtree(s, q)
    ensures Possible(s, x.event) && Tame(s, x.event)
    ensures var t := After(s, x); var e := Device(line, dev, status);
            && t.mode == Active && t.at[q] == Free && Possible(t, e) && Tame(t, e)
            && t.act.value < |t.v0| && Handle(t, e).0.v0 == t.v0[t.act.value := status]
  {
    WasLive(s, line, dev, q);
    RequesterGone(s, x, Dev(line, dev), q);
    StrayAnswer(After(s, x), line, dev, status);
    hide *;
  }

  /** A completion nobody waits for gives its status to whoever is running. */
  lemma StrayAnswer(t: Sys, line: nat, dev: nat, status: int)
    requires Settled(t) && t.mode == Active && SemVal(t, Dev(line, dev)) == 0 && Queue(t, Dev(line, dev)) == []
    ensures var e := Device(line, dev, status);
            && Possible(t, e) && Tame(t, e) && t.act.value < |t.v0| && Handle(t, e).0.v0 == t.v0[t.act.value := status]
  {
    hide ListsOk, AslOk, ValuesOk, TreeOk, PriosOk, CountsOk, Handle;
    CompletionAnswers(t, line, dev, status);
  }

  lemma WasLive(s: Sys, line: nat, dev: nat, q: nat)
    requires Settled(s) && Queue(s, Dev(line, dev)) == [q]
    ensures q < |s.at| && s.at[q] != Free
  {
    OldestWaits(s, Dev(line, dev));
  }

  /** What the termination of a semaphore's only waiter leaves. */
  lemma RequesterGone(s: Sys, x: Entry, k: Key, q: nat)
    requires Settled(s) && s.mode == Active && x.event == TermProcess(Some(q)) && q < |s.at| && s.at[q] != Free
    requires Queue(s, k) == [q] && SemVal(s, k) == 0 && s.act.value !in Subtree(s, q)
    ensures Possible(s, x.event) && Tame(s, x.event)
    ensures var t := After(s, x); t.mode == Active && t.at[q] == Free && SemVal(t, k) == 0 && Queue(t, k) == []
  {
    hide ListsOk, AslOk, ValuesOk, TreeOk, PriosOk, CountsOk, Handle, After, KillProcess, Subtree;
    TerminatedOne(s, q);
    HandleIs(s, x.event);
    VerdictIs(s, x.event);
    KillApart(s, q, k);
    AfterAsl(s, x);
    AfterSem(s, x);
    AfterLive(s, x, q);
    CallerGoesOn(s, x);
    QueueGone(Handle(s, x.event).0, k, q, Subtree(s, q));
  }

  lemma TerminatedOne(s: Sys, q: nat)
    requires Core(s) && q < |s.at| && s.at[q] != Free
    ensures var r, K := KillProcess(s, q), Subtree(s, q);
            && q in K && r.at[q] == Free && (forall k :: Queue(r, k) == Without(Queue(s, k), K))
            && (forall p :: 0 <= p < |s.at| && p !in K ==> r.at[p] == s.at[p])
  {
    SelfUnder(s, q);
    KillsExactlySubtree(s, q);
  }

  lemma QueueGone(t: Sys, k: Key, q: nat, K: set<nat>)
    requires Shape(t) && q in K && Queue(t, k) == Without([q], K)
    ensures Queue(t, k) == [] && k !in t.asl
  {
    assert Without([q], K) == [];
  }

  /** A process that terminates another goes to its ready queue, so somebody runs next. */
  lemma CallerGoesOn(s: Sys, x: Entry)
    requires Settled(s) && s.mode == Active && Possible(s, x.event) && Tame(s, x.event)
    requires Handle(s, x.event).1 == Renqueue && s.act.value < |s.at| && Handle(s, x.event).0.at[s.act.value] == Running
    ensures After(s, x).mode == Active
  {
    hide Handle, Inv, Released, SchedulerNext;
    AfterIs(s, x);
    DispatchedQuiet(s, x);
    var r := Dispatched(s, x);
    ReadySomebody(s, x, r);
    SomethingReady(r, x.loading);
  }

  lemma ReadySomebody(s: Sys, x: Entry, r: Sys)
    requires Core(r) && s.act.Some? && s.act.value < |r.at| && (r.at[s.act.value] == Low || r.at[s.act.value] == High)
    ensures r.low != [] || r.high != []
  {
    assert s.act.value in r.low || s.act.value in r.high;
  }
}
