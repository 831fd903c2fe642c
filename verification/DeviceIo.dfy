/**
 * Which semaphore a device request waits on, and which one its interrupt signals.
 *
 * The bus constants are those of the uMPS3 headers, which are not part of the repository.
 */
module DeviceIo {
  import opened Prelude
  import opened NucleusState
  import opened NucleusStep

  const DEV_REG_START := 0x1000_0054
  const DEV_REG_SIZE := 0x10
  const N_EXT_IL := 5                // disk, flash, network, printer, terminal
  const N_DEV_PER_IL := 8
  const TERMINAL := 4                // IL_TERMINAL - IL_DISK
  const OK_CHAR := 5                 // OKCHARTRANS
  const WORD := 4

  /** Semaphore arrays beyond the four one-semaphore lines: terminal input, then output. */
  const TERM_IN := 4
  const TERM_OUT := 5

  function DevRegAddr(line: int, dev: int): int {
    DEV_REG_START + line * (N_DEV_PER_IL * DEV_REG_SIZE) + dev * DEV_REG_SIZE
  }

  /** DEVICE_FROM_COMDADDR: C's division, which truncates toward zero. */
  function DeviceFromCommand(cmd: int): int {
    var d := cmd - DEV_REG_START;
    DEV_REG_SIZE * (if d >= 0 then d / DEV_REG_SIZE else -((-d) / DEV_REG_SIZE)) + DEV_REG_START
  }

  /** IS_TERM_WRITING: the command is the fourth word of its register. */
  predicate IsTermWriting(cmd: int) {
    (cmd - DeviceFromCommand(cmd)) / WORD == 3
  }

  /** The address is inside the register of device `dev` of line `line`. */
  predicate InRegister(cmd: int, line: int, dev: int) {
    && 0 <= line < N_EXT_IL && 0 <= dev < N_DEV_PER_IL
    && DevRegAddr(line, dev) <= cmd < DevRegAddr(line, dev) + DEV_REG_SIZE
  }

  /** An address is inside one register at most, and its register's base is what the macro computes. */
  lemma RegisterOf(cmd: int, line: int, dev: int)
    requires InRegister(cmd, line, dev)
    ensures DeviceFromCommand(cmd) == DevRegAddr(line, dev) == 0x1000_0054 + 0x80 * line + 0x10 * dev
    ensures forall l, d :: InRegister(cmd, l, d) ==> l == line && d == dev
  {
    var base := DevRegAddr(line, dev) - DEV_REG_START;
    assert base == DEV_REG_SIZE * (N_DEV_PER_IL * line + dev);
    assert (cmd - DEV_REG_START) / DEV_REG_SIZE == N_DEV_PER_IL * line + dev;
  }

  const AREA_END := DEV_REG_START + N_EXT_IL * N_DEV_PER_IL * DEV_REG_SIZE

  /**
   * The line and index do_io finds: those of the register that holds the address, but C's division takes the
   * 15 bytes below the area for the first register.
   */
  function FoundDevice(cmd: int): (int, int) {
    if DEV_REG_START <= cmd < AREA_END then
      ((cmd - DEV_REG_START) / DEV_REG_SIZE / N_DEV_PER_IL, (cmd - DEV_REG_START) / DEV_REG_SIZE % N_DEV_PER_IL)
    else if DEV_REG_START - DEV_REG_SIZE < cmd < DEV_REG_START then (0, 0)
    else (-1, -1)
  }

  lemma FoundIs(cmd: int, line: int, dev: int)
    requires InRegister(cmd, line, dev)
    ensures FoundDevice(cmd) == (line, dev)
  {
    assert cmd - DEV_REG_START == DEV_REG_SIZE * (N_DEV_PER_IL * line + dev) + (cmd - DevRegAddr(line, dev));
  }

  /** The device found has the base the macro computed, and no other has. */
  lemma FoundBase(cmd: int)
    ensures var (line, dev) := FoundDevice(cmd);
            if line == -1 then dev == -1 && forall l, d :: InArea(l, d) ==> DevRegAddr(l, d) != DeviceFromCommand(cmd)
            else InArea(line, dev) &&
                 forall l, d :: InArea(l, d) ==>
                   (DevRegAddr(l, d) == DeviceFromCommand(cmd) <==> l == line && d == dev)
  {
  }

  predicate InArea(line: int, dev: int) {
    0 <= line < N_EXT_IL && 0 <= dev < N_DEV_PER_IL
  }

  /** The search of do_io: two nested loops, left by pushing the outer counter past its bound. */
  method FindDevice(cmd: int) returns (line: int, index: int)
    ensures (line, index) == FoundDevice(cmd)
    ensures forall l, d :: InRegister(cmd, l, d) ==> line == l && index == d
  {
    var dev := DeviceFromCommand(cmd);
    FoundBase(cmd);
    ghost var found := FoundDevice(cmd);
    forall l, d | InRegister(cmd, l, d) ensures found == (l, d) {
      FoundIs(cmd, l, d);
    }
    hide FoundDevice, DeviceFromCommand, DevRegAddr, InRegister;
    line, index := -1, -1;
    var i := 0;
    while i < N_EXT_IL
      invariant 0 <= i
      invariant (line == -1 && index == -1 && i <= N_EXT_IL) || (i > N_EXT_IL && (line, index) == found)
      invariant line == -1 && found.0 != -1 ==> i <= found.0
    {
      var j := 0;
      while j < N_DEV_PER_IL
        invariant 0 <= i && 0 <= j <= N_DEV_PER_IL
        invariant line == -1 && index == -1 && i < N_EXT_IL
        invariant found.0 != -1 ==> i <= found.0 && (i == found.0 ==> j <= found.1)
      {
        assert InArea(i, j);
        if DevRegAddr(i, j) == dev {
          line, index := i, j;
          i := 3 + N_EXT_IL;
          break;
        }
        j := j + 1;
      }
      i := i + 1;
    }
  }

  /** The semaphore a request waits on: one a line, except that a terminal has one a direction. */
  function RequestKey(cmd: int, line: nat, index: nat): Key {
    if line != TERMINAL then Dev(line, index)
    else if IsTermWriting(cmd) then Dev(TERM_OUT, index)
    else Dev(TERM_IN, index)
  }

  /** The system call that NSYS5 with this address amounts to; none when no semaphore is chosen. */
  function RequestEvent(cmd: int): Option<Event> {
    var (line, index) := FoundDevice(cmd);
    if cmd == 0 || cmd == NULL then Some(NullRequest)
    else if line < 0 || index < 0 then None
    else Some(DoIO(RequestKey(cmd, line, index).line, RequestKey(cmd, line, index).dev))
  }

  /** The semaphore array by the layout of the registers: a terminal's last word is its transmission command. */
  function WaitsOn(cmd: int, line: int, dev: int): int {
    if line != TERMINAL then line else if DevRegAddr(TERMINAL, dev) + 12 <= cmd then TERM_OUT else TERM_IN
  }

  /** The macros' arithmetic agrees with the layout. */
  lemma RequestIs(cmd: int, line: int, dev: int)
    requires InRegister(cmd, line, dev)
    ensures RequestEvent(cmd) == Some(DoIO(WaitsOn(cmd, line, dev), dev))
  {
    RegisterOf(cmd, line, dev);
    FoundIs(cmd, line, dev);
    hide FoundDevice, DeviceFromCommand;
    var offset := cmd - DevRegAddr(line, dev);
    assert 0 <= offset < 16 && (offset / WORD == 3 <==> 12 <= offset);
  }

  /** do_io up to passeren: a null address panics, one in a register waits on that device's semaphore. */
  method DoIoEvent(cmd: int) returns (e: Option<Event>)
    ensures e == RequestEvent(cmd)
    ensures cmd == 0 || cmd == NULL ==> e == Some(NullRequest)
    ensures forall l, d :: InRegister(cmd, l, d) && l != TERMINAL ==> e == Some(DoIO(l, d))
    ensures forall d :: InRegister(cmd, TERMINAL, d) ==>
              e == Some(DoIO(if DevRegAddr(TERMINAL, d) + 12 <= cmd then TERM_OUT else TERM_IN, d))
  {
    forall l, d | InRegister(cmd, l, d) ensures RequestEvent(cmd) == Some(DoIO(WaitsOn(cmd, l, d), d)) {
      RequestIs(cmd, l, d);
    }
    if cmd == 0 || cmd == NULL {
      return Some(NullRequest);
    }
    var line, index := FindDevice(cmd);
    if line < 0 || index < 0 {
      e := None;               // the semaphore is then uninitialised
    } else {
      var k := RequestKey(cmd, line, index);
      e := Some(DoIO(k.line, k.dev));
    }
  }

  function Power(i: nat): (r: nat)
    ensures r > 0
  {
    if i == 0 then 1 else 2 * Power(i - 1)
  }

  lemma {:induction false} PowerGrows(i: nat, j: nat)
    requires i < j
    ensures Power(i) < Power(j) && Power(i + 1) <= Power(j)
  {
    if i + 1 < j {
      PowerGrows(i, j - 1);
      assert Power(j) == 2 * Power(j - 1) && Power(j - 1) > 0;
    }
  }

  /** The position of the highest bit of `b`, 0 when it has none. */
  function TopBit(b: nat): nat {
    if b <= 1 then 0 else 1 + TopBit(b / 2)
  }

  lemma TopBitIs(b: nat, i: nat)
    requires Power(i) <= b < Power(i + 1)
    ensures TopBit(b) == i
  {
    TopBitBounds(b);
    HighestBitUnique(b, i, TopBit(b));
  }

  lemma {:induction false} TopBitBounds(b: nat)
    ensures b > 0 ==> Power(TopBit(b)) <= b < Power(TopBit(b) + 1)
  {
    if b > 1 {
      TopBitBounds(b / 2);
      assert Power(TopBit(b)) == 2 * Power(TopBit(b / 2)) && Power(TopBit(b) + 1) == 2 * Power(TopBit(b / 2) + 1);
    }
  }

  /** The loop both handlers use on the bitmap. */
  method HighestBit(bitmap: nat) returns (index: nat)
    ensures index == TopBit(bitmap)
    ensures bitmap > 0 ==> Power(index) <= bitmap < Power(index + 1)
  {
    var b := bitmap;
    index := 0;
    while b > 1
      invariant TopBit(bitmap) == index + TopBit(b)
    {
      index := index + 1;
      b := b / 2;
    }
    TopBitBounds(bitmap);
  }

  lemma HighestBitUnique(n: nat, i: nat, j: nat)
    requires Power(i) <= n < Power(i + 1) && Power(j) <= n < Power(j + 1)
    ensures i == j
  {
    if i < j {
      PowerGrows(i, j);
    } else if j < i {
      PowerGrows(j, i);
    }
  }

  /** A bit past the last device makes the position 8 or more. */
  lemma TopBitInside(b: nat)
    ensures TopBit(b) < N_DEV_PER_IL <==> b < Power(N_DEV_PER_IL)
  {
    TopBitBounds(b);
    var i := TopBit(b);
    if i < N_DEV_PER_IL { PowerGrows(i, N_DEV_PER_IL); } else if i > N_DEV_PER_IL { PowerGrows(N_DEV_PER_IL, i); }
  }

  /** The completion an interrupt on a line with one semaphore a device stands for. */
  function GenericEvent(line: nat, bitmap: nat, status: seq<int>): Event
    requires |status| == N_DEV_PER_IL
  {
    if TopBit(bitmap) >= N_DEV_PER_IL then WildInterrupt else Device(line, TopBit(bitmap), status[TopBit(bitmap)])
  }

  /** generic_interrupt_handler: the device with the highest pending bit; panic past the last device. */
  method GenericInterrupt(line: nat, bitmap: nat, status: seq<int>) returns (e: Event)
    requires |status| == N_DEV_PER_IL
    ensures e == GenericEvent(line, bitmap, status)
    ensures e == WildInterrupt <==> bitmap >= Power(N_DEV_PER_IL)
    ensures forall d: nat :: d < N_DEV_PER_IL && Power(d) <= bitmap < Power(d + 1) ==> e == Device(line, d, status[d])
  {
    var index := HighestBit(bitmap);
    TopBitInside(bitmap);
    forall d: nat | d < N_DEV_PER_IL && Power(d) <= bitmap < Power(d + 1) ensures d == index {
      TopBitIs(bitmap, d);
    }
    if index >= N_DEV_PER_IL {
      return WildInterrupt;
    }
    return Device(line, index, status[index]);
  }

  /** The low byte of a terminal status says whether the character went through. */
  predicate CharDone(status: nat) {
    status % 0x100 == OK_CHAR
  }

  /** The completion an interrupt on the terminals' line stands for: transmission goes first. */
  function TerminalEvent(bitmap: nat, transm: seq<nat>, recv: seq<nat>): Event
    requires |transm| == |recv| == N_DEV_PER_IL
  {
    var d := TopBit(bitmap);
    if d >= N_DEV_PER_IL then WildInterrupt
    else if CharDone(transm[d]) then Device(TERM_OUT, d, transm[d])
    else if CharDone(recv[d]) then Device(TERM_IN, d, recv[d])
    else Ignored
  }

  /** The terminal branch: at most one direction is served a time. */
  method TerminalInterrupt(bitmap: nat, transm: seq<nat>, recv: seq<nat>) returns (e: Event)
    requires |transm| == |recv| == N_DEV_PER_IL
    ensures e == TerminalEvent(bitmap, transm, recv)
    ensures e == WildInterrupt <==> bitmap >= Power(N_DEV_PER_IL)
    ensures forall d: nat :: d < N_DEV_PER_IL && Power(d) <= bitmap < Power(d + 1) ==>
              e == if transm[d] % 256 == 5 then Device(TERM_OUT, d, transm[d])
                   else if recv[d] % 256 == 5 then Device(TERM_IN, d, recv[d]) else Ignored
  {
    var index := HighestBit(bitmap);
    TopBitInside(bitmap);
    forall d: nat | d < N_DEV_PER_IL && Power(d) <= bitmap < Power(d + 1) ensures d == index {
      TopBitIs(bitmap, d);
    }
    if index >= N_DEV_PER_IL {
      return WildInterrupt;
    }
    var status := [transm[index], recv[index]];
    var sem := [TERM_OUT, TERM_IN];
    for i := 0 to 2
      invariant forall h :: 0 <= h < i ==> !CharDone(status[h])
    {
      assert i == 1 ==> !CharDone(status[0]);
      if CharDone(status[i]) {
        return Device(sem[i], index, status[i]);
      }
    }
    assert !CharDone(status[0]) && !CharDone(status[1]);
    return Ignored;
  }

  // ---------------------------------------------------------------- interrupt lines

  const IL_CPUTIMER := 1
  const IL_TIMER := 2
  const IL_DISK := 3
  const IL_TERMINAL := 7
  const N_INTERRUPT_LINES := 8

  /** What the handlers read: a bitmap a line, and the status of every device and terminal direction. */
  datatype Bus = Bus(bitmap: seq<nat>, status: seq<seq<int>>, transm: seq<nat>, recv: seq<nat>)

  predicate Wired(b: Bus) {
    && |b.bitmap| == N_EXT_IL && |b.status| == N_EXT_IL && |b.transm| == |b.recv| == N_DEV_PER_IL
    && forall l :: 0 <= l < N_EXT_IL ==> |b.status[l]| == N_DEV_PER_IL
  }

  /** The line is pending and none before it is. */
  predicate FirstPending(pending: seq<bool>, i: nat) {
    i < |pending| && pending[i] && forall j :: 0 <= j < i ==> !pending[j]
  }

  lemma FirstOnce(pending: seq<bool>, i: nat, j: nat)
    requires FirstPending(pending, i) && FirstPending(pending, j)
    ensures i == j
  {
  }

  /** handle_interrupts, as the event it amounts to. */
  function LineEvent(line: nat, b: Bus): Event
    requires line < N_INTERRUPT_LINES && Wired(b)
  {
    if line == IL_CPUTIMER then SliceEnd
    else if line == IL_TIMER then Tick
    else if line == IL_TERMINAL then TerminalEvent(b.bitmap[TERMINAL], b.transm, b.recv)
    else if line >= IL_DISK then GenericEvent(line - IL_DISK, b.bitmap[line - IL_DISK], b.status[line - IL_DISK])
    else Ignored
  }

  /** handle_interrupts. */
  method HandleInterrupts(line: nat, b: Bus) returns (e: Event)
    requires line < N_INTERRUPT_LINES && Wired(b)
    ensures e == LineEvent(line, b)
    ensures line == 0 ==> e == Ignored
    ensures line == 1 ==> e == SliceEnd
    ensures line == 2 ==> e == Tick
    ensures 3 <= line < 7 ==>
              forall d: nat :: d < N_DEV_PER_IL && Power(d) <= b.bitmap[line - 3] < Power(d + 1) ==>
                e == Device(line - 3, d, b.status[line - 3][d])
    ensures line == 7 ==>
              forall d: nat :: d < N_DEV_PER_IL && Power(d) <= b.bitmap[4] < Power(d + 1) ==>
                e == if b.transm[d] % 256 == 5 then Device(TERM_OUT, d, b.transm[d])
                     else if b.recv[d] % 256 == 5 then Device(TERM_IN, d, b.recv[d]) else Ignored
  {
    hide GenericEvent, TerminalEvent, TopBit, Power;
    if line == IL_CPUTIMER {
      return SliceEnd;
    } else if line == IL_TIMER {
      return Tick;
    } else if line == IL_TERMINAL {
      e := TerminalInterrupt(b.bitmap[TERMINAL], b.transm, b.recv);
    } else if line >= IL_DISK {
      e := GenericInterrupt(line - IL_DISK, b.bitmap[line - IL_DISK], b.status[line - IL_DISK]);
    } else {
      return Ignored;
    }
  }

  /** The interrupt branch of exception_handler: the lowest pending line is served, the others stay pending. */
  method PendingEvent(pending: seq<bool>, b: Bus) returns (e: Event)
    requires |pending| == N_INTERRUPT_LINES && Wired(b)
    ensures forall i: nat :: FirstPending(pending, i) ==> e == LineEvent(i, b)
    ensures (forall i :: 0 <= i < |pending| ==> !pending[i]) ==> e == NoPendingLine
  {
    hide LineEvent, Wired;
    var i := 0;
    while i < N_INTERRUPT_LINES
      invariant 0 <= i <= N_INTERRUPT_LINES
      invariant forall j :: 0 <= j < i ==> !pending[j]
    {
      if pending[i] {
        forall j: nat | FirstPending(pending, j) ensures j == i {
          FirstOnce(pending, i, j);
        }
        e := HandleInterrupts(i, b);
        return;
      }
      i := i + 1;
    }
    return NoPendingLine;
  }

  // ---------------------------------------------------------------- requests meet completions

  /**
   * The interrupt that reports device `dev` of line `line`, and the direction that `cmd` asks for, done: that line is
   * the lowest pending, and the device the highest in its bitmap. At a terminal the last word, from byte 12 on, asks
   * for a transmission, and a direction is done when the low byte of its status is 5.
   */
  ghost predicate Reports(e: Event, cmd: int, line: nat, dev: nat) {
    exists pending: seq<bool>, b: Bus :: Reported(e, cmd, line, dev, pending, b)
  }

  ghost predicate Reported(e: Event, cmd: int, line: nat, dev: nat, pending: seq<bool>, b: Bus) {
    && Wired(b) && line < N_EXT_IL && dev < N_DEV_PER_IL && |pending| == N_INTERRUPT_LINES
    && FirstPending(pending, 3 + line) && Power(dev) <= b.bitmap[line] < Power(dev + 1)
    && e == LineEvent(3 + line, b)
    && (line == TERMINAL ==>
          if DevRegAddr(TERMINAL, dev) + 12 <= cmd then b.transm[dev] % 256 == 5
          else b.transm[dev] % 256 != 5 && b.recv[dev] % 256 == 5)
  }

  lemma ReportSignals(cmd: int, line: nat, dev: nat, e: Event)
    requires Reports(e, cmd, line, dev)
    ensures e.Device? && e.dline == WaitsOn(cmd, line, dev) && e.ddev == dev && KeyOf(e) == Dev(e.dline, dev)
  {
    var pending: seq<bool>, b: Bus :| Reported(e, cmd, line, dev, pending, b);
    TopBitIs(b.bitmap[line], dev);
    hide TopBit, Power, DevRegAddr;
  }

  /**
   * The semaphore do_io blocks on for an address in a device's register is the one that device's interrupt signals: at
   * a terminal the output one for the last word, the input one for the others.
   */
  lemma RequestMeetsInterrupt(cmd: int, line: nat, dev: nat, e: Event)
    requires InRegister(cmd, line, dev) && Reports(e, cmd, line, dev)
    ensures RequestEvent(cmd).Some? && RequestEvent(cmd).value.DoIO? && e.Device?
    ensures KeyOf(RequestEvent(cmd).value) == KeyOf(e)
    ensures KeyOf(e) == if line != TERMINAL then Dev(line, dev)
                        else if DevRegAddr(TERMINAL, dev) + 12 <= cmd then Dev(TERM_OUT, dev) else Dev(TERM_IN, dev)
  {
    RequestIs(cmd, line, dev);
    ReportSignals(cmd, line, dev, e);
    hide Reports, RequestEvent;
  }

  /** Two requests wait on one semaphore exactly if they are to one device and, at a terminal, in one direction. */
  lemma RequestsApart(c: int, l: nat, d: nat, c2: int, l2: nat, d2: nat)
    requires InRegister(c, l, d) && InRegister(c2, l2, d2)
    ensures RequestEvent(c).Some? && RequestEvent(c2).Some?
    ensures KeyOf(RequestEvent(c).value) == KeyOf(RequestEvent(c2).value) <==>
            && l == l2 && d == d2
            && (l == TERMINAL ==> (c - DevRegAddr(l, d) >= 12 <==> c2 - DevRegAddr(l, d) >= 12))
  {
    RequestIs(c, l, d);
    RequestIs(c2, l2, d2);
    hide RequestEvent;
  }
}
