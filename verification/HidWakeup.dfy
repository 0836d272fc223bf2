/**
 * The two semaphores: no wake-up is lost, one USB report is in flight at a time, and a machine
 * with nothing left to do has answered every lock.
 */
module HidWakeup {
  import opened Kernel
  import opened HidMachine
  import opened HidOwnership
  import opened HidReports
  import opened HidBalance

  /** A producer between its put and its give. */
  ghost predicate AboutToGive(s: State) {
    s.gpio == Busy(Give) || s.ble == Busy(Give)
  }

  /** Main sleeps on queued events only if a wake-up is there or on its way. */
  ghost predicate NoLostWakeup(s: State) {
    s.main.WaitEvt? && s.sh.fifo != [] ==> s.sh.evt || AboutToGive(s)
  }

  /** usb_sem's permit, the report in flight, main between take and write, or a failed write. */
  ghost predicate OneReport(s: State) {
    Bit(s.sh.usb) + s.sh.inFlight + Bit(s.main.Write?) + s.sh.failedWrites == 1
  }

  lemma WakeupStep(s: State, a: Action)
    requires NoLostWakeup(s) && Step(s, a).Some?
    ensures NoLostWakeup(Step(s, a).value)
  {
    match a
    case GpioStep(_) =>
    case BleStep(_) =>
    case MainStep(_, _) =>
    case _ =>
  }

  /** The posting routine leaves the USB side alone. */
  lemma PostStepUsb(sh: Shared, pc: PostPc, kind: Kind, pick: Block)
    ensures match PostStep(sh, pc, kind, pick)
            case Blocked => true
            case More(sh', pc') => SameUsb(sh, sh')
            case Done(sh') => SameUsb(sh, sh')
  {
  }

  predicate SameUsb(sh: Shared, sh': Shared) {
    sh'.usb == sh.usb && sh'.inFlight == sh.inFlight && sh'.failedWrites == sh.failedWrites
  }

  lemma OneReportStep(s: State, a: Action)
    requires OneReport(s) && Step(s, a).Some?
    ensures OneReport(Step(s, a).value)
  {
    match a
    case GpioStep(pick) => PostStepUsb(s.sh, s.gpio.pc, GpioButton0, pick);
    case BleStep(pick) => PostStepUsb(s.sh, s.ble.pc, BleBtn, pick);
    case MainStep(pick, _) =>
      if s.main.Clearing? {
        PostStepUsb(s.sh, s.main.pc, HidKbdClear, pick);
      }
    case _ =>
  }

  lemma {:induction false} SemaphoresInEveryRun(acts: seq<Action>)
    requires Run(Init(), acts).Some?
    ensures NoLostWakeup(Run(Init(), acts).value) && OneReport(Run(Init(), acts).value)
  {
    if acts == [] {
    } else {
      SemaphoresInEveryRun(acts[..|acts| - 1]);
      WakeupStep(Run(Init(), acts[..|acts| - 1]).value, acts[|acts| - 1]);
      OneReportStep(Run(Init(), acts[..|acts| - 1]).value, acts[|acts| - 1]);
    }
  }

  /** The semaphore laws in every reachable state, at statement granularity and across flushes by any actor. */
  lemma SemaphoresHold(s: State)
    requires Reachable(s)
    ensures NoLostWakeup(s) && OneReport(s)
  {
    var acts :| Run(Init(), acts) == Some(s);
    SemaphoresInEveryRun(acts);
  }

  /** Nothing can happen but new button events. */
  ghost predicate Quiescent(s: State) {
    && (forall pick: Block :: Step(s, GpioStep(pick)).None? && Step(s, BleStep(pick)).None?)
    && (forall pick: Block, ok: bool :: Step(s, MainStep(pick, ok)).None?)
    && Step(s, InReady).None?
  }

  /** The state in which the loop waits for the next button event with all work done. */
  ghost predicate AtRest(s: State) {
    && s.gpio.Idle? && s.ble.Idle? && s.main.WaitEvt?
    && !s.sh.evt && s.sh.fifo == []
    && Locks(s.sh.written) == Clears(s.sh.written) + Clears(s.sh.dropped)
  }

  /** The posting routine never blocks: the pool has a block to hand out, or is empty. */
  lemma PostNeverBlocks(sh: Shared, pc: PostPc, kind: Kind) returns (pick: Block)
    ensures !PostStep(sh, pc, kind, pick).Blocked?
  {
    pick := if sh.free == {} then 0 else var b :| b in sh.free; b;
  }

  lemma BusyActorsCanStep(s: State)
    requires !s.sh.halted
    ensures s.gpio.Busy? ==> exists pick: Block :: Step(s, GpioStep(pick)).Some?
    ensures s.ble.Busy? ==> exists pick: Block :: Step(s, BleStep(pick)).Some?
    ensures s.main.Clearing? ==> exists pick: Block, ok: bool :: Step(s, MainStep(pick, ok)).Some?
  {
    if s.gpio.Busy? {
      var pick := PostNeverBlocks(s.sh, s.gpio.pc, GpioButton0);
      assert Step(s, GpioStep(pick)).Some?;
    }
    if s.ble.Busy? {
      var pick := PostNeverBlocks(s.sh, s.ble.pc, BleBtn);
      assert Step(s, BleStep(pick)).Some?;
    }
    if s.main.Clearing? {
      var pick := PostNeverBlocks(s.sh, s.main.pc, HidKbdClear);
      assert Step(s, MainStep(pick, true)).Some?;
    }
  }

  lemma QuiescentShape(s: State)
    requires Quiescent(s) && !s.sh.halted
    ensures s.gpio.Idle? && s.ble.Idle? && s.sh.inFlight == 0
    ensures (s.main.WaitEvt? && !s.sh.evt) || (s.main.TakeUsb? && !s.sh.usb)
  {
    BusyActorsCanStep(s);
    assert Step(s, MainStep(0, true)).None?;
  }

  /** With the FIFO empty and main waiting, the locks exceed the clears by the clear events that were dropped. */
  lemma WaitingBalance(s: State)
    requires FlowInv(s) && Counted(s) && s.main.WaitEvt? && s.sh.fifo == []
    ensures Locks(s.sh.written) == Clears(s.sh.written) + Clears(s.sh.dropped)
    ensures Pipeline(s) == s.sh.written
  {
    PipelineClears(s);
    assert Contents(s.sh) == [] && Unwritten(s) == [];
  }

  /**
   * Where every run that cannot go on has ended: the machine halted on a null pointer, or the USB
   * endpoint is wedged by a failed write, or all work is done. In the last case the locks exceed
   * the clears by exactly the clear events that flushes dropped.
   */
  lemma QuiescentRuns(s: State)
    requires Reachable(s) && Quiescent(s)
    ensures s.sh.halted || (s.main.TakeUsb? && s.sh.failedWrites == 1) || AtRest(s)
  {
    if !s.sh.halted {
      QuiescentShape(s);
      SemaphoresHold(s);
      CountsHold(s);
      if s.main.WaitEvt? {
        WaitingBalance(s);
      }
    }
  }

  lemma BalancedEndsWithClear(w: seq<Cell>)
    requires w != [] && PrefixBalanced(w) && Locks(w) == Clears(w)
    ensures !IsLock(w[|w| - 1])
  {
    var n := |w| - 1;
    assert w[..n] + [w[n]] == w;
    CountAppend(w[..n], w[n], IsLock);
    CountAppend(w[..n], w[n], IsClear);
    assert Clears(w[..n]) <= Locks(w[..n]);
  }

  /** With main waiting on an empty FIFO and nothing dropped, no key stays down: every lock has its clear. */
  lemma NoKeyStaysDown(s: State)
    requires Reachable(s) && s.main.WaitEvt? && s.sh.fifo == [] && s.sh.dropped == []
    ensures Locks(s.sh.written) == Clears(s.sh.written)
    ensures s.sh.written != [] ==> IsClear(s.sh.written[|s.sh.written| - 1])
  {
    CountsHold(s);
    WaitingBalance(s);
    if s.sh.written != [] {
      BalancedEndsWithClear(s.sh.written);
      assert Pipeline(s)[|s.sh.written| - 1] == s.sh.written[|s.sh.written| - 1];
    }
  }
}
