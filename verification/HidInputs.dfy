/** The histories against the actions of the run: which inputs they count. */
module HidInputs {
  import opened Kernel
  import opened HidMachine
  import opened HidReports
  import opened HidBalance
  import opened HidWakeup

  predicate IsPressGpio(a: Action) {
    a.PressGpio?
  }

  /** A button event over Bluetooth whose byte is positive when it is read as signed. */
  predicate IsPressBle(a: Action) {
    a.BleEvent? && 0 < a.btnVal % 256 < 128
  }

  predicate IsInReady(a: Action) {
    a.InReady?
  }

  predicate IsGpioCell(c: Cell) {
    c.kind == GpioButton0
  }

  predicate IsBleCell(c: Cell) {
    c.kind == BleBtn
  }

  /** How many of main's calls of hid_int_ep_write had this outcome. */
  function Writes(acts: seq<Action>, ok: bool): nat
    requires Run(Init(), acts).Some?
  {
    if acts == [] then 0
    else
      var before, a := acts[..|acts| - 1], acts[|acts| - 1];
      Writes(before, ok) + Bit(a.MainStep? && a.writeOk == ok && Run(Init(), before).value.main.Write?)
  }

  /** The posted events of the two buttons, and those on their way. */
  function Gpios(s: State): nat {
    Count(s.sh.posted, IsGpioCell) + Bit(PressPending(s.gpio))
  }

  function Bles(s: State): nat {
    Count(s.sh.posted, IsBleCell) + Bit(PressPending(s.ble))
  }

  lemma PutCountsKinds(sh: Shared, b: Block)
    ensures var posted, kind := Put(sh, b).posted, At(sh.mem, b).kind;
            && Count(posted, IsGpioCell) == Count(sh.posted, IsGpioCell) + Bit(kind == GpioButton0)
            && Count(posted, IsBleCell) == Count(sh.posted, IsBleCell) + Bit(kind == BleBtn)
  {
    CountAppend(sh.posted, Cell(At(sh.mem, b).kind, |sh.posted|), IsGpioCell);
    CountAppend(sh.posted, Cell(At(sh.mem, b).kind, |sh.posted|), IsBleCell);
  }

  /** A producer posts its own kind of event, once for each press. */
  lemma ProducerCounts(sh: Shared, p: Producer, kind: Kind, pick: Block)
    requires Typed(sh, p, kind) && ProducerStep(sh, p, kind, pick).Some?
    ensures var (sh', p') := ProducerStep(sh, p, kind, pick).value;
            && Count(sh'.posted, IsGpioCell) + (if kind == GpioButton0 then Bit(PressPending(p')) else 0)
               == Count(sh.posted, IsGpioCell) + (if kind == GpioButton0 then Bit(PressPending(p)) else 0)
            && Count(sh'.posted, IsBleCell) + (if kind == BleBtn then Bit(PressPending(p')) else 0)
               == Count(sh.posted, IsBleCell) + (if kind == BleBtn then Bit(PressPending(p)) else 0)
            && SameUsb(sh, sh') && sh'.written == sh.written
  {
    PostStepUsb(sh, p.pc, kind, pick);
    if p.pc.Filled? {
      PutCountsKinds(sh, p.pc.b);
    } else {
      PostStepQuiet(sh, p.pc, kind, pick);
    }
  }

  /** Main posts neither, ... */
  lemma ClearingCounts(sh: Shared, pc: PostPc, pick: Block)
    requires Typed(sh, Busy(pc), HidKbdClear)
    ensures match PostStep(sh, pc, HidKbdClear, pick)
            case Blocked => true
            case More(sh', _) => SameButClears(sh, sh')
            case Done(sh') => SameButClears(sh, sh')
  {
    PostStepUsb(sh, pc, HidKbdClear, pick);
    if pc.Filled? {
      PutCountsKinds(sh, pc.b);
    } else {
      PostStepQuiet(sh, pc, HidKbdClear, pick);
    }
  }

  predicate SameButClears(sh: Shared, sh': Shared) {
    && Count(sh'.posted, IsGpioCell) == Count(sh.posted, IsGpioCell)
    && Count(sh'.posted, IsBleCell) == Count(sh.posted, IsBleCell)
    && SameUsb(sh, sh') && sh'.written == sh.written
  }

  /** ... and counts its writes by their results. */
  lemma MainCounts(sh: Shared, m: MainPc, pick: Block, writeOk: bool)
    requires m.Clearing? ==> Typed(sh, Busy(m.pc), HidKbdClear)
    requires MainLoopStep(sh, m, pick, writeOk).Some?
    ensures var sh' := MainLoopStep(sh, m, pick, writeOk).value.0;
            && Count(sh'.posted, IsGpioCell) == Count(sh.posted, IsGpioCell)
            && Count(sh'.posted, IsBleCell) == Count(sh.posted, IsBleCell)
            && sh'.inFlight == sh.inFlight + Bit(m.Write? && writeOk)
            && sh'.failedWrites == sh.failedWrites + Bit(m.Write? && !writeOk)
            && |sh'.written| == |sh.written| + Bit(m.Write?)
  {
    if m.Clearing? {
      ClearingCounts(sh, m.pc, pick);
    }
  }

  lemma StepCounts(s: State, a: Action)
    requires FlowInv(s) && Step(s, a).Some?
    ensures var t := Step(s, a).value;
            && Gpios(t) == Gpios(s) + Bit(IsPressGpio(a)) && Bles(t) == Bles(s) + Bit(IsPressBle(a))
            && t.sh.inFlight + Bit(IsInReady(a)) == s.sh.inFlight + Bit(a.MainStep? && a.writeOk && s.main.Write?)
            && t.sh.failedWrites == s.sh.failedWrites + Bit(a.MainStep? && !a.writeOk && s.main.Write?)
            && |t.sh.written| == |s.sh.written| + Bit(a.MainStep? && s.main.Write?)
  {
    match a
    case GpioStep(pick) => ProducerCounts(s.sh, s.gpio, GpioButton0, pick);
    case BleStep(pick) => ProducerCounts(s.sh, s.ble, BleBtn, pick);
    case MainStep(pick, writeOk) => MainCounts(s.sh, s.main, pick, writeOk);
    case _ =>
  }

  /**
   * Inputs against outcomes, in every run: each activation of btn0, and each activation of the BLE
   * handler with a byte of 1 to 127, posts one event of its own kind or is on its way to; of main's
   * calls of hid_int_ep_write, which are the reports, the failed ones are counted as such, and each of
   * the others has had its callback or is in flight.
   */
  lemma {:induction false} InputsAreCounted(acts: seq<Action>)
    requires Run(Init(), acts).Some?
    ensures var s := Run(Init(), acts).value;
            && Count(acts, IsPressGpio) == Count(s.sh.posted, IsGpioCell) + Bit(PressPending(s.gpio))
            && Count(acts, IsPressBle) == Count(s.sh.posted, IsBleCell) + Bit(PressPending(s.ble))
            && Writes(acts, true) == Count(acts, IsInReady) + s.sh.inFlight
            && Writes(acts, false) == s.sh.failedWrites
            && Writes(acts, true) + Writes(acts, false) == |s.sh.written|
  {
    if acts == [] {
    } else {
      InputsAreCounted(acts[..|acts| - 1]);
      FlowInEveryRun(acts[..|acts| - 1]);
      StepCounts(Run(Init(), acts[..|acts| - 1]).value, acts[|acts| - 1]);
    }
  }
}
