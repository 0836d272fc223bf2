/** The closed forms of undisturbed executions are runs of the interleaving machine. */
module HidRuns {
  import opened Kernel
  import opened HidMachine
  import opened HidReports
  import opened HidSequential
  import opened HidDrain

  /** Who runs the posting routine: btn0, ble_event_handler, or clear_kbd_report with main's event `ev` in hand. */
  datatype Actor = Gpio | Ble | Main(ev: Block)

  function KindOf(who: Actor): Kind {
    match who
    case Gpio => GpioButton0
    case Ble => BleBtn
    case Main(_) => HidKbdClear
  }

  /** The actor is at `pc` of the posting routine. */
  function Posting(s: State, who: Actor, sh: Shared, pc: PostPc): State {
    match who
    case Gpio => s.(sh := sh, gpio := Busy(pc))
    case Ble => s.(sh := sh, ble := Busy(pc))
    case Main(ev) => s.(sh := sh, main := Clearing(ev, pc))
  }

  /** The actor is past it. */
  function Posted(s: State, who: Actor, sh: Shared): State {
    match who
    case Gpio => s.(sh := sh, gpio := Idle)
    case Ble => s.(sh := sh, ble := Idle)
    case Main(ev) => s.(sh := sh, main := Free(ev))
  }

  lemma OneStep(s: State, a: Action, t: State)
    requires Step(s, a) == Some(t)
    ensures Reaches(s, t)
  {
    ChainRuns([s, t], [a]);
  }

  lemma ReachesSelf(s: State)
    ensures Reaches(s, s)
  {
    assert Run(s, []) == Some(s);
  }

  function PostAction(who: Actor, pick: Block): Action {
    match who
    case Gpio => GpioStep(pick)
    case Ble => BleStep(pick)
    case Main(_) => MainStep(pick, true)
  }

  /** One statement of the posting routine is one step, whoever runs it. */
  lemma PostStepIsStep(s: State, who: Actor, sh: Shared, pc: PostPc, pick: Block)
    requires !sh.halted
    ensures Step(Posting(s, who, sh, pc), PostAction(who, pick))
            == match PostStep(sh, pc, KindOf(who), pick)
               case Blocked => None
               case More(sh', pc') => Some(Posting(s, who, sh', pc'))
               case Done(sh') => Some(Posted(s, who, sh'))
  {
  }

  lemma Goes(s: State, who: Actor, sh: Shared, pc: PostPc, pick: Block, sh': Shared, pc': PostPc)
    requires !sh.halted && PostStep(sh, pc, KindOf(who), pick) == More(sh', pc')
    ensures Reaches(Posting(s, who, sh, pc), Posting(s, who, sh', pc'))
  {
    PostStepIsStep(s, who, sh, pc, pick);
    OneStep(Posting(s, who, sh, pc), PostAction(who, pick), Posting(s, who, sh', pc'));
  }

  /** The posting routine with a block to hand out. */
  lemma PostEventIsRun(s: State, who: Actor, sh: Shared, b: Block)
    requires b in sh.free && !sh.halted
    ensures Reaches(Posting(s, who, sh, Try), Posted(s, who, PostEvent(sh, b, KindOf(who))))
  {
    var sh1 := Allocated(sh, b);
    var sh2 := sh1.(mem := sh1.mem[b := Cell(KindOf(who), 0)]);
    var sh3 := Put(sh2, b);
    var start, end := Posting(s, who, sh, Try), Posted(s, who, PostEvent(sh, b, KindOf(who)));
    Goes(s, who, sh, Try, b, sh1, Have(b));
    Goes(s, who, sh1, Have(b), b, sh2, Filled(b));
    ReachesTransitive(start, Posting(s, who, sh1, Have(b)), Posting(s, who, sh2, Filled(b)));
    Goes(s, who, sh2, Filled(b), b, sh3, Give);
    ReachesTransitive(start, Posting(s, who, sh2, Filled(b)), Posting(s, who, sh3, Give));
    PostStepIsStep(s, who, sh3, Give, b);
    OneStep(Posting(s, who, sh3, Give), PostAction(who, b), end);
    ReachesTransitive(start, Posting(s, who, sh3, Give), end);
  }

  /** A FIFO of distinct blocks that are not free, without its head. */
  lemma HeadFreed(fifo: seq<Block>, free: set<Block>)
    requires fifo != [] && Distinct(fifo) && free !! BlockSet(fifo)
    ensures fifo[0] !in free && Distinct(fifo[1..]) && free + {fifo[0]} !! BlockSet(fifo[1..])
    ensures free + {fifo[0]} + BlockSet(fifo[1..]) == free + BlockSet(fifo)
  {
    assert fifo[0] in BlockSet(fifo);
    assert fifo == [fifo[0]] + fifo[1..];
  }

  lemma HeadDropped(sh: Shared, free: set<Block>, dropped: seq<Cell>)
    requires sh.fifo != []
    ensures var sh' := sh.(fifo := sh.fifo[1..], free := free, dropped := dropped + [At(sh.mem, sh.fifo[0])]);
            sh'.dropped + Contents(sh') == dropped + Contents(sh)
  {
    var sh' := sh.(fifo := sh.fifo[1..], free := free, dropped := dropped + [At(sh.mem, sh.fifo[0])]);
    assert Contents(sh) == [At(sh.mem, sh.fifo[0])] + Contents(sh');
  }

  /** One pass of the flush loop. */
  lemma FlushFirst(sh: Shared, kind: Kind) returns (popped: Shared, sh': Shared)
    requires sh.fifo != [] && Distinct(sh.fifo) && sh.free !! BlockSet(sh.fifo)
    ensures PostStep(sh, FlushGet, kind, 0) == More(popped, FlushFree(sh.fifo[0]))
    ensures PostStep(popped, FlushFree(sh.fifo[0]), kind, 0) == More(sh', FlushGet)
    ensures sh'.fifo == sh.fifo[1..] && Distinct(sh'.fifo) && sh'.free !! BlockSet(sh'.fifo)
    ensures popped.halted == sh'.halted == sh.halted && FlushAll(sh') == FlushAll(sh)
  {
    var b := sh.fifo[0];
    HeadFreed(sh.fifo, sh.free);
    HeadDropped(sh, sh.free + {b}, sh.dropped);
    popped := sh.(fifo := sh.fifo[1..], dropped := sh.dropped + [At(sh.mem, b)]);
    sh' := FreeBlock(popped, b);
  }

  /** app_evt_flush, for a FIFO of any length. */
  lemma {:induction false} FlushIsRun(s: State, who: Actor, sh: Shared)
    requires !sh.halted && Distinct(sh.fifo) && sh.free !! BlockSet(sh.fifo)
    ensures Reaches(Posting(s, who, sh, FlushGet), Posting(s, who, FlushAll(sh), Retry))
    decreases |sh.fifo|
  {
    if sh.fifo == [] {
      assert sh.free + BlockSet([]) == sh.free && sh.dropped + Contents(sh) == sh.dropped;
      Goes(s, who, sh, FlushGet, 0, FlushAll(sh), Retry);
    } else {
      var popped, sh' := FlushFirst(sh, KindOf(who));
      var b := sh.fifo[0];
      var start, next := Posting(s, who, sh, FlushGet), Posting(s, who, sh', FlushGet);
      Goes(s, who, sh, FlushGet, 0, popped, FlushFree(b));
      Goes(s, who, popped, FlushFree(b), 0, sh', FlushGet);
      ReachesTransitive(start, Posting(s, who, popped, FlushFree(b)), next);
      FlushIsRun(s, who, sh');
      ReachesTransitive(start, next, Posting(s, who, FlushAll(sh), Retry));
    }
  }

  /** The retried allocation, with the block it loses if the flush freed one. */
  lemma RetryIsRun(s: State, who: Actor, sh: Shared, failed: Shared)
    requires !sh.halted
    requires if sh.free == {} then failed == sh else exists b :: b in sh.free && failed == Lost(sh, b)
    ensures Reaches(Posting(s, who, sh, Retry), Posting(s, who, failed.(halted := true), Null(sh.free != {})))
  {
    var leak := sh.free != {};
    var pick: Block := 0;
    if leak {
      pick :| pick in sh.free && failed == Lost(sh, pick);
    }
    Goes(s, who, sh, Retry, pick, failed, Null(leak));
    Goes(s, who, failed, Null(leak), 0, failed.(halted := true), Null(leak));
    ReachesTransitive(Posting(s, who, sh, Retry), Posting(s, who, failed, Null(leak)),
                      Posting(s, who, failed.(halted := true), Null(leak)));
  }

  /** The posting routine on an empty pool: whether or not the retry succeeds, the null pointer halts the machine. */
  lemma FailedPostIsRun(s: State, who: Actor, sh: Shared, failed: Shared)
    requires sh.free == {} && !sh.halted && Distinct(sh.fifo) && AllocationFailed(sh, failed)
    ensures Reaches(Posting(s, who, sh, Try), Posting(s, who, failed.(halted := true), Null(FlushAll(sh).free != {})))
  {
    Goes(s, who, sh, Try, 0, sh, FlushGet);
    FlushIsRun(s, who, sh);
    var start, flushed := Posting(s, who, sh, Try), Posting(s, who, FlushAll(sh), Retry);
    ReachesTransitive(start, Posting(s, who, sh, FlushGet), flushed);
    RetryIsRun(s, who, FlushAll(sh), failed);
    ReachesTransitive(start, flushed, Posting(s, who, failed.(halted := true), Null(FlushAll(sh).free != {})));
  }

  /** t is s with shared state sh, the actor being past the posting routine or stopped in it. */
  ghost predicate Ends(s: State, who: Actor, sh: Shared, t: State) {
    if sh.halted then exists leak :: t == Posting(s, who, sh, Null(leak)) else t == Posted(s, who, sh)
  }

  /** What a caller of app_evt_alloc may do is what some run does. */
  lemma PostOutcomeIsRun(s: State, who: Actor, sh: Shared, sh': Shared) returns (t: State)
    requires !sh.halted && Distinct(sh.fifo) && PostOutcome(sh, sh', KindOf(who))
    ensures Reaches(Posting(s, who, sh, Try), t) && Ends(s, who, sh', t)
  {
    if sh.free != {} {
      var b :| b in sh.free && sh' == PostEvent(sh, b, KindOf(who));
      PostEventIsRun(s, who, sh, b);
      t := Posted(s, who, sh');
    } else {
      var failed :| AllocationFailed(sh, failed) && sh' == failed.(halted := true);
      FailedPostIsRun(s, who, sh, failed);
      t := Posting(s, who, sh', Null(FlushAll(sh).free != {}));
    }
  }

  /** An activation of btn0. */
  lemma Btn0IsRun(s: State, sh': Shared) returns (t: State)
    requires s.gpio.Idle? && !s.sh.halted && Distinct(s.sh.fifo)
    requires PostOutcome(s.sh.(presses := s.sh.presses + 1), sh', GpioButton0)
    ensures Reaches(s, t) && Ends(s, Gpio, sh', t)
  {
    var sh := s.sh.(presses := s.sh.presses + 1);
    OneStep(s, PressGpio, Posting(s, Gpio, sh, Try));
    t := PostOutcomeIsRun(s, Gpio, sh, sh');
    ReachesTransitive(s, Posting(s, Gpio, sh, Try), t);
  }

  /** An activation of ble_event_handler. */
  lemma BleEventIsRun(s: State, btnVal: nat, sh': Shared) returns (t: State)
    requires s.ble.Idle? && !s.sh.halted && Distinct(s.sh.fifo) && btnVal < 256
    requires if 0 < btnVal < 128 then PostOutcome(s.sh.(presses := s.sh.presses + 1), sh', BleBtn) else sh' == s.sh
    ensures Reaches(s, t) && Ends(s, Ble, sh', t)
  {
    var sh := s.sh.(presses := s.sh.presses + 1);
    if 0 < btnVal < 128 {
      OneStep(s, BleEvent(btnVal), Posting(s, Ble, sh, Try));
      t := PostOutcomeIsRun(s, Ble, sh, sh');
      ReachesTransitive(s, Posting(s, Ble, sh, Try), t);
    } else {
      OneStep(s, BleEvent(btnVal), s);
      t := s;
    }
  }

  /** Where main is after the report of `cell`. */
  function Sent(ev: Block, cell: Cell): MainPc {
    if IsClear(cell) then Free(ev) else Clearing(ev, Try)
  }

  lemma TakesUsb(s: State, ev: Block, cell: Cell)
    requires s.main == TakeUsb(ev, cell) && s.sh.usb && !s.sh.halted
    ensures Reaches(s, s.(main := Write(ev, cell), sh := s.sh.(usb := false)))
  {
    OneStep(s, MainStep(0, true), s.(main := Write(ev, cell), sh := s.sh.(usb := false)));
  }

  lemma Writes(s: State, ev: Block, cell: Cell)
    requires s.main == Write(ev, cell) && !s.sh.usb && s.sh.inFlight == 0 && !s.sh.halted
    ensures Reaches(s, s.(main := Sent(ev, cell), sh := SendReport(s.sh, cell)))
  {
    OneStep(s, MainStep(0, true), s.(main := Sent(ev, cell), sh := SendReport(s.sh, cell)));
  }

  /** With the endpoint ready, main takes usb_sem and writes the report. */
  lemma WriteIsRun(s: State, ev: Block, cell: Cell)
    requires s.main == TakeUsb(ev, cell) && s.sh.usb && s.sh.inFlight == 0 && !s.sh.halted
    ensures Reaches(s, s.(main := Sent(ev, cell), sh := SendReport(s.sh, cell)))
  {
    var s1 := s.(main := Write(ev, cell), sh := s.sh.(usb := false));
    TakesUsb(s, ev, cell);
    Writes(s1, ev, cell);
    ReachesTransitive(s, s1, s.(main := Sent(ev, cell), sh := SendReport(s.sh, cell)));
  }

  /** Sending a report: if the previous one is still in flight, its callback comes first. */
  lemma SendReportIsRun(s: State, ev: Block)
    requires s.main == Got(ev) && Bit(s.sh.usb) + s.sh.inFlight == 1 && !s.sh.halted
    requires IsLock(At(s.sh.mem, ev)) || IsClear(At(s.sh.mem, ev))
    ensures var cell := At(s.sh.mem, ev); Reaches(s, s.(main := Sent(ev, cell), sh := SendReport(s.sh, cell)))
  {
    var cell := At(s.sh.mem, ev);
    var s0 := s.(main := TakeUsb(ev, cell));
    OneStep(s, MainStep(0, true), s0);
    var s1 := s0.(sh := s.sh.(usb := true, inFlight := 0));
    if s.sh.usb {
      ReachesSelf(s0);
    } else {
      OneStep(s0, InReady, s1);
    }
    ReachesTransitive(s, s0, s1);
    WriteIsRun(s1, ev, cell);
    ReachesTransitive(s, s1, s.(main := Sent(ev, cell), sh := SendReport(s.sh, cell)));
  }

  /** Main has sent the report of the event at the head of sh0's FIFO. */
  function AfterSend(sh0: Shared): Shared
    requires sh0.fifo != []
  {
    SendReport(sh0.(fifo := sh0.fifo[1..]), At(sh0.mem, sh0.fifo[0]))
  }

  /** Main at `m` with shared state sh, and idle producers. */
  function MainAt(sh: Shared, m: MainPc): State {
    State(sh, Idle, Idle, m)
  }

  ghost predicate EndpointFine(sh: Shared) {
    Bit(sh.usb) + sh.inFlight == 1 && !sh.halted
  }

  lemma HeadIsSent(sh: Shared)
    requires QueueFine(sh) && EndpointFine(sh) && sh.fifo != []
    ensures Reaches(MainAt(sh, Get), MainAt(AfterSend(sh), Sent(sh.fifo[0], Contents(sh)[0])))
  {
    var ev := sh.fifo[0];
    var s1 := MainAt(sh.(fifo := sh.fifo[1..]), Got(ev));
    assert At(s1.sh.mem, ev) == Contents(sh)[0];
    OneStep(MainAt(sh, Get), MainStep(0, true), s1);
    SendReportIsRun(s1, ev);
    ReachesTransitive(MainAt(sh, Get), s1, MainAt(AfterSend(sh), Sent(ev, Contents(sh)[0])));
  }

  lemma Frees(sh: Shared, ev: Block)
    requires !sh.halted
    ensures Reaches(MainAt(sh, Free(ev)), MainAt(FreeBlock(sh, ev), Get))
  {
    OneStep(MainAt(sh, Free(ev)), MainStep(0, true), MainAt(FreeBlock(sh, ev), Get));
  }

  /** One pass of main's inner loop, whether or not a report is still in flight. */
  lemma HandledIsRun(sh: Shared, sh': Shared)
    requires QueueFine(sh) && EndpointFine(sh) && Handled(sh, sh')
    ensures Reaches(MainAt(sh, Get), MainAt(sh', Get))
  {
    var pick :| (IsLock(Contents(sh)[0]) ==> pick in sh.free) && sh' == HandleEvent(sh, pick);
    var ev, sent := sh.fifo[0], AfterSend(sh);
    HeadIsSent(sh);
    var freeing := if IsLock(Contents(sh)[0]) then PostEvent(sent, pick, HidKbdClear) else sent;
    if IsLock(Contents(sh)[0]) {
      PostEventIsRun(MainAt(sent, Clearing(ev, Try)), Main(ev), sent, pick);
      ReachesTransitive(MainAt(sh, Get), MainAt(sent, Clearing(ev, Try)), MainAt(freeing, Free(ev)));
    }
    Frees(freeing, ev);
    ReachesTransitive(MainAt(sh, Get), MainAt(freeing, Free(ev)), MainAt(sh', Get));
  }

  /** What main does when the event at the head is a lock event and the pool is empty. */
  ghost predicate Halts(sh: Shared, sh': Shared) {
    Doomed(sh) && sh'.halted && PostOutcome(AfterSend(sh), sh', HidKbdClear)
  }

  lemma HaltsIsRun(sh: Shared, sh': Shared) returns (m: MainPc)
    requires QueueFine(sh) && EndpointFine(sh) && Halts(sh, sh')
    ensures Reaches(MainAt(sh, Get), MainAt(sh', m))
  {
    var ev, sent := sh.fifo[0], AfterSend(sh);
    HeadIsSent(sh);
    assert forall i, j :: 0 <= i < j < |sent.fifo| ==> sent.fifo[i] == sh.fifo[i + 1] && sent.fifo[j] == sh.fifo[j + 1];
    var t := PostOutcomeIsRun(MainAt(sent, Clearing(ev, Try)), Main(ev), sent, sh');
    m := t.main;
    ReachesTransitive(MainAt(sh, Get), MainAt(sent, Clearing(ev, Try)), t);
  }
}
