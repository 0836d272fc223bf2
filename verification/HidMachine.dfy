/**
 * The event engine of bluetooth/hid_locker as an interleaving machine.
 *
 * Three actors share a pool of 255 event blocks and one FIFO: the GPIO interrupt
 * handler, the BLE event handler and the main loop. One action is one statement of
 * one actor, or one USB "in ready" callback; any interleaving of them is a run.
 */
module HidMachine {
  import opened Kernel

  const FIFO_ELEM_COUNT: nat := 255

  type Block = nat

  /** The event type stored in a block; a block that was never written holds Uninitialised. */
  datatype Kind = GpioButton0 | BleBtn | HidKbdClear | Uninitialised

  /** The contents of a block. `sn` is bookkeeping: the event's position among all events ever put. */
  datatype Cell = Cell(kind: Kind, sn: nat)

  predicate IsLock(c: Cell) {
    c.kind == GpioButton0 || c.kind == BleBtn
  }

  predicate IsClear(c: Cell) {
    c.kind == HidKbdClear
  }

  function Locks(cells: seq<Cell>): nat {
    Count(cells, IsLock)
  }

  function Clears(cells: seq<Cell>): nat {
    Count(cells, IsClear)
  }

  /**
   * What all actors share. The last six fields are histories: blocks lost by app_evt_alloc,
   * handler activations, events put, the lock report each clear event was put for (counted from 1),
   * events flushed, and calls of hid_int_ep_write. `doubleFree` is set by freeing a free block.
   */
  datatype Shared = Shared(
    free: set<Block>,
    fifo: seq<Block>,
    mem: map<Block, Cell>,
    evt: bool,
    usb: bool,
    inFlight: nat,
    failedWrites: nat,
    halted: bool,
    doubleFree: bool,
    leaked: set<Block>,
    presses: nat,
    posted: seq<Cell>,
    answers: seq<nat>,
    dropped: seq<Cell>,
    written: seq<Cell>)

  function At(mem: map<Block, Cell>, b: Block): Cell {
    if b in mem then mem[b] else Cell(Uninitialised, 0)
  }

  /** Where an actor stands in "allocate an event, set its type, put it, give evt_sem". */
  datatype PostPc =
    | Try
    | FlushGet
    | FlushFree(b: Block)
    | Retry
    | Null(leak: bool)
    | Have(b: Block)
    | Filled(b: Block)
    | Give

  datatype Producer = Idle | Busy(pc: PostPc)

  datatype MainPc =
    | WaitEvt
    | Get
    | Got(ev: Block)
    | TakeUsb(ev: Block, cell: Cell)
    | Write(ev: Block, cell: Cell)
    | Clearing(ev: Block, pc: PostPc)
    | Free(ev: Block)

  datatype State = State(sh: Shared, gpio: Producer, ble: Producer, main: MainPc)

  /** `pick` is the block the pool hands out when the statement allocates. */
  datatype Action =
    | PressGpio
    | BleEvent(btnVal: nat)
    | GpioStep(pick: Block)
    | BleStep(pick: Block)
    | MainStep(pick: Block, writeOk: bool)
    | InReady

  datatype PostResult = Blocked | More(sh: Shared, pc: PostPc) | Done(sh: Shared)

  /** k_mem_pool_free */
  function FreeBlock(sh: Shared, b: Block): Shared {
    if b in sh.free then sh.(doubleFree := true) else sh.(free := sh.free + {b})
  }

  /** k_fifo_put, with the bookkeeping of the put. */
  function Put(sh: Shared, b: Block): Shared {
    var cell := Cell(At(sh.mem, b).kind, |sh.posted|);
    sh.(fifo := sh.fifo + [b],
        mem := sh.mem[b := cell],
        posted := sh.posted + [cell],
        answers := if IsClear(cell) then sh.answers + [Locks(sh.written)] else sh.answers)
  }

  /** One statement of app_evt_alloc or of its callers' "set type, put, give". */
  function PostStep(sh: Shared, pc: PostPc, kind: Kind, pick: Block): PostResult {
    match pc
    case Try =>
      if sh.free == {} then More(sh, FlushGet)
      else if pick in sh.free then More(sh.(free := sh.free - {pick}), Have(pick))
      else Blocked
    case FlushGet =>
      if sh.fifo == [] then More(sh, Retry)
      else More(sh.(fifo := sh.fifo[1..], dropped := sh.dropped + [At(sh.mem, sh.fifo[0])]), FlushFree(sh.fifo[0]))
    case FlushFree(b) => More(FreeBlock(sh, b), FlushGet)
    case Retry =>
      if sh.free == {} then More(sh, Null(false))
      else if pick in sh.free then
        More(sh.(free := sh.free - {pick}, leaked := sh.leaked + {pick}), Null(true))
      else Blocked
    case Null(leak) => More(sh.(halted := true), pc)
    case Have(b) => More(sh.(mem := sh.mem[b := Cell(kind, 0)]), Filled(b))
    case Filled(b) => More(Put(sh, b), Give)
    case Give => Done(sh.(evt := true))
  }

  function ProducerStep(sh: Shared, p: Producer, kind: Kind, pick: Block): Option<(Shared, Producer)> {
    if p.Idle? then None
    else match PostStep(sh, p.pc, kind, pick)
         case Blocked => None
         case More(sh', pc') => Some((sh', Busy(pc')))
         case Done(sh') => Some((sh', Idle))
  }

  /** One statement of the loop in main. */
  function MainLoopStep(sh: Shared, m: MainPc, pick: Block, writeOk: bool): Option<(Shared, MainPc)> {
    match m
    case WaitEvt => if sh.evt then Some((sh.(evt := false), Get)) else None
    case Get =>
      if sh.fifo == [] then Some((sh, WaitEvt))
      else Some((sh.(fifo := sh.fifo[1..]), Got(sh.fifo[0])))
    case Got(ev) =>
      var cell := At(sh.mem, ev);
      if cell.kind == Uninitialised then Some((sh, Free(ev))) else Some((sh, TakeUsb(ev, cell)))
    case TakeUsb(ev, cell) => if sh.usb then Some((sh.(usb := false), Write(ev, cell))) else None
    case Write(ev, cell) =>
      var sh' := sh.(written := sh.written + [cell],
                     inFlight := sh.inFlight + (if writeOk then 1 else 0),
                     failedWrites := sh.failedWrites + (if writeOk then 0 else 1));
      Some((sh', if cell.kind == HidKbdClear then Free(ev) else Clearing(ev, Try)))
    case Clearing(ev, pc) =>
      (match PostStep(sh, pc, HidKbdClear, pick)
       case Blocked => None
       case More(sh', pc') => Some((sh', Clearing(ev, pc')))
       case Done(sh') => Some((sh', Free(ev))))
    case Free(ev) => Some((FreeBlock(sh, ev), Get))
  }

  /** `int8_t v1 = event->btn_val; if (v1 > 0)`: the byte is reinterpreted as signed. */
  predicate IsPress(btnVal: nat) {
    0 < btnVal % 256 < 128
  }

  /** None when the action is not enabled. A halted machine (write through a null pointer) takes no step. */
  function Step(s: State, a: Action): Option<State> {
    if s.sh.halted then None
    else match a
         case PressGpio =>
           if s.gpio.Idle? then Some(s.(gpio := Busy(Try), sh := s.sh.(presses := s.sh.presses + 1))) else None
         case BleEvent(v) =>
           if !s.ble.Idle? then None
           else if IsPress(v) then Some(s.(ble := Busy(Try), sh := s.sh.(presses := s.sh.presses + 1)))
           else Some(s)
         case GpioStep(pick) =>
           (match ProducerStep(s.sh, s.gpio, GpioButton0, pick)
            case None => None
            case Some((sh', p')) => Some(s.(sh := sh', gpio := p')))
         case BleStep(pick) =>
           (match ProducerStep(s.sh, s.ble, BleBtn, pick)
            case None => None
            case Some((sh', p')) => Some(s.(sh := sh', ble := p')))
         case MainStep(pick, writeOk) =>
           (match MainLoopStep(s.sh, s.main, pick, writeOk)
            case None => None
            case Some((sh', m')) => Some(s.(sh := sh', main := m')))
         case InReady =>
           if s.sh.inFlight > 0 then Some(s.(sh := s.sh.(usb := true, inFlight := s.sh.inFlight - 1))) else None
  }

  /** evt_sem starts empty, usb_sem starts full, every block is free. */
  function Init(): State {
    State(Shared(Below(FIFO_ELEM_COUNT), [], map[], false, true, 0, 0, false, false, {}, 0, [], [], [], []),
          Idle, Idle, WaitEvt)
  }

  function Run(s: State, acts: seq<Action>): Option<State>
    decreases |acts|
  {
    if acts == [] then Some(s)
    else match Run(s, acts[..|acts| - 1])
         case None => None
         case Some(t) => Step(t, acts[|acts| - 1])
  }

  ghost predicate Reachable(s: State) {
    exists acts :: Run(Init(), acts) == Some(s)
  }

  /** t is reached from s by some run. */
  ghost predicate Reaches(s: State, t: State) {
    exists acts :: Run(s, acts) == Some(t)
  }

  lemma {:induction false} RunConcat(s: State, a: seq<Action>, b: seq<Action>)
    requires Run(s, a).Some?
    ensures Run(s, a + b) == Run(Run(s, a).value, b)
    decreases |b|
  {
    if b == [] {
      assert a + b == a;
    } else {
      RunConcat(s, a, b[..|b| - 1]);
      assert (a + b)[..|a + b| - 1] == a + b[..|b| - 1];
    }
  }

  lemma ReachesTransitive(s: State, t: State, u: State)
    requires Reaches(s, t) && Reaches(t, u)
    ensures Reaches(s, u)
  {
    var a :| Run(s, a) == Some(t);
    var b :| Run(t, b) == Some(u);
    RunConcat(s, a, b);
  }

  /** A stretch of a run, with the states in between. */
  ghost predicate Chain(states: seq<State>, acts: seq<Action>) {
    && |states| == |acts| + 1
    && forall i {:trigger acts[i]} :: 0 <= i < |acts| ==> Step(states[i], acts[i]) == Some(states[i + 1])
  }

  lemma {:induction false} ChainRuns(states: seq<State>, acts: seq<Action>)
    requires Chain(states, acts)
    ensures Run(states[0], acts) == Some(states[|acts|])
    ensures Reaches(states[0], states[|acts|])
    decreases |acts|
  {
    if acts == [] {
    } else {
      var n := |acts| - 1;
      assert forall i :: 0 <= i < n ==> acts[..n][i] == acts[i];
      ChainRuns(states[..n + 1], acts[..n]);
    }
  }
}
