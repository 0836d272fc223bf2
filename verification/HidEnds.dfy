/**
 * Without new button events every run ends. Each statement lowers a measure, although handling a lock
 * event puts a clear event back and a flush works through the whole FIFO.
 */
module HidEnds {
  import opened Kernel
  import opened HidMachine
  import opened HidOwnership
  import opened HidReports
  import opened HidBalance
  import opened HidWakeup

  /** The statements that a queued event costs main. */
  function Weight(c: Cell): nat {
    if IsLock(c) then 18 else 6
  }

  function QueueWork(q: seq<Cell>): nat {
    18 * Locks(q) + 6 * Clears(q)
  }

  /** What is left of the posting routine for an event of weight w; 2 pays for the wake-up it gives. */
  function PostWork(pc: PostPc, w: nat): nat {
    match pc
    case Try => w + 6
    case Have(_) => w + 5
    case Filled(_) => w + 4
    case Give => 3
    case FlushFree(_) => 3
    case FlushGet => 2
    case Retry => 1
    case Null(_) => 0
  }

  function ProducerWork(p: Producer): nat {
    if p.Idle? then 0 else PostWork(p.pc, 18)
  }

  function MainWork(sh: Shared, m: MainPc): nat {
    match m
    case WaitEvt => 0
    case Get => 1
    case Got(ev) => Weight(At(sh.mem, ev))
    case TakeUsb(_, cell) => Weight(cell) - 1
    case Write(_, cell) => Weight(cell) - 2
    case Clearing(_, pc) => PostWork(pc, 6) + 2
    case Free(_) => 2
  }

  function SharedWork(sh: Shared): nat {
    QueueWork(Contents(sh)) + 2 * Bit(sh.evt) + sh.inFlight + Bit(!sh.halted)
  }

  function Measure(s: State): nat {
    SharedWork(s.sh) + ProducerWork(s.gpio) + ProducerWork(s.ble) + MainWork(s.sh, s.main)
  }

  lemma QueueWorkAppend(q: seq<Cell>, c: Cell)
    requires IsLock(c) || IsClear(c)
    ensures QueueWork(q + [c]) == QueueWork(q) + Weight(c)
  {
    CountAppend(q, c, IsLock);
    CountAppend(q, c, IsClear);
  }

  lemma QueueWorkPop(q: seq<Cell>)
    requires q != [] && (IsLock(q[0]) || IsClear(q[0]))
    ensures QueueWork(q) == Weight(q[0]) + QueueWork(q[1..])
  {
    CountPop(q, IsLock);
    CountPop(q, IsClear);
  }

  /** The work left after a statement of the posting routine, for an actor that is done with it or not. */
  predicate WorkDrops(sh: Shared, pc: PostPc, w: nat, result: PostResult) {
    match result
    case Blocked => true
    case More(sh', pc') => SharedWork(sh') + PostWork(pc', w) < SharedWork(sh) + PostWork(pc, w)
    case Done(sh') => SharedWork(sh') < SharedWork(sh) + PostWork(pc, w)
  }

  lemma PutWork(sh: Shared, b: Block, kind: Kind)
    requires b !in sh.fifo && At(sh.mem, b).kind == kind && kind != Uninitialised
    ensures SharedWork(Put(sh, b)) == SharedWork(sh) + Weight(Cell(kind, 0))
  {
    var c := Cell(kind, |sh.posted|);
    assert Contents(Put(sh, b)) == Contents(sh) + [c];
    QueueWorkAppend(Contents(sh), c);
  }

  lemma FlushWork(sh: Shared, kind: Kind, pick: Block, w: nat)
    requires forall i :: 0 <= i < |sh.fifo| ==> IsLock(Contents(sh)[i]) || IsClear(Contents(sh)[i])
    ensures WorkDrops(sh, FlushGet, w, PostStep(sh, FlushGet, kind, pick))
  {
    if sh.fifo != [] {
      QueueWorkPop(Contents(sh));
      var sh' := PostStep(sh, FlushGet, kind, pick).sh;
      assert Contents(sh') == Contents(sh)[1..];
    }
  }

  lemma HaveWork(sh: Shared, b: Block, kind: Kind, pick: Block, w: nat)
    requires b !in sh.fifo
    ensures WorkDrops(sh, Have(b), w, PostStep(sh, Have(b), kind, pick))
  {
    assert Contents(sh.(mem := sh.mem[b := Cell(kind, 0)])) == Contents(sh);
  }

  lemma SameQueueSameWork(sh: Shared, sh': Shared)
    requires sh'.fifo == sh.fifo && sh'.mem == sh.mem && sh'.inFlight == sh.inFlight
    ensures SharedWork(sh') == SharedWork(sh) + 2 * Bit(sh'.evt) - 2 * Bit(sh.evt) + Bit(!sh'.halted) - Bit(!sh.halted)
  {
    assert Contents(sh') == Contents(sh);
  }

  /** Statements that touch neither the FIFO nor the memory. */
  lemma QuietWork(sh: Shared, pc: PostPc, kind: Kind, pick: Block, w: nat)
    requires !sh.halted && !pc.Filled? && !pc.FlushGet? && !pc.Have?
    ensures WorkDrops(sh, pc, w, PostStep(sh, pc, kind, pick))
  {
    match PostStep(sh, pc, kind, pick)
    case Blocked =>
    case More(sh', _) => SameQueueSameWork(sh, sh');
    case Done(sh') => SameQueueSameWork(sh, sh');
  }

  lemma PostWorkDrops(sh: Shared, pc: PostPc, kind: Kind, pick: Block)
    requires !sh.halted && kind != Uninitialised && (pc.Filled? ==> At(sh.mem, pc.b).kind == kind)
    requires forall b: Block :: PostHolds(pc, b) ==> b !in sh.fifo
    requires forall i :: 0 <= i < |sh.fifo| ==> IsLock(Contents(sh)[i]) || IsClear(Contents(sh)[i])
    ensures WorkDrops(sh, pc, Weight(Cell(kind, 0)), PostStep(sh, pc, kind, pick))
  {
    assert pc.Filled? || pc.Have? ==> PostHolds(pc, pc.b);
    if pc.Filled? {
      PutWork(sh, pc.b, kind);
    } else if pc.FlushGet? {
      FlushWork(sh, kind, pick, Weight(Cell(kind, 0)));
    } else if pc.Have? {
      HaveWork(sh, pc.b, kind, pick, Weight(Cell(kind, 0)));
    } else {
      QuietWork(sh, pc, kind, pick, Weight(Cell(kind, 0)));
    }
  }

  /** Queued events have a type, and so has the one main is about to report. */
  lemma Typeable(s: State)
    requires FlowInv(s)
    ensures forall i :: 0 <= i < |s.sh.fifo| ==> IsLock(Contents(s.sh)[i]) || IsClear(Contents(s.sh)[i])
    ensures Unwritten(s) != [] ==> IsLock(Unwritten(s)[0]) || IsClear(Unwritten(s)[0])
  {
    var front := s.sh.written + Unwritten(s);
    forall i | 0 <= i < |s.sh.fifo|
      ensures IsLock(Contents(s.sh)[i]) || IsClear(Contents(s.sh)[i])
    {
      assert Pipeline(s)[|front| + i] == Contents(s.sh)[i];
    }
    if Unwritten(s) != [] {
      assert Pipeline(s)[|s.sh.written|] == Unwritten(s)[0];
    }
  }

  /** A producer does not change what main's event costs. */
  lemma MainWorkStays(s: State, p: Producer, kind: Kind, pick: Block)
    requires ProducerStep(s.sh, p, kind, pick).Some?
    requires forall b: Block :: PostHolds(p.pc, b) ==> !MainEvent(s.main, b)
    ensures MainWork(ProducerStep(s.sh, p, kind, pick).value.0, s.main) == MainWork(s.sh, s.main)
  {
    if s.main.Got? {
      PostStepMemory(s.sh, p.pc, kind, pick, s.main.ev);
    }
  }

  lemma ProducerDrops(s: State, p: Producer, kind: Kind, pick: Block)
    requires FlowInv(s) && !s.sh.halted && (p == s.gpio || p == s.ble) && (kind == GpioButton0 || kind == BleBtn)
    requires Typed(s.sh, p, kind) && ProducerStep(s.sh, p, kind, pick).Some?
    ensures var (sh', p') := ProducerStep(s.sh, p, kind, pick).value;
            SharedWork(sh') + ProducerWork(p') + MainWork(sh', s.main)
            < SharedWork(s.sh) + ProducerWork(p) + MainWork(s.sh, s.main)
  {
    forall b: Block | PostHolds(p.pc, b)
      ensures b !in s.sh.fifo && !MainEvent(s.main, b)
    {
      HolderIsAlone(s, b);
    }
    Typeable(s);
    PostWorkDrops(s.sh, p.pc, kind, pick);
    MainWorkStays(s, p, kind, pick);
  }

  lemma ClearingDrops(s: State, pick: Block, writeOk: bool)
    requires FlowInv(s) && !s.sh.halted && s.main.Clearing? && MainLoopStep(s.sh, s.main, pick, writeOk).Some?
    ensures var (sh', m') := MainLoopStep(s.sh, s.main, pick, writeOk).value;
            SharedWork(sh') + MainWork(sh', m') < SharedWork(s.sh) + MainWork(s.sh, s.main)
  {
    forall b: Block | PostHolds(s.main.pc, b)
      ensures b !in s.sh.fifo
    {
      HolderIsAlone(s, b);
    }
    Typeable(s);
    PostWorkDrops(s.sh, s.main.pc, HidKbdClear, pick);
  }

  lemma GetDrops(s: State)
    requires FlowInv(s) && s.main.Get? && s.sh.fifo != []
    ensures var sh' := s.sh.(fifo := s.sh.fifo[1..]);
            SharedWork(sh') + MainWork(sh', Got(s.sh.fifo[0])) < SharedWork(s.sh) + MainWork(s.sh, Get)
  {
    Typeable(s);
    QueueWorkPop(Contents(s.sh));
    assert Contents(s.sh.(fifo := s.sh.fifo[1..])) == Contents(s.sh)[1..];
  }

  lemma WriteDrops(sh: Shared, ev: Block, cell: Cell, pick: Block, writeOk: bool)
    requires IsLock(cell) || IsClear(cell)
    ensures MainLoopStep(sh, Write(ev, cell), pick, writeOk).Some?
    ensures var (sh', m') := MainLoopStep(sh, Write(ev, cell), pick, writeOk).value;
            SharedWork(sh') + MainWork(sh', m') < SharedWork(sh) + MainWork(sh, Write(ev, cell))
  {
    var (sh', m') := MainLoopStep(sh, Write(ev, cell), pick, writeOk).value;
    assert Contents(sh') == Contents(sh);
  }

  lemma LoopDrops(s: State, pick: Block, writeOk: bool)
    requires FlowInv(s) && !s.main.Clearing? && !(s.main.Get? && s.sh.fifo != [])
    requires MainLoopStep(s.sh, s.main, pick, writeOk).Some?
    ensures var (sh', m') := MainLoopStep(s.sh, s.main, pick, writeOk).value;
            SharedWork(sh') + MainWork(sh', m') < SharedWork(s.sh) + MainWork(s.sh, s.main)
  {
    Typeable(s);
    if s.main.Write? {
      WriteDrops(s.sh, s.main.ev, s.main.cell, pick, writeOk);
    } else {
      var (sh', m') := MainLoopStep(s.sh, s.main, pick, writeOk).value;
      assert Contents(sh') == Contents(s.sh);
    }
  }

  /** A button event: a press, or any BLE event. */
  predicate IsButton(a: Action) {
    a.PressGpio? || a.BleEvent?
  }

  /** Every step but a button event lowers the measure, in every interleaving and on every path. */
  lemma MeasureDrops(s: State, a: Action)
    requires FlowInv(s) && Step(s, a).Some? && !IsButton(a)
    ensures Measure(Step(s, a).value) < Measure(s)
  {
    match a
    case GpioStep(pick) => ProducerDrops(s, s.gpio, GpioButton0, pick);
    case BleStep(pick) => ProducerDrops(s, s.ble, BleBtn, pick);
    case MainStep(pick, writeOk) =>
      if s.main.Clearing? {
        ClearingDrops(s, pick, writeOk);
      } else if s.main.Get? && s.sh.fifo != [] {
        GetDrops(s);
      } else {
        LoopDrops(s, pick, writeOk);
      }
    case InReady => assert Contents(Step(s, a).value.sh) == Contents(s.sh);
  }

  ghost predicate NoButton(acts: seq<Action>) {
    forall a :: a in acts ==> !IsButton(a)
  }

  lemma {:induction false} RunsAreBounded(s: State, acts: seq<Action>)
    requires FlowInv(s) && NoButton(acts) && Run(s, acts).Some?
    ensures FlowInv(Run(s, acts).value) && Measure(Run(s, acts).value) + |acts| <= Measure(s)
  {
    if acts == [] {
    } else {
      var t, a := Run(s, acts[..|acts| - 1]).value, acts[|acts| - 1];
      RunsAreBounded(s, acts[..|acts| - 1]);
      FlowStep(t, a);
      MeasureDrops(t, a);
    }
  }

  lemma CanStep(s: State) returns (a: Action)
    requires !Quiescent(s)
    ensures !IsButton(a) && Step(s, a).Some?
  {
    if pick: Block :| Step(s, GpioStep(pick)).Some? {
      a := GpioStep(pick);
    } else if pick: Block :| Step(s, BleStep(pick)).Some? {
      a := BleStep(pick);
    } else if pick: Block, ok: bool :| Step(s, MainStep(pick, ok)).Some? {
      a := MainStep(pick, ok);
    } else {
      a := InReady;
    }
  }

  lemma OneMore(s: State, a: Action, acts: seq<Action>, t: State)
    requires Step(s, a).Some? && Run(Step(s, a).value, acts) == Some(t)
    ensures Run(s, [a] + acts) == Some(t)
  {
    assert [a][..0] == [];
    RunConcat(s, [a], acts);
  }

  lemma RunToEnd(s: State) returns (acts: seq<Action>, t: State)
    requires FlowInv(s)
    ensures NoButton(acts) && Run(s, acts) == Some(t) && Quiescent(t)
    decreases Measure(s)
  {
    if Quiescent(s) {
      acts, t := [], s;
    } else {
      var a := CanStep(s);
      FlowStep(s, a);
      MeasureDrops(s, a);
      acts, t := RunToEnd(Step(s, a).value);
      OneMore(s, a, acts, t);
      acts := [a] + acts;
    }
  }

  /**
   * From every reachable state, a run without new button events has at most Measure(s) steps, whatever
   * the interleaving, and goes on until it reaches one of the three ends: a halt, a wedged endpoint,
   * or all work done.
   */
  lemma EveryRunEnds(s: State, acts: seq<Action>, t: State)
    requires Reachable(s) && NoButton(acts) && Run(s, acts) == Some(t)
    ensures |acts| <= Measure(s)
    ensures Quiescent(t) ==> t.sh.halted || (t.main.TakeUsb? && t.sh.failedWrites == 1) || AtRest(t)
    ensures exists more, u :: NoButton(more) && Run(t, more) == Some(u) && Quiescent(u)
  {
    CountsHold(s);
    RunsAreBounded(s, acts);
    var before :| Run(Init(), before) == Some(s);
    RunConcat(Init(), before, acts);
    if Quiescent(t) {
      QuiescentRuns(t);
    }
    var more, u := RunToEnd(t);
  }
}
