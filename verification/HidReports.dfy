/**
 * From button presses to HID reports: events leave the FIFO in the order they were put, every
 * clear report answers one earlier lock report, and what is lost is exactly what a flush dropped.
 */
module HidReports {
  import opened Kernel
  import opened HidMachine
  import opened HidOwnership

  /** The queued events, oldest first. */
  function Contents(sh: Shared): (cells: seq<Cell>)
    ensures |cells| == |sh.fifo|
  {
    seq(|sh.fifo|, i requires 0 <= i < |sh.fifo| => At(sh.mem, sh.fifo[i]))
  }

  /** The event main has taken but not reported yet. */
  function Unwritten(s: State): seq<Cell> {
    match s.main
    case Got(ev) => [At(s.sh.mem, ev)]
    case TakeUsb(_, cell) => [cell]
    case Write(_, cell) => [cell]
    case _ => []
  }

  /** Every event that was put and not dropped: reported, in hand, or queued. */
  function Pipeline(s: State): seq<Cell> {
    s.sh.written + Unwritten(s) + Contents(s.sh)
  }

  predicate BeforePut(pc: PostPc) {
    !pc.Give?
  }

  /** A lock report was written and its clear event is not in the FIFO yet. */
  predicate ClearPending(m: MainPc) {
    m.Clearing? && BeforePut(m.pc)
  }

  predicate PressPending(p: Producer) {
    p.Busy? && BeforePut(p.pc)
  }

  /** Every event of `pipe` is one of `posted`, and they come in the order they were put. */
  ghost predicate InPostingOrder(pipe: seq<Cell>, posted: seq<Cell>) {
    && (forall i :: 0 <= i < |pipe| ==> pipe[i].sn < |posted| && posted[pipe[i].sn] == pipe[i])
    && (forall i, j :: 0 <= i < j < |pipe| ==> pipe[i].sn < pipe[j].sn)
  }

  /** Every event put is in `pipe` or in `dropped`, as often as it was put, and nothing else is. */
  ghost predicate SameEvents(pipe: seq<Cell>, dropped: seq<Cell>, posted: seq<Cell>) {
    forall c: Cell :: Occurs(pipe, c) + Occurs(dropped, c) == Occurs(posted, c)
  }

  lemma SameAppend(pipe: seq<Cell>, dropped: seq<Cell>, posted: seq<Cell>, c: Cell)
    requires SameEvents(pipe, dropped, posted)
    ensures SameEvents(pipe + [c], dropped, posted + [c])
  {
    forall d: Cell
      ensures Occurs(pipe + [c], d) + Occurs(dropped, d) == Occurs(posted + [c], d)
    {
      OccursAppend(pipe, c, d);
      OccursAppend(posted, c, d);
    }
  }

  lemma SameDrop(pipe: seq<Cell>, dropped: seq<Cell>, posted: seq<Cell>, i: nat)
    requires SameEvents(pipe, dropped, posted) && i < |pipe|
    ensures SameEvents(pipe[..i] + pipe[i + 1..], dropped + [pipe[i]], posted)
  {
    forall d: Cell
      ensures Occurs(pipe[..i] + pipe[i + 1..], d) + Occurs(dropped + [pipe[i]], d) == Occurs(posted, d)
    {
      OccursDrop(pipe, i, d);
      OccursAppend(dropped, pipe[i], d);
    }
  }

  /** `pipe` is what remains of `posted`, in order, after `dropped` was taken out. */
  ghost predicate Flows(pipe: seq<Cell>, posted: seq<Cell>, dropped: seq<Cell>) {
    && (forall i :: 0 <= i < |posted| ==> posted[i].sn == i && (IsLock(posted[i]) || IsClear(posted[i])))
    && InPostingOrder(pipe, posted)
    && SameEvents(pipe, dropped, posted)
    && |pipe| + |dropped| == |posted|
    && Clears(pipe) + Clears(dropped) == Clears(posted)
  }

  /** A block is put only with its event type written. */
  ghost predicate Typed(sh: Shared, p: Producer, kind: Kind) {
    p.Busy? && p.pc.Filled? ==> At(sh.mem, p.pc.b).kind == kind
  }

  ghost predicate AllTyped(s: State) {
    && Typed(s.sh, s.gpio, GpioButton0) && Typed(s.sh, s.ble, BleBtn)
    && (s.main.Clearing? ==> Typed(s.sh, Busy(s.main.pc), HidKbdClear))
  }

  ghost predicate FlowInv(s: State) {
    Owned(s) && AllTyped(s) && Flows(Pipeline(s), s.sh.posted, s.sh.dropped)
  }

  lemma FlowsAppend(pipe: seq<Cell>, posted: seq<Cell>, dropped: seq<Cell>, c: Cell)
    requires Flows(pipe, posted, dropped)
    requires c.sn == |posted| && (IsLock(c) || IsClear(c))
    ensures Flows(pipe + [c], posted + [c], dropped)
  {
    SameAppend(pipe, dropped, posted, c);
    CountAppend(pipe, c, IsClear);
    CountAppend(posted, c, IsClear);
  }

  lemma CountDrop(cells: seq<Cell>, i: nat)
    requires i < |cells|
    ensures Clears(cells) == Clears(cells[..i] + cells[i + 1..]) + Bit(IsClear(cells[i]))
  {
    assert cells == cells[..i] + cells[i..];
    CountConcat(cells[..i], cells[i..], IsClear);
    CountPop(cells[i..], IsClear);
    assert cells[i..][1..] == cells[i + 1..];
    CountConcat(cells[..i], cells[i + 1..], IsClear);
  }

  lemma OrderDrop(pipe: seq<Cell>, posted: seq<Cell>, i: nat)
    requires InPostingOrder(pipe, posted) && i < |pipe|
    ensures InPostingOrder(pipe[..i] + pipe[i + 1..], posted)
  {
    var pipe' := pipe[..i] + pipe[i + 1..];
    assert forall k :: 0 <= k < |pipe'| ==> pipe'[k] == if k < i then pipe[k] else pipe[k + 1];
  }

  lemma FlowsDrop(pipe: seq<Cell>, posted: seq<Cell>, dropped: seq<Cell>, i: nat)
    requires Flows(pipe, posted, dropped) && i < |pipe|
    ensures Flows(pipe[..i] + pipe[i + 1..], posted, dropped + [pipe[i]])
  {
    OrderDrop(pipe, posted, i);
    SameDrop(pipe, dropped, posted, i);
    CountDrop(pipe, i);
    CountAppend(dropped, pipe[i], IsClear);
  }

  /** What one statement of the posting routine does to the queued events. */
  ghost predicate Posting(sh: Shared, sh': Shared, pc: PostPc) {
    match pc
    case Filled(b) =>
      var c := Cell(At(sh.mem, b).kind, |sh.posted|);
      Contents(sh') == Contents(sh) + [c] && sh'.posted == sh.posted + [c] && sh'.dropped == sh.dropped
    case FlushGet =>
      sh'.posted == sh.posted &&
      if sh.fifo == [] then Contents(sh') == Contents(sh) && sh'.dropped == sh.dropped
      else Contents(sh') == Contents(sh)[1..] && sh'.dropped == sh.dropped + [Contents(sh)[0]]
    case _ => Contents(sh') == Contents(sh) && sh'.posted == sh.posted && sh'.dropped == sh.dropped
  }

  lemma PostStepPosts(sh: Shared, pc: PostPc, kind: Kind, pick: Block)
    requires forall b: Block :: PostHolds(pc, b) ==> b !in sh.fifo
    ensures match PostStep(sh, pc, kind, pick)
            case Blocked => true
            case More(sh', _) => Posting(sh, sh', pc)
            case Done(sh') => Posting(sh, sh', pc)
  {
    assert pc.Filled? || pc.Have? ==> PostHolds(pc, pc.b);
  }

  lemma PutFlows(front: seq<Cell>, sh: Shared, sh': Shared, b: Block)
    requires Flows(front + Contents(sh), sh.posted, sh.dropped) && Posting(sh, sh', Filled(b))
    requires At(sh.mem, b).kind != Uninitialised
    ensures Flows(front + Contents(sh'), sh'.posted, sh'.dropped)
  {
    var c := Cell(At(sh.mem, b).kind, |sh.posted|);
    FlowsAppend(front + Contents(sh), sh.posted, sh.dropped, c);
    assert front + Contents(sh) + [c] == front + (Contents(sh) + [c]);
  }

  lemma FlushFlows(front: seq<Cell>, sh: Shared, sh': Shared)
    requires Flows(front + Contents(sh), sh.posted, sh.dropped) && Posting(sh, sh', FlushGet) && sh.fifo != []
    ensures Flows(front + Contents(sh'), sh'.posted, sh'.dropped)
  {
    var pipe := front + Contents(sh);
    FlowsDrop(pipe, sh.posted, sh.dropped, |front|);
    assert pipe[..|front|] + pipe[|front| + 1..] == front + Contents(sh)[1..];
  }

  lemma PostingFlows(front: seq<Cell>, sh: Shared, sh': Shared, pc: PostPc)
    requires Flows(front + Contents(sh), sh.posted, sh.dropped) && Posting(sh, sh', pc)
    requires pc.Filled? ==> At(sh.mem, pc.b).kind != Uninitialised
    ensures Flows(front + Contents(sh'), sh'.posted, sh'.dropped)
  {
    if pc.Filled? {
      PutFlows(front, sh, sh', pc.b);
    } else if pc.FlushGet? && sh.fifo != [] {
      FlushFlows(front, sh, sh');
    }
  }

  /** The same, seen on the whole pipeline `front + Contents(sh)`. */
  lemma PostStepFlows(front: seq<Cell>, sh: Shared, pc: PostPc, kind: Kind, pick: Block)
    requires Flows(front + Contents(sh), sh.posted, sh.dropped)
    requires forall b: Block :: PostHolds(pc, b) ==> b !in sh.fifo
    requires kind != Uninitialised && (pc.Filled? ==> At(sh.mem, pc.b).kind == kind)
    ensures match PostStep(sh, pc, kind, pick)
            case Blocked => true
            case More(sh', _) => Flows(front + Contents(sh'), sh'.posted, sh'.dropped)
            case Done(sh') => Flows(front + Contents(sh'), sh'.posted, sh'.dropped)
  {
    PostStepPosts(sh, pc, kind, pick);
    match PostStep(sh, pc, kind, pick)
    case Blocked =>
    case More(sh', _) => PostingFlows(front, sh, sh', pc);
    case Done(sh') => PostingFlows(front, sh, sh', pc);
  }

  /** A block held by an actor is held by that actor only, and is not queued. */
  lemma HolderIsAlone(s: State, b: Block)
    requires Owned(s)
    requires ProducerHolds(s.gpio, b) || ProducerHolds(s.ble, b) || MainNew(s.main, b) || MainEvent(s.main, b)
    ensures b !in s.sh.fifo && HeldPlaces(s, b) == 1
  {
    assert Places(s, b) == Bit(b < FIFO_ELEM_COUNT);
    OccursIffIn(s.sh.fifo, b);
  }

  lemma PostStepWrites(sh: Shared, pc: PostPc, kind: Kind, pick: Block)
    ensures match PostStep(sh, pc, kind, pick)
            case Blocked => true
            case More(sh', pc') => sh'.written == sh.written
            case Done(sh') => sh'.written == sh.written
  {
  }

  /** The posting routine writes to its own block only. */
  lemma PostStepMemory(sh: Shared, pc: PostPc, kind: Kind, pick: Block, c: Block)
    requires !PostHolds(pc, c)
    ensures match PostStep(sh, pc, kind, pick)
            case Blocked => true
            case More(sh', pc') => At(sh'.mem, c) == At(sh.mem, c)
            case Done(sh') => At(sh'.mem, c) == At(sh.mem, c)
  {
  }

  /** Any statement of the posting routine keeps the type in a filled block that another actor holds ... */
  lemma PostStepKeepsTyped(sh: Shared, pc: PostPc, kind: Kind, pick: Block, other: Producer, otherKind: Kind)
    requires Typed(sh, other, otherKind)
    requires forall b: Block :: ProducerHolds(other, b) ==> !PostHolds(pc, b)
    ensures match PostStep(sh, pc, kind, pick)
            case Blocked => true
            case More(sh', _) => Typed(sh', other, otherKind)
            case Done(sh') => Typed(sh', other, otherKind)
  {
    if other.Busy? && other.pc.Filled? {
      assert ProducerHolds(other, other.pc.b);
      PostStepMemory(sh, pc, kind, pick, other.pc.b);
    }
  }

  /** ... and filling writes the right one. */
  lemma PostStepTypes(sh: Shared, pc: PostPc, kind: Kind, pick: Block)
    ensures match PostStep(sh, pc, kind, pick)
            case Blocked => true
            case More(sh', pc') => Typed(sh', Busy(pc'), kind)
            case Done(sh') => true
  {
  }

  /** The posting routine of the main loop, seen as a producer. */
  function Clearer(m: MainPc): Producer {
    if m.Clearing? then Busy(m.pc) else Idle
  }

  lemma ActorsApart(s: State, b: Block)
    requires Owned(s)
    ensures ProducerHolds(s.gpio, b) ==> !ProducerHolds(s.ble, b) && !ProducerHolds(Clearer(s.main), b)
    ensures ProducerHolds(s.ble, b) ==> !ProducerHolds(Clearer(s.main), b)
  {
    assert Places(s, b) == Bit(b < FIFO_ELEM_COUNT);
  }

  lemma TypedMainStep(s: State, pick: Block, writeOk: bool)
    requires Owned(s) && AllTyped(s) && MainLoopStep(s.sh, s.main, pick, writeOk).Some?
    ensures var (sh', m') := MainLoopStep(s.sh, s.main, pick, writeOk).value;
            AllTyped(s.(sh := sh', main := m'))
  {
    if s.main.Clearing? {
      forall b: Block { ActorsApart(s, b); }
      PostStepTypes(s.sh, s.main.pc, HidKbdClear, pick);
      PostStepKeepsTyped(s.sh, s.main.pc, HidKbdClear, pick, s.gpio, GpioButton0);
      PostStepKeepsTyped(s.sh, s.main.pc, HidKbdClear, pick, s.ble, BleBtn);
    }
  }

  lemma TypedStep(s: State, a: Action)
    requires Owned(s) && AllTyped(s) && Step(s, a).Some?
    ensures AllTyped(Step(s, a).value)
  {
    forall b: Block { ActorsApart(s, b); }
    match a
    case GpioStep(pick) =>
      PostStepTypes(s.sh, s.gpio.pc, GpioButton0, pick);
      PostStepKeepsTyped(s.sh, s.gpio.pc, GpioButton0, pick, s.ble, BleBtn);
      PostStepKeepsTyped(s.sh, s.gpio.pc, GpioButton0, pick, Clearer(s.main), HidKbdClear);
    case BleStep(pick) =>
      PostStepTypes(s.sh, s.ble.pc, BleBtn, pick);
      PostStepKeepsTyped(s.sh, s.ble.pc, BleBtn, pick, s.gpio, GpioButton0);
      PostStepKeepsTyped(s.sh, s.ble.pc, BleBtn, pick, Clearer(s.main), HidKbdClear);
    case MainStep(pick, writeOk) => TypedMainStep(s, pick, writeOk);
    case _ =>
  }

  /** A producer's statement, seen on the pipeline. */
  lemma FlowProducerStep(s: State, p: Producer, kind: Kind, pick: Block)
    requires FlowInv(s) && Typed(s.sh, p, kind) && kind != Uninitialised
    requires p == s.gpio || p == s.ble
    requires ProducerStep(s.sh, p, kind, pick).Some?
    ensures var sh' := ProducerStep(s.sh, p, kind, pick).value.0;
            Flows(Pipeline(s.(sh := sh')), sh'.posted, sh'.dropped)
  {
    forall b: Block | PostHolds(p.pc, b)
      ensures b !in s.sh.fifo && !MainEvent(s.main, b)
    {
      HolderIsAlone(s, b);
    }
    PostStepFlows(s.sh.written + Unwritten(s), s.sh, p.pc, kind, pick);
    FrontIsStable(s, p, kind, pick);
  }

  lemma FrontIsStable(s: State, p: Producer, kind: Kind, pick: Block)
    requires ProducerStep(s.sh, p, kind, pick).Some?
    requires forall b: Block :: PostHolds(p.pc, b) ==> !MainEvent(s.main, b)
    ensures var sh' := ProducerStep(s.sh, p, kind, pick).value.0;
            sh'.written + Unwritten(s.(sh := sh')) == s.sh.written + Unwritten(s)
  {
    PostStepWrites(s.sh, p.pc, kind, pick);
    if s.main.Got? {
      PostStepMemory(s.sh, p.pc, kind, pick, s.main.ev);
    }
  }

  /** Main takes the head of the FIFO in hand. */
  lemma PipelineGet(s: State)
    requires s.main.Get? && s.sh.fifo != []
    ensures Pipeline(s.(sh := s.sh.(fifo := s.sh.fifo[1..]), main := Got(s.sh.fifo[0]))) == Pipeline(s)
  {
    var head := At(s.sh.mem, s.sh.fifo[0]);
    assert Contents(s.sh) == [head] + Contents(s.sh.(fifo := s.sh.fifo[1..]));
    assert s.sh.written + [] == s.sh.written;
  }

  /** Main reports the event in hand. */
  lemma PipelineWrite(s: State, sh': Shared, m': MainPc)
    requires s.main.Write? && sh'.written == s.sh.written + [s.main.cell]
    requires sh'.fifo == s.sh.fifo && sh'.mem == s.sh.mem
    requires m'.Free? || m'.Clearing?
    ensures Pipeline(s.(sh := sh', main := m')) == Pipeline(s)
  {
    assert Contents(sh') == Contents(s.sh);
    assert sh'.written + [] == sh'.written;
  }

  /** Other statements leave the events where they are. */
  lemma PipelineQuiet(s: State, t: State)
    requires t.sh.written == s.sh.written && t.sh.fifo == s.sh.fifo && t.sh.mem == s.sh.mem
    requires Unwritten(t) == Unwritten(s)
    ensures Pipeline(t) == Pipeline(s)
  {
    assert Contents(t.sh) == Contents(s.sh);
  }

  /** Taking an event, sending its report and freeing it move it along the pipeline. */
  lemma PipelineMainStep(s: State, pick: Block, writeOk: bool)
    requires !s.main.Clearing? && MainLoopStep(s.sh, s.main, pick, writeOk).Some?
    requires s.main.Got? ==> At(s.sh.mem, s.main.ev).kind != Uninitialised
    ensures var (sh', m') := MainLoopStep(s.sh, s.main, pick, writeOk).value;
            && Pipeline(s.(sh := sh', main := m')) == Pipeline(s)
            && sh'.posted == s.sh.posted && sh'.dropped == s.sh.dropped
  {
    var (sh', m') := MainLoopStep(s.sh, s.main, pick, writeOk).value;
    if s.main.Get? && s.sh.fifo != [] {
      PipelineGet(s);
    } else if s.main.Write? {
      PipelineWrite(s, sh', m');
    } else {
      PipelineQuiet(s, s.(sh := sh', main := m'));
    }
  }

  lemma FlowMainStep(s: State, pick: Block, writeOk: bool)
    requires FlowInv(s) && MainLoopStep(s.sh, s.main, pick, writeOk).Some?
    ensures var (sh', m') := MainLoopStep(s.sh, s.main, pick, writeOk).value;
            Flows(Pipeline(s.(sh := sh', main := m')), sh'.posted, sh'.dropped)
  {
    if !s.main.Clearing? {
      if s.main.Got? {
        assert Pipeline(s)[|s.sh.written|] == At(s.sh.mem, s.main.ev);
      }
      PipelineMainStep(s, pick, writeOk);
    } else {
      FlowClearStep(s, pick);
    }
  }

  lemma FlowClearStep(s: State, pick: Block)
    requires FlowInv(s) && s.main.Clearing?
    ensures match PostStep(s.sh, s.main.pc, HidKbdClear, pick)
            case Blocked => true
            case More(sh', pc') =>
              Flows(Pipeline(s.(sh := sh', main := Clearing(s.main.ev, pc'))), sh'.posted, sh'.dropped)
            case Done(sh') => Flows(Pipeline(s.(sh := sh', main := Free(s.main.ev))), sh'.posted, sh'.dropped)
  {
    forall b: Block | PostHolds(s.main.pc, b)
      ensures b !in s.sh.fifo
    {
      HolderIsAlone(s, b);
    }
    assert s.sh.written + Unwritten(s) == s.sh.written;
    PostStepFlows(s.sh.written, s.sh, s.main.pc, HidKbdClear, pick);
    PostStepWrites(s.sh, s.main.pc, HidKbdClear, pick);
    match PostStep(s.sh, s.main.pc, HidKbdClear, pick)
    case Blocked =>
    case More(sh', _) => assert sh'.written + [] == s.sh.written;
    case Done(sh') => assert sh'.written + [] == s.sh.written;
  }

  lemma PipelineStays(s: State, t: State)
    requires t.main == s.main && t.sh.mem == s.sh.mem && t.sh.fifo == s.sh.fifo && t.sh.written == s.sh.written
    ensures Pipeline(t) == Pipeline(s)
  {
    assert Contents(t.sh) == Contents(s.sh);
  }

  lemma FlowStep(s: State, a: Action)
    requires FlowInv(s) && Step(s, a).Some?
    ensures FlowInv(Step(s, a).value)
  {
    OwnedStep(s, a);
    TypedStep(s, a);
    EventsFlow(s, a);
  }

  lemma EventsFlow(s: State, a: Action)
    requires FlowInv(s) && Step(s, a).Some?
    ensures var t := Step(s, a).value; Flows(Pipeline(t), t.sh.posted, t.sh.dropped)
  {
    match a
    case GpioStep(pick) => FlowProducerStep(s, s.gpio, GpioButton0, pick);
    case BleStep(pick) => FlowProducerStep(s, s.ble, BleBtn, pick);
    case MainStep(pick, writeOk) => FlowMainStep(s, pick, writeOk);
    case _ => PipelineStays(s, Step(s, a).value);
  }

  /** The flow invariant in every run. */
  lemma {:induction false} FlowInEveryRun(acts: seq<Action>)
    requires Run(Init(), acts).Some?
    ensures FlowInv(Run(Init(), acts).value)
  {
    if acts == [] {
      OwnershipInEveryRun([]);
      assert Pipeline(Init()) == [];
    } else {
      FlowInEveryRun(acts[..|acts| - 1]);
      FlowStep(Run(Init(), acts[..|acts| - 1]).value, acts[|acts| - 1]);
    }
  }

  /**
   * No event vanishes and none comes from nowhere: in every run, flushes included, the events put are
   * exactly, with their multiplicities, those reported, in hand, queued or dropped by a flush.
   */
  lemma NothingVanishes(acts: seq<Action>, s: State)
    requires Run(Init(), acts) == Some(s)
    ensures multiset(Pipeline(s)) + multiset(s.sh.dropped) == multiset(s.sh.posted)
  {
    FlowInEveryRun(acts);
    forall c: Cell
      ensures multiset(Pipeline(s))[c] + multiset(s.sh.dropped)[c] == multiset(s.sh.posted)[c]
    {
      OccursIsMultiplicity(Pipeline(s), c);
      OccursIsMultiplicity(s.sh.dropped, c);
      OccursIsMultiplicity(s.sh.posted, c);
    }
  }
}
