/**
 * How many presses the pool of 255 blocks can carry, exactly, and what happens beyond.
 */
module HidCapacity {
  import opened Kernel
  import opened HidMachine
  import opened HidOwnership
  import opened HidReports
  import opened HidBalance

  /** Button events whose clear report is still to come. */
  function Outstanding(s: State): int {
    s.sh.presses - Clears(s.sh.written)
  }

  /** The statements app_evt_alloc reaches only after it saw an empty pool. */
  predicate Flushing(pc: PostPc) {
    pc.FlushGet? || pc.FlushFree? || pc.Retry? || pc.Null?
  }

  predicate ProducerFlushing(p: Producer) {
    p.Busy? && Flushing(p.pc)
  }

  predicate MainFlushing(m: MainPc) {
    m.Clearing? && Flushing(m.pc)
  }

  /** No allocation has seen an empty pool. */
  predicate Unexhausted(s: State) {
    && !ProducerFlushing(s.gpio) && !ProducerFlushing(s.ble) && !MainFlushing(s.main)
    && s.sh.dropped == [] && !s.sh.halted
  }

  predicate Leaked(pc: PostPc) {
    pc.Null? && pc.leak
  }

  /** The actors whose retried allocation succeeded and was thrown away. */
  function Leakers(s: State): nat {
    Bit(s.gpio.Busy? && Leaked(s.gpio.pc)) + Bit(s.ble.Busy? && Leaked(s.ble.pc))
    + Bit(s.main.Clearing? && Leaked(s.main.pc))
  }

  predicate HoldsOne(pc: PostPc) {
    pc.FlushFree? || pc.Have? || pc.Filled?
  }

  function ProducerCount(p: Producer): nat {
    Bit(p.Busy? && HoldsOne(p.pc))
  }

  function MainCount(m: MainPc): nat {
    Bit(!m.WaitEvt? && !m.Get?) + Bit(m.Clearing? && HoldsOne(m.pc))
  }

  /** 255 blocks in all, and one leaked block for each actor that lost one. */
  ghost predicate BlocksCounted(s: State) {
    && |s.sh.free| + |s.sh.fifo| + |s.sh.leaked| + ProducerCount(s.gpio) + ProducerCount(s.ble) + MainCount(s.main)
       == FIFO_ELEM_COUNT
    && |s.sh.leaked| == Leakers(s)
  }

  function SharedCount(sh: Shared): nat {
    |sh.free| + |sh.fifo| + |sh.leaked|
  }

  predicate TotalKept(sh: Shared, pc: PostPc, result: PostResult) {
    match result
    case Blocked => true
    case More(sh', pc') => SharedCount(sh') + Bit(HoldsOne(pc')) == SharedCount(sh) + Bit(HoldsOne(pc))
    case Done(sh') => SharedCount(sh') == SharedCount(sh) + Bit(HoldsOne(pc))
  }

  lemma TakeOne(blocks: set<Block>, b: Block)
    requires b in blocks
    ensures |blocks - {b}| + 1 == |blocks|
  {
  }

  lemma AddOne(blocks: set<Block>, b: Block)
    requires b !in blocks
    ensures |blocks + {b}| == |blocks| + 1
  {
  }

  lemma AllocationTotal(sh: Shared, pc: PostPc, kind: Kind, pick: Block)
    requires (pc.Try? || pc.Retry?) && sh.free !! sh.leaked
    ensures TotalKept(sh, pc, PostStep(sh, pc, kind, pick))
  {
    if pick in sh.free {
      TakeOne(sh.free, pick);
      AddOne(sh.leaked, pick);
    }
  }

  lemma FlushTotal(sh: Shared, pc: PostPc, kind: Kind, pick: Block)
    requires (pc.FlushFree? && pc.b !in sh.free) || pc.FlushGet?
    ensures TotalKept(sh, pc, PostStep(sh, pc, kind, pick))
  {
    if pc.FlushFree? {
      AddOne(sh.free, pc.b);
    }
  }

  lemma PostStepTotal(sh: Shared, pc: PostPc, kind: Kind, pick: Block)
    requires (pc.FlushFree? ==> pc.b !in sh.free) && sh.free !! sh.leaked
    ensures TotalKept(sh, pc, PostStep(sh, pc, kind, pick))
  {
    match pc
    case Try => AllocationTotal(sh, pc, kind, pick);
    case Retry => AllocationTotal(sh, pc, kind, pick);
    case FlushGet => FlushTotal(sh, pc, kind, pick);
    case FlushFree(_) => FlushTotal(sh, pc, kind, pick);
    case _ =>
  }

  lemma PostStepLeak(sh: Shared, pc: PostPc, kind: Kind, pick: Block)
    requires sh.free !! sh.leaked
    ensures match PostStep(sh, pc, kind, pick)
            case Blocked => true
            case More(sh', pc') => |sh'.leaked| + Bit(Leaked(pc)) == |sh.leaked| + Bit(Leaked(pc'))
            case Done(sh') => sh'.leaked == sh.leaked && !Leaked(pc)
  {
    if pc.Retry? && pick in sh.free {
      assert |sh.leaked + {pick}| == |sh.leaked| + 1;
    }
  }

  lemma ProducerCounts(sh: Shared, p: Producer, kind: Kind, pick: Block)
    requires sh.free !! sh.leaked && ProducerStep(sh, p, kind, pick).Some?
    requires p.pc.FlushFree? ==> p.pc.b !in sh.free
    ensures var (sh', p') := ProducerStep(sh, p, kind, pick).value;
            && SharedCount(sh') + ProducerCount(p') == SharedCount(sh) + ProducerCount(p)
            && |sh'.leaked| + Bit(p.Busy? && Leaked(p.pc)) == |sh.leaked| + Bit(p'.Busy? && Leaked(p'.pc))
  {
    PostStepTotal(sh, p.pc, kind, pick);
    PostStepLeak(sh, p.pc, kind, pick);
  }

  lemma MainCounts(sh: Shared, m: MainPc, pick: Block, writeOk: bool)
    requires sh.free !! sh.leaked && MainLoopStep(sh, m, pick, writeOk).Some?
    requires (m.Free? ==> m.ev !in sh.free) && (m.Clearing? && m.pc.FlushFree? ==> m.pc.b !in sh.free)
    ensures var (sh', m') := MainLoopStep(sh, m, pick, writeOk).value;
            && SharedCount(sh') + MainCount(m') == SharedCount(sh) + MainCount(m)
            && |sh'.leaked| + Bit(m.Clearing? && Leaked(m.pc)) == |sh.leaked| + Bit(m'.Clearing? && Leaked(m'.pc))
  {
    if m.Clearing? {
      PostStepTotal(sh, m.pc, HidKbdClear, pick);
      PostStepLeak(sh, m.pc, HidKbdClear, pick);
    } else {
      MainMoves(sh, m, pick, writeOk);
    }
  }

  lemma MainMoves(sh: Shared, m: MainPc, pick: Block, writeOk: bool)
    requires !m.Clearing? && MainLoopStep(sh, m, pick, writeOk).Some? && (m.Free? ==> m.ev !in sh.free)
    ensures var (sh', m') := MainLoopStep(sh, m, pick, writeOk).value;
            && sh'.leaked == sh.leaked && (m'.Clearing? ==> m'.pc.Try?)
            && |sh'.free| + |sh'.fifo| + MainCount(m') == |sh.free| + |sh.fifo| + MainCount(m)
  {
    if m.Free? {
      AddOne(sh.free, m.ev);
    }
  }

  /** What ownership says about blocks: one about to be freed is not free, and no leaked one is. */
  ghost predicate FreesAreFresh(s: State) {
    && s.sh.free !! s.sh.leaked
    && (s.gpio.Busy? && s.gpio.pc.FlushFree? ==> s.gpio.pc.b !in s.sh.free)
    && (s.ble.Busy? && s.ble.pc.FlushFree? ==> s.ble.pc.b !in s.sh.free)
    && (s.main.Clearing? && s.main.pc.FlushFree? ==> s.main.pc.b !in s.sh.free)
    && (s.main.Free? ==> s.main.ev !in s.sh.free)
  }

  lemma OwnedIsFresh(s: State)
    requires Owned(s)
    ensures FreesAreFresh(s)
  {
    forall b: Block
      ensures AboutToFree(s, b) ==> b !in s.sh.free
      ensures !(b in s.sh.free && b in s.sh.leaked)
    {
      assert Places(s, b) == Bit(b < FIFO_ELEM_COUNT);
    }
    assert s.gpio.Busy? && s.gpio.pc.FlushFree? ==> AboutToFree(s, s.gpio.pc.b);
    assert s.ble.Busy? && s.ble.pc.FlushFree? ==> AboutToFree(s, s.ble.pc.b);
    assert s.main.Clearing? && s.main.pc.FlushFree? ==> AboutToFree(s, s.main.pc.b);
    assert s.main.Free? ==> AboutToFree(s, s.main.ev);
  }

  lemma CountStep(s: State, a: Action)
    requires FreesAreFresh(s) && BlocksCounted(s) && Step(s, a).Some?
    ensures BlocksCounted(Step(s, a).value)
  {
    match a
    case GpioStep(pick) => ProducerCounts(s.sh, s.gpio, GpioButton0, pick);
    case BleStep(pick) => ProducerCounts(s.sh, s.ble, BleBtn, pick);
    case MainStep(pick, writeOk) => MainCounts(s.sh, s.main, pick, writeOk);
    case _ =>
  }

  lemma FreshInEveryRun(acts: seq<Action>)
    requires Run(Init(), acts).Some?
    ensures FreesAreFresh(Run(Init(), acts).value)
  {
    OwnershipInEveryRun(acts);
    OwnedIsFresh(Run(Init(), acts).value);
  }

  lemma {:induction false} CountInEveryRun(acts: seq<Action>)
    requires Run(Init(), acts).Some?
    ensures BlocksCounted(Run(Init(), acts).value)
  {
    if acts == [] {
      BelowSize(FIFO_ELEM_COUNT);
    } else {
      var s, a := Run(Init(), acts[..|acts| - 1]).value, acts[|acts| - 1];
      FreshInEveryRun(acts[..|acts| - 1]);
      CountInEveryRun(acts[..|acts| - 1]);
      CountStep(s, a);
    }
  }

  /** Leaks, in every reachable state: one block for each actor that lost one, so never more than three. */
  lemma LeaksAreCounted(s: State)
    requires Reachable(s)
    ensures |s.sh.leaked| == Leakers(s) <= 3
    ensures BlocksCounted(s)
  {
    var acts :| Run(Init(), acts) == Some(s);
    CountInEveryRun(acts);
  }

  lemma {:induction false} LockOrClear(cells: seq<Cell>)
    requires forall i :: 0 <= i < |cells| ==> IsLock(cells[i]) || IsClear(cells[i])
    ensures Locks(cells) + Clears(cells) == |cells|
  {
    if cells == [] {
    } else {
      LockOrClear(cells[..|cells| - 1]);
    }
  }

  /** A block beyond the outstanding ones: the handled event main has not freed yet. */
  predicate MainExtra(m: MainPc) {
    m.Free? || (m.Clearing? && !m.pc.Try?)
  }

  predicate AtTry(p: Producer) {
    p == Busy(Try)
  }

  /** Events that were put and not reported are in hand or queued. */
  lemma UnreportedEvents(s: State)
    requires Reachable(s) && s.sh.dropped == []
    ensures Locks(s.sh.posted) + Clears(s.sh.posted)
            == Locks(s.sh.written) + Clears(s.sh.written) + |Unwritten(s)| + |s.sh.fifo|
  {
    CountsHold(s);
    assert forall i :: 0 <= i < |s.sh.written| ==> Pipeline(s)[i] == s.sh.written[i];
    LockOrClear(s.sh.posted);
    LockOrClear(s.sh.written);
    assert |Pipeline(s)| == |s.sh.written| + |Unwritten(s)| + |s.sh.fifo|;
  }

  /** The blocks that are not free, by number. */
  lemma BlocksInUse(s: State)
    requires BlocksCounted(s) && Unexhausted(s)
    ensures s.sh.leaked == {}
    ensures |s.sh.free| + |s.sh.fifo| + Bit(s.gpio.Busy? && !AtTry(s.gpio) && !s.gpio.pc.Give?)
            + Bit(s.ble.Busy? && !AtTry(s.ble) && !s.ble.pc.Give?) + |Unwritten(s)|
            + Bit(s.main.Clearing? || s.main.Free?) + Bit(s.main.Clearing? && !s.main.pc.Try? && !s.main.pc.Give?)
            == FIFO_ELEM_COUNT
  {
  }

  /**
   * Exact accounting, until an allocation sees an empty pool: one block per outstanding press, less
   * the presses still asking for one, plus the handled event that main has not freed yet.
   */
  lemma FreeBlocks(s: State)
    requires Reachable(s) && Unexhausted(s)
    ensures |s.sh.free| + Outstanding(s) + Bit(MainExtra(s.main))
            == FIFO_ELEM_COUNT + Bit(AtTry(s.gpio)) + Bit(AtTry(s.ble))
    ensures s.sh.leaked == {}
  {
    LeaksAreCounted(s);
    BlocksInUse(s);
    UnreportedEvents(s);
    PressesAndClears(s);
  }

  lemma PressesAndClears(s: State)
    requires Reachable(s)
    ensures Clears(s.sh.posted) + Bit(ClearPending(s.main)) == Locks(s.sh.written)
    ensures s.sh.presses == Locks(s.sh.posted) + Bit(PressPending(s.gpio)) + Bit(PressPending(s.ble))
  {
    CountsHold(s);
  }

  /** When main asks for a clear event's block: the pool is empty exactly at 255 presses that hold a block. */
  lemma MainSeesEmptyPool(s: State)
    requires Reachable(s) && Unexhausted(s) && s.main.Clearing? && s.main.pc.Try?
    ensures s.sh.free == {} <==> Outstanding(s) - Bit(AtTry(s.gpio)) - Bit(AtTry(s.ble)) == FIFO_ELEM_COUNT
  {
    FreeBlocks(s);
  }

  /** At most `bound` presses are outstanding after every action of the run. */
  ghost predicate Bounded(acts: seq<Action>, bound: int)
    decreases |acts|
  {
    && (acts != [] ==> Bounded(acts[..|acts| - 1], bound))
    && (Run(Init(), acts).Some? ==> Outstanding(Run(Init(), acts).value) <= bound)
  }

  lemma PostStepUnexhausted(sh: Shared, pc: PostPc, kind: Kind, pick: Block)
    requires !Flushing(pc) && (pc.Try? ==> sh.free != {})
    ensures match PostStep(sh, pc, kind, pick)
            case Blocked => true
            case More(sh', pc') => !Flushing(pc') && sh'.dropped == sh.dropped && sh'.halted == sh.halted
            case Done(sh') => sh'.dropped == sh.dropped && sh'.halted == sh.halted
  {
  }

  lemma StaysUnexhausted(s: State, a: Action)
    requires Unexhausted(s) && Step(s, a).Some?
    requires AtTry(s.gpio) || AtTry(s.ble) || (s.main.Clearing? && s.main.pc.Try?) ==> s.sh.free != {}
    ensures Unexhausted(Step(s, a).value)
  {
    match a
    case GpioStep(pick) => PostStepUnexhausted(s.sh, s.gpio.pc, GpioButton0, pick);
    case BleStep(pick) => PostStepUnexhausted(s.sh, s.ble.pc, BleBtn, pick);
    case MainStep(pick, _) =>
      if s.main.Clearing? {
        PostStepUnexhausted(s.sh, s.main.pc, HidKbdClear, pick);
      }
    case _ =>
  }

  lemma UnexhaustedStep(s: State, a: Action)
    requires Reachable(s) && Unexhausted(s) && Outstanding(s) <= 254 && Step(s, a).Some?
    ensures Unexhausted(Step(s, a).value)
  {
    FreeBlocks(s);
    StaysUnexhausted(s, a);
  }

  lemma {:induction false} BoundedRun(acts: seq<Action>)
    requires Run(Init(), acts).Some? && Bounded(acts, 254)
    ensures Unexhausted(Run(Init(), acts).value)
  {
    if acts == [] {
    } else {
      var s := Run(Init(), acts[..|acts| - 1]).value;
      assert Reachable(s);
      BoundedRun(acts[..|acts| - 1]);
      UnexhaustedStep(s, acts[|acts| - 1]);
    }
  }

  /** Capacity: while at most 254 presses are outstanding no allocation sees an empty pool, and nothing is lost. */
  lemma CapacityBound(acts: seq<Action>)
    requires Run(Init(), acts).Some? && Bounded(acts, 254)
    ensures Unexhausted(Run(Init(), acts).value) && Run(Init(), acts).value.sh.leaked == {}
  {
    BoundedRun(acts);
    assert Reachable(Run(Init(), acts).value);
    FreeBlocks(Run(Init(), acts).value);
  }

  ghost predicate ActorsFlushing(s: State, gpio: bool, ble: bool, main: bool) {
    (gpio ==> ProducerFlushing(s.gpio)) && (ble ==> ProducerFlushing(s.ble)) && (main ==> MainFlushing(s.main))
  }

  /** An allocation that saw an empty pool never delivers an event, even when its retry succeeds. */
  lemma {:induction false} ExhaustionIsFatal(s: State, acts: seq<Action>, gpio: bool, ble: bool, main: bool)
    requires ActorsFlushing(s, gpio, ble, main) && Run(s, acts).Some?
    ensures ActorsFlushing(Run(s, acts).value, gpio, ble, main)
  {
    if acts == [] {
    } else {
      ExhaustionIsFatal(s, acts[..|acts| - 1], gpio, ble, main);
      FlushingStep(Run(s, acts[..|acts| - 1]).value, acts[|acts| - 1], gpio, ble, main);
    }
  }

  lemma FlushingStep(s: State, a: Action, gpio: bool, ble: bool, main: bool)
    requires ActorsFlushing(s, gpio, ble, main) && Step(s, a).Some?
    ensures ActorsFlushing(Step(s, a).value, gpio, ble, main)
  {
    match a
    case GpioStep(_) =>
    case BleStep(_) =>
    case MainStep(_, _) =>
    case _ =>
  }
}
