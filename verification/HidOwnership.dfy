/**
 * Who owns which block: in every run each of the 255 blocks is in exactly one place.
 */
module HidOwnership {
  import opened Kernel
  import opened HidMachine

  predicate PostHolds(pc: PostPc, b: Block) {
    match pc
    case FlushFree(c) => c == b
    case Have(c) => c == b
    case Filled(c) => c == b
    case _ => false
  }

  predicate ProducerHolds(p: Producer, b: Block) {
    p.Busy? && PostHolds(p.pc, b)
  }

  /** b is the event the main loop took out of the FIFO and has not freed yet. */
  predicate MainEvent(m: MainPc, b: Block) {
    !m.WaitEvt? && !m.Get? && m.ev == b
  }

  /** b is the block the main loop is allocating for a clear event. */
  predicate MainNew(m: MainPc, b: Block) {
    m.Clearing? && PostHolds(m.pc, b)
  }

  /** How often block b is free, queued or leaked. */
  function SharedPlaces(sh: Shared, b: Block): nat {
    Bit(b in sh.free) + Occurs(sh.fifo, b) + Bit(b in sh.leaked)
  }

  /** How often block b is held by an actor. */
  function HeldPlaces(s: State, b: Block): nat {
    Bit(ProducerHolds(s.gpio, b)) + Bit(ProducerHolds(s.ble, b)) + Bit(MainEvent(s.main, b)) + Bit(MainNew(s.main, b))
  }

  function Places(s: State, b: Block): nat {
    SharedPlaces(s.sh, b) + HeldPlaces(s, b)
  }

  /** Every block of the pool is in exactly one place, nothing else is in any, and no block was freed twice. */
  ghost predicate Owned(s: State) {
    && !s.sh.doubleFree
    && forall b: Block :: Places(s, b) == Bit(b < FIFO_ELEM_COUNT)
  }

  /** A statement of the posting routine leaves block b in as many places as it was. */
  predicate PlacesKept(sh: Shared, pc: PostPc, b: Block, result: PostResult) {
    match result
    case Blocked => true
    case More(sh', pc') => SharedPlaces(sh', b) + Bit(PostHolds(pc', b)) == SharedPlaces(sh, b) + Bit(PostHolds(pc, b))
    case Done(sh') => SharedPlaces(sh', b) == SharedPlaces(sh, b) + Bit(PostHolds(pc, b))
  }

  lemma AllocationKeepsPlaces(sh: Shared, pc: PostPc, kind: Kind, pick: Block, b: Block)
    requires pc.Try? || pc.Retry?
    requires SharedPlaces(sh, b) <= 1
    ensures PlacesKept(sh, pc, b, PostStep(sh, pc, kind, pick))
  {
  }

  lemma FlushKeepsPlaces(sh: Shared, pc: PostPc, kind: Kind, pick: Block, b: Block)
    requires pc.FlushGet? || pc.FlushFree?
    requires SharedPlaces(sh, b) + Bit(PostHolds(pc, b)) <= 1
    ensures PlacesKept(sh, pc, b, PostStep(sh, pc, kind, pick))
  {
    if sh.fifo != [] {
      OccursPop(sh.fifo, b);
    }
  }

  /** The allocation routine and its callers only move blocks around. */
  lemma PostStepKeepsPlaces(sh: Shared, pc: PostPc, kind: Kind, pick: Block, b: Block)
    requires SharedPlaces(sh, b) + Bit(PostHolds(pc, b)) <= 1
    ensures PlacesKept(sh, pc, b, PostStep(sh, pc, kind, pick))
  {
    match pc
    case Try => AllocationKeepsPlaces(sh, pc, kind, pick, b);
    case Retry => AllocationKeepsPlaces(sh, pc, kind, pick, b);
    case FlushGet => FlushKeepsPlaces(sh, pc, kind, pick, b);
    case FlushFree(_) => FlushKeepsPlaces(sh, pc, kind, pick, b);
    case Filled(c) => OccursAppend(sh.fifo, c, b);
    case _ =>
  }

  lemma MainStepKeepsPlaces(sh: Shared, m: MainPc, pick: Block, writeOk: bool, b: Block)
    requires SharedPlaces(sh, b) + Bit(MainEvent(m, b)) + Bit(MainNew(m, b)) <= 1
    ensures match MainLoopStep(sh, m, pick, writeOk)
            case None => true
            case Some((sh', m')) => SharedPlaces(sh', b) + Bit(MainEvent(m', b)) + Bit(MainNew(m', b))
                                    == SharedPlaces(sh, b) + Bit(MainEvent(m, b)) + Bit(MainNew(m, b))
  {
    if m.Get? && sh.fifo != [] {
      OccursPop(sh.fifo, b);
    }
    if m.Clearing? {
      PostStepKeepsPlaces(sh, m.pc, HidKbdClear, pick, b);
    }
  }

  lemma StepKeepsPlaces(s: State, a: Action, b: Block)
    requires Step(s, a).Some? && Places(s, b) <= 1
    ensures Places(Step(s, a).value, b) == Places(s, b)
  {
    match a
    case PressGpio =>
    case BleEvent(_) =>
    case GpioStep(pick) => PostStepKeepsPlaces(s.sh, s.gpio.pc, GpioButton0, pick, b);
    case BleStep(pick) => PostStepKeepsPlaces(s.sh, s.ble.pc, BleBtn, pick, b);
    case MainStep(pick, writeOk) => MainStepKeepsPlaces(s.sh, s.main, pick, writeOk, b);
    case InReady =>
  }

  /** A block about to be freed, by a flush or by the main loop. */
  ghost predicate AboutToFree(s: State, b: Block) {
    || s.gpio == Busy(FlushFree(b)) || s.ble == Busy(FlushFree(b))
    || s.main == Free(b) || (s.main.Clearing? && s.main.pc == FlushFree(b))
  }

  /** Such a block is nowhere else: not free already, not queued, not leaked, held by no other actor. */
  lemma FreesAreExclusive(s: State, b: Block)
    requires Owned(s) && AboutToFree(s, b)
    ensures b < FIFO_ELEM_COUNT && HeldPlaces(s, b) == 1
    ensures b !in s.sh.free && b !in s.sh.fifo && b !in s.sh.leaked
  {
    assert Places(s, b) == Bit(b < FIFO_ELEM_COUNT);
    OccursIffIn(s.sh.fifo, b);
  }

  /** A queued block is queued once, is not free or leaked, and no actor holds it. */
  lemma QueuedBlocksAreUnheld(s: State, b: Block)
    requires Owned(s) && b in s.sh.fifo
    ensures HeldPlaces(s, b) == 0 && Occurs(s.sh.fifo, b) == 1 && b !in s.sh.free && b !in s.sh.leaked
  {
    assert Places(s, b) == Bit(b < FIFO_ELEM_COUNT);
    OccursIffIn(s.sh.fifo, b);
  }

  lemma NoDoubleFree(s: State, a: Action)
    requires Owned(s) && Step(s, a).Some?
    ensures !Step(s, a).value.sh.doubleFree
  {
    forall b | AboutToFree(s, b)
      ensures b !in s.sh.free
    {
      FreesAreExclusive(s, b);
    }
    match a
    case GpioStep(_) => assert s.gpio.pc.FlushFree? ==> AboutToFree(s, s.gpio.pc.b);
    case BleStep(_) => assert s.ble.pc.FlushFree? ==> AboutToFree(s, s.ble.pc.b);
    case MainStep(_, _) =>
      assert s.main.Free? ==> AboutToFree(s, s.main.ev);
      assert s.main.Clearing? && s.main.pc.FlushFree? ==> AboutToFree(s, s.main.pc.b);
    case _ =>
  }

  lemma OwnedStep(s: State, a: Action)
    requires Owned(s) && Step(s, a).Some?
    ensures Owned(Step(s, a).value)
  {
    NoDoubleFree(s, a);
    forall b: Block
      ensures Places(Step(s, a).value, b) == Bit(b < FIFO_ELEM_COUNT)
    {
      assert Places(s, b) == Bit(b < FIFO_ELEM_COUNT);
      StepKeepsPlaces(s, a, b);
    }
  }

  /** Ownership in every run: each of the 255 blocks is free, queued once, leaked, or held by exactly one actor. */
  lemma {:induction false} OwnershipInEveryRun(acts: seq<Action>)
    requires Run(Init(), acts).Some?
    ensures Owned(Run(Init(), acts).value)
  {
    if acts == [] {
    } else {
      OwnershipInEveryRun(acts[..|acts| - 1]);
      OwnedStep(Run(Init(), acts[..|acts| - 1]).value, acts[|acts| - 1]);
    }
  }
}
