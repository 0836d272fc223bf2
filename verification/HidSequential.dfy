/** What the handlers and the main loop do when nothing interrupts them, in closed form. */
module HidSequential {
  import opened Kernel
  import opened HidMachine
  import opened HidReports

  function Allocated(sh: Shared, b: Block): Shared {
    sh.(free := sh.free - {b})
  }

  /** An undisturbed activation of "allocate, set the type, put, give" that is handed block b. */
  function PostEvent(sh: Shared, b: Block, kind: Kind): Shared {
    Put(Allocated(sh, b).(mem := sh.mem[b := Cell(kind, 0)]), b).(evt := true)
  }

  function BlockSet(q: seq<Block>): set<Block> {
    set b | b in q
  }

  ghost predicate Distinct(q: seq<Block>) {
    forall i, j :: 0 <= i < j < |q| ==> q[i] != q[j]
  }

  /** app_evt_flush, undisturbed. */
  function FlushAll(sh: Shared): Shared {
    sh.(fifo := [], free := sh.free + BlockSet(sh.fifo), dropped := sh.dropped + Contents(sh))
  }

  /** The second allocation of app_evt_alloc, whose block nobody gets. */
  function Lost(sh: Shared, b: Block): Shared {
    sh.(free := sh.free - {b}, leaked := sh.leaked + {b})
  }

  /** app_evt_alloc on an empty pool: the FIFO is flushed and, if that freed a block, one block is lost. */
  ghost predicate AllocationFailed(sh: Shared, sh': Shared) {
    var flushed := FlushAll(sh);
    if flushed.free == {} then sh' == flushed
    else exists b :: b in flushed.free && sh' == Lost(flushed, b)
  }

  /**
   * What the three callers of app_evt_alloc do: post the event in some free block, or, on an empty
   * pool, write through the null pointer.
   */
  ghost predicate PostOutcome(sh: Shared, sh': Shared, kind: Kind) {
    if sh.free != {} then exists b :: b in sh.free && sh' == PostEvent(sh, b, kind)
    else exists failed :: AllocationFailed(sh, failed) && sh' == failed.(halted := true)
  }

  /**
   * What that means. With a block to hand out, one event of this kind is queued behind the others and
   * evt_sem is up; on an empty pool the queue is flushed, no event is posted, and the machine halts.
   */
  ghost predicate PostedOrHalted(sh: Shared, sh': Shared, kind: Kind) {
    if sh.free != {} then
      var n := |sh.fifo|;
      && |sh'.fifo| == n + 1 && sh'.fifo[..n] == sh.fifo && sh'.fifo[n] in sh.free
      && sh'.free == sh.free - {sh'.fifo[n]} && At(sh'.mem, sh'.fifo[n]).kind == kind
      && sh'.evt && sh'.halted == sh.halted
      && sh'.posted == sh.posted + [Cell(kind, |sh.posted|)] && sh'.dropped == sh.dropped && sh'.leaked == sh.leaked
    else
      && sh'.fifo == [] && sh'.halted && sh'.evt == sh.evt
      && sh'.posted == sh.posted && sh'.dropped == sh.dropped + Contents(sh)
      && sh'.free <= BlockSet(sh.fifo) && sh'.free + sh'.leaked == sh.leaked + BlockSet(sh.fifo)
  }

  /** A failed allocation leaves an empty queue, and its blocks free but for one that is lost. */
  lemma FailedAllocation(sh: Shared, failed: Shared)
    requires sh.free == {} && AllocationFailed(sh, failed)
    ensures failed.fifo == [] && failed.dropped == sh.dropped + Contents(sh) && failed.posted == sh.posted
    ensures failed.free <= BlockSet(sh.fifo) && failed.free + failed.leaked == sh.leaked + BlockSet(sh.fifo)
    ensures failed.evt == sh.evt && failed.halted == sh.halted
  {
    assert FlushAll(sh).free == BlockSet(sh.fifo);
  }

  lemma EventPosted(sh: Shared, b: Block, kind: Kind)
    requires b in sh.free
    ensures PostedOrHalted(sh, PostEvent(sh, b, kind), kind)
  {
    var sh' := PostEvent(sh, b, kind);
    assert sh'.fifo == sh.fifo + [b];
  }

  lemma OutcomeIsPostedOrHalted(sh: Shared, sh': Shared, kind: Kind)
    requires PostOutcome(sh, sh', kind)
    ensures PostedOrHalted(sh, sh', kind)
  {
    if sh.free != {} {
      var b :| b in sh.free && sh' == PostEvent(sh, b, kind);
      EventPosted(sh, b, kind);
    } else {
      var failed :| AllocationFailed(sh, failed) && sh' == failed.(halted := true);
      FailedAllocation(sh, failed);
    }
  }

  /** Sending the report of `cell`: wait for the previous report to leave, then write. */
  function SendReport(sh: Shared, cell: Cell): Shared {
    sh.(usb := false, inFlight := 1, written := sh.written + [cell])
  }

  /** Main's handling of the event at the head of the FIFO; `pick` is the block its clear event is handed. */
  function HandleEvent(sh: Shared, pick: Block): Shared
    requires sh.fifo != []
  {
    var ev := sh.fifo[0];
    var cell := At(sh.mem, ev);
    var sent := SendReport(sh.(fifo := sh.fifo[1..]), cell);
    FreeBlock(if IsClear(cell) then sent else PostEvent(sent, pick, HidKbdClear), ev)
  }
}
