/** How much work a FIFO of events is: handling a lock event puts a clear event behind it. */
module HidDrain {
  import opened Kernel
  import opened HidMachine
  import opened HidOwnership
  import opened HidReports
  import opened HidSequential

  /** `n` clear events put one after the other, the first at position `sn`. */
  function ClearEvents(sn: nat, n: nat): (cells: seq<Cell>)
    ensures |cells| == n
  {
    seq(n, i requires 0 <= i < n => Cell(HidKbdClear, sn + i))
  }

  ghost predicate AllTypedCells(q: seq<Cell>) {
    forall i :: 0 <= i < |q| ==> IsLock(q[i]) || IsClear(q[i])
  }

  /** Reports still to be written for a queue: two for a lock event, one for a clear event. */
  function Work(q: seq<Cell>): nat {
    2 * Locks(q) + Clears(q)
  }

  /** The queue after its first event was handled. */
  function AfterHead(q: seq<Cell>, sn: nat): seq<Cell>
    requires q != []
  {
    q[1..] + if IsLock(q[0]) then [Cell(HidKbdClear, sn)] else []
  }

  lemma WorkShrinks(q: seq<Cell>, sn: nat)
    requires q != [] && AllTypedCells(q)
    ensures Work(AfterHead(q, sn)) == Work(q) - 1 && AllTypedCells(AfterHead(q, sn))
  {
    CountPop(q, IsLock);
    CountPop(q, IsClear);
    CountAppend(q[1..], Cell(HidKbdClear, sn), IsLock);
    CountAppend(q[1..], Cell(HidKbdClear, sn), IsClear);
    assert q[1..] + [] == q[1..];
  }

  /** The events handled until the queue is empty, in order. */
  function Drain(q: seq<Cell>, sn: nat): (handled: seq<Cell>)
    requires AllTypedCells(q)
    decreases Work(q)
  {
    if q == [] then []
    else
      WorkShrinks(q, sn);
      [q[0]] + Drain(AfterHead(q, sn), sn + Bit(IsLock(q[0])))
  }

  lemma LocksAfterHead(q: seq<Cell>, sn: nat)
    requires q != []
    ensures Locks(AfterHead(q, sn)) == Locks(q) - Bit(IsLock(q[0]))
  {
    CountPop(q, IsLock);
    CountAppend(q[1..], Cell(HidKbdClear, sn), IsLock);
    assert q[1..] + [] == q[1..];
  }

  lemma FirstClear(sn: nat, n: nat)
    requires n > 0
    ensures ClearEvents(sn, n) == [Cell(HidKbdClear, sn)] + ClearEvents(sn + 1, n - 1)
  {
  }

  /** Draining handles the queue in order and then one clear event for each lock event of the queue. */
  lemma {:induction false} DrainIsQueueThenClears(q: seq<Cell>, sn: nat)
    requires AllTypedCells(q)
    ensures Drain(q, sn) == q + ClearEvents(sn, Locks(q))
    decreases Work(q)
  {
    if q == [] {
    } else {
      WorkShrinks(q, sn);
      var q', sn' := AfterHead(q, sn), sn + Bit(IsLock(q[0]));
      DrainIsQueueThenClears(q', sn');
      LocksAfterHead(q, sn);
      assert q == [q[0]] + q[1..];
      if IsLock(q[0]) {
        FirstClear(sn, Locks(q));
        var c, rest := Cell(HidKbdClear, sn), ClearEvents(sn + 1, Locks(q'));
        assert [q[0]] + (q[1..] + [c] + rest) == [q[0]] + q[1..] + ([c] + rest);
      } else {
        assert q' == q[1..];
        assert [q[0]] + (q' + ClearEvents(sn, Locks(q'))) == [q[0]] + q' + ClearEvents(sn, Locks(q'));
      }
    }
  }

  /** Exact work: L lock events and C clear events take 2L + C reports. */
  lemma DrainLength(q: seq<Cell>, sn: nat)
    requires AllTypedCells(q)
    ensures |Drain(q, sn)| == 2 * Locks(q) + Clears(q)
    decreases Work(q)
  {
    if q != [] {
      WorkShrinks(q, sn);
      DrainLength(AfterHead(q, sn), sn + Bit(IsLock(q[0])));
    }
  }

  /** Queued blocks are distinct, not free, and hold events. */
  ghost predicate QueueFine(sh: Shared) {
    Distinct(sh.fifo) && sh.free !! BlockSet(sh.fifo) && !sh.doubleFree && AllTypedCells(Contents(sh))
  }

  lemma HandleClear(sh: Shared, pick: Block)
    requires QueueFine(sh) && sh.fifo != [] && IsClear(Contents(sh)[0])
    ensures var sh' := HandleEvent(sh, pick);
            && QueueFine(sh') && Contents(sh') == Contents(sh)[1..] && sh'.posted == sh.posted
            && sh'.free == sh.free + {sh.fifo[0]} && sh'.fifo == sh.fifo[1..]
  {
    var sh' := HandleEvent(sh, pick);
    assert sh.fifo[0] in BlockSet(sh.fifo);
    assert Contents(sh') == Contents(sh)[1..];
  }

  lemma HandleLock(sh: Shared, pick: Block)
    requires QueueFine(sh) && sh.fifo != [] && IsLock(Contents(sh)[0]) && pick in sh.free
    ensures var sh' := HandleEvent(sh, pick);
            var c := Cell(HidKbdClear, |sh.posted|);
            && QueueFine(sh') && Contents(sh') == Contents(sh)[1..] + [c] && sh'.posted == sh.posted + [c]
            && sh'.free == sh.free - {pick} + {sh.fifo[0]} && sh'.fifo == sh.fifo[1..] + [pick]
  {
    var sh' := HandleEvent(sh, pick);
    var c := Cell(HidKbdClear, |sh.posted|);
    assert sh.fifo[0] in BlockSet(sh.fifo);
    assert Contents(sh') == Contents(sh)[1..] + [c];
    assert forall i :: 0 <= i < |sh.fifo| - 1 ==> (Contents(sh)[1..] + [c])[i] == Contents(sh)[i + 1];
  }

  lemma HandleKeepsBlocks(sh: Shared, pick: Block)
    requires QueueFine(sh) && sh.fifo != [] && (IsLock(Contents(sh)[0]) ==> pick in sh.free)
    ensures var sh' := HandleEvent(sh, pick);
            sh'.free + BlockSet(sh'.fifo) == sh.free + BlockSet(sh.fifo)
  {
    if IsLock(Contents(sh)[0]) {
      HandleLock(sh, pick);
    } else {
      HandleClear(sh, pick);
    }
    assert sh.fifo == [sh.fifo[0]] + sh.fifo[1..];
  }

  /** `sh` is on its way from `sh0` to the end of the drain. */
  ghost predicate Draining(sh0: Shared, sh: Shared) {
    && QueueFine(sh0) && QueueFine(sh)
    && sh.written + Drain(Contents(sh), |sh.posted|) == sh0.written + Drain(Contents(sh0), |sh0.posted|)
    && sh.posted + ClearEvents(|sh.posted|, Locks(Contents(sh)))
       == sh0.posted + ClearEvents(|sh0.posted|, Locks(Contents(sh0)))
    && sh.free + BlockSet(sh.fifo) == sh0.free + BlockSet(sh0.fifo)
  }

  /** The event at the head is a lock event and the pool is empty. */
  ghost predicate Doomed(sh: Shared) {
    sh.fifo != [] && sh.free == {} && IsLock(Contents(sh)[0])
  }

  /** The end of a drain from sh0: its queue reported in order, then a clear for each of its locks. */
  ghost predicate DrainedTo(sh0: Shared, sh: Shared) {
    var q, n := Contents(sh0), |sh0.posted|;
    && sh.fifo == []
    && sh.written == sh0.written + (q + ClearEvents(n, Locks(q)))
    && |sh.written| == |sh0.written| + 2 * Locks(q) + Clears(q)
    && sh.posted == sh0.posted + ClearEvents(n, Locks(q))
    && sh.free == sh0.free + BlockSet(sh0.fifo)
  }

  lemma PostsAhead(posted: seq<Cell>, n: nat)
    requires n > 0
    ensures posted + ClearEvents(|posted|, n)
            == posted + [Cell(HidKbdClear, |posted|)] + ClearEvents(|posted| + 1, n - 1)
  {
  }

  lemma HandleMoves(sh: Shared, pick: Block)
    requires QueueFine(sh) && sh.fifo != [] && (IsLock(Contents(sh)[0]) ==> pick in sh.free)
    ensures var sh' := HandleEvent(sh, pick);
            && QueueFine(sh') && sh'.free != {} && Contents(sh') == AfterHead(Contents(sh), |sh.posted|)
            && sh'.written == sh.written + [Contents(sh)[0]]
            && |sh'.posted| == |sh.posted| + Bit(IsLock(Contents(sh)[0]))
  {
    if IsLock(Contents(sh)[0]) {
      HandleLock(sh, pick);
    } else {
      HandleClear(sh, pick);
    }
  }

  lemma HandlePosts(sh: Shared, pick: Block)
    requires QueueFine(sh) && sh.fifo != [] && (IsLock(Contents(sh)[0]) ==> pick in sh.free)
    ensures var sh' := HandleEvent(sh, pick);
            sh'.posted + ClearEvents(|sh'.posted|, Locks(AfterHead(Contents(sh), |sh.posted|)))
            == sh.posted + ClearEvents(|sh.posted|, Locks(Contents(sh)))
  {
    LocksAfterHead(Contents(sh), |sh.posted|);
    if IsLock(Contents(sh)[0]) {
      HandleLock(sh, pick);
      PostsAhead(sh.posted, Locks(Contents(sh)));
    } else {
      HandleClear(sh, pick);
    }
  }

  /** The head of the FIFO was handled, its clear event being handed some free block. */
  ghost predicate Handled(sh: Shared, sh': Shared) {
    && sh.fifo != []
    && exists pick :: (IsLock(Contents(sh)[0]) ==> pick in sh.free) && sh' == HandleEvent(sh, pick)
  }

  lemma DrainFromHead(written: seq<Cell>, q: seq<Cell>, sn: nat)
    requires AllTypedCells(q) && q != [] && AllTypedCells(AfterHead(q, sn))
    ensures written + Drain(q, sn) == written + [q[0]] + Drain(AfterHead(q, sn), sn + Bit(IsLock(q[0])))
  {
  }

  /** What handling the head does to the pipeline and the blocks. */
  ghost predicate Moved(sh: Shared, sh': Shared)
    requires sh.fifo != []
  {
    && QueueFine(sh') && sh'.free != {} && Contents(sh') == AfterHead(Contents(sh), |sh.posted|)
    && sh'.written == sh.written + [Contents(sh)[0]]
    && |sh'.posted| == |sh.posted| + Bit(IsLock(Contents(sh)[0]))
    && sh'.posted + ClearEvents(|sh'.posted|, Locks(Contents(sh')))
       == sh.posted + ClearEvents(|sh.posted|, Locks(Contents(sh)))
    && sh'.free + BlockSet(sh'.fifo) == sh.free + BlockSet(sh.fifo)
  }

  lemma DrainingMoved(sh0: Shared, sh: Shared, sh': Shared)
    requires Draining(sh0, sh) && sh.fifo != [] && Moved(sh, sh')
    ensures Draining(sh0, sh') && Work(Contents(sh')) < Work(Contents(sh))
  {
    WorkShrinks(Contents(sh), |sh.posted|);
    DrainFromHead(sh.written, Contents(sh), |sh.posted|);
  }

  lemma DrainingStepAt(sh0: Shared, sh: Shared, pick: Block)
    requires Draining(sh0, sh) && sh.fifo != [] && (IsLock(Contents(sh)[0]) ==> pick in sh.free)
    ensures Draining(sh0, HandleEvent(sh, pick)) && HandleEvent(sh, pick).free != {}
    ensures Work(Contents(HandleEvent(sh, pick))) < Work(Contents(sh))
  {
    HandleMoves(sh, pick);
    HandlePosts(sh, pick);
    HandleKeepsBlocks(sh, pick);
    DrainingMoved(sh0, sh, HandleEvent(sh, pick));
  }

  lemma HandleUsb(sh: Shared, pick: Block)
    requires sh.fifo != []
    ensures var sh' := HandleEvent(sh, pick);
            !sh'.usb && sh'.inFlight == 1 && sh'.halted == sh.halted && sh'.failedWrites == sh.failedWrites
  {
  }

  /** One handled event is one step of the drain. */
  lemma DrainingStep(sh0: Shared, sh: Shared, sh': Shared)
    requires Draining(sh0, sh) && Handled(sh, sh')
    ensures Draining(sh0, sh') && sh'.free != {} && Work(Contents(sh')) < Work(Contents(sh))
    ensures !sh'.usb && sh'.inFlight == 1 && sh'.halted == sh.halted && sh'.failedWrites == sh.failedWrites
  {
    var pick :| (IsLock(Contents(sh)[0]) ==> pick in sh.free) && sh' == HandleEvent(sh, pick);
    DrainingStepAt(sh0, sh, pick);
    HandleUsb(sh, pick);
  }

  /** The end of the drain, in closed form. */
  lemma Drained(sh0: Shared, sh: Shared)
    requires Draining(sh0, sh) && sh.fifo == []
    ensures DrainedTo(sh0, sh)
  {
    DrainLength(Contents(sh0), |sh0.posted|);
    DrainIsQueueThenClears(Contents(sh0), |sh0.posted|);
    assert Contents(sh) == [];
    assert sh.written + [] == sh.written;
    assert sh.posted + ClearEvents(|sh.posted|, 0) == sh.posted;
  }
}
