/**
 * The functions of bluetooth/hid_locker/src/main.c as methods over the kernel objects they change.
 * Each method runs undisturbed; HidMachine covers the interleavings of their statements.
 */
module HidLocker {
  import opened Kernel
  import opened HidMachine
  import opened HidReports
  import opened HidSequential
  import opened HidDrain
  import opened HidRuns

  lemma Another(q: seq<Block>, k: nat)
    requires k < |q| && Distinct(q)
    ensures BlockSet(q[..k + 1]) == BlockSet(q[..k]) + {q[k]} && q[k] !in BlockSet(q[..k])
  {
    assert q[..k + 1] == q[..k] + [q[k]];
  }

  class HidLocker {
    // event_elem_pool, evt_fifo and the memory of the blocks
    var free: set<Block>
    var fifo: seq<Block>
    var mem: map<Block, Cell>
    // evt_sem and usb_sem
    var evtSem: bool
    var usbSem: bool
    // a write through a null pointer, or a free of a free block
    var halted: bool
    var doubleFree: bool
    // the USB endpoint
    var inFlight: nat
    var failedWrites: nat
    var written: seq<Cell>
    // histories, kept for the specification
    var leaked: set<Block>
    var presses: nat
    var posted: seq<Cell>
    var answers: seq<nat>
    var dropped: seq<Cell>

    ghost function View(): Shared
      reads this
    {
      Shared(free, fifo, mem, evtSem, usbSem, inFlight, failedWrites, halted, doubleFree, leaked,
             presses, posted, answers, dropped, written)
    }

    /** Queued blocks are distinct and not free. */
    ghost predicate QueueOk()
      reads this
    {
      Distinct(fifo) && free !! BlockSet(fifo) && !doubleFree
    }

    /** Besides, they hold events, and one report is in flight or may be sent. */
    ghost predicate Valid()
      reads this
    {
      && QueueFine(View()) && !halted
      && Bit(usbSem) + inFlight == 1 && failedWrites == 0
    }

    constructor ()
      ensures Valid() && View() == Init().sh
      ensures |free| == 255 && (forall b :: b in free <==> 0 <= b < 255) && fifo == [] && usbSem && !evtSem
    {
      free, fifo, mem := Below(FIFO_ELEM_COUNT), [], map[];
      BelowSize(FIFO_ELEM_COUNT);
      evtSem, usbSem, halted, doubleFree := false, true, false, false;
      inFlight, failedWrites, written := 0, 0, [];
      leaked, presses, posted, answers, dropped := {}, 0, [], [], [];
    }

    method AppEvtFree(ev: Block)
      modifies `free, `doubleFree
      ensures View() == FreeBlock(old(View()), ev)
      ensures free == old(free) + {ev} && doubleFree == (old(doubleFree) || ev in old(free))
    {
      if ev in free {
        doubleFree := true;
      } else {
        free := free + {ev};
      }
    }

    method AppEvtPut(ev: Block)
      modifies `fifo, `mem, `posted, `answers
      ensures View() == Put(old(View()), ev)
      ensures fifo == old(fifo) + [ev] && At(mem, ev).kind == At(old(mem), ev).kind
      ensures posted == old(posted) + [Cell(At(mem, ev).kind, |old(posted)|)]
    {
      var cell := Cell(At(mem, ev).kind, |posted|);
      fifo := fifo + [ev];
      mem := mem[ev := cell];
      posted := posted + [cell];
      if IsClear(cell) {
        answers := answers + [Locks(written)];
      }
    }

    method AppEvtGet() returns (ev: Option<Block>)
      modifies `fifo
      ensures old(fifo) == [] ==> ev == None && View() == old(View())
      ensures old(fifo) != [] ==> ev == Some(old(fifo)[0]) && View() == old(View()).(fifo := old(fifo)[1..])
    {
      if fifo == [] {
        ev := None;
      } else {
        ev := Some(fifo[0]);
        fifo := fifo[1..];
      }
    }

    /** `do { ev = get; if (ev) free(ev); } while (ev != NULL)` */
    method AppEvtFlush()
      requires QueueOk()
      modifies `fifo, `free, `doubleFree, `dropped
      ensures View() == FlushAll(old(View()))
      ensures fifo == [] && free == old(free) + BlockSet(old(fifo)) && dropped == old(dropped) + old(Contents(View()))
    {
      ghost var q, blocks, cells := fifo, free, Contents(View());
      ghost var k := 0;
      var more := true;
      while more
        invariant 0 <= k <= |q| && fifo == q[k..] && !doubleFree
        invariant free == blocks + BlockSet(q[..k])
        invariant dropped == old(dropped) + cells[..k]
        invariant !more ==> k == |q|
        decreases |q| - k, more
      {
        var ev := AppEvtGet();
        if ev.Some? {
          Another(q, k);
          assert At(mem, ev.value) == cells[k];
          dropped := dropped + [At(mem, ev.value)];
          AppEvtFree(ev.value);
          k := k + 1;
        }
        more := ev.Some?;
      }
      assert q[..k] == q && cells[..k] == cells;
    }

    /**
     * A block, if the pool has one. Otherwise the FIFO is flushed, the allocation is retried, and
     * the caller gets a null pointer whether or not the retry succeeded.
     */
    method AppEvtAlloc() returns (ev: Option<Block>)
      requires QueueOk()
      modifies `fifo, `free, `doubleFree, `dropped, `leaked
      ensures old(free) != {} ==> ev.Some? && ev.value in old(free) && View() == Allocated(old(View()), ev.value)
      ensures old(free) == {} ==> ev.None? && AllocationFailed(old(View()), View())
      ensures ev.Some? ==> free == old(free) - {ev.value} && fifo == old(fifo) && leaked == old(leaked)
      ensures ev.None? ==> fifo == [] && free + leaked == old(leaked) + BlockSet(old(fifo))
    {
      if free != {} {
        var b :| b in free;
        free := free - {b};
        ev := Some(b);
      } else {
        AppEvtFlush();
        ev := None;
        if free != {} {
          var b :| b in free;
          free, leaked := free - {b}, leaked + {b};
        }
        FailedAllocation(old(View()), View());
      }
    }

    /** What the callers of app_evt_alloc do next, without looking at the pointer: set the type, put, give evt_sem. */
    method Deliver(ev: Option<Block>, kind: Kind)
      modifies `halted, `mem, `fifo, `posted, `answers, `evtSem
      ensures ev.None? ==> View() == old(View()).(halted := true)
      ensures ev.Some? ==>
                View() == Put(old(View()).(mem := old(mem)[ev.value := Cell(kind, 0)]), ev.value).(evt := true)
    {
      if ev.None? {
        halted := true;
        return;
      }
      mem := mem[ev.value := Cell(kind, 0)];
      AppEvtPut(ev.value);
      evtSem := true;
    }

    /** The statements that clear_kbd_report, btn0 and ble_event_handler have in common. */
    method Post(kind: Kind)
      requires QueueOk()
      modifies this
      ensures PostOutcome(old(View()), View(), kind)
      ensures PostedOrHalted(old(View()), View(), kind)
    {
      var ev := AppEvtAlloc();
      Deliver(ev, kind);
      assert ev.Some? ==> View() == PostEvent(old(View()), ev.value, kind);
      OutcomeIsPostedOrHalted(old(View()), View(), kind);
    }

    method ClearKbdReport()
      requires QueueOk()
      modifies this
      ensures PostOutcome(old(View()), View(), HidKbdClear)
      ensures PostedOrHalted(old(View()), View(), HidKbdClear)
    {
      Post(HidKbdClear);
    }

    method InReadyCb()
      requires inFlight > 0
      modifies `usbSem, `inFlight
      ensures View() == old(View()).(usb := true, inFlight := old(inFlight) - 1)
    {
      usbSem := true;
      inFlight := inFlight - 1;
    }

    /** The GPIO interrupt handler. */
    method Btn0()
      requires QueueOk()
      modifies this
      ensures PostOutcome(old(View()).(presses := old(presses) + 1), View(), GpioButton0)
      ensures PostedOrHalted(old(View()), View(), GpioButton0)
    {
      presses := presses + 1;
      assert View() == old(View()).(presses := old(presses) + 1);
      Post(GpioButton0);
    }

    /** The BLE listener: posts an event when the button byte, read as signed, is positive. */
    method BleEventHandler(btnVal: nat)
      requires QueueOk() && btnVal < 256
      modifies this
      ensures if 0 < btnVal < 128 then PostOutcome(old(View()).(presses := old(presses) + 1), View(), BleBtn)
              else View() == old(View())
      ensures 0 < btnVal < 128 ==> PostedOrHalted(old(View()), View(), BleBtn)
    {
      var v1 := if btnVal < 128 then btnVal else btnVal - 256;
      if v1 > 0 {
        presses := presses + 1;
        Post(BleBtn);
      }
    }

    /** k_sem_take(&usb_sem, K_FOREVER) and hid_int_ep_write: if a report is in flight, its callback comes first. */
    method SendCell(cell: Cell)
      requires Bit(usbSem) + inFlight == 1
      modifies `usbSem, `inFlight, `written
      ensures View() == SendReport(old(View()), cell)
      ensures written == old(written) + [cell] && !usbSem && inFlight == 1
    {
      if !usbSem {
        InReadyCb();
      }
      usbSem := false;
      written := written + [cell];
      inFlight := inFlight + 1;
    }

    /** The switch of main and the free behind it, for the event just taken from the head of `sh0`'s FIFO. */
    method Serve(ev: Block, ghost sh0: Shared)
      requires QueueFine(sh0) && sh0.fifo != [] && ev == sh0.fifo[0] && View() == sh0.(fifo := sh0.fifo[1..])
      requires Bit(usbSem) + inFlight == 1 && !halted
      modifies this
      ensures Doomed(sh0) ==> Halts(sh0, View())
      ensures !Doomed(sh0) ==> Handled(sh0, View())
    {
      assert ev in BlockSet(sh0.fifo);
      var cell := At(mem, ev);
      assert cell == Contents(sh0)[0];
      SendCell(cell);
      ghost var pick := 0;
      if IsLock(cell) {
        ghost var sent := View();
        assert sent == AfterSend(sh0);
        ClearKbdReport();
        if halted {
          return;
        }
        pick :| pick in sent.free && View() == PostEvent(sent, pick, HidKbdClear);
      }
      AppEvtFree(ev);
      assert View() == HandleEvent(sh0, pick);
    }

    /** One pass of main's inner loop: take an event, if there is one, report it and free it. */
    method ServeNext() returns (served: bool)
      requires Valid()
      modifies this
      ensures served == (old(fifo) != [])
      ensures served ==> written == old(written) + [At(old(mem), old(fifo)[0])]
      ensures served && !halted ==> old(fifo)[0] in free
      ensures !served ==> View() == old(View())
      ensures Doomed(old(View())) ==> Halts(old(View()), View())
      ensures served && !Doomed(old(View())) ==> Handled(old(View()), View())
    {
      ghost var sh0 := View();
      var got := AppEvtGet();
      served := got.Some?;
      if served {
        Serve(got.value, sh0);
      }
    }

    /** The inner loop of main: `while ((ev = app_evt_get()) != NULL)`. */
    method DrainFifo()
      requires Valid()
      modifies this
      ensures halted == Doomed(old(View()))
      ensures halted ==> Halts(old(View()), View())
      ensures !halted ==> Valid() && DrainedTo(old(View()), View())
      ensures !halted ==> Reaches(MainAt(old(View()), Get), MainAt(View(), Get))
    {
      ghost var sh0 := View();
      ReachesSelf(MainAt(sh0, Get));
      var more := true;
      while more && !halted
        invariant !halted ==> Valid() && Draining(sh0, View()) && (View() == sh0 || (free != {} && !Doomed(sh0)))
        invariant !halted ==> Reaches(MainAt(sh0, Get), MainAt(View(), Get))
        invariant halted ==> Doomed(sh0) && Halts(sh0, View())
        invariant !more && !halted ==> fifo == [] && !Doomed(sh0)
        decreases if halted then 0 else Work(Contents(View())), more
      {
        ghost var before := View();
        more := ServeNext();
        if more && !Doomed(before) {
          DrainingStep(sh0, before, View());
          HandledIsRun(before, View());
          ReachesTransitive(MainAt(sh0, Get), MainAt(before, Get), MainAt(View(), Get));
        }
      }
      if !halted {
        Drained(sh0, View());
      }
    }

    /**
     * One pass of main's outer loop. It halts exactly when the first event is a lock event and the
     * pool is empty. Otherwise it reports the queue in order and then a clear for each lock of the
     * queue, 2L + C reports in all, and ends with an empty FIFO and every block free again. Either way
     * it does what some run of the machine does.
     */
    method ServeWakeup()
      requires Valid() && evtSem
      modifies this
      ensures halted == Doomed(old(View()))
      ensures !halted ==> Valid() && DrainedTo(old(View()), View())
      ensures !halted ==> Reaches(MainAt(old(View()), WaitEvt), MainAt(View(), WaitEvt))
      ensures halted ==> exists m :: Reaches(MainAt(old(View()), WaitEvt), MainAt(View(), m))
    {
      ghost var sh0 := View();
      evtSem := false;
      ghost var sh1 := View();
      assert Contents(sh1) == Contents(sh0);
      OneStep(MainAt(sh0, WaitEvt), MainStep(0, true), MainAt(sh1, Get));
      DrainFifo();
      if halted {
        ghost var m := HaltsIsRun(sh1, View());
        ReachesTransitive(MainAt(sh0, WaitEvt), MainAt(sh1, Get), MainAt(View(), m));
      } else {
        ReachesTransitive(MainAt(sh0, WaitEvt), MainAt(sh1, Get), MainAt(View(), Get));
        OneStep(MainAt(View(), Get), MainStep(0, true), MainAt(View(), WaitEvt));
        ReachesTransitive(MainAt(sh0, WaitEvt), MainAt(View(), Get), MainAt(View(), WaitEvt));
      }
    }
  }
}
