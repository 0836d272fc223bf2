/**
 * Counting reports: clears never outrun locks, the i-th clear event is put for the i-th lock
 * report, and without a flush the reports are the posted events themselves.
 */
module HidBalance {
  import opened Kernel
  import opened HidMachine
  import opened HidOwnership
  import opened HidReports

  /** No prefix of the written reports has more clears than locks. */
  ghost predicate PrefixBalanced(written: seq<Cell>) {
    forall k :: 0 <= k <= |written| ==> Clears(written[..k]) <= Locks(written[..k])
  }

  /** The i-th clear event ever put answers the i-th lock report ever written. */
  ghost predicate Answered(sh: Shared) {
    |sh.answers| == Clears(sh.posted) && forall i :: 0 <= i < |sh.answers| ==> sh.answers[i] == i + 1
  }

  ghost predicate Counted(s: State) {
    && Clears(s.sh.posted) + Bit(ClearPending(s.main)) == Locks(s.sh.written)
    && s.sh.presses == Locks(s.sh.posted) + Bit(PressPending(s.gpio)) + Bit(PressPending(s.ble))
    && Answered(s.sh)
    && PrefixBalanced(s.sh.written)
  }

  lemma PutCounts(sh: Shared, b: Block)
    ensures var sh' := Put(sh, b);
            var cell := Cell(At(sh.mem, b).kind, |sh.posted|);
            && Locks(sh'.posted) == Locks(sh.posted) + Bit(IsLock(cell))
            && Clears(sh'.posted) == Clears(sh.posted) + Bit(IsClear(cell))
  {
    var cell := Cell(At(sh.mem, b).kind, |sh.posted|);
    CountAppend(sh.posted, cell, IsLock);
    CountAppend(sh.posted, cell, IsClear);
  }

  /** Only the put touches the counted histories. */
  lemma PostStepQuiet(sh: Shared, pc: PostPc, kind: Kind, pick: Block)
    requires !pc.Filled?
    ensures match PostStep(sh, pc, kind, pick)
            case Blocked => true
            case More(sh', pc') => SameCounts(sh, sh') && BeforePut(pc') == BeforePut(pc)
            case Done(sh') => SameCounts(sh, sh') && !BeforePut(pc)
  {
  }

  ghost predicate SameCounts(sh: Shared, sh': Shared) {
    sh'.posted == sh.posted && sh'.answers == sh.answers && sh'.written == sh.written && sh'.presses == sh.presses
  }

  /** Producers: a put turns a pending press into a posted lock event; nothing else is counted. */
  lemma CountedProducerStep(s: State, p: Producer, kind: Kind, pick: Block)
    requires kind == GpioButton0 || kind == BleBtn
    requires Typed(s.sh, p, kind) && ProducerStep(s.sh, p, kind, pick).Some?
    ensures var (sh', p') := ProducerStep(s.sh, p, kind, pick).value;
            && Clears(sh'.posted) == Clears(s.sh.posted) && sh'.answers == s.sh.answers && sh'.written == s.sh.written
            && Locks(sh'.posted) + Bit(PressPending(p')) == Locks(s.sh.posted) + Bit(PressPending(p))
            && sh'.presses == s.sh.presses
  {
    if p.pc.Filled? {
      PutCounts(s.sh, p.pc.b);
    } else {
      PostStepQuiet(s.sh, p.pc, kind, pick);
    }
  }

  /** Main: a put of a clear event records which lock report it answers. */
  lemma ClearPutAnswers(sh: Shared, b: Block)
    requires At(sh.mem, b).kind == HidKbdClear && Answered(sh)
    requires Clears(sh.posted) + 1 == Locks(sh.written)
    ensures var sh' := Put(sh, b);
            && Answered(sh') && Clears(sh'.posted) == Locks(sh.written)
            && Locks(sh'.posted) == Locks(sh.posted) && sh'.written == sh.written && sh'.presses == sh.presses
  {
    PutCounts(sh, b);
  }

  lemma PipelineClears(s: State)
    ensures Clears(Pipeline(s)) == Clears(s.sh.written) + Clears(Unwritten(s)) + Clears(Contents(s.sh))
  {
    CountConcat(s.sh.written + Unwritten(s), Contents(s.sh), IsClear);
    CountConcat(s.sh.written, Unwritten(s), IsClear);
  }

  lemma PrefixAppend(written: seq<Cell>, c: Cell)
    requires PrefixBalanced(written) && Clears(written + [c]) <= Locks(written + [c])
    ensures PrefixBalanced(written + [c])
  {
    forall k | 0 <= k <= |written + [c]|
      ensures Clears((written + [c])[..k]) <= Locks((written + [c])[..k])
    {
      if k <= |written| {
        assert (written + [c])[..k] == written[..k];
      } else {
        assert (written + [c])[..k] == written + [c];
      }
    }
  }

  /** The event main writes has a type, and a clear event that is not written yet was put for a lock report. */
  lemma ClearIsCovered(s: State)
    requires FlowInv(s) && Counted(s) && s.main.Write?
    ensures IsLock(s.main.cell) || IsClear(s.main.cell)
    ensures Clears(s.sh.written) + Bit(IsClear(s.main.cell)) <= Locks(s.sh.written)
  {
    var cell := s.main.cell;
    assert Pipeline(s)[|s.sh.written|] == cell;
    PipelineClears(s);
    CountAppend([], cell, IsClear);
    assert [] + [cell] == [cell] == Unwritten(s);
  }

  /** A clear report finds an unanswered lock report in front of it. */
  lemma CountedWrite(s: State, pick: Block, writeOk: bool)
    requires FlowInv(s) && Counted(s) && s.main.Write?
    requires Step(s, MainStep(pick, writeOk)).Some?
    ensures Counted(Step(s, MainStep(pick, writeOk)).value)
  {
    var cell := s.main.cell;
    CountAppend(s.sh.written, cell, IsLock);
    CountAppend(s.sh.written, cell, IsClear);
    ClearIsCovered(s);
    PrefixAppend(s.sh.written, cell);
  }

  lemma CountedClearStep(s: State, pick: Block, writeOk: bool)
    requires FlowInv(s) && Counted(s) && s.main.Clearing? && Step(s, MainStep(pick, writeOk)).Some?
    ensures Counted(Step(s, MainStep(pick, writeOk)).value)
  {
    if s.main.pc.Filled? {
      ClearPutAnswers(s.sh, s.main.pc.b);
    } else {
      PostStepQuiet(s.sh, s.main.pc, HidKbdClear, pick);
    }
  }

  lemma MainStepQuiet(sh: Shared, m: MainPc, pick: Block, writeOk: bool)
    requires !m.Clearing? && !m.Write? && MainLoopStep(sh, m, pick, writeOk).Some?
    ensures var (sh', m') := MainLoopStep(sh, m, pick, writeOk).value; SameCounts(sh, sh') && !ClearPending(m')
  {
  }

  lemma CountedMainStep(s: State, pick: Block, writeOk: bool)
    requires FlowInv(s) && Counted(s) && Step(s, MainStep(pick, writeOk)).Some?
    ensures Counted(Step(s, MainStep(pick, writeOk)).value)
  {
    if s.main.Clearing? {
      CountedClearStep(s, pick, writeOk);
    } else if s.main.Write? {
      CountedWrite(s, pick, writeOk);
    } else {
      MainStepQuiet(s.sh, s.main, pick, writeOk);
    }
  }

  lemma CountedStep(s: State, a: Action)
    requires FlowInv(s) && Counted(s) && Step(s, a).Some?
    ensures Counted(Step(s, a).value)
  {
    match a
    case GpioStep(pick) => CountedProducerStep(s, s.gpio, GpioButton0, pick);
    case BleStep(pick) => CountedProducerStep(s, s.ble, BleBtn, pick);
    case MainStep(pick, writeOk) => CountedMainStep(s, pick, writeOk);
    case _ =>
  }

  lemma {:induction false} CountsInEveryRun(acts: seq<Action>)
    requires Run(Init(), acts).Some?
    ensures FlowInv(Run(Init(), acts).value) && Counted(Run(Init(), acts).value)
  {
    FlowInEveryRun(acts);
    if acts == [] {
    } else {
      CountsInEveryRun(acts[..|acts| - 1]);
      CountedStep(Run(Init(), acts[..|acts| - 1]).value, acts[|acts| - 1]);
    }
  }

  /** The counts in every reachable state. */
  lemma CountsHold(s: State)
    requires Reachable(s)
    ensures FlowInv(s) && Counted(s)
  {
    var acts :| Run(Init(), acts) == Some(s);
    CountsInEveryRun(acts);
  }

  /** The default branch of main's switch is dead: an event taken from the FIFO has one of the three types. */
  lemma NeverUnknown(s: State)
    requires Reachable(s) && s.main.Got?
    ensures IsLock(At(s.sh.mem, s.main.ev)) || IsClear(At(s.sh.mem, s.main.ev))
  {
    CountsHold(s);
    assert Pipeline(s)[|s.sh.written|] == At(s.sh.mem, s.main.ev);
  }

  lemma {:induction false} SerialsReach(pipe: seq<Cell>, posted: seq<Cell>, i: nat)
    requires InPostingOrder(pipe, posted) && i < |pipe|
    ensures i <= pipe[i].sn
  {
    if i > 0 {
      SerialsReach(pipe, posted, i - 1);
    }
  }

  lemma {:induction false} SerialsStay(pipe: seq<Cell>, posted: seq<Cell>, i: nat)
    requires InPostingOrder(pipe, posted) && i < |pipe|
    ensures pipe[i].sn + |pipe| <= |posted| + i
    decreases |pipe| - i
  {
    if i + 1 < |pipe| {
      SerialsStay(pipe, posted, i + 1);
    }
  }

  /** If nothing was dropped, nothing is missing. */
  lemma NothingDropped(pipe: seq<Cell>, posted: seq<Cell>)
    requires Flows(pipe, posted, [])
    ensures pipe == posted
  {
    forall i | 0 <= i < |pipe|
      ensures pipe[i] == posted[i]
    {
      SerialsReach(pipe, posted, i);
      SerialsStay(pipe, posted, i);
    }
  }

  /**
   * Report order: the reports are distinct posted events in the order they were put. While no
   * flush has dropped an event they are exactly the first events put.
   */
  lemma ReportsFollowPosts(s: State)
    requires Reachable(s)
    ensures InPostingOrder(s.sh.written, s.sh.posted)
    ensures s.sh.dropped == [] ==> s.sh.written <= s.sh.posted
  {
    CountsHold(s);
    assert forall i :: 0 <= i < |s.sh.written| ==> Pipeline(s)[i] == s.sh.written[i];
    if s.sh.dropped == [] {
      NothingDropped(Pipeline(s), s.sh.posted);
    }
  }

  /** Report balance, in every prefix of the reports of every run, flushes included. */
  lemma ClearsNeverOutrunLocks(s: State, k: nat)
    requires Reachable(s) && k <= |s.sh.written|
    ensures Clears(s.sh.written[..k]) <= Locks(s.sh.written[..k])
  {
    CountsHold(s);
  }

  lemma PrefixCount(cells: seq<Cell>, p: nat)
    requires p < |cells| && IsClear(cells[p])
    ensures 1 <= Clears(cells[..p + 1]) <= Clears(cells)
  {
    assert cells[..p + 1] == cells[..p] + [cells[p]];
    CountAppend(cells[..p], cells[p], IsClear);
    assert cells == cells[..p + 1] + cells[p + 1..];
    CountConcat(cells[..p + 1], cells[p + 1..], IsClear);
  }

  /**
   * While no event was dropped, the clear report at position p, being the n-th clear report, is the
   * n-th clear event put, and that event was put for the n-th lock report.
   */
  lemma ClearAnswersItsLock(s: State, p: nat)
    requires Reachable(s) && s.sh.dropped == []
    requires p < |s.sh.written| && IsClear(s.sh.written[p])
    ensures s.sh.written[p].sn < |s.sh.posted|
    ensures var n := Clears(s.sh.written[..p + 1]);
            && n == Clears(s.sh.posted[..s.sh.written[p].sn + 1])
            && 1 <= n <= |s.sh.answers| && s.sh.answers[n - 1] == n
  {
    CountsHold(s);
    ReportsFollowPosts(s);
    var sh := s.sh;
    assert sh.written[p] == sh.posted[p] && sh.posted[p].sn == p;
    assert sh.written[..p + 1] == sh.posted[..p + 1];
    PrefixCount(sh.posted, p);
  }
}
