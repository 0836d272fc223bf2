/** The capacity bound is tight: with 255 presses outstanding, handling the first one finds the pool empty. */
module HidTight {
  import opened Kernel
  import opened HidMachine
  import opened HidReports
  import opened HidBalance
  import opened HidCapacity

  /** A run that leads to s with at most `bound` presses outstanding all along. */
  ghost predicate Leads(acts: seq<Action>, s: State, bound: int) {
    Run(Init(), acts) == Some(s) && Bounded(acts, bound)
  }

  lemma {:induction false} BoundedByMore(acts: seq<Action>, bound: int, more: int)
    requires Bounded(acts, bound) && bound <= more
    ensures Bounded(acts, more)
    decreases |acts|
  {
    if acts == [] {
    } else {
      BoundedByMore(acts[..|acts| - 1], bound, more);
    }
  }

  lemma Extend(acts: seq<Action>, s: State, bound: int, a: Action, s': State) returns (acts': seq<Action>)
    requires Leads(acts, s, bound) && Step(s, a) == Some(s') && Outstanding(s') <= bound
    ensures Leads(acts', s', bound)
  {
    acts' := acts + [a];
    assert acts'[..|acts|] == acts;
  }

  /** A path of the machine on which at most `bound` presses are outstanding. */
  ghost predicate Path(states: seq<State>, acts: seq<Action>, bound: int) {
    Chain(states, acts) && forall i :: 1 <= i < |states| ==> Outstanding(states[i]) <= bound
  }

  lemma PathPrefix(states: seq<State>, acts: seq<Action>, bound: int)
    requires Path(states, acts, bound) && acts != []
    ensures var n := |acts| - 1;
            && Path(states[..n + 1], acts[..n], bound)
            && states[..n + 1][0] == states[0] && states[..n + 1][n] == states[n]
            && Step(states[n], acts[n]) == Some(states[n + 1]) && Outstanding(states[n + 1]) <= bound
  {
    assert forall i :: 0 <= i < |acts| - 1 ==> acts[..|acts| - 1][i] == acts[i];
  }

  lemma {:induction false} Follow(acts: seq<Action>, states: seq<State>, more: seq<Action>, bound: int)
    returns (acts': seq<Action>)
    requires Path(states, more, bound) && Leads(acts, states[0], bound)
    ensures Leads(acts', states[|more|], bound)
    decreases |more|
  {
    if more == [] {
      acts' := acts;
    } else {
      var n := |more| - 1;
      PathPrefix(states, more, bound);
      acts' := Follow(acts, states[..n + 1], more[..n], bound);
      acts' := Extend(acts', states[n], bound, more[n], states[n + 1]);
    }
  }

  /** n presses of the GPIO button were queued and main did not run. */
  ghost predicate Pressed(s: State, n: nat) {
    && s.gpio.Idle? && s.ble.Idle? && s.main.WaitEvt? && Unexhausted(s)
    && s.sh.presses == n && s.sh.evt == (n > 0) && s.sh.usb && s.sh.written == []
  }

  lemma Allocates(s: State, pick: Block)
    requires s.gpio == Busy(Try) && pick in s.sh.free && !s.sh.halted
    ensures Step(s, GpioStep(pick)) == Some(s.(gpio := Busy(Have(pick)), sh := s.sh.(free := s.sh.free - {pick})))
  {
  }

  lemma Fills(s: State, b: Block)
    requires s.gpio == Busy(Have(b)) && !s.sh.halted
    ensures Step(s, GpioStep(b))
            == Some(s.(gpio := Busy(Filled(b)), sh := s.sh.(mem := s.sh.mem[b := Cell(GpioButton0, 0)])))
  {
  }

  lemma Puts(s: State, b: Block)
    requires s.gpio == Busy(Filled(b)) && !s.sh.halted
    ensures Step(s, GpioStep(b)) == Some(s.(gpio := Busy(Give), sh := Put(s.sh, b)))
  {
  }

  lemma Gives(s: State, b: Block)
    requires s.gpio == Busy(Give) && !s.sh.halted
    ensures Step(s, GpioStep(b)) == Some(s.(gpio := Idle, sh := s.sh.(evt := true)))
  {
  }

  /** One activation of btn0, undisturbed. */
  lemma PressPath(s: State, n: nat, b: Block) returns (states: seq<State>, more: seq<Action>)
    requires Pressed(s, n) && b in s.sh.free
    ensures |more| == 5 && Path(states, more, n + 1) && states[0] == s && Pressed(states[5], n + 1)
  {
    var s0 := s.(gpio := Busy(Try), sh := s.sh.(presses := n + 1));
    assert Step(s, PressGpio) == Some(s0);
    var s1 := s0.(gpio := Busy(Have(b)), sh := s0.sh.(free := s0.sh.free - {b}));
    Allocates(s0, b);
    var s2 := s1.(gpio := Busy(Filled(b)), sh := s1.sh.(mem := s1.sh.mem[b := Cell(GpioButton0, 0)]));
    Fills(s1, b);
    var s3 := s2.(gpio := Busy(Give), sh := Put(s2.sh, b));
    Puts(s2, b);
    var s4 := s3.(gpio := Idle, sh := s3.sh.(evt := true));
    Gives(s3, b);
    states := [s, s0, s1, s2, s3, s4];
    more := [PressGpio, GpioStep(b), GpioStep(b), GpioStep(b), GpioStep(b)];
  }

  lemma FreeBlockLeft(s: State, n: nat) returns (b: Block)
    requires Reachable(s) && Pressed(s, n) && n < FIFO_ELEM_COUNT
    ensures b in s.sh.free
  {
    FreeBlocks(s);
    b :| b in s.sh.free;
  }

  lemma OneMorePress(acts: seq<Action>, s: State, n: nat) returns (acts': seq<Action>, s': State)
    requires Leads(acts, s, n) && Pressed(s, n) && n < FIFO_ELEM_COUNT
    ensures Leads(acts', s', n + 1) && Pressed(s', n + 1)
  {
    assert Reachable(s);
    BoundedByMore(acts, n, n + 1);
    var b := FreeBlockLeft(s, n);
    var states, more := PressPath(s, n, b);
    acts' := Follow(acts, states, more, n + 1);
    s' := states[5];
  }

  lemma {:induction false} QueuePresses(n: nat) returns (acts: seq<Action>, s: State)
    requires n <= FIFO_ELEM_COUNT
    ensures Leads(acts, s, n) && Pressed(s, n)
  {
    if n == 0 {
      acts, s := [], Init();
    } else {
      acts, s := QueuePresses(n - 1);
      acts, s := OneMorePress(acts, s, n - 1);
    }
  }

  /** With nothing reported, every press is queued and no clear event is. */
  lemma AllQueued(s: State)
    requires Reachable(s) && Pressed(s, FIFO_ELEM_COUNT)
    ensures s.sh.fifo != []
  {
    FreeBlocks(s);
    LeaksAreCounted(s);
  }

  lemma NoClearQueued(s: State)
    requires Reachable(s) && s.main.WaitEvt? && s.sh.written == []
    ensures Clears(Contents(s.sh)) == 0
    ensures forall i :: 0 <= i < |s.sh.fifo| ==> IsLock(Contents(s.sh)[i]) || IsClear(Contents(s.sh)[i])
  {
    CountsHold(s);
    PipelineClears(s);
    assert Pipeline(s) == Contents(s.sh);
  }

  lemma HeadIsLock(s: State)
    requires Reachable(s) && Pressed(s, FIFO_ELEM_COUNT)
    ensures s.sh.fifo != [] && IsLock(At(s.sh.mem, s.sh.fifo[0]))
  {
    AllQueued(s);
    NoClearQueued(s);
    CountPop(Contents(s.sh), IsClear);
    assert Contents(s.sh)[0] == At(s.sh.mem, s.sh.fifo[0]);
  }

  /** Main wakes up, takes the first lock event, writes its report and asks for a block. */
  lemma FirstLockPath(s: State, b: Block, cell: Cell) returns (states: seq<State>, more: seq<Action>)
    requires Pressed(s, FIFO_ELEM_COUNT) && s.sh.fifo != []
    requires b == s.sh.fifo[0] && cell == At(s.sh.mem, b) && IsLock(cell)
    ensures |more| == 5 && Path(states, more, FIFO_ELEM_COUNT) && states[0] == s
    ensures Unexhausted(states[5]) && states[5].main == Clearing(b, Try)
    ensures states[5].gpio.Idle? && states[5].ble.Idle? && Outstanding(states[5]) == FIFO_ELEM_COUNT
  {
    CountAppend(s.sh.written, cell, IsClear);
    var s0 := s.(main := Get, sh := s.sh.(evt := false));
    var s1 := s0.(main := Got(b), sh := s0.sh.(fifo := s0.sh.fifo[1..]));
    var s2 := s1.(main := TakeUsb(b, cell));
    var s3 := s2.(main := Write(b, cell), sh := s2.sh.(usb := false));
    var sh4 := s3.sh.(written := s3.sh.written + [cell], inFlight := s3.sh.inFlight + 1);
    var s4 := s3.(main := Clearing(b, Try), sh := sh4);
    var go := MainStep(0, true);
    assert Step(s, go) == Some(s0);
    assert Step(s0, go) == Some(s1);
    assert Step(s1, go) == Some(s2);
    assert Step(s2, go) == Some(s3);
    assert Step(s3, go) == Some(s4);
    states := [s, s0, s1, s2, s3, s4];
    more := [go, go, go, go, go];
  }

  lemma LastStep(s: State)
    requires s.main.Clearing? && s.main.pc.Try? && s.sh.free == {} && !s.sh.halted
    ensures Step(s, MainStep(0, true)) == Some(s.(main := Clearing(s.main.ev, FlushGet)))
  {
  }

  /** 255 outstanding presses are one too many: some run that never exceeds 255 exhausts the pool. */
  lemma BoundIsTight()
    ensures exists acts :: Run(Init(), acts).Some? && Bounded(acts, 255) && MainFlushing(Run(Init(), acts).value.main)
  {
    var acts, s := QueuePresses(FIFO_ELEM_COUNT);
    assert Reachable(s);
    HeadIsLock(s);
    var states, more := FirstLockPath(s, s.sh.fifo[0], At(s.sh.mem, s.sh.fifo[0]));
    acts := Follow(acts, states, more, FIFO_ELEM_COUNT);
    Exhausts(acts, states[5]);
  }

  lemma Exhausts(acts: seq<Action>, s: State)
    requires Leads(acts, s, FIFO_ELEM_COUNT) && Unexhausted(s) && s.main.Clearing? && s.main.pc.Try?
    requires s.gpio.Idle? && s.ble.Idle? && Outstanding(s) == FIFO_ELEM_COUNT
    ensures exists acts' :: && Run(Init(), acts').Some? && Bounded(acts', 255)
                            && MainFlushing(Run(Init(), acts').value.main)
  {
    assert Reachable(s);
    MainSeesEmptyPool(s);
    LastStep(s);
    var s' := s.(main := Clearing(s.main.ev, FlushGet));
    var acts' := Extend(acts, s, FIFO_ELEM_COUNT, MainStep(0, true), s');
    assert MainFlushing(Run(Init(), acts').value.main);
  }
}
