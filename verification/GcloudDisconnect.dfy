/** What a DISCONNECT command does, and when it is final. */
module GcloudDisconnect {
  import opened Kernel
  import opened GcloudMachine
  import opened GcloudQueue
  import opened GcloudSession
  import opened GcloudThreads

  ghost predicate NoConnect(q: seq<Req>) {
    forall r :: r in q ==> !r.cmd.Connect?
  }

  /** Disconnected for good: both flags are down, and no CONNECT is queued, pended or under way. */
  ghost predicate Down(s: State) {
    && !s.connected && !s.connecting && !s.awaiting
    && NoConnect(s.buf) && NoConnect(s.waiters)
    && !s.g.InConnect? && !s.g.CbPut? && !s.g.CbWaitPut?
  }

  lemma DownAppStep(s: State, a: Action)
    requires Down(s) && !a.AppConnect? && AppStep(s, a).Some?
    ensures Down(AppStep(s, a).value)
  {
    if a.AppTimeout? {
      WithoutIsSubset(s.waiters, a.i);
    }
  }

  lemma DownMqttStep(s: State, a: Action)
    requires Down(s) && MqttStep(s, a).Some?
    ensures Down(MqttStep(s, a).value)
  {
    OthersAreOthers(s.waiters, MqttThread);
  }

  lemma DownGet(s: State, waiter: nat)
    requires Down(s) && GcloudStep(s, GGet(waiter)).Some?
    ensures Down(GcloudStep(s, GGet(waiter)).value) && CallOf(s, GGet(waiter)) == []
  {
    assert s.buf[0] in s.buf;
    if s.waiters != [] {
      assert s.waiters[waiter] in s.waiters;
      WithoutIsSubset(s.waiters, waiter);
    }
  }

  lemma DownGcloudStep(s: State, a: Action)
    requires Down(s) && GcloudStep(s, a).Some?
    ensures Down(GcloudStep(s, a).value) && CallOf(s, a) == []
  {
    if a.GGet? {
      DownGet(s, a.waiter);
    } else {
      OthersAreOthers(s.waiters, MqttThread);
    }
  }

  /** Once down, the session stays down and no library call is made until the application posts a CONNECT. */
  lemma {:induction false} DownStaysDown(s: State, acts: seq<Action>)
    requires Down(s) && Run(s, acts).Some? && AppConnect !in acts
    ensures Down(Run(s, acts).value) && Calls(Run(s, acts).value.log) == Calls(s.log)
  {
    if acts == [] {
    } else {
      var t, a := Run(s, acts[..|acts| - 1]).value, acts[|acts| - 1];
      DownStaysDown(s, acts[..|acts| - 1]);
      StepCalls(t, a);
      if IsAppAction(a) {
        DownAppStep(t, a);
      } else if IsMqttAction(a) {
        DownMqttStep(t, a);
      } else {
        DownGcloudStep(t, a);
      }
    }
  }

  /** Neither flag goes up again before the application posts a CONNECT. */
  ghost predicate FlagsStayDown(s: State) {
    forall acts: seq<Action> :: AppConnect !in acts && Run(s, acts).Some? ==>
      !Run(s, acts).value.connected && !Run(s, acts).value.connecting
  }

  /** Without a session a command at the head is taken and ignored, unless it is a CONNECT. */
  lemma IgnoredGet(s: State, waiter: nat)
    requires Conserved(s) && s.g.GIdle? && !s.connected && s.buf != [] && !s.buf[0].cmd.Connect?
    requires s.waiters != [] ==> waiter < |s.waiters|
    ensures Step(s, GGet(waiter)).Some?
    ensures var t := Step(s, GGet(waiter)).value;
            && t.g.GIdle? && !t.connected && Conserved(t)
            && t.buf == s.buf[1..] + if s.waiters == [] then [] else [s.waiters[waiter]]
  {
    ConservedStep(s, GGet(waiter));
  }

  /** A run without a CONNECT of the application raises `connecting`. */
  ghost predicate GoesUp(s: State, acts: seq<Action>) {
    AppConnect !in acts && Run(s, acts).Some? && Run(s, acts).value.connecting
  }

  /** A CONNECT at the head is executed. */
  lemma ConnectTaken(s: State, waiter: nat)
    requires s.g.GIdle? && s.buf != [] && s.buf[0].cmd.Connect? && (s.waiters != [] ==> waiter < |s.waiters|)
    ensures GoesUp(s, [GGet(waiter)])
  {
    RunOne(s, GGet(waiter));
  }

  lemma IgnoredThen(s: State, waiter: nat, rest: seq<Action>) returns (acts: seq<Action>)
    requires Step(s, GGet(waiter)).Some? && GoesUp(Step(s, GGet(waiter)).value, rest)
    ensures GoesUp(s, acts)
  {
    RunOne(s, GGet(waiter));
    RunConcat(s, [GGet(waiter)], rest);
    acts := [GGet(waiter)] + rest;
  }

  /** The head is ignored, and the command behind it moves up. */
  lemma NextIn(s: State, i: nat) returns (t: State)
    requires Conserved(s) && s.g.GIdle? && !s.connected && 0 < i < |s.buf| && !s.buf[0].cmd.Connect?
    ensures Step(s, GGet(0)) == Some(t)
    ensures Conserved(t) && t.g.GIdle? && !t.connected && i - 1 < |t.buf| && t.buf[i - 1] == s.buf[i]
  {
    IgnoredGet(s, 0);
    t := Step(s, GGet(0)).value;
    assert s.buf[1..][i - 1] == s.buf[i];
  }

  /** A CONNECT that is queued gets its turn, although no other thread does anything. */
  lemma {:induction false} QueuedConnectRuns(s: State, i: nat) returns (acts: seq<Action>)
    requires Conserved(s) && s.g.GIdle? && !s.connected && i < |s.buf| && s.buf[i].cmd.Connect?
    ensures GoesUp(s, acts)
    decreases i
  {
    if s.buf[0].cmd.Connect? {
      ConnectTaken(s, 0);
      acts := [GGet(0)];
    } else {
      var t := NextIn(s, i);
      var rest := QueuedConnectRuns(t, i - 1);
      acts := IgnoredThen(s, 0, rest);
    }
  }

  /** So does one whose thread is pended. */
  lemma PendedConnectRuns(s: State, i: nat) returns (acts: seq<Action>)
    requires Conserved(s) && s.g.GIdle? && !s.connected && i < |s.waiters| && s.waiters[i].cmd.Connect?
    ensures GoesUp(s, acts)
  {
    if s.buf[0].cmd.Connect? {
      ConnectTaken(s, i);
      acts := [GGet(i)];
    } else {
      IgnoredGet(s, i);
      var t := Step(s, GGet(i)).value;
      assert t.buf[|s.buf| - 1] == s.waiters[i];
      var rest := QueuedConnectRuns(t, |s.buf| - 1);
      acts := IgnoredThen(s, i, rest);
    }
  }

  lemma ConnectAt(q: seq<Req>) returns (i: nat)
    requires !NoConnect(q)
    ensures i < |q| && q[i].cmd.Connect?
  {
    var r :| r in q && r.cmd.Connect?;
    i :| i < |q| && q[i] == r;
  }

  /** mqtt_disconnect returns, and then a CONNECT that is queued or pended gets its turn. */
  lemma ConnectRuns(s: State) returns (acts: seq<Action>)
    requires Conserved(s) && s.g.InDisconnect? && !s.connected && !(NoConnect(s.buf) && NoConnect(s.waiters))
    ensures GoesUp(s, acts)
  {
    var rest := ConnectRunsThen(s.(g := GIdle, awaiting := false));
    RunOne(s, GDisconnectReturn);
    RunConcat(s, [GDisconnectReturn], rest);
    acts := [GDisconnectReturn] + rest;
  }

  lemma ConnectRunsThen(t: State) returns (acts: seq<Action>)
    requires Conserved(t) && t.g.GIdle? && !t.connected && !(NoConnect(t.buf) && NoConnect(t.waiters))
    ensures GoesUp(t, acts)
  {
    if !NoConnect(t.buf) {
      var i := ConnectAt(t.buf);
      acts := QueuedConnectRuns(t, i);
    } else {
      var i := ConnectAt(t.waiters);
      acts := PendedConnectRuns(t, i);
    }
  }

  /** mqtt_disconnect was called for a DISCONNECT and has not returned, and no CONNACK is due. */
  ghost predicate Closing(s: State) {
    !s.connected && !s.connecting && !s.awaiting && s.g.InDisconnect?
  }

  /** A CONNACK that is due comes. */
  lemma LateConnack(s: State) returns (acts: seq<Action>, t: State)
    requires s.m.MIdle? && s.awaiting
    ensures Run(s, acts) == Some(t) && AppConnect !in acts && GCallback !in acts && GDisconnectReturn !in acts
    ensures t.connected && t.permit && t.g == s.g && t.passed == s.passed && Calls(t.log) == Calls(s.log)
  {
    t := Step(s, MConnack(0)).value;
    RunOne(s, MConnack(0));
    StepCalls(s, MConnack(0));
    acts := [MConnack(0)];
  }

  lemma DownOrNot(t: State)
    requires Conserved(t) && ThreadsFit(t) && t.g.InDisconnect? && !t.connected && !t.connecting
    ensures FlagsStayDown(t) <==> !t.awaiting && NoConnect(t.buf) && NoConnect(t.waiters)
  {
    if t.awaiting {
      var acts, u := LateConnack(t);
    } else if NoConnect(t.buf) && NoConnect(t.waiters) {
      forall acts: seq<Action> | AppConnect !in acts && Run(t, acts).Some?
        ensures !Run(t, acts).value.connected && !Run(t, acts).value.connecting
      {
        DownStaysDown(t, acts);
      }
    } else {
      var acts := ConnectRuns(t);
    }
  }

  lemma DequeueKeepsFlags(s: State, waiter: nat)
    requires s.buf != [] && (s.waiters != [] ==> waiter < |s.waiters|)
    ensures var t := Dequeue(s, waiter);
            t.connected == s.connected && t.awaiting == s.awaiting && t.armed == s.armed && t.connecting == s.connecting
  {
  }

  lemma TakesEffect(s: State, waiter: nat, t: State)
    requires s.connected && s.buf != [] && Step(s, GGet(waiter)) == Some(t)
    requires s.buf[0].cmd.Disconnect? || s.buf[0].cmd.ReconnectTimeout?
    ensures !t.connected && t.connecting == s.buf[0].cmd.ReconnectTimeout? && !t.armed && t.g.InDisconnect?
    ensures t.awaiting == s.awaiting
  {
    DequeueKeepsFlags(s, waiter);
    assert t == Effect(Settle(Dequeue(s, waiter), |s.fates|, s.buf[0].cmd), s.buf[0].cmd);
  }

  /** The command at the head takes effect, and the gcloud thread is in mqtt_disconnect. */
  lemma Disconnecting(s: State, waiter: nat, t: State)
    requires Reachable(s) && s.connected && s.buf != [] && Step(s, GGet(waiter)) == Some(t)
    requires s.buf[0].cmd.Disconnect? || s.buf[0].cmd.ReconnectTimeout?
    ensures !t.connected && t.connecting == s.buf[0].cmd.ReconnectTimeout? && !t.armed && t.g.InDisconnect?
    ensures t.awaiting == s.awaiting && Conserved(t) && ThreadsFit(t)
  {
    TakesEffect(s, waiter, t);
    CommandsAreConserved(s);
    ConservedStep(s, GGet(waiter));
    ThreadsHold(s);
    ThreadsStep(s, GGet(waiter));
  }

  /**
   * When a DISCONNECT takes effect the flags go down and the timer stops. They stay down until the
   * application posts a CONNECT exactly if at that moment no CONNECT is queued or pended, and no
   * CONNACK is due: one that is due, from a second CONNECT, may still come while mqtt_disconnect blocks.
   */
  lemma DisconnectTakesEffect(s: State, waiter: nat, t: State)
    requires Reachable(s) && s.connected && s.buf != [] && s.buf[0].cmd.Disconnect?
    requires Step(s, GGet(waiter)) == Some(t)
    ensures !t.connected && !t.connecting && !t.armed && t.g.InDisconnect?
    ensures FlagsStayDown(t) <==> !s.awaiting && NoConnect(t.buf) && NoConnect(t.waiters)
  {
    Disconnecting(s, waiter, t);
    DownOrNot(t);
  }

  /** mqtt_disconnect calls back after `before`: without a CONNECT of the application no flag goes up. */
  ghost predicate EndsWell(t: State, before: seq<Action>, after: seq<Action>) {
    GCallback !in before && GDisconnectReturn !in before && AppConnect !in after
    && Run(t, before + [GCallback] + after).Some? ==>
      var u := Run(t, before + [GCallback] + after).value;
      !u.connected && !u.connecting && Calls(u.log) == Calls(t.log)
  }

  /**
   * Whatever happens until mqtt_disconnect calls back, a CONNECT of the application included, from the
   * callback on the flags stay down, and no library call is made, until the application posts a CONNECT.
   */
  ghost predicate CallbackIsFinal(t: State) {
    forall before: seq<Action>, after: seq<Action> :: EndsWell(t, before, after)
  }

  lemma ClosingStep(s: State, a: Action)
    requires Closing(s) && !a.GCallback? && !a.GDisconnectReturn? && Step(s, a).Some?
    ensures Closing(Step(s, a).value) && CallOf(s, a) == []
  {
    if IsAppAction(a) {
      AppOnlyPuts(s, a);
    }
  }

  /** Nothing can raise a flag before mqtt_disconnect returns or calls back. */
  lemma {:induction false} ClosingLasts(s: State, acts: seq<Action>)
    requires Closing(s) && Run(s, acts).Some? && GCallback !in acts && GDisconnectReturn !in acts
    ensures Closing(Run(s, acts).value) && Calls(Run(s, acts).value.log) == Calls(s.log)
  {
    if acts == [] {
    } else {
      var t, a := Run(s, acts[..|acts| - 1]).value, acts[|acts| - 1];
      ClosingLasts(s, acts[..|acts| - 1]);
      ClosingStep(t, a);
      StepCalls(t, a);
    }
  }

  /** The callback purges even a CONNECT that the application posted meanwhile. */
  lemma ClosingCallback(s: State)
    requires Closing(s)
    ensures Step(s, GCallback).Some? && Down(Step(s, GCallback).value)
    ensures Calls(Step(s, GCallback).value.log) == Calls(s.log)
  {
    StepCalls(s, GCallback);
  }

  lemma ClosedByCallback(t: State, before: seq<Action>, after: seq<Action>)
    requires Closing(t)
    ensures EndsWell(t, before, after)
  {
    if GCallback !in before && GDisconnectReturn !in before && AppConnect !in after
       && Run(t, before + [GCallback] + after).Some? {
      RunSplits(t, before + [GCallback], after);
      RunSplits(t, before, [GCallback]);
      var s := Run(t, before).value;
      ClosingLasts(t, before);
      ClosingCallback(s);
      RunOne(s, GCallback);
      DownStaysDown(Step(s, GCallback).value, after);
    }
  }

  lemma ConnackBeforeCallback(t: State)
    requires t.m.MIdle? && t.awaiting && t.g.InDisconnect?
    ensures !CallbackIsFinal(t)
  {
    var before, u := LateConnack(t);
    var after: seq<Action> := [];
    RunSnoc(t, before, GCallback);
    assert before + [GCallback] + after == before + [GCallback];
    assert !EndsWell(t, before, after);
  }

  /** When the callback of a DISCONNECT is the end of the matter: exactly if no CONNACK was due. */
  lemma CallbackIsFinalIff(s: State, waiter: nat, t: State)
    requires Reachable(s) && s.connected && s.buf != [] && s.buf[0].cmd.Disconnect?
    requires Step(s, GGet(waiter)) == Some(t)
    ensures CallbackIsFinal(t) <==> !s.awaiting
  {
    Disconnecting(s, waiter, t);
    if s.awaiting {
      ConnackBeforeCallback(t);
    } else {
      forall before: seq<Action>, after: seq<Action>
        ensures EndsWell(t, before, after)
      {
        ClosedByCallback(t, before, after);
      }
    }
  }

  lemma PostsDisconnect(s: State) returns (t: State)
    requires Reachable(s) && s.g.GIdle? && s.connected && s.buf == [] && s.waiters == []
    ensures Reachable(t) && t.g.GIdle? && t.connected && t.buf == [Req(App, Disconnect)] && t.waiters == []
    ensures t.awaiting == s.awaiting
  {
    t := ReachableStep(s, AppDisconnect);
  }

  /** A run in which a DISCONNECT takes effect with a CONNECT behind it, and the session comes up again. */
  lemma QueuedConnectUndoesDisconnect()
    ensures exists s, t :: && Reachable(s) && s.connected && s.buf == [Req(App, Disconnect), Req(App, Connect)]
                           && Step(s, GGet(0)) == Some(t) && !FlagsStayDown(t)
  {
    var s := FirstSession();
    s := PostsDisconnect(s);
    s := ReachableStep(s, AppConnect);
    var t := Step(s, GGet(0)).value;
    assert t.buf[0] in t.buf && t.buf[0].cmd.Connect?;
    DisconnectTakesEffect(s, 0, t);
  }

  /** A second mqtt_connect inside a session: its CONNACK is due. */
  lemma ConnectsAgain() returns (s: State)
    ensures Reachable(s) && s.g.GIdle? && s.connected && s.awaiting && s.armed && s.buf == [] && s.waiters == []
  {
    s := FirstSession();
    s := TakesConnect(s);
    assert Others([], MqttThread) == [];
    s := ReachableStep(s, GConnectReturn(true));
  }

  /** A run in which a DISCONNECT takes effect while a CONNACK is due, and the session comes up again. */
  lemma LateConnackUndoesDisconnect()
    ensures exists s, t :: && Reachable(s) && s.connected && s.awaiting && s.buf == [Req(App, Disconnect)]
                           && Step(s, GGet(0)) == Some(t) && !FlagsStayDown(t) && !CallbackIsFinal(t)
  {
    var s := ConnectsAgain();
    s := PostsDisconnect(s);
    var t := Step(s, GGet(0)).value;
    DisconnectTakesEffect(s, 0, t);
    CallbackIsFinalIff(s, 0, t);
  }
}
