/** What a disconnect event on the MQTT thread does, and exactly when the connection comes back. */
module GcloudLost {
  import opened Kernel
  import opened GcloudMachine
  import opened GcloudQueue
  import opened GcloudSession
  import opened GcloudThreads

  /** A session command: one that could bring the session up or down. */
  predicate SessionCommand(c: Cmd) {
    c.Connect? || c.Disconnect? || c.ReconnectTimeout?
  }

  ghost predicate NoSessionCommand(q: seq<Req>) {
    forall r :: r in q ==> !SessionCommand(r.cmd)
  }

  /** From t to u the flags did not change, and no CONNECT was executed. */
  ghost predicate Unchanged(t: State, u: State) {
    && u.connected == t.connected && u.connecting == t.connecting
    && |Calls(t.log)| <= |Calls(u.log)|
    && forall i :: |Calls(t.log)| <= i < |Calls(u.log)| ==> Calls(u.log)[i].Call? && !Calls(u.log)[i].cmd.Connect?
  }

  /** In no run does the connection come back before the application posts a CONNECT or DISCONNECT. */
  ghost predicate StaysLost(t: State) {
    forall acts: seq<Action> :: AppConnect !in acts && AppDisconnect !in acts && Run(t, acts).Some? ==>
      Unchanged(t, Run(t, acts).value)
  }

  /**
   * The flags claim a session, or an attempt at one, that no thread is working on. The MQTT thread may
   * still be between the purge and the abort of its callback.
   */
  ghost predicate Stranded(s: State) {
    && (s.connected || s.connecting) && !s.armed && !s.awaiting
    && (s.m.MDead? || s.m.MDecide?) && s.g.GIdle?
    && NoSessionCommand(s.buf) && NoSessionCommand(s.waiters)
  }

  lemma StrandedGet(s: State, waiter: nat)
    requires Stranded(s) && GcloudStep(s, GGet(waiter)).Some?
    ensures var t := GcloudStep(s, GGet(waiter)).value;
            Stranded(t) && t.connected == s.connected && t.connecting == s.connecting && !s.buf[0].cmd.Connect?
  {
    assert s.buf[0] in s.buf;
    if s.waiters != [] {
      assert s.waiters[waiter] in s.waiters;
      WithoutIsSubset(s.waiters, waiter);
    }
  }

  lemma StrandedStep(s: State, a: Action)
    requires Stranded(s) && !a.AppConnect? && !a.AppDisconnect? && Step(s, a).Some?
    ensures var t := Step(s, a).value;
            Stranded(t) && t.connected == s.connected && t.connecting == s.connecting
    ensures forall e :: e in CallOf(s, a) ==> e.Call? && !e.cmd.Connect?
  {
    match a
    case AppTimeout(i) => WithoutIsSubset(s.waiters, i);
    case GGet(waiter) => StrandedGet(s, waiter);
    case _ =>
  }

  lemma {:induction false} StrandedStays(s: State, acts: seq<Action>)
    requires Stranded(s) && Run(s, acts).Some?
    requires AppConnect !in acts && AppDisconnect !in acts
    ensures Stranded(Run(s, acts).value) && Unchanged(s, Run(s, acts).value)
  {
    if acts == [] {
    } else {
      var t, a := Run(s, acts[..|acts| - 1]).value, acts[|acts| - 1];
      StrandedStays(s, acts[..|acts| - 1]);
      StrandedStep(t, a);
      StepCalls(t, a);
    }
  }

  /** A run without commands of the application that brings the connection back. */
  ghost predicate ComesBack(t: State, acts: seq<Action>) {
    && AppConnect !in acts && AppDisconnect !in acts && Run(t, acts).Some?
    && !Unchanged(t, Run(t, acts).value)
  }

  lemma ConnackArrives(t: State) returns (u: State)
    requires t.g.InConnect? && t.buf == [] && t.waiters == []
    ensures Run(t, [GConnectReturn(true), MConnack(0)]) == Some(u)
    ensures u.connected && !u.connecting && u.armed && u.g.GIdle? && u.buf == [] && u.waiters == []
  {
    assert Others([], MqttThread) == [];
    RunTwo(t, GConnectReturn(true), MConnack(0));
    u := Step(t.(g := GIdle, m := MIdle, awaiting := true), MConnack(0)).value;
  }

  lemma TimerEndsSession(t: State)
    requires t.connected && t.armed && t.g.GIdle? && t.buf == [] && t.waiters == []
    ensures Run(t, [TimerExpires, GGet(0)]).Some? && !Run(t, [TimerExpires, GGet(0)]).value.connected
  {
    RunTwo(t, TimerExpires, GGet(0));
  }

  /** The gcloud thread was in mqtt_connect: the CONNACK comes, and then the timer fires. */
  lemma ConnectGoesOn(t: State) returns (acts: seq<Action>)
    requires t.g.InConnect? && t.buf == [] && t.waiters == []
    ensures ComesBack(t, acts)
  {
    var t1 := ConnackArrives(t);
    acts := [GConnectReturn(true), MConnack(0)];
    if t.connected && !t.connecting {
      TimerEndsSession(t1);
      RunConcat(t, acts, [TimerExpires, GGet(0)]);
      acts := acts + [TimerExpires, GGet(0)];
    }
  }

  /** The callback puts CONNECT into an empty queue and returns. */
  lemma CallbackPuts(s: State) returns (acts: seq<Action>, t: State)
    requires s.g.CbPut? && s.buf == [] && s.waiters == []
    ensures AppConnect !in acts && AppDisconnect !in acts && Run(s, acts) == Some(t)
    ensures t.g.GIdle? && t.buf == [Req(GcloudThread, Connect)] && t.waiters == [] && t.log == s.log
  {
    var s1 := Accept(s, Req(GcloudThread, Connect)).(g := CbSem);
    var sem := if s.permit then GSemTake else GSemTimeout;
    t := s1.(g := GIdle, permit := false);
    RunTwo(s, GPut, sem);
    acts := [GPut, sem];
  }

  /** A CONNECT at the head is taken. */
  lemma ConnectTaken(t: State, acts: seq<Action>, s: State)
    requires AppConnect !in acts && AppDisconnect !in acts && Run(t, acts) == Some(s) && Calls(s.log) == Calls(t.log)
    requires s.g.GIdle? && s.buf != [] && s.buf[0].cmd.Connect? && s.waiters == []
    ensures ComesBack(t, acts + [GGet(0)])
  {
    RunSnoc(t, acts, GGet(0));
    StepCalls(s, GGet(0));
    assert Calls(Run(t, acts + [GGet(0)]).value.log)[|Calls(t.log)|].cmd.Connect?;
  }

  /** The callback on the gcloud thread is past its purge and its abort: it posts CONNECT, and the thread takes it. */
  lemma CallbackPosts(t: State, acts: seq<Action>, s: State) returns (acts': seq<Action>)
    requires AppConnect !in acts && AppDisconnect !in acts && Run(t, acts) == Some(s)
    requires s.g.CbPut? && s.buf == [] && s.waiters == [] && Calls(s.log) == Calls(t.log)
    ensures ComesBack(t, acts')
  {
    var more, u := CallbackPuts(s);
    RunConcat(t, acts, more);
    ConnectTaken(t, acts + more, u);
    acts' := acts + more + [GGet(0)];
  }

  lemma CallbackDecides(t: State, acts: seq<Action>, s: State) returns (acts': seq<Action>)
    requires AppConnect !in acts && AppDisconnect !in acts && Run(t, acts) == Some(s)
    requires s.g.CbDecide? && (s.connected || s.connecting)
    requires s.buf == [] && s.waiters == [] && Calls(s.log) == Calls(t.log)
    ensures ComesBack(t, acts')
  {
    assert Others([], MqttThread) == [];
    var s1 := s.(g := CbPut, m := MDead);
    RunStep(t, acts, s, GDecide, s1);
    acts' := CallbackPosts(t, acts + [GDecide], s1);
  }

  /** The gcloud thread was in mqtt_disconnect, or in its callback: the callback reconnects. */
  lemma CallbackGoesOn(t: State) returns (acts: seq<Action>)
    requires t.g.InDisconnect? || t.g.CbDecide?
    requires (t.connected || t.connecting) && t.buf == [] && t.waiters == []
    ensures ComesBack(t, acts)
  {
    if t.g.InDisconnect? {
      var s := Step(t, GCallback).value;
      assert Fates(0, Purged) == [];
      RunOne(t, GCallback);
      StepCalls(t, GCallback);
      acts := CallbackDecides(t, [GCallback], s);
    } else {
      acts := CallbackDecides(t, [], t);
    }
  }

  lemma AfterPurge(s: State, t: State)
    requires Reachable(s) && s.m.MIdle? && Step(s, MDisconnect) == Some(t)
    ensures t.buf == [] && t.waiters == [] && t.g == s.g && t.m.MDecide? && !t.armed && !t.awaiting
    ensures t.connected == s.connected && t.connecting == s.connecting
    ensures t.g.GIdle? || t.g.InConnect? || t.g.InDisconnect? || t.g.CbDecide?
  {
    ThreadsHold(s);
  }

  /**
   * After a disconnect event on the MQTT thread with a flag up, the connection stays lost in every
   * run, however the callback's statements are interleaved, until the application posts a CONNECT or
   * DISCONNECT, exactly if the gcloud thread was waiting for commands. The callback ends its own thread
   * before it gets to gcloud_connect; only an mqtt_connect or mqtt_disconnect that the gcloud thread
   * happens to be in brings the connection back.
   */
  lemma LostConnectionStaysLost(s: State, t: State)
    requires Reachable(s) && s.m.MIdle? && (s.connected || s.connecting)
    requires Step(s, MDisconnect) == Some(t)
    ensures StaysLost(t) <==> s.g.GIdle?
  {
    AfterPurge(s, t);
    if s.g.GIdle? {
      forall acts: seq<Action> | AppConnect !in acts && AppDisconnect !in acts && Run(t, acts).Some?
        ensures Unchanged(t, Run(t, acts).value)
      {
        StrandedStays(t, acts);
      }
    } else if s.g.InConnect? {
      var acts := ConnectGoesOn(t);
    } else {
      var acts := CallbackGoesOn(t);
    }
  }

  /** The first session, with its SUBSCRIBE queued and both threads waiting. */
  lemma SessionAtRest() returns (s: State)
    ensures Reachable(s) && s.connected && s.m.MIdle? && s.g.GIdle? && |s.buf| == 1 && s.waiters == []
    ensures !SessionCommand(s.buf[0].cmd)
  {
    s := FirstSession();
    s := ReachableStep(s, MPutSubscribe);
  }

  /** A run in which a connection is lost for good ... */
  lemma ConnectionIsLost()
    ensures exists s, t :: Reachable(s) && s.connected && Step(s, MDisconnect) == Some(t) && StaysLost(t)
  {
    var s := SessionAtRest();
    var t := Step(s, MDisconnect).value;
    LostConnectionStaysLost(s, t);
  }

  lemma ConnectUnderWay(s: State) returns (t: State)
    requires Reachable(s) && s.connected && s.m.MIdle? && s.g.GIdle? && |s.buf| == 1 && s.waiters == []
    requires !SessionCommand(s.buf[0].cmd)
    ensures Reachable(t) && t.connected && t.m.MIdle? && t.g.InConnect?
  {
    t := ReachableStep(s, GGet(0));
    t := ReachableStep(t, AppConnect);
    t := ReachableStep(t, GGet(0));
  }

  /** ... and one in which it is not. */
  lemma ConnectionComesBack()
    ensures exists s, t :: Reachable(s) && s.connected && Step(s, MDisconnect) == Some(t) && !StaysLost(t)
  {
    var s := SessionAtRest();
    s := ConnectUnderWay(s);
    var t := Step(s, MDisconnect).value;
    LostConnectionStaysLost(s, t);
  }
}
