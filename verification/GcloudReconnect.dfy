/** What a RECONNECT_TIMEOUT command does: the next library call is mqtt_connect. */
module GcloudReconnect {
  import opened Kernel
  import opened GcloudMachine
  import opened GcloudQueue
  import opened GcloudSession
  import opened GcloudThreads
  import opened GcloudDisconnect

  /** There is no session, and none is being set up by mqtt_connect. */
  ghost predicate NoSession(s: State) {
    !s.connected && !s.awaiting && !s.g.InConnect?
  }

  /** Every command but CONNECT is ignored without a session. */
  lemma NoSessionStep(s: State, a: Action)
    requires NoSession(s) && Step(s, a).Some?
    ensures NoSession(Step(s, a).value) || (a.GGet? && s.buf[0].cmd.Connect?)
    ensures a.GGet? && !s.buf[0].cmd.Connect? ==> CallOf(s, a) == []
  {
    match a
    case GGet(_) =>
    case _ =>
  }

  /** The log `calls` went on, first with an mqtt_connect. */
  ghost predicate ConnectCameNext(calls: seq<Event>, calls': seq<Event>) {
    calls <= calls' && |calls| < |calls'| && calls'[|calls|].Call? && calls'[|calls|].cmd.Connect?
  }

  lemma CameNextStays(calls: seq<Event>, calls': seq<Event>, more: seq<Event>)
    requires ConnectCameNext(calls, calls')
    ensures ConnectCameNext(calls, calls' + more)
  {
  }

  /**
   * Without a session the next library call is mqtt_connect, whatever is queued and whatever the
   * other threads do.
   */
  lemma {:induction false} NextCallIsConnect(s: State, acts: seq<Action>)
    requires NoSession(s) && Run(s, acts).Some?
    ensures var t := Run(s, acts).value;
            || (NoSession(t) && Calls(t.log) == Calls(s.log))
            || ConnectCameNext(Calls(s.log), Calls(t.log))
  {
    if acts == [] {
    } else {
      NextCallIsConnect(s, acts[..|acts| - 1]);
      var t, a := Run(s, acts[..|acts| - 1]).value, acts[|acts| - 1];
      StepCalls(t, a);
      if ConnectCameNext(Calls(s.log), Calls(t.log)) {
        CameNextStays(Calls(s.log), Calls(t.log), CallOf(t, a));
      } else {
        NoSessionStep(t, a);
      }
    }
  }

  /** Command n is a CONNECT in the queue, there is no session, and no thread is left that could purge it. */
  ghost predicate ConnectWaits(s: State, n: nat) {
    && Conserved(s) && NoSession(s) && s.m.MDead? && (s.g.CbSem? || s.g.GIdle?)
    && |s.fates| <= n < |s.accepted| && s.accepted[n] == Req(GcloudThread, Connect)
  }

  lemma DequeueGrows(s: State, waiter: nat)
    requires s.buf != [] && (s.waiters != [] ==> waiter < |s.waiters|)
    ensures var t := Dequeue(s, waiter);
            && s.accepted <= t.accepted && t.fates == s.fates && t.g == s.g
            && t.connected == s.connected && t.awaiting == s.awaiting && (s.m.MDead? ==> t.m.MDead?)
  {
  }

  lemma GetIgnores(s: State, waiter: nat, n: nat)
    requires ConnectWaits(s, n) && Step(s, GGet(waiter)).Some? && !s.buf[0].cmd.Connect?
    ensures var t := Step(s, GGet(waiter)).value;
            && s.accepted <= t.accepted && |t.fates| == |s.fates| + 1 <= n
            && NoSession(t) && t.m.MDead? && t.g.GIdle?
  {
    assert s.buf[0] == s.accepted[|s.fates|];
    DequeueGrows(s, waiter);
    assert Step(s, GGet(waiter)).value == Settle(Dequeue(s, waiter), |s.fates|, s.buf[0].cmd);
  }

  lemma ConnectWaitsStep(s: State, a: Action, n: nat)
    requires ConnectWaits(s, n) && Step(s, a).Some?
    ensures ConnectWaits(Step(s, a).value, n) || (a.GGet? && s.buf[0].cmd.Connect?)
  {
    ConservedStep(s, a);
    if IsAppAction(a) {
      AppOnlyPuts(s, a);
    } else if a.GGet? && !s.buf[0].cmd.Connect? {
      GetIgnores(s, a.waiter, n);
    }
  }

  lemma {:induction false} WaitsOrConnects(s: State, acts: seq<Action>, n: nat)
    requires ConnectWaits(s, n) && Run(s, acts).Some?
    ensures var t := Run(s, acts).value;
            (ConnectWaits(t, n) && Calls(t.log) == Calls(s.log)) || ConnectCameNext(Calls(s.log), Calls(t.log))
  {
    if acts == [] {
    } else {
      var t, a := Run(s, acts[..|acts| - 1]).value, acts[|acts| - 1];
      WaitsOrConnects(s, acts[..|acts| - 1], n);
      StepCalls(t, a);
      if ConnectCameNext(Calls(s.log), Calls(t.log)) {
        CameNextStays(Calls(s.log), Calls(t.log), CallOf(t, a));
      } else {
        ConnectWaitsStep(t, a, n);
      }
    }
  }

  lemma PutWaits(s: State)
    requires Conserved(s) && NoSession(s) && s.m.MDead? && s.g.CbPut? && |s.buf| < N_MESSAGES
    ensures var t := Accept(s, Req(GcloudThread, Connect)).(g := CbSem);
            Step(s, GPut) == Some(t) && ConnectWaits(t, |s.accepted|)
  {
    PutConserves(s, Req(GcloudThread, Connect));
  }

  /**
   * When the callback of a reconnect puts its CONNECT into a queue with room, whatever commands are in
   * front of it and whatever other threads queue meanwhile: the CONNECT stays queued, and no library
   * call is made, until a CONNECT is executed.
   */
  lemma ReconnectGoesNext(s: State, put: State, acts: seq<Action>, t: State)
    requires Reachable(s) && s.g.CbPut? && !s.connected && |s.buf| < N_MESSAGES
    requires Step(s, GPut) == Some(put) && Run(put, acts) == Some(t)
    ensures || (&& |t.fates| <= |s.accepted| < |t.accepted| && t.accepted[|s.accepted|] == Req(GcloudThread, Connect)
                && Calls(t.log) == Calls(s.log))
            || ConnectCameNext(Calls(s.log), Calls(t.log))
  {
    ThreadsHold(s);
    CommandsAreConserved(s);
    PutWaits(s);
    WaitsOrConnects(put, acts, |s.accepted|);
  }

  /** In every run the next library call is mqtt_connect. */
  ghost predicate NextIsConnect(t: State) {
    forall acts: seq<Action> :: Run(t, acts).Some? ==>
      var u := Run(t, acts).value; Calls(u.log) == Calls(t.log) || ConnectCameNext(Calls(t.log), Calls(u.log))
  }

  lemma CallbackPurges(s: State) returns (t: State)
    requires s.g.InDisconnect?
    ensures Step(s, GCallback) == Some(t) && Calls(t.log) == Calls(s.log)
    ensures t.connected == s.connected && t.permit == s.permit && t.passed == s.passed
    ensures t.g.CbDecide? && t.buf == [] && t.waiters == []
  {
    t := Step(s, GCallback).value;
    StepCalls(s, GCallback);
  }

  /** A CONNACK that comes while mqtt_disconnect blocks, and the callback's purge. */
  lemma ConnackThenCallback(t: State) returns (acts: seq<Action>, s: State)
    requires t.m.MIdle? && t.awaiting && t.g.InDisconnect?
    ensures Run(t, acts) == Some(s) && Calls(s.log) == Calls(t.log)
    ensures s.connected && s.permit && s.g.CbDecide? && s.buf == [] && s.waiters == [] && s.passed == t.passed
  {
    var before, t1 := LateConnack(t);
    s := CallbackPurges(t1);
    RunStep(t, before, t1, GCallback, s);
    acts := before + [GCallback];
  }

  /** An application thread sees `connected` and publishes. */
  lemma PublishPosted(s: State) returns (acts: seq<Action>, u: State)
    requires s.connected && s.buf == [] && s.waiters == []
    ensures Run(s, acts) == Some(u) && u == Accept(s, Req(App, Publish(0)))
  {
    RunTwo(s, AppCheck(Publish(0)), AppPublish(Publish(0)));
    assert s.passed + multiset{Publish(0)} - multiset{Publish(0)} == s.passed;
    u := Accept(s, Req(App, Publish(0)));
    acts := [AppCheck(Publish(0)), AppPublish(Publish(0))];
  }

  lemma DecidesAndPuts(s: State) returns (acts: seq<Action>, u: State)
    requires s.connected && s.g.CbDecide? && |s.buf| == 1 && s.waiters == []
    ensures Run(s, acts) == Some(u)
    ensures u.connected && u.permit == s.permit && u.g.CbSem? && u.waiters == [] && u.log == s.log
    ensures u.buf == s.buf + [Req(GcloudThread, Connect)]
  {
    assert Others([], MqttThread) == [];
    RunTwo(s, GDecide, GPut);
    u := Accept(s.(g := CbPut, m := MDead), Req(GcloudThread, Connect)).(g := CbSem);
    acts := [GDecide, GPut];
  }

  lemma CallbackReturns(s: State) returns (acts: seq<Action>, u: State)
    requires s.connected && s.permit && s.g.CbDecide? && |s.buf| == 1 && s.waiters == []
    ensures Run(s, acts) == Some(u)
    ensures u.connected && u.g.GIdle? && u.waiters == [] && u.log == s.log && u.buf != [] && u.buf[0] == s.buf[0]
  {
    var some, t := DecidesAndPuts(s);
    u := t.(g := GIdle, permit := false);
    RunStep(s, some, t, GSemTake, u);
    acts := some + [GSemTake];
  }

  /** The window that such a CONNACK opens lets a publish through before the CONNECT of the callback. */
  lemma PublishReachesHead(t: State) returns (acts: seq<Action>, s: State)
    requires t.m.MIdle? && t.awaiting && t.g.InDisconnect?
    ensures Run(t, acts) == Some(s) && Calls(s.log) == Calls(t.log)
    ensures s.connected && s.g.GIdle? && s.waiters == [] && s.buf != [] && s.buf[0].cmd.Publish?
  {
    var a, s1 := ConnackThenCallback(t);
    var b, s2 := PublishPosted(s1);
    var c, s3 := CallbackReturns(s2);
    RunThen(t, a, s1, b, s2);
    RunThen(t, a + b, s2, c, s3);
    acts, s := a + b + c, s3;
  }

  lemma PublishComesFirst(t: State)
    requires t.m.MIdle? && t.awaiting && t.g.InDisconnect?
    ensures !NextIsConnect(t)
  {
    var acts, s := PublishReachesHead(t);
    StepCalls(s, GGet(0));
    RunSnoc(t, acts, GGet(0));
    assert Run(t, acts + [GGet(0)]).Some?;
  }

  /**
   * When a RECONNECT_TIMEOUT takes effect the session ends, `connecting` goes up and the timer stops.
   * The next library call of every run is mqtt_connect exactly if no CONNACK is due at that moment.
   */
  lemma ReconnectTakesEffect(s: State, waiter: nat, t: State)
    requires Reachable(s) && s.connected && s.buf != [] && s.buf[0].cmd.ReconnectTimeout?
    requires Step(s, GGet(waiter)) == Some(t)
    ensures !t.connected && t.connecting && !t.armed && t.g.InDisconnect?
    ensures NextIsConnect(t) <==> !s.awaiting
  {
    Disconnecting(s, waiter, t);
    if s.awaiting {
      PublishComesFirst(t);
    } else {
      forall acts: seq<Action> | Run(t, acts).Some?
        ensures var u := Run(t, acts).value; Calls(u.log) == Calls(t.log) || ConnectCameNext(Calls(t.log), Calls(u.log))
      {
        NextCallIsConnect(t, acts);
      }
    }
  }

  /** A run in which a RECONNECT_TIMEOUT takes effect while a CONNACK is due, and a publish comes before the CONNECT. */
  lemma LateConnackLetsPublishThrough()
    ensures exists s, t :: && Reachable(s) && s.connected && s.awaiting && s.buf == [Req(TimerIsr, ReconnectTimeout)]
                           && Step(s, GGet(0)) == Some(t) && !NextIsConnect(t)
  {
    var s := ConnectsAgain();
    s := TimerPosts(s);
    var t := Step(s, GGet(0)).value;
    ReconnectTakesEffect(s, 0, t);
  }

  lemma TimerPosts(s: State) returns (t: State)
    requires Reachable(s) && s.g.GIdle? && s.connected && s.armed && s.buf == [] && s.waiters == []
    ensures Reachable(t) && t.g.GIdle? && t.connected && t.awaiting == s.awaiting && t.waiters == []
    ensures t.buf == [Req(TimerIsr, ReconnectTimeout)]
  {
    t := ReachableStep(s, TimerExpires);
  }

  /**
   * From the RECONNECT_TIMEOUT through the put of its callback: with room in the queue the CONNECT is
   * accepted and stays queued, and no library call is made, until a CONNECT is executed. `p` is the
   * moment of the put; any threads may act before and after it.
   */
  lemma ReconnectPostsConnect(s: State, waiter: nat, t: State, before: seq<Action>,
                              p: State, after: seq<Action>, u: State)
    requires Reachable(s) && s.connected && !s.awaiting && s.buf != [] && s.buf[0].cmd.ReconnectTimeout?
    requires Step(s, GGet(waiter)) == Some(t) && Run(t, before) == Some(p)
    requires p.g.CbPut? && |p.buf| < N_MESSAGES && Run(p, [GPut] + after) == Some(u)
    ensures || (&& |u.fates| <= |p.accepted| < |u.accepted| && u.accepted[|p.accepted|] == Req(GcloudThread, Connect)
                && Calls(u.log) == Calls(t.log))
            || ConnectCameNext(Calls(t.log), Calls(u.log))
  {
    Disconnecting(s, waiter, t);
    NextCallIsConnect(t, before);
    ReachesPut(s, waiter, t, before, p);
    var put := PutStep(p, after, u);
    if NoSession(p) && Calls(p.log) == Calls(t.log) {
      ReconnectGoesNext(p, put, after, u);
    } else {
      CallsGrow(put, after);
    }
  }

  lemma PutStep(p: State, after: seq<Action>, u: State) returns (put: State)
    requires p.g.CbPut? && |p.buf| < N_MESSAGES && Run(p, [GPut] + after) == Some(u)
    ensures Step(p, GPut) == Some(put) && put.accepted == p.accepted + [Req(GcloudThread, Connect)]
    ensures Calls(put.log) == Calls(p.log) && Run(put, after) == Some(u)
  {
    RunSplits(p, [GPut], after);
    RunOne(p, GPut);
    put := Step(p, GPut).value;
    StepCalls(p, GPut);
  }

  lemma ReachesPut(s: State, waiter: nat, t: State, acts: seq<Action>, p: State)
    requires Reachable(s) && Step(s, GGet(waiter)) == Some(t) && Run(t, acts) == Some(p)
    ensures Reachable(p)
  {
    var before :| Run(Init(), before) == Some(s);
    RunStep(Init(), before, s, GGet(waiter), t);
    RunConcat(Init(), before + [GGet(waiter)], acts);
  }

  /** Library calls are never taken back. */
  lemma {:induction false} CallsGrow(s: State, acts: seq<Action>)
    requires Run(s, acts).Some?
    ensures Calls(s.log) <= Calls(Run(s, acts).value.log)
  {
    if acts == [] {
    } else {
      CallsGrow(s, acts[..|acts| - 1]);
      StepCalls(Run(s, acts[..|acts| - 1]).value, acts[|acts| - 1]);
    }
  }

  predicate FromGcloudThread(r: Req) {
    r.who == GcloudThread
  }

  /** How many CONNECTs of reconnect callbacks the queue has accepted. */
  function Reposted(s: State): nat {
    Count(s.accepted, FromGcloudThread)
  }

  lemma AcceptReposts(s: State, r: Req)
    ensures Reposted(Accept(s, r)) == Reposted(s) + Bit(r.who == GcloudThread)
  {
    CountAppend(s.accepted, r, FromGcloudThread);
  }

  lemma RepostedApp(s: State, a: Action)
    requires AppStep(s, a).Some?
    ensures Reposted(AppStep(s, a).value) == Reposted(s)
  {
    match a
    case AppConnect => AcceptReposts(s, Req(App, Connect));
    case AppDisconnect => AcceptReposts(s, Req(App, Disconnect));
    case AppPublish(cmd) => AcceptReposts(s, Req(App, cmd));
    case TimerExpires => AcceptReposts(s, Req(TimerIsr, ReconnectTimeout));
    case _ =>
  }

  lemma RepostedGet(s: State, waiter: nat)
    requires ThreadsFit(s) && s.g.GIdle? && s.buf != [] && (s.waiters != [] ==> waiter < |s.waiters|)
    ensures Reposted(Dispatch(Dequeue(s, waiter), |s.fates|, s.buf[0].cmd)) == Reposted(s)
  {
    EffectKeeps(Settle(Dequeue(s, waiter), |s.fates|, s.buf[0].cmd), s.buf[0].cmd);
    if s.waiters != [] {
      assert s.waiters[waiter] in s.waiters;
      CountAppend(s.accepted, s.waiters[waiter], FromGcloudThread);
    }
  }

  lemma RepostedGcloud(s: State, a: Action)
    requires ThreadsFit(s) && GcloudStep(s, a).Some?
    ensures Reposted(GcloudStep(s, a).value) == Reposted(s) + Bit(a.GPut? && |s.buf| < N_MESSAGES)
  {
    match a
    case GGet(waiter) => RepostedGet(s, waiter);
    case GPut => AcceptReposts(s, Req(GcloudThread, Connect));
    case _ =>
  }

  /**
   * A CONNECT of a reconnect callback is accepted when it is put into a queue with room, and in no
   * other way: a callback that finds the queue full waits in vain, since its own thread is the one
   * that would take commands out.
   */
  lemma RepostedOnlyWithRoom(s: State, a: Action, t: State)
    requires Reachable(s) && Step(s, a) == Some(t)
    ensures Reposted(t) == Reposted(s) + Bit(a.GPut? && |s.buf| < N_MESSAGES)
  {
    ThreadsHold(s);
    if IsAppAction(a) {
      RepostedApp(s, a);
    } else if IsMqttAction(a) {
      AcceptReposts(s, Req(MqttThread, Subscribe));
    } else {
      RepostedGcloud(s, a);
    }
  }

  /** The timer fires, and its command takes effect. */
  lemma TimerDisconnects() returns (s: State)
    ensures Reachable(s) && s.g.InDisconnect? && !s.connected && s.connecting && s.buf == [] && s.waiters == []
  {
    s := FirstSession();
    s := ReachableStep(s, TimerExpires);
    s := ReachableStep(s, GGet(0));
  }

  lemma CallbackGoesToPut(s: State) returns (t: State)
    requires Reachable(s) && s.g.InDisconnect? && !s.connected && s.connecting && s.buf == [] && s.waiters == []
    ensures Reachable(t) && t.g.CbPut? && !t.connected && t.connecting && t.buf == [] && t.waiters == []
  {
    assert Others([], MqttThread) == [];
    t := ReachableStep(s, GCallback);
    t := ReachableStep(t, GDecide);
  }

  /** Between the purge and the put of the callback, the application fills the queue. */
  lemma QueueFills(s: State) returns (t: State)
    requires Reachable(s) && s.g.CbPut? && !s.connected && s.connecting && s.buf == [] && s.waiters == []
    ensures Reachable(t) && t.g.CbPut? && !t.connected && t.connecting && |t.buf| == N_MESSAGES && t.waiters == []
  {
    t := ReachableStep(s, AppDisconnect);
    t := ReachableStep(t, AppDisconnect);
    t := ReachableStep(t, AppDisconnect);
  }

  /** A run in which the CONNECT of a reconnect finds the queue full. */
  lemma RepostMeetsFullQueue()
    ensures exists s :: && Reachable(s) && s.g.CbPut? && !s.connected && s.connecting && |s.buf| == N_MESSAGES
                        && Step(s, GPut).Some? && Reposted(Step(s, GPut).value) == Reposted(s)
  {
    var s := TimerDisconnects();
    s := CallbackGoesToPut(s);
    s := QueueFills(s);
    RepostedOnlyWithRoom(s, GPut, Step(s, GPut).value);
  }
}
