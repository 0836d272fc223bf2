/**
 * The functions of gcloud.c as methods over the flags, the queue, the timer and the semaphore that
 * they change. Each method runs undisturbed and returns the run of GcloudMachine that it is.
 */
module GcloudClient {
  import opened Kernel
  import opened GcloudMachine
  import opened GcloudQueue

  /** The MQTT events that mqtt_event_handler acts upon; any other event only writes a log line. */
  datatype MqttEvt =
    | EvtConnack(result: int)
    | EvtPublish(qos: nat, id: nat, len: nat, result: int)
    | EvtDisconnect
    | EvtPubrec(id: nat, result: int)
    | EvtOther

  lemma {:induction false} NoneOut(q: seq<Req>, who: Who)
    requires forall r :: r in q ==> r.who != who
    ensures Others(q, who) == q
  {
    if q == [] {
    } else {
      NoneOut(q[..|q| - 1], who);
      assert q == q[..|q| - 1] + [q[|q| - 1]];
    }
  }

  lemma OthersKeep(q: seq<Req>, r: Req)
    requires forall x :: x in q ==> x.who != r.who
    ensures Others(q, r.who) == q && Others(q + [r], r.who) == q
  {
    NoneOut(q, r.who);
    assert (q + [r])[..|q|] == q;
  }

  lemma SubscribePends(s: State)
    requires s.m.MPut? && |s.buf| >= N_MESSAGES
    ensures Step(s, MPutSubscribe) == Some(s.(m := MWaitPut, waiters := s.waiters + [Req(MqttThread, Subscribe)]))
  {
  }

  /** The SUBSCRIBE that finds the queue full is pended and times out. */
  lemma SubscribeTimesOut(s: State)
    requires s.m.MPut? && |s.buf| >= N_MESSAGES && forall r :: r in s.waiters ==> r.who != MqttThread
    ensures Run(s, [MPutSubscribe, MPutTimeout]) == Some(s.(m := MIdle))
  {
    var r := Req(MqttThread, Subscribe);
    var t := s.(m := MWaitPut, waiters := s.waiters + [r]);
    OthersKeep(s.waiters, r);
    SubscribePends(s);
    RunOne(s, MPutSubscribe);
    assert Step(t, MPutTimeout) == Some(t.(m := MIdle, waiters := s.waiters));
    RunStep(s, [MPutSubscribe], t, MPutTimeout, s.(m := MIdle));
    assert [MPutSubscribe] + [MPutTimeout] == [MPutSubscribe, MPutTimeout];
  }

  /** A publish command that was checked: its put goes through, ... */
  lemma PublishAccepted(s: State, cmd: Cmd)
    requires s.connected && IsPublish(cmd) && |s.buf| < N_MESSAGES
    ensures Run(s, [AppCheck(cmd), AppPublish(cmd)]) == Some(Accept(s, Req(App, cmd)))
  {
    assert (s.passed + multiset{cmd}) - multiset{cmd} == s.passed;
    RunTwo(s, AppCheck(cmd), AppPublish(cmd));
  }

  /** ... or finds the queue full, ... */
  lemma PublishPends(s: State, cmd: Cmd)
    requires s.connected && IsPublish(cmd) && |s.buf| >= N_MESSAGES
    ensures Run(s, [AppCheck(cmd), AppPublish(cmd)]) == Some(s.(waiters := s.waiters + [Req(App, cmd)]))
  {
    assert (s.passed + multiset{cmd}) - multiset{cmd} == s.passed;
    RunTwo(s, AppCheck(cmd), AppPublish(cmd));
  }

  /** ... and times out. */
  lemma PublishTimesOut(s: State, cmd: Cmd) returns (trace: seq<Action>)
    requires s.connected && IsPublish(cmd) && |s.buf| >= N_MESSAGES
    ensures Run(s, trace) == Some(s) && forall x :: x in trace ==> IsAppAction(x)
  {
    PublishPends(s, cmd);
    var t := s.(waiters := s.waiters + [Req(App, cmd)]);
    assert Without(t.waiters, |s.waiters|) == s.waiters;
    RunStep(s, [AppCheck(cmd), AppPublish(cmd)], t, AppTimeout(|s.waiters|), s);
    trace := [AppCheck(cmd), AppPublish(cmd)] + [AppTimeout(|s.waiters|)];
  }

  /** A CONNECT or DISCONNECT of the application that finds the queue full is pended and times out. */
  lemma AppPutTimesOut(s: State, a: Action) returns (trace: seq<Action>)
    requires (a.AppConnect? || a.AppDisconnect?) && |s.buf| >= N_MESSAGES
    ensures Run(s, trace) == Some(s) && forall x :: x in trace ==> IsAppAction(x)
  {
    var r := Req(App, if a.AppConnect? then Connect else Disconnect);
    var t := s.(waiters := s.waiters + [r]);
    assert Step(s, a) == Some(t);
    RunOne(s, a);
    assert Without(t.waiters, |s.waiters|) == s.waiters;
    RunStep(s, [a], t, AppTimeout(|s.waiters|), s);
    trace := [a] + [AppTimeout(|s.waiters|)];
  }

  /** gcloud_connect in the callback of a reconnect, with room in the queue. */
  lemma RepostRuns(s: State) returns (trace: seq<Action>)
    requires s.g.CbPut? && |s.buf| < N_MESSAGES
    ensures Run(s, trace) == Some(Accept(s, Req(GcloudThread, Connect)).(g := GIdle, permit := false))
    ensures forall x :: x in trace ==> IsGcloudAction(x)
  {
    var take := if s.permit then GSemTake else GSemTimeout;
    RunTwo(s, GPut, take);
    trace := [GPut, take];
  }

  /** A command that ends the session it finds. */
  predicate EndsSession(c: Cmd) {
    c.Disconnect? || c.ReconnectTimeout?
  }

  /** The queue and the pended threads after one command was taken. */
  function TakenFrom(q: seq<Req>): seq<Req> {
    if q == [] then [] else [q[0]]
  }

  function Behind(q: seq<Req>): seq<Req> {
    if q == [] then [] else q[1..]
  }

  /**
   * The events of gcloud_thread from command number n on, with `buf` and `waiters` queued and pended and
   * nobody else queueing. callsBack(k) tells whether mqtt_disconnect delivers its event when it is
   * called for command k: the commands behind are purged, and a reconnect posts and executes CONNECT.
   */
  function Serving(n: nat, buf: seq<Req>, waiters: seq<Req>, connected: bool, callsBack: nat -> bool): seq<Event>
    decreases |buf| + |waiters|
  {
    if buf == [] then []
    else
      var cmd, rest, pended := buf[0].cmd, buf[1..] + TakenFrom(waiters), Behind(waiters);
      if cmd.Connect? then
        OthersShrink(pended, MqttThread);
        [Call(n, cmd)] + Serving(n + 1, rest, Others(pended, MqttThread), connected, callsBack)
      else if !connected then [Skip(n, cmd)] + Serving(n + 1, rest, pended, false, callsBack)
      else if !EndsSession(cmd) then [Call(n, cmd)] + Serving(n + 1, rest, pended, true, callsBack)
      else if !callsBack(n) then [Call(n, cmd)] + Serving(n + 1, rest, pended, false, callsBack)
      else [Call(n, cmd), DisconnectEvt] + if cmd.ReconnectTimeout? then [Call(n + 1 + |rest|, Connect)] else []
  }

  /** One command that does not end a session, when no thread is pended that the call would end. */
  lemma ServingHead(n: nat, buf: seq<Req>, waiters: seq<Req>, connected: bool, callsBack: nat -> bool)
    requires buf != [] && (connected ==> !EndsSession(buf[0].cmd))
    requires forall r :: r in waiters ==> r.who != MqttThread
    ensures var e := if buf[0].cmd.Connect? || connected then Call(n, buf[0].cmd) else Skip(n, buf[0].cmd);
            Serving(n, buf, waiters, connected, callsBack)
            == [e] + Serving(n + 1, buf[1..] + TakenFrom(waiters), Behind(waiters), connected, callsBack)
    ensures buf[1..] + TakenFrom(waiters) + Behind(waiters) == (buf + waiters)[1..]
  {
    NoneOut(Behind(waiters), MqttThread);
  }

  /** In an open session, with no DISCONNECT or RECONNECT_TIMEOUT about, each command gets its call, in order. */
  lemma {:induction false} OpenSessionServesAll(n: nat, buf: seq<Req>, waiters: seq<Req>, callsBack: nat -> bool)
    requires forall r :: r in buf + waiters ==> !EndsSession(r.cmd)
    requires forall r :: r in waiters ==> r.who != MqttThread
    requires buf == [] ==> waiters == []
    ensures var q, log := buf + waiters, Serving(n, buf, waiters, true, callsBack);
            |log| == |q| && forall i :: 0 <= i < |q| ==> log[i] == Call(n + i, q[i].cmd)
    decreases |buf| + |waiters|
  {
    if buf == [] {
    } else {
      ServingHead(n, buf, waiters, true, callsBack);
      OpenSessionServesAll(n + 1, buf[1..] + TakenFrom(waiters), Behind(waiters), callsBack);
    }
  }

  /** Without a session, each CONNECT gets its call and every other command is skipped, in order. */
  lemma {:induction false} NoSessionSkipsAll(n: nat, buf: seq<Req>, waiters: seq<Req>, callsBack: nat -> bool)
    requires forall r :: r in waiters ==> r.who != MqttThread
    requires buf == [] ==> waiters == []
    ensures var q, log := buf + waiters, Serving(n, buf, waiters, false, callsBack);
            && |log| == |q|
            && forall i :: 0 <= i < |q| ==>
                 log[i] == if q[i].cmd.Connect? then Call(n + i, q[i].cmd) else Skip(n + i, q[i].cmd)
    decreases |buf| + |waiters|
  {
    if buf == [] {
    } else {
      ServingHead(n, buf, waiters, false, callsBack);
      NoSessionSkipsAll(n + 1, buf[1..] + TakenFrom(waiters), Behind(waiters), callsBack);
    }
  }

  /** The command at the head is taken and gets its fate, its event and its effect. */
  ghost predicate Took(s: State, t: State)
    requires s.buf != []
  {
    var n, cmd := |s.fates|, s.buf[0].cmd;
    var effective, ends := cmd.Connect? || s.connected, s.connected && EndsSession(cmd);
    && t.buf == s.buf[1..] + TakenFrom(s.waiters) && t.waiters == Behind(s.waiters)
    && t.accepted == s.accepted + TakenFrom(s.waiters)
    && t.fates == s.fates + [if effective then Executed else Ignored]
    && t.log == s.log + [if effective then Call(n, cmd) else Skip(n, cmd)]
    && t.connected == (s.connected && !ends) && t.armed == (s.armed && !ends)
    && t.connecting == (if cmd.Connect? then true else if ends then cmd.ReconnectTimeout? else s.connecting)
    && t.g == (if cmd.Connect? then InConnect else if ends then InDisconnect else GIdle)
    && t.permit == s.permit && t.awaiting == s.awaiting
  }

  /** The library call the thread is in returns, if it is in one. */
  ghost predicate Returned(s: State, t: State, connects: bool, callsBack: bool) {
    && t.g.GIdle? && t.connected == s.connected && t.connecting == s.connecting
    && match s.g
       case InConnect =>
         && t == s.(g := GIdle, m := MIdle, awaiting := connects, waiters := Others(s.waiters, MqttThread))
       case InDisconnect =>
         if !callsBack then t == s.(g := GIdle, awaiting := false)
         else CalledBack(s, t)
       case _ => t == s
  }

  /**
   * The callback of mqtt_disconnect: queue and timer are cleared, and a reconnect ends the MQTT thread
   * and posts CONNECT.
   */
  ghost predicate CalledBack(s: State, t: State) {
    && t.waiters == [] && !t.armed && !t.awaiting
    && t.fates == s.fates + Fates(|s.buf|, Purged) && t.log == s.log + [DisconnectEvt]
    && if s.connected || s.connecting then
         && t.buf == [Req(GcloudThread, Connect)] && t.accepted == s.accepted + t.buf
         && t.m.MDead? && !t.permit
       else
         && t.buf == [] && t.accepted == s.accepted
         && t.m == (if s.m.MWaitPut? then MIdle else s.m) && t.permit == s.permit
  }

  /** One pass of gcloud_thread: the session, ... */
  ghost predicate SessionAfter(s: State, t: State, connects: bool)
    requires s.buf != []
  {
    var cmd := s.buf[0].cmd;
    var ends := s.connected && EndsSession(cmd);
    && t.connected == (s.connected && !ends) && t.armed == (s.armed && !ends)
    && t.connecting == (if cmd.Connect? then true else if ends then cmd.ReconnectTimeout? else s.connecting)
    && t.awaiting == (if cmd.Connect? then connects else s.awaiting && !ends)
  }

  /** ... the queue, what became of commands, and the events. */
  ghost predicate Passed(s: State, t: State, callsBack: bool)
    requires s.buf != []
  {
    var n, cmd, rest := |s.fates|, s.buf[0].cmd, s.buf[1..] + TakenFrom(s.waiters);
    var fate := if cmd.Connect? || s.connected then Executed else Ignored;
    var event := if cmd.Connect? || s.connected then Call(n, cmd) else Skip(n, cmd);
    if s.connected && EndsSession(cmd) && callsBack then
      && t.buf == (if cmd.ReconnectTimeout? then [Req(GcloudThread, Connect)] else []) && t.waiters == []
      && t.accepted == s.accepted + TakenFrom(s.waiters) + t.buf
      && t.fates == s.fates + [fate] + Fates(|rest|, Purged) && t.log == s.log + [event, DisconnectEvt]
    else
      && t.buf == rest
      && t.waiters == (if cmd.Connect? then Others(Behind(s.waiters), MqttThread) else Behind(s.waiters))
      && t.accepted == s.accepted + TakenFrom(s.waiters)
      && t.fates == s.fates + [fate] && t.log == s.log + [event]
  }

  lemma GetTakes(s: State)
    requires s.g.GIdle? && s.buf != []
    ensures var t := Dispatch(Dequeue(s, 0), |s.fates|, s.buf[0].cmd);
            Step(s, GGet(0)) == Some(t) && Took(s, t)
  {
    var d := Dequeue(s, 0);
    if s.waiters != [] {
      assert Without(s.waiters, 0) == s.waiters[1..];
    }
    assert d.buf == s.buf[1..] + TakenFrom(s.waiters) && d.waiters == Behind(s.waiters);
    assert d.accepted == s.accepted + TakenFrom(s.waiters);
    DispatchTakes(s, d, s.buf[0].cmd);
  }

  lemma DispatchTakes(s: State, d: State, cmd: Cmd)
    requires s.buf != [] && cmd == s.buf[0].cmd && d.g.GIdle? && d.fates == s.fates && d.log == s.log
    requires d.buf == s.buf[1..] + TakenFrom(s.waiters) && d.waiters == Behind(s.waiters)
    requires d.accepted == s.accepted + TakenFrom(s.waiters)
    requires d.connected == s.connected && d.connecting == s.connecting && d.armed == s.armed
    requires d.permit == s.permit && d.awaiting == s.awaiting
    ensures Took(s, Dispatch(d, |s.fates|, cmd))
  {
  }

  lemma CallbackFields(s: State, p: State, d: State, t: State)
    requires Step(s, GCallback) == Some(p) && Step(p, GDecide) == Some(d)
    requires t == if d.g.CbPut? then Accept(d, Req(GcloudThread, Connect)).(g := GIdle, permit := false) else d
    ensures t.g.GIdle? && t.connected == s.connected && t.connecting == s.connecting && CalledBack(s, t)
  {
    assert p == DisconnectEvent(s).(g := CbDecide);
    assert p.waiters == [] && d.waiters == [];
  }

  lemma PassPasses(s: State, mid: State, t: State, connects: bool, callsBack: bool)
    requires s.buf != [] && Took(s, mid) && Returned(mid, t, connects, callsBack)
    ensures Passed(s, t, callsBack)
  {
    if mid.g.InDisconnect? && callsBack {
      var e := Call(|s.fates|, s.buf[0].cmd);
      assert s.log + [e] + [DisconnectEvt] == s.log + [e, DisconnectEvt];
      assert s.accepted + TakenFrom(s.waiters) + [] == s.accepted + TakenFrom(s.waiters);
    }
  }

  lemma PassSession(s: State, mid: State, t: State, connects: bool, callsBack: bool)
    requires s.buf != [] && Took(s, mid) && Returned(mid, t, connects, callsBack)
    ensures SessionAfter(s, t, connects)
  {
  }

  /** Commands that are queued or pended, and the one a reconnect can add. */
  function Backlog(s: State): nat {
    |s.buf| + |s.waiters| + 2 * Bit(s.connected)
  }

  lemma PassShrinks(s: State, t: State, connects: bool, callsBack: bool)
    requires s.buf != [] && Passed(s, t, callsBack) && SessionAfter(s, t, connects)
    ensures Backlog(t) < Backlog(s)
  {
    OthersShrink(Behind(s.waiters), MqttThread);
  }

  /** The command has its fate and its event. */
  lemma PassSettles(s: State, t: State, callsBack: bool)
    requires s.buf != [] && Passed(s, t, callsBack)
    ensures |s.fates| < |t.fates| && s.fates <= t.fates && |s.log| < |t.log| && s.log <= t.log
    ensures var n, cmd := |s.fates|, s.buf[0].cmd;
            && t.fates[n] == (if cmd.Connect? || s.connected then Executed else Ignored)
            && t.log[|s.log|] == (if cmd.Connect? || s.connected then Call(n, cmd) else Skip(n, cmd))
  {
  }

  /** An open session that no queued or pended command ends. */
  ghost predicate StaysOpen(s: State) {
    && s.connected && (forall r :: r in s.waiters ==> r.who != MqttThread)
    && forall r :: r in s.buf + s.waiters ==> !r.cmd.Disconnect? && !r.cmd.ReconnectTimeout?
  }

  /** The log grew by exactly one call for each of the commands q, in order, the first being number n. */
  ghost predicate AllCalled(before: seq<Event>, log: seq<Event>, n: nat, q: seq<Req>) {
    && |log| == |before| + |q| && before <= log
    && forall i :: 0 <= i < |q| ==> log[|before| + i] == Call(n + i, q[i].cmd)
  }

  /** The log when the thread has served everybody. */
  function Served(s: State, callsBack: nat -> bool): seq<Event> {
    s.log + Serving(|s.fates|, s.buf, s.waiters, s.connected, callsBack)
  }

  lemma ServingPass(s: State, t: State, callsBack: nat -> bool)
    requires s.buf != [] && Passed(s, t, callsBack(|s.fates|))
    requires t.connected == (s.connected && !EndsSession(s.buf[0].cmd))
    ensures Served(t, callsBack) == Served(s, callsBack)
  {
    var n, cmd, rest := |s.fates|, s.buf[0].cmd, s.buf[1..] + TakenFrom(s.waiters);
    if s.connected && EndsSession(cmd) && callsBack(n) {
      var again := Serving(|t.fates|, t.buf, t.waiters, t.connected, callsBack);
      if cmd.ReconnectTimeout? {
        assert Serving(|t.fates| + 1, [], [], false, callsBack) == [];
        assert t.buf[1..] + TakenFrom(t.waiters) == [];
        assert again == [Call(n + 1 + |rest|, Connect)];
      }
      assert s.log + ([Call(n, cmd), DisconnectEvt] + again) == t.log + again;
    } else {
      var more := Serving(|t.fates|, t.buf, t.waiters, t.connected, callsBack);
      var e := if cmd.Connect? || s.connected then Call(n, cmd) else Skip(n, cmd);
      assert s.log + ([e] + more) == s.log + [e] + more;
    }
  }

  lemma ThreadServed(s: State, callsBack: nat -> bool)
    requires Conserved(s) && StaysOpen(s)
    ensures AllCalled(s.log, Served(s, callsBack), |s.fates|, s.buf + s.waiters)
  {
    OpenSessionServesAll(|s.fates|, s.buf, s.waiters, callsBack);
  }

  datatype Result = Ok | NotConnected | QueueFull

  class Gcloud {
    // gcloud_msgq, with the threads pended on it
    var msgq: seq<Req>
    var waiters: seq<Req>
    // the static flags, reconnect_timer and gc_connected_sem
    var connected: bool
    var connecting: bool
    var timerArmed: bool
    var connectedSem: bool
    // where the two threads are
    var g: GPc
    var m: MPc
    // the environment and the histories, kept for the specification
    var awaiting: bool
    var passed: multiset<Cmd>
    var accepted: seq<Req>
    var fates: seq<Fate>
    var log: seq<Event>

    ghost function View(): State
      reads this
    {
      State(msgq, waiters, connected, connecting, timerArmed, connectedSem, g, m, awaiting, passed,
            accepted, fates, log)
    }

    constructor ()
      ensures View() == Init()
      ensures msgq == [] && waiters == [] && !connected && !connecting && !timerArmed && !connectedSem
    {
      msgq, waiters, connected, connecting, timerArmed, connectedSem := [], [], false, false, false, false;
      g, m, awaiting, passed := GIdle, MDead, false, multiset{};
      accepted, fates, log := [], [], [];
    }

    /** k_msgq_put when nobody takes a command while the caller waits: with the queue full it times out. */
    method MsgqPut(r: Req) returns (ok: bool)
      modifies `msgq, `accepted
      ensures ok == (|old(msgq)| < N_MESSAGES)
      ensures View() == if ok then Accept(old(View()), r) else old(View())
    {
      ok := |msgq| < N_MESSAGES;
      if ok {
        msgq, accepted := msgq + [r], accepted + [r];
      }
    }

    /** k_msgq_get; a pended put, the first one, goes through. */
    method MsgqGet() returns (r: Req)
      requires msgq != []
      modifies `msgq, `waiters, `accepted, `m
      ensures r == old(msgq)[0] && View() == Dequeue(old(View()), 0)
      ensures msgq == old(msgq)[1..] + TakenFrom(old(waiters)) && waiters == Behind(old(waiters))
      ensures accepted == old(accepted) + TakenFrom(old(waiters))
    {
      r := msgq[0];
      msgq := msgq[1..];
      if waiters != [] {
        var w := waiters[0];
        msgq, accepted := msgq + [w], accepted + [w];
        if w.who == MqttThread && m.MWaitPut? {
          m := MIdle;
        }
        waiters := Without(waiters, 0);
        assert waiters == old(waiters)[1..];
      }
    }

    method MsgqPurge()
      modifies `msgq, `waiters, `fates, `g, `m
      ensures View() == Purge(old(View()))
      ensures msgq == [] && waiters == [] && fates == old(fates) + Fates(|old(msgq)|, Purged)
    {
      fates := fates + Fates(|msgq|, Purged);
      msgq, waiters := [], [];
      if g.CbWaitPut? {
        g := CbSem;
      }
      if m.MWaitPut? {
        m := MIdle;
      }
    }

    /** The timer's expiry function: the command is lost when the queue is full. */
    method ReconnectTimerHandler()
      requires timerArmed
      modifies `msgq, `accepted
      ensures Step(old(View()), TimerExpires) == Some(View())
      ensures msgq == old(msgq) + if |old(msgq)| < N_MESSAGES then [Req(TimerIsr, ReconnectTimeout)] else []
    {
      var _ := MsgqPut(Req(TimerIsr, ReconnectTimeout));
      assert msgq == old(msgq) + if |old(msgq)| < N_MESSAGES then [Req(TimerIsr, ReconnectTimeout)] else [];
    }

    /** gcloud_publish and gcloud_publish_state: posts a command if there is a session and room in the queue. */
    method Post(cmd: Cmd) returns (result: Result, ghost trace: seq<Action>)
      requires IsPublish(cmd)
      modifies `msgq, `accepted
      ensures Run(old(View()), trace) == Some(View()) && forall a :: a in trace ==> IsAppAction(a)
      ensures result == if !old(connected) then NotConnected else if |old(msgq)| < N_MESSAGES then Ok else QueueFull
      ensures msgq == old(msgq) + if result.Ok? then [Req(App, cmd)] else []
    {
      if !connected {
        trace := [AppCheck(cmd)];
        RunOne(View(), AppCheck(cmd));
        return NotConnected, trace;
      }
      var ok := MsgqPut(Req(App, cmd));
      if ok {
        PublishAccepted(old(View()), cmd);
        return Ok, [AppCheck(cmd), AppPublish(cmd)];
      }
      result := QueueFull;
      trace := PublishTimesOut(old(View()), cmd);
    }

    /** gcloud_connect of the application: a result of 0 means only that the command was queued. */
    method GcloudConnect() returns (ok: bool, ghost trace: seq<Action>)
      modifies `msgq, `accepted, `connectedSem
      ensures Run(old(View()), trace) == Some(View()) && forall a :: a in trace ==> IsAppAction(a)
      ensures ok == (|old(msgq)| < N_MESSAGES) && !connectedSem
      ensures msgq == old(msgq) + if ok then [Req(App, Connect)] else []
    {
      ghost var s0 := View();
      ok := MsgqPut(Req(App, Connect));
      ghost var s1 := View();
      if ok {
        RunOne(s0, AppConnect);
        trace := [AppConnect];
      } else {
        trace := AppPutTimesOut(s0, AppConnect);
      }
      if connectedSem {
        connectedSem := false;
        RunStep(s0, trace, s1, AppSemTake, View());
        trace := trace + [AppSemTake];
      }
      assert msgq == s0.buf + if ok then [Req(App, Connect)] else [];
    }

    /** gcloud_disconnect: the command is queued, session or not, if there is room. */
    method GcloudDisconnect() returns (ok: bool, ghost trace: seq<Action>)
      modifies `msgq, `accepted
      ensures Run(old(View()), trace) == Some(View()) && forall a :: a in trace ==> IsAppAction(a)
      ensures ok == (|old(msgq)| < N_MESSAGES)
      ensures msgq == old(msgq) + if ok then [Req(App, Disconnect)] else []
    {
      ghost var s0 := View();
      ok := MsgqPut(Req(App, Disconnect));
      if ok {
        RunOne(s0, AppDisconnect);
        trace := [AppDisconnect];
      } else {
        trace := AppPutTimesOut(s0, AppDisconnect);
      }
      assert msgq == s0.buf + if ok then [Req(App, Disconnect)] else [];
    }

    /** The histories of a command that was taken. */
    method Record(n: nat, cmd: Cmd)
      modifies `fates, `log
      ensures View() == Settle(old(View()), n, cmd)
    {
      if cmd.Connect? || connected {
        fates, log := fates + [Executed], log + [Call(n, cmd)];
      } else {
        fates, log := fates + [Ignored], log + [Skip(n, cmd)];
      }
    }

    /** The switch of gcloud_thread, up to the return of the blocking library call it makes. */
    method DispatchCommand(n: nat, cmd: Cmd)
      requires g.GIdle?
      modifies `connected, `connecting, `timerArmed, `g, `fates, `log
      ensures View() == Dispatch(old(View()), n, cmd)
    {
      ghost var s0 := View();
      Record(n, cmd);
      assert View() == Settle(s0, n, cmd);
      assert !cmd.Connect? && !connected ==> View() == Dispatch(s0, n, cmd);
      match cmd
      case Connect =>
        connecting := true;
        g := InConnect;
      case ReconnectTimeout =>
        if connected {
          timerArmed := false;
          connected := false;
          connecting := true;
          g := InDisconnect;
        }
      case Disconnect =>
        if connected {
          timerArmed := false;
          connected := false;
          connecting := false;
          g := InDisconnect;
        }
      case _ =>
    }

    /** mqtt_connect returns, and the MQTT thread is created whatever it returned. */
    method ConnectReturns(ok: bool)
      requires g.InConnect?
      modifies `g, `m, `awaiting, `waiters
      ensures Step(old(View()), GConnectReturn(ok)) == Some(View())
      ensures g.GIdle? && m.MIdle? && awaiting == ok && waiters == Others(old(waiters), MqttThread)
    {
      g, m, awaiting, waiters := GIdle, MIdle, ok, Others(waiters, MqttThread);
    }

    /** MQTT_EVT_DISCONNECT, on either thread, up to the purge. */
    method OnDisconnectEvent()
      modifies `msgq, `waiters, `fates, `g, `m, `timerArmed, `awaiting, `log
      ensures View() == DisconnectEvent(old(View()))
      ensures !timerArmed && !awaiting && msgq == [] && waiters == []
      ensures fates == old(fates) + Fates(|old(msgq)|, Purged) && log == old(log) + [DisconnectEvt]
    {
      timerArmed, awaiting := false, false;
      MsgqPurge();
      log := log + [DisconnectEvt];
    }

    /** On the gcloud thread: the timer is stopped and the queue purged ... */
    method CallbackPurges()
      requires g.InDisconnect?
      modifies `msgq, `waiters, `fates, `g, `m, `timerArmed, `awaiting, `log
      ensures Step(old(View()), GCallback) == Some(View()) && g.CbDecide? && msgq == [] && waiters == []
    {
      OnDisconnectEvent();
      g := CbDecide;
    }

    /** ... with a flag up, the MQTT thread is ended ... */
    method CallbackDecides()
      requires g.CbDecide?
      modifies `g, `m, `waiters
      ensures Step(old(View()), GDecide) == Some(View())
      ensures if connected || connecting then g.CbPut? && m.MDead? else g.GIdle? && m == old(m)
    {
      if connected || connecting {
        g, m, waiters := CbPut, MDead, Others(waiters, MqttThread);
      } else {
        g := GIdle;
      }
    }

    /** ... and gcloud_connect posts a CONNECT and takes the semaphore, or times out on it. */
    method CallbackReposts() returns (ghost trace: seq<Action>)
      requires g.CbPut? && |msgq| < N_MESSAGES
      modifies `g, `msgq, `accepted, `connectedSem
      ensures Run(old(View()), trace) == Some(View()) && forall a :: a in trace ==> IsGcloudAction(a)
      ensures View() == Accept(old(View()), Req(Who.GcloudThread, Connect)).(g := GIdle, permit := false)
    {
      trace := RepostRuns(View());
      var _ := MsgqPut(Req(Who.GcloudThread, Connect));
      // k_sem_take, which succeeds or times out
      connectedSem := false;
      g := GIdle;
    }

    /** MQTT_EVT_DISCONNECT, delivered by mqtt_disconnect on the gcloud thread. */
    method DisconnectCallback() returns (ghost trace: seq<Action>)
      requires g.InDisconnect?
      modifies this
      ensures Run(old(View()), trace) == Some(View()) && forall a :: a in trace ==> IsGcloudAction(a)
      ensures g.GIdle? && connected == old(connected) && connecting == old(connecting)
      ensures CalledBack(old(View()), View())
    {
      ghost var s0 := View();
      CallbackPurges();
      ghost var s1 := View();
      CallbackDecides();
      ghost var s2 := View();
      RunTwo(s0, GCallback, GDecide);
      trace := [GCallback, GDecide];
      if g.CbPut? {
        ghost var rest := CallbackReposts();
        RunThen(s0, trace, s2, rest, View());
        trace := trace + rest;
      }
      CallbackFields(s0, s1, s2, View());
    }

    /** The end of the CONNACK case: SUBSCRIBE is posted, or times out on a full queue. */
    method PostSubscribe() returns (ghost trace: seq<Action>)
      requires m.MPut? && forall r :: r in waiters ==> r.who != MqttThread
      modifies `m, `msgq, `accepted
      ensures Run(old(View()), trace) == Some(View()) && forall a :: a in trace ==> IsMqttAction(a)
      ensures msgq == old(msgq) + if |old(msgq)| < N_MESSAGES then [Req(MqttThread, Subscribe)] else []
      ensures m.MIdle?
    {
      ghost var s0 := View();
      if |msgq| < N_MESSAGES {
        var _ := MsgqPut(Req(MqttThread, Subscribe));
        m := MIdle;
        RunOne(s0, MPutSubscribe);
        trace := [MPutSubscribe];
      } else {
        var _ := MsgqPut(Req(MqttThread, Subscribe));
        m := MIdle;
        SubscribeTimesOut(s0);
        trace := [MPutSubscribe, MPutTimeout];
        assert msgq == s0.buf + [];
      }
    }

    /** The CONNACK case, up to its k_msgq_put. */
    method ConnackArrives(result: int)
      modifies `awaiting, `connected, `connecting, `timerArmed, `connectedSem, `m, `log
      ensures View() == if result == 0 then SessionStarts(old(View())) else old(View()).(awaiting := false)
    {
      awaiting := false;
      if result != 0 {
        return;
      }
      connectedSem := true;
      connected := true;
      connecting := false;
      timerArmed := true;
      m, log := MPut, log + [ConnackOk];
    }

    method OnConnack(result: int) returns (ghost trace: seq<Action>)
      requires m.MIdle? && awaiting && forall r :: r in waiters ==> r.who != MqttThread
      modifies `awaiting, `connected, `connecting, `timerArmed, `connectedSem, `m, `log, `msgq, `accepted
      ensures Run(old(View()), trace) == Some(View()) && forall a :: a in trace ==> IsMqttAction(a)
      ensures m.MIdle? && !awaiting
      ensures result == 0 ==>
                && connected && !connecting && timerArmed && connectedSem && log == old(log) + [ConnackOk]
                && msgq == old(msgq) + if |old(msgq)| < N_MESSAGES then [Req(MqttThread, Subscribe)] else []
      ensures result != 0 ==> View() == old(View()).(awaiting := false)
    {
      ghost var s0 := View();
      ConnackArrives(result);
      assert View() == if result == 0 then SessionStarts(s0) else s0.(awaiting := false);
      RunOne(s0, MConnack(result));
      trace := [MConnack(result)];
      if result == 0 {
        ghost var rest := PostSubscribe();
        RunConcat(s0, trace, rest);
        trace := trace + rest;
      }
    }

    method OnPublish(qos: nat, id: nat, len: nat, result: int) returns (ghost trace: seq<Action>)
      requires m.MIdle?
      modifies `log
      ensures Run(old(View()), trace) == Some(View()) && forall a :: a in trace ==> IsMqttAction(a)
      ensures log == old(log) + [RxPublish(qos, id)] + if qos == 1 then [Puback(id)] else []
    {
      RunOne(View(), MPublish(qos, id, len, result));
      trace := [MPublish(qos, id, len, result)];
      log := log + [RxPublish(qos, id)] + if qos == 1 then [Puback(id)] else [];
    }

    method OnPubrec(id: nat, result: int) returns (ghost trace: seq<Action>)
      requires m.MIdle?
      modifies `log
      ensures Run(old(View()), trace) == Some(View()) && forall a :: a in trace ==> IsMqttAction(a)
      ensures log == old(log) + [RxPubrec(id, result)] + if result == 0 then [Pubrel(id)] else []
    {
      RunOne(View(), MPubrec(id, result));
      trace := [MPubrec(id, result)];
      log := log + [RxPubrec(id, result)] + if result == 0 then [Pubrel(id)] else [];
    }

    method OnDisconnect() returns (ghost trace: seq<Action>)
      requires m.MIdle?
      modifies `msgq, `waiters, `fates, `g, `m, `timerArmed, `awaiting, `log
      ensures Run(old(View()), trace) == Some(View()) && forall a :: a in trace ==> IsMqttAction(a)
      ensures msgq == [] && waiters == [] && !timerArmed && !awaiting
      ensures fates == old(fates) + Fates(|old(msgq)|, Purged) && log == old(log) + [DisconnectEvt]
      ensures m == (if connected || connecting then MDead else MIdle)
    {
      ghost var s0 := View();
      OnDisconnectEvent();
      m := MDecide;
      assert Step(s0, MDisconnect) == Some(View());
      // k_thread_abort(mqtt_tid) ends this thread before it can reconnect
      m := if connected || connecting then MDead else MIdle;
      RunTwo(s0, MDisconnect, MDecideReconnect);
      trace := [MDisconnect, MDecideReconnect];
    }

    /** mqtt_event_handler on the MQTT thread. */
    method MqttEventHandler(evt: MqttEvt) returns (ghost trace: seq<Action>)
      requires m.MIdle? && (evt.EvtConnack? ==> awaiting) && forall r :: r in waiters ==> r.who != MqttThread
      modifies this
      ensures Run(old(View()), trace) == Some(View()) && forall a :: a in trace ==> IsMqttAction(a)
      // a CONNACK: success opens the session and posts SUBSCRIBE, failure is only noted
      ensures evt.EvtConnack? ==> m.MIdle? && !awaiting && waiters == old(waiters) && fates == old(fates)
      ensures evt.EvtConnack? && evt.result == 0 ==>
                && connected && !connecting && timerArmed && connectedSem && log == old(log) + [ConnackOk]
                && msgq == old(msgq) + if |old(msgq)| < N_MESSAGES then [Req(MqttThread, Subscribe)] else []
      ensures evt.EvtConnack? && evt.result != 0 ==> View() == old(View()).(awaiting := false)
      // received packets are acknowledged, and nothing else changes
      ensures evt.EvtPublish? || evt.EvtPubrec? || evt.EvtOther? ==> View() == old(View()).(log := log)
      ensures evt.EvtPublish? ==>
                log == old(log) + [RxPublish(evt.qos, evt.id)] + if evt.qos == 1 then [Puback(evt.id)] else []
      ensures evt.EvtPubrec? ==>
                log == old(log) + [RxPubrec(evt.id, evt.result)] + if evt.result == 0 then [Pubrel(evt.id)] else []
      ensures evt.EvtOther? ==> log == old(log)
      // a disconnect event stops the timer, purges the queue, and with a flag up ends this thread
      ensures evt.EvtDisconnect? ==>
                && msgq == [] && waiters == [] && !timerArmed && !awaiting
                && fates == old(fates) + Fates(|old(msgq)|, Purged) && log == old(log) + [DisconnectEvt]
                && connected == old(connected) && connecting == old(connecting) && connectedSem == old(connectedSem)
                && m == (if connected || connecting then MDead else MIdle)
    {
      trace := [];
      match evt
      case EvtConnack(result) => trace := OnConnack(result);
      case EvtPublish(qos, id, len, result) => trace := OnPublish(qos, id, len, result);
      case EvtPubrec(id, result) => trace := OnPubrec(id, result);
      case EvtDisconnect => trace := OnDisconnect();
      case EvtOther =>
    }

    /** k_msgq_get and the switch. */
    method TakeCommand()
      requires g.GIdle? && msgq != []
      modifies `msgq, `waiters, `accepted, `m, `connected, `connecting, `timerArmed, `g, `fates, `log
      ensures Step(old(View()), GGet(0)) == Some(View()) && Took(old(View()), View())
    {
      GetTakes(View());
      var n := |fates|;
      var req := MsgqGet();
      DispatchCommand(n, req.cmd);
    }

    /** mqtt_disconnect returns without having called back. */
    method DisconnectReturns()
      requires g.InDisconnect?
      modifies `g, `awaiting
      ensures Step(old(View()), GDisconnectReturn) == Some(View())
      ensures g.GIdle? && !awaiting
    {
      g, awaiting := GIdle, false;
    }

    /**
     * The return of the blocking library call the command made, if it made one: `connects` tells whether
     * mqtt_connect returns 0, `callsBack` whether mqtt_disconnect delivers its event on this thread.
     */
    method FinishCall(connects: bool, callsBack: bool) returns (ghost trace: seq<Action>)
      requires g.GIdle? || g.InConnect? || (g.InDisconnect? && !connected)
      modifies this
      ensures Run(old(View()), trace) == Some(View()) && forall a :: a in trace ==> IsGcloudAction(a)
      ensures Returned(old(View()), View(), connects, callsBack)
    {
      trace := [];
      ghost var s0 := View();
      if g.InConnect? {
        ConnectReturns(connects);
        trace := [GConnectReturn(connects)];
        RunOne(s0, GConnectReturn(connects));
      } else if g.InDisconnect? {
        if callsBack {
          trace := DisconnectCallback();
        } else {
          DisconnectReturns();
          trace := [GDisconnectReturn];
          RunOne(s0, GDisconnectReturn);
        }
      }
    }

    /**
     * One pass of the loop of gcloud_thread, for any results of the library calls. The command at the head
     * is taken and settled: with a session, or if it is CONNECT, it is called for, else it is skipped.
     */
    method HandleCommand(connects: bool, callsBack: bool) returns (ghost trace: seq<Action>)
      requires g.GIdle? && msgq != []
      modifies this
      ensures Run(old(View()), trace) == Some(View()) && forall a :: a in trace ==> IsGcloudAction(a)
      ensures g.GIdle? && SessionAfter(old(View()), View(), connects) && Passed(old(View()), View(), callsBack)
      ensures |old(fates)| < |fates| && old(fates) <= fates && |old(log)| < |log| && old(log) <= log
      ensures var n, cmd := |old(fates)|, old(msgq)[0].cmd;
              && fates[n] == (if cmd.Connect? || old(connected) then Executed else Ignored)
              && log[|old(log)|] == (if cmd.Connect? || old(connected) then Call(n, cmd) else Skip(n, cmd))
    {
      ghost var s0 := View();
      TakeCommand();
      trace := [GGet(0)];
      RunOne(s0, GGet(0));
      ghost var mid := View();
      ghost var rest := FinishCall(connects, callsBack);
      RunThen(s0, trace, mid, rest, View());
      trace := trace + rest;
      PassPasses(s0, mid, View(), connects, callsBack);
      PassSession(s0, mid, View(), connects, callsBack);
      PassSettles(s0, View(), callsBack);
    }

    /**
     * The loop of gcloud_thread until it would block, with no other thread queueing, for any results of
     * the library calls, which may depend on the number of the command. It terminates, a reconnect's own
     * CONNECT included. What it did is, in order, what Serving says of the commands that were queued and
     * pended; and the calls and skips are those of the fates of all accepted commands.
     */
    method GcloudThread(connects: nat -> bool, callsBack: nat -> bool) returns (ghost trace: seq<Action>)
      requires g.GIdle? && Conserved(View())
      modifies this
      ensures Run(old(View()), trace) == Some(View()) && forall a :: a in trace ==> IsGcloudAction(a)
      ensures g.GIdle? && msgq == [] && |fates| == |accepted|
      ensures log == old(log) + Serving(|old(fates)|, old(msgq), old(waiters), old(connected), callsBack)
      ensures Settlements(log) == Settling(accepted, fates)
      // in an open session that no queued or pended command ends, each of them gets exactly its call, in order
      ensures StaysOpen(old(View())) ==> AllCalled(old(log), log, |old(fates)|, old(msgq) + old(waiters))
    {
      ghost var s0 := View();
      trace := [];
      while msgq != []
        invariant g.GIdle? && Run(s0, trace) == Some(View()) && forall a :: a in trace ==> IsGcloudAction(a)
        invariant Served(View(), callsBack) == Served(s0, callsBack)
        decreases Backlog(View())
      {
        ghost var before := View();
        ghost var more := HandleCommand(connects(|fates|), callsBack(|fates|));
        PassShrinks(before, View(), connects(|before.fates|), callsBack(|before.fates|));
        ServingPass(before, View(), callsBack);
        RunThen(s0, trace, before, more, View());
        trace := trace + more;
      }
      assert Served(View(), callsBack) == log;
      ConservedRun(s0, trace);
      if StaysOpen(s0) {
        ThreadServed(s0, callsBack);
      }
    }
  }
}
