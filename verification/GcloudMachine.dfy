/**
 * The session machine of cellular/nrf_to_gcloud_with_ble/src/gcloud.c as an interleaving machine.
 *
 * The gcloud thread drains a queue of three commands that is fed by application threads, the
 * reconnect timer and MQTT callbacks. One action is what a thread does between two points where
 * another thread can get in: a queue or semaphore operation, or a blocking library call. The
 * application and the timer may act between any two actions of the other threads.
 */
module GcloudMachine {
  import opened Kernel

  const N_MESSAGES: nat := 3

  /** A message is known by a number. */
  datatype Cmd = Connect | PublishState(msg: nat) | Publish(msg: nat) | ReconnectTimeout | Disconnect | Subscribe

  datatype Who = App | GcloudThread | MqttThread | TimerIsr

  datatype Req = Req(who: Who, cmd: Cmd)

  /** What became of an accepted command. */
  datatype Fate = Executed | Ignored | Purged

  /**
   * What happened, in order. Call(n, cmd) is the library call made for the n-th accepted command:
   * mqtt_connect, mqtt_publish, mqtt_disconnect (for both kinds of disconnect) or mqtt_subscribe.
   * Skip(n, cmd): the n-th accepted command was taken and ignored.
   */
  datatype Event =
    | ConnackOk
    | DisconnectEvt
    | Call(n: nat, cmd: Cmd)
    | Skip(n: nat, cmd: Cmd)
    | RxPublish(qos: nat, id: nat)
    | Puback(id: nat)
    | RxPubrec(id: nat, result: int)
    | Pubrel(id: nat)

  /** The gcloud thread: waiting for a command, in a library call, or in the disconnect callback. */
  datatype GPc = GIdle | InConnect | InDisconnect | CbDecide | CbPut | CbWaitPut | CbSem

  /** The MQTT thread: not running, polling, or in a callback. */
  datatype MPc = MDead | MIdle | MPut | MWaitPut | MDecide

  /**
   * buf and waiters are gcloud_msgq and the threads pended in k_msgq_put. `awaiting`: a connection was
   * requested and its CONNACK is still due. `passed`: publish commands of application threads that
   * saw `connected` and have not been put yet. accepted, fates and log are histories.
   */
  datatype State = State(
    buf: seq<Req>,
    waiters: seq<Req>,
    connected: bool,
    connecting: bool,
    armed: bool,
    permit: bool,
    g: GPc,
    m: MPc,
    awaiting: bool,
    passed: multiset<Cmd>,
    accepted: seq<Req>,
    fates: seq<Fate>,
    log: seq<Event>)

  datatype Action =
    | AppConnect
    | AppDisconnect
    | AppCheck(cmd: Cmd)
    | AppPublish(cmd: Cmd)
    | AppTimeout(i: nat)
    | AppSemTake
    | TimerExpires
    | GGet(waiter: nat)
    | GConnectReturn(ok: bool)
    | GDisconnectReturn
    | GCallback
    | GDecide
    | GPut
    | GPutTimeout
    | GSemTake
    | GSemTimeout
    | MConnack(result: int)
    | MPutSubscribe
    | MPutTimeout
    | MDisconnect
    | MDecideReconnect
    | MPublish(qos: nat, id: nat, len: nat, result: int)
    | MPubrec(id: nat, result: int)
    | MEnd

  function Init(): State {
    State([], [], false, false, false, false, GIdle, MDead, false, multiset{}, [], [], [])
  }

  predicate IsPublish(c: Cmd) {
    c.Publish? || c.PublishState?
  }

  /** k_msgq_put with room in the queue. */
  function Accept(s: State, r: Req): State {
    s.(buf := s.buf + [r], accepted := s.accepted + [r])
  }

  /** k_msgq_put by a thread that may wait: without room the thread is pended. */
  function PutOrWait(s: State, r: Req): State {
    if |s.buf| < N_MESSAGES then Accept(s, r) else s.(waiters := s.waiters + [r])
  }

  function Without(q: seq<Req>, i: nat): seq<Req>
    requires i < |q|
  {
    q[..i] + q[i + 1..]
  }

  /** The pended threads other than `who`. */
  function Others(q: seq<Req>, who: Who): seq<Req> {
    if q == [] then []
    else Others(q[..|q| - 1], who) + if q[|q| - 1].who == who then [] else [q[|q| - 1]]
  }

  function Fates(n: nat, f: Fate): (fs: seq<Fate>)
    ensures |fs| == n && forall i :: 0 <= i < n ==> fs[i] == f
  {
    seq(n, i => f)
  }

  /** k_msgq_purge: the queue is emptied and every pended put returns an error. */
  function Purge(s: State): State {
    s.(buf := [], waiters := [], fates := s.fates + Fates(|s.buf|, Purged),
       g := if s.g.CbWaitPut? then CbSem else s.g,
       m := if s.m.MWaitPut? then MIdle else s.m)
  }

  /** k_msgq_get: the head leaves, and one of the pended puts, if any, goes through. */
  function Dequeue(s: State, waiter: nat): State
    requires s.buf != [] && (s.waiters != [] ==> waiter < |s.waiters|)
  {
    var t := s.(buf := s.buf[1..]);
    if s.waiters == [] then t
    else
      var r := s.waiters[waiter];
      Accept(t, r).(waiters := Without(s.waiters, waiter),
                    m := if r.who == MqttThread && s.m.MWaitPut? then MIdle else s.m)
  }

  /** CONNECT always takes effect, every other command only with `connected` set. */
  predicate Effective(s: State, cmd: Cmd) {
    cmd.Connect? || s.connected
  }

  /** The history of command number n, which has just left the queue. */
  function Settle(s: State, n: nat, cmd: Cmd): State {
    if Effective(s, cmd) then s.(fates := s.fates + [Executed], log := s.log + [Call(n, cmd)])
    else s.(fates := s.fates + [Ignored], log := s.log + [Skip(n, cmd)])
  }

  /** What a command that takes effect does to the flags and the timer, and which call the thread is then in. */
  function Effect(s: State, cmd: Cmd): State {
    match cmd
    case Connect => s.(connecting := true, g := InConnect)
    case ReconnectTimeout => s.(armed := false, connected := false, connecting := true, g := InDisconnect)
    case Disconnect => s.(armed := false, connected := false, connecting := false, g := InDisconnect)
    case _ => s
  }

  /** The body of the switch in gcloud_thread for command number n. */
  function Dispatch(s: State, n: nat, cmd: Cmd): State {
    if Effective(s, cmd) then Effect(Settle(s, n, cmd), cmd) else Settle(s, n, cmd)
  }

  /** The application's side: gcloud_connect, gcloud_disconnect, gcloud_publish and gcloud_publish_state. */
  function AppStep(s: State, a: Action): Option<State> {
    match a
    case AppConnect => Some(PutOrWait(s, Req(App, Connect)))
    case AppDisconnect => Some(PutOrWait(s, Req(App, Disconnect)))
    case AppCheck(cmd) =>
      if !IsPublish(cmd) then None
      else if s.connected then Some(s.(passed := s.passed + multiset{cmd})) else Some(s)
    case AppPublish(cmd) =>
      if !IsPublish(cmd) || cmd !in s.passed then None
      else Some(PutOrWait(s.(passed := s.passed - multiset{cmd}), Req(App, cmd)))
    case AppTimeout(i) =>
      if i < |s.waiters| && s.waiters[i].who == App then Some(s.(waiters := Without(s.waiters, i))) else None
    case AppSemTake => if s.permit then Some(s.(permit := false)) else None
    case TimerExpires =>
      if !s.armed then None
      else if |s.buf| < N_MESSAGES then Some(Accept(s, Req(TimerIsr, ReconnectTimeout))) else Some(s)
    case _ => None
  }

  /** MQTT_EVT_DISCONNECT, on either thread: the timer is stopped and the queue purged; no CONNACK is due any more. */
  function DisconnectEvent(s: State): State {
    Purge(s).(armed := false, awaiting := false, log := s.log + [DisconnectEvt])
  }

  /** MQTT_EVT_CONNACK with result 0, up to its k_msgq_put. */
  function SessionStarts(s: State): State {
    s.(awaiting := false, permit := true, connected := true, connecting := false, armed := true,
       m := MPut, log := s.log + [ConnackOk])
  }

  /** gcloud_thread, and mqtt_event_handler when mqtt_disconnect calls it on this thread. */
  function GcloudStep(s: State, a: Action): Option<State> {
    match a
    case GGet(waiter) =>
      if s.g.GIdle? && s.buf != [] && (s.waiters != [] ==> waiter < |s.waiters|) then
        Some(Dispatch(Dequeue(s, waiter), |s.fates|, s.buf[0].cmd))
      else None
    case GConnectReturn(ok) =>
      if !s.g.InConnect? then None
      else Some(s.(g := GIdle, m := MIdle, awaiting := ok, waiters := Others(s.waiters, MqttThread)))
    case GDisconnectReturn => if s.g.InDisconnect? then Some(s.(g := GIdle, awaiting := false)) else None
    case GCallback =>
      if !s.g.InDisconnect? then None
      else Some(DisconnectEvent(s).(g := CbDecide))
    case GDecide =>
      if !s.g.CbDecide? then None
      else if s.connected || s.connecting then
        Some(s.(g := CbPut, m := MDead, waiters := Others(s.waiters, MqttThread)))
      else Some(s.(g := GIdle))
    case GPut =>
      if !s.g.CbPut? then None
      else Some(PutOrWait(s, Req(GcloudThread, Connect)).(g := if |s.buf| < N_MESSAGES then CbSem else CbWaitPut))
    case GPutTimeout =>
      if s.g.CbWaitPut? then Some(s.(g := CbSem, waiters := Others(s.waiters, GcloudThread))) else None
    case GSemTake => if s.g.CbSem? && s.permit then Some(s.(g := GIdle, permit := false)) else None
    case GSemTimeout => if s.g.CbSem? && !s.permit then Some(s.(g := GIdle)) else None
    case _ => None
  }

  /** mqtt_event_handler on the MQTT thread. */
  function MqttStep(s: State, a: Action): Option<State> {
    match a
    case MConnack(result) =>
      if !s.m.MIdle? || !s.awaiting then None
      else if result != 0 then Some(s.(awaiting := false))
      else Some(SessionStarts(s))
    case MPutSubscribe =>
      if !s.m.MPut? then None
      else Some(PutOrWait(s, Req(MqttThread, Subscribe)).(m := if |s.buf| < N_MESSAGES then MIdle else MWaitPut))
    case MPutTimeout =>
      if s.m.MWaitPut? then Some(s.(m := MIdle, waiters := Others(s.waiters, MqttThread))) else None
    case MDisconnect =>
      if s.m.MIdle? then Some(DisconnectEvent(s).(m := MDecide)) else None
    case MDecideReconnect =>
      // k_thread_abort(mqtt_tid) ends this very thread, so gcloud_connect is not called
      if s.m.MDecide? then Some(s.(m := if s.connected || s.connecting then MDead else MIdle)) else None
    case MPublish(qos, id, len, result) =>
      if s.m.MIdle? then Some(s.(log := s.log + [RxPublish(qos, id)] + if qos == 1 then [Puback(id)] else [])) else None
    case MPubrec(id, result) =>
      if !s.m.MIdle? then None
      else Some(s.(log := s.log + [RxPubrec(id, result)] + if result == 0 then [Pubrel(id)] else []))
    case MEnd => if s.m.MIdle? then Some(s.(m := MDead, awaiting := false)) else None
    case _ => None
  }

  predicate IsAppAction(a: Action) {
    || a.AppConnect? || a.AppDisconnect? || a.AppCheck? || a.AppPublish?
    || a.AppTimeout? || a.AppSemTake? || a.TimerExpires?
  }

  predicate IsMqttAction(a: Action) {
    a.MConnack? || a.MPutSubscribe? || a.MPutTimeout? || a.MDisconnect? || a.MDecideReconnect?
    || a.MPublish? || a.MPubrec? || a.MEnd?
  }

  predicate IsGcloudAction(a: Action) {
    !IsAppAction(a) && !IsMqttAction(a)
  }

  /** None when the action is not enabled. */
  function Step(s: State, a: Action): Option<State> {
    if IsAppAction(a) then AppStep(s, a) else if IsMqttAction(a) then MqttStep(s, a) else GcloudStep(s, a)
  }

  function Run(s: State, acts: seq<Action>): Option<State>
    decreases |acts|
  {
    if acts == [] then Some(s)
    else match Run(s, acts[..|acts| - 1])
         case None => None
         case Some(t) => Step(t, acts[|acts| - 1])
  }

  ghost predicate Reachable(s: State) {
    exists acts :: Run(Init(), acts) == Some(s)
  }

  /** The events an action adds to the log. */
  function Logged(s: State, a: Action): seq<Event> {
    match a
    case GGet(_) =>
      if s.buf == [] then []
      else if Effective(s, s.buf[0].cmd) then [Call(|s.fates|, s.buf[0].cmd)]
      else [Skip(|s.fates|, s.buf[0].cmd)]
    case GCallback => [DisconnectEvt]
    case MDisconnect => [DisconnectEvt]
    case MConnack(result) => if result == 0 then [ConnackOk] else []
    case MPublish(qos, id, _, _) => if qos == 1 then [RxPublish(qos, id), Puback(id)] else [RxPublish(qos, id)]
    case MPubrec(id, result) => if result == 0 then [RxPubrec(id, result), Pubrel(id)] else [RxPubrec(id, result)]
    case _ => []
  }

  predicate OnlyQueue(s: State, t: State) {
    && s.accepted <= t.accepted && t.awaiting == s.awaiting
    && t.log == s.log && t.fates == s.fates && t.g == s.g && t.m == s.m
    && t.connected == s.connected && t.connecting == s.connecting && t.armed == s.armed
  }

  lemma PutOnlyQueue(s: State, r: Req)
    ensures OnlyQueue(s, PutOrWait(s, r))
  {
  }

  /** The application and the timer only add commands: they touch neither the fates and events nor the flags. */
  lemma AppOnlyPuts(s: State, a: Action)
    requires AppStep(s, a).Some?
    ensures OnlyQueue(s, AppStep(s, a).value)
  {
    match a {
      case AppConnect => PutOnlyQueue(s, Req(App, Connect));
      case AppDisconnect => PutOnlyQueue(s, Req(App, Disconnect));
      case AppPublish(cmd) => PutOnlyQueue(s.(passed := s.passed - multiset{cmd}), Req(App, cmd));
      case _ =>
    }
  }

  /** What the MQTT thread does besides handling an event. */
  predicate IsQuiet(a: Action) {
    a.MPutSubscribe? || a.MPutTimeout? || a.MDecideReconnect? || a.MEnd?
  }

  lemma QuietKeeps(s: State, a: Action)
    requires IsQuiet(a) && MqttStep(s, a).Some?
    ensures var t := MqttStep(s, a).value;
            && t.log == s.log && t.fates == s.fates && t.g == s.g
            && t.connected == s.connected && t.connecting == s.connecting && t.armed == s.armed
  {
    match a
    case MPutSubscribe => PutOnlyQueue(s, Req(MqttThread, Subscribe));
    case MPutTimeout =>
    case MDecideReconnect =>
    case MEnd =>
  }

  /** The gcloud thread changes flags and events only by taking a command and by the event in its callback. */
  lemma GcloudQuietKeeps(s: State, a: Action)
    requires !a.GGet? && !a.GCallback? && GcloudStep(s, a).Some?
    ensures var t := GcloudStep(s, a).value;
            && t.log == s.log && t.fates == s.fates
            && t.connected == s.connected && t.connecting == s.connecting && t.armed == s.armed
  {
    if a.GPut? {
      PutOnlyQueue(s, Req(GcloudThread, Connect));
    }
  }

  lemma EffectKeeps(s: State, cmd: Cmd)
    ensures var t := Effect(s, cmd);
            && t.buf == s.buf && t.waiters == s.waiters && t.m == s.m && t.permit == s.permit
            && t.accepted == s.accepted && t.fates == s.fates && t.log == s.log
  {
  }

  lemma SettleKeeps(s: State, n: nat, cmd: Cmd)
    ensures var t := Settle(s, n, cmd);
            && t.buf == s.buf && t.waiters == s.waiters && t.m == s.m && t.permit == s.permit
            && t.accepted == s.accepted
  {
  }

  lemma DispatchLogs(s: State, n: nat, cmd: Cmd)
    ensures Dispatch(s, n, cmd).log == s.log + [if Effective(s, cmd) then Call(n, cmd) else Skip(n, cmd)]
  {
    EffectKeeps(Settle(s, n, cmd), cmd);
  }

  lemma GcloudLogs(s: State, a: Action)
    requires GcloudStep(s, a).Some?
    ensures GcloudStep(s, a).value.log == s.log + Logged(s, a)
  {
    if a.GGet? {
      DispatchLogs(Dequeue(s, a.waiter), |s.fates|, s.buf[0].cmd);
    }
  }

  lemma MqttLogs(s: State, a: Action)
    requires MqttStep(s, a).Some?
    ensures MqttStep(s, a).value.log == s.log + Logged(s, a)
  {
    match a
    case MPublish(qos, id, _, _) =>
      var e := RxPublish(qos, id);
      assert s.log + [e] + [Puback(id)] == s.log + [e, Puback(id)];
    case MPubrec(id, result) =>
      var e := RxPubrec(id, result);
      assert s.log + [e] + [Pubrel(id)] == s.log + [e, Pubrel(id)];
    case _ =>
  }

  lemma StepLogs(s: State, a: Action)
    requires Step(s, a).Some?
    ensures Step(s, a).value.log == s.log + Logged(s, a)
  {
    if IsAppAction(a) {
      AppOnlyPuts(s, a);
      assert s.log + [] == s.log;
    } else if IsMqttAction(a) {
      MqttLogs(s, a);
    } else {
      GcloudLogs(s, a);
    }
  }

  lemma RunSnoc(s: State, acts: seq<Action>, a: Action)
    ensures Run(s, acts + [a]) == match Run(s, acts) case None => None case Some(t) => Step(t, a)
  {
    assert (acts + [a])[..|acts|] == acts;
  }

  lemma ReachableStep(s: State, a: Action) returns (t: State)
    requires Reachable(s) && Step(s, a).Some?
    ensures Reachable(t) && t == Step(s, a).value
  {
    t := Step(s, a).value;
    var acts :| Run(Init(), acts) == Some(s);
    RunSnoc(Init(), acts, a);
  }

  lemma RunStep(s: State, acts: seq<Action>, t: State, a: Action, u: State)
    requires Run(s, acts) == Some(t) && Step(t, a) == Some(u)
    ensures Run(s, acts + [a]) == Some(u)
  {
    RunSnoc(s, acts, a);
  }

  lemma RunOne(s: State, a: Action)
    ensures Run(s, [a]) == Step(s, a)
  {
    RunSnoc(s, [], a);
    assert [] + [a] == [a];
  }

  lemma RunTwo(s: State, a: Action, b: Action)
    ensures Run(s, [a, b]) == match Step(s, a) case None => None case Some(t) => Step(t, b)
  {
    RunSnoc(s, [], a);
    assert [] + [a] == [a];
    RunSnoc(s, [a], b);
    assert [a] + [b] == [a, b];
  }

  lemma {:induction false} RunConcat(s: State, a: seq<Action>, b: seq<Action>)
    requires Run(s, a).Some?
    ensures Run(s, a + b) == Run(Run(s, a).value, b)
    decreases |b|
  {
    if b == [] {
      assert a + b == a;
    } else {
      RunConcat(s, a, b[..|b| - 1]);
      assert (a + b)[..|a + b| - 1] == a + b[..|b| - 1];
    }
  }

  lemma RunThen(s: State, a: seq<Action>, t: State, b: seq<Action>, u: State)
    requires Run(s, a) == Some(t) && Run(t, b) == Some(u)
    ensures Run(s, a + b) == Some(u)
  {
    RunConcat(s, a, b);
  }

  lemma {:induction false} RunSplits(s: State, a: seq<Action>, b: seq<Action>)
    requires Run(s, a + b).Some?
    ensures Run(s, a).Some? && Run(s, a + b) == Run(Run(s, a).value, b)
    decreases |b|
  {
    if b == [] {
      assert a + b == a;
    } else {
      assert (a + b)[..|a + b| - 1] == a + b[..|b| - 1];
      RunSplits(s, a, b[..|b| - 1]);
    }
  }
}
