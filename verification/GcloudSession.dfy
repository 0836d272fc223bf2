/**
 * The three flags are functions of what happened: `connected`, `connecting` and the reconnect timer
 * follow from the order of connection events and executed commands, in every run.
 */
module GcloudSession {
  import opened Kernel
  import opened GcloudMachine

  /** A successful CONNACK is more recent than every executed DISCONNECT or RECONNECT_TIMEOUT. */
  predicate WindowOpen(log: seq<Event>) {
    if log == [] then false
    else match log[|log| - 1]
         case ConnackOk => true
         case Call(_, cmd) => if cmd.Disconnect? || cmd.ReconnectTimeout? then false else WindowOpen(log[..|log| - 1])
         case _ => WindowOpen(log[..|log| - 1])
  }

  /** It is also more recent than every disconnect event. */
  predicate TimerOn(log: seq<Event>) {
    if log == [] then false
    else match log[|log| - 1]
         case ConnackOk => true
         case DisconnectEvt => false
         case Call(_, cmd) => if cmd.Disconnect? || cmd.ReconnectTimeout? then false else TimerOn(log[..|log| - 1])
         case _ => TimerOn(log[..|log| - 1])
  }

  /** A CONNECT or RECONNECT_TIMEOUT was executed after the last successful CONNACK and the last DISCONNECT. */
  predicate Trying(log: seq<Event>) {
    if log == [] then false
    else match log[|log| - 1]
         case ConnackOk => false
         case Call(_, cmd) =>
           if cmd.Connect? || cmd.ReconnectTimeout? then true
           else if cmd.Disconnect? then false
           else Trying(log[..|log| - 1])
         case _ => Trying(log[..|log| - 1])
  }

  /** A command that is no CONNECT is called for inside a window, and skipped outside. */
  predicate Fits(e: Event, open: bool) {
    (e.Call? && !e.cmd.Connect? ==> open) && (e.Skip? ==> !open && !e.cmd.Connect?)
  }

  /** Every library call but mqtt_connect falls inside a window, and every skipped command was taken outside. */
  ghost predicate Windowed(log: seq<Event>) {
    forall i :: 0 <= i < |log| ==> Fits(log[i], WindowOpen(log[..i]))
  }

  ghost predicate FlagsFollow(log: seq<Event>, connected: bool, connecting: bool, armed: bool) {
    connected == WindowOpen(log) && connecting == Trying(log) && armed == TimerOn(log) && Windowed(log)
  }

  ghost predicate Flags(s: State) {
    FlagsFollow(s.log, s.connected, s.connecting, s.armed)
  }

  lemma LogAppend(log: seq<Event>, e: Event)
    ensures (log + [e])[|log|] == e && (log + [e])[..|log|] == log
  {
  }

  lemma WindowAppend(log: seq<Event>, e: Event)
    requires Windowed(log) && Fits(e, WindowOpen(log))
    ensures Windowed(log + [e])
  {
    forall i | 0 <= i < |log + [e]|
      ensures Fits((log + [e])[i], WindowOpen((log + [e])[..i]))
    {
      assert (log + [e])[..i] == if i < |log| then log[..i] else log;
    }
  }

  /** An event that moves no flag. */
  predicate Neutral(e: Event) {
    e.RxPublish? || e.Puback? || e.RxPubrec? || e.Pubrel?
  }

  lemma NeutralAppend(log: seq<Event>, e: Event, connected: bool, connecting: bool, armed: bool)
    requires Neutral(e) && FlagsFollow(log, connected, connecting, armed)
    ensures FlagsFollow(log + [e], connected, connecting, armed)
  {
    LogAppend(log, e);
    WindowAppend(log, e);
  }

  /** A received packet, and its acknowledgement if there is one. */
  lemma FlagsAck(log: seq<Event>, e: Event, f: Event, connected: bool, connecting: bool, armed: bool)
    requires Neutral(e) && Neutral(f) && FlagsFollow(log, connected, connecting, armed)
    ensures FlagsFollow(log + [e] + [f], connected, connecting, armed)
    ensures FlagsFollow(log + [e] + [], connected, connecting, armed)
  {
    NeutralAppend(log, e, connected, connecting, armed);
    NeutralAppend(log + [e], f, connected, connecting, armed);
    assert log + [e] + [] == log + [e];
  }

  lemma FlagsConnack(log: seq<Event>, connected: bool, connecting: bool, armed: bool)
    requires FlagsFollow(log, connected, connecting, armed)
    ensures FlagsFollow(log + [ConnackOk], true, false, true)
  {
    LogAppend(log, ConnackOk);
    WindowAppend(log, ConnackOk);
  }

  lemma FlagsDisconnectEvt(log: seq<Event>, connected: bool, connecting: bool, armed: bool)
    requires FlagsFollow(log, connected, connecting, armed)
    ensures FlagsFollow(log + [DisconnectEvt], connected, connecting, false)
  {
    LogAppend(log, DisconnectEvt);
    WindowAppend(log, DisconnectEvt);
  }

  lemma FlagsSkip(log: seq<Event>, n: nat, cmd: Cmd, connecting: bool, armed: bool)
    requires FlagsFollow(log, false, connecting, armed) && !cmd.Connect?
    ensures FlagsFollow(log + [Skip(n, cmd)], false, connecting, armed)
  {
    LogAppend(log, Skip(n, cmd));
    WindowAppend(log, Skip(n, cmd));
  }

  lemma FlagsCall(log: seq<Event>, n: nat, cmd: Cmd, connected: bool, connecting: bool, armed: bool)
    requires FlagsFollow(log, connected, connecting, armed) && (cmd.Connect? || connected)
    ensures var ends := cmd.Disconnect? || cmd.ReconnectTimeout?;
            FlagsFollow(log + [Call(n, cmd)], connected && !ends,
                        if cmd.Connect? || cmd.ReconnectTimeout? then true else connecting && !ends, armed && !ends)
  {
    LogAppend(log, Call(n, cmd));
    WindowAppend(log, Call(n, cmd));
  }

  lemma FlagsDispatch(s: State, n: nat, cmd: Cmd)
    requires Flags(s)
    ensures Flags(Dispatch(s, n, cmd))
  {
    if Effective(s, cmd) {
      FlagsCall(s.log, n, cmd, s.connected, s.connecting, s.armed);
    } else {
      FlagsSkip(s.log, n, cmd, s.connecting, s.armed);
    }
  }

  lemma FlagsGcloudStep(s: State, a: Action)
    requires Flags(s) && GcloudStep(s, a).Some?
    ensures Flags(GcloudStep(s, a).value)
  {
    match a
    case GGet(waiter) => FlagsDispatch(Dequeue(s, waiter), |s.fates|, s.buf[0].cmd);
    case GCallback => FlagsDisconnectEvt(s.log, s.connected, s.connecting, s.armed);
    case _ => GcloudQuietKeeps(s, a);
  }

  lemma FlagsPacket(s: State, a: Action)
    requires Flags(s) && (a.MPublish? || a.MPubrec?) && MqttStep(s, a).Some?
    ensures Flags(MqttStep(s, a).value)
  {
    if a.MPublish? {
      FlagsAck(s.log, RxPublish(a.qos, a.id), Puback(a.id), s.connected, s.connecting, s.armed);
    } else {
      FlagsAck(s.log, RxPubrec(a.id, a.result), Pubrel(a.id), s.connected, s.connecting, s.armed);
    }
  }

  lemma FlagsConnection(s: State, a: Action)
    requires Flags(s) && (a.MConnack? || a.MDisconnect?) && MqttStep(s, a).Some?
    ensures Flags(MqttStep(s, a).value)
  {
    FlagsConnack(s.log, s.connected, s.connecting, s.armed);
    FlagsDisconnectEvt(s.log, s.connected, s.connecting, s.armed);
  }

  lemma FlagsMqttStep(s: State, a: Action)
    requires Flags(s) && MqttStep(s, a).Some?
    ensures Flags(MqttStep(s, a).value)
  {
    if IsQuiet(a) {
      QuietKeeps(s, a);
    } else if a.MPublish? || a.MPubrec? {
      FlagsPacket(s, a);
    } else {
      FlagsConnection(s, a);
    }
  }

  lemma FlagsAppStep(s: State, a: Action)
    requires Flags(s) && AppStep(s, a).Some?
    ensures Flags(AppStep(s, a).value)
  {
    AppOnlyPuts(s, a);
  }

  lemma FlagsStep(s: State, a: Action)
    requires Flags(s) && Step(s, a).Some?
    ensures Flags(Step(s, a).value)
  {
    if IsAppAction(a) {
      FlagsAppStep(s, a);
    } else if IsMqttAction(a) {
      FlagsMqttStep(s, a);
    } else {
      FlagsGcloudStep(s, a);
    }
  }

  lemma {:induction false} FlagsInEveryRun(acts: seq<Action>)
    requires Run(Init(), acts).Some?
    ensures Flags(Run(Init(), acts).value)
  {
    if acts == [] {
    } else {
      FlagsInEveryRun(acts[..|acts| - 1]);
      FlagsStep(Run(Init(), acts[..|acts| - 1]).value, acts[|acts| - 1]);
    }
  }

  /** Session windows and flags, in every reachable state. */
  lemma FlagsHold(s: State)
    requires Reachable(s)
    ensures s.connected == WindowOpen(s.log) && s.connecting == Trying(s.log) && s.armed == TimerOn(s.log)
    ensures Windowed(s.log)
  {
    var acts :| Run(Init(), acts) == Some(s);
    FlagsInEveryRun(acts);
  }

  /** A disconnect event came after the last successful CONNACK. */
  predicate Dropped(log: seq<Event>) {
    log != [] && !log[|log| - 1].ConnackOk? && (log[|log| - 1].DisconnectEvt? || Dropped(log[..|log| - 1]))
  }

  lemma {:induction false} TimerVersusWindow(log: seq<Event>)
    ensures TimerOn(log) ==> WindowOpen(log)
    ensures WindowOpen(log) && !TimerOn(log) ==> Dropped(log)
  {
    if log == [] {
    } else {
      TimerVersusWindow(log[..|log| - 1]);
    }
  }

  /**
   * Timer and flag: an armed timer implies `connected`, and `connected` without the timer implies a
   * disconnect event since the last successful CONNACK.
   */
  lemma TimerFollowsSession(s: State)
    requires Reachable(s)
    ensures s.armed ==> s.connected
    ensures s.connected && !s.armed ==> Dropped(s.log)
  {
    FlagsHold(s);
    TimerVersusWindow(s.log);
  }

  /** A CONNECT was executed inside the current window. */
  predicate ConnectedAgain(log: seq<Event>) {
    if log == [] then false
    else match log[|log| - 1]
         case ConnackOk => false
         case Call(_, cmd) =>
           if cmd.Connect? then WindowOpen(log[..|log| - 1])
           else if cmd.Disconnect? || cmd.ReconnectTimeout? then false
           else ConnectedAgain(log[..|log| - 1])
         case _ => ConnectedAgain(log[..|log| - 1])
  }

  lemma {:induction false} BothOpenAndTrying(log: seq<Event>)
    ensures WindowOpen(log) && Trying(log) <==> ConnectedAgain(log)
  {
    if log == [] {
    } else {
      BothOpenAndTrying(log[..|log| - 1]);
    }
  }

  /** The two flags are up together exactly when a CONNECT was executed while the session was up. */
  lemma BothFlags(s: State)
    requires Reachable(s)
    ensures s.connected && s.connecting <==> ConnectedAgain(s.log)
  {
    FlagsHold(s);
    BothOpenAndTrying(s.log);
  }

  /** The application posts a CONNECT and the gcloud thread takes it. */
  lemma TakesConnect(s: State) returns (t: State)
    requires Reachable(s) && s.g.GIdle? && s.buf == [] && s.waiters == []
    ensures Reachable(t) && t.g.InConnect? && t.connecting && t.connected == s.connected && t.armed == s.armed
    ensures t.buf == [] && t.waiters == []
  {
    t := ReachableStep(s, AppConnect);
    t := ReachableStep(t, GGet(0));
  }

  /** mqtt_connect returns 0 and the broker accepts. */
  lemma Accepted(s: State) returns (t: State)
    requires Reachable(s) && s.g.InConnect? && s.buf == [] && s.waiters == []
    ensures Reachable(t) && t.g.GIdle? && t.m.MPut? && t.connected && t.armed && t.buf == [] && t.waiters == []
  {
    assert Others([], MqttThread) == [];
    t := ReachableStep(s, GConnectReturn(true));
    t := ReachableStep(t, MConnack(0));
  }

  lemma FirstSession() returns (s: State)
    ensures Reachable(s) && s.g.GIdle? && s.m.MPut? && s.connected && s.armed && s.buf == [] && s.waiters == []
  {
    assert Run(Init(), []) == Some(Init());
    s := TakesConnect(Init());
    s := Accepted(s);
  }

  /** So "never both" is false: a second CONNECT of the application is enough. */
  lemma BothFlagsHappen()
    ensures exists s :: Reachable(s) && s.connected && s.connecting
  {
    var s := FirstSession();
    s := TakesConnect(s);
  }
}
