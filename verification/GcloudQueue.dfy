/**
 * What becomes of commands: every accepted command is executed, ignored, purged or still queued,
 * commands leave in acceptance order, and the library calls are exactly the executed commands.
 */
module GcloudQueue {
  import opened Kernel
  import opened GcloudMachine

  /** The library calls made so far, in order. */
  function Calls(log: seq<Event>): seq<Event> {
    if log == [] then []
    else Calls(log[..|log| - 1]) + if log[|log| - 1].Call? then [log[|log| - 1]] else []
  }

  /** The events of commands that left the queue other than by a purge. */
  predicate Settles(e: Event) {
    e.Call? || e.Skip?
  }

  /** What became of the commands that were taken, in order. */
  function Settlements(log: seq<Event>): seq<Event> {
    if log == [] then []
    else Settlements(log[..|log| - 1]) + if Settles(log[|log| - 1]) then [log[|log| - 1]] else []
  }

  /** The event that goes with a fate: a call for an executed command, a skip for an ignored one. */
  function FateEvents(n: nat, cmd: Cmd, f: Fate): seq<Event> {
    match f
    case Executed => [Call(n, cmd)]
    case Ignored => [Skip(n, cmd)]
    case Purged => []
  }

  /** The events that the fates of the accepted commands call for, in acceptance order. */
  function Settling(accepted: seq<Req>, fates: seq<Fate>): seq<Event>
    requires |fates| <= |accepted|
  {
    if fates == [] then []
    else
      var n := |fates| - 1;
      Settling(accepted, fates[..n]) + FateEvents(n, accepted[n].cmd, fates[n])
  }

  /** Fates are assigned in acceptance order, and the queue holds exactly the commands without one. */
  ghost predicate QueueFollows(accepted: seq<Req>, fates: seq<Fate>, buf: seq<Req>, log: seq<Event>) {
    && |fates| <= |accepted|
    && buf == accepted[|fates|..]
    && |buf| <= N_MESSAGES
    && Settlements(log) == Settling(accepted, fates)
  }

  /** Threads are pended only while the queue is full. */
  predicate PendedWhenFull(waiters: seq<Req>, buf: seq<Req>) {
    waiters != [] ==> |buf| == N_MESSAGES
  }

  ghost predicate Conserved(s: State) {
    QueueFollows(s.accepted, s.fates, s.buf, s.log) && PendedWhenFull(s.waiters, s.buf)
  }

  lemma CallsAppend(log: seq<Event>, e: Event)
    ensures e.Call? ==> Calls(log + [e]) == Calls(log) + [e]
    ensures !e.Call? ==> Calls(log + [e]) == Calls(log)
  {
    assert (log + [e])[..|log|] == log;
  }

  lemma {:induction false} CallsConcat(a: seq<Event>, b: seq<Event>)
    ensures Calls(a + b) == Calls(a) + Calls(b)
  {
    if b == [] {
      assert a + b == a;
    } else {
      var n := |b| - 1;
      CallsConcat(a, b[..n]);
      assert (a + b)[..|a + b| - 1] == a + b[..n];
    }
  }

  /** The library call an action makes, if it makes one. */
  function CallOf(s: State, a: Action): seq<Event> {
    if a.GGet? && s.buf != [] && Effective(s, s.buf[0].cmd) then [Call(|s.fates|, s.buf[0].cmd)] else []
  }

  lemma CallsOne(e: Event)
    ensures Calls([e]) == if e.Call? then [e] else []
  {
    CallsAppend([], e);
    assert [] + [e] == [e];
  }

  lemma CallsTwo(e: Event, f: Event)
    requires !e.Call? && !f.Call?
    ensures Calls([e, f]) == []
  {
    CallsOne(e);
    CallsAppend([e], f);
    assert [e] + [f] == [e, f];
  }

  lemma LoggedCalls(s: State, a: Action)
    ensures Calls(Logged(s, a)) == CallOf(s, a)
  {
    match a
    case GGet(_) =>
      if s.buf != [] {
        CallsOne(Logged(s, a)[0]);
      }
    case GCallback => CallsOne(DisconnectEvt);
    case MDisconnect => CallsOne(DisconnectEvt);
    case MConnack(_) => CallsOne(ConnackOk);
    case MPublish(qos, id, _, _) =>
      CallsOne(RxPublish(qos, id));
      CallsTwo(RxPublish(qos, id), Puback(id));
    case MPubrec(id, result) =>
      CallsOne(RxPubrec(id, result));
      CallsTwo(RxPubrec(id, result), Pubrel(id));
    case _ =>
  }

  /** Only taking a command makes a library call. */
  lemma StepCalls(s: State, a: Action)
    requires Step(s, a).Some?
    ensures Calls(Step(s, a).value.log) == Calls(s.log) + CallOf(s, a)
  {
    StepLogs(s, a);
    LoggedCalls(s, a);
    CallsConcat(s.log, Logged(s, a));
  }

  lemma SettlementsAppend(log: seq<Event>, e: Event)
    ensures Settles(e) ==> Settlements(log + [e]) == Settlements(log) + [e]
    ensures !Settles(e) ==> Settlements(log + [e]) == Settlements(log)
  {
    assert (log + [e])[..|log|] == log;
  }

  lemma {:induction false} MoreAccepted(accepted: seq<Req>, r: Req, fates: seq<Fate>)
    requires |fates| <= |accepted|
    ensures Settling(accepted + [r], fates) == Settling(accepted, fates)
  {
    if fates == [] {
    } else {
      MoreAccepted(accepted, r, fates[..|fates| - 1]);
    }
  }

  lemma OneMoreFate(accepted: seq<Req>, fates: seq<Fate>, f: Fate)
    requires |fates| < |accepted|
    ensures Settling(accepted, fates + [f]) == Settling(accepted, fates) + FateEvents(|fates|, accepted[|fates|].cmd, f)
  {
    assert (fates + [f])[..|fates|] == fates;
  }

  lemma {:induction false} PurgedFates(accepted: seq<Req>, fates: seq<Fate>, n: nat)
    requires |fates| + n <= |accepted|
    ensures Settling(accepted, fates + Fates(n, Purged)) == Settling(accepted, fates)
  {
    if n == 0 {
      assert fates + Fates(0, Purged) == fates;
    } else {
      PurgedFates(accepted, fates, n - 1);
      assert fates + Fates(n, Purged) == (fates + Fates(n - 1, Purged)) + [Purged];
      OneMoreFate(accepted, fates + Fates(n - 1, Purged), Purged);
    }
  }

  lemma AcceptConserves(s: State, r: Req)
    requires Conserved(s) && |s.buf| < N_MESSAGES
    ensures Conserved(Accept(s, r))
  {
    MoreAccepted(s.accepted, r, s.fates);
  }

  lemma PutConserves(s: State, r: Req)
    requires Conserved(s)
    ensures Conserved(PutOrWait(s, r))
  {
    if |s.buf| < N_MESSAGES {
      AcceptConserves(s, r);
    }
  }

  lemma PurgeConserves(s: State)
    requires Conserved(s)
    ensures Conserved(Purge(s))
  {
    PurgedFates(s.accepted, s.fates, |s.buf|);
  }

  /** An event that settles no command. */
  lemma LogGrows(accepted: seq<Req>, fates: seq<Fate>, buf: seq<Req>, log: seq<Event>, e: Event)
    requires QueueFollows(accepted, fates, buf, log) && !Settles(e)
    ensures QueueFollows(accepted, fates, buf, log + [e])
  {
    SettlementsAppend(log, e);
  }

  lemma DisconnectConserves(s: State)
    requires Conserved(s)
    ensures Conserved(DisconnectEvent(s))
  {
    PurgeConserves(s);
    var t := Purge(s);
    LogGrows(t.accepted, t.fates, t.buf, t.log, DisconnectEvt);
  }

  lemma {:induction false} OthersShrink(q: seq<Req>, who: Who)
    ensures |Others(q, who)| <= |q|
  {
    if q == [] {
    } else {
      OthersShrink(q[..|q| - 1], who);
    }
  }

  lemma DequeueShifts(s: State, waiter: nat)
    requires Conserved(s) && s.buf != [] && (s.waiters != [] ==> waiter < |s.waiters|)
    ensures var t, n := Dequeue(s, waiter), |s.fates|;
            && n < |s.accepted| && s.accepted[n] == s.buf[0]
            && n < |t.accepted| && t.accepted[n] == s.buf[0] && t.buf == t.accepted[n + 1..]
            && |t.buf| <= N_MESSAGES && (t.waiters != [] ==> |t.buf| == N_MESSAGES)
            && Settling(t.accepted, s.fates) == Settling(s.accepted, s.fates)
            && t.log == s.log && t.fates == s.fates && t.connected == s.connected
  {
    if s.waiters != [] {
      MoreAccepted(s.accepted, s.waiters[waiter], s.fates);
    }
  }

  /** Taking a command: the head gets its fate, and an executed one its call. */
  lemma GetConserves(s: State, waiter: nat)
    requires Conserved(s) && s.buf != [] && (s.waiters != [] ==> waiter < |s.waiters|)
    ensures Conserved(Dispatch(Dequeue(s, waiter), |s.fates|, s.buf[0].cmd))
  {
    DequeueShifts(s, waiter);
    SettleConserves(Dequeue(s, waiter), s.buf[0].cmd);
    EffectKeeps(Settle(Dequeue(s, waiter), |s.fates|, s.buf[0].cmd), s.buf[0].cmd);
  }

  lemma SettleConserves(t: State, cmd: Cmd)
    requires |t.fates| < |t.accepted| && t.accepted[|t.fates|].cmd == cmd && t.buf == t.accepted[|t.fates| + 1..]
    requires |t.buf| <= N_MESSAGES && (t.waiters != [] ==> |t.buf| == N_MESSAGES)
    requires Settlements(t.log) == Settling(t.accepted, t.fates)
    ensures Conserved(Settle(t, |t.fates|, cmd))
  {
    var f := if Effective(t, cmd) then Executed else Ignored;
    OneMoreFate(t.accepted, t.fates, f);
    SettlementsAppend(t.log, if Effective(t, cmd) then Call(|t.fates|, cmd) else Skip(|t.fates|, cmd));
  }

  lemma AppConserves(s: State, a: Action)
    requires Conserved(s) && AppStep(s, a).Some?
    ensures Conserved(AppStep(s, a).value)
  {
    match a
    case AppConnect => PutConserves(s, Req(App, Connect));
    case AppDisconnect => PutConserves(s, Req(App, Disconnect));
    case AppPublish(cmd) => PutConserves(s.(passed := s.passed - multiset{cmd}), Req(App, cmd));
    case TimerExpires => if |s.buf| < N_MESSAGES { AcceptConserves(s, Req(TimerIsr, ReconnectTimeout)); }
    case _ =>
  }

  lemma GcloudConserves(s: State, a: Action)
    requires Conserved(s) && GcloudStep(s, a).Some?
    ensures Conserved(GcloudStep(s, a).value)
  {
    OthersShrink(s.waiters, MqttThread);
    OthersShrink(s.waiters, GcloudThread);
    match a
    case GGet(waiter) => GetConserves(s, waiter);
    case GCallback => DisconnectConserves(s);
    case GPut => PutConserves(s, Req(GcloudThread, Connect));
    case _ =>
  }

  lemma AckConserves(s: State, e: Event, f: Event)
    requires Conserved(s) && !Settles(e) && !Settles(f)
    ensures QueueFollows(s.accepted, s.fates, s.buf, s.log + [e] + [f])
    ensures QueueFollows(s.accepted, s.fates, s.buf, s.log + [e] + [])
  {
    LogGrows(s.accepted, s.fates, s.buf, s.log, e);
    LogGrows(s.accepted, s.fates, s.buf, s.log + [e], f);
    assert s.log + [e] + [] == s.log + [e];
  }

  lemma PacketConserves(s: State, a: Action)
    requires Conserved(s) && (a.MPublish? || a.MPubrec?) && MqttStep(s, a).Some?
    ensures Conserved(MqttStep(s, a).value)
  {
    if a.MPublish? {
      AckConserves(s, RxPublish(a.qos, a.id), Puback(a.id));
    } else {
      AckConserves(s, RxPubrec(a.id, a.result), Pubrel(a.id));
    }
  }

  lemma ConnectionConserves(s: State, a: Action)
    requires Conserved(s) && (a.MConnack? || a.MDisconnect?) && MqttStep(s, a).Some?
    ensures Conserved(MqttStep(s, a).value)
  {
    if a.MConnack? {
      LogGrows(s.accepted, s.fates, s.buf, s.log, ConnackOk);
    } else {
      DisconnectConserves(s);
    }
  }

  lemma QuietConserves(s: State, a: Action)
    requires Conserved(s) && IsQuiet(a) && MqttStep(s, a).Some?
    ensures Conserved(MqttStep(s, a).value)
  {
    match a
    case MPutSubscribe => PutConserves(s, Req(MqttThread, Subscribe));
    case MPutTimeout => OthersShrink(s.waiters, MqttThread);
    case MDecideReconnect =>
    case MEnd =>
  }

  lemma MqttConserves(s: State, a: Action)
    requires Conserved(s) && MqttStep(s, a).Some?
    ensures Conserved(MqttStep(s, a).value)
  {
    if IsQuiet(a) {
      QuietConserves(s, a);
    } else if a.MPublish? || a.MPubrec? {
      PacketConserves(s, a);
    } else {
      ConnectionConserves(s, a);
    }
  }

  lemma ConservedStep(s: State, a: Action)
    requires Conserved(s) && Step(s, a).Some?
    ensures Conserved(Step(s, a).value)
  {
    if IsAppAction(a) {
      AppConserves(s, a);
    } else if IsMqttAction(a) {
      MqttConserves(s, a);
    } else {
      GcloudConserves(s, a);
    }
  }

  lemma {:induction false} ConservedRun(s: State, acts: seq<Action>)
    requires Conserved(s) && Run(s, acts).Some?
    ensures Conserved(Run(s, acts).value)
  {
    if acts == [] {
    } else {
      ConservedRun(s, acts[..|acts| - 1]);
      ConservedStep(Run(s, acts[..|acts| - 1]).value, acts[|acts| - 1]);
    }
  }

  /** Command conservation, in every reachable state. */
  lemma CommandsAreConserved(s: State)
    requires Reachable(s)
    ensures |s.fates| <= |s.accepted| && s.buf == s.accepted[|s.fates|..] && |s.buf| <= N_MESSAGES
    ensures s.waiters != [] ==> |s.buf| == N_MESSAGES
    ensures Settlements(s.log) == Settling(s.accepted, s.fates)
  {
    var acts :| Run(Init(), acts) == Some(s);
    ConservedRun(Init(), acts);
  }

  /** A call is for an executed command and a skip for an ignored one, and it is the command that was accepted. */
  ghost predicate IsFateOf(e: Event, accepted: seq<Req>, fates: seq<Fate>)
    requires |fates| <= |accepted|
  {
    Settles(e) && e.n < |fates| && e in FateEvents(e.n, accepted[e.n].cmd, fates[e.n])
  }

  /** The commands are settled in acceptance order. */
  ghost predicate InOrder(events: seq<Event>, accepted: seq<Req>, fates: seq<Fate>)
    requires |fates| <= |accepted|
  {
    && (forall i :: 0 <= i < |events| ==> IsFateOf(events[i], accepted, fates))
    && (forall i, j :: 0 <= i < j < |events| ==> Settles(events[i]) && Settles(events[j]) && events[i].n < events[j].n)
  }

  lemma OneMoreInOrder(before: seq<Event>, accepted: seq<Req>, fates: seq<Fate>)
    requires 0 < |fates| <= |accepted| && InOrder(before, accepted, fates[..|fates| - 1])
    ensures var n := |fates| - 1; InOrder(before + FateEvents(n, accepted[n].cmd, fates[n]), accepted, fates)
  {
    var n := |fates| - 1;
    var last := FateEvents(n, accepted[n].cmd, fates[n]);
    forall i | 0 <= i < |before + last|
      ensures IsFateOf((before + last)[i], accepted, fates)
    {
      if i < |before| {
        assert IsFateOf(before[i], accepted, fates[..n]);
      }
    }
  }

  lemma {:induction false} SettledInOrder(accepted: seq<Req>, fates: seq<Fate>)
    requires |fates| <= |accepted|
    ensures InOrder(Settling(accepted, fates), accepted, fates)
  {
    if fates == [] {
    } else {
      SettledInOrder(accepted, fates[..|fates| - 1]);
      OneMoreInOrder(Settling(accepted, fates[..|fates| - 1]), accepted, fates);
    }
  }

  /** The event of a fate that is not a purge. */
  function FateEvent(n: nat, cmd: Cmd, f: Fate): Event
    requires !f.Purged?
  {
    if f.Executed? then Call(n, cmd) else Skip(n, cmd)
  }

  lemma SameFateEvent(n: nat, cmd: Cmd, f: Fate, n': nat, cmd': Cmd, f': Fate)
    requires !f.Purged? && (n == n' ==> cmd == cmd')
    ensures FateEvents(n', cmd', f') == [FateEvent(n, cmd, f)] <==> n == n' && f == f'
  {
    if FateEvents(n', cmd', f') == [FateEvent(n, cmd, f)] {
      assert FateEvents(n', cmd', f')[0] == FateEvent(n, cmd, f);
    }
  }

  /** Each command's call occurs exactly once if the command was executed, and never otherwise; likewise its skip. */
  lemma {:induction false} SettledExactlyOnce(accepted: seq<Req>, fates: seq<Fate>, k: nat, f: Fate)
    requires |fates| <= |accepted| && k < |accepted| && !f.Purged?
    ensures Occurs(Settling(accepted, fates), FateEvent(k, accepted[k].cmd, f)) == Bit(k < |fates| && fates[k] == f)
  {
    if fates == [] {
    } else {
      var n := |fates| - 1;
      var e, last := FateEvent(k, accepted[k].cmd, f), FateEvents(n, accepted[n].cmd, fates[n]);
      SettledExactlyOnce(accepted, fates[..n], k, f);
      SameFateEvent(k, accepted[k].cmd, f, n, accepted[n].cmd, fates[n]);
      OccursLast(Settling(accepted, fates[..n]), last, e);
    }
  }

  lemma OccursLast(q: seq<Event>, last: seq<Event>, e: Event)
    requires |last| <= 1
    ensures Occurs(q + last, e) == Occurs(q, e) + Bit(last == [e])
  {
    if last == [] {
      assert q + last == q;
    } else {
      OccursAppend(q, last[0], e);
      assert last == [last[0]];
    }
  }

  lemma {:induction false} SettlementsKeep(log: seq<Event>, e: Event)
    requires Settles(e)
    ensures Occurs(Settlements(log), e) == Occurs(log, e)
  {
    if log == [] {
    } else {
      var n := |log| - 1;
      SettlementsKeep(log[..n], e);
      OccursLast(Settlements(log[..n]), if Settles(log[n]) then [log[n]] else [], e);
    }
  }

  /**
   * Library calls, in every reachable state, across any number of purges and reconnects: made in
   * acceptance order, with the accepted command, exactly once for an executed command and never for
   * another; and a command is skipped exactly once if it was ignored.
   */
  lemma LibraryCalls(s: State, k: nat)
    requires Reachable(s) && k < |s.accepted|
    ensures |s.fates| <= |s.accepted|
    ensures Occurs(s.log, Call(k, s.accepted[k].cmd)) == Bit(k < |s.fates| && s.fates[k].Executed?)
    ensures Occurs(s.log, Skip(k, s.accepted[k].cmd)) == Bit(k < |s.fates| && s.fates[k].Ignored?)
    ensures InOrder(Settlements(s.log), s.accepted, s.fates)
  {
    CommandsAreConserved(s);
    SettledInOrder(s.accepted, s.fates);
    SettledExactlyOnce(s.accepted, s.fates, k, Executed);
    SettledExactlyOnce(s.accepted, s.fates, k, Ignored);
    SettlementsKeep(s.log, Call(k, s.accepted[k].cmd));
    SettlementsKeep(s.log, Skip(k, s.accepted[k].cmd));
  }
}
