/**
 * Resubscription: where the SUBSCRIBE of every successful CONNACK is, and when it becomes a call of
 * mqtt_subscribe.
 */
module GcloudSubscribe {
  import opened Kernel
  import opened GcloudMachine
  import opened GcloudQueue
  import opened GcloudSession
  import opened GcloudThreads

  predicate IsConnack(e: Event) {
    e.ConnackOk?
  }

  predicate IsSubscribeCall(e: Event) {
    e.Call? && e.cmd.Subscribe?
  }

  predicate IsSubscribeSkip(e: Event) {
    e.Skip? && e.cmd.Subscribe?
  }

  predicate IsSubscribe(r: Req) {
    r.cmd.Subscribe?
  }

  /** The MQTT thread is about to put a SUBSCRIBE, or waits for room. */
  predicate Subscribing(m: MPc) {
    m.MPut? || m.MWaitPut?
  }

  /** Only the MQTT thread pends with a SUBSCRIBE, with one at a time, and only while it waits. */
  ghost predicate PendsOnce(waiters: seq<Req>, m: MPc) {
    && (forall r :: r in waiters ==> (r.cmd.Subscribe? <==> r.who == MqttThread))
    && Count(waiters, IsSubscribe) == Bit(m.MWaitPut?)
  }

  /** A SUBSCRIBE kept from the queue: its put times out or is purged, or its thread is ended or replaced. */
  function LostBy(s: State, a: Action): nat {
    match a
    case MPutTimeout => 1
    case GCallback => Bit(s.m.MWaitPut?)
    case GDecide => Bit((s.connected || s.connecting) && Subscribing(s.m))
    case GConnectReturn(_) => Bit(Subscribing(s.m))
    case _ => 0
  }

  /** The SUBSCRIBEs that a run kept from the queue. */
  function Lost(acts: seq<Action>): nat
    decreases |acts|
  {
    if acts == [] then 0
    else
      var init := acts[..|acts| - 1];
      Lost(init) + match Run(Init(), init)
                   case None => 0
                   case Some(s) => LostBy(s, acts[|acts| - 1])
  }

  /** SUBSCRIBEs that were accepted, or that the MQTT thread still has to put. */
  function Posted(accepted: seq<Req>, m: MPc): nat {
    Count(accepted, IsSubscribe) + Bit(Subscribing(m))
  }

  /** An action keeps the invariant and posts `more` SUBSCRIBEs. */
  ghost predicate Posts(s: State, t: State, more: int) {
    PendsOnce(t.waiters, t.m) && Posted(t.accepted, t.m) == Posted(s.accepted, s.m) + more
  }

  lemma {:induction false} NoneLeft(q: seq<Req>)
    requires forall r :: r in q ==> !r.cmd.Subscribe?
    ensures Count(q, IsSubscribe) == 0
  {
    if q == [] {
    } else {
      NoneLeft(q[..|q| - 1]);
      assert q[|q| - 1] in q;
    }
  }

  /** Without the requests of the MQTT thread no SUBSCRIBE is pended. */
  lemma MqttOut(q: seq<Req>)
    requires forall r :: r in q ==> (r.cmd.Subscribe? <==> r.who == MqttThread)
    ensures forall r :: r in Others(q, MqttThread) ==> r in q && !r.cmd.Subscribe?
    ensures Count(Others(q, MqttThread), IsSubscribe) == 0
  {
    OthersAreOthers(q, MqttThread);
    NoneLeft(Others(q, MqttThread));
  }

  lemma {:induction false} GcloudOut(q: seq<Req>)
    requires forall r :: r in q ==> (r.cmd.Subscribe? <==> r.who == MqttThread)
    ensures Count(Others(q, GcloudThread), IsSubscribe) == Count(q, IsSubscribe)
  {
    if q == [] {
    } else {
      var n := |q| - 1;
      GcloudOut(q[..n]);
      assert q[n] in q;
      CountAppend(Others(q[..n], GcloudThread), q[n], IsSubscribe);
      assert Others(q[..n], GcloudThread) + [] == Others(q[..n], GcloudThread);
    }
  }

  lemma CountWithout(q: seq<Req>, i: nat)
    requires i < |q|
    ensures Count(Without(q, i), IsSubscribe) + Bit(IsSubscribe(q[i])) == Count(q, IsSubscribe)
  {
    assert q == q[..i] + q[i..];
    CountConcat(q[..i], q[i..], IsSubscribe);
    CountPop(q[i..], IsSubscribe);
    assert q[i..][1..] == q[i + 1..];
    CountConcat(q[..i], q[i + 1..], IsSubscribe);
  }

  lemma PutCounts(s: State, r: Req)
    ensures var t := PutOrWait(s, r);
            && Count(t.accepted, IsSubscribe)
               == Count(s.accepted, IsSubscribe) + Bit(r.cmd.Subscribe? && |s.buf| < N_MESSAGES)
            && Count(t.waiters, IsSubscribe)
               == Count(s.waiters, IsSubscribe) + Bit(r.cmd.Subscribe? && |s.buf| >= N_MESSAGES)
  {
    if |s.buf| < N_MESSAGES {
      CountAppend(s.accepted, r, IsSubscribe);
    } else {
      CountAppend(s.waiters, r, IsSubscribe);
    }
  }

  /** A put by another thread than the MQTT thread. */
  lemma OtherPuts(s: State, r: Req)
    requires PendsOnce(s.waiters, s.m) && r.who != MqttThread && !r.cmd.Subscribe?
    ensures Posts(s, PutOrWait(s, r), 0)
  {
    PutCounts(s, r);
  }

  lemma TimeoutPosts(s: State, i: nat)
    requires PendsOnce(s.waiters, s.m) && i < |s.waiters| && s.waiters[i].who == App
    ensures PendsOnce(Without(s.waiters, i), s.m)
  {
    CountWithout(s.waiters, i);
    WithoutIsSubset(s.waiters, i);
    assert s.waiters[i] in s.waiters;
  }

  lemma PublishPosts(s: State, cmd: Cmd)
    requires PendsOnce(s.waiters, s.m) && AppStep(s, AppPublish(cmd)).Some?
    ensures Posts(s, AppStep(s, AppPublish(cmd)).value, 0)
  {
    OtherPuts(s.(passed := s.passed - multiset{cmd}), Req(App, cmd));
  }

  lemma AppPosts(s: State, a: Action)
    requires PendsOnce(s.waiters, s.m) && AppStep(s, a).Some?
    ensures Posts(s, AppStep(s, a).value, 0)
  {
    match a
    case AppConnect => OtherPuts(s, Req(App, Connect));
    case AppDisconnect => OtherPuts(s, Req(App, Disconnect));
    case AppPublish(cmd) => PublishPosts(s, cmd);
    case AppTimeout(i) => TimeoutPosts(s, i);
    case TimerExpires => CountAppend(s.accepted, Req(TimerIsr, ReconnectTimeout), IsSubscribe);
    case _ =>
  }

  /** A pended SUBSCRIBE that gets in is accepted, and its thread goes on. */
  lemma DequeuePosts(s: State, waiter: nat)
    requires PendsOnce(s.waiters, s.m) && s.buf != [] && (s.waiters != [] ==> waiter < |s.waiters|)
    ensures Posts(s, Dequeue(s, waiter), 0)
  {
    if s.waiters != [] {
      CountWithout(s.waiters, waiter);
      WithoutIsSubset(s.waiters, waiter);
      assert s.waiters[waiter] in s.waiters;
      CountAppend(s.accepted, s.waiters[waiter], IsSubscribe);
    }
  }

  lemma GetPosts(s: State, waiter: nat)
    requires PendsOnce(s.waiters, s.m) && GcloudStep(s, GGet(waiter)).Some?
    ensures Posts(s, GcloudStep(s, GGet(waiter)).value, 0)
  {
    DequeuePosts(s, waiter);
    SettleKeeps(Dequeue(s, waiter), |s.fates|, s.buf[0].cmd);
    EffectKeeps(Settle(Dequeue(s, waiter), |s.fates|, s.buf[0].cmd), s.buf[0].cmd);
  }

  lemma GcloudPosts(s: State, a: Action)
    requires PendsOnce(s.waiters, s.m) && GcloudStep(s, a).Some?
    ensures Posts(s, GcloudStep(s, a).value, 0 - LostBy(s, a))
  {
    match a
    case GGet(waiter) => GetPosts(s, waiter);
    case GConnectReturn(_) => MqttOut(s.waiters);
    case GDecide => MqttOut(s.waiters);
    case GPut => OtherPuts(s, Req(GcloudThread, Connect));
    case GPutTimeout =>
      GcloudOut(s.waiters);
      OthersAreOthers(s.waiters, GcloudThread);
    case _ =>
  }

  lemma SubscribePosts(s: State)
    requires PendsOnce(s.waiters, s.m) && s.m.MPut?
    ensures var t, m := PutOrWait(s, Req(MqttThread, Subscribe)), if |s.buf| < N_MESSAGES then MIdle else MWaitPut;
            PendsOnce(t.waiters, m) && Posted(t.accepted, m) == Posted(s.accepted, s.m)
  {
    var r := Req(MqttThread, Subscribe);
    PutCounts(s, r);
    if |s.buf| >= N_MESSAGES {
      assert forall x :: x in s.waiters + [r] ==> x in s.waiters || x == r;
    }
  }

  lemma PurgePosts(s: State)
    requires PendsOnce(s.waiters, s.m) && s.m.MIdle?
    ensures Posted(Purge(s).accepted, MDecide) == Posted(s.accepted, s.m) && PendsOnce(Purge(s).waiters, MDecide)
  {
  }

  lemma MqttPosts(s: State, a: Action)
    requires PendsOnce(s.waiters, s.m) && MqttStep(s, a).Some?
    ensures Posts(s, MqttStep(s, a).value, Bit(a.MConnack? && a.result == 0) - LostBy(s, a))
  {
    match a
    case MPutSubscribe => SubscribePosts(s);
    case MPutTimeout => MqttOut(s.waiters);
    case MDisconnect => PurgePosts(s);
    case _ =>
  }

  lemma ConnackOne(e: Event)
    ensures Count([e], IsConnack) == Bit(e.ConnackOk?)
  {
    CountAppend([], e, IsConnack);
    assert [] + [e] == [e];
  }

  lemma ConnackNone(e: Event, f: Event)
    requires !e.ConnackOk? && !f.ConnackOk?
    ensures Count([e, f], IsConnack) == 0
  {
    ConnackOne(e);
    CountAppend([e], f, IsConnack);
    assert [e] + [f] == [e, f];
  }

  lemma LoggedConnacks(s: State, a: Action)
    ensures Count(Logged(s, a), IsConnack) == Bit(a.MConnack? && a.result == 0)
  {
    match a
    case GGet(_) =>
      if s.buf != [] {
        ConnackOne(Logged(s, a)[0]);
      }
    case GCallback => ConnackOne(DisconnectEvt);
    case MDisconnect => ConnackOne(DisconnectEvt);
    case MConnack(_) => ConnackOne(ConnackOk);
    case MPublish(qos, id, _, _) =>
      ConnackOne(RxPublish(qos, id));
      ConnackNone(RxPublish(qos, id), Puback(id));
    case MPubrec(id, result) =>
      ConnackOne(RxPubrec(id, result));
      ConnackNone(RxPubrec(id, result), Pubrel(id));
    case _ =>
  }

  lemma ConnacksLogged(s: State, a: Action)
    ensures Count(s.log + Logged(s, a), IsConnack) == Count(s.log, IsConnack) + Bit(a.MConnack? && a.result == 0)
  {
    LoggedConnacks(s, a);
    CountConcat(s.log, Logged(s, a), IsConnack);
  }

  lemma PostedStep(s: State, a: Action)
    requires PendsOnce(s.waiters, s.m) && Step(s, a).Some?
    ensures Posts(s, Step(s, a).value, Bit(a.MConnack? && a.result == 0) - LostBy(s, a))
  {
    if IsAppAction(a) {
      AppPosts(s, a);
    } else if IsMqttAction(a) {
      MqttPosts(s, a);
    } else {
      GcloudPosts(s, a);
    }
  }

  lemma {:induction false} PostedInEveryRun(acts: seq<Action>)
    requires Run(Init(), acts).Some?
    ensures var s := Run(Init(), acts).value;
            PendsOnce(s.waiters, s.m) && Count(s.log, IsConnack) == Posted(s.accepted, s.m) + Lost(acts)
  {
    if acts == [] {
    } else {
      var s, a := Run(Init(), acts[..|acts| - 1]).value, acts[|acts| - 1];
      PostedInEveryRun(acts[..|acts| - 1]);
      StepLogs(s, a);
      ConnacksLogged(s, a);
      PostedStep(s, a);
    }
  }

  /** How many accepted SUBSCRIBEs met the fate f. */
  function WithFate(accepted: seq<Req>, fates: seq<Fate>, f: Fate): nat
    requires |fates| <= |accepted|
  {
    if fates == [] then 0
    else
      var n := |fates| - 1;
      WithFate(accepted, fates[..n], f) + Bit(fates[n] == f && accepted[n].cmd.Subscribe?)
  }

  lemma {:induction false} EveryFate(accepted: seq<Req>, fates: seq<Fate>)
    requires |fates| <= |accepted|
    ensures Count(accepted[..|fates|], IsSubscribe)
            == WithFate(accepted, fates, Executed) + WithFate(accepted, fates, Ignored)
               + WithFate(accepted, fates, Purged)
  {
    if fates == [] {
      assert accepted[..0] == [];
    } else {
      var n := |fates| - 1;
      EveryFate(accepted, fates[..n]);
      assert accepted[..n + 1] == accepted[..n] + [accepted[n]];
      CountAppend(accepted[..n], accepted[n], IsSubscribe);
    }
  }

  lemma CountLast(q: seq<Event>, last: seq<Event>, p: Event -> bool)
    requires |last| <= 1
    ensures Count(q + last, p) == Count(q, p) + Bit(last != [] && p(last[0]))
  {
    if last == [] {
      assert q + last == q;
    } else {
      CountAppend(q, last[0], p);
      assert last == [last[0]];
    }
  }

  lemma FateIsEvent(n: nat, cmd: Cmd, f: Fate)
    ensures var last := FateEvents(n, cmd, f);
            && Bit(last != [] && IsSubscribeCall(last[0])) == Bit(f == Executed && cmd.Subscribe?)
            && Bit(last != [] && IsSubscribeSkip(last[0])) == Bit(f == Ignored && cmd.Subscribe?)
  {
  }

  lemma {:induction false} FatesAreEvents(accepted: seq<Req>, fates: seq<Fate>)
    requires |fates| <= |accepted|
    ensures Count(Settling(accepted, fates), IsSubscribeCall) == WithFate(accepted, fates, Executed)
    ensures Count(Settling(accepted, fates), IsSubscribeSkip) == WithFate(accepted, fates, Ignored)
  {
    if fates == [] {
    } else {
      var n := |fates| - 1;
      var before, last := Settling(accepted, fates[..n]), FateEvents(n, accepted[n].cmd, fates[n]);
      FatesAreEvents(accepted, fates[..n]);
      FateIsEvent(n, accepted[n].cmd, fates[n]);
      CountLast(before, last, IsSubscribeCall);
      CountLast(before, last, IsSubscribeSkip);
    }
  }

  lemma {:induction false} SettlementsCount(log: seq<Event>, p: Event -> bool)
    requires forall e :: p(e) ==> Settles(e)
    ensures Count(Settlements(log), p) == Count(log, p)
  {
    if log == [] {
    } else {
      var n := |log| - 1;
      SettlementsCount(log[..n], p);
      CountLast(Settlements(log[..n]), if Settles(log[n]) then [log[n]] else [], p);
    }
  }

  /** Accepted SUBSCRIBEs are called, skipped, purged, or queued. */
  lemma AcceptedSubscribes(s: State)
    requires Conserved(s)
    ensures Count(s.accepted, IsSubscribe)
            == Count(s.log, IsSubscribeCall) + Count(s.log, IsSubscribeSkip)
               + WithFate(s.accepted, s.fates, Purged) + Count(s.buf, IsSubscribe)
  {
    EveryFate(s.accepted, s.fates);
    FatesAreEvents(s.accepted, s.fates);
    SettlementsCount(s.log, IsSubscribeCall);
    SettlementsCount(s.log, IsSubscribeSkip);
    assert s.accepted == s.accepted[..|s.fates|] + s.buf;
    CountConcat(s.accepted[..|s.fates|], s.buf, IsSubscribe);
  }

  /**
   * Resubscription accounting, in every run: the successful CONNACKs are exactly the calls of
   * mqtt_subscribe, the SUBSCRIBEs that were ignored, purged or are still queued, the one the MQTT
   * thread is about to put or pends with, and those that never got into the queue.
   */
  lemma SubscribesFollowConnacks(acts: seq<Action>, s: State)
    requires Run(Init(), acts) == Some(s)
    ensures |s.fates| <= |s.accepted|
    ensures Count(s.log, IsConnack)
            == Count(s.log, IsSubscribeCall) + Count(s.log, IsSubscribeSkip)
               + WithFate(s.accepted, s.fates, Purged) + Count(s.buf, IsSubscribe)
               + Bit(Subscribing(s.m)) + Lost(acts)
    ensures Count(s.waiters, IsSubscribe) == Bit(s.m.MWaitPut?)
  {
    PostedInEveryRun(acts);
    ConservedRun(Init(), acts);
    AcceptedSubscribes(s);
  }

  lemma SettlementMember(log: seq<Event>, i: nat)
    requires i < |log| && Settles(log[i])
    ensures log[i] in Settlements(log)
  {
    OccursIffIn(log, log[i]);
    SettlementsKeep(log, log[i]);
    OccursIffIn(Settlements(log), log[i]);
  }

  /**
   * What a command's dequeue in position i of the log decides: a command other than CONNECT, a
   * SUBSCRIBE in particular, is executed if and only if it was taken inside a session window, and
   * ignored if and only if it was taken outside; either way it is taken once, and a purged command never.
   */
  lemma ExecutedIffInWindow(s: State, k: nat, i: nat)
    requires Reachable(s) && k < |s.accepted| && !s.accepted[k].cmd.Connect?
    requires i < |s.log| && Settles(s.log[i]) && s.log[i].n == k
    ensures k < |s.fates| && s.log[i].cmd == s.accepted[k].cmd && Occurs(s.log, s.log[i]) == 1
    ensures s.fates[k].Executed? <==> WindowOpen(s.log[..i])
    ensures s.fates[k].Ignored? <==> !WindowOpen(s.log[..i])
  {
    LibraryCalls(s, k);
    SettlementMember(s.log, i);
    FlagsHold(s);
    assert Fits(s.log[i], WindowOpen(s.log[..i]));
  }

  /** And every command that left the queue unpurged was taken. */
  lemma TakenOnce(s: State, k: nat) returns (i: nat)
    requires Reachable(s) && k < |s.fates| && !s.fates[k].Purged?
    ensures k < |s.accepted| && i < |s.log| && Settles(s.log[i]) && s.log[i].n == k
  {
    CommandsAreConserved(s);
    LibraryCalls(s, k);
    var e := FateEvent(k, s.accepted[k].cmd, s.fates[k]);
    OccursIffIn(s.log, e);
    i :| i < |s.log| && s.log[i] == e;
  }
}
