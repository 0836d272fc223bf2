/**
 * Whose ack a job takes. The callback does not compare message ids, so a permit may come from the ack
 * of an earlier message.
 */
module MqttAcks {
  import opened Kernel
  import opened MqttJobs

  /** The broker acks only messages that were sent to it, each of them once; an ack may come at any time. */
  predicate Honest(s: State, a: Action) {
    a.Puback? && a.result == 0 ==> a.msg in s.msgs.unacked
  }

  /** A run in which the broker is honest. */
  ghost predicate HonestRun(s: State, acts: seq<Action>)
    decreases |acts|
  {
    acts != [] ==>
      var init := acts[..|acts| - 1];
      HonestRun(s, init) && Run(s, init).Some? && Honest(Run(s, init).value, acts[|acts| - 1])
  }

  ghost predicate HonestlyReachable(s: State) {
    exists acts :: HonestRun(Init(), acts) && Run(Init(), acts) == Some(s)
  }

  lemma HonestStep(s: State, acts: seq<Action>, t: State, a: Action)
    requires HonestRun(s, acts) && Run(s, acts) == Some(t) && Honest(t, a)
    ensures HonestRun(s, acts + [a]) && Run(s, acts + [a]) == Step(t, a)
  {
    assert (acts + [a])[..|acts|] == acts;
  }

  /** Only messages that were published wait for an ack, or gave the permit. */
  ghost predicate MessagesFit(m: Messages, pubackOk: bool) {
    (forall i :: i in m.unacked ==> i < m.published) && (pubackOk ==> m.permitOf < m.published)
  }

  lemma FitStep(s: State, a: Action)
    requires MessagesFit(s.msgs, s.pubackOk) && Honest(s, a) && Step(s, a).Some?
    ensures MessagesFit(Step(s, a).value.msgs, Step(s, a).value.pubackOk)
  {
  }

  lemma {:induction false} FitInEveryRun(acts: seq<Action>)
    requires HonestRun(Init(), acts) && Run(Init(), acts).Some?
    ensures var s := Run(Init(), acts).value; MessagesFit(s.msgs, s.pubackOk)
  {
    if acts == [] {
    } else {
      FitInEveryRun(acts[..|acts| - 1]);
      FitStep(Run(Init(), acts[..|acts| - 1]).value, acts[|acts| - 1]);
    }
  }

  /** A permit that the job may take now comes from the ack of its own message. */
  ghost predicate TakesOwn(s: State) {
    s.pc.WaitAck? && Step(s, TakePuback).Some? ==> Step(s, TakePuback).value.job.ackOf == s.job.msg
  }

  /** In every honest run, as long as the job of t is under way, a permit that it may take is its own. */
  ghost predicate OwnAckOnly(t: State) {
    forall acts: seq<Action> :: HonestRun(t, acts) && Run(t, acts).Some? && Run(t, acts).value.done == t.done ==>
      TakesOwn(Run(t, acts).value)
  }

  /** While the job waits for the ack of message m, that ack is outstanding, or gave the permit, or is not to come. */
  ghost predicate OnlyOwn(m: Messages, pubackOk: bool, msg: nat) {
    m.unacked <= {msg} && (pubackOk ==> m.permitOf == msg && m.unacked == {})
  }

  /** The n-th job has published message `msg`: it waits for that ack, or is past its wait, or is done. */
  ghost predicate WaitsForOwn(s: State, msg: nat, n: nat) {
    || |s.done| > n
    || s.pc.Disconnect? || s.pc.Offline?
    || (s.pc.WaitAck? && s.job.msg == msg && OnlyOwn(s.msgs, s.pubackOk, msg))
  }

  lemma DoneGrows(s: State, a: Action)
    requires Step(s, a).Some?
    ensures s.done <= Step(s, a).value.done
    ensures s.pc.Disconnect? || s.pc.Offline? ==>
              |Step(s, a).value.done| > |s.done| || Step(s, a).value.pc.Disconnect? || Step(s, a).value.pc.Offline?
  {
  }

  lemma WaitsStep(s: State, a: Action, msg: nat, n: nat)
    requires WaitsForOwn(s, msg, n) && |s.done| >= n && Honest(s, a) && Step(s, a).Some?
    ensures WaitsForOwn(Step(s, a).value, msg, n) && |Step(s, a).value.done| >= n
  {
    DoneGrows(s, a);
  }

  lemma {:induction false} WaitsInEveryRun(t: State, acts: seq<Action>, msg: nat)
    requires WaitsForOwn(t, msg, |t.done|) && HonestRun(t, acts) && Run(t, acts).Some?
    ensures WaitsForOwn(Run(t, acts).value, msg, |t.done|) && |Run(t, acts).value.done| >= |t.done|
  {
    if acts == [] {
    } else {
      WaitsInEveryRun(t, acts[..|acts| - 1], msg);
      WaitsStep(Run(t, acts[..|acts| - 1]).value, acts[|acts| - 1], msg, |t.done|);
    }
  }

  /** A permit that is there before the job publishes, or an ack that is still to come, gets in first. */
  lemma ForeignAck(s: State, err: int, t: State)
    requires MessagesFit(s.msgs, s.pubackOk) && s.pc.Publish? && Step(s, DoPublish(err)) == Some(t)
    requires s.pubackOk || s.msgs.unacked != {}
    ensures !OwnAckOnly(t)
  {
    if s.pubackOk {
      assert HonestRun(t, []) && Run(t, []) == Some(t) && !TakesOwn(t);
    } else {
      var m :| m in s.msgs.unacked;
      HonestStep(t, [], t, Puback(0, m));
      assert [] + [Puback(0, m)] == [Puback(0, m)];
      assert !TakesOwn(Run(t, [Puback(0, m)]).value);
    }
  }

  /**
   * Whose ack: whatever comes in, a job takes no other ack than that of its own message, exactly if
   * the ack semaphore is empty and no earlier message is unacknowledged when it publishes.
   */
  lemma AckBelongsIff(s: State, err: int, t: State)
    requires HonestlyReachable(s) && s.pc.Publish? && Step(s, DoPublish(err)) == Some(t)
    ensures OwnAckOnly(t) <==> !s.pubackOk && s.msgs.unacked == {}
  {
    var before :| HonestRun(Init(), before) && Run(Init(), before) == Some(s);
    FitInEveryRun(before);
    if s.pubackOk || s.msgs.unacked != {} {
      ForeignAck(s, err, t);
    } else {
      forall acts: seq<Action> | HonestRun(t, acts) && Run(t, acts).Some? && Run(t, acts).value.done == t.done
        ensures TakesOwn(Run(t, acts).value)
      {
        WaitsInEveryRun(t, acts, t.job.msg);
      }
    }
  }

  lemma Extend(s: State, a: Action) returns (t: State)
    requires HonestlyReachable(s) && Honest(s, a) && Step(s, a).Some?
    ensures HonestlyReachable(t) && t == Step(s, a).value
  {
    t := Step(s, a).value;
    var acts :| HonestRun(Init(), acts) && Run(Init(), acts) == Some(s);
    HonestStep(Init(), acts, s, a);
  }

  lemma AlarmStarts(s: State) returns (t: State)
    requires HonestlyReachable(s) && s.pc.Idle?
    ensures HonestlyReachable(t) && t == s.(pc := MqttConnect, job := NewJob(Alarm))
  {
    t := Extend(s, Start(Alarm));
    t := Extend(t, LteConnect(0));
  }

  lemma AlarmConnects(s: State) returns (t: State)
    requires HonestlyReachable(s) && s.pc.MqttConnect?
    ensures HonestlyReachable(t) && t == s.(pc := WaitConnack, appConnected := true)
  {
    t := Extend(s, DoConnect(0));
    t := Extend(t, DoFdsInit(0));
  }

  lemma AlarmPublishes(s: State) returns (t: State)
    requires HonestlyReachable(s) && s.pc.WaitConnack? && !s.connectOk && s.appConnected && s.job == NewJob(Alarm)
    ensures HonestlyReachable(t) && t.pc.WaitAck? && t.job.kind.Alarm? && t.appConnected && t.pubackOk == s.pubackOk
    ensures !t.connectOk && t.job.acksSince == 0 && t.done == s.done && t.job.ackWaiting == s.pubackOk
    ensures t.msgs == Published(s.msgs, 0) && t.job.msg == s.msgs.published
  {
    t := Extend(s, Connack(0));
    t := Extend(t, TakeConnack);
    t := Extend(t, DoPublish(0));
  }

  /** An alarm job up to its wait for the ack. */
  lemma AlarmUpToAck(s: State) returns (t: State)
    requires HonestlyReachable(s) && s.pc.Idle? && !s.connectOk
    ensures HonestlyReachable(t) && t.pc.WaitAck? && t.job.kind.Alarm? && t.appConnected && t.pubackOk == s.pubackOk
    ensures !t.connectOk && t.job.acksSince == 0 && t.done == s.done && t.job.ackWaiting == s.pubackOk
    ensures t.msgs == Published(s.msgs, 0) && t.job.msg == s.msgs.published
  {
    t := AlarmStarts(s);
    t := AlarmConnects(t);
    t := AlarmPublishes(t);
  }

  lemma AlarmEnds(s: State) returns (t: State)
    requires HonestlyReachable(s) && s.pc.Disconnect? && s.appConnected
    ensures HonestlyReachable(t) && t.pc.Idle? && t.pubackOk == s.pubackOk && t.connectOk == s.connectOk
    ensures t.msgs == s.msgs && |t.done| == |s.done| + 1
    ensures var j := t.done[|s.done|];
            && j.acked == s.job.acked && j.acksSince == s.job.acksSince && j.kind == s.job.kind
            && j.msg == s.job.msg && j.ackOf == s.job.ackOf && j.ackWaiting == s.job.ackWaiting
  {
    t := Extend(s, DoDisconnect(0));
    t := Extend(t, DoOffline(0));
  }

  /** The wait of the first alarm job times out; its message 0 is still unacknowledged. */
  lemma FirstAlarmTimesOut() returns (s: State)
    ensures HonestlyReachable(s) && s.pc.Disconnect? && s.appConnected && s.done == []
    ensures !s.pubackOk && !s.connectOk && s.msgs.published == 1 && s.msgs.unacked == {0}
  {
    assert HonestRun(Init(), []) && Run(Init(), []) == Some(Init());
    s := AlarmUpToAck(Init());
    s := Extend(s, PubackTimeout);
  }

  /** The job takes the permit, and ends. */
  lemma AlarmTakes(s: State) returns (t: State)
    requires HonestlyReachable(s) && s.pc.WaitAck? && s.pubackOk && s.appConnected
    ensures HonestlyReachable(t) && |t.done| == |s.done| + 1
    ensures var j := t.done[|s.done|];
            && j.acked && j.acksSince == s.job.acksSince && j.kind == s.job.kind
            && j.msg == s.job.msg && j.ackOf == s.msgs.permitOf && j.ackWaiting == s.job.ackWaiting
  {
    t := Extend(s, TakePuback);
    t := AlarmEnds(t);
  }

  /** An ack too late for the first alarm job counts for the second, although none came in after it published. */
  lemma StaleAckHappens()
    ensures exists s :: && HonestlyReachable(s) && |s.done| == 2 && s.done[1].kind.Alarm?
                        && s.done[1].acked && s.done[1].acksSince == 0 && s.done[1].ackOf != s.done[1].msg
  {
    var s := FirstAlarmTimesOut();
    s := Extend(s, Puback(0, 0));
    s := AlarmEnds(s);
    s := AlarmUpToAck(s);
    s := AlarmTakes(s);
  }

  /** So does one that comes later still, when the second has published and found the semaphore empty. */
  lemma LateAckHappens()
    ensures exists s :: && HonestlyReachable(s) && |s.done| == 2 && s.done[1].kind.Alarm?
                        && s.done[1].acked && !s.done[1].ackWaiting && s.done[1].ackOf != s.done[1].msg
  {
    var s := FirstAlarmTimesOut();
    s := AlarmEnds(s);
    s := AlarmUpToAck(s);
    s := Extend(s, Puback(0, 0));
    s := AlarmTakes(s);
  }
}
