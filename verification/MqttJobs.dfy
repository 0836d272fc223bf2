/**
 * The jobs of cellular/mqtt_work as an interleaving machine: a work-queue thread runs one sample or
 * alarm job at a time, and the main thread delivers MQTT events to the callback meanwhile. Both
 * semaphores hold at most one permit.
 */
module MqttJobs {
  import opened Kernel

  datatype Kind = Sample | Alarm

  /**
   * What one job has done: library calls, the connect permit it took, whether it took an ack permit,
   * whether that permit was already there when it published, the acks that came in since then, the
   * message it published, and the message whose ack gave the permit it took.
   */
  datatype Job = Job(
    kind: Kind,
    aborts: nat,
    disconnects: nat,
    disconnectFailed: bool,
    offlines: nat,
    permits: nat,
    publishes: nat,
    acked: bool,
    ackWaiting: bool,
    acksSince: nat,
    msg: nat,
    ackOf: nat)

  datatype Pc = Idle | Lte | MqttConnect | FdsInit | WaitConnack | Publish | WaitAck | Disconnect | Offline

  /**
   * Messages are numbered as they are published. `unacked` are those that were sent and not acked yet;
   * `permitOf` is the one whose ack gave the permit in mqtt_puback_ok.
   */
  datatype Messages = Messages(published: nat, unacked: set<nat>, permitOf: nat)

  /** lostConnacks and lostPubacks count the gives that found their semaphore full. */
  datatype State = State(
    pc: Pc,
    job: Job,
    appConnected: bool,
    connectOk: bool,
    pubackOk: bool,
    connacks: nat,
    pubacks: nat,
    lostConnacks: nat,
    lostPubacks: nat,
    msgs: Messages,
    done: seq<Job>)

  datatype Action =
    | Start(kind: Kind)
    | LteConnect(err: int)
    | DoConnect(err: int)
    | DoFdsInit(err: int)
    | TakeConnack
    | ConnackTimeout
    | DoPublish(err: int)
    | TakePuback
    | PubackTimeout
    | DoAbort
    | DoDisconnect(err: int)
    | DoOffline(err: int)
    | Connack(result: int)
    | Puback(result: int, msg: nat)

  function NewJob(kind: Kind): Job {
    Job(kind, 0, 0, false, 0, 0, 0, false, false, 0, 0, 0)
  }

  function Init(): State {
    State(Idle, NewJob(Sample), false, false, false, 0, 0, 0, 0, Messages(0, {}, 0), [])
  }

  /** data_publish sends one more message, unless it fails. */
  function Published(m: Messages, err: int): Messages {
    m.(published := m.published + 1, unacked := if err == 0 then m.unacked + {m.published} else m.unacked)
  }

  /** The ack of `msg`; the permit it gives is lost if the semaphore is full. */
  function Acknowledged(m: Messages, msg: nat, full: bool): Messages {
    m.(unacked := m.unacked - {msg}, permitOf := if full then m.permitOf else msg)
  }

  /** k_sem_give of the callback on a successful CONNACK or PUBACK. */
  function EventStep(s: State, a: Action): Option<State> {
    match a
    case Connack(result) =>
      Some(if result != 0 then s
           else s.(connectOk := true, connacks := s.connacks + 1, lostConnacks := s.lostConnacks + Bit(s.connectOk)))
    case Puback(result, msg) =>
      Some(if result != 0 then s
           else s.(pubackOk := true, pubacks := s.pubacks + 1, lostPubacks := s.lostPubacks + Bit(s.pubackOk),
                   msgs := Acknowledged(s.msgs, msg, s.pubackOk),
                   job := if s.pc.WaitAck? then s.job.(acksSince := s.job.acksSince + 1) else s.job))
    case _ => None
  }

  /** publish_samples and publish_alarm, with app_connect and app_disconnect. */
  function JobStep(s: State, a: Action): Option<State> {
    match (s.pc, a)
    case (Idle, Start(kind)) => Some(s.(pc := Lte, job := NewJob(kind)))
    case (Lte, LteConnect(err)) => Some(if err != 0 then s else s.(pc := MqttConnect))
    case (MqttConnect, DoConnect(err)) => Some(s.(pc := if err != 0 then Disconnect else FdsInit))
    case (FdsInit, DoFdsInit(err)) =>
      Some(if err != 0 then s.(pc := Disconnect) else s.(pc := WaitConnack, appConnected := true))
    case (WaitConnack, TakeConnack) =>
      if !s.connectOk then None
      else Some(s.(pc := Publish, connectOk := false, job := s.job.(permits := s.job.permits + 1)))
    case (WaitConnack, ConnackTimeout) =>
      if s.connectOk then None else Some(s.(pc := Disconnect, appConnected := false))
    case (Publish, DoPublish(err)) =>
      Some(s.(pc := WaitAck, msgs := Published(s.msgs, err),
              job := s.job.(publishes := s.job.publishes + 1, ackWaiting := s.pubackOk, acksSince := 0,
                            msg := s.msgs.published)))
    case (WaitAck, TakePuback) =>
      if !s.pubackOk then None
      else Some(s.(pc := Disconnect, pubackOk := false, job := s.job.(acked := true, ackOf := s.msgs.permitOf)))
    case (WaitAck, PubackTimeout) =>
      if s.pubackOk || s.job.kind.Sample? then None else Some(s.(pc := Disconnect))
    case (Disconnect, DoAbort) =>
      if s.appConnected then None else Some(s.(pc := Offline, job := s.job.(aborts := s.job.aborts + 1)))
    case (Disconnect, DoDisconnect(err)) =>
      if !s.appConnected then None
      else
        var job := s.job.(disconnects := s.job.disconnects + 1, disconnectFailed := err != 0);
        if err != 0 then Some(s.(pc := Idle, appConnected := false, job := job, done := s.done + [job]))
        else Some(s.(pc := Offline, appConnected := false, job := job))
    case (Offline, DoOffline(err)) =>
      var job := s.job.(offlines := s.job.offlines + 1);
      Some(s.(pc := Idle, job := job, done := s.done + [job]))
    case _ => None
  }

  /** None when the action is not enabled. */
  function Step(s: State, a: Action): Option<State> {
    if a.Connack? || a.Puback? then EventStep(s, a) else JobStep(s, a)
  }

  function Run(s: State, acts: seq<Action>): Option<State>
    decreases |acts|
  {
    if acts == [] then Some(s)
    else match Run(s, acts[..|acts| - 1])
         case None => None
         case Some(t) => Step(t, acts[|acts| - 1])
  }

  ghost predicate Reachable(s: State) {
    exists acts :: Run(Init(), acts) == Some(s)
  }

  lemma RunSnoc(s: State, acts: seq<Action>, a: Action)
    ensures Run(s, acts + [a]) == match Run(s, acts) case None => None case Some(t) => Step(t, a)
  {
    assert (acts + [a])[..|acts|] == acts;
  }

  lemma RunStep(s: State, acts: seq<Action>, t: State, a: Action, u: State)
    requires Run(s, acts) == Some(t) && Step(t, a) == Some(u)
    ensures Run(s, acts + [a]) == Some(u)
  {
    RunSnoc(s, acts, a);
  }

  lemma {:induction false} RunConcat(s: State, a: seq<Action>, b: seq<Action>)
    requires Run(s, a).Some?
    ensures Run(s, a + b) == Run(Run(s, a).value, b)
    decreases |b|
  {
    if b == [] {
      assert a + b == a;
    } else {
      RunConcat(s, a, b[..|b| - 1]);
      assert (a + b)[..|a + b| - 1] == a + b[..|b| - 1];
    }
  }

  lemma RunThen(s: State, a: seq<Action>, t: State, b: seq<Action>, u: State)
    requires Run(s, a) == Some(t) && Run(t, b) == Some(u)
    ensures Run(s, a + b) == Some(u)
  {
    RunConcat(s, a, b);
  }

  lemma RunOne(s: State, a: Action)
    ensures Run(s, [a]) == Step(s, a)
  {
    RunSnoc(s, [], a);
    assert [] + [a] == [a];
  }

  /**
   * A finished job ended its connection exactly once: with a disconnect if it had taken a connect
   * permit, and then it published exactly once; else with an abort, and then it published nothing. It
   * tried to take LTE offline unless the disconnect failed, and a sample job that published was acked.
   */
  ghost predicate Bracketed(j: Job) {
    && j.permits <= 1
    && j.publishes == j.permits && j.disconnects == j.permits && j.aborts == 1 - j.permits
    && j.offlines == Bit(!j.disconnectFailed) && (j.disconnectFailed ==> j.disconnects == 1)
    && (j.acked ==> j.publishes == 1) && (j.kind.Sample? && j.publishes == 1 ==> j.acked)
  }

  /** What an unfinished job has done, by where it stands. */
  ghost predicate OnTheWay(s: State) {
    var j := s.job;
    match s.pc
    case Idle => !s.appConnected
    case Disconnect =>
      && j.aborts == j.disconnects == j.offlines == 0 && !j.disconnectFailed
      && j.publishes == j.permits == Bit(s.appConnected)
      && (j.acked ==> j.publishes == 1) && (j.kind.Sample? && j.publishes == 1 ==> j.acked)
    case Offline =>
      && !s.appConnected && !j.disconnectFailed && j.offlines == 0
      && j.permits <= 1 && j.publishes == j.permits && j.disconnects == j.permits && j.aborts == 1 - j.permits
      && (j.acked ==> j.publishes == 1) && (j.kind.Sample? && j.publishes == 1 ==> j.acked)
    case _ =>
      && j.aborts == j.disconnects == j.offlines == 0 && !j.disconnectFailed && !j.acked
      && s.appConnected == (s.pc.WaitConnack? || s.pc.Publish? || s.pc.WaitAck?)
      && j.permits == Bit(s.pc.Publish? || s.pc.WaitAck?) && j.publishes == Bit(s.pc.WaitAck?)
  }

  ghost predicate AllBracketed(jobs: seq<Job>) {
    forall j :: j in jobs ==> Bracketed(j)
  }

  lemma BracketJobStep(s: State, a: Action)
    requires OnTheWay(s) && AllBracketed(s.done) && JobStep(s, a).Some?
    ensures OnTheWay(JobStep(s, a).value) && AllBracketed(JobStep(s, a).value.done)
  {
  }

  lemma BracketStep(s: State, a: Action)
    requires OnTheWay(s) && AllBracketed(s.done) && Step(s, a).Some?
    ensures OnTheWay(Step(s, a).value) && AllBracketed(Step(s, a).value.done)
  {
    if a.Connack? || a.Puback? {
      assert OnTheWay(EventStep(s, a).value);
    } else {
      BracketJobStep(s, a);
    }
  }

  lemma {:induction false} BracketRun(s: State, acts: seq<Action>)
    requires OnTheWay(s) && AllBracketed(s.done) && Run(s, acts).Some?
    ensures OnTheWay(Run(s, acts).value) && AllBracketed(Run(s, acts).value.done)
  {
    if acts == [] {
    } else {
      BracketRun(s, acts[..|acts| - 1]);
      BracketStep(Run(s, acts[..|acts| - 1]).value, acts[|acts| - 1]);
    }
  }

  /** Job bracket: every job of every run that finished; and between jobs `app_connected` is false. */
  lemma JobsAreBracketed(s: State)
    requires Reachable(s)
    ensures forall i :: 0 <= i < |s.done| ==> Bracketed(s.done[i])
    ensures s.pc.Idle? ==> !s.appConnected
    ensures !s.pc.Idle? ==> s.job.publishes <= s.job.permits <= 1
  {
    var acts :| Run(Init(), acts) == Some(s);
    BracketRun(Init(), acts);
  }

  predicate IsAcked(j: Job) {
    j.acked
  }

  predicate HasPublished(j: Job) {
    j.publishes > 0
  }

  predicate TookPermit(j: Job) {
    j.permits > 0
  }

  /** The job under way, if there is one. */
  predicate Current(s: State, p: Job -> bool) {
    !s.pc.Idle? && p(s.job)
  }

  /** The successful PUBACKs and CONNACKs among the actions of a run. */
  predicate GoodPuback(a: Action) {
    a.Puback? && a.result == 0
  }

  predicate GoodConnack(a: Action) {
    a.Connack? && a.result == 0
  }

  lemma StepCountsEvents(s: State, a: Action)
    requires Step(s, a).Some?
    ensures Step(s, a).value.pubacks == s.pubacks + Bit(GoodPuback(a))
    ensures Step(s, a).value.connacks == s.connacks + Bit(GoodConnack(a))
  {
  }

  lemma {:induction false} EventsAreCounted(acts: seq<Action>)
    requires Run(Init(), acts).Some?
    ensures Run(Init(), acts).value.pubacks == Count(acts, GoodPuback)
    ensures Run(Init(), acts).value.connacks == Count(acts, GoodConnack)
  {
    if acts == [] {
    } else {
      var a, t := acts[|acts| - 1], Run(Init(), acts[..|acts| - 1]).value;
      EventsAreCounted(acts[..|acts| - 1]);
      StepCountsEvents(t, a);
    }
  }

  /** Every successful event is taken by a job, still in its semaphore, or lost because the semaphore was full. */
  ghost predicate PermitsConserved(s: State) {
    && s.pubacks == Count(s.done, IsAcked) + Bit(Current(s, IsAcked)) + Bit(s.pubackOk) + s.lostPubacks
    && s.connacks == Count(s.done, TookPermit) + Bit(Current(s, TookPermit)) + Bit(s.connectOk) + s.lostConnacks
  }

  lemma FinishCounts(s: State, job: Job)
    ensures Count(s.done + [job], IsAcked) == Count(s.done, IsAcked) + Bit(IsAcked(job))
    ensures Count(s.done + [job], TookPermit) == Count(s.done, TookPermit) + Bit(TookPermit(job))
  {
    CountAppend(s.done, job, IsAcked);
    CountAppend(s.done, job, TookPermit);
  }

  lemma PermitsEventStep(s: State, a: Action)
    requires PermitsConserved(s) && EventStep(s, a).Some?
    ensures PermitsConserved(EventStep(s, a).value)
  {
  }

  lemma PermitsJobStep(s: State, a: Action)
    requires OnTheWay(s) && PermitsConserved(s) && JobStep(s, a).Some? && !JobStep(s, a).value.pc.Idle?
    ensures PermitsConserved(JobStep(s, a).value)
  {
  }

  lemma PermitsFinish(s: State, t: State)
    requires PermitsConserved(s) && !s.pc.Idle? && t.pc.Idle? && t.done == s.done + [t.job]
    requires t.job.acked == s.job.acked && t.job.permits == s.job.permits
    requires t.pubacks == s.pubacks && t.connacks == s.connacks
    requires t.pubackOk == s.pubackOk && t.connectOk == s.connectOk
    requires t.lostPubacks == s.lostPubacks && t.lostConnacks == s.lostConnacks
    ensures PermitsConserved(t)
  {
    FinishCounts(s, t.job);
  }

  lemma PermitsFinishStep(s: State, a: Action)
    requires PermitsConserved(s) && JobStep(s, a).Some? && JobStep(s, a).value.pc.Idle?
    ensures PermitsConserved(JobStep(s, a).value)
  {
    var t := JobStep(s, a).value;
    assert a.DoDisconnect? || a.DoOffline?;
    PermitsFinish(s, t);
  }

  lemma PermitsStep(s: State, a: Action)
    requires OnTheWay(s) && PermitsConserved(s) && Step(s, a).Some?
    ensures PermitsConserved(Step(s, a).value)
  {
    if a.Connack? || a.Puback? {
      PermitsEventStep(s, a);
    } else if JobStep(s, a).value.pc.Idle? {
      PermitsFinishStep(s, a);
    } else {
      PermitsJobStep(s, a);
    }
  }

  lemma {:induction false} PermitsInEveryRun(acts: seq<Action>)
    requires Run(Init(), acts).Some?
    ensures PermitsConserved(Run(Init(), acts).value)
  {
    if acts == [] {
    } else {
      PermitsInEveryRun(acts[..|acts| - 1]);
      BracketRun(Init(), acts[..|acts| - 1]);
      PermitsStep(Run(Init(), acts[..|acts| - 1]).value, acts[|acts| - 1]);
    }
  }

  predicate SawAck(j: Job) {
    (j.kind.Sample? && j.publishes > 0) || (j.kind.Alarm? && j.acked)
  }

  lemma {:induction false} SawAckIsAcked(jobs: seq<Job>)
    requires AllBracketed(jobs)
    ensures Count(jobs, SawAck) == Count(jobs, IsAcked) && Count(jobs, HasPublished) == Count(jobs, TookPermit)
  {
    if jobs == [] {
    } else {
      SawAckIsAcked(jobs[..|jobs| - 1]);
      assert jobs[|jobs| - 1] in jobs;
    }
  }

  /**
   * Ack counting, in every run: finished sample jobs that published and finished alarm jobs that saw an
   * ack never outnumber the successful PUBACKs that came in, and the difference is exactly the permit
   * held by the job under way, the one in the semaphore, and the acks lost on a full semaphore. The
   * same holds for jobs that published and successful CONNACKs.
   */
  lemma AcksAreCounted(acts: seq<Action>)
    requires Run(Init(), acts).Some?
    ensures var s := Run(Init(), acts).value;
            && Count(s.done, SawAck) + Bit(Current(s, IsAcked)) + Bit(s.pubackOk) + s.lostPubacks
               == Count(acts, GoodPuback)
            && Count(s.done, HasPublished) + Bit(Current(s, TookPermit)) + Bit(s.connectOk) + s.lostConnacks
               == Count(acts, GoodConnack)
  {
    PermitsInEveryRun(acts);
    BracketRun(Init(), acts);
    SawAckIsAcked(Run(Init(), acts).value.done);
    EventsAreCounted(acts);
  }

  /** An ack came in after the job published, or its permit was there before. */
  ghost predicate AckExplained(j: Job) {
    j.acked ==> j.ackWaiting || j.acksSince >= 1
  }

  ghost predicate AllExplained(s: State) {
    && (forall j :: j in s.done ==> AckExplained(j))
    && AckExplained(s.job)
    && (s.pc.WaitAck? ==> s.pubackOk == (s.job.ackWaiting || s.job.acksSince >= 1))
    && (!s.pc.WaitAck? && !s.pc.Disconnect? && !s.pc.Offline? && !s.pc.Idle? ==> !s.job.acked)
  }

  lemma ExplainedStep(s: State, a: Action)
    requires AllExplained(s) && Step(s, a).Some?
    ensures AllExplained(Step(s, a).value)
  {
  }

  lemma {:induction false} ExplainedInEveryRun(acts: seq<Action>)
    requires Run(Init(), acts).Some?
    ensures AllExplained(Run(Init(), acts).value)
  {
    if acts == [] {
    } else {
      ExplainedInEveryRun(acts[..|acts| - 1]);
      ExplainedStep(Run(Init(), acts[..|acts| - 1]).value, acts[|acts| - 1]);
    }
  }

  /**
   * When an ack comes: a job that finds the ack semaphore empty when it publishes sees an ack only if
   * one came in afterwards, and one that finds it full sees an ack at once, whatever comes in.
   */
  lemma AckTiming(s: State)
    requires Reachable(s)
    ensures forall i :: 0 <= i < |s.done| && s.done[i].acked && !s.done[i].ackWaiting ==> s.done[i].acksSince >= 1
    ensures s.pc.WaitAck? ==> (Step(s, TakePuback).Some? <==> s.job.ackWaiting || s.job.acksSince >= 1)
  {
    var acts :| Run(Init(), acts) == Some(s);
    ExplainedInEveryRun(acts);
    forall i | 0 <= i < |s.done|
      ensures AckExplained(s.done[i])
    {
      assert s.done[i] in s.done;
    }
  }
}
