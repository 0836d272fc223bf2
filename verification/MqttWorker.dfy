/**
 * The job functions of cellular/mqtt_work/src/main.c as methods over app_connected and the two
 * semaphores. The results of library calls and the events that come in while a job waits are inputs;
 * each method returns the run of MqttJobs that it is.
 */
module MqttWorker {
  import opened Kernel
  import opened MqttJobs
  import opened MqttWords

  /** The results of the library calls that a job may make; lte(n) is that of the n-th try. */
  datatype Answers = Answers(lte: nat -> int, connect: int, fds: int, publish: int, disconnect: int, offline: int)

  /** The errors of the first n tries. */
  function Errors(lte: nat -> int, n: nat): (errs: seq<int>)
    ensures |errs| == n && forall i :: 0 <= i < n ==> errs[i] == lte(i)
  {
    if n == 0 then [] else Errors(lte, n - 1) + [lte(n - 1)]
  }

  predicate AllEvents(events: seq<Action>) {
    forall a :: a in events ==> IsEvent(a)
  }

  ghost predicate BringConnack(events: seq<Action>) {
    exists a :: a in events && GoodConnack(a)
  }

  ghost predicate BringPuback(events: seq<Action>) {
    exists a :: a in events && GoodPuback(a)
  }

  lemma {:induction false} EventsAreNoJobActions(events: seq<Action>)
    requires AllEvents(events)
    ensures JobActions(events) == []
  {
    if events == [] {
    } else {
      EventsAreNoJobActions(events[..|events| - 1]);
    }
  }

  /** A run of tries that ends with success. */
  lemma LinkRuns(s: State, lte: nat -> int, n: nat) returns (acts: seq<Action>)
    requires s.pc.Lte? && lte(n) == 0 && forall i :: 0 <= i < n ==> lte(i) != 0
    ensures Run(s, acts) == Some(s.(pc := MqttConnect))
    ensures JobActions(acts) == LteTries(Errors(lte, n)) + [LteConnect(0)]
  {
    var tries := LteTries(Errors(lte, n));
    RunTries(s, Errors(lte, n));
    TriesAreJobActions(Errors(lte, n));
    RunStep(s, tries, s, LteConnect(0), s.(pc := MqttConnect));
    JobActionsSnoc(tries, LteConnect(0));
    acts := tries + [LteConnect(0)];
  }

  /** The calls and the wait of app_connect, once the link is up. */
  function Opening(lib: Answers, connack: bool): seq<Action> {
    if lib.connect != 0 then [DoConnect(lib.connect)]
    else if lib.fds != 0 then [DoConnect(0), DoFdsInit(lib.fds)]
    else [DoConnect(0), DoFdsInit(0), if connack then TakeConnack else ConnackTimeout]
  }

  /** How far a job gets with these answers, by whether it finds a connect permit and an ack permit. */
  function Reached(lib: Answers, connack: bool, puback: bool): Connection {
    if lib.connect != 0 then ConnectFails(lib.connect)
    else if lib.fds != 0 then FdsFails(lib.fds)
    else if !connack then NoConnack
    else Connected(lib.publish, puback)
  }

  /** The script of such a job, after n failures of lte_lc_connect. */
  function Played(kind: Kind, lib: Answers, n: nat, connack: bool, puback: bool): Script {
    Script(kind, Errors(lib.lte, n), Reached(lib, connack, puback), lib.disconnect, lib.offline)
  }

  /** x is that script, with the number of failures that the answers give. */
  ghost predicate PlayedBy(x: Script, kind: Kind, lib: Answers, connack: bool, puback: bool) {
    var n := |x.lteErrors|;
    lib.lte(n) == 0 && (forall i :: 0 <= i < n ==> lib.lte(i) != 0) && x == Played(kind, lib, n, connack, puback)
  }

  /** What a job has done once app_connect has returned. */
  lemma Started(kind: Kind, lib: Answers, n: nat, connack: bool, puback: bool) returns (x: Script)
    requires lib.lte(n) == 0 && forall i :: 0 <= i < n ==> lib.lte(i) != 0
    ensures PlayedBy(x, kind, lib, connack, puback)
    ensures x.connection.Connected? == (lib.connect == 0 && lib.fds == 0 && connack)
    ensures [Start(kind)] + (LteTries(Errors(lib.lte, n)) + [LteConnect(0)] + Opening(lib, connack))
            == Prefix(if x.connection.Connected? then Publish else Disconnect, x)
  {
    x := Played(kind, lib, n, connack, puback);
    var a, b, c := [Start(kind)], LteTries(x.lteErrors) + [LteConnect(0)], Opening(lib, connack);
    assert a + (b + c) == a + b + c;
    assert Linked(x) == a + b;
  }

  /** The two calls of app_connect and its wait, one after the other. */
  lemma Opens(lib: Answers, connack: bool)
    ensures var calls := [DoConnect(lib.connect)] + if lib.connect == 0 then [DoFdsInit(lib.fds)] else [];
            Opening(lib, connack)
            == if lib.connect == 0 && lib.fds == 0 then calls + [if connack then TakeConnack else ConnackTimeout]
               else calls
  {
  }

  /** One run after the other. */
  lemma Then(s: State, acts: seq<Action>, t: State, more: seq<Action>, u: State) returns (acts': seq<Action>)
    requires Run(s, acts) == Some(t) && Run(t, more) == Some(u)
    ensures Run(s, acts') == Some(u) && JobActions(acts') == JobActions(acts) + JobActions(more)
  {
    acts' := acts + more;
    RunThen(s, acts, t, more, u);
    JobActionsConcat(acts, more);
  }

  /** A job published and waited. */
  predicate Waited(j: Job, j': Job, acked: bool) {
    j' == j.(publishes := j.publishes + 1, acked := j.acked || acked, ackWaiting := j'.ackWaiting,
             acksSince := j'.acksSince, msg := j'.msg, ackOf := j'.ackOf)
  }

  /** How the wait for the ack ends, if it ends. */
  function Waiting(acked: bool, kind: Kind): seq<Action> {
    if acked then [TakePuback] else if kind.Alarm? then [PubackTimeout] else []
  }

  lemma RecordWaits(j: Job, p: Job, j': Job, acked: bool)
    requires p == j.(publishes := j.publishes + 1, ackWaiting := p.ackWaiting, acksSince := 0, msg := p.msg)
    requires j' == p.(acked := p.acked || acked, acksSince := j'.acksSince, ackOf := j'.ackOf)
    ensures Waited(j, j', acked) && j'.ackWaiting == p.ackWaiting && j'.msg == p.msg
  {
  }

  lemma Waits(x: Script)
    requires x.connection.Connected?
    ensures Prefix(Publish, x) + ([DoPublish(x.connection.published)] + Waiting(x.connection.acked, x.kind))
            == Prefix(if x.connection.acked || x.kind.Alarm? then Disconnect else WaitAck, x)
  {
    var w := [DoPublish(x.connection.published)] + Waiting(x.connection.acked, x.kind);
    assert Prefix(Publish, x) + w == Linked(x) + ([DoConnect(0), DoFdsInit(0), TakeConnack] + w);
  }

  /** app_disconnect in the job's record. */
  predicate Ended(j: Job, j': Job, connected: bool, err: int) {
    j' == if !connected then j.(aborts := j.aborts + 1, offlines := j.offlines + 1)
          else if err == 0 then
            j.(disconnects := j.disconnects + 1, disconnectFailed := false, offlines := j.offlines + 1)
          else j.(disconnects := j.disconnects + 1, disconnectFailed := true)
  }

  /** What app_disconnect does. */
  function Closing(connected: bool, disconnect: int, offline: int): seq<Action> {
    if !connected then [DoAbort, DoOffline(offline)]
    else if disconnect == 0 then [DoDisconnect(0), DoOffline(offline)]
    else [DoDisconnect(disconnect)]
  }

  /** A job that gets to its end goes through its word. */
  lemma PlayedIsValid(x: Script, kind: Kind, lib: Answers, connack: bool, puback: bool)
    requires PlayedBy(x, kind, lib, connack, puback)
    requires x.connection.Connected? && kind.Sample? ==> x.connection.acked
    ensures Valid(x)
  {
  }

  lemma PlayedToTheEnd(x: Script)
    ensures Word(x) == Prefix(Disconnect, x) + Closing(x.connection.Connected?, x.disconnectErr, x.offlineErr)
  {
    assert Closing(x.connection.Connected?, x.disconnectErr, x.offlineErr) == Ending(x);
  }

  /** The record of a job before app_disconnect. */
  predicate RecordSoFar(j: Job, x: Script) {
    var started := NewJob(x.kind).(permits := Bit(x.connection.Connected?));
    if x.connection.Connected? then Waited(started, j, x.connection.acked) else j == started
  }

  lemma RecordWaited(x: Script, j: Job, j': Job)
    requires x.connection.Connected? && j == NewJob(x.kind).(permits := 1) && Waited(j, j', x.connection.acked)
    ensures RecordSoFar(j', x)
  {
  }

  lemma RecordMatches(x: Script, j: Job, ended: Job)
    requires Valid(x) && RecordSoFar(j, x) && Ended(j, ended, x.connection.Connected?, x.disconnectErr)
    ensures Matches(ended, x) && Bracketed(ended)
  {
    MatchesIsBracketed(ended, x);
  }

  lemma MatchesIsBracketed(j: Job, x: Script)
    requires Matches(j, x) && Valid(x)
    ensures Bracketed(j)
  {
  }

  class Worker {
    var appConnected: bool
    // mqtt_connect_ok and mqtt_puback_ok
    var connectOk: bool
    var pubackOk: bool
    // where the work-queue thread is, and the histories, kept for the specification
    var pc: Pc
    var job: Job
    var connacks: nat
    var pubacks: nat
    var lostConnacks: nat
    var lostPubacks: nat
    var msgs: Messages
    var done: seq<Job>

    ghost function View(): State
      reads this
    {
      State(pc, job, appConnected, connectOk, pubackOk, connacks, pubacks, lostConnacks, lostPubacks, msgs, done)
    }

    constructor ()
      ensures View() == Init() && !appConnected && !connectOk && !pubackOk
    {
      appConnected, connectOk, pubackOk := false, false, false;
      pc, job, done := Idle, NewJob(Sample), [];
      connacks, pubacks, lostConnacks, lostPubacks, msgs := 0, 0, 0, 0, Messages(0, {}, 0);
    }

    /** mqtt_evt_handler for a CONNACK. */
    method OnConnack(result: int)
      modifies `connectOk, `connacks, `lostConnacks
      ensures Step(old(View()), Connack(result)) == Some(View())
      ensures connectOk == (old(connectOk) || result == 0)
      ensures connacks == old(connacks) + Bit(result == 0)
      ensures lostConnacks == old(lostConnacks) + Bit(result == 0 && old(connectOk))
    {
      if result != 0 {
        return;
      }
      connacks, lostConnacks := connacks + 1, lostConnacks + Bit(connectOk);
      connectOk := true;
    }

    /** mqtt_evt_handler for a PUBACK, whatever message it acks. */
    method OnPuback(result: int, msg: nat)
      modifies `pubackOk, `pubacks, `lostPubacks, `msgs, `job
      ensures Step(old(View()), Puback(result, msg)) == Some(View())
      ensures pubackOk == (old(pubackOk) || result == 0)
      ensures pubacks == old(pubacks) + Bit(result == 0)
      ensures lostPubacks == old(lostPubacks) + Bit(result == 0 && old(pubackOk))
      ensures job == old(job).(acksSince := old(job).acksSince + Bit(result == 0 && pc.WaitAck?))
    {
      if result != 0 {
        return;
      }
      pubacks, lostPubacks := pubacks + 1, lostPubacks + Bit(pubackOk);
      msgs := Acknowledged(msgs, msg, pubackOk);
      pubackOk := true;
      if pc.WaitAck? {
        job := job.(acksSince := job.acksSince + 1);
      }
    }

    /** One event that the main thread delivers. */
    method Deliver(a: Action)
      requires IsEvent(a)
      modifies `connectOk, `connacks, `lostConnacks, `pubackOk, `pubacks, `lostPubacks, `msgs, `job
      ensures Step(old(View()), a) == Some(View())
      ensures connectOk == (old(connectOk) || GoodConnack(a)) && pubackOk == (old(pubackOk) || GoodPuback(a))
      ensures job == old(job).(acksSince := job.acksSince) && (!pc.WaitAck? ==> job == old(job))
    {
      match a
      case Connack(result) => OnConnack(result);
      case Puback(result, msg) => OnPuback(result, msg);
    }

    /** Those that come in while a job waits. */
    method DeliverAll(events: seq<Action>)
      requires AllEvents(events)
      modifies `connectOk, `connacks, `lostConnacks, `pubackOk, `pubacks, `lostPubacks, `msgs, `job
      ensures Run(old(View()), events) == Some(View()) && JobActions(events) == []
      ensures connectOk == (old(connectOk) || BringConnack(events))
      ensures pubackOk == (old(pubackOk) || BringPuback(events))
      ensures job == old(job).(acksSince := job.acksSince) && (!pc.WaitAck? ==> job == old(job))
    {
      ghost var s0 := View();
      var n := 0;
      while n < |events|
        invariant n <= |events| && Run(s0, events[..n]) == Some(View())
        invariant connectOk == (s0.connectOk || BringConnack(events[..n]))
        invariant pubackOk == (s0.pubackOk || BringPuback(events[..n]))
        invariant job == s0.job.(acksSince := job.acksSince) && (!pc.WaitAck? ==> job == s0.job)
      {
        ghost var before := View();
        Deliver(events[n]);
        RunStep(s0, events[..n], before, events[n], View());
        assert events[..n + 1] == events[..n] + [events[n]];
        n := n + 1;
      }
      assert events[..n] == events;
      EventsAreNoJobActions(events);
    }

    /** `while (lte_lc_connect() != 0) sleep`; the link comes up at last. */
    method ConnectLte(lte: nat -> int, ghost up: nat) returns (n: nat, ghost acts: seq<Action>)
      requires pc.Lte? && lte(up) == 0
      modifies `pc
      ensures pc.MqttConnect? && lte(n) == 0 && forall i :: 0 <= i < n ==> lte(i) != 0
      ensures Run(old(View()), acts) == Some(View())
      ensures JobActions(acts) == LteTries(Errors(lte, n)) + [LteConnect(0)]
    {
      n := 0;
      while lte(n) != 0
        invariant n <= up && forall i :: 0 <= i < n ==> lte(i) != 0
        decreases up - n
      {
        n := n + 1;
      }
      acts := LinkRuns(View(), lte, n);
      pc := MqttConnect;
    }

    /** mqtt_connect */
    method ConnectMqtt(err: int) returns (ok: bool)
      requires pc.MqttConnect?
      modifies `pc
      ensures Step(old(View()), DoConnect(err)) == Some(View())
      ensures ok == (err == 0) && pc == if ok then FdsInit else Disconnect
    {
      ok := err == 0;
      pc := if ok then FdsInit else Disconnect;
    }

    /** fds_init; with both done, `app_connected` is set. */
    method InitFds(err: int) returns (ok: bool)
      requires pc.FdsInit? && !appConnected
      modifies `pc, `appConnected
      ensures Step(old(View()), DoFdsInit(err)) == Some(View())
      ensures ok == appConnected == (err == 0) && pc == if ok then WaitConnack else Disconnect
    {
      ok := err == 0;
      if ok {
        pc, appConnected := WaitConnack, true;
      } else {
        pc := Disconnect;
      }
    }

    /** k_sem_take(&mqtt_connect_ok, MQTT_TIMEOUT) */
    method AwaitConnack() returns (ok: bool)
      requires pc.WaitConnack? && appConnected
      modifies `pc, `appConnected, `connectOk, `job
      ensures Step(old(View()), if ok then TakeConnack else ConnackTimeout) == Some(View())
      ensures ok == old(connectOk) && !connectOk && appConnected == ok && pc == if ok then Publish else Disconnect
      ensures job == old(job).(permits := old(job).permits + Bit(ok))
    {
      ok := connectOk;
      if ok {
        pc, connectOk, job := Publish, false, job.(permits := job.permits + 1);
      } else {
        pc, appConnected := Disconnect, false;
      }
    }

    /** mqtt_connect and fds_init. */
    method OpenConnection(connect: int, fds: int) returns (ok: bool, ghost acts: seq<Action>)
      requires pc.MqttConnect? && !appConnected
      modifies `pc, `appConnected
      ensures Run(old(View()), acts) == Some(View())
      ensures JobActions(acts) == [DoConnect(connect)] + if connect == 0 then [DoFdsInit(fds)] else []
      ensures ok == appConnected == (connect == 0 && fds == 0) && pc == if ok then WaitConnack else Disconnect
    {
      ghost var s0, s1 := View(), View();
      ok := ConnectMqtt(connect);
      acts, s1 := Begins(s0, DoConnect(connect));
      if ok {
        ok := InitFds(fds);
        acts, s1 := Goes(s0, acts, s1, DoFdsInit(fds));
      }
    }

    /** The wait of app_connect, with the events that come in meanwhile. */
    method AwaitConnection(events: seq<Action>) returns (ok: bool, ghost acts: seq<Action>)
      requires pc.WaitConnack? && appConnected && AllEvents(events)
      modifies `pc, `appConnected, `connectOk, `pubackOk, `job, `connacks, `pubacks, `lostConnacks, `lostPubacks, `msgs
      ensures Run(old(View()), acts) == Some(View())
      ensures JobActions(acts) == [if ok then TakeConnack else ConnackTimeout]
      ensures ok == (old(connectOk) || BringConnack(events))
      ensures appConnected == ok && !connectOk && pc == if ok then Publish else Disconnect
      ensures job == old(job).(permits := old(job).permits + Bit(ok))
      ensures pubackOk == (old(pubackOk) || BringPuback(events))
    {
      ghost var s0 := View();
      DeliverAll(events);
      ghost var s1 := View();
      ok := AwaitConnack();
      acts, s1 := Goes(s0, events, s1, if ok then TakeConnack else ConnackTimeout);
    }

    /** The two library calls of app_connect, and its wait. */
    method OpenAndWait(lib: Answers, events: seq<Action>) returns (ok: bool, ghost acts: seq<Action>)
      requires pc.MqttConnect? && !appConnected && AllEvents(events)
      modifies `pc, `appConnected, `connectOk, `pubackOk, `job, `connacks, `pubacks, `lostConnacks, `lostPubacks, `msgs
      ensures Run(old(View()), acts) == Some(View())
      ensures JobActions(acts) == Opening(lib, old(connectOk) || BringConnack(events))
      ensures ok == (lib.connect == 0 && lib.fds == 0 && (old(connectOk) || BringConnack(events)))
      ensures appConnected == ok && pc == if ok then Publish else Disconnect
      ensures job == old(job).(permits := old(job).permits + Bit(ok))
      ensures pubackOk == (old(pubackOk) || (lib.connect == 0 && lib.fds == 0 && BringPuback(events)))
    {
      ghost var s0 := View();
      Opens(lib, connectOk || BringConnack(events));
      ok, acts := OpenConnection(lib.connect, lib.fds);
      if ok {
        ghost var s1 := View();
        ghost var more;
        ok, more := AwaitConnection(events);
        acts := Then(s0, acts, s1, more, View());
      }
    }

    /**
     * app_connect: it succeeds exactly if both library calls do and a connect permit is there or comes
     * in while the job waits. Success has taken that permit; an error leaves `app_connected` false.
     */
    method AppConnect(lib: Answers, ghost up: nat, events: seq<Action>)
      returns (ok: bool, ghost n: nat, ghost acts: seq<Action>)
      requires pc.Lte? && !appConnected && lib.lte(up) == 0 && AllEvents(events)
      modifies `pc, `appConnected, `connectOk, `pubackOk, `job, `connacks, `pubacks, `lostConnacks, `lostPubacks, `msgs
      ensures Run(old(View()), acts) == Some(View())
      ensures lib.lte(n) == 0 && forall i :: 0 <= i < n ==> lib.lte(i) != 0
      ensures JobActions(acts) == LteTries(Errors(lib.lte, n)) + [LteConnect(0)]
                                  + Opening(lib, old(connectOk) || BringConnack(events))
      ensures ok == (lib.connect == 0 && lib.fds == 0 && (old(connectOk) || BringConnack(events)))
      ensures appConnected == ok && pc == if ok then Publish else Disconnect
      ensures job == old(job).(permits := old(job).permits + Bit(ok))
      ensures pubackOk == (old(pubackOk) || (lib.connect == 0 && lib.fds == 0 && BringPuback(events)))
    {
      ghost var s0 := View();
      ghost var more;
      n, acts := ConnectLte(lib.lte, up);
      ghost var s1 := View();
      ok, more := OpenAndWait(lib, events);
      acts := Then(s0, acts, s1, more, View());
    }

    /** mqtt_abort, or mqtt_disconnect with result `err`. */
    method EndConnection(err: int) returns (ok: bool)
      requires pc.Disconnect?
      modifies `pc, `appConnected, `job, `done
      ensures Step(old(View()), if old(appConnected) then DoDisconnect(err) else DoAbort) == Some(View())
      ensures !appConnected && (ok <==> !old(appConnected) || err == 0) && pc == if ok then Offline else Idle
      ensures job == if old(appConnected) then
                       old(job).(disconnects := old(job).disconnects + 1, disconnectFailed := err != 0)
                     else old(job).(aborts := old(job).aborts + 1)
      ensures done == old(done) + if ok then [] else [job]
    {
      ok := !appConnected || err == 0;
      if !appConnected {
        job := job.(aborts := job.aborts + 1);
      } else {
        appConnected := false;
        job := job.(disconnects := job.disconnects + 1, disconnectFailed := err != 0);
      }
      if ok {
        pc := Offline;
        assert done == old(done) + [];
      } else {
        pc, done := Idle, done + [job];
      }
    }

    /** lte_lc_offline: the job is done. */
    method GoOffline(err: int)
      requires pc.Offline?
      modifies `pc, `job, `done
      ensures Step(old(View()), DoOffline(err)) == Some(View())
      ensures pc.Idle? && job == old(job).(offlines := old(job).offlines + 1) && done == old(done) + [job]
    {
      job := job.(offlines := job.offlines + 1);
      pc, done := Idle, done + [job];
    }

    /**
     * app_disconnect, the end of a job: without a connection it aborts and goes offline; with one it
     * disconnects, and goes offline exactly if that succeeds.
     */
    method AppDisconnect(disconnect: int, offline: int) returns (ghost acts: seq<Action>)
      requires pc.Disconnect?
      modifies `pc, `appConnected, `job, `done
      ensures Run(old(View()), acts) == Some(View())
      ensures JobActions(acts) == if !old(appConnected) then [DoAbort, DoOffline(offline)]
                                  else if disconnect == 0 then [DoDisconnect(0), DoOffline(offline)]
                                  else [DoDisconnect(disconnect)]
      ensures pc.Idle? && !appConnected && done == old(done) + [job]
      ensures Ended(old(job), job, old(appConnected), disconnect)
    {
      ghost var s0, s1 := View(), View();
      ghost var end := if appConnected then DoDisconnect(disconnect) else DoAbort;
      var ok := EndConnection(disconnect);
      acts, s1 := Begins(s0, end);
      if ok {
        GoOffline(offline);
        acts, s1 := Goes(s0, acts, s1, DoOffline(offline));
      }
    }

    /** data_publish; its result decides nothing but whether there is a message to ack. */
    method PublishData(err: int)
      requires pc.Publish?
      modifies `pc, `job, `msgs
      ensures Step(old(View()), DoPublish(err)) == Some(View()) && pc.WaitAck?
      ensures job == old(job).(publishes := old(job).publishes + 1, ackWaiting := pubackOk, acksSince := 0,
                               msg := old(msgs).published)
      ensures msgs.published == old(msgs).published + 1 && msgs.permitOf == old(msgs).permitOf
      ensures msgs.unacked == old(msgs).unacked + if err == 0 then {old(msgs).published} else {}
    {
      pc := WaitAck;
      job := job.(publishes := job.publishes + 1, ackWaiting := pubackOk, acksSince := 0, msg := msgs.published);
      msgs := Published(msgs, err);
    }

    /** k_sem_take(&mqtt_puback_ok, ...): an alarm job gives up without an ack, a sample job waits on. */
    method TakeAck() returns (finished: bool, ghost acts: seq<Action>)
      requires pc.WaitAck?
      modifies `pc, `job, `pubackOk
      ensures Run(old(View()), acts) == Some(View())
      ensures JobActions(acts) == Waiting(old(pubackOk), job.kind)
      ensures finished == (old(pubackOk) || job.kind.Alarm?) && !pubackOk
      ensures pc == if finished then Disconnect else WaitAck
      ensures job == if old(pubackOk) then old(job).(acked := true, ackOf := msgs.permitOf) else old(job)
    {
      ghost var s0, s1 := View(), View();
      acts := [];
      finished := pubackOk || job.kind.Alarm?;
      if pubackOk {
        pc, pubackOk, job := Disconnect, false, job.(acked := true, ackOf := msgs.permitOf);
        acts, s1 := Begins(s0, TakePuback);
      } else if finished {
        pc := Disconnect;
        acts, s1 := Begins(s0, PubackTimeout);
      }
    }

    /** The wait for the ack, with the events that come in meanwhile. */
    method AwaitPuback(events: seq<Action>) returns (finished: bool, ghost acts: seq<Action>)
      requires pc.WaitAck? && AllEvents(events)
      modifies `pc, `connectOk, `pubackOk, `job, `connacks, `pubacks, `lostConnacks, `lostPubacks, `msgs
      ensures Run(old(View()), acts) == Some(View())
      ensures JobActions(acts) == Waiting(old(pubackOk) || BringPuback(events), job.kind)
      ensures finished == (old(pubackOk) || BringPuback(events) || job.kind.Alarm?)
      ensures !pubackOk && pc == if finished then Disconnect else WaitAck
      ensures job == old(job).(acked := old(job).acked || old(pubackOk) || BringPuback(events),
                               acksSince := job.acksSince, ackOf := job.ackOf)
    {
      ghost var s0 := View();
      DeliverAll(events);
      ghost var s1 := View();
      ghost var more;
      finished, more := TakeAck();
      acts := Then(s0, events, s1, more, View());
    }

    /** publish_samples and publish_alarm behind app_connect. */
    method PublishAndWait(publish: int, events: seq<Action>) returns (finished: bool, ghost acts: seq<Action>)
      requires pc.Publish? && AllEvents(events)
      modifies `pc, `connectOk, `pubackOk, `job, `connacks, `pubacks, `lostConnacks, `lostPubacks, `msgs
      ensures Run(old(View()), acts) == Some(View())
      ensures JobActions(acts) == [DoPublish(publish)] + Waiting(old(pubackOk) || BringPuback(events), job.kind)
      ensures finished == (old(pubackOk) || BringPuback(events) || job.kind.Alarm?)
      ensures !pubackOk && pc == if finished then Disconnect else WaitAck
      ensures Waited(old(job), job, old(pubackOk) || BringPuback(events))
      ensures job.ackWaiting == old(pubackOk) && job.msg == old(msgs).published
    {
      ghost var s0, s1 := View(), View();
      PublishData(publish);
      acts, s1 := Begins(s0, DoPublish(publish));
      ghost var more;
      finished, more := AwaitPuback(events);
      acts := Then(s0, acts, s1, more, View());
      RecordWaits(s0.job, s1.job, job, s0.pubackOk || BringPuback(events));
    }

    /** A job up to the return of app_connect; `acked` tells whether it is to see an ack. */
    method StartJob(kind: Kind, lib: Answers, ghost up: nat, events: seq<Action>, ghost acked: bool)
      returns (ok: bool, ghost x: Script, ghost acts: seq<Action>)
      requires pc.Idle? && !appConnected && lib.lte(up) == 0 && AllEvents(events)
      modifies `pc, `appConnected, `connectOk, `pubackOk, `job, `connacks, `pubacks, `lostConnacks, `lostPubacks, `msgs
      ensures Run(old(View()), acts) == Some(View())
      ensures PlayedBy(x, kind, lib, old(connectOk) || BringConnack(events), acked)
      ensures ok == x.connection.Connected? == appConnected && pc == if ok then Publish else Disconnect
      ensures x.kind == kind && (ok ==> x.connection == Connected(lib.publish, acked))
      ensures JobActions(acts) == Prefix(pc, x) && job == NewJob(kind).(permits := Bit(ok))
      ensures ok ==> pubackOk == (old(pubackOk) || BringPuback(events))
    {
      ghost var s0, s1 := View(), View();
      pc, job := Lte, NewJob(kind);
      acts, s1 := Begins(s0, Start(kind));
      ghost var n, more;
      ok, n, more := AppConnect(lib, up, events);
      acts := Then(s0, acts, s1, more, View());
      x := Started(kind, lib, n, s0.connectOk || BringConnack(events), acked);
    }

    /** A job up to app_disconnect, if it gets there. */
    method ConnectAndPublish(kind: Kind, lib: Answers, ghost up: nat, connecting: seq<Action>, waiting: seq<Action>)
      returns (finished: bool, ghost x: Script, ghost acts: seq<Action>)
      requires pc.Idle? && !appConnected && lib.lte(up) == 0 && AllEvents(connecting) && AllEvents(waiting)
      modifies `pc, `appConnected, `connectOk, `pubackOk, `job, `connacks, `pubacks, `lostConnacks, `lostPubacks, `msgs
      ensures Run(old(View()), acts) == Some(View())
      ensures PlayedBy(x, kind, lib, old(connectOk) || BringConnack(connecting),
                       old(pubackOk) || BringPuback(connecting) || BringPuback(waiting))
      ensures finished == !(x.connection.Connected? && !x.connection.acked && kind.Sample?)
      ensures appConnected == x.connection.Connected? && pc == if finished then Disconnect else WaitAck
      ensures JobActions(acts) == Prefix(pc, x) && RecordSoFar(job, x)
    {
      ghost var s0 := View();
      var ok;
      ok, x, acts := StartJob(kind, lib, up, connecting, pubackOk || BringPuback(connecting) || BringPuback(waiting));
      finished := true;
      if !ok {
        return;
      }
      ghost var s1 := View();
      ghost var more;
      Waits(x);
      finished, more := PublishAndWait(lib.publish, waiting);
      RecordWaited(x, s1.job, job);
      acts := Then(s0, acts, s1, more, View());
    }

    /** The rest of a job. */
    method EndJob(disconnect: int, offline: int, ghost x: Script) returns (ghost acts: seq<Action>)
      requires pc.Disconnect? && Valid(x) && RecordSoFar(job, x) && appConnected == x.connection.Connected?
      requires x.disconnectErr == disconnect && x.offlineErr == offline
      modifies `pc, `appConnected, `job, `done
      ensures Run(old(View()), acts) == Some(View()) && Prefix(Disconnect, x) + JobActions(acts) == Word(x)
      ensures pc.Idle? && !appConnected && done == old(done) + [job] && Matches(job, x) && Bracketed(job)
    {
      ghost var j := job;
      acts := AppDisconnect(disconnect, offline);
      PlayedToTheEnd(x);
      RecordMatches(x, j, job);
    }

    /**
     * publish_samples and publish_alarm, for any results of the library calls and any events. With x the
     * script that these make, a job that comes to its end has done exactly Word(x) and is recorded as
     * that; only a sample job that gets no ack does not, and is left waiting.
     */
    method PublishJob(kind: Kind, lib: Answers, ghost up: nat, connecting: seq<Action>, waiting: seq<Action>)
      returns (finished: bool, ghost x: Script, ghost acts: seq<Action>)
      requires pc.Idle? && !appConnected && lib.lte(up) == 0 && AllEvents(connecting) && AllEvents(waiting)
      modifies this
      ensures Run(old(View()), acts) == Some(View())
      ensures PlayedBy(x, kind, lib, old(connectOk) || BringConnack(connecting),
                       old(pubackOk) || BringPuback(connecting) || BringPuback(waiting))
      ensures finished == !(x.connection.Connected? && !x.connection.acked && kind.Sample?)
      ensures finished ==> Valid(x) && JobActions(acts) == Word(x)
      ensures finished ==> pc.Idle? && !appConnected && done == old(done) + [job] && Matches(job, x) && Bracketed(job)
      ensures !finished ==> pc.WaitAck? && appConnected && done == old(done) && JobActions(acts) == Prefix(WaitAck, x)
    {
      ghost var s0 := View();
      finished, x, acts := ConnectAndPublish(kind, lib, up, connecting, waiting);
      if !finished {
        return;
      }
      ghost var s1 := View();
      PlayedIsValid(x, kind, lib, s0.connectOk || BringConnack(connecting),
                    s0.pubackOk || BringPuback(connecting) || BringPuback(waiting));
      ghost var more := EndJob(lib.disconnect, lib.offline, x);
      acts := Then(s0, acts, s1, more, View());
    }
  }
}
