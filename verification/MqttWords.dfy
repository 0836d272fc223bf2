/**
 * What the jobs of cellular/mqtt_work do, read from the actions of the run alone: the sequence of
 * library calls with their results, and of waits with their outcomes, that each job goes through.
 */
module MqttWords {
  import opened Kernel
  import opened MqttJobs

  /** How far app_connect and the publication got. */
  datatype Connection =
    | ConnectFails(err: int)
    | FdsFails(err: int)
    | NoConnack
    | Connected(published: int, acked: bool)

  /** The results that a job got: the errors of lte_lc_connect before it succeeded, and so on. */
  datatype Script = Script(
    kind: Kind,
    lteErrors: seq<int>,
    connection: Connection,
    disconnectErr: int,
    offlineErr: int)

  /** An error is not 0, and only an alarm job goes on without an ack. */
  predicate Valid(x: Script) {
    && (forall i :: 0 <= i < |x.lteErrors| ==> x.lteErrors[i] != 0)
    && match x.connection
       case ConnectFails(err) => err != 0
       case FdsFails(err) => err != 0
       case NoConnack => true
       case Connected(_, acked) => acked || x.kind.Alarm?
  }

  function LteTries(errs: seq<int>): seq<Action> {
    if errs == [] then [] else LteTries(errs[..|errs| - 1]) + [LteConnect(errs[|errs| - 1])]
  }

  function Connecting(c: Connection): seq<Action> {
    match c
    case ConnectFails(err) => [DoConnect(err)]
    case FdsFails(err) => [DoConnect(0), DoFdsInit(err)]
    case NoConnack => [DoConnect(0), DoFdsInit(0), ConnackTimeout]
    case Connected(err, acked) =>
      [DoConnect(0), DoFdsInit(0), TakeConnack, DoPublish(err), if acked then TakePuback else PubackTimeout]
  }

  /** Without a connection the job aborts and goes offline; with one it goes offline unless mqtt_disconnect fails. */
  function Ending(x: Script): seq<Action> {
    if !x.connection.Connected? then [DoAbort, DoOffline(x.offlineErr)]
    else if x.disconnectErr == 0 then [DoDisconnect(0), DoOffline(x.offlineErr)]
    else [DoDisconnect(x.disconnectErr)]
  }

  /** lte_lc_connect is tried until it succeeds. */
  function Linked(x: Script): seq<Action> {
    [Start(x.kind)] + LteTries(x.lteErrors) + [LteConnect(0)]
  }

  /** Everything that publish_samples or publish_alarm does, in order. */
  function Word(x: Script): seq<Action> {
    Linked(x) + Connecting(x.connection) + Ending(x)
  }

  function Words(xs: seq<Script>): seq<Action> {
    if xs == [] then [] else Words(xs[..|xs| - 1]) + Word(xs[|xs| - 1])
  }

  predicate IsEvent(a: Action) {
    a.Connack? || a.Puback?
  }

  /** The actions of a run other than the events of the main thread. */
  function JobActions(acts: seq<Action>): seq<Action> {
    if acts == [] then []
    else JobActions(acts[..|acts| - 1]) + if IsEvent(acts[|acts| - 1]) then [] else [acts[|acts| - 1]]
  }

  lemma JobActionsSnoc(acts: seq<Action>, a: Action)
    ensures JobActions(acts + [a]) == JobActions(acts) + if IsEvent(a) then [] else [a]
  {
    assert (acts + [a])[..|acts|] == acts;
  }

  lemma {:induction false} JobActionsConcat(a: seq<Action>, b: seq<Action>)
    ensures JobActions(a + b) == JobActions(a) + JobActions(b)
  {
    if b == [] {
      assert a + b == a;
    } else {
      JobActionsConcat(a, b[..|b| - 1]);
      assert (a + b)[..|a + b| - 1] == a + b[..|b| - 1];
    }
  }

  /** What a job has done by the time it gets somewhere. */
  function Prefix(pc: Pc, x: Script): seq<Action> {
    match pc
    case Idle => []
    case Lte => [Start(x.kind)] + LteTries(x.lteErrors)
    case MqttConnect => Linked(x)
    case FdsInit => Linked(x) + [DoConnect(0)]
    case WaitConnack => Linked(x) + [DoConnect(0), DoFdsInit(0)]
    case Publish => Linked(x) + [DoConnect(0), DoFdsInit(0), TakeConnack]
    case WaitAck =>
      Linked(x) + [DoConnect(0), DoFdsInit(0), TakeConnack,
                   DoPublish(if x.connection.Connected? then x.connection.published else 0)]
    case Disconnect => Linked(x) + Connecting(x.connection)
    case Offline =>
      Linked(x) + Connecting(x.connection) + [if x.connection.Connected? then DoDisconnect(0) else DoAbort]
  }

  lemma PrefixOfWord(pc: Pc, x: Script)
    requires pc.Disconnect? || pc.Offline? || x.connection.Connected?
    requires pc.Offline? && x.connection.Connected? ==> x.disconnectErr == 0
    ensures Prefix(pc, x) <= Word(x) && Prefix(pc, x) != Word(x)
  {
    var link, c, e := Linked(x), Connecting(x.connection), Ending(x);
    if pc.Offline? {
      assert e == [e[0]] + [e[1]];
      assert Word(x) == Prefix(pc, x) + [e[1]];
    } else if !pc.Disconnect? && !pc.Idle? && !pc.Lte? {
      var n := if pc.MqttConnect? then 0 else if pc.FdsInit? then 1 else if pc.WaitConnack? then 2
               else if pc.Publish? then 3 else 4;
      assert Prefix(pc, x) == link + c[..n];
    }
  }

  /** What a job recorded of what it did. */
  predicate Matches(j: Job, x: Script) {
    && j.kind == x.kind
    && j.permits == j.publishes == j.disconnects == Bit(x.connection.Connected?) && j.aborts == 1 - j.disconnects
    && j.acked == (x.connection.Connected? && x.connection.acked)
    && j.disconnectFailed == (x.connection.Connected? && x.disconnectErr != 0)
    && j.offlines == Bit(!j.disconnectFailed)
  }

  /** The same for a job under way, by where it stands. */
  predicate MatchesSoFar(pc: Pc, j: Job, x: Script) {
    && j.kind == x.kind
    && match pc
       case Idle => true
       case Offline =>
         && j.permits == j.publishes == j.disconnects == Bit(x.connection.Connected?) && j.aborts == 1 - j.disconnects
         && j.acked == (x.connection.Connected? && x.connection.acked)
         && !j.disconnectFailed && j.offlines == 0
       case Disconnect =>
         && j.permits == j.publishes == Bit(x.connection.Connected?)
         && j.acked == (x.connection.Connected? && x.connection.acked)
         && j.disconnects == j.aborts == j.offlines == 0 && !j.disconnectFailed
       case _ =>
         && j.permits == Bit(pc.Publish? || pc.WaitAck?) && j.publishes == Bit(pc.WaitAck?) && !j.acked
         && j.disconnects == j.aborts == j.offlines == 0 && !j.disconnectFailed
  }

  /** The job under way is in the middle of x: what it did is Prefix(s.pc, x), and the rest of x is still possible. */
  ghost predicate Standing(s: State, x: Script) {
    && Valid(x) && MatchesSoFar(s.pc, s.job, x)
    && match s.pc
       case Idle => !s.appConnected
       case Offline => !s.appConnected && (x.connection.Connected? ==> x.disconnectErr == 0)
       case Disconnect => s.appConnected == x.connection.Connected?
       case _ =>
         && x.connection.Connected? && x.connection.acked
         && s.appConnected == (s.pc.WaitConnack? || s.pc.Publish? || s.pc.WaitAck?)
  }

  /** An action that does not end the job continues what it did: first in app_connect, ... */
  lemma JobOpens(s: State, a: Action, x: Script) returns (y: Script)
    requires Standing(s, x) && JobStep(s, a).Some? && (s.pc.Idle? || s.pc.Lte? || s.pc.MqttConnect? || s.pc.FdsInit?)
    ensures var t := JobStep(s, a).value;
            Standing(t, y) && Prefix(t.pc, y) == Prefix(s.pc, x) + [a] && t.done == s.done && !t.pc.Idle?
  {
    match a
    case Start(kind) => y := Script(kind, [], Connected(0, true), 0, 0);
    case LteConnect(err) => y := if err != 0 then x.(lteErrors := x.lteErrors + [err]) else x;
    case DoConnect(err) =>
      y := if err != 0 then x.(connection := ConnectFails(err)) else x;
      assert Linked(y) == Linked(x);
    case DoFdsInit(err) =>
      y := if err != 0 then x.(connection := FdsFails(err)) else x;
      assert Linked(y) == Linked(x);
  }

  /** ... then from its wait for the CONNACK to lte_lc_offline. */
  lemma JobGoesOn(s: State, a: Action, x: Script) returns (y: Script)
    requires Standing(s, x) && JobStep(s, a).Some? && !JobStep(s, a).value.pc.Idle?
    requires !s.pc.Idle? && !s.pc.Lte? && !s.pc.MqttConnect? && !s.pc.FdsInit?
    ensures var t := JobStep(s, a).value;
            Standing(t, y) && Prefix(t.pc, y) == Prefix(s.pc, x) + [a] && t.done == s.done
  {
    match a {
      case ConnackTimeout => y := x.(connection := NoConnack);
      case DoPublish(err) => y := x.(connection := Connected(err, true));
      case PubackTimeout => y := x.(connection := Connected(x.connection.published, false));
      case DoDisconnect(err) => y := x.(disconnectErr := err);
      case _ => y := x;
    }
    assert Linked(y) == Linked(x);
  }

  /** An action that ends it completes a word. */
  lemma JobEnds(s: State, a: Action, x: Script) returns (y: Script)
    requires Standing(s, x) && JobStep(s, a).Some? && JobStep(s, a).value.pc.Idle?
    ensures var t := JobStep(s, a).value;
            && Valid(y) && Word(y) == Prefix(s.pc, x) + [a] && !s.pc.Idle? && !t.appConnected
            && t.done == s.done + [t.job] && Matches(t.job, y)
  {
    y := if a.DoOffline? then x.(offlineErr := a.err) else x.(disconnectErr := a.err);
    assert Linked(y) == Linked(x);
    if a.DoOffline? {
      assert Ending(y) == [if x.connection.Connected? then DoDisconnect(0) else DoAbort] + [a];
    }
  }

  predicate AllValid(xs: seq<Script>) {
    forall i :: 0 <= i < |xs| ==> Valid(xs[i])
  }

  predicate AllMatch(jobs: seq<Job>, xs: seq<Script>) {
    |jobs| == |xs| && forall i :: 0 <= i < |xs| ==> Matches(jobs[i], xs[i])
  }

  lemma WordsSnoc(xs: seq<Script>, x: Script)
    ensures Words(xs + [x]) == Words(xs) + Word(x)
  {
    assert (xs + [x])[..|xs|] == xs;
  }

  ghost predicate Explains(s: State, w: seq<Action>, xs: seq<Script>, x: Script) {
    AllValid(xs) && AllMatch(s.done, xs) && Standing(s, x) && w == Words(xs) + Prefix(s.pc, x)
  }

  lemma OneMoreWord(jobs: seq<Job>, xs: seq<Script>, job: Job, y: Script)
    requires AllValid(xs) && AllMatch(jobs, xs) && Valid(y) && Matches(job, y)
    ensures AllValid(xs + [y]) && AllMatch(jobs + [job], xs + [y]) && Words(xs + [y]) == Words(xs) + Word(y)
  {
    WordsSnoc(xs, y);
  }

  lemma Concluded(s: State, t: State, a: Action, w: seq<Action>, xs: seq<Script>, x: Script, y: Script)
    requires AllValid(xs) && AllMatch(s.done, xs) && w == Words(xs) + Prefix(s.pc, x)
    requires t.pc.Idle? && !t.appConnected && t.done == s.done + [t.job]
    requires Valid(y) && Matches(t.job, y) && Word(y) == Prefix(s.pc, x) + [a]
    ensures Explains(t, w + [a], xs + [y], y)
  {
    OneMoreWord(s.done, xs, t.job, y);
    assert w + [a] == Words(xs) + (Prefix(s.pc, x) + [a]);
    assert Words(xs + [y]) + Prefix(Idle, y) == Words(xs + [y]);
  }

  lemma ExplainEnd(s: State, a: Action, w: seq<Action>, xs: seq<Script>, x: Script) returns (y: Script)
    requires Explains(s, w, xs, x) && JobStep(s, a).Some? && !s.pc.Idle? && JobStep(s, a).value.pc.Idle?
    ensures Explains(JobStep(s, a).value, w + [a], xs + [y], y)
  {
    y := JobEnds(s, a, x);
    Concluded(s, JobStep(s, a).value, a, w, xs, x, y);
  }

  lemma Continued(s: State, t: State, a: Action, w: seq<Action>, xs: seq<Script>, x: Script, y: Script)
    requires AllValid(xs) && AllMatch(s.done, xs) && w == Words(xs) + Prefix(s.pc, x)
    requires Standing(t, y) && Prefix(t.pc, y) == Prefix(s.pc, x) + [a] && t.done == s.done
    ensures Explains(t, w + [a], xs, y)
  {
    assert w + [a] == Words(xs) + (Prefix(s.pc, x) + [a]);
  }

  lemma ExplainStep(s: State, a: Action, w: seq<Action>, xs: seq<Script>, x: Script) returns (y: Script)
    requires Explains(s, w, xs, x) && JobStep(s, a).Some? && (s.pc.Idle? || !JobStep(s, a).value.pc.Idle?)
    ensures Explains(JobStep(s, a).value, w + [a], xs, y)
  {
    if s.pc.Idle? || s.pc.Lte? || s.pc.MqttConnect? || s.pc.FdsInit? {
      y := JobOpens(s, a, x);
    } else {
      y := JobGoesOn(s, a, x);
    }
    Continued(s, JobStep(s, a).value, a, w, xs, x, y);
  }

  lemma ExplainEvent(s: State, a: Action, w: seq<Action>, xs: seq<Script>, x: Script)
    requires Explains(s, w, xs, x) && EventStep(s, a).Some?
    ensures Explains(EventStep(s, a).value, w, xs, x)
  {
  }

  /** The jobs of a run: their scripts in order, and the script that the one under way is in the middle of. */
  lemma {:induction false} Explain(acts: seq<Action>) returns (xs: seq<Script>, x: Script)
    requires Run(Init(), acts).Some?
    ensures Explains(Run(Init(), acts).value, JobActions(acts), xs, x)
    decreases |acts|
  {
    if acts == [] {
      xs, x := [], Script(Sample, [], NoConnack, 0, 0);
    } else {
      var before, a := acts[..|acts| - 1], acts[|acts| - 1];
      var s := Run(Init(), before).value;
      var x0;
      xs, x0 := Explain(before);
      if IsEvent(a) {
        x := x0;
        ExplainEvent(s, a, JobActions(before), xs, x);
        assert JobActions(before) + [] == JobActions(before);
      } else if !s.pc.Idle? && JobStep(s, a).value.pc.Idle? {
        x := ExplainEnd(s, a, JobActions(before), xs, x0);
        xs := xs + [x];
      } else {
        x := ExplainStep(s, a, JobActions(before), xs, x0);
      }
    }
  }

  /**
   * What jobs do, in every run: the finished jobs went through one word each, in order, as their
   * records say, and the job under way, if there is one, is in the middle of a word.
   */
  lemma JobsAreWords(acts: seq<Action>)
    requires Run(Init(), acts).Some?
    ensures var s := Run(Init(), acts).value;
            exists xs: seq<Script>, x: Script ::
              && AllValid(xs) && AllMatch(s.done, xs) && Valid(x)
              && (s.pc.Idle? ==> JobActions(acts) == Words(xs))
              && (!s.pc.Idle? ==> x.kind == s.job.kind && JobActions(acts) == Words(xs) + Prefix(s.pc, x)
                                  && Prefix(s.pc, x) <= Word(x) && Prefix(s.pc, x) != Word(x))
  {
    var xs, x := Explain(acts);
    var s := Run(Init(), acts).value;
    if s.pc.Idle? {
      assert Words(xs) + [] == Words(xs);
    } else {
      PrefixOfWord(s.pc, x);
    }
  }

  /** Between two jobs, with both semaphores empty. */
  ghost predicate AtRest(s: State) {
    s.pc.Idle? && !s.appConnected && !s.connectOk && !s.pubackOk
  }

  lemma {:induction false} RunTries(s: State, errs: seq<int>)
    requires s.pc.Lte? && forall i :: 0 <= i < |errs| ==> errs[i] != 0
    ensures Run(s, LteTries(errs)) == Some(s)
  {
    if errs == [] {
    } else {
      var n := |errs| - 1;
      RunTries(s, errs[..n]);
      RunStep(s, LteTries(errs[..n]), s, LteConnect(errs[n]), s);
    }
  }

  lemma {:induction false} TriesAreJobActions(errs: seq<int>)
    ensures JobActions(LteTries(errs)) == LteTries(errs)
  {
    if errs == [] {
    } else {
      TriesAreJobActions(errs[..|errs| - 1]);
      JobActionsSnoc(LteTries(errs[..|errs| - 1]), LteConnect(errs[|errs| - 1]));
    }
  }

  lemma RunLink(s: State, x: Script) returns (t: State)
    requires AtRest(s) && Valid(x)
    ensures Run(s, Linked(x)) == Some(t) && JobActions(Linked(x)) == Linked(x)
    ensures t == s.(pc := MqttConnect, job := NewJob(x.kind))
  {
    var u := s.(pc := Lte, job := NewJob(x.kind));
    RunOne(s, Start(x.kind));
    RunTries(u, x.lteErrors);
    TriesAreJobActions(x.lteErrors);
    RunThen(s, [Start(x.kind)], u, LteTries(x.lteErrors), u);
    t := u.(pc := MqttConnect);
    RunStep(s, [Start(x.kind)] + LteTries(x.lteErrors), u, LteConnect(0), t);
    JobActionsConcat([Start(x.kind)], LteTries(x.lteErrors));
    JobActionsSnoc([], Start(x.kind));
    assert [] + [Start(x.kind)] == [Start(x.kind)];
    JobActionsSnoc([Start(x.kind)] + LteTries(x.lteErrors), LteConnect(0));
  }

  /** One more action of the job. */
  lemma Goes(s: State, acts: seq<Action>, t: State, a: Action) returns (acts': seq<Action>, u: State)
    requires Run(s, acts) == Some(t) && Step(t, a).Some?
    ensures Run(s, acts') == Some(u) && u == Step(t, a).value
    ensures JobActions(acts') == JobActions(acts) + if IsEvent(a) then [] else [a]
  {
    acts', u := acts + [a], Step(t, a).value;
    RunStep(s, acts, t, a, u);
    JobActionsSnoc(acts, a);
  }

  /** The first one. */
  lemma Begins(s: State, a: Action) returns (acts: seq<Action>, u: State)
    requires Step(s, a).Some? && !IsEvent(a)
    ensures Run(s, acts) == Some(u) && u == Step(s, a).value && JobActions(acts) == [a]
  {
    acts, u := Goes(s, [], s, a);
  }

  lemma RunOpens(s: State) returns (acts: seq<Action>, t: State)
    requires s.pc.MqttConnect?
    ensures Run(s, acts) == Some(t) && JobActions(acts) == [DoConnect(0), DoFdsInit(0)]
    ensures t == s.(pc := WaitConnack, appConnected := true)
  {
    acts, t := Begins(s, DoConnect(0));
    acts, t := Goes(s, acts, t, DoFdsInit(0));
  }

  /** A CONNACK comes in while the job waits for it, ... */
  lemma RunPublishes(s: State, err: int) returns (acts: seq<Action>, t: State)
    requires s.pc.WaitConnack? && s.appConnected && !s.pubackOk
    ensures Run(s, acts) == Some(t) && JobActions(acts) == [TakeConnack, DoPublish(err)]
    ensures t.pc.WaitAck? && t.appConnected && !t.connectOk && !t.pubackOk
    ensures t.done == s.done && t.job.kind == s.job.kind
  {
    acts, t := Goes(s, [], s, Connack(0));
    acts, t := Goes(s, acts, t, TakeConnack);
    acts, t := Goes(s, acts, t, DoPublish(err));
  }

  /** ... and for an acked job a PUBACK. */
  lemma RunAcked(s: State, acked: bool) returns (acts: seq<Action>, t: State)
    requires s.pc.WaitAck? && !s.pubackOk && (acked || s.job.kind.Alarm?)
    ensures Run(s, acts) == Some(t) && JobActions(acts) == [if acked then TakePuback else PubackTimeout]
    ensures t.pc.Disconnect? && t.appConnected == s.appConnected && t.connectOk == s.connectOk && !t.pubackOk
    ensures t.done == s.done
  {
    if acked {
      acts, t := Goes(s, [], s, Puback(0, s.job.msg));
      acts, t := Goes(s, acts, t, TakePuback);
    } else {
      acts, t := Begins(s, PubackTimeout);
    }
  }

  lemma RunConnected(s: State, err: int, acked: bool) returns (acts: seq<Action>, t: State)
    requires s.pc.WaitConnack? && s.appConnected && !s.pubackOk && (acked || s.job.kind.Alarm?)
    ensures Run(s, acts) == Some(t)
    ensures JobActions(acts) == [TakeConnack, DoPublish(err), if acked then TakePuback else PubackTimeout]
    ensures t.pc.Disconnect? && t.appConnected && !t.connectOk && !t.pubackOk && t.done == s.done
  {
    var u, more;
    acts, u := RunPublishes(s, err);
    more, t := RunAcked(u, acked);
    RunThen(s, acts, u, more, t);
    JobActionsConcat(acts, more);
    acts := acts + more;
  }

  lemma RunConnecting(s: State, x: Script) returns (acts: seq<Action>, t: State)
    requires s.pc.MqttConnect? && !s.appConnected && !s.connectOk && !s.pubackOk && s.job.kind == x.kind && Valid(x)
    ensures Run(s, acts) == Some(t) && JobActions(acts) == Connecting(x.connection)
    ensures t.pc.Disconnect? && t.appConnected == x.connection.Connected?
    ensures !t.connectOk && !t.pubackOk && t.done == s.done
  {
    match x.connection
    case ConnectFails(err) => acts, t := Begins(s, DoConnect(err));
    case FdsFails(err) =>
      acts, t := Begins(s, DoConnect(0));
      acts, t := Goes(s, acts, t, DoFdsInit(err));
    case NoConnack =>
      acts, t := RunOpens(s);
      acts, t := Goes(s, acts, t, ConnackTimeout);
    case Connected(err, acked) =>
      var u, more;
      acts, u := RunOpens(s);
      more, t := RunConnected(u, err, acked);
      RunThen(s, acts, u, more, t);
      JobActionsConcat(acts, more);
      acts := acts + more;
  }

  lemma RunEnding(s: State, x: Script) returns (acts: seq<Action>, t: State)
    requires s.pc.Disconnect? && s.appConnected == x.connection.Connected? && !s.connectOk && !s.pubackOk
    ensures Run(s, acts) == Some(t) && JobActions(acts) == Ending(x)
    ensures AtRest(t) && |t.done| == |s.done| + 1
  {
    acts, t := Begins(s, if s.appConnected then DoDisconnect(x.disconnectErr) else DoAbort);
    if t.pc.Offline? {
      acts, t := Goes(s, acts, t, DoOffline(x.offlineErr));
    }
  }

  lemma RunWord(s: State, x: Script) returns (acts: seq<Action>, t: State)
    requires AtRest(s) && Valid(x)
    ensures Run(s, acts) == Some(t) && JobActions(acts) == Word(x) && AtRest(t) && |t.done| == |s.done| + 1
  {
    var u := RunLink(s, x);
    var more, v := RunConnecting(u, x);
    var rest;
    rest, t := RunEnding(v, x);
    RunThen(s, Linked(x), u, more, v);
    RunThen(s, Linked(x) + more, v, rest, t);
    acts := Linked(x) + more + rest;
    JobActionsConcat(Linked(x), more);
    JobActionsConcat(Linked(x) + more, rest);
  }

  lemma {:induction false} RunWords(xs: seq<Script>) returns (acts: seq<Action>, t: State)
    requires AllValid(xs)
    ensures Run(Init(), acts) == Some(t) && JobActions(acts) == Words(xs) && AtRest(t) && |t.done| == |xs|
    decreases |xs|
  {
    if xs == [] {
      acts, t := [], Init();
    } else {
      var n := |xs| - 1;
      var u, more;
      acts, u := RunWords(xs[..n]);
      more, t := RunWord(u, xs[n]);
      RunThen(Init(), acts, u, more, t);
      JobActionsConcat(acts, more);
      acts := acts + more;
    }
  }

  /** Finished jobs can have done w between them. */
  ghost predicate Happens(w: seq<Action>) {
    exists acts :: Run(Init(), acts).Some? && Run(Init(), acts).value.pc.Idle? && JobActions(acts) == w
  }

  /** What finished jobs can do: one word after the other, and all words. */
  lemma HappensIff(w: seq<Action>)
    ensures Happens(w) <==> exists xs :: AllValid(xs) && Words(xs) == w
  {
    if Happens(w) {
      var acts :| Run(Init(), acts).Some? && Run(Init(), acts).value.pc.Idle? && JobActions(acts) == w;
      var xs, x := Explain(acts);
      assert Words(xs) + [] == Words(xs);
    }
    if exists xs :: AllValid(xs) && Words(xs) == w {
      var xs :| AllValid(xs) && Words(xs) == w;
      var acts, t := RunWords(xs);
    }
  }
}
