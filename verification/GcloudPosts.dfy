/**
 * What becomes of what the application, the timer and the callbacks ask for, read from the actions of
 * the run: a queue of three commands, pended threads only when it is full, and every command that was
 * posted accepted, pended, or given up.
 */
module GcloudPosts {
  import opened Kernel
  import opened GcloudMachine
  import opened GcloudQueue

  /** The command an action posts. */
  function Posts(a: Action): seq<Req> {
    match a
    case AppConnect => [Req(App, Connect)]
    case AppDisconnect => [Req(App, Disconnect)]
    case AppPublish(cmd) => [Req(App, cmd)]
    case TimerExpires => [Req(TimerIsr, ReconnectTimeout)]
    case GPut => [Req(GcloudThread, Connect)]
    case MPutSubscribe => [Req(MqttThread, Subscribe)]
    case _ => []
  }

  /** The pended puts of `who`. */
  function Only(q: seq<Req>, who: Who): seq<Req> {
    if q == [] then []
    else Only(q[..|q| - 1], who) + if q[|q| - 1].who == who then [q[|q| - 1]] else []
  }

  /** The commands that are given up by an action: by a timeout, by an abort, by a purge, or by the timer. */
  function GivesUp(s: State, a: Action): seq<Req> {
    match a
    case AppTimeout(i) => if i < |s.waiters| then [s.waiters[i]] else []
    case TimerExpires => if |s.buf| < 3 then [] else [Req(TimerIsr, ReconnectTimeout)]
    case GCallback => s.waiters
    case MDisconnect => s.waiters
    case GPutTimeout => Only(s.waiters, GcloudThread)
    case MPutTimeout => Only(s.waiters, MqttThread)
    case GConnectReturn(_) => Only(s.waiters, MqttThread)
    case GDecide => if s.connected || s.connecting then Only(s.waiters, MqttThread) else []
    case _ => []
  }

  function Posted(acts: seq<Action>): seq<Req> {
    if acts == [] then [] else Posted(acts[..|acts| - 1]) + Posts(acts[|acts| - 1])
  }

  function GivenUp(acts: seq<Action>): seq<Req>
    requires Run(Init(), acts).Some?
  {
    if acts == [] then []
    else GivenUp(acts[..|acts| - 1]) + GivesUp(Run(Init(), acts[..|acts| - 1]).value, acts[|acts| - 1])
  }

  lemma OccursOne(x: Req, r: Req)
    ensures Occurs([x], r) == Bit(x == r)
  {
    OccursAppend([], x, r);
    assert [] + [x] == [x];
  }

  lemma OccursMaybe(q: seq<Req>, keep: bool, x: Req, r: Req)
    ensures Occurs(q + if keep then [x] else [], r) == Occurs(q, r) + Bit(keep && x == r)
  {
    if keep {
      OccursAppend(q, x, r);
    } else {
      assert q + [] == q;
    }
  }

  lemma {:induction false} OthersAndOnly(q: seq<Req>, who: Who, r: Req)
    ensures Occurs(q, r) == Occurs(Others(q, who), r) + Occurs(Only(q, who), r)
  {
    if q == [] {
    } else {
      var n := |q| - 1;
      OthersAndOnly(q[..n], who, r);
      var mine := q[n].who == who;
      OccursMaybe(Only(q[..n], who), mine, q[n], r);
      OccursMaybe(Others(q[..n], who), !mine, q[n], r);
      assert Others(q, who) == Others(q[..n], who) + if !mine then [q[n]] else [];
    }
  }

  /** Posted, or accepted, pended and given up: the requests r among them. */
  ghost predicate Balanced(s: State, t: State, posts: seq<Req>, gone: seq<Req>, r: Req) {
    Occurs(s.accepted, r) + Occurs(s.waiters, r) + Occurs(posts, r)
    == Occurs(t.accepted, r) + Occurs(t.waiters, r) + Occurs(gone, r)
  }

  lemma PutBalances(s: State, x: Req, r: Req)
    ensures Balanced(s, PutOrWait(s, x), [x], [], r)
  {
    OccursOne(x, r);
    if |s.buf| < N_MESSAGES {
      OccursAppend(s.accepted, x, r);
    } else {
      OccursAppend(s.waiters, x, r);
    }
  }

  lemma TimeoutBalances(s: State, i: nat, r: Req)
    requires i < |s.waiters|
    ensures Balanced(s, s.(waiters := Without(s.waiters, i)), [], [s.waiters[i]], r)
  {
    OccursDrop(s.waiters, i, r);
    OccursOne(s.waiters[i], r);
  }

  lemma TimerBalances(s: State, r: Req)
    requires AppStep(s, TimerExpires).Some?
    ensures Balanced(s, AppStep(s, TimerExpires).value, Posts(TimerExpires), GivesUp(s, TimerExpires), r)
  {
    var x := Req(TimerIsr, ReconnectTimeout);
    OccursOne(x, r);
    OccursAppend(s.accepted, x, r);
  }

  lemma AppBalances(s: State, a: Action, r: Req)
    requires AppStep(s, a).Some?
    ensures Balanced(s, AppStep(s, a).value, Posts(a), GivesUp(s, a), r)
  {
    match a
    case AppConnect => PutBalances(s, Req(App, Connect), r);
    case AppDisconnect => PutBalances(s, Req(App, Disconnect), r);
    case AppPublish(cmd) => PutBalances(s.(passed := s.passed - multiset{cmd}), Req(App, cmd), r);
    case AppTimeout(i) => TimeoutBalances(s, i, r);
    case TimerExpires => TimerBalances(s, r);
    case _ =>
  }

  lemma DequeueBalances(s: State, waiter: nat, r: Req)
    requires s.buf != [] && (s.waiters != [] ==> waiter < |s.waiters|)
    ensures Balanced(s, Dequeue(s, waiter), [], [], r)
  {
    if s.waiters != [] {
      OccursDrop(s.waiters, waiter, r);
      OccursAppend(s.accepted, s.waiters[waiter], r);
    }
  }

  lemma DispatchBalances(s: State, n: nat, cmd: Cmd)
    ensures Dispatch(s, n, cmd).accepted == s.accepted && Dispatch(s, n, cmd).waiters == s.waiters
  {
    SettleKeeps(s, n, cmd);
    EffectKeeps(Settle(s, n, cmd), cmd);
  }

  lemma GcloudBalances(s: State, a: Action, r: Req)
    requires GcloudStep(s, a).Some?
    ensures Balanced(s, GcloudStep(s, a).value, Posts(a), GivesUp(s, a), r)
  {
    match a
    case GGet(waiter) =>
      DequeueBalances(s, waiter, r);
      DispatchBalances(Dequeue(s, waiter), |s.fates|, s.buf[0].cmd);
    case GPut => PutBalances(s, Req(GcloudThread, Connect), r);
    case GPutTimeout => OthersAndOnly(s.waiters, GcloudThread, r);
    case GConnectReturn(_) => OthersAndOnly(s.waiters, MqttThread, r);
    case GDecide => OthersAndOnly(s.waiters, MqttThread, r);
    case _ =>
  }

  lemma MqttBalances(s: State, a: Action, r: Req)
    requires MqttStep(s, a).Some?
    ensures Balanced(s, MqttStep(s, a).value, Posts(a), GivesUp(s, a), r)
  {
    match a
    case MPutSubscribe => PutBalances(s, Req(MqttThread, Subscribe), r);
    case MPutTimeout => OthersAndOnly(s.waiters, MqttThread, r);
    case _ =>
  }

  lemma StepBalances(s: State, a: Action, r: Req)
    requires Step(s, a).Some?
    ensures Balanced(s, Step(s, a).value, Posts(a), GivesUp(s, a), r)
  {
    if IsAppAction(a) {
      AppBalances(s, a, r);
    } else if IsMqttAction(a) {
      MqttBalances(s, a, r);
    } else {
      GcloudBalances(s, a, r);
    }
  }

  /**
   * Posts are conserved, in every run: each command that an action of the run posted was accepted, is
   * pended, or was given up; and nothing else was accepted or is pended.
   */
  lemma {:induction false} PostsAreConserved(acts: seq<Action>, r: Req)
    requires Run(Init(), acts).Some?
    ensures var s := Run(Init(), acts).value;
            Occurs(Posted(acts), r) == Occurs(s.accepted, r) + Occurs(s.waiters, r) + Occurs(GivenUp(acts), r)
  {
    if acts == [] {
    } else {
      var before, a := acts[..|acts| - 1], acts[|acts| - 1];
      PostsAreConserved(before, r);
      StepBalances(Run(Init(), before).value, a, r);
      OccursConcat(Posted(before), Posts(a), r);
      OccursConcat(GivenUp(before), GivesUp(Run(Init(), before).value, a), r);
    }
  }

  /** Where a posted command goes. */
  ghost predicate GoesToQueue(s: State, t: State, posts: seq<Req>, waits: bool) {
    if |s.buf| < 3 then
      t.buf == s.buf + posts && t.accepted == s.accepted + posts && t.waiters == s.waiters
    else
      t.buf == s.buf && t.accepted == s.accepted && t.waiters == s.waiters + if waits then posts else []
  }

  lemma AppPostGoes(s: State, a: Action)
    requires AppStep(s, a).Some? && Posts(a) != []
    ensures GoesToQueue(s, AppStep(s, a).value, Posts(a), !a.TimerExpires?)
  {
    assert s.waiters + [] == s.waiters;
  }

  lemma CallbackPostGoes(s: State, a: Action)
    requires a.GPut? || a.MPutSubscribe?
    requires Step(s, a).Some?
    ensures GoesToQueue(s, Step(s, a).value, Posts(a), true)
  {
  }

  /**
   * The queue has room for three commands. A posted command is accepted exactly if fewer are queued, and
   * goes to its end; else the caller is pended behind the others, and the timer's command is lost.
   */
  lemma QueueOfThree(s: State)
    requires Reachable(s)
    ensures |s.buf| <= 3 && (s.waiters != [] ==> |s.buf| == 3)
    ensures forall a :: Posts(a) != [] && Step(s, a).Some? ==>
              GoesToQueue(s, Step(s, a).value, Posts(a), !a.TimerExpires?)
  {
    CommandsAreConserved(s);
    forall a | Posts(a) != [] && Step(s, a).Some?
      ensures GoesToQueue(s, Step(s, a).value, Posts(a), !a.TimerExpires?)
    {
      if IsAppAction(a) {
        AppPostGoes(s, a);
      } else {
        CallbackPostGoes(s, a);
      }
    }
  }

  /** gcloud_connect and gcloud_disconnect may be called in any state, and change nothing but the queue. */
  lemma AppAsks(s: State, a: Action)
    requires a.AppConnect? || a.AppDisconnect?
    ensures var r := Req(App, if a.AppConnect? then Connect else Disconnect);
            Step(s, a) == Some(if |s.buf| < 3 then s.(buf := s.buf + [r], accepted := s.accepted + [r])
                               else s.(waiters := s.waiters + [r]))
  {
  }

  /** How often a publish command was checked in the course of a run, and passed. */
  function Checks(acts: seq<Action>, cmd: Cmd): nat
    requires Run(Init(), acts).Some?
  {
    if acts == [] then 0
    else
      Checks(acts[..|acts| - 1], cmd)
      + Bit(acts[|acts| - 1] == AppCheck(cmd) && Run(Init(), acts[..|acts| - 1]).value.connected)
  }

  lemma GetKeepsPassed(s: State, waiter: nat)
    requires s.buf != [] && (s.waiters != [] ==> waiter < |s.waiters|)
    ensures Dispatch(Dequeue(s, waiter), |s.fates|, s.buf[0].cmd).passed == s.passed
  {
  }

  lemma GcloudKeepsPassed(s: State, a: Action)
    requires GcloudStep(s, a).Some?
    ensures GcloudStep(s, a).value.passed == s.passed
  {
    if a.GGet? {
      GetKeepsPassed(s, a.waiter);
    }
  }

  lemma MqttKeepsPassed(s: State, a: Action)
    requires MqttStep(s, a).Some?
    ensures MqttStep(s, a).value.passed == s.passed
  {
  }

  lemma PassedStep(s: State, a: Action, cmd: Cmd)
    requires Step(s, a).Some?
    ensures Step(s, a).value.passed[cmd] + Bit(a == AppPublish(cmd))
            == s.passed[cmd] + Bit(a == AppCheck(cmd) && s.connected)
  {
    if IsAppAction(a) {
      assert (s.passed + multiset{cmd})[cmd] == s.passed[cmd] + 1;
    } else if IsMqttAction(a) {
      MqttKeepsPassed(s, a);
    } else {
      GcloudKeepsPassed(s, a);
    }
  }

  /**
   * The session check of gcloud_publish, in every run: each publish that was posted was checked before,
   * while a session was open, and a check allows one.
   */
  lemma {:induction false} PublishesWereChecked(acts: seq<Action>, cmd: Cmd)
    requires Run(Init(), acts).Some?
    ensures var s := Run(Init(), acts).value;
            s.passed[cmd] + Occurs(acts, AppPublish(cmd)) == Checks(acts, cmd)
  {
    if acts == [] {
    } else {
      PublishesWereChecked(acts[..|acts| - 1], cmd);
      PassedStep(Run(Init(), acts[..|acts| - 1]).value, acts[|acts| - 1], cmd);
    }
  }
}
