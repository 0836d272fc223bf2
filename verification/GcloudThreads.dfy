/** What the threads of gcloud.c keep for each other: who can be pended where, and when a CONNACK is due. */
module GcloudThreads {
  import opened Kernel
  import opened GcloudMachine
  import opened GcloudQueue

  lemma {:induction false} OthersAreOthers(q: seq<Req>, who: Who)
    ensures forall r :: r in Others(q, who) ==> r in q && r.who != who
  {
    if q == [] {
    } else {
      OthersAreOthers(q[..|q| - 1], who);
    }
  }

  lemma WithoutIsSubset(q: seq<Req>, i: nat)
    requires i < |q|
    ensures forall r :: r in Without(q, i) ==> r in q
  {
  }

  /**
   * Once the callback on the gcloud thread posts, there is no MQTT thread; a CONNACK is due only while
   * the MQTT thread polls and the gcloud thread is not in the callback; and the gcloud thread is pended
   * only in that callback's put.
   */
  ghost predicate ThreadsFit(s: State) {
    && (s.g.CbPut? || s.g.CbWaitPut? || s.g.CbSem? ==> s.m.MDead?)
    && (s.awaiting ==> s.m.MIdle? && (s.g.GIdle? || s.g.InConnect? || s.g.InDisconnect?))
    && OnlyInPut(s.waiters, s.g)
  }

  ghost predicate OnlyInPut(q: seq<Req>, g: GPc) {
    forall r :: r in q && r.who == GcloudThread ==> g.CbWaitPut?
  }

  lemma ThreadsAppStep(s: State, a: Action)
    requires ThreadsFit(s) && AppStep(s, a).Some?
    ensures ThreadsFit(AppStep(s, a).value)
  {
    AppOnlyPuts(s, a);
    match a
    case AppConnect =>
    case AppDisconnect =>
    case AppPublish(_) =>
    case AppTimeout(i) => WithoutIsSubset(s.waiters, i);
    case _ =>
  }

  lemma ThreadsMqttStep(s: State, a: Action)
    requires ThreadsFit(s) && MqttStep(s, a).Some?
    ensures ThreadsFit(MqttStep(s, a).value)
  {
    OthersAreOthers(s.waiters, MqttThread);
  }

  lemma ThreadsDequeue(s: State, waiter: nat)
    requires ThreadsFit(s) && s.g.GIdle? && s.buf != [] && (s.waiters != [] ==> waiter < |s.waiters|)
    ensures ThreadsFit(Dequeue(s, waiter)) && Dequeue(s, waiter).g.GIdle?
  {
    if s.waiters != [] {
      WithoutIsSubset(s.waiters, waiter);
    }
  }

  lemma ThreadsDispatch(t: State, n: nat, cmd: Cmd)
    requires ThreadsFit(t) && t.g.GIdle?
    ensures ThreadsFit(Dispatch(t, n, cmd))
  {
    EffectKeeps(Settle(t, n, cmd), cmd);
  }

  lemma ThreadsGet(s: State, waiter: nat)
    requires ThreadsFit(s) && GcloudStep(s, GGet(waiter)).Some?
    ensures ThreadsFit(GcloudStep(s, GGet(waiter)).value)
  {
    ThreadsDequeue(s, waiter);
    ThreadsDispatch(Dequeue(s, waiter), |s.fates|, s.buf[0].cmd);
  }

  lemma ThreadsGcloudStep(s: State, a: Action)
    requires ThreadsFit(s) && GcloudStep(s, a).Some?
    ensures ThreadsFit(GcloudStep(s, a).value)
  {
    if a.GGet? {
      ThreadsGet(s, a.waiter);
    } else if a.GPutTimeout? {
      OthersAreOthers(s.waiters, GcloudThread);
    } else {
      OthersAreOthers(s.waiters, MqttThread);
    }
  }

  lemma ThreadsStep(s: State, a: Action)
    requires ThreadsFit(s) && Step(s, a).Some?
    ensures ThreadsFit(Step(s, a).value)
  {
    if IsAppAction(a) {
      ThreadsAppStep(s, a);
    } else if IsMqttAction(a) {
      ThreadsMqttStep(s, a);
    } else {
      ThreadsGcloudStep(s, a);
    }
  }

  lemma {:induction false} ThreadsInEveryRun(acts: seq<Action>)
    requires Run(Init(), acts).Some?
    ensures ThreadsFit(Run(Init(), acts).value)
  {
    if acts == [] {
    } else {
      ThreadsInEveryRun(acts[..|acts| - 1]);
      ThreadsStep(Run(Init(), acts[..|acts| - 1]).value, acts[|acts| - 1]);
    }
  }

  lemma ThreadsHold(s: State)
    requires Reachable(s)
    ensures ThreadsFit(s)
  {
    var acts :| Run(Init(), acts) == Some(s);
    ThreadsInEveryRun(acts);
  }
}
