/** Acknowledgements. */
module GcloudAcks {
  import opened Kernel
  import opened GcloudMachine

  /** The packet ids of the QoS 1 publishes that a run delivers, in arrival order. */
  function Qos1Arrivals(acts: seq<Action>): seq<nat> {
    if acts == [] then []
    else Qos1Arrivals(acts[..|acts| - 1]) + match acts[|acts| - 1]
                                            case MPublish(qos, id, _, _) => if qos == 1 then [id] else []
                                            case _ => []
  }

  /** The packet ids of the successful PUBRECs that a run delivers, in arrival order. */
  function PubrecArrivals(acts: seq<Action>): seq<nat> {
    if acts == [] then []
    else PubrecArrivals(acts[..|acts| - 1]) + match acts[|acts| - 1]
                                              case MPubrec(id, result) => if result == 0 then [id] else []
                                              case _ => []
  }

  /** The packet ids acknowledged so far. */
  function PubackIds(log: seq<Event>): seq<nat> {
    if log == [] then []
    else PubackIds(log[..|log| - 1]) + if log[|log| - 1].Puback? then [log[|log| - 1].id] else []
  }

  function PubrelIds(log: seq<Event>): seq<nat> {
    if log == [] then []
    else PubrelIds(log[..|log| - 1]) + if log[|log| - 1].Pubrel? then [log[|log| - 1].id] else []
  }

  lemma IdsAppend(log: seq<Event>, e: Event)
    ensures PubackIds(log + [e]) == PubackIds(log) + if e.Puback? then [e.id] else []
    ensures PubrelIds(log + [e]) == PubrelIds(log) + if e.Pubrel? then [e.id] else []
  {
    assert (log + [e])[..|log|] == log;
  }

  lemma IdsAppendTwo(log: seq<Event>, e: Event, f: Event)
    requires !e.Puback? && !e.Pubrel?
    ensures PubackIds(log + [e, f]) == PubackIds(log) + if f.Puback? then [f.id] else []
    ensures PubrelIds(log + [e, f]) == PubrelIds(log) + if f.Pubrel? then [f.id] else []
  {
    IdsAppend(log, e);
    IdsAppend(log + [e], f);
    assert log + [e, f] == log + [e] + [f];
  }

  /** A publish or PUBREC is acknowledged at once, whatever else came with it. */
  lemma PacketIds(s: State, a: Action)
    requires a.MPublish? || a.MPubrec?
    ensures PubackIds(s.log + Logged(s, a)) == PubackIds(s.log) + if a.MPublish? && a.qos == 1 then [a.id] else []
    ensures PubrelIds(s.log + Logged(s, a)) == PubrelIds(s.log) + if a.MPubrec? && a.result == 0 then [a.id] else []
  {
    if a.MPublish? {
      IdsAppend(s.log, RxPublish(a.qos, a.id));
      IdsAppendTwo(s.log, RxPublish(a.qos, a.id), Puback(a.id));
    } else {
      IdsAppend(s.log, RxPubrec(a.id, a.result));
      IdsAppendTwo(s.log, RxPubrec(a.id, a.result), Pubrel(a.id));
    }
  }

  /** Nothing else is. */
  lemma NoPacketNoIds(s: State, a: Action)
    requires !a.MPublish? && !a.MPubrec?
    ensures PubackIds(s.log + Logged(s, a)) == PubackIds(s.log) && PubrelIds(s.log + Logged(s, a)) == PubrelIds(s.log)
  {
    if Logged(s, a) == [] {
      assert s.log + [] == s.log;
    } else {
      IdsAppend(s.log, Logged(s, a)[0]);
    }
  }

  /**
   * Acknowledgement order, in every run: one PUBACK for each QoS 1 publish that came in, and one PUBREL
   * for each successful PUBREC, in arrival order and with its id, and no others.
   */
  lemma {:induction false} AcksFollowArrivals(acts: seq<Action>)
    requires Run(Init(), acts).Some?
    ensures PubackIds(Run(Init(), acts).value.log) == Qos1Arrivals(acts)
    ensures PubrelIds(Run(Init(), acts).value.log) == PubrecArrivals(acts)
  {
    if acts == [] {
    } else {
      var s, a := Run(Init(), acts[..|acts| - 1]).value, acts[|acts| - 1];
      AcksFollowArrivals(acts[..|acts| - 1]);
      StepLogs(s, a);
      if a.MPublish? || a.MPubrec? {
        PacketIds(s, a);
      } else {
        NoPacketNoIds(s, a);
      }
    }
  }
}
