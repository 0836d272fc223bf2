/** app_timer_handler of cellular/mqtt_work: a 32-bit minute counter that submits a sample job every five minutes. */
module MqttTimer {
  import opened Kernel

  const UINT32_RANGE: nat := 0x1_0000_0000
  const TRANSMISSION_INTERVAL: nat := 5

  /** The counter is a multiple of five after tick t. */
  predicate Submits(t: nat) {
    (t % UINT32_RANGE) % TRANSMISSION_INTERVAL == 0
  }

  /** How often the job was submitted in the first n ticks. */
  function Submissions(n: nat): nat {
    if n == 0 then 0 else Submissions(n - 1) + Bit(Submits(n))
  }

  class AppTimer {
    var minutes: nat
    // submissions of the periodic job, and ticks so far
    var submitted: nat
    ghost var ticks: nat

    ghost predicate Valid()
      reads this
    {
      minutes == ticks % UINT32_RANGE && submitted == Submissions(ticks)
    }

    constructor ()
      ensures Valid() && ticks == 0
    {
      minutes, submitted, ticks := 0, 0, 0;
    }

    method AppTimerHandler()
      requires Valid()
      modifies this
      ensures Valid() && ticks == old(ticks) + 1
    {
      ticks := ticks + 1;
      minutes := (minutes + 1) % UINT32_RANGE;
      if minutes % TRANSMISSION_INTERVAL == 0 {
        submitted := submitted + 1;
      }
    }
  }

  lemma CounterAfter(q: nat, r: nat)
    requires r < UINT32_RANGE
    ensures (q * UINT32_RANGE + r) % UINT32_RANGE == r
    decreases q
  {
    if q > 0 {
      CounterAfter(q - 1, r);
      assert q * UINT32_RANGE + r == (q - 1) * UINT32_RANGE + r + UINT32_RANGE;
      AddTurn((q - 1) * UINT32_RANGE + r);
    }
  }

  lemma AddTurn(n: nat)
    ensures (n + UINT32_RANGE) % UINT32_RANGE == n % UINT32_RANGE
  {
  }

  lemma NextInterval(r: nat)
    requires r > 0
    ensures r / TRANSMISSION_INTERVAL == (r - 1) / TRANSMISSION_INTERVAL + Bit(r % TRANSMISSION_INTERVAL == 0)
  {
  }

  /** Closed form across wraps: 858993460 submissions for each full turn, and one every five minutes after. */
  lemma {:induction false} SubmissionCount(q: nat, r: nat)
    requires r < UINT32_RANGE
    ensures Submissions(q * UINT32_RANGE + r) == q * 858993460 + r / TRANSMISSION_INTERVAL
    decreases q, r
  {
    CounterAfter(q, r);
    if r > 0 {
      SubmissionCount(q, r - 1);
      NextInterval(r);
      assert q * UINT32_RANGE + r - 1 == q * UINT32_RANGE + (r - 1);
    } else if q > 0 {
      SubmissionCount(q - 1, UINT32_RANGE - 1);
      assert q * UINT32_RANGE - 1 == (q - 1) * UINT32_RANGE + (UINT32_RANGE - 1);
      assert (UINT32_RANGE - 1) / TRANSMISSION_INTERVAL == 858993459;
    }
  }

  /** One tick further, the counter goes up by one or wraps. */
  lemma CounterStep(t: nat)
    ensures (t + 1) % UINT32_RANGE == if t % UINT32_RANGE == UINT32_RANGE - 1 then 0 else t % UINT32_RANGE + 1
  {
  }

  lemma CounterSteps(t: nat)
    ensures var c := t % UINT32_RANGE;
            c + 5 < UINT32_RANGE ==>
              && (t + 1) % UINT32_RANGE == c + 1 && (t + 2) % UINT32_RANGE == c + 2 && (t + 3) % UINT32_RANGE == c + 3
              && (t + 4) % UINT32_RANGE == c + 4 && (t + 5) % UINT32_RANGE == c + 5
  {
    CounterStep(t);
    CounterStep(t + 1);
    CounterStep(t + 2);
    CounterStep(t + 3);
    CounterStep(t + 4);
  }

  /** Submissions are five ticks apart, except that the one at a wrap follows the one before by a single tick. */
  lemma SubmissionGap(t: nat, u: nat)
    requires 1 <= t < u && Submits(t) && Submits(u)
    requires forall v :: t < v < u ==> !Submits(v)
    ensures u - t == if u % UINT32_RANGE == 0 then 1 else TRANSMISSION_INTERVAL
  {
    var c := t % UINT32_RANGE;
    if c == UINT32_RANGE - 1 {
      CounterStep(t);
      assert Submits(t + 1);
    } else {
      assert c + 5 < UINT32_RANGE;
      CounterSteps(t);
      assert Submits(t + 5);
      var k := u - t;
      assert k <= 5 && (c + k) % TRANSMISSION_INTERVAL == 0;
    }
  }
}
