/** publish_get_payload of cellular/mqtt_work: reading a payload in pieces. */
module MqttPayload {
  import opened Kernel

  /**
   * What the library answers to a read: at most `n` of the bytes asked for, "try again" followed by a
   * poll that finds input or not, or an error.
   */
  datatype Read = Chunk(n: nat) | Again(polledIn: bool) | Failure(code: int)

  datatype Result = Done | TooLong | Io | Failed(code: int)

  function Min(a: nat, b: nat): nat {
    if a < b then a else b
  }

  /** The answers from the lastAgain-th on are not "try again". */
  ghost predicate FiniteAgains(answers: nat -> Read, lastAgain: nat) {
    forall i: nat :: lastAgain <= i ==> !answers(i).Again?
  }

  /** The result for `left` bytes to come, `avail` bytes in the stream, and the i-th answer next. */
  ghost function Outcome(answers: nat -> Read, i: nat, left: nat, avail: nat, lastAgain: nat): Result
    requires FiniteAgains(answers, lastAgain)
    decreases left, if i < lastAgain then lastAgain - i else 0
  {
    if left == 0 then Done
    else match answers(i)
         case Failure(code) => Failed(code)
         case Again(polledIn) => if polledIn then Outcome(answers, i + 1, left, avail, lastAgain) else Io
         case Chunk(n) =>
           var k := Min(n, Min(left, avail));
           if k == 0 then Io else Outcome(answers, i + 1, left - k, avail - k, lastAgain)
  }

  /** The m answers from the i-th on are all bytes or a successful wait. */
  ghost predicate Smooth(answers: nat -> Read, i: nat, m: nat) {
    forall j: nat :: i <= j < i + m ==>
      (answers(j).Chunk? && answers(j).n > 0) || (answers(j).Again? && answers(j).polledIn)
  }

  ghost function Total(answers: nat -> Read, i: nat, m: nat): nat
    decreases m
  {
    if m == 0 then 0 else (if answers(i).Chunk? then answers(i).n else 0) + Total(answers, i + 1, m - 1)
  }

  /**
   * The first m answers all keep the read going: they are bytes and successful polls, they do not make
   * up `length` bytes of the stream before the last of them, and no bytes were asked of an exhausted stream.
   */
  ghost predicate Going(answers: nat -> Read, length: nat, avail: nat, m: nat) {
    && Smooth(answers, 0, m)
    && forall j: nat :: j < m ==>
         Min(Total(answers, 0, j), avail) < length && (answers(j).Chunk? ==> Total(answers, 0, j) < avail)
  }

  lemma {:induction false} TotalNext(answers: nat -> Read, i: nat, m: nat)
    ensures Total(answers, i, m + 1)
            == Total(answers, i, m) + if answers(i + m).Chunk? then answers(i + m).n else 0
    decreases m
  {
    if m == 0 {
      assert Total(answers, i + 1, 0) == 0;
    } else {
      TotalNext(answers, i + 1, m - 1);
    }
  }

  lemma {:induction false} TotalGrows(answers: nat -> Read, j: nat, m: nat)
    requires j <= m
    ensures Total(answers, 0, j) <= Total(answers, 0, m)
    decreases m - j
  {
    if j == m {
    } else {
      TotalNext(answers, 0, j);
      TotalGrows(answers, j + 1, m);
    }
  }

  /** One more answer that keeps the read going. */
  lemma GoesOn(answers: nat -> Read, length: nat, avail: nat, m: nat)
    requires Going(answers, length, avail, m) && Min(Total(answers, 0, m), avail) < length
    requires match answers(m)
             case Chunk(n) => n > 0 && Total(answers, 0, m) < avail
             case Again(polledIn) => polledIn
             case Failure(_) => false
    ensures Going(answers, length, avail, m + 1)
    ensures Total(answers, 0, m + 1) == Total(answers, 0, m) + if answers(m).Chunk? then answers(m).n else 0
  {
    TotalNext(answers, 0, m);
  }

  /** The buffer holds stream[p..q] and behind it is as it was originally. */
  ghost predicate Holds<T>(buffer: seq<T>, original: seq<T>, stream: seq<T>, p: nat, q: nat) {
    && p <= q <= |stream| && q - p <= |buffer| == |original|
    && forall k :: 0 <= k < |buffer| ==> buffer[k] == if k < q - p then stream[p + k] else original[k]
  }

  class Client<T(0)> {
    // what the broker sent and is not read yet begins at `pos`
    const stream: seq<T>
    var pos: nat
    // payload_buf
    const payloadBuf: array<T>

    constructor (stream: seq<T>, size: nat)
      ensures pos == 0 && this.stream == stream && payloadBuf.Length == size && fresh(payloadBuf)
    {
      this.stream := stream;
      pos := 0;
      payloadBuf := new T[size];
    }

    /** mqtt_read_publish_payload for an answer Chunk(n): some bytes of the stream, no more than asked for. */
    method ReadChunk(n: nat, at: nat, want: nat) returns (ret: nat)
      requires at + want <= payloadBuf.Length && pos <= |stream|
      modifies `pos, payloadBuf
      ensures ret == Min(n, Min(want, |stream| - old(pos))) && pos == old(pos) + ret
      ensures forall k :: 0 <= k < payloadBuf.Length ==>
                payloadBuf[k] == if at <= k < at + ret then stream[old(pos) + k - at] else old(payloadBuf[k])
    {
      ret := Min(n, Min(want, |stream| - pos));
      var j := 0;
      while j < ret
        invariant j <= ret && pos == old(pos)
        invariant forall k :: 0 <= k < payloadBuf.Length ==>
                    payloadBuf[k] == if at <= k < at + j then stream[pos + k - at] else old(payloadBuf[k])
      {
        payloadBuf[at + j] := stream[pos + j];
        j := j + 1;
      }
      pos := pos + ret;
    }

    /** One pass of the loop: a read, and the poll that follows "try again". It may end the loop with a result. */
    method OneRead(answer: Read, at: nat, want: nat) returns (stop: Option<Result>, ret: nat)
      requires at + want <= payloadBuf.Length && pos <= |stream|
      modifies `pos, payloadBuf
      ensures ret == (if answer.Chunk? then Min(answer.n, Min(want, |stream| - old(pos))) else 0)
      ensures stop == match answer
                      case Failure(code) => Some(Failed(code))
                      case Again(polledIn) => if polledIn then None else Some(Io)
                      case Chunk(_) => if ret == 0 then Some(Io) else None
      ensures pos == old(pos) + ret
      ensures forall k :: 0 <= k < payloadBuf.Length ==>
                payloadBuf[k] == if at <= k < at + ret then stream[old(pos) + k - at] else old(payloadBuf[k])
    {
      ret := 0;
      match answer {
        case Failure(code) => stop := Some(Failed(code));
        case Again(polledIn) => stop := if polledIn then None else Some(Io);
        case Chunk(n) =>
          ret := ReadChunk(n, at, want);
          stop := if ret == 0 then Some(Io) else None;
      }
    }

    /**
     * The payload is read whole or a prefix of it is. `m` answers keep the read going; the buffer holds
     * the bytes they delivered in stream order and is untouched behind them; and the result tells
     * whether these are all, or what the next answer was: the library's own error code, or -EIO for a
     * poll without input, an empty chunk or an exhausted stream.
     */
    method PublishGetPayload(length: nat, answers: nat -> Read, ghost lastAgain: nat)
      returns (r: Result, ghost got: nat, ghost m: nat)
      requires pos <= |stream| && FiniteAgains(answers, lastAgain)
      modifies `pos, payloadBuf
      ensures got <= length && pos == old(pos) + got <= |stream|
      ensures length > payloadBuf.Length ==> r == TooLong && got == 0
      ensures length <= payloadBuf.Length ==> r == Outcome(answers, 0, length, |stream| - old(pos), lastAgain)
      ensures r.TooLong? ==> length > payloadBuf.Length
      ensures !r.TooLong? ==> Going(answers, length, |stream| - old(pos), m)
      ensures !r.TooLong? ==> got == Min(Total(answers, 0, m), Min(length, |stream| - old(pos)))
      ensures r.Done? ==> got == length
      ensures r.Failed? ==> got < length && answers(m) == Failure(r.code)
      ensures r.Io? ==>
                && got < length
                && (|| answers(m) == Again(false) || answers(m) == Chunk(0)
                    || (answers(m).Chunk? && Total(answers, 0, m) >= |stream| - old(pos)))
      ensures Holds(payloadBuf[..], old(payloadBuf[..]), stream, old(pos), pos)
    {
      got, m := 0, 0;
      if length > payloadBuf.Length {
        return TooLong, 0, 0;
      }
      ghost var avail := |stream| - pos;
      var buf, end := 0, length;
      var i: nat := 0;
      while buf < end
        invariant buf <= end && got == buf && pos == old(pos) + buf <= |stream| && m == i
        invariant Going(answers, length, avail, i) && buf == Min(Total(answers, 0, i), Min(length, avail))
        invariant Holds(payloadBuf[..], old(payloadBuf[..]), stream, old(pos), pos)
        decreases end - buf, if i < lastAgain then lastAgain - i else 0
      {
        assert answers(i).Again? ==> i < lastAgain;
        var stop, ret := OneRead(answers(i), buf, end - buf);
        if stop.Some? {
          OutcomeAt(answers, length, avail, lastAgain, i);
          return stop.value, buf, i;
        }
        GoesOn(answers, length, avail, i);
        buf := buf + ret;
        got := buf;
        i := i + 1;
        m := i;
      }
      OutcomeGoesOn(answers, length, avail, lastAgain, i);
      r := Done;
    }
  }

  /** A read that met only bytes and successful waits until it had enough of them succeeds ... */
  lemma {:induction false} SmoothReadSucceeds(answers: nat -> Read, i: nat, left: nat, avail: nat,
                                              lastAgain: nat, m: nat)
    requires FiniteAgains(answers, lastAgain) && left <= avail
    requires Smooth(answers, i, m) && left <= Total(answers, i, m)
    ensures Outcome(answers, i, left, avail, lastAgain) == Done
    decreases m
  {
    if left > 0 {
      assert answers(i).Chunk? || answers(i).Again?;
      var k := if answers(i).Chunk? then Min(answers(i).n, left) else 0;
      SmoothReadSucceeds(answers, i + 1, left - k, avail - k, lastAgain, m - 1);
    }
  }

  /** ... and only such a read does. */
  lemma {:induction false} SuccessIsSmooth(answers: nat -> Read, i: nat, left: nat, avail: nat, lastAgain: nat)
    returns (m: nat)
    requires FiniteAgains(answers, lastAgain) && Outcome(answers, i, left, avail, lastAgain) == Done
    ensures left <= avail && Smooth(answers, i, m) && left <= Total(answers, i, m)
    decreases left, if i < lastAgain then lastAgain - i else 0
  {
    if left == 0 {
      m := 0;
    } else {
      var k := if answers(i).Chunk? then Min(answers(i).n, Min(left, avail)) else 0;
      m := SuccessIsSmooth(answers, i + 1, left - k, avail - k, lastAgain);
      m := m + 1;
    }
  }

  /** When a chunked read succeeds, for every split of the payload into answers. */
  lemma ReadSucceedsIff(answers: nat -> Read, length: nat, avail: nat, lastAgain: nat)
    requires FiniteAgains(answers, lastAgain)
    ensures Outcome(answers, 0, length, avail, lastAgain) == Done
            <==> length <= avail && exists m: nat :: Smooth(answers, 0, m) && length <= Total(answers, 0, m)
  {
    if Outcome(answers, 0, length, avail, lastAgain) == Done {
      var m := SuccessIsSmooth(answers, 0, length, avail, lastAgain);
    }
    if length <= avail && exists m: nat :: Smooth(answers, 0, m) && length <= Total(answers, 0, m) {
      var m: nat :| Smooth(answers, 0, m) && length <= Total(answers, 0, m);
      SmoothReadSucceeds(answers, 0, length, avail, lastAgain, m);
    }
  }

  lemma GoodAnswer(answers: nat -> Read, i: nat, left: nat, avail: nat, lastAgain: nat)
    requires FiniteAgains(answers, lastAgain) && left > 0 && Smooth(answers, i, 1) && (answers(i).Chunk? ==> avail > 0)
    ensures var k := if answers(i).Chunk? then Min(answers(i).n, Min(left, avail)) else 0;
            Outcome(answers, i, left, avail, lastAgain) == Outcome(answers, i + 1, left - k, avail - k, lastAgain)
  {
  }

  /** The read is still at the m-th answer after m answers that keep it going. */
  lemma {:induction false} OutcomeGoesOn(answers: nat -> Read, length: nat, avail: nat, lastAgain: nat, m: nat)
    requires FiniteAgains(answers, lastAgain) && Going(answers, length, avail, m)
    ensures var got := Min(Total(answers, 0, m), Min(length, avail));
            Outcome(answers, 0, length, avail, lastAgain) == Outcome(answers, m, length - got, avail - got, lastAgain)
    decreases m
  {
    if m == 0 {
    } else {
      var got := Min(Total(answers, 0, m - 1), Min(length, avail));
      OutcomeGoesOn(answers, length, avail, lastAgain, m - 1);
      TotalNext(answers, 0, m - 1);
      GoodAnswer(answers, m - 1, length - got, avail - got, lastAgain);
    }
  }

  /** The answers that keep the read going, up to the one that ends it. */
  lemma {:induction false} StopsSomewhere(answers: nat -> Read, length: nat, avail: nat, lastAgain: nat, m: nat)
    returns (stop: nat)
    requires FiniteAgains(answers, lastAgain) && Going(answers, length, avail, m)
    ensures Going(answers, length, avail, stop)
    ensures || length <= Min(Total(answers, 0, stop), avail)
            || answers(stop).Failure? || answers(stop) == Again(false) || answers(stop) == Chunk(0)
            || (answers(stop).Chunk? && Total(answers, 0, stop) >= avail)
    decreases if Total(answers, 0, m) < avail then avail - Total(answers, 0, m) else 0,
              if m < lastAgain then lastAgain - m else 0
  {
    if || length <= Min(Total(answers, 0, m), avail)
       || answers(m).Failure? || answers(m) == Again(false) || answers(m) == Chunk(0)
       || (answers(m).Chunk? && Total(answers, 0, m) >= avail) {
      stop := m;
    } else {
      GoesOn(answers, length, avail, m);
      assert answers(m).Again? ==> m < lastAgain;
      stop := StopsSomewhere(answers, length, avail, lastAgain, m + 1);
    }
  }

  /** What the answer after m good ones makes of the read. */
  lemma OutcomeAt(answers: nat -> Read, length: nat, avail: nat, lastAgain: nat, m: nat)
    requires FiniteAgains(answers, lastAgain)
    requires Going(answers, length, avail, m) && Min(Total(answers, 0, m), avail) < length
    ensures answers(m).Failure? ==> Outcome(answers, 0, length, avail, lastAgain) == Failed(answers(m).code)
    ensures answers(m) == Again(false) || answers(m) == Chunk(0)
            || (answers(m).Chunk? && Total(answers, 0, m) >= avail)
            ==> Outcome(answers, 0, length, avail, lastAgain) == Io
  {
    OutcomeGoesOn(answers, length, avail, lastAgain, m);
  }

  /** The read ends with the library's error code exactly if good answers lead up to that error. */
  lemma ReadFailsIff(answers: nat -> Read, length: nat, avail: nat, lastAgain: nat, code: int)
    requires FiniteAgains(answers, lastAgain)
    ensures Outcome(answers, 0, length, avail, lastAgain) == Failed(code)
            <==> exists m: nat :: && Going(answers, length, avail, m) && Min(Total(answers, 0, m), avail) < length
                                  && answers(m) == Failure(code)
  {
    if m: nat :| && Going(answers, length, avail, m) && Min(Total(answers, 0, m), avail) < length
                 && answers(m) == Failure(code) {
      OutcomeAt(answers, length, avail, lastAgain, m);
    }
    var stop := StopsSomewhere(answers, length, avail, lastAgain, 0);
    OutcomeGoesOn(answers, length, avail, lastAgain, stop);
    if Min(Total(answers, 0, stop), avail) < length {
      OutcomeAt(answers, length, avail, lastAgain, stop);
    }
  }

  /** It ends with -EIO exactly if they lead up to a poll without input, an empty chunk or an exhausted stream. */
  lemma ReadIsCutIff(answers: nat -> Read, length: nat, avail: nat, lastAgain: nat)
    requires FiniteAgains(answers, lastAgain)
    ensures Outcome(answers, 0, length, avail, lastAgain) == Io
            <==> exists m: nat :: && Going(answers, length, avail, m) && Min(Total(answers, 0, m), avail) < length
                                  && (|| answers(m) == Again(false) || answers(m) == Chunk(0)
                                      || (answers(m).Chunk? && Total(answers, 0, m) >= avail))
  {
    if m: nat :| && Going(answers, length, avail, m) && Min(Total(answers, 0, m), avail) < length
                 && (|| answers(m) == Again(false) || answers(m) == Chunk(0)
                     || (answers(m).Chunk? && Total(answers, 0, m) >= avail)) {
      OutcomeAt(answers, length, avail, lastAgain, m);
    }
    var stop := StopsSomewhere(answers, length, avail, lastAgain, 0);
    OutcomeGoesOn(answers, length, avail, lastAgain, stop);
    if Min(Total(answers, 0, stop), avail) < length {
      OutcomeAt(answers, length, avail, lastAgain, stop);
    }
  }
}
