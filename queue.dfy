/**
 * The delivery rule of `processQueue` on values: one attempt on the head of
 * the queue, a drain up to its first pause, and a drain to the end when the
 * readiness of the iframe does not change in between.
 */
module MessageQueue {
  import opened Messages

  /** What became of the head message in one iteration of the drain loop. */
  datatype Outcome = Sent | Retried | Dropped

  datatype Attempted = Attempted(queue: seq<QueuedMessage>, outcome: Outcome)

  predicate AllWithinBounds(q: seq<QueuedMessage>) {
    forall i :: 0 <= i < |q| ==> WithinBounds(q[i])
  }

  predicate AllAdmissible(q: seq<QueuedMessage>) {
    forall i :: 0 <= i < |q| ==> Admissible(q[i])
  }

  /** `message.retries++`. */
  function Bump(m: QueuedMessage): (b: QueuedMessage)
    ensures b.retries == m.retries + 1
    ensures b.kind == m.kind && b.payload == m.payload && b.maxRetries == m.maxRetries
    ensures Frame(b) == Frame(m)
  {
    m.(retries := m.retries + 1)
  }

  /**
   * One iteration of the `while` loop of `processQueue`. When the iframe is
   * ready the head is handed to the transport and shifted off; otherwise it
   * is moved to the tail with one more retry, or dropped once its retries
   * are used up. The messages behind the head always move up in order.
   */
  function Attempt(q: seq<QueuedMessage>, ready: bool): (a: Attempted)
    requires q != []
    ensures a.outcome == Sent <==> ready
    ensures a.outcome == Retried <==> !ready && q[0].retries < q[0].maxRetries
    ensures |a.queue| == if a.outcome == Retried then |q| else |q| - 1
  {
    var message := q[0];
    if ready then Attempted(q[1..], Sent)
    else if message.retries < message.maxRetries then Attempted(q[1..] + [Bump(message)], Retried)
    else Attempted(q[1..], Dropped)
  }

  /** A drained message that was dropped had used up all its retries. */
  lemma AttemptDropsOnlyExhausted(q: seq<QueuedMessage>, ready: bool)
    requires q != [] && WithinBounds(q[0])
    ensures Attempt(q, ready).outcome == Dropped ==> q[0].retries == q[0].maxRetries
  {
  }

  /**
   * Whatever the outcome, the messages behind the head move up one place in
   * their old order; a retried head reappears last, one retry further on.
   */
  lemma AttemptKeepsOrder(q: seq<QueuedMessage>, ready: bool)
    requires q != []
    ensures var a := Attempt(q, ready);
      (forall i :: 0 <= i < |q| - 1 ==> a.queue[i] == q[i + 1]) &&
      (a.outcome == Retried ==> a.queue[|q| - 1] == Bump(q[0]))
  {
  }

  lemma AttemptKeepsAdmissible(q: seq<QueuedMessage>, ready: bool)
    requires q != [] && AllAdmissible(q)
    ensures AllAdmissible(Attempt(q, ready).queue)
  {
    AttemptKeepsOrder(q, ready);
  }

  // ---------------------------------------------------------------------
  // Termination measure: the attempts each message may still receive.

  /** Attempts left for one message: `maxRetries + 1 - retries`. */
  function Weight(m: QueuedMessage): int {
    m.maxRetries + 1 - m.retries
  }

  function Potential(q: seq<QueuedMessage>): int {
    if q == [] then 0 else Weight(q[0]) + Potential(q[1..])
  }

  lemma {:induction false} PotentialConcat(a: seq<QueuedMessage>, b: seq<QueuedMessage>)
    ensures Potential(a + b) == Potential(a) + Potential(b)
  {
    if a == [] {
      assert a + b == b;
    } else {
      assert (a + b)[1..] == a[1..] + b;
      PotentialConcat(a[1..], b);
    }
  }

  /** Every queued message can be attempted at least once more. */
  lemma {:induction false} PotentialAtLeastLength(q: seq<QueuedMessage>)
    requires AllWithinBounds(q)
    ensures Potential(q) >= |q|
  {
    if q != [] {
      PotentialAtLeastLength(q[1..]);
    }
  }

  /**
   * Every iteration of the drain loop, whether it sends, retries or drops,
   * strictly lowers the number of attempts left; a failed attempt lowers it
   * by exactly one.
   */
  lemma AttemptDecreasesPotential(q: seq<QueuedMessage>, ready: bool)
    requires q != [] && AllWithinBounds(q)
    ensures AllWithinBounds(Attempt(q, ready).queue)
    ensures 0 <= Potential(Attempt(q, ready).queue) < Potential(q)
    ensures !ready ==> Potential(Attempt(q, ready).queue) == Potential(q) - 1
    ensures ready ==> Potential(Attempt(q, ready).queue) == Potential(q) - Weight(q[0])
  {
    var a := Attempt(q, ready);
    assert q == [q[0]] + q[1..];
    AttemptKeepsOrder(q, ready);
    if a.outcome == Retried {
      assert a.queue == q[1..] + [Bump(q[0])];
      PotentialConcat(q[1..], [Bump(q[0])]);
      assert Potential([Bump(q[0])]) == Weight(Bump(q[0]));
    }
    PotentialAtLeastLength(a.queue);
  }

  // ---------------------------------------------------------------------
  // A drain up to its first pause.

  /**
   * The result of running the drain loop until the queue is empty or a
   * failed attempt makes it wait for the backoff: what is left in the queue,
   * what was posted and what was dropped, in order, and whether it paused.
   */
  datatype Run = Run(queue: seq<QueuedMessage>, sent: seq<Payload>, dropped: seq<QueuedMessage>, paused: bool)

  /** An attempt on `m` that did not pause, put in front of the rest of the drain. */
  function Note(o: Outcome, m: QueuedMessage, rest: Run): Run {
    if o == Sent then Run(rest.queue, [Frame(m)] + rest.sent, rest.dropped, rest.paused)
    else Run(rest.queue, rest.sent, [m] + rest.dropped, rest.paused)
  }

  function RunUntilPause(q: seq<QueuedMessage>, ready: bool): (r: Run)
    ensures r.paused <==> r.queue != []
    decreases |q|
  {
    if q == [] then Run([], [], [], false)
    else
      var a := Attempt(q, ready);
      if a.outcome == Retried then Run(a.queue, [], [], true)
      else Note(a.outcome, q[0], RunUntilPause(a.queue, ready))
  }

  /** A drain that has already posted `posted` and dropped `gaveUp` before running `r`. */
  function After(posted: seq<Payload>, gaveUp: seq<QueuedMessage>, r: Run): Run {
    Run(r.queue, posted + r.sent, gaveUp + r.dropped, r.paused)
  }

  /** RunUntilPause unfolded once at an attempt that does not pause. */
  lemma RunUnfold(q: seq<QueuedMessage>, ready: bool)
    requires q != [] && Attempt(q, ready).outcome != Retried
    ensures RunUntilPause(q, ready) == Note(Attempt(q, ready).outcome, q[0], RunUntilPause(Attempt(q, ready).queue, ready))
  {
  }

  /** RunUntilPause at an attempt that pauses: the drain stops with the rotated queue. */
  lemma RunPauses(posted: seq<Payload>, gaveUp: seq<QueuedMessage>, q: seq<QueuedMessage>, ready: bool)
    requires q != [] && Attempt(q, ready).outcome == Retried
    ensures After(posted, gaveUp, RunUntilPause(q, ready)) == Run(Attempt(q, ready).queue, posted, gaveUp, true)
  {
    assert posted + [] == posted && gaveUp + [] == gaveUp;
  }

  /** The invariant of the drain loop survives an iteration that does not pause. */
  lemma AfterNote(posted: seq<Payload>, gaveUp: seq<QueuedMessage>, o: Outcome, m: QueuedMessage, rest: Run)
    ensures After(posted, gaveUp, Note(o, m, rest)) ==
      After(posted + (if o == Sent then [Frame(m)] else []), gaveUp + (if o == Sent then [] else [m]), rest)
  {
    if o == Sent {
      assert posted + ([Frame(m)] + rest.sent) == (posted + [Frame(m)]) + rest.sent;
      assert gaveUp + [] == gaveUp;
    } else {
      assert gaveUp + ([m] + rest.dropped) == (gaveUp + [m]) + rest.dropped;
      assert posted + [] == posted;
    }
  }

  /** With the iframe ready, one drain posts the whole queue in order and never pauses. */
  lemma {:induction false} RunReady(q: seq<QueuedMessage>)
    ensures RunUntilPause(q, true) == Run([], Frames(q), [], false)
  {
    if q != [] {
      RunReady(q[1..]);
    }
  }

  /**
   * The drain an idle widget starts for a new message: posted at once when
   * ready, otherwise parked with one retry and the drain paused.
   */
  lemma FirstDrainOfNew(m: QueuedMessage, ready: bool)
    requires IsNew(m)
    ensures RunUntilPause([m], ready) ==
      if ready then Run([], [Frame(m)], [], false) else Run([Bump(m)], [], [], true)
  {
    assert Attempt([m], ready).queue == if ready then [] else [Bump(m)];
  }

  /**
   * With the iframe not ready, one drain posts nothing: it drops the
   * exhausted messages at the head, then either empties the queue or moves
   * the first message with retries left to the tail, one retry further on.
   */
  lemma {:induction false} RunNotReady(q: seq<QueuedMessage>)
    ensures RunUntilPause(q, false).sent == []
    ensures var r := RunUntilPause(q, false);
      var n := |r.dropped|;
      n <= |q| && r.dropped == q[..n] &&
      (forall i :: 0 <= i < n ==> q[i].retries >= q[i].maxRetries) &&
      (r.paused ==> n < |q| && q[n].retries < q[n].maxRetries && r.queue == q[n + 1..] + [Bump(q[n])]) &&
      (!r.paused ==> n == |q|)
  {
    if q != [] {
      var a := Attempt(q, false);
      if a.outcome == Dropped {
        RunNotReady(a.queue);
        var rest := RunUntilPause(a.queue, false);
        var n := |rest.dropped|;
        assert a.queue == q[1..];
        assert [q[0]] + q[1..][..n] == q[..n + 1];
        if rest.paused {
          assert q[1..][n + 1..] == q[n + 2..];
        }
      }
    }
  }

  // ---------------------------------------------------------------------
  // A drain to the end, pauses included, with readiness held fixed.

  /** Everything a complete drain does: frames posted, messages dropped, attempts made. */
  datatype Trace = Trace(sent: seq<Payload>, dropped: seq<QueuedMessage>, attempts: nat)

  /** One attempt on `m`, put in front of the rest of the complete drain. */
  function Record(o: Outcome, m: QueuedMessage, rest: Trace): Trace {
    match o
    case Sent => Trace([Frame(m)] + rest.sent, rest.dropped, rest.attempts + 1)
    case Dropped => Trace(rest.sent, [m] + rest.dropped, rest.attempts + 1)
    case Retried => Trace(rest.sent, rest.dropped, rest.attempts + 1)
  }

  /**
   * Attempts on the head, resuming after every backoff, until the queue is
   * empty, while nothing new is enqueued and readiness does not change.
   */
  function Settle(q: seq<QueuedMessage>, ready: bool): (t: Trace)
    requires AllWithinBounds(q)
    ensures |t.sent| + |t.dropped| == |q|
    ensures |q| <= t.attempts <= Potential(q)
    decreases Potential(q)
  {
    if q == [] then Trace([], [], 0)
    else
      AttemptDecreasesPotential(q, ready);
      var a := Attempt(q, ready);
      Record(a.outcome, q[0], Settle(a.queue, ready))
  }

  /** While ready, every message is posted exactly once, in enqueue order, on its first attempt. */
  lemma {:induction false} SettleReady(q: seq<QueuedMessage>)
    requires AllWithinBounds(q)
    ensures Settle(q, true) == Trace(Frames(q), [], |q|)
  {
    if q != [] {
      SettleReady(q[1..]);
    }
  }

  /**
   * While never ready, nothing is posted, every message is dropped after using
   * up its retries, and the attempts made are exactly the attempts left.
   */
  lemma {:induction false} SettleNeverReady(q: seq<QueuedMessage>)
    requires AllWithinBounds(q)
    ensures Settle(q, false).sent == []
    ensures Settle(q, false).attempts == Potential(q)
    ensures |Settle(q, false).dropped| == |q|
    ensures forall d :: d in Settle(q, false).dropped ==> d.retries == d.maxRetries
    decreases Potential(q)
  {
    if q != [] {
      AttemptDecreasesPotential(q, false);
      var a := Attempt(q, false);
      SettleNeverReady(a.queue);
      if a.outcome == Dropped {
        AttemptDropsOnlyExhausted(q, false);
      }
    }
  }

  /**
   * A new message that can never be delivered is attempted exactly
   * `maxRetries + 1` times (four) and then dropped for good.
   */
  lemma AlwaysFailingMessage(m: QueuedMessage)
    requires IsNew(m)
    ensures Settle([m], false) == Trace([], [m.(retries := MaxRetries)], MaxRetries + 1)
  {
    var m1 := Bump(m);
    var m2 := Bump(m1);
    var m3 := Bump(m2);
    assert Attempt([m3], false).queue == [];
    assert Settle([m3], false) == Trace([], [m3], 1);
    assert Attempt([m2], false).queue == [m3];
    assert Settle([m2], false) == Trace([], [m3], 2);
    assert Attempt([m1], false).queue == [m2];
    assert Settle([m1], false) == Trace([], [m3], 3);
    assert Attempt([m], false).queue == [m1];
    assert m3 == m.(retries := MaxRetries);
  }

  /**
   * Nothing is lost: every message ends up posted or dropped, exactly once,
   * and its frame is unchanged by the retries in between.
   */
  lemma {:induction false} SettleConserves(q: seq<QueuedMessage>, ready: bool)
    requires AllWithinBounds(q)
    ensures multiset(Frames(q)) == multiset(Settle(q, ready).sent + Frames(Settle(q, ready).dropped))
    ensures |Settle(q, ready).sent| + |Settle(q, ready).dropped| == |q|
    decreases Potential(q)
  {
    if q != [] {
      AttemptDecreasesPotential(q, ready);
      var a := Attempt(q, ready);
      SettleConserves(a.queue, ready);
      assert Settle(q, ready) == Record(a.outcome, q[0], Settle(a.queue, ready));
      RecordConserves(q, a.outcome, a.queue, Settle(a.queue, ready));
    }
  }

  /** One step of SettleConserves: the head's frame moves to the posted or dropped side, or stays queued. */
  lemma RecordConserves(q: seq<QueuedMessage>, o: Outcome, next: seq<QueuedMessage>, rest: Trace)
    requires q != []
    requires o == Retried ==> next == q[1..] + [Bump(q[0])]
    requires o != Retried ==> next == q[1..]
    requires multiset(Frames(next)) == multiset(rest.sent + Frames(rest.dropped))
    requires |rest.sent| + |rest.dropped| == |next|
    ensures var t := Record(o, q[0], rest);
      multiset(Frames(q)) == multiset(t.sent + Frames(t.dropped)) &&
      |t.sent| + |t.dropped| == |q|
  {
    assert Frames(q) == [Frame(q[0])] + Frames(q[1..]);
    if o == Retried {
      RetriedKeepsFrames(q);
    } else if o == Sent {
      MovedHead(Frame(q[0]), Frames(q[1..]), rest.sent, Frames(rest.dropped));
    } else {
      assert Frames([q[0]] + rest.dropped) == [Frame(q[0])] + Frames(rest.dropped);
      MovedHead(Frame(q[0]), Frames(q[1..]), rest.sent, Frames(rest.dropped));
    }
  }

  /** Rotating the head to the tail with one more retry keeps the multiset of frames. */
  lemma RetriedKeepsFrames(q: seq<QueuedMessage>)
    requires q != []
    ensures multiset(Frames(q[1..] + [Bump(q[0])])) == multiset(Frames(q))
  {
    FramesConcat(q[1..], [Bump(q[0])]);
    assert Frames(q) == [Frame(q[0])] + Frames(q[1..]);
    assert Frames(q[1..] + [Bump(q[0])]) == Frames(q[1..]) + [Frame(q[0])];
  }

  /** Multiset bookkeeping: a frame taken off the front of the queue lands on either side of the result. */
  lemma MovedHead(head: Payload, tail: seq<Payload>, left: seq<Payload>, right: seq<Payload>)
    requires multiset(tail) == multiset(left + right)
    ensures multiset([head] + tail) == multiset(([head] + left) + right)
    ensures multiset([head] + tail) == multiset(left + ([head] + right))
  {
  }

  /** The complete drain after the first drain `r`, up to its pause. */
  function Then(r: Run, t: Trace): Trace {
    Trace(r.sent + t.sent, r.dropped + t.dropped, |r.sent| + |r.dropped| + (if r.paused then 1 else 0) + t.attempts)
  }

  lemma RecordThen(o: Outcome, m: QueuedMessage, r: Run, t: Trace)
    requires o != Retried
    ensures Record(o, m, Then(r, t)) == Then(Note(o, m, r), t)
  {
    if o == Sent {
      assert [Frame(m)] + (r.sent + t.sent) == ([Frame(m)] + r.sent) + t.sent;
    } else {
      assert [m] + (r.dropped + t.dropped) == ([m] + r.dropped) + t.dropped;
    }
  }

  /**
   * A complete drain is the first drain up to its pause followed by the
   * complete drain of what it left behind; this is how the backoff
   * continuation of `processQueue` resumes the loop.
   */
  lemma {:induction false} SettleByPauses(q: seq<QueuedMessage>, ready: bool)
    requires AllWithinBounds(q)
    ensures var r := RunUntilPause(q, ready);
      AllWithinBounds(r.queue) && Settle(q, ready) == Then(r, Settle(r.queue, ready))
    decreases |q|
  {
    if q != [] {
      AttemptDecreasesPotential(q, ready);
      var a := Attempt(q, ready);
      assert Settle(q, ready) == Record(a.outcome, q[0], Settle(a.queue, ready));
      if a.outcome != Retried {
        SettleByPauses(a.queue, ready);
        var r := RunUntilPause(a.queue, ready);
        assert RunUntilPause(q, ready) == Note(a.outcome, q[0], r);
        RecordThen(a.outcome, q[0], r, Settle(r.queue, ready));
      }
    }
  }

  // ---------------------------------------------------------------------
  // Ordering around the `load` event.

  /**
   * A command issued before the iframe has loaded overtakes INIT: its first
   * attempt fails and parks it at the tail, the `load` handler appends INIT
   * behind it, and the next drain (now ready) posts it first.
   */
  lemma QueuedBeforeLoadPrecedesInit(early: QueuedMessage, init: QueuedMessage)
    requires IsNew(early)
    ensures var first := RunUntilPause([early], false);
      first.paused && first.sent == [] && first.dropped == [] &&
      RunUntilPause(first.queue + [init], true).sent == [Frame(early), Frame(init)]
  {
    var first := RunUntilPause([early], false);
    assert Attempt([early], false).queue == [Bump(early)];
    RunReady(first.queue + [init]);
  }

  /** More generally, INIT appended behind any queue is posted after all of it once ready. */
  lemma InitAfterQueued(q: seq<QueuedMessage>, init: QueuedMessage)
    ensures RunUntilPause(q + [init], true).sent == Frames(q) + [Frame(init)]
  {
    RunReady(q + [init]);
    FramesConcat(q, [init]);
  }
}
