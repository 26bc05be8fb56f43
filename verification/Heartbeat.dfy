/** internal/runtime/agent.go: heartbeat sequencing. `SendOnce` is called by two loops at
    once; it reads the sequence under the lock, sends without it, and books the answer
    under the lock again. Those three moments are the steps. */
module Heartbeat {
  import opened Common

  const SECOND := 1_000_000_000      // time.Duration counts nanoseconds
  const MAX_BACKOFF := 30 * SECOND

  datatype Answer =
    | Error                          // the request failed
    | Acknowledged(sequence: int)    // accepted, or already committed by the server

  /** The fields the lock protects. */
  datatype Counters = Counters(next: int, backoff: int)

  function Book(c: Counters, sequence: int, answer: Answer): Counters {
    match answer
    case Error => c.(backoff := if c.backoff * 2 > MAX_BACKOFF then MAX_BACKOFF else c.backoff * 2)
    case Acknowledged(s) => if s != sequence then c else Counters(sequence + 1, SECOND)
  }

  class Agent {
    var nextSequence: int
    var backoff: int

    ghost function View(): Counters
      reads this
    {
      Counters(nextSequence, backoff)
    }

    constructor ()
      ensures View() == Counters(1, SECOND)
    {
      nextSequence, backoff := 1, SECOND;
    }

    /** First lock section. */
    method NextSequence() returns (sequence: int)
      ensures sequence == View().next
    {
      sequence := nextSequence;
    }

    /** Second lock section. */
    method Settle(sequence: int, answer: Answer) returns (ok: bool)
      modifies this
      ensures View() == Book(old(View()), sequence, answer)
      ensures ok == (answer == Acknowledged(sequence))
      ensures ok ==> nextSequence == sequence + 1 && backoff == SECOND
      ensures !ok ==> nextSequence == old(nextSequence)
      ensures answer.Error? ==> backoff == if 2 * old(backoff) < MAX_BACKOFF then 2 * old(backoff) else MAX_BACKOFF
      ensures !ok && !answer.Error? ==> backoff == old(backoff)
    {
      if answer.Error? {
        backoff := backoff * 2;
        if backoff > MAX_BACKOFF {
          backoff := MAX_BACKOFF;
        }
        return false;
      }
      if answer.sequence != sequence {
        return false;
      }
      nextSequence := sequence + 1;
      backoff := SECOND;
      return true;
    }
  }

  // ---------- All interleavings of any number of callers ----------

  /** A request on the wire, with the sequences acknowledged when it was sent. */
  datatype Sent = Sent(sequence: int, acked: set<int>)

  datatype World = World(
    counters: Counters,
    callers: seq<Option<int>>,       // the sequence each caller is waiting for
    sent: seq<Sent>,
    acked: set<int>
  )

  datatype Step =
    | Send(caller: nat)
    | Receive(caller: nat, answer: Answer)

  function Init(callers: nat): World {
    World(Counters(1, SECOND), seq(callers, _ => None), [], {})
  }

  predicate Enabled(w: World, step: Step) {
    step.caller < |w.callers| && w.callers[step.caller].Some? == step.Receive?
  }

  function Do(w: World, step: Step): World
    requires Enabled(w, step)
  {
    match step
    case Send(i) =>
      w.(callers := w.callers[i := Some(w.counters.next)],
         sent := w.sent + [Sent(w.counters.next, w.acked)])
    case Receive(i, answer) =>
      var k := w.callers[i].value;
      w.(counters := Book(w.counters, k, answer),
         callers := w.callers[i := None],
         acked := if answer == Acknowledged(k) then w.acked + {k} else w.acked)
  }

  datatype Run = Begin(callers: nat) | Then(past: Run, last: Step)

  ghost predicate IsRun(run: Run)
    decreases run, 0
  {
    match run
    case Begin(_) => true
    case Then(past, last) => IsRun(past) && Enabled(After(past), last)
  }

  ghost function After(run: Run): World
    requires IsRun(run)
    decreases run, 1
  {
    match run
    case Begin(n) => Init(n)
    case Then(past, last) => Do(After(past), last)
  }

  predicate AllBelow(k: int, acked: set<int>) {
    k >= 1 && forall j :: 1 <= j < k ==> j in acked
  }

  ghost predicate Inv(w: World) {
    && AllBelow(w.counters.next, w.acked)
    && (forall i :: 0 <= i < |w.callers| && w.callers[i].Some? ==> AllBelow(w.callers[i].value, w.acked))
    && (forall s :: s in w.sent ==> AllBelow(s.sequence, s.acked) && s.acked <= w.acked)
    && SECOND <= w.counters.backoff <= MAX_BACKOFF
  }

  lemma StepInv(w: World, step: Step)
    requires Inv(w) && Enabled(w, step)
    ensures Inv(Do(w, step))
  {
    var w' := Do(w, step);
    assert forall k :: AllBelow(k, w.acked) ==> AllBelow(k, w'.acked);
    if step.Receive? {
      var k := w.callers[step.caller].value;
      assert AllBelow(k, w.acked);
      if step.answer == Acknowledged(k) {
        assert AllBelow(k + 1, w'.acked);
      }
    }
  }

  lemma {:induction false} RunInv(run: Run)
    requires IsRun(run)
    ensures Inv(After(run))
  {
    match run
    case Begin(_) =>
    case Then(past, last) =>
      RunInv(past);
      StepInv(After(past), last);
  }

  /** A sequence goes out only after every smaller one was acknowledged. */
  lemma SentInOrder(run: Run, s: Sent, j: int)
    requires IsRun(run) && s in After(run).sent && 1 <= j < s.sequence
    ensures j in s.acked && s.acked <= After(run).acked
  {
    RunInv(run);
    assert AllBelow(s.sequence, s.acked);
  }

  /** The pause after failures stays between one second and thirty. */
  lemma BackoffBounded(run: Run)
    requires IsRun(run)
    ensures SECOND <= After(run).counters.backoff <= MAX_BACKOFF
  {
    RunInv(run);
  }

  /** How many requests failed since the last one that was acknowledged. */
  ghost function Failures(run: Run): nat
    requires IsRun(run)
  {
    match run
    case Begin(_) => 0
    case Then(past, last) =>
      if last.Send? then Failures(past)
      else if last.answer.Error? then Failures(past) + 1
      else if last.answer.sequence == After(past).callers[last.caller].value then 0
      else Failures(past)
  }

  function Doubled(n: nat): nat {
    if n == 0 then SECOND else 2 * Doubled(n - 1)
  }

  /** The pause is one second, doubled for every failure since the last acknowledgement, up to
      thirty seconds, whichever callers they were. */
  lemma {:induction false} BackoffCountsFailures(run: Run)
    requires IsRun(run)
    ensures After(run).counters.backoff
         == if Doubled(Failures(run)) < MAX_BACKOFF then Doubled(Failures(run)) else MAX_BACKOFF
  {
    match run
    case Begin(_) =>
    case Then(past, last) =>
      BackoffCountsFailures(past);
  }

  /** An acknowledged sequence is followed by the next one. */
  lemma AcknowledgedMovesOn(run: Run, caller: nat)
    requires IsRun(run) && caller < |After(run).callers| && After(run).callers[caller].Some?
    ensures var k := After(run).callers[caller].value;
            var w := Do(After(run), Receive(caller, Acknowledged(k)));
            w.counters.next == k + 1 && k in w.acked
  {}

  /** Sequences go up without gaps: at most one above what has been acknowledged. */
  lemma NothingSkipped(run: Run)
    requires IsRun(run)
    ensures After(run).counters.next == 1 || After(run).counters.next - 1 in After(run).acked
  {
    RunInv(run);
  }

  /** What does not hold: a slow caller can move `nextSequence` back. */
  lemma NextSequenceCanFall()
    ensures exists run, step ::
              IsRun(run) && Enabled(After(run), step)
              && Do(After(run), step).counters.next < After(run).counters.next
  {
    var r1 := Then(Begin(2), Send(0));
    var r2 := Then(r1, Send(1));
    var r3 := Then(r2, Receive(1, Acknowledged(1)));
    var r4 := Then(r3, Send(1));
    var r5 := Then(r4, Receive(1, Acknowledged(2)));
    assert After(r1).callers == [Some(1), None];
    assert After(r2).callers == [Some(1), Some(1)];
    assert After(r3).callers == [Some(1), None] && After(r3).counters.next == 2;
    assert After(r4).callers == [Some(1), Some(2)];
    assert After(r5).callers == [Some(1), None] && After(r5).counters.next == 3;
    var step := Receive(0, Acknowledged(1));
    assert Do(After(r5), step).counters.next == 2;
  }

  /** Exactly when a step lowers it: an acknowledgement of a sequence that is more than one behind. */
  lemma NextSequenceFallsIff(w: World, step: Step)
    requires Enabled(w, step)
    ensures Do(w, step).counters.next < w.counters.next <==>
              step.Receive? && step.answer == Acknowledged(w.callers[step.caller].value)
              && w.callers[step.caller].value + 1 < w.counters.next
  {
  }
}
