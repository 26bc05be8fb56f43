/** internal/terminal/manager_linux.go: the outbound queue of a relay session. Any number of
    senders reserve bytes on an atomic counter and then try a 64-slot channel without
    blocking; one writer takes messages out and gives the bytes back. Every atomic
    operation is one step. */
module OutboundQueue {
  import opened Common

  const MAX_BYTES := 1048576       // 1 << 20
  const MAX_MESSAGES := 64

  datatype Sender =
    | Resting
    | Reserved(size: nat)          // counter raised, limit kept; next: the channel
    | Rejected(size: nat)          // counter raised, no room; next: lower the counter

  datatype World = World(
    queued: int,                   // the atomic counter
    channel: seq<nat>,             // sizes of the messages in the channel
    senders: seq<Sender>,
    writing: Option<nat>           // message taken out whose bytes are still counted
  )

  datatype Step =
    | Add(i: nat, size: nat)       // queued.Add(size), compared with the limit
    | Offer(i: nat)                // select: enqueue, or give up when full
    | GiveBack(i: nat)             // queued.Add(-size)
    | Take                         // the writer receives
    | Subtract                     // queued.Add(-len)

  predicate Enabled(w: World, step: Step) {
    match step
    case Add(i, _) => i < |w.senders| && w.senders[i].Resting?
    case Offer(i) => i < |w.senders| && w.senders[i].Reserved?
    case GiveBack(i) => i < |w.senders| && w.senders[i].Rejected?
    case Take => w.writing.None? && w.channel != []
    case Subtract => w.writing.Some?
  }

  function Do(w: World, step: Step): World
    requires Enabled(w, step)
  {
    match step
    case Add(i, size) =>
      var q := w.queued + size;
      w.(queued := q, senders := w.senders[i := if q > MAX_BYTES then Rejected(size) else Reserved(size)])
    case Offer(i) =>
      var size := w.senders[i].size;
      if |w.channel| < MAX_MESSAGES then
        w.(channel := w.channel + [size], senders := w.senders[i := Resting])
      else
        w.(senders := w.senders[i := Rejected(size)])
    case GiveBack(i) =>
      w.(queued := w.queued - w.senders[i].size, senders := w.senders[i := Resting])
    case Take => w.(channel := w.channel[1..], writing := Some(w.channel[0]))
    case Subtract => w.(queued := w.queued - w.writing.value, writing := None)
  }

  datatype Run = Begin(senders: nat) | Then(past: Run, last: Step)

  ghost predicate IsRun(run: Run)
    decreases run, 0
  {
    match run
    case Begin(_) => true
    case Then(past, last) => IsRun(past) && Enabled(After(past), last)
  }

  ghost function After(run: Run): World
    requires IsRun(run)
    decreases run, 1
  {
    match run
    case Begin(n) => World(0, [], seq(n, _ => Resting), None)
    case Then(past, last) => Do(After(past), last)
  }

  // ---------- Byte accounts ----------

  function Sum(s: seq<nat>): nat {
    if s == [] then 0 else s[0] + Sum(s[1..])
  }

  function ReservedBytes(s: Sender): nat {
    if s.Reserved? then s.size else 0
  }

  function RejectedBytes(s: Sender): nat {
    if s.Rejected? then s.size else 0
  }

  function TotalReserved(s: seq<Sender>): nat {
    if s == [] then 0 else ReservedBytes(s[0]) + TotalReserved(s[1..])
  }

  function TotalRejected(s: seq<Sender>): nat {
    if s == [] then 0 else RejectedBytes(s[0]) + TotalRejected(s[1..])
  }

  function Writing(w: World): nat {
    if w.writing.Some? then w.writing.value else 0
  }

  /** Bytes the queue answers for: in the channel, reserved for it, or being written out. */
  function Held(w: World): nat {
    Sum(w.channel) + TotalReserved(w.senders) + Writing(w)
  }

  lemma {:induction false} SumAppend(s: seq<nat>, x: nat)
    ensures Sum(s + [x]) == Sum(s) + x
  {
    if s == [] {
      assert s + [x] == [x];
    } else {
      assert (s + [x])[1..] == s[1..] + [x];
      SumAppend(s[1..], x);
    }
  }

  /** One sender changes: both totals change by what that sender changes. */
  lemma {:induction false} TotalsUpdate(s: seq<Sender>, i: nat, v: Sender)
    requires i < |s|
    ensures TotalReserved(s[i := v]) == TotalReserved(s) - ReservedBytes(s[i]) + ReservedBytes(v)
    ensures TotalRejected(s[i := v]) == TotalRejected(s) - RejectedBytes(s[i]) + RejectedBytes(v)
  {
    if i == 0 {
      assert s[i := v][1..] == s[1..];
    } else {
      assert s[i := v][1..] == s[1..][i - 1 := v];
      TotalsUpdate(s[1..], i - 1, v);
    }
  }

  lemma {:induction false} NoTotals(n: nat)
    ensures TotalReserved(seq(n, _ => Resting)) == 0 && TotalRejected(seq(n, _ => Resting)) == 0
  {
    if n > 0 {
      assert seq(n, _ => Resting)[1..] == seq(n - 1, _ => Resting);
      NoTotals(n - 1);
    }
  }

  ghost predicate Inv(w: World) {
    && w.queued == Held(w) + TotalRejected(w.senders)
    && Held(w) <= MAX_BYTES
    && |w.channel| <= MAX_MESSAGES
  }

  lemma StepInv(w: World, step: Step)
    requires Inv(w) && Enabled(w, step)
    ensures Inv(Do(w, step))
  {
    var w' := Do(w, step);
    match step
    case Add(i, _) => TotalsUpdate(w.senders, i, w'.senders[i]);
    case Offer(i) =>
      TotalsUpdate(w.senders, i, w'.senders[i]);
      SumAppend(w.channel, w.senders[i].size);
    case GiveBack(i) => TotalsUpdate(w.senders, i, Resting);
    case Take =>
    case Subtract =>
  }

  /** In every interleaving: the bytes held never exceed 1 MiB, the channel never exceeds its
      64 slots, and the counter is exactly the bytes held plus the failed reservations not yet
      given back, hence never negative. */
  lemma {:induction false} QueueBounded(run: Run)
    requires IsRun(run)
    ensures Held(After(run)) <= MAX_BYTES && |After(run).channel| <= MAX_MESSAGES
    ensures After(run).queued == Held(After(run)) + TotalRejected(After(run).senders)
    ensures After(run).queued >= 0
  {
    match run
    case Begin(n) => NoTotals(n);
    case Then(past, last) =>
      QueueBounded(past);
      StepInv(After(past), last);
  }

  /** A reservation is refused exactly when the bytes held, the failed reservations in flight
      and the new message together exceed the limit. */
  lemma RefusedIff(run: Run, i: nat, size: nat)
    requires IsRun(run) && Enabled(After(run), Add(i, size))
    ensures Do(After(run), Add(i, size)).senders[i].Rejected? <==>
              Held(After(run)) + TotalRejected(After(run).senders) + size > MAX_BYTES
  {
    QueueBounded(run);
  }

  /** At rest nothing leaks: with no sender under way and nothing being written, the counter
      is the sum of the channel. */
  lemma QuietCounter(run: Run)
    requires IsRun(run) && After(run).writing.None?
    requires forall s :: s in After(run).senders ==> s.Resting?
    ensures After(run).queued == Sum(After(run).channel)
  {
    QueueBounded(run);
    QuietTotals(After(run).senders);
  }

  lemma {:induction false} QuietTotals(s: seq<Sender>)
    requires forall x :: x in s ==> x.Resting?
    ensures TotalReserved(s) == 0 && TotalRejected(s) == 0
  {
    if s != [] {
      assert s[0] in s;
      QuietTotals(s[1..]);
    }
  }

  // ---------- Order ----------

  /** The messages that got into the channel, in order. */
  ghost function Accepted(run: Run): seq<nat>
    requires IsRun(run)
  {
    match run
    case Begin(_) => []
    case Then(past, last) =>
      if last.Offer? && |After(past).channel| < MAX_MESSAGES then
        Accepted(past) + [After(past).senders[last.i].size]
      else Accepted(past)
  }

  /** The messages the writer took out, in order. */
  ghost function Taken(run: Run): seq<nat>
    requires IsRun(run)
  {
    match run
    case Begin(_) => []
    case Then(past, last) => if last.Take? then Taken(past) + [After(past).channel[0]] else Taken(past)
  }

  /** In every interleaving messages leave in the order they got in, none lost and none twice:
      what was accepted is what was taken and then what is in the channel. */
  lemma {:induction false} FirstInFirstOut(run: Run)
    requires IsRun(run)
    ensures Accepted(run) == Taken(run) + After(run).channel
  {
    match run
    case Begin(_) =>
    case Then(past, last) =>
      FirstInFirstOut(past);
      if last.Take? {
        assert After(past).channel == [After(past).channel[0]] + After(past).channel[1..];
      }
  }

  // ---------- The code of a sender and of the writer ----------

  /** Between any two atomic operations of a method everyone else may go on. */
  class Queue {
    var queued: int
    var channel: seq<nat>
    var senders: seq<Sender>
    var writing: Option<nat>

    function View(): World
      reads this
    {
      World(queued, channel, senders, writing)
    }

    ghost predicate Valid()
      reads this
    {
      Inv(View())
    }

    constructor (senders: nat)
      ensures Valid() && View() == After(Begin(senders))
    {
      queued, channel, writing := 0, [], None;
      this.senders := seq(senders, _ => Resting);
      NoTotals(senders);
    }

    method Perform(step: Step)
      requires Valid() && Enabled(View(), step)
      modifies this
      ensures Valid() && View() == Do(old(View()), step) && |senders| == |old(senders)|
    {
      StepInv(View(), step);
      var w := Do(View(), step);
      queued, channel, senders, writing := w.queued, w.channel, w.senders, w.writing;
    }

    /** Everyone but sender `i` (or, for `None`, everyone but the writer). */
    method Others(me: Option<nat>)
      requires Valid() && (me.Some? ==> me.value < |senders|)
      modifies this
      ensures Valid() && |senders| == |old(senders)|
      ensures if me.Some? then senders[me.value] == old(senders)[me.value]
              else writing == old(writing) && old(channel) <= channel
    {
      var steps: nat := *;
      while steps > 0
        invariant Valid() && |senders| == |old(senders)|
        invariant if me.Some? then senders[me.value] == old(senders)[me.value]
                  else writing == old(writing) && old(channel) <= channel
      {
        var step: Step := *;
        if Enabled(View(), step) && !TakenBy(me, step) { Perform(step); }
        steps := steps - 1;
      }
    }

    /** `reserving` is the state when the counter is raised, `offering` the state when the
        channel is tried: the message goes out exactly when both have room. */
    method Send(i: nat, size: nat) returns (ok: bool, ghost reserving: World, ghost offering: World)
      requires Valid() && i < |senders| && senders[i].Resting?
      modifies this
      ensures Valid() && |senders| == |old(senders)| && senders[i].Resting?
      ensures Inv(reserving) && Inv(offering)
      ensures ok <==> Held(reserving) + TotalRejected(reserving.senders) + size <= MAX_BYTES
                      && |offering.channel| < MAX_MESSAGES
      ensures ok ==> channel == offering.channel + [size]
    {
      Others(Some(i));
      reserving := View();
      StepInv(View(), Add(i, size));
      queued := queued + size;
      senders := senders[i := if queued > MAX_BYTES then Rejected(size) else Reserved(size)];
      ok := senders[i].Reserved?;
      Others(Some(i));
      offering := View();
      if ok {
        StepInv(View(), Offer(i));
        ok := |channel| < MAX_MESSAGES;
        if ok {
          channel, senders := channel + [size], senders[i := Resting];
          return;
        }
        senders := senders[i := Rejected(size)];
        Others(Some(i));
      }
      StepInv(View(), GiveBack(i));
      queued, senders := queued - size, senders[i := Resting];
    }

    /** The writer takes the oldest message and gives its bytes back; the others stay in order. */
    method Dequeue() returns (size: Option<nat>, ghost before: World)
      requires Valid() && writing.None?
      modifies this
      ensures Valid() && |senders| == |old(senders)| && writing.None? && Inv(before)
      ensures size == if before.channel == [] then None else Some(before.channel[0])
      ensures size.Some? ==> before.channel[1..] <= channel
      ensures size.None? ==> channel == [] && View() == before
    {
      Others(None);
      before := View();
      if channel == [] { return None, before; }
      size := Some(channel[0]);
      StepInv(View(), Take);
      channel, writing := channel[1..], size;
      Others(None);
      StepInv(View(), Subtract);
      queued, writing := queued - size.value, None;
    }
  }

  predicate TakenBy(me: Option<nat>, step: Step) {
    match step
    case Add(i, _) => me == Some(i)
    case Offer(i) => me == Some(i)
    case GiveBack(i) => me == Some(i)
    case Take => me.None?
    case Subtract => me.None?
  }
}
