/** internal/terminal/relay.go: the token bucket of the relay. Time and tokens are real
    numbers here; the rounding of float64 is not modelled.

    The bucket keeps two numbers. What they mean is a statement about every window of the
    past: from the creation, or from any earlier call, to now. */
module TokenBucket {

  const RATE := 2097152.0          // 2 << 20 bytes a second
  const BURST := 8388608.0         // 8 << 20 bytes

  // ---------- The two-number bucket ----------

  datatype Bucket = Bucket(tokens: real, last: real)

  function New(now: real): Bucket {
    Bucket(BURST, now)
  }

  function Min(x: real, y: real): real {
    if x < y then x else y
  }

  function Refill(b: Bucket, now: real): Bucket {
    if now - b.last > 0.0 then Bucket(Min(b.tokens + (now - b.last) * RATE, BURST), now) else b
  }

  predicate Admits(b: Bucket, n: int, now: real) {
    n >= 0 && n as real <= Refill(b, now).tokens
  }

  function Spend(b: Bucket, n: int, now: real): Bucket {
    if n < 0 then b
    else if Admits(b, n, now) then Refill(b, now).(tokens := Refill(b, now).tokens - n as real)
    else Refill(b, now)
  }

  class TokenBucket {
    var tokens: real
    var last: real

    ghost function View(): Bucket
      reads this
    {
      Bucket(tokens, last)
    }

    constructor (now: real)
      ensures View() == New(now)
    {
      tokens, last := BURST, now;
    }

    method Allow(n: int, now: real) returns (ok: bool)
      modifies this
      ensures ok == Admits(old(View()), n, now)
      ensures View() == Spend(old(View()), n, now)
    {
      if n < 0 { return false; }
      var elapsed := now - last;
      if elapsed > 0.0 {
        tokens := tokens + elapsed * RATE;
        if tokens > BURST {
          tokens := BURST;
        }
        last := now;
      }
      if n as real > tokens { return false; }
      tokens := tokens - n as real;
      return true;
    }
  }

  // ---------- The history it stands for ----------

  /** One call: what was asked, and what the clock said. Clocks may go backwards. */
  datatype Call = Call(n: int, now: real)

  /** What a call left behind: the running maximum of the clock and the bytes it let through.
      The creation counts as a call that let nothing through. */
  datatype Entry = Entry(time: real, bytes: int)

  /** The bucket after a sequence of calls. */
  function Play(start: real, calls: seq<Call>): Bucket {
    if calls == [] then New(start)
    else
      var b := Play(start, calls[..|calls| - 1]);
      var c := calls[|calls| - 1];
      Spend(b, c.n, c.now)
  }

  function MaxTime(t: real, now: real): real {
    if now > t then now else t
  }

  /** Calls with a negative size return at once: they leave no entry. */
  function History(start: real, calls: seq<Call>): (h: seq<Entry>)
    ensures h != []
  {
    if calls == [] then [Entry(start, 0)]
    else
      var past := calls[..|calls| - 1];
      var c := calls[|calls| - 1];
      var h := History(start, past);
      if c.n < 0 then h
      else
        h + [Entry(MaxTime(h[|h| - 1].time, c.now), if Admits(Play(start, past), c.n, c.now) then c.n else 0)]
  }

  /** Bytes let through by entry j and all later ones. */
  function Admitted(h: seq<Entry>, j: nat): int
    requires j <= |h|
    decreases |h| - j
  {
    if j == |h| then 0 else h[j].bytes + Admitted(h, j + 1)
  }

  /** What the window opened at entry j still lets through at time t. */
  function Budget(h: seq<Entry>, j: nat, t: real): real
    requires j < |h|
  {
    BURST + RATE * (t - h[j].time) - Admitted(h, j) as real
  }

  /** n more bytes at time t overfill no window: none opened earlier, nor the one opened now. */
  ghost predicate Fits(h: seq<Entry>, n: int, t: real) {
    n as real <= BURST && forall j :: 0 <= j < |h| ==> n as real <= Budget(h, j, t)
  }

  /** The tokens are the smallest budget over all windows. */
  ghost predicate Represents(b: Bucket, h: seq<Entry>) {
    && h != [] && b.last == h[|h| - 1].time
    && (forall j :: 0 <= j < |h| ==> b.tokens <= Budget(h, j, b.last))
    && (exists j :: 0 <= j < |h| && b.tokens == Budget(h, j, b.last))
    && (forall j :: 0 <= j < |h| ==> h[j].time <= b.last)
    && 0.0 <= b.tokens <= BURST
  }

  // ---------- Lemmas ----------

  lemma {:induction false} AdmittedAppend(h: seq<Entry>, e: Entry, j: nat)
    requires j <= |h|
    ensures Admitted(h + [e], j) == Admitted(h, j) + e.bytes
    decreases |h| - j
  {
    if j < |h| {
      AdmittedAppend(h, e, j + 1);
    }
  }

  /** A budget grows with time at the rate, whatever the window. */
  lemma BudgetLater(h: seq<Entry>, j: nat, t: real, t': real)
    requires j < |h|
    ensures Budget(h, j, t') == Budget(h, j, t) + RATE * (t' - t)
  {}

  /** Refilling computes the minimum over all earlier windows and the one opened now. */
  lemma RefillMeaning(b: Bucket, h: seq<Entry>, now: real)
    requires Represents(b, h)
    ensures var r := Refill(b, now);
            && r.last == MaxTime(b.last, now)
            && (forall j :: 0 <= j < |h| ==> r.tokens <= Budget(h, j, r.last))
            && (r.tokens == BURST || exists j :: 0 <= j < |h| && r.tokens == Budget(h, j, r.last))
            && 0.0 <= r.tokens <= BURST
  {
    var r := Refill(b, now);
    forall j | 0 <= j < |h| ensures r.tokens <= Budget(h, j, r.last) {
      BudgetLater(h, j, b.last, r.last);
    }
    var k :| 0 <= k < |h| && b.tokens == Budget(h, k, b.last);
    BudgetLater(h, k, b.last, r.last);
    if r.tokens != BURST {
      assert r.tokens == Budget(h, k, r.last);
    }
  }

  /** The test of one call: exactly the windows. */
  lemma AdmitsIffFits(b: Bucket, h: seq<Entry>, n: int, now: real)
    requires Represents(b, h) && n >= 0
    ensures Admits(b, n, now) <==> Fits(h, n, MaxTime(b.last, now))
  {
    RefillMeaning(b, h, now);
  }

  lemma AllowKeeps(b: Bucket, h: seq<Entry>, n: int, now: real)
    requires Represents(b, h) && n >= 0
    ensures Represents(Spend(b, n, now),
                       h + [Entry(MaxTime(b.last, now), if Admits(b, n, now) then n else 0)])
  {
    RefillMeaning(b, h, now);
    var r := Refill(b, now);
    var m := if Admits(b, n, now) then n else 0;
    var e := Entry(r.last, m);
    var b', h' := Spend(b, n, now), h + [e];
    assert b'.tokens == r.tokens - m as real;
    forall j | 0 <= j < |h| ensures Budget(h', j, r.last) == Budget(h, j, r.last) - m as real {
      AdmittedAppend(h, e, j);
    }
    assert Admitted(h', |h|) == m + Admitted(h', |h| + 1) == m;
    assert Budget(h', |h|, r.last) == BURST - m as real;
    if r.tokens == BURST {
      assert b'.tokens == Budget(h', |h|, r.last);
    } else {
      var k :| 0 <= k < |h| && r.tokens == Budget(h, k, r.last);
      assert b'.tokens == Budget(h', k, r.last);
    }
  }

  lemma {:induction false} PlayRepresents(start: real, calls: seq<Call>)
    ensures Represents(Play(start, calls), History(start, calls))
  {
    if calls == [] {
      assert Admitted(History(start, calls), 0) == 0 + Admitted(History(start, calls), 1);
      assert Budget(History(start, calls), 0, start) == BURST;
    } else {
      var past, c := calls[..|calls| - 1], calls[|calls| - 1];
      PlayRepresents(start, past);
      if c.n >= 0 {
        AllowKeeps(Play(start, past), History(start, past), c.n, c.now);
      }
    }
  }

  // ---------- Main results ----------

  /** After any sequence of calls, on any clock, n bytes are let through exactly when they
      overfill no window, the time now being the latest time ever seen. */
  lemma AllowIsExact(start: real, calls: seq<Call>, n: int, now: real)
    requires n >= 0
    ensures Admits(Play(start, calls), n, now) <==>
              Fits(History(start, calls), n, MaxTime(Play(start, calls).last, now))
    ensures forall k :: 0 <= k < |History(start, calls)| ==> History(start, calls)[k].time <= Play(start, calls).last
  {
    PlayRepresents(start, calls);
    AdmitsIffFits(Play(start, calls), History(start, calls), n, now);
  }

  /** Hence every window of the past, between any two entries, obeys the bound. */
  lemma {:induction false} EveryWindowBounded(start: real, calls: seq<Call>, i: nat, j: nat)
    requires i <= j < |History(start, calls)|
    ensures var h := History(start, calls);
            (Admitted(h, i) - Admitted(h, j + 1)) as real <= BURST + RATE * (h[j].time - h[i].time)
  {
    var h := History(start, calls);
    PlayRepresents(start, calls);
    if j == |h| - 1 {
      assert Budget(h, i, h[j].time) >= 0.0;
    } else {
      var past, c := calls[..|calls| - 1], calls[|calls| - 1];
      EveryWindowBounded(start, past, i, j);
      if c.n >= 0 {
        AdmittedAppend(History(start, past), h[|h| - 1], i);
        AdmittedAppend(History(start, past), h[|h| - 1], j + 1);
      }
    }
  }

  /** The window opened by the call itself is needed: earlier windows alone would let a
      request above the burst through after a long pause. */
  lemma EarlierWindowsAreNotEnough()
    ensures exists n: int, now: real ::
              && !Admits(New(0.0), n, now)
              && Represents(New(0.0), History(0.0, []))
              && (forall j :: 0 <= j < |History(0.0, [])| ==> n as real <= Budget(History(0.0, []), j, now))
  {
    PlayRepresents(0.0, []);
    var h := History(0.0, []);
    assert Admitted(h, 0) == 0 + Admitted(h, 1) == 0;
    assert Budget(h, 0, 10.0) == BURST + RATE * 10.0;
    assert !Admits(New(0.0), 8388609, 10.0);
  }
}
