/** internal/terminal/manager.go method by method, and the terminal branch of the dispatcher
    that calls it. Between any two steps of a method every other thread may take any steps of
    its own. The methods keep a history of all steps; it is a run of `TerminalSession`, so
    its theorems hold at every moment. */
module TerminalManager {
  import opened Common
  import opened StateFile
  import opened TerminalSession

  /** When the dispatching thread closes a session it is closer 0; the others have numbers of their own. */
  datatype Thread = Dispatching | WaiterOf(h: nat) | CloserOf(i: nat) | Recovering

  /** The end of a session and its deadline are nobody's steps. */
  predicate TakenBy(t: Thread, step: Step) {
    match step
    case ByStart(_) => t.Dispatching?
    case ByFailure(_) => t.Dispatching?
    case ByWaiter(h, s) => t == WaiterOf(h) && !s.Complete? && !s.Expire?
    case ByCloser(i, _) => if i == 0 then t.Dispatching? else t == CloserOf(i)
    case ByRecovery(_) => t.Recovering?
    case Restart => false
  }

  predicate Present(t: Thread, w: World) {
    (t.WaiterOf? ==> t.h in w.waiters) && (t.CloserOf? ==> t.i != 0)
  }

  predicate SameDispatcher(w: World, w': World) {
    && w'.dispatcher == w.dispatcher && w'.attempts == w.attempts && w'.launched == w.launched
    && w.acked <= w'.acked
  }

  predicate SameWaiter(w: World, w': World, h: nat) {
    && h in w.waiters && h in w'.waiters && w'.waiters[h] == w.waiters[h]
    && (h in w.acked ==> h in w'.acked)
  }

  predicate SameCloser(w: World, w': World, i: nat) {
    && (i in w.closers <==> i in w'.closers) && (i in w.closers ==> w'.closers[i] == w.closers[i])
    && w.cancelled <= w'.cancelled
  }

  /** Where a thread stands is changed by its own steps only. */
  predicate Standing(t: Thread, w: World, w': World) {
    match t
    case Dispatching => SameDispatcher(w, w') && SameCloser(w, w', 0)
    case WaiterOf(h) => SameWaiter(w, w', h)
    case CloserOf(i) => SameCloser(w, w', i)
    case Recovering => w'.recovery == w.recovery && w.acked <= w'.acked
  }

  /** What the steps of each thread leave alone. */
  lemma StartFrame(w: World, s: StartStep)
    requires StartEnabled(w, s)
    ensures var w' := DoStart(w, s);
            && w'.closers == w.closers && w'.recovery == w.recovery && w'.acked == w.acked
            && w.cancelled <= w'.cancelled
            && (forall h :: h in w.waiters && !Starting(w.dispatcher) ==> SameWaiter(w, w', h))
  {}

  lemma FailureFrame(w: World, s: FailureStep)
    requires FailureEnabled(w, s)
    ensures var w' := DoFailure(w, s);
            && w'.closers == w.closers && w'.recovery == w.recovery && w.acked <= w'.acked
            && w'.cancelled == w.cancelled && w'.waiters == w.waiters
  {}

  lemma WaiterFrame(w: World, g: nat, s: WaiterStep)
    requires WaiterEnabled(w, g, s)
    ensures var w' := DoWaiter(w, g, s);
            && w'.closers == w.closers && w'.recovery == w.recovery && w.acked <= w'.acked
            && w.cancelled <= w'.cancelled && SameDispatcher(w, w')
            && (s.Complete? || s.Expire? ==> w'.waiters == w.waiters)
            && (forall h :: h in w.waiters && h != g ==> SameWaiter(w, w', h))
  {}

  lemma CloseFrame(w: World, j: nat, s: CloseStep)
    requires CloseEnabled(w, j, s)
    ensures var w' := DoClose(w, j, s);
            && w'.waiters == w.waiters && w'.recovery == w.recovery && w'.acked == w.acked
            && w.cancelled <= w'.cancelled && SameDispatcher(w, w')
            && (forall i :: i != j ==> SameCloser(w, w', i))
  {}

  lemma RecoveryFrame(w: World, s: RecoveryStep)
    requires RecoveryEnabled(w, s)
    ensures var w' := DoRecovery(w, s);
            && w'.waiters == w.waiters && w'.closers == w.closers && w.acked <= w'.acked
            && w'.cancelled == w.cancelled && SameDispatcher(w, w')
  {}

  lemma Frames(w: World, t: Thread, step: Step)
    requires Enabled(w, step) && !step.Restart? && !TakenBy(t, step) && Present(t, w)
    requires t.WaiterOf? ==> !Starting(w.dispatcher)
    ensures Standing(t, w, Do(w, step))
  {
    match step
    case ByStart(s) => StartFrame(w, s);
    case ByFailure(s) => FailureFrame(w, s);
    case ByWaiter(h, s) => WaiterFrame(w, h, s);
    case ByCloser(i, s) => CloseFrame(w, i, s);
    case ByRecovery(s) => RecoveryFrame(w, s);
  }

  lemma StepOfAnother(run: Run, w: World, t: Thread, step: Step)
    requires Reached(run, w) && Enabled(w, step)
    requires !step.Restart? && !TakenBy(t, step) && Present(t, w)
    ensures Standing(t, w, Do(w, step))
  {
    if t.WaiterOf? { SlotIsTaken(run, w, t.h); }
    Frames(w, t, step);
  }

  // ---------- What a thread knows from the invariant ----------

  predicate Same(a: Run, b: Run) {
    a == b
  }

  /** The history is a run and leads here. Said of every equal run, so that a proof looks into
      the history only where it names one. */
  ghost predicate Reached(run: Run, w: World) {
    forall r :: Same(r, run) ==> IsRun(r) && After(r) == w
  }

  /** A history in which no start got in over a late failure since the process was started. */
  ghost predicate Spotless(run: Run) {
    forall r :: Same(r, run) ==> IsRun(r) && Steady(r)
  }

  /** A late failure is not healed yet. */
  ghost predicate Unhealed(run: Run) {
    forall r :: Same(r, run) ==> IsRun(r) && Late(r)
  }

  lemma LookBack(run: Run, w: World)
    requires Reached(run, w)
    ensures IsRun(run) && After(run) == w
    ensures (Spotless(run) <==> Steady(run)) && (Unhealed(run) <==> Late(run))
  {
    assert Same(run, run);
  }

  lemma Onward(run: Run, w: World, step: Step)
    requires Reached(run, w) && Enabled(w, step)
    ensures Reached(Run.Then(run, step), Do(w, step))
    ensures if step.Restart? then Spotless(Run.Then(run, step)) else Spotless(Run.Then(run, step)) ==> Spotless(run)
    ensures Unhealed(run) && !step.Restart? && Do(w, step).record.Some? ==> Unhealed(Run.Then(run, step))
  {
    LookBack(run, w);
    assert IsRun(Run.Then(run, step));
    assert Reached(Run.Then(run, step), Do(w, step));
    LookBack(Run.Then(run, step), Do(w, step));
  }

  // ---------- What the dispatching thread was told ----------

  /** Its entries into Start, the answers, and every step of its closing. */
  predicate Marked(step: Step) {
    match step
    case ByStart(s) => s.Enter? || s.Claim? || s.Refuse?
    case ByCloser(i, _) => i == 0
    case _ => false
  }

  ghost function Marks(run: Run): seq<Step> {
    match run
    case Begin => []
    case Then(past, last) => Marks(past) + (if Marked(last) then [last] else [])
  }

  ghost predicate Log(run: Run, marks: seq<Step>) {
    forall r :: Same(r, run) ==> Marks(r) == marks
  }

  lemma LogOn(run: Run, marks: seq<Step>, step: Step)
    requires Log(run, marks)
    ensures Log(Run.Then(run, step), marks + (if Marked(step) then [step] else []))
  {
    assert Same(run, run);
  }

  lemma SlotIsTaken(run: Run, w: World, g: nat)
    requires Reached(run, w) && g in w.waiters
    ensures w.done == Some(g) && w.active && !Starting(w.dispatcher)
  {
    LookBack(run, w);
    RunControl(run);
  }

  lemma SlotIsMine(run: Run, w: World)
    requires Reached(run, w) && Starting(w.dispatcher)
    ensures w.done == Some(w.dispatcher.h) && w.active
  {
    LookBack(run, w);
    RunControl(run);
  }

  lemma ActiveHasDone(run: Run, w: World)
    requires Reached(run, w)
    ensures w.active <==> w.done.Some?
  {
    LookBack(run, w);
    RunControl(run);
  }

  lemma ClaimMeans(run: Run, w: World)
    requires Reached(run, w) && Spotless(run) && w.dispatcher.Claimed?
    ensures w.record.None?
  {
    LookBack(run, w);
    RunRecord(run);
  }

  lemma BookedMeans(run: Run, w: World)
    requires Reached(run, w) && Spotless(run) && w.dispatcher.FailureBooked?
    ensures RecordOf(w, w.dispatcher.h) && w.recoveryPending
  {
    LookBack(run, w);
    RunRecord(run);
  }

  lemma NothingLeft(run: Run, w: World)
    requires Reached(run, w) && Spotless(run)
    requires w.dispatcher.FailureCleared? || w.recovery.NothingFound? || w.recovery.FoundCleared?
    ensures w.record.None?
  {
    LookBack(run, w);
    RunRecord(run);
  }

  lemma ReportedMeans(run: Run, w: World)
    requires Reached(run, w) && Spotless(run) && w.recovery.FoundReported?
    ensures w.record == Some(w.recovery.r)
  {
    LookBack(run, w);
    RunRecord(run);
  }

  lemma FinishingMeans(run: Run, w: World, h: nat)
    requires Reached(run, w) && Spotless(run) && h in w.waiters && w.waiters[h].Finishing?
    ensures w.record.Some? ==> RecordOf(w, h) && w.recoveryPending
  {
    LookBack(run, w);
    RunRecord(run);
  }

  lemma StartFailedMeans(run: Run, w: World)
    requires Reached(run, w) && Spotless(run) && w.dispatcher.StartFailed?
    ensures w.record.Some? ==> RecordOf(w, w.dispatcher.h) && w.recoveryPending
  {
    LookBack(run, w);
    RunControl(run);
    RunRecord(run);
  }

  lemma ClosedMeans(run: Run, w: World, i: nat)
    requires Reached(run, w) && CloseEnabled(w, i, CloseStep.Return)
    ensures w.closers[i].h !in w.waiters && w.done != Some(w.closers[i].h)
  {
    LookBack(run, w);
    RunControl(run);
  }

  lemma ClosedRecord(run: Run, w: World, i: nat)
    requires Reached(run, w) && Spotless(run) && CloseEnabled(w, i, CloseStep.Return) && RecordOf(w, w.closers[i].h)
    ensures w.recoveryPending || w.dispatcher == FailureSaved(w.closers[i].h) || Unhealed(run)
  {
    LookBack(run, w);
    CloseMeansDone(run, i);
  }

  datatype StartResult = Started(h: nat) | Expired | AlreadyActive | RecoveryPending | Failed(h: nat) | StillWaiting

  /** How a dispatch ends: the session runs, the start was refused without an attempt, or the
      attempt failed and was reported, was only recorded, or could not be recorded. */
  datatype Dispatched = Launched | Refused | Reported | Recorded | Unsaved | Waits

  datatype RetryResult = Nil | Active | LoadError | ReportError | ClearError | Waiting

  /** The answer of each call of Start, in order. */
  function Answers(told: seq<Step>): seq<StartStep> {
    if told == [] then []
    else
      var last := told[|told| - 1];
      Answers(told[..|told| - 1]) + (if last.ByStart? && !last.start.Enter? then [last.start] else [])
  }

  /** What one call of Start tells: nothing while it waits for the lock, else its answer. */
  ghost predicate Told(piece: seq<Step>, r: StartResult) {
    match r
    case StillWaiting => piece == []
    case Expired =>
      || piece == [ByStart(Enter), ByStart(Refuse(TooLate))]
      || piece == [ByStart(Enter), ByStart(Refuse(ExpiredMeanwhile))]
    case AlreadyActive => piece == [ByStart(Enter), ByStart(Refuse(Busy))]
    case RecoveryPending => piece == [ByStart(Enter), ByStart(Refuse(RecoveryFirst))]
    case Started(_) => piece == [ByStart(Enter), ByStart(StartStep.Claim)]
    case Failed(_) => piece == [ByStart(Enter), ByStart(StartStep.Claim)]
  }

  /** How a Close went, if there was one. */
  datatype Closing = NotTried | FoundNone | Closed | GaveUp

  function ClosePiece(c: Closing): seq<Step> {
    match c
    case NotTried => []
    case FoundNone => [ByCloser(0, Miss)]
    case Closed =>
      [ByCloser(0, CloseStep.Capture), ByCloser(0, CloseStep.Cancel), ByCloser(0, CloseStep.Return)]
    case GaveUp => [ByCloser(0, CloseStep.Capture), ByCloser(0, CloseStep.Cancel), ByCloser(0, GiveUp)]
  }

  lemma {:induction false} AnswersConcat(a: seq<Step>, b: seq<Step>)
    ensures Answers(a + b) == Answers(a) + Answers(b)
  {
    if b == [] {
      assert a + b == a;
    } else {
      var all := a + b;
      assert all[..|all| - 1] == a + b[..|b| - 1];
      AnswersConcat(a, b[..|b| - 1]);
    }
  }

  lemma AnswerOfStart(piece: seq<Step>, r: StartResult)
    requires Told(piece, r)
    ensures forall s :: s in piece ==> s.ByStart?
    ensures if r.StillWaiting? then Answers(piece) == []
            else |Answers(piece)| == 1 && (Answers(piece)[0] == Refuse(Busy) <==> r.AlreadyActive?)
                 && (Answers(piece)[0].Refuse? <==> !r.Started? && !r.Failed?)
  {
    if piece != [] {
      assert piece[..1] == [piece[0]] && piece[..1][..0] == [];
      assert Answers(piece[..1]) == Answers(piece[..1][..0]) + [] == [];
    }
  }

  lemma NoAnswerOfClose(piece: seq<Step>)
    requires forall s :: s in piece ==> s.ByCloser?
    ensures Answers(piece) == []
  {
    if piece != [] {
      assert piece[|piece| - 1] in piece;
      NoAnswerOfClose(piece[..|piece| - 1]);
    }
  }

  /** A close succeeded; one was begun. */
  predicate HasClosed(told: seq<Step>) {
    ByCloser(0, Miss) in told || ByCloser(0, CloseStep.Return) in told
  }

  predicate HasTried(told: seq<Step>) {
    ByCloser(0, Miss) in told || ByCloser(0, CloseStep.Capture) in told
  }

  lemma ClosePieceMeans(c: Closing)
    ensures forall s :: s in ClosePiece(c) ==> s.ByCloser?
    ensures HasClosed(ClosePiece(c)) <==> c.FoundNone? || c.Closed?
    ensures HasTried(ClosePiece(c)) <==> !c.NotTried?
  {
    match c
    case NotTried =>
    case FoundNone => assert ClosePiece(c)[0] == ByCloser(0, Miss);
    case Closed =>
      assert ClosePiece(c)[0] == ByCloser(0, CloseStep.Capture) && ClosePiece(c)[2] == ByCloser(0, CloseStep.Return);
    case GaveUp => assert ClosePiece(c)[0] == ByCloser(0, CloseStep.Capture);
  }

  /** A start, closing exactly when that met an active session, and a second start exactly when the
      closing succeeded; the last answer is the result. */
  ghost predicate Adds(told: seq<Step>, last: StartResult) {
    var answers := Answers(told);
    var again := answers != [] && answers[0] == Refuse(Busy) && HasClosed(told);
    && |answers| + (if last.StillWaiting? then 1 else 0) == (if again then 2 else 1)
    && (HasTried(told) <==> answers != [] && answers[0] == Refuse(Busy))
    && (!last.StillWaiting? ==> (answers[|answers| - 1].Refuse? <==> !last.Started? && !last.Failed?))
  }

  /** The whole story: a start, a close after it if it met an active session, and a start after
      that if the close succeeded. */
  lemma Story(one: seq<Step>, first: StartResult, c: Closing, three: seq<Step>, last: StartResult)
    requires Told(one, first) && (c.NotTried? <==> !first.AlreadyActive?)
    requires if c.FoundNone? || c.Closed? then Told(three, last) else three == [] && last == first
    ensures var told := one + ClosePiece(c) + three;
            Adds(told, last)
  {
    AnswersConcat(one, ClosePiece(c));
    AnswersConcat(one + ClosePiece(c), three);
    ClosePieceMeans(c);
    NoAnswerOfClose(ClosePiece(c));
    AnswerOfStart(one, first);
    if c.FoundNone? || c.Closed? { AnswerOfStart(three, last); }
    forall s: Step | s.ByCloser? ensures s in one + ClosePiece(c) + three <==> s in ClosePiece(c) {}
    assert Answers([]) == [];
  }

  class Manager {
    const store: FileStore<Record>
    var active: bool
    var recoveryPending: bool
    var cancel: Option<nat>
    var done: Option<nat>
    var world: World          // these fields again, and where every thread stands
    var trace: Run            // how it came to that
    ghost var marks: seq<Step> // what the dispatching thread was told on the way

    ghost predicate Valid()
      reads this, store
    {
      && store.Valid() && Reached(trace, world) && Log(trace, marks)
      && world.active == active && world.recoveryPending == recoveryPending
      && world.cancel == cancel && world.done == done
      && world.record == store.Stored()
    }

    constructor (store: FileStore<Record>, was: Run, pending: bool)
      requires store.Valid() && IsRun(was) && After(was).record == store.Stored()
      requires pending == store.Stored().Some?
      ensures Valid() && this.store == store && trace == Run.Then(was, Restart)
      ensures recoveryPending == pending && !active && Spotless(trace)
    {
      this.store, active, recoveryPending, cancel, done := store, false, pending, None, None;
      trace := Run.Then(was, Restart);
      marks := Marks(was);
      world := Reboot(After(was));
    }

    /** Over whatever an earlier process left behind, wherever it died. */
    static method NewManager(store: FileStore<Record>, was: Run) returns (m: Manager?)
      requires store.Valid() && IsRun(was) && After(was).record == store.Stored()
      ensures m != null ==>
                && fresh(m) && m.Valid() && m.store == store && m.trace == Run.Then(was, Restart)
                && m.recoveryPending == store.Stored().Some? && !m.active && Spotless(m.trace)
    {
      var r, s := store.Load();
      if !r.Ok? { return null; }
      m := new Manager(store, was, s.Some?);
    }

    method Take(step: Step)
      requires Reached(trace, world) && Log(trace, marks) && Enabled(world, step) && !step.Restart?
      modifies this`trace, this`world, this`marks
      ensures Reached(trace, world) && Log(trace, marks) && world == Do(old(world), step)
      ensures marks == old(marks) + (if Marked(step) then [step] else [])
      ensures Spotless(trace) ==> Spotless(old(trace))
    {
      Onward(trace, world, step);
      LogOn(trace, marks, step);
      marks := marks + (if Marked(step) then [step] else []);
      trace, world := Run.Then(trace, step), Do(world, step);
    }

    method TakeStart(s: StartStep)
      requires Reached(trace, world) && Log(trace, marks) && StartEnabled(world, s)
      modifies this`trace, this`world, this`marks
      ensures Reached(trace, world) && Log(trace, marks) && world == DoStart(old(world), s)
      ensures marks == old(marks) + (if s.Enter? || s.Claim? || s.Refuse? then [ByStart(s)] else [])
      ensures Spotless(trace) ==> Spotless(old(trace))
    {
      Onward(trace, world, ByStart(s));
      LogOn(trace, marks, ByStart(s));
      marks := marks + (if Marked(ByStart(s)) then [ByStart(s)] else []);
      trace, world := Run.Then(trace, ByStart(s)), Do(world, ByStart(s));
    }

    method TakeFailure(s: FailureStep)
      requires Reached(trace, world) && Log(trace, marks) && FailureEnabled(world, s)
      modifies this`trace, this`world, this`marks
      ensures Reached(trace, world) && Log(trace, marks) && world == DoFailure(old(world), s)
      ensures marks == old(marks)
      ensures Spotless(trace) ==> Spotless(old(trace))
    {
      Onward(trace, world, ByFailure(s));
      LogOn(trace, marks, ByFailure(s));
      marks := marks + (if Marked(ByFailure(s)) then [ByFailure(s)] else []);
      trace, world := Run.Then(trace, ByFailure(s)), Do(world, ByFailure(s));
    }

    method TakeWaiter(h: nat, s: WaiterStep)
      requires Reached(trace, world) && Log(trace, marks) && WaiterEnabled(world, h, s)
      modifies this`trace, this`world, this`marks
      ensures Reached(trace, world) && Log(trace, marks) && world == DoWaiter(old(world), h, s)
      ensures Spotless(trace) ==> Spotless(old(trace))
    {
      Onward(trace, world, ByWaiter(h, s));
      LogOn(trace, marks, ByWaiter(h, s));
      marks := marks + (if Marked(ByWaiter(h, s)) then [ByWaiter(h, s)] else []);
      trace, world := Run.Then(trace, ByWaiter(h, s)), Do(world, ByWaiter(h, s));
    }

    method TakeClose(i: nat, s: CloseStep)
      requires Reached(trace, world) && Log(trace, marks) && CloseEnabled(world, i, s)
      modifies this`trace, this`world, this`marks
      ensures Reached(trace, world) && Log(trace, marks) && world == DoClose(old(world), i, s)
      ensures marks == old(marks) + (if i == 0 then [ByCloser(i, s)] else [])
      ensures Spotless(trace) ==> Spotless(old(trace))
      ensures Unhealed(old(trace)) && world.record.Some? ==> Unhealed(trace)
    {
      Onward(trace, world, ByCloser(i, s));
      LogOn(trace, marks, ByCloser(i, s));
      marks := marks + (if Marked(ByCloser(i, s)) then [ByCloser(i, s)] else []);
      trace, world := Run.Then(trace, ByCloser(i, s)), Do(world, ByCloser(i, s));
    }

    method TakeRecovery(s: RecoveryStep)
      requires Reached(trace, world) && Log(trace, marks) && RecoveryEnabled(world, s)
      modifies this`trace, this`world, this`marks
      ensures Reached(trace, world) && Log(trace, marks) && world == DoRecovery(old(world), s)
      ensures Spotless(trace) ==> Spotless(old(trace))
    {
      Onward(trace, world, ByRecovery(s));
      LogOn(trace, marks, ByRecovery(s));
      marks := marks + (if Marked(ByRecovery(s)) then [ByRecovery(s)] else []);
      trace, world := Run.Then(trace, ByRecovery(s)), Do(world, ByRecovery(s));
    }

    method OneOther(me: Thread, step: Step)
      requires Valid() && Enabled(world, step) && !step.Restart?
      requires Present(me, world) && !TakenBy(me, step)
      modifies this, store
      ensures Valid() && Standing(me, old(world), world)
      ensures me.Dispatching? ==> marks == old(marks)
      ensures Spotless(trace) ==> Spotless(old(trace))
    {
      StepOfAnother(trace, world, me, step);
      Take(step);
      active, recoveryPending, cancel, done := world.active, world.recoveryPending, world.cancel, world.done;
      store.file := if world.record.None? then None else Some(Whole(world.record.value));
    }

    /** Every thread but `me` may run. */
    method Others(me: Thread)
      requires Valid() && Present(me, world)
      modifies this, store
      ensures Valid() && Standing(me, old(world), world)
      ensures me.Dispatching? ==> marks == old(marks)
      ensures Spotless(trace) ==> Spotless(old(trace))
    {
      var steps: nat := *;
      while steps > 0
        invariant Valid() && Standing(me, old(world), world) && Present(me, world)
        invariant Spotless(trace) ==> Spotless(old(trace))
        invariant me.Dispatching? ==> marks == old(marks)
      {
        var step: Step := *;
        if Enabled(world, step) && !step.Restart? && !TakenBy(me, step) {
          OneOther(me, step);
        }
        steps := steps - 1;
      }
    }

    // ---------- Start ----------

    static function Why(r: StartResult): Refusal {
      if r.AlreadyActive? then Busy else if r.RecoveryPending? then RecoveryFirst else ExpiredMeanwhile
    }

    /** The lock section that decides; `late` tells whether a deadline has passed by now. */
    method Claim(late: bool) returns (r: StartResult)
      requires Valid() && world.dispatcher.Entered?
      modifies this
      ensures Valid() && (Spotless(trace) ==> Spotless(old(trace)))
      ensures r == if old(active) then AlreadyActive else if old(recoveryPending) then RecoveryPending
                   else if late then Expired else Started(old(world.attempts))
      ensures world == DoStart(old(world), if r.Started? then StartStep.Claim else Refuse(Why(r)))
      ensures marks == old(marks) + [ByStart(if r.Started? then StartStep.Claim else Refuse(Why(r)))]
    {
      if active || recoveryPending || late {
        r := if active then AlreadyActive else if recoveryPending then RecoveryPending else Expired;
        TakeStart(Refuse(Why(r)));
        return;
      }
      var h := world.attempts;
      active, cancel, done := true, Some(h), Some(h);
      TakeStart(StartStep.Claim);
      return Started(h);
    }

    method SaveRecord(h: nat) returns (ok: bool)
      requires Valid() && world.dispatcher == Claimed(h)
      modifies this, store
      ensures marks == old(marks) && SameCloser(old(world), world, 0)
      ensures Valid() && (Spotless(trace) ==> Spotless(old(trace)) && old(store.Stored()).None?)
      ensures exists took :: (ok ==> took) && world == DoStart(old(world), StartStep.Save(ok, took))
    {
      if Spotless(trace) { ClaimMeans(trace, world); }
      var saved := store.Save(Record(h, false));
      ok := saved.Ok?;
      var took := store.Stored() == Some(Record(h, false));
      TakeStart(StartStep.Save(ok, took));
    }

    method ClearRecord(h: nat) returns (ok: bool)
      requires Valid() && world.dispatcher == LaunchFailed(h)
      modifies this, store
      ensures marks == old(marks) && SameCloser(old(world), world, 0)
      ensures Valid() && (Spotless(trace) ==> Spotless(old(trace)))
      ensures exists took :: (ok ==> took) && world == DoStart(old(world), RollbackClear(ok, took))
    {
      var cleared := store.Clear();
      ok := cleared.Ok?;
      var took := store.Stored().None?;
      TakeStart(RollbackClear(ok, took));
    }

    method SetPending(s: StartStep)
      requires Valid() && StartEnabled(world, s) && (s.BookSaveFailure? || s.BookClearFailure?)
      modifies this
      ensures marks == old(marks) && SameCloser(old(world), world, 0)
      ensures Valid() && world == DoStart(old(world), s) && (Spotless(trace) ==> Spotless(old(trace)))
    {
      recoveryPending := true;
      TakeStart(s);
    }

    method RollbackStart(h: nat)
      requires Valid() && world.dispatcher == RollingBack(h)
      modifies this
      ensures marks == old(marks) && SameCloser(old(world), world, 0)
      ensures Valid() && world == DoStart(old(world), Rollback) && (Spotless(trace) ==> Spotless(old(trace)))
      ensures h in world.closes && !active
      ensures Spotless(trace) ==> (store.Stored().Some? ==> RecordOf(world, h) && recoveryPending)
    {
      SlotIsMine(trace, world);
      if done == Some(h) {
        active, cancel, done := false, None, None;
      }
      TakeStart(Rollback);
      assert world.closes[|world.closes| - 1] == h;
      if Spotless(trace) { StartFailedMeans(trace, world); }
    }

    /** Start after its record was not saved or its session not launched: the record of a failed
        launch is cleared, recovery is left pending on any error, the session is rolled back. */
    method Abandon(h: nat)
      requires Valid() && (world.dispatcher == SaveFailed(h) || world.dispatcher == LaunchFailed(h))
      modifies this, store
      ensures marks == old(marks) && SameCloser(old(world), world, 0)
      ensures Valid() && (Spotless(trace) ==> Spotless(old(trace)))
      ensures world.dispatcher == StartFailed(h)
      ensures world.attempts == old(world.attempts) && world.launched == old(world.launched)
      ensures h in world.cancelled && h in world.closes && !active
      ensures Spotless(trace) ==> (store.Stored().Some? ==> RecordOf(world, h) && recoveryPending)
    {
      Others(Dispatching);
      if world.dispatcher.SaveFailed? {
        SetPending(BookSaveFailure);
      } else {
        ClearLaunch(h);
      }
      Others(Dispatching);
      RollbackStart(h);
    }

    method ClearLaunch(h: nat)
      requires Valid() && world.dispatcher == LaunchFailed(h)
      modifies this, store
      ensures marks == old(marks) && SameCloser(old(world), world, 0)
      ensures Valid() && (Spotless(trace) ==> Spotless(old(trace)))
      ensures world.dispatcher == RollingBack(h)
      ensures world.attempts == old(world.attempts) && world.launched == old(world.launched)
    {
      var cleared := ClearRecord(h);
      if !cleared {
        Others(Dispatching);
        SetPending(BookClearFailure);
      }
    }

    /** Save the record and launch the session. `over` is what the disk held when the record
        was written. */
    method Launch(h: nat) returns (ok: bool, ghost over: Option<Record>)
      requires Valid() && world.dispatcher == Claimed(h)
      modifies this, store
      ensures marks == old(marks) && SameCloser(old(world), world, 0)
      ensures Valid() && (Spotless(trace) ==> Spotless(old(trace)) && over.None?)
      ensures world.dispatcher.Idle? || world.dispatcher == SaveFailed(h) || world.dispatcher == LaunchFailed(h)
      ensures ok == world.dispatcher.Idle? && world.attempts == old(world.attempts)
      ensures world.launched == old(world.launched) + (if ok then {h} else {})
    {
      Others(Dispatching);
      over := store.Stored();
      ok := SaveRecord(h);
      if !ok { return; }
      Others(Dispatching);
      ok := LaunchSession(h);
    }

    /** runner.Start, and the waiter that is sent off when it succeeds. */
    method LaunchSession(h: nat) returns (ok: bool)
      requires Valid() && world.dispatcher == Saved(h)
      modifies this
      ensures Valid() && world == DoStart(old(world), StartStep.Launch(ok)) && marks == old(marks)
      ensures Spotless(trace) ==> Spotless(old(trace))
    {
      ok := *;
      TakeStart(StartStep.Launch(ok));
    }

    /** Up to the claim. `early` and `late` tell whether a deadline has passed at the two checks;
        `seen` is the state at the deciding lock section. */
    method Admit(early: bool, late: bool) returns (r: StartResult, ghost seen: World, ghost told: seq<Step>)
      requires Valid() && world.dispatcher.Idle?
      modifies this, store
      ensures Valid() && (Spotless(trace) ==> Spotless(old(trace)))
      ensures world.dispatcher == if r.Started? then Claimed(r.h) else DispatcherPc.Idle
      ensures r.StillWaiting? ==> seen.recoveryMu.Some? && seen == world
      ensures !r.StillWaiting? ==>
                r == if early then Expired else if seen.active then AlreadyActive
                     else if seen.recoveryPending then RecoveryPending else if late then Expired
                     else Started(old(world.attempts))
      ensures world.attempts == old(world.attempts) + (if r.Started? then 1 else 0)
      ensures world.launched == old(world.launched) && SameCloser(old(world), world, 0)
      ensures marks == old(marks) + told && Told(told, r)
    {
      Others(Dispatching);
      seen, told := world, [];
      if world.recoveryMu.Some? { return StillWaiting, seen, told; }
      EnterStart();
      ghost var answer;
      r, seen, answer := Decide(early, late);
      told := [ByStart(Enter), ByStart(answer)];
    }

    /** Inside: the two deadline checks and the lock section between them. */
    method Decide(early: bool, late: bool) returns (r: StartResult, ghost seen: World, ghost answer: StartStep)
      requires Valid() && world.dispatcher.Entered?
      modifies this, store
      ensures Valid() && (Spotless(trace) ==> Spotless(old(trace)))
      ensures world.dispatcher == if r.Started? then Claimed(r.h) else DispatcherPc.Idle
      ensures r == if early then Expired else if seen.active then AlreadyActive
                   else if seen.recoveryPending then RecoveryPending else if late then Expired
                   else Started(old(world.attempts))
      ensures world.attempts == old(world.attempts) + (if r.Started? then 1 else 0)
      ensures world.launched == old(world.launched) && SameCloser(old(world), world, 0)
      ensures marks == old(marks) + [ByStart(answer)]
      ensures answer == if early then Refuse(TooLate) else if r.Started? then StartStep.Claim else Refuse(Why(r))
    {
      seen := world;
      if early {
        TurnAway();
        return Expired, seen, Refuse(TooLate);
      }
      Others(Dispatching);
      seen := world;
      r := Claim(late);
      answer := if r.Started? then StartStep.Claim else Refuse(Why(r));
    }

    method EnterStart()
      requires Valid() && StartEnabled(world, Enter)
      modifies this
      ensures Valid() && world == DoStart(old(world), Enter) && (Spotless(trace) ==> Spotless(old(trace)))
      ensures marks == old(marks) + [ByStart(Enter)]
    {
      TakeStart(Enter);
    }

    method TurnAway()
      requires Valid() && world.dispatcher.Entered?
      modifies this
      ensures Valid() && world == DoStart(old(world), Refuse(TooLate)) && (Spotless(trace) ==> Spotless(old(trace)))
      ensures marks == old(marks) + [ByStart(Refuse(TooLate))]
    {
      TakeStart(Refuse(TooLate));
    }

    /** `over` is what the disk held when the record was written. */
    method Start(early: bool, late: bool)
      returns (r: StartResult, ghost seen: World, ghost over: Option<Record>, ghost told: seq<Step>)
      requires Valid() && world.dispatcher.Idle?
      modifies this, store
      ensures Valid() && (Spotless(trace) ==> Spotless(old(trace)))
      ensures world.dispatcher == if r.Failed? then StartFailed(r.h) else DispatcherPc.Idle
      ensures r.StillWaiting? ==> seen.recoveryMu.Some? && seen == world
      ensures !r.StillWaiting? ==>
                (r == if early then Expired else if seen.active then AlreadyActive
                      else if seen.recoveryPending then RecoveryPending else if late then Expired
                      else if r.Failed? then StartResult.Failed(old(world.attempts)) else Started(old(world.attempts)))
      ensures world.attempts == old(world.attempts) + (if r.Started? || r.Failed? then 1 else 0)
      ensures world.launched == old(world.launched) + (if r.Started? then {r.h} else {})
      ensures marks == old(marks) + told && Told(told, r) && SameCloser(old(world), world, 0)
      ensures r.Failed? ==> r.h in world.cancelled && r.h in world.closes && !active
      ensures (r.Started? || r.Failed?) && Spotless(trace) ==> over.None?
      ensures r.Failed? && Spotless(trace) ==> (store.Stored().Some? ==> RecordOf(world, r.h) && recoveryPending)
    {
      over := None;
      r, seen, told := Admit(early, late);
      if !r.Started? { return; }
      var ok;
      ok, over := Launch(r.h);
      if !ok {
        Abandon(r.h);
        r := StartResult.Failed(r.h);
      }
    }

    // ---------- A failed start is booked ----------

    method SaveFailureRecord(h: nat) returns (ok: bool)
      requires Valid() && world.dispatcher == StartFailed(h)
      modifies this, store
      ensures marks == old(marks) && SameCloser(old(world), world, 0)
      ensures Valid() && (Spotless(trace) ==> Spotless(old(trace)))
      ensures exists took :: (ok ==> took) && world == DoFailure(old(world), FailureSave(ok, took))
      ensures Spotless(trace) ==> (store.Stored().Some? ==> RecordOf(world, h))
    {
      if Spotless(trace) { StartFailedMeans(trace, world); }
      var saved := store.Save(Record(h, true));
      ok := saved.Ok?;
      var took := store.Stored() == Some(Record(h, true));
      TakeFailure(FailureSave(ok, took));
    }

    method RecordStartFailure(h: nat) returns (ok: bool)
      requires Valid() && world.dispatcher == StartFailed(h)
      modifies this, store
      ensures marks == old(marks) && SameCloser(old(world), world, 0)
      ensures Valid() && (Spotless(trace) ==> Spotless(old(trace)))
      ensures world.dispatcher == if ok then FailureBooked(h) else DispatcherPc.Idle
      ensures world.attempts == old(world.attempts) && world.launched == old(world.launched)
      ensures ok ==> recoveryPending && (Spotless(trace) ==> RecordOf(world, h))
      ensures !ok && Spotless(trace) ==> (store.Stored().Some? ==> RecordOf(world, h))
    {
      Others(Dispatching);
      ok := SaveFailureRecord(h);
      if !ok { return; }
      Others(Dispatching);
      BookStartFailure();
    }

    method BookStartFailure()
      requires Valid() && world.dispatcher.FailureSaved?
      modifies this
      ensures Valid() && world == DoFailure(old(world), BookFailure) && (Spotless(trace) ==> Spotless(old(trace)))
      ensures marks == old(marks) && recoveryPending
      ensures Spotless(trace) ==> RecordOf(world, old(world.dispatcher.h))
    {
      recoveryPending := true;
      TakeFailure(BookFailure);
      if Spotless(trace) { BookedMeans(trace, world); }
    }

    method ClearFailure(h: nat) returns (ok: bool)
      requires Valid() && world.dispatcher == FailureReported(h)
      modifies this, store
      ensures marks == old(marks) && SameCloser(old(world), world, 0)
      ensures Valid() && (Spotless(trace) ==> Spotless(old(trace)))
      ensures exists took :: (ok ==> took) && world == DoFailure(old(world), FailureClear(ok, took))
    {
      var cleared := store.Clear();
      ok := cleared.Ok?;
      var took := store.Stored().None?;
      TakeFailure(FailureClear(ok, took));
    }

    method UnbookStartFailure()
      requires Valid() && world.dispatcher.FailureCleared?
      modifies this
      ensures Valid() && world == DoFailure(old(world), UnbookFailure) && (Spotless(trace) ==> Spotless(old(trace)))
      ensures marks == old(marks) && !recoveryPending && (Spotless(trace) ==> store.Stored().None?)
    {
      if Spotless(trace) { NothingLeft(trace, world); }
      recoveryPending := false;
      TakeFailure(UnbookFailure);
    }

    method ClearStartFailure(h: nat) returns (ok: bool)
      requires Valid() && world.dispatcher == FailureReported(h)
      modifies this, store
      ensures marks == old(marks) && SameCloser(old(world), world, 0)
      ensures Valid() && (Spotless(trace) ==> Spotless(old(trace)))
      ensures world.dispatcher == DispatcherPc.Idle
      ensures world.attempts == old(world.attempts) && world.launched == old(world.launched)
      ensures old(world.acked) <= world.acked
      ensures ok ==> !recoveryPending && (Spotless(trace) ==> store.Stored().None?)
    {
      Others(Dispatching);
      ok := ClearFailure(h);
      if !ok { return; }
      Others(Dispatching);
      UnbookStartFailure();
    }

    // ---------- Close ----------

    /** The lock section of Close: which session is to be closed. */
    method Capture(i: nat) returns (h: Option<nat>)
      requires Valid() && i !in world.closers
      modifies this
      ensures Valid() && (Spotless(trace) ==> Spotless(old(trace)))
      ensures h == (if active then done else None) && h.Some? == active
      ensures h.None? ==> world == old(world)
      ensures i == 0 ==> marks == old(marks) + [ByCloser(0, if h.None? then Miss else CloseStep.Capture)]
      ensures h.Some? ==> CloseEnabled(old(world), i, CloseStep.Capture)
      ensures h.Some? ==> world == DoClose(old(world), i, CloseStep.Capture)
    {
      if !active {
        TakeClose(i, Miss);
        return None;
      }
      ActiveHasDone(trace, world);
      h := done;
      TakeClose(i, CloseStep.Capture);
    }

    /** The end of the wait: the session is over, or the caller's patience. */
    method Leave(i: nat) returns (ok: bool)
      requires Valid() && i in world.closers && world.closers[i].Blocked?
      modifies this
      ensures Valid() && (Spotless(trace) ==> Spotless(old(trace)))
      ensures i !in world.closers && SameDispatcher(old(world), world) && world.cancelled == old(world.cancelled)
      ensures i == 0 ==> marks == old(marks) + [ByCloser(0, if ok then CloseStep.Return else GiveUp)]
      ensures var h := old(world.closers[i].h);
              && (ok ==> h in world.closes && h !in world.waiters && world.done != Some(h))
              && (ok && Spotless(trace) && RecordOf(world, h) ==>
                    recoveryPending || world.dispatcher == FailureSaved(h) || Unhealed(trace))
    {
      var h := world.closers[i].h;
      ok := *;
      ok := ok && h in world.closes;
      if ok {
        ClosedMeans(trace, world, i);
        if Spotless(trace) && RecordOf(world, h) { ClosedRecord(trace, world, i); }
        TakeClose(i, CloseStep.Return);
      } else {
        TakeClose(i, GiveUp);
      }
    }

    static function Number(me: Thread): nat {
      if me.CloserOf? then me.i else 0
    }

    /** Called by a thread of its own, or by the dispatching thread. `h` is the session found. */
    method Close(me: Thread) returns (ok: bool, h: Option<nat>)
      requires Valid() && (me.Dispatching? || (me.CloserOf? && me.i != 0)) && Number(me) !in world.closers
      modifies this, store
      ensures Valid() && (Spotless(trace) ==> Spotless(old(trace))) && Number(me) !in world.closers
      ensures me.Dispatching? ==> SameDispatcher(old(world), world)
      ensures me.Dispatching? ==>
                marks == old(marks) + ClosePiece(if h.None? then FoundNone else if ok then Closed else GaveUp)
      ensures h.None? ==> ok && !active
      ensures h.Some? ==> h.value in world.cancelled
      ensures ok && h.Some? ==> h.value in world.closes && h.value !in world.waiters && world.done != h
      ensures ok && h.Some? && Spotless(trace) && RecordOf(world, h.value) ==>
                recoveryPending || world.dispatcher == FailureSaved(h.value) || Unhealed(trace)
    {
      Others(me);
      h := Capture(Number(me));
      if h.None? { return true, None; }
      ok := CloseFound(me, h.value);
    }

    /** Cancel the session found, and wait. */
    method CloseFound(me: Thread, h: nat) returns (ok: bool)
      requires Valid() && (me.Dispatching? || (me.CloserOf? && me.i != 0))
      requires Number(me) in world.closers && world.closers[Number(me)] == Captured(h)
      modifies this, store
      ensures Valid() && (Spotless(trace) ==> Spotless(old(trace))) && Number(me) !in world.closers
      ensures me.Dispatching? ==> SameDispatcher(old(world), world)
      ensures me.Dispatching? ==>
                marks == old(marks) + [ByCloser(0, CloseStep.Cancel),
                                       ByCloser(0, if ok then CloseStep.Return else GiveUp)]
      ensures h in world.cancelled
      ensures ok ==> h in world.closes && h !in world.waiters && world.done != Some(h)
      ensures ok && Spotless(trace) && RecordOf(world, h) ==>
                recoveryPending || world.dispatcher == FailureSaved(h) || Unhealed(trace)
    {
      Others(me);
      CancelSession(Number(me));
      Others(me);
      ok := Leave(Number(me));
    }

    method CancelSession(i: nat)
      requires Valid() && i in world.closers && world.closers[i].Captured?
      modifies this
      ensures Valid() && world == DoClose(old(world), i, CloseStep.Cancel) && (Spotless(trace) ==> Spotless(old(trace)))
      ensures i == 0 ==> marks == old(marks) + [ByCloser(0, CloseStep.Cancel)]
    {
      TakeClose(i, CloseStep.Cancel);
    }

    // ---------- awaitCompletion ----------

    /** Three tries at most. */
    method ReportCompletion(h: nat) returns (reported: bool, tries: nat)
      requires Valid() && h in world.waiters && world.waiters[h] == Reporting(0)
      modifies this, store
      ensures Valid() && (Spotless(trace) ==> Spotless(old(trace)))
      ensures h in world.waiters && world.waiters[h] == if reported then Acknowledged else Unreported
      ensures reported ==> h in world.acked && 1 <= tries <= 3
      ensures !reported ==> tries == 3
    {
      reported, tries := false, 0;
      for attempt := 0 to 3
        invariant Valid() && (Spotless(trace) ==> Spotless(old(trace)))
        invariant !reported && tries == attempt && h in world.waiters
        invariant world.waiters[h] == if attempt < 3 then Reporting(attempt) else Unreported
      {
        Others(WaiterOf(h));
        var reply := Attempt(false);
        TakeWaiter(h, Report(reply.Ok?));
        tries := tries + 1;
        if reply.Ok? {
          reported := true;
          break;
        }
      }
    }

    method ClearCompleted(h: nat) returns (ok: bool)
      requires Valid() && h in world.waiters && world.waiters[h].Acknowledged?
      modifies this, store
      ensures Valid() && (Spotless(trace) ==> Spotless(old(trace)))
      ensures exists took :: (ok ==> took) && world == DoWaiter(old(world), h, WaiterStep.ClearRecord(ok, took))
    {
      var cleared := store.Clear();
      ok := cleared.Ok?;
      var took := store.Stored().None?;
      TakeWaiter(h, WaiterStep.ClearRecord(ok, took));
    }

    method BookCompletion(h: nat, pending: bool)
      requires Valid() && h in world.waiters
      requires world.waiters[h] == Cleared(!pending) || (pending && world.waiters[h].Unreported?)
      modifies this
      ensures Valid() && world == DoWaiter(old(world), h, Book) && (Spotless(trace) ==> Spotless(old(trace)))
    {
      recoveryPending := pending;
      TakeWaiter(h, Book);
    }

    /** The record is cleared, or recovery is left pending. */
    method Settle(h: nat, reported: bool)
      requires Valid() && h in world.waiters && world.waiters[h] == if reported then Acknowledged else Unreported
      modifies this, store
      ensures Valid() && (Spotless(trace) ==> Spotless(old(trace)))
      ensures h in world.waiters && world.waiters[h] == Finishing && (h in old(world.acked) ==> h in world.acked)
    {
      Others(WaiterOf(h));
      var cleared := false;
      if reported {
        cleared := ClearCompleted(h);
        Others(WaiterOf(h));
      }
      BookCompletion(h, !cleared);
    }

    /** The last lock section: the session gives its slot back. */
    method EndSession(h: nat)
      requires Valid() && h in world.waiters && world.waiters[h].Finishing?
      modifies this
      ensures Valid() && world == DoWaiter(old(world), h, Finish) && (Spotless(trace) ==> Spotless(old(trace)))
      ensures h in world.closes && !active && done.None?
      ensures Spotless(trace) ==> (store.Stored().Some? ==> RecordOf(world, h) && recoveryPending)
    {
      SlotIsTaken(trace, world, h);
      if Spotless(trace) { FinishingMeans(trace, world, h); }
      if done == Some(h) {
        active, cancel, done := false, None, None;
      }
      TakeWaiter(h, Finish);
      assert world.closes[|world.closes| - 1] == h;
    }

    method WakeUp(h: nat)
      requires Valid() && WaiterEnabled(world, h, Wake)
      modifies this
      ensures Valid() && world == DoWaiter(old(world), h, Wake) && (Spotless(trace) ==> Spotless(old(trace)))
    {
      TakeWaiter(h, Wake);
    }

    /** `over` is false while the session runs on: the wait is not over. */
    method AwaitCompletion(h: nat) returns (over: bool, reported: bool)
      requires Valid() && h in world.waiters && world.waiters[h].Waiting?
      modifies this, store
      ensures Valid() && (Spotless(trace) ==> Spotless(old(trace)))
      ensures !over ==> h in world.waiters && world.waiters[h].Waiting?
      ensures !over ==> h !in world.completed && h !in world.cancelled
      ensures over ==> h !in world.waiters && h in world.closes && !active && done.None?
      ensures over && reported ==> h in world.acked
      ensures over && Spotless(trace) ==> (store.Stored().Some? ==> RecordOf(world, h) && recoveryPending)
    {
      Others(WaiterOf(h));
      if h !in world.completed && h !in world.cancelled { return false, false; }
      WakeUp(h);
      var tries;
      reported, tries := ReportCompletion(h);
      Settle(h, reported);
      Others(WaiterOf(h));
      EndSession(h);
      over := true;
    }

    // ---------- RetryRecovery ----------

    method CheckActive() returns (busy: bool)
      requires Valid() && world.recovery.In?
      modifies this
      ensures Valid() && world == DoRecovery(old(world), RetryCheck) && busy == old(active)
      ensures Spotless(trace) ==> Spotless(old(trace))
    {
      busy := active;
      TakeRecovery(RetryCheck);
    }

    method LoadRecord() returns (ok: bool, s: Option<Record>)
      requires Valid() && world.recovery.Loading?
      modifies this
      ensures Valid() && world == DoRecovery(old(world), RetryLoad(ok)) && (Spotless(trace) ==> Spotless(old(trace)))
      ensures ok ==> s == store.Stored()
      ensures store.calm ==> ok
    {
      var r;
      r, s := store.Load();
      ok := r.Ok?;
      TakeRecovery(RetryLoad(ok));
    }

    method ClearReported() returns (ok: bool)
      requires Valid() && world.recovery.FoundReported?
      modifies this, store
      ensures Valid() && (Spotless(trace) ==> Spotless(old(trace)))
      ensures exists took :: (ok ==> took) && world == DoRecovery(old(world), RetryClear(ok, took))
      ensures store.calm ==> ok
    {
      var r := store.Clear();
      ok := r.Ok?;
      var took := store.Stored().None?;
      TakeRecovery(RetryClear(ok, took));
    }

    /** Nothing is pending any more. */
    method BookRecovery(s: RecoveryStep)
      requires Valid() && RecoveryEnabled(world, s) && (s.RetryNothing? || s.RetryBook?)
      modifies this
      ensures Valid() && world == DoRecovery(old(world), s) && (Spotless(trace) ==> Spotless(old(trace)))
      ensures !recoveryPending && (Spotless(trace) ==> store.Stored().None?)
    {
      if Spotless(trace) { NothingLeft(trace, world); }
      recoveryPending := false;
      TakeRecovery(s);
    }

    /** `seen` is the state in which it was let in, or not. */
    method RetryRecovery() returns (found: bool, e: RetryResult, ghost seen: World)
      requires Valid() && world.recovery.Out?
      modifies this, store
      ensures Valid() && world.recovery.Out? && (Spotless(trace) ==> Spotless(old(trace)))
      ensures e.Nil? ==> !recoveryPending && (Spotless(trace) ==> store.Stored().None?)
      ensures e.Waiting? <==> seen.recoveryMu.Some? || BookingFailure(seen.dispatcher)
      ensures e.ReportError? || e.ClearError? ==> found
      ensures store.calm ==> !e.LoadError? && !e.ClearError?
    {
      Others(Recovering);
      seen := world;
      if world.recoveryMu.Some? || BookingFailure(world.dispatcher) { return false, RetryResult.Waiting, seen; }
      TakeRecovery(RetryEnter);
      Others(Recovering);
      var busy := CheckActive();
      if busy { return false, Active, seen; }
      found, e := RetryIdle();
    }

    /** RetryRecovery once no session is active. */
    method RetryIdle() returns (found: bool, e: RetryResult)
      requires Valid() && world.recovery.Loading?
      modifies this, store
      ensures Valid() && world.recovery.Out? && (Spotless(trace) ==> Spotless(old(trace)))
      ensures e.Nil? ==> !recoveryPending && (Spotless(trace) ==> store.Stored().None?)
      ensures (e.ReportError? || e.ClearError? ==> found) && !e.Waiting? && !e.Active?
      ensures store.calm ==> !e.LoadError? && !e.ClearError?
    {
      Others(Recovering);
      var ok, s := LoadRecord();
      if !ok { return false, LoadError; }
      Others(Recovering);
      found := s.Some?;
      if !found {
        BookRecovery(RetryNothing);
        return found, Nil;
      }
      ghost var cleared;
      e, cleared := RetryFound();
    }

    /** `cleared` is what the disk held when the record was cleared. */
    method RetryFound() returns (e: RetryResult, ghost cleared: Option<Record>)
      requires Valid() && world.recovery.Found?
      modifies this, store
      ensures Valid() && world.recovery.Out? && (Spotless(trace) ==> Spotless(old(trace)))
      ensures e.Nil? ==> !recoveryPending && (Spotless(trace) ==> store.Stored().None?)
      ensures e.Nil? || e.ClearError? ==> old(world.recovery.r.attempt) in world.acked
      ensures (e.Nil? || e.ClearError?) && Spotless(trace) ==> cleared == Some(old(world.recovery.r))
      ensures (e.Nil? || e.ClearError? || e.ReportError?) && (store.calm ==> !e.ClearError?)
    {
      cleared := None;
      var r := Attempt(false);
      TakeRecovery(RetryReport(r.Ok?));
      if !r.Ok? { return ReportError, cleared; }
      Others(Recovering);
      cleared := store.Stored();
      if Spotless(trace) { ReportedMeans(trace, world); }
      var ok := ClearReported();
      if !ok { return ClearError, cleared; }
      Others(Recovering);
      BookRecovery(RetryBook);
      e := Nil;
    }

    // ---------- The dispatcher's terminal branch ----------

    /** After the start was acknowledged. A start refused for an active session, and only such a
        one, is followed by closing that session; when that succeeds, and only then, the start is
        tried a second time. The last answer decides: a session is launched exactly when it let
        the start in and the launch succeeded; a failed attempt ends reported, or recorded and
        pending, or not saved. `told` is what the thread was told since it came here. */
    method DispatchTerminal() returns (r: Dispatched, ghost told: seq<Step>)
      requires Valid() && world.dispatcher.Idle? && 0 !in world.closers
      modifies this, store
      ensures Valid() && world.dispatcher.Idle? && 0 !in world.closers
      ensures marks == old(marks) + told
      ensures world.attempts == old(world.attempts) + (if r.Refused? || r.Waits? then 0 else 1)
      ensures world.launched == old(world.launched) + (if r.Launched? then {old(world.attempts)} else {})
      ensures BookedAs(r, old(world.attempts))
      ensures var answers := Answers(told);
              var again := answers != [] && answers[0] == Refuse(Busy) && HasClosed(told);
              && |answers| + (if r.Waits? then 1 else 0) == (if again then 2 else 1)
              && (HasTried(told) <==> answers != [] && answers[0] == Refuse(Busy))
              && (r.Waits? ==> world.recoveryMu.Some?)
              && (!r.Waits? ==> (r.Refused? <==> answers[|answers| - 1].Refuse?))
    {
      ghost var closing, first;
      var start;
      start, first, closing, told := StartOrReplace();
      r := if start.Started? then Launched else if start.StillWaiting? then Waits else Refused;
      if start.Failed? { r := BookFailedStart(start.h); }
    }

    /** The start, and after an active session was closed the start once more. */
    method StartOrReplace()
      returns (start: StartResult, ghost first: StartResult, ghost closing: Closing, ghost told: seq<Step>)
      requires Valid() && world.dispatcher.Idle? && 0 !in world.closers
      modifies this, store
      ensures Valid() && 0 !in world.closers && marks == old(marks) + told
      ensures Tried(old(world), world, start)
      ensures Adds(told, start)
    {
      ghost var one, three;
      start, one := TryStart();
      first, closing, three := start, NotTried, [];
      if start.AlreadyActive? {
        start, closing, three := Replace(start);
      }
      told := one + ClosePiece(closing) + three;
      Story(one, first, closing, three, start);
    }

    /** The session found active is closed, and when that succeeds the start is tried again. */
    method Replace(first: StartResult) returns (start: StartResult, ghost closing: Closing, ghost three: seq<Step>)
      requires Valid() && world.dispatcher.Idle? && 0 !in world.closers && first.AlreadyActive?
      modifies this, store
      ensures Valid() && 0 !in world.closers && marks == old(marks) + ClosePiece(closing) + three
      ensures !closing.NotTried? && Tried(old(world), world, start)
      ensures if closing.FoundNone? || closing.Closed? then Told(three, start) else three == [] && start == first
    {
      start, three := first, [];
      var closed;
      closed, closing := CloseActive();
      if closed {
        start, three := TryStart();
      }
    }

    method TryStart() returns (start: StartResult, ghost told: seq<Step>)
      requires Valid() && world.dispatcher.Idle? && 0 !in world.closers
      modifies this, store
      ensures Valid() && 0 !in world.closers && marks == old(marks) + told && Told(told, start)
      ensures Tried(old(world), world, start)
    {
      var early, late: bool := *, *;
      ghost var seen, over;
      start, seen, over, told := Start(early, late);
    }

    /** What one or two tries come to. */
    static ghost predicate Tried(w: World, w': World, start: StartResult) {
      && w'.dispatcher == (if start.Failed? then StartFailed(start.h) else DispatcherPc.Idle)
      && (start.Started? || start.Failed? ==> start.h == w.attempts)
      && w'.attempts == w.attempts + (if start.Started? || start.Failed? then 1 else 0)
      && w'.launched == w.launched + (if start.Started? then {start.h} else {})
      && (start.StillWaiting? ==> w'.recoveryMu.Some?)
    }

    method CloseActive() returns (closed: bool, ghost closing: Closing)
      requires Valid() && world.dispatcher.Idle? && 0 !in world.closers
      modifies this, store
      ensures Valid() && 0 !in world.closers && SameDispatcher(old(world), world)
      ensures marks == old(marks) + ClosePiece(closing) && !closing.NotTried?
      ensures closed <==> closing.FoundNone? || closing.Closed?
    {
      var h;
      closed, h := Close(Dispatching);
      closing := if h.None? then FoundNone else if closed then Closed else GaveUp;
    }

    /** What the answer says about the attempt. */
    ghost predicate BookedAs(r: Dispatched, h: nat)
      requires store.Valid()
      reads this, store
    {
      && (r.Reported? ==> h in world.acked)
      && (r.Recorded? && Spotless(trace) ==> RecordOf(world, h) && recoveryPending)
      && (r.Unsaved? && Spotless(trace) ==> (store.Stored().Some? ==> RecordOf(world, h)))
    }

    method BookFailedStart(h: nat) returns (r: Dispatched)
      requires Valid() && world.dispatcher == StartFailed(h)
      modifies this, store
      ensures marks == old(marks) && SameCloser(old(world), world, 0)
      ensures Valid() && world.dispatcher.Idle?
      ensures world.attempts == old(world.attempts) && world.launched == old(world.launched)
      ensures (r.Reported? || r.Recorded? || r.Unsaved?) && BookedAs(r, h)
    {
      var booked := RecordStartFailure(h);
      if !booked { return Unsaved; }
      Others(Dispatching);
      if Spotless(trace) { BookedMeans(trace, world); }
      var reply := Attempt(false);
      TakeFailure(ReportFailure(reply.Ok?));
      if !reply.Ok? { return Recorded; }
      var _ := ClearStartFailure(h);
      r := Reported;
    }
  }
}
