/** internal/terminal/manager.go and the terminal branch of the dispatcher, as a state
    machine whose steps are the lock sections, store calls, launches and reports of every
    thread involved: the dispatching thread, one waiter per session, any number of closers
    and a recovery thread.

    `recoveryMu` is held by `Start` and `RetryRecovery` from entry to return; `mu` is held
    only inside one step. The recovery thread may run at any time except while the
    dispatching thread books a failed start, which the start-up-only wiring in
    cmd/xkp-agent/main.go:101 guarantees. */
module TerminalSession {
  import opened Common

  /** The recovery record on disk, identified by the start attempt that wrote it. */
  datatype Record = Record(attempt: nat, failure: bool)

  datatype Holder = DispatcherHolds | RecoveryHolds

  /** The dispatching thread; the attempt number doubles as the identity of `done` and `cancel`. */
  datatype DispatcherPc =
    | Idle
    | Entered                   // Start holds recoveryMu, deadlines checked
    | Claimed(h: nat)           // active, cancel and done are set; next: store.Save
    | Saved(h: nat)             // next: runner.Start
    | SaveFailed(h: nat)        // next: recoveryPending = true
    | LaunchFailed(h: nat)      // next: store.Clear
    | ClearFailed(h: nat)       // next: recoveryPending = true
    | RollingBack(h: nat)       // next: rollbackStart, then Start returns its error
    | StartFailed(h: nat)       // next: RecordStartFailure's store.Save
    | FailureSaved(h: nat)      // next: recoveryPending = true
    | FailureBooked(h: nat)     // next: FinishCommand
    | FailureReported(h: nat)   // next: ClearStartFailure's store.Clear
    | FailureCleared            // next: recoveryPending = false

  datatype WaiterPc =
    | Waiting
    | Reporting(tries: nat)
    | Acknowledged              // next: store.Clear
    | Unreported                // next: recoveryPending = true
    | Cleared(ok: bool)         // next: recoveryPending = !ok
    | Finishing                 // next: the final lock section

  datatype RecoveryPc =
    | Out
    | In                        // holds recoveryMu; next: read active
    | Loading
    | NothingFound              // next: recoveryPending = false
    | Found(r: Record)          // next: FinishCommand
    | FoundReported(r: Record)  // next: store.Clear
    | FoundCleared              // next: recoveryPending = false

  datatype CloserPc = Captured(h: nat) | Blocked(h: nat)

  datatype World = World(
    record: Option<Record>,
    active: bool,
    recoveryPending: bool,
    cancel: Option<nat>,
    done: Option<nat>,
    recoveryMu: Option<Holder>,
    dispatcher: DispatcherPc,
    recovery: RecoveryPc,
    waiters: map<nat, WaiterPc>,
    closers: map<nat, CloserPc>,
    attempts: nat,              // attempts made so far; the next attempt gets this number
    launched: set<nat>,
    completed: set<nat>,
    cancelled: set<nat>,
    closes: seq<nat>,           // every close(done), in order
    acked: set<nat>,            // attempts whose FinishCommand was acknowledged
    owed: set<nat>              // attempts with a record written, not yet acknowledged nor rolled back
  )

  const INIT :=
    World(None, false, false, None, None, None, Idle, Out, map[], map[], 0, {}, {}, {}, [], {}, {})

  /** Why a start is refused: a deadline that passed before the lock section, an active session, a
      pending recovery, or a deadline that has passed by then. */
  datatype Refusal = TooLate | Busy | RecoveryFirst | ExpiredMeanwhile

  /** Start, with its rollback. In every step `ok` is the reply and `took` whether the file changed. */
  datatype StartStep =
    | Enter | Refuse(why: Refusal) | Claim | Save(ok: bool, took: bool) | BookSaveFailure
    | Launch(ok: bool) | RollbackClear(ok: bool, took: bool) | BookClearFailure | Rollback

  /** RecordStartFailure, the report, ClearStartFailure. */
  datatype FailureStep =
    | FailureSave(ok: bool, took: bool) | BookFailure | ReportFailure(ok: bool)
    | FailureClear(ok: bool, took: bool) | UnbookFailure

  /** awaitCompletion, with the end of the session it waits for. */
  datatype WaiterStep =
    | Complete | Expire | Wake | Report(ok: bool) | ClearRecord(ok: bool, took: bool) | Book | Finish

  datatype CloseStep = Miss | Capture | Cancel | Return | GiveUp

  datatype RecoveryStep =
    | RetryEnter | RetryCheck | RetryLoad(ok: bool) | RetryNothing | RetryReport(ok: bool)
    | RetryClear(ok: bool, took: bool) | RetryBook

  datatype Step =
    | ByStart(start: StartStep)
    | ByFailure(failure: FailureStep)
    | ByWaiter(h: nat, waiter: WaiterStep)
    | ByCloser(i: nat, close: CloseStep)
    | ByRecovery(retry: RecoveryStep)
    | Restart                       // the process dies and starts again

  predicate BookingFailure(d: DispatcherPc) {
    d.StartFailed? || d.FailureSaved? || d.FailureBooked? || d.FailureReported? || d.FailureCleared?
  }

  predicate StartEnabled(w: World, step: StartStep) {
    match step
    case Enter => w.dispatcher.Idle? && w.recoveryMu.None?
    case Refuse(why) =>
      && w.dispatcher.Entered?
      && (why.Busy? ==> w.active)
      && (why.RecoveryFirst? ==> !w.active && w.recoveryPending)
      && (why.ExpiredMeanwhile? ==> !w.active && !w.recoveryPending)
    case Claim => w.dispatcher.Entered? && !w.active && !w.recoveryPending
    case Save(ok, took) => w.dispatcher.Claimed? && (ok ==> took)
    case BookSaveFailure => w.dispatcher.SaveFailed?
    case Launch(_) => w.dispatcher.Saved?
    case RollbackClear(ok, took) => w.dispatcher.LaunchFailed? && (ok ==> took)
    case BookClearFailure => w.dispatcher.ClearFailed?
    case Rollback => w.dispatcher.RollingBack?
  }

  predicate FailureEnabled(w: World, step: FailureStep) {
    match step
    case FailureSave(ok, took) => w.dispatcher.StartFailed? && (ok ==> took)
    case BookFailure => w.dispatcher.FailureSaved?
    case ReportFailure(_) => w.dispatcher.FailureBooked?
    case FailureClear(ok, took) => w.dispatcher.FailureReported? && (ok ==> took)
    case UnbookFailure => w.dispatcher.FailureCleared?
  }

  predicate WaiterEnabled(w: World, h: nat, step: WaiterStep) {
    match step
    case Complete => h in w.launched
    case Expire => h in w.waiters
    case Wake => h in w.waiters && w.waiters[h].Waiting? && (h in w.completed || h in w.cancelled)
    case Report(_) => h in w.waiters && w.waiters[h].Reporting?
    case ClearRecord(ok, took) => h in w.waiters && w.waiters[h].Acknowledged? && (ok ==> took)
    case Book => h in w.waiters && (w.waiters[h].Cleared? || w.waiters[h].Unreported?)
    case Finish => h in w.waiters && w.waiters[h].Finishing?
  }

  predicate CloseEnabled(w: World, i: nat, step: CloseStep) {
    match step
    case Miss => i !in w.closers && !w.active
    case Capture => i !in w.closers && w.active && w.done.Some?
    case Cancel => i in w.closers && w.closers[i].Captured?
    case Return => i in w.closers && w.closers[i].Blocked? && w.closers[i].h in w.closes
    case GiveUp => i in w.closers && w.closers[i].Blocked?
  }

  predicate RecoveryEnabled(w: World, step: RecoveryStep) {
    match step
    case RetryEnter => w.recovery.Out? && w.recoveryMu.None? && !BookingFailure(w.dispatcher)
    case RetryCheck => w.recovery.In?
    case RetryLoad(_) => w.recovery.Loading?
    case RetryNothing => w.recovery.NothingFound?
    case RetryReport(_) => w.recovery.Found?
    case RetryClear(ok, took) => w.recovery.FoundReported? && (ok ==> took)
    case RetryBook => w.recovery.FoundCleared?
  }

  predicate Enabled(w: World, step: Step) {
    match step
    case ByStart(s) => StartEnabled(w, s)
    case ByFailure(s) => FailureEnabled(w, s)
    case ByWaiter(h, s) => WaiterEnabled(w, h, s)
    case ByCloser(i, s) => CloseEnabled(w, i, s)
    case ByRecovery(s) => RecoveryEnabled(w, s)
    case Restart => true
  }

  /** The final lock section of a waiter and of rollbackStart. */
  function Release(w: World, h: nat): World {
    if w.done == Some(h) then
      w.(active := false, cancel := None, done := None, closes := w.closes + [h])
    else w
  }

  function DoStart(w: World, step: StartStep): World
    requires StartEnabled(w, step)
  {
    match step
    case Enter => w.(dispatcher := Entered, recoveryMu := Some(DispatcherHolds))
    case Refuse(_) => w.(dispatcher := Idle, recoveryMu := None)
    case Claim =>
      var h := w.attempts;
      w.(dispatcher := Claimed(h), active := true, cancel := Some(h), done := Some(h), attempts := h + 1)
    case Save(ok, took) =>
      var h := w.dispatcher.h;
      w.(record := if took then Some(Record(h, false)) else w.record,
         owed := if took then w.owed + {h} else w.owed,
         dispatcher := if ok then Saved(h) else SaveFailed(h))
    case BookSaveFailure => w.(recoveryPending := true, dispatcher := RollingBack(w.dispatcher.h))
    case Launch(ok) =>
      var h := w.dispatcher.h;
      if ok then
        w.(launched := w.launched + {h}, waiters := w.waiters[h := Waiting], dispatcher := Idle, recoveryMu := None)
      else w.(dispatcher := LaunchFailed(h))
    case RollbackClear(ok, took) =>
      var h := w.dispatcher.h;
      w.(record := if took then None else w.record,
         owed := if took then w.owed - {h} else w.owed,
         dispatcher := if ok then RollingBack(h) else ClearFailed(h))
    case BookClearFailure => w.(recoveryPending := true, dispatcher := RollingBack(w.dispatcher.h))
    case Rollback =>
      var h := w.dispatcher.h;
      Release(w, h).(cancelled := w.cancelled + {h}, dispatcher := StartFailed(h), recoveryMu := None)
  }

  function DoFailure(w: World, step: FailureStep): World
    requires FailureEnabled(w, step)
  {
    match step
    case FailureSave(ok, took) =>
      var h := w.dispatcher.h;
      w.(record := if took then Some(Record(h, true)) else w.record,
         owed := if took then w.owed + {h} else w.owed,
         dispatcher := if ok then FailureSaved(h) else Idle)
    case BookFailure => w.(recoveryPending := true, dispatcher := FailureBooked(w.dispatcher.h))
    case ReportFailure(ok) =>
      var h := w.dispatcher.h;
      if ok then w.(acked := w.acked + {h}, owed := w.owed - {h}, dispatcher := FailureReported(h))
      else w.(dispatcher := Idle)
    case FailureClear(ok, took) =>
      w.(record := if took then None else w.record, dispatcher := if ok then FailureCleared else Idle)
    case UnbookFailure => w.(recoveryPending := false, dispatcher := Idle)
  }

  function DoWaiter(w: World, h: nat, step: WaiterStep): World
    requires WaiterEnabled(w, h, step)
  {
    match step
    case Complete => w.(completed := w.completed + {h})
    case Expire => w.(cancelled := w.cancelled + {h})
    case Wake => w.(waiters := w.waiters[h := Reporting(0)])
    case Report(ok) =>
      if ok then
        w.(acked := w.acked + {h}, owed := w.owed - {h}, waiters := w.waiters[h := Acknowledged])
      else
        var tries := w.waiters[h].tries + 1;
        w.(waiters := w.waiters[h := if tries < 3 then Reporting(tries) else Unreported])
    case ClearRecord(ok, took) =>
      w.(record := if took then None else w.record, waiters := w.waiters[h := Cleared(ok)])
    case Book =>
      w.(recoveryPending := w.waiters[h].Unreported? || !w.waiters[h].ok, waiters := w.waiters[h := Finishing])
    case Finish => Release(w, h).(waiters := w.waiters - {h})
  }

  function DoClose(w: World, i: nat, step: CloseStep): World
    requires CloseEnabled(w, i, step)
  {
    match step
    case Miss => w                          // no session to close
    case Capture => w.(closers := w.closers[i := Captured(w.done.value)])
    case Cancel =>
      var h := w.closers[i].h;
      w.(closers := w.closers[i := Blocked(h)], cancelled := w.cancelled + {h})
    case Return => w.(closers := w.closers - {i})
    case GiveUp => w.(closers := w.closers - {i})
  }

  function DoRecovery(w: World, step: RecoveryStep): World
    requires RecoveryEnabled(w, step)
  {
    match step
    case RetryEnter => w.(recovery := In, recoveryMu := Some(RecoveryHolds))
    case RetryCheck =>
      if w.active then w.(recovery := Out, recoveryMu := None) else w.(recovery := Loading)
    case RetryLoad(ok) =>
      if !ok then w.(recovery := Out, recoveryMu := None)
      else w.(recovery := if w.record.None? then NothingFound else Found(w.record.value))
    case RetryNothing => w.(recoveryPending := false, recovery := Out, recoveryMu := None)
    case RetryReport(ok) =>
      var r := w.recovery.r;
      if ok then w.(acked := w.acked + {r.attempt}, owed := w.owed - {r.attempt}, recovery := FoundReported(r))
      else w.(recovery := Out, recoveryMu := None)
    case RetryClear(ok, took) =>
      w.(record := if took then None else w.record,
         recovery := if ok then FoundCleared else Out,
         recoveryMu := if ok then w.recoveryMu else None)
    case RetryBook => w.(recoveryPending := false, recovery := Out, recoveryMu := None)
  }

  /** A new process: NewManager derives recoveryPending from the record; every session died. */
  function Reboot(w: World): World {
    w.(active := false, recoveryPending := w.record.Some?, cancel := None, done := None, recoveryMu := None,
       dispatcher := Idle, recovery := Out, waiters := map[], closers := map[], completed := w.launched)
  }

  function Do(w: World, step: Step): World
    requires Enabled(w, step)
  {
    match step
    case ByStart(s) => DoStart(w, s)
    case ByFailure(s) => DoFailure(w, s)
    case ByWaiter(h, s) => DoWaiter(w, h, s)
    case ByCloser(i, s) => DoClose(w, i, s)
    case ByRecovery(s) => DoRecovery(w, s)
    case Restart => Reboot(w)
  }

  datatype Run = Begin | Then(past: Run, last: Step)

  predicate IsRun(run: Run)
    decreases run, 0
  {
    match run
    case Begin => true
    case Then(past, last) => IsRun(past) && Enabled(After(past), last)
  }

  function After(run: Run): World
    requires IsRun(run)
    decreases run, 1
  {
    match run
    case Begin => INIT
    case Then(past, last) => Do(After(past), last)
  }

  // ---------- What is to hold ----------

  /** A record on disk is announced by `active` or `recoveryPending`, which is what stops
      Start. The one exception is invisible to Start: the dispatching thread itself is
      between RecordStartFailure's Save and its booking. */
  predicate Protected(w: World) {
    w.record.Some? ==> w.active || w.recoveryPending || w.dispatcher.FailureSaved?
  }

  /** Every record written and neither acknowledged nor rolled back is still on disk. */
  predicate NothingLost(w: World) {
    forall h :: h in w.owed ==> w.record.Some? && w.record.value.attempt == h
  }

  /** The step that breaks it: RecordStartFailure's Save fails after the rename
      while recovery is not already pending. */
  predicate LateFailure(w: World, step: Step) {
    step == ByFailure(FailureSave(false, true)) && !w.recoveryPending
  }

  /** A late failure has happened in the life of this process, and the record it left is there. */
  ghost predicate Late(run: Run)
    requires IsRun(run)
  {
    match run
    case Begin => false
    case Then(past, last) =>
      LateFailure(After(past), last) || (Late(past) && !last.Restart? && After(run).record.Some?)
  }

  /** No start got in after a late failure: the process was restarted first, or the record
      was recovered. */
  ghost predicate Clean(run: Run)
    requires IsRun(run)
  {
    match run
    case Begin => true
    case Then(past, last) => Clean(past) && !(last == ByStart(Claim) && Late(past))
  }

  /** The same since the process was last started. */
  ghost predicate Steady(run: Run)
    requires IsRun(run)
  {
    match run
    case Begin => true
    case Then(past, last) => last.Restart? || (Steady(past) && !(last == ByStart(Claim) && Late(past)))
  }

  lemma {:induction false} CleanIsSteady(run: Run)
    requires IsRun(run) && Clean(run)
    ensures Steady(run)
  {
    if run.Then? { CleanIsSteady(run.past); }
  }

  /** The process was never restarted. */
  predicate Uninterrupted(run: Run) {
    run.Begin? || (!run.last.Restart? && Uninterrupted(run.past))
  }

  // ---------- The invariant ----------

  predicate Starting(d: DispatcherPc) {
    d.Claimed? || d.Saved? || d.SaveFailed? || d.LaunchFailed? || d.ClearFailed? || d.RollingBack?
  }

  predicate RecordOf(w: World, h: nat) {
    w.record.Some? && w.record.value.attempt == h
  }

  predicate RecordAtMost(w: World, h: nat) {
    w.record.Some? ==> w.record.value.attempt == h
  }

  ghost predicate LockInv(w: World) {
    && w.cancel == w.done
    && (w.active <==> w.done.Some?)
    && (w.recoveryMu == Some(DispatcherHolds) <==> Starting(w.dispatcher) || w.dispatcher.Entered?)
    && (w.recoveryMu == Some(RecoveryHolds) <==> !w.recovery.Out?)
    && (BookingFailure(w.dispatcher) ==> w.recovery.Out? && !w.active)
    && (!w.recovery.Out? && !w.recovery.In? ==> !w.active)
    && (forall h :: h in w.waiters ==> w.done == Some(h))
    && (Starting(w.dispatcher) ==> w.done == Some(w.dispatcher.h) && w.waiters == map[])
    && (w.active ==> Starting(w.dispatcher) || w.done.value in w.waiters)
  }

  ghost predicate DispatcherInv(w: World) {
    match w.dispatcher
    case Claimed(h) => w.record.None? && !w.recoveryPending
    case Saved(h) => RecordOf(w, h) && !w.recoveryPending
    case SaveFailed(h) => RecordAtMost(w, h)
    case LaunchFailed(h) => RecordOf(w, h)
    case ClearFailed(h) => RecordAtMost(w, h)
    case RollingBack(h) => RecordAtMost(w, h) && (w.record.Some? ==> w.recoveryPending)
    case StartFailed(h) => RecordAtMost(w, h)
    case FailureSaved(h) => RecordOf(w, h)
    case FailureBooked(h) => RecordOf(w, h) && w.recoveryPending
    case FailureReported(h) => RecordOf(w, h) && w.recoveryPending && h in w.acked && h !in w.owed
    case FailureCleared => w.record.None?
    case _ => true
  }

  ghost predicate WaitersInv(w: World) {
    forall h :: h in w.waiters ==>
      match w.waiters[h]
      case Waiting => RecordOf(w, h)
      case Reporting(tries) => tries < 3 && RecordOf(w, h)
      case Acknowledged => RecordOf(w, h) && h in w.acked && h !in w.owed
      case Unreported => RecordOf(w, h)
      case Cleared(ok) => RecordAtMost(w, h) && (ok ==> w.record.None?) && h in w.acked && h !in w.owed
      case Finishing => RecordAtMost(w, h) && (w.record.Some? ==> w.recoveryPending)
  }

  ghost predicate RecoveryInv(w: World) {
    match w.recovery
    case NothingFound => w.record.None?
    case Found(r) => w.record == Some(r)
    case FoundReported(r) => w.record == Some(r) && r.attempt in w.acked && r.attempt !in w.owed
    case FoundCleared => w.record.None?
    case _ => true
  }

  ghost predicate SessionInv(w: World) {
    && (forall h :: h in w.launched ==>
          h in w.completed || h in w.cancelled || (h in w.waiters && w.waiters[h].Waiting?))
    && (forall h :: h in w.launched || Some(h) == w.done ==> h < w.attempts)
    && (forall h :: h in w.closes ==> h < w.attempts && w.done != Some(h))
    && (forall i, j :: 0 <= i < j < |w.closes| ==> w.closes[i] != w.closes[j])
  }

  /** Who runs and who holds what: kept by every step. */
  ghost predicate ControlInv(w: World) {
    LockInv(w) && SessionInv(w)
  }

  /** What the disk holds and who knows: kept by every step but a start over a late failure. */
  ghost predicate RecordInv(w: World) {
    && DispatcherInv(w) && WaitersInv(w) && RecoveryInv(w)
    && (w.dispatcher.Idle? || w.dispatcher.Entered? || Protected(w))
  }

  /** Nobody knows of the record on disk. */
  predicate Exposed(w: World) {
    && w.record.Some? && !w.active && !w.recoveryPending
    && (w.dispatcher.Idle? || w.dispatcher.Entered?)
  }

  // ---------- Preservation ----------

  lemma StartControl(w: World, step: StartStep)
    requires ControlInv(w) && StartEnabled(w, step)
    ensures ControlInv(DoStart(w, step))
  {}

  lemma WaiterControl(w: World, h: nat, step: WaiterStep)
    requires ControlInv(w) && WaiterEnabled(w, h, step)
    ensures ControlInv(DoWaiter(w, h, step))
  {}

  lemma CloseControl(w: World, i: nat, step: CloseStep)
    requires ControlInv(w) && CloseEnabled(w, i, step)
    ensures ControlInv(DoClose(w, i, step))
  {}

  lemma FailureControl(w: World, step: FailureStep)
    requires ControlInv(w) && FailureEnabled(w, step)
    ensures ControlInv(DoFailure(w, step))
  {}

  lemma RecoveryControl(w: World, step: RecoveryStep)
    requires ControlInv(w) && RecoveryEnabled(w, step)
    ensures ControlInv(DoRecovery(w, step))
  {}

  lemma RestartInv(w: World)
    requires ControlInv(w)
    ensures ControlInv(Reboot(w)) && RecordInv(Reboot(w)) && Protected(Reboot(w))
  {}

  lemma StepControl(w: World, step: Step)
    requires ControlInv(w) && Enabled(w, step)
    ensures ControlInv(Do(w, step))
  {
    match step
    case ByStart(s) => StartControl(w, s);
    case ByWaiter(h, s) => WaiterControl(w, h, s);
    case ByFailure(s) => FailureControl(w, s);
    case ByCloser(i, s) => CloseControl(w, i, s);
    case ByRecovery(s) => RecoveryControl(w, s);
    case Restart => RestartInv(w);
  }

  lemma StartRecord(w: World, step: StartStep)
    requires ControlInv(w) && RecordInv(w) && StartEnabled(w, step) && (step.Claim? ==> w.record.None?)
    ensures RecordInv(DoStart(w, step))
  {}

  lemma FailureRecord(w: World, step: FailureStep)
    requires ControlInv(w) && RecordInv(w) && FailureEnabled(w, step)
    ensures RecordInv(DoFailure(w, step))
  {}

  lemma WaiterRecord(w: World, h: nat, step: WaiterStep)
    requires ControlInv(w) && RecordInv(w) && WaiterEnabled(w, h, step)
    ensures RecordInv(DoWaiter(w, h, step))
  {}

  lemma RecoveryRecord(w: World, step: RecoveryStep)
    requires ControlInv(w) && RecordInv(w) && RecoveryEnabled(w, step)
    ensures RecordInv(DoRecovery(w, step))
  {}

  lemma CloseRecord(w: World, i: nat, step: CloseStep)
    requires ControlInv(w) && RecordInv(w) && CloseEnabled(w, i, step)
    ensures RecordInv(DoClose(w, i, step))
  {}

  lemma StepRecord(w: World, step: Step)
    requires ControlInv(w) && RecordInv(w) && Enabled(w, step) && (step == ByStart(Claim) ==> w.record.None?)
    ensures RecordInv(Do(w, step))
  {
    match step
    case ByStart(s) => StartRecord(w, s);
    case ByFailure(s) => FailureRecord(w, s);
    case ByWaiter(h, s) => WaiterRecord(w, h, s);
    case ByRecovery(s) => RecoveryRecord(w, s);
    case ByCloser(i, s) => CloseRecord(w, i, s);
    case Restart => RestartInv(w);
  }

  lemma {:induction false} RunControl(run: Run)
    requires IsRun(run)
    ensures ControlInv(After(run))
  {
    match run
    case Begin =>
    case Then(past, last) =>
      RunControl(past);
      StepControl(After(past), last);
  }

  lemma StartLoses(w: World, step: StartStep)
    requires ControlInv(w) && RecordInv(w) && NothingLost(w) && StartEnabled(w, step)
    ensures NothingLost(DoStart(w, step))
  {}

  lemma FailureLoses(w: World, step: FailureStep)
    requires ControlInv(w) && RecordInv(w) && NothingLost(w) && FailureEnabled(w, step)
    ensures NothingLost(DoFailure(w, step))
  {}

  lemma WaiterLoses(w: World, h: nat, step: WaiterStep)
    requires ControlInv(w) && RecordInv(w) && NothingLost(w) && WaiterEnabled(w, h, step)
    ensures NothingLost(DoWaiter(w, h, step))
  {}

  lemma RecoveryLoses(w: World, step: RecoveryStep)
    requires ControlInv(w) && RecordInv(w) && NothingLost(w) && RecoveryEnabled(w, step)
    ensures NothingLost(DoRecovery(w, step))
  {}

  lemma StepLosesNothing(w: World, step: Step)
    requires ControlInv(w) && RecordInv(w) && NothingLost(w) && Enabled(w, step)
    ensures NothingLost(Do(w, step))
  {
    match step
    case ByStart(s) => StartLoses(w, s);
    case ByFailure(s) => FailureLoses(w, s);
    case ByWaiter(h, s) => WaiterLoses(w, h, s);
    case ByRecovery(s) => RecoveryLoses(w, s);
    case _ =>
  }

  /** An announced record stays announced, but for the late failure. */
  lemma StepAnnounced(w: World, step: Step)
    requires ControlInv(w) && RecordInv(w) && Protected(w) && Enabled(w, step)
    ensures if LateFailure(w, step) then Exposed(Do(w, step)) else Protected(Do(w, step))
  {
    if !LateFailure(w, step) {
      match step
      case ByStart(s) => StartAnnounced(w, s);
      case ByFailure(s) => FailureAnnounced(w, s);
      case ByWaiter(h, s) => WaiterAnnounced(w, h, s);
      case ByCloser(_, _) =>
      case ByRecovery(_) =>
      case Restart =>
    }
  }

  lemma StartAnnounced(w: World, step: StartStep)
    requires ControlInv(w) && RecordInv(w) && Protected(w) && StartEnabled(w, step)
    ensures Protected(DoStart(w, step))
  {}

  lemma FailureAnnounced(w: World, step: FailureStep)
    requires ControlInv(w) && RecordInv(w) && Protected(w) && FailureEnabled(w, step)
    requires !LateFailure(w, ByFailure(step))
    ensures Protected(DoFailure(w, step))
  {}

  lemma WaiterAnnounced(w: World, h: nat, step: WaiterStep)
    requires ControlInv(w) && RecordInv(w) && Protected(w) && WaiterEnabled(w, h, step)
    ensures Protected(DoWaiter(w, h, step))
  {}

  /** An exposed record stays exposed until it is gone, the process restarts or a start gets in. */
  lemma StepExposed(w: World, step: Step)
    requires ControlInv(w) && RecordInv(w) && Exposed(w) && Enabled(w, step) && step != ByStart(Claim)
    ensures !LateFailure(w, step)
    ensures if step.Restart? || Do(w, step).record.None? then Protected(Do(w, step)) else Exposed(Do(w, step))
  {}

  lemma {:induction false} RunRecord(run: Run)
    requires IsRun(run) && Steady(run)
    ensures RecordInv(After(run))
    ensures if Late(run) then Exposed(After(run)) else Protected(After(run))
  {
    match run
    case Begin =>
    case Then(past, last) =>
      RunControl(past);
      if last.Restart? {
        RestartInv(After(past));
      } else {
        RunRecord(past);
        StepRecord(After(past), last);
        if Late(past) {
          StepExposed(After(past), last);
        } else {
          StepAnnounced(After(past), last);
        }
      }
  }

  lemma {:induction false} RunLosesNothing(run: Run)
    requires IsRun(run) && Clean(run)
    ensures NothingLost(After(run))
  {
    match run
    case Begin =>
    case Then(past, last) =>
      RunControl(past);
      CleanIsSteady(past);
      RunRecord(past);
      RunLosesNothing(past);
      StepLosesNothing(After(past), last);
  }

  // ---------- The recovery record ----------

  /** A record on disk is announced, at every point another thread can look at, except exactly
      while a late failure is not healed; and every unacknowledged record that was not rolled
      back is the one on disk. */
  lemma {:induction false} RecordIsAnnounced(run: Run)
    requires IsRun(run) && Steady(run)
    ensures Protected(After(run)) <==> !Late(run)
    ensures Clean(run) ==> NothingLost(After(run))
  {
    RunRecord(run);
    if Clean(run) { RunLosesNothing(run); }
  }

  /** Start writes its record over nothing: whenever it is about to save, the disk is empty. */
  lemma {:induction false} StartFindsNoRecord(run: Run)
    requires IsRun(run) && Steady(run)
    ensures After(run).dispatcher.Claimed? ==> After(run).record.None?
    ensures After(run).dispatcher.Claimed? && Clean(run) ==> After(run).owed == {}
  {
    RunRecord(run);
    if After(run).dispatcher.Claimed? && Clean(run) {
      RunLosesNothing(run);
      assert forall h :: h in After(run).owed ==> false;
    }
  }

  /** A start gets in over a record exactly while a late failure is not healed. */
  lemma {:induction false} StartGetsInOverRecordIff(run: Run)
    requires IsRun(run) && Steady(run) && Enabled(After(run), ByStart(Claim))
    ensures After(run).record.Some? <==> Late(run)
  {
    RunRecord(run);
  }

  /** The only step that ends the announcement. */
  lemma {:induction false} AnnouncementBreaksIff(run: Run, step: Step)
    requires IsRun(run) && Steady(run) && !Late(run) && Enabled(After(run), step)
    ensures Protected(Do(After(run), step)) <==> !LateFailure(After(run), step)
  {
    RunControl(run);
    RunRecord(run);
    StepAnnounced(After(run), step);
  }

  /** And what brings it back, short of a start: a restart, or the end of the record. */
  lemma {:induction false} AnnouncementHealsIff(run: Run, step: Step)
    requires IsRun(run) && Steady(run) && Late(run) && Enabled(After(run), step) && step != ByStart(Claim)
    ensures Protected(Do(After(run), step)) <==> step.Restart? || Do(After(run), step).record.None?
  {
    RunControl(run);
    RunRecord(run);
    StepExposed(After(run), step);
  }

  predicate Ready(w: World) {
    w.dispatcher.Idle? && !w.active && !w.recoveryPending && w.recoveryMu.None?
  }

  lemma LateMeansRecord(run: Run)
    requires IsRun(run)
    ensures Late(run) ==> After(run).record.Some?
  {}

  /** From a state in which Start is let in: enter and claim. */
  lemma ClaimedStart(past: Run) returns (run: Run)
    requires IsRun(past) && Ready(After(past))
    ensures IsRun(run) && (Clean(run) <==> Clean(past) && !Late(past)) && (Late(run) ==> Late(past))
    ensures Uninterrupted(run) <==> Uninterrupted(past)
    ensures var w, h := After(past), After(past).attempts;
            After(run) == w.(recoveryMu := Some(DispatcherHolds), dispatcher := Claimed(h), active := true,
                             cancel := Some(h), done := Some(h), attempts := h + 1)
  {
    LateMeansRecord(past);
    var r1 := Then(past, ByStart(Enter));
    assert IsRun(r1) && After(r1) == After(past).(recoveryMu := Some(DispatcherHolds), dispatcher := Entered);
    assert (Clean(r1) <==> Clean(past)) && (Late(r1) <==> Late(past));
    assert Uninterrupted(r1) <==> Uninterrupted(past);
    run := Then(r1, ByStart(Claim));
    assert (Clean(run) <==> Clean(r1) && !Late(r1)) && (Late(run) ==> Late(r1));
    assert Uninterrupted(run) <==> Uninterrupted(r1);
  }

  /** And save. */
  lemma SavedStart(past: Run) returns (run: Run)
    requires IsRun(past) && Ready(After(past))
    ensures IsRun(run) && (Clean(run) <==> Clean(past) && !Late(past)) && (Late(run) ==> Late(past))
    ensures Uninterrupted(run) <==> Uninterrupted(past)
    ensures var w, h := After(past), After(past).attempts;
            After(run) == w.(recoveryMu := Some(DispatcherHolds), dispatcher := Saved(h), active := true,
                             cancel := Some(h), done := Some(h), attempts := h + 1,
                             record := Some(Record(h, false)), owed := w.owed + {h})
  {
    var r2 := ClaimedStart(past);
    run := Then(r2, ByStart(Save(true, true)));
    assert IsRun(run);
    assert (Clean(run) <==> Clean(r2)) && (Late(run) ==> Late(r2));
    assert Uninterrupted(run) <==> Uninterrupted(r2);
  }

  /** A launch that fails and is rolled back cleanly. */
  lemma FailedLaunch() returns (run: Run)
    ensures IsRun(run) && Clean(run) && !Late(run)
    ensures After(run).dispatcher == StartFailed(0) && After(run).attempts == 1
    ensures After(run).record.None? && After(run).acked == {} && Uninterrupted(run)
    ensures !After(run).recoveryPending && !After(run).active && After(run).recoveryMu.None?
  {
    var r3 := SavedStart(Begin);
    var r4 := Then(r3, ByStart(Launch(false)));
    assert IsRun(r4) && After(r4).dispatcher == LaunchFailed(0);
    var r5 := Then(r4, ByStart(RollbackClear(true, true)));
    assert IsRun(r5) && After(r5).dispatcher == RollingBack(0) && After(r5).done == Some(0);
    run := Then(r5, ByStart(Rollback));
  }

  /** And it does lose a record: after a failed launch, recording that failure fails behind
      the rename, and the next Start overwrites the unreported record. */
  lemma LateFailureLosesARecord()
    ensures exists run: Run :: IsRun(run) && !Clean(run) && !NothingLost(After(run))
  {
    var r6 := FailedLaunch();
    var r7 := Then(r6, ByFailure(FailureSave(false, true)));
    assert IsRun(r7) && Clean(r7) && Late(r7) && Ready(After(r7)) && 0 in After(r7).owed;
    var r10 := SavedStart(r7);
    assert 0 in After(r10).owed && After(r10).record == Some(Record(1, false));
    assert !NothingLost(After(r10));
  }

  predicate Earned(w: World, step: Step, h: nat) {
    h in w.acked || (step.ByStart? && step.start.RollbackClear? && w.dispatcher == LaunchFailed(h))
  }

  lemma StartRemoval(w: World, step: StartStep)
    requires ControlInv(w) && RecordInv(w) && StartEnabled(w, step) && w.record.Some?
    ensures var h := w.record.value.attempt;
            RecordOf(DoStart(w, step), h) || (DoStart(w, step).record.None? && Earned(w, ByStart(step), h))
  {}

  lemma FailureRemoval(w: World, step: FailureStep)
    requires ControlInv(w) && RecordInv(w) && FailureEnabled(w, step) && w.record.Some?
    ensures var h := w.record.value.attempt;
            RecordOf(DoFailure(w, step), h) || (DoFailure(w, step).record.None? && h in w.acked)
  {}

  lemma WaiterRemoval(w: World, g: nat, step: WaiterStep)
    requires ControlInv(w) && RecordInv(w) && WaiterEnabled(w, g, step) && w.record.Some?
    ensures var h := w.record.value.attempt;
            RecordOf(DoWaiter(w, g, step), h) || (DoWaiter(w, g, step).record.None? && h in w.acked)
  {}

  lemma RecoveryRemoval(w: World, step: RecoveryStep)
    requires ControlInv(w) && RecordInv(w) && RecoveryEnabled(w, step) && w.record.Some?
    ensures var h := w.record.value.attempt;
            RecordOf(DoRecovery(w, step), h) || (DoRecovery(w, step).record.None? && h in w.acked)
  {}

  lemma StepRemoval(w: World, step: Step)
    requires ControlInv(w) && RecordInv(w) && Enabled(w, step) && w.record.Some?
    ensures var h := w.record.value.attempt;
            RecordOf(Do(w, step), h) || (Do(w, step).record.None? && Earned(w, step, h))
  {
    match step
    case ByStart(s) => StartRemoval(w, s);
    case ByFailure(s) => FailureRemoval(w, s);
    case ByWaiter(g, s) => WaiterRemoval(w, g, s);
    case ByRecovery(s) => RecoveryRemoval(w, s);
    case _ =>
  }

  /** A record leaves the disk only after the FinishCommand of its own attempt was
      acknowledged, or by the rollback of its own launch; nothing replaces it. */
  lemma {:induction false} RemovalIsEarned(run: Run, step: Step)
    requires IsRun(run) && Steady(run) && Enabled(After(run), step)
    requires After(run).record.Some?
    ensures var h := After(run).record.value.attempt;
            || RecordOf(Do(After(run), step), h)
            || (Do(After(run), step).record.None? && Earned(After(run), step, h))
  {
    RunControl(run);
    RunRecord(run);
    StepRemoval(After(run), step);
  }

  // ---------- Every attempt is accounted for, or not ----------

  predicate AtAttempt(d: DispatcherPc, h: nat) {
    && (Starting(d) || d.StartFailed? || d.FailureSaved? || d.FailureBooked? || d.FailureReported?)
    && d.h == h
  }

  /** The attempt is reported, recorded, or still in the dispatching thread's hands. */
  predicate Accounted(w: World, h: nat) {
    h in w.acked || RecordOf(w, h) || AtAttempt(w.dispatcher, h)
  }

  /** The dispatching thread lets go of an attempt that is neither reported nor recorded: the
      process dies, or RecordStartFailure's Save fails without effect. */
  predicate LetsGo(w: World, step: Step, h: nat) {
    && AtAttempt(w.dispatcher, h) && h !in w.acked && w.record.None?
    && (step.Restart? || (step == ByFailure(FailureSave(false, false))))
  }

  lemma AccountEndsIff(w: World, step: Step, h: nat)
    requires ControlInv(w) && RecordInv(w) && Enabled(w, step) && Accounted(w, h)
    ensures !Accounted(Do(w, step), h) <==> LetsGo(w, step, h)
  {
    match step
    case ByStart(s) => StartAccounts(w, s, h);
    case ByFailure(s) => FailureAccounts(w, s, h);
    case ByWaiter(g, s) => WaiterAccounts(w, g, s, h);
    case _ =>
  }

  lemma StartAccounts(w: World, step: StartStep, h: nat)
    requires ControlInv(w) && RecordInv(w) && StartEnabled(w, step)
    ensures Accounted(w, h) ==> Accounted(DoStart(w, step), h)
    ensures h < w.attempts && !Accounted(w, h) ==> !Accounted(DoStart(w, step), h)
  {}

  lemma FailureAccounts(w: World, step: FailureStep, h: nat)
    requires ControlInv(w) && RecordInv(w) && FailureEnabled(w, step)
    ensures Accounted(w, h) ==> (!Accounted(DoFailure(w, step), h) <==> LetsGo(w, ByFailure(step), h))
    ensures !Accounted(w, h) ==> !Accounted(DoFailure(w, step), h)
  {}

  lemma WaiterAccounts(w: World, g: nat, step: WaiterStep, h: nat)
    requires ControlInv(w) && RecordInv(w) && WaiterEnabled(w, g, step)
    ensures Accounted(w, h) <==> Accounted(DoWaiter(w, g, step), h)
  {}

  lemma StaysUnaccounted(w: World, step: Step, h: nat)
    requires ControlInv(w) && RecordInv(w) && Enabled(w, step) && h < w.attempts && !Accounted(w, h)
    ensures !Accounted(Do(w, step), h)
  {
    match step
    case ByStart(s) => StartAccounts(w, s, h);
    case ByFailure(s) => FailureAccounts(w, s, h);
    case ByWaiter(g, s) => WaiterAccounts(w, g, s, h);
    case _ =>
  }

  /** Some step of the history let go of the attempt. */
  ghost predicate Forsaken(run: Run, h: nat)
    requires IsRun(run)
  {
    match run
    case Begin => false
    case Then(past, last) => Forsaken(past, h) || (h < After(past).attempts && LetsGo(After(past), last, h))
  }

  lemma AttemptsGrow(w: World, step: Step)
    requires Enabled(w, step)
    ensures Do(w, step).attempts == if step == ByStart(Claim) then w.attempts + 1 else w.attempts
  {
    match step
    case ByStart(s) =>
    case ByFailure(s) =>
    case ByWaiter(h, s) => WaiterAttempts(w, h, s);
    case _ =>
  }

  lemma WaiterAttempts(w: World, h: nat, step: WaiterStep)
    requires WaiterEnabled(w, h, step)
    ensures DoWaiter(w, h, step).attempts == w.attempts
  {}

  lemma {:induction false} ForsakenWasMade(run: Run, h: nat)
    requires IsRun(run) && Forsaken(run, h)
    ensures h < After(run).attempts
  {
    AttemptsGrow(After(run.past), run.last);
    if Forsaken(run.past, h) { ForsakenWasMade(run.past, h); }
  }

  /** The attempts made before the process was last started. */
  function Inherited(run: Run): nat
    requires IsRun(run)
  {
    match run
    case Begin => 0
    case Then(past, last) => if last.Restart? then After(past).attempts else Inherited(past)
  }

  /** Every attempt is reported, recorded or in hand, exactly unless some step let go of it; and
      that is never made good. It holds of all attempts in a clean history, and in a steady one
      of those made since the process was last started. */
  lemma {:induction false} AccountedIff(run: Run, h: nat)
    requires IsRun(run) && Steady(run) && (Clean(run) || Inherited(run) <= h) && h < After(run).attempts
    ensures Accounted(After(run), h) <==> !Forsaken(run, h)
  {
    var w, step := After(run.past), run.last;
    AttemptsGrow(w, step);
    RunControl(run.past);
    if Clean(run) { CleanIsSteady(run.past); }
    RunRecord(run.past);
    if h < w.attempts {
      AccountedIff(run.past, h);
      if Accounted(w, h) {
        AccountEndsIff(w, step, h);
      } else {
        StaysUnaccounted(w, step, h);
      }
    } else {
      assert step == ByStart(Claim);
      if Forsaken(run.past, h) { ForsakenWasMade(run.past, h); }
    }
  }

  /** Dying between the rollback and RecordStartFailure leaves neither record nor report. */
  lemma CrashForsakes()
    ensures exists run: Run ::
              && IsRun(run) && Clean(run) && Forsaken(run, 0)
              && After(run).record.None? && After(run).acked == {} && !After(run).recoveryPending
  {
    var r6 := FailedLaunch();
    var r7 := Then(r6, Restart);
    assert IsRun(r7) && Clean(r7) && Forsaken(r7, 0);
  }

  /** And so does, without any crash, a RecordStartFailure whose Save fails without effect. */
  lemma FailedSaveForsakes()
    ensures exists run: Run ::
              && IsRun(run) && Clean(run) && Uninterrupted(run) && Forsaken(run, 0)
              && After(run).record.None? && After(run).acked == {} && !After(run).recoveryPending
  {
    var r6 := FailedLaunch();
    var r7 := Then(r6, ByFailure(FailureSave(false, false)));
    assert IsRun(r7) && Clean(r7) && Uninterrupted(r7) && Forsaken(r7, 0);
  }

  // ---------- Mutual exclusion without a common lock ----------

  predicate StartAtStore(w: World) {
    w.dispatcher.Claimed? || w.dispatcher.LaunchFailed?
  }

  predicate FailureAtStore(w: World) {
    w.dispatcher.StartFailed? || w.dispatcher.FailureReported?
  }

  predicate WaiterAtStore(w: World, h: nat) {
    h in w.waiters && w.waiters[h].Acknowledged?
  }

  predicate RecoveryAtStore(w: World) {
    w.recovery.Loading? || w.recovery.FoundReported?
  }

  /** Two threads are never both at a store call. */
  lemma {:induction false} StoreExclusion(run: Run, h: nat, h': nat)
    requires IsRun(run)
    ensures var w := After(run);
            && !((StartAtStore(w) || FailureAtStore(w)) && WaiterAtStore(w, h))
            && !((StartAtStore(w) || FailureAtStore(w)) && RecoveryAtStore(w))
            && !(WaiterAtStore(w, h) && RecoveryAtStore(w))
            && (WaiterAtStore(w, h) && WaiterAtStore(w, h') ==> h == h')
  {
    RunControl(run);
  }

  // ---------- Session ownership ----------

  /** `active`, `cancel` and `done` are one fact; no `done` is closed twice; at most one
      launched session is neither completed nor cancelled, and it is the active one. */
  lemma {:induction false} OneSession(run: Run, h: nat, h': nat)
    requires IsRun(run)
    ensures var w := After(run);
            && (w.active <==> w.done.Some?) && w.cancel == w.done
            && multiset(w.closes)[h] <= 1
            && (h in w.launched && h !in w.completed && h !in w.cancelled ==> w.done == Some(h))
            && (h in w.launched - w.completed - w.cancelled && h' in w.launched - w.completed - w.cancelled ==> h == h')
  {
    RunControl(run);
    DistinctCount(After(run).closes, h);
  }

  /** When Close returns nil for session h, its waiter is gone (or its launch was rolled
      back), the session slot is not h's, and its record is cleared or announced. */
  lemma {:induction false} CloseMeansDone(run: Run, i: nat)
    requires IsRun(run) && Steady(run)
    requires CloseEnabled(After(run), i, Return)
    ensures var w := After(run);
            var h := w.closers[i].h;
            && h !in w.waiters && w.done != Some(h)
            && (RecordOf(w, h) ==> w.recoveryPending || w.dispatcher == FailureSaved(h) || Late(run))
            && (h in w.launched ==> h in w.completed || h in w.cancelled)
  {
    RunControl(run);
    RunRecord(run);
  }
}
