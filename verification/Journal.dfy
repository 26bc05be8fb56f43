/** The command journal as a step machine on values.

    One durable cell (the pending-command file), one volatile program counter
    (the only dispatching thread), the server's set of terminal commands, and the
    histories the theorems talk about. A crash may happen between any two steps;
    a crash inside a call is the same as that call failing, with or without effect. */
module Journal {
  import opened Common

  // ---------- Commands and results ----------

  datatype EnvironmentOp = Create | Start | Stop | Restore | Delete

  /** The four journaled kinds of command. */
  datatype Kind =
    | Shutdown
    | Environment(op: EnvironmentOp)
    | ImageDeployment
    | DockerInventory

  datatype Command = Command(id: string, lease: string, kind: Kind)

  /** The text of an error is carried along already bounded and cleaned. */
  datatype Failure = Cancelled(text: string) | ImageExists(text: string) | OtherFailure(text: string)

  /** What one execution returns. `Denied` is the refusal of an environment command
      whose operation grant is missing or expired: the executor is not called. */
  datatype Outcome =
    | Denied
    | Completed(details: string, alreadyPresent: bool)
    | Broken(failure: Failure)

  /** The result codes of the journaled commands. */
  datatype Code =
    | EXECUTION_OUTCOME_UNKNOWN
    | SHUTDOWN_ACCEPTED | SHUTDOWN_FAILED | COMMAND_CANCELLED
    | ENVIRONMENT_CREATED | ENVIRONMENT_STARTED | ENVIRONMENT_STOPPED | ENVIRONMENT_RESTORED | ENVIRONMENT_DELETED
    | ENVIRONMENT_EXECUTION_FAILED | ENVIRONMENT_OPERATION_NOT_GRANTED
    | SUCCEEDED | IMAGE_ALREADY_PRESENT | IMAGE_EXISTS | IMAGE_DEPLOYMENT_FAILED
    | DOCKER_INVENTORY_FAILED

  /** `Standard` is the fixed sentence that goes with the code; the unknown outcome has one
      wording of its own when the image-deployment path finds the intent. */
  datatype Message = Standard | ImageRestarted | FromError(text: string)

  datatype CommandResult =
    CommandResult(lease: string, success: bool, code: Code, message: Message, details: string)

  datatype StoredCommand = StoredCommand(id: string, lease: string, result: Option<CommandResult>)

  function Intent(c: Command): StoredCommand {
    StoredCommand(c.id, c.lease, None)
  }

  /** The result reported for an intent found without an outcome. */
  function Unknown(s: StoredCommand, image: bool): StoredCommand {
    s.(result := Some(CommandResult(s.lease, false, EXECUTION_OUTCOME_UNKNOWN,
                                    if image then ImageRestarted else Standard, "")))
  }

  predicate IsEnvironmentStop(k: Kind) {
    k == Environment(Stop)
  }

  function EnvironmentCode(op: EnvironmentOp): Code {
    match op
    case Create => ENVIRONMENT_CREATED
    case Start => ENVIRONMENT_STARTED
    case Stop => ENVIRONMENT_STOPPED
    case Restore => ENVIRONMENT_RESTORED
    case Delete => ENVIRONMENT_DELETED
  }

  function SuccessCode(k: Kind, alreadyPresent: bool): Code {
    match k
    case Shutdown => SHUTDOWN_ACCEPTED
    case Environment(op) => EnvironmentCode(op)
    case ImageDeployment => if alreadyPresent then IMAGE_ALREADY_PRESENT else SUCCEEDED
    case DockerInventory => SUCCEEDED
  }

  function FailureCode(k: Kind, f: Failure): Code {
    match k
    case Shutdown => if f.Cancelled? then COMMAND_CANCELLED else SHUTDOWN_FAILED
    case Environment(_) => if f.Cancelled? then COMMAND_CANCELLED else ENVIRONMENT_EXECUTION_FAILED
    case ImageDeployment => if f.ImageExists? then IMAGE_EXISTS else IMAGE_DEPLOYMENT_FAILED
    case DockerInventory => DOCKER_INVENTORY_FAILED
  }

  function ResultOf(c: Command, o: Outcome): CommandResult {
    match o
    case Denied => CommandResult(c.lease, false, ENVIRONMENT_OPERATION_NOT_GRANTED, Standard, "")
    case Completed(details, already) => CommandResult(c.lease, true, SuccessCode(c.kind, already), Standard, details)
    case Broken(f) => CommandResult(c.lease, false, FailureCode(c.kind, f), FromError(f.text), "")
  }

  function Recorded(c: Command, o: Outcome): StoredCommand {
    StoredCommand(c.id, c.lease, Some(ResultOf(c, o)))
  }

  // ---------- State ----------

  /** Where the dispatching thread stands. `Idle` is also the state of a process
      that has just restarted or has returned an error to the command loop. */
  datatype Pc =
    | Idle
    | Starting(c: Command)              // journal found empty, start not yet acknowledged
    | Acknowledged(c: Command)          // server accepted the start
    | IntentSaved(c: Command)
    | Announced(c: Command)             // image deployment: RUNNING reported
    | Executing(c: Command)
    | Returned(c: Command, o: Outcome)
    | Pending(s: StoredCommand, image: bool)  // intent without outcome was loaded
    | Reporting(s: StoredCommand)       // result is durable
    | Settling(s: StoredCommand)        // report was accepted, journal not yet cleared

  /** A result that reached the disk, and where it came from: `Some(c, o)` for a real
      outcome, `None` for the unknown outcome. */
  datatype Durable = Durable(stored: StoredCommand, origin: Option<(Command, Outcome)>)

  datatype World = World(
    store: Option<StoredCommand>,
    terminal: set<string>,
    pc: Pc,
    executions: seq<string>,                // id of every execution begun
    outcomes: seq<(Command, Outcome)>,      // every outcome returned to the dispatcher
    durables: seq<Durable>,                 // every result that was durably written
    reports: seq<StoredCommand>,            // every final report sent
    progress: seq<string>,                  // id of every RUNNING report sent
    found: nat                              // how often the journal was found occupied
  )

  const INIT := World(None, {}, Idle, [], [], [], [], [], 0)

  // ---------- Steps ----------

  /** `ok` is the reply the caller sees, `took` whether the request had its effect. */
  datatype Step =
    | LoadEmpty(c: Command)
    | LoadFound(image: bool)
    | StartReply(ok: bool)
    | SaveIntent(ok: bool, took: bool)
    | Announce(ok: bool)
    | Deny
    | BeginExecution
    | Progress
    | EndExecution(o: Outcome)
    | SaveOutcome(ok: bool, took: bool)
    | SaveUnknown(ok: bool, took: bool)
    | Finish(ok: bool, took: bool)
    | Clear(ok: bool, took: bool)
    | Crash
    | Terminalise(ids: set<string>)         // the server ends commands on its own, or unjournaled ones

  predicate Enabled(w: World, step: Step) {
    match step
    case LoadEmpty(_) => w.pc.Idle? && w.store.None?
    case LoadFound(_) => w.pc.Idle? && w.store.Some?
    case StartReply(ok) => w.pc.Starting? && (ok ==> w.pc.c.id !in w.terminal)
    case SaveIntent(ok, took) => w.pc.Acknowledged? && (ok ==> took)
    case Announce(_) => w.pc.IntentSaved? && w.pc.c.kind.ImageDeployment?
    case Deny =>
      w.pc.IntentSaved? && w.pc.c.kind.Environment? && !IsEnvironmentStop(w.pc.c.kind)
    case BeginExecution =>
      (w.pc.IntentSaved? && !w.pc.c.kind.ImageDeployment?) || w.pc.Announced?
    case Progress => w.pc.Executing? && w.pc.c.kind.ImageDeployment?
    case EndExecution(o) => w.pc.Executing? && !o.Denied?
    case SaveOutcome(ok, took) => w.pc.Returned? && (ok ==> took)
    case SaveUnknown(ok, took) => w.pc.Pending? && (ok ==> took)
    case Finish(ok, took) =>
      w.pc.Reporting? && (ok ==> took || w.pc.s.id in w.terminal)
    case Clear(ok, took) => w.pc.Settling? && (ok ==> took)
    case Crash => true
    case Terminalise(_) => true
  }

  function Do(w: World, step: Step): World
    requires Enabled(w, step)
  {
    match step
    case LoadEmpty(c) => w.(pc := Starting(c))
    case LoadFound(image) =>
      w.(found := w.found + 1,
         pc := if w.store.value.result.Some? then Reporting(w.store.value) else Pending(w.store.value, image))
    case StartReply(ok) => w.(pc := if ok then Acknowledged(w.pc.c) else Idle)
    case SaveIntent(ok, took) =>
      w.(store := if took then Some(Intent(w.pc.c)) else w.store,
         pc := if ok then IntentSaved(w.pc.c) else Idle)
    case Announce(ok) =>
      w.(progress := w.progress + [w.pc.c.id], pc := if ok then Announced(w.pc.c) else Idle)
    case Deny =>
      w.(outcomes := w.outcomes + [(w.pc.c, Denied)], pc := Returned(w.pc.c, Denied))
    case BeginExecution =>
      w.(executions := w.executions + [w.pc.c.id], pc := Executing(w.pc.c))
    case Progress => w.(progress := w.progress + [w.pc.c.id])
    case EndExecution(o) =>
      w.(outcomes := w.outcomes + [(w.pc.c, o)], pc := Returned(w.pc.c, o))
    case SaveOutcome(ok, took) =>
      var s := Recorded(w.pc.c, w.pc.o);
      w.(store := if took then Some(s) else w.store,
         durables := if took then w.durables + [Durable(s, Some((w.pc.c, w.pc.o)))] else w.durables,
         pc := if ok then Reporting(s) else Idle)
    case SaveUnknown(ok, took) =>
      var s := Unknown(w.pc.s, w.pc.image);
      w.(store := if took then Some(s) else w.store,
         durables := if took then w.durables + [Durable(s, None)] else w.durables,
         pc := if ok then Reporting(s) else Idle)
    case Finish(ok, took) =>
      w.(reports := w.reports + [w.pc.s],
         terminal := if took then w.terminal + {w.pc.s.id} else w.terminal,
         pc := if ok then Settling(w.pc.s) else Idle)
    case Clear(ok, took) => w.(store := if took then None else w.store, pc := Idle)
    case Crash => w.(pc := Idle)
    case Terminalise(ids) => w.(terminal := w.terminal + ids)
  }

  /** A history of steps, latest last. */
  datatype Run = Begin | Then(past: Run, last: Step)

  ghost predicate IsRun(run: Run)
    decreases run, 0
  {
    match run
    case Begin => true
    case Then(past, last) => IsRun(past) && Enabled(After(past), last)
  }

  ghost function After(run: Run): World
    requires IsRun(run)
    decreases run, 1
  {
    match run
    case Begin => INIT
    case Then(past, last) => Do(After(past), last)
  }

  // ---------- The invariant ----------

  predicate Holds(w: World, id: string) {
    w.store.Some? && w.store.value.id == id
  }

  predicate Reported(reports: seq<StoredCommand>, id: string) {
    exists r :: r in reports && r.id == id
  }

  /** The command is over: a final report was sent and the server agrees. */
  predicate Settled(w: World, id: string) {
    id in w.terminal && Reported(w.reports, id)
  }

  ghost predicate IsDurable(durables: seq<Durable>, s: StoredCommand) {
    exists d :: d in durables && d.stored == s
  }

  ghost predicate Unreported(w: World, id: string) {
    (forall d :: d in w.durables ==> d.stored.id != id) && !Reported(w.reports, id)
  }

  ghost predicate ControlInv(w: World) {
    match w.pc
    case Idle => true
    case Starting(c) => w.store.None?
    case Acknowledged(c) => w.store.None? && c.id !in w.executions && Unreported(w, c.id)
    case IntentSaved(c) => w.store == Some(Intent(c)) && c.id !in w.executions
    case Announced(c) => w.store == Some(Intent(c)) && c.id !in w.executions
    case Executing(c) => w.store == Some(Intent(c)) && c.id in w.executions
    case Returned(c, o) =>
      w.store == Some(Intent(c)) && (c, o) in w.outcomes && (!o.Denied? ==> c.id in w.executions)
    case Pending(s, _) => w.store == Some(s) && s.result.None?
    case Reporting(s) => w.store == Some(s) && s.result.Some?
    case Settling(s) => w.store == Some(s) && s.result.Some? && Settled(w, s.id)
  }

  ghost predicate ExecutionsInv(w: World) {
    && (forall i, j :: 0 <= i < j < |w.executions| ==> w.executions[i] != w.executions[j])
    && (forall id :: id in w.executions ==> Holds(w, id) || Settled(w, id))
    && (forall e :: e in w.outcomes && !e.1.Denied? ==> e.0.id in w.executions)
  }

  ghost predicate DurablesInv(w: World) {
    && (forall d :: d in w.durables ==>
          if Holds(w, d.stored.id) then w.store == Some(d.stored) else Settled(w, d.stored.id))
    && (forall d, d' :: d in w.durables && d' in w.durables && d.stored.id == d'.stored.id ==> d == d')
    && (w.store.Some? ==>
          if w.store.value.result.Some? then IsDurable(w.durables, w.store.value)
          else Unreported(w, w.store.value.id))
  }

  ghost predicate ReportsInv(w: World) {
    forall r :: r in w.reports ==> IsDurable(w.durables, r)
  }

  ghost predicate OriginInv(w: World) {
    forall d :: d in w.durables ==>
      match d.origin
      case Some((c, o)) => (c, o) in w.outcomes && d.stored == Recorded(c, o)
      case None => d.stored == Unknown(d.stored, false) || d.stored == Unknown(d.stored, true)
  }

  ghost predicate Inv(w: World) {
    ControlInv(w) && ExecutionsInv(w) && DurablesInv(w) && ReportsInv(w) && OriginInv(w)
  }

  // ---------- Preservation, step by step ----------

  lemma InitInv()
    ensures Inv(INIT)
  {}

  /** Steps that only move the program counter, grow the terminal set or log progress. */
  lemma QuietStepInv(w: World, step: Step)
    requires Inv(w) && Enabled(w, step)
    requires step.LoadEmpty? || step.LoadFound? || step.Announce? || step.Progress? || step.Crash? || step.Terminalise?
    ensures Inv(Do(w, step))
  {
    var w' := Do(w, step);
    assert forall id :: Settled(w, id) ==> Settled(w', id);
    assert forall id :: Holds(w, id) == Holds(w', id);
    assert forall id :: Unreported(w, id) == Unreported(w', id);
  }

  /** An acknowledged start: the server says the command is not over and the journal
      is empty, so the command has no history at all. */
  lemma StartInv(w: World, step: Step)
    requires Inv(w) && Enabled(w, step) && step.StartReply?
    ensures Inv(Do(w, step))
  {
    var w' := Do(w, step);
    var id := w.pc.c.id;
    assert forall i :: Settled(w, i) == Settled(w', i) && Holds(w, i) == Holds(w', i);
    if step.ok {
      assert !Holds(w, id) && !Settled(w, id);
      assert Unreported(w', id);
    }
  }

  lemma SaveIntentInv(w: World, step: Step)
    requires Inv(w) && Enabled(w, step) && step.SaveIntent?
    ensures Inv(Do(w, step))
  {
    var w' := Do(w, step);
    assert forall i :: Settled(w, i) == Settled(w', i);
    assert forall i :: Holds(w, i) ==> Holds(w', i);
    assert forall i :: Unreported(w, i) == Unreported(w', i);
  }

  lemma ExecutionInv(w: World, step: Step)
    requires Inv(w) && Enabled(w, step)
    requires step.Deny? || step.BeginExecution? || step.EndExecution?
    ensures Inv(Do(w, step))
  {
    var w' := Do(w, step);
    assert forall i :: Settled(w, i) == Settled(w', i) && Holds(w, i) == Holds(w', i);
    assert forall i :: Unreported(w, i) == Unreported(w', i);
    if !step.BeginExecution? {
      assert (w'.pc.c, w'.pc.o) in w'.outcomes;
    }
  }

  /** A result reaches the disk for the command whose intent is in the journal. */
  lemma RecordInv(w: World, d: Durable, w': World)
    requires ExecutionsInv(w) && DurablesInv(w) && ReportsInv(w)
    requires w.store.Some? && w.store.value.result.None?
    requires d.stored.id == w.store.value.id && d.stored.result.Some?
    requires w' == w.(store := Some(d.stored), durables := w.durables + [d], pc := w'.pc)
    ensures ExecutionsInv(w') && DurablesInv(w') && ReportsInv(w')
  {
    assert w'.durables[|w.durables|] == d;
    assert forall i :: Settled(w, i) == Settled(w', i) && Holds(w, i) == Holds(w', i);
    assert forall s :: IsDurable(w.durables, s) ==> IsDurable(w'.durables, s);
  }

  lemma SaveResultInv(w: World, step: Step)
    requires Inv(w) && Enabled(w, step)
    requires step.SaveOutcome? || step.SaveUnknown?
    ensures Inv(Do(w, step))
  {
    var w' := Do(w, step);
    if step.took {
      RecordInv(w, w'.durables[|w.durables|], w');
    } else {
      assert forall i :: Settled(w, i) == Settled(w', i) && Holds(w, i) == Holds(w', i);
      assert forall i :: Unreported(w, i) == Unreported(w', i);
    }
  }

  lemma FinishInv(w: World, step: Step)
    requires Inv(w) && Enabled(w, step) && step.Finish?
    ensures Inv(Do(w, step))
  {
    var w' := Do(w, step);
    var s := w.pc.s;
    assert s in w'.reports;
    assert forall i :: Settled(w, i) ==> Settled(w', i);
    assert forall i :: Holds(w, i) == Holds(w', i);
  }

  lemma ClearInv(w: World, step: Step)
    requires Inv(w) && Enabled(w, step) && step.Clear?
    ensures Inv(Do(w, step))
  {
    var w' := Do(w, step);
    var s := w.pc.s;
    assert forall i :: Settled(w, i) == Settled(w', i);
    assert forall i :: Holds(w, i) ==> i == s.id;
  }

  lemma StepInv(w: World, step: Step)
    requires Inv(w) && Enabled(w, step)
    ensures Inv(Do(w, step))
  {
    match step
    case StartReply(_) => StartInv(w, step);
    case SaveIntent(_, _) => SaveIntentInv(w, step);
    case Deny | BeginExecution | EndExecution(_) => ExecutionInv(w, step);
    case SaveOutcome(_, _) | SaveUnknown(_, _) => SaveResultInv(w, step);
    case Finish(_, _) => FinishInv(w, step);
    case Clear(_, _) => ClearInv(w, step);
    case _ => QuietStepInv(w, step);
  }

  lemma {:induction false} RunInv(run: Run)
    requires IsRun(run)
    ensures Inv(After(run))
  {
    match run
    case Begin => InitInv();
    case Then(past, last) =>
      RunInv(past);
      StepInv(After(past), last);
  }

  // ---------- Theorems over every run ----------

  /** No command is executed twice, whatever crashes, replies lost and store faults occur. */
  lemma AtMostOnce(run: Run, id: string)
    requires IsRun(run)
    ensures multiset(After(run).executions)[id] <= 1
  {
    RunInv(run);
    DistinctCount(After(run).executions, id);
  }

  /** All final reports of one command carry the same result, and so does whatever
      the journal still holds for it. */
  lemma ReportsAgree(run: Run, r: StoredCommand, r': StoredCommand)
    requires IsRun(run)
    requires r in After(run).reports
    requires r' in After(run).reports || (After(run).store == Some(r') && r'.result.Some?)
    requires r.id == r'.id
    ensures r == r' && r.result.Some?
  {
    RunInv(run);
    var w := After(run);
    var d :| d in w.durables && d.stored == r;
    var d' :| d' in w.durables && d'.stored == r';
    assert d == d';
  }

  /** Success is reported only for a command that was executed and whose execution
      returned no error. */
  lemma SuccessIsReal(run: Run, r: StoredCommand)
    requires IsRun(run) && r in After(run).reports
    requires r.result.Some? && r.result.value.success
    ensures exists c, o ::
              && (c, o) in After(run).outcomes && o.Completed? && r == Recorded(c, o)
              && c.id == r.id && c.id in After(run).executions
  {
    RunInv(run);
    var w := After(run);
    var d :| d in w.durables && d.stored == r;
    assert d.origin.Some?;
    var (c, o) := d.origin.value;
    assert (c, o) in w.outcomes && r == Recorded(c, o);
  }

  /** A command is denied only if it is one of the four environment operations that need a grant. */
  lemma {:induction false} DeniedOnlyWithoutGrant(run: Run, c: Command)
    requires IsRun(run) && (c, Denied) in After(run).outcomes
    ensures c.kind in {Environment(Create), Environment(Start), Environment(Restore), Environment(Delete)}
  {
    var w := After(run.past);
    if (c, Denied) in w.outcomes {
      DeniedOnlyWithoutGrant(run.past, c);
    } else {
      var last := After(run).outcomes[|w.outcomes|];
      assert After(run).outcomes == w.outcomes + [last] && last == (c, Denied);
      assert run.last.Deny? && w.pc.c == c;
      match c.kind.op
      case Create | Start | Stop | Restore | Delete =>
    }
  }

  /** The result of an outcome, code by code. */
  predicate Says(c: Command, o: Outcome, x: CommandResult) {
    && x.lease == c.lease && (x.success <==> o.Completed?)
    && x.details == (if o.Completed? then o.details else "")
    && x.message == (if o.Broken? then FromError(o.failure.text) else Standard)
    && (o.Denied? ==> x.code == ENVIRONMENT_OPERATION_NOT_GRANTED)
    && (o.Completed? ==>
          && (c.kind == Shutdown ==> x.code == SHUTDOWN_ACCEPTED)
          && (c.kind == Environment(Create) ==> x.code == ENVIRONMENT_CREATED)
          && (c.kind == Environment(Start) ==> x.code == ENVIRONMENT_STARTED)
          && (c.kind == Environment(Stop) ==> x.code == ENVIRONMENT_STOPPED)
          && (c.kind == Environment(Restore) ==> x.code == ENVIRONMENT_RESTORED)
          && (c.kind == Environment(Delete) ==> x.code == ENVIRONMENT_DELETED)
          && (c.kind == ImageDeployment ==> x.code == if o.alreadyPresent then IMAGE_ALREADY_PRESENT else SUCCEEDED)
          && (c.kind == DockerInventory ==> x.code == SUCCEEDED))
    && (o.Broken? ==>
          && (c.kind == Shutdown ==> x.code == if o.failure.Cancelled? then COMMAND_CANCELLED else SHUTDOWN_FAILED)
          && (c.kind.Environment? ==>
                x.code == if o.failure.Cancelled? then COMMAND_CANCELLED else ENVIRONMENT_EXECUTION_FAILED)
          && (c.kind == ImageDeployment ==>
                x.code == if o.failure.ImageExists? then IMAGE_EXISTS else IMAGE_DEPLOYMENT_FAILED)
          && (c.kind == DockerInventory ==> x.code == DOCKER_INVENTORY_FAILED))
  }

  lemma ResultSays(c: Command, o: Outcome)
    ensures Says(c, o, ResultOf(c, o))
  {}

  /** Every final report tells, code by code, an outcome its command had, or that the outcome is unknown. */
  lemma ReportsTellTheOutcome(run: Run, r: StoredCommand)
    requires IsRun(run) && r in After(run).reports
    ensures r.result.Some?
    ensures var x := r.result.value;
            || (x.code == EXECUTION_OUTCOME_UNKNOWN && !x.success && x.lease == r.lease && x.details == "")
            || exists c, o :: (c, o) in After(run).outcomes && c.id == r.id && c.lease == r.lease && Says(c, o, x)
  {
    RunInv(run);
    var d :| d in After(run).durables && d.stored == r;
    if d.origin.Some? {
      var (c, o) := d.origin.value;
      ResultSays(c, o);
      assert (c, o) in After(run).outcomes && r == Recorded(c, o);
    }
  }

  const SUCCESS_CODES: set<Code> :=
    {SHUTDOWN_ACCEPTED, ENVIRONMENT_CREATED, ENVIRONMENT_STARTED, ENVIRONMENT_STOPPED, ENVIRONMENT_RESTORED,
     ENVIRONMENT_DELETED, SUCCEEDED, IMAGE_ALREADY_PRESENT}

  /** A final report carries the lease of its command, and its code alone tells whether it
      is a success. */
  lemma CodeTellsSuccess(run: Run, r: StoredCommand)
    requires IsRun(run) && r in After(run).reports
    ensures r.result.Some? && r.result.value.lease == r.lease
    ensures r.result.value.success <==> r.result.value.code in SUCCESS_CODES
  {
    RunInv(run);
    var d :| d in After(run).durables && d.stored == r;
    if d.origin.Some? {
      var (c, o) := d.origin.value;
      assert r == Recorded(c, o);
    }
  }

  /** The unknown outcome is reported only when no real outcome ever reached the disk. */
  lemma UnknownMeansUnrecorded(run: Run, r: StoredCommand, d: Durable)
    requires IsRun(run) && r in After(run).reports && d in After(run).durables
    requires d.stored.id == r.id
    ensures r.result.Some?
    ensures r.result.value.code == EXECUTION_OUTCOME_UNKNOWN <==> d.origin.None?
  {
    RunInv(run);
    var w := After(run);
    var e :| e in w.durables && e.stored == r;
    assert e == d;
    if d.origin.Some? {
      var (c, o) := d.origin.value;
      assert r == Recorded(c, o);
    }
  }

  /** When the start of a command is acknowledged, every command executed earlier has been
      reported, has been accepted as over by the server, and has left the journal. */
  lemma EarlierCommandsAreSettled(run: Run, id: string)
    requires IsRun(run) && After(run).pc.Acknowledged?
    requires id in After(run).executions
    ensures id != After(run).pc.c.id
    ensures After(run).store.None? && Settled(After(run), id)
  {
    RunInv(run);
  }

  /** A journal entry is never replaced by another command's: it only gains its result. */
  lemma JournalKeepsItsCommand(run: Run, step: Step)
    requires IsRun(run) && Enabled(After(run), step)
    ensures var w, w' := After(run), Do(After(run), step);
            w.store.Some? ==>
              || w'.store == w.store
              || (w.store.value.result.None? && w'.store.Some?
                  && w'.store.value == w.store.value.(result := w'.store.value.result)
                  && w'.store.value.result.Some?)
              || (w'.store.None? && w.store.value.result.Some? && Settled(w', w.store.value.id))
  {
    RunInv(run);
    var w, w' := After(run), Do(After(run), step);
    assert forall i :: Settled(w, i) && step.Clear? ==> Settled(w', i);
  }
}
