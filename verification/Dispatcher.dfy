/** The code that drives the journal: the file store, the dispatcher and the command
    loop. Every effect is one call that may succeed, fail or end the process, and every
    method extends a ghost trace that is a run of the step machine of `Journal`. */
module Dispatcher {
  import opened Common
  import opened StateFile
  import opened Journal

  /** The management server, reduced to what the agent relies on. Between any two calls
      it may end commands on its own, and a request may take effect although its reply is lost;
      in calm weather it does neither. */
  class Server {
    const calm: bool
    var terminal: set<string>

    constructor (calm: bool)
      ensures this.calm == calm && terminal == {}
    {
      this.calm, terminal := calm, {};
    }

    method Drift()
      modifies this
      ensures old(terminal) <= terminal
      ensures calm ==> terminal == old(terminal)
    {
      var ended: set<string> := *;
      if !calm { terminal := terminal + ended; }
    }

    /** Accepted only for a command that is not over. */
    method StartCommand(id: string) returns (r: Reply)
      modifies this
      ensures old(terminal) <= terminal
      ensures r.Ok? ==> id !in terminal
      ensures calm ==> terminal == old(terminal) && (id !in terminal ==> r.Ok?)
    {
      Drift();
      r := Attempt(calm);
      if r.Ok? && id in terminal { r := Failed; }
    }

    /** A final report: accepted (2xx), or refused as already over (409, taken as success). */
    method FinishCommand(id: string) returns (r: Reply)
      modifies this
      ensures old(terminal) <= terminal
      ensures r.Ok? ==> id in terminal
      ensures calm ==> r.Ok? && terminal == old(terminal) + {id}
    {
      Drift();
      var took: bool := *;
      if took || calm { terminal := terminal + {id}; }
      r := Attempt(calm);
      if r.Ok? && id !in terminal { r := Failed; }
    }

    /** A RUNNING report never ends a command. */
    method ReportProgress(id: string) returns (r: Reply)
      modifies this
      ensures old(terminal) <= terminal
      ensures calm ==> r.Ok? && terminal == old(terminal)
    {
      Drift();
      r := Attempt(calm);
    }
  }

  datatype DispatchError =
    | Nil
    | Invalid
    | StoreError
    | AnotherPending
    | TransportError
    | ExecutionError
    | Died

  function ErrorOf(r: Reply, e: DispatchError): DispatchError {
    if r.Crashed? then Died else e
  }

  /** What a poll delivers. Unjournaled commands (upgrade, terminal, file transfer, model
      workspace) do not touch the journal; `wellFormed` sums up the version, payload and
      configuration checks made before anything else. */
  datatype Request =
    | Journaled(c: Command, wellFormed: bool)
    | Unjournaled(id: string)
    | Unsupported

  /** One successful dispatch: executed once, one final report with the completed outcome,
      and the server agrees that the command is over. */
  ghost predicate CarriedOut(c: Command, before: World, after: World) {
    && after.executions == before.executions + [c.id]
    && (exists o: Outcome :: o.Completed? && after.reports == before.reports + [Recorded(c, o)])
    && Settled(after, c.id)
  }

  /** A stored entry with its result: its own, or the unknown outcome. */
  function Answer(s: StoredCommand, image: bool): StoredCommand {
    if s.result.Some? then s else Unknown(s, image)
  }

  /** The ids of the journaled commands of a batch, in order. */
  function JournaledIds(batch: seq<Request>): seq<string> {
    if batch == [] then []
    else
      var q := batch[|batch| - 1];
      JournaledIds(batch[..|batch| - 1]) + (if q.Journaled? then [q.c.id] else [])
  }

  predicate NeedsGrant(c: Command) {
    c.kind.Environment? && !IsEnvironmentStop(c.kind)
  }

  /** What dispatching comes to when nothing goes wrong around it: executed once unless the
      grant is missing, one final report of the outcome, and an error unless it was completed. */
  ghost predicate Answered(c: Command, granted: bool, before: World, after: World, e: DispatchError) {
    exists o: Outcome ::
      && after.reports == before.reports + [Recorded(c, o)] && (e.Nil? <==> o.Completed?)
      && (o.Denied? <==> NeedsGrant(c) && !granted)
      && after.executions == before.executions + (if o.Denied? then [] else [c.id])
  }

  /** RUNNING reports are made for an image deployment only. */
  ghost predicate Progressed(c: Command, before: World, after: World) {
    && before.progress <= after.progress
    && (|before.progress| < |after.progress| ==> c.kind.ImageDeployment?)
    && forall i :: |before.progress| <= i < |after.progress| ==> after.progress[i] == c.id
  }

  /** RUNNING is reported at least once for an image deployment, and for nothing else. */
  ghost predicate Announces(c: Command, before: World, after: World) {
    Progressed(c, before, after) && (c.kind.ImageDeployment? ==> |before.progress| < |after.progress|)
  }

  /** One final report, with this code. */
  ghost predicate ReportedAs(c: Command, code: Code, before: World, after: World) {
    && |after.reports| == |before.reports| + 1 && before.reports <= after.reports
    && var r := after.reports[|before.reports|];
       r.id == c.id && r.lease == c.lease && r.result.Some? && r.result.value.code == code
  }

  class CommandDispatcher {
    const calm: bool         // no call fails, and the server ends nothing on its own
    const store: FileStore<StoredCommand>
    const server: Server
    ghost var trace: Run     // every step taken since the journal was created
    ghost var world: World         // the state those steps lead to

    ghost predicate Valid()
      reads this, store, server
    {
      && store.Valid() && store.calm == calm && server.calm == calm
      && IsRun(trace)
      && world == After(trace)
      && world.store == store.Stored()
      && world.terminal == server.terminal
    }

    /** Valid, and the thread is between commands. */
    ghost predicate Resting()
      reads this, store, server
    {
      Valid() && world.pc.Idle?
    }

    constructor (calm: bool)
      ensures Resting() && fresh(store) && fresh(server) && this.calm == calm
    {
      this.calm := calm;
      store := new FileStore(calm);
      server := new Server(calm);
      trace, world := Run.Begin, INIT;
    }

    ghost method Take(step: Step)
      requires IsRun(trace) && world == After(trace) && Enabled(world, step)
      modifies this`trace, this`world
      ensures IsRun(trace) && world == After(trace)
      ensures world == Do(old(world), step)
    {
      trace, world := Then(trace, step), Do(world, step);
    }

    /** internal/runtime/command_dispatcher.go: reportStored. */
    method ReportStored(s: StoredCommand) returns (e: DispatchError)
      requires Valid() && world.pc == Reporting(s)
      modifies this`trace, this`world, store`file, server
      ensures Resting() && world.found == old(world.found)
      ensures !e.AnotherPending?
      ensures world.executions == old(world.executions)
      ensures world.reports == old(world.reports) + [s] && world.progress == old(world.progress)
      ensures e.Nil? ==> store.Stored() == None && Settled(world, s.id)
      ensures calm ==> e.Nil?
    {
      var r := server.FinishCommand(s.id);
      Take(Terminalise(server.terminal - {s.id}));
      Take(Finish(r.Ok?, s.id in server.terminal));
      if !r.Ok? { return ErrorOf(r, TransportError); }
      assert s in world.reports;
      r := store.Clear();
      Take(Step.Clear(r.Ok?, store.Stored() == None));
      e := if r.Ok? then Nil else ErrorOf(r, StoreError);
    }

    /** The end of every path that finds the journal occupied by its own command. */
    method ReportFound(s: StoredCommand, image: bool) returns (e: DispatchError)
      requires Resting() && store.Stored() == Some(s)
      modifies this`trace, this`world, store, server
      ensures Resting()
      ensures !e.AnotherPending?
      ensures world.executions == old(world.executions) && world.found == old(world.found) + 1
      ensures world.progress == old(world.progress)
      ensures e.Nil? ==> store.Stored() == None && Settled(world, s.id)
      ensures e.Nil? ==> world.reports == old(world.reports) + [Answer(s, image)]
      ensures calm ==> e.Nil?
    {
      Take(LoadFound(image));
      var found := s;
      if s.result.None? {
        found := Unknown(s, image);
        var r := store.Save(found);
        Take(SaveUnknown(r.Ok?, store.Stored() == Some(found)));
        if !r.Ok? { return ErrorOf(r, StoreError); }
      }
      e := ReportStored(found);
    }

    method RetryPending() returns (retried: bool, e: DispatchError)
      requires Resting()
      modifies this`trace, this`world, store, server
      ensures Resting() && !e.AnotherPending?
      ensures world.executions == old(world.executions)
      ensures world.found == old(world.found) + (if retried then 1 else 0)
      ensures e.Nil? ==> store.Stored() == None && retried == old(store.Stored()).Some?
      ensures e.Nil? ==> world.reports == old(world.reports)
                         + (if retried then [Answer(old(store.Stored()).value, false)] else [])
      ensures calm ==> e.Nil?
    {
      var r, s := store.Load();
      if !r.Ok? { return false, ErrorOf(r, StoreError); }
      if s.None? { return false, Nil; }
      retried := true;
      e := ReportFound(s.value, false);
    }

    /** Load, acknowledge the start, save the intent. `go` tells whether to execute. */
    method Begin(c: Command) returns (go: bool, e: DispatchError)
      requires Resting()
      modifies this`trace, this`world, store, server
      ensures Valid()
      ensures world.executions == old(world.executions)
      ensures world.pc == if go then IntentSaved(c) else Idle
      ensures go ==> old(store.Stored()) == None && world.reports == old(world.reports)
      ensures !go && e.Nil? ==> old(store.Stored()).Some? && store.Stored() == None
      ensures e.AnotherPending? ==> old(store.Stored()).Some?
      ensures old(store.Stored()) == None ==> world.found == old(world.found)
      ensures calm ==> if old(store.Stored()) == None then go == (c.id !in old(server.terminal))
                       else if old(store.Stored()).value.id == c.id && old(store.Stored()).value.lease == c.lease then
                         e.Nil? && world.reports == old(world.reports)
                                   + [Answer(old(store.Stored()).value, c.kind.ImageDeployment?)]
                       else e.AnotherPending? && world == old(world)
      ensures world.progress == old(world.progress)
    {
      var r, s := store.Load();
      if !r.Ok? { return false, ErrorOf(r, StoreError); }
      if s.Some? {
        if s.value.id != c.id || s.value.lease != c.lease { return false, AnotherPending; }
        e := ReportFound(s.value, c.kind.ImageDeployment?);
        return false, e;
      }
      Take(LoadEmpty(c));
      r := server.StartCommand(c.id);
      Take(Terminalise(server.terminal));
      Take(StartReply(r.Ok?));
      if !r.Ok? { return false, ErrorOf(r, TransportError); }
      r := store.Save(Intent(c));
      Take(SaveIntent(r.Ok?, store.Stored() == Some(Intent(c))));
      if !r.Ok? { return false, ErrorOf(r, StoreError); }
      return true, Nil;
    }

    /** Save the outcome, report it, clear the journal. */
    method Conclude(c: Command, o: Outcome) returns (e: DispatchError)
      requires Valid() && world.pc == Returned(c, o)
      modifies this`trace, this`world, store, server
      ensures Resting() && world.found == old(world.found)
      ensures !e.AnotherPending?
      ensures world.executions == old(world.executions) && world.progress == old(world.progress)
      ensures e.Nil? ==> o.Completed? && world.reports == old(world.reports) + [Recorded(c, o)]
      ensures e.Nil? ==> store.Stored() == None && Settled(world, c.id)
      ensures calm ==> (e.Nil? <==> o.Completed?) && world.reports == old(world.reports) + [Recorded(c, o)]
      ensures calm ==> store.Stored() == None && Settled(world, c.id)
      ensures calm && !o.Completed? ==> e.ExecutionError?
    {
      var r := store.Save(Recorded(c, o));
      Take(SaveOutcome(r.Ok?, store.Stored() == Some(Recorded(c, o))));
      if !r.Ok? { return ErrorOf(r, StoreError); }
      e := ReportStored(Recorded(c, o));
      if e.Nil? && !o.Completed? { e := ExecutionError; }
    }

    /** RUNNING reports sent while an image is deployed. */
    method SendUpdates(c: Command)
      requires Valid() && world.pc == Executing(c) && c.kind.ImageDeployment?
      modifies this`trace, this`world, server
      ensures Valid()
      ensures world == old(world).(terminal := world.terminal, progress := world.progress)
      ensures old(world.progress) <= world.progress
      ensures forall i :: |old(world.progress)| <= i < |world.progress| ==> world.progress[i] == c.id
    {
      var updates: nat := *;
      while updates > 0
        invariant Valid()
        invariant world == old(world).(terminal := world.terminal, progress := world.progress)
        invariant old(world.progress) <= world.progress
        invariant forall i :: |old(world.progress)| <= i < |world.progress| ==> world.progress[i] == c.id
      {
        var p := server.ReportProgress(c.id);
        Take(Terminalise(server.terminal));
        Take(Progress);
        updates := if p.Ok? then updates - 1 else 0;
      }
    }

    /** The side effect itself. */
    method Execute(c: Command) returns (r: Reply, o: Outcome)
      requires Valid()
      requires (world.pc == IntentSaved(c) && !c.kind.ImageDeployment?) || world.pc == Announced(c)
      modifies this`trace, this`world, server
      ensures Valid() && world.found == old(world.found)
      ensures world.pc == if r.Ok? then Returned(c, o) else Idle
      ensures world.executions == old(world.executions) + [c.id]
      ensures world.reports == old(world.reports)
      ensures Progressed(c, old(world), world)
      ensures r.Ok? ==> !o.Denied?
      ensures calm ==> r.Ok?
    {
      o := Denied;
      Take(BeginExecution);
      if c.kind.ImageDeployment? { SendUpdates(c); }
      r := Attempt(calm);
      if r.Crashed? {
        Take(Crash);
        return;
      }
      r := Ok;
      var outcome: Outcome := *;
      o := if outcome.Denied? then Broken(OtherFailure("")) else outcome;
      Take(EndExecution(o));
    }

    /** Image deployment says so before it begins. */
    method AnnounceStart(c: Command) returns (e: DispatchError)
      requires Valid() && world.pc == IntentSaved(c) && c.kind.ImageDeployment?
      modifies this`trace, this`world, server
      ensures Valid() && !e.AnotherPending?
      ensures world == old(world).(terminal := world.terminal, progress := old(world.progress) + [c.id],
                                   pc := if e.Nil? then Announced(c) else Pc.Idle)
      ensures calm ==> e.Nil?
    {
      var p := server.ReportProgress(c.id);
      Take(Terminalise(server.terminal));
      Take(Announce(p.Ok?));
      e := if p.Ok? then Nil else ErrorOf(p, TransportError);
    }

    /** Execute, save the outcome, report it, clear the journal. */
    method Perform(c: Command) returns (e: DispatchError)
      requires Valid()
      requires (world.pc == IntentSaved(c) && !c.kind.ImageDeployment?) || world.pc == Announced(c)
      modifies this`trace, this`world, store, server
      ensures Resting() && world.found == old(world.found)
      ensures !e.AnotherPending?
      ensures e.Nil? ==> CarriedOut(c, old(world), world) && store.Stored() == None
      ensures calm ==> Answered(c, true, old(world), world, e) && store.Stored() == None && Settled(world, c.id)
      ensures calm ==> Progressed(c, old(world), world)
    {
      var r, o := Execute(c);
      if !r.Ok? { return Died; }
      e := Conclude(c, o);
    }

    /** From the saved intent to the cleared journal. */
    method Carry(c: Command, granted: bool) returns (e: DispatchError)
      requires Valid() && world.pc == IntentSaved(c)
      modifies this`trace, this`world, store, server
      ensures Resting() && world.found == old(world.found)
      ensures !e.AnotherPending?
      ensures e.Nil? ==> CarriedOut(c, old(world), world) && store.Stored() == None
      ensures calm ==> Answered(c, granted, old(world), world, e) && store.Stored() == None && Settled(world, c.id)
      ensures calm ==> Announces(c, old(world), world)
      ensures NeedsGrant(c) && !granted ==>
                world.executions == old(world.executions) && (calm ==> e.ExecutionError?)
    {
      if c.kind.Environment? && !IsEnvironmentStop(c.kind) && !granted {
        Take(Deny);
        e := Conclude(c, Denied);
        return;
      }
      if c.kind.ImageDeployment? {
        e := AnnounceStart(c);
        if !e.Nil? { return; }
      }
      e := Perform(c);
    }

    /** Journaled commands: shutdown, environment, image deployment, Docker inventory. */
    method DispatchJournaled(c: Command, granted: bool) returns (e: DispatchError)
      requires Resting()
      modifies this`trace, this`world, store, server
      ensures Resting()
      ensures e.AnotherPending? ==> old(store.Stored()).Some?
      ensures e.Nil? ==> store.Stored() == None
      ensures old(store.Stored()) == None ==> world.found == old(world.found)
      ensures e.Nil? && old(store.Stored()) == None ==> CarriedOut(c, old(world), world)
      ensures calm && old(store.Stored()) == None && c.id !in old(server.terminal) ==>
                && Answered(c, granted, old(world), world, e) && store.Stored() == None && Settled(world, c.id)
                && Announces(c, old(world), world)
      ensures c.kind in {Environment(EnvironmentOp.Create), Environment(EnvironmentOp.Start),
                         Environment(EnvironmentOp.Restore), Environment(EnvironmentOp.Delete)} && !granted ==>
                && world.executions == old(world.executions)
                && (calm && old(store.Stored()) == None && c.id !in old(server.terminal) ==>
                      e.ExecutionError? && ReportedAs(c, ENVIRONMENT_OPERATION_NOT_GRANTED, old(world), world))
      ensures calm && old(store.Stored()) == None && c.id !in old(server.terminal)
              && (granted
                  || c.kind in {Shutdown, Environment(EnvironmentOp.Stop), ImageDeployment, DockerInventory}) ==>
                world.executions == old(world.executions) + [c.id] && |world.reports| == |old(world.reports)| + 1
      ensures calm && old(store.Stored()).Some? ==>
                && world.executions == old(world.executions)
                && var s := old(store.Stored()).value;
                   if s.id == c.id && s.lease == c.lease then
                     e.Nil? && world.reports == old(world.reports) + [Answer(s, c.kind.ImageDeployment?)]
                   else e.AnotherPending? && world == old(world)
    {
      var go: bool;
      go, e := Begin(c);
      if go {
        e := Carry(c, granted);
      }
    }

    method Dispatch(q: Request, granted: bool) returns (e: DispatchError)
      requires Resting()
      modifies this`trace, this`world, store, server
      ensures Resting()
      ensures e.AnotherPending? ==> old(store.Stored()).Some?
      ensures e.Nil? && old(store.Stored()) == None ==> store.Stored() == None
      ensures old(store.Stored()) == None ==> world.found == old(world.found)
      ensures !q.Journaled? || !q.wellFormed ==>
                store.Stored() == old(store.Stored()) && world.executions == old(world.executions)
                && world.reports == old(world.reports)
      ensures q.Journaled? && !q.wellFormed ==> e.Invalid? && world == old(world)
      ensures q.Journaled? && q.wellFormed && e.Nil? && old(store.Stored()) == None ==>
                CarriedOut(q.c, old(world), world)
      ensures q.Journaled? && q.wellFormed && calm && old(store.Stored()) == None
              && q.c.id !in old(server.terminal) ==>
                && Answered(q.c, granted, old(world), world, e) && store.Stored() == None
                && Settled(world, q.c.id) && Announces(q.c, old(world), world)
      ensures q.Journaled? && q.wellFormed && !granted
              && q.c.kind in {Environment(EnvironmentOp.Create), Environment(EnvironmentOp.Start),
                              Environment(EnvironmentOp.Restore), Environment(EnvironmentOp.Delete)} ==>
                world.executions == old(world.executions)
      ensures q.Unjournaled? && calm && q.id !in old(server.terminal) ==>
                e.Nil? && server.terminal == old(server.terminal) + {q.id}
    {
      match q
      case Unsupported => e := Invalid;
      case Unjournaled(id) =>
        var r := server.StartCommand(id);
        Take(Terminalise(server.terminal));
        if !r.Ok? { return ErrorOf(r, TransportError); }
        r := server.FinishCommand(id);
        Take(Terminalise(server.terminal));
        e := if r.Ok? then Nil else ErrorOf(r, TransportError);
      case Journaled(c, wellFormed) =>
        if !wellFormed { return Invalid; }
        e := DispatchJournaled(c, granted);
    }

    /** internal/runtime/agent.go: processCommandsOnce. The journal is empty whenever a
        command of the batch is dispatched: the "another command result is pending" answer
        cannot occur, and a round that finds an entry only reports it. `answers` are those of the
        commands dispatched, in order: the first error ends the batch. */
    method ProcessCommandsOnce()
      returns (e: DispatchError, ghost batch: seq<Request>, ghost answers: seq<DispatchError>)
      requires Resting()
      modifies this`trace, this`world, store, server
      ensures Resting()
      ensures !e.AnotherPending?
      ensures world.found <= old(world.found) + 1
      ensures world.found != old(world.found) ==> world.executions == old(world.executions)
      ensures world.found != old(world.found) && e.Nil? ==>
                old(store.Stored()).Some?
                && world.reports == old(world.reports) + [Answer(old(store.Stored()).value, false)]
      ensures calm && old(store.Stored()).Some? ==> e.Nil? && world.found == old(world.found) + 1
      ensures |answers| <= |batch| && forall i :: 0 <= i < |answers| - 1 ==> answers[i].Nil?
      ensures answers != [] ==> e == answers[|answers| - 1] && world.found == old(world.found)
      ensures e.Nil? ==> |answers| == |batch|
      ensures e.Nil? ==> world.executions == old(world.executions) + JournaledIds(batch)
      ensures e.Nil? ==> store.Stored() == None
    {
      batch, answers := [], [];
      var retried: bool;
      retried, e := RetryPending();
      if !e.Nil? || retried { return; }
      var r := Attempt(calm);                      // refresh the grant, poll, decode the whole batch
      if !r.Ok? {
        e := ErrorOf(r, TransportError);
        return;
      }
      var commands: seq<Request> := *;
      batch := commands;
      for i := 0 to |commands|
        invariant Resting() && store.Stored() == None && e.Nil?
        invariant |answers| == i && forall k :: 0 <= k < i ==> answers[k].Nil?
        invariant world.executions == old(world.executions) + JournaledIds(commands[..i])
        invariant world.found == old(world.found)
      {
        var granted: bool := *;
        e := Dispatch(commands[i], granted);
        answers := answers + [e];
        if !e.Nil? { return; }
        assert commands[..i + 1][..i] == commands[..i];
      }
      assert commands[..|commands|] == commands;
    }

    /** Any number of rounds of the command loop, across any number of process restarts. */
    method CommandLoop(rounds: nat)
      requires Resting()
      modifies this`trace, this`world, store, server
      ensures Resting()
      ensures forall id :: multiset(world.executions)[id] <= 1
    {
      for i := 0 to rounds
        invariant Resting()
      {
        var e, _, _ := ProcessCommandsOnce();
      }
      forall id ensures multiset(world.executions)[id] <= 1 {
        AtMostOnce(trace, id);
      }
    }
  }
}
