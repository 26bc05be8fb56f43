/** internal/container/docker.go: the executor over the Docker API. Any call may fail, and
    a failed call has no effect; the agent is the only one changing containers. */
module DockerExecutor {
  import opened Pair

  datatype Call =
    | InspectCall(name: string)
    | StartCall(name: string)
    | StopCall(name: string)
    | CreateCall(name: string)
    | RemoveCall(name: string)

  /** One API call and its reply. */
  datatype Event = Event(call: Call, ok: bool)

  datatype Inspection = Found(c: Container) | NotFound | Unreachable

  /** The daemon. When `healthy`, a call fails only for a reason the container map shows. */
  class Docker {
    var containers: Containers
    const healthy: bool
    ghost var history: seq<Event>      // the calls of the latest operation, in order

    constructor (healthy: bool)
      ensures this.healthy == healthy && containers == map[] && history == []
    {
      this.healthy, containers, history := healthy, map[], [];
    }

    ghost method Begin()
      modifies this`history
      ensures history == []
    {
      history := [];
    }

    /** Directories, the MPS service, TLS files, readiness probes, in-container commands. */
    method Probe() returns (ok: bool)
      ensures healthy ==> ok
    {
      var luck: bool := *;
      ok := healthy || luck;
    }

    method Inspect(name: string) returns (r: Inspection)
      modifies this`history
      ensures r.Found? ==> name in containers && r.c == containers[name]
      ensures r.NotFound? ==> name !in containers
      ensures healthy ==> !r.Unreachable?
      ensures history == old(history) + [Event(InspectCall(name), !r.Unreachable?)]
    {
      var ok := Probe();
      history := history + [Event(InspectCall(name), ok)];
      r := if !ok then Unreachable else if name in containers then Found(containers[name]) else NotFound;
    }

    method Start(name: string) returns (ok: bool)
      modifies this
      ensures ok ==> name in old(containers)
      ensures ok ==> containers == old(containers)[name := old(containers)[name].(running := true)]
      ensures !ok ==> containers == old(containers)
      ensures healthy && name in old(containers) ==> ok
      ensures history == old(history) + [Event(StartCall(name), ok)]
    {
      ok := Probe();
      ok := ok && name in containers;
      if ok { containers := containers[name := containers[name].(running := true)]; }
      history := history + [Event(StartCall(name), ok)];
    }

    method Stop(name: string) returns (ok: bool)
      modifies this
      ensures ok ==> name in old(containers)
      ensures ok ==> containers == old(containers)[name := old(containers)[name].(running := false)]
      ensures !ok ==> containers == old(containers)
      ensures healthy && name in old(containers) ==> ok
      ensures history == old(history) + [Event(StopCall(name), ok)]
    {
      ok := Probe();
      ok := ok && name in containers;
      if ok { containers := containers[name := containers[name].(running := false)]; }
      history := history + [Event(StopCall(name), ok)];
    }

    method Create(name: string, c: Container) returns (ok: bool)
      modifies this
      ensures ok ==> name !in old(containers) && containers == old(containers)[name := c]
      ensures !ok ==> containers == old(containers)
      ensures healthy && name !in old(containers) ==> ok
      ensures history == old(history) + [Event(CreateCall(name), ok)]
    {
      ok := Probe();
      ok := ok && name !in containers;
      if ok { containers := containers[name := c]; }
      history := history + [Event(CreateCall(name), ok)];
    }

    method Remove(name: string, force: bool) returns (ok: bool)
      modifies this
      ensures ok ==> name in old(containers) && (force || !old(containers)[name].running)
      ensures ok ==> containers == old(containers) - {name}
      ensures !ok ==> containers == old(containers)
      ensures healthy && name in old(containers) && (force || !old(containers)[name].running) ==> ok
      ensures history == old(history) + [Event(RemoveCall(name), ok)]
    {
      ok := Probe();
      ok := ok && name in containers && (force || !containers[name].running);
      if ok { containers := containers - {name}; }
      history := history + [Event(RemoveCall(name), ok)];
    }
  }

  // ---------- Values ----------

  datatype Why = Invalid | Setup | Mismatch | Unreadable | MissingComponent | CallFailed | NotReady | LastLook

  datatype Outcome = Done(pair: PairResult) | Refused(why: Why)

  datatype Look = Absent | Present(running: bool) | Rejected(why: Why)

  function Restrict(d: Containers, names: set<string>): Containers {
    map n | n in d && n in names :: d[n]
  }

  /** Nothing outside the payload changed, nor anything in it that is not the payload's own. */
  ghost predicate Untouched(d: Containers, d': Containers, p: Payload) {
    && (forall n :: n !in Names(p.components) ==> SameAt(d, d', n))
    && (forall c :: c in p.components && c.name in d ==>
          || (d[c.name].managed && d[c.name].environment == p.environment && d[c.name].ctype == c.ctype)
          || SameAt(d, d', c.name))
  }

  predicate SameAt(d: Containers, d': Containers, n: string) {
    (n in d <==> n in d') && (n in d && n in d' ==> d[n] == d'[n])
  }

  function Elements(s: seq<string>): set<string> {
    set x | x in s
  }

  predicate NoRepeats(s: seq<string>) {
    forall i, j :: 0 <= i < j < |s| ==> s[i] != s[j]
  }

  lemma ElementsAppend(s: seq<string>, i: nat)
    requires i < |s| && NoRepeats(s)
    ensures Elements(s[..i + 1]) == Elements(s[..i]) + {s[i]} && s[i] !in Elements(s[..i])
    ensures s[i] in s
  {
    assert s[..i + 1] == s[..i] + [s[i]];
  }

  /** Changing one container more, or one less. */
  lemma SetRunningStep(d: Containers, names: set<string>, n: string, running: bool)
    requires n in d && n !in names
    ensures SetRunning(d, names + {n}, running) == SetRunning(d, names, running)[n := d[n].(running := running)]
    ensures d[n].running != running ==>
              SetRunning(d, names + {n}, running)[n := d[n].(running := !running)] == SetRunning(d, names, running)
  {
    var one := SetRunning(d, names + {n}, running);
    assert one.Keys == SetRunning(d, names, running).Keys == d.Keys;
    assert d[n].(running := !running) == d[n] || d[n].running == running;
  }

  lemma RestrictStep(before: Containers, made: Containers, names: set<string>, n: string)
    requires n !in before && n in made && n !in names
    ensures before + Restrict(made, names + {n}) == (before + Restrict(made, names))[n := made[n]]
    ensures (before + Restrict(made, names + {n})) - {n} == before + Restrict(made, names)
  {
    var one, less := before + Restrict(made, names + {n}), before + Restrict(made, names);
    assert one.Keys == less.Keys + {n} && n !in less;
    assert (one - {n}).Keys == less.Keys;
  }

  // ---------- Compensation ----------

  /** One call was made for each name from the last down to the one at `index`. */
  ghost predicate Undoing(h: seq<Event>, h': seq<Event>, names: seq<string>, index: nat)
    requires index <= |names|
  {
    && h <= h' && |h'| == |h| + |names| - index
    && forall j :: |h| <= j < |h'| ==> h'[j].call.name == names[|h| + |names| - 1 - j]
  }

  /** One call was made for each name, latest first. */
  ghost predicate Undone(h: seq<Event>, h': seq<Event>, names: seq<string>) {
    Undoing(h, h', names, 0)
  }

  /** compensateStop: whatever this call started is stopped again, latest first. */
  method CompensateStop(api: Docker, names: seq<string>, ghost before: Containers) returns (ghost missed: set<string>)
    requires NoRepeats(names) && api.containers == SetRunning(before, Elements(names), true)
    requires forall n :: n in names ==> n in before && !before[n].running
    modifies api
    ensures missed <= Elements(names) && api.containers == SetRunning(before, missed, true)
    ensures forall n :: n in missed ==> Event(StopCall(n), false) in api.history
    ensures Undone(old(api.history), api.history, names)
    ensures forall k :: |old(api.history)| <= k < |api.history| ==> api.history[k].call.StopCall?
    ensures api.healthy ==> missed == {}
  {
    missed := {};
    var index := |names|;
    assert names[..index] == names && Elements(names) + missed == Elements(names);
    while index > 0
      invariant 0 <= index <= |names|
      invariant missed <= Elements(names) && missed !! Elements(names[..index])
      invariant api.containers == SetRunning(before, Elements(names[..index]) + missed, true)
      invariant forall n :: n in missed ==> Event(StopCall(n), false) in api.history
      invariant Undoing(old(api.history), api.history, names, index)
      invariant forall k :: |old(api.history)| <= k < |api.history| ==> api.history[k].call.StopCall?
      invariant api.healthy ==> missed == {}
    {
      index := index - 1;
      ghost var n, rest := names[index], Elements(names[..index]) + missed;
      ElementsAppend(names, index);
      assert rest + {n} == Elements(names[..index + 1]) + missed;
      SetRunningStep(before, rest, n, true);
      var ok := api.Stop(names[index]);
      if !ok {
        missed := missed + {n};
        assert rest + {n} == Elements(names[..index]) + missed;
      }
    }
    assert Elements(names[..0]) + missed == missed;
  }

  /** compensateStart: whatever this call stopped is started again. */
  method CompensateStart(api: Docker, names: seq<string>, ghost before: Containers) returns (ghost missed: set<string>)
    requires NoRepeats(names) && api.containers == SetRunning(before, Elements(names), false)
    requires forall n :: n in names ==> n in before && before[n].running
    modifies api
    ensures missed <= Elements(names) && api.containers == SetRunning(before, missed, false)
    ensures forall n :: n in missed ==> Event(StartCall(n), false) in api.history
    ensures Undone(old(api.history), api.history, names)
    ensures forall k :: |old(api.history)| <= k < |api.history| ==> api.history[k].call.StartCall?
    ensures api.healthy ==> missed == {}
  {
    missed := {};
    var index := |names|;
    assert names[..index] == names && Elements(names) + missed == Elements(names);
    while index > 0
      invariant 0 <= index <= |names|
      invariant missed <= Elements(names) && missed !! Elements(names[..index])
      invariant api.containers == SetRunning(before, Elements(names[..index]) + missed, false)
      invariant forall n :: n in missed ==> Event(StartCall(n), false) in api.history
      invariant Undoing(old(api.history), api.history, names, index)
      invariant forall k :: |old(api.history)| <= k < |api.history| ==> api.history[k].call.StartCall?
      invariant api.healthy ==> missed == {}
    {
      index := index - 1;
      ghost var n, rest := names[index], Elements(names[..index]) + missed;
      ElementsAppend(names, index);
      assert rest + {n} == Elements(names[..index + 1]) + missed;
      SetRunningStep(before, rest, n, false);
      var ok := api.Start(names[index]);
      if !ok {
        missed := missed + {n};
        assert rest + {n} == Elements(names[..index]) + missed;
      }
    }
    assert Elements(names[..0]) + missed == missed;
  }

  /** compensateRemove: whatever this call created is removed again. */
  method CompensateRemove(api: Docker, names: seq<string>, ghost before: Containers, ghost made: Containers)
    returns (ghost missed: set<string>)
    requires NoRepeats(names) && api.containers == before + Restrict(made, Elements(names))
    requires forall n :: n in names ==> n !in before && n in made
    modifies api
    ensures missed <= Elements(names) && api.containers == before + Restrict(made, missed)
    ensures forall n :: n in missed ==> Event(RemoveCall(n), false) in api.history
    ensures Undone(old(api.history), api.history, names)
    ensures forall k :: |old(api.history)| <= k < |api.history| ==> api.history[k].call.RemoveCall?
    ensures api.healthy ==> missed == {}
  {
    missed := {};
    var index := |names|;
    ghost var left := Elements(names);     // what is still there
    assert names[..index] == names;
    while index > 0
      invariant 0 <= index <= |names|
      invariant left == Elements(names[..index]) + missed
      invariant missed <= Elements(names) - Elements(names[..index])
      invariant api.containers == before + Restrict(made, left)
      invariant forall n :: n in missed ==> Event(RemoveCall(n), false) in api.history
      invariant Undoing(old(api.history), api.history, names, index)
      invariant forall k :: |old(api.history)| <= k < |api.history| ==> api.history[k].call.RemoveCall?
      invariant api.healthy ==> missed == {}
    {
      index := index - 1;
      left, missed := RemoveOne(api, names, index, before, made, missed);
    }
    assert left == missed;
  }

  /** One step of that loop. */
  method RemoveOne(api: Docker, names: seq<string>, index: nat, ghost before: Containers, ghost made: Containers,
                   ghost missed: set<string>)
    returns (ghost left: set<string>, ghost missed': set<string>)
    requires index < |names| && NoRepeats(names) && names[index] !in before && names[index] in made
    requires missed <= Elements(names) - Elements(names[..index + 1])
    requires api.containers == before + Restrict(made, Elements(names[..index + 1]) + missed)
    modifies api
    ensures left == Elements(names[..index]) + missed'
    ensures missed' == missed || missed' == missed + {names[index]}
    ensures missed' <= Elements(names) - Elements(names[..index])
    ensures api.containers == before + Restrict(made, left)
    ensures api.history == old(api.history) + [Event(RemoveCall(names[index]), missed' == missed)]
    ensures api.healthy ==> missed' == missed
  {
    ElementsAppend(names, index);
    left := Elements(names[..index]) + missed;
    assert left + {names[index]} == Elements(names[..index + 1]) + missed;
    RestrictStep(before, made, left, names[index]);
    var ok := api.Remove(names[index], true);
    missed' := missed;
    if !ok {
      left, missed' := left + {names[index]}, missed + {names[index]};
    }
  }

  // ---------- The operations ----------

  class DockerExecutor {
    const api: Docker

    constructor (api: Docker)
      ensures this.api == api
    {
      this.api := api;
    }

    /** inspectComponent when `exact`, inspectOwnedComponent (no fingerprint check) otherwise. */
    method InspectComponent(environment: string, c: Component, exact: bool) returns (r: Look)
      modifies api`history
      ensures r.Absent? ==> c.name !in api.containers
      ensures r.Present? ==>
                && c.name in api.containers && r.running == api.containers[c.name].running
                && (if exact then Matches(api.containers[c.name], environment, c)
                    else Owned(api.containers[c.name], environment, c))
      ensures r.Rejected? ==> r.why == Mismatch || r.why == Unreadable
      ensures r == Rejected(Unreadable) ==> !api.healthy
      ensures api.history == old(api.history) + [Event(InspectCall(c.name), r != Rejected(Unreadable))]
      ensures r == Rejected(Mismatch) ==>
                c.name in api.containers
                && !(if exact then Matches(api.containers[c.name], environment, c)
                     else Owned(api.containers[c.name], environment, c))
    {
      var i := api.Inspect(c.name);
      match i
      case NotFound => r := Absent;
      case Unreachable => r := Rejected(Unreadable);
      case Found(d) =>
        if !d.managed || d.environment != environment || d.ctype != c.ctype
           || (exact && d.fingerprint != c.fingerprint)
        {
          r := Rejected(Mismatch);
        } else {
          r := Present(d.running);
        }
    }

    /** inspectStates: which components run, if everything there matches. */
    method InspectStates(p: Payload, requireAll: bool) returns (ok: bool, why: Why, running: set<string>)
      modifies api`history
      ensures Looked(old(api.history), api.history) && why != LastLook
      ensures ok ==> AllMatch(api.containers, p) && (requireAll ==> AllPresent(api.containers, p))
      ensures ok ==> forall c :: c in p.components ==>
                (c.name in running <==> c.name in api.containers && api.containers[c.name].running)
      ensures ok ==> running <= Names(p.components)
      ensures api.healthy && AllMatch(api.containers, p) && (requireAll ==> AllPresent(api.containers, p)) ==> ok
    {
      ok, why, running := false, Invalid, {};
      for i := 0 to |p.components|
        invariant forall k :: 0 <= k < i ==>
                    var c := p.components[k];
                    && (c.name in api.containers ==> Matches(api.containers[c.name], p.environment, c))
                    && (requireAll ==> c.name in api.containers)
                    && (c.name in running <==> c.name in api.containers && api.containers[c.name].running)
        invariant forall n :: n in running ==> n in api.containers && api.containers[n].running
        invariant running <= Names(p.components)
        invariant Looked(old(api.history), api.history)
      {
        var c := p.components[i];
        assert c in p.components;
        var look := InspectComponent(p.environment, c, true);
        if look.Rejected? { why := look.why; return; }
        if requireAll && look.Absent? { why := MissingComponent; return; }
        if look.Present? && look.running { running := running + {c.name}; }
      }
      ok := true;
    }

    /** inspectPair, as InspectPair and the end of StopPair use it (absent components allowed). */
    method InspectResult(p: Payload) returns (r: Outcome)
      modifies api`history
      ensures Looked(old(api.history), api.history)
      ensures r.Refused? && AllMatch(api.containers, p) ==> EndsUnread(old(api.history), api.history, p)
      ensures r.Done? ==> AllMatch(api.containers, p) && r.pair == PairBy(p.components, DockerStates(api.containers))
      ensures api.healthy ==> r.Done? == AllMatch(api.containers, p)
    {
      var result := EMPTY;
      for i := 0 to |p.components|
        invariant Looked(old(api.history), api.history)
        invariant result == PairBy(p.components[..i], DockerStates(api.containers))
        invariant forall k :: 0 <= k < i && p.components[k].name in api.containers ==>
                    Matches(api.containers[p.components[k].name], p.environment, p.components[k])
      {
        var c := p.components[i];
        assert c in p.components;
        var look := InspectComponent(p.environment, c, true);
        if look.Rejected? { return Refused(look.why); }
        var state := if look.Absent? then Missing else if look.running then Running else Stopped;
        assert p.components[..i + 1][..i] == p.components[..i];
        result := Assign(result, c, state);
      }
      assert p.components[..|p.components|] == p.components;
      return Done(result);
    }

    method InspectPair(p: Payload) returns (r: Outcome)
      modifies api`history
      ensures r.Done? ==> ValidIdentity(p) && AllMatch(api.containers, p)
                          && r.pair == PairBy(p.components, DockerStates(api.containers))
      ensures api.healthy ==> r.Done? == (ValidIdentity(p) && AllMatch(api.containers, p))
    {
      var ok := ValidatePairIdentity(p);
      if !ok { return Refused(Invalid); }
      r := InspectResult(p);
    }

    // ---------- StartPair ----------

    /** The starting loop: on failure what it started is stopped again. */
    method StartComponents(p: Payload, running: set<string>)
      returns (ok: bool, started: seq<string>, ghost missed: set<string>)
      requires Distinct(p.components) && AllPresent(api.containers, p)
      requires forall c :: c in p.components ==> (c.name in running <==> api.containers[c.name].running)
      modifies api
      ensures !ok ==> StartUndone(old(api.containers), api.containers, p, missed)
      ensures !ok ==> forall n :: n in missed ==> Event(StopCall(n), false) in api.history
      ensures ok ==> api.containers == SetRunning(old(api.containers), Elements(started), true)
      ensures ok ==> api.containers == SetRunning(old(api.containers), Names(p.components), true)
      ensures NoRepeats(started)
      ensures forall n :: n in started ==>
                n in Names(p.components) && n in old(api.containers) && !old(api.containers)[n].running
      ensures api.healthy ==> ok
    {
      ok, started, missed := false, [], {};
      ghost var before := api.containers;
      for i := 0 to |p.components|
        invariant NoRepeats(started) && Elements(started) <= Names(p.components[..i])
        invariant forall n :: n in started ==> n in Names(p.components) && n in before && !before[n].running
        invariant forall n :: n in Names(p.components[..i]) && n !in started ==> n in before && before[n].running
        invariant api.containers == SetRunning(before, Elements(started), true)
      {
        var c := p.components[i];
        assert c in p.components && c.name in Names(p.components);
        NamesAppend(p.components, i);
        if c.name !in running {
          assert c.name !in Elements(started);
          SetRunningStep(before, Elements(started), c.name, true);
          var up := api.Start(c.name);
          if !up {
            missed := CompensateStop(api, started, before);
            return;
          }
          assert Elements(started + [c.name]) == Elements(started) + {c.name};
          started := started + [c.name];
        }
      }
      assert p.components[..|p.components|] == p.components;
      AlreadyRunning(before, Elements(started), Names(p.components));
      ok := true;
    }

    method StartPair(p: Payload) returns (r: Outcome, ghost missed: set<string>)
      modifies api
      ensures Untouched(old(api.containers), api.containers, p)
      ensures r.Done? ==>
                && DockerAccepts(old(api.containers), Op.Start, p)
                && api.containers == DockerMap(old(api.containers), Op.Start, p)
                && r.pair == DockerPair(old(api.containers), Op.Start, p)
      ensures r.Refused? ==> StartUndone(old(api.containers), api.containers, p, missed)
      ensures forall n :: n in missed ==> Event(StopCall(n), false) in api.history
      ensures !AllMatch(old(api.containers), p) ==> api.containers == old(api.containers)
      ensures api.healthy ==> r.Done? == DockerAccepts(old(api.containers), Op.Start, p)
    {
      api.Begin();
      missed := {};
      SetNothing(api.containers, true);
      var ok := ValidatePairIdentity(p);
      if !ok { return Refused(Invalid), missed; }
      ok := api.Probe();                                   // MPS service
      if !ok { return Refused(Setup), missed; }
      var why, running;
      ok, why, running := InspectStates(p, true);
      if !ok { return Refused(why), missed; }
      ghost var before := api.containers;
      var started;
      ok, started, missed := StartComponents(p, running);
      if !ok {
        SetUntouched(before, p, missed, true);
        return Refused(CallFailed), missed;
      }
      missed := {};
      ok := api.Probe();                                   // MPS shims, readiness, annotation sign-in
      if !ok {
        missed := CompensateStop(api, started, before);
        SetUntouched(before, p, missed, true);
        return Refused(NotReady), missed;
      }
      SetUntouched(before, p, Names(p.components), true);
      r := Done(PairWith(p.components, Running));
    }

    // ---------- StopPair ----------

    /** One more container is stopped. */
    method StopNext(name: string, stopped: seq<string>, ghost before: Containers) returns (down: bool)
      requires api.containers == SetRunning(before, Elements(stopped), false)
      requires name !in stopped && name in before
      modifies api
      ensures api.containers == SetRunning(before, Elements(if down then stopped + [name] else stopped), false)
      ensures api.history == old(api.history) + [Event(StopCall(name), down)]
      ensures Elements(stopped + [name]) == Elements(stopped) + {name}
      ensures api.healthy ==> down
    {
      SetRunningStep(before, Elements(stopped), name, false);
      assert Elements(stopped + [name]) == Elements(stopped) + {name};
      down := api.Stop(name);
    }

    /** The stopping loop, up to the first failure. */
    method StopEach(p: Payload, running: set<string>) returns (ok: bool, stopped: seq<string>)
      requires Distinct(p.components)
      requires forall c :: c in p.components ==>
                 (c.name in running <==> c.name in api.containers && api.containers[c.name].running)
      modifies api
      ensures NoRepeats(stopped) && api.containers == SetRunning(old(api.containers), Elements(stopped), false)
      ensures forall n :: n in stopped ==>
                n in Names(p.components) && n in old(api.containers) && old(api.containers)[n].running
      ensures ok ==> forall n :: n in Names(p.components) && n !in stopped && n in old(api.containers) ==>
                       !old(api.containers)[n].running
      ensures Moved(old(api.history), api.history, ok)
      ensures ok ==> |api.history| == |old(api.history)| + |stopped|
      ensures api.healthy ==> ok
    {
      ok, stopped := false, [];
      ghost var before := api.containers;
      for i := 0 to |p.components|
        invariant NoRepeats(stopped) && forall n :: n in stopped ==> n in Names(p.components[..i])
        invariant forall n :: n in stopped ==> n in Names(p.components) && n in before && before[n].running
        invariant forall n :: n in Names(p.components[..i]) && n !in stopped && n in before ==> !before[n].running
        invariant api.containers == SetRunning(before, Elements(stopped), false)
        invariant Moved(old(api.history), api.history, true)
        invariant |api.history| == |old(api.history)| + |stopped|
      {
        var c := p.components[i];
        assert c in p.components && c.name in Names(p.components);
        NamesAppend(p.components, i);
        if c.name in running {
          assert c.name !in stopped;
          var down := StopNext(c.name, stopped, before);
          if !down { return; }
          stopped := stopped + [c.name];
        }
      }
      assert p.components[..|p.components|] == p.components;
      ok := true;
    }

    /** On failure what the loop stopped is started again, latest first. */
    method StopComponents(p: Payload, running: set<string>) returns (ok: bool, ghost missed: set<string>)
      requires Distinct(p.components)
      requires forall c :: c in p.components ==>
                 (c.name in running <==> c.name in api.containers && api.containers[c.name].running)
      modifies api
      ensures !ok ==> StopUndone(old(api.containers), api.containers, p, missed)
      ensures forall n :: n in missed ==> Event(StartCall(n), false) in api.history
      ensures ok ==> missed == {} && api.containers == SetRunning(old(api.containers), Names(p.components), false)
      ensures Moved(old(api.history), api.history, ok)
      ensures ok ==> (|api.history| > |old(api.history)| <==> SomeRunning(old(api.containers), p))
      ensures api.healthy ==> ok
    {
      missed := {};
      ghost var before := api.containers;
      var stopped;
      ok, stopped := StopEach(p, running);
      if ok {
        AlreadyStopped(before, Elements(stopped), Names(p.components));
        SomeStopped(before, p, stopped);
      } else {
        missed := CompensateStart(api, stopped, before);
      }
    }

    /** The final inspection is not compensated: its failure leaves the pair stopped. */
    method StopPair(p: Payload) returns (r: Outcome, ghost missed: set<string>)
      modifies api
      ensures Untouched(old(api.containers), api.containers, p)
      ensures r.Done? ==>
                && DockerAccepts(old(api.containers), Op.Stop, p)
                && api.containers == DockerMap(old(api.containers), Op.Stop, p)
                && r.pair == DockerPair(old(api.containers), Op.Stop, p)
      ensures r.Refused? && r.why != LastLook ==> StopUndone(old(api.containers), api.containers, p, missed)
      ensures r == Refused(LastLook) ==> api.containers == DockerMap(old(api.containers), Op.Stop, p)
      ensures r == Refused(LastLook) ==>
                !api.healthy && EndsUnread([], api.history, p)
                && forall a :: a in api.history && !a.ok ==> a.call.InspectCall?
      ensures r.Refused? && missed == {} ==>
                (api.containers != old(api.containers) <==> UnreadAfterStop(api.history))
      ensures forall n :: n in missed ==> Event(StartCall(n), false) in api.history
      ensures !AllMatch(old(api.containers), p) ==> api.containers == old(api.containers)
      ensures api.healthy ==> r.Done? == DockerAccepts(old(api.containers), Op.Stop, p)
    {
      api.Begin();
      missed := {};
      SetNothing(api.containers, false);
      var ok := ValidatePairIdentity(p);
      if !ok { return Refused(Invalid), missed; }
      var why, running;
      ok, why, running := InspectStates(p, false);
      if !ok { return Refused(why), missed; }
      ghost var before, looks := api.containers, api.history;
      StopChangesIff(before, p);
      ok, missed := StopComponents(p, running);
      ghost var moves := api.history;
      if !ok {
        SetUntouched(before, p, missed, false);
        return Refused(CallFailed), missed;
      }
      SetUntouched(before, p, Names(p.components), false);
      r := InspectResult(p);
      if r.Refused? {
        r := Refused(LastLook);
        StopsThenLook(looks, moves, api.history, p);
      }
    }

    // ---------- CreatePair ----------

    /** The first loop of createPair: which components are missing, if the others match. */
    method FindMissing(p: Payload) returns (ok: bool, why: Why, missing: seq<Component>)
      requires Distinct(p.components)
      modifies api`history
      ensures ok ==> AllMatch(api.containers, p) && Distinct(missing)
      ensures ok ==> forall c :: c in missing <==> c in p.components && c.name !in api.containers
      ensures api.healthy && AllMatch(api.containers, p) ==> ok
    {
      ok, why, missing := false, Invalid, [];
      for i := 0 to |p.components|
        invariant Distinct(missing)
        invariant forall c :: c in missing <==> c in p.components[..i] && c.name !in api.containers
        invariant forall c :: c in p.components[..i] && c.name in api.containers ==>
                    Matches(api.containers[c.name], p.environment, c)
      {
        var c := p.components[i];
        NamesAppend(p.components, i);
        assert c in p.components;
        var look := InspectComponent(p.environment, c, true);
        if look.Rejected? { why := look.why; return; }
        if look.Absent? {
          forall x | x in missing ensures x.name != c.name && x.ctype != c.ctype {
            var k :| 0 <= k < i && p.components[k] == x;
          }
          missing := missing + [c];
        }
      }
      assert p.components[..|p.components|] == p.components;
      ok := true;
    }

    method CreateOne(environment: string, c: Component) returns (ok: bool)
      requires c.name !in api.containers
      modifies api
      ensures api.containers == if ok then old(api.containers)[c.name := Made(environment, c)] else old(api.containers)
      ensures api.healthy ==> ok
    {
      ok := api.Probe();                                  // dockerConfigs: ports and TLS files
      if ok {
        ok := api.Create(c.name, Made(environment, c));
      }
    }

    /** One more component is created. */
    method CreateNext(environment: string, missing: seq<Component>, i: nat, created: seq<string>,
                      ghost before: Containers)
      returns (built: bool)
      requires Distinct(missing) && i < |missing| && missing[i].name !in before
      requires Elements(created) == Names(missing[..i])
      requires api.containers == before + Restrict(New(environment, missing), Elements(created))
      modifies api
      ensures api.containers
           == before + Restrict(New(environment, missing),
                                Elements(if built then created + [missing[i].name] else created))
      ensures missing[i].name !in created && Elements(created + [missing[i].name]) == Names(missing[..i + 1])
      ensures api.healthy ==> built
    {
      var c := missing[i];
      assert c in missing;
      NamesAppend(missing, i);
      assert c.name !in Elements(created);
      assert Elements(created + [c.name]) == Elements(created) + {c.name};
      NewAt(environment, missing, c);
      RestrictStep(before, New(environment, missing), Elements(created), c.name);
      built := CreateOne(environment, c);
    }

    /** The second loop, up to the first failure. */
    method CreateEach(environment: string, missing: seq<Component>) returns (ok: bool, created: seq<string>)
      requires Distinct(missing) && forall c :: c in missing ==> c.name !in api.containers
      modifies api
      ensures NoRepeats(created) && Elements(created) <= Names(missing)
      ensures api.containers == old(api.containers) + Restrict(New(environment, missing), Elements(created))
      ensures ok ==> Elements(created) == Names(missing)
      ensures api.healthy ==> ok
    {
      ok, created := false, [];
      ghost var before, made := api.containers, New(environment, missing);
      for i := 0 to |missing|
        invariant NoRepeats(created) && Elements(created) == Names(missing[..i])
        invariant Elements(created) <= Names(missing)
        invariant api.containers == before + Restrict(made, Elements(created))
      {
        PrefixNames(missing, i);
        var built := CreateNext(environment, missing, i, created, before);
        if !built { return; }
        created := created + [missing[i].name];
      }
      assert missing[..|missing|] == missing;
      ok := true;
    }

    /** On failure what the loop created is removed again, latest first. */
    method CreateComponents(environment: string, missing: seq<Component>)
      returns (ok: bool, ghost missed: set<string>)
      requires Distinct(missing) && forall c :: c in missing ==> c.name !in api.containers
      modifies api
      ensures missed <= Names(missing)
      ensures api.containers
           == old(api.containers) + Restrict(New(environment, missing), if ok then Names(missing) else missed)
      ensures forall n :: n in missed ==> Event(RemoveCall(n), false) in api.history
      ensures api.healthy ==> ok
      ensures ok ==> missed == {}
    {
      missed := {};
      ghost var before := api.containers;
      var created;
      ok, created := CreateEach(environment, missing);
      if !ok {
        forall n | n in created ensures n !in before && n in New(environment, missing) {
          assert n in Elements(created) && n in Names(missing);
        }
        missed := CompensateRemove(api, created, before, New(environment, missing));
      }
    }

    /** createPair, shared by CreatePair and RestorePair. */
    method CreateAbsent(p: Payload) returns (r: Outcome, ghost missed: set<string>)
      requires Distinct(p.components)
      modifies api
      ensures r.Done? ==>
                && AllMatch(old(api.containers), p)
                && api.containers == New(p.environment, p.components) + old(api.containers)
                && r.pair == PairWith(p.components, Stopped)
      ensures r.Refused? ==> CreateUndone(old(api.containers), api.containers, p, missed)
      ensures forall n :: n in missed ==> Event(RemoveCall(n), false) in api.history
      ensures !AllMatch(old(api.containers), p) ==> api.containers == old(api.containers)
      ensures api.healthy ==> r.Done? == AllMatch(old(api.containers), p)
      ensures r.Done? ==> missed == {}
    {
      missed := {};
      RestrictNothing(api.containers, New(p.environment, p.components));
      var ok := api.Probe();                              // make the workspace, set its mode
      if !ok { return Refused(Setup), missed; }
      var why, missing;
      ok, why, missing := FindMissing(p);
      if !ok { return Refused(why), missed; }
      ghost var before := api.containers;
      ok, missed := CreateComponents(p.environment, missing);
      MissingMade(before, p, missing, missed);
      if !ok { return Refused(CallFailed), missed; }
      MissingMade(before, p, missing, Names(missing));
      AllMade(before, p, missing);
      r := Done(PairWith(p.components, Stopped));
    }

    method CreatePair(p: Payload) returns (r: Outcome, ghost missed: set<string>)
      modifies api
      ensures Untouched(old(api.containers), api.containers, p)
      ensures r.Done? ==>
                && DockerAccepts(old(api.containers), Op.Create, p)
                && api.containers == DockerMap(old(api.containers), Op.Create, p)
                && r.pair == DockerPair(old(api.containers), Op.Create, p)
      ensures r.Refused? ==> CreateUndone(old(api.containers), api.containers, p, missed)
      ensures forall n :: n in missed ==> Event(RemoveCall(n), false) in api.history
      ensures !AllMatch(old(api.containers), p) ==> api.containers == old(api.containers)
      ensures api.healthy ==> r.Done? == DockerAccepts(old(api.containers), Op.Create, p)
    {
      api.Begin();
      missed := {};
      RestrictNothing(api.containers, New(p.environment, p.components));
      var ok := ValidatePairIdentity(p);
      if !ok || !p.createAccepted { return Refused(Invalid), missed; }
      ok := api.Probe();                                   // MPS service
      if !ok { return Refused(Setup), missed; }
      ghost var before := api.containers;
      r, missed := CreateAbsent(p);
      CreateUntouched(before, p, missed);
    }

    // ---------- RestorePair ----------

    /** The inspection loop of RestorePair. */
    method InspectOwned(p: Payload) returns (ok: bool, why: Why, running: set<string>)
      modifies api`history
      ensures ok ==> AllOwned(api.containers, p)
      ensures ok ==> forall c :: c in p.components ==>
                (c.name in running <==> c.name in api.containers && api.containers[c.name].running)
      ensures api.healthy ==> ok == AllOwned(api.containers, p)
    {
      ok, why, running := false, Invalid, {};
      for i := 0 to |p.components|
        invariant forall k :: 0 <= k < i && p.components[k].name in api.containers ==>
                    Owned(api.containers[p.components[k].name], p.environment, p.components[k])
        invariant forall k :: 0 <= k < i ==>
                    (p.components[k].name in api.containers && api.containers[p.components[k].name].running
                     ==> p.components[k].name in running)
        invariant forall n :: n in running ==> n in api.containers && api.containers[n].running
      {
        var c := p.components[i];
        assert c in p.components;
        var look := InspectComponent(p.environment, c, false);
        if look.Rejected? { why := look.why; return; }
        if look.Present? && look.running { running := running + {c.name}; }
      }
      ok := true;
    }

    /** The stopping loop of RestorePair; a failure is not compensated. */
    method StopOwned(p: Payload, running: set<string>) returns (ok: bool)
      requires Distinct(p.components)
      requires forall c :: c in p.components ==>
                 (c.name in running <==> c.name in api.containers && api.containers[c.name].running)
      modifies api
      ensures OnlyStopped(old(api.containers), api.containers, p)
      ensures ok ==> api.containers == SetRunning(old(api.containers), Names(p.components), false)
      ensures api.healthy ==> ok
    {
      ghost var before := api.containers;
      for i := 0 to |p.components|
        invariant api.containers == SetRunning(before, Names(p.components[..i]), false)
      {
        var c := p.components[i];
        assert c in p.components;
        NamesAppend(p.components, i);
        PrefixNames(p.components, i);
        if c.name in running {
          SetRunningStep(before, Names(p.components[..i]), c.name, false);
          var down := api.Stop(c.name);
          if !down {
            assert Names(p.components[..i]) <= Names(p.components);
            return false;
          }
        } else {
          AlreadyStopped(before, Names(p.components[..i]), Names(p.components[..i + 1]));
        }
      }
      assert p.components[..|p.components|] == p.components;
      return true;
    }

    /** The removal loop of RestorePair, on owned components that are all stopped. */
    method RemoveOwned(p: Payload) returns (ok: bool, why: Why)
      requires Distinct(p.components) && AllOwned(api.containers, p)
      requires forall c :: c in p.components && c.name in api.containers ==> !api.containers[c.name].running
      modifies api
      ensures exists names :: names <= Names(p.components) && api.containers == old(api.containers) - names
      ensures ok ==> api.containers == old(api.containers) - Names(p.components)
      ensures api.healthy ==> ok
    {
      ok, why := false, Invalid;
      ghost var before := api.containers;
      for i := 0 to |p.components|
        invariant api.containers == before - Names(p.components[..i])
      {
        var c := p.components[i];
        assert c in p.components && c.name in Names(p.components);
        NamesAppend(p.components, i);
        assert Names(p.components[..i]) <= Names(p.components);
        var look := InspectComponent(p.environment, c, false);
        if look.Rejected? { why := look.why; return; }
        if look.Present? {
          var gone := api.Remove(c.name, false);
          if !gone { why := CallFailed; return; }
        }
      }
      assert p.components[..|p.components|] == p.components;
      ok := true;
    }

    /** The second half of RestorePair: remove the stopped components, create them anew. */
    method Rebuild(p: Payload) returns (r: Outcome)
      requires Distinct(p.components) && AllOwned(api.containers, p)
      requires forall c :: c in p.components && c.name in api.containers ==> !api.containers[c.name].running
      modifies api
      ensures forall n :: n !in Names(p.components) ==> SameAt(old(api.containers), api.containers, n)
      ensures r.Done? ==> api.containers == old(api.containers) + New(p.environment, p.components)
      ensures r.Done? ==> r.pair == PairWith(p.components, Stopped)
      ensures r.Refused? ==> forall c :: c in p.components ==> Halfway(old(api.containers), api.containers, p, c)
      ensures r.Refused? ==> AllDown(api.containers, p)
      ensures api.healthy ==> r.Done?
    {
      ghost var before := api.containers;
      var ok, why := RemoveOwned(p);
      if !ok { return Refused(why); }
      forall c | c in p.components ensures c.name !in api.containers { assert c.name in Names(p.components); }
      ghost var missed;
      r, missed := CreateAbsent(p);
      if r.Done? {
        Replaced(before, New(p.environment, p.components), Names(p.components));
      } else {
        forall c | c in p.components ensures Halfway(before, api.containers, p, c) {
          NewAt(p.environment, p.components, c);
        }
        forall c | c in p.components && c.name in api.containers ensures !api.containers[c.name].running {
          NewAt(p.environment, p.components, c);
        }
      }
    }

    /** Components may be missing, running, stopped, or of an older fingerprint. */
    method RestorePair(p: Payload) returns (r: Outcome)
      modifies api
      ensures Untouched(old(api.containers), api.containers, p)
      ensures r.Done? ==>
                && DockerAccepts(old(api.containers), Op.Restore, p)
                && api.containers == DockerMap(old(api.containers), Op.Restore, p)
                && r.pair == DockerPair(old(api.containers), Op.Restore, p)
      ensures !AllOwned(old(api.containers), p) ==> api.containers == old(api.containers)
      ensures r.Refused? ==> forall c :: c in p.components ==> Halfway(old(api.containers), api.containers, p, c)
      ensures r.Refused? ==> OnlyStopped(old(api.containers), api.containers, p) || AllDown(api.containers, p)
      ensures api.healthy ==> r.Done? == DockerAccepts(old(api.containers), Op.Restore, p)
      ensures api.healthy && ValidIdentity(p) && p.createAccepted
              && (forall c :: c in p.components && c.name in old(api.containers) ==>
                    && old(api.containers)[c.name].managed
                    && old(api.containers)[c.name].environment == p.environment
                    && old(api.containers)[c.name].ctype == c.ctype) ==>
                && r.Done?
                && forall c :: c in p.components ==>
                     && c.name in api.containers
                     && api.containers[c.name] == Container(true, p.environment, c.ctype, c.fingerprint, false)
    {
      api.Begin();
      SetNothing(api.containers, false);
      assert OnlyStopped(api.containers, api.containers, p);
      var ok := ValidatePairIdentity(p);
      if !ok || !p.createAccepted { return Refused(Invalid); }
      ok := api.Probe();                                   // MPS service
      if !ok { return Refused(Setup); }
      ghost var before := api.containers;
      var why;
      var running;
      ok, why, running := InspectOwned(p);
      if !ok { return Refused(why); }
      ok := StopOwned(p, running);
      if !ok {
        OwnedUntouched(before, api.containers, p);
        return Refused(CallFailed);
      }
      StoppedOwned(before, p);
      r := Rebuild(p);
      OwnedUntouched(before, api.containers, p);
      if r.Done? {
        Overwritten(before, Names(p.components), New(p.environment, p.components));
        forall c | c in p.components
          ensures c.name in api.containers
          ensures api.containers[c.name] == Container(true, p.environment, c.ctype, c.fingerprint, false)
        {
          RestoreMeaning(before, p, c);
        }
      }
    }

    // ---------- DeletePair ----------

    /** One component: checked, stopped, removed. */
    method DeleteOne(p: Payload, i: nat, ghost before: Containers) returns (ok: bool, why: Why)
      requires i < |p.components| && Distinct(p.components)
      requires OwnedPrefix(before, p, i) && api.containers == before - Names(p.components[..i])
      modifies api
      ensures Untouched(before, api.containers, p)
      ensures ok ==> OwnedPrefix(before, p, i + 1) && api.containers == before - Names(p.components[..i + 1])
      ensures !ok ==> LeftBehind(before, api.containers, p, i)
      ensures api.healthy ==> ok == OwnedPrefix(before, p, i + 1)
      ensures api.healthy && !ok ==> api.containers == before - Names(p.components[..i])
    {
      why := CallFailed;
      var c := p.components[i];
      NamesAppend(p.components, i);
      PrefixDeleted(before, p, i);
      var look := InspectComponent(p.environment, c, false);
      if look.Rejected? { return false, look.why; }
      if look.Present? {
        if look.running {
          ok := api.Stop(c.name);
          if !ok { return; }
          StoppedAfterPrefix(before, p, i);
        }
        ok := api.Remove(c.name, false);
        if !ok { return; }
      }
      PrefixDeleted(before, p, i + 1);
      ok := true;
    }

    /** Checked, stopped and removed one component at a time: an identity mismatch at a later
        component leaves the earlier ones deleted, and a failing call may leave one stopped. */
    method DeletePair(p: Payload) returns (r: Outcome)
      modifies api
      ensures Untouched(old(api.containers), api.containers, p)
      ensures r.Done? ==>
                && DockerAccepts(old(api.containers), Op.Delete, p)
                && api.containers == DockerMap(old(api.containers), Op.Delete, p)
                && r.pair == DockerPair(old(api.containers), Op.Delete, p)
      ensures r.Refused? ==> exists k :: 0 <= k <= |p.components| && OwnedPrefix(old(api.containers), p, k)
                                       && LeftBehind(old(api.containers), api.containers, p, k)
      ensures api.healthy ==> r.Done? == DockerAccepts(old(api.containers), Op.Delete, p)
      ensures api.healthy && ValidIdentity(p) ==>
                api.containers == old(api.containers) - Names(p.components[..Leading(old(api.containers), p, 0)])
    {
      api.Begin();
      ghost var before := api.containers;
      var ok := ValidatePairIdentity(p);
      assert LeftBehind(before, before, p, 0) by { assert before - Names(p.components[..0]) == before; }
      if !ok { return Refused(Invalid); }
      for i := 0 to |p.components|
        invariant OwnedPrefix(before, p, i) && api.containers == before - Names(p.components[..i])
      {
        var why;
        ok, why := DeleteOne(p, i, before);
        if !ok { return Refused(why); }
      }
      assert p.components[..|p.components|] == p.components;
      PrefixDeleted(before, p, |p.components|);
      r := Done(PairWith(p.components, Missing));
    }
  }

  /** The first i components that are there are owned. */
  predicate OwnedPrefix(d: Containers, p: Payload, i: nat)
    requires i <= |p.components|
  {
    forall k :: 0 <= k < i && p.components[k].name in d ==>
      Owned(d[p.components[k].name], p.environment, p.components[k])
  }

  /** The first component from `from` on that is there but not owned. */
  function Leading(d: Containers, p: Payload, from: nat): (k: nat)
    requires from <= |p.components|
    ensures from <= k <= |p.components|
    ensures forall j :: from <= j < k && p.components[j].name in d ==>
              Owned(d[p.components[j].name], p.environment, p.components[j])
    ensures k < |p.components| ==>
              p.components[k].name in d && !Owned(d[p.components[k].name], p.environment, p.components[k])
    decreases |p.components| - from
  {
    if from == |p.components| then from
    else
      var c := p.components[from];
      if c.name in d && !Owned(d[c.name], p.environment, c) then from else Leading(d, p, from + 1)
  }

  /** What a delete that gave up at component i leaves: those before are gone, and component i
      may have been stopped. */
  ghost predicate LeftBehind(d: Containers, d': Containers, p: Payload, i: nat)
    requires i <= |p.components|
  {
    var rest := d - Names(p.components[..i]);
    || d' == rest
    || (i < |p.components|
        && var n := p.components[i].name;
           && n in d && Owned(d[n], p.environment, p.components[i]) && d[n].running
           && d' == rest[n := d[n].(running := false)])
  }

  /** What a restore that gave up leaves of a component: as it was, stopped, gone, or made anew. */
  predicate Halfway(d: Containers, d': Containers, p: Payload, c: Component) {
    || SameAt(d, d', c.name)
    || c.name !in d'
    || (c.name in d && d'[c.name] == d[c.name].(running := false))
    || d'[c.name] == Made(p.environment, c)
  }

  /** Some of the payload's containers were stopped, and nothing else happened. */
  ghost predicate OnlyStopped(d: Containers, d': Containers, p: Payload) {
    exists names :: names <= Names(p.components) && d' == SetRunning(d, names, false)
  }

  /** No component that is there runs. */
  predicate AllDown(d: Containers, p: Payload) {
    forall c :: c in p.components && c.name in d ==> !d[c.name].running
  }

  /** Nothing but inspections were made. */
  ghost predicate Looked(h: seq<Event>, h': seq<Event>) {
    h <= h' && forall i :: |h| <= i < |h'| ==> h'[i].call.InspectCall?
  }

  /** Nothing but stops and starts were made; and only stops, all successful, when `ok`. */
  ghost predicate Moved(h: seq<Event>, h': seq<Event>, ok: bool) {
    && h <= h'
    && (forall i :: |h| <= i < |h'| ==> h'[i].call.StopCall? || h'[i].call.StartCall?)
    && (ok ==> forall i :: |h| <= i < |h'| ==> h'[i].call.StopCall? && h'[i].ok)
  }

  /** The last thing done was an inspection of one of the payload's containers, and it failed. */
  ghost predicate EndsUnread(h: seq<Event>, h': seq<Event>, p: Payload) {
    |h| < |h'| && exists c :: c in p.components && h'[|h'| - 1] == Event(InspectCall(c.name), false)
  }

  /** An inspection failed after a stop succeeded. */
  ghost predicate UnreadAfterStop(h: seq<Event>) {
    exists i, j :: 0 <= i < j < |h| && h[i].call.StopCall? && h[i].ok && h[j].call.InspectCall? && !h[j].ok
  }

  lemma PrefixNames(cs: seq<Component>, i: nat)
    requires i < |cs|
    ensures Names(cs[..i]) <= Names(cs) && cs[i].name in Names(cs)
  {
    assert cs[i] in cs;
  }

  /** A failed create: only containers this call created and could not remove again are extra. */
  ghost predicate CreateUndone(d: Containers, d': Containers, p: Payload, missed: set<string>) {
    && d' == d + Restrict(New(p.environment, p.components), missed)
    && (forall n :: n in missed ==> n in Names(p.components) && n !in d)
  }

  /** A failed start: only containers this call started and could not stop again differ. */
  ghost predicate StartUndone(d: Containers, d': Containers, p: Payload, missed: set<string>) {
    && d' == SetRunning(d, missed, true)
    && (forall n :: n in missed ==> n in Names(p.components) && n in d && !d[n].running)
  }

  /** A failed stop: only containers this call stopped and could not start again differ. */
  ghost predicate StopUndone(d: Containers, d': Containers, p: Payload, missed: set<string>) {
    && d' == SetRunning(d, missed, false)
    && (forall n :: n in missed ==> n in Names(p.components) && n in d && d[n].running)
  }

  lemma SetNothing(d: Containers, running: bool)
    ensures SetRunning(d, {}, running) == d
  {}

  lemma AlreadyRunning(d: Containers, some: set<string>, all: set<string>)
    requires some <= all && forall n :: n in all && n !in some ==> n in d && d[n].running
    ensures SetRunning(d, some, true) == SetRunning(d, all, true)
  {
    assert SetRunning(d, some, true).Keys == SetRunning(d, all, true).Keys;
  }

  lemma AlreadyStopped(d: Containers, some: set<string>, all: set<string>)
    requires some <= all && forall n :: n in all && n !in some && n in d ==> !d[n].running
    ensures SetRunning(d, some, false) == SetRunning(d, all, false)
  {
    assert SetRunning(d, some, false).Keys == SetRunning(d, all, false).Keys;
  }

  lemma SetUntouched(d: Containers, p: Payload, names: set<string>, running: bool)
    requires AllMatch(d, p) && names <= Names(p.components)
    ensures Untouched(d, SetRunning(d, names, running), p)
    ensures AllMatch(SetRunning(d, names, running), p)
  {}

  lemma RestrictNothing(d: Containers, made: Containers)
    ensures d + Restrict(made, {}) == d
  {}

  lemma Replaced(d: Containers, made: Containers, names: set<string>)
    requires made.Keys == names
    ensures made + (d - names) == d + made
  {
    assert (made + (d - names)).Keys == (d + made).Keys;
  }

  lemma Overwritten(d: Containers, names: set<string>, made: Containers)
    requires made.Keys == names
    ensures SetRunning(d, names, false) + made == d + made
  {
    assert (SetRunning(d, names, false) + made).Keys == (d + made).Keys;
  }

  lemma MissingMadeAt(d: Containers, p: Payload, missing: seq<Component>, n: string)
    requires Distinct(p.components) && Distinct(missing) && n in Names(missing)
    requires forall c :: c in missing <==> c in p.components && c.name !in d
    ensures n in Names(p.components) && n !in d
    ensures New(p.environment, missing)[n] == New(p.environment, p.components)[n]
  {
    var c :| c in missing && c.name == n;
    NewAt(p.environment, missing, c);
    NewAt(p.environment, p.components, c);
  }

  /** The containers made for the missing components are the payload's. */
  lemma MissingMade(d: Containers, p: Payload, missing: seq<Component>, names: set<string>)
    requires Distinct(p.components) && Distinct(missing) && names <= Names(missing)
    requires forall c :: c in missing <==> c in p.components && c.name !in d
    ensures Restrict(New(p.environment, missing), names) == Restrict(New(p.environment, p.components), names)
    ensures forall n :: n in names ==> n in Names(p.components) && n !in d
  {
    forall n | n in names
      ensures n in Names(p.components) && n !in d
      ensures New(p.environment, missing)[n] == New(p.environment, p.components)[n]
    {
      MissingMadeAt(d, p, missing, n);
    }
    SameRestriction(New(p.environment, missing), New(p.environment, p.components), names);
  }

  lemma SameRestriction(a: Containers, b: Containers, names: set<string>)
    requires names <= a.Keys && names <= b.Keys && forall n :: n in names ==> a[n] == b[n]
    ensures Restrict(a, names) == Restrict(b, names)
  {}

  lemma AllMade(d: Containers, p: Payload, missing: seq<Component>)
    requires forall c :: c in missing <==> c in p.components && c.name !in d
    ensures d + Restrict(New(p.environment, p.components), Names(missing)) == New(p.environment, p.components) + d
  {
    var made := New(p.environment, p.components);
    forall n | n in Names(p.components) && n !in d ensures n in Names(missing) {
      var c :| c in p.components && c.name == n;
      assert c in missing;
    }
    assert (d + Restrict(made, Names(missing))).Keys == (made + d).Keys;
  }

  lemma CreateUntouched(d: Containers, p: Payload, missed: set<string>)
    requires forall n :: n in missed ==> n !in d
    ensures Untouched(d, d + Restrict(New(p.environment, p.components), missed), p)
    ensures Untouched(d, New(p.environment, p.components) + d, p)
  {}

  /** When everything in the payload is owned, the frame is about the other names only. */
  lemma OwnedUntouched(d: Containers, d': Containers, p: Payload)
    requires AllOwned(d, p)
    requires forall n :: n !in Names(p.components) ==> SameAt(d, d', n)
    ensures Untouched(d, d', p)
  {}

  lemma StoppedOwned(d: Containers, p: Payload)
    requires AllOwned(d, p)
    ensures AllOwned(SetRunning(d, Names(p.components), false), p)
    ensures forall c :: c in p.components && c.name in d ==> !SetRunning(d, Names(p.components), false)[c.name].running
  {
    forall c | c in p.components ensures c.name in Names(p.components) {}
  }

  lemma PrefixDeleted(d: Containers, p: Payload, i: nat)
    requires i <= |p.components| && Distinct(p.components)
    requires OwnedPrefix(d, p, i)
    ensures Untouched(d, d - Names(p.components[..i]), p)
  {
    forall c | c in p.components && c.name in d && !Owned(d[c.name], p.environment, c)
      ensures c.name !in Names(p.components[..i])
    {}
    forall n | n !in Names(p.components) ensures n !in Names(p.components[..i]) {}
  }

  lemma StoppedAfterPrefix(d: Containers, p: Payload, i: nat)
    requires i < |p.components| && Distinct(p.components)
    requires OwnedPrefix(d, p, i)
    requires p.components[i].name in d && Owned(d[p.components[i].name], p.environment, p.components[i])
    ensures p.components[i].name !in Names(p.components[..i])
    ensures var n := p.components[i].name;
            Untouched(d, (d - Names(p.components[..i]))[n := d[n].(running := false)], p)
  {
    NamesAppend(p.components, i);
    PrefixDeleted(d, p, i);
    PrefixDeleted(d, p, i + 1);
    assert p.components[i] in p.components;
  }

  // ---------- What the maps mean ----------

  /** A successful restore leaves every component stopped, labelled for this environment, at
      the payload's fingerprint, whatever was there before. */
  lemma RestoreMeaning(d: Containers, p: Payload, c: Component)
    requires ValidIdentity(p) && c in p.components
    ensures c.name in DockerMap(d, Op.Restore, p)
    ensures DockerMap(d, Op.Restore, p)[c.name] == Container(true, p.environment, c.ctype, c.fingerprint, false)
  {
    assert c.name in Names(p.components);
    NewAt(p.environment, p.components, c);
  }

  /** Stopping a pair changes the map exactly when some component runs. */
  lemma StopChangesIff(d: Containers, p: Payload)
    ensures DockerMap(d, Op.Stop, p) != d <==> SomeRunning(d, p)
  {
    var d' := DockerMap(d, Op.Stop, p);
    if SomeRunning(d, p) {
      var c :| c in p.components && c.name in d && d[c.name].running;
      assert c.name in Names(p.components) && !d'[c.name].running;
    } else {
      forall n | n in d ensures d'[n] == d[n] {
        if n in Names(p.components) {
          var c :| c in p.components && c.name == n;
        }
      }
      assert d'.Keys == d.Keys;
    }
  }

  lemma SomeStopped(d: Containers, p: Payload, stopped: seq<string>)
    requires forall n :: n in stopped ==> n in Names(p.components) && n in d && d[n].running
    requires forall n :: n in Names(p.components) && n !in stopped && n in d ==> !d[n].running
    ensures stopped != [] <==> SomeRunning(d, p)
  {
    if stopped != [] {
      assert stopped[0] in stopped;
      var c :| c in p.components && c.name == stopped[0];
    }
    if SomeRunning(d, p) {
      var c :| c in p.components && c.name in d && d[c.name].running;
      assert c.name in Names(p.components);
    }
  }

  /** Inspections, then successful stops, then inspections of which the last failed. */
  lemma StopsThenLook(looks: seq<Event>, moves: seq<Event>, h: seq<Event>, p: Payload)
    requires Looked([], looks) && Moved(looks, moves, true) && Looked(moves, h) && EndsUnread(moves, h, p)
    ensures UnreadAfterStop(h) <==> |moves| > |looks|
  {
    if |moves| > |looks| {
      assert h[|looks|] == moves[|looks|];
      assert h[|looks|].call.StopCall? && h[|looks|].ok && h[|h| - 1].call.InspectCall? && !h[|h| - 1].ok;
    } else {
      assert forall i :: 0 <= i < |h| ==> h[i].call.InspectCall?;
    }
  }

  /** A delete refused for a mismatch changes nothing exactly when none of the components in
      front of the first mismatch is there. */
  lemma RefusedDeleteKeepsIff(d: Containers, p: Payload)
    ensures d - Names(p.components[..Leading(d, p, 0)]) == d
       <==> forall k :: 0 <= k < Leading(d, p, 0) ==> p.components[k].name !in d
  {
    var front := p.components[..Leading(d, p, 0)];
    if forall k :: 0 <= k < |front| ==> p.components[k].name !in d {
      forall n | n in Names(front) ensures n !in d {
        var c :| c in front && c.name == n;
      }
      assert (d - Names(front)).Keys == d.Keys;
    } else {
      var k :| 0 <= k < |front| && p.components[k].name in d;
      assert front[k] in front && front[k].name in Names(front);
      assert p.components[k].name !in d - Names(front);
    }
  }

  /** Its first component is the payload's own, its second carries another environment. */
  function HalfForeign(p: Payload): Containers
    requires |p.components| == 2
  {
    map[p.components[0].name := Made(p.environment, p.components[0]),
        p.components[1].name := Made(p.environment + "'", p.components[1])]
  }

  /** It does not always: every payload of two components is refused, and loses its first. */
  lemma RefusedDeleteMayDelete(p: Payload)
    requires ValidIdentity(p) && |p.components| == 2
    ensures var d := HalfForeign(p);
            && !DockerAccepts(d, Op.Delete, p) && Leading(d, p, 0) == 1
            && p.components[0].name in d
            && p.components[0].name !in d - Names(p.components[..Leading(d, p, 0)])
  {
    var d, c := HalfForeign(p), p.components[1];
    assert c in p.components && c.name in d && !Owned(d[c.name], p.environment, c);
    assert Owned(d[p.components[0].name], p.environment, p.components[0]);
    assert p.components[0] in p.components[..1] && p.components[0].name in Names(p.components[..1]);
  }
}
