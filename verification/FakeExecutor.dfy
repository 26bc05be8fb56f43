/** internal/container/fake.go: the in-memory executor, proved against the map functions
    of `Pair`. Making the workspace directory is the parameter `mkdir`. */
module FakeExecutor {
  import opened Common
  import opened Pair

  /** One more component written over a map. */
  lemma PutStep(m: map<string, Entry>, cs: seq<Component>, i: nat, state: State)
    requires i < |cs|
    ensures m + Entries(cs[..i + 1], state)
         == (m + Entries(cs[..i], state))[cs[i].name := Entry(cs[i].ctype, cs[i].fingerprint, state)]
  {
    assert cs[..i + 1][..i] == cs[..i];
  }

  /** The entry whose state is replaced next is still the original one. */
  lemma NextEntry(m: map<string, Entry>, cs: seq<Component>, i: nat, state: State)
    requires i < |cs| && Distinct(cs) && Complete(m, cs)
    ensures cs[i].name in m + Entries(cs[..i], state)
    ensures (m + Entries(cs[..i], state))[cs[i].name].(state := state) == Entry(cs[i].ctype, cs[i].fingerprint, state)
  {
    NamesAppend(cs, i);
    assert cs[i] in cs;
  }

  lemma UpdateUnder(e: map<string, Entry>, m: map<string, Entry>, n: string, v: Entry)
    ensures e[n := v] + m == if n in m then e + m else (e + m)[n := v]
  {
    if n in m {
      assert (e[n := v] + m).Keys == (e + m).Keys;
    } else {
      assert (e[n := v] + m).Keys == (e + m)[n := v].Keys;
    }
  }

  /** One more component added under a map. */
  lemma AddStep(m: map<string, Entry>, cs: seq<Component>, i: nat, state: State)
    requires i < |cs| && Distinct(cs)
    ensures cs[i].name in Entries(cs[..i], state) + m <==> cs[i].name in m
    ensures Entries(cs[..i + 1], state) + m
         == if cs[i].name in m then Entries(cs[..i], state) + m
            else (Entries(cs[..i], state) + m)[cs[i].name := Entry(cs[i].ctype, cs[i].fingerprint, state)]
  {
    assert cs[..i + 1][..i] == cs[..i];
    NamesAppend(cs, i);
    UpdateUnder(Entries(cs[..i], state), m, cs[i].name, Entry(cs[i].ctype, cs[i].fingerprint, state));
  }

  /** What an accepted operation leaves behind is complete, so looking at it succeeds. */
  lemma AfterwardsCompatible(m: map<string, Entry>, op: Op, p: Payload)
    requires FakeAccepts(m, op, p)
    ensures Compatible(FakeMap(m, op, p), p.components)
    ensures !op.Delete? ==> Complete(FakeMap(m, op, p), p.components)
  {
    forall c | c in p.components && !op.Delete?
      ensures c.name in FakeMap(m, op, p) && SameIdentity(FakeMap(m, op, p)[c.name], c)
    {
      EntriesAt(p.components, Stopped, c);
      EntriesAt(p.components, Running, c);
    }
  }

  class FakeExecutor {
    var containers: map<string, Entry>

    constructor ()
      ensures containers == map[]
    {
      containers := map[];
    }

    method PreflightLocked(p: Payload) returns (ok: bool)
      ensures ok == Compatible(containers, p.components)
    {
      for i := 0 to |p.components|
        invariant forall k :: 0 <= k < i && p.components[k].name in containers ==>
                    SameIdentity(containers[p.components[k].name], p.components[k])
      {
        var c := p.components[i];
        if c.name in containers && !SameIdentity(containers[c.name], c) { return false; }
      }
      return true;
    }

    method RequirePairLocked(p: Payload) returns (ok: bool)
      ensures ok == Complete(containers, p.components)
    {
      for i := 0 to |p.components|
        invariant forall k :: 0 <= k < i ==>
                    p.components[k].name in containers
                    && SameIdentity(containers[p.components[k].name], p.components[k])
      {
        var c := p.components[i];
        if c.name !in containers || !SameIdentity(containers[c.name], c) { return false; }
      }
      return true;
    }

    method InspectLocked(p: Payload) returns (r: Option<PairResult>)
      ensures r.Some? == Compatible(containers, p.components)
      ensures r.Some? ==> r.value == PairBy(p.components, StatesOf(containers))
    {
      var result := EMPTY;
      for i := 0 to |p.components|
        invariant result == PairBy(p.components[..i], StatesOf(containers))
        invariant forall k :: 0 <= k < i && p.components[k].name in containers ==>
                    SameIdentity(containers[p.components[k].name], p.components[k])
      {
        var c := p.components[i];
        var state := Missing;
        if c.name in containers {
          if !SameIdentity(containers[c.name], c) { return None; }
          state := containers[c.name].state;
        }
        assert p.components[..i + 1][..i] == p.components[..i];
        result := Assign(result, c, state);
      }
      assert p.components[..|p.components|] == p.components;
      return Some(result);
    }

    method InspectPair(p: Payload) returns (r: Option<PairResult>)
      ensures r.Some? == (ValidIdentity(p) && Compatible(containers, p.components))
      ensures r.Some? ==> r.value == PairBy(p.components, StatesOf(containers))
    {
      var valid := ValidatePairIdentity(p);
      if !valid { return None; }
      r := InspectLocked(p);
    }

    /** The loop of CreatePair: only what is missing is added. */
    method AddMissing(cs: seq<Component>)
      requires Distinct(cs)
      modifies this
      ensures containers == Entries(cs, Stopped) + old(containers)
    {
      for i := 0 to |cs|
        invariant containers == Entries(cs[..i], Stopped) + old(containers)
      {
        AddStep(old(containers), cs, i, Stopped);
        if cs[i].name !in containers {
          containers := containers[cs[i].name := Entry(cs[i].ctype, cs[i].fingerprint, Stopped)];
        }
      }
      assert cs[..|cs|] == cs;
    }

    method CreatePair(p: Payload, mkdir: bool) returns (r: Option<PairResult>)
      modifies this
      ensures r.Some? == (FakeAccepts(old(containers), Create, p) && mkdir)
      ensures containers == if r.Some? then FakeMap(old(containers), Create, p) else old(containers)
      ensures r.Some? ==> r.value == FakePair(old(containers), Create, p)
    {
      var ok := ValidatePairIdentity(p);
      if !ok || !p.createAccepted { return None; }
      ok := PreflightLocked(p);
      if !ok || !mkdir { return None; }
      AddMissing(p.components);
      AfterwardsCompatible(old(containers), Create, p);
      r := InspectLocked(p);
    }

    /** The loop of StartPair and StopPair: the state of every entry is replaced. */
    method SetAll(cs: seq<Component>, state: State)
      requires Distinct(cs) && Complete(containers, cs)
      modifies this
      ensures containers == old(containers) + Entries(cs, state)
    {
      for i := 0 to |cs|
        invariant containers == old(containers) + Entries(cs[..i], state)
      {
        PutStep(old(containers), cs, i, state);
        NextEntry(old(containers), cs, i, state);
        var entry := containers[cs[i].name];
        entry := entry.(state := state);
        containers := containers[cs[i].name := entry];
      }
      assert cs[..|cs|] == cs;
    }

    /** The loop of RestorePair: every entry is replaced. */
    method ReplaceAll(cs: seq<Component>)
      modifies this
      ensures containers == old(containers) + Entries(cs, Stopped)
    {
      for i := 0 to |cs|
        invariant containers == old(containers) + Entries(cs[..i], Stopped)
      {
        PutStep(old(containers), cs, i, Stopped);
        containers := containers[cs[i].name := Entry(cs[i].ctype, cs[i].fingerprint, Stopped)];
      }
      assert cs[..|cs|] == cs;
    }

    method StartPair(p: Payload) returns (r: Option<PairResult>)
      modifies this
      ensures r.Some? == FakeAccepts(old(containers), Start, p)
      ensures containers == if r.Some? then FakeMap(old(containers), Start, p) else old(containers)
      ensures r.Some? ==> r.value == FakePair(old(containers), Start, p)
    {
      var ok := ValidatePairIdentity(p);
      if !ok { return None; }
      ok := RequirePairLocked(p);
      if !ok { return None; }
      SetAll(p.components, Running);
      AfterwardsCompatible(old(containers), Start, p);
      r := InspectLocked(p);
    }

    method StopPair(p: Payload) returns (r: Option<PairResult>)
      modifies this
      ensures r.Some? == FakeAccepts(old(containers), Stop, p)
      ensures containers == if r.Some? then FakeMap(old(containers), Stop, p) else old(containers)
      ensures r.Some? ==> r.value == FakePair(old(containers), Stop, p)
    {
      var ok := ValidatePairIdentity(p);
      if !ok { return None; }
      ok := RequirePairLocked(p);
      if !ok { return None; }
      SetAll(p.components, Stopped);
      AfterwardsCompatible(old(containers), Stop, p);
      r := InspectLocked(p);
    }

    method RestorePair(p: Payload, mkdir: bool) returns (r: Option<PairResult>)
      modifies this
      ensures r.Some? == (FakeAccepts(old(containers), Restore, p) && mkdir)
      ensures containers == if r.Some? then FakeMap(old(containers), Restore, p) else old(containers)
      ensures r.Some? ==> r.value == FakePair(old(containers), Restore, p)
    {
      var ok := ValidatePairIdentity(p);
      if !ok || !p.createAccepted { return None; }
      ok := RequirePairLocked(p);
      if !ok || !mkdir { return None; }
      ReplaceAll(p.components);
      AfterwardsCompatible(old(containers), Restore, p);
      r := InspectLocked(p);
    }

    method DeletePair(p: Payload) returns (r: Option<PairResult>)
      modifies this
      ensures r.Some? == FakeAccepts(old(containers), Delete, p)
      ensures containers == if r.Some? then FakeMap(old(containers), Delete, p) else old(containers)
      ensures r.Some? ==> r.value == FakePair(old(containers), Delete, p)
    {
      var ok := ValidatePairIdentity(p);
      if !ok { return None; }
      ok := PreflightLocked(p);
      if !ok { return None; }
      for i := 0 to |p.components|
        invariant containers == old(containers) - Names(p.components[..i])
      {
        NamesAppend(p.components, i);
        containers := containers - {p.components[i].name};
      }
      assert p.components[..|p.components|] == p.components;
      forall c | c in p.components ensures StateIn(StatesOf(containers), c) == Missing {
        assert c.name in Names(p.components);
      }
      PairBySame(p.components, StatesOf(containers), Missing);
      r := Some(PairWith(p.components, Missing));
    }
  }
}
