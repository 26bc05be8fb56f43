/** internal/container: the values an environment operation works on, and what each
    operation does to the container map, for the in-memory executor and for Docker. */
module Pair {
  import opened Common

  // ---------- Payloads ----------

  datatype ComponentType = Annotation | Editor | OtherType(text: string)

  datatype Component = Component(ctype: ComponentType, name: string, fingerprint: string, mps: bool)

  /** `createAccepted` sums up the create-only checks of images, resources, ports and the
      workspace path. */
  datatype Payload =
    Payload(environment: string, operation: string, components: seq<Component>, createAccepted: bool)

  predicate IsAlphanumeric(c: char) {
    'A' <= c <= 'Z' || 'a' <= c <= 'z' || '0' <= c <= '9'
  }

  predicate IsHex(c: char) {
    'A' <= c <= 'F' || 'a' <= c <= 'f' || '0' <= c <= '9'
  }

  /** ^[A-Za-z0-9][A-Za-z0-9_.-]{2,127}$ */
  predicate IsContainerName(s: string) {
    && 3 <= |s| <= 128 && IsAlphanumeric(s[0])
    && forall i :: 1 <= i < |s| ==> IsAlphanumeric(s[i]) || s[i] == '_' || s[i] == '.' || s[i] == '-'
  }

  /** ^[0-9a-fA-F]{64}$ */
  predicate IsFingerprint(s: string) {
    |s| == 64 && forall i :: 0 <= i < |s| ==> IsHex(s[i])
  }

  predicate WellFormed(c: Component) {
    !c.ctype.OtherType? && IsContainerName(c.name) && IsFingerprint(c.fingerprint)
  }

  predicate Distinct(cs: seq<Component>) {
    forall i, j :: 0 <= i < j < |cs| ==> cs[i].ctype != cs[j].ctype && cs[i].name != cs[j].name
  }

  predicate ValidIdentity(p: Payload) {
    && p.environment != "" && p.operation != "" && 1 <= |p.components| <= 2
    && (forall i :: 0 <= i < |p.components| ==> WellFormed(p.components[i]))
    && Distinct(p.components)
  }

  /** internal/container/validator.go: validatePairIdentity. */
  method ValidatePairIdentity(p: Payload) returns (ok: bool)
    ensures ok == ValidIdentity(p)
  {
    if p.environment == "" || p.operation == "" || |p.components| < 1 || |p.components| > 2 { return false; }
    var seenTypes: set<ComponentType>, seenNames: set<string> := {}, {};
    for i := 0 to |p.components|
      invariant forall t :: t in seenTypes <==> exists k :: 0 <= k < i && p.components[k].ctype == t
      invariant forall n :: n in seenNames <==> exists k :: 0 <= k < i && p.components[k].name == n
      invariant forall k :: 0 <= k < i ==> WellFormed(p.components[k])
      invariant Distinct(p.components[..i])
    {
      var c := p.components[i];
      if c.ctype.OtherType? { return false; }
      if c.ctype in seenTypes || c.name in seenNames {
        var k :| 0 <= k < i && (p.components[k].ctype == c.ctype || p.components[k].name == c.name);
        return false;
      }
      if !IsContainerName(c.name) || !IsFingerprint(c.fingerprint) { return false; }
      seenTypes, seenNames := seenTypes + {c.ctype}, seenNames + {c.name};
    }
    assert p.components[..|p.components|] == p.components;
    return true;
  }

  function Names(cs: seq<Component>): set<string> {
    set c | c in cs :: c.name
  }

  lemma NamesAppend(cs: seq<Component>, i: nat)
    requires i < |cs|
    ensures cs[..i + 1] == cs[..i] + [cs[i]]
    ensures Names(cs[..i + 1]) == Names(cs[..i]) + {cs[i].name}
    ensures Distinct(cs) ==> cs[i].name !in Names(cs[..i])
  {
    assert cs[..i + 1] == cs[..i] + [cs[i]];
    assert cs[i] in cs[..i + 1];
    forall n | n in Names(cs[..i]) ensures n in Names(cs[..i + 1]) {
      var c :| c in cs[..i] && c.name == n;
      assert c in cs[..i + 1];
    }
  }

  // ---------- Results ----------

  datatype State = Missing | Stopped | Running

  datatype ComponentResult = ComponentResult(ctype: ComponentType, name: string, fingerprint: string, state: State)

  datatype PairResult = PairResult(annotation: Option<ComponentResult>, editor: Option<ComponentResult>)

  const EMPTY := PairResult(None, None)

  function Assign(r: PairResult, c: Component, state: State): PairResult {
    var value := Some(ComponentResult(c.ctype, c.name, c.fingerprint, state));
    if c.ctype.Annotation? then r.(annotation := value) else r.(editor := value)
  }

  function StateIn(states: map<string, State>, c: Component): State {
    if c.name in states then states[c.name] else Missing
  }

  function PairBy(cs: seq<Component>, states: map<string, State>): PairResult {
    if cs == [] then EMPTY
    else
      var c := cs[|cs| - 1];
      Assign(PairBy(cs[..|cs| - 1], states), c, StateIn(states, c))
  }

  function PairWith(cs: seq<Component>, state: State): PairResult {
    if cs == [] then EMPTY else Assign(PairWith(cs[..|cs| - 1], state), cs[|cs| - 1], state)
  }

  lemma {:induction false} PairBySame(cs: seq<Component>, states: map<string, State>, state: State)
    requires forall c :: c in cs ==> StateIn(states, c) == state
    ensures PairBy(cs, states) == PairWith(cs, state)
  {
    if cs != [] {
      PairBySame(cs[..|cs| - 1], states, state);
    }
  }

  // ---------- The in-memory executor's map ----------

  datatype Op = Create | Start | Stop | Restore | Delete

  datatype Entry = Entry(ctype: ComponentType, fingerprint: string, state: State)

  function Entries(cs: seq<Component>, state: State): (m: map<string, Entry>)
    ensures m.Keys == Names(cs)
  {
    if cs == [] then map[]
    else
      var c := cs[|cs| - 1];
      NamesAppend(cs, |cs| - 1);
      assert cs == cs[..|cs| - 1] + [c];
      Entries(cs[..|cs| - 1], state)[c.name := Entry(c.ctype, c.fingerprint, state)]
  }

  lemma {:induction false} EntriesAt(cs: seq<Component>, state: State, c: Component)
    requires Distinct(cs) && c in cs
    ensures c.name in Names(cs)
    ensures Entries(cs, state)[c.name] == Entry(c.ctype, c.fingerprint, state)
  {
    var past, last := cs[..|cs| - 1], cs[|cs| - 1];
    if c != last {
      assert c in past;
      var k :| 0 <= k < |past| && past[k] == c;
      assert cs[k] == c;
      EntriesAt(past, state, c);
    }
  }

  predicate SameIdentity(e: Entry, c: Component) {
    e.ctype == c.ctype && e.fingerprint == c.fingerprint
  }

  /** What is there belongs. */
  predicate Compatible(m: map<string, Entry>, cs: seq<Component>) {
    forall c :: c in cs && c.name in m ==> SameIdentity(m[c.name], c)
  }

  /** Everything is there and belongs. */
  predicate Complete(m: map<string, Entry>, cs: seq<Component>) {
    forall c :: c in cs ==> c.name in m && SameIdentity(m[c.name], c)
  }

  predicate Acceptable(op: Op, p: Payload) {
    ValidIdentity(p) && (op.Create? || op.Restore? ==> p.createAccepted)
  }

  predicate FakeAccepts(m: map<string, Entry>, op: Op, p: Payload) {
    && Acceptable(op, p)
    && match op
       case Create | Delete => Compatible(m, p.components)
       case Start | Stop | Restore => Complete(m, p.components)
  }

  function FakeMap(m: map<string, Entry>, op: Op, p: Payload): map<string, Entry> {
    match op
    case Create => Entries(p.components, Stopped) + m
    case Start => m + Entries(p.components, Running)
    case Stop => m + Entries(p.components, Stopped)
    case Restore => m + Entries(p.components, Stopped)
    case Delete => m - Names(p.components)
  }

  function StatesOf(m: map<string, Entry>): map<string, State> {
    map n | n in m :: m[n].state
  }

  function FakePair(m: map<string, Entry>, op: Op, p: Payload): PairResult {
    PairBy(p.components, StatesOf(FakeMap(m, op, p)))
  }

  // ---------- Docker's container map ----------

  /** A container with the labels the agent reads. `managed` is false also when the
      inspection carries no configuration. */
  datatype Container =
    Container(managed: bool, environment: string, ctype: ComponentType, fingerprint: string, running: bool)

  type Containers = map<string, Container>

  predicate Owned(d: Container, environment: string, c: Component) {
    d.managed && d.environment == environment && d.ctype == c.ctype
  }

  predicate Matches(d: Container, environment: string, c: Component) {
    Owned(d, environment, c) && d.fingerprint == c.fingerprint
  }

  predicate AllMatch(d: Containers, p: Payload) {
    forall c :: c in p.components && c.name in d ==> Matches(d[c.name], p.environment, c)
  }

  predicate AllOwned(d: Containers, p: Payload) {
    forall c :: c in p.components && c.name in d ==> Owned(d[c.name], p.environment, c)
  }

  predicate AllPresent(d: Containers, p: Payload) {
    forall c :: c in p.components ==> c.name in d
  }

  function Made(environment: string, c: Component): Container {
    Container(true, environment, c.ctype, c.fingerprint, false)
  }

  /** The stopped containers of a payload. */
  function New(environment: string, cs: seq<Component>): (d: Containers)
    ensures d.Keys == Names(cs)
  {
    if cs == [] then map[]
    else
      var c := cs[|cs| - 1];
      NamesAppend(cs, |cs| - 1);
      assert cs == cs[..|cs| - 1] + [c];
      New(environment, cs[..|cs| - 1])[c.name := Made(environment, c)]
  }

  lemma {:induction false} NewAt(environment: string, cs: seq<Component>, c: Component)
    requires Distinct(cs) && c in cs
    ensures c.name in Names(cs) && New(environment, cs)[c.name] == Made(environment, c)
  {
    var past, last := cs[..|cs| - 1], cs[|cs| - 1];
    if c != last {
      assert c in past;
      var k :| 0 <= k < |past| && past[k] == c;
      assert cs[k] == c;
      NewAt(environment, past, c);
    }
  }

  function SetRunning(d: Containers, names: set<string>, running: bool): Containers {
    map n | n in d :: if n in names then d[n].(running := running) else d[n]
  }

  /** What Docker accepts when no call fails. */
  predicate DockerAccepts(d: Containers, op: Op, p: Payload) {
    && Acceptable(op, p)
    && match op
       case Create | Stop => AllMatch(d, p)
       case Start => AllMatch(d, p) && AllPresent(d, p)
       case Restore | Delete => AllOwned(d, p)
  }

  function DockerMap(d: Containers, op: Op, p: Payload): Containers {
    match op
    case Create => New(p.environment, p.components) + d
    case Start => SetRunning(d, Names(p.components), true)
    case Stop => SetRunning(d, Names(p.components), false)
    case Restore => d + New(p.environment, p.components)
    case Delete => d - Names(p.components)
  }

  function DockerStates(d: Containers): map<string, State> {
    map n | n in d :: if d[n].running then Running else Stopped
  }

  /** The answer; creating and restoring report STOPPED without looking again. */
  function DockerPair(d: Containers, op: Op, p: Payload): PairResult {
    match op
    case Create | Restore => PairWith(p.components, Stopped)
    case Start => PairWith(p.components, Running)
    case Delete => PairWith(p.components, Missing)
    case Stop => PairBy(p.components, DockerStates(DockerMap(d, Stop, p)))
  }

  // ---------- Refinement ----------

  /** The containers at the payload's names are the agent's, and of the payload's environment. */
  predicate Ours(d: Containers, p: Payload) {
    forall c :: c in p.components && c.name in d ==> d[c.name].managed && d[c.name].environment == p.environment
  }

  /** Which environment a container name belongs to. Names it does not cover may be anything. */
  type Assignment = map<string, string>

  predicate Assigned(d: Containers, owner: Assignment) {
    forall n :: n in d && n in owner ==> d[n].managed && d[n].environment == owner[n]
  }

  predicate Within(p: Payload, owner: Assignment) {
    forall c :: c in p.components ==> c.name in owner && owner[c.name] == p.environment
  }

  /** A Docker map with its environment forgotten. */
  function Abs(d: Containers): map<string, Entry> {
    map n | n in d :: Entry(d[n].ctype, d[n].fingerprint, if d[n].running then Running else Stopped)
  }

  predicate SomeRunning(d: Containers, p: Payload) {
    exists c :: c in p.components && c.name in d && d[c.name].running
  }

  /** Whatever the in-memory executor accepts, Docker accepts. */
  lemma DockerAcceptsWhatFakeAccepts(d: Containers, op: Op, p: Payload)
    requires Ours(d, p) && FakeAccepts(Abs(d), op, p)
    ensures DockerAccepts(d, op, p)
  {
    forall c | c in p.components && c.name in d ensures Matches(d[c.name], p.environment, c) {
      assert SameIdentity(Abs(d)[c.name], c);
    }
  }

  lemma {:induction false} AbsNew(environment: string, cs: seq<Component>)
    ensures Abs(New(environment, cs)) == Entries(cs, Stopped)
  {
    if cs != [] {
      AbsNew(environment, cs[..|cs| - 1]);
    }
  }

  lemma AbsSetRunning(d: Containers, cs: seq<Component>, running: bool)
    requires Distinct(cs) && Complete(Abs(d), cs)
    ensures Abs(SetRunning(d, Names(cs), running)) == Abs(d) + Entries(cs, if running then Running else Stopped)
  {
    var state := if running then Running else Stopped;
    var left, right := Abs(SetRunning(d, Names(cs), running)), Abs(d) + Entries(cs, state);
    forall n | n in Names(cs) ensures n in d && left[n] == right[n] {
      var c :| c in cs && c.name == n;
      EntriesAt(cs, state, c);
    }
    assert left.Keys == right.Keys;
  }

  lemma AbsUnion(d: Containers, e: Containers)
    ensures Abs(d + e) == Abs(d) + Abs(e)
  {
    assert Abs(d + e).Keys == (Abs(d) + Abs(e)).Keys;
  }

  lemma AbsWithout(d: Containers, names: set<string>)
    ensures Abs(d - names) == Abs(d) - names
  {
    assert Abs(d - names).Keys == (Abs(d) - names).Keys;
  }

  /** The same map is reached. */
  lemma SameMap(d: Containers, op: Op, p: Payload)
    requires FakeAccepts(Abs(d), op, p)
    ensures Abs(DockerMap(d, op, p)) == FakeMap(Abs(d), op, p)
  {
    var made := New(p.environment, p.components);
    match op
    case Create =>
      AbsNew(p.environment, p.components);
      AbsUnion(made, d);
    case Start => AbsSetRunning(d, p.components, true);
    case Stop => AbsSetRunning(d, p.components, false);
    case Restore =>
      AbsNew(p.environment, p.components);
      AbsUnion(d, made);
    case Delete => AbsWithout(d, Names(p.components));
  }

  /** Every container stays with the environment its name is assigned to. */
  lemma StaysAssigned(d: Containers, op: Op, p: Payload, owner: Assignment)
    requires Acceptable(op, p) && Assigned(d, owner) && Within(p, owner)
    ensures Assigned(DockerMap(d, op, p), owner)
  {
    forall n | n in Names(p.components) && n in owner
      ensures New(p.environment, p.components)[n].managed
      ensures New(p.environment, p.components)[n].environment == owner[n]
    {
      var c :| c in p.components && c.name == n;
      NewAt(p.environment, p.components, c);
    }
  }

  lemma StatesOfAbs(d: Containers)
    ensures StatesOf(Abs(d)) == DockerStates(d)
  {}

  /** The state every component has after an operation other than Stop and Create. */
  lemma StateAfter(d: Containers, op: Op, p: Payload, c: Component)
    requires FakeAccepts(Abs(d), op, p) && c in p.components
    requires op.Start? || op.Restore? || op.Delete?
    ensures StateIn(DockerStates(DockerMap(d, op, p)), c)
         == (if op.Start? then Running else if op.Restore? then Stopped else Missing)
  {
    assert c.name in Names(p.components);
    NewAt(p.environment, p.components, c);
    assert op.Start? ==> c.name in Abs(d);
  }

  lemma CreateAnswer(d: Containers, p: Payload)
    requires FakeAccepts(Abs(d), Create, p)
    ensures SomeRunning(d, p) <==>
              PairWith(p.components, Stopped) != PairBy(p.components, DockerStates(DockerMap(d, Create, p)))
  {
    var cs, states := p.components, DockerStates(DockerMap(d, Create, p));
    forall c | c in cs
      ensures c.name in states && states[c.name] == if c.name in d && d[c.name].running then Running else Stopped
    {
      assert c.name in Names(cs);
      NewAt(p.environment, cs, c);
    }
    if SomeRunning(d, p) {
      var c :| c in cs && c.name in d && d[c.name].running;
      PairShows(cs, states, c);
      PairWithShows(cs, Stopped, c);
    } else {
      PairBySame(cs, states, Stopped);
    }
  }

  /** The same answer is given, except that Docker reports STOPPED for a component that
      Create finds running. */
  lemma SameAnswerIff(d: Containers, op: Op, p: Payload)
    requires FakeAccepts(Abs(d), op, p)
    ensures DockerPair(d, op, p) == FakePair(Abs(d), op, p) <==> !(op.Create? && SomeRunning(d, p))
  {
    SameMap(d, op, p);
    StatesOfAbs(DockerMap(d, op, p));
    match op
    case Stop =>
    case Create => CreateAnswer(d, p);
    case Start | Restore | Delete =>
      forall c | c in p.components
        ensures StateIn(DockerStates(DockerMap(d, op, p)), c)
             == (if op.Start? then Running else if op.Restore? then Stopped else Missing)
      {
        StateAfter(d, op, p, c);
      }
      PairBySame(p.components, DockerStates(DockerMap(d, op, p)),
                 if op.Start? then Running else if op.Restore? then Stopped else Missing);
  }

  /** The payload's containers, all running. */
  function Up(p: Payload): Containers {
    SetRunning(New(p.environment, p.components), Names(p.components), true)
  }

  /** And answers do differ: every payload that may be created is answered differently when its
      containers run already. */
  lemma CreateOverRunning(p: Payload)
    requires Acceptable(Create, p)
    ensures var d := Up(p);
            && Ours(d, p) && FakeAccepts(Abs(d), Create, p) && DockerAccepts(d, Create, p)
            && DockerPair(d, Create, p) != FakePair(Abs(d), Create, p)
  {
    var d := Up(p);
    forall c | c in p.components
      ensures c.name in d && d[c.name] == Made(p.environment, c).(running := true)
    {
      NewAt(p.environment, p.components, c);
    }
    assert p.components[0] in p.components;
    DockerAcceptsWhatFakeAccepts(d, Create, p);
    SameAnswerIff(d, Create, p);
  }

  /** Such payloads exist, with one component and with two. */
  function Sample(two: bool): Payload {
    var hash := seq(64, _ => 'a');
    Payload("env", "op",
            [Component(Annotation, "box", hash, false)]
            + (if two then [Component(Editor, "editor", hash, false)] else []),
            true)
  }

  lemma SampleAcceptable(two: bool, op: Op)
    ensures Acceptable(op, Sample(two)) && |Sample(two).components| == if two then 2 else 1
  {}

  function Slot(r: PairResult, c: Component): Option<ComponentResult> {
    if c.ctype.Annotation? then r.annotation else r.editor
  }

  lemma {:induction false} PairShows(cs: seq<Component>, states: map<string, State>, c: Component)
    requires Distinct(cs) && c in cs && forall x :: x in cs ==> !x.ctype.OtherType?
    ensures Slot(PairBy(cs, states), c) == Some(ComponentResult(c.ctype, c.name, c.fingerprint, StateIn(states, c)))
  {
    var past, last := cs[..|cs| - 1], cs[|cs| - 1];
    if c != last {
      assert c in past;
      var k :| 0 <= k < |past| && past[k] == c;
      assert cs[k].ctype != last.ctype && last in cs;
      PairShows(past, states, c);
    }
  }

  lemma {:induction false} PairWithShows(cs: seq<Component>, state: State, c: Component)
    requires Distinct(cs) && c in cs && forall x :: x in cs ==> !x.ctype.OtherType?
    ensures Slot(PairWith(cs, state), c) == Some(ComponentResult(c.ctype, c.name, c.fingerprint, state))
  {
    var past, last := cs[..|cs| - 1], cs[|cs| - 1];
    if c != last {
      assert c in past;
      var k :| 0 <= k < |past| && past[k] == c;
      assert cs[k].ctype != last.ctype && last in cs;
      PairWithShows(past, state, c);
    }
  }

  // ---------- Each operation, container by container ----------

  /** What a valid identity is, clause by clause. */
  lemma ValidIdentityIff(p: Payload)
    ensures ValidIdentity(p) <==>
      && p.environment != "" && p.operation != "" && (|p.components| == 1 || |p.components| == 2)
      && (forall c :: c in p.components ==>
            (c.ctype == Annotation || c.ctype == Editor) && IsContainerName(c.name) && IsFingerprint(c.fingerprint))
      && (|p.components| == 2 ==>
            p.components[0].ctype != p.components[1].ctype && p.components[0].name != p.components[1].name)
  {
    assert forall i :: 0 <= i < |p.components| ==> p.components[i] in p.components;
  }

  /** Which operation Docker accepts on which containers: create and stop take missing components,
      restore and delete take any fingerprint, start takes neither. */
  lemma DockerAcceptsIff(d: Containers, op: Op, p: Payload)
    ensures DockerAccepts(d, op, p) <==>
      && ValidIdentity(p) && (op == Create || op == Restore ==> p.createAccepted)
      && (forall c :: c in p.components && c.name in d ==>
            && d[c.name].managed && d[c.name].environment == p.environment && d[c.name].ctype == c.ctype
            && (op == Create || op == Start || op == Stop ==> d[c.name].fingerprint == c.fingerprint))
      && (op == Start ==> forall c :: c in p.components ==> c.name in d)
  {}

  /** The in-memory executor wants everything there for a restore and a stop, at the fingerprint. */
  lemma FakeAcceptsIff(m: map<string, Entry>, op: Op, p: Payload)
    ensures FakeAccepts(m, op, p) <==>
      && ValidIdentity(p) && (op == Create || op == Restore ==> p.createAccepted)
      && (forall c :: c in p.components && c.name in m ==>
            m[c.name].ctype == c.ctype && m[c.name].fingerprint == c.fingerprint)
      && (op == Start || op == Stop || op == Restore ==> forall c :: c in p.components ==> c.name in m)
  {}

  /** The container an operation leaves for a component, and what it answers about it. */
  lemma DockerLeaves(d: Containers, op: Op, p: Payload, c: Component)
    requires DockerAccepts(d, op, p) && c in p.components
    ensures var d', made := DockerMap(d, op, p), Container(true, p.environment, c.ctype, c.fingerprint, false);
      && (op == Create ==> c.name in d' && d'[c.name] == if c.name in d then d[c.name] else made)
      && (op == Start ==> c.name in d' && d'[c.name] == d[c.name].(running := true))
      && (op == Stop ==> (c.name in d' <==> c.name in d))
      && (op == Stop && c.name in d ==> d'[c.name] == d[c.name].(running := false))
      && (op == Restore ==> c.name in d' && d'[c.name] == made)
      && (op == Delete ==> c.name !in d')
  {
    assert c.name in Names(p.components);
    NewAt(p.environment, p.components, c);
  }

  lemma DockerAnswers(d: Containers, op: Op, p: Payload, c: Component)
    requires DockerAccepts(d, op, p) && c in p.components
    ensures Slot(DockerPair(d, op, p), c)
         == Some(ComponentResult(c.ctype, c.name, c.fingerprint,
                                 if op == Start then Running
                                 else if op == Delete || (op == Stop && c.name !in d) then Missing
                                 else Stopped))
  {
    DockerLeaves(d, op, p, c);
    PairShows(p.components, DockerStates(DockerMap(d, Stop, p)), c);
    PairWithShows(p.components, Stopped, c);
    PairWithShows(p.components, Running, c);
    PairWithShows(p.components, Missing, c);
  }

  /** No operation changes a container outside the payload. */
  lemma DockerLeavesAlone(d: Containers, op: Op, p: Payload, n: string)
    requires n !in Names(p.components)
    ensures var d' := DockerMap(d, op, p);
            (n in d <==> n in d') && (n in d ==> d'[n] == d[n])
  {}

  lemma FakeLeaves(m: map<string, Entry>, op: Op, p: Payload, c: Component)
    requires FakeAccepts(m, op, p) && c in p.components
    ensures var m' := FakeMap(m, op, p);
      && (op == Create ==> c.name in m')
      && (op == Create ==> m'[c.name] == if c.name in m then m[c.name] else Entry(c.ctype, c.fingerprint, Stopped))
      && (op == Start ==> c.name in m' && m'[c.name] == Entry(c.ctype, c.fingerprint, Running))
      && (op == Stop || op == Restore ==> c.name in m' && m'[c.name] == Entry(c.ctype, c.fingerprint, Stopped))
      && (op == Delete ==> c.name !in m')
    ensures Slot(FakePair(m, op, p), c)
         == Some(ComponentResult(c.ctype, c.name, c.fingerprint,
                                 if op == Start then Running
                                 else if op == Delete then Missing
                                 else if op == Create && c.name in m then m[c.name].state
                                 else Stopped))
  {
    assert c.name in Names(p.components);
    EntriesAt(p.components, Stopped, c);
    EntriesAt(p.components, Running, c);
    PairShows(p.components, StatesOf(FakeMap(m, op, p)), c);
  }

  // ---------- What restore is for ----------

  /** The payload's containers as an older version left them: running, at other fingerprints. */
  function Outdated(p: Payload): Containers {
    var made := New(p.environment, p.components);
    map n | n in made :: made[n].(fingerprint := made[n].fingerprint + "'", running := true)
  }

  /** Every payload that may be created can be restored from nothing, and from running containers
      of other fingerprints, which no other operation but delete would touch. */
  lemma RestoreTakesAnything(p: Payload)
    requires Acceptable(Restore, p)
    ensures DockerAccepts(map[], Restore, p) && !DockerAccepts(map[], Start, p)
    ensures DockerMap(map[], Restore, p) == New(p.environment, p.components)
    ensures var d := Outdated(p);
            && DockerAccepts(d, Restore, p)
            && !DockerAccepts(d, Create, p) && !DockerAccepts(d, Start, p) && !DockerAccepts(d, Stop, p)
            && DockerMap(d, Restore, p) == New(p.environment, p.components)
  {
    var d, made := Outdated(p), New(p.environment, p.components);
    forall c | c in p.components ensures OutdatedAt(d, p, c) { OutdatedIs(p, c); }
    assert p.components[0] in p.components && OutdatedAt(d, p, p.components[0]);
    assert map[] + made == made;
    CoveredBy(d, made);
  }

  predicate OutdatedAt(d: Containers, p: Payload, c: Component) {
    c.name in d && d[c.name] == Container(true, p.environment, c.ctype, c.fingerprint + "'", true)
  }

  lemma OutdatedIs(p: Payload, c: Component)
    requires ValidIdentity(p) && c in p.components
    ensures OutdatedAt(Outdated(p), p, c)
  {
    NewAt(p.environment, p.components, c);
  }

  lemma CoveredBy(d: Containers, e: Containers)
    requires d.Keys == e.Keys
    ensures d + e == e
  {
    assert (d + e).Keys == e.Keys;
  }

  // ---------- Whole sequences of operations ----------

  /** A run of accepted requests, latest last. */
  datatype Requests = Nothing | Then(past: Requests, op: Op, p: Payload)

  /** The map the in-memory executor ends in; `None` once it refuses. */
  function FakeRun(m: map<string, Entry>, rs: Requests): Option<map<string, Entry>> {
    match rs
    case Nothing => Some(m)
    case Then(past, op, p) =>
      var before := FakeRun(m, past);
      if before.Some? && FakeAccepts(before.value, op, p) then Some(FakeMap(before.value, op, p)) else None
  }

  function DockerRun(d: Containers, rs: Requests): Option<Containers> {
    match rs
    case Nothing => Some(d)
    case Then(past, op, p) =>
      var before := DockerRun(d, past);
      if before.Some? && DockerAccepts(before.value, op, p) then Some(DockerMap(before.value, op, p)) else None
  }

  predicate AllWithin(rs: Requests, owner: Assignment) {
    match rs
    case Nothing => true
    case Then(past, _, p) => AllWithin(past, owner) && Within(p, owner)
  }

  /** Every request is answered alike, but for those that create over a running component. */
  ghost predicate AnsweredAlike(d: Containers, m: map<string, Entry>, rs: Requests)
    requires DockerRun(d, rs).Some? && FakeRun(m, rs).Some?
  {
    match rs
    case Nothing => true
    case Then(past, op, p) =>
      var d1, m1 := DockerRun(d, past).value, FakeRun(m, past).value;
      && AnsweredAlike(d, m, past)
      && (DockerPair(d1, op, p) == FakePair(m1, op, p) <==> !(op.Create? && SomeRunning(d1, p)))
  }

  /** Every sequence of operations the in-memory executor accepts, for any number of
      environments and beside any other containers, is accepted by Docker, ends in the same
      map, and is answered alike at exactly the requests that do not create over a running
      component. */
  lemma {:induction false} DockerRefinesFake(d: Containers, owner: Assignment, rs: Requests)
    requires Assigned(d, owner) && AllWithin(rs, owner)
    requires FakeRun(Abs(d), rs).Some?
    ensures DockerRun(d, rs).Some?
    ensures Assigned(DockerRun(d, rs).value, owner)
    ensures Abs(DockerRun(d, rs).value) == FakeRun(Abs(d), rs).value
    ensures AnsweredAlike(d, Abs(d), rs)
  {
    match rs
    case Nothing =>
    case Then(past, op, p) =>
      DockerRefinesFake(d, owner, past);
      var d1 := DockerRun(d, past).value;
      DockerAcceptsWhatFakeAccepts(d1, op, p);
      SameMap(d1, op, p);
      SameAnswerIff(d1, op, p);
      StaysAssigned(d1, op, p, owner);
  }
}
