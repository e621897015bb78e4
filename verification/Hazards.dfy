/** Schedules that show where the guarantees end: an event posted without a credential, a pipeline
    drained twice because expiry and shutdown race, one drained twice because registration and reload
    race, and a run after which the documented sum of the counters is wrong. */
module Hazards {
  import opened Bytes
  import opened Events
  import opened Batching
  import F = Flushing
  import opened Registry
  import opened Protocol
  import opened TableLaws
  import opened Lifecycle

  lemma Extend(cfg: Config, states: seq<State>, steps: seq<Step>, st: Step)
    returns (states': seq<State>, steps': seq<Step>)
    requires OrderedRun(cfg, states, steps) && Enabled(cfg, Last(states), st)
             && (st.ReloadStore? ==> Open(Last(states)))
    ensures OrderedRun(cfg, states', steps') && states' != [] && Last(states') == Apply(cfg, Last(states), st)
  {
    hide Enabled, Apply, Init, Run, Open;
    RunStart(cfg, states, steps);
    RunMore(cfg, states, steps, st);
    states', steps' := states + [Apply(cfg, Last(states), st)], steps + [st];
    forall k | 0 <= k < |steps'| && steps'[k].ReloadStore? ensures Open(states'[k]) {
      if k < |steps| {
        assert states'[k] == states[k] && steps'[k] == steps[k];
      }
    }
  }

  // ---------------------------------------------------------------- the first state

  /** A datagram for `project` with this token. */
  predicate Names(cfg: Config, raw: bytes, project: bytes, token: bytes) {
    var f := cfg.route(raw);
    && |raw| <= cfg.maxEventBytes + 1 && !f.malformed && !f.badProject && !f.badToken
    && f.project == project && f.token == token
  }

  function BodyOf(cfg: Config, raw: bytes): bytes { var f := cfg.route(raw); if f.removed then f.stripped else raw }

  /** An order in which the names can be visited. */
  function BaseOrder(cfg: Config): seq<bytes> { if cfg.apiKey == [] then [] else [DEFAULT_PROJECT] }

  /** Nothing is under way. */
  predicate Calm(s: State) {
    && s.dispatching == map[] && s.shared == [] && !s.sharedClosed && s.demux == Waiting && s.inline == Free
       && s.reload == NoReload
    && s.due == multiset{} && s.shut == Running && s.posts == [] && !s.panicked
  }

  /** The installed state for the given keys: one untouched pipeline per name. */
  lemma Installs(cfg: Config, keys: map<bytes, bytes>, order: seq<bytes>) returns (s: State)
    requires KeysOk(cfg, keys) && (!cfg.keysFile ==> forall n <- keys :: n == DEFAULT_PROJECT)
    requires Enumerates(order, keys.Keys)
    ensures OrderedRun(cfg, [s], []) && Calm(s) && s.received == 0
    ensures s.table.names.Keys == keys.Keys && InRange(s.table, s.pipes) && KeyMap(s.table, s.pipes) == keys
    ensures s.table.hasDefault == (DEFAULT_PROJECT in keys) && s.tally.queueFull == 0 && s.misses == 0
    ensures |s.pipes| == |order| && forall k :: 0 <= k < |s.pipes| ==> Untouched(s.pipes[k]) && !s.pipes[k].inline
  {
    hide BuiltNames, BuiltPipes, Untouched;
    assert FreshNames(keys, EMPTY_TABLE, []) == keys.Keys;
    s := Installed(keys, order);
    hide FreshNames;
    OrderInKeys(keys, EMPTY_TABLE, [], order);
    ReloadTable(keys, EMPTY_TABLE, [], order);
    BuiltKeys(keys, EMPTY_TABLE, [], order);
    forall k | 0 <= k < |s.pipes| ensures Untouched(s.pipes[k]) && !s.pipes[k].inline {
      BuiltPipeAt(keys, [], order, k);
    }
    assert Init(cfg, s);
    hide Init;
    RunOne(cfg, s);
  }

  lemma BaseIsOk(cfg: Config)
    ensures KeysOk(cfg, Base(cfg)) && Enumerates(BaseOrder(cfg), Base(cfg).Keys)
  {
  }

  /** The configured key and one more from the keys file. */
  lemma BaseAndOne(cfg: Config, project: bytes, key: bytes)
    requires Room(cfg, 1) && project != [] && project != DEFAULT_PROJECT && key != []
    ensures KeysOk(cfg, Base(cfg)[project := key])
    ensures Enumerates(BaseOrder(cfg) + [project], Base(cfg)[project := key].Keys)
  {
    assert Base(cfg)[project := key].Keys == Base(cfg).Keys + {project};
  }

  // ---------------------------------------------------------------- registering a project

  /** The datagram asks for a registration. */
  function Asking(cfg: Config, s: State, raw: bytes, project: bytes, token: bytes): Dispatch {
    Dispatch(Datagram(s.received, raw, 0, BodyOf(cfg, raw), project, token), WantsInline)
  }

  /** Nobody has the project, and there is room for it. */
  predicate Vacant(cfg: Config, s: State, project: bytes) {
    && s.inline == Free && !s.panicked && project !in s.table.names && s.received !in s.dispatching
    && (cfg.maxProjects == 0 || |s.table.names| < cfg.maxProjects)
  }

  lemma Asks(cfg: Config, states: seq<State>, steps: seq<Step>, raw: bytes, project: bytes, token: bytes)
    returns (states': seq<State>, steps': seq<Step>)
    requires cfg.inlineTokens && Names(cfg, raw, project, token) && project != [] && token != []
    requires states != [] && OrderedRun(cfg, states, steps) && Vacant(cfg, Last(states), project)
    ensures OrderedRun(cfg, states', steps') && states' != []
    ensures var s := Last(states);
            Last(states') == s.(received := s.received + 1,
                                dispatching := s.dispatching[s.received := Asking(cfg, s, raw, project, token)])
  {
    hide OrderedRun, Add, KeyMap, KeysOk, PipeEnabled, InRange;
    var s := Last(states);
    states', steps' := Extend(cfg, states, steps, Deliver(raw, 0));
    states', steps' := Extend(cfg, states', steps', RouteOne(s.received));
    var dg := Datagram(s.received, raw, 0, BodyOf(cfg, raw), project, token);
    assert Last(states') ==
      s.(received := s.received + 1, dispatching := s.dispatching[s.received := Dispatch(dg, Routed)]);
    states', steps' := Extend(cfg, states', steps', LookUp(s.received));
  }

  lemma Makes(cfg: Config, states: seq<State>, steps: seq<Step>, id: nat, project: bytes)
    returns (states': seq<State>, steps': seq<Step>)
    requires states != [] && OrderedRun(cfg, states, steps) && project != []
    requires var s := Last(states);
             && s.inline == Free && !s.panicked && project !in s.table.names && InPhase(s, id, WantsInline)
             && s.dispatching[id].dg.project == project && (cfg.maxProjects == 0 || |s.table.names| < cfg.maxProjects)
    ensures OrderedRun(cfg, states', steps') && states' != []
    ensures var s := Last(states);
            Last(states') == s.(pipes := s.pipes + [Start(NewPipe(project, [], true))],
                                inline := PipeMade(id, s.table, |s.pipes|, s.version))
  {
    hide OrderedRun, Unrouted, NewPipe, KeyMap, KeysOk, PipeEnabled, InRange;
    states', steps' := Extend(cfg, states, steps, RegisterLock(id));
    states', steps' := Extend(cfg, states', steps', RegisterLoad);
    states', steps' := Extend(cfg, states', steps', RegisterMake);
  }

  /** A datagram that names a new project and carries a token has made a pipeline for it. */
  lemma Prepares(cfg: Config, states: seq<State>, steps: seq<Step>, raw: bytes, project: bytes, token: bytes)
    returns (states': seq<State>, steps': seq<Step>)
    requires cfg.inlineTokens && Names(cfg, raw, project, token) && project != [] && token != []
    requires states != [] && OrderedRun(cfg, states, steps) && Vacant(cfg, Last(states), project)
    ensures OrderedRun(cfg, states', steps') && states' != []
    ensures var s := Last(states);
            Last(states') == s.(received := s.received + 1,
                                dispatching := s.dispatching[s.received := Asking(cfg, s, raw, project, token)],
                                pipes := s.pipes + [Start(NewPipe(project, [], true))],
                                inline := PipeMade(s.received, s.table, |s.pipes|, s.version))
  {
    hide OrderedRun, NewPipe, Names;
    states', steps' := Asks(cfg, states, steps, raw, project, token);
    states', steps' := Makes(cfg, states', steps', Last(states).received, project);
  }

  /** The registration publishes what it made. */
  lemma Publishes(cfg: Config, states: seq<State>, steps: seq<Step>) returns (states': seq<State>, steps': seq<Step>)
    requires states != [] && OrderedRun(cfg, states, steps)
    requires var s := Last(states); !s.panicked && s.inline.PipeMade? && InPhase(s, s.inline.id, WantsInline)
    ensures OrderedRun(cfg, states', steps') && states' != [] && Last(states') == RegisterStoreStep(Last(states))
  {
    hide RegisterStoreStep, OrderedRun;
    states', steps' := Extend(cfg, states, steps, RegisterStore);
  }

  /** What a registration changes: one more pipeline, published under its project. */
  predicate Joined(s: State, s': State, project: bytes) {
    && s' == s.(received := s.received + 1, dispatching := s'.dispatching, version := s.version + 1,
                pipes := s.pipes + [Start(NewPipe(project, [], true))],
                table := s.table.(names := s.table.names[project := |s.pipes|]))
    && s'.dispatching.Keys == s.dispatching.Keys + {s.received}
  }

  lemma Registers(cfg: Config, states: seq<State>, steps: seq<Step>, raw: bytes, project: bytes, token: bytes)
    returns (states': seq<State>, steps': seq<Step>)
    requires cfg.inlineTokens && Names(cfg, raw, project, token) && project != [] && token != []
    requires states != [] && OrderedRun(cfg, states, steps) && Vacant(cfg, Last(states), project)
    ensures OrderedRun(cfg, states', steps') && states' != [] && Joined(Last(states), Last(states'), project)
  {
    hide OrderedRun, NewPipe, Names;
    states', steps' := Prepares(cfg, states, steps, raw, project, token);
    states', steps' := Publishes(cfg, states', steps');
  }

  // ---------------------------------------------------------------- two drains of one pipeline

  /** Shutdown up to the load of the table. */
  lemma Closes(cfg: Config, states: seq<State>, steps: seq<Step>) returns (states': seq<State>, steps': seq<Step>)
    requires states != [] && OrderedRun(cfg, states, steps)
    requires var s := Last(states); s.shut == Running && s.demux == Waiting && s.shared == [] && !s.panicked
    ensures OrderedRun(cfg, states', steps') && states' != []
    ensures var s := Last(states);
            Last(states') == s.(sharedClosed := true, demux := Exited, shut := Draining,
              due := s.due + multiset(s.table.names.Values))
  {
    hide OrderedRun, AllDrained, KeyMap, KeysOk, PipeEnabled, InRange;
    states', steps' := Extend(cfg, states, steps, CloseShared);
    states', steps' := Extend(cfg, states', steps', DemuxExit);
    states', steps' := Extend(cfg, states', steps', ShutdownLoad);
  }

  /** Two drains of one pipeline, the second of a closed channel. */
  lemma DrainsTwice(cfg: Config, states: seq<State>, steps: seq<Step>, p: PipeId)
    returns (states': seq<State>, steps': seq<Step>)
    requires states != [] && OrderedRun(cfg, states, steps)
    requires var s := Last(states); !s.panicked && p < |s.pipes| && !s.pipes[p].rawClosed && s.due[p] >= 2
    ensures OrderedRun(cfg, states', steps') && states' != [] && Last(states').panicked
  {
    hide OrderedRun, AllDrained, KeyMap, KeysOk, PipeEnabled, InRange;
    states', steps' := Extend(cfg, states, steps, DrainBegin(p));
    states', steps' := Extend(cfg, states', steps', DrainBegin(p));
  }

  /** An open inline pipeline is published, and neither the inline lock nor shutdown is in use. */
  predicate OneInline(s: State, p: PipeId) {
    && s.inline == Free && s.demux == Waiting && s.shared == [] && s.shut == Running && s.due == multiset{}
       && !s.panicked
    && p < |s.pipes| && s.pipes[p].inline && !s.pipes[p].rawClosed && p in s.table.names.Values
  }

  /** Expiry loads the table before shutdown does, and stores after it. */
  lemma ExpiryRaces(cfg: Config, states: seq<State>, steps: seq<Step>, p: PipeId)
    returns (states': seq<State>, steps': seq<Step>)
    requires cfg.inlineTokens && cfg.inlineIdle > 0
    requires states != [] && OrderedRun(cfg, states, steps) && OneInline(Last(states), p)
    ensures OrderedRun(cfg, states', steps') && states' != [] && Last(states').panicked
  {
    hide OrderedRun, Without, AllDrained, KeyMap, KeysOk, PipeEnabled, InRange;
    states', steps' := Extend(cfg, states, steps, ExpireLoad);
    states', steps' := Closes(cfg, states', steps');
    states', steps' := Extend(cfg, states', steps', ExpireStore({p}));
    assert Last(states').due[p] == 2;
    hide Apply, Enabled;
    states', steps' := DrainsTwice(cfg, states', steps', p);
  }

  lemma InstalledDefault(cfg: Config, s: State)
    requires InRange(s.table, s.pipes)
    requires forall n <- Base(cfg) :: n in s.table.names && KeyMap(s.table, s.pipes)[n] == Base(cfg)[n]
    ensures DefaultKept(cfg, s.table, s.pipes)
  {
  }

  /** The configured project and one inline project are published, and nothing else is going on. */
  predicate OneProject(cfg: Config, s: State, p: PipeId, project: bytes) {
    && OneInline(s, p) && s.reload == NoReload && s.received !in s.dispatching && DefaultKept(cfg, s.table, s.pipes)
    && s.table.names.Keys == Base(cfg).Keys + {project} && s.table.names[project] == p && project !in Base(cfg)
    && forall n <- s.table.names :: n != project ==> s.table.names[n] != p
  }

  /** A registration on an installed state leaves one inline pipeline, open and published. */
  lemma JoinedOne(cfg: Config, s: State, s': State, project: bytes)
    requires Calm(s) && Joined(s, s', project) && DefaultKept(cfg, s.table, s.pipes)
             && s.table.names.Keys == Base(cfg).Keys
    requires project !in Base(cfg) && project != DEFAULT_PROJECT
    ensures OneProject(cfg, s', |s.pipes|, project)
  {
    assert s'.table.names[project] == |s.pipes|;
  }

  lemma CalmVacant(cfg: Config, s: State, project: bytes)
    requires Calm(s) && s.table.names.Keys == Base(cfg).Keys && Room(cfg, 1) && project != DEFAULT_PROJECT
    ensures Vacant(cfg, s, project) && project !in Base(cfg)
  {
    SameSize(s.table.names, Base(cfg));
  }

  lemma OneJoins(cfg: Config, raw: bytes, project: bytes, token: bytes)
    returns (states: seq<State>, steps: seq<Step>, p: PipeId)
    requires cfg.inlineTokens && Room(cfg, 1)
    requires Names(cfg, raw, project, token) && project != [] && project != DEFAULT_PROJECT && token != []
    ensures OrderedRun(cfg, states, steps) && states != [] && OneProject(cfg, Last(states), p, project)
  {
    hide OrderedRun, KeysOk, Enumerates, KeyMap, Names;
    BaseIsOk(cfg);
    var s := Installs(cfg, Base(cfg), BaseOrder(cfg));
    InstalledDefault(cfg, s);
    CalmVacant(cfg, s, project);
    hide Calm, Vacant, Joined, DefaultKept, Base, Room, OneProject;
    states, steps := Registers(cfg, [s], [], raw, project, token);
    p := |s.pipes|;
    JoinedOne(cfg, s, Last(states), project);
  }

  /** In a deployment that expires idle inline projects, expiry and shutdown drain one pipeline twice. */
  lemma ExpiryPanics(cfg: Config, raw: bytes, project: bytes, token: bytes)
      returns (states: seq<State>, steps: seq<Step>)
    requires cfg.inlineTokens && cfg.inlineIdle > 0 && Room(cfg, 1)
    requires Names(cfg, raw, project, token) && project != [] && project != DEFAULT_PROJECT && token != []
    ensures OrderedRun(cfg, states, steps) && states != [] && Last(states).panicked
  {
    hide OrderedRun, Names, OneInline, DefaultKept;
    var p;
    states, steps, p := OneJoins(cfg, raw, project, token);
    states, steps := ExpiryRaces(cfg, states, steps, p);
  }

  // ---------------------------------------------------------------- reloading the configured key alone

  /** The configured project has its pipeline, under the configured key. */
  predicate DefaultKept(cfg: Config, t: Table, pipes: seq<Pipe>) {
    && InRange(t, pipes)
    && (cfg.apiKey != [] ==> DEFAULT_PROJECT in t.names && pipes[t.names[DEFAULT_PROJECT]].key == cfg.apiKey)
  }

  /** What is left of a table when the keys file is empty. */
  function Trimmed(cfg: Config, t: Table): Table
    requires cfg.apiKey != [] ==> DEFAULT_PROJECT in t.names
  {
    Table(if cfg.apiKey == [] then map[] else map[DEFAULT_PROJECT := t.names[DEFAULT_PROJECT]], cfg.apiKey != [])
  }

  lemma LoadsBase(cfg: Config, states: seq<State>, steps: seq<Step>, project: bytes)
    returns (states': seq<State>, steps': seq<Step>)
    requires cfg.keysFile && states != [] && OrderedRun(cfg, states, steps)
    requires var s := Last(states);
             !s.panicked && s.reload == NoReload && InRange(s.table, s.pipes) && project in s.table.names
               && project !in Base(cfg)
    ensures OrderedRun(cfg, states', steps') && states' != []
    ensures var s := Last(states); Last(states') == s.(reload := TableLoaded(Base(cfg), s.table, s.version))
  {
    hide OrderedRun, KeysOk, Base, KeyMap, InRange;
    BaseIsOk(cfg);
    var s := Last(states);
    OtherKeys(s.table, s.pipes, Base(cfg), project);
    states', steps' := Reads(cfg, states, steps);
    states', steps' := Loads(cfg, states', steps');
  }

  lemma OtherKeys(t: Table, pipes: seq<Pipe>, keys: map<bytes, bytes>, project: bytes)
    requires InRange(t, pipes) && project in t.names && project !in keys
    ensures KeyMap(t, pipes) != keys
  {
    assert project in KeyMap(t, pipes);
  }

  lemma Reads(cfg: Config, states: seq<State>, steps: seq<Step>) returns (states': seq<State>, steps': seq<Step>)
    requires cfg.keysFile && states != [] && OrderedRun(cfg, states, steps) && KeysOk(cfg, Base(cfg))
    requires !Last(states).panicked && Last(states).reload == NoReload
    ensures OrderedRun(cfg, states', steps') && states' != []
    ensures Last(states') == Last(states).(reload := KeysRead(Base(cfg)))
  {
    hide OrderedRun, PipeEnabled, KeysOk, KeyMap, InRange, Base;
    states', steps' := Extend(cfg, states, steps, ReloadRead(Base(cfg)));
  }

  lemma Loads(cfg: Config, states: seq<State>, steps: seq<Step>) returns (states': seq<State>, steps': seq<Step>)
    requires states != [] && OrderedRun(cfg, states, steps)
    requires var s := Last(states);
             !s.panicked && s.reload.KeysRead? && InRange(s.table, s.pipes) && KeyMap(s.table, s.pipes) != s.reload.keys
    ensures OrderedRun(cfg, states', steps') && states' != []
    ensures var s := Last(states); Last(states') == s.(reload := TableLoaded(s.reload.keys, s.table, s.version))
  {
    hide OrderedRun, PipeEnabled, KeysOk, KeyMap, InRange;
    states', steps' := Extend(cfg, states, steps, ReloadLoad);
  }

  lemma NothingFresh(cfg: Config, prev: Table, pipes: seq<Pipe>)
    requires DefaultKept(cfg, prev, pipes)
    ensures Enumerates([], FreshNames(Base(cfg), prev, pipes))
    ensures BuiltTable(Base(cfg), prev, pipes, []) == Trimmed(cfg, prev) && BuiltPipes(Base(cfg), pipes, []) == pipes
  {
    assert FreshNames(Base(cfg), prev, pipes) == {};
    assert BuiltNames(Base(cfg), prev, pipes, []) == Trimmed(cfg, prev).names;
  }

  lemma StoresBase(cfg: Config, states: seq<State>, steps: seq<Step>, prev: Table)
    returns (states': seq<State>, steps': seq<Step>)
    requires cfg.keysFile && states != [] && OrderedRun(cfg, states, steps)
    requires var s := Last(states);
             && !s.panicked && Open(s) && DefaultKept(cfg, prev, s.pipes)
             && s.reload.TableLoaded? && s.reload.keys == Base(cfg) && s.reload.prev == prev
    ensures OrderedRun(cfg, states', steps') && states' != []
    ensures var s := Last(states);
            Last(states') == s.(reload := NoReload, table := Trimmed(cfg, prev), version := s.version + 1,
                                due := s.due + multiset(Dropped(prev, Trimmed(cfg, prev))))
  {
    NothingFresh(cfg, prev, Last(states).pipes);
    hide OrderedRun, PipeEnabled, KeyMap, KeysOk, Base, Enumerates, FreshNames, BuiltTable, BuiltPipes, Trimmed,
      Dropped;
    states', steps' := Extend(cfg, states, steps, ReloadBuild([]));
    states', steps' := Extend(cfg, states', steps', ReloadStore);
  }

  // ---------------------------------------------------------------- registration against reload

  lemma OneMoreName(cfg: Config, s: State, p: PipeId, project: bytes)
    requires OneProject(cfg, s, p, project)
    ensures |s.table.names| == |Base(cfg)| + 1
  {
    assert |s.table.names| == |s.table.names.Keys| && |Base(cfg)| == |Base(cfg).Keys|;
  }

  /** A registration that has loaded the table stores it after a reload has dropped a pipeline from it:
      the dropped pipeline is published again, and shutdown drains it once more. */
  lemma RevivesDropped(cfg: Config, states: seq<State>, steps: seq<Step>, p: PipeId, project: bytes, other: bytes,
      raw: bytes, token: bytes)
    returns (states': seq<State>, steps': seq<Step>)
    requires cfg.keysFile && cfg.inlineTokens && Names(cfg, raw, other, token) && other != [] && token != []
    requires states != [] && OrderedRun(cfg, states, steps) && Vacant(cfg, Last(states), other)
    requires OneProject(cfg, Last(states), p, project)
    ensures OrderedRun(cfg, states', steps') && states' != [] && Last(states').panicked
  {
    hide OrderedRun, Names, NewPipe;
    var s := Last(states);
    states', steps' := LoadsBase(cfg, states, steps, project);
    states', steps' := Prepares(cfg, states', steps', raw, other, token);
    states', steps' := StoresBase(cfg, states', steps', s.table);
    assert p in Dropped(s.table, Trimmed(cfg, s.table)) by { DropsOne(cfg, s.table, project); }
    assert Last(states').due[p] == 1;
    states', steps' := Publishes(cfg, states', steps');
    assert Last(states').table.names == s.table.names[other := |s.pipes|];
    assert Last(states').table.names[project] == p;
    states', steps' := Closes(cfg, states', steps');
    assert Last(states').due[p] == 2;
    states', steps' := DrainsTwice(cfg, states', steps', p);
  }

  lemma DropsOne(cfg: Config, t: Table, project: bytes)
    requires project in t.names && project !in Base(cfg) && (cfg.apiKey != [] ==> DEFAULT_PROJECT in t.names)
    requires forall n <- t.names :: n != project ==> t.names[n] != t.names[project]
    ensures t.names[project] in Dropped(t, Trimmed(cfg, t))
  {
  }

  /** With a keys file, inline tokens and room for two, registration and reload drain one pipeline twice. */
  lemma ReloadPanics(cfg: Config, raw: bytes, project: bytes, raw': bytes, other: bytes, token: bytes)
    returns (states: seq<State>, steps: seq<Step>)
    requires cfg.keysFile && cfg.inlineTokens && Room(cfg, 2) && token != [] && project != other
    requires Names(cfg, raw, project, token) && project != [] && project != DEFAULT_PROJECT
    requires Names(cfg, raw', other, token) && other != [] && other != DEFAULT_PROJECT
    ensures OrderedRun(cfg, states, steps) && states != [] && Last(states).panicked
  {
    hide OrderedRun, Names;
    var p;
    states, steps, p := OneJoins(cfg, raw, project, token);
    OneMoreName(cfg, Last(states), p, project);
    StillVacant(cfg, Last(states), p, project, other);
    hide OneProject, Vacant;
    states, steps := RevivesDropped(cfg, states, steps, p, project, other, raw', token);
  }

  lemma StillVacant(cfg: Config, s: State, p: PipeId, project: bytes, other: bytes)
    requires OneProject(cfg, s, p, project) && Room(cfg, 2) && |s.table.names| == |Base(cfg)| + 1
    requires other != project && other != DEFAULT_PROJECT
    ensures Vacant(cfg, s, other)
  {
  }

  // ---------------------------------------------------------------- a datagram through the queue

  /** What the queue holds of a datagram. */
  function Queued(cfg: Config, s: State, raw: bytes): Datagram {
    Datagram(s.received, raw, 0, BodyOf(cfg, raw), cfg.route(raw).project, if cfg.inlineTokens
      then cfg.route(raw).token else [])
  }

  lemma Finds(cfg: Config, states: seq<State>, steps: seq<Step>, raw: bytes, project: bytes, token: bytes, p: PipeId)
    returns (states': seq<State>, steps': seq<Step>)
    requires Names(cfg, raw, project, token) && states != [] && OrderedRun(cfg, states, steps)
    requires var s := Last(states);
             !s.panicked && s.received !in s.dispatching && Lookup(s.table, cfg.requireProject, project) == Some(p)
    ensures OrderedRun(cfg, states', steps') && states' != []
    ensures var s := Last(states);
            Last(states') == s.(received := s.received + 1,
                                dispatching := s.dispatching[s.received := Dispatch(Queued(cfg, s, raw), Found(p))])
  {
    hide OrderedRun, Add, KeyMap, KeysOk, PipeEnabled, InRange, Lookup;
    var s := Last(states);
    states', steps' := Extend(cfg, states, steps, Deliver(raw, 0));
    states', steps' := Extend(cfg, states', steps', RouteOne(s.received));
    var d := Dispatch(Queued(cfg, s, raw), Routed);
    assert Last(states') == s.(received := s.received + 1, dispatching := s.dispatching[s.received := d]);
    states', steps' := Extend(cfg, states', steps', LookUp(s.received));
  }

  lemma Admits(cfg: Config, states: seq<State>, steps: seq<Step>, id: nat, dg: Datagram, p: PipeId)
    returns (states': seq<State>, steps': seq<Step>)
    requires cfg.queueSize > 0 && states != [] && OrderedRun(cfg, states, steps)
    requires var s := Last(states);
             && !s.panicked && id in s.dispatching && s.dispatching[id] == Dispatch(dg, Found(p)) && s.shared == []
                && !s.sharedClosed
             && p < |s.pipes| && !s.pipes[p].rawClosed && !s.pipes[p].inline
    ensures OrderedRun(cfg, states', steps') && states' != []
    ensures var s := Last(states); Last(states') == s.(dispatching := s.dispatching - {id}, shared := [dg])
  {
    hide OrderedRun, Add, AddStats, KeyMap, KeysOk, PipeEnabled, InRange, Drop, Book;
    var s := Last(states);
    states', steps' := Extend(cfg, states, steps, Admit(id));
    assert Last(states') == s.(dispatching := s.dispatching[id := Dispatch(dg, Admitted(p))]);
    states', steps' := Extend(cfg, states', steps', Enqueue(id));
    assert s.dispatching[id := Dispatch(dg, Admitted(p))] - {id} == s.dispatching - {id};
  }

  /** A datagram is let into the shared queue. */
  lemma Enqueues(cfg: Config, states: seq<State>, steps: seq<Step>, raw: bytes, project: bytes, token: bytes, p: PipeId)
    returns (states': seq<State>, steps': seq<Step>)
    requires Names(cfg, raw, project, token) && cfg.queueSize > 0
    requires states != [] && OrderedRun(cfg, states, steps)
    requires var s := Last(states);
             && !s.panicked && s.received !in s.dispatching && s.shared == [] && !s.sharedClosed
             && Lookup(s.table, cfg.requireProject, project) == Some(p) && p < |s.pipes| && !s.pipes[p].rawClosed
                && !s.pipes[p].inline
    ensures OrderedRun(cfg, states', steps') && states' != []
    ensures var s := Last(states); Last(states') == s.(received := s.received + 1, shared := [Queued(cfg, s, raw)])
  {
    hide OrderedRun, Names, Lookup, Queued;
    var s := Last(states);
    states', steps' := Finds(cfg, states, steps, raw, project, token, p);
    states', steps' := Admits(cfg, states', steps', s.received, Queued(cfg, s, raw), p);
    assert Last(states').dispatching == s.dispatching;
  }

  /** The queued datagram reaches its pipeline. */
  lemma Hands(cfg: Config, states: seq<State>, steps: seq<Step>, dg: Datagram, p: PipeId)
    returns (states': seq<State>, steps': seq<Step>)
    requires states != [] && OrderedRun(cfg, states, steps)
    requires var s := Last(states);
             && !s.panicked && s.demux == Waiting && s.shared == [dg]
             && Lookup(s.table, cfg.requireProject, dg.project) == Some(p) && p < |s.pipes|
             && !s.pipes[p].rawClosed && s.pipes[p].raw == []
    ensures OrderedRun(cfg, states', steps') && states' != []
    ensures var s := Last(states); Last(states') == s.(shared := [], pipes := s.pipes[p := s.pipes[p].(raw := [dg])])
  {
    hide OrderedRun, Add, AddStats, KeyMap, KeysOk, PipeEnabled, InRange, Lookup;
    states', steps' := Extend(cfg, states, steps, DemuxTake);
    states', steps' := Extend(cfg, states', steps', DemuxLookup);
    assert [] + [dg] == [dg];
    states', steps' := Extend(cfg, states', steps', DemuxSend);
  }

  // ---------------------------------------------------------------- a POST without a credential

  /** The pipeline's only datagram becomes a batch in the channel. */
  lemma Batches(cfg: Config, states: seq<State>, steps: seq<Step>, dg: Datagram, p: PipeId, project: bytes,
      stamp: bytes)
    returns (states': seq<State>, steps': seq<Step>, b: Batch)
    requires cfg.maxBatch > 0 && states != [] && OrderedRun(cfg, states, steps) && dg.token == []
    requires var s := Last(states);
             !s.panicked && s.posts == [] && p < |s.pipes|
               && s.pipes[p] == Start(NewPipe(project, [], true)).(raw := [dg])
    requires cfg.clock(stamp) && cfg.validate(dg.body, stamp).Accepted?
    ensures OrderedRun(cfg, states', steps') && states' != [] && b.token == []
    ensures var s := Last(states');
            && !s.panicked && s.posts == [] && p < |s.pipes| && s.pipes[p].batches == [b] && s.pipes[p].sending == None
            && s.pipes[p].key == [] && !s.pipes[p].flushDone
  {
    hide OrderedRun, Add, AddStats, ItemsWeight, ItemIds, KeyMap, KeysOk;
    states', steps' := Extend(cfg, states, steps, OnPipe(p, Accept(stamp)));
    states', steps' := Extend(cfg, states', steps', OnPipe(p, FlushCur));
    b := Last(states').pipes[p].pending.value;
    states', steps' := Extend(cfg, states', steps', OnPipe(p, Emit));
  }

  lemma Sends(cfg: Config, states: seq<State>, steps: seq<Step>, p: PipeId, b: Batch)
    returns (states': seq<State>, steps': seq<Step>)
    requires states != [] && OrderedRun(cfg, states, steps) && b.token == []
    requires var s := Last(states);
             && !s.panicked && s.posts == [] && p < |s.pipes| && s.pipes[p].batches == [b] && s.pipes[p].sending == None
             && s.pipes[p].key == [] && !s.pipes[p].flushDone
    ensures OrderedRun(cfg, states', steps') && states' != []
    ensures |Last(states').posts| == 1 && Last(states').posts[0].bearer == []
  {
    hide OrderedRun, Add, AddStats, ItemsWeight, ItemIds, KeyMap, KeysOk;
    states', steps' := Extend(cfg, states, steps, OnPipe(p, TakeBatch));
    states', steps' := Extend(cfg, states', steps', OnPipe(p, Attempt(F.Fatal)));
  }

  /** A project from the keys file, with its own pipeline. */
  predicate KeyedProject(cfg: Config, s: State, project: bytes) {
    && Calm(s) && s.received == 0 && DefaultKept(cfg, s.table, s.pipes) && project in s.table.names
       && project !in Base(cfg)
    && var p := s.pipes[s.table.names[project]]; !p.rawClosed && !p.inline
  }

  lemma InstallsKeyed(cfg: Config, project: bytes, key: bytes) returns (s: State)
    requires cfg.keysFile && Room(cfg, 1) && key != [] && project != [] && project != DEFAULT_PROJECT
    ensures OrderedRun(cfg, [s], []) && KeyedProject(cfg, s, project)
  {
    hide OrderedRun, KeysOk, Enumerates, KeyMap, Calm;
    BaseAndOne(cfg, project, key);
    s := Installs(cfg, Base(cfg)[project := key], BaseOrder(cfg) + [project]);
    InstalledDefault(cfg, s);
    assert Untouched(s.pipes[s.table.names[project]]);
  }

  /** The keys file drops the project while a datagram for it is queued. */
  lemma QueuesAndDrops(cfg: Config, raw: bytes, project: bytes, key: bytes)
      returns (states: seq<State>, steps: seq<Step>)
    requires cfg.keysFile && Room(cfg, 1) && cfg.queueSize > 0 && key != []
    requires Names(cfg, raw, project, []) && project != [] && project != DEFAULT_PROJECT
    ensures OrderedRun(cfg, states, steps) && states != []
    ensures var s := Last(states);
            && s.received == 1 && s.dispatching == map[] && s.demux == Waiting && s.inline == Free && s.posts == []
               && !s.panicked
            && s.shared == [Datagram(0, raw, 0, BodyOf(cfg, raw), project, [])]
            && s.table.names.Keys == Base(cfg).Keys
  {
    hide OrderedRun, BodyOf, Base, Room;
    var s := InstallsKeyed(cfg, project, key);
    states, steps := Enqueues(cfg, [s], [], raw, project, [], s.table.names[project]);
    states, steps := LoadsBase(cfg, states, steps, project);
    states, steps := StoresBase(cfg, states, steps, s.table);
    TrimmedKeys(cfg, s.table);
  }

  lemma TrimmedKeys(cfg: Config, t: Table)
    requires cfg.apiKey != [] ==> DEFAULT_PROJECT in t.names
    ensures Trimmed(cfg, t).names.Keys == Base(cfg).Keys
  {
  }

  /** The guard against token-less datagrams is passed while the project has a key, and the event is
      posted by the inline pipeline that has taken the project over. */
  lemma KeysFilePostsAnonymously(cfg: Config, raw: bytes, other: bytes, project: bytes, key: bytes, token: bytes,
      stamp: bytes)
    returns (states: seq<State>, steps: seq<Step>)
    requires cfg.keysFile && cfg.inlineTokens && Room(cfg, 1) && cfg.queueSize > 0 && cfg.maxBatch > 0
    requires project != [] && project != DEFAULT_PROJECT && key != [] && token != []
    requires Names(cfg, raw, project, []) && Names(cfg, other, project, token)
    requires cfg.clock(stamp) && cfg.validate(BodyOf(cfg, raw), stamp).Accepted?
    ensures OrderedRun(cfg, states, steps) && states != []
    ensures |Last(states).posts| == 1 && Last(states).posts[0].bearer == []
  {
    hide OrderedRun, Names, BodyOf, NewPipe;
    states, steps := QueuesAndDrops(cfg, raw, project, key);
    var s := Last(states);
    SameSize(s.table.names, Base(cfg));
    states, steps := Registers(cfg, states, steps, other, project, token);
    var dg := Datagram(0, raw, 0, BodyOf(cfg, raw), project, []);
    InlineIsOpen(project);
    states, steps := Hands(cfg, states, steps, dg, |s.pipes|);
    var b;
    states, steps, b := Batches(cfg, states, steps, dg, |s.pipes|, project, stamp);
    states, steps := Sends(cfg, states, steps, |s.pipes|, b);
  }

  lemma InlineIsOpen(project: bytes)
    ensures var p := Start(NewPipe(project, [], true)); !p.rawClosed && p.raw == []
  {
  }

  // ---------------------------------------------------------------- a refused datagram

  /** A datagram for the default project is refused by its batcher. */
  lemma Refuses(cfg: Config, raw: bytes, token: bytes, stamp: bytes) returns (states: seq<State>, steps: seq<Step>)
    requires cfg.apiKey != [] && !cfg.requireProject && cfg.queueSize > 0 && cfg.maxBatch > 0
    requires Names(cfg, raw, [], token) && cfg.clock(stamp) && cfg.validate(BodyOf(cfg, raw), stamp) == ParseError
    ensures OrderedRun(cfg, states, steps) && states != []
    ensures Last(states).tally.queueFull == 0 && Last(states).misses == 0
    ensures |Last(states).pipes| == 1 && Last(states).pipes[0].stats.parseError == 1
  {
    hide OrderedRun, KeysOk, Enumerates, BodyOf, ItemsWeight, KeyMap;
    BaseIsOk(cfg);
    var s := Installs(cfg, Base(cfg), BaseOrder(cfg));
    var dg := Queued(cfg, s, raw);
    states, steps := Enqueues(cfg, [s], [], raw, [], token, 0);
    states, steps := Hands(cfg, states, steps, dg, 0);
    hide Names, Queued, Calm;
    states, steps := Rejects(cfg, states, steps, dg, stamp);
  }

  lemma Rejects(cfg: Config, states: seq<State>, steps: seq<Step>, dg: Datagram, stamp: bytes)
    returns (states': seq<State>, steps': seq<Step>)
    requires cfg.maxBatch > 0 && cfg.clock(stamp) && cfg.validate(dg.body, stamp) == ParseError
    requires states != [] && OrderedRun(cfg, states, steps)
    requires var s := Last(states);
             && !s.panicked && s.tally.queueFull == 0 && s.misses == 0 && |s.pipes| == 1 && s.pipes[0].raw == [dg]
                && s.pipes[0].cur == []
             && !s.pipes[0].batcherDone && s.pipes[0].pending == None && s.pipes[0].stats.parseError == 0
    ensures OrderedRun(cfg, states', steps') && states' != []
    ensures Last(states').tally.queueFull == 0 && Last(states').misses == 0
    ensures |Last(states').pipes| == 1 && Last(states').pipes[0].stats.parseError == 1
  {
    hide OrderedRun, KeyMap, KeysOk;
    states', steps' := Extend(cfg, states, steps, OnPipe(0, Accept(stamp)));
  }
}
