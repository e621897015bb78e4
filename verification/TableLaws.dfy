/** What every interleaving of the table writers' separate loads and stores keeps true of the routing table. */
module TableLaws {
  import opened Bytes
  import opened Batching
  import opened Registry
  import F = Flushing
  import opened Protocol

  /** What a pipeline is, as opposed to what it holds. */
  predicate SameIdentity(p: Pipe, q: Pipe) {
    p.project == q.project && p.key == q.key && p.inline == q.inline && p.starts == q.starts
  }

  /** Pipelines are only ever added, and keep their identity. */
  predicate Grows(pipes: seq<Pipe>, pipes': seq<Pipe>) {
    |pipes| <= |pipes'| && forall k :: 0 <= k < |pipes| ==> SameIdentity(pipes[k], pipes'[k])
  }

  /** Every pipeline was started once, is inline exactly when it has no key of its own (which takes inline
      tokens), and the default project is never inline when a key is configured for it. */
  predicate PipeIdentity(cfg: Config, p: Pipe) {
    && p.starts == 1 && (p.inline <==> p.key == []) && (p.inline ==> cfg.inlineTokens)
    && (p.project == DEFAULT_PROJECT && cfg.apiKey != [] ==> !p.inline)
    && (!cfg.keysFile && !p.inline ==> p.project == DEFAULT_PROJECT)
    && (p.project == DEFAULT_PROJECT && !p.inline ==> p.key == cfg.apiKey)
  }

  predicate Identities(cfg: Config, pipes: seq<Pipe>) { forall k :: 0 <= k < |pipes| ==> PipeIdentity(cfg, pipes[k]) }

  predicate GoodTable(cfg: Config, pipes: seq<Pipe>, t: Table) {
    && OwnNames(t, pipes)
    && (t.hasDefault <==> cfg.apiKey != [])
    && (cfg.apiKey != [] ==> DEFAULT_PROJECT in t.names)
    && (cfg.maxProjects > 0 ==> |t.names| <= cfg.maxProjects)
  }

  predicate HasRoom(cfg: Config, t: Table) { cfg.maxProjects > 0 ==> |t.names| < cfg.maxProjects }

  /** A dispatch that asks for a registration names a project with no key of its own and carries a token. */
  predicate WantsOk(cfg: Config, d: Dispatch) {
    d.phase.WantsInline? ==>
      cfg.inlineTokens && d.dg.project != [] && d.dg.token != []
        && (d.dg.project == DEFAULT_PROJECT ==> cfg.apiKey == [])
  }

  predicate HolderOk(cfg: Config, s: State) {
    match s.inline
    case Free => true
    case LookupMissed(id, _) => InPhase(s, id, WantsInline)
    case RoomChecked(id, prev, _) => InPhase(s, id, WantsInline) && GoodTable(cfg, s.pipes, prev) && HasRoom(cfg, prev)
    case PipeMade(id, prev, pipe, _) =>
      && InPhase(s, id, WantsInline) && GoodTable(cfg, s.pipes, prev) && HasRoom(cfg, prev)
      && pipe < |s.pipes| && s.pipes[pipe].project == s.dispatching[id].dg.project && s.pipes[pipe].inline
    case Expiring(prev, _) => GoodTable(cfg, s.pipes, prev) && cfg.inlineTokens && cfg.inlineIdle > 0
  }

  ghost predicate ReloadOk(cfg: Config, s: State) {
    match s.reload
    case NoReload => true
    case KeysRead(keys) => cfg.keysFile && KeysOk(cfg, keys)
    case TableLoaded(keys, prev, _) => cfg.keysFile && KeysOk(cfg, keys) && GoodTable(cfg, s.pipes, prev)
    case TableBuilt(keys, prev, next, base, _) =>
      && cfg.keysFile && GoodTable(cfg, s.pipes, prev) && GoodTable(cfg, s.pipes, next)
      && (forall n <- next.names :: !s.pipes[next.names[n]].inline) && BuiltOk(s.pipes, keys, prev, next)
  }

  /** The table built stands for exactly the keys, and a name keeps its pipeline exactly when it keeps its key. */
  predicate BuiltOk(pipes: seq<Pipe>, keys: map<bytes, bytes>, prev: Table, next: Table) {
    && InRange(prev, pipes) && InRange(next, pipes) && KeyMap(next, pipes) == keys
    && forall n <- keys :: Reusable(prev, pipes, n, keys[n]) <==> n in prev.names && next.names[n] == prev.names[n]
  }

  lemma BuiltGrows(pipes: seq<Pipe>, pipes': seq<Pipe>, keys: map<bytes, bytes>, prev: Table, next: Table)
    requires BuiltOk(pipes, keys, prev, next) && Grows(pipes, pipes')
    ensures BuiltOk(pipes', keys, prev, next)
  {
    assert KeyMap(next, pipes).Keys == next.names.Keys;
    forall n <- next.names ensures pipes'[next.names[n]].key == pipes[next.names[n]].key {
      assert SameIdentity(pipes[next.names[n]], pipes'[next.names[n]]);
    }
    forall n <- prev.names ensures pipes'[prev.names[n]].key == pipes[prev.names[n]].key {
      assert SameIdentity(pipes[prev.names[n]], pipes'[prev.names[n]]);
    }
    assert KeyMap(next, pipes') == KeyMap(next, pipes);
  }

  ghost predicate TablesInv(cfg: Config, s: State) {
    && Identities(cfg, s.pipes) && GoodTable(cfg, s.pipes, s.table)
    && (forall id <- s.dispatching :: WantsOk(cfg, s.dispatching[id]))
    && HolderOk(cfg, s) && ReloadOk(cfg, s)
  }

  // ---------------------------------------------------------------- growth

  /** Accepting a datagram changes nothing but the batcher's part of the pipeline. */
  lemma AcceptShape(cfg: Config, p: Pipe, stamp: bytes)
    requires p.raw != []
    ensures var q := AcceptStep(cfg, p, stamp).pipe;
            q == p.(raw := p.raw[1..], cur := q.cur, pending := q.pending, firstSeen := q.firstSeen,
              curToken := q.curToken)
  {
    hide ItemsWeight, NO_STATS, ZERO_TALLY, Extended, Overflows, Closed, Refilled;
    match cfg.validate(p.raw[0].body, stamp)
    case Accepted(ev) =>
      var open, it := OpenOf(p), Item(p.raw[0], ev);
      RefilledShape(p, Extended(NO_BATCH, it), Some(Closed(open)));
      RefilledShape(p, Extended(open, it), p.pending);
    case _ =>
  }

  lemma RefilledShape(p: Pipe, open: Collecting, pending: Option<Batch>)
    requires p.raw != []
    ensures var q := Refilled(p, open, pending);
            q == p.(raw := p.raw[1..], cur := q.cur, pending := q.pending, firstSeen := q.firstSeen,
              curToken := q.curToken)
  {
  }

  lemma FinishShape(p: Pipe, e: F.Ending, posted: bool)
    requires p.sending.Some?
    ensures Finish(p, e, posted).pipe == p.(sending := None)
  {
    hide ItemIds, NO_STATS, ZERO_TALLY;
  }

  /** An attempt empties the flusher's hands, or counts one more try while some are left. */
  lemma AttemptShape(cfg: Config, p: Pipe, reply: F.Reply)
    requires p.sending.Some?
    ensures var q := AttemptStep(cfg, p, reply).pipe; var s := p.sending.value;
            && q == p.(sending := q.sending)
            && (q.sending == None || (s.attempts < cfg.maxRetries && q.sending == Some(s.(attempts := s.attempts + 1))))
  {
    hide Finish;
    FinishShape(p, F.Sent, true);
    FinishShape(p, F.Cut, true);
    FinishShape(p, F.Failed, true);
  }

  /** The flusher's steps change nothing but the batch in its hands. */
  lemma SendEffect(cfg: Config, p: Pipe, st: PipeStep)
    requires PipeEnabled(cfg, p, st) && (st.Attempt? || st.CutWait?)
    ensures p.sending.Some?
    ensures var q := PipeEffect(cfg, p, st).pipe; var s := p.sending.value;
            && q == p.(sending := q.sending)
            && (q.sending == None || (s.attempts < cfg.maxRetries && q.sending == Some(s.(attempts := s.attempts + 1))))
  {
    hide Finish, AttemptStep;
    match st
    case Attempt(reply) => AttemptShape(cfg, p, reply);
    case CutWait => FinishShape(p, F.Cut, false);
  }

  lemma PipeEffectIdentity(cfg: Config, p: Pipe, st: PipeStep)
    requires PipeEnabled(cfg, p, st)
    ensures SameIdentity(p, PipeEffect(cfg, p, st).pipe)
  {
    hide AcceptStep, AttemptStep, Finish, ItemIds, NO_STATS, ZERO_TALLY;
    match st
    case Accept(stamp) => AcceptShape(cfg, p, stamp);
    case Attempt(_) => SendEffect(cfg, p, st);
    case CutWait => SendEffect(cfg, p, st);
    case _ =>
  }

  lemma UpdateGrows(pipes: seq<Pipe>, id: PipeId, p: Pipe)
    requires id < |pipes| && SameIdentity(pipes[id], p)
    ensures Grows(pipes, pipes[id := p])
  {
  }

  predicate MakesPipes(st: Step) { st.RegisterMake? || st.ReloadBuild? }

  predicate TouchesPipe(st: Step) {
    st.Admit? || st.Enqueue? || st.DemuxSend? || st.OnPipe? || st.DrainBegin?
  }

  /** Most steps leave every pipeline alone. */
  lemma PipesAlone(cfg: Config, s: State, st: Step)
    requires Enabled(cfg, s, st) && !MakesPipes(st) && !TouchesPipe(st)
    ensures Apply(cfg, s, st).pipes == s.pipes
  {
    hide KeyMap, Lookup, Add, Dropped, Without, InlinePipes;
    match st
    case RouteOne(id) =>
    case LookUp(id) =>
    case _ =>
  }

  lemma TouchGrows(cfg: Config, s: State, st: Step)
    requires Enabled(cfg, s, st) && TouchesPipe(st)
    ensures Grows(s.pipes, Apply(cfg, s, st).pipes) && |Apply(cfg, s, st).pipes| == |s.pipes|
  {
    hide PipeEffect, Add, AddStats, PipeEnabled, Grows;
    match st
    case Admit(id) => TouchedGrows(s, s.dispatching[id].phase.pipe);
    case Enqueue(id) => TouchedGrows(s, s.dispatching[id].phase.pipe);
    case DemuxSend => TouchedGrows(s, s.demux.pipe);
    case DrainBegin(pipe) => TouchedGrows(s, pipe);
    case OnPipe(pipe, pst) =>
      PipeEffectIdentity(cfg, s.pipes[pipe], pst);
      UpdateGrows(s.pipes, pipe,
        Bump(PipeEffect(cfg, s.pipes[pipe], pst).pipe, PipeEffect(cfg, s.pipes[pipe], pst).booked));
  }

  /** The four ways a step outside a pipeline touches one. */
  lemma TouchedGrows(s: State, id: PipeId)
    requires id < |s.pipes|
    ensures var p := s.pipes[id];
            && Grows(s.pipes, s.pipes)
            && (forall st :: Grows(s.pipes, s.pipes[id := Bump(p, st)]))
            && (forall dg :: Grows(s.pipes, s.pipes[id := p.(raw := p.raw + [dg])]))
            && Grows(s.pipes, s.pipes[id := p.(rawClosed := true)])
  {
    hide AddStats;
  }

  lemma MakeGrows(cfg: Config, s: State, st: Step)
    requires Enabled(cfg, s, st) && MakesPipes(st)
    ensures Grows(s.pipes, Apply(cfg, s, st).pipes)
  {
    hide BuiltTable, FreshNames, NewPipe, Enumerates;
    if st.ReloadBuild? {
      var w := s.reload;
      OrderInKeys(w.keys, w.prev, s.pipes, st.order);
      assert forall k :: 0 <= k < |s.pipes| ==> BuiltPipes(w.keys, s.pipes, st.order)[..|s.pipes|][k] == s.pipes[k];
    }
  }

  /** No step changes or removes a pipeline's identity. */
  lemma StepGrows(cfg: Config, s: State, st: Step)
    requires Enabled(cfg, s, st)
    ensures Grows(s.pipes, Apply(cfg, s, st).pipes)
    ensures !MakesPipes(st) ==> |Apply(cfg, s, st).pipes| == |s.pipes|
  {
    hide Enabled, Apply;
    if MakesPipes(st) {
      MakeGrows(cfg, s, st);
    } else if TouchesPipe(st) {
      TouchGrows(cfg, s, st);
    } else {
      PipesAlone(cfg, s, st);
    }
  }

  lemma GoodTableGrows(cfg: Config, pipes: seq<Pipe>, pipes': seq<Pipe>, t: Table)
    requires GoodTable(cfg, pipes, t) && Grows(pipes, pipes')
    ensures GoodTable(cfg, pipes', t)
  {
    forall n <- t.names ensures t.names[n] < |pipes'| && pipes'[t.names[n]].project == n {
      assert SameIdentity(pipes[t.names[n]], pipes'[t.names[n]]);
    }
  }

  lemma IdentitiesGrow(cfg: Config, pipes: seq<Pipe>, pipes': seq<Pipe>)
    requires Identities(cfg, pipes) && Grows(pipes, pipes') && |pipes| == |pipes'|
    ensures Identities(cfg, pipes')
  {
    forall k | 0 <= k < |pipes'| ensures PipeIdentity(cfg, pipes'[k]) {
      assert SameIdentity(pipes[k], pipes'[k]) && PipeIdentity(cfg, pipes[k]);
    }
  }

  // ---------------------------------------------------------------- preservation

  predicate IsTableStep(st: Step) {
    st.RegisterLock? || st.RegisterLoad? || st.RegisterMake? || st.RegisterStore? || st.ReloadRead? || st.ReloadLoad?
    || st.ReloadBuild? || st.ReloadStore? || st.ExpireLoad? || st.ExpireStore? || st.ExpireQuit?
  }

  /** A lookup in a good table never misses the default project while it has a key. */
  lemma MissIsNotDefault(cfg: Config, pipes: seq<Pipe>, t: Table, project: bytes)
    requires GoodTable(cfg, pipes, t) && project == DEFAULT_PROJECT && Lookup(t, cfg.requireProject, project) == None
    ensures cfg.apiKey == []
  {
  }

  /** Identifiers in dispatch were given out by the listener. */
  predicate IdsGiven(s: State) { forall id <- s.dispatching :: id < s.received }

  predicate SameWriters(s: State, s': State) {
    s'.table == s.table && s'.version == s.version && s'.reload == s.reload && s'.inline == s.inline
  }

  lemma FrameDispatcher(cfg: Config, s: State, st: Step)
    requires Enabled(cfg, s, st) && (st.RouteOne? || st.LookUp? || st.Admit? || st.Enqueue?)
    ensures SameWriters(s, Apply(cfg, s, st))
  {
    hide PipeEnabled, KeyMap, Lookup, Add, AddStats, InRange, KeysOk;
    match st
    case RouteOne(_) =>
    case LookUp(_) =>
    case Admit(_) =>
    case Enqueue(_) =>
  }

  lemma FrameWriters(cfg: Config, s: State, st: Step)
    requires Enabled(cfg, s, st) && !IsTableStep(st)
    ensures SameWriters(s, Apply(cfg, s, st))
  {
    hide PipeEffect, PipeEnabled, KeyMap, Lookup, Add, AddStats, BuiltTable, InRange, KeysOk, Enumerates, FreshNames,
      InlinePipes, AllDrained;
    if st.RouteOne? || st.LookUp? || st.Admit? || st.Enqueue? {
      hide Apply, Enabled, SameWriters;
      FrameDispatcher(cfg, s, st);
    }
  }

  predicate DispatchKept(cfg: Config, s: State, s': State) {
    && (forall id <- s'.dispatching :: WantsOk(cfg, s'.dispatching[id]))
    && (forall id <- s.dispatching :: s.dispatching[id].phase.WantsInline? ==>
          id in s'.dispatching && s'.dispatching[id] == s.dispatching[id])
  }

  lemma FrameHandled(cfg: Config, s: State, st: Step)
    requires Enabled(cfg, s, st) && (st.Admit? || st.Enqueue?)
             && forall id <- s.dispatching :: WantsOk(cfg, s.dispatching[id])
    ensures DispatchKept(cfg, s, Apply(cfg, s, st))
  {
    hide PipeEnabled, KeyMap, Add, AddStats, KeysOk;
  }

  lemma FrameDispatch(cfg: Config, s: State, st: Step)
    requires TablesInv(cfg, s) && IdsGiven(s) && Enabled(cfg, s, st) && !IsTableStep(st)
    ensures DispatchKept(cfg, s, Apply(cfg, s, st))
  {
    hide RouteStep, LookUpStep, PipeEffect, PipeEnabled, KeyMap, GoodTable, Identities, HolderOk, ReloadOk, Lookup, Add,
      AddStats, KeysOk;
    if st.LookUp? {
      LookUpKeeps(cfg, s, st.id);
    } else if st.RouteOne? {
      RouteKeeps(cfg, s, st.id);
    } else if st.Admit? || st.Enqueue? {
      hide Apply, Enabled, DispatchKept;
      FrameHandled(cfg, s, st);
    }
  }

  lemma LookUpKeeps(cfg: Config, s: State, id: nat)
    requires TablesInv(cfg, s) && InPhase(s, id, Routed)
    ensures DispatchKept(cfg, s, LookUpStep(cfg, s, id))
  {
    hide Identities, HolderOk, ReloadOk, Add, GoodTable;
    var dg := s.dispatching[id].dg;
    if dg.project == DEFAULT_PROJECT && Lookup(s.table, cfg.requireProject, dg.project) == None {
      MissIsNotDefault(cfg, s.pipes, s.table, dg.project);
    }
  }

  lemma RouteKeeps(cfg: Config, s: State, id: nat)
    requires InPhase(s, id, Arrived) && forall i <- s.dispatching :: WantsOk(cfg, s.dispatching[i])
    ensures DispatchKept(cfg, s, RouteStep(cfg, s, id))
  {
    hide Add;
  }

  lemma TablesFrame(cfg: Config, s: State, st: Step)
    requires TablesInv(cfg, s) && IdsGiven(s) && Enabled(cfg, s, st) && !IsTableStep(st)
    ensures TablesInv(cfg, Apply(cfg, s, st))
  {
    hide Apply, Enabled, GoodTable, Identities, Grows, KeysOk, WantsOk;
    var s' := Apply(cfg, s, st);
    FrameWriters(cfg, s, st);
    FrameDispatch(cfg, s, st);
    StepGrows(cfg, s, st);
    IdentitiesGrow(cfg, s.pipes, s'.pipes);
    GoodTableGrows(cfg, s.pipes, s'.pipes, s.table);
    HolderFrame(cfg, s, s');
    ReloadFrame(cfg, s, s');
  }

  lemma HolderFrame(cfg: Config, s: State, s': State)
    requires HolderOk(cfg, s) && s'.inline == s.inline && Grows(s.pipes, s'.pipes) && IdsGiven(s)
    requires forall id <- s.dispatching :: s.dispatching[id].phase.WantsInline? ==>
               id in s'.dispatching && s'.dispatching[id] == s.dispatching[id]
    ensures HolderOk(cfg, s')
  {
    match s.inline
    case RoomChecked(id, prev, _) => GoodTableGrows(cfg, s.pipes, s'.pipes, prev);
    case PipeMade(id, prev, pipe, _) =>
      GoodTableGrows(cfg, s.pipes, s'.pipes, prev);
      assert SameIdentity(s.pipes[pipe], s'.pipes[pipe]);
    case Expiring(prev, _) => GoodTableGrows(cfg, s.pipes, s'.pipes, prev);
    case _ =>
  }

  lemma ReloadFrame(cfg: Config, s: State, s': State)
    requires ReloadOk(cfg, s) && s'.reload == s.reload && Grows(s.pipes, s'.pipes)
    ensures ReloadOk(cfg, s')
  {
    hide KeysOk, BuiltOk;
    match s.reload
    case TableLoaded(keys, prev, _) => GoodTableGrows(cfg, s.pipes, s'.pipes, prev);
    case TableBuilt(keys, prev, next, base, _) =>
      GoodTableGrows(cfg, s.pipes, s'.pipes, prev);
      GoodTableGrows(cfg, s.pipes, s'.pipes, next);
      BuiltGrows(s.pipes, s'.pipes, keys, prev, next);
      forall n <- next.names ensures !s'.pipes[next.names[n]].inline {
        assert SameIdentity(s.pipes[next.names[n]], s'.pipes[next.names[n]]);
      }
    case _ =>
  }

  lemma LockKeeps(cfg: Config, s: State, st: Step)
    requires TablesInv(cfg, s) && Enabled(cfg, s, st) && (st.RegisterLock? || st.RegisterLoad?)
    ensures TablesInv(cfg, Apply(cfg, s, st))
  {
    hide KeysOk, KeyMap, Identities, GoodTable, Lookup, Add;
    ReloadFrame(cfg, s, Apply(cfg, s, st));
  }

  lemma MakeKeeps(cfg: Config, s: State)
    requires TablesInv(cfg, s) && Enabled(cfg, s, RegisterMake)
    ensures TablesInv(cfg, Apply(cfg, s, RegisterMake))
  {
    hide KeysOk, KeyMap, GoodTable, NewPipe, HasRoom;
    var s' := Apply(cfg, s, RegisterMake);
    var w := s.inline;
    MakeGrows(cfg, s, RegisterMake);
    ReloadFrame(cfg, s, s');
    GoodTableGrows(cfg, s.pipes, s'.pipes, s.table);
    GoodTableGrows(cfg, s.pipes, s'.pipes, w.prev);
    assert WantsOk(cfg, s.dispatching[w.id]);
    NewInline(cfg, s.dispatching[w.id].dg.project);
  }

  lemma NewInline(cfg: Config, project: bytes)
    requires cfg.inlineTokens && (project == DEFAULT_PROJECT ==> cfg.apiKey == [])
    ensures var p := Start(NewPipe(project, [], true)); PipeIdentity(cfg, p) && p.project == project && p.inline
  {
  }

  lemma RegisterStoreKeeps(cfg: Config, s: State)
    requires TablesInv(cfg, s) && Enabled(cfg, s, RegisterStore)
    ensures TablesInv(cfg, Apply(cfg, s, RegisterStore))
  {
    hide KeysOk, KeyMap, Identities;
    ReloadFrame(cfg, s, Apply(cfg, s, RegisterStore));
    assert WantsOk(cfg, s.dispatching[s.inline.id]);
  }

  lemma ExpireKeeps(cfg: Config, s: State, st: Step)
    requires TablesInv(cfg, s) && Enabled(cfg, s, st)
    requires st.ExpireLoad? || st.ExpireStore? || st.ExpireQuit?
    ensures TablesInv(cfg, Apply(cfg, s, st))
  {
    hide KeysOk, KeyMap, GoodTable, Identities, InlinePipes, WantsOk;
    ReloadFrame(cfg, s, Apply(cfg, s, st));
    if st.ExpireStore? {
      WithoutGood(cfg, s.pipes, s.inline.prev, st.retired);
    }
  }

  lemma WithoutGood(cfg: Config, pipes: seq<Pipe>, t: Table, retired: set<PipeId>)
    requires GoodTable(cfg, pipes, t) && Identities(cfg, pipes) && InlinePipes(t, pipes, retired)
    ensures GoodTable(cfg, pipes, Without(t, retired))
  {
    var names := Without(t, retired).names;
    assert names.Keys <= t.names.Keys;
    SubsetSize(names.Keys, t.names.Keys);
    if cfg.apiKey != [] {
      assert PipeIdentity(cfg, pipes[t.names[DEFAULT_PROJECT]]);
      assert t.names[DEFAULT_PROJECT] !in retired;
    }
  }

  lemma SubsetSize<T>(a: set<T>, b: set<T>)
    requires a <= b
    ensures |a| <= |b|
  {
    assert |b - a| == |b| - |a|;
  }

  lemma ReloadKeeps(cfg: Config, s: State, st: Step)
    requires TablesInv(cfg, s) && IdsGiven(s) && Enabled(cfg, s, st) && (st.ReloadRead? || st.ReloadLoad?)
    ensures TablesInv(cfg, Apply(cfg, s, st))
  {
    hide KeysOk, KeyMap, GoodTable, Identities, WantsOk, HolderOk, BuiltOk;
    hide IdsGiven;
    HolderFrame(cfg, s, Apply(cfg, s, st));
  }

  lemma ReloadStoreKeeps(cfg: Config, s: State)
    requires TablesInv(cfg, s) && IdsGiven(s) && s.reload.TableBuilt?
    ensures TablesInv(cfg, ReloadStoreStep(s))
  {
    hide KeysOk, KeyMap, GoodTable, Identities, WantsOk, HolderOk, BuiltOk, IdsGiven, Dropped;
    HolderFrame(cfg, s, ReloadStoreStep(s));
  }

  lemma BuildKeeps(cfg: Config, s: State, order: seq<bytes>)
    requires TablesInv(cfg, s) && IdsGiven(s) && Enabled(cfg, s, ReloadBuild(order))
    ensures TablesInv(cfg, Apply(cfg, s, ReloadBuild(order)))
  {
    hide WantsOk, BuiltTable, BuiltPipes, Enumerates, FreshNames;
    var s' := Apply(cfg, s, ReloadBuild(order));
    var w := s.reload;
    StepGrows(cfg, s, ReloadBuild(order));
    GoodTableGrows(cfg, s.pipes, s'.pipes, s.table);
    GoodTableGrows(cfg, s.pipes, s'.pipes, w.prev);
    HolderFrame(cfg, s, s');
    BuiltGood(cfg, s.pipes, w.keys, w.prev, order);
  }

  lemma BuiltGood(cfg: Config, pipes: seq<Pipe>, keys: map<bytes, bytes>, prev: Table, order: seq<bytes>)
    requires KeysOk(cfg, keys) && cfg.keysFile && Identities(cfg, pipes) && OwnNames(prev, pipes)
    requires Enumerates(order, FreshNames(keys, prev, pipes))
    ensures forall n <- order :: n in keys
    ensures var next := BuiltTable(keys, prev, pipes, order); var grown := BuiltPipes(keys, pipes, order);
            && GoodTable(cfg, grown, next) && Identities(cfg, grown)
               && (forall n <- next.names :: !grown[next.names[n]].inline)
            && BuiltOk(grown, keys, prev, next)
  {
    hide BuiltNames, BuiltPipes, FreshNames, IndexOf;
    var next := BuiltTable(keys, prev, pipes, order);
    OrderInKeys(keys, prev, pipes, order);
    var grown := BuiltPipes(keys, pipes, order);
    ReloadTable(keys, prev, pipes, order);
    BuiltKeys(keys, prev, pipes, order);
    SameSize(next.names, keys);
    forall k | 0 <= k < |grown| ensures PipeIdentity(cfg, grown[k]) {
      BuiltPipeAt(keys, pipes, order, k);
    }
    assert BuiltOk(grown, keys, prev, next) by { BuiltIsOk(keys, prev, pipes, order); }
    forall n <- next.names ensures !grown[next.names[n]].inline {
      assert KeyMap(next, grown)[n] == keys[n];
      assert PipeIdentity(cfg, grown[next.names[n]]);
    }
  }

  lemma BuiltIsOk(keys: map<bytes, bytes>, prev: Table, pipes: seq<Pipe>, order: seq<bytes>)
    requires OwnNames(prev, pipes) && Enumerates(order, FreshNames(keys, prev, pipes))
    ensures forall n <- order :: n in keys
    ensures BuiltOk(BuiltPipes(keys, pipes, order), keys, prev, BuiltTable(keys, prev, pipes, order))
  {
    hide BuiltNames, BuiltPipes, FreshNames, IndexOf, BuiltTable;
    OrderInKeys(keys, prev, pipes, order);
    ReloadTable(keys, prev, pipes, order);
    var grown := BuiltPipes(keys, pipes, order);
    forall n <- prev.names ensures grown[prev.names[n]] == pipes[prev.names[n]] {
      assert grown[..|pipes|][prev.names[n]] == pipes[prev.names[n]];
    }
  }

  lemma SameSize<K, V, W>(a: map<K, V>, b: map<K, W>)
    requires a.Keys == b.Keys
    ensures |a| == |b|
  {
    assert |a| == |a.Keys| && |b| == |b.Keys|;
  }

  lemma TablesStep(cfg: Config, s: State, st: Step)
    requires TablesInv(cfg, s) && IdsGiven(s) && Enabled(cfg, s, st)
    ensures TablesInv(cfg, Apply(cfg, s, st)) && IdsGiven(Apply(cfg, s, st))
  {
    IdsStep(cfg, s, st);
    hide Apply, Enabled, TablesInv;
    match st
    case RegisterLock(_) => LockKeeps(cfg, s, st);
    case RegisterLoad => LockKeeps(cfg, s, st);
    case RegisterMake => MakeKeeps(cfg, s);
    case RegisterStore => RegisterStoreKeeps(cfg, s);
    case ExpireLoad => ExpireKeeps(cfg, s, st);
    case ExpireStore(_) => ExpireKeeps(cfg, s, st);
    case ExpireQuit => ExpireKeeps(cfg, s, st);
    case ReloadRead(_) => ReloadKeeps(cfg, s, st);
    case ReloadLoad => ReloadKeeps(cfg, s, st);
    case ReloadStore => ReloadStoreKeeps(cfg, s);
    case ReloadBuild(order) => BuildKeeps(cfg, s, order);
    case _ => TablesFrame(cfg, s, st);
  }

  predicate OnDispatch(st: Step) {
    st.RouteOne? || st.LookUp? || st.RegisterLock? || st.RegisterLoad? || st.RegisterStore? || st.Admit? || st.Enqueue?
  }

  lemma IdsDispatch(cfg: Config, s: State, st: Step)
    requires Enabled(cfg, s, st) && OnDispatch(st)
    ensures var s' := Apply(cfg, s, st); s'.received == s.received && s'.dispatching.Keys <= s.dispatching.Keys
  {
    hide KeyMap, Lookup, Add, AddStats, KeysOk, InRange, PipeEnabled;
  }

  predicate OnPipes(st: Step) {
    st.DemuxLookup? || st.DemuxSend? || st.OnPipe? || st.DrainBegin? || st.RegisterMake? || st.ReloadBuild?
  }

  lemma IdsMakes(cfg: Config, s: State, st: Step)
    requires Enabled(cfg, s, st) && (st.RegisterMake? || st.ReloadBuild?)
    ensures var s' := Apply(cfg, s, st); s'.received == s.received && s'.dispatching == s.dispatching
  {
    hide PipeEnabled, KeyMap, BuiltTable, BuiltPipes, FreshNames, Enumerates, KeysOk, InRange, NewPipe;
  }

  lemma IdsTouch(cfg: Config, s: State, st: Step)
    requires Enabled(cfg, s, st) && (st.OnPipe? || st.DrainBegin? || st.DemuxLookup?)
    ensures var s' := Apply(cfg, s, st); s'.received == s.received && s'.dispatching == s.dispatching
  {
    hide PipeEffect, PipeEnabled, KeyMap, Lookup, Add, AddStats, KeysOk, InRange, Bump, F.Bearer;
    if st.OnPipe? {
      assert Apply(cfg, s, st) == OnPipeStep(cfg, s, st.pipe, st.st);
    }
  }

  lemma IdsPipes(cfg: Config, s: State, st: Step)
    requires Enabled(cfg, s, st) && OnPipes(st)
    ensures var s' := Apply(cfg, s, st); s'.received == s.received && s'.dispatching == s.dispatching
  {
    hide Apply, Enabled;
    if st.DemuxSend? {
      IdsSend(cfg, s);
    } else if st.RegisterMake? || st.ReloadBuild? {
      IdsMakes(cfg, s, st);
    } else {
      IdsTouch(cfg, s, st);
    }
  }

  lemma IdsSend(cfg: Config, s: State)
    requires Enabled(cfg, s, DemuxSend)
    ensures var s' := Apply(cfg, s, DemuxSend); s'.received == s.received && s'.dispatching == s.dispatching
  {
    hide PipeEnabled, KeyMap, Add, AddStats, KeysOk, InRange;
  }

  lemma IdsWriters(cfg: Config, s: State, st: Step)
    requires Enabled(cfg, s, st) && (st.ReloadRead? || st.ReloadLoad? || st.ReloadStore? || st.ExpireStore?)
    ensures var s' := Apply(cfg, s, st); s'.received == s.received && s'.dispatching == s.dispatching
  {
    hide PipeEnabled, KeyMap, KeysOk, InRange, InlinePipes, Without, Dropped;
  }

  lemma IdsElsewhere(cfg: Config, s: State, st: Step)
    requires Enabled(cfg, s, st)
    requires st.DemuxTake? || st.DemuxExit? || st.ExpireLoad? || st.ExpireQuit? || st.CloseShared? || st.ShutdownLoad?
             || st.ShutdownDone?
    ensures var s' := Apply(cfg, s, st); s'.received == s.received && s'.dispatching == s.dispatching
  {
    hide PipeEnabled, KeyMap, KeysOk, InRange, AllDrained;
  }

  lemma SameDispatching(cfg: Config, s: State, st: Step)
    requires Enabled(cfg, s, st) && !OnDispatch(st) && !st.Deliver?
    ensures var s' := Apply(cfg, s, st); s'.received == s.received && s'.dispatching == s.dispatching
  {
    hide Apply, Enabled;
    if OnPipes(st) {
      IdsPipes(cfg, s, st);
    } else if st.ReloadRead? || st.ReloadLoad? || st.ReloadStore? || st.ExpireStore? {
      IdsWriters(cfg, s, st);
    } else {
      IdsElsewhere(cfg, s, st);
    }
  }

  lemma IdsStep(cfg: Config, s: State, st: Step)
    requires IdsGiven(s) && Enabled(cfg, s, st)
    ensures IdsGiven(Apply(cfg, s, st))
  {
    hide KeyMap, KeysOk, InRange, PipeEnabled;
    if OnDispatch(st) {
      hide Apply, Enabled;
      IdsDispatch(cfg, s, st);
    } else if !st.Deliver? {
      hide Apply, Enabled;
      SameDispatching(cfg, s, st);
    }
  }

  lemma TablesInit(cfg: Config, s: State)
    requires Init(cfg, s)
    ensures TablesInv(cfg, s) && IdsGiven(s)
  {
    hide BuiltTable, BuiltPipes, FreshNames;
    var keys, order :| KeysOk(cfg, keys) && (!cfg.keysFile ==> forall n <- keys :: n == DEFAULT_PROJECT)
      && Enumerates(order, FreshNames(keys, EMPTY_TABLE, [])) && s == Installed(keys, order);
    InstalledGood(cfg, keys, order);
  }

  lemma InstalledGood(cfg: Config, keys: map<bytes, bytes>, order: seq<bytes>)
    requires KeysOk(cfg, keys) && (!cfg.keysFile ==> forall n <- keys :: n == DEFAULT_PROJECT)
    requires Enumerates(order, FreshNames(keys, EMPTY_TABLE, []))
    ensures var s := Installed(keys, order); GoodTable(cfg, s.pipes, s.table) && Identities(cfg, s.pipes)
  {
    hide BuiltNames, BuiltPipes, FreshNames, IndexOf;
    OrderInKeys(keys, EMPTY_TABLE, [], order);
    var s := Installed(keys, order);
    ReloadTable(keys, EMPTY_TABLE, [], order);
    BuiltKeys(keys, EMPTY_TABLE, [], order);
    SameSize(s.table.names, keys);
    forall k | 0 <= k < |s.pipes| ensures PipeIdentity(cfg, s.pipes[k]) {
      BuiltPipeAt(keys, [], order, k);
    }
  }

  // ---------------------------------------------------------------- the theorem

  /** What the published table promises its readers. */
  predicate Published(cfg: Config, s: State) {
    && (forall n <- s.table.names ::
          var id := s.table.names[n];
          && id < |s.pipes| && s.pipes[id].project == n && s.pipes[id].starts == 1
          && (s.pipes[id].inline <==> s.pipes[id].key == []))
    && (s.table.hasDefault <==> cfg.apiKey != [])
    && (s.table.hasDefault ==> DEFAULT_PROJECT in s.table.names && !s.pipes[s.table.names[DEFAULT_PROJECT]].inline)
    && (cfg.maxProjects > 0 ==> |s.table.names| <= cfg.maxProjects)
  }

  /** In every reachable state, however loads and stores interleave: every published pipeline was
      started exactly once, sits under its own project name and is inline exactly when it has no key;
      the default flag is set exactly when a default key is configured and then leads to a keyed
      pipeline; and the table never exceeds the project cap. */
  lemma {:induction false} TablesAlways(cfg: Config, states: seq<State>, steps: seq<Step>, k: nat)
    requires Run(cfg, states, steps) && k < |states|
    ensures TablesInv(cfg, states[k]) && IdsGiven(states[k]) && Published(cfg, states[k])
    decreases k
  {
    hide Run, Init, Apply, Enabled, TablesInv, IdsGiven, Published;
    RunStart(cfg, states, steps);
    if k == 0 {
      TablesInit(cfg, states[0]);
    } else {
      TablesAlways(cfg, states, steps, k - 1);
      RunStep(cfg, states, steps, k - 1);
      TablesStep(cfg, states[k - 1], steps[k - 1]);
    }
    PublishedOf(cfg, states[k]);
  }

  lemma PublishedOf(cfg: Config, s: State)
    requires TablesInv(cfg, s)
    ensures Published(cfg, s)
  {
    assert forall n <- s.table.names :: PipeIdentity(cfg, s.pipes[s.table.names[n]]);
  }

  predicate NoInline(pipes: seq<Pipe>) { forall k :: 0 <= k < |pipes| ==> !pipes[k].inline }

  /** A good table with room for one more project leaves room beside the configured one. */
  lemma RoomBeside(cfg: Config, pipes: seq<Pipe>, t: Table)
    requires GoodTable(cfg, pipes, t) && HasRoom(cfg, t)
    ensures Room(cfg, 1)
  {
    if cfg.apiKey != [] {
      assert |t.names| == |t.names.Keys| && DEFAULT_PROJECT in t.names.Keys;
      SubsetSize({DEFAULT_PROJECT}, t.names.Keys);
    }
  }

  lemma NoInlineStep(cfg: Config, s: State, st: Step)
    requires TablesInv(cfg, s) && NoInline(s.pipes) && Enabled(cfg, s, st) && !(cfg.inlineTokens && Room(cfg, 1))
    ensures NoInline(Apply(cfg, s, st).pipes)
  {
    hide Apply, GoodTable, Identities, WantsOk, ReloadOk;
    StepGrows(cfg, s, st);
    if st.RegisterMake? {
      RoomBeside(cfg, s.pipes, s.inline.prev);
      assert WantsOk(cfg, s.dispatching[s.inline.id]);
      WantsInlineTokens(cfg, s.dispatching[s.inline.id]);
      assert false;
    } else if st.ReloadBuild? {
      BuildsKeyed(cfg, s, st.order);
    } else {
      hide Enabled;
      SameInline(s.pipes, Apply(cfg, s, st).pipes);
    }
  }

  lemma WantsInlineTokens(cfg: Config, d: Dispatch)
    requires WantsOk(cfg, d) && d.phase.WantsInline?
    ensures cfg.inlineTokens
  {
  }

  lemma SameInline(pipes: seq<Pipe>, pipes': seq<Pipe>)
    requires Grows(pipes, pipes') && |pipes'| == |pipes| && NoInline(pipes)
    ensures NoInline(pipes')
  {
    assert forall k :: 0 <= k < |pipes| ==> SameIdentity(pipes[k], pipes'[k]);
  }

  lemma BuildsKeyed(cfg: Config, s: State, order: seq<bytes>)
    requires NoInline(s.pipes) && Enabled(cfg, s, ReloadBuild(order))
    ensures NoInline(Apply(cfg, s, ReloadBuild(order)).pipes)
  {
    hide BuiltTable, BuiltPipes, FreshNames, Enumerates;
    OrderInKeys(s.reload.keys, s.reload.prev, s.pipes, order);
    var grown := BuiltPipes(s.reload.keys, s.pipes, order);
    forall k | 0 <= k < |grown| ensures !grown[k].inline {
      BuiltPipeAt(s.reload.keys, s.pipes, order, k);
    }
  }

  /** Where tokens register nothing, or the configured project fills the table, no pipeline is ever inline. */
  lemma {:induction false} NoInlineAlways(cfg: Config, states: seq<State>, steps: seq<Step>, k: nat)
    requires Run(cfg, states, steps) && k < |states| && !(cfg.inlineTokens && Room(cfg, 1))
    ensures NoInline(states[k].pipes)
    decreases k
  {
    hide Run, Init, Apply, Enabled, TablesInv, IdsGiven, Published, NoInline;
    RunStart(cfg, states, steps);
    if k == 0 {
      InstalledKeyed(cfg, states[0]);
    } else {
      NoInlineAlways(cfg, states, steps, k - 1);
      TablesAlways(cfg, states, steps, k - 1);
      RunStep(cfg, states, steps, k - 1);
      NoInlineStep(cfg, states[k - 1], steps[k - 1]);
    }
  }

  lemma InstalledKeyed(cfg: Config, s: State)
    requires Init(cfg, s)
    ensures NoInline(s.pipes)
  {
    hide BuiltTable, BuiltPipes, FreshNames;
    var keys, order :| KeysOk(cfg, keys) && (!cfg.keysFile ==> forall n <- keys :: n == DEFAULT_PROJECT)
      && Enumerates(order, FreshNames(keys, EMPTY_TABLE, [])) && s == Installed(keys, order);
    OrderInKeys(keys, EMPTY_TABLE, [], order);
    forall k | 0 <= k < |s.pipes| ensures !s.pipes[k].inline {
      BuiltPipeAt(keys, [], order, k);
    }
  }

  /** The built table is published as it is, and exactly the pipelines of the table it was built from
      whose name is gone or whose key changed get a drain. */
  predicate Swapped(s: State, s': State) {
    && s.reload.TableBuilt? && s'.table == s.reload.next && s'.pipes == s.pipes
    && BuiltOk(s.pipes, s.reload.keys, s.reload.prev, s.reload.next)
    && s'.due == s.due + multiset(Dropped(s.reload.prev, s.reload.next))
    && forall n <- s.reload.prev.names ::
         s.reload.prev.names[n] in Dropped(s.reload.prev, s.reload.next) <==>
         !(n in s.reload.keys && Reusable(s.reload.prev, s.pipes, n, s.reload.keys[n]))
  }

  /** Reload exactness over whole runs, however the steps of the other writers interleave. */
  lemma ReloadExact(cfg: Config, states: seq<State>, steps: seq<Step>, k: nat)
    requires Run(cfg, states, steps) && k < |steps| && steps[k] == ReloadStore
    ensures Swapped(states[k], states[k + 1])
  {
    hide Run, TablesInv, BuiltOk;
    RunStep(cfg, states, steps, k);
    TablesAlways(cfg, states, steps, k);
    BuiltReload(cfg, states[k]);
    DroppedExactly(cfg, states[k]);
  }

  lemma BuiltReload(cfg: Config, s: State)
    requires TablesInv(cfg, s)
    ensures ReloadOk(cfg, s)
  {
  }

  lemma DroppedExactly(cfg: Config, s: State)
    requires ReloadOk(cfg, s) && s.reload.TableBuilt?
    ensures BuiltOk(s.pipes, s.reload.keys, s.reload.prev, s.reload.next)
    ensures forall n <- s.reload.prev.names ::
              s.reload.prev.names[n] in Dropped(s.reload.prev, s.reload.next) <==>
              !(n in s.reload.keys && Reusable(s.reload.prev, s.pipes, n, s.reload.keys[n]))
  {
    var w := s.reload;
    assert KeyMap(w.next, s.pipes).Keys == w.next.names.Keys;
    forall n <- w.prev.names
      ensures w.prev.names[n] in w.next.names.Values <==> n in w.keys && Reusable(w.prev, s.pipes, n, w.keys[n])
    {
      forall m <- w.next.names | w.next.names[m] == w.prev.names[n] ensures m == n {
        assert s.pipes[w.next.names[m]].project == m;
      }
    }
  }
}
