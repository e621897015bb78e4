/** The life of a pipeline when table writers take effect one at a time: made, published, retired, and
    drained exactly once. */
module Lifecycle {
  import opened Bytes
  import opened Registry
  import opened Protocol
  import opened TableLaws
  import opened FlowLaws
  import opened Provenance

  function OneIf(b: bool): nat { if b then 1 else 0 }

  /** The table may still change. */
  predicate Open(s: State) { s.shut == Running || s.shut == QueueClosed }

  /** Table writers take effect one at a time: no other store came between this one and its load, and
      none runs after shutdown has loaded the table. */
  predicate Serial(s: State, st: Step) {
    match st
    case ReloadStore => s.reload.TableBuilt? && s.reload.seen == s.version && Open(s)
    case RegisterStore => s.inline.PipeMade? && s.inline.seen == s.version && Open(s)
    case ExpireStore(_) => s.inline.Expiring? && s.inline.seen == s.version && Open(s)
    case _ => true
  }

  ghost predicate SerialRun(cfg: Config, states: seq<State>, steps: seq<Step>) {
    Run(cfg, states, steps) && forall k :: 0 <= k < |steps| ==> Serial(states[k], steps[k])
  }

  /** What the agent's main routine orders by itself: it waits for the reloads before it shuts down. */
  ghost predicate OrderedRun(cfg: Config, states: seq<State>, steps: seq<Step>) {
    Run(cfg, states, steps) && forall k :: 0 <= k < |steps| && steps[k].ReloadStore? ==> Open(states[k])
  }

  // ---------------------------------------------------------------- who is where in life

  function Live(s: State): set<PipeId> { s.table.names.Values }

  function MadeOne(w: Inline): set<PipeId> { if w.PipeMade? then {w.pipe} else {} }

  function BuiltOnes(w: Reload): set<PipeId> {
    if w.TableBuilt? then set id | id in w.next.names.Values && id >= w.base else {}
  }

  /** Made by a writer that has not stored its table yet. */
  function Unborn(s: State): set<PipeId> { MadeOne(s.inline) + BuiltOnes(s.reload) }

  /** An unborn pipeline is as it was started; a live one has no drain coming while the table is open;
      any other has exactly one drain, begun or still to begin. */
  predicate Standing(live: bool, unborn: bool, open: bool, due: nat, p: Pipe) {
    if unborn then !live && due == 0 && Untouched(p)
    else if live && open then due == 0 && !p.rawClosed
    else due + OneIf(p.rawClosed) == 1
  }

  predicate StandingAt(s: State, id: PipeId)
    requires id < |s.pipes|
  {
    Standing(id in Live(s), id in Unborn(s), Open(s), s.due[id], s.pipes[id])
  }

  ghost predicate Births(s: State) {
    && MadeOne(s.inline) !! BuiltOnes(s.reload)
    && (forall id <- Unborn(s) :: id < |s.pipes|)
    && (forall id: PipeId :: s.due[id] > 0 ==> id < |s.pipes|)
    && (forall id :: 0 <= id < |s.pipes| ==> StandingAt(s, id))
  }

  /** The datagram under registration names a project that the table does not have. */
  predicate Missed(s: State, id: nat) { id in s.dispatching && s.dispatching[id].dg.project !in s.table.names }

  /** A writer whose load is still current works on the current table. */
  predicate Current(s: State, prev: Table, seen: nat) { seen <= s.version && (seen == s.version ==> prev == s.table) }

  predicate InlineCurrent(s: State) {
    match s.inline
    case Free => true
    case LookupMissed(id, seen) => seen <= s.version && (seen == s.version ==> Missed(s, id))
    case RoomChecked(id, prev, seen) => Current(s, prev, seen) && (seen == s.version ==> Missed(s, id))
    case PipeMade(id, prev, _, seen) => Current(s, prev, seen) && (seen == s.version ==> Missed(s, id))
    case Expiring(prev, seen) => Current(s, prev, seen)
  }

  predicate ReloadCurrent(s: State) {
    match s.reload
    case TableLoaded(_, prev, seen) => Current(s, prev, seen)
    case TableBuilt(_, prev, next, base, seen) =>
      Current(s, prev, seen) && forall id <- next.names.Values :: id < base ==> id in prev.names.Values
    case _ => true
  }

  function TargetOf(ph: Phase): Option<PipeId> {
    match ph
    case Found(p) => Some(p)
    case Admitted(p) => Some(p)
    case _ => None
  }

  predicate Reachable(s: State, pipe: PipeId) { pipe < |s.pipes| && pipe !in Unborn(s) }

  /** Nobody is about to be handed a pipeline that is not published yet. */
  predicate Targets(s: State) {
    && (forall id <- s.dispatching :: TargetOf(s.dispatching[id].phase).Some? ==>
       Reachable(s, TargetOf(s.dispatching[id].phase).value))
    && (s.demux.Holding? ==> Reachable(s, s.demux.pipe))
  }

  /** The order of shutdown. */
  predicate Phases(s: State) {
    && ClosedInOrder(s)
    && (s.shut == Finished ==> s.due == multiset{} && AllDrained(s.pipes))
  }

  ghost predicate LifeInv(s: State) {
    Births(s) && InlineCurrent(s) && ReloadCurrent(s) && Targets(s) && Phases(s) && !s.panicked
  }

  /** Nothing becomes live that was not unborn, and nothing becomes unborn that existed. */
  predicate Matures(s: State, s': State) {
    && |s.pipes| <= |s'.pipes| && Live(s') <= Live(s) + Unborn(s)
    && forall id <- Unborn(s') :: id in Unborn(s) || id >= |s.pipes|
  }

  // ---------------------------------------------------------------- births

  /** Neither the table, nor who is unborn, nor the drains change, and no unborn pipeline is touched. */
  lemma BirthsFrame(s: State, s': State)
    requires Births(s) && s'.table == s.table && MadeOne(s'.inline) == MadeOne(s.inline)
             && BuiltOnes(s'.reload) == BuiltOnes(s.reload)
    requires s'.due == s.due && Open(s') == Open(s) && |s'.pipes| == |s.pipes|
    requires forall id :: 0 <= id < |s.pipes| ==>
               s'.pipes[id].rawClosed == s.pipes[id].rawClosed && (id in Unborn(s) ==> s'.pipes[id] == s.pipes[id])
    ensures Births(s') && Matures(s, s')
  {
    hide Untouched, Open;
    assert Live(s') == Live(s) && Unborn(s') == Unborn(s);
    forall id | 0 <= id < |s'.pipes| ensures StandingAt(s', id) {
      assert StandingAt(s, id);
    }
  }

  lemma BirthsTouch(s: State, s': State, id: PipeId)
    requires Births(s) && s'.table == s.table && s'.inline == s.inline && s'.reload == s.reload
    requires s'.due == s.due && s'.shut == s.shut && id < |s.pipes| && id !in Unborn(s) && |s'.pipes| == |s.pipes|
    requires s'.pipes == s.pipes || (s'.pipes == s.pipes[id := s'.pipes[id]]
             && s'.pipes[id].rawClosed == s.pipes[id].rawClosed)
    ensures Births(s') && Matures(s, s')
  {
    hide Births, Unborn;
    BirthsFrame(s, s');
  }

  lemma UntouchedIdle(cfg: Config, p: Pipe, pst: PipeStep)
    requires PipeEnabled(cfg, p, pst)
    ensures !Untouched(p)
  {
  }

  /** No step of its own goroutines opens or closes a pipeline's queue. */
  lemma EffectClosed(cfg: Config, p: Pipe, pst: PipeStep)
    requires PipeEnabled(cfg, p, pst)
    ensures PipeEffect(cfg, p, pst).pipe.rawClosed == p.rawClosed
  {
    hide AcceptStep, AttemptStep, Finish, ItemIds, NO_STATS, ZERO_TALLY;
    match pst
    case Accept(stamp) => AcceptShape(cfg, p, stamp);
    case Attempt(_) => SendEffect(cfg, p, pst);
    case CutWait => SendEffect(cfg, p, pst);
    case _ =>
  }

  lemma BirthsOnPipe(cfg: Config, s: State, pipe: PipeId, pst: PipeStep)
    requires Births(s) && Enabled(cfg, s, OnPipe(pipe, pst))
    ensures var s' := Apply(cfg, s, OnPipe(pipe, pst)); Births(s') && Matures(s, s')
  {
    hide Unborn, PipeEffect, PipeEnabled, Add, AddStats, Untouched, Live;
    EffectClosed(cfg, s.pipes[pipe], pst);
    UntouchedIdle(cfg, s.pipes[pipe], pst);
    assert StandingAt(s, pipe);
    hide Births;
    BirthsTouch(s, Apply(cfg, s, OnPipe(pipe, pst)), pipe);
  }

  lemma BirthsHandled(cfg: Config, s: State, st: Step)
    requires Births(s) && Targets(s) && Enabled(cfg, s, st) && (st.Admit? || st.Enqueue? || st.DemuxSend?)
    ensures var s' := Apply(cfg, s, st); Births(s') && Matures(s, s')
  {
    hide Unborn, Births, Add, AddStats, KeyMap, KeysOk, PipeEnabled, Lookup, InRange;
    var id := if st.DemuxSend? then s.demux.pipe else s.dispatching[st.id].phase.pipe;
    assert Reachable(s, id);
    BirthsTouch(s, Apply(cfg, s, st), id);
  }

  /** Beginning a drain uses up the one drain the pipeline had coming. */
  lemma BirthsDrain(s: State, pipe: PipeId)
    requires Births(s) && pipe < |s.pipes| && s.due[pipe] > 0
    ensures var s' := DrainBeginStep(s, pipe); Births(s') && Matures(s, s') && !s'.panicked
  {
    hide Untouched;
    var s' := DrainBeginStep(s, pipe);
    assert StandingAt(s, pipe);
    forall id | 0 <= id < |s'.pipes| ensures StandingAt(s', id) {
      assert StandingAt(s, id);
    }
  }

  /** Pipelines made by a writer are unborn. */
  lemma BirthsMore(s: State, s': State, more: seq<Pipe>)
    requires Births(s) && s'.table == s.table && s'.due == s.due && Open(s') == Open(s) && s'.pipes == s.pipes + more
    requires forall k :: 0 <= k < |more| ==> Untouched(more[k])
    requires MadeOne(s'.inline) !! BuiltOnes(s'.reload) && OwnNames(s.table, s.pipes)
    requires forall id :: id in Unborn(s') <==> id in Unborn(s) || |s.pipes| <= id < |s.pipes| + |more|
    ensures Births(s') && Matures(s, s')
  {
    hide Untouched, Open;
    forall id | 0 <= id < |s'.pipes| ensures StandingAt(s', id) {
      if id < |s.pipes| {
        assert StandingAt(s, id);
      }
    }
  }

  lemma BirthsRegisterMake(cfg: Config, s: State)
    requires Births(s) && OwnNames(s.table, s.pipes) && Enabled(cfg, s, RegisterMake)
    ensures var s' := Apply(cfg, s, RegisterMake); Births(s') && Matures(s, s')
  {
    var s' := Apply(cfg, s, RegisterMake);
    assert MadeOne(s'.inline) == {|s.pipes|} && MadeOne(s.inline) == {} && BuiltOnes(s'.reload) == BuiltOnes(s.reload);
    UnbornBelow(s);
    assert Unborn(s') == Unborn(s) + {|s.pipes|};
    var more := s'.pipes[|s.pipes|..];
    assert |more| == 1 && s'.pipes == s.pipes + more && Untouched(more[0]);
    hide Unborn, MadeOne, BuiltOnes, NewPipe, Untouched;
    BirthsMore(s, s', more);
  }

  lemma BuiltOnesExact(keys: map<bytes, bytes>, prev: Table, pipes: seq<Pipe>, order: seq<bytes>)
    requires OwnNames(prev, pipes) && Enumerates(order, FreshNames(keys, prev, pipes))
    ensures var next := BuiltTable(keys, prev, pipes, order);
            && (forall id: PipeId :: id in next.names.Values && id >= |pipes| <==> |pipes| <= id < |pipes| + |order|)
            && (forall id <- next.names.Values :: id < |pipes| ==> id in prev.names.Values)
  {
    hide BuiltTable, BuiltPipes, FreshNames, IndexOf, Distinct;
    var next := BuiltTable(keys, prev, pipes, order);
    OrderInKeys(keys, prev, pipes, order);
    BuiltKeys(keys, prev, pipes, order);
    forall id | |pipes| <= id < |pipes| + |order| ensures id in next.names.Values {
      ReloadStarts(keys, prev, pipes, order, id);
    }
    forall n <- next.names
      ensures next.names[n] < |pipes| + |order| && (next.names[n] < |pipes| ==> next.names[n] in prev.names.Values)
    {
      BuiltEntry(keys, prev, pipes, order, n);
    }
  }

  lemma BuiltUntouched(keys: map<bytes, bytes>, pipes: seq<Pipe>, order: seq<bytes>)
    requires forall n <- order :: n in keys
    ensures var more := BuiltPipes(keys, pipes, order)[|pipes|..];
            |more| == |order| && BuiltPipes(keys, pipes, order) == pipes + more && forall k :: 0 <= k < |more| ==>
              Untouched(more[k])
  {
    hide BuiltPipes, Untouched;
    forall k | |pipes| <= k < |pipes| + |order| ensures Untouched(BuiltPipes(keys, pipes, order)[k]) {
      BuiltPipeAt(keys, pipes, order, k);
    }
  }

  lemma BirthsBuild(cfg: Config, s: State, order: seq<bytes>)
    requires Births(s) && OwnNames(s.table, s.pipes) && Enabled(cfg, s, ReloadBuild(order))
             && OwnNames(s.reload.prev, s.pipes)
    ensures var s' := Apply(cfg, s, ReloadBuild(order)); Births(s') && Matures(s, s')
  {
    hide Births, BuiltTable, BuiltPipes, FreshNames, Enumerates, Untouched;
    var s' := Apply(cfg, s, ReloadBuild(order));
    var w := s.reload;
    OrderInKeys(w.keys, w.prev, s.pipes, order);
    BuiltUntouched(w.keys, s.pipes, order);
    BuiltOnesExact(w.keys, w.prev, s.pipes, order);
    UnbornBelow(s);
    assert forall id <- MadeOne(s.inline) :: id in Unborn(s);
    hide OwnNames, Matures, Distinct;
    BirthsMore(s, s', s'.pipes[|s.pipes|..]);
  }

  lemma UnbornBelow(s: State)
    requires Births(s)
    ensures forall id <- Unborn(s) :: id < |s.pipes|
  {
  }

  // ---------------------------------------------------------------- stores

  lemma LiveBelow(s: State)
    requires OwnNames(s.table, s.pipes)
    ensures forall id <- Live(s) :: id < |s.pipes|
  {
  }

  /** A store that is current turns its writer's unborn pipelines live and sends those it leaves behind
      to their drain. */
  lemma BirthsStore(s: State, s': State, gone: set<PipeId>, come: set<PipeId>)
    requires Births(s) && Open(s) && Open(s') && s'.pipes == s.pipes && s'.due == s.due + multiset(gone)
    requires forall id <- Live(s) :: id < |s.pipes|
    requires gone <= Live(s) && come <= Unborn(s) && Live(s') == (Live(s) - gone) + come
             && Unborn(s') == Unborn(s) - come
    requires MadeOne(s'.inline) !! BuiltOnes(s'.reload)
    ensures Births(s') && Matures(s, s')
  {
    hide Unborn, Live, Open, MadeOne, BuiltOnes, Untouched;
    forall id: PipeId | s'.due[id] > 0 ensures id < |s'.pipes| {
      assert s'.due[id] == s.due[id] + OneIf(id in gone);
    }
    forall id | 0 <= id < |s'.pipes| ensures StandingAt(s', id) {
      assert StandingAt(s, id);
      assert s'.due[id] == s.due[id] + OneIf(id in gone);
      if id in come {
        UntouchedOpen(s.pipes[id]);
      }
    }
  }

  lemma UntouchedOpen(p: Pipe)
    ensures Untouched(p) ==> !p.rawClosed
  {
  }

  lemma BirthsReloadStore(s: State)
    requires Births(s) && ReloadCurrent(s) && OwnNames(s.table, s.pipes) && Serial(s, ReloadStore)
    ensures var s' := ReloadStoreStep(s); Births(s') && Matures(s, s')
  {
    hide OwnNames;
    LiveBelow(s);
    var w := s.reload;
    var gone, come := Dropped(w.prev, w.next), BuiltOnes(w);
    var s' := ReloadStoreStep(s);
    assert MadeOne(s.inline) !! BuiltOnes(s.reload);
    hide Births;
    assert Live(s') == (Live(s) - gone) + come;
    BirthsStore(s, s', gone, come);
  }

  lemma AddedValues(names: map<bytes, PipeId>, n: bytes, id: PipeId)
    requires n !in names
    ensures names[n := id].Values == names.Values + {id}
  {
    assert forall m <- names :: names[n := id][m] == names[m];
    assert names[n := id][n] == id;
  }

  /** The registered project was missing, so its pipeline is one more value. */
  lemma RegisteredLive(s: State)
    requires InlineCurrent(s) && Serial(s, RegisterStore) && s.inline.id in s.dispatching
    ensures Live(RegisterStoreStep(s)) == Live(s) + {s.inline.pipe}
  {
    AddedValues(s.table.names, s.dispatching[s.inline.id].dg.project, s.inline.pipe);
  }

  lemma BirthsRegisterStore(s: State)
    requires Births(s) && InlineCurrent(s) && OwnNames(s.table, s.pipes) && Serial(s, RegisterStore)
    requires s.inline.id in s.dispatching
    ensures var s' := RegisterStoreStep(s); Births(s') && Matures(s, s')
  {
    LiveBelow(s);
    RegisteredLive(s);
    assert MadeOne(s.inline) !! BuiltOnes(s.reload);
    hide OwnNames, Births, Live, BuiltOnes, InlineCurrent;
    var s' := RegisterStoreStep(s);
    assert s'.due == s.due + multiset({});
    BirthsStore(s, s', {}, {s.inline.pipe});
  }

  lemma WithoutValues(t: Table, retired: set<PipeId>)
    ensures Without(t, retired).names.Values == t.names.Values - retired
            && Without(t, retired).hasDefault == t.hasDefault
  {
    forall id <- t.names.Values - retired ensures id in Without(t, retired).names.Values {
      var n :| n in t.names && t.names[n] == id;
      assert Without(t, retired).names[n] == id;
    }
  }

  lemma BirthsExpireStore(cfg: Config, s: State, retired: set<PipeId>)
    requires Births(s) && InlineCurrent(s) && OwnNames(s.table, s.pipes)
    requires Enabled(cfg, s, ExpireStore(retired)) && Serial(s, ExpireStore(retired))
    ensures var s' := ExpireStoreStep(s, retired); Births(s') && Matures(s, s')
  {
    hide OwnNames, Births, Without;
    LiveBelow(s);
    WithoutValues(s.table, retired);
    BirthsStore(s, ExpireStoreStep(s, retired), retired, {});
  }

  lemma StandingShut(live: bool, unborn: bool, due: nat, p: Pipe)
    requires Standing(live, unborn, true, due, p)
    ensures Standing(live, unborn, false, due + OneIf(live), p)
  {
    hide Untouched;
  }

  lemma DueAfter(due: multiset<PipeId>, more: set<PipeId>, id: PipeId)
    ensures (due + multiset(more))[id] == due[id] + OneIf(id in more)
  {
  }

  lemma BirthsShut(s: State, s': State)
    requires Births(s) && Open(s) && !Open(s') && s'.pipes == s.pipes && s'.due == s.due + multiset(Live(s))
    requires s'.table == s.table && s'.inline == s.inline && s'.reload == s.reload
             && forall id <- Live(s) :: id < |s.pipes|
    ensures Births(s')
  {
    assert Live(s') == Live(s) && Unborn(s') == Unborn(s);
    hide Standing, MadeOne, BuiltOnes, Unborn, Live, Open;
    forall id: PipeId | s'.due[id] > 0 ensures id < |s'.pipes| {
      DueAfter(s.due, Live(s), id);
    }
    forall id | 0 <= id < |s'.pipes| ensures StandingAt(s', id) {
      assert StandingAt(s, id);
      DueAfter(s.due, Live(s), id);
      StandingShut(id in Live(s), id in Unborn(s), s.due[id], s.pipes[id]);
    }
  }

  /** Shutdown drains exactly what is live. */
  lemma BirthsShutdown(cfg: Config, s: State)
    requires Births(s) && OwnNames(s.table, s.pipes) && Enabled(cfg, s, ShutdownLoad)
    ensures var s' := Apply(cfg, s, ShutdownLoad); Births(s') && Matures(s, s')
  {
    LiveBelow(s);
    hide OwnNames, Births, MadeOne, BuiltOnes;
    BirthsShut(s, Apply(cfg, s, ShutdownLoad));
  }

  // ---------------------------------------------------------------- currency

  lemma InlineFrame(cfg: Config, s: State, st: Step)
    requires TablesInv(cfg, s) && IdsGiven(s) && InlineCurrent(s) && Enabled(cfg, s, st) && !IsTableStep(st)
    ensures InlineCurrent(Apply(cfg, s, st)) && (ReloadCurrent(s) ==> ReloadCurrent(Apply(cfg, s, st)))
  {
    FrameWriters(cfg, s, st);
    FrameDispatch(cfg, s, st);
    hide Apply, Enabled, GoodTable, Identities, ReloadOk, WantsOk;
  }

  lemma MissIsMissed(cfg: Config, s: State, id: nat)
    requires id in s.dispatching && s.dispatching[id].dg.project != []
    requires Lookup(s.table, cfg.requireProject, s.dispatching[id].dg.project) == None
    ensures Missed(s, id)
  {
  }

  lemma LockMoves(cfg: Config, s: State, id: nat)
    requires InlineCurrent(s) && id in s.dispatching && WantsOk(cfg, s.dispatching[id])
             && Enabled(cfg, s, RegisterLock(id))
    ensures InlineCurrent(Apply(cfg, s, RegisterLock(id)))
  {
    hide Lookup, KeyMap, KeysOk, PipeEnabled;
    if Lookup(s.table, cfg.requireProject, s.dispatching[id].dg.project) == None {
      MissIsMissed(cfg, s, id);
    }
  }

  lemma LoadMoves(cfg: Config, s: State)
    requires InlineCurrent(s) && Enabled(cfg, s, RegisterLoad)
    ensures InlineCurrent(Apply(cfg, s, RegisterLoad))
  {
    hide Drop, KeyMap, KeysOk, PipeEnabled;
  }

  lemma ReloadsMoveInline(cfg: Config, s: State, st: Step)
    requires InlineCurrent(s) && Enabled(cfg, s, st)
             && (st.ReloadRead? || st.ReloadLoad? || st.ReloadBuild? || st.ReloadStore?)
    ensures InlineCurrent(Apply(cfg, s, st))
  {
    hide KeyMap, BuiltTable, BuiltPipes, Dropped, KeysOk, FreshNames, PipeEnabled, Enumerates, InRange;
  }

  lemma InlineMoves(cfg: Config, s: State, st: Step)
    requires HolderOk(cfg, s) && InlineCurrent(s) && Enabled(cfg, s, st) && IsTableStep(st)
    requires forall id <- s.dispatching :: WantsOk(cfg, s.dispatching[id])
    ensures InlineCurrent(Apply(cfg, s, st))
  {
    hide KeyMap, GoodTable, HasRoom, BuiltTable, BuiltPipes, Lookup, Without, Dropped, KeysOk, InlinePipes, Add,
      FreshNames, PipeEnabled, Enumerates, InRange, NewPipe;
    if st.RegisterLock? {
      hide Apply, InlineCurrent;
      LockMoves(cfg, s, st.id);
    } else if st.RegisterLoad? {
      hide Apply, Enabled, InlineCurrent;
      LoadMoves(cfg, s);
    } else if st.ReloadRead? || st.ReloadLoad? || st.ReloadBuild? || st.ReloadStore? {
      hide Apply, Enabled, InlineCurrent;
      ReloadsMoveInline(cfg, s, st);
    }
  }

  lemma ReloadMoves(cfg: Config, s: State, st: Step)
    requires ReloadCurrent(s) && ReloadOk(cfg, s) && Enabled(cfg, s, st) && IsTableStep(st) && !st.ReloadBuild?
    ensures ReloadCurrent(Apply(cfg, s, st))
  {
    hide KeyMap, GoodTable, HasRoom, BuiltTable, BuiltPipes, Lookup, Without, Dropped, KeysOk, InlinePipes, Add,
      FreshNames, NewPipe;
  }

  lemma ReloadBuilds(cfg: Config, s: State, order: seq<bytes>)
    requires ReloadCurrent(s) && Enabled(cfg, s, ReloadBuild(order)) && OwnNames(s.reload.prev, s.pipes)
    ensures ReloadCurrent(Apply(cfg, s, ReloadBuild(order)))
  {
    hide BuiltTable, BuiltPipes, FreshNames, Enumerates;
    BuiltOnesExact(s.reload.keys, s.reload.prev, s.pipes, order);
  }

  // ---------------------------------------------------------------- targets

  lemma LiveReachable(cfg: Config, s: State, project: bytes)
    requires Births(s) && OwnNames(s.table, s.pipes)
    ensures var r := Lookup(s.table, cfg.requireProject, project); r.Some? ==> Reachable(s, r.value)
  {
    hide Untouched;
    var r := Lookup(s.table, cfg.requireProject, project);
    if r.Some? {
      assert r.value in Live(s);
      assert StandingAt(s, r.value);
    }
  }

  /** Where the datagrams of `s'` are headed was reachable in `s` already. */
  predicate Headed(s: State, s': State) {
    && (forall id <- s'.dispatching :: TargetOf(s'.dispatching[id].phase).Some? ==>
       Reachable(s, TargetOf(s'.dispatching[id].phase).value))
    && (s'.demux.Holding? ==> Reachable(s, s'.demux.pipe))
  }

  lemma DispatchHeaded(cfg: Config, s: State, st: Step)
    requires Targets(s) && Births(s) && OwnNames(s.table, s.pipes) && Enabled(cfg, s, st)
    requires st.RouteOne? || st.LookUp? || st.RegisterLock? || st.DemuxLookup?
    ensures Headed(s, Apply(cfg, s, st))
  {
    hide Reachable, Lookup, Births, OwnNames, Add;
    match st
    case RouteOne(id) =>
    case LookUp(id) => LiveReachable(cfg, s, s.dispatching[id].dg.project);
    case RegisterLock(id) => LiveReachable(cfg, s, s.dispatching[id].dg.project);
    case DemuxLookup => LiveReachable(cfg, s, s.demux.dg.project);
  }

  lemma HandledHeaded(cfg: Config, s: State, st: Step)
    requires Targets(s) && Enabled(cfg, s, st) && (st.Admit? || st.Enqueue?)
    ensures Headed(s, Apply(cfg, s, st))
  {
    hide Reachable, PipeEnabled, KeyMap, KeysOk, InlinePipes, Add, AllDrained, AddStats;
  }

  lemma FirstHeaded(cfg: Config, s: State, st: Step)
    requires Targets(s) && Enabled(cfg, s, st) && (st.Deliver? || st.RegisterLoad?)
    ensures Headed(s, Apply(cfg, s, st))
  {
    hide Reachable, PipeEnabled, KeyMap, KeysOk, Add;
  }

  /** Only its lookup gives the demuxer a pipeline to hand to. */
  lemma DemuxHolds(cfg: Config, s: State, st: Step)
    requires Enabled(cfg, s, st) && !st.DemuxLookup? && Apply(cfg, s, st).demux.Holding?
    ensures Apply(cfg, s, st).demux == s.demux
  {
    if MovesQueue(st) {
      hide AllDrained, AddStats, Lookup, Add, KeyMap, KeysOk, PipeEnabled, InRange;
    } else {
      hide Apply, Enabled;
      QueueAlone(cfg, s, st);
    }
  }

  lemma OtherHeaded(cfg: Config, s: State, st: Step)
    requires Targets(s) && Enabled(cfg, s, st) && !st.RegisterStore?
    requires !st.RouteOne? && !st.LookUp? && !st.RegisterLock? && !st.DemuxLookup?
    ensures Headed(s, Apply(cfg, s, st))
  {
    hide Apply, Enabled, Reachable;
    if st.Admit? || st.Enqueue? {
      HandledHeaded(cfg, s, st);
    } else if st.Deliver? || st.RegisterLoad? {
      FirstHeaded(cfg, s, st);
    } else {
      SameDispatching(cfg, s, st);
      if Apply(cfg, s, st).demux.Holding? {
        DemuxHolds(cfg, s, st);
      }
    }
  }

  lemma TargetsMature(s: State, s': State)
    requires Matures(s, s') && Headed(s, s')
    ensures Targets(s')
  {
  }

  lemma TargetsRegistered(s: State)
    requires Births(s) && Targets(s) && s.inline.PipeMade? && s.inline.id in s.dispatching
             && Matures(s, RegisterStoreStep(s))
    ensures Targets(RegisterStoreStep(s))
  {
    hide Untouched;
    var s' := RegisterStoreStep(s);
    assert s.inline.pipe in Unborn(s);
  }

  // ---------------------------------------------------------------- the order of shutdown

  predicate MovesQueue(st: Step) {
    st.Enqueue? || st.DemuxTake? || st.DemuxLookup? || st.DemuxSend? || st.DemuxExit?
    || st.CloseShared? || st.ShutdownLoad? || st.ShutdownDone?
  }

  lemma QueueAlone(cfg: Config, s: State, st: Step)
    requires Enabled(cfg, s, st) && !MovesQueue(st)
    ensures var s' := Apply(cfg, s, st);
            s'.shared == s.shared && s'.sharedClosed == s.sharedClosed && s'.demux == s.demux && s'.shut == s.shut
  {
    hide PipeEffect, PipeEnabled, KeyMap, BuiltTable, BuiltPipes, Without, Dropped, KeysOk, InlinePipes, Add,
      FreshNames, NewPipe, AllDrained, AddStats, Lookup, InRange;
    match st
    case RouteOne(id) =>
    case LookUp(id) =>
    case _ =>
  }

  /** The order in which shutdown closes things, but for the drains. */
  predicate ClosedInOrder(s: State) {
    && (s.sharedClosed <==> s.shut != Running)
    && (!Open(s) ==> s.demux == Exited)
    && (s.demux == Exited ==> s.shared == [] && s.sharedClosed)
  }

  lemma ClosedStays(cfg: Config, s: State, st: Step)
    requires ClosedInOrder(s) && Enabled(cfg, s, st)
    ensures ClosedInOrder(Apply(cfg, s, st))
  {
    hide AllDrained, AddStats, Lookup, Add, KeyMap, KeysOk, PipeEnabled, InlinePipes, InRange;
    if !MovesQueue(st) {
      hide Apply, Enabled;
      QueueAlone(cfg, s, st);
    }
  }

  lemma FlushStays(cfg: Config, p: Pipe, st: PipeStep)
    requires PipeEnabled(cfg, p, st) && p.flushDone
    ensures PipeEffect(cfg, p, st).pipe.flushDone
  {
    hide AcceptStep, AttemptStep, Finish, ItemIds, NO_STATS, ZERO_TALLY;
    match st
    case Accept(stamp) => AcceptShape(cfg, p, stamp);
    case Attempt(_) => SendEffect(cfg, p, st);
    case CutWait => SendEffect(cfg, p, st);
    case _ =>
  }

  lemma DrainedBuild(cfg: Config, s: State, order: seq<bytes>)
    requires Enabled(cfg, s, ReloadBuild(order)) && AllDrained(s.pipes)
    ensures AllDrained(Apply(cfg, s, ReloadBuild(order)).pipes)
  {
    hide PipeEnabled, BuiltTable, BuiltPipes, FreshNames, Enumerates;
    var w := s.reload;
    OrderInKeys(w.keys, w.prev, s.pipes, order);
    var grown := BuiltPipes(w.keys, s.pipes, order);
    forall k | 0 <= k < |grown| ensures grown[k].rawClosed ==> grown[k].flushDone {
      BuiltPipeAt(w.keys, s.pipes, order, k);
    }
  }

  lemma DrainedTouch(cfg: Config, s: State, st: Step)
    requires Enabled(cfg, s, st) && TouchesPipe(st) && !st.DrainBegin? && !st.DemuxSend? && AllDrained(s.pipes)
    ensures AllDrained(Apply(cfg, s, st).pipes)
  {
    hide PipeEffect, PipeEnabled, Add, AddStats;
    if st.OnPipe? {
      EffectClosed(cfg, s.pipes[st.pipe], st.st);
      if s.pipes[st.pipe].flushDone {
        FlushStays(cfg, s.pipes[st.pipe], st.st);
      }
    }
  }

  /** Once shutdown has finished nothing is drained or closed any more. */
  lemma DrainedStays(cfg: Config, s: State, st: Step)
    requires Phases(s) && Enabled(cfg, s, st) && Serial(s, st) && s.shut == Finished
    ensures Apply(cfg, s, st).due == multiset{} && AllDrained(Apply(cfg, s, st).pipes)
  {
    if st.ReloadBuild? {
      DrainedBuild(cfg, s, st.order);
    } else if TouchesPipe(st) && !st.DrainBegin? && !st.DemuxSend? {
      DrainedTouch(cfg, s, st);
    } else if !st.RegisterMake? && !st.DrainBegin? {
      DemuxIdle(cfg, s, st);
      PipesAlone(cfg, s, st);
    }
    if !IsStore(st) && !st.DrainBegin? && !st.ShutdownLoad? {
      DrainsAlone(cfg, s, st);
    }
    hide PipeEffect, PipeEnabled, KeyMap, BuiltTable, BuiltPipes, Without, Dropped, KeysOk, InlinePipes, Add,
      FreshNames, AddStats, Lookup, Enumerates;
    if !st.RegisterMake? {
      hide Apply;
    }
  }

  lemma DemuxIdle(cfg: Config, s: State, st: Step)
    requires Phases(s) && Enabled(cfg, s, st) && s.shut == Finished
    ensures !st.DemuxSend?
  {
  }

  // ---------------------------------------------------------------- the invariant

  predicate IsStore(st: Step) { st.ReloadStore? || st.RegisterStore? || st.ExpireStore? }

  lemma DrainsOnDispatch(cfg: Config, s: State, st: Step)
    requires Enabled(cfg, s, st) && !IsStore(st) && OnDispatch(st)
    ensures Apply(cfg, s, st).due == s.due && Apply(cfg, s, st).shut == s.shut
  {
    hide KeyMap, KeysOk, Add, AddStats, Lookup, InRange, PipeEnabled;
    match st
    case RouteOne(id) =>
    case LookUp(id) =>
    case _ =>
  }

  lemma DrainsElsewhere(cfg: Config, s: State, st: Step)
    requires Enabled(cfg, s, st) && !IsStore(st) && !OnDispatch(st) && !st.DrainBegin? && !st.ShutdownLoad?
    ensures Apply(cfg, s, st).due == s.due && Open(Apply(cfg, s, st)) == Open(s)
  {
    hide KeyMap, KeysOk, InlinePipes, Add, AddStats, AllDrained, Lookup, InRange, PipeEffect, PipeEnabled, BuiltTable,
      BuiltPipes, FreshNames, Enumerates, NewPipe, Without, Dropped;
  }

  lemma DrainsAlone(cfg: Config, s: State, st: Step)
    requires Enabled(cfg, s, st) && !IsStore(st) && !st.DrainBegin? && !st.ShutdownLoad?
    ensures Apply(cfg, s, st).due == s.due && Open(Apply(cfg, s, st)) == Open(s)
  {
    hide Apply, Enabled;
    if OnDispatch(st) {
      DrainsOnDispatch(cfg, s, st);
    } else {
      DrainsElsewhere(cfg, s, st);
    }
  }

  lemma LockMovesOn(cfg: Config, s: State, st: Step)
    requires Enabled(cfg, s, st) && (st.RegisterLock? || st.RegisterLoad?)
    ensures var s' := Apply(cfg, s, st);
            s'.table == s.table && s'.reload == s.reload && MadeOne(s'.inline) == MadeOne(s.inline)
  {
    hide KeyMap, KeysOk, InlinePipes, Add, Lookup, InRange, PipeEnabled;
  }

  lemma WritersMoveOn(cfg: Config, s: State, st: Step)
    requires Enabled(cfg, s, st) && IsTableStep(st) && !MakesPipes(st) && !IsStore(st)
    ensures var s' := Apply(cfg, s, st);
            && s'.table == s.table && MadeOne(s'.inline) == MadeOne(s.inline)
               && BuiltOnes(s'.reload) == BuiltOnes(s.reload)
  {
    hide KeyMap, KeysOk, InlinePipes, InRange, PipeEnabled, Lookup, Add, AllDrained, PipeEffect, Enumerates, FreshNames,
      BuiltTable, BuiltPipes, Without, Dropped;
    if st.RegisterLock? || st.RegisterLoad? {
      hide Apply, Enabled;
      LockMovesOn(cfg, s, st);
    }
  }

  /** Steps that leave the table, the drains and the pipelines alone. */
  lemma OtherAlone(cfg: Config, s: State, st: Step)
    requires Enabled(cfg, s, st) && !MakesPipes(st) && !TouchesPipe(st) && !IsStore(st) && !st.ShutdownLoad?
    ensures var s' := Apply(cfg, s, st);
            && s'.table == s.table && s'.due == s.due && Open(s') == Open(s)
            && MadeOne(s'.inline) == MadeOne(s.inline) && BuiltOnes(s'.reload) == BuiltOnes(s.reload)
  {
    hide Apply, Enabled, Open, MadeOne, BuiltOnes;
    DrainsAlone(cfg, s, st);
    if IsTableStep(st) {
      WritersMoveOn(cfg, s, st);
    } else {
      FrameWriters(cfg, s, st);
    }
  }

  lemma BirthsStep(cfg: Config, s: State, st: Step)
    requires TablesInv(cfg, s) && LifeInv(s) && Enabled(cfg, s, st) && Serial(s, st)
    ensures var s' := Apply(cfg, s, st); Births(s') && Matures(s, s')
  {
    hide Births, Targets, InlineCurrent, ReloadCurrent, Phases, GoodTable, Identities, WantsOk, Matures, KeyMap, KeysOk,
      PipeEnabled, InlinePipes, Lookup, Unborn;
    OwnTable(cfg, s);
    match st
    case Admit(_) => BirthsHandled(cfg, s, st);
    case Enqueue(_) => BirthsHandled(cfg, s, st);
    case DemuxSend => BirthsHandled(cfg, s, st);
    case OnPipe(pipe, pst) => BirthsOnPipe(cfg, s, pipe, pst);
    case DrainBegin(pipe) => BirthsDrain(s, pipe);
    case RegisterMake => BirthsRegisterMake(cfg, s);
    case ReloadBuild(order) => OwnPrev(cfg, s); BirthsBuild(cfg, s, order);
    case RegisterStore => BirthsRegisterStore(s);
    case ReloadStore => BirthsReloadStore(s);
    case ExpireStore(retired) => BirthsExpireStore(cfg, s, retired);
    case ShutdownLoad => BirthsShutdown(cfg, s);
    case _ =>
      hide Apply;
      OtherAlone(cfg, s, st);
      PipesAlone(cfg, s, st);
      BirthsFrame(s, Apply(cfg, s, st));
  }

  lemma OwnPrev(cfg: Config, s: State)
    requires ReloadOk(cfg, s) && s.reload.TableLoaded?
    ensures OwnNames(s.reload.prev, s.pipes)
  {
  }

  lemma CurrentStep(cfg: Config, s: State, st: Step)
    requires TablesInv(cfg, s) && IdsGiven(s) && LifeInv(s) && Enabled(cfg, s, st)
    ensures InlineCurrent(Apply(cfg, s, st)) && ReloadCurrent(Apply(cfg, s, st))
  {
    hide Apply, InlineCurrent, ReloadCurrent, Births, Targets, Phases, GoodTable, Identities, WantsOk, HolderOk,
      IdsGiven, OwnNames;
    if IsTableStep(st) {
      InlineMoves(cfg, s, st);
      if st.ReloadBuild? {
        OwnPrev(cfg, s);
        ReloadBuilds(cfg, s, st.order);
      } else {
        hide Enabled;
        ReloadMoves(cfg, s, st);
      }
    } else {
      InlineFrame(cfg, s, st);
    }
  }

  lemma TargetsStep(cfg: Config, s: State, st: Step)
    requires LifeInv(s) && OwnNames(s.table, s.pipes) && Enabled(cfg, s, st) && Matures(s, Apply(cfg, s, st))
    ensures Targets(Apply(cfg, s, st))
  {
    hide InlineCurrent, ReloadCurrent, Births, Targets, Phases, OwnNames, Headed, Matures;
    if st.RegisterStore? {
      TargetsRegistered(s);
    } else {
      hide Apply, Enabled;
      if st.RouteOne? || st.LookUp? || st.RegisterLock? || st.DemuxLookup? {
        DispatchHeaded(cfg, s, st);
      } else {
        OtherHeaded(cfg, s, st);
      }
      TargetsMature(s, Apply(cfg, s, st));
    }
  }

  lemma PhasesStep(cfg: Config, s: State, st: Step)
    requires Phases(s) && Enabled(cfg, s, st) && Serial(s, st)
    ensures Phases(Apply(cfg, s, st))
  {
    ClosedStays(cfg, s, st);
    if s.shut == Finished {
      DrainedStays(cfg, s, st);
      FinishedStays(cfg, s, st);
    } else if Apply(cfg, s, st).shut == Finished {
      FinishesDrained(cfg, s, st);
    }
    hide Apply, Enabled, Serial;
  }

  lemma FinishedStays(cfg: Config, s: State, st: Step)
    requires Enabled(cfg, s, st) && s.shut == Finished
    ensures Apply(cfg, s, st).shut == Finished
  {
    hide PipeEffect, PipeEnabled, KeyMap, KeysOk, InlinePipes, Add, AllDrained, Lookup, InRange, BuiltTable, BuiltPipes,
      FreshNames;
    match st
    case RouteOne(id) =>
    case LookUp(id) =>
    case _ =>
  }

  lemma FinishesDrained(cfg: Config, s: State, st: Step)
    requires Enabled(cfg, s, st) && s.shut != Finished && Apply(cfg, s, st).shut == Finished
    ensures Apply(cfg, s, st).due == multiset{} && AllDrained(Apply(cfg, s, st).pipes)
  {
    hide PipeEffect, PipeEnabled, KeyMap, KeysOk, InlinePipes, Add, AllDrained, Lookup, InRange, BuiltTable, BuiltPipes,
      FreshNames;
    match st
    case RouteOne(id) =>
    case LookUp(id) =>
    case _ =>
  }

  lemma DrainsOnce(s: State, pipe: PipeId)
    requires Births(s) && pipe < |s.pipes| && s.due[pipe] > 0
    ensures !s.pipes[pipe].rawClosed
  {
    assert StandingAt(s, pipe);
  }

  lemma LifeStep(cfg: Config, s: State, st: Step)
    requires TablesInv(cfg, s) && IdsGiven(s) && FlowInv(cfg, s) && LifeInv(s) && Enabled(cfg, s, st) && Serial(s, st)
    ensures LifeInv(Apply(cfg, s, st)) && Matures(s, Apply(cfg, s, st))
  {
    OwnTable(cfg, s);
    BirthsStep(cfg, s, st);
    CurrentStep(cfg, s, st);
    TargetsStep(cfg, s, st);
    PhasesStep(cfg, s, st);
    PanicStep(cfg, s, st);
    hide Births, Targets, Phases, InlineCurrent, ReloadCurrent, TablesInv, FlowInv, IdsGiven, Apply, Serial, KeyMap,
      PipeEnabled;
    if st.DrainBegin? {
      DrainsOnce(s, st.pipe);
    }
  }

  lemma LifeInit(cfg: Config, s: State)
    requires Init(cfg, s)
    ensures LifeInv(s)
  {
    hide BuiltTable, BuiltPipes, FreshNames;
    var keys, order :| KeysOk(cfg, keys) && (!cfg.keysFile ==> forall n <- keys :: n == DEFAULT_PROJECT)
      && Enumerates(order, FreshNames(keys, EMPTY_TABLE, [])) && s == Installed(keys, order);
    OrderInKeys(keys, EMPTY_TABLE, [], order);
    forall id | 0 <= id < |s.pipes| ensures StandingAt(s, id) {
      BuiltPipeAt(keys, [], order, id);
      ReloadStarts(keys, EMPTY_TABLE, [], order, id);
    }
  }

  lemma RunSize(cfg: Config, states: seq<State>, steps: seq<Step>)
    requires SerialRun(cfg, states, steps)
    ensures Run(cfg, states, steps) && |states| == |steps| + 1
  {
  }

  lemma SerialStep(cfg: Config, states: seq<State>, steps: seq<Step>, k: nat)
    requires SerialRun(cfg, states, steps) && k < |steps|
    ensures |states| == |steps| + 1 && Enabled(cfg, states[k], steps[k]) && Serial(states[k], steps[k])
    ensures states[k + 1] == Apply(cfg, states[k], steps[k])
  {
  }

  /** One more enabled step that keeps the writers in turn. */
  lemma SerialMore(cfg: Config, states: seq<State>, steps: seq<Step>, st: Step)
    requires SerialRun(cfg, states, steps) && Enabled(cfg, Last(states), st) && Serial(Last(states), st)
    ensures SerialRun(cfg, states + [Apply(cfg, Last(states), st)], steps + [st])
  {
    hide Enabled, Apply, Init, Serial, Run;
    RunMore(cfg, states, steps, st);
    RunStart(cfg, states, steps);
    var states', steps' := states + [Apply(cfg, Last(states), st)], steps + [st];
    forall k | 0 <= k < |steps'| ensures Serial(states'[k], steps'[k]) {
      if k < |steps| {
        assert states'[k] == states[k] && steps'[k] == steps[k];
      }
    }
  }

  lemma {:induction false} LifeAlways(cfg: Config, states: seq<State>, steps: seq<Step>, k: nat)
    requires SerialRun(cfg, states, steps) && k < |states|
    ensures LifeInv(states[k])
    decreases k
  {
    hide SerialRun, Run, Init, Apply, Enabled, FlowInv, TablesInv, LifeInv, IdsGiven, Published, Serial;
    RunSize(cfg, states, steps);
    if k == 0 {
      RunStart(cfg, states, steps);
      LifeInit(cfg, states[0]);
    } else {
      LifeAlways(cfg, states, steps, k - 1);
      TablesAlways(cfg, states, steps, k - 1);
      FlowAlways(cfg, states, steps, k - 1);
      SerialStep(cfg, states, steps, k - 1);
      LifeStep(cfg, states[k - 1], steps[k - 1]);
    }
  }

  // ---------------------------------------------------------------- what it means

  /** Every pipeline ever made is unborn and untouched, or published and open, or has exactly one drain
      (which shutdown gives to those still published). */
  lemma EveryPipeStands(cfg: Config, states: seq<State>, steps: seq<Step>, k: nat, id: PipeId)
    requires SerialRun(cfg, states, steps) && k < |states| && id < |states[k].pipes|
    ensures StandingAt(states[k], id)
  {
    hide SerialRun, Targets, Phases, InlineCurrent, ReloadCurrent;
    LifeAlways(cfg, states, steps, k);
  }

  /** No send on and no second close of a closed channel. */
  lemma NeverPanics(cfg: Config, states: seq<State>, steps: seq<Step>, k: nat)
    requires SerialRun(cfg, states, steps) && k < |states|
    ensures !states[k].panicked
  {
    hide SerialRun, Targets, Phases, InlineCurrent, ReloadCurrent, Births;
    LifeAlways(cfg, states, steps, k);
  }

  predicate Retired(s: State, id: PipeId) { id < |s.pipes| && id !in Live(s) && id !in Unborn(s) }

  lemma RetiredStep(s: State, s': State, id: PipeId)
    requires Matures(s, s') && Retired(s, id)
    ensures Retired(s', id)
  {
  }

  /** A pipeline that has left the table never returns to it. */
  lemma {:induction false} RetiredForever(cfg: Config, states: seq<State>, steps: seq<Step>, k: nat, later: nat,
      id: PipeId)
    requires SerialRun(cfg, states, steps) && k <= later < |states| && Retired(states[k], id)
    ensures Retired(states[later], id)
    decreases later
  {
    hide SerialRun, Run, Retired, Matures;
    if k < later {
      RetiredForever(cfg, states, steps, k, later - 1, id);
      RunSize(cfg, states, steps);
      MaturesAt(cfg, states, steps, later - 1);
      RetiredStep(states[later - 1], states[later], id);
    }
  }

  lemma MaturesAt(cfg: Config, states: seq<State>, steps: seq<Step>, k: nat)
    requires SerialRun(cfg, states, steps) && k < |steps|
    ensures Matures(states[k], states[k + 1])
  {
    hide SerialRun, Run, Apply, Enabled, FlowInv, TablesInv, LifeInv, IdsGiven, Published, Serial, Matures;
    RunSize(cfg, states, steps);
    LifeAlways(cfg, states, steps, k);
    TablesAlways(cfg, states, steps, k);
    FlowAlways(cfg, states, steps, k);
    SerialStep(cfg, states, steps, k);
    LifeStep(cfg, states[k], steps[k]);
  }

  /** How often a drain of the pipeline was begun. */
  function Drains(steps: seq<Step>, id: PipeId): nat {
    if steps == [] then 0 else Drains(steps[..|steps| - 1], id) + OneIf(steps[|steps| - 1] == DrainBegin(id))
  }

  lemma ClosingStep(cfg: Config, s: State, st: Step, id: PipeId)
    requires Enabled(cfg, s, st) && id < |s.pipes|
    ensures id < |Apply(cfg, s, st).pipes|
    ensures st != DrainBegin(id) ==> Apply(cfg, s, st).pipes[id].rawClosed == s.pipes[id].rawClosed
    ensures st == DrainBegin(id) ==> Apply(cfg, s, st).pipes[id].rawClosed
  {
    hide PipeEffect, PipeEnabled, KeyMap, BuiltTable, FreshNames, Enumerates, Add, AddStats;
    if MakesPipes(st) {
      MakeGrows(cfg, s, st);
      if st.ReloadBuild? {
        OrderInKeys(s.reload.keys, s.reload.prev, s.pipes, st.order);
        BuiltPipeAt(s.reload.keys, s.pipes, st.order, id);
      }
    } else if TouchesPipe(st) {
      TouchClosing(cfg, s, st, id);
    } else {
      hide Apply;
      PipesAlone(cfg, s, st);
    }
  }

  lemma UpdatedClosing(pipes: seq<Pipe>, k: nat, p: Pipe, id: PipeId)
    requires k < |pipes| && id < |pipes| && p.rawClosed == pipes[k].rawClosed
    ensures pipes[k := p][id].rawClosed == pipes[id].rawClosed
  {
  }

  lemma BookClosing(s: State, pipe: PipeId, st: Stats, id: PipeId)
    requires pipe < |s.pipes| && id < |s.pipes|
    ensures |Book(s, pipe, st).pipes| == |s.pipes| && Book(s, pipe, st).pipes[id].rawClosed == s.pipes[id].rawClosed
  {
    hide AddStats;
  }

  lemma HandledClosing(cfg: Config, s: State, st: Step, id: PipeId)
    requires Enabled(cfg, s, st) && id < |s.pipes| && (st.Admit? || st.Enqueue?)
    ensures id < |Apply(cfg, s, st).pipes| && Apply(cfg, s, st).pipes[id].rawClosed == s.pipes[id].rawClosed
  {
    hide Book, PipeEnabled, Add;
    var pipe := s.dispatching[st.id].phase.pipe;
    var closed, missing := ZERO_TALLY.(routingClosed := 1), ZERO_TALLY.(missingToken := 1);
    DropPipes(s, st.id, closed);
    DropPipes(s, st.id, missing);
    BookClosing(Drop(s, st.id, closed), pipe, NO_STATS.(routingClosed := 1), id);
    BookClosing(Drop(s, st.id, missing), pipe, NO_STATS.(missingToken := 1), id);
  }

  lemma SendClosing(s: State, id: PipeId)
    requires s.demux.Holding? && s.demux.pipe < |s.pipes| && id < |s.pipes|
    ensures id < |DemuxSendStep(s).pipes| && DemuxSendStep(s).pipes[id].rawClosed == s.pipes[id].rawClosed
  {
    hide Book, Add;
    var dg, pipe := s.demux.dg, s.demux.pipe;
    var p := s.pipes[pipe];
    var t := s.(demux := Waiting);
    BookClosing(t.(tally := Add(s.tally, ZERO_TALLY.(routingClosed := 1)), settled := s.settled + multiset{dg.id}),
      pipe,
                NO_STATS.(routingClosed := 1), id);
    BookClosing(t.(settled := s.settled + multiset{dg.id}), pipe, NO_STATS.(queueFull := 1), id);
    UpdatedClosing(s.pipes, pipe, p.(raw := p.raw + [dg]), id);
  }

  lemma TouchClosing(cfg: Config, s: State, st: Step, id: PipeId)
    requires Enabled(cfg, s, st) && id < |s.pipes| && TouchesPipe(st)
    ensures id < |Apply(cfg, s, st).pipes|
    ensures Apply(cfg, s, st).pipes[id].rawClosed == (s.pipes[id].rawClosed || st == DrainBegin(id))
  {
    hide PipeEffect, PipeEnabled, Add, AddStats, AdmitStep, EnqueueStep, DemuxSendStep;
    match st
    case OnPipe(pipe, pst) =>
      EffectClosed(cfg, s.pipes[pipe], pst);
      var e := PipeEffect(cfg, s.pipes[pipe], pst);
      UpdatedClosing(s.pipes, pipe, Bump(e.pipe, e.booked), id);
    case Admit(_) => HandledClosing(cfg, s, st, id);
    case Enqueue(_) => HandledClosing(cfg, s, st, id);
    case DemuxSend => SendClosing(s, id);
    case DrainBegin(_) =>
  }

  /** Across reloads, expiries and shutdown every pipeline is drained at most once: as often as its queue is closed. */
  lemma {:induction false} DrainedAtMostOnce(cfg: Config, states: seq<State>, steps: seq<Step>, k: nat, id: PipeId)
    requires SerialRun(cfg, states, steps) && k < |states|
    ensures Drains(steps[..k], id) == if id < |states[k].pipes| then OneIf(states[k].pipes[id].rawClosed) else 0
    decreases k
  {
    hide SerialRun, Run, Init;
    RunSize(cfg, states, steps);
    if k == 0 {
      RunStart(cfg, states, steps);
      if id < |states[0].pipes| {
        InstalledOpen(cfg, states[0], id);
      }
    } else {
      DrainedAtMostOnce(cfg, states, steps, k - 1, id);
      assert steps[..k][..k - 1] == steps[..k - 1];
      DrainCountStep(cfg, states, steps, k - 1, id);
    }
  }

  lemma InstalledOpen(cfg: Config, s: State, id: PipeId)
    requires Init(cfg, s) && id < |s.pipes|
    ensures !s.pipes[id].rawClosed
  {
    hide BuiltTable, BuiltPipes, FreshNames;
    var keys, order :| KeysOk(cfg, keys) && (!cfg.keysFile ==> forall n <- keys :: n == DEFAULT_PROJECT)
      && Enumerates(order, FreshNames(keys, EMPTY_TABLE, [])) && s == Installed(keys, order);
    OrderInKeys(keys, EMPTY_TABLE, [], order);
    BuiltPipeAt(keys, [], order, id);
  }

  lemma DrainCountStep(cfg: Config, states: seq<State>, steps: seq<Step>, k: nat, id: PipeId)
    requires SerialRun(cfg, states, steps) && k < |steps|
    ensures var closed := (s: State) => if id < |s.pipes| then OneIf(s.pipes[id].rawClosed) else 0;
            closed(states[k + 1]) == closed(states[k]) + OneIf(steps[k] == DrainBegin(id))
  {
    hide SerialRun, Run, Enabled, Apply;
    RunSize(cfg, states, steps);
    var s, st := states[k], steps[k];
    LifeAlways(cfg, states, steps, k);
    SerialStep(cfg, states, steps, k);
    if id < |s.pipes| {
      ClosingStep(cfg, s, st, id);
      if st == DrainBegin(id) {
        DrainsOnce(s, id);
      }
    } else {
      NewPipesOpen(cfg, s, st, id);
    }
  }

  lemma NewPipesOpen(cfg: Config, s: State, st: Step, id: PipeId)
    requires Enabled(cfg, s, st) && |s.pipes| <= id
    ensures st != DrainBegin(id) && (id < |Apply(cfg, s, st).pipes| ==> !Apply(cfg, s, st).pipes[id].rawClosed)
  {
    StepGrows(cfg, s, st);
    hide PipeEffect, PipeEnabled, KeyMap, BuiltTable, FreshNames, Enumerates, Add, AddStats;
    if st.ReloadBuild? {
      OrderInKeys(s.reload.keys, s.reload.prev, s.pipes, st.order);
      if id < |Apply(cfg, s, st).pipes| {
        BuiltPipeAt(s.reload.keys, s.pipes, st.order, id);
      }
    } else if !st.RegisterMake? {
      hide Apply;
    }
  }
}
