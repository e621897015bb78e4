/** Which configurations keep the two promises that others break: no pipeline is drained twice, and no
    event is posted without a credential. */
module Deployments {
  import opened Bytes
  import opened Stripping
  import opened Events
  import opened Registry
  import opened Protocol
  import opened TableLaws
  import opened FlowLaws
  import opened Provenance
  import opened Lifecycle
  import opened Documents
  import opened EndToEnd
  import opened Hazards
  import opened Witnesses

  /** Tokens register nothing, or expiry is off (or finds nothing) and no registration can undo a reload. */
  predicate DrainsSafely(cfg: Config) {
    !(cfg.inlineTokens && ((cfg.inlineIdle > 0 && Room(cfg, 1)) || (cfg.keysFile && Room(cfg, 2))))
  }

  // ---------------------------------------------------------------- pipelines that may still be published

  /** What a registration under way is going to publish. */
  function ToRegister(w: Inline): set<PipeId> {
    match w
    case RoomChecked(_, prev, _) => prev.names.Values
    case PipeMade(_, prev, pipe, _) => prev.names.Values + {pipe}
    case _ => {}
  }

  /** What a reload under way works on. */
  function ToReload(w: Reload): set<PipeId> {
    match w
    case TableLoaded(_, prev, _) => prev.names.Values
    case TableBuilt(_, prev, next, _, _) => prev.names.Values + next.names.Values
    case _ => {}
  }

  function Held(s: State): set<PipeId> { Live(s) + ToRegister(s.inline) + ToReload(s.reload) }

  /** A pipeline made by a registration is nobody else's yet. */
  predicate Apart(s: State) { s.inline.PipeMade? ==> s.inline.pipe !in Live(s) && s.inline.pipe !in ToReload(s.reload) }

  predicate DrainedOnce(s: State, id: PipeId) {
    if id < |s.pipes| then s.due[id] + OneIf(s.pipes[id].rawClosed) <= 1 else s.due[id] == 0
  }

  predicate Unharmed(s: State, id: PipeId) { id < |s.pipes| && s.due[id] == 0 && !s.pipes[id].rawClosed }

  /** No pipeline has two drains, and while the table is open nothing that may be published has any. */
  ghost predicate Orderly(s: State) {
    (forall id: PipeId :: DrainedOnce(s, id)) && (Open(s) ==> forall id <- Held(s) :: Unharmed(s, id)) && Apart(s)
  }

  /** Steps that start no drain: what may be published grows by new pipelines at most. */
  lemma OrderlyFrame(s: State, s': State)
    requires Orderly(s) && s'.due == s.due && |s.pipes| <= |s'.pipes| && (Open(s') ==> Open(s)) && Apart(s')
    requires forall id :: 0 <= id < |s.pipes| ==> s'.pipes[id].rawClosed == s.pipes[id].rawClosed
    requires forall id :: |s.pipes| <= id < |s'.pipes| ==> !s'.pipes[id].rawClosed
    requires forall id <- Held(s') :: id in Held(s) || |s.pipes| <= id < |s'.pipes|
    ensures Orderly(s')
  {
    hide Held, Open;
    forall id: PipeId ensures DrainedOnce(s', id) {
      assert DrainedOnce(s, id);
    }
    if Open(s') {
      forall id <- Held(s') ensures Unharmed(s', id) {
        assert DrainedOnce(s, id);
        assert id in Held(s) ==> Unharmed(s, id);
      }
    }
  }

  lemma TableBelow(cfg: Config, pipes: seq<Pipe>, t: Table)
    requires GoodTable(cfg, pipes, t)
    ensures forall id <- t.names.Values :: id < |pipes|
  {
  }

  /** What is known of the writers' snapshots: they are in range. */
  lemma HeldBelow(cfg: Config, s: State)
    requires TablesInv(cfg, s)
    ensures forall id <- Held(s) :: id < |s.pipes|
  {
    hide GoodTable, Identities, WantsOk, KeysOk, BuiltOk, HasRoom;
    TableBelow(cfg, s.pipes, s.table);
    match s.inline {
      case RoomChecked(_, prev, _) => TableBelow(cfg, s.pipes, prev);
      case PipeMade(_, prev, _, _) => TableBelow(cfg, s.pipes, prev);
      case _ =>
    }
    match s.reload {
      case TableLoaded(_, prev, _) => TableBelow(cfg, s.pipes, prev);
      case TableBuilt(_, prev, next, _, _) => TableBelow(cfg, s.pipes, prev); TableBelow(cfg, s.pipes, next);
      case _ =>
    }
  }

  predicate HeldKept(s: State, s': State) {
    Apart(s') && forall id <- Held(s') :: id in Held(s) || |s.pipes| <= id < |s'.pipes|
  }

  lemma OthersHold(cfg: Config, s: State, st: Step)
    requires Orderly(s) && Enabled(cfg, s, st) && !IsTableStep(st)
    ensures HeldKept(s, Apply(cfg, s, st))
  {
    hide Apply, Enabled;
    FrameWriters(cfg, s, st);
  }

  /** The inline lock changes hands, or its holder moves on. */
  lemma InlineHolds(s: State, s': State)
    requires s'.table == s.table && s'.reload == s.reload && ToRegister(s'.inline) <= Live(s) + ToRegister(s.inline)
    requires !s'.inline.PipeMade?
    ensures HeldKept(s, s')
  {
  }

  lemma LockHolds(cfg: Config, s: State, st: Step)
    requires Enabled(cfg, s, st) && (st.RegisterLock? || st.ExpireLoad? || st.ExpireQuit?)
    ensures HeldKept(s, Apply(cfg, s, st))
  {
    hide HeldKept, Live, KeyMap, KeysOk, PipeEnabled, Lookup, InRange;
    InlineHolds(s, Apply(cfg, s, st));
  }

  lemma LoadHolds(cfg: Config, s: State)
    requires Enabled(cfg, s, RegisterLoad)
    ensures HeldKept(s, Apply(cfg, s, RegisterLoad))
  {
    hide HeldKept, KeyMap, KeysOk, PipeEnabled, Lookup, InRange, Add;
    InlineHolds(s, Apply(cfg, s, RegisterLoad));
  }

  lemma MakeHolds(cfg: Config, s: State)
    requires TablesInv(cfg, s) && Enabled(cfg, s, RegisterMake)
    ensures HeldKept(s, Apply(cfg, s, RegisterMake))
  {
    hide TablesInv, KeyMap, KeysOk, PipeEnabled, Lookup, InRange, NewPipe, ToReload, Live, HeldKept;
    MadeHolds(cfg, s, Apply(cfg, s, RegisterMake));
  }

  lemma MadeHolds(cfg: Config, s: State, s': State)
    requires TablesInv(cfg, s) && s.inline.RoomChecked? && s'.table == s.table && s'.reload == s.reload
    requires |s'.pipes| == |s.pipes| + 1 && s'.inline == PipeMade(s.inline.id, s.inline.prev, |s.pipes|, s.inline.seen)
    ensures HeldKept(s, s')
  {
    HeldBelow(cfg, s);
    SameTables(s, s');
    hide TablesInv, Live, ToReload;
  }

  lemma SameTables(s: State, s': State)
    requires s'.table == s.table && s'.reload == s.reload
    ensures Live(s') == Live(s) && ToReload(s'.reload) == ToReload(s.reload)
  {
  }

  lemma RegisterStoreHolds(cfg: Config, s: State)
    requires Enabled(cfg, s, RegisterStore)
    ensures HeldKept(s, RegisterStoreStep(s))
  {
    hide KeyMap, KeysOk, PipeEnabled, Lookup, InRange;
  }

  lemma ReloadsHold(cfg: Config, s: State, st: Step)
    requires Apart(s) && Enabled(cfg, s, st) && (st.ReloadRead? || st.ReloadLoad?)
    ensures HeldKept(s, Apply(cfg, s, st))
  {
    hide KeyMap, KeysOk, PipeEnabled, Lookup, InRange;
  }

  lemma BuildHolds(cfg: Config, s: State, order: seq<bytes>)
    requires TablesInv(cfg, s) && Apart(s) && Enabled(cfg, s, ReloadBuild(order))
    ensures HeldKept(s, Apply(cfg, s, ReloadBuild(order)))
  {
    OwnPrev(cfg, s);
    hide TablesInv, BuiltTable, BuiltPipes, Enumerates, FreshNames, KeyMap, KeysOk, PipeEnabled, OwnNames, Apart,
      HeldKept;
    var w := s.reload;
    OrderInKeys(w.keys, w.prev, s.pipes, order);
    BuiltOnesExact(w.keys, w.prev, s.pipes, order);
    BuiltHolds(cfg, s, Apply(cfg, s, ReloadBuild(order)));
  }

  lemma BuiltHolds(cfg: Config, s: State, s': State)
    requires TablesInv(cfg, s) && Apart(s) && s.reload.TableLoaded? && s'.table == s.table && s'.inline == s.inline
    requires |s.pipes| <= |s'.pipes| && s'.reload.TableBuilt? && s'.reload.prev == s.reload.prev
    requires forall id <- s'.reload.next.names.Values ::
               id in s.reload.prev.names.Values || |s.pipes| <= id < |s'.pipes|
    ensures HeldKept(s, s')
  {
    HeldBelow(cfg, s);
    HolderMade(cfg, s);
    hide TablesInv;
  }

  lemma HolderMade(cfg: Config, s: State)
    requires TablesInv(cfg, s)
    ensures s.inline.PipeMade? ==> s.inline.pipe < |s.pipes|
  {
    hide GoodTable, Identities, WantsOk, ReloadOk, HasRoom;
  }

  lemma WritersHold(cfg: Config, s: State, st: Step)
    requires TablesInv(cfg, s) && Orderly(s) && Enabled(cfg, s, st) && !st.ReloadStore? && !st.ExpireStore?
    ensures HeldKept(s, Apply(cfg, s, st))
  {
    hide Orderly, HeldKept, TablesInv;
    ApartOf(s);
    match st
    case RegisterLock(_) => hide Apply, Enabled; LockHolds(cfg, s, st);
    case ExpireLoad => hide Apply, Enabled; LockHolds(cfg, s, st);
    case ExpireQuit => hide Apply, Enabled; LockHolds(cfg, s, st);
    case RegisterLoad => LoadHolds(cfg, s);
    case RegisterMake => MakeHolds(cfg, s);
    case RegisterStore => RegisterStoreHolds(cfg, s);
    case ReloadRead(_) => hide Apply, Enabled; ReloadsHold(cfg, s, st);
    case ReloadLoad => hide Apply, Enabled; ReloadsHold(cfg, s, st);
    case ReloadBuild(order) => BuildHolds(cfg, s, order);
    case _ => hide Apply, Enabled; OthersHold(cfg, s, st);
  }

  lemma ApartOf(s: State)
    requires Orderly(s)
    ensures Apart(s)
  {
  }

  /** Every step but the three that start drains or begin one. */
  lemma OrderlyOthers(cfg: Config, s: State, st: Step)
    requires TablesInv(cfg, s) && Orderly(s) && Enabled(cfg, s, st)
    requires !st.ReloadStore? && !st.ExpireStore? && !st.DrainBegin? && !st.ShutdownLoad?
    ensures Orderly(Apply(cfg, s, st))
  {
    hide Apply, Enabled, TablesInv, Orderly, Open, Held, Apart;
    var s' := Apply(cfg, s, st);
    StepGrows(cfg, s, st);
    WritersHold(cfg, s, st);
    DrainsKept(cfg, s, st);
    forall id | 0 <= id < |s.pipes| ensures s'.pipes[id].rawClosed == s.pipes[id].rawClosed {
      ClosingStep(cfg, s, st, id);
    }
    forall id | |s.pipes| <= id < |s'.pipes| ensures !s'.pipes[id].rawClosed {
      NewPipesOpen(cfg, s, st, id);
    }
    OrderlyFrame(s, s');
  }

  lemma DrainsKept(cfg: Config, s: State, st: Step)
    requires Enabled(cfg, s, st) && !st.ReloadStore? && !st.ExpireStore? && !st.DrainBegin? && !st.ShutdownLoad?
    ensures Apply(cfg, s, st).due == s.due && Open(Apply(cfg, s, st)) == Open(s)
  {
    if !st.RegisterStore? {
      hide Apply, Enabled;
      DrainsAlone(cfg, s, st);
    }
  }

  // ---------------------------------------------------------------- the steps that start drains

  /** A due set grows by pipelines that have no drain, and what may be published keeps clear of them. */
  lemma OrderlyStore(s: State, s': State, gone: set<PipeId>)
    requires Orderly(s) && s'.pipes == s.pipes && s'.due == s.due + multiset(gone) && Apart(s')
    requires forall id <- gone :: Unharmed(s, id)
    requires Open(s') ==> Open(s) && Held(s') <= Held(s) && Held(s') !! gone
    ensures Orderly(s')
  {
    hide Held, Open, Apart;
    forall id: PipeId ensures DrainedOnce(s', id) {
      DueAfter(s.due, gone, id);
      assert DrainedOnce(s, id);
    }
    if Open(s') {
      forall id <- Held(s') ensures Unharmed(s', id) {
        DueAfter(s.due, gone, id);
        assert Unharmed(s, id);
      }
    }
  }

  lemma OrderlyShutdown(cfg: Config, s: State)
    requires Orderly(s) && Enabled(cfg, s, ShutdownLoad)
    ensures Orderly(Apply(cfg, s, ShutdownLoad))
  {
    var s' := Apply(cfg, s, ShutdownLoad);
    assert Apart(s') && !Open(s') && Open(s);
    forall id <- Live(s) ensures Unharmed(s, id) {
      assert id in Held(s);
    }
    hide Orderly, Apart, Live, Unharmed;
    OrderlyStore(s, s', Live(s));
  }

  lemma OrderlyDrain(s: State, pipe: PipeId)
    requires Orderly(s) && pipe < |s.pipes| && s.due[pipe] > 0
    ensures Orderly(DrainBeginStep(s, pipe)) && !DrainBeginStep(s, pipe).panicked
  {
    var s' := DrainBeginStep(s, pipe);
    assert DrainedOnce(s, pipe);
    hide Held, Open;
    forall id: PipeId ensures DrainedOnce(s', id) {
      assert DrainedOnce(s, id);
    }
    if Open(s') {
      SameHeld(s, s');
      forall id <- Held(s') ensures Unharmed(s', id) {
        assert Unharmed(s, id);
      }
    }
  }

  lemma SameHeld(s: State, s': State)
    requires s'.table == s.table && s'.inline == s.inline && s'.reload == s.reload && s'.shut == s.shut
    ensures Held(s') == Held(s) && Open(s') == Open(s)
  {
  }

  // ---------------------------------------------------------------- a registration never holds what a reload drops

  /** Where there is no room for two, a table with room for one more holds the configured project at most. */
  lemma OnlyBase(cfg: Config, pipes: seq<Pipe>, t: Table, n: bytes)
    requires GoodTable(cfg, pipes, t) && HasRoom(cfg, t) && !Room(cfg, 2) && n in t.names
    ensures cfg.apiKey != [] && n == DEFAULT_PROJECT
  {
    assert |t.names| == |t.names.Keys|;
    SubsetSize({n}, t.names.Keys);
    if cfg.apiKey != [] && n != DEFAULT_PROJECT {
      SubsetSize({n, DEFAULT_PROJECT}, t.names.Keys);
      assert false;
    }
  }

  /** A reload keeps the configured project's pipeline. */
  lemma DefaultStays(cfg: Config, s: State, id: PipeId)
    requires Identities(cfg, s.pipes) && s.reload.TableBuilt? && GoodTable(cfg, s.pipes, s.reload.prev)
             && GoodTable(cfg, s.pipes, s.reload.next)
    requires BuiltOk(s.pipes, s.reload.keys, s.reload.prev, s.reload.next)
    requires cfg.apiKey != [] && id < |s.pipes| && s.pipes[id].project == DEFAULT_PROJECT
    ensures id !in Dropped(s.reload.prev, s.reload.next)
  {
    var w := s.reload;
    if id in w.prev.names.Values {
      var m :| m in w.prev.names && w.prev.names[m] == id;
      assert m == DEFAULT_PROJECT;
      var id' := w.next.names[DEFAULT_PROJECT];
      assert PipeIdentity(cfg, s.pipes[id]) && PipeIdentity(cfg, s.pipes[id']);
      assert KeyMap(w.next, s.pipes)[DEFAULT_PROJECT] == cfg.apiKey;
      assert w.keys[DEFAULT_PROJECT] == cfg.apiKey;
      assert Reusable(w.prev, s.pipes, DEFAULT_PROJECT, cfg.apiKey);
    }
  }

  lemma RegistersOthers(cfg: Config, s: State, id: PipeId)
    requires TablesInv(cfg, s) && Apart(s) && DrainsSafely(cfg) && s.reload.TableBuilt? && id in ToRegister(s.inline)
    ensures id !in Dropped(s.reload.prev, s.reload.next)
  {
    hide WantsOk, GoodTable, KeysOk, BuiltOk, HasRoom, Identities;
    if s.inline.PipeMade? && id == s.inline.pipe {
      assert id !in s.reload.prev.names.Values;
    } else {
      var prev := s.inline.prev;
      var n :| n in prev.names && prev.names[n] == id;
      WantsInlineTokens(cfg, s.dispatching[s.inline.id]);
      OnlyBase(cfg, s.pipes, prev, n);
      OwnProject(cfg, s.pipes, prev, n);
      DefaultStays(cfg, s, id);
    }
  }

  lemma OwnProject(cfg: Config, pipes: seq<Pipe>, t: Table, n: bytes)
    requires GoodTable(cfg, pipes, t) && n in t.names
    ensures t.names[n] < |pipes| && pipes[t.names[n]].project == n
  {
  }

  lemma OrderlyReload(cfg: Config, s: State)
    requires TablesInv(cfg, s) && Orderly(s) && DrainsSafely(cfg) && s.reload.TableBuilt? && Open(s)
    ensures Orderly(ReloadStoreStep(s))
  {
    var w := s.reload;
    var gone := Dropped(w.prev, w.next);
    var s' := ReloadStoreStep(s);
    forall id <- gone ensures Unharmed(s, id) {
      assert id in Held(s);
    }
    forall id <- ToRegister(s.inline) ensures id !in gone {
      RegistersOthers(cfg, s, id);
    }
    ReloadedHeld(s);
    hide TablesInv, Orderly, Apart, Dropped, Held;
    OrderlyStore(s, s', gone);
  }

  /** What a reload publishes was held before, and what it leaves behind is not published. */
  lemma ReloadedHeld(s: State)
    requires s.reload.TableBuilt? && Apart(s)
    ensures var s' := ReloadStoreStep(s);
            && Apart(s') && Held(s') <= Held(s) && Live(s') !! Dropped(s.reload.prev, s.reload.next)
            && Held(s') == Live(s') + ToRegister(s.inline)
  {
  }

  // ---------------------------------------------------------------- no second drain

  /** Expiry has nothing to retire. */
  lemma NothingToRetire(pipes: seq<Pipe>, t: Table, retired: set<PipeId>)
    requires NoInline(pipes) && InlinePipes(t, pipes, retired)
    ensures retired == {}
  {
  }

  lemma OrderlyStep(cfg: Config, s: State, st: Step)
    requires TablesInv(cfg, s) && FlowInv(cfg, s) && Orderly(s) && DrainsSafely(cfg) && Enabled(cfg, s, st)
    requires (!(cfg.inlineTokens && Room(cfg, 1)) ==> NoInline(s.pipes)) && (st.ReloadStore? ==> Open(s))
    ensures Orderly(Apply(cfg, s, st)) && !Apply(cfg, s, st).panicked
  {
    PanicStep(cfg, s, st);
    hide FlowInv, TablesInv, Orderly, DrainsSafely, NoInline, Room;
    match st
    case ExpireStore(retired) => ExpiresNot(cfg, s, retired); assert false;
    case ReloadStore => OrderlyReload(cfg, s);
    case DrainBegin(pipe) => OrderlyDrain(s, pipe);
    case ShutdownLoad => OrderlyShutdown(cfg, s);
    case _ => hide Apply, Enabled; OrderlyOthers(cfg, s, st);
  }

  lemma ExpiresNot(cfg: Config, s: State, retired: set<PipeId>)
    requires HolderOk(cfg, s) && DrainsSafely(cfg) && (!(cfg.inlineTokens && Room(cfg, 1)) ==> NoInline(s.pipes))
    ensures !(s.inline.Expiring? && retired != {} && InlinePipes(s.inline.prev, s.pipes, retired))
  {
    hide NoInline, Room, GoodTable, InlinePipes, WantsOk, HasRoom;
    if s.inline.Expiring? && InlinePipes(s.inline.prev, s.pipes, retired) {
      NothingToRetire(s.pipes, s.inline.prev, retired);
    }
  }

  lemma InitIdle(cfg: Config, s: State)
    requires Init(cfg, s)
    ensures s.due == multiset{} && s.inline == Free && s.reload == NoReload && !s.panicked
  {
    hide BuiltTable, BuiltPipes, FreshNames, Enumerates, KeysOk;
  }

  lemma LiveBelow(cfg: Config, s: State)
    requires TablesInv(cfg, s)
    ensures forall id <- Live(s) :: id < |s.pipes|
  {
    hide Identities, GoodTable, WantsOk, HolderOk, ReloadOk;
    TableBelow(cfg, s.pipes, s.table);
  }

  lemma OrderlyInit(cfg: Config, s: State)
    requires Init(cfg, s)
    ensures Orderly(s) && !s.panicked
  {
    hide Init, TablesInv, IdsGiven, Live;
    InitIdle(cfg, s);
    TablesInit(cfg, s);
    LiveBelow(cfg, s);
    forall id | 0 <= id < |s.pipes| ensures !s.pipes[id].rawClosed {
      InstalledOpen(cfg, s, id);
    }
  }

  lemma OrderedStep(cfg: Config, states: seq<State>, steps: seq<Step>, k: nat)
    requires OrderedRun(cfg, states, steps) && k < |steps|
    ensures |states| == |steps| + 1 && Enabled(cfg, states[k], steps[k])
            && states[k + 1] == Apply(cfg, states[k], steps[k])
    ensures steps[k].ReloadStore? ==> Open(states[k])
  {
    hide Enabled, Apply, Open, Init;
  }

  lemma {:induction false} OrderlyAlways(cfg: Config, states: seq<State>, steps: seq<Step>, k: nat)
    requires OrderedRun(cfg, states, steps) && DrainsSafely(cfg) && k < |states|
    ensures Orderly(states[k]) && !states[k].panicked
    decreases k
  {
    hide Run, Init, Apply, Enabled, TablesInv, FlowInv, Orderly, DrainsSafely, Room, NoInline, IdsGiven, Open;
    RunStart(cfg, states, steps);
    if k == 0 {
      OrderlyInit(cfg, states[0]);
    } else {
      OrderlyAlways(cfg, states, steps, k - 1);
      TablesAlways(cfg, states, steps, k - 1);
      FlowAlways(cfg, states, steps, k - 1);
      if !(cfg.inlineTokens && Room(cfg, 1)) {
        NoInlineAlways(cfg, states, steps, k - 1);
      }
      OrderedStep(cfg, states, steps, k - 1);
      OrderlyStep(cfg, states[k - 1], steps[k - 1]);
    }
  }

  // ---------------------------------------------------------------- exactly which configurations

  /** No ordered run closes a closed channel or sends on one. */
  ghost predicate NeverHarmed(cfg: Config) {
    forall states: seq<State>, steps: seq<Step>, k ::
      OrderedRun(cfg, states, steps) && 0 <= k < |states| ==> !states[k].panicked
  }

  /** The drain-once promise, with reloads finished before shutdown loads the table: it holds if and only
      if tokens register nothing, or neither expiry nor a reload can meet a registered project. */
  lemma DrainsExact(cfg: Config, codec: Codec, std: Std)
    requires Deployed(cfg, codec, std)
    ensures NeverHarmed(cfg) <==> DrainsSafely(cfg)
  {
    hide OrderedRun, Room, Deployed;
    if DrainsSafely(cfg) {
      forall states: seq<State>, steps: seq<Step>, k | OrderedRun(cfg, states, steps) && 0 <= k < |states|
        ensures !states[k].panicked
      {
        OrderlyAlways(cfg, states, steps, k);
      }
    } else {
      var states, steps := Harms(cfg, codec, std);
      assert states[|states| - 1].panicked;
    }
  }

  lemma NamesApart()
    ensures Letter(NAME_A) && Letter(NAME_B) && NAME_A != NAME_B && TOKEN_T != []
    ensures |NAME_A| == |NAME_B| == 1 && NAME_A != DEFAULT_PROJECT && NAME_B != DEFAULT_PROJECT
  {
    assert |DEFAULT_PROJECT| == 8;
  }

  lemma Harms(cfg: Config, codec: Codec, std: Std) returns (states: seq<State>, steps: seq<Step>)
    requires Deployed(cfg, codec, std) && !DrainsSafely(cfg)
    ensures OrderedRun(cfg, states, steps) && states != [] && Last(states).panicked
  {
    hide OrderedRun, Room, Deployed, Names, Tokened, Doc.Text, Letter, NAME_A, NAME_B, TOKEN_T, DEFAULT_PROJECT;
    NamesApart();
    TokenedNames(cfg, codec, std, NAME_A);
    var raw := Tokened(NAME_A).Text();
    if cfg.inlineIdle > 0 && Room(cfg, 1) {
      states, steps := ExpiryPanics(cfg, raw, NAME_A, TOKEN_T);
    } else {
      TokenedNames(cfg, codec, std, NAME_B);
      states, steps := ReloadPanics(cfg, raw, NAME_A, Tokened(NAME_B).Text(), NAME_B, TOKEN_T);
    }
  }

  /** Every event of every run is posted under a credential. */
  ghost predicate Credentialed(cfg: Config) {
    forall states: seq<State>, steps: seq<Step>, k, j ::
      Run(cfg, states, steps) && 0 <= k < |states| && 0 <= j < |states[k].posts| ==> states[k].posts[j].bearer != []
  }

  /** A keys file and inline tokens are not combined, unless the default project fills the table. */
  predicate KeepsCredentials(cfg: Config) {
    !(cfg.keysFile && cfg.inlineTokens) || (cfg.apiKey != [] && cfg.maxProjects == 1)
  }

  /** The promise that no event is posted under an empty bearer holds in exactly these configurations. */
  lemma CredentialsExact(cfg: Config, codec: Codec, std: Std)
    requires Deployed(cfg, codec, std)
    ensures Credentialed(cfg) <==> KeepsCredentials(cfg)
  {
    hide Run, Deployed;
    if KeepsCredentials(cfg) {
      forall states: seq<State>, steps: seq<Step>, k, j | Run(cfg, states, steps) && 0 <= k < |states|
        && 0 <= j < |states[k].posts|
        ensures states[k].posts[j].bearer != []
      {
        NeverAnonymous(cfg, states, steps, k, j);
      }
    } else {
      var states, steps := PostsAnonymously(cfg, codec, std);
      assert states[|states| - 1].posts[0].bearer == [];
    }
  }

  lemma PostsAnonymously(cfg: Config, codec: Codec, std: Std) returns (states: seq<State>, steps: seq<Step>)
    requires Deployed(cfg, codec, std) && !KeepsCredentials(cfg)
    ensures Run(cfg, states, steps) && states != []
    ensures |Last(states).posts| == 1 && Last(states).posts[0].bearer == []
  {
    hide Run, Names, Tokened, Doc.Text, Letter, NAME_A, TOKEN_T, DEFAULT_PROJECT, Ordinary, Wired;
    var stamp :| cfg.clock(stamp);
    hide Deployed;
    NamesApart();
    TokenedNames(cfg, codec, std, NAME_A);
    PlainNames(cfg, codec, std, stamp);
    states, steps := KeysFilePostsAnonymously(cfg, PLAIN.Text(), Tokened(NAME_A).Text(), NAME_A, TOKEN_T, TOKEN_T,
      stamp);
  }
}
