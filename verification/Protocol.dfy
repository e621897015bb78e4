/** The agent as a state machine: the listener's dispatch, the demuxer, every pipeline's batcher and
    flusher, the writers of the routing table with separate load and store steps, drains and shutdown.
    Each step is one action another goroutine cannot see into. */
module Protocol {
  import opened Bytes
  import opened Events
  import opened Batching
  import opened Stripping
  import F = Flushing
  import opened Registry

  datatype Config = Config(
    apiKey: bytes, keysFile: bool, maxProjects: nat, queueSize: nat, requireProject: bool,
    /** Whether tokens register projects, and how long a project registered so may idle (0: for ever). */
    inlineTokens: bool, inlineIdle: nat,
    maxBatch: nat, maxEventBytes: nat, maxRetries: nat,
    /** `extractAndStripRouting`. */
    route: bytes -> RoutingFields,
    /** `validateEvent` on a body and the clock's rendering. */
    validate: (bytes, bytes) -> Verdict,
    /** The renderings a clock can give. */
    clock: bytes -> bool)
  {
    ghost predicate Valid() {
      queueSize > 0 && maxBatch > 0 && forall b :: |route(b).stripped| <= |b|
    }
  }

  // ---------------------------------------------------------------- the process-wide counters

  datatype Tally = Tally(
    parseError: nat, queueFull: nat, oversize: nat, flushFailed: nat, shutdown: nat, routingClosed: nat,
    unroutedMissing: nat, unroutedUnknown: nat, badToken: nat, missingToken: nat, sent: nat)

  const ZERO_TALLY := Tally(0, 0, 0, 0, 0, 0, 0, 0, 0, 0, 0)

  function Add(a: Tally, b: Tally): Tally {
    Tally(a.parseError + b.parseError, a.queueFull + b.queueFull, a.oversize + b.oversize,
      a.flushFailed + b.flushFailed,
          a.shutdown + b.shutdown, a.routingClosed + b.routingClosed, a.unroutedMissing + b.unroutedMissing,
          a.unroutedUnknown + b.unroutedUnknown, a.badToken + b.badToken, a.missingToken + b.missingToken,
            a.sent + b.sent)
  }

  /** Every event that left the agent by a process-wide counter. */
  function Total(t: Tally): nat {
    t.parseError + t.queueFull + t.oversize + t.flushFailed + t.shutdown + t.routingClosed
    + t.unroutedMissing + t.unroutedUnknown + t.badToken + t.missingToken + t.sent
  }

  // ---------------------------------------------------------------- the state

  /** How far `dispatch` has come with a datagram. */
  datatype Phase =
    | Arrived
    | Routed
    | WantsInline
    | Found(pipe: PipeId)
    | Admitted(pipe: PipeId)

  datatype Dispatch = Dispatch(dg: Datagram, phase: Phase)

  datatype Demux = Waiting | Taken(dg: Datagram) | Holding(dg: Datagram, pipe: PipeId) | Exited

  /** The keys-file writer, under its own mutex. `seen` is the table version at its load. */
  datatype Reload =
    | NoReload
    | KeysRead(keys: map<bytes, bytes>)
    | TableLoaded(keys: map<bytes, bytes>, prev: Table, seen: nat)
    | TableBuilt(keys: map<bytes, bytes>, prev: Table, next: Table, base: nat, seen: nat)

  /** The holder of the inline mutex: a registration for the datagram `id`, or an expiry. */
  datatype Inline =
    | Free
    | LookupMissed(id: nat, seen: nat)
    | RoomChecked(id: nat, prev: Table, seen: nat)
    | PipeMade(id: nat, prev: Table, pipe: PipeId, seen: nat)
    | Expiring(prev: Table, seen: nat)

  datatype Shutdown = Running | QueueClosed | Draining | Finished

  datatype Posted = Posted(pipe: PipeId, bearer: bytes, batch: Batch)

  datatype State = State(
    received: nat, tally: Tally,
    /** Datagrams whose project was gone at the demuxer: booked under routing_closed process-wide only. */
    misses: nat,
    dispatching: map<nat, Dispatch>,
    shared: seq<Datagram>, sharedClosed: bool, demux: Demux,
    table: Table, version: nat, pipes: seq<Pipe>,
    reload: Reload, inline: Inline,
    /** Drains that were started and have not closed their pipeline's queue yet. */
    due: multiset<PipeId>,
    shut: Shutdown,
    /** The datagrams that have left: dropped or sent. */
    settled: multiset<nat>,
    posts: seq<Posted>,
    /** A send on, or a second close of, a closed channel. */
    panicked: bool)

  // ---------------------------------------------------------------- steps of one pipeline

  datatype PipeStep =
    | Accept(stamp: bytes)
    | FlushCur
    | Emit
    | Abandon
    | BatcherExit
    | TakeBatch
    | Attempt(reply: F.Reply)
    | CutWait
    | FlusherExit
    | CloseBatches
    | Cancel

  /** What a pipeline step changes: the pipeline, its own and the process-wide counters, who has left,
      what was posted. */
  datatype Effect = Effect(pipe: Pipe, booked: Stats, tally: Tally, left: multiset<nat>, posted: Option<Batch>,
    panic: bool)

  function Quiet(p: Pipe): Effect { Effect(p, NO_STATS, ZERO_TALLY, multiset{}, None, false) }

  function ItemIds(items: seq<Item>): multiset<nat> {
    if items == [] then multiset{} else ItemIds(items[..|items| - 1]) + multiset{items[|items| - 1].dg.id}
  }

  /** At the head of its select loop the batcher is not blocked on a flush and its batch has room. */
  predicate AtSelect(cfg: Config, p: Pipe) { !p.batcherDone && p.pending == None && |p.cur| < cfg.maxBatch }

  predicate PipeEnabled(cfg: Config, p: Pipe, st: PipeStep) {
    match st
    case Accept(stamp) => AtSelect(cfg, p) && p.raw != [] && cfg.clock(stamp)
    case FlushCur => !p.batcherDone && p.pending == None && p.cur != []
    case Emit => p.pending.Some? && |p.batches| < BATCH_SLOTS
    case Abandon => p.pending.Some? && p.cancelled
    case BatcherExit => AtSelect(cfg, p) && p.raw == [] && p.rawClosed && p.cur == []
    case TakeBatch => !p.flushDone && p.sending == None && p.batches != []
    case Attempt(reply) => p.sending.Some? && (reply == F.Canceled ==> p.cancelled)
    case CutWait => p.sending.Some? && p.sending.value.attempts > 0 && p.cancelled
    case FlusherExit => !p.flushDone && p.sending == None && p.batches == [] && p.batchClosed
    case CloseBatches => p.rawClosed && p.batcherDone && !p.batchClosed
    case Cancel => p.rawClosed && !p.cancelled
  }

  function Bump(p: Pipe, st: Stats): Pipe { p.(stats := AddStats(p.stats, st)) }

  function OpenOf(p: Pipe): Collecting { Collecting(p.cur, p.firstSeen, p.curToken) }

  /** The batcher's part of the pipeline after a datagram. */
  function Refilled(p: Pipe, open: Collecting, pending: Option<Batch>): Pipe
    requires p.raw != []
  {
    p.(raw := p.raw[1..], cur := open.items, firstSeen := open.firstSeen, curToken := open.token, pending := pending)
  }

  function AcceptStep(cfg: Config, p: Pipe, stamp: bytes): Effect
    requires p.raw != []
  {
    var dg := p.raw[0];
    match cfg.validate(dg.body, stamp)
    case Oversize =>
      Effect(p.(raw := p.raw[1..]), NO_STATS.(oversize := 1), ZERO_TALLY.(oversize := 1), multiset{dg.id}, None, false)
    case ParseError =>
      Effect(p.(raw := p.raw[1..]), NO_STATS.(parseError := 1), ZERO_TALLY.(parseError := 1), multiset{dg.id}, None,
        false)
    case Accepted(ev) =>
      var open := OpenOf(p);
      Quiet(if Overflows(open, ev) then Refilled(p, Extended(NO_BATCH, Item(dg, ev)), Some(Closed(open)))
            else Refilled(p, Extended(open, Item(dg, ev)), p.pending)).(booked := NO_STATS.(received := 1))
  }

  /** The batch in the flusher's hands ends with this counter. */
  function Finish(p: Pipe, e: F.Ending, posted: bool): Effect
    requires p.sending.Some?
  {
    var b := p.sending.value.batch;
    var n := |b.items|;
    var q := p.(sending := None);
    var post := if posted then Some(b) else None;
    match e
    case Sent => Effect(q, NO_STATS.(sent := n), ZERO_TALLY.(sent := n), ItemIds(b.items), post, false)
    case Failed => Effect(q, NO_STATS.(flushFailed := n), ZERO_TALLY.(flushFailed := n), ItemIds(b.items), post, false)
    case Cut => Effect(q, NO_STATS.(shutdown := n), ZERO_TALLY.(shutdown := n), ItemIds(b.items), post, false)
  }

  function AttemptStep(cfg: Config, p: Pipe, reply: F.Reply): Effect
    requires p.sending.Some?
  {
    var s := p.sending.value;
    match reply
    case Delivered => Finish(p, F.Sent, true)
    case Canceled => Finish(p, F.Cut, true)
    case Fatal => Finish(p, F.Failed, true)
    case Retryable =>
      if s.attempts + 1 > cfg.maxRetries then Finish(p, F.Failed, true)
      else Quiet(p.(sending := Some(s.(attempts := s.attempts + 1)))).(posted := Some(s.batch))
  }

  function PipeEffect(cfg: Config, p: Pipe, st: PipeStep): Effect
    requires PipeEnabled(cfg, p, st)
  {
    match st
    case Accept(stamp) => AcceptStep(cfg, p, stamp)
    case FlushCur =>
      Quiet(p.(pending := Some(Closed(OpenOf(p))), cur := [], firstSeen := 0, curToken := []))
    case Emit => Quiet(p.(pending := None, batches := p.batches + [p.pending.value])).(panic := p.batchClosed)
    case Abandon =>
      var n := |p.pending.value.items|;
      Effect(p.(pending := None), NO_STATS.(shutdown := n), ZERO_TALLY.(shutdown := n), ItemIds(p.pending.value.items),
        None, false)
    case BatcherExit => Quiet(p.(batcherDone := true))
    case TakeBatch => Quiet(p.(batches := p.batches[1..], sending := Some(Sending(p.batches[0], 0))))
    case Attempt(reply) => AttemptStep(cfg, p, reply)
    case CutWait => Finish(p, F.Cut, false)
    case FlusherExit => Quiet(p.(flushDone := true))
    case CloseBatches => Quiet(p.(batchClosed := true))
    case Cancel => Quiet(p.(cancelled := true))
  }

  // ---------------------------------------------------------------- steps of the whole agent

  datatype Step =
    | Deliver(raw: bytes, at: int)
    | RouteOne(id: nat)
    | LookUp(id: nat)
    | RegisterLock(id: nat)
    | RegisterLoad
    | RegisterMake
    | RegisterStore
    | Admit(id: nat)
    | Enqueue(id: nat)
    | DemuxTake
    | DemuxLookup
    | DemuxSend
    | DemuxExit
    | OnPipe(pipe: PipeId, st: PipeStep)
    | DrainBegin(pipe: PipeId)
    | ReloadRead(keys: map<bytes, bytes>)
    | ReloadLoad
    | ReloadBuild(order: seq<bytes>)
    | ReloadStore
    | ExpireLoad
    | ExpireStore(retired: set<PipeId>)
    | ExpireQuit
    | CloseShared
    | ShutdownLoad
    | ShutdownDone

  /** What a keys file and the configured key can name: no empty names or keys, and the reserved
      default project exactly when a key is configured for it. */
  ghost predicate KeysOk(cfg: Config, keys: map<bytes, bytes>) {
    && (forall n <- keys :: n != [] && keys[n] != [])
    && (DEFAULT_PROJECT in keys <==> cfg.apiKey != [])
    && (cfg.apiKey != [] ==> keys[DEFAULT_PROJECT] == cfg.apiKey)
    && (cfg.maxProjects > 0 ==> |keys| <= cfg.maxProjects)
  }

  /** The name and key that the configuration alone gives. */
  function Base(cfg: Config): (keys: map<bytes, bytes>)
    ensures |keys| == if cfg.apiKey == [] then 0 else 1
  {
    if cfg.apiKey == [] then map[] else map[DEFAULT_PROJECT := cfg.apiKey]
  }

  /** The project cap leaves room for `n` projects besides the configured one. */
  predicate Room(cfg: Config, n: nat) { cfg.maxProjects == 0 || |Base(cfg)| + n <= cfg.maxProjects }

  predicate InlinePipes(t: Table, pipes: seq<Pipe>, ids: set<PipeId>) {
    forall id <- ids :: id in t.names.Values && id < |pipes| && pipes[id].inline
  }

  predicate InPhase(s: State, id: nat, ph: Phase) { id in s.dispatching && s.dispatching[id].phase == ph }

  predicate FoundOne(s: State, id: nat) {
    id in s.dispatching && s.dispatching[id].phase.Found? && s.dispatching[id].phase.pipe < |s.pipes|
  }

  predicate AdmittedOne(s: State, id: nat) {
    id in s.dispatching && s.dispatching[id].phase.Admitted? && s.dispatching[id].phase.pipe < |s.pipes|
  }

  predicate AllDrained(pipes: seq<Pipe>) { forall k :: 0 <= k < |pipes| ==> pipes[k].rawClosed ==> pipes[k].flushDone }

  ghost predicate Enabled(cfg: Config, s: State, st: Step) {
    !s.panicked &&
    match st
    case Deliver(raw, at) => |raw| <= cfg.maxEventBytes + 1
    case RouteOne(id) => InPhase(s, id, Arrived)
    case LookUp(id) => InPhase(s, id, Routed)
    case RegisterLock(id) => InPhase(s, id, WantsInline) && s.inline == Free
    case RegisterLoad => s.inline.LookupMissed? && InPhase(s, s.inline.id, WantsInline)
    case RegisterMake => s.inline.RoomChecked? && InPhase(s, s.inline.id, WantsInline)
    case RegisterStore => s.inline.PipeMade? && InPhase(s, s.inline.id, WantsInline)
    case Admit(id) => FoundOne(s, id)
    case Enqueue(id) => AdmittedOne(s, id)
    case DemuxTake => s.demux == Waiting && s.shared != []
    case DemuxLookup => s.demux.Taken?
    case DemuxSend => s.demux.Holding? && s.demux.pipe < |s.pipes|
    case DemuxExit => s.demux == Waiting && s.shared == [] && s.sharedClosed
    case OnPipe(pipe, pst) => pipe < |s.pipes| && PipeEnabled(cfg, s.pipes[pipe], pst)
    case DrainBegin(pipe) => s.due[pipe] > 0 && pipe < |s.pipes|
    case ReloadRead(keys) => cfg.keysFile && s.reload == NoReload && KeysOk(cfg, keys)
    case ReloadLoad => s.reload.KeysRead? && InRange(s.table, s.pipes)
    case ReloadBuild(order) =>
      && s.reload.TableLoaded? && InRange(s.reload.prev, s.pipes)
      && Enumerates(order, FreshNames(s.reload.keys, s.reload.prev, s.pipes))
    case ReloadStore => s.reload.TableBuilt?
    case ExpireLoad => s.inline == Free && cfg.inlineTokens && cfg.inlineIdle > 0
    case ExpireStore(retired) => s.inline.Expiring? && retired != {} && InlinePipes(s.inline.prev, s.pipes, retired)
    case ExpireQuit => s.inline.Expiring?
    case CloseShared => s.shut == Running
    case ShutdownLoad => s.shut == QueueClosed && s.demux == Exited
    case ShutdownDone => s.shut == Draining && s.due == multiset{} && AllDrained(s.pipes)
  }

  function Advance(s: State, id: nat, d: Dispatch): State { s.(dispatching := s.dispatching[id := d]) }

  /** A dispatched datagram leaves by a process-wide counter. */
  function Drop(s: State, id: nat, t: Tally): State {
    s.(dispatching := s.dispatching - {id}, tally := Add(s.tally, t), settled := s.settled + multiset{id})
  }

  /** A pipeline's own counters move. */
  function Book(s: State, pipe: PipeId, st: Stats): State
    requires pipe < |s.pipes|
  {
    s.(pipes := s.pipes[pipe := Bump(s.pipes[pipe], st)])
  }

  function RouteStep(cfg: Config, s: State, id: nat): State
    requires id in s.dispatching
  {
    var dg := s.dispatching[id].dg;
    var f := cfg.route(dg.body);
    if f.malformed then Drop(s, id, ZERO_TALLY.(parseError := 1))
    else if f.badProject then Drop(s, id, ZERO_TALLY.(unroutedUnknown := 1))
    else if f.badToken && cfg.inlineTokens then Drop(s, id, ZERO_TALLY.(badToken := 1))
    else
      Advance(s, id, Dispatch(dg.(body := if f.removed then f.stripped else dg.body, project := f.project,
                                  token := if cfg.inlineTokens then f.token else []), Routed))
  }

  function Unrouted(s: State, id: nat): State
    requires id in s.dispatching
  {
    Drop(s, id, if s.dispatching[id].dg.project == [] then ZERO_TALLY.(unroutedMissing := 1)
      else ZERO_TALLY.(unroutedUnknown := 1))
  }

  function LookUpStep(cfg: Config, s: State, id: nat): State
    requires id in s.dispatching
  {
    var dg := s.dispatching[id].dg;
    match Lookup(s.table, cfg.requireProject, dg.project)
    case Some(p) => Advance(s, id, Dispatch(dg, Found(p)))
    case None =>
      if cfg.inlineTokens && dg.token != [] && dg.project != [] then Advance(s, id, Dispatch(dg, WantsInline))
      else Unrouted(s, id)
  }

  function RegisterLockStep(cfg: Config, s: State, id: nat): State
    requires id in s.dispatching
  {
    var dg := s.dispatching[id].dg;
    match Lookup(s.table, cfg.requireProject, dg.project)
    case Some(p) => Advance(s, id, Dispatch(dg, Found(p)))
    case None => s.(inline := LookupMissed(id, s.version))
  }

  function RegisterLoadStep(cfg: Config, s: State): State
    requires s.inline.LookupMissed? && s.inline.id in s.dispatching
  {
    if cfg.maxProjects > 0 && |s.table.names| >= cfg.maxProjects then Unrouted(s, s.inline.id).(inline := Free)
    else s.(inline := RoomChecked(s.inline.id, s.table, s.inline.seen))
  }

  function RegisterMakeStep(s: State): State
    requires s.inline.RoomChecked? && s.inline.id in s.dispatching
  {
    var p := Start(NewPipe(s.dispatching[s.inline.id].dg.project, [], true));
    s.(pipes := s.pipes + [p], inline := PipeMade(s.inline.id, s.inline.prev, |s.pipes|, s.inline.seen))
  }

  function RegisterStoreStep(s: State): State
    requires s.inline.PipeMade? && s.inline.id in s.dispatching
  {
    var w := s.inline;
    var dg := s.dispatching[w.id].dg;
    Advance(s, w.id, Dispatch(dg, Found(w.pipe)))
      .(table := w.prev.(names := w.prev.names[dg.project := w.pipe]), version := s.version + 1, inline := Free)
  }

  function AdmitStep(s: State, id: nat): State
    requires FoundOne(s, id)
  {
    var d := s.dispatching[id];
    var p := s.pipes[d.phase.pipe];
    if p.inline && d.dg.token == [] then
      Book(Drop(s, id, ZERO_TALLY.(missingToken := 1)), d.phase.pipe, NO_STATS.(missingToken := 1))
    else if p.rawClosed then
      Book(Drop(s, id, ZERO_TALLY.(routingClosed := 1)), d.phase.pipe, NO_STATS.(routingClosed := 1))
    else Advance(s, id, Dispatch(d.dg, Admitted(d.phase.pipe)))
  }

  function EnqueueStep(cfg: Config, s: State, id: nat): State
    requires AdmittedOne(s, id)
  {
    var d := s.dispatching[id];
    if s.sharedClosed then
      Book(Drop(s, id, ZERO_TALLY.(routingClosed := 1)), d.phase.pipe, NO_STATS.(routingClosed := 1))
    else if |s.shared| < cfg.queueSize then
      s.(dispatching := s.dispatching - {id}, shared := s.shared + [d.dg])
    else Drop(s, id, ZERO_TALLY.(queueFull := 1))
  }

  function DemuxLookupStep(cfg: Config, s: State): State
    requires s.demux.Taken?
  {
    var dg := s.demux.dg;
    match Lookup(s.table, cfg.requireProject, dg.project)
    case Some(p) => s.(demux := Holding(dg, p))
    case None =>
      s.(demux := Waiting, tally := Add(s.tally, ZERO_TALLY.(routingClosed := 1)), misses := s.misses + 1,
         settled := s.settled + multiset{dg.id})
  }

  function DemuxSendStep(s: State): State
    requires s.demux.Holding? && s.demux.pipe < |s.pipes|
  {
    var dg, id := s.demux.dg, s.demux.pipe;
    var p := s.pipes[id];
    var t := s.(demux := Waiting);
    if p.rawClosed then
      Book(t.(tally := Add(s.tally, ZERO_TALLY.(routingClosed := 1)), settled := s.settled + multiset{dg.id}),
           id, NO_STATS.(routingClosed := 1))
    else if |p.raw| < HANDOFF_DEPTH then t.(pipes := s.pipes[id := p.(raw := p.raw + [dg])])
    else Book(t.(settled := s.settled + multiset{dg.id}), id, NO_STATS.(queueFull := 1))
  }

  function OnPipeStep(cfg: Config, s: State, pipe: PipeId, pst: PipeStep): State
    requires pipe < |s.pipes| && PipeEnabled(cfg, s.pipes[pipe], pst)
  {
    var e := PipeEffect(cfg, s.pipes[pipe], pst);
    s.(pipes := s.pipes[pipe := Bump(e.pipe, e.booked)], tally := Add(s.tally, e.tally), settled := s.settled + e.left,
       posts := if e.posted.Some?
         then s.posts + [Posted(pipe, F.Bearer(s.pipes[pipe].key, e.posted.value), e.posted.value)] else s.posts,
       panicked := s.panicked || e.panic)
  }

  function DrainBeginStep(s: State, pipe: PipeId): State
    requires pipe < |s.pipes|
  {
    s.(due := s.due - multiset{pipe}, pipes := s.pipes[pipe := s.pipes[pipe].(rawClosed := true)],
       panicked := s.pipes[pipe].rawClosed)
  }

  function ReloadLoadStep(s: State): State
    requires s.reload.KeysRead? && InRange(s.table, s.pipes)
  {
    if KeyMap(s.table, s.pipes) == s.reload.keys then s.(reload := NoReload)
    else s.(reload := TableLoaded(s.reload.keys, s.table, s.version))
  }

  function ReloadBuildStep(s: State, order: seq<bytes>): State
    requires s.reload.TableLoaded? && InRange(s.reload.prev, s.pipes)
    requires Enumerates(order, FreshNames(s.reload.keys, s.reload.prev, s.pipes))
  {
    var w := s.reload;
    s.(pipes := BuiltPipes(w.keys, s.pipes, order),
       reload := TableBuilt(w.keys, w.prev, BuiltTable(w.keys, w.prev, s.pipes, order), |s.pipes|, w.seen))
  }

  function ReloadStoreStep(s: State): State
    requires s.reload.TableBuilt?
  {
    s.(table := s.reload.next, version := s.version + 1, reload := NoReload,
       due := s.due + multiset(Dropped(s.reload.prev, s.reload.next)))
  }

  /** The table without the retired pipelines. */
  function Without(t: Table, retired: set<PipeId>): Table {
    t.(names := map n | n in t.names && t.names[n] !in retired :: t.names[n])
  }

  function ExpireStoreStep(s: State, retired: set<PipeId>): State
    requires s.inline.Expiring?
  {
    s.(table := Without(s.inline.prev, retired), version := s.version + 1, inline := Free,
      due := s.due + multiset(retired))
  }

  function Apply(cfg: Config, s: State, st: Step): State
    requires Enabled(cfg, s, st)
  {
    match st
    case Deliver(raw, at) =>
      s.(received := s.received + 1,
         dispatching := s.dispatching[s.received := Dispatch(Datagram(s.received, raw, at, raw, [], []), Arrived)])
    case RouteOne(id) => RouteStep(cfg, s, id)
    case LookUp(id) => LookUpStep(cfg, s, id)
    case RegisterLock(id) => RegisterLockStep(cfg, s, id)
    case RegisterLoad => RegisterLoadStep(cfg, s)
    case RegisterMake => RegisterMakeStep(s)
    case RegisterStore => RegisterStoreStep(s)
    case Admit(id) => AdmitStep(s, id)
    case Enqueue(id) => EnqueueStep(cfg, s, id)
    case DemuxTake => s.(demux := Taken(s.shared[0]), shared := s.shared[1..])
    case DemuxLookup => DemuxLookupStep(cfg, s)
    case DemuxSend => DemuxSendStep(s)
    case DemuxExit => s.(demux := Exited)
    case OnPipe(pipe, pst) => OnPipeStep(cfg, s, pipe, pst)
    case DrainBegin(pipe) => DrainBeginStep(s, pipe)
    case ReloadRead(keys) => s.(reload := KeysRead(keys))
    case ReloadLoad => ReloadLoadStep(s)
    case ReloadBuild(order) => ReloadBuildStep(s, order)
    case ReloadStore => ReloadStoreStep(s)
    case ExpireLoad => s.(inline := Expiring(s.table, s.version))
    case ExpireStore(retired) => ExpireStoreStep(s, retired)
    case ExpireQuit => s.(inline := Free)
    case CloseShared => s.(sharedClosed := true, shut := QueueClosed)
    case ShutdownLoad => s.(due := s.due + multiset(s.table.names.Values), shut := Draining)
    case ShutdownDone => s.(shut := Finished)
  }

  // ---------------------------------------------------------------- runs

  const EMPTY_TABLE := Table(map[], false)

  /** The state `install` leaves: every configured name with its own started pipeline. */
  function Installed(keys: map<bytes, bytes>, order: seq<bytes>): State
    requires Enumerates(order, FreshNames(keys, EMPTY_TABLE, []))
  {
    State(0, ZERO_TALLY, 0, map[], [], false, Waiting, BuiltTable(keys, EMPTY_TABLE, [], order), 0,
          BuiltPipes(keys, [], order), NoReload, Free, multiset{}, Running, multiset{}, [], false)
  }

  ghost predicate Init(cfg: Config, s: State) {
    exists keys, order ::
      && KeysOk(cfg, keys) && (!cfg.keysFile ==> forall n <- keys :: n == DEFAULT_PROJECT)
      && Enumerates(order, FreshNames(keys, EMPTY_TABLE, [])) && s == Installed(keys, order)
  }

  /** A run: the states passed and the steps taken between them. */
  ghost predicate Run(cfg: Config, states: seq<State>, steps: seq<Step>) {
    && |states| == |steps| + 1 && Init(cfg, states[0])
    && forall k :: 0 <= k < |steps| ==>
         Enabled(cfg, states[k], steps[k]) && states[k + 1] == Apply(cfg, states[k], steps[k])
  }

  function Last(states: seq<State>): State
    requires states != []
  {
    states[|states| - 1]
  }

  lemma RunOne(cfg: Config, s: State)
    requires Init(cfg, s)
    ensures Run(cfg, [s], [])
  {
  }

  /** One more enabled step makes a longer run. */
  lemma RunMore(cfg: Config, states: seq<State>, steps: seq<Step>, st: Step)
    requires Run(cfg, states, steps) && Enabled(cfg, Last(states), st)
    ensures Run(cfg, states + [Apply(cfg, Last(states), st)], steps + [st])
  {
    hide Enabled, Apply, Init;
    var states', steps' := states + [Apply(cfg, Last(states), st)], steps + [st];
    forall k | 0 <= k < |steps'|
      ensures Enabled(cfg, states'[k], steps'[k]) && states'[k + 1] == Apply(cfg, states'[k], steps'[k])
    {
      if k < |steps| {
        assert states'[k] == states[k] && states'[k + 1] == states[k + 1] && steps'[k] == steps[k];
      }
    }
  }

  lemma RunStart(cfg: Config, states: seq<State>, steps: seq<Step>)
    requires Run(cfg, states, steps)
    ensures |states| == |steps| + 1 && Init(cfg, states[0])
  {
  }

  lemma RunStep(cfg: Config, states: seq<State>, steps: seq<Step>, k: nat)
    requires Run(cfg, states, steps) && k < |steps|
    ensures |states| == |steps| + 1 && Enabled(cfg, states[k], steps[k])
            && states[k + 1] == Apply(cfg, states[k], steps[k])
  {
  }
}
