/** What the queues hold: capacities, well-formed batches, and where every event and credential comes from. */
module FlowLaws {
  import opened Bytes
  import opened Events
  import opened Batching
  import F = Flushing
  import opened Registry
  import opened Protocol
  import opened TableLaws

  // ---------------------------------------------------------------- provenance

  /** The datagram's body, project and token are what the extraction made of the bytes received. */
  predicate Genuine(cfg: Config, dg: Datagram) {
    var f := cfg.route(dg.raw);
    && |dg.raw| <= cfg.maxEventBytes + 1
    && !f.malformed && !f.badProject && !(f.badToken && cfg.inlineTokens)
    && dg.body == (if f.removed then f.stripped else dg.raw)
    && dg.project == f.project && dg.token == (if cfg.inlineTokens then f.token else [])
  }

  /** The part of a pipeline's identity that decides which datagrams it may hold. */
  datatype Owner = Owner(project: bytes, inline: bool)

  function OwnerOf(p: Pipe): Owner { Owner(p.project, p.inline) }

  /** The datagram names the owner's project, or names none, may do so, and the owner is the default pipeline. */
  predicate Belongs(cfg: Config, o: Owner, dg: Datagram) {
    if dg.project == [] then !cfg.requireProject && o.project == DEFAULT_PROJECT else dg.project == o.project
  }

  /** Without a keys file, a datagram without a token is one for the configured default key; where a project
      is required, every datagram names one. */
  predicate Authorized(cfg: Config, dg: Datagram) {
    && (!cfg.keysFile && dg.token == [] ==> cfg.apiKey != [] && (dg.project == [] || dg.project == DEFAULT_PROJECT))
    && (cfg.requireProject ==> dg.project != [])
  }

  predicate DgOk(cfg: Config, o: Owner, dg: Datagram) {
    Genuine(cfg, dg) && Belongs(cfg, o, dg) && (!cfg.keysFile && o.inline ==> dg.token != [])
  }

  /** The event is what validation made of the datagram's body at some rendering of the clock. */
  ghost predicate Validated(cfg: Config, it: Item) {
    exists stamp :: cfg.clock(stamp) && cfg.validate(it.dg.body, stamp) == Accepted(it.event)
  }

  ghost predicate ItemsOk(cfg: Config, o: Owner, items: seq<Item>) {
    forall k :: 0 <= k < |items| ==> DgOk(cfg, o, items[k].dg) && Validated(cfg, items[k])
  }

  ghost predicate BatchOk(cfg: Config, o: Owner, b: Batch) { Sealed(b, cfg.maxBatch) && ItemsOk(cfg, o, b.items) }

  // ---------------------------------------------------------------- one pipeline

  ghost predicate Queues(cfg: Config, p: Pipe) {
    && |p.raw| <= HANDOFF_DEPTH && (forall k :: 0 <= k < |p.raw| ==> DgOk(cfg, OwnerOf(p), p.raw[k]))
    && |p.batches| <= BATCH_SLOTS && (forall k :: 0 <= k < |p.batches| ==> BatchOk(cfg, OwnerOf(p), p.batches[k]))
    && (p.pending.Some? ==> BatchOk(cfg, OwnerOf(p), p.pending.value))
    && (p.sending.Some? ==>
          BatchOk(cfg, OwnerOf(p), p.sending.value.batch) && p.sending.value.attempts <= cfg.maxRetries)
  }

  /** The batcher's open batch. */
  ghost predicate OpenOk(cfg: Config, o: Owner, cur: seq<Item>, curToken: bytes, firstSeen: int) {
    && |cur| <= cfg.maxBatch && curToken == LastToken(cur) && ItemsOk(cfg, o, cur)
    && (cur != [] ==> firstSeen == cur[0].dg.at && Fits(cur))
  }

  ghost predicate OpenBatch(cfg: Config, p: Pipe) { OpenOk(cfg, OwnerOf(p), p.cur, p.curToken, p.firstSeen) }

  /** Channels close in order, and what is behind a closed channel is finished. */
  predicate Closing(p: Pipe) {
    && (p.batcherDone ==> p.rawClosed && p.raw == [] && p.cur == [] && p.pending == None)
    && (p.batchClosed ==> p.batcherDone)
    && (p.flushDone ==> p.batchClosed && p.batches == [] && p.sending == None)
    && (p.cancelled ==> p.rawClosed)
  }

  ghost predicate PipeOk(cfg: Config, p: Pipe) { Queues(cfg, p) && OpenBatch(cfg, p) && Closing(p) }

  lemma ClosingKept(cfg: Config, p: Pipe, st: PipeStep)
    requires Closing(p) && PipeEnabled(cfg, p, st)
    ensures Closing(PipeEffect(cfg, p, st).pipe) && !PipeEffect(cfg, p, st).panic
  {
    hide ItemIds, ItemsWeight, Extended, Overflows, Closed, NO_STATS, ZERO_TALLY;
  }

  lemma AppendOpen(cfg: Config, o: Owner, cur: seq<Item>, curToken: bytes, firstSeen: int, it: Item)
    requires OpenOk(cfg, o, cur, curToken, firstSeen) && |cur| < cfg.maxBatch
    requires DgOk(cfg, o, it.dg) && Validated(cfg, it)
    requires cur != [] ==> ItemsWeight(cur) + |it.event| + 1 <= MAX_BATCH_BYTES
    ensures OpenOk(cfg, o, cur + [it], if it.dg.token != [] then it.dg.token else curToken,
                   if cur == [] then it.dg.at else firstSeen)
  {
    hide DgOk, Validated, ItemsWeight, LastToken;
    LastTokenSnoc(cur, it);
    ItemsWeightSnoc(cur, it);
  }

  lemma FreshOpen(cfg: Config, o: Owner, it: Item)
    requires cfg.maxBatch > 0 && DgOk(cfg, o, it.dg) && Validated(cfg, it)
    ensures OpenOk(cfg, o, [it], it.dg.token, it.dg.at)
  {
    hide DgOk, Validated, ItemsWeight, LastToken;
    EmptyBatch();
    LastTokenSnoc([], it);
    assert [] + [it] == [it];
  }

  lemma SealOpen(cfg: Config, o: Owner, cur: seq<Item>, curToken: bytes, firstSeen: int)
    requires OpenOk(cfg, o, cur, curToken, firstSeen) && cur != []
    ensures BatchOk(cfg, o, Batch(cur, firstSeen, curToken))
  {
  }

  lemma TailOk(cfg: Config, p: Pipe)
    requires Queues(cfg, p) && p.raw != []
    ensures Queues(cfg, p.(raw := p.raw[1..])) && DgOk(cfg, OwnerOf(p), p.raw[0])
  {
    hide DgOk, BatchOk;
  }

  lemma AcceptOpen(cfg: Config, p: Pipe, stamp: bytes)
    requires Queues(cfg, p) && OpenBatch(cfg, p) && PipeEnabled(cfg, p, Accept(stamp))
    ensures Queues(cfg, AcceptStep(cfg, p, stamp).pipe) && OpenBatch(cfg, AcceptStep(cfg, p, stamp).pipe)
  {
    hide DgOk, BatchOk, OpenOk, Validated, ItemsWeight;
    TailOk(cfg, p);
    var dg := p.raw[0];
    match cfg.validate(dg.body, stamp)
    case Accepted(ev) =>
      var it := Item(dg, ev);
      assert Validated(cfg, it) by { ValidatedAt(cfg, it, stamp); }
      OpenHasRoom(cfg, p, stamp);
      assert [] + [it] == [it];
      if p.cur != [] && ItemsWeight(p.cur) + |ev| + 1 > MAX_BATCH_BYTES {
        SealOpen(cfg, OwnerOf(p), p.cur, p.curToken, p.firstSeen);
        FreshOpen(cfg, OwnerOf(p), it);
      } else {
        AppendOpen(cfg, OwnerOf(p), p.cur, p.curToken, p.firstSeen, it);
      }
    case _ =>
  }

  lemma OpenHasRoom(cfg: Config, p: Pipe, stamp: bytes)
    requires PipeEnabled(cfg, p, Accept(stamp))
    ensures |p.cur| < cfg.maxBatch
  {
  }

  lemma ValidatedAt(cfg: Config, it: Item, stamp: bytes)
    requires cfg.clock(stamp) && cfg.validate(it.dg.body, stamp) == Accepted(it.event)
    ensures Validated(cfg, it)
  {
  }

  lemma NothingOpen(cfg: Config, o: Owner)
    ensures OpenOk(cfg, o, [], [], 0)
  {
  }

  lemma FlushOpen(cfg: Config, p: Pipe)
    requires Queues(cfg, p) && OpenBatch(cfg, p) && PipeEnabled(cfg, p, FlushCur)
    ensures Queues(cfg, PipeEffect(cfg, p, FlushCur).pipe) && OpenBatch(cfg, PipeEffect(cfg, p, FlushCur).pipe)
  {
    hide DgOk, BatchOk, OpenOk;
    SealOpen(cfg, OwnerOf(p), p.cur, p.curToken, p.firstSeen);
    NothingOpen(cfg, OwnerOf(p));
  }

  lemma SentQueues(cfg: Config, p: Pipe, q: Pipe)
    requires Queues(cfg, p) && OpenBatch(cfg, p) && p.sending.Some? && q == p.(sending := q.sending)
    requires q.sending.Some? ==>
               q.sending.value.batch == p.sending.value.batch && q.sending.value.attempts <= cfg.maxRetries
    ensures Queues(cfg, q) && OpenBatch(cfg, q)
  {
    hide DgOk, BatchOk, OpenOk;
  }

  lemma SendOpen(cfg: Config, p: Pipe, st: PipeStep)
    requires Queues(cfg, p) && OpenBatch(cfg, p) && PipeEnabled(cfg, p, st) && (st.Attempt? || st.CutWait?)
    ensures Queues(cfg, PipeEffect(cfg, p, st).pipe) && OpenBatch(cfg, PipeEffect(cfg, p, st).pipe)
  {
    hide PipeEffect, PipeEnabled, Queues, OpenBatch;
    SendEffect(cfg, p, st);
    SentQueues(cfg, p, PipeEffect(cfg, p, st).pipe);
  }

  lemma QueueOpen(cfg: Config, p: Pipe, st: PipeStep)
    requires Queues(cfg, p) && OpenBatch(cfg, p) && PipeEnabled(cfg, p, st)
             && (st.Emit? || st.TakeBatch? || st.Abandon?)
    ensures Queues(cfg, PipeEffect(cfg, p, st).pipe) && OpenBatch(cfg, PipeEffect(cfg, p, st).pipe)
  {
    hide DgOk, BatchOk, OpenOk, ItemIds, NO_STATS, ZERO_TALLY;
  }

  lemma FlagOpen(cfg: Config, p: Pipe, st: PipeStep)
    requires Queues(cfg, p) && OpenBatch(cfg, p) && PipeEnabled(cfg, p, st)
    requires st.BatcherExit? || st.FlusherExit? || st.CloseBatches? || st.Cancel?
    ensures Queues(cfg, PipeEffect(cfg, p, st).pipe) && OpenBatch(cfg, PipeEffect(cfg, p, st).pipe)
  {
    hide DgOk, BatchOk, OpenOk, ItemIds, NO_STATS, ZERO_TALLY;
  }

  lemma MoveOpen(cfg: Config, p: Pipe, st: PipeStep)
    requires Queues(cfg, p) && OpenBatch(cfg, p) && PipeEnabled(cfg, p, st) && !st.Accept?
    ensures Queues(cfg, PipeEffect(cfg, p, st).pipe) && OpenBatch(cfg, PipeEffect(cfg, p, st).pipe)
  {
    hide Queues, OpenBatch, PipeEnabled, PipeEffect;
    match st
    case FlushCur => FlushOpen(cfg, p);
    case Attempt(_) => SendOpen(cfg, p, st);
    case CutWait => SendOpen(cfg, p, st);
    case Emit => QueueOpen(cfg, p, st);
    case TakeBatch => QueueOpen(cfg, p, st);
    case Abandon => QueueOpen(cfg, p, st);
    case _ => FlagOpen(cfg, p, st);
  }

  lemma PostedOk(cfg: Config, p: Pipe, st: PipeStep)
    requires Queues(cfg, p) && PipeEnabled(cfg, p, st) && PipeEffect(cfg, p, st).posted.Some?
    ensures BatchOk(cfg, OwnerOf(p), PipeEffect(cfg, p, st).posted.value)
  {
    hide BatchOk, DgOk, ItemIds, ItemsWeight;
  }

  lemma EffectOk(cfg: Config, p: Pipe, st: PipeStep)
    requires PipeOk(cfg, p) && PipeEnabled(cfg, p, st)
    ensures var e := PipeEffect(cfg, p, st);
            && PipeOk(cfg, Bump(e.pipe, e.booked)) && !e.panic
            && (e.posted.Some? ==> BatchOk(cfg, OwnerOf(p), e.posted.value))
  {
    hide Queues, OpenBatch, Closing, PipeEnabled, AcceptStep, BatchOk;
    var e := PipeEffect(cfg, p, st);
    ClosingKept(cfg, p, st);
    if st.Accept? {
      AcceptOpen(cfg, p, st.stamp);
    } else {
      MoveOpen(cfg, p, st);
    }
    if e.posted.Some? {
      PostedOk(cfg, p, st);
    }
    BumpOk(cfg, e.pipe, e.booked);
  }

  lemma BumpOk(cfg: Config, p: Pipe, st: Stats)
    requires PipeOk(cfg, p)
    ensures PipeOk(cfg, Bump(p, st))
  {
    hide DgOk, BatchOk, OpenOk, AddStats;
  }

  lemma HandOffOk(cfg: Config, p: Pipe, dg: Datagram)
    requires PipeOk(cfg, p) && !p.rawClosed && |p.raw| < HANDOFF_DEPTH && DgOk(cfg, OwnerOf(p), dg)
    ensures PipeOk(cfg, p.(raw := p.raw + [dg]))
  {
    hide DgOk, BatchOk, OpenOk;
  }

  lemma CloseOk(cfg: Config, p: Pipe)
    requires PipeOk(cfg, p)
    ensures PipeOk(cfg, p.(rawClosed := true))
  {
    hide DgOk, BatchOk, OpenOk;
  }

  lemma UntouchedOk(cfg: Config, p: Pipe)
    requires Untouched(p)
    ensures PipeOk(cfg, p)
  {
  }

  // ---------------------------------------------------------------- the whole agent

  /** What holds of a datagram at each stage of its dispatch. */
  predicate DispatchOk(cfg: Config, pipes: seq<Pipe>, d: Dispatch) {
    match d.phase
    case Arrived => d.dg.body == d.dg.raw && |d.dg.raw| <= cfg.maxEventBytes + 1
    case Found(pipe) => Genuine(cfg, d.dg) && pipe < |pipes| && Belongs(cfg, OwnerOf(pipes[pipe]), d.dg)
    case Admitted(pipe) => Genuine(cfg, d.dg) && pipe < |pipes| && Belongs(cfg, OwnerOf(pipes[pipe]), d.dg)
         && Authorized(cfg, d.dg)
    case _ => Genuine(cfg, d.dg)
  }

  predicate InTransit(cfg: Config, dg: Datagram) { Genuine(cfg, dg) && Authorized(cfg, dg) }

  predicate DemuxOk(cfg: Config, pipes: seq<Pipe>, d: Demux) {
    match d
    case Taken(dg) => InTransit(cfg, dg)
    case Holding(dg, pipe) => InTransit(cfg, dg) && pipe < |pipes| && Belongs(cfg, OwnerOf(pipes[pipe]), dg)
    case _ => true
  }

  /** A POST carried a batch of its own pipeline, under the batch's token or the pipeline's key. */
  ghost predicate PostOk(cfg: Config, pipes: seq<Pipe>, post: Posted) {
    && post.pipe < |pipes| && BatchOk(cfg, OwnerOf(pipes[post.pipe]), post.batch)
    && post.bearer == F.Bearer(pipes[post.pipe].key, post.batch)
  }

  ghost predicate PipesOk(cfg: Config, pipes: seq<Pipe>) { forall k :: 0 <= k < |pipes| ==> PipeOk(cfg, pipes[k]) }

  ghost predicate FlowInv(cfg: Config, s: State) {
    && (forall id <- s.dispatching :: DispatchOk(cfg, s.pipes, s.dispatching[id]))
    && |s.shared| <= cfg.queueSize && (forall k :: 0 <= k < |s.shared| ==> InTransit(cfg, s.shared[k]))
    && DemuxOk(cfg, s.pipes, s.demux)
    && PipesOk(cfg, s.pipes)
    && (forall k :: 0 <= k < |s.posts| ==> PostOk(cfg, s.pipes, s.posts[k]))
  }

  // ---------------------------------------------------------------- steps

  /** A lookup leads to a pipeline the datagram belongs to. */
  lemma LookupBelongs(cfg: Config, pipes: seq<Pipe>, t: Table, dg: Datagram)
    requires OwnNames(t, pipes) && Lookup(t, cfg.requireProject, dg.project).Some?
    ensures var id := Lookup(t, cfg.requireProject, dg.project).value;
            id < |pipes| && Belongs(cfg, OwnerOf(pipes[id]), dg)
  {
  }

  /** Without a keys file only the default pipeline has a key, so an admitted datagram without a token is its own. */
  lemma AdmitAuthorized(cfg: Config, p: Pipe, dg: Datagram)
    requires PipeIdentity(cfg, p) && Belongs(cfg, OwnerOf(p), dg) && !(p.inline && dg.token == [])
    ensures Authorized(cfg, dg)
  {
  }

  lemma AuthorizedOk(cfg: Config, p: Pipe, dg: Datagram)
    requires PipeIdentity(cfg, p) && Belongs(cfg, OwnerOf(p), dg) && InTransit(cfg, dg)
    ensures DgOk(cfg, OwnerOf(p), dg)
  {
  }

  lemma GrowsOwner(pipes: seq<Pipe>, pipes': seq<Pipe>, id: PipeId)
    requires Grows(pipes, pipes') && id < |pipes|
    ensures id < |pipes'| && OwnerOf(pipes'[id]) == OwnerOf(pipes[id]) && pipes'[id].key == pipes[id].key
  {
    assert SameIdentity(pipes[id], pipes'[id]);
  }

  /** Growing the pipelines keeps everything that only refers to their identity. */
  lemma FlowGrows(cfg: Config, s: State, pipes': seq<Pipe>)
    requires FlowInv(cfg, s) && Grows(s.pipes, pipes') && PipesOk(cfg, pipes')
    ensures FlowInv(cfg, s.(pipes := pipes'))
  {
    hide Genuine, Authorized, BatchOk, PipesOk, Belongs;
    forall id <- s.dispatching ensures DispatchOk(cfg, pipes', s.dispatching[id]) {
      DispatchGrows(cfg, s.pipes, pipes', s.dispatching[id]);
    }
    if s.demux.Holding? {
      GrowsOwner(s.pipes, pipes', s.demux.pipe);
    }
    forall k | 0 <= k < |s.posts| ensures PostOk(cfg, pipes', s.posts[k]) {
      assert PostOk(cfg, s.pipes, s.posts[k]);
      GrowsOwner(s.pipes, pipes', s.posts[k].pipe);
    }
  }

  lemma DispatchGrows(cfg: Config, pipes: seq<Pipe>, pipes': seq<Pipe>, d: Dispatch)
    requires DispatchOk(cfg, pipes, d) && Grows(pipes, pipes')
    ensures DispatchOk(cfg, pipes', d)
  {
    hide Genuine, Authorized, Belongs;
    match d.phase
    case Found(pipe) => GrowsOwner(pipes, pipes', pipe);
    case Admitted(pipe) => GrowsOwner(pipes, pipes', pipe);
    case _ =>
  }

  lemma UpdateOk(cfg: Config, pipes: seq<Pipe>, id: PipeId, p: Pipe)
    requires PipesOk(cfg, pipes) && id < |pipes| && PipeOk(cfg, p)
    ensures PipesOk(cfg, pipes[id := p])
  {
    hide PipeOk;
  }

  /** One pipeline is replaced by one of the same identity that is in order. */
  lemma FlowUpdate(cfg: Config, s: State, id: PipeId, p: Pipe)
    requires FlowInv(cfg, s) && id < |s.pipes| && SameIdentity(s.pipes[id], p) && PipeOk(cfg, p)
    ensures FlowInv(cfg, s.(pipes := s.pipes[id := p]))
  {
    hide FlowInv, PipeOk, PipesOk;
    PipesOkOf(cfg, s);
    UpdateOk(cfg, s.pipes, id, p);
    UpdateGrows(s.pipes, id, p);
    FlowGrows(cfg, s, s.pipes[id := p]);
  }

  lemma PipesOkOf(cfg: Config, s: State)
    requires FlowInv(cfg, s)
    ensures PipesOk(cfg, s.pipes)
  {
  }

  lemma BookFlow(cfg: Config, s: State, id: PipeId, st: Stats)
    requires FlowInv(cfg, s) && id < |s.pipes|
    ensures FlowInv(cfg, Book(s, id, st))
  {
    hide FlowInv, PipeOk, AddStats;
    PipesOkOf(cfg, s);
    BumpOk(cfg, s.pipes[id], st);
    FlowUpdate(cfg, s, id, Bump(s.pipes[id], st));
  }

  lemma DropFlow(cfg: Config, s: State, id: nat, t: Tally)
    requires FlowInv(cfg, s)
    ensures FlowInv(cfg, Drop(s, id, t))
  {
    hide DispatchOk, InTransit, DemuxOk, PipesOk, PostOk, Add;
  }

  lemma AdvanceFlow(cfg: Config, s: State, id: nat, d: Dispatch)
    requires FlowInv(cfg, s) && DispatchOk(cfg, s.pipes, d)
    ensures FlowInv(cfg, Advance(s, id, d))
  {
    hide DispatchOk, InTransit, DemuxOk, PipesOk, PostOk;
  }

  lemma DispatchOf(cfg: Config, s: State, id: nat)
    requires FlowInv(cfg, s) && id in s.dispatching
    ensures DispatchOk(cfg, s.pipes, s.dispatching[id])
  {
  }

  lemma RouteFlow(cfg: Config, s: State, id: nat)
    requires FlowInv(cfg, s) && InPhase(s, id, Arrived)
    ensures FlowInv(cfg, RouteStep(cfg, s, id))
  {
    hide FlowInv, Drop, Advance;
    DispatchOf(cfg, s, id);
    var dg := s.dispatching[id].dg;
    var f := cfg.route(dg.body);
    if f.malformed {
      DropFlow(cfg, s, id, ZERO_TALLY.(parseError := 1));
    } else if f.badProject {
      DropFlow(cfg, s, id, ZERO_TALLY.(unroutedUnknown := 1));
    } else if f.badToken && cfg.inlineTokens {
      DropFlow(cfg, s, id, ZERO_TALLY.(badToken := 1));
    } else {
      AdvanceFlow(cfg, s, id, Dispatch(dg.(body := if f.removed then f.stripped else dg.body, project := f.project,
                                           token := if cfg.inlineTokens then f.token else []), Routed));
    }
  }

  lemma UnroutedFlow(cfg: Config, s: State, id: nat)
    requires FlowInv(cfg, s) && id in s.dispatching
    ensures FlowInv(cfg, Unrouted(s, id))
  {
    hide FlowInv, Drop;
    DropFlow(cfg, s, id, ZERO_TALLY.(unroutedMissing := 1));
    DropFlow(cfg, s, id, ZERO_TALLY.(unroutedUnknown := 1));
  }

  lemma InlineFlow(cfg: Config, s: State, w: Inline)
    requires FlowInv(cfg, s)
    ensures FlowInv(cfg, s.(inline := w))
  {
  }

  lemma FindFlow(cfg: Config, s: State, id: nat, p: PipeId)
    requires FlowInv(cfg, s) && id in s.dispatching && Genuine(cfg, s.dispatching[id].dg)
    requires p < |s.pipes| && Belongs(cfg, OwnerOf(s.pipes[p]), s.dispatching[id].dg)
    ensures FlowInv(cfg, Advance(s, id, Dispatch(s.dispatching[id].dg, Found(p))))
  {
    hide FlowInv, Genuine, Belongs, Advance;
    AdvanceFlow(cfg, s, id, Dispatch(s.dispatching[id].dg, Found(p)));
  }

  lemma LookUpFlow(cfg: Config, s: State, id: nat)
    requires FlowInv(cfg, s) && OwnNames(s.table, s.pipes) && (InPhase(s, id, Routed) || InPhase(s, id, WantsInline))
    ensures FlowInv(cfg, LookUpStep(cfg, s, id)) && FlowInv(cfg, RegisterLockStep(cfg, s, id))
  {
    hide FlowInv, Genuine, Belongs, Lookup, Unrouted, OwnNames, Advance;
    DispatchOf(cfg, s, id);
    var dg := s.dispatching[id].dg;
    match Lookup(s.table, cfg.requireProject, dg.project)
    case Some(p) =>
      LookupBelongs(cfg, s.pipes, s.table, dg);
      FindFlow(cfg, s, id, p);
    case None =>
      AdvanceFlow(cfg, s, id, Dispatch(dg, WantsInline));
      UnroutedFlow(cfg, s, id);
      InlineFlow(cfg, s, LookupMissed(id, s.version));
  }

  lemma AdmitFlow(cfg: Config, s: State, id: nat)
    requires FlowInv(cfg, s) && Identities(cfg, s.pipes) && FoundOne(s, id)
    ensures FlowInv(cfg, AdmitStep(s, id))
  {
    hide FlowInv, Genuine, Belongs, Authorized, Drop, Book, Advance;
    DispatchOf(cfg, s, id);
    var d := s.dispatching[id];
    var pipe := d.phase.pipe;
    assert PipeIdentity(cfg, s.pipes[pipe]);
    DropFlow(cfg, s, id, ZERO_TALLY.(missingToken := 1));
    DropFlow(cfg, s, id, ZERO_TALLY.(routingClosed := 1));
    DropPipes(s, id, ZERO_TALLY.(missingToken := 1));
    DropPipes(s, id, ZERO_TALLY.(routingClosed := 1));
    BookFlow(cfg, Drop(s, id, ZERO_TALLY.(missingToken := 1)), pipe, NO_STATS.(missingToken := 1));
    BookFlow(cfg, Drop(s, id, ZERO_TALLY.(routingClosed := 1)), pipe, NO_STATS.(routingClosed := 1));
    if !(s.pipes[pipe].inline && d.dg.token == []) {
      AdmitAuthorized(cfg, s.pipes[pipe], d.dg);
      AdvanceFlow(cfg, s, id, Dispatch(d.dg, Admitted(pipe)));
    }
  }

  lemma DropPipes(s: State, id: nat, t: Tally)
    ensures Drop(s, id, t).pipes == s.pipes
  {
  }

  lemma EnqueueFlow(cfg: Config, s: State, id: nat)
    requires FlowInv(cfg, s) && AdmittedOne(s, id)
    ensures FlowInv(cfg, EnqueueStep(cfg, s, id))
  {
    hide FlowInv, Genuine, Belongs, Authorized, Drop, Book;
    DispatchOf(cfg, s, id);
    var d := s.dispatching[id];
    DropFlow(cfg, s, id, ZERO_TALLY.(queueFull := 1));
    DropFlow(cfg, s, id, ZERO_TALLY.(routingClosed := 1));
    DropPipes(s, id, ZERO_TALLY.(routingClosed := 1));
    BookFlow(cfg, Drop(s, id, ZERO_TALLY.(routingClosed := 1)), d.phase.pipe, NO_STATS.(routingClosed := 1));
    if |s.shared| < cfg.queueSize {
      QueueFlow(cfg, s, id, d.dg);
    }
  }

  lemma QueueFlow(cfg: Config, s: State, id: nat, dg: Datagram)
    requires FlowInv(cfg, s) && |s.shared| < cfg.queueSize && InTransit(cfg, dg)
    ensures FlowInv(cfg, s.(dispatching := s.dispatching - {id}, shared := s.shared + [dg]))
  {
    hide DispatchOk, InTransit, DemuxOk, PipesOk, PostOk;
  }

  lemma DemuxTakeFlow(cfg: Config, s: State)
    requires FlowInv(cfg, s) && s.shared != []
    ensures FlowInv(cfg, s.(demux := Taken(s.shared[0]), shared := s.shared[1..]))
  {
    hide DispatchOk, InTransit, PipesOk, PostOk;
  }

  lemma DemuxFreeFlow(cfg: Config, s: State, s': State)
    requires FlowInv(cfg, s) && (s'.demux == Waiting || s'.demux == Exited)
    requires s' == s.(demux := s'.demux, tally := s'.tally, misses := s'.misses, settled := s'.settled)
    ensures FlowInv(cfg, s')
  {
    hide DispatchOk, InTransit, PipesOk, PostOk;
  }

  lemma DemuxLookupFlow(cfg: Config, s: State)
    requires FlowInv(cfg, s) && OwnNames(s.table, s.pipes) && s.demux.Taken?
    ensures FlowInv(cfg, DemuxLookupStep(cfg, s))
  {
    hide DispatchOk, InTransit, PipesOk, PostOk, Belongs, Lookup, OwnNames;
    var dg := s.demux.dg;
    match Lookup(s.table, cfg.requireProject, dg.project)
    case Some(p) => LookupBelongs(cfg, s.pipes, s.table, dg);
    case None => DemuxFreeFlow(cfg, s, DemuxLookupStep(cfg, s));
  }

  lemma DemuxSendFlow(cfg: Config, s: State)
    requires FlowInv(cfg, s) && Identities(cfg, s.pipes) && s.demux.Holding? && s.demux.pipe < |s.pipes|
    ensures FlowInv(cfg, DemuxSendStep(s))
  {
    hide FlowInv, Genuine, Belongs, Authorized, Book, PipeOk, Add;
    var dg, id := s.demux.dg, s.demux.pipe;
    var p := s.pipes[id];
    HoldingOf(cfg, s);
    assert PipeIdentity(cfg, p);
    AuthorizedOk(cfg, p, dg);
    PipesOkOf(cfg, s);
    var free := s.(demux := Waiting);
    DemuxFreeFlow(cfg, s, free);
    var closed := free.(tally := Add(s.tally, ZERO_TALLY.(routingClosed := 1)), settled := s.settled + multiset{dg.id});
    var full := free.(settled := s.settled + multiset{dg.id});
    DemuxFreeFlow(cfg, s, closed);
    DemuxFreeFlow(cfg, s, full);
    BookFlow(cfg, closed, id, NO_STATS.(routingClosed := 1));
    BookFlow(cfg, full, id, NO_STATS.(queueFull := 1));
    if !p.rawClosed && |p.raw| < HANDOFF_DEPTH {
      HandOffOk(cfg, p, dg);
      FlowUpdate(cfg, free, id, p.(raw := p.raw + [dg]));
    }
  }

  lemma HoldingOf(cfg: Config, s: State)
    requires FlowInv(cfg, s) && s.demux.Holding?
    ensures InTransit(cfg, s.demux.dg) && s.demux.pipe < |s.pipes|
            && Belongs(cfg, OwnerOf(s.pipes[s.demux.pipe]), s.demux.dg)
  {
  }

  lemma OnPipeFlow(cfg: Config, s: State, pipe: PipeId, pst: PipeStep)
    requires FlowInv(cfg, s) && pipe < |s.pipes| && PipeEnabled(cfg, s.pipes[pipe], pst)
    ensures FlowInv(cfg, OnPipeStep(cfg, s, pipe, pst))
    ensures OnPipeStep(cfg, s, pipe, pst).panicked == s.panicked
  {
    hide FlowInv, PipeOk, BatchOk, PipeEffect, PipeEnabled, Add;
    PipesOkOf(cfg, s);
    var p := s.pipes[pipe];
    var e := PipeEffect(cfg, p, pst);
    EffectOk(cfg, p, pst);
    PipeEffectIdentity(cfg, p, pst);
    FlowUpdate(cfg, s, pipe, Bump(e.pipe, e.booked));
    var t := s.(pipes := s.pipes[pipe := Bump(e.pipe, e.booked)]);
    PostsFlow(cfg, t, OnPipeStep(cfg, s, pipe, pst), pipe, p, e);
  }

  lemma PostsFlow(cfg: Config, t: State, s': State, pipe: PipeId, p: Pipe, e: Effect)
    requires FlowInv(cfg, t) && pipe < |t.pipes| && SameIdentity(p, t.pipes[pipe])
    requires e.posted.Some? ==> BatchOk(cfg, OwnerOf(p), e.posted.value)
    requires s' == t.(tally := s'.tally, settled := s'.settled, posts := s'.posts, panicked := s'.panicked)
    requires s'.posts == if e.posted.Some?
             then t.posts + [Posted(pipe, F.Bearer(p.key, e.posted.value), e.posted.value)] else t.posts
    ensures FlowInv(cfg, s')
  {
    hide DispatchOk, InTransit, PipesOk, BatchOk, DemuxOk, F.Bearer;
  }

  lemma DrainFlow(cfg: Config, s: State, pipe: PipeId)
    requires FlowInv(cfg, s) && pipe < |s.pipes|
    ensures FlowInv(cfg, DrainBeginStep(s, pipe))
  {
    hide FlowInv, PipeOk;
    PipesOkOf(cfg, s);
    CloseOk(cfg, s.pipes[pipe]);
    FlowUpdate(cfg, s, pipe, s.pipes[pipe].(rawClosed := true));
    SameFlow(cfg, s.(pipes := s.pipes[pipe := s.pipes[pipe].(rawClosed := true)]), DrainBeginStep(s, pipe));
  }

  /** The invariant does not look at the writers, the drains or the shutdown. */
  lemma SameFlow(cfg: Config, s: State, s': State)
    requires FlowInv(cfg, s)
    requires s' == s.(table := s'.table, version := s'.version, inline := s'.inline, reload := s'.reload, due := s'.due,
                      shut := s'.shut, sharedClosed := s'.sharedClosed, panicked := s'.panicked)
    ensures FlowInv(cfg, s')
  {
    hide DispatchOk, InTransit, PipesOk, DemuxOk, PostOk;
  }

  lemma MakeFlow(cfg: Config, s: State, st: Step)
    requires FlowInv(cfg, s) && Enabled(cfg, s, st) && MakesPipes(st)
    ensures FlowInv(cfg, Apply(cfg, s, st))
  {
    hide FlowInv, PipeOk, BuiltTable, FreshNames;
    var s' := Apply(cfg, s, st);
    MakeGrows(cfg, s, st);
    PipesOkOf(cfg, s);
    if st.ReloadBuild? {
      OrderInKeys(s.reload.keys, s.reload.prev, s.pipes, st.order);
    }
    forall k | 0 <= k < |s'.pipes| ensures PipeOk(cfg, s'.pipes[k]) {
      if k < |s.pipes| {
        assert s'.pipes[..|s.pipes|][k] == s.pipes[k];
      } else {
        if st.ReloadBuild? {
          BuiltPipeAt(s.reload.keys, s.pipes, st.order, k);
        }
        UntouchedOk(cfg, s'.pipes[k]);
      }
    }
    FlowGrows(cfg, s, s'.pipes);
    SameFlow(cfg, s.(pipes := s'.pipes), s');
  }

  lemma RegisterStoreFlow(cfg: Config, s: State)
    requires FlowInv(cfg, s) && HolderOk(cfg, s) && s.inline.PipeMade? && WantsOk(cfg, s.dispatching[s.inline.id])
    ensures FlowInv(cfg, RegisterStoreStep(s))
  {
    hide FlowInv, Genuine, Advance, GoodTable, Belongs, WantsOk;
    var w := s.inline;
    DispatchOf(cfg, s, w.id);
    WantsBelongs(cfg, s);
    FindFlow(cfg, s, w.id, w.pipe);
    SameFlow(cfg, Advance(s, w.id, Dispatch(s.dispatching[w.id].dg, Found(w.pipe))), RegisterStoreStep(s));
  }

  lemma WantsBelongs(cfg: Config, s: State)
    requires HolderOk(cfg, s) && s.inline.PipeMade? && WantsOk(cfg, s.dispatching[s.inline.id])
    ensures Belongs(cfg, OwnerOf(s.pipes[s.inline.pipe]), s.dispatching[s.inline.id].dg)
  {
  }

  lemma RegisterLoadFlow(cfg: Config, s: State)
    requires FlowInv(cfg, s) && s.inline.LookupMissed? && s.inline.id in s.dispatching
    ensures FlowInv(cfg, RegisterLoadStep(cfg, s))
  {
    hide FlowInv, Unrouted;
    UnroutedFlow(cfg, s, s.inline.id);
    InlineFlow(cfg, Unrouted(s, s.inline.id), Free);
    InlineFlow(cfg, s, RoomChecked(s.inline.id, s.table, s.inline.seen));
  }

  lemma DeliverFlow(cfg: Config, s: State, raw: bytes, at: int)
    requires FlowInv(cfg, s) && Enabled(cfg, s, Deliver(raw, at))
    ensures FlowInv(cfg, Apply(cfg, s, Deliver(raw, at)))
  {
    hide InTransit, DemuxOk, PipesOk, PostOk, Genuine, Belongs, Authorized;
  }

  predicate IsWriterStep(st: Step) {
    st.ReloadRead? || st.ReloadLoad? || st.ReloadStore? || st.ExpireLoad? || st.ExpireStore? || st.ExpireQuit?
    || st.CloseShared? || st.ShutdownLoad? || st.ShutdownDone?
  }

  lemma WriterFlow(cfg: Config, s: State, st: Step)
    requires FlowInv(cfg, s) && Enabled(cfg, s, st) && IsWriterStep(st)
    ensures FlowInv(cfg, Apply(cfg, s, st))
  {
    hide FlowInv, KeyMap, Without, Dropped, KeysOk, InlinePipes, AllDrained;
    SameFlow(cfg, s, Apply(cfg, s, st));
  }

  lemma FlowStep(cfg: Config, s: State, st: Step)
    requires TablesInv(cfg, s) && FlowInv(cfg, s) && Enabled(cfg, s, st)
    ensures FlowInv(cfg, Apply(cfg, s, st))
  {
    hide FlowInv, GoodTable, HolderOk, ReloadOk, WantsOk, OwnNames, KeysOk, PipeEnabled, KeyMap, InlinePipes;
    OwnTable(cfg, s);
    match st
    case Deliver(raw, at) => DeliverFlow(cfg, s, raw, at);
    case RouteOne(id) => RouteFlow(cfg, s, id);
    case LookUp(id) => LookUpFlow(cfg, s, id);
    case RegisterLock(id) => LookUpFlow(cfg, s, id);
    case RegisterLoad => RegisterLoadFlow(cfg, s);
    case RegisterStore => RegisterStoreFlow(cfg, s);
    case RegisterMake => MakeFlow(cfg, s, st);
    case ReloadBuild(_) => MakeFlow(cfg, s, st);
    case Admit(id) => AdmitFlow(cfg, s, id);
    case Enqueue(id) => EnqueueFlow(cfg, s, id);
    case DemuxTake => DemuxTakeFlow(cfg, s);
    case DemuxLookup => DemuxLookupFlow(cfg, s);
    case DemuxSend => DemuxSendFlow(cfg, s);
    case DemuxExit => DemuxFreeFlow(cfg, s, Apply(cfg, s, st));
    case OnPipe(pipe, pst) => OnPipeFlow(cfg, s, pipe, pst);
    case DrainBegin(pipe) => DrainFlow(cfg, s, pipe);
    case _ => WriterFlow(cfg, s, st);
  }

  lemma OwnTable(cfg: Config, s: State)
    requires TablesInv(cfg, s)
    ensures OwnNames(s.table, s.pipes)
  {
  }

  lemma FlowInit(cfg: Config, s: State)
    requires Init(cfg, s)
    ensures FlowInv(cfg, s)
  {
    hide BuiltTable, BuiltPipes, FreshNames, PipeOk;
    var keys, order :| KeysOk(cfg, keys) && (!cfg.keysFile ==> forall n <- keys :: n == DEFAULT_PROJECT)
      && Enumerates(order, FreshNames(keys, EMPTY_TABLE, [])) && s == Installed(keys, order);
    OrderInKeys(keys, EMPTY_TABLE, [], order);
    forall k | 0 <= k < |s.pipes| ensures PipeOk(cfg, s.pipes[k]) {
      BuiltPipeAt(keys, [], order, k);
      UntouchedOk(cfg, s.pipes[k]);
    }
  }

  lemma {:induction false} FlowAlways(cfg: Config, states: seq<State>, steps: seq<Step>, k: nat)
    requires Run(cfg, states, steps) && k < |states|
    ensures FlowInv(cfg, states[k])
    decreases k
  {
    hide Run, Init, Apply, Enabled, FlowInv, TablesInv, Published, IdsGiven;
    RunStart(cfg, states, steps);
    if k == 0 {
      FlowInit(cfg, states[0]);
    } else {
      FlowAlways(cfg, states, steps, k - 1);
      TablesAlways(cfg, states, steps, k - 1);
      RunStep(cfg, states, steps, k - 1);
      FlowStep(cfg, states[k - 1], steps[k - 1]);
    }
  }
}
