/** What the flow invariant gives in every reachable state: whose events a POST carries and under which
    credential, and how much the queues can hold. */
module Provenance {
  import opened Batching
  import opened Registry
  import opened Protocol
  import opened TableLaws
  import opened FlowLaws

  // ---------------------------------------------------------------- credentials

  predicate NoTokens(batch: Batch) { forall it <- batch.items :: it.dg.token == [] }

  /** The events of a POST are the pipeline's own project's, and the credential is the pipeline's key
      when no datagram of the batch carried a token, else the token of the last one that did. */
  ghost predicate Entitled(cfg: Config, p: Pipe, post: Posted) {
    && Sealed(post.batch, cfg.maxBatch)
    && (forall it <- post.batch.items ::
          && Genuine(cfg, it.dg) && Validated(cfg, it)
          && (it.dg.project == p.project
              || (it.dg.project == [] && !cfg.requireProject && p.project == DEFAULT_PROJECT)))
    && if NoTokens(post.batch) then post.bearer == p.key
       else post.bearer != [] && LastCarried(post.batch.items, post.bearer)
  }

  lemma EntitledPost(cfg: Config, pipes: seq<Pipe>, post: Posted)
    requires PostOk(cfg, pipes, post)
    ensures Entitled(cfg, pipes[post.pipe], post)
  {
    hide Genuine, Validated, LastToken, ItemsWeight;
    LastTokenOwner(post.batch.items);
    forall it <- post.batch.items
      ensures Genuine(cfg, it.dg) && Validated(cfg, it) && Belongs(cfg, OwnerOf(pipes[post.pipe]), it.dg)
    {
      var j :| 0 <= j < |post.batch.items| && post.batch.items[j] == it;
      assert DgOk(cfg, OwnerOf(pipes[post.pipe]), post.batch.items[j].dg);
    }
  }

  lemma PostAt(cfg: Config, s: State, j: nat)
    requires FlowInv(cfg, s) && j < |s.posts|
    ensures PostOk(cfg, s.pipes, s.posts[j])
  {
  }

  /** Every POST of every run is entitled, whatever reloads, registrations and expiries did to the table. */
  lemma EveryPostEntitled(cfg: Config, states: seq<State>, steps: seq<Step>, k: nat, j: nat)
    requires Run(cfg, states, steps) && k < |states| && j < |states[k].posts|
    ensures var post := states[k].posts[j];
            post.pipe < |states[k].pipes| && Entitled(cfg, states[k].pipes[post.pipe], post)
  {
    hide FlowInv, Entitled;
    FlowAlways(cfg, states, steps, k);
    PostAt(cfg, states[k], j);
    EntitledPost(cfg, states[k].pipes, states[k].posts[j]);
  }

  lemma BatchHasToken(cfg: Config, o: Owner, b: Batch)
    requires BatchOk(cfg, o, b) && !cfg.keysFile && o.inline
    ensures b.token != []
  {
    hide Genuine, Belongs, Validated, LastToken, ItemsWeight;
    LastTokenOwner(b.items);
    assert DgOk(cfg, o, b.items[0].dg);
    assert b.items[0] in b.items;
  }

  /** With no keys file, with no inline tokens, or with a default key that fills the table, every POST
      carries a non-empty credential. */
  lemma NeverAnonymous(cfg: Config, states: seq<State>, steps: seq<Step>, k: nat, j: nat)
    requires Run(cfg, states, steps) && k < |states| && j < |states[k].posts|
    requires !(cfg.keysFile && cfg.inlineTokens) || (cfg.apiKey != [] && cfg.maxProjects == 1)
    ensures states[k].posts[j].bearer != []
  {
    hide Run, FlowInv, BatchOk, TablesInv, Published, IdsGiven;
    var s, post := states[k], states[k].posts[j];
    FlowAlways(cfg, states, steps, k);
    TablesAlways(cfg, states, steps, k);
    PostAt(cfg, s, j);
    IdentityOf(cfg, s, post.pipe);
    if s.pipes[post.pipe].inline {
      if cfg.keysFile {
        NoInlineAlways(cfg, states, steps, k);
      }
      BatchHasToken(cfg, OwnerOf(s.pipes[post.pipe]), post.batch);
    }
  }

  lemma IdentityOf(cfg: Config, s: State, id: PipeId)
    requires TablesInv(cfg, s) && id < |s.pipes|
    ensures PipeIdentity(cfg, s.pipes[id])
  {
  }

  // ---------------------------------------------------------------- required projects

  predicate AllNamed(items: seq<Item>) { forall j :: 0 <= j < |items| ==> items[j].dg.project != [] }

  /** Everything a pipeline holds names a project. */
  predicate HoldsNamed(p: Pipe) {
    && (forall j :: 0 <= j < |p.raw| ==> p.raw[j].project != [])
    && AllNamed(p.cur) && (p.pending.Some? ==> AllNamed(p.pending.value.items))
    && (forall j :: 0 <= j < |p.batches| ==> AllNamed(p.batches[j].items))
    && (p.sending.Some? ==> AllNamed(p.sending.value.batch.items))
  }

  lemma ItemsNamed(cfg: Config, o: Owner, items: seq<Item>)
    requires cfg.requireProject && ItemsOk(cfg, o, items)
    ensures AllNamed(items)
  {
    hide Genuine, Validated;
    forall j | 0 <= j < |items| ensures items[j].dg.project != [] {
      assert DgOk(cfg, o, items[j].dg);
    }
  }

  lemma BatchNamed(cfg: Config, o: Owner, b: Batch)
    requires cfg.requireProject && BatchOk(cfg, o, b)
    ensures AllNamed(b.items)
  {
    hide ItemsOk, Sealed, AllNamed;
    ItemsNamed(cfg, o, b.items);
  }

  lemma PipeNamed(cfg: Config, p: Pipe)
    requires cfg.requireProject && PipeOk(cfg, p)
    ensures HoldsNamed(p)
  {
    hide Genuine, ItemsOk, BatchOk, AllNamed, Closing;
    var o := OwnerOf(p);
    ItemsNamed(cfg, o, p.cur);
    forall j | 0 <= j < |p.raw| ensures p.raw[j].project != [] {
      assert DgOk(cfg, o, p.raw[j]);
    }
    forall j | 0 <= j < |p.batches| ensures AllNamed(p.batches[j].items) {
      BatchNamed(cfg, o, p.batches[j]);
    }
    if p.pending.Some? {
      BatchNamed(cfg, o, p.pending.value);
    }
    if p.sending.Some? {
      BatchNamed(cfg, o, p.sending.value.batch);
    }
  }

  /** Where a project is required, no datagram without one gets past dispatch, in any run. */
  lemma NamedEverywhere(cfg: Config, states: seq<State>, steps: seq<Step>, k: nat)
    requires Run(cfg, states, steps) && k < |states| && cfg.requireProject
    ensures forall j :: 0 <= j < |states[k].shared| ==> states[k].shared[j].project != []
    ensures states[k].demux.Taken? || states[k].demux.Holding? ==> states[k].demux.dg.project != []
    ensures forall p :: 0 <= p < |states[k].pipes| ==> HoldsNamed(states[k].pipes[p])
    ensures forall j :: 0 <= j < |states[k].posts| ==> AllNamed(states[k].posts[j].batch.items)
  {
    hide Run, Genuine, DispatchOk, PipeOk, BatchOk, HoldsNamed, AllNamed;
    FlowAlways(cfg, states, steps, k);
    var s := states[k];
    forall j | 0 <= j < |s.shared| ensures s.shared[j].project != [] {
      assert InTransit(cfg, s.shared[j]);
    }
    forall p | 0 <= p < |s.pipes| ensures HoldsNamed(s.pipes[p]) {
      PipeNamed(cfg, s.pipes[p]);
    }
    forall j | 0 <= j < |s.posts| ensures AllNamed(s.posts[j].batch.items) {
      assert PostOk(cfg, s.pipes, s.posts[j]);
      BatchNamed(cfg, OwnerOf(s.pipes[s.posts[j].pipe]), s.posts[j].batch);
    }
  }

  // ---------------------------------------------------------------- channels

  lemma QuietStep(cfg: Config, s: State, st: Step)
    requires Enabled(cfg, s, st) && !st.OnPipe? && !st.DrainBegin?
    ensures Apply(cfg, s, st).panicked == s.panicked
  {
    hide KeyMap, Lookup, Add, AddStats, Dropped, Without, InlinePipes, BuiltTable, KeysOk, InRange, FreshNames;
    match st
    case RouteOne(id) =>
    case LookUp(id) =>
    case _ =>
  }

  /** The only step that can panic is a second drain of one pipeline: no other step sends on or closes
      a channel that is closed already. */
  lemma OnlyDrainsPanic(cfg: Config, states: seq<State>, steps: seq<Step>, k: nat)
    requires Run(cfg, states, steps) && k < |steps|
    ensures states[k + 1].panicked <==> steps[k].DrainBegin? && states[k].pipes[steps[k].pipe].rawClosed
  {
    FlowAlways(cfg, states, steps, k);
    var s, st := states[k], steps[k];
    assert Enabled(cfg, s, st) && states[k + 1] == Apply(cfg, s, st);
    hide Run, FlowInv;
    PanicStep(cfg, s, st);
  }

  lemma PanicStep(cfg: Config, s: State, st: Step)
    requires FlowInv(cfg, s) && Enabled(cfg, s, st)
    ensures Apply(cfg, s, st).panicked <==> st.DrainBegin? && s.pipes[st.pipe].rawClosed
  {
    hide FlowInv, PipeEffect, PipeEnabled;
    match st
    case OnPipe(pipe, pst) => OnPipeFlow(cfg, s, pipe, pst);
    case DrainBegin(pipe) =>
    case _ =>
      hide Apply;
      QuietStep(cfg, s, st);
  }

  /** The capacities hold in every reachable state. */
  lemma Capacities(cfg: Config, states: seq<State>, steps: seq<Step>, k: nat, p: PipeId)
    requires Run(cfg, states, steps) && k < |states| && p < |states[k].pipes|
    ensures |states[k].shared| <= cfg.queueSize
    ensures |states[k].pipes[p].raw| <= HANDOFF_DEPTH && |states[k].pipes[p].batches| <= BATCH_SLOTS
  {
    FlowAlways(cfg, states, steps, k);
    assert PipeOk(cfg, states[k].pipes[p]);
  }

  // ---------------------------------------------------------------- queue memory

  function BodyBytes(q: seq<Datagram>): nat { if q == [] then 0 else BodyBytes(q[..|q| - 1]) + |q[|q| - 1].body| }

  /** The raw bytes waiting in front of the batchers. */
  function HandedBytes(pipes: seq<Pipe>): nat {
    if pipes == [] then 0 else HandedBytes(pipes[..|pipes| - 1]) + BodyBytes(pipes[|pipes| - 1].raw)
  }

  /** Pipelines whose batcher has not finished. */
  function Undrained(pipes: seq<Pipe>): nat {
    if pipes == [] then 0 else Undrained(pipes[..|pipes| - 1]) + if pipes[|pipes| - 1].batcherDone then 0 else 1
  }

  lemma GenuineSize(cfg: Config, dg: Datagram)
    requires cfg.Valid() && Genuine(cfg, dg)
    ensures |dg.body| <= cfg.maxEventBytes + 1
  {
    assert |cfg.route(dg.raw).stripped| <= |dg.raw|;
  }

  lemma {:induction false} BodyBytesBound(cfg: Config, q: seq<Datagram>)
    requires cfg.Valid() && forall k :: 0 <= k < |q| ==> Genuine(cfg, q[k])
    ensures BodyBytes(q) <= |q| * (cfg.maxEventBytes + 1)
    decreases |q|
  {
    hide Genuine;
    if q != [] {
      var n := |q| - 1;
      BodyBytesBound(cfg, q[..n]);
      GenuineSize(cfg, q[n]);
      assert |q| * (cfg.maxEventBytes + 1) == n * (cfg.maxEventBytes + 1) + (cfg.maxEventBytes + 1);
    }
  }

  lemma Scale(n: nat, cap: nat, size: nat)
    requires n <= cap
    ensures n * size <= cap * size
  {
  }

  lemma HandedBound(cfg: Config, p: Pipe)
    requires cfg.Valid() && PipeOk(cfg, p)
    ensures BodyBytes(p.raw) <= (if p.batcherDone then 0 else HANDOFF_DEPTH * (cfg.maxEventBytes + 1))
  {
    hide OpenBatch, BatchOk, Genuine, Belongs;
    if !p.batcherDone {
      forall k | 0 <= k < |p.raw| ensures Genuine(cfg, p.raw[k]) {
        assert DgOk(cfg, OwnerOf(p), p.raw[k]);
      }
      BodyBytesBound(cfg, p.raw);
      Scale(|p.raw|, HANDOFF_DEPTH, cfg.maxEventBytes + 1);
    }
  }

  lemma {:induction false} HandedBytesBound(cfg: Config, pipes: seq<Pipe>)
    requires cfg.Valid() && PipesOk(cfg, pipes)
    ensures HandedBytes(pipes) <= HANDOFF_DEPTH * Undrained(pipes) * (cfg.maxEventBytes + 1)
    decreases |pipes|
  {
    hide PipeOk, BodyBytes;
    if pipes != [] {
      var n := |pipes| - 1;
      HandedBytesBound(cfg, pipes[..n]);
      assert PipeOk(cfg, pipes[n]);
      HandedBound(cfg, pipes[n]);
      Distribute(HANDOFF_DEPTH * Undrained(pipes[..n]), HANDOFF_DEPTH, cfg.maxEventBytes + 1);
    }
  }

  lemma Distribute(a: nat, b: nat, size: nat)
    ensures (a + b) * size == a * size + b * size
  {
  }

  predicate WithinMemory(cfg: Config, s: State) {
    BodyBytes(s.shared) + HandedBytes(s.pipes) <=
    (cfg.queueSize + HANDOFF_DEPTH * Undrained(s.pipes)) * (cfg.maxEventBytes + 1)
  }

  /** Queued raw bytes stay within (queue capacity + 16 per undrained pipeline) datagrams of maximal size. */
  lemma QueueMemory(cfg: Config, states: seq<State>, steps: seq<Step>, k: nat)
    requires cfg.Valid() && Run(cfg, states, steps) && k < |states|
    ensures WithinMemory(cfg, states[k])
  {
    hide FlowInv, WithinMemory;
    FlowAlways(cfg, states, steps, k);
    QueueMemoryAt(cfg, states[k]);
  }

  lemma QueueMemoryAt(cfg: Config, s: State)
    requires cfg.Valid() && FlowInv(cfg, s)
    ensures WithinMemory(cfg, s)
  {
    hide Genuine, Authorized, PipesOk, PostOk, DispatchOk, DemuxOk, BodyBytes, HandedBytes, Undrained;
    forall k | 0 <= k < |s.shared| ensures Genuine(cfg, s.shared[k]) {
      assert InTransit(cfg, s.shared[k]);
    }
    BodyBytesBound(cfg, s.shared);
    Scale(|s.shared|, cfg.queueSize, cfg.maxEventBytes + 1);
    HandedBytesBound(cfg, s.pipes);
    Distribute(cfg.queueSize, HANDOFF_DEPTH * Undrained(s.pipes), cfg.maxEventBytes + 1);
  }
}
