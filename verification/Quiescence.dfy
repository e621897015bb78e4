/** Shutdown: it cannot get stuck, its work is bounded, and it leaves nothing behind. */
module Quiescence {
  import opened Bytes
  import opened Batching
  import F = Flushing
  import opened Registry
  import opened Protocol
  import opened TableLaws
  import opened LedgerLaws
  import opened FlowLaws
  import opened Lifecycle

  // ---------------------------------------------------------------- what shutdown leaves

  predicate EmptyPipe(p: Pipe) {
    p.raw == [] && p.cur == [] && p.pending == None && p.batches == [] && p.sending == None
  }

  predicate NothingHeld(pipes: seq<Pipe>) { forall id :: 0 <= id < |pipes| ==> EmptyPipe(pipes[id]) }

  lemma FinishedEmpty(cfg: Config, s: State, id: PipeId)
    requires LifeInv(s) && FlowInv(cfg, s) && s.shut == Finished && id < |s.pipes|
    ensures EmptyPipe(s.pipes[id]) && (id in Unborn(s) || s.pipes[id].flushDone)
  {
    hide InlineCurrent, ReloadCurrent, Targets, Queues, OpenBatch, DispatchOk, InTransit, DemuxOk, PostOk;
    assert StandingAt(s, id) && PipeOk(cfg, s.pipes[id]);
  }

  lemma {:induction false} NothingToCount(pipes: seq<Pipe>)
    requires NothingHeld(pipes)
    ensures Queued(pipes) == 0 && InBatches(pipes) == 0
    decreases |pipes|
  {
    if pipes != [] {
      var n := |pipes| - 1;
      NothingToCount(pipes[..n]);
      assert EmptyPipe(pipes[n]);
    }
  }

  /** Once shutdown returns, every queue and every partial batch is empty, every pipeline that was ever
      published has finished, and the ledger closes up to the datagrams still inside dispatch. */
  lemma ShutdownQuiescent(cfg: Config, states: seq<State>, steps: seq<Step>, k: nat)
    requires SerialRun(cfg, states, steps) && k < |states| && states[k].shut == Finished
    ensures var s := states[k];
            && s.shared == [] && s.demux == Exited && NothingHeld(s.pipes)
            && (forall id :: 0 <= id < |s.pipes| && id !in Unborn(s) ==> s.pipes[id].flushDone)
            && s.received == Total(s.tally) + Overflowed(s.pipes) + |s.dispatching|
  {
    var s := states[k];
    LifeAlways(cfg, states, steps, k);
    FlowAlways(cfg, states, steps, k);
    Conservation(cfg, states, steps, k);
    hide SerialRun, Run, FlowInv, Births, InlineCurrent, ReloadCurrent, Targets, Overflowed, Total, Unborn, EmptyPipe;
    forall id | 0 <= id < |s.pipes| ensures EmptyPipe(s.pipes[id]) && (id in Unborn(s) || s.pipes[id].flushDone) {
      FinishedEmpty(cfg, s, id);
    }
    NothingToCount(s.pipes);
  }

  // ---------------------------------------------------------------- the work left in a pipeline

  /** Attempts the batch in the flusher's hands may still take. */
  function SendLeft(cfg: Config, p: Pipe): nat {
    match p.sending
    case None => 0
    case Some(s) => if s.attempts <= cfg.maxRetries then cfg.maxRetries + 1 - s.attempts else 1
  }

  function Flags(p: Pipe): nat {
    if !p.rawClosed then 0
    else OneIf(!p.batcherDone) + OneIf(!p.batchClosed) + OneIf(!p.flushDone) + OneIf(!p.cancelled)
  }

  /** What a batch in the channel can cost: it is taken, and then tried `maxRetries + 1` times. */
  function PerBatch(cfg: Config): nat { cfg.maxRetries + 2 }

  /** A bound on the steps a pipeline can take before it needs new input. */
  function Work(cfg: Config, p: Pipe): nat {
    |p.raw| * (PerBatch(cfg) + 3) + |p.cur| * (PerBatch(cfg) + 2) + OneIf(p.pending.Some?) * (PerBatch(cfg) + 1)
    + |p.batches| * PerBatch(cfg) + SendLeft(cfg, p) + Flags(p)
  }

  lemma OneLess(n: nat, w: nat)
    requires n > 0
    ensures n * w == (n - 1) * w + w
  {
  }

  lemma OneMore(n: nat, w: nat)
    ensures (n + 1) * w == n * w + w
  {
  }

  /** What an accepted or refused datagram does to the sizes. */
  lemma AcceptSizes(cfg: Config, p: Pipe, stamp: bytes)
    requires AtSelect(cfg, p) && p.raw != []
    ensures var q := AcceptStep(cfg, p, stamp).pipe;
            if q.pending.Some? then |p.cur| > 0 && |q.cur| == 1 else |q.cur| <= |p.cur| + 1
  {
    hide ItemsWeight, NO_STATS, ZERO_TALLY, Closed, Extended;
    match cfg.validate(p.raw[0].body, stamp)
    case Accepted(ev) => ExtendedSize(OpenOf(p), Item(p.raw[0], ev));
    case _ =>
  }

  lemma ExtendedSize(open: Collecting, it: Item)
    ensures |Extended(open, it).items| == |open.items| + 1 && |Extended(NO_BATCH, it).items| == 1
  {
  }

  lemma AcceptSheds(cfg: Config, p: Pipe, stamp: bytes)
    requires AtSelect(cfg, p) && p.raw != []
    ensures Work(cfg, AcceptStep(cfg, p, stamp).pipe) < Work(cfg, p)
  {
    hide AcceptStep, PerBatch, SendLeft, Flags;
    AcceptShape(cfg, p, stamp);
    AcceptSizes(cfg, p, stamp);
    var q := AcceptStep(cfg, p, stamp).pipe;
    var w := PerBatch(cfg);
    OneLess(|p.raw|, w + 3);
    OneMore(|p.cur|, w + 2);
    AcceptTail(cfg, p, q);
    if q.pending.Some? {
      OneLess(|p.cur|, w + 2);
      Nonneg(|p.cur| - 1, w + 2);
    } else {
      Scaled(|q.cur|, |p.cur| + 1, w + 2);
    }
  }

  lemma AcceptTail(cfg: Config, p: Pipe, q: Pipe)
    requires q == p.(raw := q.raw, cur := q.cur, pending := q.pending, firstSeen := q.firstSeen, curToken := q.curToken)
    ensures SendLeft(cfg, q) == SendLeft(cfg, p) && Flags(q) == Flags(p)
  {
  }

  lemma Nonneg(n: nat, w: nat)
    ensures n * w >= 0
  {
  }

  lemma Scaled(m: nat, n: nat, w: nat)
    requires m <= n
    ensures m * w <= n * w
  {
  }

  lemma SendSheds(cfg: Config, p: Pipe, st: PipeStep)
    requires PipeEnabled(cfg, p, st) && (st.Attempt? || st.CutWait?)
    ensures Work(cfg, PipeEffect(cfg, p, st).pipe) < Work(cfg, p)
  {
    hide PipeEffect, PipeEnabled, PerBatch;
    SendEffect(cfg, p, st);
  }

  lemma QueueSheds(cfg: Config, p: Pipe, st: PipeStep)
    requires PipeEnabled(cfg, p, st) && (st.FlushCur? || st.Emit? || st.Abandon? || st.TakeBatch?)
    ensures Work(cfg, PipeEffect(cfg, p, st).pipe) < Work(cfg, p)
  {
    hide ItemIds, NO_STATS, ZERO_TALLY;
    var w := PerBatch(cfg);
    if st.FlushCur? {
      OneLess(|p.cur|, w + 2);
      Nonneg(|p.cur| - 1, w + 2);
    } else if st.Emit? {
      OneMore(|p.batches|, w);
    } else if st.TakeBatch? {
      OneLess(|p.batches|, w);
    }
  }

  lemma FlagSheds(cfg: Config, p: Pipe, st: PipeStep)
    requires PipeOk(cfg, p) && PipeEnabled(cfg, p, st)
             && (st.BatcherExit? || st.FlusherExit? || st.CloseBatches? || st.Cancel?)
    ensures Work(cfg, PipeEffect(cfg, p, st).pipe) < Work(cfg, p)
  {
    hide Queues, OpenBatch, PerBatch;
  }

  /** Every step of a pipeline's goroutines uses up some of its work. */
  lemma StepSheds(cfg: Config, p: Pipe, st: PipeStep)
    requires PipeOk(cfg, p) && PipeEnabled(cfg, p, st)
    ensures Work(cfg, PipeEffect(cfg, p, st).pipe) < Work(cfg, p)
  {
    hide Work, PipeOk, AcceptStep, AttemptStep, Finish;
    match st
    case Accept(stamp) => AcceptSheds(cfg, p, stamp);
    case Attempt(_) => SendSheds(cfg, p, st);
    case CutWait => SendSheds(cfg, p, st);
    case FlushCur => QueueSheds(cfg, p, st);
    case Emit => QueueSheds(cfg, p, st);
    case Abandon => QueueSheds(cfg, p, st);
    case TakeBatch => QueueSheds(cfg, p, st);
    case _ => FlagSheds(cfg, p, st);
  }

  /** What the goroutines of a closed pipeline can do next: the flusher first, then the batcher. */
  function NextOf(p: Pipe, stamp: bytes, reply: F.Reply): PipeStep {
    if p.sending.Some? then Attempt(reply)
    else if p.batches != [] then TakeBatch
    else if p.pending.Some? then Emit
    else if !p.batcherDone && p.cur != [] then FlushCur
    else if !p.batcherDone && p.raw != [] then Accept(stamp)
    else if !p.batcherDone then BatcherExit
    else if !p.batchClosed then CloseBatches
    else FlusherExit
  }

  /** A closed pipeline that has not finished always has a step to take, whatever the gateway does. */
  lemma NeverStuck(cfg: Config, p: Pipe, stamp: bytes, reply: F.Reply)
    requires cfg.maxBatch > 0 && cfg.clock(stamp) && PipeOk(cfg, p) && p.rawClosed && !p.flushDone
    requires reply == F.Canceled ==> p.cancelled
    ensures PipeEnabled(cfg, p, NextOf(p, stamp, reply))
  {
    hide Queues, OpenBatch;
  }

  // ---------------------------------------------------------------- the work left in the agent

  function SumWork(cfg: Config, pipes: seq<Pipe>): nat {
    if pipes == [] then 0 else SumWork(cfg, pipes[..|pipes| - 1]) + Work(cfg, pipes[|pipes| - 1])
  }

  lemma {:induction false} SumWorkUpdate(cfg: Config, pipes: seq<Pipe>, k: nat, p: Pipe)
    requires k < |pipes|
    ensures SumWork(cfg, pipes[k := p]) + Work(cfg, pipes[k]) == SumWork(cfg, pipes) + Work(cfg, p)
    decreases |pipes|
  {
    hide Work;
    var n := |pipes| - 1;
    if k < n {
      assert pipes[k := p][..n] == pipes[..n][k := p];
      SumWorkUpdate(cfg, pipes[..n], k, p);
    } else {
      assert pipes[k := p][..n] == pipes[..n];
    }
  }

  lemma {:induction false} SumWorkMore(cfg: Config, pipes: seq<Pipe>, more: seq<Pipe>)
    requires forall k :: 0 <= k < |more| ==> Work(cfg, more[k]) == 0
    ensures SumWork(cfg, pipes + more) == SumWork(cfg, pipes)
    decreases |more|
  {
    hide Work;
    if more == [] {
      assert pipes + more == pipes;
    } else {
      var n := |more| - 1;
      assert (pipes + more)[..|pipes| + n] == pipes + more[..n];
      SumWorkMore(cfg, pipes, more[..n]);
    }
  }

  /** Beginning a drain starts a pipeline's four last actions. */
  const PER_DRAIN := 5

  /** A bound on the steps shutdown still has to wait for. */
  function WorkLeft(cfg: Config, s: State): nat { |s.due| * PER_DRAIN + SumWork(cfg, s.pipes) }

  /** The steps shutdown waits for. */
  predicate DrainStep(st: Step) { st.OnPipe? || st.DrainBegin? }

  lemma BumpWork(cfg: Config, p: Pipe, st: Stats)
    ensures Work(cfg, Bump(p, st)) == Work(cfg, p)
  {
    hide AddStats, PerBatch;
  }

  lemma UntouchedWork(cfg: Config, p: Pipe)
    requires Untouched(p)
    ensures Work(cfg, p) == 0
  {
  }

  lemma OnPipeSheds(cfg: Config, s: State, pipe: PipeId, pst: PipeStep)
    requires FlowInv(cfg, s) && Enabled(cfg, s, OnPipe(pipe, pst))
    ensures WorkLeft(cfg, Apply(cfg, s, OnPipe(pipe, pst))) < WorkLeft(cfg, s)
  {
    hide Work, PipeOk, PipeEnabled, PipeEffect, Add, AddStats, SumWork, DispatchOk, InTransit, DemuxOk, PostOk;
    assert PipeOk(cfg, s.pipes[pipe]);
    hide FlowInv;
    var e := PipeEffect(cfg, s.pipes[pipe], pst);
    StepSheds(cfg, s.pipes[pipe], pst);
    BumpWork(cfg, e.pipe, e.booked);
    SumWorkUpdate(cfg, s.pipes, pipe, Bump(e.pipe, e.booked));
  }

  lemma CloseWork(cfg: Config, p: Pipe)
    requires !p.rawClosed
    ensures Work(cfg, p.(rawClosed := true)) <= Work(cfg, p) + 4
  {
    hide PerBatch;
  }

  lemma DrainSheds(cfg: Config, s: State, pipe: PipeId)
    requires s.due[pipe] > 0 && pipe < |s.pipes| && !s.pipes[pipe].rawClosed
    ensures WorkLeft(cfg, DrainBeginStep(s, pipe)) < WorkLeft(cfg, s)
  {
    hide Work, SumWork;
    CloseWork(cfg, s.pipes[pipe]);
    SumWorkUpdate(cfg, s.pipes, pipe, s.pipes[pipe].(rawClosed := true));
    assert |s.due - multiset{pipe}| == |s.due| - 1;
  }

  lemma BookedWork(cfg: Config, s: State, st: Step)
    requires Enabled(cfg, s, st) && (st.Admit? || st.Enqueue?)
    ensures WorkLeft(cfg, Apply(cfg, s, st)) == WorkLeft(cfg, s)
  {
    hide Work, SumWork, AddStats, Add;
    var id := s.dispatching[st.id].phase.pipe;
    var s' := Apply(cfg, s, st);
    if s'.pipes != s.pipes {
      var booked := if st.Admit? && s.pipes[id].inline && s.dispatching[st.id].dg.token == []
        then NO_STATS.(missingToken := 1)
                    else NO_STATS.(routingClosed := 1);
      BumpWork(cfg, s.pipes[id], booked);
      SumWorkUpdate(cfg, s.pipes, id, Bump(s.pipes[id], booked));
      assert s'.pipes == s.pipes[id := Bump(s.pipes[id], booked)];
    }
  }

  lemma MadeWork(cfg: Config, s: State, st: Step)
    requires Enabled(cfg, s, st) && MakesPipes(st)
    ensures WorkLeft(cfg, Apply(cfg, s, st)) == WorkLeft(cfg, s)
  {
    hide Work, SumWork, Untouched, BuiltTable, BuiltPipes, FreshNames, Enumerates;
    var s' := Apply(cfg, s, st);
    if st.ReloadBuild? {
      OrderInKeys(s.reload.keys, s.reload.prev, s.pipes, st.order);
      BuiltUntouched(s.reload.keys, s.pipes, st.order);
    }
    var more := s'.pipes[|s.pipes|..];
    assert s'.pipes == s.pipes + more;
    forall k | 0 <= k < |more| ensures Work(cfg, more[k]) == 0 {
      if st.RegisterMake? {
        StartedUntouched(s.dispatching[s.inline.id].dg.project);
      }
      UntouchedWork(cfg, more[k]);
    }
    SumWorkMore(cfg, s.pipes, more);
  }

  lemma StartedUntouched(project: bytes)
    ensures Untouched(Start(NewPipe(project, [], true)))
  {
  }

  /** While shutdown drains, its own steps use up the work and no other step adds to it. */
  lemma ShutdownSheds(cfg: Config, s: State, st: Step)
    requires FlowInv(cfg, s) && LifeInv(s) && !Open(s) && Enabled(cfg, s, st) && Serial(s, st)
    ensures WorkLeft(cfg, Apply(cfg, s, st)) + OneIf(DrainStep(st)) <= WorkLeft(cfg, s)
    ensures !Open(Apply(cfg, s, st))
  {
    hide FlowInv, Births, InlineCurrent, ReloadCurrent, Targets, SumWork, KeyMap, PipeEnabled, KeysOk;
    ShutSteps(cfg, s, st);
    match st
    case OnPipe(pipe, pst) => OnPipeSheds(cfg, s, pipe, pst);
    case DrainBegin(pipe) =>
      DrainsOnce(s, pipe);
      DrainSheds(cfg, s, pipe);
    case Admit(_) => BookedWork(cfg, s, st);
    case Enqueue(_) => BookedWork(cfg, s, st);
    case RegisterMake => MadeWork(cfg, s, st);
    case ReloadBuild(_) => MadeWork(cfg, s, st);
    case _ =>
      PipesAlone(cfg, s, st);
      hide Apply, Enabled;
  }

  lemma ShutSteps(cfg: Config, s: State, st: Step)
    requires Phases(s) && !Open(s) && Enabled(cfg, s, st) && Serial(s, st)
    ensures !IsStore(st) && !st.ShutdownLoad? && !st.DemuxSend? && !Open(Apply(cfg, s, st))
    ensures !st.DrainBegin? ==> Apply(cfg, s, st).due == s.due
  {
    hide PipeEffect, PipeEnabled, KeyMap, KeysOk, AllDrained, BuiltTable, BuiltPipes;
    if !st.DrainBegin? {
      DrainsAlone(cfg, s, st);
      hide Apply;
    }
  }

  function DrainSteps(steps: seq<Step>): nat {
    if steps == [] then 0 else DrainSteps(steps[..|steps| - 1]) + OneIf(DrainStep(steps[|steps| - 1]))
  }

  lemma {:induction false} DrainingShed(cfg: Config, states: seq<State>, steps: seq<Step>, k: nat, later: nat)
    requires SerialRun(cfg, states, steps) && k <= later < |states| && !Open(states[k])
    ensures DrainSteps(steps[k..later]) + WorkLeft(cfg, states[later]) <= WorkLeft(cfg, states[k])
            && !Open(states[later])
    decreases later
  {
    hide SerialRun, Run, WorkLeft, DrainStep, DrainSteps, LifeInv, FlowInv, Enabled, Apply, Serial, Open;
    RunSize(cfg, states, steps);
    DrainStepsSnoc(steps, k, later);
    if k < later {
      DrainingShed(cfg, states, steps, k, later - 1);
      LifeAlways(cfg, states, steps, later - 1);
      FlowAlways(cfg, states, steps, later - 1);
      SerialStep(cfg, states, steps, later - 1);
      ShutdownSheds(cfg, states[later - 1], steps[later - 1]);
    }
  }

  lemma DrainStepsSnoc(steps: seq<Step>, k: nat, later: nat)
    requires k <= later <= |steps|
    ensures DrainSteps(steps[k..later]) == if k == later then 0
            else DrainSteps(steps[k..later - 1]) + OneIf(DrainStep(steps[later - 1]))
  {
    if k < later {
      assert steps[k..later][..later - k - 1] == steps[k..later - 1];
    }
  }

  /** Once shutdown has loaded the table, the drains take at most a fixed number of further steps,
      whatever the gateway replies and whatever else is scheduled. */
  lemma DrainsAreBounded(cfg: Config, states: seq<State>, steps: seq<Step>, k: nat, later: nat)
    requires SerialRun(cfg, states, steps) && k <= later < |states| && states[k].shut == Draining
    ensures DrainSteps(steps[k..later]) <= WorkLeft(cfg, states[k])
  {
    hide WorkLeft, SerialRun, DrainSteps;
    DrainingShed(cfg, states, steps, k, later);
  }

  // ---------------------------------------------------------------- the demuxer runs dry

  predicate DemuxStep(st: Step) { st.DemuxTake? || st.DemuxLookup? || st.DemuxSend? || st.DemuxExit? }

  /** Three steps for every queued datagram, and what is left of the current one. */
  function QueueWork(s: State): nat {
    |s.shared| * 3 + match s.demux case Taken(_) => 3 case Holding(_, _) => 2 case Waiting => 1 case Exited => 0
  }

  lemma ClosedQueueSheds(cfg: Config, s: State, st: Step)
    requires Enabled(cfg, s, st) && s.sharedClosed
    ensures QueueWork(Apply(cfg, s, st)) + OneIf(DemuxStep(st)) <= QueueWork(s) && Apply(cfg, s, st).sharedClosed
  {
    hide Lookup, Add, AddStats, AllDrained, KeyMap, KeysOk, PipeEnabled, InRange, EnqueueStep, DemuxSendStep,
      DemuxLookupStep;
    match st
    case DemuxTake =>
    case DemuxExit =>
    case DemuxLookup => DemuxLooked(cfg, s);
    case DemuxSend => DemuxSent(s);
    case Enqueue(id) => QueueJoined(cfg, s, id);
    case CloseShared =>
    case ShutdownLoad =>
    case ShutdownDone =>
    case _ =>
      hide Apply, Enabled;
      QueueAlone(cfg, s, st);
  }

  lemma DemuxLooked(cfg: Config, s: State)
    requires s.demux.Taken?
    ensures var s' := DemuxLookupStep(cfg, s);
            && s'.shared == s.shared && s'.sharedClosed == s.sharedClosed && (s'.demux.Holding? || s'.demux == Waiting)
            && s'.shut == s.shut && s'.table == s.table && s'.pipes == s.pipes && s'.due == s.due
  {
    hide Lookup, Add;
  }

  lemma DemuxSent(s: State)
    requires s.demux.Holding? && s.demux.pipe < |s.pipes|
    ensures var s' := DemuxSendStep(s);
            && s'.shared == s.shared && s'.sharedClosed == s.sharedClosed && s'.demux == Waiting
            && s'.shut == s.shut && s'.table == s.table
  {
    hide Add, AddStats;
  }

  lemma QueueJoined(cfg: Config, s: State, id: nat)
    requires AdmittedOne(s, id) && s.sharedClosed
    ensures var s' := EnqueueStep(cfg, s, id); s'.shared == s.shared && s'.demux == s.demux && s'.sharedClosed
  {
    hide Add, AddStats;
  }

  function DemuxSteps(steps: seq<Step>): nat {
    if steps == [] then 0 else DemuxSteps(steps[..|steps| - 1]) + OneIf(DemuxStep(steps[|steps| - 1]))
  }

  /** After the shared queue is closed the demuxer has a fixed number of steps left, in every run. */
  lemma {:induction false} DemuxIsBounded(cfg: Config, states: seq<State>, steps: seq<Step>, k: nat, later: nat)
    requires Run(cfg, states, steps) && k <= later < |states| && states[k].sharedClosed
    ensures DemuxSteps(steps[k..later]) + QueueWork(states[later]) <= QueueWork(states[k]) && states[later].sharedClosed
    decreases later
  {
    hide QueueWork, DemuxStep, Run, Init, DemuxSteps;
    RunStart(cfg, states, steps);
    DemuxStepsSnoc(steps, k, later);
    if k < later {
      DemuxIsBounded(cfg, states, steps, k, later - 1);
      ClosedQueueAt(cfg, states, steps, later - 1);
    }
  }

  lemma DemuxStepsSnoc(steps: seq<Step>, k: nat, later: nat)
    requires k <= later <= |steps|
    ensures DemuxSteps(steps[k..later]) == if k == later then 0
            else DemuxSteps(steps[k..later - 1]) + OneIf(DemuxStep(steps[later - 1]))
  {
    if k < later {
      assert steps[k..later][..later - k - 1] == steps[k..later - 1];
    }
  }

  lemma ClosedQueueAt(cfg: Config, states: seq<State>, steps: seq<Step>, k: nat)
    requires Run(cfg, states, steps) && k < |steps| && states[k].sharedClosed
    ensures QueueWork(states[k + 1]) + OneIf(DemuxStep(steps[k])) <= QueueWork(states[k]) && states[k + 1].sharedClosed
  {
    RunStep(cfg, states, steps, k);
    hide Enabled, Apply, Run, QueueWork;
    ClosedQueueSheds(cfg, states[k], steps[k]);
  }

  /** Shutdown's own steps: closing the queue, the demuxer's, those of drains and pipelines, and finishing. */
  predicate ShutdownStep(st: Step) {
    st.CloseShared? || DemuxStep(st) || st.ShutdownLoad? || DrainStep(st) || st.ShutdownDone?
  }

  /** While shutdown is not finished, one of its own steps can be taken, whatever the gateway replies. */
  lemma ShutdownProgress(cfg: Config, states: seq<State>, steps: seq<Step>, k: nat, stamp: bytes, reply: F.Reply)
      returns (st: Step)
    requires cfg.Valid() && SerialRun(cfg, states, steps) && k < |states| && cfg.clock(stamp) && reply != F.Canceled
    requires states[k].shut != Finished
    ensures Enabled(cfg, states[k], st) && ShutdownStep(st)
  {
    hide SerialRun, Run, FlowInv, LifeInv, Enabled;
    RunSize(cfg, states, steps);
    LifeAlways(cfg, states, steps, k);
    FlowAlways(cfg, states, steps, k);
    if states[k].shut == Running {
      st := CloseShared;
      CloseNext(cfg, states[k]);
    } else if states[k].shut == QueueClosed {
      st := DemuxNext(cfg, states[k]);
    } else {
      st := DrainNext(cfg, states[k], stamp, reply);
    }
  }

  lemma CloseNext(cfg: Config, s: State)
    requires LifeInv(s) && s.shut == Running
    ensures Enabled(cfg, s, CloseShared)
  {
    hide Births, InlineCurrent, ReloadCurrent, Targets, Phases, KeysOk, KeyMap, PipeEnabled;
  }

  lemma DemuxNext(cfg: Config, s: State) returns (st: Step)
    requires LifeInv(s) && s.shut == QueueClosed
    ensures Enabled(cfg, s, st) && (DemuxStep(st) || st.ShutdownLoad?)
  {
    hide Births, InlineCurrent, ReloadCurrent;
    st := if s.demux.Taken? then DemuxLookup
          else if s.demux.Holding? then DemuxSend
          else if s.demux == Exited then ShutdownLoad
          else if s.shared != [] then DemuxTake
          else DemuxExit;
  }

  lemma DrainNext(cfg: Config, s: State, stamp: bytes, reply: F.Reply) returns (st: Step)
    requires cfg.Valid() && LifeInv(s) && FlowInv(cfg, s) && s.shut == Draining && cfg.clock(stamp)
             && reply != F.Canceled
    ensures Enabled(cfg, s, st) && (DrainStep(st) || st.ShutdownDone?)
  {
    hide InlineCurrent, ReloadCurrent, Targets, Unborn, Live, PipeOk, PipeEnabled;
    if s.due != multiset{} {
      var pipe :| pipe in s.due;
      st := DrainBegin(pipe);
    } else if AllDrained(s.pipes) {
      st := ShutdownDone;
    } else {
      var id :| 0 <= id < |s.pipes| && s.pipes[id].rawClosed && !s.pipes[id].flushDone;
      assert PipeOk(cfg, s.pipes[id]);
      NeverStuck(cfg, s.pipes[id], stamp, reply);
      st := OnPipe(id, NextOf(s.pipes[id], stamp, reply));
    }
  }

  // ---------------------------------------------------------------- shutdown comes to its end

  function Stage(sh: Shutdown): nat {
    match sh case Running => 3 case QueueClosed => 2 case Draining => 1 case Finished => 0
  }

  /** Drains that loading the table is still going to start. */
  function ToDrain(s: State): nat { if Open(s) then |Live(s)| else 0 }

  /** A bound on shutdown's own steps from here on: for each turn of the demuxer a datagram's way through a pipeline. */
  function Remaining(cfg: Config, s: State): nat {
    Stage(s.shut) + ToDrain(s) * PER_DRAIN + QueueWork(s) * (PerBatch(cfg) + 4) + WorkLeft(cfg, s)
  }

  lemma RemainingLess(cfg: Config, s: State, s': State)
    requires s'.shut == s.shut && s'.table == s.table && QueueWork(s') == QueueWork(s)
             && WorkLeft(cfg, s') < WorkLeft(cfg, s)
    ensures Remaining(cfg, s') < Remaining(cfg, s)
  {
    hide QueueWork, WorkLeft, PerBatch;
  }

  /** A turn of the demuxer pays for the datagram it may hand to a pipeline. */
  lemma TurnPays(cfg: Config, s: State, s': State)
    requires s'.shut == s.shut && s'.table == s.table && QueueWork(s') < QueueWork(s)
    requires WorkLeft(cfg, s') <= WorkLeft(cfg, s) + PerBatch(cfg) + 3
    ensures Remaining(cfg, s') < Remaining(cfg, s)
  {
    hide QueueWork, WorkLeft, PerBatch;
    var w := PerBatch(cfg) + 4;
    Scaled(QueueWork(s') + 1, QueueWork(s), w);
    OneMore(QueueWork(s'), w);
  }

  lemma HandedWork(cfg: Config, p: Pipe, dg: Datagram)
    ensures Work(cfg, p.(raw := p.raw + [dg])) == Work(cfg, p) + PerBatch(cfg) + 3
  {
    hide PerBatch;
    OneMore(|p.raw|, PerBatch(cfg) + 3);
  }

  lemma SentWork(cfg: Config, s: State)
    requires s.demux.Holding? && s.demux.pipe < |s.pipes|
    ensures WorkLeft(cfg, DemuxSendStep(s)) <= WorkLeft(cfg, s) + PerBatch(cfg) + 3
  {
    hide Work, SumWork, AddStats, Add, PerBatch;
    var dg, id := s.demux.dg, s.demux.pipe;
    var p := s.pipes[id];
    HandedWork(cfg, p, dg);
    BumpWork(cfg, p, NO_STATS.(routingClosed := 1));
    BumpWork(cfg, p, NO_STATS.(queueFull := 1));
    SumWorkUpdate(cfg, s.pipes, id, DemuxSendStep(s).pipes[id]);
  }

  lemma DemuxLowers(cfg: Config, s: State, st: Step)
    requires Enabled(cfg, s, st) && DemuxStep(st)
    ensures Remaining(cfg, Apply(cfg, s, st)) < Remaining(cfg, s)
  {
    hide Work, SumWork, PerBatch, Lookup, Add, AddStats, KeyMap, KeysOk, PipeEnabled, InRange, DemuxSendStep,
      DemuxLookupStep, Remaining;
    match st {
      case DemuxLookup => DemuxLooked(cfg, s);
      case DemuxSend => DemuxSent(s); SentWork(cfg, s);
      case _ =>
    }
    TurnPays(cfg, s, Apply(cfg, s, st));
  }

  lemma LoadLowers(cfg: Config, s: State)
    requires Enabled(cfg, s, ShutdownLoad)
    ensures Remaining(cfg, Apply(cfg, s, ShutdownLoad)) < Remaining(cfg, s)
  {
    hide SumWork, PerBatch, QueueWork, KeyMap, KeysOk, PipeEnabled;
    var s' := Apply(cfg, s, ShutdownLoad);
    SetSize(Live(s));
    assert |s'.due| == |s.due| + |Live(s)|;
    assert QueueWork(s') == QueueWork(s) by { SameQueue(s, s'); }
  }

  lemma SameQueue(s: State, s': State)
    requires s'.shared == s.shared && s'.demux == s.demux
    ensures QueueWork(s') == QueueWork(s)
  {
  }

  lemma StageLowers(cfg: Config, s: State, st: Step)
    requires Enabled(cfg, s, st) && (st.CloseShared? || st.ShutdownDone?)
    ensures Remaining(cfg, Apply(cfg, s, st)) < Remaining(cfg, s)
  {
    hide SumWork, PerBatch, QueueWork, KeyMap, KeysOk, PipeEnabled, AllDrained;
    SameQueue(s, Apply(cfg, s, st));
  }

  lemma DrainLowers(cfg: Config, s: State, st: Step)
    requires FlowInv(cfg, s) && LifeInv(s) && Enabled(cfg, s, st) && DrainStep(st)
    ensures Remaining(cfg, Apply(cfg, s, st)) < Remaining(cfg, s)
  {
    hide FlowInv, Births, InlineCurrent, ReloadCurrent, Targets, Phases, WorkLeft, QueueWork, Remaining, PipeEffect,
      PipeEnabled, KeyMap, KeysOk, Add, AddStats;
    var s' := Apply(cfg, s, st);
    match st {
      case OnPipe(pipe, pst) => OnPipeSheds(cfg, s, pipe, pst);
      case DrainBegin(pipe) =>
        DrainsOnce(s, pipe);
        DrainSheds(cfg, s, pipe);
    }
    SameQueue(s, s');
    RemainingLess(cfg, s, s');
  }

  /** Each of shutdown's own steps brings it nearer to its end. */
  lemma ShutdownLowers(cfg: Config, s: State, st: Step)
    requires FlowInv(cfg, s) && LifeInv(s) && Enabled(cfg, s, st) && ShutdownStep(st)
    ensures Remaining(cfg, Apply(cfg, s, st)) < Remaining(cfg, s)
  {
    hide FlowInv, LifeInv, Apply, Enabled, Remaining;
    if DemuxStep(st) {
      DemuxLowers(cfg, s, st);
    } else if DrainStep(st) {
      DrainLowers(cfg, s, st);
    } else if st.ShutdownLoad? {
      LoadLowers(cfg, s);
    } else {
      StageLowers(cfg, s, st);
    }
  }

  /** Every serialised run can be carried on to the end of shutdown by shutdown's own steps, in at most
      as many steps as are remaining, under any reply of the gateway. */
  lemma {:induction false} ShutdownCompletes(cfg: Config, states: seq<State>, steps: seq<Step>, stamp: bytes,
      reply: F.Reply)
    returns (states': seq<State>, steps': seq<Step>)
    requires cfg.Valid() && SerialRun(cfg, states, steps) && states != [] && cfg.clock(stamp) && reply != F.Canceled
    ensures SerialRun(cfg, states', steps') && states <= states' && steps <= steps' && Last(states').shut == Finished
    ensures |steps'| <= |steps| + Remaining(cfg, Last(states))
    ensures forall k :: |steps| <= k < |steps'| ==> ShutdownStep(steps'[k])
    decreases Remaining(cfg, Last(states))
  {
    hide SerialRun, Run, Enabled, Apply, Remaining, FlowInv, LifeInv, ShutdownStep, Serial;
    RunSize(cfg, states, steps);
    states', steps' := states, steps;
    if Last(states).shut != Finished {
      var st := ShutdownProgress(cfg, states, steps, |states| - 1, stamp, reply);
      LifeAlways(cfg, states, steps, |states| - 1);
      FlowAlways(cfg, states, steps, |states| - 1);
      ShutdownLowers(cfg, Last(states), st);
      ShutdownIsSerial(Last(states), st);
      SerialMore(cfg, states, steps, st);
      states', steps' := ShutdownCompletes(cfg, states + [Apply(cfg, Last(states), st)], steps + [st], stamp, reply);
    }
  }

  lemma ShutdownIsSerial(s: State, st: Step)
    requires ShutdownStep(st)
    ensures Serial(s, st)
  {
  }
}
