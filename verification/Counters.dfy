/** How far the sum that the comment on the per-project counters documents is from the datagrams
    received: which steps move it, and a run that ends with it wrong. */
module Counters {
  import opened Bytes
  import opened Batching
  import opened Stripping
  import opened Events
  import F = Flushing
  import opened Registry
  import opened Protocol
  import opened Ledger
  import opened LedgerLaws
  import opened Lifecycle
  import opened Quiescence
  import opened EndToEnd
  import opened Hazards
  import opened Witnesses

  /** By how much the commented sum, with the datagrams that no batcher has taken, exceeds the received. */
  function Gap(s: State): int { CommentedSum(s.tally, SumStats(s.pipes)) + BeforeBatchers(s) - s.received }

  /** What a step adds to the gap: one for a batcher's parse error, minus one for a shared-queue overflow
      and for a failed lookup of the demuxer. */
  function Shift(cfg: Config, s: State, st: Step): int
    requires Enabled(cfg, s, st)
  {
    match st
    case OnPipe(pipe, Accept(stamp)) => if cfg.validate(s.pipes[pipe].raw[0].body, stamp) == ParseError then 1 else 0
    case Enqueue(_) => if !s.sharedClosed && |s.shared| >= cfg.queueSize then -1 else 0
    case DemuxLookup =>
      var project := s.demux.dg.project;
      if Missing(s.table, cfg.requireProject, project) || NameOf(project) !in s.table.names then -1 else 0
    case _ => 0
  }

  // ---------------------------------------------------------------- the three counters behind the gap

  function ParseErrors(pipes: seq<Pipe>): nat { SumStats(pipes).parseError }

  function Drift(s: State): int { ParseErrors(s.pipes) - s.tally.queueFull - s.misses }

  lemma GapIsDrift(s: State)
    requires LedgerInv(s)
    ensures Gap(s) == Drift(s)
  {
    ConservationAt(s);
    hide Census, SumStats, LedgerLaws.Queued, InBatches, BeforeBatchers, Overflowed;
    OverflowedIsSum(s.pipes);
    ProjectBooks(s.pipes);
  }

  lemma ParseErrorsAt(pipes: seq<Pipe>, k: nat, p: Pipe)
    requires k < |pipes|
    ensures ParseErrors(pipes[k := p]) + pipes[k].stats.parseError == ParseErrors(pipes) + p.stats.parseError
  {
    hide SumStats;
    SumUpdate(pipes, k, p);
  }

  lemma ParseErrorsMore(pipes: seq<Pipe>, more: seq<Pipe>)
    requires forall k :: 0 <= k < |more| ==> Untouched(more[k])
    ensures ParseErrors(pipes + more) == ParseErrors(pipes)
  {
    hide SumStats, Untouched, NO_STATS;
    forall k | 0 <= k < |more| ensures more[k].stats == NO_STATS {
      UntouchedStats(more[k]);
    }
    SumMore(pipes, more);
  }

  // ---------------------------------------------------------------- step by step

  lemma DriftDispatch(cfg: Config, s: State, st: Step)
    requires Enabled(cfg, s, st) && (st.Deliver? || st.RouteOne? || st.LookUp? || st.RegisterLock? || st.RegisterLoad?
             || st.RegisterStore?)
    ensures Drift(Apply(cfg, s, st)) == Drift(s)
  {
    hide ParseErrors, Lookup, KeyMap, KeysOk, PipeEnabled;
  }

  lemma BookDrift(s: State, pipe: PipeId, st: Stats)
    requires pipe < |s.pipes| && st.parseError == 0
    ensures Drift(Book(s, pipe, st)) == Drift(s)
  {
    hide ParseErrors;
    ParseErrorsAt(s.pipes, pipe, Bump(s.pipes[pipe], st));
  }

  lemma DriftHandled(cfg: Config, s: State, st: Step)
    requires Enabled(cfg, s, st) && (st.Admit? || st.Enqueue?)
    ensures Drift(Apply(cfg, s, st)) == Drift(s) + Shift(cfg, s, st)
  {
    hide ParseErrors, Book, KeyMap, KeysOk, PipeEnabled;
    var pipe := s.dispatching[st.id].phase.pipe;
    var closed, missing := ZERO_TALLY.(routingClosed := 1), ZERO_TALLY.(missingToken := 1);
    BookDrift(Drop(s, st.id, closed), pipe, NO_STATS.(routingClosed := 1));
    BookDrift(Drop(s, st.id, missing), pipe, NO_STATS.(missingToken := 1));
  }

  lemma DriftLookup(cfg: Config, s: State)
    requires Enabled(cfg, s, DemuxLookup)
    ensures Drift(Apply(cfg, s, DemuxLookup)) == Drift(s) + Shift(cfg, s, DemuxLookup)
  {
    LookupExact(s.table, cfg.requireProject, s.demux.dg.project);
    hide ParseErrors, Lookup, KeyMap, KeysOk, PipeEnabled;
  }

  lemma DriftSend(s: State)
    requires s.demux.Holding? && s.demux.pipe < |s.pipes|
    ensures Drift(DemuxSendStep(s)) == Drift(s)
  {
    hide ParseErrors, Book;
    var dg, pipe := s.demux.dg, s.demux.pipe;
    var p, t := s.pipes[pipe], s.(demux := Waiting);
    BookDrift(t.(tally := Add(s.tally, ZERO_TALLY.(routingClosed := 1)), settled := s.settled + multiset{dg.id}), pipe,
              NO_STATS.(routingClosed := 1));
    BookDrift(t.(settled := s.settled + multiset{dg.id}), pipe, NO_STATS.(queueFull := 1));
    ParseErrorsAt(s.pipes, pipe, p.(raw := p.raw + [dg]));
  }

  /** The books of an effect hold `n` parse errors and no overflow of the shared queue. */
  predicate Errs(p: Pipe, e: Effect, n: nat) {
    e.pipe.stats == p.stats && e.tally.queueFull == 0 && e.booked.parseError == n
  }

  lemma FinishErrs(p: Pipe, e: F.Ending, posted: bool)
    requires p.sending.Some?
    ensures Errs(p, Finish(p, e, posted), 0)
  {
    hide ItemIds;
  }

  lemma AcceptErrs(cfg: Config, p: Pipe, stamp: bytes)
    requires p.raw != []
    ensures Errs(p, AcceptStep(cfg, p, stamp), if cfg.validate(p.raw[0].body, stamp) == ParseError then 1 else 0)
  {
    hide ItemsWeight;
  }

  /** A pipeline step counts a parse error exactly when the batcher refuses a datagram for one. */
  lemma EffectErrs(cfg: Config, p: Pipe, pst: PipeStep)
    requires PipeEnabled(cfg, p, pst)
    ensures Errs(p, PipeEffect(cfg, p, pst), if pst.Accept? && cfg.validate(p.raw[0].body, pst.stamp) == ParseError
            then 1 else 0)
  {
    hide ItemIds, Finish, AcceptStep;
    match pst
    case Accept(stamp) => AcceptErrs(cfg, p, stamp);
    case CutWait => FinishErrs(p, F.Cut, false);
    case Attempt(_) =>
      FinishErrs(p, F.Sent, true);
      FinishErrs(p, F.Cut, true);
      FinishErrs(p, F.Failed, true);
    case _ =>
  }

  lemma DriftOnPipe(cfg: Config, s: State, pipe: PipeId, pst: PipeStep)
    requires Enabled(cfg, s, OnPipe(pipe, pst))
    ensures Drift(Apply(cfg, s, OnPipe(pipe, pst))) == Drift(s) + Shift(cfg, s, OnPipe(pipe, pst))
  {
    hide ParseErrors, PipeEffect, PipeEnabled, KeyMap, KeysOk;
    var e := PipeEffect(cfg, s.pipes[pipe], pst);
    EffectErrs(cfg, s.pipes[pipe], pst);
    ParseErrorsAt(s.pipes, pipe, Bump(e.pipe, e.booked));
  }

  lemma DriftMakes(cfg: Config, s: State, st: Step)
    requires Enabled(cfg, s, st) && (st.RegisterMake? || st.ReloadBuild?)
    ensures Drift(Apply(cfg, s, st)) == Drift(s)
  {
    hide ParseErrors, BuiltTable, FreshNames, Untouched;
    match st
    case RegisterMake =>
      StartedUntouched(s.dispatching[s.inline.id].dg.project);
      ParseErrorsMore(s.pipes, [Start(NewPipe(s.dispatching[s.inline.id].dg.project, [], true))]);
    case ReloadBuild(order) =>
      var w := s.reload;
      OrderInKeys(w.keys, w.prev, s.pipes, order);
      BuiltUntouched(w.keys, s.pipes, order);
      ParseErrorsMore(s.pipes, BuiltPipes(w.keys, s.pipes, order)[|s.pipes|..]);
  }

  lemma DriftDrain(s: State, pipe: PipeId)
    requires pipe < |s.pipes|
    ensures Drift(DrainBeginStep(s, pipe)) == Drift(s)
  {
    hide ParseErrors;
    ParseErrorsAt(s.pipes, pipe, s.pipes[pipe].(rawClosed := true));
  }

  lemma DriftStill(cfg: Config, s: State, st: Step)
    requires Enabled(cfg, s, st)
    requires st.DemuxTake? || st.DemuxExit? || st.ReloadRead? || st.ReloadLoad? || st.ReloadStore? || st.ExpireLoad?
             || st.ExpireStore?
             || st.ExpireQuit? || st.CloseShared? || st.ShutdownLoad? || st.ShutdownDone?
    ensures Drift(Apply(cfg, s, st)) == Drift(s)
  {
    hide ParseErrors, KeyMap, Without, Dropped, KeysOk, InlinePipes, AllDrained, PipeEnabled;
  }

  lemma DriftStep(cfg: Config, s: State, st: Step)
    requires Enabled(cfg, s, st)
    ensures Drift(Apply(cfg, s, st)) == Drift(s) + Shift(cfg, s, st)
  {
    hide Drift, Lookup;
    match st
    case Admit(_) => DriftHandled(cfg, s, st);
    case Enqueue(_) => DriftHandled(cfg, s, st);
    case DemuxLookup => DriftLookup(cfg, s);
    case DemuxSend => DriftSend(s);
    case OnPipe(pipe, pst) => DriftOnPipe(cfg, s, pipe, pst);
    case DrainBegin(pipe) => DriftDrain(s, pipe);
    case RegisterMake => DriftMakes(cfg, s, st);
    case ReloadBuild(_) => DriftMakes(cfg, s, st);
    case Deliver(_, _) => DriftDispatch(cfg, s, st);
    case RouteOne(_) => DriftDispatch(cfg, s, st);
    case LookUp(_) => DriftDispatch(cfg, s, st);
    case RegisterLock(_) => DriftDispatch(cfg, s, st);
    case RegisterLoad => DriftDispatch(cfg, s, st);
    case RegisterStore => DriftDispatch(cfg, s, st);
    case _ => DriftStill(cfg, s, st);
  }

  // ---------------------------------------------------------------- over runs

  /** The gap moves by one exactly at a batcher's parse error, a shared-queue overflow or a failed lookup
      of the demuxer, and at no other step of any run. */
  lemma GapMoves(cfg: Config, states: seq<State>, steps: seq<Step>, k: nat)
    requires Run(cfg, states, steps) && k < |steps|
    ensures |states| == |steps| + 1 && Enabled(cfg, states[k], steps[k])
    ensures Gap(states[k + 1]) == Gap(states[k]) + Shift(cfg, states[k], steps[k])
  {
    hide Run, Enabled, Apply, Gap, Drift, Shift, LedgerInv, Balanced;
    RunStep(cfg, states, steps, k);
    LedgerAlways(cfg, states, steps, k);
    LedgerAlways(cfg, states, steps, k + 1);
    BalancedExact(states[k]);
    BalancedExact(states[k + 1]);
    GapIsDrift(states[k]);
    GapIsDrift(states[k + 1]);
    DriftStep(cfg, states[k], steps[k]);
  }

  /** Wherever datagrams without a project go to a default one, an empty datagram makes the commented sum wrong. */
  lemma CommentFails(cfg: Config, codec: Codec, std: Std) returns (states: seq<State>, steps: seq<Step>)
    requires Deployed(cfg, codec, std) && cfg.apiKey != [] && !cfg.requireProject
    ensures Run(cfg, states, steps) && states != []
    ensures var s := Last(states); s.received != CommentedSum(s.tally, SumStats(s.pipes)) + BeforeBatchers(s)
  {
    hide Run, Names, Ordinary, Wired, CommentedSum, BeforeBatchers, BodyOf;
    var stamp :| cfg.clock(stamp);
    hide Deployed;
    EmptyNames(cfg, codec, std, stamp);
    states, steps := Refuses(cfg, [], [], stamp);
    SumOne(Last(states).pipes);
    CommentExact(cfg, states, steps, |states| - 1);
  }

  lemma SumOne(pipes: seq<Pipe>)
    requires |pipes| == 1
    ensures SumStats(pipes).parseError == pipes[0].stats.parseError
  {
    assert pipes[..0] == [];
  }
}
