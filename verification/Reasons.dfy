/** What the steps of a run count, close and post, reason by reason and in terms of the state alone. */
module Reasons {
  import opened Bytes
  import opened Batching
  import opened Events
  import F = Flushing
  import opened Registry
  import opened Protocol
  import opened TableLaws
  import opened FlowLaws
  import opened Lifecycle

  // ---------------------------------------------------------------- why something is counted

  predicate Routing(s: State, st: Step) { st.RouteOne? && st.id in s.dispatching }

  predicate MalformedAt(cfg: Config, s: State, st: Step) {
    Routing(s, st) && cfg.route(s.dispatching[st.id].dg.body).malformed
  }

  predicate BadProjectAt(cfg: Config, s: State, st: Step) {
    Routing(s, st) && var f := cfg.route(s.dispatching[st.id].dg.body); !f.malformed && f.badProject
  }

  predicate BadTokenAt(cfg: Config, s: State, st: Step) {
    && Routing(s, st)
    && var f := cfg.route(s.dispatching[st.id].dg.body);
       cfg.inlineTokens && !f.malformed && !f.badProject && f.badToken
  }

  /** The lookup of a datagram without a project, where one is required or there is no default. */
  predicate MissingAt(cfg: Config, s: State, st: Step) {
    st.LookUp? && st.id in s.dispatching && Missing(s.table, cfg.requireProject, s.dispatching[st.id].dg.project)
  }

  /** The lookup of a name that nobody has, by a datagram without a token that counts, or a registration
      that finds the table full. */
  predicate UnknownAt(cfg: Config, s: State, st: Step) {
    || (st.LookUp? && st.id in s.dispatching
        && var dg := s.dispatching[st.id].dg;
           dg.project != [] && dg.project !in s.table.names && !(cfg.inlineTokens && dg.token != []))
    || (st.RegisterLoad? && cfg.maxProjects > 0 && |s.table.names| >= cfg.maxProjects)
  }

  predicate Handling(s: State, st: Step) { st.Admit? && FoundOne(s, st.id) }

  /** A datagram without a token for a pipeline without a key. */
  predicate TokenlessAt(s: State, st: Step) {
    Handling(s, st) && s.pipes[s.dispatching[st.id].phase.pipe].inline && s.dispatching[st.id].dg.token == []
  }

  /** The pipeline is closed at dispatch, or shutdown has closed the shared queue, or the demuxer finds no
      project any more, or a closed pipeline. */
  predicate ClosedAt(cfg: Config, s: State, st: Step) {
    || (Handling(s, st) && !TokenlessAt(s, st) && s.pipes[s.dispatching[st.id].phase.pipe].rawClosed)
    || (st.Enqueue? && s.sharedClosed)
    || (st.DemuxLookup? && s.demux.Taken? && GoneAt(cfg, s))
    || (st.DemuxSend? && s.demux.Holding? && s.demux.pipe < |s.pipes| && s.pipes[s.demux.pipe].rawClosed)
  }

  predicate GoneAt(cfg: Config, s: State)
    requires s.demux.Taken?
  {
    var project := s.demux.dg.project;
    Missing(s.table, cfg.requireProject, project) || NameOf(project) !in s.table.names
  }

  predicate OverflowAt(cfg: Config, s: State, st: Step) {
    st.Enqueue? && !s.sharedClosed && |s.shared| >= cfg.queueSize
  }

  /** What the batcher makes of the datagram it takes. */
  function VerdictAt(cfg: Config, s: State, st: Step): Option<Verdict> {
    if st.OnPipe? && st.st.Accept? && st.pipe < |s.pipes| && s.pipes[st.pipe].raw != []
    then Some(cfg.validate(s.pipes[st.pipe].raw[0].body, st.st.stamp)) else None
  }

  /** The events of the batch that the flusher has in hand. */
  function InHand(s: State, st: Step): nat {
    if st.OnPipe? && st.pipe < |s.pipes| && s.pipes[st.pipe].sending.Some?
    then |s.pipes[st.pipe].sending.value.batch.items| else 0
  }

  function AttemptsAt(s: State, st: Step): nat {
    if st.OnPipe? && st.pipe < |s.pipes| && s.pipes[st.pipe].sending.Some? then s.pipes[st.pipe].sending.value.attempts
    else 0
  }

  predicate Replied(st: Step, reply: F.Reply) { st.OnPipe? && st.st == Attempt(reply) }

  function SentAt(s: State, st: Step): nat { if Replied(st, F.Delivered) then InHand(s, st) else 0 }

  /** A fatal reply, or a retryable one to the last attempt. */
  function FailedAt(cfg: Config, s: State, st: Step): nat {
    if Replied(st, F.Fatal) || (Replied(st, F.Retryable) && AttemptsAt(s, st) >= cfg.maxRetries) then InHand(s, st)
    else 0
  }

  /** A send cut short, or a batch that shutdown abandons before the flusher has it. */
  function CutAt(s: State, st: Step): nat {
    if Replied(st, F.Canceled) || (st.OnPipe? && st.st == CutWait) then InHand(s, st)
    else if st.OnPipe? && st.st == Abandon && st.pipe < |s.pipes| && s.pipes[st.pipe].pending.Some?
    then |s.pipes[st.pipe].pending.value.items| else 0
  }

  /** Every process-wide counter moves by its own reasons alone. */
  predicate Counted(cfg: Config, s: State, st: Step, t: Tally, t': Tally) {
    && t'.parseError == t.parseError + OneIf(MalformedAt(cfg, s, st)) + OneIf(VerdictAt(cfg, s, st) == Some(ParseError))
    && t'.oversize == t.oversize + OneIf(VerdictAt(cfg, s, st) == Some(Oversize))
    && t'.badToken == t.badToken + OneIf(BadTokenAt(cfg, s, st))
    && t'.unroutedMissing == t.unroutedMissing + OneIf(MissingAt(cfg, s, st))
    && t'.unroutedUnknown == t.unroutedUnknown + OneIf(BadProjectAt(cfg, s, st)) + OneIf(UnknownAt(cfg, s, st))
    && t'.missingToken == t.missingToken + OneIf(TokenlessAt(s, st))
    && t'.routingClosed == t.routingClosed + OneIf(ClosedAt(cfg, s, st))
    && t'.queueFull == t.queueFull + OneIf(OverflowAt(cfg, s, st))
    && t'.sent == t.sent + SentAt(s, st)
    && t'.flushFailed == t.flushFailed + FailedAt(cfg, s, st)
    && t'.shutdown == t.shutdown + CutAt(s, st)
  }

  // ---------------------------------------------------------------- step by step

  lemma CountsRoute(cfg: Config, s: State, id: nat)
    requires Enabled(cfg, s, RouteOne(id))
    ensures Counted(cfg, s, RouteOne(id), s.tally, RouteStep(cfg, s, id).tally)
  {
    hide KeyMap, KeysOk, PipeEnabled;
  }

  lemma CountsLookUp(cfg: Config, s: State, id: nat)
    requires Enabled(cfg, s, LookUp(id))
    ensures Counted(cfg, s, LookUp(id), s.tally, LookUpStep(cfg, s, id).tally)
  {
    LookupExact(s.table, cfg.requireProject, s.dispatching[id].dg.project);
    hide KeyMap, KeysOk, PipeEnabled, Lookup;
  }

  lemma CountsLoad(cfg: Config, s: State)
    requires Enabled(cfg, s, RegisterLoad) && s.dispatching[s.inline.id].dg.project != []
    ensures Counted(cfg, s, RegisterLoad, s.tally, RegisterLoadStep(cfg, s).tally)
  {
    hide KeyMap, KeysOk, PipeEnabled;
  }

  lemma CountsAdmit(cfg: Config, s: State, id: nat)
    requires FoundOne(s, id)
    ensures Counted(cfg, s, Step.Admit(id), s.tally, AdmitStep(s, id).tally)
  {
    hide AddStats, Bump;
  }

  lemma CountsEnqueue(cfg: Config, s: State, id: nat)
    requires AdmittedOne(s, id)
    ensures Counted(cfg, s, Enqueue(id), s.tally, EnqueueStep(cfg, s, id).tally)
  {
    hide AddStats, Bump;
  }

  lemma CountsLookedUp(cfg: Config, s: State)
    requires s.demux.Taken?
    ensures Counted(cfg, s, DemuxLookup, s.tally, DemuxLookupStep(cfg, s).tally)
  {
    LookupExact(s.table, cfg.requireProject, s.demux.dg.project);
    hide Lookup;
  }

  lemma CountsSent(cfg: Config, s: State)
    requires s.demux.Holding? && s.demux.pipe < |s.pipes|
    ensures Counted(cfg, s, DemuxSend, s.tally, DemuxSendStep(s).tally)
  {
    hide AddStats, Bump, GoneAt, InHand, AttemptsAt, NO_STATS;
    if s.pipes[s.demux.pipe].rawClosed {
      assert DemuxSendStep(s).tally == Add(s.tally, ZERO_TALLY.(routingClosed := 1));
    } else {
      assert DemuxSendStep(s).tally == s.tally;
    }
  }

  lemma CountsAccept(cfg: Config, s: State, pipe: PipeId, stamp: bytes)
    requires pipe < |s.pipes| && s.pipes[pipe].raw != []
    ensures Counted(cfg, s, OnPipe(pipe, Accept(stamp)), s.tally,
            Add(s.tally, AcceptStep(cfg, s.pipes[pipe], stamp).tally))
  {
    hide ItemsWeight, Extended, Overflows, Closed, NO_STATS;
  }

  lemma CountsSend(cfg: Config, s: State, pipe: PipeId, pst: PipeStep)
    requires pipe < |s.pipes| && PipeEnabled(cfg, s.pipes[pipe], pst) && (pst.Attempt? || pst.CutWait?)
    ensures Counted(cfg, s, OnPipe(pipe, pst), s.tally, Add(s.tally, PipeEffect(cfg, s.pipes[pipe], pst).tally))
  {
    hide ItemIds, NO_STATS, AcceptStep;
  }

  lemma CountsOwn(cfg: Config, s: State, pipe: PipeId, pst: PipeStep)
    requires pipe < |s.pipes| && PipeEnabled(cfg, s.pipes[pipe], pst) && !pst.Attempt? && !pst.CutWait? && !pst.Accept?
    ensures Counted(cfg, s, OnPipe(pipe, pst), s.tally, Add(s.tally, PipeEffect(cfg, s.pipes[pipe], pst).tally))
  {
    hide ItemIds, NO_STATS, AcceptStep, AttemptStep, Finish;
  }

  lemma CountsPipe(cfg: Config, s: State, pipe: PipeId, pst: PipeStep)
    requires Enabled(cfg, s, OnPipe(pipe, pst))
    ensures Counted(cfg, s, OnPipe(pipe, pst), s.tally, Apply(cfg, s, OnPipe(pipe, pst)).tally)
  {
    hide Counted, KeyMap, KeysOk, AttemptStep, AcceptStep, Finish, Add;
    match pst
    case Accept(stamp) => CountsAccept(cfg, s, pipe, stamp);
    case Attempt(_) => CountsSend(cfg, s, pipe, pst);
    case CutWait => CountsSend(cfg, s, pipe, pst);
    case _ => CountsOwn(cfg, s, pipe, pst);
  }

  lemma CountsNothing(cfg: Config, s: State, st: Step)
    requires Enabled(cfg, s, st) && !st.RouteOne? && !st.LookUp? && !st.RegisterLoad? && !st.Admit? && !st.Enqueue?
    requires !st.DemuxLookup? && !st.DemuxSend? && !st.OnPipe?
    ensures Apply(cfg, s, st).tally == s.tally
  {
    hide KeyMap, KeysOk, PipeEnabled, InRange, Lookup, BuiltTable, BuiltPipes, FreshNames, Enumerates, NewPipe, Without,
      Dropped, InlinePipes, AllDrained;
  }

  /** What is counted in any step of any run: each process-wide counter moves exactly when, and by as much as,
      one of its own reasons says. */
  lemma CountersExact(cfg: Config, states: seq<State>, steps: seq<Step>, k: nat)
    requires Run(cfg, states, steps) && k < |steps|
    ensures |states| == |steps| + 1 && Counted(cfg, states[k], steps[k], states[k].tally, states[k + 1].tally)
  {
    hide Run, TablesInv, Published, IdsGiven, Counted;
    RunStep(cfg, states, steps, k);
    TablesAlways(cfg, states, steps, k);
    CountsStep(cfg, states[k], steps[k]);
  }

  lemma CountsStep(cfg: Config, s: State, st: Step)
    requires TablesInv(cfg, s) && Enabled(cfg, s, st)
    ensures Counted(cfg, s, st, s.tally, Apply(cfg, s, st).tally)
  {
    hide TablesInv, Counted;
    match st
    case RouteOne(id) => CountsRoute(cfg, s, id);
    case LookUp(id) => CountsLookUp(cfg, s, id);
    case RegisterLoad => WantsNamed(cfg, s); CountsLoad(cfg, s);
    case Admit(id) => CountsAdmit(cfg, s, id);
    case Enqueue(id) => CountsEnqueue(cfg, s, id);
    case DemuxLookup => CountsLookedUp(cfg, s);
    case DemuxSend => CountsSent(cfg, s);
    case OnPipe(pipe, pst) => hide Apply, Enabled; CountsPipe(cfg, s, pipe, pst);
    case _ =>
      hide Apply, Enabled;
      CountsNothing(cfg, s, st);
      NothingCounted(cfg, s, st);
  }

  lemma NothingCounted(cfg: Config, s: State, st: Step)
    requires !st.RouteOne? && !st.LookUp? && !st.RegisterLoad? && !st.Admit? && !st.Enqueue? && !st.DemuxLookup?
    requires !st.DemuxSend? && !st.OnPipe?
    ensures Counted(cfg, s, st, s.tally, s.tally)
  {
  }

  lemma WantsNamed(cfg: Config, s: State)
    requires TablesInv(cfg, s) && Enabled(cfg, s, RegisterLoad)
    ensures s.dispatching[s.inline.id].dg.project != []
  {
    hide GoodTable, Identities, HolderOk, ReloadOk, KeyMap, KeysOk, PipeEnabled;
    assert WantsOk(cfg, s.dispatching[s.inline.id]);
  }

  /** Events are counted as cut by shutdown only in a pipeline that is draining and whose grace period is over. */
  lemma CutOnlyWhenOver(cfg: Config, states: seq<State>, steps: seq<Step>, k: nat)
    requires Run(cfg, states, steps) && k < |steps| && |states| == |steps| + 1 && CutAt(states[k], steps[k]) > 0
    ensures steps[k].OnPipe? && steps[k].pipe < |states[k].pipes|
    ensures states[k].pipes[steps[k].pipe].cancelled && states[k].pipes[steps[k].pipe].rawClosed
  {
    hide Run, FlowInv;
    RunStep(cfg, states, steps, k);
    FlowAlways(cfg, states, steps, k);
    CutOver(cfg, states[k], steps[k]);
  }

  lemma CutOver(cfg: Config, s: State, st: Step)
    requires FlowInv(cfg, s) && Enabled(cfg, s, st) && CutAt(s, st) > 0
    ensures st.OnPipe? && st.pipe < |s.pipes| && s.pipes[st.pipe].cancelled && s.pipes[st.pipe].rawClosed
  {
    hide DispatchOk, InTransit, DemuxOk, PostOk, Queues, OpenBatch, KeyMap, KeysOk;
    assert PipeOk(cfg, s.pipes[st.pipe]);
  }

  // ---------------------------------------------------------------- the projects' own counters

  predicate On(st: Step, p: PipeId) { st.OnPipe? && st.pipe == p }

  /** The datagram being handled is for the pipeline. */
  predicate For(s: State, st: Step, p: PipeId) {
    || (st.Admit? && FoundOne(s, st.id) && s.dispatching[st.id].phase.pipe == p)
    || (st.Enqueue? && AdmittedOne(s, st.id) && s.dispatching[st.id].phase.pipe == p)
    || (st.DemuxSend? && s.demux.Holding? && s.demux.pipe == p)
  }

  /** Every counter of a project moves by its own reasons alone. */
  predicate Booked(cfg: Config, s: State, st: Step, p: PipeId, b: Stats, b': Stats)
    requires p < |s.pipes|
  {
    && b'.missingToken == b.missingToken + OneIf(For(s, st, p) && TokenlessAt(s, st))
    && b'.routingClosed == b.routingClosed + OneIf(For(s, st, p) && ClosedAt(cfg, s, st))
    && b'.queueFull == b.queueFull +
       OneIf(st.DemuxSend? && For(s, st, p) && !s.pipes[p].rawClosed && |s.pipes[p].raw| >= HANDOFF_DEPTH)
    && b'.received == b.received + OneIf(On(st, p) && VerdictAt(cfg, s, st).Some?
       && VerdictAt(cfg, s, st).value.Accepted?)
    && b'.parseError == b.parseError + OneIf(On(st, p) && VerdictAt(cfg, s, st) == Some(ParseError))
    && b'.oversize == b.oversize + OneIf(On(st, p) && VerdictAt(cfg, s, st) == Some(Oversize))
    && b'.sent == b.sent + (if On(st, p) then SentAt(s, st) else 0)
    && b'.flushFailed == b.flushFailed + (if On(st, p) then FailedAt(cfg, s, st) else 0)
    && b'.shutdown == b.shutdown + (if On(st, p) then CutAt(s, st) else 0)
  }

  lemma BooksNothing(cfg: Config, s: State, st: Step, p: PipeId)
    requires p < |s.pipes| && !st.OnPipe? && !For(s, st, p)
    ensures Booked(cfg, s, st, p, s.pipes[p].stats, s.pipes[p].stats)
  {
  }

  lemma BooksAdmit(cfg: Config, s: State, id: nat, p: PipeId)
    requires FoundOne(s, id) && p < |s.pipes|
    ensures p < |AdmitStep(s, id).pipes|
    ensures Booked(cfg, s, Step.Admit(id), p, s.pipes[p].stats, AdmitStep(s, id).pipes[p].stats)
  {
    hide Add;
  }

  lemma BooksEnqueue(cfg: Config, s: State, id: nat, p: PipeId)
    requires AdmittedOne(s, id) && p < |s.pipes|
    ensures p < |EnqueueStep(cfg, s, id).pipes|
    ensures Booked(cfg, s, Enqueue(id), p, s.pipes[p].stats, EnqueueStep(cfg, s, id).pipes[p].stats)
  {
    hide Add;
  }

  lemma BooksSent(cfg: Config, s: State, p: PipeId)
    requires s.demux.Holding? && s.demux.pipe < |s.pipes| && p < |s.pipes|
    ensures p < |DemuxSendStep(s).pipes|
    ensures Booked(cfg, s, DemuxSend, p, s.pipes[p].stats, DemuxSendStep(s).pipes[p].stats)
  {
    hide Add, VerdictAt, SentAt, FailedAt, CutAt, TokenlessAt, GoneAt;
    if p == s.demux.pipe {
      BooksHanded(cfg, s);
    } else {
      BooksNothing(cfg, s, DemuxSend, p);
      hide Booked;
    }
  }

  /** What the demuxer's handoff adds to its pipeline's counters. */
  lemma BooksHanded(cfg: Config, s: State)
    requires s.demux.Holding? && s.demux.pipe < |s.pipes|
    ensures var p := s.demux.pipe; var q := s.pipes[p]; var closed := q.rawClosed;
            Booked(cfg, s, DemuxSend, p, q.stats,
                   if closed then AddStats(q.stats, NO_STATS.(routingClosed := 1))
                   else if |q.raw| >= HANDOFF_DEPTH then AddStats(q.stats, NO_STATS.(queueFull := 1)) else q.stats)
  {
    hide VerdictAt, SentAt, FailedAt, CutAt, GoneAt;
  }

  /** What the batcher books for a verdict: one counter, by one. */
  predicate BooksVerdict(v: Verdict, b: Stats) {
    && b.received == OneIf(v.Accepted?) && b.parseError == OneIf(v == ParseError) && b.oversize == OneIf(v == Oversize)
    && b.queueFull == b.routingClosed == b.missingToken == b.flushFailed == b.shutdown == b.sent == 0
  }

  /** What the batcher books, written out. */
  lemma VerdictBooks(v: Verdict)
    ensures BooksVerdict(v, match v case Oversize => NO_STATS.(oversize := 1) case ParseError =>
            NO_STATS.(parseError := 1)
                                    case Accepted(_) => NO_STATS.(received := 1))
  {
  }

  lemma AcceptBooks(cfg: Config, p: Pipe, stamp: bytes)
    requires p.raw != []
    ensures var e := AcceptStep(cfg, p, stamp);
            e.pipe.stats == p.stats && BooksVerdict(cfg.validate(p.raw[0].body, stamp), e.booked)
  {
    hide ItemsWeight, Extended, Overflows, Closed, ZERO_TALLY, NO_STATS, BooksVerdict;
    AcceptShape(cfg, p, stamp);
    VerdictBooks(cfg.validate(p.raw[0].body, stamp));
  }

  lemma BooksAccept(cfg: Config, s: State, pipe: PipeId, stamp: bytes)
    requires pipe < |s.pipes| && s.pipes[pipe].raw != []
    ensures var e := AcceptStep(cfg, s.pipes[pipe], stamp); var b := s.pipes[pipe].stats;
            e.pipe.stats == b && Booked(cfg, s, OnPipe(pipe, Accept(stamp)), pipe, b, AddStats(b, e.booked))
  {
    hide AcceptStep, TokenlessAt, ClosedAt, InHand, AttemptsAt;
    AcceptBooks(cfg, s.pipes[pipe], stamp);
  }

  lemma BooksSend(cfg: Config, s: State, pipe: PipeId, pst: PipeStep)
    requires pipe < |s.pipes| && PipeEnabled(cfg, s.pipes[pipe], pst) && (pst.Attempt? || pst.CutWait?)
    ensures var e := PipeEffect(cfg, s.pipes[pipe], pst); var b := s.pipes[pipe].stats;
            e.pipe.stats == b && Booked(cfg, s, OnPipe(pipe, pst), pipe, b, AddStats(b, e.booked))
  {
    hide ItemIds, ZERO_TALLY, AcceptStep, TokenlessAt, ClosedAt;
    match pst
    case CutWait =>
    case Attempt(Delivered) =>
    case Attempt(Canceled) =>
    case Attempt(Fatal) =>
    case Attempt(Retryable) =>
  }

  lemma BooksAbandon(cfg: Config, s: State, pipe: PipeId)
    requires pipe < |s.pipes| && PipeEnabled(cfg, s.pipes[pipe], Abandon)
    ensures var e := PipeEffect(cfg, s.pipes[pipe], Abandon); var b := s.pipes[pipe].stats;
            e.pipe.stats == b && Booked(cfg, s, OnPipe(pipe, Abandon), pipe, b, AddStats(b, e.booked))
  {
    hide ItemIds, ZERO_TALLY, TokenlessAt, ClosedAt;
  }

  lemma BooksOwn(cfg: Config, s: State, pipe: PipeId, pst: PipeStep)
    requires pipe < |s.pipes| && PipeEnabled(cfg, s.pipes[pipe], pst)
    requires !pst.Attempt? && !pst.CutWait? && !pst.Accept? && !pst.Abandon?
    ensures var e := PipeEffect(cfg, s.pipes[pipe], pst); var b := s.pipes[pipe].stats;
            e.pipe.stats == b && Booked(cfg, s, OnPipe(pipe, pst), pipe, b, AddStats(b, e.booked))
  {
    hide ItemIds, ZERO_TALLY, AcceptStep, AttemptStep, Finish, TokenlessAt, ClosedAt;
  }

  lemma BooksOnPipe(cfg: Config, s: State, pipe: PipeId, pst: PipeStep, p: PipeId)
    requires pipe < |s.pipes| && PipeEnabled(cfg, s.pipes[pipe], pst) && p < |s.pipes|
    ensures var s' := OnPipeStep(cfg, s, pipe, pst);
            p < |s'.pipes| && Booked(cfg, s, OnPipe(pipe, pst), p, s.pipes[p].stats, s'.pipes[p].stats)
  {
    if p == pipe {
      hide Booked, AttemptStep, AcceptStep, Finish, Add, AddStats;
      match pst
      case Accept(stamp) => BooksAccept(cfg, s, pipe, stamp);
      case Attempt(_) => BooksSend(cfg, s, pipe, pst);
      case CutWait => BooksSend(cfg, s, pipe, pst);
      case Abandon => BooksAbandon(cfg, s, pipe);
      case _ => BooksOwn(cfg, s, pipe, pst);
    } else {
      hide PipeEffect, PipeEnabled, Add, AddStats;
    }
  }

  lemma BooksElsewhere(cfg: Config, s: State, st: Step, p: PipeId)
    requires Enabled(cfg, s, st) && !st.OnPipe? && !st.Admit? && !st.Enqueue? && !st.DemuxSend? && p < |s.pipes|
    ensures p < |Apply(cfg, s, st).pipes| && Apply(cfg, s, st).pipes[p].stats == s.pipes[p].stats
  {
    if st.DrainBegin? {
      hide KeyMap, KeysOk, PipeEnabled;
    } else if MakesPipes(st) {
      MakeGrows(cfg, s, st);
      hide KeyMap, KeysOk, PipeEnabled, BuiltTable, FreshNames, Enumerates;
      if st.ReloadBuild? {
        OrderInKeys(s.reload.keys, s.reload.prev, s.pipes, st.order);
        BuiltPipeAt(s.reload.keys, s.pipes, st.order, p);
      }
    } else {
      hide Apply, Enabled;
      PipesAlone(cfg, s, st);
    }
  }

  lemma BooksStep(cfg: Config, s: State, st: Step, p: PipeId)
    requires Enabled(cfg, s, st) && p < |s.pipes|
    ensures p < |Apply(cfg, s, st).pipes|
    ensures Booked(cfg, s, st, p, s.pipes[p].stats, Apply(cfg, s, st).pipes[p].stats)
  {
    hide Booked;
    match st
    case Admit(id) => BooksAdmit(cfg, s, id, p);
    case Enqueue(id) => BooksEnqueue(cfg, s, id, p);
    case DemuxSend => BooksSent(cfg, s, p);
    case OnPipe(pipe, pst) => BooksOnPipe(cfg, s, pipe, pst, p);
    case _ =>
      hide Apply, Enabled;
      BooksElsewhere(cfg, s, st, p);
      BooksNothing(cfg, s, st, p);
  }

  /** What a project counts in any step of any run. */
  lemma ProjectCountersExact(cfg: Config, states: seq<State>, steps: seq<Step>, k: nat, p: PipeId)
    requires Run(cfg, states, steps) && k < |steps| && |states| == |steps| + 1 && p < |states[k].pipes|
    ensures p < |states[k + 1].pipes|
    ensures Booked(cfg, states[k], steps[k], p, states[k].pipes[p].stats, states[k + 1].pipes[p].stats)
  {
    hide Run, Booked, Enabled, Apply;
    RunStep(cfg, states, steps, k);
    BooksStep(cfg, states[k], steps[k], p);
  }

  // ---------------------------------------------------------------- what is posted

  /** An attempt posts the batch in hand, under its token if it has one and else under the pipeline's key. */
  function PostAt(s: State, st: Step): seq<Posted> {
    if st.OnPipe? && st.st.Attempt? && st.pipe < |s.pipes| && s.pipes[st.pipe].sending.Some? then
      var b := s.pipes[st.pipe].sending.value.batch;
      [Posted(st.pipe, if b.token != [] then b.token else s.pipes[st.pipe].key, b)]
    else []
  }

  lemma SendPosts(cfg: Config, p: Pipe, pst: PipeStep)
    requires PipeEnabled(cfg, p, pst)
    ensures var e := PipeEffect(cfg, p, pst);
            e.posted == if pst.Attempt? then Some(p.sending.value.batch) else None
  {
    hide ItemIds, ItemsWeight, Extended, Overflows, Closed, NO_STATS, ZERO_TALLY;
  }

  lemma PostsStep(cfg: Config, s: State, st: Step)
    requires Enabled(cfg, s, st)
    ensures Apply(cfg, s, st).posts == s.posts + PostAt(s, st)
  {
    if st.OnPipe? {
      hide PipeEffect, PipeEnabled, KeyMap, KeysOk, Add, AddStats;
      SendPosts(cfg, s.pipes[st.pipe], st.st);
      SendingKnown(cfg, s.pipes[st.pipe], st.st);
    } else {
      hide Apply, Enabled;
      PostsAlone(cfg, s, st);
      assert s.posts + [] == s.posts;
    }
  }

  lemma SendingKnown(cfg: Config, p: Pipe, pst: PipeStep)
    requires PipeEnabled(cfg, p, pst)
    ensures pst.Attempt? ==> p.sending.Some?
  {
  }

  lemma PostsAlone(cfg: Config, s: State, st: Step)
    requires Enabled(cfg, s, st) && !st.OnPipe?
    ensures Apply(cfg, s, st).posts == s.posts
  {
    hide KeyMap, KeysOk, PipeEnabled, PipeEffect, InRange, Lookup, BuiltTable, BuiltPipes, FreshNames, Enumerates,
      NewPipe, Without, Dropped, InlinePipes, AllDrained, Add, AddStats;
    match st
    case RouteOne(id) =>
    case LookUp(id) =>
    case _ =>
  }

  /** The posts of a whole run, attempt by attempt. */
  function PostsOf(states: seq<State>, steps: seq<Step>): seq<Posted>
    requires |states| == |steps| + 1
  {
    if steps == [] then []
    else
      var n := |steps| - 1;
      PostsOf(states[..n + 1], steps[..n]) + PostAt(states[n], steps[n])
  }

  /** Every attempt of a run posts its batch once, whatever the reply, and nothing else is ever posted. */
  lemma {:induction false} PostsExact(cfg: Config, states: seq<State>, steps: seq<Step>, k: nat)
    requires Run(cfg, states, steps) && k < |states|
    ensures |states| == |steps| + 1 && states[k].posts == PostsOf(states[..k + 1], steps[..k])
    decreases k
  {
    hide Run, Init, Enabled, Apply, PostAt;
    RunStart(cfg, states, steps);
    if k == 0 {
      NothingPosted(cfg, states[0]);
    } else {
      PostsExact(cfg, states, steps, k - 1);
      RunStep(cfg, states, steps, k - 1);
      PostsStep(cfg, states[k - 1], steps[k - 1]);
      assert states[..k + 1][..k] == states[..k] && steps[..k][..k - 1] == steps[..k - 1];
    }
  }

  lemma NothingPosted(cfg: Config, s: State)
    requires Init(cfg, s)
    ensures s.posts == []
  {
    hide KeysOk, Enumerates, FreshNames, BuiltTable, BuiltPipes;
  }

  // ---------------------------------------------------------------- when a batch is closed

  /** The batcher closes its open batch for an event exactly when there is one and it has no room for the event. */
  lemma AcceptCloses(cfg: Config, p: Pipe, stamp: bytes, ev: bytes)
    requires PipeEnabled(cfg, p, Accept(stamp)) && cfg.validate(p.raw[0].body, stamp) == Accepted(ev)
    ensures var q := PipeEffect(cfg, p, Accept(stamp)).pipe; var it := Item(p.raw[0], ev);
            if p.cur == [] || ItemsWeight(p.cur) + |ev| + 1 <= MAX_BATCH_BYTES
            then q.cur == p.cur + [it] && q.pending == None
            else q.cur == [it] && q.pending == Some(Batch(p.cur, p.firstSeen, p.curToken))
  {
    hide ItemsWeight, NO_STATS, ZERO_TALLY;
  }
}
