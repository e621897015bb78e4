/** Order: the events of a project are sent in the order in which their datagrams entered the shared queue. */
module Order {
  import opened Bytes
  import opened Events
  import opened Batching
  import F = Flushing
  import opened Registry
  import opened Protocol
  import opened TableLaws
  import opened Lifecycle

  // ---------------------------------------------------------------- subsequences

  /** `a` is `b` without some of its elements. */
  ghost predicate Sub<T>(a: seq<T>, b: seq<T>)
    decreases |b|
  {
    || a == []
    || (b != []
        && var n := |b| - 1;
           (a[|a| - 1] == b[n] && Sub(a[..|a| - 1], b[..n])) || Sub(a, b[..n]))
  }

  lemma {:induction false} SubSelf<T>(a: seq<T>)
    ensures Sub(a, a)
    decreases |a|
  {
    if a != [] {
      SubSelf(a[..|a| - 1]);
    }
  }

  lemma {:induction false} SubTrans<T>(a: seq<T>, b: seq<T>, c: seq<T>)
    requires Sub(a, b) && Sub(b, c)
    ensures Sub(a, c)
    decreases |b| + |c|
  {
    if a != [] {
      var m, n := |b| - 1, |c| - 1;
      if b[m] == c[n] && Sub(b[..m], c[..n]) {
        if a[|a| - 1] == b[m] && Sub(a[..|a| - 1], b[..m]) {
          SubTrans(a[..|a| - 1], b[..m], c[..n]);
        } else {
          SubTrans(a, b[..m], c[..n]);
        }
      } else {
        SubTrans(a, b, c[..n]);
      }
    }
  }

  lemma SubSnoc<T>(a: seq<T>, b: seq<T>, x: T)
    requires Sub(a, b)
    ensures Sub(a + [x], b + [x]) && Sub(a, b + [x])
  {
    assert (a + [x])[..|a|] == a && (b + [x])[..|b|] == b;
  }

  lemma {:induction false} SubRight<T>(a: seq<T>, b: seq<T>, z: seq<T>)
    requires Sub(a, b)
    ensures Sub(a + z, b + z)
    decreases |z|
  {
    hide Sub;
    if z == [] {
      assert a + z == a && b + z == b;
    } else {
      var n := |z| - 1;
      SubRight(a, b, z[..n]);
      SubSnoc(a + z[..n], b + z[..n], z[n]);
      Back(a, z);
      Back(b, z);
    }
  }

  lemma Back<T>(a: seq<T>, z: seq<T>)
    requires z != []
    ensures a + z == (a + z[..|z| - 1]) + [z[|z| - 1]]
  {
    assert z == z[..|z| - 1] + [z[|z| - 1]];
  }

  lemma {:induction false} SubLeft<T>(x: seq<T>, a: seq<T>, b: seq<T>)
    requires Sub(a, b)
    ensures Sub(x + a, x + b)
    decreases |b|
  {
    if b == [] {
      assert a == [];
      SubSelf(x + a);
    } else {
      var n := |b| - 1;
      assert (x + b)[..|x| + n] == x + b[..n] && (x + b)[|x| + n] == b[n];
      if a == [] {
        SubLeft(x, [], b[..n]);
      } else if a[|a| - 1] == b[n] && Sub(a[..|a| - 1], b[..n]) {
        SubLeft(x, a[..|a| - 1], b[..n]);
        assert (x + a)[..|x + a| - 1] == x + a[..|a| - 1];
      } else {
        SubLeft(x, a, b[..n]);
      }
    }
  }

  /** Replacing a stretch by a subsequence of it. */
  lemma SubMiddle<T>(x: seq<T>, a: seq<T>, b: seq<T>, z: seq<T>)
    requires Sub(a, b)
    ensures Sub(x + a + z, x + b + z)
  {
    SubLeft(x, a, b);
    SubRight(x + a, x + b, z);
  }

  // ---------------------------------------------------------------- what lies ahead of the flusher

  function Dgs(items: seq<Item>): (r: seq<Datagram>)
    ensures |r| == |items| && forall k :: 0 <= k < |r| ==> r[k] == items[k].dg
  {
    seq(|items|, k requires 0 <= k < |items| => items[k].dg)
  }

  /** The datagrams behind a sequence of batches. */
  function InBatches(bs: seq<Batch>): seq<Datagram> {
    if bs == [] then [] else InBatches(bs[..|bs| - 1]) + Dgs(bs[|bs| - 1].items)
  }

  lemma InBatchesSnoc(bs: seq<Batch>, b: Batch)
    ensures InBatches(bs + [b]) == InBatches(bs) + Dgs(b.items)
  {
    assert (bs + [b])[..|bs|] == bs;
  }

  lemma {:induction false} InBatchesPop(bs: seq<Batch>)
    requires bs != []
    ensures InBatches(bs) == Dgs(bs[0].items) + InBatches(bs[1..])
    decreases |bs|
  {
    hide Dgs;
    var n := |bs| - 1;
    if n == 0 {
      assert InBatches(bs[..0]) == [] && InBatches(bs[1..]) == [];
      assert [] + Dgs(bs[0].items) == Dgs(bs[0].items) + [];
    } else {
      InBatchesPop(bs[..n]);
      assert bs[..n][1..] == bs[1..][..n - 1] && bs[1..][n - 1] == bs[n];
      Associative(Dgs(bs[0].items), InBatches(bs[1..][..n - 1]), Dgs(bs[n].items));
    }
  }

  function InPending(p: Pipe): seq<Datagram> { if p.pending.Some? then Dgs(p.pending.value.items) else [] }

  /** In the batch channel, in the batch the batcher is blocked on, in the open one, and in the handoff. */
  function Ahead(p: Pipe): seq<Datagram> { InBatches(p.batches) + InPending(p) + Dgs(p.cur) + p.raw }

  function AtDemuxer(d: Demux): seq<Datagram> {
    match d
    case Taken(dg) => [dg]
    case Holding(dg, _) => [dg]
    case _ => []
  }

  function AheadOf(s: State, p: PipeId): seq<Datagram> { if p < |s.pipes| then Ahead(s.pipes[p]) else [] }

  /** Everything on its way to the pipeline's flusher, or to where the demuxer may still send it there. */
  function Line(s: State, p: PipeId): seq<Datagram> { AheadOf(s, p) + (AtDemuxer(s.demux) + s.shared) }

  // ---------------------------------------------------------------- one pipeline

  lemma TakeAhead(cfg: Config, p: Pipe)
    requires PipeEnabled(cfg, p, TakeBatch)
    ensures Ahead(p) == Dgs(p.batches[0].items) + Ahead(PipeEffect(cfg, p, TakeBatch).pipe)
  {
    hide InBatches, Dgs, InPending;
    var q := PipeEffect(cfg, p, TakeBatch).pipe;
    InBatchesPop(p.batches);
    assert InPending(q) == InPending(p) by { SamePending(p, q); }
    Regroup(Dgs(p.batches[0].items), InBatches(q.batches), InPending(p), Dgs(p.cur), p.raw);
  }

  lemma SamePending(p: Pipe, q: Pipe)
    requires q.pending == p.pending
    ensures InPending(q) == InPending(p)
  {
  }

  lemma Regroup<T>(a: seq<T>, b: seq<T>, c: seq<T>, d: seq<T>, e: seq<T>)
    ensures (a + b) + c + d + e == a + (b + c + d + e)
  {
  }

  lemma FlushAhead(cfg: Config, p: Pipe)
    requires PipeEnabled(cfg, p, FlushCur)
    ensures Ahead(PipeEffect(cfg, p, FlushCur).pipe) == Ahead(p)
  {
    hide InBatches, Dgs;
    var x, y := InBatches(p.batches), Dgs(p.cur);
    DgsNone();
    assert x + y + [] + p.raw == x + [] + y + p.raw;
  }

  lemma DgsNone()
    ensures Dgs([]) == []
  {
  }

  lemma DgsSnoc(items: seq<Item>, it: Item)
    ensures Dgs(items + [it]) == Dgs(items) + [it.dg]
  {
  }

  lemma EmitAhead(cfg: Config, p: Pipe)
    requires PipeEnabled(cfg, p, Emit)
    ensures Ahead(PipeEffect(cfg, p, Emit).pipe) == Ahead(p)
  {
    hide InBatches, Dgs;
    InBatchesSnoc(p.batches, p.pending.value);
    var x, y := InBatches(p.batches), Dgs(p.pending.value.items);
    assert (x + y) + [] == x + y;
  }

  lemma AbandonAhead(cfg: Config, p: Pipe)
    requires PipeEnabled(cfg, p, Abandon)
    ensures Sub(Ahead(PipeEffect(cfg, p, Abandon).pipe), Ahead(p))
  {
    hide InBatches, Dgs, ItemIds, Sub;
    var x, y, z := InBatches(p.batches), InPending(p), Dgs(p.cur) + p.raw;
    assert Sub([], y) by { SubNil(y); }
    SubMiddle(x, [], y, z);
    assert x + [] + Dgs(p.cur) + p.raw == x + [] + z && x + y + Dgs(p.cur) + p.raw == x + y + z;
  }

  lemma SubNil<T>(a: seq<T>)
    ensures Sub([], a)
  {
  }

  lemma JoinAhead(x: seq<Datagram>, y: seq<Datagram>, dg: Datagram, rest: seq<Datagram>)
    ensures x + [] + (y + [dg]) + rest == x + [] + y + ([dg] + rest)
    ensures x + y + [dg] + rest == x + [] + y + ([dg] + rest)
  {
    assert x + [] == x;
  }

  lemma AcceptedAhead(cfg: Config, p: Pipe, stamp: bytes, ev: bytes)
    requires PipeEnabled(cfg, p, Accept(stamp)) && cfg.validate(p.raw[0].body, stamp) == Accepted(ev)
    ensures Ahead(AcceptStep(cfg, p, stamp).pipe) == Ahead(p)
  {
    hide InBatches, Dgs, ItemsWeight, Overflows, NO_STATS, ZERO_TALLY;
    var it, rest := Item(p.raw[0], ev), p.raw[1..];
    assert p.raw == [it.dg] + rest;
    DgsNone();
    DgsSnoc(p.cur, it);
    DgsSnoc([], it);
    assert [] + [it] == [it] && [] + [it.dg] == [it.dg];
    JoinAhead(InBatches(p.batches), Dgs(p.cur), it.dg, rest);
  }

  /** Taking a datagram off the handoff drops it, or moves it to the end of the open batch. */
  lemma AcceptAhead(cfg: Config, p: Pipe, stamp: bytes)
    requires PipeEnabled(cfg, p, Accept(stamp))
    ensures Sub(Ahead(AcceptStep(cfg, p, stamp).pipe), Ahead(p))
  {
    hide InBatches, Dgs, InPending, ItemsWeight, Sub, Overflows, Extended, Closed, NO_STATS, ZERO_TALLY;
    match cfg.validate(p.raw[0].body, stamp)
    case Accepted(ev) =>
      AcceptedAhead(cfg, p, stamp, ev);
      SubSelf(Ahead(p));
    case _ =>
      assert p.raw == [p.raw[0]] + p.raw[1..];
      SubTail(p.raw[0], p.raw[1..]);
      SubLeft(InBatches(p.batches) + InPending(p) + Dgs(p.cur), p.raw[1..], p.raw);
      DroppedAhead(p);
  }

  lemma DroppedAhead(p: Pipe)
    requires p.raw != []
    ensures Ahead(p.(raw := p.raw[1..])) == InBatches(p.batches) + InPending(p) + Dgs(p.cur) + p.raw[1..]
  {
  }

  lemma SubTail<T>(x: T, rest: seq<T>)
    ensures Sub(rest, [x] + rest)
  {
    SubNil([x]);
    SubRight([], [x], rest);
    assert [] + rest == rest;
  }

  lemma SameAhead(p: Pipe, q: Pipe)
    requires q.batches == p.batches && q.pending == p.pending && q.cur == p.cur && q.raw == p.raw
    ensures Ahead(q) == Ahead(p)
  {
  }

  lemma StillAhead(cfg: Config, p: Pipe, pst: PipeStep)
    requires PipeEnabled(cfg, p, pst)
    requires !pst.Accept? && !pst.FlushCur? && !pst.Emit? && !pst.Abandon? && !pst.TakeBatch?
    ensures Ahead(PipeEffect(cfg, p, pst).pipe) == Ahead(p)
  {
    hide Ahead, AttemptStep, Finish, AcceptStep, NO_STATS, ZERO_TALLY;
    var q := PipeEffect(cfg, p, pst).pipe;
    if pst.Attempt? || pst.CutWait? {
      hide PipeEffect, PipeEnabled;
      SendEffect(cfg, p, pst);
      SameAhead(p, q);
    } else {
      SameAhead(p, q);
    }
  }

  lemma PipeAhead(cfg: Config, p: Pipe, pst: PipeStep)
    requires PipeEnabled(cfg, p, pst) && !pst.TakeBatch?
    ensures Sub(Ahead(PipeEffect(cfg, p, pst).pipe), Ahead(p))
  {
    hide Ahead, AcceptStep, AttemptStep, Finish, Sub, PipeEnabled;
    SubSelf(Ahead(p));
    match pst
    case Accept(stamp) => AcceptAhead(cfg, p, stamp);
    case FlushCur => FlushAhead(cfg, p);
    case Emit => EmitAhead(cfg, p);
    case Abandon => AbandonAhead(cfg, p);
    case _ => StillAhead(cfg, p, pst);
  }

  // ---------------------------------------------------------------- the whole agent

  /** The batch that the step takes from the pipeline's channel. */
  function TakenAt(s: State, st: Step, p: PipeId): seq<Batch> {
    if st == OnPipe(p, TakeBatch) && p < |s.pipes| && s.pipes[p].batches != [] then [s.pipes[p].batches[0]] else []
  }

  /** The datagram that the step puts into the shared queue. */
  function EnteredAt(cfg: Config, s: State, st: Step): seq<Datagram> {
    if st.Enqueue? && st.id in s.dispatching && !s.sharedClosed && |s.shared| < cfg.queueSize
    then [s.dispatching[st.id].dg] else []
  }

  /** How a step moves the line: what is taken leaves in front, what enters joins behind, and what is lost in
      between leaves a gap. */
  ghost predicate Moves(cfg: Config, s: State, st: Step, p: PipeId, s': State) {
    Sub(InBatches(TakenAt(s, st, p)) + Line(s', p), Line(s, p) + EnteredAt(cfg, s, st))
  }

  lemma SameLine(cfg: Config, s: State, st: Step, p: PipeId, s': State)
    requires TakenAt(s, st, p) == [] && EnteredAt(cfg, s, st) == []
    requires AheadOf(s', p) == AheadOf(s, p) && AtDemuxer(s'.demux) == AtDemuxer(s.demux) && s'.shared == s.shared
    ensures Moves(cfg, s, st, p, s')
  {
    hide Sub, AheadOf, AtDemuxer, TakenAt, EnteredAt;
    assert InBatches([]) == [];
    assert [] + Line(s', p) == Line(s, p) && Line(s, p) + [] == Line(s, p);
    SubSelf(Line(s, p));
  }

  /** A gap ahead of the flusher, or at the demuxer. */
  lemma ShorterLine(cfg: Config, s: State, st: Step, p: PipeId, s': State)
    requires TakenAt(s, st, p) == [] && EnteredAt(cfg, s, st) == []
    requires Sub(AheadOf(s', p) + AtDemuxer(s'.demux), AheadOf(s, p) + AtDemuxer(s.demux)) && s'.shared == s.shared
    ensures Moves(cfg, s, st, p, s')
  {
    hide Sub, AheadOf, AtDemuxer, TakenAt, EnteredAt;
    assert InBatches([]) == [];
    SubRight(AheadOf(s', p) + AtDemuxer(s'.demux), AheadOf(s, p) + AtDemuxer(s.demux), s.shared);
    Associative(AheadOf(s', p), AtDemuxer(s'.demux), s.shared);
    Associative(AheadOf(s, p), AtDemuxer(s.demux), s.shared);
    assert [] + Line(s', p) == Line(s', p) && Line(s, p) + [] == Line(s, p);
  }

  lemma BumpAhead(p: Pipe, st: Stats)
    ensures Ahead(Bump(p, st)) == Ahead(p)
  {
  }

  lemma BookAhead(s: State, pipe: PipeId, st: Stats, p: PipeId)
    requires pipe < |s.pipes|
    ensures AheadOf(Book(s, pipe, st), p) == AheadOf(s, p)
  {
    hide Ahead, AddStats;
    BumpAhead(s.pipes[pipe], st);
  }

  lemma MovesAdmit(cfg: Config, s: State, id: nat, p: PipeId)
    requires FoundOne(s, id)
    ensures Moves(cfg, s, Step.Admit(id), p, AdmitStep(s, id))
  {
    hide Moves, Ahead, Add, AddStats, Book;
    var pipe := s.dispatching[id].phase.pipe;
    var missing, closed := ZERO_TALLY.(missingToken := 1), ZERO_TALLY.(routingClosed := 1);
    BookAhead(Drop(s, id, missing), pipe, NO_STATS.(missingToken := 1), p);
    BookAhead(Drop(s, id, closed), pipe, NO_STATS.(routingClosed := 1), p);
    BookElse(Drop(s, id, missing), pipe, NO_STATS.(missingToken := 1));
    BookElse(Drop(s, id, closed), pipe, NO_STATS.(routingClosed := 1));
    SameLine(cfg, s, Step.Admit(id), p, AdmitStep(s, id));
  }

  lemma BookElse(s: State, pipe: PipeId, st: Stats)
    requires pipe < |s.pipes|
    ensures Book(s, pipe, st).demux == s.demux && Book(s, pipe, st).shared == s.shared
  {
    hide AddStats;
  }

  lemma MovesEnqueue(cfg: Config, s: State, id: nat, p: PipeId)
    requires AdmittedOne(s, id)
    ensures Moves(cfg, s, Enqueue(id), p, EnqueueStep(cfg, s, id))
  {
    hide Ahead, Add, AddStats, Book, Sub;
    var s', st := EnqueueStep(cfg, s, id), Enqueue(id);
    if !s.sharedClosed && |s.shared| < cfg.queueSize {
      var dg := s.dispatching[id].dg;
      assert InBatches([]) == [];
      assert [] + Line(s', p) == Line(s, p) + [dg];
      SubSelf([] + Line(s', p));
    } else {
      hide Moves;
      var pipe, closed := s.dispatching[id].phase.pipe, ZERO_TALLY.(routingClosed := 1);
      BookAhead(Drop(s, id, closed), pipe, NO_STATS.(routingClosed := 1), p);
      BookElse(Drop(s, id, closed), pipe, NO_STATS.(routingClosed := 1));
      SameLine(cfg, s, st, p, s');
    }
  }

  lemma MovesTake(cfg: Config, s: State, p: PipeId)
    requires s.demux == Waiting && s.shared != []
    ensures Moves(cfg, s, DemuxTake, p, s.(demux := Taken(s.shared[0]), shared := s.shared[1..]))
  {
    hide Ahead, Sub;
    var s' := s.(demux := Taken(s.shared[0]), shared := s.shared[1..]);
    assert s.shared == [s.shared[0]] + s.shared[1..];
    assert InBatches([]) == [];
    assert [] + Line(s', p) == Line(s, p) + [];
    SubSelf([] + Line(s', p));
  }

  lemma MovesLookup(cfg: Config, s: State, p: PipeId)
    requires s.demux.Taken?
    ensures Moves(cfg, s, DemuxLookup, p, DemuxLookupStep(cfg, s))
  {
    hide Moves, Ahead, Sub, Lookup, Add;
    var s' := DemuxLookupStep(cfg, s);
    if s'.demux.Holding? {
      SameLine(cfg, s, DemuxLookup, p, s');
    } else {
      SubNil(AtDemuxer(s.demux));
      SubLeft(AheadOf(s, p), [], AtDemuxer(s.demux));
      ShorterLine(cfg, s, DemuxLookup, p, s');
    }
  }

  /** The demuxer hands its datagram over, or loses it. */
  lemma MovesSend(cfg: Config, s: State, p: PipeId)
    requires s.demux.Holding? && s.demux.pipe < |s.pipes|
    ensures Moves(cfg, s, DemuxSend, p, DemuxSendStep(s))
  {
    hide Moves, Sub, Ahead, Add, AddStats;
    var s', pipe, dg := DemuxSendStep(s), s.demux.pipe, s.demux.dg;
    var q := s.pipes[pipe];
    BumpAhead(q, NO_STATS.(routingClosed := 1));
    BumpAhead(q, NO_STATS.(queueFull := 1));
    HandedAhead(q, dg);
    if p == pipe && !q.rawClosed && |q.raw| < HANDOFF_DEPTH {
      assert AheadOf(s', p) + [] == AheadOf(s, p) + [dg];
      SubSelf(AheadOf(s, p) + [dg]);
    } else {
      SubNil([dg]);
      SubLeft(AheadOf(s, p), [], [dg]);
    }
    ShorterLine(cfg, s, DemuxSend, p, s');
  }

  lemma HandedAhead(p: Pipe, dg: Datagram)
    ensures Ahead(p.(raw := p.raw + [dg])) == Ahead(p) + [dg]
  {
    hide InBatches, Dgs;
    var q := p.(raw := p.raw + [dg]);
    assert InPending(q) == InPending(p);
    Associative(InBatches(p.batches) + InPending(p) + Dgs(p.cur), p.raw, [dg]);
  }

  lemma MovesPipe(cfg: Config, s: State, pipe: PipeId, pst: PipeStep, p: PipeId)
    requires pipe < |s.pipes| && PipeEnabled(cfg, s.pipes[pipe], pst)
    ensures Moves(cfg, s, OnPipe(pipe, pst), p, OnPipeStep(cfg, s, pipe, pst))
  {
    hide Ahead, Sub, PipeEffect, PipeEnabled, Add, AddStats;
    var s', q := OnPipeStep(cfg, s, pipe, pst), s.pipes[pipe];
    var e := PipeEffect(cfg, q, pst);
    BumpAhead(e.pipe, e.booked);
    if p != pipe {
      hide Moves;
      SameLine(cfg, s, OnPipe(pipe, pst), p, s');
    } else if pst.TakeBatch? {
      MovesTaken(cfg, s, p, s');
    } else {
      hide Moves;
      PipeAhead(cfg, q, pst);
      SubRight(AheadOf(s', p), AheadOf(s, p), AtDemuxer(s.demux));
      ShorterLine(cfg, s, OnPipe(pipe, pst), p, s');
    }
  }

  lemma MovesTaken(cfg: Config, s: State, p: PipeId, s': State)
    requires p < |s.pipes| && PipeEnabled(cfg, s.pipes[p], TakeBatch) && s'.demux == s.demux && s'.shared == s.shared
    requires AheadOf(s', p) == Ahead(PipeEffect(cfg, s.pipes[p], TakeBatch).pipe)
    ensures Moves(cfg, s, OnPipe(p, TakeBatch), p, s')
  {
    TakeAhead(cfg, s.pipes[p]);
    HasBatch(cfg, s.pipes[p]);
    hide Ahead, Sub, PipeEffect, PipeEnabled, Dgs, AtDemuxer;
    var b := s.pipes[p].batches[0];
    InBatchesSnoc([], b);
    assert InBatches([]) == [] && [] + [b] == [b] && [] + Dgs(b.items) == Dgs(b.items);
    Associative(Dgs(b.items), AheadOf(s', p), AtDemuxer(s.demux) + s.shared);
    assert Line(s, p) + [] == Line(s, p);
    SubSelf(Line(s, p));
  }

  lemma HasBatch(cfg: Config, p: Pipe)
    requires PipeEnabled(cfg, p, TakeBatch)
    ensures p.batches != []
  {
  }

  lemma UntouchedAhead(p: Pipe)
    requires Untouched(p)
    ensures Ahead(p) == []
  {
  }

  lemma MovesMade(cfg: Config, s: State, st: Step, p: PipeId)
    requires Enabled(cfg, s, st) && MakesPipes(st)
    ensures Moves(cfg, s, st, p, Apply(cfg, s, st))
  {
    hide Moves, Ahead, BuiltTable, FreshNames, Enumerates, NewPipe, KeyMap, KeysOk, PipeEnabled, Untouched;
    var s' := Apply(cfg, s, st);
    if st.ReloadBuild? {
      OrderInKeys(s.reload.keys, s.reload.prev, s.pipes, st.order);
      BuiltUntouched(s.reload.keys, s.pipes, st.order);
    } else {
      MadeUntouched(s.dispatching[s.inline.id].dg.project);
    }
    if |s.pipes| <= p < |s'.pipes| {
      UntouchedAhead(s'.pipes[p]);
    }
    SameLine(cfg, s, st, p, s');
  }

  lemma MadeUntouched(project: bytes)
    ensures Untouched(Start(NewPipe(project, [], true)))
  {
  }

  lemma MovesDrain(cfg: Config, s: State, pipe: PipeId, p: PipeId)
    requires pipe < |s.pipes|
    ensures Moves(cfg, s, DrainBegin(pipe), p, DrainBeginStep(s, pipe))
  {
    hide Moves;
    assert Ahead(s.pipes[pipe].(rawClosed := true)) == Ahead(s.pipes[pipe]);
    hide Ahead;
    SameLine(cfg, s, DrainBegin(pipe), p, DrainBeginStep(s, pipe));
  }

  lemma StillQueued(cfg: Config, s: State, st: Step)
    requires Enabled(cfg, s, st) && (st.DemuxExit? || st.CloseShared? || st.ShutdownLoad? || st.ShutdownDone?)
    ensures var s' := Apply(cfg, s, st); AtDemuxer(s'.demux) == AtDemuxer(s.demux) && s'.shared == s.shared
  {
    hide KeyMap, KeysOk, PipeEnabled, AllDrained;
  }

  lemma MovesElse(cfg: Config, s: State, st: Step, p: PipeId)
    requires Enabled(cfg, s, st) && !MakesPipes(st) && !TouchesPipe(st) && !st.DemuxTake? && !st.DemuxLookup?
    ensures Moves(cfg, s, st, p, Apply(cfg, s, st))
  {
    hide Apply, Enabled, Moves, Ahead;
    PipesAlone(cfg, s, st);
    if MovesQueue(st) {
      StillQueued(cfg, s, st);
    } else {
      QueueAlone(cfg, s, st);
    }
    SameLine(cfg, s, st, p, Apply(cfg, s, st));
  }

  lemma MovesStep(cfg: Config, s: State, st: Step, p: PipeId)
    requires Enabled(cfg, s, st)
    ensures Moves(cfg, s, st, p, Apply(cfg, s, st))
  {
    hide Moves;
    match st
    case Admit(id) => MovesAdmit(cfg, s, id, p);
    case Enqueue(id) => MovesEnqueue(cfg, s, id, p);
    case DemuxTake => MovesTake(cfg, s, p);
    case DemuxLookup => MovesLookup(cfg, s, p);
    case DemuxSend => MovesSend(cfg, s, p);
    case OnPipe(pipe, pst) => MovesPipe(cfg, s, pipe, pst, p);
    case DrainBegin(pipe) => MovesDrain(cfg, s, pipe, p);
    case RegisterMake => hide Apply, Enabled; MovesMade(cfg, s, st, p);
    case ReloadBuild(_) => hide Apply, Enabled; MovesMade(cfg, s, st, p);
    case _ => hide Apply, Enabled; MovesElse(cfg, s, st, p);
  }

  // ---------------------------------------------------------------- over runs

  /** The batches the pipeline's flusher has taken, in the order of taking. */
  function TakenBy(states: seq<State>, steps: seq<Step>, p: PipeId): seq<Batch>
    requires |states| == |steps| + 1
  {
    if steps == [] then []
    else
      var n := |steps| - 1;
      TakenBy(states[..n + 1], steps[..n], p) + TakenAt(states[n], steps[n], p)
  }

  /** The datagrams that have entered the shared queue, in order. */
  function Entered(cfg: Config, states: seq<State>, steps: seq<Step>): seq<Datagram>
    requires |states| == |steps| + 1
  {
    if steps == [] then []
    else
      var n := |steps| - 1;
      Entered(cfg, states[..n + 1], steps[..n]) + EnteredAt(cfg, states[n], steps[n])
  }

  lemma {:induction false} InBatchesConcat(a: seq<Batch>, b: seq<Batch>)
    ensures InBatches(a + b) == InBatches(a) + InBatches(b)
    decreases |b|
  {
    hide Dgs, InBatches;
    InBatchesNone();
    if b == [] {
      assert a + b == a && InBatches(a) + [] == InBatches(a);
    } else {
      var n := |b| - 1;
      InBatchesConcat(a, b[..n]);
      Back(a, b);
      Back([], b);
      assert [] + b == b && [] + b[..n] == b[..n];
      InBatchesSnoc(a + b[..n], b[n]);
      InBatchesSnoc(b[..n], b[n]);
      Associative(InBatches(a), InBatches(b[..n]), Dgs(b[n].items));
    }
  }

  lemma InBatchesNone()
    ensures InBatches([]) == []
  {
  }

  lemma NextInLine(t: seq<Datagram>, more: seq<Datagram>, line: seq<Datagram>, line': seq<Datagram>, e: seq<Datagram>,
      x: seq<Datagram>)
    requires Sub(t + line, e) && Sub(more + line', line + x)
    ensures Sub((t + more) + line', e + x)
  {
    hide Sub;
    SubLeft(t, more + line', line + x);
    SubRight(t + line, e, x);
    Associative(t, more, line');
    Associative(t, line, x);
    SubTrans((t + more) + line', (t + line) + x, e + x);
  }

  /** Order is kept in every run: what a pipeline's flusher has taken so far, and then everything still on its way
      there, is a subsequence of the datagrams as they entered the shared queue. So the events of a project
      are sent in the order in which they were queued, whatever reloads, expiries and drains did meanwhile. */
  lemma {:induction false} EventsInOrder(cfg: Config, states: seq<State>, steps: seq<Step>, k: nat, p: PipeId)
    requires Run(cfg, states, steps) && k < |states|
    ensures |states| == |steps| + 1
    ensures Sub(InBatches(TakenBy(states[..k + 1], steps[..k], p)) + Line(states[k], p),
                Entered(cfg, states[..k + 1], steps[..k]))
    decreases k
  {
    hide Run, Init, Enabled, Apply, Sub, Line, TakenAt, EnteredAt;
    RunStart(cfg, states, steps);
    if k == 0 {
      NothingInLine(cfg, states[0], p);
    } else {
      var n := k - 1;
      EventsInOrder(cfg, states, steps, n, p);
      RunStep(cfg, states, steps, n);
      MovesStep(cfg, states[n], steps[n], p);
      assert states[..k + 1][..k] == states[..k] && steps[..k][..n] == steps[..n];
      var was := TakenBy(states[..k], steps[..n], p);
      InBatchesConcat(was, TakenAt(states[n], steps[n], p));
      NextInLine(InBatches(was), InBatches(TakenAt(states[n], steps[n], p)), Line(states[n], p), Line(states[k], p),
                 Entered(cfg, states[..k], steps[..n]), EnteredAt(cfg, states[n], steps[n]));
    }
  }

  lemma NothingInLine(cfg: Config, s: State, p: PipeId)
    requires Init(cfg, s)
    ensures Line(s, p) == [] && InBatches([]) == [] && Sub<Datagram>([] + [], [])
  {
    hide BuiltTable, BuiltPipes, FreshNames, Ahead, Untouched;
    var keys, order :| KeysOk(cfg, keys) && (!cfg.keysFile ==> forall n <- keys :: n == DEFAULT_PROJECT)
      && Enumerates(order, FreshNames(keys, EMPTY_TABLE, [])) && s == Installed(keys, order);
    OrderInKeys(keys, EMPTY_TABLE, [], order);
    if p < |s.pipes| {
      BuiltPipeAt(keys, [], order, p);
      UntouchedAhead(s.pipes[p]);
    }
  }

  // ---------------------------------------------------------------- what is posted

  /** A batch in the flusher's hands is the last one it took. */
  predicate LastTaken(s: State, p: PipeId, taken: seq<Batch>) {
    p < |s.pipes| && s.pipes[p].sending.Some? ==>
      taken != [] && taken[|taken| - 1] == s.pipes[p].sending.value.batch
  }

  /** A step leaves the batch in hand alone, or puts it down, or takes the next one when there was none. */
  ghost predicate Hands(s: State, st: Step, p: PipeId, s': State) {
    p < |s'.pipes| && s'.pipes[p].sending.Some? ==>
      var b := s'.pipes[p].sending.value.batch;
      || TakenAt(s, st, p) == [b]
      || (TakenAt(s, st, p) == [] && p < |s.pipes| && s.pipes[p].sending.Some? && s.pipes[p].sending.value.batch == b)
  }

  lemma HandsPipe(cfg: Config, p: Pipe, pst: PipeStep)
    requires PipeEnabled(cfg, p, pst)
    ensures var q := PipeEffect(cfg, p, pst).pipe;
            q.sending.Some? ==> if pst.TakeBatch? then p.batches != [] && q.sending.value.batch == p.batches[0]
                                else p.sending.Some? && q.sending.value.batch == p.sending.value.batch
  {
    hide AttemptStep, Finish, AcceptStep, NO_STATS, ZERO_TALLY, ItemIds;
    if pst.Attempt? || pst.CutWait? {
      hide PipeEffect, PipeEnabled;
      SendEffect(cfg, p, pst);
    } else if pst.Accept? {
      AcceptShape(cfg, p, pst.stamp);
    }
  }

  lemma HandsSame(s: State, st: Step, p: PipeId, s': State)
    requires !st.OnPipe? && (p < |s'.pipes| && s'.pipes[p].sending.Some? ==>
               p < |s.pipes| && s'.pipes[p].sending == s.pipes[p].sending)
    ensures Hands(s, st, p, s')
  {
  }

  lemma HandsMade(cfg: Config, s: State, st: Step, p: PipeId)
    requires Enabled(cfg, s, st) && MakesPipes(st)
    ensures Hands(s, st, p, Apply(cfg, s, st))
  {
    hide BuiltTable, FreshNames, Enumerates, KeyMap, KeysOk, PipeEnabled;
    if st.ReloadBuild? {
      OrderInKeys(s.reload.keys, s.reload.prev, s.pipes, st.order);
      if p < |Apply(cfg, s, st).pipes| {
        BuiltPipeAt(s.reload.keys, s.pipes, st.order, p);
      }
    }
  }

  lemma BookHand(s: State, pipe: PipeId, st: Stats, p: PipeId)
    requires pipe < |s.pipes|
    ensures |Book(s, pipe, st).pipes| == |s.pipes|
    ensures p < |s.pipes| ==> Book(s, pipe, st).pipes[p].sending == s.pipes[p].sending
  {
    hide AddStats;
  }

  lemma HandsHandled(cfg: Config, s: State, st: Step, p: PipeId)
    requires Enabled(cfg, s, st) && (st.Admit? || st.Enqueue?)
    ensures Hands(s, st, p, Apply(cfg, s, st))
  {
    hide KeyMap, KeysOk, PipeEnabled, Add, AddStats, Book, Hands;
    var pipe := s.dispatching[st.id].phase.pipe;
    var missing, closed := ZERO_TALLY.(missingToken := 1), ZERO_TALLY.(routingClosed := 1);
    BookHand(Drop(s, st.id, missing), pipe, NO_STATS.(missingToken := 1), p);
    BookHand(Drop(s, st.id, closed), pipe, NO_STATS.(routingClosed := 1), p);
    HandsSame(s, st, p, Apply(cfg, s, st));
  }

  lemma HandsBooked(cfg: Config, s: State, st: Step, p: PipeId)
    requires Enabled(cfg, s, st) && (st.DemuxSend? || st.DrainBegin?)
    ensures Hands(s, st, p, Apply(cfg, s, st))
  {
    hide KeyMap, KeysOk, PipeEnabled, Add, AddStats, Hands;
    HandsSame(s, st, p, Apply(cfg, s, st));
  }

  lemma HandsStep(cfg: Config, s: State, st: Step, p: PipeId)
    requires Enabled(cfg, s, st)
    ensures Hands(s, st, p, Apply(cfg, s, st))
  {
    if st.OnPipe? {
      hide PipeEffect, PipeEnabled, KeyMap, KeysOk, Add, AddStats;
      HandsPipe(cfg, s.pipes[st.pipe], st.st);
    } else {
      hide Apply, Enabled, Hands;
      if MakesPipes(st) {
        HandsMade(cfg, s, st, p);
      } else if st.Admit? || st.Enqueue? {
        HandsHandled(cfg, s, st, p);
      } else if TouchesPipe(st) {
        HandsBooked(cfg, s, st, p);
      } else {
        PipesAlone(cfg, s, st);
        HandsSame(s, st, p, Apply(cfg, s, st));
      }
    }
  }

  lemma NextHand(s: State, st: Step, p: PipeId, s': State, taken: seq<Batch>)
    requires LastTaken(s, p, taken) && Hands(s, st, p, s')
    ensures LastTaken(s', p, taken + TakenAt(s, st, p))
  {
    hide TakenAt;
  }

  /** The batch that a pipeline posts at any time is the last one its flusher took: batches are posted in the
      order in which they were taken, each as often as it is attempted. */
  lemma {:induction false} PostsInOrder(cfg: Config, states: seq<State>, steps: seq<Step>, k: nat, p: PipeId)
    requires Run(cfg, states, steps) && k < |states|
    ensures |states| == |steps| + 1 && LastTaken(states[k], p, TakenBy(states[..k + 1], steps[..k], p))
    decreases k
  {
    hide Run, Init, Enabled, Apply, TakenAt, LastTaken, Hands;
    RunStart(cfg, states, steps);
    if k == 0 {
      NothingInHand(cfg, states[0], p);
    } else {
      var n := k - 1;
      PostsInOrder(cfg, states, steps, n, p);
      RunStep(cfg, states, steps, n);
      HandsStep(cfg, states[n], steps[n], p);
      assert states[..k + 1][..k] == states[..k] && steps[..k][..n] == steps[..n];
      NextHand(states[n], steps[n], p, states[k], TakenBy(states[..k], steps[..n], p));
    }
  }

  lemma NothingInHand(cfg: Config, s: State, p: PipeId)
    requires Init(cfg, s)
    ensures LastTaken(s, p, [])
  {
    hide BuiltTable, BuiltPipes, FreshNames;
    var keys, order :| KeysOk(cfg, keys) && (!cfg.keysFile ==> forall n <- keys :: n == DEFAULT_PROJECT)
      && Enumerates(order, FreshNames(keys, EMPTY_TABLE, [])) && s == Installed(keys, order);
    OrderInKeys(keys, EMPTY_TABLE, [], order);
    if p < |s.pipes| {
      BuiltPipeAt(keys, [], order, p);
    }
  }
}
