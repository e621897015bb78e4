/** Conservation: every datagram ever received is in exactly one place, and the counters say where. */
module Ledger {
  import opened Bytes
  import opened Events
  import opened Batching
  import F = Flushing
  import opened Registry
  import opened Protocol

  // ---------------------------------------------------------------- who is where

  function DgIds(q: seq<Datagram>): multiset<nat> {
    if q == [] then multiset{} else DgIds(q[..|q| - 1]) + multiset{q[|q| - 1].id}
  }

  function BatchIds(bs: seq<Batch>): multiset<nat> {
    if bs == [] then multiset{} else BatchIds(bs[..|bs| - 1]) + ItemIds(bs[|bs| - 1].items)
  }

  function PendingIds(p: Pipe): multiset<nat> { if p.pending.Some? then ItemIds(p.pending.value.items) else multiset{} }

  function SendingIds(p: Pipe): multiset<nat> {
    if p.sending.Some? then ItemIds(p.sending.value.batch.items) else multiset{}
  }

  /** The accepted events that are still on their way through the pipeline. */
  function BatchedIds(p: Pipe): multiset<nat> { ItemIds(p.cur) + PendingIds(p) + BatchIds(p.batches) + SendingIds(p) }

  function PipeIds(p: Pipe): multiset<nat> { DgIds(p.raw) + BatchedIds(p) }

  function PipesIds(pipes: seq<Pipe>): multiset<nat> {
    if pipes == [] then multiset{} else PipesIds(pipes[..|pipes| - 1]) + PipeIds(pipes[|pipes| - 1])
  }

  function DemuxIds(d: Demux): multiset<nat> {
    match d
    case Taken(dg) => multiset{dg.id}
    case Holding(dg, _) => multiset{dg.id}
    case _ => multiset{}
  }

  /** Everyone, place by place: in dispatch, queued, at the demuxer, in a pipeline, gone. */
  function Census(s: State): multiset<nat> {
    multiset(s.dispatching.Keys) + DgIds(s.shared) + DemuxIds(s.demux) + PipesIds(s.pipes) + s.settled
  }

  /** Each of the first `n` identifiers once. */
  function Upto(n: nat): multiset<nat> { if n == 0 then multiset{} else Upto(n - 1) + multiset{n - 1} }

  lemma {:induction false} UptoCounts(n: nat, id: nat)
    ensures Upto(n)[id] == (if id < n then 1 else 0) && |Upto(n)| == n
    decreases n
  {
    if n > 0 {
      UptoCounts(n - 1, id);
    }
  }

  // ---------------------------------------------------------------- sequences of identifiers

  lemma DgIdsSnoc(q: seq<Datagram>, dg: Datagram)
    ensures DgIds(q + [dg]) == DgIds(q) + multiset{dg.id}
  {
    assert (q + [dg])[..|q|] == q;
  }

  lemma {:induction false} DgIdsPop(q: seq<Datagram>)
    requires q != []
    ensures DgIds(q) == multiset{q[0].id} + DgIds(q[1..])
    decreases |q|
  {
    if |q| > 1 {
      var init := q[..|q| - 1];
      DgIdsPop(init);
      assert init[1..] == q[1..][..|q| - 2];
    }
  }

  lemma ItemIdsSnoc(items: seq<Item>, it: Item)
    ensures ItemIds(items + [it]) == ItemIds(items) + multiset{it.dg.id}
  {
    assert (items + [it])[..|items|] == items;
  }

  lemma BatchIdsSnoc(bs: seq<Batch>, b: Batch)
    ensures BatchIds(bs + [b]) == BatchIds(bs) + ItemIds(b.items)
  {
    assert (bs + [b])[..|bs|] == bs;
  }

  lemma {:induction false} BatchIdsPop(bs: seq<Batch>)
    requires bs != []
    ensures BatchIds(bs) == ItemIds(bs[0].items) + BatchIds(bs[1..])
    decreases |bs|
  {
    hide ItemIds;
    if |bs| > 1 {
      var init := bs[..|bs| - 1];
      BatchIdsPop(init);
      assert init[1..] == bs[1..][..|bs| - 2];
      PopShuffle(ItemIds(bs[0].items), BatchIds(init[1..]), ItemIds(bs[|bs| - 1].items));
    }
  }

  lemma PopShuffle(a: multiset<nat>, b: multiset<nat>, c: multiset<nat>)
    ensures (a + b) + c == a + (b + c)
  {
  }

  lemma {:induction false} ItemIdsSize(items: seq<Item>)
    ensures |ItemIds(items)| == |items|
    decreases |items|
  {
    if items != [] {
      ItemIdsSize(items[..|items| - 1]);
    }
  }

  lemma {:induction false} DgIdsSize(q: seq<Datagram>)
    ensures |DgIds(q)| == |q|
    decreases |q|
  {
    if q != [] {
      DgIdsSize(q[..|q| - 1]);
    }
  }

  lemma Carry(x': multiset<nat>, x: multiset<nat>, a: multiset<nat>, b: multiset<nat>, c: multiset<nat>)
    requires x' + a == x + b
    ensures (x' + c) + a == (x + c) + b && (x + b) + a == (x + a) + b
  {
    assert (x' + c) + a == (x' + a) + c;
    assert (x + c) + b == (x + b) + c;
  }

  lemma {:induction false} PipesIdsUpdate(pipes: seq<Pipe>, k: nat, p: Pipe)
    requires k < |pipes|
    ensures PipesIds(pipes[k := p]) + PipeIds(pipes[k]) == PipesIds(pipes) + PipeIds(p)
    decreases |pipes|
  {
    hide PipeIds;
    var n := |pipes| - 1;
    if k < n {
      assert pipes[k := p][..n] == pipes[..n][k := p];
      PipesIdsUpdate(pipes[..n], k, p);
      Carry(PipesIds(pipes[..n][k := p]), PipesIds(pipes[..n]), PipeIds(pipes[k]), PipeIds(p), PipeIds(pipes[n]));
    } else {
      assert pipes[k := p][..n] == pipes[..n];
      assert PipesIds(pipes[k := p]) == PipesIds(pipes[..n]) + PipeIds(p);
      assert PipesIds(pipes) == PipesIds(pipes[..n]) + PipeIds(pipes[n]);
    }
  }

  lemma {:induction false} PipesIdsMore(pipes: seq<Pipe>, more: seq<Pipe>)
    requires forall k :: 0 <= k < |more| ==> PipeIds(more[k]) == multiset{}
    ensures PipesIds(pipes + more) == PipesIds(pipes)
    decreases |more|
  {
    hide PipeIds;
    if more == [] {
      assert pipes + more == pipes;
    } else {
      var n := |more| - 1;
      assert (pipes + more)[..|pipes| + n] == pipes + more[..n] && (pipes + more)[|pipes| + n] == more[n];
      PipesIdsMore(pipes, more[..n]);
      assert PipeIds(more[n]) == multiset{};
    }
  }

  // ---------------------------------------------------------------- sums of counters

  function SumStats(pipes: seq<Pipe>): Stats {
    if pipes == [] then NO_STATS else AddStats(SumStats(pipes[..|pipes| - 1]), pipes[|pipes| - 1].stats)
  }

  lemma {:induction false} SumUpdate(pipes: seq<Pipe>, k: nat, p: Pipe)
    requires k < |pipes|
    ensures AddStats(SumStats(pipes[k := p]), pipes[k].stats) == AddStats(SumStats(pipes), p.stats)
    decreases |pipes|
  {
    var n := |pipes| - 1;
    if k < n {
      assert pipes[k := p][..n] == pipes[..n][k := p];
      SumUpdate(pipes[..n], k, p);
    } else {
      assert pipes[k := p][..n] == pipes[..n];
    }
  }

  lemma {:induction false} SumMore(pipes: seq<Pipe>, more: seq<Pipe>)
    requires forall k :: 0 <= k < |more| ==> more[k].stats == NO_STATS
    ensures SumStats(pipes + more) == SumStats(pipes)
    decreases |more|
  {
    if more == [] {
      assert pipes + more == pipes;
    } else {
      var n := |more| - 1;
      assert (pipes + more)[..|pipes| + n] == pipes + more[..n];
      SumMore(pipes, more[..n]);
    }
  }

  // ---------------------------------------------------------------- the books

  function EventsIn(bs: seq<Batch>): nat {
    if bs == [] then 0 else EventsIn(bs[..|bs| - 1]) + |bs[|bs| - 1].items|
  }

  /** How many accepted events are still on their way through the pipeline. */
  function Batched(p: Pipe): nat {
    |p.cur| + (if p.pending.Some? then |p.pending.value.items| else 0) + EventsIn(p.batches)
    + (if p.sending.Some? then |p.sending.value.batch.items| else 0)
  }

  /** A project's own account: accepted events are sent, given up, or still on their way. */
  predicate PipeBooks(p: Pipe) {
    p.stats.received == p.stats.sent + p.stats.flushFailed + p.stats.shutdown + Batched(p)
  }

  /** The process-wide counters against the per-project ones; `misses` are the demuxer's failed lookups. */
  predicate TallyMatches(t: Tally, sum: Stats, misses: nat, settled: nat) {
    && Total(t) + sum.queueFull == settled
    && t.oversize == sum.oversize && t.missingToken == sum.missingToken
    && t.flushFailed == sum.flushFailed && t.shutdown == sum.shutdown && t.sent == sum.sent
    && t.routingClosed == misses + sum.routingClosed
  }

  predicate AllBooks(pipes: seq<Pipe>) { forall k :: 0 <= k < |pipes| ==> PipeBooks(pipes[k]) }

  predicate OwnIds(s: State) { forall id <- s.dispatching :: s.dispatching[id].dg.id == id < s.received }

  ghost predicate LedgerInv(s: State) {
    && Census(s) == Upto(s.received) && OwnIds(s)
    && TallyMatches(s.tally, SumStats(s.pipes), s.misses, |s.settled|)
    && AllBooks(s.pipes)
  }

  // ---------------------------------------------------------------- one pipeline step

  lemma EventsInSnoc(bs: seq<Batch>, b: Batch)
    ensures EventsIn(bs + [b]) == EventsIn(bs) + |b.items|
  {
    assert (bs + [b])[..|bs|] == bs;
  }

  lemma {:induction false} EventsInPop(bs: seq<Batch>)
    requires bs != []
    ensures EventsIn(bs) == |bs[0].items| + EventsIn(bs[1..])
    decreases |bs|
  {
    if |bs| > 1 {
      EventsInPop(bs[..|bs| - 1]);
      assert bs[..|bs| - 1][1..] == bs[1..][..|bs| - 2];
    }
  }

  /** The step moves identifiers inside the pipeline or out of it. */
  ghost predicate MovesIds(p: Pipe, e: Effect) { PipeIds(e.pipe) + e.left == PipeIds(p) }

  /** Both levels of counters tell the same story about those that left. */
  ghost predicate Accounts(e: Effect) { TallyMatches(e.tally, e.booked, 0, |e.left|) }

  /** Events enter and leave the batching part of the pipeline by the project's own counters. */
  predicate Flows(p: Pipe, e: Effect) {
    && e.pipe.stats == p.stats
    && e.booked.received + Batched(p) == e.booked.sent + e.booked.flushFailed + e.booked.shutdown + Batched(e.pipe)
  }

  /** Where the accepted event goes, and what stays as it is. */
  lemma AcceptedShape(cfg: Config, p: Pipe, stamp: bytes, ev: bytes)
    requires p.raw != [] && cfg.validate(p.raw[0].body, stamp) == Accepted(ev)
    ensures var q := AcceptStep(cfg, p, stamp).pipe; var it := Item(p.raw[0], ev);
            && q.batches == p.batches && q.sending == p.sending && q.raw == p.raw[1..]
            && if Overflows(OpenOf(p), ev) then q.cur == [it] && q.pending.Some? && q.pending.value.items == p.cur
               else q.cur == p.cur + [it] && q.pending == p.pending
  {
    hide Overflows, NO_STATS, ZERO_TALLY;
  }

  lemma AcceptBatched(cfg: Config, p: Pipe, stamp: bytes, ev: bytes)
    requires AtSelect(cfg, p) && p.raw != [] && cfg.validate(p.raw[0].body, stamp) == Accepted(ev)
    ensures BatchedIds(AcceptStep(cfg, p, stamp).pipe) == multiset{p.raw[0].id} + BatchedIds(p)
  {
    hide ItemIds, BatchIds, Overflows, SendingIds, AcceptStep;
    var it := Item(p.raw[0], ev);
    ItemIdsOne(it);
    ItemIdsSnoc(p.cur, it);
    AcceptShuffle(ItemIds(p.cur), it.dg.id, BatchIds(p.batches), SendingIds(p));
    AcceptedShape(cfg, p, stamp, ev);
    SameSending(p, AcceptStep(cfg, p, stamp).pipe);
  }

  lemma SameSending(p: Pipe, q: Pipe)
    requires p.sending == q.sending
    ensures SendingIds(p) == SendingIds(q)
  {
  }

  lemma AcceptShuffle(cur: multiset<nat>, id: nat, batches: multiset<nat>, sending: multiset<nat>)
    ensures (cur + multiset{id}) + multiset{} + batches + sending ==
            multiset{id} + (cur + multiset{} + batches + sending)
    ensures multiset{id} + cur + batches + sending == multiset{id} + (cur + multiset{} + batches + sending)
  {
  }

  lemma AcceptMoves(cfg: Config, p: Pipe, stamp: bytes)
    requires AtSelect(cfg, p) && p.raw != []
    ensures MovesIds(p, AcceptStep(cfg, p, stamp))
  {
    hide DgIds, BatchedIds, ItemsWeight;
    DgIdsPop(p.raw);
    match cfg.validate(p.raw[0].body, stamp)
    case Accepted(ev) => AcceptBatched(cfg, p, stamp, ev);
    case _ => SameBatched(p, p.(raw := p.raw[1..]));
  }

  lemma SameBatched(p: Pipe, q: Pipe)
    requires p.cur == q.cur && p.pending == q.pending && p.batches == q.batches && p.sending == q.sending
    ensures BatchedIds(p) == BatchedIds(q) && Batched(p) == Batched(q)
  {
  }

  lemma ItemIdsOne(it: Item)
    ensures ItemIds([]) == multiset{} && ItemIds([it]) == multiset{it.dg.id}
  {
    assert [it][..0] == [];
  }

  lemma AcceptAccounts(cfg: Config, p: Pipe, stamp: bytes)
    requires p.raw != []
    ensures Accounts(AcceptStep(cfg, p, stamp))
  {
    hide ItemsWeight;
  }

  lemma AcceptedFlows(cfg: Config, p: Pipe, stamp: bytes, ev: bytes)
    requires AtSelect(cfg, p) && p.raw != [] && cfg.validate(p.raw[0].body, stamp) == Accepted(ev)
    ensures Flows(p, AcceptStep(cfg, p, stamp))
  {
    AcceptedShape(cfg, p, stamp, ev);
    hide ItemsWeight, EventsIn, ZERO_TALLY, Extended, Overflows;
  }

  lemma AcceptFlows(cfg: Config, p: Pipe, stamp: bytes)
    requires AtSelect(cfg, p) && p.raw != []
    ensures Flows(p, AcceptStep(cfg, p, stamp))
  {
    hide ItemsWeight, Batched, ZERO_TALLY;
    match cfg.validate(p.raw[0].body, stamp)
    case Accepted(ev) => AcceptedFlows(cfg, p, stamp, ev);
    case _ => SameBatched(p, p.(raw := p.raw[1..]));
  }

  lemma FinishMoves(p: Pipe, e: F.Ending, posted: bool)
    requires p.sending.Some?
    ensures MovesIds(p, Finish(p, e, posted)) && Flows(p, Finish(p, e, posted))
  {
    hide DgIds, BatchIds, ItemIds, EventsIn;
  }

  lemma FinishAccounts(p: Pipe, e: F.Ending, posted: bool)
    requires p.sending.Some?
    ensures Accounts(Finish(p, e, posted))
  {
    hide ItemIds;
    ItemIdsSize(p.sending.value.batch.items);
  }

  lemma AbandonMoves(cfg: Config, p: Pipe)
    requires PipeEnabled(cfg, p, Abandon)
    ensures MovesIds(p, PipeEffect(cfg, p, Abandon)) && Flows(p, PipeEffect(cfg, p, Abandon))
  {
    hide DgIds, BatchIds, ItemIds, EventsIn;
  }

  lemma AbandonAccounts(cfg: Config, p: Pipe)
    requires PipeEnabled(cfg, p, Abandon)
    ensures Accounts(PipeEffect(cfg, p, Abandon))
  {
    hide ItemIds;
    ItemIdsSize(p.pending.value.items);
  }

  lemma FlushMoves(cfg: Config, p: Pipe)
    requires PipeEnabled(cfg, p, FlushCur)
    ensures MovesIds(p, PipeEffect(cfg, p, FlushCur)) && Flows(p, PipeEffect(cfg, p, FlushCur))
  {
    hide DgIds, BatchIds, ItemIds, EventsIn;
    ItemIdsNone();
  }

  lemma EmitMoves(cfg: Config, p: Pipe)
    requires PipeEnabled(cfg, p, Emit)
    ensures MovesIds(p, PipeEffect(cfg, p, Emit)) && Flows(p, PipeEffect(cfg, p, Emit))
  {
    hide DgIds, BatchIds, ItemIds, EventsIn, SendingIds, PipeEnabled;
    PendingEnabled(cfg, p);
    BatchIdsSnoc(p.batches, p.pending.value);
    EventsInSnoc(p.batches, p.pending.value);
    SameSending(p, PipeEffect(cfg, p, Emit).pipe);
  }

  lemma PendingEnabled(cfg: Config, p: Pipe)
    requires PipeEnabled(cfg, p, Emit)
    ensures p.pending.Some?
  {
  }

  lemma TakeMoves(cfg: Config, p: Pipe)
    requires PipeEnabled(cfg, p, TakeBatch)
    ensures MovesIds(p, PipeEffect(cfg, p, TakeBatch))
  {
    hide DgIds, BatchIds, ItemIds, PendingIds;
    BatchIdsPop(p.batches);
    var q := PipeEffect(cfg, p, TakeBatch).pipe;
    assert PendingIds(p) == PendingIds(q) by { SamePending(p, q); }
    TakeShuffle(ItemIds(p.cur) + PendingIds(p), ItemIds(p.batches[0].items), BatchIds(q.batches));
  }

  lemma SamePending(p: Pipe, q: Pipe)
    requires p.pending == q.pending
    ensures PendingIds(p) == PendingIds(q)
  {
  }

  lemma TakeShuffle(before: multiset<nat>, head: multiset<nat>, rest: multiset<nat>)
    ensures before + (head + rest) + multiset{} == before + rest + head
  {
  }

  lemma TakeFlows(cfg: Config, p: Pipe)
    requires PipeEnabled(cfg, p, TakeBatch)
    ensures Flows(p, PipeEffect(cfg, p, TakeBatch))
  {
    hide EventsIn;
    EventsInPop(p.batches);
  }

  lemma ItemIdsNone()
    ensures ItemIds([]) == multiset{}
  {
  }

  lemma RetryMoves(p: Pipe, n: nat, posted: Option<Batch>)
    requires p.sending.Some?
    ensures var e := Quiet(p.(sending := Some(p.sending.value.(attempts := n)))).(posted := posted);
            MovesIds(p, e) && Flows(p, e)
  {
    hide DgIds, BatchIds, ItemIds, EventsIn;
  }

  lemma FlagMoves(cfg: Config, p: Pipe, st: PipeStep)
    requires PipeEnabled(cfg, p, st) && (st.BatcherExit? || st.FlusherExit? || st.CloseBatches? || st.Cancel?)
    ensures MovesIds(p, PipeEffect(cfg, p, st)) && Flows(p, PipeEffect(cfg, p, st))
  {
    hide DgIds, BatchIds, ItemIds, EventsIn, BatchedIds, Batched, ZERO_TALLY;
    var q := PipeEffect(cfg, p, st).pipe;
    SameBatched(p, q);
  }

  lemma EffectMoves(cfg: Config, p: Pipe, st: PipeStep)
    requires PipeEnabled(cfg, p, st)
    ensures MovesIds(p, PipeEffect(cfg, p, st)) && Flows(p, PipeEffect(cfg, p, st))
  {
    hide AcceptStep, Finish, MovesIds, Flows, PipeEnabled, ItemIds;
    match st
    case Accept(stamp) =>
      AcceptEnabled(cfg, p, stamp);
      AcceptMoves(cfg, p, stamp);
      AcceptFlows(cfg, p, stamp);
    case FlushCur => FlushMoves(cfg, p);
    case Emit => EmitMoves(cfg, p);
    case TakeBatch => TakeMoves(cfg, p); TakeFlows(cfg, p);
    case Abandon => AbandonMoves(cfg, p);
    case CutWait =>
      SendingEnabled(cfg, p, st);
      FinishMoves(p, F.Cut, false);
    case Attempt(reply) =>
      SendingEnabled(cfg, p, st);
      FinishMoves(p, F.Sent, true);
      FinishMoves(p, F.Cut, true);
      FinishMoves(p, F.Failed, true);
      RetryMoves(p, p.sending.value.attempts + 1, Some(p.sending.value.batch));
    case _ => FlagMoves(cfg, p, st);
  }

  lemma QuietAccounts(p: Pipe, posted: Option<Batch>, panic: bool)
    ensures Accounts(Quiet(p).(posted := posted, panic := panic))
  {
  }

  /** Every step but the acceptance of a datagram, which `AcceptAccounts` covers. */
  lemma EffectAccounts(cfg: Config, p: Pipe, st: PipeStep)
    requires PipeEnabled(cfg, p, st) && !st.Accept?
    ensures Accounts(PipeEffect(cfg, p, st))
  {
    hide AcceptStep, Finish, PipeEnabled, ItemIds, Accounts;
    var q := PipeEffect(cfg, p, st);
    match st
    case Abandon => AbandonAccounts(cfg, p);
    case CutWait =>
      SendingEnabled(cfg, p, st);
      FinishAccounts(p, F.Cut, false);
    case Attempt(reply) =>
      SendingEnabled(cfg, p, st);
      FinishAccounts(p, F.Sent, true);
      FinishAccounts(p, F.Cut, true);
      FinishAccounts(p, F.Failed, true);
      QuietAccounts(q.pipe, q.posted, false);
    case _ => QuietAccounts(q.pipe, None, q.panic);
  }

  lemma AcceptEnabled(cfg: Config, p: Pipe, stamp: bytes)
    requires PipeEnabled(cfg, p, Accept(stamp))
    ensures AtSelect(cfg, p) && p.raw != [] && PipeEffect(cfg, p, Accept(stamp)) == AcceptStep(cfg, p, stamp)
  {
    hide AcceptStep;
  }

  lemma SendingEnabled(cfg: Config, p: Pipe, st: PipeStep)
    requires PipeEnabled(cfg, p, st) && (st.CutWait? || st.Attempt?)
    ensures p.sending.Some?
  {
  }
}
