/** Conservation over whole runs, and what it says about the counters. */
module LedgerLaws {
  import opened Bytes
  import opened Batching
  import opened Registry
  import opened Protocol
  import opened Ledger

  // ---------------------------------------------------------------- adding up

  /** Matching bookings add up to matching books. */
  lemma TallyAdds(t: Tally, sum: Stats, misses: nat, settled: nat, t': Tally, sum': Stats, misses': nat, settled': nat)
    requires TallyMatches(t, sum, misses, settled) && TallyMatches(t', sum', misses', settled')
    ensures TallyMatches(Add(t, t'), AddStats(sum, sum'), misses + misses', settled + settled')
  {
  }

  lemma SumBump(pipes: seq<Pipe>, k: nat, p: Pipe, st: Stats)
    requires k < |pipes| && p.stats == AddStats(pipes[k].stats, st)
    ensures SumStats(pipes[k := p]) == AddStats(SumStats(pipes), st)
  {
    hide SumStats;
    SumUpdate(pipes, k, p);
    CancelStats(SumStats(pipes[k := p]), SumStats(pipes), pipes[k].stats, st);
  }

  lemma CancelStats(x: Stats, y: Stats, a: Stats, st: Stats)
    requires AddStats(x, a) == AddStats(y, AddStats(a, st))
    ensures x == AddStats(y, st)
  {
  }

  lemma NoStatsAdds(sum: Stats)
    ensures AddStats(sum, NO_STATS) == sum
  {
  }

  lemma CancelIds(x: multiset<nat>, y: multiset<nat>, a: multiset<nat>)
    requires x + a == y + a
    ensures x == y
  {
    forall id ensures x[id] == y[id] {
      assert (x + a)[id] == (y + a)[id];
    }
  }

  lemma PipesIdsSame(pipes: seq<Pipe>, k: nat, p: Pipe)
    requires k < |pipes| && PipeIds(p) == PipeIds(pipes[k])
    ensures PipesIds(pipes[k := p]) == PipesIds(pipes)
  {
    hide PipesIds, PipeIds;
    PipesIdsUpdate(pipes, k, p);
    CancelIds(PipesIds(pipes[k := p]), PipesIds(pipes), PipeIds(p));
  }

  lemma PipesIdsAdded(pipes: seq<Pipe>, k: nat, p: Pipe, m: multiset<nat>)
    requires k < |pipes| && PipeIds(p) == PipeIds(pipes[k]) + m
    ensures PipesIds(pipes[k := p]) == PipesIds(pipes) + m
  {
    hide PipesIds, PipeIds;
    PipesIdsUpdate(pipes, k, p);
    assert PipesIds(pipes) + PipeIds(p) == (PipesIds(pipes) + m) + PipeIds(pipes[k]);
    CancelIds(PipesIds(pipes[k := p]), PipesIds(pipes) + m, PipeIds(pipes[k]));
  }

  lemma PipesIdsRemoved(pipes: seq<Pipe>, k: nat, p: Pipe, m: multiset<nat>)
    requires k < |pipes| && PipeIds(p) + m == PipeIds(pipes[k])
    ensures PipesIds(pipes[k := p]) + m == PipesIds(pipes)
  {
    hide PipesIds, PipeIds;
    PipesIdsUpdate(pipes, k, p);
    assert (PipesIds(pipes[k := p]) + m) + PipeIds(p) == PipesIds(pipes[k := p]) + PipeIds(pipes[k]);
    CancelIds(PipesIds(pipes[k := p]) + m, PipesIds(pipes), PipeIds(p));
  }

  lemma BumpIds(p: Pipe, st: Stats)
    ensures PipeIds(Bump(p, st)) == PipeIds(p) && Batched(Bump(p, st)) == Batched(p)
  {
    SameBatched(p, Bump(p, st));
  }

  // ---------------------------------------------------------------- the invariant, step by step

  lemma DropKeeps(s: State, id: nat, t: Tally)
    requires LedgerInv(s) && id in s.dispatching && TallyMatches(t, NO_STATS, 0, 1)
    ensures LedgerInv(Drop(s, id, t))
  {
    hide PipesIds, DgIds, DemuxIds, SumStats, TallyMatches, Add, AllBooks, AddStats;
    var s' := Drop(s, id, t);
    assert multiset(s.dispatching.Keys) == multiset(s'.dispatching.Keys) + multiset{id};
    TallyAdds(s.tally, SumStats(s.pipes), s.misses, |s.settled|, t, NO_STATS, 0, 1);
    NoStatsAdds(SumStats(s.pipes));
    SettleShuffle(multiset(s'.dispatching.Keys), DgIds(s.shared), DemuxIds(s.demux), PipesIds(s.pipes), s.settled, id);
  }

  lemma SettleShuffle(a: multiset<nat>, b: multiset<nat>, c: multiset<nat>, d: multiset<nat>, e: multiset<nat>, id: nat)
    ensures (a + multiset{id}) + b + c + d + e == a + b + c + d + (e + multiset{id})
    ensures a + (b + multiset{id}) + c + d + e == (a + multiset{id}) + b + c + d + e
    ensures a + b + (c + multiset{id}) + d + e == a + (b + multiset{id}) + c + d + e
    ensures a + b + c + (d + multiset{id}) + e == a + b + (c + multiset{id}) + d + e
    ensures |e + multiset{id}| == |e| + 1
  {
  }

  /** What dispatch counts, at both levels, when it drops a datagram at its destination. */
  function DropTally(missing: bool): Tally {
    if missing then ZERO_TALLY.(missingToken := 1) else ZERO_TALLY.(routingClosed := 1)
  }

  function DropStats(missing: bool): Stats {
    if missing then NO_STATS.(missingToken := 1) else NO_STATS.(routingClosed := 1)
  }

  lemma DropStatsPlain(missing: bool)
    ensures TallyMatches(DropTally(missing), DropStats(missing), 0, 1)
    ensures var st := DropStats(missing); st.received == st.sent == st.flushFailed == st.shutdown == 0
  {
    hide TallyMatches;
    MissingTokenMatches();
    RoutingClosedMatches();
  }

  /** A drop that is booked with a pipeline as well. */
  lemma DropBookKeeps(s: State, id: nat, pipe: PipeId, missing: bool)
    requires LedgerInv(s) && id in s.dispatching && pipe < |s.pipes|
    ensures LedgerInv(Book(Drop(s, id, DropTally(missing)), pipe, DropStats(missing)))
  {
    hide PipesIds, PipeIds, DgIds, DemuxIds, SumStats, TallyMatches, Add, AddStats, Batched, DropTally, DropStats;
    var t, st := DropTally(missing), DropStats(missing);
    DropStatsPlain(missing);
    var s' := Book(Drop(s, id, t), pipe, st);
    assert multiset(s.dispatching.Keys) == multiset(s'.dispatching.Keys) + multiset{id};
    TallyAdds(s.tally, SumStats(s.pipes), s.misses, |s.settled|, t, st, 0, 1);
    SumBump(s.pipes, pipe, s'.pipes[pipe], st);
    BumpIds(s.pipes[pipe], st);
    PipesIdsSame(s.pipes, pipe, s'.pipes[pipe]);
    SettleShuffle(multiset(s'.dispatching.Keys), DgIds(s.shared), DemuxIds(s.demux), PipesIds(s.pipes), s.settled, id);
    BookKeepsBooks(s.pipes, pipe, s'.pipes[pipe], st);
  }

  lemma BookKeepsBooks(pipes: seq<Pipe>, k: nat, p: Pipe, st: Stats)
    requires k < |pipes| && AllBooks(pipes) && p.stats == AddStats(pipes[k].stats, st)
    requires st.received + Batched(pipes[k]) == st.sent + st.flushFailed + st.shutdown + Batched(p)
    ensures AllBooks(pipes[k := p])
  {
    hide Batched;
    assert PipeBooks(pipes[k]);
  }

  lemma AdvanceKeeps(s: State, id: nat, d: Dispatch)
    requires LedgerInv(s) && id in s.dispatching && d.dg.id == id
    ensures LedgerInv(Advance(s, id, d))
  {
    hide PipesIds, DgIds, DemuxIds, SumStats, TallyMatches, AllBooks;
    assert s.dispatching[id := d].Keys == s.dispatching.Keys;
  }

  /** Steps that leave the datagrams, the counters and what the pipelines hold alone. */
  lemma StillKeeps(s: State, s': State)
    requires LedgerInv(s)
    requires s'.received == s.received && s'.tally == s.tally && s'.misses == s.misses
             && s'.dispatching == s.dispatching
    requires s'.shared == s.shared && DemuxIds(s'.demux) == DemuxIds(s.demux) && s'.settled == s.settled
    requires PipesIds(s'.pipes) == PipesIds(s.pipes) && SumStats(s'.pipes) == SumStats(s.pipes) && AllBooks(s'.pipes)
    ensures LedgerInv(s')
  {
  }

  lemma ReceiveCensus(s: State, d: Dispatch)
    requires Census(s) == Upto(s.received) && s.received !in s.dispatching
    ensures Census(s.(dispatching := s.dispatching[s.received := d])) == Upto(s.received + 1)
  {
    hide PipesIds, DgIds, DemuxIds, Upto;
    FreshKey(s.dispatching, s.received, d);
    SettleShuffle(multiset(s.dispatching.Keys), DgIds(s.shared), DemuxIds(s.demux), PipesIds(s.pipes), s.settled,
      s.received);
    FirstShuffle(multiset(s.dispatching.Keys), DgIds(s.shared), DemuxIds(s.demux), PipesIds(s.pipes), s.settled,
      s.received);
    UptoNext(s.received);
  }

  lemma ReceiveKeeps(cfg: Config, s: State, raw: bytes, at: int)
    requires LedgerInv(s) && Enabled(cfg, s, Deliver(raw, at))
    ensures LedgerInv(Apply(cfg, s, Deliver(raw, at)))
  {
    hide Census, PipesIds, DgIds, DemuxIds, SumStats, TallyMatches, AllBooks, Upto;
    var d := Dispatch(Datagram(s.received, raw, at, raw, [], []), Arrived);
    ReceiveCensus(s, d);
    CensusOf(s.(dispatching := s.dispatching[s.received := d]), Apply(cfg, s, Deliver(raw, at)));
  }

  lemma CensusOf(s: State, s': State)
    requires s'.dispatching == s.dispatching && s'.shared == s.shared && s'.demux == s.demux && s'.pipes == s.pipes
    requires s'.settled == s.settled
    ensures Census(s') == Census(s)
  {
  }

  lemma FreshKey(m: map<nat, Dispatch>, id: nat, d: Dispatch)
    requires id !in m
    ensures multiset(m[id := d].Keys) == multiset(m.Keys) + multiset{id}
  {
    assert m[id := d].Keys == m.Keys + {id};
  }

  lemma FirstShuffle(a: multiset<nat>, b: multiset<nat>, c: multiset<nat>, d: multiset<nat>, e: multiset<nat>, id: nat)
    ensures (a + multiset{id}) + b + c + d + e == (a + b + c + d + e) + multiset{id}
  {
  }

  lemma UptoNext(n: nat)
    ensures Upto(n + 1) == Upto(n) + multiset{n}
  {
  }

  lemma ParseErrorMatches()
    ensures TallyMatches(ZERO_TALLY.(parseError := 1), NO_STATS, 0, 1)
  {
  }

  lemma UnroutedUnknownMatches()
    ensures TallyMatches(ZERO_TALLY.(unroutedUnknown := 1), NO_STATS, 0, 1)
  {
  }

  lemma UnroutedMissingMatches()
    ensures TallyMatches(ZERO_TALLY.(unroutedMissing := 1), NO_STATS, 0, 1)
  {
  }

  lemma BadTokenMatches()
    ensures TallyMatches(ZERO_TALLY.(badToken := 1), NO_STATS, 0, 1)
  {
  }

  lemma SharedFullMatches()
    ensures TallyMatches(ZERO_TALLY.(queueFull := 1), NO_STATS, 0, 1)
  {
  }

  lemma RoutingClosedMatches()
    ensures TallyMatches(ZERO_TALLY.(routingClosed := 1), NO_STATS.(routingClosed := 1), 0, 1)
  {
  }

  lemma MissingTokenMatches()
    ensures TallyMatches(ZERO_TALLY.(missingToken := 1), NO_STATS.(missingToken := 1), 0, 1)
  {
  }

  lemma HandoffFullMatches()
    ensures TallyMatches(ZERO_TALLY, NO_STATS.(queueFull := 1), 0, 1)
  {
  }

  lemma DemuxMissMatches()
    ensures TallyMatches(ZERO_TALLY.(routingClosed := 1), NO_STATS, 1, 1)
  {
  }

  /** Every drop moves exactly one counter on each level it is booked at. */
  lemma DropsMatch()
    ensures TallyMatches(ZERO_TALLY.(parseError := 1), NO_STATS, 0, 1)
    ensures TallyMatches(ZERO_TALLY.(unroutedUnknown := 1), NO_STATS, 0, 1)
    ensures TallyMatches(ZERO_TALLY.(unroutedMissing := 1), NO_STATS, 0, 1)
    ensures TallyMatches(ZERO_TALLY.(badToken := 1), NO_STATS, 0, 1)
    ensures TallyMatches(ZERO_TALLY.(queueFull := 1), NO_STATS, 0, 1)
    ensures TallyMatches(ZERO_TALLY.(routingClosed := 1), NO_STATS.(routingClosed := 1), 0, 1)
    ensures TallyMatches(ZERO_TALLY.(missingToken := 1), NO_STATS.(missingToken := 1), 0, 1)
    ensures TallyMatches(ZERO_TALLY, NO_STATS.(queueFull := 1), 0, 1)
    ensures TallyMatches(ZERO_TALLY.(routingClosed := 1), NO_STATS, 1, 1)
  {
    hide TallyMatches;
    ParseErrorMatches();
    UnroutedUnknownMatches();
    UnroutedMissingMatches();
    BadTokenMatches();
    SharedFullMatches();
    RoutingClosedMatches();
    MissingTokenMatches();
    HandoffFullMatches();
    DemuxMissMatches();
  }

  lemma DispatchKeeps(cfg: Config, s: State, st: Step)
    requires LedgerInv(s) && Enabled(cfg, s, st)
    requires st.RouteOne? || st.LookUp? || st.RegisterLock?
    ensures LedgerInv(Apply(cfg, s, st))
  {
    hide LedgerInv, Drop, Advance, Lookup, TallyMatches;
    DropsMatch();
    assert s.dispatching[st.id].dg.id == st.id by { OwnId(s, st.id); }
    var dg := s.dispatching[st.id].dg;
    match st
    case RouteOne(id) =>
      var f := cfg.route(dg.body);
      DropKeeps(s, id, ZERO_TALLY.(parseError := 1));
      DropKeeps(s, id, ZERO_TALLY.(unroutedUnknown := 1));
      DropKeeps(s, id, ZERO_TALLY.(badToken := 1));
      AdvanceKeeps(s, id, Dispatch(dg.(body := if f.removed then f.stripped else dg.body, project := f.project,
                                       token := if cfg.inlineTokens then f.token else []), Routed));
    case LookUp(id) =>
      AdvanceKeeps(s, id, Dispatch(dg, WantsInline));
      UnroutedKeeps(s, id);
      match Lookup(s.table, cfg.requireProject, dg.project) {
        case Some(p) => AdvanceKeeps(s, id, Dispatch(dg, Found(p)));
        case None =>
      }
    case RegisterLock(id) =>
      match Lookup(s.table, cfg.requireProject, dg.project) {
        case Some(p) => AdvanceKeeps(s, id, Dispatch(dg, Found(p)));
        case None => InlineKeeps(s, LookupMissed(id, s.version));
      }
  }

  lemma OwnId(s: State, id: nat)
    requires LedgerInv(s) && id in s.dispatching
    ensures s.dispatching[id].dg.id == id
  {
  }

  lemma UnroutedKeeps(s: State, id: nat)
    requires LedgerInv(s) && id in s.dispatching
    ensures LedgerInv(Unrouted(s, id))
  {
    hide LedgerInv, Drop, TallyMatches;
    DropsMatch();
    DropKeeps(s, id, ZERO_TALLY.(unroutedMissing := 1));
    DropKeeps(s, id, ZERO_TALLY.(unroutedUnknown := 1));
  }

  lemma InlineKeeps(s: State, w: Inline)
    requires LedgerInv(s)
    ensures LedgerInv(s.(inline := w))
  {
    hide PipesIds, SumStats, AllBooks;
    StillKeeps(s, s.(inline := w));
  }

  lemma RegisterKeeps(cfg: Config, s: State, st: Step)
    requires LedgerInv(s) && Enabled(cfg, s, st) && (st.RegisterLoad? || st.RegisterStore?)
    ensures LedgerInv(Apply(cfg, s, st))
  {
    hide LedgerInv, Drop, Unrouted;
    match st
    case RegisterLoad =>
      UnroutedKeeps(s, s.inline.id);
      InlineKeeps(Unrouted(s, s.inline.id), Free);
      InlineKeeps(s, RoomChecked(s.inline.id, s.table, s.inline.seen));
    case RegisterStore =>
      var w := s.inline;
      var dg := s.dispatching[w.id].dg;
      OwnId(s, w.id);
      AdvanceKeeps(s, w.id, Dispatch(dg, Found(w.pipe)));
      TableKeeps(Advance(s, w.id, Dispatch(dg, Found(w.pipe))), Apply(cfg, s, st));
  }

  lemma TableKeeps(s: State, s': State)
    requires LedgerInv(s)
    requires s' == s.(table := s'.table, version := s'.version, inline := s'.inline, reload := s'.reload, due := s'.due,
                      shut := s'.shut, sharedClosed := s'.sharedClosed)
    ensures LedgerInv(s')
  {
    hide PipesIds, SumStats, AllBooks;
    StillKeeps(s, s');
  }

  lemma AdmitKeeps(cfg: Config, s: State, st: Step)
    requires LedgerInv(s) && Enabled(cfg, s, st) && (st.Admit? || st.Enqueue?)
    ensures LedgerInv(Apply(cfg, s, st))
  {
    hide LedgerInv, Drop, Advance, Book, TallyMatches;
    DropsMatch();
    OwnId(s, st.id);
    var d := s.dispatching[st.id];
    DropBookKeeps(s, st.id, d.phase.pipe, false);
    if st.Admit? {
      DropBookKeeps(s, st.id, d.phase.pipe, true);
      AdvanceKeeps(s, st.id, Dispatch(d.dg, Admitted(d.phase.pipe)));
    } else {
      DropKeeps(s, st.id, ZERO_TALLY.(queueFull := 1));
      SharedKeeps(s, st.id);
    }
  }

  lemma SharedKeeps(s: State, id: nat)
    requires LedgerInv(s) && id in s.dispatching
    ensures LedgerInv(s.(dispatching := s.dispatching - {id}, shared := s.shared + [s.dispatching[id].dg]))
  {
    hide PipesIds, DgIds, DemuxIds, SumStats, TallyMatches, AllBooks;
    var s' := s.(dispatching := s.dispatching - {id}, shared := s.shared + [s.dispatching[id].dg]);
    assert multiset(s.dispatching.Keys) == multiset(s'.dispatching.Keys) + multiset{id};
    DgIdsSnoc(s.shared, s.dispatching[id].dg);
    SettleShuffle(multiset(s'.dispatching.Keys), DgIds(s.shared), DemuxIds(s.demux), PipesIds(s.pipes), s.settled, id);
  }

  lemma DemuxTakeKeeps(cfg: Config, s: State)
    requires LedgerInv(s) && Enabled(cfg, s, DemuxTake)
    ensures LedgerInv(Apply(cfg, s, DemuxTake))
  {
    hide Census, PipesIds, DgIds, SumStats, TallyMatches, AllBooks, PipeEnabled, KeyMap, KeysOk;
    TakenCensus(s);
  }

  lemma TakenCensus(s: State)
    requires s.demux == Waiting && s.shared != []
    ensures Census(s.(demux := Taken(s.shared[0]), shared := s.shared[1..])) == Census(s)
  {
    hide PipesIds, DgIds;
    DgIdsPop(s.shared);
    var id := s.shared[0].id;
    SettleShuffle(multiset(s.dispatching.Keys), DgIds(s.shared[1..]), multiset{}, PipesIds(s.pipes), s.settled, id);
    assert multiset{} + multiset{id} == multiset{id};
    assert DgIds(s.shared) == DgIds(s.shared[1..]) + multiset{id};
  }

  lemma DemuxLookupKeeps(cfg: Config, s: State)
    requires LedgerInv(s) && Enabled(cfg, s, DemuxLookup)
    ensures LedgerInv(Apply(cfg, s, DemuxLookup))
  {
    hide LedgerInv, Lookup, Add, PipeEnabled, KeyMap, KeysOk;
    match Lookup(s.table, cfg.requireProject, s.demux.dg.project)
    case Some(p) => HoldKeeps(s, p);
    case None => MissKeeps(s);
  }

  lemma HoldKeeps(s: State, p: PipeId)
    requires LedgerInv(s) && s.demux.Taken?
    ensures LedgerInv(s.(demux := Holding(s.demux.dg, p)))
  {
    hide PipesIds, DgIds, SumStats, AllBooks, TallyMatches;
  }

  lemma MissKeeps(s: State)
    requires LedgerInv(s) && s.demux.Taken?
    ensures LedgerInv(s.(demux := Waiting, tally := Add(s.tally, ZERO_TALLY.(routingClosed := 1)),
            misses := s.misses + 1,
                         settled := s.settled + multiset{s.demux.dg.id}))
  {
    hide PipesIds, DgIds, SumStats, TallyMatches, AllBooks, Add, AddStats;
    DropsMatch();
    TallyAdds(s.tally, SumStats(s.pipes), s.misses, |s.settled|, ZERO_TALLY.(routingClosed := 1), NO_STATS, 1, 1);
    NoStatsAdds(SumStats(s.pipes));
    DemuxShuffle(multiset(s.dispatching.Keys), DgIds(s.shared), PipesIds(s.pipes), s.settled, s.demux.dg.id);
  }

  lemma DemuxShuffle(a: multiset<nat>, b: multiset<nat>, d: multiset<nat>, e: multiset<nat>, id: nat)
    ensures a + b + multiset{id} + d + e == a + b + multiset{} + d + (e + multiset{id})
    ensures a + b + multiset{id} + d + e == a + b + multiset{} + (d + multiset{id}) + e
    ensures |e + multiset{id}| == |e| + 1
  {
  }

  lemma DemuxSendKeeps(cfg: Config, s: State)
    requires LedgerInv(s) && Enabled(cfg, s, DemuxSend)
    ensures LedgerInv(Apply(cfg, s, DemuxSend))
  {
    hide LedgerInv, Book, TallyMatches, Add;
    DropsMatch();
    DemuxDropKeeps(s, true);
    DemuxDropKeeps(s, false);
    AddZero(s.tally);
    HandOffKeeps(s);
  }

  lemma AddZero(t: Tally)
    ensures Add(t, ZERO_TALLY) == t
  {
  }

  /** What the demuxer counts when the pipeline does not take the datagram: closed, or full. */
  function RefusedTally(closed: bool): Tally { if closed then ZERO_TALLY.(routingClosed := 1) else ZERO_TALLY }

  function RefusedStats(closed: bool): Stats {
    if closed then NO_STATS.(routingClosed := 1) else NO_STATS.(queueFull := 1)
  }

  lemma RefusedStatsPlain(closed: bool)
    ensures TallyMatches(RefusedTally(closed), RefusedStats(closed), 0, 1)
    ensures var st := RefusedStats(closed); st.received == st.sent == st.flushFailed == st.shutdown == 0
  {
    hide TallyMatches;
    RoutingClosedMatches();
    HandoffFullMatches();
  }

  /** The demuxer lets go of a datagram that nobody takes. */
  lemma RefusedCensus(s: State, s': State)
    requires s.demux.Holding? && s'.demux == Waiting && s'.dispatching == s.dispatching && s'.shared == s.shared
    requires PipesIds(s'.pipes) == PipesIds(s.pipes) && s'.settled == s.settled + multiset{s.demux.dg.id}
    ensures Census(s') == Census(s) && |s'.settled| == |s.settled| + 1
  {
    hide PipesIds, DgIds;
    DemuxShuffle(multiset(s.dispatching.Keys), DgIds(s.shared), PipesIds(s.pipes), s.settled, s.demux.dg.id);
  }

  lemma DemuxDropKeeps(s: State, closed: bool)
    requires LedgerInv(s) && s.demux.Holding? && s.demux.pipe < |s.pipes|
    ensures LedgerInv(Book(s.(demux := Waiting, tally := Add(s.tally, RefusedTally(closed)),
            settled := s.settled + multiset{s.demux.dg.id}),
                           s.demux.pipe, RefusedStats(closed)))
  {
    hide Census, PipesIds, PipeIds, SumStats, TallyMatches, Add, AddStats, Batched, RefusedTally, RefusedStats,
      AllBooks;
    var t, st := RefusedTally(closed), RefusedStats(closed);
    RefusedStatsPlain(closed);
    var pipe := s.demux.pipe;
    var q := Bump(s.pipes[pipe], st);
    TallyAdds(s.tally, SumStats(s.pipes), s.misses, |s.settled|, t, st, 0, 1);
    SumBump(s.pipes, pipe, q, st);
    BumpIds(s.pipes[pipe], st);
    PipesIdsSame(s.pipes, pipe, q);
    BookKeepsBooks(s.pipes, pipe, q, st);
    RefusedCensus(s, Book(s.(demux := Waiting, tally := Add(s.tally, t),
      settled := s.settled + multiset{s.demux.dg.id}), pipe, st));
  }

  lemma HandOffKeeps(s: State)
    requires LedgerInv(s) && s.demux.Holding? && s.demux.pipe < |s.pipes|
    ensures var p := s.pipes[s.demux.pipe];
            LedgerInv(s.(demux := Waiting, pipes := s.pipes[s.demux.pipe := p.(raw := p.raw + [s.demux.dg])]))
  {
    hide PipesIds, PipeIds, DgIds, SumStats, TallyMatches, AddStats, Batched;
    var pipe, dg := s.demux.pipe, s.demux.dg;
    var p := s.pipes[pipe];
    var q := p.(raw := p.raw + [dg]);
    HandOffIds(p, dg);
    PipesIdsAdded(s.pipes, pipe, q, multiset{dg.id});
    NoStatsAdds(p.stats);
    NoStatsAdds(SumStats(s.pipes));
    SumBump(s.pipes, pipe, q, NO_STATS);
    DemuxShuffle(multiset(s.dispatching.Keys), DgIds(s.shared), PipesIds(s.pipes), s.settled, dg.id);
    BookKeepsBooks(s.pipes, pipe, q, NO_STATS);
  }

  lemma HandOffIds(p: Pipe, dg: Datagram)
    ensures var q := p.(raw := p.raw + [dg]); PipeIds(q) == PipeIds(p) + multiset{dg.id} && Batched(q) == Batched(p)
  {
    hide BatchedIds, DgIds;
    DgIdsSnoc(p.raw, dg);
    SameBatched(p, p.(raw := p.raw + [dg]));
  }

  /** Some datagrams leave the pipelines for good. */
  lemma LeaveCensus(s: State, s': State, left: multiset<nat>)
    requires s'.demux == s.demux && s'.dispatching == s.dispatching && s'.shared == s.shared
    requires PipesIds(s'.pipes) + left == PipesIds(s.pipes) && s'.settled == s.settled + left
    ensures Census(s') == Census(s) && |s'.settled| == |s.settled| + |left|
  {
    hide PipesIds, DgIds, DemuxIds;
    LeaveShuffle(multiset(s.dispatching.Keys) + DgIds(s.shared) + DemuxIds(s.demux), PipesIds(s'.pipes), s.settled,
      left);
  }

  lemma OnPipeKeeps(cfg: Config, s: State, pipe: PipeId, pst: PipeStep)
    requires LedgerInv(s) && Enabled(cfg, s, OnPipe(pipe, pst))
    ensures LedgerInv(Apply(cfg, s, OnPipe(pipe, pst)))
  {
    hide Census, PipesIds, PipeIds, SumStats, TallyMatches, Add, AddStats, Batched, PipeEffect, PipeEnabled, AllBooks,
      AcceptStep;
    var p := s.pipes[pipe];
    var e := PipeEffect(cfg, p, pst);
    var q := Bump(e.pipe, e.booked);
    EffectMoves(cfg, p, pst);
    if pst.Accept? {
      AcceptEnabled(cfg, p, pst.stamp);
      AcceptAccounts(cfg, p, pst.stamp);
    } else {
      EffectAccounts(cfg, p, pst);
    }
    BumpIds(e.pipe, e.booked);
    TallyAdds(s.tally, SumStats(s.pipes), s.misses, |s.settled|, e.tally, e.booked, 0, |e.left|);
    SumBump(s.pipes, pipe, q, e.booked);
    PipesIdsRemoved(s.pipes, pipe, q, e.left);
    BookKeepsBooks(s.pipes, pipe, q, e.booked);
    LeaveCensus(s, Apply(cfg, s, OnPipe(pipe, pst)), e.left);
  }

  lemma LeaveShuffle(a: multiset<nat>, d: multiset<nat>, e: multiset<nat>, m: multiset<nat>)
    ensures a + (d + m) + e == a + d + (e + m) && |e + m| == |e| + |m|
  {
  }

  lemma DrainKeeps(cfg: Config, s: State, pipe: PipeId)
    requires LedgerInv(s) && Enabled(cfg, s, DrainBegin(pipe))
    ensures LedgerInv(Apply(cfg, s, DrainBegin(pipe)))
  {
    hide PipesIds, PipeIds, SumStats, AddStats, Batched;
    var p := s.pipes[pipe];
    var q := p.(rawClosed := true);
    ClosedIds(p);
    NoStatsAdds(p.stats);
    NoStatsAdds(SumStats(s.pipes));
    SumBump(s.pipes, pipe, q, NO_STATS);
    PipesIdsSame(s.pipes, pipe, q);
    BookKeepsBooks(s.pipes, pipe, q, NO_STATS);
    StillKeeps(s, Apply(cfg, s, DrainBegin(pipe)));
  }

  lemma ClosedIds(p: Pipe)
    ensures PipeIds(p.(rawClosed := true)) == PipeIds(p) && Batched(p.(rawClosed := true)) == Batched(p)
  {
    SameBatched(p, p.(rawClosed := true));
  }

  lemma UntouchedIds(p: Pipe)
    requires Untouched(p)
    ensures PipeIds(p) == multiset{} && PipeBooks(p)
  {
  }

  lemma MoreKeeps(s: State, s': State, more: seq<Pipe>)
    requires LedgerInv(s) && forall k :: 0 <= k < |more| ==> Untouched(more[k])
    requires s' == s.(pipes := s.pipes + more, inline := s'.inline, reload := s'.reload)
    ensures LedgerInv(s')
  {
    hide PipesIds, PipeIds, SumStats, AddStats, PipeBooks, Untouched, NO_STATS;
    forall k | 0 <= k < |more|
      ensures PipeIds(more[k]) == multiset{} && PipeBooks(more[k]) && more[k].stats == NO_STATS
    {
      UntouchedIds(more[k]);
      UntouchedStats(more[k]);
    }
    PipesIdsMore(s.pipes, more);
    SumMore(s.pipes, more);
    StillKeeps(s, s');
  }

  lemma UntouchedStats(p: Pipe)
    requires Untouched(p)
    ensures p.stats == NO_STATS
  {
  }

  lemma MakeKeeps(cfg: Config, s: State, st: Step)
    requires LedgerInv(s) && Enabled(cfg, s, st) && (st.RegisterMake? || st.ReloadBuild?)
    ensures LedgerInv(Apply(cfg, s, st))
  {
    hide LedgerInv, BuiltTable, FreshNames;
    var s' := Apply(cfg, s, st);
    match st
    case RegisterMake =>
      MoreKeeps(s, s', [Start(NewPipe(s.dispatching[s.inline.id].dg.project, [], true))]);
    case ReloadBuild(order) =>
      var w := s.reload;
      OrderInKeys(w.keys, w.prev, s.pipes, order);
      var grown := BuiltPipes(w.keys, s.pipes, order);
      var more := grown[|s.pipes|..];
      assert grown == s.pipes + more;
      MoreKeeps(s, s', more);
  }

  lemma LedgerStep(cfg: Config, s: State, st: Step)
    requires LedgerInv(s) && Enabled(cfg, s, st)
    ensures LedgerInv(Apply(cfg, s, st))
  {
    hide LedgerInv;
    match st
    case Deliver(raw, at) => ReceiveKeeps(cfg, s, raw, at);
    case RouteOne(_) => DispatchKeeps(cfg, s, st);
    case LookUp(_) => DispatchKeeps(cfg, s, st);
    case RegisterLock(_) => DispatchKeeps(cfg, s, st);
    case RegisterLoad => RegisterKeeps(cfg, s, st);
    case RegisterStore => RegisterKeeps(cfg, s, st);
    case RegisterMake => MakeKeeps(cfg, s, st);
    case ReloadBuild(_) => MakeKeeps(cfg, s, st);
    case Admit(_) => AdmitKeeps(cfg, s, st);
    case Enqueue(_) => AdmitKeeps(cfg, s, st);
    case DemuxTake => DemuxTakeKeeps(cfg, s);
    case DemuxLookup => DemuxLookupKeeps(cfg, s);
    case DemuxSend => DemuxSendKeeps(cfg, s);
    case DemuxExit => DemuxExitKeeps(cfg, s);
    case OnPipe(pipe, pst) => OnPipeKeeps(cfg, s, pipe, pst);
    case DrainBegin(pipe) => DrainKeeps(cfg, s, pipe);
    case _ => WriterKeeps(cfg, s, st);
  }

  lemma DemuxExitKeeps(cfg: Config, s: State)
    requires LedgerInv(s) && Enabled(cfg, s, DemuxExit)
    ensures LedgerInv(Apply(cfg, s, DemuxExit))
  {
    hide PipesIds, SumStats, AllBooks;
    StillKeeps(s, Apply(cfg, s, DemuxExit));
  }

  lemma WriterKeeps(cfg: Config, s: State, st: Step)
    requires LedgerInv(s) && Enabled(cfg, s, st)
    requires st.ReloadRead? || st.ReloadLoad? || st.ReloadStore? || st.ExpireLoad? || st.ExpireStore? || st.ExpireQuit?
             || st.CloseShared? || st.ShutdownLoad? || st.ShutdownDone?
    ensures LedgerInv(Apply(cfg, s, st))
  {
    hide LedgerInv, KeyMap, Without, Dropped, KeysOk, InlinePipes, AllDrained;
    TableKeeps(s, Apply(cfg, s, st));
  }

  /** The installed state: pipelines that nothing has happened to, and nobody anywhere. */
  ghost predicate Blank(s: State) {
    && s.received == 0 && s.tally == ZERO_TALLY && s.misses == 0 && s.dispatching == map[] && s.shared == []
    && s.demux == Waiting && s.settled == multiset{} && forall k :: 0 <= k < |s.pipes| ==> Untouched(s.pipes[k])
  }

  lemma InitBlank(cfg: Config, s: State)
    requires Init(cfg, s)
    ensures Blank(s)
  {
    hide BuiltTable, BuiltPipes, FreshNames, Untouched;
    var keys, order :| KeysOk(cfg, keys) && (!cfg.keysFile ==> forall n <- keys :: n == DEFAULT_PROJECT)
      && Enumerates(order, FreshNames(keys, EMPTY_TABLE, [])) && s == Installed(keys, order);
    OrderInKeys(keys, EMPTY_TABLE, [], order);
    forall k | 0 <= k < |s.pipes| ensures Untouched(s.pipes[k]) {
      BuiltPipeAt(keys, [], order, k);
    }
  }

  lemma UntouchedPipes(pipes: seq<Pipe>)
    requires forall k :: 0 <= k < |pipes| ==> Untouched(pipes[k])
    ensures PipesIds(pipes) == multiset{} && SumStats(pipes) == NO_STATS && AllBooks(pipes)
  {
    hide Untouched, PipeIds, PipeBooks, NO_STATS;
    forall k | 0 <= k < |pipes|
      ensures PipeIds(pipes[k]) == multiset{} && PipeBooks(pipes[k]) && pipes[k].stats == NO_STATS
    {
      UntouchedIds(pipes[k]);
      UntouchedStats(pipes[k]);
    }
    assert [] + pipes == pipes;
    PipesIdsMore([], pipes);
    SumMore([], pipes);
  }

  lemma BlankCensus(s: State)
    requires Blank(s)
    ensures Census(s) == Upto(s.received) && OwnIds(s)
  {
    hide PipesIds, SumStats, AllBooks, Untouched;
    UntouchedPipes(s.pipes);
    assert multiset(s.dispatching.Keys) == multiset{};
  }

  lemma NothingBooked()
    ensures TallyMatches(ZERO_TALLY, NO_STATS, 0, 0)
  {
  }

  /** The invariant with the sums written out: who is where, each project's account, everyone who has left counted
      once, and both levels of counters in agreement. */
  ghost predicate Balanced(s: State) {
    && Census(s) == Upto(s.received) && OwnIds(s) && AllBooks(s.pipes)
    && Total(s.tally) + Overflowed(s.pipes) == |s.settled|
    && var sum := SumStats(s.pipes);
       && s.tally.oversize == sum.oversize && s.tally.missingToken == sum.missingToken
       && s.tally.flushFailed == sum.flushFailed && s.tally.shutdown == sum.shutdown && s.tally.sent == sum.sent
       && s.tally.routingClosed == s.misses + sum.routingClosed
  }

  lemma BalancedExact(s: State)
    ensures Balanced(s) <==> LedgerInv(s)
  {
    hide Census, Upto, OwnIds, AllBooks, SumStats, Total, Overflowed;
    OverflowedIsSum(s.pipes);
  }

  lemma InitLedger(cfg: Config, s: State)
    requires Init(cfg, s)
    ensures Balanced(s)
  {
    hide Init, Census, OwnIds, TallyMatches, AllBooks, SumStats, Untouched, NO_STATS, ZERO_TALLY, Balanced;
    BalancedExact(s);
    InitBlank(cfg, s);
    BlankCensus(s);
    UntouchedPipes(s.pipes);
    NothingBooked();
  }

  lemma {:induction false} LedgerAlways(cfg: Config, states: seq<State>, steps: seq<Step>, k: nat)
    requires Run(cfg, states, steps) && k < |states|
    ensures Balanced(states[k])
    decreases k
  {
    hide Run, Init, Apply, Enabled, Balanced, LedgerInv;
    RunStart(cfg, states, steps);
    BalancedExact(states[k]);
    if k == 0 {
      InitLedger(cfg, states[0]);
    } else {
      LedgerAlways(cfg, states, steps, k - 1);
      BalancedExact(states[k - 1]);
      RunStep(cfg, states, steps, k - 1);
      LedgerStep(cfg, states[k - 1], steps[k - 1]);
    }
  }

  // ---------------------------------------------------------------- what the books say

  function Queued(pipes: seq<Pipe>): nat {
    if pipes == [] then 0 else Queued(pipes[..|pipes| - 1]) + |pipes[|pipes| - 1].raw|
  }

  function InBatches(pipes: seq<Pipe>): nat {
    if pipes == [] then 0 else InBatches(pipes[..|pipes| - 1]) + Batched(pipes[|pipes| - 1])
  }

  function AtDemux(d: Demux): nat { if d.Taken? || d.Holding? then 1 else 0 }

  /** Datagrams that no batcher has taken yet. */
  function BeforeBatchers(s: State): nat { |s.dispatching| + |s.shared| + AtDemux(s.demux) + Queued(s.pipes) }

  lemma {:induction false} EventsInSize(bs: seq<Batch>)
    ensures |BatchIds(bs)| == EventsIn(bs)
    decreases |bs|
  {
    if bs != [] {
      EventsInSize(bs[..|bs| - 1]);
      ItemIdsSize(bs[|bs| - 1].items);
    }
  }

  lemma PipeIdsSize(p: Pipe)
    ensures |PipeIds(p)| == |p.raw| + Batched(p)
  {
    hide DgIds, ItemIds, BatchIds, EventsIn;
    DgIdsSize(p.raw);
    ItemIdsSize(p.cur);
    EventsInSize(p.batches);
    if p.pending.Some? {
      ItemIdsSize(p.pending.value.items);
    }
    if p.sending.Some? {
      ItemIdsSize(p.sending.value.batch.items);
    }
  }

  lemma {:induction false} PipesIdsSize(pipes: seq<Pipe>)
    ensures |PipesIds(pipes)| == Queued(pipes) + InBatches(pipes)
    decreases |pipes|
  {
    hide PipeIds, Batched;
    if pipes != [] {
      PipesIdsSize(pipes[..|pipes| - 1]);
      PipeIdsSize(pipes[|pipes| - 1]);
    }
  }

  lemma SetSize<T>(a: set<T>)
    ensures |multiset(a)| == |a|
  {
  }

  /** Datagrams refused at a full handoff. */
  function Overflowed(pipes: seq<Pipe>): nat {
    if pipes == [] then 0 else Overflowed(pipes[..|pipes| - 1]) + pipes[|pipes| - 1].stats.queueFull
  }

  lemma {:induction false} OverflowedIsSum(pipes: seq<Pipe>)
    ensures Overflowed(pipes) == SumStats(pipes).queueFull
    decreases |pipes|
  {
    if pipes != [] {
      OverflowedIsSum(pipes[..|pipes| - 1]);
    }
  }

  /** Process-wide drops and sends, the handoff overflows (which only the projects count), and what is
      still on its way. */
  function Accounted(s: State): nat {
    Total(s.tally) + Overflowed(s.pipes) + BeforeBatchers(s) + InBatches(s.pipes)
  }

  /** The ledger: in every reachable state the received datagrams are the process-wide drops and sends,
      the handoff overflows, and those still on their way. */
  lemma Conservation(cfg: Config, states: seq<State>, steps: seq<Step>, k: nat)
    requires Run(cfg, states, steps) && k < |states|
    ensures states[k].received == Accounted(states[k])
  {
    hide Run, Balanced, LedgerInv, Accounted;
    LedgerAlways(cfg, states, steps, k);
    BalancedExact(states[k]);
    ConservationAt(states[k]);
  }

  lemma ConservationAt(s: State)
    requires LedgerInv(s)
    ensures s.received == Accounted(s)
  {
    hide PipesIds, DgIds, SumStats, AllBooks, Queued, InBatches, Total, Overflowed;
    UptoCounts(s.received, 0);
    SetSize(s.dispatching.Keys);
    DgIdsSize(s.shared);
    PipesIdsSize(s.pipes);
    OverflowedIsSum(s.pipes);
    assert |s.dispatching.Keys| == |s.dispatching|;
    assert |Census(s)| ==
           |multiset(s.dispatching.Keys)| + |DgIds(s.shared)| + |DemuxIds(s.demux)| + |PipesIds(s.pipes)| + |s.settled|;
  }

  /** In every reachable state each received datagram is in exactly one place, and nothing else is anywhere. */
  lemma ExactlyOnce(cfg: Config, states: seq<State>, steps: seq<Step>, k: nat, id: nat)
    requires Run(cfg, states, steps) && k < |states|
    ensures var s := states[k]; Census(s)[id] == if id < s.received then 1 else 0
  {
    LedgerAlways(cfg, states, steps, k);
    UptoCounts(states[k].received, id);
  }

  /** Each project's own account, in every reachable state: the events it has accepted are sent, given
      up, cut by shutdown, or still on their way through its pipeline. */
  lemma EachProjectsBooks(cfg: Config, states: seq<State>, steps: seq<Step>, k: nat, p: PipeId)
    requires Run(cfg, states, steps) && k < |states| && p < |states[k].pipes|
    ensures PipeBooks(states[k].pipes[p])
  {
    hide Run, PipeBooks, Census, OwnIds, SumStats, Total, Overflowed;
    LedgerAlways(cfg, states, steps, k);
  }

  lemma {:induction false} ProjectBooks(pipes: seq<Pipe>)
    requires AllBooks(pipes)
    ensures var sum := SumStats(pipes); sum.received == sum.sent + sum.flushFailed + sum.shutdown + InBatches(pipes)
    decreases |pipes|
  {
    hide Batched;
    if pipes != [] {
      var n := |pipes| - 1;
      assert PipeBooks(pipes[n]);
      assert AllBooks(pipes[..n]);
      ProjectBooks(pipes[..n]);
    }
  }

  /** The sum that the comment on the per-project counters equates with the received datagrams. */
  function CommentedSum(t: Tally, sum: Stats): nat {
    sum.received + sum.parseError + sum.oversize + sum.queueFull + sum.routingClosed + t.parseError
    + t.unroutedMissing + t.unroutedUnknown + t.badToken + sum.missingToken
  }

  /** The commented formula, allowing for datagrams that no batcher has taken, holds in a reachable
      state if and only if the batchers' parse errors (which it counts twice) happen to equal the
      shared-queue overflows plus the demuxer's failed lookups (which it leaves out). */
  lemma CommentExact(cfg: Config, states: seq<State>, steps: seq<Step>, k: nat)
    requires Run(cfg, states, steps) && k < |states|
    ensures var s := states[k];
            s.received == CommentedSum(s.tally, SumStats(s.pipes)) + BeforeBatchers(s) <==>
            SumStats(s.pipes).parseError == s.tally.queueFull + s.misses
  {
    var s := states[k];
    LedgerAlways(cfg, states, steps, k);
    BalancedExact(s);
    hide Run, Balanced;
    ConservationAt(s);
    hide Census, SumStats, Queued, InBatches, Overflowed;
    OverflowedIsSum(s.pipes);
    ProjectBooks(s.pipes);
  }
}
