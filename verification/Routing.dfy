/** What the registry's methods do when one runs at a time, and what that comes to: where a datagram
    goes, which counter a drop raises, and who gets what of a queue that the demuxer empties. */
module Routing {
  import opened Bytes
  import opened Batching
  import opened Registry
  import opened Protocol
  import opened Lifecycle

  /** What dispatch and the demuxer work on. */
  datatype Desk = Desk(tally: Tally, shared: seq<Datagram>, table: Table, pipes: seq<Pipe>)

  /** A drop at a pipeline, booked at both levels. */
  function Refused(d: Desk, id: PipeId, t: Tally, st: Stats): Desk
    requires id < |d.pipes|
  {
    d.(tally := Add(d.tally, t), pipes := d.pipes[id := Bump(d.pipes[id], st)])
  }

  // ---------------------------------------------------------------- the demuxer

  /** The handoff: taken, refused because the pipeline is closed (counted at both levels), or refused
      because its slots are full (counted by the project only). */
  function Handed(d: Desk, id: PipeId, dg: Datagram): Desk
    requires id < |d.pipes|
  {
    var p := d.pipes[id];
    if p.rawClosed then Refused(d, id, ZERO_TALLY.(routingClosed := 1), NO_STATS.(routingClosed := 1))
    else if |p.raw| < HANDOFF_DEPTH then d.(pipes := d.pipes[id := p.(raw := p.raw + [dg])])
    else d.(pipes := d.pipes[id := Bump(p, NO_STATS.(queueFull := 1))])
  }

  /** One datagram off the shared queue, under the table as it is now (which leads to pipelines that exist). */
  function Forwarded(cfg: Config, d: Desk, dg: Datagram): (r: Desk)
    ensures r.table == d.table && r.shared == d.shared && |r.pipes| == |d.pipes|
  {
    match Lookup(d.table, cfg.requireProject, dg.project)
    case Some(id) => if id < |d.pipes| then Handed(d, id, dg) else d
    case None => d.(tally := Add(d.tally, ZERO_TALLY.(routingClosed := 1)))
  }

  /** The whole queue. */
  function ForwardedAll(cfg: Config, d: Desk): (r: Desk)
    ensures r.table == d.table && r.shared == [] && |r.pipes| == |d.pipes|
    decreases |d.shared|
  {
    if d.shared == [] then d else ForwardedAll(cfg, Forwarded(cfg, d.(shared := d.shared[1..]), d.shared[0]))
  }

  predicate Addresses(cfg: Config, t: Table, dg: Datagram, id: PipeId) {
    Lookup(t, cfg.requireProject, dg.project) == Some(id)
  }

  /** The datagrams of the queue that the table sends to the pipeline, in order. */
  function Addressed(cfg: Config, t: Table, queue: seq<Datagram>, id: PipeId): seq<Datagram> {
    if queue == [] then []
    else (if Addresses(cfg, t, queue[0], id) then [queue[0]] else []) + Addressed(cfg, t, queue[1..], id)
  }

  /** The datagram finds no project, or a closed pipeline. */
  predicate Stray(cfg: Config, t: Table, pipes: seq<Pipe>, dg: Datagram)
    requires InRange(t, pipes)
  {
    var n := NameOf(dg.project);
    Missing(t, cfg.requireProject, dg.project) || n !in t.names || pipes[t.names[n]].rawClosed
  }

  function Homeless(cfg: Config, t: Table, pipes: seq<Pipe>, queue: seq<Datagram>): nat
    requires InRange(t, pipes)
  {
    if queue == [] then 0 else OneIf(Stray(cfg, t, pipes, queue[0])) + Homeless(cfg, t, pipes, queue[1..])
  }

  /** How many more datagrams the pipeline's slots take. */
  function Slots(p: Pipe): nat { if p.rawClosed || |p.raw| >= HANDOFF_DEPTH then 0 else HANDOFF_DEPTH - |p.raw| }

  function Least(m: nat, n: nat): nat { if m <= n then m else n }

  /** The pipeline has been offered these datagrams: it has taken the first ones, as many as it had
      slots, and has counted the others under the reason it refused them for. */
  predicate Offered(p: Pipe, q: Pipe, mine: seq<Datagram>) {
    var n := Least(|mine|, Slots(p));
    && q.raw == p.raw + mine[..n] && q.rawClosed == p.rawClosed
    && q.stats.routingClosed == p.stats.routingClosed + (if p.rawClosed then |mine| else 0)
    && q.stats.queueFull == p.stats.queueFull + (if p.rawClosed then 0 else |mine| - n)
  }

  lemma OfferedNothing(p: Pipe)
    ensures Offered(p, p, [])
  {
    assert p.raw + [] == p.raw;
  }

  /** One more offer, before the others. */
  lemma OfferedMore(p: Pipe, p': Pipe, q: Pipe, dg: Datagram, mine: seq<Datagram>)
    requires Offered(p, p', [dg]) && Offered(p', q, mine)
    ensures Offered(p, q, [dg] + mine)
  {
    var all := [dg] + mine;
    assert [dg][..1] == [dg] && [dg][..0] == [] && mine[..0] == [] && all[..0] == [];
    var n := Least(|mine|, Slots(p'));
    if Slots(p) > 0 {
      assert all[..n + 1] == [dg] + mine[..n];
      assert p.raw + all[..n + 1] == (p.raw + [dg]) + mine[..n];
    } else {
      assert p.raw + [] == p.raw;
    }
  }

  lemma HandedOffers(d: Desk, id: PipeId, dg: Datagram, k: PipeId)
    requires id < |d.pipes| && k < |d.pipes|
    ensures var d' := Handed(d, id, dg);
            && d'.table == d.table && |d'.pipes| == |d.pipes| && d'.pipes[k].rawClosed == d.pipes[k].rawClosed
            && Offered(d.pipes[k], d'.pipes[k], if k == id then [dg] else [])
  {
    hide Add;
    OfferedNothing(d.pipes[k]);
    assert [dg][..1] == [dg] && [dg][..0] == [] && d.pipes[k].raw + [] == d.pipes[k].raw;
  }

  lemma ForwardedOffers(cfg: Config, d: Desk, dg: Datagram, k: PipeId)
    requires InRange(d.table, d.pipes) && k < |d.pipes|
    ensures var d' := Forwarded(cfg, d, dg);
            && d'.table == d.table && |d'.pipes| == |d.pipes| && d'.pipes[k].rawClosed == d.pipes[k].rawClosed
            && Offered(d.pipes[k], d'.pipes[k], if Addresses(cfg, d.table, dg, k) then [dg] else [])
  {
    hide Add, Handed, Offered, Lookup, Missing, NameOf;
    OfferedNothing(d.pipes[k]);
    LookupExact(d.table, cfg.requireProject, dg.project);
    match Lookup(d.table, cfg.requireProject, dg.project)
    case Some(id) => HandedOffers(d, id, dg, k);
    case None =>
  }

  lemma LookupBelow(t: Table, requireProject: bool, project: bytes, n: nat)
    requires forall m <- t.names :: t.names[m] < n
    ensures var r := Lookup(t, requireProject, project); r.Some? ==> r.value < n
  {
  }

  /** Emptying the queue gives each pipeline exactly the datagrams addressed to it: the first ones, in
      order, while it has slots, and the others on its own counters. */
  lemma {:induction false} HandoffsExact(cfg: Config, d: Desk, k: PipeId)
    requires InRange(d.table, d.pipes) && k < |d.pipes|
    ensures Offered(d.pipes[k], ForwardedAll(cfg, d).pipes[k], Addressed(cfg, d.table, d.shared, k))
    decreases |d.shared|
  {
    hide Forwarded, Offered, Addresses;
    if d.shared == [] {
      OfferedNothing(d.pipes[k]);
    } else {
      var dg, d0 := d.shared[0], d.(shared := d.shared[1..]);
      var d' := Forwarded(cfg, d0, dg);
      ForwardedOffers(cfg, d0, dg, k);
      HandoffsExact(cfg, d', k);
      var rest := Addressed(cfg, d.table, d.shared[1..], k);
      if Addresses(cfg, d.table, dg, k) {
        OfferedMore(d.pipes[k], d'.pipes[k], ForwardedAll(cfg, d).pipes[k], dg, rest);
      } else {
        OfferedSkip(d.pipes[k], d'.pipes[k], ForwardedAll(cfg, d).pipes[k], rest);
        assert [] + rest == rest;
      }
    }
  }

  lemma OfferedSkip(p: Pipe, p': Pipe, q: Pipe, mine: seq<Datagram>)
    requires Offered(p, p', []) && Offered(p', q, mine)
    ensures Offered(p, q, mine)
  {
    assert p.raw + [] == p.raw;
  }

  lemma ForwardedTally(cfg: Config, d: Desk, dg: Datagram)
    requires InRange(d.table, d.pipes)
    ensures Forwarded(cfg, d, dg).tally ==
            d.tally.(routingClosed := d.tally.routingClosed + Homeless(cfg, d.table, d.pipes, [dg]))
  {
    hide Bump, Lookup, Missing, NameOf;
    LookupExact(d.table, cfg.requireProject, dg.project);
    assert Homeless(cfg, d.table, d.pipes, [dg][1..]) == 0;
  }

  /** Process-wide, emptying the queue raises one counter, by the datagrams that find no project or a closed pipeline.
      */
  lemma {:induction false} HandoffsTally(cfg: Config, d: Desk)
    requires InRange(d.table, d.pipes)
    ensures ForwardedAll(cfg, d).tally ==
            d.tally.(routingClosed := d.tally.routingClosed + Homeless(cfg, d.table, d.pipes, d.shared))
    decreases |d.shared|
  {
    hide Forwarded, Lookup;
    if d.shared != [] {
      var dg, d0 := d.shared[0], d.(shared := d.shared[1..]);
      var d' := Forwarded(cfg, d0, dg);
      ForwardedTally(cfg, d0, dg);
      forall k: nat | k < |d.pipes| ensures d'.pipes[k].rawClosed == d.pipes[k].rawClosed {
        ForwardedOffers(cfg, d0, dg, k);
      }
      HandoffsTally(cfg, d');
      SameHomeless(cfg, d.table, d.pipes, d'.pipes, d.shared[1..]);
      assert Homeless(cfg, d.table, d.pipes, [dg][1..]) == 0;
    }
  }

  lemma {:induction false} SameHomeless(cfg: Config, t: Table, ps: seq<Pipe>, qs: seq<Pipe>, queue: seq<Datagram>)
    requires InRange(t, ps) && |qs| == |ps| && forall k :: 0 <= k < |ps| ==> qs[k].rawClosed == ps[k].rawClosed
    ensures Homeless(cfg, t, qs, queue) == Homeless(cfg, t, ps, queue)
    decreases |queue|
  {
    hide Missing, NameOf;
    if queue != [] {
      SameHomeless(cfg, t, ps, qs, queue[1..]);
    }
  }

  // ---------------------------------------------------------------- dispatch

  /** What the queue holds of a datagram that was let in. */
  function LetIn(cfg: Config, dg: Datagram): Datagram {
    var f := cfg.route(dg.body);
    dg.(body := if f.removed then f.stripped
      else dg.body, project := f.project, token := if cfg.inlineTokens then f.token else [])
  }

  /** The drops that the extraction decides, in this order. */
  function Refusal(cfg: Config, body: bytes): Option<Tally> {
    var f := cfg.route(body);
    if f.malformed then Some(ZERO_TALLY.(parseError := 1))
    else if f.badProject then Some(ZERO_TALLY.(unroutedUnknown := 1))
    else if f.badToken && cfg.inlineTokens then Some(ZERO_TALLY.(badToken := 1))
    else None
  }

  /** A new keyless pipeline, started, under the project's name. */
  function Registered(d: Desk, project: bytes): Desk {
    d.(pipes := d.pipes + [Start(NewPipe(project, [], true))],
      table := d.table.(names := d.table.names[project := |d.pipes|]))
  }

  predicate TableFull(cfg: Config, t: Table) { cfg.maxProjects > 0 && |t.names| >= cfg.maxProjects }

  datatype Resolution = Nowhere(drop: Tally) | Towards(desk: Desk, pipe: PipeId)

  /** The lookup, and the registration on demand when it misses. */
  function Resolved(cfg: Config, d: Desk, dg: Datagram): Resolution {
    match Lookup(d.table, cfg.requireProject, dg.project)
    case Some(p) => Towards(d, p)
    case None =>
      if cfg.inlineTokens && dg.token != [] && dg.project != [] && !TableFull(cfg, d.table)
         then Towards(Registered(d, dg.project), |d.pipes|)
      else Nowhere(if dg.project == [] then ZERO_TALLY.(unroutedMissing := 1) else ZERO_TALLY.(unroutedUnknown := 1))
  }

  datatype Delivery = InQueue | Lost | NoRoom

  /** The checks on the destination, then the shared queue; a full queue is left to the caller to count. */
  function LetThrough(cfg: Config, d: Desk, sharedClosed: bool, dg: Datagram, p: PipeId): (Desk, Delivery)
    requires p < |d.pipes|
  {
    if d.pipes[p].inline && dg.token == [] then
      (Refused(d, p, ZERO_TALLY.(missingToken := 1), NO_STATS.(missingToken := 1)), Lost)
    else if d.pipes[p].rawClosed || sharedClosed then
      (Refused(d, p, ZERO_TALLY.(routingClosed := 1), NO_STATS.(routingClosed := 1)), Lost)
    else if |d.shared| < cfg.queueSize then (d.(shared := d.shared + [dg]), InQueue)
    else (d, NoRoom)
  }

  /** What becomes of a datagram that the extraction lets in. */
  function Placed(cfg: Config, d: Desk, sharedClosed: bool, dg: Datagram): (Desk, Delivery) {
    match Resolved(cfg, d, dg)
    case Nowhere(t) => (d.(tally := Add(d.tally, t)), Lost)
    case Towards(d', p) => if p < |d'.pipes| then LetThrough(cfg, d', sharedClosed, dg, p) else (d', Lost)
  }

  /** `dispatch`. */
  function Dispatched(cfg: Config, d: Desk, sharedClosed: bool, dg: Datagram): (Desk, Delivery) {
    match Refusal(cfg, dg.body)
    case Some(t) => (d.(tally := Add(d.tally, t)), Lost)
    case None => Placed(cfg, d, sharedClosed, LetIn(cfg, dg))
  }

  /** Each drop counter adds one to the total. */
  lemma ParseErrorCounts(t: Tally)
    ensures Total(Add(t, ZERO_TALLY.(parseError := 1))) == Total(t) + 1
  {
  }

  lemma UnknownCounts(t: Tally)
    ensures Total(Add(t, ZERO_TALLY.(unroutedUnknown := 1))) == Total(t) + 1
  {
  }

  lemma MissingCounts(t: Tally)
    ensures Total(Add(t, ZERO_TALLY.(unroutedMissing := 1))) == Total(t) + 1
  {
  }

  lemma BadTokenCounts(t: Tally)
    ensures Total(Add(t, ZERO_TALLY.(badToken := 1))) == Total(t) + 1
  {
  }

  lemma MissingTokenCounts(t: Tally)
    ensures Total(Add(t, ZERO_TALLY.(missingToken := 1))) == Total(t) + 1
  {
  }

  lemma ClosedCounts(t: Tally)
    ensures Total(Add(t, ZERO_TALLY.(routingClosed := 1))) == Total(t) + 1
  {
  }

  lemma FullCounts(t: Tally)
    ensures Total(Add(t, ZERO_TALLY.(queueFull := 1))) == Total(t) + 1
  {
  }

  /** A dispatched datagram is in the queue, stripped and labelled, or raises exactly one process-wide
      counter, or is left to the caller, who finds the queue full; never two of these. */
  lemma DispatchCounts(cfg: Config, d: Desk, sharedClosed: bool, dg: Datagram)
    requires InRange(d.table, d.pipes)
    ensures var (d', how) := Dispatched(cfg, d, sharedClosed, dg);
            && Total(d'.tally) == Total(d.tally) + OneIf(how == Lost)
            && d'.shared == d.shared + (if how == InQueue then [LetIn(cfg, dg)] else [])
            && (how == InQueue ==> !sharedClosed && |d.shared| < cfg.queueSize)
            && (how == NoRoom ==> !sharedClosed && |d.shared| >= cfg.queueSize)
  {
    hide Add, Total, Lookup, LetIn, Registered, Bump, TableFull;
    ParseErrorCounts(d.tally);
    UnknownCounts(d.tally);
    MissingCounts(d.tally);
    BadTokenCounts(d.tally);
    MissingTokenCounts(d.tally);
    ClosedCounts(d.tally);
    RegisteredShape(d, LetIn(cfg, dg).project);
    LookupBelow(d.table, cfg.requireProject, LetIn(cfg, dg).project, |d.pipes|);
  }

  /** It names a project that nobody has, and cannot register it. */
  predicate Unknown(cfg: Config, t: Table, project: bytes, token: bytes) {
    project != [] && project !in t.names && (!cfg.inlineTokens || token == [] || TableFull(cfg, t))
  }

  /** The pipeline behind the name has no key, and the datagram no token. */
  predicate Tokenless(d: Desk, project: bytes, token: bytes) {
    var n := NameOf(project);
    token == [] && n in d.table.names && d.table.names[n] < |d.pipes| && d.pipes[d.table.names[n]].inline
  }

  /** The pipeline behind the name, or the shared queue, is closed. */
  predicate Shut(d: Desk, sharedClosed: bool, project: bytes) {
    var n := NameOf(project);
    sharedClosed || (n in d.table.names && d.table.names[n] < |d.pipes| && d.pipes[d.table.names[n]].rawClosed)
  }

  /** The counters raised by one, each under its condition; the others stay. */
  predicate Raises(t: Tally, t': Tally, parse: bool, bad: bool, missing: bool, unknown: bool, tokenless: bool,
      closed: bool) {
    t' == t.(parseError := t.parseError + OneIf(parse), badToken := t.badToken + OneIf(bad),
             unroutedMissing := t.unroutedMissing + OneIf(missing),
               unroutedUnknown := t.unroutedUnknown + OneIf(unknown),
             missingToken := t.missingToken + OneIf(tokenless), routingClosed := t.routingClosed + OneIf(closed))
  }

  lemma LetThroughReasons(cfg: Config, d: Desk, sharedClosed: bool, dg: Datagram, p: PipeId)
    requires p < |d.pipes|
    ensures var tokenless := d.pipes[p].inline && dg.token == [];
            Raises(d.tally, LetThrough(cfg, d, sharedClosed, dg, p).0.tally, false, false, false, false, tokenless,
                   !tokenless && (sharedClosed || d.pipes[p].rawClosed))
  {
    hide Bump;
  }

  lemma PlacedReasons(cfg: Config, d: Desk, sharedClosed: bool, dg: Datagram)
    requires InRange(d.table, d.pipes)
    ensures var missing := Missing(d.table, cfg.requireProject, dg.project);
            var unknown := Unknown(cfg, d.table, dg.project, dg.token);
            var tokenless := !missing && Tokenless(d, dg.project, dg.token);
            Raises(d.tally, Placed(cfg, d, sharedClosed, dg).0.tally, false, false, missing, unknown, tokenless,
                   !missing && !unknown && !tokenless && Shut(d, sharedClosed, dg.project))
  {
    hide Lookup, LetThrough;
    LookupExact(d.table, cfg.requireProject, dg.project);
    match Resolved(cfg, d, dg)
    case Towards(d', p) =>
      assert p < |d'.pipes|;
      LetThroughReasons(cfg, d', sharedClosed, dg, p);
    case Nowhere(_) =>
  }

  /** Which reason is counted, counter by counter, from the extraction's answer, the names in the table and the
      pipeline behind the name: a datagram without a project is missing one exactly when a project is required
      or no default one is published; a named one that the table has is never unrouted; and so on. */
  lemma DispatchReasons(cfg: Config, d: Desk, sharedClosed: bool, dg: Datagram)
    requires InRange(d.table, d.pipes)
    ensures var f := cfg.route(dg.body);
            var enters := !f.malformed && !f.badProject && !(f.badToken && cfg.inlineTokens);
            var token := if cfg.inlineTokens then f.token else [];
            var missing := Missing(d.table, cfg.requireProject, f.project);
            var unknown := Unknown(cfg, d.table, f.project, token);
            var tokenless := !missing && Tokenless(d, f.project, token);
            Raises(d.tally, Dispatched(cfg, d, sharedClosed, dg).0.tally,
                   f.malformed, !f.malformed && !f.badProject && f.badToken && cfg.inlineTokens, enters && missing,
                   (!f.malformed && f.badProject) || (enters && unknown), enters && tokenless,
                   enters && !missing && !unknown && !tokenless && Shut(d, sharedClosed, f.project))
  {
    PlacedReasons(cfg, d, sharedClosed, LetIn(cfg, dg));
    hide Placed, Missing, Unknown, Tokenless, Shut;
  }

  lemma RegisteredShape(d: Desk, project: bytes)
    ensures var d' := Registered(d, project);
            d'.tally == d.tally && d'.shared == d.shared && |d'.pipes| == |d.pipes| + 1
  {
  }

  /** Dispatch changes the table only for a datagram with a project and a token of its own, when nobody has
      the project and the table has room: it then maps the project to a new keyless pipeline, started once. */
  lemma DispatchRegisters(cfg: Config, d: Desk, sharedClosed: bool, dg: Datagram)
    requires InRange(d.table, d.pipes)
    ensures var (d', how) := Dispatched(cfg, d, sharedClosed, dg); var f := LetIn(cfg, dg);
            if Refusal(cfg, dg.body) == None && cfg.inlineTokens && f.project != [] && f.token != []
               && f.project !in d.table.names && !TableFull(cfg, d.table)
            then && d'.table == d.table.(names := d.table.names[f.project := |d.pipes|]) && |d'.pipes| == |d.pipes| + 1
                 && var p := d'.pipes[|d.pipes|];
                    p.project == f.project && p.key == [] && p.inline && p.starts == 1 && !p.rawClosed
            else d'.table == d.table && |d'.pipes| == |d.pipes|
  {
    hide Add, LetIn, Refusal, AddStats, TableFull;
  }

  /** The guard against events without a credential: what is queued carries a token, or the pipeline that
      its name leads to at that moment has a key of its own. */
  lemma QueuedHasCredential(cfg: Config, d: Desk, sharedClosed: bool, dg: Datagram)
    requires InRange(d.table, d.pipes) && Dispatched(cfg, d, sharedClosed, dg).1 == InQueue
    ensures var d' := Dispatched(cfg, d, sharedClosed, dg).0; var f := LetIn(cfg, dg);
            var n := NameOf(f.project);
            && !Missing(d'.table, cfg.requireProject, f.project) && n in d'.table.names
            && d'.table.names[n] < |d'.pipes| && (f.token != [] || !d'.pipes[d'.table.names[n]].inline)
  {
    hide Add, LetIn, Refusal, AddStats, TableFull;
  }

  // ---------------------------------------------------------------- reload

  /** What a reload leaves: the table stands for exactly the keys; a name keeps its pipeline exactly when its
      key is unchanged; the others have new pipelines, each started once and open; of the old pipelines
      exactly those left behind are closed. */
  ghost predicate Reloads(keys: map<bytes, bytes>, t: Table, ps: seq<Pipe>, t': Table, ps': seq<Pipe>) {
    && InRange(t, ps) && InRange(t', ps') && KeyMap(t', ps') == keys && |ps| <= |ps'|
    && (forall n <- t'.names ::
          n in keys && if Reusable(t, ps, n, keys[n]) then t'.names[n] == t.names[n] else t'.names[n] >= |ps|)
    && (forall k :: |ps| <= k < |ps'| ==>
          k in t'.names.Values && ps'[k].starts == 1 && !ps'[k].rawClosed && !ps'[k].inline)
    && (forall k :: 0 <= k < |ps| ==> ps'[k] == if k in Dropped(t, t') then ps[k].(rawClosed := true) else ps[k])
  }
}
