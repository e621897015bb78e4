/** The registry's methods in the order of the source, run one at a time. Ghost fields record the run of
    the state machine that an execution amounts to, so everything proved of runs holds of the class. */
module Agents {
  import opened Bytes
  import opened Batching
  import F = Flushing
  import opened Registry
  import opened Protocol
  import opened TableLaws
  import opened LedgerLaws
  import opened FlowLaws
  import opened Lifecycle
  import opened Quiescence
  import opened Routing

  lemma NothingPublished()
    ensures OwnNames(EMPTY_TABLE, []) && InRange(EMPTY_TABLE, [])
  {
  }

  lemma InstalledRun(cfg: Config, keys: map<bytes, bytes>, order: seq<bytes>)
    requires KeysOk(cfg, keys) && (!cfg.keysFile ==> forall n <- keys :: n == DEFAULT_PROJECT)
    requires Enumerates(order, FreshNames(keys, EMPTY_TABLE, []))
    ensures SerialRun(cfg, [Installed(keys, order)], [])
    ensures var s := Installed(keys, order); InRange(s.table, s.pipes) && KeyMap(s.table, s.pipes) == keys
  {
    hide BuiltNames, BuiltPipes, FreshNames, Enumerates, KeyMap;
    OrderInKeys(keys, EMPTY_TABLE, [], order);
    ReloadTable(keys, EMPTY_TABLE, [], order);
    assert Init(cfg, Installed(keys, order));
  }

  /** What a readable keys file, with the configured key added, can hold. */
  ghost predicate Admissible(cfg: Config, keys: map<bytes, bytes>) {
    && (forall n <- keys :: n != [] && keys[n] != [])
    && (DEFAULT_PROJECT in keys <==> cfg.apiKey != [])
    && (cfg.apiKey != [] ==> keys[DEFAULT_PROJECT] == cfg.apiKey)
  }

  predicate TooMany(cfg: Config, keys: map<bytes, bytes>) { cfg.maxProjects > 0 && |keys| > cfg.maxProjects }

  lemma AdmissibleFits(cfg: Config, keys: map<bytes, bytes>)
    requires Admissible(cfg, keys) && !TooMany(cfg, keys)
    ensures KeysOk(cfg, keys)
  {
  }

  /** Published inline pipelines that have seen no datagram since the cut-off. */
  function IdleOnes(t: Table, pipes: seq<Pipe>, lastSeen: PipeId -> int, cutoff: int): set<PipeId> {
    set id | id in t.names.Values && id < |pipes| && pipes[id].inline && lastSeen(id) < cutoff
  }

  /** The pipelines after the drains of some have begun. */
  ghost predicate ClosedOnly(ps: seq<Pipe>, qs: seq<Pipe>, ids: set<PipeId>) {
    |qs| == |ps| && forall k :: 0 <= k < |ps| ==> qs[k] == if k in ids then ps[k].(rawClosed := true) else ps[k]
  }

  class Agent {
    const cfg: Config

    var received: nat
    var tally: Tally
    var shared: seq<Datagram>
    var sharedClosed: bool
    var table: Table
    var pipes: seq<Pipe>

    ghost var states: seq<State>
    ghost var steps: seq<Step>

    /** A table for the keys, every pipeline started before it is published. */
    constructor (cfg: Config, keys: map<bytes, bytes>)
      requires KeysOk(cfg, keys) && (!cfg.keysFile ==> forall n <- keys :: n == DEFAULT_PROJECT)
      ensures this.cfg == cfg && Valid() && Installs(keys)
    {
      hide KeyMap, BuiltTable, BuiltPipes, FreshNames, Enumerates, SerialRun, OwnNames, InRange, Reloads;
      NothingPublished();
      var next, grown, order := BuildTable(keys, EMPTY_TABLE, []);
      var started := StartFresh(keys, EMPTY_TABLE, [], order, next, grown);
      InstalledRun(cfg, keys, order);
      InstalledReloads(keys, order);
      this.cfg := cfg;
      received, tally, shared, sharedClosed, table, pipes := 0, ZERO_TALLY, [], false, next, started;
      states, steps := [Installed(keys, order)], [];
    }

    /** Nothing has been received, and the table stands for the keys, with pipelines started once each. */
    ghost predicate Installs(keys: map<bytes, bytes>)
      reads this
    {
      received == 0 && shared == [] && !sharedClosed && Reloads(keys, EMPTY_TABLE, [], table, pipes)
    }

    /** `install`: refused exactly when the keys exceed the project cap. */
    static method Install(cfg: Config, keys: map<bytes, bytes>) returns (r: Option<Agent>)
      requires Admissible(cfg, keys) && (!cfg.keysFile ==> forall n <- keys :: n == DEFAULT_PROJECT)
      ensures r == None <==> TooMany(cfg, keys)
      ensures r.Some? ==> fresh(r.value) && r.value.cfg == cfg && r.value.Valid() && r.value.Installs(keys)
    {
      if TooMany(cfg, keys) {
        return None;
      }
      AdmissibleFits(cfg, keys);
      hide KeysOk, Admissible;
      var agent := new Agent(cfg, keys);
      return Some(agent);
    }

    /** The fields are those of the last state of the recorded run. */
    ghost predicate Mirrors()
      reads this
    {
      && SerialRun(cfg, states, steps) && states != []
      && var s := Last(states);
      && s.received == received && s.tally == tally && s.shared == shared && s.sharedClosed == sharedClosed
      && s.table == table && s.pipes == pipes && !s.panicked
    }

    /** Nothing is under way but the dispatch, the forwarding and the drains given. */
    ghost predicate Busy(dispatching: map<nat, Dispatch>, demux: Demux, due: set<PipeId>)
      reads this
    {
      && Mirrors()
      && var s := Last(states);
      && s.dispatching == dispatching && s.demux == demux && s.inline == Free && s.reload == NoReload
         && s.due == multiset(due)
      && s.shut == if demux == Exited then Draining else if sharedClosed then QueueClosed else Running
    }

    /** No method is under way. */
    ghost predicate Valid()
      reads this
    {
      Busy(map[], Waiting, {})
    }

    /** The recorded run goes on from an earlier one. */
    ghost predicate Since(earlier: seq<State>, taken: seq<Step>)
      reads this
    {
      earlier <= states && taken <= steps
    }

    function Here(): Desk
      reads this
    {
      Desk(tally, shared, table, pipes)
    }

    /** Records one step of the run. */
    ghost method Take(st: Step)
      requires SerialRun(cfg, states, steps) && states != [] && Enabled(cfg, Last(states), st)
               && Serial(Last(states), st)
      modifies this`states, this`steps
      ensures SerialRun(cfg, states, steps) && states != [] && steps == old(steps) + [st]
      ensures Last(states) == Apply(cfg, old(Last(states)), st) && Since(old(states), old(steps))
    {
      hide Apply, Enabled, SerialRun, Serial;
      SerialMore(cfg, states, steps, st);
      states, steps := states + [Apply(cfg, Last(states), st)], steps + [st];
    }

    /** What the table leads to exists. */
    lemma Routable(project: bytes)
      requires Mirrors()
      ensures OwnNames(table, pipes)
      ensures var r := Lookup(table, cfg.requireProject, project); r.Some? ==> r.value < |pipes|
    {
      hide Run, TablesInv, SerialRun;
      RunSize(cfg, states, steps);
      TablesAlways(cfg, states, steps, |states| - 1);
      OwnTable(cfg, Last(states));
    }

    /** Hands a datagram to a pipeline without blocking; at most one answer is true. */
    method TrySend(id: PipeId, dg: Datagram) returns (delivered: bool, closed: bool, queueFull: bool)
      requires id < |pipes|
      modifies this`pipes
      ensures closed == old(pipes)[id].rawClosed && queueFull == (!closed && |old(pipes)[id].raw| >= HANDOFF_DEPTH)
      ensures delivered == (!closed && !queueFull)
      ensures pipes == if delivered then old(pipes)[id := old(pipes)[id].(raw := old(pipes)[id].raw + [dg])]
              else old(pipes)
    {
      if pipes[id].rawClosed {
        return false, true, false;
      }
      if |pipes[id].raw| < HANDOFF_DEPTH {
        pipes := pipes[id := pipes[id].(raw := pipes[id].raw + [dg])];
        return true, false, false;
      }
      return false, false, true;
    }

    /** A pipeline's own counters. */
    method Count(id: PipeId, st: Stats)
      requires id < |pipes|
      modifies this`pipes
      ensures pipes == old(pipes)[id := Bump(old(pipes)[id], st)]
    {
      pipes := pipes[id := pipes[id].(stats := AddStats(pipes[id].stats, st))];
    }

    // -------------------------------------------------------------- the demuxer

    /** Forwards everything in the shared queue. */
    method Demux()
      requires Valid()
      modifies this`shared, this`pipes, this`tally, this`states, this`steps
      ensures Valid() && Since(old(states), old(steps)) && Here() == ForwardedAll(cfg, old(Here()))
    {
      hide Busy, Forwarded;
      while shared != []
        invariant Valid() && Since(old(states), old(steps))
                  && ForwardedAll(cfg, Here()) == ForwardedAll(cfg, old(Here()))
        decreases |shared|
      {
        DemuxOne();
      }
    }

    method DemuxOne()
      requires Valid() && shared != []
      modifies this`shared, this`pipes, this`tally, this`states, this`steps
      ensures Valid() && Since(old(states), old(steps))
      ensures Here() == Forwarded(cfg, old(Here()).(shared := old(shared)[1..]), old(shared)[0])
    {
      hide SerialRun, KeyMap, KeysOk, PipeEnabled, Forwarded;
      var dg := shared[0];
      shared := shared[1..];
      Take(DemuxTake);
      hide Apply, Enabled;
      Route(dg);
    }

    /** Looks the datagram's project up once more. */
    method Route(dg: Datagram)
      requires Busy(map[], Taken(dg), {})
      modifies this`pipes, this`tally, this`states, this`steps
      ensures Valid() && Since(old(states), old(steps)) && Here() == Forwarded(cfg, old(Here()), dg)
    {
      hide Add, SerialRun, Lookup, KeyMap, KeysOk, PipeEnabled, Handed;
      var p := Lookup(table, cfg.requireProject, dg.project);
      Routable(dg.project);
      Take(DemuxLookup);
      if p.None? {
        tally := Add(tally, ZERO_TALLY.(routingClosed := 1));
        return;
      }
      hide Apply, Enabled;
      Forward(p.value, dg);
    }

    /** The handoff and its accounting. */
    method Forward(id: PipeId, dg: Datagram)
      requires Busy(map[], Holding(dg, id), {}) && id < |pipes|
      modifies this`pipes, this`tally, this`states, this`steps
      ensures Valid() && Since(old(states), old(steps)) && Here() == Handed(old(Here()), id, dg)
    {
      hide AddStats, Add, SerialRun, KeyMap, KeysOk, PipeEnabled, Lookup;
      Take(DemuxSend);
      var delivered, closed, full := TrySend(id, dg);
      if closed {
        Count(id, NO_STATS.(routingClosed := 1));
        tally := Add(tally, ZERO_TALLY.(routingClosed := 1));
      } else if full {
        Count(id, NO_STATS.(queueFull := 1));
      }
    }

    // -------------------------------------------------------------- dispatch

    /** The listener's turn for one datagram: it is queued, or exactly one process-wide drop is counted. */
    method Receive(raw: bytes, at: int) returns (delivered: bool)
      requires Valid() && |raw| <= cfg.maxEventBytes + 1
      modifies this`received, this`tally, this`shared, this`table, this`pipes, this`states, this`steps
      ensures Valid() && Since(old(states), old(steps)) && received == old(received) + 1
      ensures var (d, how) := Dispatched(cfg, old(Here()), sharedClosed, Datagram(old(received), raw, at, raw, [], []));
              && delivered == (how == InQueue)
              && Here() == if how == NoRoom then d.(tally := Add(d.tally, ZERO_TALLY.(queueFull := 1))) else d
      ensures Total(tally) == old(Total(tally)) + if delivered then 0 else 1
    {
      hide Add, SerialRun, Total, KeyMap, KeysOk, PipeEnabled, Lookup, Dispatched;
      var dg := Datagram(received, raw, at, raw, [], []);
      Routable([]);
      OwnInRange();
      DispatchCounts(cfg, Here(), sharedClosed, dg);
      received := received + 1;
      Take(Deliver(raw, at));
      var queueFull;
      ghost var d;
      delivered, queueFull, d := DispatchDatagram(dg);
      if queueFull {
        hide Apply, Enabled;
        FullCounts(tally);
        Overflow(dg.id, d);
      }
    }

    /** The listener counts a datagram that the shared queue had no room for. */
    method Overflow(id: nat, ghost d: Dispatch)
      requires Stuck(id, d)
      modifies this`tally, this`states, this`steps
      ensures Valid() && Since(old(states), old(steps)) && tally == Add(old(tally), ZERO_TALLY.(queueFull := 1))
    {
      hide Add, SerialRun, KeyMap, KeysOk, PipeEnabled, Lookup, AddStats;
      tally := Add(tally, ZERO_TALLY.(queueFull := 1));
      assert map[id := d] - {id} == map[];
      Take(Enqueue(id));
    }

    /** `dispatch`. A full queue is left to the caller to count. */
    method DispatchDatagram(dg: Datagram) returns (delivered: bool, queueFull: bool, ghost d: Dispatch)
      requires Busy(map[dg.id := Dispatch(dg, Arrived)], Waiting, {})
      modifies this`tally, this`shared, this`table, this`pipes, this`states, this`steps
      ensures Since(old(states), old(steps)) && if queueFull then Stuck(dg.id, d) else Valid()
      ensures var (desk, how) := Dispatched(cfg, old(Here()), sharedClosed, dg);
              Here() == desk && delivered == (how == InQueue) && queueFull == (how == NoRoom)
    {
      hide Add, SerialRun, KeyMap, KeysOk, PipeEnabled, Lookup, Placed;
      d := Dispatch(dg, Arrived);
      assert map[dg.id := d] - {dg.id} == map[];
      var f := cfg.route(dg.body);
      if f.malformed {
        tally := Add(tally, ZERO_TALLY.(parseError := 1));
        Take(RouteOne(dg.id));
        return false, false, d;
      }
      if f.badProject {
        tally := Add(tally, ZERO_TALLY.(unroutedUnknown := 1));
        Take(RouteOne(dg.id));
        return false, false, d;
      }
      if f.badToken && cfg.inlineTokens {
        tally := Add(tally, ZERO_TALLY.(badToken := 1));
        Take(RouteOne(dg.id));
        return false, false, d;
      }
      var routed := dg.(body := if f.removed then f.stripped else dg.body, project := f.project,
                        token := if cfg.inlineTokens then f.token else []);
      Take(RouteOne(dg.id));
      assert map[dg.id := d][dg.id := Dispatch(routed, Routed)] == map[dg.id := Dispatch(routed, Routed)];
      hide Apply, Enabled;
      var how;
      how, d := Place(routed);
      return how == InQueue, how == NoRoom, d;
    }

    /** The destination, and the way to the shared queue. */
    method Place(dg: Datagram) returns (how: Delivery, ghost d: Dispatch)
      requires Busy(map[dg.id := Dispatch(dg, Routed)], Waiting, {})
      modifies this`tally, this`shared, this`table, this`pipes, this`states, this`steps
      ensures Since(old(states), old(steps)) && (Here(), how) == Placed(cfg, old(Here()), sharedClosed, dg)
      ensures if how == NoRoom then Stuck(dg.id, d) else Valid()
    {
      hide Add, Busy, Resolved, LetThrough;
      d := Dispatch(dg, Routed);
      var p := Resolve(dg);
      if p.None? {
        return Lost, d;
      }
      d := Dispatch(dg, Admitted(p.value));
      how := Admit(dg, p.value);
    }

    /** The datagram is let in, but the shared queue has no room. */
    ghost predicate Stuck(id: nat, d: Dispatch)
      reads this
    {
      Busy(map[id := d], Waiting, {}) && d.phase.Admitted? && d.phase.pipe < |pipes| && !sharedClosed
        && |shared| >= cfg.queueSize
    }

    /** The lookup, and the registration on demand when it misses. */
    method Resolve(dg: Datagram) returns (p: Option<PipeId>)
      requires Busy(map[dg.id := Dispatch(dg, Routed)], Waiting, {})
      modifies this`tally, this`table, this`pipes, this`states, this`steps
      ensures Since(old(states), old(steps))
      ensures match Resolved(cfg, old(Here()), dg)
              case Towards(d, id) =>
                p == Some(id) && id < |pipes| && Here() == d && Busy(map[dg.id := Dispatch(dg, Found(id))], Waiting, {})
              case Nowhere(t) => p == None && Here() == old(Here()).(tally := Add(old(tally), t)) && Valid()
    {
      hide Add, SerialRun, Lookup, Registered, Resolved, TableFull;
      ResolvedIs(cfg, Here(), dg);
      RegisteredShape(Here(), dg.project);
      p := Lookup(table, cfg.requireProject, dg.project);
      Routable(dg.project);
      if p.Some? {
        Moves(dg, Routed, Found(p.value));
        Take(LookUp(dg.id));
        return;
      }
      if cfg.inlineTokens && dg.token != [] && dg.project != [] {
        Moves(dg, Routed, WantsInline);
        Take(LookUp(dg.id));
        hide Apply, Enabled;
        p := ResolveInline(dg);
        return;
      }
      Moves(dg, Routed, Routed);
      tally := Add(tally, if dg.project == [] then ZERO_TALLY.(unroutedMissing := 1)
        else ZERO_TALLY.(unroutedUnknown := 1));
      Take(LookUp(dg.id));
    }

    method ResolveInline(dg: Datagram) returns (p: Option<PipeId>)
      requires Busy(map[dg.id := Dispatch(dg, WantsInline)], Waiting, {}) && dg.project != []
      requires Lookup(table, cfg.requireProject, dg.project) == None
      modifies this`tally, this`table, this`pipes, this`states, this`steps
      ensures Since(old(states), old(steps))
      ensures if TableFull(cfg, old(table))
              then p == None && Here() == old(Here()).(tally := Add(old(tally), ZERO_TALLY.(unroutedUnknown := 1)))
                && Valid()
              else && p == Some(old(|pipes|)) && Here() == Registered(old(Here()), dg.project)
                   && Busy(map[dg.id := Dispatch(dg, Found(old(|pipes|)))], Waiting, {})
    {
      hide Add, SerialRun, Lookup, Registered;
      p := RegisterInline(dg);
      if p.None? {
        Moves(dg, WantsInline, Routed);
        tally := Add(tally, ZERO_TALLY.(unroutedUnknown := 1));
        Take(RegisterLoad);
      }
    }

    /** Creates and publishes a pipeline for the datagram's project, unless the table is full. */
    method RegisterInline(dg: Datagram) returns (p: Option<PipeId>)
      requires Busy(map[dg.id := Dispatch(dg, WantsInline)], Waiting, {})
               && Lookup(table, cfg.requireProject, dg.project) == None
      modifies this`table, this`pipes, this`states, this`steps
      ensures Since(old(states), old(steps))
      ensures if TableFull(cfg, old(table)) then p == None && Here() == old(Here()) && Locked(dg)
              else && p == Some(old(|pipes|)) && Here() == Registered(old(Here()), dg.project)
                   && Busy(map[dg.id := Dispatch(dg, Found(old(|pipes|)))], Waiting, {})
    {
      hide SerialRun, Lookup, Registered;
      Take(RegisterLock(dg.id));
      if cfg.maxProjects > 0 && |table.names| >= cfg.maxProjects {
        return None;
      }
      hide Apply, Enabled;
      var id := Publish(dg);
      return Some(id);
    }

    method Publish(dg: Datagram) returns (id: PipeId)
      requires Locked(dg) && !TableFull(cfg, table)
      modifies this`table, this`pipes, this`states, this`steps
      ensures Since(old(states), old(steps)) && id == old(|pipes|) && Here() == Registered(old(Here()), dg.project)
      ensures Busy(map[dg.id := Dispatch(dg, Found(id))], Waiting, {})
    {
      hide SerialRun, NewPipe, KeyMap, KeysOk, PipeEnabled, Lookup, InRange, InlinePipes, Unrouted;
      Take(RegisterLoad);
      pipes := pipes + [Start(NewPipe(dg.project, [], true))];
      id := |pipes| - 1;
      Take(RegisterMake);
      hide Apply, Enabled;
      StoreRegistered(dg, id);
    }

    method StoreRegistered(dg: Datagram, id: PipeId)
      requires states != [] && Writing(map[dg.id := Dispatch(dg, WantsInline)],
               PipeMade(dg.id, table, id, Last(states).version))
      modifies this`table, this`states, this`steps
      ensures Since(old(states), old(steps)) && table == old(table).(names := old(table).names[dg.project := id])
      ensures Busy(map[dg.id := Dispatch(dg, Found(id))], Waiting, {})
    {
      hide SerialRun, KeyMap, KeysOk, PipeEnabled, Lookup, InRange, InlinePipes;
      table := table.(names := table.names[dg.project := id]);
      Moves(dg, WantsInline, Found(id));
      Take(RegisterStore);
    }

    /** The inline lock is held, for a registration or an expiry. */
    ghost predicate Writing(dispatching: map<nat, Dispatch>, w: Inline)
      reads this
    {
      && Mirrors()
      && var s := Last(states);
      && s.dispatching == dispatching && s.demux == Waiting && s.inline == w && s.reload == NoReload
         && s.due == multiset{}
      && s.shut == if sharedClosed then QueueClosed else Running
    }

    /** A registration holds the lock and has looked the project up again. */
    ghost predicate Locked(dg: Datagram)
      reads this
    {
      states != [] && Writing(map[dg.id := Dispatch(dg, WantsInline)], LookupMissed(dg.id, Last(states).version))
    }

    /** The checks on the destination, then the shared queue. */
    method Admit(dg: Datagram, p: PipeId) returns (how: Delivery)
      requires Busy(map[dg.id := Dispatch(dg, Found(p))], Waiting, {}) && p < |pipes|
      modifies this`tally, this`shared, this`pipes, this`states, this`steps
      ensures Since(old(states), old(steps)) && (Here(), how) == LetThrough(cfg, old(Here()), sharedClosed, dg, p)
      ensures if how == NoRoom then Stuck(dg.id, Dispatch(dg, Admitted(p))) else Valid()
    {
      hide Add, SerialRun, AddStats, KeyMap, KeysOk, PipeEnabled, Lookup;
      Moves(dg, Found(p), Admitted(p));
      if pipes[p].inline && dg.token == [] {
        Count(p, NO_STATS.(missingToken := 1));
        tally := Add(tally, ZERO_TALLY.(missingToken := 1));
        Take(Step.Admit(dg.id));
        return Lost;
      }
      if pipes[p].rawClosed {
        Count(p, NO_STATS.(routingClosed := 1));
        tally := Add(tally, ZERO_TALLY.(routingClosed := 1));
        Take(Step.Admit(dg.id));
        return Lost;
      }
      Take(Step.Admit(dg.id));
      hide Apply, Enabled;
      how := Queue(dg, p);
    }

    /** The shared queue, unless it is closed or full. */
    method Queue(dg: Datagram, p: PipeId) returns (how: Delivery)
      requires Busy(map[dg.id := Dispatch(dg, Admitted(p))], Waiting, {}) && p < |pipes|
      modifies this`tally, this`shared, this`pipes, this`states, this`steps
      ensures Since(old(states), old(steps))
      ensures (Here(), how) ==
              if sharedClosed then (Refused(old(Here()), p, ZERO_TALLY.(routingClosed := 1),
                 NO_STATS.(routingClosed := 1)), Lost)
              else if old(|shared|) < cfg.queueSize then (old(Here()).(shared := old(shared) + [dg]), InQueue)
              else (old(Here()), NoRoom)
      ensures if how == NoRoom then Stuck(dg.id, Dispatch(dg, Admitted(p))) else Valid()
    {
      hide Add, SerialRun, AddStats, KeyMap, KeysOk, PipeEnabled, Lookup;
      Moves(dg, Admitted(p), Admitted(p));
      if sharedClosed {
        Count(p, NO_STATS.(routingClosed := 1));
        tally := Add(tally, ZERO_TALLY.(routingClosed := 1));
        Take(Enqueue(dg.id));
        return Lost;
      }
      if |shared| < cfg.queueSize {
        shared := shared + [dg];
        Take(Enqueue(dg.id));
        return InQueue;
      }
      return NoRoom;
    }

    // -------------------------------------------------------------- the table's other writers

    /** Closes a pipeline's queue. */
    method Drain(id: PipeId, ghost demux: Demux, ghost due: set<PipeId>)
      requires Busy(map[], demux, due) && id in due
      modifies this`pipes, this`states, this`steps
      ensures Busy(map[], demux, due - {id}) && Since(old(states), old(steps)) && |pipes| == old(|pipes|)
      ensures id < |pipes| && !old(pipes)[id].rawClosed && pipes == old(pipes)[id := old(pipes)[id].(rawClosed := true)]
    {
      hide SerialRun;
      DueIsOpen(id, demux, due);
      Take(DrainBegin(id));
      pipes := pipes[id := pipes[id].(rawClosed := true)];
      assert multiset(due) - multiset{id} == multiset(due - {id});
    }

    lemma DueIsOpen(id: PipeId, demux: Demux, due: set<PipeId>)
      requires Busy(map[], demux, due) && id in due
      ensures id < |pipes| && !pipes[id].rawClosed
    {
      hide Run, SerialRun;
      RunSize(cfg, states, steps);
      LifeAlways(cfg, states, steps, |states| - 1);
      hide InlineCurrent, ReloadCurrent, Targets, Phases, StandingAt;
      assert Last(states).due[id] > 0;
      DrainsOnce(Last(states), id);
    }

    /** Drains every pipeline that a store has left behind, in any order. */
    method DrainAll(ids: set<PipeId>, ghost demux: Demux)
      requires Busy(map[], demux, ids)
      modifies this`pipes, this`states, this`steps
      ensures Busy(map[], demux, {}) && Since(old(states), old(steps)) && ClosedOnly(old(pipes), pipes, ids)
    {
      hide Busy;
      var todo := ids;
      while todo != {}
        invariant Busy(map[], demux, todo) && Since(old(states), old(steps)) && todo <= ids
        invariant ClosedOnly(old(pipes), pipes, ids - todo)
        decreases |todo|
      {
        var id :| id in todo;
        Drain(id, demux, todo);
        todo := todo - {id};
      }
      assert ids - todo == ids;
    }

    /** A poll of the keys file: refused without one or above the project cap, and else the table stands
        for exactly the keys read. */
    method Reload(keys: map<bytes, bytes>) returns (ok: bool)
      requires Valid() && Admissible(cfg, keys)
      modifies this`table, this`pipes, this`states, this`steps
      ensures Valid() && Since(old(states), old(steps)) && ok == (cfg.keysFile && !TooMany(cfg, keys))
      ensures if ok then Reloads(keys, old(table), old(pipes), table, pipes)
              else table == old(table) && pipes == old(pipes)
    {
      hide Busy, KeysOk, Admissible, Reloads;
      if !cfg.keysFile || TooMany(cfg, keys) {
        return false;
      }
      AdmissibleFits(cfg, keys);
      Poll(keys);
      return true;
    }

    method Poll(keys: map<bytes, bytes>)
      requires Valid() && cfg.keysFile && KeysOk(cfg, keys)
      modifies this`table, this`pipes, this`states, this`steps
      ensures Valid() && Since(old(states), old(steps)) && Reloads(keys, old(table), old(pipes), table, pipes)
    {
      hide SerialRun, KeyMap, OwnNames, KeysOk, Reloads, PipeEnabled, Lookup;
      Routable([]);
      OwnInRange();
      Take(ReloadRead(keys));
      var same := KeysUnchanged(table, pipes, keys);
      Take(ReloadLoad);
      if same {
        UnchangedReloads(keys, table, pipes);
        return;
      }
      hide Apply, Enabled;
      Swap(keys);
    }

    lemma OwnInRange()
      requires OwnNames(table, pipes)
      ensures InRange(table, pipes)
    {
    }

    /** The poll has loaded the table and found other keys in the file. */
    ghost predicate Polled(keys: map<bytes, bytes>)
      reads this
    {
      && Mirrors()
      && var s := Last(states);
      && s.dispatching == map[] && s.demux == Waiting && s.inline == Free
         && s.reload == TableLoaded(keys, table, s.version)
      && s.due == multiset{} && s.shut == if sharedClosed then QueueClosed else Running
    }

    method Swap(keys: map<bytes, bytes>)
      requires Polled(keys) && OwnNames(table, pipes)
      modifies this`table, this`pipes, this`states, this`steps
      ensures Valid() && Since(old(states), old(steps)) && Reloads(keys, old(table), old(pipes), table, pipes)
    {
      hide SerialRun, Enumerates, FreshNames, BuiltTable, BuiltPipes, KeyMap, KeysOk, PipeEnabled, Lookup, Dropped,
        Reloads, ClosedOnly, OwnNames;
      OwnInRange();
      var prev := table;
      var next, grown, order := BuildTable(keys, prev, pipes);
      var started := StartFresh(keys, prev, pipes, order, next, grown);
      OrderInKeys(keys, prev, pipes, order);
      pipes := started;
      Take(ReloadBuild(order));
      table := next;
      Take(ReloadStore);
      assert multiset{} + multiset(Dropped(prev, next)) == multiset(Dropped(prev, next));
      hide Apply, Enabled;
      DrainAll(Dropped(prev, next), Waiting);
      BuiltReloads(keys, prev, old(pipes), order, pipes);
    }

    /** Retires the inline pipelines that have been idle for longer than the configured time: their names leave
        the table and their queues are closed; every other name keeps its pipeline, and every other pipeline
        stays as it is. */
    method ExpireInline(lastSeen: PipeId -> int, now: int) returns (retired: nat)
      requires Valid() && cfg.inlineTokens
      modifies this`table, this`pipes, this`states, this`steps
      ensures Valid() && Since(old(states), old(steps)) && |pipes| == old(|pipes|) && InRange(old(table), old(pipes))
      ensures forall n <- old(table.names) :: var id := old(table.names)[n];
                n !in table.names <==>
                cfg.inlineIdle > 0 && old(pipes)[id].inline && now - lastSeen(id) > cfg.inlineIdle
      ensures forall n <- table.names :: n in old(table.names) && table.names[n] == old(table.names)[n]
      ensures forall id :: 0 <= id < |pipes| ==>
                var idle := cfg.inlineIdle > 0 && old(pipes)[id].inline && now - lastSeen(id) > cfg.inlineIdle;
                pipes[id] ==
                if id in old(table.names.Values) && idle then old(pipes)[id].(rawClosed := true) else old(pipes)[id]
      ensures table.hasDefault == old(table.hasDefault)
      ensures retired == |old(table.names)| - |table.names|
    {
      hide Busy, Without, ClosedOnly, IdleOnes, OwnNames, InRange;
      WellPublished();
      if cfg.inlineIdle == 0 {
        return 0;
      }
      retired := Expire(lastSeen, now - cfg.inlineIdle);
      ExpiredExactly(old(table), old(pipes), lastSeen, now - cfg.inlineIdle, pipes);
    }

    lemma WellPublished()
      requires Valid()
      ensures OwnNames(table, pipes) && InRange(table, pipes)
    {
      hide OwnNames, SerialRun;
      Routable([]);
      OwnInRange();
    }

    method Expire(lastSeen: PipeId -> int, cutoff: int) returns (retired: nat)
      requires Valid() && cfg.inlineTokens && cfg.inlineIdle > 0
      modifies this`table, this`pipes, this`states, this`steps
      ensures Valid() && Since(old(states), old(steps))
      ensures var idle := IdleOnes(old(table), old(pipes), lastSeen, cutoff);
              retired == |idle| && table == Without(old(table), idle) && ClosedOnly(old(pipes), pipes, idle)
    {
      hide SerialRun, Without, KeyMap, KeysOk, PipeEnabled, Lookup, InRange, ClosedOnly, IdleOnes, InlinePipes;
      Take(ExpireLoad);
      var idle := FindIdle(lastSeen, cutoff);
      if |idle| == 0 {
        NothingLost(table, pipes);
        assert idle == {};
        Take(ExpireQuit);
        return 0;
      }
      hide Apply, Enabled;
      Retire(idle);
      return |idle|;
    }

    /** The loop over the table that picks the idle ones. */
    method FindIdle(lastSeen: PipeId -> int, cutoff: int) returns (idle: set<PipeId>)
      ensures idle == IdleOnes(table, pipes, lastSeen, cutoff) && InlinePipes(table, pipes, idle)
    {
      idle := {};
      var todo := table.names.Keys;
      while todo != {}
        invariant todo <= table.names.Keys
        invariant forall id :: id in idle <==>
                    (exists n <- table.names.Keys - todo :: table.names[n] == id)
                    && id < |pipes| && pipes[id].inline && lastSeen(id) < cutoff
        decreases |todo|
      {
        var n :| n in todo;
        todo := todo - {n};
        var id := table.names[n];
        if id < |pipes| && pipes[id].inline && lastSeen(id) < cutoff {
          idle := idle + {id};
        }
      }
    }

    method Retire(idle: set<PipeId>)
      requires states != [] && Writing(map[], Expiring(table, Last(states).version)) && idle != {}
               && InlinePipes(table, pipes, idle)
      modifies this`table, this`pipes, this`states, this`steps
      ensures Valid() && Since(old(states), old(steps)) && table == Without(old(table), idle)
              && ClosedOnly(old(pipes), pipes, idle)
    {
      hide SerialRun, Without, KeyMap, KeysOk, PipeEnabled, Lookup, InRange, InlinePipes, ClosedOnly;
      table := Without(table, idle);
      Take(ExpireStore(idle));
      assert multiset{} + multiset(idle) == multiset(idle);
      hide Apply, Enabled;
      DrainAll(idle, Waiting);
    }

    // -------------------------------------------------------------- shutdown

    /** Closes the shared queue, once. */
    method CloseShared()
      requires Valid()
      modifies this`sharedClosed, this`states, this`steps
      ensures Valid() && Since(old(states), old(steps)) && sharedClosed
    {
      hide SerialRun;
      if !sharedClosed {
        sharedClosed := true;
        Take(Step.CloseShared);
      }
    }

    /** The queue is closed and worked off, every published pipeline is closed, and all drains are waited
        for. The schedule says which pipelines take which steps meanwhile: what the gateway replies, whether
        the grace period runs out. Then nothing is held anywhere, and everything received has been counted. */
    method Shutdown(schedule: nat -> (PipeId, PipeStep), stamp: bytes)
      requires Valid() && cfg.Valid() && cfg.clock(stamp)
      modifies this`tally, this`shared, this`sharedClosed, this`pipes, this`states, this`steps
      ensures Since(old(states), old(steps)) && Over() && sharedClosed && shared == [] && table == old(table)
      ensures forall n <- table.names :: table.names[n] < |pipes| && pipes[table.names[n]].flushDone
      ensures NothingHeld(pipes) && received == Total(tally) + Overflowed(pipes)
    {
      hide SerialRun, OwnNames, ClosedOnly, NothingHeld, Total, Overflowed;
      CloseShared();
      Demux();
      BeginDrains();
      hide Busy;
      AwaitDrains(schedule, stamp);
      AllOver();
    }

    /** Shutdown has returned. */
    ghost predicate Over()
      reads this
    {
      && Mirrors()
      && var s := Last(states);
      s.dispatching == map[] && s.shut == Finished && s.inline == Free && s.reload == NoReload
    }

    /** The demuxer has gone; the published pipelines are closed. */
    method BeginDrains()
      requires Valid() && sharedClosed && shared == []
      modifies this`pipes, this`states, this`steps
      ensures Busy(map[], Exited, {}) && Since(old(states), old(steps))
              && ClosedOnly(old(pipes), pipes, table.names.Values)
    {
      hide SerialRun, ClosedOnly;
      Take(DemuxExit);
      Take(ShutdownLoad);
      assert multiset{} + multiset(table.names.Values) == multiset(table.names.Values);
      hide Apply, Enabled;
      DrainAll(table.names.Values, Exited);
    }

    /** What has to hold of the pipelines for their goroutines to go on. */
    lemma Unfinished(id: PipeId)
      requires Busy(map[], Exited, {}) && id < |pipes|
      ensures FlowInv(cfg, Last(states)) && PipeOk(cfg, pipes[id])
    {
      hide Run, SerialRun, PipeOk;
      RunSize(cfg, states, steps);
      FlowAlways(cfg, states, steps, |states| - 1);
      FlowPipe(cfg, Last(states), id);
    }

    /** Waits until every closed pipeline has finished; where the schedule has no possible step, the
        pipeline waited for takes its next one. */
    method AwaitDrains(schedule: nat -> (PipeId, PipeStep), stamp: bytes)
      requires Busy(map[], Exited, {}) && cfg.Valid() && cfg.clock(stamp)
      modifies this`tally, this`pipes, this`states, this`steps
      ensures Over() && Since(old(states), old(steps))
    {
      hide SerialRun, WorkLeft, PipeEnabled, FlowInv, NextOf;
      var turn, at := 0, 0;
      while at < |pipes|
        invariant Busy(map[], Exited, {}) && Since(old(states), old(steps)) && at <= |pipes|
        invariant forall k :: 0 <= k < at ==> pipes[k].rawClosed ==> pipes[k].flushDone
        decreases WorkLeft(cfg, Last(states)), |pipes| - at
      {
        var (id, pst) := schedule(turn);
        if id < |pipes| && PipeEnabled(cfg, pipes[id], pst) {
          Advance(id, pst);
          turn := turn + 1;
        } else if pipes[at].rawClosed && !pipes[at].flushDone {
          Unfinished(at);
          NeverStuck(cfg, pipes[at], stamp, F.Delivered);
          Advance(at, NextOf(pipes[at], stamp, F.Delivered));
          turn := turn + 1;
        } else {
          at := at + 1;
        }
      }
      Take(ShutdownDone);
    }

    /** One step of a pipeline's goroutines. */
    method Advance(id: PipeId, pst: PipeStep)
      requires Busy(map[], Exited, {}) && id < |pipes| && PipeEnabled(cfg, pipes[id], pst)
      modifies this`tally, this`pipes, this`states, this`steps
      ensures Busy(map[], Exited, {}) && Since(old(states), old(steps))
      ensures WorkLeft(cfg, Last(states)) < old(WorkLeft(cfg, Last(states)))
      ensures |pipes| == old(|pipes|) && pipes == old(pipes)[id := pipes[id]]
      ensures pipes[id].rawClosed == old(pipes)[id].rawClosed
      ensures old(pipes)[id].flushDone ==> pipes[id].flushDone
    {
      hide SerialRun, WorkLeft, PipeEnabled, FlowInv, PipeEffect, PipeOk, Add, AddStats;
      Unfinished(id);
      var e := PipeEffect(cfg, pipes[id], pst);
      EffectClosed(cfg, pipes[id], pst);
      if pipes[id].flushDone {
        FlushStays(cfg, pipes[id], pst);
      }
      OnPipeSheds(cfg, Last(states), id, pst);
      OnPipeCalm(cfg, Last(states), id, pst);
      Take(OnPipe(id, pst));
      pipes := pipes[id := Bump(e.pipe, e.booked)];
      tally := Add(tally, e.tally);
    }

    /** What the end of the recorded run means for the fields. */
    lemma AllOver()
      requires Over()
      ensures NothingHeld(pipes) && sharedClosed && shared == [] && received == Total(tally) + Overflowed(pipes)
      ensures forall n <- table.names :: table.names[n] < |pipes| && pipes[table.names[n]].flushDone
    {
      hide Run, SerialRun, NothingHeld, Total, Overflowed, LifeInv, OwnNames;
      RunSize(cfg, states, steps);
      Routable([]);
      OwnInRange();
      ShutdownQuiescent(cfg, states, steps, |states| - 1);
      LifeAlways(cfg, states, steps, |states| - 1);
      FinishedClosed(Last(states));
      assert Unborn(Last(states)) == {};
    }

    /** The only datagram in dispatch moves on, or leaves. */
    lemma Moves(dg: Datagram, from: Phase, to: Phase)
      ensures var m: map<nat, Dispatch> := map[dg.id := Dispatch(dg, from)];
              m[dg.id := Dispatch(dg, to)] == map[dg.id := Dispatch(dg, to)] && m - {dg.id} == map[]
    {
    }
  }

  lemma ResolvedIs(cfg: Config, d: Desk, dg: Datagram)
    ensures var p := Lookup(d.table, cfg.requireProject, dg.project);
            Resolved(cfg, d, dg) ==
            if p.Some? then Towards(d, p.value)
            else if cfg.inlineTokens && dg.token != [] && dg.project != [] then
              if TableFull(cfg, d.table) then Nowhere(ZERO_TALLY.(unroutedUnknown := 1))
              else Towards(Registered(d, dg.project), |d.pipes|)
            else Nowhere(if dg.project == [] then ZERO_TALLY.(unroutedMissing := 1)
              else ZERO_TALLY.(unroutedUnknown := 1))
  {
    hide Lookup, Registered, TableFull;
  }

  lemma FinishedClosed(s: State)
    requires LifeInv(s) && s.shut == Finished
    ensures s.sharedClosed
  {
    hide Births, InlineCurrent, ReloadCurrent, Targets;
  }

  lemma FlowPipe(cfg: Config, s: State, id: PipeId)
    requires FlowInv(cfg, s) && id < |s.pipes|
    ensures PipeOk(cfg, s.pipes[id])
  {
    hide PipeOk;
  }

  /** A pipeline's step does not panic. */
  lemma OnPipeCalm(cfg: Config, s: State, pipe: PipeId, pst: PipeStep)
    requires FlowInv(cfg, s) && Enabled(cfg, s, OnPipe(pipe, pst))
    ensures !PipeEffect(cfg, s.pipes[pipe], pst).panic
  {
    hide PipeEffect, PipeEnabled, PipeOk, Queues, OpenBatch, Closing;
    FlowPipe(cfg, s, pipe);
    hide FlowInv;
    PipeCalm(cfg, s.pipes[pipe], pst);
  }

  lemma PipeCalm(cfg: Config, p: Pipe, pst: PipeStep)
    requires PipeOk(cfg, p) && PipeEnabled(cfg, p, pst)
    ensures !PipeEffect(cfg, p, pst).panic
  {
    hide PipeEffect, PipeEnabled, Queues, OpenBatch, Closing;
    ClosingKept(cfg, p, pst);
  }

  /** What leaves the table, and what is closed, one by one. */
  lemma ExpiredExactly(t: Table, ps: seq<Pipe>, lastSeen: PipeId -> int, cutoff: int, qs: seq<Pipe>)
    requires OwnNames(t, ps) && ClosedOnly(ps, qs, IdleOnes(t, ps, lastSeen, cutoff))
    ensures var t' := Without(t, IdleOnes(t, ps, lastSeen, cutoff));
            && |qs| == |ps|
            && (forall n <- t.names :: n !in t'.names <==> ps[t.names[n]].inline && lastSeen(t.names[n]) < cutoff)
            && (forall n <- t'.names :: n in t.names && t'.names[n] == t.names[n])
            && (forall id :: 0 <= id < |qs| ==>
                  var idle := id in t.names.Values && ps[id].inline && lastSeen(id) < cutoff;
                  qs[id] == if idle then ps[id].(rawClosed := true) else ps[id])
            && t'.hasDefault == t.hasDefault && |IdleOnes(t, ps, lastSeen, cutoff)| == |t.names| - |t'.names|
  {
    var idle := IdleOnes(t, ps, lastSeen, cutoff);
    RetiredCount(t, ps, idle);
  }

  /** Names lead to different pipelines, so as many names leave as pipelines. */
  lemma RetiredCount(t: Table, ps: seq<Pipe>, ids: set<PipeId>)
    requires OwnNames(t, ps) && ids <= t.names.Values
    ensures |ids| == |t.names| - |Without(t, ids).names|
    decreases |ids|
  {
    if ids == {} {
      assert Without(t, ids).names == t.names;
    } else {
      var id :| id in ids;
      RetiredCount(t, ps, ids - {id});
      OneLessName(t, ps, ids, id);
    }
  }

  lemma OneLessName(t: Table, ps: seq<Pipe>, ids: set<PipeId>, id: PipeId)
    requires OwnNames(t, ps) && ids <= t.names.Values && id in ids
    ensures |Without(t, ids).names| == |Without(t, ids - {id}).names| - 1
  {
    var n :| n in t.names && t.names[n] == id;
    var more, fewer := Without(t, ids - {id}).names, Without(t, ids).names;
    assert n in more;
    assert fewer.Keys == more.Keys - {n};
    assert |fewer| == |fewer.Keys| && |more| == |more.Keys|;
  }

  lemma NothingLost(t: Table, pipes: seq<Pipe>)
    ensures Without(t, {}) == t && ClosedOnly(pipes, pipes, {})
  {
    assert Without(t, {}).names == t.names;
  }

  lemma UnchangedReloads(keys: map<bytes, bytes>, t: Table, pipes: seq<Pipe>)
    requires InRange(t, pipes) && KeyMap(t, pipes) == keys
    ensures Reloads(keys, t, pipes, t, pipes)
  {
    forall n <- t.names ensures n in keys && keys[n] == pipes[t.names[n]].key {
      assert KeyMap(t, pipes)[n] == pipes[t.names[n]].key;
    }
    assert Dropped(t, t) == {};
  }

  /** A table built, started and stored, with what it leaves behind drained. */
  lemma BuiltReloads(keys: map<bytes, bytes>, prev: Table, pipes: seq<Pipe>, order: seq<bytes>, drained: seq<Pipe>)
    requires OwnNames(prev, pipes) && Enumerates(order, FreshNames(keys, prev, pipes)) && forall n <- order :: n in keys
    requires var next := BuiltTable(keys, prev, pipes, order);
             ClosedOnly(BuiltPipes(keys, pipes, order), drained, Dropped(prev, next))
    ensures Reloads(keys, prev, pipes, BuiltTable(keys, prev, pipes, order), drained)
  {
    hide BuiltTable, BuiltPipes, FreshNames, Enumerates, KeyMap;
    var next, built := BuiltTable(keys, prev, pipes, order), BuiltPipes(keys, pipes, order);
    ReloadTable(keys, prev, pipes, order);
    BuiltKeys(keys, prev, pipes, order);
    SameKeys(next, built, drained);
    forall n <- next.names
      ensures n in keys && if Reusable(prev, pipes, n, keys[n]) then next.names[n] == prev.names[n]
              else next.names[n] >= |pipes|
    {
      BuiltEntry(keys, prev, pipes, order, n);
    }
    forall k | |pipes| <= k < |drained|
      ensures k in next.names.Values && drained[k].starts == 1 && !drained[k].rawClosed && !drained[k].inline
    {
      BuiltPipeAt(keys, pipes, order, k);
      ReloadStarts(keys, prev, pipes, order, k);
    }
    forall k | 0 <= k < |pipes| ensures built[k] == pipes[k] {
      BuiltPipeAt(keys, pipes, order, k);
    }
  }

  lemma SameKeys(t: Table, ps: seq<Pipe>, qs: seq<Pipe>)
    requires InRange(t, ps) && |qs| == |ps| && forall k :: 0 <= k < |ps| ==> qs[k].key == ps[k].key
    ensures InRange(t, qs) && KeyMap(t, qs) == KeyMap(t, ps)
  {
  }

  lemma InstalledReloads(keys: map<bytes, bytes>, order: seq<bytes>)
    requires Enumerates(order, FreshNames(keys, EMPTY_TABLE, []))
    ensures var s := Installed(keys, order); Reloads(keys, EMPTY_TABLE, [], s.table, s.pipes)
  {
    hide BuiltTable, BuiltPipes, FreshNames, Enumerates, Reloads;
    NothingPublished();
    OrderInKeys(keys, EMPTY_TABLE, [], order);
    var s := Installed(keys, order);
    assert Dropped(EMPTY_TABLE, s.table) == {};
    BuiltReloads(keys, EMPTY_TABLE, [], order, s.pipes);
  }
}
