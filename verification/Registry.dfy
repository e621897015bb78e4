/** Pipelines, routing tables, and the table builders of the registry. */
module Registry {
  import opened Bytes
  import opened Batching

  type PipeId = nat

  /** `_default`. */
  const DEFAULT_PROJECT: bytes := [0x5F, 0x64, 0x65, 0x66, 0x61, 0x75, 0x6C, 0x74]
  const HANDOFF_DEPTH := 16
  const BATCH_SLOTS := 8

  /** The per-project counters. */
  datatype Stats = Stats(
    received: nat, parseError: nat, oversize: nat, queueFull: nat, routingClosed: nat,
    missingToken: nat, flushFailed: nat, shutdown: nat, sent: nat)

  const NO_STATS := Stats(0, 0, 0, 0, 0, 0, 0, 0, 0)

  function AddStats(a: Stats, b: Stats): Stats {
    Stats(a.received + b.received, a.parseError + b.parseError, a.oversize + b.oversize, a.queueFull + b.queueFull,
          a.routingClosed + b.routingClosed, a.missingToken + b.missingToken, a.flushFailed + b.flushFailed,
          a.shutdown + b.shutdown, a.sent + b.sent)
  }

  /** A batch being posted, and the number of attempts already made. */
  datatype Sending = Sending(batch: Batch, attempts: nat)

  /** One pipeline: its handoff queue, the batcher's open batch, a batch the batcher is blocked on, the
      batch channel, and the batch the flusher works on. */
  datatype Pipe = Pipe(
    project: bytes, key: bytes, inline: bool, starts: nat,
    raw: seq<Datagram>, rawClosed: bool,
    cur: seq<Item>, curToken: bytes, firstSeen: int, pending: Option<Batch>, batcherDone: bool,
    batches: seq<Batch>, batchClosed: bool,
    sending: Option<Sending>, flushDone: bool,
    cancelled: bool, stats: Stats)

  function NewPipe(project: bytes, key: bytes, inline: bool): Pipe {
    Pipe(project, key, inline, 0, [], false, [], [], 0, None, false, [], false, None, false, false, NO_STATS)
  }

  function Start(p: Pipe): Pipe { p.(starts := p.starts + 1) }

  datatype Table = Table(names: map<bytes, PipeId>, hasDefault: bool)

  predicate InRange(t: Table, pipes: seq<Pipe>) { forall n <- t.names :: t.names[n] < |pipes| }

  /** The name-to-key map that a table stands for. */
  function KeyMap(t: Table, pipes: seq<Pipe>): map<bytes, bytes>
    requires InRange(t, pipes)
  {
    map n | n in t.names :: pipes[t.names[n]].key
  }

  // ---------------------------------------------------------------- lookup

  function Lookup(t: Table, requireProject: bool, project: bytes): Option<PipeId> {
    if project == [] then
      if t.hasDefault && !requireProject && DEFAULT_PROJECT in t.names then Some(t.names[DEFAULT_PROJECT]) else None
    else if project in t.names then Some(t.names[project])
    else None
  }

  /** The name a datagram is looked up under. */
  function NameOf(project: bytes): bytes { if project == [] then DEFAULT_PROJECT else project }

  /** It names no project, and one is required or there is no default to fall back to. */
  predicate Missing(t: Table, requireProject: bool, project: bytes) {
    project == [] && (requireProject || !t.hasDefault || DEFAULT_PROJECT !in t.names)
  }

  /** A lookup fails exactly for a datagram that is missing a project, or names one that nobody has. */
  lemma LookupExact(t: Table, requireProject: bool, project: bytes)
    ensures Lookup(t, requireProject, project) ==
            if Missing(t, requireProject, project) || NameOf(project) !in t.names then None
            else Some(t.names[NameOf(project)])
  {
  }

  // ---------------------------------------------------------------- keysUnchanged

  /** Equal sizes and every wanted key already live: by counting, nothing else can be live. */
  lemma SameSizeCovers(t: Table, pipes: seq<Pipe>, keys: map<bytes, bytes>)
    requires InRange(t, pipes) && |t.names| == |keys|
    requires forall n <- keys :: n in t.names && pipes[t.names[n]].key == keys[n]
    ensures KeyMap(t, pipes) == keys
  {
    assert keys.Keys <= t.names.Keys;
    SubsetSameSize(keys.Keys, t.names.Keys);
  }

  lemma SubsetSameSize<T>(a: set<T>, b: set<T>)
    requires a <= b && |a| == |b|
    ensures a == b
  {
    assert |b - a| == |b| - |a|;
  }

  /** Whether a poll may leave the table alone: exactly when the live name-to-key map is the wanted one. */
  method KeysUnchanged(t: Table, pipes: seq<Pipe>, keys: map<bytes, bytes>) returns (same: bool)
    requires InRange(t, pipes)
    ensures same <==> KeyMap(t, pipes) == keys
  {
    if |t.names| != |keys| {
      assert KeyMap(t, pipes).Keys == t.names.Keys;
      return false;
    }
    var todo := keys.Keys;
    while todo != {}
      invariant todo <= keys.Keys
      invariant forall n <- keys.Keys - todo :: n in t.names && pipes[t.names[n]].key == keys[n]
      decreases |todo|
    {
      var n :| n in todo;
      if n !in t.names || pipes[t.names[n]].key != keys[n] {
        assert n in keys;
        return false;
      }
      todo := todo - {n};
    }
    SameSizeCovers(t, pipes, keys);
    return true;
  }

  // ---------------------------------------------------------------- buildTable

  /** The live pipeline of a name carries the wanted key already. */
  predicate Reusable(prev: Table, pipes: seq<Pipe>, n: bytes, key: bytes)
    requires InRange(prev, pipes)
  {
    n in prev.names && pipes[prev.names[n]].key == key
  }

  function FreshNames(keys: map<bytes, bytes>, prev: Table, pipes: seq<Pipe>): set<bytes>
    requires InRange(prev, pipes)
  {
    set n | n in keys && !Reusable(prev, pipes, n, keys[n])
  }

  predicate Distinct(order: seq<bytes>) { forall i, j :: 0 <= i < j < |order| ==> order[i] != order[j] }

  /** `order` visits exactly the names that need a new pipeline, each once. */
  ghost predicate Enumerates(order: seq<bytes>, names: set<bytes>) {
    Distinct(order) && (forall n :: n in order <==> n in names)
  }

  function IndexOf(order: seq<bytes>, n: bytes): (k: nat)
    requires n in order
    ensures k < |order| && order[k] == n
  {
    if order[|order| - 1] == n then |order| - 1 else IndexOf(order[..|order| - 1], n)
  }

  lemma IndexUnique(order: seq<bytes>, k: nat)
    requires Distinct(order) && k < |order|
    ensures IndexOf(order, order[k]) == k
  {
  }

  lemma OrderSnoc(order: seq<bytes>, n: bytes)
    requires Distinct(order) && n !in order
    ensures Distinct(order + [n])
    ensures forall m :: m in order + [n] <==> m in order || m == n
    ensures IndexOf(order + [n], n) == |order|
    ensures forall m <- order :: IndexOf(order + [n], m) == IndexOf(order, m)
  {
    assert (order + [n])[..|order|] == order;
  }

  function BuiltNames(keys: map<bytes, bytes>, prev: Table, pipes: seq<Pipe>, order: seq<bytes>): map<bytes, PipeId>
    requires InRange(prev, pipes) && Enumerates(order, FreshNames(keys, prev, pipes))
  {
    map n | n in keys ::
      if Reusable(prev, pipes, n, keys[n]) then prev.names[n]
      else assert n in FreshNames(keys, prev, pipes); |pipes| + IndexOf(order, n)
  }

  function BuiltTable(keys: map<bytes, bytes>, prev: Table, pipes: seq<Pipe>, order: seq<bytes>): Table
    requires InRange(prev, pipes) && Enumerates(order, FreshNames(keys, prev, pipes))
  {
    Table(BuiltNames(keys, prev, pipes, order), DEFAULT_PROJECT in keys)
  }

  /** The pipelines that `buildTable` creates, not started yet. */
  function Created(keys: map<bytes, bytes>, order: seq<bytes>): (r: seq<Pipe>)
    requires forall n <- order :: n in keys
    ensures |r| == |order| && forall k :: 0 <= k < |order| ==> r[k] == NewPipe(order[k], keys[order[k]], false)
  {
    seq(|order|, k requires 0 <= k < |order| => NewPipe(order[k], keys[order[k]], false))
  }

  /** The pipelines after the build and the start of every pipeline that was not taken over. */
  function BuiltPipes(keys: map<bytes, bytes>, pipes: seq<Pipe>, order: seq<bytes>): (r: seq<Pipe>)
    requires forall n <- order :: n in keys
    ensures |r| == |pipes| + |order| && r[..|pipes|] == pipes
    ensures forall k :: 0 <= k < |order| ==> r[|pipes| + k] == Start(NewPipe(order[k], keys[order[k]], false))
  {
    pipes + seq(|order|, k requires 0 <= k < |order| => Start(NewPipe(order[k], keys[order[k]], false)))
  }

  /** Each name of a table leads to a pipeline of that project, so no two names share one. */
  predicate OwnNames(t: Table, pipes: seq<Pipe>) {
    InRange(t, pipes) && forall n <- t.names :: pipes[t.names[n]].project == n
  }

  lemma CreatedSnoc(keys: map<bytes, bytes>, order: seq<bytes>, n: bytes)
    requires n in keys && forall m <- order :: m in keys
    ensures (forall m <- order + [n] :: m in keys) && Created(keys, order + [n]) ==
            Created(keys, order) + [NewPipe(n, keys[n], false)]
  {
    hide NewPipe;
    var grown := order + [n];
    assert forall m <- grown :: m in keys;
    assert Created(keys, grown) == Created(keys, order) + [NewPipe(n, keys[n], false)];
  }

  /** The entry of one name in the table under construction. */
  function Entry(keys: map<bytes, bytes>, prev: Table, pipes: seq<Pipe>, order: seq<bytes>, n: bytes): PipeId
    requires InRange(prev, pipes) && n in keys && (!Reusable(prev, pipes, n, keys[n]) ==> n in order)
  {
    if Reusable(prev, pipes, n, keys[n]) then prev.names[n] else |pipes| + IndexOf(order, n)
  }

  /** Builds the next table, visiting the names in any order, as the loop over a Go map does. */
  method BuildTable(keys: map<bytes, bytes>, prev: Table, pipes: seq<Pipe>)
    returns (next: Table, grown: seq<Pipe>, order: seq<bytes>)
    requires InRange(prev, pipes)
    ensures Enumerates(order, FreshNames(keys, prev, pipes))
    ensures next == BuiltTable(keys, prev, pipes, order)
    ensures grown == pipes + Created(keys, order)
  {
    hide NewPipe, IndexOf, Distinct, Created;
    var names: map<bytes, PipeId> := map[];
    var todo := keys.Keys;
    grown, order := pipes, [];
    StartOfBuild(keys, pipes);
    while todo != {}
      invariant todo <= keys.Keys && names.Keys == keys.Keys - todo
      invariant Distinct(order)
      invariant forall n :: n in order <==> n in keys && n !in todo && !Reusable(prev, pipes, n, keys[n])
      invariant grown == pipes + Created(keys, order)
      invariant forall n <- names :: names[n] == Entry(keys, prev, pipes, order, n)
      decreases |todo|
    {
      var n :| n in todo;
      todo := todo - {n};
      if n in prev.names && pipes[prev.names[n]].key == keys[n] {
        assert Reusable(prev, pipes, n, keys[n]);
        names := names[n := prev.names[n]];
      } else {
        CreatedSnoc(keys, order, n);
        OrderSnoc(order, n);
        names := names[n := |grown|];
        grown := grown + [NewPipe(n, keys[n], false)];
        order := order + [n];
      }
    }
    next := Table(names, DEFAULT_PROJECT in names);
    assert Enumerates(order, FreshNames(keys, prev, pipes));
    assert names == BuiltNames(keys, prev, pipes, order);
  }

  lemma StartOfBuild(keys: map<bytes, bytes>, pipes: seq<Pipe>)
    ensures Distinct([]) && pipes == pipes + Created(keys, [])
  {
  }

  lemma BuiltEntry(keys: map<bytes, bytes>, prev: Table, pipes: seq<Pipe>, order: seq<bytes>, n: bytes)
    requires InRange(prev, pipes) && Enumerates(order, FreshNames(keys, prev, pipes)) && n in keys
    ensures var id := BuiltTable(keys, prev, pipes, order).names[n];
            if Reusable(prev, pipes, n, keys[n]) then id == prev.names[n] && id < |pipes| && n !in order
            else n in order && id == |pipes| + IndexOf(order, n)
  {
    assert n in FreshNames(keys, prev, pipes) <==> !Reusable(prev, pipes, n, keys[n]);
  }

  /** Starts every pipeline of the new table that the old table does not already hold. */
  method StartFresh(keys: map<bytes, bytes>, prev: Table, pipes: seq<Pipe>, order: seq<bytes>, next: Table,
      grown: seq<Pipe>)
    returns (started: seq<Pipe>)
    requires OwnNames(prev, pipes) && Enumerates(order, FreshNames(keys, prev, pipes))
    requires next == BuiltTable(keys, prev, pipes, order) && grown == pipes + Created(keys, order)
    ensures started == BuiltPipes(keys, pipes, order)
  {
    hide NewPipe, BuiltNames, IndexOf, Start, Reusable, FreshNames;
    started := grown;
    var todo := next.names.Keys;
    OrderInKeys(keys, prev, pipes, order);
    BuiltKeys(keys, prev, pipes, order);
    while todo != {}
      invariant todo <= next.names.Keys && |started| == |grown| && started[..|pipes|] == pipes
      invariant forall k :: 0 <= k < |order| ==> started[|pipes| + k] == Visited(keys, order[k], todo)
      decreases |todo|
    {
      var n :| n in todo;
      todo := todo - {n};
      BuiltEntry(keys, prev, pipes, order, n);
      if !(n in prev.names && prev.names[n] == next.names[n]) {
        FreshEntry(keys, prev, pipes, order, n);
        started := started[next.names[n] := Start(started[next.names[n]])];
      } else {
        KeptEntry(keys, prev, pipes, order, n);
      }
    }
  }

  /** A new pipeline before and after the start loop has come to its name. */
  function Visited(keys: map<bytes, bytes>, n: bytes, todo: set<bytes>): Pipe
    requires n in keys
  {
    if n in todo then NewPipe(n, keys[n], false) else Start(NewPipe(n, keys[n], false))
  }

  lemma OrderInKeys(keys: map<bytes, bytes>, prev: Table, pipes: seq<Pipe>, order: seq<bytes>)
    requires InRange(prev, pipes) && Enumerates(order, FreshNames(keys, prev, pipes))
    ensures forall k :: 0 <= k < |order| ==> order[k] in keys
  {
    assert forall k :: 0 <= k < |order| ==> order[k] in order;
  }

  lemma FreshEntry(keys: map<bytes, bytes>, prev: Table, pipes: seq<Pipe>, order: seq<bytes>, n: bytes)
    requires InRange(prev, pipes) && Enumerates(order, FreshNames(keys, prev, pipes)) && n in keys
    requires var next := BuiltTable(keys, prev, pipes, order); !(n in prev.names && prev.names[n] == next.names[n])
    ensures var id := BuiltTable(keys, prev, pipes, order).names[n];
            && |pipes| <= id < |pipes| + |order| && order[id - |pipes|] == n
            && forall k :: 0 <= k < |order| && order[k] == n ==> |pipes| + k == id
  {
    BuiltEntry(keys, prev, pipes, order, n);
  }

  lemma KeptEntry(keys: map<bytes, bytes>, prev: Table, pipes: seq<Pipe>, order: seq<bytes>, n: bytes)
    requires InRange(prev, pipes) && Enumerates(order, FreshNames(keys, prev, pipes)) && n in keys
    requires n in prev.names && prev.names[n] == BuiltTable(keys, prev, pipes, order).names[n]
    ensures n !in order
  {
    BuiltEntry(keys, prev, pipes, order, n);
  }

  /** The pipelines that a swap leaves behind. */
  function Dropped(prev: Table, next: Table): set<PipeId> { prev.names.Values - next.names.Values }

  /** Reload exactness: the new table stands for exactly the new keys, and a name keeps its pipeline
      exactly when it keeps its key. */
  lemma ReloadTable(keys: map<bytes, bytes>, prev: Table, pipes: seq<Pipe>, order: seq<bytes>)
    requires OwnNames(prev, pipes) && Enumerates(order, FreshNames(keys, prev, pipes))
    ensures var next := BuiltTable(keys, prev, pipes, order); var grown := BuiltPipes(keys, pipes, order);
            && OwnNames(next, grown) && KeyMap(next, grown) == keys
            && (next.hasDefault <==> DEFAULT_PROJECT in keys)
            && (forall n <- keys :: Reusable(prev, pipes, n, keys[n]) <==>
               n in prev.names && next.names[n] == prev.names[n])
  {
    hide NewPipe, IndexOf, BuiltNames, BuiltPipes, FreshNames;
    OrderInKeys(keys, prev, pipes, order);
    var next := BuiltTable(keys, prev, pipes, order);
    var grown := BuiltPipes(keys, pipes, order);
    BuiltKeys(keys, prev, pipes, order);
    forall n <- keys
      ensures next.names[n] < |grown| && grown[next.names[n]].project == n && grown[next.names[n]].key == keys[n]
      ensures Reusable(prev, pipes, n, keys[n]) <==> n in prev.names && next.names[n] == prev.names[n]
    {
      BuiltEntry(keys, prev, pipes, order, n);
      BuiltPipeAt(keys, pipes, order, next.names[n]);
    }
  }

  lemma BuiltKeys(keys: map<bytes, bytes>, prev: Table, pipes: seq<Pipe>, order: seq<bytes>)
    requires InRange(prev, pipes) && Enumerates(order, FreshNames(keys, prev, pipes))
    ensures BuiltTable(keys, prev, pipes, order).names.Keys == keys.Keys
  {
  }

  lemma BuiltPipeAt(keys: map<bytes, bytes>, pipes: seq<Pipe>, order: seq<bytes>, id: PipeId)
    requires (forall n <- order :: n in keys) && id < |pipes| + |order|
    ensures var p := BuiltPipes(keys, pipes, order)[id];
            if id < |pipes| then p == pipes[id]
            else && p.project == order[id - |pipes|] && p.key == keys[p.project]
                 && p.starts == 1 && !p.inline && Untouched(p)
  {
  }

  /** Nothing has happened to the pipeline since its start. */
  predicate Untouched(p: Pipe) {
    && p.raw == [] && !p.rawClosed && p.cur == [] && p.curToken == [] && p.pending == None && !p.batcherDone
    && p.batches == [] && !p.batchClosed && p.sending == None && !p.flushDone && !p.cancelled && p.stats == NO_STATS
  }

  /** Reload exactness: the pipelines built are exactly the new entries of the table, each started once. */
  lemma ReloadStarts(keys: map<bytes, bytes>, prev: Table, pipes: seq<Pipe>, order: seq<bytes>, id: PipeId)
    requires OwnNames(prev, pipes) && Enumerates(order, FreshNames(keys, prev, pipes))
    requires |pipes| <= id < |pipes| + |order|
    ensures id in BuiltTable(keys, prev, pipes, order).names.Values
    ensures BuiltPipes(keys, pipes, order)[id].starts == 1
  {
    var n := order[id - |pipes|];
    BuiltPipeAt(keys, pipes, order, id);
    assert n in FreshNames(keys, prev, pipes);
    BuiltEntry(keys, prev, pipes, order, n);
    IndexUnique(order, id - |pipes|);
    assert BuiltTable(keys, prev, pipes, order).names[n] == id;
  }

  /** Reload exactness: a pipeline is left behind exactly when its name is gone or its key changed. */
  lemma ReloadDrops(keys: map<bytes, bytes>, prev: Table, pipes: seq<Pipe>, order: seq<bytes>, n: bytes)
    requires OwnNames(prev, pipes) && Enumerates(order, FreshNames(keys, prev, pipes)) && n in prev.names
    ensures prev.names[n] in Dropped(prev, BuiltTable(keys, prev, pipes, order)) <==>
            !(n in keys && keys[n] == pipes[prev.names[n]].key)
  {
    hide IndexOf;
    var next := BuiltTable(keys, prev, pipes, order);
    var id := prev.names[n];
    if n in keys {
      BuiltEntry(keys, prev, pipes, order, n);
    }
    forall m <- next.names | next.names[m] == id
      ensures m == n && keys[n] == pipes[id].key
    {
      BuiltEntry(keys, prev, pipes, order, m);
    }
  }
}
