# Verification of the metrics agent

The agent receives JSON events as datagrams, recovers `_project` and `_token` from each, cuts both out of the bytes, and forwards the events in batches, one pipeline per project, to a gateway. This project models that path and proves properties of it:

- **The routing scanner and splicer** (`Bytes`, `Tokens`, `Documents`, `Stripping`, `Extraction`, `Laws`, `Rfc8259`). Every scan loop of `routing.go` is a method proved equal to a recursive function; the functions are proved sound and complete against grammars given as syntax trees (strings, numbers, bracket words of bounded depth, objects), and against JSON as RFC 8259 sections 2 to 7 define it. On top of that: the splice, the prefilter, idempotence, the two entry points.
- **Events** (`Events`, `Batching`, `Flushing`). Validation, timestamp injection, batch encoding, the batcher and the retry loop, in the imperative form of `events.go` and `flusher.go`.
- **The protocol** (`Registry`, `Protocol`). A state machine over the actions that other goroutines can observe: dispatch, the bounded shared queue, the demuxer, the 16-slot handoff, the batcher, the 8-slot batch channel, retrying sends, table writers with separate load and store steps, drains and shutdown. A run is any interleaving of enabled steps. `Routing` says what the registry's methods do when one runs at a time, and `Agents` holds them in the source's order as a class, proved against `Routing`, whose ghost fields record the run of the state machine it amounts to. `Refinement` ties the batcher's and the flusher's steps to the two classes.
- **Whole-run theorems** (`TableLaws`, `Ledger`, `LedgerLaws`, `Counters`, `Reasons`, `FlowLaws`, `Provenance`, `Order`, `Lifecycle`, `Quiescence`, `EndToEnd`).
- **Where promises end** (`Hazards`, `Witnesses`, `Deployments`). Schedules and concrete datagrams that break three of the documented promises, and theorems that say in exactly which configurations two of them hold.

Four kinds of hypothesis appear. `Run` is any interleaving. `OrderedRun` adds what the main routine orders by itself: a reload finishes before shutdown loads the table. `SerialRun` adds more, namely that table writers take effect one at a time (no other store between a writer's load and its store) and that none stores after shutdown has loaded the table; it is used for lifecycle and shutdown only. `Wired` says that the state machine runs with the modelled extraction and validation, and `Deployed` adds a configuration the agent accepts and libraries that accept ASCII and ordinary JSON.

Where the code and its comments differ, the model follows the code:

- Draining a pipeline once (`routing.go:156-160`) is not guaranteed: expiry loads the table and stores it under its own mutex, and neither shutdown (`main.go:300-327`) nor a reload (`routing.go:368`, `routing.go:721`) takes that mutex. `Deployments.DrainsExact`: no ordered run closes a closed channel if and only if tokens register nothing, or both races are impossible: expiry is off or the cap leaves no room for a registered project, and there is no keys file or no room for two of them; `Hazards.ExpiryPanics` and `Hazards.ReloadPanics` are the schedules. With writers that take turns it never happens: `Lifecycle.NeverPanics`.
- The check in dispatch (`routing.go:582-596`) is there so that no event is posted under an empty bearer. The demuxer looks the project up again, so a keys file and inline tokens together can still do it. `Deployments.CredentialsExact`: every POST of every run has a credential if and only if the two are not combined or the default project fills the table.
- The reconciliation formula in the comment on the per-project counters (`stats.go:107-118`) is not an identity. `LedgerLaws.CommentExact` says exactly in which states it holds, `Counters.GapMoves` which steps move the difference, and `Counters.CommentFails` gives a run that ends with it wrong in every deployment that routes datagrams without a project to a default one; `LedgerLaws.Conservation` is the identity that does hold.
- The comment on the extraction (`routing.go:1038-1041`) calls every input that is not a valid object malformed. `Laws.MalformedVerdict` says what is: a datagram with a marker that begins as an object and is neither an empty one nor one with well-formed members within the nesting cap. The bare string `"_project"` is no object and passes (`Laws.BareStringPasses`), and a valid object that nests too deeply is refused (`Rfc8259.MalformedExactly`).

## Model

| member | source | states |
|---|---|---|
| Tokens.ScanSpace | routing.go:1267-1277 | the blank-skipping loop returns the end of the longest stretch of JSON blanks |
| Tokens.ScanStringBody | routing.go:1285-1321 | the string loop returns the closing quote exactly of the bodies the string grammar allows, with no error otherwise |
| Tokens.StringEndComplete | routing.go:1285-1321 | any well-formed string body followed by a quote is read to exactly that quote |
| Tokens.ScanNumber | routing.go:1448-1490 | the number loop equals the composition of sign, whole part, fraction and exponent |
| Tokens.NumberEndComplete | routing.go:1448-1490 | a number of the JSON grammar that no digit, point or exponent letter follows is read to its exact end |
| Tokens.ScanContainer | routing.go:1390-1444 | the loop over the fixed 256-byte stack refines the recursive bracket recogniser |
| Tokens.ContainerExact | routing.go:1390-1444 | at an open bracket the recogniser ends at `e` if and only if a correctly paired bracket word of depth at most 256, strings taken whole, spans exactly up to `e` |
| Tokens.ScanValue | routing.go:1343-1380 | the dispatch on the first byte returns end and kind of the value grammar, or nothing |
| Tokens.ValueEndSound | routing.go:1343-1380 | whatever is accepted is the text of a value tree within the nesting cap, of the kind reported |
| Tokens.ValueEndComplete | routing.go:1343-1380 | every value tree within the cap is accepted with its exact end and kind |
| Documents.ScanObjectExact | routing.go:1074-1195 | the walk yields the member list `doc` if and only if the datagram is the text of `doc` and `doc` is well formed: parsing and printing are inverse, blanks and trailing bytes included |
| Rfc8259.ScanValueComplete | routing.go:1343-1490 | every RFC 8259 value of depth at most 256, anywhere in a datagram, is read to its exact end with its kind |
| Rfc8259.ScanObjectOfJson | routing.go:1074-1195 | every RFC 8259 object within the cap scans to exactly its members, whatever blanks precede and whatever bytes follow |
| Rfc8259.MalformedExactly | routing.go:1074-1195 | a valid JSON object is called malformed if and only if some member value nests deeper than 256 |
| Extraction.ScanMember | routing.go:1110-1135 | one turn of the member loop delimits key, value and separator of the next member, or fails exactly when there is none |
| Extraction.WalkMembers | routing.go:1110-1195 | the member loop collects the spans of all hits, the last-wins verdict on both routing fields, the member count and the closing brace |
| Extraction.BuildCuts | routing.go:1229-1249 | the cut loop, with its `h.idx == k` comma rule, computes the planned cuts of every hit |
| Extraction.SpliceOut | routing.go:1253-1262 | the copy loop returns the bytes outside the cuts, in order |
| Extraction.ExtractAndStripFields | routing.go:1064-1264 | the whole method equals the specification `Stripping.Extract` on all inputs and both modes |
| Stripping.SpliceCorrect | routing.go:1214-1262 | cutting the planned ranges leaves exactly the printed object of the surviving members, for every pattern of leading, adjacent, duplicate and trailing hits |
| Laws.SpliceRoundTrip | routing.go:1110-1263 | rescanning the rewritten bytes succeeds and finds exactly the non-routing members, in order, with identical key and value bytes; `{}` when every member was a hit |
| Laws.StrippedMembers | routing.go:1064-1264 | for every datagram not called malformed, the members after extraction are the members before it without the routing fields |
| Laws.NothingLeaks | routing.go:994-997 | no member with a raw routing key is left in the bytes forwarded |
| Laws.SurvivorsInOrder | routing.go:994-997 | the members forwarded are exactly those whose key is neither `_project` nor, where tokens are looked for, `_token`: all of them, in order |
| Laws.RoutingAnswers | routing.go:1144-1185 | project and token, and whether they are usable, are what the value of the last such member stands for: the whole text between the quotes when it has no escapes and is valid UTF-8, else what the library decodes, unusable when it is no string; empty and usable when there is none |
| Laws.PrefilterExact | routing.go:1069-1072 | skipping the scan gives the same answer as scanning if and only if a marker occurs or the scan would not have said malformed |
| Laws.ExtractIdempotent | routing.go:1064-1264 | extracting from stripped bytes finds nothing and changes nothing |
| Laws.EntryPointsAgree | routing.go:1023-1033 | on accepted input both entry points agree on project and usability, and differ only in surviving `_token` members |
| Laws.ExtractShrinks | routing.go:1253-1263 | stripping never lengthens a datagram |
| Events.ValidateEvent | events.go:87-116 | the trimming loops, checks and injection equal the verdict function, error cases included |
| Events.ValidateCorrect | events.go:87-116 | an accepted event is one JSON object with the datagram's members in order, preceded by a timestamp exactly when no top-level key decodes to `timestamp`, and at most 15 bytes plus the rendering longer than the limit |
| Events.VerdictExact | events.go:87-116 | oversize exactly above the limit; accepted exactly when within it and a valid object in braces with blanks around it; the event is the object itself when some key decodes to `timestamp` and the injected one when none does; all else is a parse error |
| Events.InjectCorrect | events.go:151-163 | injection into any JSON object yields a JSON object whose members are the new field followed by the old members unchanged |
| Events.EncodeEventBatch | events.go:327-342 | the loop writes the wrapped, comma-separated events |
| Events.EncodeSize | events.go:321-342 | the body has exactly the sum of (length + 1) plus 12 bytes |
| Events.EncodeRoundTrip | events.go:327-342 | splitting the encoded array at its top-level commas recovers exactly the events |
| Events.EncodedIsObject | events.go:321-342 | the body is one JSON object |
| Batching.Batcher.Flush | events.go:292-317 | the open batch becomes a sealed batch, handed on or counted as shutdown drops at both levels; nothing else changes |
| Batching.Batcher.Append | events.go:264-284 | one accepted event closes the batch it would overflow and its own batch when that is full, and joins the open one otherwise |
| Batching.ClosedWhenDue | events.go:264-288 | in every schedule a batch is closed only by the timer, or with as many events as a batch may have, or for an event that it has no room for |
| Batching.Batcher.Take | events.go:241-284 | one datagram off the channel: verdict counters at both levels, order of accepted events, timer armed exactly when a batch is open |
| Batching.Batcher.Fire | events.go:285-288 | the timer closes the open batch |
| Batching.Batcher.Run | events.go:208-290 | for every schedule the batches closed are those of the reference replay, their events are the accepted events in order, and each is sealed |
| Batching.LastTokenOwner | events.go:274-280 | a batch carries a token if and only if one of its datagrams does, and then it is that of the last one that does |
| Batching.BodySize | events.go:264-284 | a sealed batch encodes to at most the byte cap plus 12, unless it is a single event |
| Flushing.Flusher.Send | flusher.go:108-186 | for every sequence of outcomes and cancellation points: the number of attempts, the ending they call for, the posts and delays made, and exactly one counter raised by the batch size at both levels |
| Flushing.EndsUnique | flusher.go:118-166 | the schedule determines how often is tried and how it ends |
| Flushing.BackoffExact | flusher.go:119-123 | up to attempt 36 the delay is min(250 ms doubled, 5 s) without overflow |
| Flushing.BackoffWraps | flusher.go:119-123 | before attempt 37 the 64-bit shift has turned negative |
| Registry.KeysUnchanged | routing.go:453-464 | the size check and loop answer yes if and only if the live name-to-key map is the wanted one |
| Registry.LookupExact | routing.go:486-504 | a lookup fails exactly for a datagram without a project where one is required or there is no default, and for a name that nobody has; else it gives the pipeline of the name |
| Registry.BuildTable | routing.go:469-482 | for every iteration order: the table reuses the live pipeline of each unchanged key and creates one for each other name |
| Registry.StartFresh | routing.go:415-424 | the start loop starts each new pipeline once and no reused one |
| Registry.ReloadTable | routing.go:469-482 | the built table stands for exactly the keys; a name keeps its pipeline if and only if its key is unchanged |
| Registry.ReloadStarts | routing.go:415-424 | every pipeline created is an entry of the new table and started once |
| Registry.ReloadDrops | routing.go:428-441 | a pipeline is left behind if and only if its name is gone or its key changed |
| Agents.Agent.Install | routing.go:274-312 | refused exactly when the keys exceed the project cap; else a table for exactly the configured keys is published, every pipeline started once before |
| Agents.Agent.TrySend | routing.go:88-100 | delivered, closed and full exclude each other, are decided by the closed flag first and the 16 slots second, and only delivery changes the queue |
| Agents.Agent.Demux | routing.go:326-357 | the loop forwards the whole queue as `Routing.ForwardedAll` says, and the recorded run goes on |
| Routing.HandoffsExact | routing.go:341-355 | emptying the queue gives each pipeline exactly the datagrams the table addresses to it: the first ones, in order, while it has slots, and the others on its own closed or full counter |
| Routing.HandoffsTally | routing.go:329-348 | process-wide it raises one counter, by the number of datagrams that find no project or a closed pipeline |
| Agents.Agent.Forward | routing.go:341-355 | one handoff takes the datagram, or counts a closed pipeline at both levels, or a full one for the project only |
| Agents.Agent.Receive | listener.go:108-117 | one datagram is dispatched as `Routing.Dispatched` says, a full queue is counted, and so it is either queued or counted by exactly one process-wide drop |
| Agents.Agent.DispatchDatagram | routing.go:532-638 | the checks in source order change counters, queue, table and pipelines as `Routing.Dispatched` says, error cases included, and the recorded run goes on |
| Routing.DispatchCounts | routing.go:519-531 | a dispatched datagram is queued, stripped and labelled, or raises exactly one process-wide counter, or meets a full open queue; never two of these |
| Routing.DispatchReasons | routing.go:532-638 | counter by counter when dispatch raises it: unrouted_missing exactly where a project is required or no default is published, unrouted_unknown never for a name the table has, missing_token before routing_closed, and so on |
| Routing.DispatchRegisters | routing.go:566-573 | dispatch changes the table exactly for a datagram with a new project and its own token when there is room, and then maps the project to a new keyless pipeline started once |
| Routing.QueuedHasCredential | routing.go:582-596 | what is queued carries a token, or its project leads at that moment to a pipeline with a key |
| Agents.Agent.RegisterInline | routing.go:662-699 | refused exactly at the project cap; else the table maps the project to a new keyless pipeline, started once, and nothing else changes |
| Agents.Agent.Reload | routing.go:367-441 | without a keys file or above the cap nothing changes; else the table stands for exactly the keys read, a name keeps its pipeline exactly when its key is unchanged, the others have new ones started once, and exactly the pipelines left behind are closed |
| Agents.Agent.ExpireInline | routing.go:717-773 | a name leaves the table, and its pipeline is closed, exactly when expiry is on, the pipeline is inline and was last seen longer ago than the idle time; every other name and pipeline stays |
| Agents.Agent.DrainAll | routing.go:156-160 | exactly the pipelines left behind are closed, none of them twice |
| Agents.Agent.Shutdown | routing.go:807-828 | for every schedule of the pipelines' steps, whatever the gateway replies and whether or not the grace period runs out: it returns, every published pipeline has finished, nothing is held anywhere, and everything received has been counted |
| Refinement.AcceptIsTurn | events.go:246-284 | the state machine's accept step, with the flushes it leads to, is one turn of the batcher's loop |
| Refinement.FlushIsTurn | events.go:285-288 | its flush step is the timer's turn |
| Refinement.SendIsLoop | flusher.go:118-186 | its attempt steps end as the retry loop ends: same number of posts, same one counter by the batch size |
| Reasons.AcceptCloses | events.go:264-273 | the state machine's batcher closes its open batch for an event exactly when there is one and the event does not fit |
| Reasons.CountersExact | routing.go:532-638 | in every step of every run each process-wide counter moves exactly when, and by as much as, one of its own reasons says |
| Reasons.ProjectCountersExact | stats.go:122-134 | the same for the counters of each project |
| Reasons.PostsExact | flusher.go:118-166 | the posts of a run are its attempts, one each whatever the reply, with the batch in hand under its token or else the pipeline's key |
| Reasons.CutOnlyWhenOver | flusher.go:118-166 | events are counted as cut by shutdown only in a pipeline that is draining and whose grace period is over |
| Order.EventsInOrder | routing.go:326-357 | in every run what a pipeline's flusher has taken, followed by everything still on its way there, is a subsequence of the datagrams as they entered the shared queue |
| Order.PostsInOrder | flusher.go:98-102 | the batch that a pipeline posts is always the last one its flusher took |
| TableLaws.TablesAlways | routing.go:398-426 | under every interleaving of loads and stores: published pipelines were started once, sit under their own name, are inline exactly when keyless; the default flag means a keyed default pipeline; the cap on projects holds |
| TableLaws.ReloadExact | routing.go:402-441 | in every run a reload's store publishes exactly the keys read, keeps a pipeline exactly when its key is unchanged, and gives a drain exactly to the rest |
| LedgerLaws.Conservation | stats.go:107-118 | in every reachable state: received = process-wide drops and sends + handoff overflows + what is still in dispatch, queues, batches and sends |
| LedgerLaws.ExactlyOnce | routing.go:326-357 | in every reachable state each received datagram is in exactly one place and nothing else is anywhere |
| LedgerLaws.CommentExact | stats.go:107-118 | the documented formula holds in a reachable state if and only if the batchers' parse errors equal the shared-queue overflows plus the demuxer's failed lookups |
| Counters.GapMoves | stats.go:107-118 | the formula's error changes, by one, exactly at a batcher's parse error, a shared-queue overflow or a failed lookup of the demuxer, and at no other step of any run |
| Counters.CommentFails | stats.go:107-118 | in every deployment that routes datagrams without a project to a default one, one empty datagram leads to a state where the formula is wrong |
| LedgerLaws.EachProjectsBooks | stats.go:122-134 | for each pipeline in every reachable state: accepted events are sent, failed, cut by shutdown, or still on their way |
| FlowLaws.FlowAlways | events.go:246-317 | in every reachable state every queue, open batch, pending batch and send is well formed, within its capacity, and holds only its own project's genuine datagrams |
| Provenance.EveryPostEntitled | flusher.go:134-140 | every POST carries events of the pipeline's own project (or, on the default one and only where no project is required, of none), under the pipeline's key if no datagram of the batch had a token, else under the token of the last one that had |
| Provenance.NamedEverywhere | routing.go:486-504 | where a project is required, no datagram without one is in the queue, at the demuxer, in a handoff, a batch or a post of any run |
| Provenance.NeverAnonymous | routing.go:582-596 | with no keys file, no inline tokens, or a default key that fills the table, every POST of every run has a non-empty credential |
| TableLaws.NoInlineAlways | routing.go:662-674 | where tokens are off or the cap leaves no room beside the configured key, no inline pipeline is ever made |
| Provenance.OnlyDrainsPanic | routing.go:88-100 | the only step that can send on or close a closed channel is a second drain of one pipeline |
| Provenance.Capacities | routing.go:256-268 | the shared queue, the handoffs and the batch channels never exceed their capacities |
| Provenance.QueueMemory | routing.go:28-36 | queued raw bytes stay within (queue capacity + 16 per undrained pipeline) datagrams of maximal size |
| Lifecycle.EveryPipeStands | routing.go:156-175 | with serialised writers every pipeline ever made is unpublished and untouched, or published and open, or has exactly one drain |
| Lifecycle.RetiredForever | routing.go:717-773 | a pipeline that left the table never returns |
| Lifecycle.DrainedAtMostOnce | routing.go:156-160 | across reloads, expiries and shutdown the number of drains of a pipeline is one if its queue is closed and zero otherwise |
| Lifecycle.NeverPanics | routing.go:156-160 | no reachable step sends on or closes a closed channel |
| Quiescence.ShutdownQuiescent | routing.go:807-828 | once shutdown returns all queues, partial batches and sends are empty, and the ledger closes up to datagrams still inside dispatch |
| Quiescence.DrainsAreBounded | routing.go:156-175 | after shutdown loads the table, drains and pipelines take at most a fixed number of further steps, whatever the gateway replies |
| Quiescence.DemuxIsBounded | routing.go:326-357 | after the queue is closed the demuxer takes at most a fixed number of further steps |
| Quiescence.ShutdownProgress | routing.go:807-828 | while shutdown is not finished one of its own steps is enabled, whatever the gateway replies |
| Quiescence.ShutdownCompletes | routing.go:807-828 | every serialised run extends to the end of shutdown by shutdown's own steps, at most as many as a bound computed from the state |
| Quiescence.StepSheds | flusher.go:98-186 | every step of a pipeline's goroutines strictly lowers a measure over handoff, open batch, pending batch, queued batches and remaining attempts |
| EndToEnd.EveryPostFaithful | routing.go:533-552 | every posted event has exactly its datagram's non-routing members, in order, stamped exactly when needed, no raw routing key survives, and the body is well formed and splits back into the events |
| EndToEnd.WiredIsValid | routing.go:1253-1263 | the extraction meets the no-longer-than-received condition that the memory bound needs |
| Laws.MalformedVerdict | routing.go:1069-1105 | a datagram is called malformed if and only if it has a marker, begins as an object, and is neither an empty object nor one with well-formed members within the nesting cap |
| Laws.BareStringPasses | routing.go:1078-1082 | the bare string `"_project"` has the marker, is no object, and is passed through unchanged |
| Hazards.ExpiryPanics | main.go:300-327 | with inline tokens, expiry on and room for one project, expiry and shutdown drain one pipeline twice |
| Hazards.ReloadPanics | routing.go:367-441 | with a keys file, inline tokens and room for two projects, a registration that loaded the table before a reload's store brings a drained pipeline back, and it is drained again |
| Hazards.KeysFilePostsAnonymously | routing.go:329-339 | with a keys file, inline tokens and room for one project, a schedule posts an event with an empty credential |
| Witnesses.TokenedNames | routing.go:1064-1264 | in every deployment `{"_project":"a","_token":"t"}` is routed to project `a` with token `t`, and likewise for any letter |
| Witnesses.PlainNames | routing.go:1064-1264 | in every deployment `{"_project":"a","x":1}` is routed to project `a` without a token, and what is left of it is accepted as an event |
| Deployments.DrainsExact | main.go:300-327 | in a deployed configuration no ordered run closes a closed channel if and only if tokens register nothing, or neither expiry nor a reload can meet a registered project |
| Deployments.CredentialsExact | routing.go:582-596 | in a deployed configuration every POST of every run has a credential if and only if a keys file and inline tokens are not combined or the default project fills the table |

## Left out

- Socket binding, buffer pools, read errors and back-off of the listener: operating-system calls; a datagram is a byte string of at most the buffer size.
- Reading the keys file (permissions, symbolic links, size, retry, parse errors): a poll takes a loaded map with the names and keys `routing.go:916-926` admits; a read that fails is no step.
- HTTP, TLS, timeouts and error texts of `postJSON`: an arbitrary outcome (delivered, retryable, fatal, cancelled).
- `encoding/json`: `json.Valid` is an arbitrary predicate assumed to accept JSON texts only; unescaping of keys and of routing values and UTF-8 validity are arbitrary functions.
- Clocks, timers, jitter and the grace period: when the timer fires, how the clock is rendered, whether a wait is interrupted and when a context is cancelled are free; jitter only scales a delay and is not modelled.
- Environment parsing, the health server, `/stats` snapshots, logging: flat checks and copying.
- 64-bit wrap-around of the counters: they are natural numbers.
- Concurrent pipelines and the registry as objects: the state machine and `Agents` hold pipelines as values in a sequence, so aliasing is not captured; two goroutines meet only through the steps of `Protocol`.
- How `lastSeen` is kept: the state machine lets expiry retire any set of published inline pipelines (a zero idle time disables it), and `Agents.Agent.ExpireInline` reads the times from a function.
- While a flush for size blocks, the event that caused it already counts as the first of the next batch; in the source it is a local variable of the loop until then.
- A store and the start of its drain goroutines are one step; a drain's own first action is a separate, later step.
- Fairness of the scheduler: shutdown is shown to have a step to take and to need boundedly many, not that it is given them; in `Agents` the waiting loop gives them.
- A registry before `install` (a nil table).
- Events.ValidateEvent: `hasTopLevelKey` is a search over the scanned members with an arbitrary key decoding, not the token loop of the standard decoder.
- Agents.Agent.ExpireInline: is called only where tokens are honoured, as `main.go:300` does.
- `bytes.TrimSpace` is modelled for text whose edges are ASCII, as those of a JSON object are.
- Tokens.ScanNumber: the final check for an empty number is unreachable in the code and is not repeated.
- Batching.Batcher.Flush: whether the flusher takes the batch or the context is done is read from a schedule; a nil context is the schedule that is never done.
- Registry.KeysUnchanged: compares pipelines by their keys in the model's sequence, as the source does through the table's pointers.
