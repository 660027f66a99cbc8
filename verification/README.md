# A verified model of the sync agent

The agent keeps JSON documents up to date with a customer's Postgres database. A document is one SQL query with its
parameter values bound; its name is a channel `db:<query>:<v1>:<v2>...`. The agent reads the database's logical
replication stream, works out which documents a row change may affect, runs their queries again and publishes the
results.

This project models the part of the agent where an update can be lost: the refetch engine (one mutex, a dirty set, a
queue of reverse-index lookups, a leased set of live channels, a wake channel of capacity one and two workers), the
channel names and validation rules the engine's keys rest on, and the replication reader (publication reconcile,
receive/handle/acknowledge loop, decoder, reconnect backoff). It proves that no interleaving, failure, retry or crash
loses a mark or a lookup a handled change asked for, and it determines exactly which changes are certain to be published
on a watched document. One kind is not: a change whose reverse index would lead to the document at the change and no
longer does when the lookup is read.

## How the model is laid out

| module | what it holds |
|---|---|
| `Lists`, `Spec`, `Values`, `ChannelCodec`, `Definitions` | definitions and their validation, value rendering, channel names, the engine's lookup tables |
| `EventMapping` | what one row change asks of the engine: marks and reverse-index lookups |
| `EngineCore`, `Units` | the engine's shared state, what each critical section does to it, and what a whole worker pass does |
| `EngineObject` | the `Engine` class: its methods, with their loops, end in the states of `EngineCore` and `Units` |
| `Protocol` | the engine as a transition system over those sections, with every party, failure and crash as a step |
| `ProtocolInvariants`, `ProtocolSteps` | the invariant and its preservation by every step |
| `Causes`, `Guarantees`, `Convergence`, `Lease`, `Coalescing` | what every step changes and why, and the theorems about runs |
| `Freshness`, `ReadPlan`, `Staleness` | exactly when a change is certain to be published, and the run that leaves a document behind |
| `System`, `WorkerRuns`, `EndToEnd` | validated definitions give protocol runs; the methods are such runs; a row change reaches its document |
| `Example` | one concrete definition, a run the theorems about lookups apply to, a stale one, and one over the cap |
| `Executor` | the cap on reverse-index results |
| `Publication`, `ReplicationStream`, `Backoff`, `Decoder` | the replication reader |
| `Agent`, `Pipeline`, `Delivery` | the watched tables as the publication; replication connections as a run of the protocol; from the wire to the doc |

Conventions:

- A change is a transaction of any number of row changes, and a database version is the number of changes committed. The
  handler is given changes of the committed history, so a change is visible before its events are handled; a read returns
  the version current at that step.
- `published` maps a channel to the version of the read behind what foony shows. A failed publish may or may not have
  been delivered. `owed` is bookkeeping: the version a document has to reach, raised when a change that affects it has
  been handled and when the channel becomes live or is warmed. `asked` does the same for lookup keys.
- What a reverse index holds may differ from version to version. A lookup is read at some version at or after the change
  that asked for it. What it holds then decides the answer: the rows if there are no more than the cap of the watch of the
  lookup that reads, a refusal otherwise. A read hits the channels the rows name, or when refused every doc of the query.
- The dedup key of a lookup holds neither the table nor the cap of its watch (internal/engine/engine.go:417-424), and a
  failed lookup is put back over a newer one of the same key (internal/engine/engine.go:465-471, 519-524), so any lookup
  the key has been asked with may be the one that reads. The theorems quantify over all of them.
- A poll reads the clock before it takes the lock (internal/engine/engine.go:192-193); Warm and Touch read it inside.
- A crash wipes the engine, the workers and the handler; the committed history, the confirmed replication position and
  what is published survive. `Boot` is the startup poll, before workers and reader start.
- The dedup key of a lookup is kept as its three parts (query, keysSql, arguments) instead of their formatted text.
- Strings are sequences of characters. Integers are unbounded except where 64-bit limits matter (placeholder numbers,
  rendered integers).
- A quiet step is one that needs no new input: not a commit, tick, acknowledgement, reconnect, crash, poll, warm or
  touch, and not a failing query or publish; an answer over the cap is one. A stuck state enables no quiet step.

Where the code differs from what its comments or an obvious reading promise, the model follows the code:

- `equalStringSets` (internal/cdc/reader.go:482-496) is not set equality on lists with duplicates: it answers equal on
  `["a", "b"]` and `["a", "a"]`. `EqualStringSetsExact` gives the exact condition, and `WatchedTables` meets it.
- The backoff starts at the configured wait without applying the cap, so the closed form min(R * 2^k, M) holds for all k
  if and only if R <= M (`ClosedForm`).
- Freshness through a reverse index is not absolute. The lookup runs with the change's arguments when a worker gets to it,
  and marks what the index returns then (internal/engine/engine.go:398-425, 447-494). If a later change has taken a
  document out of the index meanwhile, nothing marks it for the earlier one, unless the read is over the cap and falls back
  to all live documents of the query. `ShownExactly` gives the exact condition and `StaleExample` a run over a concrete
  definition: a row is inserted and deleted again before the lookup is read.
- The grace period of a lease (internal/engine/engine.go:26-30) is shorter by as much as a poll waits for the lock:
  `KeptWithinGrace` gives the rule and `SetBackByPoll` a run.
- The comment at internal/engine/engine.go:417-418 says `%#v` keeps differently typed arguments apart, but it prints an
  int32 and an int64 of one number alike, and a float64 that is a whole number like an integer. The model has one integer
  type, which merges the first two as the code does, and keeps floats apart from integers, which the code does not; the
  values of one argument come from one column and so have one type, null and unchanged TOAST values aside.
- Placeholders of a validated reverse index need not be `$1..$n`; then no lookup is ever queued (`ArgsExactly`).

## Model

| member | source | states |
|---|---|---|
| Guarantees.NoLostUpdate | internal/engine/engine.go:262-524 | In every reachable state, crashes and failures included, a handled change that marks a live channel is published, or the channel is dirty, or a worker has yet to read it, holds a read at least as new, or will requeue it. Every lookup a handled change asked for, however many changes share its key, is pending, or in a worker's hands, or was read at the change's version or later and every live channel hit then (a row, or over the cap any doc of the query) is published or on the way at that version |
| Guarantees.HitChannelReaches | internal/engine/engine.go:398-494 | Corollary: a live channel that every possible read since the change hits, by a row or over the cap of whichever lookup of the key reads, is itself published or on the way, or the lookup is pending or a worker is yet to mark that channel |
| Guarantees.NoLostWakeup | internal/engine/engine.go:283-314 | Takeable work never sits with all workers asleep and no token or signal on the way; for lookups the awake worker is one that has not passed its lookup scan |
| Guarantees.SingleFlight | internal/engine/engine.go:319-334 | No two workers ever hold the same doc or the same lookup, and the inflight marks are exactly the units held |
| Guarantees.PublishedForward | internal/engine/engine.go:338-368 | Over any run from any reachable state the version published on a channel never goes back, though publishes of re-dirtied, retried and un-leased docs interleave |
| Guarantees.EveryHeldChannelParses | internal/engine/engine.go:338-342 | In every reachable state each channel in dirty, inflight and live parses, so compute never takes its silent parse-error return |
| Guarantees.FinishedLookupCovers | internal/engine/engine.go:447-494 | A lookup about to finish either has its key pending again, or read the index at a version such that every live channel hit then is published, dirty or in refresh at that version |
| Guarantees.QueuedLookupsFit | internal/engine/engine.go:398-425 | In every reachable state what is queued under a key is a lookup of the key's query |
| Guarantees.OverCapMarksSuperset | internal/engine/engine.go:453-464 | When the cap refused the rows of a read, every live doc of the query, and so every live channel those rows name, is dirty afterwards and nothing is requeued |
| Guarantees.CrashThenBootHeals | internal/agent/agent.go:69-80 | After a crash in any reachable state, the startup poll makes every listed doc channel live and dirty and owing the newest version, acked or not, and the no-lost-update invariant holds again |
| Convergence.QuietStepDrops | internal/engine/engine.go:283-334 | Every step that needs no new input goes down in a lexicographic measure over pending changes and lookups, rows to mark, dirty channels, worker stages, signals, token and scans |
| Convergence.QuietRunsEnd | internal/engine/engine.go:283-334 | No infinite run is quiet from some point on, whatever the order in which workers and producers move |
| Convergence.StuckIsSettled | internal/engine/engine.go:283-314 | When no quiet step is left, both queues are empty, nothing is inflight, every change is handled, every worker sleeps and every live doc is published as new as it has to be |
| Convergence.EveryRunCanSettle | internal/engine/engine.go:283-368 | From every reachable running state some continuation without further input settles |
| Convergence.Converged | internal/engine/engine.go:262-494 | In a reachable stuck state every committed change that marks a live channel is published there, and every lookup asked for was read at the change's version or later with every live channel hit then published no older than that read |
| Convergence.HitChannelConverged | internal/engine/engine.go:398-494 | Corollary: there a live channel that every possible read since the change hits is published no older than the change |
| Causes.StepEffects | internal/engine/engine.go:191-571 | For every step but a crash, every channel and every lookup key: the exact reasons for which a doc is dirtied or cleaned, a lookup queued, a unit taken or given back, the token put or taken, a signal owed and a version published; nothing else changes any of them |
| EngineCore.ApplyOpsExactly | internal/engine/engine.go:262-314 | After the ops of an event the dirty docs are those before and those marked, each key holds the last lookup asked for, the token is there if there was an op, and nothing else has changed |
| Staleness.ShownExactly | internal/engine/engine.go:262-494 | For every history of valid changes and every channel: change i is published on the channel, if live, in every run that works the history off if and only if some change from i on marks the channel or asks for a key every possible read of which hits it at every version from that change to the end. A read hits by a row within the cap, or over it as any doc of the query, and any lookup asked with the key may be the one that reads |
| Freshness.HitSinceWithOneCap | internal/engine/engine.go:417-424 | If all watches that share a key share its cap, the condition is that the one lookup asked hits the channel at every version from the change to the end |
| Staleness.UnforcedIsStale | internal/engine/engine.go:398-494 | Otherwise there is a run that works everything off, each read returning or being refused what the index holds within or over the cap of the lookup that reads, and leaves the live channel at a version before the change |
| Staleness.DroppedBeforeRead | internal/engine/engine.go:398-494 | The smallest such case, for any key and channel: one change asks while the index holds the channel alone, the next empties it, and the settled engine shows version 0 |
| Staleness.OverCapForces | internal/engine/engine.go:453-464 | A change whose lookup is over the cap at every version since is always published on every live doc of the query, though the index may name it at none of them |
| EndToEnd.DeclaredWatches | internal/engine/engine.go:125-134 | Validated definitions build well-formed tables in which every declared watch watches its table, so the theorems below hold of them |
| EndToEnd.RowChangeReachesDoc | internal/engine/engine.go:262-279 | Over well-formed tables: once the change of a row is handled, the live doc named by the row's old or new column values shows it or is on the way to it |
| EndToEnd.SettledRowChangeIsPublished | internal/engine/engine.go:262-368 | And once nothing is left to do that doc is published from a read that saw the change |
| EndToEnd.TableChangeReachesDoc | internal/engine/engine.go:271-275 | Any change of a table watched without mapping, TRUNCATE included, reaches the query's one doc |
| EndToEnd.LookupChangeReachesDocs | internal/engine/engine.go:398-494 | For reverse-index watches: once the change is handled its lookup is pending or in a worker's hands, or was read at a version that includes the change and every live doc hit then is published or on the way at that version |
| EndToEnd.SettledLookupChangeIsPublished | internal/engine/engine.go:398-494 | And once nothing is left to do it was read at such a version and every live doc hit then is published no older |
| EndToEnd.SettledHitDocIsPublished | internal/engine/engine.go:398-494 | And a live doc that every possible read since the change hits is published from a read that saw it |
| EndToEnd.RowChangeShownExactly | internal/engine/engine.go:262-494 | The exact condition of `ShownExactly` for transactions of any number of row changes over well-formed tables, whatever rows their reverse indexes hold and whatever the caps of their watches |
| EndToEnd.LookupStateExists | internal/engine/engine.go:398-494 | For any declared reverse index, event that supplies it and rows it holds, over the cap or not, a reachable settled state meets the hypotheses of the theorems about lookups |
| Delivery.RowChangeIsDelivered | internal/agent/agent.go:203-215 | After the connections every row change the server sent in schema public and a watched table has reached the live doc of the values its old or new row carries in the watch's columns, at its transaction's version, and in every settled state it is published there |
| Delivery.TableChangeIsDelivered | internal/agent/agent.go:203-215 | The same for a watch without mapping and the query's one doc, for any change of the table, TRUNCATE included |
| Delivery.LookupChangeIsDelivered | internal/agent/agent.go:203-215 | The same for reverse-index watches: the lookup with the arguments that the new row supplies, or the old row without one, is pending, in hand or read late enough, and read late enough with its live docs published in every settled state |
| Delivery.MessageIsDelivered | internal/agent/agent.go:203-215 | From the wire to the doc, for validated definitions: after any sequence of dropped connections and one that brings the rest, a row message of a relation described as a watched public table, whose old or new text columns carry the watch's values, belongs to a transaction that the doc db:query:values, if live, shows or is on the way to, and shows in every settled state |
| Example.LookupExample | internal/spec/spec.go:36-50 | One concrete definition and event for which those hypotheses hold and the doc is published |
| Example.StaleExample | internal/engine/engine.go:398-425 | With the same definition a row is inserted, after which the lookup would hit a live doc, and deleted again: some run works both changes off and leaves the doc at the version before the insertion |
| Example.OverCapExample | internal/engine/engine.go:453-464 | With the same definition and more than 100 rows after the insertion and after the deletion, every run publishes the insertion on every doc the first rows name, whatever the second ones name |
| System.RowCommitsAreValid | internal/agent/config.go:65-74 | Definitions that pass validation under distinct names make every transaction one the protocol theorems cover: all marks and all index rows are parseable channels of the right query, and every lookup is of its key's query |
| System.RowKeyBindsColumns | internal/engine/engine.go:374-392 | The channel a row marks parses back to the watch's query with exactly the rendered column values, in placeholder order, which compute binds |
| System.ChannelNamesItsRun | internal/engine/engine.go:338-368 | For validated definitions the channel of a declared query and as many valid values as its text has parameters parses to exactly that text and those values |
| System.RowChannelsParse | internal/engine/engine.go:472-492 | Every channel a lookup marks parses, and the over-cap fallback of its query selects it |
| System.HandleEventIsARun | internal/engine/engine.go:262-279 | Handling one event without interruption is a run of the protocol that ends in the state `HandleEvent` ensures |
| System.RunLookupIsARun | internal/engine/engine.go:472-493 | Marking the returned rows without interruption is a run of the protocol that ends in the state `RunLookup` ensures |
| WorkerRuns.WorkerPassIsARun | internal/engine/engine.go:283-302 | In every reachable state, whatever unit a pass picks and however its publishes end, with the answer to a lookup what the index holds cut by the cap or an error, it is a run of the protocol that ends in the state `WorkerPass` ensures |
| WorkerRuns.LookupUnitIsARun | internal/engine/engine.go:285-289 | Taking, running and finishing a lookup, with rows, over the cap or failing, is such a run |
| WorkerRuns.DocUnitIsARun | internal/engine/engine.go:290-300 | Dropping cold channels, taking, computing and finishing a doc, publishing or failing, is such a run |
| Units.PassKeeps | internal/engine/engine.go:283-302 | A whole pass leaves the inflight marks and the live set as they were; a lookup or live doc is pending after its own unit only if the unit failed |
| EngineObject.Engine.constructor | internal/engine/engine.go:125-149 | The engine starts empty, over well-formed tables built from validated definitions |
| EngineObject.Engine.SyncLive | internal/engine/engine.go:191-220 | A poll leases exactly the parseable listed channels, drops expired unlisted leases only if complete, dirties exactly the listed channels that were not live, and signals exactly if there are any |
| EngineObject.Engine.KeepRecent | internal/engine/engine.go:195-202 | The leases a complete poll keeps are exactly those younger than the grace period |
| EngineObject.Engine.Warm | internal/engine/engine.go:225-235 | A parseable channel becomes live and dirty with a signal; any other is ignored |
| EngineObject.Engine.Touch | internal/engine/engine.go:241-256 | A live channel has its lease renewed and nothing else; a cold one becomes live and dirty with a signal |
| EngineObject.Engine.HandleEvent | internal/engine/engine.go:262-279 | The state after the marks and lookups of all watches of the table, in order, each signalled |
| EngineObject.Engine.MarkFromRow | internal/engine/engine.go:374-392 | If the row carries values in every mapped column, all of which render, exactly their doc is dirtied, with a signal; otherwise nothing changes |
| EngineObject.Engine.EnqueueLookup | internal/engine/engine.go:398-425 | If the new row, or the old row without one, supplies every argument slot from its own column, the lookup is queued under its dedup key with these arguments, with a signal; otherwise nothing changes |
| EngineObject.Engine.TakeLookup | internal/engine/engine.go:430-442 | Takes some pending lookup that is not running and marks it inflight; finds none only if there is none |
| EngineObject.Engine.RunLookup | internal/engine/engine.go:447-494 | Marks the channels of the returned rows up to the first of the wrong width; over the cap marks the query's live docs; on failure requeues the same key |
| EngineObject.Engine.MarkQueryLiveDirty | internal/engine/engine.go:555-571 | Marks and counts exactly the live channels the prefix test selects, and signals exactly if there are any |
| EngineObject.Engine.TakeDirty | internal/engine/engine.go:319-334 | Drops the cold channels it passes and takes a live one not inflight; on finding none it has dropped every dirty channel that is not inflight |
| EngineObject.Engine.Compute | internal/engine/engine.go:338-368 | Runs the text of the channel's query with the channel's segments bound in order; a failed read or publish dirties the channel again with a signal and nothing else changes |
| EngineObject.Engine.FinishDoc | internal/engine/engine.go:306-314 | Clears the mark and signals exactly if work is pending |
| EngineObject.Engine.WorkerPass | internal/engine/engine.go:283-302 | Lookups before docs; waits exactly if neither is takeable; leaves the state of the whole unit |
| Lease.LeaseStep | internal/engine/engine.go:191-256 | For every step and channel: live afterwards exactly if signalled by the step or already live and not expired by a complete poll; a signal sets the lease to the clock value its section was given, which for a poll was read before the lock, and nothing else changes it; a cold-to-live transition dirties in the same section |
| Lease.LeasesPastStep | internal/engine/engine.go:191-256 | Every step keeps that no lease lies in the future, a late poll's included, and time does not go back |
| Lease.KeptSince | internal/engine/engine.go:191-220 | Over whole runs a channel leased at some time or later is live until the grace period after it, with a lease no older, as long as every poll read its clock at that time or later |
| Lease.KeptWithinGrace | internal/engine/engine.go:26-30 | Over whole runs in which no poll waits longer than d between clock and lock, a channel signalled less than the grace period minus d ago is live with a lease at most d older than the signal; with d = 0 that is the whole grace period |
| Lease.SetBackByPoll | internal/engine/engine.go:191-256 | The grace period itself is not kept: a poll that read the clock before a touch and got the lock after it sets the lease back, and a later complete poll drops the channel though it was touched less than the grace period ago |
| Lease.LeaseStaysWithoutSignal | internal/engine/engine.go:90-95 | Over whole runs without a poll listing, warm or touch, events, lookups and publishes neither create nor extend a lease |
| Lease.DroppedAfterGrace | internal/engine/engine.go:191-220 | A complete poll at or past the grace period that does not list an unsignalled channel removes it, and it stays out until signalled |
| Coalescing.DocConservation | internal/engine/engine.go:319-334 | Over any run without a crash: computes started, plus drops of the cold channel, plus dirty now, equal dirty before plus clean-to-dirty transitions |
| Coalescing.LookupConservation | internal/engine/engine.go:419-442 | The same law per lookup key, without drops |
| Coalescing.MarksDuringComputeCoalesce | internal/engine/engine.go:496-501 | However often a doc is marked while it is being computed, it becomes dirty at most once, so at most one further compute follows |
| EventMapping.BoundedPlaceholdersAreNumbered | internal/engine/engine.go:406-416 | Pigeonhole: n distinct placeholders that pass the pattern and are numbered at most n are exactly $1..$n |
| EventMapping.FillArgs | internal/engine/engine.go:406-416 | In any iteration order of the map, success writes every argument slot exactly once with the column of its own placeholder, and failure means there are no arguments |
| EventMapping.ArgsExactly | internal/engine/engine.go:406-416 | Among valid placeholders there are arguments if and only if they are $1..$n and the row has every column |
| EventMapping.ArgsFill | internal/engine/engine.go:401-416 | The arguments of a row are exactly those in which every placeholder is a valid $i within their number and argument i is the row's value of its column |
| EventMapping.RowChannelsExactly | internal/engine/engine.go:472-493 | The channels a run marks are exactly those named by rows before the first of the wrong width whose values all render; a first row of the wrong width marks nothing |
| EventMapping.RowOpsExactly | internal/engine/engine.go:374-392 | A row is asked to mark a doc if and only if all mapped columns are present and render and it is the doc of these values; a null, missing or unrenderable column marks nothing |
| EventMapping.AskOpsExactly | internal/engine/engine.go:398-425 | An event asks for a reverse-index run if and only if its new row, or its old row without one, supplies the arguments |
| EventMapping.RefsOpsExactly | internal/engine/engine.go:262-279 | An event asks for an op if and only if some watch of its table does |
| EventMapping.EventOpsExactly | internal/engine/engine.go:262-279 | An event marks a doc if and only if a column watch of its table names it by the values of the old or new row, or a watch without mapping by itself, and asks for a lookup if and only if a reverse-index watch of its table is supplied with the arguments |
| ChannelCodec.ParseOfBuild | internal/engine/engine.go:588-622 | Printing a known query with as many valid values as it has parameters and parsing gives back the same query and values |
| ChannelCodec.BuildOfParse | internal/engine/engine.go:588-622 | A channel that parses is the print of what it parses to, which is a known query with valid values in the right number |
| ChannelCodec.ParsesExactly | internal/engine/engine.go:588-607 | A channel parses if and only if it is such a print |
| ChannelCodec.BuildInjective | internal/engine/engine.go:617-622 | Different queries or values never share a channel |
| ChannelCodec.PrefixSelectsQuery | internal/engine/engine.go:555-564 | Among parseable channels the equality-or-prefix test selects exactly those that parse to the named query |
| ChannelCodec.JoinOfSplit | internal/engine/engine.go:592-592 | Splitting at colons loses nothing |
| ChannelCodec.BuildSpelledOut | internal/engine/engine.go:617-622 | The text is db: and the name, then a colon and the value for each value in order |
| Definitions.ValidDefinitionsAreWellFormed | internal/agent/config.go:64-74 | Validated queries with distinct names give tables in which every watch names a known query, sits under its own table and fits its query's arity |
| Definitions.RefsAreDeclared | internal/engine/engine.go:128-134 | The tables hold a watch under a table if and only if a definition declares it for that table |
| Definitions.WatchedTables | internal/engine/engine.go:160-167 | The list holds exactly the bare names of the watched tables, each once, sorted, all of them identifiers |
| Lists.LessExactly | internal/engine/engine.go:160-167 | The order of the sorted list is lexicographic: at the first difference the smaller character or the end of the string comes first |
| Agent.PublishWatched | internal/agent/agent.go:165-190 | For validated definitions the reader's attempts publish exactly the watched tables that exist, or all tables if none is watched; one faultless attempt suffices and a publication already right draws no statement |
| Spec.ParamCount | internal/spec/spec.go:100-108 | The left-to-right pattern scan computes the parameter count |
| Spec.ParamCountIsHighest | internal/spec/spec.go:96-108 | Every referenced parameter that fits an int is at most the count, and a nonzero count is itself referenced |
| Spec.ValidatedWatchesFit | internal/spec/spec.go:120-140 | A query that passes validation has a valid name and watches each of which supplies one value per parameter or is a well-formed lookup |
| Spec.AcceptedQueries | internal/spec/spec.go:120-140 | A query is accepted if and only if its name is valid, its text is one reading statement with at most four parameters, and it has at most sixteen watches, each accepted |
| Spec.AcceptedWatches | internal/spec/spec.go:142-188 | A watch is accepted if and only if its table is an identifier and it is one of three mutually exclusive kinds, the reverse index being one reading statement with valid placeholders and cap |
| Spec.AcceptedSelects | internal/spec/spec.go:190-212 | SQL text is accepted if and only if, up to blanks and one semicolon around it, it is one statement that in lower case begins with select or with, holds no semicolon and has at most 8192 bytes |
| Values.FormatUuid | internal/engine/engine.go:659-669 | The builder loop computes the specified text |
| Values.IntRenders | internal/engine/engine.go:635-642 | Every 64-bit integer renders to a valid segment of at most 20 characters that is its decimal notation: a minus sign exactly if it is negative, then digits of its absolute value without a leading zero |
| Values.UuidRenders | internal/engine/engine.go:659-669 | Every 16-byte UUID renders to 36 characters, dashes at 8, 13, 18 and 23 and lowercase hex elsewhere, a valid segment in which the two digits of each byte, high one first, read back as the byte |
| Values.RendersExactly | internal/engine/engine.go:628-657 | A value has a segment if and only if it is an integer, boolean or UUID or text within the segment pattern, and the segment is its decimal notation, true or false, its UUID notation, or the text itself |
| Values.KeysRenderInjectively | internal/engine/engine.go:628-657 | Integers, booleans and UUIDs always render, and two of one type render alike only if equal |
| Executor.RunKeys | internal/engine/executor.go:119-140 | Returns all rows or an error, never a truncated set; too many keys exactly if more than the cap arrive and none before them fails to scan |
| Executor.KeysFor | internal/engine/engine.go:447-452 | A watch without its own cap is run with the default; rows returned are complete and within the cap, and a cursor that does not fail is answered with its rows or refused exactly as the cap says |
| Publication.EqualStringSets | internal/cdc/reader.go:482-496 | Equal exactly if the lengths agree and the second list's elements are among the first's |
| Publication.EqualStringSetsExact | internal/cdc/reader.go:482-496 | Against every duplicate-free list this is set equality if and only if the second list is duplicate-free too; a concrete failing pair |
| Publication.DuplicateFreeListsCompare | internal/cdc/reader.go:436-461 | On the two duplicate-free lists the reconcile compares, the test is set equality |
| Publication.IsSafeIdentifier | internal/cdc/reader.go:501-516 | The character loop accepts exactly the identifiers validation accepts |
| Publication.ResolveDesiredTables | internal/cdc/reader.go:333-374 | The configured tables that exist, each once; an error exactly if tables are configured and the query fails or none exists |
| Publication.SyncPublicationTables | internal/cdc/reader.go:436-461 | Success leaves exactly the desired tables; matching tables draw no statement; without auto-create nothing is issued |
| Publication.EnsurePublication | internal/cdc/reader.go:272-329 | From any shape: success means exactly the desired shape, failure leaves the old one, none or the desired one. The statements are a create where there is none, a new table list where both shapes are scoped, a drop and a create otherwise, or the first of these; a right shape draws none, and without auto-create none is ever issued |
| Publication.Reconcile | internal/cdc/reader.go:136-170 | Any sequence of attempts failing midway in any way, with tables coming and going, then one success, leaves exactly the shape desired then; one faultless attempt suffices with auto-create on or the shape already right; once right, nothing more is issued |
| ReplicationStream.Connection.StreamLoop | internal/cdc/reader.go:585-635 | The loop runs out of turns if and only if each is uncancelled, has no failing status to send, and times out or brings a message that decodes and is handled whole; otherwise it ends at the first that is not so, cancelled exactly if that one is. It logs exactly the messages received until then and a status for each turn that has one due, stands at the greatest position handled, and every status is safe |
| ReplicationStream.LoopEnds | internal/cdc/reader.go:585-635 | The same of the specification the loop is proved against: the turn it stops at, why, what it has logged and the position |
| ReplicationStream.LoopTallies | internal/cdc/reader.go:585-635 | The messages the loop logs are exactly those of the turns it takes, in order, and it sends a status exactly in the turns that find it due |
| ReplicationStream.LoopPosition | internal/cdc/reader.go:617-633 | The position it ends at is the larger of the start and the greatest position of a message handled whole; a message that fails to decode or is refused leaves it unchanged |
| ReplicationStream.LoopAccepts | internal/cdc/reader.go:617-633 | On every connection, however it ends, the events accepted are the first of those received, in order |
| ReplicationStream.Connection.HandleMessage | internal/cdc/reader.go:617-633 | Logs the message and accepts its events in order: all of them and the position becomes the larger of the two if it decodes and none is refused, else exactly those before the refused one and the position stays |
| ReplicationStream.Connection.SendStandbyStatus | internal/cdc/reader.go:637-642 | Acknowledges the position reached, with every message received so far handled |
| ReplicationStream.AcksNonDecreasing | internal/cdc/reader.go:585-642 | Acknowledged positions never go back on a connection and never precede its start |
| ReplicationStream.AckNeverPassesUnhandled | internal/cdc/reader.go:585-642 | As long as no message's position exceeds the commit of the transaction of this or a later message, which streamed transactions keep, no acknowledgement passes the commit of a transaction with a message still to come |
| ReplicationStream.ConfirmedWasHandled | internal/cdc/reader.go:518-533 | What the server has confirmed is the start or a position up to which everything received had been handled |
| ReplicationStream.Reconnects | internal/cdc/reader.go:136-257 | Each connection does what its turns ask from its start on with every status safe, the next one starts exactly at what the server has confirmed by then, and the start never goes back |
| Pipeline.EventsAreSent | internal/cdc/decoder.go:34-61 | When the messages are what the decoder makes of what the server sent, the events received are exactly those sent, in order |
| Pipeline.AckedWasAccepted | internal/cdc/reader.go:585-642 | When everything received is handled, every transaction that commits before the position reached has been accepted whole, so the server never skips one that was not |
| Pipeline.ConnectionIsARun | internal/agent/agent.go:203-215 | What happens on a connection is a run of the protocol: each accepted row change is handled as part of its transaction, and each status acknowledges exactly the transactions that commit before its position, all of them handled whole. `Delivery` says what handling a row change does |
| Pipeline.ConnectionsAreARun | internal/cdc/reader.go:136-257 | So is any sequence of connections, each dropped anywhere: before the next one the handler stands exactly at the transactions that commit before its start |
| Pipeline.ConnectionsDeliver | internal/cdc/reader.go:136-257 | Connection after connection, dropped anywhere and resumed from what the server has confirmed, until one on which every message left to send arrives and is handled: the protocol run over all of them ends with every transaction handled |
| Backoff.Start | internal/cdc/reader.go:136-186 | The wait after each failed cycle is the one after as many failures as there have been cycles since the last on which streaming began, or since the first, whatever mix of failures they were |
| Backoff.OneFailsSince | internal/cdc/reader.go:136-186 | That number of failures is unique, so the wait depends on nothing else |
| Backoff.DoubledWait | internal/cdc/reader.go:644-649 | The first wait is the configured one and each further one the smaller of twice the last and the cap |
| Backoff.ClosedForm | internal/cdc/reader.go:644-649 | That wait is min(R * 2^k, M) for every k if and only if R <= M |
| Decoder.ReadConnection | internal/cdc/decoder.go:63-142 | On one connection, dropped anywhere, the stream flag equals the server's framing at every message, and the events are exactly those the server sent, message by message as `EventsSentSay` has it |
| Decoder.ReadConnections | internal/cdc/reader.go:214-227 | A fresh decoder per connection makes that hold on every connection of any sequence of drops, mid stream included |
| Decoder.StreamDecoder.DecodeWal | internal/cdc/decoder.go:63-142 | One message: exactly the events it says under the relations known (an insert the new row, an update both, a delete the old one, a truncate one event per known relation, an unknown relation nothing), the relation table and the flag updated; a parse error changes nothing |
| Decoder.StreamDecoder.DecodeTuple | internal/cdc/decoder.go:144-172 | A row exactly if there is a tuple: text columns with their values under the relation's column names, null and unchanged columns as such, and no other column |
| Decoder.RowYieldsOneEvent | internal/cdc/decoder.go:72-112 | A row message of an announced relation adds exactly one event, named by the latest description sent, of the message's operation, with exactly the columns of the old and new tuple it carries |
| Decoder.EventsSentSay | internal/cdc/decoder.go:63-142 | Each message adds exactly the events it says under the relations described before it, in terms of its tuples |
| Decoder.StreamOpenExactly | internal/cdc/decoder.go:134-138 | The stream flag is set exactly after a stream start that no stream stop has followed |
| Decoder.TruncateYieldsOnePerRelation | internal/cdc/decoder.go:114-125 | A truncate of announced relations yields one truncate event without rows per listed relation, in order, none dropped |

## Left out

- Text that is not valid UTF-8.
- `RunDoc`'s cursor, size limit and JSON, SQL execution, the connection pool and timeouts: a read is a step that
  returns the current version or fails.
- Parsing of replication messages from bytes; the decoder is given parsed messages, and an arbitrary misreading when its
  flag disagrees with the framing.
- The HTTP client, realtime listener, heartbeats, slot-lag valve, detached status, logging and the skipped-value counter.
- The length of the retry pause and shutdown: a pause is a step, and nothing is claimed about workers stopping.
- Wall-clock pacing, fairness and parallel speed: time is a non-decreasing number that steps may advance.
- Streamed in-progress transactions in the freshness theorems and in `Pipeline`: their events can arrive before commit.
  They are covered by the theorems of `Decoder` and `ReplicationStream`.
- Rows that name no doc: TRUNCATE carries no row, and a row with a missing column or an unrenderable value derives no
  key. Freshness is stated for the changes that map to a channel.
- Guarantees.PublishedForward: a failed publish is delivered when it fails or never, and one in flight at a crash before the
  crash or never. A request that times out and lands after the retry's publish could take a doc back, so this and
  freshness rest on the client not delivering late.
- Mixed-case table names and schemas other than public in publications; publication changes made by others.
- Replication slot creation and the retry while the slot is busy: one setup step that succeeds or fails.
- Overflow of Go durations in the doubled backoff.
- EngineObject.Engine.WorkerPass: the method runs alone; interleavings are the subject of `Protocol`, and
  `WorkerPassIsARun` ties the two.
- Guarantees.OverCapMarksSuperset: says which live channels are marked; a channel that becomes live later is recomputed by
  the transition that makes it live.
- A reverse index that returns rows of the wrong width: the run ends there with a log line and is not retried, so freshness
  through lookups is relative to the channels a run marks (`RowChannelsExactly` says which).
