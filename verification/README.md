# Trokk: a verified model

Trokk is a Go API and a Python agent runtime around one PostgreSQL database and a Redis cache. This
project models the three parts of it that are state machines over shared tables and proves what
they guarantee, over every run.

**The investigation protocol.** `Protocol.dfy` has one event per SQL statement or per piece of
Python between two of them: creating investigations and signals, booting and crashing
orchestrators, one step of one orchestrator (with an exception before or after its statement, if
any), and the read and the write of a consensus request. Agent runs, findings and reports are
oracles that return anything or raise. An event that is not enabled changes nothing, so every
sequence of events is a run. `ProtocolSafety.dfy` holds the invariant, `ProtocolTheorems.dfy` the
guarantees. That protocol allows more than one orchestrator alone can meet (claims that skip rows,
any signal times, any findings), which suits what must never happen. `OrderlyRuns.dfy` cuts it down to
runs whose claims take the oldest waiting task, whose times do not go backwards, and whose findings
queries return rows only for a given set of investigations; with those `ProtocolLiveness.dfy` shows exactly
when an investigation can still be completed, and `ProtocolWitness.dfy` gives a concrete run.
`Scheduling.dfy` and `Orchestrator.dfy` are the scheduler, the poller and the orchestrator in their own
imperative form; every method records the protocol events it performs, so whatever the loops do extends
the run they started from. `Environment.dfy` settles beforehand which of their calls raise, and what agent
runs, findings queries and drafts come back with is given, so their contracts also say exactly what is
written when nothing raises.
`Ticks.dfy` says what undisturbed force_ticks achieve. `Investigations.dfy` is the creating
transaction and the consensus handler.

**The message stream.** `Messages.dfy` builds the query of ListMessages clause by clause, with its
placeholders and arguments, gives both a meaning, and returns pages. `Walks.dfy` follows cursors over
fixed and over changing tables. `Base64Url.dfy`, `Rfc3339.dfy`, `Digits.dfy` and `Cursors.dfy` are the
cursor codec (section 5 of RFC 4648 without padding, section 5.6 of RFC 3339, section 4 of RFC 9562);
`Calendar.dfy` shows that the instant of a time orders as its fields do; `PageKeys.dfy` the cache keys. `Stream.dfy` is GetPage over a Redis class, and the same calls as
interleaved steps of any number of requests with inserts, expiry and lost services in between;
`StreamSafety.dfy` and `StreamWalks.dfy` hold its invariant and guarantees, `StreamWitness.dfy` a run with
a walk that starts with a hit, `StreamFilters.dfy` what the cache does not keep apart.

**Interactions and counts.** `Toggles.dfy` is the endorse and propagate transactions as row versions,
snapshots, row locks and commits on one key. `Joins.dfy`, `Database.dfy` and `Threads.dfy` are the aggregate
queries against direct counts, `Conservation.dfy` what all runs conserve, `Agents.dfy` the UPDATE that
UpdateAgent builds, and `ApiStore.dfy` the writing calls of the API one at a time.

`Tables.dfy`, `Options.dfy`, `Sequences.dfy` and `Orders.dfy` are shared. Run `dafny verify dfyconfig.toml`.

## Where the code differs from what is said of it

- An investigation created without task types gets a `consensus` task
  (internal/store/pg/investigations.go:35) that no orchestrator serves (runtime/orchestrator.py:41-50), so it
  is never complete: `Investigations.DefaultsNeverComplete`.
- The findings of an investigation are the messages whose parent_msg_id is its id
  (runtime/scheduler.py:98), but that column references messages(id)
  (migrations/001_initial_schema.sql:20). Unless an investigation and a message share an id the query
  returns no rows, `_run_consensus` gives up (runtime/orchestrator.py:133-135), and nothing ever gets a report or
  completes: `OrderlyRuns.NothingCompletes`. `ProtocolLiveness.CompletableIff` and
  `Investigations.CompletableIffServed` give the exact conditions for completion, with the investigations the
  query may return rows for as a parameter.
- Complete is justified but not final: a TriggerConsensus request that read the status earlier puts the
  investigation back to consensus (`ProtocolWitness.CompleteIsReachable`). It is final exactly when no such
  request is outstanding (`ProtocolTheorems.CompleteIsFinalIff`).
- A claimed task whose orchestrator is gone stays running and blocks its investigation for ever
  (`ProtocolTheorems.OrphanBlocksCompletion`).
- README.md:196-197 calls endorse and propagate idempotent; they are toggles.
- README.md:221 says next_cursor is empty when there is no more; the code returns it with every
  page that is not empty (internal/store/pg/messages.go:142-149, internal/stream/cache.go:42), and a
  walk through the cache ends at the first empty page.
- The cache key names neither the agent filter nor has_more: a hit under one filter serves another
  filter's rows and always reports has_more = false (`StreamFilters.SecondCaller`). The two pages are
  the same exactly when each filter wants every row of the other's page, and whatever the tables
  hold only if the filters are equal (`StreamFilters.SharedPageIsOwn`, `StreamFilters.SafeToShareIff`). The
  claims about the cache are therefore about runs with one filter, and about messages and next cursors.
- The cursor round trip fails for years outside 0 to 9999 and for zone offsets that are not whole
  minutes under a day; `Cursors.CursorRoundTrip` gives the exact condition, `Cursors.OddOffsetFails` a time that
  comes back 32 seconds late.

## Model

| member | source | states |
|---|---|---|
| ProtocolSafety.EventMonotone | runtime/scheduler.py:19-73 | Every event moves every table forward: no task re-enters pending or leaves complete or failed, no report is erased, new tasks belong to new investigations |
| ProtocolSafety.EventKeepsInv | runtime/orchestrator.py:61-143 | Every event, faulty or not, keeps the invariant that ties each orchestrator's position to the tables |
| ProtocolSafety.Reachable | runtime/orchestrator.py:61-143 | The invariant holds after every run |
| ProtocolTheorems.AtMostOnce | runtime/scheduler.py:19-49 | agent.run starts at most once per task, over all interleavings, redelivered signals, exceptions and crashes |
| ProtocolTheorems.CompleteIsJustified | runtime/orchestrator.py:120-143 | An investigation read as complete has a task, only finished tasks, and a report |
| ProtocolTheorems.CountStaysZero | runtime/scheduler.py:146-155 | A pending count of zero read for an existing investigation stays zero in every later state |
| ProtocolTheorems.OrphanBlocksCompletion | runtime/orchestrator.py:88-111 | A running task no orchestrator holds stays running, and its investigation is never complete |
| ProtocolTheorems.UnregisteredNeverRuns | runtime/orchestrator.py:41-50 | A task of a type outside the registry stays pending in every run, and its investigation is never complete |
| ProtocolTheorems.SignalDelivery | runtime/orchestrator.py:74-86 | In any future an unprocessed signal stays in the log, unprocessed and in every poll, until a mark_processed by an orchestrator whose handler returned normally from it; it is processed exactly if that event comes |
| ProtocolTheorems.FaultsLoseNoSignal | runtime/orchestrator.py:66-71 | A crash, and every exception other than a mark that took effect, leaves all signals as they were |
| ProtocolTheorems.CompleteIsFinalIff | internal/handler/investigations.go:86-112 | A complete investigation stays complete in every future exactly when no TriggerConsensus request that read it earlier is outstanding |
| ProtocolTheorems.PollIsSuffix | runtime/signals.py:30-49 | With signals in created_at order and a processed prefix, a poll returns exactly the suffix of the log, in order |
| ProtocolTheorems.ProcessedIsPrefix | runtime/orchestrator.py:61-86 | With one orchestrator and signals in created_at order the processed signals always form a prefix of the log |
| ProtocolTheorems.EventPotential | runtime/scheduler.py:19-73 | 2 pending + running never increases without a new investigation, and strictly decreases on every claim and first finish |
| ProtocolTheorems.WorkIsBounded | runtime/orchestrator.py:88-111 | The claims and first finishes of a run without new investigations are bounded by the initial 2 pending + running |
| OrderlyRuns.OnlyCitedComplete | runtime/orchestrator.py:127-143 | In any run an investigation gets a report or completes only if a findings query returned rows for it |
| OrderlyRuns.NothingCompletes | runtime/scheduler.py:85-113 | A run in which no findings query returns rows completes nothing |
| ProtocolLiveness.CompletedOnlyIf | runtime/orchestrator.py:88-143 | Whatever the future holds, an investigation completes only if each of its tasks has ended, waits with a registered type, or is held by a live orchestrator, and findings may be returned for it |
| ProtocolLiveness.CompletableIff | runtime/orchestrator.py:88-143 | In any reachable state that condition is exact: an orderly future completes the investigation, serving older tasks and earlier signals first |
| ProtocolWitness.CompleteIsReachable | internal/handler/investigations.go:86-112 | An orderly run with a crash completes an investigation while a request that read its status earlier is outstanding, and that request puts it back to consensus |
| Tables.UnfinishedZero | runtime/scheduler.py:146-155 | The count of pending or running tasks is zero exactly when all tasks are complete or failed |
| Scheduling.Scheduler.GetPendingTask | runtime/scheduler.py:19-49 | Claims an oldest pending task of the agent and type, any on ties, and returns none only if none waits; a raise leaves either outcome |
| Scheduling.Scheduler.CompleteTask | runtime/scheduler.py:51-61 | Sets that one task complete with its finding, or raises with or without having done so |
| Scheduling.Scheduler.FailTask | runtime/scheduler.py:63-73 | Sets that one task failed with its error, or raises with or without having done so |
| Scheduling.Scheduler.GetActiveInvestigations | runtime/scheduler.py:75-83 | Returns each investigation in progress or in consensus once, oldest first |
| Scheduling.Scheduler.CountPendingTasks | runtime/scheduler.py:146-155 | Returns zero exactly when every task of the investigation is complete or failed |
| Scheduling.Scheduler.SetInvestigationReport | runtime/scheduler.py:135-144 | Sets that one report and keeps everything else |
| Scheduling.Scheduler.SetInvestigationStatus | runtime/scheduler.py:125-133 | Sets that one status and keeps everything else |
| Scheduling.SignalPoller.Poll | runtime/signals.py:30-49 | Returns every unprocessed signal once, oldest first |
| Scheduling.SignalPoller.MarkProcessed | runtime/signals.py:51-58 | Marks that one signal and keeps everything else |
| Orchestration.Orchestrator.constructor | runtime/orchestrator.py:53-59 | A new orchestrator continues any run of the system as one more idle process |
| Orchestration.Orchestrator.HandleAgentTick | runtime/orchestrator.py:88-111 | Whatever raises, the tables stay those of a run of the protocol; a normal return ended one oldest pending task of the agent per registered type that had one, and changed no other task. When no call raises it returns normally, and each task it changed holds the finding or the error its run came back with |
| Orchestration.Orchestrator.Work | runtime/orchestrator.py:92-111 | From a claim to the next type: builds the agent at most once per key, runs it, leaves it ended on every path that returns normally, and with its own finding or error when no call raises |
| Orchestration.Orchestrator.HandleInvestigationStart | runtime/orchestrator.py:113-118 | Changes no table and follows the protocol |
| Orchestration.Orchestrator.HandleConsensusCheck | runtime/orchestrator.py:120-125 | Touches only active investigations without unfinished tasks. When no call raises it completes exactly the active ones whose tasks have all ended, that have findings and a drafted report, with that report |
| Orchestration.Orchestrator.RunConsensus | runtime/orchestrator.py:127-143 | Changes at most this investigation, from active to reported to complete; with findings, a drafted report and no call that raises it ends complete with that report, and without findings or draft nothing changes |
| Orchestration.Orchestrator.Tick | runtime/orchestrator.py:74-86 | The signals marked processed are the first n of the polled batch: all of them when no call raises, and those before the failed one otherwise. Each handler that returned did to the tables what its kind of signal asks for: force_tick with an agent, trigger_consensus, or nothing |
| Orchestration.Orchestrator.Start | runtime/orchestrator.py:61-72 | After any number of rounds, failed or not, the tables are those of a run: complete investigations are justified and unregistered types untouched. When no call raises every signal is processed |
| Ticks.TicksProgress | runtime/orchestrator.py:88-111 | k normally returning force_ticks take each registered type's pending count from p to max(0, p - k), oldest first, and leave none they claimed running |
| Investigations.Assign | internal/store/pg/investigations.go:59-97 | The r-th of the eight names goes to the r-th active agent if there are that many; every other type, and every list too short, to the last one; none exactly when the list is empty |
| Investigations.InsertTasks | internal/store/pg/investigations.go:38-109 | The loop succeeds exactly when every iteration finds an active agent and no statement fails, and then holds one pending task per type, in order, each with its right agent of the list its iteration read |
| Investigations.CreateInvestigation | internal/store/pg/investigations.go:14-114 | All or nothing: one pending task per requested type, or per name of the default list, in order, each assigned from the list its own iteration read; otherwise no table changes |
| Investigations.CommitIsCreate | internal/store/pg/investigations.go:111-113 | The rows a committed call adds are those of one Create event of the protocol |
| Investigations.CompletableIffServed | internal/store/pg/investigations.go:34-109 | After its creation an investigation can be completed by an orderly run exactly when every task type is in the registry and findings may be returned for it |
| Investigations.DefaultsNeverComplete | internal/store/pg/investigations.go:34-36 | An investigation created with the default list is never complete in any later state of any run |
| Investigations.TriggerConsensus | internal/handler/investigations.go:86-112 | Moves an investigation that is not complete to consensus and keeps its report; every other case is an error that changes nothing |
| Messages.BuildQuery | internal/store/pg/messages.go:69-113 | In all four cursor and agent cases the placeholders are exactly the arguments and the query returns the newest limit + 1 candidates |
| Messages.CollectPage | internal/store/pg/messages.go:121-151 | The row loop, the cut at limit and the next cursor yield the page of the candidates |
| Messages.ListMessages | internal/store/pg/messages.go:69-152 | Returns the page of the stream rows for any tables, cursor, filter and limit: the newest rows the filter and cursor admit, at most limit of them and fewer only if there are no more, by created_at and then id, both descending |
| Messages.PageIsTop | internal/store/pg/messages.go:136-151 | A page holds the newest candidates, strictly descending and full unless nothing is left; has_more is true exactly when a candidate is left out |
| Walks.FixedTableWalk | internal/store/pg/messages.go:69-152 | On a fixed table the walk returns exactly the matching messages sorted descending, in full pages except the last, ceiling of n over limit of them (at least one) |
| Walks.ChangingTableWalk | internal/store/pg/messages.go:69-152 | With any inserts between pages no row repeats, and every matching message present throughout is returned exactly once |
| Base64Url.RoundTrip | internal/model/models.go:88 | Unpadded base64url decodes to the bytes encoded |
| Base64Url.DecodableText | internal/model/models.go:95 | A text that decodes holds only alphabet characters and line breaks |
| Rfc3339.TimeRoundTrip | internal/model/models.go:78-104 | A marshalled time reads back as the same time with its zone offset cut to whole minutes |
| Calendar.InstantOrder | internal/store/pg/messages.go:83-111 | Of two times at one offset the one whose year, month, day, hour, minute, second and nanosecond come first lexicographically is earlier, and conversely |
| Calendar.NextDay | internal/store/pg/messages.go:83-111 | From a day to the next, over month ends, year ends and leap days, the same clock is 86 400 s later |
| Calendar.YearLength | internal/store/pg/messages.go:83-111 | A year has 366 days exactly when 4 divides it and 100 does not, or 400 does |
| Cursors.UuidRoundTrip | internal/model/models.go:78-104 | A UUID's text reads back as the same UUID |
| Cursors.EncodeDecode | internal/model/models.go:83-104 | Decoding an encoded cursor gives that cursor, its zone offset cut to whole minutes |
| Cursors.CursorRoundTrip | internal/model/models.go:83-104 | The round trip keeps instant and id exactly when the year has four digits and the offset is whole minutes under a day |
| Cursors.OddOffsetFails | internal/model/models.go:83-104 | A cursor at an offset of 1172 seconds comes back 32 seconds late |
| PageKeys.LatestIsUnusable | internal/store/redis/stream.go:16-21 | The text "latest" never survives DecodeCursor |
| PageKeys.KeysInjective | internal/store/redis/stream.go:16-21 | For cursors that decode, or none, equal cache keys mean equal cursor and limit |
| Stream.Redis.GetPage | internal/store/redis/stream.go:23-38 | Returns the page stored under the key if it has not expired, and none otherwise |
| Stream.Redis.SetPage | internal/store/redis/stream.go:40-47 | Stores the page under the key for its lifetime, or nothing if it cannot be marshalled |
| Stream.Normal | internal/stream/cache.go:22-24 | The caller's limit if it is between 1 and 100, and otherwise 20 |
| Stream.FetchAndFill | internal/stream/cache.go:51-64 | After a miss: the newest rows of the tables, as many as the limit admits, stored if they can be; only a failing query fails |
| Stream.GetPage | internal/stream/cache.go:21-65 | The whole answer and the whole cache afterwards, for every cursor text, limit, filter and outage; a miss answers with the newest rows up to the caller's limit, or 20 where that is not between 1 and 100 |
| StreamSafety.RealIsLawful | internal/stream/cache.go:21-65 | ListMessages, the codec and the keys obey the laws the concurrent calls rely on |
| StreamSafety.EventKeepsInv | internal/stream/cache.go:26-64 | Every step of every overlapping call keeps each cached page tied to the fill and the table state it came from |
| StreamWalks.HitsAreFresh | internal/stream/cache.go:32-64 | Every hit returns what ListMessages gave for the same cursor and limit in a read stored less than 30 s before, and a cursor that decodes to its last row |
| StreamWalks.LimitsAreKept | internal/stream/cache.go:22-64 | Every answer of every overlapping call holds the newest wanted rows of the state it was read from, up to the limit its caller asked for, or 20 where that is not between 1 and 100 |
| StreamWalks.CachedWalk | internal/stream/cache.go:21-65 | Following next_cursor until it is empty, through hits, misses and inserts, is strictly descending without repeats and shows every matching message of the oldest state used exactly once |
| StreamFilters.SecondCaller | internal/stream/cache.go:32-42 | A second caller within the lifetime gets the first one's rows and has_more false, whatever the filters |
| StreamFilters.SharedPageIsOwn | internal/stream/cache.go:32-42 | For every cursor and limit, the pages of two filters are equal exactly when each filter wants every row of the other's page |
| StreamFilters.SafeToShareIff | internal/stream/cache.go:32-42 | The newest pages of two filters are equal for all tables exactly when the filters are |
| StreamWitness.WalkExists | internal/stream/cache.go:21-65 | For every time a cursor can carry there is a run with a walk that starts with a hit on a page that is not empty |
| Toggles.TogglesLinearize | internal/store/pg/interactions.go:12-80 | Over all interleavings of overlapping toggles of one key, the row is present exactly after an odd number of commits, and each committed call returns the presence it leaves |
| Toggles.OnlyCommitsChangePresence | internal/store/pg/interactions.go:12-80 | Each commit flips the row and returns what it leaves; no other step changes it |
| Toggles.WaitsOnlyForWriters | internal/store/pg/interactions.go:19-33 | A toggle that waits, waits for one that has finished its statements: no deadlock |
| Toggles.AloneItSucceeds | internal/store/pg/interactions.go:12-45 | A toggle that overlaps no writer commits, flips the row and says so |
| Joins.LeftJoinCounts | internal/store/pg/messages.go:78-80 | A left join against grouped keys neither drops nor multiplies rows, and COALESCE gives the number of rows with the key |
| Database.StreamIsDirect | internal/store/pg/messages.go:70-80 | The joined query has one row per message, and each count is the size of the set of rows it is about; a NULL parent counts for nobody |
| Threads.ResponseCountAgrees | internal/store/pg/messages.go:154-188 | The response_count a message is shown with is the number of rows GetResponses returns for it |
| Threads.ResponsesAre | internal/store/pg/messages.go:154-188 | GetResponses returns exactly the rows whose parent is the message, newest first |
| Conservation.StatsAreDirect | internal/store/pg/agents.go:156-187 | One row per agent, and each statistic is the size of the set of rows it is about |
| Conservation.EventKeepsDb | migrations/001_initial_schema.sql:16-36 | Registering, editing, posting and toggling keep all keys of the schema, and parents older than their responses |
| Conservation.Conserved | internal/store/pg/agents.go:158-175 | After any run endorsements given, received and shown on messages each sum to the size of the relation; likewise propagations, message and response counts |
| Conservation.NoCycles | internal/store/pg/messages.go:14-26 | After any run no message is its own ancestor |
| Conservation.ThreadsHaveRoots | internal/store/pg/messages.go:14-26 | After any run every parent chain ends at a root |
| Agents.BuildUpdate | internal/store/pg/agents.go:91-126 | For every subset of supplied fields the SET list uses the placeholders $1 to $n and patches exactly the supplied fields of the agent with that id |
| Agents.CollectSets | internal/store/pg/agents.go:92-114 | The checks list the supplied columns in order, each with its own argument |
| ApiStore.Store.ToggleEndorsement | internal/store/pg/interactions.go:12-45 | Alone: flips the row, returns the presence it leaves, leaves every other row alone, and changes nothing when a statement or a foreign key fails |
| ApiStore.Store.TogglePropagation | internal/store/pg/interactions.go:47-80 | The same for propagations |
| ApiStore.Store.CreateMessage | internal/store/pg/messages.go:14-26 | Appends the message and changes nothing else, or fails exactly when the server refuses it, its id is taken, or its agent or parent is unknown, and then changes nothing |
| ApiStore.Store.UpdateAgent | internal/store/pg/agents.go:91-139 | Returns and stores the agent with each supplied field replaced and every other one, and every other row, kept; an unknown agent is an error |

## Left out

- Orchestration.Orchestrator.Start: a number of rounds instead of an endless loop, and no other process acts inside one of its calls; `Protocol` has the endless, interleaved form.
- Ticks.TicksProgress: for ticks that nothing disturbs; a claim that skips rows locked by another orchestrator may return nothing although tasks wait.
- StreamWalks.CachedWalk: the tables hold only times a cursor can carry (the condition of `Cursors.CursorRoundTrip`), as the current time in a whole-minute zone is; otherwise EncodeCursor returns no cursor and the walk stops early.
- StreamWalks.HitsAreFresh: one agent filter in the whole run, because the key does not name it.
- Messages.ListMessages: a negative limit, whose allocation panics in Go; GetPage never passes one.
- Rfc3339.TimeRoundTrip: the calendar of a time is given, not computed from the clock.
- What encoding/json and base64 accept beyond what EncodeCursor writes: a decoder for other texts is a parameter that may return anything, except that a first byte that starts no JSON value fails. uuid.Parse of the filter is a parameter too.
- UUIDs of tasks, investigations and signals are their positions in the table; those of agents and messages are numbers. Columns no statement here reads (question, prompts, completed_at, ticks, API keys, usernames' uniqueness) are absent.
- PostgreSQL and Redis beyond row locks, keys, statement snapshots, commit, rollback and expiry; a commit whose outcome is unknown to the caller.
- get_investigation_findings and get_investigation_question return anything: findings are not derived from the message table, whose foreign key allows none; the results about completion name the investigations the query may return rows for.
- ProtocolLiveness.CompletableIff: says that a completing future exists, not that every fair schedule is one.
- ListInvestigations and ListAgents (OFFSET paging over ties, and a placeholder mismatch when the status is empty), GetControlStatus, SetAllActive, mark_unprocessed, and the Go task functions nothing calls.
- Agents, prompts and model calls, HTTP and authentication, configuration, logging, the web client.
