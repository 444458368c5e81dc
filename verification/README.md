# Istos: verified models of the framework's stateful cores

Istos is a brokerless Python framework for services, work queues, durable handlers and agents on a
publish/subscribe mesh. This project models the parts of it whose correctness is hard to see from
one function, and proves what they promise over every input, every run and every interleaving.

| module | what it models |
|---|---|
| `Options` | Python's optional values |
| `Names`, `Cycles` | the search for dependency cycles between components (Tarjan's algorithm) |
| `Calendar`, `Cron` | cron expressions and the jump search for the next firing, on the Gregorian calendar |
| `JobTable`, `JobHistory` | one queue's jobs as a plain table changed by events, and what holds over all histories |
| `QueueEffects` | what each queue operation does to the table, field by field |
| `Heaps`, `QueueDisk`, `QueueStores`, `Recovery` | the heap-backed, write-through queue store as a class, refining that table, with a crash possible after each storage write |
| `Chords` | the chord barrier of a queue |
| `Workflows` | chains across queues, with workers, owners and a network that delays, repeats and loses |
| `Election` | owner election between replicas from liveliness events |
| `Ledger`, `SqlLedger` | the exactly-once ledger: abstract, in memory, Redis scripts, and SQL statements interleaved with the handler protocol |
| `Approval`, `Transcript`, `Agents` | human approval of tools, the agent loops' transcript, and the handoff graph |
| `Depends` | dependency resolution with cache and cycle detection |
| `RateLimit`, `RecentUse`, `Dedup` | the token bucket with eviction, and the subscriber's deduplication window |

`QueueStores` is the centre. The class has the source's fields (table, id set, four lazily cleaned
heaps, counter) and the storage it writes through to. Its ghost field `history` lists the events the
storage shows; `Valid` ties table, heaps, storage and history together; every operation is specified
by what it does to the table and the history, and by `CrashSafe`: a crash after any of its single
writes leaves a storage from which `Load` recovers the table of a legal history. What holds over
whole runs, crashes included, is then proved once about legal histories (`JobHistory`, `Recovery`).

Where an operation and its contract refer to the same function, what that function means is stated a
second time without it: field by field for one call (`QueueEffects`, and predicates such as `DecidedAs`,
`Records`, `ReportEffect` or `AdmitEffect`, which no operation uses), and as laws over runs
(`JobHistory.RecordTraced`, `Ledger.RedisClaimLasts`, `Approval.InvocationTraced`,
`Calendar.WeekdayGoesRound`).

## What the proofs assume

- Each operation under a lock is one atomic step with one clock reading, and readings never run
  back. `claim` reads its clock before taking the lock and `add` and `nack` read theirs inside it;
  the test for stale heap entries is safe only if that does not reorder them.
- `max_attempts` is at least 1 (the queue does not check it) and every id drawn is new.
- Storage writes succeed; only the point of a crash varies.
- A heap is the multiset of its entries with a pop of a least one. The retry delay, and so the
  backoff with its jitter, is any real.
- Times, token counts and rates are reals. Redis is given a lease of at least one millisecond, as
  its `PX` option demands.
- For `SqlLedger`: the payload is opaque, and each claimed execution settles before its recorded
  lease lapses, with its mark succeeding.

## What the code does not promise

- A chain can disappear without being finished: when a dead letter of the furthest step it has
  reached outlives the dead-letter time to live. `Workflows.ChainNeverLost` shows that this is the
  only way, and `Workflows.DeadLettersDecide` that it can happen exactly if some queue has such a
  time to live.
- The Redis mark script overwrites an untagged result left by an older version, so the first result
  does not win for such records, and does for all others (`Ledger.MarkKeepsFirst`,
  `Ledger.OldResultReplaced`).
- The SQL mark is two statements. If a new claim lands between them its result is dropped, and only
  then (`SqlLedger.MarkStatementsRefine`). `SqlLedger.LateMarkIsDropped` is such a run, with a call
  whose lease lapsed; in a timely run no mark gets to its second statement
  (`SqlLedger.TimelyMarksLand`).
- Two owner replicas can be active at once (`Election.TwoOwnersWhilePending`), but only while the
  news of the lower one is still on its way to the higher one (`Election.TwoOwnersNeedNews`).
- `next_after` fails exactly for expressions in which only the day of the month is restricted and no
  month named ever has such a day; the eight-year horizon never cuts off a possible firing.
- `build_registry` registers every agent in the handoff graph's reach exactly if their names are
  distinct, and every agent a run can become exactly if its traversal, which takes the last handoff
  first, passes over none of them. Otherwise the startup check without a gate can let a run come to a
  gated tool, exactly if the traversal passes over an agent on the way to one
  (`Agents.CheckWithoutGate`; `Agents.SharedNameHidesAgent` is such a run).
- A handoff that shares its transfer tool with a later one of the same agent is never offered, as
  names are reduced to letters, digits, dashes and underscores (`Agents.AllOffered`).
- A dead letter stamped with time zero is never purged, since the stamp is tested for truth.

## Model

| member | source | states |
|---|---|---|
| Cycles.FindCycles | src/istos/fitness.py:330-364 | for every finite graph and any iteration order, the result lists exactly the strongly connected components of more than one node, each once, sorted and pairwise disjoint |
| Cycles.StrongConnect | src/istos/fitness.py:339-359 | one call visits its node, leaves every visited node's index and place alone, and keeps `low` exact enough that the node stays on the stack only below an older one it reaches |
| Cycles.Look | src/istos/fitness.py:344-349 | one successor is accounted for in `low`, whether it is new, on the stack, or done |
| Cycles.PopDownTo | src/istos/fitness.py:350-357 | the popped nodes are exactly those on the stack from the root up |
| Cycles.TopIsScc | src/istos/fitness.py:350-359 | what is popped at a root is one whole strongly connected component |
| Cycles.AllVisited | src/istos/fitness.py:361-364 | once every node with an edge is visited, the reported components are all there are |
| Names.SortDistinct | src/istos/fitness.py:359 | sorting a component keeps its members, each once, in ascending order |
| Names.TextLeqDecides | src/istos/fitness.py:359 | two names are ordered by the code point where they first differ, a proper prefix coming first |
| Cron.ParseField | src/istos/queue/cron.py:24-51 | a field is refused exactly if some part is not a star, a number or an ascending range within the limits with a step of at least one; otherwise its values are exactly those a whole number of steps above the first of some part |
| Cron.Parse | src/istos/queue/cron.py:57-74 | an expression is refused exactly if it has not five fields or one is bad; each value set is the one its field stands for, Sunday as 7 or 0, and only a bare star leaves a day field unrestricted |
| Cron.NextAfter | src/istos/queue/cron.py:94-130 | the result is the least matching minute strictly after the input; it fails exactly if no date ever matches |
| Cron.MatchesAsked | src/istos/queue/cron.py:76-92 | a schedule matches exactly the moments its five fields ask for: with both days restricted either is enough, a bare star asks nothing |
| Cron.NextFiring | src/istos/app/queues.py:301-469 | from the cron line on: an error exactly if the line is malformed or asks for no moment at all, otherwise the first moment it asks for strictly after the input |
| Cron.MonthJump | src/istos/queue/cron.py:106-111 | the month jump skips no matching minute |
| Cron.DayJump | src/istos/queue/cron.py:112-114 | nor does the day jump |
| Cron.HourJumps | src/istos/queue/cron.py:115-121 | nor does the hour jump |
| Cron.MinuteJumps | src/istos/queue/cron.py:122-128 | nor does the minute jump |
| Cron.ImpossibleNeverMatches | src/istos/queue/cron.py:76-84 | an expression restricted to days of the month that no named month has never matches |
| Cron.LeapDaySoon | src/istos/queue/cron.py:98-102 | from any day, 29 February comes again before the horizon, across century years too |
| Cron.DaySoon | src/istos/queue/cron.py:98-114 | every other expression names a later day before the horizon, from any day on |
| Calendar.MinutesOrder | src/istos/queue/cron.py:101-105 | counting minutes orders dates exactly as comparing them field by field does |
| Calendar.WeekdayGoesRound | src/istos/queue/cron.py:79-87 | the first of January of year 1 is a Monday, and each day has the weekday after that of the day before, Sunday being 0 |
| Calendar.NextDayIsNext | src/istos/queue/cron.py:113 | adding a day gives the next date, with none between |
| Calendar.MonthLengths | src/istos/queue/cron.py:96-113 | the months have their Gregorian lengths |
| Heaps.Top | src/istos/queue/store.py:184-185 | the top of a heap is one of its least entries |
| QueueStores.QueueStore.OfferReady | src/istos/queue/store.py:177-181 | the job gets an entry in the delayed heap if it is not due, else in the ready heap |
| QueueStores.QueueStore.MatureDelayed | src/istos/queue/store.py:183-188 | afterwards every due job has its entry in the ready heap, stale and duplicate entries notwithstanding |
| QueueStores.QueueStore.ReclaimLeases | src/istos/queue/store.py:190-209 | reclaims exactly the lapsed leases, each once: the table is the one a scan would make |
| QueueStores.TopIsBest | src/istos/queue/store.py:302-306 | the first live entry popped from the ready heap is the due job of greatest priority and then least `seq` |
| JobTable.BestUnique | src/istos/queue/store.py:292-295 | at most one job is the one a scan would pick, so that choice is determined |
| QueueStores.QueueStore.Add | src/istos/queue/store.py:270-290 | adds one job with the given payload, priority, limit and continuation, due after its delay, ready, with no attempts, and ranked after all others; a crash between its two writes shows nothing of it |
| QueueStores.QueueStore.Claim | src/istos/queue/store.py:292-313 | gives back every lapsed lease, then hands out the due job of greatest priority and least `seq`: the same payload, priority, rank, continuation and error, one more attempt, and a lease until now plus the lease asked for, in the answer and in the table; nothing only if no job is due |
| QueueStores.QueueStore.Ack | src/istos/queue/store.py:329-345 | accepted exactly from the current claimant; keeps the job as done with its result and time, or removes it, and changes nothing else |
| QueueStores.QueueStore.Nack | src/istos/queue/store.py:347-371 | accepted exactly from the current claimant; ready again after the delay if attempts are left, else dead from now, with the error either way and all else kept |
| QueueStores.QueueStore.Sweep | src/istos/queue/store.py:373-397 | gives back the lapsed leases, counts them, and purges exactly the results and dead letters past their time to live |
| QueueStores.QueueStore.Forget | src/istos/queue/store.py:258-266 | removes the job from table, ids and storage; between its two writes the recovered table already lacks it |
| QueueStores.QueueStore.constructor | src/istos/queue/store.py:153-161 | a fresh store is empty and leaves the storage as it found it |
| QueueStores.QueueStore.Load | src/istos/queue/store.py:219-240 | a fresh store on whatever a crash left recovers exactly the table the storage shows and is ready for every operation |
| QueueDisk.PutRecord | src/istos/queue/store.py:242-248 | rewriting a known job's record shows exactly one more event of the history |
| QueueDisk.EraseRecord | src/istos/queue/store.py:258-265 | erasing a record shows the removal, though the index still lists the id |
| QueueDisk.PutUnindexed | src/istos/queue/store.py:288 | a record whose id is not indexed yet is invisible to recovery |
| QueueDisk.IndexNew | src/istos/queue/store.py:289 | indexing it makes the enqueue visible |
| Recovery.CrashLosesNothing | src/istos/queue/store.py:219-371 | after a crash at any single write, every job whose enqueue was answered, just now or before, is recovered exactly if no accepted ack and no expiry removed it |
| Recovery.AnsweredIsShown | src/istos/queue/store.py:268-371 | once an operation has made its last write, and so before it answers, the storage shows all it did |
| Recovery.CrashReissuesNothing | src/istos/queue/store.py:292-313 | whatever run follows such a crash, no (job, attempt) token handed out before it, the last one included, is handed out again |
| Recovery.CrashStopsEarly | src/istos/queue/store.py:242-266 | a crash at any single write recovers the table that the queue has after some event of the operation |
| Recovery.EnqueueShows | src/istos/queue/store.py:285-289 | of an enqueue, which is one event, that is the table before or after it |
| Recovery.EventIsStep | src/istos/queue/store.py:292-397 | every other event of an owner is a step of the system, for a claim one whose answer is lost |
| Recovery.CrashIsARun | src/istos/queue/store.py:292-397 | so a crash in a claim, ack, nack or sweep leaves the system as some run without crashes does |
| Recovery.CrashKeepsChains | src/istos/queue/worker.py:180-182 | and a started chain survives it: finished, carried on, or lost only to a purged dead letter as before |
| JobHistory.NothingLost | src/istos/queue/store.py:258-410 | in every run a job is in the table exactly if it was enqueued and no accepted ack, result's expiry or dead letter's expiry has removed it |
| JobHistory.RecordTraced | src/istos/queue/store.py:268-371 | in every run a job in the table carries the payload, priority, rank, continuation and limit that its enqueue gave it |
| JobHistory.StateFromLast | src/istos/queue/store.py:190-371 | in every run a job is as its last event left it: state, lease, delay, error, result and time |
| JobHistory.SettledByLatestClaimant | src/istos/queue/store.py:315-371 | a settlement is accepted only from the job's latest claim, with nothing of the job in between, and with that claim's attempt number |
| JobHistory.SettledOnce | src/istos/queue/store.py:315-371 | between two settlements of a job there is a claim, so each claim is settled at most once |
| JobHistory.ClaimsSeparated | src/istos/queue/store.py:190-209 | two claims of a job are separated by an accepted nack or by the first one's whole lease |
| JobHistory.Conservation | src/istos/queue/store.py:190-371 | in every run a job's attempts are the number of times it was handed out, stay below the maximum while ready and within it otherwise, and it is never handed out more than `max_attempts` times |
| JobHistory.TokensFresh | src/istos/queue/store.py:307-312 | of two claims of a job the later carries the greater attempt number |
| Chords.ChordTable.ChordReport | src/istos/queue/store.py:436-465 | a report outside the size is refused and a repeated one ignored; the one that completes the index set answers with every member's result and closes the barrier, any other is added to it; no other chord changes |
| Chords.ChordTable.DropStale | src/istos/queue/store.py:398-409 | the sweep drops exactly the barriers past their time to live |
| Chords.RunShape | src/istos/queue/store.py:436-465 | after any interleaving an open barrier holds exactly the members reported since it opened, with their first results |
| Chords.OpenExactly | src/istos/queue/store.py:398-465 | a barrier is opened exactly by a fitting report that does not complete it at once, and closes exactly when it fires or a sweep comes at or after its opening plus the time to live |
| Chords.FiresExactly | src/istos/queue/store.py:436-465 | a barrier fires on a report exactly if that report completes the index set since it opened, and returns each member's first result in order |
| Chords.FiresAgain | src/istos/queue/store.py:456-465 | it fires a further time only if every member has reported again |
| Workflows.NextKeeps | src/istos/queue/worker.py:128-204 | every step of workers, owners and network keeps that a worker free to ack has passed its step on |
| Workflows.RunInv | src/istos/queue/worker.py:177-204 | so this holds in every reachable state |
| Workflows.AcceptCovered | src/istos/queue/store.py:329-345 | an accepted ack takes a job away only when a later step of its chain is already enqueued, or it was the last |
| Workflows.NextOrigin | src/istos/queue/worker.py:198-204 | the follow-on sits on the next queue of the chain and carries the rest |
| Workflows.ChainNeverLost | src/istos/app/queues.py:189-210 | in every reachable state, for every step a started chain has reached, a job of that chain for that step or a later one is queued or dead-lettered and carries the rest, or the last step's ack was accepted, or a dead letter of such a step was purged |
| Workflows.DeadLettersDecide | src/istos/queue/store.py:389-397 | in every run every started chain is finished or has a job of the furthest step it reached queued or dead-lettered, exactly if every queue keeps its dead letters for good |
| Workflows.PurgedChainIsGone | src/istos/queue/store.py:389-397 | on a queue that purges them, a run that leaves nothing of a chain: its only job is dead-lettered and purged |
| Election.QueueRole.OnMembership | src/istos/queue/role.py:154-161 | the view follows the event, and the replica is active exactly if it has the lowest id of its view |
| Election.QueueRole.CountSelf | src/istos/queue/role.py:150-152 | binding ends with the replica in its own view and its role settled |
| Election.QueueRole.Reconcile | src/istos/queue/role.py:163-170 | afterwards active means lowest id of the view |
| Election.NextKeeps | src/istos/queue/role.py:130-170 | joins, crashes and deliveries in any order keep that each view with its pending events comes to the live set, and active means lowest id of the view |
| Election.ExactlyOneOwner | src/istos/queue/role.py:130-170 | in every run, once nothing is pending, every live replica sees the live set and exactly the one with the lowest id is active |
| Election.TwoOwnersWhilePending | src/istos/queue/role.py:150-161 | before that two can be active |
| Election.TwoOwnersNeedNews | src/istos/queue/role.py:154-170 | and in every run only so: the higher of two active replicas does not see the lower, and the event that the lower is alive is still pending at it |
| Ledger.DoneIsTerminal | src/istos/consistency/storage.py:91-96 | no operations change a result, and every later claim is answered with it |
| Ledger.FirstResultWins | src/istos/consistency/storage.py:115-120 | the first mark decides the result, whatever claims and releases come before and whatever comes after |
| Ledger.HeldIsExclusive | src/istos/consistency/storage.py:86-96 | while a claim is held, every other claim before its lease lapses is refused and changes nothing |
| Ledger.ClaimLasts | src/istos/consistency/storage.py:86-96 | with neither mark nor release since, every claim before the lease is over is refused and changes nothing, and one from then on is granted, whatever rivals came between |
| Ledger.ReleaseFrees | src/istos/consistency/storage.py:98-106 | after a release the next claim is granted, unless the key is done |
| Ledger.InMemoryStorage.ClaimProcessed | src/istos/consistency/storage.py:183-197 | the abstract claim on this key, no other key touched |
| Ledger.InMemoryStorage.ReleaseClaim | src/istos/consistency/storage.py:199-203 | the abstract release |
| Ledger.InMemoryStorage.CheckProcessed | src/istos/consistency/storage.py:205-208 | the result if the work finished, nothing for a mere claim |
| Ledger.InMemoryStorage.MarkProcessed | src/istos/consistency/storage.py:210-215 | the abstract mark |
| Ledger.InMemoryStorage.Log | src/istos/consistency/storage.py:159-172 | appends unless the idempotency key is done |
| Ledger.RedisStorage.ClaimProcessed | src/istos/consistency/redis_storage.py:26-31 | the abstract claim on this key; a granted claim expires at now plus the lease, cut to the millisecond, and any other answer leaves the key alone |
| Ledger.RedisClaimLasts | src/istos/consistency/redis_storage.py:26-31 | with neither mark nor release since, every claim earlier than a millisecond before the lease is over is refused and leaves the key alone, and every claim from the end of the lease on is granted, whatever rivals came between |
| Ledger.RedisStorage.MarkProcessed | src/istos/consistency/redis_storage.py:35-40 | the mark script is the abstract mark on this version's records |
| Ledger.RedisStorage.ReleaseClaim | src/istos/consistency/redis_storage.py:43-50 | the release script is the abstract release |
| Ledger.RedisStorage.CheckProcessed | src/istos/consistency/redis_storage.py:187-189 | the result if the work finished |
| Ledger.RedisStorage.Log | src/istos/consistency/redis_storage.py:52-59 | the log script appends under the same condition as the store in memory |
| Ledger.TimePasses | src/istos/consistency/redis_storage.py:29 | the expiry of a claim in Redis is the lapse of the abstract one |
| Ledger.MarkKeepsFirst | src/istos/consistency/redis_storage.py:35-40 | the mark script refines the abstract mark exactly if the record is not an older version's bare result |
| Ledger.OldResultReplaced | src/istos/consistency/redis_storage.py:35-40 | such a record, and the mark that replaces it |
| SqlLedger.ClaimStatementsRefine | src/istos/consistency/sqlalchemy_storage.py:282-336 | each answer that claims the key or hands out a result is the abstract one at the statement that decides it; an insert takes the key exactly if there is no row, an update exactly if the row is a lapsed claim; no other statement of a claim changes the row |
| SqlLedger.MarkStatementsRefine | src/istos/consistency/sqlalchemy_storage.py:363-390 | a mark is the abstract mark at one of its statements, unless a claim lands between them; a release is the abstract release |
| SqlLedger.LateMarkIsDropped | src/istos/consistency/sqlalchemy_storage.py:370-390 | a run in which one does: a call whose lease lapsed returns the first success, its mark is dropped, and a later call runs the body again |
| SqlLedger.TimelyMarksLand | src/istos/consistency/sqlalchemy_storage.py:370-377 | in a timely run every mark is taken by its first statement |
| SqlLedger.RunInv | src/istos/primitives/handler.py:202-263 | in every timely interleaving at most one call holds the key, the row is that call's, and a stored result is the first success |
| SqlLedger.BodiesNeverOverlap | src/istos/primitives/handler.py:210-234 | no two handler bodies for one key overlap and none runs once one has succeeded |
| SqlLedger.EveryoneGetsTheFirst | src/istos/primitives/handler.py:216-217 | every call that is handed a result gets the first success's |
| SqlLedger.ResultStays | src/istos/consistency/sqlalchemy_storage.py:363-390 | a stored result is the first success's and never changes |
| SqlLedger.LaterCallsGetTheResult | src/istos/primitives/handler.py:215-224 | a call that arrives after that never runs the body and is never refused |
| Approval.ApprovalGate.File | src/istos/agent/approval.py:202-215 | files one pending request with the tool and arguments given, its deadline, and a waiter |
| Approval.ApprovalGate.Decide | src/istos/agent/approval.py:305-328 | before the deadline a yes approves a pending request, with the operator's arguments if given and else those proposed, and a no denies it; from the deadline on it expires; a settled one stays as it is |
| Approval.ApprovalGate.Expire | src/istos/agent/approval.py:336-343 | expires a pending request and nothing else |
| Approval.ApprovalGate.Wait | src/istos/agent/approval.py:230-273 | whatever an operator decides meanwhile and however the race with the deadline ends, a wait for a pending request clears exactly if it was not timed out and the decision was a yes before the deadline, with the operator's arguments if given; a request nobody decided expires and is refused |
| Approval.ApprovalGate.Wake | src/istos/agent/approval.py:261-273 | a wait that ended on its event answers as the request was settled; one that timed out refuses |
| Approval.ApprovalGate.ListPending | src/istos/agent/approval.py:352-371 | offers exactly the pending requests within their deadline and expires the others |
| Approval.StepKeepsSettled | src/istos/agent/approval.py:304-343 | no step of agents, operators or deadlines changes a settled request |
| Approval.RunInv | src/istos/agent/loop.py:332-394 | in every run each approval was given in time, each invocation that had a request rests on its own approved one, and a waiting call has invoked nothing |
| Approval.GatedToolsNeedApproval | src/istos/agent/loop.py:332-394 | in every run a gated tool was invoked only after a step that filed a request for that very call and a later step in which an operator said yes to it while it was pending and before its deadline, with the operator's arguments if given and else those filed, once per call and once per request |
| Approval.InvocationTraced | src/istos/agent/loop.py:332-394 | the same of every invocation that rests on a request: the three steps of the run that led to it |
| Approval.NoIsFinal | src/istos/agent/approval.py:312-318 | once an operator said no to a pending request, no tool ever runs on it |
| Approval.SettledStays | src/istos/agent/approval.py:304-328 | a settled request is the same ever after |
| Transcript.Conversation.Trim | src/istos/agent/loop.py:193-215 | keeps the system head and of the rest the most recent, less orphaned tool messages; refuses a bound below one |
| Transcript.TrimWellFormed | src/istos/agent/loop.py:193-200 | trimming a well-formed transcript leaves one |
| Transcript.TrimKeepsRecent | src/istos/agent/loop.py:196-200 | it drops nothing else: a suffix remains, short of the bound only by tool messages |
| Transcript.TrimBounds | src/istos/agent/loop.py:196-198 | at most the bound remains after the system head |
| Transcript.WithSystemWellFormed | src/istos/agent/multi.py:86-95 | replacing the system prompt keeps a transcript well-formed |
| Transcript.WithSystemPrompts | src/istos/agent/multi.py:86-95 | what is shown is the prompt, if it is not empty, and then every message that is no system message, in order |
| Transcript.HistoryToMessages | src/istos/agent/loop.py:93-152 | any log becomes a well-formed transcript: the prompt, and then turn by turn the user's text, the assistant's text, or a call with the last result logged for it if there is one, and nothing for any other turn |
| Transcript.ResultsLast | src/istos/agent/loop.py:110-120 | the result kept for a call is the last one logged |
| Transcript.Conversation.Take | src/istos/agent/multi.py:186-212 | after a reply the log is the old one, the reply's text with its calls' ids in order, and for each call in order a tool message with its id and its own result, or the note of its own transfer; the last transfer names the next agent |
| Transcript.LogWellFormed | src/istos/agent/loop.py:258-293 | whatever the model replies, every completion works on a well-formed log within the bound |
| Transcript.Conversation.Step | src/istos/agent/loop.py:258-293 | one completion of the single-agent loop sees the trimmed log, and its reply is recorded with the answers |
| Transcript.Conversation.RunAgent | src/istos/agent/loop.py:244-306 | runs until a reply without calls or the last step; the first completion sees the trimmed log, each further one what the one before saw with its reply and each call's own answer, trimmed, and always well-formed |
| Transcript.Conversation.Turn | src/istos/agent/multi.py:148-219 | one step shows the active agent the trimmed log under its own prompt, records the reply with its answers, and names the next agent |
| Transcript.Conversation.RunMultiAgent | src/istos/agent/multi.py:132-225 | the same log step by step, each completion seeing it under the prompt of the agent that the last transfer made active, and under no other prompt |
| Agents.BuildRegistry | src/istos/agent/multi.py:98-108 | the registry is the one of the stack traversal: only agents in the handoff graph's reach, under their own names; with the two exact conditions for its being complete |
| Agents.TableHoldsLast | src/istos/agent/multi.py:152 | the transfer table holds, for each transfer tool among an agent's handoffs, the last handoff with it |
| Agents.TransferToolIs | src/istos/agent/multi.py:70-71 | a transfer tool is named after the agent, with every character but letters, digits, dashes and underscores turned into a dash |
| Agents.AllOffered | src/istos/agent/multi.py:70-71 | every handoff of an agent can be taken exactly if no two of them share a transfer tool |
| Agents.CoversDistinct | src/istos/agent/multi.py:98-108 | all agents in the handoff graph's reach are registered exactly if no two of them share a name |
| Agents.CoversUnlessSkipped | src/istos/agent/multi.py:104-105 | all agents a run can become are registered exactly if the traversal passes over none of them for another of its name |
| Agents.ActiveReachable | src/istos/agent/multi.py:189-219 | whatever the model replies, the active agent is one that the transfers offered reach |
| Agents.ReachIsRun | src/istos/agent/multi.py:189-219 | an agent is reached by the transfers exactly if some replies of the model make it active |
| Agents.CheckWithoutGate | src/istos/agent/multi.py:135-146 | refuses only if a gated tool is in reach, and with distinct names exactly then; a run that it lets through never comes to a gated tool, whatever the model replies, exactly unless the traversal passes over an agent from which the run can come to one |
| Agents.MissesExactly | src/istos/agent/multi.py:135-146 | for every choice of gated tools: when the check finds none, the transfers reach one exactly through an agent that the traversal passed over |
| Agents.SharedTraversal | src/istos/agent/multi.py:101-107 | a graph in which the traversal registers another agent under the name of one that a run can become |
| Agents.SharedNameHidesAgent | src/istos/agent/multi.py:103-105 | in it the check passes and two transfers lead to the agent with the gated tool |
| Depends.EvaluatesOnce | src/istos/di/depends.py:67-171 | evaluating the dependency tree without a cache has one result |
| Depends.EvaluatesAcyclic | src/istos/di/depends.py:118-123 | what has a result reaches no cycle |
| Depends.Resolver.Resolve | src/istos/di/depends.py:93-171 | terminates on every graph; arguments are those of the uncached evaluation; an error means a cycle is in reach |
| Depends.Resolver.Depend | src/istos/di/depends.py:114-156 | one dependency is taken from the cache or executed after its own, and recorded |
| Depends.ResolveRequest | src/istos/di/depends.py:67-171 | a cycle error exactly if a cycle is in reach; else the uncached result, every dependency in reach executed, and exactly once if it is always cached |
| RateLimit.RateLimiter.Evict | src/istos/middleware/ratelimit.py:62-77 | from 1024 buckets on, drops exactly those idle long enough and full by now, and changes no other |
| RateLimit.RateLimiter.Admit | src/istos/middleware/ratelimit.py:79-94 | after evicting, the key holds what was left and what refilled since, up to the burst, or the burst if it is new; it is admitted exactly if that is a whole token, which it pays; no other bucket changes |
| RateLimit.Create | src/istos/middleware/ratelimit.py:52-60 | refuses exactly a rate or period that is not positive |
| RateLimit.EvictionIsInvisible | src/istos/middleware/ratelimit.py:65-77 | eviction changes no key's tokens at any later time |
| RateLimit.SameAnswers | src/istos/middleware/ratelimit.py:62-95 | on every trace the limiter answers as one that never evicts |
| RateLimit.AdmittedBound | src/istos/middleware/ratelimit.py:84-94 | what a key is admitted is bounded by its tokens and what refills |
| RateLimit.RateBound | src/istos/middleware/ratelimit.py:36-42 | in any window of length T, from any state, a key is admitted at most burst + T * rate / per times |
| RateLimit.SteadyAdmitted | src/istos/middleware/ratelimit.py:84-94 | a key whose requests come at least per / rate apart is never refused, whatever other keys do |
| Dedup.Subscriber.IsDuplicate | src/istos/primitives/subscribe.py:96-103 | a duplicate is delivered or in flight, and a delivered one moves to the end |
| Dedup.Subscriber.Begin | src/istos/primitives/subscribe.py:209-222 | the callback runs exactly if the bytes are neither; they are then in flight |
| Dedup.Subscriber.End | src/istos/primitives/subscribe.py:223-227 | only a success records the fingerprint; either way it is no longer in flight |
| Dedup.Subscriber.RecordDelivered | src/istos/primitives/subscribe.py:105-108 | appends the fingerprint and drops the oldest beyond the window |
| Dedup.WindowIsRecent | src/istos/primitives/subscribe.py:96-108 | after any interleaving the map is exactly the last W distinct fingerprints in order of most recent touch |
| Dedup.WindowDistinct | src/istos/primitives/subscribe.py:105-108 | it holds each fingerprint once and at most W of them |
| Dedup.InflightUnseen | src/istos/primitives/subscribe.py:216-227 | no fingerprint is in flight and in the map at once |
| Dedup.OneAtATime | src/istos/primitives/subscribe.py:216-227 | two deliveries of the same bytes are never dispatched at once |
| Dedup.RetryIsDispatched | src/istos/primitives/subscribe.py:219-227 | after a failed delivery the next arrival of the same bytes is dispatched |

## Left out

- Sessions, queryables, HTTP, serializers, authorizers, tracing and logging: plumbing around the cores.
- The queue without storage, failed storage writes, and a storage entry that cannot be decoded.
- Recovery.CrashIsARun: does not cover an ack without an attempt number, which the workers here never send.
- The queue's `result`, `dead_letters` and `stats` reads, and the correlation fields of a job.
- Re-activation of a replica that stepped down: its memory is not cleared before `load`. `Load` is about a fresh store.
- Chord barriers are not written to storage, in the source either; a crash of the owner loses them, so `Chords` is about one owner's life. The barrier's `fired` flag is never seen set, as firing removes the barrier, and is not modelled.
- The callback enqueue a worker makes when a chord fires, and the payload piped along a chain.
- The order among heap entries that tie in every field but the id, which no operation depends on.
- Splitting cron text and reading its numbers: a field arrives as its parts. The calendar has no last year, where `datetime` ends with 9999.
- Cycles.StrongConnect: the variables shared by the nested function are threaded through as one value, with two of them (the running calls and all components found) kept for the proof only.
- Ledger.RedisStorage.ClaimProcessed: does not model a lease below one millisecond, which Redis refuses with an error.
- SQL rows with a missing status from an older version, and how values are encoded in a row.
- The handler's middleware, retries and metadata write, and the fallback for storage plugins without claims.
- Approval persistence, its recovery and the notifier callback; deadlines are enforced by the wait and by listing.
- The events the agent loops yield, a tool's own errors, and a consumer that abandons a loop in the middle of a batch of calls.
- Overrides, generator dependencies, `**kwargs`, skipped names and the error for a missing plain parameter in dependency resolution.
- The value of `retry_after`, and collisions of payload digests.
- Persist and replay cursors, trajectories, evals, the CLI and the other metrics of the fitness report.
