# Verified models of the claude-scheduler daemon

A model, in Dafny, of the parts of the daemon whose correctness spans several
functions: protocols over shared state that have to survive any interleaving,
and fast forms that have to agree with a simple meaning. Each main result is a
statement about every input, every run or every reachable state.

`dafny verify dfyconfig.toml` checks the whole project.

| file | what it models |
|---|---|
| `Common.dfy`, `Messages.dfy`, `Checks.dfy`, `Texts.dfy` | small shared datatypes; byte order and decimal numbers as text |
| `Lines.dfy` | reading lines through a bounded buffer, decoding and numbering events |
| `Sse.dfy` | Server-Sent Events printed and parsed (sections 9.2.5 and 9.2.6 of the WHATWG HTML Living Standard, as far as the two ends use them) |
| `Wire.dfy` | the resume point, and responses cut at any byte |
| `Broker.dfy` | topics with a replay ring and bounded subscriber queues, and their history |
| `EventTable.dfy` | the stored transcript and its pages |
| `Follow.dfy` | the follower: rendering, reconnecting, giving up |
| `Streaming.dfy` | producer, topic, handlers and followers as one step machine |
| `Endings.dfy` | when a follower is done, why a response ends, what its last frame says |
| `Delivery.dfy` | the step machine's responses as bytes, down to what a reconnecting follower shows |
| `Socket.dfy` | the lock and the socket path of any number of daemons |
| `Lifecycle.dfy` | executions in one daemon and over its restarts |
| `Gating.dfy` | triggers, the dependency gate, the overlap check, pausing |
| `Health.dfy`, `Invalidation.dfy` | the registry's cache, its flights and the memo beneath; what invalidating achieves |
| `Paging.dfy` | listing executions by cursor |
| `KeyValue.dfy` | prefix search and expiring values |
| `Timestamps.dfy` | timestamps as text |
| `Schedule.dfy`, `Scheduler.dfy`, `CatchUp.dfy` | missed fire times, cron registrations, catching up after downtime |

How the models are built:

- A protocol is a state, a datatype of actions, `Enabled` and `Step`, and `Run`
  over any sequence of actions; a step that cannot be taken is passed over. The
  theorems hold of every run, by an invariant that every step keeps.
- Code that updates fields in place is a class whose methods are proved against
  functions; those functions are what the lemmas are about.
- One critical section of the source is one step. Store operations are atomic
  and succeed unless a failure is an outcome of the action.
- Time is an integer that never goes back, given to the operation that reads it.
- A character of a string stands for one byte.

Where a promise of the code or its comments fails, the model keeps the code and
a lemma says exactly when it holds or shows the failing run:

- An event typed `status` is never rendered by a follower: the rendered events
  are all of them exactly when none is (`Streaming.RendersEverything`).
- An event name with a line break can break its frame: printing and parsing undo
  each other exactly when no name carries a data line (`Sse.RoundTrip`,
  `Sse.NameBreaksFrame`). The results over bytes in `Delivery.dfy` are for
  transcripts without such a name.
- `Cancel` answers true for every execution in the map, but decides the outcome
  exactly from the start of the process to the reading of the stop reason
  (`Lifecycle.CancelDecidesExactlyInTime`, `Lifecycle.CancelledTooEarly`).
- Invalidating a cached check result makes every later check probe anew exactly
  when nothing begun before can still answer it: no unpublished probe of the
  target and, for a kind probed in bulk, no memo younger than its lifetime and no
  call of another target that will renew it or spread its snapshot
  (`Invalidation.InvalidateReprobesIff`).
- A task that skips overlaps has at most one run in flight as long as no trigger
  passes its check between another one's check and row; one check outside that
  breaks it (`Gating.OverlapHonoured`, `Gating.OverlapHoldsIff`). A check also
  skips with nothing running, exactly while another trigger of the task that is
  itself being suppressed has written its row and not yet ended it
  (`Gating.OverlapSkipsIff`).
- A response body with arbitrary event names, cut at any byte, parses to a prefix of
  what the whole parses to exactly when no line looks blank at a carriage return
  while data waits that is not dispatched as it stands (`Sse.CutAnyBody`).
- A response can end without a terminal frame: its request is gone, its reader was
  too slow, or it subscribed after the terminal message and before the close. One
  that only finds the topic closed tells the status the row had before
  (`Endings.EndedWhy`, `Endings.TerminalSaysStatus`); reconnecting always brings
  the end (`Endings.CanAlwaysFinish`).
- Two catch-ups are for one fire time exactly when no fire time lies between the
  instants their passes began; that happens to two daemons starting together,
  because catching up begins before the socket's lock is taken
  (`CatchUp.SameFireIff`, `CatchUp.TogetherTwice`).
- Text timestamps sort as times up to a year exactly when the year is at most
  9999 (`Timestamps.OrderHoldsIff`).

## Model

| member | source | states |
|---|---|---|
| `Lines.SplitIsTheOnlyCut` | internal/cli/follow.go:172-195 | a list of pieces of the input is its lines (one line feed each, at the end, the last perhaps without) if and only if it is `Split` of it |
| `Lines.Reader.ReadSlice` | internal/claude/stream.go:85-85 | a slice ends at the next line feed, at a full buffer of arbitrary size, or at the end of the stream, and nothing is lost |
| `Lines.ReadLineBounded` | internal/claude/stream.go:80-109 | whatever the buffer's chunks, the line returned is the first line of the input; refused exactly beyond 8 MiB, lost exactly when the stream breaks inside it |
| `Lines.ReadLine` | internal/cli/follow.go:178-195 | whatever the chunks, the first line of the input, of any length, a final one without line feed included; None exactly at the end |
| `Lines.ReadableIsSplit` | internal/claude/stream.go:80-109 | on a clean stream reading fails if and only if some line exceeds 8 MiB, and reads all the lines if and only if it does not fail |
| `Lines.BrokenLosesTheRest` | internal/claude/stream.go:80-109 | on a stream that breaks the text after the last line feed is lost: reading fails, for an oversized line or for the break, and reads the complete lines |
| `Lines.Decoder.Next` | internal/claude/stream.go:41-75 | one call finds the next event, reports the text it skipped, and counts events, over every chunking |
| `Lines.DecodeOneMeaning` | internal/claude/stream.go:41-75 | a call returns the first event of the remaining transcript and leaves the rest of it, or says how the whole input ends |
| `Lines.DecodeOneSkips` | internal/claude/stream.go:44-64 | the skipped texts of the calls together are the noise of the readable lines, in order |
| `Lines.TranscriptOfLines` | internal/claude/stream.go:50-73 | events and noise are a partition of the readable lines that are not blank, in order |
| `Lines.EventsArePicked` | internal/claude/stream.go:50-66 | the events are exactly the trimmed texts that begin with a brace and parse, in order |
| `Lines.NoiseIsPicked` | internal/claude/stream.go:50-64 | the noise is exactly the trimmed texts that are neither blank nor events, in order |
| `Lines.DecodeAllMeaning` | internal/claude/stream.go:72-78 | all calls together return the transcript's events numbered 1, 2, 3 in order, and the reason reading stopped |
| `Lines.NumberedAt` | internal/claude/stream.go:77-78 | event i carries number i + 1 |
| `Lines.Consume` | internal/executor/executor.go:286-300 | the producer's loop yields exactly those numbered events, over every chunking |
| `Sse.RoundTrip` | internal/api/stream.go:144-161 | a printed sequence of frames and keep-alives parses to exactly the payloads printed if and only if no event name carries a data line |
| `Sse.NameBreaksFrame` | internal/api/stream.go:152-161 | an event name with a data line after a line break makes its frame parse to something else |
| `Sse.PrintedAs` | internal/api/stream.go:144-161 | the lines of a printed frame: its id if it is sequenced, its event name, its payload as data, a blank line |
| `Sse.DataLinesJoin` | internal/cli/follow.go:110-131 | the data lines of a frame are one payload, with line feeds between them |
| `Sse.CutIsPrefix` | internal/cli/follow.go:97-139 | a body cut at any byte parses to the payloads of the frames that were complete |
| `Sse.CutAnyBody` | internal/cli/follow.go:97-139 | whatever the frames are named, a body cut at any byte parses to a prefix of what the whole parses to, if and only if no line looks blank at a carriage return while data waits that a data line follows, or no blank line |
| `Wire.ResumesWhereItStopped` | internal/cli/follow.go:37-42 | the resume point read from the follower's header is the last sequence number it saw |
| `Wire.ResumePoint` | internal/api/stream.go:122-139 | the header decides if it names a position, the query if only it does, and otherwise the stream starts at its beginning |
| `Wire.SentAs` | internal/api/stream.go:144-161 | the lines a message is sent as: its id if it is sequenced, its type or else message, its encoding, a blank line |
| `Wire.CutResponseIsWholeFrames` | internal/cli/follow.go:93-139 | for messages whose encoding is one line that decodes to them, their payload as encoding leaves it, under harmless names: reading a response cut at any byte shows what receiving some number of its messages whole shows, all of them when it is not cut |
| `Broker.Topic.Offer` | internal/executor/broker.go:76-87 | a message is queued, or the subscriber dropped exactly when 256 are waiting; no other subscriber is touched |
| `Broker.Topic.Publish` | internal/executor/broker.go:62-88 | ring, every queue and the drop count become those of `Published`; nothing on a closed topic |
| `Broker.Topic.Subscribe` | internal/executor/broker.go:112-148 | the backlog is the ring's messages after the position; a new queue exactly when the topic is open |
| `Broker.ReplayMeaning` | internal/executor/broker.go:112-148 | the replay after a position is exactly the messages of the ring with a greater number, in order |
| `Broker.Topic.Cancel` | internal/executor/broker.go:139-146 | the subscription alone is closed, once |
| `Broker.Topic.Close` | internal/executor/broker.go:152-165 | every queue is closed and keeps what was in it; a second close changes nothing |
| `Broker.Broker.Publish` | internal/executor/broker.go:60-69 | publishing changes the topic of that execution and no other |
| `Broker.Broker.Subscribe` | internal/executor/broker.go:107-129 | finished is whether the topic was closed; other topics are unchanged |
| `Broker.Broker.Close` | internal/executor/broker.go:150-160 | the execution's topic is closed and no other changes |
| `Broker.Broker.Forget` | internal/executor/broker.go:167-175 | afterwards the execution looks new, and no other changes |
| `Broker.NextFaithful` | internal/executor/broker.go:62-165 | every operation keeps: consumed plus queued is the published segment, the ring is the last 500, drops are counted |
| `Broker.HistoryIsContiguous` | internal/executor/broker.go:62-165 | over any operations, what a subscriber took plus what waits, at most 256, is the published segment from its subscription to now, its drop, its leaving or the close; a drop only with exactly 256 waiting; the ring is the last 500 |
| `Broker.ClosedIsFinal` | internal/executor/broker.go:67-69 | after a close nothing is published and nobody joins |
| `EventTable.Table.AppendEvent` | internal/store/events.go:8-22 | does to the rows what the machine's append step does |
| `EventTable.AppendExtends` | internal/store/events.go:8-14 | the next event extends the stored prefix; replaying a stored number changes nothing |
| `EventTable.Table.ListEvents` | internal/store/events.go:24-57 | the rows after the position in ascending order, up to the limit, none left out in between; limit out of range means 500 |
| `EventTable.Table.Backfill` | internal/api/stream.go:61-81 | alone, the backfill loop writes every stored event after the position once and in order, and ends by the events left |
| `EventTable.PageOfNumbered` | internal/store/events.go:26-57 | a page of a table that holds events 1 to m is the next stretch of them |
| `Follow.FeedLine` | internal/cli/follow.go:102-135 | one line changes the frame buffer and dispatches as the reference parser says |
| `Follow.Consume` | internal/cli/follow.go:93-139 | reading a body renders exactly the payloads that parsing the whole body gives, up to a terminal status, over every chunking; it is done exactly when some payload is a terminal status, whichever |
| `Follow.RenderInStep` | internal/cli/follow.go:142-170 | an event that is new is rendered once, a repeat not at all |
| `Follow.RenderedIff` | internal/cli/follow.go:142-170 | of any message: a status is never rendered, of the others all but those whose number was reached before; done exactly by a terminal status |
| `Follow.BodyInOrder` | internal/cli/follow.go:93-170 | whatever repeats a body carries, each event is rendered once and in order |
| `Follow.FollowExecution` | internal/cli/follow.go:31-89 | the reconnect loop does what the run over the responses says, and finishes exactly when a body it comes to read carries a terminal status |
| `Follow.ReconnectsInOrder` | internal/cli/follow.go:36-88 | over any number of reconnects what is rendered is the first events of the transcript, each once |
| `Follow.GivesUpAfterFailures` | internal/cli/follow.go:36-82 | a follow gives up if and only if five connections in a row fail after a body, or six from the start, with nothing before them to end it |
| `Follow.DoneIffTold` | internal/cli/follow.go:151-160 | a follower is done exactly when something it was given is a terminal status, whichever status that is |
| `Follow.FollowEnds` | internal/cli/follow.go:36-88 | the first response that does not let the follow go on decides how it ends: refused, finished, interrupted or given up, and following when there is none |
| `Follow.FinishedIff` | internal/cli/follow.go:64-67 | a follow finishes if and only if a body it comes to read carries a terminal status |
| `Streaming.ExactlyOnceInOrder` | internal/api/stream.go:50-122 | for any interleaving of producer, drops, handlers, disconnects and reconnects, a follower that takes whole frames has rendered exactly the renderable ones of the first events, in order |
| `Streaming.RendersEverything` | internal/cli/follow.go:151-169 | the rendered events are all of the first n if and only if none of them is typed as a status |
| `Streaming.TerminalMeansComplete` | internal/api/stream.go:61-120 | on both paths a terminal frame is written once, last, and after every event of the whole transcript past the resume point |
| `Streaming.DoneMeansEverything` | internal/executor/executor.go:377-388 | a follower that saw a terminal status has rendered the whole transcript |
| `Streaming.FinishedIsFinal` | internal/executor/executor.go:299-325 | once the row is terminal, row and transcript never change |
| `Streaming.BackfillAdvances` | internal/api/stream.go:61-81 | every page that is not empty moves the backfill to a later stored event, so it ends |
| `Streaming.StepKeeps` | internal/executor/executor.go:299-325 | every step of run, topic, handler and follower keeps: rows are the first events, the topic carries them in order after they are stored, each response and each follower is at one position of the transcript without gaps |
| `Endings.DoneIffTaken` | internal/cli/follow.go:151-160 | over every run a connected follower is done if and only if it has taken a terminal frame of its connection |
| `Endings.EndedWhy` | internal/api/stream.go:83-122 | a response that has ended has a terminal frame last, unless its request was gone, its reader was dropped with 256 waiting, or it subscribed between the terminal message and the close; always when the row was found finished |
| `Endings.LiveGoesOn` | internal/api/stream.go:94-120 | a live response can go on exactly while its reader has published messages to take, or is no longer fed |
| `Endings.TerminalSaysStatus` | internal/api/stream.go:83-88 | on the live path the terminal frame carries the outcome in the row; otherwise what the row was when the request began |
| `Endings.CanAlwaysFinish` | internal/cli/follow.go:26-89 | once the run is over, from any reachable state, some continuation brings any follower to its end with the whole transcript rendered |
| `Delivery.RenderedReceived` | internal/api/stream.go:144-154 | what is shown of the transcript that arrives is, frame by frame, what would be shown of the stored one with each payload as encoding leaves it |
| `Delivery.ResponseIsGapFree` | internal/api/stream.go:50-122 | the text of every reachable response, with keep-alives and cut at any byte, has no gap after its resume point; the transcript is the stored one with each payload as JSON encoding leaves it, here and in the next three rows, and its names break no frame |
| `Delivery.ServedIsHonest` | internal/cli/follow.go:36-63 | bodies served by the daemon from the follower's position are what a follower has to rely on |
| `Delivery.ExactlyOnceOverBytes` | internal/cli/follow.go:26-89 | for any interleaving at the daemon, any cuts and any reconnects, with names that break no frame, what is rendered is exactly the renderable ones of the first events, in order, each payload as encoding leaves it |
| `Delivery.FinishedOverBytes` | internal/cli/follow.go:64-67 | a follow over bytes that reached a terminal status has rendered the whole transcript of a finished execution, each payload as encoding leaves it |
| `Socket.AtMostOneOwner` | internal/ipc/ipc.go:64-112 | over any number of daemons starting, closing any number of times and dying at any step, at most one is past the lock |
| `Socket.PathNamesOwner` | internal/ipc/ipc.go:90-111 | from bind to its first unlink the path names a daemon's own open socket |
| `Socket.OnlyHolderTouchesPath` | internal/ipc/ipc.go:77-93 | a step that changes the path is the lock holder's |
| `Socket.RefusedIffServed` | internal/ipc/ipc.go:77-83 | a start is refused if and only if another daemon is past the lock, and then changes nothing at the path |
| `Socket.ListenGetsThrough` | internal/ipc/ipc.go:60-112 | whatever happened before, with nobody past the lock a start gets through and owns the path |
| `Socket.KillReleases` | internal/ipc/ipc.go:60-63 | a killed daemon no longer holds the lock, so nobody is past it |
| `Socket.ExchangedCloseBreaks` | internal/ipc/ipc.go:39-47 | with the two lines of Close exchanged, a new daemon's socket is removed while it holds the lock |
| `Socket.AnswersIffServed` | internal/ipc/ipc.go:114-124 | a connect succeeds if and only if some daemon owns the path |
| `Socket.Machine.Listen` | internal/ipc/ipc.go:64-112 | alone, it succeeds exactly when the lock is free and nothing fails; giving up leaves the lock free and other daemons untouched |
| `Socket.Machine.Close` | internal/ipc/ipc.go:39-47 | the first call removes the path and frees the lock, a later one touches neither |
| `Lifecycle.Classify` | internal/executor/executor.go:405-452 | a stop reason decides alone; success exactly for a clean result; rate limited exactly as listed |
| `Lifecycle.StatusesMoveForward` | internal/executor/executor.go:245-279 | over any run and any restarts a row is pending, then perhaps running, then has one terminal status and no more writes |
| `Lifecycle.ReturnedMeansRecorded` | internal/executor/executor.go:377-381 | a run that returned has exactly one terminal status, the last |
| `Lifecycle.TerminalIsFinal` | internal/store/executions.go:116-146 | a terminal row is never written again, though no statement guards it |
| `Lifecycle.NothingAfterTheEnd` | internal/executor/executor.go:379-388 | a terminal message is the last one published and carries the status the row already has |
| `Lifecycle.RunningWithinLimit` | internal/executor/executor.go:84-167 | after a start with a configured limit and until the next, at most that many executions hold a slot, one if it is below one; everybody in the map holds one; and a queued execution can take one exactly while fewer are held |
| `Lifecycle.SlotsTaken` | internal/executor/executor.go:132-140 | acquiring adds exactly that execution to the holders of slots, and releasing takes it out |
| `Lifecycle.SuppressedEndsAs` | internal/executor/trigger.go:66-85 | a suppressed execution is never run: it ends as it was to be, or is cancelled by the start after a crash |
| `Lifecycle.BootSettlesAll` | internal/store/executions.go:324-338 | a start leaves no row in flight: cancelled if it was, unchanged if not |
| `Lifecycle.CancelDecidesExactlyInTime` | internal/executor/executor.go:115-128 | cancelling makes cancelled the only possible outcome if and only if the process had started and the reason was not yet read, or that was the outcome anyway |
| `Lifecycle.CancelledTooEarly` | internal/executor/executor.go:159-244 | a run cancelled in the map before its process starts is never started: unless the daemon dies it can only be recorded as a failure |
| `Lifecycle.ReasonsOnlyRise` | internal/executor/executor.go:171-178 | over any run the timer never overrides a user, a user overrides the timer, and no reason is taken back |
| `Lifecycle.Executor.CancelRun` | internal/executor/executor.go:114-128 | true exactly for an execution in the map, whose reason is then the user's |
| `Lifecycle.Executor.Settle` | internal/executor/executor.go:377-388 | row, message, topic, map and slot, with no other execution touched |
| `Lifecycle.Executor.RunOne` | internal/executor/executor.go:130-279 | a queued execution, stopped by its timer, by a user or by nobody, ends with the one status its course calls for, and gives back its slot and its handle |
| `Gating.FailingMeaning` | internal/health/checker.go:241-254 | what stops a run is, in order, exactly the results of required dependencies that need a login or are misconfigured |
| `Gating.CheckRequirements` | internal/health/checker.go:243-254 | all results in order, and exactly the gating ones of the required |
| `Gating.Executor.RecordSkipped` | internal/executor/trigger.go:66-85 | one new row, skipped, with its reason |
| `Gating.Executor.RecordBlocked` | internal/executor/trigger.go:90-128 | one new row, blocked, with every failing result attached in order |
| `Gating.Executor.Gate` | internal/executor/preflight.go:25-68 | suppressed exactly when something fails; the row and the pause are the policy's |
| `Gating.Executor.RunningExecutionsForTask` | internal/store/executions.go:313-322 | the number of the task's rows that are pending or running |
| `Gating.Executor.Trigger` | internal/executor/trigger.go:13-62 | one new row, spelled out for every case: blocked or skipped with what fails, skipped with the number of pending and running rows, or pending and handed to a run; a pause only by its policy |
| `Gating.OneRowPerTrigger` | internal/executor/trigger.go:13-62 | with any number of triggers in any order every row belongs to exactly one |
| `Gating.GatedExactly` | internal/executor/preflight.go:25-68 | a broken required dependency gives a blocked row with every failing result, or a skipped one without, that is never run; otherwise only an overlap suppresses, with the number it saw |
| `Gating.PauseHolds` | internal/scheduler/scheduler.go:152-167 | after the pause every scheduled row of the task comes from a trigger that had read it before, until the pause is taken back |
| `Gating.ScheduledWereOn` | internal/scheduler/scheduler.go:152-167 | over every run a scheduled trigger has read its task enabled and not paused |
| `Gating.PausedOnlyForTimers` | internal/api/run.go:27-36 | while a task is paused no timer triggers it but a user can; resuming takes the pause back |
| `Gating.OverlapHonoured` | internal/executor/trigger.go:22-40 | over any run in which the task keeps its policy and no trigger of it passes its check between another one's check and row, at most one launched row of a task that skips overlaps is pending or running, and none while a trigger is about to start one |
| `Gating.TwoClearsRun` | internal/executor/trigger.go:33-59 | from any state, two triggers past the check put two more runs in flight |
| `Gating.OverlapHoldsIff` | internal/executor/trigger.go:22-40 | while the policy has held, one more check keeps it over every separate continuation if and only if some row of the task is pending or running, or no other trigger is between its check and its row |
| `Gating.OverlapSkipsIff` | internal/executor/trigger.go:22-31 | over any run, a check skips if and only if a launched row of the task is pending or running, or another trigger of it, being skipped or blocked, has written its row and not ended it yet |
| `Gating.OverlapRaces` | internal/executor/trigger.go:22-40 | a run from the start reaches two triggers past the check, and two runs |
| `Gating.AloneIsTrigger` | internal/executor/trigger.go:13-62 | the steps with nobody in between do what the method does |
| `Health.CutUndoesKey` | internal/health/checker.go:325-332 | the text form of a key is undone by cut |
| `Health.Registry.JoinOrStart` | internal/health/checker.go:158-176 | does to the map and the flights what the machine's joining step does |
| `Health.Registry.Complete` | internal/health/checker.go:180-185 | does to map, flights and cache what the machine's publishing step does |
| `Health.Registry.WarmSiblings` | internal/health/checker.go:207-216 | every other target of the snapshot is cached and nothing else changes |
| `Health.Registry.InvalidateKind` | internal/health/checker.go:314-323 | exactly the entries of the kind are dropped |
| `Health.OneProbePerKey` | internal/health/checker.go:158-176 | at most one probe of a key at any time, its flight in the map |
| `Health.MapIsUnfinished` | internal/health/checker.go:160-185 | a flight is unfinished if and only if it is the one in the map |
| `Health.WaitersAgree` | internal/health/checker.go:161-188 | everybody on a flight returns the same result |
| `Health.CacheIsLastProbe` | internal/health/checker.go:178-185 | outside the bulk kinds an entry is what a finished probe of its key found, and every later probe of the key in the log is one whose result is not published yet |
| `Health.StalenessBound` | internal/health/checker.go:149-155 | a cached verdict is younger than its lifetime, for a bulk kind than twice that, plus the time between obtaining and caching it |
| `Health.AnswersAreFindings` | internal/health/checker.go:161-222 | from the cache, by joining or by probing, a call returns what the probe behind it found: the reported state, unavailable for a failed list, for a list the target's state, misconfigured if it has none |
| `Health.PublishCaches` | internal/health/checker.go:178-188 | what a call publishes is what it returns, what its waiters are given and what the cache holds from then on |
| `Health.EndReachesAll` | internal/health/checker.go:178-188 | however it goes on after a probe has ended, whoever returns by that probe returns what it ended with |
| `Health.CacheServesIff` | internal/health/checker.go:149-155 | an undisturbed check that is not forced is answered from the cache exactly within the lifetime of its kind since the entry was written |
| `Health.ForcedNeverCached` | internal/health/checker.go:149-155 | a forced check is never answered from the cache |
| `Invalidation.InvalidateReprobesIff` | internal/health/checker.go:306-323 | for every registered kind, bulk or not: after invalidating a target or its kind, every later check of the target in every continuation is answered by a later probe if and only if nothing is under way |
| `Invalidation.InvalidateDrops` | internal/health/checker.go:306-323 | invalidating drops the entry, or the entries of the kind, and nothing else |
| `Invalidation.UnderWayAlone` | internal/health/checker.go:158-185 | for a kind probed alone, under way means a call of the target has begun a probe it has not published |
| `Invalidation.FreshMemoIsStale` | internal/health/mcp.go:83-89 | while the memo is fresh, some continuation answers a check made from now on with a probe begun before |
| `Paging.PagesAreTheListing` | internal/store/executions.go:227-273 | following cursors gives every matching row once, newest first, ties by descending id, on exactly as many pages as the rows fill, all full but the last |
| `Paging.MatchesIff` | internal/store/executions.go:200-224 | a row is left out exactly when it is of another task, in none of the statuses, queued before since or after until, or not found by the text search |
| `Paging.PagesUnderChange` | internal/store/executions.go:227-237 | while rows come, go and change between pages, under any filter, no row is listed twice, and one that stays and matches throughout is listed exactly once |
| `Paging.CursorRoundTrip` | internal/store/executions.go:347-368 | a cursor decodes to the row it was made from and is never empty |
| `Paging.CursorRefused` | internal/store/executions.go:354-368 | a cursor is refused exactly when its armour, its bar or its number is broken |
| `Paging.ListExecutions` | internal/store/executions.go:200-275 | an error exactly for a refused cursor; otherwise the page of the listing and the cursor of the next |
| `Paging.ListAll` | internal/store/executions.go:227-273 | a client that passes on the cursor texts it is given until there is none gets the full listing, on exactly as many pages as it fills |
| `Paging.PagesAreBounded` | internal/store/executions.go:239-273 | however the table changes between pages, all but the last page are full of rows not listed before, so their number is bounded by the rows there ever are |
| `Paging.LastExecutionsByTask` | internal/store/executions.go:277-309 | for every task with rows, and no other, the first n rows of its listing, all of them its own; for n below one, five |
| `Paging.LastIsFirstPage` | internal/store/executions.go:280-309 | the latest rows of a task are the first page of its own listing |
| `Paging.LastRunIsNewest` | internal/scheduler/scheduler.go:266-279 | asking for one row of a task gives its latest: every other row of it was queued before, or at the same time under a smaller id |
| `KeyValue.PrefixUpperBound` | internal/store/kv.go:198-207 | the in-place scan computes the carried bound |
| `KeyValue.RangeIsPrefix` | internal/store/kv.go:132-147 | a key is in the range if and only if it starts with the prefix, carries and all-0xff included |
| `KeyValue.Store.SetKV` | internal/store/kv.go:60-89 | the empty key is refused; otherwise value, expiry and time of update are replaced, creation kept |
| `KeyValue.SetThenRead` | internal/store/kv.go:60-128 | what is set, and its expiry, is read by whoever reads before it expires, until the key is touched; from then on nothing is; no other key is affected |
| `KeyValue.Store.GetKV` | internal/store/kv.go:91-128 | the entry, with value, size and all three times, unless absent or expired |
| `KeyValue.Store.ListKV` | internal/store/kv.go:130-164 | ascending, and exactly the live keys that start with the prefix, each with its size and times and no value |
| `KeyValue.Store.DeleteKV` | internal/store/kv.go:166-176 | does to the rows what a Delete of a history does, and fails exactly when there was no row |
| `KeyValue.DeletedStaysAway` | internal/store/kv.go:166-176 | a deleted key is not found until it is set again, whatever else happens |
| `KeyValue.Store.PurgeExpiredKV` | internal/store/kv.go:178-190 | removes exactly the expired rows |
| `KeyValue.ListingIsUnique` | internal/store/kv.go:146-146 | the order leaves one possible listing |
| `KeyValue.PurgingIsInvisible` | internal/store/kv.go:178-190 | with a clock that never goes back, purging anywhere in any history changes nothing that Get and List show, creation times aside |
| `KeyValue.PurgeShowsIff` | internal/store/kv.go:31-34 | one purge shows to one read if and only if the read's clock is before an expiry that the purge's has passed |
| `KeyValue.PurgeShowsToWritersIff` | internal/store/kv.go:166-190 | a purge changes the creation time the next write leaves if and only if it took an expired row created at another time, and what a delete finds if and only if it took the row |
| `KeyValue.SetWithoutExpiryStays` | internal/store/kv.go:60-65 | a value set without an expiry stays until its key is touched |
| `Timestamps.TextOrdersTime` | internal/store/store.go:133-137 | for years 0 to 9999 the texts compare as the instants do, to the millisecond |
| `Timestamps.WrittenNames` | internal/store/store.go:133-137 | year, month, day, hour, minute, second and millisecond are written in their places, and the numbers name the instant in the Gregorian calendar |
| `Timestamps.ParseUndoesFormat` | internal/store/store.go:137-151 | reading back gives the instant, to the millisecond |
| `Timestamps.FormatUndoesParse` | internal/store/store.go:139-151 | a text in the written layout that reads as an instant is the one text of it |
| `Timestamps.NullRoundTrip` | internal/store/store.go:153-167 | the zero time, the start of year 1 and no other, goes through NULL and every other through its text |
| `Timestamps.OrderBreaksAfter9999` | internal/store/store.go:133-137 | the years 10000 to 19999 sort before the years 2000 to 9999 |
| `Timestamps.OrderHoldsIff` | internal/store/store.go:133-137 | the texts of all instants of the years 0 to Y compare as the instants do if and only if Y is below 10000 |
| `Timestamps.NoBar` | internal/store/executions.go:349-352 | no timestamp holds the character that ends it in a cursor |
| `Schedule.MissedSince` | internal/schedule/schedule.go:92-109 | the bounded walk over the fire times after since |
| `Schedule.MissedIsGreatest` | internal/schedule/schedule.go:89-109 | nothing exactly when nothing was missed; the greatest missed fire time if and only if at most 100000 were, else the 100000th |
| `Schedule.WalkIff` | internal/schedule/schedule.go:89-109 | the walk finds m if and only if m is the greatest missed fire time, or the 100000th when more were missed |
| `Schedule.NextN` | internal/schedule/schedule.go:65-81 | the next n fire times in order, fewer only when there are no more |
| `Scheduler.SpecKeyTells` | internal/scheduler/scheduler.go:146-148 | one key comes from one expression and one time zone |
| `Scheduler.WantedMeaning` | internal/scheduler/scheduler.go:100-107 | exactly the enabled tasks that are not paused are wanted |
| `Scheduler.Scheduler.DropStale` | internal/scheduler/scheduler.go:109-118 | exactly the registrations whose task is wanted with the same spec are left |
| `Scheduler.Scheduler.AddMissing` | internal/scheduler/scheduler.go:120-141 | exactly the schedulable tasks are added, under new ids |
| `Scheduler.Scheduler.Reload` | internal/scheduler/scheduler.go:88-144 | afterwards exactly the schedulable tasks are registered with their current specs, unchanged ones under their old id, and every timer is a registration's |
| `Scheduler.ReconciledMeaning` | internal/scheduler/scheduler.go:88-144 | in terms of the list of tasks: registered are exactly the enabled and unpaused ones whose schedule parses, each with one timer on its current expression and time zone, and no other timer |
| `Scheduler.ReloadIsIdempotent` | internal/scheduler/scheduler.go:88-90 | reloading again with the same tasks changes nothing |
| `Scheduler.NoLeakedTimer` | internal/scheduler/scheduler.go:115-139 | in every table that Reload can leave, timers and registrations are in bijection |
| `CatchUp.Pass` | internal/scheduler/scheduler.go:202-264 | the runs of one pass: a task runs for a fire time if and only if catching up is allowed, the service has not stopped before it, it is enabled and not paused, has run before, and the fire time it missed last is at most the grace old |
| `CatchUp.PassMeaning` | internal/scheduler/scheduler.go:216-250 | the runs are exactly the tasks for which there is something due, each once, in the order of the list |
| `CatchUp.ReadDecides` | internal/scheduler/scheduler.go:223-250 | over any restarts, having read, a pass goes on to run the task if and only if it has run before and the fire time it missed last is at most the grace old, and runs it for that one |
| `CatchUp.CatchUpIsDue` | internal/scheduler/scheduler.go:231-250 | over any restarts, every catch-up is for a fire time inside the window and later than every earlier run it read, of which there is at least one |
| `CatchUp.OncePerFireTime` | internal/scheduler/scheduler.go:215-263 | two catch-ups of one fire time only if the later read before the earlier left its row |
| `CatchUp.SameFireIff` | internal/scheduler/scheduler.go:215-263 | any two catch-ups, each with at most 100000 fire times missed, are for one fire time if and only if no fire time lies between the instants their passes began |
| `CatchUp.SerialCatchesOnce` | internal/scheduler/scheduler.go:196-201 | with one daemon at a time each fire time is caught up on at most once, over any restarts |
| `CatchUp.TogetherTwice` | cmd/claude-scheduler/main.go:192-206 | two daemons that begin together both catch up |

## Left out

- SQLite, subprocesses, signals and process groups, HTTP routing, D-Bus, Slack, systemd: foreign calls.
- JSON, trimming of white space, base64 and the parser of cron expressions are parameters with the properties the lemmas name.
- A failed AppendEvent, which still publishes, and a failed backfill read, which falls through to the live feed: the streaming results need both to succeed.
- Streaming after a crash of the daemon: the topic is gone and every response ends; a later follower starts from the table.
- Wire.CutResponseIsWholeFrames: does not model how JSON encoding rewrites a payload (white space taken out; <, >, &, U+2028 and U+2029 escaped); that is one function of the payload, `canon`, left open, and what arrives is stated by it.
- Sse.CutIsPrefix: does not model bodies in which an event name carries a data line; Sse.CutAnyBody covers those.
- Streaming.ExactlyOnceInOrder: does not model the bytes between handler and follower; Delivery.ExactlyOnceOverBytes does.
- Delays between reconnects, headers other than the resume point, and the text a follower prints.
- The size in bytes reported for an oversized line.
- The fold of events into a run's summary, and the columns of a row beside its status: session, model, cost, tokens, denials.
- Lifecycle.Classify: does not model the error messages beside the status.
- Shutdown recorded as cancelled: a run whose base context ends is classified by what its process left, as in the code.
- Gating.Executor.Trigger: does not model the stash of passing results and their attachment to the row, nor the prose of the reasons.
- Deleting a task, which deletes its rows.
- Health: Snapshot, the bounded fan-out of CheckAll, saving results, and the parsing of command output; a request given up while it waits is a step.
- Paging.ListExecutions: the text search is a parameter of the filter, and the row's timestamp is taken as its text, which reading and writing leaves unchanged (Timestamps.FormatUndoesParse).
- KeyValue.PurgingIsInvisible: does not model creation times, nor whether DeleteKV found its key, as part of what is read; both depend on purging, as KeyValue.PurgeShowsToWritersIff says.
- Timestamps.FormatUndoesParse: does not model the other two layouts that reading accepts, for rows written elsewhere, nor what Go accepts in the written layout beyond it: a comma before the milliseconds and an hour of one digit.
- CatchUp.SameFireIff: does not model passes with more than 100000 fire times missed, whose answer is not the greatest (Schedule.MissedIsGreatest).
- Schedules whose next fire time depends on when it is asked for (`@every`).
- Two daemons over one database other than in CatchUp: reaping at start would cancel the other's rows.
- Login flows, notification, configuration, packaging and the user interface.
