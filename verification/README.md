# Verified models of the repository's protocols and algorithms

This project models the parts of the repository whose correctness rests on an argument rather
than on a single branch, and proves those arguments with Dafny 4.11. `dafny verify dfyconfig.toml`
checks everything. Nothing here runs the original code.

## What is modelled

* **Optimal matching and scoring** (`Matching`, `Scoring`). The reviewer eval pairs candidates
  with goldens by a cached bitmask recursion. The cached recursion, with its table, returns what
  the plain recursion returns; that is a matching, and no matching listed in any order has more
  pairs, or as many with more total confidence. The scores built on it agree with each other, F
  scores lie between precision and recall (for every beta, 0 included), and pooled scores stay
  within the range of the examples'.
* **The sandbox bridge** (`BridgeClient`, `BridgeProtocol`, `BridgeHazards`). Client, server and network as
  interleaved steps: lost or late polls, lost responses and acknowledgements, closing, reopening.
  A request is executed at most once as long as no step puts a request the client has started, or
  is about to receive, back in the queue. After the first step that does, the run can go on to
  execute a request twice exactly when the client is still active or awaits a poll not answered yet:
  a client that stops keeps the poll it awaits, and starts what that poll brings. No such step
  happens, and the guarantee holds, whenever every poll is processed before the client gives up on
  it, the ids a poll leaves out are settled, and the bridge is reopened only once closed. One failing
  case is exhibited: a poll the client has abandoned that reaches the server after a newer poll
  handed a request out. The client does not look at its held set when a request arrives, so the
  server's view is the whole protection, and the comment at bridge-client/src/bridge.ts:261, that a
  command is never run a second time, holds under these conditions.
* **Following event streams** (`Sse`, `Collector`, `Following`). An incremental decoder, a
  collector that picks one run out of a replayed log, a reconnect loop and a loop over a task's
  runs, each proved equal to one pass over an undisturbed log: the task's result is one fold over
  the result calls in the log of every run followed, and every run is followed exactly once. What
  an earlier run left in the log is skipped exactly when none of its `running` events lacks a run
  id: one without an id opens the collector, and the events after it can then end the run. The
  wire format follows the code where it and section 9.2.6 of the WHATWG HTML standard differ: a
  lone CR ends no line, the id is reset with each frame, and an event without data is dispatched.
* **The bounded output window** (`OutputWindows`). Chunked head and tail buffers report what slicing
  the whole output would, for every `keep`.
* **The CI watch** (`CheckState`, `BabySit`, `BabySitRuns`). One saved record under evaluations,
  webhooks, recorded reruns, restarts and stops. The bounds on wakeups hold on every run, counted
  since the record was last removed or its head last changed, whatever outside calls fail in between,
  as long as the record itself can be saved; and a failing or green head does wake the agent whenever
  they allow it. A required-check list that cannot be read never ends the watch, because every
  verdict starts the count of errors again.
* **TTL claims** (`EventClaims`). A table of leases with sweeping, deferral and a sliding-window
  limit. The limited claim reads the clock twice, once to count and once to claim. Its callers give
  a key back when they fail, so the limit is on the claims that were not given back while the window
  over them was open; and a claim is refused as limited only when that many keys of its group were
  granted or deferred within the window.
* **Context blocks** (`ContextBlocks`, `ContextTexts`). Which blocks to send again as a conversation
  grows and is summarised. A preparation puts its blocks in force exactly when the visible part
  starts within the conversation and XML accepts every block; a block that XML refuses has no hash,
  is never in force, and is sent again on every turn. A run context is accepted exactly when its id
  and its stripped guidance hold only legal characters.
* **XML written and read back** (`Xml`, `XmlWriting`, `Envelopes`). A reader of the part of XML 1.0
  the messages use, and the round trips: text, attribute values, split CDATA sections, run contexts,
  and input messages with their data elements, each with the exact condition under which something
  is read at all. Authored text comes back stripped exactly when XML accepts the message and the
  text holds no carriage return inside, because XML reads line ends as line feeds.
* **Run completion** (`ReplyRace`, `FailureReplies`). Handlers of one failed run racing over the
  claims table, and the streak limit over sequential completions. The limit of three holds up to
  lost metadata writes: at most one more reply for each, and there are runs in which each lost
  write does let one more through.
* **Replay order** (`CallOrder`). A parallel batch's results come in the order its ids were first
  called, results for one id in the order they landed, and the rest of the history as it is. Two
  histories replay alike exactly when they differ only in how
  results that belong at different places of a batch landed.
* **The follow-up queue** (`MessageQueue`). A capped queue whose every accepted message is queued,
  consumed, cleared or dropped. Its ids guard against a send retried while the first is still
  queued; once that one is consumed, a retry is a new message.

`NewestWindow` holds removal, and what lists that keep only their newest entries remember, shared
by the CI watch, the completions, the bridge and the queue. `Options` is the shared optional value.

Code that works step by step is modelled as methods over fields, arrays or loops, each proved equal
to a function of its inputs and the old state; the properties are lemmas about that function and
about whole runs of it. Outside calls appear as their outcomes, clocks as readings that never go
back, hashes as injective.

## Model

| member | source | states |
|---|---|---|
| Matching.SetBitSetsOnlyThatBit | evals/reviewer/judge.py:249-256 | Setting a golden's bit in the mask changes no other bit |
| Matching.Solver.SolveCached | evals/reviewer/judge.py:241-264 | The recursion with its table returns what the plain recursion returns, and fills the table only with such answers |
| Matching.SelectPairsCached | evals/reviewer/judge.py:238-266 | The cached selection equals the plain one |
| Matching.SolveIsSound | evals/reviewer/judge.py:242-264 | What the recursion finds is a matching of the candidates and goldens left, scored correctly |
| Matching.SolveIsOptimal | evals/reviewer/judge.py:242-264 | No matching of what is left, in any order, beats the recursion's answer in (pairs, confidence) |
| Matching.SelectPairsIsOptimal | evals/reviewer/judge.py:238-266 | The selected pairs are a matching and no matching is lexicographically better |
| Matching.SubmatrixNeverMatchesMore | evals/reviewer/judge.py:314-322 | Matching only some candidates with some goldens never finds more pairs |
| Scoring.DedupeCandidates | evals/reviewer/judge.py:216-229 | Returns the first candidate with each key, in order, and how many were left out |
| Scoring.DedupedKeepsKeys | evals/reviewer/judge.py:216-229 | No key is lost and none stays twice |
| Scoring.DedupedKeepsFirsts | evals/reviewer/judge.py:216-229 | Each survivor is the first comment with its key |
| Scoring.DedupedKeepsOneOfEach | evals/reviewer/judge.py:216-229 | No two survivors agree in file, line and words, and every candidate agrees with a survivor |
| Scoring.DedupedIsIdempotent | evals/reviewer/judge.py:216-229 | Deduplicating again changes nothing |
| Scoring.FBetaIsBetween | evals/reviewer/judge.py:411-414 | For every beta, the F score of precision and recall lies between them |
| Scoring.FBetaFromCounts | evals/reviewer/judge.py:269-276 | With a true positive, the F score is the weighted quotient of the counts |
| Scoring.JudgedScoresAgree | evals/reviewer/judge.py:300-351 | In one example the clamps never act, tp+fp and tp+fn are the list sizes, and the medium matching has no more pairs than the full one |
| Scoring.JudgedProfilesAgree | evals/reviewer/judge.py:279-330 | Strict tp is at most core tp is at most tp, with the same fp, and tp+fn counts the goldens in each profile |
| Scoring.CountsTable.Record | evals/reviewer/judge.py:174-176 | Recording an example replaces its earlier counts in place or adds them at the end, and touches no other |
| Scoring.CountsTable.Drain | evals/reviewer/judge.py:179-183 | Draining returns the counts in order and leaves none |
| Scoring.PooledRatio | evals/reviewer/judge.py:455-459 | Pooling ratios that lie between two bounds gives a ratio between them |
| Scoring.PrecisionStaysWithinExamples | evals/reviewer/judge.py:443-481 | Micro and macro precision lie between the smallest and largest per-example precision |
| Scoring.RecallStaysWithinExamples | evals/reviewer/judge.py:443-481 | Micro and macro recall lie between the smallest and largest per-example recall |
| Scoring.JudgedScoresAreFromCounts | evals/reviewer/judge.py:309-325 | What an example records has the precision and recall of its own counts, as the aggregate bounds need |
| Scoring.WhatTheMediumScoresCount | evals/reviewer/judge.py:314-322 | The medium counts add up to the comments of severity medium, high or critical |
| Scoring.WhatTheProfilesCount | evals/reviewer/judge.py:279-330 | Each profile's tp counts the matched goldens of its categories, and tp and fn all of them |
| Scoring.JudgedF1FromCounts | evals/reviewer/judge.py:269-276 | An example's F1, full and medium, is twice tp over twice tp plus fp plus fn, or 0 without a match |
| Scoring.AggregateFScores | evals/reviewer/judge.py:455-481 | Micro F1 and F2 are the quotients of the summed counts, and macro F1 lies within the examples' |
| Scoring.PartsAddUp | evals/reviewer/judge.py:434-439 | Synthetic and upstream totals add up to the overall totals |
| Scoring.PooledProfileScores | evals/reviewer/judge.py:484-501 | A profile's precision, recall, F1 and F2 over an experiment are the quotients of its totals |
| Scoring.TotalsAddUp | evals/reviewer/judge.py:484-501 | A total over an experiment is the sum over its parts |
| Scoring.WiderProfileIsNoLessPrecise | evals/reviewer/judge.py:484-501 | Over an experiment the strict profile finds no more than core, with the same fp, and is no more precise |
| OutputWindows.ConcatChunks | bridge-client/src/executor.ts:112-122 | The merged buffer is the chunks in order |
| OutputWindows.OutputWindow.Push | bridge-client/src/executor.ts:71-92 | A chunk extends what was written, and head and tail stay its two ends, the tail below keep plus its first chunk |
| OutputWindows.OutputWindow.FillHead | bridge-client/src/executor.ts:74-80 | The head takes what fits and the rest goes on to the tail |
| OutputWindows.OutputWindow.PushTail | bridge-client/src/executor.ts:81-91 | Shifting drops only chunks that keep bytes still follow |
| OutputWindows.OutputWindow.Finish | bridge-client/src/executor.ts:94-109 | The report is everything up to twice keep, and beyond that the first and last keep bytes with the exact number between |
| OutputWindows.Capture | bridge-client/src/executor.ts:64-110 | However a stream is chunked, the report depends only on its concatenation |
| OutputWindows.ReportAccountsForEveryByte | bridge-client/src/executor.ts:94-109 | A cut report is the output with a middle of exactly the omitted length left out |
| Sse.SseParser.Push | cli/src/stream.ts:32-44 | A chunk yields the frames of the lines it completes and keeps the rest |
| Sse.SseParser.ConsumeLine | cli/src/stream.ts:46-71 | One line sets a field, is ignored, or dispatches the fields gathered |
| Sse.WhatABlankLineDoes | cli/src/stream.ts:46-55 | A blank line dispatches what has data or an event name, even without data, and forgets all that was gathered |
| Sse.WhatALineSets | cli/src/stream.ts:56-71 | A line sets event, id or one more line of data by the name before its first colon, without one leading space; comments and other names are ignored |
| Sse.FeedTwice | cli/src/stream.ts:32-44 | Two pushes are one push of both texts |
| Sse.ChunkingIsInvisible | cli/src/stream.ts:26-72 | Any cutting into chunks gives the frames and the state of pushing the text whole |
| Sse.CutStreamYieldsPrefix | cli/src/stream.ts:26-72 | A stream cut short yields a prefix of the full stream's frames |
| Sse.WireIsRead | cli/src/stream.ts:36-70 | Any frames without an LF in event or id, written out, are read back with one CR lost at the end of each field line |
| Sse.RoundTripExactlyWhenWellFormed | cli/src/stream.ts:36-70 | Written frames are read back exactly when no field line holds an LF or ends in a CR |
| Collector.LaterResultIsMonoid | cli/src/stream.ts:113-119 | Keeping the later result is associative, with no result as its identity |
| Collector.FoldMeansLastNews | cli/src/stream.ts:113-119 | A fold of results is the last one that says something new |
| Collector.FoldMeansFirstWithoutNews | cli/src/stream.ts:113-119 | When none says anything new, the fold is the first result there is |
| Collector.LifecycleRunIdReadsItsShape | cli/src/stream.ts:104-110 | An event id of the synthesised shape names its run |
| Collector.NamedRunHasTheShape | cli/src/stream.ts:104-110 | No other event id names a run |
| Collector.RunCollector.HandleFrame | cli/src/stream.ts:152-185 | One frame's effect on the collector: errors end it, results of the open run are kept, lifecycle events open or end it |
| Collector.RunCollector.Lifecycle | cli/src/stream.ts:187-207 | Only this run's lifecycle opens the collector, and only once open does it end it |
| Collector.CollectRun | cli/src/stream.ts:210-236 | Reading a body chunk by chunk and stopping at the first decision equals collecting what it delivered at once |
| Collector.PrefixDecidesAsTheLog | cli/src/stream.ts:210-236 | A connection that drops part-way through a log, unless it ends closed or fails, ends as collecting the whole log does |
| Collector.PreambleIsSkipped | cli/src/stream.ts:135-208 | Frames that are no errors and none of which may open the run (a running event of its own, or of no named run) never affect the outcome |
| Collector.PreambleIsSkippedExactly | cli/src/stream.ts:187-196 | Errors aside, frames leave the collector as it started exactly when none of them may open the run |
| Collector.AnonymousEventsEndAnyRun | cli/src/stream.ts:187-207 | Any two texts that decode to running and completed events without an id end the run that is followed |
| Collector.ResultIsFold | cli/src/stream.ts:176-183 | The collector's result is the fold of the result calls it took, in order |
| Collector.AnErrorFrameDecides | cli/src/stream.ts:152-161 | An error frame ends the stream: closed for a status of 408, 429, or 500 and above, failed otherwise, with the detail or the data as its text |
| Collector.WhatEndsARun | cli/src/stream.ts:187-207 | Of lifecycle phases after running, exactly completed, failed and interrupted end an open run, each with its own status |
| Collector.AnotherRunsEventsAreIgnored | cli/src/stream.ts:187-196 | A lifecycle event whose id names another run neither opens nor ends this one |
| Collector.NamespaceDecidesTheLevel | cli/src/stream.ts:169 | An event is a subagent's exactly when its namespace is a nonempty list of strings |
| Collector.AResultCallIsKept | cli/src/stream.ts:122-133 | A result call of the open run is kept exactly when its exit code is whole and in 0 to 255, and it does not repeat one |
| Following.FollowRun | cli/src/stream.ts:264-293 | The reconnect loop returns the first outcome that is not closed, gives up only over budget, and waits with the capped doubling backoff |
| Following.AttemptsCountShortConnections | cli/src/stream.ts:283-288 | The budget passes m exactly when the last m connections were short |
| Following.GivingUpTakesTenShortConnections | cli/src/stream.ts:283-288 | The loop gives up exactly after more than ten tries whose last ten were all under a minute |
| Following.BackoffIsBounded | cli/src/stream.ts:290-291 | Waits never shrink within a streak and stay between one and thirty seconds |
| Following.BackoffIsTheLadder | cli/src/stream.ts:290-291 | The waits are one, two, four, eight and sixteen seconds, then thirty |
| Following.WaitsAsTheyCome | cli/src/stream.ts:283-291 | The waits of a followed run: a second first and after a long connection, otherwise twice the last, up to thirty |
| Following.AnErrorFrameIsRetried | cli/src/stream.ts:281-291 | A connection that ends in an error frame whose status may pass is followed by another within the budget; any other error frame is the end |
| Following.WhichFailuresAreRetried | cli/src/stream.ts:252-282 | Of the ways opening or reading a stream fails, exactly API errors of 408, 429, or 500 and above and unclassified errors are tried again |
| Following.AMissingBodyIsRetried | cli/src/stream.ts:215 | A response without a body counts as closed |
| Following.TenFailedPollsAreRetried | cli/src/stream.ts:318-326 | Ten passing failures in a row of the activity request are tried again, and the eleventh is thrown |
| Following.AnOutageEndsTheTask | cli/src/stream.ts:309-326 | Eleven failures from the start end the task with the eleventh's cause |
| Following.AnAnswerClearsTheCount | cli/src/stream.ts:317-345 | An answered request starts that count again |
| Following.FollowLog | cli/src/stream.ts:259-293 | If every connection delivers a prefix of one log, any outcome but closed is that of collecting the log once |
| Following.FollowTask | cli/src/stream.ts:309-346 | The task loop over activity polls, with its failure budget, equals the step function folded over the polls |
| Following.TaskResultIsOneFold | cli/src/stream.ts:317-345 | The task's result is one fold over the results of every run followed, in order |
| Following.OutcomeAsTheLog | cli/src/stream.ts:259-293 | Over connections that replay one log, the reconnect loop's outcome, unless closed, is that of collecting the log |
| Following.ResultsFoldCalls | cli/src/stream.ts:176-183 | Folding the results of runs collected from the log is folding their result calls, run after run |
| Following.EveryResultCallIsFolded | cli/src/stream.ts:302-346 | Over connections that replay one log, the task's result is one fold over every result call of every run followed, in order, and what the last stream reported when it closed |
| Following.RunsAreFollowedInOrder | cli/src/stream.ts:321-344 | With activity listing later runs oldest first, the runs followed are consecutive runs of the thread |
| Following.ConsecutiveRunsAreDistinct | cli/src/stream.ts:321-344 | No run is followed twice |
| Following.EveryRunIsFollowed | cli/src/stream.ts:302-345 | A loop that ends because the thread settled has followed every run from the given one on, each at its place; otherwise it ended at a poll the backend could not answer |
| Following.DoneMeansNothingIsLeft | cli/src/stream.ts:333-345 | The loop ends without a closed stream only at a poll where the backend cannot say or reports a settled thread with no run left |
| BridgeClient.Bridge.HeldForPoll | bridge-client/src/bridge.ts:210-215 | A poll names the newest thousand held ids |
| BridgeClient.Bridge.PollAnswered | bridge-client/src/bridge.ts:216-217 | Every request received is held before its command starts, and the backoff restarts |
| BridgeClient.Bridge.OnReopened | bridge-client/src/bridge.ts:162-182 | A reopening refused for good stops the client, any other leaves it running |
| BridgeClient.Bridge.OnPollFailed | bridge-client/src/bridge.ts:218-247 | What each failure of a poll does: stop for good, try to reopen and wait, or wait and retry |
| BridgeClient.Bridge.OnReplied | bridge-client/src/bridge.ts:274-299 | What each answer to a reply does to the held set and the client |
| BridgeClient.Bridge.Poll | bridge-client/src/bridge.ts:203-253 | The poll loop, its waits and its end, over any outcomes of the polls |
| BridgeClient.Bridge.Deliver | bridge-client/src/bridge.ts:273-301 | The reply loop, its waits and what it leaves held, over any answers |
| BridgeClient.HoldKeepsAndAdds | bridge-client/src/bridge.ts:263 | Receiving requests holds them all and forgets none |
| BridgeClient.HoldKeepsOrder | bridge-client/src/bridge.ts:213 | Held ids stay in the order they were first held, none twice |
| BridgeClient.PollBackoffIsBounded | bridge-client/src/bridge.ts:218-247 | Only a failure for good, or a reopening refused for good, stops the client; every wait lies between one and ten seconds |
| BridgeClient.WhatAFailedPollDoes | bridge-client/src/bridge.ts:218-247 | A running client survives silence, 408, 429, 500 and above, and a 409 whose reopening is not refused; it reopens, waits or stops accordingly |
| BridgeClient.PollingStopsExactly | bridge-client/src/bridge.ts:203-252 | Over any polls the client keeps running exactly when it survives each of them |
| BridgeClient.FailuresClimbTheLadder | bridge-client/src/bridge.ts:235-247 | A row of failures that do not end the client waits one, two, four, eight, then ten seconds |
| BridgeClient.ARefusalEndsTheLoop | bridge-client/src/bridge.ts:162-176 | The first failure or refused reopening that ends the client is the loop's last poll, with one wait more after a refused reopening |
| BridgeClient.OnlyASettledResultIsForgotten | bridge-client/src/bridge.ts:261-301 | A result leaves the held set exactly when one of its three attempts is settled by the server before any is refused |
| BridgeProtocol.ClaimKeepsInv | openswe/bridge/store.py:378-409 | Claiming takes only queued requests, so nothing started or about to start is claimed again |
| BridgeProtocol.RequeueKeepsInv | openswe/bridge/store.py:349-375 | Re-queueing what a poll does not name is safe when it names all that was started |
| BridgeProtocol.RunsWithoutHazardExecuteAtMostOnce | bridge-client/src/bridge.ts:203-302 | In every interleaving in which no request in the client's hands is re-queued, each is executed at most once |
| BridgeHazards.HazardAllowsASecondExecution | openswe/bridge/store.py:349-375 | After any such re-queueing, a client that is active or awaits an unanswered poll can go on to execute a request twice |
| BridgeHazards.SpentStartsNothingTwice | bridge-client/src/bridge.ts:155-158 | A stopped client that awaits nothing, or only an answered poll, starts nothing twice whatever is re-queued |
| BridgeHazards.AHazardMattersExactly | bridge-client/src/bridge.ts:203-217 | After a re-queueing a second execution can follow exactly when the client is active or awaits an unanswered poll |
| BridgeProtocol.OrderlyIsNoHazard | openswe/bridge/routes.py:141-167 | Polls processed while awaited, covering windows and reopening only when closed never re-queue what the client has |
| BridgeProtocol.OrderlyRunsExecuteAtMostOnce | bridge-client/src/bridge.ts:203-302 | In every orderly run each request is executed at most once, and every executed id is held or settled |
| BridgeProtocol.WindowDecidesTheNextPoll | bridge-client/src/bridge.ts:18-22 | The arrival of the next poll re-queues a started request exactly when its window leaves an unsettled one out |
| BridgeProtocol.SmallHeldIsCovered | bridge-client/src/bridge.ts:213 | With at most a thousand ids held, every poll names them all |
| BridgeProtocol.AResultIsTriedThreeTimes | bridge-client/src/bridge.ts:274-302 | In every run a result is tried at most three times, and its job ends exactly with a settling answer, a 401, the third try, or a stopped client |
| BridgeProtocol.ReopeningAndClosing | openswe/bridge/store.py:246-262 | A bridge is reopened when closed or stale and then is neither; closing settles everything and leaves nothing to claim |
| BridgeHazards.LatePollIsAHazard | openswe/bridge/routes.py:141-167 | A poll processed after the client gave up on it can re-queue a running request |
| BridgeHazards.StoppedIsReached | bridge-client/src/bridge.ts:155-217 | A run without any re-queueing leads on from there to a stopped client that awaits a poll |
| BridgeHazards.AStoppedClientCanStartTwice | bridge-client/src/bridge.ts:155-217 | The late poll lets that stopped client execute its request twice too |
| EventClaims.Claims.Claim | openswe/event_claims.py:44-49 | A claim wins exactly when no live row holds its key, whatever lapsed rows it sweeps first |
| EventClaims.Claims.Held | openswe/event_claims.py:52-62 | Held means a live row |
| EventClaims.Claims.Remaining | openswe/event_claims.py:65-75 | The time left is positive exactly for a live row, and then reaches its expiry |
| EventClaims.Claims.Defer | openswe/event_claims.py:78-90 | After a deferral the key is held at least that long, and a live expiry never shrinks |
| EventClaims.Claims.Release | openswe/event_claims.py:93-99 | A release removes exactly that row |
| EventClaims.Claims.ClaimWithinLimit | openswe/event_claims.py:105-129 | Limited exactly when the group's recent rows reach the limit, otherwise a claim |
| EventClaims.LiveRowsStand | openswe/event_claims.py:21-99 | A live row survives every statement but its own release, with its claim time and at least its expiry |
| EventClaims.AHolderIsAlone | openswe/event_claims.py:44-62 | Until its time passes or it is released, a claim excludes every other on its key |
| EventClaims.SweepsAreInvisible | openswe/event_claims.py:21-99 | With any sweeps, every answer is that of a plain map that keeps everything |
| EventClaims.ClaimsAreWonExactlyWhenFree | openswe/event_claims.py:44-99 | After any run a claim wins exactly when no grant since the key's last release has time left |
| EventClaims.HitIsSpaced | openswe/event_claims.py:118-127 | A limited claim goes through only when the one limit places before it has left the window |
| EventClaims.ReleaseKeepsWindow | openswe/event_claims.py:93-99 | A release takes at most its key's one claim in the window back and leaves the rows behind all others |
| EventClaims.NoWindowHoldsMoreThanTheLimit | openswe/event_claims.py:105-129 | With any releases, every window holds at most limit limited claims of a group that were not given back within its length of being made |
| EventClaims.NoWindowHoldsMoreHitsThanTheLimit | openswe/event_claims.py:105-129 | When none is given back, that is every limited claim let through |
| EventClaims.AReleaseMakesRoom | openswe/event_claims.py:93-129 | Releasing a group's key does let a second claim into a window of one |
| EventClaims.LimitedMeansTheWindowIsFull | openswe/event_claims.py:105-126 | In any run, a claim is refused as limited only when at least limit keys of the group were granted, or first deferred, within the window |
| EventClaims.RoomDecidesByTheKey | openswe/event_claims.py:124-129 | With room in the window, a limited claim is won exactly when its key is free |
| CheckState.WhatEachStateMeans | openswe/baby_sit.py:506-525 | When exactly a check set is failure, success or blocked, and that only failure lists signals |
| CheckState.SignalsListTheFailures | openswe/baby_sit.py:478-512 | A failing check set lists one signal for each failing run and then each failing status, in order, with its name, conclusion and link |
| CheckState.TheGraverStateWins | openswe/baby_sit.py:506-525 | Two nonempty check sets together are in the graver of their states |
| CheckState.OrderDoesNotMatter | openswe/baby_sit.py:506-525 | The state depends only on which checks there are, not on order or repeats |
| BabySit.WatchRecord.EvaluatePull | openswe/baby_sit.py:575-667 | One evaluation's effect on the saved record, its answer and its wakeup, for every outcome of its calls |
| BabySit.WatchRecord.Evaluate | openswe/baby_sit.py:557-572 | Missing, stopped and tokenless watches, and otherwise an evaluation |
| BabySit.WatchRecord.ReportReady | openswe/baby_sit.py:438-475 | A green head is reported once, failed reports are counted and end the watch at three |
| BabySit.WatchRecord.Dispatch | openswe/baby_sit.py:643-667 | A failure wakeup is recorded before it is sent and forgotten when it fails |
| BabySit.WatchRecord.RecordEvaluationError | openswe/baby_sit.py:532-547 | Errors that will not pass are counted and end the watch at three |
| BabySit.WatchRecord.Webhook | openswe/baby_sit.py:701-717 | A delivery already listed changes nothing; any other is listed and evaluated |
| BabySit.WatchRecord.Retry | openswe/baby_sit.py:751-796 | A recorded rerun raises the count up to three and alerts once for each check |
| BabySit.WatchRecord.Start | openswe/baby_sit.py:287-341 | A restart on the same head carries counters and lists over; on another it starts afresh |
| BabySit.WatchRecord.Stop | openswe/baby_sit.py:344-356 | A stop deletes the record, or leaves it inactive when its job could not be cancelled |
| BabySitRuns.StepKeeps | openswe/baby_sit.py:557-796 | Every operation keeps the record's lists and counters equal to what the wakeups sent imply |
| BabySitRuns.WakeupsAreBounded | openswe/baby_sit.py:597-667 | In every run, since the record was last removed or its head last changed at most three failure wakeups, one for each rerun count, and one ready wakeup; counts and capped lists never overflow |
| BabySitRuns.AFailureWakesOncePerRerun | openswe/baby_sit.py:636-667 | A failing head wakes the agent exactly when reruns are left, this rerun count has not woken it, and the call goes through |
| BabySitRuns.AGreenHeadIsReported | openswe/baby_sit.py:438-475 | A green head with nothing required missing wakes the agent exactly when no card waits for it, the call goes through, and this head was not reported |
| BabySitRuns.WhenAGreenHeadIsNotReported | openswe/baby_sit.py:438-475 | Otherwise it is left alone, or the call failed, and the third such failure on a head stops the watch |
| BabySitRuns.AGreenHeadWakesOnce | openswe/baby_sit.py:438-475 | In every run a green head wakes the agent exactly when no ready wakeup was sent since it became the head |
| BabySitRuns.WhatEachVerdictAnswers | openswe/baby_sit.py:610-667 | What each verdict answers, missing and unreadable required checks included, which never stop the watch |
| BabySitRuns.WhatNoVerdictAnswers | openswe/baby_sit.py:564-608 | Errors that may pass leave no trace, the third lasting one in a row stops the watch, and so does a closed pull request |
| BabySitRuns.StoppedIsGone | openswe/baby_sit.py:344-356 | A stopped watch is gone, or inactive when its job could not be cancelled, and an inactive or missing one answers nothing else |
| BabySitRuns.ANewHeadStartsOver | openswe/baby_sit.py:597-603 | A head that moved starts with nothing counted, listed or reported |
| BabySitRuns.ARerunIsRecordedExactly | openswe/baby_sit.py:751-796 | A rerun is recorded exactly when the watch runs, is the caller's, stands on that head and has fewer than three |
| BabySitRuns.WhatAWebhookDoes | openswe/baby_sit.py:701-717 | A webhook evaluates a running watch unless its delivery is listed, with the installation it names |
| BabySitRuns.WhatAStartLeaves | openswe/baby_sit.py:287-341 | A start leaves another's watch alone, keeps what is known of the same head, and knows nothing of another |
| BabySitRuns.AcceptedTwiceMeansFiftyBetween | openswe/baby_sit.py:710-714 | Between two acceptances of one delivery id at least fifty other distinct ids are accepted |
| NewestWindow.FreshStaysApart | openswe/baby_sit.py:710-714 | An entry added only when the newest n do not hold it keeps equal entries more than n apart |
| ContextBlocks.DynamicContext | openswe/input_messages.py:233-251 | The first text that is a block whose claimed hash, if any, is its own |
| ContextBlocks.WhichTextsCount | openswe/input_messages.py:233-251 | A text counts as a block exactly when it claims no hash or its own |
| ContextBlocks.WhichBlocksShareAKey | openswe/input_messages.py:244-250 | Blocks share a key exactly when kind and id agree, or without an id when they are the same |
| ContextBlocks.HashesFromMessages | openswe/input_messages.py:268-277 | The overwritten table's hashes are exactly those of the latest block of each key |
| ContextBlocks.VisibleHashes | openswe/input_messages.py:280-295 | The same for the part of the conversation after the cutoff |
| ContextBlocks.Prepare | openswe/prompt.py:261-273 | A preparation adds, in order, the blocks that are not in force, those without a hash among them |
| ContextBlocks.MissingAreNotInForce | openswe/prompt.py:261-273 | A block is added exactly when it is not the one in force |
| ContextBlocks.ReadableBlockIsInForce | openswe/server.py:1618 | After a preparation a current block is the latest visible of its key exactly when it can be read |
| ContextBlocks.OtherKeysAreKept | openswe/server.py:1618 | A preparation changes no other key's block |
| ContextBlocks.SecondPreparationAddsOnlyTheUnreadable | openswe/prompt.py:261-273 | Preparing again adds the unreadable blocks and nothing else, so nothing exactly when all can be read |
| ContextBlocks.PreparationWorksExactly | openswe/input_messages.py:233-295 | A preparation puts its blocks in force exactly when the cutoff lies within the conversation and every block can be read |
| ContextBlocks.EveryPreparationLeavesItsBlocksInForce | openswe/input_messages.py:268-295 | After any turns, messages and summarisations, a preparation leaves exactly its readable blocks in force, and another would add only the unreadable ones |
| ContextTexts.RunContextIsReadable | openswe/input_messages.py:352-362 | A run context carries a block exactly when its id and its stripped guidance are legal |
| ContextTexts.EntityContextIsReadable | openswe/input_messages.py:343-349 | An introduction carries a block exactly when its id and its lines are legal |
| ContextTexts.RunContextIsInForceExactly | openswe/prompt.py:261-273 | A run context prepared alone is in force exactly when its characters are legal and the cutoff lies within the conversation |
| ContextTexts.ForbiddenGuidanceIsSentEveryTurn | openswe/input_messages.py:239-242 | Guidance with a character XML forbids is never in force and every preparation sends it again |
| ContextBlocks.Introduce | openswe/input_messages.py:454-464 | Introductions go out once each, only those not yet injected, and the injected set grows by what went out |
| XmlWriting.TextReadsBack | openswe/input_messages.py:133-134 | Escaped text is read back, with line ends normalized, exactly when its characters are legal |
| XmlWriting.NormalizedIsSame | openswe/input_messages.py:133-134 | Line ends survive reading exactly when there is no carriage return |
| XmlWriting.ValueReadsBack | openswe/input_messages.py:137-138 | An escaped attribute value is read back, with white space as spaces, exactly when its characters are legal |
| XmlWriting.AttributesReadBack | openswe/input_messages.py:377-396 | A start tag's attributes are read back in order exactly when XML accepts their names and values |
| XmlWriting.SplitTextReadsBack | openswe/input_messages.py:358-361 | A text with its CDATA closes split over sections reads as one character data, line ends normalized, exactly when its characters are legal |
| Envelopes.LinesEscapeAsOne | openswe/input_messages.py:323-334 | Escaping each field as it is written escapes the lines as a whole |
| Envelopes.LinesOfOneField | openswe/input_messages.py:325-333 | One field is nothing when empty, a line with its name when it has one, and else its name and its indented lines |
| Envelopes.LinesOfMoreFields | openswe/input_messages.py:323-334 | Fields follow each other line by line, the empty ones left out |
| Envelopes.ValueLinesAreIndented | openswe/input_messages.py:329-331 | Every further line of a field starts with two spaces, so no value reads as another field |
| Envelopes.IndentsComeOff | openswe/input_messages.py:329-331 | Without the indents a value of several lines is the value again |
| Envelopes.DataReadsBack | openswe/input_messages.py:313-321 | A data element is read back as its tag and its lines exactly when XML accepts them |
| Envelopes.MessageReadsBack | openswe/input_messages.py:377-396 | A serialized message is one element with its attributes, text and data elements exactly when XML accepts it, and otherwise unreadable |
| Envelopes.AuthoredTextComesBack | openswe/input_messages.py:196-206 | A nonblank authored text comes back stripped exactly when XML accepts the message and no carriage return is inside the text |
| Envelopes.RunContextReadsBack | openswe/input_messages.py:352-362 | A run context is one element, its character data the stripped guidance with a line feed on each side and line ends normalized, exactly when id and guidance are legal |
| Envelopes.GuidanceIsReadWhole | openswe/input_messages.py:352-362 | That data is the guidance itself exactly when it also holds no carriage return |
| Envelopes.EntityContextReadsBack | openswe/input_messages.py:343-349 | An introduction is one element with its lines exactly when its id and its lines are legal |
| ReplyRace.TryClaimKeepsInv | openswe/completion.py:674-678 | A handler wins the claim only when no holder or reply under a running claim is left |
| ReplyRace.GiveBackKeepsInv | openswe/completion.py:689-694 | Giving the claim back after posting nothing never frees another handler's claim |
| ReplyRace.OneReplyPerClaimLifetime | openswe/completion.py:674-694 | However handlers of a failed run interleave, one claim carries at most one reply |
| ReplyRace.AClaimIsWonExactly | openswe/completion.py:674-678 | In every run over a key that starts free, a handler wins the claim exactly when no other holds it and none replied under a claim still running |
| ReplyRace.EveryPostIsAReply | openswe/completion.py:680-704 | The replies of a run are its posts that went out |
| ReplyRace.AFailedPostLetsAnotherReply | openswe/completion.py:680-694 | A handler that could not post gives its claim back, and another answers the run |
| FailureReplies.Thread.HandleFailure | openswe/completion.py:621-710 | What one failed run's completion does to the metadata and the claims, for every outcome of its calls |
| FailureReplies.Thread.HandleSuccess | openswe/completion.py:372-394 | A success with a run id resets the streak when its write goes through |
| FailureReplies.ARowOfFailuresFallsSilent | openswe/completion.py:647-672 | A row of event-woken failures gets at most three replies, and one more for each metadata write lost |
| FailureReplies.EachLostWriteLetsOneMoreThrough | openswe/completion.py:647-704 | For every number of lost writes there is a row of failures of different runs with three replies more than that |
| FailureReplies.ASuccessAllowsThreeMore | openswe/completion.py:372-394 | After a success whose write went through, the next three failures of unheard runs are answered |
| FailureReplies.WhenAFailureIsAnswered | openswe/completion.py:636-710 | What a failure of an unheard run comes to, and that its claim stays exactly when the reply was posted |
| FailureReplies.WhenAFailureIsLeftAlone | openswe/completion.py:621-680 | A run that was answered or is claimed by another handler is left alone |
| FailureReplies.ARunWithoutAnIdIsAnsweredOnce | openswe/completion.py:621-710 | A failure without a run id takes no claim and is answered once |
| FailureReplies.MarkKeepsMemory | openswe/completion.py:269-286 | The remembered run ids are exactly the newest twenty answered |
| FailureReplies.AnsweredTwiceMeansTwentyBetween | openswe/completion.py:269-286 | A run recorded as answered twice has twenty others recorded in between |
| CallOrder.PositionsOf | mda/rt/model_calls.py:104-107 | Each known id is placed at its first call |
| CallOrder.SkipResults | mda/rt/model_calls.py:108-110 | The batch's results are the tool results up to the first other message |
| CallOrder.ReplayOrder | mda/rt/model_calls.py:90-119 | The loop equals the recursive definition of the replayed history |
| CallOrder.SortSorts | mda/rt/model_calls.py:111-118 | A batch's results come out in the order of their places |
| CallOrder.SortIsStable | mda/rt/model_calls.py:111-118 | Results of one place, unknown ids among them, keep their order |
| CallOrder.SortIsCanonical | mda/rt/model_calls.py:111-118 | Two lists sort alike exactly when each place holds the same results in the same order |
| CallOrder.NothingIsLost | mda/rt/model_calls.py:90-119 | The replayed history is a permutation of the history |
| CallOrder.OthersStayInPlace | mda/rt/model_calls.py:90-119 | Every message that is no result of a parallel batch stays where it is |
| CallOrder.GrowingKeepsThePrefix | mda/rt/model_calls.py:90-95 | Replaying distributes over concatenation when the second part does not start with a result |
| CallOrder.ReplayIsCanonical | mda/rt/model_calls.py:90-119 | Two histories replay alike exactly when they differ only in how batch results landed |
| CallOrder.ReplayIsIdempotent | mda/rt/model_calls.py:90-119 | Replaying a replayed history changes nothing |
| CallOrder.LandingOrderDoesNotMatter | mda/rt/model_calls.py:104-118 | Results with distinct known ids sort alike however they landed |
| CallOrder.ResultsComeInCallOrder | mda/rt/model_calls.py:104-118 | Of two results after an Ai message with two or more calls, the one whose id was called first stands first |
| CallOrder.UnknownResultsStandLast | mda/rt/model_calls.py:111-118 | A result of no known id stands after the results of calls below the number of known ids, and before those above it |
| CallOrder.ResultsForOneIdKeepTheirOrder | mda/rt/model_calls.py:111-118 | Throughout the history, results for one id keep their order |
| MessageQueue.Queue.Put | openswe/message_queue.py:44-71 | A message is inserted unless its id is queued, and rows older than the newest hundred go |
| MessageQueue.Queue.ForThread | openswe/message_queue.py:79-86 | A row is in the queue exactly when it is a row of that thread, and the queue stands in increasing number |
| MessageQueue.Queue.Remove | openswe/message_queue.py:89-97 | A row goes exactly when it is that thread's and its number is named |
| MessageQueue.Queue.Clear | openswe/message_queue.py:100-103 | A row stays exactly when it is another thread's |
| MessageQueue.PutKeepsTheNewest | openswe/message_queue.py:44-71 | A queue becomes the newest hundred of itself and the new message; other queues stay |
| MessageQueue.ANewMessageStandsLast | openswe/message_queue.py:44-71 | A message without an id, or with one not queued in its thread, stands last in its queue |
| MessageQueue.ARepeatedSendChangesNothing | openswe/message_queue.py:48-55 | A message whose id is queued in its thread changes nothing |
| MessageQueue.EveryMessageIsAccountedFor | openswe/message_queue.py:1-5 | Each accepted message is exactly one of queued, consumed, cleared or dropped, and no queue holds an id twice |
| MessageQueue.ConsumingLeavesTheLater | openswe/message_queue.py:1-5 | Taking off what was read earlier leaves exactly the messages that came after |

## Left out

- SQL, HTTP, GitHub, Slack and the agent runtime: each call is one atomic step or an outcome.
- Several readings of the clock inside one SQL statement count as one reading.
- Rounding of confidences, precision, recall and F scores: exact reals instead of floating point.
- The model that judges a pair, and how its answer is parsed: any rectangular matrix.
- Case folding and white-space collapsing of comment texts: comments carry the normalised words.
- UTF-8 decoding of output and event streams: bytes on one side, decoded characters on the other.
- JSON parsing in the collector: a function from text to an optional value.
- A null run id in Following.EveryRunIsFollowed, as the run list after null may include the run already followed.
- Bridge close, its grace period, heartbeat timers and abort controllers; a bridge is started once.
- The owner checks of the bridge's server; only one client uses a bridge, and it is closed, open, or stale.
- BridgeClient.Bridge.Poll: nothing else touches the client between its polls; interleaving is the protocol's matter.
- BridgeClient.Bridge.Deliver: nothing else touches the client between its attempts, as for the polls.
- The message texts, dispatch configuration and timestamps of the CI watch, and finding which watches a webhook matches.
- BabySitRuns.WakeupsAreBounded: saves go through; one that fails after a ready wakeup (openswe/baby_sit.py:472-475) allows another.
- A restart of the CI watch in the middle of an evaluation, which the source does not lock out: steps are atomic.
- Lock and claim holders that outlive their claim: a release does not check who holds it, so holders act within their time.
- ReplyRace.OneReplyPerClaimLifetime: holders post and give back before their claim runs out, as above.
- EventClaims.NoWindowHoldsMoreThanTheLimit: a closed window of the same length may hold one more claim at its start.
- EventClaims.SweepsAreInvisible: leaves the limited claim out, whose count also sees lapsed rows until they are swept.
- An id that spells a block's hash: keys by id and keys by hash are kept apart.
- Comments, processing instructions, documents with other white space in tags, and names outside ASCII: not read.
- Envelopes nested in another root element, and contents of several texts: one text holding one message.
- Envelopes.DataReadsBack: field names that hold no markup characters, since the source writes them as they are.
- Failure replies to runs that a review, a channel or an incident reports itself, beyond whether they do.
- Previews, sender lookup and hidden messages of the follow-up queue; gaps in its sequence numbers.
- Background tasks, reconciliation, deployment scripts and user interfaces: plumbing, or no clean guarantee to prove.
