# DarkWire, verified

A Dafny model of the parts of DarkWire's Rust workspace that keep invariants over unbounded runs: the
agent turn with its tools, steering and figures; what a request carries of the stored history; the bridge
from chat channels to the hub, the projection of a turn's events, and the delivery queue behind it; and the
row accounting of the terminal's scrollback.

Each module follows one source file. Where the source changes state step by step there is a class or a
method with loops, and a value-level function that says what one step does; the method's `ensures` equates
the new state with that function, and the lemmas reason about runs of it. Beside the larger ones stands a
module that says over again, from the fields, the rows or the events themselves and without that function,
what must come of a step or a run, and proves that it does. What the code cannot decide
(tools, approvals, the order in which calls settle, what a provider streams, files, failing appends,
arriving steers, other threads) is an oracle or an arbitrary sequence of events, and nothing is assumed of
it beyond what a lemma's `requires` says.

| file | models |
|---|---|
| `Common.dfy`, `Messages.dfy` | optional values, `retain` and `position`; messages, calls, figures |
| `Delivery.dfy` | `crates/channels/src/delivery.rs`: the bounded queue, its producers, consumer and `Notify` |
| `PushFates.dfy` | what becomes of every queued message on a push, by its fields; wake-ups |
| `Dispatch.dfy` | `crates/agent/src/dispatch.rs`: groups, permissions, parallel runs, refusals |
| `DispatchRuns.dfy` | which calls of a batch run, what they do, and how the batch ends |
| `Steering.dfy` | `crates/agent/src/steering.rs`: the per-session queues and their one reader |
| `Figures.dfy`, `TurnLoop.dfy` | `crates/agent/src/agent_loop.rs`: step figures and the turn itself |
| `TurnRows.dfy`, `TurnEnds.dfy` | what an iteration stores and how it goes on; what a turn's figures count and why it ends |
| `History.dfy`, `HistoryWindow.dfy` | `crates/core/src/history.rs`, `crates/agent/src/history_window.rs` |
| `WindowRows.dfy` | the rows a request carries, by their places in the history, and their prices |
| `Attachments.dfy` | `crates/agent/src/attachments.rs`, and the bounded reads of `crates/core/src/workspace_files.rs` |
| `ShownFiles.dfy` | what each reference is shown as, and what a request's references are charged to |
| `ContextScale.dfy`, `Requests.dfy` | `crates/agent/src/context.rs`; what one request carries, end to end |
| `Bridge.dfy` | the session bridge of `crates/channels/src/manager.rs` |
| `BusySessions.dfy` | whom the bridge spares: status, cap and order of use, over runs |
| `Projection.dfy` | `crates/channels/src/projection.rs` |
| `ProjectionSays.dfy` | what a channel is told, read off the events with no state held |
| `Scrollback.dfy` | `crates/cli/src/chat_widget.rs`, `stream.rs` and `history_cell.rs` |
| `ScrollbackPages.dfy` | the terminal as a page of blocks and one open run, which the widget refines |

`dafny verify dfyconfig.toml` checks the whole project.

## What turned out false, and exactly when it holds

- `next` is a pop under the lock, then a look at the close token. A push and a close can fall in between, so
  `None` does not mean drained: `Delivery.NoneCanLeaveAMessage` is such a run. `Delivery.NoneMeansDrained`:
  the queue is empty exactly when no push fell there, or the last one had a full queue of one card and its
  updates evicted.
- A denial settles its card by a notice, which eviction takes before cards, so past the hard cap a card can
  reach its channel with the denial gone (`Delivery.FloodLosesTheDenial`). `Delivery.DenialIsLostIff`, over
  every run: a denial pushed is neither delivered nor queued exactly when some push met a queue at the hard
  cap with nothing to shed, no progress, and no plain notice older than the denial.
- `ensure` looks neither at the chain of moved conversations nor at the sessions in the table again before it
  inserts. A conversation that moves on while its connection is being opened leaves an entry whose session
  has moved, and the live entry's events go there (`Bridge.StaleInsertHidesTheLiveEntry`). Where every
  connection's events reach its own entry, an insert that does not lose its race leaves that so exactly when
  no entry the cap spares was opened under the key it takes (`Bridge.InsertKeepsEventsIff`); where messages
  on the session it was opened for reach every entry, exactly when its own session has not moved
  (`Bridge.InsertKeepsMessagesIff`). `Bridge.InsertSettlesIff` says what the stronger invariant takes.
- `follow` files an entry under its new key without looking who is there. `Bridge.FollowConservesIff`: no
  connection is lost exactly when no other entry has that key. It writes over what the chain said of the
  session it leaves, too. `Bridge.FollowKeepsLookupsFinite`: lookups stay finite exactly when the chain from
  the continuation does not come by that session, whether or not that session had moved before.
- `close_all` reaches what is in the table. A caller that missed before it connects and inserts after it, and
  nothing closes that connection any more (`Bridge.LateInsertStaysOpen`). `Bridge.ShutdownClosesAllIff`:
  everything opened so far is closed exactly when no caller holds a connection; with no caller in between,
  and none that asks again, nothing is open ever after (`Bridge.NothingReopens`).
- `SteeringQueue::close` while a steer is being read hands back a steer that is written too
  (`Steering.ClosingTooEarlyRepeatsASteer`). `Steering.SafeExactlyInTime`: an event, a close among them, keeps
  every steer settled once exactly when it comes in time, and a close does exactly when the reader is idle.
  The hub closes only after the turn's future has returned (`crates/server/src/hub.rs:2439`), and
  `TurnLoop.TurnsCloseInTime` shows every event of a turn, and the close after it, to be in time.
- The attachment cache's key omits the part's own type. Two parts that name one file of a type the table
  does not know share an entry, so a file named first as text and then as an image is shown as text twice,
  where without a cache it is an image the second time (`Attachments.SharedEntryShowsTheWrongType`).
  `Attachments.KeyOmitsThePartsType`, for any budget: the second part is shown as without a cache exactly
  when the first was not inlined, or both declare the same type, or no budget is left for it and it is no
  image that would be refused for what it is.
- A file rewritten under its old size and mtime is shown as it was (`Attachments.UndatedRewriteIsNotSeen`);
  while every rewrite leaves another, the cache changes nothing (`Attachments.CacheStaysTransparent`).
- `discard_history` says the tail written again holds every waiting row. `Scrollback.DiscardIsSafeIff`, over
  any run and with any number of rows asked for beside the waiting ones: it does exactly when no more rows
  wait than the conversation shows, which a change of conversation can break
  (`Scrollback.DiscardAfterReopenLosesRows`), and the fold the waiting rows start in, if its summary waits
  while early rows of it are gone, has those gone rows fit the room. `Scrollback.ClosedFoldNeedsRoom` says
  the same of one fold as it commits, drained or not.

## Model

| member | source | states |
|---|---|---|
| Delivery.DeliveryQueue.Push | crates/channels/src/delivery.rs:107-128 | a push sheds, appends or evicts as the history-carrying queue says, and leaves a permit when it queued something |
| Delivery.DeliveryQueue.PushLocked | crates/channels/src/delivery.rs:107-125 | the locked half of a push, `over` included |
| Delivery.DeliveryQueue.Shed | crates/channels/src/delivery.rs:132-155 | superseded progress goes, else one update whose card is gone, else the incoming update itself |
| Delivery.DeliveryQueue.Evict | crates/channels/src/delivery.rs:159-185 | oldest progress, plain notice, card or anything, a card with the updates that settle it |
| Delivery.DeliveryQueue.TakeFront | crates/channels/src/delivery.rs:188-198 | the front is delivered, and `over` falls when the length is back at the bound |
| Delivery.ShedRemoves | crates/channels/src/delivery.rs:132-155 | shedding only takes entries out, and only redundant ones |
| Delivery.EvictRemoves | crates/channels/src/delivery.rs:159-185 | eviction takes the victim, and besides it only updates that settle an evicted card |
| Delivery.EvictPriority | crates/channels/src/delivery.rs:159-185 | a reply or error goes only when no progress or notice is queued, an update only when no card is; no update of an evicted card stays |
| Delivery.VictimIsTheOldestOfTheLeast | crates/channels/src/delivery.rs:159-176 | the victim is the oldest of the messages given up most readily: progress, plain notices, cards, the rest |
| Delivery.PushKeeps | crates/channels/src/delivery.rs:107-128 | a push keeps order, accounting, bounds, redundancy of what was shed, and card pairing |
| Delivery.TakeKeeps | crates/channels/src/delivery.rs:188-198 | so does a pop |
| Delivery.NeverReordered | crates/channels/src/delivery.rs:107-212 | over every interleaving, delivered ++ queued is the pushes at strictly increasing positions |
| Delivery.NeverPastTheCap | crates/channels/src/delivery.rs:107-128 | length never exceeds the hard cap, and above the bound implies `over` |
| Delivery.NoLossBelowTheHardCap | crates/channels/src/delivery.rs:107-155 | in a run that evicts nothing every reply, notice and error is there, and a missing progress has a later progress or reply of its turn there |
| Delivery.EveryPushHasOneFate | crates/channels/src/delivery.rs:107-198 | each push is in exactly one of delivered, queued, shed, evicted |
| Delivery.CardsKeepTheirUpdates | crates/channels/src/delivery.rs:54-185 | with no approval asked for twice, a queued card has behind it every settling update pushed after it, evictions included |
| Delivery.NoLostWakeup | crates/channels/src/delivery.rs:188-212 | a parked consumer with a message queued, or a closed token, and no push in flight can wake |
| Delivery.NoneMeansDrained | crates/channels/src/delivery.rs:188-206 | `None` leaves the queue empty exactly when no push fell between the empty pop and the look at the token, or the last one there emptied it |
| Delivery.NoneCanLeaveAMessage | crates/channels/src/delivery.rs:188-206 | a run in which `None` leaves a message queued |
| Delivery.PushEmptiesIff | crates/channels/src/delivery.rs:107-185 | a push leaves nothing queued exactly when it meets a hard cap of one card and its updates, and is one more |
| Delivery.EvictionKeepsADenialIff | crates/channels/src/delivery.rs:159-185 | with a card and its denial queued, one eviction keeps the card, and the denial exactly when a progress is queued or another plain notice before it |
| Delivery.PushLosesADenialIff | crates/channels/src/delivery.rs:107-185 | a push loses a denial, queued or pushed now, exactly when the queue is at the cap with nothing to shed, no progress, and no plain notice older |
| Delivery.DenialIsLostIff | crates/channels/src/delivery.rs:107-212 | over every run, a denial pushed is neither delivered nor queued exactly when some push of the run lost it |
| Delivery.DenialsReachTheChannelBelowTheCap | crates/channels/src/delivery.rs:107-185 | while nothing is evicted, every denial pushed is delivered or queued |
| Delivery.FloodLosesTheDenial | crates/channels/src/delivery.rs:107-185 | a run in which the card stays first in the queue and its denial is evicted |
| PushFates.EveryPush | crates/channels/src/delivery.rs:107-185 | every push, message by message: below 256 all stay; from there on exactly the progress its turn repeats goes, else the oldest update whose card is not waiting, else such an update is itself refused; past 1024 exactly the oldest of the messages worth least, and with a card its updates; the new one is last, the rest keep their order |
| PushFates.SupersededProgressGoes | crates/channels/src/delivery.rs:132-141 | at the bound a progress or reply leaves no earlier progress of its turn, keeps everything else, and is last |
| PushFates.EveryPop | crates/channels/src/delivery.rs:188-198 | a pop delivers the front message, and the flag falls at the bound |
| PushFates.NoWakeupIsMadeUp | crates/channels/src/delivery.rs:107-212 | over every run of an open channel a parked consumer resumes at most once for each message queued, never for one refused |
| Dispatch.NextGroup | crates/agent/src/dispatch.rs:501-515 | one to eight calls; more than one only when all are eligible; as long as it can be |
| Dispatch.EligibleIsAuthorized | crates/agent/src/dispatch.rs:484-499 | the group path runs only calls `authorize` would pass, given safe tools carry no policy |
| Dispatch.LandedInAskedOrder | crates/agent/src/dispatch.rs:521-588 | sorting by index puts executions that settled in any order back in asked order |
| Dispatch.QuietParallel | crates/agent/src/dispatch.rs:521-588 | a race of read-only calls answers each as if alone, and leaves the world as it was |
| Dispatch.ParallelEqualsSequential | crates/agent/src/dispatch.rs:295-399 | for every completion order, answers, final world and flags are those of running the batch one call at a time, each call under the settings its group was refreshed to |
| Dispatch.EveryCallIsAnswered | crates/agent/src/dispatch.rs:295-475 | each call emits one `tool.call` before its one `tool.result`, whatever is cancelled, denied or gone |
| Dispatch.CancellationAndDenialAreFinal | crates/agent/src/dispatch.rs:232-358 | a call runs only while permitted and offered, with no abort in an earlier group, no stop seen, and the agent resolved at every refresh so far; a cancelled batch runs nothing more |
| Dispatch.GroupsAreConsecutive | crates/agent/src/dispatch.rs:295-515 | groups partition the batch into consecutive runs in order; two calls share one only when both may under the settings it ran with, and no more than eight do |
| Dispatch.NothingOverlapsIt | crates/agent/src/dispatch.rs:295-588 | a call that may not share its group is answered right after it is announced, with every earlier call answered before it |
| Dispatch.WholeBatch | crates/agent/src/dispatch.rs:295-399 | one answer per call, each event once, groups, no overlap, and finality, from any start; nothing runs in a batch already stopped |
| DispatchRuns.RunsExactlyWhenPermitted | crates/agent/src/dispatch.rs:295-399 | in every batch a call runs exactly when the turn was not stopped, no earlier group aborted, every refresh so far found the agent, and the settings of its group allow it, or ask and a person approved; any other is answered by what kept it from running |
| DispatchRuns.AuthorizeIs | crates/agent/src/dispatch.rs:595-742 | a call is let through exactly when tools are on and what the lists in force, the tool's own rules and the answer of a person come to is yes; a stop while asked is a cancellation, any other refusal a denial |
| DispatchRuns.RunsDoWhatTheySay | crates/agent/src/dispatch.rs:295-588 | the calls that ran ended in some order, each once and group after group, each answered with what its tool or subagent gave in the world the ones before it left; the batch leaves the last one's world |
| DispatchRuns.HowABatchEnds | crates/agent/src/dispatch.rs:295-399 | a batch is lost only to a failed delegation; it reports a stop exactly when one was seen or a call aborted, and the agent gone exactly when its last group did not find it |
| Dispatch.TurnScope.Refresh | crates/agent/src/dispatch.rs:232-243 | the scope takes the settings read now, or the agent is gone |
| Dispatch.RunParallel | crates/agent/src/dispatch.rs:521-588 | the in-flight loop computes the race: rows in asked order, world, flag and events |
| Dispatch.RunNext | crates/agent/src/dispatch.rs:320-358 | one group: cancelled, together, or alone |
| Dispatch.RefuseRest | crates/agent/src/dispatch.rs:369-399 | the rest of a batch is answered with denials and nothing runs |
| Dispatch.Dispatch | crates/agent/src/dispatch.rs:295-365 | the loop returns the assistant message then one tool row per call with its id, in asked order |
| Steering.StepKeeps | crates/agent/src/steering.rs:76-125 | each event that comes in time keeps accepted == settled ++ waiting, and a peeked steer first in its queue |
| Steering.SteeringIsExactlyOnce | crates/agent/src/steering.rs:76-125 | over any interleaving of sessions, pushes and failing appends in which a session's events come in time, each of its accepted steers is written, handed back or queued once, in order |
| Steering.SafeExactlyInTime | crates/agent/src/steering.rs:76-125 | an event keeps every steer settled once, now and when the reader's write succeeds, exactly when it is in time: a close finds the reader idle, a pop follows a write, a second peek waits for the pop |
| Steering.ClosingTooEarlyRepeatsASteer | crates/agent/src/steering.rs:85-93 | a close between a write and its pop, or between the peek and the write, settles one steer twice |
| Steering.SteersAreMarked | crates/agent/src/steering.rs:129-134 | a typed steer is stored behind its mark, a message of the server's own as it came, and neither loses a letter |
| Steering.SteeringQueue.Close | crates/agent/src/steering.rs:85-93 | hands back what is queued, whatever the reader is doing, and refuses pushes after |
| Steering.SteeringQueue.Push | crates/agent/src/steering.rs:95-103 | accepted exactly when a turn is open |
| Steering.SteeringQueue.Peek | crates/agent/src/steering.rs:116-119 | the front of the queue, which stays as it is, in any state |
| Steering.SteeringQueue.Pop | crates/agent/src/steering.rs:121-125 | removes the front of the queue, written or not, in any state |
| Figures.NotedAddsUp | crates/agent/src/agent_loop.rs:665-716 | folding in a result keeps turn figures == written steps + pending, below the clamp |
| Figures.FoldedIsPlus | crates/agent/src/agent_loop.rs:151-169 | the pending step is the sum of its calls, optional counts included |
| Figures.RecordedAddsUp | crates/agent/src/agent_loop.rs:719-741 | so does taking the step for the row it is written with |
| TurnLoop.IterationAppends | crates/agent/src/agent_loop.rs:1963-2140 | an iteration appends nothing, or one assistant row with exactly its tool rows, never a cut call; a failed or aborted request appends nothing |
| TurnLoop.DrainAppendsWhatItTakes | crates/agent/src/agent_loop.rs:1901-1937 | draining appends exactly the rows of the steers it takes, in order, even with steers arriving and a write failing |
| TurnLoop.IterationKeeps | crates/agent/src/agent_loop.rs:1963-2140 | what every iteration keeps: history, figures, steering, the one correction, honest stops |
| TurnLoop.EveryTurn | crates/agent/src/agent_loop.rs:1834-1882 | for every script: answerable history, requests within the cap, exactly-once steering that leads to a request, figures that add up and leave nothing pending, Complete only with no steer waiting or no iteration left |
| TurnLoop.TurnsCloseInTime | crates/agent/src/agent_loop.rs:1834-1937 | on the session's lane every look, write and pop of a turn comes in time and so does the close after it, so each accepted steer was written by the turn or is handed back, once and in order |
| TurnRows.ResultIsStored | crates/agent/src/agent_loop.rs:1963-2140 | a result is stored as one assistant row with its content, the calls that were not cut and its step's figures, then one row for each of those calls in order; only a cut answer with no whole call and no text stores nothing, and nothing is stored of a request that failed or a write that did |
| TurnRows.HowATurnGoesOn | crates/agent/src/agent_loop.rs:1963-2654 | an iteration ends the turn exactly as aborted, failed or complete for the reasons that call for it, goes on otherwise, and leaves the next request exactly the correction that is due |
| TurnEnds.StepsAreOnTheRows | crates/agent/src/agent_loop.rs:2419-2460 | read in order, the figures on the rows stored since a turn opened are those of the steps it counted, however it ends |
| TurnEnds.EveryResultIsCounted | crates/agent/src/agent_loop.rs:665-716 | a turn's figures are the sum of what the provider reported in it, every result once, as far as 64 bits go |
| TurnEnds.AStepCountsItsResults | crates/agent/src/agent_loop.rs:665-741 | a step's figures sum its result and those before it that stored nothing, each cut at 2^53 - 1 |
| TurnEnds.WhyATurnEnds | crates/agent/src/agent_loop.rs:1834-2696 | no iteration begins once a turn is stopped or out of time; a complete turn ends on its answer, a capped one on the row that says so, any other adds nothing; it is lost only where something failed, and always when nobody listens |
| TurnLoop.LiveTurn.DrainSteering | crates/agent/src/agent_loop.rs:1901-1937 | the peek, append, pop loop is the drain |
| TurnLoop.LiveTurn.WriteStep | crates/agent/src/agent_loop.rs:2419-2460 | rows in one transaction, the pending figures on the first |
| TurnLoop.LiveTurn.RecoverCutCalls | crates/agent/src/agent_loop.rs:2102-2140 | calls that parse run, the rest are asked for again |
| TurnLoop.LiveTurn.FinishAnswer | crates/agent/src/agent_loop.rs:2463-2558 | an answer is written, then corrected once, continued for a steer, or complete |
| TurnLoop.LiveTurn.RunTools | crates/agent/src/agent_loop.rs:2577-2654 | the batch dispatched and its rows written; a stop in it stops the turn |
| TurnLoop.LiveTurn.OneIteration | crates/agent/src/agent_loop.rs:1963-2099 | one request and what came of it |
| TurnLoop.LiveTurn.Run | crates/agent/src/agent_loop.rs:1834-1882 | the loop with its caps and stop checks is the turn |
| TurnLoop.LiveTurn.CloseTurn | crates/agent/src/agent_loop.rs:2656-2696 | a turn whose sink has closed fails with nothing more written; one ended by a cap says so in history |
| History.FindLegalStart | crates/core/src/history.rs:41-64 | the scan computes the legal start |
| History.LegalStartIsLegal | crates/core/src/history.rs:41-88 | what is left has no orphaned result; the start is 0 exactly on legal histories; trimming is idempotent |
| History.AnsweredIsLegal | crates/core/src/history.rs:67-160 | an answerable history has no result without its call and no call without its result |
| HistoryWindow.BudgetIsTheMostThatFits | crates/agent/src/history_window.rs:73-93 | a history is within budget exactly when its scaled price is within nine tenths of what the fixed costs leave |
| HistoryWindow.MemoIsTransparent | crates/agent/src/history_window.rs:112-168 | while an id names one row, the price memo changes no price over any number of calls |
| HistoryWindow.RowPrices.Of | crates/agent/src/history_window.rs:147-167 | a row's remembered price, or the estimate and its files' tokens, remembered |
| HistoryWindow.WalkBack | crates/agent/src/history_window.rs:206-217 | the backward greedy loop finds the least cut |
| HistoryWindow.LeastCutIsOptimal | crates/agent/src/history_window.rs:173-217 | the cut is a turn opening that fits, or the floor, and every earlier turn opening is over budget |
| HistoryWindow.CutIsMonotone | crates/agent/src/history_window.rs:192-217 | a larger budget never keeps less |
| HistoryWindow.TurnsAreKeptWhole | crates/agent/src/history_window.rs:173-217 | a turn whose rows lie together is kept whole or dropped whole |
| HistoryWindow.CutFitsIff | crates/agent/src/history_window.rs:192-217 | what is kept is within budget exactly when the turn being answered is |
| HistoryWindow.TokenWindowStart | crates/agent/src/history_window.rs:192-225 | floor, prices, walk and legal trim: 0 when the opening row is absent |
| HistoryWindow.WindowRecords | crates/agent/src/history_window.rs:261-278 | the cap first, then the budget, and the trimmed flag |
| HistoryWindow.FindHistoryWindowStart | crates/core/src/history.rs:212-227 | the newest rows, from a user message if there is one, from a legal start |
| HistoryWindow.CutsOfAnsweredAreAnswered | crates/core/src/history.rs:41-64 | wherever an answerable history is cut, the trim drops only stranded tool rows and leaves an answerable one |
| HistoryWindow.RequestIsLegal | crates/agent/src/history_window.rs:261-278 | a suffix of at most 500 rows, no orphan in any case, answerable when the store is |
| HistoryWindow.TheTurnIsKept | crates/agent/src/history_window.rs:192-225 | on an answerable history the window starts at the least cut, so the turn being answered is in it whole |
| HistoryWindow.RequestFits | crates/agent/src/history_window.rs:73-93 | when the current turn fits on its own, (prompt + kept history) x ratio + output is within the context window |
| WindowRows.TheRowsCarried | crates/agent/src/history_window.rs:192-278 | the rows a request carries by their places: the newest 500 from a user's on, of those from the first turn that fits the budget with all that follows, never past the turn being answered, less only what each cut stranded; a trim is reported exactly when the budget dropped rows |
| WindowRows.LegalStartIsFirst | crates/core/src/history.rs:41-64 | the trim starts at the first place from which every tool result follows the row that declared its call |
| WindowRows.CapKeeps | crates/core/src/history.rs:212-227 | the cap keeps the newest rows, from the first of them a user wrote, less only what that stranded |
| WindowRows.RowCosts | crates/agent/src/history_window.rs:147-167 | a row costs its estimate and for each attached file 1800 tokens for an image that is shown, a token for each four bytes of a text that is, or nothing |
| WindowRows.PricesStand | crates/agent/src/history_window.rs:112-168 | a price once given stands, one not known is made once, and none is forgotten |
| WindowRows.TheBudget | crates/agent/src/history_window.rs:73-93 | there is a budget exactly when the window has a size, and it is the most history within nine tenths of what is left at a ratio believed down to three quarters |
| Attachments.CacheKeyIsInjective | crates/agent/src/attachments.rs:284-290 | two files share a key only when path, size and mtime all agree |
| Attachments.RequestIsMaterialised | crates/agent/src/attachments.rs:460-508 | same messages in order, no file part left, other parts unchanged, at most the budget's bytes of images added, hits included, whatever happens to the files |
| Attachments.RequestGrowsWithinTheBudget | crates/agent/src/attachments.rs:240-508 | text and images together, hits included, a request grows by at most the budget and a line for each file reference |
| Attachments.OlderNeverCrowdsOut | crates/agent/src/attachments.rs:460-508 | what newer messages show is what they would show with no older ones: older turns never take room from them |
| Attachments.BudgetOnlyGates | crates/agent/src/attachments.rs:328-408 | on a stable file the budget decides whether it is inlined, never how |
| Attachments.CacheIsTransparent | crates/agent/src/attachments.rs:240-318 | however the disk changes between reads, while a rewrite leaves another size or mtime and types are fixed by path: a faithful cache shows and spends what none would, and stays faithful |
| Attachments.CacheStaysTransparent | crates/agent/src/attachments.rs:111-318 | so over any number of requests from an empty cache, whatever is rewritten in between: each shows what it would with none |
| Attachments.UndatedRewriteIsNotSeen | crates/agent/src/attachments.rs:284-299 | a file rewritten under its old size and mtime is shown as it was before |
| Attachments.KeyOmitsThePartsType | crates/agent/src/attachments.rs:270-408 | a file read again under another type is shown as without a cache exactly when the first read was not inlined, or the types agree, or no budget is left and no image is refused for what it is |
| Attachments.SharedEntryShowsTheWrongType | crates/agent/src/attachments.rs:270-318 | two parts of one path, as text and then as an image: with the cache both show the text, without it the second shows the image |
| Attachments.PricedWhenInlined | crates/agent/src/attachments.rs:162-183 | a reference is priced above nothing exactly when reading it would inline it, unreadable and binary files aside |
| ShownFiles.ReferenceIsShown | crates/agent/src/attachments.rs:240-408 | a reference is shown as its image exactly when it may be sent and fits, as its text exactly when it is text and fits, at the cost of what is sent; anything else is a line saying what became of it, at no cost |
| ShownFiles.RequestIsFilled | crates/agent/src/attachments.rs:460-508 | references are read the newest message first, each charged to what those before it left of one budget; every message keeps its place and all else it holds, with each reference replaced by what its read came to |
| Attachments.Reading.ReadInto | crates/agent/src/attachments.rs:328-408 | parts and the bytes charged, by the same branches |
| Attachments.Reading.MaterialiseOne | crates/agent/src/attachments.rs:240-318 | one reference: located, measured, from the cache or read, and charged |
| Attachments.Reading.MaterialiseContent | crates/agent/src/attachments.rs:422-451 | nothing to do exactly when there is no file part; else each part in order |
| Attachments.Reading.MaterialiseAttachments | crates/agent/src/attachments.rs:460-508 | newest message first under one budget, put back in order |
| ContextScale.OrderIsByRank | crates/agent/src/context.rs:112-117 | the sorted order lists the sections by how many come before them |
| ContextScale.ShortIsCovered | crates/agent/src/context.rs:108-121 | there is never more to give back than sections that lost something |
| ContextScale.WholeSectionsAreExact | crates/agent/src/context.rs:102-128 | a section whose scaled value is whole, so any empty one, gets nothing extra |
| ContextScale.LargerLossesComeFirst | crates/agent/src/context.rs:112-121 | no section is raised while one that lost more, or as much and comes earlier, is not |
| ContextScale.TheReportAddsUp | crates/agent/src/context.rs:102-128 | the sections scaled one by one come together to the whole scaled at once, to the nearest token |
| ContextScale.ShareOfTheReport | crates/agent/src/context.rs:102-128 | no section is as much as a token away from its own exact value |
| ContextScale.Scaled | crates/agent/src/context.rs:102-128 | the sections add up to the total times the ratio rounded once, each its floor or floor plus one by rank |
| ContextScale.SortByLoss | crates/agent/src/context.rs:112-117 | the in-place sort is stable and descending by what flooring lost |
| Requests.RequestsAreLegal | crates/agent/src/agent_loop.rs:2182-2277 | of an answerable store, what is sent has every call with its result, every result with its call, at most 500 messages and no file reference |
| Requests.TurnsLeaveLegalRequests | crates/agent/src/agent_loop.rs:1834-1882 | so the next request after any turn, lost or not, is legal |
| Requests.MeasureRecords | crates/agent/src/context.rs:301-328 | the meter's rows are the request's window, and its sections add up to the request's estimate, scaled once |
| Requests.TheMeterIsNear | crates/agent/src/context.rs:102-328 | each section the meter shows is less than a token off what is sent at that ratio, and the whole no more than half a one |
| Requests.MeterStaysInTheWindow | crates/agent/src/context.rs:301-328 | a request that fits is reported as fitting, with room for its completion |
| Bridge.KeySplits | crates/channels/src/manager.rs:298-300 | a key splits back into its channel and session exactly when the channel's id holds no space |
| Bridge.FollowKeepsLookupsFinite | crates/channels/src/manager.rs:407-428 | acyclic after a move, of a session already moved too, exactly when the chain from the continuation does not come by it; then only keys whose chain came by it change, to where the continuation leads |
| Bridge.SweepTakesAPrefix | crates/channels/src/manager.rs:538-560 | eviction closes idle entries other than the excluded one, least recently used first, keeps the rest in order, and stops at the cap or the end |
| Bridge.ConnectionsAreConserved | crates/channels/src/manager.rs:317-378 | over racing callers, moves (of entries whose session has moved too), evictions and a shutdown each connection is in the table, closed, or held by a caller: exactly one; and lookups end |
| Bridge.StepConserves | crates/channels/src/manager.rs:317-418 | any one event conserves connections and finite lookups, a move exactly when its continuation key is free and leads away |
| Bridge.NewKeyIsFresh | crates/channels/src/manager.rs:407-418 | a key no chain and no entry has yet is such a continuation, wherever the entry had got to |
| Bridge.FollowConservesIff | crates/channels/src/manager.rs:407-418 | a move conserves connections exactly when no other entry has the new key |
| Bridge.FollowEndsIff | crates/channels/src/manager.rs:407-428 | a move keeps lookups finite exactly when its continuation leads away from the entry's session |
| Bridge.ShutdownClosesAllIff | crates/channels/src/manager.rs:529-534 | closing everything closes every connection opened so far exactly when no caller holds one |
| Bridge.NothingReopens | crates/channels/src/manager.rs:317-378 | with all closed, no caller in between and none that asks again, nothing is open ever after |
| Bridge.LateInsertStaysOpen | crates/channels/src/manager.rs:317-378 | any caller in between files, after the shutdown, a connection left open |
| Bridge.EarlierKeysResolve | crates/channels/src/manager.rs:393-405 | events under the key a connection was opened with find its entry where it is now |
| Bridge.EarlierSessionsFindTheEntry | crates/channels/src/manager.rs:317-340 | a message on any key that leads to a live entry finds it and opens nothing |
| Bridge.EitherNameFindsTheEntry | crates/channels/src/manager.rs:264-276 | asked for by the channel's name for it or by the namespaced key, a live conversation is found and nothing is opened |
| Bridge.InsertSettlesIff | crates/channels/src/manager.rs:345-378 | an insert, evicting or not, keeps the invariant `Settled` exactly when it loses its race, or its session has not moved on, no entry the cap spares has it, and the channel's id holds no space |
| Bridge.InsertKeepsEventsIff | crates/channels/src/manager.rs:345-405 | each connection's events reach its own entry after an insert exactly when it loses its race, or no entry the cap spares was opened under the key it takes |
| Bridge.InsertKeepsMessagesIff | crates/channels/src/manager.rs:345-378 | each entry is reached by messages on the session it was opened for exactly when the insert loses its race, or its session has not moved on |
| Bridge.SettledIsFound | crates/channels/src/manager.rs:317-405 | in a settled table every entry is reached by its events and by its messages |
| Bridge.KeysStayDistinct | crates/channels/src/manager.rs:317-560 | whatever happens, the table has each key once |
| Bridge.ConversationsResolve | crates/channels/src/manager.rs:393-505 | in every run without a stale insert and with unused continuations, no entry's session has moved and each connection's events reach its own entry |
| Bridge.StaleInsertHidesTheLiveEntry | crates/channels/src/manager.rs:317-378 | a run in which a racing insert hides the live entry |
| Bridge.StaleEntryMayMove | crates/channels/src/manager.rs:393-418 | the next move of that run takes the stale entry, whose session has moved, and its key is fresh |
| BusySessions.BusyIsNotSwept | crates/channels/src/manager.rs:538-560 | whatever a sweep closes had no turn running and was not the excluded entry, and a sweep that leaves too many has left nothing else |
| BusySessions.SweepGoesTo | crates/channels/src/manager.rs:538-560 | up to a point of the table exactly the entries with no turn running, the excluded one aside, go, in order; none goes from there on |
| BusySessions.StatusIsNoted | crates/channels/src/manager.rs:487-493 | a status gives the entry it is about the flag it carries and changes nothing else |
| BusySessions.EntriesAreAsSaid | crates/channels/src/manager.rs:317-505 | in every run an entry is filed under its channel and session, its connection was opened for that channel and target, and it is busy exactly when its last status said so |
| BusySessions.NoInsertEndsATurn | crates/channels/src/manager.rs:345-378 | in every run an insert closes no connection last said to be busy, files the winner last and not busy, and goes over the cap only when all the others are busy |
| BusySessions.LeastRecentlyUsedGoFirst | crates/channels/src/manager.rs:317-560 | in every run a connection closed for room was last used before every entry left with no turn running |
| BusySessions.OneNameEach | crates/channels/src/manager.rs:264-276 | two names of a channel are one session exactly when they differ in its prefix, or in naming none, at most |
| Bridge.Evict | crates/channels/src/manager.rs:538-560 | the search-and-remove loop is one sweep of the table |
| Bridge.SessionBridge.CurrentKey | crates/channels/src/manager.rs:421-428 | the chain is followed to its end, and that ends |
| Bridge.SessionBridge.InsertOrClose | crates/channels/src/manager.rs:345-378 | the second locked section of `ensure`: insert and evict, or close the loser's connection |
| Bridge.SessionBridge.ResolveKey | crates/channels/src/manager.rs:393-405 | a key filed in the table is itself, any other is its channel with its current session |
| Bridge.SessionBridge.Follow | crates/channels/src/manager.rs:407-418 | the entry is refiled under any continuation, and lookups stay finite exactly when that leads away |
| Projection.TextIsConserved | crates/channels/src/projection.rs:186-411 | replies emitted ++ the answer held == the streamed text, and every progress is a prefix of the next reply |
| Projection.NoTurnGoesSilent | crates/channels/src/projection.rs:125-137 | a complete turn gets the notice exactly when it posted no reply, and a stop or limit always says so |
| Projection.ApprovalsSettleOnce | crates/channels/src/projection.rs:417-484 | each opening of an approval is settled once or open still, nested ones included |
| Projection.SettledByTurnEnd | crates/channels/src/projection.rs:343-394 | a call asked about once is settled exactly once by the end of its turn |
| Projection.CardsAreAsked | crates/channels/src/projection.rs:417-442 | in any stream, turns begun and ended in it included, a call gets as many cards as it is asked about |
| Projection.CardsAreUnique | crates/channels/src/projection.rs:417-442 | the delivery queue's premise over all pushes: across any turns of any sessions interleaved, no card comes twice |
| Projection.CardsReachTheChannelWithTheirUpdates | crates/channels/src/delivery.rs:54-185 | so a queued card of what the projections push keeps every update that settles it, whatever is shed or evicted |
| ProjectionSays.SaysWhatTheEventsSay | crates/channels/src/projection.rs:186-411 | over any stretch of events the drafts are those of a reference that holds no state and looks back at the events before each, and the state is what it would find there |
| ProjectionSays.ErrorsAreTold | crates/channels/src/projection.rs:316-325 | over any stretch of events the error drafts, in order, are exactly the failures: their messages, the turn they name or else the running one, the call they refuse |
| ProjectionSays.NoFailureIsSilent | crates/channels/src/projection.rs:316-325 | from any state, every failure has an error draft that says it |
| ProjectionSays.NoTurnEndsInSilence | crates/channels/src/projection.rs:125-137 | a whole turn tells how it came out, but for one that ends in an error that was never sent |
| ProjectionSays.SortedInOrder | crates/channels/src/projection.rs:343-361 | the approvals left open at a turn's end are told in the order of their ids, each once |
| Projection.TurnProjection.Handle | crates/channels/src/projection.rs:186-411 | the state after each event and the drafts it yields |
| Projection.TurnProjection.End | crates/channels/src/projection.rs:343-394 | approvals still open expire in order, the answer is posted, the stop is said |
| Scrollback.SettleKeepsText | crates/cli/src/stream.rs:63-86 | cutting text into lines loses and doubles nothing, and leaves no newline in the open line |
| Scrollback.StreamController.Push | crates/cli/src/stream.rs:63-86 | every newline settles the line before it |
| Scrollback.StreamController.TakeSettled | crates/cli/src/stream.rs:142-148 | a prefix is taken and the last `keep` lines stay |
| Scrollback.RowsAreConserved | crates/cli/src/chat_widget.rs:384-508 | over any events, layouts, toggles and reopens, rows drained, discarded or waiting are the display rows of all committed cells and the open run's head, in cell order |
| Scrollback.TranscriptsKeepEveryLine | crates/cli/src/chat_widget.rs:384-461 | every line the stream settled is in a cell's transcript, out early, or still in the stream, in order |
| Scrollback.FlushedHeadIsShown | crates/cli/src/chat_widget.rs:421-433 | a fold whose head is out shows its whole transcript |
| Scrollback.DiscardIsSafeIff | crates/cli/src/chat_widget.rs:468-508 | over any run and any room asked for, the tail gives the waiting rows back exactly when no more wait than the conversation shows and a waiting summary has its gone early rows fit the room |
| Scrollback.DiscardAfterReopenLosesRows | crates/cli/src/chat_widget.rs:591-601 | a run in which it does not |
| Scrollback.ClosedFoldNeedsRoom | crates/cli/src/chat_widget.rs:421-508 | committed with rows still waiting or none, a fold's waiting summary comes back exactly when the part of its early head that no longer waits fits the room, or a row just like it is written again |
| ScrollbackPages.TheWidgetIsItsPage | crates/cli/src/chat_widget.rs:303-601 | after any moves the widget's blocks, open run and settings are those of a page with nothing waiting and no run taken apart, to which drains and discards are nothing |
| ScrollbackPages.ThePageIsWritten | crates/cli/src/chat_widget.rs:468-508 | the rows out and waiting are the page's blocks, of each run first what went early, then what is out of the open one; a drain or a discard empties what waits |
| ScrollbackPages.SettleIsCut | crates/cli/src/stream.rs:63-86 | a chunk settles as its lines cut at each newline, the first behind the open one |
| Scrollback.ChatWidget.CommitFold | crates/cli/src/chat_widget.rs:421-433 | a summary over the run, expanded when rows of it are out |
| Scrollback.ChatWidget.HandleEvent | crates/cli/src/chat_widget.rs:303-381 | each event's effect on the open run, the cells and the waiting rows |
| Scrollback.ChatWidget.Layout | crates/cli/src/chat_widget.rs:724-784 | a run too tall for the live area that may flush does |
| Scrollback.ChatWidget.Reopen | crates/cli/src/chat_widget.rs:591-601 | the run finished, a rule, the transcript started again, the history replayed |
| Scrollback.ChatWidget.HistoryTail | crates/cli/src/chat_widget.rs:494-508 | the backward loop gives the last rows of the cells' display ++ the open run's head |

## Left out

- Dispatch.ParallelEqualsSequential: safe tools are assumed to read only and never to report an abort; with a writing tool the order is observable.
- Bridge.ConnectionsAreConserved: a continuation key is free and leads away when it arrives, as the new keys compaction makes do (`Bridge.NewKeyIsFresh`); by `Bridge.StepConserves` nothing less will do.
- Bridge.ConversationsResolve: runs in which an insert is stale are left to the lemmas about one insert.
- Attachments.CacheIsTransparent: a rewrite is assumed to leave another size or mtime; `Attachments.UndatedRewriteIsNotSeen` is what happens otherwise, and a file that can no longer be read under the same date counts as one.
- Attachments.RequestGrowsWithinTheBudget: names and the words around them are not charged by the code, so they are bounded by a line each; decoding is assumed to give no more characters than bytes, as UTF-8 does.
- TurnLoop.LiveTurn: holds the steers waiting for its own session itself; `TurnLoop.TurnsCloseInTime` ties them to that session's lane.
- HistoryWindow.RequestFits: a current turn over budget on its own is sent whole, as the code does, and then nothing bounds the request.
- ContextScale.Scaled: a ratio that is not positive is not modelled; provider counts give none.
- HistoryWindow: `usize` saturation of sums is not modelled, and `calibration_of` and `read_history` are inputs.
- Floating point is modelled over `real`: rounding below 2^53 is not captured.
- Wording of notices, prompts, corrections and summaries is abbreviated or an oracle; only which text is said is modelled.
- `dispatch::finish`'s fencing and truncation of results, heartbeats, timings, calibration samples, session naming, stats rows and context-usage events.
- Channel start and stop, retargeting, inbound frames and the outbound bus of the manager.
- The workspace jail of `attachments::locate`, MIME tables, base64 and UTF-8 decoding are oracles.
- The live area's drawing, the composer, menus and keys of the terminal; how many rows a line takes is an oracle, and the column a chunk starts in is folded into how it is prepared.
- `DeliveryQueue`, `SteeringQueue` and the bridge table are locked in the source; interleavings are events between locked sections, and memory ordering is not modelled.
- Subagent limits, skills, memory and task contributors, regex detection of written-out calls: easy, or dependent on engines outside the workspace.
