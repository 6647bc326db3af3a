# PolyFlare: routing, translation and forecasting, verified

PolyFlare spreads AI traffic over a fleet of accounts. This project models the parts of it that decide
something and proves what they promise:

- **The weekly pool simulation** (`Pool*.dfy`, `PaceInputs.dfy`): an event loop that drains the accounts
  soonest reset first, refills each at its own reset, and reports when the pool runs dry and how low it
  gets.
- **The stream translators** (`Wire.dfy`, `Scan.dfy`, `*Stream.dfy`, `*Discipline.dfy`, `*Translator.dfy`,
  `*History.dfy`, `Collector.dfy`, `Stream*.dfy`): Responses events to Messages events, Messages events to Responses
  events, and the collector that folds a Messages stream into one message; each alone, and all three
  composed.
- **The request mappers** (`RequestMap.dfy`, `RequestMeaning.dfy`, `RequestRoundTrip.dfy`): a Messages history to Responses
  input items and back.
- **The account selector** (`Eligibility.dfy`, `Selection.dfy`, `SelectionOrder.dfy`,
  `Lexicographic.dfy`, `Preference.dfy`): the gates an account must pass, the preference filters, and the final choice of
  six strategies.
- **The release-version cache** (`VersionCache.dfy`): one call, and any interleaving of calls.
- **The usage estimators** (`Depletion.dfy`, `Capacity.dfy`): the depletion forecast of one account and
  the capacity derived from observed burn.

Objects that the program updates in place are classes here, loops are loops, and each such method is
proved equal to a function of its old state; the laws are then proved about those functions, for all
inputs.

## What is proved

**Pool.** Soonest reset first is the best way to share a burn. Against any rule that draws the same
amounts without going below zero, however it looks ahead or back, the simulation holds at least as much
after every drain and every refill, has at least as large a minimum, and lasts at least as long. With a
slower burn, or more in some account, the pool holds no less and owes no more at any instant, the minimum
is no smaller and depletion comes no sooner; the reported shortfall obeys this only under a condition (see
below). What a drain leaves is fixed by its promise alone, not by an algorithm. The report agrees with a
pool in continuous time, whose level is at every instant what was there and what the refills added, less
what was burnt: depletion is reported exactly when that level goes into debt within the horizon, at the
last instant before it does, and the shortfall is the debt at the next event after it (the level counts no
reset from the depletion on, since the simulation ends there); otherwise the
reported minimum is the least level, and is reached. Stopping the simulation at further instants changes
neither depletion nor minimum. The loop ends because every refill uses up one of the resets left before
the horizon.

**Streams.** Neither translator and not the collector needs its state: what each of them emits, or folds a
stream into, is given for every stream by looking things up in the events that have come in (an index, the
last start of a block, the text since, the last count given under a key), down to every field. A Messages stream translated to Responses and back equals, event for event, an echo that is
defined without either translator; this holds for every stream, sane or not. From the echo follows what
survives: block events come back unchanged if and only if the stream is tidy (known block types under
0, 1, 2, ..., deltas and stops only for started blocks, each stopped at most once). For every stream, the
collected round trip lists every block in the order of its start, and the content is the same if and only
if no index starts twice and that order agrees with the order by index. A whole turn folds into a message
whose every field is given. Alone, the forward translator emits a disciplined stream whatever
it is fed, and a delta follows its block's stop if and only if the incoming stream has a late delta. The
reverse translator numbers its events without gaps, and every item of the terminal output carries exactly
the deltas that were sent for it. The other way round, a Responses stream sent through Messages and back
always lists exactly its opened items, in opening order and with all their text.

**Requests.** What each mapper says is given for every history and every list of items, part by part; parts
of a message stay together up to its next tool block. What comes back of a history is, in order, what survives of each block, and it is the same
history if and only if every block is clean. A base64 image survives its `data:` URL (section 3 of
RFC 2397) if and only if its media type has no comma.

**Selection.** Within a session, and for the four deterministic strategies, all filters together with the
final choice amount to taking the least account of a single total order. Hence there the pick survives the
removal of any other account, an added account either wins or changes nothing, and order and random draw
are irrelevant; within a session, raising the winner's weight never loses it. The two weighted strategies
without a session draw from the pool instead.
Whom each strategy prefers is also given in terms of the snapshots alone: usage after holds and load,
credits, classes of health and policy, ids. An account is eligible exactly if none of the gates on its
snapshot holds; it is eligible at some time from now on if and only if it is recoverable, and below the ceiling
at most two waits are needed.

**Cache and estimators.** In every interleaving, cancellations included, at most one fetch is in flight,
fetches keep the time-to-live from every earlier success, every answer is the version stored last, and
the floor is never seen again after a success; a version is answered without a fetch exactly while it is
younger than the time-to-live. The forecast depends on the last segment alone, and its
three signals agree exactly below full usage. Burn totals telescope, the reference burn follows the
majority, and derived capacity falls as burn grows.

## Where a property has a condition

- A ceiling reports the reset of a window without comparing it with the present, so the time reported may
  have passed and waiting for it changes nothing (`Eligibility.CeilingReportsStaleTime`,
  `Eligibility.StaleTimeReported`). Exactly when a reported time lies ahead:
  `Eligibility.RecoveryLiesAheadIff`; exactly which accounts ever become eligible:
  `Eligibility.EventuallyEligibleIffRecoverable`. The comment at select.rs:253-254 reads as if the ceiling
  ended with its reset; the snapshot's usage has to be renewed first.
- The forward translator looks up a delta's item without asking whether its block has stopped, so a late
  delta is passed on. Input: `ForwardDiscipline.LateDeltaPasses`. Exact condition:
  `ForwardDiscipline.StrictIffNoLateDelta`.
- The reverse translator lists an index once for every time it starts, each time with its latest block, and
  a block may go on after its stop. Inputs: `ReverseDiscipline.RestartHidesItem`,
  `ReverseDiscipline.LateDeltaChangesItem`. Exact conditions: `ReverseDiscipline.OutputListsAddedItems` for the order of the listed items,
  `ReverseDiscipline.OutputRepeatsDoneItems` for their agreement with the done events.
- An extra sample without a reset time can hide that the window rolled, so that consumption is counted
  across it (`Capacity.HiddenRoll`). Exact condition: `Capacity.ExtraSampleIffNotHidingRoll`.
- The reported shortfall is the debt at the first event after the depletion, a reset or the horizon
  (`PoolProjection.ReportMeansLevel`). So a faster burn, or a worse way of sharing it, can report less
  (`PoolWitness.FasterMayReportLess`, `PoolWitness.WorsePolicyMayReportLess`), since it may fail in an
  earlier interval that ends sooner. It reports no less when the better run survives, and when both run dry
  with no reset in between (`PoolProjection.ProjectionMonotone`, `PoolOptimality.GreedyNoWorse`); at
  any common instant the debt itself is always monotone (`PoolProjection.LevelMonotone`).
- Stopping at further instants makes the shortfall smaller (`PoolWitness.CutMayReportLess`) unless none of
  them falls between the depletion and the end of its interval. Exact condition, for ascending instants:
  `PoolCuts.ShortfallIffNoCutAfterDepletion`.
- On an account that is used up, the burn rate reads at most zero while an exhaustion is foreseen at risk
  one. The three depletion signals agree if and only if usage is below full (`Depletion.SignalsAgree`; the
  one exception is an account at exactly full usage with a negative window length). Exhaustion and risk
  agree for every usage, given a positive rate and time left (`Depletion.ExhaustionIffCertain`).
- The round trip of a stream multiplies a restarted index and reorders blocks that start out of order
  (`StreamContent.RestartsMultiply`, `StreamContent.OrderOfStartsMatters`). What to check beforehand: known
  blocks must start under growing indices. That is enough for every stream
  (`StreamContent.RoundTripKeepsContent`), and for streams whose blocks can be told apart it is the exact
  condition (`StreamContent.SameContentIffGrowing`). With blocks that collect into the same, their order may
  not show; `StreamContent.SameContentIff` says for every stream when it does not.
- The random draw is irrelevant if and only if the request belongs to a session or the strategy is
  deterministic (`SelectionOrder.DrawIrrelevantIffRanked`). Without either, of two idle accounts the pick is
  the one that is drawn (`SelectionOrder.DrawPicks`).

## Conventions

- Floating-point numbers are `real`; times in the pool are real milliseconds, elsewhere whole seconds.
- The random part of a minted id is a parameter of the step that mints it. Where different ids are needed
  the hypothesis is `StreamEcho.AllNew`: no draw repeats. That different draws give different ids, whatever
  their prefix, is proved.
- The collector's JSON reader is a parameter. The request mappers take a writer and a reader; the round
  trips assume only that reading undoes writing.
- The session hash and its logarithm are one parameter `noise`, the weighted random draw another,
  `sampler`. An infinite rendezvous cost ranks behind every finite one.
- A JSON index that is missing or not a number reads as `None`. A missing string reads as empty where the
  program defaults it so, and as `None` where it makes a difference.
- The program's sorts are stable; they are insertion sorts here, proved stable and sorted.
- The cache is a machine whose steps are the stretches between two awaits: first check, lock, second
  check, end of the fetch, conclusion. A caller can be cancelled while it waits or fetches.

## Model

| member | source | states |
|---|---|---|
| PoolModel.SortSorted | crates/polyflare-core/src/weekly_pace.rs:171 | the accounts stand in ascending order of reset when an interval begins |
| PoolModel.SortStable | crates/polyflare-core/src/weekly_pace.rs:131-171 | sorting never reorders accounts that share a reset |
| PoolModel.DrainSuffix | crates/polyflare-core/src/weekly_pace.rs:129-141 | behind any position a drain leaves what was there, capped by what the whole pool has left; for the whole pool: exactly the asked amount is gone |
| PoolModel.DrainSplit | crates/polyflare-core/src/weekly_pace.rs:129-141 | draining `a` and then `b` leaves the same balances as draining `a + b` |
| PoolDrain.ConsumeBalance | crates/polyflare-core/src/weekly_pace.rs:129-141 | on accounts in any order: only balances change, none below zero, what was asked is given or all there is, and nobody gives while an account with a sooner reset still holds something |
| PoolDrain.SoonestFirstUnique | crates/polyflare-core/src/weekly_pace.rs:129-141 | that promise determines every balance |
| PoolDrain.DrainIsSoonestFirst | crates/polyflare-core/src/weekly_pace.rs:129-141 | on accounts in reset order the drain from the front keeps the promise |
| PoolRun.RollUsesOneReset | crates/polyflare-core/src/weekly_pace.rs:199-202 | a refill before the horizon uses up one of the account's resets before the horizon, however many resets coincide |
| PoolRun.RefillKeeps | crates/polyflare-core/src/weekly_pace.rs:171-202 | a refill and the next sort keep the reset order and every balance between zero and full, never lower the total, and leave fewer resets pending |
| PoolRun.AfterDraw | crates/polyflare-core/src/weekly_pace.rs:170-203 | one paid interval under any policy keeps what the loop relies on: a pool that is not empty, in order, in bounds, and fewer pending resets |
| PoolRun.DepletionInstant | crates/polyflare-core/src/weekly_pace.rs:178-191 | a depletion instant lies within the horizon: inside this interval, where demand equals the remaining total, or not before its end; what is missing is the cost from there to the end of the interval; the minimum never rises and is zero after depletion |
| PoolOptimality.DrainKeepsLead | crates/polyflare-core/src/weekly_pace.rs:129-141 | a pool that holds no less behind every position still does after the soonest-first drain, against any drain of at least as much |
| PoolOptimality.GreedyNoWorse | crates/polyflare-core/src/weekly_pace.rs:170-203 | by induction over the run: from a dominating pool, under no greater a burn, the soonest-first run holds no less after every event, has no lower a minimum, is depleted no earlier, and misses no more if it survives or both fail in the same interval |
| PoolMeaning.RunMeansLevel | crates/polyflare-core/src/weekly_pace.rs:170-203 | the depletion instant is exactly where the continuous level turns negative, and from there the level is the debt since; without one the level never falls below the minimum |
| PoolMeaning.MinimumReached | crates/polyflare-core/src/weekly_pace.rs:194-202 | the reported minimum is a level that the pool really has |
| PoolCuts.CutOnce | crates/polyflare-core/src/weekly_pace.rs:171-203 | stopping once inside an interval changes neither the depletion instant nor the minimum |
| PoolCuts.CutsDoNotMatter | crates/polyflare-core/src/weekly_pace.rs:171-203 | nor does stopping at any list of instants; what is missing is then counted up to the first of them after the depletion |
| PoolCuts.ShortfallIffNoCutAfterDepletion | crates/polyflare-core/src/weekly_pace.rs:178-191 | stopping at ascending instants never enlarges the shortfall, and keeps it if and only if none of them lies between the depletion and the end of its interval |
| PoolShortfall.EndsWithNextEvent | crates/polyflare-core/src/weekly_pace.rs:171-191 | the interval that cannot be paid ends with the first reset boundary after the depletion, or with the horizon, told from the accounts' resets and windows alone |
| PoolDebt.Conservation | crates/polyflare-core/src/weekly_pace.rs:170-203 | at every instant the level is what was there, and what the refills before it added, less burn times time |
| PoolProjection.ProjectWeeklyPool | crates/polyflare-core/src/weekly_pace.rs:146-210 | the imperative simulation ends, never indexes an empty pool, and reports what the run says; no burn or no accounts report the present total |
| PoolProjection.TwoWindowsAhead | crates/polyflare-core/src/weekly_pace.rs:165-166 | the horizon lies exactly two of the longest windows ahead |
| PoolProjection.GreedyIsOptimal | crates/polyflare-core/src/weekly_pace.rs:129-210 | no other way of sharing the burn holds more at any event, has a larger minimum, or survives longer |
| PoolProjection.ProjectionMonotone | crates/polyflare-core/src/weekly_pace.rs:146-210 | a higher burn or smaller balances never give a larger minimum, survival instead of depletion, or a later depletion; nor a smaller shortfall if the slower, richer pool survives or no account resets between the two depletions |
| PoolProjection.ReportMeansLevel | crates/polyflare-core/src/weekly_pace.rs:146-210 | the whole report against the continuous pool, over every instant of the horizon: depletion, minimum, and the shortfall as the debt at the first event after the depletion |
| PoolProjection.LevelIsConserved | crates/polyflare-core/src/weekly_pace.rs:146-210 | conservation over the whole horizon of a projection |
| PoolProjection.LevelMonotone | crates/polyflare-core/src/weekly_pace.rs:146-210 | at every instant, debts included, a slower burn or larger balances leave no less |
| PoolWitness.FasterMayReportLess | crates/polyflare-core/src/weekly_pace.rs:184-186 | one account for which burning faster reports a shortfall of 1 instead of 890 |
| PoolWitness.WorsePolicyMayReportLess | crates/polyflare-core/src/weekly_pace.rs:184-186 | two accounts for which draining the later reset first reports 5 instead of 9700 |
| PoolWitness.CutMayReportLess | crates/polyflare-core/src/weekly_pace.rs:184-186 | one account for which one more stop reports 20 instead of 100 |
| PoolProjection.ProjectionBounds | crates/polyflare-core/src/weekly_pace.rs:184-209 | the minimum lies between zero and the present total; there is a depletion time exactly when there is a shortfall, and then the minimum is zero; without a burn or accounts the minimum is the present total |
| PaceInputs.AdvancesToNextBoundary | crates/polyflare-core/src/weekly_pace.rs:116-122 | a reset that has passed moves by whole windows to the first boundary after now; one still to come stays |
| PaceInputs.SimInputs | crates/polyflare-core/src/weekly_pace.rs:295-359 | every row is paced, stale, inactive or not timed, and the paced ones give exactly what the simulation demands: balances within capacity, real windows, resets to come |
| PaceInputs.StandingIff | crates/polyflare-core/src/weekly_pace.rs:36-315 | when a row is paced, stale, inactive or not timed; fresh means at most three refresh cycles old, or five minutes if that is longer |
| PaceInputs.StartsWithUnusedShare | crates/polyflare-core/src/weekly_pace.rs:317-358 | the simulation starts from the unused share of the capacity |
| ForwardTranslator.AnthropicToResponses.OpenBlock | crates/polyflare-anthropic/src/translate.rs:463-474 | a new block takes the next index and stands for its item |
| ForwardTranslator.AnthropicToResponses.OnResponseStarted | crates/polyflare-anthropic/src/translate.rs:482-506 | the first start of a response, and only the first, starts the message |
| ForwardTranslator.AnthropicToResponses.OnOutputItemAdded | crates/polyflare-anthropic/src/translate.rs:513-554 | calls and reasoning open a block at once, other items none |
| ForwardTranslator.AnthropicToResponses.OnContentPartAdded | crates/polyflare-anthropic/src/translate.rs:558-579 | the first text part of an item opens its block |
| ForwardTranslator.AnthropicToResponses.OnBlockDone | crates/polyflare-anthropic/src/translate.rs:645-671 | the first done event of an item, and only the first, stops its block |
| ForwardTranslator.AnthropicToResponses.OnResponseCompleted | crates/polyflare-anthropic/src/translate.rs:680-706 | the stop reason is max_tokens if incomplete, else tool_use if a call was seen, else end_turn; the state stays |
| ForwardTranslator.AnthropicToResponses.LookupFlatItem | crates/polyflare-anthropic/src/translate.rs:727-731 | the block of a delta's item; none for a delta without an item id |
| ForwardTranslator.AnthropicToResponses.OnOutputTextDelta | crates/polyflare-anthropic/src/translate.rs:583-597 | text for a known item is passed on under its index |
| ForwardTranslator.AnthropicToResponses.OnFunctionCallArgumentsDelta | crates/polyflare-anthropic/src/translate.rs:602-616 | so is argument text |
| ForwardTranslator.AnthropicToResponses.OnReasoningDelta | crates/polyflare-anthropic/src/translate.rs:622-636 | so is reasoning text, under both event names |
| ForwardTranslator.AnthropicToResponses.OnResponseFailed | crates/polyflare-anthropic/src/translate.rs:709-716 | the error of a failed response, with its code, else its type, else api_error |
| ForwardTranslator.AnthropicToResponses.OnError | crates/polyflare-anthropic/src/translate.rs:720-757 | a bare error event, whose type stands in for a missing code |
| ForwardTranslator.AnthropicToResponses.TranslateResponseEvent | crates/polyflare-anthropic/src/translate.rs:795-820 | every event changes the translator as its machine says, and whatever it emits obeys the rules of a Messages stream, given all it has emitted before |
| ForwardDiscipline.AlwaysDisciplined | crates/polyflare-anthropic/src/translate.rs:463-671 | for every event sequence the outgoing stream is disciplined |
| ForwardDiscipline.DisciplineMeans | crates/polyflare-anthropic/src/translate.rs:463-671 | disciplined means, at each position: no message start after another, a block opens under the number of blocks opened before, deltas and stops only for opened indices, no index stopped twice, and, if strict, no delta after its stop |
| ForwardDiscipline.DistinctItems | crates/polyflare-anthropic/src/translate.rs:463-474 | after any event sequence different items stand for different indices, all of them opened |
| ForwardDiscipline.StrictIffNoLateDelta | crates/polyflare-anthropic/src/translate.rs:583-671 | no delta follows its block's stop exactly when the incoming stream, read by itself, has no delta for a closed item |
| ForwardDiscipline.LateDeltaPasses | crates/polyflare-anthropic/src/translate.rs:583-597 | a three-event stream with a delta after the stop of its block |
| ForwardHistory.EmitsItsHistory | crates/polyflare-anthropic/src/translate.rs:463-820 | for every stream, event by event: every field of what is emitted, looked up in the events so far; blocks count their openings, an opening's index is the number of openings before it, a stop comes once until the item opens anew |
| ForwardHistory.OpenedIff | crates/polyflare-anthropic/src/translate.rs:558-579 | an item has a block as soon as some event could open one for it |
| ForwardHistory.FailureShows | crates/polyflare-anthropic/src/translate.rs:709-757 | every failed response shows an error, with its code, else its type, else api_error |
| ReverseTranslator.ResponsesToAnthropic.NextSeq | crates/polyflare-anthropic/src/reverse.rs:45-49 | each number is given once, in order |
| ReverseTranslator.ResponsesToAnthropic.OnMessageStart | crates/polyflare-anthropic/src/reverse.rs:60-89 | a message start opens a response and is announced twice |
| ReverseTranslator.ResponsesToAnthropic.OnContentBlockStart | crates/polyflare-anthropic/src/reverse.rs:91-189 | a block of a known type becomes an item under its index, last in the order; others are dropped |
| ReverseTranslator.ResponsesToAnthropic.OnContentBlockDelta | crates/polyflare-anthropic/src/reverse.rs:191-235 | a delta of a known type is passed on and added to its block's text |
| ReverseTranslator.ResponsesToAnthropic.OnContentBlockStop | crates/polyflare-anthropic/src/reverse.rs:237-307 | a stop reports the block's text and its completed item, and leaves the block in place |
| ReverseTranslator.ResponsesToAnthropic.OnMessageDelta | crates/polyflare-anthropic/src/reverse.rs:309-320 | stop reason and usage are remembered, nothing is emitted |
| ReverseTranslator.ResponsesToAnthropic.OnMessageStop | crates/polyflare-anthropic/src/reverse.rs:322-351 | one terminal event closes the response |
| ReverseTranslator.ResponsesToAnthropic.TranslateResponseEvent | crates/polyflare-anthropic/src/reverse.rs:359-375 | every event changes the translator as its machine says; the numbering of all it has emitted has no gaps, and with new draws every block keeps an item of its own and the text emitted for it |
| ReverseDiscipline.NumberedRun | crates/polyflare-anthropic/src/reverse.rs:45-49 | for every stream the outgoing events are numbered without gaps |
| ReverseDiscipline.OutputCarriesDeltas | crates/polyflare-anthropic/src/reverse.rs:191-351 | for every stream that ends, each item in the output of its terminal event carries exactly the concatenated deltas that named it |
| ReverseDiscipline.OutputListsAddedItems | crates/polyflare-anthropic/src/reverse.rs:91-351 | the terminal event lists the added items in their order if and only if no index starts twice |
| ReverseDiscipline.OutputRepeatsDoneItems | crates/polyflare-anthropic/src/reverse.rs:237-351 | the terminal event repeats every item that a done event reported if and only if nothing done starts anew or receives further text |
| ReverseDiscipline.RestartHidesItem | crates/polyflare-anthropic/src/reverse.rs:91-351 | a restarted index makes the listed items differ from the added ones |
| ReverseDiscipline.LateDeltaChangesItem | crates/polyflare-anthropic/src/reverse.rs:191-351 | a delta after the stop makes the listed item differ from the one reported done |
| ReverseDiscipline.EndsInTerminal | crates/polyflare-anthropic/src/reverse.rs:322-351 | a stream that ends comes out with one terminal event last, which lists the blocks of the final state |
| ReverseHistory.EmitsItsHistory | crates/polyflare-anthropic/src/reverse.rs:45-375 | for every stream, event by event and consecutively numbered: every field of what is emitted, looked up in the events so far; a done event carries all text sent to the index since its block started |
| ReverseDiscipline.MergeRecalls | crates/polyflare-anthropic/src/reverse.rs:51-58 | merging usage keeps under every key the value given last |
| ReverseDiscipline.RecalledUsage | crates/polyflare-anthropic/src/reverse.rs:594-618 | the token counts reported are the last ones given, zero if none or not a number, and the total is input plus output |
| ReverseDiscipline.TerminalEvent | crates/polyflare-anthropic/src/reverse.rs:309-351 | the terminal event of a stream has the id and the model announced last, each token count as given last under its key and the total of input and output, and is incomplete exactly if max_tokens was the last stop reason given |
| StreamEcho.DrawOf | crates/polyflare-anthropic/src/reverse.rs:580-588 | an id gives away the draw it was minted from, whichever its prefix |
| StreamEcho.FreshId | crates/polyflare-anthropic/src/reverse.rs:580-588 | a new draw never gives an id that was minted before |
| StreamEcho.RoundTripIsEcho | crates/polyflare-anthropic/src/reverse.rs:60-351 | for every stream, translating to Responses and back gives exactly the echo |
| StreamContent.CollectsByIndex | crates/polyflare-anthropic/src/collect.rs:83-231 | for every stream: the collected content is the latest block of every index, by index, read off the stream |
| StreamContent.RoundTripListsByStart | crates/polyflare-anthropic/src/collect.rs:83-231 | for every stream: the content of the collected round trip is every block of a known type in the order of its start, read off the incoming stream |
| StreamContent.SameContentIff | crates/polyflare-anthropic/src/collect.rs:83-231 | collecting the translated stream gives the same content as collecting the original if and only if no index starts twice and the blocks come in the same order by start as by index |
| StreamContent.RoundTripKeepsContent | crates/polyflare-anthropic/src/collect.rs:83-231 | in particular if known blocks start under growing indices |
| StreamContent.SameContentIffGrowing | crates/polyflare-anthropic/src/collect.rs:83-231 | where no two blocks collect into the same, the content is kept if and only if known blocks start under growing indices |
| StreamContent.OrderOfStartsMatters | crates/polyflare-anthropic/src/collect.rs:128-231 | a stream whose blocks start out of order collects into the same blocks in another order |
| StreamContent.RestartsMultiply | crates/polyflare-anthropic/src/collect.rs:128-231 | a stream that restarts an index collects into one block, its round trip into two |
| StreamTurn.SameBlocksIffTidy | crates/polyflare-anthropic/src/reverse.rs:91-307 | block starts, deltas and stops come back one for one, in order and under the same index, if and only if the stream is tidy |
| StreamTurn.TurnComesBackAs | crates/polyflare-anthropic/src/translate.rs:482-706 | a whole turn collects into its own model, every block in the order of its start, the assistant's role, a stop reason of max_tokens, else tool_use if a tool block opened, else end_turn, and the four token counts as given last |
| StreamReturn.ResponsesComeBackAs | crates/polyflare-anthropic/src/reverse.rs:91-351 | a Responses stream that ends, sent through Messages and back, comes out with a terminal event that lists exactly its opened items in opening order, each complete with its call, name and all its text, and is incomplete exactly if the incoming one says so |
| Collector.MessageCollector.constructor | crates/polyflare-anthropic/src/collect.rs:69-79 | a collector starts with nothing |
| Collector.MessageCollector.SetBlockAt | crates/polyflare-anthropic/src/collect.rs:226-231 | a block lands in its slot, and slots before it that were never used stay empty |
| Collector.MessageCollector.Push | crates/polyflare-anthropic/src/collect.rs:83-221 | every event changes the collector as its fold says; events for slots without a block change nothing |
| Collector.MessageCollector.FinishMessage | crates/polyflare-anthropic/src/collect.rs:97-104 | the content is every block, finalized, in ascending order of index |
| CollectorHistory.CollectsItsHistory | crates/polyflare-anthropic/src/collect.rs:36-231 | for every stream: the block of an index has the type of its last known start and the concatenated deltas of its own kind up to its first stop, a tool's input is the parsed text if that is an object, else empty; every field of the message is the last one given since the last message start |
| RequestMap.FlushMessageBuffer | crates/polyflare-anthropic/src/translate.rs:265-269 | buffered parts become one message item, and no parts become none |
| RequestMap.MapBlocks | crates/polyflare-anthropic/src/translate.rs:226-254 | the blocks of one message become items: parts together, tool blocks alone, flushing what is before them |
| RequestMap.MapMessages | crates/polyflare-anthropic/src/translate.rs:210-260 | the items of a history are those of its messages, in order |
| RequestMap.MapContentParts | crates/polyflare-anthropic/src/reverse.rs:460-463 | the parts that can be read become blocks, in order |
| RequestMap.MapInputItem | crates/polyflare-anthropic/src/reverse.rs:443-498 | each item adds at most one message |
| RequestMap.MapInput | crates/polyflare-anthropic/src/reverse.rs:395-405 | the history is that of the items, in order |
| RequestMeaning.ItemsSay | crates/polyflare-anthropic/src/translate.rs:210-366 | for every history: the parts and tool items that its items hold, in order, are those that each block of each role is to say, images and results included |
| RequestMeaning.PartsStayTogether | crates/polyflare-anthropic/src/translate.rs:226-269 | no message item is empty, and none follows another one of the same message |
| RequestMeaning.TextKinds | crates/polyflare-anthropic/src/translate.rs:278-284 | an assistant's parts are never input text, any other role's and a tool's never output text |
| RequestMeaning.HistorySays | crates/polyflare-anthropic/src/reverse.rs:443-552 | for every list of items: the history is one message for each item that has something to say, under the role it is to have |
| RequestMeaning.UrlReadsIff | crates/polyflare-anthropic/src/reverse.rs:534-549 | a URL reads as base64 data exactly if it is a printed one with a media type without a comma, as itself exactly if it is no `data:` URL, and as nothing otherwise |
| RequestRoundTrip.Base64RoundTrip | crates/polyflare-anthropic/src/translate.rs:289-305 | a base64 source survives its `data:` URL if and only if its media type has no comma |
| RequestRoundTrip.ImageRoundTrip | crates/polyflare-anthropic/src/reverse.rs:528-552 | an image of any kind survives if and only if its source is clean |
| RequestRoundTrip.HistoryRoundTrip | crates/polyflare-anthropic/src/translate.rs:210-366 | for every history, what comes back is, block by block and in order, what survives |
| RequestRoundTrip.SurvivesIffClean | crates/polyflare-anthropic/src/reverse.rs:443-552 | one block comes back as it was if and only if it is clean; it never comes back as more than one |
| RequestRoundTrip.SameHistoryIffClean | crates/polyflare-anthropic/src/translate.rs:210-366 | the whole sequence of roles and blocks comes back if and only if every block is clean |
| Eligibility.JudgeEligibility | crates/polyflare-core/src/select.rs:194-332 | the gates in sequence, with the state they rewrite, give the verdict of the snapshot's own figures |
| Eligibility.EligibleIff | crates/polyflare-core/src/select.rs:194-332 | an account is eligible exactly if it is in service, not held, below its ceiling, past its cooldown and not backing off, each said of the snapshot |
| Eligibility.BlockedIff | crates/polyflare-core/src/select.rs:194-281 | it is blocked for good exactly if the first gate that holds has no known end |
| Eligibility.WaitsForFirstGate | crates/polyflare-core/src/select.rs:210-314 | otherwise it waits for the end of the first gate that holds, and only error backoff is reported as such |
| Eligibility.BackoffDoubles | crates/polyflare-core/src/select.rs:67-71 | 30 seconds up to three errors, 60, 120 and 240 for the next, then 300 |
| Eligibility.VerdictsPersist | crates/polyflare-core/src/select.rs:194-332 | eligible accounts stay eligible, as the same candidate, and blocked ones stay blocked |
| Eligibility.AtMostTwoWaits | crates/polyflare-core/src/select.rs:205-314 | below the ceiling a reported time lies ahead, and at most two waits lead to eligibility |
| Eligibility.TwoWaitsHappen | crates/polyflare-core/src/select.rs:210-297 | one wait is not always enough |
| Eligibility.EventuallyEligibleIffRecoverable | crates/polyflare-core/src/select.rs:194-332 | an account is eligible at some time from now on if and only if it is neither terminal, nor held without a reset, nor over its ceiling |
| Eligibility.CeilingReportsStaleTime | crates/polyflare-core/src/select.rs:257-281 | once any hold is over, the verdict on an account over its ceiling is the same at all times, whatever time it reports |
| Eligibility.StaleTimeReported | crates/polyflare-core/src/select.rs:257-281 | a weekly reset that has passed is reported as the time to wait for |
| Eligibility.RecoveryLiesAheadIff | crates/polyflare-core/src/select.rs:194-332 | a reported time lies ahead if and only if the account is below its ceiling, or still held, or the reset its ceiling reports has not passed |
| Eligibility.LoadNeverDecides | crates/polyflare-core/src/select.rs:316-331 | how busy an account is, and what that costs it, changes no verdict and no recovery time |
| Selection.BackoffCensus | crates/polyflare-core/src/select.rs:389-413 | the number of considered accounts in error backoff, and whether one is blocked for good |
| Selection.SoonestIsLeast | crates/polyflare-core/src/select.rs:353-371 | the reported recovery is the soonest of a considered account in backoff, and there is none exactly when no such account is in backoff |
| Selection.NothingToWaitFor | crates/polyflare-core/src/select.rs:353-371 | when nothing can be picked, there is nothing to wait for exactly when every considered account is blocked for good |
| Selection.FinalPoolSound | crates/polyflare-core/src/select.rs:426-453 | the filters keep only eligible accounts and never empty a pool that is not empty |
| Selection.PickIffSomeUsable | crates/polyflare-core/src/select.rs:653-798 | every strategy picks something exactly when a considered account is eligible, and then such an account |
| Selection.OverloadedOnlyIfAllAre | crates/polyflare-core/src/select.rs:601-632 | the pool-first strategies pick a backed-off account only if every eligible account is backed off |
| Selection.TiersSteerApart | crates/polyflare-core/src/select.rs:747-776 | expensive and middling turns weigh the fresher of two like accounts no less, cheap turns no more |
| SelectionOrder.DropIsBestClass | crates/polyflare-core/src/select.rs:616-632 | dropping backed-off accounts keeps exactly the best class |
| SelectionOrder.TierIsBestClass | crates/polyflare-core/src/select.rs:426-438 | so does the tier filter: healthy before probing before draining before the rest |
| SelectionOrder.PolicyIsBestClass | crates/polyflare-core/src/select.rs:441-453 | so does the policy waterfall: burn_first before normal before preserve before the rest |
| SelectionOrder.PipelineIsRanking | crates/polyflare-core/src/select.rs:585-597 | within a session or for a deterministic strategy, all filters and the final key together are one ranking of the eligible accounts |
| SelectionOrder.FullKeyTellsApart | crates/polyflare-core/src/select.rs:457-474 | in those rankings, accounts that rank the same have the same id |
| SelectionOrder.PickIsLeast | crates/polyflare-core/src/select.rs:653-798 | within a session or for a deterministic strategy, with distinct ids an account is picked if and only if no eligible account ranks before it |
| SelectionOrder.ChoiceIsConsistent | crates/polyflare-core/src/select.rs:530-646 | within a session or for a deterministic strategy, what wins among many wins among any fewer that include it, in any order and under any draw |
| SelectionOrder.RemovingLosers | crates/polyflare-core/src/select.rs:530-646 | within a session or for a deterministic strategy, removing an account that is not picked never changes the pick |
| SelectionOrder.AddingOne | crates/polyflare-core/src/select.rs:530-646 | within a session or for a deterministic strategy, adding an account leaves the pick or makes it that account |
| SelectionOrder.OrderDoesNotMatter | crates/polyflare-core/src/select.rs:530-646 | within a session or for a deterministic strategy, neither the order of the candidates nor the random draw matters |
| SelectionOrder.DrawPicks | crates/polyflare-core/src/select.rs:479-562 | without a session, the weighted strategies pick of two idle accounts the one that is drawn |
| SelectionOrder.DrawIrrelevantIffRanked | crates/polyflare-core/src/select.rs:479-562 | the draw is irrelevant, over all pools with distinct ids, if and only if there is a session or the strategy is deterministic |
| SelectionOrder.MoreWeightNeverLoses | crates/polyflare-core/src/select.rs:530-578 | within a session, raising the picked account's weight multiplier never loses it the pick |
| Preference.CandidateSays | crates/polyflare-core/src/select.rs:316-331 | the usage, the errors and the credits that the strategies look at, in terms of the snapshot and its load |
| Preference.UsableIff | crates/polyflare-core/src/select.rs:585-597 | an account can be used exactly if it is authorized where that is required, and none of the gates on its snapshot holds |
| Preference.RecoveryIsSoonest | crates/polyflare-core/src/select.rs:353-371 | the account to wait for is authorized where that is required, and none such recovers sooner |
| Preference.FinalPoolIff | crates/polyflare-core/src/select.rs:426-453 | an account is in the final pool exactly if it is usable and no usable one is in a better class of overload, health and policy |
| Preference.DeterministicPick | crates/polyflare-core/src/select.rs:635-725 | the pick has the least weekly usage, was selected least recently, is warmest, or is smallest, by strategy; ids break ties |
| Preference.SessionPick | crates/polyflare-core/src/select.rs:530-578 | within a session the pick has the least noise in proportion to its weight; without any weight, the most credits, then the least weekly and five-hour usage, then the earliest selection |
| Preference.WeightSays | crates/polyflare-core/src/select.rs:747-776 | the weight of an account for each tier of work |
| Preference.DrawsByWeight | crates/polyflare-core/src/select.rs:479-520 | without a session the draw is made by weight and multiplier, in the order of the final pool |
| VersionCache.CodexVersionCache.FreshCached | crates/polyflare-codex/src/codex_version.rs:160-169 | the cached version while it is younger than the time-to-live |
| VersionCache.CodexVersionCache.CachedOrFallback | crates/polyflare-codex/src/codex_version.rs:150-157 | the cached version whatever its age, else the floor |
| VersionCache.CodexVersionCache.GetVersion | crates/polyflare-codex/src/codex_version.rs:102-146 | the source is asked if and only if at both checks the cell is empty or at least as old as the time-to-live; a success replaces the cell, a failure keeps it; the answer is what the cell then holds |
| VersionCache.StepsOfOneCall | crates/polyflare-codex/src/codex_version.rs:102-146 | the steps of the interleaved machine, put together, do what one call does |
| VersionCache.StepInv | crates/polyflare-codex/src/codex_version.rs:102-169 | every step of any caller, a cancellation included, keeps the invariant: the lock's holder alone fetches and stores |
| VersionCache.SingleFlight | crates/polyflare-codex/src/codex_version.rs:107-114 | in every interleaving, at any time, at most one fetch is in flight |
| VersionCache.FirstCheck | crates/polyflare-codex/src/codex_version.rs:103-105 | a call answers at once exactly if the version stored last is younger than the time-to-live |
| VersionCache.SecondCheck | crates/polyflare-codex/src/codex_version.rs:107-113 | under the lock a fetch starts exactly if no version is stored or the last one is at least as old as the time-to-live |
| VersionCache.CancelFreesLock | crates/polyflare-codex/src/codex_version.rs:107-114 | a caller cancelled while it fetches frees the lock |
| VersionCache.FetchesAreSpaced | crates/polyflare-codex/src/codex_version.rs:107-123 | no fetch starts within the time-to-live of any earlier success |
| VersionCache.AnswersAreLatest | crates/polyflare-codex/src/codex_version.rs:102-157 | every answer is the version stored last, or the floor before any was stored |
| VersionCache.NoFloorAfterSuccess | crates/polyflare-codex/src/codex_version.rs:125-157 | once a version has been stored, no later answer is the floor |
| Depletion.OnlyLastSegmentCounts | crates/polyflare-core/src/depletion.rs:27-74 | folding a history equals folding it from its last resetting sample on |
| Depletion.RateIsMean | crates/polyflare-core/src/depletion.rs:27-74 | the rate is the exponentially weighted mean of the raw rates since the last reset, and is established exactly when there is one |
| Depletion.KeptDecide | crates/polyflare-core/src/depletion.rs:27-49 | a second sample of the same instant changes nothing |
| Depletion.RateGrows | crates/polyflare-core/src/depletion.rs:50-74 | one more sample: falling usage or another window start anew, otherwise its rise per second counts for two fifths, or for all if it is the first |
| Depletion.RateWithinSegment | crates/polyflare-core/src/depletion.rs:27-74 | it lies between the least and the largest of them and is never negative |
| Depletion.ComputeDepletion | crates/polyflare-core/src/depletion.rs:173-239 | the loop's forecast is that of the fold, and there is none for fewer than two samples, without a rate, or after the reset |
| Depletion.ExhaustionIffCertain | crates/polyflare-core/src/depletion.rs:94-102 | with a positive rate and time left, an exhaustion is foreseen exactly when the risk is one, for any usage; it lies ahead exactly when usage is below full, and never after the reset |
| Depletion.SignalsAgree | crates/polyflare-core/src/depletion.rs:78-102 | exhaustion, a risk of one and a burn rate of at least one come together if and only if usage is below full, or exactly full with a negative time left and a positive rate |
| Depletion.ForecastAgrees | crates/polyflare-core/src/depletion.rs:195-226 | the same of every forecast, with the instant it names, which is not after the reset, and a critical level |
| Depletion.ForecastIff | crates/polyflare-core/src/depletion.rs:173-201 | there is a forecast exactly for two samples or more, with a rate, before the reset |
| Depletion.ForecastFigures | crates/polyflare-core/src/depletion.rs:195-215 | time left, risk, level and burn rate of every forecast, in terms of the latest sample, the rate and the time |
| Depletion.ExhaustionFigure | crates/polyflare-core/src/depletion.rs:216-226 | the instant named is what is left, divided by the rate, from now, in whole seconds |
| Capacity.ObservedBurn | crates/polyflare-core/src/capacity_estimate.rs:73-104 | the loop adds up exactly the steps that are consumption within one window, and refuses thin evidence |
| Capacity.TotalsGrow | crates/polyflare-core/src/capacity_estimate.rs:77-93 | one more sample adds its rise, unless the window rolled or something fell |
| Capacity.BurnAccounts | crates/polyflare-core/src/capacity_estimate.rs:95-103 | a burn is reported exactly for three percent and two million of work or more, and times the work it is the percent |
| Capacity.SegmentTelescopes | crates/polyflare-core/src/capacity_estimate.rs:77-93 | within a segment only the first and the last sample matter |
| Capacity.ExtraSampleIffNotHidingRoll | crates/polyflare-core/src/capacity_estimate.rs:77-93 | anywhere in a history, a further sample between two changes nothing exactly when it does not hide a roll over which something moved |
| Capacity.HiddenRoll | crates/polyflare-core/src/capacity_estimate.rs:80-83 | a sample without a reset time does hide one |
| Capacity.ComputeReferenceBurn | crates/polyflare-core/src/capacity_estimate.rs:127-143 | the middle of the usable burns, sorted in place |
| Capacity.UsableAre | crates/polyflare-core/src/capacity_estimate.rs:128-132 | the usable burns are the positive ones, each as often as given |
| Capacity.ReferenceIsMedian | crates/polyflare-core/src/capacity_estimate.rs:133-143 | the reference is the median of the usable burns, half-way between the two in the middle if they are even in number |
| Capacity.ReferenceWithMajority | crates/polyflare-core/src/capacity_estimate.rs:127-143 | if more than half of the usable burns lie within bounds, so does the reference |
| Capacity.CapacityAntitone | crates/polyflare-core/src/capacity_estimate.rs:110-119 | more burn never means more capacity, which stays within a quarter and four times the plan's figure; the reference burn gives the plan's figure |
| Capacity.InverseProportion | crates/polyflare-core/src/capacity_estimate.rs:116-118 | within a factor of four of the reference, burn times capacity is constant |
| Capacity.DerivedIff | crates/polyflare-core/src/capacity_estimate.rs:110-115 | a capacity is derived exactly from positive figures |

## Left out

- Floating-point rounding, NaN and infinities; overflow and saturation of fixed-width integers: numbers are unbounded and exact.
- HTTP, WebSocket, OAuth and DNS plumbing, header and fingerprint synthesis, admission checks, cookies: driven by libraries, or single branches.
- Pricing, reset credits and rate-limit ladders: closed formulas without state.
- Request envelopes: tools, tool choice, system lifting and the codex contract flag; only the message history is modelled.
- JSON of other shapes than those read: call ids and names are strings, and a usage that is no object counts as empty.
- The pace report's percentages, smoothing and recent burn rate; the forecast burn is a parameter of the projection.
- The table of plan capacities and its aliases: an account's capacity is a number it carries.
- Depletion's safe-usage line and the aggregate over accounts: one-line formulas.
- The probabilities of a draw without a session: only that it picks from the pool.
- The version sources, their parsing and the drift warning: the source's answer is a parameter.
- Hash quality and randomness of ids: different draws are a hypothesis.
- PoolProjection.GreedyIsOptimal: compares with rules that draw exactly the amount of each interval; a rule that withholds demand is not compared.
- A Responses request whose input is a bare string: it becomes one user message.
