# Proofs about the chat agent's durable core

The agent listens to chats, decides when to speak, plans a reply with a model and delivers it. Its
durable core is a set of small deterministic machines. This project models them in Dafny and proves
what they promise, over every input, every run and every interleaving.

| file | what it models |
|---|---|
| `Pacing`, `Backoff`, `Gate`, `GateLaws`, `Snapshot` | the moving average of message gaps, the idle backoff, the turn gate, the snapshot it decides on |
| `Replay`, `ReplayRun`, `ReplayLaws`, `WakeLaws`, `ReplayReads` | the corpus replay: a discrete-event simulation with coalesced commits and timed wakes; when it evaluates, and what each evaluation reads |
| `Markers`, `Timelines`, `LedgerReplay` | replay of the recorded dispatch schedule and its comparison with the live decisions; the timeline it builds, what it accepts, and which trace each dispatch gets |
| `Transcript`, `Normalizer`, `Folding`, `Trimming`, `Images`, `Context`, `Wire` | the provider transcript: normalize, fold, trim, image budget, wire form and back |
| `NormalLaws`, `FoldLaws`, `ImageLaws`, `BuildLaws`, `WireLaws` | what each of these stages yields, entry by entry, stated without the functions that compute it |
| `Planner`, `Resolution`, `Staging` | the tool loop that extends a transcript round by round; which calls a response stands for; the verdict its tool calls stage |
| `Writer`, `WriterLaws` | the group-commit writer of the database |
| `Budget`, `BudgetLaws`, `Learner` | the daily call ledger with batch admission, and the learner's permits |
| `Delivery`, `Outbox` | at-most-once delivery as a concurrent protocol; one pump and its draining |
| `Corpus`, `CorpusLaws`, `Export`, `ExportLaws`, `ExportRuns` | the recorded corpus, its readers, and at-least-once export |
| `Clock`, `Media` | virtual time; admission of media candidates |

Code that loops over variables is a method with the same loop, proved equal to a function; an object
that updates itself is a class. The laws are then stated about the functions and kept as class
invariants. For concurrent objects each method is one stretch between two awaits, so that every
sequence of calls is a run.

## Where the code and its prose differ

The model follows the code; each gap is shown by a concrete lemma and the law is proved on its exact
domain.

* A non-positive gap resets the average (`pretender/cycle.py:3203`), although the comment of
  `ewma_interval` says that it is ignored: `Pacing.ResetExample`, `Pacing.AgreesIff`.
* A frozen snapshot loses the mute and the aliases (`pretender/cycle.py:3255-3287`), although the
  live snapshot sets both and the gate reads both: `Markers.SameDecisionIff`,
  `Markers.ActionFlipsIff`, `Markers.AliasExample`.
* `build_context` promises at most `max_context_size` entries, but `trim` returns up to twice that
  unchanged (`pretender/context.py:226`): `Trimming.TrimBoundIff`, `Trimming.TrimBoundExample`.
* The image budget is called idempotent (`pretender/context.py:267`), but a placeholder can become
  the text of a new image span: `Images.SpliceExample`, `Context.BudgetExample`. With no image
  allowed, splice-freeness is the exact condition (`Context.ZeroBudgetIff`). With a positive budget
  it suffices (`Context.BudgetMet`) and is not necessary, because a new span can swallow a kept image
  (`Images.SwallowExample`). `Context.BuildSettlesIff` states both for the whole pipeline.
* `drain` is to attempt every due row, but it stops after a round without a send
  (`pretender/outbox.py:189`): `Outbox.DrainLeavesIff`, `Outbox.DrainLeavesExample`.
* A caller's delivery key is to be a namespaced component (`pretender/outbox.py:79-83`), but within a
  cycle the key `0` of a single part is the default key of part 0: `Outbox.CallerKeyIff`,
  `Outbox.CallerKeysIff`. Across dispatches the keys stay apart: `Outbox.DispatchKeysApart`.
* The learner drops a single reservation on a degrade rung that the ledger has charged
  (`pretender/budget.py:573`): `Learner.ChargedButDroppedIff`, `Learner.DroppedExample`.
* A torn last line swallows the next marker (`pretender/record.py:66`), which is marked exported all
  the same: `ExportLaws.ExportCompletesIff`, `ExportLaws.SwallowedMarker`.
* A malformed line is to be skipped by the lenient reader and a torn corpus never to prevent shutdown
  (`pretender/record.py:126-128`), but the files are decoded strictly (`pretender/record.py:281`,
  `pretender/record.py:414`): after a tear inside a multi-byte character every reader raises, and so
  does a clean close: `ExportLaws.UndecodableExample`, `ExportLaws.CloseAttestsIff`.
* `close` of the database is documented to fail pending writes; every write queued before it is in
  fact executed, and nothing is left for the failing path: `Writer.Database.NoneLeftWaiting`.
* A media submit that is queued when its task is cancelled still runs, while its reservation is given
  back, so the candidate cap can be exceeded by the number of such cancellations, and by no more:
  `Media.Harvester.Drive`, `Media.Overfill`.
* In frequency mode a timed wake keeps its promise only if the silence it waits for fits into the
  presence window (`pretender/cycle.py:251-253`): `ReplayLaws.FrequencyPromise`,
  `ReplayLaws.MissedPromiseExample`.
* Of two policy rungs at one share, which the configuration accepts, only the later counts, so a
  warning can override a stop (`pretender/budget.py:307-308`): `Budget.LadderDecides`,
  `Budget.TieExample`.

## Model

| member | source | states |
|---|---|---|
| `Pacing.EvolveAvgInterval` | pretender/cycle.py:3190-3206 | the loop over the committed messages computes the fold of the pacing step |
| `Pacing.AgreesIff` | pretender/cycle.py:3190-3206 | the average as written is the meant one (over gaps between successive running maxima) exactly when nothing was forgotten or the first remembered gap equals the average of the forgotten ones |
| `Pacing.ResetExample` | pretender/cycle.py:3203-3203 | a timeline on which the two averages differ |
| `Pacing.EvolveForgets` | pretender/pacing.py:22-48 | the average as written is the meant average of the gaps since the last non-positive gap |
| `Pacing.AverageWithinGaps` | pretender/pacing.py:22-48 | both averages are positive and lie between the smallest and the largest gap |
| `Pacing.MeantIgnoresLateOrSelf` | pretender/cycle.py:3190-3206 | inserting a self message or one that is not newer anywhere leaves the meant average and its gaps alone |
| `GateLaws.AverageIsWeighted` | pretender/pacing.py:22-48 | the average over some gaps is their weighted sum: the newest counts for a half, the one before it for a quarter and so on, the oldest as much as the second |
| `Backoff.AppliesIff` | pretender/backoff.py:125-188 | backoff applies exactly to an idle, unfocused, unaddressed group below the threshold with a begun streak and a positive base, for the seconds of its streak; the streak grows by an idle end with nothing urgent and starts over otherwise |
| `Backoff.SecondsMonotone` | pretender/backoff.py:107-119 | a longer streak never shortens the backoff, which stays within zero and the cap |
| `GateLaws.BackoffDoubles` | pretender/backoff.py:107-119 | no backoff before the streak counts, then the base, and each further idle end doubles it, always up to the cap |
| `Gate.OrderNeverMatters` | pretender/gate.py:289-312 | the order in which features are registered never changes the totals or the score |
| `GateLaws.TotalsJoin` | pretender/gate.py:289-312 | the totals of two lists of contributions are the greater maximum and the sum, and the scale is the product of the factors |
| `GateLaws.TotalsOfOne` | pretender/gate.py:289-312 | one contribution alone replaces the start value of its kind; a failed one counts for nothing |
| `GateLaws.ScoreIsNearest` | pretender/gate.py:289-312 | the score is the whole number nearest to maximum plus sum, times the scale, the even one of two, and never negative |
| `Gate.Precedence` | pretender/gate.py:512-586 | what triggers, what skips and what delays, with which reason and score, read off the decision: mute before address, address before refusal, refusal before errors and backoff, then the mode |
| `Gate.HoldsNeverExtend` | pretender/gate.py:423-465 | a backoff out of a hold ends exactly at the hold; an expired hold yields none |
| `GateLaws.PutOffIff` | pretender/gate.py:423-465 | a decision is put off exactly while a hold lasts, or without a hold when the idle streak of a group asks for it, with nothing urgent, nothing refused and no failed feature |
| `Gate.DelayIsShortestWait` | pretender/gate.py:603-647 | a positive delay that is not backoff is the shortest wait: while nothing is committed, the condition it waits for holds after a time exactly if that time is at least the delay |
| `GateLaws.DelayArmsIff` | pretender/gate.py:603-647 | an evaluation that is left to wait arms a wake exactly if the idle time is measured, something is pending, there is an average, and what the wait could bring is not there yet |
| `Gate.SilenceNeverSpeaksFirst` | pretender/gate.py:589-647 | in frequency mode, without a pending message, silence alone never triggers and arms no wake |
| `Snapshot.NewestFirstSorts` | pretender/cycle.py:3112-3148 | the recent read is the window sorted newest first, nothing lost and nothing added |
| `Snapshot.RecentFromTimeline` | pretender/cycle.py:3112-3148 | what is shown lies in the timeline, up to the boundary and inside the window |
| `Snapshot.AssembledIsWellFormed` | pretender/cycle.py:184-275 | an assembled snapshot passes the snapshot's own construction checks |
| `Replay.WakeSettles` | pretender/gate.py:603-647 | an evaluation with no commit since the previous one leaves no timed wake, in either mode and for every feature set |
| `Replay.TwoWakesSuffice` | pretender/cycle.py:3009-3064 | between two commits at most two timed wakes fire |
| `ReplayRun.FireWhileDue` | pretender/cycle.py:3018-3019 | the unbounded inner loop terminates and fires exactly the due wakes |
| `ReplayRun.FireToTheEnd` | pretender/cycle.py:3061-3064 | the final loop leaves no wake behind, so its cap of 1000 is never reached |
| `ReplayRun.ReplayCorpus` | pretender/cycle.py:2822-3072 | the whole replay loop yields the traces of the run for every corpus, and as spoken count the number of its evaluations that trigger |
| `ReplayRun.PlaceCommits` | pretender/cycle.py:2889-2899 | committed are exactly the message events of the chat with a time of their own or of their event, in file order, each stamped with that time |
| `ReplayRun.TakeGroup` | pretender/cycle.py:3023-3028 | a group is the longest run of commits at one commit time |
| `ReplayRun.WakeAfterGroup` | pretender/cycle.py:3034-3055 | when a group wakes the gate: not for self messages only, on a tie, on priority, or with nothing scheduled |
| `ReplayRun.WakesIff` | pretender/cycle.py:3034-3055 | on the group itself: some message of it is somebody else's, and no wake is scheduled, or one for this very time, or such a message mentions the bot or answers something, or the pending messages reach the threshold |
| `WakeLaws.EvaluationTimesIff` | pretender/cycle.py:3009-3064 | over every corpus, gate mode and feature set the replay evaluates at a time exactly if the wake armed by the evaluation before falls on it, or a message of somebody else is placed then and no wake is armed, or it mentions the bot or answers something, or the inbound messages nobody took have reached the threshold |
| `WakeLaws.AddressedIsEvaluated` | pretender/cycle.py:3083-3098 | a message of somebody else that mentions the bot or answers something is evaluated at the time it is placed, whatever wake is scheduled, by an evaluation that sees it |
| `WakeLaws.BacklogIsEvaluated` | pretender/cycle.py:3045-3054 | and so is a message at which the inbound messages not yet taken reach the threshold |
| `WakeLaws.OrdinaryWaits` | pretender/cycle.py:3040-3055 | while a wake is armed for later and neither holds, nothing is evaluated |
| `ReplayReads.EvaluationReads` | pretender/cycle.py:2910-3003 | every evaluation reads exactly the messages committed by then (the addressing of its batch, the newest messages and their counts, the idle time, the average), the settings and how the last batch ended, and decides as the gate does on that |
| `ReplayReads.MentionTriggers` | pretender/cycle.py:3083-3098 | in a chat that is not muted a mention of the bot makes it speak at the time it is placed |
| `ReplayReads.QuoteTriggers` | pretender/cycle.py:278-297 | and so does an answer to any message of the bot that is committed by then, however old |
| `ReplayReads.MutedNeverTriggers` | pretender/cycle.py:2910-3003 | a muted chat never speaks |
| `ReplayLaws.ReplayIsOrdered` | pretender/cycle.py:2889-3064 | row ids follow file order, evaluation times never go back, no wake is left over |
| `ReplayLaws.EvaluationSeesCommitted` | pretender/cycle.py:3018-3044 | over every corpus an evaluation sees exactly the messages the clock had reached by its time: a wake strictly before a commit does not see it, one at the same time does |
| `ReplayLaws.ReplayConserves` | pretender/cycle.py:2910-3003 | each evaluation claims a nonempty batch that is exactly the inbound messages committed by its time which no earlier terminal decision took |
| `ReplayLaws.FrequencyPromise` | pretender/cycle.py:251-253 | a frequency-mode wake triggers exactly when the awaited silence fits into the window |
| `ReplayLaws.MissedPromiseExample` | pretender/cycle.py:251-253 | two messages 100 seconds apart arm a wake at 700 that does not trigger in a window of 300 |
| `ReplayLaws.ReplyPromise` | pretender/gate.py:603-624 | a reply-mode wake finds active the idle bonus that was inactive when it was armed |
| `ReplayLaws.QuoteIsCorpusWide` | pretender/cycle.py:278-297 | a quote resolves against every self message of the corpus, also outside the window |
| `Markers.BuildTimeline` | pretender/cycle.py:3371-3397 | the loop over commit markers builds the timeline or refuses a duplicate row |
| `Markers.TimelineRowsAreDistinct` | pretender/cycle.py:3384-3397 | an accepted timeline has a row id on every message and none twice |
| `Timelines.TimelineIsNamed` | pretender/cycle.py:3371-3397 | the timeline holds exactly the messages of the chat that its commit markers name, in commit order, each under its recorded row or else its position, and leads from each commit to its message; it is refused exactly when two of them would share a row |
| `Markers.ReplayMarkerSchedule` | pretender/cycle.py:3308-3605 | the recorded schedule is replayed dispatch by dispatch; any refusal ends it, and the spoken count is that of the traces |
| `Markers.AllOrNothing` | pretender/cycle.py:3402-3517 | the replay succeeds exactly when no settled dispatch of the chat is refused, and then yields one trace per settled dispatch, in order, each the gate's verdict on its snapshot |
| `LedgerReplay.ReplayedIff` | pretender/cycle.py:3371-3517 | a view is replayed exactly when no two of its commits would share a row and every settled dispatch of the chat is acceptable: settled with a time, of the same composition, its commits in the corpus, and its frozen snapshot readable and in agreement with its marker and with the rows of its commits |
| `LedgerReplay.ReplayedFits` | pretender/cycle.py:3437-3590 | each settled dispatch gets its own trace, in order: a frozen snapshot is rescored under the present settings, any other is reassembled from the timeline at its boundary and settlement time, with the attached messages that no reassembled dispatch before it took, and with how the last batch ended; the spoken count is the number of triggers |
| `Markers.SameDecisionIff` | pretender/cycle.py:3240-3288 | deciding on what a frozen snapshot keeps gives the live decision exactly when the chat was not muted and no score hinged on an alias |
| `Markers.ActionFlipsIff` | pretender/cycle.py:3240-3288 | the action itself differs exactly when only the mute kept the chat silent, or when only the score decides and the trigger score lies between the scores with and without the alias |
| `Markers.ExactMarkerReplayIff` | pretender/cycle.py:3437-3517 | a recorded ledger replays under its own configuration, and dispatch by dispatch it is said exactly when the decision is the live one and when the action is not |
| `LedgerReplay.LiveIsAccepted` | pretender/cycle.py:1769-1798 | what the live dispatcher assembles and freezes is accepted by the replay, its membership derived from the rows recorded for the attached commits |
| `Markers.AliasExample` | pretender/gate.py:128-143 | a group named by an alias only: live the bot speaks, replayed it waits |
| `Transcript.ValidateCanonical` | pretender/context.py:360-384 | the validator loop accepts exactly the canonical transcripts |
| `Normalizer.NormalizeMessages` | pretender/context.py:73-153 | the loop with its open turn, pending results and answered ids computes the normal form |
| `Normalizer.NormalFormIsCanonical` | pretender/context.py:73-153 | every normal form is accepted by the validator |
| `Normalizer.NormalIffCanonical` | pretender/context.py:73-153 | a transcript is its own normal form exactly when the validator accepts it; normalizing twice is normalizing once |
| `NormalLaws.NormalFormIs` | pretender/context.py:73-153 | the normal form is what the entries become, one after the other: a tool message moves to its turn or is dropped; an assistant turn keeps exactly the first call of each id that some tool message behind it answers, each with the first such answer, in call order, or only its text when none is answered; everything else stands |
| `Normalizer.NormalizeInventsNothing` | pretender/context.py:73-153 | apart from repaired assistant turns, every entry of the normal form is an entry of the input |
| `Folding.FoldMessages` | pretender/context.py:156-200 | the rebuild loop folds exactly the oldest turns beyond those to keep, and refuses a negative count |
| `FoldLaws.FoldRetells` | pretender/context.py:156-200 | each of the oldest turns beyond those to keep becomes one user entry with the header, the turn's own text if there is one, and a line for each call other than reply, wait and no_action with the answer of its own id; every other entry stands unchanged, in order, and nothing else is there |
| `Folding.FoldSettles` | pretender/context.py:156-200 | folding leaves at most the turns to keep, stays canonical, and does nothing a second time |
| `Folding.FoldKeepsRecent` | pretender/context.py:156-200 | few turns: folding changes nothing beyond normalizing |
| `Folding.ListingIsExact` | pretender/context.py:522-545 | the listing of a folded turn has one line for each of its calls other than reply, wait and no_action, in call order, each rendered with the answer of its own id |
| `Trimming.TrimMessages` | pretender/context.py:203-256 | the trim loop computes the trimmed transcript and refuses a size below one |
| `Trimming.TrimShape` | pretender/context.py:223-256 | the result is the pinned system entry and a suffix starting on a turn boundary, of the requested size or above it by less than its oldest kept turn; the defensive head loop removes nothing |
| `Trimming.TrimPins` | pretender/context.py:203-221 | what is pinned in front of the kept suffix is the first system entry, exactly when it stands before the suffix |
| `Trimming.TrimSettles` | pretender/context.py:203-256 | trimming is canonical and idempotent |
| `Trimming.TrimBoundIff` | pretender/context.py:226-226 | the promised bound holds exactly for a transcript within it, or one of more than twice its size that can be cut between turns so that precisely the surplus goes, the pinned entry apart |
| `Trimming.TrimBoundExample` | pretender/context.py:303-305 | two plain entries exceed a bound of one |
| `Images.ScanRoundTrip` | pretender/context.py:56-56 | scanning a text for image spans loses nothing |
| `ImageLaws.SpanIff` | pretender/context.py:56-56 | the scanner finds an image exactly where the text starts with `![alt](url)`, the alternative text without `]` and the url without `)`, and takes the whole of it |
| `ImageLaws.SubWeaves` | pretender/context.py:277-289 | a replacement keeps the text around the images and the newest images as they stand, and writes the placeholder for each of the oldest |
| `Images.ReplacedScansIff` | pretender/context.py:277-289 | after replacing the oldest images, the text scans as it was written exactly when no replacement completes a new span |
| `Images.SubKeepsNewest` | pretender/context.py:277-289 | after a splice-free replacement the images are exactly the newest ones, untouched and in order |
| `Images.ReplacingAllIff` | pretender/context.py:277-289 | replacing every image leaves none exactly when no replacement completes a new span |
| `Images.SpliceExample` | pretender/context.py:267-267 | `!![a](b)(c)` still holds an image after its only image was replaced |
| `Images.SwallowExample` | pretender/context.py:277-289 | `!![a](b)(![x](y)` with one of its two images to replace is not splice-free, and still one image is left |
| `Context.ApplyImageBudget` | pretender/context.py:259-290 | the counting and replacing loops replace exactly the oldest images beyond the budget, over all entries |
| `ImageLaws.BudgetReplacesOldest` | pretender/context.py:259-290 | every entry loses exactly those of its images, oldest first, that are still too many once the entries before it have lost theirs; nothing else changes |
| `Context.BudgetKeepsNewest` | pretender/context.py:259-290 | over a whole transcript the budget keeps exactly the newest images, in order |
| `Context.BudgetMet` | pretender/context.py:259-290 | the output is within the budget whenever no replacement completes a new span |
| `Context.ZeroBudgetIff` | pretender/context.py:259-290 | with no image allowed, the budget is idempotent exactly when no replacement completes a new span |
| `Context.BudgetExample` | pretender/context.py:267-267 | a transcript that is over budget again after the budget was applied |
| `Context.BuildContext` | pretender/context.py:293-311 | the pipeline in order, refusing each parameter out of range |
| `BuildLaws.BuildInStages` | pretender/context.py:293-311 | the result for every transcript, stage by stage: the entries of the normal form, the old turns folded, then trimmed behind the first system entry, and last the oldest images replaced |
| `Context.BuildSettlesIff` | pretender/context.py:293-311 | for every transcript the result is canonical with at most the turns to keep; building again changes nothing exactly when the image budget is met, which it is whenever no replacement in the trimmed transcript completes a new span, and with no image allowed only then |
| `Wire.CallRoundTripIff` | pretender/context.py:426-438 | a call comes back from the wire as it was exactly when its raw argument is absent, or a text that is no JSON object beside empty arguments |
| `Wire.EntryRoundTripIff` | pretender/context.py:387-516 | the same for an entry: system, user and tool contents are present and a user text holds no image |
| `Wire.WireRoundTripIff` | pretender/context.py:319-343 | serializing never refuses, and reading back gives the normal form exactly when each of its entries survives |
| `Wire.CanonicalSerializes` | pretender/context.py:319-331 | a canonical transcript goes out unchanged |
| `Wire.PartsKeepText` | pretender/context.py:441-461 | the multimodal split keeps the ordinary text verbatim |
| `Wire.PartsKeepImages` | pretender/context.py:441-461 | the multimodal split keeps the images in order |
| `WireLaws.UserOnWire` | pretender/context.py:390-397 | a user text without an image goes out as it stands, one with images as its pieces of text and the urls of its images by turns, empty pieces left out |
| `WireLaws.UrlIs` | pretender/context.py:454-456 | the url that goes out for an image is the one its span was written with |
| `WireLaws.CallOnWire` | pretender/context.py:402-438 | a call goes out under its id and name; its arguments read back as they are, and a raw text goes out as it stands |
| `WireLaws.WireStaysIff` | pretender/context.py:464-516 | an entry that is read and sent again is the same on the wire exactly if its content is plain text, free of images if it is a user's, and its calls have arguments printed as they would be |
| `Planner.ResolveCalls` | pretender/planner.py:429-512 | the loop with its set of seen ids resolves structured, mapped and recovered calls |
| `Planner.DedupKeepsFirst` | pretender/planner.py:480-491 | of the calls with one id exactly the first is kept |
| `Planner.ResolvedOrphansNothing` | pretender/planner.py:429-512 | resolved calls have distinct, nonempty ids and no raw arguments, and every id the response names is among them |
| `Resolution.ResolvedCarries` | pretender/planner.py:429-512 | unit by unit: each unit that is the first with its nonempty id gives exactly one call, in the order of the units, with its name and arguments, or the repaired ones, or no_action if the repair fails; without such a unit the calls recovered from the text take their place; the fallback flag is set exactly on a repair or a recovery |
| `Planner.PlayRound` | pretender/planner.py:287-322 | one round: request, resolution, contained dispatch of each call, one tool message per call |
| `Resolution.RoundReports` | pretender/planner.py:287-322 | a round says what the model said and answers each call with the report of its own dispatch, under the name of the tool that spoke |
| `Planner.FailureSpeaks` | pretender/planner.py:518-534 | a failed result answers its own call with a nonempty text, the error if there is one |
| `Staging.ToolContext.StageRound` | pretender/tools/core.py:283-364 | the calls of a round in dispatch order: each handler checks its arguments and conflicts in the source's order and stages its intent field by field, or is refused without effect |
| `Staging.LastIntentDecides` | pretender/planner.py:341-365 | a round ends as its deciding call says: a media send if it is the first valid call, otherwise the last valid reply, wait or refusal; with none the context is still empty and only a response without calls ends the round |
| `Staging.LoneCallDecides` | pretender/tools/core.py:283-364 | a reply that is not blank, a wait within the bounds, a refusal with its reason and an approved media send end a round as asked, and nothing else does |
| `Planner.RunPlan` | pretender/planner.py:198-385 | the capped loop extends the transcript and stops at the first verdict, refusing a cap below one |
| `Planner.EndsAtFirstVerdict` | pretender/planner.py:279-368 | the rounds are numbered, at most the cap, all but the last without a verdict; the cap is reported exactly when every round went by without one |
| `Planner.DegradedIff` | pretender/planner.py:276-384 | a run is reported as degraded exactly if one of its rounds fell back on a repair or recovery or had a dispatch that raised |
| `Planner.RoundIsAnswered` | pretender/planner.py:298-322 | a round appends one assistant turn and one answer per call, in call order |
| `Planner.RoundSurvivesWire` | pretender/planner.py:298-322 | everything the planner appends comes back from the wire as it was |
| `Planner.PlannerStaysCanonical` | pretender/planner.py:256-322 | for every history, every responses and every dispatch failure, each request starts with the system prompt and the built history, each request and the final transcript are canonical, and all go out exactly as they stand |
| `Writer.Database.Write` | pretender/db.py:118-132 | a write gets the next ticket at the end of the queue, or is refused after close without a trace |
| `Writer.Database.Cancel` | pretender/db.py:132-132 | a caller that gives up marks its own pending future and nothing else |
| `Writer.Database.RunOps` | pretender/db.py:194-205 | the operations run in their savepoints, raised ones roll back only themselves and fail at once, the other results are held and no future gets a value |
| `WriterLaws.EachIsATransaction` | pretender/db.py:194-205 | every operation works on what the ones before it left; if it goes through, its database stands and its value is the answer, and otherwise the database is as before |
| `WriterLaws.FailedLeavesNoTrace` | pretender/db.py:194-205 | without a failed operation the database and the answers of all others are the same |
| `Writer.Database.ExecuteBatch` | pretender/db.py:170-224 | a batch is kept whole with every answer published after its commit, or the durable database is as before and every caller fails; when the connection stays usable |
| `Writer.Database.Gather` | pretender/db.py:134-168 | operations move from the head of the queue into the batch, in order, until the cap is reached or none is left; at the sentinel everything accepted is executed, in at most one transaction |
| `Writer.Database.FailQueued` | pretender/db.py:226-235 | exactly the pending futures of what is still queued get the closed error, and no other future changes |
| `Writer.Database.Drive` | pretender/db.py:100-235 | over every run of writes, cancellations, closing, draining and faults the queue discipline and the history hold, and a future that is done never changes |
| `Writer.Database.BatchingIsInvisible` | pretender/db.py:134-224 | while no batch is lost, the durable database and every awaited answer are those of one transaction per operation, in order |
| `Writer.Database.NoneLeftWaiting` | pretender/db.py:100-116 | a stopped writer has executed or failed every accepted operation and no caller waits |
| `Writer.Database.WindDown` | pretender/db.py:100-168 | after close the writer stops within as many rounds as the queue has entries, whatever the engine refuses, and then no caller waits |
| `Writer.SplitsAgree` | pretender/db.py:134-224 | however the operations are cut into batches, the database and all answers are those of the uncut serial run |
| `Budget.DecideBatch` | pretender/budget.py:330-382 | the loop over the calls of a batch finds the earliest rung it crosses |
| `Budget.TopIsHighest` | pretender/budget.py:297-308 | on a sorted ladder the deciding rung is an engaged one with the highest share |
| `Budget.LadderClimbs` | pretender/budget.py:307-308 | more calls never lead down the ladder |
| `Budget.LadderDecides` | pretender/budget.py:291-328 | on every sorted ladder the hard cap and a deciding rung that stops block, a deciding rung that degrades degrades, and nothing else does; of engaged rungs with the highest share the last one decides; what remains |
| `BudgetLaws.DecisionNamesRung` | pretender/budget.py:291-328 | a decision names the highest engaged rung, past the cap the highest of those engaged at the cap |
| `Budget.TieExample` | pretender/budget.py:307-308 | a rung listed later at the same share overrides one that stops |
| `Budget.Store.ReserveCalls` | pretender/budget.py:155-235 | decision and reservation in one store transaction, as the functions that the laws on reservations speak of |
| `BudgetLaws.ReserveAnswers` | pretender/budget.py:155-235 | a reservation reports the usage it found and is written exactly if it is not answered "semantic only"; then the next reader finds the calls added and nothing else changed, within cap and limit; a batch that does not fit is told the room |
| `BudgetLaws.BatchAnswers` | pretender/budget.py:330-382 | a batch is answered by the closed limit, by the verdict on the current count, or by what its first call that does not pass runs into |
| `Budget.Store.RecordCalls` | pretender/budget.py:237-287 | the returned usage is what every later read of the day finds: the old one with the amounts added, negative ones as zero and the calls up to the cap; no other row changes |
| `Budget.RecordsAdd` | pretender/budget.py:237-287 | recording in two steps leaves the same rows as recording the sum at once |
| `Budget.ReadsBack` | pretender/budget.py:408-450 | a stored usage within bounds is read back as it was |
| `Budget.ReadTolerates` | pretender/budget.py:408-438 | a value that is missing, malformed or of another day counts for nothing, and one of today for what it says as far as that is admissible |
| `Budget.BatchIsSingles` | pretender/budget.py:330-382 | a batch of two or more is admitted exactly when that many single reservations in a row would all be allowed, with the same stored value; otherwise nothing is written |
| `Budget.LedgerConserves` | pretender/budget.py:155-287 | over every interleaving of reservations and records the count is the start plus all that was granted and recorded, never above the cap and never falling within the day |
| `Budget.BackgroundStaysBelow` | pretender/budget.py:155-235 | background work alone never takes the count above its limit |
| `Budget.BackgroundStep` | pretender/budget.py:155-235 | beside any other work, a background reservation that adds calls leaves the count within its limit |
| `Learner.FindLast` | pretender/budget.py:610-624 | the search finds the newest lease of the chat, or there is none |
| `Learner.LearnerBudget.Decided` | pretender/budget.py:547-577 | an allowed reservation becomes a lease of its own task, any other gives the permit back |
| `Learner.LearnerBudget.Take` | pretender/budget.py:610-624 | recording takes its owner's newest lease of the chat and touches nobody else's |
| `Learner.LearnerBudget.Release` | pretender/budget.py:626-633 | release gives back the caller's newest lease only, and is a no-op without one |
| `Learner.LearnerBudget.Drive` | pretender/budget.py:541-633 | over every interleaving with exceptions and cancellation, free permits, leases and acquisitions or settlements under way add up to the slots |
| `Learner.LearnerBudget.PermitsComeHome` | pretender/budget.py:541-633 | when nothing is under way or owned, every permit is free |
| `Learner.ForegroundKeepsReserve` | pretender/budget.py:536-577 | background work never takes the count above the cap less the daily reserve |
| `Learner.ChargedButDroppedIff` | pretender/budget.py:573-577 | a charged reservation is dropped exactly for a single call on a degrade rung below the limit |
| `Learner.DroppedExample` | pretender/budget.py:206-210 | a charge for a reservation that is dropped |
| `Delivery.AtMostOnce` | pretender/outbox.py:127-172 | over every run of concurrent pumps, failures, refusals, echoes, drops and crashes, no row is written to the wire twice |
| `Delivery.SentIsFinal` | pretender/repo.py:1865-1898 | a sent row never changes state again |
| `Delivery.AmbiguousIsNeverRetried` | pretender/outbox.py:147-159 | a row in flight with no pump on it is never claimed or written again |
| `Delivery.CrashNeverRetries` | pretender/outbox.py:1-24 | whatever follows a crash, only rows that were still pending or did not exist are ever written again, and a claimed or sent row stays so, unheld |
| `Delivery.SentMeansWrittenOnce` | pretender/repo.py:507-542 | when every echo proves a real write, a sent row was written exactly once |
| `Delivery.RequeueIsSafe` | pretender/repo.py:1849-1863 | a refused claim goes back to pending (or stays sent after an echo), unwritten and unheld, and no other row changes |
| `Delivery.RowMovesIff` | pretender/repo.py:1835-1912 | when and how a row changes: claimed only while it waits, put back only by the pump that was refused, sent by an echo or by the pump whose send was confirmed, dropped only while it waits; written by the pump that claimed it |
| `Delivery.DeliveredIsSent` | pretender/outbox.py:143-170 | a free pump that takes a waiting row, delivers and confirms it leaves it sent with one write, and itself free |
| `Delivery.RefusedIsBack` | pretender/outbox.py:143-170 | refused and put back, everything is as before |
| `Delivery.FailedStaysInFlight` | pretender/outbox.py:155-159 | after a failure the row stays in flight, written or not, and the pump is free |
| `Outbox.ToItems` | pretender/outbox.py:76-123 | one item per part, in order: a segmented message whole, a list of parts part by part, a text by itself, each with its key, its position among several and all the segments; an error exactly for an empty message |
| `Outbox.KeysAreDistinct` | pretender/outbox.py:101-109 | the keys of a batch are distinct |
| `Outbox.DefaultKeysIff` | pretender/outbox.py:101-109 | without a caller's key, two keys agree exactly for the same part of the same cycle |
| `Outbox.CallerKeyIff` | pretender/outbox.py:101-109 | a caller's key equals a default one of its cycle exactly when it stands for a single part and reads as that part's number |
| `Outbox.CallerKeysIff` | pretender/outbox.py:101-109 | when two callers' keys of one cycle agree: the same key and part, or a single part whose key spells out the key and part number of the other |
| `Outbox.DispatchKeysApart` | pretender/cycle.py:1776-1776 | whatever the callers' keys, rows of different dispatches never share a key |
| `Outbox.Driver.ListReady` | pretender/repo.py:1762-1781 | the ids ascend and are at most the limit; each is a pending row with no send time or one that has come, and each such row is listed unless the limit fills up with smaller ones |
| `Outbox.Driver.Offer` | pretender/outbox.py:143-170 | a row is claimed before the adapter runs, put back only on a refusal, left in flight on a failure, sent on success |
| `Outbox.Driver.PumpRound` | pretender/outbox.py:127-172 | one round over the listed rows; a muted chat keeps its rows; a row that is not pending or whose send time has not come stays as it was |
| `Outbox.Driver.DrainAll` | pretender/outbox.py:182-190 | draining terminates and is the sequence of rounds up to the first without a send; for every adapter a row that is not pending or whose send time has not come stays as it was |
| `Outbox.PumpConsumes` | pretender/outbox.py:139-172 | every send takes one row out of the pending ones |
| `Outbox.DrainAttemptsPrefix` | pretender/outbox.py:182-190 | whatever the adapter does, draining takes a prefix of the due rows, in order and each with one turn of its own, leaves the rest due and touches nothing else |
| `Outbox.DrainLeavesIff` | pretender/outbox.py:127-190 | for every adapter a due row is left exactly when some round, after rounds that all deliver, delivers nothing and either meets an adapter that is offline or refuses, or is full with more rows due |
| `Outbox.SteadyDrainLeavesIff` | pretender/outbox.py:182-190 | for an adapter that never refuses: exactly when some whole block of turns, with rows due behind it, delivers nothing |
| `Outbox.DrainLeavesExample` | pretender/outbox.py:189-189 | the second of two due rows is never attempted |
| `Corpus.ReadMarkers` | pretender/record.py:268-298 | the lenient reader keeps the first marker of each key in file order, and fails on text that does not decode |
| `Corpus.ReadView` | pretender/record.py:389-480 | the strict reader fails on a malformed record or undecodable text, else yields events, sorted first markers and the manifest of the last line |
| `CorpusLaws.ViewShows` | pretender/record.py:389-480 | stated on the lines: the reader fails exactly on a damaged line, and otherwise shows the first marker of each kind and number, by number, and the newest event of each id |
| `Export.ExportUnexported` | pretender/record.py:502-516 | every unexported marker is appended, commits first, and every one of them is marked |
| `Export.Recorder.Close` | pretender/record.py:124-150 | a clean close appends the manifest of the replayable dispatches its own file holds, or fails and leaves an undecodable file as it was |
| `ExportLaws.ExportIsExactlyOnce` | pretender/record.py:502-530 | over every history with atomic appends, after a startup export the reader finds precisely the durable settled dispatches and commits, sorted and without duplicates |
| `ExportRuns.CommitIsRead` | pretender/record.py:502-516 | over every history with atomic appends every commit is read back after a startup export, with its chat and payload |
| `ExportRuns.DispatchKeepsChat` | pretender/record.py:502-516 | a dispatch keeps the chat it was recorded for, whatever happens after |
| `ExportRuns.SettlementIsRead` | pretender/record.py:502-516 | and so is the first settlement of every dispatch, as a replayable dispatch of its chat |
| `ExportRuns.EventIsRead` | pretender/record.py:72-88 | and so is every event a live process recorded, unless a later one has its id |
| `ExportLaws.ExportCompletesIff` | pretender/record.py:60-66 | from any faithful file the export is complete exactly when the file decodes and it ended cleanly, nothing was to export, or the first marker to export already stands on a line |
| `ExportLaws.SwallowedMarker` | pretender/record.py:60-66 | one commit behind a torn line: the export is not complete |
| `ExportLaws.UndecodableExample` | pretender/record.py:281-281 | nothing to export and a tear inside a character: no reader gets past it |
| `ExportLaws.TearKeepsFaithful` | pretender/record.py:82-88 | a torn write, also one inside a character, leaves a file to which the previous law applies |
| `ExportLaws.ManifestIsLast` | pretender/record.py:469-474 | a manifest is reported exactly when it is the last line that is not blank |
| `ExportLaws.CloseAttestsIff` | pretender/record.py:124-150 | a clean close is attested exactly on a cleanly ended file without damage, and the manifest lists exactly the replayable dispatches; behind a torn line it is not reported, and a file that does not decode stays as it was |
| `Clock.VirtualClock.Sleep` | pretender/clock.py:105-141 | a sleep registers its own deadline, or nothing for a delay that is not positive |
| `Clock.VirtualClock.AdvanceTo` | pretender/clock.py:151-158 | exactly the pending futures that are due are resolved, at the new time |
| `Clock.VirtualClock.Advance` | pretender/clock.py:145-149 | time moves by the given amount; a negative amount changes nothing |
| `Clock.VirtualClock.Poll` | pretender/clock.py:122-133 | only the earliest sleeper moves the clock, to its own deadline |
| `Clock.VirtualClock.Cancel` | pretender/clock.py:134-136 | cancelling removes only the cancelled sleep's own entry |
| `Clock.VirtualClock.DropSleeper` | pretender/clock.py:160-167 | the queue without the one entry |
| `Clock.VirtualClock.Drive` | pretender/clock.py:105-167 | over every schedule queued deadlines lie ahead of the clock, futures resolve in deadline order, and on an automatic clock never advanced by hand each at exactly its own deadline |
| `Media.Harvester.Admit` | pretender/media.py:1057-1066 | a slot is reserved exactly when the count in hand and the reservations leave room |
| `Media.Harvester.Release` | pretender/media.py:1070-1076 | exactly one reservation is given back, and the entry goes with the last |
| `Media.Harvester.Drive` | pretender/media.py:964-1076 | over every interleaving with stale counts, failures and cancellation, candidates and reservations exceed the cap by at most the number of tasks cancelled with a queued submit, and reservations match their tasks |
| `Media.Overfill` | pretender/media.py:987-1021 | for every cap and every number of such cancellations the excess is reached |

## Left out

- Network, platform and provider code: adapters, HTTP, image decoding and model calls appear as arbitrary functions or outcomes.
- SQL: the database is a value with BEGIN, SAVEPOINT, ROLLBACK TO, COMMIT and ROLLBACK as save and restore; an error of SAVEPOINT or RELEASE itself, which would end the writer task, is not modelled, nor is the wait that coalesces a batch, which is any number of collecting steps.
- Floating point: times, scores, shares of the cap and costs are exact reals.
- Arguments that stand on the wire as a JSON value and not as a text.
- JSON text: `Wire` takes a printer and a parser of which only the round trip is used; stored usages, frozen snapshots and corpus lines are what their text parses to.
- The gate's built-in features other than relevance: an arbitrary function of the snapshot, so that the replay laws hold for all of them; normalizing and case folding of names is an arbitrary test in `Markers`.
- Snapshot fields no decision reads: sender names, segments, raw payloads and the last message.
- The sweeps over gate constants, the live cycle runner apart from the snapshot it assembles, and the replay rate.
- The ledger's path without an atomic store, the list of degrade actions on a decision, and the client that applies them.
- Prompts, tool definitions, token counts and the optional planner parameters; the reply target, its style and the chat controls a tool context stages beside the verdict.
- How an asset is found and approved before a media send is staged: one outcome of the call.
- The order in which a reader meets a malformed record and undecodable text: both are the same failure.
- Creation of outbox rows when a cycle finishes, the row written as the bot's own echo, the matching of an echo against its row, and the group id of a batch.
- Normalizing platform events into corpus lines, and the layout checks inside a manifest, which are one kind of damaged line.
- Media policy, description, approval and revocation; approval and rejection appear as a pending row that leaves.
- Clock.VirtualClock.Drive: the heap is kept as the ascending list of its entries, so the array layout of the heap is not modelled; a sleep that is dropped on cancellation counts as cancelled.
- Media.Harvester.Drive: seen from one chat, with tasks of other chats only as holders of the lock; tasks in the same phase are counted, not named.
- Context.BuildSettlesIff: for a positive image budget the condition on the transcript before the image stage is sufficient and not necessary; the exact one is on the image total of the result, for the reason given above.
