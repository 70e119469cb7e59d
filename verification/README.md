# Sailly, verified

A Dafny model of the deterministic core of a German voice agent for restaurants, with proofs about every
run of it. Regexes, keyword lists, slot extractors, random choice, the clock and the database are
parameters: whatever they answer, the theorems hold.

Each source file that works by updating state is a class (or a method with a loop) whose methods are proved
equal to a step function; runs are sequences of steps, and the theorems are about all of them.

| file | what it models |
|---|---|
| `ConversationFsm`, `ConversationRuns`, `ConversationTurns` | the six-phase conversation machine, from greeting to the tool call, and the same read off the transcript alone |
| `CapturedIntents`, `IntentMerge`, `IntentLaws`, `IntentAliasing`, `IntentParsing` | captured intents: parsing, merging on shared objects, status transitions, urgency order |
| `IntentSession`, `IntentClassification` | the utterance classifier and the lock/reroute session |
| `ContextDoc`, `ContextAnswers` | the commit gate that assembles the context document of a turn |
| `RateLimit` | the sliding-window call limiter and its override list |
| `ClockText`, `Calendar` | clock times and dates as text, slot bucketing, half-hours of the calendar |
| `Reservations`, `SeatLaws`, `CheckLaws`, `ReservationRuns`, `CalendarRuns` | seat counting, availability answers, and the check-then-create protocol, over text slots and over the calendar |
| `SilenceReprompt` | the silence timer: frames, task resumption, cancellation |
| `PhraseRotation` | fillers and backchannels that do not repeat themselves |
| `Monitoring`, `MonitoringFigures` | de-duplication and aggregation of call metrics |
| `CallAuditor`, `OrderStatistics`, `ScoreLaws` | scoring of finished calls over exact reals |
| `LiveTrace`, `LiveTraceContent` | truncation and recursive sanitising of trace details |
| `Pcm16`, `Worklet`, `StereoRecorder` | audio chunking and stereo interleaving |
| `DigitSpelling` | spelling of long numbers for speech |
| `Wrappers`, `Decimal`, `Texts`, `Sums` | options, decimal numerals, joined texts, sums over finite sets |

## Where the code and its documentation differ

The model follows the code. These differences are theorems here:

- `server/brain/rate_limit.py:5-6` says that numbers on the override list bypass the limit entirely. A number
  added in memory does so only until the file is read again, and the first check reads it if nothing has
  before (`OverrideTakesEffectIff`). So an addition holds on a server, which reads the file at startup,
  until a reload (`AdditionsHoldUntilALoad`, `ReloadDropsAnAddition`), and is lost on a module that has read
  nothing yet (`EarlyOverrideIsLost`).
- `server/brain/context_doc_builder.py:91` says the commit tool is set only on a commit; it stays set when the
  guard turns a commit into a question for the phone (`ToolOutlivesCommitIff`). The comments that the phone
  never blocks a commit (lines 23-28) are also not what the code does (`CommittedToolsHaveTheirSlots`).
- `server/brain/slot_extractor.py:390` says confirmed slots are not overwritten; they are, as soon as a
  different value is heard, while missing and partial entries never change (`MergeSettlesSlots`,
  `ConfirmedSlotIsOverwritten`).
- `server/brain/intent_session_manager.py:5-6` announces locking from turn 2 on a repeated intent; one turn
  is enough, from turn 1 (`LocksExactlyWhen`, `OneReservationLocks`). A turn that only gives a name or phone is meant to leave the
  intent unchanged (`intent_classifier.py:279-283`); it erases an intent that is not locked
  (`SlotAnswersKeepTheIntentIff`). The reroute for two intents of different profiles never happens, because
  the classifier never reports a second intent (`TurnEffects`).
- `server/brain/conversation_fsm.py:16` says a correction goes back to the most recent unfilled phase; once
  the read-back has begun nothing can change but the confirmation (`ReadbackFreezesTheCall`).
- `tools/executor.py` checks on the tenant's grid but counts on half hours, and it compares slots as texts.
  In terms of its own text slots the protocol is safe exactly when the grid is 30
  (`SafeExactlyOnTheHalfHourGrid`). In terms of the calendar it is then safe exactly when no two admitted
  texts name the same half-hour in different slots (`SafeExactlyForUnambiguousTexts`). Padded dates with
  times of day from 00:00 to 23:59 are such texts (`CanonicalTextsAreSafeIff`); "19:90" beside "20:30",
  "2026-1-15" beside "2026-01-15", and "24:10" beside "00:10" of the next day are not, though all are
  read (`OverrunningMinutesOverbook`, `UnpaddedDatesOverbook`, `OverrunningHoursOverbook`).
- `server/sailly_gemini_tts.py:151` shows a postcode of five digits without a pause; the code puts a comma before
  the last digit (`PostcodeHasAPause`).
- `_truncate` keeps a limit exactly if it is at least 3, and truncating is idempotent exactly for limits
  of at least 3 and for 0 (`TruncationRespectsLimitIff`, `TruncationIsIdempotentIff`).

## Model

| member | source | states |
|---|---|---|
| ConversationFsm.ConversationFSM.TakeStep | server/brain/conversation_fsm.py:147-191 | the result, the new phase and all thirteen slots of one turn are those of the step function, and an object that tracked its whole history still does |
| ConversationFsm.ConversationFSM.PhaseGreeting | server/brain/conversation_fsm.py:195-270 | an intent is set only when exactly one of the two is heard |
| ConversationFsm.ConversationFSM.PhaseInfo | server/brain/conversation_fsm.py:272-381 | phone, then name, then the delivery address, one per turn, with the order-without-address detour |
| ConversationFsm.ConversationFSM.PhaseOrderOrReserve | server/brain/conversation_fsm.py:383-525 | items then payment, or date then time then party size, one per turn |
| ConversationFsm.ConversationFSM.PhaseReadback | server/brain/conversation_fsm.py:527-572 | the slots are confirmed exactly by a yes |
| ConversationFsm.ConversationFSM.PhaseCommitted | server/brain/conversation_fsm.py:574-637 | the tool call built from the slots, or the fallback when unconfirmed |
| ConversationFsm.ConversationFSM.PhasePostCommit | server/brain/conversation_fsm.py:639-671 | answers without changing anything |
| ConversationRuns.StepAdvances | server/brain/conversation_fsm.py:195-671 | every step keeps the phase invariant, never loses rank, gains at most one, and calls a tool exactly when leaving COMMITTED |
| ConversationRuns.Reachable | server/brain/conversation_fsm.py:147-191 | the invariant holds after every conversation, and the rank is at most its length |
| ConversationRuns.OneCallExactlyAfterCommit | server/brain/conversation_fsm.py:574-637 | the tool log of any conversation is one call made from the final slots if POST_COMMIT is reached, and empty otherwise |
| ConversationRuns.NoCallBeforeEighthStep | server/brain/conversation_fsm.py:147-191 | no conversation calls a tool before its eighth step |
| ConversationRuns.CommitDistance | server/brain/conversation_fsm.py:147-191 | from any point of any conversation the call is exactly `8 - Rank` turns away: a cooperative caller gets there, nobody gets there sooner |
| ConversationRuns.EightStepsSuffice | server/brain/conversation_fsm.py:147-191 | the eight-step bound is attained, for orders and for reservations |
| ConversationRuns.CallsAreFullyFilled | server/brain/conversation_fsm.py:588-631 | every call carries name and phone, and items and payment, or date, time and a party of 1 to 12; a delivery order carries a street |
| ConversationRuns.ReadbackFreezesTheCall | server/brain/conversation_fsm.py:527-637 | after entering READBACK nothing but the confirmation flag changes, and a later call says field by field what was read back |
| ConversationRuns.CallsFollowConfirmation | server/brain/conversation_fsm.py:527-637 | a step calls a tool exactly if it starts in COMMITTED, and COMMITTED is only entered by a confirmation in READBACK |
| ConversationRuns.PostCommitIsAbsorbing | server/brain/conversation_fsm.py:639-671 | once in POST_COMMIT, no utterance changes phase or slots |
| ConversationRuns.DefensiveBranchesAreDead | server/brain/conversation_fsm.py:519-598 | neither the unconfirmed branch of COMMITTED nor the error result is ever taken |
| ConversationTurns.StateIsWhatWasHeard | server/brain/conversation_fsm.py:147-191 | phase and all thirteen slots after any conversation, as a reading of eight decisive turns of the transcript, without the step function |
| ConversationTurns.TurnsAreTheFirst | server/brain/conversation_fsm.py:272-572 | each decisive turn is the first after the one before that gives what is due, and nothing due was given since the last |
| ConversationTurns.AnswersFollowTheTurns | server/brain/conversation_fsm.py:195-671 | every response, gate flag and phase follows from the turns found and from what this turn gives |
| ConversationTurns.CallsSayWhatWasHeard | server/brain/conversation_fsm.py:588-631 | a call is made exactly once there are eight such turns, and says field by field what they said: phone, name, street, items, payment, date, time, size |
| ConversationTurns.StepsOnForeignSlots | server/brain/conversation_fsm.py:195-598 | the steps that no fresh conversation takes, on slots from elsewhere |
| ConversationTurns.CommitsOnForeignSlots | server/brain/conversation_fsm.py:588-637 | on any confirmed slots, exactly when a call is made, and that it says what the slots say |
| ConversationTurns.KnownAddressesAreNotAsked | server/brain/conversation_fsm.py:313-381 | an address known beforehand is not asked for |
| ConversationTurns.TotalPriceAdds | server/brain/conversation_fsm.py:612 | the total is the sum over the items of price times quantity |
| ConversationTurns.TrackedCallsSayWhatWasHeard | server/brain/conversation_fsm.py:147-191 | so for the object and the conversation it has had |
| CapturedIntents.TransitionIntent | server/brain/captured_intents.py:311-338 | succeeds exactly on table transitions, and a refused one changes nothing |
| CapturedIntents.OnlySixTransitions | server/brain/captured_intents.py:298-338 | the six changes there are, and that they change nothing but the status and a given result |
| CapturedIntents.RequiredSlotsFollowTheKind | server/brain/captured_intents.py:263-293 | for the usual slots, exactly the kinds that need each |
| CapturedIntents.RequiredDetailsFollowTheKind | server/brain/captured_intents.py:263-293 | for the other slots, exactly the kinds that need each |
| CapturedIntents.UrgencyOrder | server/brain/captured_intents.py:61-85 | the order of all kinds by urgency |
| CapturedIntents.CapturedIntent.IsCommittable | server/brain/captured_intents.py:169-175 | committable exactly if every required slot is present and confirmed |
| CapturedIntents.SortSorts | server/brain/captured_intents.py:345-347 | the order is ascending, holds the same intents, and is stable |
| CapturedIntents.SortForgetsCaptureOrder | server/brain/captured_intents.py:61-85 | for distinct kinds the urgency order is strict and independent of capture order |
| IntentMerge.ParseExtractionToIntents | server/brain/slot_extractor.py:286-358 | the parsed objects are new, distinct, and exactly the recognised entries in order |
| IntentParsing.EntriesAreTheList | server/brain/slot_extractor.py:303-308 | which entries are looked at |
| IntentParsing.ParsedIntentsHoldTheText | server/brain/slot_extractor.py:310-356 | one intent for each recognised entry, in order, with its kind, exactly the listed fields that are present, and each slot the entry's own text, confidence and turn |
| IntentParsing.FreshSlotsHoldTheLastText | server/brain/slot_extractor.py:286-404 | after one extraction into a fresh state each slot holds the text of the last entry of its kind that mentions it, and is absent if none does |
| IntentParsing.NewIntentsAreHeard | server/brain/slot_extractor.py:376-386 | intents added by a merge are the first heard of their kind, but for the slots later ones wrote |
| IntentMerge.MergeNewIntentsIntoState | server/brain/slot_extractor.py:361-404 | contents and list of the state's objects after merging are the fold of the merge over the objects passed in, whichever of them are the same or stored already |
| IntentAliasing.FreshIntentsMergeByValue | server/brain/slot_extractor.py:361-404 | for freshly parsed objects that fold is the fold over their values |
| IntentAliasing.RemergingChangesNothing | server/brain/slot_extractor.py:376-404 | merging the very same objects again changes nothing, though some are by then part of the state and have been written to |
| IntentMerge.MergeSlotsInto | server/brain/slot_extractor.py:390-404 | the slot loop writes exactly the merged slots |
| IntentLaws.MergeExtends | server/brain/slot_extractor.py:376-389 | old intents stay in front with kind and status, frozen ones untouched, each missing kind is added once, kinds stay distinct, the current index is set once |
| IntentLaws.CurrentStaysInRange | server/brain/slot_extractor.py:381-385 | the current index stays in range and fixed once set |
| IntentLaws.MergeSettlesSlots | server/brain/slot_extractor.py:390-404 | the merge loop equals a closed rule per slot: the last word wins over a heard slot, and over a confirmed one once any word contradicts it |
| IntentLaws.ConfirmedSlotIsOverwritten | server/brain/slot_extractor.py:397-404 | an input that overwrites a confirmed date |
| IntentLaws.MergeIsIdempotent | server/brain/slot_extractor.py:376-404 | merging an extraction twice is merging it once, even if it repeats a kind |
| IntentLaws.ExtractionNeverConfirms | server/brain/slot_extractor.py:361-404 | every slot confirmed after a merge was confirmed before with the same content |
| IntentLaws.CommittableAfterMerge | server/brain/captured_intents.py:169-175 | after a merge an intent is ready exactly if it was before and, unless frozen, nothing heard contradicts a required slot; of the new ones only questions are |
| IntentLaws.EventEffects | server/brain/captured_intents.py:298-338 | one merge or status request: what may and what may not change in every intent |
| IntentLaws.FrozenAreFinal | server/brain/slot_extractor.py:387-388 | the statuses that merging leaves alone are exactly those that no transition leaves |
| IntentLaws.FrozenForever | server/brain/captured_intents.py:298-304 | completed and cancelled intents keep everything, over every run |
| IntentLaws.CallsNeverBecomeCommittable | server/brain/slot_extractor.py:286-404 | over every run of extractions and transitions no intent but a question becomes ready |
| IntentLaws.CompletedWasConfirmed | server/brain/captured_intents.py:298-304 | no intent is completed without having been confirmed earlier in the call |
| IntentLaws.CapturedUrgencyIsStrict | server/brain/captured_intents.py:345-347 | at any point of a call the urgency order of what was captured is strict |
| IntentSession.SessionState.Update | server/brain/intent_session.py:132-159 | a locked session only notes the turn; an open one takes the result and may lock |
| IntentSession.SessionState.ApplyReroute | server/brain/intent_session.py:161-171 | logs the event, unlocks, and updates |
| IntentSession.IntentSessionManager.ProcessTurn | server/brain/intent_session_manager.py:41-103 | the session follows the turn function, and a manager that tracked its history still does |
| IntentSessionRuns.ClassifierShape | server/brain/intent_classifier.py:136-352 | no second intent is ever reported, and a known intent comes with its table profile |
| IntentSessionRuns.TurnEffects | server/brain/intent_session_manager.py:41-103 | one turn keeps the invariant, changes a locked intent only on a reroute, and logs exactly that |
| IntentSessionRuns.LocksAreEarned | server/brain/intent_session.py:145-159 | a lock is on a transaction, with confidence at least 0.85 given by a turn of this call at index 1 or later; a known intent has its table profile |
| IntentClassification.OpeningsAreExact | server/brain/intent_classifier.py:166-238 | on turn 0, which patterns give which intent, turn type, confidence and profile |
| IntentClassification.IntentsAreExact | server/brain/intent_classifier.py:240-343 | on other turns, each intent exactly if its patterns match and none of higher precedence does |
| IntentClassification.TurnTypesAreExact | server/brain/intent_classifier.py:240-343 | each kind of turn and its confidence, from the patterns |
| IntentClassification.ProfilesAreExact | server/brain/intent_classifier.py:28-49 | each worker profile, from the patterns |
| IntentClassification.ProfilesGroupTheIntents | server/brain/intent_classifier.py:28-49 | which intents share a profile, and which do not |
| IntentClassification.LocksExactlyWhen | server/brain/intent_session_manager.py:41-103 | from the patterns alone, when an open or rerouted session locks, on which intent, under which profile, with what confidence; and what it holds otherwise |
| IntentClassification.OpeningsStayOpen | server/brain/intent_session.py:145-159 | an opening turn leaves its own intent and profile, open |
| IntentClassification.TurnsAreNoted | server/brain/intent_session.py:132-139 | every turn with words in it is noted, locked or not |
| IntentSessionRuns.OneReservationLocks | server/brain/intent_session.py:145-159 | an input that locks on turn 1: a single reservation request |
| IntentSessionRuns.LockIsStable | server/brain/intent_session.py:137-139 | intent, profile and lock survive any stretch of turns without a reroute signal |
| IntentSessionRuns.ConfirmationsKeepTheIntent | server/brain/intent_session_manager.py:62-71 | confirmations, denials and corrections never change intent or profile, even when rerouting |
| IntentSessionRuns.HistoryIsExact | server/brain/intent_session.py:161-171 | the reroute log is exactly the list of turns that unlocked, each from a locked transaction |
| IntentSessionRuns.SlotAnswersKeepTheIntentIff | server/brain/intent_classifier.py:279-288 | a turn that only gives a name or phone keeps the intent exactly if the session is locked and not rerouted, or there was none |
| IntentSessionRuns.NameAfterOpeningForgetsTheReservation | server/brain/intent_classifier.py:279-288 | the losing input: a reservation on the opening turn, then a name |
| ContextDoc.Build | server/brain/context_doc_builder.py:172-342 | entities, state, decision, question and worker lists of the document, and which dictionary is written, for any inputs |
| ContextDoc.CollectOutputs | server/brain/context_doc_builder.py:197-209 | later successful workers override earlier ones, nulls never do; only required workers are reported as failed |
| ContextDoc.SyncSlots | server/brain/context_doc_builder.py:211-223 | copies found entities into exactly the listed slots that are not filled |
| ContextDoc.SelectAction | server/brain/context_doc_builder.py:270-302 | the action selector, branch by branch |
| ContextDoc.GuardCommit | server/brain/context_doc_builder.py:304-334 | turns a commit or goodbye with a missing slot into a question |
| ContextDoc.GenerationGate | server/brain/context_doc_builder.py:389-410 | always allows generation; no commit leaves with a missing slot |
| ContextDocLaws.CommitsExactlyWhenReady | server/brain/context_doc_builder.py:270-342 | a tool is committed exactly on a closing turn with every slot of that tool filled, under a matching intent |
| ContextDocLaws.CommittedToolsHaveTheirSlots | server/brain/context_doc_builder.py:29-43 | no tool is committed unless all its required slots, the phone included, are filled |
| ContextAnswers.ActionsAreExact | server/brain/context_doc_builder.py:270-342 | from intent, turn, known slots and goodbye alone, when a document ends the call, says, commits or clarifies |
| ContextAnswers.GoodbyeIsTheDetectors | server/brain/context_doc_builder.py:381-386 | goodbye is detected exactly if the detector's output succeeded with its flag up |
| ContextAnswers.ClarificationsAskInOrder | server/brain/context_doc_builder.py:293-334 | a clarification asks for the first unknown slot of its asking order |
| ContextAnswers.MissingFollowsTheOrder | server/brain/context_doc_builder.py:236-265 | the missing slots, in order |
| ContextAnswers.GateIsExact | server/brain/context_doc_builder.py:389-410 | what the gate makes of any document, built or not |
| ContextAnswers.LastWorkerWins | server/brain/context_doc_builder.py:345-349 | for every key the last successful worker with a value for it wins |
| ContextAnswers.SyncedSlotsTakeWhatWasFound | server/brain/context_doc_builder.py:211-223 | a slot that is synchronised takes exactly what was found |
| ContextDocLaws.ClarificationsAskOnce | server/brain/context_doc_builder.py:293-334 | every clarification asks for exactly one required slot that is not filled; nothing else asks |
| ContextDocLaws.GateAltersNothing | server/brain/context_doc_builder.py:389-410 | the generation gate never alters a document that build hands it |
| ContextDocLaws.ToolOutlivesCommitIff | server/brain/context_doc_builder.py:91 | the commit tool stays set without a commit exactly when a closing order or reservation lacks only the phone |
| ContextDocLaws.CommitsWithoutToolIff | server/brain/context_doc_builder.py:277-302 | exactly when a document commits without naming a tool |
| ContextDocLaws.SyncFillsGapsOnly | server/brain/context_doc_builder.py:211-223 | filled and unlisted slots keep their value; a listed slot with a proper entity ends up filled |
| RateLimit.RateLimiter.LoadOverrides | server/brain/rate_limit.py:34-46 | the override set becomes what the file lists, and an object that tracked all its calls still does |
| RateLimit.RateLimiter.CheckRateLimit | server/brain/rate_limit.py:49-70 | answer and new globals are those of the step function; the answer is the one that the tracked run of all calls gives |
| RateLimit.RateLimiter.GetWindowCount | server/brain/rate_limit.py:77-82 | the count, with the trimming it causes |
| RateLimitRuns.DequeRefinesLog | server/brain/rate_limit.py:49-82 | under a clock that never goes back the trimmed deque is the full log minus a prefix too old to matter |
| RateLimitRuns.AnswersFollowTheFullLog | server/brain/rate_limit.py:49-82 | a counted phone is rejected exactly when LIMIT accepted calls lie in the closed window ending now |
| RateLimitRuns.NoWindowOverflows | server/brain/rate_limit.py:24-25 | no closed window of the given length, wherever it starts, holds more than LIMIT accepted calls |
| RateLimitRuns.TrackedLimiter | server/brain/rate_limit.py:49-82 | the limiter object keeps both promises for all the calls it has tracked |
| RateLimitRuns.OthersNeverMatter | server/brain/rate_limit.py:49-82 | for every phone, other phones' calls and window counts never change an answer, but for the reading of the file that a first check causes |
| RateLimitRuns.OverrideTakesEffectIff | server/brain/rate_limit.py:34-58 | a check passes uncounted exactly if its phone is empty, in the file read last, or added after that reading, where a first check reads the file if nothing has; the file may change between readings |
| RateLimitRuns.AdditionsHoldUntilALoad | server/brain/rate_limit.py:73-74 | once a file has been read, an addition holds through any calls but a load |
| RateLimitRuns.ReloadDropsAnAddition | server/brain/rate_limit.py:34-46 | a failing input: load, add, reload, and the fourth call is rejected |
| RateLimitRuns.EarlyOverrideIsLost | server/brain/rate_limit.py:49-51 | a failing input on a module that was never loaded: added first, rejected at the fourth call |
| RateLimitRuns.OthersMatterForOverrides | server/brain/rate_limit.py:34-58 | whether an added override holds can depend on another phone's call |
| RateLimitRuns.ClockJumpsBreakTheLimit | server/brain/rate_limit.py:60-64 | why the clock must not go back: after a jump a fourth call in the window passes |
| ClockText.FormatReadsBack | tools/executor.py:679-683 | formatted times parse to themselves, for all integers |
| ClockText.FormatInMinutes | tools/executor.py:363-368 | formatted times in minutes of the day, for all integers |
| ClockText.BucketIsIdempotent | tools/executor.py:673-685 | bucketing is idempotent and rounds down by less than a grid step |
| Reservations.ReservationDesk.CountSeatsInSlot | tools/executor.py:688-715 | the two loops count each visible id once, the tenant's entry first |
| Reservations.ReservationDesk.CheckAvailability | tools/executor.py:746-855 | the answer, with its alternatives, as a function of what the tenant sees, the clock, the settings and the database count |
| Reservations.ReservationDesk.OpeningHoursGate | tools/executor.py:325-360 | refusal, error or passage by the spans of the day |
| Reservations.ReservationDesk.FindAlternatives | tools/executor.py:820-836 | the first two candidates that have room in memory |
| CheckLaws.GatedChecks | tools/executor.py:746-800 | exactly when a dated check is refused, turned down as unreadable, or left to the seats |
| CheckLaws.HoursGateIsExact | tools/executor.py:325-360 | a time passes the opening hours exactly if it lies in one of the spans, or none are known |
| CheckLaws.UndatedChecks | tools/executor.py:753-760 | without date and time the answer is a waiting time by the hour |
| CheckLaws.AvailableExactlyIfBothHaveRoom | tools/executor.py:802-845 | past the gates a party fits exactly if memory and database each have room for it; what is reported to remain is what the fuller one leaves |
| CheckLaws.CoveredCreationsRespectTheDatabase | tools/executor.py:743-878 | no covered creation lifts memory, or the database count its check read, over the capacity |
| CheckLaws.SeatsOfTheSlot | tools/executor.py:699-715 | the seats of a slot are the parties of its confirmed reservations, and nothing else |
| CheckLaws.FittingIsExact | tools/executor.py:820-834 | the alternatives considered are all candidates with room, in order, each with what is left there |
| CheckLaws.FullAnswersOfferTheFirstTwo | tools/executor.py:833-855 | a full answer offers the first two of them |
| CheckLaws.MissingFieldsAreNamed | tools/executor.py:859-862 | exactly the missing fields are named |
| ReservationRuns.OffersHaveRoom | tools/executor.py:820-836 | every alternative offered has room for the party in its own slot |
| Reservations.ReservationDesk.CreateReservation | tools/executor.py:858-878 | the missing fields, or exactly one new confirmed entry |
| SeatLaws.UpdateShiftsTotals | tools/executor.py:688-715 | writing one id changes any total by what it counts now minus what it counted |
| SeatLaws.CreationIsConserved | tools/executor.py:858-878 | a creation raises exactly its own date and text slot, by its party, in every tenant's view |
| SeatLaws.EachIdCountsOnce | tools/executor.py:693-702 | an id present in both stores counts once |
| ReservationRuns.NoOverbooking | tools/executor.py:746-878 | in every run where each creation follows an available check for the same date, half-hour slot and party, no text slot exceeds the largest capacity that its own checks used, in the view of any tenant whose own store those checks saw, whatever the database reports |
| ReservationRuns.PlainCheckCovers | tools/executor.py:746-749 | a check without a name or a party, at another minute of the half-hour, covers a booking for two |
| ReservationRuns.DifferentStoresOverbook | tools/executor.py:695-697 | a failing input: a check by one tenant does not protect another with a store of its own |
| ReservationRuns.OtherGridsOverbook | tools/executor.py:708 | on any other grid a disciplined run can put any number of guests into one counted slot |
| ReservationRuns.SafeExactlyOnTheHalfHourGrid | tools/executor.py:795-813 | with slots read as texts, the protocol is safe exactly on the half-hour grid |
| Calendar.DatesReadBack | tools/executor.py:763 | every padded date is read as its day |
| Calendar.DaysRead | tools/executor.py:763 | which texts are read as which day of a month |
| Calendar.MonthsRead | tools/executor.py:763 | which texts are read as which month |
| Calendar.DaysThatExist | tools/executor.py:763 | which dates exist |
| Calendar.DaysBeforeYear | tools/executor.py:763-768 | the days before each year, in closed form |
| Calendar.DaysBeforeMonth | tools/executor.py:763-768 | the days before each month |
| Calendar.DayNumbersAreInjective | tools/executor.py:763 | different days have different numbers |
| Calendar.CanonicalTextsAgree | tools/executor.py:673-685 | padded dates and proper times of day that name the same half-hour are in the same text slot |
| CalendarRuns.SafeExactlyForUnambiguousTexts | tools/executor.py:704-710 | on the half-hour grid no half-hour of the calendar is overbooked exactly if no two admitted texts name it in different slots |
| CalendarRuns.CanonicalTextsAreSafeIff | tools/executor.py:795-813 | with padded dates and proper times of day, the calendar is safe exactly on the half-hour grid |
| CalendarRuns.OverrunningMinutesOverbook | tools/executor.py:363-368 | a failing input: "19:90" beside "20:30" |
| CalendarRuns.UnpaddedDatesOverbook | tools/executor.py:706 | a failing input: "2026-1-15" beside "2026-01-15" |
| CalendarRuns.OverrunningHoursOverbook | tools/executor.py:679-683 | a failing input: "24:10" beside "00:10" of the next day |
| SilenceReprompt.SilenceTimer.ProcessFrame | server/main.py:365-380 | each frame's effect on tasks, timer and flag |
| SilenceReprompt.SilenceTimer.ResumeTask | server/main.py:382-399 | what a resumed task pushes and where it then stands |
| SilenceRuns.TasksRefineHistory | server/main.py:360-399 | the set of tasks refines a reading of the frame history that knows no tasks, for every schedule |
| SilenceRuns.AtMostOneLiveTimer | server/main.py:360-374 | at most one timer is alive, and it is the one that can be cancelled |
| SilenceRuns.RepromptMeansSilence | server/main.py:382-391 | a reprompt comes 12 s or more after the last bot stop, with no activity since |
| SilenceRuns.HangupMeansLongSilence | server/main.py:382-399 | a hangup comes 8 s or more after the own reprompt, 20 s or more after the last bot stop, with no activity since |
| SilenceRuns.OncePerBotStop | server/main.py:382-399 | each bot stop causes at most one reprompt and one hangup |
| SilenceRuns.ResumptionSpeaksIff | server/main.py:382-399 | exactly when a resumption speaks, in terms of the history alone |
| SilenceRuns.EndedTasksStay | server/main.py:360-380 | tasks that are over stay as they ended; resetting frames cancel a live timer |
| SilenceRuns.FlagMeansUnansweredReprompt | server/main.py:355-390 | the processor's flag is up exactly while a reprompt stands unanswered |
| PhraseRotation.PhrasePool.Get | server/brain/audio_assets.py:151-166 | returns a phrase exactly if enabled and something is cached, and always one that the full, never-popped log allows |
| PhraseRotation.TrimmedHistorySuffices | server/brain/audio_assets.py:156-164 | the history of window + 2 entries offers the same choices as the unbounded one |
| PhraseRotation.HistoryIsTheSuffix | server/brain/audio_assets.py:161-164 | over every run the popped history is the end of the log |
| PhraseRotationRuns.NoRepeatWithinTheWindow | server/brain/audio_assets.py:151-185 | once more than a window of phrases is cached, any window + 1 in a row are distinct, whatever the random choices |
| PhraseRotationRuns.TrackedPool | server/brain/audio_assets.py:151-185 | so for the pool object, over everything that ever happened to it |
| PhraseRotationRuns.DistinctExactlyWhenThePoolIsLarger | server/brain/audio_assets.py:151-185 | for a fixed pool of any size, window + 1 phrases in a row are distinct exactly if the pool is larger than the window |
| PhraseRotationRuns.RepeatsOnlyWhenExhausted | server/brain/audio_assets.py:156-158 | exactly the cached phrases not played lately may come next, or all cached ones if all were |
| PhraseRotationRuns.SmallPoolsMayStutter | server/brain/audio_assets.py:156-160 | any smaller pool can play the same phrase twice in a row |
| Monitoring.DedupeRowsByCallSid | server/monitoring.py:490-499 | the dictionary loop computes the de-duplicated list in insertion order |
| Monitoring.AggregateFromRows | server/monitoring.py:502-581 | totals, success rate, percentiles, average duration and all six histograms, before rounding |
| MonitoringLaws.PercentilesAreRanks | server/monitoring.py:539-541 | a percentile is the pooled sample of its rank, by counting, unless that is zero; the median never exceeds the upper one |
| MonitoringFigures.SuccessIsTheShareOfFulfilled | server/monitoring.py:521-523 | the number of fulfilled calls and their share, a hundred for all and nothing for none |
| MonitoringFigures.AverageIsOfPositiveDurations | server/monitoring.py:533-564 | the average is that of the positive durations, if there are any |
| MonitoringFigures.BarsCountRows | server/monitoring.py:550-560 | each bar of the five histograms is the number of rows with that label |
| MonitoringFigures.LabelsAreTheFields | server/monitoring.py:551-559 | what each row counts under, and what stands for a missing text |
| MonitoringFigures.ToolBarsCountCalls | server/monitoring.py:561-562 | each tool bar is the number of its calls |
| MonitoringFigures.OrderOfAppearanceIsKept | server/monitoring.py:490-499 | kept rows stand in the order in which their calls first appeared |
| MonitoringLaws.ToolBarsAddUp | server/monitoring.py:561-562 | the tool histogram sums to the number of tool calls |
| Monitoring.SnapshotOf | server/monitoring.py:597-611 | the snapshot over both sources |
| MonitoringLaws.OneChampionPerCall | server/monitoring.py:490-499 | exactly one row per call id is kept: the earliest of its newest |
| MonitoringLaws.ReappendingChangesNothing | server/monitoring.py:490-499 | a row seen before changes nothing |
| MonitoringLaws.OverlapChangesNothing | server/monitoring.py:603-606 | a stored list whose rows are all in memory adds nothing |
| MonitoringLaws.DedupeIsIdempotent | server/monitoring.py:490-499 | de-duplicating twice is de-duplicating once |
| MonitoringLaws.TotalCountsCalls | server/monitoring.py:597-611 | the total is the number of distinct calls, whichever source comes first |
| MonitoringLaws.SnapshotHistogramsSumToTotal | server/monitoring.py:550-560 | every histogram by call sums to the number of distinct calls |
| CallAuditor.HasEnglish | server/call_auditor_live.py:138-151 | true exactly if a strong word opens or three known words stand in a row |
| CallAuditor.CollectLatencies | server/call_auditor_live.py:192-208 | exactly the plausible delays, in order |
| OrderStatistics.OrderStatisticsAreMonotone | server/call_auditor_live.py:300-302 | raising samples, in any order, raises every order statistic |
| CallAuditorLaws.LatencyScoreIsAntitone | server/call_auditor_live.py:298-321 | raising any latencies never raises the score |
| CallAuditorLaws.LatencyScoreRange | server/call_auditor_live.py:192-321 | with any sample the score lies in (62, 100]; without one it is 0 |
| ScoreLaws.MedianBreakpoints | server/call_auditor_live.py:304-309 | the median score is full, half and nothing at 15, 30 and 55 s, and straight between |
| ScoreLaws.TailBreakpoints | server/call_auditor_live.py:311-317 | the tail score is full, 40 and nothing at 22.5, 45 and 90 s, and straight between |
| ScoreLaws.ScoresFallStrictly | server/call_auditor_live.py:304-317 | both fall strictly above their budget |
| ScoreLaws.LatencyWeighsTwoRanks | server/call_auditor_live.py:300-321 | the score weighs, three to two, the samples of the middle rank and of that nine tenths up, found by counting |
| ScoreLaws.LatenciesAreTheGaps | server/call_auditor_live.py:192-208 | the collected latencies are all plausible gaps before assistant lines, in milliseconds, in order |
| ScoreLaws.FaultlessCallsAreFull | server/call_auditor_live.py:240-440 | without faults six dimensions are full |
| ScoreLaws.LanguageFaultsCost | server/call_auditor_live.py:251-259 | what one more language fault costs |
| ScoreLaws.InstructionFaultsCost | server/call_auditor_live.py:276-292 | what one more instruction fault costs, and the loop |
| ScoreLaws.OtherFaultsCost | server/call_auditor_live.py:327-387 | what one more dead end, deflection or forbidden phrase costs |
| ScoreLaws.DetectedFaultsCost | server/call_auditor_live.py:339-405 | what missing questions, an unanswered goodbye and many prices cost |
| ScoreLaws.PoorWordsCost | server/call_auditor_live.py:371-383 | what few words and repeated openings cost |
| ScoreLaws.IncompleteCallsCost | server/call_auditor_live.py:411-440 | what a missing greeting, disclosure or end costs |
| ScoreLaws.ShortCallsCost | server/call_auditor_live.py:436-437 | what a call of one or two turns loses |
| ScoreLaws.TaskScores | server/call_auditor_live.py:222-233 | the task score, case by case |
| ScoreLaws.CompositeIsWeighted | server/call_auditor_live.py:98-119 | what a point in each dimension is worth |
| CallAuditorLaws.CompositeInRange | server/call_auditor_live.py:445-454 | the composite lies in [0, 100] for every weight table |
| CallAuditorLaws.CompositeIsAntitone | server/call_auditor_live.py:213-454 | a call with more faults, fewer merits or longer delays never scores higher |
| LiveTraceLaws.TruncationRespectsLimitIff | server/live_call_trace.py:40-43 | every text stays within the limit exactly for limits of at least 3 |
| LiveTraceLaws.TruncationIsIdempotentIff | server/live_call_trace.py:40-43 | truncating twice is truncating once exactly for limits of at least 3, and 0 |
| LiveTraceLaws.FixedExactlyIfClean | server/live_call_trace.py:46-59 | sanitising leaves a value alone exactly if it is within every limit |
| LiveTraceLaws.SanitizingIsIdempotentIff | server/live_call_trace.py:46-59 | idempotent on every tree at every depth, exactly for those limits |
| LiveTraceLaws.StoredDetailIsBounded | server/live_call_trace.py:46-59 | any input tree ends up with at most five levels, (50^6 - 1) / 49 nodes, and values within the limit |
| LiveTraceContent.TruncationKeepsTheStart | server/live_call_trace.py:40-43 | what is left of a text, for every limit |
| LiveTraceContent.DictionariesKeepTheLastOfEachKey | server/live_call_trace.py:55-56 | of the first forty items each key, as text, keeps the value of its last item |
| LiveTraceContent.ListsKeepTheirElements | server/live_call_trace.py:57-58 | the first fifty elements stay in their places |
| LiveTraceContent.LeavesAreKept | server/live_call_trace.py:47-59 | what becomes of everything else |
| Worklet.PCM16Processor.Process | frontend/worklet.js:14-40 | what is posted and what is kept is a function of the captured samples alone, however they were cut into blocks |
| Worklet.ChunksConserveTheStream | frontend/worklet.js:25-37 | no sample is lost, doubled or reordered; chunks of 320, ids from zero, leftover under 320 |
| Worklet.QuantisationError | frontend/worklet.js:20-23 | a stored sample is within one step of the scaled input, toward zero, same sign |
| Worklet.CapturedSamplesArrive | frontend/worklet.js:14-40 | sample for sample, what arrives in the messages is the scaled and truncated capture |
| StereoRecorder.BuildStereo | server/audio_recorder.py:60-91 | both channels of the buffer are the recordings followed by silence; fails exactly on half samples |
| StereoRecorder.Interleave | server/audio_recorder.py:88-91 | the in-place packing loop, read back through the 16-bit encoding |
| StereoRecorder.RecordingsComeBack | server/audio_recorder.py:77-91 | both recordings come back byte for byte, followed by zeros |
| StereoRecorder.SameFramesSameRecordings | server/audio_recorder.py:77-91 | equal buffers mean equal recordings up to trailing silence |
| Pcm16.DecodeAfterEncode | server/audio_recorder.py:77-91 | little-endian packing then unpacking gives back every sample |
| Pcm16.LittleEndian | server/audio_recorder.py:77-91 | the low byte comes first, in two's complement |
| StereoRecorder.ChunksAreJoined | server/audio_recorder.py:65-66 | chunks are put together in their order, whole |
| DigitSpelling.SpellOut | server/sailly_gemini_tts.py:159-175 | the grouping loop computes the spelling |
| DigitSpellingLaws.Cadence | server/sailly_gemini_tts.py:162-174 | groups flatten to the words in order, hold one to four words, a leading three above six digits |
| DigitSpellingLaws.SpellingReadsBack | server/sailly_gemini_tts.py:40-43 | splitting at commas and blanks and mapping words back recovers the digits |
| DigitSpellingLaws.SpellingIsInjective | server/sailly_gemini_tts.py:159-177 | different numbers sound different |
| DigitSpellingLaws.PausesSeparateGroups | server/sailly_gemini_tts.py:162-175 | how many pauses a number gets, one between any two groups |
| DigitSpellingLaws.PostcodeHasAPause | server/sailly_gemini_tts.py:151 | the documented postcode, with the pause it really gets |

## Left out

- Text matching: regexes, keyword lists and slot extractors are arbitrary answers. Extracted streets and words
  are assumed non-empty, and the number patterns to match what they can match.
- Input and output: databases, telephony, speech, language models, logging. The stored seat count of a check
  is an arbitrary non-negative number; the hour-wide bucket written to the database is not modelled.
- CheckAvailability: the candidates for alternatives are given as texts, without the calendar arithmetic that
  finds them; the spans of the opening hours are given as minutes. Texts of answers, and the shortcut for
  `headless-` calls, are left out.
- Reservations with party sizes that are not integers; no code in the repository fills a tenant's own store,
  which is arbitrary here and fixed during a run.
- Times and dates: `int()` on underscores, signs with inner blanks or non-ASCII digits.
- Persistence: `to_dict` and `from_dict` of slots and sessions.
- Captured intents: the contents of tool results, labels and read-back texts; the order of slots inside an
  intent, which nothing here depends on; the validating variant of the merge.
- Sessions: the queue of secondary intents, and the language-model classifier.
- Context documents: the German summary, the slot snapshot kept for debugging, and the branch for failed
  required workers, which can never be entered because its inner list is empty.
- Silence timer: scheduling is arbitrary, but the work of one resumption is one step; cancellation in the
  middle of a push is not modelled.
- Call audits: floating-point rounding, the pass/fail flags and the report; text features enter as counts and
  truth values.
- AggregateFromRows: figures are exact instead of rounded, latencies that are not numbers are dropped beforehand,
  and the order of the histograms' entries is not kept; the time windows that select the rows are left out.
- Live traces: the key texts of dictionaries, which the code does not shorten.
- Audio: resampling, the WAV header, NaN samples; samples are exact reals.
- Digit spelling: the substitution over a whole text, and digits other than 0 to 9.
- Phrase pools: synthesis and the gain filter; both pools share one class with their own window.
- Not modelled at all, for want of a deep property: `VariationRotator`, `OrderSlots`, dashboards, reports,
  prompts, SMS texts.
- Inner loops of `_count_seats_in_slot`, `_check_availability`, `merge_new_intents_into_state`,
  `_aggregate_from_rows` and `build` are methods of their own.
