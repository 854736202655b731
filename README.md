# Speech handler: a verified model

The repository's `SpeechHandler` is a voice-command dispatcher. A background
worker loop listens on the microphone, turns speech into lowercase text and
publishes that text as the status. It then routes the text by fixed
substring rules into one of three capacity-one inboxes: command, report and
time query. The application polls these inboxes without blocking. Two nearly
identical copies of the class exist:

- `gesture_video_project/speech_handler.py` can drain all three inboxes.
- `gesture_video_project_new/speech_handler.py` has no live report drain.

This project models both copies in Dafny and proves the routing rules, the
inbox semantics, the failure messages and the pause/stop guards.

Files and modules:

- `phrases.dfy`, module `Phrases`: the three phrase lists as constants,
  substring containment (`Contains`), and the scan over a phrase list
  (`ContainsAny`).
- `mailbox.dfy`, module `Mailbox`: `Option` and `Offer`. An inbox is a slot
  that holds at most one text. Every put is guarded by an emptiness test, so
  a put into a full slot does nothing.
- `dispatch.dfy`, module `Dispatch`: the worker's input `Outcome` (text, or
  one of four failures) and the handler's fields as a value `HandlerState`.
  `Step` is one pass of the worker loop. `StepAll` is several passes. The
  lemmas about them live here too.
- `handler_new.dfy`, module `GestureVideoProjectNew`, and
  `handler_original.dfy`, module `GestureVideoProject`: one class
  `SpeechHandler` per copy. Its fields are `status`, `command`, `report`,
  `timeQuery`, `isListening` and `running`. Each method's `ensures` ties the
  new field values to `Step` or to `Apply`, a function giving the effect of
  each public call. `Run` applies a sequence of calls. The lemmas over `Run`
  cover what holds across any interleaving of calls and iterations.

Behaviours of the source that the model keeps:

- The time route is guarded by "time slot empty". A time-phrase utterance
  that finds the time slot full falls through to command and then report
  matching.
- The command phrase "tell me about this" contains the time phrase
  "tell me about". While the time slot is empty, that utterance is a time
  query.
- Command matching and report matching are joined by `elif`. A text with a
  command phrase never reaches the report inbox, even when the command inbox
  is full.
- In the newer copy, nothing empties the report inbox once it is filled.

Two points where the code's behaviour differs from what a reader might
expect, and which the model follows:

- The comment "Prioritize time queries" at
  `gesture_video_project_new/speech_handler.py:57` suggests that time
  phrases always win. The `continue` sits inside the test that the time
  queue is empty (line 55), so time phrases win only while the time slot is
  empty.
- Every `put_nowait` is preceded by an `empty()` test on the same queue
  (lines 55, 60 and 63). So the `queue.Full` exception that a put into a
  full queue would raise never occurs, and a put into a full slot is simply
  skipped.

A date-capture mode appears only in the commented-out drafts
(`gesture_video_project_new/speech_handler.py:112-252`) and is not modelled.

## Model

| member | source | states |
|---|---|---|
| `Phrases.Contains` | gesture_video_project_new/speech_handler.py:54 | Definition, no contract: substring containment (Python's `in` on strings). Characterised by `Phrases.ContainsTransitive`, `Phrases.MissingCharNotContained` and `Phrases.PrefixContained`. |
| `Mailbox.Offer` | gesture_video_project_new/speech_handler.py:55-64 | Definition, no contract: the guarded put into a capacity-one queue (lines 55-56, 60-61, 63-64). Characterised by `Dispatch.StepOnlyFillsEmptySlots` and `Dispatch.FullTimeSlotFallsThrough`. |
| `Dispatch.Classify` | gesture_video_project_new/speech_handler.py:54-64 | Definition, no contract: the routing decision. Characterised, in both directions, by `Dispatch.ClassifyTimeQuery`, `Dispatch.ClassifyCommand` and `Dispatch.ClassifyReport`. |
| `Dispatch.Deliver` | gesture_video_project_new/speech_handler.py:50-64 | Definition, no contract: status write, then the put on the routed slot. Characterised by `Dispatch.HeardSetsStatus`, `Dispatch.TimeQueryTakesPriority`, `Dispatch.FullTimeSlotFallsThrough` and `Dispatch.UnmatchedOnlySetsStatus`. |
| `Dispatch.Step` | gesture_video_project_new/speech_handler.py:38-77 | Definition, no contract: one pass of the worker loop. Characterised by `Dispatch.InactiveStepIsNoOp`, `Dispatch.StepKeepsFlags`, `Dispatch.StepOnlyFillsEmptySlots`, `Dispatch.FailureOnlySetsStatus` and the routing lemmas; the classes' `Iterate` is proved equal to it. |
| `Dispatch.StepAll` | gesture_video_project_new/speech_handler.py:38-78 | Definition, no contract: successive passes of the loop. Characterised by `Dispatch.StepAllAppend`, `Dispatch.InactiveStepAllIsNoOp` and `Dispatch.StepAllKeepsHeldValues`; the classes' `SpeechWorker` is proved equal to it. |
| `GestureVideoProjectNew.Apply` | gesture_video_project_new/speech_handler.py:82-108 | Definition, no contract: the effect of each public call of the newer copy. The class methods are proved equal to it; characterised by `GestureVideoProjectNew.PauseResumeIdempotent` and `GestureVideoProjectNew.EmptyChecksChangeNothing`. |
| `GestureVideoProjectNew.Run` | gesture_video_project_new/speech_handler.py:82-108 | Definition, no contract: a sequence of calls and iterations. Characterised by `GestureVideoProjectNew.ReportNeverDrained` and `GestureVideoProjectNew.StopIsFinal`. |
| `GestureVideoProject.Apply` | gesture_video_project/speech_handler.py:157-184 | Definition, no contract: the effect of each public call of the older copy, the report drain included. The class methods are proved equal to it; characterised by `GestureVideoProject.EmptyChecksChangeNothing` and `GestureVideoProject.ReportRoundTrip`. |
| `GestureVideoProject.Run` | gesture_video_project/speech_handler.py:157-184 | Definition, no contract: a sequence of calls and iterations. Characterised by `GestureVideoProject.ReportHeldUntilChecked` and `GestureVideoProject.StopIsFinal`. |
| `Phrases.ContainsAny` | gesture_video_project_new/speech_handler.py:54-62 | The any-phrase test holds exactly when some phrase of the list is a substring of the text. |
| `Phrases.ContainsTransitive` | gesture_video_project_new/speech_handler.py:54-59 | Substring containment is transitive, so a text holding a longer phrase holds each phrase inside it. |
| `Phrases.MissingCharNotContained` | gesture_video_project_new/speech_handler.py:54-62 | A phrase with a character that the text lacks is not matched. |
| `Phrases.PrefixContained` | gesture_video_project_new/speech_handler.py:54-62 | A text that starts with a phrase matches it. |
| `Phrases.TellMeAboutThisIsAlsoTime` | gesture_video_project_new/speech_handler.py:28-32 | Every text containing "tell me about this" matches both the command list and the time list. |
| `Dispatch.ClassifyTimeQuery` | gesture_video_project_new/speech_handler.py:54-57 | A text goes to the time route if and only if it has a time phrase and the time slot is empty. |
| `Dispatch.ClassifyCommand` | gesture_video_project_new/speech_handler.py:54-61 | A text goes to the command route if and only if it has a command phrase and the time route was not taken. |
| `Dispatch.ClassifyReport` | gesture_video_project/speech_handler.py:129-139 | A text goes to the report route if and only if it has a report phrase, no command phrase, and the time route was not taken. |
| `Dispatch.InactiveStepIsNoOp` | gesture_video_project_new/speech_handler.py:38-39 | A stopped or paused handler is unchanged by an iteration. |
| `Dispatch.StepKeepsFlags` | gesture_video_project_new/speech_handler.py:38-77 | An iteration never changes the listening or running flags. |
| `Dispatch.HeardSetsStatus` | gesture_video_project_new/speech_handler.py:48-51 | On recognized text, the status becomes exactly that text. |
| `Dispatch.TimeQueryTakesPriority` | gesture_video_project_new/speech_handler.py:54-57 | A time phrase with an empty time slot puts the text in the time slot. Command and report slots and flags stay unchanged. |
| `Dispatch.FullTimeSlotFallsThrough` | gesture_video_project_new/speech_handler.py:54-64 | With a full time slot, that slot keeps its value. The text goes to the command slot if it has a command phrase, else to the report slot if it has a report phrase, else nowhere. Each put happens only into an empty slot. |
| `Dispatch.TellMeAboutThisIsTimeQuery` | gesture_video_project_new/speech_handler.py:28-32 | A text containing "tell me about this" has a command phrase, yet with an empty time slot it goes to the time slot and the command slot is untouched. |
| `Dispatch.CommandNeverReported` | gesture_video_project_new/speech_handler.py:59-64 | A text with a command phrase leaves the report slot unchanged, whatever the command slot holds. |
| `Dispatch.StepOnlyFillsEmptySlots` | gesture_video_project_new/speech_handler.py:54-64 | Through the guarded puts and the `elif` into the capacity-one queues of lines 13-15: each slot keeps its value or, if it was empty, receives the recognized text. A full slot is never overwritten or emptied. At most one slot changes per iteration. |
| `Dispatch.UnmatchedOnlySetsStatus` | gesture_video_project_new/speech_handler.py:50-64 | A text with no phrase of any list changes only the status. |
| `Dispatch.FailureOnlySetsStatus` | gesture_video_project_new/speech_handler.py:66-77 | A wait timeout changes nothing. Unknown-value, request-error and other failures set the status to their fixed messages and touch nothing else. |
| `Dispatch.ReportRequestHasNoTimePhrase` | gesture_video_project_new/speech_handler.py:31-32 | "what's the report please" contains no time phrase. |
| `Dispatch.ReportRequestHasNoCommandPhrase` | gesture_video_project_new/speech_handler.py:28-29 | "what's the report please" contains no command phrase. |
| `Dispatch.ReportRequestFromInitial` | gesture_video_project/speech_handler.py:87-139 | From the initial state, "what's the report please" becomes the status and the report slot's value. The other slots stay empty. |
| `Dispatch.StepAllAppend` | gesture_video_project_new/speech_handler.py:38-78 | Running the loop over two outcome sequences in turn is the same as running it over their concatenation. |
| `Dispatch.InactiveStepAllIsNoOp` | gesture_video_project_new/speech_handler.py:38-39 | Any number of iterations of a stopped or paused handler change nothing. |
| `Dispatch.StepAllKeepsHeldValues` | gesture_video_project/speech_handler.py:129-139 | A value held in any slot survives any number of iterations. |
| `GestureVideoProjectNew.SpeechHandler.constructor` | gesture_video_project_new/speech_handler.py:12-18 | Initial state: the ready message as status, three empty slots, running and listening. |
| `GestureVideoProjectNew.SpeechHandler.Iterate` | gesture_video_project_new/speech_handler.py:39-77 | One loop iteration updates the fields exactly as `Step` does. |
| `GestureVideoProjectNew.SpeechHandler.SpeechWorker` | gesture_video_project_new/speech_handler.py:38-78 | The loop runs while `running`, over the given outcomes, and ends in the state `StepAll` gives. |
| `GestureVideoProjectNew.SpeechHandler.GetSpeechText` | gesture_video_project_new/speech_handler.py:82-84 | Returns the current status. |
| `GestureVideoProjectNew.SpeechHandler.CheckForCommand` | gesture_video_project_new/speech_handler.py:86-89 | Returns the held command, or `None`, and leaves the command slot empty. Only the command slot changes, and an empty slot leaves all state unchanged. |
| `GestureVideoProjectNew.SpeechHandler.CheckTimeQuery` | gesture_video_project_new/speech_handler.py:96-99 | The same take-or-`None` semantics for the time slot. |
| `GestureVideoProjectNew.SpeechHandler.PauseListening` | gesture_video_project_new/speech_handler.py:101-102 | Clears `isListening`. Nothing else changes. |
| `GestureVideoProjectNew.SpeechHandler.ResumeListening` | gesture_video_project_new/speech_handler.py:104-105 | Sets `isListening`. Nothing else changes. |
| `GestureVideoProjectNew.SpeechHandler.Stop` | gesture_video_project_new/speech_handler.py:107-108 | Clears `running`. Nothing else changes. |
| `GestureVideoProjectNew.PauseResumeIdempotent` | gesture_video_project_new/speech_handler.py:101-105 | Pausing twice equals pausing once, and resuming twice equals resuming once. Pause leaves listening off and resume leaves it on. |
| `GestureVideoProjectNew.EmptyChecksChangeNothing` | gesture_video_project_new/speech_handler.py:86-99 | Draining an empty slot changes no state. |
| `GestureVideoProjectNew.ReportNeverDrained` | gesture_video_project_new/speech_handler.py:62-64 | No sequence of this copy's calls and iterations changes a held report value, so every later report request is dropped. |
| `GestureVideoProjectNew.StopIsFinal` | gesture_video_project_new/speech_handler.py:38-39 | Once `running` is false, no sequence of calls makes it true again, and every later iteration changes nothing. |
| `GestureVideoProject.SpeechHandler.constructor` | gesture_video_project/speech_handler.py:87-93 | Initial state: the ready message as status, three empty slots, running and listening. |
| `GestureVideoProject.SpeechHandler.Iterate` | gesture_video_project/speech_handler.py:114-152 | One loop iteration updates the fields exactly as `Step` does. |
| `GestureVideoProject.SpeechHandler.SpeechWorker` | gesture_video_project/speech_handler.py:113-153 | The loop runs while `running`, over the given outcomes, and ends in the state `StepAll` gives. |
| `GestureVideoProject.SpeechHandler.GetSpeechText` | gesture_video_project/speech_handler.py:157-159 | Returns the current status. |
| `GestureVideoProject.SpeechHandler.CheckForCommand` | gesture_video_project/speech_handler.py:161-164 | Returns the held command, or `None`, and leaves the command slot empty. An empty slot leaves all state unchanged. |
| `GestureVideoProject.SpeechHandler.CheckForReportCommand` | gesture_video_project/speech_handler.py:166-169 | Returns the held report request, or `None`, and leaves the report slot empty. An empty slot leaves all state unchanged. |
| `GestureVideoProject.SpeechHandler.CheckTimeQuery` | gesture_video_project/speech_handler.py:171-174 | The same take-or-`None` semantics for the time slot. |
| `GestureVideoProject.SpeechHandler.PauseListening` | gesture_video_project/speech_handler.py:176-177 | Clears `isListening`. Nothing else changes. |
| `GestureVideoProject.SpeechHandler.ResumeListening` | gesture_video_project/speech_handler.py:179-180 | Sets `isListening`. Nothing else changes. |
| `GestureVideoProject.SpeechHandler.Stop` | gesture_video_project/speech_handler.py:182-183 | Clears `running`. Nothing else changes. |
| `GestureVideoProject.EmptyChecksChangeNothing` | gesture_video_project/speech_handler.py:161-174 | Each of the three drains on an empty slot changes no state. |
| `GestureVideoProject.ReportRoundTrip` | gesture_video_project/speech_handler.py:137-139 | A report request reaching an empty report slot is held there. The next report drain empties the slot again, leaving only the new status. |
| `GestureVideoProject.ReportHeldUntilChecked` | gesture_video_project/speech_handler.py:166-169 | A held report value survives every sequence of calls that does not include the report drain. |
| `GestureVideoProject.StopIsFinal` | gesture_video_project/speech_handler.py:182-184 | Once `running` is false, it stays false and every later iteration changes nothing. |

## Left out

- Speech recognition library calls: the recognizer, the microphone, ambient-noise calibration, `listen` and the call to the recognition service. They are foreign code and audio I/O. Their result is the `Outcome` input of `Step`, and that text is taken as already lowercased.
- Recognizer threshold settings: they are floating-point configuration of the external library and carry no logic.
- The thread, the lock, the daemon flag and the join in `stop`: these are concurrency. The worker is modelled as repeated single iterations. Calls from other threads are modelled as steps of `Run` between whole iterations. An interleaving inside an iteration, such as a drain between the status write and the put, is not modelled. This does not change any slot: a drain only empties a slot, and the worker's put stays guarded by its emptiness test.
- Construction order: the constructor starts the thread before it assigns the phrase lists. The model treats the lists as constants fixed before any iteration.
- The 0.1-second sleep, and the fact that some iterations skip it: timing only.
- The exception message logged for an unexpected failure: logging is a side effect only, so `OtherFailure` carries no message.
- `SpeechWorker`: the real loop runs until stopped. The model runs it over a finite sequence of outcomes. While paused, each iteration passes over one outcome unused; in the source, a paused iteration makes no recognizer call.
- Commented-out code in both files, including the date parser and the date-capture mode: it is never executed.
