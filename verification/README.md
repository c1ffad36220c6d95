# Voice-controlled robot controller, modelled in Dafny

This project models the control core of a voice-driven robot (`src/main.py`).
The robot sleeps until it hears the wake phrase "hey blue". It then opens a
session and handles spoken commands until it hears "bye" or "sleep", or until a
minute has passed since the last recognised command. It routes each command as
follows:

- Keywords decide first: exit, explore/scan, look, or move/go/turn. A move
  without a direction word gets one "Which direction?" follow-up.
- Any other command goes to a local language model. The model is asked to
  classify the command or answer it as JSON. Its reply is sliced from the first
  `{` to the last `}`, decoded and acted on.
- If the reply cannot be used, the model is asked the command itself, and
  whatever it answers is spoken.

A safety monitor runs beside the voice loop. It keeps an obstacle flag in step
with a distance sensor and stops the motors when an obstacle first appears.
`do_move` refuses forward travel while the flag is set.

Everything the controller does is recorded as a trace of effects:

- speech;
- motor commands;
- camera captures;
- vision-model calls and language-model calls, each recorded with the text it
  produced.

The collaborators are total functions in an `Env`:

- the hardware and sensor presence;
- the language model and the vision model, which both see the trace so far;
- the JSON decoder.

There are three layers:

- **Specification functions** (`Motion`, `Perception`, `Classifier`,
  `Commands`, `Session`) give the effects of each action as a function of the
  environment, the obstacle flag and the trace before it.
- **Lemmas** state what those effects guarantee:
  - the interlock;
  - the routing priority;
  - which model queries happen and how many;
  - the order of captures and descriptions;
  - the session deadline.
- **The class `Control.Robot`** holds the obstacle flag and the trace as fields.
  It has one method per action of the program and a main loop over a finite
  stream of inputs. Each method is proved to append exactly the effects its
  specification function gives.

The modules are:

- `Text`: Python's string operations on `seq<char>`;
- `Collaborators`: effects, collaborators and their error-to-text policies;
- `Motion`: `do_move` and one safety-monitor cycle;
- `Perception`: `do_see` and `do_explore`;
- `Classifier`: the keyword router and the interpretation of the model's JSON;
- `Commands`: one command's effects;
- `Session`: the wake/session/sleep state machine;
- `Control`: the imperative controller.

## Model

| member | source | states |
|---|---|---|
| Text.Lower | src/main.py:196 | `.lower()` maps every character one for one and keeps the length |
| Text.Upper | src/main.py:277 | `.upper()` maps every character one for one and keeps the length |
| Text.Find | src/main.py:272 | `find('{')` is -1 exactly when there is no `{`; otherwise it is the first index holding `{` |
| Text.RFind | src/main.py:273 | `rfind('}')` is -1 exactly when there is no `}`; otherwise it is the last index holding `}` |
| Text.SliceBound | src/main.py:274 | a slice bound inside the string is kept; a negative bound counts from the end; a bound past the end becomes the length; a bound before the start becomes 0, as Python does |
| Text.NatToString | src/main.py:161 | `str(i)` is a non-empty string of decimal digits |
| Text.ContainsInfix | src/main.py:256 | a string glued between two others is contained in the result (the prompt quotes the command) |
| Collaborators.ObservationsOfVisionCalls | src/main.py:162-163 | the observations list holds one description per vision call, in call order |
| Motion.MoveObservables | src/main.py:137-148 | a move makes one announcement ("Path blocked." or "Moving d"); with hardware and no block it makes one actuator command followed by one stop; it makes no camera or model call |
| Motion.InterlockBlocksOnlyForward | src/main.py:138-146 | while the flag is set no move drives forward, and a blocked forward move only says "Path blocked."; other directions still drive |
| Motion.SafetyStep | src/main.py:320-324 | the flag becomes exactly "sensor present and distance < 0.35"; stop() is issued exactly when the flag rises and hardware is present |
| Motion.CloseObstacleSuppressesForward | src/main.py:320-323 | a close reading sets the flag, stops once per obstacle episode, and a following forward move is refused |
| Classifier.FirstMatch | src/main.py:231-234 | an if/elif chain over directions gives the first direction the text names, and none when it names none |
| Classifier.RoutePriority | src/main.py:218-251 | routing is a priority order: exit, then explore/scan, then look, then move/go/turn; only a command with none of these keywords reaches the model (each case both ways) |
| Classifier.SpokenDirectionSpec | src/main.py:231-236 | a spoken direction is found iff a direction word occurs; left beats right, right beats back, back beats forward |
| Classifier.GoodbyeEndsSession | src/main.py:218-229 | "goodbye" ends the session although it contains "go" |
| Classifier.TurnKeywords | src/main.py:229 | "turn" matches the move keywords and none of the earlier ones |
| Classifier.TurnNamesNoDirection | src/main.py:231-234 | "turn" names no direction |
| Classifier.TurnAsksDirection | src/main.py:229-237 | "turn" alone leads to the request for a direction |
| Classifier.Spaces | src/main.py:255-266 | the prompt's indentation is n spaces |
| Classifier.ClassifyPromptQuotesCommand | src/main.py:255-266 | the classify-or-answer prompt contains the command and starts with its fixed heading |
| Classifier.JsonCandidate | src/main.py:272-274 | the decoder is given the text from the first `{` to the last `}` when they are in order; empty when they are out of order or `}` is missing; "}" or empty when there is no `{` |
| Classifier.JsonCandidateRecovers | src/main.py:272-274 | an object embedded in chatter is recovered exactly when no `{` comes before it and no `}` after it (a stray `}` before it does no harm) |
| Classifier.ReactToObject | src/main.py:277-299 | a missing intent means CHAT, and the intent is compared case-insensitively; for a CHAT intent the response is spoken, a missing response means "I am not sure what you mean.", and a non-string response goes to the blind answer; a non-string intent goes to the blind answer; EXPLORE and SEE act; an intent outside the four is ignored (both ways) |
| Classifier.ReactNeedsObject | src/main.py:277 | a decoded value that is not an object goes to the blind answer |
| Classifier.ReactToMove | src/main.py:287-293 | a MOVE reply moves in the first direction its argument names, in the order left, right, forward, back; it asks "Move where?" when the argument names none; an unsearchable argument goes to the blind answer |
| Classifier.BackOrForwardArgument | src/main.py:289-292 | the argument "back or forward" matches the third test of the chain, forward |
| Classifier.ArgumentPrefersForward | src/main.py:289-292 | a MOVE argument naming both "back" and "forward" moves forward |
| Classifier.SpeechPrefersBack | src/main.py:231-234 | a spoken command naming both "back" and "forward" moves back |
| Classifier.MoveReplyRoundTrip | src/main.py:287-289 | the MOVE example in the prompt, with argument "left", moves left |
| Classifier.ChatReplyRoundTrip | src/main.py:282-285 | a CHAT reply's response is what gets spoken |
| Classifier.ChatWithoutResponse | src/main.py:277-285 | an explicit lower-case "chat" intent without a response speaks "I am not sure what you mean." |
| Classifier.ChatScalarResponse | src/main.py:282-305 | a CHAT reply whose response is a number cannot be spoken, so the command gets the blind answer |
| Classifier.ListArgument | src/main.py:288-290 | a MOVE argument given as a list is searched by element |
| Classifier.UpNamesNoDirection | src/main.py:289-293 | the argument "up" matches none of the four tests |
| Classifier.UnknownArgument | src/main.py:293 | a MOVE argument naming no direction asks "Move where?" |
| Classifier.ScalarArgument | src/main.py:288-305 | a numeric MOVE argument makes `in` raise, so the command gets the blind answer |
| Perception.SeeAlwaysReports | src/main.py:150-154 | looking captures current_view.jpg, describes that image and speaks "I see …" even when the vision request fails (the apology is what gets spoken); it drives nothing and asks the language model nothing |
| Perception.ScanFileIsStr | src/main.py:161 | frame i's file is "scan_" + str(i) + ".jpg" |
| Perception.ExploreKeep | src/main.py:156-171 | an explore's effects of each kind are the frames', the final turn's, the three announcements and the one summary query |
| Perception.ExploreKeepSilent | src/main.py:156-171 | an explore's camera, vision and motor effects are those of the frames and of the final turn |
| Perception.CapturesDescribedAppend | src/main.py:161-162 | "every capture is immediately described" survives concatenation |
| Perception.TurnAfterKeep | src/main.py:164-165 | the turn after frame i is one announced right turn with its stop, for frames 0-2 and only with hardware |
| Perception.ScanRoundKeep | src/main.py:161-165 | a frame is: capture scan_i.jpg, describe that file with the scan prompt, then the turn |
| Perception.TurnAfterInert | src/main.py:164-165 | a turn between frames neither captures nor describes |
| Perception.ScanRoundSeeing | src/main.py:162 | a frame makes one vision call, on its own file |
| Perception.ScanRoundTurnKeep | src/main.py:164-165 | a frame's speech, motor and model effects are those of its turn |
| Perception.ScanRoundObservation | src/main.py:162-163 | a frame adds exactly its own description to the observations |
| Perception.ScanRoundDescribed | src/main.py:161-162 | within a frame, every capture is immediately described |
| Perception.ScanRoundsCaptures | src/main.py:159-162 | the frames capture scan_0 … scan_{n-1} in order, each immediately described |
| Perception.ScanRoundsDescribed | src/main.py:159-162 | across the frames, every capture is immediately described |
| Perception.ScanRoundsCamera | src/main.py:159-161 | the frames' captures are the scan files in frame order |
| Perception.ScanRoundCamera | src/main.py:161 | a frame takes one picture, of its own file |
| Perception.ScanRoundsVision | src/main.py:159-162 | the frames make n vision calls; call i describes scan_i.jpg with the scan prompt |
| Perception.ScanRoundsTurns | src/main.py:159-166 | the frames make no model query; with hardware they turn right, announced and stopped, after every frame but the last |
| Perception.ScanFileNames | src/main.py:161 | the four files are scan_0.jpg, scan_1.jpg, scan_2.jpg and scan_3.jpg |
| Perception.ExploreDescribed | src/main.py:159-162 | in an explore every capture is immediately followed by a description of that image |
| Perception.ExploreCaptures | src/main.py:159-162 | an explore captures exactly scan_0.jpg … scan_3.jpg, in order, each described at once |
| Perception.ExploreObservations | src/main.py:158-163 | an explore's observations are four, one per frame; observation i is the description of scan_i.jpg under the scan prompt |
| Perception.ExploreSummarizesOnce | src/main.py:168-171 | an explore makes exactly one model query, under the summarizer instruction, over its observations in order; its last act is to speak "Report: …" |
| Perception.ExploreTurns | src/main.py:164-167 | with hardware an explore drives four right turns, each stopped; without hardware it drives nothing |
| Perception.TurnsNeverForward | src/main.py:164-167 | a run of right turns contains no forward command |
| Perception.PerceptionNeverForward | src/main.py:150-171 | looking and exploring never drive forward |
| Commands.ReactionThinking | src/main.py:282-305 | acting on a reply asks the model nothing more, except for the blind answer (one query: the command under "Answer briefly.") and an explore (its summary) |
| Commands.ClassifierCallQuotes | src/main.py:255-268 | the classify query uses the JSON-parser instruction and quotes the command |
| Commands.ModelPathThinking | src/main.py:268-305 | the model path starts with the classify query and makes one or two model queries in all |
| Commands.UndecodableReplyAnswersBlindly | src/main.py:301-305 | a reply the decoder rejects is followed by exactly one query, the command itself under "Answer briefly.", whose answer is spoken, whatever it is |
| Commands.BracelessReplyAnswersBlindly | src/main.py:272-276 | a reply with no `{` (and no `}` at its end) is answered blindly, in exactly two queries |
| Commands.ChatAnswersInOneQuery | src/main.py:282-285 | a CHAT reply is answered in one query: its response is spoken and nothing else happens |
| Commands.FastPathSkipsModel | src/main.py:225-246 | the keyword path never calls the classifier: a move or a look asks the model nothing, an explore only its summary |
| Commands.FollowUpSettles | src/main.py:237-246 | the follow-up drives only in a direction it heard; a failed listen says "Timed out."; no direction word says "I did not hear a direction."; it uses neither the camera nor a model |
| Commands.FollowUpIgnoresExit | src/main.py:240-245 | "Bye" in answer to "Which direction?" is not an exit |
| Commands.BlockedCommandNeverForward | src/main.py:225-305 | while the flag is set no command, on any path (fast or model), drives forward |
| Commands.ReactionNeverForward | src/main.py:282-305 | while the flag is set no reaction to a reply drives forward |
| Commands.BlockedFollowUpNeverForward | src/main.py:239-246 | while the flag is set the follow-up never drives forward |
| Session.WakeWordOpensSession | src/main.py:196-204 | outside a session only the wake phrase does anything; it is answered with "Yes?" and opens the session at the clock reading |
| Session.WakeWordAnyCase | src/main.py:196-200 | "Hey Blue" wakes the robot (the transcript is lower-cased) |
| Session.WakeWordAnywhere | src/main.py:200 | the wake phrase anywhere in the utterance wakes the robot |
| Session.CommandRestartsDeadline | src/main.py:213-216 | a recognised command restarts the minute: the step does not depend on the previous interaction time |
| Session.SilenceKeepsDeadline | src/main.py:206-209 | silence or a recognition failure changes nothing; the session ends with "Sleeping." once 60 s have passed since the last command |
| Session.SessionWithinDeadline | src/main.py:206 | a step that leaves the loop listening does so less than ACTIVE_TIMEOUT after the last command |
| Session.SessionEndsSleeping | src/main.py:206-311 | every way out of a session (exit word or deadline) ends with "Sleeping." |
| Session.ExitWordEndsSession | src/main.py:218-220 | "bye" or "sleep" ends the session at once with "Going to sleep." and then "Sleeping." |
| Session.DirectionAskedOnce | src/main.py:236-246 | a move without a direction asks once; the next input is its answer, and the loop does not ask again |
| Session.WakeWordInSessionIsAQuestion | src/main.py:225-268 | "hey blue" inside a session goes to the model like any question |
| Session.HeyBlueIsAQuestion | src/main.py:218-251 | "hey blue" matches none of the keywords |
| Session.HeyBlueNotExitOrExplore | src/main.py:218-225 | "hey blue" contains neither an exit nor an explore keyword |
| Session.HeyBlueNotSeeOrMove | src/main.py:227-229 | "hey blue" contains neither a look nor a move keyword |
| Session.StepKeepsInterlock | src/main.py:138-140 | after each monitor cycle the flag matches the sensor; while it is set, nothing in that step drives forward |
| Session.SessionStepNeverForward | src/main.py:206-311 | while the flag is set no session step, in any mode, drives forward |
| Session.RunExtends | src/main.py:187-311 | a run only appends to the trace |
| Session.RunSplits | src/main.py:187-311 | handling a stream in two parts is the same as handling it whole |
| Control.Robot.constructor | src/main.py:36-41 | the controller starts with the obstacle flag clear and an empty trace |
| Control.Robot.Speak | src/main.py:94-100 | speak appends one speech effect |
| Control.Robot.CaptureImage | src/main.py:102-104 | capture_image returns the file name it was given and records one capture |
| Control.Robot.LlmQuery | src/main.py:106-117 | llm_query returns the completion, or "I am having trouble thinking." when inference fails, and records the query |
| Control.Robot.VisionDescription | src/main.py:119-132 | get_vision_description returns the description, or "I cannot see right now." when the request fails, and records the call |
| Control.Robot.DoMove | src/main.py:137-148 | do_move appends exactly the effects of the interlocked move |
| Control.Robot.DoSee | src/main.py:150-154 | do_see appends exactly the effects of a look |
| Control.Robot.DoExplore | src/main.py:156-171 | do_explore's loop keeps the trace and the observations list equal to the first i frames; the whole call appends exactly the explore's effects |
| Control.Robot.SafetyMonitorStep | src/main.py:319-324 | one monitor cycle sets the flag as SafetyStep says and issues stop() exactly when that says |
| Control.Robot.ModelPath | src/main.py:254-305 | the model path appends exactly the query and the reaction to its reply |
| Control.Robot.Act | src/main.py:282-305 | acting on a reply appends exactly that reaction's effects |
| Control.Robot.HandleCommand | src/main.py:218-305 | a command is routed as Route says and appends exactly the command's effects |
| Control.Robot.MainLoop | src/main.py:182-311 | the main loop over a stream of inputs ends with the trace and flag that Run gives after "System Ready." |
| Control.Robot.SessionListen | src/main.py:206-246 | one pass of the session loop continues the run as Run says: on an exit, on running out of inputs, and otherwise |
| Control.Robot.ListenForDirection | src/main.py:238-246 | the listen that answers "Which direction?" continues the run as Run says |
| Control.Robot.FollowUp | src/main.py:240-246 | the follow-up appends exactly the follow-up's effects |
| Control.NextFrame | src/main.py:159-166 | after frame i the trace holds the first i+1 frames, and the observations grew by this frame's description |
| Control.ExploreAssembled | src/main.py:167-171 | the trace after the final turn, the summary and the report is the whole explore |

## Left out

- The face GUI, the `print` logging and `time.sleep` pauses are not modelled. They have no effect on control flow.
- `speak`'s espeak subprocess and its quote stripping are not modelled. Speech is recorded as the text passed to `speak`.
- The `rpicam-still` subprocess in `capture_image` is not modelled. The capture is recorded with its file name.
- The HTTP request, base64 encoding and llama.cpp inference are not modelled. They become the `vision` and `llm` functions of `Env`. Their failures become the `VisionError` and `InferenceError` outcomes.
- `json.loads` is an abstract decoder (`Env.decode`). Decoded values are told apart only as far as the controller can: string, list, object, or any other scalar.
- `str.lower`/`str.upper` are modelled on ASCII letters only. Unicode case mapping is not.
- The hardware and LLM start-up (lines 330-339) is not modelled. Hardware and sensor presence are parameters of `Env`.
- Threads are not modelled. The safety monitor runs one cycle before every listen, and the obstacle flag stays constant while a command runs. Other interleavings of the two threads are not modelled.
- The sensor distance is a `real`. Floating-point rounding is not modelled.
- Time is an input. Each input carries the clock reading stored as `last_interaction` and the reading at the next deadline check.
- The listen timeouts and phrase limits are not modelled. Each shows up as an input whose `heard` is `ListenTimeout`.
- The main loop runs on a finite stream of inputs and stops where the stream ends. That includes ending while a direction is awaited. The source's `while True` does not end.
- Exceptions raised inside an action (for example by a motor driver) are not modelled. Exceptions that change behaviour inside the model path are modelled: a non-object reply, a non-string intent or response, and an argument `in` cannot search. All of these lead to the blind answer.
- Perception.ScanFile: written for single-digit frame numbers only. Perception.ScanFileIsStr ties it to `str(i)` for the four frames the loop uses.
- A few behaviours of the code are easy to expect otherwise. The model follows the code:
  - an unmatched MOVE argument says "Move where?" and does not ask for a direction;
  - an intent other than the four does nothing;
  - missing fields take their defaults: intent "CHAT", response "I am not sure what you mean.", arg "";
  - the blind answer speaks whatever the model returned, even an empty string.
