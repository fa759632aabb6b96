# Virbe Unity plugin core: a Dafny model

This project models the runtime core of the Virbe Unity plugin and proves
properties about it. The plugin drives a conversational avatar, called a
"being". The model covers three parts.

- **Configuration normalisation** (`config.dfy`, module `Config`). A
  version-3 being configuration arrives as deserialised JSON. Its
  conversation, STT and TTS engine lists are normalised into the bindings
  the rest of the plugin reads: conversation data, fallback STT data,
  fallback TTS data and a location id. A protocol string is mapped to its
  enum value, and an unknown string raises.
- **The communication dispatcher** (`handlers.dfy`, module `Handlers`).
  `CommunicationSystem` is built from the bindings. Its list holds one socket
  handler per socket-io conversation binding. A fallback STT handler is
  added only when no conversation handler sends audio, and a fallback TTS
  handler only when none synthesises speech. A session prepares each handler
  in list order and stops at the first failure. Text, signals and audio go
  to every initialized handler with the matching capability, in list order.
  Speech synthesis goes to the first such handler only.
- **The being's state machine** (`being.dfy`, module `Gameplay`). The being
  is in one of eight behaviours. A fixed table lists the states each target
  may be entered from. Every state change cancels the timer and re-arms it
  for the new state, whose timeout leads to a fixed successor. The
  `VirbeBeing` class holds the public entry points that drive the machine
  (user approached or engaged, started or stopped speaking, left) and the
  conversation and session operations.

`wrappers.dfy` (module `Wrappers`) holds `Option` and `Result`. They stand
for C# nulls and exceptions.

How the environment is modelled:

- Handlers are records. Each has its class's fixed capability set, its
  binding and its own `initialized` flag.
- What a transport does on a given call is a parameter. `failing` is the
  set of list positions whose `Prepare` or `MakeAction` throws this time.
- Every call the dispatcher makes on a handler is appended to a ghost log
  (`calls`).
- The being's timer is the `pending` field: the successor the running
  timeout will enter. `FireTimeout` is the moment the timeout elapses.
- The being's calls into the dispatcher and its notifications to
  subscribers are appended to a ghost event log (`events`).

## Model

| member | source | states |
|---|---|---|
| Config.GetProtocol | Runtime/Core/ApiBeingConfigv3.cs:65-81 | succeeds exactly when the string is the wire name of some protocol (`local`, `http`, `ws`, `socket-io`, `ws-endless`), and then the result has that name; otherwise it fails, naming the rejected string |
| Config.ProtocolRoundTrip | Runtime/Core/ApiBeingConfigv3.cs:65-78 | parsing a protocol's wire name gives that protocol back |
| Config.ConversationHandlers | Runtime/Core/ApiBeingConfigv3.cs:40 | a missing engines object or missing conversation engine reads as an empty handler list |
| Config.ConvertAllMeaning | Runtime/Core/ApiBeingConfigv3.cs:40-44 | entry i of the data is handler i's mapped protocol and path; the pass has no error exactly when every protocol is known, and then covers every handler; otherwise it stops at the first unknown protocol and reports exactly that string |
| Config.PrefixErrorStops | Runtime/Core/ApiBeingConfigv3.cs:40-44 | once a handler has raised, the handlers after it are never converted |
| Config.InitializeAppendsPerCall | Runtime/Core/ApiBeingConfigv3.cs:30-44 | a completed normalisation appends one entry per conversation handler to the existing list, so with a non-empty list a second call changes the data: the operation is not idempotent |
| Config.FallbackFromFirstHandlerOnly | Runtime/Core/ApiBeingConfigv3.cs:46-62 | STT/TTS data come from the first handler only: the handlers after it make no difference; a known protocol gives that handler's protocol and path, and an unknown one raises naming the string and keeps the previous data |
| Config.NoFirstHandlerKeepsData | Runtime/Core/ApiBeingConfigv3.cs:46-62 | an absent STT/TTS engine or an empty handler list keeps the previous data without raising; an engine without a handler list raises |
| Config.ApiBeingConfig.constructor | Runtime/Core/ApiBeingConfigv3.cs:14-30 | a deserialised configuration starts with an empty conversation list and no STT/TTS data |
| Config.ApiBeingConfig.LocationId | Runtime/Core/ApiBeingConfigv3.cs:32 | the location id is the profile's id, and absent when there is no profile |
| Config.ApiBeingConfig.Bindings | Runtime/Core/ApiBeingConfigv3.cs:21-32 | the engine type is always Conversation; the other bindings are the normalised fields and the location id |
| Config.ApiBeingConfig.Initialize | Runtime/Core/ApiBeingConfigv3.cs:38-63 | the new normalised fields and the exception raised are those of a conversation-then-STT-then-TTS pass; what was appended before an exception stays |
| Config.ApiBeingConfig.AppendConversationData | Runtime/Core/ApiBeingConfigv3.cs:40-44 | the loop appends exactly the converted prefix and returns the error that stopped it |
| Handlers.SocketHandlersMeaning | Runtime/Core/Handlers/CommunicationHandlerFactory.cs:71-90 | every socket-io conversation binding yields a handler; every handler comes from one, carries the conversation class's capabilities and starts unprepared; other protocols yield none |
| Handlers.SocketHandlersAppend | Runtime/Core/Handlers/CommunicationHandlerFactory.cs:71-90 | handlers follow binding order: the handlers of a concatenation are the concatenation of the handlers |
| Handlers.AdvertisedMeaning | Runtime/Core/Handlers/CommunicationHandlerFactory.cs:89 | a capability is collected exactly when some conversation handler declares it |
| Handlers.AssemblyOrder | Runtime/Core/Handlers/CommunicationHandlerFactory.cs:71-142 | the built list begins with the conversation handlers, then holds at most one STT and one TTS fallback, in that order |
| Handlers.FallbackSttIff | Runtime/Core/Handlers/CommunicationHandlerFactory.cs:109-129 | the STT fallback is in the list exactly when no conversation handler sends audio, single-shot or streamed |
| Handlers.FallbackSttHandler | Runtime/Core/Handlers/CommunicationHandlerFactory.cs:111-123 | an STT handler in the list is a fresh socket-io handler on the fallback STT binding's path |
| Handlers.FallbackTtsIff | Runtime/Core/Handlers/CommunicationHandlerFactory.cs:130-142 | the TTS fallback is in the list exactly when no conversation handler synthesises speech |
| Handlers.FallbackTtsHandler | Runtime/Core/Handlers/CommunicationHandlerFactory.cs:132-136 | a TTS handler in the list is a fresh http handler on the fallback TTS binding's path, built with the configuration's location id |
| Handlers.ConstructionErrors | Runtime/Core/Handlers/CommunicationHandlerFactory.cs:109-142 | for a conversation engine, construction raises exactly when a needed fallback is absent or not on its one implemented protocol (socket-io for STT, http for TTS) |
| Handlers.AssembleHandlers | Runtime/Core/Handlers/CommunicationHandlerFactory.cs:69-142 | the construction loops build exactly the specified list, or raise the specified exception (including the rejected legacy room binding) |
| Handlers.CommunicationSystem.Create | Runtime/Core/Handlers/CommunicationHandlerFactory.cs:40-143 | construction succeeds exactly when assembly does; it gives a fresh, uninitialized dispatcher with no session and the assembled list, and otherwise the assembly's exception |
| Handlers.FirstFailureIsFirst | Runtime/Core/Handlers/CommunicationHandlerFactory.cs:149-160 | every Prepare before the first failing position succeeds, and that position fails |
| Handlers.FailFast | Runtime/Core/Handlers/CommunicationHandlerFactory.cs:145-162 | Prepare is called on positions 0..k in order (k = first failure) and never after it; handlers before k are prepared and those after it untouched; preparation completes exactly when nothing fails |
| Handlers.CommunicationSystem.InitializeWith | Runtime/Core/Handlers/CommunicationHandlerFactory.cs:145-162 | installs the session, prepares the handlers up to the first failure, logs those Prepare calls, and sets Initialized only when all succeeded (never clears it) |
| Handlers.BroadcastTargets | Runtime/Core/Handlers/CommunicationHandlerFactory.cs:164-196 | every broadcast call goes to an initialized handler with the capability, later in the list than the start, with the request's capability and payload |
| Handlers.BroadcastOrdered | Runtime/Core/Handlers/CommunicationHandlerFactory.cs:164-196 | broadcast targets strictly increase, so handlers are called in list order and each at most once |
| Handlers.BroadcastOnlyLastThrows | Runtime/Core/Handlers/CommunicationHandlerFactory.cs:164-196 | a call that throws ends the broadcast: every call before the last returned normally |
| Handlers.BroadcastReaches | Runtime/Core/Handlers/CommunicationHandlerFactory.cs:164-196 | every serving handler is called unless an earlier serving handler threw |
| Handlers.BroadcastMeaning | Runtime/Core/Handlers/CommunicationHandlerFactory.cs:164-196 | a broadcast calls only initialized handlers with the capability, with the request's payload, each at most once and in list order; only the last call may throw; every serving handler is reached unless an earlier one threw |
| Handlers.BroadcastReachesExactlyServing | Runtime/Core/Handlers/CommunicationHandlerFactory.cs:164-196 | when nothing throws, a broadcast reaches exactly the serving handlers |
| Handlers.CommunicationSystem.Broadcast | Runtime/Core/Handlers/CommunicationHandlerFactory.cs:164-196 | the loop logs exactly the specified broadcast calls; `ok` is true exactly when none of them threw |
| Handlers.CommunicationSystem.SendText | Runtime/Core/Handlers/CommunicationHandlerFactory.cs:164-173 | text is broadcast to the SendText handlers |
| Handlers.CommunicationSystem.SendSignal | Runtime/Core/Handlers/CommunicationHandlerFactory.cs:175-184 | a named signal is broadcast to the SendSignal handlers |
| Handlers.CommunicationSystem.SendAudio | Runtime/Core/Handlers/CommunicationHandlerFactory.cs:186-196 | streamed audio is broadcast to the SendAudioStream handlers and single-shot audio to the SendAudio handlers |
| Handlers.FirstServingIsFirst | Runtime/Core/Handlers/CommunicationHandlerFactory.cs:200-207 | the position found serves the capability and no earlier one does; when none is found no position serves |
| Handlers.TtsReachesFirstOnly | Runtime/Core/Handlers/CommunicationHandlerFactory.cs:198-208 | speech synthesis makes at most one call, and exactly one when some handler serves it: on the first serving handler in list order |
| Handlers.CommunicationSystem.ProcessTTS | Runtime/Core/Handlers/CommunicationHandlerFactory.cs:198-208 | the loop logs exactly that one call, and reports whether it threw |
| Handlers.CommunicationSystem.ClearProcessingQueue | Runtime/Core/Handlers/CommunicationHandlerFactory.cs:210-216 | every handler, whatever its capabilities, is asked once to clear its queue, in list order |
| Handlers.CommunicationSystem.Dispose | Runtime/Core/Handlers/CommunicationHandlerFactory.cs:218-229 | every handler is disposed once, in order; then the list is empty and Initialized is false |
| Handlers.DisposedRoutesNowhere | Runtime/Core/Handlers/CommunicationHandlerFactory.cs:218-229 | composing the dispatcher's own operations, dispose, then send text, then request speech, then dispose again: only the first disposal adds calls, and the send reports no failure |
| Gameplay.IdleOnlyFromFocused | Runtime/Core/Gameplay/VirbeBeing.cs:454-456 | Idle can be requested only from Focused |
| Gameplay.RequestChain | Runtime/Core/Gameplay/VirbeBeing.cs:477-485 | RequestReceived and RequestError can be entered only from RequestProcessing, and PlayingBeingAction only from RequestReceived |
| Gameplay.SelfTransitionOnlyInConversation | Runtime/Core/Gameplay/VirbeBeing.cs:449-491 | InConversation is the only state the table lets re-enter itself |
| Gameplay.AutoSuccessorAllowed | Runtime/Core/Gameplay/VirbeBeing.cs:520-543 | each timed successor (Listening to InConversation, InConversation to Focused, RequestError to InConversation, Focused to Idle) is itself allowed by the table |
| Gameplay.StepKeepsArmed | Runtime/Core/Gameplay/VirbeBeing.cs:493-544 | for an active being, every input leaves the pending timer equal to the one the current behaviour arms |
| Gameplay.RunKeepsArmed | Runtime/Core/Gameplay/VirbeBeing.cs:493-553 | over any run of inputs an active being never keeps a timer armed by a state it has left |
| Gameplay.UserDrivenTransitionsFollowTable | Runtime/Core/Gameplay/VirbeBeing.cs:449-553 | for an active being driven by user inputs and timeouts, every state change in the run is one the table allows |
| Gameplay.TimeoutsDecayToIdle | Runtime/Core/Gameplay/VirbeBeing.cs:520-553 | from any state that arms a timer, at most three timeouts bring an active being to Idle with nothing pending |
| Gameplay.RejectedRequestIsNoOp | Runtime/Core/Gameplay/VirbeBeing.cs:234-275 | a request the table refuses changes neither the behaviour nor the timer |
| Gameplay.StaleTimerBypassesTable | Runtime/Core/Gameplay/VirbeBeing.cs:507-553 | a being that is not active keeps its old timer; that timer later enters its target with no table check (Focused, engage, timeout ends in InConversation to Idle, a transition the table forbids) |
| Gameplay.ActionStartBypassesTable | Runtime/Core/Gameplay/VirbeBeing.cs:555-567 | starting an action forces PlayingBeingAction from any state, including states such as Idle that the table refuses |
| Gameplay.VirbeBeing.constructor | Runtime/Core/Gameplay/VirbeBeing.cs:95-163 | after start-up the being is Idle, active, not initialized, unmuted, with no timer and no conversation id, and under the given user id |
| Gameplay.VirbeBeing.SetActive | Runtime/Core/Gameplay/VirbeBeing.cs:509-513 | the enabled/active guard of the timer is set |
| Gameplay.VirbeBeing.ChangeBeingState | Runtime/Core/Gameplay/VirbeBeing.cs:493-505 | the behaviour becomes the target and the timer is re-armed even when the state is unchanged; the change event fires only when the state differs |
| Gameplay.VirbeBeing.ScheduleChangeBeingStateAfterTimeoutIfNeeded | Runtime/Core/Gameplay/VirbeBeing.cs:507-544 | when active, the old timer is cancelled and the current state's successor armed; when not active, the old timer stays |
| Gameplay.VirbeBeing.FireTimeout | Runtime/Core/Gameplay/VirbeBeing.cs:546-553 | an elapsed timer enters its target state without consulting the table |
| Gameplay.VirbeBeing.RequestState | Runtime/Core/Gameplay/VirbeBeing.cs:234-240 | a change is applied exactly when the table allows it |
| Gameplay.VirbeBeing.ConfigLoaded | Runtime/Core/Gameplay/VirbeBeing.cs:357-416 | nothing downloaded leaves the being as it was; a refused configuration leaves it uninitialized; for an accepted one the dispatcher is constructed from its bindings, and when construction raises (room binding, missing or unimplemented fallback) the flag keeps its old value and nothing starts; otherwise the being is initialized and with auto-start starts a session for its user |
| Gameplay.VirbeBeing.SetSettings | Runtime/Core/Gameplay/VirbeBeing.cs:171-178 | the auto-start flag, read after the configuration loads and when the conversation is confirmed, is replaced |
| Gameplay.VirbeBeing.StopCurrentAndScheduledActions | Runtime/Core/Gameplay/VirbeBeing.cs:346-355 | playback is always stopped; the dispatcher's queues are cleared only once initialized |
| Gameplay.VirbeBeing.StartNewConversation | Runtime/Core/Gameplay/VirbeBeing.cs:196-207 | before initialization nothing happens; afterwards actions stop, queues clear, a session is requested with the current conversation id, and the conversation-started notification fires |
| Gameplay.VirbeBeing.StartNewConversationWithUserSession | Runtime/Core/Gameplay/VirbeBeing.cs:427-447 | once initialized, the user and conversation ids are replaced and a session for them is requested, without stopping actions; before initialization nothing changes |
| Gameplay.VirbeBeing.StopConversation | Runtime/Core/Gameplay/VirbeBeing.cs:209-213 | actions stop (and queues clear once initialized), and then the conversation-ended notification fires |
| Gameplay.VirbeBeing.OnConversationInitialized | Runtime/Core/Gameplay/VirbeBeing.cs:418-425 | the server's conversation id is recorded; with auto-start the `conversation-start` signal is sent |
| Gameplay.VirbeBeing.UserHasApproached | Runtime/Core/Gameplay/VirbeBeing.cs:215-232 | nothing happens before initialization; otherwise a request for Focused; a forced approach from Idle also clears the conversation id and starts a new conversation for a fresh user id before focusing |
| Gameplay.VirbeBeing.UserHasEngagedInConversation | Runtime/Core/Gameplay/VirbeBeing.cs:234-240 | a request for InConversation |
| Gameplay.VirbeBeing.UserHasStartedSpeaking | Runtime/Core/Gameplay/VirbeBeing.cs:242-249 | a request for Listening; the started-speaking notification fires whether or not it was accepted |
| Gameplay.VirbeBeing.UserHasStoppedSpeaking | Runtime/Core/Gameplay/VirbeBeing.cs:251-258 | a request for InConversation; the stopped-speaking notification fires in every case |
| Gameplay.VirbeBeing.UserHasDisengagedFromConversation | Runtime/Core/Gameplay/VirbeBeing.cs:260-266 | a request for Focused |
| Gameplay.VirbeBeing.UserHasLeft | Runtime/Core/Gameplay/VirbeBeing.cs:268-275 | a request for Idle; the user-left notification fires in every case |
| Gameplay.VirbeBeing.SetBeingMute | Runtime/Core/Gameplay/VirbeBeing.cs:277-286 | the mute flag is set and announced |
| Gameplay.VirbeBeing.SendText | Runtime/Core/Gameplay/VirbeBeing.cs:336-344 | text reaches the dispatcher only once initialized |
| Gameplay.VirbeBeing.SendSpeechBytes | Runtime/Core/Gameplay/VirbeBeing.cs:298-329 | audio reaches the dispatcher only once initialized and when there is a recording, with the streamed flag passed through |
| Gameplay.VirbeBeing.CallUserAction | Runtime/Core/Gameplay/VirbeBeing.cs:575-580 | the user action is recorded as the last one and announced |
| Gameplay.VirbeBeing.CallBeingActionStarted | Runtime/Core/Gameplay/VirbeBeing.cs:555-562 | PlayingBeingAction is forced, and the action is recorded and announced |
| Gameplay.VirbeBeing.CallBeingActionEnded | Runtime/Core/Gameplay/VirbeBeing.cs:564-567 | InConversation is forced, whatever the current state |

## Notes on the code's behaviour

1. The timer's callback calls `ChangeBeingState` directly
   (Runtime/Core/Gameplay/VirbeBeing.cs:546-553). A timer left over from an
   earlier state therefore enters its target with no table check.
   `Gameplay.StaleTimerBypassesTable` shows this giving InConversation to
   Idle, a change the table forbids.
2. The dispatcher's `Initialized` flag is set after a complete preparation,
   but the send operations never read it. Routing looks only at each
   handler's own flag.
3. A failed preparation does not reset the dispatcher's `Initialized`
   flag. It stays true from an earlier complete preparation.
4. The TTS fallback decision looks only at the conversation handlers'
   capabilities, not at the STT fallback's.

## Left out

- Timeout durations (floating-point seconds) and the coroutine scheduler are not modelled. A timer is shown only as the pending successor, and elapsing is an explicit input.
- Unity's stopping of coroutines when the game object is deactivated is not modelled. `SetActive` toggles only the guard that the timer re-arming checks.
- Persistent user and conversation ids (PlayerPrefs reads and writes in Awake, OnDisable and restore) are left out, as storage I/O.
- The user id Awake generates is a constructor parameter, and the fresh id a forced approach generates is a method parameter.
- Config download, URL validation, building the request header and the JSON parsing are left out as network and library code; `VirbeUtils.ParseConfig` is not part of this model. Their outcome is the `ConfigLoaded` parameter: nothing downloaded, refused, or accepted with the normalised bindings.
- WAV encoding of recorded samples, the microphone and the debug dump of recordings to disk are left out as I/O. A recording is only present or absent.
- The concrete handler classes (socket, STT socket, TTS REST) are outside this model. Their capability sets are a parameter, and whether a call throws is the `failing` parameter.
- The dispatcher's event fan-out is not modelled (user, being, UI, custom, behaviour, engine, signal and named actions, speech recognised, connection events). Subscribing and unsubscribing the speaking callbacks is not modelled either.
- `Gameplay.VirbeBeing` holds no `CommunicationSystem` object. Its calls into the dispatcher are recorded as events. `ConfigLoaded` assembles the dispatcher's handler list only to decide whether construction raises. The dispatcher's own behaviour is proved in `Handlers`.
- The dispatcher constructor's early return on a missing being is not modelled. The being always passes itself.
- Selection of the handler connection type is not modelled. The code fixes it to on-demand.
- `Localize`, `AvatarData`, the language overrides and `SubmitInput` are empty stubs or only store values nothing in the core reads, so they are left out.
- `Gameplay.VirbeBeing.SetSettings`: only the auto-start flag is modelled. The persistent-user-id flag belongs to the persistence left out above, and the three timeouts are the durations left out above.
- `Handlers.CommunicationSystem.InitializeWith`: assumes that a handler's own `Initialized` flag becomes true exactly when its `Prepare` returns normally, that a `Prepare` that throws leaves the flag as it was, and that nothing else sets or clears it (a disconnect, the handler's own disposal). The handler classes that own this flag are not part of this model, and every routing property rests on these assumptions.
- Null entries inside a handler list and null protocol or path strings are not modelled. Strings are always present.
- `Gameplay.VirbeBeing.OnConversationInitialized`: takes the parsed id, so the exception `Guid.Parse` raises on a malformed id is not modelled.
- `Gameplay.VirbeBeing.constructor`: assumes the default behaviour before `Start` is Idle, so the `ChangeBeingState(Idle)` in `Start` fires no event.
- Asynchronous interleaving is not modelled. Every awaited call completes before the next statement, and a fire-and-forget call runs to completion in place.
