/** The being's behavioural state machine: the fixed table of allowed
    transitions, the single pending auto-transition re-armed on every state
    change, and the being object whose public entry points drive them. The
    timer is abstract: `pending` is the successor state the running timeout
    will enter, and `FireTimeout` is the moment it elapses. */
module Gameplay {
  import opened Wrappers
  import opened Config
  import opened Handlers

  datatype Behaviour =
    | Idle
    | Focused
    | InConversation
    | Listening
    | RequestProcessing
    | RequestReceived
    | RequestError
    | PlayingBeingAction

  /** The states a target state may be entered from. */
  function AllowedFrom(target: Behaviour): set<Behaviour>
  {
    match target
    case Idle => {Focused}
    case Focused => {Idle, InConversation}
    case InConversation => {Focused, Idle, InConversation, Listening, PlayingBeingAction, RequestError}
    case Listening => {Focused, Idle, InConversation}
    case RequestProcessing => {Focused, Idle, InConversation, Listening, RequestError}
    case RequestReceived => {RequestProcessing}
    case RequestError => {RequestProcessing}
    case PlayingBeingAction => {RequestReceived}
  }

  predicate CanChangeBeingState(current: Behaviour, target: Behaviour)
  {
    current in AllowedFrom(target)
  }

  /** Idle is entered only from Focused. */
  lemma IdleOnlyFromFocused(current: Behaviour)
    ensures CanChangeBeingState(current, Idle) <==> current == Focused
  {
  }

  /** The request states form a chain: a response or an error only after
      processing, and playing an action only after a response. */
  lemma RequestChain(current: Behaviour)
    ensures CanChangeBeingState(current, RequestReceived) <==> current == RequestProcessing
    ensures CanChangeBeingState(current, RequestError) <==> current == RequestProcessing
    ensures CanChangeBeingState(current, PlayingBeingAction) <==> current == RequestReceived
  {
  }

  /** InConversation is the only state the table lets re-enter itself. */
  lemma SelfTransitionOnlyInConversation(b: Behaviour)
    ensures CanChangeBeingState(b, b) <==> b == InConversation
  {
  }

  /** The successor a state's timeout leads to, when it has one. */
  function AutoSuccessor(b: Behaviour): Option<Behaviour>
  {
    match b
    case Listening => Some(InConversation)
    case InConversation => Some(Focused)
    case RequestError => Some(InConversation)
    case Focused => Some(Idle)
    case _ => None
  }

  /** Every timed successor is a transition the table allows. */
  lemma AutoSuccessorAllowed(b: Behaviour)
    ensures AutoSuccessor(b).Some? ==> CanChangeBeingState(b, AutoSuccessor(b).value)
  {
  }

  /** The part of the being's state the state machine works on: the current
      behaviour, the pending auto-transition, and whether the being is
      enabled and active (the guard on re-arming the timer). */
  datatype Posture = Posture(behaviour: Behaviour, pending: Option<Behaviour>, active: bool)

  /** The posture after a state change to `b`: the behaviour is `b` and, when
      active, the previous timer is cancelled and `b`'s timer armed. */
  function Change(p: Posture, b: Behaviour): Posture
  {
    Posture(b, if p.active then AutoSuccessor(b) else p.pending, p.active)
  }

  /** A requested transition: applied only when the table allows it. */
  function Request(p: Posture, b: Behaviour): Posture
  {
    if CanChangeBeingState(p.behaviour, b) then Change(p, b) else p
  }

  /** The pending timeout elapses: the timer is spent and its target is
      entered directly, without consulting the table. */
  function Fire(p: Posture): Posture
  {
    match p.pending
    case None => p
    case Some(t) => Change(p.(pending := None), t)
  }

  /** The inputs that drive the state machine. */
  datatype Input =
    | Approach        // a user approaches an initialized being
    | Engage          // the user engages in conversation
    | StartSpeaking
    | StopSpeaking
    | Disengage
    | Leave
    | Timeout         // the pending timer elapses
    | ActionStarted   // the being starts playing an action
    | ActionEnded

  /** Inputs that enter their state without consulting the table. */
  predicate Forced(i: Input)
  {
    i.Timeout? || i.ActionStarted? || i.ActionEnded?
  }

  function Step(p: Posture, i: Input): Posture
  {
    match i
    case Approach => Request(p, Focused)
    case Engage => Request(p, InConversation)
    case StartSpeaking => Request(p, Listening)
    case StopSpeaking => Request(p, InConversation)
    case Disengage => Request(p, Focused)
    case Leave => Request(p, Idle)
    case Timeout => Fire(p)
    case ActionStarted => Change(p, PlayingBeingAction)
    case ActionEnded => Change(p, InConversation)
  }

  /** The posture after a run of inputs. */
  function Run(p: Posture, inputs: seq<Input>): Posture
    decreases |inputs|
  {
    if inputs == [] then p else Run(Step(p, inputs[0]), inputs[1..])
  }

  /** The observed state changes of a run, as (from, to) pairs: one for each
      input after which the behaviour differs. */
  function Transitions(p: Posture, inputs: seq<Input>): seq<(Behaviour, Behaviour)>
    decreases |inputs|
  {
    if inputs == [] then []
    else
      var q := Step(p, inputs[0]);
      (if q.behaviour != p.behaviour then [(p.behaviour, q.behaviour)] else [])
      + Transitions(q, inputs[1..])
  }

  /** The pending timer is the one the current behaviour arms. */
  predicate Armed(p: Posture)
  {
    p.pending == AutoSuccessor(p.behaviour)
  }

  /** Every input keeps an active being's timer armed for its behaviour. */
  lemma StepKeepsArmed(p: Posture, i: Input)
    requires p.active && Armed(p)
    ensures Step(p, i).active && Armed(Step(p, i))
  {
  }

  /** An active being's timer stays armed for its current behaviour over any
      run, so a timer never outlives the state that armed it. */
  lemma {:induction false} RunKeepsArmed(p: Posture, inputs: seq<Input>)
    requires p.active && Armed(p)
    ensures Run(p, inputs).active && Armed(Run(p, inputs))
    decreases |inputs|
  {
    if inputs != [] {
      StepKeepsArmed(p, inputs[0]);
      RunKeepsArmed(Step(p, inputs[0]), inputs[1..]);
    }
  }

  /** For an active being driven by user requests and timeouts only, every
      observed state change is one the table allows: requests are checked,
      and an armed timer only leads to its state's allowed successor. */
  lemma {:induction false} UserDrivenTransitionsFollowTable(p: Posture, inputs: seq<Input>)
    requires p.active && Armed(p)
    requires forall k :: 0 <= k < |inputs| ==> !inputs[k].ActionStarted? && !inputs[k].ActionEnded?
    ensures forall k :: 0 <= k < |Transitions(p, inputs)| ==>
      CanChangeBeingState(Transitions(p, inputs)[k].0, Transitions(p, inputs)[k].1)
    decreases |inputs|
  {
    if inputs != [] {
      var q := Step(p, inputs[0]);
      AutoSuccessorAllowed(p.behaviour);
      assert q.behaviour != p.behaviour ==> CanChangeBeingState(p.behaviour, q.behaviour);
      StepKeepsArmed(p, inputs[0]);
      UserDrivenTransitionsFollowTable(q, inputs[1..]);
      var head := if q.behaviour != p.behaviour then [(p.behaviour, q.behaviour)] else [];
      assert Transitions(p, inputs) == head + Transitions(q, inputs[1..]);
    }
  }

  /** Left alone, an active being drifts back to Idle: from every state
      that arms a timer, at most three timeouts lead to Idle, after which
      nothing is pending. */
  lemma TimeoutsDecayToIdle(p: Posture)
    requires p.active && Armed(p) && p.pending.Some?
    ensures Run(p, [Timeout, Timeout, Timeout]) == Posture(Idle, None, true)
  {
    var q1 := Step(p, Timeout);
    var q2 := Step(q1, Timeout);
    var q3 := Step(q2, Timeout);
    assert [Timeout, Timeout, Timeout][1..] == [Timeout, Timeout];
    assert [Timeout, Timeout][1..] == [Timeout];
    assert [Timeout][1..] == [];
    assert Run(p, [Timeout, Timeout, Timeout]) == q3;
  }

  /** A rejected request is a no-op: behaviour and timer are unchanged. */
  lemma RejectedRequestIsNoOp(p: Posture, b: Behaviour)
    requires !CanChangeBeingState(p.behaviour, b)
    ensures Request(p, b) == p
  {
  }

  /** While the being is not active a state change does not re-arm the
      timer, and a stale timer fires without the table: after Focused armed
      its timeout, engaging in conversation and then the timeout lead from
      InConversation to Idle, which the table forbids. */
  lemma StaleTimerBypassesTable()
    ensures var p := Posture(Focused, Some(Idle), false);
      Transitions(p, [Engage, Timeout]) == [(Focused, InConversation), (InConversation, Idle)]
      && !CanChangeBeingState(InConversation, Idle)
  {
    var p := Posture(Focused, Some(Idle), false);
    var q := Step(p, Engage);
    assert q == Posture(InConversation, Some(Idle), false);
    assert [Engage, Timeout][1..] == [Timeout];
    assert Step(q, Timeout) == Posture(Idle, None, false);
    assert [Timeout][1..] == [];
  }

  /** Starting an action forces PlayingBeingAction from any state, also
      where the table would refuse it. */
  lemma ActionStartBypassesTable(p: Posture)
    ensures Step(p, ActionStarted).behaviour == PlayingBeingAction
    ensures p.behaviour == Idle ==> !CanChangeBeingState(p.behaviour, PlayingBeingAction)
  {
  }

  /** How loading the configuration ended: nothing was downloaded; the
      being refused what it got (empty or unparsable, or a missing URL,
      profile, secret or app identifier); or it accepted a configuration with
      these bindings. */
  datatype LoadOutcome = NotDownloaded | Refused | Accepted(bindings: BeingBindings)

  /** Opaque payloads of the action callbacks. */
  datatype UserAction = UserAction(payload: string)
  datatype BeingAction = BeingAction(payload: string)

  /** What the being announces to its subscribers and collaborators. */
  datatype BeingEvent =
    | StateChanged(behaviour: Behaviour)
    | UserStartedSpeaking
    | UserStoppedSpeaking
    | UserLeftConversation
    | MuteChanged(muted: bool)
    | UserActionRaised(userAction: UserAction)
    | BeingActionRaised(beingAction: BeingAction)
    | ActionsStopped                  // the action player drops current and scheduled actions
    | ProcessingQueueCleared          // forwarded to the dispatcher
    | SessionRequested(userId: Guid, conversationId: Option<Guid>)  // the dispatcher's InitializeWith
    | ConversationStarted
    | ConversationEnded
    | TextSent(text: string)
    | AudioSent(streamed: bool)
    | SignalSent(name: string, value: string)

  /** The state-changed event a change to `b` fires, if any. */
  function ChangeEvents(current: Behaviour, b: Behaviour): seq<BeingEvent>
  {
    if current != b then [StateChanged(b)] else []
  }

  class VirbeBeing {
    var behaviour: Behaviour
    var pending: Option<Behaviour>
    var active: bool
    var initialized: bool
    var autoStartConversation: bool
    var userId: Guid
    var conversationId: Option<Guid>
    var isMuted: bool
    var lastUserAction: Option<UserAction>
    var lastBeingAction: Option<BeingAction>
    ghost var events: seq<BeingEvent>

    function State(): Posture
      reads this
    {
      Posture(behaviour, pending, active)
    }

    /** A being after start-up: idle, no timer, configuration not loaded. */
    constructor (userId: Guid, autoStartConversation: bool)
      ensures State() == Posture(Idle, None, true) && Armed(State())
      ensures !initialized && this.userId == userId && conversationId == None
      ensures this.autoStartConversation == autoStartConversation
      ensures !isMuted && lastUserAction == None && lastBeingAction == None && events == []
    {
      behaviour := Idle;
      pending := None;
      active := true;
      initialized := false;
      this.autoStartConversation := autoStartConversation;
      this.userId := userId;
      conversationId := None;
      isMuted := false;
      lastUserAction := None;
      lastBeingAction := None;
      events := [];
    }

    /** The component is enabled or disabled by its host. */
    method SetActive(a: bool)
      modifies this`active
      ensures active == a
    {
      active := a;
    }

    /** Sets the state, firing the change event only when it differs, and
        re-arms the timer in every case. */
    method ChangeBeingState(b: Behaviour)
      modifies this`behaviour, this`pending, this`events
      ensures State() == Change(old(State()), b)
      ensures events == old(events) + ChangeEvents(old(behaviour), b)
    {
      if behaviour != b {
        behaviour := b;
        events := events + [StateChanged(b)];
      }
      ScheduleChangeBeingStateAfterTimeoutIfNeeded();
    }

    /** When active, cancels the pending timer and arms the current state's. */
    method ScheduleChangeBeingStateAfterTimeoutIfNeeded()
      modifies this`pending
      ensures pending == if active then AutoSuccessor(behaviour) else old(pending)
    {
      if !active {
        return;
      }
      pending := None;
      match behaviour {
        case Listening => pending := Some(InConversation);
        case InConversation => pending := Some(Focused);
        case RequestError => pending := Some(InConversation);
        case Focused => pending := Some(Idle);
        case _ =>
      }
    }

    /** The pending timeout elapses and enters its target state. */
    method FireTimeout()
      modifies this`behaviour, this`pending, this`events
      ensures State() == Fire(old(State()))
      ensures events == old(events) + if old(pending).Some? then ChangeEvents(old(behaviour), old(pending).value) else []
    {
      if pending.Some? {
        var target := pending.value;
        pending := None;
        ChangeBeingState(target);
      }
    }

    /** A requested transition, applied only when the table allows it. */
    method RequestState(b: Behaviour)
      modifies this`behaviour, this`pending, this`events
      ensures State() == Request(old(State()), b)
      ensures events == old(events) + if CanChangeBeingState(old(behaviour), b) then ChangeEvents(old(behaviour), b) else []
    {
      if CanChangeBeingState(behaviour, b) {
        ChangeBeingState(b);
      }
    }

    /** The configuration download completes. Nothing downloaded leaves the
        being as it was; a refused configuration leaves it uninitialized. An
        accepted one constructs the dispatcher from its bindings: when that
        construction raises, the flag is never assigned and the exception is
        returned; otherwise the being is initialized and, when configured to,
        starts a conversation for its user. */
    method ConfigLoaded(outcome: LoadOutcome, classes: HandlerClasses) returns (raised: Option<ConstructionError>)
      modifies this`initialized, this`events
      ensures outcome.NotDownloaded? ==>
        initialized == old(initialized) && events == old(events) && raised == None
      ensures outcome.Refused? ==>
        !initialized && events == old(events) && raised == None
      ensures outcome.Accepted? && Assembly(outcome.bindings, classes).Failure? ==>
        initialized == old(initialized) && events == old(events)
        && raised == Some(Assembly(outcome.bindings, classes).error)
      ensures outcome.Accepted? && Assembly(outcome.bindings, classes).Success? ==>
        initialized && raised == None
        && events == old(events) +
             if autoStartConversation
             then [ActionsStopped, ProcessingQueueCleared, SessionRequested(userId, conversationId), ConversationStarted]
             else []
    {
      match outcome {
        case NotDownloaded =>
          return None;
        case Refused =>
          initialized := false;
          return None;
        case Accepted(bindings) =>
          var assembled := AssembleHandlers(bindings, classes);
          if assembled.Failure? {
            return Some(assembled.error);
          }
          initialized := true;
          if autoStartConversation {
            StartNewConversation(userId);
          }
          return None;
      }
    }

    /** The host changes the auto-start setting. */
    method SetSettings(autoStart: bool)
      modifies this`autoStartConversation
      ensures autoStartConversation == autoStart
    {
      autoStartConversation := autoStart;
    }

    /** Stops what is playing and scheduled, and clears the dispatcher's
        queues when initialized. */
    method StopCurrentAndScheduledActions()
      modifies this`events
      ensures events == old(events) + [ActionsStopped] + if initialized then [ProcessingQueueCleared] else []
    {
      events := events + [ActionsStopped];
      if !initialized {
        return;
      }
      events := events + [ProcessingQueueCleared];
    }

    /** Starts a session for `endUserId` with the current conversation id. */
    method StartNewConversation(endUserId: Guid)
      modifies this`events
      ensures events == old(events) +
        if initialized
        then [ActionsStopped, ProcessingQueueCleared, SessionRequested(endUserId, conversationId), ConversationStarted]
        else []
    {
      if !initialized {
        return;
      }
      StopCurrentAndScheduledActions();
      events := events + [SessionRequested(endUserId, conversationId), ConversationStarted];
    }

    /** Restores a known user and conversation and starts its session. */
    method StartNewConversationWithUserSession(endUserId: Guid, conversation: Guid)
      modifies this`userId, this`conversationId, this`events
      ensures old(initialized) ==> userId == endUserId && conversationId == Some(conversation)
      ensures !old(initialized) ==> userId == old(userId) && conversationId == old(conversationId)
      ensures events == old(events) +
        if initialized then [SessionRequested(endUserId, Some(conversation)), ConversationStarted] else []
    {
      if !initialized {
        return;
      }
      userId := endUserId;
      conversationId := Some(conversation);
      events := events + [SessionRequested(endUserId, Some(conversation)), ConversationStarted];
    }

    method StopConversation()
      modifies this`events
      ensures events == old(events) + [ActionsStopped] + (if initialized then [ProcessingQueueCleared] else []) + [ConversationEnded]
    {
      StopCurrentAndScheduledActions();
      events := events + [ConversationEnded];
    }

    /** The server confirmed the conversation id; with auto-start the
        conversation-start signal is sent. */
    method OnConversationInitialized(id: Guid)
      modifies this`conversationId, this`events
      ensures conversationId == Some(id)
      ensures events == old(events) + if autoStartConversation then [SignalSent("conversation-start", "")] else []
    {
      conversationId := Some(id);
      if autoStartConversation {
        events := events + [SignalSent("conversation-start", "")];
      }
    }

    /** A user approaches. Nothing happens before initialization. From Idle
        with `forceNewConversation` the conversation id is cleared and a new
        conversation (for the fresh id `newUserId`) is started before
        focusing. */
    method UserHasApproached(forceNewConversation: bool, newUserId: Guid)
      modifies this`behaviour, this`pending, this`conversationId, this`events
      ensures !old(initialized) ==> State() == old(State()) && conversationId == old(conversationId) && events == old(events)
      ensures old(initialized) ==> State() == Step(old(State()), Approach)
      ensures var restart := old(initialized) && forceNewConversation && old(behaviour) == Idle;
        && conversationId == (if restart then None else old(conversationId))
        && events == old(events)
             + (if restart then [ActionsStopped, ProcessingQueueCleared, SessionRequested(newUserId, None), ConversationStarted] else [])
             + (if old(initialized) && CanChangeBeingState(old(behaviour), Focused) then ChangeEvents(old(behaviour), Focused) else [])
    {
      if !initialized {
        return;
      }
      if CanChangeBeingState(behaviour, Focused) {
        if forceNewConversation && behaviour == Idle {
          conversationId := None;
          StartNewConversation(newUserId);
        }
        ChangeBeingState(Focused);
      }
    }

    method UserHasEngagedInConversation()
      modifies this`behaviour, this`pending, this`events
      ensures State() == Step(old(State()), Engage)
      ensures events == old(events) + if CanChangeBeingState(old(behaviour), InConversation) then ChangeEvents(old(behaviour), InConversation) else []
    {
      RequestState(InConversation);
    }

    /** The speaking notification goes out whether or not Listening was entered. */
    method UserHasStartedSpeaking()
      modifies this`behaviour, this`pending, this`events
      ensures State() == Step(old(State()), StartSpeaking)
      ensures events == old(events)
        + (if CanChangeBeingState(old(behaviour), Listening) then ChangeEvents(old(behaviour), Listening) else [])
        + [UserStartedSpeaking]
    {
      RequestState(Listening);
      events := events + [UserStartedSpeaking];
    }

    method UserHasStoppedSpeaking()
      modifies this`behaviour, this`pending, this`events
      ensures State() == Step(old(State()), StopSpeaking)
      ensures events == old(events)
        + (if CanChangeBeingState(old(behaviour), InConversation) then ChangeEvents(old(behaviour), InConversation) else [])
        + [UserStoppedSpeaking]
    {
      RequestState(InConversation);
      events := events + [UserStoppedSpeaking];
    }

    method UserHasDisengagedFromConversation()
      modifies this`behaviour, this`pending, this`events
      ensures State() == Step(old(State()), Disengage)
      ensures events == old(events) + if CanChangeBeingState(old(behaviour), Focused) then ChangeEvents(old(behaviour), Focused) else []
    {
      RequestState(Focused);
    }

    /** The left notification goes out whether or not Idle was entered. */
    method UserHasLeft()
      modifies this`behaviour, this`pending, this`events
      ensures State() == Step(old(State()), Leave)
      ensures events == old(events)
        + (if CanChangeBeingState(old(behaviour), Idle) then ChangeEvents(old(behaviour), Idle) else [])
        + [UserLeftConversation]
    {
      RequestState(Idle);
      events := events + [UserLeftConversation];
    }

    method SetBeingMute(muted: bool)
      modifies this`isMuted, this`events
      ensures isMuted == muted
      ensures events == old(events) + [MuteChanged(muted)]
    {
      isMuted := muted;
      events := events + [MuteChanged(muted)];
    }

    /** Sends recognised text to the dispatcher, only once initialized. */
    method SendText(text: string)
      modifies this`events
      ensures events == old(events) + if initialized then [TextSent(text)] else []
    {
      if !initialized {
        return;
      }
      events := events + [TextSent(text)];
    }

    /** Sends recorded speech, only once initialized and when there is a
        recording. */
    method SendSpeechBytes(recorded: Option<seq<real>>, streamed: bool)
      modifies this`events
      ensures events == old(events) + if initialized && recorded.Some? then [AudioSent(streamed)] else []
    {
      if !initialized {
        return;
      }
      if recorded.None? {
        return;
      }
      events := events + [AudioSent(streamed)];
    }

    method CallUserAction(a: UserAction)
      modifies this`lastUserAction, this`events
      ensures lastUserAction == Some(a)
      ensures events == old(events) + [UserActionRaised(a)]
    {
      lastUserAction := Some(a);
      events := events + [UserActionRaised(a)];
    }

    /** Playing an action forces PlayingBeingAction, whatever the table says. */
    method CallBeingActionStarted(a: BeingAction)
      modifies this`behaviour, this`pending, this`lastBeingAction, this`events
      ensures State() == Step(old(State()), ActionStarted)
      ensures lastBeingAction == Some(a)
      ensures events == old(events) + ChangeEvents(old(behaviour), PlayingBeingAction) + [BeingActionRaised(a)]
    {
      ChangeBeingState(PlayingBeingAction);
      lastBeingAction := Some(a);
      events := events + [BeingActionRaised(a)];
    }

    /** An action ended: InConversation is forced, whatever the table says. */
    method CallBeingActionEnded(a: BeingAction)
      modifies this`behaviour, this`pending, this`events
      ensures State() == Step(old(State()), ActionEnded)
      ensures events == old(events) + ChangeEvents(old(behaviour), InConversation)
    {
      ChangeBeingState(InConversation);
    }
  }
}
