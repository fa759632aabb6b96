/** The communication dispatcher: assembles an ordered list of transport
    handlers from the being's bindings, prepares them for a session, and
    routes every outgoing request to the handlers that can serve it. The
    concrete handler classes are abstract here: a handler is a record with
    the fixed capability set of its class, its own `initialized` flag and its
    binding; what the transport answers is given to each operation as a
    script (`failing`: the list positions whose call throws this time), and
    every call the dispatcher makes on a handler is appended to a ghost log. */
module Handlers {
  import opened Wrappers
  import opened Config

  /** Opaque unique identifiers (end user, conversation). */
  type Guid = nat

  /** The request kinds a handler may serve. */
  datatype Capability = SendText | SendSignal | SendAudio | SendAudioStream | ProcessTTS

  /** The three handler classes the dispatcher instantiates. */
  datatype HandlerKind = ConversationSocket | SttSocket | TtsRest

  /** The capability set each handler class declares for all its instances. */
  datatype HandlerClasses = HandlerClasses(conversation: set<Capability>, stt: set<Capability>, tts: set<Capability>)

  datatype Handler = Handler(
    kind: HandlerKind,
    protocol: ConnectionProtocol,
    path: string,
    locationId: Option<string>,   // the TTS handler's voice location; none for the others
    caps: set<Capability>,
    initialized: bool)

  /** The current conversation: end user and, once known, conversation id. */
  datatype Session = Session(endUserId: Guid, conversationId: Option<Guid>)

  datatype Payload =
    | TextPayload(text: string)
    | SignalPayload(name: string, value: string)
    | AudioPayload(bytes: seq<bv8>)
    | TtsPayload(text: string)

  /** One call of the dispatcher on the handler at list position `target`. */
  datatype Call =
    | Prepare(target: nat, session: Session)
    | MakeAction(target: nat, capability: Capability, payload: Payload)
    | ClearQueue(target: nat)
    | DisposeHandler(target: nat)

  /** The exceptions construction raises. */
  datatype ConstructionError =
    | RoomNotSupported                                              // a legacy room binding
    | FallbackMissing(kind: HandlerKind)                            // a needed fallback binding is absent
    | FallbackNotImplemented(kind: HandlerKind, protocol: ConnectionProtocol)  // no handler class for its protocol

  // ---------------------------------------------------------------------
  // Construction-time handler assembly
  // ---------------------------------------------------------------------

  function ConversationHandler(d: ConversationData, classes: HandlerClasses): Handler
  {
    Handler(ConversationSocket, d.protocol, d.path, None, classes.conversation, false)
  }

  /** The handlers the conversation pass creates: one per socket-io binding. */
  function SocketHandlers(bs: seq<ConversationData>, classes: HandlerClasses): seq<Handler>
  {
    if bs == [] then []
    else (if bs[0].protocol == SocketIo then [ConversationHandler(bs[0], classes)] else [])
         + SocketHandlers(bs[1..], classes)
  }

  /** The handlers of two consecutive binding lists come in binding order. */
  lemma {:induction false} SocketHandlersAppend(a: seq<ConversationData>, b: seq<ConversationData>, classes: HandlerClasses)
    ensures SocketHandlers(a + b, classes) == SocketHandlers(a, classes) + SocketHandlers(b, classes)
  {
    if a == [] {
      assert a + b == b;
    } else {
      assert (a + b)[0] == a[0];
      assert (a + b)[1..] == a[1..] + b;
      SocketHandlersAppend(a[1..], b, classes);
    }
  }

  /** Only socket-io bindings produce handlers, each gets one, and every
      handler produced is a fresh, unprepared conversation handler. */
  lemma {:induction false} SocketHandlersMeaning(bs: seq<ConversationData>, classes: HandlerClasses)
    ensures forall k :: 0 <= k < |SocketHandlers(bs, classes)| ==>
      var h := SocketHandlers(bs, classes)[k];
      h.kind == ConversationSocket && h.protocol == SocketIo && h.caps == classes.conversation && !h.initialized
    ensures forall j :: 0 <= j < |bs| && bs[j].protocol == SocketIo ==>
      ConversationHandler(bs[j], classes) in SocketHandlers(bs, classes)
    ensures forall h :: h in SocketHandlers(bs, classes) ==>
      exists j :: 0 <= j < |bs| && bs[j].protocol == SocketIo && h == ConversationHandler(bs[j], classes)
    ensures |SocketHandlers(bs, classes)| <= |bs|
  {
    if bs != [] {
      SocketHandlersMeaning(bs[1..], classes);
      var head := if bs[0].protocol == SocketIo then [ConversationHandler(bs[0], classes)] else [];
      assert SocketHandlers(bs, classes) == head + SocketHandlers(bs[1..], classes);
      forall j | 1 <= j < |bs| ensures bs[j] == bs[1..][j - 1] { }
      forall h | h in SocketHandlers(bs[1..], classes)
        ensures exists j :: 0 <= j < |bs| && bs[j].protocol == SocketIo && h == ConversationHandler(bs[j], classes)
      {
        var j' :| 0 <= j' < |bs[1..]| && bs[1..][j'].protocol == SocketIo && h == ConversationHandler(bs[1..][j'], classes);
        assert bs[j' + 1] == bs[1..][j'];
      }
    }
  }

  /** A binding the legacy branch rejects: a room binding on neither socket-io nor http. */
  predicate RoomConflict(d: ConversationData)
  {
    d.RoomData? && d.protocol != SocketIo && d.protocol != Http
  }

  predicate RejectsRoom(engine: EngineType, bs: seq<ConversationData>)
  {
    engine == Room && exists j :: 0 <= j < |bs| && RoomConflict(bs[j])
  }

  /** The capabilities the handlers advertise, accumulated in list order. */
  function Advertised(hs: seq<Handler>): set<Capability>
  {
    if hs == [] then {} else Advertised(hs[..|hs| - 1]) + hs[|hs| - 1].caps
  }

  lemma {:induction false} AdvertisedMeaning(hs: seq<Handler>, c: Capability)
    ensures c in Advertised(hs) <==> exists k :: 0 <= k < |hs| && c in hs[k].caps
  {
    if hs != [] {
      var init := hs[..|hs| - 1];
      AdvertisedMeaning(init, c);
      if c in Advertised(init) {
        var k :| 0 <= k < |init| && c in init[k].caps;
        assert hs[k] == init[k];
      }
      if exists k :: 0 <= k < |hs| && c in hs[k].caps {
        var k :| 0 <= k < |hs| && c in hs[k].caps;
        if k < |hs| - 1 {
          assert init[k] == hs[k];
        }
      }
    }
  }

  predicate AdvertisesAudio(hs: seq<Handler>)
  {
    SendAudio in Advertised(hs) || SendAudioStream in Advertised(hs)
  }

  predicate AdvertisesTts(hs: seq<Handler>)
  {
    ProcessTTS in Advertised(hs)
  }

  /** The fallback STT handler, needed when no conversation handler sends audio. */
  function SttFallback(conv: seq<Handler>, d: Option<BindingData>, classes: HandlerClasses): Result<seq<Handler>, ConstructionError>
  {
    if AdvertisesAudio(conv) then Success([])
    else if d.None? then Failure(FallbackMissing(SttSocket))
    else if d.value.protocol == SocketIo then Success([Handler(SttSocket, d.value.protocol, d.value.path, None, classes.stt, false)])
    else Failure(FallbackNotImplemented(SttSocket, d.value.protocol))
  }

  /** The fallback TTS handler, needed when no conversation handler
      synthesises speech; it is built with the configuration's location id. */
  function TtsFallback(conv: seq<Handler>, d: Option<BindingData>, locationId: Option<string>, classes: HandlerClasses): Result<seq<Handler>, ConstructionError>
  {
    if AdvertisesTts(conv) then Success([])
    else if d.None? then Failure(FallbackMissing(TtsRest))
    else if d.value.protocol == Http then Success([Handler(TtsRest, d.value.protocol, d.value.path, locationId, classes.tts, false)])
    else Failure(FallbackNotImplemented(TtsRest, d.value.protocol))
  }

  /** The handler list construction builds, or the exception it raises:
      conversation handlers first, then the fallbacks that fill a gap. A room
      engine stops after the conversation pass. */
  function Assembly(b: BeingBindings, classes: HandlerClasses): Result<seq<Handler>, ConstructionError>
  {
    if RejectsRoom(b.engine, b.conversationData) then Failure(RoomNotSupported)
    else
      var conv := SocketHandlers(b.conversationData, classes);
      if b.engine == Room then Success(conv)
      else
        match SttFallback(conv, b.fallbackStt, classes)
        case Failure(e) => Failure(e)
        case Success(stt) =>
          match TtsFallback(conv, b.fallbackTts, b.locationId, classes)
          case Failure(e) => Failure(e)
          case Success(tts) => Success(conv + stt + tts)
  }

  function KindRank(k: HandlerKind): nat
  {
    match k
    case ConversationSocket => 0
    case SttSocket => 1
    case TtsRest => 2
  }

  /** The assembled list starts with the conversation handlers and
      is ordered conversation handlers, then STT, then TTS, with at most one
      fallback of each kind. */
  lemma AssemblyOrder(b: BeingBindings, classes: HandlerClasses)
    requires Assembly(b, classes).Success?
    ensures var hs := Assembly(b, classes).value;
      var conv := SocketHandlers(b.conversationData, classes);
      && |conv| <= |hs| <= |conv| + 2
      && hs[..|conv|] == conv
      && (forall i, j :: 0 <= i < j < |hs| ==> KindRank(hs[i].kind) <= KindRank(hs[j].kind))
      && (forall i, j :: 0 <= i < j < |hs| && hs[i].kind != ConversationSocket ==> hs[i].kind != hs[j].kind)
  {
    SocketHandlersMeaning(b.conversationData, classes);
    var hs := Assembly(b, classes).value;
    var conv := SocketHandlers(b.conversationData, classes);
    if b.engine == Conversation {
      var stt := SttFallback(conv, b.fallbackStt, classes).value;
      var tts := TtsFallback(conv, b.fallbackTts, b.locationId, classes).value;
      assert hs == conv + stt + tts;
      assert hs[..|conv|] == conv;
      forall i | |conv| <= i < |hs| ensures hs[i].kind != ConversationSocket && (hs[i].kind == SttSocket <==> i < |conv| + |stt|) {
        if i < |conv| + |stt| {
          assert hs[i] == stt[i - |conv|];
        } else {
          assert hs[i] == tts[i - |conv| - |stt|];
        }
      }
    } else {
      assert hs == conv;
    }
  }

  /** The fallback STT handler is in the list exactly when no conversation
      handler advertises sending audio, single-shot or streamed. */
  lemma FallbackSttIff(b: BeingBindings, classes: HandlerClasses)
    requires b.engine == Conversation && Assembly(b, classes).Success?
    ensures var hs := Assembly(b, classes).value;
      (exists k :: 0 <= k < |hs| && hs[k].kind == SttSocket)
        <==> !(exists k :: 0 <= k < |SocketHandlers(b.conversationData, classes)| &&
                 (SendAudio in SocketHandlers(b.conversationData, classes)[k].caps ||
                  SendAudioStream in SocketHandlers(b.conversationData, classes)[k].caps))
  {
    var conv := SocketHandlers(b.conversationData, classes);
    SocketHandlersMeaning(b.conversationData, classes);
    AdvertisedMeaning(conv, SendAudio);
    AdvertisedMeaning(conv, SendAudioStream);
    var hs := Assembly(b, classes).value;
    var stt := SttFallback(conv, b.fallbackStt, classes).value;
    var tts := TtsFallback(conv, b.fallbackTts, b.locationId, classes).value;
    assert hs == conv + stt + tts;
    if exists k :: 0 <= k < |hs| && hs[k].kind == SttSocket {
      var k :| 0 <= k < |hs| && hs[k].kind == SttSocket;
      assert k >= |conv|;
    }
    if !AdvertisesAudio(conv) {
      assert hs[|conv|] == stt[0];
    }
  }

  /** The fallback TTS handler is in the list exactly when no conversation
      handler advertises speech synthesis (the STT fallback's own
      capabilities are not consulted). */
  lemma FallbackTtsIff(b: BeingBindings, classes: HandlerClasses)
    requires b.engine == Conversation && Assembly(b, classes).Success?
    ensures var hs := Assembly(b, classes).value;
      (exists k :: 0 <= k < |hs| && hs[k].kind == TtsRest)
        <==> !(exists k :: 0 <= k < |SocketHandlers(b.conversationData, classes)| &&
                 ProcessTTS in SocketHandlers(b.conversationData, classes)[k].caps)
  {
    var conv := SocketHandlers(b.conversationData, classes);
    SocketHandlersMeaning(b.conversationData, classes);
    AdvertisedMeaning(conv, ProcessTTS);
    var hs := Assembly(b, classes).value;
    var stt := SttFallback(conv, b.fallbackStt, classes).value;
    var tts := TtsFallback(conv, b.fallbackTts, b.locationId, classes).value;
    assert hs == conv + stt + tts;
    if exists k :: 0 <= k < |hs| && hs[k].kind == TtsRest {
      var k :| 0 <= k < |hs| && hs[k].kind == TtsRest;
    }
    if !AdvertisesTts(conv) {
      assert hs[|conv| + |stt|] == tts[0];
    }
  }

  /** The fallback TTS handler is a fresh http handler on the fallback TTS path, built with the
      configuration's location id. */
  lemma FallbackTtsHandler(b: BeingBindings, classes: HandlerClasses)
    requires b.engine == Conversation && Assembly(b, classes).Success?
    ensures forall k :: 0 <= k < |Assembly(b, classes).value| && Assembly(b, classes).value[k].kind == TtsRest ==>
      b.fallbackTts.Some? &&
      Assembly(b, classes).value[k] == Handler(TtsRest, Http, b.fallbackTts.value.path, b.locationId, classes.tts, false)
  {
    var conv := SocketHandlers(b.conversationData, classes);
    SocketHandlersMeaning(b.conversationData, classes);
    var stt := SttFallback(conv, b.fallbackStt, classes).value;
    var tts := TtsFallback(conv, b.fallbackTts, b.locationId, classes).value;
    var hs := Assembly(b, classes).value;
    assert hs == conv + stt + tts;
    forall k | 0 <= k < |hs| && hs[k].kind == TtsRest
      ensures b.fallbackTts.Some? && hs[k] == Handler(TtsRest, Http, b.fallbackTts.value.path, b.locationId, classes.tts, false)
    {
      assert hs[k] !in conv;
    }
  }

  /** The fallback STT handler is a fresh socket-io handler on the fallback STT path. */
  lemma FallbackSttHandler(b: BeingBindings, classes: HandlerClasses)
    requires b.engine == Conversation && Assembly(b, classes).Success?
    ensures forall k :: 0 <= k < |Assembly(b, classes).value| && Assembly(b, classes).value[k].kind == SttSocket ==>
      b.fallbackStt.Some? &&
      Assembly(b, classes).value[k] == Handler(SttSocket, SocketIo, b.fallbackStt.value.path, None, classes.stt, false)
  {
    var conv := SocketHandlers(b.conversationData, classes);
    SocketHandlersMeaning(b.conversationData, classes);
    var stt := SttFallback(conv, b.fallbackStt, classes).value;
    var tts := TtsFallback(conv, b.fallbackTts, b.locationId, classes).value;
    var hs := Assembly(b, classes).value;
    assert hs == conv + stt + tts;
    forall k | 0 <= k < |hs| && hs[k].kind == SttSocket
      ensures b.fallbackStt.Some? && hs[k] == Handler(SttSocket, SocketIo, b.fallbackStt.value.path, None, classes.stt, false)
    {
      assert hs[k] !in conv;
    }
  }

  /** Construction raises exactly when a needed fallback cannot be built:
      the STT fallback must be socket-io, the TTS fallback http. */
  lemma ConstructionErrors(b: BeingBindings, classes: HandlerClasses)
    requires b.engine == Conversation
    ensures var conv := SocketHandlers(b.conversationData, classes);
      Assembly(b, classes).Failure? <==>
        || (!AdvertisesAudio(conv) && (b.fallbackStt.None? || b.fallbackStt.value.protocol != SocketIo))
        || (!AdvertisesTts(conv) && (b.fallbackTts.None? || b.fallbackTts.value.protocol != Http))
  {
  }

  /** The constructor's assembly loops, returning the handler list or the
      exception construction raises. */
  method AssembleHandlers(b: BeingBindings, classes: HandlerClasses) returns (r: Result<seq<Handler>, ConstructionError>)
    ensures r == Assembly(b, classes)
  {
    var handlers: seq<Handler> := [];
    var supported: set<Capability> := {};
    var bs := b.conversationData;
    var i := 0;
    while i < |bs|
      invariant 0 <= i <= |bs|
      invariant handlers == SocketHandlers(bs[..i], classes)
      invariant supported == Advertised(handlers)
      invariant !RejectsRoom(b.engine, bs[..i])
    {
      var d := bs[i];
      assert bs[..i + 1] == bs[..i] + [d];
      SocketHandlersAppend(bs[..i], [d], classes);
      assert [d][1..] == [];
      if d.protocol == SocketIo {
        var h := ConversationHandler(d, classes);
        assert (handlers + [h])[..|handlers|] == handlers;
        handlers := handlers + [h];
        supported := supported + h.caps;
      } else if d.protocol == Http {
        // no handler class serves an http conversation binding yet
      } else if b.engine == Room && d.RoomData? {
        assert RoomConflict(bs[i]);
        return Failure(RoomNotSupported);
      }
      i := i + 1;
    }
    assert bs[..i] == bs;

    if b.engine == Room {
      return Success(handlers);
    }
    var conv := handlers;
    if SendAudio !in supported && SendAudioStream !in supported {
      if b.fallbackStt.None? {
        return Failure(FallbackMissing(SttSocket));
      } else if b.fallbackStt.value.protocol == SocketIo {
        handlers := handlers + [Handler(SttSocket, b.fallbackStt.value.protocol, b.fallbackStt.value.path, None, classes.stt, false)];
      } else {
        return Failure(FallbackNotImplemented(SttSocket, b.fallbackStt.value.protocol));
      }
    }
    if ProcessTTS !in supported {
      if b.fallbackTts.None? {
        return Failure(FallbackMissing(TtsRest));
      } else if b.fallbackTts.value.protocol == Http {
        handlers := handlers + [Handler(TtsRest, b.fallbackTts.value.protocol, b.fallbackTts.value.path, b.locationId, classes.tts, false)];
      } else {
        return Failure(FallbackNotImplemented(TtsRest, b.fallbackTts.value.protocol));
      }
    }
    assert handlers == conv + SttFallback(conv, b.fallbackStt, classes).value + TtsFallback(conv, b.fallbackTts, b.locationId, classes).value;
    return Success(handlers);
  }

  // ---------------------------------------------------------------------
  // Session preparation
  // ---------------------------------------------------------------------

  /** The first list position from `i` on whose Prepare throws, or `n`. */
  function FirstFailure(n: nat, failing: set<nat>, i: nat): (k: nat)
    requires i <= n
    ensures i <= k <= n
    decreases n - i
  {
    if i == n then n
    else if i in failing then i
    else FirstFailure(n, failing, i + 1)
  }

  /** Prepare succeeds on every position before the first failure and, when
      one occurs, fails there. */
  lemma {:induction false} FirstFailureIsFirst(n: nat, failing: set<nat>, i: nat)
    requires i <= n
    ensures forall j :: i <= j < FirstFailure(n, failing, i) ==> j !in failing
    ensures FirstFailure(n, failing, i) < n ==> FirstFailure(n, failing, i) in failing
    decreases n - i
  {
    if i < n && i !in failing {
      FirstFailureIsFirst(n, failing, i + 1);
    }
  }

  /** The Prepare calls on positions 0 to n - 1, in order. */
  function PrepareCalls(s: Session, n: nat): seq<Call>
  {
    seq(n, j requires 0 <= j => Prepare(j, s))
  }

  /** The handler list after Prepare succeeded on the first k handlers. */
  function Prepared(hs: seq<Handler>, k: nat): seq<Handler>
  {
    seq(|hs|, j requires 0 <= j < |hs| => if j < k then hs[j].(initialized := true) else hs[j])
  }

  /** Fail-fast preparation: the handlers prepared are exactly the positions
      up to and including the first failure, in list order; the handlers after
      it are untouched and the dispatcher is marked initialized only when no
      Prepare failed. */
  lemma FailFast(hs: seq<Handler>, failing: set<nat>, s: Session)
    ensures var k := FirstFailure(|hs|, failing, 0);
      var prepared := PrepareCalls(s, if k < |hs| then k + 1 else k);
      && (forall m :: 0 <= m < |prepared| ==> prepared[m] == Prepare(m, s))
      && (forall j :: k < j < |hs| ==> Prepare(j, s) !in prepared && Prepared(hs, k)[j] == hs[j])
      && (forall j :: 0 <= j < k ==> Prepared(hs, k)[j].initialized && j !in failing)
      && (k == |hs| <==> forall j :: 0 <= j < |hs| ==> j !in failing)
  {
    FirstFailureIsFirst(|hs|, failing, 0);
  }

  // ---------------------------------------------------------------------
  // Routing
  // ---------------------------------------------------------------------

  /** A handler takes a request when it is initialized and has the capability. */
  predicate Serves(h: Handler, c: Capability)
  {
    h.initialized && c in h.caps
  }

  /** No serving handler in positions i to j - 1 throws. */
  predicate NoEarlierFailure(hs: seq<Handler>, c: Capability, failing: set<nat>, i: nat, j: nat)
    requires j <= |hs|
  {
    forall m :: i <= m < j && Serves(hs[m], c) ==> m !in failing
  }

  /** The calls a broadcast makes from position `i` on: every serving handler
      in list order, stopping after a call that throws. */
  function BroadcastFrom(hs: seq<Handler>, c: Capability, p: Payload, failing: set<nat>, i: nat): seq<Call>
    requires i <= |hs|
    decreases |hs| - i
  {
    if i == |hs| then []
    else if Serves(hs[i], c) then
      [MakeAction(i, c, p)] + (if i in failing then [] else BroadcastFrom(hs, c, p, failing, i + 1))
    else BroadcastFrom(hs, c, p, failing, i + 1)
  }

  /** Every call of a broadcast from `i` goes to a serving handler at or
      after `i`, with the request's capability and payload. */
  lemma {:induction false} BroadcastTargets(hs: seq<Handler>, c: Capability, p: Payload, failing: set<nat>, i: nat)
    requires i <= |hs|
    ensures forall k :: 0 <= k < |BroadcastFrom(hs, c, p, failing, i)| ==>
      && BroadcastFrom(hs, c, p, failing, i)[k] == MakeAction(BroadcastFrom(hs, c, p, failing, i)[k].target, c, p)
      && i <= BroadcastFrom(hs, c, p, failing, i)[k].target < |hs|
      && Serves(hs[BroadcastFrom(hs, c, p, failing, i)[k].target], c)
    decreases |hs| - i
  {
    if i < |hs| {
      BroadcastTargets(hs, c, p, failing, i + 1);
    }
  }

  /** Broadcast targets strictly increase: list order, each handler once. */
  lemma {:induction false} BroadcastOrdered(hs: seq<Handler>, c: Capability, p: Payload, failing: set<nat>, i: nat)
    requires i <= |hs|
    ensures forall k, l :: 0 <= k < l < |BroadcastFrom(hs, c, p, failing, i)| ==>
      BroadcastFrom(hs, c, p, failing, i)[k].target < BroadcastFrom(hs, c, p, failing, i)[l].target
    decreases |hs| - i
  {
    if i < |hs| {
      BroadcastOrdered(hs, c, p, failing, i + 1);
      BroadcastTargets(hs, c, p, failing, i + 1);
    }
  }

  /** Every call of a broadcast but the last returned normally. */
  lemma {:induction false} BroadcastOnlyLastThrows(hs: seq<Handler>, c: Capability, p: Payload, failing: set<nat>, i: nat)
    requires i <= |hs|
    ensures forall k :: 0 <= k < |BroadcastFrom(hs, c, p, failing, i)| - 1 ==>
      BroadcastFrom(hs, c, p, failing, i)[k].target !in failing
    decreases |hs| - i
  {
    if i < |hs| {
      BroadcastOnlyLastThrows(hs, c, p, failing, i + 1);
    }
  }

  /** A serving handler is reached unless an earlier serving handler threw. */
  lemma {:induction false} BroadcastReaches(hs: seq<Handler>, c: Capability, p: Payload, failing: set<nat>, i: nat)
    requires i <= |hs|
    ensures forall j :: i <= j < |hs| && Serves(hs[j], c) && NoEarlierFailure(hs, c, failing, i, j) ==>
      MakeAction(j, c, p) in BroadcastFrom(hs, c, p, failing, i)
    decreases |hs| - i
  {
    if i < |hs| {
      BroadcastReaches(hs, c, p, failing, i + 1);
      forall j | i < j < |hs| && Serves(hs[j], c) && NoEarlierFailure(hs, c, failing, i, j)
        ensures MakeAction(j, c, p) in BroadcastFrom(hs, c, p, failing, i)
      {
        assert NoEarlierFailure(hs, c, failing, i + 1, j);
      }
    }
  }

  /** Every call of a broadcast goes to a serving handler with the request's
      capability and payload; targets strictly increase (list order, each
      handler at most once); only the last call may throw; and a serving
      handler is reached unless an earlier serving handler threw. */
  lemma BroadcastMeaning(hs: seq<Handler>, c: Capability, p: Payload, failing: set<nat>, i: nat)
    requires i <= |hs|
    ensures forall k :: 0 <= k < |BroadcastFrom(hs, c, p, failing, i)| ==>
      && BroadcastFrom(hs, c, p, failing, i)[k] == MakeAction(BroadcastFrom(hs, c, p, failing, i)[k].target, c, p)
      && i <= BroadcastFrom(hs, c, p, failing, i)[k].target < |hs|
      && Serves(hs[BroadcastFrom(hs, c, p, failing, i)[k].target], c)
    ensures forall k, l :: 0 <= k < l < |BroadcastFrom(hs, c, p, failing, i)| ==>
      BroadcastFrom(hs, c, p, failing, i)[k].target < BroadcastFrom(hs, c, p, failing, i)[l].target
    ensures forall k :: 0 <= k < |BroadcastFrom(hs, c, p, failing, i)| - 1 ==>
      BroadcastFrom(hs, c, p, failing, i)[k].target !in failing
    ensures forall j :: i <= j < |hs| && Serves(hs[j], c) && NoEarlierFailure(hs, c, failing, i, j) ==>
      MakeAction(j, c, p) in BroadcastFrom(hs, c, p, failing, i)
  {
    BroadcastTargets(hs, c, p, failing, i);
    BroadcastOrdered(hs, c, p, failing, i);
    BroadcastOnlyLastThrows(hs, c, p, failing, i);
    BroadcastReaches(hs, c, p, failing, i);
  }

  /** When no call throws, a broadcast reaches exactly the serving handlers. */
  lemma BroadcastReachesExactlyServing(hs: seq<Handler>, c: Capability, p: Payload)
    ensures forall j :: 0 <= j < |hs| ==> (MakeAction(j, c, p) in BroadcastFrom(hs, c, p, {}, 0) <==> Serves(hs[j], c))
    ensures forall call :: call in BroadcastFrom(hs, c, p, {}, 0) ==> call.MakeAction? && call.target < |hs|
  {
    var none: set<nat> := {};
    BroadcastMeaning(hs, c, p, none, 0);
    var calls := BroadcastFrom(hs, c, p, none, 0);
    assert forall k :: 0 <= k < |calls| ==> calls[k].MakeAction? && calls[k].target < |hs| && Serves(hs[calls[k].target], c);
    forall j | 0 <= j < |hs| ensures MakeAction(j, c, p) in calls <==> Serves(hs[j], c) {
      assert NoEarlierFailure(hs, c, none, 0, j);
      if MakeAction(j, c, p) in calls {
        var k :| 0 <= k < |calls| && calls[k] == MakeAction(j, c, p);
        assert calls[k].target == j;
      }
    }
  }

  /** The first serving handler from position `i` on. */
  function FirstServing(hs: seq<Handler>, c: Capability, i: nat): Option<nat>
    requires i <= |hs|
    decreases |hs| - i
  {
    if i == |hs| then None
    else if Serves(hs[i], c) then Some(i)
    else FirstServing(hs, c, i + 1)
  }

  lemma {:induction false} FirstServingIsFirst(hs: seq<Handler>, c: Capability, i: nat)
    requires i <= |hs|
    ensures FirstServing(hs, c, i).Some? ==>
      var v := FirstServing(hs, c, i).value;
      i <= v < |hs| && Serves(hs[v], c) && forall j :: i <= j < v ==> !Serves(hs[j], c)
    ensures FirstServing(hs, c, i).None? ==> forall j :: i <= j < |hs| ==> !Serves(hs[j], c)
    decreases |hs| - i
  {
    if i < |hs| && !Serves(hs[i], c) {
      FirstServingIsFirst(hs, c, i + 1);
    }
  }

  /** The calls speech synthesis makes: one, on the first serving handler. */
  function TtsCalls(hs: seq<Handler>, p: Payload): seq<Call>
  {
    match FirstServing(hs, ProcessTTS, 0)
    case None => []
    case Some(j) => [MakeAction(j, ProcessTTS, p)]
  }

  /** Speech synthesis reaches at most one handler: exactly one when some
      handler serves it, and then the first in list order, so a later
      TTS-capable handler is never called. */
  lemma TtsReachesFirstOnly(hs: seq<Handler>, p: Payload)
    ensures |TtsCalls(hs, p)| <= 1
    ensures |TtsCalls(hs, p)| == 1 <==> exists j :: 0 <= j < |hs| && Serves(hs[j], ProcessTTS)
    ensures forall j :: 0 <= j < |hs| ==>
      (MakeAction(j, ProcessTTS, p) in TtsCalls(hs, p) <==>
        Serves(hs[j], ProcessTTS) && forall m :: 0 <= m < j ==> !Serves(hs[m], ProcessTTS))
  {
    FirstServingIsFirst(hs, ProcessTTS, 0);
  }

  /** A call on each of the first n handlers, in list order. */
  function ClearCalls(n: nat): seq<Call>
  {
    seq(n, j requires 0 <= j => ClearQueue(j))
  }

  function DisposeCalls(n: nat): seq<Call>
  {
    seq(n, j requires 0 <= j => DisposeHandler(j))
  }

  // ---------------------------------------------------------------------
  // The dispatcher object
  // ---------------------------------------------------------------------

  class CommunicationSystem {
    var handlers: seq<Handler>
    var initialized: bool
    var session: Option<Session>
    ghost var calls: seq<Call>

    constructor FromHandlers(hs: seq<Handler>)
      ensures handlers == hs && !initialized && session == None && calls == []
    {
      handlers := hs;
      initialized := false;
      session := None;
      calls := [];
    }

    /** Construction from the being's bindings: the assembled handler list in
        a fresh, not yet initialized dispatcher, or the exception raised. */
    static method Create(b: BeingBindings, classes: HandlerClasses) returns (r: Result<CommunicationSystem, ConstructionError>)
      ensures r.Success? <==> Assembly(b, classes).Success?
      ensures r.Success? ==>
        && fresh(r.value)
        && r.value.handlers == Assembly(b, classes).value
        && !r.value.initialized && r.value.session == None && r.value.calls == []
      ensures r.Failure? ==> r.error == Assembly(b, classes).error
    {
      var assembled := AssembleHandlers(b, classes);
      if assembled.Failure? {
        return Failure(assembled.error);
      }
      var system := new CommunicationSystem.FromHandlers(assembled.value);
      return Success(system);
    }

    /** Installs a new session and prepares the handlers in list order,
        stopping at the first Prepare that throws. */
    method InitializeWith(endUserId: Guid, conversationId: Option<Guid>, failing: set<nat>)
      modifies this
      ensures session == Some(Session(endUserId, conversationId))
      ensures var k := FirstFailure(|old(handlers)|, failing, 0);
        && handlers == Prepared(old(handlers), k)
        && calls == old(calls) + PrepareCalls(Session(endUserId, conversationId), if k < |old(handlers)| then k + 1 else k)
        && initialized == (k == |old(handlers)| || old(initialized))
    {
      var s := Session(endUserId, conversationId);
      session := Some(s);
      ghost var n := |handlers|;
      var i := 0;
      while i < |handlers|
        invariant 0 <= i <= |handlers| == n
        invariant FirstFailure(n, failing, 0) == FirstFailure(n, failing, i)
        invariant handlers == Prepared(old(handlers), i)
        invariant calls == old(calls) + PrepareCalls(s, i)
        invariant initialized == old(initialized) && session == Some(s)
      {
        assert PrepareCalls(s, i) + [Prepare(i, s)] == PrepareCalls(s, i + 1);
        calls := calls + [Prepare(i, s)];
        if i in failing {
          return;
        }
        handlers := handlers[i := handlers[i].(initialized := true)];
        i := i + 1;
      }
      initialized := true;
    }

    /** Sends to every serving handler in list order; `ok` is false when a
        handler's call threw, which ends the broadcast. */
    method Broadcast(c: Capability, p: Payload, failing: set<nat>) returns (ok: bool)
      modifies this`calls
      ensures calls == old(calls) + BroadcastFrom(handlers, c, p, failing, 0)
      ensures ok <==> forall k :: |old(calls)| <= k < |calls| ==> calls[k].target !in failing
    {
      var i := 0;
      while i < |handlers|
        invariant 0 <= i <= |handlers|
        invariant calls + BroadcastFrom(handlers, c, p, failing, i) == old(calls) + BroadcastFrom(handlers, c, p, failing, 0)
        invariant |old(calls)| <= |calls|
        invariant forall k :: |old(calls)| <= k < |calls| ==> calls[k].target !in failing
      {
        if Serves(handlers[i], c) {
          calls := calls + [MakeAction(i, c, p)];
          if i in failing {
            assert BroadcastFrom(handlers, c, p, failing, i) == [MakeAction(i, c, p)];
            assert calls[|calls| - 1].target == i;
            return false;
          }
        }
        i := i + 1;
      }
      return true;
    }

    method SendText(text: string, failing: set<nat>) returns (ok: bool)
      modifies this`calls
      ensures calls == old(calls) + BroadcastFrom(handlers, Capability.SendText, TextPayload(text), failing, 0)
      ensures ok <==> forall k :: |old(calls)| <= k < |calls| ==> calls[k].target !in failing
    {
      ok := Broadcast(Capability.SendText, TextPayload(text), failing);
    }

    method SendSignal(name: string, value: string, failing: set<nat>) returns (ok: bool)
      modifies this`calls
      ensures calls == old(calls) + BroadcastFrom(handlers, Capability.SendSignal, SignalPayload(name, value), failing, 0)
      ensures ok <==> forall k :: |old(calls)| <= k < |calls| ==> calls[k].target !in failing
    {
      ok := Broadcast(Capability.SendSignal, SignalPayload(name, value), failing);
    }

    /** Streamed audio goes to the streaming handlers, single-shot audio to
        the others. */
    method SendAudio(bytes: seq<bv8>, streamed: bool, failing: set<nat>) returns (ok: bool)
      modifies this`calls
      ensures var c := if streamed then Capability.SendAudioStream else Capability.SendAudio;
        calls == old(calls) + BroadcastFrom(handlers, c, AudioPayload(bytes), failing, 0)
      ensures ok <==> forall k :: |old(calls)| <= k < |calls| ==> calls[k].target !in failing
    {
      var c := if streamed then Capability.SendAudioStream else Capability.SendAudio;
      ok := Broadcast(c, AudioPayload(bytes), failing);
    }

    /** Synthesises speech on the first serving handler only. */
    method ProcessTTS(text: string, failing: set<nat>) returns (ok: bool)
      modifies this`calls
      ensures calls == old(calls) + TtsCalls(handlers, TtsPayload(text))
      ensures ok <==> forall k :: |old(calls)| <= k < |calls| ==> calls[k].target !in failing
    {
      var i := 0;
      while i < |handlers|
        invariant 0 <= i <= |handlers|
        invariant FirstServing(handlers, Capability.ProcessTTS, 0) == FirstServing(handlers, Capability.ProcessTTS, i)
        invariant calls == old(calls)
      {
        if Serves(handlers[i], Capability.ProcessTTS) {
          calls := calls + [MakeAction(i, Capability.ProcessTTS, TtsPayload(text))];
          assert calls[|calls| - 1].target == i;
          return i !in failing;
        }
        i := i + 1;
      }
      return true;
    }

    /** Asks every handler, whatever its capabilities, to drop queued work. */
    method ClearProcessingQueue()
      modifies this`calls
      ensures calls == old(calls) + ClearCalls(|handlers|)
    {
      var i := 0;
      while i < |handlers|
        invariant 0 <= i <= |handlers|
        invariant calls == old(calls) + ClearCalls(i)
      {
        assert ClearCalls(i) + [ClearQueue(i)] == ClearCalls(i + 1);
        calls := calls + [ClearQueue(i)];
        i := i + 1;
      }
    }

    /** Disposes every handler, empties the list and resets the flag, so a
        later call on this dispatcher reaches no handler. */
    method Dispose()
      modifies this`calls, this`handlers, this`initialized
      ensures calls == old(calls) + DisposeCalls(|old(handlers)|)
      ensures handlers == [] && !initialized
    {
      var i := 0;
      while i < |handlers|
        invariant 0 <= i <= |handlers|
        invariant handlers == old(handlers)
        invariant calls == old(calls) + DisposeCalls(i)
      {
        assert DisposeCalls(i) + [DisposeHandler(i)] == DisposeCalls(i + 1);
        calls := calls + [DisposeHandler(i)];
        i := i + 1;
      }
      handlers := [];
      initialized := false;
    }
  }

  /** Once disposed, the dispatcher reaches no handler: a later send, a
      later speech request and a second disposal add nothing to the log. */
  method DisposedRoutesNowhere(sys: CommunicationSystem, text: string, failing: set<nat>) returns (ok: bool)
    modifies sys
    ensures sys.calls == old(sys.calls) + DisposeCalls(|old(sys.handlers)|)
    ensures ok && sys.handlers == [] && !sys.initialized
  {
    sys.Dispose();
    ghost var disposed := sys.calls;
    ok := sys.SendText(text, failing);
    var spoken := sys.ProcessTTS(text, failing);
    sys.Dispose();
    assert sys.calls == disposed;
  }
}
