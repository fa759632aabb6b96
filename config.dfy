/** The being configuration (version 3 of the configuration document):
    the deserialised engine lists, their normalisation into the bindings the
    communication dispatcher consumes, and the read-only projections the
    dispatcher sees. */
module Config {
  import opened Wrappers

  /** Transport protocols a connection handler entry may name. */
  datatype ConnectionProtocol = Local | Http | Ws | SocketIo | WsEndless

  /** Kind of conversation engine a configuration declares. */
  datatype EngineType = Conversation | Room

  /** The exceptions normalisation can raise. */
  datatype ConfigError =
    | UnknownProtocol(name: string)  // protocol string outside the closed set
    | MissingHandlerList             // an STT or TTS engine without a handler list

  /** One entry of an engine's `connectionHandlers` list, as deserialised. */
  datatype ConnectionHandler = ConnectionHandler(path: string, protocol: string)

  /** An engine entry; its handler list may be absent from the document. */
  datatype Engine = Engine(connectionHandlers: Option<seq<ConnectionHandler>>)

  /** The `engines` object: conversation, speech-to-text and text-to-speech. */
  datatype Engines = Engines(conversation: Option<Engine>, stt: Option<Engine>, tts: Option<Engine>)

  datatype Profile = Profile(id: Option<string>)

  /** A normalised fallback binding (the STT or TTS data). */
  datatype BindingData = BindingData(protocol: ConnectionProtocol, path: string)

  /** A normalised conversation binding. `RoomData` is the legacy room
      binding, which only an older configuration format produces. */
  datatype ConversationData =
    | ConversationData(protocol: ConnectionProtocol, path: string)
    | RoomData(protocol: ConnectionProtocol, path: string)

  /** What the dispatcher reads from a configuration. */
  datatype BeingBindings = BeingBindings(
    engine: EngineType,
    conversationData: seq<ConversationData>,
    fallbackStt: Option<BindingData>,
    fallbackTts: Option<BindingData>,
    locationId: Option<string>)

  /** A normalisation step's result: what it produced, and the exception
      it raised, if any. */
  datatype Converted<T> = Converted(data: T, error: Option<ConfigError>)

  /** The wire name of each protocol. */
  function ProtocolName(p: ConnectionProtocol): string
  {
    match p
    case Local => "local"
    case Http => "http"
    case Ws => "ws"
    case SocketIo => "socket-io"
    case WsEndless => "ws-endless"
  }

  /** Maps a protocol string to its enum value; any other string is an error. */
  function GetProtocol(name: string): (r: Result<ConnectionProtocol, ConfigError>)
    ensures r.Success? <==> exists p :: ProtocolName(p) == name
    ensures r.Success? ==> ProtocolName(r.value) == name
    ensures r.Failure? ==> r.error == UnknownProtocol(name)
  {
    if name == ProtocolName(Local) then Success(Local)
    else if name == ProtocolName(Http) then Success(Http)
    else if name == ProtocolName(Ws) then Success(Ws)
    else if name == ProtocolName(SocketIo) then Success(SocketIo)
    else if name == ProtocolName(WsEndless) then Success(WsEndless)
    else
      assert forall p :: ProtocolName(p) != name;
      Failure(UnknownProtocol(name))
  }

  /** Parsing the wire name of a protocol gives that protocol back. */
  lemma ProtocolRoundTrip(p: ConnectionProtocol)
    ensures GetProtocol(ProtocolName(p)) == Success(p)
  {
  }

  /** The conversation handler list, an absent engine or list read as empty. */
  function ConversationHandlers(engines: Option<Engines>): (hs: seq<ConnectionHandler>)
    ensures engines.None? || engines.value.conversation.None? ==> hs == []
  {
    match engines
    case None => []
    case Some(e) =>
      match e.conversation
      case None => []
      case Some(c) =>
        match c.connectionHandlers
        case None => []
        case Some(hs) => hs
  }

  /** Converting a handler list one entry at a time, as the loop does: the
      data of the entries converted before the first unknown protocol, and the
      error that stopped the loop, if any. */
  function ConvertAll(hs: seq<ConnectionHandler>): Converted<seq<ConversationData>>
  {
    if hs == [] then Converted([], None)
    else
      match GetProtocol(hs[0].protocol)
      case Failure(e) => Converted([], Some(e))
      case Success(p) =>
        var rest := ConvertAll(hs[1..]);
        Converted([ConversationData(p, hs[0].path)] + rest.data, rest.error)
  }

  /** Converting one more entry after an error-free prefix. */
  lemma {:induction false} ConvertAllSnoc(hs: seq<ConnectionHandler>, h: ConnectionHandler)
    requires ConvertAll(hs).error.None?
    ensures GetProtocol(h.protocol).Failure? ==>
      ConvertAll(hs + [h]) == Converted(ConvertAll(hs).data, Some(GetProtocol(h.protocol).error))
    ensures GetProtocol(h.protocol).Success? ==>
      ConvertAll(hs + [h]) == Converted(ConvertAll(hs).data + [ConversationData(GetProtocol(h.protocol).value, h.path)], None)
  {
    if hs == [] {
      assert [] + [h] == [h];
      assert [h][1..] == [];
      if GetProtocol(h.protocol).Success? {
        var d := ConversationData(GetProtocol(h.protocol).value, h.path);
        assert ConvertAll([h]).data == [d] + [];
        assert [d] + [] == [] + [d];
      }
    } else {
      assert (hs + [h])[0] == hs[0];
      assert (hs + [h])[1..] == hs[1..] + [h];
      assert GetProtocol(hs[0].protocol).Success?;
      ConvertAllSnoc(hs[1..], h);
      var d0 := ConversationData(GetProtocol(hs[0].protocol).value, hs[0].path);
      assert ConvertAll(hs + [h]).data == [d0] + ConvertAll(hs[1..] + [h]).data;
      assert ConvertAll(hs).data == [d0] + ConvertAll(hs[1..]).data;
      if GetProtocol(h.protocol).Success? {
        var d := ConversationData(GetProtocol(h.protocol).value, h.path);
        assert [d0] + (ConvertAll(hs[1..]).data + [d]) == ([d0] + ConvertAll(hs[1..]).data) + [d];
      }
    }
  }

  /** What the conversion loop produces: one entry per converted handler, in
      order, with that handler's mapped protocol and path; the loop stops at
      the first unknown protocol and reports exactly that string. */
  lemma {:induction false} ConvertAllMeaning(hs: seq<ConnectionHandler>)
    ensures |ConvertAll(hs).data| <= |hs|
    ensures forall i :: 0 <= i < |ConvertAll(hs).data| ==>
      GetProtocol(hs[i].protocol).Success? &&
      ConvertAll(hs).data[i] == ConversationData(GetProtocol(hs[i].protocol).value, hs[i].path)
    ensures ConvertAll(hs).error.None? <==> forall i :: 0 <= i < |hs| ==> GetProtocol(hs[i].protocol).Success?
    ensures ConvertAll(hs).error.None? ==> |ConvertAll(hs).data| == |hs|
    ensures ConvertAll(hs).error.Some? ==>
      |ConvertAll(hs).data| < |hs| &&
      ConvertAll(hs).error == Some(UnknownProtocol(hs[|ConvertAll(hs).data|].protocol))
  {
    if hs != [] {
      ConvertAllMeaning(hs[1..]);
      if GetProtocol(hs[0].protocol).Success? {
        var rest := ConvertAll(hs[1..]);
        assert ConvertAll(hs).data == [ConversationData(GetProtocol(hs[0].protocol).value, hs[0].path)] + rest.data;
        forall i | 1 <= i < |hs| ensures hs[i] == hs[1..][i - 1] { }
      }
    }
  }

  /** The data an STT or TTS engine contributes: only its first handler is
      read; an absent engine or an empty list keeps the current data; an
      engine without a list raises an error, as does an unknown protocol. */
  function FirstHandlerData(engine: Option<Engine>, current: Option<BindingData>): Converted<Option<BindingData>>
  {
    match engine
    case None => Converted(current, None)
    case Some(e) =>
      match e.connectionHandlers
      case None => Converted(current, Some(MissingHandlerList))
      case Some(hs) =>
        if hs == [] then Converted(current, None)
        else
          match GetProtocol(hs[0].protocol)
          case Failure(err) => Converted(current, Some(err))
          case Success(p) => Converted(Some(BindingData(p, hs[0].path)), None)
  }

  /** The normalised fields `Initialize` writes. */
  datatype Normalised = Normalised(
    conversationData: seq<ConversationData>,
    sttData: Option<BindingData>,
    ttsData: Option<BindingData>)

  /** The effect of one `Initialize` call on the normalised fields, and the
      exception it raises, if any: the conversation list first (appending),
      then STT, then TTS, each step skipped once an earlier one has raised. */
  function AfterInitialize(engines: Option<Engines>, s: Normalised): Converted<Normalised>
  {
    var conv := ConvertAll(ConversationHandlers(engines));
    var s1 := s.(conversationData := s.conversationData + conv.data);
    if conv.error.Some? then Converted(s1, conv.error)
    else
      var stt := FirstHandlerData(if engines.Some? then engines.value.stt else None, s.sttData);
      var s2 := s1.(sttData := stt.data);
      if stt.error.Some? then Converted(s2, stt.error)
      else
        var tts := FirstHandlerData(if engines.Some? then engines.value.tts else None, s.ttsData);
        Converted(s2.(ttsData := tts.data), tts.error)
  }

  /** A completed `Initialize` appends exactly one entry per conversation
      handler, so it is not idempotent: a second completed call appends the
      same entries again. */
  lemma InitializeAppendsPerCall(engines: Option<Engines>, s: Normalised)
    requires AfterInitialize(engines, s).error.None?
    ensures |AfterInitialize(engines, s).data.conversationData|
         == |s.conversationData| + |ConversationHandlers(engines)|
    ensures ConversationHandlers(engines) != [] ==>
      AfterInitialize(engines, AfterInitialize(engines, s).data).data.conversationData != AfterInitialize(engines, s).data.conversationData
  {
    ConvertAllMeaning(ConversationHandlers(engines));
    var s1 := AfterInitialize(engines, s).data;
    assert AfterInitialize(engines, s1).data.conversationData == s1.conversationData + ConvertAll(ConversationHandlers(engines)).data;
  }

  /** STT and TTS data come from the first handler of their engine only:
      whatever follows it is ignored. A known protocol gives that handler's
      binding; an unknown one raises and keeps the previous data. */
  lemma FallbackFromFirstHandlerOnly(current: Option<BindingData>, h: ConnectionHandler, rest: seq<ConnectionHandler>)
    ensures FirstHandlerData(Some(Engine(Some([h] + rest))), current) == FirstHandlerData(Some(Engine(Some([h]))), current)
    ensures var r := FirstHandlerData(Some(Engine(Some([h] + rest))), current);
      && (r.error.None? <==> exists p :: ProtocolName(p) == h.protocol)
      && (r.error.None? ==> r.data.Some? && ProtocolName(r.data.value.protocol) == h.protocol && r.data.value.path == h.path)
      && (r.error.Some? ==> r.data == current && r.error == Some(UnknownProtocol(h.protocol)))
  {
  }

  /** An absent STT/TTS engine or an empty handler list keeps the previous
      data; an engine without a handler list raises. */
  lemma NoFirstHandlerKeepsData(engine: Option<Engine>, current: Option<BindingData>)
    ensures engine.None? || engine.value.connectionHandlers == Some([]) ==>
      FirstHandlerData(engine, current) == Converted(current, None)
    ensures engine.Some? && engine.value.connectionHandlers.None? ==>
      FirstHandlerData(engine, current) == Converted(current, Some(MissingHandlerList))
  {
  }

  /** The version-3 configuration object: its deserialised fields and the
      normalised fields `Initialize` fills in. */
  class ApiBeingConfig {
    var profile: Option<Profile>
    var engines: Option<Engines>
    var conversationData: seq<ConversationData>
    var sttData: Option<BindingData>
    var ttsData: Option<BindingData>

    /** A freshly deserialised configuration, not yet initialised. */
    constructor (profile: Option<Profile>, engines: Option<Engines>)
      ensures this.profile == profile && this.engines == engines
      ensures conversationData == [] && sttData == None && ttsData == None
    {
      this.profile := profile;
      this.engines := engines;
      conversationData := [];
      sttData := None;
      ttsData := None;
    }

    function State(): Normalised
      reads this
    {
      Normalised(conversationData, sttData, ttsData)
    }

    /** The location id: the profile's id, absent when there is no profile. */
    function LocationId(): (id: Option<string>)
      reads this
      ensures profile.None? ==> id.None?
      ensures profile.Some? ==> id == profile.value.id
    {
      match profile
      case None => None
      case Some(p) => p.id
    }

    /** The dispatcher's view; the conversation engine is always the
        conversation kind in this configuration format. */
    function Bindings(): (b: BeingBindings)
      reads this
      ensures b.engine == Conversation
      ensures b.conversationData == conversationData
      ensures b.fallbackStt == sttData && b.fallbackTts == ttsData
      ensures b.locationId == LocationId()
    {
      BeingBindings(Conversation, conversationData, sttData, ttsData, LocationId())
    }

    /** Normalises the engine lists. Returns the exception raised, if any;
        the entries appended before it stay appended. */
    method Initialize() returns (error: Option<ConfigError>)
      modifies this`conversationData, this`sttData, this`ttsData
      ensures Converted(State(), error) == AfterInitialize(engines, old(State()))
    {
      error := AppendConversationData(ConversationHandlers(engines));
      if error.Some? {
        return;
      }
      var stt := FirstHandlerData(if engines.Some? then engines.value.stt else None, sttData);
      sttData := stt.data;
      if stt.error.Some? {
        return stt.error;
      }
      var tts := FirstHandlerData(if engines.Some? then engines.value.tts else None, ttsData);
      ttsData := tts.data;
      return tts.error;
    }

    /** The conversation loop of `Initialize`: appends one entry per handler
        until a protocol is unknown, which it returns. */
    method AppendConversationData(handlers: seq<ConnectionHandler>) returns (error: Option<ConfigError>)
      modifies this`conversationData
      ensures conversationData == old(conversationData) + ConvertAll(handlers).data
      ensures error == ConvertAll(handlers).error
    {
      var i := 0;
      while i < |handlers|
        invariant 0 <= i <= |handlers|
        invariant ConvertAll(handlers[..i]).error.None?
        invariant conversationData == old(conversationData) + ConvertAll(handlers[..i]).data
      {
        assert handlers[..i + 1] == handlers[..i] + [handlers[i]];
        ConvertAllSnoc(handlers[..i], handlers[i]);
        var protocol := GetProtocol(handlers[i].protocol);
        if protocol.Failure? {
          assert handlers == handlers[..i + 1] + handlers[i + 1..];
          PrefixErrorStops(handlers[..i + 1], handlers[i + 1..]);
          return Some(protocol.error);
        }
        conversationData := conversationData + [ConversationData(protocol.value, handlers[i].path)];
        i := i + 1;
      }
      assert handlers[..i] == handlers;
      return None;
    }
  }

  /** Once a prefix raises, the entries after it are never converted. */
  lemma {:induction false} PrefixErrorStops(a: seq<ConnectionHandler>, b: seq<ConnectionHandler>)
    requires ConvertAll(a).error.Some?
    ensures ConvertAll(a + b) == ConvertAll(a)
  {
    assert a != [];
    assert (a + b)[0] == a[0];
    if GetProtocol(a[0].protocol).Success? {
      assert (a + b)[1..] == a[1..] + b;
      PrefixErrorStops(a[1..], b);
    }
  }
}
