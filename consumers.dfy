/** One WebSocket session of the audio streaming gateway
    (audio_streaming/consumers.py, class AudioStreamConsumer).

    The session's state is the streaming flag and the client id. Every
    `await` is one sequential step; sending appends to `outbox`, and a write
    to the AudioLog table appends to `logs` unless the store fails or the
    scope's client is None. The
    text-to-speech call and the log store are inputs (`Env`): what the call
    returns and whether the store accepts the record. */
module Consumers {

  import opened Wrappers
  import opened JsonValue
  import opened Synthesis

  const RESPONSE_TEXT: string := "Mensaje recibido correctamente"
  const VOICE_ID: string := "9BWtsMINqrJLrRacOk9x"
  const MODEL_ID: string := "eleven_multilingual_v2"
  const MEDIA_PROCESSED: string := "media_processed"
  const INIT_ERROR_TEXT: string := "Cliente ElevenLabs no inicializado"
  const JSON_ERROR_TEXT: string := "Formato JSON inválido"
  const UNKNOWN_EVENT_PREFIX: string := "Evento no reconocido: "
  const CHUNK_ERROR_PREFIX: string := "Error al procesar fragmentos de audio: "

  /** The request every media event sends to the synthesiser: a fixed
      acknowledgement, voice and model. */
  const SYNTH_REQUEST: Request := Request(RESPONSE_TEXT, VOICE_ID, MODEL_ID)

  datatype ErrorCode = InitError | JsonError | UnknownEvent | AudioError | AudioGenerationError | InternalError
  {
    function Name(): string
    {
      match this
      case InitError => "init_error"
      case JsonError => "json_error"
      case UnknownEvent => "unknown_event"
      case AudioError => "audio_error"
      case AudioGenerationError => "audio_generation_error"
      case InternalError => "internal_error"
    }
  }

  /** The JSON messages the session sends. */
  datatype Envelope =
    | ConnectionEstablished(clientId: Option<string>)
    | Ready(clientId: Option<string>)
    | Started
    | Stopped
    | Error(code: ErrorCode, message: string)
  {
    /** The `event` field. */
    function Event(): string
    {
      match this
      case ConnectionEstablished(_) => "connection_established"
      case Ready(_) => "ready"
      case Started => "started"
      case Stopped => "stopped"
      case Error(_, _) => "error"
    }

    /** The `message` field. */
    function Message(): string
    {
      match this
      case ConnectionEstablished(_) => "Conexión WebSocket establecida"
      case Ready(_) => "Listo para streaming"
      case Started => "Streaming iniciado"
      case Stopped => "Streaming detenido"
      case Error(_, m) => m
    }

    /** The `status` field, where there is one. */
    function Status(): Option<string>
    {
      match this
      case Started => Some("streaming")
      case Stopped => Some("stopped")
      case _ => None
    }
  }

  /** A text frame carrying a JSON envelope, or a binary frame. */
  datatype Outbound = Text(envelope: Envelope) | Binary(bytes: seq<byte>)

  function ErrorReply(code: ErrorCode, message: string): Outbound
  {
    Text(Error(code, message))
  }

  /** A text frame as `json.loads` sees it. */
  datatype Inbound = Malformed | Parsed(value: Json)

  /** `scope['client']`: absent, None, or the peer's `[host, port]`. */
  datatype Address = Address(host: string, port: int)
  datatype ScopeClient = NoClientEntry | ClientEntry(address: Option<Address>)

  /** A row of the AudioLog table as the session fills it. */
  datatype LogEntry = LogEntry(event: string, responseText: string, audioLength: real, ipAddress: Option<string>)

  /** What the outside world does during one inbound message: what
      `text_to_speech.convert` does for a request, and whether the log
      store accepts a record. */
  datatype Env = Env(convert: Request -> ConvertOutcome, storeOk: bool)

  /** The streaming flag after a message, and what the message sent and logged. */
  datatype Effect = Effect(streaming: bool, replies: seq<Outbound>, logged: seq<LogEntry>)

  /** `len(audio_bytes) / 1000.0` */
  function AudioLength(audio: seq<byte>): real
  {
    |audio| as real / 1000.0
  }

  /** `_save_audio_log`: the record it writes, if any. Reading the address
      of a `None` client raises, and so does a failing store; both are
      swallowed, so nothing is written and nothing is sent. */
  function LogWrite(text: string, length: real, scope: ScopeClient, storeOk: bool): seq<LogEntry>
  {
    match scope
    case NoClientEntry => if storeOk then [LogEntry(MEDIA_PROCESSED, text, length, None)] else []
    case ClientEntry(None) => []
    case ClientEntry(Some(a)) => if storeOk then [LogEntry(MEDIA_PROCESSED, text, length, Some(a.host))] else []
  }

  /** `_handle_media_data` (lines 101-162). */
  function MediaSpec(streaming: bool, data: map<string, Json>, scope: ScopeClient, env: Env): Effect
  {
    if !streaming || !Truthy(Get(data, "media", JNull)) then Effect(streaming, [], [])
    else match env.convert(SYNTH_REQUEST)
      case ConvertRaised(m) => Effect(streaming, [ErrorReply(AudioGenerationError, m)], [])
      case Returned(response) =>
        match Normalize(response)
        case JoinFailed(m) => Effect(streaming, [ErrorReply(AudioError, CHUNK_ERROR_PREFIX + m)], [])
        case Faulted(m) => Effect(streaming, [ErrorReply(AudioGenerationError, m)], [])
        case Audio(b) =>
          Effect(streaming, [Binary(b)], LogWrite(RESPONSE_TEXT, AudioLength(b), scope, env.storeOk))
  }

  /** The AttributeError `data.get` raises on a decoded value that is not an object. */
  function NoGetText(v: Json): string
  {
    "'" + TypeName(v) + "' object has no attribute 'get'"
  }

  /** `data.get('event', '')` */
  function EventLabel(data: map<string, Json>): Json
  {
    Get(data, "event", JStr(""))
  }

  /** `receive` (lines 53-81): the dispatch of one text frame. */
  function ReceiveSpec(streaming: bool, clientId: Option<string>, scope: ScopeClient, msg: Inbound, env: Env): Effect
  {
    match msg
    case Malformed => Effect(streaming, [ErrorReply(JsonError, JSON_ERROR_TEXT)], [])
    case Parsed(v) =>
      if !v.JObj? then Effect(streaming, [ErrorReply(InternalError, NoGetText(v))], [])
      else
        var event := EventLabel(v.fields);
        if event == JStr("start") then Effect(true, [Text(Started)], [])
        else if event == JStr("stop") then Effect(false, [Text(Stopped)], [])
        else if event == JStr("media") then MediaSpec(streaming, v.fields, scope, env)
        else if event == JStr("connected") then Effect(streaming, [Text(Ready(clientId))], [])
        else Effect(streaming, [ErrorReply(UnknownEvent, UNKNOWN_EVENT_PREFIX + Str(event))], [])
  }

  /** One inbound frame together with what the outside world does meanwhile. */
  datatype Step = Step(msg: Inbound, env: Env)

  /** A sequence of frames received in order on one connection. */
  function Run(streaming: bool, clientId: Option<string>, scope: ScopeClient, steps: seq<Step>): Effect
    decreases |steps|
  {
    if |steps| == 0 then Effect(streaming, [], [])
    else
      var first := ReceiveSpec(streaming, clientId, scope, steps[0].msg, steps[0].env);
      var rest := Run(first.streaming, clientId, scope, steps[1..]);
      Effect(rest.streaming, first.replies + rest.replies, first.logged + rest.logged)
  }

  predicate HasLabel(msg: Inbound, name: string)
  {
    msg.Parsed? && msg.value.JObj? && EventLabel(msg.value.fields) == JStr(name)
  }

  // -----------------------------------------------------------------------
  // Properties of the dispatch

  /** `start` turns streaming on and answers `started`/`streaming`; `stop`
      turns it off and answers `stopped`/`stopped`; neither depends on the
      prior state or writes a log. */
  lemma StartStop(streaming: bool, clientId: Option<string>, scope: ScopeClient, msg: Inbound, env: Env)
    ensures HasLabel(msg, "start") ==>
      ReceiveSpec(streaming, clientId, scope, msg, env) == Effect(true, [Text(Started)], [])
    ensures HasLabel(msg, "stop") ==>
      ReceiveSpec(streaming, clientId, scope, msg, env) == Effect(false, [Text(Stopped)], [])
    ensures Started.Status() == Some("streaming") && Stopped.Status() == Some("stopped")
    ensures Started.Message() == "Streaming iniciado" && Stopped.Message() == "Streaming detenido"
  {
  }

  /** `start` twice: streaming stays on, two identical `started` replies, no error. */
  lemma StartTwice(streaming: bool, clientId: Option<string>, scope: ScopeClient, a: Step, b: Step)
    requires HasLabel(a.msg, "start") && HasLabel(b.msg, "start")
    ensures Run(streaming, clientId, scope, [a, b]) == Effect(true, [Text(Started), Text(Started)], [])
  {
    assert [a, b][1..] == [b];
    assert [b][1..] == [];
    assert Run(true, clientId, scope, [b]) == Effect(true, [Text(Started)], []);
  }

  /** The faults of dispatch each send exactly one error and leave the
      streaming flag alone: unparseable JSON, a decoded value that is not
      an object, and an unknown or missing event label. */
  lemma DispatchFaults(streaming: bool, clientId: Option<string>, scope: ScopeClient, msg: Inbound, env: Env)
    ensures msg.Malformed? ==>
      ReceiveSpec(streaming, clientId, scope, msg, env) == Effect(streaming, [ErrorReply(JsonError, JSON_ERROR_TEXT)], [])
    ensures msg.Parsed? && !msg.value.JObj? ==>
      ReceiveSpec(streaming, clientId, scope, msg, env)
      == Effect(streaming, [ErrorReply(InternalError, NoGetText(msg.value))], [])
    ensures msg.Parsed? && msg.value.JObj? && "event" !in msg.value.fields ==>
      ReceiveSpec(streaming, clientId, scope, msg, env)
      == Effect(streaming, [ErrorReply(UnknownEvent, UNKNOWN_EVENT_PREFIX)], [])
    ensures msg.Parsed? && msg.value.JObj? &&
            EventLabel(msg.value.fields) !in {JStr("start"), JStr("stop"), JStr("media"), JStr("connected")} ==>
      ReceiveSpec(streaming, clientId, scope, msg, env)
      == Effect(streaming, [ErrorReply(UnknownEvent, UNKNOWN_EVENT_PREFIX + Str(EventLabel(msg.value.fields)))], [])
    ensures JsonError.Name() == "json_error" && InternalError.Name() == "internal_error"
    ensures UnknownEvent.Name() == "unknown_event"
  {
    if msg.Parsed? && msg.value.JObj? && "event" !in msg.value.fields {
      assert UNKNOWN_EVENT_PREFIX + Str(JStr("")) == UNKNOWN_EVENT_PREFIX;
    }
  }

  /** Every frame gets exactly one reply, except a media event that is
      ignored, which gets none; a frame that writes a log got exactly one
      binary frame, whose length the log records. */
  lemma OneReplyPerFrame(streaming: bool, clientId: Option<string>, scope: ScopeClient, msg: Inbound, env: Env)
    ensures var e := ReceiveSpec(streaming, clientId, scope, msg, env);
      |e.replies| <= 1 && |e.logged| <= 1 &&
      (|e.replies| == 0 <==>
         HasLabel(msg, "media") && (!streaming || !Truthy(Get(msg.value.fields, "media", JNull)))) &&
      (|e.logged| == 1 ==>
         e.replies[0].Binary? && e.logged[0].event == MEDIA_PROCESSED &&
         e.logged[0].responseText == RESPONSE_TEXT && e.logged[0].audioLength == AudioLength(e.replies[0].bytes))
  {
  }

  /** `connected` is answered with `ready` carrying the client id, and
      changes nothing. */
  lemma ConnectedIsReady(streaming: bool, clientId: Option<string>, scope: ScopeClient, msg: Inbound, env: Env)
    requires HasLabel(msg, "connected")
    ensures ReceiveSpec(streaming, clientId, scope, msg, env) == Effect(streaming, [Text(Ready(clientId))], [])
    ensures Ready(clientId).Event() == "ready"
    ensures Ready(clientId).Message() == "Listo para streaming"
  {
  }

  // -----------------------------------------------------------------------
  // Properties of the media pipeline

  /** A media event while not streaming, or with a missing or falsy `media`
      field, sends nothing, logs nothing and changes nothing. */
  lemma MediaIgnored(streaming: bool, data: map<string, Json>, scope: ScopeClient, env: Env)
    requires !streaming || "media" !in data || !Truthy(data["media"])
    ensures MediaSpec(streaming, data, scope, env) == Effect(streaming, [], [])
  {
  }

  /** Media that gets through: one binary frame with the normalised bytes,
      then at most one log, written exactly when the store accepts it and
      the peer address can be read. */
  lemma MediaDelivered(streaming: bool, data: map<string, Json>, scope: ScopeClient, env: Env, audio: seq<byte>)
    requires streaming && "media" in data && Truthy(data["media"])
    requires env.convert(SYNTH_REQUEST).Returned? && Normalize(env.convert(SYNTH_REQUEST).response) == Audio(audio)
    ensures MediaSpec(streaming, data, scope, env).replies == [Binary(audio)]
    ensures MediaSpec(streaming, data, scope, env).streaming == streaming
    ensures |MediaSpec(streaming, data, scope, env).logged| == 1 <==> env.storeOk && scope != ClientEntry(None)
    ensures MediaSpec(streaming, data, scope, env).logged != [] ==>
      MediaSpec(streaming, data, scope, env).logged
      == [LogEntry(MEDIA_PROCESSED, RESPONSE_TEXT, AudioLength(audio),
                   if scope.ClientEntry? then Some(scope.address.value.host) else None)]
  {
  }

  /** The two error categories of the pipeline: a fault of the call, of
      `read()` or of `bytes()` is `audio_generation_error`, a fault of the
      join is `audio_error`. Neither sends audio or writes a log. */
  lemma MediaFaults(streaming: bool, data: map<string, Json>, scope: ScopeClient, env: Env)
    requires streaming && "media" in data && Truthy(data["media"])
    ensures env.convert(SYNTH_REQUEST).ConvertRaised? ==>
      MediaSpec(streaming, data, scope, env)
      == Effect(streaming, [ErrorReply(AudioGenerationError, env.convert(SYNTH_REQUEST).message)], [])
    ensures env.convert(SYNTH_REQUEST).Returned? && Normalize(env.convert(SYNTH_REQUEST).response).Faulted? ==>
      MediaSpec(streaming, data, scope, env)
      == Effect(streaming, [ErrorReply(AudioGenerationError, Normalize(env.convert(SYNTH_REQUEST).response).message)], [])
    ensures env.convert(SYNTH_REQUEST).Returned? && Normalize(env.convert(SYNTH_REQUEST).response).JoinFailed? ==>
      MediaSpec(streaming, data, scope, env)
      == Effect(streaming, [ErrorReply(AudioError, CHUNK_ERROR_PREFIX + Normalize(env.convert(SYNTH_REQUEST).response).message)], [])
    ensures AudioError.Name() == "audio_error" && AudioGenerationError.Name() == "audio_generation_error"
  {
  }

  /** A failing log store changes nothing the client sees. */
  lemma LogFailureSwallowed(streaming: bool, data: map<string, Json>, scope: ScopeClient, env: Env)
    ensures MediaSpec(streaming, data, scope, env.(storeOk := false)).replies == MediaSpec(streaming, data, scope, env).replies
    ensures MediaSpec(streaming, data, scope, env.(storeOk := false)).logged == []
  {
  }

  /** A raw `bytes` result from the synthesiser is joined as ints, which
      fails: one `audio_error`, no audio, no log (unless it is empty). */
  lemma RawBytesGiveAudioError(streaming: bool, data: map<string, Json>, scope: ScopeClient, env: Env, b: seq<byte>)
    requires streaming && "media" in data && Truthy(data["media"])
    requires env.convert(SYNTH_REQUEST) == Returned(BytesObject(b)) && |b| > 0
    ensures MediaSpec(streaming, data, scope, env)
            == Effect(streaming, [ErrorReply(AudioError, CHUNK_ERROR_PREFIX + TypeErrorText(0, "int"))], [])
  {
  }

  // -----------------------------------------------------------------------
  // Properties of whole conversations

  predicate AllMedia(steps: seq<Step>)
  {
    forall i :: 0 <= i < |steps| ==> HasLabel(steps[i].msg, "media")
  }

  /** Media events while not streaming, however many, are all silent. */
  lemma {:induction false} IdleMediaSilent(clientId: Option<string>, scope: ScopeClient, steps: seq<Step>)
    requires AllMedia(steps)
    ensures Run(false, clientId, scope, steps) == Effect(false, [], [])
  {
    if |steps| > 0 {
      assert HasLabel(steps[0].msg, "media");
      IdleMediaSilent(clientId, scope, steps[1..]);
    }
  }

  /** After `stop`, whatever the prior state, media events are no-ops. */
  lemma StopSilencesMedia(streaming: bool, clientId: Option<string>, scope: ScopeClient, stop: Step, steps: seq<Step>)
    requires HasLabel(stop.msg, "stop") && AllMedia(steps)
    ensures Run(streaming, clientId, scope, [stop] + steps) == Effect(false, [Text(Stopped)], [])
  {
    assert ([stop] + steps)[1..] == steps;
    IdleMediaSilent(clientId, scope, steps);
  }

  /** A malformed frame does not end the session: a `start` after it works. */
  lemma MalformedThenStart(streaming: bool, clientId: Option<string>, scope: ScopeClient, bad: Step, start: Step)
    requires bad.msg.Malformed? && HasLabel(start.msg, "start")
    ensures Run(streaming, clientId, scope, [bad, start])
            == Effect(true, [ErrorReply(JsonError, JSON_ERROR_TEXT), Text(Started)], [])
  {
    assert [bad, start][1..] == [start];
    assert [start][1..] == [];
    assert Run(streaming, clientId, scope, [start]) == Effect(true, [Text(Started)], []);
  }

  /** start, media, stop: `started`, one binary frame, `stopped`, and one
      `media_processed` log holding the peer's host, if the scope has one. */
  lemma StartMediaStop(clientId: Option<string>, scope: ScopeClient, start: Step, media: Step, stop: Step, audio: seq<byte>)
    requires scope != ClientEntry(None)
    requires HasLabel(start.msg, "start") && HasLabel(stop.msg, "stop") && HasLabel(media.msg, "media")
    requires "media" in media.msg.value.fields && Truthy(media.msg.value.fields["media"])
    requires media.env.storeOk && media.env.convert(SYNTH_REQUEST).Returned?
    requires Normalize(media.env.convert(SYNTH_REQUEST).response) == Audio(audio)
    ensures Run(false, clientId, scope, [start, media, stop])
            == Effect(false, [Text(Started), Binary(audio), Text(Stopped)],
                      [LogEntry(MEDIA_PROCESSED, RESPONSE_TEXT, AudioLength(audio),
                                if scope.ClientEntry? then Some(scope.address.value.host) else None)])
  {
    var steps := [start, media, stop];
    assert steps[1..] == [media, stop];
    assert [media, stop][1..] == [stop];
    assert [stop][1..] == [];
    var ip := if scope.ClientEntry? then Some(scope.address.value.host) else None;
    var log := [LogEntry(MEDIA_PROCESSED, RESPONSE_TEXT, AudioLength(audio), ip)];
    MediaDelivered(true, media.msg.value.fields, scope, media.env, audio);
    assert Run(true, clientId, scope, [stop]) == Effect(false, [Text(Stopped)], []);
    assert Run(true, clientId, scope, [media, stop]) == Effect(false, [Binary(audio), Text(Stopped)], log);
  }

  // -----------------------------------------------------------------------
  // The consumer object

  class AudioStreamConsumer {
    /** Whether the ElevenLabs client was built in `__init__` (`self.client`). */
    const synthesisReady: bool
    /** The connection's ASGI scope entry for the peer. */
    const scope: ScopeClient

    var isStreaming: bool
    var clientId: Option<string>
    /** The connection was closed by the session or by the peer. */
    var closed: bool
    /** Frames sent, oldest first. */
    var outbox: seq<Outbound>
    /** AudioLog rows written by this session, oldest first. */
    var logs: seq<LogEntry>

    /** `__init__`: streaming off, no client id yet. */
    constructor (synthesisReady: bool, scope: ScopeClient)
      ensures this.synthesisReady == synthesisReady && this.scope == scope
      ensures !isStreaming && clientId == None && !closed && outbox == [] && logs == []
    {
      this.synthesisReady := synthesisReady;
      this.scope := scope;
      isStreaming := false;
      clientId := None;
      closed := false;
      outbox := [];
      logs := [];
    }

    /** `send`: one frame on the connection. */
    method Send(frame: Outbound)
      modifies this`outbox
      ensures outbox == old(outbox) + [frame]
    {
      outbox := outbox + [frame];
    }

    /** `send_json` */
    method SendJson(envelope: Envelope)
      modifies this`outbox
      ensures outbox == old(outbox) + [Text(envelope)]
    {
      Send(Text(envelope));
    }

    /** `_send_error` */
    method SendError(code: ErrorCode, message: string)
      modifies this`outbox
      ensures outbox == old(outbox) + [ErrorReply(code, message)]
    {
      SendJson(Error(code, message));
    }

    /** `connect` (lines 32-46), given the id the connection gets. Without a
        synthesis client it sends one `init_error` and closes. */
    method Connect(id: string)
      modifies this
      ensures clientId == Some(id)
      ensures !synthesisReady ==> outbox == old(outbox) + [ErrorReply(InitError, INIT_ERROR_TEXT)] && closed
      ensures InitError.Name() == "init_error"
      ensures ConnectionEstablished(Some(id)).Message() == "Conexión WebSocket establecida"
      ensures synthesisReady ==>
        outbox == old(outbox) + [Text(ConnectionEstablished(Some(id)))] && closed == old(closed)
      ensures isStreaming == old(isStreaming) && logs == old(logs)
    {
      clientId := Some(id);
      if !synthesisReady {
        SendError(InitError, INIT_ERROR_TEXT);
        closed := true;
        return;
      }
      SendJson(ConnectionEstablished(clientId));
    }

    /** `disconnect` (lines 48-51): streaming off, the session ends. */
    method Disconnect()
      modifies this
      ensures !isStreaming && closed
      ensures clientId == old(clientId) && outbox == old(outbox) && logs == old(logs)
    {
      isStreaming := false;
      closed := true;
    }

    /** `_handle_start_stream` */
    method HandleStartStream()
      modifies this
      ensures isStreaming && outbox == old(outbox) + [Text(Started)]
      ensures clientId == old(clientId) && closed == old(closed) && logs == old(logs)
    {
      isStreaming := true;
      SendJson(Started);
    }

    /** `_handle_stop_stream` */
    method HandleStopStream()
      modifies this
      ensures !isStreaming && outbox == old(outbox) + [Text(Stopped)]
      ensures clientId == old(clientId) && closed == old(closed) && logs == old(logs)
    {
      isStreaming := false;
      SendJson(Stopped);
    }

    /** `_save_audio_log` (lines 164-180): write one record, swallowing any fault. */
    method SaveAudioLog(responseText: string, audioLength: real, storeOk: bool)
      modifies this`logs
      ensures logs == old(logs) + LogWrite(responseText, audioLength, scope, storeOk)
    {
      var ip: Option<string>;
      match scope {
        case NoClientEntry =>
          ip := None;
        case ClientEntry(None) =>
          return;
        case ClientEntry(Some(a)) =>
          ip := Some(a.host);
      }
      if storeOk {
        logs := logs + [LogEntry(MEDIA_PROCESSED, responseText, audioLength, ip)];
      }
    }

    /** `_handle_media_data` (lines 101-162). */
    method HandleMediaData(data: map<string, Json>, env: Env)
      modifies this
      ensures var e := MediaSpec(old(isStreaming), data, scope, env);
        outbox == old(outbox) + e.replies && logs == old(logs) + e.logged
      ensures isStreaming == old(isStreaming) && clientId == old(clientId) && closed == old(closed)
    {
      if !isStreaming {
        return;
      }
      var media := Get(data, "media", JNull);
      if !Truthy(media) {
        return;
      }
      var responseText := RESPONSE_TEXT;
      var outcome := env.convert(Request(responseText, VOICE_ID, MODEL_ID));
      if outcome.ConvertRaised? {
        SendError(AudioGenerationError, outcome.message);
        return;
      }
      var response := outcome.response;
      var audio: seq<byte>;
      if response.read.Some? {
        match response.read.value {
          case Raised(m) =>
            SendError(AudioGenerationError, m);
            return;
          case Produced(b) =>
            audio := b;
        }
      } else if response.iter.Some? {
        var joined := JoinItems(response.iter.value);
        match joined {
          case JoinFault(m) =>
            SendError(AudioError, CHUNK_ERROR_PREFIX + m);
            return;
          case Joined(b) =>
            audio := b;
        }
      } else {
        match response.conversion {
          case Raised(m) =>
            SendError(AudioGenerationError, m);
            return;
          case Produced(b) =>
            audio := b;
        }
      }
      Send(Binary(audio));
      SaveAudioLog(responseText, AudioLength(audio), env.storeOk);
    }

    /** `receive` (lines 53-81). The channel layer delivers no frame once
        the connection is closed. */
    method Receive(msg: Inbound, env: Env)
      requires !closed
      modifies this
      ensures var e := ReceiveSpec(old(isStreaming), clientId, scope, msg, env);
        isStreaming == e.streaming && outbox == old(outbox) + e.replies && logs == old(logs) + e.logged
      ensures clientId == old(clientId) && closed == old(closed)
    {
      if msg.Malformed? {
        SendError(JsonError, JSON_ERROR_TEXT);
        return;
      }
      var data := msg.value;
      if !data.JObj? {
        SendError(InternalError, NoGetText(data));
        return;
      }
      var event := EventLabel(data.fields);
      if event == JStr("start") {
        HandleStartStream();
      } else if event == JStr("stop") {
        HandleStopStream();
      } else if event == JStr("media") {
        HandleMediaData(data.fields, env);
      } else if event == JStr("connected") {
        SendJson(Ready(clientId));
      } else {
        SendError(UnknownEvent, UNKNOWN_EVENT_PREFIX + Str(event));
      }
    }
  }
}
