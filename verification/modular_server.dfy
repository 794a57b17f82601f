/** The modular Azure VoiceLive bridge of src/server-voicelive.js: the
    configuration, prompt, scraper, intake and storage helpers are separate
    modules; audio is forwarded as soon as the AI socket is open, without a
    queue, and there is no barge-in cancel. */
module ModularServer {
  import opened Js
  import opened Protocol
  import Intake
  import Prompt
  import WebsiteScraper
  import opened VoiceLiveConfig

  const StorageVar: string := "AZURE_STORAGE_CONNECTION_STRING"

  /** The transcript text of `response.audio_transcript.done` and
      `conversation.item.created`: the first truthy of the event's
      transcript, the item's formatted transcript and the item's first text
      part. */
  function SpokenText(transcript: Option<string>, item: Option<Item>): (r: Option<string>)
    ensures Present(transcript) ==> r == transcript
    ensures !Present(transcript) && Present(ItemTranscript(item)) ==> r == ItemTranscript(item)
    ensures !Present(transcript) && !Present(ItemTranscript(item)) ==> r == ItemText(item)
    ensures Present(r) ==> r == transcript || r == ItemTranscript(item) || r == ItemText(item)
  {
    Or(Or(transcript, ItemTranscript(item)), ItemText(item))
  }

  /** The role of such an entry: the first truthy of the event's role and
      the item's role, else "assistant"; never empty. */
  function SpeakerRole(role: Option<string>, item: Option<Item>): (r: string)
    ensures r != ""
    ensures Present(role) ==> r == role.value
    ensures !Present(role) && Present(ItemRole(item)) ==> r == ItemRole(item).value
    ensures !Present(role) && !Present(ItemRole(item)) ==> r == "assistant"
  {
    Or(Or(role, ItemRole(item)), Some("assistant")).value
  }

  /** A snapshot of one connection's state, including its intake record's
      fields. */
  datatype CallState = CallState(
    callSid: Option<string>, streamSid: Option<string>, ai: AiSocket,
    audioBuffer: seq<string>, transcript: seq<Utterance>, intake: Intake.Record,
    toAi: seq<AiMessage>, toTwilio: seq<TwilioFrame>)

  /** The module-level state: the `sessions` Map, the saves made, whether
      initBlobStorage found a connection string, GRACE_PROMPT, and the
      environment and JSON.parse the handlers use. */
  class Server {
    var sessions: map<Option<string>, Connection>
    var saved: seq<SaveRecord>
    const storage: bool
    const prompt: string
    const env: Env
    const parse: string -> Option<Value>

    /** Module load: the container client exists exactly when the storage
        connection string is set. */
    constructor (env: Env, parse: string -> Option<Value>)
      ensures storage <==> Present(Lookup(env, StorageVar))
      ensures prompt == Prompt.GracePrompt
      ensures this.env == env && this.parse == parse
      ensures sessions == map[] && saved == []
    {
      storage := Present(Lookup(env, StorageVar));
      prompt := Prompt.GracePrompt;
      this.env := env;
      this.parse := parse;
      sessions := map[];
      saved := [];
    }
  }

  /** What saveCallData records for a registry entry, which holds the
      connection's own arrays and intake object. */
  function EntryRecord(callSid: Option<string>, c: Connection): (r: SaveRecord)
    reads c, c.intake
    ensures r.callSid == callSid && r.duration == |c.audioBuffer|
    ensures r.transcript == c.transcript && r.intake == c.intake.Fields()
  {
    SaveRecord(callSid, |c.audioBuffer|, c.transcript, c.intake.Fields())
  }

  /** The closure state of one `/media-stream` connection. */
  class Connection {
    const server: Server
    const intake: Intake.IntakeRecord
    var callSid: Option<string>
    var streamSid: Option<string>
    var ai: AiSocket
    var audioBuffer: seq<string>
    var transcript: seq<Utterance>
    var toAi: seq<AiMessage>
    var toTwilio: seq<TwilioFrame>

    /** Every handled frame has been sent, once and in order; no cancel is
        ever sent; with an invalid configuration no AI socket exists and no
        frame is handled. */
    ghost predicate Valid()
      reads this
    {
      && Payloads(toAi) == audioBuffer
      && CountType(toAi, "response.cancel") == 0
      && (ValidateConfig(server.env).Err? ==> ai.NoSocket? && audioBuffer == [])
    }

    function State(): CallState
      reads this, intake
    {
      CallState(callSid, streamSid, ai, audioBuffer, transcript, intake.Fields(), toAi, toTwilio)
    }

    /** A Twilio socket connects; createIntakeData() gives five nulls. */
    constructor (server: Server)
      ensures this.server == server && fresh(intake)
      ensures State() == CallState(None, None, NoSocket, [], [], Intake.AllNull, [], [])
      ensures Valid()
    {
      this.server := server;
      Intake.InitialOfNothing();
      intake := new Intake.IntakeRecord.Create(map[]);
      callSid := None;
      streamSid := None;
      ai := NoSocket;
      audioBuffer := [];
      transcript := [];
      toAi := [];
      toTwilio := [];
    }

    // -------------------------------------------------------------------
    // Twilio events.

    /** `start`: records the ids, pre-fills the phone from a truthy `from`,
        registers this connection, then validates the configuration: when
        it is valid the AI socket is opened on the configured URL, and when
        it is not one error frame carrying the validation message goes to
        Twilio. */
    method OnStart(sid: Option<string>, stream: Option<string>, from: Option<string>)
      requires Valid()
      modifies this, intake, server
      ensures Valid()
      ensures ValidateConfig(server.env).Ok? ==> GetWebSocketUrl(server.env).Ok? && State() == old(State()).(
        callSid := sid, streamSid := stream, ai := Socket(GetWebSocketUrl(server.env).value, Connecting),
        intake := if Present(from) then old(intake.Fields()).(phone := Str(from.value)) else old(intake.Fields()))
      ensures ValidateConfig(server.env).Err? ==> State() == old(State()).(
        callSid := sid, streamSid := stream,
        toTwilio := old(toTwilio) + [ErrorOut(ValidateConfig(server.env).message)],
        intake := if Present(from) then old(intake.Fields()).(phone := Str(from.value)) else old(intake.Fields()))
      ensures server.sessions == old(server.sessions)[sid := this] && server.saved == old(server.saved)
    {
      callSid := sid;
      streamSid := stream;
      if Present(from) {
        intake.phone := Str(from.value);
      }
      server.sessions := server.sessions[sid := this];
      var valid := ValidateConfig(server.env);
      if valid.Err? {
        toTwilio := toTwilio + [ErrorOut(valid.message)];
        return;
      }
      var url := GetWebSocketUrl(server.env);
      ai := Socket(url.value, Connecting);
    }

    /** `media`: forwarded at once as one append when the AI socket is
        open, and kept in the audio buffer; dropped otherwise. */
    method OnMedia(payload: string)
      requires Valid()
      modifies this
      ensures Valid()
      ensures IsOpen(ai) ==> State() == old(State()).(
        audioBuffer := old(audioBuffer) + [payload], toAi := old(toAi) + [GetAudioAppendMessage(payload)])
      ensures !IsOpen(ai) ==> State() == old(State())
    {
      if IsOpen(ai) {
        audioBuffer := audioBuffer + [payload];
        var m := GetAudioAppendMessage(payload);
        PayloadsAppend(toAi, [m]);
        CountTypeAppend(toAi, [m], "response.cancel");
        toAi := toAi + [m];
      }
    }

    /** `stop`: closes the AI socket, saves this call's data when storage is
        configured, and removes the call id from the registry either way. */
    method OnStop()
      requires Valid()
      modifies this, server
      ensures Valid()
      ensures State() == old(State()).(ai := CloseSocket(old(ai)))
      ensures server.saved == old(server.saved) + (if server.storage then [EntryRecord(callSid, this)] else [])
      ensures server.sessions == old(server.sessions) - {callSid}
    {
      ai := CloseSocket(ai);
      if server.storage {
        server.saved := server.saved + [EntryRecord(callSid, this)];
      }
      server.sessions := server.sessions - {callSid};
    }

    /** The Twilio socket closes: closes the AI socket; when the call id is
        truthy and still registered, the entry is saved (if storage is
        configured) and removed. */
    method OnClose()
      requires Valid()
      modifies this, server
      ensures Valid()
      ensures State() == old(State()).(ai := CloseSocket(old(ai)))
      ensures Present(callSid) && callSid in old(server.sessions) ==>
        server.saved == old(server.saved) + (if server.storage then [EntryRecord(callSid, old(server.sessions)[callSid])] else [])
        && server.sessions == old(server.sessions) - {callSid}
      ensures !(Present(callSid) && callSid in old(server.sessions)) ==>
        server.saved == old(server.saved) && server.sessions == old(server.sessions)
    {
      ai := CloseSocket(ai);
      if Present(callSid) && callSid in server.sessions {
        var entry := server.sessions[callSid];
        if server.storage {
          server.saved := server.saved + [EntryRecord(callSid, entry)];
        }
        server.sessions := server.sessions - {callSid};
      }
    }

    /** A `stop` followed by the socket's `close` saves at most once: once
        with storage configured, never without. */
    method StopThenClose()
      requires Valid()
      modifies this, server
      ensures Valid()
      ensures server.saved == old(server.saved) +
        (if server.storage then [SaveRecord(old(callSid), old(|audioBuffer|), old(transcript), old(intake.Fields()))] else [])
      ensures callSid !in server.sessions
    {
      OnStop();
      OnClose();
    }

    // -------------------------------------------------------------------
    // AI socket events.

    /** The AI socket opens: the session is configured with the shared
        prompt followed by the website text the fetches give
        (buildInstructions), and the greeting is requested. */
    method OnAiOpen(fetch: string -> Option<string>)
      requires Valid()
      modifies this
      ensures Valid()
      ensures old(ai).Socket? && old(ai).state == Connecting ==> State() == old(State()).(
        ai := Socket(old(ai).url, Open),
        toAi := old(toAi) + [GetSessionConfig(server.env, Prompt.WithReference(server.prompt, WebsiteScraper.MercyHouseContent(fetch))),
                             GetGreetingConfig()])
      ensures !(old(ai).Socket? && old(ai).state == Connecting) ==> State() == old(State())
    {
      if ai.Socket? && ai.state == Connecting {
        ai := Socket(ai.url, Open);
        var context := WebsiteScraper.FetchMercyHouseContent(fetch);
        Configure(context);
      }
    }

    /** The two sends of the open handler, once the website text is in. */
    method Configure(context: string)
      requires Valid()
      modifies this
      ensures Valid()
      ensures State() == old(State()).(
        toAi := old(toAi) + [GetSessionConfig(server.env, Prompt.WithReference(server.prompt, context)), GetGreetingConfig()])
    {
      var sent := [GetSessionConfig(server.env, Prompt.WithReference(server.prompt, context)), GetGreetingConfig()];
      assert sent[1..] == [GetGreetingConfig()];
      PayloadsAppend(toAi, sent);
      CountTypeAppend(toAi, sent, "response.cancel");
      toAi := toAi + sent;
    }

    /** `response.audio.delta` and `response.audio_delta`: the first truthy
        of `delta` and `audio` goes to Twilio as a media frame for the
        current stream. */
    method OnAudioDelta(delta: Option<string>, audio: Option<string>)
      requires Valid()
      modifies this
      ensures Valid()
      ensures Present(Or(delta, audio)) ==>
        State() == old(State()).(toTwilio := old(toTwilio) + [MediaOut(streamSid, Or(delta, audio).value)])
      ensures !Present(Or(delta, audio)) ==> State() == old(State())
    {
      if Present(Or(delta, audio)) {
        toTwilio := toTwilio + [MediaOut(streamSid, Or(delta, audio).value)];
      }
    }

    /** `response.audio_transcript.done` and `conversation.item.created`: a
        truthy text becomes an entry and goes to the shared handoff parser,
        which only reads a text that begins with the marker. */
    method OnTranscriptOrItem(text: Option<string>, role: Option<string>, item: Option<Item>, now: string)
      requires Valid()
      modifies this, intake
      ensures Valid()
      ensures Present(SpokenText(text, item)) ==> State() == old(State()).(
        transcript := old(transcript) + [Utterance(SpeakerRole(role, item), SpokenText(text, item).value, now)],
        intake := Intake.AfterPrefixed(old(intake.Fields()), SpokenText(text, item).value, server.parse))
      ensures !Present(SpokenText(text, item)) ==> State() == old(State())
    {
      var spoken := SpokenText(text, item);
      if Present(spoken) {
        transcript := transcript + [Utterance(SpeakerRole(role, item), spoken.value, now)];
        Intake.UpdateIntakeFromText(spoken.value, intake, server.parse);
      }
    }
  }
}
