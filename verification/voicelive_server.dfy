/** The Azure VoiceLive bridge of server-voicelive.js: one `Connection` per
    Twilio media stream, holding the handler's closure state, and one
    `Server` holding the module-level registry of calls and the log of
    saves. Each socket handler is an atomic step; what it sends is appended
    to the connection's two outboxes. */
module VoiceLiveServer {
  import opened Js
  import opened Text
  import opened Protocol
  import Intake
  import Prompt
  import WebsiteScraper
  import opened VoiceLiveConfig

  const DefaultHost: string := "devopsaifoundry.cognitiveservices.azure.com"
  const DefaultEndpoint: string := "https://" + DefaultHost
  const DefaultVoiceName: string := "en-US-" + "Ava:DragonHDLatest" + "Neural"
  const SemanticVad: string := "azure_semantic_vad"
  const Greeting: string := "Respond ONLY in English. Say exactly: \"Hi, this is Grace with Mercy House. I'm here to help. How can I help you today?\""

  // ---------------------------------------------------------------------
  // The values computed inline by the handlers.

  /** The AI socket URL built on `start`: the endpoint (with a default
      host) loses its trailing slashes and its first "https://", and the
      realtime path follows. */
  function RootUrl(env: Env): (url: string)
    ensures EndsWith(url, RealtimePath(EnvOr(env, ApiVersionVar, DefaultApiVersion), EnvOr(env, ModelVar, DefaultModel)))
    ensures !Present(Lookup(env, EndpointVar)) ==>
      url == "wss://" + DefaultHost + RealtimePath(EnvOr(env, ApiVersionVar, DefaultApiVersion), EnvOr(env, ModelVar, DefaultModel))
  {
    var endpoint := StripTrailingSlashes(EnvOr(env, EndpointVar, DefaultEndpoint));
    if !Present(Lookup(env, EndpointVar)) then
      assert StripTrailingSlashes(DefaultEndpoint) == DefaultEndpoint by {
        assert DefaultEndpoint[|DefaultEndpoint| - 1] == DefaultHost[|DefaultHost| - 1] == 'm';
      }
      assert StartsWith(DefaultEndpoint, "https://") && DefaultEndpoint[8..] == DefaultHost;
      RealtimeUrl(endpoint, EnvOr(env, ApiVersionVar, DefaultApiVersion), EnvOr(env, ModelVar, DefaultModel))
    else
      RealtimeUrl(endpoint, EnvOr(env, ApiVersionVar, DefaultApiVersion), EnvOr(env, ModelVar, DefaultModel))
  }

  /** Slashes typed after an HTTPS host do not reach the URL: the socket
      connects to the same host with the same path. */
  lemma {:induction false} RootUrlOfHttpsHost(env: Env, host: string, slashes: string)
    requires host != [] && host[|host| - 1] != '/'
    requires forall i :: 0 <= i < |slashes| ==> slashes[i] == '/'
    requires EndpointVar in env && env[EndpointVar] == "https://" + host + slashes
    ensures RootUrl(env) == "wss://" + host + RealtimePath(EnvOr(env, ApiVersionVar, DefaultApiVersion), EnvOr(env, ModelVar, DefaultModel))
  {
    var s := env[EndpointVar];
    var base := "https://" + host;
    assert s == base + slashes;
    var r := StripTrailingSlashes(s);
    assert StartsWith(s, r);
    assert forall k :: 0 <= k < |r| ==> r[k] == s[k];
    assert forall k :: |base| <= k < |s| ==> s[k] == '/';
    assert s[|base| - 1] == host[|host| - 1];
    assert |r| == |base|;
    assert r == s[..|base|] == base;
    assert StartsWith(r, "https://") && r[8..] == host;
  }

  /** The voice chosen on `session.created`: an Azure voice exactly when
      the name starts with "en-US-" and ends with "Neural", otherwise the
      name is passed on as an OpenAI voice. */
  function RootVoiceConfig(env: Env): (v: Voice)
    ensures v.TypedVoice? && v.name == EnvOr(env, VoiceVar, DefaultVoiceName)
    ensures v.voiceType in {"azure-standard", "openai"}
    ensures v.voiceType == "azure-standard" <==> StartsWith(v.name, "en-US-") && EndsWith(v.name, "Neural")
  {
    var voiceName := EnvOr(env, VoiceVar, DefaultVoiceName);
    var isAzureVoice := StartsWith(voiceName, "en-US-") && EndsWith(voiceName, "Neural");
    if isAzureVoice then TypedVoice("azure-standard", voiceName) else TypedVoice("openai", voiceName)
  }

  /** With no voice configured, the default Ava voice is an Azure voice. */
  lemma RootDefaultVoiceIsAzure(env: Env)
    requires VoiceVar !in env
    ensures RootVoiceConfig(env) == TypedVoice("azure-standard", DefaultVoiceName)
  {
    var pre: string := "en-US-";
    var mid: string := "Ava:DragonHDLatest";
    var post: string := "Neural";
    assert DefaultVoiceName == pre + mid + post;
    assert (pre + mid + post)[..|pre|] == pre;
    assert (pre + mid + post)[|pre + mid|..] == post;
  }

  /** The session update sent on `session.created`: the prompt, the
      reference header and the website text as instructions, the voice
      chosen from the environment, G.711 mu-law audio both ways and
      semantic voice activity detection. */
  function RootSessionUpdate(env: Env, prompt: string, context: string): AiMessage {
    SessionUpdate(Prompt.WithReference(prompt, context), RootVoiceConfig(env), AudioFormat, AudioFormat, SemanticVad)
  }

  // ---------------------------------------------------------------------
  // Outbox bookkeeping.

  lemma {:induction false} AppendsOfSnoc(q: seq<string>, i: nat)
    requires i < |q|
    ensures AppendsOf(q[..i + 1]) == AppendsOf(q[..i]) + [AudioAppend(q[i])]
  {
    var a := AppendsOf(q[..i + 1]);
    var b := AppendsOf(q[..i]) + [AudioAppend(q[i])];
    assert |a| == |b|;
    forall k | 0 <= k < |a| ensures a[k] == b[k] {
      if k < i {
        assert q[..i + 1][k] == q[..i][k];
      }
    }
  }

  /** Appends carry no message of another type. */
  lemma {:induction false} AppendsCountNothingElse(q: seq<string>, t: string)
    requires t != "input_audio_buffer.append"
    ensures CountType(AppendsOf(q), t) == 0
    decreases |q|
  {
    if q != [] {
      assert AppendsOf(q) == [AudioAppend(q[0])] + AppendsOf(q[1..]);
      CountTypeAppend([AudioAppend(q[0])], AppendsOf(q[1..]), t);
      AppendsCountNothingElse(q[1..], t);
    }
  }

  /** Flushing the queue completes the stream: if what was sent so far
      followed by what is queued is every handled frame, then after sending
      the queue in order the payloads sent are every handled frame, each
      once, in arrival order. */
  lemma {:induction false} FlushSendsEveryFrame(sent: seq<AiMessage>, queue: seq<string>, handled: seq<string>)
    requires Payloads(sent) + queue == handled
    ensures Payloads(sent + AppendsOf(queue)) == handled
  {
    PayloadsAppend(sent, AppendsOf(queue));
    PayloadsOfAppends(queue);
  }

  /** Sending one message that is neither a session update nor a response
      request adds its payload, if it is an append, and leaves both
      configuration counts as they were. */
  lemma {:induction false} SendKeepsConfiguration(sent: seq<AiMessage>, m: AiMessage)
    requires !m.SessionUpdate? && !m.ResponseCreate?
    ensures Payloads(sent + [m]) == Payloads(sent) + (if m.AudioAppend? then [m.audio] else [])
    ensures CountType(sent + [m], "session.update") == CountType(sent, "session.update")
    ensures CountType(sent + [m], "response.create") == CountType(sent, "response.create")
  {
    PayloadsAppend(sent, [m]);
    CountTypeAppend(sent, [m], "session.update");
    CountTypeAppend(sent, [m], "response.create");
    assert [m][1..] == [];
  }

  // ---------------------------------------------------------------------
  // State.

  /** A snapshot of one connection's state, including its intake record's
      fields; handlers state their effect as an update of it. */
  datatype CallState = CallState(
    callSid: Option<string>, streamSid: Option<string>, ai: AiSocket,
    configured: bool, ready: bool, audioQueue: seq<string>,
    audioBuffer: seq<string>, transcript: seq<Utterance>, intake: Intake.Record,
    toAi: seq<AiMessage>, toTwilio: seq<TwilioFrame>)

  /** The module-level state: the `sessions` Map, the saves made, the
      GRACE_PROMPT constant, and the process environment and JSON.parse the
      handlers use. */
  class Server {
    var sessions: map<Option<string>, Connection>
    var saved: seq<SaveRecord>
    const prompt: string
    const env: Env
    const parse: string -> Option<Value>

    constructor (env: Env, parse: string -> Option<Value>)
      ensures prompt == Prompt.RootGracePrompt
      ensures this.env == env && this.parse == parse
      ensures sessions == map[] && saved == []
    {
      prompt := Prompt.RootGracePrompt;
      this.env := env;
      this.parse := parse;
      sessions := map[];
      saved := [];
    }
  }

  /** What saveCallData records for a registry entry: the entry holds the
      connection's own arrays and intake object, so their current contents
      are saved. */
  function EntryRecord(callSid: Option<string>, c: Connection): (r: SaveRecord)
    reads c, c.intake
    ensures r.callSid == callSid && r.duration == |c.audioBuffer|
    ensures r.transcript == c.transcript && r.intake == c.intake.Fields()
  {
    SaveRecord(callSid, |c.audioBuffer|, c.transcript, c.intake.Fields())
  }

  /** The closure state of one `/media-stream` connection. */
  class Connection {
    const server: Server
    const intake: Intake.IntakeRecord
    var callSid: Option<string>
    var streamSid: Option<string>
    var ai: AiSocket
    var configured: bool
    var ready: bool
    var audioQueue: seq<string>
    var audioBuffer: seq<string>
    var transcript: seq<Utterance>
    var toAi: seq<AiMessage>
    var toTwilio: seq<TwilioFrame>

    /** Every handled frame has been sent or is queued, in arrival order;
        once the session is ready nothing stays queued; the session update
        and the greeting have each been sent once if configured, else
        never. */
    ghost predicate Valid()
      reads this
    {
      && Payloads(toAi) + audioQueue == audioBuffer
      && (ready ==> audioQueue == [])
      && CountType(toAi, "session.update") == (if configured then 1 else 0)
      && CountType(toAi, "response.create") == (if configured then 1 else 0)
    }

    function State(): CallState
      reads this, intake
    {
      CallState(callSid, streamSid, ai, configured, ready, audioQueue,
                audioBuffer, transcript, intake.Fields(), toAi, toTwilio)
    }

    /** A Twilio socket connects: nothing known yet, all five intake fields
        null. */
    constructor (server: Server)
      ensures this.server == server && fresh(intake)
      ensures State() == CallState(None, None, NoSocket, false, false, [], [], [], Intake.AllNull, [], [])
      ensures Valid()
    {
      this.server := server;
      Intake.InitialOfNothing();
      intake := new Intake.IntakeRecord.Create(map[]);
      callSid := None;
      streamSid := None;
      ai := NoSocket;
      configured := false;
      ready := false;
      audioQueue := [];
      audioBuffer := [];
      transcript := [];
      toAi := [];
      toTwilio := [];
    }

    // -------------------------------------------------------------------
    // Twilio events.

    /** `start`: records the ids, pre-fills the phone from a truthy `from`,
        registers this connection under the call id and opens the AI
        socket. */
    method OnStart(sid: Option<string>, stream: Option<string>, from: Option<string>)
      requires Valid()
      modifies this, intake, server
      ensures Valid()
      ensures State() == old(State()).(
        callSid := sid, streamSid := stream, ai := Socket(RootUrl(server.env), Connecting),
        intake := if Present(from) then old(intake.Fields()).(phone := Str(from.value)) else old(intake.Fields()))
      ensures server.sessions == old(server.sessions)[sid := this] && server.saved == old(server.saved)
    {
      callSid := sid;
      streamSid := stream;
      if Present(from) {
        intake.phone := Str(from.value);
      }
      server.sessions := server.sessions[sid := this];
      ai := Socket(RootUrl(server.env), Connecting);
    }

    /** `media`: dropped unless the AI socket is open; otherwise kept in
        the audio buffer and sent at once when the session is ready, queued
        when it is not. */
    method OnMedia(payload: string)
      requires Valid()
      modifies this
      ensures Valid()
      ensures !IsOpen(ai) ==> State() == old(State())
      ensures IsOpen(ai) && ready ==> State() == old(State()).(
        audioBuffer := old(audioBuffer) + [payload], toAi := old(toAi) + [AudioAppend(payload)])
      ensures IsOpen(ai) && !ready ==> State() == old(State()).(
        audioBuffer := old(audioBuffer) + [payload], audioQueue := old(audioQueue) + [payload])
    {
      if IsOpen(ai) {
        audioBuffer := audioBuffer + [payload];
        if ready {
          SendKeepsConfiguration(toAi, AudioAppend(payload));
          toAi := toAi + [AudioAppend(payload)];
        } else {
          audioQueue := audioQueue + [payload];
        }
      }
    }

    /** `stop`: closes the AI socket, saves this call's data, and removes
        the call id from the registry. */
    method OnStop()
      requires Valid()
      modifies this, server
      ensures Valid()
      ensures State() == old(State()).(ai := CloseSocket(old(ai)))
      ensures server.saved == old(server.saved) + [EntryRecord(callSid, this)]
      ensures server.sessions == old(server.sessions) - {callSid}
    {
      ai := CloseSocket(ai);
      server.saved := server.saved + [EntryRecord(callSid, this)];
      server.sessions := server.sessions - {callSid};
    }

    /** The Twilio socket closes: closes the AI socket and, when the call
        id is truthy and still registered, saves the registered entry and
        removes it. */
    method OnClose()
      requires Valid()
      modifies this, server
      ensures Valid()
      ensures State() == old(State()).(ai := CloseSocket(old(ai)))
      ensures Present(callSid) && callSid in old(server.sessions) ==>
        server.saved == old(server.saved) + [EntryRecord(callSid, old(server.sessions)[callSid])]
        && server.sessions == old(server.sessions) - {callSid}
      ensures !(Present(callSid) && callSid in old(server.sessions)) ==>
        server.saved == old(server.saved) && server.sessions == old(server.sessions)
    {
      ai := CloseSocket(ai);
      if Present(callSid) && callSid in server.sessions {
        var entry := server.sessions[callSid];
        server.saved := server.saved + [EntryRecord(callSid, entry)];
        server.sessions := server.sessions - {callSid};
      }
    }

    /** A `stop` followed by the socket's `close` saves the call once, with
        the data it held at `stop`. */
    method StopThenClose()
      requires Valid()
      modifies this, server
      ensures Valid()
      ensures server.saved == old(server.saved) + [SaveRecord(old(callSid), old(|audioBuffer|), old(transcript), old(intake.Fields()))]
      ensures callSid !in server.sessions
    {
      OnStop();
      OnClose();
    }

    // -------------------------------------------------------------------
    // AI socket events.

    /** The AI socket finishes connecting (the handler itself only logs). */
    method OnAiOpen()
      requires Valid()
      modifies this
      ensures Valid()
      ensures old(ai).Socket? && old(ai).state == Connecting ==> State() == old(State()).(ai := Socket(old(ai).url, Open))
      ensures !(old(ai).Socket? && old(ai).state == Connecting) ==> State() == old(State())
    {
      if ai.Socket? && ai.state == Connecting {
        ai := Socket(ai.url, Open);
      }
    }

    /** `session.created`: the first one configures the session with the
        prompt and the website text the fetches give, and asks for the
        greeting; later ones do nothing. */
    method OnSessionCreated(fetch: string -> Option<string>)
      requires Valid()
      modifies this
      ensures Valid()
      ensures old(configured) ==> State() == old(State())
      ensures !old(configured) ==> State() == old(State()).(configured := true,
        toAi := old(toAi) + [RootSessionUpdate(server.env, server.prompt, WebsiteScraper.MercyHouseContent(fetch)), ResponseCreate(Greeting)])
    {
      if !configured {
        configured := true;
        var context := WebsiteScraper.FetchMercyHouseContent(fetch);
        Configure(context);
      }
    }

    /** The sends of the configuring step, once the website text is in. */
    method Configure(context: string)
      requires Payloads(toAi) + audioQueue == audioBuffer && (ready ==> audioQueue == [])
      requires CountType(toAi, "session.update") == 0 && CountType(toAi, "response.create") == 0
      requires configured
      modifies this
      ensures Valid()
      ensures State() == old(State()).(toAi := old(toAi) + [RootSessionUpdate(server.env, server.prompt, context), ResponseCreate(Greeting)])
    {
      var update := RootSessionUpdate(server.env, server.prompt, context);
      var sent := [update, ResponseCreate(Greeting)];
      assert Payloads(sent) == [] by {
        assert sent[1..] == [ResponseCreate(Greeting)];
      }
      assert CountType(sent, "session.update") == 1 && CountType(sent, "response.create") == 1 by {
        assert sent[1..] == [ResponseCreate(Greeting)];
      }
      PayloadsAppend(toAi, sent);
      CountTypeAppend(toAi, sent, "session.update");
      CountTypeAppend(toAi, sent, "response.create");
      toAi := toAi + sent;
    }

    /** `session.updated`: the session is ready and the queued frames are
        sent, one append each, in order; then the queue is empty. */
    method OnSessionUpdated()
      requires Valid()
      modifies this
      ensures Valid()
      ensures State() == old(State()).(ready := true, audioQueue := [], toAi := old(toAi) + AppendsOf(old(audioQueue)))
      ensures old(ready) ==> toAi == old(toAi)
      ensures Payloads(toAi) == audioBuffer
    {
      if |audioQueue| > 0 {
        toAi := SendEach(toAi, audioQueue);
        audioQueue := [];
      } else {
        assert AppendsOf(audioQueue) == [];
      }
      ready := true;
      FlushSendsEveryFrame(old(toAi), old(audioQueue), audioBuffer);
      CountTypeAppend(old(toAi), AppendsOf(old(audioQueue)), "session.update");
      CountTypeAppend(old(toAi), AppendsOf(old(audioQueue)), "response.create");
      AppendsCountNothingElse(old(audioQueue), "session.update");
      AppendsCountNothingElse(old(audioQueue), "response.create");
    }

    /** `input_audio_buffer.speech_started`: one `response.cancel`, whether
        or not a response is under way. */
    method OnSpeechStarted()
      requires Valid()
      modifies this
      ensures Valid()
      ensures State() == old(State()).(toAi := old(toAi) + [ResponseCancel])
    {
      SendKeepsConfiguration(toAi, ResponseCancel);
      toAi := toAi + [ResponseCancel];
    }

    /** `conversation.item.input_audio_transcription.completed`: a truthy
        transcript becomes a user entry. */
    method OnTranscriptionCompleted(text: Option<string>, now: string)
      requires Valid()
      modifies this
      ensures Valid()
      ensures Present(text) ==> State() == old(State()).(transcript := old(transcript) + [Utterance("user", text.value, now)])
      ensures !Present(text) ==> State() == old(State())
    {
      if Present(text) {
        transcript := transcript + [Utterance("user", text.value, now)];
      }
    }

    /** `response.audio.delta` and `response.audio_delta`: the first truthy
        of `delta` and `audio` goes to Twilio as a media frame for the
        current stream. */
    method OnAudioDelta(delta: Option<string>, audio: Option<string>)
      requires Valid()
      modifies this
      ensures Valid()
      ensures Present(Or(delta, audio)) ==>
        State() == old(State()).(toTwilio := old(toTwilio) + [MediaOut(streamSid, Or(delta, audio).value)])
      ensures !Present(Or(delta, audio)) ==> State() == old(State())
    {
      if Present(Or(delta, audio)) {
        toTwilio := toTwilio + [MediaOut(streamSid, Or(delta, audio).value)];
      }
    }

    /** `response.audio_transcript.done`: a truthy transcript becomes an
        assistant entry and is searched for a handoff line. */
    method OnAudioTranscriptDone(text: Option<string>, now: string)
      requires Valid()
      modifies this, intake
      ensures Valid()
      ensures Present(text) ==> State() == old(State()).(
        transcript := old(transcript) + [Utterance("assistant", text.value, now)],
        intake := Intake.AfterAnywhere(old(intake.Fields()), text.value, server.parse))
      ensures !Present(text) ==> State() == old(State())
    {
      if Present(text) {
        transcript := transcript + [Utterance("assistant", text.value, now)];
        UpdateIntakeAnywhere(text.value, intake, server.parse);
      }
    }

    /** `conversation.item.created`: the item's formatted transcript, else
        its first text part, becomes an entry with the item's role
        (assistant by default) and is searched for a handoff line. */
    method OnItemCreated(item: Option<Item>, now: string)
      requires Valid()
      modifies this, intake
      ensures Valid()
      ensures Present(ItemSpeech(item)) ==> State() == old(State()).(
        transcript := old(transcript) + [Utterance(Or(ItemRole(item), Some("assistant")).value, ItemSpeech(item).value, now)],
        intake := Intake.AfterAnywhere(old(intake.Fields()), ItemSpeech(item).value, server.parse))
      ensures !Present(ItemSpeech(item)) ==> State() == old(State())
    {
      var text := ItemSpeech(item);
      if Present(text) {
        var role := Or(ItemRole(item), Some("assistant")).value;
        transcript := transcript + [Utterance(role, text.value, now)];
        UpdateIntakeAnywhere(text.value, intake, server.parse);
      }
    }
  }

  /** The `forEach` that sends one append per queued payload, in order. */
  method SendEach(sent: seq<AiMessage>, queue: seq<string>) returns (r: seq<AiMessage>)
    ensures r == sent + AppendsOf(queue)
  {
    r := sent;
    var i := 0;
    while i < |queue|
      invariant 0 <= i <= |queue|
      invariant r == sent + AppendsOf(queue[..i])
    {
      AppendsOfSnoc(queue, i);
      r := r + [AudioAppend(queue[i])];
      i := i + 1;
    }
    assert queue[..|queue|] == queue;
  }

  /** The text of a created item: its formatted transcript when truthy,
      else the text of its first text part. */
  function ItemSpeech(item: Option<Item>): (r: Option<string>)
    ensures Present(ItemTranscript(item)) ==> r == ItemTranscript(item)
    ensures !Present(ItemTranscript(item)) ==> r == ItemText(item)
    ensures item.None? ==> r.None?
  {
    Or(ItemTranscript(item), ItemText(item))
  }

  /** updateIntakeFromText of server-voicelive.js, in place: the marker may
      stand anywhere, and the first line after it is parsed. */
  method UpdateIntakeAnywhere(text: string, intake: Intake.IntakeRecord, parse: string -> Option<Value>)
    modifies intake
    ensures intake.Fields() == Intake.AfterAnywhere(old(intake.Fields()), text, parse)
  {
    if !Includes(text, Intake.Marker) {
      return;
    }
    var intakeIndex := IndexOf(text, Intake.Marker).value;
    var afterIntake := text[intakeIndex + |Intake.Marker|..];
    var jsonPart := Trim(FirstLine(afterIntake));
    var parsed := parse(jsonPart);
    if parsed.None? || parsed.value.Null? {
      return;
    }
    Intake.CopyKnownFields(intake, parsed.value);
  }
}
