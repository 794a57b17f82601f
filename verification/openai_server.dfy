/** The OpenAI Realtime bridge of server.js: audio is forwarded as soon as
    the AI socket is open; only audio deltas and transcripts are handled;
    the registry keeps a copy made at `start`, not the live buffers, and
    the intake record is never filled in. */
module OpenAiServer {
  import opened Js
  import opened Protocol
  import Intake
  import Prompt

  const RealtimeUrl: string := "wss://api.openai.com/v1/realtime?model=gpt-4o-realtime-preview-2024-10-01"
  const Ulaw: string := "g711_ulaw"

  /** The transcript text of `response.audio_transcript.done` and
      `conversation.item.created`: the event's transcript when truthy,
      else the item's formatted transcript; the content parts are not
      consulted. */
  function OpenAiText(transcript: Option<string>, item: Option<Item>): (r: Option<string>)
    ensures Present(transcript) ==> r == transcript
    ensures !Present(transcript) ==> r == ItemTranscript(item)
  {
    Or(transcript, ItemTranscript(item))
  }

  /** The role of such an entry: the event's role when truthy, else
      "assistant"; the item's role is not consulted. */
  function OpenAiRole(role: Option<string>): (r: string)
    ensures r != ""
    ensures Present(role) ==> r == role.value
    ensures !Present(role) ==> r == "assistant"
  {
    Or(role, Some("assistant")).value
  }

  /** The object stored in `sessions` on `start`. */
  datatype Entry = Entry(callSid: Option<string>, streamSid: Option<string>,
                         audioBuffer: seq<string>, transcript: seq<Utterance>, intake: Intake.Record)

  /** What saveCallData records for a registry entry. */
  function EntryRecord(callSid: Option<string>, e: Entry): (r: SaveRecord)
    ensures r.callSid == callSid && r.duration == |e.audioBuffer|
    ensures r.transcript == e.transcript && r.intake == e.intake
  {
    SaveRecord(callSid, |e.audioBuffer|, e.transcript, e.intake)
  }

  /** A snapshot of one connection's state. */
  datatype CallState = CallState(
    callSid: Option<string>, streamSid: Option<string>, ai: AiSocket,
    audioBuffer: seq<string>, transcript: seq<Utterance>,
    toAi: seq<AiMessage>, toTwilio: seq<TwilioFrame>)

  /** The module-level state: the `sessions` Map, the saves made and
      GRACE_PROMPT. */
  class Server {
    var sessions: map<Option<string>, Entry>
    var saved: seq<SaveRecord>
    const prompt: string

    /** Every registered entry is the empty copy made at `start`, and
        every saved intake record is all nulls. */
    ghost predicate Valid()
      reads this
    {
      && (forall k :: k in sessions ==> sessions[k].audioBuffer == [] && sessions[k].transcript == [] && sessions[k].intake == Intake.AllNull)
      && (forall i :: 0 <= i < |saved| ==> saved[i].intake == Intake.AllNull)
    }

    constructor ()
      ensures prompt == Prompt.OpenAiGracePrompt
      ensures sessions == map[] && saved == []
      ensures Valid()
    {
      prompt := Prompt.OpenAiGracePrompt;
      sessions := map[];
      saved := [];
    }
  }

  /** The closure state of one `/media-stream` connection. */
  class Connection {
    const server: Server
    const intake: Intake.Record
    var callSid: Option<string>
    var streamSid: Option<string>
    var ai: AiSocket
    var audioBuffer: seq<string>
    var transcript: seq<Utterance>
    var toAi: seq<AiMessage>
    var toTwilio: seq<TwilioFrame>

    /** Every handled frame has been sent, once and in order; the intake
        record stays all nulls; the registry invariant holds. */
    ghost predicate Valid()
      reads this, server
    {
      && Payloads(toAi) == audioBuffer
      && intake == Intake.AllNull
      && server.Valid()
    }

    function State(): CallState
      reads this
    {
      CallState(callSid, streamSid, ai, audioBuffer, transcript, toAi, toTwilio)
    }

    /** A Twilio socket connects: the intake literal has five nulls. */
    constructor (server: Server)
      requires server.Valid()
      ensures this.server == server && intake == Intake.AllNull
      ensures State() == CallState(None, None, NoSocket, [], [], [], [])
      ensures Valid()
    {
      this.server := server;
      intake := Intake.AllNull;
      callSid := None;
      streamSid := None;
      ai := NoSocket;
      audioBuffer := [];
      transcript := [];
      toAi := [];
      toTwilio := [];
    }

    // -------------------------------------------------------------------
    // Twilio events.

    /** `start`: records the ids, registers a copy holding fresh empty
        arrays and the current intake, and opens the AI socket. */
    method OnStart(sid: Option<string>, stream: Option<string>)
      requires Valid()
      modifies this, server
      ensures Valid()
      ensures State() == old(State()).(callSid := sid, streamSid := stream, ai := Socket(RealtimeUrl, Connecting))
      ensures server.sessions == old(server.sessions)[sid := Entry(sid, stream, [], [], Intake.AllNull)]
      ensures server.saved == old(server.saved)
    {
      callSid := sid;
      streamSid := stream;
      server.sessions := server.sessions[sid := Entry(sid, stream, [], [], intake)];
      ai := Socket(RealtimeUrl, Connecting);
    }

    /** `media`: forwarded at once as one append when the AI socket is
        open, and kept in the audio buffer; dropped otherwise. */
    method OnMedia(payload: string)
      requires Valid()
      modifies this
      ensures Valid()
      ensures IsOpen(ai) ==> State() == old(State()).(
        audioBuffer := old(audioBuffer) + [payload], toAi := old(toAi) + [AudioAppend(payload)])
      ensures !IsOpen(ai) ==> State() == old(State())
    {
      if IsOpen(ai) {
        audioBuffer := audioBuffer + [payload];
        PayloadsAppend(toAi, [AudioAppend(payload)]);
        toAi := toAi + [AudioAppend(payload)];
      }
    }

    /** `stop`: closes the AI socket, saves the live buffers with the
        untouched intake record, and removes the call id. */
    method OnStop()
      requires Valid()
      modifies this, server
      ensures Valid()
      ensures State() == old(State()).(ai := CloseSocket(old(ai)))
      ensures server.saved == old(server.saved) + [SaveRecord(callSid, |audioBuffer|, transcript, Intake.AllNull)]
      ensures server.sessions == old(server.sessions) - {callSid}
    {
      ai := CloseSocket(ai);
      server.saved := server.saved + [SaveRecord(callSid, |audioBuffer|, transcript, intake)];
      server.sessions := server.sessions - {callSid};
    }

    /** The Twilio socket closes: closes the AI socket; when the call id is
        truthy and still registered, the copy made at `start` is saved, so
        the record has no audio, no transcript and five nulls, and the
        entry is removed. */
    method OnClose()
      requires Valid()
      modifies this, server
      ensures Valid()
      ensures State() == old(State()).(ai := CloseSocket(old(ai)))
      ensures Present(callSid) && callSid in old(server.sessions) ==>
        server.saved == old(server.saved) + [SaveRecord(callSid, 0, [], Intake.AllNull)]
        && server.sessions == old(server.sessions) - {callSid}
      ensures !(Present(callSid) && callSid in old(server.sessions)) ==>
        server.saved == old(server.saved) && server.sessions == old(server.sessions)
    {
      ai := CloseSocket(ai);
      if Present(callSid) && callSid in server.sessions {
        var entry := server.sessions[callSid];
        server.saved := server.saved + [EntryRecord(callSid, entry)];
        server.sessions := server.sessions - {callSid};
      }
    }

    // -------------------------------------------------------------------
    // AI socket events.

    /** The AI socket opens: one session update with the prompt, the alloy
        voice, G.711 mu-law both ways and server voice activity detection. */
    method OnAiOpen()
      requires Valid()
      modifies this
      ensures Valid()
      ensures old(ai).Socket? && old(ai).state == Connecting ==> State() == old(State()).(
        ai := Socket(old(ai).url, Open),
        toAi := old(toAi) + [SessionUpdate(server.prompt, NamedVoice("alloy"), Ulaw, Ulaw, "server_vad")])
      ensures !(old(ai).Socket? && old(ai).state == Connecting) ==> State() == old(State())
    {
      if ai.Socket? && ai.state == Connecting {
        ai := Socket(ai.url, Open);
        var m := SessionUpdate(server.prompt, NamedVoice("alloy"), Ulaw, Ulaw, "server_vad");
        PayloadsAppend(toAi, [m]);
        toAi := toAi + [m];
      }
    }

    /** A message from the AI socket. Only `response.audio.delta` (its
        `delta` member), `response.audio_transcript.done` and
        `conversation.item.created` do anything; every other type changes
        nothing and sends nothing. */
    method OnAiMessage(e: AiEvent, now: string)
      requires Valid()
      modifies this
      ensures Valid()
      ensures e.AudioDelta? && e.dotted && Present(e.delta) ==>
        State() == old(State()).(toTwilio := old(toTwilio) + [MediaOut(streamSid, e.delta.value)])
      ensures (e.AudioTranscriptDone? || e.ItemCreated?) && Present(OpenAiText(e.transcript, e.item)) ==>
        State() == old(State()).(transcript := old(transcript) + [Utterance(OpenAiRole(e.role), OpenAiText(e.transcript, e.item).value, now)])
      ensures (!(e.AudioDelta? && e.dotted && Present(e.delta))
            && !((e.AudioTranscriptDone? || e.ItemCreated?) && Present(OpenAiText(e.transcript, e.item)))) ==>
        State() == old(State())
    {
      match e
      case AudioDelta(dotted, delta, _) =>
        if dotted && Present(delta) {
          toTwilio := toTwilio + [MediaOut(streamSid, delta.value)];
        }
      case AudioTranscriptDone(text, role, item) =>
        AddTranscript(text, role, item, now);
      case ItemCreated(text, role, item) =>
        AddTranscript(text, role, item, now);
      case _ =>
    }

    /** The shared case of the two transcript events. */
    method AddTranscript(text: Option<string>, role: Option<string>, item: Option<Item>, now: string)
      modifies this
      ensures Present(OpenAiText(text, item)) ==>
        State() == old(State()).(transcript := old(transcript) + [Utterance(OpenAiRole(role), OpenAiText(text, item).value, now)])
      ensures !Present(OpenAiText(text, item)) ==> State() == old(State())
    {
      var spoken := OpenAiText(text, item);
      if Present(spoken) {
        transcript := transcript + [Utterance(OpenAiRole(role), spoken.value, now)];
      }
    }
  }
}
