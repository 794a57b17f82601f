/** The messages that cross the two sockets of a call, as values: what the
    bridge sends to the AI socket and to Twilio, the events it receives
    from each (already decoded from their JSON text), transcript entries and
    the record handed to the call store. */
module Protocol {
  import opened Js
  import Intake

  // ---------------------------------------------------------------------
  // Sent to the AI socket.

  /** The `voice` member of a session update: a bare voice name (OpenAI
      Realtime) or an object with a `type` and a `name` (Azure VoiceLive).
      The temperature member is not modelled. */
  datatype Voice = NamedVoice(name: string) | TypedVoice(voiceType: string, name: string)

  /** The JSON messages the bridge sends to the AI socket. Modalities, the
      floating-point settings and the fixed noise-suppression and
      echo-cancellation members are not modelled. */
  datatype AiMessage =
    | SessionUpdate(instructions: string, voice: Voice, inputAudioFormat: string,
                    outputAudioFormat: string, turnDetection: string)
    | ResponseCreate(instructions: string)
    | AudioAppend(audio: string)
    | ResponseCancel

  /** The `type` member of each message. */
  function WireType(m: AiMessage): string {
    match m
    case SessionUpdate(_, _, _, _, _) => "session.update"
    case ResponseCreate(_) => "response.create"
    case AudioAppend(_) => "input_audio_buffer.append"
    case ResponseCancel => "response.cancel"
  }

  /** The audio payloads carried by the appends among `msgs`, in order. */
  function Payloads(msgs: seq<AiMessage>): (r: seq<string>)
    ensures |r| <= |msgs|
  {
    if msgs == [] then []
    else (if msgs[0].AudioAppend? then [msgs[0].audio] else []) + Payloads(msgs[1..])
  }

  lemma {:induction false} PayloadsAppend(a: seq<AiMessage>, b: seq<AiMessage>)
    ensures Payloads(a + b) == Payloads(a) + Payloads(b)
    decreases |a|
  {
    if a != [] {
      var h := if a[0].AudioAppend? then [a[0].audio] else [];
      assert (a + b)[0] == a[0];
      assert (a + b)[1..] == a[1..] + b;
      PayloadsAppend(a[1..], b);
      assert Payloads(a + b) == h + (Payloads(a[1..]) + Payloads(b));
      assert h + (Payloads(a[1..]) + Payloads(b)) == (h + Payloads(a[1..])) + Payloads(b);
    } else {
      assert a + b == b;
    }
  }

  /** One append message per payload, in order: what forwarding a run of
      queued frames sends. */
  function AppendsOf(payloads: seq<string>): (r: seq<AiMessage>)
    ensures |r| == |payloads|
    ensures forall i :: 0 <= i < |r| ==> r[i] == AudioAppend(payloads[i])
  {
    if payloads == [] then [] else [AudioAppend(payloads[0])] + AppendsOf(payloads[1..])
  }

  /** Sending the appends of a run of payloads transmits exactly that run. */
  lemma {:induction false} PayloadsOfAppends(payloads: seq<string>)
    ensures Payloads(AppendsOf(payloads)) == payloads
    decreases |payloads|
  {
    if payloads != [] {
      var r := AppendsOf(payloads);
      assert r[1..] == AppendsOf(payloads[1..]);
      PayloadsOfAppends(payloads[1..]);
    }
  }

  /** How many of `msgs` have wire type `t`. */
  function CountType(msgs: seq<AiMessage>, t: string): (n: nat)
    ensures n <= |msgs|
  {
    if msgs == [] then 0
    else (if WireType(msgs[0]) == t then 1 else 0) + CountType(msgs[1..], t)
  }

  lemma {:induction false} CountTypeAppend(a: seq<AiMessage>, b: seq<AiMessage>, t: string)
    ensures CountType(a + b, t) == CountType(a, t) + CountType(b, t)
    decreases |a|
  {
    if a != [] {
      assert (a + b)[0] == a[0];
      assert (a + b)[1..] == a[1..] + b;
      CountTypeAppend(a[1..], b, t);
      assert CountType(a + b, t) == (if WireType(a[0]) == t then 1 else 0) + CountType(a[1..] + b, t);
    } else {
      assert a + b == b;
    }
  }

  // ---------------------------------------------------------------------
  // Sent to the Twilio socket.

  /** `{event:'media', streamSid, media:{payload}}` and `{event:'error', error}`. */
  datatype TwilioFrame = MediaOut(streamSid: Option<string>, payload: string) | ErrorOut(error: string)

  // ---------------------------------------------------------------------
  // Received from the AI socket.

  /** One element of `item.content`. */
  datatype ContentPart = ContentPart(partType: Option<string>, text: Option<string>)

  /** The `item` member of an event; `formattedTranscript` is
      `item.formatted?.transcript`. */
  datatype Item = Item(role: Option<string>, formattedTranscript: Option<string>, content: Option<seq<ContentPart>>)

  /** The parts before index `i` are none of type "text". */
  predicate NoTextPartBefore(parts: seq<ContentPart>, i: int) {
    forall j :: 0 <= j < i && j < |parts| ==> parts[j].partType != Some("text")
  }

  /** `item.content?.find(c => c.type === 'text')?.text`: the text of the
      first part whose type is "text" (even when that part has no text),
      None when there is no such part. */
  function FirstText(content: Option<seq<ContentPart>>): (r: Option<string>)
    ensures content.None? ==> r.None?
    ensures content.Some? ==> r == FirstTextIn(content.value)
  {
    match content
    case None => None
    case Some(parts) => FirstTextIn(parts)
  }

  function FirstTextIn(parts: seq<ContentPart>): (r: Option<string>)
    ensures NoTextPartBefore(parts, |parts|) ==> r.None?
    ensures forall i :: 0 <= i < |parts| && parts[i].partType == Some("text") && NoTextPartBefore(parts, i) ==> r == parts[i].text
  {
    if parts == [] then None
    else if parts[0].partType == Some("text") then parts[0].text
    else
      var r := FirstTextIn(parts[1..]);
      forall i | 1 <= i < |parts| && NoTextPartBefore(parts, i)
        ensures NoTextPartBefore(parts[1..], i - 1)
      {
      }
      assert forall i :: 0 < i < |parts| ==> parts[i] == parts[1..][i - 1];
      r
  }

  /** `e.item?.role`, `e.item?.formatted?.transcript` and the first text part. */
  function ItemRole(item: Option<Item>): Option<string> {
    if item.Some? then item.value.role else None
  }

  function ItemTranscript(item: Option<Item>): Option<string> {
    if item.Some? then item.value.formattedTranscript else None
  }

  function ItemText(item: Option<Item>): Option<string> {
    if item.Some? then FirstText(item.value.content) else None
  }

  /** An event from the AI socket after JSON.parse, by its `type`.
      `AudioDelta` covers both "response.audio.delta" (`dotted`) and
      "response.audio_delta". `OtherAi` is any type the handler only logs. */
  datatype AiEvent =
    | SessionCreated
    | SessionUpdated
    | SpeechStarted
    | TranscriptionCompleted(transcript: Option<string>)
    | AudioDelta(dotted: bool, delta: Option<string>, audio: Option<string>)
    | AudioTranscriptDone(transcript: Option<string>, role: Option<string>, item: Option<Item>)
    | ItemCreated(transcript: Option<string>, role: Option<string>, item: Option<Item>)
    | OtherAi(eventType: string)

  // ---------------------------------------------------------------------
  // Conversation state that is persisted.

  /** A transcript entry; the ISO timestamp is an opaque string supplied by
      the caller. */
  datatype Utterance = Utterance(role: string, text: string, timestamp: string)

  /** One call of saveCallData: the call id, the number of audio frames
      (saved as `duration`), the transcript and the intake record. */
  datatype SaveRecord = SaveRecord(callSid: Option<string>, duration: nat, transcript: seq<Utterance>, intake: Intake.Record)

  /** The state of the AI socket: none yet, or one created for `url` that is
      connecting, open or closed. */
  datatype SocketState = Connecting | Open | Closed
  datatype AiSocket = NoSocket | Socket(url: string, state: SocketState)

  predicate IsOpen(s: AiSocket) {
    s.Socket? && s.state == Open
  }

  /** `ws.close()` when a socket exists (closing a closed socket does nothing). */
  function CloseSocket(s: AiSocket): (r: AiSocket)
    ensures s.NoSocket? <==> r.NoSocket?
    ensures r.Socket? ==> r.url == s.url && r.state == Closed
  {
    match s
    case NoSocket => NoSocket
    case Socket(url, _) => Socket(url, Closed)
  }
}
