/** Azure VoiceLive configuration (config/voicelive.config.js): builders
    that read the process environment, given here as a map from variable
    name to value. A variable that is unset or set to "" counts as missing,
    as `||` and `!` do in JavaScript. */
module VoiceLiveConfig {
  import opened Js
  import opened Text
  import opened Protocol

  type Env = map<string, string>

  const EndpointVar: string := "AZURE_VOICELIVE_ENDPOINT"
  const ApiKeyVar: string := "AZURE_VOICELIVE_API_KEY"
  const ModelVar: string := "AZURE_VOICELIVE_MODEL"
  const ApiVersionVar: string := "AZURE_VOICELIVE_API_VERSION"
  const VoiceVar: string := "AZURE_VOICELIVE_VOICE"

  const DefaultModel: string := "gpt-realtime"
  const DefaultApiVersion: string := "2025-10-01"
  const DefaultVoice: string := "DragonHDLatest"
  const AudioFormat: string := "g711_ulaw"
  const GreetingInstructions: string := "Greet the caller warmly as instructed in your system prompt."

  /** `process.env[key]`. */
  function Lookup(env: Env, key: string): Option<string> {
    if key in env then Some(env[key]) else None
  }

  /** `process.env[key] || fallback`. */
  function EnvOr(env: Env, key: string, fallback: string): (r: string)
    ensures Present(Lookup(env, key)) ==> r == env[key]
    ensures !Present(Lookup(env, key)) ==> r == fallback
  {
    Or(Lookup(env, key), Some(fallback)).value
  }

  /** The realtime endpoint URL for an HTTPS endpoint: the first "https://"
      becomes "wss://", and the path and query follow. */
  function RealtimeUrl(endpoint: string, apiVersion: string, model: string): (url: string)
    ensures EndsWith(url, RealtimePath(apiVersion, model))
    ensures StartsWith(endpoint, "https://") ==> url == "wss://" + endpoint[8..] + RealtimePath(apiVersion, model)
    ensures !Includes(endpoint, "https://") ==> url == endpoint + RealtimePath(apiVersion, model)
  {
    ReplaceAtStart(endpoint, "https://", "wss://");
    ReplaceFirst(endpoint, "https://", "wss://") + RealtimePath(apiVersion, model)
  }

  function RealtimePath(apiVersion: string, model: string): string {
    "/voice-live/realtime?api-version=" + apiVersion + "&model=" + model
  }

  /** getWebSocketUrl(): throws when the endpoint is missing; the model and
      API version default to gpt-realtime and 2025-10-01. */
  function GetWebSocketUrl(env: Env): (r: Result<string>)
    ensures r.Err? <==> !Present(Lookup(env, EndpointVar))
    ensures r.Err? ==> r.message == "AZURE_VOICELIVE_ENDPOINT environment variable is required"
    ensures r.Ok? ==> EndsWith(r.value, RealtimePath(EnvOr(env, ApiVersionVar, DefaultApiVersion), EnvOr(env, ModelVar, DefaultModel)))
    ensures r.Ok? ==> r.value == RealtimeUrl(Lookup(env, EndpointVar).value,
                                             EnvOr(env, ApiVersionVar, DefaultApiVersion), EnvOr(env, ModelVar, DefaultModel))
    ensures r.Ok? && StartsWith(Lookup(env, EndpointVar).value, "https://") ==>
      r.value == "wss://" + Lookup(env, EndpointVar).value[8..]
                 + RealtimePath(EnvOr(env, ApiVersionVar, DefaultApiVersion), EnvOr(env, ModelVar, DefaultModel))
  {
    var endpoint := Lookup(env, EndpointVar);
    var model := EnvOr(env, ModelVar, DefaultModel);
    var apiVersion := EnvOr(env, ApiVersionVar, DefaultApiVersion);
    if !Present(endpoint) then Err("AZURE_VOICELIVE_ENDPOINT environment variable is required")
    else Ok(RealtimeUrl(endpoint.value, apiVersion, model))
  }

  /** An HTTPS endpoint with the model and version unset gives the secure
      WebSocket URL of the same host with the documented defaults. */
  lemma {:induction false} WebSocketUrlOfHttpsHost(env: Env, host: string)
    requires EndpointVar in env && env[EndpointVar] == "https://" + host
    requires ModelVar !in env && ApiVersionVar !in env
    ensures GetWebSocketUrl(env) == Ok("wss://" + host + "/voice-live/realtime?api-version=2025-10-01&model=gpt-realtime")
  {
    var e := env[EndpointVar];
    assert StartsWith(e, "https://") && e[8..] == host;
    assert Present(Lookup(env, EndpointVar));
    var path := RealtimePath(DefaultApiVersion, DefaultModel);
    assert path == "/voice-live/realtime?api-version=2025-10-01&model=gpt-realtime";
    assert GetWebSocketUrl(env).value == "wss://" + host + path;
  }

  /** getAuthHeaders(): throws when the key is missing, and otherwise is
      exactly one header, `api-key`, carrying the key. */
  function GetAuthHeaders(env: Env): (r: Result<map<string, string>>)
    ensures r.Err? <==> !Present(Lookup(env, ApiKeyVar))
    ensures r.Err? ==> r.message == "AZURE_VOICELIVE_API_KEY environment variable is required"
    ensures r.Ok? ==> r.value.Keys == {"api-key"} && r.value["api-key"] == env[ApiKeyVar]
  {
    var apiKey := Lookup(env, ApiKeyVar);
    if !Present(apiKey) then Err("AZURE_VOICELIVE_API_KEY environment variable is required")
    else Ok(map["api-key" := apiKey.value])
  }

  /** getVoiceConfig() without its temperature: the voice is an HD voice
      exactly when its name contains "HDLatest". */
  function GetVoiceConfig(env: Env): (v: Voice)
    ensures v.TypedVoice? && v.name == EnvOr(env, VoiceVar, DefaultVoice)
    ensures v.voiceType in {"azure-hd", "azure-standard"}
    ensures v.voiceType == "azure-hd" <==> Includes(v.name, "HDLatest")
  {
    var voiceName := EnvOr(env, VoiceVar, DefaultVoice);
    TypedVoice(if Includes(voiceName, "HDLatest") then "azure-hd" else "azure-standard", voiceName)
  }

  /** With no voice configured the default DragonHDLatest is an HD voice. */
  lemma DefaultVoiceIsHd(env: Env)
    requires VoiceVar !in env
    ensures GetVoiceConfig(env) == TypedVoice("azure-hd", "DragonHDLatest")
  {
    assert OccursAt(DefaultVoice, "HDLatest", 6);
  }

  /** getSessionConfig(instructions), without its floating-point members. */
  function GetSessionConfig(env: Env, instructions: string): (m: AiMessage)
    ensures WireType(m) == "session.update"
    ensures m.SessionUpdate? && m.instructions == instructions
    ensures m.inputAudioFormat == AudioFormat && m.outputAudioFormat == AudioFormat
    ensures m.voice == GetVoiceConfig(env) && m.turnDetection == "azure_semantic_vad"
  {
    SessionUpdate(instructions, GetVoiceConfig(env), AudioFormat, AudioFormat, "azure_semantic_vad")
  }

  /** getGreetingConfig(): a response request with fixed instructions. */
  function GetGreetingConfig(): (m: AiMessage)
    ensures WireType(m) == "response.create"
    ensures m == ResponseCreate(GreetingInstructions)
  {
    ResponseCreate(GreetingInstructions)
  }

  /** getAudioAppendMessage(payload): the payload travels unchanged. */
  function GetAudioAppendMessage(payload: string): (m: AiMessage)
    ensures WireType(m) == "input_audio_buffer.append"
    ensures Payloads([m]) == [payload]
  {
    AudioAppend(payload)
  }

  const Required: seq<string> := [EndpointVar, ApiKeyVar]
  const MissingMessage: string := "Missing required environment variables: "

  /** `required.filter(key => !process.env[key])`. */
  function MissingFrom(keys: seq<string>, env: Env): (r: seq<string>)
    ensures |r| <= |keys|
    ensures forall k :: k in r <==> k in keys && !Present(Lookup(env, k))
    ensures r == [] <==> forall i :: 0 <= i < |keys| ==> Present(Lookup(env, keys[i]))
  {
    if keys == [] then []
    else
      var rest := MissingFrom(keys[1..], env);
      assert forall k :: k in keys <==> k == keys[0] || k in keys[1..];
      if Present(Lookup(env, keys[0])) then rest else [keys[0]] + rest
  }

  /** The filter keeps the keys in order and each as often as it occurs:
      adding a key at the end adds it at the end of the result exactly when
      its variable is missing. */
  lemma {:induction false} MissingFromSnoc(keys: seq<string>, k: string, env: Env)
    ensures MissingFrom(keys + [k], env) == MissingFrom(keys, env) + (if Present(Lookup(env, k)) then [] else [k])
    decreases |keys|
  {
    if keys == [] {
      assert keys + [k] == [k];
      assert [k][1..] == [];
    } else {
      assert (keys + [k])[0] == keys[0];
      assert (keys + [k])[1..] == keys[1..] + [k];
      MissingFromSnoc(keys[1..], k, env);
    }
  }

  /** validateConfig(): true when every required variable is set, else a
      thrown Error that lists the missing ones in declaration order. */
  function ValidateConfig(env: Env): (r: Result<bool>)
    ensures r.Ok? <==> Present(Lookup(env, EndpointVar)) && Present(Lookup(env, ApiKeyVar))
    ensures r.Ok? ==> r.value
    ensures r.Err? ==> r.message == MissingMessage + Join(MissingFrom(Required, env), ", ")
  {
    var missing := MissingFrom(Required, env);
    if |missing| > 0 then Err(MissingMessage + Join(missing, ", "))
    else Ok(true)
  }

  /** A configuration that validates lets both the URL and the headers be
      built without throwing. */
  lemma {:induction false} ValidatedConfigBuilds(env: Env)
    requires ValidateConfig(env).Ok?
    ensures GetWebSocketUrl(env).Ok? && GetAuthHeaders(env).Ok?
  {
  }

  /** With neither variable set (or both empty), both are reported,
      endpoint first. */
  lemma {:induction false} BothMissingMessage(env: Env)
    requires !Present(Lookup(env, EndpointVar)) && !Present(Lookup(env, ApiKeyVar))
    ensures ValidateConfig(env) == Err(MissingMessage + EndpointVar + ", " + ApiKeyVar)
  {
    assert Required[1..] == [ApiKeyVar];
    assert Required[1..][1..] == [];
    assert MissingFrom(Required, env) == [EndpointVar, ApiKeyVar];
    assert Join([EndpointVar, ApiKeyVar], ", ") == EndpointVar + ", " + ApiKeyVar by {
      assert [EndpointVar, ApiKeyVar][1..] == [ApiKeyVar];
    }
  }

  /** With only the endpoint missing, the message names the endpoint alone. */
  lemma {:induction false} OnlyEndpointMissingMessage(env: Env)
    requires !Present(Lookup(env, EndpointVar)) && Present(Lookup(env, ApiKeyVar))
    ensures ValidateConfig(env) == Err(MissingMessage + EndpointVar)
  {
    assert Required[1..] == [ApiKeyVar];
    assert Required[1..][1..] == [];
    assert MissingFrom(Required, env) == [EndpointVar];
  }

  /** With only the key missing, the message names the key alone. */
  lemma {:induction false} OnlyKeyMissingMessage(env: Env)
    requires Present(Lookup(env, EndpointVar)) && !Present(Lookup(env, ApiKeyVar))
    ensures ValidateConfig(env) == Err(MissingMessage + ApiKeyVar)
  {
    assert Required[1..] == [ApiKeyVar];
    assert Required[1..][1..] == [];
    assert MissingFrom(Required, env) == [ApiKeyVar];
  }
}
