# Grace AI receptionist — a verified model of the call bridge

Grace answers phone calls for Mercy House Adult & Teen Challenge. Twilio
streams each call's audio over a WebSocket (a "media stream"). A Node server
relays that audio to a realtime speech model (Azure VoiceLive or OpenAI
Realtime) over a second WebSocket and relays the model's audio back to
Twilio. While it does so it keeps:
- a transcript;
- the raw audio frame count;
- an intake record (name, phone, city, state, reason) that the assistant fills by speaking
  one machine-readable line, `INTAKE: {json}`.

When the call ends these are saved to blob storage.

This project models the deterministic core of that bridge in Dafny:

| file | module | models |
|---|---|---|
| `js.dfy` | `Js` | JavaScript values after `JSON.parse`, truthiness, `\|\|`, `??`, property reads on `null` |
| `text.dfy` | `Text` | the string operations the code uses (`trim`, `indexOf`, `includes`, `split('\n')[0]`, first-occurrence `replace`, `join`, the `/\/+$/` strip) |
| `intake.dfy` | `Intake` | the intake record, `createIntakeData`, both handoff-line parsers and the `??` merge |
| `protocol.dfy` | `Protocol` | the messages sent to the AI socket and to Twilio, AI events, transcript entries, save records |
| `hours.dfy` | `Hours` | `isBusinessHours` (identical in the three servers) |
| `config.dfy` | `VoiceLiveConfig` | `config/voicelive.config.js` |
| `prompt.dfy` | `Prompt` | the three `GRACE_PROMPT` texts and `buildInstructions` |
| `scraper.dfy` | `WebsiteScraper` | `fetchMercyHouseContent`: HTML cleaning, truncation, chunk assembly, failure |
| `voicelive_server.dfy` | `VoiceLiveServer` | the root `server-voicelive.js` bridge (queue until ready, one-shot configuration, barge-in cancel) |
| `modular_server.dfy` | `ModularServer` | `src/server-voicelive.js` (immediate forwarding, configuration-error path, storage flag) |
| `openai_server.dfy` | `OpenAiServer` | `server.js` (OpenAI variant with a copied registry entry) |

Each server is modelled imperatively:
- A `Server` object holds the module-level `sessions` Map, the log of saves and the constants the handlers read.
- A `Connection` object holds one media stream's closure state.
- Every socket handler is an atomic method. Node runs handlers one at a time, so this is how they execute.
- Every `send` appends to one of two outboxes: `toAi` holds messages to the AI socket and `toTwilio` holds frames to Twilio.
- Every `saveCallData` appends a `SaveRecord` (call id, audio frame count, transcript, intake) to `Server.saved`.

Each handler's postcondition states the connection's entire new state, as an update of a `CallState` snapshot. It also states the registry and the save log. Each `Connection.Valid()` invariant carries that variant's guarantees:
- **Root server:** every handled frame has been sent or is queued, in arrival order. Nothing stays queued once the session is ready. The session update and the greeting are each sent exactly once after configuration.
- **Modular server:** every handled frame is sent exactly once, in order. A cancel is never sent. An invalid configuration means no AI socket exists.
- **OpenAI server:** every handled frame is sent exactly once, in order. Every registry entry is an empty copy, and every saved intake record is all nulls.

`JSON.parse` is a parameter: any function from text to an optional value, where None means a SyntaxError. The HTTP fetch of a page is also a parameter: a function from URL to an optional body, where None means the fetch or the body read failed. Timestamps are opaque strings that the caller supplies.

### Behaviour worth knowing

- **An explicit JSON `null` in a handoff line.** It does not erase a field, because `??` keeps the old value (`Intake.UpdateIsPerKey`).
- **Filler before the handoff line.** The shared parser requires the marker at the very start of the text and parses the whole remainder, so filler before it, or a second line after the JSON, defeats it (`Intake.PrefixIgnoresFiller`, `Intake.SecondLineStaysInPrefixCandidate`). Only the root server's parser accepts the marker anywhere.

## Model

| member | source | states |
|---|---|---|
| Js.Or | server-voicelive.js:513-514 | `a \|\| b` on optional strings: `a` when it is truthy, else `b` |
| Js.Property | src/utils/intake-parser.js:24-28 | reading a property fails exactly on `null`; on an object it is the own property, else `undefined` |
| Js.Coalesce | src/utils/intake-parser.js:24-28 | `a ?? b` is `b` exactly when `a` is null or undefined, else `a` |
| Js.CoalesceIdempotent | src/utils/intake-parser.js:24-28 | applying the same `??` assignment twice equals applying it once |
| Text.IndexOf | server-voicelive.js:230 | `indexOf`: an occurrence with none before it, or none at all |
| Text.IndexOfEarliest | server-voicelive.js:230 | an occurrence with no earlier one is what `indexOf` returns |
| Text.IncludesIff | config/voicelive.config.js:51 | `includes` holds iff the pattern occurs somewhere |
| Text.Trim | src/utils/intake-parser.js:18 | `trim()`: a contiguous part of the text; everything dropped is whitespace; it neither begins nor ends with whitespace |
| Text.TrimKeeps | src/utils/intake-parser.js:18 | trimming text that begins and ends with non-whitespace changes nothing |
| Text.TrimLeadingSpace | src/utils/intake-parser.js:18 | trimming drops the single space after the marker |
| Text.FirstLine | server-voicelive.js:234-235 | `split('\n')[0]`: a prefix without a line feed, ending at the first line feed or at the end |
| Text.FirstLineWhole | server-voicelive.js:234-235 | a text without a line feed is its own first line |
| Text.FirstLineOfBrokenText | server-voicelive.js:234-235 | the first line of `a + "\n" + b` is `a` |
| Text.ReplaceFirst | config/voicelive.config.js:22 | `replace(string, string)` changes only the first occurrence, and nothing when there is none |
| Text.ReplaceAtStart | config/voicelive.config.js:22 | a text starting with `https://` has exactly that prefix replaced |
| Text.StripTrailingSlashes | server-voicelive.js:307 | `replace(/\/+$/, '')`: a prefix not ending in `/`; everything removed is `/` |
| Intake.Initial | src/utils/intake-parser.js:42-49 | each of the five keys holds the initial value when it is truthy and null otherwise |
| Intake.InitialHasNoFalsyValues | src/utils/intake-parser.js:42-49 | a created record holds only null or truthy values; an empty string becomes null |
| Intake.InitialOfNothing | src/utils/intake-parser.js:42 | `createIntakeData()` with no argument gives five nulls |
| Intake.IntakeRecord.Create | src/utils/intake-parser.js:42-49 | the object's fields are those of `Initial(init)` |
| Intake.Merge | src/utils/intake-parser.js:24-28 | a null parse result fails (reading a property of null throws); otherwise each key takes the parsed value when it is present and not null, else keeps the old value |
| Intake.MergeIgnoresOtherKeys | src/utils/intake-parser.js:24-28 | keys other than the five never affect the record |
| Intake.PrefixCandidate | src/utils/intake-parser.js:14-18 | JSON text exists iff the text starts with `INTAKE:`; it is the whole remainder, trimmed |
| Intake.AnywhereCandidate | server-voicelive.js:226-235 | JSON text exists iff `INTAKE:` occurs anywhere; it never contains a line feed |
| Intake.CopyKnownFields | src/utils/intake-parser.js:24-28 | the five in-place `??` assignments produce exactly the merged record |
| Intake.UpdateIntakeFromText | src/utils/intake-parser.js:13-34 | the object after the call is the record the prefix rule gives; every error leaves it as it was |
| Intake.PrefixNeedsLeadingMarker | src/utils/intake-parser.js:14 | a text not starting with the marker never changes the record |
| Intake.PrefixIgnoresFiller | src/utils/intake-parser.js:14 | a marker preceded by spoken filler is ignored |
| Intake.SecondLineStaysInPrefixCandidate | src/utils/intake-parser.js:18 | a second line after the JSON stays in the parsed text |
| Intake.PrefixCandidateOfLine | src/utils/intake-parser.js:14-18 | `INTAKE: body` hands exactly `body` to the parser |
| Intake.PrefixCandidateOfObjectLine | src/utils/intake-parser.js:14-18 | `INTAKE: {members}` hands exactly the object text to the parser |
| Intake.AnywhereStopsAtLineBreak | server-voicelive.js:231-235 | the root rule parses only up to the first line feed |
| Intake.AnywhereSkipsFiller | server-voicelive.js:226-235 | with filler before the first marker, the JSON text is the trimmed first line after it |
| Intake.AnywhereKeepsTrailingWords | server-voicelive.js:231-250 | words after the JSON on the same line stay in the parsed text, and a parse failure leaves the record unchanged |
| Intake.RulesAgreeOnOneLine | src/utils/intake-parser.js:14-18 | on a one-line text that starts with the marker, both rules hand the same text to the parser |
| Intake.FailedParseKeepsRecord | src/utils/intake-parser.js:20-33 | a SyntaxError or a null result leaves the record unchanged under either rule |
| Intake.UpdateIsPerKey | src/utils/intake-parser.js:24-28 | each key is last-write-wins, and an explicit null keeps the old value |
| Intake.UpdateIdempotent | src/utils/intake-parser.js:24-28 | applying the same JSON text twice equals applying it once |
| Intake.PrefixIdempotent | src/utils/intake-parser.js:13-34 | the shared parser applied twice to one text equals applying it once |
| Intake.AnywhereIdempotent | server-voicelive.js:224-253 | the root parser applied twice to one text equals applying it once |
| Intake.UpdatesAccumulate | src/utils/intake-parser.js:24-28 | `{"name":"Jane"}` then `{"phone":"6015551212"}` leaves both set and the rest untouched |
| Protocol.PayloadsOfAppends | config/voicelive.config.js:123-128 | sending one append per payload transmits exactly those payloads, in order |
| Protocol.PayloadsAppend | server-voicelive.js:623-633 | the payloads sent by two runs of messages are those of the first followed by those of the second |
| Protocol.CountTypeAppend | server-voicelive.js:437-451 | the count of messages of one type in an outbox that grows by appended sends is the sum of the counts of the parts (helper for the exactly-once configuration guarantee) |
| Protocol.FirstText | server-voicelive.js:569-570 | `content?.find(c => c.type === 'text')?.text`: the text of the first part of type text, none if there is no such part |
| Protocol.CloseSocket | server-voicelive.js:640-642 | closing keeps the socket's URL, marks it closed, and does nothing without a socket |
| Hours.IsBusinessHours | server.js:52-62 | open iff the day is Monday to Friday and 9 <= hour < 17 (same function at server-voicelive.js:171-181 and src/server-voicelive.js:27-37) |
| Hours.OpenHoursPerDay | server.js:58-61 | a weekday has eight business hours, a weekend day none |
| VoiceLiveConfig.EnvOr | config/voicelive.config.js:14-15 | `process.env[key] \|\| fallback`: the value when set and non-empty, else the fallback |
| VoiceLiveConfig.RealtimeUrl | config/voicelive.config.js:21-23 | the URL ends with the realtime path; an `https://` endpoint becomes `wss://` with the same rest |
| VoiceLiveConfig.GetWebSocketUrl | config/voicelive.config.js:12-24 | throws iff the endpoint is missing or empty, with the documented message; otherwise the URL is the endpoint, followed by `/voice-live/realtime?api-version=` with the version (default `2025-10-01`) and `&model=` with the model (default `gpt-realtime`); an endpoint starting with `https://` has that scheme replaced by `wss://` |
| VoiceLiveConfig.WebSocketUrlOfHttpsHost | config/voicelive.config.js:12-24 | `https://host` with nothing else set gives `wss://host/voice-live/realtime?api-version=2025-10-01&model=gpt-realtime` |
| VoiceLiveConfig.GetAuthHeaders | config/voicelive.config.js:29-39 | throws iff the key is missing; otherwise exactly one header, `api-key`, equal to the key |
| VoiceLiveConfig.GetVoiceConfig | config/voicelive.config.js:45-59 | type `azure-hd` iff the name contains `HDLatest`, else `azure-standard`; the name defaults to `DragonHDLatest` |
| VoiceLiveConfig.DefaultVoiceIsHd | config/voicelive.config.js:46-52 | with no voice configured the voice is the HD voice `DragonHDLatest` |
| VoiceLiveConfig.GetSessionConfig | config/voicelive.config.js:64-105 | a `session.update` that carries the instructions unchanged, the configured voice, `g711_ulaw` both ways and semantic voice activity detection |
| VoiceLiveConfig.GetGreetingConfig | config/voicelive.config.js:110-118 | a `response.create` with the fixed greeting instructions |
| VoiceLiveConfig.GetAudioAppendMessage | config/voicelive.config.js:123-128 | an `input_audio_buffer.append` carrying the payload unchanged |
| VoiceLiveConfig.MissingFrom | config/voicelive.config.js:139 | the filter keeps exactly the keys whose value is falsy |
| VoiceLiveConfig.MissingFromSnoc | config/voicelive.config.js:139 | the filter keeps the input order: adding a key at the end adds it at the end of the result exactly when its value is falsy |
| VoiceLiveConfig.ValidateConfig | config/voicelive.config.js:133-146 | true iff both variables are set; otherwise throws with the missing keys joined by `, ` |
| VoiceLiveConfig.ValidatedConfigBuilds | config/voicelive.config.js:12-39 | once validation passes, neither the URL nor the headers throw |
| VoiceLiveConfig.BothMissingMessage | config/voicelive.config.js:134-142 | with neither variable set, the message lists the endpoint first, then the key |
| VoiceLiveConfig.OnlyEndpointMissingMessage | config/voicelive.config.js:134-142 | with only the endpoint missing, the message names the endpoint alone |
| VoiceLiveConfig.OnlyKeyMissingMessage | config/voicelive.config.js:134-142 | with only the key missing, the message names the key alone |
| Prompt.WithReference | config/grace.prompt.js:86-92 | the prompt, then a fixed header independent of the context, then the context; the length is the sum |
| Prompt.WithReferenceInjective | config/grace.prompt.js:86-92 | different website texts give different instructions |
| Prompt.BuildInstructions | config/grace.prompt.js:85-93 | begins with GRACE_PROMPT and the header, ends with the context |
| Prompt.ExampleLineInPrompt | config/grace.prompt.js:59 | the example handoff line stands on a line of its own inside GRACE_PROMPT |
| Prompt.ExampleLineFillsAllFields | config/grace.prompt.js:46-59 | given alone to the shared parser, the example line fills all five fields |
| WebsiteScraper.IndexFromCi | src/utils/website-scraper.js:31-32 | first case-insensitive occurrence of the closing tag at or after a position |
| WebsiteScraper.BlockAt | src/utils/website-scraper.js:31-32 | a block match at the start begins with the opening tag, ends with the closing tag `</name>` in any letter case, is at least as long as `<name></name>` and lies within the text; no opening tag at the start means no match |
| WebsiteScraper.RemoveBlocks | src/utils/website-scraper.js:31-32 | block removal never lengthens the text |
| WebsiteScraper.RemoveBlocksKeepsPlainText | src/utils/website-scraper.js:31-32 | text without `<` passes through block removal unchanged |
| WebsiteScraper.RemoveBlocksWithoutOpening | src/utils/website-scraper.js:31-32 | a text in which no opening tag of the block occurs is left unchanged |
| WebsiteScraper.RemoveBlocksDropsBlock | src/utils/website-scraper.js:31-32 | an opening tag with any attributes, a body without the closing tag, and the closing tag in any letter case are removed together, and removal continues after them |
| WebsiteScraper.TagAt | src/utils/website-scraper.js:33 | a tag match at the start is exactly a `<`, then one or more characters other than `>`, then the first `>`; no match means no such tag starts the text |
| WebsiteScraper.TagFreeMeansNoTag | src/utils/website-scraper.js:33 | the tag-free property is equivalent to having no match of `<[^>]+>` |
| WebsiteScraper.StripTags | src/utils/website-scraper.js:33 | no match of `<[^>]+>` remains; every non-space character comes from the input; a first character other than `<` is kept |
| WebsiteScraper.CollapseWhitespace | src/utils/website-scraper.js:34 | no two adjacent whitespace characters remain, and every whitespace character is a space; a text already in that form is returned unchanged |
| WebsiteScraper.CollapseKeepsTagFree | src/utils/website-scraper.js:34 | collapsing adds no characters and keeps text tag-free |
| WebsiteScraper.SliceKeepsSpacing | src/utils/website-scraper.js:38 | truncation preserves the whitespace properties |
| WebsiteScraper.Tidy | src/utils/website-scraper.js:34-35 | collapsed and trimmed: no double whitespace, only spaces, no whitespace at either end; a text already in that form is returned unchanged |
| WebsiteScraper.Clean | src/utils/website-scraper.js:30-35 | the cleaned page is tag-free, has no double whitespace and no leading or trailing whitespace; a text without `<` that is already tidy is returned unchanged |
| WebsiteScraper.CleanParagraph | src/utils/website-scraper.js:30-35 | cleaning `<p>` + text + `</p>` returns exactly the text, for a tidy text without `<` |
| WebsiteScraper.StripTagsKeepsPlainText | src/utils/website-scraper.js:33 | text without `<` in front of the rest passes through tag stripping unchanged |
| WebsiteScraper.StripTagsKeepsText | src/utils/website-scraper.js:33 | a text without `<` is left unchanged by tag stripping |
| WebsiteScraper.TidyKeepsTidied | src/utils/website-scraper.js:34-35 | collapsing and trimming a text that is already tidy gives it back |
| WebsiteScraper.Prefix | src/utils/website-scraper.js:38 | `slice(0, n)`: the prefix of length exactly `min(length, n)` |
| WebsiteScraper.ChunkShape | src/utils/website-scraper.js:38 | each chunk is `From url:\n` followed by the first `min(length, 2000)` characters of the cleaned page |
| WebsiteScraper.PageChunks | src/utils/website-scraper.js:25-39 | one chunk per URL, in URL order |
| WebsiteScraper.FetchPages | src/utils/website-scraper.js:21-47 | the loop yields the joined chunks when every page is read, and `''` at the first failure |
| WebsiteScraper.FetchMercyHouseContent | src/utils/website-scraper.js:21-47 | the four site pages' content, as the loop computes it |
| WebsiteScraper.AnyFailureGivesNothing | src/utils/website-scraper.js:42-46 | one failed page makes the whole result `''` |
| WebsiteScraper.ChunksInUrlOrder | src/utils/website-scraper.js:10-15 | the four chunks appear in URL order, separated by a blank line |
| VoiceLiveServer.RootUrl | server-voicelive.js:307-314 | the URL ends with the realtime path; without an endpoint it targets the default host over `wss://` |
| VoiceLiveServer.RootUrlOfHttpsHost | server-voicelive.js:307-314 | trailing slashes after an HTTPS host do not reach the URL |
| VoiceLiveServer.RootVoiceConfig | server-voicelive.js:370-394 | type `azure-standard` iff the name starts with `en-US-` and ends with `Neural`, else `openai` |
| VoiceLiveServer.RootDefaultVoiceIsAzure | server-voicelive.js:370-376 | the default Ava voice is an Azure voice |
| VoiceLiveServer.FlushSendsEveryFrame | server-voicelive.js:456-473 | after the flush, the payloads sent are every handled frame, once each, in arrival order |
| VoiceLiveServer.AppendsCountNothingElse | server-voicelive.js:462-469 | the flush sends only appends |
| VoiceLiveServer.SendEach | server-voicelive.js:462-469 | the `forEach` sends one append per queued payload, in order |
| VoiceLiveServer.ItemSpeech | server-voicelive.js:567-571 | the item's formatted transcript when truthy, else its first text part |
| VoiceLiveServer.UpdateIntakeAnywhere | server-voicelive.js:224-253 | the object after the call is the record the marker-anywhere rule gives |
| VoiceLiveServer.EntryRecord | server-voicelive.js:682-729 | a save records the call id, the number of audio frames, the transcript and the intake as they are at save time |
| VoiceLiveServer.Connection.constructor | server-voicelive.js:259-275 | a new connection has no ids, no socket, empty buffers and five null intake fields |
| VoiceLiveServer.Connection.OnStart | server-voicelive.js:283-323 | records the ids, pre-fills the phone from a truthy `from`, registers the live connection, opens the socket at the built URL |
| VoiceLiveServer.Connection.OnMedia | server-voicelive.js:617-636 | dropped unless the socket is open; otherwise buffered, and sent at once when ready or queued when not |
| VoiceLiveServer.Connection.OnStop | server-voicelive.js:638-651 | closes the socket, saves the live data once, and removes the call id |
| VoiceLiveServer.Connection.OnClose | server-voicelive.js:661-678 | saves and removes the registered entry only when the call id is truthy and still registered |
| VoiceLiveServer.Connection.StopThenClose | server-voicelive.js:638-678 | `stop` then `close` saves exactly once, with the data held at `stop` |
| VoiceLiveServer.Connection.OnAiOpen | server-voicelive.js:334-337 | the socket becomes open; nothing is sent |
| VoiceLiveServer.Connection.OnSessionCreated | server-voicelive.js:349-454 | the first occurrence sends one session update (prompt with website text, chosen voice, mu-law audio, semantic VAD) and one greeting request; later ones do nothing |
| VoiceLiveServer.Connection.Configure | server-voicelive.js:361-451 | once the latch is set and nothing has been sent yet, sends the session update with the prompt and the website text, then the greeting, so each is sent exactly once |
| VoiceLiveServer.Connection.OnSessionUpdated | server-voicelive.js:456-473 | marks the session ready, sends the queue in order, and empties it; a repeat sends nothing; everything handled has been sent |
| VoiceLiveServer.Connection.OnSpeechStarted | server-voicelive.js:475-483 | exactly one `response.cancel` per event |
| VoiceLiveServer.Connection.OnTranscriptionCompleted | server-voicelive.js:489-499 | a truthy transcript is appended as a user entry; nothing else changes |
| VoiceLiveServer.Connection.OnAudioDelta | server-voicelive.js:509-526 | the first truthy of `delta` and `audio` goes to Twilio as one media frame for the current stream |
| VoiceLiveServer.Connection.OnAudioTranscriptDone | server-voicelive.js:548-565 | a truthy transcript becomes an assistant entry and goes to the marker-anywhere parser |
| VoiceLiveServer.Connection.OnItemCreated | server-voicelive.js:567-583 | the item's text becomes an entry with the item's role, or assistant by default, and goes to the marker-anywhere parser |
| ModularServer.SpokenText | src/server-voicelive.js:200-203 | the first truthy of the event's transcript, the item's formatted transcript and its first text part |
| ModularServer.SpeakerRole | src/server-voicelive.js:207 | the first truthy of the event's role and the item's role, else `assistant` |
| ModularServer.Server.constructor | src/utils/blob-storage.js:15-28 | storage is available iff the connection string is set |
| ModularServer.EntryRecord | src/utils/blob-storage.js:38-80 | a save records the call id, the number of audio frames, the transcript and the intake |
| ModularServer.Connection.constructor | src/server-voicelive.js:81-86 | a new connection has no ids, no socket, empty buffers and five null intake fields |
| ModularServer.Connection.OnStart | src/server-voicelive.js:94-248 | registers the connection, then either opens the socket at the configured URL or sends exactly one error frame with the validation message and opens no socket |
| ModularServer.Connection.OnMedia | src/server-voicelive.js:250-259 | when the socket is open, one append per frame, at once and in order; otherwise dropped |
| ModularServer.Connection.OnStop | src/server-voicelive.js:261-276 | saves only when storage is configured, removes the call id either way |
| ModularServer.Connection.OnClose | src/server-voicelive.js:286-300 | saves (if storage is configured) and removes only a still-registered entry |
| ModularServer.Connection.StopThenClose | src/server-voicelive.js:261-300 | `stop` then `close` saves once with storage and never without |
| ModularServer.Connection.OnAiOpen | src/server-voicelive.js:131-150 | sends the session configuration built from the shared prompt and website text, then the greeting |
| ModularServer.Connection.Configure | src/server-voicelive.js:134-149 | sends the session configuration built from the prompt and the website text, then the greeting |
| ModularServer.Connection.OnAudioDelta | src/server-voicelive.js:173-189 | the first truthy of `delta` and `audio` goes to Twilio as one media frame for the current stream |
| ModularServer.Connection.OnTranscriptOrItem | src/server-voicelive.js:196-218 | a truthy text becomes one entry and goes to the prefix-only parser; a falsy one changes nothing |
| OpenAiServer.OpenAiText | server.js:189-190 | the event's transcript when truthy, else the item's formatted transcript |
| OpenAiServer.OpenAiRole | server.js:192 | the event's role when truthy, else `assistant`; the item's role is ignored |
| OpenAiServer.EntryRecord | server.js:264-314 | a save records the call id, the number of audio frames, the transcript and the intake |
| OpenAiServer.Server.constructor | server.js:25-49 | the registry and the save log start empty, and every saved intake is all nulls |
| OpenAiServer.Connection.constructor | server.js:101-113 | a new connection has no ids, no socket, empty buffers, and an intake record of five nulls |
| OpenAiServer.Connection.OnStart | server.js:121-145 | registers a copy with fresh empty arrays and the all-null intake, and opens the OpenAI socket |
| OpenAiServer.Connection.OnMedia | server.js:216-226 | when the socket is open, one append per frame, at once and in order; otherwise dropped |
| OpenAiServer.Connection.OnStop | server.js:228-241 | saves the live buffers with the untouched all-null intake, and removes the call id |
| OpenAiServer.Connection.OnClose | server.js:248-260 | a still-registered call is saved from the copy: duration 0, empty transcript, five nulls |
| OpenAiServer.Connection.OnAiOpen | server.js:147-167 | one session update with the prompt, the `alloy` voice, mu-law audio and server VAD |
| OpenAiServer.Connection.AddTranscript | server.js:187-198 | a truthy text becomes one entry with its role; otherwise nothing changes |
| OpenAiServer.Connection.OnAiMessage | server.js:169-204 | only the dotted audio delta and the two transcript events act; every other event changes nothing and sends nothing |

## Left out

- **Network, storage and logging.** Sockets, HTTP `fetch`, Azure Blob uploads and console logging are not modelled. A fetch is a parameter, and a save is a recorded `SaveRecord`. The upload order inside `saveCallData` and its stop-at-first-failure behaviour are not modelled.
- **WebSocket handshake.** Socket construction is modelled only as the URL and the state (connecting, open, closed). The auth headers passed to the constructor are not modelled (`VoiceLiveConfig.GetAuthHeaders` models how they are built). Whether the URL is valid is not modelled.
- **Sends on sockets that are not open.** The model records every send; the real socket would throw or drop it.
- **A second `start` on one connection.** It replaces the AI socket variable, but the old socket's handlers stay attached. The model keeps only the new socket.
- **Interleaving across `await`.** Each handler is one atomic step:
  - The awaited website fetch in `session.created` (root) and in `open` (src) is treated as completing within that step, so media that arrives during the fetch is not interleaved with it.
  - The `await saveCallData` in `stop` racing with `close` is not modelled, so exactly-once saving is claimed only for the sequential order.
- **`JSON.parse` / `JSON.stringify` grammar.** Parsing is an abstract parameter, and the serialised blobs are not modelled.
- **Floating-point settings.** Temperatures, VAD thresholds and padding, `parseFloat`/`parseInt` of settings, and the fixed noise-suppression and echo-cancellation members are not modelled.
- **Timestamps.** `new Date().toISOString()` becomes an opaque string parameter, and the registry's `startTime` is omitted.
- **Characters.** Text is a sequence of Unicode characters. JavaScript's UTF-16 code units (which `slice(0, 2000)` counts) and any case folding beyond ASCII are not modelled.
- **The `/healthz` and `/voice` routes and the DEBUG send wrapper.** They are outside the bridge's logic.
- **The missing `ws` import in server.js.** The file uses `WebSocket` without requiring `ws`. The model assumes the class of the `ws` library. Without it, `new WebSocket` (server.js:137) throws a ReferenceError, or, where a global `WebSocket` exists, `openAiWs.on` (server.js:147) throws a TypeError. Either error is caught at server.js:243, so no open or message handler is attached, and `OpenAiServer.Connection.OnAiOpen` and `OpenAiServer.Connection.OnAiMessage` never run.
- **Events that only log.** Twilio messages other than `start`, `media` and `stop`, and AI events that only log (`speech_stopped`, `response.done`, `error` and the like), change nothing. In the root and modular servers they therefore have no handler method; in `server.js` they are the no-change case of `OnAiMessage`.
- **Prompt wording.** The prompt texts are copied as constants; their natural-language content is not reasoned about.
- WebsiteScraper.RemoveBlocks: its own contract only bounds the length. What the regular-expression replacement does is stated by `RemoveBlocksDropsBlock` and `RemoveBlocksKeepsPlainText` for well-formed blocks. A `<script` prefix of a longer tag name (such as `<scripts>`) is matched as the regular expression matches it, but no lemma covers that case.
- VoiceLiveConfig.GetVoiceConfig: omits the `temperature` member (floating point).
- VoiceLiveConfig.GetSessionConfig: omits modalities, the floating-point members, the turn-detection flags `interrupt_response: true` and `remove_filler_words: true` (config/voicelive.config.js:92-93), and the noise-suppression and echo-cancellation objects.
- **Timing of the prompt constants.** GRACE_PROMPT is held by each `Server` as a constant set at construction (the constructor states its value). The handlers read that constant, which is the value the module-level constant has.
