/** The caller intake record and the "INTAKE:" handoff line that fills it.

    The assistant is told to speak one line `INTAKE: {json}`; the bridge cuts
    the JSON text out of a transcript, parses it, and merges the five known
    keys into the record with `??`, so that a key that is missing or null
    leaves the earlier value in place. Two cutting rules exist: the shared
    parser (src/utils/intake-parser.js) accepts the marker only at the very
    start and parses the whole remainder; the root server accepts it anywhere
    and parses only up to the next line feed. JSON.parse itself is a
    parameter: any function from text to an optional value (None: a
    SyntaxError). */
module Intake {
  import opened Js
  import opened Text

  const Marker: string := "INTAKE:"

  /** The five keys of the intake record. */
  datatype Key = Name | Phone | City | State | Reason

  function KeyName(k: Key): string {
    match k
    case Name => "name"
    case Phone => "phone"
    case City => "city"
    case State => "state"
    case Reason => "reason"
  }

  /** The value of an intake record: exactly the five keys, each holding a
      JavaScript value (null until something sets it). */
  datatype Record = Record(name: Value, phone: Value, city: Value, state: Value, reason: Value)

  function Field(f: Record, k: Key): Value {
    match k
    case Name => f.name
    case Phone => f.phone
    case City => f.city
    case State => f.state
    case Reason => f.reason
  }

  const AllNull: Record := Record(Null, Null, Null, Null, Null)

  /** Two records are equal when they agree on every key. */
  lemma RecordExt(f: Record, g: Record)
    requires forall k :: Field(f, k) == Field(g, k)
    ensures f == g
  {
    assert Field(f, Name) == Field(g, Name);
    assert Field(f, Phone) == Field(g, Phone);
    assert Field(f, City) == Field(g, City);
    assert Field(f, State) == Field(g, State);
    assert Field(f, Reason) == Field(g, Reason);
  }

  /** `initialData.k || null` for each key. */
  function InitialValue(init: map<string, Value>, key: string): (v: Value)
    ensures v == Null || (key in init && v == init[key] && Truthy(v))
    ensures key in init && Truthy(init[key]) ==> v == init[key]
  {
    if key in init && Truthy(init[key]) then init[key] else Null
  }

  /** The record createIntakeData builds from `initialData`. */
  function Initial(init: map<string, Value>): (f: Record)
    ensures forall k :: Field(f, k) == InitialValue(init, KeyName(k))
  {
    Record(InitialValue(init, "name"), InitialValue(init, "phone"), InitialValue(init, "city"),
           InitialValue(init, "state"), InitialValue(init, "reason"))
  }

  /** A created record holds no falsy value other than null: an empty
      string, `false` or `0` given as initial data becomes null. */
  lemma {:induction false} InitialHasNoFalsyValues(init: map<string, Value>, k: Key)
    ensures Field(Initial(init), k) == Null || Truthy(Field(Initial(init), k))
    ensures KeyName(k) in init && init[KeyName(k)] == Str("") ==> Field(Initial(init), k) == Null
  {
    assert Field(Initial(init), k) == InitialValue(init, KeyName(k));
  }

  /** With no initial data every key is null: the literal record the two
      other servers start from. */
  lemma InitialOfNothing()
    ensures Initial(map[]) == AllNull
  {
    RecordExt(Initial(map[]), AllNull);
  }

  /** The parsed JSON supplies key `k`: it has the key with a value that is
      neither null nor undefined. */
  predicate Supplies(parsed: Value, k: Key) {
    parsed.Object? && KeyName(k) in parsed.fields && !parsed.fields[KeyName(k)].Null?
  }

  /** `intakeData.k = parsed.k ?? intakeData.k` for the five keys in turn.
      None: `parsed` is null, so the first property read throws before any
      key is written. */
  function Merge(f: Record, parsed: Value): (r: Option<Record>)
    ensures r.None? <==> parsed.Null?
    ensures r.Some? ==> forall k :: Field(r.value, k) == (if Supplies(parsed, k) then parsed.fields[KeyName(k)] else Field(f, k))
  {
    if parsed.Null? then None
    else
      Some(Record(
        Coalesce(Property(parsed, "name").value, f.name),
        Coalesce(Property(parsed, "phone").value, f.phone),
        Coalesce(Property(parsed, "city").value, f.city),
        Coalesce(Property(parsed, "state").value, f.state),
        Coalesce(Property(parsed, "reason").value, f.reason)))
  }

  /** Keys other than the five never influence the merge. */
  lemma {:induction false} MergeIgnoresOtherKeys(f: Record, m1: map<string, Value>, m2: map<string, Value>)
    requires forall k :: (KeyName(k) in m1 <==> KeyName(k) in m2)
    requires forall k :: KeyName(k) in m1 ==> m1[KeyName(k)] == m2[KeyName(k)]
    ensures Merge(f, Object(m1)) == Merge(f, Object(m2))
  {
    var r1, r2 := Merge(f, Object(m1)).value, Merge(f, Object(m2)).value;
    forall k ensures Field(r1, k) == Field(r2, k) {
      assert Supplies(Object(m1), k) <==> Supplies(Object(m2), k);
    }
    RecordExt(r1, r2);
  }

  /** The record after handling one candidate JSON text (None: the text had
      no usable marker). A SyntaxError or a null value leaves the record as
      it was; the error is caught and logged. */
  function UpdateWith(f: Record, candidate: Option<string>, parse: string -> Option<Value>): Record {
    match candidate
    case None => f
    case Some(c) =>
      match parse(c)
      case None => f
      case Some(v) =>
        match Merge(f, v)
        case None => f
        case Some(g) => g
  }

  /** The JSON text the shared parser hands to JSON.parse: only a text that
      begins with the marker has one, and it is the whole rest, trimmed. */
  function PrefixCandidate(text: string): (c: Option<string>)
    ensures c.Some? <==> StartsWith(text, Marker)
    ensures c.Some? ==> c.value == Trim(text[|Marker|..])
  {
    if StartsWith(text, Marker) then Some(Trim(text[|Marker|..])) else None
  }

  /** The JSON text the root server hands to JSON.parse: the marker may
      stand anywhere; its first occurrence counts, and the text runs from
      just after it up to the first line feed, trimmed. */
  function AnywhereCandidate(text: string): (c: Option<string>)
    ensures c.Some? <==> Includes(text, Marker)
    ensures c.Some? ==> '\n' !in c.value
  {
    match IndexOf(text, Marker)
    case None => None
    case Some(i) =>
      var c := Trim(FirstLine(text[i + |Marker|..]));
      assert forall k :: 0 <= k < |c| ==> c[k] == FirstLine(text[i + |Marker|..])[TrimOffset(FirstLine(text[i + |Marker|..])) + k];
      Some(c)
  }

  /** updateIntakeFromText of src/utils/intake-parser.js, on values. */
  function AfterPrefixed(f: Record, text: string, parse: string -> Option<Value>): Record {
    UpdateWith(f, PrefixCandidate(text), parse)
  }

  /** updateIntakeFromText of the root server, on values. */
  function AfterAnywhere(f: Record, text: string, parse: string -> Option<Value>): Record {
    UpdateWith(f, AnywhereCandidate(text), parse)
  }

  // ---------------------------------------------------------------------
  // The intake record as the mutable object the servers hold.

  class IntakeRecord {
    var name: Value
    var phone: Value
    var city: Value
    var state: Value
    var reason: Value

    function Fields(): Record
      reads this
    {
      Record(name, phone, city, state, reason)
    }

    /** createIntakeData(initialData). */
    constructor Create(init: map<string, Value>)
      ensures Fields() == Initial(init)
    {
      name := InitialValue(init, "name");
      phone := InitialValue(init, "phone");
      city := InitialValue(init, "city");
      state := InitialValue(init, "state");
      reason := InitialValue(init, "reason");
    }
  }

  /** The five `??` assignments, applied in place to a non-null parsed value. */
  method CopyKnownFields(intake: IntakeRecord, parsed: Value)
    requires !parsed.Null?
    modifies intake
    ensures Merge(old(intake.Fields()), parsed) == Some(intake.Fields())
  {
    intake.name := Coalesce(Property(parsed, "name").value, intake.name);
    intake.phone := Coalesce(Property(parsed, "phone").value, intake.phone);
    intake.city := Coalesce(Property(parsed, "city").value, intake.city);
    intake.state := Coalesce(Property(parsed, "state").value, intake.state);
    intake.reason := Coalesce(Property(parsed, "reason").value, intake.reason);
  }

  /** updateIntakeFromText(text, intakeData) of src/utils/intake-parser.js:
      mutates the record in place; every error is caught. */
  method UpdateIntakeFromText(text: string, intake: IntakeRecord, parse: string -> Option<Value>)
    modifies intake
    ensures intake.Fields() == AfterPrefixed(old(intake.Fields()), text, parse)
  {
    if !StartsWith(text, Marker) {
      return;
    }
    var jsonPart := Trim(text[|Marker|..]);
    var parsed := parse(jsonPart);
    if parsed.None? || parsed.value.Null? {
      return;
    }
    CopyKnownFields(intake, parsed.value);
  }

  // ---------------------------------------------------------------------
  // Properties of the handoff extraction.

  /** The shared parser changes the record only for a text that begins with
      the marker; a marker preceded by spoken filler is ignored. */
  lemma {:induction false} PrefixNeedsLeadingMarker(f: Record, text: string, parse: string -> Option<Value>)
    requires AfterPrefixed(f, text, parse) != f
    ensures StartsWith(text, Marker)
  {
  }

  lemma {:induction false} PrefixIgnoresFiller(f: Record, filler: string, rest: string, parse: string -> Option<Value>)
    requires filler != [] && filler[0] != 'I'
    ensures AfterPrefixed(f, filler + Marker + rest, parse) == f
  {
    assert (filler + Marker + rest)[0] == filler[0];
  }

  /** For the shared parser a second line after the JSON stays part of the
      text handed to JSON.parse, whereas the root server's rule stops at the
      line feed. */
  lemma {:induction false} SecondLineStaysInPrefixCandidate(json: string, line2: string)
    requires json != [] && !IsWhitespace(json[0])
    requires line2 != [] && !IsWhitespace(line2[|line2| - 1])
    ensures PrefixCandidate(Marker + json + "\n" + line2) == Some(json + "\n" + line2)
  {
    var text := Marker + json + "\n" + line2;
    assert text[|Marker|..] == json + "\n" + line2;
    TrimKeeps(json + "\n" + line2);
  }

  lemma {:induction false} AnywhereStopsAtLineBreak(json: string, line2: string)
    requires '\n' !in json
    ensures AnywhereCandidate(Marker + json + "\n" + line2) == Some(Trim(json))
  {
    var text := Marker + json + "\n" + line2;
    assert OccursAt(text, Marker, 0);
    assert IndexOf(text, Marker) == Some(0);
    var rest := text[|Marker|..];
    assert rest == json + "\n" + line2;
    FirstLineOfBrokenText(json, line2);
  }

  /** A line made of the marker, one space and a JSON text hands the
      shared parser exactly that JSON text. */
  lemma {:induction false} PrefixCandidateOfLine(body: string)
    requires body != [] && !IsWhitespace(body[0]) && !IsWhitespace(body[|body| - 1])
    ensures PrefixCandidate(Marker + " " + body) == Some(body)
  {
    var text := Marker + " " + body;
    assert text[..|Marker|] == Marker;
    assert text[|Marker|..] == " " + body;
    TrimLeadingSpace(body);
  }

  /** The same for a JSON object text written on one line. */
  lemma {:induction false} PrefixCandidateOfObjectLine(members: string)
    ensures PrefixCandidate(Marker + " " + ("{" + members + "}")) == Some("{" + members + "}")
  {
    var body := "{" + members + "}";
    assert body[0] == '{' && body[|body| - 1] == '}';
    PrefixCandidateOfLine(body);
  }

  /** When the whole text is one line that begins with the marker, the two
      cutting rules hand the same text to JSON.parse. */
  lemma {:induction false} RulesAgreeOnOneLine(text: string)
    requires StartsWith(text, Marker) && '\n' !in text
    ensures PrefixCandidate(text) == AnywhereCandidate(text)
  {
    assert OccursAt(text, Marker, 0);
    assert IndexOf(text, Marker) == Some(0);
    var rest := text[|Marker|..];
    assert '\n' !in rest by {
      forall k | 0 <= k < |rest| ensures rest[k] != '\n' {
        assert rest[k] == text[|Marker| + k];
      }
    }
    FirstLineWhole(rest);
  }

  /** No occurrence of the marker can overlap an occurrence that starts
      later: its first character appears nowhere else in it. */
  lemma {:induction false} MarkerDoesNotOverlap(s: string, i: nat, j: nat)
    requires j < i < j + |Marker|
    requires OccursAt(s, Marker, i)
    ensures !OccursAt(s, Marker, j)
  {
    assert s[i] == s[i..i + |Marker|][0] == 'I';
    assert forall d :: 1 <= d < |Marker| ==> Marker[d] != 'I';
    assert j + |Marker| <= |s| ==> s[j..j + |Marker|][i - j] == s[i];
  }

  /** The root server finds the marker after any filler that does not
      itself contain the marker. */
  lemma {:induction false} AnywhereSkipsFiller(filler: string, rest: string)
    requires !Includes(filler, Marker)
    ensures AnywhereCandidate(filler + Marker + rest) == Some(Trim(FirstLine(rest)))
  {
    var text := filler + Marker + rest;
    var p := |filler|;
    assert text[p..p + |Marker|] == Marker;
    assert OccursAt(text, Marker, p);
    forall j | 0 <= j < p
      ensures !OccursAt(text, Marker, j)
    {
      if j + |Marker| <= p {
        assert text[j..j + |Marker|] == filler[j..j + |Marker|];
        assert !OccursAt(filler, Marker, j);
      } else {
        MarkerDoesNotOverlap(text, p, j);
      }
    }
    IndexOfEarliest(text, Marker, p);
    assert text[p + |Marker|..] == rest;
  }

  /** A line such as `prefix INTAKE: {"name":"Jane Doe"} trailing`: the
      root server hands JSON.parse everything after the marker on that line,
      trailing words included, so when that is not accepted as JSON the
      record is left as it was. */
  lemma {:induction false} AnywhereKeepsTrailingWords(f: Record, filler: string, body: string, parse: string -> Option<Value>)
    requires !Includes(filler, Marker)
    requires '\n' !in body
    requires body != [] && !IsWhitespace(body[0]) && !IsWhitespace(body[|body| - 1])
    ensures AnywhereCandidate(filler + Marker + " " + body) == Some(body)
    ensures parse(body).None? ==> AfterAnywhere(f, filler + Marker + " " + body, parse) == f
  {
    var rest := " " + body;
    assert filler + Marker + " " + body == filler + Marker + rest;
    AnywhereSkipsFiller(filler, rest);
    assert '\n' !in rest by {
      assert rest == [' '] + body;
    }
    FirstLineWhole(rest);
    TrimLeadingSpace(body);
  }

  /** A text without usable JSON (no marker, a SyntaxError, or `null`)
      leaves the record exactly as it was, under either rule. */
  lemma {:induction false} FailedParseKeepsRecord(f: Record, text: string, parse: string -> Option<Value>)
    ensures PrefixCandidate(text).Some? && parse(PrefixCandidate(text).value) in {None, Some(Null)}
            ==> AfterPrefixed(f, text, parse) == f
    ensures AnywhereCandidate(text).Some? && parse(AnywhereCandidate(text).value) in {None, Some(Null)}
            ==> AfterAnywhere(f, text, parse) == f
  {
  }

  /** Per key, last write wins: after an update each key holds the value
      the parsed JSON supplied, or else its old value; an explicit null
      erases nothing. */
  lemma {:induction false} UpdateIsPerKey(f: Record, c: string, parse: string -> Option<Value>, k: Key)
    requires parse(c).Some? && !parse(c).value.Null?
    ensures var v := parse(c).value;
            Field(UpdateWith(f, Some(c), parse), k) == (if Supplies(v, k) then v.fields[KeyName(k)] else Field(f, k))
    ensures var v := parse(c).value;
            v.Object? && KeyName(k) in v.fields && v.fields[KeyName(k)] == Null
            ==> Field(UpdateWith(f, Some(c), parse), k) == Field(f, k)
  {
  }

  /** Handling the same text twice gives the record handling it once gives. */
  lemma {:induction false} UpdateIdempotent(f: Record, c: Option<string>, parse: string -> Option<Value>)
    ensures UpdateWith(UpdateWith(f, c, parse), c, parse) == UpdateWith(f, c, parse)
  {
    if c.Some? && parse(c.value).Some? && !parse(c.value).value.Null? {
      var v := parse(c.value).value;
      var g := Merge(f, v).value;
      var h := Merge(g, v).value;
      forall k ensures Field(h, k) == Field(g, k) {
      }
      RecordExt(h, g);
    }
  }

  lemma {:induction false} PrefixIdempotent(f: Record, text: string, parse: string -> Option<Value>)
    ensures AfterPrefixed(AfterPrefixed(f, text, parse), text, parse) == AfterPrefixed(f, text, parse)
  {
    UpdateIdempotent(f, PrefixCandidate(text), parse);
  }

  lemma {:induction false} AnywhereIdempotent(f: Record, text: string, parse: string -> Option<Value>)
    ensures AfterAnywhere(AfterAnywhere(f, text, parse), text, parse) == AfterAnywhere(f, text, parse)
  {
    UpdateIdempotent(f, AnywhereCandidate(text), parse);
  }

  /** The record is built up across handoff lines: `{"name":"Jane"}` and
      then `{"phone":"6015551212"}` leave both keys set and the others as
      they were. */
  lemma {:induction false} UpdatesAccumulate(f: Record, c1: string, c2: string, parse: string -> Option<Value>)
    requires parse(c1) == Some(Object(map["name" := Str("Jane")]))
    requires parse(c2) == Some(Object(map["phone" := Str("6015551212")]))
    ensures var g := UpdateWith(UpdateWith(f, Some(c1), parse), Some(c2), parse);
            g == f.(name := Str("Jane"), phone := Str("6015551212"))
  {
    var v1, v2 := parse(c1).value, parse(c2).value;
    var g1 := UpdateWith(f, Some(c1), parse);
    var g := UpdateWith(g1, Some(c2), parse);
    var want := f.(name := Str("Jane"), phone := Str("6015551212"));
    forall k ensures Field(g, k) == Field(want, k) {
      assert Supplies(v1, k) <==> k == Name;
      assert Supplies(v2, k) <==> k == Phone;
    }
    RecordExt(g, want);
  }
}
