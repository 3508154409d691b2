/**
  The backend's streaming generator: it fills in the default model id, picks
  the request body and the reply format by the model family named in the id,
  invokes the model with a streamed response, and yields the text of each
  stream event, dropping events without text. Any exception ends the stream
  with a single "Error: ..." item.

  The model service is a function from the model id and the request body to
  what the invocation produces; each event's chunk comes already decoded from
  JSON, or with the message of the exception decoding raised.
*/
module Backend {
  import opened Wrappers

  /** The default of ChatRequest.modelId, also used when the id is empty. */
  const DefaultModelId: string := "us.anthropic.claude-sonnet-4-5-20250929-v1:0"
  const AnthropicVersion: string := "bedrock-2023-05-31"
  const DeltaType: string := "content_block_delta"

  /** The body of POST /chat (the temperature is only passed through and is left out). */
  datatype ChatRequest = ChatRequest(prompt: string, modelId: string, maxTokens: int)

  /** A value decoded from JSON. Numbers are integers. */
  datatype Json =
    | JNull
    | JBool(b: bool)
    | JInt(n: int)
    | JStr(s: string)
    | JArr(elems: seq<Json>)
    | JObj(fields: map<string, Json>)

  /** Python's truth value of the decoded value. */
  predicate Truthy(v: Json) {
    match v
    case JNull => false
    case JBool(b) => b
    case JInt(n) => n != 0
    case JStr(s) => s != ""
    case JArr(elems) => elems != []
    case JObj(fields) => fields != map[]
  }

  /** The name of the Python type json.loads produces for the value. */
  function PyTypeName(v: Json): string {
    match v
    case JNull => "NoneType"
    case JBool(_) => "bool"
    case JInt(_) => "int"
    case JStr(_) => "str"
    case JArr(_) => "list"
    case JObj(_) => "dict"
  }

  /** The message of the AttributeError raised by calling `.get` on a value that is not a dict. */
  function NoGetMessage(v: Json): string {
    "'" + PyTypeName(v) + "' object has no attribute 'get'"
  }

  /** dict.get(key, default). */
  function Get(fields: map<string, Json>, key: string, default: Json): (v: Json)
    ensures key in fields ==> v == fields[key]
    ensures key !in fields ==> v == default
  {
    if key in fields then fields[key] else default
  }

  // ---------------------------------------------------------------------------
  // Model family

  /** Python's `sub in s` on strings. */
  function Contains(s: string, sub: string): (found: bool)
    ensures sub == [] ==> found
    ensures found ==> |sub| <= |s|
    decreases |s|
  {
    sub <= s || (s != [] && Contains(s[1..], sub))
  }

  predicate OccursAt(s: string, sub: string, i: int) {
    0 <= i && i + |sub| <= |s| && s[i..i + |sub|] == sub
  }

  /** An occurrence at position `i` is found by the substring test. */
  lemma {:induction false} OccurrenceIsFound(s: string, sub: string, i: int)
    requires OccursAt(s, sub, i)
    ensures Contains(s, sub)
    decreases i
  {
    if i == 0 {
      assert s[..|sub|] == sub;
    } else {
      assert s[1..][i - 1..i - 1 + |sub|] == s[i..i + |sub|];
      OccurrenceIsFound(s[1..], sub, i - 1);
    }
  }

  /** What the substring test finds occurs at some position `i` of `s`. */
  lemma {:induction false} FoundIsOccurrence(s: string, sub: string) returns (i: int)
    requires Contains(s, sub)
    ensures OccursAt(s, sub, i)
    decreases |s|
  {
    if sub <= s {
      i := 0;
      assert s[..|sub|] == sub;
    } else {
      var j := FoundIsOccurrence(s[1..], sub);
      i := j + 1;
      assert s[i..i + |sub|] == s[1..][j..j + |sub|];
    }
  }

  /** The substring test finds `sub` exactly when it occurs at some position of `s`. */
  lemma ContainsIffOccurs(s: string, sub: string)
    ensures Contains(s, sub) <==> exists i :: OccursAt(s, sub, i)
  {
    if Contains(s, sub) {
      var i := FoundIsOccurrence(s, sub);
    }
    if exists i :: OccursAt(s, sub, i) {
      var i :| OccursAt(s, sub, i);
      OccurrenceIsFound(s, sub, i);
    }
  }

  /** An empty id is replaced by the default one; any other id is kept. */
  function EffectiveModelId(modelId: string): (id: string)
    ensures id != ""
    ensures modelId != "" ==> id == modelId
    ensures modelId == "" ==> id == DefaultModelId
  {
    if modelId == "" then DefaultModelId else modelId
  }

  datatype Family = Claude | Llama | Titan

  /** The family by substring test, "claude" before "llama"; anything else is
      treated as Titan. */
  function FamilyOf(modelId: string): (family: Family)
    ensures family == Claude <==> Contains(modelId, "claude")
    ensures family == Llama <==> !Contains(modelId, "claude") && Contains(modelId, "llama")
    ensures family == Titan <==> !Contains(modelId, "claude") && !Contains(modelId, "llama")
  {
    if Contains(modelId, "claude") then Claude
    else if Contains(modelId, "llama") then Llama
    else Titan
  }

  /** An id naming both families is a Claude id; one naming only "llama" is a
      llama id; one naming neither is a Titan id. */
  lemma FamilyByOccurrence(modelId: string)
    ensures FamilyOf(modelId) == Claude <==> exists i :: OccursAt(modelId, "claude", i)
    ensures FamilyOf(modelId) == Llama <==>
              (forall i :: !OccursAt(modelId, "claude", i)) && exists i :: OccursAt(modelId, "llama", i)
  {
    ContainsIffOccurs(modelId, "claude");
    ContainsIffOccurs(modelId, "llama");
  }

  /** A request without a model id is served by Claude. */
  lemma DefaultModelIsClaude()
    ensures FamilyOf(EffectiveModelId("")) == Claude
  {
    assert DefaultModelId[13..19] == "claude" by {
      var id := DefaultModelId;
      assert id[13] == 'c' && id[14] == 'l' && id[15] == 'a' && id[16] == 'u' && id[17] == 'd' && id[18] == 'e';
    }
    OccurrenceIsFound(DefaultModelId, "claude", 13);
  }

  // ---------------------------------------------------------------------------
  // Request body

  datatype ClaudeTurn = ClaudeTurn(role: string, content: string)

  /** The JSON body sent to the model, one shape per family. */
  datatype RequestBody =
    | ClaudeBody(anthropicVersion: string, maxTokens: int, messages: seq<ClaudeTurn>)
    | LlamaBody(prompt: string, maxGenLen: int)
    | TitanBody(inputText: string, maxTokenCount: int)

  /** The body for the family: each shape carries the prompt unchanged and
      the token limit. */
  function BuildBody(family: Family, prompt: string, maxTokens: int): (body: RequestBody)
    ensures BodyFamily(body) == family
    ensures PromptOf(body) == Some(prompt)
    ensures TokenLimitOf(body) == maxTokens
  {
    match family
    case Claude => ClaudeBody(AnthropicVersion, maxTokens, [ClaudeTurn("user", prompt)])
    case Llama => LlamaBody(prompt, maxTokens)
    case Titan => TitanBody(prompt, maxTokens)
  }

  function BodyFamily(body: RequestBody): Family {
    match body
    case ClaudeBody(_, _, _) => Claude
    case LlamaBody(_, _) => Llama
    case TitanBody(_, _) => Titan
  }

  /** The prompt a body carries: a single user message for Claude, the prompt
      field for llama, the input text for Titan. */
  function PromptOf(body: RequestBody): Option<string> {
    match body
    case ClaudeBody(_, _, messages) =>
      if |messages| == 1 && messages[0].role == "user" then Some(messages[0].content) else None
    case LlamaBody(prompt, _) => Some(prompt)
    case TitanBody(inputText, _) => Some(inputText)
  }

  function TokenLimitOf(body: RequestBody): int {
    match body
    case ClaudeBody(_, maxTokens, _) => maxTokens
    case LlamaBody(_, maxGenLen) => maxGenLen
    case TitanBody(_, maxTokenCount) => maxTokenCount
  }

  // ---------------------------------------------------------------------------
  // Text of one event

  /** A chunk object whose "type" is "content_block_delta". */
  predicate IsDelta(chunk: Json) {
    chunk.JObj? && Get(chunk.fields, "type", JNull) == JStr(DeltaType)
  }

  /** The text a decoded chunk carries for the family, or the message of the
      exception raised while reading it. */
  function ExtractText(family: Family, chunk: Json): (r: Result<Json>)
    ensures r.Err? <==>
              || !chunk.JObj?
              || (family == Claude && IsDelta(chunk)
                  && ("delta" !in chunk.fields || !chunk.fields["delta"].JObj?))
    ensures r.Ok? && Truthy(r.value) ==>
              match family
              case Claude =>
                && IsDelta(chunk)
                && "text" in chunk.fields["delta"].fields
                && r.value == chunk.fields["delta"].fields["text"]
              case Llama =>
                "generation" in chunk.fields && r.value == chunk.fields["generation"]
              case Titan =>
                "outputText" in chunk.fields && r.value == chunk.fields["outputText"]
    ensures !chunk.JObj? ==> r == Err(NoGetMessage(chunk))
    ensures family == Claude && IsDelta(chunk) && "delta" !in chunk.fields ==> r == Err("'delta'")
    ensures family == Claude && IsDelta(chunk) && "delta" in chunk.fields && !chunk.fields["delta"].JObj? ==>
              r == Err(NoGetMessage(chunk.fields["delta"]))
    ensures r.Ok? && family == Claude && !IsDelta(chunk) ==> r.value == JStr("")
    ensures r.Ok? && family == Claude && IsDelta(chunk) ==>
              var delta := chunk.fields["delta"].fields;
              r.value == (if "text" in delta then delta["text"] else JStr(""))
    ensures r.Ok? && family == Llama ==>
              r.value == (if "generation" in chunk.fields then chunk.fields["generation"] else JStr(""))
    ensures r.Ok? && family == Titan ==>
              r.value == (if "outputText" in chunk.fields then chunk.fields["outputText"] else JStr(""))
  {
    if !chunk.JObj? then
      Err(NoGetMessage(chunk))
    else
      var fields := chunk.fields;
      match family
      case Claude =>
        if Get(fields, "type", JNull) == JStr(DeltaType) then
          if "delta" !in fields then
            Err("'delta'")
          else if !fields["delta"].JObj? then
            Err(NoGetMessage(fields["delta"]))
          else
            Ok(Get(fields["delta"].fields, "text", JStr("")))
        else
          Ok(JStr(""))
      case Llama =>
        Ok(Get(fields, "generation", JStr("")))
      case Titan =>
        Ok(Get(fields, "outputText", JStr("")))
  }

  /** One event of the model's response stream: without a chunk (or with an
      empty one), or with a chunk whose bytes decode to a JSON value or raise. */
  datatype Event = NoChunk | Chunk(payload: Result<Json>)

  /** What one event contributes: a text to yield, nothing, or an exception. */
  function Step(family: Family, event: Event): (r: Result<Option<Json>>)
    ensures r == Ok(None) <==>
              || event.NoChunk?
              || (event.payload.Ok? && ExtractText(family, event.payload.value).Ok?
                  && !Truthy(ExtractText(family, event.payload.value).value))
    ensures r.Ok? && r.value.Some? ==> Truthy(r.value.value)
    ensures r.Ok? ==> r.value == if Truthy(TextOf(family, event)) then Some(TextOf(family, event)) else None
    ensures r.Err? <==> event.Chunk? && (event.payload.Err? || ExtractText(family, event.payload.value).Err?)
    ensures r.Err? ==>
              r.message == if event.payload.Err? then event.payload.message
                           else ExtractText(family, event.payload.value).message
    ensures (family == Claude && event.Chunk? && event.payload.Ok? && event.payload.value.JObj?
             && !IsDelta(event.payload.value)) ==> r == Ok(None)
  {
    match event
    case NoChunk => Ok(None)
    case Chunk(Err(message)) => Err(message)
    case Chunk(Ok(chunk)) =>
      match ExtractText(family, chunk)
      case Err(message) => Err(message)
      case Ok(text) => if Truthy(text) then Ok(Some(text)) else Ok(None)
  }

  // ---------------------------------------------------------------------------
  // The event loop

  /** The items yielded so far, and the message of the exception that stopped
      the loop, if one did. */
  datatype Run = Run(items: seq<Json>, raised: Option<string>)

  /** The event loop over `events`: stops at the first exception; otherwise
      yields each event's text when it is truthy. */
  function Consume(family: Family, events: seq<Event>): (r: Run)
    ensures forall k :: 0 <= k < |r.items| ==> Truthy(r.items[k])
    ensures |r.items| <= |events|
  {
    if events == [] then
      Run([], None)
    else
      var before := Consume(family, events[..|events| - 1]);
      if before.raised.Some? then
        before
      else
        match Step(family, events[|events| - 1])
        case Err(message) => Run(before.items, Some(message))
        case Ok(None) => before
        case Ok(Some(text)) => Run(before.items + [text], None)
  }

  /** Running the loop over `a` then over `b`: `b` is read only if `a` raised nothing. */
  function Then(first: Run, second: Run): Run {
    if first.raised.Some? then first else Run(first.items + second.items, second.raised)
  }

  lemma {:induction false} ConsumeAppend(family: Family, a: seq<Event>, b: seq<Event>)
    ensures Consume(family, a + b) == Then(Consume(family, a), Consume(family, b))
    decreases |b|
  {
    if b == [] {
      assert a + b == a;
    } else {
      var b' := b[..|b| - 1];
      assert (a + b)[..|a + b| - 1] == a + b';
      ConsumeAppend(family, a, b');
    }
  }

  /** Once an event raises, the events after it are never looked at. */
  lemma ConsumeStopsAtRaise(family: Family, a: seq<Event>, b: seq<Event>)
    requires Consume(family, a).raised.Some?
    ensures Consume(family, a + b) == Consume(family, a)
  {
    ConsumeAppend(family, a, b);
  }

  /** An event that yields nothing can be removed without changing what the loop yields. */
  lemma SilentEventChangesNothing(family: Family, a: seq<Event>, e: Event, b: seq<Event>)
    requires Step(family, e) == Ok(None)
    ensures Consume(family, a + [e] + b) == Consume(family, a + b)
  {
    ConsumeAppend(family, a + [e], b);
    ConsumeAppend(family, a, [e]);
    ConsumeAppend(family, a, b);
    assert [e][..0] == [];
  }

  // Reference: the truthy texts, in order

  /** The text an event offers when it raises nothing (JNull when it has no chunk). */
  function TextOf(family: Family, event: Event): Json {
    match event
    case Chunk(Ok(chunk)) =>
      (match ExtractText(family, chunk) case Ok(text) => text case Err(_) => JNull)
    case _ => JNull
  }

  function Texts(family: Family, events: seq<Event>): (texts: seq<Json>)
    ensures |texts| == |events|
  {
    seq(|events|, i requires 0 <= i < |events| => TextOf(family, events[i]))
  }

  /** The truthy elements of `s`, in order. */
  function KeepTruthy(s: seq<Json>): (kept: seq<Json>)
    ensures |kept| <= |s|
    ensures forall k :: 0 <= k < |kept| ==> Truthy(kept[k]) && kept[k] in s
  {
    if s == [] then []
    else if Truthy(s[0]) then [s[0]] + KeepTruthy(s[1..])
    else KeepTruthy(s[1..])
  }

  lemma {:induction false} KeepTruthyAppend(a: seq<Json>, b: seq<Json>)
    ensures KeepTruthy(a + b) == KeepTruthy(a) + KeepTruthy(b)
    decreases |a|
  {
    if a != [] {
      assert (a + b)[1..] == a[1..] + b;
      KeepTruthyAppend(a[1..], b);
    } else {
      assert a + b == b;
    }
  }

  predicate RaisesNothing(family: Family, events: seq<Event>) {
    forall i :: 0 <= i < |events| ==> Step(family, events[i]).Ok?
  }

  /** When no event raises, the loop yields exactly the truthy texts of the
      events, in event order. */
  lemma {:induction false} ConsumeKeepsTruthyTexts(family: Family, events: seq<Event>)
    requires RaisesNothing(family, events)
    ensures Consume(family, events) == Run(KeepTruthy(Texts(family, events)), None)
    decreases |events|
  {
    if events != [] {
      var n := |events| - 1;
      var front := events[..n];
      assert RaisesNothing(family, front) by {
        forall i | 0 <= i < |front| ensures Step(family, front[i]).Ok? {
          assert front[i] == events[i];
        }
      }
      ConsumeKeepsTruthyTexts(family, front);
      assert events == front + [events[n]];
      ConsumeOneMore(family, front, events[n]);
      assert Texts(family, events) == Texts(family, front) + [TextOf(family, events[n])];
      KeepTruthyAppend(Texts(family, front), [TextOf(family, events[n])]);
    }
  }

  /** When the event at `j` is the first to raise, the loop yields the truthy
      texts of the events before it and stops with that event's exception. */
  lemma ConsumeFirstRaise(family: Family, events: seq<Event>, j: nat, message: string)
    requires j < |events|
    requires RaisesNothing(family, events[..j])
    requires Step(family, events[j]) == Err(message)
    ensures Consume(family, events) == Run(KeepTruthy(Texts(family, events[..j])), Some(message))
  {
    var front, upTo := events[..j], events[..j + 1];
    ConsumeKeepsTruthyTexts(family, front);
    assert upTo[..|upTo| - 1] == front && upTo[|upTo| - 1] == events[j];
    assert Consume(family, upTo) == Run(KeepTruthy(Texts(family, front)), Some(message));
    ConsumeStopsAtRaise(family, upTo, events[j + 1..]);
    assert upTo + events[j + 1..] == events;
  }

  /** One more event that raises nothing adds its text when that is truthy. */
  lemma ConsumeOneMore(family: Family, front: seq<Event>, e: Event)
    requires Consume(family, front).raised.None? && Step(family, e).Ok?
    ensures Consume(family, front + [e]) == Run(Consume(family, front).items + KeepTruthy([TextOf(family, e)]), None)
  {
    var text := TextOf(family, e);
    assert (front + [e])[..|front|] == front;
    assert [text][1..] == [];
    if Truthy(text) {
      assert KeepTruthy([text]) == [text];
    } else {
      assert KeepTruthy([text]) == [];
    }
  }

  // ---------------------------------------------------------------------------
  // The generator

  /** The response stream: its events, then either its end or the message of
      the exception reading on raises. */
  datatype EventStream = EventStream(events: seq<Event>, failure: Option<string>)

  /** What invoking the model produces: an exception, or a response whose
      body stream may be missing. */
  datatype Invocation = Raised(message: string) | Returned(body: Option<EventStream>)

  /** invoke_model_with_response_stream, as a function of the model id and the body. */
  type Service = (string, RequestBody) -> Invocation

  function ErrorItem(message: string): Json {
    JStr("Error: " + message)
  }

  /** The invocation the generator makes for the request. */
  function Invoke(request: ChatRequest, service: Service): Invocation {
    var modelId := EffectiveModelId(request.modelId);
    service(modelId, BuildBody(FamilyOf(modelId), request.prompt, request.maxTokens))
  }

  /** The yielded texts and the exception that ended the generator, if any. */
  function Outcome(request: ChatRequest, service: Service): (run: Run)
    ensures forall k :: 0 <= k < |run.items| ==> Truthy(run.items[k])
  {
    var family := FamilyOf(EffectiveModelId(request.modelId));
    match Invoke(request, service)
    case Raised(message) => Run([], Some(message))
    case Returned(None) => Run([], None)
    case Returned(Some(stream)) =>
      var run := Consume(family, stream.events);
      if run.raised.None? then Run(run.items, stream.failure) else run
  }

  /** Everything the generator yields: the texts, then one error item if an
      exception was raised, and nothing after it. */
  function Generated(request: ChatRequest, service: Service): (out: seq<Json>)
    ensures var run := Outcome(request, service);
            && |out| == |run.items| + (if run.raised.Some? then 1 else 0)
            && out[..|run.items|] == run.items
            && (run.raised.Some? ==> out[|out| - 1] == ErrorItem(run.raised.value))
    ensures Invoke(request, service).Raised? ==> out == [ErrorItem(Invoke(request, service).message)]
    ensures Invoke(request, service) == Returned(None) ==> out == []
  {
    var run := Outcome(request, service);
    run.items + (if run.raised.Some? then [ErrorItem(run.raised.value)] else [])
  }

  /** generate_stream: the list of items it yields for the request. */
  method GenerateStream(request: ChatRequest, service: Service) returns (out: seq<Json>)
    ensures out == Generated(request, service)
  {
    var modelId := request.modelId;
    if modelId == "" {
      modelId := DefaultModelId;
    }
    var family := FamilyOf(modelId);
    var body := BuildBody(family, request.prompt, request.maxTokens);
    out := [];
    match service(modelId, body) {
      case Raised(message) =>
        out := [ErrorItem(message)];
      case Returned(None) =>
      case Returned(Some(stream)) =>
        var events := stream.events;
        var i := 0;
        while i < |events|
          invariant 0 <= i <= |events|
          invariant Consume(family, events[..i]) == Run(out, None)
        {
          assert events[..i + 1][..i] == events[..i];
          var step := Step(family, events[i]);
          if step.Err? {
            ConsumeStopsAtRaise(family, events[..i + 1], events[i + 1..]);
            assert events[..i + 1] + events[i + 1..] == events;
            out := out + [ErrorItem(step.message)];
            return;
          }
          if step.value.Some? {
            out := out + [step.value.value];
          }
          i := i + 1;
        }
        assert events[..i] == events;
        if stream.failure.Some? {
          out := out + [ErrorItem(stream.failure.value)];
        }
    }
  }

  // ---------------------------------------------------------------------------
  // What the generator yields on each path

  /** Without an exception, the generator yields exactly the truthy texts of
      the events, read by the family of the effective model id, in order. */
  lemma CleanStreamYieldsTexts(request: ChatRequest, service: Service, stream: EventStream)
    requires Invoke(request, service) == Returned(Some(stream))
    requires stream.failure.None?
    requires RaisesNothing(FamilyOf(EffectiveModelId(request.modelId)), stream.events)
    ensures Generated(request, service)
         == KeepTruthy(Texts(FamilyOf(EffectiveModelId(request.modelId)), stream.events))
  {
    ConsumeKeepsTruthyTexts(FamilyOf(EffectiveModelId(request.modelId)), stream.events);
  }

  /** When the event at `j` is the first to raise, the generator yields the
      truthy texts of the events before it, then one error item, then stops. */
  lemma RaisingEventEndsStream(request: ChatRequest, service: Service, stream: EventStream, j: nat, message: string)
    requires Invoke(request, service) == Returned(Some(stream))
    requires j < |stream.events|
    requires RaisesNothing(FamilyOf(EffectiveModelId(request.modelId)), stream.events[..j])
    requires Step(FamilyOf(EffectiveModelId(request.modelId)), stream.events[j]) == Err(message)
    ensures Generated(request, service)
         == KeepTruthy(Texts(FamilyOf(EffectiveModelId(request.modelId)), stream.events[..j])) + [ErrorItem(message)]
  {
    ConsumeFirstRaise(FamilyOf(EffectiveModelId(request.modelId)), stream.events, j, message);
  }

  /** When reading the stream raises after its last event, the texts of all
      events are kept and one error item follows them. */
  lemma StreamFailureEndsStream(request: ChatRequest, service: Service, stream: EventStream, message: string)
    requires Invoke(request, service) == Returned(Some(stream))
    requires stream.failure == Some(message)
    requires RaisesNothing(FamilyOf(EffectiveModelId(request.modelId)), stream.events)
    ensures Generated(request, service)
         == KeepTruthy(Texts(FamilyOf(EffectiveModelId(request.modelId)), stream.events)) + [ErrorItem(message)]
  {
    ConsumeKeepsTruthyTexts(FamilyOf(EffectiveModelId(request.modelId)), stream.events);
  }
}
