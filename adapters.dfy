/** The provider adapters and the dispatch of prompting.py: `_extract_output_text`,
    `call_gemini`, `call_openai_compatible` and `generate_prompt`. The vendor SDK calls,
    `base64.b64encode` and `json.loads` are not modelled; they are the fields of a `Services`
    value that every adapter receives, so each adapter is a function of what those return. */
module Adapters {
  import opened Wrappers
  import opened Text
  import opened Config
  import opened Credentials
  import opened Compiler

  /** The exceptions that leave `generate_prompt`: the adapters' own `RuntimeError`s, the
      dispatch's `ValueError`, and the two ways `json.loads(...).get(...)` fails on a reply
      that is not JSON, or is JSON but not an object. Nothing converts the last two. */
  datatype Error =
    | RuntimeError(message: string)
    | ValueError(message: string)
    | JsonDecodeError
    | AttributeError

  /** The dictionary both adapters return. */
  datatype PromptResult = PromptResult(prompt: string, negativePrompt: string)

  /** An uploaded image once read: its bytes and its declared content type, if any. */
  datatype ImageInput = ImageInput(data: seq<bv8>, contentType: Option<string>)

  /** What `json.loads` makes of a reply text. String-valued members only. */
  datatype Parsed = Malformed | NotAnObject | Object(fields: map<string, string>)

  /** `img.content_type or "image/png"`. */
  function MimeType(img: ImageInput): string {
    Or(img.contentType, Some("image/png")).GetOr("image/png")
  }

  datatype GeminiPart = BytesPart(data: seq<bv8>, mimeType: string)

  /** The arguments of `generate_content`: key, model, the image parts followed by the
      instruction text, the temperature and the requested reply type. */
  datatype GeminiRequest = GeminiRequest(
    apiKey: string, model: string, parts: seq<GeminiPart>, promptText: string,
    temperature: real, responseMimeType: string)

  datatype GeminiResponse = GeminiResponse(text: Option<string>)

  /** An exception raised by an SDK call: the HTTP status and body of the response it carries
      (`None` when it carries none, or its body cannot be read) and its `str()`. */
  datatype TransportError = TransportError(statusCode: Option<nat>, body: Option<string>, description: string)

  datatype CallOutcome<R> = Returned(reply: R) | Raised(error: TransportError)

  datatype UserPart = InputImage(imageUrl: string, detail: string) | InputText(text: string)

  datatype Message = SystemMessage(content: string) | UserMessage(parts: seq<UserPart>)

  /** The arguments of `OpenAI(...)` and `responses.create(...)`. */
  datatype ResponsesRequest = ResponsesRequest(
    apiKey: string, baseUrl: string, model: string, input: seq<Message>,
    temperature: real, store: bool, timeoutSeconds: real)

  datatype ContentPart = ContentPart(kind: string, text: Option<string>)
  datatype OutputItem = OutputItem(content: seq<ContentPart>)

  /** A Responses-API reply; a missing `output` list is the empty list. */
  datatype ResponsesResponse = ResponsesResponse(outputText: Option<string>, output: seq<OutputItem>)

  /** The collaborators the adapters call but that are not part of this model. */
  datatype Services = Services(
    generateContent: GeminiRequest -> CallOutcome<GeminiResponse>,
    createResponse: ResponsesRequest -> CallOutcome<ResponsesResponse>,
    base64: seq<bv8> -> string,
    parseJson: string -> Parsed)

  const FallbackPrompt := "Failed to generate prompt."

  /** The result mapping shared by both adapters: the reply's `prompt`, or the fallback text
      when it is missing or empty, and the family's normalised negative prompt. */
  function MapReply(fields: map<string, string>, familyId: string): (r: PromptResult)
    ensures r.prompt != ""
    ensures Truthy(Get(fields, "prompt")) ==> r.prompt == fields["prompt"]
    ensures !Truthy(Get(fields, "prompt")) ==> r.prompt == FallbackPrompt
    ensures r.negativePrompt == EnsureNegativePrompt(familyId, Get(fields, "negativePrompt"))
  {
    PromptResult(Or(Get(fields, "prompt"), Some(FallbackPrompt)).GetOr(FallbackPrompt),
                 EnsureNegativePrompt(familyId, Get(fields, "negativePrompt")))
  }

  /** The tail of both adapters: an empty reply text raises `emptyMessage` before anything is
      parsed; otherwise the text is parsed and mapped. */
  function ParseReply(parseJson: string -> Parsed, text: Option<string>, familyId: string,
                      emptyMessage: string): (r: Result<PromptResult, Error>)
    ensures !Truthy(text) ==> r == Failure(RuntimeError(emptyMessage))
    ensures Truthy(text) ==> (r.Failure? <==> !parseJson(text.value).Object?)
    ensures Truthy(text) && parseJson(text.value).Malformed? ==> r == Failure(JsonDecodeError)
    ensures Truthy(text) && parseJson(text.value).Object? ==>
      r == Success(MapReply(parseJson(text.value).fields, familyId))
  {
    if !Truthy(text) then Failure(RuntimeError(emptyMessage))
    else
      match parseJson(text.value)
      case Malformed => Failure(JsonDecodeError)
      case NotAnObject => Failure(AttributeError)
      case Object(fields) => Success(MapReply(fields, familyId))
  }

  /** A result either adapter returns has a non-empty prompt, and a non-empty negative prompt
      for `z_image`. */
  ghost predicate WellFormed(r: Result<PromptResult, Error>, familyId: string) {
    r.Success? ==> r.value.prompt != "" && (familyId == "z_image" ==> r.value.negativePrompt != "")
  }

  lemma ParseReplyWellFormed(parseJson: string -> Parsed, text: Option<string>, familyId: string, emptyMessage: string)
    ensures WellFormed(ParseReply(parseJson, text, familyId, emptyMessage), familyId)
  {
  }

  // ---------------------------------------------------------------------------------------
  // `_extract_output_text`

  /** A content part whose type marks it as text output and whose text is non-empty. */
  predicate IsTextPart(c: ContentPart) {
    (c.kind == "output_text" || c.kind == "text") && Truthy(c.text)
  }

  /** `parts[i]` is the first text part of `parts`. */
  ghost predicate FirstTextAt(parts: seq<ContentPart>, i: int) {
    && 0 <= i < |parts|
    && IsTextPart(parts[i])
    && forall j :: 0 <= j < i ==> !IsTextPart(parts[j])
  }

  /** The text of the first text part, if there is one. */
  function FirstText(parts: seq<ContentPart>): Option<string> {
    if parts == [] then None
    else if IsTextPart(parts[0]) then Some(parts[0].text.value)
    else FirstText(parts[1..])
  }

  /** Nothing is found exactly when no part is a text part, and what is found is the text of
      the first text part. */
  lemma {:induction false} FirstTextFound(parts: seq<ContentPart>)
    ensures FirstText(parts).None? <==> forall i :: 0 <= i < |parts| ==> !IsTextPart(parts[i])
    ensures FirstText(parts).Some? ==> exists i :: FirstTextAt(parts, i) && FirstText(parts).value == parts[i].text.value
  {
    if parts != [] {
      if IsTextPart(parts[0]) {
        assert FirstTextAt(parts, 0);
      } else {
        FirstTextFound(parts[1..]);
        var r := FirstText(parts[1..]);
        if r.Some? {
          var i :| FirstTextAt(parts[1..], i) && r.value == parts[1..][i].text.value;
          assert FirstTextAt(parts, i + 1);
        } else {
          forall i | 0 <= i < |parts| ensures !IsTextPart(parts[i]) {
            if i > 0 { assert parts[i] == parts[1..][i - 1]; }
          }
        }
      }
    }
  }

  lemma {:induction false} FirstTextAppend(a: seq<ContentPart>, b: seq<ContentPart>)
    ensures FirstText(a + b) == if FirstText(a).Some? then FirstText(a) else FirstText(b)
  {
    if a != [] {
      assert (a + b)[0] == a[0];
      assert (a + b)[1..] == a[1..] + b;
      FirstTextAppend(a[1..], b);
    } else {
      assert a + b == b;
    }
  }

  /** The content parts of all items, item by item, each item's parts in their order. */
  function Flatten(items: seq<OutputItem>): seq<ContentPart> {
    if items == [] then [] else Flatten(items[..|items| - 1]) + items[|items| - 1].content
  }

  lemma {:induction false} FlattenAppend(a: seq<OutputItem>, b: seq<OutputItem>)
    ensures Flatten(a + b) == Flatten(a) + Flatten(b)
    decreases |b|
  {
    if b != [] {
      assert (a + b)[..|a + b| - 1] == a + b[..|b| - 1];
      FlattenAppend(a, b[..|b| - 1]);
    } else {
      assert a + b == a;
    }
  }

  /** What `_extract_output_text` returns: a non-empty `output_text`, stripped; else the first
      text part in item/content order, stripped; else the empty string. */
  function OutputText(resp: ResponsesResponse): string {
    if Truthy(resp.outputText) then Strip(resp.outputText.value)
    else match FirstText(Flatten(resp.output))
      case Some(t) => Strip(t)
      case None => ""
  }

  /** The parts of the items before item `i`, the parts of item `i`, then the rest. */
  lemma FlattenAround(items: seq<OutputItem>, i: nat)
    requires i < |items|
    ensures Flatten(items) == Flatten(items[..i]) + items[i].content + Flatten(items[i + 1..])
  {
    var upTo := items[..i + 1];
    assert items == upTo + items[i + 1..];
    FlattenAppend(upTo, items[i + 1..]);
    assert upTo[..i] == items[..i];
  }

  lemma FirstTextHead(c: ContentPart, rest: seq<ContentPart>)
    ensures IsTextPart(c) ==> FirstText([c] + rest) == Some(c.text.value)
    ensures !IsTextPart(c) ==> FirstText([c]) == None
  {
    assert ([c] + rest)[0] == c;
  }

  /** Regrouping `a + b + e` around the element at index `k` of `b`. */
  lemma Regroup<T>(a: seq<T>, b: seq<T>, e: seq<T>, k: nat)
    requires k < |b|
    ensures a + b + e == (a + b[..k]) + ([b[k]] + (b[k + 1..] + e))
  {
    assert b == b[..k] + [b[k]] + b[k + 1..];
  }

  /** A text part preceded by no text part is what the scan finds. */
  lemma FirstTextAfter(before: seq<ContentPart>, c: ContentPart, after: seq<ContentPart>)
    requires FirstText(before) == None && IsTextPart(c)
    ensures FirstText(before + ([c] + after)) == Some(c.text.value)
  {
    FirstTextAppend(before, [c] + after);
    FirstTextHead(c, after);
  }

  /** A text part at (`i`, `k`) with nothing found before it is what the scan finds. */
  lemma FirstMatchAt(items: seq<OutputItem>, i: nat, k: nat)
    requires i < |items| && k < |items[i].content|
    requires IsTextPart(items[i].content[k])
    requires FirstText(Flatten(items[..i]) + items[i].content[..k]) == None
    ensures FirstText(Flatten(items)) == Some(items[i].content[k].text.value)
  {
    var content := items[i].content;
    FlattenAround(items, i);
    Regroup(Flatten(items[..i]), content, Flatten(items[i + 1..]), k);
    FirstTextAfter(Flatten(items[..i]) + content[..k], content[k], content[k + 1..] + Flatten(items[i + 1..]));
  }

  /** The scan in item/content order: with no non-empty `output_text`, the text part at
      (`i`, `k`) decides the result when every part before it, in that order, is not a text
      part. */
  lemma OutputTextFirstMatch(resp: ResponsesResponse, i: nat, k: nat)
    requires !Truthy(resp.outputText)
    requires i < |resp.output| && k < |resp.output[i].content|
    requires IsTextPart(resp.output[i].content[k])
    requires forall i', k' :: 0 <= i' < i && 0 <= k' < |resp.output[i'].content| ==>
      !IsTextPart(resp.output[i'].content[k'])
    requires forall k' :: 0 <= k' < k ==> !IsTextPart(resp.output[i].content[k'])
    ensures OutputText(resp) == Strip(resp.output[i].content[k].text.value)
  {
    var items := resp.output;
    NoTextBefore(items, i);
    var prefix := items[i].content[..k];
    FirstTextFound(prefix);
    FirstTextAppend(Flatten(items[..i]), prefix);
    FirstMatchAt(items, i, k);
  }

  /** With no text part anywhere, the result is the empty string. */
  lemma OutputTextNoMatch(resp: ResponsesResponse)
    requires !Truthy(resp.outputText)
    requires forall i', k' :: 0 <= i' < |resp.output| && 0 <= k' < |resp.output[i'].content| ==>
      !IsTextPart(resp.output[i'].content[k'])
    ensures OutputText(resp) == ""
  {
    NoTextBefore(resp.output, |resp.output|);
    assert resp.output[..|resp.output|] == resp.output;
  }

  /** With no text part in any item, the scan finds nothing. */
  lemma {:induction false} NoTextBefore(items: seq<OutputItem>, n: nat)
    requires n <= |items|
    requires forall i', k' :: 0 <= i' < n && 0 <= k' < |items[i'].content| ==> !IsTextPart(items[i'].content[k'])
    ensures FirstText(Flatten(items[..n])) == None
  {
    if n > 0 {
      NoTextBefore(items, n - 1);
      assert items[..n][..n - 1] == items[..n - 1];
      FirstTextFound(items[n - 1].content);
      FirstTextAppend(Flatten(items[..n - 1]), items[n - 1].content);
    }
  }

  /** prompting.py `_extract_output_text`: the nested scan returns at the first text part. */
  method ExtractOutputText(resp: ResponsesResponse) returns (text: string)
    ensures text == OutputText(resp)
  {
    if Truthy(resp.outputText) {
      return Strip(resp.outputText.value);
    }
    var items := resp.output;
    for i := 0 to |items|
      invariant FirstText(Flatten(items[..i])) == None
    {
      var content := items[i].content;
      assert items[..i + 1][..i] == items[..i];
      assert Flatten(items[..i]) + content[..0] == Flatten(items[..i]);
      for k := 0 to |content|
        invariant FirstText(Flatten(items[..i]) + content[..k]) == None
      {
        if IsTextPart(content[k]) {
          FirstMatchAt(items, i, k);
          return Strip(content[k].text.value);
        }
        FirstTextAppend(Flatten(items[..i]) + content[..k], [content[k]]);
        FirstTextHead(content[k], []);
        assert content[..k + 1] == content[..k] + [content[k]];
        assert Flatten(items[..i]) + content[..k + 1] == (Flatten(items[..i]) + content[..k]) + [content[k]];
      }
      assert content[..|content|] == content;
    }
    assert items[..|items|] == items;
    return "";
  }

  // ---------------------------------------------------------------------------------------
  // `call_gemini`

  function GeminiParts(images: seq<ImageInput>): seq<GeminiPart> {
    seq(|images|, i requires 0 <= i < |images| => BytesPart(images[i].data, MimeType(images[i])))
  }

  /** The `parts` loop of `call_gemini`: one byte part per image, in order, with its MIME
      type defaulting to `image/png`. */
  method BuildGeminiParts(images: seq<ImageInput>) returns (parts: seq<GeminiPart>)
    ensures |parts| == |images|
    ensures forall i :: 0 <= i < |images| ==>
      parts[i].data == images[i].data &&
      parts[i].mimeType == (if Truthy(images[i].contentType) then images[i].contentType.value else "image/png")
    ensures parts == GeminiParts(images)
  {
    parts := [];
    for i := 0 to |images|
      invariant parts == GeminiParts(images[..i])
    {
      parts := parts + [BytesPart(images[i].data, MimeType(images[i]))];
    }
    assert images[..|images|] == images;
  }

  function GeminiRequestFor(images: seq<ImageInput>, promptText: string, temperature: real, apiKey: string): GeminiRequest {
    GeminiRequest(apiKey, GeminiModel, GeminiParts(images), promptText, temperature, "application/json")
  }

  /** What `call_gemini` returns or raises. */
  function GeminiResult(services: Services, images: seq<ImageInput>, promptText: string, temperature: real,
                        apiKey: string, familyId: string): (r: Result<PromptResult, Error>)
  {
    match services.generateContent(GeminiRequestFor(images, promptText, temperature, apiKey))
    case Raised(e) => Failure(RuntimeError("Gemini API error: " + e.description))
    case Returned(resp) => ParseReply(services.parseJson, resp.text, familyId, "Gemini response was empty.")
  }

  /** Every failure of the Gemini adapter is a `RuntimeError` that names Gemini, or an
      unconverted JSON error; a transport failure is reported with its description. */
  lemma GeminiOutcomes(services: Services, images: seq<ImageInput>, promptText: string, temperature: real,
                       apiKey: string, familyId: string)
    ensures var r := GeminiResult(services, images, promptText, temperature, apiKey, familyId);
      && WellFormed(r, familyId)
      && (r.Failure? && r.error.RuntimeError? ==> StartsWith(r.error.message, "Gemini "))
      && (r.Failure? ==> r.error.RuntimeError? || r.error.JsonDecodeError? || r.error.AttributeError?)
  {
    var req := GeminiRequestFor(images, promptText, temperature, apiKey);
    match services.generateContent(req)
    case Raised(e) =>
      var m := "Gemini API error: " + e.description;
      assert m[..7] == "Gemini ";
    case Returned(resp) =>
      var m := "Gemini response was empty.";
      assert m[..7] == "Gemini ";
  }

  /** prompting.py `call_gemini`. */
  method CallGemini(services: Services, images: seq<ImageInput>, promptText: string, temperature: real,
                    apiKey: string, familyId: string) returns (r: Result<PromptResult, Error>)
    ensures r == GeminiResult(services, images, promptText, temperature, apiKey, familyId)
  {
    var parts := BuildGeminiParts(images);
    var outcome := services.generateContent(GeminiRequest(apiKey, GeminiModel, parts, promptText, temperature, "application/json"));
    if outcome.Raised? {
      return Failure(RuntimeError("Gemini API error: " + outcome.error.description));
    }
    var text := outcome.reply.text;
    if !Truthy(text) {
      return Failure(RuntimeError("Gemini response was empty."));
    }
    var parsed := services.parseJson(text.value);
    match parsed
    case Malformed => r := Failure(JsonDecodeError);
    case NotAnObject => r := Failure(AttributeError);
    case Object(fields) => r := Success(MapReply(fields, familyId));
  }

  // ---------------------------------------------------------------------------------------
  // `call_openai_compatible`

  const FollowInstruction := "Follow the system instructions and return the JSON object."

  function DataUrl(img: ImageInput, base64: seq<bv8> -> string): string {
    "data:" + MimeType(img) + ";base64," + base64(img.data)
  }

  function UserContent(images: seq<ImageInput>, base64: seq<bv8> -> string): seq<UserPart> {
    seq(|images|, i requires 0 <= i < |images| => InputImage(DataUrl(images[i], base64), "high"))
    + [InputText(FollowInstruction)]
  }

  /** The `user_content` loop of `call_openai_compatible`: one `input_image` part per image, in
      order, carrying the image as a base64 data URL with the `high` detail hint, followed by
      exactly one `input_text` part. */
  method BuildUserContent(images: seq<ImageInput>, base64: seq<bv8> -> string) returns (content: seq<UserPart>)
    ensures |content| == |images| + 1
    ensures forall i :: 0 <= i < |images| ==>
      content[i].InputImage? && content[i].detail == "high" &&
      content[i].imageUrl == "data:" + MimeType(images[i]) + ";base64," + base64(images[i].data)
    ensures content[|images|] == InputText(FollowInstruction)
    ensures content == UserContent(images, base64)
  {
    content := [];
    for i := 0 to |images|
      invariant |content| == i
      invariant forall k :: 0 <= k < i ==> content[k] == InputImage(DataUrl(images[k], base64), "high")
    {
      content := content + [InputImage(DataUrl(images[i], base64), "high")];
    }
    content := content + [InputText(FollowInstruction)];
  }

  /** The one `input_image` part per image and the closing `input_text` part, as a count of
      each kind. */
  lemma UserContentKinds(images: seq<ImageInput>, base64: seq<bv8> -> string)
    ensures var c := UserContent(images, base64);
      && (forall i :: 0 <= i < |c| ==> (c[i].InputImage? <==> i < |images|))
      && (forall i :: 0 <= i < |c| ==> (c[i].InputText? <==> i == |images|))
  {
  }

  function ResponsesRequestFor(baseUrl: string, model: string, apiKey: string, promptText: string,
                               images: seq<ImageInput>, temperature: real, base64: seq<bv8> -> string): ResponsesRequest {
    ResponsesRequest(apiKey, baseUrl, model,
                     [SystemMessage(promptText), UserMessage(UserContent(images, base64))],
                     temperature, false, 60.0)
  }

  /** The message of the `RuntimeError` raised for a failed call: the provider label, the
      status when it is non-zero, the body when it is non-empty, and the exception's text. */
  function TransportMessage(providerLabel: string, e: TransportError): (r: string)
    ensures StartsWith(r, providerLabel + " API HTTP")
    ensures EndsWith(r, " " + e.description)
    ensures (e.statusCode.None? || e.statusCode == Some(0)) && !Truthy(e.body) ==>
      r == providerLabel + " API HTTP " + e.description
  {
    var statusLine := if e.statusCode.Some? && e.statusCode.value != 0 then " " + NatToString(e.statusCode.value) else "";
    var detailLine := if Truthy(e.body) then ": " + e.body.value else "";
    var head := providerLabel + " API HTTP";
    var r := head + statusLine + detailLine + " " + e.description;
    assert r == head + (statusLine + detailLine + " " + e.description);
    assert r[..|head|] == head;
    assert r == (head + statusLine + detailLine) + (" " + e.description);
    r
  }

  /** What `call_openai_compatible` returns or raises. */
  function OpenAiResult(services: Services, baseUrl: string, model: string, apiKey: string, promptText: string,
                        images: seq<ImageInput>, temperature: real, provider: string, familyId: string): Result<PromptResult, Error>
    requires provider in ProviderLabels
  {
    match services.createResponse(ResponsesRequestFor(baseUrl, model, apiKey, promptText, images, temperature, services.base64))
    case Raised(e) => Failure(RuntimeError(TransportMessage(ProviderLabels[provider], e)))
    case Returned(resp) =>
      ParseReply(services.parseJson, Some(OutputText(resp)), familyId, "No response from " + ProviderLabels[provider] + " model.")
  }

  /** prompting.py `call_openai_compatible`; the label lookups require a provider that has a
      label. */
  method CallOpenAiCompatible(services: Services, baseUrl: string, model: string, apiKey: string, promptText: string,
                              images: seq<ImageInput>, temperature: real, provider: string, familyId: string)
    returns (r: Result<PromptResult, Error>)
    requires provider in ProviderLabels
    ensures r == OpenAiResult(services, baseUrl, model, apiKey, promptText, images, temperature, provider, familyId)
  {
    var userContent := BuildUserContent(images, services.base64);
    var messages := [SystemMessage(promptText), UserMessage(userContent)];
    var outcome := services.createResponse(ResponsesRequest(apiKey, baseUrl, model, messages, temperature, false, 60.0));
    if outcome.Raised? {
      return Failure(RuntimeError(TransportMessage(ProviderLabels[provider], outcome.error)));
    }
    var contentText := ExtractOutputText(outcome.reply);
    if contentText == "" {
      return Failure(RuntimeError("No response from " + ProviderLabels[provider] + " model."));
    }
    match services.parseJson(contentText)
    case Malformed => r := Failure(JsonDecodeError);
    case NotAnObject => r := Failure(AttributeError);
    case Object(fields) => r := Success(MapReply(fields, familyId));
  }

  // ---------------------------------------------------------------------------------------
  // `generate_prompt`

  /** `0.2 + config.get("creativityLevel", 0.5) * 0.6`, in exact arithmetic. */
  function Temperature(config: GenerationConfig): real {
    0.2 + config.creativityLevel.GetOr(0.5) * 0.6
  }

  /** A creativity level in [0, 1] maps to a temperature in [0.2, 0.8], its end points to the
      end points, and the default to 0.5; the mapping is strictly increasing. */
  lemma TemperatureRange(config: GenerationConfig, other: GenerationConfig)
    ensures config.creativityLevel == Some(0.0) ==> Temperature(config) == 0.2
    ensures config.creativityLevel == Some(1.0) ==> Temperature(config) == 0.8
    ensures config.creativityLevel.None? ==> Temperature(config) == 0.5
    ensures config.creativityLevel.Some? && 0.0 <= config.creativityLevel.value <= 1.0 ==>
      0.2 <= Temperature(config) <= 0.8
    ensures config.creativityLevel.Some? && other.creativityLevel.Some? ==>
      (config.creativityLevel.value < other.creativityLevel.value ==> Temperature(config) < Temperature(other))
  {
  }

  const OpenAiBaseUrl := "https://api.openai.com/v1"
  const GrokBaseUrl := "https://api.x.ai/v1"
  const UnsupportedProvider := "Unsupported provider selected."

  /** What `generate_prompt` returns or raises: the instruction document is compiled, the
      temperature derived, and the provider dispatched to its adapter. */
  function Generated(services: Services, images: seq<ImageInput>, config: GenerationConfig, provider: string,
                     apiKey: string, family: Family, checkpoint: Checkpoint): Result<PromptResult, Error>
  {
    var promptText := BuildPromptText(config, family, checkpoint);
    var temperature := Temperature(config);
    if provider == "gemini" then
      GeminiResult(services, images, promptText, temperature, apiKey, family.id)
    else if provider == "openai" then
      OpenAiResult(services, OpenAiBaseUrl, OpenAiModel, apiKey, promptText, images, temperature, provider, family.id)
    else if provider == "grok" then
      OpenAiResult(services, GrokBaseUrl, GrokModel, apiKey, promptText, images, temperature, provider, family.id)
    else Failure(ValueError(UnsupportedProvider))
  }

  /** prompting.py `generate_prompt`. */
  method GeneratePrompt(services: Services, images: seq<ImageInput>, config: GenerationConfig, provider: string,
                        apiKey: string, family: Family, checkpoint: Checkpoint) returns (r: Result<PromptResult, Error>)
    ensures r == Generated(services, images, config, provider, apiKey, family, checkpoint)
  {
    var promptText := BuildPromptText(config, family, checkpoint);
    var temperature := 0.2 + config.creativityLevel.GetOr(0.5) * 0.6;
    assert temperature == Temperature(config);
    if provider == "gemini" {
      r := CallGemini(services, images, promptText, temperature, apiKey, family.id);
    } else if provider == "openai" {
      r := CallOpenAiCompatible(services, OpenAiBaseUrl, OpenAiModel, apiKey, promptText, images, temperature, provider, family.id);
    } else if provider == "grok" {
      r := CallOpenAiCompatible(services, GrokBaseUrl, GrokModel, apiKey, promptText, images, temperature, provider, family.id);
    } else {
      r := Failure(ValueError(UnsupportedProvider));
    }
  }

  /** Only the three providers reach an adapter; every other id fails with `ValueError` and
      calls nothing. Whatever any adapter returns has a non-empty prompt, and a non-empty
      negative prompt for `z_image`. */
  lemma GeneratedDispatch(services: Services, images: seq<ImageInput>, config: GenerationConfig, provider: string,
                          apiKey: string, family: Family, checkpoint: Checkpoint)
    ensures var r := Generated(services, images, config, provider, apiKey, family, checkpoint);
      && (provider !in ProviderLabels <==> r == Failure(ValueError(UnsupportedProvider)))
      && WellFormed(r, family.id)
  {
    var promptText := BuildPromptText(config, family, checkpoint);
    var temperature := Temperature(config);
    var r := Generated(services, images, config, provider, apiKey, family, checkpoint);
    if provider == "gemini" {
      GeminiOutcomes(services, images, promptText, temperature, apiKey, family.id);
    } else if provider in {"openai", "grok"} {
      var baseUrl := if provider == "openai" then OpenAiBaseUrl else GrokBaseUrl;
      var model := if provider == "openai" then OpenAiModel else GrokModel;
      match services.createResponse(ResponsesRequestFor(baseUrl, model, apiKey, promptText, images, temperature, services.base64))
      case Raised(e) =>
      case Returned(resp) =>
        ParseReplyWellFormed(services.parseJson, Some(OutputText(resp)), family.id,
                             "No response from " + ProviderLabels[provider] + " model.");
    }
  }

  /** A Responses-API reply whose `output_text` is the JSON object with prompt "a cat" and
      negative prompt "blurry" yields exactly that pair, for every family. */
  lemma ResponsesReplyExample(services: Services, baseUrl: string, model: string, apiKey: string, promptText: string,
                              images: seq<ImageInput>, temperature: real, provider: string, familyId: string)
    requires provider in ProviderLabels
    requires forall req :: (services.createResponse(req) ==
      Returned(ResponsesResponse(Some("{\"prompt\":\"a cat\",\"negativePrompt\":\"blurry\"}"), [])))
    requires services.parseJson("{\"prompt\":\"a cat\",\"negativePrompt\":\"blurry\"}") ==
      Object(map["prompt" := "a cat", "negativePrompt" := "blurry"])
    ensures OpenAiResult(services, baseUrl, model, apiKey, promptText, images, temperature, provider, familyId) ==
      Success(PromptResult("a cat", "blurry"))
  {
    var body := "{\"prompt\":\"a cat\",\"negativePrompt\":\"blurry\"}";
    assert Clean(body);
    var fields := map["prompt" := "a cat", "negativePrompt" := "blurry"];
    assert Get(fields, "prompt") == Some("a cat");
    assert Get(fields, "negativePrompt") == Some("blurry");
  }

  /** A reply text that is not JSON is never turned into a partial result: the JSON error
      itself leaves the adapter. */
  lemma MalformedReplyFails(services: Services, baseUrl: string, model: string, apiKey: string, promptText: string,
                            images: seq<ImageInput>, temperature: real, provider: string, familyId: string,
                            resp: ResponsesResponse)
    requires provider in ProviderLabels
    requires services.createResponse(ResponsesRequestFor(baseUrl, model, apiKey, promptText, images, temperature, services.base64)) == Returned(resp)
    requires OutputText(resp) != "" && services.parseJson(OutputText(resp)).Malformed?
    ensures OpenAiResult(services, baseUrl, model, apiKey, promptText, images, temperature, provider, familyId) ==
      Failure(JsonDecodeError)
  {
  }
}
