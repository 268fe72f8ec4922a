/**
 * services/geminiService.ts: how a text request is assembled, how the provider's
 * reply is decomposed into text, grounding chunks and function calls, how an image
 * reply becomes a data URI, how a geolocation reading becomes a coordinate, and the
 * simulated `controlLight` tool with its declaration.
 *
 * The provider itself is a function parameter from request to outcome: it either
 * responds or throws an error whose `message` may be missing.
 */
module GeminiService {
  import opened Types
  import opened JsText

  // ---------------------------------------------------------------- requests

  datatype ThinkingConfig = ThinkingConfig(thinkingBudget: int)

  /** The generation config; `{}` is `GenerateContentConfig(None)`. */
  datatype GenerateContentConfig = GenerateContentConfig(thinkingConfig: Option<ThinkingConfig>)

  const EmptyConfig: GenerateContentConfig := GenerateContentConfig(None)

  datatype RetrievalConfig = RetrievalConfig(latLng: LatLng)

  datatype ToolConfig = ToolConfig(retrievalConfig: RetrievalConfig)

  datatype SchemaType = TypeObject | TypeNumber | TypeString

  datatype PropertySchema = PropertySchema(kind: SchemaType, description: string)

  datatype ParametersSchema = ParametersSchema(
    kind: SchemaType,
    description: string,
    properties: seq<(string, PropertySchema)>,
    required: seq<string>)

  datatype FunctionDeclaration = FunctionDeclaration(name: string, parameters: ParametersSchema)

  /** One entry of the request's tool list: function declarations, or the built-in Maps tool. */
  datatype Tool = FunctionDeclarations(declarations: seq<FunctionDeclaration>) | GoogleMaps

  datatype TextPart = TextPart(text: string)

  datatype Contents = Contents(parts: seq<TextPart>)

  datatype GenerateContentParameters = GenerateContentParameters(
    model: string,
    contents: Contents,
    config: GenerateContentConfig,
    toolConfig: Option<ToolConfig>,
    tools: Option<seq<Tool>>)

  /** The prompt a request carries, when its contents are a single text part. */
  function PromptOf(request: GenerateContentParameters): Option<string> {
    if |request.contents.parts| == 1 then Some(request.contents.parts[0].text) else None
  }

  /** The request `generateTextContent` sends: the prompt as one text part, the rest unchanged. */
  function BuildRequest(
    modelName: string,
    prompt: string,
    config: GenerateContentConfig,
    toolConfig: Option<ToolConfig>,
    tools: Option<seq<Tool>>): (r: GenerateContentParameters)
    ensures PromptOf(r) == Some(prompt)
    ensures r.model == modelName && r.config == config && r.toolConfig == toolConfig && r.tools == tools
  {
    GenerateContentParameters(modelName, Contents([TextPart(prompt)]), config, toolConfig, tools)
  }

  // ---------------------------------------------------------------- text replies

  datatype ResponsePart = ResponsePart(text: Option<string>, functionCall: Option<ToolFunctionCall>)

  datatype Content = Content(parts: Option<seq<ResponsePart>>)

  datatype GroundingMetadata = GroundingMetadata(groundingChunks: Option<seq<GroundingChunk>>)

  datatype Candidate = Candidate(content: Option<Content>, groundingMetadata: Option<GroundingMetadata>)

  /** The provider's reply; `text` is the library's convenience accessor. */
  datatype GenerateContentResponse = GenerateContentResponse(text: Option<string>, candidates: Option<seq<Candidate>>)

  /** A provider call either responds or throws; a thrown error's message may be absent. */
  datatype ProviderOutcome<+R> = Responded(response: R) | Threw(message: Option<string>)

  /** What `generateTextContent` resolves to. */
  datatype TextContent = TextContent(
    text: string,
    groundingUrls: Option<seq<GroundingChunk>>,
    functionCalls: Option<seq<ToolFunctionCall>>)

  const NoTextResponse: string := "No text response."

  /** `response.candidates?.[0]` */
  function FirstCandidate(response: GenerateContentResponse): Option<Candidate> {
    if response.candidates.Some? && |response.candidates.value| > 0 then
      Some(response.candidates.value[0])
    else
      None
  }

  /** `response.candidates?.[0]?.content?.parts` */
  function FirstCandidateParts(response: GenerateContentResponse): Option<seq<ResponsePart>> {
    var candidate := FirstCandidate(response);
    if candidate.Some? && candidate.value.content.Some? then candidate.value.content.value.parts else None
  }

  /** `parts.filter(part => 'functionCall' in part).map(part => part.functionCall)` */
  function FunctionCallsOf(parts: seq<ResponsePart>): (calls: seq<ToolFunctionCall>)
    ensures |calls| <= |parts|
  {
    if parts == [] then []
    else
      var last := parts[|parts| - 1];
      FunctionCallsOf(parts[..|parts| - 1]) + (if last.functionCall.Some? then [last.functionCall.value] else [])
  }

  /** The extraction keeps the order of the parts: it distributes over concatenation. */
  lemma {:induction false} FunctionCallsOfAppend(a: seq<ResponsePart>, b: seq<ResponsePart>)
    ensures FunctionCallsOf(a + b) == FunctionCallsOf(a) + FunctionCallsOf(b)
  {
    if b == [] {
      assert a + b == a;
    } else {
      assert (a + b)[..|a + b| - 1] == a + b[..|b| - 1];
      FunctionCallsOfAppend(a, b[..|b| - 1]);
    }
  }

  /** A call is extracted exactly when some part carries it. */
  lemma {:induction false} FunctionCallsOfMember(parts: seq<ResponsePart>, call: ToolFunctionCall)
    ensures call in FunctionCallsOf(parts) <==> exists k :: 0 <= k < |parts| && parts[k].functionCall == Some(call)
  {
    if parts != [] {
      var init := parts[..|parts| - 1];
      FunctionCallsOfMember(init, call);
      if k :| 0 <= k < |init| && init[k].functionCall == Some(call) {
        assert parts[k] == init[k];
      }
      if k :| 0 <= k < |parts| && parts[k].functionCall == Some(call) {
        if k < |init| {
          assert init[k] == parts[k];
        }
      }
    }
  }

  /** The decomposition `generateTextContent` performs on a reply. */
  function ShapeTextResponse(response: GenerateContentResponse): (r: TextContent)
    ensures r.text != ""
    ensures response.text.Some? && response.text.value != "" ==> r.text == response.text.value
    ensures response.text.None? || response.text.value == "" ==> r.text == NoTextResponse
    ensures r.groundingUrls.Some? ==>
      FirstCandidate(response).Some? && FirstCandidate(response).value.groundingMetadata.Some?
    ensures FirstCandidate(response).Some? && FirstCandidate(response).value.groundingMetadata.Some? ==>
      r.groundingUrls == FirstCandidate(response).value.groundingMetadata.value.groundingChunks
    ensures r.functionCalls.None? <==> FirstCandidateParts(response).None?
    ensures r.functionCalls.Some? ==> r.functionCalls.value == FunctionCallsOf(FirstCandidateParts(response).value)
  {
    var text := if response.text.Some? && response.text.value != "" then response.text.value else NoTextResponse;
    var candidate := FirstCandidate(response);
    var chunks :=
      if candidate.Some? && candidate.value.groundingMetadata.Some? then
        candidate.value.groundingMetadata.value.groundingChunks
      else None;
    var parts := FirstCandidateParts(response);
    var calls := if parts.Some? then Some(FunctionCallsOf(parts.value)) else None;
    TextContent(text, chunks, calls)
  }

  /**
   * `generateTextContent`: send the assembled request once; a thrown error is rethrown
   * with its message, a reply is decomposed.
   */
  function GenerateTextContent(
    modelName: string,
    prompt: string,
    config: GenerateContentConfig,
    toolConfig: Option<ToolConfig>,
    tools: Option<seq<Tool>>,
    provider: GenerateContentParameters -> ProviderOutcome<GenerateContentResponse>): (r: Result<TextContent, Option<string>>)
    ensures var outcome := provider(BuildRequest(modelName, prompt, config, toolConfig, tools));
      && (r.Err? <==> outcome.Threw?)
      && (r.Err? ==> r.error == outcome.message)
      && (r.Ok? ==> r.value == ShapeTextResponse(outcome.response))
  {
    match provider(BuildRequest(modelName, prompt, config, toolConfig, tools))
    case Responded(response) => Ok(ShapeTextResponse(response))
    case Threw(message) => Err(message)
  }

  // ---------------------------------------------------------------- images

  datatype ImageConfig = ImageConfig(numberOfImages: nat, outputMimeType: string, aspectRatio: string)

  datatype GenerateImagesParameters = GenerateImagesParameters(model: string, prompt: string, config: ImageConfig)

  /** The image record of a generated image; the library may leave its bytes out. */
  datatype Image = Image(imageBytes: Option<string>)

  /** One generated image; the library may leave its image record out. */
  datatype GeneratedImage = GeneratedImage(image: Option<Image>)

  datatype GenerateImagesResponse = GenerateImagesResponse(generatedImages: Option<seq<GeneratedImage>>)

  const ImageModel: string := "imagen-4.0-generate-001"

  const JpegDataUriPrefix: string := "data:image/jpeg;base64,"

  /**
   * The message of the TypeError that reading `imageBytes` of a missing image record raises
   * (the wording of the V8 engine).
   */
  const MissingImageError: string := "Cannot read properties of undefined (reading 'imageBytes')"

  /** The request `generateImage` sends: one JPEG image with the caller's aspect ratio. */
  function BuildImageRequest(prompt: string, aspectRatio: string): (r: GenerateImagesParameters)
    ensures r.config.numberOfImages == 1
    ensures r.model == ImageModel && r.prompt == prompt
    ensures r.config.outputMimeType == "image/jpeg" && r.config.aspectRatio == aspectRatio
  {
    GenerateImagesParameters(ImageModel, prompt, ImageConfig(1, "image/jpeg", aspectRatio))
  }

  /** The base64 payload of a JPEG data URI, if `uri` is one. */
  function DataUriPayload(uri: string): Option<string> {
    if StartsWith(uri, JpegDataUriPrefix) then Some(uri[|JpegDataUriPrefix|..]) else None
  }

  /** `response.generatedImages && response.generatedImages.length > 0` */
  predicate HasImages(response: GenerateImagesResponse) {
    response.generatedImages.Some? && |response.generatedImages.value| > 0
  }

  /** How a template literal shows the bytes: "undefined" when they are absent. */
  function BytesText(bytes: Option<string>): string {
    if bytes.Some? then bytes.value else "undefined"
  }

  /**
   * `generateImage`'s result for a reply: no URL when no image came back, the first image
   * as a data URI otherwise, and the TypeError when the first image has no image record.
   */
  function ShapeImageResponse(response: GenerateImagesResponse): (r: Result<seq<string>, Option<string>>)
    ensures r.Err? <==> HasImages(response) && response.generatedImages.value[0].image.None?
    ensures r.Err? ==> r.error == Some(MissingImageError)
    ensures r.Ok? ==> |r.value| <= 1 && (r.value == [] <==> !HasImages(response))
    ensures r.Ok? && r.value != [] ==>
      DataUriPayload(r.value[0]) == Some(BytesText(response.generatedImages.value[0].image.value.imageBytes))
  {
    if HasImages(response) then
      match response.generatedImages.value[0].image
      case None => Err(Some(MissingImageError))
      case Some(image) =>
        var url := JpegDataUriPrefix + BytesText(image.imageBytes);
        StartsWithConcat(JpegDataUriPrefix, BytesText(image.imageBytes));
        Ok([url])
    else
      Ok([])
  }

  /** `generateImage`: one call; an error thrown by the call or while reading the reply is rethrown. */
  function GenerateImage(
    prompt: string,
    aspectRatio: string,
    provider: GenerateImagesParameters -> ProviderOutcome<GenerateImagesResponse>): (r: Result<seq<string>, Option<string>>)
    ensures var outcome := provider(BuildImageRequest(prompt, aspectRatio));
      && (outcome.Threw? ==> r.Err? && r.error == outcome.message)
      && (outcome.Responded? ==> r == ShapeImageResponse(outcome.response))
  {
    match provider(BuildImageRequest(prompt, aspectRatio))
    case Responded(response) => ShapeImageResponse(response)
    case Threw(message) => Err(message)
  }

  // ---------------------------------------------------------------- geolocation

  /** What the host's geolocation service reports for one lookup. */
  datatype GeolocationReading = Unsupported | PositionError | Position(latitude: real, longitude: real)

  /** `getGeolocation`: never fails; no coordinate when unsupported or on error. */
  function GetGeolocation(reading: GeolocationReading): (r: Option<LatLng>)
    ensures r.Some? <==> reading.Position?
    ensures r.Some? ==> r.value.latitude == reading.latitude && r.value.longitude == reading.longitude
  {
    match reading
    case Position(latitude, longitude) => Some(LatLng(latitude, longitude))
    case _ => None
  }

  // ---------------------------------------------------------------- the controlLight tool

  const ControlLightName: string := "controlLight"

  const LightResultPrefix: string := "Light control successful: Brightness "

  const LightColorSeparator: string := ", Color: "

  /**
   * How a template literal shows `args[key]`: an absent key shows as "undefined", a string
   * as itself, and a number as decimal text that reads back as that number.
   */
  function TemplateText(args: map<string, JsonValue>, key: string): (text: string)
    ensures key !in args ==> text == "undefined"
    ensures key in args && args[key].JStr? ==> text == args[key].s
    ensures key in args && args[key].JNum? ==> ParseInt(text) == Some(args[key].n)
  {
    if key !in args then "undefined"
    else match args[key]
      case JNum(n) =>
        IntToStringRoundTrip(n);
        IntToString(n)
      case JStr(s) => s
      case JBool(b) => if b then "true" else "false"
      case JNull => "null"
  }

  /**
   * The string `controlLight` resolves to (the arguments are cast, not checked). It always
   * opens with the success prefix, whatever the arguments hold.
   */
  function ControlLight(args: map<string, JsonValue>): (result: string)
    ensures StartsWith(result, LightResultPrefix)
  {
    StartsWithConcat(LightResultPrefix, TemplateText(args, "brightness") + LightColorSeparator + TemplateText(args, "colorTemperature"));
    assert LightResultPrefix + TemplateText(args, "brightness") + LightColorSeparator + TemplateText(args, "colorTemperature")
      == LightResultPrefix + (TemplateText(args, "brightness") + LightColorSeparator + TemplateText(args, "colorTemperature"));
    LightResultPrefix + TemplateText(args, "brightness") + LightColorSeparator + TemplateText(args, "colorTemperature")
  }

  /** Reads brightness and colour temperature back out of a `controlLight` result. */
  function ParseLightResult(s: string): Option<(int, string)> {
    if !StartsWith(s, LightResultPrefix) then None
    else
      var rest := s[|LightResultPrefix|..];
      var number := LeadingNumber(rest);
      var tail := rest[|number|..];
      if StartsWith(tail, LightColorSeparator) && ParseInt(number).Some? then
        Some((ParseInt(number).value, tail[|LightColorSeparator|..]))
      else
        None
  }

  lemma {:induction false} ParseLightResultOf(number: string, brightness: int, color: string)
    requires forall k :: 0 <= k < |number| ==> IsNumberChar(number[k])
    requires ParseInt(number) == Some(brightness)
    ensures ParseLightResult(LightResultPrefix + (number + (LightColorSeparator + color))) == Some((brightness, color))
  {
    var rest := number + (LightColorSeparator + color);
    StartsWithConcat(LightResultPrefix, rest);
    LeadingNumberOfConcat(number, LightColorSeparator + color);
    StartsWithConcat(number, LightColorSeparator + color);
    StartsWithConcat(LightColorSeparator, color);
  }

  /** For well-typed arguments the result string reports exactly the brightness and colour given. */
  lemma ControlLightReportsArgs(args: map<string, JsonValue>, brightness: int, colorTemperature: string)
    requires "brightness" in args && args["brightness"] == JNum(brightness)
    requires "colorTemperature" in args && args["colorTemperature"] == JStr(colorTemperature)
    ensures ParseLightResult(ControlLight(args)) == Some((brightness, colorTemperature))
  {
    var number := IntToString(brightness);
    assert ControlLight(args) == LightResultPrefix + (number + (LightColorSeparator + colorTemperature));
    IntToStringRoundTrip(brightness);
    ParseLightResultOf(number, brightness, colorTemperature);
  }

  /** `controlLightFunctionDeclaration` */
  const ControlLightDeclaration: FunctionDeclaration := FunctionDeclaration(
    ControlLightName,
    ParametersSchema(
      TypeObject,
      "Set the brightness and color temperature of a room light.",
      [("brightness", PropertySchema(TypeNumber, "Light level from 0 to 100. Zero is off and 100 is full brightness.")),
       ("colorTemperature", PropertySchema(TypeString, "Color temperature of the light fixture such as `daylight`, `cool` or `warm`."))],
      ["brightness", "colorTemperature"]))

  /** Every property a declaration requires is one it describes. */
  predicate RequiredAreDeclared(d: FunctionDeclaration) {
    forall k :: 0 <= k < |d.parameters.required| ==>
      exists j :: 0 <= j < |d.parameters.properties| && d.parameters.properties[j].0 == d.parameters.required[k]
  }

  /**
   * The declaration is named after the tool the chat dispatches, requires exactly the two
   * arguments `controlLight` reads, and describes both of them.
   */
  lemma ControlLightDeclarationShape()
    ensures ControlLightDeclaration.name == ControlLightName
    ensures ControlLightDeclaration.parameters.required == ["brightness", "colorTemperature"]
    ensures RequiredAreDeclared(ControlLightDeclaration)
  {
    var d := ControlLightDeclaration;
    assert d.parameters.properties[0].0 == d.parameters.required[0];
    assert d.parameters.properties[1].0 == d.parameters.required[1];
  }
}
