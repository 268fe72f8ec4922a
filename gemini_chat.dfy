/**
 * components/GeminiChat.tsx: the assistant panel. Its state cells become the fields of
 * `ChatPanel`; `handleSendMessage`, `handleModeChange` and `fetchGeolocation` become
 * methods that update them. The mode switch is specified by `DescribeRequest`, the
 * tool-dispatch loop by `DispatchTrace` and the catch block by `ErrorText`.
 *
 * Each asynchronous handler is one method producing the state the panel settles in; the
 * provider is a function parameter, the geolocation lookup a parameter, and
 * `JSON.stringify` of the tool arguments a function parameter `stringify`.
 */
module GeminiChat {
  import opened Types
  import opened JsText
  import opened Constants
  import opened GeminiService

  const FlashModel: string := "gemini-2.5-flash"
  const ProModel: string := "gemini-2.5-pro"
  const ThinkingBudget: int := 32768

  const PromptRequiredError: string := "Please enter a prompt."
  const GeolocationRequiredError: string :=
    "Geolocation is required for Maps Search. Please wait for location or manually input."
  const FetchingGeolocationNotice: string := "Fetching geolocation..."
  const GeolocationFailedError: string :=
    "Failed to get geolocation. Maps search may not work. Please ensure location services are enabled."

  const ApiKeyMarker: string := "API key not valid"
  const NotFoundMarker: string := "Requested entity was not found."
  // The error texts are built from a short head so that their opening words are cheap to reason about.
  const InvalidApiKeyHead: string := "Invalid API Key."
  const InvalidApiKeyError: string := InvalidApiKeyHead + " Please check your environment configuration."
  const NotFoundHead: string := "API Error: "
  const NotFoundErrorPrefix: string :=
    NotFoundHead + "The requested resource was not found. This might indicate an issue with the model or a temporary service problem. For Maps Grounding, please ensure billing is enabled for the Maps API. See billing documentation: "
  const GenericErrorHead: string := "Failed to get "
  const GenericErrorPrefix: string := GenericErrorHead + "response from Gemini API: "
  const UnknownErrorText: string := "Unknown error"

  const UnknownToolPrefix: string := "\n\nUnknown tool call: "
  /** The three fixed pieces of a `controlLight` block. */
  const ToolCallHead: string := "\n\nTool Call: "
  const ArgsHead: string := " with args "
  const ToolResultHead: string := "\nTool Result: "

  /** The tool list of every mode except Maps search. */
  const DemoTools: seq<Tool> := [FunctionDeclarations([ControlLightDeclaration])]

  const ThinkingConfigured: GenerateContentConfig := GenerateContentConfig(Some(ThinkingConfig(ThinkingBudget)))

  // ---------------------------------------------------------------- request building

  /** What the mode switch decides before the provider is called. */
  datatype RequestDescriptor = RequestDescriptor(
    modelName: string,
    config: GenerateContentConfig,
    toolConfig: Option<ToolConfig>,
    tools: Option<seq<Tool>>)

  predicate UsesGoogleMaps(tools: Option<seq<Tool>>) {
    tools.Some? && GoogleMaps in tools.value
  }

  predicate DeclaresControlLight(tools: Option<seq<Tool>>) {
    tools.Some? &&
    exists k :: 0 <= k < |tools.value| && tools.value[k].FunctionDeclarations? &&
      exists j :: 0 <= j < |tools.value[k].declarations| && tools.value[k].declarations[j].name == ControlLightName
  }

  predicate UsesProModel(mode: GeminiChatMode) {
    mode == ProChat || mode == ThinkingMode
  }

  /**
   * The `switch (currentChatMode)` of `handleSendMessage`: Maps search needs a cached
   * location, uses only the Maps tool with the location as retrieval config and an empty
   * config; every other mode offers the `controlLight` declaration, and the Pro and
   * Thinking modes use the Pro model with the thinking budget.
   */
  function DescribeRequest(mode: GeminiChatMode, userLocation: Option<LatLng>): (r: Result<RequestDescriptor, string>)
    ensures r.Err? <==> mode == MapsSearch && userLocation.None?
    ensures r.Err? ==> r.error == GeolocationRequiredError
    ensures r.Ok? ==> (UsesGoogleMaps(r.value.tools) <==> mode == MapsSearch)
    ensures r.Ok? ==> (DeclaresControlLight(r.value.tools) <==> mode != MapsSearch)
    ensures r.Ok? ==> !(UsesGoogleMaps(r.value.tools) && DeclaresControlLight(r.value.tools))
    ensures r.Ok? && mode == MapsSearch ==>
      r.value.tools == Some([GoogleMaps]) &&
      r.value.toolConfig == Some(ToolConfig(RetrievalConfig(userLocation.value)))
    ensures r.Ok? && mode != MapsSearch ==> r.value.tools == Some(DemoTools) && r.value.toolConfig.None?
    ensures r.Ok? ==> (r.value.modelName == ProModel <==> UsesProModel(mode))
    ensures r.Ok? ==> (r.value.modelName == FlashModel <==> !UsesProModel(mode))
    ensures r.Ok? ==> (r.value.config == ThinkingConfigured <==> UsesProModel(mode))
    ensures r.Ok? ==> (r.value.config == EmptyConfig <==> !UsesProModel(mode))
  {
    assert DemoTools[0].declarations[0].name == ControlLightName;
    assert GoogleMaps !in DemoTools;
    match mode
    case FlashChat => Ok(RequestDescriptor(FlashModel, EmptyConfig, None, Some(DemoTools)))
    case ProChat => Ok(RequestDescriptor(ProModel, ThinkingConfigured, None, Some(DemoTools)))
    case MapsSearch =>
      if userLocation.None? then Err(GeolocationRequiredError)
      else Ok(RequestDescriptor(FlashModel, EmptyConfig, Some(ToolConfig(RetrievalConfig(userLocation.value))), Some([GoogleMaps])))
    case ThinkingMode => Ok(RequestDescriptor(ProModel, ThinkingConfigured, None, Some(DemoTools)))
  }

  /** `!prompt.trim()` */
  predicate IsBlankPrompt(prompt: string) {
    Trim(prompt) == ""
  }

  // ---------------------------------------------------------------- error classification

  datatype ErrorKind = InvalidApiKey | ResourceNotFound | ProviderFailure

  /** The catch block's tests, in order; an absent or empty message passes neither. */
  function ClassifyError(message: Option<string>): ErrorKind {
    if message.Some? && message.value != "" && Contains(message.value, ApiKeyMarker) then InvalidApiKey
    else if message.Some? && message.value != "" && Contains(message.value, NotFoundMarker) then ResourceNotFound
    else ProviderFailure
  }

  /** `err.message || 'Unknown error'` */
  function DisplayedMessage(message: Option<string>): string {
    if message.Some? && message.value != "" then message.value else UnknownErrorText
  }

  /** The error text the panel shows after the provider throws. */
  function ErrorText(message: Option<string>): (r: string)
    ensures message.Some? && Contains(message.value, ApiKeyMarker) ==> r == InvalidApiKeyError
    ensures message.Some? && !Contains(message.value, ApiKeyMarker) && Contains(message.value, NotFoundMarker) ==>
      StartsWith(r, NotFoundErrorPrefix) && Contains(r, MapsBillingDocsUrl)
    ensures (message.None? || !(Contains(message.value, ApiKeyMarker) || Contains(message.value, NotFoundMarker))) ==>
      StartsWith(r, GenericErrorPrefix) && r[|GenericErrorPrefix|..] == DisplayedMessage(message)
  {
    match ClassifyError(message)
    case InvalidApiKey => InvalidApiKeyError
    case ResourceNotFound =>
      StartsWithConcat(NotFoundErrorPrefix, MapsBillingDocsUrl);
      ContainsSuffix(NotFoundErrorPrefix, MapsBillingDocsUrl);
      NotFoundErrorPrefix + MapsBillingDocsUrl
    case ProviderFailure =>
      StartsWithConcat(GenericErrorPrefix, DisplayedMessage(message));
      GenericErrorPrefix + DisplayedMessage(message)
  }

  /** Which class a displayed error text belongs to, read from its opening words. */
  function KindOfErrorText(text: string): ErrorKind {
    if text == InvalidApiKeyError then InvalidApiKey
    else if StartsWith(text, NotFoundErrorPrefix) then ResourceNotFound
    else ProviderFailure
  }

  /** The three error texts are told apart: the shown text determines the class of the error. */
  lemma {:induction false} ErrorTextIdentifiesKind(message: Option<string>)
    ensures KindOfErrorText(ErrorText(message)) == ClassifyError(message)
  {
    var text := ErrorText(message);
    match ClassifyError(message)
    case InvalidApiKey =>
      assert InvalidApiKeyError[0] != NotFoundErrorPrefix[0];
    case ResourceNotFound =>
      assert text[0] != InvalidApiKeyError[0];
    case ProviderFailure =>
      assert text[0] == GenericErrorPrefix[0];
      assert text[0] != InvalidApiKeyError[0] && text[0] != NotFoundErrorPrefix[0];
  }

  // ---------------------------------------------------------------- tool dispatch

  /**
   * The block one function call appends to the displayed response: for `controlLight` it
   * ends with the tool's result (`ControlLightTrace` states the whole block), for any other
   * name it is the unknown-tool notice.
   */
  function ToolTrace(call: ToolFunctionCall, stringify: map<string, JsonValue> -> string): (block: string)
    ensures block != ""
    ensures call.name == ControlLightName ==> EndsWith(block, ControlLight(call.args))
    ensures call.name != ControlLightName ==> block == UnknownToolPrefix + call.name
  {
    EndsWithConcat(ToolCallHead + call.name + ArgsHead + stringify(call.args) + ToolResultHead, ControlLight(call.args));
    if call.name == ControlLightName then
      ToolCallHead + call.name + ArgsHead + stringify(call.args) + ToolResultHead + ControlLight(call.args)
    else
      UnknownToolPrefix + call.name
  }

  /**
   * A `controlLight` block names the tool, then shows the stringified arguments, then the
   * tool's result: after its opening words come exactly the arguments' text and the result.
   */
  lemma ControlLightTrace(call: ToolFunctionCall, stringify: map<string, JsonValue> -> string)
    requires call.name == ControlLightName
    ensures ToolTrace(call, stringify) ==
      ToolCallHead + ControlLightName + ArgsHead + stringify(call.args) + ToolResultHead + ControlLight(call.args)
    ensures StartsWith(ToolTrace(call, stringify), ToolCallHead + ControlLightName + ArgsHead)
    ensures ToolTrace(call, stringify)[|ToolCallHead + ControlLightName + ArgsHead|..] ==
      stringify(call.args) + ToolResultHead + ControlLight(call.args)
  {
    var head := ToolCallHead + ControlLightName + ArgsHead;
    var rest := stringify(call.args) + ToolResultHead + ControlLight(call.args);
    assert ToolTrace(call, stringify) == head + rest;
    StartsWithConcat(head, rest);
  }

  /** The blocks of all calls, in the order received. */
  function DispatchTrace(calls: seq<ToolFunctionCall>, stringify: map<string, JsonValue> -> string): string {
    if calls == [] then ""
    else DispatchTrace(calls[..|calls| - 1], stringify) + ToolTrace(calls[|calls| - 1], stringify)
  }

  /** Dispatch is sequential: the trace of a concatenation is the concatenation of the traces. */
  lemma {:induction false} DispatchTraceAppend(a: seq<ToolFunctionCall>, b: seq<ToolFunctionCall>, stringify: map<string, JsonValue> -> string)
    ensures DispatchTrace(a + b, stringify) == DispatchTrace(a, stringify) + DispatchTrace(b, stringify)
  {
    if b == [] {
      assert a + b == a;
    } else {
      assert (a + b)[..|a + b| - 1] == a + b[..|b| - 1];
      DispatchTraceAppend(a, b[..|b| - 1], stringify);
    }
  }

  /**
   * An unknown tool yields exactly its notice and processing goes on: the trace of
   * `before + [call] + after` is that of `before`, the notice, then that of `after`.
   */
  lemma UnknownToolDoesNotStopDispatch(
    before: seq<ToolFunctionCall>, call: ToolFunctionCall, after: seq<ToolFunctionCall>,
    stringify: map<string, JsonValue> -> string)
    requires call.name != ControlLightName
    ensures DispatchTrace(before + [call] + after, stringify) ==
      DispatchTrace(before, stringify) + UnknownToolPrefix + call.name + DispatchTrace(after, stringify)
  {
    var head := DispatchTrace(before, stringify);
    var tail := DispatchTrace(after, stringify);
    var notice := UnknownToolPrefix + call.name;
    DispatchTraceAppend(before + [call], after, stringify);
    DispatchTraceAppend(before, [call], stringify);
    DispatchTraceSingle(call, stringify);
    assert DispatchTrace([call], stringify) == notice;
    assert DispatchTrace(before + [call], stringify) == head + notice;
    ConcatAssociative(head, UnknownToolPrefix, call.name);
  }

  /** One more turn of the dispatch loop appends the next call's block. */
  lemma DispatchTraceStep(calls: seq<ToolFunctionCall>, i: nat, stringify: map<string, JsonValue> -> string)
    requires i < |calls|
    ensures DispatchTrace(calls[..i + 1], stringify) == DispatchTrace(calls[..i], stringify) + ToolTrace(calls[i], stringify)
  {
    assert calls[..i + 1][..i] == calls[..i];
  }

  lemma DispatchTraceSingle(call: ToolFunctionCall, stringify: map<string, JsonValue> -> string)
    ensures DispatchTrace([call], stringify) == ToolTrace(call, stringify)
  {
    assert [call][..0] == [];
  }

  /** Regrouping a concatenation; stated once so the dispatch loop need not search for it. */
  lemma ConcatAssociative(a: string, b: string, c: string)
    ensures (a + b) + c == a + (b + c)
  {
  }

  /** The calls a reply asks for; none when the reply has no parts. */
  function CallsOf(content: TextContent): seq<ToolFunctionCall> {
    if content.functionCalls.Some? then content.functionCalls.value else []
  }

  // ---------------------------------------------------------------- the panel

  class ChatPanel {
    var prompt: string
    var response: string
    var loading: bool
    var error: Option<string>
    var groundingUrls: Option<seq<GroundingChunk>>
    var currentChatMode: GeminiChatMode
    var userLocation: Option<LatLng>

    constructor ()
      ensures prompt == "" && response == "" && !loading && error.None? && groundingUrls.None?
      ensures currentChatMode == FlashChat && userLocation.None?
    {
      prompt := "";
      response := "";
      loading := false;
      error := None;
      groundingUrls := None;
      currentChatMode := FlashChat;
      userLocation := None;
    }

    /** The prompt text area's `onChange`. */
    method SetPrompt(value: string)
      modifies this`prompt
      ensures prompt == value
    {
      prompt := value;
    }

    /**
     * `handleSendMessage`. `issued` is the request handed to the provider, if any. The
     * send button is disabled while loading, so the handler is never entered then.
     */
    method HandleSendMessage(
      provider: GenerateContentParameters -> ProviderOutcome<GenerateContentResponse>,
      stringify: map<string, JsonValue> -> string)
      returns (issued: Option<GenerateContentParameters>)
      requires !loading
      modifies this`response, this`loading, this`error, this`groundingUrls
      ensures !loading
      // a blank prompt is refused before anything else changes
      ensures IsBlankPrompt(prompt) ==>
        issued.None? && error == Some(PromptRequiredError) &&
        response == old(response) && groundingUrls == old(groundingUrls)
      // Maps search without a location: the state was reset, no request is sent
      ensures !IsBlankPrompt(prompt) && DescribeRequest(currentChatMode, userLocation).Err? ==>
        issued.None? && error == Some(GeolocationRequiredError) && response == "" && groundingUrls.None?
      ensures !IsBlankPrompt(prompt) && DescribeRequest(currentChatMode, userLocation).Ok? ==>
        var d := DescribeRequest(currentChatMode, userLocation).value;
        var reply := GenerateTextContent(d.modelName, prompt, d.config, d.toolConfig, d.tools, provider);
        && issued == Some(BuildRequest(d.modelName, prompt, d.config, d.toolConfig, d.tools))
        && (reply.Ok? ==>
              response == reply.value.text + DispatchTrace(CallsOf(reply.value), stringify) &&
              error.None? && groundingUrls == reply.value.groundingUrls)
        && (reply.Err? ==> response == "" && error == Some(ErrorText(reply.error)) && groundingUrls.None?)
    {
      issued := None;
      if Trim(prompt) == "" {
        error := Some(PromptRequiredError);
        return;
      }

      loading := true;
      response := "";
      error := None;
      groundingUrls := None;

      var modelName: string;
      var config := EmptyConfig;
      var toolConfig: Option<ToolConfig> := None;
      var tools: Option<seq<Tool>> := None;
      match currentChatMode {
        case FlashChat =>
          modelName := FlashModel;
          tools := Some(DemoTools);
        case ProChat =>
          modelName := ProModel;
          config := ThinkingConfigured;
          tools := Some(DemoTools);
        case MapsSearch =>
          modelName := FlashModel;
          if userLocation.None? {
            error := Some(GeolocationRequiredError);
            loading := false;
            return;
          }
          tools := Some([GoogleMaps]);
          toolConfig := Some(ToolConfig(RetrievalConfig(userLocation.value)));
          config := EmptyConfig;
        case ThinkingMode =>
          modelName := ProModel;
          config := ThinkingConfigured;
          tools := Some(DemoTools);
      }

      assert DescribeRequest(currentChatMode, userLocation) == Ok(RequestDescriptor(modelName, config, toolConfig, tools));
      issued := Some(BuildRequest(modelName, prompt, config, toolConfig, tools));
      var reply := GenerateTextContent(modelName, prompt, config, toolConfig, tools, provider);
      match reply {
        case Ok(content) =>
          ShowReply(content, stringify);
        case Err(message) =>
          error := Some(ErrorText(message));
      }
      loading := false;
    }

    /**
     * The part of `handleSendMessage` after the provider replied: show the text, keep the
     * grounding chunks if there are any, then run the function calls one after another,
     * appending each one's block to the response.
     */
    method ShowReply(content: TextContent, stringify: map<string, JsonValue> -> string)
      requires groundingUrls.None?
      modifies this`response, this`groundingUrls
      ensures response == content.text + DispatchTrace(CallsOf(content), stringify)
      ensures groundingUrls == content.groundingUrls
    {
      response := content.text;
      if content.groundingUrls.Some? {
        groundingUrls := content.groundingUrls;
      }
      if content.functionCalls.Some? && |content.functionCalls.value| > 0 {
        var calls := content.functionCalls.value;
        var i := 0;
        while i < |calls|
          modifies this`response
          invariant 0 <= i <= |calls|
          invariant response == content.text + DispatchTrace(calls[..i], stringify)
        {
          var fc := calls[i];
          var block: string;
          if fc.name == ControlLightName {
            var toolResult := ControlLight(fc.args);
            block := ToolCallHead + fc.name + ArgsHead + stringify(fc.args) + ToolResultHead + toolResult;
          } else {
            block := UnknownToolPrefix + fc.name;
          }
          assert block == ToolTrace(fc, stringify);
          DispatchTraceStep(calls, i, stringify);
          ConcatAssociative(content.text, DispatchTrace(calls[..i], stringify), block);
          response := response + block;
          i := i + 1;
        }
        assert calls[..|calls|] == calls;
      }
    }

    /** `handleModeChange`: the prompt and a cached location survive a mode switch. */
    method HandleModeChange(mode: GeminiChatMode)
      modifies this`currentChatMode, this`response, this`error, this`groundingUrls
      ensures currentChatMode == mode && response == "" && error.None? && groundingUrls.None?
      ensures prompt == old(prompt) && userLocation == old(userLocation) && loading == old(loading)
    {
      currentChatMode := mode;
      response := "";
      error := None;
      groundingUrls := None;
    }

    /**
     * `fetchGeolocation`, run after each mode change: a lookup happens only in Maps
     * search with no cached location; `reading` is what the host reports.
     */
    method FetchGeolocation(reading: GeolocationReading) returns (looked: bool)
      modifies this`error, this`userLocation
      ensures looked <==> currentChatMode == MapsSearch && old(userLocation).None?
      ensures !looked ==> error == old(error) && userLocation == old(userLocation)
      ensures looked ==> userLocation == GetGeolocation(reading)
      ensures looked && userLocation.Some? ==> error.None?
      ensures looked && userLocation.None? ==> error == Some(GeolocationFailedError)
      ensures old(userLocation).Some? ==> userLocation == old(userLocation)
    {
      looked := false;
      if currentChatMode == MapsSearch && userLocation.None? {
        looked := true;
        error := Some(FetchingGeolocationNotice);
        var location := GetGeolocation(reading);
        if location.Some? {
          userLocation := location;
          error := None;
        } else {
          error := Some(GeolocationFailedError);
        }
      }
    }
  }
}
