/** The records and enumerations of types.ts, as Dafny values. */
module Types {

  datatype Option<+T> = None | Some(value: T)

  datatype Result<+T, +E> = Ok(value: T) | Err(error: E)

  /** One entry of the directory (types.ts `Professional`). `rating` is a JavaScript number. */
  datatype Professional = Professional(
    id: string,
    name: string,
    title: string,
    location: string,
    skills: seq<string>,
    rating: real,
    avatar: string)

  /** A coordinate; latitude and longitude are only passed through, never computed on. */
  datatype LatLng = LatLng(latitude: real, longitude: real)

  /** The four assistant modes (types.ts `GeminiChatMode`). */
  datatype GeminiChatMode = FlashChat | ProChat | MapsSearch | ThinkingMode

  datatype WebSource = WebSource(uri: string, title: Option<string>)

  datatype ReviewSnippet = ReviewSnippet(text: string)

  datatype PlaceAnswerSources = PlaceAnswerSources(reviewSnippets: Option<seq<ReviewSnippet>>)

  datatype MapsSource = MapsSource(uri: string, title: Option<string>, placeAnswerSources: Option<PlaceAnswerSources>)

  /** A grounding citation: a web page, a place, or (as the record allows) both or neither. */
  datatype GroundingChunk = GroundingChunk(web: Option<WebSource>, maps: Option<MapsSource>)

  /**
   * The dynamically typed values a tool call's arguments may hold. Only integral numbers
   * are represented; nested objects and arrays are not.
   */
  datatype JsonValue = JNum(n: int) | JStr(s: string) | JBool(b: bool) | JNull

  /** A function-call request from the model (types.ts `ToolFunctionCall`). */
  datatype ToolFunctionCall = ToolFunctionCall(name: string, args: map<string, JsonValue>, id: Option<string>)
}

/** The constants of constants.ts that the core uses. */
module Constants {

  const MapsBillingDocsUrl: string := "ai.google.dev/gemini-api/docs/billing"
}
