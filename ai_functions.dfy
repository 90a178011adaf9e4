/** The logic around the three model calls of src/server/ai-functions.ts:
    the configuration and image guards, the image URL sent with the
    request, the extraction of the JSON object from the reply, the
    defaults filled into the result, the figures computed for the
    prediction prompt, and the choice of commentary prompt. The API key is
    a parameter ("" when unset); the model's reply and the JSON parser are
    parameters too. Prices are plain numbers, as in the source. */
module AiFunctions {
  import opened Wire
  import Pricing

  datatype Outcome<T> = Success(data: T) | Failure(error: string)

  /** How a model call ended: with its text (an absent content is ""), or
      with an exception and its message. */
  datatype Reply = Content(text: string) | Threw(message: string)

  /** JSON values. */
  datatype JsonValue =
    | JNull
    | JBool(b: bool)
    | JNumber(n: real)
    | JString(s: string)
    | JArray(items: seq<JsonValue>)
    | JObject(fields: map<string, JsonValue>)

  /** `JSON.parse`: the object, or None when it throws. */
  type Parser = string -> Option<map<string, JsonValue>>

  /** JavaScript truthiness of a field that may be absent. */
  predicate Truthy(v: Option<JsonValue>)
  {
    match v
    case None => false
    case Some(JNull) => false
    case Some(JBool(b)) => b
    case Some(JNumber(n)) => n != 0.0
    case Some(JString(s)) => s != ""
    case Some(_) => true
  }

  function Field(obj: map<string, JsonValue>, name: string): Option<JsonValue>
  {
    if name in obj then Some(obj[name]) else None
  }

  /** `obj.name || fallback`. */
  function OrDefault(obj: map<string, JsonValue>, name: string, fallback: string): (v: JsonValue)
    ensures Truthy(Field(obj, name)) ==> v == obj[name]
    ensures !Truthy(Field(obj, name)) ==> v == JString(fallback)
  {
    var f := Field(obj, name);
    if Truthy(f) then f.value else JString(fallback)
  }

  /** `typeof obj.name === 'number' ? obj.name : fallback`. */
  function NumberOr(obj: map<string, JsonValue>, name: string, fallback: real): (r: real)
    ensures name in obj && obj[name].JNumber? ==> r == obj[name].n
    ensures !(name in obj && obj[name].JNumber?) ==> r == fallback
  {
    if name in obj && obj[name].JNumber? then obj[name].n else fallback
  }

  const NotConfigured := "AI service not configured. Add OPENAI_API_KEY to .env"
  const InvalidResponse := "AI returned invalid response"

  // ---------------------------------------------------------------------
  // Reply parsing
  // ---------------------------------------------------------------------

  /** The position of the last `c` in `s`. */
  function LastIndexOf(s: string, c: char): (i: nat)
    requires c in s
    ensures i < |s| && s[i] == c && c !in s[i + 1..]
  {
    if s[|s| - 1] == c then |s| - 1
    else
      assert c in s[..|s| - 1] by {
        var k :| 0 <= k < |s| && s[k] == c;
        assert s[..|s| - 1][k] == c;
      }
      var i := LastIndexOf(s[..|s| - 1], c);
      assert s[i + 1..] == s[..|s| - 1][i + 1..] + [s[|s| - 1]];
      i
  }

  /** `text.match(/\{[\s\S]*\}/)`: from the first '{' to the last '}'
      after it, or None when there is no such pair. */
  function ExtractJson(text: string): Option<string>
  {
    if '{' !in text then None
    else
      var i := Pricing.IndexOf(text, '{');
      if '}' !in text[i..] then None
      else Some(text[i..i + LastIndexOf(text[i..], '}') + 1])
  }

  /** The span found starts at the first '{', ends at the last '}', and is
      found exactly when some '}' follows the first '{'. */
  lemma ExtractJsonSpan(text: string)
    ensures ExtractJson(text).Some? <==>
      exists i, j :: 0 <= i < j < |text| && text[i] == '{' && text[j] == '}'
    ensures ExtractJson(text).Some? ==>
      exists i, j :: 0 <= i < j < |text| && ExtractJson(text).value == text[i..j + 1] &&
        text[i] == '{' && '{' !in text[..i] && text[j] == '}' && '}' !in text[j + 1..]
  {
    if '{' in text {
      var i := Pricing.IndexOf(text, '{');
      if '}' in text[i..] {
        var k := LastIndexOf(text[i..], '}');
        var j := i + k;
        assert text[i..][k] == '}';
        assert text[j + 1..] == text[i..][k + 1..];
        assert k > 0;
      } else {
        forall a, b | 0 <= a < b < |text| && text[a] == '{' && text[b] == '}'
          ensures false
        {
        }
      }
    }
  }

  /** Extraction, then parsing; either failure is the same error. */
  function ParseReply(text: string, parse: Parser): Outcome<map<string, JsonValue>>
  {
    var span := ExtractJson(text);
    if span.None? then Failure(InvalidResponse)
    else
      var parsed := parse(span.value);
      if parsed.None? then Failure(InvalidResponse) else Success(parsed.value)
  }

  /** A reply the functions can use: it holds a `{...}` span, and
      `JSON.parse` accepts that span. */
  predicate Usable(text: string, parse: Parser)
  {
    ExtractJson(text).Some? && parse(ExtractJson(text).value).Some?
  }

  // ---------------------------------------------------------------------
  // analyzeProductImage
  // ---------------------------------------------------------------------

  datatype ImageInput = ImageInput(imageUrl: Option<string>, imageBase64: Option<string>, mimeType: Option<string>)

  predicate TruthyText(s: Option<string>)
  {
    s.Some? && s.value != ""
  }

  predicate IsDataUrl(s: Option<string>)
  {
    s.Some? && "data:" <= s.value
  }

  /** Everything before the model call: the guards, then the image URL to
      send. */
  function ImageRequest(apiKey: string, input: ImageInput): Outcome<string>
  {
    if apiKey == "" then Failure(NotConfigured)
    else if !TruthyText(input.imageUrl) && !TruthyText(input.imageBase64) then Failure("Image is required")
    else if IsDataUrl(input.imageUrl) || TruthyText(input.imageBase64) then
      if IsDataUrl(input.imageUrl) then Success(input.imageUrl.value)
      else
        var mime := if TruthyText(input.mimeType) then input.mimeType.value else "image/jpeg";
        Success("data:" + mime + ";base64," + input.imageBase64.value)
    else if TruthyText(input.imageUrl) then Success(input.imageUrl.value)
    else Failure("No valid image provided")
  }

  /** With a key and an image, a URL is always sent: a data URL given as
      the image URL as it is, else the base64 data wrapped in a data URL
      with its type (JPEG by default), else the plain image URL. The
      "No valid image provided" branch cannot be reached. */
  lemma ImageRequestChoice(apiKey: string, input: ImageInput)
    ensures apiKey == "" ==> ImageRequest(apiKey, input) == Failure(NotConfigured)
    ensures apiKey != "" && !TruthyText(input.imageUrl) && !TruthyText(input.imageBase64) ==>
      ImageRequest(apiKey, input) == Failure("Image is required")
    ensures apiKey != "" && (TruthyText(input.imageUrl) || TruthyText(input.imageBase64)) ==>
      && ImageRequest(apiKey, input).Success?
      && (IsDataUrl(input.imageUrl) ==> ImageRequest(apiKey, input).data == input.imageUrl.value)
      && (!IsDataUrl(input.imageUrl) && TruthyText(input.imageBase64) ==>
            var mime := if TruthyText(input.mimeType) then input.mimeType.value else "image/jpeg";
            ImageRequest(apiKey, input).data == "data:" + mime + ";base64," + input.imageBase64.value)
      && (!IsDataUrl(input.imageUrl) && !TruthyText(input.imageBase64) ==>
            ImageRequest(apiKey, input).data == input.imageUrl.value)
    ensures ImageRequest(apiKey, input) != Failure("No valid image provided")
  {
  }

  /** The listing details, with the source's defaults. A truthy field is
      kept whatever its JSON type, as `||` does. */
  datatype Listing = Listing(
    title: JsonValue,
    description: JsonValue,
    category: JsonValue,
    suggestedPrice: real,
    keywords: seq<JsonValue>,
    condition: JsonValue)

  function ListingFrom(obj: map<string, JsonValue>): Listing
  {
    Listing(
      OrDefault(obj, "title", "Product"),
      OrDefault(obj, "description", "A great item for auction"),
      OrDefault(obj, "category", "Other"),
      NumberOr(obj, "suggestedPrice", 25.0),
      if "keywords" in obj && obj["keywords"].JArray? then obj["keywords"].items else [],
      OrDefault(obj, "condition", "Good"))
  }

  /** `analyzeProductImage`, with the reply and the parser as parameters. */
  function AnalyzeProductImage(apiKey: string, input: ImageInput, reply: Reply, parse: Parser): Outcome<Listing>
  {
    var request := ImageRequest(apiKey, input);
    if request.Failure? then Failure(request.error)
    else match reply
      case Threw(m) => Failure(if m != "" then m else "Failed to analyze image")
      case Content(text) =>
        var parsed := ParseReply(text, parse);
        if parsed.Failure? then Failure(parsed.error) else Success(ListingFrom(parsed.data))
  }

  /** The guards decide before any model call: without a key or an image
      the result does not depend on the reply. After the call, an
      exception gives its message (or the fallback), a reply without a
      usable JSON span gives the invalid-response error, and otherwise the
      listing is built from the parsed object: a truthy text field is
      kept and a falsy one gets its default, a non-number price becomes 25
      and a non-array keyword list becomes empty. */
  lemma AnalyzeProductImageContract(apiKey: string, input: ImageInput, reply: Reply, other: Reply, parse: Parser)
    ensures ImageRequest(apiKey, input).Failure? ==>
      AnalyzeProductImage(apiKey, input, reply, parse) == AnalyzeProductImage(apiKey, input, other, parse)
    ensures apiKey == "" ==> AnalyzeProductImage(apiKey, input, reply, parse) == Failure(NotConfigured)
    ensures ImageRequest(apiKey, input).Success? && reply.Threw? ==>
      AnalyzeProductImage(apiKey, input, reply, parse) ==
        Failure(if reply.message != "" then reply.message else "Failed to analyze image")
    ensures ImageRequest(apiKey, input).Success? && reply.Content? && !Usable(reply.text, parse) ==>
      AnalyzeProductImage(apiKey, input, reply, parse) == Failure(InvalidResponse)
    ensures AnalyzeProductImage(apiKey, input, reply, parse).Success? <==>
      ImageRequest(apiKey, input).Success? && reply.Content? && Usable(reply.text, parse)
    ensures AnalyzeProductImage(apiKey, input, reply, parse).Success? ==>
      var obj := parse(ExtractJson(reply.text).value).value;
      var l := AnalyzeProductImage(apiKey, input, reply, parse).data;
      && (Truthy(Field(obj, "title")) ==> l.title == obj["title"])
      && (!Truthy(Field(obj, "title")) ==> l.title == JString("Product"))
      && (Truthy(Field(obj, "description")) ==> l.description == obj["description"])
      && (!Truthy(Field(obj, "description")) ==> l.description == JString("A great item for auction"))
      && (Truthy(Field(obj, "category")) ==> l.category == obj["category"])
      && (!Truthy(Field(obj, "category")) ==> l.category == JString("Other"))
      && (Truthy(Field(obj, "condition")) ==> l.condition == obj["condition"])
      && (!Truthy(Field(obj, "condition")) ==> l.condition == JString("Good"))
      && l.suggestedPrice == (if "suggestedPrice" in obj && obj["suggestedPrice"].JNumber?
                              then obj["suggestedPrice"].n else 25.0)
      && l.keywords == (if "keywords" in obj && obj["keywords"].JArray? then obj["keywords"].items else [])
      && (forall v :: v == l.title || v == l.description || v == l.category || v == l.condition ==>
            Truthy(Some(v)))
  {
  }

  // ---------------------------------------------------------------------
  // predictAuctionOutcome
  // ---------------------------------------------------------------------

  datatype PredictInput = PredictInput(
    title: string,
    description: string,
    currentPrice: real,
    startPrice: real,
    bidCount: int,
    timeRemainingMs: real,
    category: Option<string>)

  /** The figures the prompt reports. */
  datatype PromptFacts = PromptFacts(hoursRemaining: real, priceIncreasePercent: real, category: string)

  function Facts(input: PredictInput): (f: PromptFacts)
    ensures f.hoursRemaining >= 0.0
    ensures input.startPrice <= 0.0 ==> f.priceIncreasePercent == 0.0
    ensures input.timeRemainingMs >= 0.0 ==> f.hoursRemaining * 3600000.0 == input.timeRemainingMs
    ensures input.startPrice > 0.0 ==>
      f.priceIncreasePercent * input.startPrice == (input.currentPrice - input.startPrice) * 100.0
  {
    var hours := input.timeRemainingMs / (1000.0 * 60.0 * 60.0);
    PromptFacts(
      if hours > 0.0 then hours else 0.0,
      if input.startPrice > 0.0 then (input.currentPrice - input.startPrice) / input.startPrice * 100.0 else 0.0,
      if TruthyText(input.category) then input.category.value else "Unknown")
  }

  datatype Confidence = High | Medium | Low

  datatype Prediction = Prediction(
    predictedMinPrice: real,
    predictedMaxPrice: real,
    confidence: Confidence,
    analysis: JsonValue,
    suggestedBid: real,
    bidAdvice: JsonValue)

  /** `['High', 'Medium', 'Low'].includes(parsed.confidence) ? ... : 'Medium'`. */
  function ConfidenceFrom(v: Option<JsonValue>): Confidence
  {
    if v == Some(JString("High")) then High
    else if v == Some(JString("Low")) then Low
    else Medium
  }

  function PredictionFrom(obj: map<string, JsonValue>, currentPrice: real): Prediction
  {
    Prediction(
      NumberOr(obj, "predictedMinPrice", currentPrice),
      NumberOr(obj, "predictedMaxPrice", currentPrice * 1.2),
      ConfidenceFrom(Field(obj, "confidence")),
      OrDefault(obj, "analysis", "Analysis unavailable"),
      NumberOr(obj, "suggestedBid", currentPrice + 5.0),
      OrDefault(obj, "bidAdvice", "Place your bid soon!"))
  }

  /** `predictAuctionOutcome`: the prompt facts are what it would send. */
  function PredictAuctionOutcome(apiKey: string, input: PredictInput, reply: Reply, parse: Parser): Outcome<Prediction>
  {
    if apiKey == "" then Failure(NotConfigured)
    else match reply
      case Threw(m) => Failure(if m != "" then m else "Failed to predict auction")
      case Content(text) =>
        var parsed := ParseReply(text, parse);
        if parsed.Failure? then Failure(parsed.error)
        else Success(PredictionFrom(parsed.data, input.currentPrice))
  }

  /** Without a key the call is refused whatever the reply; an exception
      gives its message (or the fallback); a reply without a usable JSON
      span gives the invalid-response error; otherwise the prediction is
      built from the parsed object and the current price. */
  lemma PredictAuctionOutcomeContract(apiKey: string, input: PredictInput, reply: Reply, parse: Parser)
    ensures apiKey == "" ==> PredictAuctionOutcome(apiKey, input, reply, parse) == Failure(NotConfigured)
    ensures apiKey != "" && reply.Threw? ==>
      PredictAuctionOutcome(apiKey, input, reply, parse) ==
        Failure(if reply.message != "" then reply.message else "Failed to predict auction")
    ensures apiKey != "" && reply.Content? && !Usable(reply.text, parse) ==>
      PredictAuctionOutcome(apiKey, input, reply, parse) == Failure(InvalidResponse)
    ensures PredictAuctionOutcome(apiKey, input, reply, parse).Success? <==>
      apiKey != "" && reply.Content? && Usable(reply.text, parse)
    ensures PredictAuctionOutcome(apiKey, input, reply, parse).Success? ==>
      PredictAuctionOutcome(apiKey, input, reply, parse).data ==
        PredictionFrom(parse(ExtractJson(reply.text).value).value, input.currentPrice)
  {
  }

  /** The confidence is the reply's own only when it is one of the three
      words; missing numbers fall back on the current price, 1.2 times it
      and 5 more than it. */
  lemma PredictionDefaults(obj: map<string, JsonValue>, currentPrice: real)
    ensures var p := PredictionFrom(obj, currentPrice);
      && (p.confidence == High <==> Field(obj, "confidence") == Some(JString("High")))
      && (p.confidence == Low <==> Field(obj, "confidence") == Some(JString("Low")))
      && ("predictedMinPrice" !in obj ==> p.predictedMinPrice == currentPrice)
      && ("predictedMaxPrice" !in obj ==> p.predictedMaxPrice == currentPrice * 1.2)
      && ("suggestedBid" !in obj ==> p.suggestedBid == currentPrice + 5.0)
  {
  }

  // ---------------------------------------------------------------------
  // generateAuctioneerCommentary
  // ---------------------------------------------------------------------

  datatype PromptKind = BidPrompt | TimePrompt | EndPrompt | ActivityPrompt

  /** The `switch` on the event. */
  function PromptFor(event: string): (k: PromptKind)
    ensures k == BidPrompt <==> event == "bid"
    ensures k == TimePrompt <==> event == "time"
    ensures k == EndPrompt <==> event == "end"
  {
    if event == "bid" then BidPrompt
    else if event == "time" then TimePrompt
    else if event == "end" then EndPrompt
    else ActivityPrompt
  }

  /** Characters `String.prototype.trim` removes: white space and line
      terminators. */
  predicate IsSpace(c: char)
  {
    || c == ' ' || c == '\t' || c == '\n' || c == '\r' || c == '\U{000B}' || c == '\U{000C}'
    || c == '\U{00A0}' || c == '\U{1680}' || ('\U{2000}' <= c <= '\U{200A}')
    || c == '\U{2028}' || c == '\U{2029}' || c == '\U{202F}' || c == '\U{205F}' || c == '\U{3000}' || c == '\U{FEFF}'
  }

  function TrimStart(s: string): (r: string)
    ensures |r| <= |s| && r == s[|s| - |r|..]
    ensures r != [] ==> !IsSpace(r[0])
    ensures forall k :: 0 <= k < |s| - |r| ==> IsSpace(s[k])
  {
    if s != [] && IsSpace(s[0]) then TrimStart(s[1..]) else s
  }

  function TrimEnd(s: string): (r: string)
    ensures |r| <= |s| && r == s[..|r|]
    ensures r != [] ==> !IsSpace(r[|r| - 1])
    ensures forall k :: |r| <= k < |s| ==> IsSpace(s[k])
  {
    if s != [] && IsSpace(s[|s| - 1]) then TrimEnd(s[..|s| - 1]) else s
  }

  function Trim(s: string): string
  {
    TrimEnd(TrimStart(s))
  }

  /** The trimmed text neither starts nor ends with white space. */
  lemma TrimBounds(s: string)
    ensures var t := Trim(s); t != [] ==> !IsSpace(t[0]) && !IsSpace(t[|t| - 1])
  {
    var a := TrimStart(s);
    var t := TrimEnd(a);
    if t != [] {
      assert t[0] == a[..|t|][0] == a[0];
    }
  }

  /** White space at the end of a suffix is white space of the whole. */
  lemma SuffixSpace(s: string, i: nat, n: nat)
    requires i <= |s| && n <= |s| - i
    requires forall k :: n <= k < |s| - i ==> IsSpace(s[i..][k])
    ensures forall k :: i + n <= k < |s| ==> IsSpace(s[k])
  {
    forall k | i + n <= k < |s| ensures IsSpace(s[k]) {
      assert s[k] == s[i..][k - i];
    }
  }

  /** Trimming removes exactly the white space at both ends: the result is
      a slice of the input, and everything cut off is white space. */
  lemma TrimMeaning(s: string)
    ensures |s| - |TrimStart(s)| + |Trim(s)| <= |s|
    ensures Trim(s) == s[|s| - |TrimStart(s)|..|s| - |TrimStart(s)| + |Trim(s)|]
    ensures forall k :: 0 <= k < |s| - |TrimStart(s)| ==> IsSpace(s[k])
    ensures forall k :: |s| - |TrimStart(s)| + |Trim(s)| <= k < |s| ==> IsSpace(s[k])
  {
    var a := TrimStart(s);
    var t := TrimEnd(a);
    var i := |s| - |a|;
    assert a == s[i..];
    assert t == s[i..i + |t|];
    SuffixSpace(s, i, |t|);
  }

  /** Trimming a trimmed text changes nothing. */
  lemma TrimIdempotent(s: string)
    ensures Trim(Trim(s)) == Trim(s)
  {
    TrimBounds(s);
    var t := Trim(s);
    assert TrimStart(t) == t;
    assert TrimEnd(t) == t;
  }

  /** A commentary request: the prompt sent, if any, and the result. */
  datatype CommentaryCall = CommentaryCall(prompt: Option<PromptKind>, result: Outcome<string>)

  /** `generateAuctioneerCommentary`. */
  function GenerateCommentary(apiKey: string, event: string, reply: Reply): CommentaryCall
  {
    if apiKey == "" then CommentaryCall(None, Failure("AI service not configured"))
    else match reply
      case Threw(m) => CommentaryCall(Some(PromptFor(event)), Failure(if m != "" then m else "Failed to generate commentary"))
      case Content(text) => CommentaryCall(Some(PromptFor(event)), Success(Trim(text)))
  }

  /** Without a key no prompt is sent and nothing depends on the reply;
      otherwise the prompt follows the event, a reply is returned trimmed
      (an empty one is still a success), and an exception's message, or
      the fallback when it has none, is the error. */
  lemma GenerateCommentaryContract(apiKey: string, event: string, reply: Reply, other: Reply)
    ensures apiKey == "" ==>
      && GenerateCommentary(apiKey, event, reply).prompt.None?
      && GenerateCommentary(apiKey, event, reply) == GenerateCommentary(apiKey, event, other)
      && GenerateCommentary(apiKey, event, reply).result == Failure("AI service not configured")
    ensures apiKey != "" ==> GenerateCommentary(apiKey, event, reply).prompt == Some(PromptFor(event))
    ensures apiKey != "" && reply.Content? ==>
      GenerateCommentary(apiKey, event, reply).result == Success(Trim(reply.text))
    ensures apiKey != "" && reply.Threw? ==>
      GenerateCommentary(apiKey, event, reply).result ==
        Failure(if reply.message != "" then reply.message else "Failed to generate commentary")
  {
  }
}
