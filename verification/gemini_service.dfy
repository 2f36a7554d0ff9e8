/** The request-building and result-handling contract of `analyzeFood`: the content parts
    built from an optional image and an optional text query, the request sent to the model,
    the declared response schema, and the messages of the errors that come out. The model
    client and `JSON.parse` are parameters: each is only the value it gives back. */
module GeminiService {
  import opened Wrappers
  import opened JsString
  import opened FoodTypes

  // ---------------------------------------------------------------------------
  // Constants of the request and of the error messages

  const ModelName := "gemini-3-pro-preview"
  const JsonMime := "application/json"
  const JpegMime := "image/jpeg"
  const QueryLabel := "Alimento para analisar: "
  const ImageOnlyPrompt := "Analise nutricionalmente o alimento nesta imagem."
  // The two long messages are written in two pieces so that the verifier sees their characters.
  const NoInputMessage := "Nenhuma imagem ou texto " + "fornecido para análise."
  const EmptyResponseMessage := "O modelo não retornou um conteúdo válido."
  const AiErrorPrefix := "Erro na IA: "
  const FallbackMessage := "Não foi possível analisar " + "o alimento no momento."

  /** One unit of input to the model: inline image bytes (base64) or text. */
  datatype Part = InlineData(mimeType: string, data: string) | Text(text: string)

  /** An optional string argument as JavaScript's `if (x)` sees it: absent and "" are both false. */
  predicate Truthy(x: Option<string>) {
    x.Some? && x.value != ""
  }

  // ---------------------------------------------------------------------------
  // Content-part assembly

  /** The image data with any data-URI prefix removed: `s.includes(',') ? s.split(',')[1] : s`. */
  function StripDataUri(image: string): (data: string)
    ensures ',' !in data
    ensures ',' !in image ==> data == image
  {
    if ',' in image then Split(image, ',')[1] else image
  }

  /** `data` is the segment of `image` between its first comma and the next comma, or the end. */
  ghost predicate SecondSegment(image: string, data: string) {
    var i := IndexOf(image, ',');
    && i < |image|
    && data <= image[i + 1..]
    && (i + 1 + |data| == |image| || image[i + 1 + |data|] == ',')
  }

  /** With a comma, the data is the segment between the first comma and the next comma
      (or the end of the string). */
  lemma StripDataUriSegment(image: string)
    requires ',' in image
    ensures SecondSegment(image, StripDataUri(image))
  {
    var pieces := Split(image, ',');
    var head, data := pieces[0], pieces[1];
    var tail: string := if |pieces| == 2 then [] else [','] + Join(pieces[2..], ',');
    JoinSplit(image, ',');
    JoinThree(pieces, tail);
    assert StripDataUri(image) == data;
    SecondSegmentIntro(image, head, data, tail);
  }

  lemma SecondSegmentIntro(image: string, head: string, data: string, tail: string)
    requires image == head + [','] + data + tail && ',' !in head && (tail == [] || tail[0] == ',')
    ensures SecondSegment(image, data)
  {
    assert image == head + [','] + (data + tail);
    IndexOfAfterPrefix(head, ',', data + tail);
    assert image[|head| + 1..] == data + tail;
  }

  /** Joined pieces are the first piece, a comma, the second piece, then the rest. */
  lemma JoinThree(pieces: seq<string>, tail: string)
    requires |pieces| >= 2
    requires tail == if |pieces| == 2 then [] else [','] + Join(pieces[2..], ',')
    ensures Join(pieces, ',') == pieces[0] + [','] + pieces[1] + tail
  {
  }

  /** The data URI that a browser `FileReader` gives for a JPEG loses its header. */
  lemma StripDataUriExample()
    ensures StripDataUri("data:image/jpeg;base64,AAAA") == "AAAA"
  {
    var s := "data:image/jpeg;base64,AAAA";
    SplitJoin(["data:image/jpeg;base64", "AAAA"], ',');
    assert Join(["data:image/jpeg;base64", "AAAA"], ',') == s;
  }

  /** The content parts the request carries, or the message of the Error thrown before
      any model call: an image part first when an image is given, then either the labelled
      query or, for an image alone, the fixed instruction. */
  function ContentParts(image: Option<string>, query: Option<string>): (r: Result<seq<Part>, string>)
    ensures r.Err? <==> !Truthy(image) && !Truthy(query)
    ensures r.Err? ==> r.error == NoInputMessage
    ensures r.Ok? ==> |r.value| == (if Truthy(image) then 2 else 1)
  {
    if !Truthy(image) && !Truthy(query) then Err(NoInputMessage)
    else
      var textPart := if Truthy(query) then Text(QueryLabel + query.value) else Text(ImageOnlyPrompt);
      if Truthy(image) then Ok([InlineData(JpegMime, StripDataUri(image.value)), textPart])
      else Ok([textPart])
  }

  /** Builds the parts by pushing onto a list under the same conditions as `analyzeFood`,
      failing when neither an image nor a query is given. */
  method BuildContentParts(image: Option<string>, query: Option<string>) returns (r: Result<seq<Part>, string>)
    ensures r == ContentParts(image, query)
  {
    var parts: seq<Part> := [];
    if Truthy(image) {
      var clean := StripDataUri(image.value);
      parts := parts + [InlineData(JpegMime, clean)];
    }
    if Truthy(query) {
      parts := parts + [Text(QueryLabel + query.value)];
    } else if !Truthy(image) {
      return Err(NoInputMessage);
    } else {
      parts := parts + [Text(ImageOnlyPrompt)];
    }
    assert parts == if Truthy(image) then [parts[0], parts[1]] else [parts[0]];
    r := Ok(parts);
  }

  /** Number of inline-data parts. */
  function InlineCount(parts: seq<Part>): nat {
    if parts == [] then 0 else (if parts[0].InlineData? then 1 else 0) + InlineCount(parts[1..])
  }

  /** Number of text parts. */
  function TextCount(parts: seq<Part>): nat {
    if parts == [] then 0 else (if parts[0].Text? then 1 else 0) + TextCount(parts[1..])
  }

  lemma {:induction false} CountsAppend(a: seq<Part>, b: seq<Part>)
    ensures InlineCount(a + b) == InlineCount(a) + InlineCount(b)
    ensures TextCount(a + b) == TextCount(a) + TextCount(b)
    decreases |a|
  {
    if a == [] {
      assert a + b == b;
    } else {
      assert (a + b)[0] == a[0];
      assert (a + b)[1..] == a[1..] + b;
      CountsAppend(a[1..], b);
    }
  }

  /** Exactly one inline-data part iff an image was given, and exactly one text part. */
  lemma PartCounts(image: Option<string>, query: Option<string>)
    requires Truthy(image) || Truthy(query)
    ensures ContentParts(image, query).Ok?
    ensures InlineCount(ContentParts(image, query).value) == (if Truthy(image) then 1 else 0)
    ensures TextCount(ContentParts(image, query).value) == 1
  {
    var parts := ContentParts(image, query).value;
    if |parts| == 2 {
      assert parts == [parts[0]] + [parts[1]];
      CountsAppend([parts[0]], [parts[1]]);
    }
  }

  /** An image is the first part, tagged JPEG whatever the data URI declared, and its
      data holds no comma. */
  lemma ImageFirst(image: Option<string>, query: Option<string>)
    requires Truthy(image)
    ensures ContentParts(image, query).Ok?
    ensures ContentParts(image, query).value[0] == InlineData(JpegMime, StripDataUri(image.value))
    ensures ',' !in ContentParts(image, query).value[0].data
  {
  }

  /** A query becomes the last part, labelled, after any image part. */
  lemma QueryLast(image: Option<string>, query: Option<string>)
    requires Truthy(query)
    ensures ContentParts(image, query).Ok?
    ensures var parts := ContentParts(image, query).value;
      parts[|parts| - 1] == Text(QueryLabel + query.value) &&
      forall k :: 0 <= k < |parts| - 1 ==> parts[k].InlineData?
  {
  }

  /** An image without a query gives exactly the image part and the fixed instruction. */
  lemma ImageOnly(image: Option<string>, query: Option<string>)
    requires Truthy(image) && !Truthy(query)
    ensures ContentParts(image, query) == Ok([InlineData(JpegMime, StripDataUri(image.value)), Text(ImageOnlyPrompt)])
  {
  }

  // ---------------------------------------------------------------------------
  // Declared response schema

  /** A node of the structural schema the model is asked to follow. */
  datatype Schema =
    | StringSchema(description: Option<string>)
    | NumberSchema(description: Option<string>)
    | ArraySchema(items: Schema, description: Option<string>)
    | ObjectSchema(properties: map<string, Schema>, required: seq<string>)

  const MacrosSchema := ObjectSchema(
    map[
      "protein" := NumberSchema(None),
      "carbs" := NumberSchema(None),
      "fat" := NumberSchema(None),
      "fiber" := NumberSchema(None)],
    ["protein", "carbs", "fat", "fiber"])

  const MicronutrientSchema := ObjectSchema(
    map[
      "label" := StringSchema(None),
      "value" := NumberSchema(None),
      "unit" := StringSchema(None)],
    [])

  const ResponseSchema := ObjectSchema(
    map[
      "foodName" := StringSchema(Some("Nome principal do prato ou alimento")),
      "confidence" := NumberSchema(Some("Nível de confiança da análise (0-1)")),
      "description" := StringSchema(Some("Breve descrição do alimento e seus componentes")),
      "estimatedWeight" := StringSchema(Some("Peso estimado da porção analisada")),
      "calories" := NumberSchema(Some("Total de calorias (kcal)")),
      "macros" := MacrosSchema,
      "micronutrients" := ArraySchema(MicronutrientSchema, None),
      "allergens" := ArraySchema(StringSchema(None), None),
      "healthScore" := NumberSchema(None),
      "pros" := ArraySchema(StringSchema(None), Some("Lista de pontos positivos para a saúde")),
      "cons" := ArraySchema(StringSchema(None), Some("Lista de pontos de atenção ou negativos")),
      "tips" := ArraySchema(StringSchema(None), Some("Dicas de como tornar a refeição mais saudável")),
      "processingLevel" := StringSchema(None)],
    ["foodName", "calories", "macros", "healthScore", "description",
     "pros", "cons", "tips", "processingLevel", "allergens", "estimatedWeight"])

  /** An object node whose required names are distinct and all declared. */
  predicate RequiredDeclared(s: Schema) {
    s.ObjectSchema? &&
    (forall i, j :: 0 <= i < j < |s.required| ==> s.required[i] != s.required[j]) &&
    (forall n :: n in s.required ==> n in s.properties)
  }

  /** The top-level required names are distinct and each is a declared property. */
  lemma ResponseSchemaRequiredDeclared()
    ensures RequiredDeclared(ResponseSchema) && |ResponseSchema.required| == 11
  {
    var req := ResponseSchema.required;
    forall i, j | 0 <= i < j < |req| ensures req[i] != req[j] {
      assert req[i][0] != req[j][0] || req[i][1] != req[j][1] || req[i][3] != req[j][3];
    }
  }

  /** The required names are the declared properties except `confidence` and `micronutrients`. */
  lemma ResponseSchemaOptionalFields()
    ensures (set n | n in ResponseSchema.required) == ResponseSchema.properties.Keys - {"confidence", "micronutrients"}
    ensures "confidence" in ResponseSchema.properties && "confidence" !in ResponseSchema.required
  {
  }

  /** `macros` is declared with exactly `protein`, `carbs`, `fat` and `fiber`, all required. */
  lemma MacrosSchemaRequired()
    ensures ResponseSchema.properties["macros"] == MacrosSchema && RequiredDeclared(MacrosSchema)
    ensures (set n | n in MacrosSchema.required) == MacrosSchema.properties.Keys == {"protein", "carbs", "fat", "fiber"}
  {
  }

  // ---------------------------------------------------------------------------
  // The system instruction's constraints on a record (stated, never checked)

  /** The two constraints on a record that the system instruction states in prose. */
  datatype Instruction = Instruction(minScore: int, maxScore: int, processingLevels: seq<string>, language: string)

  const SystemInstruction := Instruction(0, 100,
    ["Natural", "Minimamente Processado", "Processado", "Ultraprocessado"], "Português Brasileiro")

  /** `healthScore` is an integer in the instructed range and `processingLevel` one of the
      instructed values. Nothing in `analyzeFood` evaluates this. */
  predicate FollowsInstruction(rec: NutritionRecord) {
    && rec.healthScore == rec.healthScore.Floor as real
    && SystemInstruction.minScore as real <= rec.healthScore <= SystemInstruction.maxScore as real
    && rec.processingLevel in SystemInstruction.processingLevels
  }

  // ---------------------------------------------------------------------------
  // The model call and the shaping of its outcome

  /** The request `analyzeFood` sends: model name, content parts, instruction, JSON output
      and the response schema. */
  datatype Request = Request(model: string, parts: seq<Part>, instruction: Instruction,
                             responseMimeType: string, schema: Schema)

  /** What a JavaScript `throw` can carry: an `Error` (with its message) or anything else. */
  datatype Thrown = ErrorThrown(message: string) | OtherThrown

  /** What the model call gives back: a response whose `text` may be absent, or a throw. */
  datatype ModelReply = Replied(text: Option<string>) | Threw(thrown: Thrown)

  /** The body of the `try`: what it returns, or what it throws. `parse` stands for
      `JSON.parse`, whose failure is a `SyntaxError` with a message. */
  function TryBody(reply: ModelReply, parse: string -> Result<NutritionRecord, string>): Result<NutritionRecord, Thrown>
  {
    match reply
    case Threw(t) => Err(t)
    case Replied(text) =>
      if !Truthy(text) then Err(ErrorThrown(EmptyResponseMessage))
      else match parse(text.value)
        case Ok(rec) => Ok(rec)
        case Err(m) => Err(ErrorThrown(m))
  }

  /** The `catch`: an `Error` is re-thrown with the prefix, anything else as a fixed message. */
  function CatchMessage(t: Thrown): (message: string)
    ensures t.ErrorThrown? <==> AiErrorPrefix <= message
    ensures t.ErrorThrown? ==> message == AiErrorPrefix + t.message
    ensures t.OtherThrown? <==> message == FallbackMessage
  {
    match t
    case ErrorThrown(m) =>
      assert (AiErrorPrefix + m)[0] != FallbackMessage[0];
      AiErrorPrefix + m
    case OtherThrown =>
      assert FallbackMessage[0] != AiErrorPrefix[0];
      FallbackMessage
  }

  /** The outcome of the `try`/`catch` around the model call. The parsed record passes
      through unchecked; every failure carries the prefix or is the fixed message, so none
      can be mistaken for the missing-input error. */
  function ExtractResult(reply: ModelReply, parse: string -> Result<NutritionRecord, string>): (r: Result<NutritionRecord, string>)
    ensures r.Ok? <==> reply.Replied? && Truthy(reply.text) && parse(reply.text.value).Ok?
    ensures r.Ok? ==> r.value == parse(reply.text.value).value
    ensures r.Err? ==> AiErrorPrefix <= r.error || r.error == FallbackMessage
    ensures r.Err? ==> r.error != NoInputMessage
  {
    match TryBody(reply, parse)
    case Ok(rec) => Ok(rec)
    case Err(t) =>
      var m := CatchMessage(t);
      assert AiErrorPrefix <= m ==> m[0] != NoInputMessage[0];
      assert m == FallbackMessage ==> m[1] != NoInputMessage[1];
      Err(m)
  }

  /** An absent or empty response text is reported as an empty response, prefixed. */
  lemma EmptyResponseError(text: Option<string>, parse: string -> Result<NutritionRecord, string>)
    requires !Truthy(text)
    ensures ExtractResult(Replied(text), parse) == Err(AiErrorPrefix + EmptyResponseMessage)
  {
  }

  /** An `Error` thrown by the model call or by `JSON.parse` keeps its message, prefixed;
      any other throw becomes the fixed message. */
  lemma ThrownErrors(text: string, m: string, parse: string -> Result<NutritionRecord, string>)
    ensures ExtractResult(Threw(ErrorThrown(m)), parse) == Err(AiErrorPrefix + m)
    ensures ExtractResult(Threw(OtherThrown), parse) == Err(FallbackMessage)
    ensures text != "" && parse(text) == Err(m) ==> ExtractResult(Replied(Some(text)), parse) == Err(AiErrorPrefix + m)
  {
  }

  /** The instruction's range and enumeration are not enforced: a record that breaks them
      is returned as parsed. */
  lemma InstructionNotEnforced(text: string, rec: NutritionRecord)
    requires text != "" && !FollowsInstruction(rec)
    ensures ExtractResult(Replied(Some(text)), _ => Ok(rec)) == Ok(rec)
  {
  }

  /** The missing-input message does not carry the prefix that errors of the model call get. */
  lemma NoInputMessageUnprefixed()
    ensures !(AiErrorPrefix <= NoInputMessage)
  {
    assert NoInputMessage[0] != AiErrorPrefix[0];
  }

  /** `analyzeFood`: build the parts (failing before any call when there is no input), send
      one request, and shape its outcome. `sent` lists the requests sent to the model. */
  method AnalyzeFood(image: Option<string>, query: Option<string>,
                     model: Request -> ModelReply, parse: string -> Result<NutritionRecord, string>)
    returns (r: Result<NutritionRecord, string>, sent: seq<Request>)
    ensures !Truthy(image) && !Truthy(query) ==> r == Err(NoInputMessage) && sent == []
    ensures Truthy(image) || Truthy(query) ==>
      && |sent| == 1
      && sent[0].parts == ContentParts(image, query).value
      && sent[0].model == ModelName && sent[0].instruction == SystemInstruction
      && sent[0].responseMimeType == JsonMime && sent[0].schema == ResponseSchema
      && r == ExtractResult(model(sent[0]), parse)
    ensures r.Err? ==> (r.error == NoInputMessage <==> sent == [])
  {
    var built := BuildContentParts(image, query);
    if built.Err? {
      return Err(built.error), [];
    }
    var request := Request(ModelName, built.value, SystemInstruction, JsonMime, ResponseSchema);
    sent := [request];
    r := ExtractResult(model(request), parse);
  }
}
