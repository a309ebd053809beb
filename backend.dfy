/**
 * The simplification service: the `/simplify` and `/health` handlers as pure
 * functions from the request and the outcome of the call to the language
 * model to the status and JSON body of the response. The model is an oracle
 * (a function parameter) that answers a chat request with its reply content
 * or with the message of the exception the client raised. Python exceptions
 * inside the handler are modelled by the message `str(e)` they carry.
 */
module Backend {
  import opened Basics

  /** A JSON value as Flask decodes and encodes it. */
  datatype Json =
    | JNull
    | JBool(b: bool)
    | JInt(i: int)
    | JFloat(f: real)
    | JString(s: string)
    | JArray(items: seq<Json>)
    | JObject(fields: map<string, Json>)

  /** The indentation of every line but the first: the prompts are indented
      triple-quoted literals. */
  const Indent: string := "           "
  const SimplifyOpening: string := "Simplifie le texte suivant au niveau "
  const AdaptOpening: string := "Adapte le texte suivant au niveau "

  /** The first line, shared by every level prompt. */
  const Intro: string :=
    "Tu es un expert en français qui simplifie les textes pour les apprenants.\n"
  /** The last two lines, shared by every level prompt; the text follows them. */
  const Closing: string := ClosingHead + PromptTail
  const ClosingHead: string := "           IMPORTANT: Garde le texte en français, ne traduis pas.\n" + "           "

  const GuidanceA1: string :=
    "           - Utilise uniquement le présent\n" +
    "           - Utilise un vocabulaire très simple et courant\n" +
    "           - Garde les phrases très courtes et basiques\n" +
    "           - Utilise des connecteurs simples (et, mais, parce que)\n"

  const GuidanceA2: string :=
    "           - Utilise le présent et le passé composé\n" +
    "           - Utilise un vocabulaire courant avec quelques expressions basiques\n" +
    "           - Garde les phrases simples avec des propositions subordonnées basiques\n" +
    "           - Utilise des connecteurs courants (puis, alors, donc)\n"

  const GuidanceB1: string :=
    "           - Utilise les temps courants (présent, passé composé, imparfait)\n" +
    "           - Utilise un vocabulaire de niveau intermédiaire\n" +
    "           - Permets une complexité modérée des phrases\n" +
    "           - Utilise des connecteurs variés\n"

  const GuidanceB2: string :=
    "           - Garde la plupart des temps mais simplifie les constructions complexes\n" +
    "           - Maintiens le vocabulaire sophistiqué quand le contexte est clair\n" +
    "           - Préserve le sens en rendant la structure plus claire\n" +
    "           - Garde les bons éléments stylistiques\n"

  /** The fixed table of level prompts: exactly the levels A1, A2, B1 and B2. */
  const LevelPrompts: map<string, string> :=
    map["A1" := PromptWith("A1", Guidance("A1")), "A2" := PromptWith("A2", Guidance("A2")),
        "B1" := PromptWith("B1", Guidance("B1")), "B2" := PromptWith("B2", Guidance("B2"))]

  /** A level prompt: the shared first line, the line naming the level, the
      level's guidance and the shared closing lines. */
  function PromptWith(level: string, guidance: string): string {
    Intro + LevelLine(level) + guidance + Closing
  }

  /** The words every level prompt ends with, right before the text. */
  const PromptTail: string := "Texte à simplifier: "

  const ModelName: string := "mistral"
  const SystemContent: string :=
    "Tu es un expert en français spécialisé dans la simplification de textes pour les apprenants."

  const MissingFields: string := "Missing required fields"
  const InvalidLevel: string := "Invalid language level"

  datatype HttpMethod = Post | Options

  datatype ChatMessage = ChatMessage(role: string, content: string)
  datatype ChatRequest = ChatRequest(model: string, messages: seq<ChatMessage>)

  /** What the chat call answers: the reply's message content, or the message
      of the exception the client raised. */
  datatype ChatOutcome = Replied(content: string) | Raised(message: string)

  /** What listing the models answers. */
  datatype ListOutcome = Listed(models: Json) | ListRaised(message: string)

  datatype Response = Response(status: nat, body: map<string, Json>)

  /** A response of `/simplify` together with the chat request the handler
      sent to the model, if it called it. */
  datatype Exchange = Exchange(sent: Option<ChatRequest>, response: Response)

  /** The name Python gives the type of a decoded JSON value. */
  function PyTypeName(j: Json): string {
    match j
    case JNull => "NoneType"
    case JBool(_) => "bool"
    case JInt(_) => "int"
    case JFloat(_) => "float"
    case JString(_) => "str"
    case JArray(_) => "list"
    case JObject(_) => "dict"
  }

  function ErrorBody(message: string): map<string, Json> {
    map["error" := JString(message)]
  }

  /** The body of an error response: it names the error and carries no simplified text. */
  predicate IsErrorBody(body: map<string, Json>) {
    "error" in body && body["error"].JString? && "simplified_text" !in body
  }

  /** `not data or 'text' not in data or 'level' not in data` for a body that is
      absent (`None`) or a JSON object; an empty object is falsy. */
  predicate LacksFields(body: Option<map<string, Json>>) {
    body.None? || body.value == map[] || "text" !in body.value || "level" !in body.value
  }

  /** The body has the fields, the level is one of the table's strings and the
      text is a string: exactly the requests on which the model is called. */
  predicate CallsModel(prompts: map<string, string>, body: Option<map<string, Json>>) {
    && !LacksFields(body)
    && body.value["level"].JString? && body.value["level"].s in prompts
    && body.value["text"].JString?
  }

  /** The level prompt to use, given the `level` field: a list or an object is
      unhashable and raises TypeError; any other value is looked up by equality,
      and only the table's level strings are keys. */
  function LookupLevel(prompts: map<string, string>, level: Json): (r: Result<Option<string>, string>)
    ensures r.Ok? && r.value.Some? <==> level.JString? && level.s in prompts
    ensures r.Ok? && r.value.Some? ==> r.value.value == prompts[level.s]
  {
    match level
    case JArray(_) => Err("unhashable type: 'list'")
    case JObject(_) => Err("unhashable type: 'dict'")
    case JString(s) => Ok(if s in prompts then Some(prompts[s]) else None)
    case _ => Ok(None)
  }

  /** `LEVEL_PROMPTS[level] + text`: concatenating a non-string raises TypeError. */
  function BuildPrompt(levelPrompt: string, text: Json): (r: Result<string, string>)
    ensures r.Ok? <==> text.JString?
    ensures r.Ok? ==> levelPrompt <= r.value && r.value[|levelPrompt|..] == text.s
  {
    match text
    case JString(s) =>
      var prompt := levelPrompt + s;
      assert prompt[|levelPrompt|..] == s;
      Ok(prompt)
    case _ => Err("can only concatenate str (not \"" + PyTypeName(text) + "\") to str")
  }

  /** The chat request the handler sends for a prompt: a fixed system message
      followed by the prompt as the user message. */
  function ChatFor(prompt: string): ChatRequest {
    ChatRequest(ModelName, [ChatMessage("system", SystemContent), ChatMessage("user", prompt)])
  }

  /** `simplify_text`: the `/simplify` handler, given the table of level
      prompts it reads; the service's table is LevelPrompts (see SimplifyText). */
  function SimplifyEndpoint(prompts: map<string, string>, verb: HttpMethod, body: Option<map<string, Json>>,
                            model: ChatRequest -> ChatOutcome): (x: Exchange)
    // A preflight request is answered without looking at the body.
    ensures verb == Options ==> x == Exchange(None, Response(200, map["status" := JString("ok")]))
    // Missing fields are reported first, whatever the level.
    ensures verb == Post && LacksFields(body) ==>
              x == Exchange(None, Response(400, ErrorBody(MissingFields)))
    // A level string outside the table is rejected before the model is called.
    ensures verb == Post && !LacksFields(body) && body.value["level"].JString?
              && body.value["level"].s !in prompts ==>
              x == Exchange(None, Response(400, ErrorBody(InvalidLevel)))
    // The model is called exactly for a string text and a known level string,
    // and its user message is that level's prompt followed by the text.
    ensures x.sent.Some? <==> verb == Post && CallsModel(prompts, body)
    ensures x.sent.Some? ==> x.sent.value == ChatFor(prompts[body.value["level"].s] + body.value["text"].s)
    // A reply of the model is echoed with the request's text and level.
    ensures x.sent.Some? && model(x.sent.value).Replied? ==>
              x.response == Response(200, map["original_text" := body.value["text"],
                                              "simplified_text" := JString(model(x.sent.value).content),
                                              "level" := body.value["level"]])
    // Every other outcome is an error response without simplified text.
    ensures x.response.status == 200 <==> verb == Options || (x.sent.Some? && model(x.sent.value).Replied?)
    ensures x.response.status != 200 ==> x.response.status in {400, 500} && IsErrorBody(x.response.body)
  {
    if verb == Options then
      Exchange(None, Response(200, map["status" := JString("ok")]))
    else if LacksFields(body) then
      Exchange(None, Response(400, ErrorBody(MissingFields)))
    else
      var text := body.value["text"];
      var level := body.value["level"];
      match LookupLevel(prompts, level)
      case Err(e) => Exchange(None, Response(500, ErrorBody(e)))
      case Ok(None) => Exchange(None, Response(400, ErrorBody(InvalidLevel)))
      case Ok(Some(levelPrompt)) =>
        assert level.JString? && level.s in prompts;
        match BuildPrompt(levelPrompt, text)
        case Err(e) => Exchange(None, Response(500, ErrorBody(e)))
        case Ok(prompt) =>
          assert text.JString? && prompt == levelPrompt + text.s;
          var request := ChatFor(prompt);
          match model(request)
          case Raised(e) => Exchange(Some(request), Response(500, ErrorBody(e)))
          case Replied(content) =>
            assert verb == Post;
            assert CallsModel(prompts, body);
            Exchange(Some(request), Response(200, map["original_text" := text,
                                                      "simplified_text" := JString(content),
                                                      "level" := level]))
  }

  /** The `/simplify` handler of the service, with its own table of level prompts. */
  function SimplifyText(verb: HttpMethod, body: Option<map<string, Json>>, model: ChatRequest -> ChatOutcome): Exchange {
    SimplifyEndpoint(LevelPrompts, verb, body, model)
  }

  /** `health_check`: healthy exactly when listing the models succeeds. */
  function HealthCheck(listing: ListOutcome): (r: Response)
    ensures r.status == 200 <==> listing.Listed?
    ensures r.status != 200 ==> r.status == 503
    ensures "status" in r.body && "message" in r.body
    ensures r.body["status"] == JString(if listing.Listed? then "healthy" else "unhealthy")
    ensures listing.ListRaised? ==> r.body["message"] == JString(listing.message)
    ensures listing.Listed? ==> "models" in r.body && r.body["models"] == listing.models
  {
    match listing
    case Listed(models) =>
      Response(200, map["status" := JString("healthy"),
                        "message" := JString("Server and Ollama are running"),
                        "models" := models])
    case ListRaised(e) =>
      Response(503, map["status" := JString("unhealthy"), "message" := JString(e)])
  }

  /** Past the field check, every exception raised in the handler becomes a
      500 response carrying its message, and a level that is neither a known
      level string nor unhashable is refused with 400. */
  lemma HandlerFailures(prompts: map<string, string>, body: map<string, Json>, model: ChatRequest -> ChatOutcome)
    requires !LacksFields(Some(body))
    ensures var x := SimplifyEndpoint(prompts, Post, Some(body), model);
      && (body["level"].JArray? ==> x == Exchange(None, Response(500, ErrorBody("unhashable type: 'list'"))))
      && (body["level"].JObject? ==> x == Exchange(None, Response(500, ErrorBody("unhashable type: 'dict'"))))
      && (!body["level"].JArray? && !body["level"].JObject? && !(body["level"].JString? && body["level"].s in prompts) ==>
            x == Exchange(None, Response(400, ErrorBody(InvalidLevel))))
      && (body["level"].JString? && body["level"].s in prompts && !body["text"].JString? ==>
            x == Exchange(None, Response(500, ErrorBody("can only concatenate str (not \"" + PyTypeName(body["text"]) + "\") to str"))))
      && (CallsModel(prompts, Some(body)) && model(x.sent.value).Raised? ==>
            x.response == Response(500, ErrorBody(model(x.sent.value).message)))
  {
  }

  /** Every level prompt ends with the words that introduce the text, so in the
      prompt the text follows them directly. */
  lemma PromptsEndWithTail(level: string)
    requires level in LevelPrompts
    ensures |PromptTail| <= |LevelPrompts[level]|
    ensures LevelPrompts[level][|LevelPrompts[level]| - |PromptTail|..] == PromptTail
  {
    PromptShape(level);
    var head := Intro + LevelLine(level) + Guidance(level) + ClosingHead;
    assert LevelPrompts[level] == head + PromptTail;
    assert (head + PromptTail)[|head|..] == PromptTail;
  }

  /** Each entry of the table is built from its level's line and guidance. */
  lemma PromptShape(level: string)
    requires level in LevelPrompts
    ensures LevelPrompts[level] == PromptWith(level, Guidance(level))
  {
  }

  /** The line of a level prompt that names the level. */
  function LevelLine(level: string): string {
    Indent + Opening(level) + level + LevelTitle(level)
  }

  /** B2 asks to adapt the text, the other levels to simplify it. */
  function Opening(level: string): string {
    if level == "B2" then AdaptOpening else SimplifyOpening
  }

  function LevelTitle(level: string): string {
    match level
    case "A1" => " (Débutant):\n"
    case "A2" => " (Élémentaire):\n"
    case "B1" => " (Intermédiaire):\n"
    case _ => " (Intermédiaire supérieur):\n"
  }

  /** The guidance lines of a level prompt. */
  function Guidance(level: string): string {
    match level
    case "A1" => GuidanceA1
    case "A2" => GuidanceA2
    case "B1" => GuidanceB1
    case _ => GuidanceB2
  }

  /** The prompt identifies the request: the level lines of two different
      levels differ at some position, so the same prompt can only come from
      the same level and the same text. */
  lemma {:induction false} PromptDeterminesRequest(l1: string, t1: string, l2: string, t2: string)
    requires l1 in LevelPrompts && l2 in LevelPrompts
    requires LevelPrompts[l1] + t1 == LevelPrompts[l2] + t2
    ensures l1 == l2 && t1 == t2
  {
    if l1 != l2 {
      PromptShape(l1);
      PromptShape(l2);
      LevelsOfTable(l1);
      LevelsOfTable(l2);
      DistinctLevelsDistinctPrompts(l1, Guidance(l1), t1, l2, Guidance(l2), t2);
    } else {
      SamePrefixSameRest(LevelPrompts[l1], t1, t2);
    }
  }

  /** The table's keys are exactly the four levels, each two characters long. */
  lemma LevelsOfTable(level: string)
    ensures level in LevelPrompts <==> level == "A1" || level == "A2" || level == "B1" || level == "B2"
    ensures level in LevelPrompts ==> |level| == 2
  {
  }

  /** Cancelling a common prefix. */
  lemma SamePrefixSameRest(p: string, t1: string, t2: string)
    requires p + t1 == p + t2
    ensures t1 == t2
  {
    assert (p + t1)[|p|..] == t1 && (p + t2)[|p|..] == t2;
  }

  /** Prompts for two different two-character levels differ on the level line,
      whatever guidance and text follow it. */
  lemma DistinctLevelsDistinctPrompts(l1: string, g1: string, t1: string, l2: string, g2: string, t2: string)
    requires |l1| == 2 && |l2| == 2 && l1 != l2
    ensures PromptWith(l1, g1) + t1 != PromptWith(l2, g2) + t2
  {
    var k := LevelLinesDiffer(l1, l2);
    IndexInLevelLine(l1, g1, t1, k);
    IndexInLevelLine(l2, g2, t2, k);
  }

  /** Position k of a level line is position |Intro| + k of any prompt built from it. */
  lemma IndexInLevelLine(level: string, guidance: string, t: string, k: nat)
    requires k < |LevelLine(level)|
    ensures |Intro| + k < |PromptWith(level, guidance) + t|
    ensures (PromptWith(level, guidance) + t)[|Intro| + k] == LevelLine(level)[k]
  {
    IndexAfter(Intro, LevelLine(level), guidance, Closing, t, k);
  }

  /** A position at which the level lines of two different levels differ. */
  function LevelLinesDiffer(l1: string, l2: string): (k: nat)
    requires |l1| == 2 && |l2| == 2 && l1 != l2
    ensures k < |LevelLine(l1)| && k < |LevelLine(l2)|
    ensures LevelLine(l1)[k] != LevelLine(l2)[k]
  {
    if Opening(l1) != Opening(l2) then
      // "Adapte" against "Simplifie"
      OpeningAt(l1, 0);
      OpeningAt(l2, 0);
      assert AdaptOpening[0] != SimplifyOpening[0];
      |Indent|
    else
      // the same opening: the two-character level names differ somewhere
      assert l1 == [l1[0], l1[1]] && l2 == [l2[0], l2[1]];
      var j: nat := if l1[0] != l2[0] then 0 else 1;
      LevelNameAt(l1, j);
      LevelNameAt(l2, j);
      |Indent| + |Opening(l1)| + j
  }

  lemma OpeningAt(level: string, j: nat)
    requires j < |Opening(level)|
    ensures |Indent| + j < |LevelLine(level)|
    ensures LevelLine(level)[|Indent| + j] == Opening(level)[j]
  {
    IndexAfter(Indent, Opening(level), level, LevelTitle(level), "", j);
  }

  lemma LevelNameAt(level: string, j: nat)
    requires j < |level|
    ensures |Indent| + |Opening(level)| + j < |LevelLine(level)|
    ensures LevelLine(level)[|Indent| + |Opening(level)| + j] == level[j]
  {
    IndexAfter(Indent + Opening(level), level, LevelTitle(level), "", "", j);
  }

  /** Position |a| + k of a + b + c + d + e is position k of b. */
  lemma IndexAfter(a: string, b: string, c: string, d: string, e: string, k: nat)
    requires k < |b|
    ensures |a| + k < |a + b + c + d|
    ensures (a + b + c + d)[|a| + k] == b[k]
    ensures (a + b + c + d + e)[|a| + k] == b[k]
  {
  }
}
