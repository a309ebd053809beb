/**
 * The content script and the service together: the JSON body simplifyText
 * posts, the fields it reads from the service's answer, and what a page
 * shows for each way the `/simplify` handler can answer.
 *
 * The reason phrase of a status line belongs to the HTTP server and is a
 * parameter here.
 */
module Wire {
  import opened Basics
  import opened Content
  import opened Backend

  /** `JSON.stringify({ text, level })`, as the handler decodes it. */
  function RequestBody(req: Request): map<string, Json> {
    map["text" := JString(req.text), "level" := JString(req.level)]
  }

  /** `data.error` as simplifyText tests it: a string field is truthy when not
      empty; the service only ever puts strings there. */
  function ErrorField(body: map<string, Json>): string {
    if "error" in body && body["error"].JString? then body["error"].s else ""
  }

  /** `data.simplified_text`: the string the service put there, or `undefined`. */
  function SimplifiedField(body: map<string, Json>): JsText {
    if "simplified_text" in body && body["simplified_text"].JString? then Str(body["simplified_text"].s) else Undefined
  }

  /** The response as `fetch` hands it to simplifyText. */
  function Deliver(r: Response, statusText: string): FetchOutcome {
    HttpReply(r.status, statusText, JsonBody(ErrorField(r.body), SimplifiedField(r.body)))
  }

  /** What the `/simplify` handler with the table `prompts` answers to the
      request a page sends; the service's own table is LevelPrompts, and every
      property below holds for any table. */
  function Answer(prompts: map<string, string>, req: Request, model: ChatRequest -> ChatOutcome): Exchange {
    SimplifyEndpoint(prompts, Post, Some(RequestBody(req)), model)
  }

  /** A request at a level in the table reaches the model with that level's
      prompt followed by the text, and the model's reply comes back as the
      simplified text. */
  lemma KnownLevelReachesModel(prompts: map<string, string>, req: Request, model: ChatRequest -> ChatOutcome, statusText: string)
    requires req.level in prompts
    ensures Answer(prompts, req, model).sent == Some(ChatFor(prompts[req.level] + req.text))
    ensures model(ChatFor(prompts[req.level] + req.text)).Replied? ==>
              Settle(Deliver(Answer(prompts, req, model).response, statusText))
                == Ok(Str(model(ChatFor(prompts[req.level] + req.text)).content))
  {
    assert CallsModel(prompts, Some(RequestBody(req)));
  }

  /** A level outside the table (a stored value the popup never offers) is
      refused with 400 before the model is called. */
  lemma UnknownLevelIsRefused(prompts: map<string, string>, req: Request, model: ChatRequest -> ChatOutcome, statusText: string)
    requires req.level !in prompts
    ensures Answer(prompts, req, model).sent == None
    ensures Settle(Deliver(Answer(prompts, req, model).response, statusText))
              == Err("Server returned " + NatToString(400) + ": " + statusText)
  {
  }

  /** The page never shows the message the service puts in `error`: every
      error answer has a status outside 200-299, which simplifyText reports
      first, and every 200 answer carries the simplified text. */
  lemma ServiceErrorsReadAsStatus(prompts: map<string, string>, req: Request, model: ChatRequest -> ChatOutcome, statusText: string)
    ensures var r := Answer(prompts, req, model).response;
      && (Settle(Deliver(r, statusText)).Ok? <==> r.status == 200)
      && (r.status != 200 ==> Settle(Deliver(r, statusText)) == Err("Server returned " + NatToString(r.status) + ": " + statusText))
      && (r.status == 200 ==> SimplifiedField(r.body).Str?)
  {
    var x := Answer(prompts, req, model);
    if x.response.status == 200 {
      assert x.sent.Some? && model(x.sent.value).Replied?;
    }
  }

  /** The request a page leaves in flight, answered by the service, ends in the
      simplified view of the model's reply or in the error view naming the
      status; the reply is cached exactly when the service answered 200. */
  lemma {:induction false} PageAndService(prompts: map<string, string>, s: PageState, i: nat, model: ChatRequest -> ChatOutcome, statusText: string)
    requires Consistent(s) && i < |s.inFlight|
    ensures var req := s.inFlight[i];
      var r := Answer(prompts, req, model).response;
      var s' := Completion(s, i, Deliver(r, statusText));
      && (r.status == 200 <==> req.level in prompts && model(ChatFor(prompts[req.level] + req.text)).Replied?)
      && (r.status == 200 ==>
            var reply := model(ChatFor(prompts[req.level] + req.text)).content;
            s'.overlay.view == ViewFor(req.text, Str(reply)) && s'.cache == s.cache[req.text := Str(reply)])
      && (r.status != 200 ==>
            s'.overlay.view == Failed(req.text, FailureText("Server returned " + NatToString(r.status) + ": " + statusText))
            && s'.cache == s.cache)
  {
    var req := s.inFlight[i];
    ServiceErrorsReadAsStatus(prompts, req, model, statusText);
    if req.level in prompts {
      KnownLevelReachesModel(prompts, req, model, statusText);
    }
  }
}
