/**
  The two API handlers of the AI pipeline, `/api/ai/route` (classify a
  message as a sales or a follow-up request) and `/api/ai/generate` (write
  an email in the chosen persona). Each is a chain of guards: the method,
  then the prompt in the request body, then one call to the language
  model. The model is outside this system: it is passed in as an oracle
  from the call made (model id and prompt text) to what the call returns,
  with `Throws` for a call that fails. Each handler returns its response
  and the list of model calls it made.
*/
module AiRoutes {
  import opened Wrappers
  import opened Json
  import opened Text

  /** The value of `req.query.assistant`: absent, one value, or repeated. */
  datatype QueryValue = QAbsent | QOne(value: string) | QMany(values: seq<string>)

  /** An incoming request: its method (`verb`), its `assistant` query value and its parsed body. */
  datatype ApiRequest = ApiRequest(verb: string, assistant: QueryValue, body: Json)

  /** A response: status, the `Allow` header if set, and the JSON body. */
  datatype ApiResponse = ApiResponse(status: int, allow: Option<string>, body: Json)

  /** The outcome of one call to the language model. */
  datatype Oracle<T> = Returns(value: T) | Throws

  /** One call to the language model. */
  datatype ModelCall = ModelCall(model: string, prompt: string)

  /** The two values of the classifier's enum output. */
  datatype Persona = Sales | Followup

  /** The object the generator's schema describes. */
  datatype GeneratedEmail = GeneratedEmail(subject: string, body: string)

  function PersonaName(p: Persona): (r: string)
    ensures r == "sales" || r == "followup"
  {
    match p
    case Sales => "sales"
    case Followup => "followup"
  }

  const ClassifierModel := "gpt-4o-mini"

  /** `{ error: message }`. */
  function ErrorBody(message: string): Json
  {
    JObj(map["error" := JStr(message)])
  }

  /** The 405 every handler gives to a method other than POST. */
  const MethodNotAllowed := ApiResponse(405, Some("POST"), ErrorBody("Method Not Allowed"))

  function BadRequest(message: string): ApiResponse
  {
    ApiResponse(400, None, ErrorBody(message))
  }

  const InternalError := ApiResponse(500, None, ErrorBody("Internal error"))

  /** `const { prompt } = req.body || {}`. */
  function PromptOf(body: Json): Json
  {
    var source := Or(body, JObj(map[]));
    assert source != JNull && source != JUndefined;
    Prop(source, "prompt").value
  }

  /** `typeof prompt === 'string' && prompt.trim()`. */
  predicate HasPrompt(body: Json)
  {
    PromptOf(body).JStr? && Trim(PromptOf(body).s) != ""
  }

  /** A falsy body, or one without a string `prompt`, carries no prompt. */
  lemma NoBodyNoPrompt(body: Json)
    requires !Truthy(body) || (body.JObj? && "prompt" !in body.fields)
    ensures !HasPrompt(body)
  {
  }

  /** A body `{prompt: s}` carries a prompt exactly when `s` is not blank. */
  lemma PromptBodyMeaning(s: string)
    ensures HasPrompt(JObj(map["prompt" := JStr(s)])) <==> !IsBlank(s)
    ensures PromptOf(JObj(map["prompt" := JStr(s)])) == JStr(s)
  {
    PromptOfObject(map["prompt" := JStr(s)]);
    TrimEmptyIffBlank(s);
  }

  /** The prompt of an object body is its `prompt` member. */
  lemma PromptOfObject(fields: map<string, Json>)
    ensures PromptOf(JObj(fields)) == if "prompt" in fields then fields["prompt"] else JUndefined
  {
    assert Or(JObj(fields), JObj(map[])) == JObj(fields);
  }

  // ---------------------------------------------------------------------
  // Prompt text

  /** `pre + m + post` with `pre` and `post` taken off again, if they are there. */
  function Between(p: string, pre: string, post: string): (r: Option<string>)
    ensures r.Some? ==> p == pre + r.value + post
  {
    if |pre| + |post| <= |p| && p[..|pre|] == pre && p[|p| - |post|..] == post
    then
      var m := p[|pre|..|p| - |post|];
      assert p == p[..|pre|] + m + p[|p| - |post|..];
      Some(m)
    else None
  }

  /** Taking the delimiters off recovers exactly what was put between them. */
  lemma BetweenRoundTrip(pre: string, m: string, post: string)
    ensures Between(pre + m + post, pre, post) == Some(m)
  {
    var p := pre + m + post;
    assert p[..|pre|] == pre;
    assert p[|p| - |post|..] == post;
    assert p[|pre|..|p| - |post|] == m;
  }

  const Quotes := "\"\"\""

  /** The classifier's instructions, up to and including the opening quotes. */
  const ClassifierHead :=
    "\n    You are a classifier.  \n"
    + "    Given the following message, determine if it is a **Sales Assistant** type (focused on pitching, selling, or offering products/services)  \n"
    + "    or a **Follow-up Assistant** type (focused on checking in, reminding, or continuing an earlier interaction).  \n"
    + "\n    Message: " + Quotes

  /** What follows the message in both prompts. */
  const PromptTail := Quotes + "\n  "

  /** The prompt `classifyAssistantType(message)` sends. */
  function ClassifyPrompt(message: string): string
  {
    ClassifierHead + message + PromptTail
  }

  /**
    The classification prompt holds the message verbatim between triple
    quotes: the message can be read back from it, so different messages
    give different prompts.
  */
  lemma ClassifyPromptQuotesMessage(message: string)
    ensures Between(ClassifyPrompt(message), ClassifierHead, PromptTail) == Some(message)
    ensures ClassifierHead[|ClassifierHead| - 3..] == Quotes && PromptTail[..3] == Quotes
  {
    BetweenRoundTrip(ClassifierHead, message, PromptTail);
  }

  /** A classification prompt determines its message. */
  lemma ClassifyPromptInjective(m1: string, m2: string)
    requires ClassifyPrompt(m1) == ClassifyPrompt(m2)
    ensures m1 == m2
  {
    ClassifyPromptQuotesMessage(m1);
    ClassifyPromptQuotesMessage(m2);
  }

  const SalesPrompt :=
    "\n    You are a professional sales assistant specializing in creating compelling, concise sales emails.\n"
    + "    Focus on value proposition, benefits, and clear call-to-action.\n"
    + "    Write in a professional yet friendly tone.\n"
    + "    Create emails that flow naturally and engage the reader.\n  "

  const FollowupPrompt :=
    "\n    You are a professional follow-up assistant specializing in polite, engaging follow-up emails.\n"
    + "    Focus on being helpful, checking in, and maintaining relationships.\n"
    + "    Write in a warm, professional tone.\n"
    + "    Create emails that feel personal and conversational.\n  "

  /** `assistantPrompts`: one system text per persona. */
  const AssistantPrompts: map<string, string> := map["sales" := SalesPrompt, "followup" := FollowupPrompt]

  /** The table has exactly the two persona names as keys, with distinct texts. */
  lemma AssistantPromptsKeys()
    ensures forall k :: k in AssistantPrompts <==> k == "sales" || k == "followup"
    ensures forall p :: AssistantPrompts[PersonaName(p)] == (if p == Sales then SalesPrompt else FollowupPrompt)
    ensures SalesPrompt != FollowupPrompt
  {
    assert |SalesPrompt| == 281 && |FollowupPrompt| == 270;
  }

  /**
    The property key a query value is converted to: `undefined` for a
    missing value, the elements joined with commas for a repeated one.
  */
  function QueryKey(q: QueryValue): string
  {
    match q
    case QAbsent => "undefined"
    case QOne(s) => s
    case QMany(vs) => if vs == [] then "" else Join(vs)
  }

  /** `${assistantPrompts[assistant]}`: the persona text, or "undefined" for an unknown key. */
  function PersonaText(q: QueryValue): (r: string)
    ensures QueryKey(q) in AssistantPrompts ==> r == AssistantPrompts[QueryKey(q)]
    ensures QueryKey(q) !in AssistantPrompts ==> r == "undefined"
    ensures r in AssistantPrompts.Values <==> QueryKey(q) in AssistantPrompts
  {
    var k := QueryKey(q);
    assert "undefined" != SalesPrompt && "undefined" != FollowupPrompt;
    if k in AssistantPrompts then AssistantPrompts[k] else "undefined"
  }

  /** The part of the generation prompt between the persona text and the message. */
  const Guidelines :=
    "  \n\n    You are given a message and you need to write an email to the customer.\n"
    + "\n    Guidelines:\n"
    + "    - Write a natural, flowing email (around 60-100 words total)\n"
    + "    - Use complete, well-formed sentences with proper grammar\n"
    + "    - Write in a professional, engaging tone\n"
    + "    - Include a clear subject line that summarizes the email\n"
    + "    - Make the email actionable and valuable to the recipient\n"
    + "    - Use proper email formatting with greeting and closing\n"
    + "    - Avoid choppy, single-line sentences\n"
    + "    - Create a cohesive, professional email that flows naturally\n"
    + "\n    Message: " + Quotes

  /** The line break and indentation that open the generation prompt. */
  const Indent := "\n    "

  /** Everything of the generation prompt that comes before the message. */
  function GenerateHead(q: QueryValue): string
  {
    Indent + PersonaText(q) + Guidelines
  }

  /** The prompt `getEmail(message, assistant)` sends. */
  function GeneratePrompt(q: QueryValue, message: string): string
  {
    GenerateHead(q) + message + PromptTail
  }

  /**
    The generation prompt opens with the persona's text from the table (or
    "undefined"), and holds the message verbatim between triple quotes.
  */
  lemma GeneratePromptMeaning(q: QueryValue, message: string)
    ensures var p := GeneratePrompt(q, message);
            p[|Indent|..|Indent| + |PersonaText(q)|] == PersonaText(q)
    ensures Between(GeneratePrompt(q, message), GenerateHead(q), PromptTail) == Some(message)
  {
    GeneratePromptOpensWithPersona(q, message);
    GeneratePromptQuotesMessage(q, message);
  }

  lemma GeneratePromptOpensWithPersona(q: QueryValue, message: string)
    ensures var p := GeneratePrompt(q, message);
            p[|Indent|..|Indent| + |PersonaText(q)|] == PersonaText(q)
  {
    Infix(Indent, PersonaText(q), Guidelines, message, PromptTail);
  }

  lemma GeneratePromptQuotesMessage(q: QueryValue, message: string)
    ensures Between(GeneratePrompt(q, message), GenerateHead(q), PromptTail) == Some(message)
  {
    BetweenRoundTrip(GenerateHead(q), message, PromptTail);
  }

  /** The second part of `a + b + c + d + e` is `b`. */
  lemma Infix<T>(a: seq<T>, b: seq<T>, c: seq<T>, d: seq<T>, e: seq<T>)
    ensures (a + b + c + d + e)[|a|..|a| + |b|] == b
  {
    assert a + b + c + d + e == a + b + (c + d + e);
  }

  /** The two persona queries select their own texts. */
  lemma PersonaQueries(p: Persona)
    ensures PersonaText(QOne(PersonaName(p))) == AssistantPrompts[PersonaName(p)]
    ensures PersonaText(QOne("sales")) == SalesPrompt
    ensures PersonaText(QOne("followup")) == FollowupPrompt
  {
  }

  /** The model of a generation: the same for every persona. */
  function GeneratorModel(q: QueryValue): (r: string)
    ensures r == "gpt-4o-mini"
  {
    if q == QOne("sales") then "gpt-4o-mini" else "gpt-4o-mini"
  }

  // ---------------------------------------------------------------------
  // The handlers

  /** `/api/ai/route`: the classifier's answer for the prompt, as `{assistant}`. */
  function RouteHandler(req: ApiRequest, classify: ModelCall -> Oracle<Persona>): (ApiResponse, seq<ModelCall>)
  {
    if req.verb != "POST" then (MethodNotAllowed, [])
    else if !HasPrompt(req.body) then (BadRequest("Missing prompt"), [])
    else
      var call := ModelCall(ClassifierModel, ClassifyPrompt(PromptOf(req.body).s));
      match classify(call)
      case Throws => (InternalError, [call])
      case Returns(p) => (ApiResponse(200, None, JObj(map["assistant" := JStr(PersonaName(p))])), [call])
  }

  /** `/api/ai/generate`: the generated subject and body, as `{subject, body}`. */
  function GenerateHandler(req: ApiRequest, generate: ModelCall -> Oracle<GeneratedEmail>): (ApiResponse, seq<ModelCall>)
  {
    if req.verb != "POST" then (MethodNotAllowed, [])
    else if !HasPrompt(req.body) then (BadRequest("Missing assistant"), [])
    else
      var call := ModelCall(GeneratorModel(req.assistant), GeneratePrompt(req.assistant, PromptOf(req.body).s));
      match generate(call)
      case Throws => (InternalError, [call])
      case Returns(g) => (ApiResponse(200, None, JObj(map["subject" := JStr(g.subject), "body" := JStr(g.body)])), [call])
  }

  /** A method other than POST is refused with 405 and `Allow: POST`, before any classifier call. */
  lemma RouteWrongMethodRefused(req: ApiRequest, classify: ModelCall -> Oracle<Persona>)
    requires req.verb != "POST"
    ensures RouteHandler(req, classify) == (MethodNotAllowed, [])
    ensures MethodNotAllowed.status == 405 && MethodNotAllowed.allow == Some("POST")
  {
  }

  /** A method other than POST is refused with 405 and `Allow: POST`, before any generator call. */
  lemma GenerateWrongMethodRefused(req: ApiRequest, generate: ModelCall -> Oracle<GeneratedEmail>)
    requires req.verb != "POST"
    ensures GenerateHandler(req, generate) == (MethodNotAllowed, [])
    ensures MethodNotAllowed.status == 405 && MethodNotAllowed.allow == Some("POST")
  {
  }

  /** A POST without a usable prompt is refused with 400 "Missing prompt" before any model call. */
  lemma RoutePromptMissing(req: ApiRequest, classify: ModelCall -> Oracle<Persona>)
    requires req.verb == "POST" && !HasPrompt(req.body)
    ensures RouteHandler(req, classify) == (BadRequest("Missing prompt"), [])
  {
  }

  /**
    A POST without a usable prompt is refused with 400 before any model
    call; the refusal says "Missing assistant" although it is the prompt
    that is missing, and the `assistant` query is never looked at.
  */
  lemma GeneratePromptMissing(req: ApiRequest, generate: ModelCall -> Oracle<GeneratedEmail>, q: QueryValue)
    requires req.verb == "POST" && !HasPrompt(req.body)
    ensures GenerateHandler(req, generate) == (BadRequest("Missing assistant"), [])
    ensures GenerateHandler(req.(assistant := q), generate) == GenerateHandler(req, generate)
  {
  }

  /**
    A POST with a prompt makes exactly one classifier call, on the prompt
    built from the message; the answer is 200 with that call's persona,
    which is one of the two names, or 500 when the call throws.
  */
  lemma RouteAnswersWithPersona(req: ApiRequest, classify: ModelCall -> Oracle<Persona>)
    requires req.verb == "POST" && HasPrompt(req.body)
    ensures var call := ModelCall("gpt-4o-mini", ClassifyPrompt(PromptOf(req.body).s));
            var (resp, calls) := RouteHandler(req, classify);
            && calls == [call]
            && (resp.status == 200 <==> classify(call).Returns?)
            && (classify(call).Throws? ==> resp == InternalError)
            && (resp.status == 200 ==>
                  && resp.allow == None
                  && var a := Prop(resp.body, "assistant");
                  && a == Some(JStr(PersonaName(classify(call).value)))
                  && (a == Some(JStr("sales")) || a == Some(JStr("followup"))))
  {
    var call := ModelCall("gpt-4o-mini", ClassifyPrompt(PromptOf(req.body).s));
    RouteCall(req, classify);
    var resp := RouteHandler(req, classify).0;
    if classify(call).Returns? {
      var name := PersonaName(classify(call).value);
      AssistantMember(name);
      NamedPersona(name);
      assert resp == ApiResponse(200, None, JObj(map["assistant" := JStr(name)]));
    } else {
      assert resp == InternalError;
    }
  }

  /** A persona name is one of the two JSON strings. */
  lemma NamedPersona(name: string)
    requires name == "sales" || name == "followup"
    ensures Some(JStr(name)) == Some(JStr("sales")) || Some(JStr(name)) == Some(JStr("followup"))
  {
  }

  /** The route's one classifier call and its two possible answers. */
  lemma RouteCall(req: ApiRequest, classify: ModelCall -> Oracle<Persona>)
    requires req.verb == "POST" && HasPrompt(req.body)
    ensures var call := ModelCall("gpt-4o-mini", ClassifyPrompt(PromptOf(req.body).s));
            && RouteHandler(req, classify).1 == [call]
            && (classify(call).Throws? ==> RouteHandler(req, classify).0 == InternalError)
            && (classify(call).Returns? ==>
                  RouteHandler(req, classify).0
                  == ApiResponse(200, None, JObj(map["assistant" := JStr(PersonaName(classify(call).value))])))
  {
  }

  /** The `assistant` member of `{assistant: name}`. */
  lemma AssistantMember(name: string)
    ensures Prop(JObj(map["assistant" := JStr(name)]), "assistant") == Some(JStr(name))
  {
  }

  /**
    A POST with a prompt makes exactly one generator call; the answer is 200
    whose body has exactly the generated subject and body, or 500.
  */
  lemma GenerateAnswersWithEmail(req: ApiRequest, generate: ModelCall -> Oracle<GeneratedEmail>)
    requires req.verb == "POST" && HasPrompt(req.body)
    ensures var call := ModelCall("gpt-4o-mini", GeneratePrompt(req.assistant, PromptOf(req.body).s));
            var (resp, calls) := GenerateHandler(req, generate);
            && calls == [call]
            && (resp.status == 200 <==> generate(call).Returns?)
            && (generate(call).Throws? ==> resp == InternalError)
            && (resp.status == 200 ==>
                  && resp.body.JObj?
                  && resp.body.fields.Keys == {"subject", "body"}
                  && resp.body.fields["subject"] == JStr(generate(call).value.subject)
                  && resp.body.fields["body"] == JStr(generate(call).value.body))
  {
    var (resp, calls) := GenerateHandler(req, generate);
    if resp.status == 200 {
      assert resp.body.fields.Keys == {"subject", "body"};
    }
  }

  /** Every response of the classifier route is 200, 400, 405 or 500, and only the 405 carries `Allow`. */
  lemma RouteStatuses(req: ApiRequest, classify: ModelCall -> Oracle<Persona>)
    ensures var r := RouteHandler(req, classify).0;
            r.status in {200, 400, 405, 500} && (r.allow.Some? <==> r.status == 405)
  {
    var r := RouteHandler(req, classify).0;
    if req.verb != "POST" {
      assert r == MethodNotAllowed;
    } else if !HasPrompt(req.body) {
      assert r == BadRequest("Missing prompt");
    } else {
      assert r.status == 200 || r == InternalError;
    }
  }

  /** Every response of the generator route is 200, 400, 405 or 500, and only the 405 carries `Allow`. */
  lemma GenerateStatuses(req: ApiRequest, generate: ModelCall -> Oracle<GeneratedEmail>)
    ensures var r := GenerateHandler(req, generate).0;
            r.status in {200, 400, 405, 500} && (r.allow.Some? <==> r.status == 405)
  {
    var r := GenerateHandler(req, generate).0;
    if req.verb != "POST" {
      assert r == MethodNotAllowed;
    } else if !HasPrompt(req.body) {
      assert r == BadRequest("Missing assistant");
    } else {
      assert (r.status == 200 && r.allow == None) || r == InternalError;
    }
  }
}
