/**
  The AI pipeline end to end: the client side of `AiService` talking to the
  two API handlers. Each handler's response reaches the client as an ok or
  failing status with its JSON body; the language model stays an oracle.
*/
module AiPipeline {
  import opened Wrappers
  import opened Json
  import opened Text
  import opened Http
  import opened AiRoutes
  import opened AiService

  /** A handler's response as the client's `fetch` sees it. */
  function Wire(resp: ApiResponse): HttpReply
  {
    Reply(resp.status, Parsed(resp.body))
  }

  /** `JSON.stringify({ prompt })` as the handler receives it. */
  function PromptBody(prompt: string): Json
  {
    JObj(map["prompt" := JStr(prompt)])
  }

  /** The request `getAssistantType(prompt)` sends to `/api/ai/route`. */
  function RouteRequest(prompt: string): ApiRequest
  {
    ApiRequest("POST", QAbsent, PromptBody(prompt))
  }

  /** The request `generateEmail(assistant, prompt)` sends to `/api/ai/generate?assistant=...`. */
  function GenerateRequest(assistant: string, prompt: string): ApiRequest
  {
    ApiRequest("POST", QOne(assistant), PromptBody(prompt))
  }

  /** The persona name the client goes on with, if classification gave one. */
  function ChosenName(a: AiResult<Json>): string
  {
    if a.success && a.data.Some? && a.data.value.JStr? then a.data.value.s else ""
  }

  /** The classifier route's reply to the client's request. */
  function RouteReply(prompt: string, classify: ModelCall -> Oracle<Persona>): HttpReply
  {
    Wire(RouteHandler(RouteRequest(prompt), classify).0)
  }

  /** The generator route's reply to the request made with the classified name. */
  function GenerateReply(prompt: string, classify: ModelCall -> Oracle<Persona>,
                         generate: ModelCall -> Oracle<GeneratedEmail>): HttpReply
  {
    var name := ChosenName(AssistantTypeOutcome(RouteReply(prompt, classify)));
    Wire(GenerateHandler(GenerateRequest(name, prompt), generate).0)
  }

  /** `handleAiGenerate(prompt)` with both routes served by the handlers. */
  function EndToEnd(prompt: string, classify: ModelCall -> Oracle<Persona>,
                    generate: ModelCall -> Oracle<GeneratedEmail>): (AiResult<AiDraft>, seq<Request>)
  {
    HandleAiGenerate(prompt, RouteReply(prompt, classify), GenerateReply(prompt, classify, generate))
  }

  /** The classifier call made for a prompt. */
  function ClassifierCall(prompt: string): ModelCall
  {
    ModelCall("gpt-4o-mini", ClassifyPrompt(prompt))
  }

  /** The generator call made for a persona and a prompt. */
  function GeneratorCall(p: Persona, prompt: string): ModelCall
  {
    ModelCall("gpt-4o-mini", GeneratePrompt(QOne(PersonaName(p)), prompt))
  }

  /** A blank prompt: the route answers 400, which the client reports with its status. */
  lemma BlankPromptSeen(prompt: string, classify: ModelCall -> Oracle<Persona>)
    requires IsBlank(prompt)
    ensures AssistantTypeOutcome(RouteReply(prompt, classify))
            == Failure("Failed to get assistant type: " + IntToString(400))
  {
    PromptBodyMeaning(prompt);
  }

  /** A failing classifier: the route answers 500, which the client reports with its status. */
  lemma ClassifierFailureSeen(prompt: string, classify: ModelCall -> Oracle<Persona>)
    requires !IsBlank(prompt) && classify(ClassifierCall(prompt)).Throws?
    ensures AssistantTypeOutcome(RouteReply(prompt, classify))
            == Failure("Failed to get assistant type: " + IntToString(500))
  {
    PromptBodyMeaning(prompt);
  }

  /** An answering classifier: the client reads its persona's name. */
  lemma ClassifierAnswerSeen(prompt: string, classify: ModelCall -> Oracle<Persona>)
    requires !IsBlank(prompt) && classify(ClassifierCall(prompt)).Returns?
    ensures AssistantTypeOutcome(RouteReply(prompt, classify))
            == AiResult(true, Some(JStr(PersonaName(classify(ClassifierCall(prompt)).value))), None)
  {
    var resp := RouteHandler(RouteRequest(prompt), classify).0;
    RouteAnswer(prompt, classify);
    AssistantAccepted(resp, PersonaName(classify(ClassifierCall(prompt)).value));
  }

  /** The prompt a `{prompt}` body carries is read back by the handlers. */
  lemma PromptRead(prompt: string)
    requires !IsBlank(prompt)
    ensures HasPrompt(PromptBody(prompt)) && PromptOf(PromptBody(prompt)) == JStr(prompt)
  {
    PromptBodyMeaning(prompt);
  }

  /** The route's 200 answer for an answering classifier. */
  lemma RouteAnswer(prompt: string, classify: ModelCall -> Oracle<Persona>)
    requires !IsBlank(prompt) && classify(ClassifierCall(prompt)).Returns?
    ensures var resp := RouteHandler(RouteRequest(prompt), classify).0;
            && resp.status == 200
            && Prop(resp.body, "assistant") == Some(JStr(PersonaName(classify(ClassifierCall(prompt)).value)))
  {
    PromptRead(prompt);
    RouteAnswersWithPersona(RouteRequest(prompt), classify);
  }

  /** An ok reply naming a persona is accepted with that name. */
  lemma AssistantAccepted(resp: ApiResponse, name: string)
    requires resp.status == 200 && Prop(resp.body, "assistant") == Some(JStr(name)) && name != ""
    ensures AssistantTypeOutcome(Wire(resp)) == AiResult(true, Some(JStr(name)), None)
  {
  }

  /** A failing generator: the route answers 500, which the client reports with its status. */
  lemma GeneratorFailureSeen(p: Persona, prompt: string, generate: ModelCall -> Oracle<GeneratedEmail>)
    requires !IsBlank(prompt) && generate(GeneratorCall(p, prompt)).Throws?
    ensures GenerateEmailOutcome(Wire(GenerateHandler(GenerateRequest(PersonaName(p), prompt), generate).0))
            == Failure("Failed to generate email: " + IntToString(500))
  {
    PromptBodyMeaning(prompt);
  }

  /**
    An answering generator: the client accepts the text exactly when
    subject and body are both non-empty, and then keeps it as it is.
  */
  lemma GeneratorAnswerSeen(p: Persona, prompt: string, generate: ModelCall -> Oracle<GeneratedEmail>)
    requires !IsBlank(prompt) && generate(GeneratorCall(p, prompt)).Returns?
    ensures var g := generate(GeneratorCall(p, prompt)).value;
            var e := GenerateEmailOutcome(Wire(GenerateHandler(GenerateRequest(PersonaName(p), prompt), generate).0));
            && (g.subject == "" || g.body == "" ==> e == Failure(InvalidGenerationResponse))
            && (g.subject != "" && g.body != "" ==> e == AiResult(true, Some(EmailText(JStr(g.subject), JStr(g.body))), None))
  {
    var g := generate(GeneratorCall(p, prompt)).value;
    GeneratorReply(p, prompt, generate);
    GeneratedTextRead(g.subject, g.body);
  }

  /** `{subject, body}` as the generator route sends it. */
  function EmailJson(subject: string, body: string): Json
  {
    JObj(map["subject" := JStr(subject), "body" := JStr(body)])
  }

  /** An answering generator: the route's 200 reply carries its text. */
  lemma GeneratorReply(p: Persona, prompt: string, generate: ModelCall -> Oracle<GeneratedEmail>)
    requires !IsBlank(prompt) && generate(GeneratorCall(p, prompt)).Returns?
    ensures var g := generate(GeneratorCall(p, prompt)).value;
            GenerateHandler(GenerateRequest(PersonaName(p), prompt), generate).0
            == ApiResponse(200, None, EmailJson(g.subject, g.body))
  {
    PromptRead(prompt);
  }

  /** The client accepts a 200 `{subject, body}` exactly when neither is empty. */
  lemma GeneratedTextRead(subject: string, body: string)
    ensures var e := GenerateEmailOutcome(Reply(200, Parsed(EmailJson(subject, body))));
            && (subject == "" || body == "" ==> e == Failure(InvalidGenerationResponse))
            && (subject != "" && body != "" ==> e == AiResult(true, Some(EmailText(JStr(subject), JStr(body))), None))
  {
    assert Prop(EmailJson(subject, body), "subject") == Some(JStr(subject));
    assert Prop(EmailJson(subject, body), "body") == Some(JStr(body));
  }

  /** The status a refused prompt gets, as text. */
  lemma StatusTexts()
    ensures IntToString(400) == "400"
  {
    assert NatToString(4) == "4";
    assert NatToString(40) == "40";
  }

  /**
    End to end, a draft is produced exactly when the prompt is not blank,
    the classifier answers, and the generator, asked in that persona,
    answers with a non-empty subject and body; the draft then carries that
    persona and that text, after one request to each route.
  */
  lemma EndToEndSucceedsIff(prompt: string, classify: ModelCall -> Oracle<Persona>,
                            generate: ModelCall -> Oracle<GeneratedEmail>)
    ensures var (r, sent) := EndToEnd(prompt, classify, generate);
            var c := classify(ClassifierCall(prompt));
            r.success <==> && !IsBlank(prompt) && c.Returns?
                           && var g := generate(GeneratorCall(c.value, prompt));
                              g.Returns? && g.value.subject != "" && g.value.body != ""
    ensures var (r, sent) := EndToEnd(prompt, classify, generate);
            r.success ==>
              var p := classify(ClassifierCall(prompt)).value;
              var g := generate(GeneratorCall(p, prompt)).value;
              && r.data == Some(AiDraft(PersonaName(p), JStr(g.subject), JStr(g.body)))
              && sent == [PostRoute(prompt), PostGenerate(PersonaName(p), prompt)]
  {
    if IsBlank(prompt) || classify(ClassifierCall(prompt)).Throws? {
      UnclassifiedFails(prompt, classify, generate);
    } else {
      ClassifiedOutcome(prompt, classify(ClassifierCall(prompt)).value, classify, generate);
    }
  }

  /** Without a classification the pipeline fails. */
  lemma UnclassifiedFails(prompt: string, classify: ModelCall -> Oracle<Persona>,
                          generate: ModelCall -> Oracle<GeneratedEmail>)
    requires IsBlank(prompt) || classify(ClassifierCall(prompt)).Throws?
    ensures !EndToEnd(prompt, classify, generate).0.success
  {
    if IsBlank(prompt) {
      BlankPromptSeen(prompt, classify);
    } else {
      ClassifierFailureSeen(prompt, classify);
    }
    PipelineSucceedsIff(prompt, RouteReply(prompt, classify), GenerateReply(prompt, classify, generate));
  }

  /** With persona `p` classified, the generator asked in `p` decides the outcome. */
  lemma ClassifiedOutcome(prompt: string, p: Persona, classify: ModelCall -> Oracle<Persona>,
                          generate: ModelCall -> Oracle<GeneratedEmail>)
    requires !IsBlank(prompt) && classify(ClassifierCall(prompt)) == Returns(p)
    ensures var (r, sent) := EndToEnd(prompt, classify, generate);
            var g := generate(GeneratorCall(p, prompt));
            && (r.success <==> g.Returns? && g.value.subject != "" && g.value.body != "")
            && (r.success ==>
                  && r.data == Some(AiDraft(PersonaName(p), JStr(g.value.subject), JStr(g.value.body)))
                  && sent == [PostRoute(prompt), PostGenerate(PersonaName(p), prompt)])
  {
    ClassifiedReplies(prompt, p, classify, generate);
    var generateReply := GenerateReply(prompt, classify, generate);
    if generate(GeneratorCall(p, prompt)).Throws? {
      GeneratorFailureSeen(p, prompt, generate);
    } else {
      GeneratorAnswerSeen(p, prompt, generate);
    }
    ServiceOutcome(prompt, PersonaName(p), RouteReply(prompt, classify), generateReply);
  }

  /** With persona `p` classified, the client asks the generator in `p`. */
  lemma ClassifiedReplies(prompt: string, p: Persona, classify: ModelCall -> Oracle<Persona>,
                          generate: ModelCall -> Oracle<GeneratedEmail>)
    requires !IsBlank(prompt) && classify(ClassifierCall(prompt)) == Returns(p)
    ensures AssistantTypeOutcome(RouteReply(prompt, classify)) == AiResult(true, Some(JStr(PersonaName(p))), None)
    ensures GenerateReply(prompt, classify, generate)
            == Wire(GenerateHandler(GenerateRequest(PersonaName(p), prompt), generate).0)
  {
    ClassifierAnswerSeen(prompt, classify);
  }

  /** Once a persona name is classified, the generation's outcome is the pipeline's. */
  lemma ServiceOutcome(prompt: string, name: string, routeReply: HttpReply, generateReply: HttpReply)
    requires AssistantTypeOutcome(routeReply) == AiResult(true, Some(JStr(name)), None)
    requires name == "sales" || name == "followup"
    ensures var (r, sent) := HandleAiGenerate(prompt, routeReply, generateReply);
            var e := GenerateEmailOutcome(generateReply);
            && (r.success <==> e.success)
            && (r.success ==>
                  && r.data == Some(AiDraft(name, e.data.value.subject, e.data.value.body))
                  && sent == [PostRoute(prompt), PostGenerate(name, prompt)])
  {
    PipelineSucceedsIff(prompt, routeReply, generateReply);
  }

  /** A blank prompt is refused by the route, and the client reports the 400. */
  lemma BlankPromptEndToEnd(prompt: string, classify: ModelCall -> Oracle<Persona>,
                            generate: ModelCall -> Oracle<GeneratedEmail>)
    requires IsBlank(prompt)
    ensures EndToEnd(prompt, classify, generate)
            == (Failure("Failed to get assistant type: " + IntToString(400)), [PostRoute(prompt)])
    ensures IntToString(400) == "400"
  {
    BlankPromptSeen(prompt, classify);
    StatusTexts();
  }
}
