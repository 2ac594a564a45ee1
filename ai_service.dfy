/**
  `AiService`, the client side of the AI pipeline: `getAssistantType` posts
  the prompt to the classifier route, `generateEmail` posts it to the
  generator route, and `handleAiGenerate` runs the two in order. Each step
  is given the reply its request would receive and returns its result
  together with the requests it issued.
*/
module AiService {
  import opened Wrappers
  import opened Json
  import opened Text
  import opened Http

  /** The `{success, data, error}` records the service resolves to. */
  datatype AiResult<T> = AiResult(success: bool, data: Option<T>, error: Option<string>)

  /** The `{subject, body}` of a generated email, as the JSON values received. */
  datatype EmailText = EmailText(subject: Json, body: Json)

  /** The `{assistantType, subject, body}` of a generated draft. */
  datatype AiDraft = AiDraft(assistantType: string, subject: Json, body: Json)

  function Failure<T>(message: string): AiResult<T>
  {
    AiResult(false, None, Some(message))
  }

  const AssistantFallback := "Failed to get assistant type"
  const GenerateFallback := "Failed to generate email"
  const InvalidAssistantResponse := "Invalid assistant type response"
  const InvalidGenerationResponse := "Invalid email generation response"
  const InvalidAssistantType := "Invalid assistant type"

  /** The TypeError V8 raises when reading property `key` of `null` or `undefined`. */
  function ReadError(j: Json, key: string): string
  {
    "Cannot read properties of " + (if j == JNull then "null" else "undefined") + " (reading '" + key + "')"
  }

  /** What `getAssistantType` makes of the classifier route's reply. */
  function AssistantTypeOutcome(reply: HttpReply): AiResult<Json>
  {
    match reply
    case Rejected(m) => Failure(MessageOr(m, AssistantFallback))
    case Reply(status, body) =>
      if !Ok(status) then Failure("Failed to get assistant type: " + IntToString(status))
      else
        match body
        case Malformed(m) => Failure(MessageOr(m, AssistantFallback))
        case Parsed(j) =>
          match Prop(j, "assistant")
          case None => Failure(ReadError(j, "assistant"))
          case Some(a) =>
            if !Truthy(a) then Failure(InvalidAssistantResponse)
            else AiResult(true, Some(a), None)
  }

  /** `getAssistantType(prompt)`: one POST to the classifier route. */
  function GetAssistantType(prompt: string, reply: HttpReply): (AiResult<Json>, seq<Request>)
  {
    (AssistantTypeOutcome(reply), [PostRoute(prompt)])
  }

  /** What `generateEmail` makes of the generator route's reply. */
  function GenerateEmailOutcome(reply: HttpReply): AiResult<EmailText>
  {
    match reply
    case Rejected(m) => Failure(MessageOr(m, GenerateFallback))
    case Reply(status, body) =>
      if !Ok(status) then Failure("Failed to generate email: " + IntToString(status))
      else
        match body
        case Malformed(m) => Failure(MessageOr(m, GenerateFallback))
        case Parsed(j) =>
          match Prop(j, "subject")
          case None => Failure(ReadError(j, "subject"))
          case Some(subject) =>
            var body := Prop(j, "body").value;
            if !Truthy(subject) || !Truthy(body) then Failure(InvalidGenerationResponse)
            else AiResult(true, Some(EmailText(Or(subject, JStr("")), Or(body, JStr("")))), None)
  }

  /** `generateEmail(assistantType, prompt)`: one POST to the generator route. */
  function GenerateEmail(assistantType: string, prompt: string, reply: HttpReply): (AiResult<EmailText>, seq<Request>)
  {
    (GenerateEmailOutcome(reply), [PostGenerate(assistantType, prompt)])
  }

  /** `assistantType === 'sales' || assistantType === 'followup'`. */
  predicate IsPersonaName(a: Json)
  {
    StrictEq(a, JStr("sales")) || StrictEq(a, JStr("followup"))
  }

  /**
    `handleAiGenerate(prompt)`: classify, check the persona, generate; the
    first failure is returned as it is.
  */
  function HandleAiGenerate(prompt: string, routeReply: HttpReply, generateReply: HttpReply)
    : (AiResult<AiDraft>, seq<Request>)
  {
    var (assistant, routed) := GetAssistantType(prompt, routeReply);
    if !assistant.success then (AiResult(false, None, assistant.error), routed)
    else
      var assistantType := assistant.data.value;
      if !IsPersonaName(assistantType) then (Failure(InvalidAssistantType), routed)
      else
        var (email, generated) := GenerateEmail(assistantType.s, prompt, generateReply);
        if !email.success then (AiResult(false, None, email.error), routed + generated)
        else
          var draft := AiDraft(assistantType.s, email.data.value.subject, email.data.value.body);
          (AiResult(true, Some(draft), None), routed + generated)
  }

  // ---------------------------------------------------------------------
  // getAssistantType and generateEmail

  /** A result is a success with data and no error, or a failure with a non-empty message and no data. */
  predicate WellShaped<T>(r: AiResult<T>)
  {
    && (r.success <==> r.data.Some?)
    && (r.success <==> r.error.None?)
    && (r.error.Some? ==> r.error.value != "")
  }

  /** A non-ok status makes the classification fail with that status in the message. */
  lemma AssistantTypeStatusReported(status: int, body: Body)
    requires !Ok(status)
    ensures AssistantTypeOutcome(Reply(status, body))
            == Failure("Failed to get assistant type: " + IntToString(status))
  {
  }

  /**
    Classification succeeds exactly for an ok reply whose JSON has a truthy
    `assistant`, and then returns that value unchanged: it need not be one
    of the two persona names.
  */
  lemma AssistantTypeSucceedsIff(reply: HttpReply)
    ensures var r := AssistantTypeOutcome(reply);
            r.success <==> && reply.Reply? && Ok(reply.status) && reply.body.Parsed?
                           && Prop(reply.body.json, "assistant").Some?
                           && Truthy(Prop(reply.body.json, "assistant").value)
    ensures var r := AssistantTypeOutcome(reply);
            r.success ==> r.data == Prop(reply.body.json, "assistant")
    ensures WellShaped(AssistantTypeOutcome(reply))
  {
  }

  /** A falsy `assistant` is reported as an invalid response. */
  lemma FalsyAssistantRejected(status: int, j: Json)
    requires Ok(status) && Prop(j, "assistant").Some? && !Truthy(Prop(j, "assistant").value)
    ensures AssistantTypeOutcome(Reply(status, Parsed(j))) == Failure(InvalidAssistantResponse)
  {
  }

  /** A non-ok status makes the generation fail with that status in the message. */
  lemma GenerateStatusReported(status: int, body: Body)
    requires !Ok(status)
    ensures GenerateEmailOutcome(Reply(status, body))
            == Failure("Failed to generate email: " + IntToString(status))
  {
  }

  /**
    Generation succeeds exactly for an ok reply whose JSON has a truthy
    subject and a truthy body, and then returns exactly those two values.
  */
  lemma GenerateSucceedsIff(reply: HttpReply)
    ensures var r := GenerateEmailOutcome(reply);
            r.success <==> && reply.Reply? && Ok(reply.status) && reply.body.Parsed?
                           && Prop(reply.body.json, "subject").Some?
                           && Truthy(Prop(reply.body.json, "subject").value)
                           && Truthy(Prop(reply.body.json, "body").value)
    ensures var r := GenerateEmailOutcome(reply);
            r.success ==> r.data == Some(EmailText(Prop(reply.body.json, "subject").value,
                                                   Prop(reply.body.json, "body").value))
    ensures WellShaped(GenerateEmailOutcome(reply))
  {
  }

  /** An empty or missing subject or body is reported as an invalid response. */
  lemma EmptyTextRejected(status: int, fields: map<string, Json>)
    requires Ok(status)
    requires "subject" !in fields || fields["subject"] == JStr("")
             || "body" !in fields || fields["body"] == JStr("")
    ensures GenerateEmailOutcome(Reply(status, Parsed(JObj(fields)))) == Failure(InvalidGenerationResponse)
  {
  }

  // ---------------------------------------------------------------------
  // handleAiGenerate

  /**
    A failed classification is returned with its own message, and nothing
    but the classifier request is made, whatever the generator would reply.
  */
  lemma ClassificationFailurePropagates(prompt: string, routeReply: HttpReply,
                                        generateReply: HttpReply, other: HttpReply)
    requires !AssistantTypeOutcome(routeReply).success
    ensures var (r, sent) := HandleAiGenerate(prompt, routeReply, generateReply);
            && r == AiResult(false, None, AssistantTypeOutcome(routeReply).error)
            && sent == [PostRoute(prompt)]
    ensures HandleAiGenerate(prompt, routeReply, generateReply) == HandleAiGenerate(prompt, routeReply, other)
  {
  }

  /**
    A persona other than the two names stops the pipeline with "Invalid
    assistant type" before any generator request.
  */
  lemma UnknownPersonaStops(prompt: string, routeReply: HttpReply, generateReply: HttpReply)
    requires AssistantTypeOutcome(routeReply).success
    requires !IsPersonaName(AssistantTypeOutcome(routeReply).data.value)
    ensures HandleAiGenerate(prompt, routeReply, generateReply)
            == (Failure(InvalidAssistantType), [PostRoute(prompt)])
  {
  }

  /** A failed generation is returned with its own message, after both requests. */
  lemma GenerationFailurePropagates(prompt: string, routeReply: HttpReply, generateReply: HttpReply)
    requires AssistantTypeOutcome(routeReply).success
    requires IsPersonaName(AssistantTypeOutcome(routeReply).data.value)
    requires !GenerateEmailOutcome(generateReply).success
    ensures var persona := AssistantTypeOutcome(routeReply).data.value.s;
            HandleAiGenerate(prompt, routeReply, generateReply)
            == (AiResult(false, None, GenerateEmailOutcome(generateReply).error),
                [PostRoute(prompt), PostGenerate(persona, prompt)])
  {
    var persona := AssistantTypeOutcome(routeReply).data.value.s;
    assert [PostRoute(prompt)] + [PostGenerate(persona, prompt)] == [PostRoute(prompt), PostGenerate(persona, prompt)];
  }

  /**
    The pipeline succeeds exactly when classification succeeds with one of
    the two persona names and generation succeeds; the draft then has the
    persona of the first reply and the text of the second, after exactly
    two requests carrying the same prompt, the classifier's first.
  */
  lemma PipelineSucceedsIff(prompt: string, routeReply: HttpReply, generateReply: HttpReply)
    ensures var r := HandleAiGenerate(prompt, routeReply, generateReply).0;
            var a := AssistantTypeOutcome(routeReply);
            r.success <==> a.success && IsPersonaName(a.data.value) && GenerateEmailOutcome(generateReply).success
    ensures var (r, sent) := HandleAiGenerate(prompt, routeReply, generateReply);
            r.success ==>
              var persona := AssistantTypeOutcome(routeReply).data.value;
              var email := GenerateEmailOutcome(generateReply).data.value;
              && persona.JStr? && (persona.s == "sales" || persona.s == "followup")
              && r.data == Some(AiDraft(persona.s, email.subject, email.body))
              && sent == [PostRoute(prompt), PostGenerate(persona.s, prompt)]
    ensures WellShaped(HandleAiGenerate(prompt, routeReply, generateReply).0)
  {
    AssistantTypeSucceedsIff(routeReply);
    GenerateSucceedsIff(generateReply);
    var a := AssistantTypeOutcome(routeReply);
    if a.success && IsPersonaName(a.data.value) {
      var persona := a.data.value.s;
      assert [PostRoute(prompt)] + [PostGenerate(persona, prompt)] == [PostRoute(prompt), PostGenerate(persona, prompt)];
    }
  }
}
