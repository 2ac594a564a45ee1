/**
  The inbox page (`Home`): its state, the list it loads, the compose form
  it validates and posts, the AI drafting it runs, and the email it shows.
  Each handler is one sequential step over the page's state, given the
  replies its requests would receive; `requests` records the requests it
  issues. Rendering is not modelled.
*/
module Home {
  import opened Wrappers
  import opened Json
  import opened Text
  import opened Address
  import opened Compose
  import opened Http
  import opened AiService

  const LoadFailed := "Failed to load emails."
  const SendFailed := "Failed to send email. Please try again."

  // ---------------------------------------------------------------------
  // What the handlers read from the replies

  /** Whether `fetchEmails` gets as far as `setEmails`: ok, parsed, and a truthy `success`. */
  predicate ListingAccepted(reply: HttpReply)
  {
    && reply.Reply? && Ok(reply.status) && reply.body.Parsed?
    && Prop(reply.body.json, "success").Some?
    && Truthy(Prop(reply.body.json, "success").value)
  }

  /** The `data` an accepted listing stores. */
  function ListingData(reply: HttpReply): Json
    requires ListingAccepted(reply)
  {
    Prop(reply.body.json, "data").value
  }

  /**
    `routeAssistant.assistant`, when reading it does not throw: the status
    is not checked, so the body of a failing response is read as well.
  */
  function AssistantRead(reply: HttpReply): Option<Json>
  {
    match reply
    case Rejected(_) => None
    case Reply(_, body) =>
      match body
      case Malformed(_) => None
      case Parsed(j) => Prop(j, "assistant")
  }

  /** `email.subject` and `email.body`, when reading them does not throw. */
  function EmailRead(reply: HttpReply): Option<(Json, Json)>
  {
    match reply
    case Rejected(_) => None
    case Reply(_, body) =>
      match body
      case Malformed(_) => None
      case Parsed(j) =>
        match Prop(j, "subject")
        case None => None
        case Some(subject) => Some((subject, Prop(j, "body").value))
  }

  /** The generated text can be stored in the string-typed form. */
  predicate EmailUsable(reply: HttpReply)
  {
    EmailRead(reply).Some? ==> TextOrFalsy(EmailRead(reply).value.0) && TextOrFalsy(EmailRead(reply).value.1)
  }

  /** The draft after `handleAiGenerate`. */
  function AiCompose(c: Draft, routeReply: HttpReply, generateReply: HttpReply): Draft
    requires EmailUsable(generateReply)
  {
    var a := AssistantRead(routeReply);
    if a.Some? && IsPersonaName(a.value) && EmailRead(generateReply).Some? then
      MergeAiDraft(c, EmailRead(generateReply).value.0, EmailRead(generateReply).value.1)
    else c
  }

  /** The requests `handleAiGenerate` issues. */
  function AiRequests(prompt: string, routeReply: HttpReply): seq<Request>
  {
    var a := AssistantRead(routeReply);
    if a.Some? && IsPersonaName(a.value) then [PostRoute(prompt), PostGenerate(a.value.s, prompt)]
    else [PostRoute(prompt)]
  }

  /** Whether `handleAiGenerate` reports an invalid assistant type. */
  predicate AiPersonaRefused(routeReply: HttpReply)
  {
    AssistantRead(routeReply).Some? && !IsPersonaName(AssistantRead(routeReply).value)
  }

  // ---------------------------------------------------------------------
  // The selected email

  /** What `selectedEmail` evaluates to: an email, `null`, or a thrown TypeError. */
  datatype Selection = NoSelection | Selected(email: Json) | ReadFailure

  /** `e.id === selectedId`, or None when reading `e.id` throws. */
  function IdMatches(e: Json, selectedId: Json): Option<bool>
  {
    match Prop(e, "id")
    case None => None
    case Some(id) => Some(StrictEq(id, selectedId))
  }

  /** `emails.find((e) => e.id === selectedId) ?? null`. */
  function FindById(emails: seq<Json>, selectedId: Json): (r: Selection)
    ensures r.Selected? ==>
              exists i :: && 0 <= i < |emails| && emails[i] == r.email
                          && IdMatches(emails[i], selectedId) == Some(true)
                          && forall k :: 0 <= k < i ==> IdMatches(emails[k], selectedId) == Some(false)
    ensures r == NoSelection <==> forall k :: 0 <= k < |emails| ==> IdMatches(emails[k], selectedId) == Some(false)
    ensures r == ReadFailure ==>
              exists i :: && 0 <= i < |emails| && IdMatches(emails[i], selectedId).None?
                          && forall k :: 0 <= k < i ==> IdMatches(emails[k], selectedId) == Some(false)
    decreases |emails|
  {
    if emails == [] then NoSelection
    else
      match IdMatches(emails[0], selectedId)
      case None => ReadFailure
      case Some(true) => Selected(emails[0])
      case Some(false) =>
        var r := FindById(emails[1..], selectedId);
        assert forall k :: 1 <= k < |emails| ==> emails[k] == emails[1..][k - 1];
        if r.Selected? then
          var i :| && 0 <= i < |emails[1..]| && emails[1..][i] == r.email
                   && IdMatches(emails[1..][i], selectedId) == Some(true)
                   && forall k :: 0 <= k < i ==> IdMatches(emails[1..][k], selectedId) == Some(false);
          assert forall k :: 0 <= k < i + 1 ==> IdMatches(emails[k], selectedId) == Some(false) by {
            forall k | 0 <= k < i + 1 ensures IdMatches(emails[k], selectedId) == Some(false) {
              if k > 0 { assert emails[k] == emails[1..][k - 1]; }
            }
          }
          r
        else if r == ReadFailure then
          var i :| && 0 <= i < |emails[1..]| && IdMatches(emails[1..][i], selectedId).None?
                   && forall k :: 0 <= k < i ==> IdMatches(emails[1..][k], selectedId) == Some(false);
          assert forall k :: 0 <= k < i + 1 ==> IdMatches(emails[k], selectedId) == Some(false) by {
            forall k | 0 <= k < i + 1 ensures IdMatches(emails[k], selectedId) == Some(false) {
              if k > 0 { assert emails[k] == emails[1..][k - 1]; }
            }
          }
          r
        else r
  }

  /** `selectedEmail`: `null` for an empty list, else the first email with the selected id. */
  function SelectedEmail(emails: seq<Json>, selectedId: Json): (r: Selection)
    ensures emails == [] ==> r == NoSelection
    ensures emails != [] ==> r == FindById(emails, selectedId)
  {
    if |emails| == 0 then NoSelection else FindById(emails, selectedId)
  }

  /** The first email carrying the selected id is the one shown, whatever follows it. */
  lemma FirstMatchShown(before: seq<Json>, e: Json, after: seq<Json>, selectedId: Json)
    requires forall k :: 0 <= k < |before| ==> IdMatches(before[k], selectedId) == Some(false)
    requires IdMatches(e, selectedId) == Some(true)
    ensures SelectedEmail(before + [e] + after, selectedId) == Selected(e)
  {
    FirstMatchFound(before, e, after, selectedId);
  }

  lemma {:induction false} FirstMatchFound(before: seq<Json>, e: Json, after: seq<Json>, selectedId: Json)
    requires forall k :: 0 <= k < |before| ==> IdMatches(before[k], selectedId) == Some(false)
    requires IdMatches(e, selectedId) == Some(true)
    ensures FindById(before + [e] + after, selectedId) == Selected(e)
    decreases |before|
  {
    var emails := before + [e] + after;
    if before == [] {
      assert emails[0] == e;
    } else {
      assert emails[0] == before[0];
      assert emails[1..] == before[1..] + [e] + after;
      assert forall k :: 0 <= k < |before[1..]| ==> before[1..][k] == before[k + 1];
      FirstMatchFound(before[1..], e, after, selectedId);
    }
  }

  // ---------------------------------------------------------------------
  // handleSend's form check

  /** The error entries of the fields in `fs`. */
  function FormErrorsOver(d: Draft, fs: set<Field>): map<Field, string>
  {
    map f | f in fs && FormRejects(d, f) :: FormMessage(f)
  }

  /** One of `handleSend`'s checks: the entry for `f` is added when `f` is rejected. */
  method CheckField(d: Draft, f: Field, fs: set<Field>, errors: map<Field, string>) returns (r: map<Field, string>)
    requires errors == FormErrorsOver(d, fs)
    ensures r == FormErrorsOver(d, fs + {f})
  {
    r := errors;
    if FormRejects(d, f) {
      r := r[f := FormMessage(f)];
      RejectedAdded(d, f, fs);
    } else {
      AcceptedSkipped(d, f, fs);
    }
  }

  lemma RejectedAdded(d: Draft, f: Field, fs: set<Field>)
    requires FormRejects(d, f)
    ensures FormErrorsOver(d, fs + {f}) == FormErrorsOver(d, fs)[f := FormMessage(f)]
  {
    var a, b := FormErrorsOver(d, fs + {f}), FormErrorsOver(d, fs)[f := FormMessage(f)];
    forall g ensures g in a <==> g in b {
    }
  }

  lemma AcceptedSkipped(d: Draft, f: Field, fs: set<Field>)
    requires !FormRejects(d, f)
    ensures FormErrorsOver(d, fs + {f}) == FormErrorsOver(d, fs)
  {
    var a, b := FormErrorsOver(d, fs + {f}), FormErrorsOver(d, fs);
    forall g ensures g in a <==> g in b {
    }
  }

  /** `handleSend`'s `errors` object, built field by field. */
  method CollectFormErrors(d: Draft) returns (errors: map<Field, string>)
    ensures errors == FormErrors(d)
  {
    errors := map[];
    errors := CheckField(d, To, {}, errors);
    errors := CheckField(d, Cc, {To}, errors);
    errors := CheckField(d, Bcc, {To, Cc}, errors);
    errors := CheckField(d, Subject, {To, Cc, Bcc}, errors);
    errors := CheckField(d, Body, {To, Cc, Bcc, Subject}, errors);
    assert {To, Cc, Bcc, Subject} + {Body} == AllFields;
  }

  // ---------------------------------------------------------------------
  // The page

  class HomePage {
    var emails: Json
    var loading: bool
    var error: Option<string>
    var validationErrors: FieldErrors
    var selectedId: Json
    var composeOpen: bool
    var aiPromptOpen: bool
    var isGenerating: bool
    var aiPrompt: string
    var compose: Draft
    ghost var requests: seq<Request>

    /** The state of a freshly mounted page. */
    constructor()
      ensures emails == JArr([]) && loading && error == None && validationErrors == map[]
      ensures selectedId == JNull && !composeOpen && !aiPromptOpen && !isGenerating
      ensures aiPrompt == "" && compose == EmptyDraft && requests == []
    {
      emails := JArr([]);
      loading := true;
      error := None;
      validationErrors := map[];
      selectedId := JNull;
      composeOpen := false;
      aiPromptOpen := false;
      isGenerating := false;
      aiPrompt := "";
      compose := EmptyDraft;
      requests := [];
    }

    /**
      `fetchEmails()`: the list is replaced only by an accepted listing;
      any failure keeps it and sets the load error; loading always ends.
    */
    method FetchEmails(reply: HttpReply)
      modifies this
      ensures !loading
      ensures ListingAccepted(reply) ==> emails == ListingData(reply) && error == None
      ensures !ListingAccepted(reply) ==> emails == old(emails) && error == Some(LoadFailed)
      ensures requests == old(requests) + [GetEmails]
      ensures validationErrors == old(validationErrors) && selectedId == old(selectedId)
      ensures composeOpen == old(composeOpen) && aiPromptOpen == old(aiPromptOpen)
      ensures isGenerating == old(isGenerating) && aiPrompt == old(aiPrompt) && compose == old(compose)
    {
      loading := true;
      error := None;
      requests := requests + [GetEmails];
      if ListingAccepted(reply) {
        emails := ListingData(reply);
      } else {
        error := Some(LoadFailed);
      }
      loading := false;
    }

    /**
      `handleSend()`: with any form error the errors are shown and nothing
      is sent; otherwise the draft is posted, and on an ok status the form
      is reset and closed and the list reloaded, while a failing POST sets
      the send error and keeps the draft.
    */
    method HandleSend(postReply: HttpReply, listReply: HttpReply)
      modifies this
      ensures FormErrors(old(compose)) != map[] ==>
                && validationErrors == Shown(FormErrors(old(compose)))
                && requests == old(requests)
                && compose == old(compose) && error == old(error) && emails == old(emails)
                && loading == old(loading) && composeOpen == old(composeOpen)
      ensures FormErrors(old(compose)) == map[] ==> validationErrors == map[]
      ensures FormErrors(old(compose)) == map[] && postReply.Reply? && Ok(postReply.status) ==>
                && compose == EmptyDraft && !composeOpen && !loading
                && requests == old(requests) + [PostEmail(old(compose)), GetEmails]
                && (ListingAccepted(listReply) ==> emails == ListingData(listReply) && error == None)
                && (!ListingAccepted(listReply) ==> emails == old(emails) && error == Some(LoadFailed))
      ensures FormErrors(old(compose)) == map[] && !(postReply.Reply? && Ok(postReply.status)) ==>
                && compose == old(compose) && composeOpen == old(composeOpen)
                && error == Some(SendFailed) && emails == old(emails) && loading == old(loading)
                && requests == old(requests) + [PostEmail(old(compose))]
      ensures selectedId == old(selectedId) && aiPromptOpen == old(aiPromptOpen)
      ensures isGenerating == old(isGenerating) && aiPrompt == old(aiPrompt)
    {
      validationErrors := map[];
      var errors := CollectFormErrors(compose);
      if |errors| > 0 {
        validationErrors := Shown(errors);
        return;
      }
      assert errors == map[];
      requests := requests + [PostEmail(compose)];
      if postReply.Reply? && Ok(postReply.status) {
        compose := EmptyDraft;
        FetchEmails(listReply);
        composeOpen := false;
      } else {
        error := Some(SendFailed);
      }
    }

    /**
      `handleAiGenerate()`: the persona read from the route decides whether
      the generator is asked and its text merged in, or the invalid-type
      error is set; a read that throws ends the step quietly. On every path
      the step ends with generation off, the prompt dialog closed and the
      prompt cleared.
    */
    method HandleAiGenerate(routeReply: HttpReply, generateReply: HttpReply)
      requires EmailUsable(generateReply)
      modifies this
      ensures !isGenerating && !aiPromptOpen && aiPrompt == ""
      ensures compose == AiCompose(old(compose), routeReply, generateReply)
      ensures requests == old(requests) + AiRequests(old(aiPrompt), routeReply)
      ensures error == if AiPersonaRefused(routeReply) then Some(InvalidAssistantType) else old(error)
      ensures emails == old(emails) && loading == old(loading) && validationErrors == old(validationErrors)
      ensures selectedId == old(selectedId) && composeOpen == old(composeOpen)
    {
      isGenerating := true;
      requests := requests + [PostRoute(aiPrompt)];
      var assistantType := AssistantRead(routeReply);
      if assistantType.Some? {
        if IsPersonaName(assistantType.value) {
          requests := requests + [PostGenerate(assistantType.value.s, aiPrompt)];
          var email := EmailRead(generateReply);
          if email.Some? {
            compose := MergeAiDraft(compose, email.value.0, email.value.1);
          }
        } else {
          error := Some(InvalidAssistantType);
        }
      }
      isGenerating := false;
      aiPromptOpen := false;
      aiPrompt := "";
    }

    /** `handleFieldChange(f, v)` of the compose dialog. */
    method ChangeField(f: Field, v: string)
      modifies this
      ensures (compose, validationErrors) == FieldChange(old(compose), old(validationErrors), f, v)
      ensures emails == old(emails) && loading == old(loading) && error == old(error)
      ensures selectedId == old(selectedId) && composeOpen == old(composeOpen)
      ensures aiPromptOpen == old(aiPromptOpen) && isGenerating == old(isGenerating)
      ensures aiPrompt == old(aiPrompt) && requests == old(requests)
    {
      var r := FieldChange(compose, validationErrors, f, v);
      compose := r.0;
      validationErrors := r.1;
    }

    /** `handleCloseCompose()`: the dialog closes and its inline errors are cleared. */
    method CloseCompose()
      modifies this
      ensures !composeOpen && !isGenerating && validationErrors == map[]
      ensures emails == old(emails) && loading == old(loading) && error == old(error)
      ensures selectedId == old(selectedId) && aiPromptOpen == old(aiPromptOpen)
      ensures aiPrompt == old(aiPrompt) && compose == old(compose) && requests == old(requests)
    {
      composeOpen := false;
      isGenerating := false;
      validationErrors := map[];
    }
  }

  // ---------------------------------------------------------------------
  // The page against the service

  /**
    The page checks no status: a classifier route that fails with 500 is
    read as an invalid assistant type, where the service reports the
    status; neither asks the generator.
  */
  lemma FailedRouteReadDifferently(prompt: string)
    ensures var reply := Reply(500, Parsed(JObj(map["error" := JStr("Internal error")])));
            && AiPersonaRefused(reply)
            && AiRequests(prompt, reply) == [PostRoute(prompt)]
            && HandleAiGenerate(prompt, reply, reply).0.error
               == Some("Failed to get assistant type: " + IntToString(500))
            && HandleAiGenerate(prompt, reply, reply).1 == [PostRoute(prompt)]
  {
    var reply := Reply(500, Parsed(JObj(map["error" := JStr("Internal error")])));
    assert AssistantRead(reply) == Some(JUndefined);
  }

  /**
    When both routes answer ok with a persona and a non-empty subject and
    body, the page merges exactly the text the service returns, and both
    issue the same two requests.
  */
  lemma PageAgreesWithService(c: Draft, prompt: string, routeReply: HttpReply, generateReply: HttpReply)
    requires EmailUsable(generateReply)
    requires HandleAiGenerate(prompt, routeReply, generateReply).0.success
    ensures var draft := HandleAiGenerate(prompt, routeReply, generateReply).0.data.value;
            && AiCompose(c, routeReply, generateReply) == MergeAiDraft(c, draft.subject, draft.body)
            && AiRequests(prompt, routeReply) == HandleAiGenerate(prompt, routeReply, generateReply).1
            && !AiPersonaRefused(routeReply)
  {
    PipelineSucceedsIff(prompt, routeReply, generateReply);
    AssistantTypeSucceedsIff(routeReply);
    GenerateSucceedsIff(generateReply);
  }
}
