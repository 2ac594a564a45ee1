/**
  `EmailService.sendEmail` and `EmailService.fetchEmails`: validate, issue
  the request, check the status, shape-check the parsed body with the zod
  response schemas and normalise what they let through. Each failure is
  caught and turned into a `success: false` result.

  The text of a ZodError is rendered by zod from its issues; it is passed
  in as `schemaMessage`. The current time (`new Date().toISOString()`) is
  passed in as `now`.
*/
module EmailGateway {
  import opened Wrappers
  import opened Json
  import opened Text
  import opened Compose
  import opened ComposeValidator
  import opened Http

  /** Field `k` of a parsed object; a missing key reads as `undefined`. */
  function Member(o: map<string, Json>, k: string): Json
  {
    if k in o then o[k] else JUndefined
  }

  /** `z.string()`: it accepts a value exactly when it is a string, and yields that string. */
  function StringValue(j: Json): (r: Option<string>)
    ensures r.Some? <==> j.JStr?
    ensures forall s :: r == Some(s) <==> j == JStr(s)
  {
    if j.JStr? then Some(j.s) else None
  }

  // ---------------------------------------------------------------------
  // The response of POST /emails (EmailResponseSchema)

  /** The normalised email of a send response: every field is a string. */
  datatype SentEmail = SentEmail(
    id: string, to: string, cc: string, bcc: string,
    subject: string, body: string, createdAt: string)

  /** `id`: a string or a number, passed through `String(val)`. */
  function SentId(j: Json): Option<string>
  {
    match j
    case JStr(s) => Some(s)
    case JNum(n) => Some(IntToString(n))
    case _ => None
  }

  /** `cc`, `bcc`: a string, `null` or `undefined`, passed through `val || ''`. */
  function SentCopyList(j: Json): Option<string>
  {
    match j
    case JStr(s) => Some(s)
    case JNull => Some("")
    case JUndefined => Some("")
    case _ => None
  }

  /**
    `created_at`: a string, a number or `undefined`; a truthy value becomes
    `String(val)`, a falsy one the current time.
  */
  function SentCreatedAt(j: Json, now: string): Option<string>
  {
    match j
    case JStr(s) => Some(if s != "" then s else now)
    case JNum(n) => Some(if n != 0 then IntToString(n) else now)
    case JUndefined => Some(now)
    case _ => None
  }

  /** The `data` object of a send response, after the schema's transforms. */
  function ParseSentEmail(j: Json, now: string): Option<SentEmail>
  {
    if !j.JObj? then None
    else
      var o := j.fields;
      var id := SentId(Member(o, "id"));
      var to := StringValue(Member(o, "to"));
      var cc := SentCopyList(Member(o, "cc"));
      var bcc := SentCopyList(Member(o, "bcc"));
      var subject := StringValue(Member(o, "subject"));
      var body := StringValue(Member(o, "body"));
      var createdAt := SentCreatedAt(Member(o, "created_at"), now);
      if id.Some? && to.Some? && cc.Some? && bcc.Some? && subject.Some? && body.Some? && createdAt.Some?
      then Some(SentEmail(id.value, to.value, cc.value, bcc.value, subject.value, body.value, createdAt.value))
      else None
  }

  /** `EmailResponseSchema.parse(json)`: the `success` flag and the email. */
  function ParseSendResponse(j: Json, now: string): Option<(bool, SentEmail)>
  {
    if !j.JObj? then None
    else
      var success := Member(j.fields, "success");
      var data := ParseSentEmail(Member(j.fields, "data"), now);
      if success.JBool? && data.Some? then Some((success.b, data.value)) else None
  }

  /** The JSON a backend sends for a stored email. */
  function SentEmailJson(e: SentEmail): Json
  {
    JObj(map["id" := JStr(e.id), "to" := JStr(e.to), "cc" := JStr(e.cc), "bcc" := JStr(e.bcc),
             "subject" := JStr(e.subject), "body" := JStr(e.body), "created_at" := JStr(e.createdAt)])
  }

  /** The JSON of a whole send response. */
  function SendResponseJson(success: bool, e: SentEmail): Json
  {
    JObj(map["success" := JBool(success), "data" := SentEmailJson(e)])
  }

  /**
    What the transforms do to an accepted response: the id is `String(id)`,
    a falsy cc or bcc is `''`, and a truthy created_at is its string form
    while a falsy or missing one is the current time.
  */
  lemma SentNormalisation(j: Json, now: string, e: SentEmail)
    requires j.JObj? && ParseSentEmail(j, now) == Some(e)
    ensures var id := Member(j.fields, "id");
            (id.JStr? ==> e.id == id.s) && (id.JNum? ==> e.id == IntToString(id.n))
    ensures var cc := Member(j.fields, "cc");
            (cc.JStr? ==> e.cc == cc.s) && (!Truthy(cc) ==> e.cc == "")
    ensures var bcc := Member(j.fields, "bcc");
            (bcc.JStr? ==> e.bcc == bcc.s) && (!Truthy(bcc) ==> e.bcc == "")
    ensures var c := Member(j.fields, "created_at");
            && (c.JStr? && c.s != "" ==> e.createdAt == c.s)
            && (c.JNum? && c.n != 0 ==> e.createdAt == IntToString(c.n))
            && (!Truthy(c) ==> e.createdAt == now)
    ensures StringValue(Member(j.fields, "to")) == Some(e.to)
    ensures StringValue(Member(j.fields, "subject")) == Some(e.subject)
    ensures StringValue(Member(j.fields, "body")) == Some(e.body)
  {
  }

  /** A stored email with a non-empty creation time survives the schema unchanged. */
  lemma SendResponseRoundTrip(success: bool, e: SentEmail, now: string)
    requires e.createdAt != ""
    ensures ParseSendResponse(SendResponseJson(success, e), now) == Some((success, e))
  {
    var o := SentEmailJson(e).fields;
    assert Member(o, "id") == JStr(e.id);
    assert Member(o, "to") == JStr(e.to);
    assert Member(o, "cc") == JStr(e.cc);
    assert Member(o, "bcc") == JStr(e.bcc);
    assert Member(o, "subject") == JStr(e.subject);
    assert Member(o, "body") == JStr(e.body);
    assert Member(o, "created_at") == JStr(e.createdAt);
  }

  /**
    The normalisation is idempotent: what the schema returns, sent again,
    is returned again unchanged (the current time is never empty).
  */
  lemma SendResponseNormalForm(j: Json, now: string, later: string, success: bool, e: SentEmail)
    requires now != ""
    requires ParseSendResponse(j, now) == Some((success, e))
    ensures ParseSendResponse(SendResponseJson(success, e), later) == Some((success, e))
  {
    var data := Member(j.fields, "data");
    assert ParseSentEmail(data, now) == Some(e);
    assert e.createdAt != "";
    SendResponseRoundTrip(success, e, later);
  }

  // ---------------------------------------------------------------------
  // The response of GET /emails (EmailListResponseSchema)

  /**
    One email of a listing as the schema lets it through: id, cc, bcc and
    created_at keep their JSON values, which the schema only type-checks.
  */
  datatype ListedEmail = ListedEmail(
    id: Json, to: string, cc: Json, bcc: Json,
    subject: string, body: string, createdAt: Json)

  /** `z.string().nullable().optional()`. */
  predicate IsNullableText(j: Json)
  {
    j.JStr? || j.JNull? || j.JUndefined?
  }

  /** The values the list schema accepts for one email. */
  predicate WellFormedListed(e: ListedEmail, zodEmail: string -> bool)
  {
    && (e.id.JStr? || e.id.JNum?)
    && zodEmail(e.to)
    && IsNullableText(e.cc)
    && IsNullableText(e.bcc)
    && (e.createdAt.JStr? || e.createdAt.JNum?)
  }

  /** One element of `data`, checked against the item schema. */
  function ParseListedEmail(j: Json, zodEmail: string -> bool): (r: Option<ListedEmail>)
    ensures r.Some? ==> WellFormedListed(r.value, zodEmail)
  {
    if !j.JObj? then None
    else
      var o := j.fields;
      var id := Member(o, "id");
      var to := Member(o, "to");
      var cc := Member(o, "cc");
      var bcc := Member(o, "bcc");
      var subject := Member(o, "subject");
      var body := Member(o, "body");
      var createdAt := Member(o, "created_at");
      if && (id.JStr? || id.JNum?)
         && to.JStr? && zodEmail(to.s)
         && IsNullableText(cc) && IsNullableText(bcc)
         && subject.JStr? && body.JStr?
         && (createdAt.JStr? || createdAt.JNum?)
      then Some(ListedEmail(id, to.s, cc, bcc, subject.s, body.s, createdAt))
      else None
  }

  /**
    `z.array(item)`: all elements pass, and the list keeps their order, or
    the whole array is refused.
  */
  function ParseListedEmails(items: seq<Json>, zodEmail: string -> bool): (r: Option<seq<ListedEmail>>)
    ensures r.Some? ==> |r.value| == |items|
    ensures r.Some? ==> forall i :: 0 <= i < |items| ==> ParseListedEmail(items[i], zodEmail) == Some(r.value[i])
    ensures r.None? <==> exists i :: 0 <= i < |items| && ParseListedEmail(items[i], zodEmail).None?
    decreases |items|
  {
    if items == [] then Some([])
    else
      var head := ParseListedEmail(items[0], zodEmail);
      var tail := ParseListedEmails(items[1..], zodEmail);
      if head.None? then None
      else if tail.None? then
        var i :| 0 <= i < |items[1..]| && ParseListedEmail(items[1..][i], zodEmail).None?;
        assert ParseListedEmail(items[i + 1], zodEmail).None?;
        None
      else
        var r := [head.value] + tail.value;
        assert forall i :: 1 <= i < |items| ==> items[i] == items[1..][i - 1];
        Some(r)
  }

  /** `EmailListResponseSchema.parse(json)`: the `success` flag and the list. */
  function ParseEmailList(j: Json, zodEmail: string -> bool): Option<(bool, seq<ListedEmail>)>
  {
    if !j.JObj? then None
    else
      var success := Member(j.fields, "success");
      var data := Member(j.fields, "data");
      if !success.JBool? || !data.JArr? then None
      else
        var emails := ParseListedEmails(data.items, zodEmail);
        if emails.Some? then Some((success.b, emails.value)) else None
  }

  /** The JSON a backend sends for one listed email. */
  function ListedEmailJson(e: ListedEmail): Json
  {
    JObj(map["id" := e.id, "to" := JStr(e.to), "cc" := e.cc, "bcc" := e.bcc,
             "subject" := JStr(e.subject), "body" := JStr(e.body), "created_at" := e.createdAt])
  }

  /** The JSON array of a listing. */
  function ListedEmailsJson(es: seq<ListedEmail>): (r: seq<Json>)
    ensures |r| == |es|
    ensures forall i :: 0 <= i < |es| ==> r[i] == ListedEmailJson(es[i])
  {
    seq(|es|, i requires 0 <= i < |es| => ListedEmailJson(es[i]))
  }

  /** The JSON of a whole listing response. */
  function EmailListJson(success: bool, es: seq<ListedEmail>): Json
  {
    JObj(map["success" := JBool(success), "data" := JArr(ListedEmailsJson(es))])
  }

  /** An email the schema accepts survives it unchanged. */
  lemma ListedEmailRoundTrip(e: ListedEmail, zodEmail: string -> bool)
    requires WellFormedListed(e, zodEmail)
    ensures ParseListedEmail(ListedEmailJson(e), zodEmail) == Some(e)
  {
    var o := ListedEmailJson(e).fields;
    assert Member(o, "id") == e.id;
    assert Member(o, "to") == JStr(e.to);
    assert Member(o, "cc") == e.cc;
    assert Member(o, "bcc") == e.bcc;
    assert Member(o, "subject") == JStr(e.subject);
    assert Member(o, "body") == JStr(e.body);
    assert Member(o, "created_at") == e.createdAt;
  }

  /** A listing of well-formed emails survives the schema unchanged, in order. */
  lemma {:induction false} ListedEmailsRoundTrip(es: seq<ListedEmail>, zodEmail: string -> bool)
    requires forall i :: 0 <= i < |es| ==> WellFormedListed(es[i], zodEmail)
    ensures ParseListedEmails(ListedEmailsJson(es), zodEmail) == Some(es)
    decreases |es|
  {
    if es != [] {
      var items := ListedEmailsJson(es);
      ListedEmailRoundTrip(es[0], zodEmail);
      assert items[1..] == ListedEmailsJson(es[1..]);
      ListedEmailsRoundTrip(es[1..], zodEmail);
      assert es == [es[0]] + es[1..];
    }
  }

  /** The whole listing response round-trips. */
  lemma EmailListRoundTrip(success: bool, es: seq<ListedEmail>, zodEmail: string -> bool)
    requires forall i :: 0 <= i < |es| ==> WellFormedListed(es[i], zodEmail)
    ensures ParseEmailList(EmailListJson(success, es), zodEmail) == Some((success, es))
  {
    ListedEmailsRoundTrip(es, zodEmail);
    var o := EmailListJson(success, es).fields;
    assert Member(o, "success") == JBool(success);
    assert Member(o, "data") == JArr(ListedEmailsJson(es));
  }

  // ---------------------------------------------------------------------
  // sendEmail

  /** The object `sendEmail` resolves to. */
  datatype SendResult = SendResult(
    success: bool,
    data: Option<SentEmail>,
    error: Option<string>,
    validationErrors: Option<map<ErrKey, string>>)

  const SendFallback := "Failed to send email"
  const ValidationFailed := "Validation failed"

  /** A caught error: `{success: false, data: null, error}`. */
  function SendFailure(message: string): SendResult
  {
    SendResult(false, None, Some(message), None)
  }

  /** What `sendEmail` makes of the reply to its POST. */
  function SendReplyOutcome(reply: HttpReply, now: string, schemaMessage: string): SendResult
  {
    match reply
    case Rejected(m) => SendFailure(MessageOr(m, SendFallback))
    case Reply(status, body) =>
      if !Ok(status) then SendFailure("Failed to send email: " + IntToString(status))
      else
        match body
        case Malformed(m) => SendFailure(MessageOr(m, SendFallback))
        case Parsed(j) =>
          match ParseSendResponse(j, now)
          case None => SendFailure(MessageOr(schemaMessage, SendFallback))
          case Some(p) =>
            if !p.0 then SendFailure(SendFallback)
            else SendResult(true, Some(p.1), None, None)
  }

  /**
    `sendEmail(d)`: its result, and the requests it issues, for the reply
    the backend would give to the POST.
  */
  function SendEmailOutcome(d: Draft, zodEmail: string -> bool, reply: HttpReply, now: string,
                            schemaMessage: string): (SendResult, seq<Request>)
  {
    var v := Verdict(d, zodEmail);
    if !v.isValid then (SendResult(false, None, Some(ValidationFailed), Some(v.errors)), [])
    else (SendReplyOutcome(reply, now, schemaMessage), [PostEmail(d)])
  }

  /**
    An invalid draft is refused with the validation map and issues no
    request, whatever the backend would have answered.
  */
  lemma InvalidDraftNotSent(d: Draft, zodEmail: string -> bool, reply: HttpReply, other: HttpReply,
                            now: string, schemaMessage: string)
    requires !Verdict(d, zodEmail).isValid
    ensures var (r, sent) := SendEmailOutcome(d, zodEmail, reply, now, schemaMessage);
            && sent == []
            && r == SendResult(false, None, Some(ValidationFailed), Some(Verdict(d, zodEmail).errors))
            && r.validationErrors.value != map[]
    ensures SendEmailOutcome(d, zodEmail, reply, now, schemaMessage)
            == SendEmailOutcome(d, zodEmail, other, now, schemaMessage)
  {
  }

  /** A valid draft is posted exactly once, as it is. */
  lemma ValidDraftPostedOnce(d: Draft, zodEmail: string -> bool, reply: HttpReply, now: string,
                             schemaMessage: string)
    requires Verdict(d, zodEmail).isValid
    ensures SendEmailOutcome(d, zodEmail, reply, now, schemaMessage).1 == [PostEmail(d)]
    ensures SendEmailOutcome(d, zodEmail, reply, now, schemaMessage).0.validationErrors == None
  {
  }

  /**
    A send succeeds exactly when the draft is valid and the backend answers
    with an ok status and a body the schema accepts with `success: true`;
    the record returned is the normalised one.
  */
  lemma SendSucceedsIff(d: Draft, zodEmail: string -> bool, reply: HttpReply, now: string,
                        schemaMessage: string)
    ensures var r := SendEmailOutcome(d, zodEmail, reply, now, schemaMessage).0;
            r.success <==> && Verdict(d, zodEmail).isValid
                           && reply.Reply? && Ok(reply.status) && reply.body.Parsed?
                           && ParseSendResponse(reply.body.json, now).Some?
                           && ParseSendResponse(reply.body.json, now).value.0
    ensures var r := SendEmailOutcome(d, zodEmail, reply, now, schemaMessage).0;
            r.success ==> r.data == Some(ParseSendResponse(reply.body.json, now).value.1)
  {
  }

  /**
    Every result is one of two shapes: a success with data and no error, or
    a failure with no data and a non-empty error message.
  */
  lemma SendResultShape(d: Draft, zodEmail: string -> bool, reply: HttpReply, now: string,
                        schemaMessage: string)
    ensures var r := SendEmailOutcome(d, zodEmail, reply, now, schemaMessage).0;
            && (r.success <==> r.data.Some?)
            && (r.success <==> r.error.None?)
            && (r.error.Some? ==> r.error.value != "")
  {
  }

  /** A non-ok status is reported with its number. */
  lemma SendStatusReported(d: Draft, zodEmail: string -> bool, status: int, body: Body, now: string,
                           schemaMessage: string)
    requires Verdict(d, zodEmail).isValid && !Ok(status)
    ensures SendEmailOutcome(d, zodEmail, Reply(status, body), now, schemaMessage).0
            == SendFailure("Failed to send email: " + IntToString(status))
  {
  }

  // ---------------------------------------------------------------------
  // fetchEmails

  /** The object `fetchEmails` resolves to. */
  datatype FetchResult = FetchResult(success: bool, data: seq<ListedEmail>, error: Option<string>)

  const FetchFallback := "Failed to load emails"
  const FetchRefused := "Failed to fetch emails from server"

  /** A caught error: `{success: false, data: [], error}`. */
  function FetchFailure(message: string): FetchResult
  {
    FetchResult(false, [], Some(message))
  }

  /** `fetchEmails()` for the reply the backend would give to the GET. */
  function FetchEmailsOutcome(reply: HttpReply, zodEmail: string -> bool, schemaMessage: string): FetchResult
  {
    match reply
    case Rejected(m) => FetchFailure(MessageOr(m, FetchFallback))
    case Reply(status, body) =>
      if !Ok(status) then FetchFailure("HTTP error! status: " + IntToString(status))
      else
        match body
        case Malformed(m) => FetchFailure(MessageOr(m, FetchFallback))
        case Parsed(j) =>
          match ParseEmailList(j, zodEmail)
          case None => FetchFailure(MessageOr(schemaMessage, FetchFallback))
          case Some(p) =>
            if !p.0 then FetchFailure(FetchRefused)
            else FetchResult(true, p.1, None)
  }

  /**
    A listing is all or nothing: it succeeds exactly when the status is ok,
    the body is accepted whole and says `success: true`, and then it holds
    every email of the body in order; every failure has an empty list and a
    non-empty message.
  */
  lemma FetchAllOrNothing(reply: HttpReply, zodEmail: string -> bool, schemaMessage: string)
    ensures var r := FetchEmailsOutcome(reply, zodEmail, schemaMessage);
            r.success <==> && reply.Reply? && Ok(reply.status) && reply.body.Parsed?
                           && ParseEmailList(reply.body.json, zodEmail).Some?
                           && ParseEmailList(reply.body.json, zodEmail).value.0
    ensures var r := FetchEmailsOutcome(reply, zodEmail, schemaMessage);
            r.success ==> r.data == ParseEmailList(reply.body.json, zodEmail).value.1 && r.error == None
    ensures var r := FetchEmailsOutcome(reply, zodEmail, schemaMessage);
            !r.success ==> r.data == [] && r.error.Some? && r.error.value != ""
  {
  }

  /** One email the item schema refuses makes the whole listing fail. */
  lemma OneBadEmailFailsListing(status: int, items: seq<Json>, i: nat, zodEmail: string -> bool,
                                schemaMessage: string)
    requires Ok(status)
    requires i < |items| && ParseListedEmail(items[i], zodEmail).None?
    ensures var body := JObj(map["success" := JBool(true), "data" := JArr(items)]);
            FetchEmailsOutcome(Reply(status, Parsed(body)), zodEmail, schemaMessage)
            == FetchFailure(MessageOr(schemaMessage, FetchFallback))
  {
    var body := JObj(map["success" := JBool(true), "data" := JArr(items)]);
    assert Member(body.fields, "success") == JBool(true);
    assert Member(body.fields, "data") == JArr(items);
  }

  /** A backend listing of well-formed emails is returned exactly. */
  lemma FetchReturnsListing(status: int, es: seq<ListedEmail>, zodEmail: string -> bool,
                            schemaMessage: string)
    requires Ok(status)
    requires forall i :: 0 <= i < |es| ==> WellFormedListed(es[i], zodEmail)
    ensures FetchEmailsOutcome(Reply(status, Parsed(EmailListJson(true, es))), zodEmail, schemaMessage)
            == FetchResult(true, es, None)
  {
    EmailListRoundTrip(true, es, zodEmail);
  }

  // ---------------------------------------------------------------------
  // The service object

  /**
    The email service. Its base URL is fixed at construction and is not
    modelled; `requests` records the requests it has issued.
  */
  class EmailService {
    ghost var requests: seq<Request>

    constructor()
      ensures requests == []
    {
      requests := [];
    }

    /** `sendEmail(composeData)`, given the reply the backend would give. */
    method SendEmail(d: Draft, zodEmail: string -> bool, reply: HttpReply, now: string,
                     schemaMessage: string) returns (r: SendResult)
      modifies this
      ensures r == SendEmailOutcome(d, zodEmail, reply, now, schemaMessage).0
      ensures requests == old(requests) + SendEmailOutcome(d, zodEmail, reply, now, schemaMessage).1
    {
      var validation := ValidateComposeData(d, zodEmail);
      if !validation.isValid {
        return SendResult(false, None, Some(ValidationFailed), Some(validation.errors));
      }
      requests := requests + [PostEmail(d)];
      if reply.Rejected? {
        return SendFailure(MessageOr(reply.message, SendFallback));
      }
      if !Ok(reply.status) {
        return SendFailure("Failed to send email: " + IntToString(reply.status));
      }
      if reply.body.Malformed? {
        return SendFailure(MessageOr(reply.body.message, SendFallback));
      }
      var validated := ParseSendResponse(reply.body.json, now);
      if validated.None? {
        return SendFailure(MessageOr(schemaMessage, SendFallback));
      }
      if !validated.value.0 {
        return SendFailure(SendFallback);
      }
      return SendResult(true, Some(validated.value.1), None, None);
    }

    /** `fetchEmails()`, given the reply the backend would give. */
    method FetchEmails(zodEmail: string -> bool, reply: HttpReply, schemaMessage: string)
      returns (r: FetchResult)
      modifies this
      ensures r == FetchEmailsOutcome(reply, zodEmail, schemaMessage)
      ensures requests == old(requests) + [GetEmails]
    {
      requests := requests + [GetEmails];
      if reply.Rejected? {
        return FetchFailure(MessageOr(reply.message, FetchFallback));
      }
      if !Ok(reply.status) {
        return FetchFailure("HTTP error! status: " + IntToString(reply.status));
      }
      if reply.body.Malformed? {
        return FetchFailure(MessageOr(reply.body.message, FetchFallback));
      }
      var validated := ParseEmailList(reply.body.json, zodEmail);
      if validated.None? {
        return FetchFailure(MessageOr(schemaMessage, FetchFallback));
      }
      if !validated.value.0 {
        return FetchFailure(FetchRefused);
      }
      return FetchResult(true, validated.value.1, None);
    }
  }
}
