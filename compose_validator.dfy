/**
  The email service's `validateComposeData`: the zod schema of a draft,
  the map from schema issues to field errors, and the separate cc/bcc list
  checks that run only once the schema passes. Zod's own email check is a
  library regular expression that is not part of this model; it is passed
  in as the predicate `zodEmail`.
*/
module ComposeValidator {
  import opened Text
  import opened Address
  import opened Compose

  /** A key of the service's error map: a field, or `general`. */
  datatype ErrKey = FieldKey(field: Field) | General

  /** One zod issue: the top-level field it is about and its message. */
  datatype Issue = Issue(path: Field, message: string)

  /** `{isValid, errors}`. */
  datatype Validation = Validation(isValid: bool, errors: map<ErrKey, string>)

  const ToSchemaMessage := "To field must be a valid email address"
  const SubjectSchemaMessage := "Subject is required"
  const BodySchemaMessage := "Body is required"
  const CcListMessage := "CC must contain valid email addresses separated by commas"
  const BccListMessage := "BCC must contain valid email addresses separated by commas"

  /**
    The issues `EmailSchema.parse` reports for a draft, in the order of the
    schema's keys: `to` must pass the email check, `cc` and `bcc` are
    optional strings, `subject` and `body` need at least one character.
  */
  function SchemaIssues(d: Draft, zodEmail: string -> bool): (r: seq<Issue>)
    ensures forall j :: 0 <= j < |r| ==> r[j].path in {To, Subject, Body}
  {
    (if zodEmail(d.to) then [] else [Issue(To, ToSchemaMessage)])
    + (if |d.subject| >= 1 then [] else [Issue(Subject, SubjectSchemaMessage)])
    + (if |d.body| >= 1 then [] else [Issue(Body, BodySchemaMessage)])
  }

  /** `errors[issue.path[0]] = issue.message` for each issue in turn. */
  function IssueMap(issues: seq<Issue>): map<ErrKey, string>
    decreases |issues|
  {
    if issues == [] then map[]
    else
      var last := issues[|issues| - 1];
      IssueMap(issues[..|issues| - 1])[FieldKey(last.path) := last.message]
  }

  /**
    The map holds a key for exactly the fields some issue is about, never
    `general`, and under each key the message of the LAST issue about it.
  */
  lemma IssueMapMeaning(issues: seq<Issue>)
    ensures General !in IssueMap(issues)
    ensures forall f :: FieldKey(f) in IssueMap(issues)
                        <==> exists j :: 0 <= j < |issues| && issues[j].path == f
    ensures forall j :: 0 <= j < |issues|
                        && (forall j' :: j < j' < |issues| ==> issues[j'].path != issues[j].path)
                        ==> IssueMap(issues)[FieldKey(issues[j].path)] == issues[j].message
  {
    IssueMapKeys(issues);
    IssueMapLast(issues);
  }

  /** The keys of the issue map: the fields some issue is about, never `general`. */
  lemma {:induction false} IssueMapKeys(issues: seq<Issue>)
    ensures General !in IssueMap(issues)
    ensures forall f :: FieldKey(f) in IssueMap(issues)
                        <==> exists j :: 0 <= j < |issues| && issues[j].path == f
    decreases |issues|
  {
    if issues != [] {
      var n := |issues| - 1;
      var init := issues[..n];
      IssueMapKeys(init);
      forall f
        ensures FieldKey(f) in IssueMap(issues) <==> exists j :: 0 <= j < |issues| && issues[j].path == f
      {
        if FieldKey(f) in IssueMap(init) {
          var j :| 0 <= j < |init| && init[j].path == f;
          assert issues[j].path == f;
        }
        if exists j :: 0 <= j < |issues| && issues[j].path == f {
          var j :| 0 <= j < |issues| && issues[j].path == f;
          if j < n { assert init[j].path == f; }
        }
      }
    }
  }

  /** Under the key of an issue that no later issue shares: that issue's message. */
  lemma {:induction false} IssueMapLast(issues: seq<Issue>)
    ensures forall j :: 0 <= j < |issues|
                        && (forall j' :: j < j' < |issues| ==> issues[j'].path != issues[j].path)
                        ==> && FieldKey(issues[j].path) in IssueMap(issues)
                            && IssueMap(issues)[FieldKey(issues[j].path)] == issues[j].message
    decreases |issues|
  {
    if issues != [] {
      var n := |issues| - 1;
      var init := issues[..n];
      IssueMapLast(init);
      forall j | 0 <= j < |issues|
                 && (forall j' :: j < j' < |issues| ==> issues[j'].path != issues[j].path)
        ensures FieldKey(issues[j].path) in IssueMap(issues)
        ensures IssueMap(issues)[FieldKey(issues[j].path)] == issues[j].message
      {
        if j < n {
          assert issues[n].path != issues[j].path;
          assert init[j] == issues[j];
          forall j' | j < j' < |init| ensures init[j'].path != init[j].path {
            assert init[j'] == issues[j'];
          }
        }
      }
    }
  }

  /** The `forEach` over the issues. */
  method CollectIssues(issues: seq<Issue>) returns (errors: map<ErrKey, string>)
    ensures errors == IssueMap(issues)
  {
    errors := map[];
    var i := 0;
    while i < |issues|
      invariant 0 <= i <= |issues|
      invariant errors == IssueMap(issues[..i])
    {
      assert issues[..i + 1][..i] == issues[..i];
      errors := errors[FieldKey(issues[i].path) := issues[i].message];
      i := i + 1;
    }
    assert issues[..i] == issues;
  }

  /** The result `validateComposeData` returns for a draft. */
  function Verdict(d: Draft, zodEmail: string -> bool): (r: Validation)
    ensures r.isValid <==> r.errors == map[]
    ensures SchemaIssues(d, zodEmail) != [] ==> r.errors == SchemaErrors(d, zodEmail)
  {
    var issues := SchemaIssues(d, zodEmail);
    if issues != [] then
      SchemaIssuesMap(d, zodEmail);
      var last := issues[|issues| - 1];
      assert FieldKey(last.path) in IssueMap(issues);
      Validation(false, IssueMap(issues))
    else if d.cc != "" && !IsValidAddressList(d.cc) then
      var e := map[General := CcListMessage];
      assert General in e;
      Validation(false, e)
    else if d.bcc != "" && !IsValidAddressList(d.bcc) then
      var e := map[General := BccListMessage];
      assert General in e;
      Validation(false, e)
    else
      Validation(true, map[])
  }

  /**
    `validateComposeData(composeData)`: the schema first, with its issues
    keyed by field; then the cc and then the bcc list under `general`.
  */
  method ValidateComposeData(d: Draft, zodEmail: string -> bool) returns (r: Validation)
    ensures r == Verdict(d, zodEmail)
    ensures r.isValid <==> r.errors == map[]
  {
    var issues := SchemaIssues(d, zodEmail);
    if issues != [] {
      var errors := CollectIssues(issues);
      return Validation(false, errors);
    }
    if d.cc != "" && !IsValidAddressList(d.cc) {
      return Validation(false, map[General := CcListMessage]);
    }
    if d.bcc != "" && !IsValidAddressList(d.bcc) {
      return Validation(false, map[General := BccListMessage]);
    }
    return Validation(true, map[]);
  }

  /**
    The schema errors are keyed by field: `to` exactly when zod's email
    check fails, `subject` and `body` exactly when they are EMPTY (a
    whitespace-only value passes); nothing under cc, bcc or general. Each
    key carries its field's schema message.
  */
  lemma SchemaErrorAt(d: Draft, zodEmail: string -> bool, k: ErrKey)
    ensures var e := IssueMap(SchemaIssues(d, zodEmail));
            k in e <==> || (k == FieldKey(To) && !zodEmail(d.to))
                        || (k == FieldKey(Subject) && d.subject == "")
                        || (k == FieldKey(Body) && d.body == "")
    ensures var e := IssueMap(SchemaIssues(d, zodEmail));
            k in e ==> e[k] == if k == FieldKey(To) then ToSchemaMessage
                               else if k == FieldKey(Subject) then SubjectSchemaMessage
                               else BodySchemaMessage
  {
    SchemaIssuesMap(d, zodEmail);
    SchemaErrorsAt(d, zodEmail, k);
  }

  /** The entries of the written-out map, key by key. */
  lemma SchemaErrorsAt(d: Draft, zodEmail: string -> bool, k: ErrKey)
    ensures var e := SchemaErrors(d, zodEmail);
            k in e <==> || (k == FieldKey(To) && !zodEmail(d.to))
                        || (k == FieldKey(Subject) && d.subject == "")
                        || (k == FieldKey(Body) && d.body == "")
    ensures var e := SchemaErrors(d, zodEmail);
            k in e ==> e[k] == if k == FieldKey(To) then ToSchemaMessage
                               else if k == FieldKey(Subject) then SubjectSchemaMessage
                               else BodySchemaMessage
  {
  }

  /**
    The schema's error map written out: the `to` entry when zod refuses the
    address, then the `subject` and the `body` entries when they are empty.
  */
  function SchemaErrors(d: Draft, zodEmail: string -> bool): map<ErrKey, string>
  {
    var m1: map<ErrKey, string> := if zodEmail(d.to) then map[] else map[FieldKey(To) := ToSchemaMessage];
    var m2 := if d.subject != "" then m1 else m1[FieldKey(Subject) := SubjectSchemaMessage];
    if d.body != "" then m2 else m2[FieldKey(Body) := BodySchemaMessage]
  }

  /** The issue map of the schema's issues is that map. */
  lemma SchemaIssuesMap(d: Draft, zodEmail: string -> bool)
    ensures IssueMap(SchemaIssues(d, zodEmail)) == SchemaErrors(d, zodEmail)
  {
    var a: seq<Issue> := if zodEmail(d.to) then [] else [Issue(To, ToSchemaMessage)];
    var b: seq<Issue> := if |d.subject| >= 1 then [] else [Issue(Subject, SubjectSchemaMessage)];
    var c: seq<Issue> := if |d.body| >= 1 then [] else [Issue(Body, BodySchemaMessage)];
    assert SchemaIssues(d, zodEmail) == a + b + c;
    if a != [] {
      IssueMapSnoc([], a[0]);
      assert [] + [a[0]] == a;
    }
    if b != [] {
      IssueMapSnoc(a, b[0]);
      assert a + [b[0]] == a + b;
    } else {
      assert a + b == a;
    }
    if c != [] {
      IssueMapSnoc(a + b, c[0]);
      assert a + b + [c[0]] == a + b + c;
    } else {
      assert a + b + c == a + b;
    }
  }

  /** One more issue sets its own field's key to its message. */
  lemma IssueMapSnoc(a: seq<Issue>, x: Issue)
    ensures IssueMap(a + [x]) == IssueMap(a)[FieldKey(x.path) := x.message]
  {
    assert (a + [x])[..|a|] == a;
  }

  /** The cc and bcc lists are not looked at while the schema fails. */
  lemma ListsIgnoredOnSchemaFailure(d: Draft, zodEmail: string -> bool, cc: string, bcc: string)
    requires SchemaIssues(d, zodEmail) != []
    ensures Verdict(d.(cc := cc, bcc := bcc), zodEmail) == Verdict(d, zodEmail)
  {
    assert SchemaIssues(d.(cc := cc, bcc := bcc), zodEmail) == SchemaIssues(d, zodEmail);
  }

  /**
    Once the schema passes, a bad cc list is reported exactly as one
    `general` error, and the bcc list is not examined.
  */
  lemma BadCcIsGeneral(d: Draft, zodEmail: string -> bool, bcc: string)
    requires SchemaIssues(d, zodEmail) == []
    requires d.cc != "" && !IsValidAddressList(d.cc)
    ensures Verdict(d, zodEmail) == Validation(false, map[General := CcListMessage])
    ensures Verdict(d.(bcc := bcc), zodEmail) == Verdict(d, zodEmail)
  {
    assert SchemaIssues(d.(bcc := bcc), zodEmail) == [];
  }

  /** A bad bcc list, with a good cc list, is one `general` error. */
  lemma BadBccIsGeneral(d: Draft, zodEmail: string -> bool)
    requires SchemaIssues(d, zodEmail) == []
    requires IsValidAddressList(d.cc)
    requires d.bcc != "" && !IsValidAddressList(d.bcc)
    ensures Verdict(d, zodEmail) == Validation(false, map[General := BccListMessage])
  {
  }

  // ---------------------------------------------------------------------
  // Where the page's checks and the service's checks differ

  /**
    Apart from the address test on `to`, the page is the stricter of the
    two: a draft the page accepts passes the service whenever zod accepts
    its `to`.
  */
  lemma PageAcceptedPassesService(d: Draft, zodEmail: string -> bool)
    requires FormErrors(d) == map[]
    requires zodEmail(d.to)
    ensures Verdict(d, zodEmail) == Validation(true, map[])
  {
    PageAcceptedFacts(d);
    ServiceAccepts(d, zodEmail);
  }

  /** What the page's acceptance says about the fields the service checks. */
  lemma PageAcceptedFacts(d: Draft)
    requires FormErrors(d) == map[]
    ensures IsValidAddressList(d.cc) && IsValidAddressList(d.bcc)
    ensures |d.subject| >= 1 && |d.body| >= 1
  {
    AcceptedList(d, Cc);
    AcceptedList(d, Bcc);
    AcceptedText(d, Subject);
    AcceptedText(d, Body);
  }

  /** A cc or bcc list the page does not report is a valid address list. */
  lemma AcceptedList(d: Draft, f: Field)
    requires f == Cc || f == Bcc
    requires f !in FormErrors(d)
    ensures IsValidAddressList(Get(d, f))
  {
    assert f in AllFields;
  }

  /** A subject or body the page does not report is not empty. */
  lemma AcceptedText(d: Draft, f: Field)
    requires f == Subject || f == Body
    requires f !in FormErrors(d)
    ensures |Get(d, f)| >= 1
  {
    assert f in AllFields;
    if Get(d, f) == "" {
      BlankTrimsToEmpty("");
    }
  }

  /** A draft that passes the schema and both list checks is valid. */
  lemma ServiceAccepts(d: Draft, zodEmail: string -> bool)
    requires zodEmail(d.to) && |d.subject| >= 1 && |d.body| >= 1
    requires IsValidAddressList(d.cc) && IsValidAddressList(d.bcc)
    ensures Verdict(d, zodEmail) == Validation(true, map[])
  {
    assert SchemaIssues(d, zodEmail) == [];
  }

  /**
    A whitespace-only subject passes the service (which does not trim)
    and is rejected by the page (which does).
  */
  lemma BlankSubjectDisagreement(d: Draft, zodEmail: string -> bool)
    requires zodEmail(d.to)
    requires d.subject != "" && IsBlank(d.subject)
    requires d.body != ""
    requires IsValidAddressList(d.cc) && IsValidAddressList(d.bcc)
    ensures Verdict(d, zodEmail).isValid
    ensures Subject in FormErrors(d)
  {
    BlankTrimsToEmpty(d.subject);
    assert Subject in AllFields && FormRejects(d, Subject);
  }

  /**
    A bad cc list is reported under `cc` by the page and under `general`
    by the service.
  */
  lemma BadCcKeyDisagreement(d: Draft, zodEmail: string -> bool)
    requires SchemaIssues(d, zodEmail) == []
    requires d.cc != "" && !IsValidAddressList(d.cc)
    ensures Cc in FormErrors(d)
    ensures FieldKey(Cc) !in Verdict(d, zodEmail).errors
    ensures General in Verdict(d, zodEmail).errors
  {
    RejectedList(d, Cc);
    BadCcIsGeneral(d, zodEmail, d.bcc);
    GeneralOnly(Verdict(d, zodEmail), CcListMessage, Cc);
  }

  /** A map holding only `general` holds no field key. */
  lemma GeneralOnly(v: Validation, message: string, f: Field)
    requires v.errors == map[General := message]
    ensures General in v.errors && FieldKey(f) !in v.errors
  {
  }

  /** A cc or bcc list that is not a valid address list is reported by the page. */
  lemma RejectedList(d: Draft, f: Field)
    requires f == Cc || f == Bcc
    requires !IsValidAddressList(Get(d, f))
    ensures f in FormErrors(d)
  {
    assert f in AllFields && FormRejects(d, f);
  }
}
