/**
  The compose form: the draft being edited, the checks the page runs when
  Send is pressed (`handleSend`), the field-change reducer of the compose
  dialog (`handleFieldChange`) and the merge of an AI draft into the form.
*/
module Compose {
  import opened Wrappers
  import opened Json
  import opened Text
  import opened Address

  /** The five compose fields, all strings. */
  datatype Draft = Draft(to: string, cc: string, bcc: string, subject: string, body: string)

  /** The names of the compose fields, the keys of the error maps. */
  datatype Field = To | Cc | Bcc | Subject | Body

  /** The form's initial and reset state: five empty strings. */
  const EmptyDraft := Draft("", "", "", "", "")

  /** `compose[f]`. */
  function Get(d: Draft, f: Field): string
  {
    match f
    case To => d.to
    case Cc => d.cc
    case Bcc => d.bcc
    case Subject => d.subject
    case Body => d.body
  }

  /** `{...d, [f]: v}`. */
  function With(d: Draft, f: Field, v: string): (r: Draft)
    ensures Get(r, f) == v
    ensures forall g :: g != f ==> Get(r, g) == Get(d, g)
  {
    match f
    case To => d.(to := v)
    case Cc => d.(cc := v)
    case Bcc => d.(bcc := v)
    case Subject => d.(subject := v)
    case Body => d.(body := v)
  }

  // ---------------------------------------------------------------------
  // The checks of handleSend

  /** Whether `handleSend` adds an error for field `f` of `d`. */
  predicate FormRejects(d: Draft, f: Field)
  {
    match f
    case To => Trim(d.to) == "" || !IsValidAddress(Trim(d.to))
    case Cc => !IsValidAddressList(d.cc)
    case Bcc => !IsValidAddressList(d.bcc)
    case Subject => Trim(d.subject) == ""
    case Body => Trim(d.body) == ""
  }

  /** The message `handleSend` stores under each field. */
  function FormMessage(f: Field): string
  {
    match f
    case To => "To field is required and must be a valid email"
    case Cc => "CC must contain valid email addresses separated by commas"
    case Bcc => "BCC must contain valid email addresses separated by commas"
    case Subject => "Subject is required"
    case Body => "Body is required"
  }

  /** The error map `handleSend` builds: one entry per failing field. */
  function FormErrors(d: Draft): map<Field, string>
  {
    map f | f in AllFields && FormRejects(d, f) :: FormMessage(f)
  }

  const AllFields: set<Field> := {To, Cc, Bcc, Subject, Body}

  /**
    What the page's checks mean: the to field must trim to an address (an
    empty one is no address), a list is rejected only when it is not blank
    and has a bad piece, subject and body must not be blank.
  */
  lemma FormErrorsMeaning(d: Draft)
    ensures To in FormErrors(d) <==> !IsValidAddress(Trim(d.to))
    ensures Cc in FormErrors(d) <==> !IsBlank(d.cc) && exists k :: 0 <= k < |Split(d.cc)| && !IsValidAddress(Trim(Split(d.cc)[k]))
    ensures Bcc in FormErrors(d) <==> !IsBlank(d.bcc) && exists k :: 0 <= k < |Split(d.bcc)| && !IsValidAddress(Trim(Split(d.bcc)[k]))
    ensures Subject in FormErrors(d) <==> IsBlank(d.subject)
    ensures Body in FormErrors(d) <==> IsBlank(d.body)
    ensures forall f :: f in FormErrors(d) ==> FormErrors(d)[f] == FormMessage(f)
  {
    forall f ensures f in FormErrors(d) <==> FormRejects(d, f) {
      FormErrorsAt(d, f);
    }
    EmptyIsNoAddress();
    ListRejects(d.cc);
    ListRejects(d.bcc);
    TrimEmptyIffBlank(d.subject);
    TrimEmptyIffBlank(d.body);
  }

  /** The entry of field `f`: present exactly when `f` is rejected, with that field's message. */
  lemma FormErrorsAt(d: Draft, f: Field)
    ensures f in FormErrors(d) <==> FormRejects(d, f)
    ensures f in FormErrors(d) ==> FormErrors(d)[f] == FormMessage(f)
  {
    assert f in AllFields;
  }

  /** When a list check fails: the list is not blank and some trimmed piece is no address. */
  lemma ListRejects(s: string)
    ensures !IsValidAddressList(s)
            <==> !IsBlank(s) && exists k :: 0 <= k < |Split(s)| && !IsValidAddress(Trim(Split(s)[k]))
  {
    if IsBlank(s) {
      BlankListValid(s);
    } else {
      NonBlankListValid(s);
    }
  }

  /** Pressing Send on the untouched form reports exactly to, subject and body. */
  lemma EmptyDraftErrors()
    ensures var e := FormErrors(EmptyDraft);
            To in e && Subject in e && Body in e && Cc !in e && Bcc !in e
  {
    EmptyFieldsErrors(EmptyDraft);
  }

  lemma EmptyFieldsErrors(d: Draft)
    requires d.to == d.cc == d.bcc == d.subject == d.body == ""
    ensures var e := FormErrors(d);
            To in e && Subject in e && Body in e && Cc !in e && Bcc !in e
  {
    BlankTrimsToEmpty("");
    assert FormRejects(d, To);
    assert FormRejects(d, Subject);
    assert FormRejects(d, Body);
    assert !FormRejects(d, Cc);
    assert !FormRejects(d, Bcc);

  }

  /** A whitespace-only subject or body is rejected by the page. */
  lemma BlankSubjectRejected(d: Draft)
    requires d.subject != "" && IsBlank(d.subject)
    ensures Subject in FormErrors(d)
  {
  }

  /** The to field is judged after trimming: surrounding spaces are accepted. */
  lemma PaddedToAccepted(d: Draft, pad: string)
    requires IsValidAddress(d.to) && IsBlank(pad)
    ensures To !in FormErrors(d.(to := pad + d.to + pad))
  {
    TrimPadded(pad, d.to, pad);
  }

  // ---------------------------------------------------------------------
  // The field-change reducer

  /**
    The page's map of inline field errors. A cleared entry keeps its key
    with the value `undefined`, modelled as None.
  */
  type FieldErrors = map<Field, Option<string>>

  /** `validationErrors[f]` is truthy. */
  predicate ErrorShown(errs: FieldErrors, f: Field)
  {
    f in errs && errs[f].Some? && errs[f].value != ""
  }

  /**
    The errors of one validation shown as field errors: no entry is cleared,
    each message is kept, and a field shows an error exactly when it was
    reported with a non-empty message.
  */
  function Shown(errors: map<Field, string>): (r: FieldErrors)
    ensures r.Keys == errors.Keys
    ensures forall f :: f in errors ==> r[f] == Some(errors[f])
    ensures forall f :: ErrorShown(r, f) <==> f in errors && errors[f] != ""
  {
    map f | f in errors :: Some(errors[f])
  }

  /** After a failed send, the fields that show an error are exactly those the checks reported. */
  lemma ShownFormErrors(d: Draft)
    ensures forall f :: ErrorShown(Shown(FormErrors(d)), f) <==> f in FormErrors(d)
  {
    forall f | f in FormErrors(d)
      ensures FormErrors(d)[f] != ""
    {
      FormErrorsAt(d, f);
    }
  }

  /**
    `handleFieldChange(f, v)`: the draft becomes `{...compose, [f]: v}`;
    when `validationErrors[f]` is truthy it becomes `undefined`.
  */
  function FieldChange(c: Draft, errs: FieldErrors, f: Field, v: string): (r: (Draft, FieldErrors))
    ensures Get(r.0, f) == v
    ensures forall g :: g != f ==> Get(r.0, g) == Get(c, g)
    ensures ErrorShown(errs, f) ==> f in r.1 && r.1[f] == None
    ensures r.1.Keys == errs.Keys
    ensures forall g :: g in errs && (g != f || !ErrorShown(errs, f)) ==> r.1[g] == errs[g]
    ensures !ErrorShown(r.1, f)
  {
    (With(c, f, v), if ErrorShown(errs, f) then errs[f := None] else errs)
  }

  /** Typing the same value twice is the same as typing it once. */
  lemma FieldChangeIdempotent(c: Draft, errs: FieldErrors, f: Field, v: string)
    ensures var r := FieldChange(c, errs, f, v);
            FieldChange(r.0, r.1, f, v) == r
  {
    var r := FieldChange(c, errs, f, v);
    var r2 := FieldChange(r.0, r.1, f, v);
    assert r2.0 == r.0 by {
      assert forall g :: Get(r2.0, g) == Get(r.0, g);
      DraftExt(r2.0, r.0);
    }
  }

  /** Two drafts that agree on every field are equal. */
  lemma DraftExt(a: Draft, b: Draft)
    requires forall g :: Get(a, g) == Get(b, g)
    ensures a == b
  {
    assert Get(a, To) == Get(b, To) && Get(a, Cc) == Get(b, Cc) && Get(a, Bcc) == Get(b, Bcc);
    assert Get(a, Subject) == Get(b, Subject) && Get(a, Body) == Get(b, Body);
  }

  // ---------------------------------------------------------------------
  // Merging an AI draft into the form

  /** A value usable as `email.subject || ''` on a string field. */
  predicate TextOrFalsy(j: Json)
  {
    j.JStr? || !Truthy(j)
  }

  /** `j || ''` for a string or falsy value. */
  function TextOf(j: Json): string
    requires TextOrFalsy(j)
  {
    if Truthy(j) then j.s else ""
  }

  /**
    `{...c, subject: email.subject || '', body: email.body || ''}`: the
    subject and body are replaced, the addresses kept.
  */
  function MergeAiDraft(c: Draft, subject: Json, body: Json): (r: Draft)
    requires TextOrFalsy(subject) && TextOrFalsy(body)
    ensures r.to == c.to && r.cc == c.cc && r.bcc == c.bcc
    ensures r.subject == (if subject.JStr? then subject.s else "")
    ensures r.body == (if body.JStr? then body.s else "")
  {
    c.(subject := TextOf(subject), body := TextOf(body))
  }

  /** The merge changes none of the address checks of the form. */
  lemma MergeKeepsAddressChecks(c: Draft, subject: Json, body: Json)
    requires TextOrFalsy(subject) && TextOrFalsy(body)
    ensures var m := MergeAiDraft(c, subject, body);
            (To in FormErrors(m) <==> To in FormErrors(c))
            && (Cc in FormErrors(m) <==> Cc in FormErrors(c))
            && (Bcc in FormErrors(m) <==> Bcc in FormErrors(c))
  {
  }

  /** A non-blank generated subject and body leave no subject or body error. */
  lemma MergedTextAccepted(c: Draft, subject: string, body: string)
    requires !IsBlank(subject) && !IsBlank(body)
    ensures var m := MergeAiDraft(c, JStr(subject), JStr(body));
            Subject !in FormErrors(m) && Body !in FormErrors(m)
  {
    TrimEmptyIffBlank(subject);
    TrimEmptyIffBlank(body);
  }
}
