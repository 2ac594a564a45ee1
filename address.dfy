/**
  The address rules of the compose form: `validateEmail`, the test of one
  address against `/^[^\s@]+@[^\s@]+\.[^\s@]+$/`, and `validateEmailList`,
  which accepts a blank string and otherwise every comma-separated,
  trimmed piece. The page and the email service carry identical copies of
  both; this module is the single definition of each.
*/
module Address {
  import opened Text

  /** A character of the class `[^\s@]`. */
  predicate AddrChar(c: char)
  {
    !IsWs(c) && c != '@'
  }

  /**
    The regular expression read as a shape: a non-empty run of `[^\s@]`,
    the `@` at index `i`, a non-empty run, the `.` at index `j`, and a
    non-empty run to the end. Every character but the `@` is of `[^\s@]`.
  */
  ghost predicate MatchesPattern(s: string)
  {
    exists i, j :: 0 < i && i + 1 < j && j + 1 < |s| && s[i] == '@' && s[j] == '.'
      && forall k :: 0 <= k < |s| && k != i ==> AddrChar(s[k])
  }

  /** The index of the first occurrence of `c` in `s`. */
  function IndexOf(s: string, c: char): (r: nat)
    requires c in s
    ensures r < |s| && s[r] == c && c !in s[..r]
  {
    if s[0] == c then 0
    else
      assert c in s[1..] by { var k :| 0 <= k < |s| && s[k] == c; assert s[1..][k - 1] == c; }
      var r := IndexOf(s[1..], c) + 1;
      assert s[..r] == [s[0]] + s[1..][..r - 1];
      r
  }

  /** A domain whose `.` is neither its first nor its last character. */
  predicate HasInteriorDot(d: string)
  {
    |d| >= 3 && '.' in d[1..|d| - 1]
  }

  /**
    `validateEmail(s)`: no whitespace and exactly one `@`, a non-empty
    local part before it, and a domain after it with an interior `.`.
  */
  predicate IsValidAddress(s: string)
  {
    && NoWs(s)
    && '@' in s
    && var k := IndexOf(s, '@');
    && '@' !in s[k + 1..]
    && k > 0
    && HasInteriorDot(s[k + 1..])
  }

  /** The address test is exactly the regular expression. */
  lemma ValidAddressIffPattern(s: string)
    ensures IsValidAddress(s) <==> MatchesPattern(s)
  {
    if IsValidAddress(s) {
      ValidAddressMatches(s);
    }
    if MatchesPattern(s) {
      MatchIsValidAddress(s);
    }
  }

  lemma ValidAddressMatches(s: string)
    requires IsValidAddress(s)
    ensures MatchesPattern(s)
  {
    var i := IndexOf(s, '@');
    var d := s[i + 1..];
    var m :| 0 <= m < |d[1..|d| - 1]| && d[1..|d| - 1][m] == '.';
    var j := i + 2 + m;
    assert s[j] == '.';
    forall k | 0 <= k < |s| && k != i
      ensures AddrChar(s[k])
    {
      if k < i {
        assert s[..i][k] == s[k];
      } else {
        assert d[k - i - 1] == s[k];
      }
    }
  }

  lemma MatchIsValidAddress(s: string)
    requires MatchesPattern(s)
    ensures IsValidAddress(s)
  {
    var i, j :| 0 < i && i + 1 < j && j + 1 < |s| && s[i] == '@' && s[j] == '.'
      && forall k :: 0 <= k < |s| && k != i ==> AddrChar(s[k]);
    assert NoWs(s) by {
      assert !IsWs('@');
    }
    OnlyAt(s, i);
    InteriorDot(s[i + 1..], j - i - 1);
  }

  /** When index `i` holds the only `@`, `IndexOf` finds it and none follows. */
  lemma OnlyAt(s: string, i: nat)
    requires i < |s| && s[i] == '@'
    requires forall k :: 0 <= k < |s| && k != i ==> s[k] != '@'
    ensures '@' in s && IndexOf(s, '@') == i && '@' !in s[i + 1..]
  {
    var r := IndexOf(s, '@');
    assert r == i;
    var rest := s[i + 1..];
    forall q | 0 <= q < |rest|
      ensures rest[q] != '@'
    {
      assert rest[q] == s[i + 1 + q];
    }
  }

  /** A `.` at an index other than the first and the last is interior. */
  lemma InteriorDot(d: string, m: nat)
    requires 0 < m < |d| - 1 && d[m] == '.'
    ensures HasInteriorDot(d)
  {
    assert d[1..|d| - 1][m - 1] == '.';
  }

  /**
    `validateEmailList(s)`: a blank string is valid (the list is
    optional); otherwise every piece of `s.split(',')`, trimmed, must be a
    valid address. An empty piece is checked like any other and fails.
  */
  predicate IsValidAddressList(s: string)
  {
    if Trim(s) == "" then true
    else
      var pieces := Split(s);
      forall k :: 0 <= k < |pieces| ==> IsValidAddress(Trim(pieces[k]))
  }

  /** The empty string is no address. */
  lemma EmptyIsNoAddress()
    ensures !IsValidAddress("")
  {
  }

  /** Empty and whitespace-only lists are valid. */
  lemma BlankListValid(s: string)
    requires IsBlank(s)
    ensures IsValidAddressList(s)
  {
    TrimEmptyIffBlank(s);
  }

  /** A non-blank list is valid exactly when every trimmed piece is an address. */
  lemma NonBlankListValid(s: string)
    requires !IsBlank(s)
    ensures IsValidAddressList(s)
            <==> forall k :: 0 <= k < |Split(s)| ==> IsValidAddress(Trim(Split(s)[k]))
  {
    TrimEmptyIffBlank(s);
  }

  /** A comma is not whitespace, so a string containing one is not blank. */
  lemma CommaNotBlank(s: string, k: nat)
    requires k < |s| && s[k] == ','
    ensures !IsBlank(s)
  {
  }

  /** A list with an empty piece is invalid, whatever its other pieces. */
  lemma EmptyPieceRejected(s: string, k: nat)
    requires !IsBlank(s)
    requires k < |Split(s)| && Split(s)[k] == ""
    ensures !IsValidAddressList(s)
  {
    TrimEmptyIffBlank(s);
    BlankTrimsToEmpty("");
    assert !IsValidAddress(Trim(Split(s)[k]));
  }

  /** A trailing comma makes any list invalid: its last piece is empty. */
  lemma TrailingCommaRejected(s: string)
    ensures !IsValidAddressList(s + ",")
  {
    CommaNotBlank(s + ",", |s|);
    TrailingCommaPiece(s);
    EmptyPieceRejected(s + ",", |Split(s + ",")| - 1);
  }

  /** Two consecutive commas make any list invalid: the piece between is empty. */
  lemma DoubleCommaRejected(a: string, b: string)
    ensures !IsValidAddressList(a + ",," + b)
  {
    var t := a + ",," + b;
    assert t == a + "," + ("," + b);
    CommaNotBlank(t, |a|);
    SplitAtComma(a, "," + b);
    assert "," + b == "" + "," + b;
    SplitAtComma("", b);
    assert Split("," + b) == [""] + Split(b);
    assert Split(t) == Split(a) + ([""] + Split(b));
    assert Split(t)[|Split(a)|] == "";
    EmptyPieceRejected(t, |Split(a)|);
  }

  /** Valid comma-free addresses joined with commas form a valid list. */
  lemma JoinedAddressesValid(xs: seq<string>)
    requires |xs| >= 1
    requires forall k :: 0 <= k < |xs| ==> IsValidAddress(xs[k]) && ',' !in xs[k]
    ensures IsValidAddressList(Join(xs))
  {
    var s := Join(xs);
    SplitJoin(xs);
    forall k | 0 <= k < |xs|
      ensures IsValidAddress(Trim(Split(s)[k]))
    {
      TrimNoWs(xs[k]);
    }
  }
}
