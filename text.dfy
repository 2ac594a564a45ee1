/**
  String operations of JavaScript that the core relies on: the whitespace
  class shared by `String.prototype.trim` and the regular-expression
  escape `\s`, `trim`, `split(',')` and the decimal form `String(n)` of an
  integer.
*/
module Text {

  /**
    One ECMAScript whitespace or line-terminator code point. `trim` and
    `\s` use exactly this set.
  */
  predicate IsWs(c: char)
  {
    || c == '\t' || c == '\n' || c == '\U{000B}' || c == '\U{000C}' || c == '\r'
    || c == ' ' || c == '\U{00A0}' || c == '\U{1680}'
    || ('\U{2000}' <= c <= '\U{200A}')
    || c == '\U{2028}' || c == '\U{2029}' || c == '\U{202F}' || c == '\U{205F}'
    || c == '\U{3000}' || c == '\U{FEFF}'
  }

  /** Every character of `s` is whitespace (the empty string included). */
  predicate IsBlank(s: string)
  {
    forall i :: 0 <= i < |s| ==> IsWs(s[i])
  }

  /** No character of `s` is whitespace. */
  predicate NoWs(s: string)
  {
    forall i :: 0 <= i < |s| ==> !IsWs(s[i])
  }

  /** `s` with its leading whitespace removed. */
  function TrimStart(s: string): (r: string)
    ensures |r| <= |s| && r == s[|s| - |r|..]
    ensures IsBlank(s[..|s| - |r|])
    ensures r == "" || !IsWs(r[0])
  {
    if s == [] || !IsWs(s[0]) then s
    else
      var r := TrimStart(s[1..]);
      assert s[1..][..|s| - 1 - |r|] == s[1..|s| - |r|];
      r
  }

  /** `s` with its trailing whitespace removed. */
  function TrimEnd(s: string): (r: string)
    ensures |r| <= |s| && r == s[..|r|]
    ensures IsBlank(s[|r|..])
    ensures r == "" || !IsWs(r[|r| - 1])
  {
    if s == [] || !IsWs(s[|s| - 1]) then s
    else
      var r := TrimEnd(s[..|s| - 1]);
      assert s[..|s| - 1][|r|..] == s[|r|..|s| - 1];
      r
  }

  /** JavaScript's `s.trim()`. */
  function Trim(s: string): (r: string)
  {
    TrimEnd(TrimStart(s))
  }

  /** `s` is `s.trim()` with whitespace on both sides. */
  lemma TrimSplitsOffWhitespace(s: string)
    ensures exists p, q :: s == p + Trim(s) + q && IsBlank(p) && IsBlank(q)
    ensures Trim(s) == "" || (!IsWs(Trim(s)[0]) && !IsWs(Trim(s)[|Trim(s)| - 1]))
  {
    var t := TrimStart(s);
    var r := TrimEnd(t);
    var p, q := s[..|s| - |t|], t[|r|..];
    SplitAt(s, |s| - |t|);
    SplitAt(t, |r|);
    Assoc(p, r, q);
    assert s == p + Trim(s) + q && IsBlank(p) && IsBlank(q);
    TrimEnds(s);
  }

  lemma Assoc<T>(a: seq<T>, b: seq<T>, c: seq<T>)
    ensures a + (b + c) == a + b + c
  {
  }

  /** A sequence is its prefix followed by its suffix. */
  lemma SplitAt<T>(x: seq<T>, n: nat)
    requires n <= |x|
    ensures x == x[..n] + x[n..]
  {
  }

  /** A non-empty `s.trim()` starts and ends with a non-whitespace character. */
  lemma TrimEnds(s: string)
    ensures Trim(s) == "" || (!IsWs(Trim(s)[0]) && !IsWs(Trim(s)[|Trim(s)| - 1]))
  {
    var t := TrimStart(s);
    var r := TrimEnd(t);
    assert Trim(s) == r;
    if r != "" {
      assert |t| >= 1 && !IsWs(t[0]);
      assert r[0] == t[..|r|][0] == t[0];
    }
  }

  /** `s.trim()` is empty exactly when `s` is blank. */
  lemma TrimEmptyIffBlank(s: string)
    ensures Trim(s) == "" <==> IsBlank(s)
  {
    if Trim(s) == "" {
      TrimEmptyOnlyIfBlank(s);
    } else if IsBlank(s) {
      BlankTrimsToEmpty(s);
    }
  }

  lemma TrimEmptyOnlyIfBlank(s: string)
    requires Trim(s) == ""
    ensures IsBlank(s)
  {
    var t := TrimStart(s);
    assert t[|TrimEnd(t)|..] == t;
    assert IsBlank(t);
    assert s == s[..|s| - |t|] + t;
  }

  lemma BlankTrimsToEmpty(s: string)
    requires IsBlank(s)
    ensures Trim(s) == ""
  {
  }

  /** Trimming a string without whitespace leaves it unchanged. */
  lemma TrimNoWs(s: string)
    requires NoWs(s)
    ensures Trim(s) == s
  {
    var t := TrimStart(s);
    assert t == s;
  }

  /** Leading whitespace before a non-blank start is what `trimStart` removes. */
  lemma {:induction false} TrimStartPadded(p: string, x: string)
    requires IsBlank(p)
    requires x == "" || !IsWs(x[0])
    ensures TrimStart(p + x) == x
  {
    if p != [] {
      assert (p + x)[1..] == p[1..] + x;
      TrimStartPadded(p[1..], x);
    } else {
      assert p + x == x;
    }
  }

  /** Trailing whitespace after a non-blank end is what `trimEnd` removes. */
  lemma {:induction false} TrimEndPadded(x: string, p: string)
    requires IsBlank(p)
    requires x == "" || !IsWs(x[|x| - 1])
    ensures TrimEnd(x + p) == x
  {
    if p != [] {
      assert (x + p)[..|x + p| - 1] == x + p[..|p| - 1];
      TrimEndPadded(x, p[..|p| - 1]);
    } else {
      assert x + p == x;
    }
  }

  /** Trimming removes exactly the padding around a string without whitespace. */
  lemma TrimPadded(p: string, x: string, q: string)
    requires IsBlank(p) && IsBlank(q) && NoWs(x)
    ensures Trim(p + x + q) == x
  {
    assert p + x + q == p + (x + q);
    if x == "" {
      assert x + q == q;
      TrimStartPadded(p + q, "");
      assert p + q + "" == p + q;
    } else {
      TrimStartPadded(p, x + q);
      TrimEndPadded(x, q);
    }
  }

  /** `Split(s)` is `s.split(',')`: the maximal comma-free pieces of `s`, in order. */
  function Split(s: string): (r: seq<string>)
    ensures |r| >= 1
  {
    if s == [] then [""]
    else if s[0] == ',' then [""] + Split(s[1..])
    else
      var rest := Split(s[1..]);
      [[s[0]] + rest[0]] + rest[1..]
  }

  /** No piece of a split holds a comma. */
  lemma {:induction false} SplitPiecesCommaFree(s: string)
    ensures forall k :: 0 <= k < |Split(s)| ==> ',' !in Split(s)[k]
  {
    if s != [] {
      SplitPiecesCommaFree(s[1..]);
      SplitCons(s[0], s[1..]);
      assert s == [s[0]] + s[1..];
      var rest := Split(s[1..]);
      if s[0] != ',' {
        assert ',' !in rest[0];
        assert ',' !in [s[0]] + rest[0];
        assert forall k :: 1 <= k < |Split(s)| ==> Split(s)[k] == rest[k];
      } else {
        assert forall k :: 1 <= k < |Split(s)| ==> Split(s)[k] == rest[k - 1];
      }
    }
  }

  /** `xs.join(',')`. */
  function Join(xs: seq<string>): (r: string)
    requires |xs| >= 1
  {
    if |xs| == 1 then xs[0] else xs[0] + "," + Join(xs[1..])
  }

  /** Joining the pieces of a split gives back the string. */
  lemma {:induction false} JoinSplit(s: string)
    ensures Join(Split(s)) == s
  {
    if s == [] {
    } else if s[0] == ',' {
      JoinSplit(s[1..]);
      assert s == "," + s[1..];
    } else {
      JoinSplit(s[1..]);
      var rest := Split(s[1..]);
      if |rest| == 1 {
        assert s == [s[0]] + s[1..];
      } else {
        assert Join(rest) == rest[0] + "," + Join(rest[1..]);
        assert ([[s[0]] + rest[0]] + rest[1..])[1..] == rest[1..];
        assert s == [s[0]] + s[1..];
      }
    }
  }

  /** A comma splits a string into the pieces of each side. */
  lemma {:induction false} SplitAtComma(a: string, b: string)
    ensures Split(a + "," + b) == Split(a) + Split(b)
    decreases |a|
  {
    if a == [] {
      assert a + "," + b == [','] + b;
      SplitCons(',', b);
    } else {
      SplitAtComma(a[1..], b);
      SplitAtCommaStep(a, b);
    }
  }


  /** The inductive step of `SplitAtComma`: from the tail of `a` to `a`. */
  lemma SplitAtCommaStep(a: string, b: string)
    requires a != []
    requires Split(a[1..] + "," + b) == Split(a[1..]) + Split(b)
    ensures Split(a + "," + b) == Split(a) + Split(b)
  {
    var t := a[1..] + "," + b;
    assert a + "," + b == [a[0]] + t;
    assert a == [a[0]] + a[1..];
    if a[0] == ',' {
      CommaStep(a[1..], t, Split(b));
    } else {
      CharStep(a[0], a[1..], t, Split(b));
    }
  }

  lemma CommaStep(u: string, t: string, rb: seq<string>)
    requires Split(t) == Split(u) + rb
    ensures Split([','] + t) == Split([','] + u) + rb
  {
    SplitCons(',', t);
    SplitCons(',', u);
    Regroup("", Split(u), rb);
  }

  lemma CharStep(c: char, u: string, t: string, rb: seq<string>)
    requires c != ','
    requires Split(t) == Split(u) + rb
    ensures Split([c] + t) == Split([c] + u) + rb
  {
    SplitCons(c, t);
    SplitCons(c, u);
    var ra := Split(u);
    HeadOfAppend(ra, rb);
    Regroup([c] + ra[0], ra[1..], rb);
  }

  /** Appending keeps the head and appends to the tail. */
  lemma HeadOfAppend<T>(xs: seq<T>, ys: seq<T>)
    requires |xs| >= 1
    ensures (xs + ys)[0] == xs[0] && (xs + ys)[1..] == xs[1..] + ys
  {
  }

  lemma Regroup<T>(x: T, xs: seq<T>, ys: seq<T>)
    ensures [x] + (xs + ys) == ([x] + xs) + ys
  {
  }

  /** One step of `Split`: the first character starts a new piece or extends the first one. */
  lemma SplitCons(c: char, t: string)
    ensures Split([c] + t) == if c == ',' then [""] + Split(t) else [[c] + Split(t)[0]] + Split(t)[1..]
  {
    var s := [c] + t;
    assert s[0] == c;
    assert s[1..] == t;
  }

  /** Splitting the join of comma-free strings gives back the strings. */
  lemma {:induction false} SplitJoin(xs: seq<string>)
    requires |xs| >= 1
    requires forall k :: 0 <= k < |xs| ==> ',' !in xs[k]
    ensures Split(Join(xs)) == xs
  {
    SplitCommaFree(xs[0]);
    if |xs| > 1 {
      SplitJoin(xs[1..]);
      SplitAtComma(xs[0], Join(xs[1..]));
      assert xs == [xs[0]] + xs[1..];
    }
  }

  /** A comma-free string is a single piece. */
  lemma {:induction false} SplitCommaFree(s: string)
    requires ',' !in s
    ensures Split(s) == [s]
  {
    if s != [] {
      SplitCommaFree(s[1..]);
      assert s == [s[0]] + s[1..];
    }
  }

  /** A string ending in a comma splits into pieces whose last is empty. */
  lemma TrailingCommaPiece(s: string)
    ensures Split(s + ",")[|Split(s + ",")| - 1] == ""
  {
    SplitAtComma(s, "");
    assert s + "," + "" == s + ",";
  }

  function DigitChar(d: nat): (c: char)
    requires d < 10
  {
    "0123456789"[d]
  }

  /** The decimal digits of `n`, most significant first, without leading zeros. */
  function NatToString(n: nat): (r: string)
    ensures |r| >= 1
    ensures forall k :: 0 <= k < |r| ==> '0' <= r[k] <= '9'
    ensures n > 0 ==> r[0] != '0'
    decreases n
  {
    if n < 10 then [DigitChar(n)] else NatToString(n / 10) + [DigitChar(n % 10)]
  }

  /** `String(n)` for an integer `n`. */
  function IntToString(n: int): (r: string)
    ensures |r| >= 1
  {
    if n < 0 then "-" + NatToString(-n) else NatToString(n)
  }

  /** The value of a string of decimal digits. */
  function DecimalValue(s: string): nat
    requires forall k :: 0 <= k < |s| ==> '0' <= s[k] <= '9'
  {
    if s == [] then 0
    else 10 * DecimalValue(s[..|s| - 1]) + (s[|s| - 1] as int - '0' as int)
  }

  /** Reading back the digits `String(n)` writes gives `n`. */
  lemma {:induction false} DecimalRoundTrip(n: nat)
    ensures DecimalValue(NatToString(n)) == n
  {
    var r := NatToString(n);
    if n < 10 {
      DigitValue(n);
      assert r[..|r| - 1] == [];
    } else {
      var q, d := n / 10, n % 10;
      DecimalRoundTrip(q);
      DigitValue(d);
      assert r[..|r| - 1] == NatToString(q);
      assert r[|r| - 1] == DigitChar(d);
      assert n == 10 * q + d;
    }
  }

  /** A digit character's code is its value above `'0'`. */
  lemma DigitValue(d: nat)
    requires d < 10
    ensures DigitChar(d) as int - '0' as int == d
  {
  }

  /** `String(n)` tells integers apart. */
  lemma IntToStringInjective(m: int, n: int)
    requires IntToString(m) == IntToString(n)
    ensures m == n
  {
    var a, b := NatToString(if m < 0 then -m else m), NatToString(if n < 0 then -n else n);
    assert (m < 0) == (IntToString(m)[0] == '-');
    assert (n < 0) == (IntToString(n)[0] == '-');
    if m < 0 {
      assert a == IntToString(m)[1..];
      assert b == IntToString(n)[1..];
    }
    assert a == b;
    DecimalRoundTrip(if m < 0 then -m else m);
    DecimalRoundTrip(if n < 0 then -n else n);
  }
}
