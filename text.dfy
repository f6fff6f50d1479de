/** String helpers with the meaning JavaScript gives them: `trim`, `toLowerCase`
    (restricted to Latin-1), `includes`, `startsWith`, `split`, `join` and the
    regular-expression classes `\s` and `\d`. Strings are sequences of Unicode
    scalar values. */
module Text {

  /** The characters JavaScript treats as white space in `trim` and in `\s`:
      WhiteSpace and LineTerminator of the ECMAScript grammar. */
  predicate IsSpace(c: char) {
    c == '\t' || c == '\n' || c == '\U{0B}' || c == '\U{0C}' || c == '\r' || c == ' '
    || c == '\U{A0}' || c == '\U{1680}' || ('\U{2000}' <= c <= '\U{200A}')
    || c == '\U{2028}' || c == '\U{2029}' || c == '\U{202F}' || c == '\U{205F}'
    || c == '\U{3000}' || c == '\U{FEFF}'
  }

  /** `\d` in a JavaScript regular expression: ASCII digits only. */
  predicate IsDigit(c: char) {
    '0' <= c <= '9'
  }

  predicate AllDigits(s: string) {
    forall k :: 0 <= k < |s| ==> IsDigit(s[k])
  }

  predicate AllSpace(s: string) {
    forall k :: 0 <= k < |s| ==> IsSpace(s[k])
  }

  /** `String.prototype.trim`: white space is dropped from both ends. */
  function Trim(s: string): string
    decreases |s|
  {
    if s == [] then s
    else if IsSpace(s[0]) then Trim(s[1..])
    else if IsSpace(s[|s| - 1]) then Trim(s[..|s| - 1])
    else s
  }

  /** What `Trim` keeps is the infix s[i..i + |Trim(s)|]; it neither starts
      nor ends with white space, and everything dropped is white space. */
  lemma {:induction false} TrimIsInfix(s: string) returns (i: nat)
    ensures var r := Trim(s);
            && i + |r| <= |s| && s[i..i + |r|] == r
            && (forall k :: 0 <= k < i ==> IsSpace(s[k]))
            && (forall k :: i + |r| <= k < |s| ==> IsSpace(s[k]))
            && (r == [] || (!IsSpace(r[0]) && !IsSpace(r[|r| - 1])))
    decreases |s|
  {
    var r := Trim(s);
    if s == [] {
      i := 0;
    } else if IsSpace(s[0]) {
      var j := TrimIsInfix(s[1..]);
      i := j + 1;
      assert s[i..i + |r|] == s[1..][j..j + |r|];
      assert forall k :: 1 <= k < |s| ==> s[k] == s[1..][k - 1];
    } else if IsSpace(s[|s| - 1]) {
      var j := TrimIsInfix(s[..|s| - 1]);
      i := j;
      assert s[i..i + |r|] == s[..|s| - 1][j..j + |r|];
    } else {
      i := 0;
      assert s[0..|s|] == s;
    }
  }

  /** What `Trim` leaves neither starts nor ends with white space. */
  lemma TrimEnds(s: string)
    ensures var r := Trim(s); r == [] || (!IsSpace(r[0]) && !IsSpace(r[|r| - 1]))
  {
    var i := TrimIsInfix(s);
  }

  /** Trimming twice is trimming once. */
  lemma TrimIdempotent(s: string)
    ensures Trim(Trim(s)) == Trim(s)
  {
    TrimEnds(s);
  }

  /** A string trims to empty exactly when it is made of white space only. */
  lemma TrimEmptyIffAllSpace(s: string)
    ensures Trim(s) == [] <==> AllSpace(s)
  {
    var i := TrimIsInfix(s);
    var r := Trim(s);
    if r != [] {
      assert s[i] == r[0];
    }
  }

  /** `s.length` in JavaScript: UTF-16 code units, two for a character
      outside the Basic Multilingual Plane. */
  function Utf16Length(s: string): (n: nat)
    ensures |s| <= n <= 2 * |s|
    ensures (forall k :: 0 <= k < |s| ==> s[k] as int <= 0xFFFF) ==> n == |s|
  {
    if s == [] then 0
    else (if s[0] as int <= 0xFFFF then 1 else 2) + Utf16Length(s[1..])
  }

  /** The capitals `toLowerCase` maps here: ASCII letters and the Latin-1
      capitals U+00C0..U+00DE other than the multiplication sign U+00D7. */
  predicate IsUpper(c: char) {
    'A' <= c <= 'Z' || ('\U{C0}' <= c <= '\U{DE}' && c != '\U{D7}')
  }

  /** `toLowerCase` on one character: a capital becomes its small letter,
      32 code points further on. */
  function LowerChar(c: char): (r: char)
  {
    if IsUpper(c) then (c as int + 32) as char else c
  }

  function Lower(s: string): (r: string)
    ensures |r| == |s|
    ensures forall k :: 0 <= k < |s| ==> r[k] == LowerChar(s[k])
  {
    seq(|s|, k requires 0 <= k < |s| => LowerChar(s[k]))
  }

  /** Lower-casing keeps every character that is not a capital, turns each
      capital into its small letter, leaves no capital behind, and so is
      idempotent. */
  lemma LowerMeaning(s: string)
    ensures var r := Lower(s);
            && |r| == |s|
            && (forall k :: 0 <= k < |s| && !IsUpper(s[k]) ==> r[k] == s[k])
            && (forall k :: 0 <= k < |s| && IsUpper(s[k]) ==> r[k] as int == s[k] as int + 32)
            && (forall k :: 0 <= k < |r| ==> !IsUpper(r[k]))
            && Lower(r) == r
  {
  }

  /** `s.startsWith(p)`. */
  predicate StartsWith(s: string, p: string) {
    p <= s
  }

  /** `s.includes(t)`: t occurs in s as a contiguous infix. */
  predicate Contains(s: string, t: string)
    decreases |s|
  {
    t <= s || (s != [] && Contains(s[1..], t))
  }

  /** The occurrence that `Contains` promises is an actual infix. */
  lemma {:induction false} ContainsInfix(s: string, t: string, i: nat)
    requires i + |t| <= |s| && s[i..i + |t|] == t
    ensures Contains(s, t)
    decreases i
  {
    if i == 0 {
      assert t == s[..|t|];
    } else {
      assert s[1..][i - 1..i - 1 + |t|] == s[i..i + |t|];
      ContainsInfix(s[1..], t, i - 1);
    }
  }

  /** Contains is transitive: an infix of an infix is an infix. */
  lemma {:induction false} ContainsTrans(s: string, t: string, u: string)
    requires Contains(s, t) && Contains(t, u)
    ensures Contains(s, u)
    decreases |s|
  {
    if t <= s {
      var j := InfixIndex(t, u);
      assert s[j..j + |u|] == t[j..j + |u|];
      ContainsInfix(s, u, j);
    } else {
      ContainsTrans(s[1..], t, u);
    }
  }

  /** The position of an occurrence that `Contains` promises. */
  lemma {:induction false} InfixIndex(s: string, t: string) returns (i: nat)
    requires Contains(s, t)
    ensures i + |t| <= |s| && s[i..i + |t|] == t
    decreases |s|
  {
    if t <= s {
      i := 0;
    } else {
      var j := InfixIndex(s[1..], t);
      assert s[1..][j..j + |t|] == s[j + 1..j + 1 + |t|];
      i := j + 1;
    }
  }

  /** Every string contains the empty string (so `includes('')` is true). */
  lemma ContainsEmpty(s: string)
    ensures Contains(s, [])
  {
  }

  /** `s.split(sep)` for a one-character separator: the pieces between
      separators, one more piece than there are separators. */
  function Split(s: string, sep: char): (r: seq<string>)
    ensures |r| == CountChar(s, sep) + 1
    ensures forall k :: 0 <= k < |r| ==> sep !in r[k]
    ensures r[0] <= s && (sep in s ==> s[|r[0]|] == sep)
    ensures sep !in s ==> r == [s]
    ensures s != [] && s[0] != sep ==> r[0] != []
  {
    if s == [] then [[]]
    else
      var rest := Split(s[1..], sep);
      if s[0] == sep then [[]] + rest
      else
        assert sep !in s ==> sep !in s[1..] && s == [s[0]] + s[1..];
        [[s[0]] + rest[0]] + rest[1..]
  }

  /** The first separator ends the first piece; the pieces after it are the
      pieces of the rest. */
  lemma {:induction false} SplitAt(a: string, sep: char, b: string)
    requires sep !in a
    ensures Split(a + [sep] + b, sep) == [a] + Split(b, sep)
  {
    if a == [] {
      assert a + [sep] + b == [sep] + b;
    } else {
      assert (a + [sep] + b)[1..] == a[1..] + [sep] + b;
      SplitAt(a[1..], sep, b);
      assert [a[0]] + a[1..] == a;
    }
  }

  function CountChar(s: string, c: char): (n: nat)
    ensures n <= |s|
    ensures n == 0 <==> c !in s
  {
    if s == [] then 0
    else (if s[0] == c then 1 else 0) + CountChar(s[1..], c)
  }

  /** `s.split(/\s+/)`: the pieces between maximal runs of white space. */
  function SplitWs(s: string): (r: seq<string>)
    ensures |r| >= 1
    ensures forall k :: 0 <= k < |r| ==> forall j :: 0 <= j < |r[k]| ==> !IsSpace(r[k][j])
    ensures r[0] <= s && (|r[0]| < |s| ==> IsSpace(s[|r[0]|]))
  {
    if s == [] then [[]]
    else
      var rest := SplitWs(s[1..]);
      if IsSpace(s[0]) then (if |s| > 1 && IsSpace(s[1]) then rest else [[]] + rest)
      else [[s[0]] + rest[0]] + rest[1..]
  }

  /** A text without white space is a single piece. */
  lemma {:induction false} SplitWsNoSpace(s: string)
    requires forall k :: 0 <= k < |s| ==> !IsSpace(s[k])
    ensures SplitWs(s) == [s]
  {
    if s != [] {
      SplitWsNoSpace(s[1..]);
      assert [s[0]] + s[1..] == s;
    }
  }

  /** A run of white space followed by a text that does not start with white
      space adds one empty piece before the pieces of that text. */
  lemma {:induction false} SplitWsSpaceRun(w: string, b: string)
    requires w != [] && AllSpace(w)
    requires b == [] || !IsSpace(b[0])
    ensures SplitWs(w + b) == [[]] + SplitWs(b)
  {
    assert (w + b)[1..] == w[1..] + b;
    if |w| > 1 {
      SplitWsSpaceRun(w[1..], b);
    }
  }

  /** The first maximal run of white space ends the first piece; the pieces
      after it are the pieces of the rest. */
  lemma {:induction false} SplitWsAt(a: string, w: string, b: string)
    requires forall k :: 0 <= k < |a| ==> !IsSpace(a[k])
    requires w != [] && AllSpace(w)
    requires b == [] || !IsSpace(b[0])
    ensures SplitWs(a + w + b) == [a] + SplitWs(b)
  {
    if a == [] {
      assert a + w + b == w + b;
      SplitWsSpaceRun(w, b);
    } else {
      assert (a + w + b)[1..] == a[1..] + w + b;
      SplitWsAt(a[1..], w, b);
      assert [a[0]] + a[1..] == a;
    }
  }

  /** `parts.join(sep)`. */
  function Join(parts: seq<string>, sep: string): string
  {
    if |parts| == 0 then ""
    else if |parts| == 1 then parts[0]
    else parts[0] + sep + Join(parts[1..], sep)
  }

  /** `s.replace(/\D/g, '')`: the digits of s, in order. */
  function KeepDigits(s: string): (r: string)
    ensures AllDigits(r)
    ensures |r| <= |s|
    ensures AllDigits(s) ==> r == s
  {
    if s == [] then []
    else (if IsDigit(s[0]) then [s[0]] else []) + KeepDigits(s[1..])
  }

  lemma {:induction false} KeepDigitsAppend(a: string, b: string)
    ensures KeepDigits(a + b) == KeepDigits(a) + KeepDigits(b)
  {
    if a == [] {
      assert a + b == b;
    } else {
      assert (a + b)[0] == a[0] && (a + b)[1..] == a[1..] + b;
      KeepDigitsAppend(a[1..], b);
    }
  }

  /** A string of non-digits keeps no digit. */
  lemma {:induction false} KeepDigitsNone(s: string)
    requires forall k :: 0 <= k < |s| ==> !IsDigit(s[k])
    ensures KeepDigits(s) == []
  {
    if s != [] {
      KeepDigitsNone(s[1..]);
    }
  }
}
