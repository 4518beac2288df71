/** The handful of Python string operations the assistant relies on, stated
    over sequences of Unicode scalar values. */
module Text {

  /** Python's `str.isspace()` for one code point. */
  predicate IsSpace(c: char) {
    || ('\t' <= c <= '\r')
    || ('\U{1C}' <= c <= '\U{1F}')
    || c == ' ' || c == '\U{85}' || c == '\U{A0}' || c == '\U{1680}'
    || ('\U{2000}' <= c <= '\U{200A}')
    || c == '\U{2028}' || c == '\U{2029}' || c == '\U{202F}' || c == '\U{205F}' || c == '\U{3000}'
  }

  /** Number of whitespace code points at the front of `s`. */
  function LeadingSpace(s: string): (n: nat)
    ensures n <= |s|
    ensures forall k :: 0 <= k < n ==> IsSpace(s[k])
    ensures n < |s| ==> !IsSpace(s[n])
  {
    if |s| > 0 && IsSpace(s[0]) then 1 + LeadingSpace(s[1..]) else 0
  }

  /** Number of whitespace code points at the end of `s`. */
  function TrailingSpace(s: string): (n: nat)
    ensures n <= |s|
    ensures forall k :: |s| - n <= k < |s| ==> IsSpace(s[k])
    ensures n < |s| ==> !IsSpace(s[|s| - 1 - n])
  {
    if |s| > 0 && IsSpace(s[|s| - 1]) then 1 + TrailingSpace(s[..|s| - 1]) else 0
  }

  /** Python's `s.strip()`: `s` without its leading and trailing whitespace. */
  function Strip(s: string): (r: string)
    ensures r == [] <==> forall k :: 0 <= k < |s| ==> IsSpace(s[k])
    ensures r != [] ==> !IsSpace(r[0]) && !IsSpace(r[|r| - 1])
    ensures exists i, j :: 0 <= i <= j <= |s| && r == s[i..j]
  {
    var lead := LeadingSpace(s);
    if lead == |s| then
      assert s[0..0] == [];
      []
    else
      var trail := TrailingSpace(s);
      assert !IsSpace(s[lead]);
      s[lead..|s| - trail]
  }

  /** Stripping text padded with whitespace on both sides gives the text
      back, when the text itself neither starts nor ends with whitespace. */
  lemma StripPadded(a: string, b: string, c: string)
    requires forall k :: 0 <= k < |a| ==> IsSpace(a[k])
    requires forall k :: 0 <= k < |c| ==> IsSpace(c[k])
    requires b != [] && !IsSpace(b[0]) && !IsSpace(b[|b| - 1])
    ensures Strip(a + b + c) == b
  {
    var s := a + b + c;
    var lead := LeadingSpace(s);
    var trail := TrailingSpace(s);
    assert s[|a|] == b[0];
    assert s[|a| + |b| - 1] == b[|b| - 1];
    assert lead == |a|;
    assert trail == |c|;
    assert s[lead..|s| - trail] == b;
  }

  /** Stripping text that starts with a non-space character only removes
      trailing whitespace, and stops before any non-space character. */
  lemma StripTrailingOnly(s: string, m: nat)
    requires m < |s| && !IsSpace(s[0]) && !IsSpace(s[m])
    ensures m < |Strip(s)| <= |s| && Strip(s) == s[..|Strip(s)|]
    ensures forall k :: |Strip(s)| <= k < |s| ==> IsSpace(s[k])
  {
    var lead := LeadingSpace(s);
    assert lead == 0;
    var trail := TrailingSpace(s);
    assert m < |s| - trail;
    assert s[0..|s| - trail] == s[..|s| - trail];
  }

  /** `r` is `full` without its trailing whitespace, and keeps more than its
      first `m` characters. */
  predicate TrimmedEnd(full: string, r: string, m: nat) {
    && m < |r| <= |full|
    && r == full[..|r|]
    && !IsSpace(r[|r| - 1])
    && forall k :: |r| <= k < |full| ==> IsSpace(full[k])
  }

  /** Stripping a text that starts with two visible pieces removes only
      trailing whitespace, and never reaches into the first piece. */
  lemma StripAfterVisibleHead(head: string, body: string)
    requires head != [] && body != [] && !IsSpace(head[0]) && !IsSpace(body[0])
    ensures TrimmedEnd(head + body, Strip(head + body), |head|)
  {
    var full := head + body;
    assert full[0] == head[0] && full[|head|] == body[0];
    StripTrailingOnly(full, |head|);
  }

  /** A string of whitespace strips to nothing. */
  lemma StripBlank(s: string)
    requires forall k :: 0 <= k < |s| ==> IsSpace(s[k])
    ensures Strip(s) == []
  {
  }

  /** Python's `not s.strip()`: the text is empty or only whitespace. */
  predicate IsBlank(s: string) {
    Strip(s) == []
  }

  predicate IsAsciiUpper(c: char) { 'A' <= c <= 'Z' }

  predicate IsAsciiLower(c: char) { 'a' <= c <= 'z' }

  function LowerChar(c: char): (d: char)
    ensures IsAsciiUpper(c) ==> IsAsciiLower(d) && d as int == c as int + 32
    ensures !IsAsciiUpper(c) ==> d == c
  {
    if IsAsciiUpper(c) then (c as int + 32) as char else c
  }

  function UpperChar(c: char): (d: char)
    ensures IsAsciiLower(c) ==> IsAsciiUpper(d) && d as int == c as int - 32
    ensures !IsAsciiLower(c) ==> d == c
  {
    if IsAsciiLower(c) then (c as int - 32) as char else c
  }

  /** Python's `s.lower()` on the ASCII letters. */
  function Lower(s: string): (r: string)
    ensures |r| == |s|
    ensures forall k :: 0 <= k < |s| ==> r[k] == LowerChar(s[k])
  {
    seq(|s|, k requires 0 <= k < |s| => LowerChar(s[k]))
  }

  /** Python's `s.title()` on ASCII text: a letter is upper-cased when the
      code point before it is not a letter, lower-cased otherwise. */
  function Title(s: string): (r: string)
    ensures |r| == |s|
  {
    TitleAfter(s, false)
  }

  function TitleAfter(s: string, afterLetter: bool): (r: string)
    ensures |r| == |s|
    ensures |s| > 0 && !afterLetter ==> r[0] == UpperChar(s[0])
    ensures |s| > 0 && afterLetter ==> r[0] == LowerChar(s[0])
  {
    if s == [] then []
    else
      var c := s[0];
      var cased := IsAsciiUpper(c) || IsAsciiLower(c);
      [if afterLetter then LowerChar(c) else UpperChar(c)] + TitleAfter(s[1..], cased)
  }

  predicate StartsWith(s: string, prefix: string) {
    |prefix| <= |s| && s[..|prefix|] == prefix
  }

  /** Python's `pattern in s`. */
  predicate Contains(s: string, pattern: string)
    decreases |s|
  {
    StartsWith(s, pattern) || (|s| > 0 && Contains(s[1..], pattern))
  }

  /** The pattern occurs in `s` starting at offset `i`. */
  predicate OccursAt(s: string, pattern: string, i: int) {
    0 <= i <= |s| - |pattern| && s[i..i + |pattern|] == pattern
  }

  /** `Contains` holds exactly when the pattern occurs at some offset. */
  lemma {:induction false} ContainsIff(s: string, pattern: string)
    ensures Contains(s, pattern) <==> exists i :: OccursAt(s, pattern, i)
    decreases |s|
  {
    if StartsWith(s, pattern) {
      assert OccursAt(s, pattern, 0);
    }
    if |s| > 0 {
      ContainsIff(s[1..], pattern);
      if Contains(s[1..], pattern) {
        var i :| OccursAt(s[1..], pattern, i);
        assert s[i + 1..i + 1 + |pattern|] == s[1..][i..i + |pattern|];
        assert OccursAt(s, pattern, i + 1);
      }
      if exists i :: OccursAt(s, pattern, i) {
        var i :| OccursAt(s, pattern, i);
        if i > 0 {
          assert s[1..][i - 1..i - 1 + |pattern|] == s[i..i + |pattern|];
          assert OccursAt(s[1..], pattern, i - 1);
        }
      }
    } else if exists i :: OccursAt(s, pattern, i) {
      var i :| OccursAt(s, pattern, i);
      assert s[..|pattern|] == s[i..i + |pattern|];
    }
  }

  /** An occurrence inside the middle part is an occurrence of the whole. */
  lemma ContainsMiddle(a: string, b: string, c: string)
    ensures Contains(a + b + c, b)
  {
    var s := a + b + c;
    assert s[|a|..|a| + |b|] == b;
    assert OccursAt(s, b, |a|);
    ContainsIff(s, b);
  }

  /** Both parts slotted into a five-part text occur in it, and the text
      starts with its first part. */
  lemma ContainsBoth(a: string, x: string, b: string, y: string, c: string)
    ensures var s := a + x + b + y + c;
            Contains(s, x) && Contains(s, y) && |a| <= |s| && s[..|a|] == a
  {
    ContainsMiddle(a, x, b + y + c);
    ContainsMiddle(a + x + b, y, c);
    assert a + x + (b + y + c) == a + x + b + y + c;
  }

  /** Python's `s.replace(pattern, "")`: every non-overlapping occurrence of
      the pattern, scanning from the left, is deleted. */
  function Remove(s: string, pattern: string): (r: string)
    requires pattern != []
    ensures |r| <= |s|
    ensures !Contains(s, pattern) ==> r == s
    decreases |s|
  {
    if |s| < |pattern| then s
    else if s[..|pattern|] == pattern then Remove(s[|pattern|..], pattern)
    else [s[0]] + Remove(s[1..], pattern)
  }

  const Digits := "0123456789"

  function DigitChar(d: nat): (c: char)
    requires d < 10
    ensures '0' <= c <= '9' && c as int - '0' as int == d
  {
    Digits[d]
  }

  /** Python's `str(n)` for a natural number. */
  function NatToString(n: nat): (r: string)
    ensures |r| > 0
    ensures forall k :: 0 <= k < |r| ==> '0' <= r[k] <= '9'
    ensures n > 0 ==> r[0] != '0'
  {
    if n < 10 then [DigitChar(n)] else NatToString(n / 10) + [DigitChar(n % 10)]
  }

  /** Python's `str(n)` for an integer. */
  function IntToString(n: int): (r: string)
    ensures |r| > 0
    ensures n >= 0 <==> '0' <= r[0] <= '9'
    ensures n < 0 <==> r[0] == '-'
  {
    if n < 0 then "-" + NatToString(-n) else NatToString(n)
  }

  /** The value of a string of decimal digits. */
  function DigitsValue(s: string): (n: nat)
    requires forall k :: 0 <= k < |s| ==> '0' <= s[k] <= '9'
  {
    if s == [] then 0
    else DigitsValue(s[..|s| - 1]) * 10 + (s[|s| - 1] as int - '0' as int)
  }

  lemma {:induction false} DigitsValueOfNatToString(n: nat)
    ensures DigitsValue(NatToString(n)) == n
  {
    if n >= 10 {
      var r := NatToString(n);
      assert r[..|r| - 1] == NatToString(n / 10);
      DigitsValueOfNatToString(n / 10);
    }
  }

  /** `"\n".join(parts)` and the like. */
  function Join(parts: seq<string>, sep: string): (r: string)
    ensures |parts| > 0 && |parts[0]| > 0 ==> |r| > 0 && r[0] == parts[0][0]
  {
    if parts == [] then ""
    else if |parts| == 1 then parts[0]
    else parts[0] + sep + Join(parts[1..], sep)
  }

  /** Each part of a join appears in the joined text. */
  lemma {:induction false} JoinContains(parts: seq<string>, sep: string, k: nat)
    requires k < |parts|
    ensures Contains(Join(parts, sep), parts[k])
  {
    if |parts| == 1 {
      ContainsMiddle([], parts[0], []);
      assert [] + parts[0] + [] == parts[0];
    } else if k == 0 {
      ContainsMiddle([], parts[0], sep + Join(parts[1..], sep));
      assert [] + parts[0] + (sep + Join(parts[1..], sep)) == Join(parts, sep);
    } else {
      JoinContains(parts[1..], sep, k - 1);
      ContainsSuffix(parts[0] + sep, Join(parts[1..], sep), parts[k]);
    }
  }

  /** Cutting whitespace off the end of `head + body` keeps every piece
      contained in `body`, up to the piece's own trailing whitespace. */
  lemma TrimmedKeepsContained(head: string, body: string, r: string, piece: string)
    requires TrimmedEnd(head + body, r, |head|)
    requires Contains(body, piece)
    requires piece != [] && !IsSpace(piece[0])
    ensures Contains(r, Strip(piece))
  {
    var i := OccurrenceOf(body, piece);
    TrimmedPieceSurvives(head, body, r, piece, i);
    ContainsAt(r, Strip(piece), |head| + i);
  }

  /** Cutting whitespace off the end of `head + body` keeps every piece of
      `body`, at the same place, up to the piece's own trailing whitespace. */
  lemma TrimmedPieceSurvives(head: string, body: string, r: string, piece: string, i: int)
    requires TrimmedEnd(head + body, r, |head|)
    requires OccursAt(body, piece, i)
    requires piece != [] && !IsSpace(piece[0])
    ensures OccursAt(r, Strip(piece), |head| + i)
  {
    var full := head + body;
    OccursAfterHead(head, body, piece, i);
    var t := Strip(piece);
    StripVisibleStart(piece);
    OccursTrimmed(full, piece, t, |head| + i);
    VisibleEndInPrefix(full, r, t, |head| + i);
  }

  /** A text with a visible first character strips to a nonempty prefix of
      itself that ends with a visible character. */
  lemma StripVisibleStart(s: string)
    requires s != [] && !IsSpace(s[0])
    ensures var t := Strip(s); t != [] && |t| <= |s| && t == s[..|t|] && !IsSpace(t[|t| - 1])
  {
    StripTrailingOnly(s, 0);
  }

  /** A pattern that occurs at some offset is contained. */
  lemma ContainsAt(s: string, pattern: string, i: int)
    requires OccursAt(s, pattern, i)
    ensures Contains(s, pattern)
  {
    ContainsIff(s, pattern);
  }

  /** An offset at which a contained pattern occurs. */
  lemma OccurrenceOf(s: string, pattern: string) returns (i: int)
    requires Contains(s, pattern)
    ensures OccursAt(s, pattern, i)
  {
    ContainsIff(s, pattern);
    i :| OccursAt(s, pattern, i);
  }

  /** An occurrence in `body` is one in `head + body`, shifted by `head`. */
  lemma OccursAfterHead(head: string, body: string, piece: string, i: int)
    requires OccursAt(body, piece, i)
    ensures OccursAt(head + body, piece, |head| + i)
  {
    assert (head + body)[|head| + i..|head| + i + |piece|] == body[i..i + |piece|];
  }

  /** Where a piece occurs, so does each of its prefixes. */
  lemma OccursTrimmed(full: string, piece: string, t: string, p: int)
    requires OccursAt(full, piece, p)
    requires |t| <= |piece| && t == piece[..|t|]
    ensures 0 <= p && p + |t| <= |full| && full[p..p + |t|] == t
  {
    assert full[p..p + |t|] == full[p..p + |piece|][..|t|];
  }

  /** A piece that ends with a visible character and occurs in `full` also
      occurs in any prefix of `full` after which only whitespace follows. */
  lemma VisibleEndInPrefix(full: string, r: string, t: string, p: nat)
    requires |r| <= |full| && r == full[..|r|]
    requires forall k :: |r| <= k < |full| ==> IsSpace(full[k])
    requires t != [] && !IsSpace(t[|t| - 1])
    requires p + |t| <= |full| && full[p..p + |t|] == t
    ensures OccursAt(r, t, p)
  {
    assert full[p + |t| - 1] == t[|t| - 1];
    assert r[p..p + |t|] == full[p..p + |t|];
  }

  /** An occurrence in a prefix is an occurrence in the whole. */
  lemma ContainsPrefix(a: string, b: string, pattern: string)
    requires Contains(a, pattern)
    ensures Contains(a + b, pattern)
  {
    ContainsIff(a, pattern);
    var i :| OccursAt(a, pattern, i);
    assert (a + b)[i..i + |pattern|] == a[i..i + |pattern|];
    assert OccursAt(a + b, pattern, i);
    ContainsIff(a + b, pattern);
  }

  /** An occurrence in a suffix is an occurrence in the whole. */
  lemma {:induction false} ContainsSuffix(a: string, b: string, pattern: string)
    requires Contains(b, pattern)
    ensures Contains(a + b, pattern)
    decreases |a|
  {
    if |a| > 0 {
      ContainsSuffix(a[1..], b, pattern);
      assert (a + b)[1..] == a[1..] + b;
    } else {
      assert a + b == b;
    }
  }
}
