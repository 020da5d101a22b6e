/** JavaScript string operations the program uses, on strings as sequences of
    characters: `toLowerCase` (ASCII), `includes`, `startsWith`, `trim`,
    `slice`, `join` and the decimal `toString` of an integer. */
module Text {

  // ---------------------------------------------------------------------------
  // Case

  predicate IsUpper(c: char) { 'A' <= c <= 'Z' }

  function LowerChar(c: char): char {
    if IsUpper(c) then (c as int + 32) as char else c
  }

  /** ASCII `toLowerCase`: every upper-case letter mapped to its lower-case
      counterpart, every other character unchanged. */
  function Lower(s: string): (r: string)
    ensures |r| == |s|
    ensures forall i :: 0 <= i < |s| ==> r[i] == LowerChar(s[i])
    ensures forall i :: 0 <= i < |r| ==> !IsUpper(r[i])
  {
    if |s| == 0 then "" else [LowerChar(s[0])] + Lower(s[1..])
  }

  /** Lower-casing twice is lower-casing once. */
  lemma LowerIdempotent(s: string)
    ensures Lower(Lower(s)) == Lower(s)
  {
    assert forall i :: 0 <= i < |s| ==> LowerChar(Lower(s)[i]) == Lower(s)[i];
  }

  /** Lower-casing works character by character, so it distributes over `+`. */
  lemma LowerConcat(a: string, b: string)
    ensures Lower(a + b) == Lower(a) + Lower(b)
  {
    assert forall i :: 0 <= i < |a + b| ==> Lower(a + b)[i] == (Lower(a) + Lower(b))[i];
  }

  // ---------------------------------------------------------------------------
  // Substrings

  predicate StartsWith(s: string, prefix: string) {
    |prefix| <= |s| && s[..|prefix|] == prefix
  }

  predicate EndsWith(s: string, suffix: string) {
    |suffix| <= |s| && s[|s| - |suffix|..] == suffix
  }

  /** `sub` occurs in `s` starting at index `i`. */
  predicate OccursAt(s: string, sub: string, i: int) {
    0 <= i && i + |sub| <= |s| && s[i..i + |sub|] == sub
  }

  /** `s.includes(sub)`. */
  predicate Contains(s: string, sub: string) {
    exists i | 0 <= i <= |s| :: OccursAt(s, sub, i)
  }

  /** A text is what comes before an occurrence, the occurrence, and what
      comes after it. */
  lemma OccurrenceSplits(s: string, sub: string, i: int) returns (before: string, after: string)
    requires OccursAt(s, sub, i)
    ensures s == before + sub + after && |before| == i
  {
    before, after := s[..i], s[i + |sub|..];
    var rest := s[i..];
    assert rest == sub + after by {
      assert rest[..|sub|] == sub;
      assert rest == rest[..|sub|] + rest[|sub|..];
    }
    assert s == before + rest;
  }

  /** An occurrence in `t` is an occurrence in any text that embeds `t`. */
  lemma OccursAtShift(p: string, t: string, q: string, sub: string, i: int)
    requires OccursAt(t, sub, i)
    ensures OccursAt(p + t + q, sub, |p| + i)
  {
    assert (p + t + q)[|p| + i..|p| + i + |sub|] == t[i..i + |sub|];
  }

  /** An occurrence survives appending text after it. */
  lemma OccursAtAppend(s: string, t: string, sub: string, i: int)
    requires OccursAt(s, sub, i)
    ensures OccursAt(s + t, sub, i)
  {
    assert (s + t)[i..i + |sub|] == s[i..i + |sub|];
  }

  /** An occurrence moves right by the length of text put in front of it. */
  lemma OccursAtPrepend(p: string, s: string, sub: string, i: int)
    requires OccursAt(s, sub, i)
    ensures OccursAt(p + s, sub, |p| + i)
  {
    assert (p + s)[|p| + i..|p| + i + |sub|] == s[i..i + |sub|];
  }

  /** A prefix of a prefix is a prefix. */
  lemma StartsWithTrans(s: string, a: string, b: string)
    requires StartsWith(s, a) && StartsWith(a, b)
    ensures StartsWith(s, b)
  {
    assert s[..|b|] == a[..|a|][..|b|];
  }

  /** A prefix stays a prefix when text is appended. */
  lemma StartsWithAppend(s: string, t: string, prefix: string)
    requires StartsWith(s, prefix)
    ensures StartsWith(s + t, prefix)
  {
    assert (s + t)[..|prefix|] == s[..|prefix|];
  }

  /** An occurrence inside an occurrence is an occurrence. */
  lemma OccursWithin(s: string, t: string, i: int, sub: string, k: int)
    requires OccursAt(s, t, i) && OccursAt(t, sub, k)
    ensures OccursAt(s, sub, i + k)
  {
    assert forall m :: 0 <= m < |t| ==> s[i + m] == s[i..i + |t|][m] == t[m];
    assert forall m :: 0 <= m < |sub| ==> sub[m] == t[k..k + |sub|][m] == t[k + m];
    assert s[i + k..i + k + |sub|] == sub;
  }

  /** A suffix stays a suffix when text is put in front. */
  lemma EndsWithPrepend(p: string, s: string, suffix: string)
    requires EndsWith(s, suffix)
    ensures EndsWith(p + s, suffix)
  {
    assert (p + s)[|p + s| - |suffix|..] == s[|s| - |suffix|..];
  }

  /** A suffix of a suffix is a suffix. */
  lemma EndsWithTrans(s: string, a: string, b: string)
    requires EndsWith(s, a) && EndsWith(a, b)
    ensures EndsWith(s, b)
  {
    assert s[|s| - |b|..] == s[|s| - |a|..][|a| - |b|..];
  }

  /** An occurrence in `t` is an occurrence in any text that embeds `t`. */
  lemma ContainsEmbedded(p: string, t: string, q: string, sub: string)
    requires Contains(t, sub)
    ensures Contains(p + t + q, sub)
  {
    var i :| 0 <= i <= |t| && OccursAt(t, sub, i);
    OccursAtShift(p, t, q, sub, i);
  }

  lemma StartsWithOccurs(s: string, prefix: string)
    requires StartsWith(s, prefix)
    ensures OccursAt(s, prefix, 0) && Contains(s, prefix)
  {
    assert OccursAt(s, prefix, 0);
  }

  // ---------------------------------------------------------------------------
  // Whitespace and trim

  /** The characters of ECMAScript's WhiteSpace and LineTerminator productions:
      what `String.prototype.trim` removes and what the regular-expression
      class `\s` matches. */
  predicate IsWhitespace(c: char) {
    c == '\t' || c == '\n' || c == '\U{000B}' || c == '\U{000C}' || c == '\r' || c == ' '
    || c == '\U{00A0}' || c == '\U{1680}' || ('\U{2000}' <= c <= '\U{200A}')
    || c == '\U{2028}' || c == '\U{2029}' || c == '\U{202F}' || c == '\U{205F}'
    || c == '\U{3000}' || c == '\U{FEFF}'
  }

  predicate AllWhitespace(s: string) {
    forall i :: 0 <= i < |s| ==> IsWhitespace(s[i])
  }

  function TrimStart(s: string): (r: string)
    ensures |r| <= |s| && r == s[|s| - |r|..]
    ensures r == "" || !IsWhitespace(r[0])
    ensures AllWhitespace(s[..|s| - |r|])
  {
    if |s| > 0 && IsWhitespace(s[0]) then
      var r := TrimStart(s[1..]);
      assert s[..|s| - |r|] == [s[0]] + s[1..][..|s[1..]| - |r|];
      r
    else s
  }

  function TrimEnd(s: string): (r: string)
    ensures |r| <= |s| && r == s[..|r|]
    ensures r == "" || !IsWhitespace(r[|r| - 1])
    ensures AllWhitespace(s[|r|..])
  {
    if |s| > 0 && IsWhitespace(s[|s| - 1]) then
      var r := TrimEnd(s[..|s| - 1]);
      assert s[|r|..] == s[..|s| - 1][|r|..] + [s[|s| - 1]];
      r
    else s
  }

  /** `s.trim()`: the text with every leading and trailing whitespace
      character removed. */
  function Trim(s: string): (r: string)
    ensures |r| <= |s| && OccursAt(s, r, |s| - |TrimStart(s)|)
    ensures r == "" || (!IsWhitespace(r[0]) && !IsWhitespace(r[|r| - 1]))
  {
    var t := TrimStart(s);
    var r := TrimEnd(t);
    assert r == "" ==> true;
    assert r != "" ==> r[0] == t[0];
    r
  }

  /** The trimmed text sits between what was trimmed off each end. */
  lemma TrimWithin(s: string) returns (before: string, after: string)
    ensures s == before + Trim(s) + after
  {
    before, after := OccurrenceSplits(s, Trim(s), |s| - |TrimStart(s)|);
  }

  lemma {:induction false} TrimStartAfterWhitespace(w: string, x: string)
    requires AllWhitespace(w)
    ensures TrimStart(w + x) == TrimStart(x)
  {
    if |w| > 0 {
      assert (w + x)[1..] == w[1..] + x;
      TrimStartAfterWhitespace(w[1..], x);
    } else {
      assert w + x == x;
    }
  }

  lemma {:induction false} TrimEndBeforeWhitespace(x: string, w: string)
    requires AllWhitespace(w)
    ensures TrimEnd(x + w) == TrimEnd(x)
  {
    if |w| > 0 {
      assert (x + w)[..|x + w| - 1] == x + w[..|w| - 1];
      TrimEndBeforeWhitespace(x, w[..|w| - 1]);
    } else {
      assert x + w == x;
    }
  }

  lemma {:induction false} TrimStartKeepsTail(a: string, w: string)
    requires !AllWhitespace(a)
    ensures TrimStart(a + w) == TrimStart(a) + w
  {
    if IsWhitespace(a[0]) {
      assert (a + w)[1..] == a[1..] + w;
      TrimStartKeepsTail(a[1..], w);
    }
  }

  lemma {:induction false} TrimAllWhitespace(s: string)
    requires AllWhitespace(s)
    ensures TrimStart(s) == "" && Trim(s) == ""
  {
    if |s| > 0 {
      TrimAllWhitespace(s[1..]);
    }
  }

  /** Surrounding whitespace never changes the result of `trim`. */
  lemma TrimIgnoresSurroundingWhitespace(w: string, a: string, w': string)
    requires AllWhitespace(w) && AllWhitespace(w')
    ensures Trim(w + a + w') == Trim(a)
  {
    assert w + a + w' == w + (a + w');
    TrimStartAfterWhitespace(w, a + w');
    if AllWhitespace(a) {
      assert AllWhitespace(a + w');
      TrimAllWhitespace(a + w');
      TrimAllWhitespace(a);
    } else {
      TrimStartKeepsTail(a, w');
      TrimEndBeforeWhitespace(TrimStart(a), w');
    }
  }

  /** No whitespace character is an upper-case letter, and lower-casing
      never turns a letter into whitespace. */
  lemma LowerCharWhitespace(c: char)
    ensures IsWhitespace(LowerChar(c)) == IsWhitespace(c)
  {
    if IsUpper(c) {
      assert 'a' <= LowerChar(c) <= 'z';
    }
  }

  lemma {:induction false} TrimStartLower(s: string)
    ensures TrimStart(Lower(s)) == Lower(TrimStart(s))
  {
    if |s| > 0 {
      LowerCharWhitespace(s[0]);
      assert Lower(s)[0] == LowerChar(s[0]);
      if IsWhitespace(s[0]) {
        assert Lower(s)[1..] == Lower(s[1..]);
        TrimStartLower(s[1..]);
      }
    }
  }

  lemma {:induction false} TrimEndLower(s: string)
    ensures TrimEnd(Lower(s)) == Lower(TrimEnd(s))
  {
    if |s| > 0 {
      LowerCharWhitespace(s[|s| - 1]);
      assert Lower(s)[|s| - 1] == LowerChar(s[|s| - 1]);
      if IsWhitespace(s[|s| - 1]) {
        assert Lower(s)[..|s| - 1] == Lower(s[..|s| - 1]);
        TrimEndLower(s[..|s| - 1]);
      }
    }
  }

  /** Lower-casing and trimming commute: no whitespace character is a letter. */
  lemma TrimLower(s: string)
    ensures Trim(Lower(s)) == Lower(Trim(s))
  {
    TrimStartLower(s);
    TrimEndLower(TrimStart(s));
  }

  // ---------------------------------------------------------------------------
  // Slicing

  /** Concatenation groups either way. */
  lemma AppendAssoc(a: string, b: string, c: string)
    ensures (a + b) + c == a + (b + c)
  {
  }

  /** `s.slice(0, n)`: at most the first `n` characters. */
  function Take(s: string, n: nat): (r: string)
    ensures |r| == if |s| <= n then |s| else n
    ensures StartsWith(s, r)
  {
    if |s| <= n then s else s[..n]
  }

  /** `s.slice(-n)` for a positive `n`: at most the last `n` characters. */
  function TakeLast(s: string, n: nat): (r: string)
    requires n > 0
    ensures |r| == if |s| <= n then |s| else n
    ensures EndsWith(s, r)
  {
    if |s| <= n then s else s[|s| - n..]
  }

  // ---------------------------------------------------------------------------
  // join

  /** `xs.join(sep)`. */
  function Join(xs: seq<string>, sep: string): string {
    if |xs| == 0 then ""
    else if |xs| == 1 then xs[0]
    else xs[0] + sep + Join(xs[1..], sep)
  }

  /** Where item `i` starts in `Join(xs, sep)`: after every earlier item and
      its separator. */
  function JoinOffset(xs: seq<string>, sep: string, i: nat): nat
    requires i <= |xs|
  {
    if i == 0 then 0 else |xs[0]| + |sep| + JoinOffset(xs[1..], sep, i - 1)
  }

  /** Each item appears in the joined text at its offset, the offsets grow
      with the index (so the items appear in order), and the last one ends
      the text. */
  lemma {:induction false} JoinAt(xs: seq<string>, sep: string, i: nat)
    requires i < |xs|
    ensures OccursAt(Join(xs, sep), xs[i], JoinOffset(xs, sep, i))
    ensures i + 1 < |xs| ==> JoinOffset(xs, sep, i) + |xs[i]| + |sep| == JoinOffset(xs, sep, i + 1)
    ensures JoinOffset(xs, sep, i) + |xs[i]| <= |Join(xs, sep)|
  {
    if i == 0 {
      if |xs| > 1 {
        var rest := sep + Join(xs[1..], sep);
        assert Join(xs, sep) == xs[0] + rest;
        assert (xs[0] + rest)[..|xs[0]|] == xs[0];
      } else {
        assert OccursAt(xs[0], xs[0], 0);
      }
    } else {
      var tail := xs[1..];
      assert tail[i - 1] == xs[i];
      JoinAt(tail, sep, i - 1);
      OccursAtPrepend(xs[0] + sep, Join(tail, sep), xs[i], JoinOffset(tail, sep, i - 1));
    }
  }

  /** A joined list opens with its first item and closes with its last. */
  lemma {:induction false} JoinEnds(xs: seq<string>, sep: string)
    requires |xs| > 0
    ensures StartsWith(Join(xs, sep), xs[0]) && EndsWith(Join(xs, sep), xs[|xs| - 1])
  {
    if |xs| > 1 {
      JoinEnds(xs[1..], sep);
      var rest := Join(xs[1..], sep);
      assert Join(xs, sep) == xs[0] + (sep + rest);
      assert (xs[0] + (sep + rest))[..|xs[0]|] == xs[0];
      assert Join(xs, sep)[|Join(xs, sep)| - |xs[|xs| - 1]|..] == rest[|rest| - |xs[|xs| - 1]|..];
    }
  }

  /** An occurrence inside item `i` is an occurrence in the joined text,
      shifted by the item's offset. */
  lemma OccursInJoin(xs: seq<string>, sep: string, i: nat, sub: string, k: int)
    requires i < |xs| && OccursAt(xs[i], sub, k)
    ensures OccursAt(Join(xs, sep), sub, JoinOffset(xs, sep, i) + k)
  {
    JoinAt(xs, sep, i);
    OccursWithin(Join(xs, sep), xs[i], JoinOffset(xs, sep, i), sub, k);
  }

  /** `sub` occurs in `p + sub + q` right after `p`. */
  lemma OccursBetween(p: string, sub: string, q: string)
    ensures OccursAt(p + sub + q, sub, |p|)
  {
    assert OccursAt(sub, sub, 0);
    OccursAtShift(p, sub, q, sub, 0);
  }

  /** Trimming a text framed by line breaks whose own ends are not blank
      gives back that text: the effect of `.trim()` on the program's
      multi-line template literals. */
  lemma TrimNewlineFramed(body: string)
    requires |body| > 0 && !IsWhitespace(body[0]) && !IsWhitespace(body[|body| - 1])
    ensures Trim("\n" + body + "\n") == body
  {
    assert AllWhitespace("\n") by { assert IsWhitespace('\n'); }
    TrimIgnoresSurroundingWhitespace("\n", body, "\n");
    assert TrimStart(body) == body;
    assert TrimEnd(body) == body;
  }


  /** A template literal's `.trim()` removes just its framing line breaks
      when its first and last lines start and end with visible text. */
  lemma TrimmedTemplate(lines: seq<string>)
    requires |lines| > 0 && |lines[0]| > 0 && |lines[|lines| - 1]| > 0
    requires !IsWhitespace(lines[0][0])
    requires !IsWhitespace(lines[|lines| - 1][|lines[|lines| - 1]| - 1])
    ensures Trim("\n" + Join(lines, "\n") + "\n") == Join(lines, "\n")
    ensures StartsWith(Join(lines, "\n"), lines[0])
  {
    var body := Join(lines, "\n");
    var last := lines[|lines| - 1];
    JoinEnds(lines, "\n");
    assert body[0] == lines[0][0];
    assert body[|body| - 1] == last[|last| - 1];
    TrimNewlineFramed(body);
  }

  // ---------------------------------------------------------------------------
  // Decimal integers

  function DigitChar(d: nat): (c: char)
    requires d < 10
  {
    ('0' as int + d) as char
  }

  predicate IsDigit(c: char) { '0' <= c <= '9' }

  /** The decimal digits of `n`, without leading zeros (JavaScript's
      `n.toString()` for a non-negative integer). */
  function NatToString(n: nat): (r: string)
    ensures |r| > 0
    ensures forall i :: 0 <= i < |r| ==> IsDigit(r[i])
  {
    if n < 10 then [DigitChar(n)] else NatToString(n / 10) + [DigitChar(n % 10)]
  }

  /** `i.toString()` for an integer: a minus sign before the digits of a
      negative value. */
  function IntToString(i: int): (r: string)
    ensures |r| > 0
    ensures (r[0] == '-') <==> i < 0
  {
    if i < 0 then "-" + NatToString(-i) else NatToString(i)
  }

  /** The value of a string of decimal digits. */
  function DigitsValue(s: string): nat
    requires forall i :: 0 <= i < |s| ==> IsDigit(s[i])
  {
    if |s| == 0 then 0
    else
      assert IsDigit(s[|s| - 1]);
      10 * DigitsValue(s[..|s| - 1]) + (s[|s| - 1] as int - '0' as int)
  }

  /** Reading back the digits of `n` gives `n`. */
  lemma {:induction false} NatToStringRoundTrip(n: nat)
    ensures DigitsValue(NatToString(n)) == n
  {
    if n >= 10 {
      var s := NatToString(n);
      assert s[..|s| - 1] == NatToString(n / 10);
      NatToStringRoundTrip(n / 10);
    }
  }

  /** Distinct integers print differently. */
  lemma IntToStringInjective(a: int, b: int)
    requires IntToString(a) == IntToString(b)
    ensures a == b
  {
    if a < 0 {
      assert IntToString(a)[1..] == NatToString(-a);
      assert IntToString(b)[1..] == NatToString(-b);
      NatToStringRoundTrip(-a);
      NatToStringRoundTrip(-b);
    } else {
      NatToStringRoundTrip(a);
      NatToStringRoundTrip(b);
    }
  }
}
