/**
 * The string operations the core relies on, stated for JavaScript's semantics:
 * the `\s` / `trim` whitespace set, ASCII lower-casing, `split` on a literal
 * separator, `join`, a global replace of a literal pattern, and decimal
 * rendering of a count inside a template literal; and cutting a string at
 * the first occurrence of a character.
 */
module Text {
  import opened Wrappers

  /** The four characters JavaScript treats as line terminators (`.` in a regular expression does not match them). */
  predicate IsLineTerminator(c: char) {
    c == '\n' || c == '\r' || c == '\U{2028}' || c == '\U{2029}'
  }

  /** JavaScript's WhiteSpace and LineTerminator set: what `\s` matches and what `trim` removes. */
  predicate IsWhitespace(c: char) {
    || IsLineTerminator(c)
    || c == '\t' || c == '\U{000B}' || c == '\U{000C}' || c == ' ' || c == '\U{00A0}'
    || c == '\U{1680}' || ('\U{2000}' <= c <= '\U{200A}')
    || c == '\U{202F}' || c == '\U{205F}' || c == '\U{3000}' || c == '\U{FEFF}'
  }

  predicate IsBlank(s: string) {
    forall i :: 0 <= i < |s| ==> IsWhitespace(s[i])
  }

  predicate HasLineTerminator(s: string) {
    exists i :: 0 <= i < |s| && IsLineTerminator(s[i])
  }

  predicate StartsWith(s: string, p: string) {
    |p| <= |s| && s[..|p|] == p
  }

  predicate EndsWith(s: string, p: string) {
    |p| <= |s| && s[|s| - |p|..] == p
  }

  /** `s` with its trailing whitespace removed: the longest prefix that does not end in whitespace. */
  function TrimEnd(s: string): (r: string)
    ensures |r| <= |s| && r == s[..|r|]
    ensures IsBlank(s[|r|..])
    ensures r == [] || !IsWhitespace(r[|r| - 1])
  {
    if s == [] || !IsWhitespace(s[|s| - 1]) then s else TrimEnd(s[..|s| - 1])
  }

  /** `s` with its leading whitespace removed. */
  function TrimStart(s: string): (r: string)
    ensures |r| <= |s| && r == s[|s| - |r|..]
    ensures IsBlank(s[..|s| - |r|])
    ensures r == [] || !IsWhitespace(r[0])
  {
    if s == [] || !IsWhitespace(s[0]) then s else TrimStart(s[1..])
  }

  /** JavaScript's `String.prototype.trim`; it is empty (falsy) exactly when `s` is all whitespace. */
  function Trim(s: string): (r: string)
    ensures r == [] <==> IsBlank(s)
  {
    var t := TrimEnd(s);
    assert s == t + s[|t|..];
    assert t == s[..|t|];
    TrimStart(t)
  }

  /** Removing a blank suffix and then trimming gives the same text as trimming the text without it. */
  lemma {:induction false} TrimEndBlankSuffix(x: string, ws: string)
    requires IsBlank(ws)
    requires x == [] || !IsWhitespace(x[|x| - 1])
    ensures TrimEnd(x + ws) == x
  {
    if ws != [] {
      var s := x + ws;
      assert s[..|s| - 1] == x + ws[..|ws| - 1];
      TrimEndBlankSuffix(x, ws[..|ws| - 1]);
    } else {
      assert x + ws == x;
    }
  }

  /** ASCII lower-casing of one character (other characters are left as they are). */
  function LowerChar(c: char): (r: char)
  {
    if 'A' <= c <= 'Z' then (c as int + 32) as char else c
  }

  /** `toLowerCase`, restricted to the ASCII letters. */
  function ToLower(s: string): (r: string)
    ensures |r| == |s|
    ensures forall i :: 0 <= i < |s| ==> r[i] == LowerChar(s[i])
  {
    if s == [] then [] else [LowerChar(s[0])] + ToLower(s[1..])
  }

  /** Lower-casing twice is lower-casing once. */
  lemma ToLowerIdempotent(s: string)
    ensures ToLower(ToLower(s)) == ToLower(s)
  {
    var once := ToLower(s);
    assert forall i :: 0 <= i < |s| ==> LowerChar(once[i]) == once[i];
  }

  /** `pat` occurs somewhere in `s`, found by scanning from the left. */
  predicate Occurs(pat: string, s: string)
    decreases |s|
  {
    StartsWith(s, pat) || (s != [] && Occurs(pat, s[1..]))
  }

  /** `pat` sits in `s` at position `i`. */
  predicate MatchesAt(pat: string, s: string, i: int) {
    0 <= i && i + |pat| <= |s| && s[i..i + |pat|] == pat
  }

  /** The scanning definition agrees with the positional one. */
  lemma {:induction false} OccursAt(pat: string, s: string)
    ensures Occurs(pat, s) <==> exists i :: MatchesAt(pat, s, i)
  {
    if StartsWith(s, pat) {
      assert MatchesAt(pat, s, 0);
    }
    if MatchesAt(pat, s, 0) {
      assert StartsWith(s, pat);
    }
    if s != [] {
      OccursAt(pat, s[1..]);
      forall j | 0 <= j ensures MatchesAt(pat, s[1..], j) == MatchesAt(pat, s, j + 1) {
        if j + 1 + |pat| <= |s| {
          assert s[1..][j..j + |pat|] == s[j + 1..j + 1 + |pat|];
        }
      }
      forall i | 0 < i ensures MatchesAt(pat, s, i) == MatchesAt(pat, s[1..], i - 1) {
        if i + |pat| <= |s| {
          assert s[1..][i - 1..i - 1 + |pat|] == s[i..i + |pat|];
        }
      }
    }
  }

  /** A pattern whose first character `s` never contains cannot occur in `s`. */
  lemma {:induction false} NoOccurrenceWithoutFirstChar(pat: string, s: string)
    requires pat != [] && pat[0] !in s
    ensures !Occurs(pat, s)
  {
    if s != [] {
      assert s[0] in s;
      assert forall c :: c in s[1..] ==> c in s;
      NoOccurrenceWithoutFirstChar(pat, s[1..]);
    }
  }

  /**
   * `pat` does not occur in `a + b` when it occurs in neither part and no
   * proper prefix of it ends `a` while the rest begins `b`.
   */
  lemma {:induction false} NoOccurrenceInConcat(pat: string, a: string, b: string)
    requires pat != [] && !Occurs(pat, a) && pat[0] !in b
    requires forall k :: 0 < k < |pat| ==> !(EndsWith(a, pat[..k]) && StartsWith(b, pat[k..]))
    ensures !Occurs(pat, a + b)
  {
    var s := a + b;
    if a == [] {
      assert s == b;
      NoOccurrenceWithoutFirstChar(pat, b);
    } else {
      assert !StartsWith(s, pat) by {
        if |a| >= |pat| {
          assert a[..|pat|] == s[..|pat|];
        } else {
          var k := |a|;
          assert s[..k] == a;
          assert EndsWith(a, pat[..k]) == (a == pat[..k]);
          if |pat| <= |s| {
            assert s[k..|pat|] == b[..|pat| - k];
            assert StartsWith(b, pat[k..]) == (b[..|pat| - k] == pat[k..]);
          }
        }
      }
      assert s[1..] == a[1..] + b;
      forall k | 0 < k < |pat|
        ensures !(EndsWith(a[1..], pat[..k]) && StartsWith(b, pat[k..]))
      {
        if EndsWith(a[1..], pat[..k]) {
          assert a[|a| - k..] == a[1..][|a[1..]| - k..];
        }
      }
      NoOccurrenceInConcat(pat, a[1..], b);
    }
  }

  /**
   * JavaScript's `s.split(sep)` for a non-empty literal separator: the text
   * between the occurrences of `sep`, found left to right without overlap.
   * There is always at least one piece (`"".split(sep)` is `[""]`).
   */
  function Split(s: string, sep: string): (r: seq<string>)
    requires sep != []
    ensures |r| >= 1
    decreases |s|
  {
    if |s| < |sep| then [s]
    else if s[..|sep|] == sep then [""] + Split(s[|sep|..], sep)
    else
      var rest := Split(s[1..], sep);
      [[s[0]] + rest[0]] + rest[1..]
  }

  /** JavaScript's `parts.join(sep)`. */
  function Join(parts: seq<string>, sep: string): string
  {
    if |parts| == 0 then ""
    else if |parts| == 1 then parts[0]
    else parts[0] + sep + Join(parts[1..], sep)
  }

  /** JavaScript's `s.replace(/pat/g, rep)` for a literal pattern and a replacement without `$` patterns. */
  function ReplaceAll(s: string, pat: string, rep: string): string
    requires pat != []
    decreases |s|
  {
    if |s| < |pat| then s
    else if s[..|pat|] == pat then rep + ReplaceAll(s[|pat|..], pat, rep)
    else [s[0]] + ReplaceAll(s[1..], pat, rep)
  }

  /** Putting a character in front of the first piece puts it in front of the joined text. */
  lemma JoinConsHead(c: char, pieces: seq<string>, sep: string)
    requires |pieces| >= 1
    ensures Join([[c] + pieces[0]] + pieces[1..], sep) == [c] + Join(pieces, sep)
  {
    var moved := [[c] + pieces[0]] + pieces[1..];
    if |pieces| > 1 {
      assert moved[1..] == pieces[1..];
    }
  }

  /** Joining the pieces of a split with the same separator gives back the text. */
  lemma {:induction false} JoinSplit(s: string, sep: string)
    requires sep != []
    ensures Join(Split(s, sep), sep) == s
  {
    if |s| < |sep| {
    } else if s[..|sep|] == sep {
      var rest := Split(s[|sep|..], sep);
      JoinSplit(s[|sep|..], sep);
      assert ([""] + rest)[1..] == rest;
      assert s == "" + sep + s[|sep|..];
    } else {
      var rest := Split(s[1..], sep);
      JoinSplit(s[1..], sep);
      JoinConsHead(s[0], rest, sep);
      assert s == [s[0]] + s[1..];
    }
  }

  /** The global replace is the split on the pattern joined with the replacement. */
  lemma {:induction false} ReplaceAllIsSplitJoin(s: string, pat: string, rep: string)
    requires pat != []
    ensures ReplaceAll(s, pat, rep) == Join(Split(s, pat), rep)
  {
    if |s| < |pat| {
    } else if s[..|pat|] == pat {
      var rest := Split(s[|pat|..], pat);
      ReplaceAllIsSplitJoin(s[|pat|..], pat, rep);
      assert ([""] + rest)[1..] == rest;
    } else {
      var rest := Split(s[1..], pat);
      ReplaceAllIsSplitJoin(s[1..], pat, rep);
      JoinConsHead(s[0], rest, rep);
    }
  }

  /** The first piece of a split is a prefix of the text. */
  lemma {:induction false} SplitHeadIsPrefix(s: string, sep: string)
    requires sep != []
    ensures StartsWith(s, Split(s, sep)[0])
  {
    if |s| < |sep| {
    } else if s[..|sep|] == sep {
    } else {
      SplitHeadIsPrefix(s[1..], sep);
      var rest := Split(s[1..], sep);
      assert s[1..][..|rest[0]|] == rest[0];
      assert ([s[0]] + rest[0]) == s[..1 + |rest[0]|];
    }
  }

  /** No piece of a split contains the separator: every occurrence was cut out. */
  lemma {:induction false} SplitPiecesAreFree(s: string, sep: string)
    requires sep != []
    ensures forall i :: 0 <= i < |Split(s, sep)| ==> !Occurs(sep, Split(s, sep)[i])
  {
    var r := Split(s, sep);
    if |s| < |sep| {
      ShortTextHasNoOccurrence(sep, s);
    } else if s[..|sep|] == sep {
      SplitPiecesAreFree(s[|sep|..], sep);
      var rest := Split(s[|sep|..], sep);
      assert r == [""] + rest;
      ShortTextHasNoOccurrence(sep, "");
      forall i | 0 <= i < |r| ensures !Occurs(sep, r[i]) {
        if i > 0 { assert r[i] == rest[i - 1]; }
      }
    } else {
      SplitPiecesAreFree(s[1..], sep);
      var rest := Split(s[1..], sep);
      var head := [s[0]] + rest[0];
      assert r == [head] + rest[1..];
      assert !Occurs(sep, head) by {
        SplitHeadIsPrefix(s[1..], sep);
        assert head == s[..|head|];
        assert forall m :: 0 <= m <= |head| ==> head[..m] == s[..m];
        assert head[1..] == rest[0];
      }
      forall i | 0 <= i < |r| ensures !Occurs(sep, r[i]) {
        if i > 0 { assert r[i] == rest[i]; }
      }
    }
  }

  lemma {:induction false} ShortTextHasNoOccurrence(pat: string, s: string)
    requires |s| < |pat|
    ensures !Occurs(pat, s)
  {
    if s != [] {
      ShortTextHasNoOccurrence(pat, s[1..]);
    }
  }

  /** Text without the separator splits into itself alone. */
  lemma {:induction false} SplitFree(p: string, sep: string)
    requires sep != [] && !Occurs(sep, p)
    ensures Split(p, sep) == [p]
  {
    if |p| >= |sep| {
      assert p[..|sep|] != sep;
      SplitFree(p[1..], sep);
      assert p == [p[0]] + p[1..];
    }
  }

  /** No proper suffix of `sep` is also a prefix of it, so two occurrences can never overlap. */
  predicate Unbordered(sep: string) {
    forall k :: 0 < k < |sep| ==> sep[k..] != sep[..|sep| - k]
  }

  /** A free piece followed by the separator is cut off as the first piece. */
  lemma {:induction false} SplitConcat(p: string, sep: string, rest: string)
    requires sep != [] && Unbordered(sep) && !Occurs(sep, p)
    ensures Split(p + sep + rest, sep) == [p] + Split(rest, sep)
  {
    var s := p + sep + rest;
    if p == [] {
      assert s[..|sep|] == sep;
      assert s[|sep|..] == rest;
    } else {
      assert s[..|sep|] != sep by {
        if |p| >= |sep| {
          assert s[..|sep|] == p[..|sep|];
        } else {
          var k := |sep| - |p|;
          assert s[..|p|] == p;
          assert s[|p|..|sep|] == sep[..k];
          assert sep[|p|..] != sep[..k];
        }
      }
      assert s[1..] == p[1..] + sep + rest;
      SplitConcat(p[1..], sep, rest);
      assert [s[0]] + p[1..] == p;
    }
  }

  /** Splitting joined pieces gives the pieces back, when none contains the separator. */
  lemma {:induction false} SplitJoin(parts: seq<string>, sep: string)
    requires sep != [] && Unbordered(sep) && |parts| >= 1
    requires forall i :: 0 <= i < |parts| ==> !Occurs(sep, parts[i])
    ensures Split(Join(parts, sep), sep) == parts
  {
    if |parts| == 1 {
      SplitFree(parts[0], sep);
    } else {
      SplitJoin(parts[1..], sep);
      SplitConcat(parts[0], sep, Join(parts[1..], sep));
      assert parts == [parts[0]] + parts[1..];
    }
  }

  /** A text that starts after the global replace with `q` already started with `q`, when `q` lacks the replacement's first character. */
  lemma {:induction false} ReplaceAllKeepsPrefix(s: string, pat: string, rep: string, q: string)
    requires pat != [] && rep != [] && rep[0] !in q
    requires StartsWith(ReplaceAll(s, pat, rep), q)
    ensures StartsWith(s, q)
  {
    if q != [] && |s| >= |pat| {
      assert s[..|pat|] != pat by {
        assert s[..|pat|] == pat ==> ReplaceAll(s, pat, rep) == rep + ReplaceAll(s[|pat|..], pat, rep);
        assert ReplaceAll(s, pat, rep)[0] == q[0];
        assert q[0] in q;
      }
      var tail := ReplaceAll(s[1..], pat, rep);
      assert ReplaceAll(s, pat, rep) == [s[0]] + tail;
      assert forall c :: c in q[1..] ==> c in q;
      assert tail[..|q| - 1] == q[1..];
      ReplaceAllKeepsPrefix(s[1..], pat, rep, q[1..]);
      assert s[..|q|] == [s[0]] + s[1..][..|q| - 1];
    }
  }

  /** A prefix without the pattern's first character cannot create an occurrence. */
  lemma {:induction false} NoOccurrenceAfterFreePrefix(pat: string, w: string, t: string)
    requires pat != [] && pat[0] !in w && !Occurs(pat, t)
    ensures !Occurs(pat, w + t)
  {
    if w != [] {
      assert (w + t)[0] == w[0];
      assert w[0] in w;
      assert (w + t)[1..] == w[1..] + t;
      assert forall c :: c in w[1..] ==> c in w;
      NoOccurrenceAfterFreePrefix(pat, w[1..], t);
    } else {
      assert w + t == t;
    }
  }

  /** Two texts without the pattern cannot create it when the second starts with a character the pattern lacks. */
  lemma {:induction false} NoOccurrenceBeforeFreeChar(pat: string, a: string, b: string)
    requires pat != [] && !Occurs(pat, a) && !Occurs(pat, b)
    requires b != [] && b[0] !in pat
    ensures !Occurs(pat, a + b)
  {
    if a == [] {
      assert a + b == b;
    } else {
      var s := a + b;
      assert |pat| <= |a| ==> s[..|pat|] == a[..|pat|];
      assert |pat| > |a| && |pat| <= |s| ==> s[..|pat|][|a|] == b[0] && pat[|a|] in pat;
      assert s[1..] == a[1..] + b;
      NoOccurrenceBeforeFreeChar(pat, a[1..], b);
    }
  }

  /**
   * After the global replace the pattern is gone, provided the replacement
   * cannot rebuild it: it lacks the pattern's first character, and its own
   * first character appears nowhere else in the pattern.
   */
  lemma {:induction false} ReplaceAllRemovesPattern(s: string, pat: string, rep: string)
    requires pat != [] && rep != []
    requires pat[0] !in rep && rep[0] !in pat[1..]
    ensures !Occurs(pat, ReplaceAll(s, pat, rep))
  {
    if |s| < |pat| {
      ShortTextHasNoOccurrence(pat, s);
    } else if s[..|pat|] == pat {
      ReplaceAllRemovesPattern(s[|pat|..], pat, rep);
      NoOccurrenceAfterFreePrefix(pat, rep, ReplaceAll(s[|pat|..], pat, rep));
    } else {
      var tail := ReplaceAll(s[1..], pat, rep);
      ReplaceAllRemovesPattern(s[1..], pat, rep);
      var out := [s[0]] + tail;
      assert StartsWith(out, pat) ==> tail[..|pat| - 1] == pat[1..] && s[0] == pat[0];
      assert s[..|pat|] == [s[0]] + s[1..][..|pat| - 1];
      if StartsWith(out, pat) {
        ReplaceAllKeepsPrefix(s[1..], pat, rep, pat[1..]);
      }
      assert out[1..] == tail;
    }
  }

  /** Text without the pattern is left unchanged by the global replace. */
  lemma {:induction false} ReplaceAllOfFreeText(s: string, pat: string, rep: string)
    requires pat != [] && !Occurs(pat, s)
    ensures ReplaceAll(s, pat, rep) == s
  {
    if |s| >= |pat| {
      ReplaceAllOfFreeText(s[1..], pat, rep);
      assert s == [s[0]] + s[1..];
    }
  }

  /** The part of `s` before the first `c` (all of `s` when there is none). */
  function BeforeFirst(s: string, c: char): (r: string)
    ensures |r| <= |s| && r == s[..|r|] && c !in r
    ensures |r| < |s| ==> s[|r|] == c
  {
    if s == [] then []
    else if s[0] == c then []
    else
      var tail := BeforeFirst(s[1..], c);
      assert s[..|tail| + 1] == [s[0]] + s[1..][..|tail|];
      [s[0]] + tail
  }

  /** The part of `s` after the first `c`, if `s` holds one. */
  function AfterFirst(s: string, c: char): (r: Option<string>)
    ensures r.None? <==> c !in s
    ensures r.Some? ==> s == BeforeFirst(s, c) + [c] + r.value
  {
    if s == [] then None
    else if s[0] == c then Some(s[1..])
    else
      var r := AfterFirst(s[1..], c);
      assert s == [s[0]] + s[1..];
      r
  }

  lemma {:induction false} BeforeFirstAbsent(s: string, c: char)
    requires c !in s
    ensures BeforeFirst(s, c) == s
  {
    if s != [] {
      assert s[0] in s;
      assert forall x :: x in s[1..] ==> x in s;
      BeforeFirstAbsent(s[1..], c);
      assert s == [s[0]] + s[1..];
    }
  }

  lemma {:induction false} BeforeFirstSplit(a: string, c: char, b: string)
    requires c !in a
    ensures BeforeFirst(a + [c] + b, c) == a
    ensures AfterFirst(a + [c] + b, c) == Some(b)
  {
    var s := a + [c] + b;
    if a != [] {
      assert a[0] in a;
      assert forall x :: x in a[1..] ==> x in a;
      assert s[0] == a[0];
      assert s[1..] == a[1..] + [c] + b;
      BeforeFirstSplit(a[1..], c, b);
      assert a == [a[0]] + a[1..];
    } else {
      assert s[0] == c;
      assert s[1..] == b;
    }
  }

  /** The decimal rendering of a natural number, as a template literal prints it. */
  function Decimal(n: nat): (r: string)
    ensures |r| >= 1
    ensures forall i :: 0 <= i < |r| ==> '0' <= r[i] <= '9'
    ensures |r| > 1 ==> r[0] != '0'
  {
    if n < 10 then [Digit(n)] else Decimal(n / 10) + [Digit(n % 10)]
  }

  function Digit(d: nat): (c: char)
    requires d < 10
    ensures '0' <= c <= '9'
  {
    ('0' as int + d) as char
  }

  /** The number a string of decimal digits denotes: the inverse of `Decimal`. */
  function DecimalValue(s: string): nat
    requires forall i :: 0 <= i < |s| ==> '0' <= s[i] <= '9'
  {
    if s == [] then 0 else DecimalValue(s[..|s| - 1]) * 10 + (s[|s| - 1] as int - '0' as int)
  }

  /** Reading back the printed count gives the count. */
  lemma {:induction false} DecimalRoundTrip(n: nat)
    ensures DecimalValue(Decimal(n)) == n
  {
    if n >= 10 {
      DecimalRoundTrip(n / 10);
      var r := Decimal(n);
      assert r[..|r| - 1] == Decimal(n / 10);
    }
  }
}
