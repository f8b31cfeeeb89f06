/**
 * Python string helpers used by the statement splitter and the schema text:
 * `str.strip()`, `str.split(sep)` for a one-character separator and `sep.join(parts)`.
 */
module Text {

  /** The characters for which Python's `str.isspace()` holds, i.e. what `str.strip()` removes. */
  predicate IsSpace(c: char) {
    || c == ' ' || c == '\t' || c == '\n' || c == '\r'
    || c == '\U{000B}' || c == '\U{000C}'
    || ('\U{001C}' <= c <= '\U{001F}')
    || c == '\U{0085}' || c == '\U{00A0}' || c == '\U{1680}'
    || ('\U{2000}' <= c <= '\U{200A}')
    || c == '\U{2028}' || c == '\U{2029}' || c == '\U{202F}' || c == '\U{205F}' || c == '\U{3000}'
  }

  predicate AllSpace(s: string) {
    forall i :: 0 <= i < |s| ==> IsSpace(s[i])
  }

  /** Number of whitespace characters at the start of `s`. */
  function LeadingSpaces(s: string): (n: nat)
    ensures n <= |s|
    ensures forall i :: 0 <= i < n ==> IsSpace(s[i])
    ensures n < |s| ==> !IsSpace(s[n])
  {
    if s == [] || !IsSpace(s[0]) then 0 else 1 + LeadingSpaces(s[1..])
  }

  /** Number of whitespace characters at the end of `s`. */
  function TrailingSpaces(s: string): (n: nat)
    ensures n <= |s|
    ensures forall i :: |s| - n <= i < |s| ==> IsSpace(s[i])
    ensures n < |s| ==> !IsSpace(s[|s| - n - 1])
  {
    if s == [] || !IsSpace(s[|s| - 1]) then 0 else 1 + TrailingSpaces(s[..|s| - 1])
  }

  /** Python's `s.strip()`. */
  function Strip(s: string): string {
    var t := s[LeadingSpaces(s)..];
    t[..|t| - TrailingSpaces(t)]
  }

  /**
   * What `strip` removes: the result is the slice of `s` from its first to its last
   * non-whitespace character, and everything around that slice is whitespace.
   */
  lemma StripSpec(s: string)
    ensures var r := Strip(s); var a := LeadingSpaces(s);
            && a + |r| <= |s|
            && r == s[a..a + |r|]
            && (forall i :: 0 <= i < |s| && !(a <= i < a + |r|) ==> IsSpace(s[i]))
            && (r != [] ==> !IsSpace(r[0]) && !IsSpace(r[|r| - 1]))
            && (r == [] <==> AllSpace(s))
  {
    StripSlice(s);
    StripAround(s);
    StripEnds(s);
    StripEmpty(s);
  }

  /** The stripped string is the slice of `s` that starts after the leading whitespace. */
  lemma StripSlice(s: string)
    ensures var r := Strip(s); var a := LeadingSpaces(s);
            a + |r| <= |s| && r == s[a..a + |r|]
  {
    var a := LeadingSpaces(s);
    var t := s[a..];
    assert t[..|t| - TrailingSpaces(t)] == s[a..a + |t| - TrailingSpaces(t)];
  }

  /** Everything outside the stripped slice is whitespace. */
  lemma StripAround(s: string)
    ensures var r := Strip(s); var a := LeadingSpaces(s);
            forall i :: 0 <= i < |s| && !(a <= i < a + |r|) ==> IsSpace(s[i])
  {
    var a := LeadingSpaces(s);
    var t := s[a..];
    var r := Strip(s);
    assert |r| == |t| - TrailingSpaces(t);
    forall i | 0 <= i < |s| && !(a <= i < a + |r|) ensures IsSpace(s[i]) {
      if i >= a {
        assert s[i] == t[i - a];
      }
    }
  }

  /** A non-empty stripped string starts and ends with a non-whitespace character. */
  lemma StripEnds(s: string)
    ensures var r := Strip(s);
            r != [] ==> !IsSpace(r[0]) && !IsSpace(r[|r| - 1])
  {
    var a := LeadingSpaces(s);
    var t := s[a..];
    var r := Strip(s);
    if r != [] {
      assert r[0] == t[0] && r[|r| - 1] == t[|t| - TrailingSpaces(t) - 1];
    }
  }

  /** The stripped string is empty exactly when `s` is all whitespace. */
  lemma StripEmpty(s: string)
    ensures Strip(s) == [] <==> AllSpace(s)
  {
    var a := LeadingSpaces(s);
    var t := s[a..];
    if Strip(s) == [] {
      assert |t| == TrailingSpaces(t);
      assert a == |s|;
    }
    if AllSpace(s) {
      assert a == |s|;
    }
  }

  /** A character absent from a string is absent from its stripped form. */
  lemma StripKeepsAbsent(s: string, c: char)
    requires c !in s
    ensures c !in Strip(s)
  {
    StripSpec(s);
    var r := Strip(s);
    var a := LeadingSpaces(s);
    forall k | 0 <= k < |r| ensures r[k] != c {
      assert r[k] == s[a + k];
    }
  }

  /** Stripping twice is stripping once. */
  lemma StripIdempotent(s: string)
    ensures Strip(Strip(s)) == Strip(s)
  {
    StripSpec(s);
    var r := Strip(s);
    assert LeadingSpaces(r) == 0;
    var t := r[LeadingSpaces(r)..];
    assert t == r;
    if r != [] {
      assert TrailingSpaces(r) == 0;
    }
  }

  /** Python's `s.split(c)` for a single separator character: always at least one piece, none containing `c`. */
  function SplitOn(s: string, c: char): (parts: seq<string>)
    ensures |parts| >= 1
  {
    if s == [] then [""]
    else
      var rest := SplitOn(s[1..], c);
      if s[0] == c then [""] + rest
      else [[s[0]] + rest[0]] + rest[1..]
  }

  /** Python's `sep.join(parts)`. */
  function Join(parts: seq<string>, sep: string): string {
    if parts == [] then ""
    else if |parts| == 1 then parts[0]
    else parts[0] + sep + Join(parts[1..], sep)
  }

  /** No piece of a split contains the separator. */
  lemma {:induction false} SplitPieces(s: string, c: char)
    ensures forall i :: 0 <= i < |SplitOn(s, c)| ==> c !in SplitOn(s, c)[i]
  {
    if s != [] {
      SplitPieces(s[1..], c);
      var rest := SplitOn(s[1..], c);
      if s[0] != c {
        assert c !in [s[0]] + rest[0];
      }
    }
  }

  /** Joining the pieces of a split with the separator gives back the original string. */
  lemma {:induction false} JoinSplit(s: string, c: char)
    ensures Join(SplitOn(s, c), [c]) == s
  {
    if s != [] {
      var x, tail := s[0], s[1..];
      JoinSplit(tail, c);
      assert s == [x] + tail;
      if x == c {
        JoinSplitSeparator(tail, c);
      } else {
        JoinSplitOther(x, tail, c);
      }
    }
  }

  /** The step of `JoinSplit` for a leading separator. */
  lemma JoinSplitSeparator(t: string, c: char)
    requires Join(SplitOn(t, c), [c]) == t
    ensures Join(SplitOn([c] + t, c), [c]) == [c] + t
  {
    var rest := SplitOn(t, c);
    SplitSeparator(t, c);
    assert ([""] + rest)[1..] == rest;
  }

  /** The step of `JoinSplit` for any other leading character. */
  lemma JoinSplitOther(x: char, t: string, c: char)
    requires x != c
    requires Join(SplitOn(t, c), [c]) == t
    ensures Join(SplitOn([x] + t, c), [c]) == [x] + t
  {
    SplitOther(x, t, c);
    JoinGlue(x, SplitOn(t, c), [c]);
  }

  /** Prefixing a character to the first piece prefixes it to the joined string. */
  lemma JoinGlue(x: char, parts: seq<string>, sep: string)
    requires parts != []
    ensures Join([[x] + parts[0]] + parts[1..], sep) == [x] + Join(parts, sep)
  {
    var glued := [[x] + parts[0]] + parts[1..];
    assert glued[0] == [x] + parts[0] && glued[1..] == parts[1..];
    if |parts| > 1 {
      assert ([x] + parts[0]) + sep + Join(parts[1..], sep) == [x] + (parts[0] + sep + Join(parts[1..], sep));
    }
  }

  /** A string without the separator is a single piece. */
  lemma {:induction false} SplitNoSeparator(s: string, c: char)
    requires c !in s
    ensures SplitOn(s, c) == [s]
  {
    if s != [] {
      assert c !in s[1..];
      SplitNoSeparator(s[1..], c);
      assert [s[0]] + s[1..] == s;
    }
  }

  /** A leading separator splits off an empty first piece. */
  lemma SplitSeparator(s: string, c: char)
    ensures SplitOn([c] + s, c) == [""] + SplitOn(s, c)
  {
    assert ([c] + s)[1..] == s;
  }

  /** Any other leading character joins the first piece. */
  lemma SplitOther(x: char, s: string, c: char)
    requires x != c
    ensures SplitOn([x] + s, c) == [[x] + SplitOn(s, c)[0]] + SplitOn(s, c)[1..]
  {
    assert ([x] + s)[1..] == s;
  }

  /** Prefixing a piece to the first of a non-empty list of pieces distributes over appending more pieces. */
  lemma GlueFirst(x: char, rest: seq<string>, right: seq<string>)
    requires |rest| >= 1
    ensures var whole := rest + right;
            [[x] + whole[0]] + whole[1..] == ([[x] + rest[0]] + rest[1..]) + right
  {
    assert (rest + right)[0] == rest[0];
    assert (rest + right)[1..] == rest[1..] + right;
  }

  /** One step of `SplitAround` for a leading separator. */
  lemma SplitAroundSeparator(a: string, rest: string, right: seq<string>, c: char)
    requires SplitOn(rest, c) == SplitOn(a, c) + right
    ensures SplitOn([c] + rest, c) == SplitOn([c] + a, c) + right
  {
    SplitSeparator(rest, c);
    SplitSeparator(a, c);
    assert [""] + (SplitOn(a, c) + right) == ([""] + SplitOn(a, c)) + right;
  }

  /** One step of `SplitAround` for any other leading character. */
  lemma SplitAroundOther(x: char, a: string, rest: string, right: seq<string>, c: char)
    requires x != c
    requires SplitOn(rest, c) == SplitOn(a, c) + right
    ensures SplitOn([x] + rest, c) == SplitOn([x] + a, c) + right
  {
    SplitOther(x, rest, c);
    SplitOther(x, a, c);
    GlueFirst(x, SplitOn(a, c), right);
  }

  /** Splitting distributes over a separator occurrence. */
  lemma {:induction false} SplitAround(a: string, b: string, c: char)
    ensures SplitOn(a + [c] + b, c) == SplitOn(a, c) + SplitOn(b, c)
  {
    if a == [] {
      assert a + [c] + b == [c] + b;
      SplitSeparator(b, c);
    } else {
      var x, tail := a[0], a[1..];
      SplitAround(tail, b, c);
      Uncons(a, b, c);
      if x == c {
        SplitAroundSeparator(tail, tail + [c] + b, SplitOn(b, c), c);
      } else {
        SplitAroundOther(x, tail, tail + [c] + b, SplitOn(b, c), c);
      }
    }
  }

  /** `a` and `a + [c] + b` both start with `a[0]`. */
  lemma Uncons(a: string, b: string, c: char)
    requires a != []
    ensures a == [a[0]] + a[1..] && a + [c] + b == [a[0]] + (a[1..] + [c] + b)
  {
  }

  /** Splitting what was joined from separator-free pieces gives back those pieces. */
  lemma {:induction false} SplitJoin(parts: seq<string>, c: char)
    requires |parts| >= 1
    requires forall i :: 0 <= i < |parts| ==> c !in parts[i]
    ensures SplitOn(Join(parts, [c]), c) == parts
  {
    if |parts| == 1 {
      SplitNoSeparator(parts[0], c);
    } else {
      SplitJoin(parts[1..], c);
      SplitNoSeparator(parts[0], c);
      SplitAround(parts[0], Join(parts[1..], [c]), c);
      assert [parts[0]] + parts[1..] == parts;
    }
  }

  /** A character that is in neither the pieces nor the separator is not in their join. */
  lemma {:induction false} JoinAbsent(parts: seq<string>, sep: string, c: char)
    requires c !in sep
    requires forall i :: 0 <= i < |parts| ==> c !in parts[i]
    ensures c !in Join(parts, sep)
  {
    if |parts| > 1 {
      JoinAbsent(parts[1..], sep, c);
      assert c !in parts[0];
    }
  }

  /** The decimal digit for `d`. */
  function Digit(d: nat): (c: char)
    requires d < 10
    ensures '0' <= c <= '9'
  {
    (48 + d) as char
  }

  /** Python's `str(n)` for a natural number: its decimal digits, most significant first, no leading zero. */
  function Decimal(n: nat): (r: string)
    ensures 1 <= |r|
    ensures forall i :: 0 <= i < |r| ==> '0' <= r[i] <= '9'
    ensures 1 < |r| ==> r[0] != '0'
  {
    if n < 10 then [Digit(n)] else Decimal(n / 10) + [Digit(n % 10)]
  }
}
