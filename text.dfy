/** The JavaScript string operations the analyzer relies on: `toLowerCase`, `includes`,
    `trim`, `replace(/\s+/g, ' ')`, `split(' ')`, `endsWith`, `replace(',', '.')` and the
    `[^a-z0-9]` filter used for match signatures. Strings are sequences of `char`, each one
    Unicode scalar value; JavaScript counts UTF-16 code units instead, so a character
    outside the Basic Multilingual Plane is one `char` here and two units there. */
module Text {

  /** JavaScript's WhiteSpace and LineTerminator code points: what `trim()` removes and
      what the regular expression class `\s` matches. */
  predicate IsSpace(c: char) {
    c in WhiteSpace
  }

  const WhiteSpace: set<char> := {
    '\t', '\n', '\U{000B}', '\U{000C}', '\r', ' ', '\U{00A0}', '\U{1680}',
    '\U{2000}', '\U{2001}', '\U{2002}', '\U{2003}', '\U{2004}', '\U{2005}', '\U{2006}',
    '\U{2007}', '\U{2008}', '\U{2009}', '\U{200A}',
    '\U{2028}', '\U{2029}', '\U{202F}', '\U{205F}', '\U{3000}', '\U{FEFF}'
  }

  /** Lower-casing of one character: ASCII letters and the Polish capitals that occur in the
      analyzer's column synonyms and in team names. */
  function LowerChar(c: char): char {
    if 'A' <= c <= 'Z' then (c as int + 32) as char
    else if c == '\U{0104}' then '\U{0105}'
    else if c == '\U{0106}' then '\U{0107}'
    else if c == '\U{0118}' then '\U{0119}'
    else if c == '\U{0141}' then '\U{0142}'
    else if c == '\U{0143}' then '\U{0144}'
    else if c == '\U{00D3}' then '\U{00F3}'
    else if c == '\U{015A}' then '\U{015B}'
    else if c == '\U{0179}' then '\U{017A}'
    else if c == '\U{017B}' then '\U{017C}'
    else c
  }

  /** `s.toLowerCase()` */
  function Lower(s: string): string {
    seq(|s|, i requires 0 <= i < |s| => LowerChar(s[i]))
  }

  /** `s.includes(t)`: `t` occurs in `s` as a contiguous substring. */
  predicate Contains(s: string, t: string)
    decreases |s|
  {
    t <= s || (s != [] && Contains(s[1..], t))
  }

  /** `s.endsWith(suffix)` */
  predicate EndsWith(s: string, suffix: string) {
    |suffix| <= |s| && s[|s| - |suffix|..] == suffix
  }

  /** Removes leading whitespace: the result is a suffix of `s`, every removed character is
      whitespace and the first remaining one is not. */
  function TrimStart(s: string): (r: string)
    ensures |r| <= |s| && r == s[|s| - |r|..]
    ensures forall i :: 0 <= i < |s| - |r| ==> IsSpace(s[i])
    ensures r == [] || !IsSpace(r[0])
  {
    if s != [] && IsSpace(s[0]) then TrimStart(s[1..]) else s
  }

  /** Removes trailing whitespace: the result is a prefix of `s`, every removed character is
      whitespace and the last remaining one is not. */
  function TrimEnd(s: string): (r: string)
    ensures |r| <= |s| && r == s[..|r|]
    ensures forall i :: |r| <= i < |s| ==> IsSpace(s[i])
    ensures r == [] || !IsSpace(r[|r| - 1])
  {
    if s != [] && IsSpace(s[|s| - 1]) then TrimEnd(s[..|s| - 1]) else s
  }

  /** `s.trim()`: neither end of the result is whitespace. */
  function Trim(s: string): (r: string)
    ensures |r| <= |s|
    ensures r == [] || (!IsSpace(r[0]) && !IsSpace(r[|r| - 1]))
  {
    TrimEnd(TrimStart(s))
  }

  /** The only whitespace left is the plain space, and never two in a row. */
  predicate SingleSpaced(s: string) {
    && (forall i :: 0 <= i < |s| && IsSpace(s[i]) ==> s[i] == ' ')
    && (forall i :: 0 <= i < |s| - 1 && IsSpace(s[i]) ==> !IsSpace(s[i + 1]))
  }

  /** `s.replace(/\s+/g, ' ')`: every maximal run of whitespace becomes one space. The
      result is empty exactly when `s` is and begins like `s` does. */
  function CollapseSpaces(s: string): (r: string)
    ensures |r| <= |s|
    ensures r == [] <==> s == []
    ensures s != [] ==> r[0] == (if IsSpace(s[0]) then ' ' else s[0])
    decreases |s|
  {
    if s == [] then []
    else if IsSpace(s[0]) then [' '] + CollapseSpaces(TrimStart(s[1..]))
    else [s[0]] + CollapseSpaces(s[1..])
  }

  /** The collapse keeps a last character that is not whitespace. */
  lemma {:induction false} CollapseKeepsLast(s: string)
    ensures s != [] && !IsSpace(s[|s| - 1]) ==>
      var r := CollapseSpaces(s); r != [] && r[|r| - 1] == s[|s| - 1]
    decreases |s|
  {
    if s == [] || IsSpace(s[|s| - 1]) {
    } else if IsSpace(s[0]) {
      var t := TrimStart(s[1..]);
      assert |s| > 1;
      assert t[|t| - 1] == s[|s| - 1];
      CollapseKeepsLast(t);
    } else if |s| > 1 {
      CollapseKeepsLast(s[1..]);
    }
  }

  /** After the collapse no whitespace other than a plain space remains, and no two
      whitespace characters are adjacent. */
  lemma {:induction false} CollapseSingleSpaced(s: string)
    ensures SingleSpaced(CollapseSpaces(s))
    decreases |s|
  {
    if s != [] {
      var t := if IsSpace(s[0]) then TrimStart(s[1..]) else s[1..];
      var head := if IsSpace(s[0]) then ' ' else s[0];
      CollapseSingleSpaced(t);
      var rest := CollapseSpaces(t);
      var r := [head] + rest;
      assert CollapseSpaces(s) == r;
      assert IsSpace(head) ==> rest == [] || !IsSpace(rest[0]);
      forall i | 0 <= i < |r| && IsSpace(r[i]) ensures r[i] == ' ' {
        if i > 0 { assert r[i] == rest[i - 1]; }
      }
      forall i | 0 <= i < |r| - 1 && IsSpace(r[i]) ensures !IsSpace(r[i + 1]) {
        if i > 0 { assert r[i] == rest[i - 1] && r[i + 1] == rest[i]; }
      }
    }
  }

  /** A cleaned team name: whitespace-free at both ends, single-spaced inside. */
  predicate Tidy(s: string) {
    SingleSpaced(s) && (s == [] || (!IsSpace(s[0]) && !IsSpace(s[|s| - 1])))
  }

  /** `String(value).trim().replace(/\s+/g, ' ')`, the text part of `cleanTeamName`: the
      result is tidy, and empty exactly when the input is all whitespace. */
  function CleanName(s: string): (r: string)
    ensures Tidy(r)
    ensures r == [] <==> Trim(s) == []
  {
    var t := Trim(s);
    CollapseSingleSpaced(t);
    CollapseKeepsLast(t);
    CollapseSpaces(t)
  }

  /** A single-spaced string that does not begin with whitespace is left alone by the
      whitespace collapse. */
  lemma {:induction false} CollapseFixed(s: string)
    requires SingleSpaced(s)
    requires s == [] || !IsSpace(s[0])
    ensures CollapseSpaces(s) == s
    decreases |s|
  {
    if s != [] {
      var rest := s[1..];
      assert SingleSpaced(rest);
      if rest != [] && IsSpace(rest[0]) {
        assert rest[0] == ' ';
        var tail := rest[1..];
        assert tail == [] || !IsSpace(tail[0]);
        assert TrimStart(tail) == tail;
        assert SingleSpaced(tail);
        CollapseFixed(tail);
        assert CollapseSpaces(rest) == [' '] + tail;
        assert rest == [' '] + tail;
      } else {
        CollapseFixed(rest);
      }
      assert s == [s[0]] + rest;
    }
  }

  /** Cleaning a team name twice gives the same result as cleaning it once. */
  lemma {:induction false} CleanNameIdempotent(s: string)
    ensures CleanName(CleanName(s)) == CleanName(s)
  {
    var c := CleanName(s);
    assert TrimStart(c) == c;
    assert TrimEnd(c) == c;
    assert Trim(c) == c;
    CollapseFixed(c);
  }

  /** `s.split(sep)`: the maximal pieces between separators, empty pieces included, so
      there is always at least one piece and no piece contains the separator. */
  function Split(s: string, sep: char): (r: seq<string>)
    ensures |r| >= 1
    ensures forall k :: 0 <= k < |r| ==> sep !in r[k]
  {
    if s == [] then [[]]
    else if s[0] == sep then [[]] + Split(s[1..], sep)
    else
      var rest := Split(s[1..], sep);
      [[s[0]] + rest[0]] + rest[1..]
  }

  /** `parts.join(sep)` */
  function Join(parts: seq<string>, sep: char): string
    requires |parts| >= 1
  {
    if |parts| == 1 then parts[0] else parts[0] + [sep] + Join(parts[1..], sep)
  }

  /** Splitting loses nothing: joining the pieces back gives the original string. */
  lemma {:induction false} JoinSplit(s: string, sep: char)
    ensures Join(Split(s, sep), sep) == s
  {
    if s == [] {
    } else if s[0] == sep {
      var rest := Split(s[1..], sep);
      JoinSplit(s[1..], sep);
      assert ([[]] + rest)[1..] == rest;
      assert s == [sep] + s[1..];
    } else {
      var rest := Split(s[1..], sep);
      JoinSplit(s[1..], sep);
      var parts := [[s[0]] + rest[0]] + rest[1..];
      if |rest| == 1 {
        assert Join(parts, sep) == [s[0]] + rest[0];
      } else {
        assert parts[1..] == rest[1..];
        assert Join(rest, sep) == rest[0] + [sep] + Join(rest[1..], sep);
        assert Join(parts, sep) == ([s[0]] + rest[0]) + [sep] + Join(rest[1..], sep);
      }
      assert s == [s[0]] + s[1..];
    }
  }

  /** The characters a match signature keeps: `[a-z0-9]`. */
  predicate IsKeyChar(c: char) {
    'a' <= c <= 'z' || '0' <= c <= '9'
  }

  /** `s.replace(/[^a-z0-9]/g, '')`: keeps the key characters, in order. */
  function KeepKeyChars(s: string): (r: string)
    ensures |r| <= |s|
    ensures forall i :: 0 <= i < |r| ==> IsKeyChar(r[i])
    ensures (forall i :: 0 <= i < |s| ==> IsKeyChar(s[i])) ==> r == s
  {
    if s == [] then []
    else (if IsKeyChar(s[0]) then [s[0]] else []) + KeepKeyChars(s[1..])
  }

  /** `s.replace(from, to)` with a one-character string pattern: only the first occurrence
      is replaced. */
  function ReplaceFirst(s: string, from: char, to: char): string {
    if s == [] then []
    else if s[0] == from then [to] + s[1..]
    else [s[0]] + ReplaceFirst(s[1..], from, to)
  }

  /** Decimal rendering of a natural number, as JavaScript's template literals print it. */
  function NatToString(n: nat): string
    decreases n
  {
    if n < 10 then [DigitChar(n)] else NatToString(n / 10) + [DigitChar(n % 10)]
  }

  function DigitChar(d: nat): char
    requires d < 10
  {
    ('0' as int + d) as char
  }
}
