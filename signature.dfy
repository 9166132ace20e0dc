/** Duplicate detection across uploads (app.js:296-307, 478-483): every match gets a
    signature built from its normalised team names and its date, and a match whose
    signature is already remembered is counted as a duplicate instead of being stored. */
module Signature {
  import opened Common
  import opened Text
  import opened Types

  /** A team name as the signature uses it, character by character: each character
      lower-cased and kept when it is in `[a-z0-9]`. */
  function TeamKey(name: string): string {
    if name == [] then []
    else
      var c := LowerChar(name[0]);
      (if IsKeyChar(c) then [c] else []) + TeamKey(name[1..])
  }

  /** The team key is the name lower-cased, then stripped of everything but `[a-z0-9]`. */
  lemma {:induction false} TeamKeyIsKeepLower(name: string)
    ensures TeamKey(name) == KeepKeyChars(Lower(name))
  {
    if name != [] {
      TeamKeyIsKeepLower(name[1..]);
      assert Lower(name)[1..] == Lower(name[1..]);
    }
  }

  /** A team key holds only `[a-z0-9]` and is no longer than the name. */
  lemma TeamKeyChars(name: string)
    ensures forall i :: 0 <= i < |TeamKey(name)| ==> IsKeyChar(TeamKey(name)[i])
    ensures |TeamKey(name)| <= |name|
  {
    TeamKeyIsKeepLower(name);
  }

  /** `match.date || 'nodate'`: a missing or empty date reads as "nodate". */
  function DateKey(date: Option<string>): (r: string)
    ensures r != []
    ensures date.Some? && date.value != [] ==> r == date.value
  {
    if date.Some? && date.value != [] then date.value else "nodate"
  }

  /** `generateMatchSignature(match)`: `${home}_vs_${away}_${date}`. */
  function MatchSignature(m: Match): string {
    TeamKey(m.home) + "_vs_" + TeamKey(m.away) + "_" + DateKey(m.date)
  }

  /** The text before the first occurrence of `c` (all of `s` when there is none). */
  function Before(s: string, c: char): string {
    if s == [] || s[0] == c then [] else [s[0]] + Before(s[1..], c)
  }

  /** The text after the first occurrence of `c` (nothing when there is none). */
  function After(s: string, c: char): string {
    if s == [] then [] else if s[0] == c then s[1..] else After(s[1..], c)
  }

  /** A field free of the separator is recovered from `field + [c] + rest`. */
  lemma {:induction false} SplitAtFirst(field: string, c: char, rest: string)
    requires c !in field
    ensures Before(field + [c] + rest, c) == field
    ensures After(field + [c] + rest, c) == rest
  {
    if field != [] {
      SplitAtFirst(field[1..], c, rest);
      assert (field + [c] + rest)[1..] == field[1..] + [c] + rest;
    }
  }

  /** Two matches share a signature exactly when their home keys, away keys and date keys
      agree: the underscores of the signature cannot come from a team key, so the three
      parts can be read back. */
  lemma SignatureInjective(a: Match, b: Match)
    ensures MatchSignature(a) == MatchSignature(b) <==>
      TeamKey(a.home) == TeamKey(b.home) && TeamKey(a.away) == TeamKey(b.away)
      && DateKey(a.date) == DateKey(b.date)
  {
    if MatchSignature(a) == MatchSignature(b) {
      ReadBack(a);
      ReadBack(b);
    }
  }

  /** The parts of a signature, read back from it. */
  lemma ReadBack(m: Match)
    ensures var s := MatchSignature(m);
      && Before(s, '_') == TeamKey(m.home)
      && Before(After(After(s, '_'), '_'), '_') == TeamKey(m.away)
      && After(After(After(s, '_'), '_'), '_') == DateKey(m.date)
  {
    var h, a, d := TeamKey(m.home), TeamKey(m.away), DateKey(m.date);
    TeamKeyChars(m.home);
    TeamKeyChars(m.away);
    assert '_' !in h && '_' !in a by {
      assert !IsKeyChar('_');
    }
    var s := MatchSignature(m);
    assert s == h + ['_'] + ("vs" + ['_'] + (a + ['_'] + d));
    SplitAtFirst(h, '_', "vs" + ['_'] + (a + ['_'] + d));
    SplitAtFirst("vs", '_', a + ['_'] + d);
    SplitAtFirst(a, '_', d);
  }

  /** `allMatches.filter(match => match.date === selectedDate)`. */
  function MatchesOn(ms: seq<Match>, date: string): (r: seq<Match>)
    ensures |r| <= |ms|
    ensures forall m :: m in r <==> m in ms && m.date == Some(date)
  {
    if ms == [] then []
    else (if ms[0].date == Some(date) then [ms[0]] else []) + MatchesOn(ms[1..], date)
  }

  /** The date filter keeps order and multiplicity: one more match at the end adds itself
      at the end exactly when it is on the date. */
  lemma {:induction false} MatchesOnPush(ms: seq<Match>, m: Match, date: string)
    ensures MatchesOn(ms + [m], date) == MatchesOn(ms, date) + (if m.date == Some(date) then [m] else [])
    decreases |ms|
  {
    if ms != [] {
      assert (ms + [m])[1..] == ms[1..] + [m];
      MatchesOnPush(ms[1..], m, date);
    }
  }
}
