/** String helpers the components rely on: lower-casing (restricted to ASCII), substring
    search as `String.prototype.includes`, and the anchored pattern `^[0-9]+$`. */
module Text {

  /** ASCII lower-casing of one character; every other character is left as it is. */
  function LowerChar(c: char): (r: char)
    ensures 'A' <= c <= 'Z' ==> r as int == c as int + 32
    ensures !('A' <= c <= 'Z') ==> r == c
    ensures !('A' <= r <= 'Z')
  {
    if 'A' <= c <= 'Z' then (c as int + 32) as char else c
  }

  /** `s.toLowerCase()`, character by character. */
  function Lower(s: string): (r: string)
    ensures |r| == |s|
    ensures forall i :: 0 <= i < |s| ==> r[i] == LowerChar(s[i])
  {
    if s == [] then [] else [LowerChar(s[0])] + Lower(s[1..])
  }

  /** Lower-casing twice is lower-casing once. */
  lemma LowerIdempotent(s: string)
    ensures Lower(Lower(s)) == Lower(s)
  {
    var l := Lower(s);
    assert forall i :: 0 <= i < |l| ==> Lower(l)[i] == LowerChar(l[i]) == l[i];
  }

  /** `s.includes(t)`: `t` occurs in `s` at some position. */
  predicate Includes(s: string, t: string)
  {
    exists i :: 0 <= i <= |s| - |t| && OccursAt(s, t, i)
  }

  /** `t` occurs in `s` starting at index `i`. */
  predicate OccursAt(s: string, t: string, i: nat)
  {
    i + |t| <= |s| && s[i..i + |t|] == t
  }

  /** Every string includes the empty string. */
  lemma IncludesEmpty(s: string)
    ensures Includes(s, "")
  {
    assert OccursAt(s, "", 0);
  }

  predicate IsDigit(c: char)
  {
    '0' <= c <= '9'
  }

  /** The states of the matcher for the anchored pattern `^[0-9]+$`. */
  datatype MatchState = Start | InDigits | Dead

  function Step(st: MatchState, c: char): MatchState
  {
    match st
    case Dead => Dead
    case _ => if IsDigit(c) then InDigits else Dead
  }

  /** Runs the matcher over `s` from state `st`. */
  function Run(st: MatchState, s: string): MatchState
    decreases s
  {
    if s == [] then st else Run(Step(st, s[0]), s[1..])
  }

  /** `/^[0-9]+$/.test(s)`: the matcher ends in its accepting state. */
  predicate MatchesDigits(s: string)
  {
    Run(Start, s) == InDigits
  }

  /** The digit pattern accepts exactly the non-empty strings made of decimal digits. */
  lemma {:induction false} MatchesDigitsSpec(s: string)
    ensures MatchesDigits(s) <==> |s| > 0 && forall i :: 0 <= i < |s| ==> IsDigit(s[i])
  {
    if s != [] {
      if !IsDigit(s[0]) {
        RunDead(s[1..]);
      } else {
        RunFromDigits(s[1..]);
        assert Run(Start, s) == Run(InDigits, s[1..]);
        assert forall i :: 1 <= i < |s| ==> s[i] == s[1..][i - 1];
      }
    }
  }

  lemma {:induction false} RunDead(s: string)
    ensures Run(Dead, s) == Dead
  {
    if s != [] { RunDead(s[1..]); }
  }

  /** From the accepting state the matcher stays accepting exactly while it reads digits. */
  lemma {:induction false} RunFromDigits(s: string)
    ensures Run(InDigits, s) == InDigits <==> forall i :: 0 <= i < |s| ==> IsDigit(s[i])
  {
    if s != [] {
      if IsDigit(s[0]) {
        RunFromDigits(s[1..]);
        assert forall i :: 1 <= i < |s| ==> s[i] == s[1..][i - 1];
      } else {
        RunDead(s[1..]);
      }
    }
  }
}
