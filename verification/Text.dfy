/** The few string functions that several modules read text with; case is ASCII case. */
module Text {

  predicate Upper(c: char) {
    'A' <= c <= 'Z'
  }

  function Low(c: char): char {
    if Upper(c) then c - 'A' + 'a' else c
  }

  function Lowered(s: string): (r: string)
    ensures |r| == |s| && forall i | 0 <= i < |s| :: r[i] == Low(s[i])
  {
    if s == "" then "" else [Low(s[0])] + Lowered(s[1..])
  }

  predicate StartsWith(s: string, prefix: string) {
    |prefix| <= |s| && s[..|prefix|] == prefix
  }

  // The first place of a character, or the end.
  function Find(s: string, c: char): (i: nat)
    ensures i <= |s| && (i < |s| ==> s[i] == c) && forall k | 0 <= k < i :: s[k] != c
  {
    if s == "" || s[0] == c then 0 else 1 + Find(s[1..], c)
  }

  lemma FindIs(s: string, c: char, i: nat)
    requires i < |s| && s[i] == c && c !in s[..i]
    ensures Find(s, c) == i
  {
    assert forall k | 0 <= k < i :: s[k] in s[..i];
  }
}
