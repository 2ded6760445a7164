/**
  The scaffolder's names, on ASCII text: snake case from anything, Pascal case from
  snake case, and exactly which names survive the way there and back.
 */
module Naming {
  import opened Text

  predicate LowerLetter(c: char) { 'a' <= c <= 'z' }

  predicate LowerOrDigit(c: char) { LowerLetter(c) || '0' <= c <= '9' }

  function Up(c: char): char { if LowerLetter(c) then c - 'a' + 'A' else c }

  function Replaced(s: string): (r: string)
    ensures |r| == |s| && forall i | 0 <= i < |s| :: r[i] == if s[i] == '-' || s[i] == ' ' then '_' else s[i]
  {
    if s == "" then "" else [if s[0] == '-' || s[0] == ' ' then '_' else s[0]] + Replaced(s[1..])
  }

  // A place between two capitals of which the second starts a capitalised word.
  predicate AcronymEnds(prev: char, s: string) {
    Upper(prev) && |s| >= 2 && Upper(s[0]) && LowerLetter(s[1])
  }

  // A place between a lower-case letter or a digit and a capital.
  predicate WordEnds(prev: char, s: string) {
    LowerOrDigit(prev) && |s| >= 1 && Upper(s[0])
  }

  // `prev` is the character before `s`, or an underscore at the start.
  function SplitAcronyms(prev: char, s: string): string
    decreases |s|
  {
    if s == "" then ""
    else (if AcronymEnds(prev, s) then "_" else "") + [s[0]] + SplitAcronyms(s[0], s[1..])
  }

  function SplitWords(prev: char, s: string): string
    decreases |s|
  {
    if s == "" then ""
    else (if WordEnds(prev, s) then "_" else "") + [s[0]] + SplitWords(s[0], s[1..])
  }

  function StripLeft(s: string): string {
    if s != "" && s[0] == '_' then StripLeft(s[1..]) else s
  }

  function StripRight(s: string): string {
    if s != "" && s[|s| - 1] == '_' then StripRight(s[..|s| - 1]) else s
  }

  function ToSnake(name: string): string {
    StripRight(StripLeft(Lowered(SplitWords('_', SplitAcronyms('_', Replaced(name))))))
  }

  function Parts(s: string): seq<string> {
    var i := Find(s, '_');
    if i == |s| then [s] else [s[..i]] + Parts(s[i + 1..])
  }

  function Capitalize(part: string): string {
    if part == "" then "" else [Up(part[0])] + Lowered(part[1..])
  }

  function CapitalizeAll(parts: seq<string>): string {
    if parts == [] then "" else Capitalize(parts[0]) + CapitalizeAll(parts[1..])
  }

  function ToPascal(name: string): string {
    CapitalizeAll(Parts(ToSnake(name)))
  }

  /******* Snake form *******/

  predicate Plain(c: char) { !Upper(c) && c != '-' && c != ' ' }

  predicate AllPlain(s: string) { forall c <- s :: Plain(c) }

  // No capital, dash or space, and no underscore at either end.
  predicate SnakeForm(s: string) {
    AllPlain(s) && (s != "" ==> s[0] != '_' && s[|s| - 1] != '_')
  }

  lemma {:induction false} StripPlain(s: string)
    requires AllPlain(s)
    ensures SnakeForm(StripRight(StripLeft(s)))
  {
    StripLeftPlain(s);
    StripRightPlain(StripLeft(s));
  }

  lemma StripLeftPlain(s: string)
    requires AllPlain(s)
    ensures var r := StripLeft(s); AllPlain(r) && (r != "" ==> r[0] != '_')
  {
  }

  lemma StripRightPlain(s: string)
    requires AllPlain(s) && (s != "" ==> s[0] != '_')
    ensures SnakeForm(StripRight(s))
  {
  }

  predicate NoDash(s: string) { '-' !in s && ' ' !in s }

  lemma SplittingAddsNoDash(prev: char, s: string)
    requires NoDash(s)
    ensures NoDash(SplitAcronyms(prev, s)) && NoDash(SplitWords(prev, s))
    decreases |s|
  {
    if s != "" {
      assert s == [s[0]] + s[1..];
      SplittingAddsNoDash(s[0], s[1..]);
    }
  }

  lemma SnakeIsSnakeForm(name: string)
    ensures SnakeForm(ToSnake(name))
  {
    var r := Replaced(name);
    SplittingAddsNoDash('_', r);
    var a := SplitAcronyms('_', r);
    SplittingAddsNoDash('_', a);
    var w := Lowered(SplitWords('_', a));
    StripPlain(w);
  }

  lemma SplittingKeepsPlain(prev: char, s: string)
    requires AllPlain(s)
    ensures SplitAcronyms(prev, s) == s && SplitWords(prev, s) == s
    decreases |s|
  {
    if s != "" {
      assert AllPlain(s[1..]) && s == [s[0]] + s[1..];
      assert Plain(s[0]);
      SplittingKeepsPlain(s[0], s[1..]);
    }
  }

  lemma LoweredPlain(s: string)
    requires AllPlain(s)
    ensures Lowered(s) == s
  {
    assert forall i | 0 <= i < |s| :: Plain(s[i]);
  }

  lemma SnakeFormStays(s: string)
    requires SnakeForm(s)
    ensures ToSnake(s) == s
  {
    LoweredPlain(s);
    assert forall i | 0 <= i < |s| :: Plain(s[i]);
    assert Replaced(s) == s;
    SplittingKeepsPlain('_', s);
  }

  // `to_snake_case` is idempotent, and its results are exactly the strings in snake form.
  lemma SnakeIsIdempotent(name: string)
    ensures ToSnake(ToSnake(name)) == ToSnake(name)
    ensures SnakeForm(name) <==> ToSnake(name) == name
  {
    SnakeIsSnakeForm(name);
    SnakeFormStays(ToSnake(name));
    if SnakeForm(name) { SnakeFormStays(name); }
  }

  /******* Pascal case, one character at a time *******/

  // Capitals where a part starts, no underscores.
  function Joined(start: bool, s: string): string
    decreases |s|
  {
    if s == "" then ""
    else if s[0] == '_' then Joined(true, s[1..])
    else [if start then Up(s[0]) else s[0]] + Joined(false, s[1..])
  }

  lemma JoinedCons(start: bool, c: char, rest: string)
    requires c != '_'
    ensures Joined(start, [c] + rest) == [if start then Up(c) else c] + Joined(false, rest)
  {
    assert ([c] + rest)[1..] == rest;
  }

  lemma Assoc(a: string, b: string, c: string)
    ensures (a + b) + c == a + (b + c)
  {
  }

  lemma JoinedBreak(start: bool, rest: string)
    ensures Joined(start, "_" + rest) == Joined(true, rest)
  {
    assert ("_" + rest)[1..] == rest;
  }

  lemma {:induction false} JoinedInside(part: string, rest: string)
    requires '_' !in part
    ensures Joined(false, part + ("_" + rest)) == part + Joined(true, rest)
    decreases |part|
  {
    if part == "" {
      JoinedBreak(false, rest);
      assert part + ("_" + rest) == "_" + rest && part + Joined(true, rest) == Joined(true, rest);
    } else {
      var head, tail := [part[0]], part[1..];
      JoinedInside(tail, rest);
      assert part == head + tail;
      Assoc(head, tail, "_" + rest);
      JoinedCons(false, part[0], tail + ("_" + rest));
      Assoc(head, tail, Joined(true, rest));
    }
  }

  lemma {:induction false} JoinedAlone(part: string)
    requires '_' !in part
    ensures Joined(false, part) == part
    decreases |part|
  {
    if part != "" {
      JoinedAlone(part[1..]);
      assert part == [part[0]] + part[1..];
    }
  }

  lemma JoinedPart(part: string, rest: string)
    requires '_' !in part && AllPlain(part)
    ensures Joined(true, part + ("_" + rest)) == Capitalize(part) + Joined(true, rest)
  {
    if part == "" {
      JoinedBreak(true, rest);
      assert part + ("_" + rest) == "_" + rest && Capitalize(part) + Joined(true, rest) == Joined(true, rest);
    } else {
      var head, tail := [part[0]], part[1..];
      LoweredPlain(tail);
      JoinedInside(tail, rest);
      assert part == head + tail;
      Assoc(head, tail, "_" + rest);
      JoinedCons(true, part[0], tail + ("_" + rest));
      Assoc([Up(part[0])], tail, Joined(true, rest));
    }
  }

  lemma JoinedOnly(part: string)
    requires '_' !in part && AllPlain(part)
    ensures Joined(true, part) == Capitalize(part)
  {
    if part != "" {
      LoweredPlain(part[1..]);
      JoinedAlone(part[1..]);
    }
  }

  lemma {:induction false} PascalIsJoined(s: string)
    requires AllPlain(s)
    ensures CapitalizeAll(Parts(s)) == Joined(true, s)
    decreases |s|
  {
    var i := Find(s, '_');
    if i == |s| {
      assert s[..i] == s;
      JoinedOnly(s);
      assert [s][1..] == [] && Capitalize(s) + "" == Capitalize(s);
    } else {
      assert s == s[..i] + ("_" + s[i + 1..]);
      JoinedPart(s[..i], s[i + 1..]);
      PascalIsJoined(s[i + 1..]);
    }
  }

  // Both splits in one pass.
  function Split(prev: char, s: string): string
    decreases |s|
  {
    if s == "" then ""
    else (if AcronymEnds(prev, s) || WordEnds(prev, s) then "_" else "") + [s[0]] + Split(s[0], s[1..])
  }

  lemma SplitWordsCons(prev: char, c: char, rest: string)
    ensures SplitWords(prev, [c] + rest) ==
      (if LowerOrDigit(prev) && Upper(c) then "_" else "") + [c] + SplitWords(c, rest)
  {
    assert ([c] + rest)[1..] == rest;
  }

  lemma {:induction false} SplitsFuse(prev: char, s: string)
    ensures SplitWords(prev, SplitAcronyms(prev, s)) == Split(prev, s)
    decreases |s|
  {
    if s != "" {
      var tail := SplitAcronyms(s[0], s[1..]);
      SplitsFuse(s[0], s[1..]);
      SplitWordsCons(prev, s[0], tail);
      if AcronymEnds(prev, s) {
        Assoc("_", [s[0]], tail);
        SplitWordsCons(prev, '_', [s[0]] + tail);
        SplitWordsCons('_', s[0], tail);
        Assoc("_", [s[0]], Split(s[0], s[1..]));
      } else {
        assert "" + [s[0]] == [s[0]];
      }
    }
  }

  /******* There and back *******/

  // The rest of a name, its Pascal form split again; `prev` is the last Pascal character.
  function Back(start: bool, prev: char, s: string): string {
    Lowered(Split(prev, Joined(start, s)))
  }

  lemma BackChar(start: bool, prev: char, s: string)
    requires s != "" && s[0] != '_' && AllPlain(s)
    ensures var c := if start then Up(s[0]) else s[0];
      Back(start, prev, s) ==
        (if AcronymEnds(prev, Joined(start, s)) || WordEnds(prev, Joined(start, s)) then "_" else "")
        + [s[0]] + Back(false, c, s[1..])
  {
    var c := if start then Up(s[0]) else s[0];
    var j := Joined(start, s);
    assert j == [c] + Joined(false, s[1..]) && j[1..] == Joined(false, s[1..]);
    assert Plain(s[0]) && Low(c) == s[0];
    var mark := if AcronymEnds(prev, j) || WordEnds(prev, j) then "_" else "";
    assert Split(prev, j) == mark + [c] + Split(c, Joined(false, s[1..]));
    LoweredConcat(mark + [c], Split(c, Joined(false, s[1..])));
    LoweredConcat(mark, [c]);
  }

  lemma LoweredConcat(a: string, b: string)
    ensures Lowered(a + b) == Lowered(a) + Lowered(b)
  {
  }

  // Whether the rest of a name comes back; the same by position in `Returns`.
  predicate Comes(prev: char, s: string)
    decreases |s|
  {
    if s == "" then true
    else if s[0] != '_' then Comes(s[0], s[1..])
    else
      && |s| >= 2 && LowerLetter(s[1])
      && (LowerOrDigit(prev) || (Upper(prev) && |s| >= 3 && LowerLetter(s[2])))
      && Comes(Up(s[1]), s[2..])
  }

  // What is left after an underscore is split off exactly when the part starts with a
  // letter and the characters around allow it.
  lemma PartStart(prev: char, s: string)
    requires s != "" && s[0] != '_' && AllPlain(s)
    ensures var j := Joined(true, s);
      AcronymEnds(prev, j) || WordEnds(prev, j) <==>
        LowerLetter(s[0]) && (LowerOrDigit(prev) || (Upper(prev) && |s| >= 2 && LowerLetter(s[1])))
  {
    var j := Joined(true, s);
    assert Plain(s[0]) && j[0] == Up(s[0]) && j[1..] == Joined(false, s[1..]);
    if |s| >= 2 {
      assert Plain(s[1]);
      if s[1] == '_' {
        JoinedStart(s[2..]);
      } else {
        assert j[1] == s[1];
      }
    }
  }

  // A part never starts with a lower-case letter in Pascal form.
  lemma JoinedStart(s: string)
    ensures Joined(true, s) != "" ==> !LowerLetter(Joined(true, s)[0])
  {
  }

  lemma BackStart(prev: char, s: string)
    requires AllPlain(s)
    decreases |s|
    ensures var b := Back(true, prev, s); b == "" || b[0] != '_' || (|b| >= 2 && b[1] != '_')
  {
    if s != "" {
      if s[0] == '_' {
        BackStart(prev, s[1..]);
      } else {
        BackChar(true, prev, s);
      }
    }
  }

  lemma {:induction false} ComesExactly(prev: char, s: string)
    requires AllPlain(s)
    ensures Back(false, prev, s) == s <==> Comes(prev, s)
    decreases |s|, 1
  {
    if s == "" {
    } else if s[0] != '_' {
      BackChar(false, prev, s);
      assert Plain(s[0]) && s == [s[0]] + s[1..];
      var b := Back(false, prev, s);
      assert b == [s[0]] + Back(false, s[0], s[1..]);
      assert b[1..] == Back(false, s[0], s[1..]);
      ComesExactly(s[0], s[1..]);
    } else {
      ComesAfterUnderscore(prev, s);
    }
  }

  lemma {:induction false} ComesAfterUnderscore(prev: char, s: string)
    requires AllPlain(s) && s != "" && s[0] == '_'
    ensures Back(false, prev, s) == s <==> Comes(prev, s)
    decreases |s|, 0
  {
    var r := s[1..];
    var b := Back(false, prev, s);
    assert b == Back(true, prev, r) && s == "_" + r;
    if r == "" {
    } else if r[0] == '_' {
      BackStart(prev, r);
      assert s[1] == '_';
    } else {
      BackChar(true, prev, r);
      PartStart(prev, r);
      assert Plain(r[0]);
      var tail := Back(false, Up(r[0]), r[1..]);
      ComesExactly(Up(r[0]), r[1..]);
      assert r == [r[0]] + r[1..] && s[2..] == r[1..];
      if LowerLetter(r[0]) && (LowerOrDigit(prev) || (Upper(prev) && |r| >= 2 && LowerLetter(r[1]))) {
        assert b == "_" + [r[0]] + tail;
        assert b[2..] == tail;
        assert s == "_" + [r[0]] + r[1..];
      } else {
        assert b == [r[0]] + tail;
        assert b[0] != '_';
      }
    }
  }

  // The whole name: nothing is split off before its first part.
  lemma BackWhole(s: string)
    requires SnakeForm(s) && s != ""
    ensures ToSnake(ToPascal(s)) == StripRight(StripLeft([s[0]] + Back(false, Up(s[0]), s[1..])))
  {
    SnakeFormStays(s);
    PascalIsJoined(s);
    var j := Joined(true, s);
    JoinedNoDash(true, s);
    assert Replaced(j) == j;
    SplitsFuse('_', j);
    BackChar(true, '_', s);
  }

  lemma JoinedNoDash(start: bool, s: string)
    requires AllPlain(s)
    ensures NoDash(Joined(start, s))
    decreases |s|
  {
    if s != "" {
      assert Plain(s[0]);
      JoinedNoDash(s[0] == '_', s[1..]);
    }
  }

  lemma {:induction false} BackLast(start: bool, prev: char, s: string)
    requires AllPlain(s) && s != "" && s[|s| - 1] != '_'
    ensures var b := Back(start, prev, s); b != "" && b[|b| - 1] == s[|s| - 1]
    decreases |s|
  {
    if s[0] == '_' {
      BackLast(true, prev, s[1..]);
    } else {
      BackChar(start, prev, s);
      if |s| > 1 { BackLast(false, if start then Up(s[0]) else s[0], s[1..]); }
    }
  }

  lemma BackIsStripped(s: string)
    requires SnakeForm(s) && s != ""
    ensures ToSnake(ToPascal(s)) == [s[0]] + Back(false, Up(s[0]), s[1..])
  {
    BackWhole(s);
    if |s| > 1 { BackLast(false, Up(s[0]), s[1..]); }
    var b := [s[0]] + Back(false, Up(s[0]), s[1..]);
    assert b[0] != '_' && b[|b| - 1] != '_';
  }

  // The Pascal character that comes of `s[i - 1]`.
  function PascalBefore(s: string, i: nat): char
    requires 0 < i <= |s|
  {
    if i == 1 || s[i - 2] == '_' then Up(s[i - 1]) else s[i - 1]
  }

  // The underscore at `i` is recovered: a letter follows, and before it stands a
  // lower-case letter or digit of a part, or a part of one letter with two letters
  // to follow.
  predicate Returns(s: string, i: nat)
    requires 0 < i < |s|
  {
    && i + 1 < |s| && LowerLetter(s[i + 1])
    && (LowerOrDigit(PascalBefore(s, i))
        || (Upper(PascalBefore(s, i)) && i + 2 < |s| && LowerLetter(s[i + 2])))
  }

  lemma {:induction false} ComesByPosition(s: string, i: nat)
    requires 0 < i <= |s| && (s[i - 1] == '_' ==> i < |s|)
    requires s[i - 1] != '_'
    ensures Comes(PascalBefore(s, i), s[i..]) <==> forall k | i <= k < |s| && s[k] == '_' :: Returns(s, k)
    decreases |s| - i
  {
    if i == |s| {
    } else if s[i] != '_' {
      assert s[i..][1..] == s[i + 1..];
      ComesByPosition(s, i + 1);
    } else if i + 1 < |s| && LowerLetter(s[i + 1]) {
      assert s[i..][2..] == s[i + 2..];
      ComesByPosition(s, i + 2);
      assert PascalBefore(s, i + 2) == Up(s[i + 1]);
    }
  }

  // A name is what its Pascal form reads back as exactly when it is in snake form and
  // each of its underscores is recovered.
  lemma RoundTripExactly(s: string)
    ensures ToSnake(ToPascal(s)) == s <==>
      SnakeForm(s) && forall i | 0 < i < |s| && s[i] == '_' :: Returns(s, i)
  {
    SnakeIsSnakeForm(ToPascal(s));
    if SnakeForm(s) && s != "" {
      BackIsStripped(s);
      ComesExactly(Up(s[0]), s[1..]);
      ComesByPosition(s, 1);
      assert s == [s[0]] + s[1..];
      assert ToSnake(ToPascal(s))[1..] == Back(false, Up(s[0]), s[1..]);
    } else if s == "" {
      SnakeFormStays("");
      PascalIsJoined("");
    }
  }

  predicate PartStarts(s: string, i: nat)
    requires i < |s|
  {
    i == 0 || s[i - 1] == '_'
  }

  // Parts of a letter and at least one more letter or digit, one underscore between.
  predicate PlainName(s: string) {
    && SnakeForm(s)
    && (forall c <- s :: LowerOrDigit(c) || c == '_')
    && (forall i: nat | i < |s| && PartStarts(s, i) :: LowerLetter(s[i]) && i + 1 < |s| && s[i + 1] != '_')
  }

  // Such names come back, so no two of them share a Pascal form.
  lemma PlainNamesReturn(s: string)
    requires PlainName(s)
    ensures ToSnake(ToPascal(s)) == s
  {
    forall i | 0 < i < |s| && s[i] == '_' ensures Returns(s, i) {
      assert PartStarts(s, i + 1);
      if PartStarts(s, i - 1) { assert false; }
      assert LowerOrDigit(s[i - 1]);
    }
    RoundTripExactly(s);
  }

  lemma PascalIsInjective(s: string, t: string)
    requires PlainName(s) && PlainName(t) && ToPascal(s) == ToPascal(t)
    ensures s == t
  {
    PlainNamesReturn(s);
    PlainNamesReturn(t);
  }

  // A part that starts with a digit, or a last part of one letter after a part of one
  // letter, does not come back.
  lemma NamesThatDoNotReturn(s: string, i: nat)
    requires 0 < i < |s| - 1 && s[i] == '_'
    requires '0' <= s[i + 1] <= '9' || (i + 2 == |s| && LowerLetter(s[i - 1]) && PartStarts(s, i - 1))
    ensures ToSnake(ToPascal(s)) != s
  {
    RoundTripExactly(s);
    assert !Returns(s, i);
  }
}
