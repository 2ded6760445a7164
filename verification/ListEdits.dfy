/**
  Adding a value to a one-line list of quoted strings in a configuration text, and
  doing so for every list that names the domains.
 */
module ListEdits {
  import opened Options
  import opened Text

  /******* Text and lines *******/

  // The pieces between line feeds, at least one.
  function Lines(text: string): (lines: seq<string>)
    ensures lines != [] && forall l <- lines :: '\n' !in l
    decreases |text|
  {
    var i := Find(text, '\n');
    assert '\n' !in text[..i];
    if i == |text| then [text[..i]] else [text[..i]] + Lines(text[i + 1..])
  }

  function Unlines(lines: seq<string>): string
    requires lines != []
  {
    if |lines| == 1 then lines[0] else lines[0] + ("\n" + Unlines(lines[1..]))
  }

  lemma UnlinesCons(line: string, rest: seq<string>)
    requires rest != []
    ensures Unlines([line] + rest) == line + ("\n" + Unlines(rest))
  {
    assert ([line] + rest)[1..] == rest;
  }

  lemma AtBreak(text: string, i: nat)
    requires i < |text| && text[i] == '\n'
    ensures text == text[..i] + ("\n" + text[i + 1..])
  {
  }

  lemma {:induction false} UnlinesLines(text: string)
    ensures Unlines(Lines(text)) == text
    decreases |text|
  {
    var i := Find(text, '\n');
    if i < |text| {
      var rest := text[i + 1..];
      UnlinesLines(rest);
      AtBreak(text, i);
      assert Lines(text) == [text[..i]] + Lines(rest);
      UnlinesCons(text[..i], Lines(rest));
    } else {
      assert text[..i] == text && Lines(text) == [text];
    }
  }

  lemma LinesCons(line: string, rest: string)
    requires '\n' !in line
    ensures Lines(line + ("\n" + rest)) == [line] + Lines(rest)
  {
    var text := line + ("\n" + rest);
    assert text[..|line|] == line && text[|line|] == '\n' && text[|line| + 1..] == rest;
    FindIs(text, '\n', |line|);
  }

  lemma LinesOne(line: string)
    requires '\n' !in line
    ensures Lines(line) == [line]
  {
    assert Find(line, '\n') == |line| && line[..|line|] == line;
  }

  lemma {:induction false} LinesUnlines(lines: seq<string>)
    requires lines != [] && forall i | 0 <= i < |lines| :: '\n' !in lines[i]
    ensures Lines(Unlines(lines)) == lines
  {
    assert lines == [lines[0]] + lines[1..];
    if |lines| == 1 {
      LinesOne(lines[0]);
    } else {
      LinesUnlines(lines[1..]);
      LinesCons(lines[0], Unlines(lines[1..]));
    }
  }

  /******* Quoted values *******/

  // The first `"..."` and what follows it.
  function NextValue(literal: string): (r: Option<(string, string)>)
    ensures r.Some? ==> |r.value.1| < |literal|
  {
    var i := Find(literal, '"');
    if i == |literal| then None
    else
      var rest := literal[i + 1..];
      var j := Find(rest, '"');
      if j == |rest| then None else Some((rest[..j], rest[j + 1..]))
  }

  // Every `"..."`, left to right.
  function Values(literal: string): seq<string>
    decreases |literal|
  {
    var next := NextValue(literal);
    if next.None? then [] else [next.value.0] + Values(next.value.1)
  }

  function Quoted(v: string): string {
    "\"" + (v + "\"")
  }

  function Rendered(values: seq<string>): string {
    if values == [] then ""
    else if |values| == 1 then Quoted(values[0])
    else Quoted(values[0]) + (", " + Rendered(values[1..]))
  }

  predicate Clean(v: string) {
    '"' !in v && ']' !in v && '\n' !in v
  }

  predicate AllClean(values: seq<string>) {
    forall i | 0 <= i < |values| :: Clean(values[i])
  }

  lemma SliceIsClean(s: string, i: nat, j: nat)
    requires i <= j <= |s| && ']' !in s && '\n' !in s && forall k | i <= k < j :: s[k] != '"'
    ensures Clean(s[i..j])
  {
  }

  lemma NextIsClean(literal: string)
    requires ']' !in literal && '\n' !in literal && NextValue(literal).Some?
    ensures Clean(NextValue(literal).value.0)
    ensures ']' !in NextValue(literal).value.1 && '\n' !in NextValue(literal).value.1
  {
    var rest := literal[Find(literal, '"') + 1..];
    SliceIsClean(rest, 0, Find(rest, '"'));
  }

  lemma {:induction false} ValuesAreClean(literal: string)
    requires ']' !in literal && '\n' !in literal
    ensures AllClean(Values(literal))
    decreases |literal|
  {
    var next := NextValue(literal);
    if next.Some? {
      NextIsClean(literal);
      ValuesAreClean(next.value.1);
      ConsClean(next.value.0, Values(next.value.1));
    }
  }

  lemma ConsClean(v: string, values: seq<string>)
    requires Clean(v) && AllClean(values)
    ensures AllClean([v] + values)
  {
  }

  // A quoted value at the front of a literal.
  lemma ValuesOfQuoted(v: string, rest: string)
    requires '"' !in v
    ensures Values(Quoted(v) + rest) == [v] + Values(rest)
  {
    var all := Quoted(v) + rest;
    assert Find(all, '"') == 0;
    var tail := all[1..];
    assert tail == v + ("\"" + rest) && tail[..|v|] == v && tail[|v|] == '"' && tail[|v| + 1..] == rest;
    FindIs(tail, '"', |v|);
    assert NextValue(all) == Some((v, rest));
  }

  lemma FindSkip(s: string, c: char, n: nat)
    requires n <= |s| && forall k | 0 <= k < n :: s[k] != c
    ensures Find(s, c) == n + Find(s[n..], c)
  {
    var m := Find(s[n..], c);
    assert forall k | n <= k < n + m :: s[k] == s[n..][k - n];
    if n + m < |s| {
      assert s[n + m] == s[n..][m];
      if c in s[..n + m] { assert false; }
      FindIs(s, c, n + m);
    }
  }

  lemma ValuesAfterComma(rest: string)
    ensures Values(", " + rest) == Values(rest)
  {
    var all := ", " + rest;
    assert all[0] == ',' && all[1] == ' ' && all[2..] == rest;
    FindSkip(all, '"', 2);
    var k := Find(rest, '"');
    if k < |rest| { assert all[2 + k + 1..] == rest[k + 1..]; }
    assert NextValue(all) == NextValue(rest);
  }

  lemma QuotedIsInside(v: string)
    requires Clean(v)
    ensures ']' !in Quoted(v) && '\n' !in Quoted(v)
  {
  }

  lemma RenderedIsInside(values: seq<string>)
    requires AllClean(values)
    ensures ']' !in Rendered(values) && '\n' !in Rendered(values)
  {
    if values != [] {
      QuotedIsInside(values[0]);
      if |values| > 1 { RenderedIsInside(values[1..]); }
    }
  }

  // What is rendered reads back.
  lemma {:induction false} ValuesRendered(values: seq<string>)
    requires AllClean(values)
    ensures Values(Rendered(values)) == values
  {
    if |values| == 1 {
      ValuesOfQuoted(values[0], "");
      assert Quoted(values[0]) + "" == Quoted(values[0]);
      assert values == [values[0]] + Values("");
    } else if |values| > 1 {
      ValuesRendered(values[1..]);
      ValuesAfterComma(Rendered(values[1..]));
      ValuesOfQuoted(values[0], ", " + Rendered(values[1..]));
      assert values == [values[0]] + values[1..];
    }
  }

  /******* One line *******/

  function Opening(key: string): (r: string)
    ensures |r| == |key| + 4
  {
    key + " = ["
  }

  function After(line: string, key: string): string
    requires StartsWith(line, Opening(key))
  {
    line[|Opening(key)|..]
  }

  // What a first bracket closes, and what follows it.
  function Inside(rest: string): string {
    rest[..Find(rest, ']')]
  }

  lemma InsideIsClear(rest: string)
    ensures ']' !in Inside(rest) && ('\n' !in rest ==> '\n' !in Inside(rest))
  {
  }

  function Outside(rest: string): string
    requires ']' in rest
  {
    rest[Find(rest, ']') + 1..]
  }

  lemma InsideOutside(rest: string)
    requires ']' in rest
    ensures Inside(rest) + ("]" + Outside(rest)) == rest
  {
    var i := Find(rest, ']');
    AtBracket(rest, i);
    assert Inside(rest) == rest[..i] && Outside(rest) == rest[i + 1..];
  }

  lemma AtBracket(s: string, i: nat)
    requires i < |s| && s[i] == ']'
    ensures s == s[..i] + ("]" + s[i + 1..])
  {
  }

  lemma BracketSplits(literal: string, suffix: string)
    requires ']' !in literal
    ensures var rest := literal + ("]" + suffix);
      ']' in rest && Inside(rest) == literal && Outside(rest) == suffix
  {
    var rest := literal + ("]" + suffix);
    assert rest[..|literal|] == literal && rest[|literal|] == ']' && rest[|literal| + 1..] == suffix;
    FindIs(rest, ']', |literal|);
  }

  // `key = [literal]suffix`.
  predicate Matches(line: string, key: string) {
    StartsWith(line, Opening(key)) && ']' in After(line, key)
  }

  function Literal(line: string, key: string): (r: string)
    requires Matches(line, key)
    ensures ']' !in r && ('\n' !in line ==> '\n' !in r)
  {
    assert '\n' !in line ==> '\n' !in After(line, key);
    InsideIsClear(After(line, key));
    Inside(After(line, key))
  }

  function Suffix(line: string, key: string): string
    requires Matches(line, key)
  {
    Outside(After(line, key))
  }

  function Line(key: string, literal: string, suffix: string): string {
    Opening(key) + (literal + ("]" + suffix))
  }

  lemma LineParts(key: string, literal: string, suffix: string)
    requires ']' !in literal
    ensures var l := Line(key, literal, suffix);
      Matches(l, key) && Literal(l, key) == literal && Suffix(l, key) == suffix
  {
    BracketSplits(literal, suffix);
    OpensWith(key, literal + ("]" + suffix));
  }

  lemma OpensWith(key: string, rest: string)
    ensures StartsWith(Opening(key) + rest, Opening(key)) && After(Opening(key) + rest, key) == rest
  {
  }

  lemma PartsLine(line: string, key: string)
    requires Matches(line, key)
    ensures Line(key, Literal(line, key), Suffix(line, key)) == line
  {
    InsideOutside(After(line, key));
    AfterOpening(line, key);
  }

  lemma AfterOpening(line: string, key: string)
    requires StartsWith(line, Opening(key))
    ensures line == Opening(key) + After(line, key)
  {
  }

  predicate Contains(s: string, part: string) {
    StartsWith(s, part) || (s != "" && Contains(s[1..], part))
  }

  // The list is one to look at: with `mustContain`, some value has it inside.
  predicate Qualifies(line: string, key: string, mustContain: Option<string>) {
    Matches(line, key)
    && (mustContain.Some? ==> exists v <- Values(Literal(line, key)) :: Contains(v, mustContain.value))
  }

  function Extended(line: string, key: string, value: string): string
    requires Matches(line, key)
  {
    var values := Values(Literal(line, key));
    if value in values then line else Line(key, Rendered(values + [value]), Suffix(line, key))
  }

  // The value is appended to what the list held, which stays in order; nothing after
  // the list changes; and the list still qualifies.
  lemma ExtendedKeeps(line: string, key: string, value: string, mustContain: Option<string>)
    requires Qualifies(line, key, mustContain) && Clean(value) && '\n' !in line
    ensures var t := Extended(line, key, value); var old_ := Values(Literal(line, key));
      && Qualifies(t, key, mustContain)
      && Suffix(t, key) == Suffix(line, key)
      && Values(Literal(t, key)) == if value in old_ then old_ else old_ + [value]
  {
    var values := Values(Literal(line, key));
    if value !in values {
      LiteralIsInside(line, key, value);
      LineParts(key, Rendered(values + [value]), Suffix(line, key));
      assert forall v <- values :: v in values + [value];
    }
  }

  lemma LiteralIsInside(line: string, key: string, value: string)
    requires Matches(line, key) && Clean(value) && '\n' !in line
    ensures var values := Values(Literal(line, key)) + [value];
      ']' !in Rendered(values) && '\n' !in Rendered(values) && Values(Rendered(values)) == values
  {
    var values := Values(Literal(line, key)) + [value];
    ValuesAreClean(Literal(line, key));
    ValuesRendered(values);
    RenderedIsInside(values);
  }

  lemma ExtendedIsOneLine(line: string, key: string, value: string)
    requires Matches(line, key) && Clean(value) && '\n' !in line && '\n' !in key
    ensures '\n' !in Extended(line, key, value)
  {
    LiteralIsInside(line, key, value);
    assert '\n' !in Suffix(line, key);
    assert '\n' !in Opening(key);
  }

  /******* All lines *******/

  datatype Target = Target(key: string, value: string, mustContain: Option<string>)

  predicate WellFormed(t: Target) {
    Clean(t.value) && ' ' !in t.key && '\n' !in t.key
  }

  // The first list that qualifies is the one extended.
  function AddToLines(lines: seq<string>, t: Target): (r: seq<string>)
    ensures |r| == |lines|
  {
    if lines == [] then []
    else if Qualifies(lines[0], t.key, t.mustContain) then [Extended(lines[0], t.key, t.value)] + lines[1..]
    else [lines[0]] + AddToLines(lines[1..], t)
  }

  // `_add_to_list`.
  function AddToList(text: string, t: Target): string {
    Unlines(AddToLines(Lines(text), t))
  }

  // The index of the list a target goes to.
  function Chosen(lines: seq<string>, t: Target): (i: nat)
    ensures i <= |lines| && (i < |lines| ==> Qualifies(lines[i], t.key, t.mustContain))
    ensures forall k | 0 <= k < i :: !Qualifies(lines[k], t.key, t.mustContain)
  {
    if lines == [] || Qualifies(lines[0], t.key, t.mustContain) then 0 else 1 + Chosen(lines[1..], t)
  }

  // Only the first qualifying line changes.
  lemma {:induction false} AddToLinesAt(lines: seq<string>, t: Target)
    ensures var i := Chosen(lines, t);
      AddToLines(lines, t) == if i == |lines| then lines else lines[i := Extended(lines[i], t.key, t.value)]
  {
    if lines == [] {
    } else if Qualifies(lines[0], t.key, t.mustContain) {
      assert lines == [lines[0]] + lines[1..];
    } else {
      AddToLinesAt(lines[1..], t);
      var j := Chosen(lines[1..], t);
      if j < |lines| - 1 {
        ConsUpdate(lines, j, Extended(lines[1..][j], t.key, t.value));
      } else {
        assert lines == [lines[0]] + lines[1..];
      }
    }
  }

  lemma ConsUpdate(lines: seq<string>, j: nat, line: string)
    requires j + 1 < |lines|
    ensures [lines[0]] + lines[1..][j := line] == lines[j + 1 := line]
  {
  }

  lemma ChosenIs(lines: seq<string>, t: Target, i: nat)
    requires i < |lines| && Qualifies(lines[i], t.key, t.mustContain)
    requires forall k | 0 <= k < i :: !Qualifies(lines[k], t.key, t.mustContain)
    ensures Chosen(lines, t) == i
  {
  }

  predicate NoBreaks(lines: seq<string>) {
    forall i | 0 <= i < |lines| :: '\n' !in lines[i]
  }

  lemma AddingKeepsLines(lines: seq<string>, t: Target)
    requires NoBreaks(lines) && WellFormed(t)
    ensures NoBreaks(AddToLines(lines, t))
  {
    AddToLinesAt(lines, t);
    var i := Chosen(lines, t);
    if i < |lines| {
      ExtendedIsOneLine(lines[i], t.key, t.value);
      UpdateKeepsLines(lines, i, Extended(lines[i], t.key, t.value));
    }
  }

  lemma UpdateKeepsLines(lines: seq<string>, i: nat, line: string)
    requires NoBreaks(lines) && i < |lines| && '\n' !in line
    ensures NoBreaks(lines[i := line])
  {
  }

  lemma ExtendedTwice(line: string, key: string, value: string, mustContain: Option<string>)
    requires Qualifies(line, key, mustContain) && Clean(value) && '\n' !in line
    ensures var t := Extended(line, key, value); Qualifies(t, key, mustContain) && Extended(t, key, value) == t
  {
    ExtendedKeeps(line, key, value, mustContain);
  }

  lemma AddingTwice(lines: seq<string>, t: Target)
    requires NoBreaks(lines) && WellFormed(t)
    ensures AddToLines(AddToLines(lines, t), t) == AddToLines(lines, t)
  {
    AddToLinesAt(lines, t);
    var i := Chosen(lines, t);
    if i < |lines| {
      var line := Extended(lines[i], t.key, t.value);
      ExtendedTwice(lines[i], t.key, t.value, t.mustContain);
      ChosenIs(lines[i := line], t, i);
      AddToLinesAt(lines[i := line], t);
      SameAgain(lines, i, line);
    }
  }

  lemma SameAgain(lines: seq<string>, i: nat, line: string)
    requires i < |lines|
    ensures lines[i := line][i := line] == lines[i := line]
  {
  }

  // A second addition changes nothing.
  lemma AddToListIsIdempotent(text: string, t: Target)
    requires WellFormed(t)
    ensures AddToList(AddToList(text, t), t) == AddToList(text, t)
  {
    var lines := Lines(text);
    assert NoBreaks(lines);
    AddingKeepsLines(lines, t);
    AddingTwice(lines, t);
    LinesUnlines(AddToLines(lines, t));
  }

  // An addition changes at most one line, and there only the list's literal, to which
  // it appends.
  lemma AddToListTouchesOneList(text: string, t: Target)
    requires WellFormed(t)
    ensures var lines := Lines(text); var i := Chosen(lines, t);
      var after := Lines(AddToList(text, t));
      && |after| == |lines|
      && (forall k | 0 <= k < |lines| && k != i :: after[k] == lines[k])
      && (i < |lines| ==>
            && Matches(after[i], t.key) && Suffix(after[i], t.key) == Suffix(lines[i], t.key)
            && var old_ := Values(Literal(lines[i], t.key));
               Values(Literal(after[i], t.key)) == if t.value in old_ then old_ else old_ + [t.value])
  {
    var lines := Lines(text);
    assert NoBreaks(lines);
    AddingKeepsLines(lines, t);
    AddToLinesAt(lines, t);
    LinesUnlines(AddToLines(lines, t));
    var i := Chosen(lines, t);
    if i < |lines| { ExtendedKeeps(lines[i], t.key, t.value, t.mustContain); }
  }

  // A value that is in its list already, or has no list, leaves the text untouched.
  lemma NothingToAdd(text: string, t: Target)
    ensures var lines := Lines(text); var i := Chosen(lines, t);
      (i == |lines| || t.value in Values(Literal(lines[i], t.key))) ==> AddToList(text, t) == text
  {
    AddToLinesAt(Lines(text), t);
    UnlinesLines(text);
    var i := Chosen(Lines(text), t);
    if i < |Lines(text)| { assert Lines(text)[i := Lines(text)[i]] == Lines(text); }
  }

  /******* What an addition loses *******/

  // What an addition writes after the values it keeps.
  function Added(values: seq<string>, value: string): string {
    if values == [] then Quoted(value) else ", " + Quoted(value)
  }

  lemma {:induction false} RenderedMore(values: seq<string>, value: string)
    ensures Rendered(values + [value]) == Rendered(values) + Added(values, value)
  {
    var all := values + [value];
    if values == [] {
      assert all == [value] && Rendered([]) + Added([], value) == Added([], value);
    } else if |values| == 1 {
      assert all[1..] == [value] && all[0] == values[0];
    } else {
      assert all[1..] == values[1..] + [value] && all[0] == values[0];
      RenderedMore(values[1..], value);
      RegroupThree(Quoted(values[0]), ", ", Rendered(values[1..]), Added(values, value));
    }
  }

  lemma RegroupThree(a: string, b: string, c: string, d: string)
    ensures a + (b + (c + d)) == (a + (b + c)) + d
  {
    assert b + (c + d) == (b + c) + d;
  }

  // An addition is an insertion right behind the old literal if and only if the
  // literal was written as additions write it.
  lemma AdditionInsertsExactly(line: string, key: string, value: string)
    requires Matches(line, key) && value !in Values(Literal(line, key)) && Clean(value) && '\n' !in line
    ensures var literal := Literal(line, key); var values := Values(literal);
      && line == Line(key, literal, Suffix(line, key))
      && ((Extended(line, key, value) == Line(key, literal + Added(values, value), Suffix(line, key)))
          <==> (literal == Rendered(values)))
  {
    var literal, suffix := Literal(line, key), Suffix(line, key);
    var values := Values(literal);
    PartsLine(line, key);
    RenderedMore(values, value);
    SameLine(key, Rendered(values), literal, Added(values, value), suffix);
  }

  lemma SameLine(key: string, a: string, b: string, more: string, suffix: string)
    ensures Line(key, a + more, suffix) == Line(key, b + more, suffix) <==> a == b
  {
    if Line(key, a + more, suffix) == Line(key, b + more, suffix) {
      Cancel(Opening(key), (a + more) + ("]" + suffix), (b + more) + ("]" + suffix));
      CancelEnd(a + more, b + more, "]" + suffix);
      CancelEnd(a, b, more);
    }
  }

  lemma Cancel(head: string, a: string, b: string)
    requires head + a == head + b
    ensures a == b
  {
    assert a == (head + a)[|head|..] && b == (head + b)[|head|..];
  }

  lemma CancelEnd(a: string, b: string, end: string)
    requires a + end == b + end
    ensures a == b
  {
    assert |a + end| == |b + end|;
    assert a == (a + end)[..|a|] && b == (b + end)[..|b|];
  }

  function Quotes(s: string): nat {
    if s == "" then 0 else (if s[0] == '"' then 1 else 0) + Quotes(s[1..])
  }

  lemma {:induction false} QuotesConcat(a: string, b: string)
    ensures Quotes(a + b) == Quotes(a) + Quotes(b)
  {
    if a == "" {
      assert a + b == b;
    } else {
      assert (a + b)[1..] == a[1..] + b;
      QuotesConcat(a[1..], b);
    }
  }

  lemma NoQuotes(s: string)
    requires '"' !in s
    ensures Quotes(s) == 0
  {
  }

  lemma QuotesOfQuoted(v: string)
    requires '"' !in v
    ensures Quotes(Quoted(v)) == 2
  {
    NoQuotes(v);
    QuotesConcat(v, "\"");
    assert Quotes("\"") == 1;
    QuotesConcat("\"", v + "\"");
  }

  lemma {:induction false} QuotesOfRendered(values: seq<string>)
    requires AllClean(values)
    ensures Quotes(Rendered(values)) == 2 * |values|
    ensures values != [] ==> Rendered(values) != "" && Rendered(values)[|Rendered(values)| - 1] == '"'
  {
    if values != [] {
      QuotesOfQuoted(values[0]);
      if |values| > 1 {
        QuotesOfRendered(values[1..]);
        NoQuotes(", ");
        QuotesConcat(", ", Rendered(values[1..]));
        QuotesConcat(Quoted(values[0]), ", " + Rendered(values[1..]));
      }
    }
  }

  lemma QuoteCounts(s: string)
    ensures Quotes("\"" + s) == 1 + Quotes(s)
  {
    assert ("\"" + s)[1..] == s;
  }

  lemma QuotesAround(a: string, b: string, c: string)
    ensures Quotes(a + ("\"" + (b + ("\"" + c)))) >= 2 + Quotes(c)
  {
    QuoteCounts(c);
    QuotesConcat(b, "\"" + c);
    QuoteCounts(b + ("\"" + c));
    QuotesConcat(a, "\"" + (b + ("\"" + c)));
  }

  lemma AtQuote(s: string, i: nat)
    requires i < |s| && s[i] == '"'
    ensures s == s[..i] + ("\"" + s[i + 1..])
  {
  }

  lemma TwoQuotes(s: string, i: nat, j: nat)
    requires i < |s| && s[i] == '"' && j < |s[i + 1..]| && s[i + 1..][j] == '"'
    ensures var rest := s[i + 1..]; s == s[..i] + ("\"" + (rest[..j] + ("\"" + rest[j + 1..])))
  {
    AtQuote(s, i);
    AtQuote(s[i + 1..], j);
  }

  lemma QuotesOfValue(s: string, i: nat, j: nat)
    requires i < |s| && s[i] == '"' && j < |s[i + 1..]| && s[i + 1..][j] == '"'
    ensures Quotes(s) >= 2 + Quotes(s[i + 1..][j + 1..])
  {
    var rest := s[i + 1..];
    TwoQuotes(s, i, j);
    QuotesAround(s[..i], rest[..j], rest[j + 1..]);
  }

  // Every value read has its two quotes.
  lemma {:induction false} ValuesHaveQuotes(literal: string)
    ensures Quotes(literal) >= 2 * |Values(literal)|
    decreases |literal|
  {
    var next := NextValue(literal);
    if next.Some? {
      var i := Find(literal, '"');
      QuotesOfValue(literal, i, Find(literal[i + 1..], '"'));
      ValuesHaveQuotes(next.value.1);
    }
  }

  lemma FrontOfConcat(l: string, a: string, b: string)
    requires a <= l
    ensures l <= a + b <==> l[|a|..] <= b
  {
    assert l == a + l[|a|..];
    if l <= a + b {
      assert l[|a|..] == (a + b)[|a|..|l|] == b[..|l| - |a|];
    }
  }

  // The old literal is still the front of the new one if and only if it was the
  // values as additions write them, or those and a beginning of what is added, such
  // as a trailing comma.
  lemma FrontSurvivesExactly(literal: string, value: string)
    requires ']' !in literal && '\n' !in literal && Clean(value)
    ensures var values := Values(literal); var written := Rendered(values);
      (literal <= Rendered(values + [value])) <==> (written <= literal && literal[|written|..] <= Added(values, value))
  {
    var values := Values(literal);
    var written, added := Rendered(values), Added(values, value);
    RenderedMore(values, value);
    if literal <= written + added { FrontIsLong(literal, added); }
    if written <= literal { FrontOfConcat(literal, written, added); }
  }

  lemma ShorterHasFewerQuotes(a: string, b: string)
    requires a <= b && |a| < |b| && b[|b| - 1] == '"'
    ensures Quotes(a) < Quotes(b)
  {
    assert b == a + b[|a|..];
    QuotesConcat(a, b[|a|..]);
    LastQuoteCounts(b[|a|..]);
  }

  lemma FrontOfEither(l: string, a: string, b: string)
    requires l <= a + b
    ensures if |l| < |a| then l <= a else a <= l
  {
  }

  // A front shorter than the values would lack the last one's closing quote.
  lemma FrontIsLong(literal: string, added: string)
    requires ']' !in literal && '\n' !in literal && literal <= Rendered(Values(literal)) + added
    ensures Rendered(Values(literal)) <= literal
  {
    var values := Values(literal);
    FrontOfEither(literal, Rendered(values), added);
    ValuesAreClean(literal);
    QuotesOfRendered(values);
    ValuesHaveQuotes(literal);
    if |literal| < |Rendered(values)| { ShorterHasFewerQuotes(literal, Rendered(values)); }
  }

  lemma {:induction false} LastQuoteCounts(s: string)
    requires s != "" && s[|s| - 1] == '"'
    ensures Quotes(s) >= 1
  {
    if |s| > 1 { LastQuoteCounts(s[1..]); }
  }

  // A trailing comma is kept, though the literal is not as additions write it.
  lemma TrailingCommaSurvives(v: string, value: string)
    requires Clean(v) && Clean(value)
    ensures var literal := Quoted(v) + ",";
      Values(literal) == [v] && literal != Rendered([v]) && literal <= Rendered([v, value])
  {
    ValuesOfQuoted(v, ",");
    assert Values(",") == [];
    RenderedMore([v], value);
    assert [v] + [value] == [v, value];
    assert Quoted(v) + ", " + Quoted(value) == (Quoted(v) + ",") + (" " + Quoted(value));
    assert Quoted(v) + (", " + Quoted(value)) == Quoted(v) + ", " + Quoted(value);
  }

  // Values in single quotes are not seen, and are lost when one is added.
  lemma SingleQuotesAreLost(key: string, literal: string, value: string, suffix: string)
    requires '"' !in literal && ']' !in literal
    ensures Extended(Line(key, literal, suffix), key, value) == Line(key, Quoted(value), suffix)
  {
    LineParts(key, literal, suffix);
    assert Find(literal, '"') == |literal|;
    assert [] + [value] == [value];
  }

  /******* Every list *******/

  // Different keys match different lines.
  lemma KeysApart(line: string, a: string, b: string)
    requires ' ' !in a && ' ' !in b && Matches(line, a) && Matches(line, b)
    ensures a == b
  {
    assert line[..|a| + 4] == Opening(a) && line[..|b| + 4] == Opening(b);
    assert line[|a|] == Opening(a)[|a|] == ' ' && line[|b|] == Opening(b)[|b|] == ' ';
    assert line[..|a|] == Opening(a)[..|a|] == a && line[..|b|] == Opening(b)[..|b|] == b;
  }

  function AddAll(lines: seq<string>, targets: seq<Target>): seq<string> {
    if targets == [] then lines
    else AddToLines(AddAll(lines, targets[..|targets| - 1]), targets[|targets| - 1])
  }

  // A line of another key in place of one of another key: the same list is chosen.
  lemma ChosenElsewhere(lines: seq<string>, i: nat, line: string, u: Target)
    requires i < |lines| && !Matches(lines[i], u.key) && !Matches(line, u.key)
    ensures Chosen(lines[i := line], u) == Chosen(lines, u)
  {
    var after, j := lines[i := line], Chosen(lines, u);
    if j < |lines| {
      ChosenIs(after, u, j);
    }
  }

  // Adding to one key's list leaves the list of another key's target as it was.
  lemma AddingApart(lines: seq<string>, t: Target, u: Target)
    requires NoBreaks(lines) && WellFormed(t) && WellFormed(u) && t.key != u.key
    requires AddToLines(lines, u) == lines
    ensures AddToLines(AddToLines(lines, t), u) == AddToLines(lines, t)
  {
    AddToLinesAt(lines, t);
    var i := Chosen(lines, t);
    if i < |lines| {
      var line := Extended(lines[i], t.key, t.value);
      ExtendedKeeps(lines[i], t.key, t.value, t.mustContain);
      if Matches(line, u.key) { KeysApart(line, t.key, u.key); }
      if Matches(lines[i], u.key) { KeysApart(lines[i], t.key, u.key); }
      ChosenElsewhere(lines, i, line, u);
      StillSettled(lines, i, line, u);
    }
  }

  lemma StillSettled(lines: seq<string>, i: nat, line: string, u: Target)
    requires i < |lines| && Chosen(lines[i := line], u) == Chosen(lines, u) != i && AddToLines(lines, u) == lines
    ensures AddToLines(lines[i := line], u) == lines[i := line]
  {
    var after, j := lines[i := line], Chosen(lines, u);
    AddToLinesAt(lines, u);
    AddToLinesAt(after, u);
    if j < |lines| {
      assert lines[j := Extended(lines[j], u.key, u.value)][j] == lines[j];
      assert after[j := after[j]] == after;
    }
  }

  predicate Apart(targets: seq<Target>) {
    && (forall t <- targets :: WellFormed(t))
    && (forall i, j | 0 <= i < j < |targets| :: targets[i].key != targets[j].key)
  }

  lemma {:induction false} AddAllSettles(lines: seq<string>, targets: seq<Target>, k: nat)
    requires NoBreaks(lines) && Apart(targets)
    ensures NoBreaks(AddAll(lines, targets))
    ensures k < |targets| ==> AddToLines(AddAll(lines, targets), targets[k]) == AddAll(lines, targets)
  {
    if targets != [] {
      var front, last := targets[..|targets| - 1], targets[|targets| - 1];
      AddAllSettles(lines, front, k);
      AddingKeepsLines(AddAll(lines, front), last);
      if k < |front| {
        AddingApart(AddAll(lines, front), last, targets[k]);
      } else if k == |front| {
        AddingTwice(AddAll(lines, front), last);
      }
    }
  }

  lemma {:induction false} AddAllNothing(lines: seq<string>, targets: seq<Target>)
    requires forall t <- targets :: AddToLines(lines, t) == lines
    ensures AddAll(lines, targets) == lines
  {
    if targets != [] { AddAllNothing(lines, targets[..|targets| - 1]); }
  }

  // Registering a domain in every list twice is registering it once.
  lemma RegisteringIsIdempotent(lines: seq<string>, targets: seq<Target>)
    requires NoBreaks(lines) && Apart(targets)
    ensures AddAll(AddAll(lines, targets), targets) == AddAll(lines, targets)
  {
    forall t | t in targets ensures AddToLines(AddAll(lines, targets), t) == AddAll(lines, targets) {
      var k :| 0 <= k < |targets| && targets[k] == t;
      AddAllSettles(lines, targets, k);
    }
    AddAllNothing(AddAll(lines, targets), targets);
  }

  function Targets(domain: string): seq<Target> {
    [Target("include", domain + "*", None),
     Target("known-first-party", domain, None),
     Target("source", domain, None),
     Target("known_first_party", domain, None),
     Target("root_packages", domain, None),
     Target("containers", domain, None),
     Target("source_modules", domain + ".entities", Some(".entities"))]
  }

  lemma CleanConcat(a: string, b: string)
    requires Clean(a) && Clean(b)
    ensures Clean(a + b)
  {
  }

  predicate PlainKey(key: string) {
    ' ' !in key && '\n' !in key
  }

  lemma PlainShortKeys()
    ensures PlainKey("include") && PlainKey("source") && PlainKey("containers")
  {
  }

  lemma PlainFirstPartyKeys()
    ensures PlainKey("known-first-party") && PlainKey("known_first_party")
  {
  }

  lemma PlainLinterKeys()
    ensures PlainKey("root_packages") && PlainKey("source_modules")
  {
  }

  lemma DistinctKeys(domain: string, i: nat, j: nat)
    requires i < j < |Targets(domain)|
    ensures Targets(domain)[i].key != Targets(domain)[j].key
  {
    var a, b := "known-first-party", "known_first_party";
    assert a[5] == '-' && b[5] == '_';
  }

  lemma TargetsAreApart(domain: string)
    requires Clean(domain)
    ensures Apart(Targets(domain))
  {
    var targets := Targets(domain);
    CleanConcat(domain, "*");
    CleanConcat(domain, ".entities");
    PlainShortKeys();
    PlainFirstPartyKeys();
    PlainLinterKeys();
    forall t | t in targets ensures WellFormed(t) {
      assert PlainKey(t.key);
    }
    forall i, j | 0 <= i < j < |targets| ensures targets[i].key != targets[j].key {
      DistinctKeys(domain, i, j);
    }
  }

  // The loop of `register_pyproject` over the text.
  function RegisterAll(text: string, targets: seq<Target>): string {
    if targets == [] then text
    else AddToList(RegisterAll(text, targets[..|targets| - 1]), targets[|targets| - 1])
  }

  lemma {:induction false} RegisterAllLines(text: string, targets: seq<Target>)
    requires Apart(targets)
    ensures Lines(RegisterAll(text, targets)) == AddAll(Lines(text), targets)
  {
    if targets != [] {
      var front := targets[..|targets| - 1];
      RegisterAllLines(text, front);
      AddAllSettles(Lines(text), targets, 0);
      LinesUnlines(AddAll(Lines(text), targets));
    }
  }

  // Registering a domain twice leaves the text as registering it once does.
  lemma RegisterAllIsIdempotent(text: string, domain: string)
    requires Clean(domain)
    ensures var once := RegisterAll(text, Targets(domain)); RegisterAll(once, Targets(domain)) == once
  {
    var targets := Targets(domain);
    TargetsAreApart(domain);
    var once := RegisterAll(text, targets);
    RegisterAllLines(text, targets);
    RegisterAllLines(once, targets);
    RegisteringIsIdempotent(Lines(text), targets);
    UnlinesLines(once);
    UnlinesLines(RegisterAll(once, targets));
  }

  /******* The methods *******/

  // `_list_values`, match by match.
  method ListValues(literal: string) returns (values: seq<string>)
    ensures values == Values(literal)
  {
    values := [];
    var next := NextValue(literal);
    ghost var rest := literal;
    while next.Some?
      invariant next == NextValue(rest) && values + Values(rest) == Values(literal)
      decreases |rest|
    {
      var (value, after) := next.value;
      OneMore(values, value, Values(after));
      values := values + [value];
      rest := after;
      next := NextValue(after);
    }
    assert values + [] == values;
  }

  lemma OneMore(values: seq<string>, v: string, more: seq<string>)
    ensures values + ([v] + more) == (values + [v]) + more
  {
  }

  // One match: whether its list is the one to edit, and its values.
  method Inspect(line: string, t: Target) returns (chosen: bool, values: seq<string>)
    ensures chosen <==> Qualifies(line, t.key, t.mustContain)
    ensures chosen ==> values == Values(Literal(line, t.key))
  {
    if !Matches(line, t.key) {
      return false, [];
    }
    values := ListValues(Literal(line, t.key));
    chosen := t.mustContain.None? || exists v <- values :: Contains(v, t.mustContain.value);
  }

  // The matches in the order of the text, up to the one to edit.
  method Search(lines: seq<string>, t: Target) returns (at: nat, values: seq<string>)
    ensures at == Chosen(lines, t)
    ensures at < |lines| ==> values == Values(Literal(lines[at], t.key))
  {
    ghost var goal := Chosen(lines, t);
    at := 0;
    while at < |lines|
      invariant at <= goal
    {
      var chosen: bool;
      chosen, values := Inspect(lines[at], t);
      if chosen {
        return;
      }
      at := at + 1;
    }
    values := [];
  }

  // `_add_to_list`.
  method AddValue(text: string, t: Target) returns (r: string)
    ensures r == AddToList(text, t)
  {
    var lines := Lines(text);
    AddToLinesAt(lines, t);
    NothingToAdd(text, t);
    var at, values := Search(lines, t);
    if at == |lines| || t.value in values {
      return text;
    }
    return Unlines(lines[at := Line(t.key, Rendered(values + [t.value]), Suffix(lines[at], t.key))]);
  }

  // The loop over the targets.
  method AddValues(text: string, targets: seq<Target>) returns (content: string)
    ensures content == RegisterAll(text, targets)
  {
    content := text;
    for i := 0 to |targets|
      invariant content == RegisterAll(text, targets[..i])
    {
      assert targets[..i + 1][..i] == targets[..i];
      content := AddValue(content, targets[i]);
    }
    assert targets[..|targets|] == targets;
  }

  // The text parses, and each list in it has its target's value.
  predicate NamesAll(lists: Option<seq<seq<string>>>, targets: seq<Target>) {
    lists.Some? && |lists.value| == |targets| && forall i | 0 <= i < |targets| :: targets[i].value in lists.value[i]
  }

  // The lists of a configuration text, in the order of the targets, if it parses.
  type Parser = string -> Option<seq<seq<string>>>

  class ProjectFile {
    const parse: Parser
    var text: string

    constructor (parse: Parser, text: string)
      ensures this.parse == parse && this.text == text
    {
      this.parse, this.text := parse, text;
    }

    // `register_pyproject`: what is written parses and names the domain in every list,
    // and registering the domain once more would change nothing.
    method Register(domain: string) returns (written: bool)
      requires Clean(domain)
      modifies this
      ensures var targets := Targets(domain); var after := RegisterAll(old(text), targets);
        && (written <==> NamesAll(parse(after), targets) && after != old(text))
        && text == (if written then after else old(text))
        && (written ==> NamesAll(parse(text), targets) && RegisterAll(text, targets) == text)
    {
      var targets := Targets(domain);
      var content := AddValues(text, targets);
      var lists := parse(content);
      if !NamesAll(lists, targets) || content == text {
        return false;
      }
      RegisterAllIsIdempotent(text, domain);
      text := content;
      return true;
    }
  }
}
