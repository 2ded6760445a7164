/**
  The scaffolder's edits of files it shares with people: a router wired into the
  lines of a module, and a value added to lists in a configuration text.
 */
module TextMerges {
  import opened Options
  import opened Text

  /******* Lines *******/

  // Where Python's `splitlines` breaks; reading a file as text has already turned
  // carriage returns into line feeds.
  predicate Break(c: char) {
    c == '\n' || c == '\U{0B}' || c == '\U{0C}' || '\U{1C}' <= c <= '\U{1E}' || c == '\U{85}'
    || c == '\U{2028}' || c == '\U{2029}'
  }

  predicate OneLine(s: string) {
    forall c <- s :: !Break(c)
  }

  function LineEnd(text: string): (i: nat)
    ensures i <= |text| && OneLine(text[..i]) && (i < |text| ==> Break(text[i]))
  {
    if text == "" || Break(text[0]) then 0 else
      var i := 1 + LineEnd(text[1..]);
      assert text[..i] == [text[0]] + text[1..][..i - 1];
      i
  }

  function SplitLines(text: string): (lines: seq<string>)
    ensures forall l <- lines :: OneLine(l)
    decreases |text|
  {
    if text == "" then []
    else
      var i := LineEnd(text);
      [text[..i]] + if i < |text| then SplitLines(text[i + 1..]) else []
  }

  // `"\n".join(lines) + "\n"`.
  function JoinLines(lines: seq<string>): string {
    if lines == [] then "" else lines[0] + "\n" + JoinLines(lines[1..])
  }

  lemma LineEndIs(text: string, i: nat)
    requires i < |text| && OneLine(text[..i]) && Break(text[i])
    ensures LineEnd(text) == i
  {
    var j := LineEnd(text);
    assert forall k | 0 <= k < i :: text[k] in text[..i];
    assert forall k | 0 <= k < j :: text[k] in text[..j];
  }

  lemma {:induction false} SplitJoin(lines: seq<string>)
    requires forall l <- lines :: OneLine(l)
    ensures SplitLines(JoinLines(lines)) == lines
  {
    if lines != [] {
      var text, rest := JoinLines(lines), JoinLines(lines[1..]);
      var n := |lines[0]|;
      assert text[..n] == lines[0] && text[n] == '\n' && text[n + 1..] == rest;
      LineEndIs(text, n);
      SplitJoin(lines[1..]);
      assert lines == [lines[0]] + lines[1..];
    }
  }

  /******* Wiring a router *******/

  predicate IsImport(line: string) {
    StartsWith(line, "from ") || StartsWith(line, "import ")
  }

  predicate IsInclude(line: string) {
    StartsWith(line, "v1_router.include_router(")
  }

  predicate IsRouter(line: string) {
    StartsWith(line, "v1_router =")
  }

  datatype LineKind = ImportLine | IncludeLine | RouterLine

  predicate Is(kind: LineKind, line: string) {
    match kind
    case ImportLine => IsImport(line)
    case IncludeLine => IsInclude(line)
    case RouterLine => IsRouter(line)
  }

  // One past the last line of a kind, or nothing.
  function AfterLast(lines: seq<string>, kind: LineKind): (at: Option<nat>)
    ensures at.Some? ==> 0 < at.value <= |lines| && Is(kind, lines[at.value - 1])
    ensures forall i | 0 <= i < |lines| && Is(kind, lines[i]) :: at.Some? && i < at.value
  {
    if lines == [] then None
    else if Is(kind, lines[|lines| - 1]) then Some(|lines|)
    else AfterLast(lines[..|lines| - 1], kind)
  }

  function Insert(lines: seq<string>, at: nat, line: string): (r: seq<string>)
    requires at <= |lines|
    ensures |r| == |lines| + 1 && r[at] == line
  {
    lines[..at] + [line] + lines[at..]
  }

  datatype Wiring = CannotWire | AlreadyWired | Wired(lines: seq<string>)

  // Inserted after the includes, or at the end.
  function WithInclude(lines: seq<string>, includeLine: string): seq<string> {
    if includeLine in lines then lines
    else
      var at := AfterLast(lines, IncludeLine);
      Insert(lines, if at.Some? then at.value else |lines|, includeLine)
  }

  function WireRouter(lines: seq<string>, importLine: string, includeLine: string): Wiring {
    if importLine in lines && includeLine in lines then AlreadyWired
    else
      var lastImport := AfterLast(lines, ImportLine);
      if lastImport.None? || AfterLast(lines, RouterLine).None? then CannotWire
      else
        var included := WithInclude(lines, includeLine);
        Wired(if importLine in included then included else Insert(included, lastImport.value, importLine))
  }

  // `a` with lines left out.
  predicate Subsequence(a: seq<string>, b: seq<string>) {
    if a == [] then true
    else if b == [] then false
    else if a[0] == b[0] && Subsequence(a[1..], b[1..]) then true
    else Subsequence(a, b[1..])
  }

  lemma {:induction false} SubsequenceOfItself(a: seq<string>)
    ensures Subsequence(a, a)
  {
    if a != [] { SubsequenceOfItself(a[1..]); }
  }

  lemma {:induction false} InsertKeeps(a: seq<string>, b: seq<string>, at: nat, line: string)
    requires at <= |b| && Subsequence(a, b)
    ensures Subsequence(a, Insert(b, at, line))
    decreases |b|
  {
    var r := Insert(b, at, line);
    if at == 0 {
      assert r[1..] == b;
    } else {
      assert r[0] == b[0] && r[1..] == Insert(b[1..], at - 1, line);
      if a != [] {
        if a[0] == b[0] && Subsequence(a[1..], b[1..]) {
          InsertKeeps(a[1..], b[1..], at - 1, line);
        } else {
          InsertKeeps(a, b[1..], at - 1, line);
        }
      }
    }
  }

  lemma InsertCounts(lines: seq<string>, at: nat, line: string)
    requires at <= |lines|
    ensures multiset(Insert(lines, at, line)) == multiset(lines) + multiset{line}
    ensures forall l :: l in Insert(lines, at, line) <==> l in lines || l == line
  {
    assert lines == lines[..at] + lines[at..];
    assert multiset(lines) == multiset(lines[..at]) + multiset(lines[at..]);
    forall l ensures l in Insert(lines, at, line) <==> l in lines || l == line {
      assert l in lines <==> l in multiset(lines);
      assert l in Insert(lines, at, line) <==> l in multiset(Insert(lines, at, line));
    }
  }

  function Missing(lines: seq<string>, line: string): multiset<string> {
    if line in lines then multiset{} else multiset{line}
  }

  // The original lines survive in order; only the missing ones are added, once each.
  lemma WiringIsConservative(lines: seq<string>, importLine: string, includeLine: string)
    requires importLine != includeLine && WireRouter(lines, importLine, includeLine).Wired?
    ensures var t := WireRouter(lines, importLine, includeLine).lines;
      && Subsequence(lines, t)
      && multiset(t) == multiset(lines) + Missing(lines, importLine) + Missing(lines, includeLine)
      && importLine in t && includeLine in t
  {
    SubsequenceOfItself(lines);
    var included := WithInclude(lines, includeLine);
    var at := AfterLast(lines, IncludeLine);
    var p := if at.Some? then at.value else |lines|;
    if includeLine !in lines {
      InsertKeeps(lines, lines, p, includeLine);
      InsertCounts(lines, p, includeLine);
    }
    if importLine !in included {
      var q := AfterLast(lines, ImportLine).value;
      InsertKeeps(lines, included, q, importLine);
      InsertCounts(included, q, importLine);
    }
  }

  // A second run finds nothing to do.
  lemma WiringIsIdempotent(lines: seq<string>, importLine: string, includeLine: string)
    requires importLine != includeLine && WireRouter(lines, importLine, includeLine).Wired?
    ensures WireRouter(WireRouter(lines, importLine, includeLine).lines, importLine, includeLine) == AlreadyWired
  {
    WiringIsConservative(lines, importLine, includeLine);
  }

  predicate ImportsFirst(lines: seq<string>) {
    forall i, j | 0 <= i < |lines| && 0 <= j < |lines| && IsImport(lines[i]) && IsInclude(lines[j]) :: i < j
  }

  // Where `t` has the lines of `s` but for one more at `at`.
  predicate Inserted(s: seq<string>, at: nat, line: string, t: seq<string>) {
    && at <= |s| && |t| == |s| + 1
    && forall i {:trigger t[i]} | 0 <= i < |t| :: t[i] == if i < at then s[i] else if i == at then line else s[i - 1]
  }

  lemma InsertInserts(s: seq<string>, at: nat, line: string)
    requires at <= |s|
    ensures Inserted(s, at, line, Insert(s, at, line))
  {
  }

  lemma InsertedBetween(s: seq<string>, at: nat, line: string, t: seq<string>)
    requires Inserted(s, at, line, t) && ImportsFirst(s)
    requires IsImport(line) ==> !IsInclude(line) && forall j | 0 <= j < |s| && IsInclude(s[j]) :: at <= j
    requires IsInclude(line) ==> forall i | 0 <= i < |s| && IsImport(s[i]) :: i < at
    ensures ImportsFirst(t)
  {
    forall i, j | 0 <= i < |t| && 0 <= j < |t| && IsImport(t[i]) && IsInclude(t[j]) ensures i < j {
      if i != at && j != at {
        assert t[i] == s[if i < at then i else i - 1] && t[j] == s[if j < at then j else j - 1];
      }
    }
  }

  lemma IncludeGoesLast(lines: seq<string>)
    requires ImportsFirst(lines)
    ensures var at := AfterLast(lines, IncludeLine);
      forall i | 0 <= i < |lines| && IsImport(lines[i]) :: i < if at.Some? then at.value else |lines|
  {
    var at := AfterLast(lines, IncludeLine);
    if at.Some? { assert Is(IncludeLine, lines[at.value - 1]); }
  }

  lemma ImportGoesBefore(lines: seq<string>)
    requires ImportsFirst(lines) && AfterLast(lines, ImportLine).Some?
    ensures forall j | 0 <= j < |lines| && IsInclude(lines[j]) :: AfterLast(lines, ImportLine).value <= j
  {
    assert Is(ImportLine, lines[AfterLast(lines, ImportLine).value - 1]);
  }

  lemma IncludeKeepsOrder(lines: seq<string>, includeLine: string)
    requires ImportsFirst(lines) && IsInclude(includeLine) && !IsImport(includeLine)
    ensures ImportsFirst(WithInclude(lines, includeLine))
    ensures AfterLast(lines, ImportLine).Some? ==>
      var q, t := AfterLast(lines, ImportLine).value, WithInclude(lines, includeLine);
      forall j | 0 <= j < |t| && IsInclude(t[j]) :: q <= j
  {
    var at := AfterLast(lines, IncludeLine);
    var p := if at.Some? then at.value else |lines|;
    IncludeGoesLast(lines);
    if AfterLast(lines, ImportLine).Some? {
      ImportGoesBefore(lines);
      assert Is(ImportLine, lines[AfterLast(lines, ImportLine).value - 1]);
    }
    if includeLine !in lines {
      InsertInserts(lines, p, includeLine);
      InsertedBetween(lines, p, includeLine, Insert(lines, p, includeLine));
    }
  }

  /******* The file *******/

  function ImportOf(domain: string, routerVar: string): string {
    "from " + (domain + (".routes import " + routerVar))
  }

  function IncludeOf(routerVar: string): string {
    "v1_router.include_router(" + (routerVar + ")")
  }

  lemma LinesOfTheirKind(domain: string, routerVar: string)
    ensures var a, b := ImportOf(domain, routerVar), IncludeOf(routerVar);
      IsImport(a) && !IsInclude(a) && IsInclude(b) && !IsImport(b) && a != b
  {
    var a, b := ImportOf(domain, routerVar), IncludeOf(routerVar);
    var from_, include_ := "from ", "v1_router.include_router(";
    assert a[..|from_|] == from_ && b[..|include_|] == include_;
    assert a[0] == from_[0] == 'f' && b[0] == include_[0] == 'v';
  }

  // Where all imports came before all includes, they still do.
  lemma WiringKeepsOrder(lines: seq<string>, domain: string, routerVar: string)
    requires ImportsFirst(lines)
    ensures var wiring := WireRouter(lines, ImportOf(domain, routerVar), IncludeOf(routerVar));
      wiring.Wired? ==> ImportsFirst(wiring.lines)
  {
    var importLine, includeLine := ImportOf(domain, routerVar), IncludeOf(routerVar);
    LinesOfTheirKind(domain, routerVar);
    if WireRouter(lines, importLine, includeLine).Wired? {
      IncludeKeepsOrder(lines, includeLine);
      var included := WithInclude(lines, includeLine);
      var q := AfterLast(lines, ImportLine).value;
      if importLine !in included {
        InsertInserts(included, q, importLine);
        InsertedBetween(included, q, importLine, Insert(included, q, importLine));
      }
    }
  }

  // `register_router` on the text of the module; `None` is a file left as it is.
  function RegisterRouter(text: string, domain: string, routerVar: string): Option<string> {
    var wiring := WireRouter(SplitLines(text), ImportOf(domain, routerVar), IncludeOf(routerVar));
    if wiring.Wired? then Some(JoinLines(wiring.lines)) else None
  }

  lemma ConcatOneLine(a: string, b: string)
    ensures OneLine(a) && OneLine(b) ==> OneLine(a + b)
  {
  }

  lemma ImportIsOneLine(domain: string, routerVar: string)
    requires OneLine(domain) && OneLine(routerVar)
    ensures OneLine(ImportOf(domain, routerVar))
  {
    ConcatOneLine(".routes import ", routerVar);
    ConcatOneLine(domain, ".routes import " + routerVar);
    ConcatOneLine("from ", domain + (".routes import " + routerVar));
  }

  lemma IncludeIsOneLine(routerVar: string)
    requires OneLine(routerVar)
    ensures OneLine(IncludeOf(routerVar))
  {
    ConcatOneLine(routerVar, ")");
    ConcatOneLine("v1_router.include_router(", routerVar + ")");
  }

  // Running it twice is running it once; the second run writes nothing.
  lemma RegisterRouterIsIdempotent(text: string, domain: string, routerVar: string)
    requires OneLine(domain) && OneLine(routerVar)
    ensures RegisterRouter(text, domain, routerVar).Some? ==>
      var t := RegisterRouter(text, domain, routerVar).value;
      && RegisterRouter(t, domain, routerVar) == None
      && Subsequence(SplitLines(text), SplitLines(t))
      && (ImportsFirst(SplitLines(text)) ==> ImportsFirst(SplitLines(t)))
  {
    var a, b := ImportOf(domain, routerVar), IncludeOf(routerVar);
    var lines := SplitLines(text);
    LinesOfTheirKind(domain, routerVar);
    ImportIsOneLine(domain, routerVar);
    IncludeIsOneLine(routerVar);
    if WireRouter(lines, a, b).Wired? {
      var t := WireRouter(lines, a, b).lines;
      WiringIsConservative(lines, a, b);
      WiringIsIdempotent(lines, a, b);
      forall l | l in t ensures OneLine(l) {
        assert l in multiset(t);
        assert l in multiset(lines) || l == a || l == b;
      }
      SplitJoin(t);
      if ImportsFirst(lines) { WiringKeepsOrder(lines, domain, routerVar); }
    }
  }

  class SourceFile {
    var exists_: bool
    var text: string

    constructor (text: string)
      ensures exists_ && this.text == text
    {
      exists_, this.text := true, text;
    }

    // The last line of a kind, by running over all of them.
    method LastOf(lines: seq<string>, kind: LineKind) returns (after: Option<nat>)
      ensures after == AfterLast(lines, kind)
    {
      after := None;
      for i := 0 to |lines|
        invariant after == AfterLast(lines[..i], kind)
      {
        assert lines[..i + 1][..i] == lines[..i];
        if Is(kind, lines[i]) {
          after := Some(i + 1);
        }
      }
      assert lines[..|lines|] == lines;
    }

    method Register(domain: string, routerVar: string) returns (written: bool)
      modifies this`text
      ensures written <==> exists_ && RegisterRouter(old(text), domain, routerVar).Some?
      ensures text == if written then RegisterRouter(old(text), domain, routerVar).value else old(text)
    {
      var importLine, includeLine := ImportOf(domain, routerVar), IncludeOf(routerVar);
      if !exists_ {
        return false;
      }
      var lines := SplitLines(text);
      if importLine in lines && includeLine in lines {
        return false;
      }
      var imports := LastOf(lines, ImportLine);
      var includes := LastOf(lines, IncludeLine);
      var routers := LastOf(lines, RouterLine);
      if imports.None? || routers.None? {
        return false;
      }
      if includeLine !in lines {
        var at := if includes.Some? then includes.value else |lines|;
        lines := lines[..at] + [includeLine] + lines[at..];
      }
      if importLine !in lines {
        lines := lines[..imports.value] + [importLine] + lines[imports.value..];
      }
      text := JoinLines(lines);
      return true;
    }
  }
}
