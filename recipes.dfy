/**
 * Recipe names read from the makefile by /commands/get (app.go:126-137): every match of
 * `(?m)^[a-zA-Z0-9_-]+:.*` is trimmed with strings.TrimSpace and then has every ':'
 * removed with strings.ReplaceAll. Text is a sequence of decoded characters.
 */
module Recipes {

  /** The character class `[a-zA-Z0-9_-]` of the pattern. */
  predicate IsNameChar(c: char)
  {
    ('a' <= c <= 'z') || ('A' <= c <= 'Z') || ('0' <= c <= '9') || c == '_' || c == '-'
  }

  /** Go's unicode.IsSpace: the Latin-1 spaces and the rest of Unicode's White_Space property. */
  predicate IsSpace(c: char)
  {
    c == '\t' || c == '\n' || c == '\U{B}' || c == '\U{C}' || c == '\r' || c == ' '
    || c == '\U{85}' || c == '\U{A0}' || c == '\U{1680}' || ('\U{2000}' <= c <= '\U{200A}')
    || c == '\U{2028}' || c == '\U{2029}' || c == '\U{202F}' || c == '\U{205F}' || c == '\U{3000}'
  }

  /** In Latin-1, unicode.IsSpace holds for exactly these eight characters. */
  lemma IsSpaceLatin1(c: char)
    requires c <= '\U{FF}'
    ensures IsSpace(c) <==> c in "\t\n\U{B}\U{C}\r \U{85}\U{A0}"
  {
  }

  // ----- one line -----

  /** How many name characters the line `t` begins with. */
  function NameRun(t: string): (n: nat)
    ensures n <= |t|
    decreases |t|
  {
    if t == [] || !IsNameChar(t[0]) then 0 else 1 + NameRun(t[1..])
  }

  /** The line `t` begins with `[a-zA-Z0-9_-]+:`, the part of the pattern before `.*`. */
  predicate StartsWithTarget(t: string)
  {
    0 < NameRun(t) < |t| && t[NameRun(t)] == ':'
  }

  /** The name of a target line: the name characters before its first ':'. */
  function TargetName(line: string): string
  {
    line[..NameRun(line)]
  }

  /** NameRun counts name characters only, and stops at the first other character. */
  lemma {:induction false} NameRunSpec(t: string)
    ensures forall k :: 0 <= k < NameRun(t) ==> IsNameChar(t[k])
    ensures NameRun(t) < |t| ==> !IsNameChar(t[NameRun(t)])
    decreases |t|
  {
    if t != [] && IsNameChar(t[0]) {
      NameRunSpec(t[1..]);
      assert forall k :: 1 <= k <= |t| - 1 ==> t[k] == t[1..][k - 1];
    }
  }

  // ----- positions in the whole text -----

  /** Where the run of name characters starting at `p` ends. */
  function NameEnd(s: string, p: nat): (q: nat)
    requires p <= |s|
    ensures p <= q <= |s|
    decreases |s| - p
  {
    if p < |s| && IsNameChar(s[p]) then NameEnd(s, p + 1) else p
  }

  /** Where the line containing position `p` ends: the next '\n' at or after `p`, or the end of the text. */
  function LineEnd(s: string, p: nat): (q: nat)
    requires p <= |s|
    ensures p <= q <= |s|
    decreases |s| - p
  {
    if p < |s| && s[p] != '\n' then LineEnd(s, p + 1) else p
  }

  /** No '\n' comes before LineEnd, and the character there, if any, is a '\n'. */
  lemma {:induction false} LineEndSpec(s: string, p: nat)
    requires p <= |s|
    ensures forall k :: p <= k < LineEnd(s, p) ==> s[k] != '\n'
    ensures LineEnd(s, p) < |s| ==> s[LineEnd(s, p)] == '\n'
    decreases |s| - p
  {
    if p < |s| && s[p] != '\n' {
      LineEndSpec(s, p + 1);
    }
  }

  /** A run of name characters never crosses the end of its line. */
  lemma {:induction false} NameEndWithinLine(s: string, p: nat)
    requires p <= |s|
    ensures NameEnd(s, p) <= LineEnd(s, p)
    decreases |s| - p
  {
    if p < |s| && IsNameChar(s[p]) {
      NameEndWithinLine(s, p + 1);
    }
  }

  /** Where `^` matches under the (?m) flag: at the start of the text and after each '\n'. */
  predicate AtLineStart(s: string, p: nat)
  {
    p == 0 || (0 < p <= |s| && s[p - 1] == '\n')
  }

  /** `[a-zA-Z0-9_-]+:` matches at position `p`. */
  predicate TargetAt(s: string, p: nat)
    requires p <= |s|
  {
    p < NameEnd(s, p) < |s| && s[NameEnd(s, p)] == ':'
  }

  /**
   * FindAllString of `(?m)^[a-zA-Z0-9_-]+:.*` over `s`, searching from `pos`: the leftmost
   * match is taken, `.*` runs greedily up to the next '\n', and the search resumes after it.
   */
  function FindAll(s: string, pos: nat): seq<string>
    requires pos <= |s|
    decreases |s| - pos
  {
    if pos == |s| then []
    else if AtLineStart(s, pos) && TargetAt(s, pos) then
      [s[pos..LineEnd(s, pos)]] + FindAll(s, LineEnd(s, pos))
    else FindAll(s, pos + 1)
  }

  /** strings.Split(s[p..], "\n"): the lines from position `p` on, the last one possibly empty. */
  function LinesFrom(s: string, p: nat): (r: seq<string>)
    requires p <= |s|
    ensures r != []
    decreases |s| - p
  {
    if LineEnd(s, p) == |s| then [s[p..]] else [s[p..LineEnd(s, p)]] + LinesFrom(s, LineEnd(s, p) + 1)
  }

  /** strings.Split(s, "\n"). */
  function Lines(s: string): (r: seq<string>)
    ensures r != []
  {
    LinesFrom(s, 0)
  }

  /** strings.Join(lines, "\n"), the inverse of Lines. */
  function JoinLines(lines: seq<string>): string
    requires lines != []
    decreases |lines|
  {
    if |lines| == 1 then lines[0] else lines[0] + "\n" + JoinLines(lines[1..])
  }

  /** Splitting at every '\n' loses nothing: joining the lines back gives the text. */
  lemma {:induction false} LinesFromRoundTrip(s: string, p: nat)
    requires p <= |s|
    ensures JoinLines(LinesFrom(s, p)) == s[p..]
    decreases |s| - p
  {
    var e := LineEnd(s, p);
    if e < |s| {
      LineEndSpec(s, p);
      LinesFromRoundTrip(s, e + 1);
      var rest := LinesFrom(s, e + 1);
      assert ([s[p..e]] + rest)[1..] == rest;
      assert s[p..] == s[p..e] + "\n" + s[e + 1..];
    }
  }

  lemma LinesRoundTrip(s: string)
    ensures JoinLines(Lines(s)) == s
  {
    LinesFromRoundTrip(s, 0);
  }

  /** No line holds a '\n'. */
  lemma {:induction false} LinesFromHaveNoNewline(s: string, p: nat)
    requires p <= |s|
    ensures forall i :: 0 <= i < |LinesFrom(s, p)| ==> '\n' !in LinesFrom(s, p)[i]
    decreases |s| - p
  {
    var e := LineEnd(s, p);
    LineEndSpec(s, p);
    assert '\n' !in s[p..e];
    if e < |s| {
      LinesFromHaveNoNewline(s, e + 1);
    }
  }

  /** The lines that begin with a target, in order. */
  function TargetLines(lines: seq<string>): (r: seq<string>)
    ensures |r| <= |lines|
  {
    if lines == [] then []
    else (if StartsWithTarget(lines[0]) then [lines[0]] else []) + TargetLines(lines[1..])
  }

  /** Every kept line is one of the given lines and begins with a target. */
  lemma {:induction false} TargetLinesSound(lines: seq<string>)
    ensures forall l :: l in TargetLines(lines) ==> l in lines && StartsWithTarget(l)
    decreases |lines|
  {
    if lines != [] {
      TargetLinesSound(lines[1..]);
    }
  }

  lemma TargetLinesKeep(line: string, lines: seq<string>)
    requires StartsWithTarget(line)
    ensures TargetLines([line] + lines) == [line] + TargetLines(lines)
  {
    assert ([line] + lines)[1..] == lines;
  }

  lemma TargetLinesSkip(line: string, lines: seq<string>)
    requires !StartsWithTarget(line)
    ensures TargetLines([line] + lines) == TargetLines(lines)
  {
    assert ([line] + lines)[1..] == lines;
  }

  // ----- the search agrees with the lines -----

  /** Counting name characters in the piece `s[p..e]` counts them from `p`, cut at `e`. */
  lemma {:induction false} NameRunOfPiece(s: string, p: nat, e: nat)
    requires p <= e <= |s|
    ensures NameEnd(s, p) < e ==> NameRun(s[p..e]) == NameEnd(s, p) - p
    ensures NameEnd(s, p) >= e ==> NameRun(s[p..e]) == e - p
    decreases e - p
  {
    if p < e && IsNameChar(s[p]) {
      assert s[p..e][1..] == s[p + 1..e];
      NameRunOfPiece(s, p + 1, e);
    }
  }

  /** The line starting at `p` begins with a target exactly when the pattern's head matches at `p`. */
  lemma LineTarget(s: string, p: nat)
    requires p <= |s|
    ensures StartsWithTarget(s[p..LineEnd(s, p)]) <==> TargetAt(s, p)
  {
    var e := LineEnd(s, p);
    NameRunOfPiece(s, p, e);
    NameEndWithinLine(s, p);
    LineEndSpec(s, p);
  }

  /** Inside a line the pattern cannot start a match: the search skips to the line's end. */
  lemma {:induction false} SkipWithinLine(s: string, j: nat, end: nat)
    requires 0 < j <= end <= |s|
    requires forall k :: j - 1 <= k < end ==> s[k] != '\n'
    ensures FindAll(s, j) == FindAll(s, end)
    decreases end - j
  {
    if j < end {
      SkipWithinLine(s, j + 1, end);
    }
  }

  /** A line that begins with a target is found whole, and the search goes on at its end. */
  lemma LineFound(s: string, p: nat)
    requires p <= |s| && AtLineStart(s, p) && TargetAt(s, p)
    ensures FindAll(s, p) == [s[p..LineEnd(s, p)]] + FindAll(s, LineEnd(s, p))
  {
  }

  /** A line that does not begin with a target yields nothing. */
  lemma LineIgnored(s: string, p: nat)
    requires p <= |s| && AtLineStart(s, p) && !TargetAt(s, p)
    ensures FindAll(s, p) == FindAll(s, LineEnd(s, p))
  {
    if p < LineEnd(s, p) {
      LineEndSpec(s, p);
      SkipWithinLine(s, p + 1, LineEnd(s, p));
    }
  }

  /** A '\n' never starts a match. */
  lemma AtNewline(s: string, p: nat)
    requires p < |s| && s[p] == '\n'
    ensures FindAll(s, p) == FindAll(s, p + 1)
  {
    assert NameEnd(s, p) == p;
  }

  lemma LinesFromNext(s: string, p: nat)
    requires p <= |s| && LineEnd(s, p) < |s|
    ensures LinesFrom(s, p) == [s[p..LineEnd(s, p)]] + LinesFrom(s, LineEnd(s, p) + 1)
  {
  }

  lemma LinesFromLast(s: string, p: nat)
    requires p <= |s| && LineEnd(s, p) == |s|
    ensures LinesFrom(s, p) == [s[p..LineEnd(s, p)]] + []
  {
    assert s[p..LineEnd(s, p)] == s[p..];
  }

  /** The regular-expression search finds exactly the lines that begin with a target, in file order. */
  lemma {:induction false} FindAllIsTargetLines(s: string, p: nat)
    requires p <= |s| && AtLineStart(s, p)
    ensures FindAll(s, p) == TargetLines(LinesFrom(s, p))
    decreases |s| - p
  {
    var e := LineEnd(s, p);
    var line := s[p..e];
    // what the search finds after this line, and the lines after it
    var found, rest;
    if e < |s| {
      LineEndSpec(s, p);
      AtNewline(s, e);
      FindAllIsTargetLines(s, e + 1);
      LinesFromNext(s, p);
      found, rest := FindAll(s, e + 1), LinesFrom(s, e + 1);
    } else {
      LinesFromLast(s, p);
      found, rest := [], [];
    }
    assert FindAll(s, e) == found && found == TargetLines(rest);
    assert LinesFrom(s, p) == [line] + rest;
    LineTarget(s, p);
    if TargetAt(s, p) {
      LineFound(s, p);
      TargetLinesKeep(line, rest);
    } else {
      LineIgnored(s, p);
      TargetLinesSkip(line, rest);
    }
  }

  /** Every match of the search is a whole line, with no '\n', that begins with a target. */
  lemma FindAllSound(s: string)
    ensures forall m :: m in FindAll(s, 0) ==> m in Lines(s) && StartsWithTarget(m) && '\n' !in m
  {
    FindAllIsTargetLines(s, 0);
    TargetLinesSound(LinesFrom(s, 0));
    LinesFromHaveNoNewline(s, 0);
  }

  // ----- cleaning one match -----

  /** `s` without its leading spaces. */
  function TrimLeft(s: string): (r: string)
    ensures |r| <= |s| && r == s[|s| - |r|..]
    ensures forall k :: 0 <= k < |s| - |r| ==> IsSpace(s[k])
    ensures r != [] ==> !IsSpace(r[0])
    decreases |s|
  {
    if s != [] && IsSpace(s[0]) then TrimLeft(s[1..]) else s
  }

  /** `s` without its trailing spaces. */
  function TrimRight(s: string): (r: string)
    ensures |r| <= |s| && r == s[..|r|]
    ensures forall k :: |r| <= k < |s| ==> IsSpace(s[k])
    ensures r != [] ==> !IsSpace(r[|r| - 1])
    decreases |s|
  {
    if s != [] && IsSpace(s[|s| - 1]) then TrimRight(s[..|s| - 1]) else s
  }

  /** strings.TrimSpace: TrimLeft, then TrimRight; what each drops is stated on each. */
  function TrimSpace(s: string): (r: string)
    ensures |r| <= |s|
    ensures r != [] ==> !IsSpace(r[0]) && !IsSpace(r[|r| - 1])
  {
    TrimRight(TrimLeft(s))
  }

  /** Text that neither begins nor ends with a space is left as it is. */
  lemma TrimSpaceUnpadded(s: string)
    requires s != [] && !IsSpace(s[0]) && !IsSpace(s[|s| - 1])
    ensures TrimSpace(s) == s
  {
  }

  /** strings.ReplaceAll(s, ":", ""): `s` with every ':' dropped, the rest in order. */
  function RemoveColons(s: string): (r: string)
    ensures ':' !in r
    ensures |r| <= |s|
    decreases |s|
  {
    if s == [] then [] else (if s[0] == ':' then [] else [s[0]]) + RemoveColons(s[1..])
  }

  lemma {:induction false} RemoveColonsAppend(a: string, b: string)
    ensures RemoveColons(a + b) == RemoveColons(a) + RemoveColons(b)
    decreases |a|
  {
    if a != [] {
      assert (a + b)[0] == a[0];
      assert (a + b)[1..] == a[1..] + b;
      RemoveColonsAppend(a[1..], b);
    } else {
      assert a + b == b;
    }
  }

  lemma {:induction false} RemoveColonsNoColon(a: string)
    requires ':' !in a
    ensures RemoveColons(a) == a
    decreases |a|
  {
    if a != [] {
      RemoveColonsNoColon(a[1..]);
    }
  }

  /** One turn of the loop at app.go:132-135: trim first, then drop every ':'. */
  function Clean(recipe: string): (r: string)
    ensures ':' !in r && |r| <= |recipe|
  {
    RemoveColons(TrimSpace(recipe))
  }

  /** A cleaned target line begins with its target's name and holds no ':'. */
  lemma CleanKeepsName(line: string)
    requires StartsWithTarget(line)
    ensures var name := TargetName(line);
            name != [] && name <= Clean(line) && ':' !in Clean(line)
  {
    var n := NameRun(line);
    var name := line[..n];
    NameRunSpec(line);
    RemoveColonsNoColon(name);
    assert TrimLeft(line) == line;
    var trimmed := TrimSpace(line);
    assert |trimmed| > n;
    assert trimmed == name + trimmed[n..];
    RemoveColonsAppend(name, trimmed[n..]);
    assert forall k :: 0 <= k < |name| ==> IsNameChar(name[k]);
  }

  /**
   * Trimming comes first, so the spaces before a final ':' survive the removal of the ':'s:
   * `build: deps :` becomes `build deps `.
   */
  lemma TrimBeforeReplace(name: string, mid: string)
    requires name != [] && forall k :: 0 <= k < |name| ==> IsNameChar(name[k])
    requires ':' !in mid
    ensures Clean(name + ":" + mid + ":") == name + mid
  {
    var line := name + ":" + mid + ":";
    assert line == name + (":" + (mid + ":"));
    assert line[0] == name[0] && line[|line| - 1] == ':';
    TrimSpaceUnpadded(line);
    assert Clean(line) == RemoveColons(line);
    assert ':' !in name by {
      assert forall k :: 0 <= k < |name| ==> name[k] != ':';
    }
    assert RemoveColons(":") == [];
    RemoveColonsNoColon(name);
    RemoveColonsNoColon(mid);
    RemoveColonsAppend(mid, ":");
    assert RemoveColons(mid + ":") == mid;
    RemoveColonsAppend(":", mid + ":");
    assert RemoveColons(":" + (mid + ":")) == mid;
    RemoveColonsAppend(name, ":" + (mid + ":"));
  }

  /** The loop at app.go:132-135, rewriting each match in place. */
  method CleanInPlace(recipes: array<string>)
    modifies recipes
    ensures forall i :: 0 <= i < recipes.Length ==> recipes[i] == Clean(old(recipes[i]))
  {
    for i := 0 to recipes.Length
      invariant forall k :: 0 <= k < i ==> recipes[k] == Clean(old(recipes[k]))
      invariant forall k :: i <= k < recipes.Length ==> recipes[k] == old(recipes[k])
    {
      recipes[i] := TrimSpace(recipes[i]);
      recipes[i] := RemoveColons(recipes[i]);
    }
  }

  /**
   * The command list /commands/get renders from the makefile's text: one entry per line that
   * begins with a target, in file order, each beginning with that target's name and free of ':'.
   */
  method ListCommands(content: string) returns (commands: seq<string>)
    ensures var lines := TargetLines(Lines(content));
            |commands| == |lines| &&
            forall i :: 0 <= i < |commands| ==>
              commands[i] == Clean(lines[i]) &&
              TargetName(lines[i]) != [] && TargetName(lines[i]) <= commands[i] && ':' !in commands[i]
  {
    var matches := FindAll(content, 0);
    FindAllIsTargetLines(content, 0);
    TargetLinesSound(Lines(content));
    var recipes := new string[|matches|](i requires 0 <= i < |matches| => matches[i]);
    CleanInPlace(recipes);
    commands := recipes[..];
    forall i | 0 <= i < |commands|
      ensures TargetName(matches[i]) != [] && TargetName(matches[i]) <= commands[i] && ':' !in commands[i]
    {
      assert matches[i] in matches;
      CleanKeepsName(matches[i]);
    }
  }
}
