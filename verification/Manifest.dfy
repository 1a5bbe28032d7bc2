/** The parts of bosh/manifest.go and of buildManifestParams that rewrite text: the
    blocked-command list and the PEM block lines. */
module Manifest {
  import opened Strings
  import opened Yaml

  // ---------- parsing the operator's blocked-command text ----------

  function Normalize(raw: string): string {
    Replace(Replace(raw, '\n', ","), '\r', "")
  }

  /** One turn of the loop: the trimmed part, unless nothing is left of it. */
  function CollectOne(part: string): seq<string> {
    var cmd := TrimSpace(part);
    if cmd == "" then [] else [cmd]
  }

  function Collect(parts: seq<string>): seq<string> {
    if parts == [] then [] else CollectOne(parts[0]) + Collect(parts[1..])
  }

  function ParseCommands(raw: string): seq<string> {
    if raw == "" then [] else Collect(Split(Normalize(raw), ','))
  }

  lemma {:induction false} CollectConcat(a: seq<string>, b: seq<string>)
    ensures Collect(a + b) == Collect(a) + Collect(b)
  {
    if a == [] {
      assert a + b == b;
    } else {
      assert (a + b)[1..] == a[1..] + b;
      CollectConcat(a[1..], b);
      AppendAssociates(CollectOne(a[0]), Collect(a[1..]), Collect(b));
    }
  }

  lemma CollectSingle(part: string)
    ensures Collect([part]) == CollectOne(part)
  {
    assert Collect([part]) == CollectOne(part) + Collect([]);
  }

  lemma AppendAssociates(a: seq<string>, b: seq<string>, c: seq<string>)
    ensures a + (b + c) == (a + b) + c
  {
  }

  lemma CollectUpTo(parts: seq<string>, i: nat)
    requires i < |parts|
    ensures Collect(parts[..i + 1]) == Collect(parts[..i]) + CollectOne(parts[i])
  {
    SnocSlice(parts, i);
    CollectConcat(parts[..i], [parts[i]]);
    CollectSingle(parts[i]);
  }

  lemma SnocSlice(parts: seq<string>, i: nat)
    requires i < |parts|
    ensures parts[..i + 1] == parts[..i] + [parts[i]]
  {
  }

  /** The loop of buildManifestParams: a new list on every call. */
  method BuildBlockedCommands(raw: string) returns (cmds: array<string>)
    ensures fresh(cmds)
    ensures cmds[..] == ParseCommands(raw)
  {
    var blockedCmds: seq<string> := [];
    if raw != "" {
      blockedCmds := CollectCommands(Split(Normalize(raw), ','));
    }
    cmds := new string[|blockedCmds|](i requires 0 <= i < |blockedCmds| => blockedCmds[i]);
  }

  method CollectCommands(parts: seq<string>) returns (blockedCmds: seq<string>)
    ensures blockedCmds == Collect(parts)
  {
    blockedCmds := [];
    for i := 0 to |parts|
      invariant blockedCmds == Collect(parts[..i])
    {
      CollectUpTo(parts, i);
      var cmd := TrimSpace(parts[i]);
      if cmd != "" {
        blockedCmds := blockedCmds + [cmd];
      }
    }
    assert parts[..|parts|] == parts;
  }

  /** A command as it comes out of the parser: trimmed, not empty, no separators. */
  predicate CleanCommand(c: string) {
    c != "" && TrimSpace(c) == c && ',' !in c && '\n' !in c && '\r' !in c
  }

  predicate CleanCommands(cmds: seq<string>) {
    forall i :: 0 <= i < |cmds| ==> CleanCommand(cmds[i])
  }

  predicate IsSeparator(sep: string) {
    sep == "," || sep == "\n" || sep == "\r\n"
  }

  lemma NormalizeConcat(s: string, t: string)
    ensures Normalize(s + t) == Normalize(s) + Normalize(t)
  {
    ReplaceConcat(s, t, '\n', ",");
    ReplaceConcat(Replace(s, '\n', ","), Replace(t, '\n', ","), '\r', "");
  }

  lemma NormalizeClean(c: string)
    requires '\n' !in c && '\r' !in c
    ensures Normalize(c) == c
  {
    ReplaceAbsent(c, '\n', ",");
    ReplaceAbsent(c, '\r', "");
  }

  lemma NormalizeSeparator(sep: string)
    requires IsSeparator(sep)
    ensures Normalize(sep) == ","
  {
    NormalizeClean(",");
    if sep != "," {
      NormalizeNewline();
    }
  }

  lemma NormalizeNewline()
    ensures Normalize("\n") == "," && Normalize("\r\n") == ","
  {
  }

  lemma NormalizeHead(head: string, sep: string, tail: string)
    requires '\n' !in head && '\r' !in head && IsSeparator(sep)
    ensures Normalize(head + sep + tail) == head + "," + Normalize(tail)
  {
    NormalizeConcat(head + sep, tail);
    NormalizeConcat(head, sep);
    NormalizeClean(head);
    NormalizeSeparator(sep);
  }

  lemma {:induction false} NormalizeJoin(cmds: seq<string>, sep: string)
    requires CleanCommands(cmds) && IsSeparator(sep)
    ensures Normalize(Join(cmds, sep)) == Join(cmds, ",")
  {
    if |cmds| > 1 {
      NormalizeJoin(cmds[1..], sep);
      NormalizeMore(cmds, sep);
    } else {
      AtMostOneIsClean(cmds, sep);
      NormalizeClean(Join(cmds, sep));
    }
  }

  lemma AtMostOneIsClean(cmds: seq<string>, sep: string)
    requires CleanCommands(cmds) && |cmds| <= 1
    ensures Join(cmds, sep) == Join(cmds, ",") && '\n' !in Join(cmds, sep) && '\r' !in Join(cmds, sep)
  {
  }

  lemma NormalizeMore(cmds: seq<string>, sep: string)
    requires |cmds| > 1 && CleanCommand(cmds[0]) && IsSeparator(sep)
    requires Normalize(Join(cmds[1..], sep)) == Join(cmds[1..], ",")
    ensures Normalize(Join(cmds, sep)) == Join(cmds, ",")
  {
    JoinMore(cmds, sep);
    JoinMore(cmds, ",");
    NormalizeHead(cmds[0], sep, Join(cmds[1..], sep));
  }

  lemma JoinMore(cmds: seq<string>, sep: string)
    requires |cmds| > 1
    ensures Join(cmds, sep) == cmds[0] + sep + Join(cmds[1..], sep)
  {
  }

  lemma CollectOneClean(c: string)
    requires CleanCommand(c)
    ensures CollectOne(c) == [c]
  {
  }

  lemma {:induction false} CollectClean(cmds: seq<string>)
    requires CleanCommands(cmds)
    ensures Collect(cmds) == cmds
  {
    if cmds != [] {
      CollectClean(cmds[1..]);
      CollectOneClean(cmds[0]);
      assert [cmds[0]] + cmds[1..] == cmds;
    }
  }

  /** Comma-, newline- and CRLF-separated spellings of the same commands parse to
      exactly those commands. */
  lemma SpellingsParseAlike(cmds: seq<string>, sep: string)
    requires CleanCommands(cmds) && IsSeparator(sep)
    ensures ParseCommands(Join(cmds, sep)) == cmds
  {
    if |cmds| > 0 {
      NormalizeJoin(cmds, sep);
      SplitJoin(cmds, ',');
      CollectClean(cmds);
      assert Join(cmds, sep) != "" by {
        if |cmds| > 1 {
          assert Join(cmds, sep) == cmds[0] + sep + Join(cmds[1..], sep);
        }
      }
    }
  }

  // What any operator text parses to: a separator cuts it, a carriage return counts for
  // nothing, and a piece without either is one command, or none when it is blank.

  lemma {:induction false} SplitAcross(a: string, sep: char, b: string)
    ensures Split(a + [sep] + b, sep) == Split(a, sep) + Split(b, sep)
  {
    if a == "" {
      assert (a + [sep] + b)[1..] == b;
    } else {
      var s := a + [sep] + b;
      assert s[1..] == a[1..] + [sep] + b;
      SplitAcross(a[1..], sep, b);
      OntoFirst(a[0], Split(a[1..], sep), Split(b, sep));
    }
  }

  /** Putting a part or a character in front of a list that has another list behind it. */
  lemma OntoFirst(c: char, parts: seq<string>, more: seq<string>)
    requires parts != []
    ensures [""] + (parts + more) == ([""] + parts) + more
    ensures [[c] + (parts + more)[0]] + (parts + more)[1..] == ([[c] + parts[0]] + parts[1..]) + more
  {
  }

  lemma ParsedIsCollected(raw: string)
    ensures ParseCommands(raw) == Collect(Split(Normalize(raw), ','))
  {
  }

  /** Parsing a text parses what is before and what is behind each separator. */
  lemma ParseAcross(a: string, sep: string, b: string)
    requires IsSeparator(sep)
    ensures ParseCommands(a + sep + b) == ParseCommands(a) + ParseCommands(b)
  {
    NormalizeConcat(a + sep, b);
    NormalizeConcat(a, sep);
    NormalizeSeparator(sep);
    SplitAcross(Normalize(a), ',', Normalize(b));
    CollectConcat(Split(Normalize(a), ','), Split(Normalize(b), ','));
    ParsedIsCollected(a);
    ParsedIsCollected(b);
    ParsedIsCollected(a + sep + b);
  }

  lemma ParseOne(a: string)
    requires ',' !in a && '\n' !in a && '\r' !in a
    ensures ParseCommands(a) == if TrimSpace(a) == "" then [] else [TrimSpace(a)]
  {
    ParsedIsCollected(a);
    NormalizeClean(a);
    SplitSeparatorFree(a, ',');
    CollectSingle(a);
  }

  lemma ReturnsCountForNothing(a: string, b: string)
    ensures ParseCommands(a + "\r" + b) == ParseCommands(a + b)
  {
    DroppedReturn(a, b);
    ParsedIsCollected(a + b);
    ParsedIsCollected(a + "\r" + b);
  }

  lemma DroppedReturn(a: string, b: string)
    ensures Normalize(a + "\r" + b) == Normalize(a + b)
  {
    NormalizeConcat(a + "\r", b);
    NormalizeConcat(a, "\r");
    NormalizeConcat(a, b);
    NormalizeReturn();
    assert Normalize(a) + "" == Normalize(a);
  }

  lemma NormalizeReturn()
    ensures Normalize("\r") == ""
  {
  }

  lemma {:induction false} SplitKeepsCharacters(s: string, sep: char, i: nat, c: char)
    requires i < |Split(s, sep)| && c in Split(s, sep)[i]
    ensures c in s
  {
    if s != "" {
      var rest := Split(s[1..], sep);
      if s[0] == sep {
        if i > 0 {
          SplitKeepsCharacters(s[1..], sep, i - 1, c);
        }
      } else if i > 0 {
        assert Split(s, sep)[i] == rest[i];
        SplitKeepsCharacters(s[1..], sep, i, c);
      } else if c != s[0] {
        assert c in rest[0];
        SplitKeepsCharacters(s[1..], sep, 0, c);
      }
    }
  }

  lemma CollectedOneIsClean(part: string)
    requires ',' !in part && '\n' !in part && '\r' !in part
    ensures CleanCommands(CollectOne(part))
  {
  }

  lemma CleanConcat(a: seq<string>, b: seq<string>)
    requires CleanCommands(a) && CleanCommands(b)
    ensures CleanCommands(a + b)
  {
  }

  lemma {:induction false} CollectedAreClean(parts: seq<string>)
    requires forall i :: 0 <= i < |parts| ==> ',' !in parts[i] && '\n' !in parts[i] && '\r' !in parts[i]
    ensures CleanCommands(Collect(parts))
  {
    if parts != [] {
      CollectedAreClean(parts[1..]);
      CollectedOneIsClean(parts[0]);
      CleanConcat(CollectOne(parts[0]), Collect(parts[1..]));
    }
  }

  lemma ParsedAreClean(raw: string)
    ensures CleanCommands(ParseCommands(raw))
  {
    var inner := Replace(raw, '\n', ",");
    ReplaceRemoves(raw, '\n', ",", '\n');
    ReplaceRemoves(inner, '\r', "", '\n');
    ReplaceRemoves(inner, '\r', "", '\r');
    var text := Normalize(raw);
    var parts := Split(text, ',');
    forall i | 0 <= i < |parts| ensures '\n' !in parts[i] && '\r' !in parts[i] {
      if '\n' in parts[i] { SplitKeepsCharacters(text, ',', i, '\n'); }
      if '\r' in parts[i] { SplitKeepsCharacters(text, ',', i, '\r'); }
    }
    CollectedAreClean(parts);
  }

  /** Parsing any operator text, joining with commas and parsing again is stable. */
  lemma ReparseStable(raw: string)
    ensures ParseCommands(Join(ParseCommands(raw), ",")) == ParseCommands(raw)
  {
    ParsedAreClean(raw);
    SpellingsParseAlike(ParseCommands(raw), ",");
  }

  // ---------- rendering the list ----------

  const ITEM_PREFIX := "                - \""

  function SanitizeAll(cmds: seq<string>): (r: seq<string>)
    ensures |r| == |cmds|
    ensures forall i :: 0 <= i < |cmds| ==> r[i] == SanitizeForYAML(cmds[i])
  {
    seq(|cmds|, i requires 0 <= i < |cmds| => SanitizeForYAML(cmds[i]))
  }

  /** The template's range over the list, which is sanitized by then. */
  function ItemLines(sanitized: seq<string>): (r: seq<string>)
    ensures |r| == |sanitized|
    ensures forall i :: 0 <= i < |r| ==> r[i] == ITEM_PREFIX + sanitized[i] + "\""
  {
    seq(|sanitized|, i requires 0 <= i < |sanitized| => ITEM_PREFIX + sanitized[i] + "\"")
  }

  function RenderedList(cmds: seq<string>): seq<string> {
    ItemLines(SanitizeAll(cmds))
  }

  /** RenderAgentManifest on the list: it overwrites the caller's elements. */
  method RenderBlockedCommands(cmds: array<string>) returns (lines: seq<string>)
    modifies cmds
    ensures cmds[..] == SanitizeAll(old(cmds[..]))
    ensures lines == RenderedList(old(cmds[..]))
  {
    for i := 0 to cmds.Length
      invariant forall j :: 0 <= j < i ==> cmds[j] == SanitizeForYAML(old(cmds[j]))
      invariant forall j :: i <= j < cmds.Length ==> cmds[j] == old(cmds[j])
    {
      cmds[i] := SanitizeForYAML(cmds[i]);
    }
    assert cmds[..] == SanitizeAll(old(cmds[..]));
    lines := ItemLines(cmds[..]);
  }

  /** Reading one item line of the manifest. */
  function ReadItem(line: string): Option<Scalar> {
    if ITEM_PREFIX <= line then ReadQuoted(line[|ITEM_PREFIX|..]) else None
  }

  /** The rendered items read back, in order, as the commands without their
      non-printable characters, and nothing follows any closing quote. */
  lemma RenderedListReadsBack(cmds: seq<string>, i: nat)
    requires i < |cmds|
    ensures |RenderedList(cmds)| == |cmds|
    ensures ReadItem(RenderedList(cmds)[i]) == Some(Scalar(Keep(cmds[i], Printable), ""))
  {
    var line := RenderedList(cmds)[i];
    var text := SanitizeForYAML(cmds[i]) + "\"";
    assert line == ITEM_PREFIX + text;
    assert line[|ITEM_PREFIX|..] == text;
    assert text == text + "";
    SanitizeRoundTrip(cmds[i], "");
  }

  /** Building the list and rendering it, twice in a row: the in-place edit of the
      first list does not reach the second. */
  method BuildAndRenderTwice(raw: string) returns (first: seq<string>, second: seq<string>)
    ensures first == second == RenderedList(ParseCommands(raw))
  {
    var cmds := BuildBlockedCommands(raw);
    first := RenderBlockedCommands(cmds);
    cmds := BuildBlockedCommands(raw);
    second := RenderBlockedCommands(cmds);
  }

  /** Rendering one list twice instead gives the same lines exactly when no command
      holds a quote or a backslash. */
  lemma RenderingAgainSameExactly(cmds: seq<string>)
    ensures RenderedList(SanitizeAll(cmds)) == RenderedList(cmds)
            <==> forall i :: 0 <= i < |cmds| ==> Plain(cmds[i])
  {
    var once := SanitizeAll(cmds);
    var twice := SanitizeAll(once);
    forall i | 0 <= i < |cmds|
      ensures RenderedList(once)[i] == RenderedList(cmds)[i] <==> Plain(cmds[i])
    {
      SanitizeIdempotentExactly(cmds[i]);
      SameItemText(twice[i], once[i]);
      assert RenderedList(once)[i] == ITEM_PREFIX + twice[i] + "\"";
      assert RenderedList(cmds)[i] == ITEM_PREFIX + once[i] + "\"";
    }
  }

  lemma SameItemText(a: string, b: string)
    ensures ITEM_PREFIX + a + "\"" == ITEM_PREFIX + b + "\"" <==> a == b
  {
    var x, y := ITEM_PREFIX + a + "\"", ITEM_PREFIX + b + "\"";
    if x == y {
      assert a == x[|ITEM_PREFIX|..|x| - 1];
      assert b == y[|ITEM_PREFIX|..|y| - 1];
    }
  }

  // ---------- PEM blocks ----------

  predicate IsNewline(c: char) {
    c == '\n'
  }

  function Pad(spaces: nat): (p: string)
    ensures |p| == spaces && forall i :: 0 <= i < spaces ==> p[i] == ' '
  {
    seq(spaces, _ => ' ')
  }

  function PadAll(pad: string, lines: seq<string>): (r: seq<string>)
    ensures |r| == |lines|
    ensures forall i :: 0 <= i < |r| ==> r[i] == pad + lines[i]
  {
    seq(|lines|, i requires 0 <= i < |lines| => pad + lines[i])
  }

  function Indented(spaces: nat, s: string): string {
    if s == "" then "" else Join(PadAll(Pad(spaces), Split(TrimRight(s, IsNewline), '\n')), "\n")
  }

  method IndentPEM(spaces: nat, s: string) returns (r: string)
    ensures r == Indented(spaces, s)
  {
    if s == "" {
      return "";
    }
    var pad := Pad(spaces);
    var parts := Split(TrimRight(s, IsNewline), '\n');
    var lines := new string[|parts|](i requires 0 <= i < |parts| => parts[i]);
    for i := 0 to lines.Length
      invariant forall j :: 0 <= j < i ==> lines[j] == pad + parts[j]
      invariant forall j :: i <= j < lines.Length ==> lines[j] == parts[j]
    {
      lines[i] := pad + lines[i];
    }
    assert lines[..] == PadAll(pad, parts);
    r := Join(lines[..], "\n");
  }

  function DropAll(n: nat, lines: seq<string>): (r: seq<string>)
    requires forall i :: 0 <= i < |lines| ==> n <= |lines[i]|
  {
    seq(|lines|, i requires 0 <= i < |lines| => lines[i][n..])
  }

  /** Every line of the block is indented by the pad, and taking the pad off again
      gives the PEM text without its final newlines. */
  lemma IndentRoundTrip(spaces: nat, s: string)
    ensures s == "" ==> Indented(spaces, s) == ""
    ensures s != "" ==>
              var lines := Split(Indented(spaces, s), '\n');
              && (forall i :: 0 <= i < |lines| ==> Pad(spaces) <= lines[i])
              && Join(DropAll(spaces, lines), "\n") == TrimRight(s, IsNewline)
  {
    if s != "" {
      IndentedReadsBack(spaces, s);
    }
  }

  lemma IndentedReadsBack(spaces: nat, s: string)
    requires s != ""
    ensures var lines := Split(Indented(spaces, s), '\n');
            && (forall i :: 0 <= i < |lines| ==> Pad(spaces) <= lines[i])
            && Join(DropAll(spaces, lines), "\n") == TrimRight(s, IsNewline)
  {
    var pad := Pad(spaces);
    var body := TrimRight(s, IsNewline);
    var parts := Split(body, '\n');
    var padded := PadAll(pad, parts);
    forall i | 0 <= i < |padded| ensures '\n' !in padded[i] {
      assert padded[i] == pad + parts[i];
    }
    SplitJoin(padded, '\n');
    assert DropAll(spaces, padded) == parts;
    JoinSplit(body, '\n');
  }
}
