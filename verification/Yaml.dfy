/** Escaping into YAML double-quoted scalars: bosh/manifest.go's sanitizeForYAML,
    against a reader of such scalars. */
module Yaml {
  import opened Strings

  predicate Printable(c: char) {
    ' ' <= c <= '~'
  }

  /** The three passes, in the source's order. */
  function SanitizeForYAML(s: string): string {
    var backslashes := Replace(s, '\\', "\\\\");
    var quotes := Replace(backslashes, '\"', "\\\"");
    Keep(quotes, Printable)
  }

  /** What one character becomes. */
  function Escape(c: char): string {
    if c == '\\' then "\\\\"
    else if c == '\"' then "\\\""
    else if Printable(c) then [c]
    else ""
  }

  function EscapeAll(s: string): string {
    if s == "" then "" else Escape(s[0]) + EscapeAll(s[1..])
  }

  /** The characters an escape sequence of one letter stands for (section 5.7 of
      YAML 1.2); the numeric escapes \x, \u and \U are never produced by escaping and
      read as malformed here. */
  function Unescape(c: char): Option<char> {
    match c
    case '0' => Some('\0')
    case 'a' => Some('\U{0007}')
    case 'b' => Some('\U{0008}')
    case 't' => Some('\t')
    case '\t' => Some('\t')
    case 'n' => Some('\n')
    case 'v' => Some('\U{000B}')
    case 'f' => Some('\U{000C}')
    case 'r' => Some('\r')
    case 'e' => Some('\U{001B}')
    case ' ' => Some(' ')
    case '\"' => Some('\"')
    case '/' => Some('/')
    case '\\' => Some('\\')
    case 'N' => Some('\U{0085}')
    case '_' => Some('\U{00A0}')
    case 'L' => Some('\U{2028}')
    case 'P' => Some('\U{2029}')
    case _ => None
  }

  datatype Scalar = Scalar(value: string, rest: string)

  /** What a double-quoted scalar may hold on one line (nb-json in section 5.1 of YAML 1.2). */
  predicate OnLine(c: char) {
    c == '\t' || c >= ' '
  }

  /** Reads the inside of a double-quoted scalar (section 7.3.1 of YAML 1.2) up to
      its closing quote: the value and what follows the quote. A scalar that goes on over
      a line break, where a reader folds it, is not read. */
  function ReadQuoted(s: string): Option<Scalar> {
    if s == "" then None
    else if s[0] == '\"' then Some(Scalar("", s[1..]))
    else if s[0] == '\\' then
      if |s| < 2 || Unescape(s[1]).None? then None
      else Prepend(Unescape(s[1]).value, ReadQuoted(s[2..]))
    else if !OnLine(s[0]) then None
    else Prepend(s[0], ReadQuoted(s[1..]))
  }

  function Prepend(c: char, r: Option<Scalar>): Option<Scalar> {
    match r
    case None => None
    case Some(scalar) => Some(Scalar([c] + scalar.value, scalar.rest))
  }

  lemma {:induction false} SanitizeConcat(s: string, t: string)
    ensures SanitizeForYAML(s + t) == SanitizeForYAML(s) + SanitizeForYAML(t)
  {
    ReplaceConcat(s, t, '\\', "\\\\");
    var s1, t1 := Replace(s, '\\', "\\\\"), Replace(t, '\\', "\\\\");
    ReplaceConcat(s1, t1, '\"', "\\\"");
    KeepConcat(Replace(s1, '\"', "\\\""), Replace(t1, '\"', "\\\""), Printable);
  }

  lemma SanitizeOne(c: char)
    ensures SanitizeForYAML([c]) == Escape(c)
  {
    var s := [c];
    assert s[1..] == "";
    if c == '\\' {
      assert Replace(s, '\\', "\\\\") == "\\\\";
      ReplaceAbsent("\\\\", '\"', "\\\"");
      KeepAll("\\\\", Printable);
    } else {
      ReplaceAbsent(s, '\\', "\\\\");
      if c == '\"' {
        assert Replace(s, '\"', "\\\"") == "\\\"";
        KeepAll("\\\"", Printable);
      } else {
        ReplaceAbsent(s, '\"', "\\\"");
        assert Keep(s, Printable) == if Printable(c) then s else "";
      }
    }
  }

  /** The three passes are one map over the characters. */
  lemma {:induction false} PassesAreOneMap(s: string)
    ensures SanitizeForYAML(s) == EscapeAll(s)
  {
    if s == "" {
    } else {
      SanitizeConcat([s[0]], s[1..]);
      assert [s[0]] + s[1..] == s;
      SanitizeOne(s[0]);
      PassesAreOneMap(s[1..]);
    }
  }

  /** Reading over one escaped character. */
  lemma ReadOne(c: char, tail: string)
    ensures ReadQuoted(Escape(c) + tail) == if Printable(c) then Prepend(c, ReadQuoted(tail)) else ReadQuoted(tail)
  {
    var text := Escape(c) + tail;
    if c == '\\' || c == '\"' {
      assert text[0] == '\\' && text[1] == c && text[2..] == tail;
    } else if Printable(c) {
      assert text[0] == c && text[1..] == tail;
    } else {
      assert text == tail;
    }
  }

  lemma ReadClosing(rest: string)
    ensures ReadQuoted("" + "\"" + rest) == Some(Scalar("", rest))
  {
    var text := "" + "\"" + rest;
    assert text[0] == '\"' && text[1..] == rest;
  }

  lemma Quoted(head: string, tail: string, rest: string)
    ensures head + tail + "\"" + rest == head + (tail + "\"" + rest)
  {
  }

  lemma {:induction false} ReadEscaped(s: string, rest: string)
    ensures ReadQuoted(EscapeAll(s) + "\"" + rest) == Some(Scalar(Keep(s, Printable), rest))
  {
    if s == "" {
      ReadClosing(rest);
    } else {
      ReadEscaped(s[1..], rest);
      ReadOne(s[0], EscapeAll(s[1..]) + "\"" + rest);
      Quoted(Escape(s[0]), EscapeAll(s[1..]), rest);
    }
  }

  /** The round trip. A template line `"{{ . }}"` opens a quote, writes the
      sanitized value and closes the quote: whatever text follows, a reader gets
      exactly the printable characters of s and stops at that closing quote. So s
      holds no quote and no backslash that could end the scalar early. */
  lemma SanitizeRoundTrip(s: string, rest: string)
    ensures ReadQuoted(SanitizeForYAML(s) + "\"" + rest) == Some(Scalar(Keep(s, Printable), rest))
  {
    PassesAreOneMap(s);
    ReadEscaped(s, rest);
  }

  /** The bare escaped text never closes a scalar by itself and never ends in a
      backslash that would swallow the closing quote. */
  lemma {:induction false} EscapedHasNoBareQuote(s: string)
    ensures ReadQuoted(EscapeAll(s)).None?
  {
    if s != "" {
      EscapedHasNoBareQuote(s[1..]);
      ReadOne(s[0], EscapeAll(s[1..]));
    }
  }

  /** Text without quotes and backslashes. */
  predicate Plain(s: string) {
    forall i :: 0 <= i < |s| ==> s[i] != '\"' && s[i] != '\\'
  }

  // ---------- text that is written without escaping ----------

  /** Text that needs no escaping. */
  predicate PlainLine(s: string) {
    Plain(s) && forall i :: 0 <= i < |s| ==> OnLine(s[i])
  }

  /** A reader consumes at least the value and the quote, and no more exactly when nothing
      was escaped. */
  lemma {:induction false} ReadConsumes(t: string)
    ensures var r := ReadQuoted(t);
            r.Some? ==>
              && |r.value.value| + 1 + |r.value.rest| <= |t|
              && (|r.value.value| + 1 + |r.value.rest| == |t| ==> PlainLine(r.value.value))
    decreases |t|
  {
    if t != "" && t[0] != '\"' {
      var skip := if t[0] == '\\' then 2 else 1;
      if |t| >= skip {
        ReadConsumes(t[skip..]);
        var inner := ReadQuoted(t[skip..]);
        if skip == 1 && inner.Some? && PlainLine(inner.value.value) && OnLine(t[0]) {
          PlainLineStep(t[0], inner.value.value);
        }
      }
    }
  }

  lemma PlainLineStep(c: char, s: string)
    ensures PlainLine([c] + s) <==> c != '\"' && c != '\\' && OnLine(c) && PlainLine(s)
  {
    var t := [c] + s;
    assert t[0] == c && t[1..] == s;
    assert forall i :: 0 <= i < |s| ==> s[i] == t[i + 1];
  }

  lemma {:induction false} ReadPlainLine(s: string, rest: string)
    requires PlainLine(s)
    ensures ReadQuoted(s + "\"" + rest) == Some(Scalar(s, rest))
  {
    if s == "" {
      ReadClosing(rest);
    } else {
      PlainLineStep(s[0], s[1..]);
      assert [s[0]] + s[1..] == s;
      ReadPlainLine(s[1..], rest);
      Quoted([s[0]], s[1..], rest);
      ReadNext(s[0], s[1..] + "\"" + rest);
    }
  }

  lemma ReadNext(c: char, tail: string)
    requires c != '\"' && c != '\\' && OnLine(c)
    ensures ReadQuoted([c] + tail) == Prepend(c, ReadQuoted(tail))
  {
    assert ([c] + tail)[1..] == tail;
  }

  /** Text between quotes that is not escaped reads back as itself exactly when it needs
      no escaping. */
  lemma RawReadsBackExactly(s: string, rest: string)
    ensures ReadQuoted(s + "\"" + rest) == Some(Scalar(s, rest)) <==> PlainLine(s)
  {
    if PlainLine(s) {
      ReadPlainLine(s, rest);
    } else {
      ReadConsumes(s + "\"" + rest);
    }
  }

  lemma {:induction false} EscapedLength(s: string)
    ensures |EscapeAll(s)| >= |Keep(s, Printable)|
    ensures |EscapeAll(s)| == |Keep(s, Printable)| <==> Plain(s)
    ensures Plain(s) ==> EscapeAll(s) == Keep(s, Printable)
  {
    if s != "" {
      EscapedLength(s[1..]);
      PlainStep(s);
      EscapeOne(s[0]);
    }
  }

  lemma PlainStep(s: string)
    requires s != ""
    ensures Plain(s) <==> s[0] != '\"' && s[0] != '\\' && Plain(s[1..])
  {
    assert s == [s[0]] + s[1..];
  }

  lemma EscapeOne(c: char)
    ensures if c == '\"' || c == '\\' then |Escape(c)| == 2 && Printable(c)
            else Escape(c) == if Printable(c) then [c] else ""
  {
  }

  lemma {:induction false} EscapedIsPrintable(s: string)
    ensures Keep(EscapeAll(s), Printable) == EscapeAll(s)
    ensures Plain(s) ==> Plain(EscapeAll(s))
  {
    if s != "" {
      EscapedIsPrintable(s[1..]);
      KeepConcat(Escape(s[0]), EscapeAll(s[1..]), Printable);
      KeepAll(Escape(s[0]), Printable);
      assert Plain(s) ==> Plain(s[1..]);
    }
  }

  lemma {:induction false} EscapedPlainOnlyIfPlain(s: string)
    ensures Plain(EscapeAll(s)) ==> Plain(s)
  {
    if s != "" {
      EscapedPlainOnlyIfPlain(s[1..]);
      var e := Escape(s[0]);
      var all := EscapeAll(s);
      assert forall i :: 0 <= i < |EscapeAll(s[1..])| ==> EscapeAll(s[1..])[i] == all[|e| + i];
      if s[0] == '\"' || s[0] == '\\' {
        assert all[0] == '\\';
      }
    }
  }

  /** Escaping twice is harmless exactly for texts with nothing to escape, so a
      value must not pass through the renderer a second time. */
  lemma SanitizeIdempotentExactly(s: string)
    ensures SanitizeForYAML(SanitizeForYAML(s)) == SanitizeForYAML(s) <==> Plain(s)
  {
    PassesAreOneMap(s);
    var once := EscapeAll(s);
    PassesAreOneMap(once);
    EscapedIsPrintable(s);
    EscapedLength(once);
    EscapedPlainOnlyIfPlain(s);
  }
}
