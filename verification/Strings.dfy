/** The string operations of Go's standard library that the broker's text
    pipeline is built from, and the facts about them that the other modules use. */
module Strings {

  datatype Option<+T> = None | Some(value: T)

  /** strings.Split for a separator of one character. */
  function Split(s: string, sep: char): (parts: seq<string>)
    ensures |parts| >= 1
    ensures forall i :: 0 <= i < |parts| ==> sep !in parts[i]
  {
    if s == "" then [""]
    else
      var rest := Split(s[1..], sep);
      if s[0] == sep then [""] + rest else [[s[0]] + rest[0]] + rest[1..]
  }

  /** strings.Join. */
  function Join(parts: seq<string>, sep: string): string {
    if |parts| == 0 then ""
    else if |parts| == 1 then parts[0]
    else parts[0] + sep + Join(parts[1..], sep)
  }

  /** A separator-free text in front of the first separator is the first part. */
  lemma {:induction false} SplitHead(head: string, tail: string, sep: char)
    requires sep !in head
    ensures Split(head + [sep] + tail, sep) == [head] + Split(tail, sep)
  {
    var s := head + [sep] + tail;
    if head == "" {
      assert s[1..] == tail;
    } else {
      assert s[1..] == head[1..] + [sep] + tail;
      SplitHead(head[1..], tail, sep);
      assert [s[0]] + head[1..] == head;
    }
  }

  lemma {:induction false} SplitSeparatorFree(s: string, sep: char)
    requires sep !in s
    ensures Split(s, sep) == [s]
  {
    if s != "" {
      SplitSeparatorFree(s[1..], sep);
      assert [s[0]] + s[1..] == s;
    }
  }

  /** Splitting undoes joining. */
  lemma {:induction false} SplitJoin(parts: seq<string>, sep: char)
    requires |parts| >= 1
    requires forall i :: 0 <= i < |parts| ==> sep !in parts[i]
    ensures Split(Join(parts, [sep]), sep) == parts
  {
    if |parts| == 1 {
      SplitSeparatorFree(parts[0], sep);
    } else {
      SplitJoin(parts[1..], sep);
      SplitHead(parts[0], Join(parts[1..], [sep]), sep);
    }
  }

  /** Joining undoes splitting. */
  lemma {:induction false} JoinSplit(s: string, sep: char)
    ensures Join(Split(s, sep), [sep]) == s
  {
    if s != "" {
      JoinSplit(s[1..], sep);
      var rest := Split(s[1..], sep);
      assert [s[0]] + s[1..] == s;
      if s[0] == sep {
        assert ([""] + rest)[1..] == rest;
      } else {
        var parts := [[s[0]] + rest[0]] + rest[1..];
        assert parts[1..] == rest[1..];
        if |rest| > 1 {
          assert Join(rest, [sep]) == rest[0] + [sep] + Join(rest[1..], [sep]);
        }
      }
    }
  }

  /** strings.ReplaceAll for a pattern of one character. */
  function Replace(s: string, c: char, instead: string): (r: string) {
    if s == "" then "" else (if s[0] == c then instead else [s[0]]) + Replace(s[1..], c, instead)
  }

  lemma {:induction false} ReplaceConcat(s: string, t: string, c: char, instead: string)
    ensures Replace(s + t, c, instead) == Replace(s, c, instead) + Replace(t, c, instead)
  {
    if s == "" {
      assert s + t == t;
    } else {
      assert (s + t)[1..] == s[1..] + t;
      ReplaceConcat(s[1..], t, c, instead);
    }
  }

  lemma {:induction false} ReplaceAbsent(s: string, c: char, instead: string)
    requires c !in s
    ensures Replace(s, c, instead) == s
  {
    if s != "" {
      ReplaceAbsent(s[1..], c, instead);
      assert [s[0]] + s[1..] == s;
    }
  }

  /** Replacing one character by a text without it leaves none of it. */
  lemma {:induction false} ReplaceRemoves(s: string, c: char, instead: string, d: char)
    requires d !in instead
    requires d == c || d !in s
    ensures d !in Replace(s, c, instead)
  {
    if s != "" {
      ReplaceRemoves(s[1..], c, instead, d);
    }
  }

  /** regexp.ReplaceAllString(s, "") for a negated character class: keep the class. */
  function Keep(s: string, inClass: char -> bool): (r: string)
    ensures forall i :: 0 <= i < |r| ==> inClass(r[i]) && r[i] in s
    ensures |r| <= |s|
  {
    if s == "" then ""
    else if inClass(s[0]) then [s[0]] + Keep(s[1..], inClass)
    else Keep(s[1..], inClass)
  }

  lemma {:induction false} KeepAll(s: string, inClass: char -> bool)
    requires forall i :: 0 <= i < |s| ==> inClass(s[i])
    ensures Keep(s, inClass) == s
  {
    if s != "" {
      KeepAll(s[1..], inClass);
      assert [s[0]] + s[1..] == s;
    }
  }

  lemma {:induction false} KeepNone(s: string, inClass: char -> bool)
    requires forall i :: 0 <= i < |s| ==> !inClass(s[i])
    ensures Keep(s, inClass) == ""
  {
    if s != "" {
      KeepNone(s[1..], inClass);
    }
  }

  lemma {:induction false} KeepConcat(s: string, t: string, inClass: char -> bool)
    ensures Keep(s + t, inClass) == Keep(s, inClass) + Keep(t, inClass)
  {
    if s == "" {
      assert s + t == t;
    } else {
      assert (s + t)[1..] == s[1..] + t;
      KeepConcat(s[1..], t, inClass);
    }
  }

  /** A kept character survives. */
  lemma {:induction false} KeepFinds(s: string, inClass: char -> bool, i: nat)
    requires i < |s| && inClass(s[i])
    ensures s[i] in Keep(s, inClass)
  {
    if i > 0 {
      KeepFinds(s[1..], inClass, i - 1);
    }
  }

  /** strings.TrimLeft, TrimRight and Trim for a character class. */
  function TrimLeft(s: string, inClass: char -> bool): (r: string)
    ensures |r| <= |s| && r == s[|s| - |r|..]
    ensures r == "" || !inClass(r[0])
    ensures forall i :: 0 <= i < |s| - |r| ==> inClass(s[i])
  {
    if s != "" && inClass(s[0]) then TrimLeft(s[1..], inClass) else s
  }

  function TrimRight(s: string, inClass: char -> bool): (r: string)
    ensures r <= s
    ensures r == "" || !inClass(r[|r| - 1])
    ensures forall i :: |r| <= i < |s| ==> inClass(s[i])
  {
    if s != "" && inClass(s[|s| - 1]) then TrimRight(s[..|s| - 1], inClass) else s
  }

  function Trim(s: string, inClass: char -> bool): (r: string)
    ensures forall i :: 0 <= i < |r| ==> r[i] in s
    ensures r == "" || (!inClass(r[0]) && !inClass(r[|r| - 1]))
    ensures s == "" || (!inClass(s[0]) && !inClass(s[|s| - 1])) ==> r == s
    ensures (forall i :: 0 <= i < |s| ==> inClass(s[i])) <==> r == ""
  {
    var left := TrimLeft(s, inClass);
    Trimmed(s, left, TrimRight(left, inClass), inClass);
    TrimRight(left, inClass)
  }

  /** What is left of a text when the ends of a class are cut off it. */
  lemma Trimmed(s: string, left: string, r: string, inClass: char -> bool)
    requires |left| <= |s| && left == s[|s| - |left|..] && (left == "" || !inClass(left[0]))
    requires forall i :: 0 <= i < |s| - |left| ==> inClass(s[i])
    requires r <= left && (r == "" || !inClass(r[|r| - 1]))
    requires forall i :: |r| <= i < |left| ==> inClass(left[i])
    ensures forall i :: 0 <= i < |r| ==> r[i] in s
    ensures r == "" || (!inClass(r[0]) && !inClass(r[|r| - 1]))
    ensures s == "" || (!inClass(s[0]) && !inClass(s[|s| - 1])) ==> r == s
    ensures (forall i :: 0 <= i < |s| ==> inClass(s[i])) <==> r == ""
  {
    forall i | 0 <= i < |left| ensures left[i] == s[|s| - |left| + i] {
    }
    if s != "" && !inClass(s[0]) && !inClass(s[|s| - 1]) {
      assert |left| == |s|;
      assert left == s && |r| == |left|;
    }
    if r == "" {
      assert left == "";
    }
  }

  /** What Trim leaves, wherever the ends of the class are cut. */
  lemma TrimExactly(before: string, middle: string, after: string, inClass: char -> bool)
    requires forall i :: 0 <= i < |before| ==> inClass(before[i])
    requires forall i :: 0 <= i < |after| ==> inClass(after[i])
    requires middle == "" || (!inClass(middle[0]) && !inClass(middle[|middle| - 1]))
    ensures Trim(before + middle + after, inClass) == middle
  {
    var s := before + middle + after;
    if middle == "" {
      assert forall i :: 0 <= i < |s| ==> inClass(s[i]);
    } else {
      TrimLeftExactly(before, middle + after, inClass);
      assert s == before + (middle + after);
      TrimRightExactly(middle, after, inClass);
    }
  }

  lemma {:induction false} TrimLeftExactly(before: string, rest: string, inClass: char -> bool)
    requires forall i :: 0 <= i < |before| ==> inClass(before[i])
    requires rest == "" || !inClass(rest[0])
    ensures TrimLeft(before + rest, inClass) == rest
  {
    if before == "" {
      assert before + rest == rest;
    } else {
      assert (before + rest)[1..] == before[1..] + rest;
      TrimLeftExactly(before[1..], rest, inClass);
    }
  }

  lemma {:induction false} TrimRightExactly(rest: string, after: string, inClass: char -> bool)
    requires forall i :: 0 <= i < |after| ==> inClass(after[i])
    requires rest == "" || !inClass(rest[|rest| - 1])
    ensures TrimRight(rest + after, inClass) == rest
  {
    if after == "" {
      assert rest + after == rest;
    } else {
      var s, front := rest + after, after[..|after| - 1];
      assert s[..|s| - 1] == rest + front;
      TrimRightExactly(rest, front, inClass);
    }
  }

  /** unicode.ToLower as far as ASCII goes: for the ASCII letters and for the two other
      characters whose lower case is ASCII (the Kelvin sign and the dotted capital I). */
  function LowerChar(c: char): char {
    if 'A' <= c <= 'Z' then (c as int + 32) as char
    else if c == '\U{212A}' then 'k'
    else if c == '\U{0130}' then 'i'
    else c
  }

  function ToLower(s: string): (r: string)
    ensures |r| == |s|
    ensures forall i :: 0 <= i < |s| ==> r[i] == LowerChar(s[i])
  {
    seq(|s|, i requires 0 <= i < |s| => LowerChar(s[i]))
  }

  /** The white space of unicode.IsSpace. */
  predicate IsSpace(c: char) {
    '\t' <= c <= '\r' || c == ' ' || c == '\U{0085}' || c == '\U{00A0}' || c == '\U{1680}'
    || '\U{2000}' <= c <= '\U{200A}' || c == '\U{2028}' || c == '\U{2029}' || c == '\U{202F}'
    || c == '\U{205F}' || c == '\U{3000}'
  }

  /** strings.TrimSpace. */
  function TrimSpace(s: string): string {
    Trim(s, IsSpace)
  }
}
