/** bosh/client.go's extractTaskID: the task number in a Director's answer. */
module TaskId {
  import opened Strings
  import opened Decimal

  const TASKS := "/tasks/"

  /** A Director answer: the status, the Location header ("" when absent), and the
      id field of the JSON body (None when the body does not decode). */
  datatype Answer = Answer(status: int, location: string, bodyID: Option<int>)

  predicate OccursAt(s: string, pattern: string, i: nat) {
    i + |pattern| <= |s| && s[i..i + |pattern|] == pattern
  }

  predicate Contains(s: string, pattern: string) {
    exists i: nat :: i <= |s| && OccursAt(s, pattern, i)
  }

  /** strings.Index. */
  function Index(s: string, pattern: string, start: nat := 0): (r: Option<nat>)
    ensures r.Some? ==> start <= r.value && OccursAt(s, pattern, r.value)
    ensures r.Some? ==> forall i: nat :: start <= i < r.value ==> !OccursAt(s, pattern, i)
    ensures r.None? ==> forall i: nat :: start <= i ==> !OccursAt(s, pattern, i)
    decreases |s| - start
  {
    if start + |pattern| > |s| then None
    else if s[start..start + |pattern|] == pattern then Some(start)
    else if start < |s| then Index(s, pattern, start + 1)
    else None
  }

  /** The white space Sscanf skips before %d; a newline makes it fail. */
  function SkipSpace(s: string): Option<string> {
    if s == "" || !IsSpace(s[0]) then Some(s)
    else if s[0] == '\n' then None
    else SkipSpace(s[1..])
  }

  function DigitPrefix(s: string): (d: string)
    ensures d <= s && AllDigits(d)
  {
    if s == "" || !IsDigit(s[0]) then "" else [s[0]] + DigitPrefix(s[1..])
  }

  function ScanSigned(t: string): Option<int> {
    var sign := if t != "" && IsSign(t[0]) then t[..1] else "";
    var digits := DigitPrefix(t[|sign|..]);
    if digits == "" then None else Atoi(sign + digits)
  }

  /** Sscanf's %d: what follows the digits is ignored. */
  function ScanInt(s: string): Option<int> {
    match SkipSpace(s)
    case None => None
    case Some(t) => ScanSigned(t)
  }

  function ExtractTaskID(a: Answer): Option<int> {
    if a.status == 302 then
      match Index(a.location, TASKS)
      case None => None
      case Some(i) => ScanInt(a.location[i + |TASKS|..])
    else if a.status == 200 then
      match a.bodyID
      case Some(id) => if id > 0 then Some(id) else None
      case None => None
    else None
  }

  /** An answer of 200 gives the id of its body, if that is positive; an answer with another
      status than 302 or 200 gives none, whatever it carries. */
  lemma BodyIdExactly(a: Answer, id: int)
    requires a.status != 302
    ensures ExtractTaskID(a) == Some(id) <==> a.status == 200 && a.bodyID == Some(id) && id > 0
  {
  }

  function Redirect(location: string): Answer {
    Answer(302, location, None)
  }

  lemma {:induction false} SkipsBlanks(blanks: string, rest: string)
    requires forall i :: 0 <= i < |blanks| ==> IsSpace(blanks[i]) && blanks[i] != '\n'
    requires rest != "" && !IsSpace(rest[0])
    ensures SkipSpace(blanks + rest) == Some(rest)
  {
    if blanks == "" {
      assert blanks + rest == rest;
    } else {
      assert (blanks + rest)[1..] == blanks[1..] + rest;
      SkipsBlanks(blanks[1..], rest);
    }
  }

  lemma {:induction false} DigitsThenRest(digits: string, rest: string)
    requires AllDigits(digits) && (rest == "" || !IsDigit(rest[0]))
    ensures DigitPrefix(digits + rest) == digits
  {
    if digits == "" {
      assert digits + rest == rest;
    } else {
      assert (digits + rest)[1..] == digits[1..] + rest;
      DigitsThenRest(digits[1..], rest);
    }
  }

  lemma ScansNumber(sign: string, digits: string, rest: string)
    requires sign in {"", "+", "-"} && digits != "" && AllDigits(digits) && (rest == "" || !IsDigit(rest[0]))
    ensures ScanSigned(sign + digits + rest) == Atoi(sign + digits)
  {
    var t := sign + digits + rest;
    assert t[|sign|..] == digits + rest;
    assert t[..|sign|] == sign;
    DigitsThenRest(digits, rest);
  }

  lemma ScanIntText(n: int)
    requires InRange(n)
    ensures ScanInt(IntText(n)) == Some(n)
  {
    var sign, digits := if n < 0 then "-" else "", NatText(if n < 0 then -n else n);
    AtoiIntText(n);
    assert IntText(n) == sign + digits == sign + digits + "";
    SkipsBlanks("", IntText(n));
    assert "" + IntText(n) == IntText(n);
    ScansNumber(sign, digits, "");
  }

  /** An earlier occurrence cannot share more than the slash with the appended one. */
  lemma NoOverlap(base: string, tail: string, i: nat)
    requires i < |base| && OccursAt(base + TASKS + tail, TASKS, i)
    ensures i + 7 <= |base| + 1
  {
    var loc := base + TASKS + tail;
    var k := |base| - i;
    if k < 7 {
      assert loc[i..i + 7][k] == loc[|base|] == '/';
      assert TASKS[k] == '/';
    }
  }

  /** Behind a base whose own text, closed by a slash, has no "/tasks/", the first
      "/tasks/" of the Location is the one the Director appended. */
  lemma FirstTasksIsAppended(base: string, tail: string)
    requires !Contains(base + "/", TASKS)
    ensures Index(base + TASKS + tail, TASKS) == Some(|base|)
  {
    var loc := base + TASKS + tail;
    assert loc[|base|..|base| + 7] == TASKS;
    forall i: nat | i < |base| ensures !OccursAt(loc, TASKS, i) {
      if OccursAt(loc, TASKS, i) {
        NoOverlap(base, tail, i);
        assert loc[i..i + 7] == (base + "/")[i..i + 7];
        assert OccursAt(base + "/", TASKS, i);
      }
    }
    assert OccursAt(loc, TASKS, |base|);
  }

  lemma TaskIDReadsBack(base: string, n: int)
    requires !Contains(base + "/", TASKS) && InRange(n)
    ensures ExtractTaskID(Redirect(base + TASKS + IntText(n))) == Some(n)
  {
    FirstTasksIsAppended(base, IntText(n));
    var loc := base + TASKS + IntText(n);
    assert loc[|base| + |TASKS|..] == IntText(n);
    ScanIntText(n);
  }

  /** A character that ends any number. */
  predicate Stops(c: char) {
    !IsSpace(c) && !IsSign(c) && !IsDigit(c)
  }

  lemma {:induction false} SkipSpaceStops(r: string, x: string)
    requires r != "" && Stops(r[|r| - 1])
    ensures match SkipSpace(r)
            case None => SkipSpace(r + x).None?
            case Some(t) => t != "" && t[|t| - 1] == r[|r| - 1] && SkipSpace(r + x) == Some(t + x)
  {
    assert (r + x)[1..] == r[1..] + x;
    if |r| > 1 && IsSpace(r[0]) {
      SkipSpaceStops(r[1..], x);
    }
  }

  lemma {:induction false} DigitPrefixStops(r: string, x: string)
    requires r != "" && Stops(r[|r| - 1])
    ensures DigitPrefix(r + x) == DigitPrefix(r)
  {
    assert (r + x)[1..] == r[1..] + x;
    if |r| > 1 {
      DigitPrefixStops(r[1..], x);
    }
  }

  lemma ScanStops(r: string, x: string)
    requires r != "" && Stops(r[|r| - 1])
    ensures ScanInt(r + x) == ScanInt(r)
  {
    SkipSpaceStops(r, x);
    if SkipSpace(r).Some? {
      var t := SkipSpace(r).value;
      DigitPrefixStops(t, x);
      if IsSign(t[0]) {
        assert |t| > 1;
        assert (t + x)[1..] == t[1..] + x && (t + x)[..1] == t[..1];
        DigitPrefixStops(t[1..], x);
      } else {
        assert (t + x)[0..] == t + x && t[0..] == t;
      }
    }
  }

  lemma IndexOfPrefix(s: string, x: string)
    requires Contains(s, TASKS)
    ensures Index(s, TASKS).Some? && Index(s + x, TASKS) == Index(s, TASKS)
  {
    var i: nat :| i <= |s| && OccursAt(s, TASKS, i);
    var first := Index(s, TASKS).value;
    OccursInLonger(s, x, first);
    forall j: nat | j < first ensures !OccursAt(s + x, TASKS, j) {
      OccursInLonger(s, x, j);
    }
    IndexUnique(s + x, first);
  }

  lemma OccursInLonger(s: string, x: string, i: nat)
    requires i + 7 <= |s|
    ensures OccursAt(s + x, TASKS, i) <==> OccursAt(s, TASKS, i)
  {
  }

  lemma IndexUnique(s: string, r: nat)
    requires OccursAt(s, TASKS, r)
    requires forall j: nat | j < r :: !OccursAt(s, TASKS, j)
    ensures Index(s, TASKS) == Some(r)
  {
  }

  /** Text added behind a stop after the first "/tasks/" goes unread. */
  lemma ScanBehind(s: string, c: char, x: string, long: string, short: string)
    requires Contains(s, TASKS) && Stops(c) && long == s + [c] + x && short == s + [c]
    ensures ExtractTaskID(Redirect(long)) == ExtractTaskID(Redirect(short))
  {
    IndexOfPrefix(s, [c] + x);
    IndexOfPrefix(s, [c]);
    assert s + ([c] + x) == long;
    var i := Index(s, TASKS).value;
    var r := s[i + 7..] + [c];
    assert long[i + 7..] == r + x;
    assert short[i + 7..] == r;
    ScanStops(r, x);
  }

  lemma TasksLocation(base: string, rest: string)
    ensures base + TASKS + rest == base + "/" + ['t'] + ("asks/" + rest)
    ensures base + "/t" == base + "/" + ['t']
  {
  }

  /** Behind any other base the answer does not depend on the task at all. */
  lemma TaskIDHidden(base: string, n: int)
    requires Contains(base + "/", TASKS)
    ensures ExtractTaskID(Redirect(base + TASKS + IntText(n)))
         == ExtractTaskID(Redirect(base + "/t"))
  {
    TasksLocation(base, IntText(n));
    ScanBehind(base + "/", 't', "asks/" + IntText(n), base + TASKS + IntText(n), base + "/t");
  }

  /** A base (empty for a relative path) carries every task id of the integer's
      width through a 302 Location exactly when the base closed by a slash does not
      itself contain "/tasks/". */
  lemma TaskIDRoundTripExactly(base: string)
    ensures (forall n :: InRange(n) ==> ExtractTaskID(Redirect(base + TASKS + IntText(n))) == Some(n))
            <==> !Contains(base + "/", TASKS)
  {
    if Contains(base + "/", TASKS) {
      TaskIDHidden(base, 0);
      TaskIDHidden(base, 1);
      assert InRange(0) && InRange(1);
    } else {
      forall n | InRange(n)
        ensures ExtractTaskID(Redirect(base + TASKS + IntText(n))) == Some(n)
      {
        TaskIDReadsBack(base, n);
      }
    }
  }

  /** Any redirect: the number read is the one behind the first "/tasks/", with blanks before
      it skipped and whatever follows its digits ignored, if it fits the integer's width. */
  lemma RedirectReads(head: string, blanks: string, sign: string, digits: string, rest: string)
    requires !Contains(head + "/", TASKS)
    requires forall i :: 0 <= i < |blanks| ==> IsSpace(blanks[i]) && blanks[i] != '\n'
    requires sign in {"", "+", "-"} && digits != "" && AllDigits(digits) && (rest == "" || !IsDigit(rest[0]))
    ensures ExtractTaskID(Redirect(head + TASKS + (blanks + (sign + digits + rest)))) == Atoi(sign + digits)
  {
    var number := sign + digits + rest;
    var tail := blanks + number;
    FirstTasksIsAppended(head, tail);
    var loc := head + TASKS + tail;
    assert loc[|head| + |TASKS|..] == tail;
    SkipsBlanks(blanks, number);
    ScansNumber(sign, digits, rest);
  }

  /** A redirect to anywhere else gives no id. */
  lemma RedirectElsewhere(location: string)
    requires !Contains(location, TASKS)
    ensures ExtractTaskID(Redirect(location)) == None
  {
  }
}
