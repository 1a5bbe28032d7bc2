/** The minimum-version gate of security/policy.go. */
module VersionGate {
  import opened Strings
  import opened Decimal

  const MIN_SAFE_VERSION := "2026.1.29"

  datatype Version = Version(year: int, month: int, day: int)

  /** What precedes the first occurrence of a character (strings.Cut). */
  function Before(s: string, sep: char): string {
    Split(s, sep)[0]
  }

  function ParseVersion(v: string): Option<Version> {
    var parts := Split(v, '.');
    if |parts| != 3 then None
    else
      match (Atoi(parts[0]), Atoi(parts[1]), Atoi(Before(parts[2], '-')))
      case (Some(y), Some(m), Some(d)) => Some(Version(y, m, d))
      case _ => None
  }

  datatype Verdict = Ok | VersionMissing | VersionMalformed | MinimumMalformed | BelowMinimum

  function ValidateVersion(version: string, minVersion: string): Verdict {
    var minimum := if minVersion == "" then MIN_SAFE_VERSION else minVersion;
    if version == "" then VersionMissing
    else
      match ParseVersion(version)
      case None => VersionMalformed
      case Some(v) =>
        match ParseVersion(minimum)
        case None => MinimumMalformed
        case Some(m) =>
          if v.year < m.year
             || (v.year == m.year && v.month < m.month)
             || (v.year == m.year && v.month == m.month && v.day < m.day)
          then BelowMinimum
          else Ok
  }

  /** The lexicographic order, defined on its own. */
  predicate AtLeast(v: Version, m: Version) {
    LexLeq([m.year, m.month, m.day], [v.year, v.month, v.day])
  }

  predicate LexLeq(a: seq<int>, b: seq<int>) {
    if a == [] then true
    else if b == [] then false
    else a[0] < b[0] || (a[0] == b[0] && LexLeq(a[1..], b[1..]))
  }

  function VersionText(y: int, m: int, d: int): string {
    IntText(y) + "." + IntText(m) + "." + IntText(d)
  }

  lemma IntTextPlain(n: int)
    ensures '.' !in IntText(n)
    ensures n >= 0 ==> '-' !in IntText(n)
  {
  }

  /** Three in-range decimals joined by dots, with or without a hyphen suffix, parse
      back exactly when the day is not negative: a day's sign starts the suffix. */
  lemma ParseVersionText(y: int, m: int, d: int, suffix: string)
    requires InRange(y) && InRange(m) && InRange(d)
    requires suffix == "" || (suffix[0] == '-' && '.' !in suffix)
    ensures ParseVersion(VersionText(y, m, d) + suffix) == if d >= 0 then Some(Version(y, m, d)) else None
  {
    IntTextPlain(y); IntTextPlain(m); IntTextPlain(d);
    AtoiIntText(y); AtoiIntText(m);
    ParseDotted(IntText(y), IntText(m), IntText(d) + suffix);
    DayReadsBack(d, suffix);
    SuffixOfDay(IntText(y), IntText(m), IntText(d), suffix);
  }

  lemma SuffixOfDay(a: string, b: string, c: string, suffix: string)
    ensures a + "." + b + "." + c + suffix == a + "." + b + "." + (c + suffix)
  {
  }

  lemma ParseDotted(a: string, b: string, c: string)
    requires '.' !in a && '.' !in b && '.' !in c
    ensures ParseVersion(a + "." + b + "." + c)
         == match (Atoi(a), Atoi(b), Atoi(Before(c, '-')))
            case (Some(y), Some(m), Some(d)) => Some(Version(y, m, d))
            case _ => None
  {
    SplitDotted(a, b, c);
  }

  lemma DayReadsBack(d: int, suffix: string)
    requires InRange(d)
    requires suffix == "" || suffix[0] == '-'
    ensures Atoi(Before(IntText(d) + suffix, '-')) == if d >= 0 then Some(d) else None
  {
    if d >= 0 {
      IntTextPlain(d);
      BeforeHyphen(IntText(d), suffix);
      AtoiIntText(d);
    } else {
      BeforeHyphen("", IntText(d) + suffix);
      assert "" + (IntText(d) + suffix) == IntText(d) + suffix;
    }
  }

  lemma SplitDotted(a: string, b: string, c: string)
    requires '.' !in a && '.' !in b && '.' !in c
    ensures Split(a + "." + b + "." + c, '.') == [a, b, c]
  {
    assert a + "." + b + "." + c == a + ['.'] + (b + ['.'] + c);
    SplitHead(a, b + ['.'] + c, '.');
    SplitHead(b, c, '.');
    SplitSeparatorFree(c, '.');
  }

  lemma BeforeHyphen(a: string, suffix: string)
    requires '-' !in a
    requires suffix == "" || suffix[0] == '-'
    ensures Before(a + suffix, '-') == a
  {
    if suffix == "" {
      assert a + suffix == a;
      SplitSeparatorFree(a, '-');
    } else {
      assert a + suffix == a + ['-'] + suffix[1..];
      SplitHead(a, suffix[1..], '-');
    }
  }

  /** The gate accepts exactly the versions that parse and are at least a minimum
      that parses too; an empty minimum stands for the built-in one. */
  lemma AcceptsExactly(version: string, minVersion: string)
    ensures var minimum := if minVersion == "" then MIN_SAFE_VERSION else minVersion;
            ValidateVersion(version, minVersion).Ok? <==>
            && version != ""
            && ParseVersion(version).Some?
            && ParseVersion(minimum).Some?
            && AtLeast(ParseVersion(version).value, ParseVersion(minimum).value)
  {
    var minimum := if minVersion == "" then MIN_SAFE_VERSION else minVersion;
    if ParseVersion(version).Some? && ParseVersion(minimum).Some? {
      LexLeqThree(ParseVersion(minimum).value, ParseVersion(version).value);
    }
  }

  lemma LexLeqThree(m: Version, v: Version)
    ensures AtLeast(v, m) <==>
            !(v.year < m.year
              || (v.year == m.year && v.month < m.month)
              || (v.year == m.year && v.month == m.month && v.day < m.day))
  {
    var a, b := [m.year, m.month, m.day], [v.year, v.month, v.day];
    assert LexLeq(a[1..][1..][1..], b[1..][1..][1..]);
    assert LexLeq(a[1..][1..], b[1..][1..]) <==> m.day <= v.day;
    assert LexLeq(a[1..], b[1..]) <==> m.month < v.month || (m.month == v.month && m.day <= v.day);
  }

  /** What a version text is: three parts between two dots, each a decimal, the third up to
      its first hyphen. */
  lemma ParsesExactly(a: string, b: string, c: string, suffix: string)
    requires '.' !in a && '.' !in b && '.' !in c && '-' !in c && '.' !in suffix
    requires suffix == "" || suffix[0] == '-'
    ensures ParseVersion(a + "." + b + "." + (c + suffix))
         == match (Atoi(a), Atoi(b), Atoi(c))
            case (Some(y), Some(m), Some(d)) => Some(Version(y, m, d))
            case _ => None
  {
    ParseDotted(a, b, c + suffix);
    BeforeHyphen(c, suffix);
  }

  /** And nothing else parses. */
  lemma ParsesOnly(v: string) returns (a: string, b: string, c: string)
    requires ParseVersion(v).Some?
    ensures '.' !in a && '.' !in b && '.' !in c && v == a + "." + b + "." + c
  {
    var parts := Split(v, '.');
    a, b, c := parts[0], parts[1], parts[2];
    JoinSplit(v, '.');
    JoinThree(parts);
  }

  lemma JoinThree(parts: seq<string>)
    requires |parts| == 3
    ensures Join(parts, ".") == parts[0] + "." + parts[1] + "." + parts[2]
  {
    var last := parts[1..][1..];
    assert Join(last, ".") == parts[2];
    assert Join(parts[1..], ".") == parts[1] + "." + parts[2];
    DotAssociates(parts[0], parts[1], parts[2]);
  }

  lemma DotAssociates(a: string, b: string, c: string)
    ensures a + "." + (b + "." + c) == a + "." + b + "." + c
  {
  }

  /** Without a configured minimum the gate asks for 29 January 2026. */
  lemma BuiltInMinimum(version: string)
    requires version != "" && ParseVersion(version).Some?
    ensures var v := ParseVersion(version).value;
            ValidateVersion(version, "").Ok?
            <==> v.year > 2026 || (v.year == 2026 && (v.month > 1 || (v.month == 1 && v.day >= 29)))
  {
    MinimumReads();
  }

  lemma MinimumReads()
    ensures ParseVersion(MIN_SAFE_VERSION) == Some(Version(2026, 1, 29))
  {
    ParseVersionText(2026, 1, 29, "");
    MinimumText();
    assert VersionText(2026, 1, 29) + "" == VersionText(2026, 1, 29);
  }

  lemma MinimumText()
    ensures VersionText(2026, 1, 29) == MIN_SAFE_VERSION
  {
    YearText();
    assert NatText(2) == "2";
    assert NatText(1) == "1" && NatText(29) == "29";
  }

  lemma YearText()
    ensures NatText(2026) == "2026"
  {
    assert NatText(20) == "20";
    assert NatText(202) == "202";
  }

  /** On versions that parse, "passes the gate with this minimum" is a total preorder. */
  lemma GateIsTotalPreorder(a: string, b: string, c: string)
    requires ParseVersion(a).Some? && ParseVersion(b).Some? && ParseVersion(c).Some?
    ensures ValidateVersion(a, a).Ok?
    ensures ValidateVersion(a, b).Ok? || ValidateVersion(b, a).Ok?
    ensures ValidateVersion(a, b).Ok? && ValidateVersion(b, c).Ok? ==> ValidateVersion(a, c).Ok?
  {
  }
}
