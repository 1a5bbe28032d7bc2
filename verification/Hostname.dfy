/** Route hostnames: broker/provision.go's sanitizeHostname and uniqueRouteHostname. */
module Hostname {
  import opened Strings

  const MAX_LABEL := 63

  predicate IsAlnum(c: char) {
    'a' <= c <= 'z' || '0' <= c <= '9'
  }

  predicate IsDnsChar(c: char) {
    IsAlnum(c) || c == '-'
  }

  predicate IsHyphen(c: char) {
    c == '-'
  }

  function SanitizeHostname(s: string): string {
    var lower := ToLower(s);
    var user := Split(lower, '@')[0];
    var dashed := Replace(Replace(user, '.', "-"), '_', "-");
    Trim(Keep(dashed, IsDnsChar), IsHyphen)
  }

  /** The owner part of a route: the sanitized owner, or "agent" when nothing is left. */
  function OwnerLabel(owner: string): string {
    var sanitized := SanitizeHostname(owner);
    if sanitized == "" then "agent" else sanitized
  }

  function SanitizedID(instanceID: string): string {
    Trim(Keep(ToLower(instanceID), IsDnsChar), IsHyphen)
  }

  function FittedOwner(owner: string, idLen: nat): string {
    var room := MAX_LABEL - 4 - idLen;
    var maxOwnerLen := if room < 1 then 1 else room;
    if |owner| > maxOwnerLen then TrimRight(owner[..maxOwnerLen], IsHyphen) else owner
  }

  function CutToLabel(h: string): string {
    if |h| > MAX_LABEL then TrimRight(h[..MAX_LABEL], IsHyphen) else h
  }

  function UniqueRouteHostname(sanitizedOwner: string, instanceID: string): string {
    var sid := SanitizedID(instanceID);
    CutToLabel("oc-" + FittedOwner(sanitizedOwner, |sid|) + "-" + sid)
  }

  /** `^[a-zA-Z0-9][a-zA-Z0-9_-]{0,63}$` */
  predicate IsWordChar(c: char) {
    'a' <= c <= 'z' || 'A' <= c <= 'Z' || '0' <= c <= '9'
  }

  predicate ValidInstanceID(id: string) {
    1 <= |id| <= 64
    && IsWordChar(id[0])
    && forall i :: 1 <= i < |id| ==> IsWordChar(id[i]) || id[i] == '_' || id[i] == '-'
  }

  /** The shape sanitizeHostname produces: DNS characters, no hyphen at either end. */
  predicate Clean(s: string) {
    (forall i :: 0 <= i < |s| ==> IsDnsChar(s[i]))
    && (s == "" || (IsAlnum(s[0]) && IsAlnum(s[|s| - 1])))
  }

  /** A DNS label (section 2.3.1 of RFC 1035 as relaxed by section 2.1 of RFC 1123). */
  predicate IsDnsLabel(s: string) {
    1 <= |s| <= MAX_LABEL && Clean(s)
  }

  lemma TrimmedIsClean(s: string)
    ensures Clean(Trim(Keep(s, IsDnsChar), IsHyphen))
  {
  }

  /** Text that is already clean passes through unchanged. */
  lemma SanitizeFixesClean(s: string)
    requires Clean(s)
    ensures SanitizeHostname(s) == s
    ensures SanitizedID(s) == s
  {
    CleanIDStays(s);
    CleanOwnerStays(s);
  }

  lemma CleanIDStays(s: string)
    requires Clean(s)
    ensures SanitizedID(s) == s
  {
    CleanIsUnchanged(s);
  }

  lemma CleanOwnerStays(s: string)
    requires Clean(s)
    ensures SanitizeHostname(s) == s
  {
    CleanIsUnchanged(s);
    NothingToReplace(s);
  }

  lemma NothingToReplace(s: string)
    requires '@' !in s && '.' !in s && '_' !in s
    ensures Replace(Replace(Split(s, '@')[0], '.', "-"), '_', "-") == s
  {
    SplitSeparatorFree(s, '@');
    ReplaceAbsent(s, '.', "-");
    ReplaceAbsent(s, '_', "-");
  }

  lemma CleanIsUnchanged(s: string)
    requires Clean(s)
    ensures ToLower(s) == s && '@' !in s && '.' !in s && '_' !in s
    ensures Trim(Keep(s, IsDnsChar), IsHyphen) == s
  {
    KeepAll(s, IsDnsChar);
    LowerIsUnchanged(s);
    assert s != "" ==> !IsHyphen(s[0]) && !IsHyphen(s[|s| - 1]);
  }

  lemma LowerIsUnchanged(s: string)
    requires forall i :: 0 <= i < |s| ==> IsDnsChar(s[i])
    ensures ToLower(s) == s && '@' !in s && '.' !in s && '_' !in s
  {
    var lower := ToLower(s);
    assert forall i :: 0 <= i < |s| ==> lower[i] == s[i];
  }

  /** Every owner sanitizes to clean text, and sanitizing again changes nothing. */
  lemma SanitizeIdempotent(s: string)
    ensures Clean(SanitizeHostname(s))
    ensures SanitizeHostname(SanitizeHostname(s)) == SanitizeHostname(s)
  {
    TrimmedIsClean(Replace(Replace(Split(ToLower(s), '@')[0], '.', "-"), '_', "-"));
    SanitizeFixesClean(SanitizeHostname(s));
  }

  // ---------- what the labels are ----------

  /** What a character shows as: lower-cased, in an owner text with "." and "_" as hyphens,
      and nothing when it cannot stand in a label. */
  function ShownChar(c: char, inOwner: bool): string {
    if 'a' <= c <= 'z' || '0' <= c <= '9' || c == '-' then [c]
    else if 'A' <= c <= 'Z' then [c - 'A' + 'a']
    else if c == '\U{212A}' then "k"
    else if c == '\U{0130}' then "i"
    else if inOwner && (c == '.' || c == '_') then "-"
    else ""
  }

  function Shown(s: string, inOwner: bool): string {
    if s == "" then "" else ShownChar(s[0], inOwner) + Shown(s[1..], inOwner)
  }

  lemma LowerTail(s: string)
    requires s != ""
    ensures ToLower(s) == [LowerChar(s[0])] + ToLower(s[1..])
  {
  }

  lemma {:induction false} KeptIsShown(s: string)
    ensures Keep(ToLower(s), IsDnsChar) == Shown(s, false)
  {
    if s != "" {
      LowerTail(s);
      KeptIsShown(s[1..]);
      var c := LowerChar(s[0]);
      assert ToLower(s)[1..] == ToLower(s[1..]);
    }
  }

  lemma {:induction false} DashedIsShown(s: string)
    requires '@' !in s
    ensures '@' !in ToLower(s)
    ensures Keep(Replace(Replace(ToLower(s), '.', "-"), '_', "-"), IsDnsChar) == Shown(s, true)
  {
    if s != "" {
      LowerTail(s);
      DashedIsShown(s[1..]);
      DashedHead(LowerChar(s[0]), ToLower(s[1..]));
    }
  }

  lemma DashedHead(c: char, rest: string)
    ensures Keep(Replace(Replace([c] + rest, '.', "-"), '_', "-"), IsDnsChar)
         == (if c == '.' || c == '_' then "-" else if IsDnsChar(c) then [c] else "")
            + Keep(Replace(Replace(rest, '.', "-"), '_', "-"), IsDnsChar)
  {
    var once := if c == '.' then '-' else c;
    var twice := if once == '_' then '-' else once;
    assert ([c] + rest)[1..] == rest;
    var inner := Replace(rest, '.', "-");
    assert ([once] + inner)[1..] == inner;
    var outer := Replace(inner, '_', "-");
    assert ([twice] + outer)[1..] == outer;
  }

  /** Sanitizing is one map over the characters, with the hyphens at the ends cut off. */
  lemma SanitizeIsOneMap(s: string)
    ensures '@' !in s ==> SanitizeHostname(s) == Trim(Shown(s, true), IsHyphen)
    ensures SanitizedID(s) == Trim(Shown(s, false), IsHyphen)
  {
    KeptIsShown(s);
    if '@' !in s {
      DashedIsShown(s);
      SplitSeparatorFree(ToLower(s), '@');
    }
  }

  /** What follows the first "@" of an owner has no part in its label. */
  lemma CutAtSign(local: string, rest: string)
    requires '@' !in local
    ensures SanitizeHostname(local + "@" + rest) == SanitizeHostname(local)
    ensures OwnerLabel(local + "@" + rest) == OwnerLabel(local)
  {
    DashedIsShown(local);
    assert ToLower(local + "@" + rest) == ToLower(local) + ['@'] + ToLower(rest);
    SplitHead(ToLower(local), ToLower(rest), '@');
    SplitSeparatorFree(ToLower(local), '@');
  }

  predicate ShowsAlnum(c: char) {
    'a' <= c <= 'z' || 'A' <= c <= 'Z' || '0' <= c <= '9' || c == '\U{212A}' || c == '\U{0130}'
  }

  /** No letter and no digit, and so nothing that survives sanitizing. */
  predicate Blank(s: string) {
    forall i :: 0 <= i < |s| ==> !ShowsAlnum(s[i])
  }

  predicate AllHyphens(s: string) {
    forall i :: 0 <= i < |s| ==> IsHyphen(s[i])
  }

  lemma {:induction false} BlankShowsHyphens(s: string)
    ensures Blank(s) <==> AllHyphens(Shown(s, true))
  {
    if s != "" {
      BlankShowsHyphens(s[1..]);
      BlankSplits(s);
      HyphensConcat(ShownChar(s[0], true), Shown(s[1..], true));
    }
  }

  lemma BlankSplits(s: string)
    requires s != ""
    ensures Blank(s) <==> AllHyphens(ShownChar(s[0], true)) && Blank(s[1..])
  {
    ShownAlnum(s[0]);
    assert forall i :: 1 <= i < |s| ==> s[i] == s[1..][i - 1];
  }

  lemma ShownAlnum(c: char)
    ensures AllHyphens(ShownChar(c, true)) <==> !ShowsAlnum(c)
  {
    var shown := ShownChar(c, true);
    assert ShowsAlnum(c) ==> |shown| == 1 && !IsHyphen(shown[0]);
  }

  lemma HyphensConcat(a: string, b: string)
    ensures AllHyphens(a + b) <==> AllHyphens(a) && AllHyphens(b)
  {
    assert forall i :: 0 <= i < |b| ==> (a + b)[|a| + i] == b[i];
    assert forall i :: 0 <= i < |a| ==> (a + b)[i] == a[i];
  }

  /** The label of any owner: the map of what stands before the first "@", or "agent" exactly
      when no letter or digit stands there. */
  lemma OwnerLabelExactly(local: string, tail: string)
    requires '@' !in local && (tail == "" || tail[0] == '@')
    ensures OwnerLabel(local + tail) == if Blank(local) then "agent" else Trim(Shown(local, true), IsHyphen)
  {
    if tail == "" {
      assert local + tail == local;
    } else {
      assert local + tail == local + "@" + tail[1..];
      CutAtSign(local, tail[1..]);
    }
    SanitizeIsOneMap(local);
    BlankShowsHyphens(local);
  }

  predicate StandsInId(c: char) {
    'a' <= c <= 'z' || 'A' <= c <= 'Z' || '0' <= c <= '9' || c == '_' || c == '-'
  }

  /** The id check, without its pattern: at most 64 letters, digits, "_" and "-", and one of
      the first two kinds in front. */
  lemma AcceptedIdsExactly(id: string)
    ensures ValidInstanceID(id)
            <==> id != "" && |id| <= 64 && id[0] != '_' && id[0] != '-' && forall c :: c in id ==> StandsInId(c)
  {
    if forall c :: c in id ==> StandsInId(c) {
      forall i | 0 <= i < |id| ensures IsWordChar(id[i]) || id[i] == '_' || id[i] == '-' {
        assert id[i] in id;
      }
    }
  }

  lemma OwnerLabelClean(owner: string)
    ensures Clean(OwnerLabel(owner)) && OwnerLabel(owner) != ""
  {
    if SanitizeHostname(owner) == "" {
      DefaultOwnersClean();
    } else {
      SanitizeIdempotent(owner);
    }
  }

  lemma DefaultOwnersClean()
    ensures Clean("agent") && "agent" != ""
    ensures Clean("recovered") && "recovered" != ""
  {
  }

  lemma SanitizedIDClean(id: string)
    ensures Clean(SanitizedID(id))
  {
    TrimmedIsClean(ToLower(id));
  }

  lemma FittedOwnerShape(owner: string, idLen: nat)
    requires Clean(owner) && owner != ""
    ensures Clean(FittedOwner(owner, idLen)) && FittedOwner(owner, idLen) != ""
    ensures idLen <= 58 ==> |FittedOwner(owner, idLen)| + 4 + idLen <= MAX_LABEL
    ensures FittedOwner(owner, idLen) <= owner
    ensures |owner| + 4 + idLen <= MAX_LABEL ==> FittedOwner(owner, idLen) == owner
  {
  }

  /** An id of at most 58 sanitized characters is the whole tail of its hostname,
      behind "oc-", a non-empty start of the owner and a hyphen. */
  lemma IdSurvives(owner: string, id: string)
    requires Clean(owner) && owner != ""
    requires |SanitizedID(id)| <= 58
    ensures var sid := SanitizedID(id);
            var h := UniqueRouteHostname(owner, id);
            && |h| <= MAX_LABEL
            && exists o :: o != "" && o <= owner && h == "oc-" + o + "-" + sid
  {
    var sid := SanitizedID(id);
    FittedOwnerShape(owner, |sid|);
    var o := FittedOwner(owner, |sid|);
    assert UniqueRouteHostname(owner, id) == "oc-" + o + "-" + sid;
  }

  /** The hostname of any owner and any id is a DNS label starting with "oc-"
      exactly when something of the id survives sanitizing. */
  lemma HostnameIsLabelExactly(owner: string, id: string)
    requires Clean(owner) && owner != ""
    ensures "oc-" <= UniqueRouteHostname(owner, id)
    ensures |UniqueRouteHostname(owner, id)| <= MAX_LABEL
    ensures IsDnsLabel(UniqueRouteHostname(owner, id)) <==> SanitizedID(id) != ""
  {
    var sid := SanitizedID(id);
    SanitizedIDClean(id);
    FittedOwnerShape(owner, |sid|);
    AssembledLabel(FittedOwner(owner, |sid|), sid);
  }

  lemma AssembledLabel(o: string, sid: string)
    requires Clean(o) && o != "" && Clean(sid)
    requires |sid| <= 58 ==> |o| + 4 + |sid| <= MAX_LABEL
    ensures var h := "oc-" + o + "-" + sid;
            var cut := if |h| > MAX_LABEL then TrimRight(h[..MAX_LABEL], IsHyphen) else h;
            && "oc-" <= cut
            && |cut| <= MAX_LABEL
            && (IsDnsLabel(cut) <==> sid != "")
  {
    var h := "oc-" + o + "-" + sid;
    assert forall i :: 0 <= i < |h| ==> IsDnsChar(h[i]);
    assert h[0] == 'o' && h[1] == 'c' && h[2] == '-' && h[3] == o[0];
    if |h| > MAX_LABEL {
      var cut := TrimRight(h[..MAX_LABEL], IsHyphen);
      assert !IsHyphen(h[..MAX_LABEL][3]);
      assert |cut| > 3;
    } else if sid == "" {
      assert h[|h| - 1] == '-';
    } else {
      assert h[|h| - 1] == sid[|sid| - 1];
    }
  }

  lemma ValidIDSurvives(id: string)
    requires ValidInstanceID(id)
    ensures SanitizedID(id) != ""
  {
    var lower := ToLower(id);
    KeepFinds(lower, IsDnsChar, 0);
    assert IsDnsChar(lower[0]) && !IsHyphen(lower[0]);
    SomethingStays(Keep(lower, IsDnsChar), lower[0]);
  }

  lemma SomethingStays(s: string, c: char)
    requires c in s && !IsHyphen(c)
    ensures Trim(s, IsHyphen) != ""
  {
  }

  /** Provision's hostnames: any owner text and any id that passes the id check. */
  lemma ProvisionedHostnameIsLabel(owner: string, id: string)
    requires ValidInstanceID(id)
    ensures IsDnsLabel(UniqueRouteHostname(OwnerLabel(owner), id))
    ensures "oc-" <= UniqueRouteHostname(OwnerLabel(owner), id)
  {
    OwnerLabelClean(owner);
    ValidIDSurvives(id);
    HostnameIsLabelExactly(OwnerLabel(owner), id);
  }

  /** Update does not check the id, and one made of underscores gives no label. */
  lemma UncheckedIDBreaksLabel(owner: string, id: string)
    requires Clean(owner) && owner != ""
    requires forall i :: 0 <= i < |id| ==> id[i] == '_'
    ensures !ValidInstanceID(id) && !IsDnsLabel(UniqueRouteHostname(owner, id))
  {
    assert ToLower(id) == id;
    KeepNone(id, IsDnsChar);
    assert SanitizedID(id) == "";
    HostnameIsLabelExactly(owner, id);
  }

  /** Instance ids that sanitizing leaves alone, such as UUIDs. */
  predicate Canonical(id: string) {
    id != "" && Clean(id)
  }

  // ---------- which hostnames can be equal ----------

  /** What a hostname keeps of a sanitized id: all of it up to 58 characters, else its
      first 58 without the hyphens that the cut leaves at the end. */
  function Key(sid: string): string {
    if |sid| <= 58 then sid else TrimRight(sid[..58], IsHyphen)
  }

  /** How long the owner part can be. */
  function Room(idLen: nat): nat {
    if idLen <= 58 then 59 - idLen else 1
  }

  lemma {:induction false} TrimRightAppend(prefix: string, t: string)
    requires t != "" && !IsHyphen(t[0])
    ensures TrimRight(prefix + t, IsHyphen) == prefix + TrimRight(t, IsHyphen)
  {
    var all, last := prefix + t, |t| - 1;
    assert all[|all| - 1] == t[last];
    if IsHyphen(t[last]) {
      assert all[..|all| - 1] == prefix + t[..last];
      TrimRightAppend(prefix, t[..last]);
    }
  }

  lemma KeyShape(sid: string)
    requires Clean(sid)
    ensures Clean(Key(sid)) && |Key(sid)| <= 58 && (Key(sid) == "" <==> sid == "")
  {
    if |sid| > 58 {
      var cut := sid[..58];
      assert !IsHyphen(cut[0]);
    }
  }

  lemma OwnerFits(owner: string, idLen: nat)
    requires Clean(owner) && owner != ""
    ensures |FittedOwner(owner, idLen)| <= Room(idLen)
    ensures |owner| <= Room(idLen) ==> FittedOwner(owner, idLen) == owner
  {
  }

  lemma LongIDCut(f: string, sid: string)
    requires |f| == 1 && Clean(sid) && |sid| > 58
    ensures TrimRight(("oc-" + f + "-" + sid)[..MAX_LABEL], IsHyphen) == "oc-" + f + "-" + Key(sid)
  {
    var prefix, cut := "oc-" + f + "-", sid[..58];
    assert ("oc-" + f + "-" + sid)[..MAX_LABEL] == prefix + cut;
    TrimRightAppend(prefix, cut);
  }

  /** Every hostname is "oc-", a clean owner part that fits, a hyphen, and the key. */
  lemma HostnameShape(owner: string, id: string)
    requires Clean(owner) && owner != ""
    ensures var sid := SanitizedID(id);
            var f := FittedOwner(owner, |sid|);
            && Clean(f) && 1 <= |f| <= Room(|sid|)
            && UniqueRouteHostname(owner, id) == "oc-" + f + "-" + Key(sid)
  {
    var sid := SanitizedID(id);
    SanitizedIDClean(id);
    FittedOwnerShape(owner, |sid|);
    OwnerFits(owner, |sid|);
    CutShape(FittedOwner(owner, |sid|), sid);
  }

  /** The cut, on the parts that the hostname is put together from. */
  lemma CutShape(f: string, sid: string)
    requires 1 <= |f| <= Room(|sid|) && Clean(sid)
    ensures CutToLabel("oc-" + f + "-" + sid) == "oc-" + f + "-" + Key(sid)
  {
    if |sid| > 58 {
      LongIDCut(f, sid);
    } else {
      assert |"oc-" + f + "-" + sid| <= MAX_LABEL;
    }
  }

  /** f is the longest start of the owner that fits and does not end in a hyphen. */
  predicate FitsBest(owner: string, room: nat, f: string) {
    f <= owner && 1 <= |f| <= room && !IsHyphen(f[|f| - 1])
    && forall j :: |f| <= j < |owner| && j < room ==> IsHyphen(owner[j])
  }

  lemma BestIsFitted(owner: string, idLen: nat, f: string)
    requires Clean(owner) && owner != "" && FitsBest(owner, Room(idLen), f)
    ensures FittedOwner(owner, idLen) == f
  {
    FittedOwnerShape(owner, idLen);
    var g := FittedOwner(owner, idLen);
    assert g[|g| - 1] == owner[|g| - 1] && f[|f| - 1] == owner[|f| - 1];
    assert |f| == |g|;
  }

  /** The whole hostname: "oc-", the longest fitting start of the owner, a hyphen, and the
      sanitized id, of which 58 characters fit. */
  lemma HostnameExactly(owner: string, id: string, f: string)
    requires Clean(owner) && owner != ""
    requires var n := |SanitizedID(id)|; FitsBest(owner, if n <= 58 then 59 - n else 1, f)
    ensures var sid := SanitizedID(id);
            UniqueRouteHostname(owner, id)
            == "oc-" + f + "-" + if |sid| <= 58 then sid else TrimRight(sid[..58], IsHyphen)
  {
    BestIsFitted(owner, |SanitizedID(id)|, f);
    HostnameShape(owner, id);
  }

  /** s is short enough to survive whole, and k ends with it behind a hyphen that
      follows an alphanumeric: the part of k before that hyphen can move to the owner. */
  predicate TailOf(s: string, k: string) {
    var n := |k| - |s|;
    |s| <= 58 && n >= 2 && k[n..] == s && k[n - 1] == '-' && IsAlnum(k[n - 2])
  }

  /** The condition on two sanitized ids, before any owner is known. */
  predicate Alike(a: string, b: string) {
    Key(a) == Key(b) || TailOf(a, Key(b)) || TailOf(b, Key(a))
  }

  predicate Collide(owner1: string, id1: string, owner2: string, id2: string) {
    Clean(owner1) && owner1 != "" && Clean(owner2) && owner2 != ""
    && UniqueRouteHostname(owner1, id1) == UniqueRouteHostname(owner2, id2)
  }

  /** Two owner parts and keys with one text between them. */
  lemma LongerKeyHasTail(f1: string, k1: string, f2: string, b: string)
    requires Clean(f1) && f1 != "" && Clean(f2) && 1 <= |f2| <= Room(|b|) && Clean(k1) && Clean(b)
    requires f1 + "-" + k1 == f2 + "-" + Key(b) && |k1| > |Key(b)|
    ensures TailOf(b, k1)
  {
    var h, k2 := f1 + "-" + k1, Key(b);
    var n := |k1| - |k2|;
    assert h[|f1| + 1..] == k1;
    assert k1[n - 1] == h[|f2|] == '-';
    assert n >= 2;
    assert k1[n - 2] == h[|f2| - 1] == f2[|f2| - 1];
    assert k1[n..] == h[|f2| + 1..] == k2;
  }

  lemma EqualTextsAreAlike(f1: string, a: string, f2: string, b: string)
    requires Clean(f1) && 1 <= |f1| <= Room(|a|) && Clean(f2) && 1 <= |f2| <= Room(|b|) && Clean(a) && Clean(b)
    requires f1 + "-" + Key(a) == f2 + "-" + Key(b)
    ensures Alike(a, b)
  {
    KeyShape(a);
    KeyShape(b);
    var h := f1 + "-" + Key(a);
    if |Key(a)| == |Key(b)| {
      assert Key(a) == h[|f1| + 1..] == Key(b);
    } else if |Key(a)| > |Key(b)| {
      LongerKeyHasTail(f1, Key(a), f2, b);
    } else {
      LongerKeyHasTail(f2, Key(b), f1, a);
    }
  }

  lemma CollisionsAreAlike(owner1: string, id1: string, owner2: string, id2: string)
    requires Collide(owner1, id1, owner2, id2)
    ensures Alike(SanitizedID(id1), SanitizedID(id2))
  {
    var a, b := SanitizedID(id1), SanitizedID(id2);
    HostnameShape(owner1, id1);
    HostnameShape(owner2, id2);
    SanitizedIDClean(id1);
    SanitizedIDClean(id2);
    var f1, f2 := FittedOwner(owner1, |a|), FittedOwner(owner2, |b|);
    SamePrefix(f1, Key(a), f2, Key(b));
    EqualTextsAreAlike(f1, a, f2, b);
  }

  lemma SamePrefix(f1: string, k1: string, f2: string, k2: string)
    requires "oc-" + f1 + "-" + k1 == "oc-" + f2 + "-" + k2
    ensures f1 + "-" + k1 == f2 + "-" + k2
  {
    var h := "oc-" + f1 + "-" + k1;
    assert h[3..] == f1 + "-" + k1;
    assert h[3..] == f2 + "-" + k2;
  }

  lemma FittingOwner(owner: string, id: string)
    requires Clean(owner) && owner != "" && |owner| <= Room(|SanitizedID(id)|)
    ensures UniqueRouteHostname(owner, id) == "oc-" + owner + "-" + Key(SanitizedID(id))
  {
    OwnerFits(owner, |SanitizedID(id)|);
    HostnameShape(owner, id);
  }

  /** The owner whose end is the front of the other id. */
  lemma FrontAsOwner(o: string, a: string, k: string)
    requires Clean(o) && |o| == 1 && Clean(a) && Clean(k) && |k| <= 58 && TailOf(a, k)
    ensures var owner := o + "-" + k[..|k| - |a| - 1];
            Clean(owner) && |owner| <= Room(|a|) && "oc-" + owner + "-" + a == "oc-" + o + "-" + k
  {
    var front := k[..|k| - |a| - 1];
    assert k == front + "-" + a;
    HyphenatedClean(o, front);
    Regroup("oc-", o, "-", front, "-", a);
  }

  lemma TailsCollide(o: string, id1: string, id2: string) returns (owner1: string)
    requires Clean(o) && |o| == 1
    requires TailOf(SanitizedID(id1), Key(SanitizedID(id2)))
    ensures Collide(owner1, id1, o, id2)
  {
    var a, b := SanitizedID(id1), SanitizedID(id2);
    SanitizedIDClean(id1);
    SanitizedIDClean(id2);
    KeyShape(b);
    owner1 := TailOwner(o, a, Key(b));
    SameHost(owner1, id1, o, id2);
  }

  lemma TailOwner(o: string, a: string, k: string) returns (owner: string)
    requires Clean(o) && |o| == 1 && Clean(a) && Clean(k) && |k| <= 58 && TailOf(a, k)
    ensures Clean(owner) && owner != "" && |owner| <= Room(|a|)
    ensures "oc-" + owner + "-" + Key(a) == "oc-" + o + "-" + k
  {
    FrontAsOwner(o, a, k);
    owner := o + "-" + k[..|k| - |a| - 1];
  }

  lemma SameHost(owner1: string, id1: string, owner2: string, id2: string)
    requires Clean(owner1) && owner1 != "" && |owner1| <= Room(|SanitizedID(id1)|)
    requires Clean(owner2) && owner2 != "" && |owner2| <= Room(|SanitizedID(id2)|)
    requires "oc-" + owner1 + "-" + Key(SanitizedID(id1)) == "oc-" + owner2 + "-" + Key(SanitizedID(id2))
    ensures Collide(owner1, id1, owner2, id2)
  {
    FittingOwner(owner1, id1);
    FittingOwner(owner2, id2);
  }

  lemma AlikeCollide(o: string, id1: string, id2: string) returns (owner1: string, owner2: string)
    requires Clean(o) && |o| == 1
    requires Alike(SanitizedID(id1), SanitizedID(id2))
    ensures Collide(owner1, id1, owner2, id2)
  {
    owner1, owner2 := o, o;
    if Key(SanitizedID(id1)) == Key(SanitizedID(id2)) {
      SameHost(o, id1, o, id2);
    } else if TailOf(SanitizedID(id1), Key(SanitizedID(id2))) {
      owner1 := TailsCollide(o, id1, id2);
    } else {
      owner2 := TailsCollide(o, id2, id1);
    }
  }

  /** Some owners give two ids one hostname exactly when the ids are alike: their keys
      are equal, or one of them is the tail of the other's key as TailOf says. */
  lemma HostnamesCollideExactly(id1: string, id2: string)
    ensures (exists owner1, owner2 :: Collide(owner1, id1, owner2, id2))
            <==> Alike(SanitizedID(id1), SanitizedID(id2))
  {
    var a, b := SanitizedID(id1), SanitizedID(id2);
    forall owner1, owner2 | Collide(owner1, id1, owner2, id2) ensures Alike(a, b) {
      CollisionsAreAlike(owner1, id1, owner2, id2);
    }
    if Alike(a, b) {
      var o := "a";
      var owner1, owner2 := AlikeCollide(o, id1, id2);
    }
  }

  /** The same for what Provision does with any owner texts. */
  predicate CollideFor(text1: string, id1: string, text2: string, id2: string) {
    UniqueRouteHostname(OwnerLabel(text1), id1) == UniqueRouteHostname(OwnerLabel(text2), id2)
  }

  lemma ProvisionedCollideExactly(id1: string, id2: string)
    ensures (exists text1, text2 :: CollideFor(text1, id1, text2, id2)) <==> Alike(SanitizedID(id1), SanitizedID(id2))
  {
    HostnamesCollideExactly(id1, id2);
    forall text1, text2 | CollideFor(text1, id1, text2, id2)
      ensures Collide(OwnerLabel(text1), id1, OwnerLabel(text2), id2)
    {
      OwnerLabelClean(text1);
      OwnerLabelClean(text2);
    }
    if owner1, owner2 :| Collide(owner1, id1, owner2, id2) {
      CleanOwnerStays(owner1);
      CleanOwnerStays(owner2);
      assert CollideFor(owner1, id1, owner2, id2);
    }
  }

  /** Among sanitized ids of one length, being alike is having the same key: the same id
      up to 58 characters, and the same first 58 but for final hyphens above. */
  lemma AlikeAtOneLength(a: string, b: string)
    requires |a| == |b|
    ensures Alike(a, b) <==> Key(a) == Key(b)
    ensures |a| <= 58 ==> (Alike(a, b) <==> a == b)
    ensures |a| > 58 && a[..58] == b[..58] ==> Alike(a, b)
  {
  }

  /** Equal hostnames mean equal sanitized ids, whatever the owners, when the
      sanitized ids have one length of at most 58. */
  lemma HostnameDeterminesID(owner1: string, id1: string, owner2: string, id2: string)
    requires Clean(owner1) && owner1 != "" && Clean(owner2) && owner2 != ""
    ensures |SanitizedID(id1)| == |SanitizedID(id2)| <= 58
            && UniqueRouteHostname(owner1, id1) == UniqueRouteHostname(owner2, id2)
            ==> SanitizedID(id1) == SanitizedID(id2)
  {
    if |SanitizedID(id1)| == |SanitizedID(id2)| <= 58 && Collide(owner1, id1, owner2, id2) {
      CollisionsAreAlike(owner1, id1, owner2, id2);
      AlikeAtOneLength(SanitizedID(id1), SanitizedID(id2));
    }
  }

  /** Length 58 is the limit: from 59 on, ids that Provision accepts and that differ in
      their last character only give every owner one and the same hostname. */
  lemma LongIdsCollide(owner: string, a: string, b: string)
    requires Clean(owner) && owner != "" && Canonical(a) && Canonical(b)
    requires |a| == |b| && 59 <= |a| && a[..58] == b[..58]
    ensures UniqueRouteHostname(owner, a) == UniqueRouteHostname(owner, b)
    ensures |a| <= 64 ==> ValidInstanceID(a) && ValidInstanceID(b)
  {
    SanitizeFixesClean(a);
    SanitizeFixesClean(b);
    SameStartSameKey(a, b);
    SameLengthAndKey(owner, a, b);
    if |a| <= 64 {
      CanonicalIsValid(a);
      CanonicalIsValid(b);
    }
  }

  lemma SameStartSameKey(a: string, b: string)
    requires |a| == |b| && 59 <= |a| && a[..58] == b[..58]
    ensures Key(a) == Key(b)
  {
  }

  lemma CanonicalIsValid(id: string)
    requires Canonical(id) && |id| <= 64
    ensures ValidInstanceID(id)
  {
  }

  lemma SameLengthAndKey(owner: string, id1: string, id2: string)
    requires Clean(owner) && owner != "" && |SanitizedID(id1)| == |SanitizedID(id2)|
    requires Key(SanitizedID(id1)) == Key(SanitizedID(id2))
    ensures UniqueRouteHostname(owner, id1) == UniqueRouteHostname(owner, id2)
  {
    HostnameShape(owner, id1);
    HostnameShape(owner, id2);
  }

  /** Without the common length hostnames do collide: moving a piece of the owner
      over the hyphen into the id leaves the hostname as it was. */
  lemma UnequalLengthsCollide(o: string, a: string, b: string)
    requires Clean(o) && o != "" && Canonical(a) && Canonical(b)
    requires |o| + |a| + |b| + 5 <= MAX_LABEL
    ensures Clean(o + "-" + a) && Canonical(a + "-" + b)
    ensures UniqueRouteHostname(o + "-" + a, b) == UniqueRouteHostname(o, a + "-" + b)
  {
    var owner, id := o + "-" + a, a + "-" + b;
    assert Clean(owner) by { HyphenatedClean(o, a); }
    assert Canonical(id) by { HyphenatedClean(a, b); }
    assert "oc-" + owner + "-" + b == "oc-" + o + "-" + id by { Regroup("oc-", o, "-", a, "-", b); }
    SameText(owner, b, o, id);
  }

  lemma SameText(owner1: string, id1: string, owner2: string, id2: string)
    requires Canonical(id1) && Canonical(id2)
    requires |owner1| + 4 + |id1| <= MAX_LABEL && |owner2| + 4 + |id2| <= MAX_LABEL
    requires "oc-" + owner1 + "-" + id1 == "oc-" + owner2 + "-" + id2
    ensures UniqueRouteHostname(owner1, id1) == UniqueRouteHostname(owner2, id2)
  {
    SanitizeFixesClean(id1);
    SanitizeFixesClean(id2);
    ShortHostname(owner1, id1);
    ShortHostname(owner2, id2);
  }

  lemma HyphenatedClean(a: string, b: string)
    requires Canonical(a) && Canonical(b)
    ensures Canonical(a + "-" + b)
  {
  }

  lemma Regroup(prefix: string, o: string, s1: string, a: string, s2: string, b: string)
    ensures prefix + (o + s1 + a) + s2 + b == prefix + o + s1 + (a + s2 + b)
  {
  }

  lemma ShortHostname(owner: string, id: string)
    requires SanitizedID(id) == id && |owner| + 4 + |id| <= MAX_LABEL
    ensures UniqueRouteHostname(owner, id) == "oc-" + owner + "-" + id
  {
  }
}
