/** The instance quotas over every interleaving of all handlers. */
module Quota {
  import opened Strings
  import opened Domain
  import opened Handlers
  import opened Protocol
  import opened Invariant
  import opened Numbers

  /** Entries that leave "deprovisioning" and use up a slot again: by a rollback, by a
      late update or upgrade, or by a status poll. */
  function Revived(s: System, t: System, org: Option<string>): set<string> {
    set k | k in View(s) && k in View(t) && View(s)[k].state == Deprovisioning && Counts(View(t)[k], org)
  }

  /** Entries that appear and use up a slot. */
  function Appeared(s: System, t: System, org: Option<string>): set<string> {
    CountedKeys(View(t), org) - View(s).Keys
  }

  /** What one step may add above the limit: revived entries, and entries that
      Update adopts without a quota check. */
  function Credit(cfg: Config, s: System, l: Step, org: Option<string>): nat {
    var t := Apply(cfg, s, l);
    |Revived(s, t, org)| + if l.UpdateBegin? then |Appeared(s, t, org)| else 0
  }

  function Ledger(cfg: Config, s: System, steps: seq<Step>, org: Option<string>): nat
    decreases |steps|
  {
    if steps == [] then 0
    else Credit(cfg, s, steps[0], org) + Ledger(cfg, Apply(cfg, s, steps[0]), steps[1..], org)
  }

  lemma UnionSize<T>(a: set<T>, b: set<T>, c: set<T>, all: set<T>)
    requires all <= a + b + c
    ensures |all| <= |a| + |b| + |c|
  {
    SubsetSize(all, a + b + c);
    assert |a + b| <= |a| + |b|;
    assert |a + b + c| <= |a + b| + |c|;
  }

  lemma {:induction false} SubsetSize<T>(a: set<T>, b: set<T>)
    requires a <= b
    ensures |a| <= |b|
  {
    assert b == a + (b - a);
  }

  /** An entry present before and after an effect refers to the same record, which
      keeps its organization. */
  lemma EntryStays(s: System, t: System, e: Effect, k: string)
    requires Inv(s) && GoodEffect(s, e) && Effected(s, t, e)
    requires k in View(s) && k in View(t)
    ensures t.instances[k] == s.instances[k]
    ensures View(t)[k].orgGUID == View(s)[k].orgGUID
    ensures View(t)[k] != View(s)[k] ==> e.Overwrite? && e.ref == s.instances[k]
  {
  }

  lemma CountedAfter(s: System, t: System, e: Effect, org: Option<string>)
    requires Inv(s) && GoodEffect(s, e) && Effected(s, t, e)
    ensures CountedKeys(View(t), org) <= CountedKeys(View(s), org) + Revived(s, t, org) + Appeared(s, t, org)
  {
    forall k | k in CountedKeys(View(t), org) && k in View(s)
      ensures k in CountedKeys(View(s), org) + Revived(s, t, org)
    {
      EntryStays(s, t, e, k);
    }
  }

  lemma WhoAppears(s: System, t: System, e: Effect, org: Option<string>)
    requires Inv(s) && GoodEffect(s, e) && Effected(s, t, e)
    ensures Appeared(s, t, org) != {} ==>
              && e.Insert?
              && Appeared(s, t, org) == {e.id}
              && e.id in View(t) && View(t)[e.id] == e.rec
  {
    forall k | k in Appeared(s, t, org) ensures e.Insert? && k == e.id {
      OnlyInserted(s, t, e, k);
    }
    if Appeared(s, t, org) != {} {
      var k :| k in Appeared(s, t, org);
      OnlyInserted(s, t, e, k);
    }
  }

  lemma OnlyInserted(s: System, t: System, e: Effect, k: string)
    requires Inv(s) && GoodEffect(s, e) && Effected(s, t, e)
    requires k in View(t) && k !in View(s)
    ensures e.Insert? && k == e.id && View(t)[k] == e.rec
  {
    EntriesAreVisible(s);
    assert k in t.instances && k !in s.instances;
  }

  /** A Provision that reserves a slot found the count below the limit, in the same
      lock section. */
  lemma ReserveRespectsLimit(cfg: Config, s: System, t: System, e: Effect, org: Option<string>)
    requires Inv(s) && GoodEffect(s, e) && Effected(s, t, e)
    requires Limit(cfg, org) > 0 && e.Insert?
    requires !OverQuota(cfg, View(s), None) && !OverQuota(cfg, View(s), Some(e.rec.orgGUID))
    requires Appeared(s, t, org) != {}
    ensures Count(View(t), org) <= Limit(cfg, org)
  {
    WhoAppears(s, t, e, org);
    assert e.id in CountedKeys(View(t), org);
    assert org.None? || org == Some(e.rec.orgGUID);
    forall k | k in CountedKeys(View(t), org) ensures k in CountedKeys(View(s), org) + {e.id} {
      if k in View(s) {
        EntryStays(s, t, e, k);
      } else {
        assert k in Appeared(s, t, org);
      }
    }
    UnionSize(CountedKeys(View(s), org), {e.id}, {}, CountedKeys(View(t), org));
  }

  lemma StepQuota(cfg: Config, s: System, l: Step, org: Option<string>)
    requires Inv(s) && Limit(cfg, org) > 0
    ensures var after := Count(View(Apply(cfg, s, l)), org);
            after <= Limit(cfg, org) || after <= Count(View(s), org) + Credit(cfg, s, l, org)
  {
    var e := StepShape(cfg, s, l);
    EffectQuota(cfg, s, Apply(cfg, s, l), l, e, org);
  }

  lemma EffectQuota(cfg: Config, s: System, t: System, l: Step, e: Effect, org: Option<string>)
    requires Inv(s) && Limit(cfg, org) > 0 && GoodEffect(s, e) && InsertedBy(cfg, s, l, e) && Effected(s, t, e)
    ensures Count(View(t), org) <= Limit(cfg, org)
            || Count(View(t), org) <= Count(View(s), org) + |Revived(s, t, org)|
                                      + (if l.UpdateBegin? then |Appeared(s, t, org)| else 0)
  {
    CountedAfter(s, t, e, org);
    UnionSize(CountedKeys(View(s), org), Revived(s, t, org), Appeared(s, t, org), CountedKeys(View(t), org));
    WhoAppears(s, t, e, org);
    if Appeared(s, t, org) != {} && !l.UpdateBegin? {
      assert !l.DeprovisionBegin?;
      ReserveRespectsLimit(cfg, s, t, e, org);
    }
  }

  /** With a limit set, for the whole broker or for one organization, the entries that
      are not being deprovisioned never exceed the limit (or the initial count, if
      that was higher) by more than the ledger of the run. */
  lemma {:induction false} QuotaOverRuns(cfg: Config, s: System, steps: seq<Step>, org: Option<string>)
    requires Inv(s) && Limit(cfg, org) > 0
    ensures Count(View(Run(cfg, s, steps)), org)
         <= Max(Limit(cfg, org), Count(View(s), org)) + Ledger(cfg, s, steps, org)
    decreases |steps|
  {
    if steps != [] {
      StepKeepsInv(cfg, s, steps[0]);
      StepQuota(cfg, s, steps[0], org);
      QuotaOverRuns(cfg, Apply(cfg, s, steps[0]), steps[1..], org);
    }
  }

  /** A revived entry's own record is the one the step wrote. */
  lemma RevivedIsWritten(s: System, t: System, e: Effect, org: Option<string>, k: string)
    requires Inv(s) && GoodEffect(s, e) && Effected(s, t, e)
    requires k in Revived(s, t, org)
    ensures e.Overwrite? && e.ref < |s.heap| && s.heap[e.ref].id == k
  {
    EntryStays(s, t, e, k);
    assert Refers(s, s.instances[k], k);
  }

  lemma RevivedAtMostOne(s: System, t: System, e: Effect, org: Option<string>)
    requires Inv(s) && GoodEffect(s, e) && Effected(s, t, e)
    ensures |Revived(s, t, org)| <= 1
    ensures Revived(s, t, org) != {} ==> e.Overwrite?
  {
    forall k | k in Revived(s, t, org) ensures e.Overwrite? && k == Written(s, e) {
      RevivedIsWritten(s, t, e, org, k);
    }
    AtMostOne(Revived(s, t, org), Written(s, e));
  }

  function Written(s: System, e: Effect): string {
    if e.Overwrite? && e.ref < |s.heap| then s.heap[e.ref].id else ""
  }

  lemma AtMostOne(r: set<string>, k: string)
    requires forall j :: j in r ==> j == k
    ensures |r| <= 1
  {
    assert r == if k in r then {k} else {};
  }

  /** The ledger counts events: one step adopts or revives at most one entry. */
  lemma CreditIsOneEvent(cfg: Config, s: System, l: Step, org: Option<string>)
    requires Inv(s)
    ensures Credit(cfg, s, l, org) <= 1
  {
    var e := StepShape(cfg, s, l);
    var t := Apply(cfg, s, l);
    RevivedAtMostOne(s, t, e, org);
    WhoAppears(s, t, e, org);
  }

  /** Update adopts into no organization, so an organization's ledger holds revivals only. */
  lemma AdoptionHasNoOrg(cfg: Config, s: System, l: Step, org: string)
    requires Inv(s) && org != "" && l.UpdateBegin?
    ensures Appeared(s, Apply(cfg, s, l), Some(org)) == {}
  {
    var e := StepShape(cfg, s, l);
    var t := Apply(cfg, s, l);
    WhoAppears(s, t, e, Some(org));
    assert forall k :: k in CountedKeys(View(t), Some(org)) ==> View(t)[k].orgGUID == org;
  }

  /** The allowance for Update is needed: it adds an entry for an unknown id whatever
      the limit and the count are. */
  lemma UpdateIgnoresQuota(cfg: Config, s: System, l: Step)
    requires Inv(s)
    requires l.UpdateBegin? && l.async && l.request.Some? && l.h !in s.handlers && l.id !in View(s)
    ensures Count(View(Apply(cfg, s, l)), None) == Count(View(s), None) + 1
  {
    UpdateAdopts(cfg, s, l);
    InsertAddsOne(s, Apply(cfg, s, l), l.id, MoveOf(cfg, s, l).effect.rec);
  }

  lemma UpdateAdopts(cfg: Config, s: System, l: Step)
    requires Inv(s)
    requires l.UpdateBegin? && l.async && l.request.Some? && l.h !in s.handlers && l.id !in View(s)
    ensures var m := MoveOf(cfg, s, l);
            && m.Move? && m.effect.Insert? && m.effect.id == l.id
            && m.effect.rec.state == Provisioning
            && GoodEffect(s, m.effect)
            && Effected(s, Apply(cfg, s, l), m.effect)
  {
    MoveIsGood(cfg, s, l);
  }

  lemma InsertAddsOne(s: System, t: System, id: string, rec: Record)
    requires Inv(s) && GoodEffect(s, Insert(id, rec)) && Effected(s, t, Insert(id, rec))
    requires rec.state != Deprovisioning
    ensures Count(View(t), None) == Count(View(s), None) + 1
  {
    InsertView(s, t, id, rec);
    AddCounted(View(s), id, rec);
  }

  lemma AddCounted(mem: Memory, id: string, rec: Record)
    requires id !in mem && rec.state != Deprovisioning
    ensures Count(mem[id := rec], None) == Count(mem, None) + 1
  {
    assert CountedKeys(mem[id := rec], None) == CountedKeys(mem, None) + {id};
  }

  lemma InsertView(s: System, t: System, id: string, rec: Record)
    requires Inv(s) && GoodEffect(s, Insert(id, rec)) && Effected(s, t, Insert(id, rec))
    ensures id !in View(s) && View(t) == View(s)[id := rec]
  {
    EntriesAreVisible(s);
    AppendedView(s, t, id, rec);
  }

  lemma AppendedView(s: System, t: System, id: string, rec: Record)
    requires View(s).Keys == s.instances.Keys
    requires t.heap == s.heap + [rec] && t.instances == s.instances[id := |s.heap|]
    ensures View(t) == View(s)[id := rec]
  {
    forall k | k in s.instances ensures s.instances[k] < |s.heap| {
      assert k in View(s);
    }
  }
}
