/** Which records the upgrade tracker can name, over every interleaving. The tracker
    starts out empty and is filled after the record has been put on the configured
    version, so no entry it names is left on the version of an earlier configuration. */
module Tracker {
  import opened Strings
  import opened Domain
  import opened Handlers
  import opened Protocol
  import opened Invariant

  /** The configured version, or none (a record made by a delete of an unknown id). */
  predicate Current(cfg: Config, r: Record) {
    r.openClawVersion == cfg.openClawVersion || r.openClawVersion == ""
  }

  predicate IsOldEntry(cfg: Config, s: System, k: string) {
    k in s.instances && s.instances[k] < |s.heap| && !Current(cfg, s.heap[s.instances[k]])
  }

  /** While an entry's record is from an earlier configuration, no other record has its id. */
  predicate OldIsSole(cfg: Config, s: System) {
    forall k, r | IsOldEntry(cfg, s, k) && 0 <= r < |s.heap| && s.heap[r].id == k :: r == s.instances[k]
  }

  predicate TrackedIsCurrent(cfg: Config, s: System) {
    forall k :: k in s.tracker && k in s.instances && s.instances[k] < |s.heap| ==> Current(cfg, s.heap[s.instances[k]])
  }

  /** A handler about to fill the tracker has put its record on the version. */
  predicate TrackersDone(cfg: Config, s: System) {
    forall h :: h in s.handlers && s.handlers[h].Tracking? && s.handlers[h].ref < |s.heap| ==>
      Current(cfg, s.heap[s.handlers[h].ref])
  }

  ghost predicate TrackerInv(cfg: Config, s: System) {
    Inv(s) && OldIsSole(cfg, s) && TrackedIsCurrent(cfg, s) && TrackersDone(cfg, s)
  }

  /** A broker that has just loaded a state file, whatever versions are in it. */
  ghost predicate Loaded(cfg: Config, s: System) {
    Inv(s) && s.tracker == map[] && s.handlers == map[]
    && forall i, j :: 0 <= i < j < |s.heap| ==> s.heap[i].id != s.heap[j].id
  }

  lemma LoadedSatisfiesInv(cfg: Config, s: System)
    requires Loaded(cfg, s)
    ensures TrackerInv(cfg, s)
  {
    forall k, r | k in s.instances && 0 <= r < |s.heap| && s.heap[r].id == k ensures r == s.instances[k] {
      assert Refers(s, s.instances[k], k);
    }
  }

  /** New records are current, and a record changes its version to the configured one only. */
  predicate VersionEffect(cfg: Config, s: System, e: Effect) {
    match e
    case Insert(_, rec) => Current(cfg, rec)
    case Overwrite(ref, rec) =>
      ref < |s.heap| ==>
        rec.openClawVersion == s.heap[ref].openClawVersion || rec.openClawVersion == cfg.openClawVersion
    case _ => true
  }

  /** A handler fills the tracker for the record it has upgraded in its previous step. */
  predicate TrackingMove(cfg: Config, s: System, m: Move, w: Option<Handler>) {
    m.Move? ==>
      && (m.effect.Track? ==> w.Some? && w.value.Tracking? && w.value.ref < |s.heap|
                              && m.effect.id == s.heap[w.value.ref].id)
      && (m.next.Tracking? ==> m.effect.Overwrite? && m.effect.ref == m.next.ref
                               && m.effect.rec.openClawVersion == cfg.openClawVersion)
  }

  lemma BeginVersions(cfg: Config, s: System, l: Step)
    requires Begins(l)
    ensures var m := Begin(cfg, s, l);
            m.Move? ==> VersionEffect(cfg, s, m.effect) && !m.effect.Track? && !m.next.Tracking?
  {
    match l
    case ProvisionBegin(_, _, _, _, _) => ProvisionVersion(cfg, s, l);
    case UpdateBegin(_, _, _, _, _) => UpdateVersion(cfg, s, l);
    case DeprovisionBegin(_, _, _) => DeprovisionVersion(cfg, s, l);
    case _ =>
  }

  lemma ProvisionVersion(cfg: Config, s: System, l: Step)
    requires l.ProvisionBegin?
    ensures var m := BeginProvision(cfg, s, l);
            m.Move? ==> VersionEffect(cfg, s, m.effect) && !m.effect.Track? && !m.next.Tracking?
  {
  }

  lemma UpdateVersion(cfg: Config, s: System, l: Step)
    requires l.UpdateBegin?
    ensures var m := BeginUpdate(cfg, s, l);
            m.Move? ==> VersionEffect(cfg, s, m.effect) && !m.effect.Track? && !m.next.Tracking?
  {
    UpdatedVersion(cfg, View(s), l.id, l.async, l.request, l.rnd);
    UpdateMoveVersion(cfg, s, l.id, StartUpdate(cfg, View(s), l.id, l.async, l.request, l.rnd));
  }

  lemma UpdatedVersion(cfg: Config, mem: Memory, id: string, async: bool, request: Option<string>, rnd: Secrets)
    ensures var u := StartUpdate(cfg, mem, id, async, request, rnd);
            && (u.UAdopt? ==> Current(cfg, u.rec))
            && (u.URedeploy? ==> id in mem && u.rec.openClawVersion == mem[id].openClawVersion)
  {
  }

  lemma UpdateMoveVersion(cfg: Config, s: System, id: string, u: UpdateStart)
    requires u.UAdopt? ==> Current(cfg, u.rec)
    requires u.URedeploy? ==> id in View(s) && u.rec.openClawVersion == View(s)[id].openClawVersion
    ensures var m := UpdateMove(cfg, s, id, u);
            m.Move? ==> VersionEffect(cfg, s, m.effect) && !m.effect.Track? && !m.next.Tracking?
  {
  }

  lemma DeprovisionVersion(cfg: Config, s: System, l: Step)
    requires l.DeprovisionBegin?
    ensures var m := BeginDeprovision(s, l);
            m.Move? ==> VersionEffect(cfg, s, m.effect) && !m.effect.Track? && !m.next.Tracking?
  {
  }

  lemma WriteVersions(cfg: Config, s: System, w: Handler)
    ensures var m := WriteBack(cfg, s, w);
            m.Move? ==> VersionEffect(cfg, s, m.effect) && TrackingMove(cfg, s, m, Some(w))
  {
  }

  lemma ContinueVersions(cfg: Config, s: System, l: Step, w: Handler)
    ensures var m := Continue(cfg, s, l, w);
            m.Move? ==> VersionEffect(cfg, s, m.effect) && TrackingMove(cfg, s, m, Some(w))
  {
    if l.Write? {
      WriteVersions(cfg, s, w);
    }
  }

  lemma PerformKeepsSole(cfg: Config, s: System, e: Effect)
    requires TrackerInv(cfg, s) && GoodEffect(s, e) && VersionEffect(cfg, s, e)
    ensures OldIsSole(cfg, Perform(s, e))
  {
    var t := Perform(s, e);
    forall k, r | IsOldEntry(cfg, t, k) && 0 <= r < |t.heap| && t.heap[r].id == k ensures r == t.instances[k]
    {
      assert k in s.instances && Refers(s, s.instances[k], k);
    }
  }

  lemma PerformKeepsTracked(cfg: Config, s: System, e: Effect)
    requires TrackerInv(cfg, s) && GoodEffect(s, e) && VersionEffect(cfg, s, e)
    requires e.Track? ==> exists r :: 0 <= r < |s.heap| && s.heap[r].id == e.id && Current(cfg, s.heap[r])
    ensures TrackedIsCurrent(cfg, Perform(s, e))
  {
    var t := Perform(s, e);
    forall k | k in t.tracker && k in t.instances && t.instances[k] < |t.heap|
      ensures Current(cfg, t.heap[t.instances[k]])
    {
      if k in s.instances {
        assert Refers(s, s.instances[k], k);
      }
    }
  }

  lemma StillCurrent(cfg: Config, s: System, e: Effect, r: nat)
    requires VersionEffect(cfg, s, e) && r < |s.heap| && Current(cfg, s.heap[r])
    ensures r < |Perform(s, e).heap| && Current(cfg, Perform(s, e).heap[r])
  {
  }

  lemma HandlersKeepDone(cfg: Config, s: System, e: Effect, h: nat, next: Handler)
    requires TrackerInv(cfg, s) && GoodEffect(s, e) && VersionEffect(cfg, s, e)
    requires next.Tracking? ==> e.Overwrite? && e.ref == next.ref && e.rec.openClawVersion == cfg.openClawVersion
    ensures TrackersDone(cfg, Perform(s, e).(handlers := s.handlers[h := next]))
  {
    forall g | g in s.handlers && s.handlers[g].Tracking?
      ensures s.handlers[g].ref < |s.heap| && Current(cfg, Perform(s, e).heap[s.handlers[g].ref])
    {
      assert GoodHandler(s, s.handlers[g]);
      StillCurrent(cfg, s, e, s.handlers[g].ref);
    }
  }

  lemma MoveKeepsTracker(cfg: Config, s: System, e: Effect, h: nat, next: Handler, w: Option<Handler>)
    requires TrackerInv(cfg, s) && GoodEffect(s, e) && VersionEffect(cfg, s, e)
    requires TrackingMove(cfg, s, Move(e, next), w) && (w.Some? ==> h in s.handlers && s.handlers[h] == w.value)
    requires Inv(Perform(s, e).(handlers := s.handlers[h := next]))
    ensures TrackerInv(cfg, Perform(s, e).(handlers := s.handlers[h := next]))
  {
    PerformKeepsSole(cfg, s, e);
    PerformKeepsTracked(cfg, s, e);
    HandlersKeepDone(cfg, s, e, h, next);
  }

  lemma StepKeepsTracker(cfg: Config, s: System, l: Step)
    requires TrackerInv(cfg, s)
    ensures TrackerInv(cfg, Apply(cfg, s, l))
  {
    StepKeepsInv(cfg, s, l);
    MoveIsGood(cfg, s, l);
    var m := MoveOf(cfg, s, l);
    if m.Move? {
      if Begins(l) {
        BeginVersions(cfg, s, l);
        MoveKeepsTracker(cfg, s, m.effect, l.h, m.next, None);
      } else {
        ContinueVersions(cfg, s, l, s.handlers[l.h]);
        MoveKeepsTracker(cfg, s, m.effect, l.h, m.next, Some(s.handlers[l.h]));
      }
    }
  }

  lemma {:induction false} RunKeepsTracker(cfg: Config, s: System, steps: seq<Step>)
    requires TrackerInv(cfg, s)
    ensures TrackerInv(cfg, Run(cfg, s, steps))
    decreases |steps|
  {
    if steps != [] {
      StepKeepsTracker(cfg, s, steps[0]);
      RunKeepsTracker(cfg, Apply(cfg, s, steps[0]), steps[1..]);
    }
  }

  /** From any loaded state, in every interleaving: an instance that the tracker names is
      on the configured version, or on none at all. */
  lemma TrackedVersions(cfg: Config, s: System, steps: seq<Step>, k: string)
    requires Loaded(cfg, s)
    ensures var t := Run(cfg, s, steps);
            k in t.tracker && k in View(t) ==> View(t)[k].openClawVersion in {cfg.openClawVersion, ""}
  {
    LoadedSatisfiesInv(cfg, s);
    RunKeepsTracker(cfg, s, steps);
  }
}
