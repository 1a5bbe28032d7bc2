/** Which sections write what, over the concurrent steps: every change of a record, of the
    instance map and of the tracker has its section, and the closing sections write what
    they are there for, whatever has happened to the record since the handler took its
    reference. */
module Writers {
  import opened Strings
  import opened Domain
  import opened Handlers
  import opened Protocol

  predicate EntryIs(s: System, id: string, ref: nat) {
    id in s.instances && s.instances[id] == ref
  }

  /** Sections that may write the state of record r, and the state they write. */
  predicate WritesState(s: System, l: Step, r: nat, state: LifeState) {
    (l.DeprovisionBegin? && EntryIs(s, l.id, r) && state == Deprovisioning)
    || (l.Write? && l.h in s.handlers
        && match s.handlers[l.h]
           case Deployed(job, _) => !job.ForProvision? && job.ref == r && state == Provisioning
           case Undeleting(_, ref, previous) => ref == r && previous == Some(state)
           case Polled(_, ref, was, a) =>
             ref == r && was == Provisioning && Terminal(a) && state == if a == TaskDone then Ready else Failed
           case Checked(id, outcome, _, _, _) => EntryIs(s, id, r) && state == outcome
           case _ => false)
  }

  predicate WritesTask(s: System, l: Step, r: nat, task: int) {
    l.Write? && l.h in s.handlers
    && match s.handlers[l.h]
       case Deployed(job, t) => job.ref == r && task == t
       case Deleted(_, ref, t) => ref == r && task == t
       case _ => false
  }

  predicate WritesPlan(s: System, l: Step, r: nat, planID: string) {
    l.UpdateBegin? && EntryIs(s, l.id, r) && l.request == Some(planID) && planID != ""
  }

  predicate WritesVersion(s: System, l: Step, r: nat) {
    l.Write? && l.h in s.handlers && s.handlers[l.h].Deployed? && s.handlers[l.h].job.ForUpgrade?
    && s.handlers[l.h].job.ref == r
  }

  predicate WritesSso(s: System, l: Step, r: nat) {
    l.ProvisionBuild? && l.h in s.handlers && s.handlers[l.h].Reserved? && s.handlers[l.h].ref == r
  }

  predicate SamePlanFields(a: Record, b: Record) {
    a.planID == b.planID && a.planName == b.planName && a.vmType == b.vmType && a.diskType == b.diskType
  }

  predicate SameSso(a: Record, b: Record) {
    a.ssoEnabled == b.ssoEnabled && a.ssoClientID == b.ssoClientID && a.ssoClientSecret == b.ssoClientSecret
    && a.ssoCookieSecret == b.ssoCookieSecret
  }

  /** Everything that differs between the two has its section in this step. */
  predicate Explained(cfg: Config, s: System, l: Step, r: nat, a: Record, b: Record) {
    && IdentityOf(b) == IdentityOf(a)
    && (b.state != a.state ==> WritesState(s, l, r, b.state))
    && (b.boshTaskID != a.boshTaskID ==> WritesTask(s, l, r, b.boshTaskID))
    && (!SamePlanFields(a, b) ==> WritesPlan(s, l, r, b.planID))
    && (b.openClawVersion != a.openClawVersion ==> WritesVersion(s, l, r) && b.openClawVersion == cfg.openClawVersion)
    && (!SameSso(a, b) ==> WritesSso(s, l, r))
  }

  predicate MoveExplained(cfg: Config, s: System, l: Step, m: Move) {
    m.Move? && m.effect.Overwrite? && m.effect.ref < |s.heap| ==>
      Explained(cfg, s, l, m.effect.ref, s.heap[m.effect.ref], m.effect.rec)
  }

  lemma DeleteExplained(cfg: Config, s: System, l: Step)
    requires l.DeprovisionBegin?
    ensures MoveExplained(cfg, s, l, BeginDeprovision(s, l))
  {
  }

  lemma UpdateExplained(cfg: Config, s: System, l: Step)
    requires l.UpdateBegin?
    ensures MoveExplained(cfg, s, l, BeginUpdate(cfg, s, l))
  {
    var u := StartUpdate(cfg, View(s), l.id, l.async, l.request, l.rnd);
    if u.URedeploy? {
      RedeployedFields(cfg, View(s), l.id, l.async, l.request, l.rnd);
    }
  }

  lemma RedeployedFields(cfg: Config, mem: Memory, id: string, async: bool, request: Option<string>, rnd: Secrets)
    requires StartUpdate(cfg, mem, id, async, request, rnd).URedeploy?
    ensures var rec := StartUpdate(cfg, mem, id, async, request, rnd).rec;
            && id in mem && IdentityOf(rec) == IdentityOf(mem[id]) && SameSso(mem[id], rec)
            && rec.state == mem[id].state && rec.boshTaskID == mem[id].boshTaskID
            && rec.openClawVersion == mem[id].openClawVersion
            && (SamePlanFields(mem[id], rec) || (request == Some(rec.planID) && rec.planID != ""))
  {
  }

  lemma BeginExplained(cfg: Config, s: System, l: Step)
    requires Begins(l)
    ensures MoveExplained(cfg, s, l, Begin(cfg, s, l))
  {
    match l
    case DeprovisionBegin(_, _, _) => DeleteExplained(cfg, s, l);
    case UpdateBegin(_, _, _, _, _) => UpdateExplained(cfg, s, l);
    case _ =>
  }

  lemma WriteExplained(cfg: Config, s: System, l: Step)
    requires l.Write? && l.h in s.handlers
    ensures MoveExplained(cfg, s, l, WriteBack(cfg, s, s.handlers[l.h]))
  {
  }

  lemma ContinueExplained(cfg: Config, s: System, l: Step)
    requires !Begins(l) && l.h in s.handlers
    ensures MoveExplained(cfg, s, l, Continue(cfg, s, l, s.handlers[l.h]))
  {
    if l.Write? {
      WriteExplained(cfg, s, l);
    }
  }

  lemma RecordPerformed(s: System, e: Effect, r: nat)
    requires r < |s.heap|
    ensures var t := Perform(s, e);
            r < |t.heap| && t.heap[r] == if e.Overwrite? && e.ref == r then e.rec else s.heap[r]
  {
  }

  lemma StepExplained(cfg: Config, s: System, l: Step)
    ensures MoveExplained(cfg, s, l, MoveOf(cfg, s, l))
  {
    if Begins(l) {
      BeginExplained(cfg, s, l);
    } else if l.h in s.handlers {
      ContinueExplained(cfg, s, l);
    }
  }

  /** In every state and for every step: a record keeps its identity; its state changes only
      when a delete marks it, when an update or upgrade deploys it, when a refused delete is
      undone, or when a poll or check brings an outcome; its task only when a deploy or
      delete is accepted; its plan only when an update begins; its version only when an
      upgrade deploys it; and its SSO fields only when its own Provision goes on. */
  lemma ChangesExplained(cfg: Config, s: System, l: Step, r: nat)
    requires r < |s.heap|
    ensures var t := Apply(cfg, s, l); r < |t.heap| && Explained(cfg, s, l, r, s.heap[r], t.heap[r])
  {
    StepExplained(cfg, s, l);
    var m := MoveOf(cfg, s, l);
    if m.Move? {
      RecordPerformed(s, m.effect, r);
    }
  }

  // ---------- the map and the tracker ----------

  /** Sections that may remove an entry. */
  predicate Removes(s: System, l: Step, k: string) {
    l.Write? && l.h in s.handlers
    && match s.handlers[l.h]
       case RollingBack(id, _) => id == k
       case Undeleting(id, _, previous) => id == k && previous == None
       case Polled(id, _, was, a) => id == k && was == Deprovisioning && a == TaskDone
       case _ => false
  }

  predicate Tracks(s: System, l: Step, k: string, task: int) {
    l.Write? && l.h in s.handlers
    && match s.handlers[l.h]
       case Tracking(ref, t, _, _) => ref < |s.heap| && s.heap[ref].id == k && t == task
       case _ => false
  }

  predicate MapMove(s: System, l: Step, m: Move) {
    && (m.Move? && m.effect.Remove? ==> Removes(s, l, m.effect.id))
    && (m.Move? && m.effect.Track? ==> Tracks(s, l, m.effect.id, m.effect.task))
  }

  lemma BeginMapMove(cfg: Config, s: System, l: Step)
    requires Begins(l)
    ensures MapMove(s, l, Begin(cfg, s, l))
  {
  }

  lemma ContinueMapMove(cfg: Config, s: System, l: Step)
    requires l.h in s.handlers
    ensures MapMove(s, l, Continue(cfg, s, l, s.handlers[l.h]))
  {
  }

  lemma MapMoveExplained(cfg: Config, s: System, l: Step)
    ensures MapMove(s, l, MoveOf(cfg, s, l))
  {
    if Begins(l) {
      BeginMapMove(cfg, s, l);
    } else if l.h in s.handlers {
      ContinueMapMove(cfg, s, l);
    }
  }

  lemma MapPerformed(s: System, e: Effect, k: string)
    ensures var t := Perform(s, e);
            && (k in s.instances && k !in t.instances ==> e == Remove(k))
            && (k in t.tracker && !(k in s.tracker && s.tracker[k] == t.tracker[k]) ==> e == Track(k, t.tracker[k]))
            && s.tracker.Keys <= t.tracker.Keys
  {
  }

  /** An entry leaves the map only by a rollback, by undoing a delete of an unknown id, or by
      the poll that finds the delete done; the tracker only ever gains the task of an
      upgrade's own deploy. */
  lemma RemovalsExplained(cfg: Config, s: System, l: Step, k: string)
    ensures var t := Apply(cfg, s, l);
            && (k in s.instances && k !in t.instances ==> Removes(s, l, k))
            && (k in t.tracker && !(k in s.tracker && s.tracker[k] == t.tracker[k]) ==> Tracks(s, l, k, t.tracker[k]))
            && s.tracker.Keys <= t.tracker.Keys
  {
    MapMoveExplained(cfg, s, l);
    var m := MoveOf(cfg, s, l);
    if m.Move? {
      MapPerformed(s, m.effect, k);
    }
  }

  // ---------- what closing sections are there for ----------

  /** What a closing section is there for has been done, from s to t. */
  predicate Landed(cfg: Config, s: System, t: System, w: Handler)
    requires |t.heap| == |s.heap|
  {
    match w
    case Deployed(job, task) =>
      job.ref < |s.heap| ==>
        && t.heap[job.ref].boshTaskID == task
        && (!job.ForProvision? ==> t.heap[job.ref].state == Provisioning)
        && (job.ForUpgrade? ==> t.heap[job.ref].openClawVersion == cfg.openClawVersion)
    case Deleted(_, ref, task) => ref < |s.heap| ==> t.heap[ref].boshTaskID == task
    case RollingBack(id, _) => id !in t.instances
    case Undeleting(id, ref, None) => id !in t.instances
    case Undeleting(_, ref, Some(previous)) => ref < |s.heap| ==> t.heap[ref].state == previous
    case Polled(_, ref, Provisioning, a) =>
      ref < |s.heap| && Terminal(a) ==> t.heap[ref].state == if a == TaskDone then Ready else Failed
    case Polled(id, _, Deprovisioning, a) => a == TaskDone ==> id !in t.instances
    case Tracking(ref, task, _, _) => ref < |s.heap| ==> t.tracker == s.tracker[s.heap[ref].id := task]
    case Checked(id, state, _, _, _) => id in View(s) ==> t.heap[s.instances[id]].state == state
    case _ => true
  }

  lemma WriteBackLands(cfg: Config, s: System, w: Handler)
    ensures match WriteBack(cfg, s, w)
            case Move(e, _) => |Perform(s, e).heap| == |s.heap| && Landed(cfg, s, Perform(s, e), w)
            case Stutter => Landed(cfg, s, s, w)
  {
  }

  /** Closing sections write even when the record has changed under the handler, as after a
      delete or an update in the meantime. */
  lemma WritesLand(cfg: Config, s: System, h: nat)
    requires h in s.handlers
    ensures var t := Apply(cfg, s, Write(h)); |t.heap| == |s.heap| && Landed(cfg, s, t, s.handlers[h])
  {
    WriteBackLands(cfg, s, s.handlers[h]);
    assert MoveOf(cfg, s, Write(h)) == WriteBack(cfg, s, s.handlers[h]);
  }
}
