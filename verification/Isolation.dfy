/** Which steps can touch one instance id, and why the others cannot. */
module Isolation {
  import opened Strings
  import opened Domain
  import opened Handlers
  import opened Protocol
  import opened Invariant

  predicate RefersToID(s: System, refs: seq<nat>, k: string) {
    exists i :: 0 <= i < |refs| && refs[i] < |s.heap| && s.heap[refs[i]].id == k
  }

  /** The handler may still read or write k's entry or record, or answers for k. */
  predicate IsAbout(s: System, w: Handler, k: string) {
    match w
    case Reserved(id, _, _) => id == k
    case Deploying(job, _) => JobIsAbout(s, job, k)
    case Deployed(job, _) => JobIsAbout(s, job, k)
    case RollingBack(id, _) => id == k
    case Deleting(id, _, _, _) => id == k
    case Deleted(id, _, _) => id == k
    case Undeleting(id, _, _) => id == k
    case Polling(id, _, _, _) => id == k
    case Polled(id, _, _, _) => id == k
    case Rolling(todo, _) => RefersToID(s, todo, k)
    case Tracking(ref, _, todo, _) => RefersToID(s, [ref] + todo, k)
    case Checking(pending, _, _) => k in pending
    case Checked(id, _, pending, _, _) => id == k || k in pending
    case Answered(to, _) => to == Some(k)
  }

  predicate JobIsAbout(s: System, job: Job, k: string) {
    match job
    case ForProvision(id, _) => id == k
    case ForUpdate(id, _) => id == k
    case ForUpgrade(ref, todo, _) => RefersToID(s, [ref] + todo, k)
  }

  /** The step begins a handler that may touch k. */
  predicate StartsOn(s: System, l: Step, k: string) {
    match l
    case ProvisionBegin(_, id, _, _, _) => id == k
    case DeprovisionBegin(_, id, _) => id == k
    case UpdateBegin(_, id, _, _, _) => id == k
    case PollBegin(_, id) => id == k
    case BindBegin(_, id) => id == k
    case UpgradeBegin(_, _, chosen) => RefersToID(s, chosen, k)
    case StatusBegin(_) => k in s.tracker
    case _ => false
  }

  predicate Concerns(s: System, l: Step, k: string) {
    if Begins(l) then StartsOn(s, l, k) else l.h in s.handlers && IsAbout(s, s.handlers[l.h], k)
  }

  /** Every handler about k has answered. */
  predicate Unattended(s: System, k: string) {
    forall h :: h in s.handlers && IsAbout(s, s.handlers[h], k) ==> s.handlers[h].Answered?
  }

  predicate EffectElsewhere(s: System, e: Effect, k: string) {
    match e
    case Nothing => true
    case Insert(id, rec) => id != k && rec.id != k
    case Overwrite(ref, _) => ref < |s.heap| && s.heap[ref].id != k
    case Remove(id) => id != k
    case Track(_, _) => true
  }

  /** The references of an upgrade handler: about k through them, not by name. */
  function Refs(w: Handler): seq<nat> {
    match w
    case Deploying(job, _) => if job.ForUpgrade? then [job.ref] + job.todo else []
    case Deployed(job, _) => if job.ForUpgrade? then [job.ref] + job.todo else []
    case Rolling(todo, _) => todo
    case Tracking(ref, _, todo, _) => [ref] + todo
    case _ => []
  }

  predicate MoveElsewhere(s: System, m: Move, k: string) {
    m.Move? ==> EffectElsewhere(s, m.effect, k) && !IsAbout(s, m.next, k) && AllAllocated(s, Refs(m.next))
  }

  lemma AboutIsStable(s: System, t: System, w: Handler, k: string)
    requires Grows(s, t) && AllAllocated(s, Refs(w))
    ensures IsAbout(t, w, k) <==> IsAbout(s, w, k)
  {
  }

  lemma GoodRefs(s: System, w: Handler)
    requires GoodHandler(s, w)
    ensures AllAllocated(s, Refs(w))
  {
  }

  lemma ViewHasID(s: System, id: string)
    requires Inv(s) && id in View(s)
    ensures Refers(s, s.instances[id], id)
  {
  }

  lemma BeginProvisionElsewhere(cfg: Config, s: System, l: Step, k: string)
    requires Inv(s) && l.ProvisionBegin? && l.id != k
    ensures MoveElsewhere(s, BeginProvision(cfg, s, l), k)
  {
    AdmittedIsGood(cfg, View(s), l.id, l.async, l.body, l.rnd);
    AdmissionElsewhere(s, l.id, Admit(cfg, View(s), l.id, l.async, l.body, l.rnd), l.rnd, k);
  }

  lemma AdmissionElsewhere(s: System, id: string, a: Admission, rnd: Secrets, k: string)
    requires id != k && (a.Reserve? ==> a.rec.id == id)
    ensures MoveElsewhere(s, AdmissionMove(s, id, a, rnd), k)
  {
  }

  lemma BeginDeprovisionElsewhere(s: System, l: Step, k: string)
    requires Inv(s) && l.DeprovisionBegin? && l.id != k
    ensures MoveElsewhere(s, BeginDeprovision(s, l), k)
  {
    if l.id in View(s) {
      ViewHasID(s, l.id);
    }
    DeprovisionMoveElsewhere(s, l.id, StartDeprovision(View(s), l.id, l.async), k);
  }

  lemma DeprovisionMoveElsewhere(s: System, id: string, d: DeprovisionStart, k: string)
    requires id != k && (d.DStub? ==> d.rec.id == id)
    requires d.DMark? ==> id in s.instances && Refers(s, s.instances[id], id)
    ensures MoveElsewhere(s, DeprovisionMove(s, id, d), k)
  {
  }

  lemma BeginUpdateElsewhere(cfg: Config, s: System, l: Step, k: string)
    requires Inv(s) && l.UpdateBegin? && l.id != k
    ensures MoveElsewhere(s, BeginUpdate(cfg, s, l), k)
  {
    var u := StartUpdate(cfg, View(s), l.id, l.async, l.request, l.rnd);
    AdoptedIsGood(cfg, View(s), l.id, l.async, l.request, l.rnd);
    UpdateStartsInMemory(cfg, View(s), l.id, l.async, l.request, l.rnd);
    if u.URedeploy? {
      ViewHasID(s, l.id);
    }
    UpdateMoveElsewhere(cfg, s, l.id, u, k);
  }

  lemma UpdateMoveElsewhere(cfg: Config, s: System, id: string, u: UpdateStart, k: string)
    requires id != k
    requires u.URedeploy? ==> id in s.instances && Refers(s, s.instances[id], id)
    requires u.UAdopt? ==> u.rec.id == id
    ensures MoveElsewhere(s, UpdateMove(cfg, s, id, u), k)
  {
  }

  lemma BeginUpgradeElsewhere(cfg: Config, s: System, l: Step, k: string)
    requires Inv(s) && l.UpgradeBegin? && !RefersToID(s, l.chosen, k)
    ensures MoveElsewhere(s, BeginUpgrade(cfg, s, l), k)
  {
    BeginUpgradeIsGood(cfg, s, l);
  }

  lemma ReadsElsewhere(s: System, id: string, k: string)
    requires id != k
    ensures MoveElsewhere(s, BeginPoll(s, id), k)
    ensures MoveElsewhere(s, BeginBind(s, id), k)
  {
  }

  lemma BeginElsewhere(cfg: Config, s: System, l: Step, k: string)
    requires Inv(s) && Begins(l) && !StartsOn(s, l, k)
    ensures MoveElsewhere(s, Begin(cfg, s, l), k)
  {
    match l
    case ProvisionBegin(_, _, _, _, _) => BeginProvisionElsewhere(cfg, s, l, k);
    case DeprovisionBegin(_, _, _) => BeginDeprovisionElsewhere(s, l, k);
    case UpdateBegin(_, _, _, _, _) => BeginUpdateElsewhere(cfg, s, l, k);
    case UpgradeBegin(_, _, _) => BeginUpgradeElsewhere(cfg, s, l, k);
    case PollBegin(_, id) => ReadsElsewhere(s, id, k);
    case BindBegin(_, id) => ReadsElsewhere(s, id, k);
    case StatusBegin(_) =>
  }

  lemma SplitRefs(s: System, ref: nat, todo: seq<nat>, k: string)
    requires !RefersToID(s, [ref] + todo, k)
    ensures !RefersToID(s, todo, k)
    ensures ref < |s.heap| ==> s.heap[ref].id != k
  {
    var refs := [ref] + todo;
    assert refs[0] == ref;
    assert forall i :: 0 <= i < |todo| ==> refs[i + 1] == todo[i];
  }

  lemma DeployedElsewhere(cfg: Config, s: System, job: Job, task: int, k: string)
    requires GoodJob(s, job) && !JobIsAbout(s, job, k)
    ensures MoveElsewhere(s, WriteDeployed(cfg, s, job, task), k)
  {
    if job.ForUpgrade? {
      SplitRefs(s, job.ref, job.todo, k);
    }
  }

  lemma DeleteEndsElsewhere(s: System, id: string, ref: nat, task: int, previous: Option<LifeState>, k: string)
    requires Refers(s, ref, id) && id != k
    ensures MoveElsewhere(s, WriteDeleted(s, id, ref, task), k)
    ensures MoveElsewhere(s, WriteUndeleting(s, id, ref, previous), k)
  {
  }

  lemma PolledElsewhere(s: System, id: string, ref: nat, state: LifeState, a: TaskAnswer, k: string)
    requires Refers(s, ref, id) && id != k
    ensures MoveElsewhere(s, WritePolled(s, id, ref, state, a), k)
  {
  }

  lemma WriteElsewhere(cfg: Config, s: System, w: Handler, k: string)
    requires Inv(s) && GoodHandler(s, w) && !IsAbout(s, w, k)
    ensures MoveElsewhere(s, WriteBack(cfg, s, w), k)
  {
    match w
    case Deployed(job, task) => DeployedElsewhere(cfg, s, job, task, k);
    case Deleted(id, ref, task) => DeleteEndsElsewhere(s, id, ref, task, None, k);
    case Undeleting(id, ref, previous) => DeleteEndsElsewhere(s, id, ref, 0, previous, k);
    case Polled(id, ref, state, a) => PolledElsewhere(s, id, ref, state, a, k);
    case Tracking(ref, task, todo, done) => SplitRefs(s, ref, todo, k);
    case Checked(id, state, pending, total, tally) =>
      CheckedElsewhere(s, id, state, Checking(pending, total, tally), k);
    case _ =>
  }

  lemma CheckedElsewhere(s: System, id: string, state: LifeState, next: Handler, k: string)
    requires Inv(s) && id != k && next.Checking? && !IsAbout(s, next, k)
    ensures MoveElsewhere(s, WriteChecked(s, id, state, next), k)
  {
  }

  lemma BuildElsewhere(cfg: Config, s: System, w: Handler, k: string)
    requires w.Rolling? && GoodHandler(s, w) && !IsAbout(s, w, k)
    ensures MoveElsewhere(s, BuildUpgrade(cfg, s, w), k)
  {
    if w.todo != [] {
      assert [w.todo[0]] + w.todo[1..] == w.todo;
    }
  }

  lemma DeployElsewhere(s: System, job: Job, reply: DeployReply, k: string)
    requires GoodJob(s, job) && !JobIsAbout(s, job, k)
    ensures MoveElsewhere(s, Move(Nothing, AfterDeploy(job, reply)), k)
  {
    if job.ForUpgrade? {
      SplitRefs(s, job.ref, job.todo, k);
    }
  }

  lemma ContinueElsewhere(cfg: Config, s: System, l: Step, w: Handler, k: string)
    requires Inv(s) && GoodHandler(s, w) && !IsAbout(s, w, k)
    ensures MoveElsewhere(s, Continue(cfg, s, l, w), k)
  {
    if l.Write? {
      WriteElsewhere(cfg, s, w, k);
    } else if l.UpgradeBuild? || l.ProvisionBuild? {
      BuildsElsewhere(cfg, s, l, w, k);
    } else {
      RemoteCallElsewhere(cfg, s, l, w, k);
    }
  }

  lemma BuildsElsewhere(cfg: Config, s: System, l: Step, w: Handler, k: string)
    requires Inv(s) && GoodHandler(s, w) && !IsAbout(s, w, k) && (l.UpgradeBuild? || l.ProvisionBuild?)
    ensures MoveElsewhere(s, Continue(cfg, s, l, w), k)
  {
    if l.UpgradeBuild? && w.Rolling? {
      BuildElsewhere(cfg, s, w, k);
    } else if l.ProvisionBuild? && w.Reserved? {
      ProvisionBuildElsewhere(cfg, s, w, l.created, k);
    }
  }

  lemma ProvisionBuildElsewhere(cfg: Config, s: System, w: Handler, created: bool, k: string)
    requires w.Reserved? && GoodHandler(s, w) && !IsAbout(s, w, k)
    ensures var rec := AfterSso(cfg, s.heap[w.ref], created, w.rnd);
            MoveElsewhere(s, Move(Overwrite(w.ref, rec), Deploying(ForProvision(w.id, w.ref), BuildParams(cfg, rec))),
                          k)
  {
  }

  lemma RemoteCallElsewhere(cfg: Config, s: System, l: Step, w: Handler, k: string)
    requires GoodHandler(s, w) && !IsAbout(s, w, k)
    requires !l.ProvisionBuild? && !l.UpgradeBuild? && !l.Write?
    ensures MoveElsewhere(s, Continue(cfg, s, l, w), k)
  {
    if l.DirectorDeploys? && w.Deploying? {
      DeployElsewhere(s, w.job, l.deploy, k);
    }
  }

  lemma MovesElsewhere(cfg: Config, s: System, l: Step, k: string)
    requires Inv(s) && !Concerns(s, l, k)
    ensures MoveElsewhere(s, MoveOf(cfg, s, l), k)
  {
    if Begins(l) {
      BeginElsewhere(cfg, s, l, k);
    } else if l.h in s.handlers {
      ContinueElsewhere(cfg, s, l, s.handlers[l.h], k);
    }
  }

  ghost predicate SameHandlers(s: System, t: System, k: string) {
    (forall h :: h in t.handlers && IsAbout(t, t.handlers[h], k) ==>
       h in s.handlers && s.handlers[h] == t.handlers[h] && IsAbout(s, s.handlers[h], k))
    && (forall h :: h in s.handlers && IsAbout(s, s.handlers[h], k) ==>
          h in t.handlers && t.handlers[h] == s.handlers[h])
  }

  /** k's entry, k's record and the handlers about k are the same in both states. */
  ghost predicate SameFor(s: System, t: System, k: string) {
    (k in t.instances <==> k in s.instances)
    && (k in s.instances ==> t.instances[k] == s.instances[k])
    && |s.heap| <= |t.heap|
    && (k in s.instances ==> s.instances[k] < |s.heap| && t.heap[s.instances[k]] == s.heap[s.instances[k]])
    && SameHandlers(s, t, k)
  }

  lemma EffectKeepsEntry(s: System, e: Effect, k: string)
    requires Inv(s) && GoodEffect(s, e) && EffectElsewhere(s, e, k)
    ensures var t := Perform(s, e);
            && (k in t.instances <==> k in s.instances)
            && |s.heap| <= |t.heap|
            && (k in s.instances ==> t.instances[k] == s.instances[k] < |s.heap|)
            && (k in s.instances ==> t.heap[s.instances[k]] == s.heap[s.instances[k]])
  {
    if k in s.instances {
      assert Refers(s, s.instances[k], k);
    }
  }

  lemma MoveUndisturbed(s: System, e: Effect, h: nat, next: Handler, k: string)
    requires Inv(s) && GoodEffect(s, e)
    requires EffectElsewhere(s, e, k) && !IsAbout(s, next, k) && AllAllocated(s, Refs(next))
    requires h in s.handlers ==> !IsAbout(s, s.handlers[h], k)
    ensures SameFor(s, Perform(s, e).(handlers := s.handlers[h := next]), k)
  {
    var t := Perform(s, e).(handlers := s.handlers[h := next]);
    EffectKeepsEntry(s, e, k);
    GoodEffectGrows(s, e);
    AboutIsStable(s, t, next, k);
    HandlersStayAbout(s, t, k);
    HandlersUndisturbed(s, t, h, next, k);
  }

  lemma HandlersUndisturbed(s: System, t: System, h: nat, next: Handler, k: string)
    requires t.handlers == s.handlers[h := next] && !IsAbout(t, next, k)
    requires h in s.handlers ==> !IsAbout(s, s.handlers[h], k)
    requires forall g :: g in s.handlers ==> (IsAbout(t, s.handlers[g], k) <==> IsAbout(s, s.handlers[g], k))
    ensures SameHandlers(s, t, k)
  {
  }

  lemma HandlersStayAbout(s: System, t: System, k: string)
    requires Inv(s) && Grows(s, t)
    ensures forall g :: g in s.handlers ==> (IsAbout(t, s.handlers[g], k) <==> IsAbout(s, s.handlers[g], k))
  {
    forall g | g in s.handlers ensures IsAbout(t, s.handlers[g], k) <==> IsAbout(s, s.handlers[g], k) {
      GoodRefs(s, s.handlers[g]);
      AboutIsStable(s, t, s.handlers[g], k);
    }
  }

  /** A step of a handler on other ids, whatever it is, changes nothing for k. */
  lemma Undisturbed(cfg: Config, s: System, l: Step, k: string)
    requires Inv(s) && !Concerns(s, l, k)
    ensures SameFor(s, Apply(cfg, s, l), k)
  {
    MovesElsewhere(cfg, s, l, k);
    MoveIsGood(cfg, s, l);
    match MoveOf(cfg, s, l)
    case Stutter => StutterIsSame(s, k);
    case Move(e, next) => MoveUndisturbed(s, e, l.h, next, k);
  }

  lemma StutterIsSame(s: System, k: string)
    requires Inv(s)
    ensures SameFor(s, s, k)
  {
  }
}
