/** What every reachable state of the step system satisfies, whatever plans and versions
    the records were loaded with: records keep their identity, entries sit under their
    own id, and handlers name only what they are about. */
module Invariant {
  import opened Strings
  import opened Domain
  import opened Handlers
  import opened Protocol
  import Hostname

  ghost predicate HostOf(owner: string, r: Record) {
    Hostname.Clean(owner) && owner != "" && r.routeHostname == Hostname.UniqueRouteHostname(owner, r.id)
  }

  /** No hostname, or one derived from some owner and the record's own id. */
  ghost predicate HasOwnHost(r: Record) {
    r.routeHostname == "" || exists owner :: HostOf(owner, r)
  }

  /** No OAuth2 client, or the one created for this instance. */
  predicate OwnClient(r: Record) {
    r.ssoClientID == "" || r.ssoClientID == SsoClientID(r.id)
  }

  ghost predicate GoodRecord(r: Record) {
    r.deploymentName == DeploymentName(r.id) && HasOwnHost(r) && OwnClient(r)
  }

  /** A manifest that turns SSO on names the instance's own client. */
  predicate SsoGated(p: Params) {
    p.ssoEnabled ==> p.ssoClientID == SsoClientID(p.id)
  }

  /** The manifest parameters name the record's deployment, token, seed and host. */
  predicate Carries(p: Params, r: Record) {
    p.deploymentName == r.deploymentName && p.id == r.id && p.owner == r.owner
    && p.gatewayToken == r.gatewayToken && p.nodeSeed == r.nodeSeed
    && p.routeHostname == r.routeHostname && p.appsDomain == r.appsDomain
  }

  predicate Refers(s: System, ref: nat, id: string) {
    ref < |s.heap| && s.heap[ref].id == id
  }

  predicate AllAllocated(s: System, refs: seq<nat>) {
    forall i :: 0 <= i < |refs| ==> refs[i] < |s.heap|
  }

  predicate GoodJob(s: System, job: Job) {
    match job
    case ForProvision(id, ref) => Refers(s, ref, id)
    case ForUpdate(id, ref) => Refers(s, ref, id)
    case ForUpgrade(ref, todo, _) => ref < |s.heap| && AllAllocated(s, todo)
  }

  predicate GoodHandler(s: System, w: Handler) {
    match w
    case Reserved(id, ref, _) => Refers(s, ref, id)
    case Deploying(job, params) => GoodJob(s, job) && Carries(params, s.heap[job.ref]) && SsoGated(params)
    case Deployed(job, _) => GoodJob(s, job)
    case RollingBack(_, _) => true
    case Deleting(id, ref, name, _) => Refers(s, ref, id) && name == DeploymentName(id)
    case Deleted(id, ref, _) => Refers(s, ref, id)
    case Undeleting(id, ref, _) => Refers(s, ref, id)
    case Polling(id, ref, _, _) => Refers(s, ref, id)
    case Polled(id, ref, _, _) => Refers(s, ref, id)
    case Rolling(todo, _) => AllAllocated(s, todo)
    case Tracking(ref, _, todo, _) => ref < |s.heap| && AllAllocated(s, todo)
    case Checking(_, _, _) => true
    case Checked(_, _, _, _, _) => true
    case Answered(_, _) => true
  }

  ghost predicate Inv(s: System) {
    (forall k :: k in s.instances ==> Refers(s, s.instances[k], k))
    && (forall r :: 0 <= r < |s.heap| ==> GoodRecord(s.heap[r]))
    && (forall h :: h in s.handlers ==> GoodHandler(s, s.handlers[h]))
  }

  ghost predicate GoodEffect(s: System, e: Effect) {
    match e
    case Nothing => true
    case Insert(id, rec) => id !in s.instances && rec.id == id && GoodRecord(rec)
    case Overwrite(ref, rec) =>
      ref < |s.heap| && IdentityOf(rec) == IdentityOf(s.heap[ref]) && GoodRecord(rec)
    case Remove(_) => true
    case Track(_, _) => true
  }

  /** The heap only grows and no record changes its identity. */
  ghost predicate Grows(s: System, t: System) {
    |s.heap| <= |t.heap|
    && forall r :: 0 <= r < |s.heap| ==> IdentityOf(t.heap[r]) == IdentityOf(s.heap[r])
  }

  // ---------- records ----------

  lemma NewRecordIsGood(cfg: Config, id: string, req: ProvisionRequest, rnd: Secrets)
    requires FindPlan(cfg, req.planID).Some?
    ensures GoodRecord(NewRecord(cfg, id, req, FindPlan(cfg, req.planID).value, rnd))
  {
    var r := NewRecord(cfg, id, req, FindPlan(cfg, req.planID).value, rnd);
    Hostname.OwnerLabelClean(r.owner);
    assert HostOf(Hostname.OwnerLabel(r.owner), r);
  }

  lemma RecoveredIsGood(cfg: Config, id: string, plan: Plan, rnd: Secrets)
    ensures GoodRecord(RecoveredRecord(cfg, id, plan, rnd))
  {
    var r := RecoveredRecord(cfg, id, plan, rnd);
    Hostname.DefaultOwnersClean();
    assert HostOf("recovered", r);
  }

  lemma SameIdentityStaysGood(r: Record, t: Record)
    requires GoodRecord(r) && IdentityOf(t) == IdentityOf(r)
    requires OwnClient(t)
    ensures GoodRecord(t)
  {
    if r.routeHostname != "" {
      var owner :| HostOf(owner, r);
      assert HostOf(owner, t);
    }
  }

  // ---------- one step ----------

  lemma StableHandler(s: System, t: System, w: Handler)
    requires Grows(s, t) && GoodHandler(s, w)
    ensures GoodHandler(t, w)
  {
  }

  lemma GoodEffectGrows(s: System, e: Effect)
    requires GoodEffect(s, e)
    ensures Grows(s, Perform(s, e))
  {
  }

  lemma ViewIsGood(s: System, k: string)
    requires Inv(s) && k in View(s)
    ensures Refers(s, s.instances[k], k) && GoodRecord(View(s)[k])
  {
  }

  ghost predicate GoodMove(s: System, m: Move) {
    m.Move? ==> GoodEffect(s, m.effect) && GoodHandler(Perform(s, m.effect), m.next)
  }

  lemma AdmittedIsGood(cfg: Config, mem: Memory, id: string, async: bool, body: Option<ProvisionRequest>, rnd: Secrets)
    ensures var a := Admit(cfg, mem, id, async, body, rnd);
            a.Reserve? ==> id !in mem && a.rec.id == id && GoodRecord(a.rec)
  {
    if Admit(cfg, mem, id, async, body, rnd).Reserve? {
      NewRecordIsGood(cfg, id, body.value, rnd);
    }
  }

  lemma AdoptedIsGood(cfg: Config, mem: Memory, id: string, async: bool, request: Option<string>, rnd: Secrets)
    ensures var u := StartUpdate(cfg, mem, id, async, request, rnd);
            u.UAdopt? ==> id !in mem && u.rec.id == id && GoodRecord(u.rec)
  {
    if request.Some? {
      RecoveredIsGood(cfg, id, RecoveryPlan(cfg, request.value), rnd);
    }
  }

  lemma ReplannedIsGood(cfg: Config, mem: Memory, id: string, async: bool, request: Option<string>, rnd: Secrets)
    requires id in mem && GoodRecord(mem[id])
    ensures var u := StartUpdate(cfg, mem, id, async, request, rnd);
            u.URedeploy? ==> IdentityOf(u.rec) == IdentityOf(mem[id]) && GoodRecord(u.rec)
  {
    var u := StartUpdate(cfg, mem, id, async, request, rnd);
    if u.URedeploy? {
      SameIdentityStaysGood(mem[id], u.rec);
    }
  }

  lemma UpdateStartsInMemory(cfg: Config, mem: Memory, id: string, async: bool, request: Option<string>, rnd: Secrets)
    ensures var u := StartUpdate(cfg, mem, id, async, request, rnd);
            && (u.UAdopt? ==> id !in mem)
            && (u.URedeploy? ==> id in mem)
  {
  }

  lemma EntriesAreVisible(s: System)
    requires Inv(s)
    ensures View(s).Keys == s.instances.Keys
  {
  }

  /** Adding a good record and starting its handler. */
  lemma InsertIsGood(cfg: Config, s: System, id: string, rec: Record, rnd: Secrets, next: Handler)
    requires Inv(s)
    requires id !in View(s) && rec.id == id && GoodRecord(rec)
    requires next == Reserved(id, |s.heap|, rnd)
             || next == Deploying(ForUpdate(id, |s.heap|), BuildParams(cfg, rec))
    ensures GoodMove(s, Move(Insert(id, rec), next))
  {
  }

  lemma BeginProvisionIsGood(cfg: Config, s: System, l: Step)
    requires Inv(s) && l.ProvisionBegin?
    ensures GoodMove(s, BeginProvision(cfg, s, l))
  {
    AdmittedIsGood(cfg, View(s), l.id, l.async, l.body, l.rnd);
    AdmissionIsGood(cfg, s, l.id, Admit(cfg, View(s), l.id, l.async, l.body, l.rnd), l.rnd);
  }

  lemma AdmissionIsGood(cfg: Config, s: System, id: string, a: Admission, rnd: Secrets)
    requires Inv(s)
    requires a.Reserve? ==> id !in View(s) && a.rec.id == id && GoodRecord(a.rec)
    ensures GoodMove(s, AdmissionMove(s, id, a, rnd))
  {
    if a.Reserve? {
      InsertIsGood(cfg, s, id, a.rec, rnd, Reserved(id, |s.heap|, rnd));
    }
  }

  lemma BeginDeprovisionIsGood(s: System, l: Step)
    requires Inv(s) && l.DeprovisionBegin?
    ensures GoodMove(s, BeginDeprovision(s, l))
  {
    if l.id in View(s) {
      MarkIsGood(s, l.id);
    } else {
      StubIsGood(s, l.id);
    }
  }

  lemma MarkIsGood(s: System, id: string)
    requires Inv(s) && id in View(s)
    ensures var r := View(s)[id];
            GoodMove(s, Move(Overwrite(s.instances[id], r.(state := Deprovisioning)),
                                  Deleting(id, s.instances[id], r.deploymentName, Some(r.state))))
  {
    ViewIsGood(s, id);
    SmallWriteIsGood(s, s.instances[id], View(s)[id].(state := Deprovisioning));
  }

  lemma StubIsGood(s: System, id: string)
    requires Inv(s) && id !in View(s)
    ensures GoodMove(s, Move(Insert(id, Stub(id)), Deleting(id, |s.heap|, DeploymentName(id), None)))
  {
    EntriesAreVisible(s);
    StubRecordIsGood(id);
    DeletingIsGood(s, id, Stub(id));
  }

  lemma StubRecordIsGood(id: string)
    ensures GoodRecord(Stub(id)) && Stub(id).id == id && Stub(id).deploymentName == DeploymentName(id)
  {
  }

  lemma DeletingIsGood(s: System, id: string, rec: Record)
    requires rec.id == id
    ensures GoodHandler(Perform(s, Insert(id, rec)), Deleting(id, |s.heap|, DeploymentName(id), None))
  {
  }

  lemma BeginUpdateIsGood(cfg: Config, s: System, l: Step)
    requires Inv(s) && l.UpdateBegin?
    ensures GoodMove(s, BeginUpdate(cfg, s, l))
  {
    var mem := View(s);
    UpdateStartsInMemory(cfg, mem, l.id, l.async, l.request, l.rnd);
    AdoptedIsGood(cfg, mem, l.id, l.async, l.request, l.rnd);
    if l.id in mem {
      ViewIsGood(s, l.id);
      ReplannedIsGood(cfg, mem, l.id, l.async, l.request, l.rnd);
    }
    UpdateMoveIsGood(cfg, s, l.id, StartUpdate(cfg, mem, l.id, l.async, l.request, l.rnd), l.rnd);
  }

  lemma UpdateMoveIsGood(cfg: Config, s: System, id: string, u: UpdateStart, rnd: Secrets)
    requires Inv(s)
    requires u.UAdopt? ==> id !in View(s) && u.rec.id == id && GoodRecord(u.rec)
    requires u.URedeploy? ==> id in View(s) && IdentityOf(u.rec) == IdentityOf(View(s)[id]) && GoodRecord(u.rec)
    ensures GoodMove(s, UpdateMove(cfg, s, id, u))
  {
    if u.UAdopt? {
      InsertIsGood(cfg, s, id, u.rec, rnd, Deploying(ForUpdate(id, |s.heap|), BuildParams(cfg, u.rec)));
    } else if u.URedeploy? {
      OverwriteIsGood(cfg, s, id, u.rec);
    }
  }

  lemma OverwriteIsGood(cfg: Config, s: System, id: string, rec: Record)
    requires Inv(s) && id in View(s)
    requires IdentityOf(rec) == IdentityOf(View(s)[id]) && GoodRecord(rec)
    ensures GoodMove(s, Move(Overwrite(s.instances[id], rec),
                                  Deploying(ForUpdate(id, s.instances[id]), BuildParams(cfg, rec))))
  {
  }

  lemma BeginUpgradeIsGood(cfg: Config, s: System, l: Step)
    requires Inv(s) && l.UpgradeBegin?
    ensures GoodMove(s, BeginUpgrade(cfg, s, l))
  {
  }

  lemma BeginIsGood(cfg: Config, s: System, l: Step)
    requires Inv(s) && Begins(l)
    ensures GoodMove(s, Begin(cfg, s, l))
  {
    match l
    case ProvisionBegin(_, _, _, _, _) => BeginProvisionIsGood(cfg, s, l);
    case DeprovisionBegin(_, _, _) => BeginDeprovisionIsGood(s, l);
    case UpdateBegin(_, _, _, _, _) => BeginUpdateIsGood(cfg, s, l);
    case UpgradeBegin(_, _, _) => BeginUpgradeIsGood(cfg, s, l);
    case _ => BeginReadIsGood(cfg, s, l);
  }

  lemma BeginReadIsGood(cfg: Config, s: System, l: Step)
    requires Inv(s) && (l.PollBegin? || l.BindBegin? || l.StatusBegin?)
    ensures GoodMove(s, Begin(cfg, s, l))
  {
    if l.PollBegin? && l.id in View(s) {
      ViewIsGood(s, l.id);
    }
  }

  /** Overwriting a record by one with the same identity. */
  lemma SmallWriteIsGood(s: System, ref: nat, rec: Record)
    requires Inv(s) && ref < |s.heap|
    requires IdentityOf(rec) == IdentityOf(s.heap[ref]) && OwnClient(rec)
    ensures GoodEffect(s, Overwrite(ref, rec))
    ensures Grows(s, Perform(s, Overwrite(ref, rec)))
  {
    SameIdentityStaysGood(s.heap[ref], rec);
  }

  lemma DeployedIsGood(cfg: Config, s: System, job: Job, task: int)
    requires Inv(s) && GoodJob(s, job)
    ensures GoodMove(s, WriteDeployed(cfg, s, job, task))
  {
    SmallWriteIsGood(s, job.ref, WriteDeployed(cfg, s, job, task).effect.rec);
  }

  lemma CheckedIsGood(s: System, id: string, state: LifeState, next: Handler)
    requires Inv(s) && next.Checking?
    ensures GoodMove(s, WriteChecked(s, id, state, next))
  {
    if id in View(s) {
      ViewIsGood(s, id);
      SmallWriteIsGood(s, s.instances[id], View(s)[id].(state := state));
    }
  }

  lemma DeletedIsGood(s: System, id: string, ref: nat, task: int)
    requires Inv(s) && GoodHandler(s, Deleted(id, ref, task))
    ensures GoodMove(s, WriteDeleted(s, id, ref, task))
  {
    SmallWriteIsGood(s, ref, s.heap[ref].(boshTaskID := task));
  }

  lemma UndeletingIsGood(s: System, id: string, ref: nat, previous: Option<LifeState>)
    requires Inv(s) && GoodHandler(s, Undeleting(id, ref, previous))
    ensures GoodMove(s, WriteUndeleting(s, id, ref, previous))
  {
    if previous.Some? {
      SmallWriteIsGood(s, ref, s.heap[ref].(state := previous.value));
    }
  }

  lemma PolledIsGood(s: System, id: string, ref: nat, state: LifeState, a: TaskAnswer)
    requires Inv(s) && GoodHandler(s, Polled(id, ref, state, a))
    ensures GoodMove(s, WritePolled(s, id, ref, state, a))
  {
    if EffectOfPoll(state, a).SetState? {
      SmallWriteIsGood(s, ref, s.heap[ref].(state := EffectOfPoll(state, a).state));
    }
  }

  lemma WriteIsGood(cfg: Config, s: System, w: Handler)
    requires Inv(s) && GoodHandler(s, w)
    ensures GoodMove(s, WriteBack(cfg, s, w))
  {
    match w
    case Deployed(job, task) => DeployedIsGood(cfg, s, job, task);
    case Deleted(id, ref, task) => DeletedIsGood(s, id, ref, task);
    case Undeleting(id, ref, previous) => UndeletingIsGood(s, id, ref, previous);
    case Polled(id, ref, state, a) => PolledIsGood(s, id, ref, state, a);
    case Checked(id, state, pending, total, tally) =>
      CheckedIsGood(s, id, state, Checking(pending, total, tally));
    case _ =>
  }

  lemma ProvisionBuildIsGood(cfg: Config, s: System, w: Handler, created: bool)
    requires Inv(s) && w.Reserved? && GoodHandler(s, w)
    ensures var rec := AfterSso(cfg, s.heap[w.ref], created, w.rnd);
            GoodMove(s, Move(Overwrite(w.ref, rec), Deploying(ForProvision(w.id, w.ref), BuildParams(cfg, rec))))
  {
    var r := s.heap[w.ref];
    var rec := AfterSso(cfg, r, created, w.rnd);
    assert GoodRecord(r);
    SsoWritesLittle(cfg, r, created, w.rnd);
    SmallWriteIsGood(s, w.ref, rec);
    ParamsCarry(cfg, rec);
  }

  lemma SsoWritesLittle(cfg: Config, r: Record, created: bool, rnd: Secrets)
    requires OwnClient(r)
    ensures var rec := AfterSso(cfg, r, created, rnd);
            IdentityOf(rec) == IdentityOf(r) && OwnClient(rec)
  {
  }

  lemma ParamsCarry(cfg: Config, r: Record)
    requires OwnClient(r)
    ensures Carries(BuildParams(cfg, r), r) && SsoGated(BuildParams(cfg, r))
  {
  }

  lemma UpgradeBuildIsGood(cfg: Config, s: System, w: Handler)
    requires Inv(s) && w.Rolling? && GoodHandler(s, w)
    ensures GoodMove(s, BuildUpgrade(cfg, s, w))
  {
  }

  lemma DeployReplyIsGood(s: System, w: Handler, reply: DeployReply)
    requires GoodHandler(s, w)
    ensures GoodMove(s, if w.Deploying? then Move(Nothing, AfterDeploy(w.job, reply)) else Stutter)
  {
  }

  lemma DeleteReplyIsGood(s: System, w: Handler, reply: DeleteReply)
    requires GoodHandler(s, w)
    ensures GoodMove(s, if w.Deleting? then Move(Nothing, AfterDelete(w, reply)) else Stutter)
  {
  }

  lemma ReportIsGood(s: System, w: Handler, key: string, a: TaskAnswer)
    requires GoodHandler(s, w)
    ensures GoodMove(s, if w.Polling? then Move(Nothing, AfterPoll(w, a))
                             else if w.Checking? && key in w.pending then Move(Nothing, AfterCheck(w, key, a))
                             else Stutter)
  {
  }

  lemma ContinueIsGood(cfg: Config, s: System, l: Step, w: Handler)
    requires Inv(s) && GoodHandler(s, w)
    ensures GoodMove(s, Continue(cfg, s, l, w))
  {
    if l.Write? {
      WriteIsGood(cfg, s, w);
    } else if l.ProvisionBuild? || l.UpgradeBuild? {
      BuildIsGood(cfg, s, l, w);
    } else {
      RemoteCallIsGood(cfg, s, l, w);
    }
  }

  lemma BuildIsGood(cfg: Config, s: System, l: Step, w: Handler)
    requires Inv(s) && GoodHandler(s, w) && (l.ProvisionBuild? || l.UpgradeBuild?)
    ensures GoodMove(s, Continue(cfg, s, l, w))
  {
    if l.ProvisionBuild? && w.Reserved? {
      ProvisionBuildIsGood(cfg, s, w, l.created);
    } else if l.UpgradeBuild? && w.Rolling? {
      UpgradeBuildIsGood(cfg, s, w);
    }
  }

  lemma RemoteCallIsGood(cfg: Config, s: System, l: Step, w: Handler)
    requires Inv(s) && GoodHandler(s, w)
    requires !l.ProvisionBuild? && !l.UpgradeBuild? && !l.Write?
    ensures GoodMove(s, Continue(cfg, s, l, w))
  {
    match l
    case DirectorDeploys(_, reply) => DeployReplyIsGood(s, w, reply);
    case DirectorDeletes(_, reply) => DeleteReplyIsGood(s, w, reply);
    case DirectorReports(_, key, a) => ReportIsGood(s, w, key, a);
    case _ =>
  }

  lemma MoveIsGood(cfg: Config, s: System, l: Step)
    requires Inv(s)
    ensures GoodMove(s, MoveOf(cfg, s, l))
  {
    if Begins(l) {
      BeginIsGood(cfg, s, l);
    } else if l.h in s.handlers {
      ContinueIsGood(cfg, s, l, s.handlers[l.h]);
    }
  }

  lemma PerformKeepsEntries(s: System, e: Effect)
    requires Inv(s) && GoodEffect(s, e)
    ensures var t := Perform(s, e);
            && (forall k :: k in t.instances ==> Refers(t, t.instances[k], k))
            && (forall r :: 0 <= r < |t.heap| ==> GoodRecord(t.heap[r]))
            && t.handlers == s.handlers
  {
  }

  lemma StepKeepsInv(cfg: Config, s: System, l: Step)
    requires Inv(s)
    ensures Inv(Apply(cfg, s, l)) && Grows(s, Apply(cfg, s, l))
  {
    MoveIsGood(cfg, s, l);
    match MoveOf(cfg, s, l)
    case Stutter =>
    case Move(e, next) => MoveKeepsInv(s, e, l.h, next);
  }

  lemma MoveKeepsInv(s: System, e: Effect, h: nat, next: Handler)
    requires Inv(s) && GoodEffect(s, e) && GoodHandler(Perform(s, e), next)
    ensures var t := Perform(s, e).(handlers := s.handlers[h := next]);
            Inv(t) && Grows(s, t)
  {
    var p := Perform(s, e);
    var t := p.(handlers := s.handlers[h := next]);
    PerformKeepsEntries(s, e);
    GoodEffectGrows(s, e);
    forall g | g in t.handlers ensures GoodHandler(t, t.handlers[g]) {
      if g != h {
        StableHandler(s, p, s.handlers[g]);
      }
      StableHandler(p, t, t.handlers[g]);
    }
  }

  /** The shared state after a step is that after some effect. */
  ghost predicate Effected(s: System, t: System, e: Effect) {
    var p := Perform(s, e);
    t.heap == p.heap && t.instances == p.instances && t.tracker == p.tracker
  }

  /** Only these steps insert an entry: an admitted Provision, which found the quotas
      respected; an adopting Update; a delete of an unknown id, whose entry is born
      deprovisioning. */
  predicate InsertedBy(cfg: Config, s: System, l: Step, e: Effect) {
    e.Insert? ==>
      (l.ProvisionBegin? && l.id == e.id && l.body.Some? && e.rec.orgGUID == l.body.value.orgGUID
       && !OverQuota(cfg, View(s), None) && !OverQuota(cfg, View(s), Some(e.rec.orgGUID)))
      || (l.UpdateBegin? && l.id == e.id && e.rec.orgGUID == "" && e.rec.state == Provisioning)
      || (l.DeprovisionBegin? && l.id == e.id && e.rec.state == Deprovisioning)
  }

  lemma InsertsAreBegins(cfg: Config, s: System, l: Step)
    ensures MoveOf(cfg, s, l).Move? ==> InsertedBy(cfg, s, l, MoveOf(cfg, s, l).effect)
  {
    if Begins(l) {
      BeginInserts(cfg, s, l);
    } else if l.h in s.handlers {
      ContinueInsertsNothing(cfg, s, l, s.handlers[l.h]);
    }
  }

  lemma BeginInserts(cfg: Config, s: System, l: Step)
    ensures Begin(cfg, s, l).Move? ==> InsertedBy(cfg, s, l, Begin(cfg, s, l).effect)
  {
    match l
    case ProvisionBegin(_, _, _, _, _) => ProvisionInserts(cfg, s, l);
    case UpdateBegin(_, _, _, _, _) => UpdateInserts(cfg, s, l);
    case DeprovisionBegin(_, _, _) => DeprovisionInserts(cfg, s, l);
    case _ =>
  }

  lemma ProvisionInserts(cfg: Config, s: System, l: Step)
    requires l.ProvisionBegin?
    ensures BeginProvision(cfg, s, l).Move? ==> InsertedBy(cfg, s, l, BeginProvision(cfg, s, l).effect)
  {
    var a := Admit(cfg, View(s), l.id, l.async, l.body, l.rnd);
  }

  lemma UpdateInserts(cfg: Config, s: System, l: Step)
    requires l.UpdateBegin?
    ensures BeginUpdate(cfg, s, l).Move? ==> InsertedBy(cfg, s, l, BeginUpdate(cfg, s, l).effect)
  {
    UpdateStartsInMemory(cfg, View(s), l.id, l.async, l.request, l.rnd);
    AdoptedHasNoOrg(cfg, View(s), l.id, l.async, l.request, l.rnd);
    AdoptionInserts(cfg, s, l, StartUpdate(cfg, View(s), l.id, l.async, l.request, l.rnd));
  }

  lemma AdoptedHasNoOrg(cfg: Config, mem: Memory, id: string, async: bool, request: Option<string>, rnd: Secrets)
    ensures var u := StartUpdate(cfg, mem, id, async, request, rnd);
            u.UAdopt? ==> u.rec.orgGUID == "" && u.rec.state == Provisioning
  {
  }

  lemma AdoptionInserts(cfg: Config, s: System, l: Step, u: UpdateStart)
    requires l.UpdateBegin? && (u.URedeploy? ==> l.id in s.instances)
    requires u.UAdopt? ==> u.rec.orgGUID == "" && u.rec.state == Provisioning
    ensures UpdateMove(cfg, s, l.id, u).Move? ==> InsertedBy(cfg, s, l, UpdateMove(cfg, s, l.id, u).effect)
  {
  }

  lemma DeprovisionInserts(cfg: Config, s: System, l: Step)
    requires l.DeprovisionBegin?
    ensures BeginDeprovision(s, l).Move? ==> InsertedBy(cfg, s, l, BeginDeprovision(s, l).effect)
  {
  }

  lemma ContinueInsertsNothing(cfg: Config, s: System, l: Step, w: Handler)
    ensures Continue(cfg, s, l, w).Move? ==> !Continue(cfg, s, l, w).effect.Insert?
  {
  }

  function EffectOf(m: Move): Effect {
    if m.Stutter? then Nothing else m.effect
  }

  lemma ApplyPerforms(s: System, m: Move, h: nat, t: System)
    requires t == match m case Stutter => s case Move(e, next) => Perform(s, e).(handlers := s.handlers[h := next])
    ensures Effected(s, t, EffectOf(m))
  {
  }

  lemma StepShape(cfg: Config, s: System, l: Step) returns (e: Effect)
    requires Inv(s)
    ensures GoodEffect(s, e) && InsertedBy(cfg, s, l, e)
    ensures Effected(s, Apply(cfg, s, l), e)
  {
    MoveIsGood(cfg, s, l);
    InsertsAreBegins(cfg, s, l);
    ApplyPerforms(s, MoveOf(cfg, s, l), l.h, Apply(cfg, s, l));
    e := EffectOf(MoveOf(cfg, s, l));
  }

  /** Over any run, with any number of handlers in any interleaving: the invariant
      is kept and no record ever changes its identity. */
  lemma {:induction false} RunKeepsInv(cfg: Config, s: System, steps: seq<Step>)
    requires Inv(s)
    ensures Inv(Run(cfg, s, steps)) && Grows(s, Run(cfg, s, steps))
    decreases |steps|
  {
    if steps != [] {
      StepKeepsInv(cfg, s, steps[0]);
      RunKeepsInv(cfg, Apply(cfg, s, steps[0]), steps[1..]);
    }
  }

  lemma EmptySatisfiesInv()
    ensures Inv(EMPTY)
  {
  }
}
