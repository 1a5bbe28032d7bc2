/** What each lock section of the broker's handlers computes, as functions on
    records. The concurrent protocol and the sequential broker share them. */
module Handlers {
  import opened Strings
  import opened Domain
  import Hostname
  import Manifest
  import VersionGate

  // ---------- plans ----------

  function DefaultPlans(): seq<Plan> {
    [ Plan("developer", "openclaw-developer-plan", "Dedicated OpenClaw agent for individual developers", "",
           "small", "10GB", [], false),
      Plan("developer-plus", "openclaw-developer-plus-plan", "Enhanced agent with browser automation", "",
           "medium", "20GB", [], false),
      Plan("team", "openclaw-team-plan", "Shared agent for teams", "", "large", "50GB", [], false) ]
  }

  function EffectivePlans(cfg: Config): (plans: seq<Plan>)
    ensures |plans| > 0
  {
    if |cfg.plans| == 0 then DefaultPlans() else cfg.plans
  }

  /** The first plan with the id. */
  function FindIn(plans: seq<Plan>, planID: string): (r: Option<Plan>)
    ensures r.Some? ==> r.value.id == planID
    ensures r.None? <==> forall i :: 0 <= i < |plans| ==> plans[i].id != planID
  {
    if |plans| == 0 then None
    else if plans[0].id == planID then Some(plans[0])
    else FindIn(plans[1..], planID)
  }

  function FindPlan(cfg: Config, planID: string): (r: Option<Plan>)
    ensures r.Some? ==> r.value.id == planID
  {
    FindIn(EffectivePlans(cfg), planID)
  }

  // The same said by places in the list, for stating what is found.

  /** The list that plan ids are looked up in: the configured one, or the built-in one when
      none is configured. */
  predicate Offers(cfg: Config, plans: seq<Plan>) {
    plans == if cfg.plans == [] then DefaultPlans() else cfg.plans
  }

  /** i is the first place with the plan id. */
  predicate IsFirst(plans: seq<Plan>, planID: string, i: nat) {
    i < |plans| && plans[i].id == planID && forall j :: 0 <= j < i ==> plans[j].id != planID
  }

  predicate Unlisted(plans: seq<Plan>, planID: string) {
    forall i :: 0 <= i < |plans| ==> plans[i].id != planID
  }

  /** The first place with the plan id, or the first of all when no plan has it. */
  predicate PlanAt(plans: seq<Plan>, planID: string, i: nat) {
    IsFirst(plans, planID, i) || (Unlisted(plans, planID) && i == 0 < |plans|)
  }

  lemma {:induction false} EveryIdHasPlace(plans: seq<Plan>, planID: string) returns (i: nat)
    requires plans != []
    ensures PlanAt(plans, planID, i)
  {
    i := 0;
    if plans[0].id != planID && |plans| > 1 {
      var j := EveryIdHasPlace(plans[1..], planID);
      if IsFirst(plans[1..], planID, j) {
        i := j + 1;
      }
    }
  }

  /** Among plans with one id the first is found. */
  lemma {:induction false} FirstIsFound(plans: seq<Plan>, planID: string, i: nat)
    requires IsFirst(plans, planID, i)
    ensures FindIn(plans, planID) == Some(plans[i])
  {
    if i > 0 {
      FirstIsFound(plans[1..], planID, i - 1);
    }
  }

  lemma PlanIsFound(cfg: Config, plans: seq<Plan>, planID: string, i: nat)
    requires Offers(cfg, plans) && PlanAt(plans, planID, i)
    ensures FindPlan(cfg, planID) == if Unlisted(plans, planID) then None else Some(plans[i])
  {
    if IsFirst(plans, planID, i) {
      FirstIsFound(plans, planID, i);
    }
  }

  // ---------- counting ----------

  /** Whether an entry uses up a slot: of the whole broker, or of one organization. */
  predicate Counts(r: Record, org: Option<string>) {
    r.state != Deprovisioning && (org.Some? ==> r.orgGUID == org.value)
  }

  function CountedKeys(mem: Memory, org: Option<string>): set<string> {
    set k | k in mem && Counts(mem[k], org)
  }

  function Count(mem: Memory, org: Option<string>): nat {
    |CountedKeys(mem, org)|
  }

  /** The configured limit; zero or less means none. */
  function Limit(cfg: Config, org: Option<string>): int {
    if org.None? then cfg.maxInstances else cfg.maxInstancesPerOrg
  }

  /** What is counted: everything that is not being deleted. */
  function ActiveIn(mem: Memory): set<string> {
    set k | k in mem && mem[k].state != Deprovisioning
  }

  function ActiveOf(mem: Memory, org: string): set<string> {
    set k | k in mem && mem[k].state != Deprovisioning && mem[k].orgGUID == org
  }

  lemma CountsActive(mem: Memory, org: string)
    ensures Count(mem, None) == |ActiveIn(mem)| && Count(mem, Some(org)) == |ActiveOf(mem, org)|
  {
    assert CountedKeys(mem, None) == ActiveIn(mem);
    assert CountedKeys(mem, Some(org)) == ActiveOf(mem, org);
  }

  predicate OverQuota(cfg: Config, mem: Memory, org: Option<string>) {
    Limit(cfg, org) > 0 && Count(mem, org) >= Limit(cfg, org)
  }

  // ---------- Provision ----------

  function DeploymentName(id: string): string {
    "openclaw-agent-" + id
  }

  function NewRecord(cfg: Config, id: string, req: ProvisionRequest, plan: Plan, rnd: Secrets): Record {
    var owner := if req.owner.Some? then req.owner.value else "user";
    Record(id, req.planID, plan.name, owner, req.orgGUID, req.spaceGUID, DeploymentName(id),
           rnd.gatewayToken, rnd.nodeSeed,
           Hostname.UniqueRouteHostname(Hostname.OwnerLabel(owner), id), cfg.appsDomain,
           plan.vmType, plan.diskType, Provisioning, 0, cfg.ssoEnabled, "", "", "", cfg.openClawVersion)
  }

  datatype Admission = Reject(why: Response) | Reserve(rec: Record)

  /** The checks on the broker's own configuration, and the new record. */
  function AdmitConfigured(cfg: Config, id: string, req: ProvisionRequest, rnd: Secrets): (a: Admission)
    ensures a.Reserve? ==>
              FindPlan(cfg, req.planID).Some?
              && a.rec == NewRecord(cfg, id, req, FindPlan(cfg, req.planID).value, rnd)
  {
    if cfg.minOpenClawVersion != ""
       && !VersionGate.ValidateVersion(cfg.openClawVersion, cfg.minOpenClawVersion).Ok?
    then Reject(VersionBelowMinimum)
    else
      match FindPlan(cfg, req.planID)
      case None => Reject(UnknownPlan)
      case Some(plan) =>
        if |plan.azs| == 0 && |cfg.azs| == 0 then Reject(Misconfigured)
        else if cfg.appsDomain == "" then Reject(Misconfigured)
        else Reserve(NewRecord(cfg, id, req, plan, rnd))
  }

  /** Provision up to the point where the lock is released. */
  function Admit(cfg: Config, mem: Memory, id: string, async: bool, body: Option<ProvisionRequest>, rnd: Secrets)
    : (a: Admission)
    ensures a.Reserve? ==>
              && id !in mem && async && Hostname.ValidInstanceID(id) && body.Some?
              && !OverQuota(cfg, mem, None) && !OverQuota(cfg, mem, Some(body.value.orgGUID))
              && FindPlan(cfg, body.value.planID).Some?
              && a.rec == NewRecord(cfg, id, body.value, FindPlan(cfg, body.value.planID).value, rnd)
  {
    if !Hostname.ValidInstanceID(id) then Reject(InvalidInstanceID)
    else if !async then Reject(AsyncRequired)
    else if body.None? then Reject(BadRequest)
    else
      var req := body.value;
      if id in mem then Reject(Conflict)
      else if OverQuota(cfg, mem, None) then Reject(QuotaExceeded)
      else if OverQuota(cfg, mem, Some(req.orgGUID)) then Reject(QuotaExceeded)
      else AdmitConfigured(cfg, id, req, rnd)
  }

  predicate HasUaaClient(cfg: Config) {
    cfg.ssoEnabled && cfg.cfUaaURL != "" && cfg.cfUaaSecret != ""
  }

  function SsoClientID(id: string): string {
    "openclaw-" + id
  }

  /** The writes Provision makes after releasing the lock. */
  function AfterSso(cfg: Config, r: Record, created: bool, rnd: Secrets): Record {
    if r.ssoEnabled && HasUaaClient(cfg) then
      if created
      then r.(ssoClientID := SsoClientID(r.id), ssoClientSecret := rnd.clientSecret,
              ssoCookieSecret := rnd.cookieSecret)
      else r.(ssoEnabled := false)
    else if r.ssoEnabled then r.(ssoEnabled := false)
    else r
  }

  function BuildParams(cfg: Config, r: Record): Params {
    var plan := FindPlan(cfg, r.planID);
    Params(r.deploymentName, r.id, r.owner, r.planName, r.gatewayToken, r.nodeSeed, r.routeHostname, r.appsDomain,
           r.vmType, r.diskType, r.openClawVersion,
           r.ssoEnabled && r.ssoClientID != "", r.ssoClientID, r.ssoClientSecret, r.ssoCookieSecret,
           if plan.Some? && |plan.value.azs| > 0 then plan.value.azs else cfg.azs,
           plan.Some? && plan.value.browser,
           Manifest.ParseCommands(cfg.blockedCommands))
  }

  function FailureOf(reply: DeployReply): Response {
    if reply.RenderError? then RenderFailed else DeployFailed
  }

  // ---------- Deprovision ----------

  /** The record made for an id the broker does not know. */
  function Stub(id: string): Record {
    Record(id, "", "", "", "", "", DeploymentName(id), "", "", "", "", "", "", Deprovisioning, 0, false, "", "", "", "")
  }

  datatype DeprovisionStart = DAnswer(why: Response) | DStub(rec: Record) | DMark(rec: Record, previous: LifeState)

  function StartDeprovision(mem: Memory, id: string, async: bool): DeprovisionStart {
    if !async then DAnswer(AsyncRequired)
    else if id !in mem then DStub(Stub(id))
    else if mem[id].state == Deprovisioning then DAnswer(Accepted("deprovision-" + id))
    else DMark(mem[id].(state := Deprovisioning), mem[id].state)
  }

  // ---------- Update ----------

  function RecoveredRecord(cfg: Config, id: string, plan: Plan, rnd: Secrets): Record {
    Record(id, plan.id, plan.name, "recovered", "", "", DeploymentName(id), rnd.gatewayToken, rnd.nodeSeed,
           Hostname.UniqueRouteHostname("recovered", id), cfg.appsDomain, plan.vmType, plan.diskType,
           Provisioning, 0, cfg.ssoEnabled, "", "", "", cfg.openClawVersion)
  }

  /** The requested plan, or the first one when the request names no known plan. */
  function RecoveryPlan(cfg: Config, planID: string): Plan {
    var found := FindPlan(cfg, planID);
    if found.Some? then found.value else EffectivePlans(cfg)[0]
  }

  function OnPlan(r: Record, planID: string, plan: Plan): Record {
    r.(planID := planID, planName := plan.name, vmType := plan.vmType, diskType := plan.diskType)
  }

  datatype UpdateStart = URefuse(why: Response) | UAdopt(rec: Record) | URedeploy(rec: Record)

  /** body is the request's plan id, or None when the body does not decode. */
  function StartUpdate(cfg: Config, mem: Memory, id: string, async: bool, body: Option<string>, rnd: Secrets)
    : UpdateStart
  {
    if !async then URefuse(AsyncRequired)
    else if body.None? then URefuse(BadRequest)
    else if id !in mem then UAdopt(RecoveredRecord(cfg, id, RecoveryPlan(cfg, body.value), rnd))
    else if body.value != "" && body.value != mem[id].planID then
      match FindPlan(cfg, body.value)
      case None => URefuse(UnknownPlan)
      case Some(plan) => URedeploy(OnPlan(mem[id], body.value, plan))
    else URedeploy(mem[id])
  }

  function Redeployed(r: Record, task: int): Record {
    r.(state := Provisioning, boshTaskID := task)
  }

  // ---------- LastOperation ----------

  predicate NeedsQuery(state: LifeState, task: int) {
    (state.Provisioning? || state.Deprovisioning?) && task != 0
  }

  function ReportWithoutQuery(state: LifeState): OpReport {
    match state
    case Ready => Succeeded
    case Failed => OpFailed
    case _ => InProgress
  }

  function ReportAfterQuery(a: TaskAnswer): OpReport {
    if a.TaskDone? then Succeeded else if a.TaskError? || a.TaskCancelled? then OpFailed else InProgress
  }

  datatype PollEffect = NoEffect | SetState(state: LifeState) | Forget

  function EffectOfPoll(state: LifeState, a: TaskAnswer): PollEffect {
    if state.Provisioning? then
      if a.TaskDone? then SetState(Ready)
      else if a.TaskError? || a.TaskCancelled? then SetState(Failed)
      else NoEffect
    else if state.Deprovisioning? && a.TaskDone? then Forget
    else NoEffect
  }

  // ---------- Bind ----------

  function BindReply(r: Record): Response {
    if r.state != Ready then NotReady
    else Bound(Credentials(r.routeHostname, r.appsDomain, r.gatewayToken, r.nodeSeed, r.id, r.owner, r.planName,
                           r.openClawVersion, r.ssoEnabled))
  }

  // ---------- rolling upgrade ----------

  predicate Outdated(version: string, r: Record) {
    r.state != Deprovisioning && r.openClawVersion != version
  }

  function OutdatedKeys(version: string, mem: Memory): set<string> {
    set k | k in mem && Outdated(version, mem[k])
  }

  function Upgraded(version: string, r: Record, task: int): Record {
    r.(state := Provisioning, boshTaskID := task, openClawVersion := version)
  }

  /** What AdminUpgradeStatus writes into a record for a task answer. */
  function StateAfterStatus(a: TaskAnswer): Option<LifeState> {
    if a.TaskDone? then Some(Ready)
    else if a.TaskError? || a.TaskCancelled? then Some(Failed)
    else None
  }
}
