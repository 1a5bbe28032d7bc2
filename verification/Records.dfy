/** What each accepted request leaves in the instance map, field by field, said of the
    request, the configured plans and the drawn secrets alone. */
module Records {
  import opened Strings
  import opened Domain
  import opened Handlers
  import opened Sequential
  import Hostname

  // ---------- Provision ----------

  /** SSO is on for an instance when SSO and the UAA are configured and its client was
      created. */
  predicate SsoOn(cfg: Config, created: bool) {
    cfg.ssoEnabled && cfg.cfUaaURL != "" && cfg.cfUaaSecret != "" && created
  }

  function OwnerOf(req: ProvisionRequest): string {
    if req.owner.Some? then req.owner.value else "user"
  }

  /** The record a provisioned instance has, once its SSO client was or was not created. */
  function Provisioned(cfg: Config, id: string, req: ProvisionRequest, plan: Plan, rnd: Secrets, created: bool,
                       task: int): Record
  {
    var sso := SsoOn(cfg, created);
    Record(id, req.planID, plan.name, OwnerOf(req), req.orgGUID, req.spaceGUID, "openclaw-agent-" + id,
           rnd.gatewayToken, rnd.nodeSeed, Hostname.UniqueRouteHostname(Hostname.OwnerLabel(OwnerOf(req)), id),
           cfg.appsDomain, plan.vmType, plan.diskType, Provisioning, task, sso, if sso then "openclaw-" + id else "",
           if sso then rnd.clientSecret else "", if sso then rnd.cookieSecret else "", cfg.openClawVersion)
  }

  lemma ProvisionedIs(cfg: Config, id: string, req: ProvisionRequest, plan: Plan, rnd: Secrets, created: bool,
                      task: int)
    ensures AfterSso(cfg, NewRecord(cfg, id, req, plan, rnd), created, rnd).(boshTaskID := task)
         == Provisioned(cfg, id, req, plan, rnd, created, task)
    ensures AfterSso(cfg, NewRecord(cfg, id, req, plan, rnd), created, rnd)
         == Provisioned(cfg, id, req, plan, rnd, created, 0)
  {
  }

  /** What a request that is admitted reserves its slot with. */
  lemma ReservedRecord(cfg: Config, mem: Memory, id: string, async: bool, req: ProvisionRequest, rnd: Secrets,
                       plans: seq<Plan>, i: nat)
    requires Offers(cfg, plans) && PlanAt(plans, req.planID, i)
    requires Admit(cfg, mem, id, async, Some(req), rnd).Reserve?
    ensures IsFirst(plans, req.planID, i) && id !in mem
    ensures Admit(cfg, mem, id, async, Some(req), rnd) == Reserve(NewRecord(cfg, id, req, plans[i], rnd))
  {
    PlanIsFound(cfg, plans, req.planID, i);
  }

  lemma ProvisionedRecord(cfg: Config, mem: Memory, id: string, req: ProvisionRequest, rnd: Secrets, created: bool,
                          task: int, plans: seq<Plan>, i: nat)
    requires Offers(cfg, plans) && PlanAt(plans, req.planID, i)
    requires Provision(cfg, mem, id, true, Some(req), rnd, created, DeployTask(task)).response.Accepted?
    ensures IsFirst(plans, req.planID, i) && id !in mem
    ensures Provision(cfg, mem, id, true, Some(req), rnd, created, DeployTask(task)).mem
            == mem[id := Provisioned(cfg, id, req, plans[i], rnd, created, task)]
  {
    AdmittedIsNew(cfg, mem, id, true, Some(req), rnd);
    ReservedRecord(cfg, mem, id, true, req, rnd, plans, i);
    RolledBack(mem, id, AfterSso(cfg, NewRecord(cfg, id, req, plans[i], rnd), created, rnd), DeployTask(task));
    ProvisionedIs(cfg, id, req, plans[i], rnd, created, task);
  }

  // ---------- Update ----------

  /** The record an unknown id is adopted with. */
  function Adopted(cfg: Config, id: string, plan: Plan, rnd: Secrets, task: int): Record {
    Record(id, plan.id, plan.name, "recovered", "", "", "openclaw-agent-" + id, rnd.gatewayToken, rnd.nodeSeed,
           Hostname.UniqueRouteHostname("recovered", id), cfg.appsDomain, plan.vmType, plan.diskType,
           Provisioning, task, cfg.ssoEnabled, "", "", "", cfg.openClawVersion)
  }

  lemma AdoptedIs(cfg: Config, id: string, plan: Plan, rnd: Secrets, task: int)
    ensures Redeployed(RecoveredRecord(cfg, id, plan, rnd), task) == Adopted(cfg, id, plan, rnd, task)
    ensures RecoveredRecord(cfg, id, plan, rnd) == Adopted(cfg, id, plan, rnd, 0)
  {
  }

  lemma AdoptionStarts(cfg: Config, mem: Memory, id: string, planID: string, rnd: Secrets, plans: seq<Plan>, i: nat)
    requires id !in mem && Offers(cfg, plans) && PlanAt(plans, planID, i)
    ensures StartUpdate(cfg, mem, id, true, Some(planID), rnd) == UAdopt(RecoveredRecord(cfg, id, plans[i], rnd))
  {
    PlanIsFound(cfg, plans, planID, i);
  }

  /** An adoption, from the record it starts with. */
  lemma AdoptionEnds(cfg: Config, mem: Memory, id: string, planID: string, rnd: Secrets, reply: DeployReply,
                     rec: Record)
    requires StartUpdate(cfg, mem, id, true, Some(planID), rnd) == UAdopt(rec)
    ensures Update(cfg, mem, id, true, Some(planID), rnd, reply) == FinishUpdate(mem[id := rec], id, rec, reply)
  {
  }

  lemma WrittenTwice(mem: Memory, id: string, a: Record, b: Record)
    ensures mem[id := a][id := b] == mem[id := b]
  {
  }

  lemma AdoptedRecord(cfg: Config, mem: Memory, id: string, planID: string, rnd: Secrets, task: int, plans: seq<Plan>,
                      i: nat)
    requires id !in mem && Offers(cfg, plans) && PlanAt(plans, planID, i)
    ensures var o := Update(cfg, mem, id, true, Some(planID), rnd, DeployTask(task));
            o.response == Accepted("update-" + id) && o.mem == mem[id := Adopted(cfg, id, plans[i], rnd, task)]
  {
    var rec := RecoveredRecord(cfg, id, plans[i], rnd);
    AdoptionStarts(cfg, mem, id, planID, rnd, plans, i);
    AdoptionEnds(cfg, mem, id, planID, rnd, DeployTask(task), rec);
    AdoptedIs(cfg, id, plans[i], rnd, task);
    WrittenTwice(mem, id, rec, Redeployed(rec, task));
  }

  /** A known instance: on its plan, or moved to the first plan with the requested id. */
  lemma RedeployedRecord(cfg: Config, mem: Memory, id: string, planID: string, rnd: Secrets, task: int)
    requires id in mem && planID in {"", mem[id].planID}
    ensures var o := Update(cfg, mem, id, true, Some(planID), rnd, DeployTask(task));
            o.response == Accepted("update-" + id)
            && o.mem == mem[id := mem[id].(state := Provisioning, boshTaskID := task)]
  {
    assert mem[id := mem[id]] == mem;
  }

  lemma MovedRecord(cfg: Config, mem: Memory, id: string, planID: string, rnd: Secrets, task: int, plans: seq<Plan>,
                    i: nat)
    requires id in mem && planID !in {"", mem[id].planID} && Offers(cfg, plans) && IsFirst(plans, planID, i)
    ensures var o := Update(cfg, mem, id, true, Some(planID), rnd, DeployTask(task));
            && o.response == Accepted("update-" + id)
            && o.mem == mem[id := mem[id].(planID := planID, planName := plans[i].name, vmType := plans[i].vmType,
                                           diskType := plans[i].diskType, state := Provisioning, boshTaskID := task)]
  {
    PlanIsFound(cfg, plans, planID, i);
    var rec := OnPlan(mem[id], planID, plans[i]);
    assert mem[id := rec][id := Redeployed(rec, task)] == mem[id := Redeployed(rec, task)];
  }

  /** An update whose deployment fails leaves what it wrote before: the adopted record
      without a task, or the fields of the new plan. */
  lemma FailedUpdateWrites(cfg: Config, mem: Memory, id: string, planID: string, rnd: Secrets, reply: DeployReply,
                           plans: seq<Plan>, i: nat)
    requires Offers(cfg, plans) && PlanAt(plans, planID, i) && !reply.DeployTask?
    ensures Update(cfg, mem, id, true, Some(planID), rnd, reply).mem
            == if id !in mem then mem[id := Adopted(cfg, id, plans[i], rnd, 0)]
               else if MovesPlan(mem, id, planID) && IsFirst(plans, planID, i) then
                 mem[id := mem[id].(planID := planID, planName := plans[i].name, vmType := plans[i].vmType,
                                    diskType := plans[i].diskType)]
               else mem
  {
    if id in mem {
      FailedMove(cfg, mem, id, planID, rnd, reply, plans, i);
    } else {
      FailedAdoption(cfg, mem, id, planID, rnd, reply, plans, i);
    }
  }

  lemma FailedAdoption(cfg: Config, mem: Memory, id: string, planID: string, rnd: Secrets, reply: DeployReply,
                       plans: seq<Plan>, i: nat)
    requires id !in mem && Offers(cfg, plans) && PlanAt(plans, planID, i) && !reply.DeployTask?
    ensures Update(cfg, mem, id, true, Some(planID), rnd, reply).mem == mem[id := Adopted(cfg, id, plans[i], rnd, 0)]
  {
    AdoptionStarts(cfg, mem, id, planID, rnd, plans, i);
    AdoptionEnds(cfg, mem, id, planID, rnd, reply, RecoveredRecord(cfg, id, plans[i], rnd));
    AdoptedIs(cfg, id, plans[i], rnd, 0);
  }

  lemma FailedMove(cfg: Config, mem: Memory, id: string, planID: string, rnd: Secrets, reply: DeployReply,
                   plans: seq<Plan>, i: nat)
    requires id in mem && Offers(cfg, plans) && PlanAt(plans, planID, i) && !reply.DeployTask?
    ensures Update(cfg, mem, id, true, Some(planID), rnd, reply).mem
            == if MovesPlan(mem, id, planID) && IsFirst(plans, planID, i) then
                 mem[id := mem[id].(planID := planID, planName := plans[i].name, vmType := plans[i].vmType,
                                    diskType := plans[i].diskType)]
               else mem
  {
    PlanIsFound(cfg, plans, planID, i);
    assert mem[id := mem[id]] == mem;
  }

  // ---------- Deprovision ----------

  lemma DeprovisionedRecord(mem: Memory, id: string, task: int)
    requires id in mem ==> mem[id].state != Deprovisioning
    ensures var o := Deprovision(mem, id, true, DeleteTask(task));
            && o.response == Accepted("deprovision-" + id)
            && o.mem == mem[id := if id in mem then mem[id].(state := Deprovisioning, boshTaskID := task)
                                  else Record(id, "", "", "", "", "", "openclaw-agent-" + id, "", "", "", "", "", "",
                                              Deprovisioning, task, false, "", "", "", "")]
  {
  }

  // ---------- AdminUpgrade ----------

  /** What the candidate loop may pick: distinct instances that are active and on another
      version, as many as there are up to count. */
  lemma ChoiceExactly(version: string, mem: Memory, count: int, chosen: seq<string>)
    ensures CandidateChoice(version, mem, count, chosen) <==>
            var outdated := set k | k in mem && mem[k].state != Deprovisioning && mem[k].openClawVersion != version;
            && (forall i :: 0 <= i < |chosen| ==> chosen[i] in outdated)
            && (forall i, j :: 0 <= i < j < |chosen| ==> chosen[i] != chosen[j])
            && |chosen| == if count < |outdated| then count else |outdated|
  {
    assert OutdatedKeys(version, mem)
        == set k | k in mem && mem[k].state != Deprovisioning && mem[k].openClawVersion != version;
  }

  predicate SameAt(a: map<string, int>, b: map<string, int>, k: string) {
    (k in a <==> k in b) && (k in a ==> a[k] == b[k])
  }

  /** The first n candidates' turns leave everything else alone. */
  lemma {:induction false} UpgradeLeaves(version: string, mem: Memory, tracker: map<string, int>, chosen: seq<string>,
                                         replies: seq<DeployReply>, n: nat, k: string)
    requires n <= |chosen| && k in mem && forall i :: 0 <= i < n ==> chosen[i] != k
    ensures UpgradeFirst(version, mem, chosen, replies, n).Keys == mem.Keys
    ensures UpgradeFirst(version, mem, chosen, replies, n)[k] == mem[k]
    ensures SameAt(tracker, TrackFirst(tracker, chosen, replies, n), k)
  {
    if n > 0 {
      UpgradeLeaves(version, mem, tracker, chosen, replies, n - 1, k);
    }
  }

  /** An accepted candidate is provisioning its own task on the new version, and tracked
      with that task; a refused one, and its place in the tracker, stay as they were. */
  lemma {:induction false} UpgradeWrites(version: string, mem: Memory, tracker: map<string, int>, chosen: seq<string>,
                                         replies: seq<DeployReply>, n: nat, i: nat)
    requires i < n <= |chosen| && Distinct(chosen) && chosen[i] in mem
    ensures var k := chosen[i];
            var after := UpgradeFirst(version, mem, chosen, replies, n);
            var tracked := TrackFirst(tracker, chosen, replies, n);
            && after.Keys == mem.Keys
            && if i < |replies| && replies[i].DeployTask? then
                 var task := replies[i].task;
                 && after[k] == mem[k].(state := Provisioning, boshTaskID := task, openClawVersion := version)
                 && k in tracked && tracked[k] == task
               else
                 after[k] == mem[k] && SameAt(tracker, tracked, k)
  {
    if i < n - 1 {
      UpgradeWrites(version, mem, tracker, chosen, replies, n - 1, i);
    } else {
      UpgradeLeaves(version, mem, tracker, chosen, replies, i, chosen[i]);
    }
  }
}
