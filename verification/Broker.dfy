/** The broker object, with handlers that update its instances in place. Each handler
    runs alone here; what it computes is stated by its sequential form. */
module BrokerObject {
  import opened Strings
  import opened Domain
  import opened Handlers
  import Hostname
  import VersionGate
  import Sequential
  import Restart

  class Instance {
    const ID: string
    const Owner: string
    const OrgGUID: string
    const SpaceGUID: string
    const DeploymentName: string
    const GatewayToken: string
    const NodeSeed: string
    const RouteHostname: string
    const AppsDomain: string
    var PlanID: string
    var PlanName: string
    var VMType: string
    var DiskType: string
    var State: LifeState
    var BoshTaskID: int
    var SSOEnabled: bool
    var SSOClientID: string
    var SSOClientSecret: string
    var SSOCookieSecret: string
    var OpenClawVersion: string

    function Rec(): Record
      reads this
    {
      Record(ID, PlanID, PlanName, Owner, OrgGUID, SpaceGUID, DeploymentName, GatewayToken, NodeSeed, RouteHostname,
             AppsDomain, VMType, DiskType, State, BoshTaskID, SSOEnabled, SSOClientID, SSOClientSecret,
             SSOCookieSecret, OpenClawVersion)
    }

    constructor (r: Record)
      ensures Rec() == r
    {
      ID, Owner, OrgGUID, SpaceGUID := r.id, r.owner, r.orgGUID, r.spaceGUID;
      DeploymentName, GatewayToken, NodeSeed := r.deploymentName, r.gatewayToken, r.nodeSeed;
      RouteHostname, AppsDomain := r.routeHostname, r.appsDomain;
      PlanID, PlanName, VMType, DiskType := r.planID, r.planName, r.vmType, r.diskType;
      State, BoshTaskID, OpenClawVersion := r.state, r.boshTaskID, r.openClawVersion;
      SSOEnabled, SSOClientID := r.ssoEnabled, r.ssoClientID;
      SSOClientSecret, SSOCookieSecret := r.ssoClientSecret, r.ssoCookieSecret;
    }

    method WriteState(state: LifeState)
      modifies this`State
      ensures Rec() == old(Rec()).(state := state)
    {
      State := state;
    }

    method WriteTask(taskID: int)
      modifies this`BoshTaskID
      ensures Rec() == old(Rec()).(boshTaskID := taskID)
    {
      BoshTaskID := taskID;
    }

    method WritePlan(planID: string, plan: Plan)
      modifies this`PlanID, this`PlanName, this`VMType, this`DiskType
      ensures Rec() == OnPlan(old(Rec()), planID, plan)
    {
      PlanID := planID;
      PlanName := plan.name;
      VMType := plan.vmType;
      DiskType := plan.diskType;
    }

    /** Provision's writes after it has released the lock. */
    method WriteSso(cfg: Config, created: bool, rnd: Secrets)
      modifies this`SSOEnabled, this`SSOClientID, this`SSOClientSecret, this`SSOCookieSecret
      ensures Rec() == AfterSso(cfg, old(Rec()), created, rnd)
    {
      if SSOEnabled && HasUaaClient(cfg) {
        if !created {
          SSOEnabled := false;
        } else {
          SSOClientID := SsoClientID(ID);
          SSOClientSecret := rnd.clientSecret;
          SSOCookieSecret := rnd.cookieSecret;
        }
      } else if SSOEnabled {
        SSOEnabled := false;
      }
    }

    method WriteRedeploy(taskID: int)
      modifies this`State, this`BoshTaskID
      ensures Rec() == Redeployed(old(Rec()), taskID)
    {
      State := Provisioning;
      BoshTaskID := taskID;
    }

    method WriteUpgrade(taskID: int, version: string)
      modifies this`State, this`BoshTaskID, this`OpenClawVersion
      ensures Rec() == Upgraded(version, old(Rec()), taskID)
    {
      State := Provisioning;
      BoshTaskID := taskID;
      OpenClawVersion := version;
    }
  }

  // ---------- plan normalization ----------

  function Normalized(p: Plan): Plan {
    var withID := if p.id == "" && p.name != "" then p.(id := "openclaw-" + p.name + "-plan") else p;
    var described :=
      if withID.description == "" && withID.planDescription != "" then withID.(description := withID.planDescription)
      else withID;
    if described.description == "" && described.name != ""
    then described.(description := "OpenClaw " + described.name + " plan")
    else described
  }

  function NormalizeAll(plans: seq<Plan>): (r: seq<Plan>)
    ensures |r| == |plans| && forall i :: 0 <= i < |r| ==> r[i] == Normalized(plans[i])
  {
    seq(|plans|, i requires 0 <= i < |plans| => Normalized(plans[i]))
  }

  /** normalizePlans edits the operator's list in place. */
  method NormalizePlans(plans: array<Plan>)
    modifies plans
    ensures plans[..] == NormalizeAll(old(plans[..]))
  {
    for i := 0 to plans.Length
      invariant forall j :: 0 <= j < i ==> plans[j] == Normalized(old(plans[j]))
      invariant forall j :: i <= j < plans.Length ==> plans[j] == old(plans[j])
    {
      if plans[i].id == "" && plans[i].name != "" {
        plans[i] := plans[i].(id := "openclaw-" + plans[i].name + "-plan");
      }
      if plans[i].description == "" && plans[i].planDescription != "" {
        plans[i] := plans[i].(description := plans[i].planDescription);
      }
      if plans[i].description == "" && plans[i].name != "" {
        plans[i] := plans[i].(description := "OpenClaw " + plans[i].name + " plan");
      }
    }
  }

  /** A second pass, as after a restart with the same list, changes nothing. Ids the
      operator gave are kept and missing ones made from the name; a description is the one
      given, else the plan description, else one made from the name; the rest stays. */
  lemma NormalizeSettles(plans: seq<Plan>, i: nat)
    requires i < |plans|
    ensures NormalizeAll(NormalizeAll(plans)) == NormalizeAll(plans)
    ensures var p, n := plans[i], NormalizeAll(plans)[i];
            && n == p.(id := n.id, description := n.description)
            && (p.id != "" || p.name == "" ==> n.id == p.id)
            && (p.id == "" && p.name != "" ==> n.id == "openclaw-" + p.name + "-plan")
            && (p.description != "" ==> n.description == p.description)
            && (p.description == "" && p.planDescription != "" ==> n.description == p.planDescription)
            && (p.description == "" && p.planDescription == "" ==>
                  n.description == if p.name == "" then "" else "OpenClaw " + p.name + " plan")
  {
    var once := NormalizeAll(plans);
    forall j | 0 <= j < |plans| ensures NormalizeAll(once)[j] == once[j] {
      NormalizedTwice(plans[j]);
    }
  }

  lemma NormalizedTwice(p: Plan)
    ensures Normalized(Normalized(p)) == Normalized(p)
  {
  }

  /** The built-in plans are what the pass would make of their names, and each is found
      under its own id, on a larger VM and disk than the one before. */
  lemma DefaultPlansAreFound(cfg: Config, i: nat)
    requires cfg.plans == [] && i < 3
    ensures |DefaultPlans()| == 3 && NormalizeAll(DefaultPlans()) == DefaultPlans()
    ensures var p := DefaultPlans()[i];
            && FindPlan(cfg, p.id) == Some(p) && p.id == "openclaw-" + p.name + "-plan"
            && p.name == ["developer", "developer-plus", "team"][i]
            && p.vmType == ["small", "medium", "large"][i]
            && p.diskType == ["10GB", "20GB", "50GB"][i]
            && p.azs == [] && !p.browser
  {
    DefaultIds();
    assert IsFirst(DefaultPlans(), DefaultPlans()[i].id, i);
    FirstIsFound(DefaultPlans(), DefaultPlans()[i].id, i);
    var once := NormalizeAll(DefaultPlans());
    assert forall j :: 0 <= j < 3 ==> once[j] == DefaultPlans()[j];
  }

  lemma DefaultIds()
    ensures "openclaw-" + "developer" + "-plan" == "openclaw-developer-plan"
    ensures "openclaw-" + "developer-plus" + "-plan" == "openclaw-developer-plus-plan"
    ensures "openclaw-" + "team" + "-plan" == "openclaw-team-plan"
    ensures |"openclaw-developer-plan"| == 23 && |"openclaw-developer-plus-plan"| == 28 && |"openclaw-team-plan"| == 18
  {
  }

  // ---------- the broker ----------

  lemma DistinctSize(keys: seq<string>)
    requires Sequential.Distinct(keys)
    ensures |set k | k in keys| == |keys|
  {
    if keys != [] {
      var front, last := keys[..|keys| - 1], keys[|keys| - 1];
      DistinctSize(front);
      assert keys == front + [last];
      assert (set k | k in keys) == (set k | k in front) + {last};
    }
  }

  ghost function CountedAmong(mem: Memory, seen: set<string>, org: Option<string>): set<string> {
    set k | k in seen && k in mem && Counts(mem[k], org)
  }

  lemma CountedStep(mem: Memory, seen: set<string>, k: string, org: Option<string>)
    requires k in mem && k !in seen
    ensures |CountedAmong(mem, seen + {k}, org)|
            == |CountedAmong(mem, seen, org)| + if Counts(mem[k], org) then 1 else 0
  {
    var before := CountedAmong(mem, seen, org);
    assert CountedAmong(mem, seen + {k}, org) == if Counts(mem[k], org) then before + {k} else before;
  }

  /** The two ways an accepted update runs, apart. */
  lemma UpdateCases(cfg: Config, mem: Memory, id: string, planID: string, rnd: Secrets, reply: DeployReply)
    ensures var o := Sequential.Update(cfg, mem, id, true, Some(planID), rnd, reply);
            if id !in mem then o == Sequential.FinishUpdate(
              mem[id := RecoveredRecord(cfg, id, RecoveryPlan(cfg, planID), rnd)], id,
              RecoveredRecord(cfg, id, RecoveryPlan(cfg, planID), rnd), reply)
            else if planID == "" || planID == mem[id].planID then o == Sequential.FinishUpdate(mem, id, mem[id], reply)
            else
              match FindPlan(cfg, planID)
              case None => o == Sequential.Outcome(mem, UnknownPlan)
              case Some(plan) =>
                o == Sequential.FinishUpdate(mem[id := OnPlan(mem[id], planID, plan)], id,
                                             OnPlan(mem[id], planID, plan), reply)
  {
  }

  class Broker {
    const cfg: Config
    var instances: map<string, Instance>
    var tasks: map<string, int>
    var file: Option<Memory>

    /** The records of the instances, kept in step with the objects. */
    ghost var mem: Memory

    /** Entries sit under their own id. */
    ghost predicate Valid()
      reads this, instances.Values
    {
      mem.Keys == instances.Keys
      && (forall k {:trigger instances[k].ID} :: k in instances ==>
            instances[k].ID == k && instances[k].Rec() == mem[k])
    }

    ghost predicate Saved(before: Option<Memory>, saves: bool, writes: bool)
      reads this
    {
      file == if saves && cfg.stateDir != "" && writes then Some(mem) else before
    }

    /** New: the configuration with its plans normalized, and loadState. */
    constructor (raw: Config, saved: Option<Memory>)
      requires saved.Some? ==> forall k :: k in saved.value ==> saved.value[k].id == k
      ensures Valid() && cfg == raw.(plans := NormalizeAll(raw.plans))
      ensures file == saved && tasks == map[]
      ensures mem == if raw.stateDir == "" then map[] else Restart.Contents(saved)
      ensures fresh(instances.Values)
    {
      cfg := raw.(plans := NormalizeAll(raw.plans));
      instances, tasks, file, mem := map[], map[], saved, map[];
      new;
      if raw.stateDir != "" && saved.Some? {
        LoadState(saved.value);
      }
    }

    /** loadState, for a file with the given entries. */
    method LoadState(saved: Memory)
      requires Valid() && mem == map[] && forall k :: k in saved ==> saved[k].id == k
      modifies this`instances, this`mem
      ensures Valid() && mem == saved
      ensures fresh(instances.Values - old(instances.Values))
    {
      var todo := saved.Keys;
      while todo != {}
        invariant todo <= saved.Keys && mem.Keys == saved.Keys - todo
        invariant forall k :: k in mem ==> mem[k] == saved[k]
        invariant Valid() && fresh(instances.Values - old(instances.Values))
        decreases todo
      {
        var k :| k in todo;
        LoadOne(k, saved[k]);
        todo := todo - {k};
      }
    }

    /** saveState; writes may fail. */
    method SaveState(writes: bool)
      requires Valid()
      modifies this`file
      ensures Valid() && Saved(old(file), true, writes)
    {
      if cfg.stateDir == "" {
        return;
      }
      if writes {
        file := Some(map k | k in instances :: instances[k].Rec());
        assert file.value == mem;
      }
    }

    /** The counting loop visits the map in any order. */
    method CountInstances(org: Option<string>) returns (count: nat)
      requires Valid()
      ensures count == Count(mem, org)
    {
      count := 0;
      var keys := instances.Keys;
      ghost var seen: set<string> := {};
      while keys != {}
        invariant keys <= instances.Keys && seen == instances.Keys - keys
        invariant count == |CountedAmong(mem, seen, org)|
        decreases keys
      {
        var k :| k in keys;
        var inst := instances[k];
        assert inst.ID == k;
        CountedStep(mem, seen, k, org);
        if (org.None? || inst.OrgGUID == org.value) && inst.State != Deprovisioning {
          count := count + 1;
        }
        keys := keys - {k};
        seen := seen + {k};
      }
      assert CountedAmong(mem, seen, org) == CountedKeys(mem, org);
    }

    method FindPlanByID(planID: string) returns (r: Option<Plan>)
      ensures r == FindPlan(cfg, planID)
    {
      var plans := EffectivePlans(cfg);
      for i := 0 to |plans|
        invariant FindIn(plans[i..], planID) == FindPlan(cfg, planID)
      {
        if plans[i].id == planID {
          return Some(plans[i]);
        }
        assert plans[i..][1..] == plans[i + 1..];
      }
      r := None;
    }

    method PlanForRecovery(planID: string) returns (plan: Plan)
      ensures plan == RecoveryPlan(cfg, planID)
    {
      var found := FindPlanByID(planID);
      plan := if found.Some? then found.value else EffectivePlans(cfg)[0];
    }

    // ---------- single writes, and what they do to the map of records ----------

    method Insert(id: string, rec: Record) returns (instance: Instance)
      requires Valid() && rec.id == id
      modifies this`instances, this`mem
      ensures Valid() && fresh(instance) && instances == old(instances)[id := instance]
      ensures mem == old(mem)[id := rec]
    {
      instance := new Instance(rec);
      ghost var was := instances;
      instances := instances[id := instance];
      mem := mem[id := rec];
      assert instance.ID == id;
      forall k | k in instances ensures instances[k].ID == k && instances[k].Rec() == mem[k] {
        if k != id {
          assert instances[k] == was[k] && was[k].ID == k;
        }
      }
    }

    /** One entry of the state file. */
    method LoadOne(id: string, rec: Record)
      requires Valid() && rec.id == id && id !in instances
      modifies this`instances, this`mem
      ensures Valid() && mem == old(mem)[id := rec]
      ensures fresh(instances.Values - old(instances.Values))
    {
      var instance := Insert(id, rec);
    }

    method Remove(id: string)
      requires Valid()
      modifies this`instances, this`mem
      ensures Valid() && instances == old(instances) - {id}
      ensures mem == old(mem) - {id}
    {
      instances := instances - {id};
      mem := mem - {id};
    }

    /** Writing one instance and its record, with the rest untouched, keeps the entries. */
    twostate lemma Rewritten(id: string)
      requires old(Valid()) && instances == old(instances) && id in instances
      requires forall k :: k in instances && instances[k] != instances[id] ==> unchanged(instances[k])
      requires mem == old(mem)[id := instances[id].Rec()]
      ensures Valid()
    {
      assert instances[id].ID == id;
      forall k | k in instances ensures instances[k].ID == k && instances[k].Rec() == mem[k] {
        assert old(instances[k].ID == k && instances[k].Rec() == mem[k]);
      }
    }

    method SetState(id: string, instance: Instance, state: LifeState)
      requires Valid() && id in instances && instances[id] == instance
      modifies this`mem, instance
      ensures Valid()
      ensures mem == old(mem)[id := old(mem)[id].(state := state)]
    {
      instance.WriteState(state);
      mem := mem[id := mem[id].(state := state)];
      Rewritten(id);
    }

    method SetTask(id: string, instance: Instance, taskID: int)
      requires Valid() && id in instances && instances[id] == instance
      modifies this`mem, instance
      ensures Valid()
      ensures mem == old(mem)[id := old(mem)[id].(boshTaskID := taskID)]
    {
      instance.WriteTask(taskID);
      mem := mem[id := mem[id].(boshTaskID := taskID)];
      Rewritten(id);
    }

    method SetRedeployed(id: string, instance: Instance, taskID: int)
      requires Valid() && id in instances && instances[id] == instance
      modifies this`mem, instance
      ensures Valid()
      ensures mem == old(mem)[id := Redeployed(old(mem)[id], taskID)]
    {
      instance.WriteRedeploy(taskID);
      mem := mem[id := Redeployed(mem[id], taskID)];
      Rewritten(id);
    }

    method SetPlan(id: string, instance: Instance, planID: string, plan: Plan)
      requires Valid() && id in instances && instances[id] == instance
      modifies this`mem, instance
      ensures Valid()
      ensures mem == old(mem)[id := OnPlan(old(mem)[id], planID, plan)]
    {
      instance.WritePlan(planID, plan);
      mem := mem[id := OnPlan(mem[id], planID, plan)];
      Rewritten(id);
    }

    method SetSso(id: string, instance: Instance, created: bool, rnd: Secrets)
      requires Valid() && id in instances && instances[id] == instance
      modifies this`mem, instance
      ensures Valid()
      ensures mem == old(mem)[id := AfterSso(cfg, old(mem)[id], created, rnd)]
    {
      instance.WriteSso(cfg, created, rnd);
      mem := mem[id := AfterSso(cfg, mem[id], created, rnd)];
      Rewritten(id);
    }

    // ---------- the handlers ----------

    /** Provision's checks, in their order. */
    method CheckAdmission(id: string, async: bool, body: Option<ProvisionRequest>, rnd: Secrets) returns (a: Admission)
      requires Valid()
      ensures a == Admit(cfg, mem, id, async, body, rnd)
    {
      if !Hostname.ValidInstanceID(id) {
        return Reject(InvalidInstanceID);
      }
      if !async {
        return Reject(AsyncRequired);
      }
      if body.None? {
        return Reject(BadRequest);
      }
      var req := body.value;
      if id in instances {
        return Reject(Conflict);
      }
      var total := CountInstances(None);
      if cfg.maxInstances > 0 && total >= cfg.maxInstances {
        return Reject(QuotaExceeded);
      }
      var ofOrg := CountInstances(Some(req.orgGUID));
      if cfg.maxInstancesPerOrg > 0 && ofOrg >= cfg.maxInstancesPerOrg {
        return Reject(QuotaExceeded);
      }
      a := CheckConfigured(id, req, rnd);
    }

    /** The checks on the configuration. */
    method CheckConfigured(id: string, req: ProvisionRequest, rnd: Secrets) returns (a: Admission)
      ensures a == AdmitConfigured(cfg, id, req, rnd)
    {
      if cfg.minOpenClawVersion != "" {
        var verdict := VersionGate.ValidateVersion(cfg.openClawVersion, cfg.minOpenClawVersion);
        if !verdict.Ok? {
          return Reject(VersionBelowMinimum);
        }
      }
      var plan := FindPlanByID(req.planID);
      if plan.None? {
        return Reject(UnknownPlan);
      }
      if |plan.value.azs| == 0 && |cfg.azs| == 0 {
        return Reject(Misconfigured);
      }
      if cfg.appsDomain == "" {
        return Reject(Misconfigured);
      }
      a := Admission.Reserve(NewRecord(cfg, id, req, plan.value, rnd));
    }

    method Provision(id: string, async: bool, body: Option<ProvisionRequest>, rnd: Secrets, created: bool,
                     reply: DeployReply, writes: bool) returns (response: Response)
      requires Valid()
      modifies this, instances.Values
      ensures Valid() && tasks == old(tasks)
      ensures var o := Sequential.Provision(cfg, old(mem), id, async, body, rnd, created, reply);
              mem == o.mem && response == o.response
      ensures Saved(old(file), response.Accepted?, writes)
    {
      var a := CheckAdmission(id, async, body, rnd);
      Sequential.AdmittedIsNew(cfg, mem, id, async, body, rnd);
      match a {
        case Reject(why) => response := why;
        case Reserve(rec) => response := Reserve(id, rec, rnd, created, reply, writes);
      }
    }

    /** From the reservation on. */
    method Reserve(id: string, rec: Record, rnd: Secrets, created: bool, reply: DeployReply, writes: bool)
      returns (response: Response)
      requires Valid() && id !in instances && rec.id == id
      modifies this
      ensures Valid() && tasks == old(tasks)
      ensures var o := Sequential.FinishProvision(old(mem), id, AfterSso(cfg, rec, created, rnd), reply);
              mem == o.mem && response == o.response
      ensures Saved(old(file), response.Accepted?, writes)
    {
      var instance := Insert(id, rec);
      SetSso(id, instance, created, rnd);
      Overwritten(old(mem), id, rec, AfterSso(cfg, rec, created, rnd));
      if !reply.DeployTask? {
        Remove(id);
        response := FailureOf(reply);
      } else {
        CommitTask(id, instance, reply.task, writes);
        response := Accepted("provision-" + id);
      }
    }

    /** The lock section after an accepted call, and the save that follows it. */
    method CommitTask(id: string, instance: Instance, taskID: int, writes: bool)
      requires Valid() && id in instances && instances[id] == instance
      modifies this`file, this`mem, instance
      ensures Valid() && Saved(old(file), true, writes)
      ensures mem == old(mem)[id := old(mem)[id].(boshTaskID := taskID)]
    {
      SetTask(id, instance, taskID);
      SaveState(writes);
    }

    method CommitState(id: string, instance: Instance, state: LifeState, writes: bool)
      requires Valid() && id in instances && instances[id] == instance
      modifies this`file, this`mem, instance
      ensures Valid() && Saved(old(file), true, writes)
      ensures mem == old(mem)[id := old(mem)[id].(state := state)]
    {
      SetState(id, instance, state);
      SaveState(writes);
    }

    lemma Overwritten(before: Memory, id: string, rec: Record, next: Record)
      ensures before[id := rec][id := next] == before[id := next]
    {
    }

    method Deprovision(id: string, async: bool, reply: DeleteReply, writes: bool) returns (response: Response)
      requires Valid()
      modifies this, instances.Values
      ensures Valid() && tasks == old(tasks)
      ensures var o := Sequential.Deprovision(old(mem), id, async, reply);
              mem == o.mem && response == o.response
      ensures Saved(old(file), !StartDeprovision(old(mem), id, async).DAnswer? && response.Accepted?, writes)
    {
      if !async {
        return AsyncRequired;
      }
      if id !in instances {
        response := DeprovisionUnknown(id, reply, writes);
        return;
      }
      var instance := instances[id];
      assert instance.ID == id;
      if instance.State == Deprovisioning {
        return Accepted("deprovision-" + id);
      }
      response := DeprovisionKnown(id, instance, reply, writes);
    }

    /** Deletes by naming convention what the broker does not know. */
    method DeprovisionUnknown(id: string, reply: DeleteReply, writes: bool) returns (response: Response)
      requires Valid() && id !in instances
      modifies this
      ensures Valid() && tasks == old(tasks)
      ensures var o := Sequential.Deprovision(old(mem), id, true, reply);
              mem == o.mem && response == o.response
      ensures Saved(old(file), response.Accepted?, writes)
    {
      var stub := Insert(id, Stub(id));
      if !reply.DeleteTask? {
        Remove(id);
        return Gone;
      }
      CommitTask(id, stub, reply.task, writes);
      response := Accepted("deprovision-" + id);
    }

    method DeprovisionKnown(id: string, instance: Instance, reply: DeleteReply, writes: bool)
      returns (response: Response)
      requires Valid() && id in instances && instances[id] == instance && mem[id].state != Deprovisioning
      modifies this`file, this`mem, instance
      ensures Valid()
      ensures var o := Sequential.Deprovision(old(mem), id, true, reply);
              mem == o.mem && response == o.response
      ensures Saved(old(file), response.Accepted?, writes)
    {
      assert instance.ID == id;
      var previousState := instance.State;
      SetState(id, instance, Deprovisioning);
      if reply.DeleteTask? {
        CommitTask(id, instance, reply.task, writes);
        response := Accepted("deprovision-" + id);
      } else {
        SetState(id, instance, previousState);
        response := DeprovisionFailed;
      }
    }

    method Update(id: string, async: bool, request: Option<string>, rnd: Secrets, reply: DeployReply, writes: bool)
      returns (response: Response)
      requires Valid()
      modifies this, instances.Values
      ensures Valid() && tasks == old(tasks)
      ensures var o := Sequential.Update(cfg, old(mem), id, async, request, rnd, reply);
              mem == o.mem && response == o.response
      ensures Saved(old(file), response.Accepted?, writes)
    {
      if !async {
        return AsyncRequired;
      }
      if request.None? {
        return BadRequest;
      }
      UpdateCases(cfg, mem, id, request.value, rnd, reply);
      if id !in instances {
        var plan := PlanForRecovery(request.value);
        response := Recover(id, RecoveredRecord(cfg, id, plan, rnd), reply, writes);
      } else {
        response := Replan(id, request.value, reply, writes);
      }
    }

    /** Update of an id the broker does not know: a recovery record, and no quota check. */
    method Recover(id: string, rec: Record, reply: DeployReply, writes: bool) returns (response: Response)
      requires Valid() && id !in instances && rec.id == id
      modifies this
      ensures Valid() && tasks == old(tasks)
      ensures var o := Sequential.FinishUpdate(old(mem)[id := rec], id, rec, reply);
              mem == o.mem && response == o.response
      ensures Saved(old(file), response.Accepted?, writes)
    {
      var recovered := Insert(id, rec);
      response := Redeploy(id, recovered, reply, writes);
    }

    /** Update of a known id. */
    method Replan(id: string, planID: string, reply: DeployReply, writes: bool) returns (response: Response)
      requires Valid() && id in instances
      modifies this`file, this`mem, instances.Values
      ensures Valid()
      ensures var r := old(mem)[id];
              if planID == "" || planID == r.planID then
                var o := Sequential.FinishUpdate(old(mem), id, r, reply);
                mem == o.mem && response == o.response
              else
                match FindPlan(cfg, planID)
                case None => mem == old(mem) && response == UnknownPlan
                case Some(plan) =>
                  var rec := OnPlan(r, planID, plan);
                  var o := Sequential.FinishUpdate(old(mem)[id := rec], id, rec, reply);
                  mem == o.mem && response == o.response
      ensures Saved(old(file), response.Accepted?, writes)
    {
      var instance := instances[id];
      assert instance.ID == id;
      if planID != "" && planID != instance.PlanID {
        var plan := FindPlanByID(planID);
        if plan.None? {
          return UnknownPlan;
        }
        SetPlan(id, instance, planID, plan.value);
      }
      response := Redeploy(id, instance, reply, writes);
    }

    /** The deployment that closes every update. */
    method Redeploy(id: string, instance: Instance, reply: DeployReply, writes: bool) returns (response: Response)
      requires Valid() && id in instances && instances[id] == instance
      modifies this`file, this`mem, instance
      ensures Valid()
      ensures var o := Sequential.FinishUpdate(old(mem), id, old(mem)[id], reply);
              mem == o.mem && response == o.response
      ensures Saved(old(file), response.Accepted?, writes)
    {
      if !reply.DeployTask? {
        return FailureOf(reply);
      }
      SetRedeployed(id, instance, reply.task);
      SaveState(writes);
      response := Accepted("update-" + id);
    }

    method LastOperation(id: string, answer: TaskAnswer, writes: bool) returns (response: Response)
      requires Valid()
      modifies this, instances.Values
      ensures Valid() && tasks == old(tasks)
      ensures var o := Sequential.Poll(old(mem), id, answer);
              mem == o.mem && response == o.response
      ensures Saved(old(file), Restart.PollWrites(old(mem), id, answer), writes)
    {
      if id !in instances {
        return NotFound;
      }
      var instance := instances[id];
      assert instance.ID == id;
      var state, taskID := instance.State, instance.BoshTaskID;
      var report := InProgress;
      match state {
        case Provisioning =>
          if taskID != 0 {
            report := PollDeploy(id, instance, answer, writes);
          }
        case Deprovisioning =>
          if taskID != 0 {
            report := PollDelete(id, answer, writes);
          }
        case Ready => report := Succeeded;
        case Failed => report := OpFailed;
        case _ =>
      }
      response := Response.LastOperation(report);
    }

    method PollDeploy(id: string, instance: Instance, answer: TaskAnswer, writes: bool) returns (report: OpReport)
      requires Valid() && id in instances && instances[id] == instance
      modifies this`file, this`mem, instance
      ensures Valid() && report == ReportAfterQuery(answer)
      ensures mem == match EffectOfPoll(Provisioning, answer)
                     case SetState(st) => old(mem)[id := old(mem)[id].(state := st)]
                     case _ => old(mem)
      ensures Saved(old(file), Terminal(answer), writes)
    {
      if answer.TaskDone? {
        CommitState(id, instance, Ready, writes);
        report := Succeeded;
      } else if answer.TaskError? || answer.TaskCancelled? {
        CommitState(id, instance, Failed, writes);
        report := OpFailed;
      } else {
        report := InProgress;
      }
    }

    method PollDelete(id: string, answer: TaskAnswer, writes: bool) returns (report: OpReport)
      requires Valid() && id in instances
      modifies this`file, this`mem, this`instances
      ensures Valid() && report == ReportAfterQuery(answer)
      ensures mem == if answer.TaskDone? then old(mem) - {id} else old(mem)
      ensures Saved(old(file), answer.TaskDone?, writes)
    {
      if answer.TaskDone? {
        Remove(id);
        SaveState(writes);
        report := Succeeded;
      } else if answer.TaskError? || answer.TaskCancelled? {
        report := OpFailed;
      } else {
        report := InProgress;
      }
    }

    method Bind(id: string) returns (response: Response)
      requires Valid()
      ensures response == Sequential.Bind(mem, id)
    {
      if id !in instances {
        return NotFound;
      }
      var instance := instances[id];
      assert instance.ID == id;
      if instance.State != Ready {
        return NotReady;
      }
      response := Bound(Credentials(instance.RouteHostname, instance.AppsDomain, instance.GatewayToken,
                                    instance.NodeSeed, instance.ID, instance.Owner, instance.PlanName,
                                    instance.OpenClawVersion, instance.SSOEnabled));
    }

    /** One entry for each instance that is not being deprovisioned. */
    method AdminListInstances() returns (list: seq<Listing>)
      requires Valid()
      ensures forall i :: 0 <= i < |list| ==>
                && list[i].id in ActiveIn(mem)
                && var r := mem[list[i].id];
                   list[i] == Listing(r.id, r.deploymentName, r.state, r.openClawVersion, r.planName, r.owner)
      ensures forall i, j :: 0 <= i < j < |list| ==> list[i].id != list[j].id
      ensures |list| == |ActiveIn(mem)|
    {
      list := [];
      ghost var ids: seq<string> := [];
      var keys := instances.Keys;
      while keys != {}
        invariant keys <= instances.Keys && Sequential.Distinct(ids) && |list| == |ids|
        invariant forall k :: k in ids <==> k in ActiveIn(mem) && k !in keys
        invariant forall i :: 0 <= i < |ids| ==>
                    && ids[i] in mem && list[i].id == ids[i]
                    && var r := mem[ids[i]];
                       list[i] == Listing(r.id, r.deploymentName, r.state, r.openClawVersion, r.planName, r.owner)
        decreases keys
      {
        var k :| k in keys;
        keys := keys - {k};
        var inst := instances[k];
        assert inst.ID == k && inst.Rec() == mem[k];
        if inst.State == Deprovisioning {
          continue;
        }
        list := list + [Listing(inst.ID, inst.DeploymentName, inst.State, inst.OpenClawVersion, inst.PlanName,
                                inst.Owner)];
        ids := ids + [k];
      }
      DistinctSize(ids);
      assert (set k | k in ids) == ActiveIn(mem);
      assert forall i :: 0 <= i < |ids| ==> ids[i] in ids;
    }

    /** The candidate loop: any order, early exit at count. */
    method CollectCandidates(count: int) returns (candidates: seq<Instance>, ghost chosen: seq<string>)
      requires Valid() && count > 0
      ensures |candidates| == |chosen|
      ensures forall i :: 0 <= i < |chosen| ==> chosen[i] in instances && candidates[i] == instances[chosen[i]]
      ensures Sequential.CandidateChoice(cfg.openClawVersion, mem, count, chosen)
    {
      candidates, chosen := [], [];
      var version := cfg.openClawVersion;
      ghost var outdated := OutdatedKeys(version, mem);
      var keys := instances.Keys;
      while keys != {}
        invariant keys <= instances.Keys && |candidates| == |chosen| && Sequential.Distinct(chosen)
        invariant |chosen| < count
        invariant forall i :: 0 <= i < |chosen| ==>
                    chosen[i] in outdated && chosen[i] !in keys && candidates[i] == instances[chosen[i]]
        invariant forall k :: k in outdated && k !in keys ==> k in chosen
        decreases keys
      {
        var k :| k in keys;
        keys := keys - {k};
        var inst := instances[k];
        assert inst.ID == k;
        if inst.State == Deprovisioning {
          continue;
        }
        if inst.OpenClawVersion != version {
          candidates := candidates + [inst];
          chosen := chosen + [k];
        }
        if |candidates| >= count {
          ChosenWithin(chosen, outdated);
          return;
        }
      }
      DistinctSize(chosen);
      assert (set k | k in chosen) == outdated;
    }

    lemma ChosenWithin(chosen: seq<string>, outdated: set<string>)
      requires Sequential.Distinct(chosen) && forall i :: 0 <= i < |chosen| ==> chosen[i] in outdated
      ensures |chosen| <= |outdated|
    {
      DistinctSize(chosen);
      var picked := set k | k in chosen;
      assert outdated == picked + (outdated - picked);
    }

    method AdminUpgrade(count: int, replies: seq<DeployReply>, writes: bool)
      returns (response: Response, ghost chosen: seq<string>)
      requires Valid()
      modifies this, instances.Values
      ensures Valid() && instances == old(instances)
      ensures count <= 0 ==>
                response == BadRequest && mem == old(mem) && tasks == old(tasks) && file == old(file)
      ensures count > 0 ==>
                var version := cfg.openClawVersion;
                && Sequential.CandidateChoice(version, old(mem), count, chosen)
                && mem == Sequential.UpgradeFirst(version, old(mem), chosen, replies, |chosen|)
                && tasks == Sequential.TrackFirst(old(tasks), chosen, replies, |chosen|)
                && response == Upgrading(Sequential.AcceptedFirst(replies, |chosen|))
                && Saved(old(file), true, writes)
    {
      if count <= 0 {
        chosen := [];
        response := BadRequest;
      } else {
        var candidates;
        candidates, chosen := CollectCandidates(count);
        var upgraded := DeployAll(candidates, chosen, replies);
        SaveState(writes);
        response := Upgrading(upgraded);
      }
    }

    /** The deploy loop: a failed deploy is skipped. */
    method DeployAll(candidates: seq<Instance>, ghost chosen: seq<string>, replies: seq<DeployReply>)
      returns (upgraded: nat)
      requires Valid() && |candidates| == |chosen|
      requires forall i :: 0 <= i < |chosen| ==> chosen[i] in instances && candidates[i] == instances[chosen[i]]
      modifies this`tasks, this`mem, instances.Values
      ensures Valid() && upgraded == Sequential.AcceptedFirst(replies, |chosen|)
      ensures mem == Sequential.UpgradeFirst(cfg.openClawVersion, old(mem), chosen, replies, |chosen|)
      ensures tasks == Sequential.TrackFirst(old(tasks), chosen, replies, |chosen|)
    {
      upgraded := 0;
      for i := 0 to |candidates|
        invariant Valid()
        invariant mem == Sequential.UpgradeFirst(cfg.openClawVersion, old(mem), chosen, replies, i)
        invariant tasks == Sequential.TrackFirst(old(tasks), chosen, replies, i)
        invariant upgraded == Sequential.AcceptedFirst(replies, i)
      {
        var reply := Sequential.ReplyAt(replies, i);
        if !reply.DeployTask? {
          continue;
        }
        UpgradeOne(chosen[i], candidates[i], reply.task);
        upgraded := upgraded + 1;
      }
    }

    method UpgradeOne(ghost k: string, inst: Instance, taskID: int)
      requires Valid() && k in instances && instances[k] == inst
      modifies this`tasks, this`mem, inst
      ensures Valid() && instances == old(instances)
      ensures mem == old(mem)[k := Upgraded(cfg.openClawVersion, old(mem)[k], taskID)]
      ensures tasks == old(tasks)[k := taskID]
    {
      inst.WriteUpgrade(taskID, cfg.openClawVersion);
      mem := mem[k := Upgraded(cfg.openClawVersion, mem[k], taskID)];
      Rewritten(k);
      tasks := tasks[inst.ID := taskID];
    }

    method AdminUpgradeStatus(answers: map<string, TaskAnswer>, writes: bool) returns (response: Response)
      requires Valid()
      modifies this`file, this`mem, instances.Values
      ensures Valid() && instances == old(instances) && tasks == old(tasks)
      ensures mem == Sequential.CheckTracked(old(mem), tasks.Keys, answers)
      ensures response == Sequential.StatusReply(tasks.Keys, answers)
      ensures Saved(old(file), true, writes)
    {
      var healthy, failed, inProgress := CheckAll(answers);
      SaveState(writes);
      response := UpgradeStatus(healthy, |tasks|, failed, inProgress);
    }

    /** The loop over the tracked ids, with the counts it keeps. */
    method CheckAll(answers: map<string, TaskAnswer>) returns (healthy: nat, failed: nat, inProgress: nat)
      requires Valid()
      modifies this`mem, instances.Values
      ensures Valid() && instances == old(instances)
      ensures mem == Sequential.CheckTracked(old(mem), tasks.Keys, answers)
      ensures Sequential.Tallied(tasks.Keys, answers, healthy, failed, inProgress)
    {
      healthy, failed, inProgress := 0, 0, 0;
      var todo := tasks.Keys;
      ghost var seen: set<string> := {};
      while todo != {}
        invariant todo <= tasks.Keys && seen == tasks.Keys - todo && Valid()
        invariant mem == Sequential.CheckTracked(old(mem), seen, answers)
        invariant Sequential.Tallied(seen, answers, healthy, failed, inProgress)
        decreases todo
      {
        var id :| id in todo;
        todo := todo - {id};
        Sequential.OneMoreTallied(seen, id, answers, healthy, failed, inProgress);
        var answer := Sequential.AnswerFor(answers, id);
        Settle(id, answer, old(mem), seen, answers);
        if answer.TaskUnreachable? {
          failed := failed + 1;
        } else if answer.TaskDone? {
          healthy := healthy + 1;
        } else if answer.TaskError? || answer.TaskCancelled? {
          failed := failed + 1;
        } else {
          inProgress := inProgress + 1;
        }
        seen := seen + {id};
      }
      assert seen == tasks.Keys;
    }

    /** Writes the state of an instance that is still in the map. */
    method Settle(id: string, answer: TaskAnswer, ghost was: Memory, ghost seen: set<string>,
                  ghost answers: map<string, TaskAnswer>)
      requires Valid() && id !in seen && answer == Sequential.AnswerFor(answers, id)
      requires mem == Sequential.CheckTracked(was, seen, answers)
      modifies this`mem, instances.Values
      ensures Valid()
      ensures mem == Sequential.CheckTracked(was, seen + {id}, answers)
    {
      Sequential.OneMoreSettled(was, seen, id, answers);
      if id in instances {
        if answer.TaskDone? {
          SetState(id, instances[id], Ready);
        } else if answer.TaskError? || answer.TaskCancelled? {
          SetState(id, instances[id], Failed);
        }
      }
    }
  }
}
