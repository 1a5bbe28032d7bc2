/** Handlers run alone: each as one function from the instance map and the answers it gets
    to the new map and its reply, then failure atomicity, the lifecycle, credentials, and
    the accounting of rolling upgrades with their tracker and status checks. */
module Sequential {
  import opened Strings
  import opened Domain
  import opened Handlers
  import Hostname
  import VersionGate

  datatype Outcome = Outcome(mem: Memory, response: Response)

  // ---------- one handler, start to end ----------

  function Provision(cfg: Config, mem: Memory, id: string, async: bool, body: Option<ProvisionRequest>, rnd: Secrets,
                     created: bool, reply: DeployReply): Outcome
  {
    match Admit(cfg, mem, id, async, body, rnd)
    case Reject(why) => Outcome(mem, why)
    case Reserve(rec) => FinishProvision(mem, id, AfterSso(cfg, rec, created, rnd), reply)
  }

  /** From reserving the slot on. */
  function FinishProvision(mem: Memory, id: string, rec: Record, reply: DeployReply): Outcome {
    var reserved := mem[id := rec];
    if reply.DeployTask?
    then Outcome(reserved[id := rec.(boshTaskID := reply.task)], Accepted("provision-" + id))
    else Outcome(reserved - {id}, FailureOf(reply))
  }

  function Deprovision(mem: Memory, id: string, async: bool, reply: DeleteReply): Outcome {
    match StartDeprovision(mem, id, async)
    case DAnswer(why) => Outcome(mem, why)
    case DStub(rec) =>
      var marked := mem[id := rec];
      if reply.DeleteTask?
      then Outcome(marked[id := rec.(boshTaskID := reply.task)], Accepted("deprovision-" + id))
      else Outcome(marked - {id}, Gone)
    case DMark(rec, previous) =>
      var marked := mem[id := rec];
      if reply.DeleteTask?
      then Outcome(marked[id := rec.(boshTaskID := reply.task)], Accepted("deprovision-" + id))
      else Outcome(marked[id := rec.(state := previous)], DeprovisionFailed)
  }

  function Update(cfg: Config, mem: Memory, id: string, async: bool, request: Option<string>, rnd: Secrets,
                  reply: DeployReply): Outcome
  {
    match StartUpdate(cfg, mem, id, async, request, rnd)
    case URefuse(why) => Outcome(mem, why)
    case UAdopt(rec) => FinishUpdate(mem[id := rec], id, rec, reply)
    case URedeploy(rec) => FinishUpdate(mem[id := rec], id, rec, reply)
  }

  function FinishUpdate(mem: Memory, id: string, rec: Record, reply: DeployReply): Outcome {
    if reply.DeployTask?
    then Outcome(mem[id := Redeployed(rec, reply.task)], Accepted("update-" + id))
    else Outcome(mem, FailureOf(reply))
  }

  function Poll(mem: Memory, id: string, answer: TaskAnswer): Outcome {
    if id !in mem then Outcome(mem, NotFound)
    else
      var r := mem[id];
      if !NeedsQuery(r.state, r.boshTaskID) then Outcome(mem, LastOperation(ReportWithoutQuery(r.state)))
      else
        var reply := LastOperation(ReportAfterQuery(answer));
        match EffectOfPoll(r.state, answer)
        case NoEffect => Outcome(mem, reply)
        case SetState(st) => Outcome(mem[id := r.(state := st)], reply)
        case Forget => Outcome(mem - {id}, reply)
  }

  function Bind(mem: Memory, id: string): Response {
    if id in mem then BindReply(mem[id]) else NotFound
  }

  // ---------- failure atomicity and the lifecycle ----------

  /** A Provision or Deprovision that is not answered 202 leaves every entry exactly as
      it was, also after reserving, marking, or adopting and rolling back. */
  lemma FailedProvisionLeavesMap(cfg: Config, mem: Memory, id: string, async: bool, body: Option<ProvisionRequest>,
                                 rnd: Secrets, created: bool, reply: DeployReply)
    ensures var o := Provision(cfg, mem, id, async, body, rnd, created, reply);
            !o.response.Accepted? ==> o.mem == mem
  {
    var a := Admit(cfg, mem, id, async, body, rnd);
    AdmittedIsNew(cfg, mem, id, async, body, rnd);
    if a.Reserve? {
      RolledBack(mem, id, AfterSso(cfg, a.rec, created, rnd), reply);
    }
  }

  lemma AdmittedIsNew(cfg: Config, mem: Memory, id: string, async: bool, body: Option<ProvisionRequest>, rnd: Secrets)
    ensures var a := Admit(cfg, mem, id, async, body, rnd);
            && (a.Reserve? ==> id !in mem && a.rec.state == Provisioning && a.rec.id == id)
            && (a.Reject? ==> !a.why.Accepted?)
  {
  }

  lemma RolledBack(mem: Memory, id: string, rec: Record, reply: DeployReply)
    requires id !in mem
    ensures var o := FinishProvision(mem, id, rec, reply);
            && (o.response.Accepted? <==> reply.DeployTask?)
            && (!reply.DeployTask? ==> o.mem == mem)
            && (reply.DeployTask? ==> o.mem == mem[id := rec.(boshTaskID := reply.task)])
  {
  }

  lemma FailedDeprovisionLeavesMap(mem: Memory, id: string, async: bool, reply: DeleteReply)
    ensures var o := Deprovision(mem, id, async, reply);
            !o.response.Accepted? ==> o.mem == mem
  {
  }

  /** Which requests are answered 202, and that those change the one entry only. */
  lemma ProvisionAcceptedExactly(cfg: Config, mem: Memory, id: string, async: bool, body: Option<ProvisionRequest>,
                                 rnd: Secrets, created: bool, reply: DeployReply)
    ensures var o := Provision(cfg, mem, id, async, body, rnd, created, reply);
            && (o.response.Accepted? <==> Admit(cfg, mem, id, async, body, rnd).Reserve? && reply.DeployTask?)
            && (o.response.Accepted? ==>
                  id !in mem && id in o.mem && o.mem[id].state == Provisioning && o.mem - {id} == mem)
  {
    var a := Admit(cfg, mem, id, async, body, rnd);
    AdmittedIsNew(cfg, mem, id, async, body, rnd);
    if a.Reserve? {
      var rec := AfterSso(cfg, a.rec, created, rnd);
      RolledBack(mem, id, rec, reply);
      if reply.DeployTask? {
        AddedEntry(mem, id, rec.(boshTaskID := reply.task));
      }
    }
  }

  lemma AddedEntry(mem: Memory, id: string, rec: Record)
    ensures mem[id := rec] - {id} == mem - {id}
    ensures id !in mem ==> mem - {id} == mem
  {
  }

  lemma DeprovisionAcceptedExactly(mem: Memory, id: string, async: bool, reply: DeleteReply)
    ensures var o := Deprovision(mem, id, async, reply);
            && (o.response.Accepted? <==>
                  async && (reply.DeleteTask? || (id in mem && mem[id].state == Deprovisioning)))
            && (o.response.Accepted? ==>
                  id in o.mem && o.mem[id].state == Deprovisioning && o.mem - {id} == mem - {id})
  {
  }

  /** Exactly which provision requests get a slot. */
  lemma AdmitsExactly(cfg: Config, mem: Memory, id: string, async: bool, body: Option<ProvisionRequest>, rnd: Secrets,
                      plans: seq<Plan>, i: nat)
    requires Offers(cfg, plans) && (body.Some? ==> PlanAt(plans, body.value.planID, i))
    ensures Admit(cfg, mem, id, async, body, rnd).Reserve? <==>
            && Hostname.ValidInstanceID(id) && async && body.Some? && id !in mem
            && (cfg.maxInstances > 0 ==> |ActiveIn(mem)| < cfg.maxInstances)
            && (cfg.maxInstancesPerOrg > 0 ==> |ActiveOf(mem, body.value.orgGUID)| < cfg.maxInstancesPerOrg)
            && (cfg.minOpenClawVersion != "" ==> MeetsMinimum(cfg.openClawVersion, cfg.minOpenClawVersion))
            && plans[i].id == body.value.planID
            && (cfg.azs != [] || plans[i].azs != [])
            && cfg.appsDomain != ""
  {
    if body.Some? {
      AdmitsInSlot(cfg, mem, id, async, body.value, rnd);
      QuotasAllow(cfg, mem, body.value.orgGUID);
      ConfigAdmitsExactly(cfg, id, body.value, rnd, plans, i);
    }
  }

  lemma AdmitsInSlot(cfg: Config, mem: Memory, id: string, async: bool, req: ProvisionRequest, rnd: Secrets)
    ensures Admit(cfg, mem, id, async, Some(req), rnd).Reserve? <==>
            && Hostname.ValidInstanceID(id) && async && id !in mem
            && !OverQuota(cfg, mem, None) && !OverQuota(cfg, mem, Some(req.orgGUID))
            && AdmitConfigured(cfg, id, req, rnd).Reserve?
  {
  }

  lemma QuotasAllow(cfg: Config, mem: Memory, org: string)
    ensures !OverQuota(cfg, mem, None) <==> (cfg.maxInstances > 0 ==> |ActiveIn(mem)| < cfg.maxInstances)
    ensures !OverQuota(cfg, mem, Some(org))
            <==> (cfg.maxInstancesPerOrg > 0 ==> |ActiveOf(mem, org)| < cfg.maxInstancesPerOrg)
  {
    CountsActive(mem, org);
  }

  lemma ConfigAdmitsExactly(cfg: Config, id: string, req: ProvisionRequest, rnd: Secrets, plans: seq<Plan>, i: nat)
    requires Offers(cfg, plans) && PlanAt(plans, req.planID, i)
    ensures AdmitConfigured(cfg, id, req, rnd).Reserve? <==>
            && (cfg.minOpenClawVersion != "" ==> MeetsMinimum(cfg.openClawVersion, cfg.minOpenClawVersion))
            && plans[i].id == req.planID && (cfg.azs != [] || plans[i].azs != []) && cfg.appsDomain != ""
  {
    VersionGate.AcceptsExactly(cfg.openClawVersion, cfg.minOpenClawVersion);
    PlanIsFound(cfg, plans, req.planID, i);
  }

  predicate MeetsMinimum(version: string, minimum: string) {
    var v, m := VersionGate.ParseVersion(version), VersionGate.ParseVersion(minimum);
    version != "" && v.Some? && m.Some? && VersionGate.AtLeast(v.value, m.value)
  }

  /** What a client that provisions, waits for the task and binds gets: the secrets drawn
      for it, a route made from its owner and id, the plan it asked for, and SSO exactly
      when it is configured, a UAA client can be made and was made. */
  lemma ProvisionedCredentials(cfg: Config, mem: Memory, id: string, body: Option<ProvisionRequest>, rnd: Secrets,
                               created: bool, task: int, plans: seq<Plan>, i: nat)
    requires task != 0
    requires Offers(cfg, plans) && (body.Some? ==> PlanAt(plans, body.value.planID, i))
    ensures var up := Provision(cfg, mem, id, true, body, rnd, created, DeployTask(task)).mem;
            Admit(cfg, mem, id, true, body, rnd).Reserve? ==>
            var owner := if body.value.owner.Some? then body.value.owner.value else "user";
            Bind(Poll(up, id, TaskDone).mem, id)
            == Bound(Credentials(
                 Hostname.UniqueRouteHostname(Hostname.OwnerLabel(owner), id), cfg.appsDomain, rnd.gatewayToken,
                 rnd.nodeSeed, id, owner, plans[i].name, cfg.openClawVersion,
                 cfg.ssoEnabled && cfg.cfUaaURL != "" && cfg.cfUaaSecret != "" && created))
  {
    var a := Admit(cfg, mem, id, true, body, rnd);
    if a.Reserve? {
      var rec := AfterSso(cfg, a.rec, created, rnd);
      PlanIsFound(cfg, plans, body.value.planID, i);
      AdmittedIsNew(cfg, mem, id, true, body, rnd);
      RolledBack(mem, id, rec, DeployTask(task));
      ReadyBinds(mem, id, rec, task);
    }
  }

  lemma ReadyBinds(mem: Memory, id: string, rec: Record, task: int)
    requires rec.state == Provisioning && task != 0
    ensures Bind(Poll(mem[id := rec.(boshTaskID := task)], id, TaskDone).mem, id)
         == Bound(Credentials(rec.routeHostname, rec.appsDomain, rec.gatewayToken, rec.nodeSeed, rec.id, rec.owner,
                              rec.planName, rec.openClawVersion, rec.ssoEnabled))
  {
  }

  /** The request moves a known instance to another plan. */
  predicate MovesPlan(mem: Memory, id: string, planID: string) {
    id in mem && planID != "" && planID != mem[id].planID
  }

  /** What an accepted Update leaves for a client to bind once its task is done. A known
      instance keeps its credentials, except for the plan name, which is that of the plan
      asked for: the token is not rotated. An unknown one is adopted with new secrets, a
      route of its own and the plan asked for, or the first one. A task id of zero is never
      seen to finish. */
  lemma UpdatedCredentials(cfg: Config, mem: Memory, id: string, planID: string, rnd: Secrets, task: int,
                           plans: seq<Plan>, i: nat)
    requires Offers(cfg, plans) && PlanAt(plans, planID, i)
    requires Update(cfg, mem, id, true, Some(planID), rnd, DeployTask(task)).response.Accepted?
    ensures var up := Update(cfg, mem, id, true, Some(planID), rnd, DeployTask(task)).mem;
            Bind(Poll(up, id, TaskDone).mem, id)
            == if task == 0 then NotReady
               else if id in mem then
                 var r := mem[id];
                 Bound(Credentials(r.routeHostname, r.appsDomain, r.gatewayToken, r.nodeSeed, r.id, r.owner,
                                   if MovesPlan(mem, id, planID) then plans[i].name else r.planName,
                                   r.openClawVersion, r.ssoEnabled))
               else
                 Bound(Credentials(Hostname.UniqueRouteHostname("recovered", id), cfg.appsDomain, rnd.gatewayToken,
                                   rnd.nodeSeed, id, "recovered", plans[i].name, cfg.openClawVersion, cfg.ssoEnabled))
    ensures MovesPlan(mem, id, planID) ==> plans[i].id == planID
  {
    var u := StartUpdate(cfg, mem, id, true, Some(planID), rnd);
    PlanIsFound(cfg, plans, planID, i);
    SameAsRestarted(mem, id, u.rec, task);
    if task != 0 {
      ReadyBinds(mem, id, u.rec.(state := Provisioning), task);
    } else {
      ZeroTaskNotReady(mem, id, u.rec);
    }
  }

  lemma SameAsRestarted(mem: Memory, id: string, rec: Record, task: int)
    ensures mem[id := rec][id := Redeployed(rec, task)]
         == mem[id := rec.(state := Provisioning).(boshTaskID := task)]
  {
  }

  lemma ZeroTaskNotReady(mem: Memory, id: string, rec: Record)
    ensures Bind(Poll(mem[id := Redeployed(rec, 0)], id, TaskDone).mem, id) == NotReady
  {
  }

  /** Provision, poll done, Deprovision, poll done, for an id the map does not hold and
      requests that are accepted: the agent can be bound in between exactly when the
      deploy task id is not zero, and the map is back at its starting value exactly
      when the delete task id is not zero (zero means "no task yet" to a poll). */
  lemma LifecycleRoundTrip(cfg: Config, mem: Memory, id: string, body: Option<ProvisionRequest>, rnd: Secrets,
                           created: bool, task1: int, task2: int)
    ensures var up := Provision(cfg, mem, id, true, body, rnd, created, DeployTask(task1)).mem;
            var ready := Poll(up, id, TaskDone).mem;
            var down := Deprovision(ready, id, true, DeleteTask(task2)).mem;
            var gone := Poll(down, id, TaskDone).mem;
            Admit(cfg, mem, id, true, body, rnd).Reserve? ==>
              (Bind(ready, id).Bound? <==> task1 != 0) && (gone == mem <==> task2 != 0)
  {
    var a := Admit(cfg, mem, id, true, body, rnd);
    if a.Reserve? {
      AdmittedIsNew(cfg, mem, id, true, body, rnd);
      var rec := AfterSso(cfg, a.rec, created, rnd);
      RolledBack(mem, id, rec, DeployTask(task1));
      assert rec.state == Provisioning;
      PolledUp(mem, id, rec, task1);
      var ready := Poll(mem[id := rec.(boshTaskID := task1)], id, TaskDone).mem;
      TakenDown(mem, id, ready[id], task2);
    }
  }

  lemma PolledUp(mem: Memory, id: string, rec: Record, task: int)
    requires rec.state == Provisioning
    ensures var ready := Poll(mem[id := rec.(boshTaskID := task)], id, TaskDone).mem;
            && id in ready && ready == mem[id := ready[id]]
            && ready[id].state == if task != 0 then Ready else Provisioning
  {
  }

  lemma TakenDown(mem: Memory, id: string, rec: Record, task: int)
    requires id !in mem && rec.state != Deprovisioning
    ensures var down := Deprovision(mem[id := rec], id, true, DeleteTask(task)).mem;
            Poll(down, id, TaskDone).mem == mem <==> task != 0
  {
  }

  // ---------- rolling upgrade ----------

  /** Which records the candidate loop may pick, over all map iteration orders. */
  ghost predicate CandidateChoice(version: string, mem: Memory, count: int, chosen: seq<string>) {
    var outdated := OutdatedKeys(version, mem);
    (forall i :: 0 <= i < |chosen| ==> chosen[i] in outdated)
    && (forall i, j :: 0 <= i < j < |chosen| ==> chosen[i] != chosen[j])
    && |chosen| == if count < |outdated| then count else |outdated|
  }

  function ReplyAt(replies: seq<DeployReply>, i: nat): DeployReply {
    if i < |replies| then replies[i] else DeployRefused
  }

  /** The deploy loop over the first n candidates. */
  function UpgradeFirst(version: string, mem: Memory, chosen: seq<string>, replies: seq<DeployReply>, n: nat): Memory
    requires n <= |chosen|
  {
    if n == 0 then mem
    else
      var before := UpgradeFirst(version, mem, chosen, replies, n - 1);
      var k := chosen[n - 1];
      var reply := ReplyAt(replies, n - 1);
      if reply.DeployTask? && k in before then before[k := Upgraded(version, before[k], reply.task)] else before
  }

  function TrackFirst(tracker: map<string, int>, chosen: seq<string>, replies: seq<DeployReply>, n: nat)
    : map<string, int>
    requires n <= |chosen|
  {
    if n == 0 then tracker
    else
      var before := TrackFirst(tracker, chosen, replies, n - 1);
      var reply := ReplyAt(replies, n - 1);
      if reply.DeployTask? then before[chosen[n - 1] := reply.task] else before
  }

  function AcceptedFirst(replies: seq<DeployReply>, n: nat): nat {
    if n == 0 then 0
    else AcceptedFirst(replies, n - 1) + if ReplyAt(replies, n - 1).DeployTask? then 1 else 0
  }

  /** The candidates among the first n whose deploy was accepted. */
  function UpgradedKeys(chosen: seq<string>, replies: seq<DeployReply>, n: nat): set<string>
    requires n <= |chosen|
  {
    set i | 0 <= i < n && ReplyAt(replies, i).DeployTask? :: chosen[i]
  }

  ghost predicate Distinct(chosen: seq<string>) {
    forall i, j :: 0 <= i < j < |chosen| ==> chosen[i] != chosen[j]
  }

  lemma UpgradedKeysStep(chosen: seq<string>, replies: seq<DeployReply>, n: nat)
    requires 0 < n <= |chosen| && Distinct(chosen)
    ensures chosen[n - 1] !in UpgradedKeys(chosen, replies, n - 1)
    ensures UpgradedKeys(chosen, replies, n)
            == UpgradedKeys(chosen, replies, n - 1)
               + if ReplyAt(replies, n - 1).DeployTask? then {chosen[n - 1]} else {}
  {
  }

  lemma {:induction false} UpgradedKeysSize(chosen: seq<string>, replies: seq<DeployReply>, n: nat)
    requires n <= |chosen| && Distinct(chosen)
    ensures |UpgradedKeys(chosen, replies, n)| == AcceptedFirst(replies, n)
  {
    if n > 0 {
      UpgradedKeysSize(chosen, replies, n - 1);
      UpgradedKeysStep(chosen, replies, n);
    }
  }

  lemma {:induction false} UpgradeKeepsKeys(version: string, mem: Memory, chosen: seq<string>,
                                            replies: seq<DeployReply>, n: nat)
    requires n <= |chosen|
    ensures UpgradeFirst(version, mem, chosen, replies, n).Keys == mem.Keys
  {
    if n > 0 {
      UpgradeKeepsKeys(version, mem, chosen, replies, n - 1);
    }
  }

  /** One key of the loop's result: upgraded if its deploy was accepted, else as it was. */
  lemma {:induction false} UpgradeEffect(version: string, mem: Memory, chosen: seq<string>, replies: seq<DeployReply>,
                                         n: nat, k: string)
    requires n <= |chosen| && Distinct(chosen) && k in mem
    ensures k in UpgradeFirst(version, mem, chosen, replies, n)
    ensures var r := UpgradeFirst(version, mem, chosen, replies, n)[k];
            if k in UpgradedKeys(chosen, replies, n) then r == Upgraded(version, mem[k], r.boshTaskID) else r == mem[k]
  {
    UpgradeKeepsKeys(version, mem, chosen, replies, n);
    if n > 0 {
      UpgradeKeepsKeys(version, mem, chosen, replies, n - 1);
      UpgradeEffect(version, mem, chosen, replies, n - 1, k);
      UpgradedKeysStep(chosen, replies, n);
    }
  }

  /** An AdminUpgrade call run alone: it picks min(count, outdated) distinct outdated
      records and, also when deploys fail, what is outdated afterwards is exactly what
      was outdated before without the accepted ones, so the numbers add up. */
  lemma UpgradeAccounting(version: string, mem: Memory, count: int, chosen: seq<string>, replies: seq<DeployReply>)
    requires count > 0 && CandidateChoice(version, mem, count, chosen)
    ensures var after := UpgradeFirst(version, mem, chosen, replies, |chosen|);
            && OutdatedKeys(version, after) == OutdatedKeys(version, mem) - UpgradedKeys(chosen, replies, |chosen|)
            && |OutdatedKeys(version, after)| + AcceptedFirst(replies, |chosen|) == |OutdatedKeys(version, mem)|
  {
    UpgradedKeysSize(chosen, replies, |chosen|);
    UpgradeKeepsKeys(version, mem, chosen, replies, |chosen|);
    var after := UpgradeFirst(version, mem, chosen, replies, |chosen|);
    var done := UpgradedKeys(chosen, replies, |chosen|);
    forall k | k in mem
      ensures k in OutdatedKeys(version, after) <==> k in OutdatedKeys(version, mem) && k !in done
    {
      UpgradeEffect(version, mem, chosen, replies, |chosen|, k);
    }
    assert OutdatedKeys(version, after) == OutdatedKeys(version, mem) - done;
    assert done <= OutdatedKeys(version, mem);
  }

  /** A record upgraded by the loop is provisioning, and the task it waits for is the one
      the tracker holds for it. */
  lemma {:induction false} UpgradeTracksTask(version: string, mem: Memory, tracker: map<string, int>,
                                             chosen: seq<string>, replies: seq<DeployReply>, n: nat, k: string)
    requires n <= |chosen| && Distinct(chosen) && k in mem && k in UpgradedKeys(chosen, replies, n)
    ensures k in UpgradeFirst(version, mem, chosen, replies, n) && k in TrackFirst(tracker, chosen, replies, n)
    ensures var r := UpgradeFirst(version, mem, chosen, replies, n)[k];
            r.state == Provisioning && r.boshTaskID == TrackFirst(tracker, chosen, replies, n)[k]
  {
    UpgradeKeepsKeys(version, mem, chosen, replies, n);
    UpgradeKeepsKeys(version, mem, chosen, replies, n - 1);
    UpgradedKeysStep(chosen, replies, n);
    if k != chosen[n - 1] {
      UpgradeTracksTask(version, mem, tracker, chosen, replies, n - 1, k);
    }
  }

  predicate AllAccepted(replies: seq<DeployReply>, n: nat) {
    |replies| >= n && forall i :: 0 <= i < n ==> replies[i].DeployTask?
  }

  lemma {:induction false} AllAcceptedCount(replies: seq<DeployReply>, n: nat)
    requires AllAccepted(replies, n)
    ensures AcceptedFirst(replies, n) == n
  {
    if n > 0 {
      AllAcceptedCount(replies, n - 1);
    }
  }

  /** Repeated calls with one count, each with its own choice and all deploys accepted. */
  datatype UpgradeCall = UpgradeCall(chosen: seq<string>, replies: seq<DeployReply>)

  ghost predicate FlawlessCalls(version: string, mem: Memory, count: int, calls: seq<UpgradeCall>)
    decreases |calls|
  {
    calls == [] ||
    (CandidateChoice(version, mem, count, calls[0].chosen)
     && AllAccepted(calls[0].replies, |calls[0].chosen|)
     && FlawlessCalls(version, AfterCall(version, mem, calls[0]), count, calls[1..]))
  }

  function AfterCall(version: string, mem: Memory, call: UpgradeCall): Memory {
    UpgradeFirst(version, mem, call.chosen, call.replies, |call.chosen|)
  }

  function AfterCalls(version: string, mem: Memory, calls: seq<UpgradeCall>): Memory
    decreases |calls|
  {
    if calls == [] then mem else AfterCalls(version, AfterCall(version, mem, calls[0]), calls[1..])
  }

  lemma {:induction false} OutdatedAfterCalls(version: string, mem: Memory, count: int, calls: seq<UpgradeCall>)
    requires count > 0 && FlawlessCalls(version, mem, count, calls)
    ensures var left := |OutdatedKeys(version, mem)| - |calls| * count;
            |OutdatedKeys(version, AfterCalls(version, mem, calls))| == if left < 0 then 0 else left
    decreases |calls|
  {
    if calls != [] {
      var call := calls[0];
      UpgradeAccounting(version, mem, count, call.chosen, call.replies);
      AllAcceptedCount(call.replies, |call.chosen|);
      var after := AfterCall(version, mem, call);
      OutdatedAfterCalls(version, after, count, calls[1..]);
      OneMore(count, |calls[1..]|);
    }
  }

  lemma OneMore(count: int, n: nat)
    requires count > 0
    ensures (n + 1) * count == n * count + count && n * count >= 0
  {
  }

  /** With no failed deploy the fleet is up to date after a number of calls exactly when
      that number is at least outdated / count, rounded up. */
  lemma CallsToFinishExactly(version: string, mem: Memory, count: int, calls: seq<UpgradeCall>)
    requires count > 0 && FlawlessCalls(version, mem, count, calls)
    ensures OutdatedKeys(version, AfterCalls(version, mem, calls)) == {}
            <==> |calls| >= (|OutdatedKeys(version, mem)| + count - 1) / count
  {
    OutdatedAfterCalls(version, mem, count, calls);
    var o := |OutdatedKeys(version, mem)|;
    CeilingDivision(o, count, |calls|);
    assert OutdatedKeys(version, AfterCalls(version, mem, calls)) == {}
           <==> |OutdatedKeys(version, AfterCalls(version, mem, calls))| == 0;
  }

  lemma CeilingDivision(o: nat, count: int, n: nat)
    requires count > 0
    ensures n >= (o + count - 1) / count <==> n * count >= o
  {
    var q := (o + count - 1) / count;
    var r := (o + count - 1) % count;
    assert o + count - 1 == q * count + r;
    if n >= q {
      assert n * count >= q * count;
    } else {
      assert (n + 1) * count <= q * count;
      assert n * count + count <= q * count;
    }
  }

  // ---------- status polling ----------

  function AnswerFor(answers: map<string, TaskAnswer>, id: string): TaskAnswer {
    if id in answers then answers[id] else TaskUnreachable
  }

  function AfterCheck(r: Record, a: TaskAnswer): Record {
    var st := StateAfterStatus(a);
    if st.Some? then r.(state := st.value) else r
  }

  /** AdminUpgradeStatus: every tracked instance that is still in the map takes the
      state of its upgrade task. */
  function CheckTracked(mem: Memory, tracked: set<string>, answers: map<string, TaskAnswer>): (after: Memory)
    ensures after.Keys == mem.Keys
    ensures forall k :: k in mem ==>
              after[k] == if k in tracked then AfterCheck(mem[k], AnswerFor(answers, k)) else mem[k]
  {
    map k | k in mem :: if k in tracked then AfterCheck(mem[k], AnswerFor(answers, k)) else mem[k]
  }

  function Healthy(tracked: set<string>, answers: map<string, TaskAnswer>): set<string> {
    set k | k in tracked && AnswerFor(answers, k).TaskDone?
  }

  function FailedChecks(tracked: set<string>, answers: map<string, TaskAnswer>): set<string> {
    set k | k in tracked && (AnswerFor(answers, k).TaskError? || AnswerFor(answers, k).TaskCancelled?
                             || AnswerFor(answers, k).TaskUnreachable?)
  }

  function StillRunning(tracked: set<string>, answers: map<string, TaskAnswer>): set<string> {
    set k | k in tracked && AnswerFor(answers, k).TaskOther?
  }

  function StatusReply(tracked: set<string>, answers: map<string, TaskAnswer>): Response {
    UpgradeStatus(|Healthy(tracked, answers)|, |tracked|, |FailedChecks(tracked, answers)|,
                  |StillRunning(tracked, answers)|)
  }

  /** The three counts of a status reply add up to its total. */
  lemma StatusAddsUp(tracked: set<string>, answers: map<string, TaskAnswer>)
    ensures var r := StatusReply(tracked, answers);
            r.healthy + r.failed + r.inProgress == r.total
  {
    var h, f, p := Healthy(tracked, answers), FailedChecks(tracked, answers), StillRunning(tracked, answers);
    assert h + f + p == tracked;
    assert h !! f && (h + f) !! p;
  }

  lemma OneMoreSettled(was: Memory, seen: set<string>, id: string, answers: map<string, TaskAnswer>)
    requires id !in seen
    ensures var before := CheckTracked(was, seen, answers);
            CheckTracked(was, seen + {id}, answers)
            == if id in was then before[id := AfterCheck(before[id], AnswerFor(answers, id))]
               else before
  {
  }

  /** The counts of AdminUpgradeStatus when it has visited the seen ids. */
  ghost predicate Tallied(seen: set<string>, answers: map<string, TaskAnswer>, healthy: int, failed: int,
                          inProgress: int)
  {
    healthy == |Healthy(seen, answers)| && failed == |FailedChecks(seen, answers)|
    && inProgress == |StillRunning(seen, answers)|
  }

  lemma OneMoreTallied(seen: set<string>, id: string, answers: map<string, TaskAnswer>, healthy: int, failed: int,
                       inProgress: int)
    requires id !in seen && Tallied(seen, answers, healthy, failed, inProgress)
    ensures var a := AnswerFor(answers, id);
            Tallied(seen + {id}, answers, healthy + (if a.TaskDone? then 1 else 0),
                    failed + (if a.TaskError? || a.TaskCancelled? || a.TaskUnreachable? then 1 else 0),
                    inProgress + (if a.TaskOther? then 1 else 0))
  {
    OneMoreChecked(seen, id, answers);
  }

  lemma OneMoreChecked(seen: set<string>, id: string, answers: map<string, TaskAnswer>)
    requires id !in seen
    ensures var a := AnswerFor(answers, id);
            && |Healthy(seen + {id}, answers)|
               == |Healthy(seen, answers)| + (if a.TaskDone? then 1 else 0)
            && |FailedChecks(seen + {id}, answers)|
               == |FailedChecks(seen, answers)|
                  + (if a.TaskError? || a.TaskCancelled? || a.TaskUnreachable? then 1 else 0)
            && |StillRunning(seen + {id}, answers)|
               == |StillRunning(seen, answers)| + (if a.TaskOther? then 1 else 0)
  {
    var a := AnswerFor(answers, id);
    Grown(Healthy(seen, answers), Healthy(seen + {id}, answers), id, a.TaskDone?);
    Grown(FailedChecks(seen, answers), FailedChecks(seen + {id}, answers), id,
          a.TaskError? || a.TaskCancelled? || a.TaskUnreachable?);
    Grown(StillRunning(seen, answers), StillRunning(seen + {id}, answers), id, a.TaskOther?);
  }

  lemma Grown(before: set<string>, after: set<string>, id: string, added: bool)
    requires id !in before && (id in after <==> added)
    requires forall k :: k != id ==> (k in before <==> k in after)
    ensures |after| == |before| + if added then 1 else 0
  {
    assert after == if added then before + {id} else before;
  }
}
