/** What each request is answered, and what a poll or a status check does to each entry,
    said of the request, the entries and the Director's answers alone. */
module Answers {
  import opened Strings
  import opened Domain
  import opened Handlers
  import opened Sequential
  import Hostname
  import VersionGate

  // ---------- the order of the checks ----------

  datatype Check = Check(fails: bool, answer: Response)

  /** The answer of the first check that fails. */
  function FirstFailing(checks: seq<Check>, otherwise: Response): Response {
    if checks == [] then otherwise
    else if checks[0].fails then checks[0].answer
    else FirstFailing(checks[1..], otherwise)
  }

  lemma {:induction false} FirstFailingConcat(a: seq<Check>, b: seq<Check>, otherwise: Response)
    ensures FirstFailing(a + b, otherwise) == FirstFailing(a, FirstFailing(b, otherwise))
  {
    if a == [] {
      assert a + b == b;
    } else {
      assert (a + b)[1..] == a[1..] + b;
      FirstFailingConcat(a[1..], b, otherwise);
    }
  }

  // ---------- Provision ----------

  function RequestChecks(id: string, async: bool, body: Option<ProvisionRequest>): seq<Check> {
    [ Check(!Hostname.ValidInstanceID(id), InvalidInstanceID),
      Check(!async, AsyncRequired),
      Check(body.None?, BadRequest) ]
  }

  function SlotChecks(cfg: Config, mem: Memory, id: string, org: string): seq<Check> {
    [ Check(id in mem, Conflict),
      Check(0 < cfg.maxInstances <= |ActiveIn(mem)|, QuotaExceeded),
      Check(0 < cfg.maxInstancesPerOrg <= |ActiveOf(mem, org)|, QuotaExceeded) ]
  }

  function ConfigChecks(cfg: Config, plans: seq<Plan>, planID: string, i: nat): seq<Check>
    requires PlanAt(plans, planID, i)
  {
    var unlisted := Unlisted(plans, planID);
    [ Check(cfg.minOpenClawVersion != "" && !MeetsMinimum(cfg.openClawVersion, cfg.minOpenClawVersion),
            VersionBelowMinimum),
      Check(unlisted, UnknownPlan),
      Check(!unlisted && plans[i].azs == [] && cfg.azs == [], Misconfigured),
      Check(cfg.appsDomain == "", Misconfigured) ]
  }

  function DeployChecks(reply: DeployReply): seq<Check> {
    [ Check(reply.RenderError?, RenderFailed), Check(reply.DeployRefused?, DeployFailed) ]
  }

  /** A Provision is answered by the first of these checks that fails, and 202 when none
      does. */
  lemma ProvisionAnswers(cfg: Config, mem: Memory, id: string, async: bool, body: Option<ProvisionRequest>,
                         rnd: Secrets, created: bool, reply: DeployReply, plans: seq<Plan>, i: nat)
    requires Offers(cfg, plans) && (body.Some? ==> PlanAt(plans, body.value.planID, i))
    ensures Provision(cfg, mem, id, async, body, rnd, created, reply).response
            == FirstFailing(
                 RequestChecks(id, async, body)
                 + if body.None? then []
                   else SlotChecks(cfg, mem, id, body.value.orgGUID) + ConfigChecks(cfg, plans, body.value.planID, i)
                        + DeployChecks(reply),
                 Accepted("provision-" + id))
  {
    var request, done := RequestChecks(id, async, body), Accepted("provision-" + id);
    if body.None? {
      assert request + [] == request;
      NoBody(cfg, mem, id, async, rnd);
    } else {
      var req := body.value;
      var slot := SlotChecks(cfg, mem, id, req.orgGUID);
      var config, deploy := ConfigChecks(cfg, plans, req.planID, i), DeployChecks(reply);
      FirstFailingConcat(request, slot + config + deploy, done);
      FirstFailingConcat(slot + config, deploy, done);
      FirstFailingConcat(slot, config, FirstFailing(deploy, done));
      DeployDecides(reply, done);
      AdmissionDecides(cfg, mem, id, async, req, rnd, plans, i, FirstFailing(deploy, done));
      AdmissionThenDeploy(cfg, mem, id, async, req, rnd, created, reply);
    }
  }

  lemma NoBody(cfg: Config, mem: Memory, id: string, async: bool, rnd: Secrets)
    ensures Admit(cfg, mem, id, async, None, rnd)
         == Reject(FirstFailing(RequestChecks(id, async, None), Accepted("provision-" + id)))
  {
    ThreeChecks(RequestChecks(id, async, None), Accepted("provision-" + id));
  }

  lemma ThreeChecks(c: seq<Check>, otherwise: Response)
    requires |c| == 3
    ensures FirstFailing(c, otherwise)
         == if c[0].fails then c[0].answer else if c[1].fails then c[1].answer
            else if c[2].fails then c[2].answer else otherwise
  {
    var last := c[1..][1..];
    assert FirstFailing(last, otherwise) == if c[2].fails then c[2].answer else FirstFailing(last[1..], otherwise);
    assert FirstFailing(c[1..], otherwise) == if c[1].fails then c[1].answer else FirstFailing(last, otherwise);
  }

  /** The checks are those of the admission. */
  lemma AdmissionDecides(cfg: Config, mem: Memory, id: string, async: bool, req: ProvisionRequest, rnd: Secrets,
                         plans: seq<Plan>, i: nat, otherwise: Response)
    requires Offers(cfg, plans) && PlanAt(plans, req.planID, i)
    ensures FirstFailing(RequestChecks(id, async, Some(req)),
              FirstFailing(SlotChecks(cfg, mem, id, req.orgGUID),
                FirstFailing(ConfigChecks(cfg, plans, req.planID, i), otherwise)))
         == match Admit(cfg, mem, id, async, Some(req), rnd)
            case Reject(why) => why
            case Reserve(_) => otherwise
  {
    var slot, config := SlotChecks(cfg, mem, id, req.orgGUID), ConfigChecks(cfg, plans, req.planID, i);
    ThreeChecks(RequestChecks(id, async, Some(req)), FirstFailing(slot, FirstFailing(config, otherwise)));
    SlotDecides(cfg, mem, id, req.orgGUID, FirstFailing(config, otherwise));
    ConfigDecides(cfg, id, req, rnd, plans, i, otherwise);
  }

  lemma SlotDecides(cfg: Config, mem: Memory, id: string, org: string, otherwise: Response)
    ensures FirstFailing(SlotChecks(cfg, mem, id, org), otherwise)
         == if id in mem then Conflict
            else if OverQuota(cfg, mem, None) || OverQuota(cfg, mem, Some(org)) then QuotaExceeded
            else otherwise
  {
    ThreeChecks(SlotChecks(cfg, mem, id, org), otherwise);
    CountsActive(mem, org);
  }

  lemma ConfigDecides(cfg: Config, id: string, req: ProvisionRequest, rnd: Secrets, plans: seq<Plan>, i: nat,
                      otherwise: Response)
    requires Offers(cfg, plans) && PlanAt(plans, req.planID, i)
    ensures FirstFailing(ConfigChecks(cfg, plans, req.planID, i), otherwise)
         == match AdmitConfigured(cfg, id, req, rnd)
            case Reject(why) => why
            case Reserve(_) => otherwise
  {
    var checks := ConfigChecks(cfg, plans, req.planID, i);
    ThreeChecks(checks[1..], otherwise);
    VersionGate.AcceptsExactly(cfg.openClawVersion, cfg.minOpenClawVersion);
    PlanIsFound(cfg, plans, req.planID, i);
  }

  lemma DeployDecides(reply: DeployReply, otherwise: Response)
    ensures FirstFailing(DeployChecks(reply), otherwise) == if reply.DeployTask? then otherwise else FailureOf(reply)
  {
    var last := DeployChecks(reply)[1..];
    assert FirstFailing(last, otherwise)
        == if last[0].fails then last[0].answer else FirstFailing(last[1..], otherwise);
  }

  lemma AdmissionThenDeploy(cfg: Config, mem: Memory, id: string, async: bool, req: ProvisionRequest, rnd: Secrets,
                            created: bool, reply: DeployReply)
    ensures Provision(cfg, mem, id, async, Some(req), rnd, created, reply).response
         == match Admit(cfg, mem, id, async, Some(req), rnd)
            case Reject(why) => why
            case Reserve(_) => if reply.DeployTask? then Accepted("provision-" + id) else FailureOf(reply)
  {
  }

  // ---------- Deprovision ----------

  /** A delete already under way is confirmed without another call, and changes nothing. */
  lemma DeprovisionAnswers(mem: Memory, id: string, async: bool, reply: DeleteReply)
    ensures var o := Deprovision(mem, id, async, reply);
            var underWay := id in mem && mem[id].state == Deprovisioning;
            && o.response == FirstFailing(
                 [Check(!async, AsyncRequired), Check(underWay, Accepted("deprovision-" + id)),
                  Check(reply.DeleteRefused?, if id in mem then DeprovisionFailed else Gone)],
                 Accepted("deprovision-" + id))
            && (underWay ==> o.mem == mem)
  {
    var underWay := id in mem && mem[id].state == Deprovisioning;
    ThreeChecks([Check(!async, AsyncRequired), Check(underWay, Accepted("deprovision-" + id)),
                 Check(reply.DeleteRefused?, if id in mem then DeprovisionFailed else Gone)],
                Accepted("deprovision-" + id));
  }

  // ---------- Update ----------

  function UpdateChecks(mem: Memory, id: string, async: bool, request: Option<string>, plans: seq<Plan>): seq<Check> {
    [ Check(!async, AsyncRequired),
      Check(request.None?, BadRequest),
      Check(request.Some? && MovesPlan(mem, id, request.value) && Unlisted(plans, request.value), UnknownPlan) ]
  }

  lemma UpdateAnswers(cfg: Config, mem: Memory, id: string, async: bool, request: Option<string>, rnd: Secrets,
                      reply: DeployReply, plans: seq<Plan>)
    requires Offers(cfg, plans)
    ensures Update(cfg, mem, id, async, request, rnd, reply).response
            == FirstFailing(UpdateChecks(mem, id, async, request, plans) + DeployChecks(reply),
                            Accepted("update-" + id))
  {
    var start, deploy := UpdateChecks(mem, id, async, request, plans), DeployChecks(reply);
    var done := Accepted("update-" + id);
    FirstFailingConcat(start, deploy, done);
    ThreeChecks(start, FirstFailing(deploy, done));
    DeployDecides(reply, done);
  }

  // ---------- LastOperation ----------

  /** The entry waits for a Director task. */
  predicate Waits(mem: Memory, id: string) {
    id in mem && mem[id].state in {Provisioning, Deprovisioning} && mem[id].boshTaskID != 0
  }

  /** A poll of an entry that waits for no task answers from the entry alone. */
  lemma PollAnswersAtOnce(mem: Memory, id: string, answer: TaskAnswer)
    requires !Waits(mem, id)
    ensures var o := Poll(mem, id, answer);
            && o.mem == mem
            && (o.response == NotFound <==> id !in mem)
            && (o.response == LastOperation(Succeeded) <==> id in mem && mem[id].state == Ready)
            && (o.response == LastOperation(OpFailed) <==> id in mem && mem[id].state == Failed)
            && (o.response == LastOperation(InProgress) <==> id in mem && mem[id].state !in {Ready, Failed})
  {
  }

  /** A poll of one that waits answers with the task, and writes its outcome: ready or
      failed after a deployment, removed after a finished delete, kept after a failed one. */
  lemma PollAsks(mem: Memory, id: string, answer: TaskAnswer)
    requires Waits(mem, id)
    ensures var o := Poll(mem, id, answer);
            var r := mem[id];
            match answer
            case TaskDone =>
              && o.response == LastOperation(Succeeded)
              && o.mem == if r.state == Provisioning then mem[id := r.(state := Ready)] else mem - {id}
            case TaskOther(_) => o == Outcome(mem, LastOperation(InProgress))
            case TaskUnreachable => o == Outcome(mem, LastOperation(InProgress))
            case _ =>
              && o.response == LastOperation(OpFailed)
              && o.mem == if r.state == Provisioning then mem[id := r.(state := Failed)] else mem
  {
  }

  // ---------- Bind ----------

  /** Credentials exactly for a ready instance, and they are its own. */
  lemma BindAnswers(mem: Memory, id: string)
    ensures var answer := Bind(mem, id);
            && (answer.Bound? <==> id in mem && mem[id].state == Ready)
            && (answer == NotReady <==> id in mem && mem[id].state != Ready)
            && (answer == NotFound <==> id !in mem)
            && (answer.Bound? ==>
                  var c, r := answer.credentials, mem[id];
                  && c.routeHostname == r.routeHostname && c.appsDomain == r.appsDomain
                  && c.gatewayToken == r.gatewayToken && c.nodeSeed == r.nodeSeed && c.id == r.id
                  && c.owner == r.owner && c.planName == r.planName && c.openClawVersion == r.openClawVersion
                  && c.ssoEnabled == r.ssoEnabled)
  {
  }

  /** After a poll that found the deployment failed, and after every accepted delete, the
      instance is not bound, and later polls repeat the failure without asking. */
  lemma FailedDeployRefusesBinds(mem: Memory, id: string, answer: TaskAnswer, later: TaskAnswer)
    requires id in mem && mem[id].state == Provisioning
    requires Poll(mem, id, answer).response == LastOperation(OpFailed)
    ensures var after := Poll(mem, id, answer).mem;
            Bind(after, id) == NotReady && Poll(after, id, later) == Outcome(after, LastOperation(OpFailed))
  {
  }

  lemma DeleteRefusesBinds(mem: Memory, id: string, reply: DeleteReply)
    requires Deprovision(mem, id, true, reply).response.Accepted?
    ensures Bind(Deprovision(mem, id, true, reply).mem, id) == NotReady
  {
  }

  // ---------- AdminUpgradeStatus ----------

  /** The state a tracked entry has after its upgrade task was looked at. */
  predicate CheckedState(before: LifeState, a: TaskAnswer, after: LifeState) {
    match a
    case TaskDone => after == Ready
    case TaskError => after == Failed
    case TaskCancelled => after == Failed
    case _ => after == before
  }

  /** A status check writes the state of tracked entries and nothing else. */
  lemma StatusSetsStates(mem: Memory, tracker: map<string, int>, answers: map<string, TaskAnswer>, k: string)
    requires k in mem
    ensures var after := CheckTracked(mem, tracker.Keys, answers);
            && after.Keys == mem.Keys
            && after[k] == mem[k].(state := after[k].state)
            && (k in tracker && k in answers ==> CheckedState(mem[k].state, answers[k], after[k].state))
            && (k !in tracker || k !in answers ==> after[k] == mem[k])
  {
  }

  /** The counts of its reply: a task that cannot be asked after counts as failed. */
  lemma StatusCounts(tracker: map<string, int>, answers: map<string, TaskAnswer>)
    ensures StatusReply(tracker.Keys, answers)
         == UpgradeStatus(
              |set k | k in tracker && k in answers && answers[k] == TaskDone|,
              |tracker|,
              |set k | k in tracker && (k in answers ==> answers[k] in {TaskError, TaskCancelled, TaskUnreachable})|,
              |set k | k in tracker && k in answers && answers[k].TaskOther?|)
  {
    assert Healthy(tracker.Keys, answers) == set k | k in tracker && k in answers && answers[k] == TaskDone;
    assert FailedChecks(tracker.Keys, answers)
        == set k | k in tracker && (k in answers ==> answers[k] in {TaskError, TaskCancelled, TaskUnreachable});
    assert StillRunning(tracker.Keys, answers) == set k | k in tracker && k in answers && answers[k].TaskOther?;
  }

  /** After a failed upgrade task the instance is not bound and a poll reports the failure
      at once; after one that is done it is bound and a poll reports success at once. */
  lemma StatusDecidesBinds(mem: Memory, tracker: map<string, int>, answers: map<string, TaskAnswer>, k: string,
                           later: TaskAnswer)
    requires k in mem && k in tracker && k in answers && Terminal(answers[k])
    ensures var after := CheckTracked(mem, tracker.Keys, answers);
            if answers[k] == TaskDone
            then Bind(after, k).Bound? && Poll(after, k, later) == Outcome(after, LastOperation(Succeeded))
            else Bind(after, k) == NotReady && Poll(after, k, later) == Outcome(after, LastOperation(OpFailed))
  {
    StatusSetsStates(mem, tracker, answers, k);
  }
}
