/** What the manifests hold that handlers deploy, field by field: for every interleaving that
    each describes its record, and for each kind of handler what that comes to. */
module Deployments {
  import opened Strings
  import opened Domain
  import opened Handlers
  import opened Protocol
  import opened Alone
  import opened AloneAdmin
  import opened Invariant
  import opened Records
  import opened Sequential
  import Manifest

  // ---------- manifests and their records ----------

  predicate SameFields(p: Params, r: Record) {
    p.deploymentName == r.deploymentName && p.id == r.id && p.owner == r.owner && p.planName == r.planName
    && p.gatewayToken == r.gatewayToken && p.nodeSeed == r.nodeSeed && p.routeHostname == r.routeHostname
    && p.appsDomain == r.appsDomain && p.vmType == r.vmType && p.diskType == r.diskType
    && p.openClawVersion == r.openClawVersion && p.ssoClientID == r.ssoClientID
    && p.ssoClientSecret == r.ssoClientSecret && p.ssoCookieSecret == r.ssoCookieSecret
  }

  /** The zones and the browser of the record's plan where the plan is listed; the plan's
      zones only when it has any. */
  ghost predicate FitsPlan(cfg: Config, p: Params, plans: seq<Plan>, planID: string) {
    (forall i: nat :: IsFirst(plans, planID, i) ==>
       p.azs == (if plans[i].azs != [] then plans[i].azs else cfg.azs) && p.browserEnabled == plans[i].browser)
    && (Unlisted(plans, planID) ==> p.azs == cfg.azs && !p.browserEnabled)
  }

  /** The operator's blocked commands, in whichever of the three ways they are separated. */
  ghost predicate BlocksCommands(cfg: Config, p: Params) {
    p.blockedCommands == Manifest.ParseCommands(cfg.blockedCommands)
    && forall cmds: seq<string>, sep: string ::
         Manifest.CleanCommands(cmds) && Manifest.IsSeparator(sep) && cfg.blockedCommands == Join(cmds, sep)
         ==> p.blockedCommands == cmds
  }

  /** All that the manifest takes from its record, the plans and the configuration. */
  ghost predicate Describes(cfg: Config, plans: seq<Plan>, p: Params, r: Record) {
    SameFields(p, r) && (p.ssoEnabled <==> r.ssoEnabled && r.ssoClientID != "")
    && FitsPlan(cfg, p, plans, r.planID) && BlocksCommands(cfg, p)
  }

  lemma BuiltDescribes(cfg: Config, plans: seq<Plan>, r: Record)
    requires Offers(cfg, plans)
    ensures Describes(cfg, plans, BuildParams(cfg, r), r)
  {
    FoundFits(cfg, BuildParams(cfg, r), plans, r.planID);
    ParsedBlocks(cfg, BuildParams(cfg, r));
  }

  lemma FoundFits(cfg: Config, p: Params, plans: seq<Plan>, planID: string)
    requires Offers(cfg, plans)
    requires var plan := FindPlan(cfg, planID);
             && p.azs == (if plan.Some? && plan.value.azs != [] then plan.value.azs else cfg.azs)
             && (p.browserEnabled <==> plan.Some? && plan.value.browser)
    ensures FitsPlan(cfg, p, plans, planID)
  {
    forall i: nat | IsFirst(plans, planID, i) ensures FindPlan(cfg, planID) == Some(plans[i]) {
      PlanIsFound(cfg, plans, planID, i);
    }
  }

  lemma ParsedBlocks(cfg: Config, p: Params)
    requires p.blockedCommands == Manifest.ParseCommands(cfg.blockedCommands)
    ensures BlocksCommands(cfg, p)
  {
    forall cmds: seq<string>, sep: string
      | Manifest.CleanCommands(cmds) && Manifest.IsSeparator(sep) && cfg.blockedCommands == Join(cmds, sep)
      ensures p.blockedCommands == cmds
    {
      Manifest.SpellingsParseAlike(cmds, sep);
    }
  }

  /** The handler starts to deploy in this step. */
  predicate StartsDeploying(s: System, t: System, h: nat) {
    h in t.handlers && t.handlers[h].Deploying? && !(h in s.handlers && s.handlers[h].Deploying?)
  }

  ghost predicate DescribesNow(cfg: Config, plans: seq<Plan>, t: System, w: Handler)
    requires w.Deploying?
  {
    w.job.ref < |t.heap| && Describes(cfg, plans, w.params, t.heap[w.job.ref])
  }

  /** Whatever other handlers do, the manifest of a handler that starts to deploy describes
      its record as the same section leaves it. */
  lemma StepDescribes(cfg: Config, s: System, l: Step, plans: seq<Plan>)
    requires Offers(cfg, plans) && StartsDeploying(s, Apply(cfg, s, l), l.h)
    ensures var t := Apply(cfg, s, l); DescribesNow(cfg, plans, t, t.handlers[l.h])
  {
    match l
    case ProvisionBuild(h, created) => BuildDescribes(cfg, s, l, plans);
    case UpdateBegin(h, id, async, request, rnd) => UpdateDescribes(cfg, s, l, plans);
    case UpgradeBuild(h) => UpgradeDescribes(cfg, s, l, plans);
    case _ => NoOtherDeploys(cfg, s, l);
  }

  lemma NoOtherDeploys(cfg: Config, s: System, l: Step)
    requires !l.ProvisionBuild? && !l.UpdateBegin? && !l.UpgradeBuild?
    ensures !StartsDeploying(s, Apply(cfg, s, l), l.h)
  {
    if Begins(l) {
      NoOtherBegins(cfg, s, l);
    } else if l.h in s.handlers {
      NoOtherGoesOn(cfg, s, l, s.handlers[l.h]);
    }
  }

  lemma NoOtherBegins(cfg: Config, s: System, l: Step)
    requires Begins(l) && !l.UpdateBegin?
    ensures var m := Begin(cfg, s, l); m.Move? ==> !m.next.Deploying?
  {
  }

  lemma NoOtherGoesOn(cfg: Config, s: System, l: Step, w: Handler)
    requires !l.ProvisionBuild? && !l.UpgradeBuild?
    ensures var m := Continue(cfg, s, l, w); m.Move? ==> !m.next.Deploying?
  {
  }

  lemma BuildDescribes(cfg: Config, s: System, l: Step, plans: seq<Plan>)
    requires Offers(cfg, plans) && l.ProvisionBuild? && StartsDeploying(s, Apply(cfg, s, l), l.h)
    ensures var t := Apply(cfg, s, l); DescribesNow(cfg, plans, t, t.handlers[l.h])
  {
    var w := s.handlers[l.h];
    BuiltDescribes(cfg, plans, AfterSso(cfg, s.heap[w.ref], l.created, w.rnd));
  }

  lemma UpdateDescribes(cfg: Config, s: System, l: Step, plans: seq<Plan>)
    requires Offers(cfg, plans) && l.UpdateBegin? && StartsDeploying(s, Apply(cfg, s, l), l.h)
    ensures var t := Apply(cfg, s, l); DescribesNow(cfg, plans, t, t.handlers[l.h])
  {
    var u := StartUpdate(cfg, View(s), l.id, l.async, l.request, l.rnd);
    BeginStep(cfg, s, l);
    if !u.URefuse? {
      BuiltDescribes(cfg, plans, u.rec);
      MovedDescribes(cfg, s, l.id, u, plans);
    }
  }

  lemma MovedDescribes(cfg: Config, s: System, id: string, u: UpdateStart, plans: seq<Plan>)
    requires !u.URefuse? && (u.URedeploy? ==> id in View(s))
    requires Describes(cfg, plans, BuildParams(cfg, u.rec), u.rec)
    ensures var m := UpdateMove(cfg, s, id, u); DescribesNow(cfg, plans, Perform(s, m.effect), m.next)
  {
  }

  lemma UpgradeDescribes(cfg: Config, s: System, l: Step, plans: seq<Plan>)
    requires Offers(cfg, plans) && l.UpgradeBuild? && StartsDeploying(s, Apply(cfg, s, l), l.h)
    ensures var t := Apply(cfg, s, l); DescribesNow(cfg, plans, t, t.handlers[l.h])
  {
    BuiltDescribes(cfg, plans, s.heap[s.handlers[l.h].todo[0]]);
  }

  lemma DeployingStays(cfg: Config, s: System, l: Step)
    requires l.h in s.handlers && s.handlers[l.h].Deploying?
    ensures var t := Apply(cfg, s, l);
            l.h in t.handlers && (t.handlers[l.h].Deploying? ==> t.handlers[l.h] == s.handlers[l.h])
  {
  }

  lemma OthersStay(cfg: Config, s: System, l: Step, h: nat)
    requires h != l.h
    ensures var t := Apply(cfg, s, l);
            (h in t.handlers <==> h in s.handlers) && (h in s.handlers ==> t.handlers[h] == s.handlers[h])
  {
  }

  lemma RunSnoc(cfg: Config, s: System, steps: seq<Step>)
    requires steps != []
    ensures Run(cfg, s, steps) == Apply(cfg, Run(cfg, s, steps[..|steps| - 1]), steps[|steps| - 1])
  {
    var front, last := steps[..|steps| - 1], steps[|steps| - 1];
    assert steps == front + [last];
    RunConcat(cfg, s, front, [last]);
    assert Run(cfg, Run(cfg, s, front), [last]) == Apply(cfg, Run(cfg, s, front), last);
  }

  /** A deploying handler deployed the same before the step, or its manifest is from now. */
  lemma DeployingSince(cfg: Config, s: System, l: Step, h: nat, plans: seq<Plan>)
    requires Offers(cfg, plans)
    requires h in Apply(cfg, s, l).handlers && Apply(cfg, s, l).handlers[h].Deploying?
    ensures var t := Apply(cfg, s, l);
            (h in s.handlers && s.handlers[h] == t.handlers[h]) || DescribesNow(cfg, plans, t, t.handlers[h])
  {
    if l.h != h {
      OthersStay(cfg, s, l, h);
    } else if h in s.handlers && s.handlers[h].Deploying? {
      DeployingStays(cfg, s, l);
    } else {
      StepDescribes(cfg, s, l, plans);
    }
  }

  /** Over every run of any interleaving: the manifest a handler is about to deploy describes
      its record as that was at some moment of the run. */
  lemma {:induction false} ManifestsDescribe(cfg: Config, s: System, steps: seq<Step>, h: nat, plans: seq<Plan>)
    returns (n: nat)
    requires Offers(cfg, plans) && !(h in s.handlers && s.handlers[h].Deploying?)
    requires h in Run(cfg, s, steps).handlers && Run(cfg, s, steps).handlers[h].Deploying?
    ensures 1 <= n <= |steps|
    ensures DescribesNow(cfg, plans, Run(cfg, s, steps[..n]), Run(cfg, s, steps).handlers[h])
    decreases |steps|
  {
    var front := steps[..|steps| - 1];
    var before, t := Run(cfg, s, front), Run(cfg, s, steps);
    RunSnoc(cfg, s, steps);
    DeployingSince(cfg, before, steps[|steps| - 1], h, plans);
    if DescribesNow(cfg, plans, t, t.handlers[h]) {
      n := |steps|;
      assert steps[..n] == steps;
    } else {
      n := ManifestsDescribe(cfg, s, front, h, plans);
      assert front[..n] == steps[..n];
    }
  }

  // ---------- what Provision, Update and AdminUpgrade deploy ----------

  /** Provision, from a reserved slot: the VM, disk and name of the first plan with the
      requested id, the broker's version, and SSO with its drawn secrets exactly when SSO
      and the UAA are configured and the client was created. */
  lemma ProvisionDeploys(cfg: Config, s: System, h: nat, id: string, req: ProvisionRequest, rnd: Secrets, created: bool,
                         plans: seq<Plan>, i: nat)
    requires Entries(s) && h !in s.handlers && Offers(cfg, plans) && PlanAt(plans, req.planID, i)
    requires Admit(cfg, View(s), id, true, Some(req), rnd).Reserve?
    ensures var t := Run(cfg, s, [ProvisionBegin(h, id, true, Some(req), rnd), ProvisionBuild(h, created)]);
            && h in t.handlers && t.handlers[h].Deploying?
            && id in View(t) && View(t)[id] == Provisioned(cfg, id, req, plans[i], rnd, created, 0)
            && var p := t.handlers[h].params;
               && Describes(cfg, plans, p, View(t)[id])
               && p.planName == plans[i].name && p.vmType == plans[i].vmType && p.diskType == plans[i].diskType
               && p.azs == (if plans[i].azs != [] then plans[i].azs else cfg.azs)
               && p.browserEnabled == plans[i].browser && p.openClawVersion == cfg.openClawVersion
               && (p.ssoEnabled <==> cfg.ssoEnabled && cfg.cfUaaURL != "" && cfg.cfUaaSecret != "" && created)
               && (p.ssoEnabled ==> p.ssoClientID == "openclaw-" + id && p.ssoClientSecret == rnd.clientSecret
                                    && p.ssoCookieSecret == rnd.cookieSecret)
  {
    ReservedRecord(cfg, View(s), id, true, req, rnd, plans, i);
    var rec := NewRecord(cfg, id, req, plans[i], rnd);
    var begin, build := ProvisionBegin(h, id, true, Some(req), rnd), ProvisionBuild(h, created);
    ReserveHolds(cfg, s, begin, rec);
    var begun := Apply(cfg, s, begin);
    var ready := AfterSso(cfg, rec, created, rnd);
    ProvisionedIs(cfg, id, req, plans[i], rnd, created, 0);
    BuiltHolds(cfg, begun, View(s), h, id, |s.heap|, rec, rnd, created);
    BuiltDescribes(cfg, plans, ready);
    RunOneOrTwo(cfg, s, begin, build);
  }

  lemma BuiltHolds(cfg: Config, s: System, mem: Memory, h: nat, id: string, ref: nat, rec: Record, rnd: Secrets,
                   created: bool)
    requires Holds(s, mem, id, ref, rec) && rec.id == id && At(s, h, Reserved(id, ref, rnd))
    ensures var t := Apply(cfg, s, ProvisionBuild(h, created));
            var ready := AfterSso(cfg, rec, created, rnd);
            Holds(t, mem, id, ref, ready) && At(t, h, Deploying(ForProvision(id, ref), BuildParams(cfg, ready)))
  {
    WritesBack(cfg, s, ProvisionBuild(h, created), mem, id, ref, rec, AfterSso(cfg, rec, created, rnd),
               Deploying(ForProvision(id, ref), BuildParams(cfg, AfterSso(cfg, rec, created, rnd))));
  }

  /** The record an update redeploys: an adopted one on the plan asked for or the first of
      all, one moved to the plan asked for, or the one there is. */
  function ForUpdateOf(cfg: Config, mem: Memory, id: string, planID: string, rnd: Secrets, plan: Plan): Record {
    if id !in mem then Adopted(cfg, id, plan, rnd, 0)
    else if MovesPlan(mem, id, planID) then
      mem[id].(planID := planID, planName := plan.name, vmType := plan.vmType, diskType := plan.diskType)
    else mem[id]
  }

  lemma UpdateDeploys(cfg: Config, s: System, h: nat, id: string, planID: string, rnd: Secrets, plans: seq<Plan>,
                      i: nat)
    requires Entries(s) && h !in s.handlers && Offers(cfg, plans) && PlanAt(plans, planID, i)
    requires MovesPlan(View(s), id, planID) ==> IsFirst(plans, planID, i)
    ensures var t := Apply(cfg, s, UpdateBegin(h, id, true, Some(planID), rnd));
            && h in t.handlers && t.handlers[h].Deploying?
            && id in View(t) && View(t)[id] == ForUpdateOf(cfg, View(s), id, planID, rnd, plans[i])
            && Describes(cfg, plans, t.handlers[h].params, View(t)[id])
  {
    var u := StartUpdate(cfg, View(s), id, true, Some(planID), rnd);
    UpdateStartsWith(cfg, View(s), id, planID, rnd, plans, i);
    var ref := UpdateStarts(cfg, s, UpdateBegin(h, id, true, Some(planID), rnd), u);
    BuiltDescribes(cfg, plans, u.rec);
  }

  lemma UpdateStartsWith(cfg: Config, mem: Memory, id: string, planID: string, rnd: Secrets, plans: seq<Plan>, i: nat)
    requires Offers(cfg, plans) && PlanAt(plans, planID, i)
    requires MovesPlan(mem, id, planID) ==> IsFirst(plans, planID, i)
    ensures var u := StartUpdate(cfg, mem, id, true, Some(planID), rnd);
            !u.URefuse? && u.rec == ForUpdateOf(cfg, mem, id, planID, rnd, plans[i])
  {
    if id in mem {
      PlanIsFound(cfg, plans, planID, i);
    } else {
      AdoptionStarts(cfg, mem, id, planID, rnd, plans, i);
      AdoptedIs(cfg, id, plans[i], rnd, 0);
    }
  }

  /** AdminUpgrade, for the first of its candidates: the record as it is, the old version
      with the rest. */
  lemma UpgradeDeploys(cfg: Config, s: System, h: nat, count: int, chosen: seq<string>, plans: seq<Plan>)
    requires Entries(s) && h !in s.handlers && count > 0 && chosen != [] && Offers(cfg, plans)
    requires CandidateChoice(cfg.openClawVersion, View(s), count, chosen)
    ensures forall i :: 0 <= i < |chosen| ==> chosen[i] in s.instances
    ensures var t := Run(cfg, s, [UpgradeBegin(h, count, RefsOf(s, chosen)), UpgradeBuild(h)]);
            var r := View(s)[chosen[0]];
            && h in t.handlers && t.handlers[h].Deploying? && View(t) == View(s)
            && Describes(cfg, plans, t.handlers[h].params, r)
            && r.state != Deprovisioning && r.openClawVersion != cfg.openClawVersion
  {
    ChosenAreCandidates(cfg.openClawVersion, s, count, chosen);
    UpgradeBegins(cfg, s, h, count, chosen);
    var refs := RefsOf(s, chosen);
    var begin, build := UpgradeBegin(h, count, refs), UpgradeBuild(h);
    RunOneOrTwo(cfg, s, begin, build);
    FirstIsBuilt(cfg, Apply(cfg, s, begin), h, chosen, refs, plans);
    FirstIsOutdated(cfg.openClawVersion, View(s), count, chosen);
    SameSharedView(s, Apply(cfg, s, begin));
  }

  lemma FirstIsBuilt(cfg: Config, s: System, h: nat, chosen: seq<string>, refs: seq<nat>, plans: seq<Plan>)
    requires RollingAt(s, h, chosen, refs, 0, 0) && chosen != [] && Offers(cfg, plans)
    ensures var t := Apply(cfg, s, UpgradeBuild(h));
            && h in t.handlers && t.handlers[h].Deploying? && View(t) == View(s) && chosen[0] in View(s)
            && Describes(cfg, plans, t.handlers[h].params, View(s)[chosen[0]])
  {
    assert refs[0..] == [refs[0]] + refs[1..];
    assert Refers(s, s.instances[chosen[0]], chosen[0]);
    BuildStep(cfg, s, h, refs[0], refs[1..], 0);
    SameSharedView(s, Apply(cfg, s, UpgradeBuild(h)));
    BuiltDescribes(cfg, plans, s.heap[refs[0]]);
  }

  lemma FirstIsOutdated(version: string, mem: Memory, count: int, chosen: seq<string>)
    requires CandidateChoice(version, mem, count, chosen) && chosen != []
    ensures chosen[0] in mem && mem[chosen[0]].state != Deprovisioning && mem[chosen[0]].openClawVersion != version
  {
    assert chosen[0] in OutdatedKeys(version, mem);
  }
}
