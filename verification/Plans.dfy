/** Records and their plans, over every interleaving. A state file may have been written
    under another plan table, so a record may disagree with its plan; what the broker
    writes agrees. */
module Plans {
  import opened Strings
  import opened Domain
  import opened Handlers
  import opened Protocol

  /** Either a record without a plan (made by a delete of an unknown id), or one
      whose plan fields are those of the plan its plan id finds. */
  predicate OnItsPlan(cfg: Config, r: Record) {
    (r.planID == "" && r.planName == "" && r.vmType == "" && r.diskType == "")
    || (var plan := FindPlan(cfg, r.planID);
        plan.Some? && r.planName == plan.value.name && r.vmType == plan.value.vmType
        && r.diskType == plan.value.diskType)
  }

  predicate SamePlan(r: Record, t: Record) {
    t.planID == r.planID && t.planName == r.planName && t.vmType == r.vmType && t.diskType == r.diskType
  }

  /** Every record of t agrees with its plan or has the plan fields it had in s. */
  predicate PlansKept(cfg: Config, s: System, t: System) {
    |s.heap| <= |t.heap|
    && forall r :: 0 <= r < |t.heap| ==>
         OnItsPlan(cfg, t.heap[r]) || (r < |s.heap| && SamePlan(s.heap[r], t.heap[r]))
  }

  predicate PlanEffect(cfg: Config, s: System, e: Effect) {
    match e
    case Insert(_, rec) => OnItsPlan(cfg, rec)
    case Overwrite(ref, rec) => ref < |s.heap| ==> OnItsPlan(cfg, rec) || SamePlan(s.heap[ref], rec)
    case _ => true
  }

  // ---------- records ----------

  /** Recovery takes the first plan with the requested id, or the first of all, and looks its
      plan up again under the id it stores: it finds the same one, even when it fell back
      and when ids repeat. */
  lemma RecoveredIsOnPlan(cfg: Config, id: string, planID: string, rnd: Secrets, plans: seq<Plan>, i: nat)
    requires Offers(cfg, plans) && PlanAt(plans, planID, i)
    ensures var rec := RecoveredRecord(cfg, id, RecoveryPlan(cfg, planID), rnd);
            && OnItsPlan(cfg, rec) && FindPlan(cfg, rec.planID) == Some(plans[i])
            && rec.planID == plans[i].id && rec.planName == plans[i].name
            && rec.vmType == plans[i].vmType && rec.diskType == plans[i].diskType
  {
    PlanIsFound(cfg, plans, planID, i);
    FirstIsFound(plans, plans[i].id, i);
  }

  lemma RecoveryAgrees(cfg: Config, id: string, planID: string, rnd: Secrets)
    ensures OnItsPlan(cfg, RecoveredRecord(cfg, id, RecoveryPlan(cfg, planID), rnd))
  {
    var i := EveryIdHasPlace(EffectivePlans(cfg), planID);
    RecoveredIsOnPlan(cfg, id, planID, rnd, EffectivePlans(cfg), i);
  }

  lemma UpdatedIsOnPlan(cfg: Config, mem: Memory, id: string, async: bool, request: Option<string>, rnd: Secrets)
    ensures var u := StartUpdate(cfg, mem, id, async, request, rnd);
            && (u.UAdopt? ==> OnItsPlan(cfg, u.rec))
            && (u.URedeploy? ==> id in mem && (OnItsPlan(cfg, u.rec) || SamePlan(mem[id], u.rec)))
  {
    if request.Some? {
      RecoveryAgrees(cfg, id, request.value, rnd);
    }
  }

  lemma AdmittedIsOnPlan(cfg: Config, mem: Memory, id: string, async: bool, body: Option<ProvisionRequest>,
                         rnd: Secrets)
    ensures var a := Admit(cfg, mem, id, async, body, rnd);
            a.Reserve? ==> OnItsPlan(cfg, a.rec)
  {
  }

  lemma SsoKeepsPlan(cfg: Config, r: Record, created: bool, rnd: Secrets)
    ensures SamePlan(r, AfterSso(cfg, r, created, rnd))
  {
  }

  /** An accepted update of a known instance redeploys it in any case, but a record that
      disagrees with its plan comes to agree exactly when the update names another plan. */
  lemma UpdateRefreshesExactly(cfg: Config, mem: Memory, id: string, planID: string, rnd: Secrets)
    requires id in mem && StartUpdate(cfg, mem, id, true, Some(planID), rnd).URedeploy?
    ensures OnItsPlan(cfg, StartUpdate(cfg, mem, id, true, Some(planID), rnd).rec)
            <==> OnItsPlan(cfg, mem[id]) || (planID != "" && planID != mem[id].planID)
  {
  }

  // ---------- steps and runs ----------

  lemma ProvisionPlans(cfg: Config, s: System, l: Step)
    requires l.ProvisionBegin?
    ensures var m := BeginProvision(cfg, s, l); m.Move? ==> PlanEffect(cfg, s, m.effect)
  {
    AdmittedIsOnPlan(cfg, View(s), l.id, l.async, l.body, l.rnd);
  }

  lemma DeprovisionPlans(cfg: Config, s: System, l: Step)
    requires l.DeprovisionBegin?
    ensures var m := BeginDeprovision(s, l); m.Move? ==> PlanEffect(cfg, s, m.effect)
  {
  }

  lemma UpdatePlans(cfg: Config, s: System, l: Step)
    requires l.UpdateBegin?
    ensures var m := BeginUpdate(cfg, s, l); m.Move? ==> PlanEffect(cfg, s, m.effect)
  {
    UpdatedIsOnPlan(cfg, View(s), l.id, l.async, l.request, l.rnd);
  }

  lemma BeginPlans(cfg: Config, s: System, l: Step)
    requires Begins(l)
    ensures var m := Begin(cfg, s, l); m.Move? ==> PlanEffect(cfg, s, m.effect)
  {
    match l
    case ProvisionBegin(_, _, _, _, _) => ProvisionPlans(cfg, s, l);
    case DeprovisionBegin(_, _, _) => DeprovisionPlans(cfg, s, l);
    case UpdateBegin(_, _, _, _, _) => UpdatePlans(cfg, s, l);
    case _ =>
  }

  lemma WritePlans(cfg: Config, s: System, w: Handler)
    ensures var m := WriteBack(cfg, s, w); m.Move? ==> PlanEffect(cfg, s, m.effect)
  {
  }

  lemma ContinuePlans(cfg: Config, s: System, l: Step, w: Handler)
    ensures var m := Continue(cfg, s, l, w); m.Move? ==> PlanEffect(cfg, s, m.effect)
  {
    match l
    case Write(_) => WritePlans(cfg, s, w);
    case ProvisionBuild(_, created) =>
      if w.Reserved? && w.ref < |s.heap| {
        SsoKeepsPlan(cfg, s.heap[w.ref], created, w.rnd);
      }
    case _ =>
  }

  lemma PerformKeepsPlans(cfg: Config, s: System, e: Effect)
    requires PlanEffect(cfg, s, e)
    ensures PlansKept(cfg, s, Perform(s, e))
  {
  }

  lemma StepKeepsPlans(cfg: Config, s: System, l: Step)
    ensures PlansKept(cfg, s, Apply(cfg, s, l))
  {
    if Begins(l) {
      BeginPlans(cfg, s, l);
    } else if l.h in s.handlers {
      ContinuePlans(cfg, s, l, s.handlers[l.h]);
    }
    var m := MoveOf(cfg, s, l);
    if m.Move? {
      PerformKeepsPlans(cfg, s, m.effect);
    }
  }

  lemma KeptTwice(cfg: Config, s: System, t: System, u: System)
    requires PlansKept(cfg, s, t) && PlansKept(cfg, t, u)
    ensures PlansKept(cfg, s, u)
  {
    forall r | 0 <= r < |u.heap| && !OnItsPlan(cfg, u.heap[r])
      ensures r < |s.heap| && SamePlan(s.heap[r], u.heap[r])
    {
      assert r < |t.heap| && !OnItsPlan(cfg, t.heap[r]);
    }
  }

  lemma {:induction false} RunKeepsPlans(cfg: Config, s: System, steps: seq<Step>)
    ensures PlansKept(cfg, s, Run(cfg, s, steps))
    decreases |steps|
  {
    if steps != [] {
      var t := Apply(cfg, s, steps[0]);
      StepKeepsPlans(cfg, s, steps[0]);
      RunKeepsPlans(cfg, t, steps[1..]);
      KeptTwice(cfg, s, t, Run(cfg, t, steps[1..]));
    }
  }

  /** After any run, also with failed updates, an entry shows the name, VM type and disk
      type of the plan its plan id finds, or no plan at all, or it is one from before the
      run with the plan fields it had then. */
  lemma PlansAgree(cfg: Config, s: System, steps: seq<Step>, k: string)
    requires k in View(Run(cfg, s, steps))
    ensures var t := Run(cfg, s, steps);
            var ref := t.instances[k];
            OnItsPlan(cfg, View(t)[k]) || (ref < |s.heap| && SamePlan(s.heap[ref], View(t)[k]))
    ensures (forall r :: 0 <= r < |s.heap| ==> OnItsPlan(cfg, s.heap[r])) ==>
              OnItsPlan(cfg, View(Run(cfg, s, steps))[k])
  {
    RunKeepsPlans(cfg, s, steps);
    var t := Run(cfg, s, steps);
    var ref := t.instances[k];
    assert View(t)[k] == t.heap[ref];
    if ref < |s.heap| && OnItsPlan(cfg, s.heap[ref]) && SamePlan(s.heap[ref], t.heap[ref]) {
      assert OnItsPlan(cfg, t.heap[ref]);
    }
  }
}
