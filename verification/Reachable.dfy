/** Consequences of the invariant for whole runs: credentials, Director calls, routes
    and the ids in manifests. */
module Reachable {
  import opened Strings
  import opened Domain
  import opened Handlers
  import opened Protocol
  import opened Invariant
  import Hostname
  import Yaml

  /** Whatever happens between two moments of a run, every manifest about to be
      deployed for a record, through whichever handler, carries the record's original
      deployment name, owner, token, seed and host. */
  lemma ManifestsCarryIdentity(cfg: Config, s: System, steps: seq<Step>, h: nat)
    requires Inv(s)
    requires var t := Run(cfg, s, steps); h in t.handlers && t.handlers[h].Deploying?
    ensures var w := Run(cfg, s, steps).handlers[h];
            && w.params.deploymentName == DeploymentName(w.params.id)
            && (w.job.ref < |s.heap| ==> Carries(w.params, s.heap[w.job.ref]))
  {
    RunKeepsInv(cfg, s, steps);
    var t := Run(cfg, s, steps);
    var w := t.handlers[h];
    assert GoodHandler(t, w);
    assert GoodRecord(t.heap[w.job.ref]);
    if w.job.ref < |s.heap| {
      assert IdentityOf(t.heap[w.job.ref]) == IdentityOf(s.heap[w.job.ref]);
    }
  }

  /** In every reachable state a manifest that turns SSO on, through whichever handler,
      names the OAuth2 client created for its own instance. */
  lemma SsoNamesOwnClient(cfg: Config, s: System, steps: seq<Step>, h: nat)
    requires Inv(s)
    requires var t := Run(cfg, s, steps); h in t.handlers && t.handlers[h].Deploying?
    ensures var p := Run(cfg, s, steps).handlers[h].params;
            p.ssoEnabled ==> p.ssoClientID == "openclaw-" + p.id
  {
    RunKeepsInv(cfg, s, steps);
    var t := Run(cfg, s, steps);
    assert GoodHandler(t, t.handlers[h]);
  }

  /** A Bind of a record is refused exactly while the record is not ready, and otherwise
      answers with the record's original credentials. */
  lemma BindsCarryIdentity(cfg: Config, s: System, steps: seq<Step>, k: string)
    requires Inv(s)
    requires var t := Run(cfg, s, steps); k in View(t) && t.instances[k] < |s.heap|
    ensures var t := Run(cfg, s, steps);
            var r := s.heap[t.instances[k]];
            match BindReply(View(t)[k])
            case Bound(c) =>
              && View(t)[k].state == Ready
              && c.id == k == r.id && c.owner == r.owner && c.gatewayToken == r.gatewayToken
              && c.nodeSeed == r.nodeSeed && c.routeHostname == r.routeHostname && c.appsDomain == r.appsDomain
            case other => other == NotReady && View(t)[k].state != Ready
  {
    RunKeepsInv(cfg, s, steps);
    var t := Run(cfg, s, steps);
    assert Refers(t, t.instances[k], k);
    assert IdentityOf(t.heap[t.instances[k]]) == IdentityOf(s.heap[t.instances[k]]);
  }

  /** The instance a handler was started for, where it was started for one. */
  function About(w: Handler): Option<string> {
    match w
    case Reserved(id, _, _) => Some(id)
    case Deploying(job, _) => if job.ForUpgrade? then None else Some(job.id)
    case Deployed(job, _) => if job.ForUpgrade? then None else Some(job.id)
    case RollingBack(id, _) => Some(id)
    case Deleting(id, _, _, _) => Some(id)
    case Deleted(id, _, _) => Some(id)
    case Undeleting(id, _, _) => Some(id)
    case Polling(id, _, _, _) => Some(id)
    case Polled(id, _, _, _) => Some(id)
    case Answered(to, _) => to
    case _ => None
  }

  /** In every reachable state: entries sit under their own id with their own
      deployment, and no deploy or delete call made for one id names another id's
      deployment. */
  lemma CallsNameOwnDeployment(cfg: Config, s: System, steps: seq<Step>, h: nat)
    requires Inv(s) && h in Run(cfg, s, steps).handlers
    ensures var t := Run(cfg, s, steps);
            var w := t.handlers[h];
            && (forall k :: k in View(t) ==> View(t)[k].id == k && View(t)[k].deploymentName == DeploymentName(k))
            && (w.Deploying? && About(w).Some? ==> w.params.deploymentName == DeploymentName(About(w).value))
            && (w.Deploying? && About(w).Some? ==> w.params.id == About(w).value)
            && (w.Deleting? ==> w.name == DeploymentName(About(w).value))
  {
    RunKeepsInv(cfg, s, steps);
    var t := Run(cfg, s, steps);
    var w := t.handlers[h];
    assert GoodHandler(t, w);
    if w.Deploying? {
      assert GoodRecord(t.heap[w.job.ref]);
    }
    forall k | k in View(t) ensures View(t)[k].id == k && View(t)[k].deploymentName == DeploymentName(k) {
      ViewIsGood(t, k);
    }
  }

  /** In every reachable state two entries can have one route only if their ids are alike
      in the sense of the hostname module, whatever the owners. */
  lemma SharedRoutesAreAlike(cfg: Config, s: System, steps: seq<Step>, k1: string, k2: string)
    requires Inv(s)
    ensures var mem := View(Run(cfg, s, steps));
            k1 in mem && k2 in mem && mem[k1].routeHostname == mem[k2].routeHostname != ""
            ==> Hostname.Alike(Hostname.SanitizedID(k1), Hostname.SanitizedID(k2))
  {
    RunKeepsInv(cfg, s, steps);
    var t := Run(cfg, s, steps);
    var mem := View(t);
    if k1 in mem && k2 in mem && mem[k1].routeHostname == mem[k2].routeHostname != "" {
      ViewIsGood(t, k1);
      ViewIsGood(t, k2);
      OneRouteMeansAlike(mem[k1], mem[k2]);
    }
  }

  lemma OneRouteMeansAlike(r1: Record, r2: Record)
    requires HasOwnHost(r1) && HasOwnHost(r2) && r1.routeHostname == r2.routeHostname != ""
    ensures Hostname.Alike(Hostname.SanitizedID(r1.id), Hostname.SanitizedID(r2.id))
  {
    var o1 :| HostOf(o1, r1);
    var o2 :| HostOf(o2, r2);
    Hostname.CollisionsAreAlike(o1, r1.id, o2, r2.id);
  }

  /** Ids that share one sanitized length of at most 58 and sanitize apart. */
  predicate Separable(mem: Memory, n: nat) {
    n <= 58 && forall k :: k in mem ==> Hostname.Canonical(k) && |k| == n
  }

  /** In every reachable state, canonical ids of one length (UUIDs, say) have pairwise
      distinct routes, whatever the owners and however the records came to be. */
  lemma RoutesAreDistinct(cfg: Config, s: System, steps: seq<Step>, n: nat, k1: string, k2: string)
    requires Inv(s)
    ensures var mem := View(Run(cfg, s, steps));
            Separable(mem, n) && k1 in mem && k2 in mem && k1 != k2
            && mem[k1].routeHostname != "" && mem[k2].routeHostname != ""
            ==> mem[k1].routeHostname != mem[k2].routeHostname
  {
    RunKeepsInv(cfg, s, steps);
    var t := Run(cfg, s, steps);
    var mem := View(t);
    if Separable(mem, n) && k1 in mem && k2 in mem && k1 != k2
       && mem[k1].routeHostname != "" && mem[k2].routeHostname != "" {
      ViewIsGood(t, k1);
      ViewIsGood(t, k2);
      OwnRoutesDiffer(mem[k1], mem[k2], n);
    }
  }

  lemma OwnRoutesDiffer(r1: Record, r2: Record, n: nat)
    requires HasOwnHost(r1) && HasOwnHost(r2) && r1.routeHostname != "" && r2.routeHostname != ""
    requires r1.id != r2.id && Hostname.Canonical(r1.id) && Hostname.Canonical(r2.id)
    requires |r1.id| == |r2.id| == n && n <= 58
    ensures r1.routeHostname != r2.routeHostname
  {
    if r1.routeHostname == r2.routeHostname {
      OneRouteMeansAlike(r1, r2);
      Hostname.SanitizeFixesClean(r1.id);
      Hostname.SanitizeFixesClean(r2.id);
      Hostname.AlikeAtOneLength(r1.id, r2.id);
    }
  }

  /** In every reachable state, a route is a DNS label exactly when something of its
      id survives sanitizing. */
  lemma RoutesAreLabels(cfg: Config, s: System, steps: seq<Step>, k: string)
    requires Inv(s)
    requires var mem := View(Run(cfg, s, steps)); k in mem && mem[k].routeHostname != ""
    ensures Hostname.IsDnsLabel(View(Run(cfg, s, steps))[k].routeHostname) <==> Hostname.SanitizedID(k) != ""
  {
    RunKeepsInv(cfg, s, steps);
    var t := Run(cfg, s, steps);
    ViewIsGood(t, k);
    var owner :| HostOf(owner, View(t)[k]);
    Hostname.HostnameIsLabelExactly(owner, k);
  }

  // ---------- the id in the manifest ----------

  /** The template writes the id between quotes as it is. */
  predicate IdReadsBack(p: Params, rest: string) {
    Yaml.ReadQuoted(p.id + "\"" + rest) == Some(Yaml.Scalar(p.id, rest))
  }

  /** In every reachable state, the id scalar of every manifest about to be deployed is made
      from the id of its record, and reads back as that id exactly when the id needs no
      escaping, as no id that passes Provision's check does. */
  lemma IdScalarsReadBackExactly(cfg: Config, s: System, steps: seq<Step>, h: nat, rest: string)
    requires Inv(s)
    requires var t := Run(cfg, s, steps); h in t.handlers && t.handlers[h].Deploying?
    ensures var t := Run(cfg, s, steps);
            var w := t.handlers[h];
            && w.job.ref < |t.heap| && w.params.id == t.heap[w.job.ref].id
            && (About(w).Some? ==> w.params.id == About(w).value)
            && (IdReadsBack(w.params, rest) <==> Yaml.PlainLine(w.params.id))
            && (Hostname.ValidInstanceID(w.params.id) ==> Yaml.PlainLine(w.params.id))
  {
    RunKeepsInv(cfg, s, steps);
    var t := Run(cfg, s, steps);
    assert GoodHandler(t, t.handlers[h]);
    var id := t.handlers[h].params.id;
    Yaml.RawReadsBackExactly(id, rest);
    if Hostname.ValidInstanceID(id) {
      ValidIdIsPlain(id);
    }
  }

  lemma ValidIdIsPlain(id: string)
    requires Hostname.ValidInstanceID(id)
    ensures Yaml.PlainLine(id)
  {
  }

  /** Update checks no id: for an unknown one, whatever it is, the next manifest carries it,
      and so reads back only under that condition. */
  lemma UpdateDeploysAnyId(cfg: Config, s: System, h: nat, id: string, planID: string, rnd: Secrets, rest: string)
    requires h !in s.handlers && id !in View(s)
    ensures var t := Apply(cfg, s, UpdateBegin(h, id, true, Some(planID), rnd));
            && h in t.handlers && t.handlers[h].Deploying? && t.handlers[h].params.id == id
            && (IdReadsBack(t.handlers[h].params, rest) <==> Yaml.PlainLine(id))
  {
    Yaml.RawReadsBackExactly(id, rest);
    AdoptionStep(cfg, s, h, id, planID, rnd);
  }

  lemma AdoptionStep(cfg: Config, s: System, h: nat, id: string, planID: string, rnd: Secrets)
    requires h !in s.handlers && id !in View(s)
    ensures var t := Apply(cfg, s, UpdateBegin(h, id, true, Some(planID), rnd));
            h in t.handlers && t.handlers[h].Deploying? && t.handlers[h].params.id == id
  {
    AdoptionDeploys(cfg, s, id, planID, rnd);
    var rec := RecoveredRecord(cfg, id, RecoveryPlan(cfg, planID), rnd);
    AdoptionMoves(cfg, s, h, id, planID, rnd, rec);
    Begun(cfg, s, UpdateBegin(h, id, true, Some(planID), rnd));
  }

  lemma AdoptionMoves(cfg: Config, s: System, h: nat, id: string, planID: string, rnd: Secrets, rec: Record)
    requires StartUpdate(cfg, View(s), id, true, Some(planID), rnd) == UAdopt(rec)
    ensures Begin(cfg, s, UpdateBegin(h, id, true, Some(planID), rnd))
            == Move(Insert(id, rec), Deploying(ForUpdate(id, |s.heap|), BuildParams(cfg, rec)))
  {
  }

  lemma Begun(cfg: Config, s: System, l: Step)
    requires Begins(l) && l.h !in s.handlers && Begin(cfg, s, l).Move?
    ensures var t := Apply(cfg, s, l); l.h in t.handlers && t.handlers[l.h] == Begin(cfg, s, l).next
  {
  }

  lemma AdoptionDeploys(cfg: Config, s: System, id: string, planID: string, rnd: Secrets)
    requires id !in View(s)
    ensures var rec := RecoveredRecord(cfg, id, RecoveryPlan(cfg, planID), rnd);
            StartUpdate(cfg, View(s), id, true, Some(planID), rnd) == UAdopt(rec) && BuildParams(cfg, rec).id == id
  {
  }
}
