/** The broker as a concurrent step system. Every handler runs in several lock
    sections with Director and UAA calls in between, and carries a record reference
    across the unlocked gaps. One step is one section or one remote call; any
    number of handlers interleave in any order. Records live in a growing heap,
    so a handler can go on writing through a reference whose entry has left the map. */
module Protocol {
  import opened Strings
  import opened Domain
  import opened Handlers

  /** Why a manifest was built, and where its handler continues. */
  datatype Job =
    | ForProvision(id: string, ref: nat)
    | ForUpdate(id: string, ref: nat)
    | ForUpgrade(ref: nat, todo: seq<nat>, done: nat)

  datatype Tally = Tally(healthy: nat, failed: nat, inProgress: nat)

  /** A handler in flight, at the point where it released the lock. */
  datatype Handler =
    | Reserved(id: string, ref: nat, rnd: Secrets)
    | Deploying(job: Job, params: Params)
    | Deployed(job: Job, task: int)
    | RollingBack(id: string, why: Response)
    | Deleting(id: string, ref: nat, name: string, previous: Option<LifeState>)
    | Deleted(id: string, ref: nat, task: int)
    | Undeleting(id: string, ref: nat, previous: Option<LifeState>)
    | Polling(id: string, ref: nat, state: LifeState, task: int)
    | Polled(id: string, ref: nat, state: LifeState, answer: TaskAnswer)
    | Rolling(todo: seq<nat>, done: nat)
    | Tracking(ref: nat, task: int, todo: seq<nat>, done: nat)
    | Checking(pending: map<string, int>, total: nat, tally: Tally)
    | Checked(id: string, state: LifeState, pending: map<string, int>, total: nat, tally: Tally)
    | Answered(to: Option<string>, response: Response)

  datatype System = System(
    heap: seq<Record>,
    instances: map<string, nat>,
    tracker: map<string, int>,
    handlers: map<nat, Handler>)

  const EMPTY := System([], map[], map[], map[])

  /** The map of records a lock section sees. */
  function View(s: System): (mem: Memory)
    ensures forall k :: k in mem <==> k in s.instances && s.instances[k] < |s.heap|
    ensures forall k :: k in mem ==> mem[k] == s.heap[s.instances[k]]
  {
    map k | k in s.instances && s.instances[k] < |s.heap| :: s.heap[s.instances[k]]
  }

  /** One step. The Begin steps start handler h; the others let h go on. */
  datatype Step =
    | ProvisionBegin(h: nat, id: string, async: bool, body: Option<ProvisionRequest>, rnd: Secrets)
    | ProvisionBuild(h: nat, created: bool)
    | DeprovisionBegin(h: nat, id: string, async: bool)
    | UpdateBegin(h: nat, id: string, async: bool, request: Option<string>, rnd: Secrets)
    | PollBegin(h: nat, id: string)
    | BindBegin(h: nat, id: string)
    | UpgradeBegin(h: nat, count: int, chosen: seq<nat>)
    | UpgradeBuild(h: nat)
    | StatusBegin(h: nat)
    | DirectorDeploys(h: nat, deploy: DeployReply)
    | DirectorDeletes(h: nat, delete: DeleteReply)
    | DirectorReports(h: nat, key: string, answer: TaskAnswer)
    | Write(h: nat)

  predicate Begins(l: Step) {
    l.ProvisionBegin? || l.DeprovisionBegin? || l.UpdateBegin? || l.PollBegin? || l.BindBegin?
    || l.UpgradeBegin? || l.StatusBegin?
  }

  /** What a step does to the shared state. */
  datatype Effect =
    | Nothing
    | Insert(id: string, rec: Record)
    | Overwrite(ref: nat, rec: Record)
    | Remove(id: string)
    | Track(id: string, task: int)

  datatype Move = Stutter | Move(effect: Effect, next: Handler)

  // ---------- the sections, handler by handler ----------

  function BeginProvision(cfg: Config, s: System, l: Step): Move
    requires l.ProvisionBegin?
  {
    AdmissionMove(s, l.id, Admit(cfg, View(s), l.id, l.async, l.body, l.rnd), l.rnd)
  }

  function AdmissionMove(s: System, id: string, a: Admission, rnd: Secrets): Move {
    match a
    case Reject(why) => Move(Nothing, Answered(Some(id), why))
    case Reserve(rec) => Move(Insert(id, rec), Reserved(id, |s.heap|, rnd))
  }

  function BeginDeprovision(s: System, l: Step): Move
    requires l.DeprovisionBegin?
  {
    DeprovisionMove(s, l.id, StartDeprovision(View(s), l.id, l.async))
  }

  function DeprovisionMove(s: System, id: string, d: DeprovisionStart): Move
    requires d.DMark? ==> id in s.instances
  {
    match d
    case DAnswer(why) => Move(Nothing, Answered(Some(id), why))
    case DStub(rec) => Move(Insert(id, rec), Deleting(id, |s.heap|, rec.deploymentName, None))
    case DMark(rec, previous) =>
      Move(Overwrite(s.instances[id], rec), Deleting(id, s.instances[id], rec.deploymentName, Some(previous)))
  }

  function BeginUpdate(cfg: Config, s: System, l: Step): Move
    requires l.UpdateBegin?
  {
    UpdateMove(cfg, s, l.id, StartUpdate(cfg, View(s), l.id, l.async, l.request, l.rnd))
  }

  function UpdateMove(cfg: Config, s: System, id: string, u: UpdateStart): Move
    requires u.URedeploy? ==> id in s.instances
  {
    match u
    case URefuse(why) => Move(Nothing, Answered(Some(id), why))
    case UAdopt(rec) => Move(Insert(id, rec), Deploying(ForUpdate(id, |s.heap|), BuildParams(cfg, rec)))
    case URedeploy(rec) =>
      Move(Overwrite(s.instances[id], rec), Deploying(ForUpdate(id, s.instances[id]), BuildParams(cfg, rec)))
  }

  function BeginPoll(s: System, id: string): Move {
    if id !in View(s) then Move(Nothing, Answered(Some(id), NotFound))
    else
      var r := View(s)[id];
      if NeedsQuery(r.state, r.boshTaskID)
      then Move(Nothing, Polling(id, s.instances[id], r.state, r.boshTaskID))
      else Move(Nothing, Answered(Some(id), LastOperation(ReportWithoutQuery(r.state))))
  }

  function BeginBind(s: System, id: string): Move {
    Move(Nothing, Answered(Some(id), if id in View(s) then BindReply(View(s)[id]) else NotFound))
  }

  /** The references the candidate loop may collect: it visits the map in any order
      and stops at count. */
  predicate Candidates(version: string, s: System, count: int, chosen: seq<nat>) {
    var outdated := OutdatedKeys(version, View(s));
    (forall i :: 0 <= i < |chosen| ==> exists k :: k in outdated && s.instances[k] == chosen[i])
    && (forall i, j :: 0 <= i < j < |chosen| ==> chosen[i] != chosen[j])
    && |chosen| == if count < |outdated| then count else |outdated|
  }

  function BeginUpgrade(cfg: Config, s: System, l: Step): Move
    requires l.UpgradeBegin?
  {
    if l.count <= 0 then Move(Nothing, Answered(None, BadRequest))
    else if !Candidates(cfg.openClawVersion, s, l.count, l.chosen) then Stutter
    else Move(Nothing, Rolling(l.chosen, 0))
  }

  function BuildUpgrade(cfg: Config, s: System, w: Handler): Move
    requires w.Rolling?
  {
    if w.todo == [] then Move(Nothing, Answered(None, Upgrading(w.done)))
    else if w.todo[0] >= |s.heap| then Stutter
    else Move(Nothing, Deploying(ForUpgrade(w.todo[0], w.todo[1..], w.done), BuildParams(cfg, s.heap[w.todo[0]])))
  }

  /** The Director answers a deploy, or the manifest does not render. */
  function AfterDeploy(job: Job, reply: DeployReply): Handler {
    if reply.DeployTask? then Deployed(job, reply.task)
    else
      match job
      case ForProvision(id, ref) => RollingBack(id, FailureOf(reply))
      case ForUpdate(id, ref) => Answered(Some(id), FailureOf(reply))
      case ForUpgrade(ref, todo, done) => Rolling(todo, done)
  }

  function AfterDelete(w: Handler, reply: DeleteReply): Handler
    requires w.Deleting?
  {
    if reply.DeleteTask? then Deleted(w.id, w.ref, reply.task) else Undeleting(w.id, w.ref, w.previous)
  }

  function AfterPoll(w: Handler, a: TaskAnswer): Handler
    requires w.Polling?
  {
    if EffectOfPoll(w.state, a).NoEffect?
    then Answered(Some(w.id), LastOperation(ReportAfterQuery(a)))
    else Polled(w.id, w.ref, w.state, a)
  }

  function AfterCheck(w: Handler, key: string, a: TaskAnswer): Handler
    requires w.Checking? && key in w.pending
  {
    var rest := w.pending - {key};
    var t := w.tally;
    if a.TaskUnreachable? then Checking(rest, w.total, t.(failed := t.failed + 1))
    else if a.TaskDone? then Checked(key, Ready, rest, w.total, t.(healthy := t.healthy + 1))
    else if Terminal(a) then Checked(key, Failed, rest, w.total, t.(failed := t.failed + 1))
    else Checking(rest, w.total, t.(inProgress := t.inProgress + 1))
  }

  // The closing lock sections, which write through the reference or the key that the
  // handler kept.

  function WriteDeployed(cfg: Config, s: System, job: Job, task: int): Move {
    if job.ref >= |s.heap| then Stutter
    else
      var r := s.heap[job.ref];
      match job
      case ForProvision(id, ref) =>
        Move(Overwrite(ref, r.(boshTaskID := task)), Answered(Some(id), Accepted("provision-" + id)))
      case ForUpdate(id, ref) =>
        Move(Overwrite(ref, Redeployed(r, task)), Answered(Some(id), Accepted("update-" + id)))
      case ForUpgrade(ref, todo, done) =>
        Move(Overwrite(ref, Upgraded(cfg.openClawVersion, r, task)), Tracking(ref, task, todo, done))
  }

  function WriteDeleted(s: System, id: string, ref: nat, task: int): Move {
    if ref >= |s.heap| then Stutter
    else Move(Overwrite(ref, s.heap[ref].(boshTaskID := task)), Answered(Some(id), Accepted("deprovision-" + id)))
  }

  function WriteUndeleting(s: System, id: string, ref: nat, previous: Option<LifeState>): Move {
    if previous.None? then Move(Remove(id), Answered(Some(id), Gone))
    else if ref >= |s.heap| then Stutter
    else Move(Overwrite(ref, s.heap[ref].(state := previous.value)), Answered(Some(id), DeprovisionFailed))
  }

  function WritePolled(s: System, id: string, ref: nat, state: LifeState, a: TaskAnswer): Move {
    var reply := Answered(Some(id), LastOperation(ReportAfterQuery(a)));
    match EffectOfPoll(state, a)
    case NoEffect => Move(Nothing, reply)
    case SetState(st) => if ref >= |s.heap| then Stutter else Move(Overwrite(ref, s.heap[ref].(state := st)), reply)
    case Forget => Move(Remove(id), reply)
  }

  function WriteChecked(s: System, id: string, state: LifeState, next: Handler): Move {
    if id in View(s) then Move(Overwrite(s.instances[id], View(s)[id].(state := state)), next) else Move(Nothing, next)
  }

  function WriteBack(cfg: Config, s: System, w: Handler): Move {
    match w
    case Deployed(job, task) => WriteDeployed(cfg, s, job, task)
    case RollingBack(id, why) => Move(Remove(id), Answered(Some(id), why))
    case Deleted(id, ref, task) => WriteDeleted(s, id, ref, task)
    case Undeleting(id, ref, previous) => WriteUndeleting(s, id, ref, previous)
    case Polled(id, ref, state, a) => WritePolled(s, id, ref, state, a)
    case Tracking(ref, task, todo, done) =>
      if ref >= |s.heap| then Stutter else Move(Track(s.heap[ref].id, task), Rolling(todo, done + 1))
    case Checked(id, state, pending, total, tally) => WriteChecked(s, id, state, Checking(pending, total, tally))
    case Checking(pending, total, tally) =>
      if pending == map[]
      then Move(Nothing, Answered(None, UpgradeStatus(tally.healthy, total, tally.failed, tally.inProgress)))
      else Stutter
    case _ => Stutter
  }

  /** Handler h's next section or remote call, for a handler that has begun. */
  function Continue(cfg: Config, s: System, l: Step, w: Handler): Move {
    match l
    case ProvisionBuild(h, created) =>
      if w.Reserved? && w.ref < |s.heap| then
        var rec := AfterSso(cfg, s.heap[w.ref], created, w.rnd);
        Move(Overwrite(w.ref, rec), Deploying(ForProvision(w.id, w.ref), BuildParams(cfg, rec)))
      else Stutter
    case UpgradeBuild(h) => if w.Rolling? then BuildUpgrade(cfg, s, w) else Stutter
    case DirectorDeploys(h, reply) => if w.Deploying? then Move(Nothing, AfterDeploy(w.job, reply)) else Stutter
    case DirectorDeletes(h, reply) => if w.Deleting? then Move(Nothing, AfterDelete(w, reply)) else Stutter
    case DirectorReports(h, key, a) =>
      if w.Polling? then Move(Nothing, AfterPoll(w, a))
      else if w.Checking? && key in w.pending then Move(Nothing, AfterCheck(w, key, a))
      else Stutter
    case Write(h) => WriteBack(cfg, s, w)
    case _ => Stutter
  }

  function Begin(cfg: Config, s: System, l: Step): Move {
    match l
    case ProvisionBegin(_, _, _, _, _) => BeginProvision(cfg, s, l)
    case DeprovisionBegin(_, _, _) => BeginDeprovision(s, l)
    case UpdateBegin(_, _, _, _, _) => BeginUpdate(cfg, s, l)
    case PollBegin(_, id) => BeginPoll(s, id)
    case BindBegin(_, id) => BeginBind(s, id)
    case UpgradeBegin(_, _, _) => BeginUpgrade(cfg, s, l)
    case StatusBegin(_) => Move(Nothing, Checking(s.tracker, |s.tracker|, Tally(0, 0, 0)))
    case _ => Stutter
  }

  function MoveOf(cfg: Config, s: System, l: Step): Move {
    if Begins(l) then
      if l.h in s.handlers then Stutter else Begin(cfg, s, l)
    else
      if l.h in s.handlers then Continue(cfg, s, l, s.handlers[l.h]) else Stutter
  }

  function Perform(s: System, e: Effect): System {
    match e
    case Nothing => s
    case Insert(id, rec) => s.(heap := s.heap + [rec], instances := s.instances[id := |s.heap|])
    case Overwrite(ref, rec) => if ref < |s.heap| then s.(heap := s.heap[ref := rec]) else s
    case Remove(id) => s.(instances := s.instances - {id})
    case Track(id, task) => s.(tracker := s.tracker[id := task])
  }

  /** A step that its handler cannot take leaves the system alone. */
  function Apply(cfg: Config, s: System, l: Step): System {
    match MoveOf(cfg, s, l)
    case Stutter => s
    case Move(e, next) => Perform(s, e).(handlers := s.handlers[l.h := next])
  }

  function Run(cfg: Config, s: System, steps: seq<Step>): System
    decreases |steps|
  {
    if steps == [] then s else Run(cfg, Apply(cfg, s, steps[0]), steps[1..])
  }

  lemma {:induction false} RunConcat(cfg: Config, s: System, a: seq<Step>, b: seq<Step>)
    ensures Run(cfg, s, a + b) == Run(cfg, Run(cfg, s, a), b)
    decreases |a|
  {
    if a == [] {
      assert a + b == b;
    } else {
      assert (a + b)[1..] == a[1..] + b;
      RunConcat(cfg, Apply(cfg, s, a[0]), a[1..], b);
    }
  }
}
