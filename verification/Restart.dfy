/** The state file: what a restart of the broker loses, over runs of handlers that
    run one after another. */
module Restart {
  import opened Strings
  import opened Domain
  import opened Handlers
  import opened Sequential

  /** The broker's own state and instances.json (absent until the first save). */
  datatype Store = Store(mem: Memory, file: Option<Memory>, tracker: map<string, int>)

  datatype Op =
    | OpProvision(id: string, async: bool, body: Option<ProvisionRequest>, rnd: Secrets, created: bool,
                  deploy: DeployReply)
    | OpDeprovision(id: string, async: bool, delete: DeleteReply)
    | OpUpdate(id: string, async: bool, request: Option<string>, rnd: Secrets, deploy: DeployReply)
    | OpPoll(id: string, answer: TaskAnswer)
    | OpBind(id: string)
    | OpUpgrade(count: int, chosen: seq<string>, replies: seq<DeployReply>)
    | OpStatus(answers: map<string, TaskAnswer>)

  /** saveState, with writes that succeed. */
  function Save(st: Store): Store {
    st.(file := Some(st.mem))
  }

  function SaveIf(saved: bool, st: Store): Store {
    if saved then Save(st) else st
  }

  datatype Reply = Reply(store: Store, response: Response)

  /** Each handler with the save calls at the places where it makes them. */
  ghost function Handle(cfg: Config, st: Store, op: Op): Reply {
    match op
    case OpProvision(id, async, body, rnd, created, deploy) =>
      var o := Provision(cfg, st.mem, id, async, body, rnd, created, deploy);
      Reply(SaveIf(o.response.Accepted?, st.(mem := o.mem)), o.response)
    case OpDeprovision(id, async, delete) =>
      var o := Deprovision(st.mem, id, async, delete);
      var started := !StartDeprovision(st.mem, id, async).DAnswer?;
      Reply(SaveIf(started && o.response.Accepted?, st.(mem := o.mem)), o.response)
    case OpUpdate(id, async, request, rnd, deploy) =>
      var o := Update(cfg, st.mem, id, async, request, rnd, deploy);
      Reply(SaveIf(o.response.Accepted?, st.(mem := o.mem)), o.response)
    case OpPoll(id, answer) =>
      var o := Poll(st.mem, id, answer);
      Reply(SaveIf(PollWrites(st.mem, id, answer), st.(mem := o.mem)), o.response)
    case OpBind(id) => Reply(st, Bind(st.mem, id))
    case OpUpgrade(count, chosen, replies) =>
      if count <= 0 || !CandidateChoice(cfg.openClawVersion, st.mem, count, chosen) then Reply(st, BadRequest)
      else
        var n := |chosen|;
        var mem := UpgradeFirst(cfg.openClawVersion, st.mem, chosen, replies, n);
        Reply(Save(st.(mem := mem, tracker := TrackFirst(st.tracker, chosen, replies, n))),
              Upgrading(AcceptedFirst(replies, n)))
    case OpStatus(answers) =>
      Reply(Save(st.(mem := CheckTracked(st.mem, st.tracker.Keys, answers))),
            StatusReply(st.tracker.Keys, answers))
  }

  predicate PollWrites(mem: Memory, id: string, answer: TaskAnswer) {
    id in mem && NeedsQuery(mem[id].state, mem[id].boshTaskID)
    && !EffectOfPoll(mem[id].state, answer).NoEffect?
  }

  function Contents(file: Option<Memory>): Memory {
    if file.Some? then file.value else map[]
  }

  /** The file says what the memory says. */
  predicate Durable(st: Store) {
    Contents(st.file) == st.mem
  }

  /** New and loadState: the instance map from the file, an empty upgrade tracker. */
  function Reloaded(st: Store): Store {
    Store(Contents(st.file), st.file, map[])
  }

  /** The handlers that save: every accepted request that has changed something, every poll
      that writes an outcome, and every upgrade and status call that is served. */
  predicate Saves(mem: Memory, op: Op, response: Response) {
    match op
    case OpProvision(_, _, _, _, _, _) => response.Accepted?
    case OpDeprovision(id, _, _) => response.Accepted? && !(id in mem && mem[id].state == Deprovisioning)
    case OpUpdate(_, _, _, _, _) => response.Accepted?
    case OpPoll(id, answer) =>
      && id in mem && mem[id].boshTaskID != 0
      && ((mem[id].state == Provisioning && answer in {TaskDone, TaskError, TaskCancelled})
          || (mem[id].state == Deprovisioning && answer == TaskDone))
    case OpBind(_) => false
    case OpUpgrade(_, _, _) => response.Upgrading?
    case OpStatus(_) => true
  }

  /** A handler leaves the file alone or makes it the map that it leaves, and which of the two
      follows from the request, the entry and the answer. */
  lemma SavesExactly(cfg: Config, st: Store, op: Op)
    ensures var r := Handle(cfg, st, op);
            r.store.file == if Saves(st.mem, op, r.response) then Some(r.store.mem) else st.file
  {
    if op.OpDeprovision? {
      DeprovisionAcceptedExactly(st.mem, op.id, op.async, op.delete);
    }
  }

  /** An update of an unknown id, or one that asks a known instance to move to another,
      existing plan, whose deployment then fails. */
  predicate LosesUpdate(cfg: Config, mem: Memory, op: Op) {
    op.OpUpdate? && op.async && op.request.Some? && !op.deploy.DeployTask?
    && (op.id !in mem || (op.request.value != "" && op.request.value != mem[op.id].planID
                          && FindPlan(cfg, op.request.value).Some?))
  }

  /** Which updates without a 202 leave the map as it was. */
  lemma FailedUpdateKeepsMapExactly(cfg: Config, mem: Memory, id: string, async: bool, request: Option<string>,
                                    rnd: Secrets, reply: DeployReply)
    ensures var o := Update(cfg, mem, id, async, request, rnd, reply);
            && (o.response.Accepted? ==> reply.DeployTask?)
            && (!o.response.Accepted? ==>
                  (o.mem == mem <==> !LosesUpdate(cfg, mem, OpUpdate(id, async, request, rnd, reply))))
  {
    var u := StartUpdate(cfg, mem, id, async, request, rnd);
    if u.URedeploy? {
      MovesExactly(cfg, mem, id, async, request, rnd);
    }
    if !u.URefuse? && !reply.DeployTask? {
      FinishedUpdate(mem, id, u.rec, reply);
    }
  }

  lemma MovesExactly(cfg: Config, mem: Memory, id: string, async: bool, request: Option<string>, rnd: Secrets)
    requires StartUpdate(cfg, mem, id, async, request, rnd).URedeploy?
    ensures id in mem && request.Some?
    ensures StartUpdate(cfg, mem, id, async, request, rnd).rec != mem[id]
            <==> request.value != "" && request.value != mem[id].planID && FindPlan(cfg, request.value).Some?
  {
  }

  lemma FinishedUpdate(mem: Memory, id: string, rec: Record, reply: DeployReply)
    requires !reply.DeployTask?
    ensures FinishUpdate(mem[id := rec], id, rec, reply).mem == mem <==> id in mem && mem[id] == rec
    ensures !FinishUpdate(mem[id := rec], id, rec, reply).response.Accepted?
  {
  }

  lemma UpdateDurableExactly(cfg: Config, st: Store, op: Op)
    requires Durable(st) && op.OpUpdate?
    ensures Durable(Handle(cfg, st, op).store) <==> !LosesUpdate(cfg, st.mem, op)
  {
    FailedUpdateKeepsMapExactly(cfg, st.mem, op.id, op.async, op.request, op.rnd, op.deploy);
  }

  lemma ProvisionDurable(cfg: Config, st: Store, op: Op)
    requires Durable(st) && op.OpProvision?
    ensures Durable(Handle(cfg, st, op).store)
  {
    FailedProvisionLeavesMap(cfg, st.mem, op.id, op.async, op.body, op.rnd, op.created, op.deploy);
  }

  lemma DeprovisionDurable(cfg: Config, st: Store, op: Op)
    requires Durable(st) && op.OpDeprovision?
    ensures Durable(Handle(cfg, st, op).store)
  {
    FailedDeprovisionLeavesMap(st.mem, op.id, op.async, op.delete);
  }

  /** One handler keeps file and memory equal exactly when it is not such an update. */
  lemma HandleDurableExactly(cfg: Config, st: Store, op: Op)
    requires Durable(st)
    ensures Durable(Handle(cfg, st, op).store) <==> !LosesUpdate(cfg, st.mem, op)
  {
    match op
    case OpProvision(_, _, _, _, _, _) => ProvisionDurable(cfg, st, op);
    case OpDeprovision(_, _, _) => DeprovisionDurable(cfg, st, op);
    case OpUpdate(_, _, _, _, _) => UpdateDurableExactly(cfg, st, op);
    case _ => OtherDurable(cfg, st, op);
  }

  lemma OtherDurable(cfg: Config, st: Store, op: Op)
    requires Durable(st) && !op.OpProvision? && !op.OpDeprovision? && !op.OpUpdate?
    ensures Durable(Handle(cfg, st, op).store)
  {
  }

  ghost function RunOps(cfg: Config, st: Store, ops: seq<Op>): Store
    decreases |ops|
  {
    if ops == [] then st else RunOps(cfg, Handle(cfg, st, ops[0]).store, ops[1..])
  }

  ghost predicate NoLostUpdate(cfg: Config, st: Store, ops: seq<Op>)
    decreases |ops|
  {
    ops == [] || (!LosesUpdate(cfg, st.mem, ops[0]) && NoLostUpdate(cfg, Handle(cfg, st, ops[0]).store, ops[1..]))
  }

  /** At every handler boundary of a run without such updates the file equals the memory. */
  lemma {:induction false} RunIsDurable(cfg: Config, st: Store, ops: seq<Op>)
    requires Durable(st) && NoLostUpdate(cfg, st, ops)
    ensures Durable(RunOps(cfg, st, ops))
    decreases |ops|
  {
    if ops != [] {
      HandleDurableExactly(cfg, st, ops[0]);
      RunIsDurable(cfg, Handle(cfg, st, ops[0]).store, ops[1..]);
    }
  }

  predicate IsOsb(op: Op) {
    !op.OpUpgrade? && !op.OpStatus?
  }

  /** The answers of the Open Service Broker endpoints along a run. */
  ghost function Answers(cfg: Config, st: Store, ops: seq<Op>): seq<Response>
    decreases |ops|
  {
    if ops == [] then []
    else
      var r := Handle(cfg, st, ops[0]);
      (if IsOsb(ops[0]) then [r.response] else []) + Answers(cfg, r.store, ops[1..])
  }

  predicate NoStatus(ops: seq<Op>) {
    forall i :: 0 <= i < |ops| ==> !ops[i].OpStatus?
  }

  lemma HandleIgnoresTracker(cfg: Config, a: Store, b: Store, op: Op)
    requires a.mem == b.mem && !op.OpStatus?
    ensures Handle(cfg, a, op).response == Handle(cfg, b, op).response
    ensures Handle(cfg, a, op).store.mem == Handle(cfg, b, op).store.mem
  {
    if op.OpUpgrade? {
      UpgradeIgnoresTracker(cfg, a, b, op);
    } else {
      OsbIgnoresTracker(cfg, a, b, op);
    }
  }

  lemma UpgradeIgnoresTracker(cfg: Config, a: Store, b: Store, op: Op)
    requires a.mem == b.mem && op.OpUpgrade?
    ensures Handle(cfg, a, op).response == Handle(cfg, b, op).response
    ensures Handle(cfg, a, op).store.mem == Handle(cfg, b, op).store.mem
  {
  }

  lemma OsbIgnoresTracker(cfg: Config, a: Store, b: Store, op: Op)
    requires a.mem == b.mem && IsOsb(op)
    ensures Handle(cfg, a, op).response == Handle(cfg, b, op).response
    ensures Handle(cfg, a, op).store.mem == Handle(cfg, b, op).store.mem
  {
  }

  /** Without a later AdminUpgradeStatus a restart at a durable moment changes no answer. */
  lemma {:induction false} RestartInvisibleWithoutStatus(cfg: Config, a: Store, b: Store, ops: seq<Op>)
    requires a.mem == b.mem && NoStatus(ops)
    ensures Answers(cfg, a, ops) == Answers(cfg, b, ops)
    decreases |ops|
  {
    if ops != [] {
      HandleIgnoresTracker(cfg, a, b, ops[0]);
      RestartInvisibleWithoutStatus(cfg, Handle(cfg, a, ops[0]).store, Handle(cfg, b, ops[0]).store, ops[1..]);
    }
  }

  /** Three requests that tell a tracked instance from an untracked one. */
  function Probe(k: string, rnd: Secrets): seq<Op> {
    [ OpUpdate(k, true, Some(""), rnd, DeployTask(1)), OpStatus(map[k := TaskDone]), OpBind(k) ]
  }

  lemma ProbedUpdate(cfg: Config, st: Store, k: string, rnd: Secrets)
    ensures var t := Handle(cfg, st, Probe(k, rnd)[0]).store;
            k in t.mem && t.mem[k].state == Provisioning && t.tracker == st.tracker
  {
    PlanlessUpdateStarts(cfg, st.mem, k, rnd);
    FinishedWell(st.mem, k, StartUpdate(cfg, st.mem, k, true, Some(""), rnd).rec, 1);
  }

  lemma PlanlessUpdateStarts(cfg: Config, mem: Memory, k: string, rnd: Secrets)
    ensures !StartUpdate(cfg, mem, k, true, Some(""), rnd).URefuse?
  {
  }

  lemma FinishedWell(mem: Memory, k: string, rec: Record, task: int)
    ensures var o := FinishUpdate(mem[k := rec], k, rec, DeployTask(task));
            k in o.mem && o.mem[k].state == Provisioning && o.response.Accepted?
  {
  }

  lemma ProbedBind(cfg: Config, st: Store, k: string)
    requires k in st.mem && st.mem[k].state == Provisioning
    ensures var t := Handle(cfg, st, OpStatus(map[k := TaskDone])).store;
            Handle(cfg, t, OpBind(k)).response.Bound? <==> k in st.tracker
  {
  }

  lemma AnswersOfProbe(cfg: Config, st: Store, k: string, rnd: Secrets)
    ensures var answers := Answers(cfg, st, Probe(k, rnd));
            |answers| == 2 && (answers[1].Bound? <==> k in st.tracker)
  {
    var ops := Probe(k, rnd);
    var t := Handle(cfg, st, ops[0]).store;
    var u := Handle(cfg, t, ops[1]).store;
    ProbedUpdate(cfg, st, k, rnd);
    ProbedBind(cfg, t, k);
    LastAnswer(cfg, u, OpBind(k));
    assert ops[1..] == [ops[1], ops[2]] && ops[1..][1..] == [ops[2]];
    assert Answers(cfg, t, ops[1..]) == Answers(cfg, u, [ops[2]]);
  }

  lemma LastAnswer(cfg: Config, st: Store, op: Op)
    requires IsOsb(op)
    ensures Answers(cfg, st, [op]) == [Handle(cfg, st, op).response]
  {
  }

  /** A restart at a durable moment is invisible to every later sequence of requests
      and Director answers exactly when no upgrade task is being tracked: the file
      does not hold the tracker, and AdminUpgradeStatus moves tracked instances to
      "ready" or "failed". */
  lemma RestartInvisibleExactly(cfg: Config, st: Store)
    requires Durable(st)
    ensures (forall ops :: Answers(cfg, Reloaded(st), ops) == Answers(cfg, st, ops)) <==> st.tracker == map[]
  {
    if st.tracker == map[] {
      assert Reloaded(st) == st;
    } else {
      var k :| k in st.tracker;
      var rnd := Secrets("", "", "", "");
      AnswersOfProbe(cfg, st, k, rnd);
      AnswersOfProbe(cfg, Reloaded(st), k, rnd);
      assert Answers(cfg, Reloaded(st), Probe(k, rnd)) != Answers(cfg, st, Probe(k, rnd));
    }
  }

  /** So at any boundary of a run that lost no update, a restart changes no later
      answer as long as no status call comes after it. */
  lemma RestartBetweenHandlers(cfg: Config, st: Store, ops: seq<Op>, later: seq<Op>)
    requires Durable(st) && NoLostUpdate(cfg, st, ops) && NoStatus(later)
    ensures var mid := RunOps(cfg, st, ops);
            Answers(cfg, Reloaded(mid), later) == Answers(cfg, mid, later)
  {
    RunIsDurable(cfg, st, ops);
    var mid := RunOps(cfg, st, ops);
    RestartInvisibleWithoutStatus(cfg, Reloaded(mid), mid, later);
  }
}
