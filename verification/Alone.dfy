/** A handler whose steps run one after another, with no other handler in between,
    does what its sequential form says: the lock sections and remote calls of the
    protocol compose to one transaction on the instance map. */
module Alone {
  import opened Strings
  import opened Domain
  import opened Handlers
  import opened Protocol
  import opened Invariant
  import Sequential

  lemma RunThree(cfg: Config, s: System, a: Step, b: Step, c: Step)
    ensures Run(cfg, s, [a, b, c]) == Apply(cfg, Apply(cfg, Apply(cfg, s, a), b), c)
  {
    RunSplits(cfg, s, a, [b, c]);
    RunSplits(cfg, Apply(cfg, s, a), b, [c]);
    RunSplits(cfg, Apply(cfg, Apply(cfg, s, a), b), c, []);
    assert [a] + [b, c] == [a, b, c] && [b] + [c] == [b, c] && [c] + [] == [c];
  }

  lemma RunFour(cfg: Config, s: System, a: Step, b: Step, c: Step, d: Step)
    ensures Run(cfg, s, [a, b, c, d]) == Apply(cfg, Apply(cfg, Apply(cfg, Apply(cfg, s, a), b), c), d)
  {
    RunSplits(cfg, s, a, [b, c, d]);
    RunThree(cfg, Apply(cfg, s, a), b, c, d);
    assert [a] + [b, c, d] == [a, b, c, d];
  }

  lemma RunSplits(cfg: Config, s: System, a: Step, rest: seq<Step>)
    ensures Run(cfg, s, [a] + rest) == Run(cfg, Apply(cfg, s, a), rest)
  {
  }

  /** Entries sit under their own id, so different entries use different records. */
  predicate Entries(s: System) {
    forall k :: k in s.instances ==> Refers(s, s.instances[k], k)
  }

  /** Handler h holds entry k through ref, and the map is mem apart from k. */
  predicate Holds(s: System, mem: Memory, k: string, ref: nat, rec: Record) {
    Entries(s) && k in s.instances && s.instances[k] == ref && s.heap[ref] == rec && View(s) == mem[k := rec]
  }

  lemma OverwriteView(s: System, t: System, k: string, ref: nat, next: Record)
    requires Entries(s) && k in s.instances && s.instances[k] == ref && next.id == k
    requires t.heap == s.heap[ref := next] && t.instances == s.instances
    ensures View(t) == View(s)[k := next] && Entries(t)
  {
  }

  /** Writing through the reference changes the map at k only. */
  lemma WriteThrough(s: System, t: System, mem: Memory, k: string, ref: nat, rec: Record, next: Record)
    requires Holds(s, mem, k, ref, rec) && next.id == k
    requires t.heap == s.heap[ref := next] && t.instances == s.instances
    ensures Holds(t, mem, k, ref, next)
  {
    OverwriteView(s, t, k, ref, next);
    assert mem[k := rec][k := next] == mem[k := next];
  }

  lemma Removed(s: System, t: System, mem: Memory, k: string, ref: nat, rec: Record)
    requires Holds(s, mem, k, ref, rec) && t.heap == s.heap && t.instances == s.instances - {k}
    ensures View(t) == mem[k := rec] - {k}
  {
  }

  lemma Inserted(s: System, t: System, k: string, rec: Record)
    requires Entries(s) && k !in View(s) && rec.id == k
    requires t.heap == s.heap + [rec] && t.instances == s.instances[k := |s.heap|]
    ensures Holds(t, View(s), k, |s.heap|, rec)
  {
  }

  lemma Known(s: System, k: string)
    requires Entries(s) && k in View(s)
    ensures Holds(s, View(s), k, s.instances[k], View(s)[k]) && View(s)[k].id == k
  {
  }

  /** An answered handler has nothing left to do. */
  lemma AnsweredStays(cfg: Config, s: System, l: Step)
    requires !Begins(l) && l.h in s.handlers && s.handlers[l.h].Answered?
    ensures Apply(cfg, s, l) == s
  {
  }

  predicate IsAnswered(s: System, h: nat, k: string, response: Response) {
    h in s.handlers && s.handlers[h] == Answered(Some(k), response)
  }

  // ---------- single steps ----------

  function Moved(s: System, h: nat, m: Move): System
    requires m.Move?
  {
    Perform(s, m.effect).(handlers := s.handlers[h := m.next])
  }

  lemma BeginStep(cfg: Config, s: System, l: Step)
    requires Begins(l) && l.h !in s.handlers && Begin(cfg, s, l).Move?
    ensures Apply(cfg, s, l) == Moved(s, l.h, Begin(cfg, s, l))
  {
  }

  lemma ContinueStep(cfg: Config, s: System, l: Step)
    requires !Begins(l) && l.h in s.handlers && Continue(cfg, s, l, s.handlers[l.h]).Move?
    ensures Apply(cfg, s, l) == Moved(s, l.h, Continue(cfg, s, l, s.handlers[l.h]))
  {
  }

  /** Handler h writes back through its reference and goes on as `then`. */
  lemma WritesBack(cfg: Config, s: System, l: Step, mem: Memory, k: string, ref: nat, rec: Record, next: Record,
                   after: Handler)
    requires Holds(s, mem, k, ref, rec) && next.id == k
    requires !Begins(l) && l.h in s.handlers
    requires Continue(cfg, s, l, s.handlers[l.h]) == Move(Overwrite(ref, next), after)
    ensures var t := Apply(cfg, s, l);
            Holds(t, mem, k, ref, next) && l.h in t.handlers && t.handlers[l.h] == after
  {
    ContinueStep(cfg, s, l);
    WriteHolds(s, mem, k, ref, rec, next, l.h, after);
  }

  lemma WriteHolds(s: System, mem: Memory, k: string, ref: nat, rec: Record, next: Record, h: nat, after: Handler)
    requires Holds(s, mem, k, ref, rec) && next.id == k
    ensures var t := Moved(s, h, Move(Overwrite(ref, next), after));
            Holds(t, mem, k, ref, next) && h in t.handlers && t.handlers[h] == after
  {
    assert Refers(s, ref, k);
    WriteThrough(s, Moved(s, h, Move(Overwrite(ref, next), after)), mem, k, ref, rec, next);
  }

  lemma RollsBack(cfg: Config, s: System, l: Step, mem: Memory, k: string, ref: nat, rec: Record, after: Handler)
    requires Holds(s, mem, k, ref, rec)
    requires !Begins(l) && l.h in s.handlers
    requires Continue(cfg, s, l, s.handlers[l.h]) == Move(Remove(k), after)
    ensures var t := Apply(cfg, s, l);
            View(t) == mem[k := rec] - {k} && l.h in t.handlers && t.handlers[l.h] == after
  {
    ContinueStep(cfg, s, l);
    Removed(s, Moved(s, l.h, Move(Remove(k), after)), mem, k, ref, rec);
  }

  lemma MovesOn(cfg: Config, s: System, l: Step, mem: Memory, k: string, ref: nat, rec: Record, after: Handler)
    requires Holds(s, mem, k, ref, rec)
    requires !Begins(l) && l.h in s.handlers
    requires Continue(cfg, s, l, s.handlers[l.h]) == Move(Nothing, after)
    ensures var t := Apply(cfg, s, l);
            Holds(t, mem, k, ref, rec) && l.h in t.handlers && t.handlers[l.h] == after
  {
    ContinueStep(cfg, s, l);
    var t := Moved(s, l.h, Move(Nothing, after));
    assert View(t) == View(s);
    assert Entries(t) by {
      forall j | j in t.instances ensures Refers(t, t.instances[j], j) {
        assert Refers(s, s.instances[j], j);
      }
    }
  }

  /** What the closing sections write, for a handler that holds its entry. */
  lemma WriteBackValues(cfg: Config, s: System, mem: Memory, k: string, ref: nat, rec: Record, task: int)
    requires Holds(s, mem, k, ref, rec)
    ensures WriteBack(cfg, s, Deployed(ForProvision(k, ref), task))
         == Move(Overwrite(ref, rec.(boshTaskID := task)), Answered(Some(k), Accepted("provision-" + k)))
    ensures WriteBack(cfg, s, Deployed(ForUpdate(k, ref), task))
         == Move(Overwrite(ref, Redeployed(rec, task)), Answered(Some(k), Accepted("update-" + k)))
    ensures WriteBack(cfg, s, Deleted(k, ref, task))
         == Move(Overwrite(ref, rec.(boshTaskID := task)), Answered(Some(k), Accepted("deprovision-" + k)))
  {
    assert Refers(s, ref, k);
  }

  lemma UndeleteValue(cfg: Config, s: System, mem: Memory, k: string, ref: nat, rec: Record, previous: LifeState)
    requires Holds(s, mem, k, ref, rec)
    ensures WriteBack(cfg, s, Undeleting(k, ref, Some(previous)))
         == Move(Overwrite(ref, rec.(state := previous)), Answered(Some(k), DeprovisionFailed))
  {
  }

  lemma PolledValue(cfg: Config, s: System, mem: Memory, k: string, ref: nat, rec: Record, state: LifeState,
                    a: TaskAnswer)
    requires Holds(s, mem, k, ref, rec) && EffectOfPoll(state, a).SetState?
    ensures WriteBack(cfg, s, Polled(k, ref, state, a))
         == Move(Overwrite(ref, rec.(state := EffectOfPoll(state, a).state)),
                 Answered(Some(k), LastOperation(ReportAfterQuery(a))))
  {
    assert Refers(s, ref, k);
  }

  // ---------- Provision ----------

  lemma TaskWritten(cfg: Config, s: System, mem: Memory, h: nat, id: string, ref: nat, rec: Record, task: int)
    requires Holds(s, mem, id, ref, rec) && rec.id == id
    requires h in s.handlers && s.handlers[h] == Deployed(ForProvision(id, ref), task)
    ensures var t := Apply(cfg, s, Write(h));
            && View(t) == mem[id := rec.(boshTaskID := task)]
            && IsAnswered(t, h, id, Accepted("provision-" + id))
  {
    WriteBackValues(cfg, s, mem, id, ref, rec, task);
    WritesBack(cfg, s, Write(h), mem, id, ref, rec, rec.(boshTaskID := task),
               Answered(Some(id), Accepted("provision-" + id)));
  }

  lemma FinishProvisionValue(mem: Memory, id: string, rec: Record, reply: DeployReply)
    ensures var o := Sequential.FinishProvision(mem, id, rec, reply);
            if reply.DeployTask?
            then o == Sequential.Outcome(mem[id := rec.(boshTaskID := reply.task)], Accepted("provision-" + id))
            else o == Sequential.Outcome(mem[id := rec] - {id}, FailureOf(reply))
  {
  }

  lemma DeployFinishes(cfg: Config, s: System, mem: Memory, h: nat, id: string, ref: nat, rec: Record,
                       reply: DeployReply)
    requires Holds(s, mem, id, ref, rec) && rec.id == id
    requires h in s.handlers && s.handlers[h].Deploying? && s.handlers[h].job == ForProvision(id, ref)
    ensures var t := Apply(cfg, Apply(cfg, s, DirectorDeploys(h, reply)), Write(h));
            var o := Sequential.FinishProvision(mem, id, rec, reply);
            View(t) == o.mem && IsAnswered(t, h, id, o.response)
  {
    MovesOn(cfg, s, DirectorDeploys(h, reply), mem, id, ref, rec, AfterDeploy(ForProvision(id, ref), reply));
    FinishProvisionValue(mem, id, rec, reply);
    var s1 := Apply(cfg, s, DirectorDeploys(h, reply));
    if reply.DeployTask? {
      TaskWritten(cfg, s1, mem, h, id, ref, rec, reply.task);
    } else {
      RollsBack(cfg, s1, Write(h), mem, id, ref, rec, Answered(Some(id), FailureOf(reply)));
    }
  }

  lemma ProvisionFinishes(cfg: Config, s: System, mem: Memory, h: nat, id: string, ref: nat, rec: Record, rnd: Secrets,
                          created: bool, reply: DeployReply)
    requires Holds(s, mem, id, ref, rec) && rec.id == id
    requires h in s.handlers && s.handlers[h] == Reserved(id, ref, rnd)
    ensures var t := Apply(cfg, Apply(cfg, Apply(cfg, s, ProvisionBuild(h, created)), DirectorDeploys(h, reply)),
                           Write(h));
            var o := Sequential.FinishProvision(mem, id, AfterSso(cfg, rec, created, rnd), reply);
            View(t) == o.mem && IsAnswered(t, h, id, o.response)
  {
    var ready := AfterSso(cfg, rec, created, rnd);
    assert Refers(s, ref, id);
    WritesBack(cfg, s, ProvisionBuild(h, created), mem, id, ref, rec, ready,
               Deploying(ForProvision(id, ref), BuildParams(cfg, ready)));
    DeployFinishes(cfg, Apply(cfg, s, ProvisionBuild(h, created)), mem, h, id, ref, ready, reply);
  }

  lemma ReserveHolds(cfg: Config, s: System, l: Step, rec: Record)
    requires Entries(s) && l.ProvisionBegin? && l.h !in s.handlers
    requires Admit(cfg, View(s), l.id, l.async, l.body, l.rnd) == Reserve(rec)
    ensures var t := Apply(cfg, s, l);
            && Holds(t, View(s), l.id, |s.heap|, rec) && rec.id == l.id
            && l.h in t.handlers && t.handlers[l.h] == Reserved(l.id, |s.heap|, l.rnd)
  {
    AdmittedIsGood(cfg, View(s), l.id, l.async, l.body, l.rnd);
    InsertHolds(cfg, s, l, l.id, rec, Reserved(l.id, |s.heap|, l.rnd));
  }

  lemma InsertHolds(cfg: Config, s: System, l: Step, id: string, rec: Record, after: Handler)
    requires Entries(s) && Begins(l) && l.h !in s.handlers && id !in View(s) && rec.id == id
    requires Begin(cfg, s, l) == Move(Insert(id, rec), after)
    ensures var t := Apply(cfg, s, l);
            Holds(t, View(s), id, |s.heap|, rec) && l.h in t.handlers && t.handlers[l.h] == after
  {
    BeginStep(cfg, s, l);
    Inserted(s, Moved(s, l.h, Begin(cfg, s, l)), id, rec);
  }

  lemma ProvisionAlone(cfg: Config, s: System, h: nat, id: string, async: bool, body: Option<ProvisionRequest>,
                       rnd: Secrets, created: bool, reply: DeployReply)
    requires Entries(s) && h !in s.handlers
    ensures var t := Run(cfg, s, [ProvisionBegin(h, id, async, body, rnd), ProvisionBuild(h, created),
                                  DirectorDeploys(h, reply), Write(h)]);
            var o := Sequential.Provision(cfg, View(s), id, async, body, rnd, created, reply);
            View(t) == o.mem && IsAnswered(t, h, id, o.response)
  {
    var l1, l2, l3, l4 := ProvisionBegin(h, id, async, body, rnd), ProvisionBuild(h, created),
                          DirectorDeploys(h, reply), Write(h);
    RunFour(cfg, s, l1, l2, l3, l4);
    match Admit(cfg, View(s), id, async, body, rnd)
    case Reject(why) =>
      RefusedAtOnce(cfg, s, l1, id, why);
      var s1 := Apply(cfg, s, l1);
      AnsweredStays(cfg, s1, l2);
      AnsweredStays(cfg, s1, l3);
      AnsweredStays(cfg, s1, l4);
    case Reserve(rec) => ReservedAlone(cfg, s, h, id, async, body, rnd, created, reply, rec);
  }

  lemma ReservedAlone(cfg: Config, s: System, h: nat, id: string, async: bool, body: Option<ProvisionRequest>,
                      rnd: Secrets, created: bool, reply: DeployReply, rec: Record)
    requires Entries(s) && h !in s.handlers && Admit(cfg, View(s), id, async, body, rnd) == Reserve(rec)
    ensures var begun := Apply(cfg, s, ProvisionBegin(h, id, async, body, rnd));
            var t := Apply(cfg, Apply(cfg, Apply(cfg, begun, ProvisionBuild(h, created)), DirectorDeploys(h, reply)),
                           Write(h));
            var o := Sequential.Provision(cfg, View(s), id, async, body, rnd, created, reply);
            View(t) == o.mem && IsAnswered(t, h, id, o.response)
  {
    var l := ProvisionBegin(h, id, async, body, rnd);
    ReserveHolds(cfg, s, l, rec);
    ProvisionFinishes(cfg, Apply(cfg, s, l), View(s), h, id, |s.heap|, rec, rnd, created, reply);
    ReservedValue(cfg, View(s), id, async, body, rnd, created, reply, rec);
  }

  lemma ReservedValue(cfg: Config, mem: Memory, id: string, async: bool, body: Option<ProvisionRequest>, rnd: Secrets,
                      created: bool, reply: DeployReply, rec: Record)
    requires Admit(cfg, mem, id, async, body, rnd) == Reserve(rec)
    ensures Sequential.Provision(cfg, mem, id, async, body, rnd, created, reply)
         == Sequential.FinishProvision(mem, id, AfterSso(cfg, rec, created, rnd), reply)
  {
  }

  lemma RefusedAtOnce(cfg: Config, s: System, l: Step, id: string, why: Response)
    requires Begins(l) && l.h !in s.handlers
    requires Begin(cfg, s, l) == Move(Nothing, Answered(Some(id), why))
    ensures var t := Apply(cfg, s, l); View(t) == View(s) && IsAnswered(t, l.h, id, why)
  {
  }

  // ---------- Deprovision ----------

  lemma DeletionWritten(cfg: Config, s: System, mem: Memory, h: nat, id: string, ref: nat, rec: Record, task: int)
    requires Holds(s, mem, id, ref, rec) && rec.id == id
    requires h in s.handlers && s.handlers[h] == Deleted(id, ref, task)
    ensures var t := Apply(cfg, s, Write(h));
            && View(t) == mem[id := rec.(boshTaskID := task)]
            && IsAnswered(t, h, id, Accepted("deprovision-" + id))
  {
    WriteBackValues(cfg, s, mem, id, ref, rec, task);
    WritesBack(cfg, s, Write(h), mem, id, ref, rec, rec.(boshTaskID := task),
               Answered(Some(id), Accepted("deprovision-" + id)));
  }

  lemma DeletionUndone(cfg: Config, s: System, mem: Memory, h: nat, id: string, ref: nat, rec: Record,
                       previous: Option<LifeState>)
    requires Holds(s, mem, id, ref, rec) && rec.id == id
    requires h in s.handlers && s.handlers[h] == Undeleting(id, ref, previous)
    ensures var t := Apply(cfg, s, Write(h));
            if previous.None? then View(t) == mem[id := rec] - {id} && IsAnswered(t, h, id, Gone)
            else View(t) == mem[id := rec.(state := previous.value)] && IsAnswered(t, h, id, DeprovisionFailed)
  {
    if previous.None? {
      RollsBack(cfg, s, Write(h), mem, id, ref, rec, Answered(Some(id), Gone));
    } else {
      UndeleteValue(cfg, s, mem, id, ref, rec, previous.value);
      WritesBack(cfg, s, Write(h), mem, id, ref, rec, rec.(state := previous.value),
                 Answered(Some(id), DeprovisionFailed));
    }
  }

  lemma DeleteFinishes(cfg: Config, s: System, mem: Memory, h: nat, id: string, ref: nat, rec: Record,
                       previous: Option<LifeState>, name: string, reply: DeleteReply)
    requires Holds(s, mem, id, ref, rec) && rec.id == id
    requires h in s.handlers && s.handlers[h] == Deleting(id, ref, name, previous)
    ensures var t := Apply(cfg, Apply(cfg, s, DirectorDeletes(h, reply)), Write(h));
            if reply.DeleteTask? then
              View(t) == mem[id := rec.(boshTaskID := reply.task)]
              && IsAnswered(t, h, id, Accepted("deprovision-" + id))
            else if previous.None? then View(t) == mem[id := rec] - {id} && IsAnswered(t, h, id, Gone)
            else View(t) == mem[id := rec.(state := previous.value)] && IsAnswered(t, h, id, DeprovisionFailed)
  {
    MovesOn(cfg, s, DirectorDeletes(h, reply), mem, id, ref, rec, AfterDelete(s.handlers[h], reply));
    var s1 := Apply(cfg, s, DirectorDeletes(h, reply));
    if reply.DeleteTask? {
      DeletionWritten(cfg, s1, mem, h, id, ref, rec, reply.task);
    } else {
      DeletionUndone(cfg, s1, mem, h, id, ref, rec, previous);
    }
  }

  lemma MarkHolds(cfg: Config, s: System, l: Step, rec: Record, previous: LifeState)
    requires Entries(s) && l.DeprovisionBegin? && l.h !in s.handlers
    requires StartDeprovision(View(s), l.id, l.async) == DMark(rec, previous)
    ensures var t := Apply(cfg, s, l);
            && Holds(t, View(s), l.id, s.instances[l.id], rec) && rec.id == l.id
            && l.h in t.handlers
            && t.handlers[l.h] == Deleting(l.id, s.instances[l.id], rec.deploymentName, Some(previous))
  {
    Known(s, l.id);
    BeginStep(cfg, s, l);
    WriteThrough(s, Moved(s, l.h, Begin(cfg, s, l)), View(s), l.id, s.instances[l.id], View(s)[l.id], rec);
  }

  lemma StubHolds(cfg: Config, s: System, l: Step, rec: Record)
    requires Entries(s) && l.DeprovisionBegin? && l.h !in s.handlers
    requires StartDeprovision(View(s), l.id, l.async) == DStub(rec)
    ensures var t := Apply(cfg, s, l);
            && Holds(t, View(s), l.id, |s.heap|, rec) && rec.id == l.id
            && l.h in t.handlers && t.handlers[l.h] == Deleting(l.id, |s.heap|, rec.deploymentName, None)
  {
    InsertHolds(cfg, s, l, l.id, rec, Deleting(l.id, |s.heap|, rec.deploymentName, None));
  }

  lemma DeprovisionAlone(cfg: Config, s: System, h: nat, id: string, async: bool, reply: DeleteReply)
    requires Entries(s) && h !in s.handlers
    ensures var t := Run(cfg, s, [DeprovisionBegin(h, id, async), DirectorDeletes(h, reply), Write(h)]);
            var o := Sequential.Deprovision(View(s), id, async, reply);
            View(t) == o.mem && IsAnswered(t, h, id, o.response)
  {
    var l1, l2, l3 := DeprovisionBegin(h, id, async), DirectorDeletes(h, reply), Write(h);
    RunThree(cfg, s, l1, l2, l3);
    var s1 := Apply(cfg, s, l1);
    match StartDeprovision(View(s), id, async)
    case DAnswer(why) =>
      RefusedAtOnce(cfg, s, l1, id, why);
      AnsweredStays(cfg, s1, l2);
      AnsweredStays(cfg, s1, l3);
    case DStub(rec) => StubAlone(cfg, s, h, id, async, reply, rec);
    case DMark(rec, previous) => MarkAlone(cfg, s, h, id, async, reply, rec, previous);
  }

  lemma StubAlone(cfg: Config, s: System, h: nat, id: string, async: bool, reply: DeleteReply, rec: Record)
    requires Entries(s) && h !in s.handlers && StartDeprovision(View(s), id, async) == DStub(rec)
    ensures var t := Apply(cfg, Apply(cfg, Apply(cfg, s, DeprovisionBegin(h, id, async)), DirectorDeletes(h, reply)),
                           Write(h));
            var o := Sequential.Deprovision(View(s), id, async, reply);
            View(t) == o.mem && IsAnswered(t, h, id, o.response)
  {
    var l := DeprovisionBegin(h, id, async);
    StubHolds(cfg, s, l, rec);
    DeleteFinishes(cfg, Apply(cfg, s, l), View(s), h, id, |s.heap|, rec, None, rec.deploymentName, reply);
    DeprovisionValue(View(s), id, async, reply);
  }

  lemma MarkAlone(cfg: Config, s: System, h: nat, id: string, async: bool, reply: DeleteReply, rec: Record,
                  previous: LifeState)
    requires Entries(s) && h !in s.handlers && StartDeprovision(View(s), id, async) == DMark(rec, previous)
    ensures var t := Apply(cfg, Apply(cfg, Apply(cfg, s, DeprovisionBegin(h, id, async)), DirectorDeletes(h, reply)),
                           Write(h));
            var o := Sequential.Deprovision(View(s), id, async, reply);
            View(t) == o.mem && IsAnswered(t, h, id, o.response)
  {
    var l := DeprovisionBegin(h, id, async);
    MarkHolds(cfg, s, l, rec, previous);
    DeleteFinishes(cfg, Apply(cfg, s, l), View(s), h, id, s.instances[id], rec, Some(previous), rec.deploymentName,
                   reply);
    DeprovisionValue(View(s), id, async, reply);
  }

  lemma DeprovisionValue(mem: Memory, id: string, async: bool, reply: DeleteReply)
    ensures var d := StartDeprovision(mem, id, async);
            var o := Sequential.Deprovision(mem, id, async, reply);
            !d.DAnswer? ==>
              if reply.DeleteTask? then
                o.mem == mem[id := d.rec.(boshTaskID := reply.task)] && o.response == Accepted("deprovision-" + id)
              else if d.DStub? then o.mem == mem[id := d.rec] - {id} && o.response == Gone
              else o.mem == mem[id := d.rec.(state := d.previous)] && o.response == DeprovisionFailed
  {
  }

  // ---------- Update ----------

  lemma RedeployWritten(cfg: Config, s: System, mem: Memory, h: nat, id: string, ref: nat, rec: Record, task: int)
    requires Holds(s, mem, id, ref, rec) && rec.id == id
    requires h in s.handlers && s.handlers[h] == Deployed(ForUpdate(id, ref), task)
    ensures var t := Apply(cfg, s, Write(h));
            View(t) == mem[id := Redeployed(rec, task)] && IsAnswered(t, h, id, Accepted("update-" + id))
  {
    WriteBackValues(cfg, s, mem, id, ref, rec, task);
    WritesBack(cfg, s, Write(h), mem, id, ref, rec, Redeployed(rec, task),
               Answered(Some(id), Accepted("update-" + id)));
  }

  lemma FinishUpdateValue(mem: Memory, id: string, rec: Record, reply: DeployReply)
    ensures var o := Sequential.FinishUpdate(mem[id := rec], id, rec, reply);
            if reply.DeployTask?
            then o == Sequential.Outcome(mem[id := Redeployed(rec, reply.task)], Accepted("update-" + id))
            else o == Sequential.Outcome(mem[id := rec], FailureOf(reply))
  {
  }

  lemma RedeployFinishes(cfg: Config, s: System, mem: Memory, h: nat, id: string, ref: nat, rec: Record,
                         reply: DeployReply)
    requires Holds(s, mem, id, ref, rec) && rec.id == id
    requires h in s.handlers && s.handlers[h].Deploying? && s.handlers[h].job == ForUpdate(id, ref)
    ensures var t := Apply(cfg, Apply(cfg, s, DirectorDeploys(h, reply)), Write(h));
            var o := Sequential.FinishUpdate(mem[id := rec], id, rec, reply);
            View(t) == o.mem && IsAnswered(t, h, id, o.response)
  {
    MovesOn(cfg, s, DirectorDeploys(h, reply), mem, id, ref, rec, AfterDeploy(ForUpdate(id, ref), reply));
    RedeployEnds(cfg, Apply(cfg, s, DirectorDeploys(h, reply)), mem, h, id, ref, rec, reply);
  }

  lemma RedeployEnds(cfg: Config, s: System, mem: Memory, h: nat, id: string, ref: nat, rec: Record, reply: DeployReply)
    requires Holds(s, mem, id, ref, rec) && rec.id == id
    requires h in s.handlers && s.handlers[h] == AfterDeploy(ForUpdate(id, ref), reply)
    ensures var t := Apply(cfg, s, Write(h));
            var o := Sequential.FinishUpdate(mem[id := rec], id, rec, reply);
            View(t) == o.mem && IsAnswered(t, h, id, o.response)
  {
    FinishUpdateValue(mem, id, rec, reply);
    if reply.DeployTask? {
      RedeployWritten(cfg, s, mem, h, id, ref, rec, reply.task);
    } else {
      AnsweredStays(cfg, s, Write(h));
    }
  }

  lemma UpdateStarts(cfg: Config, s: System, l: Step, u: UpdateStart) returns (ref: nat)
    requires Entries(s) && l.UpdateBegin? && l.h !in s.handlers
    requires u == StartUpdate(cfg, View(s), l.id, l.async, l.request, l.rnd) && !u.URefuse?
    ensures var t := Apply(cfg, s, l);
            && Holds(t, View(s), l.id, ref, u.rec) && u.rec.id == l.id
            && l.h in t.handlers && t.handlers[l.h] == Deploying(ForUpdate(l.id, ref), BuildParams(cfg, u.rec))
  {
    BeginStep(cfg, s, l);
    UpdateRecordID(cfg, s, l, u);
    ref := UpdateMoves(cfg, s, l.h, l.id, u);
  }

  lemma UpdateMoves(cfg: Config, s: System, h: nat, id: string, u: UpdateStart) returns (ref: nat)
    requires Entries(s) && !u.URefuse? && u.rec.id == id
    requires (u.UAdopt? ==> id !in View(s)) && (u.URedeploy? ==> id in View(s))
    ensures var t := Moved(s, h, UpdateMove(cfg, s, id, u));
            && Holds(t, View(s), id, ref, u.rec)
            && h in t.handlers && t.handlers[h] == Deploying(ForUpdate(id, ref), BuildParams(cfg, u.rec))
  {
    var m := UpdateMove(cfg, s, id, u);
    if u.UAdopt? {
      ref := |s.heap|;
      Inserted(s, Moved(s, h, m), id, u.rec);
    } else {
      ref := s.instances[id];
      Known(s, id);
      WriteThrough(s, Moved(s, h, m), View(s), id, ref, View(s)[id], u.rec);
    }
  }

  lemma UpdateRecordID(cfg: Config, s: System, l: Step, u: UpdateStart)
    requires Entries(s) && l.UpdateBegin?
    requires u == StartUpdate(cfg, View(s), l.id, l.async, l.request, l.rnd) && !u.URefuse?
    ensures u.rec.id == l.id && (u.UAdopt? ==> l.id !in View(s)) && (u.URedeploy? ==> l.id in View(s))
  {
    if l.id in View(s) {
      Known(s, l.id);
    }
  }

  lemma UpdateAlone(cfg: Config, s: System, h: nat, id: string, async: bool, request: Option<string>, rnd: Secrets,
                    reply: DeployReply)
    requires Entries(s) && h !in s.handlers
    ensures var t := Run(cfg, s, [UpdateBegin(h, id, async, request, rnd), DirectorDeploys(h, reply), Write(h)]);
            var o := Sequential.Update(cfg, View(s), id, async, request, rnd, reply);
            View(t) == o.mem && IsAnswered(t, h, id, o.response)
  {
    var l1, l2, l3 := UpdateBegin(h, id, async, request, rnd), DirectorDeploys(h, reply), Write(h);
    RunThree(cfg, s, l1, l2, l3);
    var s1 := Apply(cfg, s, l1);
    var u := StartUpdate(cfg, View(s), id, async, request, rnd);
    if u.URefuse? {
      RefusedAtOnce(cfg, s, l1, id, u.why);
      AnsweredStays(cfg, s1, l2);
      AnsweredStays(cfg, s1, l3);
    } else {
      var ref := UpdateStarts(cfg, s, l1, u);
      RedeployFinishes(cfg, s1, View(s), h, id, ref, u.rec, reply);
    }
  }

  // ---------- LastOperation ----------

  lemma PollWritten(cfg: Config, s: System, mem: Memory, h: nat, id: string, ref: nat, r: Record, answer: TaskAnswer)
    requires Holds(s, mem, id, ref, r) && r.id == id
    requires h in s.handlers && s.handlers[h] == Polled(id, ref, r.state, answer)
    requires !EffectOfPoll(r.state, answer).NoEffect?
    ensures var t := Apply(cfg, s, Write(h));
            && IsAnswered(t, h, id, LastOperation(ReportAfterQuery(answer)))
            && View(t) == PolledMap(mem, id, r, answer)
  {
    var reply := Answered(Some(id), LastOperation(ReportAfterQuery(answer)));
    if EffectOfPoll(r.state, answer).SetState? {
      PolledValue(cfg, s, mem, id, ref, r, r.state, answer);
      WritesBack(cfg, s, Write(h), mem, id, ref, r, r.(state := EffectOfPoll(r.state, answer).state), reply);
    } else {
      RollsBack(cfg, s, Write(h), mem, id, ref, r, reply);
    }
  }

  function PolledMap(mem: Memory, id: string, r: Record, answer: TaskAnswer): Memory {
    match EffectOfPoll(r.state, answer)
    case NoEffect => mem[id := r]
    case SetState(st) => mem[id := r.(state := st)]
    case Forget => mem[id := r] - {id}
  }

  lemma PollAsked(cfg: Config, s: System, mem: Memory, h: nat, id: string, ref: nat, r: Record, answer: TaskAnswer)
    requires Holds(s, mem, id, ref, r)
    requires h in s.handlers && s.handlers[h] == Polling(id, ref, r.state, r.boshTaskID)
    ensures var t := Apply(cfg, s, DirectorReports(h, "", answer));
            && Holds(t, mem, id, ref, r) && h in t.handlers
            && t.handlers[h] == if EffectOfPoll(r.state, answer).NoEffect?
                                then Answered(Some(id), LastOperation(ReportAfterQuery(answer)))
                                else Polled(id, ref, r.state, answer)
  {
    MovesOn(cfg, s, DirectorReports(h, "", answer), mem, id, ref, r, AfterPoll(s.handlers[h], answer));
  }

  lemma PollEnds(cfg: Config, s: System, mem: Memory, h: nat, id: string, ref: nat, r: Record, answer: TaskAnswer)
    requires Holds(s, mem, id, ref, r) && r.id == id && h in s.handlers
    requires s.handlers[h] == if EffectOfPoll(r.state, answer).NoEffect?
                              then Answered(Some(id), LastOperation(ReportAfterQuery(answer)))
                              else Polled(id, ref, r.state, answer)
    ensures var t := Apply(cfg, s, Write(h));
            && IsAnswered(t, h, id, LastOperation(ReportAfterQuery(answer)))
            && View(t) == PolledMap(mem, id, r, answer)
  {
    if EffectOfPoll(r.state, answer).NoEffect? {
      AnsweredStays(cfg, s, Write(h));
    } else {
      PollWritten(cfg, s, mem, h, id, ref, r, answer);
    }
  }

  lemma PollFinishes(cfg: Config, s: System, mem: Memory, h: nat, id: string, ref: nat, r: Record, answer: TaskAnswer)
    requires Holds(s, mem, id, ref, r) && r.id == id
    requires h in s.handlers && s.handlers[h] == Polling(id, ref, r.state, r.boshTaskID)
    ensures var t := Apply(cfg, Apply(cfg, s, DirectorReports(h, "", answer)), Write(h));
            && IsAnswered(t, h, id, LastOperation(ReportAfterQuery(answer)))
            && View(t) == PolledMap(mem, id, r, answer)
  {
    PollAsked(cfg, s, mem, h, id, ref, r, answer);
    PollEnds(cfg, Apply(cfg, s, DirectorReports(h, "", answer)), mem, h, id, ref, r, answer);
  }

  lemma PollValue(mem: Memory, id: string, answer: TaskAnswer)
    requires id in mem && NeedsQuery(mem[id].state, mem[id].boshTaskID)
    ensures var o := Sequential.Poll(mem, id, answer);
            o.mem == PolledMap(mem, id, mem[id], answer) && o.response == LastOperation(ReportAfterQuery(answer))
  {
  }

  lemma PollAlone(cfg: Config, s: System, h: nat, id: string, answer: TaskAnswer)
    requires Entries(s) && h !in s.handlers
    ensures var t := Run(cfg, s, [PollBegin(h, id), DirectorReports(h, "", answer), Write(h)]);
            var o := Sequential.Poll(View(s), id, answer);
            View(t) == o.mem && IsAnswered(t, h, id, o.response)
  {
    var l1, l2, l3 := PollBegin(h, id), DirectorReports(h, "", answer), Write(h);
    RunThree(cfg, s, l1, l2, l3);
    var s1 := Apply(cfg, s, l1);
    if id in View(s) && NeedsQuery(View(s)[id].state, View(s)[id].boshTaskID) {
      PollStarts(cfg, s, h, id);
      PollFinishes(cfg, s1, View(s), h, id, s.instances[id], View(s)[id], answer);
      PollValue(View(s), id, answer);
    } else {
      PollAnswersAtOnce(cfg, s, h, id, answer);
      AnsweredStays(cfg, s1, l2);
      AnsweredStays(cfg, s1, l3);
    }
  }

  lemma PollAnswersAtOnce(cfg: Config, s: System, h: nat, id: string, answer: TaskAnswer)
    requires h !in s.handlers
    requires id in View(s) ==> !NeedsQuery(View(s)[id].state, View(s)[id].boshTaskID)
    ensures var t := Apply(cfg, s, PollBegin(h, id));
            var o := Sequential.Poll(View(s), id, answer);
            View(t) == View(s) == o.mem && IsAnswered(t, h, id, o.response)
  {
    BeginStep(cfg, s, PollBegin(h, id));
  }

  lemma PollStarts(cfg: Config, s: System, h: nat, id: string)
    requires Entries(s) && h !in s.handlers && id in View(s) && NeedsQuery(View(s)[id].state, View(s)[id].boshTaskID)
    ensures var t := Apply(cfg, s, PollBegin(h, id));
            var r := View(s)[id];
            && Holds(t, View(s), id, s.instances[id], r) && r.id == id
            && h in t.handlers && t.handlers[h] == Polling(id, s.instances[id], r.state, r.boshTaskID)
  {
    BeginStep(cfg, s, PollBegin(h, id));
    var t := Moved(s, h, BeginPoll(s, id));
    Known(s, id);
    Known(t, id);
    assert View(t) == View(s);
  }
}
