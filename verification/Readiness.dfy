/** When an instance can be bound, over the concurrent steps: what a Bind answers in any
    state, what the Director's outcomes make of a record, and that nothing but a task
    reported as done, or the rollback of a delete, makes a record ready. */
module Readiness {
  import opened Strings
  import opened Domain
  import opened Handlers
  import opened Protocol
  import opened Invariant
  import opened Isolation
  import opened Alone
  import opened AloneAdmin
  import Answers
  import Sequential

  // ---------- Bind ----------

  /** In every state, also between the sections of other handlers. */
  lemma BindStepAnswers(cfg: Config, s: System, h: nat, id: string)
    requires h !in s.handlers
    ensures var t := Apply(cfg, s, BindBegin(h, id));
            var answer := Sequential.Bind(View(s), id);
            && t == s.(handlers := s.handlers[h := Answered(Some(id), answer)])
            && (answer.Bound? <==> id in View(s) && View(s)[id].state == Ready)
            && (answer == NotReady <==> id in View(s) && View(s)[id].state != Ready)
            && (answer == NotFound <==> id !in View(s))
  {
    BeginStep(cfg, s, BindBegin(h, id));
    Answers.BindAnswers(View(s), id);
  }

  /** Only binds begin on k, and no handler about k that has not answered moves. */
  ghost predicate OnlyBinds(cfg: Config, s: System, steps: seq<Step>, k: string)
    decreases |steps|
  {
    steps == [] ||
    ((Concerns(s, steps[0], k) ==>
        steps[0].BindBegin? || (steps[0].h in s.handlers && s.handlers[steps[0].h].Answered?))
     && OnlyBinds(cfg, Apply(cfg, s, steps[0]), steps[1..], k))
  }

  lemma BindStepKeeps(cfg: Config, s: System, l: Step)
    requires l.BindBegin? || (l.h in s.handlers && s.handlers[l.h].Answered?)
    ensures View(Apply(cfg, s, l)) == View(s)
  {
    if Begins(l) && l.h in s.handlers {
      assert MoveOf(cfg, s, l) == Stutter;
    } else if l.BindBegin? {
      BindStepAnswers(cfg, s, l.h, l.id);
      SameSharedView(s, Apply(cfg, s, l));
    } else {
      AnsweredStays(cfg, s, l);
    }
  }

  lemma SameForKeeps(s: System, t: System, k: string)
    requires SameFor(s, t, k)
    ensures Sequential.Bind(View(t), k) == Sequential.Bind(View(s), k)
  {
  }

  /** A Bind of k is answered the same at every later moment until a handler about k, other
      than a Bind, takes a step: refused before it and refused after it, or bound with the
      same credentials. */
  lemma {:induction false} BindsStay(cfg: Config, s: System, steps: seq<Step>, k: string, g: nat)
    requires Inv(s) && OnlyBinds(cfg, s, steps, k) && g !in Run(cfg, s, steps).handlers
    ensures var t := Apply(cfg, Run(cfg, s, steps), BindBegin(g, k));
            At(t, g, Answered(Some(k), Sequential.Bind(View(s), k)))
    decreases |steps|
  {
    if steps == [] {
      BindStepAnswers(cfg, s, g, k);
    } else {
      var t := Apply(cfg, s, steps[0]);
      StepKeepsInv(cfg, s, steps[0]);
      if Concerns(s, steps[0], k) {
        BindStepKeeps(cfg, s, steps[0]);
      } else {
        Undisturbed(cfg, s, steps[0], k);
        SameForKeeps(s, t, k);
      }
      BindsStay(cfg, t, steps[1..], k, g);
    }
  }

  // ---------- outcomes of tasks, in any state ----------

  /** A poll that hears that the deployment failed makes the record failed, so that a Bind is
      refused. */
  lemma FailedPollRefusesBinds(cfg: Config, s: System, h: nat, w: Handler, key: string, a: TaskAnswer, g: nat)
    requires Inv(s) && At(s, h, w) && w.Polling? && w.state == Provisioning && (a.TaskError? || a.TaskCancelled?)
    requires w.id in s.instances && s.instances[w.id] == w.ref && g !in s.handlers
    ensures var t := Apply(cfg, Apply(cfg, s, DirectorReports(h, key, a)), Write(h));
            && At(t, h, Answered(Some(w.id), LastOperation(OpFailed)))
            && w.id in View(t) && View(t)[w.id] == View(s)[w.id].(state := Failed)
            && At(Apply(cfg, t, BindBegin(g, w.id)), g, Answered(Some(w.id), NotReady))
  {
    FailureHeard(cfg, s, h, w, key, a);
    var asked := Apply(cfg, s, DirectorReports(h, key, a));
    FailureWritten(cfg, asked, h, w.id, w.ref, a);
    BindStepAnswers(cfg, Apply(cfg, asked, Write(h)), g, w.id);
  }

  lemma FailureHeard(cfg: Config, s: System, h: nat, w: Handler, key: string, a: TaskAnswer)
    requires At(s, h, w) && w.Polling? && w.state == Provisioning && (a.TaskError? || a.TaskCancelled?)
    ensures Apply(cfg, s, DirectorReports(h, key, a))
            == s.(handlers := s.handlers[h := Polled(w.id, w.ref, Provisioning, a)])
  {
    ContinueStep(cfg, s, DirectorReports(h, key, a));
  }

  lemma FailureWritten(cfg: Config, s: System, h: nat, id: string, ref: nat, a: TaskAnswer)
    requires At(s, h, Polled(id, ref, Provisioning, a)) && (a.TaskError? || a.TaskCancelled?)
    requires id in s.instances && s.instances[id] == ref < |s.heap|
    ensures Apply(cfg, s, Write(h))
            == s.(heap := s.heap[ref := s.heap[ref].(state := Failed)],
                  handlers := s.handlers[h := Answered(Some(id), LastOperation(OpFailed))])
  {
    ContinueStep(cfg, s, Write(h));
  }

  /** From the section on that marks an instance for deletion a Bind is refused. */
  lemma MarkedRefusesBinds(cfg: Config, s: System, h: nat, id: string, g: nat)
    requires Inv(s) && h !in s.handlers && g != h && g !in s.handlers
    ensures var t := Apply(cfg, s, DeprovisionBegin(h, id, true));
            && id in View(t) && View(t)[id].state == Deprovisioning
            && At(Apply(cfg, t, BindBegin(g, id)), g, Answered(Some(id), NotReady))
  {
    Marked(cfg, s, h, id);
    OnlyOneBegins(cfg, s, DeprovisionBegin(h, id, true), g);
    BindStepAnswers(cfg, Apply(cfg, s, DeprovisionBegin(h, id, true)), g, id);
  }

  lemma Marked(cfg: Config, s: System, h: nat, id: string)
    requires Inv(s) && h !in s.handlers
    ensures var t := Apply(cfg, s, DeprovisionBegin(h, id, true));
            id in View(t) && View(t)[id].state == Deprovisioning
  {
    match StartDeprovision(View(s), id, true)
    case DAnswer(why) => MarkedBefore(cfg, s, h, id);
    case DStub(rec) => StubHolds(cfg, s, DeprovisionBegin(h, id, true), rec);
    case DMark(rec, previous) => MarkHolds(cfg, s, DeprovisionBegin(h, id, true), rec, previous);
  }

  lemma MarkedBefore(cfg: Config, s: System, h: nat, id: string)
    requires h !in s.handlers && StartDeprovision(View(s), id, true).DAnswer?
    ensures View(Apply(cfg, s, DeprovisionBegin(h, id, true))) == View(s)
    ensures id in View(s) && View(s)[id].state == Deprovisioning
  {
    BeginStep(cfg, s, DeprovisionBegin(h, id, true));
  }

  lemma OnlyOneBegins(cfg: Config, s: System, l: Step, g: nat)
    requires g != l.h && g !in s.handlers
    ensures g !in Apply(cfg, s, l).handlers
  {
  }

  /** What a status check's look at one task does, whatever else is under way: an outcome is
      written into the id's entry in the section that follows. */
  lemma CheckStep(cfg: Config, s: System, h: nat, key: string, a: TaskAnswer, pending: map<string, int>, total: nat,
                  tally: Tally)
    requires Inv(s) && At(s, h, Checking(pending, total, tally)) && key in pending
    ensures var outcome := a.TaskDone? || a.TaskError? || a.TaskCancelled?;
            var asked := Apply(cfg, s, DirectorReports(h, key, a));
            var t := if outcome then Apply(cfg, asked, Write(h)) else asked;
            && At(t, h, Checking(pending - {key}, total, OneMore(tally, a)))
            && t.instances == s.instances && t.tracker == s.tracker
            && View(t) == if outcome && key in View(s)
                          then View(s)[key := View(s)[key].(state := if a.TaskDone? then Ready else Failed)]
                          else View(s)
  {
    var rest, counted := pending - {key}, OneMore(tally, a);
    AskStep(cfg, s, h, key, a, pending, total, tally);
    var asked := Apply(cfg, s, DirectorReports(h, key, a));
    SameSharedView(s, asked);
    AskedFor(key, a, pending, total, tally);
    if a.TaskDone? {
      SettleStep(cfg, asked, h, key, Ready, rest, total, counted);
    } else if a.TaskError? || a.TaskCancelled? {
      SettleStep(cfg, asked, h, key, Failed, rest, total, counted);
    }
  }

  lemma AskedFor(key: string, a: TaskAnswer, pending: map<string, int>, total: nat, tally: Tally)
    requires key in pending
    ensures AfterCheck(Checking(pending, total, tally), key, a)
         == match a
            case TaskDone => Checked(key, Ready, pending - {key}, total, OneMore(tally, a))
            case TaskError => Checked(key, Failed, pending - {key}, total, OneMore(tally, a))
            case TaskCancelled => Checked(key, Failed, pending - {key}, total, OneMore(tally, a))
            case _ => Checking(pending - {key}, total, OneMore(tally, a))
  {
  }

  function OneMore(t: Tally, a: TaskAnswer): Tally {
    match a
    case TaskDone => Tally(t.healthy + 1, t.failed, t.inProgress)
    case TaskOther(_) => Tally(t.healthy, t.failed, t.inProgress + 1)
    case _ => Tally(t.healthy, t.failed + 1, t.inProgress)
  }

  // ---------- no credentials before a task is done ----------

  /** The handler will not make k's record ready. */
  predicate QuietHandler(w: Handler, k: string) {
    match w
    case Deleting(id, _, _, previous) => id == k ==> previous != Some(Ready)
    case Undeleting(id, _, previous) => id == k ==> previous != Some(Ready)
    case Polled(id, _, state, a) => id == k && state == Provisioning ==> a != TaskDone
    case Checked(id, state, _, _, _) => id == k ==> state != Ready
    case _ => true
  }

  predicate QuietRecord(r: Record, k: string) {
    r.id == k ==> r.state != Ready
  }

  /** No record of k is ready, and no handler is about to make one ready. */
  ghost predicate Quiet(s: System, k: string) {
    (forall r :: 0 <= r < |s.heap| ==> QuietRecord(s.heap[r], k))
    && forall h :: h in s.handlers ==> QuietHandler(s.handlers[h], k)
  }

  /** The Director reports a task that is polled or checked for k as done. */
  predicate DoneFor(s: System, l: Step, k: string) {
    l.DirectorReports? && l.answer == TaskDone && l.h in s.handlers
    && ((s.handlers[l.h].Polling? && s.handlers[l.h].id == k) || (s.handlers[l.h].Checking? && l.key == k))
  }

  ghost predicate NeverDone(cfg: Config, s: System, steps: seq<Step>, k: string)
    decreases |steps|
  {
    steps == [] || (!DoneFor(s, steps[0], k) && NeverDone(cfg, Apply(cfg, s, steps[0]), steps[1..], k))
  }

  predicate QuietEffect(e: Effect, k: string) {
    match e
    case Insert(_, rec) => QuietRecord(rec, k)
    case Overwrite(_, rec) => QuietRecord(rec, k)
    case _ => true
  }

  predicate QuietMove(m: Move, k: string) {
    m.Move? ==> QuietEffect(m.effect, k) && QuietHandler(m.next, k)
  }

  lemma BeginIsQuiet(cfg: Config, s: System, l: Step, k: string)
    requires Inv(s) && Quiet(s, k) && Begins(l)
    ensures QuietMove(Begin(cfg, s, l), k)
  {
    match l
    case ProvisionBegin(_, _, _, _, _) => BeginProvisionIsQuiet(cfg, s, l, k);
    case DeprovisionBegin(_, _, _) => BeginDeleteIsQuiet(s, l, k);
    case UpdateBegin(_, _, _, _, _) => BeginUpdateIsQuiet(cfg, s, l, k);
    case _ =>
  }

  lemma BeginProvisionIsQuiet(cfg: Config, s: System, l: Step, k: string)
    requires l.ProvisionBegin?
    ensures QuietMove(BeginProvision(cfg, s, l), k)
  {
    Sequential.AdmittedIsNew(cfg, View(s), l.id, l.async, l.body, l.rnd);
  }

  lemma BeginDeleteIsQuiet(s: System, l: Step, k: string)
    requires Inv(s) && Quiet(s, k) && l.DeprovisionBegin?
    ensures QuietMove(BeginDeprovision(s, l), k)
  {
    if l.id in View(s) {
      ViewHasID(s, l.id);
      assert QuietRecord(s.heap[s.instances[l.id]], k);
    }
  }

  lemma BeginUpdateIsQuiet(cfg: Config, s: System, l: Step, k: string)
    requires Inv(s) && Quiet(s, k) && l.UpdateBegin?
    ensures QuietMove(BeginUpdate(cfg, s, l), k)
  {
    if l.id in View(s) {
      ViewHasID(s, l.id);
      assert QuietRecord(s.heap[s.instances[l.id]], k);
    }
  }

  lemma WriteIsQuiet(cfg: Config, s: System, w: Handler, k: string)
    requires Inv(s) && Quiet(s, k) && GoodHandler(s, w) && QuietHandler(w, k)
    ensures QuietMove(WriteBack(cfg, s, w), k)
  {
    match w
    case Deployed(job, task) => assert QuietRecord(s.heap[job.ref], k);
    case Deleted(id, ref, task) => assert QuietRecord(s.heap[ref], k);
    case Checked(id, _, _, _, _) =>
      if id in View(s) {
        ViewHasID(s, id);
      }
    case _ =>
  }

  lemma ContinueIsQuiet(cfg: Config, s: System, l: Step, k: string)
    requires Inv(s) && Quiet(s, k) && !DoneFor(s, l, k) && l.h in s.handlers
    ensures QuietMove(Continue(cfg, s, l, s.handlers[l.h]), k)
  {
    var w := s.handlers[l.h];
    match l
    case Write(_) => WriteIsQuiet(cfg, s, w, k);
    case DirectorReports(_, _, _) => ReportIsQuiet(cfg, s, l, w, k);
    case ProvisionBuild(_, _) => BuildIsQuiet(cfg, s, l, w, k);
    case _ => CallIsQuiet(cfg, s, l, w, k);
  }

  lemma BuildIsQuiet(cfg: Config, s: System, l: Step, w: Handler, k: string)
    requires Quiet(s, k) && l.ProvisionBuild?
    ensures QuietMove(Continue(cfg, s, l, w), k)
  {
    if w.Reserved? && w.ref < |s.heap| {
      assert QuietRecord(s.heap[w.ref], k);
    }
  }

  lemma CallIsQuiet(cfg: Config, s: System, l: Step, w: Handler, k: string)
    requires QuietHandler(w, k) && !l.Write? && !l.DirectorReports? && !l.ProvisionBuild?
    ensures QuietMove(Continue(cfg, s, l, w), k)
  {
  }

  lemma ReportIsQuiet(cfg: Config, s: System, l: Step, w: Handler, k: string)
    requires l.DirectorReports? && At(s, l.h, w) && !DoneFor(s, l, k)
    ensures QuietMove(Continue(cfg, s, l, w), k)
  {
    if w.Checking? && l.key in w.pending {
      AskedFor(l.key, l.answer, w.pending, w.total, w.tally);
    }
  }

  lemma QuietMoved(s: System, e: Effect, h: nat, next: Handler, k: string)
    requires Quiet(s, k) && QuietEffect(e, k) && QuietHandler(next, k)
    ensures Quiet(Perform(s, e).(handlers := s.handlers[h := next]), k)
  {
  }

  lemma StepKeepsQuiet(cfg: Config, s: System, l: Step, k: string)
    requires Inv(s) && Quiet(s, k) && !DoneFor(s, l, k)
    ensures Quiet(Apply(cfg, s, l), k)
  {
    if Begins(l) {
      BeginIsQuiet(cfg, s, l, k);
    } else if l.h in s.handlers {
      ContinueIsQuiet(cfg, s, l, k);
    }
    var m := MoveOf(cfg, s, l);
    if m.Move? {
      QuietMoved(s, m.effect, l.h, m.next, k);
    }
  }

  lemma QuietRefuses(cfg: Config, s: System, k: string, g: nat)
    requires Inv(s) && Quiet(s, k) && g !in s.handlers
    ensures var t := Apply(cfg, s, BindBegin(g, k));
            At(t, g, Answered(Some(k), NotReady)) || At(t, g, Answered(Some(k), NotFound))
  {
    BindStepAnswers(cfg, s, g, k);
    if k in View(s) {
      ViewHasID(s, k);
      assert QuietRecord(s.heap[s.instances[k]], k);
    }
  }

  /** Over every run of any interleaving: from a state in which no record of k is ready or
      about to become so, as when k is not known, no Bind of k gets credentials until the
      Director has reported a task of k as done. */
  lemma {:induction false} UnboundUntilDone(cfg: Config, s: System, steps: seq<Step>, k: string, g: nat)
    requires Inv(s) && Quiet(s, k) && NeverDone(cfg, s, steps, k) && g !in Run(cfg, s, steps).handlers
    ensures var t := Apply(cfg, Run(cfg, s, steps), BindBegin(g, k));
            At(t, g, Answered(Some(k), NotReady)) || At(t, g, Answered(Some(k), NotFound))
    decreases |steps|
  {
    if steps == [] {
      QuietRefuses(cfg, s, k, g);
    } else {
      var t := Apply(cfg, s, steps[0]);
      StepKeepsInv(cfg, s, steps[0]);
      StepKeepsQuiet(cfg, s, steps[0], k);
      UnboundUntilDone(cfg, t, steps[1..], k, g);
    }
  }
}
