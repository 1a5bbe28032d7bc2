/** Polling latches: once a poll of a provisioning record has answered with an
    outcome, every later poll answers the same. */
module Latch {
  import opened Strings
  import opened Domain
  import opened Handlers
  import opened Protocol
  import opened Invariant
  import opened Isolation

  /** LastOperation is the only handler begun on k during the run. */
  predicate OnlyPolls(cfg: Config, s: System, steps: seq<Step>, k: string)
    decreases |steps|
  {
    steps == [] ||
    ((StartsOn(s, steps[0], k) ==> steps[0].PollBegin?)
     && OnlyPolls(cfg, Apply(cfg, s, steps[0]), steps[1..], k))
  }

  /** The Director is asked about k's task in this step. */
  predicate Asks(s: System, l: Step, k: string) {
    l.DirectorReports? && l.h in s.handlers && s.handlers[l.h].Polling? && s.handlers[l.h].id == k
  }

  function Seen(s: System, l: Step, k: string, seen: Option<TaskAnswer>): Option<TaskAnswer> {
    if Asks(s, l, k) && Terminal(l.answer) then Some(l.answer) else seen
  }

  /** A terminal task state does not change: after reporting one, the Director reports
      the same one or fails to answer. */
  predicate Stable(cfg: Config, s: System, steps: seq<Step>, k: string, seen: Option<TaskAnswer>)
    decreases |steps|
  {
    steps == [] ||
    ((Asks(s, steps[0], k) && seen.Some? ==> steps[0].answer == seen.value || steps[0].answer == TaskUnreachable)
     && Stable(cfg, Apply(cfg, s, steps[0]), steps[1..], k, Seen(s, steps[0], k, seen)))
  }

  function SeenAfter(cfg: Config, s: System, steps: seq<Step>, k: string, seen: Option<TaskAnswer>): Option<TaskAnswer>
    decreases |steps|
  {
    if steps == [] then seen
    else SeenAfter(cfg, Apply(cfg, s, steps[0]), steps[1..], k, Seen(s, steps[0], k, seen))
  }

  function StateFor(a: TaskAnswer): LifeState {
    if a.TaskDone? then Ready else Failed
  }

  /** The record is still provisioning its task or carries the outcome seen. */
  predicate Pending(s: System, k: string, task: int, seen: Option<TaskAnswer>) {
    k in s.instances && s.instances[k] < |s.heap|
    && (var r := s.heap[s.instances[k]];
        r.boshTaskID == task && (r.state == Provisioning || Settled(s, k, seen)))
  }

  predicate Settled(s: System, k: string, seen: Option<TaskAnswer>) {
    k in s.instances && s.instances[k] < |s.heap|
    && seen.Some? && Terminal(seen.value) && s.heap[s.instances[k]].state == StateFor(seen.value)
  }

  /** What a poll handler on k may be up to. */
  predicate GoodPoll(s: System, w: Handler, k: string, seen: Option<TaskAnswer>) {
    match w
    case Polling(id, ref, state, _) =>
      id == k && k in s.instances && ref == s.instances[k] && state == Provisioning
    case Polled(id, ref, state, a) =>
      id == k && k in s.instances && ref == s.instances[k] && state == Provisioning && Terminal(a) && seen == Some(a)
    case Answered(to, response) =>
      response.LastOperation? && (response.report != InProgress ==>
        Settled(s, k, seen) && response.report == ReportAfterQuery(seen.value))
    case _ => false
  }

  /** Handlers about k from before the run have answered; the others are polls. */
  ghost predicate LatchInv(s: System, k: string, task: int, seen: Option<TaskAnswer>, past: set<nat>) {
    Pending(s, k, task, seen)
    && (seen.Some? ==> Terminal(seen.value))
    && (forall h :: h in s.handlers && IsAbout(s, s.handlers[h], k) ==>
          if h in past then s.handlers[h].Answered? else GoodPoll(s, s.handlers[h], k, seen))
  }

  lemma SameForKeeps(s: System, t: System, k: string, task: int, seen: Option<TaskAnswer>, past: set<nat>)
    requires SameFor(s, t, k) && LatchInv(s, k, task, seen, past)
    ensures LatchInv(t, k, task, seen, past)
  {
  }

  predicate GoodHandlers(s: System) {
    forall h :: h in s.handlers ==> GoodHandler(s, s.handlers[h])
  }

  /** A poll handler takes a step, and k's record changes at most from provisioning to
      the outcome seen. */
  lemma PollMoveKeeps(s: System, e: Effect, h: nat, next: Handler, k: string, task: int,
                      seen: Option<TaskAnswer>, after: Option<TaskAnswer>, past: set<nat>)
    requires GoodHandlers(s) && Grows(s, Perform(s, e)) && LatchInv(s, k, task, seen, past) && h !in past
    requires Perform(s, e).handlers == s.handlers
    requires var t := Perform(s, e).(handlers := s.handlers[h := next]);
             GoodPoll(t, next, k, after) && Pending(t, k, task, after)
             && t.instances == s.instances && (Settled(s, k, after) ==> Settled(t, k, after))
    requires after == seen || (seen.None? && after.Some? && Terminal(after.value))
    ensures LatchInv(Perform(s, e).(handlers := s.handlers[h := next]), k, task, after, past)
  {
    var t := Perform(s, e).(handlers := s.handlers[h := next]);
    forall g | g in t.handlers && g != h && IsAbout(t, t.handlers[g], k)
      ensures if g in past then t.handlers[g].Answered? else GoodPoll(t, t.handlers[g], k, after)
    {
      GoodRefs(s, s.handlers[g]);
      AboutIsStable(s, t, s.handlers[g], k);
    }
  }

  /** What a poll that begins on k finds. */
  lemma BegunPoll(s: System, k: string, task: int, seen: Option<TaskAnswer>)
    requires Pending(s, k, task, seen) && task != 0
    ensures var m := BeginPoll(s, k);
            m.Move? && m.effect == Nothing && GoodPoll(s, m.next, k, seen)
  {
  }

  lemma BeginKeeps(cfg: Config, s: System, l: Step, k: string, task: int, seen: Option<TaskAnswer>, past: set<nat>)
    requires GoodHandlers(s) && LatchInv(s, k, task, seen, past) && task != 0
    requires l.PollBegin? && l.id == k && l.h !in s.handlers && l.h !in past
    ensures LatchInv(Apply(cfg, s, l), k, task, seen, past)
  {
    BegunPoll(s, k, task, seen);
    PollMoveKeeps(s, Nothing, l.h, BeginPoll(s, k).next, k, task, seen, seen, past);
  }

  lemma AskKeeps(cfg: Config, s: System, l: Step, k: string, task: int, seen: Option<TaskAnswer>, past: set<nat>)
    requires GoodHandlers(s) && LatchInv(s, k, task, seen, past) && Asks(s, l, k)
    requires seen.Some? ==> l.answer == seen.value || l.answer == TaskUnreachable
    ensures LatchInv(Apply(cfg, s, l), k, task, Seen(s, l, k, seen), past)
  {
    var w := s.handlers[l.h];
    assert GoodPoll(s, w, k, seen);
    AnswerSeen(s, w, l.h, l.answer, k, task, seen, Seen(s, l, k, seen));
    PollMoveKeeps(s, Nothing, l.h, AfterPoll(w, l.answer), k, task, seen, Seen(s, l, k, seen), past);
  }

  lemma AnswerSeen(s: System, w: Handler, h: nat, answer: TaskAnswer, k: string, task: int, seen: Option<TaskAnswer>,
                   after: Option<TaskAnswer>)
    requires w.Polling? && GoodPoll(s, w, k, seen) && Pending(s, k, task, seen)
    requires seen.Some? ==> Terminal(seen.value) && (answer == seen.value || answer == TaskUnreachable)
    requires after == if Terminal(answer) then Some(answer) else seen
    ensures var t := s.(handlers := s.handlers[h := AfterPoll(w, answer)]);
            && Grows(s, s) && GoodPoll(t, AfterPoll(w, answer), k, after) && Pending(t, k, task, after)
            && (Settled(s, k, after) ==> Settled(t, k, after))
    ensures after == seen || (seen.None? && after.Some? && Terminal(after.value))
  {
  }

  lemma WriteKeeps(cfg: Config, s: System, l: Step, k: string, task: int, seen: Option<TaskAnswer>, past: set<nat>)
    requires GoodHandlers(s) && LatchInv(s, k, task, seen, past)
    requires l.Write? && l.h in s.handlers && s.handlers[l.h].Polled? && s.handlers[l.h].id == k
    ensures LatchInv(Apply(cfg, s, l), k, task, seen, past)
  {
    var w := s.handlers[l.h];
    assert GoodPoll(s, w, k, seen);
    var next := s.heap[w.ref].(state := StateFor(w.answer));
    var reply := Answered(Some(k), LastOperation(ReportAfterQuery(w.answer)));
    PolledWrites(s, w);
    OutcomeWritten(s, w, l.h, reply, k, task, seen);
    PollMoveKeeps(s, Overwrite(w.ref, next), l.h, reply, k, task, seen, seen, past);
  }

  lemma OutcomeWritten(s: System, w: Handler, h: nat, reply: Handler, k: string, task: int, seen: Option<TaskAnswer>)
    requires w.Polled? && GoodPoll(s, w, k, seen) && Pending(s, k, task, seen)
    requires reply == Answered(Some(k), LastOperation(ReportAfterQuery(w.answer)))
    ensures var p := Perform(s, Overwrite(w.ref, s.heap[w.ref].(state := StateFor(w.answer))));
            var t := p.(handlers := s.handlers[h := reply]);
            && Grows(s, p) && p.handlers == s.handlers && t.instances == s.instances
            && GoodPoll(t, reply, k, seen) && Pending(t, k, task, seen) && Settled(t, k, seen)
  {
  }

  lemma PolledWrites(s: System, w: Handler)
    requires w.Polled? && w.state == Provisioning && Terminal(w.answer) && w.ref < |s.heap|
    ensures WritePolled(s, w.id, w.ref, w.state, w.answer)
         == Move(Overwrite(w.ref, s.heap[w.ref].(state := StateFor(w.answer))),
                 Answered(Some(w.id), LastOperation(ReportAfterQuery(w.answer))))
  {
  }

  /** The other steps of handlers about k do nothing. */
  lemma IdleStutters(cfg: Config, s: System, l: Step, k: string, seen: Option<TaskAnswer>)
    requires !Begins(l) && l.h in s.handlers && !Asks(s, l, k)
    requires s.handlers[l.h].Answered?
             || (GoodPoll(s, s.handlers[l.h], k, seen) && !(l.Write? && s.handlers[l.h].Polled?))
    ensures MoveOf(cfg, s, l).Stutter?
  {
  }

  /** The handlers from before the run, which keep their identifiers. */
  predicate Finished(s: System, past: set<nat>) {
    forall h :: h in past ==> h in s.handlers
  }

  lemma StepKeepsLatch(cfg: Config, s: System, l: Step, k: string, task: int, seen: Option<TaskAnswer>, past: set<nat>)
    requires Inv(s) && LatchInv(s, k, task, seen, past) && Finished(s, past) && task != 0
    requires StartsOn(s, l, k) ==> l.PollBegin?
    requires Asks(s, l, k) && seen.Some? ==> l.answer == seen.value || l.answer == TaskUnreachable
    ensures LatchInv(Apply(cfg, s, l), k, task, Seen(s, l, k, seen), past)
  {
    if !Concerns(s, l, k) {
      Undisturbed(cfg, s, l, k);
      SameForKeeps(s, Apply(cfg, s, l), k, task, seen, past);
    } else {
      ConcernedKeeps(cfg, s, l, k, task, seen, past);
    }
  }

  lemma ConcernedKeeps(cfg: Config, s: System, l: Step, k: string, task: int, seen: Option<TaskAnswer>, past: set<nat>)
    requires Inv(s) && LatchInv(s, k, task, seen, past) && Finished(s, past) && task != 0
    requires Concerns(s, l, k) && (StartsOn(s, l, k) ==> l.PollBegin?)
    requires Asks(s, l, k) && seen.Some? ==> l.answer == seen.value || l.answer == TaskUnreachable
    ensures LatchInv(Apply(cfg, s, l), k, task, Seen(s, l, k, seen), past)
  {
    if Begins(l) {
      if l.h !in s.handlers {
        BeginKeeps(cfg, s, l, k, task, seen, past);
      }
    } else if Asks(s, l, k) {
      AskKeeps(cfg, s, l, k, task, seen, past);
    } else if l.Write? && s.handlers[l.h].Polled? {
      assert s.handlers[l.h].id == k;
      WriteKeeps(cfg, s, l, k, task, seen, past);
    } else {
      IdleStutters(cfg, s, l, k, seen);
    }
  }

  lemma HandlersStay(cfg: Config, s: System, l: Step, past: set<nat>)
    requires Finished(s, past)
    ensures Finished(Apply(cfg, s, l), past)
  {
  }

  lemma {:induction false} RunKeepsLatch(cfg: Config, s: System, steps: seq<Step>, k: string, task: int,
                                         seen: Option<TaskAnswer>, past: set<nat>)
    requires Inv(s) && LatchInv(s, k, task, seen, past) && Finished(s, past) && task != 0
    requires OnlyPolls(cfg, s, steps, k) && Stable(cfg, s, steps, k, seen)
    ensures LatchInv(Run(cfg, s, steps), k, task, SeenAfter(cfg, s, steps, k, seen), past)
    ensures Finished(Run(cfg, s, steps), past)
    decreases |steps|
  {
    if steps != [] {
      StepKeepsLatch(cfg, s, steps[0], k, task, seen, past);
      StepKeepsInv(cfg, s, steps[0]);
      HandlersStay(cfg, s, steps[0], past);
      RunKeepsLatch(cfg, Apply(cfg, s, steps[0]), steps[1..], k, task, Seen(s, steps[0], k, seen), past);
    }
  }

  /** The record of k's entry is waiting for a Director task. */
  predicate Provisions(s: System, k: string) {
    k in View(s) && View(s)[k].state == Provisioning && View(s)[k].boshTaskID != 0
  }

  /** A poll of k has answered with an outcome. */
  predicate PollAnswered(s: System, h: nat, k: string, report: OpReport) {
    h in s.handlers && s.handlers[h] == Answered(Some(k), LastOperation(report))
  }

  lemma LatchStarts(s: System, k: string)
    requires Inv(s) && Unattended(s, k) && Provisions(s, k)
    ensures LatchInv(s, k, View(s)[k].boshTaskID, None, s.handlers.Keys)
  {
  }

  /** Once the outcome is in the record it stays there. */
  lemma {:induction false} SettledStays(cfg: Config, s: System, steps: seq<Step>, k: string, task: int,
                                        seen: Option<TaskAnswer>, past: set<nat>)
    requires Inv(s) && LatchInv(s, k, task, seen, past) && Finished(s, past) && task != 0 && Settled(s, k, seen)
    requires OnlyPolls(cfg, s, steps, k) && Stable(cfg, s, steps, k, seen)
    ensures Settled(Run(cfg, s, steps), k, seen)
    decreases |steps|
  {
    if steps != [] {
      var t := Apply(cfg, s, steps[0]);
      SettledStep(cfg, s, steps[0], k, task, seen, past);
      StepKeepsLatch(cfg, s, steps[0], k, task, seen, past);
      StepKeepsInv(cfg, s, steps[0]);
      HandlersStay(cfg, s, steps[0], past);
      SettledStays(cfg, t, steps[1..], k, task, seen, past);
    }
  }

  lemma SettledStep(cfg: Config, s: System, l: Step, k: string, task: int, seen: Option<TaskAnswer>, past: set<nat>)
    requires Inv(s) && LatchInv(s, k, task, seen, past) && Settled(s, k, seen) && task != 0
    requires StartsOn(s, l, k) ==> l.PollBegin?
    requires Asks(s, l, k) ==> l.answer == seen.value || l.answer == TaskUnreachable
    ensures Settled(Apply(cfg, s, l), k, seen) && Seen(s, l, k, seen) == seen
  {
    if !Concerns(s, l, k) {
      Undisturbed(cfg, s, l, k);
    } else if Begins(l) {
      BegunPoll(s, k, task, seen);
    } else if s.handlers[l.h].Answered? {
      IdleStutters(cfg, s, l, k, seen);
    } else {
      SettledPollStep(cfg, s, l, k, seen);
    }
  }

  lemma SettledPollStep(cfg: Config, s: System, l: Step, k: string, seen: Option<TaskAnswer>)
    requires Settled(s, k, seen) && !Begins(l) && l.h in s.handlers && GoodPoll(s, s.handlers[l.h], k, seen)
    requires Asks(s, l, k) ==> l.answer == seen.value || l.answer == TaskUnreachable
    ensures Settled(Apply(cfg, s, l), k, seen) && Seen(s, l, k, seen) == seen
  {
    if Asks(s, l, k) {
    } else if l.Write? && s.handlers[l.h].Polled? {
      PolledWrites(s, s.handlers[l.h]);
    } else {
      IdleStutters(cfg, s, l, k, seen);
    }
  }

  /** From a reachable state in which k's record is provisioning a task and every
      handler about it has answered, while only polls begin on k and the Director is
      stable: if a poll of the run answers succeeded or failed within `first`, then at
      every later moment of the run a newly begun poll answers the same at once, without
      asking the Director. */
  lemma PollsLatch(cfg: Config, s: System, first: seq<Step>, later: seq<Step>, k: string, h: nat, report: OpReport,
                   g: nat)
    requires Inv(s) && Unattended(s, k) && Provisions(s, k)
    requires OnlyPolls(cfg, s, first + later, k) && Stable(cfg, s, first + later, k, None)
    requires report != InProgress && h !in s.handlers && PollAnswered(Run(cfg, s, first), h, k, report)
    requires g !in Run(cfg, s, first + later).handlers
    ensures PollAnswered(Apply(cfg, Run(cfg, s, first + later), PollBegin(g, k)), g, k, report)
  {
    var task, past := View(s)[k].boshTaskID, s.handlers.Keys;
    LatchStarts(s, k);
    SplitRun(cfg, s, first, later, k, None);
    RunKeepsLatch(cfg, s, first, k, task, None, past);
    RunKeepsInv(cfg, s, first);
    var mid := Run(cfg, s, first);
    var seen := SeenAfter(cfg, s, first, k, None);
    AnsweredMeansSettled(mid, h, k, report, task, seen, past);
    SettledStays(cfg, mid, later, k, task, seen, past);
    SettledAnswers(cfg, Run(cfg, mid, later), k, seen, g);
  }

  lemma AnsweredMeansSettled(s: System, h: nat, k: string, report: OpReport, task: int, seen: Option<TaskAnswer>,
                             past: set<nat>)
    requires LatchInv(s, k, task, seen, past) && h !in past && PollAnswered(s, h, k, report) && report != InProgress
    ensures Settled(s, k, seen) && report == ReportAfterQuery(seen.value)
  {
  }

  lemma SettledAnswers(cfg: Config, s: System, k: string, seen: Option<TaskAnswer>, g: nat)
    requires Settled(s, k, seen) && g !in s.handlers
    ensures PollAnswered(Apply(cfg, s, PollBegin(g, k)), g, k, ReportAfterQuery(seen.value))
  {
  }

  lemma {:induction false} SplitRun(cfg: Config, s: System, first: seq<Step>, later: seq<Step>, k: string,
                                    seen: Option<TaskAnswer>)
    requires OnlyPolls(cfg, s, first + later, k) && Stable(cfg, s, first + later, k, seen)
    ensures OnlyPolls(cfg, s, first, k) && Stable(cfg, s, first, k, seen)
    ensures OnlyPolls(cfg, Run(cfg, s, first), later, k)
    ensures Stable(cfg, Run(cfg, s, first), later, k, SeenAfter(cfg, s, first, k, seen))
    ensures Run(cfg, s, first + later) == Run(cfg, Run(cfg, s, first), later)
    decreases |first|
  {
    var all := first + later;
    if first == [] {
      assert all == later;
    } else {
      assert all[1..] == first[1..] + later;
      SplitRun(cfg, Apply(cfg, s, first[0]), first[1..], later, k, Seen(s, first[0], k, seen));
    }
  }
}
