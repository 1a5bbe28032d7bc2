/** Deletes of one instance exclude each other, known to the broker or not. */
module Exclusive {
  import opened Domain
  import opened Protocol
  import opened Invariant
  import opened Isolation

  /** Between marking the entry and the outcome of its delete call. */
  predicate InDelete(w: Handler, k: string) {
    (w.Deleting? || w.Deleted? || w.Undeleting?) && w.id == k
  }

  /** Deprovision is the only handler begun on k during the run; handlers on other
      ids are unrestricted. */
  predicate OnlyDeletes(cfg: Config, s: System, steps: seq<Step>, k: string)
    decreases |steps|
  {
    steps == [] ||
    ((StartsOn(s, steps[0], k) ==> steps[0].DeprovisionBegin?)
     && OnlyDeletes(cfg, Apply(cfg, s, steps[0]), steps[1..], k))
  }

  /** The Director accepts a delete made for k in this step. */
  predicate Accepts(s: System, l: Step, k: string) {
    l.DirectorDeletes? && l.delete.DeleteTask? && l.h in s.handlers
    && s.handlers[l.h].Deleting? && s.handlers[l.h].id == k
  }

  function AcceptedDeletes(cfg: Config, s: System, steps: seq<Step>, k: string): nat
    decreases |steps|
  {
    if steps == [] then 0
    else (if Accepts(s, steps[0], k) then 1 else 0)
         + AcceptedDeletes(cfg, Apply(cfg, s, steps[0]), steps[1..], k)
  }

  predicate Marked(s: System, k: string) {
    k in s.instances && s.instances[k] < |s.heap| && s.heap[s.instances[k]].state == Deprovisioning
  }

  /** A handler in its delete holds k's marked entry; once a delete has been accepted
      the entry stays marked and no other handler is in its delete. */
  ghost predicate OneDelete(s: System, k: string, accepted: nat) {
    (forall h :: h in s.handlers && IsAbout(s, s.handlers[h], k) ==>
       InDelete(s.handlers[h], k) || s.handlers[h].Answered?)
    && (forall g, h :: g in s.handlers && h in s.handlers && InDelete(s.handlers[g], k) && InDelete(s.handlers[h], k)
          ==> g == h)
    && (forall h :: h in s.handlers && InDelete(s.handlers[h], k) ==>
          Marked(s, k) && s.instances[k] == s.handlers[h].ref
          && accepted == if s.handlers[h].Deleted? then 1 else 0)
    && accepted <= 1
    && (accepted == 1 ==> Marked(s, k))
  }

  lemma OtherStepKeeps(cfg: Config, s: System, l: Step, k: string, accepted: nat)
    requires Inv(s) && OneDelete(s, k, accepted) && !Concerns(s, l, k)
    ensures OneDelete(Apply(cfg, s, l), k, accepted) && !Accepts(s, l, k)
  {
    Undisturbed(cfg, s, l, k);
    SameForKeeps(s, Apply(cfg, s, l), k, accepted);
  }

  lemma SameForKeeps(s: System, t: System, k: string, accepted: nat)
    requires SameFor(s, t, k) && OneDelete(s, k, accepted)
    ensures OneDelete(t, k, accepted)
  {
    forall h | h in t.handlers && InDelete(t.handlers[h], k)
      ensures h in s.handlers && s.handlers[h] == t.handlers[h]
    {
      assert IsAbout(t, t.handlers[h], k);
    }
  }

  /** An answer and no change to k's entry. */
  lemma AnswerKeeps(s: System, t: System, h: nat, answer: Handler, k: string, accepted: nat)
    requires OneDelete(s, k, accepted) && answer.Answered?
    requires t == s.(handlers := s.handlers[h := answer])
    ensures OneDelete(t, k, accepted)
  {
    forall g | g in t.handlers && g != h ensures IsAbout(t, t.handlers[g], k) <==> IsAbout(s, s.handlers[g], k) {
      SameHeapAbout(s, t, s.handlers[g], k);
    }
  }

  lemma SameHeapAbout(s: System, t: System, w: Handler, k: string)
    requires t.heap == s.heap
    ensures IsAbout(t, w, k) <==> IsAbout(s, w, k)
  {
  }

  /** k's entry gets marked, or stays marked, by the one handler that is in its delete. */
  lemma HolderKeeps(s: System, e: Effect, t: System, h: nat, next: Handler, k: string, before: nat,
                    accepted: nat)
    requires Inv(s) && GoodEffect(s, e) && OneDelete(s, k, before)
    requires t == Perform(s, e).(handlers := s.handlers[h := next])
    requires forall g :: g in s.handlers && g != h ==> !InDelete(s.handlers[g], k)
    requires InDelete(next, k) && Marked(t, k) && t.instances[k] == next.ref
    requires accepted == if next.Deleted? then 1 else 0
    ensures OneDelete(t, k, accepted)
  {
    OthersStayAnswered(s, e, t, h, next, k, before);
    OneHolder(s, t, h, next, k, accepted);
  }

  lemma OneHolder(s: System, t: System, h: nat, next: Handler, k: string, accepted: nat)
    requires t.handlers == s.handlers[h := next]
    requires forall g :: g in s.handlers && g != h ==> !InDelete(s.handlers[g], k)
    requires forall g :: g in t.handlers && g != h && IsAbout(t, t.handlers[g], k) ==>
               InDelete(t.handlers[g], k) || t.handlers[g].Answered?
    requires InDelete(next, k) && Marked(t, k) && t.instances[k] == next.ref
    requires accepted == if next.Deleted? then 1 else 0
    ensures OneDelete(t, k, accepted)
  {
  }

  lemma OthersStayAnswered(s: System, e: Effect, t: System, h: nat, next: Handler, k: string, before: nat)
    requires Inv(s) && GoodEffect(s, e) && OneDelete(s, k, before)
    requires t == Perform(s, e).(handlers := s.handlers[h := next])
    ensures forall g :: g in t.handlers && g != h && IsAbout(t, t.handlers[g], k) ==>
              InDelete(t.handlers[g], k) || t.handlers[g].Answered?
  {
    GoodEffectGrows(s, e);
    forall g | g in t.handlers && g != h && IsAbout(t, t.handlers[g], k)
      ensures InDelete(t.handlers[g], k) || t.handlers[g].Answered?
    {
      GoodRefs(s, s.handlers[g]);
      AboutIsStable(s, t, s.handlers[g], k);
    }
  }

  /** The holder finishes: it keeps the mark after an accepted delete and gives it up
      after a refused one. */
  lemma HolderAnswers(s: System, e: Effect, t: System, h: nat, next: Handler, k: string, accepted: nat)
    requires Inv(s) && GoodEffect(s, e) && OneDelete(s, k, accepted)
    requires t == Perform(s, e).(handlers := s.handlers[h := next])
    requires h in s.handlers && InDelete(s.handlers[h], k) && next.Answered?
    requires accepted == 1 ==> Marked(t, k)
    ensures OneDelete(t, k, accepted)
  {
    OthersStayAnswered(s, e, t, h, next, k, accepted);
    NoHolder(s, t, h, next, k, accepted);
  }

  lemma NoHolder(s: System, t: System, h: nat, next: Handler, k: string, accepted: nat)
    requires t.handlers == s.handlers[h := next] && next.Answered?
    requires forall g :: g in s.handlers && g != h ==> !InDelete(s.handlers[g], k)
    requires forall g :: g in t.handlers && g != h && IsAbout(t, t.handlers[g], k) ==>
               InDelete(t.handlers[g], k) || t.handlers[g].Answered?
    requires accepted <= 1 && (accepted == 1 ==> Marked(t, k))
    ensures OneDelete(t, k, accepted)
  {
  }

  lemma BeginKeeps(cfg: Config, s: System, l: Step, k: string, accepted: nat)
    requires Inv(s) && OneDelete(s, k, accepted)
    requires l.DeprovisionBegin? && l.id == k && l.h !in s.handlers
    ensures OneDelete(Apply(cfg, s, l), k, accepted)
  {
    var m := BeginDeprovision(s, l);
    BegunMove(s, l, k, accepted);
    if m.next.Answered? {
      AnswerKeeps(s, Apply(cfg, s, l), l.h, m.next, k, accepted);
    } else {
      HolderKeeps(s, m.effect, Apply(cfg, s, l), l.h, m.next, k, accepted, 0);
    }
  }

  /** A delete that begins either answers or marks an entry that no delete holds. */
  lemma BegunMove(s: System, l: Step, k: string, accepted: nat)
    requires Inv(s) && OneDelete(s, k, accepted) && l.DeprovisionBegin? && l.id == k
    ensures var m := BeginDeprovision(s, l);
            && m.Move? && GoodEffect(s, m.effect)
            && (if m.next.Answered? then m.effect == Nothing
                else accepted == 0 && InDelete(m.next, k) && !m.next.Deleted? && Marked(Perform(s, m.effect), k)
                     && Perform(s, m.effect).instances[k] == m.next.ref
                     && forall g :: g in s.handlers ==> !InDelete(s.handlers[g], k))
  {
    BeginDeprovisionIsGood(s, l);
    EntriesAreVisible(s);
    if BeginDeprovision(s, l).next.Deleting? {
      MarkTakesEffect(s, l, k);
      assert !Marked(s, k);
    }
  }

  lemma MarkTakesEffect(s: System, l: Step, k: string)
    requires Inv(s) && l.DeprovisionBegin? && l.id == k
    requires BeginDeprovision(s, l).next.Deleting?
    ensures var m := BeginDeprovision(s, l);
            var p := Perform(s, m.effect);
            InDelete(m.next, k) && Marked(p, k) && p.instances[k] == m.next.ref
  {
    if k in View(s) {
      ViewHasID(s, k);
    }
  }

  lemma ContinueKeeps(cfg: Config, s: System, l: Step, k: string, accepted: nat)
    requires Inv(s) && OneDelete(s, k, accepted)
    requires !Begins(l) && l.h in s.handlers && InDelete(s.handlers[l.h], k)
    ensures OneDelete(Apply(cfg, s, l), k, accepted + if Accepts(s, l, k) then 1 else 0)
  {
    if l.Write? && !s.handlers[l.h].Deleting? {
      DeleteWriteKeeps(cfg, s, l, k, accepted);
    } else if l.DirectorDeletes? && s.handlers[l.h].Deleting? {
      DeleteCallKeeps(cfg, s, l, k, accepted);
    } else {
      DeleteIdles(cfg, s, l, k);
    }
  }

  lemma DeleteIdles(cfg: Config, s: System, l: Step, k: string)
    requires !Begins(l) && l.h in s.handlers && InDelete(s.handlers[l.h], k)
    requires if s.handlers[l.h].Deleting? then !l.DirectorDeletes? else !l.Write?
    ensures Apply(cfg, s, l) == s
  {
  }

  lemma WriteKeepsMark(cfg: Config, s: System, w: Handler, k: string)
    requires InDelete(w, k)
    ensures var m := WriteBack(cfg, s, w);
            m.Move? ==> m.next.Answered? && (w.Deleted? && Marked(s, k) ==> Marked(Perform(s, m.effect), k))
  {
  }

  lemma DeleteWriteKeeps(cfg: Config, s: System, l: Step, k: string, accepted: nat)
    requires Inv(s) && OneDelete(s, k, accepted)
    requires l.Write? && l.h in s.handlers && InDelete(s.handlers[l.h], k) && !s.handlers[l.h].Deleting?
    ensures OneDelete(Apply(cfg, s, l), k, accepted)
  {
    var e, next := DeleteWriteShape(cfg, s, l, k);
    HolderAnswers(s, e, Apply(cfg, s, l), l.h, next, k, accepted);
  }

  lemma DeleteWriteShape(cfg: Config, s: System, l: Step, k: string) returns (e: Effect, next: Handler)
    requires Inv(s) && l.Write? && l.h in s.handlers && InDelete(s.handlers[l.h], k) && !s.handlers[l.h].Deleting?
    ensures Apply(cfg, s, l) == Perform(s, e).(handlers := s.handlers[l.h := next])
    ensures GoodEffect(s, e) && next.Answered?
    ensures s.handlers[l.h].Deleted? && Marked(s, k) ==> Marked(Perform(s, e), k)
  {
    var w := s.handlers[l.h];
    WriteKeepsMark(cfg, s, w, k);
    DeleteWriteIsGood(cfg, s, w, k);
    var m := WriteBack(cfg, s, w);
    e, next := m.effect, m.next;
  }

  lemma DeleteWriteIsGood(cfg: Config, s: System, w: Handler, k: string)
    requires Inv(s) && GoodHandler(s, w) && InDelete(w, k) && !w.Deleting?
    ensures WriteBack(cfg, s, w).Move? && GoodEffect(s, WriteBack(cfg, s, w).effect)
  {
    WriteIsGood(cfg, s, w);
  }

  lemma DeleteCallKeeps(cfg: Config, s: System, l: Step, k: string, accepted: nat)
    requires Inv(s) && OneDelete(s, k, accepted)
    requires l.DirectorDeletes? && l.h in s.handlers && s.handlers[l.h].Deleting? && s.handlers[l.h].id == k
    ensures OneDelete(Apply(cfg, s, l), k, accepted + if Accepts(s, l, k) then 1 else 0)
  {
    var next := AfterDelete(s.handlers[l.h], l.delete);
    HolderKeeps(s, Nothing, Apply(cfg, s, l), l.h, next, k, accepted,
                accepted + if Accepts(s, l, k) then 1 else 0);
  }

  lemma StepKeepsOneDelete(cfg: Config, s: System, l: Step, k: string, accepted: nat)
    requires Inv(s) && OneDelete(s, k, accepted)
    requires StartsOn(s, l, k) ==> l.DeprovisionBegin?
    ensures OneDelete(Apply(cfg, s, l), k, accepted + if Accepts(s, l, k) then 1 else 0)
  {
    if !Concerns(s, l, k) {
      OtherStepKeeps(cfg, s, l, k, accepted);
    } else {
      ConcernedKeeps(cfg, s, l, k, accepted);
    }
  }

  lemma ConcernedKeeps(cfg: Config, s: System, l: Step, k: string, accepted: nat)
    requires Inv(s) && OneDelete(s, k, accepted)
    requires Concerns(s, l, k) && (StartsOn(s, l, k) ==> l.DeprovisionBegin?)
    ensures OneDelete(Apply(cfg, s, l), k, accepted + if Accepts(s, l, k) then 1 else 0)
  {
    if Begins(l) {
      if l.h !in s.handlers {
        BeginKeeps(cfg, s, l, k, accepted);
      }
    } else if InDelete(s.handlers[l.h], k) {
      ContinueKeeps(cfg, s, l, k, accepted);
    } else {
      AnsweredIsIdle(cfg, s, l);
    }
  }

  lemma AnsweredIsIdle(cfg: Config, s: System, l: Step)
    requires !Begins(l) && l.h in s.handlers && s.handlers[l.h].Answered?
    ensures Apply(cfg, s, l) == s
  {
  }

  lemma {:induction false} RunKeepsOneDelete(cfg: Config, s: System, steps: seq<Step>, k: string, accepted: nat)
    requires Inv(s) && OneDelete(s, k, accepted) && OnlyDeletes(cfg, s, steps, k)
    ensures OneDelete(Run(cfg, s, steps), k, accepted + AcceptedDeletes(cfg, s, steps, k))
    decreases |steps|
  {
    if steps != [] {
      FirstStepKeeps(cfg, s, steps, k, accepted);
      RunKeepsOneDelete(cfg, Apply(cfg, s, steps[0]), steps[1..], k,
                        accepted + if Accepts(s, steps[0], k) then 1 else 0);
    }
  }

  lemma FirstStepKeeps(cfg: Config, s: System, steps: seq<Step>, k: string, accepted: nat)
    requires Inv(s) && OneDelete(s, k, accepted) && steps != [] && OnlyDeletes(cfg, s, steps, k)
    ensures var t := Apply(cfg, s, steps[0]);
            && Inv(t) && OneDelete(t, k, accepted + if Accepts(s, steps[0], k) then 1 else 0)
            && OnlyDeletes(cfg, t, steps[1..], k)
  {
    StepKeepsOneDelete(cfg, s, steps[0], k, accepted);
    StepKeepsInv(cfg, s, steps[0]);
  }

  /** From any reachable state in which every handler about k has answered, while only
      Deprovision handlers begin on k: at no time are two of them between marking and outcome,
      and the Director accepts at most one delete for k. */
  lemma DeletesExclude(cfg: Config, s: System, steps: seq<Step>, k: string, g: nat, h: nat)
    requires Inv(s) && Unattended(s, k) && OnlyDeletes(cfg, s, steps, k)
    ensures AcceptedDeletes(cfg, s, steps, k) <= 1
    ensures var t := Run(cfg, s, steps);
            g in t.handlers && h in t.handlers && InDelete(t.handlers[g], k) && InDelete(t.handlers[h], k) ==> g == h
  {
    NoDeleteYet(s, k);
    RunKeepsOneDelete(cfg, s, steps, k, 0);
    OneAtATime(Run(cfg, s, steps), k, AcceptedDeletes(cfg, s, steps, k), g, h);
  }

  lemma NoDeleteYet(s: System, k: string)
    requires Unattended(s, k)
    ensures OneDelete(s, k, 0)
  {
  }

  lemma OneAtATime(s: System, k: string, accepted: nat, g: nat, h: nat)
    requires OneDelete(s, k, accepted)
    ensures accepted <= 1
    ensures g in s.handlers && h in s.handlers && InDelete(s.handlers[g], k) && InDelete(s.handlers[h], k) ==> g == h
  {
  }
}
