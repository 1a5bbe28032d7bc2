/** The upgrade and status handlers and Bind, run alone: their loops of lock sections
    and Director calls compose to the sequential upgrade and status functions. */
module AloneAdmin {
  import opened Strings
  import opened Domain
  import opened Handlers
  import opened Protocol
  import opened Invariant
  import opened Alone
  import Sequential

  predicate SameShared(s: System, t: System) {
    t.heap == s.heap && t.instances == s.instances && t.tracker == s.tracker
  }

  predicate At(s: System, h: nat, w: Handler) {
    h in s.handlers && s.handlers[h] == w
  }

  lemma SameSharedView(s: System, t: System)
    requires SameShared(s, t)
    ensures View(t) == View(s) && (Entries(s) ==> Entries(t))
  {
  }

  // ---------- Bind ----------

  lemma BindAlone(cfg: Config, s: System, h: nat, id: string)
    requires h !in s.handlers
    ensures var t := Apply(cfg, s, BindBegin(h, id));
            SameShared(s, t) && IsAnswered(t, h, id, Sequential.Bind(View(s), id))
  {
  }

  // ---------- AdminUpgrade ----------

  /** One candidate: build, deploy, write the record, record the task. After a refused
      deploy the two writes do nothing. */
  function OneCandidate(h: nat, reply: DeployReply): seq<Step> {
    [UpgradeBuild(h), DirectorDeploys(h, reply), Write(h), Write(h)]
  }

  function CandidateSteps(h: nat, replies: seq<DeployReply>, n: nat): seq<Step> {
    if n == 0 then [] else CandidateSteps(h, replies, n - 1) + OneCandidate(h, Sequential.ReplyAt(replies, n - 1))
  }

  lemma BuildStep(cfg: Config, s: System, h: nat, ref: nat, todo: seq<nat>, done: nat)
    requires At(s, h, Rolling([ref] + todo, done)) && ref < |s.heap|
    ensures var t := Apply(cfg, s, UpgradeBuild(h));
            SameShared(s, t) && At(t, h, Deploying(ForUpgrade(ref, todo, done), BuildParams(cfg, s.heap[ref])))
  {
  }

  lemma DeployStep(cfg: Config, s: System, h: nat, job: Job, params: Params, reply: DeployReply)
    requires At(s, h, Deploying(job, params))
    ensures var t := Apply(cfg, s, DirectorDeploys(h, reply)); SameShared(s, t) && At(t, h, AfterDeploy(job, reply))
  {
  }

  lemma RollingIdles(cfg: Config, s: System, h: nat, todo: seq<nat>, done: nat)
    requires At(s, h, Rolling(todo, done))
    ensures Apply(cfg, s, Write(h)) == s
  {
  }

  lemma UpgradeWrites(cfg: Config, s: System, h: nat, k: string, ref: nat, todo: seq<nat>, done: nat, task: int)
    requires Entries(s) && k in s.instances && s.instances[k] == ref
    requires At(s, h, Deployed(ForUpgrade(ref, todo, done), task))
    ensures k in View(s)
    ensures var t := Apply(cfg, s, Write(h));
            && Entries(t) && t.instances == s.instances && t.tracker == s.tracker
            && View(t) == View(s)[k := Upgraded(cfg.openClawVersion, View(s)[k], task)]
            && At(t, h, Tracking(ref, task, todo, done))
  {
    Known(s, k);
    var next := Upgraded(cfg.openClawVersion, s.heap[ref], task);
    WritesUpgrade(cfg, s, h, ref, todo, done, task);
    OverwriteView(s, Apply(cfg, s, Write(h)), k, ref, next);
  }

  lemma WritesUpgrade(cfg: Config, s: System, h: nat, ref: nat, todo: seq<nat>, done: nat, task: int)
    requires ref < |s.heap| && At(s, h, Deployed(ForUpgrade(ref, todo, done), task))
    ensures var t := Apply(cfg, s, Write(h));
            && t.heap == s.heap[ref := Upgraded(cfg.openClawVersion, s.heap[ref], task)]
            && t.instances == s.instances && t.tracker == s.tracker
            && At(t, h, Tracking(ref, task, todo, done))
  {
  }

  lemma TaskTracked(cfg: Config, s: System, h: nat, k: string, ref: nat, todo: seq<nat>, done: nat, task: int)
    requires Refers(s, ref, k) && At(s, h, Tracking(ref, task, todo, done))
    ensures var t := Apply(cfg, s, Write(h));
            && t.heap == s.heap && t.instances == s.instances && t.tracker == s.tracker[k := task]
            && At(t, h, Rolling(todo, done + 1))
  {
  }

  /** The handler holds a reference for each chosen key and has i of them behind it. */
  predicate RollingAt(s: System, h: nat, chosen: seq<string>, refs: seq<nat>, i: nat, done: nat) {
    Entries(s) && |refs| == |chosen| && i <= |refs|
    && (forall j :: 0 <= j < |chosen| ==> chosen[j] in s.instances && s.instances[chosen[j]] == refs[j])
    && At(s, h, Rolling(refs[i..], done))
  }

  /** What one turn of the deploy loop does, from s to t. */
  predicate CandidateDone(cfg: Config, s: System, t: System, h: nat, chosen: seq<string>, refs: seq<nat>, i: nat,
                          done: nat, reply: DeployReply)
    requires i < |chosen|
  {
    var k := chosen[i];
    k in View(s)
    && if reply.DeployTask? then
         && RollingAt(t, h, chosen, refs, i + 1, done + 1)
         && View(t) == View(s)[k := Upgraded(cfg.openClawVersion, View(s)[k], reply.task)]
         && t.tracker == s.tracker[k := reply.task]
       else RollingAt(t, h, chosen, refs, i + 1, done) && View(t) == View(s) && t.tracker == s.tracker
  }

  lemma OneCandidateRuns(cfg: Config, s: System, h: nat, chosen: seq<string>, refs: seq<nat>, i: nat, done: nat,
                         reply: DeployReply)
    requires RollingAt(s, h, chosen, refs, i, done) && i < |refs|
    ensures CandidateDone(cfg, s, Run(cfg, s, OneCandidate(h, reply)), h, chosen, refs, i, done, reply)
  {
    RunFour(cfg, s, UpgradeBuild(h), DirectorDeploys(h, reply), Write(h), Write(h));
    CandidateAsked(cfg, s, h, chosen, refs, i, done, reply);
    var asked := Apply(cfg, Apply(cfg, s, UpgradeBuild(h)), DirectorDeploys(h, reply));
    CandidateWritten(cfg, s, asked, h, chosen, refs, i, done, reply);
  }

  lemma CandidateAsked(cfg: Config, s: System, h: nat, chosen: seq<string>, refs: seq<nat>, i: nat, done: nat,
                       reply: DeployReply)
    requires RollingAt(s, h, chosen, refs, i, done) && i < |refs|
    ensures var t := Apply(cfg, Apply(cfg, s, UpgradeBuild(h)), DirectorDeploys(h, reply));
            SameShared(s, t) && At(t, h, AfterDeploy(ForUpgrade(refs[i], refs[i + 1..], done), reply))
  {
    var ref, todo := refs[i], refs[i + 1..];
    assert refs[i..] == [ref] + todo;
    Known(s, chosen[i]);
    BuildStep(cfg, s, h, ref, todo, done);
    DeployStep(cfg, Apply(cfg, s, UpgradeBuild(h)), h, ForUpgrade(ref, todo, done), BuildParams(cfg, s.heap[ref]),
               reply);
  }

  lemma CandidateWritten(cfg: Config, s: System, asked: System, h: nat, chosen: seq<string>, refs: seq<nat>, i: nat,
                         done: nat, reply: DeployReply)
    requires RollingAt(s, h, chosen, refs, i, done) && i < |refs| && SameShared(s, asked)
    requires At(asked, h, AfterDeploy(ForUpgrade(refs[i], refs[i + 1..], done), reply))
    ensures CandidateDone(cfg, s, Apply(cfg, Apply(cfg, asked, Write(h)), Write(h)), h, chosen, refs, i, done, reply)
  {
    SameSharedView(s, asked);
    if reply.DeployTask? {
      AcceptedWrites(cfg, asked, h, chosen[i], refs[i], refs[i + 1..], done, reply.task);
    } else {
      Known(s, chosen[i]);
      RollingIdles(cfg, asked, h, refs[i + 1..], done);
    }
  }

  lemma AcceptedWrites(cfg: Config, s: System, h: nat, k: string, ref: nat, todo: seq<nat>, done: nat, task: int)
    requires Entries(s) && k in s.instances && s.instances[k] == ref
    requires At(s, h, Deployed(ForUpgrade(ref, todo, done), task))
    ensures k in View(s)
    ensures var t := Apply(cfg, Apply(cfg, s, Write(h)), Write(h));
            && Entries(t) && t.instances == s.instances && t.tracker == s.tracker[k := task]
            && View(t) == View(s)[k := Upgraded(cfg.openClawVersion, View(s)[k], task)]
            && At(t, h, Rolling(todo, done + 1))
  {
    UpgradeWrites(cfg, s, h, k, ref, todo, done, task);
    var t := Apply(cfg, s, Write(h));
    Known(t, k);
    TaskTracked(cfg, t, h, k, ref, todo, done, task);
    SameEntriesView(t, Apply(cfg, t, Write(h)));
  }

  lemma SameEntriesView(s: System, t: System)
    requires t.heap == s.heap && t.instances == s.instances
    ensures View(t) == View(s) && (Entries(s) ==> Entries(t))
  {
  }

  /** After n candidates, from a handler that started in s. */
  predicate UpgradedSoFar(cfg: Config, s: System, t: System, h: nat, chosen: seq<string>, refs: seq<nat>,
                          replies: seq<DeployReply>, n: nat)
    requires n <= |chosen|
  {
    RollingAt(t, h, chosen, refs, n, Sequential.AcceptedFirst(replies, n))
    && View(t) == Sequential.UpgradeFirst(cfg.openClawVersion, View(s), chosen, replies, n)
    && t.tracker == Sequential.TrackFirst(s.tracker, chosen, replies, n)
  }

  lemma NextCandidate(cfg: Config, s: System, t: System, u: System, h: nat, chosen: seq<string>, refs: seq<nat>,
                      replies: seq<DeployReply>, n: nat)
    requires n < |chosen| && UpgradedSoFar(cfg, s, t, h, chosen, refs, replies, n)
    requires CandidateDone(cfg, t, u, h, chosen, refs, n, Sequential.AcceptedFirst(replies, n),
                           Sequential.ReplyAt(replies, n))
    ensures UpgradedSoFar(cfg, s, u, h, chosen, refs, replies, n + 1)
  {
  }

  lemma {:induction false} CandidatesRun(cfg: Config, s: System, h: nat, chosen: seq<string>, refs: seq<nat>,
                                         replies: seq<DeployReply>, n: nat, steps: seq<Step>)
    requires RollingAt(s, h, chosen, refs, 0, 0) && n <= |chosen|
    requires steps == CandidateSteps(h, replies, n)
    ensures UpgradedSoFar(cfg, s, Run(cfg, s, steps), h, chosen, refs, replies, n)
    decreases n
  {
    if n == 0 {
      RunNothing(cfg, s);
      NoneUpgraded(cfg, s, h, chosen, refs, replies);
    } else {
      var before := CandidateSteps(h, replies, n - 1);
      CandidatesRun(cfg, s, h, chosen, refs, replies, n - 1, before);
      RunNextCandidate(cfg, s, h, chosen, refs, replies, n - 1, before, steps);
    }
  }

  lemma NoneUpgraded(cfg: Config, s: System, h: nat, chosen: seq<string>, refs: seq<nat>, replies: seq<DeployReply>)
    requires RollingAt(s, h, chosen, refs, 0, 0)
    ensures UpgradedSoFar(cfg, s, s, h, chosen, refs, replies, 0)
  {
  }

  lemma RunNothing(cfg: Config, s: System)
    ensures Run(cfg, s, []) == s
  {
  }

  lemma RunNextCandidate(cfg: Config, s: System, h: nat, chosen: seq<string>, refs: seq<nat>, replies: seq<DeployReply>,
                         n: nat, before: seq<Step>, steps: seq<Step>)
    requires n < |chosen| && UpgradedSoFar(cfg, s, Run(cfg, s, before), h, chosen, refs, replies, n)
    requires steps == before + OneCandidate(h, Sequential.ReplyAt(replies, n))
    ensures UpgradedSoFar(cfg, s, Run(cfg, s, steps), h, chosen, refs, replies, n + 1)
  {
    var t, reply := Run(cfg, s, before), Sequential.ReplyAt(replies, n);
    RunConcat(cfg, s, before, OneCandidate(h, reply));
    OneCandidateRuns(cfg, t, h, chosen, refs, n, Sequential.AcceptedFirst(replies, n), reply);
    NextCandidate(cfg, s, t, Run(cfg, t, OneCandidate(h, reply)), h, chosen, refs, replies, n);
  }

  function RefsOf(s: System, chosen: seq<string>): (refs: seq<nat>)
    requires forall i :: 0 <= i < |chosen| ==> chosen[i] in s.instances
    ensures |refs| == |chosen| && forall i :: 0 <= i < |refs| ==> refs[i] == s.instances[chosen[i]]
  {
    seq(|chosen|, i requires 0 <= i < |chosen| => s.instances[chosen[i]])
  }

  lemma ChosenAreCandidates(version: string, s: System, count: int, chosen: seq<string>)
    requires Entries(s) && Sequential.CandidateChoice(version, View(s), count, chosen)
    ensures forall i :: 0 <= i < |chosen| ==> chosen[i] in s.instances
    ensures Candidates(version, s, count, RefsOf(s, chosen))
  {
  }

  lemma UpgradeBegins(cfg: Config, s: System, h: nat, count: int, chosen: seq<string>)
    requires Entries(s) && h !in s.handlers && count > 0
    requires Sequential.CandidateChoice(cfg.openClawVersion, View(s), count, chosen)
    requires forall i :: 0 <= i < |chosen| ==> chosen[i] in s.instances
    ensures var t := Apply(cfg, s, UpgradeBegin(h, count, RefsOf(s, chosen)));
            SameShared(s, t) && RollingAt(t, h, chosen, RefsOf(s, chosen), 0, 0)
  {
    ChosenAreCandidates(cfg.openClawVersion, s, count, chosen);
    var refs := RefsOf(s, chosen);
    BeginStep(cfg, s, UpgradeBegin(h, count, refs));
    assert refs[0..] == refs;
    SameSharedView(s, Apply(cfg, s, UpgradeBegin(h, count, refs)));
  }

  lemma UpgradeEnds(cfg: Config, s: System, h: nat, done: nat)
    requires At(s, h, Rolling([], done))
    ensures var t := Apply(cfg, s, UpgradeBuild(h));
            SameShared(s, t) && At(t, h, Answered(None, Upgrading(done)))
  {
  }

  /** For every choice the candidate loop can make, the handler's sections do to the map
      and the tracker what the sequential upgrade does, and count the same deploys. */
  lemma UpgradeAlone(cfg: Config, s: System, h: nat, count: int, chosen: seq<string>, replies: seq<DeployReply>)
    requires Entries(s) && h !in s.handlers && count > 0
    requires Sequential.CandidateChoice(cfg.openClawVersion, View(s), count, chosen)
    ensures forall i :: 0 <= i < |chosen| ==> chosen[i] in s.instances
    ensures var begun := Apply(cfg, s, UpgradeBegin(h, count, RefsOf(s, chosen)));
            var t := Apply(cfg, Run(cfg, begun, CandidateSteps(h, replies, |chosen|)), UpgradeBuild(h));
            && View(t) == Sequential.UpgradeFirst(cfg.openClawVersion, View(s), chosen, replies, |chosen|)
            && t.tracker == Sequential.TrackFirst(s.tracker, chosen, replies, |chosen|)
            && At(t, h, Answered(None, Upgrading(Sequential.AcceptedFirst(replies, |chosen|))))
  {
    ChosenAreCandidates(cfg.openClawVersion, s, count, chosen);
    UpgradeBegins(cfg, s, h, count, chosen);
    var refs := RefsOf(s, chosen);
    var begun := Apply(cfg, s, UpgradeBegin(h, count, refs));
    SameSharedView(s, begun);
    CandidatesRun(cfg, begun, h, chosen, refs, replies, |chosen|, CandidateSteps(h, replies, |chosen|));
    LastCandidateDone(cfg, begun, Run(cfg, begun, CandidateSteps(h, replies, |chosen|)), h, chosen, refs, replies);
  }

  lemma LastCandidateDone(cfg: Config, s: System, t: System, h: nat, chosen: seq<string>, refs: seq<nat>,
                          replies: seq<DeployReply>)
    requires UpgradedSoFar(cfg, s, t, h, chosen, refs, replies, |chosen|)
    ensures var u := Apply(cfg, t, UpgradeBuild(h));
            && View(u) == Sequential.UpgradeFirst(cfg.openClawVersion, View(s), chosen, replies, |chosen|)
            && u.tracker == Sequential.TrackFirst(s.tracker, chosen, replies, |chosen|)
            && At(u, h, Answered(None, Upgrading(Sequential.AcceptedFirst(replies, |chosen|))))
  {
    assert refs[|chosen|..] == [];
    UpgradeEnds(cfg, t, h, Sequential.AcceptedFirst(replies, |chosen|));
    SameSharedView(t, Apply(cfg, t, UpgradeBuild(h)));
  }

  // ---------- AdminUpgradeStatus ----------

  /** One tracked instance: ask, and write the record if the task has ended. */
  function OneCheck(h: nat, key: string, a: TaskAnswer): seq<Step> {
    if StateAfterStatus(a).Some? then [DirectorReports(h, key, a), Write(h)] else [DirectorReports(h, key, a)]
  }

  function CheckSteps(h: nat, keys: seq<string>, answers: map<string, TaskAnswer>, n: nat): seq<Step>
    requires n <= |keys|
  {
    if n == 0 then []
    else CheckSteps(h, keys, answers, n - 1) + OneCheck(h, keys[n - 1], Sequential.AnswerFor(answers, keys[n - 1]))
  }

  function TallyOf(seen: set<string>, answers: map<string, TaskAnswer>): Tally {
    Tally(|Sequential.Healthy(seen, answers)|, |Sequential.FailedChecks(seen, answers)|,
          |Sequential.StillRunning(seen, answers)|)
  }

  lemma TallyStep(seen: set<string>, key: string, answers: map<string, TaskAnswer>)
    requires key !in seen
    ensures var a := Sequential.AnswerFor(answers, key);
            TallyOf(seen + {key}, answers) == Counted(TallyOf(seen, answers), a)
  {
    Sequential.OneMoreChecked(seen, key, answers);
  }

  lemma AskStep(cfg: Config, s: System, h: nat, key: string, a: TaskAnswer, pending: map<string, int>, total: nat,
                tally: Tally)
    requires At(s, h, Checking(pending, total, tally)) && key in pending
    ensures var t := Apply(cfg, s, DirectorReports(h, key, a));
            SameShared(s, t) && At(t, h, AfterCheck(Checking(pending, total, tally), key, a))
  {
  }

  lemma SettleStep(cfg: Config, s: System, h: nat, key: string, state: LifeState, pending: map<string, int>, total: nat,
                   tally: Tally)
    requires Entries(s) && At(s, h, Checked(key, state, pending, total, tally))
    ensures var t := Apply(cfg, s, Write(h));
            && Entries(t) && t.instances == s.instances && t.tracker == s.tracker
            && At(t, h, Checking(pending, total, tally))
            && View(t) == if key in View(s) then View(s)[key := View(s)[key].(state := state)] else View(s)
  {
    ContinueStep(cfg, s, Write(h));
    var t := Apply(cfg, s, Write(h));
    if key in View(s) {
      Known(s, key);
      OverwriteView(s, t, key, s.instances[key], View(s)[key].(state := state));
    } else {
      SameSharedView(s, t);
    }
  }

  lemma OneCheckRuns(cfg: Config, s: System, h: nat, key: string, a: TaskAnswer, pending: map<string, int>, total: nat,
                     tally: Tally)
    requires Entries(s) && At(s, h, Checking(pending, total, tally)) && key in pending
    ensures var t := Run(cfg, s, OneCheck(h, key, a));
            && Entries(t) && t.instances == s.instances && t.tracker == s.tracker
            && View(t) == (if key in View(s) then View(s)[key := Sequential.AfterCheck(View(s)[key], a)] else View(s))
            && At(t, h, Checking(pending - {key}, total, Counted(tally, a)))
  {
    AskStep(cfg, s, h, key, a, pending, total, tally);
    var s1 := Apply(cfg, s, DirectorReports(h, key, a));
    SameSharedView(s, s1);
    RunOneOrTwo(cfg, s, DirectorReports(h, key, a), Write(h));
    CheckedValue(key, a, pending, total, tally);
    if StateAfterStatus(a).Some? {
      SettleStep(cfg, s1, h, key, StateAfterStatus(a).value, pending - {key}, total, Counted(tally, a));
    } else {
      UnchangedEntry(View(s), key);
    }
  }

  function Counted(t: Tally, a: TaskAnswer): Tally {
    if a.TaskDone? then t.(healthy := t.healthy + 1)
    else if a.TaskOther? then t.(inProgress := t.inProgress + 1)
    else t.(failed := t.failed + 1)
  }

  lemma CheckedValue(key: string, a: TaskAnswer, pending: map<string, int>, total: nat, tally: Tally)
    requires key in pending
    ensures AfterCheck(Checking(pending, total, tally), key, a)
         == match StateAfterStatus(a)
            case Some(state) => Checked(key, state, pending - {key}, total, Counted(tally, a))
            case None => Checking(pending - {key}, total, Counted(tally, a))
  {
  }

  lemma UnchangedEntry(mem: Memory, key: string)
    ensures key in mem ==> mem[key := mem[key]] == mem
  {
  }

  lemma RunOneOrTwo(cfg: Config, s: System, a: Step, b: Step)
    ensures Run(cfg, s, [a]) == Apply(cfg, s, a)
    ensures Run(cfg, s, [a, b]) == Apply(cfg, Apply(cfg, s, a), b)
  {
    RunSplits(cfg, s, a, []);
    RunSplits(cfg, s, a, [b]);
    RunSplits(cfg, Apply(cfg, s, a), b, []);
    assert [a] + [] == [a] && [a] + [b] == [a, b] && [b] + [] == [b];
  }

  function KeySet(keys: seq<string>): set<string> {
    set k | k in keys
  }

  /** After the keys in seen, from a handler that started in s. */
  predicate CheckedSoFar(s: System, t: System, h: nat, seen: set<string>, answers: map<string, TaskAnswer>) {
    Entries(t) && t.instances == s.instances && t.tracker == s.tracker
    && View(t) == Sequential.CheckTracked(View(s), seen, answers)
    && At(t, h, Checking(s.tracker - seen, |s.tracker|, TallyOf(seen, answers)))
  }

  lemma NextCheck(cfg: Config, s: System, t: System, h: nat, seen: set<string>, key: string,
                  answers: map<string, TaskAnswer>)
    requires CheckedSoFar(s, t, h, seen, answers) && key in s.tracker && key !in seen
    ensures CheckedSoFar(s, Run(cfg, t, OneCheck(h, key, Sequential.AnswerFor(answers, key))), h, seen + {key}, answers)
  {
    var a := Sequential.AnswerFor(answers, key);
    OneCheckRuns(cfg, t, h, key, a, s.tracker - seen, |s.tracker|, TallyOf(seen, answers));
    TallyStep(seen, key, answers);
    Sequential.OneMoreSettled(View(s), seen, key, answers);
    assert s.tracker - seen - {key} == s.tracker - (seen + {key});
    assert View(t).Keys == View(s).Keys;
  }

  lemma {:induction false} ChecksRun(cfg: Config, s: System, h: nat, keys: seq<string>,
                                     answers: map<string, TaskAnswer>, n: nat, steps: seq<Step>)
    requires Entries(s) && Sequential.Distinct(keys) && KeySet(keys) == s.tracker.Keys && n <= |keys|
    requires At(s, h, Checking(s.tracker, |s.tracker|, Tally(0, 0, 0)))
    requires steps == CheckSteps(h, keys, answers, n)
    ensures CheckedSoFar(s, Run(cfg, s, steps), h, KeySet(keys[..n]), answers)
    decreases n
  {
    if n == 0 {
      RunNothing(cfg, s);
      NothingChecked(s, h, answers);
      assert KeySet(keys[..0]) == {};
    } else {
      var before := CheckSteps(h, keys, answers, n - 1);
      ChecksRun(cfg, s, h, keys, answers, n - 1, before);
      RunNextKey(cfg, s, h, keys, answers, n, before, steps);
    }
  }

  lemma RunNextKey(cfg: Config, s: System, h: nat, keys: seq<string>, answers: map<string, TaskAnswer>, n: nat,
                   before: seq<Step>, steps: seq<Step>)
    requires Sequential.Distinct(keys) && KeySet(keys) == s.tracker.Keys && 0 < n <= |keys|
    requires CheckedSoFar(s, Run(cfg, s, before), h, KeySet(keys[..n - 1]), answers)
    requires steps == before + OneCheck(h, keys[n - 1], Sequential.AnswerFor(answers, keys[n - 1]))
    ensures CheckedSoFar(s, Run(cfg, s, steps), h, KeySet(keys[..n]), answers)
  {
    OneMoreKey(keys, n);
    RunNextCheck(cfg, s, h, KeySet(keys[..n - 1]), keys[n - 1], answers, before, steps);
  }

  lemma RunNextCheck(cfg: Config, s: System, h: nat, seen: set<string>, key: string, answers: map<string, TaskAnswer>,
                     before: seq<Step>, steps: seq<Step>)
    requires CheckedSoFar(s, Run(cfg, s, before), h, seen, answers) && key in s.tracker && key !in seen
    requires steps == before + OneCheck(h, key, Sequential.AnswerFor(answers, key))
    ensures CheckedSoFar(s, Run(cfg, s, steps), h, seen + {key}, answers)
  {
    RunConcat(cfg, s, before, OneCheck(h, key, Sequential.AnswerFor(answers, key)));
    NextCheck(cfg, s, Run(cfg, s, before), h, seen, key, answers);
  }

  lemma NothingChecked(s: System, h: nat, answers: map<string, TaskAnswer>)
    requires Entries(s) && At(s, h, Checking(s.tracker, |s.tracker|, Tally(0, 0, 0)))
    ensures CheckedSoFar(s, s, h, {}, answers)
  {
  }

  lemma OneMoreKey(keys: seq<string>, n: nat)
    requires 0 < n <= |keys| && Sequential.Distinct(keys)
    ensures keys[n - 1] !in KeySet(keys[..n - 1]) && keys[n - 1] in KeySet(keys)
    ensures KeySet(keys[..n]) == KeySet(keys[..n - 1]) + {keys[n - 1]}
  {
  }

  /** In whatever order the status handler visits the tracked instances, its sections do
      to the map what the sequential check does, and its answer counts the same. */
  lemma StatusAlone(cfg: Config, s: System, h: nat, keys: seq<string>, answers: map<string, TaskAnswer>)
    requires Entries(s) && h !in s.handlers && Sequential.Distinct(keys) && KeySet(keys) == s.tracker.Keys
    ensures var begun := Apply(cfg, s, StatusBegin(h));
            var t := Apply(cfg, Run(cfg, begun, CheckSteps(h, keys, answers, |keys|)), Write(h));
            && View(t) == Sequential.CheckTracked(View(s), s.tracker.Keys, answers)
            && t.tracker == s.tracker
            && At(t, h, Answered(None, Sequential.StatusReply(s.tracker.Keys, answers)))
  {
    StatusBegins(cfg, s, h);
    var begun := Apply(cfg, s, StatusBegin(h));
    SameSharedView(s, begun);
    StatusGoesOn(cfg, begun, h, keys, answers);
  }

  lemma StatusGoesOn(cfg: Config, s: System, h: nat, keys: seq<string>, answers: map<string, TaskAnswer>)
    requires Entries(s) && Sequential.Distinct(keys) && KeySet(keys) == s.tracker.Keys
    requires At(s, h, Checking(s.tracker, |s.tracker|, Tally(0, 0, 0)))
    ensures var t := Apply(cfg, Run(cfg, s, CheckSteps(h, keys, answers, |keys|)), Write(h));
            && View(t) == Sequential.CheckTracked(View(s), s.tracker.Keys, answers)
            && t.tracker == s.tracker
            && At(t, h, Answered(None, Sequential.StatusReply(s.tracker.Keys, answers)))
  {
    ChecksRun(cfg, s, h, keys, answers, |keys|, CheckSteps(h, keys, answers, |keys|));
    assert keys[..|keys|] == keys;
    LastCheckDone(cfg, s, Run(cfg, s, CheckSteps(h, keys, answers, |keys|)), h, answers);
  }

  lemma StatusBegins(cfg: Config, s: System, h: nat)
    requires h !in s.handlers
    ensures var t := Apply(cfg, s, StatusBegin(h));
            SameShared(s, t) && At(t, h, Checking(s.tracker, |s.tracker|, Tally(0, 0, 0)))
  {
    BeginStep(cfg, s, StatusBegin(h));
  }

  lemma LastCheckDone(cfg: Config, s: System, t: System, h: nat, answers: map<string, TaskAnswer>)
    requires CheckedSoFar(s, t, h, s.tracker.Keys, answers)
    ensures var u := Apply(cfg, t, Write(h));
            && View(u) == Sequential.CheckTracked(View(s), s.tracker.Keys, answers)
            && u.tracker == s.tracker
            && At(u, h, Answered(None, Sequential.StatusReply(s.tracker.Keys, answers)))
  {
    assert s.tracker - s.tracker.Keys == map[];
    StatusEnds(cfg, t, h, |s.tracker|, TallyOf(s.tracker.Keys, answers));
    SameSharedView(t, Apply(cfg, t, Write(h)));
  }

  lemma StatusEnds(cfg: Config, s: System, h: nat, total: nat, tally: Tally)
    requires At(s, h, Checking(map[], total, tally))
    ensures var t := Apply(cfg, s, Write(h));
            SameShared(s, t)
            && At(t, h, Answered(None, UpgradeStatus(tally.healthy, total, tally.failed, tally.inProgress)))
  {
  }
}
