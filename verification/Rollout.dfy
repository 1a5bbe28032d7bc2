/** Runs of the upgrade errand: how many canaries it asks for, and what its two upgrade
    calls with the status polls between and after them do to the fleet. */
module Rollout {
  import opened Strings
  import opened Domain
  import opened Handlers
  import opened Sequential
  import opened Numbers

  // ---------- canary arithmetic ----------

  /** Shell division truncates toward zero. */
  function Quotient(a: int, b: int): int
    requires b > 0
  {
    if a >= 0 then a / b else -((-a) / b)
  }

  function CanaryCount(total: int, pct: int): int {
    var count := Quotient(total * pct + 99, 100);
    if count < 1 then 1 else count
  }

  /** The canary count is the least positive number that is at least pct percent of the
      fleet, and no more than the fleet exactly when pct is at most 100. */
  lemma CanaryCountIsCeiling(total: int, pct: int)
    requires total >= 1
    ensures var count := CanaryCount(total, pct);
            && count >= 1
            && (forall n :: n >= count <==> n >= 1 && 100 * n >= total * pct)
            && (count <= total <==> pct <= 100)
  {
  }

  // ---------- status polls ----------

  /** One request for the upgrade status: never served, or served with the Director's
      answers and its reply heard or lost on the way back. */
  datatype StatusPoll = Unserved | Served(answers: map<string, TaskAnswer>, writes: bool, heard: bool)

  function AfterPoll(mem: Memory, tracked: set<string>, poll: StatusPoll): Memory {
    if poll.Served? then CheckTracked(mem, tracked, poll.answers) else mem
  }

  function AfterPolls(mem: Memory, tracked: set<string>, polls: seq<StatusPoll>): Memory {
    if polls == [] then mem
    else AfterPoll(AfterPolls(mem, tracked, polls[..|polls| - 1]), tracked, polls[|polls| - 1])
  }

  /** The healthy count the errand reads; a lost reply reads as zero. */
  function HealthyHeard(tracked: set<string>, poll: StatusPoll): nat {
    if poll.Served? && poll.heard then |Healthy(tracked, poll.answers)| else 0
  }

  /** The polls of a waiting loop that ends in time: the last one is the first to report
      enough healthy instances, and fewer than timeout seconds were slept before it. */
  predicate Heard(tracked: set<string>, polls: seq<StatusPoll>, target: int, timeout: int) {
    |polls| > 0 && 5 * (|polls| - 1) < timeout
    && HealthyHeard(tracked, polls[|polls| - 1]) >= target
    && forall i :: 0 <= i < |polls| - 1 ==> HealthyHeard(tracked, polls[i]) < target
  }

  /** The tracked entries being deprovisioned on another version: a status poll that finds
      their old upgrade task finished makes them active instances again. */
  function Dormant(version: string, mem: Memory, tracked: set<string>): set<string> {
    set k | k in tracked && k in mem && mem[k].state == Deprovisioning && mem[k].openClawVersion != version
  }

  /** No status poll can add outdated instances exactly when nothing is dormant. */
  lemma PollsAddNoOutdatedExactly(version: string, mem: Memory, tracked: set<string>)
    ensures (forall answers :: OutdatedKeys(version, CheckTracked(mem, tracked, answers)) <= OutdatedKeys(version, mem))
            <==> Dormant(version, mem, tracked) == {}
  {
    if Dormant(version, mem, tracked) == {} {
      forall answers
        ensures OutdatedKeys(version, CheckTracked(mem, tracked, answers)) <= OutdatedKeys(version, mem)
      {
        CheckAddsDormant(version, mem, tracked, answers);
      }
    } else {
      var k :| k in Dormant(version, mem, tracked);
      EveryTaskDone(version, mem, tracked);
      assert k in OutdatedKeys(version, CheckTracked(mem, tracked, AllDone(tracked)));
      assert k !in OutdatedKeys(version, mem);
    }
  }

  lemma CheckAddsDormant(version: string, mem: Memory, tracked: set<string>, answers: map<string, TaskAnswer>)
    ensures OutdatedKeys(version, CheckTracked(mem, tracked, answers))
            <= OutdatedKeys(version, mem) + Dormant(version, mem, tracked)
  {
  }

  function AllDone(tracked: set<string>): map<string, TaskAnswer> {
    map k | k in tracked :: TaskDone
  }

  /** The poll that finds every tracked task done revives all that is dormant. */
  lemma EveryTaskDone(version: string, mem: Memory, tracked: set<string>)
    ensures var after := CheckTracked(mem, tracked, AllDone(tracked));
            && OutdatedKeys(version, after) == OutdatedKeys(version, mem) + Dormant(version, mem, tracked)
            && Dormant(version, after, tracked) == {}
    ensures Healthy(tracked, AllDone(tracked)) == tracked
  {
  }

  /** Polls leave outdated what is outdated and can add what is dormant. */
  lemma {:induction false} PollsEffect(version: string, mem: Memory, tracked: set<string>, polls: seq<StatusPoll>)
    ensures var after := AfterPolls(mem, tracked, polls);
            && after.Keys == mem.Keys
            && OutdatedKeys(version, mem) <= OutdatedKeys(version, after)
            && OutdatedKeys(version, after) <= OutdatedKeys(version, mem) + Dormant(version, mem, tracked)
            && Dormant(version, after, tracked) <= Dormant(version, mem, tracked)
  {
    if polls != [] {
      PollsEffect(version, mem, tracked, polls[..|polls| - 1]);
    }
  }

  lemma OnePoll(mem: Memory, tracked: set<string>, poll: StatusPoll)
    ensures AfterPolls(mem, tracked, [poll]) == AfterPoll(mem, tracked, poll)
  {
    assert [poll][..0] == [];
  }

  // ---------- upgrade calls ----------

  function TrackerAfter(tracker: map<string, int>, call: UpgradeCall): map<string, int> {
    TrackFirst(tracker, call.chosen, call.replies, |call.chosen|)
  }

  /** The instances whose deploy a call got accepted. */
  function Taken(call: UpgradeCall): set<string> {
    UpgradedKeys(call.chosen, call.replies, |call.chosen|)
  }

  lemma {:induction false} TrackedAfter(tracker: map<string, int>, chosen: seq<string>, replies: seq<DeployReply>,
                                        n: nat)
    requires n <= |chosen|
    ensures TrackFirst(tracker, chosen, replies, n).Keys == tracker.Keys + UpgradedKeys(chosen, replies, n)
  {
    if n > 0 {
      TrackedAfter(tracker, chosen, replies, n - 1);
      var hit := if ReplyAt(replies, n - 1).DeployTask? then {chosen[n - 1]} else {};
      assert UpgradedKeys(chosen, replies, n) == UpgradedKeys(chosen, replies, n - 1) + hit;
    }
  }

  /** What a call does to each record. */
  ghost predicate Moved(version: string, mem: Memory, taken: set<string>, after: Memory) {
    after.Keys == mem.Keys && taken <= OutdatedKeys(version, mem)
    && forall k :: k in mem ==> if k in taken then after[k].openClawVersion == version else after[k] == mem[k]
  }

  lemma CallRecords(version: string, mem: Memory, count: int, call: UpgradeCall)
    requires CandidateChoice(version, mem, count, call.chosen)
    ensures Moved(version, mem, Taken(call), AfterCall(version, mem, call))
  {
    UpgradeKeepsKeys(version, mem, call.chosen, call.replies, |call.chosen|);
    forall k | k in mem
      ensures var r := AfterCall(version, mem, call)[k];
              if k in Taken(call) then r.openClawVersion == version else r == mem[k]
    {
      UpgradeEffect(version, mem, call.chosen, call.replies, |call.chosen|, k);
    }
  }

  lemma SameDormant(version: string, mem: Memory, after: Memory, tracked: set<string>, taken: set<string>)
    requires Moved(version, mem, taken, after)
    ensures Dormant(version, after, tracked + taken) == Dormant(version, mem, tracked)
  {
  }

  /** A call takes its accepted candidates out of the outdated ones, puts them under the
      tracker, and makes nothing dormant. */
  lemma CallEffect(version: string, mem: Memory, tracker: map<string, int>, count: int, call: UpgradeCall)
    requires count > 0 && CandidateChoice(version, mem, count, call.chosen)
    ensures var after := AfterCall(version, mem, call);
            && after.Keys == mem.Keys
            && Taken(call) <= OutdatedKeys(version, mem)
            && |Taken(call)| == AcceptedFirst(call.replies, |call.chosen|)
            && OutdatedKeys(version, after) == OutdatedKeys(version, mem) - Taken(call)
            && Dormant(version, after, TrackerAfter(tracker, call).Keys) == Dormant(version, mem, tracker.Keys)
    ensures TrackerAfter(tracker, call).Keys == tracker.Keys + Taken(call)
  {
    UpgradeAccounting(version, mem, count, call.chosen, call.replies);
    UpgradedKeysSize(call.chosen, call.replies, |call.chosen|);
    TrackedAfter(tracker, call.chosen, call.replies, |call.chosen|);
    CallRecords(version, mem, count, call);
    SameDormant(version, mem, AfterCall(version, mem, call), tracker.Keys, Taken(call));
  }

  // ---------- a phase of the errand: a call and the polls after it ----------

  datatype Phase = Phase(call: UpgradeCall, polls: seq<StatusPoll>)

  const NO_PHASE := Phase(UpgradeCall([], []), [])

  function AfterPhase(version: string, mem: Memory, tracker: map<string, int>, p: Phase): Memory {
    AfterPolls(AfterCall(version, mem, p.call), TrackerAfter(tracker, p.call).Keys, p.polls)
  }

  lemma PhaseEffect(version: string, mem: Memory, tracker: map<string, int>, count: int, p: Phase)
    requires count > 0 && CandidateChoice(version, mem, count, p.call.chosen)
    ensures var after := AfterPhase(version, mem, tracker, p);
            var left := OutdatedKeys(version, mem) - Taken(p.call);
            && after.Keys == mem.Keys
            && left <= OutdatedKeys(version, after) <= left + Dormant(version, mem, tracker.Keys)
            && Dormant(version, after, TrackerAfter(tracker, p.call).Keys) <= Dormant(version, mem, tracker.Keys)
  {
    CallEffect(version, mem, tracker, count, p.call);
    PollsEffect(version, AfterCall(version, mem, p.call), TrackerAfter(tracker, p.call).Keys, p.polls);
  }

  lemma NothingDone(version: string, mem: Memory, tracker: map<string, int>)
    ensures AfterPhase(version, mem, tracker, NO_PHASE) == mem && TrackerAfter(tracker, NO_PHASE.call) == tracker
  {
  }

  datatype Errand = Errand(first: Phase, second: Phase)

  function Midway(version: string, mem: Memory, tracker: map<string, int>, run: Errand): Memory {
    AfterPhase(version, mem, tracker, run.first)
  }

  function ErrandMem(version: string, mem: Memory, tracker: map<string, int>, run: Errand): Memory {
    AfterPhase(version, Midway(version, mem, tracker, run), TrackerAfter(tracker, run.first.call), run.second)
  }

  // ---------- choosing candidates ----------

  lemma Enumerate(s: set<string>) returns (q: seq<string>)
    ensures Distinct(q) && |q| == |s| && forall k :: k in q <==> k in s
  {
    if s == {} {
      q := [];
    } else {
      var k :| k in s;
      var rest := Enumerate(s - {k});
      q := rest + [k];
    }
  }

  lemma SubsetOfSize(s: set<string>, n: nat) returns (t: set<string>)
    requires n <= |s|
    ensures t <= s && |t| == n
  {
    if n == |s| {
      t := s;
    } else {
      var k :| k in s;
      t := SubsetOfSize(s - {k}, n);
    }
  }

  /** There is a call that takes exactly the given outdated instances, first in its order. */
  lemma MakeCall(version: string, mem: Memory, count: int, taken: set<string>) returns (call: UpgradeCall)
    requires taken <= OutdatedKeys(version, mem) && |taken| <= count
    ensures CandidateChoice(version, mem, count, call.chosen) && Taken(call) == taken
    ensures AllAccepted(call.replies, |taken|) && |call.replies| == |taken|
  {
    var front := Enumerate(taken);
    var back := Others(OutdatedKeys(version, mem), taken, count);
    call := UpgradeCall(front + back, seq(|taken|, _ => DeployTask(1)));
    FrontTaken(front, back, call);
  }

  lemma Others(outdated: set<string>, taken: set<string>, count: int) returns (back: seq<string>)
    requires taken <= outdated && |taken| <= count
    ensures Distinct(back) && (forall k :: k in back ==> k in outdated && k !in taken)
    ensures |taken| + |back| == Min(count, |outdated|)
  {
    assert outdated == taken + (outdated - taken);
    var others := SubsetOfSize(outdated - taken, Min(count, |outdated|) - |taken|);
    back := Enumerate(others);
  }

  lemma FrontTaken(front: seq<string>, back: seq<string>, call: UpgradeCall)
    requires call.chosen == front + back && |call.replies| == |front| && AllAccepted(call.replies, |front|)
    ensures Taken(call) == set k | k in front
  {
    forall k | k in front ensures k in Taken(call) {
      var i :| 0 <= i < |front| && front[i] == k;
      assert ReplyAt(call.replies, i).DeployTask? && call.chosen[i] == k;
    }
  }

  // ---------- the two calls, with every deploy accepted ----------

  /** The canary call, any status polls, and the call for the rest, which is left out when
      the canaries were the whole count. When the canary call finds nothing to upgrade the
      errand ends before it polls. total may be more than the instances there are, as a
      grep for "id" can count too many. */
  ghost predicate TwoCalls(version: string, mem: Memory, tracker: map<string, int>, total: int, canary: int,
                           run: Errand)
  {
    var first, second := run.first.call, run.second.call;
    && CandidateChoice(version, mem, canary, first.chosen) && AllAccepted(first.replies, |first.chosen|)
    && (first.chosen == [] ==> run.first.polls == [])
    && run.second.polls == []
    && if total - canary <= 0 then run.second == NO_PHASE
       else CandidateChoice(version, Midway(version, mem, tracker, run), total - canary, second.chosen)
            && AllAccepted(second.replies, |second.chosen|)
  }

  ghost predicate Covers(version: string, mem: Memory, tracker: map<string, int>, run: Errand) {
    OutdatedKeys(version, ErrandMem(version, mem, tracker, run)) == {}
  }

  /** With every deploy accepted a call leaves max(0, outdated - count) outdated. */
  lemma FlawlessCall(version: string, mem: Memory, count: int, call: UpgradeCall)
    requires count > 0 && CandidateChoice(version, mem, count, call.chosen)
    requires AllAccepted(call.replies, |call.chosen|)
    ensures |OutdatedKeys(version, AfterCall(version, mem, call))| == Excess(|OutdatedKeys(version, mem)|, count)
  {
    UpgradeAccounting(version, mem, count, call.chosen, call.replies);
    AllAcceptedCount(call.replies, |call.chosen|);
  }

  /** Whether the second call covers what is outdated by then. */
  lemma SecondCallCoversExactly(version: string, mem: Memory, tracker: map<string, int>, total: int, canary: int,
                                run: Errand)
    requires canary > 0
    requires TwoCalls(version, mem, tracker, total, canary, run)
    ensures Covers(version, mem, tracker, run)
            <==> |OutdatedKeys(version, Midway(version, mem, tracker, run))| <= Excess(total, canary)
  {
    var mid := Midway(version, mem, tracker, run);
    var remaining := total - canary;
    if remaining > 0 {
      FlawlessCall(version, mid, remaining, run.second.call);
    } else {
      NothingDone(version, mid, TrackerAfter(tracker, run.first.call));
    }
  }

  /** How many can be outdated at the second call, at most. */
  lemma MidwayAtMost(version: string, mem: Memory, tracker: map<string, int>, total: int, canary: int, run: Errand)
    requires canary > 0
    requires TwoCalls(version, mem, tracker, total, canary, run)
    ensures var outdated := OutdatedKeys(version, Midway(version, mem, tracker, run));
            && |outdated| <= Excess(|OutdatedKeys(version, mem)|, canary)
                             + |Dormant(version, mem, tracker.Keys)|
            && (OutdatedKeys(version, mem) == {} ==> outdated == {})
  {
    var call := run.first.call;
    PhaseEffect(version, mem, tracker, canary, run.first);
    CallEffect(version, mem, tracker, canary, call);
    FlawlessCall(version, mem, canary, call);
    var left, dormant := OutdatedKeys(version, mem) - Taken(call), Dormant(version, mem, tracker.Keys);
    Fewer(OutdatedKeys(version, Midway(version, mem, tracker, run)), left + dormant);
  }

  lemma Fewer(a: set<string>, b: set<string>)
    requires a <= b
    ensures |a| <= |b| && (|a| == |b| ==> a == b)
  {
    assert b == a + (b - a);
  }

  lemma OutdatedAreCounted(version: string, mem: Memory)
    ensures |OutdatedKeys(version, mem)| <= |CountedKeys(mem, None)| <= |mem|
    ensures CountedKeys(mem, None) == {} ==> OutdatedKeys(version, mem) == {}
  {
    Fewer(OutdatedKeys(version, mem), CountedKeys(mem, None));
    Fewer(CountedKeys(mem, None), mem.Keys);
  }

  lemma Grouped(a: set<string>, b: set<string>, c: set<string>)
    ensures a + b + c == a + (b + c)
  {
  }

  /** A call followed by the poll that finds every tracked task done. */
  lemma RevivingPhase(version: string, mem: Memory, tracker: map<string, int>, count: int, call: UpgradeCall)
    returns (p: Phase)
    requires count > 0 && CandidateChoice(version, mem, count, call.chosen)
    ensures p.call == call && |p.polls| == 1
    ensures var tracked := TrackerAfter(tracker, call).Keys;
            && tracked == tracker.Keys + Taken(call)
            && HealthyHeard(tracked, p.polls[0]) == |tracked|
            && Dormant(version, AfterPhase(version, mem, tracker, p), tracked) == {}
    ensures OutdatedKeys(version, AfterPhase(version, mem, tracker, p))
            == OutdatedKeys(version, mem) - Taken(call) + Dormant(version, mem, tracker.Keys)
  {
    CallEffect(version, mem, tracker, count, call);
    var tracked := TrackerAfter(tracker, call).Keys;
    var poll := Served(AllDone(tracked), true, true);
    OnePoll(AfterCall(version, mem, call), tracked, poll);
    EveryTaskDone(version, AfterCall(version, mem, call), tracked);
    p := Phase(call, [poll]);
  }

  lemma DormantIsInactive(version: string, mem: Memory, tracked: set<string>)
    ensures OutdatedKeys(version, mem) !! Dormant(version, mem, tracked)
  {
  }

  lemma PartsSize(outdated: set<string>, taken: set<string>, dormant: set<string>)
    requires taken <= outdated && outdated !! dormant
    ensures |outdated - taken + dormant| == |outdated| - |taken| + |dormant|
  {
    assert outdated == taken + (outdated - taken);
    assert (outdated - taken) !! dormant;
  }

  lemma WorstFirst(version: string, mem: Memory, tracker: map<string, int>, canary: int) returns (p: Phase)
    requires canary > 0 && OutdatedKeys(version, mem) != {}
    ensures CandidateChoice(version, mem, canary, p.call.chosen) && AllAccepted(p.call.replies, |p.call.chosen|)
    ensures p.call.chosen != []
    ensures |OutdatedKeys(version, AfterPhase(version, mem, tracker, p))|
            == Excess(|OutdatedKeys(version, mem)|, canary) + |Dormant(version, mem, tracker.Keys)|
  {
    var outdated := OutdatedKeys(version, mem);
    assert |outdated| > 0;
    var taken := SubsetOfSize(outdated, Min(canary, |outdated|));
    var call := MakeCall(version, mem, canary, taken);
    p := RevivingPhase(version, mem, tracker, canary, call);
    DormantIsInactive(version, mem, tracker.Keys);
    PartsSize(outdated, taken, Dormant(version, mem, tracker.Keys));
  }

  /** The run that upgrades its canaries and then revives everything dormant. */
  lemma WorstRun(version: string, mem: Memory, tracker: map<string, int>, total: int, canary: int) returns (run: Errand)
    requires canary > 0
    requires OutdatedKeys(version, mem) != {}
    ensures TwoCalls(version, mem, tracker, total, canary, run)
    ensures |OutdatedKeys(version, Midway(version, mem, tracker, run))|
            == Excess(|OutdatedKeys(version, mem)|, canary) + |Dormant(version, mem, tracker.Keys)|
  {
    var first := WorstFirst(version, mem, tracker, canary);
    var second := FlawlessSecond(version, AfterPhase(version, mem, tracker, first), total - canary);
    run := Errand(first, second);
  }

  lemma FlawlessSecond(version: string, mem: Memory, remaining: int) returns (p: Phase)
    ensures if remaining <= 0 then p == NO_PHASE
            else p.polls == [] && CandidateChoice(version, mem, remaining, p.call.chosen)
                 && AllAccepted(p.call.replies, |p.call.chosen|)
  {
    p := NO_PHASE;
    if remaining > 0 {
      var taken := SubsetOfSize(OutdatedKeys(version, mem), Min(remaining, |OutdatedKeys(version, mem)|));
      var call := MakeCall(version, mem, remaining, taken);
      p := Phase(call, []);
    }
  }

  /** The two calls cover the fleet in every run exactly when nothing is outdated, or what
      the canaries leave and everything dormant fit into the second call. */
  lemma RolloutCoversExactly(version: string, mem: Memory, tracker: map<string, int>, total: int, canary: int)
    requires canary > 0
    ensures (forall run :: TwoCalls(version, mem, tracker, total, canary, run) ==> Covers(version, mem, tracker, run))
            <==> OutdatedKeys(version, mem) == {}
                 || Excess(|OutdatedKeys(version, mem)|, canary) + |Dormant(version, mem, tracker.Keys)|
                    <= Excess(total, canary)
  {
    forall run | TwoCalls(version, mem, tracker, total, canary, run)
      ensures SecondCallCovers(version, mem, tracker, total, canary, run)
    {
      SecondCallCoversExactly(version, mem, tracker, total, canary, run);
      MidwayAtMost(version, mem, tracker, total, canary, run);
    }
    if OutdatedKeys(version, mem) != {} {
      var run := WorstRun(version, mem, tracker, total, canary);
      assert SecondCallCovers(version, mem, tracker, total, canary, run);
    }
  }

  ghost predicate SecondCallCovers(version: string, mem: Memory, tracker: map<string, int>, total: int, canary: int,
                                   run: Errand)
  {
    var outdated := OutdatedKeys(version, Midway(version, mem, tracker, run));
    (Covers(version, mem, tracker, run) <==> |outdated| <= Excess(total, canary))
    && |outdated| <= Excess(|OutdatedKeys(version, mem)|, canary)
                     + |Dormant(version, mem, tracker.Keys)|
    && (OutdatedKeys(version, mem) == {} ==> outdated == {})
  }

  /** So with nothing dormant and all instances counted, no active instance is left on
      another version, whatever the percentage. */
  lemma RolloutCovers(version: string, mem: Memory, tracker: map<string, int>, total: int, canary: int, run: Errand)
    requires canary > 0
    requires |OutdatedKeys(version, mem)| <= total && Dormant(version, mem, tracker.Keys) == {}
    requires TwoCalls(version, mem, tracker, total, canary, run)
    ensures Covers(version, mem, tracker, run)
  {
    RolloutCoversExactly(version, mem, tracker, total, canary);
  }

  // ---------- completed errands, with any deploys accepted or refused ----------

  ghost predicate PhaseDone(version: string, mem: Memory, tracker: map<string, int>, count: int, target: int,
                            timeout: int, p: Phase)
  {
    CandidateChoice(version, mem, count, p.call.chosen)
    && Heard(TrackerAfter(tracker, p.call).Keys, p.polls, target, timeout)
  }

  /** The errand gets past its canaries and, when there is a rest, past the rest. */
  ghost predicate Completes(version: string, mem: Memory, tracker: map<string, int>, total: int, canary: int,
                            timeout: int, run: Errand)
  {
    && PhaseDone(version, mem, tracker, canary, canary, timeout, run.first)
    && AcceptedFirst(run.first.call.replies, |run.first.call.chosen|) > 0
    && if total - canary <= 0 then run.second == NO_PHASE
       else PhaseDone(version, Midway(version, mem, tracker, run), TrackerAfter(tracker, run.first.call),
                      total - canary, total, timeout, run.second)
  }

  /** The condition under which a completed errand can leave an instance outdated: either
      something dormant is revived at the last moment, or a deploy is refused; and what the
      tracker holds makes up for it in the healthy count. */
  predicate CanLeave(outdated: set<string>, dormant: set<string>, tracked: set<string>, needed: int) {
    (dormant != {} && outdated != {} && |tracked + outdated| >= needed)
    || exists o :: o in outdated && |outdated| >= 2 && |tracked + (outdated - {o})| >= needed
  }

  lemma HealthyAtMostTracked(tracked: set<string>, polls: seq<StatusPoll>, target: int, timeout: int)
    requires Heard(tracked, polls, target, timeout) && target > 0
    ensures |tracked| >= target
  {
    Fewer(Healthy(tracked, polls[|polls| - 1].answers), tracked);
  }

  lemma PhaseDoneEffect(version: string, mem: Memory, tracker: map<string, int>, count: int, target: int, timeout: int,
                        p: Phase)
    requires count > 0 && target > 0 && PhaseDone(version, mem, tracker, count, target, timeout, p)
    ensures Taken(p.call) <= OutdatedKeys(version, mem)
    ensures |Taken(p.call)| == AcceptedFirst(p.call.replies, |p.call.chosen|)
    ensures OutdatedKeys(version, AfterPhase(version, mem, tracker, p))
            <= OutdatedKeys(version, mem) - Taken(p.call) + Dormant(version, mem, tracker.Keys)
    ensures Dormant(version, AfterPhase(version, mem, tracker, p), TrackerAfter(tracker, p.call).Keys)
            <= Dormant(version, mem, tracker.Keys)
    ensures TrackerAfter(tracker, p.call).Keys == tracker.Keys + Taken(p.call)
    ensures |tracker.Keys + Taken(p.call)| >= target
  {
    PhaseEffect(version, mem, tracker, count, p);
    CallEffect(version, mem, tracker, count, p.call);
    HealthyAtMostTracked(TrackerAfter(tracker, p.call).Keys, p.polls, target, timeout);
  }

  /** What an errand has taken and left, on the level of sets. */
  predicate Took(outdated: set<string>, dormant: set<string>, tracked: set<string>, taken: set<string>,
                 after: set<string>, needed: int)
  {
    taken <= outdated + dormant && taken * outdated != {} && after <= outdated - taken + dormant
    && |tracked + taken| >= needed
  }

  lemma OneStep(outdated: set<string>, dormant: set<string>, tracked: set<string>, taken: set<string>,
                after: set<string>, needed: int)
    requires taken <= outdated && |taken| > 0 && after <= outdated - taken + dormant && |tracked + taken| >= needed
    ensures Took(outdated, dormant, tracked, taken, after, needed)
  {
    var k :| k in taken;
    assert k in taken * outdated;
  }

  lemma TwoSteps(outdated: set<string>, dormant: set<string>, tracked: set<string>, first: set<string>,
                 mid: set<string>, still: set<string>, second: set<string>, after: set<string>, canary: int, total: int)
    requires canary > 0
    requires Took(outdated, dormant, tracked, first, mid, canary) && first <= outdated && still <= dormant
    requires second <= mid && after <= mid - second + still && |tracked + first + second| >= total
    ensures Took(outdated, dormant, tracked, first + second, after, Max(total, canary))
  {
    var k :| k in first * outdated;
    assert k in (first + second) * outdated;
    Grouped(tracked, first, second);
    Fewer(tracked + first, tracked + (first + second));
  }

  /** What a completed errand has taken, and what it can have left. */
  lemma CompletedEffect(version: string, mem: Memory, tracker: map<string, int>, total: int, canary: int, timeout: int,
                        run: Errand) returns (taken: set<string>)
    requires canary > 0
    requires Completes(version, mem, tracker, total, canary, timeout, run)
    ensures Took(OutdatedKeys(version, mem), Dormant(version, mem, tracker.Keys), tracker.Keys, taken,
                 OutdatedKeys(version, ErrandMem(version, mem, tracker, run)), Max(total, canary))
  {
    FirstEffect(version, mem, tracker, canary, timeout, run);
    if total - canary <= 0 {
      taken := Taken(run.first.call);
      NothingDone(version, Midway(version, mem, tracker, run), TrackerAfter(tracker, run.first.call));
      assert Max(total, canary) == canary;
    } else {
      taken := Taken(run.first.call) + Taken(run.second.call);
      SecondEffect(version, mem, tracker, run, canary, total, timeout);
    }
  }

  lemma FirstEffect(version: string, mem: Memory, tracker: map<string, int>, canary: int, timeout: int, run: Errand)
    requires canary > 0 && PhaseDone(version, mem, tracker, canary, canary, timeout, run.first)
    requires AcceptedFirst(run.first.call.replies, |run.first.call.chosen|) > 0
    ensures Taken(run.first.call) <= OutdatedKeys(version, mem)
    ensures Took(OutdatedKeys(version, mem), Dormant(version, mem, tracker.Keys), tracker.Keys, Taken(run.first.call),
                 OutdatedKeys(version, Midway(version, mem, tracker, run)), canary)
    ensures Dormant(version, Midway(version, mem, tracker, run), TrackerAfter(tracker, run.first.call).Keys)
            <= Dormant(version, mem, tracker.Keys)
    ensures TrackerAfter(tracker, run.first.call).Keys == tracker.Keys + Taken(run.first.call)
  {
    PhaseDoneEffect(version, mem, tracker, canary, canary, timeout, run.first);
    OneStep(OutdatedKeys(version, mem), Dormant(version, mem, tracker.Keys), tracker.Keys, Taken(run.first.call),
            OutdatedKeys(version, Midway(version, mem, tracker, run)), canary);
  }

  lemma SecondEffect(version: string, mem: Memory, tracker: map<string, int>, run: Errand, canary: int, total: int,
                     timeout: int)
    requires 0 < canary < total
    requires PhaseDone(version, Midway(version, mem, tracker, run), TrackerAfter(tracker, run.first.call),
                       total - canary, total, timeout, run.second)
    requires Taken(run.first.call) <= OutdatedKeys(version, mem)
    requires Took(OutdatedKeys(version, mem), Dormant(version, mem, tracker.Keys), tracker.Keys, Taken(run.first.call),
                  OutdatedKeys(version, Midway(version, mem, tracker, run)), canary)
    requires Dormant(version, Midway(version, mem, tracker, run), TrackerAfter(tracker, run.first.call).Keys)
             <= Dormant(version, mem, tracker.Keys)
    requires TrackerAfter(tracker, run.first.call).Keys == tracker.Keys + Taken(run.first.call)
    ensures Took(OutdatedKeys(version, mem), Dormant(version, mem, tracker.Keys), tracker.Keys,
                 Taken(run.first.call) + Taken(run.second.call),
                 OutdatedKeys(version, ErrandMem(version, mem, tracker, run)), Max(total, canary))
  {
    var mid, tracked := Midway(version, mem, tracker, run), TrackerAfter(tracker, run.first.call);
    PhaseDoneEffect(version, mid, tracked, total - canary, total, timeout, run.second);
    TwoSteps(OutdatedKeys(version, mem), Dormant(version, mem, tracker.Keys), tracker.Keys, Taken(run.first.call),
             OutdatedKeys(version, mid), Dormant(version, mid, tracked.Keys), Taken(run.second.call),
             OutdatedKeys(version, ErrandMem(version, mem, tracker, run)), canary, total);
  }

  lemma LeavingNeeds(outdated: set<string>, dormant: set<string>, tracked: set<string>, taken: set<string>,
                     after: set<string>, needed: int)
    requires Took(outdated, dormant, tracked, taken, after, needed) && dormant <= tracked && after != {}
    ensures CanLeave(outdated, dormant, tracked, needed)
  {
    var left :| left in after;
    if left in dormant {
      Fewer(tracked + taken, tracked + outdated);
    } else {
      Fewer(tracked + taken, tracked + (outdated - {left}));
      var k :| k in taken * outdated;
      Fewer({k, left}, outdated);
    }
  }

  /** Canaries first, the rest in the second call. */
  lemma SplitTaken(taken: set<string>, tracked: set<string>, canary: int, total: int)
    returns (canaries: set<string>, rest: set<string>)
    requires canary > 0 && taken != {} && |taken| <= total && |tracked + taken| >= Max(total, canary)
    ensures taken == canaries + rest && canaries !! rest
    ensures 0 < |canaries| <= canary && |tracked + canaries| >= canary
    ensures |rest| <= Excess(total, canary)
  {
    canaries := SubsetOfSize(taken, Min(canary, |taken|));
    rest := taken - canaries;
    assert taken == canaries + rest;
    Fewer(canaries, tracked + canaries);
    Fewer(canaries, taken);
    assert |taken| > 0;
  }

  lemma LeftOver(outdated: set<string>, dormant: set<string>, canaries: set<string>, rest: set<string>)
    requires rest <= outdated && outdated !! dormant && canaries !! rest
    ensures rest <= outdated - canaries + dormant
    ensures outdated - canaries + dormant - rest == outdated - (canaries + rest) + dormant
  {
  }

  /** Any choice of instances to take, if the healthy count can be reached with it, is that
      of some completed errand, which leaves all else and revives everything dormant. */
  lemma SomeErrand(version: string, mem: Memory, tracker: map<string, int>, total: int, canary: int, timeout: int,
                   taken: set<string>) returns (run: Errand)
    requires canary > 0
    requires taken <= OutdatedKeys(version, mem) && taken != {} && timeout > 0
    requires |OutdatedKeys(version, mem)| <= total
    requires |tracker.Keys + taken| >= Max(total, canary)
    ensures Completes(version, mem, tracker, total, canary, timeout, run)
    ensures OutdatedKeys(version, ErrandMem(version, mem, tracker, run))
            == OutdatedKeys(version, mem) - taken + Dormant(version, mem, tracker.Keys)
  {
    Fewer(taken, OutdatedKeys(version, mem));
    var canaries, rest := SplitTaken(taken, tracker.Keys, canary, total);
    run := SplitErrand(version, mem, tracker, total, canary, timeout, canaries, rest);
  }

  lemma SplitErrand(version: string, mem: Memory, tracker: map<string, int>, total: int, canary: int, timeout: int,
                    canaries: set<string>, rest: set<string>) returns (run: Errand)
    requires canary > 0
    requires canaries <= OutdatedKeys(version, mem) && rest <= OutdatedKeys(version, mem) && canaries !! rest
    requires timeout > 0 && 0 < |canaries| <= canary && |rest| <= Excess(total, canary)
    requires |tracker.Keys + canaries| >= canary && |tracker.Keys + (canaries + rest)| >= total
    ensures Completes(version, mem, tracker, total, canary, timeout, run)
    ensures OutdatedKeys(version, ErrandMem(version, mem, tracker, run))
            == OutdatedKeys(version, mem) - (canaries + rest) + Dormant(version, mem, tracker.Keys)
  {
    var first := SomePhase(version, mem, tracker, canary, canary, timeout, canaries);
    run := WithSecond(version, mem, tracker, total, canary, timeout, first, canaries, rest);
  }

  lemma WithSecond(version: string, mem: Memory, tracker: map<string, int>, total: int, canary: int, timeout: int,
                   first: Phase, canaries: set<string>, rest: set<string>) returns (run: Errand)
    requires timeout > 0 && PhaseDone(version, mem, tracker, canary, canary, timeout, first)
    requires AcceptedFirst(first.call.replies, |first.call.chosen|) > 0
    requires rest <= OutdatedKeys(version, mem) && canaries !! rest
    requires |rest| <= Excess(total, canary) && |tracker.Keys + (canaries + rest)| >= total
    requires TrackerAfter(tracker, first.call).Keys == tracker.Keys + canaries
    requires var after := AfterPhase(version, mem, tracker, first);
             && OutdatedKeys(version, after)
                == OutdatedKeys(version, mem) - canaries + Dormant(version, mem, tracker.Keys)
             && Dormant(version, after, tracker.Keys + canaries) == {}
    ensures Completes(version, mem, tracker, total, canary, timeout, run)
    ensures OutdatedKeys(version, ErrandMem(version, mem, tracker, run))
            == OutdatedKeys(version, mem) - (canaries + rest) + Dormant(version, mem, tracker.Keys)
  {
    var mid, tracked := AfterPhase(version, mem, tracker, first), TrackerAfter(tracker, first.call);
    DormantIsInactive(version, mem, tracker.Keys);
    LeftOver(OutdatedKeys(version, mem), Dormant(version, mem, tracker.Keys), canaries, rest);
    Grouped(tracker.Keys, canaries, rest);
    var second := SomeSecond(version, mid, tracked, total, total - canary, timeout, rest);
    run := Errand(first, second);
    Assembled(version, mem, tracker, total, canary, timeout, first, second);
  }

  lemma Assembled(version: string, mem: Memory, tracker: map<string, int>, total: int, canary: int, timeout: int,
                  first: Phase, second: Phase)
    requires PhaseDone(version, mem, tracker, canary, canary, timeout, first)
    requires AcceptedFirst(first.call.replies, |first.call.chosen|) > 0
    requires if total - canary <= 0 then second == NO_PHASE
             else PhaseDone(version, AfterPhase(version, mem, tracker, first), TrackerAfter(tracker, first.call),
                            total - canary, total, timeout, second)
    ensures Completes(version, mem, tracker, total, canary, timeout, Errand(first, second))
  {
  }

  lemma SomeSecond(version: string, mid: Memory, tracked: map<string, int>, total: int, remaining: int, timeout: int,
                   rest: set<string>) returns (second: Phase)
    requires timeout > 0 && |tracked.Keys + rest| >= total
    requires rest <= OutdatedKeys(version, mid) && |rest| <= Excess(remaining, 0)
    requires Dormant(version, mid, tracked.Keys) == {}
    ensures if remaining <= 0 then second == NO_PHASE
            else PhaseDone(version, mid, tracked, remaining, total, timeout, second)
    ensures OutdatedKeys(version, AfterPhase(version, mid, tracked, second)) == OutdatedKeys(version, mid) - rest
  {
    if remaining <= 0 {
      second := NO_PHASE;
      NothingDone(version, mid, tracked);
    } else {
      second := SomePhase(version, mid, tracked, remaining, total, timeout, rest);
    }
  }

  lemma SomePhase(version: string, mem: Memory, tracker: map<string, int>, count: int, target: int, timeout: int,
                  taken: set<string>) returns (p: Phase)
    requires count > 0 && timeout > 0 && taken <= OutdatedKeys(version, mem) && |taken| <= count
    requires |tracker.Keys + taken| >= target
    ensures PhaseDone(version, mem, tracker, count, target, timeout, p)
    ensures AcceptedFirst(p.call.replies, |p.call.chosen|) == |taken|
    ensures TrackerAfter(tracker, p.call).Keys == tracker.Keys + taken
    ensures var after := AfterPhase(version, mem, tracker, p);
            && OutdatedKeys(version, after) == OutdatedKeys(version, mem) - taken + Dormant(version, mem, tracker.Keys)
            && Dormant(version, after, tracker.Keys + taken) == {}
  {
    var call := MakeCall(version, mem, count, taken);
    AcceptedAreTaken(version, mem, count, call);
    p := RevivingPhase(version, mem, tracker, count, call);
    HeardAtOnce(tracker.Keys + taken, p.polls, target, timeout);
  }

  lemma AcceptedAreTaken(version: string, mem: Memory, count: int, call: UpgradeCall)
    requires CandidateChoice(version, mem, count, call.chosen)
    ensures AcceptedFirst(call.replies, |call.chosen|) == |Taken(call)|
  {
    UpgradedKeysSize(call.chosen, call.replies, |call.chosen|);
  }

  lemma HeardAtOnce(tracked: set<string>, polls: seq<StatusPoll>, target: int, timeout: int)
    requires |polls| == 1 && HealthyHeard(tracked, polls[0]) >= target && timeout > 0
    ensures Heard(tracked, polls, target, timeout)
  {
  }

  lemma LeavingErrand(version: string, mem: Memory, tracker: map<string, int>, total: int, canary: int, timeout: int)
    returns (run: Errand)
    requires canary > 0
    requires |OutdatedKeys(version, mem)| <= total && timeout > 0
    requires CanLeave(OutdatedKeys(version, mem), Dormant(version, mem, tracker.Keys), tracker.Keys,
                      Max(total, canary))
    ensures Completes(version, mem, tracker, total, canary, timeout, run)
    ensures OutdatedKeys(version, ErrandMem(version, mem, tracker, run)) != {}
  {
    var outdated := OutdatedKeys(version, mem);
    var taken := TakenToLeave(outdated, Dormant(version, mem, tracker.Keys), tracker.Keys,
                              Max(total, canary));
    run := SomeErrand(version, mem, tracker, total, canary, timeout, taken);
  }

  lemma TakenToLeave(outdated: set<string>, dormant: set<string>, tracked: set<string>, needed: int)
    returns (taken: set<string>)
    requires CanLeave(outdated, dormant, tracked, needed)
    ensures taken <= outdated && taken != {} && |tracked + taken| >= needed && outdated - taken + dormant != {}
  {
    if o :| o in outdated && |outdated| >= 2 && |tracked + (outdated - {o})| >= needed {
      taken := outdated - {o};
      assert |taken| > 0;
      assert o in outdated - taken + dormant;
    } else {
      taken := outdated;
    }
  }

  ghost predicate LeavesSome(version: string, mem: Memory, tracker: map<string, int>, total: int, canary: int,
                             timeout: int, run: Errand)
  {
    Completes(version, mem, tracker, total, canary, timeout, run)
    && OutdatedKeys(version, ErrandMem(version, mem, tracker, run)) != {}
  }

  /** A completed errand can leave an active instance on another version exactly under
      that condition, which speaks of the moment the errand starts. total is at least the
      outdated instances, as the errand counts all active ones. */
  lemma ErrandLeavesExactly(version: string, mem: Memory, tracker: map<string, int>, total: int, canary: int,
                            timeout: int)
    requires canary > 0
    requires |OutdatedKeys(version, mem)| <= total
    ensures (exists run :: LeavesSome(version, mem, tracker, total, canary, timeout, run))
            <==> timeout > 0 && CanLeave(OutdatedKeys(version, mem), Dormant(version, mem, tracker.Keys), tracker.Keys,
                                         Max(total, canary))
  {
    var outdated, dormant := OutdatedKeys(version, mem), Dormant(version, mem, tracker.Keys);
    forall run | LeavesSome(version, mem, tracker, total, canary, timeout, run)
      ensures timeout > 0 && CanLeave(outdated, dormant, tracker.Keys, Max(total, canary))
    {
      var taken := CompletedEffect(version, mem, tracker, total, canary, timeout, run);
      LeavingNeeds(outdated, dormant, tracker.Keys, taken, OutdatedKeys(version, ErrandMem(version, mem, tracker, run)),
                   Max(total, canary));
    }
    if timeout > 0 && CanLeave(outdated, dormant, tracker.Keys, Max(total, canary)) {
      var run := LeavingErrand(version, mem, tracker, total, canary, timeout);
      assert LeavesSome(version, mem, tracker, total, canary, timeout, run);
    }
  }

  /** A completed errand whose deploys were all accepted leaves nothing outdated, if
      nothing was dormant. */
  lemma FlawlessErrandCovers(version: string, mem: Memory, tracker: map<string, int>, total: int, canary: int,
                             timeout: int, run: Errand)
    requires canary > 0
    requires Completes(version, mem, tracker, total, canary, timeout, run)
    requires |OutdatedKeys(version, mem)| <= total && Dormant(version, mem, tracker.Keys) == {}
    requires AllAccepted(run.first.call.replies, |run.first.call.chosen|)
    requires AllAccepted(run.second.call.replies, |run.second.call.chosen|)
    ensures OutdatedKeys(version, ErrandMem(version, mem, tracker, run)) == {}
  {
    var mid, tracked := Midway(version, mem, tracker, run), TrackerAfter(tracker, run.first.call);
    FlawlessPhase(version, mem, tracker, canary, run.first);
    if total - canary <= 0 {
      NothingDone(version, mid, tracked);
    } else {
      FlawlessPhase(version, mid, tracked, total - canary, run.second);
    }
  }

  lemma FlawlessPhase(version: string, mem: Memory, tracker: map<string, int>, count: int, p: Phase)
    requires count > 0 && CandidateChoice(version, mem, count, p.call.chosen)
    requires AllAccepted(p.call.replies, |p.call.chosen|) && Dormant(version, mem, tracker.Keys) == {}
    ensures |OutdatedKeys(version, AfterPhase(version, mem, tracker, p))|
            <= Excess(|OutdatedKeys(version, mem)|, count)
    ensures Dormant(version, AfterPhase(version, mem, tracker, p), TrackerAfter(tracker, p.call).Keys) == {}
  {
    CallEffect(version, mem, tracker, count, p.call);
    PollsEffect(version, AfterCall(version, mem, p.call), TrackerAfter(tracker, p.call).Keys, p.polls);
    FlawlessCall(version, mem, count, p.call);
    Fewer(OutdatedKeys(version, AfterPhase(version, mem, tracker, p)),
          OutdatedKeys(version, AfterCall(version, mem, p.call)));
  }

  // ---------- when a completed errand means that all are ready ----------

  /** Every tracked instance was an active one and is on the new version by now, and the
      others are as they were. */
  ghost predicate FreshRollout(version: string, was: Memory, mem: Memory, tracked: set<string>) {
    mem.Keys == was.Keys && tracked <= CountedKeys(was, None)
    && (forall k :: k in mem && k in tracked ==> mem[k].openClawVersion == version)
    && (forall k :: k in mem && k !in tracked ==> mem[k] == was[k])
  }

  lemma CallKeepsFresh(version: string, was: Memory, mem: Memory, tracker: map<string, int>, count: int,
                       call: UpgradeCall)
    requires FreshRollout(version, was, mem, tracker.Keys) && CandidateChoice(version, mem, count, call.chosen)
    ensures FreshRollout(version, was, AfterCall(version, mem, call), TrackerAfter(tracker, call).Keys)
  {
    TrackedAfter(tracker, call.chosen, call.replies, |call.chosen|);
    CallRecords(version, mem, count, call);
  }

  lemma {:induction false} PollsKeepFresh(version: string, was: Memory, mem: Memory, tracked: set<string>,
                                          polls: seq<StatusPoll>)
    requires FreshRollout(version, was, mem, tracked)
    ensures FreshRollout(version, was, AfterPolls(mem, tracked, polls), tracked)
  {
    if polls != [] {
      PollsKeepFresh(version, was, mem, tracked, polls[..|polls| - 1]);
    }
  }

  /** The whole fleet that the errand was asked to upgrade. */
  ghost predicate FleetReady(version: string, was: Memory, mem: Memory) {
    OutdatedKeys(version, mem) == {}
    && forall k :: k in CountedKeys(was, None) ==>
         k in mem && mem[k].state == Ready && mem[k].openClawVersion == version
  }

  /** From a fresh rollout, a healthy count of at least the whole fleet means the whole
      fleet. */
  lemma AllHealthyMeansReady(version: string, was: Memory, mem: Memory, tracked: set<string>, poll: StatusPoll)
    requires FreshRollout(version, was, mem, tracked)
    requires |CountedKeys(was, None)| <= HealthyHeard(tracked, poll)
    ensures FleetReady(version, was, AfterPoll(mem, tracked, poll))
  {
    Fewer(tracked, CountedKeys(was, None));
    if tracked != {} {
      assert |tracked| > 0;
      Fewer(Healthy(tracked, poll.answers), tracked);
    }
  }

  lemma PhaseKeepsFresh(version: string, was: Memory, mem: Memory, tracker: map<string, int>, count: int, target: int,
                        timeout: int, p: Phase)
    requires FreshRollout(version, was, mem, tracker.Keys)
    requires PhaseDone(version, mem, tracker, count, target, timeout, p)
    ensures FreshRollout(version, was, AfterPhase(version, mem, tracker, p), TrackerAfter(tracker, p.call).Keys)
    ensures |CountedKeys(was, None)| <= target ==> FleetReady(version, was, AfterPhase(version, mem, tracker, p))
  {
    CallKeepsFresh(version, was, mem, tracker, count, p.call);
    var called, tracked := AfterCall(version, mem, p.call), TrackerAfter(tracker, p.call).Keys;
    PollsKeepFresh(version, was, called, tracked, p.polls);
    var last := |p.polls| - 1;
    PollsKeepFresh(version, was, called, tracked, p.polls[..last]);
    if |CountedKeys(was, None)| <= target {
      AllHealthyMeansReady(version, was, AfterPolls(called, tracked, p.polls[..last]), tracked, p.polls[last]);
    }
  }

  /** When every instance tracked before was active and on the version, a completed errand
      means that the whole fleet is ready on it, also if deploys failed on the way. */
  lemma CompletedMeansReady(version: string, mem: Memory, tracker: map<string, int>, total: int, canary: int,
                            timeout: int, run: Errand)
    requires canary > 0
    requires Completes(version, mem, tracker, total, canary, timeout, run)
    requires |CountedKeys(mem, None)| <= total && FreshRollout(version, mem, mem, tracker.Keys)
    ensures FleetReady(version, mem, ErrandMem(version, mem, tracker, run))
  {
    PhaseKeepsFresh(version, mem, mem, tracker, canary, canary, timeout, run.first);
    if total - canary <= 0 {
      NothingDone(version, Midway(version, mem, tracker, run), TrackerAfter(tracker, run.first.call));
    } else {
      SecondMeansReady(version, mem, tracker, total, canary, timeout, run);
    }
  }

  lemma SecondMeansReady(version: string, mem: Memory, tracker: map<string, int>, total: int, canary: int,
                         timeout: int, run: Errand)
    requires PhaseDone(version, Midway(version, mem, tracker, run), TrackerAfter(tracker, run.first.call),
                       total - canary, total, timeout, run.second)
    requires FreshRollout(version, mem, Midway(version, mem, tracker, run), TrackerAfter(tracker, run.first.call).Keys)
    requires |CountedKeys(mem, None)| <= total
    ensures FleetReady(version, mem, ErrandMem(version, mem, tracker, run))
  {
    PhaseKeepsFresh(version, mem, Midway(version, mem, tracker, run), TrackerAfter(tracker, run.first.call),
                    total - canary, total, timeout, run.second);
  }

  // ---------- the end at which nothing seems left to upgrade ----------

  /** The errand ends after its canary call when that call started no deploy, be it that
      nothing was outdated or that every deploy was refused. */
  ghost predicate EndsAtOnce(version: string, mem: Memory, canary: int, run: Errand) {
    var call := run.first.call;
    CandidateChoice(version, mem, canary, call.chosen) && AcceptedFirst(call.replies, |call.chosen|) == 0
    && run.first.polls == [] && run.second == NO_PHASE
  }

  lemma {:induction false} NoneAccepted(version: string, mem: Memory, chosen: seq<string>, replies: seq<DeployReply>,
                                        n: nat)
    requires n <= |chosen| && AcceptedFirst(replies, n) == 0
    ensures UpgradeFirst(version, mem, chosen, replies, n) == mem
    ensures n > 0 ==> !AllAccepted(replies, 1)
  {
    if n > 0 {
      NoneAccepted(version, mem, chosen, replies, n - 1);
    }
  }

  /** Such a run changes nothing; it had no candidates exactly when nothing is outdated,
      and refused deploys otherwise. */
  lemma EndedAtOnce(version: string, mem: Memory, tracker: map<string, int>, canary: int, run: Errand)
    requires canary > 0 && EndsAtOnce(version, mem, canary, run)
    ensures ErrandMem(version, mem, tracker, run) == mem
    ensures run.first.call.chosen == [] <==> OutdatedKeys(version, mem) == {}
    ensures AllAccepted(run.first.call.replies, |mem|) ==> OutdatedKeys(version, mem) == {}
  {
    NoneAccepted(version, mem, run.first.call.chosen, run.first.call.replies, |run.first.call.chosen|);
    NothingDone(version, mem, TrackerAfter(tracker, run.first.call));
    OutdatedAreCounted(version, mem);
  }

  /** The runs after which the errand reports success, when it found instances. */
  ghost predicate EndsWell(version: string, mem: Memory, tracker: map<string, int>, total: int, canary: int,
                           timeout: int, run: Errand)
  {
    EndsAtOnce(version, mem, canary, run) || Completes(version, mem, tracker, total, canary, timeout, run)
  }

  ghost predicate EndsWellLeaving(version: string, mem: Memory, tracker: map<string, int>, total: int, canary: int,
                                  timeout: int, run: Errand)
  {
    EndsWell(version, mem, tracker, total, canary, timeout, run)
    && OutdatedKeys(version, ErrandMem(version, mem, tracker, run)) != {}
  }

  /** So some run that is reported as a success leaves an active instance outdated exactly
      when one is outdated before it. */
  lemma SuccessLeavesExactly(version: string, mem: Memory, tracker: map<string, int>, total: int, canary: int,
                             timeout: int)
    requires canary > 0
    ensures (exists run :: EndsWellLeaving(version, mem, tracker, total, canary, timeout, run))
            <==> OutdatedKeys(version, mem) != {}
  {
    forall run | EndsWell(version, mem, tracker, total, canary, timeout, run) && OutdatedKeys(version, mem) == {}
      ensures OutdatedKeys(version, ErrandMem(version, mem, tracker, run)) == {}
    {
      if EndsAtOnce(version, mem, canary, run) {
        EndedAtOnce(version, mem, tracker, canary, run);
      } else {
        SomethingTaken(version, mem, canary, run.first.call);
      }
    }
    if OutdatedKeys(version, mem) != {} {
      var run := RefusedRun(version, mem, canary);
      EndedAtOnce(version, mem, tracker, canary, run);
      assert EndsWellLeaving(version, mem, tracker, total, canary, timeout, run);
    }
  }

  lemma SomethingTaken(version: string, mem: Memory, count: int, call: UpgradeCall)
    requires CandidateChoice(version, mem, count, call.chosen) && AcceptedFirst(call.replies, |call.chosen|) > 0
    ensures OutdatedKeys(version, mem) != {}
  {
    if call.chosen != [] {
      assert call.chosen[0] in OutdatedKeys(version, mem);
    }
  }

  /** The run whose canary deploys are all refused. */
  lemma RefusedRun(version: string, mem: Memory, canary: int) returns (run: Errand)
    requires canary > 0
    ensures EndsAtOnce(version, mem, canary, run)
  {
    var call := MakeCall(version, mem, canary, {});
    AcceptedAreTaken(version, mem, canary, call);
    run := Errand(Phase(call, []), NO_PHASE);
  }
}
