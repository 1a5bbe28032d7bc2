/** The upgrade errand as it drives the broker object: its upgrade requests, its waiting
    loops, and how it ends. */
module UpgradeErrand {
  import opened Strings
  import opened Domain
  import opened Handlers
  import opened Sequential
  import opened BrokerObject
  import opened Rollout

  /** The poll a waiting loop gets at its i-th request; past the given ones, none is served. */
  function PollAt(polls: seq<StatusPoll>, i: nat): StatusPoll {
    if i < |polls| then polls[i] else Unserved
  }

  /** A waiting loop that gives up: at every poll too few were healthy, until timeout
      seconds were slept. */
  predicate TimedOut(tracked: set<string>, polls: seq<StatusPoll>, target: int, timeout: int) {
    5 * |polls| >= timeout && forall i :: 0 <= i < |polls| ==> HealthyHeard(tracked, polls[i]) < target
  }

  /** The waiting loop of either phase. */
  method WaitHealthy(broker: Broker, target: int, timeout: int, polls: seq<StatusPoll>)
    returns (elapsed: int, ghost asked: seq<StatusPoll>)
    requires broker.Valid()
    modifies broker, broker.instances.Values
    ensures broker.Valid() && broker.instances == old(broker.instances) && broker.tasks == old(broker.tasks)
    ensures broker.mem == AfterPolls(old(broker.mem), broker.tasks.Keys, asked)
    ensures forall i :: 0 <= i < |asked| ==> asked[i] == PollAt(polls, i)
    ensures if elapsed < timeout then elapsed == 5 * (|asked| - 1) && Heard(broker.tasks.Keys, asked, target, timeout)
            else elapsed == 5 * |asked| && TimedOut(broker.tasks.Keys, asked, target, timeout)
  {
    elapsed, asked := 0, [];
    var i := 0;
    while elapsed < timeout
      invariant broker.Valid() && broker.instances == old(broker.instances) && broker.tasks == old(broker.tasks)
      invariant i == |asked| && elapsed == 5 * i
      invariant broker.mem == AfterPolls(old(broker.mem), broker.tasks.Keys, asked)
      invariant forall j :: 0 <= j < i ==> asked[j] == PollAt(polls, j)
      invariant forall j :: 0 <= j < i ==> HealthyHeard(broker.tasks.Keys, asked[j]) < target
      decreases timeout - elapsed
    {
      var poll := PollAt(polls, i);
      var healthy := AskStatus(broker, poll);
      OneMorePoll(old(broker.mem), broker.tasks.Keys, asked, poll);
      i, asked := i + 1, asked + [poll];
      if healthy >= target {
        break;
      }
      elapsed := elapsed + 5;
    }
  }

  lemma OneMorePoll(mem: Memory, tracked: set<string>, polls: seq<StatusPoll>, poll: StatusPoll)
    ensures AfterPolls(mem, tracked, polls + [poll]) == AfterPoll(AfterPolls(mem, tracked, polls), tracked, poll)
  {
    assert (polls + [poll])[..|polls|] == polls;
  }

  /** One status request, and the healthy count read from what comes back. */
  method AskStatus(broker: Broker, poll: StatusPoll) returns (healthy: nat)
    requires broker.Valid()
    modifies broker, broker.instances.Values
    ensures broker.Valid() && broker.instances == old(broker.instances) && broker.tasks == old(broker.tasks)
    ensures broker.mem == AfterPoll(old(broker.mem), broker.tasks.Keys, poll)
    ensures healthy == HealthyHeard(broker.tasks.Keys, poll)
  {
    healthy := 0;
    if poll.Served? {
      var status := broker.AdminUpgradeStatus(poll.answers, poll.writes);
      if poll.heard {
        healthy := status.healthy;
      }
    }
  }

  /** One upgrade request: never served, or served with the Director's replies and its own
      reply heard or lost on the way back. */
  datatype Post = Unposted | Posted(replies: seq<DeployReply>, writes: bool, heard: bool)

  ghost predicate AllTaken(post: Post, n: nat) {
    post.Posted? && AllAccepted(post.replies, n)
  }

  /** The replies of a request, as far as it reached the broker. */
  function RepliesOf(post: Post): seq<DeployReply> {
    if post.Posted? then post.replies else []
  }

  method AskUpgrade(broker: Broker, count: int, post: Post) returns (upgrading: Option<nat>, ghost call: UpgradeCall)
    requires broker.Valid() && count > 0
    modifies broker, broker.instances.Values
    ensures broker.Valid() && broker.instances == old(broker.instances)
    ensures broker.mem == AfterCall(broker.cfg.openClawVersion, old(broker.mem), call)
    ensures broker.tasks == TrackerAfter(old(broker.tasks), call) && call.replies == RepliesOf(post)
    ensures post.Posted? ==> CandidateChoice(broker.cfg.openClawVersion, old(broker.mem), count, call.chosen)
    ensures post.Unposted? ==> call.chosen == []
    ensures upgrading == if post.Posted? && post.heard then Some(AcceptedFirst(call.replies, |call.chosen|)) else None
  {
    if post.Unposted? {
      return None, UpgradeCall([], []);
    }
    var response, chosen := broker.AdminUpgrade(count, post.replies, post.writes);
    call := UpgradeCall(chosen, post.replies);
    upgrading := if post.heard then Some(response.upgraded) else None;
  }

  /** How the errand ends: with no instances, with no deploy to wait for, after both
      phases, or with a failure. */
  datatype Exit = NothingFound | NothingToUpgrade | Completed | Aborted

  /** The phase is what the requests given for it make of it. */
  predicate Follows(p: Phase, post: Post, polls: seq<StatusPoll>) {
    p.call.replies == RepliesOf(post) && forall i :: 0 <= i < |p.polls| ==> p.polls[i] == PollAt(polls, i)
  }

  /** The request reached the broker and its reply came back. */
  predicate Heeded(post: Post) {
    post.Posted? && post.heard
  }

  /** The reply came back and no deploy was accepted. */
  ghost predicate AllRefused(post: Post) {
    Heeded(post) && forall i :: 0 <= i < |post.replies| ==> !post.replies[i].DeployTask?
  }

  lemma {:induction false} NothingAccepted(replies: seq<DeployReply>, n: nat)
    requires forall i :: 0 <= i < |replies| ==> !replies[i].DeployTask?
    ensures AcceptedFirst(replies, n) == 0
  {
    if n > 0 {
      NothingAccepted(replies, n - 1);
    }
  }

  /** Why each phase ends as it does. */
  ghost predicate FirstEnds(exit: Exit, version: string, mem: Memory, tracker: map<string, int>, canary: int,
                            timeout: int, post: Post, p: Phase)
  {
    match exit
    case NothingFound => false
    case NothingToUpgrade => Heeded(post) && EndsAtOnce(version, mem, canary, Errand(p, NO_PHASE))
    case Completed =>
      Heeded(post) && PhaseDone(version, mem, tracker, canary, canary, timeout, p)
      && AcceptedFirst(p.call.replies, |p.call.chosen|) > 0
    case Aborted =>
      !Heeded(post) || (AcceptedFirst(p.call.replies, |p.call.chosen|) > 0
                        && TimedOut(TrackerAfter(tracker, p.call).Keys, p.polls, canary, timeout))
  }

  ghost predicate SecondEnds(exit: Exit, version: string, mem: Memory, tracker: map<string, int>, remaining: int,
                             total: int, timeout: int, post: Post, p: Phase)
  {
    match exit
    case Completed => Heeded(post) && PhaseDone(version, mem, tracker, remaining, total, timeout, p)
    case Aborted => !Heeded(post) || TimedOut(TrackerAfter(tracker, p.call).Keys, p.polls, total, timeout)
    case _ => false
  }

  /** The second phase comes after a completed first one, when there is a rest. */
  ghost predicate EndsAs(exit: Exit, version: string, mem: Memory, tracker: map<string, int>, total: int, canary: int,
                         timeout: int, first: Post, second: Post, run: Errand)
  {
    (FirstEnds(exit, version, mem, tracker, canary, timeout, first, run.first) && run.second == NO_PHASE
     && (exit.Completed? ==> total <= canary))
    || (FirstEnds(Completed, version, mem, tracker, canary, timeout, first, run.first) && total > canary
        && SecondEnds(exit, version, Midway(version, mem, tracker, run), TrackerAfter(tracker, run.first.call),
                      total - canary, total, timeout, second, run.second))
  }

  /** Phase 1 up to the pause. */
  method CanaryPhase(broker: Broker, canary: int, timeout: int, post: Post, polls: seq<StatusPoll>)
    returns (exit: Exit, ghost p: Phase)
    requires broker.Valid() && canary > 0
    modifies broker, broker.instances.Values
    ensures broker.Valid() && broker.instances == old(broker.instances)
    ensures broker.mem == AfterPhase(broker.cfg.openClawVersion, old(broker.mem), old(broker.tasks), p)
    ensures broker.tasks == TrackerAfter(old(broker.tasks), p.call) && Follows(p, post, polls)
    ensures FirstEnds(exit, broker.cfg.openClawVersion, old(broker.mem), old(broker.tasks), canary, timeout, post, p)
  {
    var upgrading, call := AskUpgrade(broker, canary, post);
    p := Phase(call, []);
    if upgrading.None? {
      return Aborted, p;
    }
    if upgrading.value == 0 {
      return NothingToUpgrade, p;
    }
    var elapsed, asked := WaitHealthy(broker, canary, timeout, polls);
    exit, p := if elapsed < timeout then Completed else Aborted, Phase(call, asked);
  }

  /** Phase 2. */
  method RemainingPhase(broker: Broker, remaining: int, total: int, timeout: int, post: Post, polls: seq<StatusPoll>)
    returns (exit: Exit, ghost p: Phase)
    requires broker.Valid() && 0 < remaining <= total
    modifies broker, broker.instances.Values
    ensures broker.Valid() && broker.instances == old(broker.instances)
    ensures broker.mem == AfterPhase(broker.cfg.openClawVersion, old(broker.mem), old(broker.tasks), p)
    ensures broker.tasks == TrackerAfter(old(broker.tasks), p.call) && Follows(p, post, polls)
    ensures SecondEnds(exit, broker.cfg.openClawVersion, old(broker.mem), old(broker.tasks), remaining, total, timeout,
                       post, p)
  {
    var upgrading, call := AskUpgrade(broker, remaining, post);
    if upgrading.None? {
      return Aborted, Phase(call, []);
    }
    var elapsed, asked := WaitHealthy(broker, total, timeout, polls);
    exit, p := if elapsed < timeout then Completed else Aborted, Phase(call, asked);
  }

  /** What a completed errand means, in the two cases in which it means something. */
  lemma CompletedErrand(version: string, mem: Memory, tracker: map<string, int>, total: int, canary: int, timeout: int,
                        run: Errand)
    requires canary > 0 && |CountedKeys(mem, None)| <= total
    requires Completes(version, mem, tracker, total, canary, timeout, run)
    ensures FreshRollout(version, mem, mem, tracker.Keys) ==>
              FleetReady(version, mem, ErrandMem(version, mem, tracker, run))
    ensures Dormant(version, mem, tracker.Keys) == {} && AllAccepted(run.first.call.replies, |mem|)
            && (run.second == NO_PHASE || AllAccepted(run.second.call.replies, |mem|)) ==>
              OutdatedKeys(version, ErrandMem(version, mem, tracker, run)) == {}
  {
    OutdatedAreCounted(version, mem);
    OutdatedAreCounted(version, Midway(version, mem, tracker, run));
    PhaseEffect(version, mem, tracker, canary, run.first);
    if FreshRollout(version, mem, mem, tracker.Keys) {
      CompletedMeansReady(version, mem, tracker, total, canary, timeout, run);
    }
    if Dormant(version, mem, tracker.Keys) == {} && AllAccepted(run.first.call.replies, |mem|)
       && (run.second == NO_PHASE || AllAccepted(run.second.call.replies, |mem|)) {
      FlawlessErrandCovers(version, mem, tracker, total, canary, timeout, run);
    }
  }

  /** What the caller may conclude from the exit, with was and tracker from before it. When
      the errand completes and the rollout was fresh, the whole fleet is ready on the new
      version, also if deploys failed on the way. When it does not abort, accepted deploys
      and nothing dormant leave nothing outdated, fresh or not. */
  ghost predicate Promise(exit: Exit, version: string, was: Memory, tracker: map<string, int>, mem: Memory, first: Post,
                          second: Post)
  {
    (exit.NothingFound? || exit.NothingToUpgrade? ==> mem == was)
    && (exit.Completed? && FreshRollout(version, was, was, tracker.Keys) ==> FleetReady(version, was, mem))
    && (!exit.Aborted? && Dormant(version, was, tracker.Keys) == {}
        && AllTaken(first, |was|) && AllTaken(second, |was|) ==>
          OutdatedKeys(version, mem) == {})
  }

  lemma EndMeans(exit: Exit, version: string, mem: Memory, tracker: map<string, int>, total: int, canary: int,
                 timeout: int, first: Post, firstPolls: seq<StatusPoll>, second: Post, secondPolls: seq<StatusPoll>,
                 run: Errand)
    requires canary > 0 && |CountedKeys(mem, None)| <= total
    requires EndsAs(exit, version, mem, tracker, total, canary, timeout, first, second, run)
    requires Follows(run.first, first, firstPolls)
    requires run.second == NO_PHASE || Follows(run.second, second, secondPolls)
    ensures exit.Completed? ==> Completes(version, mem, tracker, total, canary, timeout, run)
    ensures Promise(exit, version, mem, tracker, ErrandMem(version, mem, tracker, run), first, second)
  {
    if exit.Completed? {
      CompletedErrand(version, mem, tracker, total, canary, timeout, run);
    } else if exit.NothingToUpgrade? {
      EndedAtOnce(version, mem, tracker, canary, run);
    }
  }

  /** When every canary deploy is refused the errand does not abort: the reply names no
      upgrade, which reads as nothing left to do. */
  lemma RefusedEndsAtOnce(exit: Exit, version: string, mem: Memory, tracker: map<string, int>, total: int, canary: int,
                          timeout: int, first: Post, firstPolls: seq<StatusPoll>, second: Post, run: Errand)
    requires EndsAs(exit, version, mem, tracker, total, canary, timeout, first, second, run)
    requires Follows(run.first, first, firstPolls) && AllRefused(first)
    ensures exit.NothingToUpgrade?
  {
    NothingAccepted(first.replies, |run.first.call.chosen|);
  }

  /** Both phases, for a fleet of total and any number of canaries. */
  method Upgrade(broker: Broker, total: int, canary: int, timeout: int, first: Post, firstPolls: seq<StatusPoll>,
                 second: Post, secondPolls: seq<StatusPoll>) returns (exit: Exit, ghost run: Errand)
    requires broker.Valid() && canary > 0 && |CountedKeys(broker.mem, None)| <= total
    modifies broker, broker.instances.Values
    ensures broker.Valid() && broker.instances == old(broker.instances)
    ensures broker.mem == ErrandMem(broker.cfg.openClawVersion, old(broker.mem), old(broker.tasks), run)
    ensures EndsAs(exit, broker.cfg.openClawVersion, old(broker.mem), old(broker.tasks), total, canary, timeout, first,
                   second, run)
    ensures Follows(run.first, first, firstPolls)
    ensures run.second == NO_PHASE || Follows(run.second, second, secondPolls)
    ensures exit.Completed? ==>
              Completes(broker.cfg.openClawVersion, old(broker.mem), old(broker.tasks), total, canary, timeout, run)
    ensures Promise(exit, broker.cfg.openClawVersion, old(broker.mem), old(broker.tasks), broker.mem, first, second)
    ensures AllRefused(first) ==> exit.NothingToUpgrade?
  {
    exit, run := BothPhases(broker, total, canary, timeout, first, firstPolls, second, secondPolls);
    if AllRefused(first) {
      RefusedEndsAtOnce(exit, broker.cfg.openClawVersion, old(broker.mem), old(broker.tasks), total, canary, timeout,
                        first, firstPolls, second, run);
    }
    EndMeans(exit, broker.cfg.openClawVersion, old(broker.mem), old(broker.tasks), total, canary, timeout, first,
             firstPolls, second, secondPolls, run);
  }

  method BothPhases(broker: Broker, total: int, canary: int, timeout: int, first: Post, firstPolls: seq<StatusPoll>,
                    second: Post, secondPolls: seq<StatusPoll>) returns (exit: Exit, ghost run: Errand)
    requires broker.Valid() && canary > 0
    modifies broker, broker.instances.Values
    ensures broker.Valid() && broker.instances == old(broker.instances)
    ensures broker.mem == ErrandMem(broker.cfg.openClawVersion, old(broker.mem), old(broker.tasks), run)
    ensures EndsAs(exit, broker.cfg.openClawVersion, old(broker.mem), old(broker.tasks), total, canary, timeout, first,
                   second, run)
    ensures Follows(run.first, first, firstPolls)
    ensures run.second == NO_PHASE || Follows(run.second, second, secondPolls)
  {
    ghost var p, q;
    exit, p := CanaryPhase(broker, canary, timeout, first, firstPolls);
    q := NO_PHASE;
    NothingDone(broker.cfg.openClawVersion, broker.mem, broker.tasks);
    if exit.Completed? && total - canary > 0 {
      exit, q := RemainingPhase(broker, total - canary, total, timeout, second, secondPolls);
    }
    run := Errand(p, q);
  }

  method Canaries(total: int, pct: int) returns (canary: int)
    ensures canary == CanaryCount(total, pct) && canary >= 1
  {
    canary := Quotient(total * pct + 99, 100);
    if canary < 1 {
      canary := 1;
    }
  }

  /** The fleet as the errand counts it; overcount is what its grep for "id" finds beyond
      the listed instances. */
  method FleetSize(broker: Broker, overcount: nat) returns (total: nat)
    requires broker.Valid()
    ensures total == |CountedKeys(broker.mem, None)| + overcount
    ensures total == 0 ==> OutdatedKeys(broker.cfg.openClawVersion, broker.mem) == {}
  {
    var list := broker.AdminListInstances();
    total := |list| + overcount;
    CountsActive(broker.mem, "");
    OutdatedAreCounted(broker.cfg.openClawVersion, broker.mem);
  }

  /** The errand, run while no other request reaches the broker: the run it makes, what it
      does to the broker, why it ends as it does, and what its end promises. When every
      canary deploy is refused it reports success and has changed nothing. Rollout has the
      exact conditions for leaving something outdated: ErrandLeavesExactly for completed
      runs, SuccessLeavesExactly for all that are reported as a success. */
  method RunErrand(broker: Broker, overcount: nat, listed: bool, pct: int, timeout: int, first: Post,
                   firstPolls: seq<StatusPoll>, second: Post, secondPolls: seq<StatusPoll>)
    returns (exit: Exit, ghost total: nat, ghost run: Errand)
    requires broker.Valid()
    modifies broker, broker.instances.Values
    ensures broker.Valid() && broker.instances == old(broker.instances)
    ensures broker.mem == ErrandMem(broker.cfg.openClawVersion, old(broker.mem), old(broker.tasks), run)
    ensures exit.NothingFound? <==> listed && total == 0
    ensures listed ==> total == |CountedKeys(old(broker.mem), None)| + overcount
    ensures listed && total > 0 ==>
              EndsAs(exit, broker.cfg.openClawVersion, old(broker.mem), old(broker.tasks), total,
                     CanaryCount(total, pct), timeout, first, second, run)
              && Follows(run.first, first, firstPolls)
              && (run.second == NO_PHASE || Follows(run.second, second, secondPolls))
    ensures exit.Completed? ==>
              Completes(broker.cfg.openClawVersion, old(broker.mem), old(broker.tasks), total,
                        CanaryCount(total, pct), timeout, run)
    ensures !listed ==> exit.Aborted? && broker.mem == old(broker.mem)
    ensures listed && total > 0 && AllRefused(first) ==> exit.NothingToUpgrade? && broker.mem == old(broker.mem)
    ensures Promise(exit, broker.cfg.openClawVersion, old(broker.mem), old(broker.tasks), broker.mem, first, second)
  {
    exit, total, run := Aborted, 0, Errand(NO_PHASE, NO_PHASE);
    NothingDone(broker.cfg.openClawVersion, broker.mem, broker.tasks);
    if listed {
      var size := FleetSize(broker, overcount);
      exit, total := NothingFound, size;
      if size > 0 {
        var canary := Canaries(size, pct);
        exit, run := Upgrade(broker, size, canary, timeout, first, firstPolls, second, secondPolls);
      }
    }
  }
}
