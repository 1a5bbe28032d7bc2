/** How the upgrade tracker comes to name more than the active instances, within one broker
    process, and what that does to the upgrade errand. */
module StaleTracker {
  import opened Domain
  import opened Handlers
  import opened Numbers
  import opened Restart
  import opened Rollout
  import opened Sequential
  import opened Strings
  import Protocol
  import Tracker

  /** An instance is upgraded and then deprovisioned: upgrade call, delete, and the poll
      that finds the delete task done. */
  function UpgradedAndDeleted(d: string, task: int, del: int): seq<Op> {
    [ OpUpgrade(1, [d], [DeployTask(task)]), OpDeprovision(d, true, DeleteTask(del)),
      OpPoll(d, TaskDone) ]
  }

  lemma OneUpgraded(cfg: Config, st: Store, d: string, task: int)
    requires d in OutdatedKeys(cfg.openClawVersion, st.mem)
    ensures var t := Handle(cfg, st, OpUpgrade(1, [d], [DeployTask(task)])).store;
            && t.mem == st.mem[d := Upgraded(cfg.openClawVersion, st.mem[d], task)]
            && t.tracker == st.tracker[d := task]
  {
    var version, chosen, replies := cfg.openClawVersion, [d], [DeployTask(task)];
    Fewer({d}, OutdatedKeys(version, st.mem));
    assert CandidateChoice(version, st.mem, 1, chosen);
    assert UpgradeFirst(version, st.mem, chosen, replies, 0) == st.mem;
    assert TrackFirst(st.tracker, chosen, replies, 0) == st.tracker;
  }

  lemma MarkedThenForgotten(cfg: Config, st: Store, d: string, del: int)
    requires d in st.mem && st.mem[d].state == Provisioning && del != 0
    ensures var marked := Handle(cfg, st, OpDeprovision(d, true, DeleteTask(del))).store;
            var t := Handle(cfg, marked, OpPoll(d, TaskDone)).store;
            t.mem == st.mem - {d} && t.tracker == st.tracker
  {
    var marked := Handle(cfg, st, OpDeprovision(d, true, DeleteTask(del))).store;
    var rec := st.mem[d].(state := Deprovisioning);
    assert marked.mem == st.mem[d := rec.(boshTaskID := del)];
    assert marked.mem - {d} == st.mem - {d};
  }

  /** The tracker keeps an id whose instance is gone. */
  lemma DeletedStaysTracked(cfg: Config, st: Store, d: string, task: int, del: int)
    requires d in OutdatedKeys(cfg.openClawVersion, st.mem) && del != 0
    ensures var t := RunOps(cfg, st, UpgradedAndDeleted(d, task, del));
            t.mem == st.mem - {d} && t.tracker == st.tracker[d := task]
  {
    var ops := UpgradedAndDeleted(d, task, del);
    var up := Handle(cfg, st, ops[0]).store;
    OneUpgraded(cfg, st, d, task);
    MarkedThenForgotten(cfg, up, d, del);
    assert up.mem - {d} == st.mem - {d};
    ThreeOps(cfg, st, ops);
  }

  lemma ThreeOps(cfg: Config, st: Store, ops: seq<Op>)
    requires |ops| == 3
    ensures RunOps(cfg, st, ops)
            == Handle(cfg, Handle(cfg, Handle(cfg, st, ops[0]).store, ops[1]).store, ops[2]).store
  {
    var one := Handle(cfg, st, ops[0]).store;
    var two := Handle(cfg, one, ops[1]).store;
    assert ops[1..][1..] == [ops[2]] && ops[1..][0] == ops[1];
    assert RunOps(cfg, two, [ops[2]]) == Handle(cfg, two, ops[2]).store;
  }

  /** So a completed errand can leave an instance behind: of three outdated instances d is
      upgraded and deprovisioned, and the two that are left make up a fleet of two whose
      healthy count d completes when one deploy is refused. */
  lemma EarlierUpgradesCountAsHealthy(cfg: Config, st: Store, a: string, b: string, d: string, task: int,
                                      del: int, canary: int, timeout: int)
    requires a != b && d !in {a, b} && OutdatedKeys(cfg.openClawVersion, st.mem) == {a, b, d} == st.mem.Keys
    requires st.tracker == map[] && del != 0 && 0 < canary <= 2 && timeout > 0
    ensures var t := RunOps(cfg, st, UpgradedAndDeleted(d, task, del));
            && |CountedKeys(t.mem, None)| == 2 && Dormant(cfg.openClawVersion, t.mem, t.tracker.Keys) == {}
            && exists run :: LeavesSome(cfg.openClawVersion, t.mem, t.tracker, 2, canary, timeout, run)
  {
    DeletedStaysTracked(cfg, st, d, task, del);
    WithoutOne(cfg.openClawVersion, st.mem, d);
    assert {a, b, d} - {d} == {a, b};
    TwoBesideDeleted(cfg.openClawVersion, st.mem - {d}, map[d := task], a, b, d, canary, timeout);
  }

  lemma WithoutOne(version: string, mem: Memory, d: string)
    requires OutdatedKeys(version, mem) == mem.Keys
    ensures OutdatedKeys(version, mem - {d}) == (mem - {d}).Keys == mem.Keys - {d}
  {
  }

  lemma OneMayBeLeft(a: string, b: string, d: string, needed: int)
    requires a != b && d !in {a, b} && needed <= 2
    ensures CanLeave({a, b}, {}, {d}, needed)
  {
    assert {d} + ({a, b} - {b}) == {d, a};
  }

  lemma TwoBesideDeleted(version: string, mem: Memory, tracker: map<string, int>, a: string, b: string, d: string,
                         canary: int, timeout: int)
    requires a != b && d !in {a, b} && OutdatedKeys(version, mem) == {a, b} == mem.Keys && tracker.Keys == {d}
    requires 0 < canary <= 2 && timeout > 0
    ensures |CountedKeys(mem, None)| == 2 && Dormant(version, mem, tracker.Keys) == {}
    ensures exists run :: LeavesSome(version, mem, tracker, 2, canary, timeout, run)
  {
    assert CountedKeys(mem, None) == {a, b};
    assert Dormant(version, mem, tracker.Keys) == {};
    OneMayBeLeft(a, b, d, Max(2, canary));
    ErrandLeavesExactly(version, mem, tracker, 2, canary, timeout);
  }

  /** And a delete of such an id, which the broker no longer knows, makes it dormant: its
      stub has no version. With it the two calls need not cover a fleet of one. */
  lemma DormantInstanceEscapes(cfg: Config, st: Store, a: string, b: string, task: int, del: int, again: int,
                               canary: int)
    requires a != b && OutdatedKeys(cfg.openClawVersion, st.mem) == {a, b} == st.mem.Keys
    requires st.tracker == map[] && del != 0 && canary > 0 && cfg.openClawVersion != ""
    ensures var deleted := RunOps(cfg, st, UpgradedAndDeleted(b, task, del));
            var t := Handle(cfg, deleted, OpDeprovision(b, true, DeleteTask(again))).store;
            && CountedKeys(t.mem, None) == {a} && Dormant(cfg.openClawVersion, t.mem, t.tracker.Keys) == {b}
            && t.mem[b] == Stub(b).(boshTaskID := again)
            && exists run :: TwoCalls(cfg.openClawVersion, t.mem, t.tracker, 1, canary, run)
                             && !Covers(cfg.openClawVersion, t.mem, t.tracker, run)
  {
    var deleted := RunOps(cfg, st, UpgradedAndDeleted(b, task, del));
    var t := Handle(cfg, deleted, OpDeprovision(b, true, DeleteTask(again))).store;
    DeletedStaysTracked(cfg, st, b, task, del);
    WithoutOne(cfg.openClawVersion, st.mem, b);
    assert {a, b} - {b} == {a};
    assert t.mem == deleted.mem[b := Stub(b).(boshTaskID := again)];
    OneBesideStub(cfg.openClawVersion, deleted.mem, map[b := task], a, b, again, canary);
  }

  lemma OneBesideStub(version: string, mem: Memory, tracker: map<string, int>, a: string, b: string, again: int,
                      canary: int)
    requires a != b && OutdatedKeys(version, mem) == {a} == mem.Keys && tracker.Keys == {b}
    requires canary > 0 && version != ""
    ensures var after := mem[b := Stub(b).(boshTaskID := again)];
            && CountedKeys(after, None) == {a} && Dormant(version, after, tracker.Keys) == {b}
            && exists run :: TwoCalls(version, after, tracker, 1, canary, run) && !Covers(version, after, tracker, run)
  {
    var after := mem[b := Stub(b).(boshTaskID := again)];
    assert CountedKeys(after, None) == {a} && OutdatedKeys(version, after) == {a};
    assert Dormant(version, after, tracker.Keys) == {b};
    RolloutCoversExactly(version, after, tracker, 1, canary);
  }

  /** Within one broker process a dormant entry has no version: it is the stub of such a
      delete, in every interleaving from any loaded state. */
  lemma DormantIsVersionless(cfg: Config, s: Protocol.System, steps: seq<Protocol.Step>, k: string)
    requires Tracker.Loaded(cfg, s)
    ensures var t := Protocol.Run(cfg, s, steps);
            k in Dormant(cfg.openClawVersion, Protocol.View(t), t.tracker.Keys) ==>
              Protocol.View(t)[k].openClawVersion == "" && cfg.openClawVersion != ""
  {
    Tracker.TrackedVersions(cfg, s, steps, k);
  }
}
