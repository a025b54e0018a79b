/** Two runs of the apply protocol in full: one that recovers an outcome, and one that recovers the wrong one. */
module ApplyExamples {
  import opened Text
  import opened Tasks
  import opened ChangeSets
  import opened ApplyProtocol
  import V = Vendor

  /** Some run of a fresh server leads to `s`. */
  ghost predicate Reached(s: Sys) { exists s0: Sys, acts: seq<Action> :: Init(s0) && LeadsTo(s0, acts, s) }

  predicate LeadsTo(s0: Sys, acts: seq<Action>, s: Sys) { Runs(s0, acts) && After(s0, acts) == s }

  lemma OneMore(s: Sys, a: Action)
    requires Reached(s) && Enabled(s, a)
    ensures Reached(Do(s, a))
  {
    var s0: Sys, acts: seq<Action> :| Init(s0) && LeadsTo(s0, acts, s);
    RunExtends(s0, acts, a);
    assert LeadsTo(s0, acts + [a], Do(s, a));
  }

  // ---- A server with one change set and at most one handler ---------------------------

  function Lone(clusters: set<string>, cs: Cs, t: Option<Thread>, tasks: TaskTable): Sys {
    Sys(Serving, false, true, clusters, map[0 := cs], if t.Some? then map[0 := t.value] else map[], tasks)
  }

  lemma LoneMoves(clusters: set<string>, cs: Cs, t: Thread, tasks: TaskTable, m: Move)
    requires Reached(Lone(clusters, cs, Some(t), tasks)) && t.id == 0 && CanMove(cs, t, tasks, m)
    ensures var e := MoveEffect(cs, t, tasks, false, true, m); Reached(Lone(clusters, e.cs, e.next, tasks))
  {
    var s := Lone(clusters, cs, Some(t), tasks);
    var e := MoveEffect(cs, t, tasks, false, true, m);
    OneMore(s, Step(0, m));
    assert Do(s, Step(0, m)) == Lone(clusters, e.cs, e.next, tasks);
  }

  lemma LoneVanishes(clusters: set<string>, cs: Cs, t: Thread, tasks: TaskTable)
    requires Reached(Lone(clusters, cs, Some(t), tasks))
    ensures Reached(Lone(clusters, cs, None, tasks))
  {
    var s := Lone(clusters, cs, Some(t), tasks);
    OneMore(s, Vanish(0));
    assert Do(s, Vanish(0)) == Lone(clusters, cs, None, tasks);
  }

  lemma LoneEnters(clusters: set<string>, cs: Cs, t: Thread, tasks: TaskTable)
    requires Reached(Lone(clusters, cs, None, tasks)) && cs.rec.preview && t.id == 0
    requires t.Approving? || t == Applies(0, cs.rec, Read)
    ensures Reached(Lone(clusters, cs, Some(t), tasks))
  {
    var s := Lone(clusters, cs, None, tasks);
    var a := if t.Approving? then ApproveRead(0, 0, t.who, t.actor) else ApplyRead(0, 0);
    OneMore(s, a);
    assert Do(s, a) == Lone(clusters, cs, Some(t), tasks);
  }

  // ---- From planning to a persisted handle ----------------------------------------------

  function RestorePlan(cluster: string, vmid: u32): Plan {
    Plan(PlanRestoreNewVmid(vmid), V.TaskOp, cluster, OfGuest(vmid), "planner", "preimage")
  }

  function ApprovedRecord(cluster: string, vmid: u32): Record {
    Record(RestorePlan(cluster, vmid), true, Approved, ApprovedBy("approver", Human), None, false)
  }

  function UnsentSet(rec: Record): Cs { Cs(rec, 0, V.Unsent, false, {}, false, false, None) }

  lemma SomeRunApproves(clusters: set<string>, cluster: string, vmid: u32)
    requires cluster in clusters
    ensures Reached(Lone(clusters, UnsentSet(ApprovedRecord(cluster, vmid)), None, map[]))
  {
    var plan := RestorePlan(cluster, vmid);
    var s := Sys(Serving, false, true, clusters, map[], map[], map[]);
    assert LeadsTo(s, [], s);
    OneMore(s, PlanCreate(0, 0, plan));
    var cs, t := FreshSet(plan), Planning(0, NewRecord(plan), Created);
    assert Do(s, PlanCreate(0, 0, plan)) == Lone(clusters, cs, Some(t), map[]);
    LoneMoves(clusters, cs, t, map[], PlanReadBack);
    t := Planning(0, NewRecord(plan), ReadBack);
    LoneMoves(clusters, cs, t, map[], PlanPreview(true));
    cs, t := cs.(rec := t.rec.(preview := true)), t.(stage := Previewed);
    LoneVanishes(clusters, cs, t, map[]);
    t := Approving(0, "approver", Human);
    LoneEnters(clusters, cs, t, map[]);
    LoneMoves(clusters, cs, t, map[], ApproveCommit(true));
  }

  function InFlightRecord(cluster: string, vmid: u32, upid: string): Record {
    Record(RestorePlan(cluster, vmid), true, Applying, ApprovedBy("approver", Human), Some(upid), true)
  }

  function SentSet(rec: Record, upid: string): Cs {
    Cs(rec, 1, V.Task(upid), false, {}, false, false, Some("preimage"))
  }

  lemma SomeRunSends(clusters: set<string>, cluster: string, vmid: u32)
    requires cluster in clusters
    ensures var rec := InFlightRecord(cluster, vmid, "").(handle := None);
      Reached(Lone(
        clusters, Cs(rec, 1, V.InFlight, false, {}, false, false, Some("preimage")), Some(Applies(0, rec, Sent)), map[]))
  {
    SomeRunApproves(clusters, cluster, vmid);
    var cs := UnsentSet(ApprovedRecord(cluster, vmid));
    var t := Applies(0, cs.rec, Read);
    LoneEnters(clusters, cs, t, map[]);
    LoneMoves(clusters, cs, t, map[], ApplyVerify("preimage"));
    t := t.(pc := Verified("preimage"));
    LoneMoves(clusters, cs, t, map[], ApplyClaim(true));
    var rec := Claim(cs.rec, true);
    cs, t := cs.(rec := rec), Applies(0, rec, Claimed("preimage"));
    LoneMoves(clusters, cs, t, map[], ApplyIntent(true));
    t := t.(pc := Cleared("preimage"));
    LoneMoves(clusters, cs, t, map[], ApplySend);
  }

  /** The vendor took the write as a task and the handle is on disk. */
  lemma SomeRunIsInFlight(clusters: set<string>, cluster: string, vmid: u32, upid: string)
    requires cluster in clusters && ParseUpid(upid).Some?
    ensures var rec := InFlightRecord(cluster, vmid, upid);
      Reached(Lone(
        clusters, SentSet(rec, upid), Some(Applies(0, rec.(handle := None), Polling(upid))), map[(cluster, upid) := Running]))
  {
    SomeRunSends(clusters, cluster, vmid);
    V.EmptyIsNoUpid();
    var rec := InFlightRecord(cluster, vmid, upid).(handle := None);
    var cs := Cs(rec, 1, V.InFlight, false, {}, false, false, Some("preimage"));
    var t, tasks := Applies(0, rec, Sent), map[(cluster, upid) := Running];
    var s := Lone(clusters, cs, Some(t), map[]);
    OneMore(s, VendorDecides(0, V.Task(upid)));
    cs := SentSet(rec, upid);
    assert Do(s, VendorDecides(0, V.Task(upid))) == Lone(clusters, cs, Some(t), tasks);
    LoneMoves(clusters, cs, t, tasks, ApplyReceive(V.Response(200, V.Text(upid))));
    t := t.(pc := Handle(upid));
    LoneMoves(clusters, cs, t, tasks, ApplyPersist(true));
  }

  // ---- Crash, restart and recovery -----------------------------------------------------------

  function Stopped(phase: Phase, clusters: set<string>, cs: Cs, tasks: TaskTable): Sys {
    Sys(phase, false, true, clusters, map[0 := cs], map[], tasks)
  }

  /** The server dies; task `upid` of `asked` ends well. */
  lemma LoneCrashes(clusters: set<string>, cs: Cs, t: Thread, tasks: TaskTable, asked: string, upid: string)
    requires Reached(Lone(clusters, cs, Some(t), tasks))
    requires (asked, upid) in tasks ==> tasks[(asked, upid)] == Running
    ensures Reached(Stopped(Down, clusters, cs, tasks[(asked, upid) := Ended(OK)]))
  {
    OneMore(Lone(clusters, cs, Some(t), tasks), Crash);
    var s := Stopped(Down, clusters, cs, tasks);
    if (asked, upid) !in tasks { OneMore(s, OtherTask(asked, upid)); }
    var running := tasks[(asked, upid) := Running];
    assert (asked, upid) in tasks ==> running == tasks;
    OneMore(Stopped(Down, clusters, cs, running), TaskEnds(asked, upid, OK));
    assert running[(asked, upid) := Ended(OK)] == tasks[(asked, upid) := Ended(OK)];
  }

  lemma LoneRestarts(clusters: set<string>, cs: Cs, tasks: TaskTable)
    requires Reached(Stopped(Down, clusters, cs, tasks)) && OnStartup(cs.rec) == cs.rec
    ensures Reached(Stopped(Recovering(map[0 := cs.rec], Idle), clusters, cs, tasks))
  {
    var s := Stopped(Down, clusters, cs, tasks);
    OneMore(s, Restart(false, clusters));
    assert cs.(rec := OnStartup(cs.rec)) == cs;
    var s' := DoRestart(s, false, clusters);
    assert s'.sets == map[0 := cs] && s'.phase.todo == map[0 := cs.rec];
    assert Do(s, Restart(false, clusters)) == Stopped(Recovering(map[0 := cs.rec], Idle), clusters, cs, tasks);
  }

  lemma LoneIsProbed(clusters: set<string>, cs: Cs, tasks: TaskTable, answer: Answer, ok: bool)
    requires Reached(Stopped(Recovering(map[0 := cs.rec], Idle), clusters, cs, tasks))
    requires CanProbe(Stopped(Recovering(map[0 := cs.rec], Idle), clusters, cs, tasks), 0, answer)
    requires RecoveryOutcome(cs.rec, clusters, answer) == Some(ok)
    ensures Reached(Stopped(Recovering(map[], Knows(0, cs.rec, ok)), clusters, cs, tasks))
  {
    OneMore(Stopped(Recovering(map[0 := cs.rec], Idle), clusters, cs, tasks), RecoverProbe(0, answer));
    assert map[0 := cs.rec] - {0} == map[];
  }

  lemma LoneIsSettled(clusters: set<string>, cs: Cs, tasks: TaskTable, ok: bool)
    requires Reached(Stopped(Recovering(map[], Knows(0, cs.rec, ok)), clusters, cs, tasks))
    ensures Reached(Stopped(Recovering(map[], Idle), clusters, cs.(rec := Settled(cs.rec, ok)), tasks))
  {
    OneMore(Stopped(Recovering(map[], Knows(0, cs.rec, ok)), clusters, cs, tasks), RecoverReceipt(true));
    assert map[0 := cs][0 := cs] == map[0 := cs];
    OneMore(Stopped(Recovering(map[], Noted(0, cs.rec, ok)), clusters, cs, tasks), RecoverSettle(true));
    assert map[0 := cs][0 := cs.(rec := Settled(cs.rec, ok))] == map[0 := cs.(rec := Settled(cs.rec, ok))];
  }

  /** Recovery asks `asked` after the handle, hears that the task ended well, and settles the record. */
  lemma SomeRunSettles(clusters: set<string>, cluster: string, vmid: u32, upid: string, asked: string)
    requires cluster in clusters && asked in clusters && ParseUpid(upid).Some?
    requires DeviceCluster(DeviceKey(cluster, OfGuest(vmid).Key())) == Some(asked)
    ensures Reached(Stopped(
      Recovering(map[], Idle), clusters, SentSet(Settled(InFlightRecord(cluster, vmid, upid), true), upid),
      map[(cluster, upid) := Running][(asked, upid) := Ended(OK)]))
  {
    SomeRunIsInFlight(clusters, cluster, vmid, upid);
    var rec := InFlightRecord(cluster, vmid, upid);
    var cs, before := SentSet(rec, upid), map[(cluster, upid) := Running];
    LoneCrashes(clusters, cs, Applies(0, rec.(handle := None), Polling(upid)), before, asked, upid);
    var tasks := before[(asked, upid) := Ended(OK)];
    LoneRestarts(clusters, cs, tasks);
    LoneIsProbed(clusters, cs, tasks, Status(Some("stopped"), Some(OK)), true);
    LoneIsSettled(clusters, cs, tasks, true);
  }

  /** A whole run, from plan to recovery after a crash, ends with an honest `Applied`. */
  lemma SomeRunRecoversAnOutcome(cluster: string, vmid: u32, upid: string) returns (s: Sys)
    requires '/' !in cluster && ParseUpid(upid).Some?
    ensures Reached(s) && 0 in s.sets && s.sets[0].rec.state == Applied
    ensures s.sets[0].fate == V.Task(upid) && (cluster, upid) in s.tasks && s.tasks[(cluster, upid)] == Ended(OK)
  {
    RoutesHomeExactlyWhenSlashFree(cluster, OfGuest(vmid).Key());
    SomeRunSettles({cluster}, cluster, vmid, upid, cluster);
    s := Stopped(Recovering(map[], Idle), {cluster}, SentSet(Settled(InFlightRecord(cluster, vmid, upid), true), upid),
                 map[(cluster, upid) := Running][(cluster, upid) := Ended(OK)]);
  }

  /**
   * With a slash in a cluster's name the promise fails: a run in which the record
   * reads `Applied` while the vendor's task for it is still running, because
   * recovery asked the other cluster about a task with the same handle.
   */
  lemma SomeSlashRunLies(outer: string, inner: string, vmid: u32, upid: string) returns (s: Sys)
    requires '/' !in outer && ParseUpid(upid).Some?
    ensures Reached(s) && 0 in s.sets && s.sets[0].rec.state == Applied
    ensures s.sets[0].rec.plan.cluster == outer + ['/'] + inner
    ensures s.sets[0].fate == V.Task(upid)
    ensures (s.sets[0].rec.plan.cluster, upid) in s.tasks && s.tasks[(s.sets[0].rec.plan.cluster, upid)] == Running
  {
    var cluster := outer + ['/'] + inner;
    assert cluster[|outer|] == '/';
    SlashRoutesAway(outer, inner, OfGuest(vmid).Key());
    SomeRunSettles({outer, cluster}, cluster, vmid, upid, outer);
    s := Stopped(Recovering(map[], Idle), {outer, cluster}, SentSet(Settled(InFlightRecord(cluster, vmid, upid), true), upid),
                 map[(cluster, upid) := Running][(outer, upid) := Ended(OK)]);
  }
}
