/** A handle that was stored is what startup recovery later settles its record by. */
module Restarts {
  import opened Text
  import opened Tasks
  import opened ChangeSets
  import opened ApplyProtocol
  import opened ApplySafety
  import opened Recovery
  import R = ApplyRuns
  import V = Vendor

  /** The record is in flight, and the handle on it is its own task's. */
  predicate HasHandle(s: Sys, id: CsId, upid: string) {
    && id in s.sets && s.sets[id].rec.state == Applying && s.sets[id].rec.handle == Some(upid)
    && s.sets[id].fate == V.Task(upid)
  }

  /** A store write that works puts the task's handle on record, whether or not evidence is on. */
  lemma PersistStoresTheHandle(s: Sys, tid: Tid)
    requires Inv(s) && Enabled(s, Step(tid, ApplyPersist(true)))
    ensures HasHandle(Do(s, Step(tid, ApplyPersist(true))), s.threads[tid].id, s.threads[tid].pc.upid)
  {
    assert OneThreadOk(s, tid);
  }

  /** It stays there while the record is in flight, through crashes and restarts too. */
  lemma {:induction false} HandleLasts(s: Sys, acts: seq<Action>, id: CsId, upid: string)
    requires Inv(s) && Runs(s, acts) && HasHandle(s, id, upid)
    ensures id in After(s, acts).sets && After(s, acts).sets[id].rec.plan == s.sets[id].rec.plan
    ensures After(s, acts).sets[id].rec.state == Applying ==> HasHandle(After(s, acts), id, upid)
    decreases |acts|
  {
    if acts != [] {
      StepKeeps(s, acts[0]);
      R.RecordsMoveForward(s, acts[0], id);
      var s1 := Do(s, acts[0]);
      if s1.sets[id].rec.state == Applying {
        assert CsOk(s1.sets[id], s1.tasks);
        HandleLasts(s1, acts[1..], id, upid);
      } else {
        R.SettledIsFinal(s1, acts[1..], id);
      }
    }
  }

  /** A restart whose recovery comes to this record, hears that its task has ended, and can write. */
  function Restarting(id: CsId, evidence: bool, clusters: set<string>, exit: string): seq<Action> {
    [Restart(evidence, clusters), RecoverProbe(id, Status(Some("stopped"), Some(exit))),
     RecoverReceipt(true), RecoverSettle(true)]
  }

  /** Recovery is about to look at this record, whose task has ended. */
  predicate AwaitsProbe(s: Sys, id: CsId, upid: string, exit: string) {
    && HasHandle(s, id, upid) && ParseUpid(upid).Some? && '/' !in s.sets[id].rec.plan.cluster
    && s.sets[id].rec.plan.cluster in s.clusters
    && s.phase.Recovering? && s.phase.cursor == Idle && id in s.phase.todo && s.phase.todo[id] == s.sets[id].rec
    && (s.sets[id].rec.plan.cluster, upid) in s.tasks && s.tasks[(s.sets[id].rec.plan.cluster, upid)] == Ended(exit)
  }

  lemma RestartAwaits(s: Sys, id: CsId, upid: string, evidence: bool, clusters: set<string>, exit: string)
    requires Inv(s) && s.phase == Down && HasHandle(s, id, upid)
    requires var cluster := s.sets[id].rec.plan.cluster;
      '/' !in cluster && cluster in clusters && (cluster, upid) in s.tasks && s.tasks[(cluster, upid)] == Ended(exit)
    ensures var up := Do(s, Restart(evidence, clusters));
      AwaitsProbe(up, id, upid, exit) && up.sets[id].rec == s.sets[id].rec && up.evidence == evidence
  {
    assert CsOk(s.sets[id], s.tasks);
  }

  lemma ProbeConcludes(s: Sys, id: CsId, upid: string, exit: string)
    requires AwaitsProbe(s, id, upid, exit)
    ensures var answer := Status(Some("stopped"), Some(exit));
      && Enabled(s, RecoverProbe(id, answer))
      && var s' := Do(s, RecoverProbe(id, answer));
         && s'.phase.Recovering? && s'.phase.cursor == Knows(id, s.sets[id].rec, exit == "OK")
         && s'.sets == s.sets && s'.evidence == s.evidence
  {
    var r := s.sets[id].rec;
    RoutesHomeExactlyWhenSlashFree(r.plan.cluster, r.plan.subject.Key());
    assert "stopped"[0] != "running"[0];
  }

  /** The probe, the receipt and the settling write. */
  lemma ProbedIsSettled(s: Sys, id: CsId, upid: string, exit: string)
    requires AwaitsProbe(s, id, upid, exit)
    ensures var acts := [RecoverProbe(id, Status(Some("stopped"), Some(exit))), RecoverReceipt(true), RecoverSettle(true)];
      && Runs(s, acts) && id in After(s, acts).sets && After(s, acts).sets[id].rec == Settled(s.sets[id].rec, exit == "OK")
      && (s.evidence ==> (exit == "OK") in After(s, acts).sets[id].receipts)
  {
    ProbeConcludes(s, id, upid, exit);
    var probe := RecoverProbe(id, Status(Some("stopped"), Some(exit)));
    SettlingRuns(Do(s, probe), id, s.sets[id].rec, exit == "OK");
    LongerRun(s, probe, [RecoverReceipt(true), RecoverSettle(true)]);
    assert [probe] + [RecoverReceipt(true), RecoverSettle(true)] == [probe, RecoverReceipt(true), RecoverSettle(true)];
  }

  lemma RestartRuns(s: Sys, id: CsId, upid: string, evidence: bool, clusters: set<string>, exit: string)
    requires Enabled(s, Restart(evidence, clusters)) && AwaitsProbe(Do(s, Restart(evidence, clusters)), id, upid, exit)
    ensures var acts := Restarting(id, evidence, clusters, exit);
      var up := Do(s, Restart(evidence, clusters));
      && Runs(s, acts) && id in After(s, acts).sets && After(s, acts).sets[id].rec == Settled(up.sets[id].rec, exit == "OK")
      && (up.evidence ==> (exit == "OK") in After(s, acts).sets[id].receipts)
  {
    ProbedIsSettled(Do(s, Restart(evidence, clusters)), id, upid, exit);
    var rest := [RecoverProbe(id, Status(Some("stopped"), Some(exit))), RecoverReceipt(true), RecoverSettle(true)];
    LongerRun(s, Restart(evidence, clusters), rest);
    assert [Restart(evidence, clusters)] + rest == Restarting(id, evidence, clusters, exit);
  }

  /** A server that is down and has such a record settles it by its task's exit status when it comes up again. */
  lemma RestartSettles(s: Sys, id: CsId, upid: string, evidence: bool, clusters: set<string>, exit: string)
    requires Inv(s) && s.phase == Down && HasHandle(s, id, upid)
    requires var cluster := s.sets[id].rec.plan.cluster;
      '/' !in cluster && cluster in clusters && (cluster, upid) in s.tasks && s.tasks[(cluster, upid)] == Ended(exit)
    ensures var acts := Restarting(id, evidence, clusters, exit);
      && Runs(s, acts) && id in After(s, acts).sets
      && After(s, acts).sets[id].rec == s.sets[id].rec.(state := if exit == "OK" then Applied else Failed, handle := None)
      && (evidence ==> (exit == "OK") in After(s, acts).sets[id].receipts)
  {
    RestartAwaits(s, id, upid, evidence, clusters, exit);
    RestartRuns(s, id, upid, evidence, clusters, exit);
  }

  lemma SettlingRuns(s: Sys, id: CsId, r: Record, ok: bool)
    requires s.phase.Recovering? && s.phase.cursor == Knows(id, r, ok) && id in s.sets
    ensures var acts := [RecoverReceipt(true), RecoverSettle(true)];
      && Runs(s, acts) && id in After(s, acts).sets && After(s, acts).sets[id].rec == Settled(r, ok)
      && (s.evidence ==> ok in After(s, acts).sets[id].receipts)
  {
    var s1 := Do(s, RecoverReceipt(true));
    OneStepRun(s1, RecoverSettle(true));
    LongerRun(s, RecoverReceipt(true), [RecoverSettle(true)]);
    assert [RecoverReceipt(true)] + [RecoverSettle(true)] == [RecoverReceipt(true), RecoverSettle(true)];
  }

  /**
   * Main result: in every run, once an apply has stored its handle, whatever happens
   * next and with whatever evidence setting before and after, if the server goes down
   * with the record still in flight and the task has ended, a restart settles it.
   */
  lemma PersistedWritesAreRecovered(
    s0: Sys, before: seq<Action>, tid: Tid, rest: seq<Action>, evidence: bool, clusters: set<string>, exit: string)
    requires R.Run(s0, before) && Enabled(After(s0, before), Step(tid, ApplyPersist(true)))
    requires Runs(Do(After(s0, before), Step(tid, ApplyPersist(true))), rest)
    requires var s := After(s0, before);
      var down := After(Do(s, Step(tid, ApplyPersist(true))), rest);
      var id, upid, cluster := s.threads[tid].id, s.threads[tid].pc.upid, s.sets[s.threads[tid].id].rec.plan.cluster;
      && down.phase == Down && id in down.sets && down.sets[id].rec.state == Applying
      && '/' !in cluster && cluster in clusters && (cluster, upid) in down.tasks && down.tasks[(cluster, upid)] == Ended(exit)
    ensures var s := After(s0, before);
      var down := After(Do(s, Step(tid, ApplyPersist(true))), rest);
      var id := s.threads[tid].id;
      var acts := Restarting(id, evidence, clusters, exit);
      && Runs(down, acts) && id in After(down, acts).sets
      && After(down, acts).sets[id].rec.state == if exit == "OK" then Applied else Failed
  {
    R.InvariantOfRun(s0, before);
    var s := After(s0, before);
    var id, upid := s.threads[tid].id, s.threads[tid].pc.upid;
    var s1 := Do(s, Step(tid, ApplyPersist(true)));
    PersistStoresTheHandle(s, tid);
    StepKeeps(s, Step(tid, ApplyPersist(true)));
    R.RecordsMoveForward(s, Step(tid, ApplyPersist(true)), id);
    HandleLasts(s1, rest, id, upid);
    R.InvariantAfter(s1, rest);
    RestartSettles(After(s1, rest), id, upid, evidence, clusters, exit);
  }
}
