/** What holds of every run of the apply protocol, however its steps interleave. */
module ApplyRuns {
  import opened Text
  import opened Tasks
  import opened Protection
  import opened ChangeSets
  import opened ApplyProtocol
  import opened ApplySafety
  import V = Vendor

  /** A run of a fresh server, with whatever clusters it and its restarts configure. */
  predicate Run(s0: Sys, acts: seq<Action>) { Init(s0) && Runs(s0, acts) }

  lemma {:induction false} InvariantAfter(s: Sys, acts: seq<Action>)
    requires Inv(s) && Runs(s, acts)
    ensures Inv(After(s, acts))
    decreases |acts|
  {
    if acts != [] {
      StepKeeps(s, acts[0]);
      InvariantAfter(Do(s, acts[0]), acts[1..]);
    }
  }

  lemma InvariantOfRun(s0: Sys, acts: seq<Action>)
    requires Run(s0, acts)
    ensures Inv(After(s0, acts))
  {
    InvariantAfter(s0, acts);
  }

  // ---- Honest records -------------------------------------------------------------------

  /** The vendor carried the write out: synchronously, or by a task that ended with "OK". */
  predicate VendorSucceeded(s: Sys, cs: Cs) {
    cs.fate.Done? || (cs.fate.Task? && TaskEnded(s, cs) && s.tasks[(cs.rec.plan.cluster, cs.fate.upid)].exit == "OK")
  }

  /** No write went out, or the vendor refused it, or its task ended with something other than "OK". */
  predicate NothingSucceeded(s: Sys, cs: Cs) {
    cs.sends == 0 || cs.fate.Rejected?
    || (cs.fate.Task? && TaskEnded(s, cs) && s.tasks[(cs.rec.plan.cluster, cs.fate.upid)].exit != "OK")
  }

  predicate TaskEnded(s: Sys, cs: Cs)
    requires cs.fate.Task?
  {
    var key := (cs.rec.plan.cluster, cs.fate.upid);
    key in s.tasks && s.tasks[key].Ended?
  }

  /**
   * No record of a cluster whose own name has no slash ever asserts an outcome
   * nobody observed, whatever else is configured; and whatever the name, nothing
   * goes out before the claim.
   */
  lemma RecordsAreHonest(s0: Sys, acts: seq<Action>, id: CsId)
    requires Run(s0, acts) && id in After(s0, acts).sets
    ensures var s := After(s0, acts);
      var cs := s.sets[id];
      && (Routable(cs.rec) ==>
          && (cs.rec.state == Applied ==> VendorSucceeded(s, cs))
          && (cs.rec.state == Failed ==> NothingSucceeded(s, cs))
          && (cs.sends > 0 && !VendorSucceeded(s, cs) && !NothingSucceeded(s, cs) ==> cs.rec.state == Applying))
      && (cs.rec.state == Planned || cs.rec.state == Approved ==> cs.sends == 0)
  {
    InvariantOfRun(s0, acts);
    assert CsOk(After(s0, acts).sets[id], After(s0, acts).tasks);
  }

  // ---- One write ------------------------------------------------------------------------

  predicate Sends(s: Sys, a: Action, id: CsId) {
    a.Step? && a.move.ApplySend? && a.tid in s.threads && s.threads[a.tid].id == id
  }

  /** The writes for `id` that the actions of a run put on the wire. */
  function CountSends(s: Sys, acts: seq<Action>, id: CsId): nat
    requires Runs(s, acts)
    decreases |acts|
  {
    if acts == [] then 0
    else (if Sends(s, acts[0], id) then 1 else 0) + CountSends(Do(s, acts[0]), acts[1..], id)
  }

  function SendsSoFar(s: Sys, id: CsId): nat { if id in s.sets then s.sets[id].sends else 0 }

  lemma MoveCountsSends(cs: Cs, t: Thread, tasks: TaskTable, evidence: bool, handleless: bool, m: Move)
    requires CanMove(cs, t, tasks, m)
    ensures MoveEffect(cs, t, tasks, evidence, handleless, m).cs.sends == cs.sends + if m.ApplySend? then 1 else 0
  {
  }

  lemma StepCountsSends(s: Sys, a: Action, id: CsId)
    requires Enabled(s, a)
    ensures SendsSoFar(Do(s, a), id) == SendsSoFar(s, id) + (if Sends(s, a, id) then 1 else 0)
  {
    if a.Step? {
      var t := s.threads[a.tid];
      MoveCountsSends(s.sets[t.id], t, s.tasks, s.evidence, s.handleless, a.move);
    }
  }

  lemma {:induction false} RunCountsSends(s: Sys, acts: seq<Action>, id: CsId)
    requires Runs(s, acts)
    ensures SendsSoFar(After(s, acts), id) == SendsSoFar(s, id) + CountSends(s, acts, id)
    decreases |acts|
  {
    if acts != [] {
      StepCountsSends(s, acts[0], id);
      RunCountsSends(Do(s, acts[0]), acts[1..], id);
    }
  }

  /** Racing applies, retries, crashes and recovery never put a second write on the wire. */
  lemma AtMostOneWrite(s0: Sys, acts: seq<Action>, id: CsId)
    requires Run(s0, acts)
    ensures CountSends(s0, acts, id) <= 1
  {
    InvariantOfRun(s0, acts);
    RunCountsSends(s0, acts, id);
    if id in After(s0, acts).sets { assert CsOk(After(s0, acts).sets[id], After(s0, acts).tasks); }
  }

  // ---- What stands behind every write -------------------------------------------------------

  /** Approved by a human who is not the planner, or planned by `plan_destroy` under lab mode. */
  predicate Warranted(r: Record) {
    || (r.approval.ApprovedBy? && r.approval.actor == Human && r.approval.who != r.plan.owner)
    || (r.approval.WaivedByLabMode? && r.plan.planner.PlanDestroy? && LabModeAlone(r.plan.planner.weighed))
  }

  /** Lab mode on, a protected verdict, and no waiver for the attempt. */
  predicate LabModeAlone(w: Weighed) { w.labMode && w.verdict.Protected? && !Covered(w.waivers, w.attempt) }

  lemma ProperMeansWarranted(r: Record)
    ensures ProperlyApproved(r) <==> Warranted(r)
  {
    if r.plan.planner.PlanDestroy? {
      var w := r.plan.planner.weighed;
      OverrideMeaning(w.verdict, w.waivers, w.labMode, w.attempt);
    }
  }

  /** At the moment of any write: the claim is held, approved, intended, unsent, and re-read unchanged. */
  lemma EveryWriteIsWarranted(s0: Sys, before: seq<Action>, tid: Tid)
    requires Run(s0, before) && Enabled(After(s0, before), Step(tid, ApplySend))
    ensures var s := After(s0, before);
      var t := s.threads[tid];
      var cs := s.sets[t.id];
      && cs.rec.state == Applying && cs.sends == 0
      && Warranted(cs.rec)
      && t.pc.seen == cs.rec.plan.preimage
      && (s.evidence ==> cs.intent)
      && (forall u :: u in s.threads && u != tid && s.threads[u].id == t.id ==> !Holds(s.threads[u]))
  {
    InvariantOfRun(s0, before);
    var s := After(s0, before);
    assert OneThreadOk(s, tid) && CsOk(s.sets[s.threads[tid].id], s.tasks);
    ProperMeansWarranted(s.sets[s.threads[tid].id].rec);
  }

  /** And afterwards the warrant can still be read off the record of every set that was sent. */
  lemma SentSetsAreWarranted(s0: Sys, acts: seq<Action>, id: CsId)
    requires Run(s0, acts) && id in After(s0, acts).sets && CountSends(s0, acts, id) > 0
    ensures Warranted(After(s0, acts).sets[id].rec)
    ensures After(s0, acts).sets[id].seen == Some(After(s0, acts).sets[id].rec.plan.preimage)
  {
    InvariantOfRun(s0, acts);
    RunCountsSends(s0, acts, id);
    assert CsOk(After(s0, acts).sets[id], After(s0, acts).tasks);
    ProperMeansWarranted(After(s0, acts).sets[id].rec);
  }

  // ---- Evidence ---------------------------------------------------------------------------------

  /** Receipts of one set agree with each other and with the vendor; an indeterminate answer has none. */
  lemma EvidenceIsTrue(s0: Sys, acts: seq<Action>, id: CsId)
    requires Run(s0, acts) && id in After(s0, acts).sets
    ensures var s := After(s0, acts);
      var cs := s.sets[id];
      && (Routable(cs.rec) ==>
          && (true in cs.receipts ==> VendorSucceeded(s, cs))
          && (false in cs.receipts ==> NothingSucceeded(s, cs))
          && !(true in cs.receipts && false in cs.receipts)
          && (cs.rec.state == Applied ==> false !in cs.receipts) && (cs.rec.state == Failed ==> true !in cs.receipts))
      && (cs.unknown ==> cs.receipts == {} && cs.rec.state == Applying)
      && (cs.audited ==> cs.intent)
  {
    InvariantOfRun(s0, acts);
    var cs := After(s0, acts).sets[id];
    assert CsOk(cs, After(s0, acts).tasks);
  }

  // ---- How records move -----------------------------------------------------------------------------

  predicate StateMoves(a: Action, from: State, to: State) {
    || from == to
    || (from == Planned && to == Approved && a.Step? && (a.move.ApproveCommit? || a.move.PlanWaive?))
    || (from == Approved && to == Applying && a.Step? && a.move.ApplyClaim?)
    || (from == Applying && to == Failed && a.Step? && a.move.ApplyAbandon?)
    || (from == Applying && (to == Applied || to == Failed) && ((a.Step? && a.move.ApplySettle?) || a.RecoverSettle?))
  }

  /** Forward only, through the claim, never rewriting the plan or a given approval, never losing a handle in flight. */
  predicate Moves(a: Action, from: Record, to: Record) {
    && StateMoves(a, from.state, to.state)
    && to.plan == from.plan
    && (from.state != Planned ==> to.approval == from.approval)
    && (from.handle.Some? && to.state == Applying ==> to.handle == from.handle)
    && (from.state == Applied || from.state == Failed ==> to == from)
  }

  lemma DraftMovesForward(cs: Cs, t: Thread, tasks: TaskTable, evidence: bool, tid: Tid, m: Move)
    requires CsOk(cs, tasks) && ThreadOk(cs, tasks, evidence, t) && CanMove(cs, t, tasks, m) && !Holds(t)
    ensures Moves(Step(tid, m), cs.rec, MoveEffect(cs, t, tasks, evidence, true, m).cs.rec)
  {
  }

  lemma HolderMovesForward(cs: Cs, t: Thread, tasks: TaskTable, evidence: bool, tid: Tid, m: Move)
    requires CsOk(cs, tasks) && ThreadOk(cs, tasks, evidence, t) && CanMove(cs, t, tasks, m) && Holds(t)
    ensures Moves(Step(tid, m), cs.rec, MoveEffect(cs, t, tasks, evidence, true, m).cs.rec)
  {
  }

  lemma HandlerMovesForward(s: Sys, tid: Tid, m: Move)
    requires Inv(s) && Enabled(s, Step(tid, m))
    ensures Moves(Step(tid, m), s.sets[s.threads[tid].id].rec, DoStep(s, tid, m).sets[s.threads[tid].id].rec)
  {
    assert OneThreadOk(s, tid);
    var t := s.threads[tid];
    var cs := s.sets[t.id];
    if Holds(t) { HolderMovesForward(cs, t, s.tasks, s.evidence, tid, m); }
    else { DraftMovesForward(cs, t, s.tasks, s.evidence, tid, m); }
  }

  lemma RecoveryMovesForward(s: Sys, ok: bool, id: CsId)
    requires Inv(s) && Enabled(s, RecoverSettle(ok)) && id in s.sets
    ensures Moves(RecoverSettle(ok), s.sets[id].rec, DoRecoverSettle(s, ok).sets[id].rec)
  {
    assert CsOk(s.sets[id], s.tasks);
  }

  /** Every step moves every record forward, or not at all. */
  lemma RecordsMoveForward(s: Sys, a: Action, id: CsId)
    requires Inv(s) && Enabled(s, a) && id in s.sets
    ensures id in Do(s, a).sets && Moves(a, s.sets[id].rec, Do(s, a).sets[id].rec)
  {
    if a.Step? { HandlerMovesForward(s, a.tid, a.move); }
    else if a.RecoverSettle? { RecoveryMovesForward(s, a.ok, id); }
    else if a.Restart? { StartupChangesNothing(s.sets[id], s.tasks); }
  }

  /** A settled record is final: no later step of any run touches it. */
  lemma {:induction false} SettledIsFinal(s: Sys, acts: seq<Action>, id: CsId)
    requires Inv(s) && Runs(s, acts)
    requires id in s.sets && (s.sets[id].rec.state == Applied || s.sets[id].rec.state == Failed)
    ensures id in After(s, acts).sets && After(s, acts).sets[id].rec == s.sets[id].rec
    decreases |acts|
  {
    if acts != [] {
      StepKeeps(s, acts[0]);
      RecordsMoveForward(s, acts[0], id);
      SettledIsFinal(Do(s, acts[0]), acts[1..], id);
    }
  }

  /** A record in flight with a handle can be recovered: the handle is its own task's, and its end settles it. */
  lemma HandleMakesRecoverable(s0: Sys, acts: seq<Action>, id: CsId, exit: string)
    requires Run(s0, acts) && id in After(s0, acts).sets
    requires var r := After(s0, acts).sets[id].rec;
      r.state == Applying && r.handle.Some? && Routable(r) && r.plan.cluster in After(s0, acts).clusters
    ensures var s := After(s0, acts);
      var r := s.sets[id].rec;
      && s.sets[id].fate == V.Task(r.handle.value) && (r.plan.cluster, r.handle.value) in s.tasks
      && RecoveryOutcome(r, s.clusters, Status(Some("stopped"), Some(exit))) == Some(exit == "OK")
  {
    InvariantOfRun(s0, acts);
    var cs := After(s0, acts).sets[id];
    assert CsOk(cs, After(s0, acts).tasks);
    RoutesHomeExactlyWhenSlashFree(cs.rec.plan.cluster, cs.rec.plan.subject.Key());
    assert "stopped"[0] != "running"[0];
  }

  // ---- Where the protocol would break -----------------------------------------------------------------

  /** Whatever clusters are configured and whatever they truthfully answer, recovery settles `r` as its own task ended. */
  predicate RecoversTruly(r: Record, clusters: set<string>, tasks: TaskTable, answer: Answer) {
    RecoveryOutcome(r, clusters, answer).Some? ==>
      var key := (r.plan.cluster, r.handle.GetOr(""));
      key in tasks && tasks[key].Ended? && RecoveryOutcome(r, clusters, answer).value == Succeeded(tasks[key].exit)
  }

  predicate AnswersTruly(r: Record, tasks: TaskTable, answer: Answer) {
    r.handle.Some? && DeviceCluster(r.plan.Device()).Some?
    ==> TruthfulTask(tasks, DeviceCluster(r.plan.Device()).value, r.handle.value, answer)
  }

  ghost predicate AlwaysRecoversTruly(r: Record) {
    forall clusters: set<string>, tasks: TaskTable, answer: Answer ::
      AnswersTruly(r, tasks, answer) ==> RecoversTruly(r, clusters, tasks, answer)
  }

  /** The cluster is recovered from the text before the first slash of `cluster/vmid`: right exactly when its name has none. */
  lemma RecoveryTrueExactlyWhenSlashFree(r: Record)
    requires r.state == Applying && r.handle.Some? && ParseUpid(r.handle.value).Some?
    ensures AlwaysRecoversTruly(r) <==> '/' !in r.plan.cluster
  {
    RoutesHomeExactlyWhenSlashFree(r.plan.cluster, r.plan.subject.Key());
    if '/' in r.plan.cluster { MisroutedAnswer(r); }
  }

  lemma MisroutedAnswer(r: Record)
    requires r.state == Applying && r.handle.Some? && ParseUpid(r.handle.value).Some? && '/' in r.plan.cluster
    ensures !AlwaysRecoversTruly(r)
  {
    DeviceHasSlash(r.plan.cluster, r.plan.subject.Key());
    RoutesHomeExactlyWhenSlashFree(r.plan.cluster, r.plan.subject.Key());
    var asked := DeviceCluster(r.plan.Device()).value;
    var tasks: TaskTable := map[(asked, r.handle.value) := Ended("OK"), (r.plan.cluster, r.handle.value) := Running];
    var answer := Status(Some("stopped"), Some("OK"));
    assert AnswersTruly(r, tasks, answer);
    assert !RecoversTruly(r, {asked}, tasks, answer);
  }

  lemma DeviceHasSlash(cluster: string, subject: string)
    ensures DeviceCluster(DeviceKey(cluster, subject)).Some?
  {
    var d := DeviceKey(cluster, subject);
    assert d[|cluster|] == '/';
    assert '/' in d;
  }

  /** Loading the store rewrites an unfinished claim exactly when it was made expecting a handle. */
  lemma OnlyHandlelessClaimsSurviveStartup(r: Record, handleless: bool)
    requires r.state == Approved && r.handle.None?
    ensures OnStartup(Claim(r, handleless)) == Claim(r, handleless) <==> handleless
    ensures !handleless ==> OnStartup(Claim(r, handleless)).state == Failed
  {
  }

  /** A send is one send more, in flight, on the text its handler compared, and audited exactly if evidence is on. */
  lemma SendIsRemembered(s: Sys, tid: Tid)
    requires Enabled(s, Step(tid, ApplySend))
    ensures var t := s.threads[tid];
      var cs, cs' := s.sets[t.id], Do(s, Step(tid, ApplySend)).sets[t.id];
      cs'.sends == cs.sends + 1 && cs'.fate.InFlight? && cs'.seen == Some(t.pc.seen) && cs'.audited == s.evidence
  {
  }

  /** Loading the store changes exactly the records in flight without a handle that were claimed expecting one, to `Failed`. */
  lemma StartupFailsExactly(r: Record)
    ensures OnStartup(r) == r <==> r.state != Applying || r.handle.Some? || r.handleless
    ensures OnStartup(r) == r || OnStartup(r) == r.(state := Failed)
  {
  }
}
