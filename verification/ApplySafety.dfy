/** The inductive invariant of the apply protocol, one lemma per kind of step. */
module ApplySafety {
  import opened Text
  import opened Tasks
  import opened ChangeSets
  import opened ApplyProtocol
  import V = Vendor

  // ---- What is true of one change set -----------------------------------------------

  /** The vendor's own outcome: `true` finished well, `false` never done. */
  predicate OutcomeIs(cs: Cs, tasks: TaskTable, ok: bool) {
    match cs.fate
    case Done => ok
    case Rejected => !ok
    case Unsent => !ok
    case Task(upid) =>
      var key := (cs.rec.plan.cluster, upid);
      key in tasks && tasks[key].Ended? && ok == Succeeded(tasks[key].exit)
    case _ => false
  }

  /** Nothing has happened to it yet. */
  predicate Untouched(cs: Cs) {
    cs.fate.Unsent? && cs.receipts == {} && cs.rec.handle.None? && !cs.unknown
  }

  /** Store and log assert nothing but the vendor's own outcome. */
  predicate Honest(cs: Cs, tasks: TaskTable) {
    && (cs.rec.state == Applied ==> OutcomeIs(cs, tasks, true))
    && (cs.rec.state == Failed ==> OutcomeIs(cs, tasks, false))
    && (true in cs.receipts ==> OutcomeIs(cs, tasks, true))
    && (false in cs.receipts ==> OutcomeIs(cs, tasks, false))
  }

  /** Recovery finds the cluster of this very record. */
  predicate Routable(r: Record) { '/' !in r.plan.cluster }

  predicate CsOk(cs: Cs, tasks: TaskTable) {
    var r := cs.rec;
    && r.plan.Proper()
    && (Routable(r) ==> Honest(cs, tasks))
    && (!r.preview ==> r.state == Planned)
    && (r.state != Planned ==> ProperlyApproved(r))
    && (r.state == Planned || r.state == Approved ==> Untouched(cs))
    && (r.state == Applying ==> r.handleless)
    && (r.handle.Some? ==> r.state == Applying && cs.fate == V.Task(r.handle.value) && ParseUpid(r.handle.value).Some?)
    && (cs.fate.Task? ==> (r.plan.cluster, cs.fate.upid) in tasks)
    && cs.sends == (if cs.fate.Unsent? then 0 else 1)
    && (cs.sends == 1 ==> cs.seen == Some(r.plan.preimage))
    && (cs.audited ==> cs.intent && cs.sends == 1)
    && (cs.unknown ==> r.state == Applying && cs.receipts == {} && r.handle.None?)
  }

  // ---- What is true of one handler ----------------------------------------------------

  /** The handler owns the approval: it alone may act on the set. */
  predicate Holds(t: Thread) { t.Applies? && !t.pc.Read? && !t.pc.Verified? }

  /** The plan call that still has to write the preview. */
  predicate Drafts(t: Thread) { t.Planning? && t.stage != Previewed }

  predicate HolderOk(cs: Cs, tasks: TaskTable, evidence: bool, r: Record, pc: Pc) {
    && cs.rec.state == Applying && cs.rec.preview && r == cs.rec.(handle := None) && !cs.unknown
    && match pc
       case Claimed(seen) => Untouched(cs) && seen == r.plan.preimage
       case Abandon => Untouched(cs)
       case Cleared(seen) => Untouched(cs) && seen == r.plan.preimage && (evidence ==> cs.intent)
       case Sent => !cs.fate.Unsent? && cs.receipts == {} && cs.rec.handle.None?
       case Handle(upid) => cs.fate == V.Task(upid) && ParseUpid(upid).Some? && cs.receipts == {}
       case Polling(upid) => cs.fate == V.Task(upid) && ParseUpid(upid).Some? && cs.receipts == {}
       case Outcome(ok) => OutcomeIs(cs, tasks, ok)
       case Settle(ok) => OutcomeIs(cs, tasks, ok)
       case _ => false
  }

  predicate ThreadOk(cs: Cs, tasks: TaskTable, evidence: bool, t: Thread) {
    match t
    case Planning(_, r, Created) => r == NewRecord(r.plan) && cs.rec == r
    case Planning(_, r, ReadBack) => r == NewRecord(r.plan) && cs.rec == r
    case Planning(_, r, Previewed) => cs.rec.preview && cs.rec.plan == r.plan
    case Approving(_, _, _) => cs.rec.preview
    case Applies(_, r, pc) =>
      && cs.rec.preview && r.plan == cs.rec.plan
      && (pc.Verified? ==> pc.seen == r.plan.preimage)
      && (Holds(t) ==> HolderOk(cs, tasks, evidence, r, pc))
  }

  // ---- The whole system -----------------------------------------------------------------

  predicate SetsOk(s: Sys) { forall id :: id in s.sets ==> CsOk(s.sets[id], s.tasks) }

  predicate OneThreadOk(s: Sys, tid: Tid)
    requires tid in s.threads
  {
    s.threads[tid].id in s.sets && ThreadOk(s.sets[s.threads[tid].id], s.tasks, s.evidence, s.threads[tid])
  }

  predicate ThreadsOk(s: Sys) { forall tid :: tid in s.threads ==> OneThreadOk(s, tid) }

  predicate Apart(t: Thread, u: Thread) { !(Holds(t) && Holds(u)) && !(Drafts(t) && Drafts(u)) }

  /** No two handlers hold one approval, and no two plan calls draft one record. */
  predicate Exclusive(s: Sys) {
    forall t, u :: t in s.threads && u in s.threads && t != u && s.threads[t].id == s.threads[u].id ==>
      Apart(s.threads[t], s.threads[u])
  }

  predicate CursorOk(s: Sys, c: Cursor) {
    match c
    case Idle => true
    case Knows(id, r, ok) => InHand(s, id, r, ok)
    case Noted(id, r, ok) => InHand(s, id, r, ok)
  }

  predicate InHand(s: Sys, id: CsId, r: Record, ok: bool) {
    && id in s.sets && s.sets[id].rec == r && r.state == Applying && r.handle.Some?
    && (Routable(r) ==> OutcomeIs(s.sets[id], s.tasks, ok))
  }

  predicate RecoveryOk(s: Sys) {
    && (s.phase != Serving ==> s.threads == map[])
    && (s.phase.Recovering? ==>
        && (forall id :: id in s.phase.todo ==> id in s.sets && s.sets[id].rec == s.phase.todo[id])
        && (!s.phase.cursor.Idle? ==> s.phase.cursor.id !in s.phase.todo)
        && CursorOk(s, s.phase.cursor))
  }

  predicate Inv(s: Sys) {
    s.handleless && SetsOk(s) && ThreadsOk(s) && Exclusive(s) && RecoveryOk(s)
  }

  // ---- One handler's step, without the rest of the system ---------------------------

  predicate Earned(t: Thread, tasks: TaskTable, evidence: bool, e: Effect) {
    && CsOk(e.cs, tasks) && (e.next.Some? ==> e.next.value.id == t.id && ThreadOk(e.cs, tasks, evidence, e.next.value))
  }

  /** Moves of a plan or an approval. */
  lemma DraftingMoveEarned(cs: Cs, t: Thread, tasks: TaskTable, evidence: bool, m: Move)
    requires CsOk(cs, tasks) && ThreadOk(cs, tasks, evidence, t) && CanMove(cs, t, tasks, m) && !t.Applies?
    ensures Earned(t, tasks, evidence, MoveEffect(cs, t, tasks, evidence, true, m))
  {
  }

  /** Moves of an apply up to the write. */
  lemma ClaimingMoveEarned(cs: Cs, t: Thread, tasks: TaskTable, evidence: bool, m: Move)
    requires CsOk(cs, tasks) && ThreadOk(cs, tasks, evidence, t) && CanMove(cs, t, tasks, m)
    requires t.Applies? && (t.pc.Read? || t.pc.Verified? || t.pc.Claimed? || t.pc.Abandon? || t.pc.Cleared?)
    ensures Earned(t, tasks, evidence, MoveEffect(cs, t, tasks, evidence, true, m))
  {
  }

  /** Reading the reply: nothing is concluded that the vendor's reply does not support. */
  lemma ReceiveEarned(cs: Cs, t: Thread, tasks: TaskTable, evidence: bool, reply: V.Reply)
    requires CsOk(cs, tasks) && ThreadOk(cs, tasks, evidence, t) && CanMove(cs, t, tasks, ApplyReceive(reply))
    ensures Earned(t, tasks, evidence, MoveEffect(cs, t, tasks, evidence, true, ApplyReceive(reply)))
  {
    V.VerdictIsEarned(t.rec.plan.op, cs.fate, reply);
  }

  /** Following a task. */
  lemma FollowingMoveEarned(cs: Cs, t: Thread, tasks: TaskTable, evidence: bool, m: Move)
    requires CsOk(cs, tasks) && ThreadOk(cs, tasks, evidence, t) && CanMove(cs, t, tasks, m)
    requires t.Applies? && (t.pc.Handle? || t.pc.Polling?)
    ensures Earned(t, tasks, evidence, MoveEffect(cs, t, tasks, evidence, true, m))
  {
  }

  /** Concluding. */
  lemma SettlingMoveEarned(cs: Cs, t: Thread, tasks: TaskTable, evidence: bool, m: Move)
    requires CsOk(cs, tasks) && ThreadOk(cs, tasks, evidence, t) && CanMove(cs, t, tasks, m)
    requires t.Applies? && (t.pc.Outcome? || t.pc.Settle?)
    ensures Earned(t, tasks, evidence, MoveEffect(cs, t, tasks, evidence, true, m))
  {
  }

  lemma MoveEarned(cs: Cs, t: Thread, tasks: TaskTable, evidence: bool, m: Move)
    requires CsOk(cs, tasks) && ThreadOk(cs, tasks, evidence, t) && CanMove(cs, t, tasks, m)
    ensures Earned(t, tasks, evidence, MoveEffect(cs, t, tasks, evidence, true, m))
  {
    if !t.Applies? { DraftingMoveEarned(cs, t, tasks, evidence, m); }
    else if t.pc.Read? || t.pc.Verified? || t.pc.Claimed? || t.pc.Abandon? || t.pc.Cleared? {
      ClaimingMoveEarned(cs, t, tasks, evidence, m);
    } else if m.ApplyReceive? {
      ReceiveEarned(cs, t, tasks, evidence, m.reply);
    } else if t.pc.Handle? || t.pc.Polling? {
      FollowingMoveEarned(cs, t, tasks, evidence, m);
    } else {
      SettlingMoveEarned(cs, t, tasks, evidence, m);
    }
  }

  /** A bystander needs only the preview and the plan. */
  lemma BystanderKeeps(cs: Cs, cs': Cs, tasks: TaskTable, evidence: bool, u: Thread)
    requires ThreadOk(cs, tasks, evidence, u) && !Holds(u) && !Drafts(u)
    requires cs'.rec.plan == cs.rec.plan && (cs.rec.preview ==> cs'.rec.preview)
    ensures ThreadOk(cs', tasks, evidence, u)
  {
  }

  /** What can change the record or make a holder happens where nobody else holds or drafts. */
  lemma MoverIsAlone(cs: Cs, t: Thread, u: Thread, tasks: TaskTable, evidence: bool, m: Move)
    requires CsOk(cs, tasks) && ThreadOk(cs, tasks, evidence, t) && ThreadOk(cs, tasks, evidence, u) && Apart(t, u)
    requires CanMove(cs, t, tasks, m)
    requires Holds(t) || Drafts(t) || (m.PlanWaive? && m.ok) || (m.ApproveCommit? && m.ok) || (m.ApplyClaim? && m.ok)
    ensures !Holds(u) && !Drafts(u)
  {
  }

  /** A move leaves every other handler of the same change set where it was. */
  lemma MoveSparesNeighbour(cs: Cs, t: Thread, u: Thread, tasks: TaskTable, evidence: bool, m: Move)
    requires CsOk(cs, tasks) && ThreadOk(cs, tasks, evidence, t) && ThreadOk(cs, tasks, evidence, u) && Apart(t, u)
    requires CanMove(cs, t, tasks, m)
    ensures var e := MoveEffect(cs, t, tasks, evidence, true, m);
      ThreadOk(e.cs, tasks, evidence, u) && (e.next.Some? ==> Apart(e.next.value, u))
  {
    var e := MoveEffect(cs, t, tasks, evidence, true, m);
    if Holds(t) || Drafts(t) || (m.PlanWaive? && m.ok) || (m.ApproveCommit? && m.ok) || (m.ApplyClaim? && m.ok) {
      MoverIsAlone(cs, t, u, tasks, evidence, m);
      BystanderKeeps(cs, e.cs, tasks, evidence, u);
    } else {
      assert e.cs == cs;
    }
  }

  // ---- Framing ---------------------------------------------------------------------------

  /** Tasks are only added, and an ended task keeps its exit status. */
  predicate TasksGrow(a: TaskTable, b: TaskTable) {
    forall k :: k in a ==> k in b && (a[k].Ended? ==> b[k] == a[k])
  }

  lemma GrowthKeepsSet(cs: Cs, a: TaskTable, b: TaskTable)
    requires CsOk(cs, a) && TasksGrow(a, b)
    ensures CsOk(cs, b)
  {
  }

  lemma GrowthKeepsThread(cs: Cs, a: TaskTable, b: TaskTable, evidence: bool, t: Thread)
    requires ThreadOk(cs, a, evidence, t) && TasksGrow(a, b)
    ensures ThreadOk(cs, b, evidence, t)
  {
  }

  /** Committing an effect asks for the set, the thread, and its neighbours on the same set. */
  lemma CommitKeeps(s: Sys, tid: Tid, id: CsId, e: Effect)
    requires Inv(s) && s.phase == Serving && CsOk(e.cs, s.tasks)
    requires e.next.Some? ==> e.next.value.id == id && ThreadOk(e.cs, s.tasks, s.evidence, e.next.value)
    requires forall u :: u in s.threads && u != tid && s.threads[u].id == id ==>
      ThreadOk(e.cs, s.tasks, s.evidence, s.threads[u]) && (e.next.Some? ==> Apart(e.next.value, s.threads[u]))
    ensures Inv(Commit(s, tid, id, e))
  {
    var s' := Commit(s, tid, id, e);
    forall u | u in s'.threads ensures OneThreadOk(s', u) {
      if u != tid { assert OneThreadOk(s, u); }
    }
  }

  lemma StepMoveKeeps(s: Sys, tid: Tid, m: Move)
    requires Inv(s) && Enabled(s, Step(tid, m))
    ensures Inv(DoStep(s, tid, m))
  {
    assert OneThreadOk(s, tid);
    var t := s.threads[tid];
    var cs := s.sets[t.id];
    MoveEarned(cs, t, s.tasks, s.evidence, m);
    var e := MoveEffect(cs, t, s.tasks, s.evidence, s.handleless, m);
    forall u | u in s.threads && u != tid && s.threads[u].id == t.id
      ensures ThreadOk(e.cs, s.tasks, s.evidence, s.threads[u]) && (e.next.Some? ==> Apart(e.next.value, s.threads[u]))
    {
      assert OneThreadOk(s, u);
      MoveSparesNeighbour(cs, t, s.threads[u], s.tasks, s.evidence, m);
    }
    CommitKeeps(s, tid, t.id, e);
  }

  lemma PlanCreateKeeps(s: Sys, tid: Tid, id: CsId, plan: Plan)
    requires Inv(s) && Enabled(s, PlanCreate(tid, id, plan))
    ensures Inv(Do(s, PlanCreate(tid, id, plan)))
  {
    forall u | u in s.threads ensures s.threads[u].id != id { assert OneThreadOk(s, u); }
    CommitKeeps(s, tid, id, Effect(FreshSet(plan), Some(Planning(id, NewRecord(plan), Created))));
  }

  /** A handler that has only read its record joins without disturbing anyone. */
  lemma JoinKeeps(s: Sys, tid: Tid, t: Thread)
    requires Inv(s) && s.phase == Serving && tid !in s.threads && t.id in s.sets && s.sets[t.id].rec.preview
    requires t.Approving? || t == Applies(t.id, s.sets[t.id].rec, Read)
    ensures Inv(Commit(s, tid, t.id, Effect(s.sets[t.id], Some(t))))
  {
    forall u | u in s.threads && s.threads[u].id == t.id
      ensures ThreadOk(s.sets[t.id], s.tasks, s.evidence, s.threads[u])
    {
      assert OneThreadOk(s, u);
    }
    CommitKeeps(s, tid, t.id, Effect(s.sets[t.id], Some(t)));
  }

  lemma VanishKeeps(s: Sys, tid: Tid)
    requires Inv(s)
    ensures Inv(s.(threads := s.threads - {tid}))
  {
    var s' := s.(threads := s.threads - {tid});
    forall u | u in s'.threads ensures OneThreadOk(s', u) { assert OneThreadOk(s, u); }
  }

  // ---- The world ------------------------------------------------------------------------------------

  lemma WorldStepKeeps(s: Sys, s': Sys)
    requires Inv(s) && TasksGrow(s.tasks, s'.tasks) && s' == s.(tasks := s'.tasks)
    ensures Inv(s')
  {
    forall id | id in s'.sets ensures CsOk(s'.sets[id], s'.tasks) { GrowthKeepsSet(s.sets[id], s.tasks, s'.tasks); }
    forall u | u in s'.threads ensures OneThreadOk(s', u) {
      assert OneThreadOk(s, u);
      GrowthKeepsThread(s.sets[s.threads[u].id], s.tasks, s'.tasks, s.evidence, s.threads[u]);
    }
  }

  /** A write decided late touches neither the record nor the log, only what the vendor did. */
  lemma DecisionKeepsThread(cs: Cs, cs': Cs, a: TaskTable, b: TaskTable, evidence: bool, t: Thread)
    requires ThreadOk(cs, a, evidence, t) && cs.fate.InFlight? && !cs'.fate.Unsent? && cs' == cs.(fate := cs'.fate)
    ensures ThreadOk(cs', b, evidence, t)
  {
  }

  lemma DecisionKeepsNeighbours(s: Sys, id: CsId, fate: V.Fate, u: Tid)
    requires CanDecide(s, id, fate) && u in s.threads && OneThreadOk(s, u)
    requires TasksGrow(s.tasks, DoVendorDecides(s, id, fate).tasks)
    ensures OneThreadOk(DoVendorDecides(s, id, fate), u)
  {
    var s' := DoVendorDecides(s, id, fate);
    var t := s.threads[u];
    if t.id == id {
      DecisionKeepsThread(s.sets[id], s'.sets[id], s.tasks, s'.tasks, s.evidence, t);
    } else {
      GrowthKeepsThread(s.sets[t.id], s.tasks, s'.tasks, s.evidence, t);
    }
  }

  lemma DecisionKeepsSet(cs: Cs, fate: V.Fate, a: TaskTable, b: TaskTable)
    requires CsOk(cs, a) && TasksGrow(a, b) && cs.fate.InFlight? && !fate.Unsent? && !fate.InFlight?
    requires fate.Task? ==> (cs.rec.plan.cluster, fate.upid) in b
    ensures CsOk(cs.(fate := fate), b)
  {
  }

  lemma VendorDecidesKeeps(s: Sys, id: CsId, fate: V.Fate)
    requires Inv(s) && Enabled(s, VendorDecides(id, fate))
    ensures Inv(Do(s, VendorDecides(id, fate)))
  {
    var s' := DoVendorDecides(s, id, fate);
    assert TasksGrow(s.tasks, s'.tasks);
    DecisionKeepsSet(s.sets[id], fate, s.tasks, s'.tasks);
    forall i | i in s'.sets && i != id ensures CsOk(s'.sets[i], s'.tasks) {
      GrowthKeepsSet(s.sets[i], s.tasks, s'.tasks);
    }
    forall u | u in s'.threads ensures OneThreadOk(s', u) {
      assert OneThreadOk(s, u);
      DecisionKeepsNeighbours(s, id, fate, u);
    }
  }

  // ---- Crash and recovery ------------------------------------------------------------------------------

  /** Loading the store changes nothing: no record of this server expects a handle. */
  lemma StartupChangesNothing(cs: Cs, tasks: TaskTable)
    requires CsOk(cs, tasks)
    ensures OnStartup(cs.rec) == cs.rec
  {
  }

  lemma RestartKeeps(s: Sys, evidence: bool, clusters: set<string>)
    requires Inv(s) && Enabled(s, Restart(evidence, clusters))
    ensures Inv(Do(s, Restart(evidence, clusters)))
  {
    var s' := Do(s, Restart(evidence, clusters));
    forall id | id in s.sets ensures s'.sets[id] == s.sets[id] { StartupChangesNothing(s.sets[id], s.tasks); }
  }

  /** What recovery concludes from a truthful answer is the vendor's outcome of that very write. */
  lemma RecoveryConcludesTruly(s: Sys, id: CsId, answer: Answer)
    requires Inv(s) && Enabled(s, RecoverProbe(id, answer))
    requires RecoveryOutcome(s.phase.todo[id], s.clusters, answer).Some?
    ensures InHand(s, id, s.phase.todo[id], RecoveryOutcome(s.phase.todo[id], s.clusters, answer).value)
  {
    var r := s.phase.todo[id];
    assert CsOk(s.sets[id], s.tasks);
    RoutesHomeExactlyWhenSlashFree(r.plan.cluster, r.plan.subject.Key());
  }

  lemma RecoverProbeKeeps(s: Sys, id: CsId, answer: Answer)
    requires Inv(s) && Enabled(s, RecoverProbe(id, answer))
    ensures Inv(Do(s, RecoverProbe(id, answer)))
  {
    if RecoveryOutcome(s.phase.todo[id], s.clusters, answer).Some? { RecoveryConcludesTruly(s, id, answer); }
  }

  /** A receipt for what recovery concluded, or a record settled by it, is honest if the conclusion is. */
  lemma ConclusionKeepsSet(cs: Cs, tasks: TaskTable, ok: bool)
    requires CsOk(cs, tasks) && cs.rec.state == Applying && cs.rec.handle.Some?
    requires Routable(cs.rec) ==> OutcomeIs(cs, tasks, ok)
    ensures CsOk(cs.(receipts := cs.receipts + {ok}), tasks)
    ensures CsOk(cs.(rec := Settled(cs.rec, ok)), tasks)
  {
  }

  lemma RecoverReceiptKeeps(s: Sys, ok: bool)
    requires Inv(s) && Enabled(s, RecoverReceipt(ok))
    ensures Inv(Do(s, RecoverReceipt(ok)))
  {
    var c := s.phase.cursor;
    assert CsOk(s.sets[c.id], s.tasks);
    ConclusionKeepsSet(s.sets[c.id], s.tasks, c.ok);
  }

  lemma RecoverSettleKeeps(s: Sys, ok: bool)
    requires Inv(s) && Enabled(s, RecoverSettle(ok))
    ensures Inv(Do(s, RecoverSettle(ok)))
  {
    var c := s.phase.cursor;
    assert CsOk(s.sets[c.id], s.tasks);
    ConclusionKeepsSet(s.sets[c.id], s.tasks, c.ok);
  }

  // ---- Every step ------------------------------------------------------------------------------------------

  lemma StepKeeps(s: Sys, a: Action)
    requires Inv(s) && Enabled(s, a)
    ensures Inv(Do(s, a))
  {
    match a {
      case PlanCreate(tid, id, plan) => PlanCreateKeeps(s, tid, id, plan);
      case ApproveRead(tid, id, who, actor) => JoinKeeps(s, tid, Approving(id, who, actor));
      case ApplyRead(tid, id) => JoinKeeps(s, tid, Applies(id, s.sets[id].rec, Read));
      case Step(tid, m) => StepMoveKeeps(s, tid, m);
      case Vanish(tid) => VanishKeeps(s, tid);
      case VendorDecides(id, fate) => VendorDecidesKeeps(s, id, fate);
      case OtherTask(cluster, upid) => WorldStepKeeps(s, Do(s, a));
      case TaskEnds(cluster, upid, exit) => WorldStepKeeps(s, Do(s, a));
      case Crash =>
      case Restart(evidence, clusters) => RestartKeeps(s, evidence, clusters);
      case RecoverProbe(id, answer) => RecoverProbeKeeps(s, id, answer);
      case RecoverReceipt(ok) => RecoverReceiptKeeps(s, ok);
      case RecoverSettle(ok) => RecoverSettleKeeps(s, ok);
      case Serve =>
    }
  }
}
