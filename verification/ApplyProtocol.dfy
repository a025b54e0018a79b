/**
 * The life of change sets as a step machine: racing handlers, a store and an
 * evidence log whose writes can fail, a network that delivers late or never, a
 * vendor that runs tasks, and crashes between any two steps.
 */
module ApplyProtocol {
  import opened Text
  import opened Tasks
  import opened ChangeSets
  import V = Vendor

  type Tid = nat

  /**
   * One change set, wherever its facts live: `rec` in the coordinator's store;
   * `sends` and `fate` with the vendor; `intent` and `receipts` in the evidence
   * log. `audited`, `unknown` and `seen` are history: whether the write went out
   * with evidence on, whether its answer was indeterminate, and the fingerprint
   * text its sender had re-read.
   */
  datatype Cs = Cs(
    rec: Record, sends: nat, fate: V.Fate, intent: bool, receipts: set<bool>,
    audited: bool, unknown: bool, seen: Option<string>)

  datatype TaskState = Running | Ended(exit: string)

  /** Every task of every cluster, by cluster name and handle. */
  type TaskTable = map<(string, string), TaskState>

  datatype PlanStage = Created | ReadBack | Previewed

  /** Where an apply handler stands; `Claimed` up to `Settle` hold the approval. */
  datatype Pc =
    | Read
    | Verified(seen: string)
    | Claimed(seen: string)
    | Abandon
    | Cleared(seen: string)
    | Sent
    | Handle(upid: string)
    | Polling(upid: string)
    | Outcome(ok: bool)
    | Settle(ok: bool)

  /** A running handler; `rec` is its own copy of the record. */
  datatype Thread =
    | Planning(id: CsId, rec: Record, stage: PlanStage)
    | Approving(id: CsId, who: string, actor: Actor)
    | Applies(id: CsId, rec: Record, pc: Pc)

  /** Startup recovery: the records still to look at, and the one in hand. */
  datatype Cursor = Idle | Knows(id: CsId, rec: Record, ok: bool) | Noted(id: CsId, rec: Record, ok: bool)

  datatype Phase = Serving | Recovering(todo: map<CsId, Record>, cursor: Cursor) | Down

  datatype Sys = Sys(
    phase: Phase, evidence: bool, handleless: bool, clusters: set<string>,
    sets: map<CsId, Cs>, threads: map<Tid, Thread>, tasks: TaskTable)

  /** One step of a running handler. `ok` says whether its store or evidence write succeeded. */
  datatype Move =
    | PlanReadBack
    | PlanPreview(ok: bool)
    | PlanWaive(ok: bool)
    | ApproveCommit(ok: bool)
    | ApplyVerify(now: string)
    | ApplyClaim(ok: bool)
    | ApplyIntent(ok: bool)
    | ApplyAbandon(ok: bool)
    | ApplyLocalError(error: V.ProxmoxError)
    | ApplySend
    | ApplyReceive(reply: V.Reply)
    | ApplyPersist(ok: bool)
    | ApplyPoll(answer: Answer)
    | ApplyReceipt(ok: bool)
    | ApplySettle(ok: bool)

  datatype Action =
    | PlanCreate(tid: Tid, id: CsId, plan: Plan)
    | ApproveRead(tid: Tid, id: CsId, who: string, actor: Actor)
    | ApplyRead(tid: Tid, id: CsId)
    | Step(tid: Tid, move: Move)
    | Vanish(tid: Tid)
    | VendorDecides(id: CsId, fate: V.Fate)
    | OtherTask(cluster: string, upid: string)
    | TaskEnds(cluster: string, upid: string, exit: string)
    | Crash
    | Restart(evidence: bool, clusters: set<string>)
    | RecoverProbe(id: CsId, answer: Answer)
    | RecoverReceipt(ok: bool)
    | RecoverSettle(ok: bool)
    | Serve

  // ---- One handler's step, seen from its thread and its change set ------------------

  /** An exit status a cluster reports for a task that is not running is that task's. */
  predicate TruthfulTask(tasks: TaskTable, cluster: string, upid: string, a: Answer) {
    a.Status? && a.exit.Some? && a.status != Some("running")
    ==> (cluster, upid) in tasks && tasks[(cluster, upid)] == Ended(a.exit.value)
  }

  predicate CanMove(cs: Cs, t: Thread, tasks: TaskTable, m: Move) {
    match m
    case PlanReadBack => t.Planning? && t.stage == Created
    case PlanPreview(_) => t.Planning? && t.stage == ReadBack
    case PlanWaive(ok) =>
      && t.Planning? && t.stage == Previewed
      && t.rec.plan.planner.PlanDestroy? && t.rec.plan.planner.weighed.Decision().LabMode?
      && (ok ==> CanWaive(cs.rec))
    case ApproveCommit(ok) => t.Approving? && (ok ==> CanApprove(cs.rec, t.who, t.actor))
    case ApplyVerify(_) => t.Applies? && t.pc.Read?
    case ApplyClaim(ok) => t.Applies? && t.pc.Verified? && (ok ==> CanClaim(cs.rec))
    case ApplyIntent(_) => t.Applies? && t.pc.Claimed?
    case ApplyAbandon(_) => t.Applies? && t.pc.Abandon?
    case ApplyLocalError(_) => t.Applies? && t.pc.Cleared?
    case ApplySend => t.Applies? && t.pc.Cleared?
    case ApplyReceive(reply) => t.Applies? && t.pc.Sent? && V.Truthful(t.rec.plan.op, cs.fate, reply)
    case ApplyPersist(_) => t.Applies? && t.pc.Handle?
    case ApplyPoll(answer) =>
      t.Applies? && t.pc.Polling? && TruthfulTask(tasks, t.rec.plan.cluster, t.pc.upid, answer)
    case ApplyReceipt(_) => t.Applies? && t.pc.Outcome?
    case ApplySettle(_) => t.Applies? && t.pc.Settle?
  }

  /** The change set and the thread after a move; a handler that returned has no thread. */
  datatype Effect = Effect(cs: Cs, next: Option<Thread>)

  /** A store write by a handler: the whole record, or nothing when it fails. */
  function Store(cs: Cs, rec: Record, ok: bool): Cs { if ok then cs.(rec := rec) else cs }

  function At(t: Thread, pc: Pc): Option<Thread>
    requires t.Applies?
  {
    Some(t.(pc := pc))
  }

  function MoveEffect(cs: Cs, t: Thread, tasks: TaskTable, evidence: bool, handleless: bool, m: Move): Effect
    requires CanMove(cs, t, tasks, m)
  {
    match m
    // The plan re-reads its record, to write the preview into it.
    case PlanReadBack => Effect(cs, Some(Planning(t.id, cs.rec, ReadBack)))
    case PlanPreview(ok) =>
      if ok then Effect(cs.(rec := t.rec.(preview := true)), Some(t.(stage := Previewed))) else Effect(cs, None)
    case PlanWaive(ok) => Effect(Store(cs, Waive(cs.rec), ok), None)
    case ApproveCommit(ok) => Effect(Store(cs, Approve(cs.rec, t.who, t.actor), ok), None)
    // The drift check against what the handler re-read, then the state check on its copy.
    case ApplyVerify(now) =>
      Effect(cs, if now == t.rec.plan.preimage && t.rec.state == Approved then At(t, Verified(now)) else None)
    case ApplyClaim(ok) =>
      var claimed := Claim(cs.rec, handleless);
      if ok then Effect(cs.(rec := claimed), Some(Applies(t.id, claimed, Claimed(t.pc.seen)))) else Effect(cs, None)
    case ApplyIntent(ok) =>
      if !evidence then Effect(cs, At(t, Cleared(t.pc.seen)))
      else if ok then Effect(cs.(intent := true), At(t, Cleared(t.pc.seen)))
      else Effect(cs, At(t, Abandon))
    case ApplyAbandon(ok) => Effect(Store(cs, t.rec.(state := Failed), ok), None)
    // The send failed before anything went out.
    case ApplyLocalError(error) =>
      if V.Definitive(error) then Effect(cs, At(t, Outcome(false))) else Effect(cs.(unknown := true), None)
    case ApplySend =>
      Effect(
        cs.(sends := cs.sends + 1, fate := V.InFlight, audited := evidence, seen := Some(t.pc.seen)), At(t, Sent))
    case ApplyReceive(reply) =>
      (match V.Classify(t.rec.plan.op, reply)
       case Refused => Effect(cs, At(t, Outcome(false)))
       case Synchronous => Effect(cs, At(t, Outcome(true)))
       case Started(upid) => Effect(cs, At(t, Handle(upid)))
       case Indeterminate => Effect(cs.(unknown := true), None))
    // The handle is attached before polling; a failed write is logged and polling goes on.
    case ApplyPersist(ok) => Effect(Store(cs, t.rec.(handle := Some(t.pc.upid)), ok), At(t, Polling(t.pc.upid)))
    case ApplyPoll(answer) =>
      (match PollOnce(answer)
       case Pending => Effect(cs, Some(t))
       case Ready(exit) => Effect(cs, At(t, Outcome(Succeeded(exit))))
       case Broken => Effect(cs, None))
    case ApplyReceipt(ok) =>
      Effect(if evidence && ok then cs.(receipts := cs.receipts + {t.pc.ok}) else cs, At(t, Settle(t.pc.ok)))
    case ApplySettle(ok) => Effect(Store(cs, Settled(t.rec, t.pc.ok), ok), None)
  }

  // ---- When a step can happen ----------------------------------------------------------

  predicate Runnable(s: Sys, tid: Tid) { s.phase == Serving && tid in s.threads && s.threads[tid].id in s.sets }

  predicate CanProbe(s: Sys, id: CsId, answer: Answer) {
    && s.phase.Recovering? && s.phase.cursor == Idle && id in s.phase.todo
    && var r := s.phase.todo[id];
       r.handle.Some? && DeviceCluster(r.plan.Device()).Some?
       ==> TruthfulTask(s.tasks, DeviceCluster(r.plan.Device()).value, r.handle.value, answer)
  }

  predicate CanDecide(s: Sys, id: CsId, fate: V.Fate) {
    && id in s.sets && s.sets[id].fate.InFlight? && !fate.Unsent? && !fate.InFlight?
    && (fate.Task? ==> (s.sets[id].rec.plan.cluster, fate.upid) !in s.tasks)
  }

  predicate Enabled(s: Sys, a: Action) {
    match a
    case PlanCreate(tid, id, plan) =>
      s.phase == Serving && tid !in s.threads && id !in s.sets && plan.cluster in s.clusters && plan.Proper()
    case ApproveRead(tid, id, _, _) => s.phase == Serving && tid !in s.threads && id in s.sets && s.sets[id].rec.preview
    case ApplyRead(tid, id) => s.phase == Serving && tid !in s.threads && id in s.sets && s.sets[id].rec.preview
    case Step(tid, move) => Runnable(s, tid) && CanMove(s.sets[s.threads[tid].id], s.threads[tid], s.tasks, move)
    case Vanish(tid) => tid in s.threads
    case VendorDecides(id, fate) => CanDecide(s, id, fate)
    case OtherTask(cluster, upid) => (cluster, upid) !in s.tasks
    case TaskEnds(cluster, upid, _) => (cluster, upid) in s.tasks && s.tasks[(cluster, upid)].Running?
    case Crash => true
    case Restart(_, _) => s.phase == Down
    case RecoverProbe(id, answer) => CanProbe(s, id, answer)
    case RecoverReceipt(_) => s.phase.Recovering? && s.phase.cursor.Knows? && s.phase.cursor.id in s.sets
    case RecoverSettle(_) => s.phase.Recovering? && s.phase.cursor.Noted? && s.phase.cursor.id in s.sets
    case Serve => s.phase.Recovering? && s.phase.cursor == Idle && s.phase.todo == map[]
  }

  // ---- What a step does -------------------------------------------------------------------

  /** The one way a handler changes the system: its own change set and its own thread. */
  function Commit(s: Sys, tid: Tid, id: CsId, e: Effect): Sys {
    s.(sets := s.sets[id := e.cs],
       threads := if e.next.Some? then s.threads[tid := e.next.value] else s.threads - {tid})
  }

  function FreshSet(plan: Plan): Cs { Cs(NewRecord(plan), 0, V.Unsent, false, {}, false, false, None) }

  function Do(s: Sys, a: Action): Sys
    requires Enabled(s, a)
  {
    match a
    case PlanCreate(tid, id, plan) =>
      Commit(s, tid, id, Effect(FreshSet(plan), Some(Planning(id, NewRecord(plan), Created))))
    case ApproveRead(tid, id, who, actor) => Commit(s, tid, id, Effect(s.sets[id], Some(Approving(id, who, actor))))
    case ApplyRead(tid, id) => Commit(s, tid, id, Effect(s.sets[id], Some(Applies(id, s.sets[id].rec, Read))))
    case Step(tid, m) => DoStep(s, tid, m)
    case Vanish(tid) => s.(threads := s.threads - {tid})
    case VendorDecides(id, fate) => DoVendorDecides(s, id, fate)
    case OtherTask(cluster, upid) => s.(tasks := s.tasks[(cluster, upid) := Running])
    case TaskEnds(cluster, upid, exit) => s.(tasks := s.tasks[(cluster, upid) := Ended(exit)])
    case Crash => s.(phase := Down, threads := map[])
    case Restart(evidence, clusters) => DoRestart(s, evidence, clusters)
    case RecoverProbe(id, answer) => DoRecoverProbe(s, id, answer)
    case RecoverReceipt(ok) => DoRecoverReceipt(s, ok)
    case RecoverSettle(ok) => DoRecoverSettle(s, ok)
    case Serve => s.(phase := Serving)
  }

  function DoStep(s: Sys, tid: Tid, m: Move): Sys
    requires Enabled(s, Step(tid, m))
  {
    var t := s.threads[tid];
    Commit(s, tid, t.id, MoveEffect(s.sets[t.id], t, s.tasks, s.evidence, s.handleless, m))
  }

  function DoVendorDecides(s: Sys, id: CsId, fate: V.Fate): Sys
    requires id in s.sets
  {
    s.(sets := s.sets[id := s.sets[id].(fate := fate)],
       tasks := if fate.Task? then s.tasks[(s.sets[id].rec.plan.cluster, fate.upid) := Running] else s.tasks)
  }

  function DoRestart(s: Sys, evidence: bool, clusters: set<string>): Sys {
    var sets := map id | id in s.sets :: s.sets[id].(rec := OnStartup(s.sets[id].rec));
    var todo := map id | id in s.sets :: OnStartup(s.sets[id].rec);
    s.(evidence := evidence, clusters := clusters, threads := map[], sets := sets, phase := Recovering(todo, Idle))
  }

  function DoRecoverProbe(s: Sys, id: CsId, answer: Answer): Sys
    requires s.phase.Recovering? && id in s.phase.todo
  {
    var r, rest := s.phase.todo[id], s.phase.todo - {id};
    match RecoveryOutcome(r, s.clusters, answer)
    case None => s.(phase := Recovering(rest, Idle))
    case Some(ok) => s.(phase := Recovering(rest, Knows(id, r, ok)))
  }

  function DoRecoverReceipt(s: Sys, ok: bool): Sys
    requires s.phase.Recovering? && s.phase.cursor.Knows? && s.phase.cursor.id in s.sets
  {
    var c := s.phase.cursor;
    var cs := s.sets[c.id];
    s.(phase := Recovering(s.phase.todo, Noted(c.id, c.rec, c.ok)),
       sets := s.sets[c.id := if s.evidence && ok then cs.(receipts := cs.receipts + {c.ok}) else cs])
  }

  function DoRecoverSettle(s: Sys, ok: bool): Sys
    requires s.phase.Recovering? && s.phase.cursor.Noted? && s.phase.cursor.id in s.sets
  {
    var c := s.phase.cursor;
    s.(phase := Recovering(s.phase.todo, Idle),
       sets := s.sets[c.id := Store(s.sets[c.id], Settled(c.rec, c.ok), ok)])
  }

  // ---- Runs ---------------------------------------------------------------------------

  /** A fresh server; every claim it makes passes `ApplyHandle::None`. */
  predicate Init(s: Sys) {
    s.phase == Serving && s.handleless && s.sets == map[] && s.threads == map[] && s.tasks == map[]
  }

  /** `acts` can be taken one after another from `s`. */
  predicate Runs(s: Sys, acts: seq<Action>)
    decreases |acts|
  {
    acts == [] || (Enabled(s, acts[0]) && Runs(Do(s, acts[0]), acts[1..]))
  }

  function After(s: Sys, acts: seq<Action>): Sys
    requires Runs(s, acts)
    decreases |acts|
  {
    if acts == [] then s else After(Do(s, acts[0]), acts[1..])
  }

  /** A run followed by an enabled step is a run. */
  lemma {:induction false} RunExtends(s: Sys, acts: seq<Action>, a: Action)
    requires Runs(s, acts) && Enabled(After(s, acts), a)
    ensures Runs(s, acts + [a]) && After(s, acts + [a]) == Do(After(s, acts), a)
    decreases |acts|
  {
    if acts == [] {
      assert Runs(Do(s, a), []);
      assert [a][1..] == [];
      assert acts + [a] == [a];
    } else {
      RunExtends(Do(s, acts[0]), acts[1..], a);
      assert (acts + [a])[1..] == acts[1..] + [a];
      assert (acts + [a])[0] == acts[0];
    }
  }
}
