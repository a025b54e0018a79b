/** The apply handler as the program it is, run step by step on the shared system while others run too. */
module ApplyHandler {
  import opened Text
  import opened Tasks
  import opened Guests
  import G = Grants
  import opened Authorization
  import opened Fingerprint
  import opened GuestReads
  import opened GuestCalls
  import opened GuestCache
  import opened GuestIndexObject
  import opened HandlerReads
  import opened ChangeSets
  import opened ApplyProtocol
  import opened ApplySafety
  import R = ApplyRuns
  import V = Vendor

  /** A step other tasks, the cluster or the network can take while handler `tid` waits. */
  predicate Foreign(a: Action, tid: Tid) {
    match a
    case Step(t, _) => t != tid
    case Vanish(t) => t != tid
    case Crash => false
    case _ => true
  }

  lemma ForeignStepSpares(s: Sys, a: Action, tid: Tid)
    requires s.phase == Serving && tid in s.threads && Enabled(s, a) && Foreign(a, tid)
    ensures var s' := Do(s, a);
      s'.phase == Serving && s'.evidence == s.evidence && tid in s'.threads && s'.threads[tid] == s.threads[tid]
  {
  }

  lemma MoveAddsReceipts(cs: Cs, t: Thread, tasks: TaskTable, evidence: bool, handleless: bool, m: Move)
    requires CanMove(cs, t, tasks, m)
    ensures cs.receipts <= MoveEffect(cs, t, tasks, evidence, handleless, m).cs.receipts
  {
  }

  /** A receipt that was written stays written. */
  lemma ReceiptsOnlyGrow(s: Sys, a: Action, id: CsId)
    requires Enabled(s, a) && id in s.sets
    ensures id in Do(s, a).sets && s.sets[id].receipts <= Do(s, a).sets[id].receipts
  {
    if a.Step? {
      var t := s.threads[a.tid];
      MoveAddsReceipts(s.sets[t.id], t, s.tasks, s.evidence, s.handleless, a.move);
    }
  }

  predicate Closed(r: Record) { r.state == State.Applied || r.state == State.Failed }

  /** A handle on record stays there until the record is settled, and settled records stay settled. */
  predicate HandleLasts(r: Record, r': Record) {
    && (r.handle.Some? && r.state == State.Applying ==> Closed(r') || (r'.state == State.Applying && r'.handle == r.handle))
    && (Closed(r) ==> r'.state == r.state)
  }

  predicate Decided(fate: V.Fate) { !fate.Unsent? && !fate.InFlight? }

  /** What no step takes back: the plan, the handle of a write in flight, its fate once decided, and receipts. */
  predicate SetLasts(cs: Cs, cs': Cs) {
    && cs'.rec.plan == cs.rec.plan && cs.receipts <= cs'.receipts
    && HandleLasts(cs.rec, cs'.rec) && (Decided(cs.fate) ==> cs'.fate == cs.fate)
  }

  predicate Lasts(s: Sys, s': Sys) { forall id :: id in s.sets ==> id in s'.sets && SetLasts(s.sets[id], s'.sets[id]) }

  lemma MoveKeepsFate(cs: Cs, t: Thread, tasks: TaskTable, evidence: bool, m: Move)
    requires ThreadOk(cs, tasks, evidence, t) && CanMove(cs, t, tasks, m) && Decided(cs.fate)
    ensures MoveEffect(cs, t, tasks, evidence, true, m).cs.fate == cs.fate
  {
  }

  /** The vendor decides once. */
  lemma FateLasts(s: Sys, a: Action, id: CsId)
    requires Inv(s) && Enabled(s, a) && id in s.sets && Decided(s.sets[id].fate)
    ensures id in Do(s, a).sets && Do(s, a).sets[id].fate == s.sets[id].fate
  {
    if a.Step? {
      assert OneThreadOk(s, a.tid);
      var t := s.threads[a.tid];
      if t.id == id { MoveKeepsFate(s.sets[id], t, s.tasks, s.evidence, a.move); }
    }
  }

  lemma EveryStepLasts(s: Sys, a: Action)
    requires Inv(s) && Enabled(s, a)
    ensures Lasts(s, Do(s, a))
  {
    forall id | id in s.sets ensures id in Do(s, a).sets && SetLasts(s.sets[id], Do(s, a).sets[id]) {
      ReceiptsOnlyGrow(s, a, id);
      R.RecordsMoveForward(s, a, id);
      if Decided(s.sets[id].fate) { FateLasts(s, a, id); }
    }
  }

  lemma LastingComposes(s: Sys, t: Sys, u: Sys)
    requires Lasts(s, t) && Lasts(t, u)
    ensures Lasts(s, u)
  {
    forall id | id in s.sets ensures id in u.sets && SetLasts(s.sets[id], u.sets[id]) {
      assert SetLasts(s.sets[id], t.sets[id]) && SetLasts(t.sets[id], u.sets[id]);
    }
  }

  /** What the tool tells its caller. `Unknown` stands for every answer that leaves the outcome open. */
  datatype ToolAnswer = NothingSent | Reported(ok: bool) | Unknown

  /** Everything the handler meets: which writes work, what the cluster answers, who runs in between. */
  datatype Environment = Environment(
    meanwhile: seq<seq<Action>>, claims: bool, intentWrites: bool, abandons: bool, localError: Option<V.ProxmoxError>,
    reply: V.Reply, persists: bool, answers: seq<Answer>, receiptWrites: bool, settles: bool)

  /** Who runs in the `i`-th pause of a handler. */
  function Gap(meanwhile: seq<seq<Action>>, i: nat): seq<Action> { if i < |meanwhile| then meanwhile[i] else [] }

  /** What a call's two reads answer after its own invalidation. */
  function AnewReads(cache: Cache, ttl: nat, asked: Call, look: Look): (Resolved, Resolved) {
    BothReads(Dropped(cache, asked.cluster, look), ttl, asked.cluster, asked.vmid, look)
  }

  /**
   * The record is approved, the caller is entitled to the recorded operation on what
   * its two reads answered, configuration and operation checks are there, and the
   * guest found is the one planned.
   */
  ghost predicate Passes(
    rec: Record, asked: Call, first: Resolved, second: Resolved, config: Option<Config>, dispatches: bool)
    requires rec.plan.planner.PlanDestroy?
  {
    && rec.state == State.Approved
    && Entitled(asked.(op := rec.plan.planner.weighed.attempt.op, tier := G.Destructive), first, second)
    && config.Some? && dispatches
    && rec.plan.preimage == GuestPreimage(StateOf(asked.cluster, second.guest, config.value))
  }

  /** What lets this caller's write out: a record with a preview, planned for this device, that passes. */
  ghost predicate MayApply(
    cache: Cache, ttl: nat, asked: Call, look: Look, config: Option<Config>, dispatches: bool, rec: Record)
  {
    var (first, second) := AnewReads(cache, ttl, asked, look);
    && rec.preview && rec.plan.planner.PlanDestroy? && rec.plan.Device() == asked.cluster + ['/'] + Print(asked.vmid)
    && Passes(rec, asked, first, second, config, dispatches)
  }

  /** Nobody interferes, and claim and intent can be written. */
  predicate Undisturbed(env: Environment) { env.meanwhile == [] && env.claims && env.intentWrites }

  /** From `from` on, `tid` put nothing on the wire. */
  ghost predicate Silent(history: seq<Action>, from: nat, tid: Tid) {
    forall i :: from <= i < |history| ==> history[i] != Step(tid, ApplySend)
  }

  class Server {
    ghost const start: Sys
    ghost var history: seq<Action>
    var sys: Sys

    /** The state is what some run of the protocol leads to. */
    ghost predicate Valid()
      reads this
    {
      R.Run(start, history) && sys == After(start, history)
    }

    constructor (evidence: bool, clusters: set<string>)
      ensures Valid() && history == [] && sys.phase == Serving && sys.sets == map[]
    {
      start := Sys(Serving, evidence, true, clusters, map[], map[], map[]);
      history := [];
      sys := Sys(Serving, evidence, true, clusters, map[], map[], map[]);
    }

    method Act(a: Action)
      requires Valid() && Enabled(sys, a)
      modifies this
      ensures Valid() && history == old(history) + [a] && sys == Do(old(sys), a)
    {
      RunExtends(start, history, a);
      sys := Do(sys, a);
      history := history + [a];
    }

    /** The others run while `tid` waits; what they cannot do is skipped. */
    method Meanwhile(tid: Tid, others: seq<Action>)
      requires Valid() && sys.phase == Serving && tid in sys.threads
      modifies this
      ensures Valid() && sys.phase == Serving && tid in sys.threads && sys.threads[tid] == old(sys.threads[tid])
      ensures old(history) <= history && Silent(history, old(|history|), tid)
      ensures sys.evidence == old(sys.evidence)
      ensures Lasts(old(sys), sys)
      ensures others == [] ==> sys == old(sys)
    {
      for i := 0 to |others|
        invariant Valid() && sys.phase == Serving && tid in sys.threads && sys.threads[tid] == old(sys.threads[tid])
        invariant old(history) <= history && Silent(history, old(|history|), tid)
        invariant sys.evidence == old(sys.evidence)
        invariant Lasts(old(sys), sys)
        invariant i == 0 ==> sys == old(sys)
      {
        if Foreign(others[i], tid) && Enabled(sys, others[i]) {
          ForeignStepSpares(sys, others[i], tid);
          R.InvariantOfRun(start, history);
          EveryStepLasts(sys, others[i]);
          LastingComposes(old(sys), sys, Do(sys, others[i]));
          Act(others[i]);
        }
      }
    }

    /** One step of handler `tid` itself. */
    method Move(tid: Tid, m: Move)
      requires Valid() && Runnable(sys, tid) && CanMove(sys.sets[sys.threads[tid].id], sys.threads[tid], sys.tasks, m)
      modifies this
      ensures Valid() && history == old(history) + [Step(tid, m)]
      ensures sys.phase == Serving && sys.tasks == old(sys.tasks) && sys.evidence == old(sys.evidence)
      ensures var t := old(sys.threads[tid]);
        var e := MoveEffect(old(sys.sets[t.id]), t, old(sys.tasks), old(sys.evidence), old(sys.handleless), m);
        && t.id in sys.sets && sys.sets[t.id] == e.cs
        && (tid in sys.threads <==> e.next.Some?) && (tid in sys.threads ==> sys.threads[tid] == e.next.value)
    {
      Act(Step(tid, m));
    }

    /** What the invariant of the run says of handler `tid` and its change set now. */
    lemma Standing(tid: Tid)
      requires Valid() && tid in sys.threads
      ensures var t := sys.threads[tid];
        t.id in sys.sets && CsOk(sys.sets[t.id], sys.tasks) && ThreadOk(sys.sets[t.id], sys.tasks, sys.evidence, t)
    {
      R.InvariantOfRun(start, history);
      assert OneThreadOk(sys, tid);
    }

    ghost predicate At(tid: Tid, id: CsId)
      reads this
    {
      Valid() && sys.phase == Serving && tid in sys.threads && sys.threads[tid].id == id && Holds(sys.threads[tid])
    }

    /** The handler's copy of the record; others run before it is looked at. */
    method ReadRecord(tid: Tid, id: CsId, env: Environment)
      requires Valid() && sys.phase == Serving && tid !in sys.threads && id in sys.sets && sys.sets[id].rec.preview
      modifies this
      ensures Valid() && old(history) <= history && Silent(history, old(|history|), tid)
      ensures sys.phase == Serving && tid in sys.threads && sys.threads[tid] == Applies(id, old(sys.sets)[id].rec, Read)
      ensures env.meanwhile == [] ==> id in sys.sets && sys.sets[id] == old(sys.sets)[id]
    {
      Act(ApplyRead(tid, id));
      Meanwhile(tid, Gap(env.meanwhile, 0));
    }

    /** The record can be applied by this tool at this device. */
    predicate Addressed(id: CsId, call: Call)
      reads this
    {
      && id in sys.sets && sys.sets[id].rec.preview && sys.sets[id].rec.plan.planner.PlanDestroy?
      && sys.sets[id].rec.plan.Device() == DeviceKey(call.cluster, OfGuest(call.vmid).Key())
    }

    /**
     * Read the record; drop the cached listing and read the guest twice; pass the
     * gate; compare the guest found with the one planned; check the state and what
     * the operation needs.
     */
    method Verify(
      index: GuestIndex, tid: Tid, id: CsId, asked: Call, look: Look, config: Option<Config>, dispatches: bool, env: Environment)
      returns (goes: bool)
      requires Valid() && sys.phase == Serving && tid !in sys.threads
      modifies this, index
      ensures Valid() && old(history) <= history && Silent(history, old(|history|), tid)
      ensures goes ==> sys.phase == Serving && tid in sys.threads && sys.threads[tid].id == id
      ensures goes ==> sys.threads[tid].Applies? && sys.threads[tid].pc.Verified?
      ensures goes ==> id in old(sys.sets)
      ensures goes ==> MayApply(old(index.View()), index.ttl, asked, look, config, dispatches, old(sys.sets)[id].rec)
      ensures env.meanwhile == [] && id in old(sys.sets) ==>
        (MayApply(old(index.View()), index.ttl, asked, look, config, dispatches, old(sys.sets)[id].rec) ==>
           goes && id in sys.sets && sys.sets[id].rec == old(sys.sets)[id].rec)
      ensures ReadAfterBump(old(index.View()), index.ttl, asked.cluster, asked.vmid, look,
                            AnewReads(old(index.View()), index.ttl, asked, look).1)
    {
      ReadsComeAfterTheBump(index.View(), index.ttl, asked.cluster, asked.vmid, look);
      if !Addressed(id, asked) { return false; }
      ReadRecord(tid, id, env);
      var first, second := ReadAnew(index, asked.cluster, asked.vmid, look);
      goes := Judge(tid, id, asked, first, second, config, dispatches);
    }

    /** Whether this caller's write may go out, given its copy of the record and what it has read. */
    method Judge(
      tid: Tid, id: CsId, asked: Call, first: Resolved, second: Resolved, config: Option<Config>, dispatches: bool)
      returns (goes: bool)
      requires Valid() && sys.phase == Serving && tid in sys.threads && sys.threads[tid].id == id
      requires sys.threads[tid].Applies? && sys.threads[tid].pc.Read? && sys.threads[tid].rec.plan.planner.PlanDestroy?
      modifies this
      ensures Valid() && old(history) <= history && Silent(history, old(|history|), tid)
      ensures id in old(sys.sets) && id in sys.sets && sys.sets[id] == old(sys.sets)[id]
      ensures goes <==> Passes(old(sys.threads[tid]).rec, asked, first, second, config, dispatches)
      ensures goes ==> sys.phase == Serving && tid in sys.threads && sys.threads[tid].id == id
      ensures goes ==> sys.threads[tid].Applies? && sys.threads[tid].pc.Verified?
    {
      var op := RecordedOp(sys.threads[tid].rec.plan);
      CallOfMeans(asked, op, first, second, config, dispatches);
      goes := Decide(tid, id, CallOf(asked, op, first, second, config, dispatches));
    }

    /** What the handler makes of its reads: the gate, the drift check, and the operation's own checks. */
    method Decide(tid: Tid, id: CsId, g: GuestCall) returns (goes: bool)
      requires Valid() && sys.phase == Serving && tid in sys.threads && sys.threads[tid].id == id
      requires sys.threads[tid].Applies? && sys.threads[tid].pc.Read? && g.call.tier == G.Destructive
      modifies this
      ensures Valid() && old(history) <= history && Silent(history, old(|history|), tid)
      ensures id in old(sys.sets) && id in sys.sets && sys.sets[id] == old(sys.sets)[id]
      ensures var rec := old(sys.threads[tid]).rec;
        goes <==> Admits(g) && rec.plan.preimage == GuestPreimage(Seen(g)) && rec.state == State.Approved
      ensures goes ==> sys.phase == Serving && tid in sys.threads && sys.threads[tid].id == id
      ensures goes ==> sys.threads[tid].Applies? && sys.threads[tid].pc.Verified?
    {
      Standing(tid);
      var gate := Gate(g.call, g.first, g.second);
      if gate.Refused? || g.config.None? {
        Act(Vanish(tid));
        return false;
      }
      goes := Compare(tid, id, StateOf(g.call.cluster, gate.guest, g.config.value));
      if goes && !g.dispatches {
        Act(Vanish(tid));
        goes := false;
      }
    }

    /** The drift check. */
    method Compare(tid: Tid, id: CsId, found: GuestState) returns (goes: bool)
      requires Valid() && sys.phase == Serving && tid in sys.threads && sys.threads[tid].id == id
      requires sys.threads[tid].Applies? && sys.threads[tid].pc.Read?
      modifies this
      ensures Valid() && old(history) <= history && Silent(history, old(|history|), tid)
      ensures id in old(sys.sets) && id in sys.sets && sys.sets[id] == old(sys.sets)[id]
      ensures var rec := old(sys.threads[tid]).rec;
        goes <==> rec.plan.preimage == GuestPreimage(found) && rec.state == Approved
      ensures goes ==> sys.phase == Serving && tid in sys.threads
      ensures goes ==> sys.threads[tid] == old(sys.threads[tid]).(pc := Verified(GuestPreimage(found)))
    {
      Standing(tid);
      var text := GuestText(found);
      Move(tid, ApplyVerify(text));
      goes := tid in sys.threads;
    }

    /** The atomic claim: at most one caller passes. */
    method SpendClaim(tid: Tid, id: CsId, env: Environment) returns (wins: bool)
      requires Valid() && sys.phase == Serving && tid in sys.threads && sys.threads[tid].id == id
      requires sys.threads[tid].Applies? && sys.threads[tid].pc.Verified?
      modifies this
      ensures Valid() && old(history) <= history && Silent(history, old(|history|), tid)
      ensures wins ==> At(tid, id) && sys.threads[tid].pc.Claimed?
      ensures env.meanwhile == [] && env.claims && id in old(sys.sets) && CanClaim(old(sys.sets)[id].rec) ==> wins
    {
      Meanwhile(tid, Gap(env.meanwhile, 1));
      Standing(tid);
      wins := env.claims && CanClaim(sys.sets[id].rec);
      Move(tid, ApplyClaim(wins));
    }

    /** Claim the record, then write the intent; a lost claim or intent ends the call. */
    method SpendApproval(tid: Tid, id: CsId, env: Environment) returns (goes: bool)
      requires Valid() && sys.phase == Serving && tid in sys.threads && sys.threads[tid].id == id
      requires sys.threads[tid].Applies? && sys.threads[tid].pc.Verified?
      modifies this
      ensures Valid() && old(history) <= history && Silent(history, old(|history|), tid)
      ensures goes ==> At(tid, id) && sys.threads[tid].pc.Cleared?
      ensures Undisturbed(env) && id in old(sys.sets) && CanClaim(old(sys.sets)[id].rec) ==> goes
    {
      goes := SpendClaim(tid, id, env);
      if !goes { return; }
      Meanwhile(tid, Gap(env.meanwhile, 2));
      Standing(tid);
      Move(tid, ApplyIntent(env.intentWrites));
      if sys.threads[tid].pc.Abandon? { Abandon(tid, id, env); return false; }
    }

    /** No intent on record, nothing sent: settle the claim as failed, if the store lets us. */
    method Abandon(tid: Tid, id: CsId, env: Environment)
      requires Valid() && sys.phase == Serving && tid in sys.threads && sys.threads[tid].id == id
      requires sys.threads[tid].Applies? && sys.threads[tid].pc.Abandon?
      modifies this
      ensures Valid() && old(history) <= history && Silent(history, old(|history|), tid)
      ensures id in sys.sets && sys.sets[id].sends == 0
      ensures sys.sets[id].rec.state == if env.abandons then Failed else State.Applying
    {
      Meanwhile(tid, Gap(env.meanwhile, 3));
      Standing(tid);
      Move(tid, ApplyAbandon(env.abandons));
    }

    /** What the record and the log say while the outcome is open. */
    predicate Open(id: CsId)
      reads this
    {
      id in sys.sets && sys.sets[id].rec.state == Applying && sys.sets[id].receipts == {}
    }

    /** The one write and the reading of its reply. */
    method SendOnce(tid: Tid, id: CsId, env: Environment) returns (goes: bool)
      requires At(tid, id) && sys.threads[tid].pc.Cleared?
      modifies this
      ensures Valid() && old(history) <= history && !Silent(history, old(|history|), tid)
      ensures goes ==> At(tid, id) && id in sys.sets && (sys.threads[tid].pc.Handle? || sys.threads[tid].pc.Outcome?)
      ensures goes && sys.threads[tid].pc.Handle? ==> sys.sets[id].fate == V.Task(sys.threads[tid].pc.upid)
      ensures goes && sys.threads[tid].pc.Outcome? ==> sys.sets[id].fate.Rejected? || sys.sets[id].fate.Done?
      ensures !goes ==> Open(id) && sys.sets[id].unknown
    {
      Standing(tid);
      Move(tid, ApplySend);
      assert history[old(|history|)] == Step(tid, ApplySend);
      Meanwhile(tid, Gap(env.meanwhile, 5));
      goes := Receive(tid, id, env);
      assert history[old(|history|)] == Step(tid, ApplySend);
    }

    /** What arrives: only what the cluster can truthfully say; anything else stands for silence. */
    function Heard(tid: Tid, env: Environment): V.Reply
      requires Runnable(sys, tid) && sys.threads[tid].Applies?
      reads this
    {
      if V.Truthful(sys.threads[tid].rec.plan.op, sys.sets[sys.threads[tid].id].fate, env.reply) then env.reply else V.NoResponse
    }

    /** The handler goes where the reply's verdict sends it, and gives up on no other. */
    method Receive(tid: Tid, id: CsId, env: Environment) returns (goes: bool)
      requires At(tid, id) && Runnable(sys, tid) && sys.threads[tid].pc.Sent?
      modifies this
      ensures Valid() && old(history) <= history
      ensures goes ==> At(tid, id) && id in sys.sets
      ensures match V.Classify(old(sys.threads[tid]).rec.plan.op, old(Heard(tid, env)))
        case Refused => goes && sys.threads[tid].pc == Outcome(false) && sys.sets[id].fate.Rejected?
        case Synchronous => goes && sys.threads[tid].pc == Outcome(true) && sys.sets[id].fate.Done?
        case Started(upid) => goes && sys.threads[tid].pc == Handle(upid) && sys.sets[id].fate == V.Task(upid)
        case Indeterminate => !goes && Open(id) && sys.sets[id].unknown
    {
      Standing(tid);
      V.VerdictIsEarned(sys.threads[tid].rec.plan.op, sys.sets[id].fate, Heard(tid, env));
      Move(tid, ApplyReceive(Heard(tid, env)));
      goes := tid in sys.threads;
    }

    /** The send fails before anything goes out; an error that says nothing about the cluster leaves the outcome open. */
    method FailLocally(tid: Tid, id: CsId, error: V.ProxmoxError) returns (goes: bool)
      requires At(tid, id) && sys.threads[tid].pc.Cleared?
      modifies this
      ensures Valid() && old(history) <= history && Silent(history, old(|history|), tid)
      ensures goes <==> !(error.Http? || error.Malformed? || error.Config? || error.UnknownCluster?)
      ensures goes ==> At(tid, id) && sys.threads[tid].pc == Outcome(false) && id in sys.sets
      ensures !goes ==> Open(id) && sys.sets[id].unknown
    {
      Standing(tid);
      Move(tid, ApplyLocalError(error));
      goes := tid in sys.threads;
    }

    /** A task's handle that arrived and could be stored is on record while the record is in flight. */
    predicate Kept(id: CsId, env: Environment)
      reads this
    {
      && id in sys.sets
      && (sys.sets[id].rec.state == Applying && sys.sets[id].fate.Task? && !sys.sets[id].unknown
          && env.persists && env.localError.None? ==>
            sys.sets[id].rec.handle == Some(sys.sets[id].fate.upid))
    }

    /** Handler `tid` follows `upid`, with its handle on record if it could be stored. */
    predicate Follows(tid: Tid, id: CsId, upid: string, persists: bool)
      reads this
    {
      && tid in sys.threads && sys.threads[tid].id == id && sys.threads[tid].Applies? && id in sys.sets
      && sys.sets[id].fate == V.Task(upid) && (persists ==> sys.sets[id].rec.handle == Some(upid))
    }

    /** Store the handle. */
    method Persist(tid: Tid, id: CsId, env: Environment)
      requires At(tid, id) && sys.threads[tid].pc.Handle?
      modifies this
      ensures Valid() && old(history) <= history && At(tid, id)
      ensures sys.threads[tid].pc == Polling(old(sys.threads[tid].pc.upid))
      ensures Follows(tid, id, old(sys.threads[tid].pc.upid), env.persists)
    {
      Meanwhile(tid, Gap(env.meanwhile, 6));
      Standing(tid);
      Move(tid, ApplyPersist(env.persists));
    }

    /** Store the handle, then follow the task. */
    method Follow(tid: Tid, id: CsId, env: Environment) returns (ended: bool)
      requires At(tid, id) && sys.threads[tid].pc.Handle?
      modifies this
      ensures Valid() && old(history) <= history
      ensures ended ==> At(tid, id) && sys.threads[tid].pc.Outcome?
      ensures ended ==> Follows(tid, id, old(sys.threads[tid].pc.upid), env.persists)
      ensures !ended ==> Open(id) && sys.sets[id].fate == V.Task(old(sys.threads[tid].pc.upid))
      ensures !ended && env.persists ==> sys.sets[id].rec.handle == Some(old(sys.threads[tid].pc.upid))
    {
      Persist(tid, id, env);
      ended := Poll(tid, id, env);
    }

    /**
     * `apply_change_set`. Whoever runs in between and whatever fails: "nothing was
     * sent" is said only when nothing was, an outcome is reported only when it is
     * the vendor's, and otherwise the record still reads `Applying`. A write goes
     * out only for a call that passed every check, and if nobody interferes and
     * claim and intent work, for every such call. A task's handle that arrived and
     * could be stored is on record until the outcome is.
     */
    method ApplyChangeSet(
      index: GuestIndex, tid: Tid, id: CsId, asked: Call, look: Look, config: Option<Config>, dispatches: bool, env: Environment)
      returns (answer: ToolAnswer)
      requires Valid() && sys.phase == Serving && tid !in sys.threads
      modifies this, index
      ensures Valid() && old(history) <= history
      ensures Silent(history, old(|history|), tid) <==> answer.NothingSent? || env.localError.Some?
      ensures !answer.NothingSent? ==> id in old(sys.sets)
      ensures !answer.NothingSent? ==>
        MayApply(old(index.View()), index.ttl, asked, look, config, dispatches, old(sys.sets)[id].rec)
      ensures Undisturbed(env) && id in old(sys.sets) ==>
        (MayApply(old(index.View()), index.ttl, asked, look, config, dispatches, old(sys.sets)[id].rec) ==>
           !answer.NothingSent?)
      ensures ReadAfterBump(old(index.View()), index.ttl, asked.cluster, asked.vmid, look,
                            AnewReads(old(index.View()), index.ttl, asked, look).1)
      ensures answer.Reported? ==> Told(id, answer.ok, env)
      ensures answer.Unknown? ==> Open(id)
      ensures !answer.NothingSent? ==> Kept(id, env)
    {
      var goes := Verify(index, tid, id, asked, look, config, dispatches, env);
      if !goes { return NothingSent; }
      answer := SpendAndSend(tid, id, env);
    }

    /** From the passed checks to the answer: the claim is spent before anything is sent. */
    method SpendAndSend(tid: Tid, id: CsId, env: Environment) returns (answer: ToolAnswer)
      requires Valid() && sys.phase == Serving && tid in sys.threads && sys.threads[tid].id == id
      requires sys.threads[tid].Applies? && sys.threads[tid].pc.Verified?
      modifies this
      ensures Valid() && old(history) <= history
      ensures Silent(history, old(|history|), tid) <==> answer.NothingSent? || env.localError.Some?
      ensures Undisturbed(env) && id in old(sys.sets) && CanClaim(old(sys.sets)[id].rec) ==> !answer.NothingSent?
      ensures answer.Reported? ==> Told(id, answer.ok, env)
      ensures answer.Unknown? ==> Open(id)
      ensures !answer.NothingSent? ==> Kept(id, env)
    {
      var goes := SpendApproval(tid, id, env);
      if !goes { return NothingSent; }
      Meanwhile(tid, Gap(env.meanwhile, 4));
      answer := SendAndFollow(tid, id, env);
    }

    /** From the cleared claim to the answer. */
    method SendAndFollow(tid: Tid, id: CsId, env: Environment) returns (answer: ToolAnswer)
      requires At(tid, id) && sys.threads[tid].pc.Cleared?
      modifies this
      ensures Valid() && old(history) <= history && !answer.NothingSent?
      ensures Silent(history, old(|history|), tid) <==> env.localError.Some?
      ensures answer.Reported? ==> Told(id, answer.ok, env)
      ensures answer.Unknown? ==> Open(id)
      ensures Kept(id, env)
    {
      var goes;
      if env.localError.Some? {
        goes := FailLocally(tid, id, env.localError.value);
      } else {
        goes := SendOnce(tid, id, env);
      }
      if !goes { return Unknown; }
      if sys.threads[tid].pc.Handle? {
        answer := FollowToTheEnd(tid, id, env);
      } else {
        answer := Conclude(tid, id, env, false);
      }
    }

    /** From the handle to the answer. */
    method FollowToTheEnd(tid: Tid, id: CsId, env: Environment) returns (answer: ToolAnswer)
      requires At(tid, id) && sys.threads[tid].pc.Handle?
      modifies this
      ensures Valid() && old(history) <= history && !answer.NothingSent?
      ensures answer.Reported? ==> Told(id, answer.ok, env)
      ensures answer.Unknown? ==> Open(id)
      ensures Kept(id, env)
    {
      var ended := Follow(tid, id, env);
      if !ended { return Unknown; }
      answer := Conclude(tid, id, env, env.persists);
    }

    /** The outcome told is the vendor's, and on record and in the log as far as those could be written. */
    predicate Told(id: CsId, ok: bool, env: Environment)
      reads this
    {
      && id in sys.sets && OutcomeIs(sys.sets[id], sys.tasks, ok)
      && sys.sets[id].rec.state == (if !env.settles then Applying else if ok then Applied else Failed)
      && (sys.evidence && env.receiptWrites ==> ok in sys.sets[id].receipts)
    }

    /** What the cluster says about the task; an untruthful answer stands for an unreadable one. */
    function Said(tid: Tid, answer: Answer): Answer
      requires tid in sys.threads && sys.threads[tid].Applies? && sys.threads[tid].pc.Polling?
      reads this
    {
      var t := sys.threads[tid];
      if TruthfulTask(sys.tasks, t.rec.plan.cluster, t.pc.upid, answer) then answer else NoAnswer
    }

    /** One question after the task: a running one is asked again, a stopped one's exit is the outcome, all else ends the call. */
    method Probe(tid: Tid, id: CsId, answer: Answer)
      requires At(tid, id) && sys.threads[tid].pc.Polling?
      modifies this
      ensures Valid() && old(history) <= history && id in old(sys.sets) && id in sys.sets
      ensures sys.sets[id] == old(sys.sets)[id]
      ensures tid in sys.threads ==> At(tid, id)
      ensures var said := old(Said(tid, answer));
        if said.Status? && said.status == Some("running") then tid in sys.threads && sys.threads[tid] == old(sys.threads[tid])
        else if said.Status? && said.status == Some("stopped") && said.exit.Some? then
          tid in sys.threads && sys.threads[tid].pc == Outcome(said.exit.value == "OK")
        else tid !in sys.threads && Open(id)
    {
      Standing(tid);
      Move(tid, ApplyPoll(Said(tid, answer)));
    }

    /** Ask after the task until it has ended, an answer makes no sense, or the deadline passes. */
    method Poll(tid: Tid, id: CsId, env: Environment) returns (ended: bool)
      requires At(tid, id) && sys.threads[tid].pc.Polling?
      requires Follows(tid, id, sys.threads[tid].pc.upid, env.persists)
      modifies this
      ensures Valid() && old(history) <= history
      ensures ended ==> At(tid, id) && sys.threads[tid].pc.Outcome?
      ensures ended ==> Follows(tid, id, old(sys.threads[tid].pc.upid), env.persists)
      ensures !ended ==> Open(id) && sys.sets[id].fate == V.Task(old(sys.threads[tid].pc.upid))
      ensures !ended && env.persists ==> sys.sets[id].rec.handle == Some(old(sys.threads[tid].pc.upid))
    {
      for i := 0 to |env.answers|
        invariant At(tid, id) && sys.threads[tid].pc == old(sys.threads[tid].pc) && old(history) <= history
        invariant Follows(tid, id, old(sys.threads[tid].pc.upid), env.persists)
      {
        Standing(tid);
        Meanwhile(tid, Gap(env.meanwhile, 7 + i));
        Standing(tid);
        Probe(tid, id, env.answers[i]);
        if tid !in sys.threads { return false; }
        if sys.threads[tid].pc.Outcome? { return true; }
      }
      Standing(tid);
      Act(Vanish(tid));
      return false;
    }

    /** The receipt, if the log takes it; others run before the record is settled. */
    method WriteReceipt(tid: Tid, id: CsId, env: Environment)
      requires At(tid, id) && sys.threads[tid].pc.Outcome?
      modifies this
      ensures At(tid, id) && sys.threads[tid].pc == Settle(old(sys.threads[tid].pc.ok))
      ensures old(history) <= history && Silent(history, old(|history|), tid)
      ensures id in old(sys.sets) && id in sys.sets
      ensures old(sys.sets)[id].rec.handle.Some? ==> sys.sets[id].rec.handle == old(sys.sets)[id].rec.handle
      ensures Decided(old(sys.sets)[id].fate) ==> sys.sets[id].fate == old(sys.sets)[id].fate
      ensures sys.evidence && env.receiptWrites ==> old(sys.threads[tid].pc.ok) in sys.sets[id].receipts
    {
      Standing(tid);
      Move(tid, ApplyReceipt(env.receiptWrites));
      Standing(tid);
      Meanwhile(tid, Gap(env.meanwhile, 8 + |env.answers|));
      Standing(tid);
    }

    /** The receipt, the settled record, and the answer; `kept` says that a handle is on record until then. */
    method Conclude(tid: Tid, id: CsId, env: Environment, kept: bool) returns (answer: ToolAnswer)
      requires At(tid, id) && sys.threads[tid].pc.Outcome? && id in sys.sets
      requires kept ==> sys.sets[id].rec.handle.Some?
      modifies this
      ensures Valid() && old(history) <= history && Silent(history, old(|history|), tid)
      ensures answer == Reported(old(sys.threads[tid].pc.ok)) && Told(id, answer.ok, env)
      ensures kept && !env.settles ==> sys.sets[id].rec.handle == old(sys.sets)[id].rec.handle
      ensures Decided(old(sys.sets)[id].fate) ==> sys.sets[id].fate == old(sys.sets)[id].fate
    {
      var ok := sys.threads[tid].pc.ok;
      WriteReceipt(tid, id, env);
      Standing(tid);
      Move(tid, ApplySettle(env.settles));
      answer := Reported(ok);
    }
  }
}
