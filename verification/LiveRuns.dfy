/** What every run shows about the writes that go out: each meets the plan its record was made from. */
module LiveRuns {
  import opened Text
  import opened Guests
  import opened Grants
  import opened Authorization
  import opened Fingerprint
  import opened GuestReads
  import opened GuestCalls
  import opened ChangeSets
  import opened LiveProtocol
  import opened LiveSafety
  import A = ApplyProtocol
  import S = ApplySafety
  import C = CacheProtocol
  import J = Json

  predicate Run(w: Truth, s0: Sys, xs: seq<Action>) { Init(s0) && Runs(w, s0, xs) }

  lemma {:induction false} InvariantAfter(w: Truth, s: Sys, xs: seq<Action>)
    requires Inv(w, s) && Runs(w, s, xs)
    ensures Inv(w, After(w, s, xs))
    decreases |xs|
  {
    if xs != [] {
      StepKeeps(w, s, xs[0]);
      InvariantAfter(w, Do(w, s, xs[0]), xs[1..]);
    }
  }

  lemma InvariantOfRun(w: Truth, s0: Sys, xs: seq<Action>)
    requires Run(w, s0, xs)
    ensures Inv(w, After(w, s0, xs))
  {
    InvariantAfter(w, s0, xs);
  }

  // ---- What stands behind a send ---------------------------------------------------------------

  predicate Sends(s: Sys, tid: A.Tid) { A.Enabled(s.ap, A.Step(tid, A.ApplySend)) }

  function PlanOf(s: Sys, tid: A.Tid): Plan
    requires Sends(s, tid)
  {
    s.ap.sets[s.ap.threads[tid].id].rec.plan
  }

  /** The call's own finished reading and the reading its record was planned on: of one thing, true, and of one text. */
  ghost predicate Backed(w: Truth, s: Sys, tid: A.Tid)
    requires Sends(s, tid)
  {
    && ByApply(tid) in s.readings && s.ap.threads[tid].id in s.origins
    && var plan, r, o := PlanOf(s, tid), s.readings[ByApply(tid)], s.origins[s.ap.threads[tid].id];
       && Ready(r.stage) && TruthOk(w, s.ix.ttl, r, s.ix.now) && Names(plan, r)
       && Ready(o.reading.stage) && TruthOk(w, s.ix.ttl, o.reading, o.plannedAt)
       && plan == PlannedBy(o.reading, plan.op, plan.owner)
       && o.plannedAt <= r.begun && SeenText(r) == SeenText(o.reading)
  }

  /** A handler about to send saw the text of its record's plan. */
  lemma SenderSawItsPlan(ap: A.Sys, tid: A.Tid)
    requires S.Inv(ap) && A.Enabled(ap, A.Step(tid, A.ApplySend))
    ensures ap.threads[tid].rec.plan == ap.sets[ap.threads[tid].id].rec.plan
    ensures ap.threads[tid].pc.Cleared? && ap.threads[tid].pc.seen == ap.threads[tid].rec.plan.preimage
  {
    assert S.OneThreadOk(ap, tid);
  }

  /** A handler that has come to its send stands on a finished reading with the text it carries. */
  lemma ReaderOk(w: Truth, s: Sys, tid: A.Tid)
    requires ReadingsOk(w, s) && ComparisonsOk(s)
    requires tid in s.ap.threads && s.ap.threads[tid].Applies? && s.ap.threads[tid].pc.Cleared?
    ensures ByApply(tid) in s.readings
    ensures var t, r := s.ap.threads[tid], s.readings[ByApply(tid)];
      && Ready(r.stage) && TruthOk(w, s.ix.ttl, r, s.ix.now) && t.pc.seen == SeenText(r)
      && Names(t.rec.plan, r) && t.id in s.origins && s.origins[t.id].plannedAt <= r.begun
  {
    assert Compared(s.readings, tid, s.ap.threads[tid]);
    assert Fits(s.ap, s.origins, ByApply(tid), s.readings[ByApply(tid)]);
  }

  lemma RecordOk(w: Truth, s: Sys, id: CsId)
    requires OriginsOk(w, s) && id in s.ap.sets
    ensures id in s.origins && OriginOk(w, s.ix.ttl, s.ix.now, s.ap.sets[id].rec.plan, s.origins[id])
  {
  }

  lemma TextsAgree(plan: Plan, o: Origin)
    requires Ready(o.reading.stage) && plan == PlannedBy(o.reading, plan.op, plan.owner)
    ensures plan.preimage == SeenText(o.reading)
  {
  }

  lemma SendsAreBacked(w: Truth, s0: Sys, xs: seq<Action>, tid: A.Tid)
    requires Run(w, s0, xs) && Sends(After(w, s0, xs), tid)
    ensures Backed(w, After(w, s0, xs), tid)
  {
    InvariantOfRun(w, s0, xs);
    var s := After(w, s0, xs);
    SenderSawItsPlan(s.ap, tid);
    ReaderOk(w, s, tid);
    RecordOk(w, s, s.ap.threads[tid].id);
    TextsAgree(PlanOf(s, tid), s.origins[s.ap.threads[tid].id]);
  }

  // ---- Guest writes -------------------------------------------------------------------------------

  /**
   * By `now` the call behind `r` had found the plan's own guest: listed at one
   * moment and configured as read at another, both after the call's own bump, and
   * its caller was entitled to the operation on that very guest, by a first read
   * that was true of a moment after the bump too, or failed.
   */
  ghost predicate FoundGuest(w: Truth, r: Reading, plan: Plan, now: nat) {
    && r.stage.Complete? && r.begun <= r.bumped <= r.stage.sampled <= now && r.bumped <= r.stage.configAt <= now
    && plan.planner.PlanDestroy? && r.call.op == RecordedOp(plan) && r.call.tier == Destructive
    && r.call.cluster == plan.cluster && plan.subject == OfGuest(r.call.vmid)
    && r.call.vmid in w.world(plan.cluster, r.stage.sampled)
    && FirstTrue(w, r, r.stage.first, now)
    && Entitled(r.call, r.stage.first, Found(w.world(plan.cluster, r.stage.sampled)[r.call.vmid]))
  }

  lemma CompleteMeans(w: Truth, ttl: nat, r: Reading, plan: Plan, now: nat)
    requires r.stage.Complete? && TruthOk(w, ttl, r, now)
    requires plan.planner.PlanDestroy? && r.call.op == RecordedOp(plan)
    requires r.call.cluster == plan.cluster && plan.subject == OfGuest(r.call.vmid)
    ensures FoundGuest(w, r, plan, now)
  {
    GateOpensExactlyWhen(r.call, r.stage.first, Found(r.stage.guest));
  }

  /** The guest as the cluster was at those moments. */
  function StateFound(w: Truth, r: Reading): GuestState
    requires r.stage.Complete? && r.call.vmid in w.world(r.call.cluster, r.stage.sampled)
  {
    StateOf(r.call.cluster, w.world(r.call.cluster, r.stage.sampled)[r.call.vmid],
            w.configs(r.call.cluster, r.call.vmid, r.stage.configAt))
  }

  /**
   * Whenever a guest write is about to go out, in any interleaving of handlers,
   * index callers and the cluster: the plan call and this call each found the
   * record's own guest after an invalidation of their own, this one after the plan
   * was made, and the cluster's own state then and now is the same up to the order
   * of tags and disks.
   */
  lemma EveryGuestWriteMeetsItsPlan(w: Truth, s0: Sys, xs: seq<Action>, tid: A.Tid)
    requires Run(w, s0, xs) && Sends(After(w, s0, xs), tid) && PlanOf(After(w, s0, xs), tid).planner.PlanDestroy?
    ensures var s := After(w, s0, xs);
      && ByApply(tid) in s.readings && s.ap.threads[tid].id in s.origins
      && var plan, r, o := PlanOf(s, tid), s.readings[ByApply(tid)], s.origins[s.ap.threads[tid].id];
         && FoundGuest(w, o.reading, plan, o.plannedAt) && o.plannedAt <= r.begun && FoundGuest(w, r, plan, s.ix.now)
         && SameUpToOrder(StateFound(w, o.reading), StateFound(w, r))
  {
    SendsAreBacked(w, s0, xs, tid);
    var s := After(w, s0, xs);
    var plan, r, o := PlanOf(s, tid), s.readings[ByApply(tid)], s.origins[s.ap.threads[tid].id];
    CompleteMeans(w, s.ix.ttl, r, plan, s.ix.now);
    CompleteMeans(w, s.ix.ttl, o.reading, plan, o.plannedAt);
    GuestPreimageIdentifies(StateFound(w, o.reading), StateFound(w, r));
  }

  // ---- Restores -------------------------------------------------------------------------------------

  /**
   * By `now` the call behind `r` had found the plan's target free at a moment after
   * its own bump, on behalf of a caller who may create there and read the backup's
   * recorded owner, as listed no longer ago than the cache allows.
   */
  ghost predicate FoundVacant(w: Truth, ttl: nat, r: Reading, plan: Plan, now: nat) {
    && r.stage.Vacant? && r.begun <= r.bumped <= r.stage.sampled <= now
    && r.call.cluster == plan.cluster && plan.subject == OfGuest(r.call.vmid)
    && r.call.vmid !in w.world(plan.cluster, r.stage.sampled)
    && plan.planner == PlanRestoreNewVmid(r.stage.seen.owner)
    && OwnerTrue(w, ttl, r, r.stage.seen, now)
    && var listed := w.world(plan.cluster, r.stage.seen.fetch.sampled);
       MayRestore(r.call, plan.planner.owner, r.call.principal, ReadFrom(listed, plan.planner.owner))
  }

  lemma VacantMeans(w: Truth, ttl: nat, r: Reading, plan: Plan, now: nat)
    requires r.stage.Vacant? && TruthOk(w, ttl, r, now)
    requires r.call.cluster == plan.cluster && plan.subject == OfGuest(r.call.vmid)
    requires plan.planner == PlanRestoreNewVmid(r.stage.seen.owner)
    ensures FoundVacant(w, ttl, r, plan, now)
  {
    RestoreAdmitsExactlyWhen(r.call, r.stage.seen.owner, r.stage.seen.Read());
  }

  lemma EveryRestoreFindsItsTargetVacant(w: Truth, s0: Sys, xs: seq<Action>, tid: A.Tid)
    requires Run(w, s0, xs) && Sends(After(w, s0, xs), tid) && PlanOf(After(w, s0, xs), tid).planner.PlanRestoreNewVmid?
    ensures var s := After(w, s0, xs);
      && ByApply(tid) in s.readings && s.ap.threads[tid].id in s.origins
      && var plan, r, o := PlanOf(s, tid), s.readings[ByApply(tid)], s.origins[s.ap.threads[tid].id];
         && FoundVacant(w, s.ix.ttl, o.reading, plan, o.plannedAt) && o.plannedAt <= r.begun
         && FoundVacant(w, s.ix.ttl, r, plan, s.ix.now)
  {
    SendsAreBacked(w, s0, xs, tid);
    var s := After(w, s0, xs);
    var plan, r, o := PlanOf(s, tid), s.readings[ByApply(tid)], s.origins[s.ap.threads[tid].id];
    VacantMeans(w, s.ix.ttl, r, plan, s.ix.now);
    VacantMeans(w, s.ix.ttl, o.reading, plan, o.plannedAt);
  }

  // ---- HA rules ---------------------------------------------------------------------------------------

  /** Every body the clusters answer with is JSON. */
  ghost predicate RulesAreJson(w: Truth) {
    forall cluster, rule, m: nat :: w.rules(cluster, rule, m).Some? ==> J.WellFormed(w.rules(cluster, rule, m).value)
  }

  /** By `now` the call behind `r` had read the plan's own rule. */
  predicate FoundRule(r: Reading, plan: Plan, now: nat) {
    && r.stage.RuleRead? && r.begun <= r.stage.readAt <= now
    && plan.planner.PlanHaRule? && r.call.cluster == plan.cluster && plan.subject == OfRule(r.stage.rule)
  }

  /** Although devices of different rules can coincide, the text tells them apart, and the rule is as it was planned. */
  lemma EveryRuleWriteMeetsItsPlan(w: Truth, s0: Sys, xs: seq<Action>, tid: A.Tid)
    requires RulesAreJson(w)
    requires Run(w, s0, xs) && Sends(After(w, s0, xs), tid) && PlanOf(After(w, s0, xs), tid).planner.PlanHaRule?
    ensures var s := After(w, s0, xs);
      && ByApply(tid) in s.readings && s.ap.threads[tid].id in s.origins
      && var plan, r, o := PlanOf(s, tid), s.readings[ByApply(tid)], s.origins[s.ap.threads[tid].id];
         && FoundRule(o.reading, plan, o.plannedAt) && o.plannedAt <= r.begun && FoundRule(r, plan, s.ix.now)
         && w.rules(plan.cluster, plan.subject.rule, o.reading.stage.readAt).GetOr(J.Null)
              == w.rules(plan.cluster, plan.subject.rule, r.stage.readAt).GetOr(J.Null)
  {
    SendsAreBacked(w, s0, xs, tid);
    var s := After(w, s0, xs);
    var r, o := s.readings[ByApply(tid)], s.origins[s.ap.threads[tid].id].reading;
    HaRulePreimageIdentifies(
      r.call.cluster, r.stage.rule, r.stage.body, o.call.cluster, o.stage.rule, o.stage.body);
  }

  // ---- A run of the pair is a run of the protocol ------------------------------------------------------

  /** The protocol steps within a run of the pair. */
  function ProtocolSteps(w: Truth, s: Sys, xs: seq<Action>): seq<A.Action>
    requires Runs(w, s, xs)
    decreases |xs|
  {
    if xs == [] then []
    else
      var rest := ProtocolSteps(w, Do(w, s, xs[0]), xs[1..]);
      match ProtocolStep(s, xs[0])
      case Some(a) => [a] + rest
      case None => rest
  }

  /** So everything that holds of every run of the protocol holds of every run of the pair. */
  lemma {:induction false} RunsOfThePairAreRuns(w: Truth, s: Sys, xs: seq<Action>)
    requires Runs(w, s, xs)
    ensures A.Runs(s.ap, ProtocolSteps(w, s, xs)) && A.After(s.ap, ProtocolSteps(w, s, xs)) == After(w, s, xs).ap
    decreases |xs|
  {
    if xs != [] {
      RunsOfThePairAreRuns(w, Do(w, s, xs[0]), xs[1..]);
      ProtocolMoves(w, s, xs[0]);
      var rest := ProtocolSteps(w, Do(w, s, xs[0]), xs[1..]);
      if ProtocolStep(s, xs[0]).Some? { assert ProtocolSteps(w, s, xs)[1..] == rest; }
    }
  }
}
