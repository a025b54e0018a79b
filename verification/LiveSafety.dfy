/** What every step of handlers, index and cluster together keeps. */
module LiveSafety {
  import opened Text
  import opened Guests
  import opened Grants
  import opened Authorization
  import opened GuestCache
  import opened GuestCalls
  import opened ChangeSets
  import opened LiveProtocol
  import A = ApplyProtocol
  import S = ApplySafety
  import R = ApplyRuns
  import C = CacheProtocol
  import K = CacheSafety
  import V = Vendor

  // ---- What is true of a reading ---------------------------------------------------------

  /** The backup's owner was read as a listing at most the time to live in the cache showed it. */
  ghost predicate OwnerTrue(w: Truth, ttl: nat, r: Reading, seen: OwnerSeen, now: nat) {
    && seen.fetch.guests == w.world(r.call.cluster, seen.fetch.sampled)
    && seen.fetch.started <= seen.fetch.sampled <= seen.servedAt && r.begun <= seen.servedAt <= now
    && match seen.taken
       case None => r.begun <= seen.fetch.started
       case Some(taken) => seen.fetch.sampled <= taken <= seen.servedAt <= taken + ttl
  }

  /** The gate opened on a guest the cluster listed at `sampled`, after the call's own bump. */
  ghost predicate SawGuest(w: Truth, r: Reading, first: Resolved, guest: Guest, sampled: nat, now: nat) {
    && r.begun <= r.bumped <= sampled <= now
    && r.call.vmid in w.world(r.call.cluster, sampled) && w.world(r.call.cluster, sampled)[r.call.vmid] == guest
    && Gate(r.call, first, Found(guest)).Authorized?
  }

  /** What the first resolve answered was so at some moment after the call's own bump; a failed one says nothing. */
  ghost predicate FirstTrue(w: Truth, r: Reading, first: Resolved, now: nat) {
    first.Unreadable?
    || exists moment: nat :: r.bumped <= moment <= now && first == ReadFrom(w.world(r.call.cluster, moment), r.call.vmid)
  }

  /** What a finished reading says was so, after the call's own bump where it made one. */
  ghost predicate TruthOk(w: Truth, ttl: nat, r: Reading, now: nat)
    requires Ready(r.stage)
  {
    match r.stage
    case Complete(first, guest, sampled, config, at) =>
      && SawGuest(w, r, first, guest, sampled, now) && FirstTrue(w, r, first, now) && r.call.tier == Destructive
      && r.bumped <= at <= now && config == w.configs(r.call.cluster, r.call.vmid, at)
    case Vacant(seen, sampled) =>
      && OwnerTrue(w, ttl, r, seen, now) && MayTake(r.call, seen)
      && r.begun <= r.bumped <= sampled <= now && r.call.vmid !in w.world(r.call.cluster, sampled)
    case RuleRead(rule, body, at) => r.begun <= at <= now && body == w.rules(r.call.cluster, rule, at)
  }

  /** Invalidation `inv` is the reading's own. */
  predicate OwnDrop(ix: C.Sys, r: Reading, inv: C.Tid) {
    C.InvalidatesAt(ix, inv) && ix.callers[inv].target == Some(r.call.cluster) && r.begun <= ix.callers[inv].born
  }

  predicate OwnBump(ix: C.Sys, r: Reading) {
    0 < r.gen <= |ix.bumps| && r.begun <= r.bumped == C.Since(ix, r.gen) <= ix.now
  }

  /** Resolve `u` is the reading's own and began after its invalidation had finished. */
  predicate OwnResolve(ix: C.Sys, r: Reading, u: C.Tid) {
    && C.ResolvesAt(ix, u) && ix.callers[u].cluster == r.call.cluster && ix.callers[u].vmid == r.call.vmid
    && OwnBump(ix, r) && r.gen <= ix.callers[u].floor
  }

  predicate AsksForOwner(ix: C.Sys, r: Reading, owner: u32, u: C.Tid) {
    && C.ResolvesAt(ix, u) && ix.callers[u].cluster == r.call.cluster && ix.callers[u].vmid == owner
    && r.begun <= ix.callers[u].born
  }

  ghost predicate StageOk(w: Truth, ix: C.Sys, r: Reading) {
    match r.stage
    case Dropping(inv) => r.call.tier == Destructive && OwnDrop(ix, r, inv)
    case First(u) => r.call.tier == Destructive && OwnResolve(ix, r, u)
    case Second(first, v) => r.call.tier == Destructive && OwnResolve(ix, r, v) && FirstTrue(w, r, first, ix.now)
    case Admitted(first, guest, sampled, asked) =>
      && r.call.tier == Destructive && SawGuest(w, r, first, guest, sampled, ix.now) && FirstTrue(w, r, first, ix.now)
      && r.bumped <= asked <= ix.now
    case OwnerAsked(owner, u) => AsksForOwner(ix, r, owner, u)
    case TargetDropping(seen, inv) => OwnDrop(ix, r, inv) && OwnerTrue(w, ix.ttl, r, seen, ix.now) && MayTake(r.call, seen)
    case TargetAsked(seen, u) => OwnResolve(ix, r, u) && OwnerTrue(w, ix.ttl, r, seen, ix.now) && MayTake(r.call, seen)
    case RuleAsked(_) => r.begun <= ix.now
    case _ => TruthOk(w, ix.ttl, r, ix.now)
  }

  /** The reading is of what the record is about, under the record's own kind of plan. */
  predicate Names(plan: Plan, r: Reading) {
    if OfGuestStage(r.stage) then
      && plan.planner.PlanDestroy? && r.call.op == RecordedOp(plan)
      && plan.cluster == r.call.cluster && plan.subject == OfGuest(r.call.vmid)
    else if OfRestoreStage(r.stage) then
      && plan.planner == PlanRestoreNewVmid(OwnerOf(r.stage))
      && plan.cluster == r.call.cluster && plan.subject == OfGuest(r.call.vmid)
    else plan.planner.PlanHaRule?
  }

  /** An apply's reading is of its record and began after that was planned. */
  predicate Fits(ap: A.Sys, origins: map<CsId, Origin>, who: Who, r: Reading) {
    match who
    case ByApply(tid) =>
      && tid in ap.threads && ap.threads[tid].Applies? && Names(ap.threads[tid].rec.plan, r)
      && ap.threads[tid].id in origins && origins[ap.threads[tid].id].plannedAt <= r.begun
    case ByPlan(_) => true
  }

  ghost predicate ReadingsOk(w: Truth, s: Sys) {
    forall who :: who in s.readings ==>
      Fits(s.ap, s.origins, who, s.readings[who]) && StageOk(w, s.ix, s.readings[who])
  }

  // ---- What is true of a comparison and of a record ------------------------------------------

  /** An apply that has compared did so on the text of its finished reading. */
  predicate Compared(readings: map<Who, Reading>, tid: A.Tid, t: A.Thread) {
    t.Applies? && (t.pc.Verified? || t.pc.Claimed? || t.pc.Cleared?) ==>
      ByApply(tid) in readings && Ready(readings[ByApply(tid)].stage) && t.pc.seen == SeenText(readings[ByApply(tid)])
  }

  ghost predicate ComparisonsOk(s: Sys) {
    forall tid :: tid in s.ap.threads ==> Compared(s.readings, tid, s.ap.threads[tid])
  }

  /** The record was planned on a true reading of its own. */
  ghost predicate OriginOk(w: Truth, ttl: nat, now: nat, plan: Plan, o: Origin) {
    && Ready(o.reading.stage) && o.plannedAt <= now && TruthOk(w, ttl, o.reading, o.plannedAt)
    && plan == PlannedBy(o.reading, plan.op, plan.owner)
  }

  ghost predicate OriginsOk(w: Truth, s: Sys) {
    forall id :: id in s.ap.sets ==>
      id in s.origins && OriginOk(w, s.ix.ttl, s.ix.now, s.ap.sets[id].rec.plan, s.origins[id])
  }

  /** What ties handlers, index and cluster together. */
  ghost predicate Tied(w: Truth, s: Sys) { ReadingsOk(w, s) && ComparisonsOk(s) && OriginsOk(w, s) }

  ghost predicate Inv(w: Truth, s: Sys) { S.Inv(s.ap) && K.Inv(w.world, s.ix) && Tied(w, s) }

  // ---- Steps of the index ------------------------------------------------------------------

  /** A caller stays the same call. */
  predicate Stays(a: C.Caller, b: C.Caller) {
    match a
    case Resolving(cluster, vmid, floor, born, _) =>
      b.Resolving? && b.cluster == cluster && b.vmid == vmid && b.floor == floor && b.born == born
    case Invalidating(target, born, _) => b.Invalidating? && b.target == target && b.born == born
  }

  /** Time goes on, and caller `c` stays if it is there. */
  predicate GoesOn(ix: C.Sys, ix': C.Sys, c: Option<C.Tid>) {
    && ix.bumps <= ix'.bumps && ix.now <= ix'.now && ix.ttl == ix'.ttl
    && (c.Some? && c.value in ix.callers ==> c.value in ix'.callers && Stays(ix.callers[c.value], ix'.callers[c.value]))
  }

  lemma IndexGoesOn(w: C.World, ix: C.Sys, b: C.Action, c: Option<C.Tid>)
    requires C.Enabled(ix, b) && (b.Leave? ==> c != Some(b.tid))
    ensures GoesOn(ix, C.Do(w, ix, b), c)
  {
  }

  lemma StageLasts(w: Truth, ix: C.Sys, ix': C.Sys, r: Reading)
    requires StageOk(w, ix, r) && GoesOn(ix, ix', Awaits(r.stage))
    ensures StageOk(w, ix', r)
  {
  }

  /** Any step of the index that does not end a call some reading waits for. */
  lemma IndexMoves(w: Truth, s: Sys, b: C.Action)
    requires Tied(w, s) && C.Enabled(s.ix, b) && (b.Leave? ==> !Awaited(s, b.tid))
    ensures Tied(w, s.(ix := C.Do(w.world, s.ix, b)))
  {
    IndexGoesOn(w.world, s.ix, b, None);
    var ix' := C.Do(w.world, s.ix, b);
    forall who | who in s.readings ensures StageOk(w, ix', s.readings[who]) {
      assert b.Leave? ==> Awaits(s.readings[who].stage) != Some(b.tid);
      IndexGoesOn(w.world, s.ix, b, Awaits(s.readings[who].stage));
      StageLasts(w, s.ix, ix', s.readings[who]);
    }
  }

  // ---- Steps of the readings ------------------------------------------------------------------

  /** What the index guarantees about the caller a reading waits for. */
  ghost predicate Relies(w: C.World, ix: C.Sys, stage: Stage) {
    && K.TimesOk(ix)
    && (Awaits(stage).Some? && Awaits(stage).value in ix.callers ==>
          K.CallerOk(w, ix, Awaits(stage).value, ix.callers[Awaits(stage).value]))
  }

  /** The finished invalidation is the floor the call's next resolve begins on. */
  lemma ResolveBeginsAfterTheBump(w: C.World, ix: C.Sys, r: Reading, inv: C.Tid, u: C.Tid)
    requires OwnDrop(ix, r, inv) && K.TimesOk(ix) && K.CallerOk(w, ix, inv, ix.callers[inv]) && ix.callers[inv].step.Finished?
    requires C.Enabled(ix, C.BeginResolve(u, r.call.cluster, r.call.vmid))
    ensures var gen := ix.callers[inv].step.gen;
      OwnResolve(C.Do(w, ix, C.BeginResolve(u, r.call.cluster, r.call.vmid)), r.(gen := gen, bumped := C.Since(ix, gen)), u)
  {
    assert K.Targets(ix.callers[inv].target, r.call.cluster);
  }

  /** What a call's own resolve is served is what the cluster listed at a moment after the call's own bump. */
  lemma ResolveSawTheCluster(w: C.World, ix: C.Sys, r: Reading, u: C.Tid)
    requires OwnResolve(ix, r, u) && K.TimesOk(ix) && K.CallerOk(w, ix, u, ix.callers[u]) && ix.callers[u].pc.Served?
    ensures var pc := ix.callers[u].pc;
      && r.bumped <= pc.fetch.sampled <= ix.now
      && pc.guest == C.Entry(w(r.call.cluster, pc.fetch.sampled), r.call.vmid)
  {
    K.SinceIsMonotone(ix, r.gen, ix.callers[u].pc.fetch.gen);
  }

  lemma FirstWasTrue(w: Truth, ix: C.Sys, r: Reading, u: C.Tid, first: Resolved)
    requires OwnResolve(ix, r, u) && K.TimesOk(ix) && K.CallerOk(w.world, ix, u, ix.callers[u]) && Answers(ix.callers[u], first)
    ensures FirstTrue(w, r, first, ix.now)
  {
    if ix.callers[u].pc.Served? {
      ResolveSawTheCluster(w.world, ix, r, u);
      assert first == ReadFrom(w.world(r.call.cluster, ix.callers[u].pc.fetch.sampled), r.call.vmid);
    }
  }

  lemma FirstStageOk(w: Truth, s: Sys, x: Action)
    requires Begins(x) && Enabled(s, x)
    ensures StageOk(w, NextIndex(w, s, x), NextReading(w, s, x))
  {
  }

  lemma FirstResolveOk(w: Truth, s: Sys, who: Who, u: C.Tid)
    requires Enabled(s, ResolveFirst(who, u)) && StageOk(w, s.ix, s.readings[who])
    requires Relies(w.world, s.ix, s.readings[who].stage)
    ensures StageOk(w, NextIndex(w, s, ResolveFirst(who, u)), NextReading(w, s, ResolveFirst(who, u)))
  {
    ResolveBeginsAfterTheBump(w.world, s.ix, s.readings[who], s.readings[who].stage.inv, u);
  }

  lemma SecondResolveOk(w: Truth, s: Sys, who: Who, first: Resolved, v: C.Tid)
    requires Enabled(s, ResolveSecond(who, first, v)) && StageOk(w, s.ix, s.readings[who])
    requires Relies(w.world, s.ix, s.readings[who].stage)
    ensures StageOk(w, NextIndex(w, s, ResolveSecond(who, first, v)), NextReading(w, s, ResolveSecond(who, first, v)))
  {
    FirstWasTrue(w, s.ix, s.readings[who], s.readings[who].stage.u, first);
  }

  lemma AdmittedOk(w: Truth, s: Sys, who: Who)
    requires Enabled(s, Admit(who)) && StageOk(w, s.ix, s.readings[who])
    requires Relies(w.world, s.ix, s.readings[who].stage)
    ensures StageOk(w, NextIndex(w, s, Admit(who)), NextReading(w, s, Admit(who)))
  {
    ResolveSawTheCluster(w.world, s.ix, s.readings[who], s.readings[who].stage.v);
  }

  lemma OwnerAdmittedOk(w: Truth, s: Sys, who: Who, inv: C.Tid)
    requires Enabled(s, DropForTarget(who, inv)) && StageOk(w, s.ix, s.readings[who])
    requires Relies(w.world, s.ix, s.readings[who].stage)
    ensures StageOk(w, NextIndex(w, s, DropForTarget(who, inv)), NextReading(w, s, DropForTarget(who, inv)))
  {
  }

  lemma TargetResolveOk(w: Truth, s: Sys, who: Who, u: C.Tid)
    requires Enabled(s, ResolveTarget(who, u)) && StageOk(w, s.ix, s.readings[who])
    requires Relies(w.world, s.ix, s.readings[who].stage)
    ensures StageOk(w, NextIndex(w, s, ResolveTarget(who, u)), NextReading(w, s, ResolveTarget(who, u)))
  {
    ResolveBeginsAfterTheBump(w.world, s.ix, s.readings[who], s.readings[who].stage.inv, u);
  }

  lemma VacantOk(w: Truth, s: Sys, who: Who)
    requires Enabled(s, SeeVacant(who)) && StageOk(w, s.ix, s.readings[who])
    requires Relies(w.world, s.ix, s.readings[who].stage)
    ensures StageOk(w, NextIndex(w, s, SeeVacant(who)), NextReading(w, s, SeeVacant(who)))
  {
    ResolveSawTheCluster(w.world, s.ix, s.readings[who], s.readings[who].stage.u);
  }

  lemma ReadingDoneOk(w: Truth, s: Sys, who: Who, at: nat)
    requires who in s.readings && StageOk(w, s.ix, s.readings[who])
    ensures Enabled(s, ReadConfig(who, at)) ==> StageOk(w, s.ix, NextReading(w, s, ReadConfig(who, at)))
    ensures Enabled(s, ReadRule(who, at)) ==> StageOk(w, s.ix, NextReading(w, s, ReadRule(who, at)))
  {
  }

  /** The steps that begin another index call. */
  predicate Calls(x: Action) { x.ResolveFirst? || x.ResolveSecond? || x.DropForTarget? || x.ResolveTarget? }

  lemma CallingStageOk(w: Truth, s: Sys, x: Action)
    requires Calls(x) && Enabled(s, x) && StageOk(w, s.ix, s.readings[x.who])
    requires Relies(w.world, s.ix, s.readings[x.who].stage)
    ensures StageOk(w, NextIndex(w, s, x), NextReading(w, s, x))
  {
    match x {
      case ResolveFirst(who, u) => FirstResolveOk(w, s, who, u);
      case ResolveSecond(who, first, v) => SecondResolveOk(w, s, who, first, v);
      case DropForTarget(who, inv) => OwnerAdmittedOk(w, s, who, inv);
      case ResolveTarget(who, u) => TargetResolveOk(w, s, who, u);
    }
  }

  lemma LookingStageOk(w: Truth, s: Sys, x: Action)
    requires Reads(x) && !Calls(x) && !Begins(x) && Enabled(s, x) && StageOk(w, s.ix, s.readings[x.who])
    requires Relies(w.world, s.ix, s.readings[x.who].stage)
    ensures StageOk(w, NextIndex(w, s, x), NextReading(w, s, x))
  {
    match x {
      case Admit(who) => AdmittedOk(w, s, who);
      case ReadConfig(who, at) => ReadingDoneOk(w, s, who, at);
      case SeeVacant(who) => VacantOk(w, s, who);
      case ReadRule(who, at) => ReadingDoneOk(w, s, who, at);
    }
  }

  lemma NextStageOk(w: Truth, s: Sys, x: Action)
    requires Reads(x) && Enabled(s, x)
    requires !Begins(x) ==> StageOk(w, s.ix, s.readings[x.who]) && Relies(w.world, s.ix, s.readings[x.who].stage)
    ensures StageOk(w, NextIndex(w, s, x), NextReading(w, s, x))
  {
    if Begins(x) { FirstStageOk(w, s, x); }
    else if Calls(x) { CallingStageOk(w, s, x); }
    else { LookingStageOk(w, s, x); }
  }

  /** The tool's arguments match the record's device only if they name the record's guest. */
  lemma ArgumentsNameTheGuest(plan: Plan, call: Call)
    requires plan.Proper() && !plan.planner.PlanHaRule? && plan.Device() == DeviceKey(call.cluster, OfGuest(call.vmid).Key())
    ensures plan.cluster == call.cluster && plan.subject == OfGuest(call.vmid)
  {
    GuestDeviceIsUnique(plan.cluster, plan.subject.vmid, call.cluster, call.vmid);
  }

  /** The handler's own copy of a record that was planned before. */
  predicate Applying(s: Sys, tid: A.Tid) {
    && tid in s.ap.threads && (s.ap.threads[tid].Applies? ==> s.ap.threads[tid].rec.plan.Proper())
    && s.ap.threads[tid].id in s.origins && s.origins[s.ap.threads[tid].id].plannedAt <= s.ix.now
  }

  lemma HandlersApply(w: Truth, s: Sys, tid: A.Tid)
    requires Inv(w, s) && tid in s.ap.threads
    ensures Applying(s, tid)
  {
    assert S.OneThreadOk(s.ap, tid);
    var id := s.ap.threads[tid].id;
    assert S.CsOk(s.ap.sets[id], s.ap.tasks);
    assert OriginOk(w, s.ix.ttl, s.ix.now, s.ap.sets[id].rec.plan, s.origins[id]);
  }

  lemma NextFits(w: Truth, s: Sys, x: Action)
    requires Reads(x) && Enabled(s, x)
    requires x.who.ByApply? ==> Applying(s, x.who.tid)
    requires !Begins(x) ==> Fits(s.ap, s.origins, x.who, s.readings[x.who])
    ensures Fits(s.ap, s.origins, x.who, NextReading(w, s, x))
  {
    if (x.Invalidate? || x.AskOwner?) && x.who.ByApply? { ArgumentsNameTheGuest(s.ap.threads[x.who.tid].rec.plan, x.call); }
  }

  /** A reader has not compared yet, so its next reading touches no comparison. */
  lemma ReaderKeepsComparisons(s: Sys, who: Who, r: Reading)
    requires ComparisonsOk(s) && MayRead(s, who)
    ensures ComparisonsOk(s.(readings := s.readings[who := r]))
  {
    forall tid | tid in s.ap.threads ensures Compared(s.readings[who := r], tid, s.ap.threads[tid]) {
      assert Compared(s.readings, tid, s.ap.threads[tid]);
    }
  }

  /** The index moved under the other readings. */
  lemma IndexMovesFirst(w: Truth, s: Sys, x: Action)
    requires Tied(w, s) && Reads(x) && Enabled(s, x)
    ensures Tied(w, s.(ix := NextIndex(w, s, x)))
  {
    if Begun(s, x).Some? { IndexMoves(w, s, Begun(s, x).value); }
  }

  lemma ReadingMovesReadings(w: Truth, s: Sys, who: Who, r: Reading)
    requires ReadingsOk(w, s) && Fits(s.ap, s.origins, who, r) && StageOk(w, s.ix, r)
    ensures ReadingsOk(w, s.(readings := s.readings[who := r]))
  {
  }

  lemma ReadingMoves(w: Truth, s: Sys, who: Who, r: Reading)
    requires Tied(w, s) && MayRead(s, who) && Fits(s.ap, s.origins, who, r) && StageOk(w, s.ix, r)
    ensures Tied(w, s.(readings := s.readings[who := r]))
  {
    ReaderKeepsComparisons(s, who, r);
    ReadingMovesReadings(w, s, who, r);
  }

  lemma ReadingRelies(w: Truth, s: Sys, who: Who)
    requires Inv(w, s) && who in s.readings
    ensures Relies(w.world, s.ix, s.readings[who].stage)
    ensures Fits(s.ap, s.origins, who, s.readings[who]) && StageOk(w, s.ix, s.readings[who])
  {
  }

  lemma NextReadingOk(w: Truth, s: Sys, x: Action)
    requires Inv(w, s) && Reads(x) && Enabled(s, x)
    ensures Fits(s.ap, s.origins, x.who, NextReading(w, s, x)) && StageOk(w, NextIndex(w, s, x), NextReading(w, s, x))
  {
    if !Begins(x) { ReadingRelies(w, s, x.who); }
    if x.who.ByApply? { HandlersApply(w, s, x.who.tid); }
    NextStageOk(w, s, x);
    NextFits(w, s, x);
  }

  lemma ReadingStepKeeps(w: Truth, s: Sys, x: Action)
    requires Tied(w, s) && Reads(x) && Enabled(s, x)
    requires Fits(s.ap, s.origins, x.who, NextReading(w, s, x)) && StageOk(w, NextIndex(w, s, x), NextReading(w, s, x))
    ensures Tied(w, Do(w, s, x))
  {
    IndexMovesFirst(w, s, x);
    ReadingMoves(w, s.(ix := NextIndex(w, s, x)), x.who, NextReading(w, s, x));
  }

  // ---- Steps of the protocol -----------------------------------------------------------------------

  /** The comparison of an apply is on the text of its finished reading. */
  predicate OwnComparison(readings: map<Who, Reading>, tid: A.Tid, t: A.Thread, m: A.Move) {
    m.ApplyVerify? && t.Applies? ==>
      ByApply(tid) in readings && Ready(readings[ByApply(tid)].stage) && m.now == SeenText(readings[ByApply(tid)])
  }

  /** An apply stays one, of the same record, and carries the text it compared. */
  lemma MoveCarriesText(
    cs: A.Cs, t: A.Thread, tasks: A.TaskTable, evidence: bool, m: A.Move, readings: map<Who, Reading>, tid: A.Tid)
    requires A.CanMove(cs, t, tasks, m) && (t.Applies? ==> cs.rec.plan == t.rec.plan)
    requires Compared(readings, tid, t) && OwnComparison(readings, tid, t, m)
    ensures var e := A.MoveEffect(cs, t, tasks, evidence, true, m);
      && e.cs.rec.plan == (if t.Planning? && m.PlanPreview? && m.ok then t.rec.plan else cs.rec.plan)
      && (e.next.Some? ==>
            && Compared(readings, tid, e.next.value) && e.next.value.id == t.id
            && (t.Applies? ==> e.next.value.Applies? && e.next.value.rec.plan == t.rec.plan))
  {
  }

  /** The handler's copy of the record has the stored plan. */
  predicate SharesPlan(ap: A.Sys, tid: A.Tid) {
    && tid in ap.threads && ap.threads[tid].id in ap.sets && ap.handleless
    && (!ap.threads[tid].Approving? ==> ap.sets[ap.threads[tid].id].rec.plan == ap.threads[tid].rec.plan)
  }

  lemma HandlersSharePlan(ap: A.Sys, tid: A.Tid)
    requires S.Inv(ap) && tid in ap.threads
    ensures SharesPlan(ap, tid)
  {
    assert S.OneThreadOk(ap, tid);
  }

  lemma HandlerKeepsComparisons(s: Sys, tid: A.Tid, m: A.Move)
    requires ComparisonsOk(s) && SharesPlan(s.ap, tid) && A.Enabled(s.ap, A.Step(tid, m))
    requires OwnComparison(s.readings, tid, s.ap.threads[tid], m)
    ensures ComparisonsOk(DoProtocol(s, A.Step(tid, m)))
  {
    var s' := DoProtocol(s, A.Step(tid, m));
    var t := s.ap.threads[tid];
    assert Compared(s.readings, tid, t);
    MoveCarriesText(s.ap.sets[t.id], t, s.ap.tasks, s.ap.evidence, m, s.readings, tid);
    forall u | u in s'.ap.threads ensures Compared(s'.readings, u, s'.ap.threads[u]) {
      assert u != tid ==> Compared(s.readings, u, s.ap.threads[u]);
    }
  }

  ghost predicate SparesPlans(ap: A.Sys, ap': A.Sys) {
    forall id :: id in ap.sets ==> id in ap'.sets && ap'.sets[id].rec.plan == ap.sets[id].rec.plan
  }

  /** After a move the mover still carries its plan, everybody else is untouched, and no plan has changed. */
  ghost predicate MovedOn(ap: A.Sys, ap': A.Sys, tid: A.Tid) {
    && (forall u :: u in ap'.threads && u != tid ==> u in ap.threads && ap'.threads[u] == ap.threads[u])
    && (tid in ap'.threads && tid in ap.threads && ap.threads[tid].Applies? ==>
          && ap'.threads[tid].Applies? && ap'.threads[tid].rec.plan == ap.threads[tid].rec.plan
          && ap'.threads[tid].id == ap.threads[tid].id)
    && ap'.sets.Keys == ap.sets.Keys && SparesPlans(ap, ap')
  }

  lemma CommitMovesOn(ap: A.Sys, tid: A.Tid, e: A.Effect)
    requires tid in ap.threads && ap.threads[tid].id in ap.sets && e.cs.rec.plan == ap.sets[ap.threads[tid].id].rec.plan
    requires e.next.Some? && ap.threads[tid].Applies? ==>
      e.next.value.Applies? && e.next.value.rec.plan == ap.threads[tid].rec.plan && e.next.value.id == ap.threads[tid].id
    ensures MovedOn(ap, A.Commit(ap, tid, ap.threads[tid].id, e), tid)
  {
  }

  lemma HandlerMovesOn(s: Sys, tid: A.Tid, m: A.Move)
    requires SharesPlan(s.ap, tid) && A.Enabled(s.ap, A.Step(tid, m))
    requires Compared(s.readings, tid, s.ap.threads[tid]) && OwnComparison(s.readings, tid, s.ap.threads[tid], m)
    ensures MovedOn(s.ap, A.Do(s.ap, A.Step(tid, m)), tid)
  {
    var t := s.ap.threads[tid];
    MoveCarriesText(s.ap.sets[t.id], t, s.ap.tasks, s.ap.evidence, m, s.readings, tid);
    CommitMovesOn(s.ap, tid, A.MoveEffect(s.ap.sets[t.id], t, s.ap.tasks, s.ap.evidence, true, m));
  }

  lemma MoveKeepsReadings(w: Truth, s: Sys, s': Sys, tid: A.Tid)
    requires ReadingsOk(w, s) && MovedOn(s.ap, s'.ap, tid) && s'.ix == s.ix && s'.origins == s.origins
    requires forall who :: who in s'.readings ==>
      who in s.readings && s'.readings[who] == s.readings[who] && (who.ByApply? ==> who.tid in s'.ap.threads)
    ensures ReadingsOk(w, s')
  {
    forall who | who in s'.readings ensures Fits(s'.ap, s'.origins, who, s'.readings[who]) {
      assert Fits(s.ap, s.origins, who, s.readings[who]);
    }
  }

  lemma MoveKeepsOrigins(w: Truth, s: Sys, s': Sys)
    requires OriginsOk(w, s) && s'.ap.sets.Keys == s.ap.sets.Keys && SparesPlans(s.ap, s'.ap)
    requires s'.origins == s.origins && s'.ix.ttl == s.ix.ttl && s'.ix.now == s.ix.now
    ensures OriginsOk(w, s')
  {
    forall id | id in s'.ap.sets
      ensures id in s'.origins && OriginOk(w, s'.ix.ttl, s'.ix.now, s'.ap.sets[id].rec.plan, s'.origins[id])
    {
      assert id in s'.ap.sets.Keys;
    }
  }

  lemma HandlerStepKeeps(w: Truth, s: Sys, tid: A.Tid, m: A.Move)
    requires Tied(w, s) && SharesPlan(s.ap, tid) && A.Enabled(s.ap, A.Step(tid, m))
    requires OwnComparison(s.readings, tid, s.ap.threads[tid], m)
    ensures Tied(w, DoProtocol(s, A.Step(tid, m)))
  {
    assert Compared(s.readings, tid, s.ap.threads[tid]);
    HandlerKeepsComparisons(s, tid, m);
    HandlerMovesOn(s, tid, m);
    MoveKeepsReadings(w, s, DoProtocol(s, A.Step(tid, m)), tid);
    MoveKeepsOrigins(w, s, DoProtocol(s, A.Step(tid, m)));
  }

  /** Old handlers stay where they were and new ones have compared nothing. */
  predicate SparesThreads(ap: A.Sys, ap': A.Sys) {
    forall u :: u in ap'.threads ==>
      if u in ap.threads then ap'.threads[u] == ap.threads[u]
      else !ap'.threads[u].Applies? || ap'.threads[u].pc.Read?
  }

  lemma OtherStepSpares(ap: A.Sys, a: A.Action)
    requires S.Inv(ap) && A.Enabled(ap, a) && !a.Step?
    ensures SparesThreads(ap, A.Do(ap, a)) && SparesPlans(ap, A.Do(ap, a))
  {
    forall id | id in ap.sets ensures id in A.Do(ap, a).sets && A.Do(ap, a).sets[id].rec.plan == ap.sets[id].rec.plan {
      R.RecordsMoveForward(ap, a, id);
    }
  }

  lemma OnlyPlansAddSets(ap: A.Sys, a: A.Action)
    requires A.Enabled(ap, a) && !a.Step?
    ensures A.Do(ap, a).sets.Keys == ap.sets.Keys + (if a.PlanCreate? then {a.id} else {})
  {
  }

  lemma OtherStepKeepsComparisons(s: Sys, a: A.Action)
    requires ComparisonsOk(s) && A.Enabled(s.ap, a) && SparesThreads(s.ap, A.Do(s.ap, a))
    ensures ComparisonsOk(DoProtocol(s, a))
  {
    var s' := DoProtocol(s, a);
    forall u | u in s'.ap.threads ensures Compared(s'.readings, u, s'.ap.threads[u]) {
      if u in s.ap.threads { assert Compared(s.readings, u, s.ap.threads[u]); }
    }
  }

  lemma OtherStepKeepsReadings(w: Truth, s: Sys, a: A.Action)
    requires ReadingsOk(w, s) && A.Enabled(s.ap, a) && !a.Step? && SparesThreads(s.ap, A.Do(s.ap, a))
    ensures ReadingsOk(w, DoProtocol(s, a))
  {
    var s' := DoProtocol(s, a);
    if a.Crash? { assert s'.readings == map[]; }
    forall who | who in s'.readings ensures Fits(s'.ap, s'.origins, who, s'.readings[who]) {
      assert Fits(s.ap, s.origins, who, s.readings[who]);
    }
  }

  lemma OtherStepKeeps(w: Truth, s: Sys, a: A.Action)
    requires Tied(w, s) && A.Enabled(s.ap, a) && !a.Step? && !a.PlanCreate?
    requires SparesThreads(s.ap, A.Do(s.ap, a)) && SparesPlans(s.ap, A.Do(s.ap, a))
    ensures Tied(w, DoProtocol(s, a))
  {
    OnlyPlansAddSets(s.ap, a);
    OtherStepKeepsComparisons(s, a);
    OtherStepKeepsReadings(w, s, a);
    MoveKeepsOrigins(w, s, DoProtocol(s, a));
  }

  // ---- Planning ----------------------------------------------------------------------------------------

  /** The record of a plan call is what its reading says, and was true when it was made. */
  lemma PlannedOriginOk(w: Truth, ttl: nat, now: nat, r: Reading, op: V.Op, owner: string)
    requires Ready(r.stage) && TruthOk(w, ttl, r, now)
    ensures OriginOk(w, ttl, now, PlannedBy(r, op, owner), Origin(r, now))
  {
  }

  /** No handler is at work on a set that is not there yet. */
  ghost predicate Unused(ap: A.Sys, id: CsId) {
    id !in ap.sets && forall tid :: tid in ap.threads ==> ap.threads[tid].id != id
  }

  lemma NewSetsAreUnused(ap: A.Sys, id: CsId)
    requires S.Inv(ap) && id !in ap.sets
    ensures Unused(ap, id)
  {
    forall tid | tid in ap.threads ensures ap.threads[tid].id != id { assert S.OneThreadOk(ap, tid); }
  }

  lemma PlanKeepsComparisons(s: Sys, x: Action)
    requires x.PlanFrom? && CanPlan(s, x.plan, x.tid, x.id, x.op, x.owner) && ComparisonsOk(s)
    ensures ComparisonsOk(DoPlanFrom(s, x.plan, x.tid, x.id, x.op, x.owner))
  {
    var s' := DoPlanFrom(s, x.plan, x.tid, x.id, x.op, x.owner);
    forall u | u in s'.ap.threads ensures Compared(s'.readings, u, s'.ap.threads[u]) {
      if u != x.tid { assert Compared(s.readings, u, s.ap.threads[u]); }
    }
  }

  lemma PlanKeepsReadings(w: Truth, s: Sys, x: Action)
    requires x.PlanFrom? && CanPlan(s, x.plan, x.tid, x.id, x.op, x.owner) && ReadingsOk(w, s) && Unused(s.ap, x.id)
    ensures ReadingsOk(w, DoPlanFrom(s, x.plan, x.tid, x.id, x.op, x.owner))
  {
    var s' := DoPlanFrom(s, x.plan, x.tid, x.id, x.op, x.owner);
    forall who | who in s'.readings ensures Fits(s'.ap, s'.origins, who, s'.readings[who]) {
      assert Fits(s.ap, s.origins, who, s.readings[who]);
    }
  }

  lemma PlanKeepsOrigins(w: Truth, s: Sys, x: Action)
    requires x.PlanFrom? && CanPlan(s, x.plan, x.tid, x.id, x.op, x.owner) && OriginsOk(w, s)
    requires StageOk(w, s.ix, s.readings[ByPlan(x.plan)])
    ensures OriginsOk(w, DoPlanFrom(s, x.plan, x.tid, x.id, x.op, x.owner))
  {
    PlannedOriginOk(w, s.ix.ttl, s.ix.now, s.readings[ByPlan(x.plan)], x.op, x.owner);
  }

  lemma PlanKeeps(w: Truth, s: Sys, x: Action)
    requires Inv(w, s) && x.PlanFrom? && CanPlan(s, x.plan, x.tid, x.id, x.op, x.owner)
    ensures Tied(w, DoPlanFrom(s, x.plan, x.tid, x.id, x.op, x.owner))
  {
    ReadingRelies(w, s, ByPlan(x.plan));
    NewSetsAreUnused(s.ap, x.id);
    PlanKeepsComparisons(s, x);
    PlanKeepsReadings(w, s, x);
    PlanKeepsOrigins(w, s, x);
  }

  // ---- Every step ------------------------------------------------------------------------------------------

  /** The protocol's own step within a step, if it holds one. */
  function ProtocolStep(s: Sys, x: Action): Option<A.Action>
    requires Enabled(s, x)
  {
    if x.Protocol? then Some(x.a)
    else if x.Verify? then Some(VerifyStep(s, x.tid))
    else if x.PlanFrom? then Some(A.PlanCreate(x.tid, x.id, PlannedBy(s.readings[ByPlan(x.plan)], x.op, x.owner)))
    else None
  }

  /** A step is a step of the protocol, or leaves it alone. */
  lemma ProtocolMoves(w: Truth, s: Sys, x: Action)
    requires Enabled(s, x)
    ensures match ProtocolStep(s, x)
      case Some(a) => A.Enabled(s.ap, a) && Do(w, s, x).ap == A.Do(s.ap, a)
      case None => Do(w, s, x).ap == s.ap
  {
  }

  lemma ProtocolKeeps(w: Truth, s: Sys, x: Action)
    requires S.Inv(s.ap) && Enabled(s, x)
    ensures S.Inv(Do(w, s, x).ap)
  {
    ProtocolMoves(w, s, x);
    if ProtocolStep(s, x).Some? { S.StepKeeps(s.ap, ProtocolStep(s, x).value); }
  }

  lemma IndexKeeps(w: Truth, s: Sys, x: Action)
    requires K.Inv(w.world, s.ix) && Enabled(s, x)
    ensures K.Inv(w.world, Do(w, s, x).ix)
  {
    if x.Index? { K.StepKeeps(w.world, s.ix, x.b); }
    else if Reads(x) && Begun(s, x).Some? { K.StepKeeps(w.world, s.ix, Begun(s, x).value); }
  }

  lemma ProtocolStepKeeps(w: Truth, s: Sys, x: Action)
    requires Inv(w, s) && Enabled(s, x) && (x.Protocol? || x.Verify?)
    ensures Tied(w, Do(w, s, x))
  {
    var a := ProtocolStep(s, x).value;
    if a.Step? {
      HandlersSharePlan(s.ap, a.tid);
      HandlerStepKeeps(w, s, a.tid, a.move);
    } else {
      OtherStepSpares(s.ap, a);
      OtherStepKeeps(w, s, a);
    }
  }

  /** Every step keeps what ties handlers, index and cluster together. */
  lemma StepKeeps(w: Truth, s: Sys, x: Action)
    requires Inv(w, s) && Enabled(s, x)
    ensures Inv(w, Do(w, s, x))
  {
    ProtocolKeeps(w, s, x);
    IndexKeeps(w, s, x);
    if x.Protocol? || x.Verify? { ProtocolStepKeeps(w, s, x); }
    else if x.Index? { IndexMoves(w, s, x.b); }
    else if x.PlanFrom? { PlanKeeps(w, s, x); }
    else {
      NextReadingOk(w, s, x);
      ReadingStepKeeps(w, s, x);
    }
  }
}
