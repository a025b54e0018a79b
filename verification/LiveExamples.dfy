/** Writes of all three kinds do go out: runs from planning to the moment of the send. */
module LiveExamples {
  import opened Text
  import opened Guests
  import opened Grants
  import opened Protection
  import opened Authorization
  import opened Fingerprint
  import opened GuestReads
  import opened GuestCache
  import opened GuestCalls
  import opened ChangeSets
  import opened LiveProtocol
  import LiveSafety
  import opened LiveRuns
  import A = ApplyProtocol
  import C = CacheProtocol
  import K = CacheSafety
  import V = Vendor

  ghost predicate LeadsTo(w: Truth, s0: Sys, xs: seq<Action>, s: Sys) { Run(w, s0, xs) && After(w, s0, xs) == s }

  /** Some run of a new server and index leads to `s`. */
  ghost predicate Reached(w: Truth, s: Sys) { exists s0: Sys, xs: seq<Action> :: LeadsTo(w, s0, xs, s) }

  lemma Takes(w: Truth, s: Sys, x: Action) returns (s': Sys)
    requires Reached(w, s) && Enabled(s, x)
    ensures s' == Do(w, s, x) && Reached(w, s')
  {
    var s0: Sys, xs: seq<Action> :| LeadsTo(w, s0, xs, s);
    RunExtends(w, s0, xs, x);
    s' := Do(w, s, x);
    assert LeadsTo(w, s0, xs + [x], s');
  }

  // ---- The index, at the first moment ---------------------------------------------------

  /** Nobody holds the lock, and callers below `n` have come so far. */
  predicate Quiet(ix: C.Sys, n: nat) { ix.now == 0 && ix.writer.None? && forall c :: c in ix.callers ==> c < n }

  lemma IndexTakes(w: Truth, s: Sys, b: C.Action) returns (s': Sys)
    requires Reached(w, s) && C.Enabled(s.ix, b) && !b.Leave?
    ensures Reached(w, s') && s' == s.(ix := C.Do(w.world, s.ix, b))
  {
    s' := Takes(w, s, Index(b));
  }

  /** Only the index has moved, and nobody has come. */
  predicate Within(s: Sys, s': Sys, n: nat) { s' == s.(ix := s'.ix) && Quiet(s'.ix, n) }

  predicate AsksAt(s: Sys, u: C.Tid, cluster: string, vmid: u32) {
    C.ResolvesAt(s.ix, u) && s.ix.callers[u].cluster == cluster && s.ix.callers[u].vmid == vmid
  }

  /** An invalidation that has begun finishes. */
  lemma InvalidationRuns(w: Truth, s: Sys, n: nat, inv: C.Tid) returns (s': Sys)
    requires Reached(w, s) && Quiet(s.ix, n) && C.InvalidatesAt(s.ix, inv) && s.ix.callers[inv].step.Starting?
    ensures Reached(w, s') && Within(s, s', n) && Dropped(s', inv)
  {
    s' := IndexTakes(w, s, C.Bump(inv));
    s' := IndexTakes(w, s', C.LockToEvict(inv));
    s' := EvictionRuns(w, s', n, inv);
  }

  lemma EvictionRuns(w: Truth, s: Sys, n: nat, inv: C.Tid) returns (s': Sys)
    requires Reached(w, s) && Quiet(s.ix.(writer := None), n) && C.InvalidatesAt(s.ix, inv) && s.ix.callers[inv].step.Evicting?
    ensures Reached(w, s') && Within(s, s', n) && Dropped(s', inv)
  {
    s' := IndexTakes(w, s, C.Evict(inv));
    s' := IndexTakes(w, s', C.Finish(inv));
  }

  lemma LookupRuns(w: Truth, s: Sys, n: nat, u: C.Tid, cluster: string, vmid: u32) returns (s': Sys)
    requires Reached(w, s) && Quiet(s.ix, n) && AsksAt(s, u, cluster, vmid) && s.ix.callers[u].pc.Looking?
    ensures Reached(w, s') && Within(s, s', n) && AsksAt(s', u, cluster, vmid)
    ensures s'.ix.callers[u].pc.Served? || s'.ix.callers[u].pc.Missed?
  {
    s' := IndexTakes(w, s, C.Lookup(u));
  }

  lemma AskRuns(w: Truth, s: Sys, n: nat, u: C.Tid, cluster: string, vmid: u32) returns (s': Sys)
    requires Reached(w, s) && Quiet(s.ix, n) && AsksAt(s, u, cluster, vmid) && s.ix.callers[u].pc.Missed?
    ensures Reached(w, s') && Within(s, s', n) && AsksAt(s', u, cluster, vmid) && s'.ix.callers[u].pc.Answered?
  {
    s' := IndexTakes(w, s, C.LoadGeneration(u));
    s' := IndexTakes(w, s', C.Ask(u));
    s' := IndexTakes(w, s', C.Answer(u, 0));
  }

  /** An answer is published, if its generation still stands, and returned. */
  lemma AnswerRuns(w: Truth, s: Sys, n: nat, u: C.Tid, cluster: string, vmid: u32) returns (s': Sys)
    requires Reached(w, s) && Quiet(s.ix, n) && AsksAt(s, u, cluster, vmid) && s.ix.callers[u].pc.Answered?
    ensures Reached(w, s') && Within(s, s', n) && AsksAt(s', u, cluster, vmid) && s'.ix.callers[u].pc.Served?
  {
    s' := IndexTakes(w, s, C.LockToPublish(u));
    s' := IndexTakes(w, s', C.Compare(u));
    s' := ReturnRuns(w, s', n, u, cluster, vmid);
  }

  lemma ReturnRuns(w: Truth, s: Sys, n: nat, u: C.Tid, cluster: string, vmid: u32) returns (s': Sys)
    requires Reached(w, s) && Quiet(s.ix.(writer := None), n) && AsksAt(s, u, cluster, vmid)
    requires s.ix.callers[u].pc.Matched? || s.ix.callers[u].pc.Leaving?
    ensures Reached(w, s') && Within(s, s', n) && AsksAt(s', u, cluster, vmid) && s'.ix.callers[u].pc.Served?
  {
    s' := s;
    if s'.ix.callers[u].pc.Matched? { s' := IndexTakes(w, s', C.Publish(u)); }
    s' := IndexTakes(w, s', C.Return(u));
  }

  /** A resolve is served, from the cache or not, with what the cluster lists. */
  lemma ResolveRuns(w: Truth, s: Sys, n: nat, u: C.Tid, cluster: string, vmid: u32) returns (s': Sys)
    requires Reached(w, s) && Quiet(s.ix, n) && AsksAt(s, u, cluster, vmid) && s.ix.callers[u].pc.Looking?
    ensures Reached(w, s') && Within(s, s', n) && AsksAt(s', u, cluster, vmid) && ServedTruth(w, s', u)
  {
    s' := LookupRuns(w, s, n, u, cluster, vmid);
    if s'.ix.callers[u].pc.Missed? {
      s' := AskRuns(w, s', n, u, cluster, vmid);
      s' := AnswerRuns(w, s', n, u, cluster, vmid);
    }
    ServedTruly(w, s', u);
  }

  ghost predicate ServedTruth(w: Truth, s: Sys, u: C.Tid) {
    && Served(s, u)
    && var c := s.ix.callers[u];
       var listed := w.world(c.cluster, 0);
       c.pc.guest == C.Entry(listed, c.vmid) && c.pc.fetch.guests == listed && c.pc.fetch.sampled == 0
  }

  /** At the first moment every answer is of that moment. */
  lemma ServedTruly(w: Truth, s: Sys, u: C.Tid)
    requires Reached(w, s) && s.ix.now == 0 && Served(s, u)
    ensures ServedTruth(w, s, u)
  {
    var s0: Sys, xs: seq<Action> :| LeadsTo(w, s0, xs, s);
    InvariantOfRun(w, s0, xs);
    assert K.CallerOk(w.world, s.ix, u, s.ix.callers[u]);
  }

  // ---- The readings ---------------------------------------------------------------------

  /** What a call is about. */
  datatype Wanted = WantGuest(call: Call) | WantRestore(call: Call, owner: u32) | WantRule(call: Call, rule: string) {
    function About(): Subject { if WantRule? then OfRule(rule) else OfGuest(call.vmid) }
    predicate Kind(p: Planner) {
      match this
      case WantGuest(_) => p.PlanDestroy? && p.weighed.attempt.op == call.op
      case WantRestore(_, _) => p == PlanRestoreNewVmid(owner)
      case WantRule(_, _) => p.PlanHaRule?
    }
  }

  /** At the first moment the gate opens, or the target is free and the owner may be read. */
  predicate Admissible(w: Truth, want: Wanted) {
    var listing := w.world(want.call.cluster, 0);
    match want
    case WantGuest(call) =>
      && call.tier == Destructive && call.vmid in listing
      && Gate(call, Found(listing[call.vmid]), Found(listing[call.vmid])).Authorized?
    case WantRestore(call, owner) =>
      call.vmid !in listing && RestoreAdmits(call, owner, ReadFrom(listing, owner))
    case WantRule(_, _) => true
  }

  /** The text of what is there at the first moment. */
  function TextAtFirst(w: Truth, want: Wanted): string
    requires Admissible(w, want)
  {
    match want
    case WantGuest(call) =>
      GuestPreimage(StateOf(call.cluster, w.world(call.cluster, 0)[call.vmid], w.configs(call.cluster, call.vmid, 0)))
    case WantRestore(call, _) => RestoreTargetPreimage(call.cluster, call.vmid)
    case WantRule(call, rule) => HaRulePreimage(call.cluster, rule, w.rules(call.cluster, rule, 0))
  }

  /** Only the index and the reading of `who` have moved. */
  predicate HasCome(s: Sys, s': Sys, who: Who, n: nat) {
    && s'.ap == s.ap && s'.origins == s.origins && Quiet(s'.ix, n)
    && who in s'.readings && s'.readings.Keys == s.readings.Keys + {who}
  }

  /** A reading step that begins invalidation `n`, and the invalidation. */
  lemma DropRuns(w: Truth, s: Sys, x: Action, n: nat, cluster: string) returns (s': Sys)
    requires Reached(w, s) && Quiet(s.ix, n) && Reads(x) && CanRead(s, x)
    requires Begun(s, x) == Some(C.BeginInvalidate(n, Some(cluster)))
    ensures Reached(w, s') && HasCome(s, s', x.who, n + 1) && s'.readings[x.who] == NextReading(w, s, x) && Dropped(s', n)
  {
    s' := Takes(w, s, x);
    s' := InvalidationRuns(w, s', n + 1, n);
  }

  /** A reading step that begins resolve `n`, and the resolve. */
  lemma AnswerArrives(w: Truth, s: Sys, x: Action, n: nat, cluster: string, vmid: u32) returns (s': Sys)
    requires Reached(w, s) && Quiet(s.ix, n) && Reads(x) && CanRead(s, x)
    requires Begun(s, x) == Some(C.BeginResolve(n, cluster, vmid))
    ensures Reached(w, s') && HasCome(s, s', x.who, n + 1) && s'.readings[x.who] == NextReading(w, s, x)
    ensures AsksAt(s', n, cluster, vmid) && ServedTruth(w, s', n)
  {
    s' := Takes(w, s, x);
    s' := ResolveRuns(w, s', n + 1, n, cluster, vmid);
  }

  /** A reading step that begins nothing. */
  lemma ReadsOn(w: Truth, s: Sys, x: Action, n: nat) returns (s': Sys)
    requires Reached(w, s) && Quiet(s.ix, n) && Reads(x) && CanRead(s, x) && Begun(s, x).None?
    ensures Reached(w, s') && HasCome(s, s', x.who, n) && s'.readings[x.who] == NextReading(w, s, x)
  {
    s' := Takes(w, s, x);
  }

  /** The first reading step of a call. */
  function FirstStep(who: Who, want: Wanted, n: nat): Action {
    match want
    case WantGuest(call) => Invalidate(who, call, n)
    case WantRestore(call, owner) => AskOwner(who, call, owner, n)
    case WantRule(call, rule) => AskRule(who, call, rule)
  }

  /** The reading says what is there at the first moment, and what the call wanted. */
  predicate HasRead(w: Truth, want: Wanted, r: Reading)
    requires Admissible(w, want)
  {
    && r.call == want.call && Ready(r.stage) && SeenText(r) == TextAtFirst(w, want)
    && match want
       case WantGuest(_) => r.stage.Complete?
       case WantRestore(_, owner) => r.stage.Vacant? && r.stage.seen.owner == owner
       case WantRule(_, rule) => r.stage.RuleRead? && r.stage.rule == rule
  }

  /** The reading of `who` is of this call and has come to this stage. */
  predicate IsAt(s: Sys, who: Who, call: Call, stage: Stage) {
    ReadsAt(s, who) && s.readings[who].call == call && s.readings[who].stage == stage
  }

  /** Resolve `u` is of this guest and was served what the cluster lists. */
  ghost predicate Listed(w: Truth, s: Sys, u: C.Tid, cluster: string, vmid: u32) {
    AsksAt(s, u, cluster, vmid) && ServedTruth(w, s, u)
  }

  /** Only the index and the reading of `who` have moved, that to `stage`. */
  predicate ComesTo(s: Sys, s': Sys, who: Who, call: Call, stage: Stage, n: nat) {
    HasCome(s, s', who, n) && IsAt(s', who, call, stage)
  }

  lemma FirstAnswers(w: Truth, s: Sys, who: Who, call: Call, n: nat, inv: C.Tid) returns (s': Sys)
    requires Reached(w, s) && Quiet(s.ix, n) && IsAt(s, who, call, Dropping(inv)) && Dropped(s, inv)
    ensures Reached(w, s') && ComesTo(s, s', who, call, First(n), n + 1) && Listed(w, s', n, call.cluster, call.vmid)
  {
    s' := AnswerArrives(w, s, ResolveFirst(who, n), n, call.cluster, call.vmid);
  }

  lemma SecondAnswers(w: Truth, s: Sys, who: Who, call: Call, n: nat, u: C.Tid, g: Guest) returns (s': Sys)
    requires Reached(w, s) && Quiet(s.ix, n) && IsAt(s, who, call, First(u)) && Listed(w, s, u, call.cluster, call.vmid)
    requires C.Entry(w.world(call.cluster, 0), call.vmid) == Some(g)
    ensures Reached(w, s') && ComesTo(s, s', who, call, Second(Found(g), n), n + 1)
    ensures Listed(w, s', n, call.cluster, call.vmid)
  {
    s' := AnswerArrives(w, s, ResolveSecond(who, Found(g), n), n, call.cluster, call.vmid);
  }

  /** The second answer passes the gate, and the configuration is read. */
  lemma GuestIsAdmitted(w: Truth, s: Sys, who: Who, call: Call, n: nat, v: C.Tid, g: Guest) returns (s': Sys)
    requires Reached(w, s) && Quiet(s.ix, n) && IsAt(s, who, call, Second(Found(g), v))
    requires Listed(w, s, v, call.cluster, call.vmid) && C.Entry(w.world(call.cluster, 0), call.vmid) == Some(g)
    requires Gate(call, Found(g), Found(g)).Authorized?
    ensures Reached(w, s')
    ensures ComesTo(s, s', who, call, Complete(Found(g), g, 0, w.configs(call.cluster, call.vmid, 0), 0), n)
  {
    s' := ReadsOn(w, s, Admit(who), n);
    s' := ReadsOn(w, s', ReadConfig(who, 0), n);
  }

  lemma GuestReadRuns(w: Truth, s: Sys, who: Who, call: Call, n: nat, g: Guest) returns (s': Sys)
    requires Reached(w, s) && Quiet(s.ix, n) && CanRead(s, Invalidate(who, call, n))
    requires C.Entry(w.world(call.cluster, 0), call.vmid) == Some(g) && Gate(call, Found(g), Found(g)).Authorized?
    ensures Reached(w, s')
    ensures ComesTo(s, s', who, call, Complete(Found(g), g, 0, w.configs(call.cluster, call.vmid, 0), 0), n + 3)
  {
    s' := DropRuns(w, s, Invalidate(who, call, n), n, call.cluster);
    s' := FirstAnswers(w, s', who, call, n + 1, n);
    s' := SecondAnswers(w, s', who, call, n + 2, n + 1, g);
    s' := GuestIsAdmitted(w, s', who, call, n + 3, n + 2, g);
  }

  lemma OwnerAnswers(w: Truth, s: Sys, who: Who, call: Call, owner: u32, n: nat) returns (s': Sys)
    requires Reached(w, s) && Quiet(s.ix, n) && CanRead(s, AskOwner(who, call, owner, n))
    ensures Reached(w, s') && ComesTo(s, s', who, call, OwnerAsked(owner, n), n + 1) && Listed(w, s', n, call.cluster, owner)
  {
    s' := AnswerArrives(w, s, AskOwner(who, call, owner, n), n, call.cluster, owner);
  }

  lemma OwnerIsAdmitted(w: Truth, s: Sys, who: Who, call: Call, owner: u32, n: nat, u: C.Tid) returns (s': Sys, seen: OwnerSeen)
    requires Reached(w, s) && Quiet(s.ix, n) && IsAt(s, who, call, OwnerAsked(owner, u)) && Listed(w, s, u, call.cluster, owner)
    requires Admissible(w, WantRestore(call, owner))
    ensures Reached(w, s') && ComesTo(s, s', who, call, TargetDropping(seen, n), n + 1) && Dropped(s', n) && seen.owner == owner
  {
    seen := SeenOwner(s, owner, u);
    s' := DropRuns(w, s, DropForTarget(who, n), n, call.cluster);
  }

  lemma TargetIsFree(w: Truth, s: Sys, who: Who, call: Call, n: nat, seen: OwnerSeen, inv: C.Tid) returns (s': Sys)
    requires Reached(w, s) && Quiet(s.ix, n) && IsAt(s, who, call, TargetDropping(seen, inv)) && Dropped(s, inv)
    requires call.vmid !in w.world(call.cluster, 0)
    ensures Reached(w, s') && ComesTo(s, s', who, call, Vacant(seen, 0), n + 1)
  {
    s' := AnswerArrives(w, s, ResolveTarget(who, n), n, call.cluster, call.vmid);
    s' := ReadsOn(w, s', SeeVacant(who), n + 1);
  }

  lemma RestoreReadRuns(w: Truth, s: Sys, who: Who, call: Call, owner: u32, n: nat) returns (s': Sys, seen: OwnerSeen)
    requires Reached(w, s) && Quiet(s.ix, n) && Admissible(w, WantRestore(call, owner))
    requires CanRead(s, AskOwner(who, call, owner, n))
    ensures Reached(w, s') && ComesTo(s, s', who, call, Vacant(seen, 0), n + 3) && seen.owner == owner
  {
    s' := OwnerAnswers(w, s, who, call, owner, n);
    s', seen := OwnerIsAdmitted(w, s', who, call, owner, n + 1, n);
    s' := TargetIsFree(w, s', who, call, n + 2, seen, n + 1);
  }

  lemma RuleReadRuns(w: Truth, s: Sys, who: Who, call: Call, rule: string, n: nat) returns (s': Sys)
    requires Reached(w, s) && Quiet(s.ix, n) && CanRead(s, AskRule(who, call, rule))
    ensures Reached(w, s') && ComesTo(s, s', who, call, RuleRead(rule, w.rules(call.cluster, rule, 0), 0), n)
  {
    s' := ReadsOn(w, s, AskRule(who, call, rule), n);
    s' := ReadsOn(w, s', ReadRule(who, 0), n);
  }

  /** A call that may begin reads all it wants. */
  lemma ReadRuns(w: Truth, s: Sys, who: Who, want: Wanted, n: nat) returns (s': Sys)
    requires Reached(w, s) && Quiet(s.ix, n) && Admissible(w, want) && CanRead(s, FirstStep(who, want, n))
    ensures Reached(w, s') && HasCome(s, s', who, n + 3) && ReadsAt(s', who) && HasRead(w, want, s'.readings[who])
  {
    match want {
      case WantGuest(call) => s' := GuestReadRuns(w, s, who, call, n, w.world(call.cluster, 0)[call.vmid]);
      case WantRestore(call, owner) =>
        var seen: OwnerSeen;
        s', seen := RestoreReadRuns(w, s, who, call, owner, n);
      case WantRule(call, rule) => s' := RuleReadRuns(w, s, who, call, rule, n);
    }
  }

  // ---- One change set, from its plan to its send ------------------------------------------

  function Store(cluster: string, cs: A.Cs, t: Option<A.Thread>): A.Sys {
    A.Sys(A.Serving, false, true, {cluster}, map[0 := cs], if t.Some? then map[0 := t.value] else map[], map[])
  }

  /** Only the protocol has moved, to this store. */
  predicate StoreIs(s: Sys, s': Sys, ap: A.Sys) { s'.ap == ap && s'.ix == s.ix && s'.readings == s.readings }

  /** A step of the handler after which it is still there, or there are no readings to lose. */
  lemma HandlerTakes(w: Truth, s: Sys, cluster: string, cs: A.Cs, t: A.Thread, m: A.Move) returns (s': Sys)
    requires Reached(w, s) && s.ap == Store(cluster, cs, Some(t)) && t.id == 0
    requires A.CanMove(cs, t, map[], m) && !m.ApplyVerify?
    requires A.MoveEffect(cs, t, map[], false, true, m).next.Some? || s.readings == map[]
    requires s.readings.Keys <= {ByApply(0)}
    ensures var e := A.MoveEffect(cs, t, map[], false, true, m);
      Reached(w, s') && StoreIs(s, s', Store(cluster, e.cs, e.next))
  {
    s' := Takes(w, s, Protocol(A.Step(0, m)));
  }

  lemma HandlerEnters(w: Truth, s: Sys, cluster: string, cs: A.Cs, t: A.Thread) returns (s': Sys)
    requires Reached(w, s) && s.ap == Store(cluster, cs, None) && s.readings == map[] && cs.rec.preview && t.id == 0
    requires t.Approving? || t == A.Applies(0, cs.rec, A.Read)
    ensures Reached(w, s') && StoreIs(s, s', Store(cluster, cs, Some(t)))
  {
    s' := Takes(w, s, Protocol(if t.Approving? then A.ApproveRead(0, 0, t.who, t.actor) else A.ApplyRead(0, 0)));
  }

  lemma HandlerLeaves(w: Truth, s: Sys, cluster: string, cs: A.Cs, t: A.Thread) returns (s': Sys)
    requires Reached(w, s) && s.ap == Store(cluster, cs, Some(t)) && s.readings == map[]
    ensures Reached(w, s') && StoreIs(s, s', Store(cluster, cs, None))
  {
    s' := Takes(w, s, Protocol(A.Vanish(0)));
  }

  /** The plan is of what the call wanted. */
  predicate PlanIsOf(w: Truth, want: Wanted, plan: Plan)
    requires Admissible(w, want)
  {
    && want.Kind(plan.planner) && plan.Proper() && plan.cluster == want.call.cluster && plan.subject == want.About()
    && plan.owner == "planner" && plan.preimage == TextAtFirst(w, want)
  }

  lemma PlannedFromItsReading(w: Truth, want: Wanted, r: Reading, op: V.Op)
    requires Admissible(w, want) && HasRead(w, want, r)
    ensures PlanIsOf(w, want, PlannedBy(r, op, "planner"))
  {
  }

  lemma PlanMayRead(w: Truth, s: Sys, want: Wanted)
    requires Admissible(w, want) && s.ap.phase == A.Serving && want.call.cluster in s.ap.clusters && s.readings == map[]
    ensures CanRead(s, FirstStep(ByPlan(0), want, 0))
  {
  }

  lemma ApplyMayRead(w: Truth, s: Sys, want: Wanted, plan: Plan, cs: A.Cs, n: nat)
    requires Admissible(w, want) && PlanIsOf(w, want, plan) && s.readings == map[] && cs.rec.plan == plan
    requires s.ap == Store(plan.cluster, cs, Some(A.Applies(0, cs.rec, A.Read)))
    ensures CanRead(s, FirstStep(ByApply(0), want, n))
  {
  }

  lemma RecordIsMade(w: Truth, s: Sys, cluster: string, plan: Plan, op: V.Op) returns (s': Sys)
    requires Reached(w, s) && s.ap == A.Sys(A.Serving, false, true, {cluster}, map[], map[], map[])
    requires s.readings.Keys == {ByPlan(0)} && Ready(s.readings[ByPlan(0)].stage)
    requires plan == PlannedBy(s.readings[ByPlan(0)], op, "planner") && plan.Proper() && plan.cluster == cluster
    ensures Reached(w, s') && s'.readings == map[] && s'.ix == s.ix
    ensures s'.ap == Store(cluster, A.FreshSet(plan), Some(A.Planning(0, NewRecord(plan), A.Created)))
  {
    s' := Takes(w, s, PlanFrom(0, 0, 0, op, "planner"));
  }

  /** A plan call reads and creates its record. */
  lemma SomeRunPlans(w: Truth, ttl: nat, want: Wanted, op: V.Op) returns (s: Sys, plan: Plan)
    requires Admissible(w, want)
    ensures Reached(w, s) && s.readings == map[] && Quiet(s.ix, 3) && PlanIsOf(w, want, plan) && plan.op == op
    ensures s.ap == Store(plan.cluster, A.FreshSet(plan), Some(A.Planning(0, NewRecord(plan), A.Created)))
  {
    var c := want.call.cluster;
    s := NewServer(w, ttl, c);
    PlanMayRead(w, s, want);
    s := ReadRuns(w, s, ByPlan(0), want, 0);
    plan := PlannedBy(s.readings[ByPlan(0)], op, "planner");
    PlannedFromItsReading(w, want, s.readings[ByPlan(0)], op);
    s := RecordIsMade(w, s, c, plan, op);
  }

  lemma NewServer(w: Truth, ttl: nat, cluster: string) returns (s: Sys)
    ensures Reached(w, s) && Quiet(s.ix, 0) && s.readings == map[]
    ensures s.ap == A.Sys(A.Serving, false, true, {cluster}, map[], map[], map[])
  {
    s := Sys(A.Sys(A.Serving, false, true, {cluster}, map[], map[], map[]),
             C.Sys(ttl, 0, Cache(map[], 0), None, map[], [], 0, map[]), map[], map[]);
    assert LeadsTo(w, s, [], s);
  }

  /** It stores its preview, and somebody else approves. */
  lemma SomeRunApproves(w: Truth, ttl: nat, want: Wanted, op: V.Op) returns (s: Sys, plan: Plan)
    requires Admissible(w, want)
    ensures Reached(w, s) && s.readings == map[] && Quiet(s.ix, 3) && PlanIsOf(w, want, plan) && plan.op == op
    ensures s.ap == Store(plan.cluster, ApprovedSet(plan), None)
  {
    s, plan := SomeRunPlans(w, ttl, want, op);
    var c, cs, rec := plan.cluster, A.FreshSet(plan), NewRecord(plan);
    s := HandlerTakes(w, s, c, cs, A.Planning(0, rec, A.Created), A.PlanReadBack);
    s := HandlerTakes(w, s, c, cs, A.Planning(0, rec, A.ReadBack), A.PlanPreview(true));
    cs := cs.(rec := rec.(preview := true));
    s := HandlerLeaves(w, s, c, cs, A.Planning(0, rec, A.Previewed));
    s := HandlerEnters(w, s, c, cs, A.Approving(0, "approver", Human));
    s := HandlerTakes(w, s, c, cs, A.Approving(0, "approver", Human), A.ApproveCommit(true));
  }

  function ApprovedSet(plan: Plan): A.Cs {
    A.Cs(Record(plan, true, Approved, ApprovedBy("approver", Human), None, false), 0, V.Unsent, false, {}, false, false, None)
  }

  /** An apply that has read its plan's text passes its comparison. */
  lemma Compares(w: Truth, s: Sys, cluster: string, cs: A.Cs) returns (s': Sys)
    requires Reached(w, s) && s.ap == Store(cluster, cs, Some(A.Applies(0, cs.rec, A.Read))) && cs.rec.state == Approved
    requires s.readings.Keys == {ByApply(0)} && Ready(s.readings[ByApply(0)].stage)
    requires SeenText(s.readings[ByApply(0)]) == cs.rec.plan.preimage
    ensures Reached(w, s') && s'.readings == s.readings
    ensures s'.ap == Store(cluster, cs, Some(A.Applies(0, cs.rec, A.Verified(cs.rec.plan.preimage))))
  {
    s' := Takes(w, s, Verify(0));
  }

  /** An apply reads the same again and compares. */
  lemma SomeRunCompares(w: Truth, ttl: nat, want: Wanted, op: V.Op) returns (s: Sys, plan: Plan)
    requires Admissible(w, want)
    ensures Reached(w, s) && s.readings.Keys == {ByApply(0)} && PlanIsOf(w, want, plan) && plan.op == op
    ensures var cs := ApprovedSet(plan);
      s.ap == Store(plan.cluster, cs, Some(A.Applies(0, cs.rec, A.Verified(plan.preimage))))
  {
    s, plan := SomeRunApproves(w, ttl, want, op);
    var cs := ApprovedSet(plan);
    s := HandlerEnters(w, s, plan.cluster, cs, A.Applies(0, cs.rec, A.Read));
    ApplyMayRead(w, s, want, plan, cs, 3);
    s := ReadRuns(w, s, ByApply(0), want, 3);
    s := Compares(w, s, plan.cluster, cs);
  }

  /** It claims the approval and comes to its send. */
  lemma Claims(w: Truth, s: Sys, cluster: string, plan: Plan) returns (s': Sys)
    requires Reached(w, s) && s.readings.Keys == {ByApply(0)}
    requires var cs := ApprovedSet(plan); s.ap == Store(cluster, cs, Some(A.Applies(0, cs.rec, A.Verified(plan.preimage))))
    ensures Reached(w, s') && Sends(s', 0) && PlanOf(s', 0) == plan
  {
    var cs, text := ApprovedSet(plan), plan.preimage;
    s' := HandlerTakes(w, s, cluster, cs, A.Applies(0, cs.rec, A.Verified(text)), A.ApplyClaim(true));
    cs := cs.(rec := Claim(cs.rec, true));
    s' := HandlerTakes(w, s', cluster, cs, A.Applies(0, cs.rec, A.Claimed(text)), A.ApplyIntent(true));
  }

  /**
   * For every guest whose gate opens, every free target with a readable owner and
   * every rule there is a run in which the write, planned and approved, passes its
   * own call's checks and is about to go out.
   */
  lemma SomeWriteGoesOut(w: Truth, ttl: nat, want: Wanted, op: V.Op) returns (s: Sys)
    requires Admissible(w, want)
    ensures Reached(w, s) && Sends(s, 0)
    ensures var plan := PlanOf(s, 0);
      want.Kind(plan.planner) && plan.cluster == want.call.cluster && plan.subject == want.About() && plan.op == op
  {
    var plan: Plan;
    s, plan := SomeRunCompares(w, ttl, want, op);
    s := Claims(w, s, plan.cluster, plan);
  }
}
