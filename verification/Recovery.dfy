/** The change-set store as an object, and the startup pass over it. */
module Recovery {
  import opened Text
  import opened Tasks
  import opened ChangeSets
  import P = ApplyProtocol

  /** The coordinator's store, with the contract its callers rely on. */
  class Coordinator {
    var records: map<CsId, Record>

    constructor ()
      ensures records == map[]
    {
      records := map[];
    }

    /** Every record once, in whatever order. */
    method ChangeSets() returns (listed: seq<(CsId, Record)>)
      ensures PartOf(listed, records)
      ensures forall id :: id in records ==> Lists(listed, id)
    {
      listed := [];
      var left := records.Keys;
      while left != {}
        invariant left <= records.Keys && PartOf(listed, records)
        invariant forall id :: id in records ==> (id in left <==> !Lists(listed, id))
        decreases |left|
      {
        var id :| id in left;
        listed := listed + [(id, records[id])];
        left := left - {id};
        assert listed[..|listed| - 1] + [listed[|listed| - 1]] == listed;
        forall k | k in records ensures k in left <==> !Lists(listed, k) { ListsStep(listed, k); }
      }
    }

    /** Replaces a stored record, or fails and leaves the store alone. */
    method Update(id: CsId, rec: Record, works: bool) returns (ok: bool)
      modifies this
      ensures ok == (works && id in old(records))
      ensures records == if ok then old(records)[id := rec] else old(records)
    {
      ok := works && id in records;
      if ok { records := records[id := rec]; }
    }

    /** The only way from `Approved` to `Applying`: one caller wins, the rest are refused. */
    method ClaimForApply(id: CsId, handleless: bool) returns (claimed: Option<Record>)
      modifies this
      ensures claimed.Some? <==> id in old(records) && old(records)[id].state == Approved
      ensures claimed.Some? ==> claimed.value == Claim(old(records)[id], handleless)
      ensures records == if claimed.Some? then old(records)[id := claimed.value] else old(records)
    {
      if id !in records || records[id].state != Approved { return None; }
      claimed := Some(records[id].(state := Applying, handleless := handleless));
      records := records[id := claimed.value];
    }
  }

  /** Two callers race for one approval: whoever comes second is refused. */
  method ClaimTwice(c: Coordinator, id: CsId) returns (first: Option<Record>, second: Option<Record>)
    modifies c
    ensures second.None?
    ensures first.Some? <==> id in old(c.records) && old(c.records)[id].state == Approved
  {
    first := c.ClaimForApply(id, true);
    second := c.ClaimForApply(id, true);
  }

  // ---- One pass -----------------------------------------------------------------------

  /** One record after the pass; `lost` are the records whose store write fails. */
  function Recovered(id: CsId, r: Record, clusters: set<string>, answers: CsId -> Answer, lost: set<CsId>): Record {
    match RecoveryOutcome(r, clusters, answers(id))
    case None => r
    case Some(ok) => if id in lost then r else Settled(r, ok)
  }

  function Pass(records: map<CsId, Record>, clusters: set<string>, answers: CsId -> Answer, lost: set<CsId>): map<CsId, Record> {
    map id | id in records :: Recovered(id, records[id], clusters, answers, lost)
  }

  type Listed = seq<(CsId, Record)>

  /** The store after one record: settled if an outcome was learnt and the write works. */
  function StoreOne(records: map<CsId, Record>, id: CsId, r: Record, outcome: Option<bool>, works: bool): map<CsId, Record> {
    if outcome.Some? && works then records[id := Settled(r, outcome.value)] else records
  }

  function ReceiptFor(id: CsId, outcome: Option<bool>): seq<(CsId, bool)> {
    if outcome.Some? then [(id, outcome.value)] else []
  }

  /** The store after the listed records have been looked at in turn. */
  function StoreAfter(
    records: map<CsId, Record>, listed: Listed, clusters: set<string>, answers: CsId -> Answer, lost: set<CsId>)
    : map<CsId, Record>
  {
    if listed == [] then records
    else
      var (id, r) := listed[|listed| - 1];
      var before := StoreAfter(records, listed[..|listed| - 1], clusters, answers, lost);
      StoreOne(before, id, r, RecoveryOutcome(r, clusters, answers(id)), id !in lost)
  }

  /** The receipts owed for the listed records: one each for those whose outcome was learnt. */
  function ReceiptsFor(listed: Listed, clusters: set<string>, answers: CsId -> Answer): seq<(CsId, bool)> {
    if listed == [] then []
    else
      var (id, r) := listed[|listed| - 1];
      var before := ReceiptsFor(listed[..|listed| - 1], clusters, answers);
      before + ReceiptFor(id, RecoveryOutcome(r, clusters, answers(id)))
  }

  /** A listing of the store: every record once. */
  predicate PartOf(listed: Listed, records: map<CsId, Record>) {
    && (forall i :: 0 <= i < |listed| ==> listed[i].0 in records && listed[i].1 == records[listed[i].0])
    && (forall i, j :: 0 <= i < j < |listed| ==> listed[i].0 != listed[j].0)
  }

  predicate Lists(listed: Listed, id: CsId) { exists i :: 0 <= i < |listed| && listed[i].0 == id }

  lemma ListsStep(listed: Listed, id: CsId)
    requires listed != []
    ensures Lists(listed, id) <==> Lists(listed[..|listed| - 1], id) || listed[|listed| - 1].0 == id
  {
    var init := listed[..|listed| - 1];
    if Lists(listed, id) && listed[|listed| - 1].0 != id {
      var i :| 0 <= i < |listed| && listed[i].0 == id;
      assert init[i].0 == id;
    }
    if Lists(init, id) {
      var i :| 0 <= i < |init| && init[i].0 == id;
      assert listed[i].0 == id;
    }
  }

  lemma {:induction false} StoreAfterAt(
    records: map<CsId, Record>, listed: Listed, clusters: set<string>, answers: CsId -> Answer, lost: set<CsId>, id: CsId)
    requires PartOf(listed, records) && id in records
    ensures StoreAfter(records, listed, clusters, answers, lost).Keys == records.Keys
    ensures StoreAfter(records, listed, clusters, answers, lost)[id]
      == if Lists(listed, id) then Recovered(id, records[id], clusters, answers, lost) else records[id]
  {
    if listed != [] {
      var init := listed[..|listed| - 1];
      StoreAfterAt(records, init, clusters, answers, lost, id);
      ListsStep(listed, id);
      if listed[|listed| - 1].0 == id { assert !Lists(init, id); }
    }
  }

  /** The receipts are exactly what the pass concluded, one for each record it concluded about. */
  lemma {:induction false} ReceiptsTellOutcomes(
    records: map<CsId, Record>, listed: Listed, clusters: set<string>, answers: CsId -> Answer, id: CsId, ok: bool)
    requires PartOf(listed, records)
    ensures (id, ok) in ReceiptsFor(listed, clusters, answers)
      <==> Lists(listed, id) && RecoveryOutcome(records[id], clusters, answers(id)) == Some(ok)
    ensures multiset(ReceiptsFor(listed, clusters, answers))[(id, ok)] <= 1
  {
    if listed != [] {
      ReceiptsTellOutcomes(records, listed[..|listed| - 1], clusters, answers, id, ok);
      ListsStep(listed, id);
      if listed[|listed| - 1].0 == id { assert !Lists(listed[..|listed| - 1], id); }
    }
  }

  /** The body of the recovery loop, for one record of the list. */
  method RecoverOneRecord(c: Coordinator, id: CsId, listed: Record, clusters: set<string>, answer: Answer, works: bool)
    returns (concluded: Option<bool>)
    requires id in c.records
    modifies c
    ensures concluded == RecoveryOutcome(listed, clusters, answer)
    ensures c.records == StoreOne(old(c.records), id, listed, concluded, works)
  {
    var record := listed;
    if record.state != Applying { return None; }
    if record.handle.None? { return None; }
    if ParseUpid(record.handle.value).None? { return None; }
    var parts := SplitOnce(record.plan.Device(), '/');
    if parts.None? { return None; }
    if parts.value.0 !in clusters { return None; }
    if answer.NoAnswer? { return None; }
    if answer.status == Some("running") { return None; }
    if answer.exit.None? { return None; }
    var succeeded := answer.exit.value == "OK";
    record := record.(state := if succeeded then Applied else Failed, handle := None);
    concluded := Some(succeeded);
    var _ := c.Update(id, record, works);
  }

  /** The recovery loop over a listing; `receipts` are the result receipts it hands to the evidence log. */
  method RecoverListed(
    c: Coordinator, listed: Listed, clusters: set<string>, answers: CsId -> Answer, lost: set<CsId>, evidence: bool)
    returns (receipts: seq<(CsId, bool)>)
    requires PartOf(listed, c.records)
    modifies c
    ensures c.records == StoreAfter(old(c.records), listed, clusters, answers, lost)
    ensures receipts == if evidence then ReceiptsFor(listed, clusters, answers) else []
  {
    ghost var was := c.records;
    receipts := [];
    for i := 0 to |listed|
      invariant c.records == StoreAfter(was, listed[..i], clusters, answers, lost) && c.records.Keys == was.Keys
      invariant receipts == if evidence then ReceiptsFor(listed[..i], clusters, answers) else []
    {
      ghost var next := listed[..i + 1];
      assert next[..i] == listed[..i] && next[i] == listed[i];
      var (id, record) := listed[i];
      var concluded := RecoverOneRecord(c, id, record, clusters, answers(id), id !in lost);
      if evidence { receipts := receipts + ReceiptFor(id, concluded); }
    }
    assert listed[..|listed|] == listed;
  }

  /** Having looked at every record once, in whatever order, is having made the pass. */
  lemma WholeListingIsThePass(
    records: map<CsId, Record>, listed: Listed, clusters: set<string>, answers: CsId -> Answer, lost: set<CsId>)
    requires PartOf(listed, records) && forall id :: id in records ==> Lists(listed, id)
    ensures StoreAfter(records, listed, clusters, answers, lost) == Pass(records, clusters, answers, lost)
  {
    var after := StoreAfter(records, listed, clusters, answers, lost);
    if records != map[] {
      var any :| any in records;
      StoreAfterAt(records, listed, clusters, answers, lost, any);
    } else {
      assert listed == [];
    }
    forall id | id in records ensures after[id] == Recovered(id, records[id], clusters, answers, lost) {
      StoreAfterAt(records, listed, clusters, answers, lost, id);
    }
  }

  /** `recover_in_flight`. */
  method RecoverInFlight(
    c: Coordinator, clusters: set<string>, answers: CsId -> Answer, lost: set<CsId>, evidence: bool)
    returns (receipts: seq<(CsId, bool)>)
    modifies c
    ensures c.records == Pass(old(c.records), clusters, answers, lost)
    ensures !evidence ==> receipts == []
    ensures evidence ==> exists listed ::
      && PartOf(listed, old(c.records)) && (forall id :: id in old(c.records) ==> Lists(listed, id))
      && receipts == ReceiptsFor(listed, clusters, answers)
  {
    var listed := c.ChangeSets();
    WholeListingIsThePass(c.records, listed, clusters, answers, lost);
    receipts := RecoverListed(c, listed, clusters, answers, lost, evidence);
  }

  // ---- What a pass does -------------------------------------------------------------------

  /** The record is in flight, its handle parses, its cluster is configured, and the task is reported finished with `exit`. */
  predicate Settles(r: Record, clusters: set<string>, answer: Answer, exit: string) {
    && r.state == Applying
    && r.handle.Some? && ParseUpid(r.handle.value).Some?
    && (exists i :: 0 <= i < |r.plan.Device()| && Names(r.plan.Device(), i, clusters))
    && answer.Status? && answer.status != Some("running") && answer.exit == Some(exit)
  }

  /** The text before the first slash of `device`, at `i`, is a configured cluster. */
  predicate Names(device: string, i: nat, clusters: set<string>)
    requires i < |device|
  {
    device[i] == '/' && '/' !in device[..i] && device[..i] in clusters
  }

  lemma OutcomeExactlyWhen(r: Record, clusters: set<string>, answer: Answer, exit: string)
    ensures Settles(r, clusters, answer, exit)
      <==> RecoveryOutcome(r, clusters, answer).Some? && answer.Status? && answer.exit == Some(exit)
    ensures Settles(r, clusters, answer, exit) ==> RecoveryOutcome(r, clusters, answer) == Some(exit == "OK")
  {
    var device := r.plan.Device();
    match SplitOnce(device, '/') {
      case None =>
      case Some((a, b)) =>
        assert device[|a|] == '/' && device[..|a|] == a;
        if a in clusters { assert Names(device, |a|, clusters); }
        forall i | 0 <= i < |device| && device[i] == '/' && '/' !in device[..i] ensures device[..i] == a {
          SplitOnceFinds(device[..i], '/', device[i + 1..]);
          assert device == device[..i] + ['/'] + device[i + 1..];
        }
    }
  }

  /**
   * A pass settles exactly those records, by the reported exit status, and changes
   * nothing else: not another record, and of a settled one only state and handle.
   */
  lemma PassSettlesExactly(records: map<CsId, Record>, clusters: set<string>, answers: CsId -> Answer, lost: set<CsId>, id: CsId)
    requires id in records
    ensures var r, r' := records[id], Pass(records, clusters, answers, lost)[id];
      && (r' != r <==> id !in lost && exists exit :: Settles(r, clusters, answers(id), exit))
      && (forall exit :: id !in lost && Settles(r, clusters, answers(id), exit) ==>
            r' == r.(state := if exit == "OK" then Applied else Failed, handle := None))
  {
    var r := records[id];
    forall exit
      ensures Settles(r, clusters, answers(id), exit)
        <==> RecoveryOutcome(r, clusters, answers(id)).Some? && answers(id).Status? && answers(id).exit == Some(exit)
      ensures Settles(r, clusters, answers(id), exit) ==> RecoveryOutcome(r, clusters, answers(id)) == Some(exit == "OK")
    {
      OutcomeExactlyWhen(r, clusters, answers(id), exit);
    }
  }

  /** Where the first pass lost writes, a second pass with the same answers makes them up; where it lost none, nothing is left. */
  lemma SecondPassCompletes(
    records: map<CsId, Record>, clusters: set<string>, answers: CsId -> Answer, lost: set<CsId>, later: set<CsId>)
    ensures Pass(Pass(records, clusters, answers, lost), clusters, answers, later)
         == Pass(records, clusters, answers, lost * later)
  {
  }

  lemma PassIsIdempotent(records: map<CsId, Record>, clusters: set<string>, answers: CsId -> Answer)
    ensures Pass(Pass(records, clusters, answers, {}), clusters, answers, {}) == Pass(records, clusters, answers, {})
  {
    SecondPassCompletes(records, clusters, answers, {}, {});
  }

  // ---- The pass as steps of the protocol ----------------------------------------------------

  /** What recovery does with one record, as steps of the machine. */
  function StepsFor(r: Record, id: CsId, clusters: set<string>, answer: Answer, works: bool): seq<P.Action> {
    if RecoveryOutcome(r, clusters, answer).None? then [P.RecoverProbe(id, answer)]
    else [P.RecoverProbe(id, answer), P.RecoverReceipt(true), P.RecoverSettle(works)]
  }

  lemma OneStepRun(s: P.Sys, a: P.Action)
    requires P.Enabled(s, a)
    ensures P.Runs(s, [a]) && P.After(s, [a]) == P.Do(s, a)
  {
    assert [a][1..] == [];
    assert P.Runs(P.Do(s, a), []);
  }

  lemma LongerRun(s: P.Sys, a: P.Action, rest: seq<P.Action>)
    requires P.Enabled(s, a) && P.Runs(P.Do(s, a), rest)
    ensures P.Runs(s, [a] + rest) && P.After(s, [a] + rest) == P.After(P.Do(s, a), rest)
  {
    assert ([a] + rest)[1..] == rest;
  }

  /** The receipt and the settling write after a conclusive probe. */
  lemma SettlesInTwoSteps(s: P.Sys, id: CsId, r: Record, ok: bool, works: bool)
    requires s.phase.Recovering? && s.phase.cursor == P.Knows(id, r, ok) && id in s.sets && s.sets[id].rec == r
    ensures var acts := [P.RecoverReceipt(true), P.RecoverSettle(works)];
      && P.Runs(s, acts)
      && var s' := P.After(s, acts);
         && s'.phase == P.Recovering(s.phase.todo, P.Idle) && s'.sets.Keys == s.sets.Keys
         && s'.sets[id].rec == (if works then Settled(r, ok) else r)
         && (forall other :: other in s.sets && other != id ==> s'.sets[other] == s.sets[other])
  {
    var s1 := P.Do(s, P.RecoverReceipt(true));
    OneStepRun(s1, P.RecoverSettle(works));
    LongerRun(s, P.RecoverReceipt(true), [P.RecoverSettle(works)]);
    assert [P.RecoverReceipt(true)] + [P.RecoverSettle(works)] == [P.RecoverReceipt(true), P.RecoverSettle(works)];
  }

  /** The machine's recovery of a record and the loop's agree, and neither touches another record. */
  lemma OneRecordAsSteps(s: P.Sys, id: CsId, answer: Answer, works: bool)
    requires P.CanProbe(s, id, answer) && id in s.sets && s.sets[id].rec == s.phase.todo[id]
    ensures var r := s.phase.todo[id];
      var acts := StepsFor(r, id, s.clusters, answer, works);
      && P.Runs(s, acts)
      && var s' := P.After(s, acts);
         && s'.phase == P.Recovering(s.phase.todo - {id}, P.Idle)
         && s'.sets.Keys == s.sets.Keys
         && s'.sets[id].rec == Recovered(id, r, s.clusters, _ => answer, if works then {} else {id})
         && (forall other :: other in s.sets && other != id ==> s'.sets[other] == s.sets[other])
  {
    var outcome := RecoveryOutcome(s.phase.todo[id], s.clusters, answer);
    if outcome.None? {
      OneStepRun(s, P.RecoverProbe(id, answer));
    } else {
      var rest := [P.RecoverReceipt(true), P.RecoverSettle(works)];
      SettlesInTwoSteps(P.Do(s, P.RecoverProbe(id, answer)), id, s.phase.todo[id], outcome.value, works);
      LongerRun(s, P.RecoverProbe(id, answer), rest);
      assert [P.RecoverProbe(id, answer)] + rest == StepsFor(s.phase.todo[id], id, s.clusters, answer, works);
    }
  }
}
