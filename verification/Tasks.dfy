/** Vendor task handles and exit statuses. */
module Tasks {
  import opened Text

  datatype Upid = Upid(node: string, kind: string, id: string)

  /** `Upid::parse`: `UPID`, at least eight more fields, and no empty node, type or id. */
  function ParseUpid(s: string): Option<Upid> {
    var parts := Split(s, ':');
    if |parts| < 9 || parts[0] != "UPID" then None
    else if parts[1] == "" || parts[5] == "" || parts[6] == "" then None
    else Some(Upid(parts[1], parts[5], parts[6]))
  }

  /** `parts` are the colon-separated fields of a task handle. */
  predicate HandleFields(parts: seq<string>) {
    && |parts| >= 9 && parts[0] == "UPID" && parts[1] != "" && parts[5] != "" && parts[6] != ""
    && forall i :: 0 <= i < |parts| ==> ':' !in parts[i]
  }

  /** Parsing finds the node, type and id a handle was printed from. */
  lemma ParseFindsPrintedFields(parts: seq<string>)
    requires HandleFields(parts)
    ensures ParseUpid(Join(parts, ':')) == Some(Upid(parts[1], parts[5], parts[6]))
  {
    SplitOfJoin(parts, ':');
  }

  /** And a text is a handle only if it was printed from such fields. */
  lemma ParsesExactlyHandles(s: string)
    ensures ParseUpid(s).Some? <==> exists parts :: HandleFields(parts) && Join(parts, ':') == s
  {
    JoinOfSplit(s, ':');
    forall parts | HandleFields(parts) && Join(parts, ':') == s ensures ParseUpid(s).Some? { ParseFindsPrintedFields(parts); }
    if ParseUpid(s).Some? { assert HandleFields(Split(s, ':')); }
  }

  const OK: string := "OK"

  /** `classify_exit_status`: only the exact text counts as success. */
  predicate Succeeded(exit: string) { exit == OK }

  /** A task-status answer: unreadable, or its two fields when they are strings. */
  datatype Answer = NoAnswer | Status(status: Option<string>, exit: Option<string>)

  datatype Probe = Pending | Ready(exit: string) | Broken

  /** One probe of `poll_proxmox_task`. */
  function PollOnce(a: Answer): Probe {
    match a
    case NoAnswer => Broken
    case Status(status, exit) =>
      if status == Some("running") then Pending
      else if status == Some("stopped") && exit.Some? then Ready(exit.value)
      else Broken
  }

  /** What startup recovery learns from one answer. */
  function RecoverOnce(a: Answer): Option<string> {
    match a
    case NoAnswer => None
    case Status(status, exit) => if status == Some("running") then None else exit
  }

  /** Whatever polling accepts as an outcome, recovery accepts as the same outcome. */
  lemma PollingAndRecoveryAgree(a: Answer)
    ensures PollOnce(a).Ready? ==> RecoverOnce(a) == Some(PollOnce(a).exit)
    ensures PollOnce(a).Pending? ==> RecoverOnce(a).None?
    ensures RecoverOnce(a).Some? ==> a.exit == RecoverOnce(a)
  {
  }

  /** Polling waits for a running task, takes a stopped one's exit status, and breaks off on everything else. */
  lemma PollingExactlyWhen(a: Answer, exit: string)
    ensures PollOnce(a).Pending? <==> a.Status? && a.status == Some("running")
    ensures PollOnce(a) == Ready(exit) <==> a == Status(Some("stopped"), Some(exit))
    ensures RecoverOnce(a) == Some(exit) <==> a.Status? && a.status != Some("running") && a.exit == Some(exit)
  {
    assert "stopped"[0] != "running"[0];
  }
}
