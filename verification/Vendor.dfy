/** What one write to the cluster comes back with, and what the server makes of it. */
module Vendor {
  import opened Text
  import opened Tasks

  /** The shapes of vendor write: a task, a volume deletion, an HA rule change. */
  datatype Op = TaskOp | VolumeOp | HaRuleOp

  /** A response body after JSON parsing: its `data` member, if it has one. */
  datatype Body = NotJson | NoData | Null | Text(text: string) | Other

  /** One send: no response, or a status and a body. */
  datatype Reply = NoResponse | Response(status: nat, body: Body)

  datatype ProxmoxError = Http | Api(status: nat) | Unauthorized | Denied | NotFound | Malformed | Config | UnknownCluster

  datatype Result<+T> = Ok(value: T) | Err(error: ProxmoxError)

  /** `ProxmoxError::from_response`. */
  function FromResponse(status: nat): ProxmoxError {
    if status == 401 || status == 403 then Unauthorized else Api(status)
  }

  /** The client's reading of a reply: the `data` member or an error. */
  function ClientResult(reply: Reply): Result<Body> {
    match reply
    case NoResponse => Err(Http)
    case Response(status, body) =>
      if status >= 400 then Err(FromResponse(status))
      else if body.NotJson? || body.NoData? then Err(Malformed)
      else Ok(body)
  }

  /** The operation's reading of it: the handle text, empty when there is none. */
  function OpResult(op: Op, reply: Reply): Result<string> {
    match ClientResult(reply)
    case Err(error) => Err(error)
    case Ok(data) =>
      match op
      case HaRuleOp => Ok("")
      case VolumeOp => Ok(if data.Text? then data.text else "")
      case TaskOp => if data.Text? && ParseUpid(data.text).Some? then Ok(data.text) else Err(Malformed)
  }

  /** Errors the apply handlers take as the cluster's own "no". */
  predicate Definitive(error: ProxmoxError) {
    error.Api? || error.Unauthorized? || error.Denied? || error.NotFound?
  }

  datatype Verdict = Refused | Synchronous | Started(upid: string) | Indeterminate

  /** How an apply handler goes on after its one write. */
  function Classify(op: Op, reply: Reply): Verdict {
    match OpResult(op, reply)
    case Err(error) => if Definitive(error) then Refused else Indeterminate
    case Ok(handle) =>
      if handle == "" then Synchronous
      else if ParseUpid(handle).Some? then Started(handle)
      else Indeterminate
  }

  // ---- The vendor's side --------------------------------------------------------

  /** What became of a change set's write. */
  datatype Fate = Unsent | InFlight | Lost | Rejected | Done | Task(upid: string)

  /**
   * The environment assumptions, in the vendor's terms: an error status means the
   * write was not accepted; a readable success means it was, and says as what.
   */
  predicate Truthful(op: Op, fate: Fate, reply: Reply) {
    reply.Response? ==>
      && (reply.status >= 400 ==> fate == Rejected)
      && (reply.status < 400 && !reply.body.NotJson? && !reply.body.NoData? ==>
          match op
          case HaRuleOp => fate == Done
          case VolumeOp =>
            if reply.body.Text? && reply.body.text != "" then
              ParseUpid(reply.body.text).Some? ==> fate == Task(reply.body.text)
            else fate == Done
          case TaskOp =>
            reply.body.Text? && ParseUpid(reply.body.text).Some? ==> fate == Task(reply.body.text))
  }

  lemma EmptyIsNoUpid()
    ensures ParseUpid("").None?
  {
    assert Split("", ':') == [""];
  }

  /** The server never reads more into a reply than the vendor's reply supports. */
  lemma VerdictIsEarned(op: Op, fate: Fate, reply: Reply)
    requires Truthful(op, fate, reply)
    ensures match Classify(op, reply)
      case Refused => fate == Rejected
      case Synchronous => fate == Done
      case Started(upid) => fate == Task(upid) && ParseUpid(upid).Some?
      case Indeterminate => true
  {
    EmptyIsNoUpid();
  }

  /** And gives up exactly on silence, an unreadable success, or a handle it cannot ask after. */
  lemma IndeterminateExactlyWhen(op: Op, reply: Reply)
    ensures Classify(op, reply).Indeterminate?
      <==> reply.NoResponse? || (reply.status < 400 &&
             (reply.body.NotJson? || reply.body.NoData?
              || (op.TaskOp? && !(reply.body.Text? && ParseUpid(reply.body.text).Some?))
              || (op.VolumeOp? && reply.body.Text? && reply.body.text != "" && ParseUpid(reply.body.text).None?)))
  {
    EmptyIsNoUpid();
  }

  /** Each verdict, by status, body and operation. */
  lemma VerdictExactlyWhen(op: Op, reply: Reply, upid: string)
    ensures var read := reply.Response? && reply.status < 400 && !reply.body.NotJson? && !reply.body.NoData?;
      && (Classify(op, reply).Refused? <==> reply.Response? && reply.status >= 400)
      && (Classify(op, reply).Synchronous? <==>
            read && (op.HaRuleOp? || (op.VolumeOp? && (reply.body.Text? ==> reply.body.text == ""))))
      && (Classify(op, reply) == Started(upid) <==>
            read && !op.HaRuleOp? && reply.body == Text(upid) && ParseUpid(upid).Some?)
  {
    EmptyIsNoUpid();
  }
}
