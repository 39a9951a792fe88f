/**
 * The `POST` handler of `src/server-api/update-project/route.ts`: it checks the project id,
 * fills an updates record field by field from the body, and passes both to `updateProject`
 * of `src/lib/data.ts`. `updateProject` is not part of this model: what it answers, or
 * the error it throws, is a parameter.
 */
module ServerUpdateProject {
  import opened Strings
  import Types

  /** The body's `pending`: absent, a single value, or a list. */
  datatype Pending = NoPending | One(item: string) | Many(items: seq<string>)

  /** The request body as parsed, or the message of the parse failure. */
  datatype Request =
    | Parsed(projectId: Option<string>, status: Option<string>, pending: Pending,
             details: Option<map<string, Types.DetailValue>>)
    | Unparsable(message: string)

  /** The fields `updateProject` is given; an absent one leaves that part of the project as it is. */
  datatype Updates = Updates(
    status: Option<string>,
    pending: Option<seq<string>>,
    details: Option<map<string, Types.DetailValue>>)

  /** What `updateProject` does: reports the project updated or not found, or throws. */
  datatype Call = Updated | NotFound | Threw(message: string)

  /** The JSON answer. */
  datatype Reply =
    | Refused(error: string)
    | Missing(error: string)
    | Failed(error: string, details: string)
    | UpdatedOk(projectId: string, updates: Updates, message: string)

  function Status(r: Reply): nat {
    match r
    case Refused(_) => 400
    case Missing(_) => 404
    case Failed(_, _) => 500
    case UpdatedOk(_, _, _) => 200
  }

  const IdRequired := "Project ID is required"
  const UpdateFailed := "Failed to update project"

  /** A string counts as given when it is present and not empty. */
  predicate Given(s: Option<string>) {
    s.Some? && s.value != []
  }

  /** `if (pending)`: a list, even an empty one, or a non-empty single value. */
  predicate PendingGiven(p: Pending) {
    p.Many? || (p.One? && p.item != [])
  }

  /**
   * What the updates record holds for a body: the status only when it is given, pending
   * only when given and then as a list (a single value wrapped), and the details as they are.
   */
  ghost predicate UpdatesFor(u: Updates, status: Option<string>, pending: Pending,
                             details: Option<map<string, Types.DetailValue>>) {
    (u.status.Some? <==> Given(status)) && (u.status.Some? ==> u.status == status) &&
    (u.pending.Some? <==> PendingGiven(pending)) &&
    (u.pending.Some? && pending.Many? ==> u.pending.value == pending.items) &&
    (u.pending.Some? && pending.One? ==> u.pending.value == [pending.item]) &&
    u.details == details
  }

  /** A body has one updates record. */
  lemma UpdatesForUnique(u: Updates, v: Updates, status: Option<string>, pending: Pending,
                         details: Option<map<string, Types.DetailValue>>)
    requires UpdatesFor(u, status, pending, details) && UpdatesFor(v, status, pending, details)
    ensures u == v
  {
  }

  /** Lines 20-24: the record starts empty and each given field is set in turn. */
  method BuildUpdates(status: Option<string>, pending: Pending, details: Option<map<string, Types.DetailValue>>)
    returns (u: Updates)
    ensures UpdatesFor(u, status, pending, details)
  {
    u := Updates(None, None, None);
    if Given(status) {
      u := u.(status := status);
    }
    if PendingGiven(pending) {
      u := u.(pending := Some(if pending.Many? then pending.items else [pending.item]));
    }
    if details.Some? {
      u := u.(details := details);
    }
  }

  /** `Project "ID" not found` */
  function NotFoundMessage(id: string): string {
    "Project \"" + id + "\" not found"
  }

  /**
   * `POST`: a missing or empty project id is refused; otherwise the updates are built and
   * passed on, with the record sent returned beside the reply; not found is a 404 and an
   * error thrown by the update a 500.
   */
  method Post(body: Request, call: Call) returns (r: Reply, sent: Option<Updates>)
    ensures Status(r) == 400 <==> body.Parsed? && !Given(body.projectId)
    ensures sent.Some? <==> body.Parsed? && Given(body.projectId)
    ensures sent.Some? ==> UpdatesFor(sent.value, body.status, body.pending, body.details)
    ensures Status(r) == 404 <==> sent.Some? && call.NotFound?
    ensures Status(r) == 200 <==> sent.Some? && call.Updated?
    ensures r.UpdatedOk? ==> r.projectId == body.projectId.value && Some(r.updates) == sent
    ensures r.Missing? ==> r.error == NotFoundMessage(body.projectId.value)
    ensures r.Failed? ==> r.details == (if body.Unparsable? then body.message else call.message)
  {
    sent := None;
    if body.Unparsable? {
      return Failed(UpdateFailed, body.message), None;
    }
    if !Given(body.projectId) {
      return Refused(IdRequired), None;
    }
    var id := body.projectId.value;
    var updates := BuildUpdates(body.status, body.pending, body.details);
    sent := Some(updates);
    match call
    case Threw(message) => r := Failed(UpdateFailed, message);
    case NotFound => r := Missing(NotFoundMessage(id));
    case Updated => r := UpdatedOk(id, updates, "Project \"" + id + "\" updated successfully");
  }

  /** An empty pending list is still sent, and an empty single value is not. */
  lemma EmptyPending(u: Updates, v: Updates, status: Option<string>,
                     details: Option<map<string, Types.DetailValue>>)
    requires UpdatesFor(u, status, Many([]), details) && UpdatesFor(v, status, One([]), details)
    ensures u.pending == Some([]) && v.pending.None?
  {
  }
}
