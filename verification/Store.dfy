/** The whole store and every transaction on it, as one step each.

    A transaction runs under row locks and rolls back when it raises, so it is one atomic step that either yields the
    new tables or leaves them as they were. Identifiers drawn by the server come from the counter `nextId`. The index
    on the annotator of an assignment is the map `held`.
 */
module Store {
  import opened Common
  import opened TaskRows
  import S = Sessions
  import G = Segments

  datatype Route = SaveRoute | CompleteRoute | AbandonRoute | ReopenRoute

  /** What a request is hashed from; the hash function is taken to be injective. */
  datatype Request =
    | Body(digest: string)
    | AbandonBody(lease: Option<Token>, confirm: bool)
    | ReopenBody(task: TaskId)

  datatype Operation = Operation(user: UserId, route: Route, request: Request, response: Response)

  datatype RevokeItem = RevokeItem(task: TaskId, expected: VersionId)

  datatype Payload =
    | RevokePayload(annotator: UserId, items: seq<RevokeItem>, reason: string, block: bool, release: bool)
    | RestorePayload(source: ActionId, tasks: seq<TaskId>, reason: string)
    | ReleasePayload(task: TaskId, reason: string)
    | DeactivatePayload(annotator: UserId, reason: string)

  datatype Action = Action(op: OperationId, session: nat, payload: Payload, at: nat)

  datatype Db = Db(
    auth: S.Auth,
    nextId: nat,
    paths: map<string, TaskId>,
    tasks: map<TaskId, Rows>,
    held: map<UserId, TaskId>,
    operations: map<OperationId, Operation>,
    actions: map<ActionId, Action>,
    actionOps: map<OperationId, ActionId>)

  datatype Response =
    | ClaimedTask(task: TaskId, assignment: Assignment)
    | ResumedTask(task: TaskId, assignment: Assignment)
    | SavedRevision(revision: nat)
    | CompletedTask(task: TaskId, status: Status, reasons: seq<string>)
    | AbandonedTask
    | ReopenedTask(task: TaskId, token: Token)
    | AdminDone(action: ActionId)
    | ReleasedByOperator
    | CreatedTask(task: TaskId)
    | RefreshedTask(task: TaskId)
    | SkippedHuman(task: TaskId)
    | MetadataOnly(task: TaskId)
    | SessionReply(reply: S.Reply)

  datatype Error = Unauthorised(rejection: S.Rejection) | Refused(refusal: Refusal)

  datatype Outcome = Ok(response: Response) | Replayed(response: Response) | Err(error: Error)

  function Refuse(why: Refusal): Outcome {
    Err(Refused(why))
  }

  /* ---------- shared pieces ---------- */

  function Reheld(held: map<UserId, TaskId>, before: Option<Assignment>, after: Option<Assignment>, t: TaskId)
    : map<UserId, TaskId>
  {
    var h := if before.Some? then held - {before.value.user} else held;
    if after.Some? then h[after.value.user := t] else h
  }

  /** Writing the rows of one task, with the index on assigned annotators kept up to date. */
  function SetRows(db: Db, t: TaskId, r: Rows): Db
    requires t in db.tasks
  {
    db.(tasks := db.tasks[t := r], held := Reheld(db.held, db.tasks[t].assignment, r.assignment, t))
  }

  predicate ActiveUser(db: Db, u: UserId) {
    u in db.auth.active && db.auth.active[u]
  }

  function TouchSession(db: Db, fence: S.Fence): Db {
    db.(auth := S.Touch(db.auth, fence))
  }

  function Record(db: Db, op: OperationId, o: Operation): Db {
    db.(operations := db.operations[op := o])
  }

  /** The start of an annotator's write: the session checks, then what a stored operation under this id says. */
  function Begin(db: Db, fence: S.Fence, op: OperationId, route: Route, request: Request): Option<Outcome> {
    var refused := S.Admit(db.auth, fence);
    if refused.Some? then Some(Err(Unauthorised(refused.value)))
    else if op in db.operations then
      var o := db.operations[op];
      Some(if o.user == fence.user && o.route == route && o.request == request
           then Replayed(o.response) else Refuse(Conflict))
    else None
  }

  function Finish(db: Db, fence: S.Fence, op: OperationId, route: Route, request: Request, response: Response)
    : (Db, Outcome)
  {
    (TouchSession(Record(db, op, Operation(fence.user, route, request, response)), fence), Ok(response))
  }

  predicate HasAssignment(db: Db, u: UserId) {
    u in db.held && db.held[u] in db.tasks && db.tasks[db.held[u]].assignment.Some?
  }

  /** The task the caller is assigned to, if the lease it presents is the one in force. */
  function Leased(db: Db, u: UserId, lease: Option<Token>): (r: Try<TaskId>)
    ensures r.Good? ==> HasAssignment(db, u) && r.value == db.held[u]
  {
    if !HasAssignment(db, u) then Bad(Conflict)
    else if lease.Some? && lease.value != db.tasks[db.held[u]].assignment.value.token then Bad(Forbidden)
    else Good(db.held[u])
  }

  /* ---------- annotators ---------- */

  /** `t` is the task that the search picked; any claimable task may be picked. */
  function Claim(db: Db, fence: S.Fence, t: TaskId): (Db, Outcome) {
    var u, refused := fence.user, S.Admit(db.auth, fence);
    if refused.Some? then (db, Err(Unauthorised(refused.value)))
    else if HasAssignment(db, u) then
      (TouchSession(db, fence), Ok(ResumedTask(db.held[u], db.tasks[db.held[u]].assignment.value)))
    else if t !in db.tasks || !Claimable(db.tasks[t], u) then (db, Refuse(NoTask))
    else
      var r := Taken(db.tasks[t], u, db.nextId, db.auth.now);
      (TouchSession(SetRows(db, t, r).(nextId := db.nextId + 1), fence), Ok(ClaimedTask(t, r.assignment.value)))
  }

  function Save(db: Db, fence: S.Fence, lease: Option<Token>, expected: int, dirty: seq<G.Dirty>,
                op: OperationId, request: Request): (Db, Outcome)
  {
    var early := Begin(db, fence, op, SaveRoute, request);
    if early.Some? then (db, early.value)
    else
      var leased := Leased(db, fence.user, lease);
      if leased.Bad? then (db, Refuse(leased.error))
      else
        var t := leased.value;
        var r := db.tasks[t];
        var v := r.assignment.value.version;
        var edited := EditedVersion(r, v, expected, dirty);
        if edited.Bad? then (db, Refuse(edited.error))
        else
          var ver := Saved(edited.value);
          Finish(SetRows(db, t, PutVersion(r, v, ver)), fence, op, SaveRoute, request, SavedRevision(ver.revision))
  }

  ghost function Complete(db: Db, fence: S.Fence, lease: Option<Token>, expected: int, target: Status,
                          skipReasons: seq<string>, dirty: seq<G.Dirty>, op: OperationId, request: Request)
    : (Db, Outcome)
  {
    var reasons := Reasons(target, skipReasons);
    if reasons.Bad? then (db, Refuse(reasons.error))
    else
      var early := Begin(db, fence, op, CompleteRoute, request);
      if early.Some? then (db, early.value)
      else
        var leased := Leased(db, fence.user, lease);
        if leased.Bad? then (db, Refuse(leased.error))
        else
          var t := leased.value;
          var r := db.tasks[t];
          var a := r.assignment.value;
          var edited := EditedVersion(r, a.version, expected, dirty);
          if edited.Bad? then (db, Refuse(edited.error))
          else
            var problem := SubmissionProblem(r, edited.value, target);
            if problem.Some? then (db, Refuse(problem.value))
            else
              Finish(SetRows(db, t, PublishedRows(r, a, edited.value, target, reasons.value)),
                     fence, op, CompleteRoute, request, CompletedTask(t, target, reasons.value))
  }

  function Abandon(db: Db, fence: S.Fence, lease: Option<Token>, op: OperationId, confirm: bool): (Db, Outcome) {
    if !confirm then (db, Refuse(Invalid))
    else
      var request := AbandonBody(lease, confirm);
      var early := Begin(db, fence, op, AbandonRoute, request);
      if early.Some? then (db, early.value)
      else
        var leased := Leased(db, fence.user, lease);
        if leased.Bad? then (db, Refuse(leased.error))
        else
          var r := db.tasks[leased.value];
          Finish(SetRows(db, leased.value, GivenUp(r, r.assignment.value)), fence, op, AbandonRoute, request,
                 AbandonedTask)
  }

  /** The operator's command-line release; it needs no session. */
  function OperatorRelease(db: Db, u: UserId): (Db, Outcome) {
    if !HasAssignment(db, u) then (db, Refuse(NotFound))
    else
      var r := db.tasks[db.held[u]];
      (SetRows(db, db.held[u], GivenUp(r, r.assignment.value)), Ok(ReleasedByOperator))
  }

  function Reopen(db: Db, fence: S.Fence, t: TaskId, op: OperationId): (Db, Outcome) {
    var u, request := fence.user, ReopenBody(t);
    var early := Begin(db, fence, op, ReopenRoute, request);
    if early.Some? then (db, early.value)
    else if HasAssignment(db, u) then (db, Refuse(Conflict))
    else if t !in db.tasks then (db, Refuse(NotFound))
    else
      var r := db.tasks[t];
      if r.current.None? then (db, Refuse(Conflict))
      else if !SubmittedBy(r, u) then (db, Refuse(Forbidden))
      else if r.draft.Some? then (db, Refuse(Conflict))
      else
        var r' := Revising(r, u, r.current.value, db.nextId, db.nextId + 1);
        Finish(SetRows(db, t, r').(nextId := db.nextId + 2), fence, op, ReopenRoute, request,
               ReopenedTask(t, db.nextId + 1))
  }

  /* ---------- administration ---------- */

  function TrimLeft(s: string): string {
    if s != "" && Space(s[0]) then TrimLeft(s[1..]) else s
  }

  function TrimRight(s: string): string {
    if s != "" && Space(s[|s| - 1]) then TrimRight(s[..|s| - 1]) else s
  }

  predicate ReasonOk(reason: string) {
    0 < |TrimRight(TrimLeft(reason))| <= 4000
  }

  datatype Admin = Admin(session: nat, sessionLive: bool, op: OperationId, confirm: bool)

  /** The start of every admin command: refusals and replays. */
  function BeginAction(db: Db, admin: Admin, payload: Payload): Option<Outcome> {
    if !admin.confirm || !ReasonOk(payload.reason) then Some(Refuse(Invalid))
    else if admin.op in db.actionOps && db.actionOps[admin.op] in db.actions then
      var id := db.actionOps[admin.op];
      Some(if db.actions[id].session == admin.session && db.actions[id].payload == payload
           then Replayed(AdminDone(id)) else Refuse(Conflict))
    else if !admin.sessionLive then Some(Refuse(Forbidden))
    else None
  }

  /** The new action takes the next identifier. */
  function OpenAction(db: Db, admin: Admin, payload: Payload): Db {
    db.(nextId := db.nextId + 1,
        actions := db.actions[db.nextId := Action(admin.op, admin.session, payload, db.auth.now)],
        actionOps := db.actionOps[admin.op := db.nextId])
  }

  function RevokeOne(db: Db, item: RevokeItem, annotator: UserId, action: ActionId, block: bool, release: bool): Try<Db> {
    if item.task !in db.tasks then Bad(NotFound)
    else
      var done := Revoke(db.tasks[item.task], item.expected, annotator, action, block, release, db.nextId);
      if done.Bad? then Bad(done.error)
      else Good(SetRows(db, item.task, done.value).(nextId := db.nextId + 1))
  }

  function RevokeAll(db: Db, items: seq<RevokeItem>, annotator: UserId, action: ActionId, block: bool, release: bool)
    : Try<Db>
    decreases |items|
  {
    if items == [] then Good(db)
    else
      var first := RevokeOne(db, items[0], annotator, action, block, release);
      if first.Bad? then first else RevokeAll(first.value, items[1..], annotator, action, block, release)
  }

  predicate BatchOk<T(==)>(xs: seq<T>) {
    0 < |xs| <= 100 && NoRepeats(xs)
  }

  function TasksOf(items: seq<RevokeItem>): (r: seq<TaskId>)
    ensures |r| == |items| && forall i :: 0 <= i < |items| ==> r[i] == items[i].task
  {
    if items == [] then [] else [items[0].task] + TasksOf(items[1..])
  }

  function RevokeTasks(db: Db, admin: Admin, annotator: UserId, items: seq<RevokeItem>, reason: string,
                       block: bool, release: bool): (Db, Outcome)
  {
    var payload := RevokePayload(annotator, items, reason, block, release);
    if !BatchOk(TasksOf(items)) then (db, Refuse(Invalid))
    else
      var early := BeginAction(db, admin, payload);
      if early.Some? then (db, early.value)
      else if annotator !in db.auth.active then (db, Refuse(NotFound))
      else
        var done := RevokeAll(OpenAction(db, admin, payload), items, annotator, db.nextId, block, release);
        if done.Bad? then (db, Refuse(done.error)) else (done.value, Ok(AdminDone(db.nextId)))
  }

  function RestoreAll(db: Db, tasks: seq<TaskId>, source: ActionId, at: nat): Try<Db>
    decreases |tasks|
  {
    if tasks == [] then Good(db)
    else if tasks[0] !in db.tasks then Bad(NotFound)
    else if !Restorable(db.tasks[tasks[0]], source, at) then Bad(Conflict)
    else
      var r := PutBack(db.tasks[tasks[0]], source);
      RestoreAll(SetRows(db, tasks[0], r), tasks[1..], source, at)
  }

  predicate RevokedIn(db: Db, t: TaskId, source: ActionId) {
    t in db.tasks && source in db.tasks[t].items
  }

  function RestoreTasks(db: Db, admin: Admin, source: ActionId, tasks: seq<TaskId>, reason: string): (Db, Outcome) {
    var payload := RestorePayload(source, tasks, reason);
    if !BatchOk(tasks) then (db, Refuse(Invalid))
    else
      var early := BeginAction(db, admin, payload);
      if early.Some? then (db, early.value)
      else if source !in db.actions || !db.actions[source].payload.RevokePayload? then (db, Refuse(Conflict))
      else if exists t <- tasks :: !RevokedIn(db, t, source) then (db, Refuse(Conflict))
      else if exists t <- tasks :: !ActiveUser(db, db.tasks[t].items[source].annotator) then (db, Refuse(Conflict))
      else if exists t <- tasks :: db.tasks[t].assignment.Some? then (db, Refuse(Conflict))
      else
        var done := RestoreAll(OpenAction(db, admin, payload), tasks, source, db.actions[source].at);
        if done.Bad? then (db, Refuse(done.error)) else (done.value, Ok(AdminDone(db.nextId)))
  }

  /** Release of one task; the identifier for a clean draft is drawn in any case. */
  function ResetOne(db: Db, t: TaskId): Try<Db> {
    if t !in db.tasks then Bad(NotFound)
    else
      var done := Reset(db.tasks[t], db.nextId);
      if done.Bad? then Bad(done.error) else Good(SetRows(db, t, done.value).(nextId := db.nextId + 1))
  }

  function Release(db: Db, admin: Admin, t: TaskId, reason: string): (Db, Outcome) {
    var payload := ReleasePayload(t, reason);
    var early := BeginAction(db, admin, payload);
    if early.Some? then (db, early.value)
    else if t !in db.tasks || db.tasks[t].assignment.None? then (db, Refuse(Conflict))
    else if db.tasks[t].assignment.value.user !in db.auth.active then (db, Refuse(Conflict))
    else
      var done := ResetOne(OpenAction(db, admin, payload), t);
      if done.Bad? then (db, Refuse(done.error))
      else if db.tasks[t].current.Some? || t !in done.value.tasks then (done.value, Ok(AdminDone(db.nextId)))
      else (SetRows(done.value, t, done.value.tasks[t].(reserved := None)), Ok(AdminDone(db.nextId)))
  }

  function SubmittedTasks(db: Db, u: UserId): set<TaskId> {
    set t <- db.tasks | SubmittedBy(db.tasks[t], u)
  }

  function RevokeSubmissions(db: Db, tasks: seq<TaskId>, u: UserId, action: ActionId): Try<Db>
    decreases |tasks|
  {
    if tasks == [] then Good(db)
    else if tasks[0] !in db.tasks || db.tasks[tasks[0]].current.None? then Bad(Conflict)
    else
      var r := db.tasks[tasks[0]];
      if r.assignment.Some? && r.assignment.value.user != u then Bad(Conflict)
      else
        var first := RevokeOne(db, RevokeItem(tasks[0], r.current.value), u, action, true, false);
        if first.Bad? then first else RevokeSubmissions(first.value, tasks[1..], u, action)
  }

  function UnreserveAll(db: Db, u: UserId): Db {
    db.(tasks := map t <- db.tasks :: Unreserved(db.tasks[t], u))
  }

  function EndSession(db: Db, u: UserId): Db {
    db.(auth := S.Drop(db.auth, u))
  }

  function CloseAccount(db: Db, u: UserId): Db {
    db.(auth := db.auth.(active := db.auth.active[u := false]))
  }

  function ReleaseOf(db: Db, u: UserId): Try<Db> {
    if HasAssignment(db, u) then ResetOne(db, db.held[u]) else Good(db)
  }

  function Deactivate(db: Db, admin: Admin, u: UserId, reason: string): (Db, Outcome) {
    var payload := DeactivatePayload(u, reason);
    var early := BeginAction(db, admin, payload);
    if early.Some? then (db, early.value)
    else if u !in db.auth.active then (db, Refuse(NotFound))
    else if !db.auth.active[u] then (db, Refuse(Conflict))
    else
      var released := ReleaseOf(EndSession(OpenAction(db, admin, payload), u), u);
      if released.Bad? then (db, Refuse(released.error))
      else
        var db2 := UnreserveAll(released.value, u);
        var done := RevokeSubmissions(db2, Ascending(SubmittedTasks(db2, u)), u, db.nextId);
        if done.Bad? then (db, Refuse(done.error)) else (CloseAccount(done.value, u), Ok(AdminDone(db.nextId)))
  }

  /* ---------- preprocessing ---------- */

  datatype Ingest = Ingest(path: string, duration: real, rows: G.Table, eligible: bool,
                           metadataOnly: bool, skipIfProtected: bool, leaseHeld: bool)

  function NewTask(db: Db, i: Ingest): Db {
    db.(paths := db.paths[i.path := db.nextId],
        tasks := db.tasks[db.nextId := NewRows(db.nextId + 1, db.nextId + 2, i.duration, i.rows, i.eligible)],
        nextId := db.nextId + 3)
  }

  /** Recognised segments arrive for an audio path, which may name an existing task. Inserting a second task under a
      path that is taken violates the unique path. */
  function Preprocess(db: Db, i: Ingest): (Db, Outcome) {
    if i.path in db.paths && db.paths[i.path] in db.tasks then
      var t := db.paths[i.path];
      var r := db.tasks[t];
      if !i.metadataOnly && !i.leaseHeld then (db, Refuse(Conflict))
      else if IsProtected(r) then (db, if i.skipIfProtected then Ok(SkippedHuman(t)) else Refuse(Protected))
      else if i.metadataOnly then (db, Ok(MetadataOnly(t)))
      else if r.draft.Some? && r.draft.value in r.versions then
        (SetRows(db, t, Refreshed(r, i.duration, i.rows, i.eligible)), Ok(RefreshedTask(t)))
      else (db, Refuse(Internal))
    else (NewTask(db, i), Ok(CreatedTask(db.nextId)))
  }

  /* ---------- commands and runs ---------- */

  datatype Command =
    | DoClaim(fence: S.Fence, task: TaskId)
    | DoSave(fence: S.Fence, lease: Option<Token>, expected: int, dirty: seq<G.Dirty>, op: OperationId, request: Request)
    | DoComplete(fence: S.Fence, lease: Option<Token>, expected: int, target: Status, reasons: seq<string>,
                 dirty: seq<G.Dirty>, op: OperationId, request: Request)
    | DoAbandon(fence: S.Fence, lease: Option<Token>, op: OperationId, confirm: bool)
    | DoReopen(fence: S.Fence, task: TaskId, op: OperationId)
    | DoOperatorRelease(user: UserId)
    | DoRevoke(admin: Admin, annotator: UserId, items: seq<RevokeItem>, reason: string, block: bool, release: bool)
    | DoRestore(admin: Admin, source: ActionId, tasks: seq<TaskId>, reason: string)
    | DoRelease(admin: Admin, task: TaskId, reason: string)
    | DoDeactivate(admin: Admin, user: UserId, reason: string)
    | DoPreprocess(ingest: Ingest)
    | DoSession(session: S.Command)

  /** The session commands open to callers; writes and deactivations reach the session table through the others. */
  function SessionStep(db: Db, c: S.Command): (Db, Outcome) {
    if c.Write? || c.Deactivate? then (db, Refuse(Invalid))
    else
      var (auth, reply) := S.Step(db.auth, c);
      (db.(auth := auth), Ok(SessionReply(reply)))
  }

  ghost function Step(db: Db, c: Command): (Db, Outcome) {
    match c
    case DoClaim(fence, t) => Claim(db, fence, t)
    case DoSave(fence, lease, expected, dirty, op, request) => Save(db, fence, lease, expected, dirty, op, request)
    case DoComplete(fence, lease, expected, target, reasons, dirty, op, request) =>
      Complete(db, fence, lease, expected, target, reasons, dirty, op, request)
    case DoAbandon(fence, lease, op, confirm) => Abandon(db, fence, lease, op, confirm)
    case DoReopen(fence, t, op) => Reopen(db, fence, t, op)
    case DoOperatorRelease(u) => OperatorRelease(db, u)
    case DoRevoke(admin, annotator, items, reason, block, release) =>
      RevokeTasks(db, admin, annotator, items, reason, block, release)
    case DoRestore(admin, source, tasks, reason) => RestoreTasks(db, admin, source, tasks, reason)
    case DoRelease(admin, t, reason) => Release(db, admin, t, reason)
    case DoDeactivate(admin, u, reason) => Deactivate(db, admin, u, reason)
    case DoPreprocess(ingest) => Preprocess(db, ingest)
    case DoSession(c) => SessionStep(db, c)
  }

  ghost function Run(db: Db, cs: seq<Command>): Db
    decreases |cs|
  {
    if cs == [] then db else Run(Step(db, cs[0]).0, cs[1..])
  }
}
