/** Requests are carried out at most once, and preprocessing never disturbs work in progress. */
module StoreReplay {
  import opened Common
  import opened TaskRows
  import opened TaskInvariant
  import opened Store
  import opened StoreInvariant
  import opened StoreAdmin
  import opened StoreRuns
  import S = Sessions

  /* ---------- the logs only grow ---------- */

  ghost predicate Extends<K, V>(m: map<K, V>, m': map<K, V>) {
    forall k <- m :: k in m' && m'[k] == m[k]
  }

  ghost predicate LogsGrow(db: Db, db': Db) {
    && Extends(db.operations, db'.operations) && Extends(db.actions, db'.actions)
    && Extends(db.actionOps, db'.actionOps) && Extends(db.paths, db'.paths)
  }

  /** What a request with an operation identifier has been stored under. */
  predicate Numbered(c: Command) {
    c.DoSave? || c.DoComplete? || c.DoAbandon? || c.DoReopen?
  }

  function RouteOf(c: Command): Route
    requires Numbered(c)
  {
    match c
    case DoSave(_, _, _, _, _, _) => SaveRoute
    case DoComplete(_, _, _, _, _, _, _, _) => CompleteRoute
    case DoAbandon(_, _, _, _) => AbandonRoute
    case DoReopen(_, _, _) => ReopenRoute
  }

  function RequestOf(c: Command): Request
    requires Numbered(c)
  {
    match c
    case DoSave(_, _, _, _, _, request) => request
    case DoComplete(_, _, _, _, _, _, _, request) => request
    case DoAbandon(_, lease, _, confirm) => AbandonBody(lease, confirm)
    case DoReopen(_, t, _) => ReopenBody(t)
  }

  predicate Stored(db: Db, c: Command, response: Response)
    requires Numbered(c)
  {
    c.op in db.operations && db.operations[c.op] == Operation(c.fence.user, RouteOf(c), RequestOf(c), response)
  }

  /** A numbered request that is carried out is stored under its own, new number; one that is not changes nothing. */
  ghost predicate StoresOnce(db: Db, c: Command, out: (Db, Outcome))
    requires Numbered(c)
  {
    && LogsGrow(db, out.0)
    && (out.1.Ok? ==> c.op !in db.operations && Stored(out.0, c, out.1.response))
    && (!out.1.Ok? ==> out.0 == db)
  }

  lemma SaveStores(db: Db, c: Command)
    requires c.DoSave?
    ensures StoresOnce(db, c, Save(db, c.fence, c.lease, c.expected, c.dirty, c.op, c.request))
  {
    hide S.Admit, S.Touch, EditedVersion, PutVersion;
  }

  lemma CompleteStores(db: Db, c: Command)
    requires c.DoComplete?
    ensures StoresOnce(db, c, Complete(db, c.fence, c.lease, c.expected, c.target, c.reasons, c.dirty, c.op, c.request))
  {
    hide S.Admit, S.Touch, EditedVersion, SubmissionProblem, PublishedRows, Reasons;
  }

  lemma AbandonStores(db: Db, c: Command)
    requires c.DoAbandon?
    ensures StoresOnce(db, c, Abandon(db, c.fence, c.lease, c.op, c.confirm))
  {
    hide S.Admit, S.Touch, GivenUp;
  }

  lemma ReopenStores(db: Db, c: Command)
    requires c.DoReopen?
    ensures StoresOnce(db, c, Reopen(db, c.fence, c.task, c.op))
  {
    hide S.Admit, S.Touch, Revising;
  }

  lemma NumberedStep(db: Db, c: Command)
    requires Numbered(c)
    ensures StoresOnce(db, c, Step(db, c))
  {
    hide StoresOnce, Save, Complete, Abandon, Reopen;
    hide Claim, OperatorRelease, Preprocess, SessionStep, RevokeTasks, RestoreTasks, Release, Deactivate;
    match c
    case DoSave(_, _, _, _, _, _) => SaveStores(db, c);
    case DoComplete(_, _, _, _, _, _, _, _) => CompleteStores(db, c);
    case DoAbandon(_, _, _, _) => AbandonStores(db, c);
    case DoReopen(_, _, _) => ReopenStores(db, c);
  }

  /* ---------- administrative requests ---------- */

  function PayloadOf(c: Command): Payload
    requires Administrative(c)
  {
    match c
    case DoRevoke(_, annotator, items, reason, block, release) => RevokePayload(annotator, items, reason, block, release)
    case DoRestore(_, source, tasks, reason) => RestorePayload(source, tasks, reason)
    case DoRelease(_, t, reason) => ReleasePayload(t, reason)
    case DoDeactivate(_, u, reason) => DeactivatePayload(u, reason)
  }

  /** Whether the batch of an admin command is well formed, which is checked before anything else. */
  predicate WellFormed(c: Command) {
    match c
    case DoRevoke(_, _, items, _, _, _) => BatchOk(TasksOf(items))
    case DoRestore(_, _, tasks, _) => BatchOk(tasks)
    case _ => true
  }

  ghost predicate OpensOnce(db: Db, c: Command, out: (Db, Outcome))
    requires Administrative(c)
  {
    && (!out.1.Ok? ==> out.0 == db)
    && (out.1.Ok? ==>
          var db1 := OpenAction(db, c.admin, PayloadOf(c));
          && WellFormed(c) && BeginAction(db, c.admin, PayloadOf(c)).None? && out.1 == Ok(AdminDone(db.nextId))
          && out.0.operations == db.operations && out.0.actions == db1.actions && out.0.actionOps == db1.actionOps
          && out.0.paths == db.paths)
  }

  lemma RevokeOpens(db: Db, c: Command)
    requires Inv(db) && c.DoRevoke?
    ensures OpensOnce(db, c, RevokeTasks(db, c.admin, c.annotator, c.items, c.reason, c.block, c.release))
  {
    hide Inv, BatchOk, BeginAction, RevokeAll, MovedBy;
    RevokeStep(db, c);
  }

  lemma RestoreOpens(db: Db, c: Command)
    requires Inv(db) && c.DoRestore?
    ensures OpensOnce(db, c, RestoreTasks(db, c.admin, c.source, c.tasks, c.reason))
  {
    hide Inv, BatchOk, BeginAction, RestoreAll, MovedBy;
    RestoreStep(db, c);
  }

  lemma ReleaseOpens(db: Db, c: Command)
    requires Inv(db) && c.DoRelease?
    ensures OpensOnce(db, c, Release(db, c.admin, c.task, c.reason))
  {
    hide Inv, BeginAction, ResetOne, MovedBy;
    ReleaseStep(db, c);
  }

  lemma DeactivateOpens(db: Db, c: Command)
    requires Inv(db) && c.DoDeactivate?
    ensures OpensOnce(db, c, Deactivate(db, c.admin, c.user, c.reason))
  {
    hide Inv, Deactivate, BeginAction, Quiet, ActiveUser, OpenAction;
    DeactivationGoesThrough(db, c.admin, c.user, c.reason);
    if Deactivate(db, c.admin, c.user, c.reason).1.Ok? {
      DeactivateBody(db, c.admin, c.user, c.reason);
    } else {
      DeactivateStep(db, c);
    }
  }

  lemma AdminStep(db: Db, c: Command)
    requires Inv(db) && Administrative(c)
    ensures OpensOnce(db, c, Step(db, c))
  {
    hide Inv, OpensOnce, RevokeTasks, RestoreTasks, Release, Deactivate;
    hide Claim, Save, Complete, Abandon, Reopen, OperatorRelease, Preprocess, SessionStep;
    match c
    case DoRevoke(_, _, _, _, _, _) => RevokeOpens(db, c);
    case DoRestore(_, _, _, _) => RestoreOpens(db, c);
    case DoRelease(_, _, _) => ReleaseOpens(db, c);
    case DoDeactivate(_, _, _) => DeactivateOpens(db, c);
  }

  lemma OpenActionGrows(db: Db, admin: Admin, payload: Payload)
    requires Inv(db) && BeginAction(db, admin, payload).None?
    ensures LogsGrow(db, OpenAction(db, admin, payload))
  {
    hide TasksOk, HeldOk, S.AuthOk;
    assert db.nextId !in db.actions && admin.op !in db.actionOps;
  }

  /* ---------- all steps ---------- */

  lemma ClaimGrows(db: Db, fence: S.Fence, t: TaskId)
    requires LogsOk(db)
    ensures LogsGrow(db, Claim(db, fence, t).0)
  {
    hide S.Admit, S.Touch, Taken, Claimable;
  }

  lemma OperatorReleaseGrows(db: Db, c: Command)
    requires LogsOk(db) && c.DoOperatorRelease?
    ensures LogsGrow(db, Step(db, c).0)
  {
    hide S.Admit, S.Touch, S.Step, GivenUp;
  }

  lemma PreprocessGrows(db: Db, c: Command)
    requires LogsOk(db) && c.DoPreprocess?
    ensures LogsGrow(db, Step(db, c).0)
  {
    hide S.Admit, S.Touch, S.Step, Refreshed, NewRows, IsProtected;
  }

  lemma OtherStepGrows(db: Db, c: Command)
    requires LogsOk(db) && (c.DoClaim? || c.DoOperatorRelease? || c.DoPreprocess? || c.DoSession?)
    ensures LogsGrow(db, Step(db, c).0)
  {
    hide LogsOk, Claim, S.Step;
    if c.DoClaim? { ClaimGrows(db, c.fence, c.task); }
    if c.DoOperatorRelease? { OperatorReleaseGrows(db, c); }
    if c.DoPreprocess? { PreprocessGrows(db, c); }
  }

  lemma StepGrows(db: Db, c: Command)
    requires Inv(db)
    ensures LogsGrow(db, Step(db, c).0)
  {
    assert LogsOk(db);
    hide Inv, LogsOk, Step;
    if Administrative(c) {
      AdminStep(db, c);
      if Step(db, c).1.Ok? { OpenActionGrows(db, c.admin, PayloadOf(c)); }
    } else {
      if Numbered(c) { NumberedStep(db, c); } else { OtherStepGrows(db, c); }
    }
  }

  lemma {:induction false} RunGrows(db: Db, cs: seq<Command>)
    requires Inv(db)
    ensures LogsGrow(db, Run(db, cs))
    decreases |cs|
  {
    hide Inv, Step;
    if cs != [] {
      StepKeepsInv(db, cs[0]);
      StepGrows(db, cs[0]);
      RunGrows(Step(db, cs[0]).0, cs[1..]);
    }
  }

  /* ---------- replays ---------- */

  /** The same request, made through another session of its user. */
  function Through(c: Command, fence: S.Fence): Command
    requires Numbered(c)
  {
    match c
    case DoSave(_, lease, expected, dirty, op, request) => DoSave(fence, lease, expected, dirty, op, request)
    case DoComplete(_, lease, expected, target, reasons, dirty, op, request) =>
      DoComplete(fence, lease, expected, target, reasons, dirty, op, request)
    case DoAbandon(_, lease, op, confirm) => DoAbandon(fence, lease, op, confirm)
    case DoReopen(_, t, op) => DoReopen(fence, t, op)
  }

  /** Whether the request passes the checks made before its session is looked at. */
  predicate Sensible(c: Command) {
    (c.DoComplete? ==> Reasons(c.target, c.reasons).Good?) && (c.DoAbandon? ==> c.confirm)
  }

  lemma AcceptedIsSensible(db: Db, c: Command)
    requires Numbered(c) && Step(db, c).1.Ok?
    ensures Sensible(c)
  {
    hide Save, Reopen, Claim, OperatorRelease, Preprocess, SessionStep, RevokeTasks, RestoreTasks, Release, Deactivate;
    hide Begin, Leased, SubmissionProblem, PublishedRows, GivenUp, Reasons, EditedVersion;
  }

  lemma StoredIsReplayed(db: Db, c: Command, response: Response)
    requires Numbered(c) && Sensible(c) && Stored(db, c, response)
    ensures Step(db, c) == (db, match S.Admit(db.auth, c.fence)
                                case Some(why) => Err(Unauthorised(why))
                                case None => Replayed(response))
  {
    hide Claim, OperatorRelease, Preprocess, SessionStep, RevokeTasks, RestoreTasks, Release, Deactivate;
    hide Leased, SubmissionProblem, PublishedRows, GivenUp, Reasons, EditedVersion, S.Admit, Revising;
  }

  /** Exactly once: when a save, submission, give-up or reopening has been carried out, making the same request again, at
      any later time and through any session of the same user, changes nothing and is answered with the stored response
      unless the session itself is refused. */
  lemma CarriedOutOnce(db: Db, c: Command, cs: seq<Command>, fence: S.Fence)
    requires Inv(db) && Numbered(c) && Step(db, c).1.Ok? && fence.user == c.fence.user
    ensures var later := Run(Step(db, c).0, cs);
            Step(later, Through(c, fence)) == (later, match S.Admit(later.auth, fence)
                                                      case Some(why) => Err(Unauthorised(why))
                                                      case None => Replayed(Step(db, c).1.response))
  {
    hide Inv, Step, Run, Reasons, S.Admit;
    NumberedStep(db, c);
    AcceptedIsSensible(db, c);
    StepKeepsInv(db, c);
    RunGrows(Step(db, c).0, cs);
    StoredIsReplayed(Run(Step(db, c).0, cs), Through(c, fence), Step(db, c).1.response);
  }

  /** A number that is taken never lets a different request, or another user's, through. */
  lemma TakenNumberIsRefused(db: Db, c: Command)
    requires Numbered(c) && c.op in db.operations
    requires var o := db.operations[c.op]; !(o.user == c.fence.user && o.route == RouteOf(c) && o.request == RequestOf(c))
    ensures Step(db, c).0 == db && Step(db, c).1.Err?
  {
    hide Claim, OperatorRelease, Preprocess, SessionStep, RevokeTasks, RestoreTasks, Release, Deactivate;
    hide Leased, SubmissionProblem, PublishedRows, GivenUp, Reasons, EditedVersion, S.Admit, Revising;
  }

  function WithLiveness(c: Command, live: bool): Command
    requires Administrative(c)
  {
    c.(admin := c.admin.(sessionLive := live))
  }

  lemma OpenedIsReplayed(db: Db, c: Command, id: ActionId)
    requires Administrative(c) && WellFormed(c) && c.admin.confirm && ReasonOk(PayloadOf(c).reason)
    requires c.admin.op in db.actionOps && db.actionOps[c.admin.op] == id && id in db.actions
    requires db.actions[id].session == c.admin.session && db.actions[id].payload == PayloadOf(c)
    ensures Step(db, c) == (db, Replayed(AdminDone(id)))
  {
    hide Claim, Save, Complete, Abandon, Reopen, OperatorRelease, Preprocess, SessionStep, ReasonOk, BatchOk;
    hide OpenAction, RevokeAll, RestoreAll, ResetOne, ReleaseOf, UnreserveAll, RevokeSubmissions;
  }

  /** An admin command that has been carried out is never carried out again: repeating it, even after the admin session
      has ended, changes nothing and names the action it was carried out as. */
  lemma AdminCarriedOutOnce(db: Db, c: Command, cs: seq<Command>, live: bool)
    requires Inv(db) && Administrative(c) && Step(db, c).1.Ok?
    ensures var later := Run(Step(db, c).0, cs);
            Step(later, WithLiveness(c, live)) == (later, Replayed(AdminDone(db.nextId)))
  {
    AdminStep(db, c);
    StepKeepsInv(db, c);
    RunGrows(Step(db, c).0, cs);
    hide Inv, Step, Run, ReasonOk, BatchOk;
    var later := Run(Step(db, c).0, cs);
    assert db.nextId in Step(db, c).0.actions && c.admin.op in Step(db, c).0.actionOps;
    OpenedIsReplayed(later, WithLiveness(c, live), db.nextId);
  }

  /* ---------- preprocessing ---------- */

  /** For a path that has a task: the task is refreshed exactly when it is unprotected, the caller holds the processing
      lease and segments were asked for; protected tasks are left alone; no second task is ever made, and the case of an
      unprotected task without an open draft cannot arise. */
  lemma PreprocessKnownPath(db: Db, i: Ingest)
    requires Inv(db) && i.path in db.paths
    ensures var out, t := Preprocess(db, i), db.paths[i.path];
            && t in db.tasks
            && (out.1 == Ok(RefreshedTask(t)) <==> i.leaseHeld && !i.metadataOnly && !IsProtected(db.tasks[t]))
            && (out.1 != Ok(RefreshedTask(t)) ==> out.0 == db)
            && out.1 != Refuse(Internal) && out.0.tasks.Keys == db.tasks.Keys && out.0.paths == db.paths
  {
    hide Inv, RowsOk, Refreshed, IsProtected;
    PathHasTask(db, i.path);
    RowsFit(db, db.paths[i.path]);
    UntouchedHasDraft(db.tasks[db.paths[i.path]]);
  }

  lemma PathHasTask(db: Db, path: string)
    requires Inv(db) && path in db.paths
    ensures db.paths[path] in db.tasks
  {
  }

  lemma UntouchedHasDraft(r: Rows)
    requires RowsOk(r)
    ensures IsProtected(r) || (r.draft.Some? && r.draft.value in r.versions)
  {
  }

  /** A path keeps its task for ever. */
  lemma PathsAreStable(db: Db, cs: seq<Command>, path: string)
    requires Inv(db) && path in db.paths
    ensures path in Run(db, cs).paths && Run(db, cs).paths[path] == db.paths[path]
  {
    RunGrows(db, cs);
  }
}
