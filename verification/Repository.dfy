/** The repository itself: tables that transactions rewrite row by row.

    Each public method is one transaction. It is proved to do exactly what the corresponding step of the model does, so
    all that is proved of runs of the model holds for sequences of calls of these methods.
 */
module Repository {
  import opened Common
  import opened TaskRows
  import opened TaskInvariant
  import opened Store
  import opened StoreInvariant
  import S = Sessions
  import G = Segments
  import opened StoreAdmin
  import StoreRuns

  class AnnotationRepository {
    const policy: S.Policy
    var now: nat
    var active: map<UserId, bool>
    var sessions: map<UserId, S.Session>
    var nextId: nat
    var paths: map<string, TaskId>
    var tasks: map<TaskId, Rows>
    var held: map<UserId, TaskId>
    var operations: map<OperationId, Operation>
    var actions: map<ActionId, Action>
    var actionOps: map<OperationId, ActionId>

    function Auth(): S.Auth
      reads this
    {
      S.Auth(now, policy, active, sessions)
    }

    function State(): Db
      reads this
    {
      Db(Auth(), nextId, paths, tasks, held, operations, actions, actionOps)
    }

    ghost predicate Valid()
      reads this
    {
      Inv(State())
    }

    constructor (policy: S.Policy, now: nat)
      ensures this.policy == policy && State() == StoreRuns.EmptyStore(now, policy) && Valid()
    {
      this.policy, this.now, active, sessions, nextId := policy, now, map[], map[], 0;
      paths, tasks, held, operations, actions, actionOps := map[], map[], map[], map[], map[], map[];
    }

    /* ---------- sessions ---------- */

    method EnsureUser(user: UserId)
      modifies this`active
      ensures Auth() == S.EnsureUser(old(Auth()), user)
    {
      if user !in active { active := active[user := true]; }
    }

    method ReplaceActiveSession(user: UserId, sid: SessionId, previousGeneration: nat) returns (row: S.Session)
      modifies this`sessions
      ensures row == S.NewRow(old(Auth()), sid, previousGeneration) && Auth() == S.Store(old(Auth()), user, row)
    {
      var absolute := now + policy.absolute;
      var idle := if now + policy.idle <= absolute then now + policy.idle else absolute;
      row := S.Session(sid, previousGeneration + 1, now, now, now, idle, absolute);
      sessions := sessions[user := row];
    }

    method LoginOrResume(user: UserId, requested: SessionId, cookie: Option<S.Cookie>) returns (reply: S.Reply)
      requires Valid()
      modifies this`active, this`sessions
      ensures (Auth(), reply) == S.LoginStep(old(Auth()), user, requested, cookie) && Valid()
    {
      hide Inv, Moved, MoveOf, S.LoginStep;
      SessionCommandStep(State(), DoSession(S.Login(user, requested, cookie)));
      reply := ResumeOrReplace(user, requested, cookie);
    }

    /** Resumes the caller's own live session, replaces an expired or stale one, and turns away from a live one. */
    method ResumeOrReplace(user: UserId, requested: SessionId, cookie: Option<S.Cookie>) returns (reply: S.Reply)
      modifies this`active, this`sessions
      ensures (Auth(), reply) == S.LoginStep(old(Auth()), user, requested, cookie)
    {
      var known := active;
      EnsureUser(user);
      if !active[user] { return S.Rejected(S.AccountDeactivated); }
      if user !in sessions {
        var row := ReplaceActiveSession(user, requested, 0);
        return S.Entered(row);
      }
      var current := sessions[user];
      var idleExpired, absoluteExpired := current.idleExpires <= now, current.absoluteExpires <= now;
      if cookie.Some? && current.sid == cookie.value.sid
         && (cookie.value.generation.None? || current.generation == cookie.value.generation.value)
         && !idleExpired && !absoluteExpired
      {
        sessions := sessions[user := current.(lastSeen := now)];
        return S.Resumed(sessions[user]);
      }
      if idleExpired || absoluteExpired {
        var row := ReplaceActiveSession(user, requested, current.generation);
        return S.Entered(row);
      }
      if current.lastSeen + policy.presenceLease <= now {
        var row := ReplaceActiveSession(user, requested, current.generation);
        return S.TookOverStale(row);
      }
      active := known;
      reply := S.Rejected(S.SessionActive);
    }

    method ForceTakeover(user: UserId, requested: SessionId, observedGeneration: nat, observedSid: SessionId)
      returns (reply: S.Reply)
      requires Valid()
      modifies this`active, this`sessions
      ensures (Auth(), reply) == S.TakeoverStep(old(Auth()), user, requested, observedGeneration, observedSid) && Valid()
    {
      hide Inv, Moved, MoveOf;
      SessionCommandStep(State(), DoSession(S.Takeover(user, requested, observedGeneration, observedSid)));
      var known := active;
      EnsureUser(user);
      if !active[user] { return S.Rejected(S.AccountDeactivated); }
      if user !in sessions || sessions[user].generation != observedGeneration || sessions[user].sid != observedSid {
        active := known;
        return S.Rejected(S.SessionChanged);
      }
      var row := ReplaceActiveSession(user, requested, sessions[user].generation);
      reply := S.TookOverByForce(row);
    }

    method SessionHeartbeat(user: UserId, sid: SessionId, generation: Option<nat>, activity: bool) returns (reply: S.Reply)
      requires Valid()
      modifies this`sessions
      ensures (Auth(), reply) == S.HeartbeatStep(old(Auth()), user, sid, generation, activity) && Valid()
    {
      hide Inv, Moved, MoveOf;
      SessionCommandStep(State(), DoSession(S.Heartbeat(user, sid, generation, activity)));
      if user !in active { return S.Rejected(S.NotAuthenticated); }
      if !active[user] { return S.Rejected(S.AccountDeactivated); }
      if user !in sessions { return S.Rejected(S.NotAuthenticated); }
      var row := sessions[user];
      if row.sid != sid || (generation.Some? && row.generation != generation.value) {
        return S.Rejected(S.SessionReplaced);
      }
      if row.absoluteExpires <= now { return S.Rejected(S.AbsoluteTimeout); }
      if row.idleExpires <= now { return S.Rejected(S.IdleTimeout); }
      if activity && row.lastActivity + policy.throttle < now {
        row := row.(lastActivity := now, idleExpires := Min(now + policy.idle, row.absoluteExpires));
      }
      row := row.(lastSeen := now);
      sessions := sessions[user := row];
      reply := S.Beat(row.idleExpires, row.absoluteExpires);
    }

    method Logout(user: UserId, sid: SessionId, generation: Option<nat>)
      requires Valid()
      modifies this`sessions
      ensures Auth() == S.LogoutStep(old(Auth()), user, sid, generation).0 && Valid()
    {
      hide Inv, Moved, MoveOf;
      SessionCommandStep(State(), DoSession(S.Logout(user, sid, generation)));
      if user in sessions && sessions[user].sid == sid
         && (generation.None? || sessions[user].generation == generation.value)
      {
        sessions := sessions - {user};
      }
    }

    method PassTime(seconds: nat)
      requires Valid()
      modifies this`now
      ensures Auth() == S.Step(old(Auth()), S.Tick(seconds)).0 && Valid()
    {
      hide Inv, Moved, MoveOf;
      SessionCommandStep(State(), DoSession(S.Tick(seconds)));
      now := now + seconds;
    }

    /* ---------- what every write begins and ends with ---------- */

    method RequireSessionFence(fence: S.Fence) returns (why: Option<S.Rejection>)
      ensures why == S.FenceCheck(Auth(), fence)
    {
      if fence.user !in sessions { return Some(S.NotAuthenticated); }
      var row := sessions[fence.user];
      if row.sid != fence.sid || row.generation != fence.generation { return Some(S.SessionReplaced); }
      if row.absoluteExpires <= now { return Some(S.AbsoluteTimeout); }
      if row.idleExpires <= now { return Some(S.IdleTimeout); }
      why := None;
    }

    method LockActiveAnnotator(fence: S.Fence) returns (why: Option<S.Rejection>)
      ensures why == S.Admit(Auth(), fence)
    {
      if fence.user !in active { return Some(S.AnnotatorMissing); }
      if !active[fence.user] { return Some(S.AccountDeactivated); }
      why := RequireSessionFence(fence);
    }

    method TouchRealActivity(fence: S.Fence)
      modifies this`sessions
      ensures State() == TouchSession(old(State()), fence)
    {
      if fence.user in sessions {
        var row := sessions[fence.user];
        if row.sid == fence.sid && row.generation == fence.generation {
          row := row.(lastSeen := now, lastActivity := now, idleExpires := Min(now + policy.idle, row.absoluteExpires));
          sessions := sessions[fence.user := row];
        }
      }
    }

    method BeginWrite(fence: S.Fence, op: OperationId, route: Route, request: Request) returns (early: Option<Outcome>)
      ensures early == Begin(State(), fence, op, route, request)
    {
      var why := LockActiveAnnotator(fence);
      if why.Some? { return Some(Err(Unauthorised(why.value))); }
      if op in operations {
        var o := operations[op];
        if o.user != fence.user || o.route != route || o.request != request { return Some(Refuse(Conflict)); }
        return Some(Replayed(o.response));
      }
      early := None;
    }

    method FinishWrite(fence: S.Fence, op: OperationId, route: Route, request: Request, response: Response)
      returns (out: Outcome)
      modifies this`operations, this`sessions
      ensures (State(), out) == Finish(old(State()), fence, op, route, request, response)
    {
      operations := operations[op := Operation(fence.user, route, request, response)];
      TouchRealActivity(fence);
      out := Ok(response);
    }

    /** The caller's assignment, checked against the lease it presents. */
    method LockAssignment(user: UserId, lease: Option<Token>) returns (r: Try<TaskId>)
      ensures r == Leased(State(), user, lease)
    {
      if user !in held || held[user] !in tasks { return Bad(Conflict); }
      var a := tasks[held[user]].assignment;
      if a.None? { return Bad(Conflict); }
      if lease.Some? && lease.value != a.value.token { return Bad(Forbidden); }
      r := Good(held[user]);
    }

    /** Writing a task's rows; the index on assigned annotators follows. */
    method WriteRows(t: TaskId, r: Rows)
      requires t in tasks
      modifies this`tasks, this`held
      ensures State() == SetRows(old(State()), t, r)
    {
      var before := tasks[t].assignment;
      tasks := tasks[t := r];
      if before.Some? { held := held - {before.value.user}; }
      if r.assignment.Some? { held := held[r.assignment.value.user := t]; }
    }

    /** An update of one version row; the index on open versions follows. */
    method WriteVersion(t: TaskId, v: VersionId, ver: Version)
      requires t in tasks
      modifies this`tasks
      ensures tasks == old(tasks)[t := PutVersion(old(tasks)[t], v, ver)]
    {
      var r := tasks[t];
      r := r.(versions := r.versions[v := ver]);
      if ver.lifecycle.Draft? { r := r.(draft := Some(v)); }
      else if r.draft == Some(v) { r := r.(draft := None); }
      tasks := tasks[t := r];
    }

    /* ---------- claiming, saving ---------- */

    method Claim(fence: S.Fence, t: TaskId) returns (out: Outcome)
      requires Valid()
      modifies this
      ensures (State(), out) == Store.Claim(old(State()), fence, t) && Valid()
    {
      hide Inv, Moved, MoveOf;
      ghost var before := State();
      ClaimStep(before, DoClaim(fence, t));
      var why := LockActiveAnnotator(fence);
      if why.Some? { return Err(Unauthorised(why.value)); }
      if fence.user in held && held[fence.user] in tasks && tasks[held[fence.user]].assignment.Some? {
        out := Ok(ResumedTask(held[fence.user], tasks[held[fence.user]].assignment.value));
        TouchRealActivity(fence);
        return;
      }
      if t !in tasks || !Claimable(tasks[t], fence.user) { return Refuse(NoTask); }
      var r := tasks[t];
      var a := Assignment(fence.user, r.draft.value, AnnotationMode, nextId);
      nextId := nextId + 1;
      WriteRows(t, r.(assignment := Some(a), reserved := None, claimedAt := Some(now)));
      TouchRealActivity(fence);
      out := Ok(ClaimedTask(t, a));
    }

    /** Updates existing rows of a version one by one; after an error the rows before it have been written already, and
        the transaction has to be rolled back. */
    method ApplyDirtySegments(t: TaskId, v: VersionId, dirty: seq<G.Dirty>) returns (problem: Option<G.Error>)
      requires t in tasks && v in tasks[t].versions
      modifies this`tasks
      ensures var r := old(tasks)[t];
              match problem
              case Some(e) => G.Apply(r.versions[v].segments, dirty) == G.Err(e)
              case None =>
                && G.Apply(r.versions[v].segments, dirty).Ok?
                && tasks == old(tasks)[t := r.(versions := r.versions[v :=
                              r.versions[v].(segments := G.Apply(r.versions[v].segments, dirty).value)])]
    {
      var r := tasks[t];
      ghost var start := r.versions[v].segments;
      var current := r.versions[v].segments;
      var seen: set<int> := {};
      assert r.versions[v := r.versions[v].(segments := current)] == r.versions && tasks[t := r] == tasks;
      for n := 0 to |dirty|
        invariant tasks == old(tasks)[t := r.(versions := r.versions[v := r.versions[v].(segments := current)])]
        invariant G.Apply(start, dirty) == G.ApplyFrom(current, dirty[n..], seen)
      {
        var d := dirty[n];
        assert dirty[n..][0] == d && dirty[n..][1..] == dirty[n + 1..];
        var bad := G.Problem(d);
        if bad.Some? { return bad; }
        if d.id.value in seen { return Some(G.Repeated(d.id.value)); }
        seen := seen + {d.id.value};
        if d.id.value !in current { return Some(G.Missing(d.id.value)); }
        current := current[d.id.value := G.Edited(current[d.id.value], d)];
        tasks := tasks[t := r.(versions := r.versions[v := r.versions[v].(segments := current)])];
      }
      problem := None;
    }

    /** The revision check and the row updates that saving and completing share; an error calls for a rollback. */
    method EditWorkingVersion(t: TaskId, v: VersionId, expected: int, dirty: seq<G.Dirty>)
      returns (problem: Option<Refusal>)
      requires t in tasks
      modifies this`tasks
      ensures var r := old(tasks)[t];
              var edited := EditedVersion(r, v, expected, dirty);
              match problem
              case Some(e) => edited == Bad(e)
              case None => edited.Good? && tasks == old(tasks)[t := r.(versions := r.versions[v := edited.value])]
    {
      if v !in tasks[t].versions { return Some(Conflict); }
      var current := tasks[t].versions[v].revision;
      if current != expected { return Some(RevisionConflict(current)); }
      var bad := ApplyDirtySegments(t, v, dirty);
      if bad.Some? { return Some(InvalidSegments(bad.value)); }
      problem := None;
    }

    method SaveDraft(fence: S.Fence, lease: Option<Token>, expected: int, dirty: seq<G.Dirty>, op: OperationId,
                     request: Request) returns (out: Outcome)
      requires Valid()
      modifies this
      ensures (State(), out) == Save(old(State()), fence, lease, expected, dirty, op, request) && Valid()
    {
      hide Inv, Moved, MoveOf, EditedVersion, PutVersion, Begin, Reheld;
      SaveStep(State(), DoSave(fence, lease, expected, dirty, op, request));
      var early := BeginWrite(fence, op, SaveRoute, request);
      if early.Some? { return early.value; }
      var leased := LockAssignment(fence.user, lease);
      if leased.Bad? { return Refuse(leased.error); }
      var t := leased.value;
      var v := tasks[t].assignment.value.version;
      var saved := tasks;
      var problem := EditWorkingVersion(t, v, expected, dirty);
      if problem.Some? {
        tasks := saved;
        return Refuse(problem.value);
      }
      var ver := tasks[t].versions[v];
      WriteVersion(t, v, ver.(revision := ver.revision + 1, humanModified := true));
      LastWriteCounts(saved[t], v, ver, Saved(ver));
      assert tasks == saved[t := PutVersion(saved[t], v, Saved(ver))];
      HeldStays(old(State()), fence.user, PutVersion(saved[t], v, Saved(ver)));
      out := FinishWrite(fence, op, SaveRoute, request, SavedRevision(ver.revision + 1));
    }

    /* ---------- completing ---------- */

    /** The guarded update that freezes a draft's credit; it fails on a version that is not an uncredited draft. */
    method SnapshotDuration(t: TaskId, a: Assignment, target: Status) returns (frozen: bool)
      requires t in tasks && a.version in tasks[t].versions
      modifies this`tasks
      ensures var r := old(tasks)[t];
              var ver := r.versions[a.version];
              && frozen == (ver.lifecycle.Draft? && ver.credit.None?)
              && (frozen ==> tasks == old(tasks)[t := r.(versions := r.versions[a.version :=
                               ver.(credit := Some(FrozenCredit(r, ver, a, target)))])])
    {
      var r := tasks[t];
      var ver := r.versions[a.version];
      if !ver.lifecycle.Draft? || ver.credit.Some? { return false; }
      var credit := Credit(TrainableSegments, 0.0);
      if InheritsCredit(r, ver, a) {
        credit := r.versions[ver.base.value].credit.value;
      } else if target.Annotated? {
        var rows := G.SelectRows(ver.segments);
        var seconds := G.SumTrainable(rows);
        credit := Credit(TrainableSegments, seconds);
      }
      tasks := tasks[t := r.(versions := r.versions[a.version := ver.(credit := Some(credit))])];
      frozen := true;
    }

    method ValidateVersionSegments(t: TaskId, v: VersionId) returns (problem: Option<G.Error>)
      requires t in tasks && v in tasks[t].versions
      ensures problem.None? <==> G.TimelineOk(tasks[t].versions[v].segments, tasks[t].duration)
    {
      var rows := G.SelectRows(tasks[t].versions[v].segments);
      problem := G.ValidateTimeline(rows, tasks[t].duration);
    }

    /** Checks the working version, freezes its credit, supersedes the published version and takes its place. */
    method PublishWorkingVersion(t: TaskId, a: Assignment, target: Status, reasons: seq<string>)
      returns (problem: Option<Refusal>)
      requires t in tasks && a.version in tasks[t].versions
      modifies this`tasks
      ensures var r := old(tasks)[t];
              var ver := r.versions[a.version];
              && problem == SubmissionProblem(r, ver, target)
              && (problem.None? ==> tasks == old(tasks)[t := PublishedRows(r, a, ver, target, reasons)
                                                               .(assignment := r.assignment)])
    {
      hide Superseding, FrozenCredit;
      var r := tasks[t];
      var v := a.version;
      var bad := ValidateVersionSegments(t, v);
      if bad.Some? { return Some(Invalid); }
      if target.Annotated? && HasUntranscribed(r.versions[v].segments) { return Some(Invalid); }
      var frozen := SnapshotDuration(t, a, target);
      if !frozen { return Some(Internal); }
      var ver := tasks[t].versions[v];
      SupersedingSkips(r.versions, v, ver);
      tasks := tasks[t := tasks[t].(versions := Superseding(tasks[t].versions, v))];
      var submitted := ver.(lifecycle := Published, target := target, skipReasons := reasons, revision := ver.revision + 1,
                            humanModified := true, submitter := Some(a.user));
      LastWriteCounts(r.(versions := Superseding(r.versions, v)), v, ver, submitted);
      WriteVersion(t, v, submitted);
      tasks := tasks[t := tasks[t].(status := target, current := Some(v), reserved := None)];
      problem := None;
    }

    /** The rows of a completion; an error leaves the tables as they were. */
    method CompleteAssignment(t: TaskId, expected: int, target: Status, reasons: seq<string>, dirty: seq<G.Dirty>)
      returns (problem: Option<Refusal>)
      requires Valid() && t in tasks && tasks[t].assignment.Some?
      modifies this`tasks, this`held
      ensures problem.Some? ==> State() == old(State())
      ensures var r, a := old(tasks)[t], old(tasks)[t].assignment.value;
              match EditedVersion(r, a.version, expected, dirty)
              case Bad(e) => problem == Some(e)
              case Good(ver) =>
                && problem == SubmissionProblem(r, ver, target)
                && (problem.None? ==> State() == SetRows(old(State()), t, PublishedRows(r, a, ver, target, reasons)))
    {
      hide Inv, Moved, MoveOf, EditedVersion, PublishedRows, SubmissionProblem, Reheld;
      var a := tasks[t].assignment.value;
      var saved := tasks;
      problem := EditWorkingVersion(t, a.version, expected, dirty);
      if problem.Some? {
        tasks := saved;
        return;
      }
      EditedBase(old(State()), t, expected, dirty);
      PublishedFromEdited(saved[t], a, tasks[t].versions[a.version], target, reasons);
      problem := PublishWorkingVersion(t, a, target, reasons);
      if problem.Some? {
        tasks := saved;
        return;
      }
      WriteRows(t, tasks[t].(assignment := None));
      assert tasks == saved[t := tasks[t]];
    }

    method Complete(fence: S.Fence, lease: Option<Token>, expected: int, target: Status, skipReasons: seq<string>,
                    dirty: seq<G.Dirty>, op: OperationId, request: Request) returns (out: Outcome)
      requires Valid()
      modifies this
      ensures (State(), out) ==
              Store.Complete(old(State()), fence, lease, expected, target, skipReasons, dirty, op, request)
      ensures Valid()
    {
      hide Inv, Moved, MoveOf, EditedVersion, PublishedRows, SubmissionProblem, Begin, SetRows, Reasons;
      CompleteStep(State(), DoComplete(fence, lease, expected, target, skipReasons, dirty, op, request));
      var reasons := Reasons(target, skipReasons);
      if reasons.Bad? { return Refuse(reasons.error); }
      var early := BeginWrite(fence, op, CompleteRoute, request);
      if early.Some? { return early.value; }
      var leased := LockAssignment(fence.user, lease);
      if leased.Bad? { return Refuse(leased.error); }
      var problem := CompleteAssignment(leased.value, expected, target, reasons.value, dirty);
      if problem.Some? { return Refuse(problem.value); }
      out := FinishWrite(fence, op, CompleteRoute, request, CompletedTask(leased.value, target, reasons.value));
    }

    /* ---------- giving up and reopening ---------- */

    /** A revision draft is discarded; an annotation draft stays on the task. */
    method DropAssignment(t: TaskId)
      requires t in tasks && tasks[t].assignment.Some?
      modifies this`tasks, this`held
      ensures State() == SetRows(old(State()), t, GivenUp(old(tasks)[t], old(tasks)[t].assignment.value))
    {
      var a := tasks[t].assignment.value;
      if a.mode.RevisionMode? && a.version in tasks[t].versions && tasks[t].versions[a.version].lifecycle.Draft? {
        WriteVersion(t, a.version, tasks[t].versions[a.version].(lifecycle := Abandoned));
      }
      WriteRows(t, tasks[t].(assignment := None));
      assert tasks == old(tasks)[t := tasks[t]];
    }

    method Abandon(fence: S.Fence, lease: Option<Token>, op: OperationId, confirm: bool) returns (out: Outcome)
      requires Valid()
      modifies this
      ensures (State(), out) == Store.Abandon(old(State()), fence, lease, op, confirm) && Valid()
    {
      hide Inv, Moved, MoveOf, Begin, SetRows, GivenUp;
      AbandonStep(State(), DoAbandon(fence, lease, op, confirm));
      if !confirm { return Refuse(Invalid); }
      var early := BeginWrite(fence, op, AbandonRoute, AbandonBody(lease, confirm));
      if early.Some? { return early.value; }
      var leased := LockAssignment(fence.user, lease);
      if leased.Bad? { return Refuse(leased.error); }
      DropAssignment(leased.value);
      out := FinishWrite(fence, op, AbandonRoute, AbandonBody(lease, confirm), AbandonedTask);
    }

    method OperatorRelease(user: UserId) returns (out: Outcome)
      requires Valid()
      modifies this
      ensures (State(), out) == Store.OperatorRelease(old(State()), user) && Valid()
    {
      hide Inv, Moved, MoveOf, SetRows, GivenUp;
      OperatorReleaseStep(State(), DoOperatorRelease(user));
      if user !in held || held[user] !in tasks || tasks[held[user]].assignment.None? { return Refuse(NotFound); }
      DropAssignment(held[user]);
      out := Ok(ReleasedByOperator);
    }

    method ReopenCompleted(fence: S.Fence, t: TaskId, op: OperationId) returns (out: Outcome)
      requires Valid()
      modifies this
      ensures (State(), out) == Reopen(old(State()), fence, t, op) && Valid()
    {
      hide Inv, Moved, MoveOf, Begin, SetRows, Revising;
      ReopenStep(State(), DoReopen(fence, t, op));
      var early := BeginWrite(fence, op, ReopenRoute, ReopenBody(t));
      if early.Some? { return early.value; }
      if fence.user in held && held[fence.user] in tasks && tasks[held[fence.user]].assignment.Some? {
        return Refuse(Conflict);
      }
      if t !in tasks { return Refuse(NotFound); }
      var r := tasks[t];
      if r.current.None? { return Refuse(Conflict); }
      if r.current.value !in r.versions || r.versions[r.current.value].submitter != Some(fence.user) {
        return Refuse(Forbidden);
      }
      if r.draft.Some? { return Refuse(Conflict); }
      var token := OpenRevision(t, r.current.value, fence.user);
      out := FinishWrite(fence, op, ReopenRoute, ReopenBody(t), ReopenedTask(t, token));
    }

    /** A draft copied from the published version, assigned to its submitter. */
    method OpenRevision(t: TaskId, published: VersionId, user: UserId) returns (token: Token)
      requires t in tasks && published in tasks[t].versions && tasks[t].current == Some(published)
      modifies this`nextId, this`tasks, this`held
      ensures token == old(nextId) + 1
      ensures State() == SetRows(old(State()), t, Revising(old(tasks)[t], user, published, old(nextId), token))
                         .(nextId := old(nextId) + 2)
    {
      var r := tasks[t];
      var draft, base := nextId, r.versions[published];
      token := nextId + 1;
      nextId := nextId + 2;
      WriteVersion(t, draft, Version(Draft, r.status, r.current, 0, false, None, base.skipReasons, None, None, base.segments));
      WriteRows(t, tasks[t].(assignment := Some(Assignment(user, draft, RevisionMode, token))));
      assert tasks == old(tasks)[t := tasks[t]];
    }

    /* ---------- administration ---------- */

    method Rollback(saved: Db)
      requires saved.auth.policy == policy
      modifies this
      ensures State() == saved
    {
      now, active, sessions, nextId := saved.auth.now, saved.auth.active, saved.auth.sessions, saved.nextId;
      paths, tasks, held, operations := saved.paths, saved.tasks, saved.held, saved.operations;
      actions, actionOps := saved.actions, saved.actionOps;
    }

    method BeginAdminAction(admin: Admin, payload: Payload) returns (early: Option<Outcome>)
      modifies this`nextId, this`actions, this`actionOps
      ensures early == BeginAction(old(State()), admin, payload)
      ensures State() == if early.Some? then old(State()) else OpenAction(old(State()), admin, payload)
    {
      if !admin.confirm || !ReasonOk(payload.reason) { return Some(Refuse(Invalid)); }
      if admin.op in actionOps && actionOps[admin.op] in actions {
        var prior := actions[actionOps[admin.op]];
        if prior.session != admin.session || prior.payload != payload { return Some(Refuse(Conflict)); }
        return Some(Replayed(AdminDone(actionOps[admin.op])));
      }
      if !admin.sessionLive { return Some(Refuse(Forbidden)); }
      var id := nextId;
      nextId := nextId + 1;
      actions := actions[id := Action(admin.op, admin.session, payload, now)];
      actionOps := actionOps[admin.op := id];
      early := None;
    }

    method AbandonIfDraft(t: TaskId, v: VersionId)
      requires t in tasks
      modifies this`tasks
      ensures tasks == old(tasks)[t := AbandonDraft(old(tasks)[t], v)]
    {
      if v in tasks[t].versions && tasks[t].versions[v].lifecycle.Draft? {
        WriteVersion(t, v, tasks[t].versions[v].(lifecycle := Abandoned));
      }
    }

    method ReleaseTaskDraft(t: TaskId)
      requires t in tasks
      modifies this`tasks, this`held
      ensures State() == SetRows(old(State()), t, Released(old(tasks)[t]))
    {
      var a := tasks[t].assignment;
      if a.Some? {
        AbandonIfDraft(t, a.value.version);
        WriteRows(t, tasks[t].(assignment := None));
      }
      if tasks[t].draft.Some? { AbandonIfDraft(t, tasks[t].draft.value); }
      assert tasks == old(tasks)[t := tasks[t]];
    }

    method CloneCleanDraft(t: TaskId, draft: VersionId) returns (problem: Option<Refusal>)
      requires t in tasks
      modifies this`tasks
      ensures match CloneClean(old(tasks)[t], draft)
              case Good(r) => problem.None? && tasks == old(tasks)[t := r]
              case Bad(e) => problem == Some(e) && tasks == old(tasks)
    {
      var r := tasks[t];
      if r.baseline.None? || r.baseline.value !in r.versions || !r.versions[r.baseline.value].lifecycle.Baseline? {
        return Some(Conflict);
      }
      if r.draft.Some? { return Some(Conflict); }
      var base := r.versions[r.baseline.value].segments;
      var rows := map k <- base :: base[k].(text := "", exclude := false);
      assert rows == map k <- base :: Cleaned(base[k]);
      WriteVersion(t, draft, Version(Draft, Pending, r.baseline, 0, false, None, [], None, None, rows));
      problem := None;
    }

    /** Takes back the current submission; an error calls for a rollback. */
    method RevokeLockedTask(t: TaskId, expected: VersionId, annotator: UserId, action: ActionId, block: bool,
                            release: bool) returns (problem: Option<Refusal>)
      requires t in tasks
      modifies this`tasks, this`held, this`nextId
      ensures match RevokeOne(old(State()), RevokeItem(t, expected), annotator, action, block, release)
              case Good(db) => problem.None? && State() == db
              case Bad(e) => problem == Some(e)
    {
      hide Reheld, CloneClean;
      var r := tasks[t];
      if r.current != Some(expected) { return Some(Conflict); }
      if expected !in r.versions || !r.versions[expected].lifecycle.Published? { return Some(Conflict); }
      if r.versions[expected].submitter != Some(annotator) { return Some(Conflict); }
      if r.baseline.None? { return Some(Conflict); }
      problem := ReleaseConflicts(t, release);
      if problem.Some? { return; }
      if expected !in tasks[t].versions { return Some(Internal); }
      WithdrawVersion(t, expected, action);
      var draft := nextId;
      nextId := nextId + 1;
      ghost var withdrawn := tasks[t];
      problem := CloneCleanDraft(t, draft);
      if problem.Some? { return; }
      CloneKeepsAssignment(withdrawn, draft);
      RecordRevoke(t, Item(annotator, expected, draft), action, block);
      assert tasks == old(tasks)[t := tasks[t]];
    }

    /** Open work on a task is in the way of a revoke unless it may be released. */
    method ReleaseConflicts(t: TaskId, release: bool) returns (problem: Option<Refusal>)
      requires t in tasks
      modifies this`tasks, this`held
      ensures var r := old(tasks)[t];
              && problem == (if (r.assignment.Some? || r.draft.Some?) && !release then Some(Conflict) else None)
              && (problem.None? ==> State() == SetRows(old(State()), t, Released(r)))
    {
      if tasks[t].assignment.Some? || tasks[t].draft.Some? {
        if !release { return Some(Conflict); }
        ReleaseTaskDraft(t);
      } else {
        assert tasks[t := tasks[t]] == tasks;
      }
      problem := None;
    }

    method WithdrawVersion(t: TaskId, v: VersionId, action: ActionId)
      requires t in tasks && v in tasks[t].versions
      modifies this`tasks
      ensures tasks == old(tasks)[t := Withdrawn(old(tasks)[t], v, action)]
    {
      WriteVersion(t, v, tasks[t].versions[v].(lifecycle := Revoked, revokedBy := Some(action)));
      tasks := tasks[t := tasks[t].(status := Pending, current := None, reserved := None)];
    }

    method RecordRevoke(t: TaskId, item: Item, action: ActionId, block: bool)
      requires t in tasks
      modifies this`tasks
      ensures tasks == old(tasks)[t := Audited(old(tasks)[t], item, action, block)]
    {
      var r := tasks[t];
      if block { r := r.(blocks := r.blocks[item.annotator := action]); }
      r := r.(items := r.items[action := item]);
      tasks := tasks[t := r];
    }

    method AdminRevoke(admin: Admin, annotator: UserId, items: seq<RevokeItem>, reason: string, block: bool,
                       release: bool) returns (out: Outcome)
      requires Valid()
      modifies this
      ensures (State(), out) == RevokeTasks(old(State()), admin, annotator, items, reason, block, release) && Valid()
    {
      hide Inv, Moved, MoveOf, BatchOk, BeginAction, OpenAction, RevokeOne, RevokedAll;
      ghost var start := State();
      RevokeStep(start, DoRevoke(admin, annotator, items, reason, block, release));
      if !BatchOk(TasksOf(items)) { return Refuse(Invalid); }
      var saved := State();
      var early := BeginAdminAction(admin, RevokePayload(annotator, items, reason, block, release));
      if early.Some? { return early.value; }
      if annotator !in active {
        Rollback(saved);
        return Refuse(NotFound);
      }
      ghost var all := RevokeAll(State(), items, annotator, saved.nextId, block, release);
      for i := 0 to |items|
        invariant all == RevokeAll(State(), items[i..], annotator, saved.nextId, block, release)
      {
        assert items[i..][0] == items[i] && items[i..][1..] == items[i + 1..];
        if items[i].task !in tasks {
          UnknownTask(State(), items[i], annotator, saved.nextId, block, release);
          Rollback(saved);
          return Refuse(NotFound);
        }
        var problem := RevokeLockedTask(items[i].task, items[i].expected, annotator, saved.nextId, block, release);
        if problem.Some? {
          Rollback(saved);
          return Refuse(problem.value);
        }
      }
      assert items[|items|..] == [];
      out := Ok(AdminDone(saved.nextId));
    }

    /** Undoes one revoke; an error calls for a rollback. */
    method RestoreLockedTask(t: TaskId, source: ActionId, at: nat) returns (restored: bool)
      requires t in tasks
      modifies this`tasks, this`held
      ensures restored == Restorable(old(tasks)[t], source, at)
      ensures restored ==> State() == SetRows(old(State()), t, PutBack(old(tasks)[t], source))
    {
      var r := tasks[t];
      if source !in r.items || !r.status.Pending? || r.current.Some? || r.assignment.Some? { return false; }
      if r.claimedAt.Some? && r.claimedAt.value > at { return false; }
      var item := r.items[source];
      if !CleanDraft(r, item.after) || !RevokedBy(r, item.before, item.annotator, source) { return false; }
      var was := r.versions[item.before];
      WriteVersion(t, item.after, r.versions[item.after].(lifecycle := Abandoned));
      WriteVersion(t, item.before, was.(lifecycle := Published, revokedBy := None));
      r := tasks[t].(status := was.target, current := Some(item.before));
      if item.annotator in r.blocks && r.blocks[item.annotator] == source {
        r := r.(blocks := r.blocks - {item.annotator});
      }
      WriteRows(t, r);
      assert tasks == old(tasks)[t := r];
      restored := true;
    }

    method AdminRestore(admin: Admin, source: ActionId, batch: seq<TaskId>, reason: string) returns (out: Outcome)
      requires Valid()
      modifies this
      ensures (State(), out) == RestoreTasks(old(State()), admin, source, batch, reason) && Valid()
    {
      hide Inv, Moved, MoveOf, BatchOk, BeginAction, Restorable, PutBack, RestoredAll, SetRows;
      ghost var start := State();
      RestoreStep(start, DoRestore(admin, source, batch, reason));
      if !BatchOk(batch) { return Refuse(Invalid); }
      var saved := State();
      var early := BeginAdminAction(admin, RestorePayload(source, batch, reason));
      if early.Some? { return early.value; }
      var problem := RestoreChecks(saved, source, batch);
      if problem.Some? {
        Rollback(saved);
        return Refuse(problem.value);
      }
      ghost var all := RestoreAll(State(), batch, source, saved.actions[source].at);
      for i := 0 to |batch|
        invariant all == RestoreAll(State(), batch[i..], source, saved.actions[source].at)
      {
        assert batch[i..][0] == batch[i] && batch[i..][1..] == batch[i + 1..];
        if batch[i] !in tasks {
          Rollback(saved);
          return Refuse(NotFound);
        }
        var restored := RestoreLockedTask(batch[i], source, saved.actions[source].at);
        if !restored {
          Rollback(saved);
          return Refuse(Conflict);
        }
      }
      assert batch[|batch|..] == [];
      out := Ok(AdminDone(saved.nextId));
    }

    /** The checks on the whole batch: the source is a revoke of each task, the submitters are active and no task of the
        batch has been claimed. */
    method RestoreChecks(saved: Db, source: ActionId, batch: seq<TaskId>) returns (problem: Option<Refusal>)
      ensures problem.None? <==>
              && source in saved.actions && saved.actions[source].payload.RevokePayload?
              && (forall t <- batch :: RevokedIn(saved, t, source))
              && (forall t <- batch :: ActiveUser(saved, saved.tasks[t].items[source].annotator))
              && (forall t <- batch :: saved.tasks[t].assignment.None?)
      ensures problem.Some? ==> problem == Some(Conflict)
    {
      if source !in saved.actions || !saved.actions[source].payload.RevokePayload? { return Some(Conflict); }
      for i := 0 to |batch|
        invariant forall j :: 0 <= j < i ==> RevokedIn(saved, batch[j], source)
      {
        if !RevokedIn(saved, batch[i], source) { return Some(Conflict); }
      }
      for i := 0 to |batch|
        invariant forall j :: 0 <= j < i ==> ActiveUser(saved, saved.tasks[batch[j]].items[source].annotator)
      {
        if !ActiveUser(saved, saved.tasks[batch[i]].items[source].annotator) { return Some(Conflict); }
      }
      for i := 0 to |batch|
        invariant forall j :: 0 <= j < i ==> saved.tasks[batch[j]].assignment.None?
      {
        if saved.tasks[batch[i]].assignment.Some? { return Some(Conflict); }
      }
      problem := None;
    }

    /** Release of a task's open work, with a clean draft if the task is pending; the identifier is drawn either way. */
    method ResetTask(t: TaskId) returns (problem: Option<Refusal>)
      requires t in tasks
      modifies this`tasks, this`held, this`nextId
      ensures match ResetOne(old(State()), t)
              case Good(db) => problem.None? && State() == db
              case Bad(e) => problem == Some(e)
    {
      var pending := tasks[t].status.Pending? && tasks[t].current.None?;
      ReleaseTaskDraft(t);
      var draft := nextId;
      nextId := nextId + 1;
      ghost var released := tasks[t];
      problem := None;
      if pending {
        problem := CloneCleanDraft(t, draft);
        CloneKeepsAssignment(released, draft);
      }
      CloneKeepsAssignment(old(tasks)[t], draft);
      assert tasks == old(tasks)[t := tasks[t]];
    }

    method AdminReleaseAssignment(admin: Admin, t: TaskId, reason: string) returns (out: Outcome)
      requires Valid()
      modifies this
      ensures (State(), out) == Release(old(State()), admin, t, reason) && Valid()
    {
      hide Inv, Moved, MoveOf, BeginAction, ResetOne, SetRows, MovedBy;
      ghost var start := State();
      ReleaseStep(start, DoRelease(admin, t, reason));
      var saved := State();
      var early := BeginAdminAction(admin, ReleasePayload(t, reason));
      if early.Some? { return early.value; }
      if t !in tasks || tasks[t].assignment.None? || tasks[t].assignment.value.user !in active {
        Rollback(saved);
        return Refuse(Conflict);
      }
      var pending := tasks[t].current.None?;
      var problem := ResetTask(t);
      if problem.Some? {
        Rollback(saved);
        return Refuse(problem.value);
      }
      if pending && t in tasks { WriteRows(t, tasks[t].(reserved := None)); }
      out := Ok(AdminDone(saved.nextId));
    }

    method AdminDeactivate(admin: Admin, user: UserId, reason: string) returns (out: Outcome)
      requires Valid()
      modifies this
      ensures (State(), out) == Deactivate(old(State()), admin, user, reason) && Valid()
    {
      hide Inv, Moved, MoveOf, BeginAction, OpenAction, ReleaseOf, RevokeSubmissions, UnreserveAll, Quiet;
      ghost var start := State();
      DeactivateStep(start, DoDeactivate(admin, user, reason));
      var saved := State();
      var early := BeginAdminAction(admin, DeactivatePayload(user, reason));
      if early.Some? { return early.value; }
      if user !in active || !active[user] {
        var why := if user !in active then NotFound else Conflict;
        Rollback(saved);
        OpenActionSameTasks(saved, admin, DeactivatePayload(user, reason));
        return Refuse(why);
      }
      sessions := sessions - {user};
      var problem := ReleaseHolder(user);
      if problem.Some? {
        Rollback(saved);
        return Refuse(problem.value);
      }
      Unreserve(user);
      problem := RevokeSubmitted(user, saved.nextId);
      if problem.Some? {
        Rollback(saved);
        return Refuse(problem.value);
      }
      active := active[user := false];
      out := Ok(AdminDone(saved.nextId));
    }

    method ReleaseHolder(user: UserId) returns (problem: Option<Refusal>)
      modifies this`tasks, this`held, this`nextId
      ensures match ReleaseOf(old(State()), user)
              case Good(db) => problem.None? && State() == db
              case Bad(e) => problem == Some(e)
    {
      problem := None;
      if user in held && held[user] in tasks && tasks[held[user]].assignment.Some? { problem := ResetTask(held[user]); }
    }

    method Unreserve(user: UserId)
      modifies this`tasks
      ensures State() == UnreserveAll(old(State()), user)
    {
      tasks := map t <- tasks :: if tasks[t].reserved == Some(user) then tasks[t].(reserved := None) else tasks[t];
    }

    /** Revokes the user's current submissions in ascending order of task. */
    method RevokeSubmitted(user: UserId, action: ActionId) returns (problem: Option<Refusal>)
      modifies this`tasks, this`held, this`nextId
      ensures match RevokeSubmissions(old(State()), Ascending(SubmittedTasks(old(State()), user)), user, action)
              case Good(db) => problem.None? && State() == db
              case Bad(e) => problem == Some(e)
    {
      hide RevokeOne;
      var batch := Ascending(SubmittedTasks(State(), user));
      ghost var all := RevokeSubmissions(State(), batch, user, action);
      for i := 0 to |batch|
        invariant all == RevokeSubmissions(State(), batch[i..], user, action)
      {
        assert batch[i..][0] == batch[i] && batch[i..][1..] == batch[i + 1..];
        var t := batch[i];
        if t !in tasks || tasks[t].current.None? { return Some(Conflict); }
        if tasks[t].assignment.Some? && tasks[t].assignment.value.user != user { return Some(Conflict); }
        problem := RevokeLockedTask(t, tasks[t].current.value, user, action, true, false);
        if problem.Some? { return; }
      }
      assert batch[|batch|..] == [];
      problem := None;
    }

    /* ---------- preprocessing ---------- */

    method ReplaceDraft(t: TaskId, v: VersionId, rows: G.Table)
      requires t in tasks && v in tasks[t].versions
      modifies this`tasks
      ensures var ver := old(tasks)[t].versions[v];
              tasks == old(tasks)[t := PutVersion(old(tasks)[t], v, ver.(segments := rows, revision := ver.revision + 1))]
    {
      var ver := tasks[t].versions[v];
      WriteVersion(t, v, ver.(segments := rows, revision := ver.revision + 1));
    }

    method ReplaceBaseline(t: TaskId, v: VersionId, rows: G.Table)
      requires t in tasks && v in tasks[t].versions
      modifies this`tasks
      ensures tasks == old(tasks)[t := PutVersion(old(tasks)[t], v, old(tasks)[t].versions[v].(segments := rows))]
    {
      WriteVersion(t, v, tasks[t].versions[v].(segments := rows));
    }

    method StorePreprocessedTask(i: Ingest) returns (out: Outcome)
      requires Valid()
      modifies this
      ensures (State(), out) == Preprocess(old(State()), i) && Valid()
    {
      hide Inv, Moved, MoveOf, IsProtected;
      PreprocessStep(State(), DoPreprocess(i));
      if i.path in paths && paths[i.path] in tasks {
        var t := paths[i.path];
        if !i.metadataOnly && !i.leaseHeld { return Refuse(Conflict); }
        if IsProtected(tasks[t]) { return if i.skipIfProtected then Ok(SkippedHuman(t)) else Refuse(Protected); }
        if i.metadataOnly { return Ok(MetadataOnly(t)); }
        if tasks[t].draft.None? || tasks[t].draft.value !in tasks[t].versions { return Refuse(Internal); }
        RefreshTask(t, i);
        return Ok(RefreshedTask(t));
      }
      var t, base, draft := nextId, nextId + 1, nextId + 2;
      nextId := nextId + 3;
      paths := paths[i.path := t];
      tasks := tasks[t := NewRows(base, draft, i.duration, i.rows, i.eligible)];
      out := Ok(CreatedTask(t));
    }

    method RefreshTask(t: TaskId, i: Ingest)
      requires Valid() && t in tasks && tasks[t].draft.Some? && tasks[t].draft.value in tasks[t].versions
      modifies this`tasks
      ensures State() == SetRows(old(State()), t, Refreshed(old(tasks)[t], i.duration, i.rows, i.eligible))
    {
      hide Inv, Moved, MoveOf;
      ReplaceDraft(t, tasks[t].draft.value, i.rows);
      if tasks[t].baseline.Some? && tasks[t].baseline.value in tasks[t].versions {
        ReplaceBaseline(t, tasks[t].baseline.value, i.rows);
      }
      tasks := tasks[t := tasks[t].(duration := i.duration, eligible := i.eligible)];
      assert tasks == old(tasks)[t := tasks[t]];
      AssignmentRewritten(old(State()), t, tasks[t]);
    }
  }

  lemma UnknownTask(db: Db, item: RevokeItem, annotator: UserId, action: ActionId, block: bool, release: bool)
    requires item.task !in db.tasks
    ensures RevokeOne(db, item, annotator, action, block, release) == Bad(NotFound)
  {
  }

  lemma CloneKeepsAssignment(r: Rows, draft: VersionId)
    ensures CloneClean(r, draft).Good? ==> CloneClean(r, draft).value.assignment == r.assignment
    ensures Released(r).assignment.None?
  {
  }

  lemma LastWriteCounts(r: Rows, v: VersionId, first: Version, last: Version)
    ensures PutVersion(r.(versions := r.versions[v := first]), v, last) == PutVersion(r, v, last)
    ensures PutVersion(r, v, last).assignment == r.assignment
  {
    assert r.versions[v := first][v := last] == r.versions[v := last];
  }

  lemma SupersedingSkips(versions: map<VersionId, Version>, v: VersionId, ver: Version)
    requires v in versions
    ensures Superseding(versions[v := ver], v) == Superseding(versions, v)[v := ver]
  {
  }

  /** Publishing the edited rows is the same as publishing the edit on the rows before it. */
  lemma PublishedFromEdited(r: Rows, a: Assignment, ver: Version, target: Status, reasons: seq<string>)
    requires a.version in r.versions && ver.base != Some(a.version)
    ensures var r' := r.(versions := r.versions[a.version := ver]);
            && SubmissionProblem(r', ver, target) == SubmissionProblem(r, ver, target)
            && PublishedRows(r', a, ver, target, reasons) == PublishedRows(r, a, ver, target, reasons)
    ensures PublishedRows(r, a, ver, target, reasons).assignment.None?
  {
    var r' := r.(versions := r.versions[a.version := ver]);
    var submitted := AsSubmitted(ver, a.user, target, reasons, FrozenCredit(r, ver, a, target));
    assert FrozenCredit(r', ver, a, target) == FrozenCredit(r, ver, a, target);
    hide FrozenCredit, AsSubmitted;
    SupersedingSkips(r.versions, a.version, ver);
    LastWriteCounts(r.(versions := Superseding(r.versions, a.version)), a.version, ver, submitted);
  }

  lemma EditedBase(db: Db, t: TaskId, expected: int, dirty: seq<G.Dirty>)
    requires Inv(db) && t in db.tasks && db.tasks[t].assignment.Some?
    requires EditedVersion(db.tasks[t], db.tasks[t].assignment.value.version, expected, dirty).Good?
    ensures var v := db.tasks[t].assignment.value.version;
            v in db.tasks[t].versions && EditedVersion(db.tasks[t], v, expected, dirty).value.base != Some(v)
  {
    hide Inv;
    RowsFit(db, t);
    BaseIsClosed(db.tasks[t], db.tasks[t].assignment.value.version);
  }

  lemma BaseIsClosed(r: Rows, v: VersionId)
    requires RowsOk(r) && r.assignment.Some? && r.assignment.value.version == v && v in r.versions
    ensures r.versions[v].base != Some(v)
  {
    assert VersionOk(r, v);
  }

  /** Writing a task's rows without touching its assignment leaves the holder index as it is. */
  lemma AssignmentRewritten(db: Db, t: TaskId, r: Rows)
    requires Inv(db) && t in db.tasks && r.assignment == db.tasks[t].assignment
    ensures SetRows(db, t, r) == db.(tasks := db.tasks[t := r])
  {
    hide TasksOk, LogsOk, S.AuthOk;
    if r.assignment.Some? {
      assert db.held[r.assignment.value.user] == t;
      assert Reheld(db.held, r.assignment, r.assignment, t) == db.held;
    }
  }

  lemma HeldStays(db: Db, u: UserId, r: Rows)
    requires Inv(db) && HasAssignment(db, u) && r.assignment == db.tasks[db.held[u]].assignment
    ensures SetRows(db, db.held[u], r) == db.(tasks := db.tasks[db.held[u] := r])
  {
    hide Inv;
    AssignmentRewritten(db, db.held[u], r);
  }
}
