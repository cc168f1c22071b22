/** When a revoke can be undone: exactly as long as the clean drafts it left are untouched. */
module StoreRestore {
  import opened Common
  import opened TaskRows
  import opened TaskInvariant
  import opened TaskHistory
  import opened Store
  import opened StoreInvariant
  import opened StoreAdmin
  import opened StoreRuns
  import opened StoreReplay
  import opened StoreSessions
  import S = Sessions

  /* ---------- a batch of restores ---------- */

  ghost predicate AllRestorable(db: Db, tasks: seq<TaskId>, source: ActionId, at: nat) {
    forall t <- tasks :: t in db.tasks && Restorable(db.tasks[t], source, at)
  }

  /** A batch goes through iff each of its tasks can be restored on its own. */
  lemma {:induction false} RestoreAllGood(db: Db, tasks: seq<TaskId>, source: ActionId, at: nat)
    requires NoRepeats(tasks)
    ensures RestoreAll(db, tasks, source, at).Good? <==> AllRestorable(db, tasks, source, at)
    decreases |tasks|
  {
    hide Restorable, PutBack;
    if tasks != [] {
      var t, rest := tasks[0], tasks[1..];
      assert t in tasks && forall x <- rest :: x in tasks;
      if t in db.tasks && Restorable(db.tasks[t], source, at) {
        var db1 := SetRows(db, t, After(db.tasks[t], RestoreMove(source, at)));
        assert forall i :: 0 <= i < |rest| ==> rest[i] == tasks[i + 1] && rest[i] != t;
        RestoreAllGood(db1, rest, source, at);
        assert forall x <- tasks :: x == t || x in rest;
        assert forall x <- rest :: x in db1.tasks <==> x in db.tasks;
        assert forall x <- rest :: x in db.tasks ==> db1.tasks[x] == db.tasks[x];
      }
    }
  }

  /* ---------- one task after a revoke ---------- */

  predicate Lists(items: seq<RevokeItem>, t: TaskId) {
    exists i :: 0 <= i < |items| && items[i].task == t
  }

  /** The revoke's record of the task is kept, and a restore is possible iff what the revoke left is untouched. */
  ghost predicate CanUndoRows(r: Rows, source: ActionId, annotator: UserId) {
    && source in r.items && r.items[source].annotator == annotator
    && forall at :: Restorable(r, source, at) <==> Untouched(r, r.items[source].after, at)
  }

  ghost predicate CanUndo(db: Db, t: TaskId, source: ActionId, annotator: UserId) {
    t in db.tasks && CanUndoRows(db.tasks[t], source, annotator)
  }

  lemma TaskAfterRevoke(db: Db, revoke: Command, cs: seq<Command>, t: TaskId)
    requires Inv(db) && revoke.DoRevoke? && Step(db, revoke).1.Ok? && Lists(revoke.items, t)
    ensures CanUndo(Run(Step(db, revoke).0, cs), t, db.nextId, revoke.annotator)
  {
    var db1, i := Step(db, revoke).0, IndexOf(revoke.items, t);
    var m := RevokedAt(db, revoke, i);
    StepKeepsInv(db, revoke);
    RowsFit(db, t);
    hide Inv, RowsOk, Step, Run, Enabled, After, EnabledAll, AfterAll, CanUndoRows;
    var ms := ExplainRun(db1, cs, t);
    RowsAfterRevoke(db.tasks[t], m, ms);
  }

  lemma RowsAfterRevoke(r: Rows, m: Move, ms: seq<Move>)
    requires RowsOk(r) && m.RevokeMove? && Enabled(r, m) && EnabledAll(After(r, m), ms)
    ensures CanUndoRows(AfterAll(After(r, m), ms), m.action, m.annotator)
  {
    hide RowsOk, Enabled, After, EnabledAll, AfterAll, Restorable, Untouched;
    var r' := AfterAll(After(r, m), ms);
    RestorableIffUntouched(r, m, ms, 0);
    forall at ensures Restorable(r', m.action, at) <==> Untouched(r', m.draft, at) {
      RestorableIffUntouched(r, m, ms, at);
    }
  }

  /** The log keeps what was revoked, and when. */
  lemma RevokeIsOnRecord(db: Db, revoke: Command, cs: seq<Command>)
    requires Inv(db) && revoke.DoRevoke? && Step(db, revoke).1.Ok?
    ensures var db2 := Run(Step(db, revoke).0, cs);
            db.nextId in db2.actions && db2.actions[db.nextId].payload.RevokePayload?
            && db2.actions[db.nextId].at == db.auth.now
  {
    hide Inv, Step, Run;
    AdminStep(db, revoke);
    StepKeepsInv(db, revoke);
    RunGrows(Step(db, revoke).0, cs);
  }

  /* ---------- the condition ---------- */

  ghost predicate AllUntouched(db: Db, tasks: seq<TaskId>, source: ActionId, at: nat) {
    forall t <- tasks :: RevokedIn(db, t, source) && Untouched(db.tasks[t], db.tasks[t].items[source].after, at)
  }

  /** A new restore of revoked tasks is accepted, however many commands lie between, exactly if the annotator's account
      is active and every clean draft is untouched since the revoke. */
  lemma RestoreIsAcceptedIff(db: Db, revoke: Command, cs: seq<Command>, restore: Command)
    requires Inv(db) && revoke.DoRevoke? && Step(db, revoke).1.Ok?
    requires restore.DoRestore? && restore.source == db.nextId && WellFormed(restore)
    requires forall t <- restore.tasks :: Lists(revoke.items, t)
    requires BeginAction(Run(Step(db, revoke).0, cs), restore.admin, PayloadOf(restore)).None?
    ensures var db2 := Run(Step(db, revoke).0, cs);
            Step(db2, restore).1.Ok?
            <==> ActiveUser(db2, revoke.annotator) && AllUntouched(db2, restore.tasks, db.nextId, db.auth.now)
  {
    var db2 := Run(Step(db, revoke).0, cs);
    forall t | t in restore.tasks ensures CanUndo(db2, t, db.nextId, revoke.annotator) {
      TaskAfterRevoke(db, revoke, cs, t);
    }
    RevokeIsOnRecord(db, revoke, cs);
    hide Inv, Run, BeginAction, Lists;
    DecideRestore(db2, restore, revoke.annotator);
  }

  lemma DecideRestore(db: Db, c: Command, annotator: UserId)
    requires c.DoRestore? && BatchOk(c.tasks) && BeginAction(db, c.admin, PayloadOf(c)).None?
    requires c.source in db.actions && db.actions[c.source].payload.RevokePayload?
    requires forall t <- c.tasks :: CanUndo(db, t, c.source, annotator)
    ensures Step(db, c).1.Ok?
            <==> ActiveUser(db, annotator) && AllUntouched(db, c.tasks, c.source, db.actions[c.source].at)
  {
    hide Restorable, BeginAction, RestoreAll, CleanDraft;
    hide Claim, Save, Complete, Abandon, Reopen, OperatorRelease, Preprocess, SessionStep, RevokeTasks, Release, Deactivate;
    RestoreAllGood(OpenAction(db, c.admin, PayloadOf(c)), c.tasks, c.source, db.actions[c.source].at);
    assert c.tasks[0] in c.tasks;
  }

  /* ---------- claims lie in the past ---------- */

  predicate ClaimedBy(r: Rows, now: nat) {
    r.claimedAt.None? || r.claimedAt.value <= now
  }

  /** No claim is recorded for a time to come. */
  predicate ClaimsPast(db: Db) {
    forall t <- db.tasks :: ClaimedBy(db.tasks[t], db.auth.now)
  }

  lemma ReleaseKeepsClaim(r: Rows)
    ensures Released(r).claimedAt == r.claimedAt
  {
  }

  lemma CloneKeepsClaim(r: Rows, draft: VersionId)
    requires CloneClean(r, draft).Good?
    ensures CloneClean(r, draft).value.claimedAt == r.claimedAt
  {
  }

  lemma RevokeKeepsClaim(r: Rows, m: Move)
    requires m.RevokeMove? && Enabled(r, m)
    ensures After(r, m).claimedAt == r.claimedAt
  {
    hide Released, CloneClean, RevokeProblem;
    ReleaseKeepsClaim(r);
    CloneKeepsClaim(Withdrawn(Released(r), m.version, m.action), m.draft);
  }

  lemma ResetKeepsClaim(r: Rows, m: Move)
    requires m.ResetMove? && Enabled(r, m)
    ensures After(r, m).claimedAt == r.claimedAt
  {
    hide Released, CloneClean;
    ReleaseKeepsClaim(r);
    if Released(r) != Reset(r, m.draft).value { CloneKeepsClaim(Released(r), m.draft); }
  }

  /** Only taking a task records a claim. */
  lemma MoveKeepsClaim(r: Rows, m: Move)
    requires Enabled(r, m) && !m.TakeMove?
    ensures After(r, m).claimedAt == r.claimedAt
  {
    if m.RevokeMove? {
      hide Enabled, After;
      RevokeKeepsClaim(r, m);
    } else if m.ResetMove? {
      hide Enabled, After;
      ResetKeepsClaim(r, m);
    } else {
      hide EditedVersion, Reasons, SubmissionProblem, FrozenCredit, AsSubmitted, Superseding, Revoke, Reset, Claimable;
      hide IsProtected, SubmittedBy, Restorable;
    }
  }

  lemma {:induction false} QuietKeepsClaim(r: Rows, ms: seq<Move>)
    requires EnabledAll(r, ms) && forall m <- ms :: AdminMove(m)
    ensures AfterAll(r, ms).claimedAt == r.claimedAt
    decreases |ms|
  {
    hide Enabled, After;
    if ms != [] {
      assert ms[0] in ms;
      MoveKeepsClaim(r, ms[0]);
      QuietKeepsClaim(After(r, ms[0]), ms[1..]);
    }
  }

  lemma ClockAdvances(db: Db, c: Command)
    requires Inv(db)
    ensures db.auth.now <= Step(db, c).0.auth.now
  {
    AuthFollows(db, c);
    assert S.AuthOk(db.auth);
    hide Inv, Step, S.AuthOk, S.Run;
    S.RunKeepsAuthOk(db.auth, SessionEffect(c, Step(db, c).1));
  }

  lemma KnownTaskKeepsClaim(db: Db, c: Command, t: TaskId)
    requires Inv(db) && ClaimsPast(db) && t in db.tasks
    ensures t in Step(db, c).0.tasks && ClaimedBy(Step(db, c).0.tasks[t], Step(db, c).0.auth.now)
  {
    hide Inv, Step, Enabled, After, EnabledAll, AfterAll;
    ClockAdvances(db, c);
    assert ClaimedBy(db.tasks[t], db.auth.now);
    if Administrative(c) {
      AdminIsQuiet(db, c, t);
      var ms :| QuietBy(db.tasks[t], ms, Step(db, c).0.tasks[t]);
      QuietKeepsClaim(db.tasks[t], ms);
    } else {
      OrdinaryStep(db, c);
      var tm := MoveOf(db, c, Step(db, c).1);
      if tm.Some? && tm.value.0 == t { ChangedKeepsClaim(db, c, tm.value.1); }
    }
  }

  lemma ChangedKeepsClaim(db: Db, c: Command, m: Move)
    requires MoveOf(db, c, Step(db, c).1).Some? && MoveOf(db, c, Step(db, c).1).value.1 == m
    requires var t := MoveOf(db, c, Step(db, c).1).value.0;
             t in db.tasks && Enabled(db.tasks[t], m) && ClaimedBy(db.tasks[t], db.auth.now)
    ensures ClaimedBy(After(db.tasks[MoveOf(db, c, Step(db, c).1).value.0], m), db.auth.now)
  {
    hide Step;
    var t := MoveOf(db, c, Step(db, c).1).value.0;
    if m.TakeMove? {
      assert m.now == db.auth.now;
    } else {
      hide Enabled, After, MoveOf;
      MoveKeepsClaim(db.tasks[t], m);
    }
  }

  /* ---------- where tasks come from ---------- */

  lemma {:induction false} RevokingMakesNoTask(db: Db, tasks: seq<TaskId>, u: UserId, action: ActionId)
    requires RevokeSubmissions(db, tasks, u, action).Good?
    ensures RevokeSubmissions(db, tasks, u, action).value.tasks.Keys == db.tasks.Keys
    decreases |tasks|
  {
    hide Revoke;
    if tasks != [] {
      var first := RevokeOne(db, RevokeItem(tasks[0], db.tasks[tasks[0]].current.value), u, action, true, false);
      RevokingMakesNoTask(first.value, tasks[1..], u, action);
    }
  }

  lemma ReleasingMakesNoTask(db: Db, u: UserId)
    requires ReleaseOf(db, u).Good?
    ensures ReleaseOf(db, u).value.tasks.Keys == db.tasks.Keys
  {
    hide Reset;
  }

  lemma ClosingMakesNoTask(db: Db, c: Command)
    requires c.DoDeactivate?
    ensures Deactivate(db, c.admin, c.user, c.reason).0.tasks.Keys == db.tasks.Keys
  {
    hide ReleaseOf, BeginAction, RevokeSubmissions;
    var payload := DeactivatePayload(c.user, c.reason);
    if BeginAction(db, c.admin, payload).None? && Deactivate(db, c.admin, c.user, c.reason).1.Ok? {
      var db1 := EndSession(OpenAction(db, c.admin, payload), c.user);
      ReleasingMakesNoTask(db1, c.user);
      var db2 := UnreserveAll(ReleaseOf(db1, c.user).value, c.user);
      RevokingMakesNoTask(db2, Ascending(SubmittedTasks(db2, c.user)), c.user, db.nextId);
    }
  }

  lemma AdminMakesNoTask(db: Db, c: Command)
    requires Inv(db) && Administrative(c)
    ensures Step(db, c).0.tasks.Keys == db.tasks.Keys
  {
    hide Inv, MovedBy, RevokeTasks, RestoreTasks, Release, Deactivate;
    hide Claim, Save, Complete, Abandon, Reopen, OperatorRelease, Preprocess, SessionStep;
    match c
    case DoRevoke(_, _, _, _, _, _) => RevokeStep(db, c);
    case DoRestore(_, _, _, _) => RestoreStep(db, c);
    case DoRelease(_, _, _) => ReleaseStep(db, c);
    case DoDeactivate(_, _, _) => ClosingMakesNoTask(db, c);
  }

  /** The only new tasks are those that preprocessing stores. */
  lemma NewTaskIs(db: Db, c: Command, t: TaskId)
    requires Inv(db) && t in Step(db, c).0.tasks && t !in db.tasks
    ensures c.DoPreprocess?
    ensures var i := c.ingest;
            Step(db, c).0.tasks[t] == NewRows(db.nextId + 1, db.nextId + 2, i.duration, i.rows, i.eligible)
  {
    if Administrative(c) {
      hide Inv, Step;
      AdminMakesNoTask(db, c);
    } else {
      hide Inv, RevokeTasks, RestoreTasks, Release, Deactivate, S.Admit, S.Touch, S.Step, Taken, GivenUp, Revising, NewRows;
      hide PublishedRows, EditedVersion, Reasons, SubmissionProblem, PutVersion, Refreshed, IsProtected, Claimable, Leased;
    }
  }

  lemma {:induction false} ClaimsStayPast(db: Db, cs: seq<Command>)
    requires Inv(db) && ClaimsPast(db)
    ensures ClaimsPast(Run(db, cs))
    decreases |cs|
  {
    hide Inv, Step;
    if cs != [] {
      var next := Step(db, cs[0]).0;
      forall t | t in next.tasks ensures ClaimedBy(next.tasks[t], next.auth.now) {
        if t in db.tasks { KnownTaskKeepsClaim(db, cs[0], t); } else { NewTaskIs(db, cs[0], t); }
      }
      StepKeepsInv(db, cs[0]);
      ClaimsStayPast(next, cs[1..]);
    }
  }

  /* ---------- undoing at once ---------- */

  lemma JustRevoked(db: Db, revoke: Command, t: TaskId)
    requires Inv(db) && revoke.DoRevoke? && Step(db, revoke).1.Ok? && Lists(revoke.items, t) && ClaimsPast(db)
    ensures RevokedIn(Step(db, revoke).0, t, db.nextId)
    ensures var r := Step(db, revoke).0.tasks[t]; Untouched(r, r.items[db.nextId].after, db.auth.now)
  {
    var i := IndexOf(revoke.items, t);
    var m := RevokedAt(db, revoke, i);
    RowsFit(db, t);
    hide Inv, RowsOk, Step, Enabled, After;
    RevokeHasEffect(db.tasks[t], m);
    MoveKeepsClaim(db.tasks[t], m);
    assert ClaimedBy(db.tasks[t], db.auth.now);
  }

  /** In every reachable state a revoke of an active annotator's work can be undone at once. */
  lemma RevokeCanBeUndone(now: nat, policy: S.Policy, cs: seq<Command>, revoke: Command, restore: Command)
    requires var db := Run(EmptyStore(now, policy), cs);
             && revoke.DoRevoke? && Step(db, revoke).1.Ok? && ActiveUser(db, revoke.annotator)
             && restore.DoRestore? && restore.source == db.nextId && WellFormed(restore)
             && (forall t <- restore.tasks :: Lists(revoke.items, t))
             && BeginAction(Step(db, revoke).0, restore.admin, PayloadOf(restore)).None?
    ensures Step(Step(Run(EmptyStore(now, policy), cs), revoke).0, restore).1.Ok?
  {
    var db := Run(EmptyStore(now, policy), cs);
    assert Inv(EmptyStore(now, policy));
    RunKeepsInv(EmptyStore(now, policy), cs);
    ClaimsStayPast(EmptyStore(now, policy), cs);
    var db1 := Step(db, revoke).0;
    assert Run(db1, []) == db1;
    hide Inv, Run, Step, Lists, BeginAction, Untouched;
    forall t | t in restore.tasks
      ensures RevokedIn(db1, t, db.nextId) && Untouched(db1.tasks[t], db1.tasks[t].items[db.nextId].after, db.auth.now)
    {
      JustRevoked(db, revoke, t);
    }
    AuthFollows(db, revoke);
    assert db1.auth == db.auth;
    RestoreIsAcceptedIff(db, revoke, [], restore);
  }
}
