/** What holds over every run of the store: commands of any kind, by anyone, in any order. */
module StoreRuns {
  import opened Common
  import opened TaskRows
  import opened TaskInvariant
  import opened TaskHistory
  import opened Store
  import opened StoreInvariant
  import opened StoreAdmin
  import S = Sessions
  import G = Segments

  /* ---------- the invariant ---------- */

  lemma StepKeepsInv(db: Db, c: Command)
    requires Inv(db)
    ensures Inv(Step(db, c).0)
  {
    hide Inv, Moved, MoveOf, Quiet, RevokedAll, RestoredAll, MovedBy;
    if !Administrative(c) {
      hide Step;
      OrdinaryStep(db, c);
    } else {
      hide Claim, Save, Complete, Abandon, Reopen, OperatorRelease, Preprocess, SessionStep;
      hide RevokeTasks, RestoreTasks, Release, Deactivate;
      match c
      case DoRevoke(_, _, _, _, _, _) => RevokeStep(db, c);
      case DoRestore(_, _, _, _) => RestoreStep(db, c);
      case DoRelease(_, _, _) => ReleaseStep(db, c);
      case DoDeactivate(_, _, _) => DeactivateStep(db, c);
    }
  }

  lemma {:induction false} RunKeepsInv(db: Db, cs: seq<Command>)
    requires Inv(db)
    ensures Inv(Run(db, cs))
    decreases |cs|
  {
    hide Inv, Step;
    if cs != [] {
      StepKeepsInv(db, cs[0]);
      RunKeepsInv(Step(db, cs[0]).0, cs[1..]);
    }
  }

  function EmptyStore(now: nat, policy: S.Policy): Db {
    Db(S.Auth(now, policy, map[], map[]), 0, map[], map[], map[], map[], map[], map[])
  }

  /** What every task looks like: a pending task has one open version and no published one; any other has one published
      version, with the task's status, and is open only to a revision by its submitter; an assignment works on the open
      version; a blocked annotator neither holds the task nor is its current submitter. */
  ghost predicate InOrder(r: Rows) {
    && (if r.status.Pending? then OneDraft(r) else OnePublished(r))
    && (r.assignment.Some? ==> r.assignment.value.version in r.versions
                               && r.versions[r.assignment.value.version].lifecycle.Draft?)
    && (forall u <- r.blocks :: !Holds(r, u) && !SubmittedBy(r, u))
  }

  lemma RowsInOrder(r: Rows)
    requires RowsOk(r)
    ensures InOrder(r)
  {
    OneDraftOrOnePublished(r);
    if r.assignment.Some? { assert VersionOk(r, r.assignment.value.version); }
    hide OneDraft, OnePublished, VersionsOk, ItemsOk;
  }

  /** In every state reached from an empty store every task is in order and nobody holds two tasks. */
  lemma ReachableStates(now: nat, policy: S.Policy, cs: seq<Command>)
    ensures var db := Run(EmptyStore(now, policy), cs);
            && Inv(db) && (forall t <- db.tasks :: InOrder(db.tasks[t]))
            && (forall s <- db.tasks, t <- db.tasks, u :: Holds(db.tasks[s], u) && Holds(db.tasks[t], u) ==> s == t)
  {
    assert Inv(EmptyStore(now, policy));
    RunKeepsInv(EmptyStore(now, policy), cs);
    var db := Run(EmptyStore(now, policy), cs);
    hide Run, InOrder;
    forall t | t in db.tasks ensures InOrder(db.tasks[t]) {
      RowsFit(db, t);
      RowsInOrder(db.tasks[t]);
    }
  }

  /* ---------- every command is a sequence of moves on each task ---------- */

  /** The edits that an accepted command makes to a version's segments: none but by a save, a submission or a
      preprocessing refresh. */
  ghost function EditsIn(db: Db, c: Command, t: TaskId, v: VersionId): seq<Edit> {
    var tm := MoveOf(db, c, Step(db, c).1);
    if tm.Some? && tm.value.0 == t && t in db.tasks then EditsOf(db.tasks[t], tm.value.1, v) else []
  }

  ghost predicate Explains(db: Db, c: Command, t: TaskId, ms: seq<Move>) {
    && t in db.tasks && t in Step(db, c).0.tasks
    && EnabledAll(db.tasks[t], ms) && AfterAll(db.tasks[t], ms) == Step(db, c).0.tasks[t]
    && forall v :: AllEdits(db.tasks[t], ms, v) == EditsIn(db, c, t, v)
  }

  lemma OneMove(r: Rows, m: Move)
    requires Enabled(r, m)
    ensures EnabledAll(r, [m]) && AfterAll(r, [m]) == After(r, m)
    ensures forall v :: AllEdits(r, [m], v) == EditsOf(r, m, v)
  {
    hide Enabled, After, EditsOf;
    assert [m][1..] == [];
    forall v ensures AllEdits(r, [m], v) == EditsOf(r, m, v) {
      assert AllEdits(After(r, m), [], v) == [];
    }
  }

  lemma {:induction false} AdminMovesEditNothing(r: Rows, ms: seq<Move>)
    requires EnabledAll(r, ms) && forall m <- ms :: AdminMove(m)
    ensures forall v :: AllEdits(r, ms, v) == []
    decreases |ms|
  {
    hide Enabled, After;
    if ms != [] {
      assert ms[0] in ms;
      AdminMovesEditNothing(After(r, ms[0]), ms[1..]);
    }
  }

  lemma ExplainOrdinary(db: Db, c: Command, t: TaskId) returns (ms: seq<Move>)
    requires Inv(db) && t in db.tasks && !Administrative(c)
    ensures Explains(db, c, t, ms)
  {
    hide Inv, Step, Enabled, After, MoveOf, EditsOf;
    OrdinaryStep(db, c);
    var tm := MoveOf(db, c, Step(db, c).1);
    if tm.Some? && tm.value.0 == t {
      ms := [tm.value.1];
      OneMove(db.tasks[t], tm.value.1);
    } else {
      ms := [];
    }
  }

  lemma RevokeIsQuiet(db: Db, c: Command, t: TaskId)
    requires Inv(db) && t in db.tasks && c.DoRevoke?
    ensures var db' := RevokeTasks(db, c.admin, c.annotator, c.items, c.reason, c.block, c.release).0;
            t in db'.tasks && Quiet(db.tasks[t], db'.tasks[t])
  {
    hide Inv, Quiet, RevokeTasks, Enabled, After;
    RevokeStep(db, c);
    var out := RevokeTasks(db, c.admin, c.annotator, c.items, c.reason, c.block, c.release);
    if i :| out.1.Ok? && 0 <= i < |c.items| && c.items[i].task == t {
      var db1 := OpenAction(db, c.admin, RevokePayload(c.annotator, c.items, c.reason, c.block, c.release));
      var m := RevokeMoveOf(c.items[i], c.annotator, db.nextId, c.block, c.release, db1.nextId + i);
      assert MovedBy(db1, out.0, t, m);
      QuietOne(db.tasks[t], m);
    } else {
      QuietSame(db.tasks[t]);
    }
  }

  lemma RestoreIsQuiet(db: Db, c: Command, t: TaskId)
    requires Inv(db) && t in db.tasks && c.DoRestore?
    ensures var db' := RestoreTasks(db, c.admin, c.source, c.tasks, c.reason).0;
            t in db'.tasks && Quiet(db.tasks[t], db'.tasks[t])
  {
    hide Inv, Quiet, RestoreTasks, Enabled, After;
    RestoreStep(db, c);
    var out := RestoreTasks(db, c.admin, c.source, c.tasks, c.reason);
    if out.1.Ok? && t in c.tasks {
      var db1 := OpenAction(db, c.admin, RestorePayload(c.source, c.tasks, c.reason));
      var m := RestoreMove(c.source, db.actions[c.source].at);
      assert MovedBy(db1, out.0, t, m);
      QuietOne(db.tasks[t], m);
    } else {
      QuietSame(db.tasks[t]);
    }
  }

  lemma ReleaseIsQuiet(db: Db, c: Command, t: TaskId)
    requires Inv(db) && t in db.tasks && c.DoRelease?
    ensures var db' := Release(db, c.admin, c.task, c.reason).0; t in db'.tasks && Quiet(db.tasks[t], db'.tasks[t])
  {
    hide Inv, Quiet, Release, Enabled, After;
    ReleaseStep(db, c);
    var out := Release(db, c.admin, c.task, c.reason);
    if out.1.Ok? && t == c.task {
      var db1 := OpenAction(db, c.admin, ReleasePayload(c.task, c.reason));
      QuietOne(db.tasks[t], ResetMove(db1.nextId));
    } else {
      QuietSame(db.tasks[t]);
    }
  }

  lemma AdminIsQuiet(db: Db, c: Command, t: TaskId)
    requires Inv(db) && t in db.tasks && Administrative(c)
    ensures t in Step(db, c).0.tasks && Quiet(db.tasks[t], Step(db, c).0.tasks[t])
  {
    hide Inv, Quiet, RevokedAll, RestoredAll, MovedBy;
    hide Claim, Save, Complete, Abandon, Reopen, OperatorRelease, Preprocess, SessionStep;
    hide RevokeTasks, RestoreTasks, Release, Deactivate;
    match c
    case DoRevoke(_, _, _, _, _, _) => RevokeIsQuiet(db, c, t);
    case DoRestore(_, _, _, _) => RestoreIsQuiet(db, c, t);
    case DoRelease(_, _, _) => ReleaseIsQuiet(db, c, t);
    case DoDeactivate(_, _, _) => DeactivateStep(db, c);
  }

  lemma ExplainAdmin(db: Db, c: Command, t: TaskId) returns (ms: seq<Move>)
    requires Inv(db) && t in db.tasks && Administrative(c)
    ensures Explains(db, c, t, ms)
  {
    hide Inv, Step, Enabled, After, EditsOf, EnabledAll, AfterAll, AllEdits;
    AdminIsQuiet(db, c, t);
    ms :| QuietBy(db.tasks[t], ms, Step(db, c).0.tasks[t]);
    AdminMovesEditNothing(db.tasks[t], ms);
  }

  lemma ExplainStep(db: Db, c: Command, t: TaskId) returns (ms: seq<Move>)
    requires Inv(db) && t in db.tasks
    ensures Explains(db, c, t, ms)
  {
    hide Inv, Explains;
    if Administrative(c) { ms := ExplainAdmin(db, c, t); } else { ms := ExplainOrdinary(db, c, t); }
  }

  ghost function RunEdits(db: Db, cs: seq<Command>, t: TaskId, v: VersionId): seq<Edit>
    decreases |cs|
  {
    if cs == [] then [] else EditsIn(db, cs[0], t, v) + RunEdits(Step(db, cs[0]).0, cs[1..], t, v)
  }

  lemma {:induction false} EditsChain(r: Rows, ms: seq<Move>, ns: seq<Move>, v: VersionId)
    requires EnabledAll(r, ms) && EnabledAll(AfterAll(r, ms), ns) && EnabledAll(r, ms + ns)
    ensures AllEdits(r, ms + ns, v) == AllEdits(r, ms, v) + AllEdits(AfterAll(r, ms), ns, v)
    decreases |ms|
  {
    hide Enabled, After, EditsOf;
    if ms == [] {
      assert ms + ns == ns;
    } else {
      assert (ms + ns)[0] == ms[0] && (ms + ns)[1..] == ms[1..] + ns;
      EditsChain(After(r, ms[0]), ms[1..], ns, v);
    }
  }

  /** The link between runs of the store and sequences of changes to one task. */
  lemma {:induction false} ExplainRun(db: Db, cs: seq<Command>, t: TaskId) returns (ms: seq<Move>)
    requires Inv(db) && t in db.tasks
    ensures t in Run(db, cs).tasks && EnabledAll(db.tasks[t], ms) && AfterAll(db.tasks[t], ms) == Run(db, cs).tasks[t]
    ensures forall v :: AllEdits(db.tasks[t], ms, v) == RunEdits(db, cs, t, v)
    decreases |cs|
  {
    hide Inv, Step, EditsIn, Enabled, After, EditsOf;
    if cs == [] {
      ms := [];
    } else {
      var next := Step(db, cs[0]).0;
      var now := ExplainStep(db, cs[0], t);
      StepKeepsInv(db, cs[0]);
      var later := ExplainRun(next, cs[1..], t);
      MovesChain(db.tasks[t], now, later);
      ms := now + later;
      hide EnabledAll, AfterAll, AllEdits;
      forall v ensures AllEdits(db.tasks[t], ms, v) == RunEdits(db, cs, t, v) {
        EditsChain(db.tasks[t], now, later, v);
      }
    }
  }

  /* ---------- history of a version ---------- */

  /** Once a version has been submitted (or given up), no run of the store changes its segments, its credit, its
      submitter or its outcome. */
  lemma SubmittedWorkIsImmutable(db: Db, cs: seq<Command>, t: TaskId, v: VersionId)
    requires Inv(db) && t in db.tasks && IsClosedVersion(db.tasks[t], v)
    ensures t in Run(db, cs).tasks && IsClosedVersion(Run(db, cs).tasks[t], v)
    ensures SameWork(db.tasks[t].versions[v], Run(db, cs).tasks[t].versions[v])
  {
    RowsFit(db, t);
    hide Inv, RowsOk, EnabledAll, AfterAll, Run;
    var ms := ExplainRun(db, cs, t);
    ClosedWorkIsImmutable(db.tasks[t], ms, v);
  }

  /** No accepted save is lost or applied twice: after any run a version holds the fold of the edits accepted since, in
      order, and the i-th of them was made against revision i. */
  lemma NoLostUpdates(db: Db, cs: seq<Command>, t: TaskId, v: VersionId)
    requires Inv(db) && t in db.tasks && v in db.tasks[t].versions && !db.tasks[t].versions[v].lifecycle.Baseline?
    ensures t in Run(db, cs).tasks && v in Run(db, cs).tasks[t].versions
    ensures var ver, ver', edits := db.tasks[t].versions[v], Run(db, cs).tasks[t].versions[v], RunEdits(db, cs, t, v);
            && ver'.segments == Fold(ver.segments, edits)
            && ver'.revision == ver.revision + |edits|
            && InRevisionOrder(edits, ver.revision)
  {
    RowsFit(db, t);
    hide Inv, RowsOk, EnabledAll, AfterAll, Run, RunEdits, Fold;
    var ms := ExplainRun(db, cs, t);
    VersionIsTheFoldOfItsEdits(db.tasks[t], ms, v);
  }

  /* ---------- restore ---------- */

  /** Whatever else happened in between, a restore that is accepted puts each task back as it was just before the
      revoke: status, current version, submissions, credits, reservation and reclaim blocks. */
  lemma RestoreUndoesRevokeInRuns(db: Db, revoke: Command, cs: seq<Command>, restore: Command, t: TaskId)
    requires Inv(db) && revoke.DoRevoke? && Step(db, revoke).1.Ok?
    requires restore.DoRestore? && restore.source == db.nextId
    requires Step(Run(Step(db, revoke).0, cs), restore).1.Ok? && t in restore.tasks
    requires exists i :: 0 <= i < |revoke.items| && revoke.items[i].task == t
    ensures t in db.tasks && t in Step(Run(Step(db, revoke).0, cs), restore).0.tasks
    ensures db.tasks[t].draft.Some? ==> db.tasks[t].draft.value in db.tasks[t].versions
    ensures PutBackExactly(db.tasks[t], Step(Run(Step(db, revoke).0, cs), restore).0.tasks[t])
  {
    var db1, i := Step(db, revoke).0, IndexOf(revoke.items, t);
    var m := RevokedAt(db, revoke, i);
    StepKeepsInv(db, revoke);
    RunKeepsInv(db1, cs);
    var db2 := Run(db1, cs);
    var at := RestoredAt(db2, restore, t);
    RowsFit(db, t);
    hide Inv, RowsOk, Step, Run, Enabled, After, EnabledAll, AfterAll, PutBackExactly;
    var ms := ExplainRun(db1, cs, t);
    RestoreUndoesRevoke(db.tasks[t], m, ms, at);
  }

  ghost function IndexOf(items: seq<RevokeItem>, t: TaskId): (i: nat)
    requires exists i :: 0 <= i < |items| && items[i].task == t
    ensures i < |items| && items[i].task == t
  {
    var i :| 0 <= i < |items| && items[i].task == t; i
  }

  lemma RevokedAt(db: Db, c: Command, i: nat) returns (m: Move)
    requires Inv(db) && c.DoRevoke? && Step(db, c).1.Ok? && i < |c.items|
    ensures m.RevokeMove? && m.action == db.nextId && m.annotator == c.annotator
    ensures MovedBy(db, Step(db, c).0, c.items[i].task, m)
  {
    hide Inv, RevokeTasks, Enabled, After;
    hide Claim, Save, Complete, Abandon, Reopen, OperatorRelease, Preprocess, SessionStep, RestoreTasks, Release, Deactivate;
    RevokeStep(db, c);
    var db1 := OpenAction(db, c.admin, RevokePayload(c.annotator, c.items, c.reason, c.block, c.release));
    m := RevokeMoveOf(c.items[i], c.annotator, db.nextId, c.block, c.release, db1.nextId + i);
    assert MovedBy(db1, Step(db, c).0, c.items[i].task, m);
  }

  lemma RestoredAt(db: Db, c: Command, t: TaskId) returns (at: nat)
    requires Inv(db) && c.DoRestore? && Step(db, c).1.Ok? && t in c.tasks
    ensures MovedBy(db, Step(db, c).0, t, RestoreMove(c.source, at))
  {
    hide Inv, RestoreTasks, Enabled, After;
    hide Claim, Save, Complete, Abandon, Reopen, OperatorRelease, Preprocess, SessionStep, RevokeTasks, Release, Deactivate;
    RestoreStep(db, c);
    at := db.actions[c.source].at;
    var i :| 0 <= i < |c.tasks| && c.tasks[i] == t;
    assert MovedBy(OpenAction(db, c.admin, RestorePayload(c.source, c.tasks, c.reason)), Step(db, c).0, c.tasks[i],
                   RestoreMove(c.source, at));
  }
}
