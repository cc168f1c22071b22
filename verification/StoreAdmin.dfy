/** The administrative transactions: what each batch does, that all of them keep the invariant, and that deactivating an
    active annotator always goes through. */
module StoreAdmin {
  import opened Common
  import opened TaskRows
  import opened TaskInvariant
  import opened TaskHistory
  import opened Store
  import opened StoreInvariant
  import S = Sessions

  /* ---------- revoking a batch ---------- */

  function RevokeMoveOf(item: RevokeItem, annotator: UserId, action: ActionId, block: bool, release: bool, draft: VersionId)
    : Move
  {
    RevokeMove(item.expected, annotator, action, block, release, draft)
  }

  ghost predicate MovedBy(db: Db, db': Db, t: TaskId, m: Move) {
    t in db.tasks && t in db'.tasks && Enabled(db.tasks[t], m) && db'.tasks[t] == After(db.tasks[t], m)
  }

  /** Nothing but task rows, the holder index and the counter differ. */
  predicate SameElsewhere(db: Db, db': Db) {
    && db'.auth == db.auth && db'.paths == db.paths && db'.operations == db.operations && db'.actions == db.actions
    && db'.actionOps == db.actionOps && db'.tasks.Keys == db.tasks.Keys && db'.nextId >= db.nextId
  }

  ghost predicate TasksDiffer(items: seq<RevokeItem>) {
    forall i, j :: 0 <= i < j < |items| ==> items[i].task != items[j].task
  }

  /** The i-th task is revoked with the i-th new draft; no other task changes. */
  ghost predicate RevokedAll(db: Db, db': Db, items: seq<RevokeItem>, annotator: UserId, action: ActionId, block: bool,
                             release: bool)
  {
    && SameElsewhere(db, db')
    && (forall i :: 0 <= i < |items| ==>
          MovedBy(db, db', items[i].task, RevokeMoveOf(items[i], annotator, action, block, release, db.nextId + i)))
    && (forall t <- db.tasks :: (forall i :: 0 <= i < |items| ==> items[i].task != t) ==> db'.tasks[t] == db.tasks[t])
  }

  lemma RevokeOneStep(db: Db, item: RevokeItem, annotator: UserId, action: ActionId, block: bool, release: bool)
    requires Inv(db) && action < db.nextId && RevokeOne(db, item, annotator, action, block, release).Good?
    requires item.task in db.tasks && action !in db.tasks[item.task].items
    ensures var db' := RevokeOne(db, item, annotator, action, block, release).value;
            && Inv(db') && SameElsewhere(db, db') && db'.nextId == db.nextId + 1
            && MovedBy(db, db', item.task, RevokeMoveOf(item, annotator, action, block, release, db.nextId))
            && db'.tasks == db.tasks[item.task := db'.tasks[item.task]]
  {
    hide Inv, Revoke;
    var m := RevokeMoveOf(item, annotator, action, block, release, db.nextId);
    FreshId(db, item.task, db.nextId);
    BumpKeepsInv(db, db.nextId + 1);
    MoveKeepsInv(db.(nextId := db.nextId + 1), item.task, m);
  }

  lemma {:induction false} RevokeAllIs(db: Db, items: seq<RevokeItem>, annotator: UserId, action: ActionId, block: bool,
                                       release: bool)
    requires Inv(db) && action < db.nextId && RevokeAll(db, items, annotator, action, block, release).Good?
    requires TasksDiffer(items)
    requires forall i :: 0 <= i < |items| && items[i].task in db.tasks ==> action !in db.tasks[items[i].task].items
    ensures var db' := RevokeAll(db, items, annotator, action, block, release).value;
            Inv(db') && RevokedAll(db, db', items, annotator, action, block, release)
    decreases |items|
  {
    hide Inv;
    if items != [] {
      hide RevokeOne;
      var first := RevokeOne(db, items[0], annotator, action, block, release);
      RevokeOneOnATask(db, items[0], annotator, action, block, release);
      RevokeOneStep(db, items[0], annotator, action, block, release);
      var rest := items[1..];
      assert forall i :: 0 <= i < |rest| ==> rest[i] == items[i + 1];
      RevokeAllIs(first.value, rest, annotator, action, block, release);
      RevokedAllSplits(db, first.value, RevokeAll(first.value, rest, annotator, action, block, release).value, items,
                       annotator, action, block, release);
    }
  }

  lemma RevokeOneOnATask(db: Db, item: RevokeItem, annotator: UserId, action: ActionId, block: bool, release: bool)
    ensures RevokeOne(db, item, annotator, action, block, release).Good? ==> item.task in db.tasks
  {
  }

  lemma RevokedAllSplits(db: Db, db1: Db, db': Db, items: seq<RevokeItem>, annotator: UserId, action: ActionId,
                         block: bool, release: bool)
    requires items != [] && TasksDiffer(items) && SameElsewhere(db, db1) && db1.nextId == db.nextId + 1
    requires MovedBy(db, db1, items[0].task, RevokeMoveOf(items[0], annotator, action, block, release, db.nextId))
    requires db1.tasks == db.tasks[items[0].task := db1.tasks[items[0].task]]
    requires RevokedAll(db1, db', items[1..], annotator, action, block, release)
    ensures RevokedAll(db, db', items, annotator, action, block, release)
  {
    hide Enabled, After, NoRepeats;
    var rest := items[1..];
    forall i | 0 <= i < |items|
      ensures MovedBy(db, db', items[i].task, RevokeMoveOf(items[i], annotator, action, block, release, db.nextId + i))
    {
      if i == 0 {
        assert forall j :: 0 <= j < |rest| ==> rest[j] == items[j + 1];
      } else {
        assert rest[i - 1] == items[i] && items[0].task != items[i].task;
        assert MovedBy(db1, db', rest[i - 1].task,
                       RevokeMoveOf(rest[i - 1], annotator, action, block, release, db1.nextId + (i - 1)));
      }
    }
    forall t | t in db.tasks && (forall i :: 0 <= i < |items| ==> items[i].task != t)
      ensures db'.tasks[t] == db.tasks[t]
    {
      forall j | 0 <= j < |rest| ensures rest[j].task != t { assert rest[j] == items[j + 1]; }
      assert items[0].task != t;
    }
  }

  lemma NewActionIsNew(db: Db, admin: Admin, payload: Payload)
    requires Inv(db)
    ensures forall t <- db.tasks :: db.nextId !in OpenAction(db, admin, payload).tasks[t].items
  {
    forall t | t in db.tasks ensures db.nextId !in db.tasks[t].items { FreshId(db, t, db.nextId); }
  }

  /** A revoke that is carried out revokes each listed task under the new action, and touches no other task. */
  lemma RevokeStep(db: Db, c: Command)
    requires Inv(db) && c.DoRevoke?
    ensures var out := RevokeTasks(db, c.admin, c.annotator, c.items, c.reason, c.block, c.release);
            && Inv(out.0)
            && (!out.1.Ok? ==> out.0 == db)
            && (out.1.Ok? ==>
                  var db1 := OpenAction(db, c.admin, RevokePayload(c.annotator, c.items, c.reason, c.block, c.release));
                  && TasksDiffer(c.items) && out.1 == Ok(AdminDone(db.nextId))
                  && RevokedAll(db1, out.0, c.items, c.annotator, db.nextId, c.block, c.release))
  {
    hide Inv, RevokedAll;
    var out := RevokeTasks(db, c.admin, c.annotator, c.items, c.reason, c.block, c.release);
    if out.1.Ok? {
      var payload := RevokePayload(c.annotator, c.items, c.reason, c.block, c.release);
      OpenActionKeepsInv(db, c.admin, payload);
      NewActionIsNew(db, c.admin, payload);
      TasksOfDiffer(c.items);
      RevokeAllIs(OpenAction(db, c.admin, payload), c.items, c.annotator, db.nextId, c.block, c.release);
    }
  }

  lemma TasksOfDiffer(items: seq<RevokeItem>)
    requires NoRepeats(TasksOf(items))
    ensures TasksDiffer(items)
  {
    var ts := TasksOf(items);
    forall i, j | 0 <= i < j < |items| ensures items[i].task != items[j].task { assert ts[i] != ts[j]; }
  }

  /* ---------- restoring a batch ---------- */

  ghost predicate RestoredAll(db: Db, db': Db, tasks: seq<TaskId>, source: ActionId, at: nat) {
    && SameElsewhere(db, db')
    && (forall i :: 0 <= i < |tasks| ==> MovedBy(db, db', tasks[i], RestoreMove(source, at)))
    && (forall t <- db.tasks :: t !in tasks ==> db'.tasks[t] == db.tasks[t])
  }

  ghost predicate AnnotatorsActive(db: Db, tasks: seq<TaskId>, source: ActionId) {
    forall t <- tasks :: RevokedIn(db, t, source) && ActiveUser(db, db.tasks[t].items[source].annotator)
  }

  lemma OthersStayActive(db: Db, tasks: seq<TaskId>, source: ActionId, r: Rows)
    requires tasks != [] && NoRepeats(tasks) && AnnotatorsActive(db, tasks, source) && tasks[0] in db.tasks
    ensures NoRepeats(tasks[1..]) && AnnotatorsActive(SetRows(db, tasks[0], r), tasks[1..], source)
  {
    var rest := tasks[1..];
    assert forall i :: 0 <= i < |rest| ==> rest[i] == tasks[i + 1] && rest[i] != tasks[0];
  }

  lemma {:induction false} RestoreAllIs(db: Db, tasks: seq<TaskId>, source: ActionId, at: nat)
    requires Inv(db) && NoRepeats(tasks) && AnnotatorsActive(db, tasks, source)
    requires RestoreAll(db, tasks, source, at).Good?
    ensures var db' := RestoreAll(db, tasks, source, at).value; Inv(db') && RestoredAll(db, db', tasks, source, at)
    decreases |tasks|
  {
    hide Inv, Restorable, PutBack;
    if tasks != [] {
      var t, rest, m := tasks[0], tasks[1..], RestoreMove(source, at);
      var db1 := SetRows(db, t, After(db.tasks[t], m));
      assert t in tasks;
      MoveKeepsInv(db, t, m);
      OthersStayActive(db, tasks, source, After(db.tasks[t], m));
      RestoreAllIs(db1, rest, source, at);
      RestoredAllSplits(db, db1, RestoreAll(db1, rest, source, at).value, tasks, source, at);
    }
  }

  lemma RestoredAllSplits(db: Db, db1: Db, db': Db, tasks: seq<TaskId>, source: ActionId, at: nat)
    requires tasks != [] && NoRepeats(tasks) && SameElsewhere(db, db1)
    requires MovedBy(db, db1, tasks[0], RestoreMove(source, at))
    requires db1.tasks == db.tasks[tasks[0] := db1.tasks[tasks[0]]]
    requires RestoredAll(db1, db', tasks[1..], source, at)
    ensures RestoredAll(db, db', tasks, source, at)
  {
    hide Enabled, After;
    var rest := tasks[1..];
    assert tasks[0] !in rest;
    forall i | 0 <= i < |tasks| ensures MovedBy(db, db', tasks[i], RestoreMove(source, at)) {
      if i > 0 {
        assert rest[i - 1] == tasks[i] && tasks[0] != tasks[i];
        assert MovedBy(db1, db', rest[i - 1], RestoreMove(source, at));
      }
    }
  }

  /** A restore that is carried out undoes the source revoke on each listed task, and touches no other task. */
  lemma RestoreStep(db: Db, c: Command)
    requires Inv(db) && c.DoRestore?
    ensures var out := RestoreTasks(db, c.admin, c.source, c.tasks, c.reason);
            && Inv(out.0)
            && (!out.1.Ok? ==> out.0 == db)
            && (out.1.Ok? ==>
                  var db1 := OpenAction(db, c.admin, RestorePayload(c.source, c.tasks, c.reason));
                  c.source in db.actions && RestoredAll(db1, out.0, c.tasks, c.source, db.actions[c.source].at))
  {
    hide Inv, RestoredAll;
    var out := RestoreTasks(db, c.admin, c.source, c.tasks, c.reason);
    if out.1.Ok? {
      var payload := RestorePayload(c.source, c.tasks, c.reason);
      var db1 := OpenAction(db, c.admin, payload);
      OpenActionKeepsInv(db, c.admin, payload);
      assert AnnotatorsActive(db1, c.tasks, c.source);
      RestoreAllIs(db1, c.tasks, c.source, db.actions[c.source].at);
    }
  }

  /* ---------- releasing one task ---------- */

  lemma ResetOneStep(db: Db, t: TaskId)
    requires Inv(db) && t in db.tasks && db.tasks[t].assignment.Some?
    ensures ResetOne(db, t).Good?
    ensures var db' := ResetOne(db, t).value;
            && Inv(db') && SameElsewhere(db, db') && MovedBy(db, db', t, ResetMove(db.nextId))
            && db'.tasks == db.tasks[t := db'.tasks[t]]
            && db'.tasks[t].assignment.None? && db'.tasks[t].reserved.None?
            && db'.held == db.held - {db.tasks[t].assignment.value.user}
            && (forall u :: SubmittedBy(db'.tasks[t], u) <==> SubmittedBy(db.tasks[t], u))
  {
    hide Inv, Reset, RowsOk, PeopleOk, IdsBelow;
    var r, m := db.tasks[t], ResetMove(db.nextId);
    var db1 := db.(nextId := db.nextId + 1);
    FreshId(db, t, db.nextId);
    BumpKeepsInv(db, db.nextId + 1);
    RowsFit(db1, t);
    ResetKeepsRows(r, db.nextId);
    ResetFits(db1, r, m);
    MoveKeepsInv(db1, t, m);
  }

  lemma RowsFit(db: Db, t: TaskId)
    requires Inv(db) && t in db.tasks
    ensures TaskFits(db.tasks[t], db.nextId, db.auth.active) && RowsOk(db.tasks[t])
    ensures db.tasks[t].assignment.Some? ==> db.tasks[t].reserved.None?
  {
  }

  lemma ReleaseStep(db: Db, c: Command)
    requires Inv(db) && c.DoRelease?
    ensures var out := Release(db, c.admin, c.task, c.reason);
            && Inv(out.0)
            && (!out.1.Ok? ==> out.0 == db)
            && (out.1.Ok? ==> var db1 := OpenAction(db, c.admin, ReleasePayload(c.task, c.reason));
                              && SameElsewhere(db1, out.0) && MovedBy(db1, out.0, c.task, ResetMove(db1.nextId))
                              && out.0.tasks == db.tasks[c.task := out.0.tasks[c.task]])
  {
    hide Inv, ResetOne;
    var out := Release(db, c.admin, c.task, c.reason);
    if out.1.Ok? {
      var payload := ReleasePayload(c.task, c.reason);
      var db1 := OpenAction(db, c.admin, payload);
      OpenActionKeepsInv(db, c.admin, payload);
      ResetOneStep(db1, c.task);
      var done := ResetOne(db1, c.task).value;
      var r := done.tasks[c.task];
      assert r.(reserved := None) == r;
      assert done.tasks[c.task := r] == done.tasks;
      assert SetRows(done, c.task, r) == done;
    }
  }

  /* ---------- deactivating an account ---------- */

  predicate AdminMove(m: Move) {
    m.ResetMove? || m.UnreserveMove? || m.RevokeMove? || m.RestoreMove?
  }

  ghost predicate QuietBy(r: Rows, ms: seq<Move>, r': Rows) {
    EnabledAll(r, ms) && AfterAll(r, ms) == r' && forall m <- ms :: AdminMove(m)
  }

  /** Only administrative changes lie between the two, so no version was edited. */
  ghost predicate Quiet(r: Rows, r': Rows) {
    exists ms: seq<Move> :: QuietBy(r, ms, r')
  }

  lemma QuietOne(r: Rows, m: Move)
    requires Enabled(r, m) && AdminMove(m)
    ensures Quiet(r, After(r, m))
  {
    hide Enabled, After;
    var ms := [m];
    assert ms[1..] == [];
    assert EnabledAll(After(r, m), []) && AfterAll(After(r, m), []) == After(r, m);
    assert QuietBy(r, ms, After(r, m));
  }

  lemma QuietSame(r: Rows)
    ensures Quiet(r, r)
  {
    assert QuietBy(r, [], r);
  }

  lemma {:induction false} MovesChain(r: Rows, ms: seq<Move>, ns: seq<Move>)
    requires EnabledAll(r, ms) && EnabledAll(AfterAll(r, ms), ns)
    ensures EnabledAll(r, ms + ns) && AfterAll(r, ms + ns) == AfterAll(AfterAll(r, ms), ns)
    decreases |ms|
  {
    hide Enabled, After;
    if ms == [] {
      assert ms + ns == ns;
    } else {
      assert (ms + ns)[0] == ms[0] && (ms + ns)[1..] == ms[1..] + ns;
      MovesChain(After(r, ms[0]), ms[1..], ns);
    }
  }

  lemma QuietChain(a: Rows, b: Rows, c: Rows)
    requires Quiet(a, b) && Quiet(b, c)
    ensures Quiet(a, c)
  {
    hide EnabledAll, AfterAll;
    var ms: seq<Move> :| QuietBy(a, ms, b);
    var ns: seq<Move> :| QuietBy(b, ns, c);
    MovesChain(a, ms, ns);
    assert QuietBy(a, ms + ns, c);
  }

  /** A published task that nobody else may hold has no open work at all. */
  lemma OwnSubmissionIsFree(db: Db, t: TaskId, u: UserId)
    requires Inv(db) && t in db.tasks && SubmittedBy(db.tasks[t], u) && u !in db.held
    ensures db.tasks[t].current.Some? && db.tasks[t].assignment.None? && db.tasks[t].draft.None?
    ensures RowsOk(db.tasks[t])
  {
    var r := db.tasks[t];
    assert TaskFits(r, db.nextId, db.auth.active);
  }

  /** A task taken back from an annotator who may not claim it again. */
  predicate Freed(r: Rows, u: UserId, action: ActionId) {
    r.status.Pending? && r.current.None? && r.reserved.None? && r.assignment.None? && u in r.blocks && r.blocks[u] == action
  }

  lemma RevokeOneSucceeds(db: Db, t: TaskId, u: UserId, action: ActionId)
    requires Inv(db) && t in db.tasks && SubmittedBy(db.tasks[t], u) && u !in db.held
    requires action < db.nextId && action !in db.tasks[t].items
    ensures var r := db.tasks[t];
            && r.current.Some? && r.assignment.None?
            && RevokeOne(db, RevokeItem(t, r.current.value), u, action, true, false).Good?
    ensures var db' := RevokeOne(db, RevokeItem(t, db.tasks[t].current.value), u, action, true, false).value;
            && Inv(db') && SameElsewhere(db, db') && db'.held == db.held
            && db'.tasks == db.tasks[t := db'.tasks[t]] && Quiet(db.tasks[t], db'.tasks[t])
            && Freed(db'.tasks[t], u, action)
  {
    hide Inv, Revoke, RowsOk, EnabledAll, AfterAll;
    OwnSubmissionIsFree(db, t, u);
    var r := db.tasks[t];
    var item := RevokeItem(t, r.current.value);
    FreshId(db, t, db.nextId);
    RevokeSucceeds(r, r.current.value, u, action, true, false, db.nextId);
    RevokeOneStep(db, item, u, action, true, false);
    var m := RevokeMoveOf(item, u, action, true, false, db.nextId);
    RevokeHasEffect(r, m);
    QuietOne(r, m);
  }

  /** What revoking a list of one annotator's submissions leaves. */
  ghost predicate SubmissionsRevoked(db: Db, db': Db, tasks: seq<TaskId>, u: UserId, action: ActionId) {
    && SameElsewhere(db, db') && db'.held == db.held
    && (forall t <- db.tasks :: Quiet(db.tasks[t], db'.tasks[t]))
    && (forall t <- tasks :: t in db'.tasks && Freed(db'.tasks[t], u, action))
    && (forall t <- db.tasks :: t !in tasks ==> db'.tasks[t] == db.tasks[t])
  }

  ghost predicate CanRevoke(db: Db, tasks: seq<TaskId>, u: UserId, action: ActionId) {
    forall t <- tasks :: t in db.tasks && SubmittedBy(db.tasks[t], u) && action !in db.tasks[t].items
  }

  lemma SubmissionsSplit(db: Db, db1: Db, db': Db, tasks: seq<TaskId>, u: UserId, action: ActionId)
    requires tasks != [] && NoRepeats(tasks) && tasks[0] in db.tasks
    requires SameElsewhere(db, db1) && db1.held == db.held && db1.tasks == db.tasks[tasks[0] := db1.tasks[tasks[0]]]
    requires Quiet(db.tasks[tasks[0]], db1.tasks[tasks[0]])
    requires Freed(db1.tasks[tasks[0]], u, action)
    requires SubmissionsRevoked(db1, db', tasks[1..], u, action)
    ensures SubmissionsRevoked(db, db', tasks, u, action)
  {
    hide Quiet;
    assert tasks[0] !in tasks[1..];
    assert forall t :: t in tasks <==> t == tasks[0] || t in tasks[1..];
    forall t | t in db.tasks ensures Quiet(db.tasks[t], db'.tasks[t]) {
      assert Quiet(db1.tasks[t], db'.tasks[t]);
      QuietChain(db.tasks[t], db1.tasks[t], db'.tasks[t]) by { if t != tasks[0] { QuietSame(db.tasks[t]); } }
    }
  }

  lemma {:induction false} RevokeSubmissionsIs(db: Db, tasks: seq<TaskId>, u: UserId, action: ActionId)
    requires Inv(db) && NoRepeats(tasks) && u !in db.held && action < db.nextId && CanRevoke(db, tasks, u, action)
    ensures RevokeSubmissions(db, tasks, u, action).Good?
    ensures var db' := RevokeSubmissions(db, tasks, u, action).value; Inv(db') && SubmissionsRevoked(db, db', tasks, u, action)
    decreases |tasks|
  {
    hide Inv, RevokeOne, Quiet;
    if tasks == [] {
      forall t | t in db.tasks ensures Quiet(db.tasks[t], db.tasks[t]) { QuietSame(db.tasks[t]); }
    } else {
      var t, rest := tasks[0], tasks[1..];
      assert t in tasks;
      RevokeOneSucceeds(db, t, u, action);
      var db1 := RevokeOne(db, RevokeItem(t, db.tasks[t].current.value), u, action, true, false).value;
      assert forall i :: 0 <= i < |rest| ==> rest[i] == tasks[i + 1] && rest[i] != t;
      assert CanRevoke(db1, rest, u, action);
      RevokeSubmissionsIs(db1, rest, u, action);
      SubmissionsSplit(db, db1, RevokeSubmissions(db1, rest, u, action).value, tasks, u, action);
    }
  }

  ghost predicate QuietAll(db: Db, db': Db) {
    forall t <- db.tasks ::
      && t in db'.tasks && Quiet(db.tasks[t], db'.tasks[t]) && db'.tasks[t].items == db.tasks[t].items
      && SameSubmitter(db.tasks[t], db'.tasks[t])
  }

  ghost predicate SameSubmitter(r: Rows, r': Rows) {
    forall u :: SubmittedBy(r', u) <==> SubmittedBy(r, u)
  }

  lemma ReleaseOfIs(db: Db, u: UserId)
    requires Inv(db)
    ensures ReleaseOf(db, u).Good?
    ensures var db' := ReleaseOf(db, u).value;
            Inv(db') && SameElsewhere(db, db') && u !in db'.held && QuietAll(db, db')
  {
    hide Inv, Quiet, ResetOne;
    forall t | t in db.tasks ensures Quiet(db.tasks[t], db.tasks[t]) { QuietSame(db.tasks[t]); }
    if HasAssignment(db, u) {
      HeldByHolder(db, u);
      ResetOneStep(db, db.held[u]);
      ResetOneIsQuiet(db, db.held[u]);
    } else {
      NotHeld(db, u);
    }
  }

  lemma ResetOneIsQuiet(db: Db, t: TaskId)
    requires Inv(db) && t in db.tasks && db.tasks[t].assignment.Some? && ResetOne(db, t).Good?
    ensures var db' := ResetOne(db, t).value;
            t in db'.tasks && Quiet(db.tasks[t], db'.tasks[t]) && db'.tasks[t].items == db.tasks[t].items
  {
    hide Inv, Quiet, RowsOk, ResetOne, Reset;
    ResetOneStep(db, t);
    RowsFit(db, t);
    ResetHasEffect(db.tasks[t], ResetMove(db.nextId));
    QuietOne(db.tasks[t], ResetMove(db.nextId));
  }

  lemma HeldByHolder(db: Db, u: UserId)
    requires Inv(db) && HasAssignment(db, u)
    ensures db.tasks[db.held[u]].assignment.value.user == u
  {
  }

  /** The account has no claim of any kind on a task. */
  ghost predicate Uninvolved(db: Db, u: UserId) {
    && u !in db.held
    && forall t <- db.tasks :: db.tasks[t].reserved != Some(u) && !SubmittedBy(db.tasks[t], u)
  }

  lemma UnreserveAllIs(db: Db, u: UserId)
    requires Inv(db)
    ensures var db' := UnreserveAll(db, u);
            && Inv(db') && SameElsewhere(db, db') && db'.held == db.held && QuietAll(db, db')
            && (forall t <- db'.tasks :: db'.tasks[t].reserved != Some(u))
  {
    hide Inv, TaskFits, Quiet, HeldOk, LogsOk, S.AuthOk;
    var db' := UnreserveAll(db, u);
    UnreserveKeepsRest(db, u);
    forall t | t in db.tasks
      ensures t < db'.nextId && TaskFits(db'.tasks[t], db'.nextId, db'.auth.active)
      ensures Quiet(db.tasks[t], db'.tasks[t])
    {
      UnreserveKeepsTask(db, u, t);
    }
    assert TasksOk(db');
    InvOfParts(db');
  }

  lemma InvOfParts(db: Db)
    requires TasksOk(db) && HeldOk(db) && LogsOk(db) && S.AuthOk(db.auth)
    ensures Inv(db)
  {
    hide TasksOk, HeldOk, LogsOk, S.AuthOk;
  }

  lemma UnreserveKeepsTask(db: Db, u: UserId, t: TaskId)
    requires Inv(db) && t in db.tasks
    ensures t < db.nextId && TaskFits(Unreserved(db.tasks[t], u), db.nextId, db.auth.active)
    ensures Quiet(db.tasks[t], Unreserved(db.tasks[t], u))
  {
    assert TaskFits(db.tasks[t], db.nextId, db.auth.active);
    hide Inv, TaskFits, Quiet;
    MoveFits(db, db.tasks[t], UnreserveMove(u));
    QuietOne(db.tasks[t], UnreserveMove(u));
  }

  lemma UnreserveKeepsRest(db: Db, u: UserId)
    requires Inv(db)
    ensures var db' := UnreserveAll(db, u); HeldOk(db') && LogsOk(db') && S.AuthOk(db'.auth)
  {
    UnreserveKeepsHeld(db, u);
    hide HeldOk, TasksOk, S.AuthOk;
  }

  lemma UnreserveKeepsHeld(db: Db, u: UserId)
    requires HeldOk(db)
    ensures HeldOk(UnreserveAll(db, u))
  {
    var db' := UnreserveAll(db, u);
    forall w | w in db'.held ensures db'.held[w] in db'.tasks && Holds(db'.tasks[db'.held[w]], w) {
      assert Holds(db.tasks[db.held[w]], w);
    }
    forall t | t in db'.tasks && db'.tasks[t].assignment.Some?
      ensures db'.tasks[t].assignment.value.user in db'.held && db'.held[db'.tasks[t].assignment.value.user] == t
    {
      assert db'.tasks[t].assignment == db.tasks[t].assignment;
    }
  }

  lemma CloseKeepsTask(db: Db, u: UserId, t: TaskId)
    requires Inv(db) && Uninvolved(db, u) && t in db.tasks
    ensures t < db.nextId && TaskFits(db.tasks[t], db.nextId, CloseAccount(db, u).auth.active)
  {
    hide RowsOk, IdsBelow, LogsOk, S.AuthOk;
    var r := db.tasks[t];
    assert TaskFits(r, db.nextId, db.auth.active);
    assert r.assignment.Some? ==> r.assignment.value.user in db.held;
    assert !SubmittedBy(r, u) && r.reserved != Some(u);
  }

  lemma CloseKeepsTasks(db: Db, u: UserId)
    requires Inv(db) && Uninvolved(db, u)
    ensures TasksOk(CloseAccount(db, u))
  {
    hide Inv, Uninvolved, TaskFits;
    var db' := CloseAccount(db, u);
    forall t | t in db'.tasks ensures t < db'.nextId && TaskFits(db'.tasks[t], db'.nextId, db'.auth.active) {
      CloseKeepsTask(db, u, t);
    }
  }

  lemma CloseKeepsAuth(db: Db, u: UserId)
    requires S.AuthOk(db.auth) && u !in db.auth.sessions
    ensures S.AuthOk(CloseAccount(db, u).auth)
  {
    var a := CloseAccount(db, u).auth;
    forall w | w in a.sessions ensures S.RowOk(a, a.sessions[w]) && w in a.active && a.active[w] {
      assert S.RowOk(db.auth, db.auth.sessions[w]);
    }
  }

  lemma CloseKeepsIndex(db: Db, u: UserId)
    requires HeldOk(db) && LogsOk(db)
    ensures HeldOk(CloseAccount(db, u)) && LogsOk(CloseAccount(db, u))
  {
    hide Holds;
  }

  lemma CloseKeepsInv(db: Db, u: UserId)
    requires Inv(db) && Uninvolved(db, u) && u !in db.auth.sessions
    ensures Inv(CloseAccount(db, u))
  {
    hide TasksOk, HeldOk, LogsOk, Uninvolved, CloseAccount, S.AuthOk;
    CloseKeepsTasks(db, u);
    CloseKeepsAuth(db, u);
    CloseKeepsIndex(db, u);
  }

  lemma EndSessionKeepsInv(db: Db, u: UserId)
    requires Inv(db)
    ensures Inv(EndSession(db, u))
  {
    S.RemovalKeepsAuthOk(db.auth, S.Logout(u, 0, None));
    assert S.AuthOk(S.Drop(db.auth, u)) by {
      forall w | w in S.Drop(db.auth, u).sessions
        ensures S.RowOk(S.Drop(db.auth, u), db.auth.sessions[w]) && w in db.auth.active && db.auth.active[w]
      {
        assert S.RowOk(db.auth, db.auth.sessions[w]);
      }
    }
    hide TasksOk, HeldOk, LogsOk;
    AuthKeepsInv(db, S.Drop(db.auth, u));
  }

  /** The tables when the account is closed, and before. */
  function Cleared(db: Db, admin: Admin, payload: Payload, u: UserId): Db
    requires ReleaseOf(EndSession(OpenAction(db, admin, payload), u), u).Good?
  {
    UnreserveAll(ReleaseOf(EndSession(OpenAction(db, admin, payload), u), u).value, u)
  }

  lemma ClearedIs(db: Db, admin: Admin, payload: Payload, u: UserId)
    requires Inv(db)
    ensures ReleaseOf(EndSession(OpenAction(db, admin, payload), u), u).Good?
    ensures var db1, db2 := OpenAction(db, admin, payload), Cleared(db, admin, payload, u);
            && Inv(db2) && SameElsewhere(EndSession(db1, u), db2) && u !in db2.held && QuietAll(db1, db2)
            && (forall t <- db2.tasks :: db2.tasks[t].reserved != Some(u))
            && (forall t <- db2.tasks :: db.nextId !in db2.tasks[t].items)
  {
    hide Inv, Quiet, OpenAction;
    var db1 := OpenAction(db, admin, payload);
    OpenActionKeepsInv(db, admin, payload);
    EndSessionKeepsInv(db1, u);
    ReleaseOfIs(EndSession(db1, u), u);
    var rel := ReleaseOf(EndSession(db1, u), u).value;
    UnreserveAllIs(rel, u);
    var db2 := UnreserveAll(rel, u);
    NewActionIsNew(db, admin, payload);
    OpenActionSameTasks(db, admin, payload);
    hide ReleaseOf;
    forall t | t in db1.tasks
      ensures t in db2.tasks && Quiet(db1.tasks[t], db2.tasks[t]) && db2.tasks[t].items == db1.tasks[t].items
      ensures SameSubmitter(db1.tasks[t], db2.tasks[t])
    {
      assert t in EndSession(db1, u).tasks && t in rel.tasks;
      QuietChain(db1.tasks[t], rel.tasks[t], db2.tasks[t]);
    }
    assert QuietAll(db1, db2);
  }

  lemma OpenActionSameTasks(db: Db, admin: Admin, payload: Payload)
    ensures OpenAction(db, admin, payload).tasks == db.tasks
  {
  }

  lemma AllRevoked(db: Db, u: UserId, action: ActionId)
    requires Inv(db) && u !in db.held && action < db.nextId
    requires forall t <- db.tasks :: db.tasks[t].reserved != Some(u) && action !in db.tasks[t].items
    ensures RevokeSubmissions(db, Ascending(SubmittedTasks(db, u)), u, action).Good?
    ensures var db' := RevokeSubmissions(db, Ascending(SubmittedTasks(db, u)), u, action).value;
            && Inv(db') && SameElsewhere(db, db') && Uninvolved(db', u)
            && (forall t <- db.tasks :: Quiet(db.tasks[t], db'.tasks[t])
                                        && (SubmittedBy(db.tasks[t], u) ==> Freed(db'.tasks[t], u, action)))
  {
    hide Inv, Quiet, RevokeSubmissions;
    var tasks := Ascending(SubmittedTasks(db, u));
    assert NoRepeats(tasks);
    assert CanRevoke(db, tasks, u, action);
    RevokeSubmissionsIs(db, tasks, u, action);
    var db' := RevokeSubmissions(db, tasks, u, action).value;
    forall t | t in db'.tasks ensures db'.tasks[t].reserved != Some(u) && !SubmittedBy(db'.tasks[t], u) {
      assert t in tasks <==> SubmittedBy(db.tasks[t], u);
    }
  }

  predicate AccountClosed(db: Db, u: UserId) {
    u in db.auth.active && !db.auth.active[u]
  }

  lemma DeactivateBody(db: Db, admin: Admin, u: UserId, reason: string)
    requires Inv(db) && ActiveUser(db, u) && BeginAction(db, admin, DeactivatePayload(u, reason)).None?
    ensures var out := Deactivate(db, admin, u, reason);
            && out.1 == Ok(AdminDone(db.nextId)) && Inv(out.0) && AccountClosed(out.0, u)
            && out.0.auth == S.DeactivateStep(db.auth, u).0
            && out.0.operations == db.operations && out.0.paths == db.paths
            && out.0.actions == OpenAction(db, admin, DeactivatePayload(u, reason)).actions
            && out.0.actionOps == OpenAction(db, admin, DeactivatePayload(u, reason)).actionOps
            && (forall t <- db.tasks :: t in out.0.tasks && Quiet(db.tasks[t], out.0.tasks[t])
                                        && (SubmittedBy(db.tasks[t], u) ==> Freed(out.0.tasks[t], u, db.nextId)))
  {
    hide Inv, Quiet, Freed, ReleaseOf, RevokeSubmissions, UnreserveAll, BeginAction, Uninvolved;
    var payload := DeactivatePayload(u, reason);
    ClearedIs(db, admin, payload, u);
    var db2 := Cleared(db, admin, payload, u);
    AllRevoked(db2, u, db.nextId);
    var done := RevokeSubmissions(db2, Ascending(SubmittedTasks(db2, u)), u, db.nextId).value;
    CloseKeepsInv(done, u);
    forall t | t in db.tasks
      ensures t in done.tasks && Quiet(db.tasks[t], done.tasks[t])
      ensures SubmittedBy(db.tasks[t], u) ==> Freed(done.tasks[t], u, db.nextId)
    {
      QuietChain(db.tasks[t], db2.tasks[t], done.tasks[t]);
    }
  }

  ghost predicate AllFreed(db: Db, db': Db, u: UserId) {
    forall t <- db.tasks :: SubmittedBy(db.tasks[t], u) ==> t in db'.tasks && Freed(db'.tasks[t], u, db.nextId)
  }

  /** With every task in order, deactivating an active annotator meets no conflict: it is refused only by the checks
      every admin command starts with, or because there is no such active account. All that the annotator had submitted
      is then pending again and closed to the annotator. */
  lemma DeactivationGoesThrough(db: Db, admin: Admin, u: UserId, reason: string)
    requires Inv(db)
    ensures var out := Deactivate(db, admin, u, reason);
            && (out.1.Ok? <==> BeginAction(db, admin, DeactivatePayload(u, reason)).None? && ActiveUser(db, u))
            && (out.1.Ok? ==> AccountClosed(out.0, u) && AllFreed(db, out.0, u))
  {
    if BeginAction(db, admin, DeactivatePayload(u, reason)).None? && ActiveUser(db, u) {
      hide Deactivate, Inv, BeginAction;
      DeactivateBody(db, admin, u, reason);
    } else {
      hide Inv, OpenAction, ReleaseOf, UnreserveAll, RevokeSubmissions;
    }
  }

  lemma DeactivateStep(db: Db, c: Command)
    requires Inv(db) && c.DoDeactivate?
    ensures var out := Deactivate(db, c.admin, c.user, c.reason);
            && Inv(out.0)
            && (!out.1.Ok? ==> out.0 == db)
            && (out.1.Ok? ==> && AccountClosed(out.0, c.user) && ActiveUser(db, c.user)
                              && out.0.auth == S.DeactivateStep(db.auth, c.user).0)
            && (forall t <- db.tasks :: t in out.0.tasks && Quiet(db.tasks[t], out.0.tasks[t]))
  {
    if BeginAction(db, c.admin, DeactivatePayload(c.user, c.reason)).None? && ActiveUser(db, c.user) {
      hide Deactivate, Inv, BeginAction, Quiet;
      DeactivateBody(db, c.admin, c.user, c.reason);
    } else {
      hide Inv, OpenAction, ReleaseOf, UnreserveAll, RevokeSubmissions, Quiet;
      forall t | t in db.tasks ensures Quiet(db.tasks[t], db.tasks[t]) { QuietSame(db.tasks[t]); }
    }
  }
}
