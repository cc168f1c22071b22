/** Which answer every admin command gets, and the rows it leaves, in terms of the rows and the command alone. */
module AdminOutcomes {
  import opened Common
  import opened TaskRows
  import opened TaskInvariant
  import opened TaskHistory
  import opened Store
  import opened StoreInvariant
  import opened StoreAdmin
  import opened StoreRuns
  import opened StoreReplay
  import R = StoreRestore
  import S = Sessions
  import G = Segments

  /* ---------- the reason ---------- */

  /** Between its first and its last character that is not white space the text has at most 4000, and there is one. */
  ghost predicate Worded(s: string) {
    exists i, j :: Spans(s, i, j) && j - i < 4000
  }

  predicate Spans(s: string, i: int, j: int) {
    && 0 <= i <= j < |s| && !Space(s[i]) && !Space(s[j])
    && forall k :: 0 <= k < |s| && (k < i || j < k) ==> Space(s[k])
  }

  lemma {:induction false} TrimLeftIs(s: string) returns (n: nat)
    ensures n <= |s| && TrimLeft(s) == s[n..] && (n < |s| ==> !Space(s[n]))
    ensures forall k :: 0 <= k < n ==> Space(s[k])
  {
    if s != "" && Space(s[0]) {
      var rest := s[1..];
      var m := TrimLeftIs(rest);
      n := m + 1;
      assert rest[m..] == s[n..];
      forall k | 0 <= k < n ensures Space(s[k]) { if k > 0 { assert s[k] == rest[k - 1]; } }
    } else {
      n := 0;
      assert s[0..] == s;
    }
  }

  lemma {:induction false} TrimRightIs(s: string) returns (n: nat)
    ensures n <= |s| && TrimRight(s) == s[..n] && (n > 0 ==> !Space(s[n - 1]))
    ensures forall k :: n <= k < |s| ==> Space(s[k])
  {
    if s != "" && Space(s[|s| - 1]) {
      var rest := s[..|s| - 1];
      n := TrimRightIs(rest);
      assert rest[..n] == s[..n];
      forall k | n <= k < |s| ensures Space(s[k]) { if k < |rest| { assert s[k] == rest[k]; } }
    } else {
      n := |s|;
      assert s[..|s|] == s;
    }
  }

  lemma ReasonIs(s: string)
    ensures ReasonOk(s) <==> Worded(s)
  {
    hide TrimLeft, TrimRight;
    var n := TrimLeftIs(s);
    var m := TrimRightIs(s[n..]);
    hide Space;
    if m > 0 { TrimmedSpans(s, n, m); }
    if i, j :| Spans(s, i, j) { SpansTrimmed(s, n, m, i, j); }
    hide Spans;
  }

  lemma TrimmedSpans(s: string, n: nat, m: nat)
    requires n + m <= |s| && 0 < m && !Space(s[n]) && !Space(s[n..][m - 1])
    requires (forall k :: 0 <= k < n ==> Space(s[k])) && forall k :: m <= k < |s[n..]| ==> Space(s[n..][k])
    ensures Spans(s, n, n + m - 1)
  {
    hide Space;
    forall k | 0 <= k < |s| && (k < n || n + m - 1 < k) ensures Space(s[k]) { if k >= n { assert s[k] == s[n..][k - n]; } }
    assert s[n..][m - 1] == s[n + m - 1];
  }

  lemma SpansTrimmed(s: string, n: nat, m: nat, i: int, j: int)
    requires n + m <= |s| && Spans(s, i, j) && (n < |s| ==> !Space(s[n])) && (m > 0 ==> !Space(s[n..][m - 1]))
    requires (forall k :: 0 <= k < n ==> Space(s[k])) && forall k :: m <= k < |s[n..]| ==> Space(s[n..][k])
    ensures i == n && j == n + m - 1
  {
    hide Space;
    assert i >= n && s[n..][i - n] == s[i] && s[n..][j - n] == s[j];
    if m > 0 { assert s[n..][m - 1] == s[n + m - 1]; }
  }

  /* ---------- the start of a command ---------- */

  /** One to a hundred tasks, none twice. */
  predicate Batch(tasks: seq<TaskId>) {
    1 <= |tasks| <= 100 && forall i, j :: 0 <= i < j < |tasks| ==> tasks[i] != tasks[j]
  }

  /** The command is confirmed, gives its reason and names tasks properly. */
  ghost predicate Proper(c: Command)
    requires Administrative(c)
  {
    && c.admin.confirm && Worded(PayloadOf(c).reason)
    && (c.DoRevoke? ==> Batch(TasksOf(c.items))) && (c.DoRestore? ==> Batch(c.tasks))
  }

  /** A number that has not been used, through a live admin session. */
  predicate NewNumber(db: Db, admin: Admin) {
    admin.op !in db.actionOps && admin.sessionLive
  }

  lemma ProperBegins(db: Db, c: Command)
    requires Inv(db) && Administrative(c)
    ensures Proper(c) <==> WellFormed(c) && c.admin.confirm && ReasonOk(PayloadOf(c).reason)
    ensures Proper(c) ==> (BeginAction(db, c.admin, PayloadOf(c)).None? <==> NewNumber(db, c.admin))
  {
    ReasonIs(PayloadOf(c).reason);
    assert c.admin.op in db.actionOps ==> db.actionOps[c.admin.op] in db.actions;
    hide TasksOk, HeldOk, S.AuthOk, Worded, ReasonOk;
  }

  /** What a command meets before its own conditions are looked at: an improper one is invalid; a used number gives the
      action it was used for to the same command of the same admin session and a conflict to any other; without a live
      session a new one is forbidden. None of it changes anything. */
  lemma EarlyOutcome(db: Db, c: Command)
    requires Inv(db) && Administrative(c)
    ensures !Proper(c) ==> Step(db, c) == (db, Refuse(Invalid))
    ensures Proper(c) && c.admin.op in db.actionOps ==>
              && db.actionOps[c.admin.op] in db.actions
              && var id := db.actionOps[c.admin.op];
                Step(db, c) == (db, if db.actions[id].session == c.admin.session && db.actions[id].payload == PayloadOf(c)
                                    then Replayed(AdminDone(id)) else Refuse(Conflict))
    ensures Proper(c) && c.admin.op !in db.actionOps && !c.admin.sessionLive ==> Step(db, c) == (db, Refuse(Forbidden))
  {
    ProperBegins(db, c);
    assert c.admin.op in db.actionOps ==> db.actionOps[c.admin.op] in db.actions;
    hide Inv, Claim, Save, Complete, Abandon, Reopen, OperatorRelease, Preprocess, SessionStep, ReasonOk, BatchOk, Proper;
    hide OpenAction, RevokeAll, RestoreAll, ResetOne, ReleaseOf, UnreserveAll, RevokeSubmissions;
  }

  /** The command is on record under the next identifier; sessions and requests are as they were. */
  predicate Logged(db: Db, c: Command, out: (Db, Outcome))
    requires Administrative(c)
  {
    && out.1 == Ok(AdminDone(db.nextId))
    && out.0.actions == db.actions[db.nextId := Action(c.admin.op, c.admin.session, PayloadOf(c), db.auth.now)]
    && out.0.actionOps == db.actionOps[c.admin.op := db.nextId]
    && out.0.operations == db.operations && out.0.paths == db.paths && out.0.tasks.Keys == db.tasks.Keys
  }

  /* ---------- rows ---------- */

  /** The versions with the open one, if any, abandoned. */
  function SetAside(r: Rows): map<VersionId, Version>
    requires r.draft.Some? ==> r.draft.value in r.versions
  {
    if r.draft.Some? then r.versions[r.draft.value := r.versions[r.draft.value].(lifecycle := Abandoned)] else r.versions
  }

  /** A new annotation of the recognised rows. */
  function FromBaseline(r: Rows): Version
    requires r.baseline.Some? && r.baseline.value in r.versions
  {
    var rows := r.versions[r.baseline.value].segments;
    Version(Draft, Pending, r.baseline, 0, false, None, [], None, None,
            map k <- rows :: rows[k].(text := "", exclude := false))
  }

  /** The task without its current submission: pending, nobody's, with a new draft; the submission is marked, the
      annotator shut out if that was asked for, and the change is on record. */
  function AfterRevoke(r: Rows, annotator: UserId, action: ActionId, block: bool, draft: VersionId): Rows
    requires r.current.Some? && r.current.value in r.versions && r.baseline.Some? && r.baseline.value in r.versions
    requires r.draft.Some? ==> r.draft.value in r.versions
  {
    var v := r.current.value;
    r.(status := Pending, current := None, reserved := None, assignment := None, draft := Some(draft),
       versions := SetAside(r)[v := r.versions[v].(lifecycle := Revoked, revokedBy := Some(action))][draft := FromBaseline(r)],
       blocks := if block then r.blocks[annotator := action] else r.blocks,
       items := r.items[action := Item(annotator, v, draft)])
  }

  /** The task without its assignment: a revision is dropped, an annotation starts again from the recognised rows. */
  function AfterRelease(r: Rows, draft: VersionId): Rows
    requires r.baseline.Some? && r.baseline.value in r.versions && (r.draft.Some? ==> r.draft.value in r.versions)
  {
    var r1 := r.(assignment := None, draft := None, versions := SetAside(r));
    if r.current.Some? then r1 else r1.(draft := Some(draft), versions := r1.versions[draft := FromBaseline(r)])
  }

  /** The task with the revoked submission back in place, and the annotator let in again if that revoke shut them out. */
  function AfterRestore(r: Rows, source: ActionId): Rows
    requires source in r.items && r.items[source].before in r.versions && r.items[source].after in r.versions
  {
    var item := r.items[source];
    var was := r.versions[item.before];
    r.(status := was.target, current := Some(item.before), draft := None,
       versions := r.versions[item.after := r.versions[item.after].(lifecycle := Abandoned)]
                             [item.before := was.(lifecycle := Published, revokedBy := None)],
       blocks := if item.annotator in r.blocks && r.blocks[item.annotator] == source then r.blocks - {item.annotator}
                 else r.blocks)
  }

  lemma OpenRows(r: Rows)
    requires RowsOk(r)
    ensures r.baseline.Some? && r.baseline.value in r.versions && r.versions[r.baseline.value].lifecycle.Baseline?
    ensures r.draft.Some? ==> r.draft.value in r.versions && r.draft != r.baseline && r.draft != r.current
                              && r.versions[r.draft.value].lifecycle.Draft?
    ensures r.current.Some? ==> r.current.value in r.versions && r.current != r.baseline
                                && r.versions[r.current.value].lifecycle.Published?
    ensures r.draft.None? ==> r.assignment.None?
    ensures r.assignment.Some? ==> r.draft == Some(r.assignment.value.version) && r.reserved.None?
    ensures r.status.Pending? <==> r.current.None?
  {
    assert VersionOk(r, r.baseline.value);
    assert r.draft.Some? ==> VersionOk(r, r.draft.value);
    assert r.current.Some? ==> VersionOk(r, r.current.value);
  }

  lemma CloneIs(r: Rows, draft: VersionId)
    requires CloneClean(r, draft).Good?
    ensures CloneClean(r, draft).value == r.(draft := Some(draft), versions := r.versions[draft := FromBaseline(r)])
  {
    var rows := r.versions[r.baseline.value].segments;
    assert (map k <- rows :: Cleaned(rows[k])) == map k <- rows :: rows[k].(text := "", exclude := false);
  }

  lemma ClosedIs(r: Rows)
    requires RowsOk(r)
    ensures r.draft.Some? ==> r.draft.value in r.versions
    ensures Closed(r) == r.(assignment := None, draft := None, versions := SetAside(r))
    ensures r.baseline.Some? && r.baseline.value in r.versions && r.baseline.value in Closed(r).versions
    ensures FromBaseline(Closed(r)) == FromBaseline(r)
  {
    OpenRows(r);
    hide RowsOk;
  }

  lemma RevokeLeaves(r: Rows, m: Move)
    requires RowsOk(r) && m.RevokeMove? && Enabled(r, m)
    ensures r.current == Some(m.version) && r.current.value in r.versions && r.baseline.Some?
    ensures r.baseline.value in r.versions && (r.draft.Some? ==> r.draft.value in r.versions)
    ensures After(r, m) == AfterRevoke(r, m.annotator, m.action, m.block, m.draft)
  {
    hide RowsOk, Revoke, Closed, FromBaseline, CloneClean, SetAside;
    OpenRows(r);
    RevokeIs(r, m.version, m.annotator, m.action, m.block, m.release, m.draft);
    ClosedIs(r);
    CurrentStays(r);
    var bare := Withdrawn(Closed(r), m.version, m.action);
    CloneIs(bare, m.draft);
    SameBaseline(Closed(r), bare);
  }

  lemma CurrentStays(r: Rows)
    requires RowsOk(r) && r.current.Some?
    ensures r.current.value in r.versions && r.current.value in SetAside(r)
    ensures SetAside(r)[r.current.value] == r.versions[r.current.value]
    ensures r.versions[r.current.value].lifecycle.Published?
  {
    OpenRows(r);
  }

  lemma SameBaseline(r: Rows, r': Rows)
    requires r.baseline.Some? && r.baseline.value in r.versions && r'.baseline == r.baseline
    requires r.baseline.value in r'.versions && r'.versions[r.baseline.value] == r.versions[r.baseline.value]
    ensures FromBaseline(r') == FromBaseline(r)
  {
  }

  lemma ReleaseLeaves(r: Rows, draft: VersionId)
    requires RowsOk(r) && draft !in r.versions
    ensures r.baseline.Some? && r.baseline.value in r.versions && (r.draft.Some? ==> r.draft.value in r.versions)
    ensures Reset(r, draft) == Good(AfterRelease(r, draft))
  {
    OpenRows(r);
    ReleasedIsClosed(r);
    ResetKeepsRows(r, draft);
    ClosedIs(r);
    if r.current.None? { CloneIs(Closed(r), draft); }
    hide RowsOk, Released, CloneClean, FromBaseline, Closed, SetAside;
  }

  /** The clean draft is as the revoke left it, nobody has the task or has claimed it since, and the version that was
      revoked still is. */
  ghost predicate Undoable(r: Rows, source: ActionId, at: nat) {
    && source in r.items && r.assignment.None? && (r.claimedAt.Some? ==> r.claimedAt.value <= at)
    && var item := r.items[source];
      && r.draft == Some(item.after) && item.after in r.versions && item.before in r.versions
      && r.versions[item.after].revision == 0 && !r.versions[item.after].humanModified
      && r.versions[item.before].revokedBy == Some(source)
  }

  lemma RestoreLeaves(r: Rows, source: ActionId, at: nat)
    requires RowsOk(r)
    ensures Restorable(r, source, at) <==> Undoable(r, source, at)
    ensures Restorable(r, source, at) ==>
              source in r.items && r.items[source].before in r.versions && r.items[source].after in r.versions
              && PutBack(r, source) == AfterRestore(r, source)
  {
    OpenRows(r);
    if source in r.items {
      assert ItemOk(r, source);
      assert VersionOk(r, r.items[source].before) && VersionOk(r, r.items[source].after);
      if Restorable(r, source, at) { PutBackIs(r, source); }
    }
    hide VersionsOk, ItemsOk, BlocksOk, PutBack;
  }

  /* ---------- revoking ---------- */

  /** The submission named is the task's current one and the annotator's, and open work is absent or may be dropped. */
  predicate Revocable(db: Db, item: RevokeItem, annotator: UserId, release: bool) {
    && item.task in db.tasks
    && var r := db.tasks[item.task];
      && r.current == Some(item.expected) && item.expected in r.versions
      && r.versions[item.expected].submitter == Some(annotator) && (r.draft.None? || release)
  }

  /** The first item of a batch that cannot be revoked, and the error for it. */
  ghost predicate FirstObstacle(db: Db, items: seq<RevokeItem>, annotator: UserId, release: bool, i: nat, e: Refusal) {
    && i < |items| && !Revocable(db, items[i], annotator, release)
    && (forall j :: 0 <= j < i ==> Revocable(db, items[j], annotator, release))
    && e == if items[i].task in db.tasks then Conflict else NotFound
  }

  lemma RevokeOneDecides(db: Db, item: RevokeItem, annotator: UserId, action: ActionId, block: bool, release: bool)
    requires Inv(db)
    ensures var done := RevokeOne(db, item, annotator, action, block, release);
            && (done.Good? <==> Revocable(db, item, annotator, release))
            && (done.Bad? ==> done.error == if item.task in db.tasks then Conflict else NotFound)
  {
    hide Inv, RowsOk, Revoke, TaskFits;
    if item.task in db.tasks {
      var r := db.tasks[item.task];
      RowsFit(db, item.task);
      FreshId(db, item.task, db.nextId);
      RevokeSucceeds(r, item.expected, annotator, action, block, release, db.nextId);
      if Revoke(r, item.expected, annotator, action, block, release, db.nextId).Bad? {
        RevokeErrors(r, item.expected, annotator, action, block, release, db.nextId);
      }
    }
  }

  lemma RevokeErrors(r: Rows, expected: VersionId, annotator: UserId, action: ActionId, block: bool, release: bool,
                     draft: VersionId)
    requires RowsOk(r) && Revoke(r, expected, annotator, action, block, release, draft).Bad?
    ensures Revoke(r, expected, annotator, action, block, release, draft).error == Conflict
  {
    ReleasedIsClosed(r);
    OpenRows(r);
    hide RowsOk, Released;
  }

  lemma {:induction false} RevokeAllDecides(db: Db, items: seq<RevokeItem>, annotator: UserId, action: ActionId,
                                            block: bool, release: bool)
    requires Inv(db) && action < db.nextId && TasksDiffer(items)
    requires forall i :: 0 <= i < |items| && items[i].task in db.tasks ==> action !in db.tasks[items[i].task].items
    ensures var done := RevokeAll(db, items, annotator, action, block, release);
            && (done.Good? <==> forall i :: 0 <= i < |items| ==> Revocable(db, items[i], annotator, release))
            && (done.Bad? ==> exists i :: FirstObstacle(db, items, annotator, release, i, done.error))
    decreases |items|
  {
    hide Inv, RevokeOne, MovedBy;
    if items != [] {
      var item, rest := items[0], items[1..];
      var first := RevokeOne(db, item, annotator, action, block, release);
      RevokeOneDecides(db, item, annotator, action, block, release);
      if first.Bad? {
        assert FirstObstacle(db, items, annotator, release, 0, first.error);
      } else {
        RevokeOneStep(db, item, annotator, action, block, release);
        assert forall i :: 0 <= i < |rest| ==> rest[i] == items[i + 1] && rest[i].task != item.task;
        assert forall i :: 0 <= i < |rest| ==>
                 (Revocable(first.value, rest[i], annotator, release) <==> Revocable(db, items[i + 1], annotator, release));
        RevokeAllDecides(first.value, rest, annotator, action, block, release);
        var done := RevokeAll(first.value, rest, annotator, action, block, release);
        if done.Bad? {
          var i :| FirstObstacle(first.value, rest, annotator, release, i, done.error);
          ObstacleLater(db, first.value, items, annotator, release, i, done.error);
        } else {
          forall i | 0 <= i < |items| ensures Revocable(db, items[i], annotator, release) {
            if i > 0 { assert Revocable(first.value, rest[i - 1], annotator, release); }
          }
        }
      }
    }
  }

  lemma ObstacleLater(db: Db, db1: Db, items: seq<RevokeItem>, annotator: UserId, release: bool, i: nat, e: Refusal)
    requires items != [] && Revocable(db, items[0], annotator, release) && db1.tasks.Keys == db.tasks.Keys
    requires forall j :: 0 <= j < |items| - 1 ==>
               (Revocable(db1, items[1..][j], annotator, release) <==> Revocable(db, items[j + 1], annotator, release))
    requires FirstObstacle(db1, items[1..], annotator, release, i, e)
    ensures FirstObstacle(db, items, annotator, release, i + 1, e)
  {
    forall j | 0 <= j < i + 1 ensures Revocable(db, items[j], annotator, release) {
      if j > 0 { assert Revocable(db1, items[1..][j - 1], annotator, release); }
    }
    hide Revocable;
  }

  /** A proper revoke under a new number is refused for an unknown annotator, and as a whole for the first task that is
      missing, whose current submission is not the one named or not the annotator's, or that has open work which may not
      be dropped. Otherwise every listed task loses its submission, each with a draft of its own, and no other task
      changes. */
  lemma RevokeOutcome(db: Db, c: Command)
    requires Inv(db) && c.DoRevoke? && Proper(c) && NewNumber(db, c.admin)
    ensures var out := Step(db, c);
            if c.annotator !in db.auth.active then out == (db, Refuse(NotFound))
            else if exists i :: 0 <= i < |c.items| && !Revocable(db, c.items[i], c.annotator, c.release) then
              out.0 == db && out.1.Err? && out.1.error.Refused?
              && exists i :: FirstObstacle(db, c.items, c.annotator, c.release, i, out.1.error.refusal)
            else
              && Logged(db, c, out) && out.0.auth == db.auth
              && (forall i :: 0 <= i < |c.items| ==> RevokedTo(db, out.0, c, i))
              && (forall t <- db.tasks :: (forall i :: 0 <= i < |c.items| ==> c.items[i].task != t) ==>
                    out.0.tasks[t] == db.tasks[t])
  {
    hide Inv, Step, Proper, Logged, RevokedTo, Revocable, NewNumber;
    RevokeUnfolds(db, c);
    if c.annotator in db.auth.active && Step(db, c).1.Ok? {
      RevokedRows(db, c);
    }
  }

  /** The i-th task of the batch, with the i-th identifier after the action's as its draft. */
  ghost predicate RevokedTo(db: Db, db': Db, c: Command, i: nat)
    requires c.DoRevoke? && i < |c.items|
  {
    && var t := c.items[i].task;
      && t in db.tasks && t in db'.tasks
      && var r := db.tasks[t];
        && r.current == Some(c.items[i].expected) && r.current.value in r.versions && r.baseline.Some?
        && r.baseline.value in r.versions && (r.draft.Some? ==> r.draft.value in r.versions)
        && db'.tasks[t] == AfterRevoke(r, c.annotator, db.nextId, c.block, db.nextId + 1 + i)
  }

  lemma RevokeIsStep(db: Db, c: Command)
    requires c.DoRevoke?
    ensures Step(db, c) == RevokeTasks(db, c.admin, c.annotator, c.items, c.reason, c.block, c.release)
  {
    hide RevokeTasks, Claim, Save, Complete, Abandon, Reopen, OperatorRelease, Preprocess, SessionStep, RestoreTasks;
    hide Release, Deactivate;
  }

  lemma OpensLogged(db: Db, c: Command)
    requires Inv(db) && Administrative(c) && Step(db, c).1.Ok?
    ensures var out := Step(db, c); out.0.tasks.Keys == db.tasks.Keys ==> Logged(db, c, out)
  {
    AdminStep(db, c);
    hide Inv, Step;
  }

  lemma RevokeUnfolds(db: Db, c: Command)
    requires Inv(db) && c.DoRevoke? && Proper(c) && NewNumber(db, c.admin)
    ensures var out := Step(db, c);
            if c.annotator !in db.auth.active then out == (db, Refuse(NotFound))
            else if forall i :: 0 <= i < |c.items| ==> Revocable(db, c.items[i], c.annotator, c.release) then out.1.Ok?
            else out.0 == db && out.1.Err? && out.1.error.Refused?
                 && exists i :: FirstObstacle(db, c.items, c.annotator, c.release, i, out.1.error.refusal)
  {
    hide Inv, Revocable, RevokeAll, BeginAction, ReasonOk, TaskFits;
    ProperBegins(db, c);
    RevokeIsStep(db, c);
    hide Proper, Step;
    if c.annotator in db.auth.active {
      OpenActionKeepsInv(db, c.admin, PayloadOf(c));
      NewActionIsNew(db, c.admin, PayloadOf(c));
      TasksOfDiffer(c.items);
      var db1 := OpenAction(db, c.admin, PayloadOf(c));
      RevokeAllDecides(db1, c.items, c.annotator, db.nextId, c.block, c.release);
      forall i | 0 <= i < |c.items|
        ensures Revocable(db1, c.items[i], c.annotator, c.release) <==> Revocable(db, c.items[i], c.annotator, c.release)
      {
        SameTaskSameAnswer(db, db1, c.items[i], c.annotator, c.release);
      }
      var done := RevokeAll(db1, c.items, c.annotator, db.nextId, c.block, c.release);
      if done.Bad? {
        var i :| FirstObstacle(db1, c.items, c.annotator, c.release, i, done.error);
        assert FirstObstacle(db, c.items, c.annotator, c.release, i, done.error);
      }
    }
  }

  lemma SameTaskSameAnswer(db: Db, db1: Db, item: RevokeItem, annotator: UserId, release: bool)
    requires db1.tasks == db.tasks
    ensures Revocable(db1, item, annotator, release) <==> Revocable(db, item, annotator, release)
  {
  }

  lemma RevokedRows(db: Db, c: Command)
    requires Inv(db) && c.DoRevoke? && Step(db, c).1.Ok?
    ensures var out := Step(db, c);
            && Logged(db, c, out) && out.0.auth == db.auth
            && (forall i :: 0 <= i < |c.items| ==> RevokedTo(db, out.0, c, i))
            && (forall t <- db.tasks :: (forall i :: 0 <= i < |c.items| ==> c.items[i].task != t) ==>
                  out.0.tasks[t] == db.tasks[t])
  {
    hide Inv, Step, Logged, RevokedTo, RowsOk, MovedBy, TaskFits, RevokeTasks, NoRepeats;
    RevokeStep(db, c);
    RevokeIsStep(db, c);
    OpensLogged(db, c);
    var db' := Step(db, c).0;
    var db1 := OpenAction(db, c.admin, PayloadOf(c));
    forall i | 0 <= i < |c.items| ensures RevokedTo(db, db', c, i) {
      var m := RevokeMoveOf(c.items[i], c.annotator, db.nextId, c.block, c.release, db1.nextId + i);
      assert MovedBy(db1, db', c.items[i].task, m);
      SameTasksMoved(db, db1, db', c.items[i].task, m);
      MovedIsThere(db, db', c.items[i].task, m);
      RowsFit(db, c.items[i].task);
      RevokedToBy(db, db', c, i, m);
    }
  }

  lemma SameTasksMoved(db: Db, db1: Db, db': Db, t: TaskId, m: Move)
    requires db1.tasks == db.tasks && MovedBy(db1, db', t, m)
    ensures MovedBy(db, db', t, m)
  {
    hide Enabled, After;
  }

  lemma RevokedToBy(db: Db, db': Db, c: Command, i: nat, m: Move)
    requires c.DoRevoke? && i < |c.items| && c.items[i].task in db.tasks && RowsOk(db.tasks[c.items[i].task])
    requires m == RevokeMoveOf(c.items[i], c.annotator, db.nextId, c.block, c.release, db.nextId + 1 + i)
    requires MovedBy(db, db', c.items[i].task, m)
    ensures RevokedTo(db, db', c, i)
  {
    RevokeLeaves(db.tasks[c.items[i].task], m);
    hide RowsOk, Enabled, After, AfterRevoke;
  }

  /* ---------- restoring ---------- */

  /** The task can be put back to before the revoke `source`, and its annotator may hold it. */
  ghost predicate Returnable(db: Db, t: TaskId, source: ActionId, at: nat) {
    && t in db.tasks && Undoable(db.tasks[t], source, at)
    && db.tasks[t].items[source].annotator in db.auth.active && db.auth.active[db.tasks[t].items[source].annotator]
  }

  /** A proper restore under a new number goes through exactly if the source is a revoke on record, and each listed task
      was revoked by it, is untouched and unclaimed since, and was an active account's; it is a conflict otherwise. It puts
      every listed task back and changes no other. */
  lemma RestoreOutcome(db: Db, c: Command)
    requires Inv(db) && c.DoRestore? && Proper(c) && NewNumber(db, c.admin)
    ensures var out := Step(db, c);
            if c.source in db.actions && db.actions[c.source].payload.RevokePayload?
               && forall t <- c.tasks :: Returnable(db, t, c.source, db.actions[c.source].at)
            then
              && Logged(db, c, out) && out.0.auth == db.auth
              && (forall t <- c.tasks :: RestoredTo(db, out.0, c.source, t))
              && (forall t <- db.tasks :: t !in c.tasks ==> out.0.tasks[t] == db.tasks[t])
            else out == (db, Refuse(Conflict))
  {
    hide Inv, Step, Proper, Logged, RestoredTo, Returnable, NewNumber;
    RestoreDecides(db, c);
    if Step(db, c).1.Ok? { RestoredRows(db, c); }
  }

  ghost predicate RestoredTo(db: Db, db': Db, source: ActionId, t: TaskId) {
    && t in db.tasks && t in db'.tasks && source in db.tasks[t].items
    && var r := db.tasks[t];
      && r.items[source].before in r.versions && r.items[source].after in r.versions
      && db'.tasks[t] == AfterRestore(r, source)
  }

  lemma RestoredRows(db: Db, c: Command)
    requires Inv(db) && c.DoRestore? && Step(db, c).1.Ok?
    ensures var out := Step(db, c);
            && Logged(db, c, out) && out.0.auth == db.auth
            && (forall t <- c.tasks :: RestoredTo(db, out.0, c.source, t))
            && (forall t <- db.tasks :: t !in c.tasks ==> out.0.tasks[t] == db.tasks[t])
  {
    hide Inv, Step, Logged, RestoredTo, RowsOk, MovedBy, TaskFits, RestoreTasks;
    RestoreStep(db, c);
    RestoreIsStep(db, c);
    OpensLogged(db, c);
    var db', at := Step(db, c).0, db.actions[c.source].at;
    var db1 := OpenAction(db, c.admin, PayloadOf(c));
    forall t | t in c.tasks ensures RestoredTo(db, db', c.source, t) {
      var i :| 0 <= i < |c.tasks| && c.tasks[i] == t;
      assert MovedBy(db1, db', c.tasks[i], RestoreMove(c.source, at));
      SameTasksMoved(db, db1, db', t, RestoreMove(c.source, at));
      MovedIsThere(db, db', t, RestoreMove(c.source, at));
      RowsFit(db, t);
      RestoredToBy(db, db', c.source, at, t);
    }
  }

  lemma MovedIsThere(db: Db, db': Db, t: TaskId, m: Move)
    requires MovedBy(db, db', t, m)
    ensures t in db.tasks && t in db'.tasks
  {
  }

  lemma RestoredToBy(db: Db, db': Db, source: ActionId, at: nat, t: TaskId)
    requires MovedBy(db, db', t, RestoreMove(source, at)) && RowsOk(db.tasks[t])
    ensures RestoredTo(db, db', source, t)
  {
    hide RowsOk, AfterRestore, Restorable, PutBack;
    RestoreLeaves(db.tasks[t], source, at);
  }

  lemma RestoreIsStep(db: Db, c: Command)
    requires c.DoRestore?
    ensures Step(db, c) == RestoreTasks(db, c.admin, c.source, c.tasks, c.reason)
  {
    hide RestoreTasks, Claim, Save, Complete, Abandon, Reopen, OperatorRelease, Preprocess, SessionStep, RevokeTasks;
    hide Release, Deactivate;
  }

  lemma RestoreDecides(db: Db, c: Command)
    requires Inv(db) && c.DoRestore? && Proper(c) && NewNumber(db, c.admin)
    ensures Step(db, c).1.Ok? <==>
            && c.source in db.actions && db.actions[c.source].payload.RevokePayload?
            && forall t <- c.tasks :: Returnable(db, t, c.source, db.actions[c.source].at)
    ensures !Step(db, c).1.Ok? ==> Step(db, c) == (db, Refuse(Conflict))
  {
    hide Inv, RestoreAll, BeginAction, ReasonOk, RowsOk, Undoable, Restorable, OpenAction;
    ProperBegins(db, c);
    RestoreIsStep(db, c);
    hide Proper, Step;
    OpenActionSameTasks(db, c.admin, PayloadOf(c));
    if c.source in db.actions {
      var at := db.actions[c.source].at;
      R.RestoreAllGood(OpenAction(db, c.admin, PayloadOf(c)), c.tasks, c.source, at);
      forall t | t in c.tasks && t in db.tasks
        ensures Restorable(db.tasks[t], c.source, at) <==> Undoable(db.tasks[t], c.source, at)
      {
        RowsFit(db, t);
        RestoreLeaves(db.tasks[t], c.source, at);
      }
      UndoableFacts(db, c.tasks, c.source, at);
      if forall t <- c.tasks :: RevokedIn(db, t, c.source) {
        RestoreAllErrors(OpenAction(db, c.admin, PayloadOf(c)), c.tasks, c.source, at);
      }
    }
  }

  lemma UndoableFacts(db: Db, tasks: seq<TaskId>, source: ActionId, at: nat)
    ensures forall t <- tasks :: t in db.tasks && Undoable(db.tasks[t], source, at) ==>
              source in db.tasks[t].items && db.tasks[t].assignment.None?
  {
  }

  lemma {:induction false} RestoreAllErrors(db: Db, tasks: seq<TaskId>, source: ActionId, at: nat)
    requires forall t <- tasks :: t in db.tasks
    ensures RestoreAll(db, tasks, source, at).Bad? ==> RestoreAll(db, tasks, source, at).error == Conflict
    decreases |tasks|
  {
    hide Restorable, PutBack;
    if tasks != [] && tasks[0] in db.tasks && Restorable(db.tasks[tasks[0]], source, at) {
      var db1 := SetRows(db, tasks[0], After(db.tasks[tasks[0]], RestoreMove(source, at)));
      assert forall t <- tasks[1..] :: t in tasks;
      RestoreAllErrors(db1, tasks[1..], source, at);
    }
    assert tasks != [] ==> tasks[0] in tasks;
  }

  /* ---------- releasing ---------- */

  /** A proper release under a new number goes through exactly for a task somebody holds; it takes the assignment off that
      task and changes no other. */
  lemma ReleaseOutcome(db: Db, c: Command)
    requires Inv(db) && c.DoRelease? && Proper(c) && NewNumber(db, c.admin)
    ensures var t, out := c.task, Step(db, c);
            if t in db.tasks && db.tasks[t].assignment.Some? then
              && db.tasks[t].baseline.Some? && db.tasks[t].baseline.value in db.tasks[t].versions
              && (db.tasks[t].draft.Some? ==> db.tasks[t].draft.value in db.tasks[t].versions)
              && Logged(db, c, out) && out.0.auth == db.auth
              && out.0.tasks == db.tasks[t := AfterRelease(db.tasks[t], db.nextId + 1)]
            else out == (db, Refuse(Conflict))
  {
    hide Inv, Step, Proper, Logged, RowsOk, AfterRelease, Reset, TaskFits, Release, NewNumber;
    ReleaseDecides(db, c);
    ReleaseIsStep(db, c);
    if Step(db, c).1.Ok? {
      ReleaseStep(db, c);
      OpensLogged(db, c);
      RowsFit(db, c.task);
      FreshId(db, c.task, db.nextId + 1);
      ReleaseLeaves(db.tasks[c.task], db.nextId + 1);
    }
  }

  lemma ReleaseIsStep(db: Db, c: Command)
    requires c.DoRelease?
    ensures Step(db, c) == Release(db, c.admin, c.task, c.reason)
  {
    hide Release, Claim, Save, Complete, Abandon, Reopen, OperatorRelease, Preprocess, SessionStep, RevokeTasks;
    hide RestoreTasks, Deactivate;
  }

  lemma ReleaseDecides(db: Db, c: Command)
    requires Inv(db) && c.DoRelease? && Proper(c) && NewNumber(db, c.admin)
    ensures Step(db, c).1.Ok? <==> c.task in db.tasks && db.tasks[c.task].assignment.Some?
    ensures !Step(db, c).1.Ok? ==> Step(db, c) == (db, Refuse(Conflict))
  {
    hide Inv, BeginAction, ReasonOk, TaskFits, RowsOk, ResetOne, OpenAction;
    ProperBegins(db, c);
    ReleaseIsStep(db, c);
    hide Proper, Step;
    OpenActionSameTasks(db, c.admin, PayloadOf(c));
    OpenActionKeepsInv(db, c.admin, PayloadOf(c));
    if c.task in db.tasks && db.tasks[c.task].assignment.Some? {
      ResetOneStep(OpenAction(db, c.admin, PayloadOf(c)), c.task);
      HolderIsKnown(db, c.task);
    }
  }

  lemma HolderIsKnown(db: Db, t: TaskId)
    requires Inv(db) && t in db.tasks && db.tasks[t].assignment.Some?
    ensures db.tasks[t].assignment.value.user in db.auth.active
  {
    assert TaskFits(db.tasks[t], db.nextId, db.auth.active);
    hide RowsOk;
  }

  /* ---------- deactivating ---------- */

  /** What the partial functions above need of the rows. */
  predicate Shaped(r: Rows) {
    && r.baseline.Some? && r.baseline.value in r.versions && (r.draft.Some? ==> r.draft.value in r.versions)
    && (r.current.Some? ==> r.current.value in r.versions)
  }

  lemma RowsAreShaped(r: Rows)
    requires RowsOk(r)
    ensures Shaped(r)
  {
  }

  /** The task without what the annotator has to do with it: an assignment is released, a reservation dropped, a
      submission revoked with the annotator shut out. For anybody else's task nothing changes. */
  function AfterDeparture(r: Rows, u: UserId, action: ActionId, draft: VersionId): Rows
    requires Shaped(r)
  {
    var r1 := if Holds(r, u) then AfterRelease(r, draft) else if r.reserved == Some(u) then r.(reserved := None) else r;
    if SubmittedBy(r, u) then AfterRevoke(r1, u, action, true, draft) else r1
  }

  /** For some new identifier of a draft. */
  ghost predicate Departed(r: Rows, u: UserId, action: ActionId, r': Rows) {
    Shaped(r) && exists d :: d > action && r' == AfterDeparture(r, u, action, d)
  }

  lemma RevokeOneRows(db: Db, t: TaskId, u: UserId, action: ActionId)
    requires Inv(db) && t in db.tasks && SubmittedBy(db.tasks[t], u) && u !in db.held
    requires action < db.nextId && action !in db.tasks[t].items
    ensures db.tasks[t].current.Some? && Shaped(db.tasks[t])
    ensures RevokeOne(db, RevokeItem(t, db.tasks[t].current.value), u, action, true, false).Good?
    ensures t in RevokeOne(db, RevokeItem(t, db.tasks[t].current.value), u, action, true, false).value.tasks
    ensures RevokeOne(db, RevokeItem(t, db.tasks[t].current.value), u, action, true, false).value.tasks[t] ==
            AfterRevoke(db.tasks[t], u, action, true, db.nextId)
  {
    hide Inv, RowsOk, Revoke, AfterRevoke, TaskFits;
    var r := db.tasks[t];
    RevokeOneSucceeds(db, t, u, action);
    RowsFit(db, t);
    RowsAreShaped(r);
    var m := RevokeMove(r.current.value, u, action, true, false, db.nextId);
    FreshId(db, t, db.nextId);
    RevokeLeaves(r, m);
  }

  lemma {:induction false} RevokeSubmissionsRows(db: Db, tasks: seq<TaskId>, u: UserId, action: ActionId)
    requires Inv(db) && NoRepeats(tasks) && u !in db.held && action < db.nextId && CanRevoke(db, tasks, u, action)
    ensures RevokeSubmissions(db, tasks, u, action).Good?
    ensures var db' := RevokeSubmissions(db, tasks, u, action).value;
            && db'.tasks.Keys == db.tasks.Keys
            && (forall t <- tasks :: t in db'.tasks && Recalled(db.tasks[t], u, action, db'.tasks[t]))
            && (forall t <- db.tasks :: t !in tasks ==> db'.tasks[t] == db.tasks[t])
    decreases |tasks|
  {
    hide Inv, RevokeOne, Quiet, Freed, Recalled, AfterRevoke, Shaped;
    RevokeSubmissionsIs(db, tasks, u, action);
    if tasks != [] {
      var t, rest := tasks[0], tasks[1..];
      assert t in tasks;
      RevokeOneSucceeds(db, t, u, action);
      RevokeOneRows(db, t, u, action);
      var db1 := RevokeOne(db, RevokeItem(t, db.tasks[t].current.value), u, action, true, false).value;
      NowRecalled(db.tasks[t], u, action, db.nextId);
      RestCanBeRevoked(db, db1, tasks, u, action);
      RevokeSubmissionsRows(db1, rest, u, action);
      assert forall x <- tasks :: x == t || x in rest;
    }
  }

  lemma RestCanBeRevoked(db: Db, db1: Db, tasks: seq<TaskId>, u: UserId, action: ActionId)
    requires tasks != [] && NoRepeats(tasks) && CanRevoke(db, tasks, u, action)
    requires tasks[0] in db1.tasks && db1.tasks == db.tasks[tasks[0] := db1.tasks[tasks[0]]]
    ensures CanRevoke(db1, tasks[1..], u, action) && NoRepeats(tasks[1..]) && tasks[0] !in tasks[1..]
  {
    var rest := tasks[1..];
    assert forall i :: 0 <= i < |rest| ==> rest[i] == tasks[i + 1] && rest[i] != tasks[0];
    hide SubmittedBy;
  }

  ghost predicate Recalled(r: Rows, u: UserId, action: ActionId, r': Rows) {
    Shaped(r) && r.current.Some? && exists d :: d > action && r' == AfterRevoke(r, u, action, true, d)
  }

  lemma NowRecalled(r: Rows, u: UserId, action: ActionId, d: VersionId)
    requires Shaped(r) && r.current.Some? && d > action
    ensures Recalled(r, u, action, AfterRevoke(r, u, action, true, d))
  {
    hide AfterRevoke;
  }

  /** The rows before the submissions are revoked. */
  ghost predicate Relinquished(r: Rows, u: UserId, action: ActionId, r': Rows) {
    && Shaped(r)
    && if Holds(r, u) then exists d :: d > action && r' == AfterRelease(r, d)
       else r' == if r.reserved == Some(u) then r.(reserved := None) else r
  }

  lemma ReleaseRows(db: Db, u: UserId, action: ActionId)
    requires Inv(db) && action < db.nextId && ReleaseOf(db, u).Good?
    ensures var db' := UnreserveAll(ReleaseOf(db, u).value, u);
            db'.tasks.Keys == db.tasks.Keys && forall t <- db.tasks :: Relinquished(db.tasks[t], u, action, db'.tasks[t])
  {
    hide Inv, TaskFits, RowsOk, Reset, AfterRelease;
    forall t | t in db.tasks
      ensures t in ReleaseOf(db, u).value.tasks
      ensures Relinquished(db.tasks[t], u, action, Unreserved(ReleaseOf(db, u).value.tasks[t], u))
    {
      RowsFit(db, t);
      RowsAreShaped(db.tasks[t]);
      HeldIff(db, t, u);
      if HasAssignment(db, u) {
        var held := db.held[u];
        HeldByHolder(db, u);
        ResetOneStep(db, held);
        if t == held {
          FreshId(db, t, db.nextId);
          ReleaseLeaves(db.tasks[t], db.nextId);
          ReleasedRows(db.tasks[t], u, action, db.nextId);
        }
      }
    }
    ReleaseOfIs(db, u);
    hide Relinquished, ReleaseOf;
  }

  lemma ReleasedRows(r: Rows, u: UserId, action: ActionId, d: VersionId)
    requires Shaped(r) && Holds(r, u) && r.reserved.None? && d > action
    ensures Relinquished(r, u, action, Unreserved(AfterRelease(r, d), u))
  {
    assert Unreserved(AfterRelease(r, d), u) == AfterRelease(r, d);
    hide AfterRelease;
  }

  lemma HeldIff(db: Db, t: TaskId, u: UserId)
    requires Inv(db) && t in db.tasks
    ensures Holds(db.tasks[t], u) <==> HasAssignment(db, u) && db.held[u] == t
  {
    hide TasksOk, LogsOk, S.AuthOk;
  }

  lemma RelinquishedThenRevoked(r: Rows, u: UserId, action: ActionId, r1: Rows, r': Rows)
    requires RowsOk(r) && Relinquished(r, u, action, r1)
    requires if SubmittedBy(r, u) then Recalled(r1, u, action, r') else r' == r1
    ensures Departed(r, u, action, r')
  {
    RowsAreShaped(r);
    OpenRows(r);
    SubmitterWorksOnRevision(r, u);
    hide RowsOk, AfterRevoke, FromBaseline;
    if Holds(r, u) {
      var d :| d > action && r1 == AfterRelease(r, d);
      if SubmittedBy(r, u) {
        var e :| e > action && r' == AfterRevoke(r1, u, action, true, e);
        assert r1 == AfterRelease(r, e);
        assert r' == AfterDeparture(r, u, action, e);
      } else {
        assert r' == AfterDeparture(r, u, action, d);
      }
    } else if SubmittedBy(r, u) {
      var e :| e > action && r' == AfterRevoke(r1, u, action, true, e);
      assert r' == AfterDeparture(r, u, action, e);
    } else {
      assert r' == AfterDeparture(r, u, action, action + 1);
    }
  }

  lemma SubmitterWorksOnRevision(r: Rows, u: UserId)
    requires RowsOk(r)
    ensures SubmittedBy(r, u) ==> r.current.Some?
  {
  }

  /** A proper deactivation under a new number is refused for an unknown account and a conflict for one that is not active.
      Otherwise it goes through: the account is closed and its session ended, every task is left without what the
      annotator had to do with it, and other people's tasks, accounts and sessions are as they were. */
  lemma DeactivateOutcome(db: Db, c: Command)
    requires Inv(db) && c.DoDeactivate? && Proper(c) && NewNumber(db, c.admin)
    ensures var u, out := c.user, Step(db, c);
            if u !in db.auth.active then out == (db, Refuse(NotFound))
            else if !db.auth.active[u] then out == (db, Refuse(Conflict))
            else
              && Logged(db, c, out)
              && out.0.auth == db.auth.(active := db.auth.active[u := false], sessions := db.auth.sessions - {u})
              && forall t <- db.tasks :: Departed(db.tasks[t], u, db.nextId, out.0.tasks[t])
  {
    hide Inv, Step, Proper, Logged, Departed, Deactivate, NewNumber, BeginAction;
    ProperBegins(db, c);
    DeactivateIsStep(db, c);
    var u := c.user;
    if ActiveUser(db, u) {
      DeactivationGoesThrough(db, c.admin, u, c.reason);
      DeactivateStep(db, c);
      DeactivateRows(db, c);
      OpensLogged(db, c);
    } else {
      DeactivateRefuses(db, c);
    }
  }

  lemma DeactivateIsStep(db: Db, c: Command)
    requires c.DoDeactivate?
    ensures Step(db, c) == Deactivate(db, c.admin, c.user, c.reason)
  {
    hide Deactivate, Claim, Save, Complete, Abandon, Reopen, OperatorRelease, Preprocess, SessionStep, RevokeTasks;
    hide RestoreTasks, Release;
  }

  lemma DeactivateRefuses(db: Db, c: Command)
    requires Inv(db) && c.DoDeactivate? && !ActiveUser(db, c.user) && BeginAction(db, c.admin, PayloadOf(c)).None?
    ensures Deactivate(db, c.admin, c.user, c.reason) == (db, Refuse(if c.user in db.auth.active then Conflict else NotFound))
  {
    hide Inv, BeginAction, OpenAction, ReleaseOf, UnreserveAll, RevokeSubmissions;
  }

  lemma DeactivateRows(db: Db, c: Command)
    requires Inv(db) && c.DoDeactivate? && ActiveUser(db, c.user) && BeginAction(db, c.admin, PayloadOf(c)).None?
    ensures var out := Deactivate(db, c.admin, c.user, c.reason);
            out.0.tasks.Keys == db.tasks.Keys && forall t <- db.tasks :: Departed(db.tasks[t], c.user, db.nextId, out.0.tasks[t])
  {
    hide Inv, Quiet, ReleaseOf, RevokeSubmissions, UnreserveAll, BeginAction, Departed, Relinquished, Recalled, OpenAction;
    hide RowsOk, TaskFits, SubmittedBy;
    var u, payload := c.user, PayloadOf(c);
    var db1 := EndSession(OpenAction(db, c.admin, payload), u);
    OpenActionKeepsInv(db, c.admin, payload);
    OpenActionCounts(db, c.admin, payload);
    EndSessionKeepsInv(OpenAction(db, c.admin, payload), u);
    ClearedIs(db, c.admin, payload, u);
    var db2 := Cleared(db, c.admin, payload, u);
    ReleaseRows(db1, u, db.nextId);
    var tasks := Ascending(SubmittedTasks(db2, u));
    Submissions(db2, u);
    assert NoRepeats(tasks);
    RevokeSubmissionsRows(db2, tasks, u, db.nextId);
    var done := RevokeSubmissions(db2, tasks, u, db.nextId).value;
    forall t | t in db.tasks ensures t in done.tasks && Departed(db.tasks[t], u, db.nextId, done.tasks[t]) {
      RowsFit(db, t);
      RelinquishedThenRevoked(db.tasks[t], u, db.nextId, db2.tasks[t], done.tasks[t]);
    }
    DeactivatesTo(db, c, db2, done);
  }

  lemma OpenActionCounts(db: Db, admin: Admin, payload: Payload)
    ensures OpenAction(db, admin, payload).tasks == db.tasks && OpenAction(db, admin, payload).nextId == db.nextId + 1
  {
  }

  lemma Submissions(db: Db, u: UserId)
    ensures forall t :: t in Ascending(SubmittedTasks(db, u)) <==> t in db.tasks && SubmittedBy(db.tasks[t], u)
  {
  }

  lemma DeactivatesTo(db: Db, c: Command, db2: Db, done: Db)
    requires c.DoDeactivate? && ActiveUser(db, c.user) && BeginAction(db, c.admin, PayloadOf(c)).None?
    requires ReleaseOf(EndSession(OpenAction(db, c.admin, PayloadOf(c)), c.user), c.user).Good?
    requires db2 == Cleared(db, c.admin, PayloadOf(c), c.user)
    requires RevokeSubmissions(db2, Ascending(SubmittedTasks(db2, c.user)), c.user, db.nextId) == Good(done)
    ensures Deactivate(db, c.admin, c.user, c.reason).0.tasks == done.tasks
  {
    hide BeginAction, OpenAction, ReleaseOf, UnreserveAll, RevokeSubmissions, EndSession;
  }
}
