/** What an accepted request has done, and what takes it back. */
module StoreEffects {
  import opened Common
  import opened TaskRows
  import opened TaskInvariant
  import opened TaskHistory
  import opened Store
  import opened StoreInvariant
  import opened StoreAdmin
  import S = Sessions
  import G = Segments

  /* ---------- saving and submitting ---------- */

  /** The task an annotator works on, and the version. */
  predicate WorksOn(db: Db, u: UserId, t: TaskId, v: VersionId) {
    && t in db.tasks && Holds(db.tasks[t], u) && db.tasks[t].assignment.value.version == v
    && v in db.tasks[t].versions && db.tasks[t].draft == Some(v)
  }

  lemma WorkingVersion(db: Db, u: UserId)
    requires Inv(db) && HasAssignment(db, u)
    ensures WorksOn(db, u, db.held[u], db.tasks[db.held[u]].assignment.value.version)
  {
    HeldByHolder(db, u);
    RowsFit(db, db.held[u]);
    hide Inv, VersionsOk, BlocksOk, ItemsOk, TaskOk;
  }

  /** The named rows of one version are replaced and its revision goes up by one; nothing else about the task changes. */
  ghost predicate EditRecorded(r: Rows, r': Rows, v: VersionId, expected: int, dirty: seq<G.Dirty>) {
    && v in r.versions && v in r'.versions
    && r.versions[v].revision == expected && r'.versions[v].revision == expected + 1
    && G.Acceptable(r.versions[v].segments, dirty)
    && G.IsOverlay(r.versions[v].segments, dirty, r'.versions[v].segments)
    && r' == r.(versions := r'.versions) && r'.versions.Keys == r.versions.Keys
    && r'.versions[v] == r.versions[v].(revision := expected + 1, humanModified := true, segments := r'.versions[v].segments)
    && forall w <- r.versions :: w != v ==> r'.versions[w] == r.versions[w]
  }

  lemma SavedRows(r: Rows, v: VersionId, expected: int, dirty: seq<G.Dirty>)
    requires RowsOk(r) && v in r.versions && EditedVersion(r, v, expected, dirty).Good?
    ensures EditRecorded(r, PutVersion(r, v, Saved(EditedVersion(r, v, expected, dirty).value)), v, expected, dirty)
  {
    G.ApplyMeaning(r.versions[v].segments, dirty);
    EditKeepsRows(r, v, Saved(EditedVersion(r, v, expected, dirty).value));
    hide RowsOk, G.Apply, G.Acceptable, G.IsOverlay, PutVersion;
  }

  /** An accepted save was made by the holder of the task against the latest revision; it replaces exactly the named rows
      of the working version, counts the revision up by one, and leaves all other versions and tasks alone. */
  lemma AcceptedSave(db: Db, c: Command)
    requires Inv(db) && c.DoSave? && Step(db, c).1.Ok?
    ensures HasAssignment(db, c.fence.user)
    ensures var t := db.held[c.fence.user];
            var v := db.tasks[t].assignment.value.version;
            var db' := Step(db, c).0;
            && WorksOn(db, c.fence.user, t, v) && t in db'.tasks && db'.tasks == db.tasks[t := db'.tasks[t]]
            && EditRecorded(db.tasks[t], db'.tasks[t], v, c.expected, c.dirty)
            && Step(db, c).1.response == SavedRevision(c.expected + 1)
  {
    hide Inv, RowsOk, Step, EditRecorded, PutVersion, EditedVersion;
    SaveIsAnEdit(db, c);
    var t := db.held[c.fence.user];
    WorkingVersion(db, c.fence.user);
    RowsFit(db, t);
    SavedRows(db.tasks[t], db.tasks[t].assignment.value.version, c.expected, c.dirty);
  }

  lemma SaveIsAnEdit(db: Db, c: Command)
    requires Inv(db) && c.DoSave? && Step(db, c).1.Ok?
    ensures HasAssignment(db, c.fence.user)
    ensures var t := db.held[c.fence.user];
            var v := db.tasks[t].assignment.value.version;
            var edited := EditedVersion(db.tasks[t], v, c.expected, c.dirty);
            && edited.Good? && Step(db, c).0.tasks == db.tasks[t := PutVersion(db.tasks[t], v, Saved(edited.value))]
            && c.expected >= 0 && Step(db, c).1.response == SavedRevision(c.expected + 1)
  {
    hide Inv, Claim, Complete, Abandon, Reopen, OperatorRelease, Preprocess, SessionStep, RevokeTasks, RestoreTasks;
    hide Release, Deactivate, PutVersion, G.Apply;
  }

  /** The reasons kept are none for an annotation and the given ones for a skip, which must be at least one and known. */
  predicate ReasonsKept(target: Status, given: seq<string>, kept: seq<string>) {
    match target
    case Pending => false
    case Annotated => kept == []
    case Skipped => kept == given && given != [] && forall x <- given :: x == "noisy" || x == "not_egyptian" || x == "poor_quality"
  }

  /** Revising a submission that is credited by audio length keeps its credit. Any other annotation is credited with its
      trainable seconds, and any other skip with nothing. */
  ghost predicate CreditGiven(r: Rows, ver: Version, target: Status) {
    if r.current.Some? && r.current.value in r.versions && IsLegacy(r.versions[r.current.value].credit)
    then ver.credit == r.versions[r.current.value].credit
    else ver.credit == Some(Credit(TrainableSegments, if target.Annotated? then G.TrainableSeconds(ver.segments) else 0.0))
  }

  /** Every row that counts for training has a text that is not all spaces. */
  ghost predicate Transcribed(table: G.Table) {
    forall k <- table :: !table[k].exclude ==> exists c <- table[k].text :: c != ' '
  }

  /** The working version takes the edits of the request and becomes current under the annotator's name. */
  ghost predicate SubmissionRecorded(r: Rows, r': Rows, a: Assignment, expected: int, dirty: seq<G.Dirty>, target: Status,
                                     reasons: seq<string>)
  {
    && a.version in r.versions && r'.versions.Keys == r.versions.Keys
    && r' == r.(status := target, current := Some(a.version), draft := None, reserved := None, assignment := None,
                versions := r'.versions)
    && var ver, ver' := r.versions[a.version], r'.versions[a.version];
      && ver.revision == expected
      && ver' == ver.(lifecycle := Published, target := target, submitter := Some(a.user), revision := ver.revision + 1,
                      humanModified := true, skipReasons := ver'.skipReasons, credit := ver'.credit,
                      segments := ver'.segments)
      && ReasonsKept(target, reasons, ver'.skipReasons) && CreditGiven(r, ver', target)
      && G.Acceptable(ver.segments, dirty) && G.IsOverlay(ver.segments, dirty, ver'.segments)
      && G.TimelineOk(ver'.segments, r.duration)
      && (target.Annotated? ==> Transcribed(ver'.segments))
      && forall w <- r.versions :: w != a.version ==> r'.versions[w] == Retired(r, w)
  }

  /** The version current before is superseded; all others stay as they are. */
  function Retired(r: Rows, w: VersionId): Version
    requires w in r.versions
  {
    if r.current == Some(w) then r.versions[w].(lifecycle := Superseded) else r.versions[w]
  }

  /** An accepted submission becomes the task's current version under the annotator's name: with the edits of the request,
      a timeline without overlaps inside the audio, and every segment transcribed or excluded if it is an annotation. The
      version that was current before is superseded and otherwise as it was, and the annotator is free again. */
  lemma AcceptedSubmission(db: Db, c: Command)
    requires Inv(db) && c.DoComplete? && Step(db, c).1.Ok?
    ensures HasAssignment(db, c.fence.user)
    ensures var u, t, db' := c.fence.user, db.held[c.fence.user], Step(db, c).0;
            && WorksOn(db, u, t, db.tasks[t].assignment.value.version) && u !in db'.held
            && t in db'.tasks && db'.tasks == db.tasks[t := db'.tasks[t]]
            && SubmissionRecorded(db.tasks[t], db'.tasks[t], db.tasks[t].assignment.value, c.expected, c.dirty, c.target,
                                  c.reasons)
  {
    hide Inv, RowsOk, Step, Enabled, After, SubmissionRecorded;
    SubmissionIsAMove(db, c);
    var t := db.held[c.fence.user];
    var m := SubmitMove(c.expected, c.dirty, c.target, c.reasons);
    WorkingVersion(db, c.fence.user);
    RowsFit(db, t);
    SubmittedRows(db.tasks[t], m);
    RecordedIsFree(db.tasks[t], After(db.tasks[t], m), db.tasks[t].assignment.value, m);
  }

  lemma RecordedIsFree(r: Rows, r': Rows, a: Assignment, m: Move)
    requires m.SubmitMove? && SubmissionRecorded(r, r', a, m.expected, m.dirty, m.target, m.reasons)
    ensures r'.assignment.None?
  {
  }

  lemma SubmissionIsAMove(db: Db, c: Command)
    requires Inv(db) && c.DoComplete? && Step(db, c).1.Ok?
    ensures HasAssignment(db, c.fence.user)
    ensures var t := db.held[c.fence.user];
            var m := SubmitMove(c.expected, c.dirty, c.target, c.reasons);
            && Enabled(db.tasks[t], m) && Step(db, c).0.tasks == db.tasks[t := After(db.tasks[t], m)]
            && (After(db.tasks[t], m).assignment.None? ==>
                  Step(db, c).0.held == db.held - {db.tasks[t].assignment.value.user})
  {
    hide Inv, Claim, Save, Abandon, Reopen, OperatorRelease, Preprocess, SessionStep, RevokeTasks, RestoreTasks;
    hide Release, Deactivate, EditedVersion, PublishedRows, SubmissionProblem, Reasons;
  }

  lemma SubmittedRows(r: Rows, m: Move)
    requires RowsOk(r) && m.SubmitMove? && Enabled(r, m)
    ensures SubmissionRecorded(r, After(r, m), r.assignment.value, m.expected, m.dirty, m.target, m.reasons)
  {
    hide After, G.Apply, G.Acceptable, G.IsOverlay, G.TimelineOk, HasUntranscribed, Reasons, ReasonsKept, CreditGiven;
    hide FrozenCredit, Transcribed;
    SubmitIs(r, m);
    var a := r.assignment.value;
    var ver := EditedVersion(r, a.version, m.expected, m.dirty).value;
    G.ApplyMeaning(r.versions[a.version].segments, m.dirty);
    forall w | w in r.versions ensures r.versions[w].lifecycle.Published? <==> r.current == Some(w) {
      assert VersionOk(r, w);
    }
    KnownReasons(m.target, m.reasons);
    CreditIs(r, ver, After(r, m).versions[a.version], m.target);
    AllTranscribed(ver.segments);
    hide RowsOk;
  }

  lemma KnownReasons(target: Status, given: seq<string>)
    ensures Reasons(target, given).Good? <==> exists kept :: ReasonsKept(target, given, kept)
    ensures Reasons(target, given).Good? ==> ReasonsKept(target, given, Reasons(target, given).value)
  {
    if Reasons(target, given).Good? {
      assert ReasonsKept(target, given, Reasons(target, given).value);
    } else if kept :| ReasonsKept(target, given, kept) {
      assert false;
    }
  }

  lemma AllTranscribed(table: G.Table)
    ensures HasUntranscribed(table) <==> !Transcribed(table)
  {
  }

  lemma CreditIs(r: Rows, ver: Version, ver': Version, target: Status)
    requires RowsOk(r) && r.assignment.Some? && r.assignment.value.version in r.versions
    requires ver.base == r.versions[r.assignment.value.version].base && ver'.segments == ver.segments
    requires ver'.credit == Some(FrozenCredit(r, ver, r.assignment.value, target))
    ensures CreditGiven(r, ver', target)
  {
    assert r.current.Some? ==> VersionOk(r, r.current.value);
    hide G.TrainableSeconds, ItemsOk, BlocksOk, VersionsOk;
  }

  /* ---------- what giving up takes back ---------- */

  /** Giving up a task right after claiming it puts it back into the pool as it was, reservation apart. */
  lemma GiveUpUndoesTake(r: Rows, u: UserId, token: Token, now: nat)
    requires RowsOk(r) && Claimable(r, u)
    ensures var taken := After(r, TakeMove(u, token, now));
            Enabled(taken, GiveUpMove) && After(taken, GiveUpMove) == r.(reserved := None, claimedAt := Some(now))
  {
  }

  /** A revision starts as a copy of the annotator's own submission, with its rows, outcome and reasons, and giving it up
      leaves the task as it was but for the abandoned draft. */
  lemma GiveUpUndoesRevise(r: Rows, u: UserId, draft: VersionId, token: Token)
    requires RowsOk(r) && Enabled(r, ReviseMove(u, draft, token))
    ensures var revising := After(r, ReviseMove(u, draft, token));
            && draft in revising.versions && r.current.Some? && r.current.value in r.versions
            && revising.versions[draft] == Version(Draft, r.status, r.current, 0, false, None,
                                                   r.versions[r.current.value].skipReasons, None, None,
                                                   r.versions[r.current.value].segments)
            && r.versions[r.current.value].target == r.status
            && revising == r.(versions := r.versions[draft := revising.versions[draft]], draft := Some(draft),
                              assignment := Some(Assignment(u, draft, RevisionMode, token)))
            && Enabled(revising, GiveUpMove)
            && After(revising, GiveUpMove) == r.(versions := After(revising, GiveUpMove).versions)
            && After(revising, GiveUpMove).versions - {draft} == r.versions
            && After(revising, GiveUpMove).versions[draft].lifecycle.Abandoned?
  {
    var back := After(After(r, ReviseMove(u, draft, token)), GiveUpMove);
    assert back.versions - {draft} == r.versions;
  }

  /** The baseline's rows and times with no text and no mark, as the task's open version. */
  ghost predicate CleanCopy(r: Rows, r': Rows, draft: VersionId) {
    && r'.draft == Some(draft) && draft in r'.versions && r.baseline.Some? && r.baseline.value in r.versions
    && var base, rows := r.versions[r.baseline.value].segments, r'.versions[draft].segments;
      rows.Keys == base.Keys && forall k <- base :: rows[k] == base[k].(text := "", exclude := false)
  }

  lemma CloneIsACopy(r: Rows, draft: VersionId)
    requires CloneClean(r, draft).Good?
    ensures CleanCopy(r, CloneClean(r, draft).value, draft)
  {
  }

  lemma BaselineIsApart(r: Rows)
    requires RowsOk(r)
    ensures r.baseline.Some? && r.baseline.value in r.versions && r.draft != r.baseline && r.current != r.baseline
  {
    assert VersionOk(r, r.baseline.value);
  }

  /** What takes the place of a revoked version is a clean copy of the baseline. */
  lemma RevokeLeavesACleanCopy(r: Rows, m: Move)
    requires RowsOk(r) && m.RevokeMove? && Enabled(r, m)
    ensures CleanCopy(r, After(r, m), m.draft)
  {
    RevokeIs(r, m.version, m.annotator, m.action, m.block, m.release, m.draft);
    BaselineIsApart(r);
    BareVersions(r, m.action);
    var bare := Withdrawn(Closed(r), m.version, m.action);
    CloneIsACopy(bare, m.draft);
    hide RowsOk, CloneClean, Withdrawn, Revoke;
  }

  /** So is what a release leaves on a pending task. */
  lemma ReleaseLeavesACleanCopy(r: Rows, m: Move)
    requires RowsOk(r) && m.ResetMove? && Enabled(r, m) && r.status.Pending?
    ensures CleanCopy(r, After(r, m), m.draft)
  {
    ReleasedIsClosed(r);
    BaselineIsApart(r);
    assert r.current.None?;
    CloneIsACopy(Closed(r), m.draft);
    hide RowsOk, CloneClean, Released;
  }

  /** A refresh puts the recognised segments into both the open version and the baseline, and nowhere else. */
  lemma RefreshReplacesDraftAndBaseline(r: Rows, m: Move)
    requires RowsOk(r) && m.RefreshMove? && Enabled(r, m)
    ensures var r' := After(r, m);
            && r.draft.Some? && r.baseline.Some? && r.draft.value in r'.versions && r.baseline.value in r'.versions
            && r'.versions[r.draft.value].segments == m.rows && r'.versions[r.baseline.value].segments == m.rows
            && r'.versions[r.draft.value].revision == r.versions[r.draft.value].revision + 1
            && r'.duration == m.duration && r'.eligible == m.eligible
            && (forall v <- r.versions :: v != r.draft.value && v != r.baseline.value ==>
                  v in r'.versions && r'.versions[v] == r.versions[v])
            && r' == r.(versions := r'.versions, duration := m.duration, eligible := m.eligible)
  {
    BaselineIsApart(r);
    assert VersionOk(r, r.draft.value) && VersionOk(r, r.baseline.value);
    hide RowsOk;
  }
}
