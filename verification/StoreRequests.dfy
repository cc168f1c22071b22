/** Which answer every request gets, and what it leaves in the tables, in terms of the rows and the request alone. */
module StoreRequests {
  import opened Common
  import opened TaskRows
  import opened TaskInvariant
  import opened Store
  import opened StoreInvariant
  import opened StoreAdmin
  import opened StoreEffects
  import opened StoreReplay
  import S = Sessions
  import O = SessionOutcomes
  import G = Segments

  /* ---------- numbered requests ---------- */

  /** The request names no lease, or that of the assignment in force. */
  predicate Shows(lease: Option<Token>, a: Assignment) {
    lease.Some? ==> lease.value == a.token
  }

  /** A number that has not been used, through the authoritative session. */
  predicate Fresh(db: Db, f: S.Fence, op: OperationId) {
    O.Authoritative(db.auth, f) && op !in db.operations
  }

  /** The reasons of a completion can be kept, and a give-up is confirmed; this is looked at before anything else. */
  ghost predicate Plausible(c: Command) {
    && (c.DoComplete? ==> exists kept :: ReasonsKept(c.target, c.reasons, kept))
    && (c.DoAbandon? ==> c.confirm)
  }

  /** What a request meets before its own conditions are looked at: an implausible one is invalid, a session that is not
      authoritative is refused, a used number gives the stored response to the same request of the same annotator and a
      conflict to any other. None of it changes anything. */
  lemma EarlyOutcome(db: Db, c: Command)
    requires Numbered(c)
    ensures !Plausible(c) ==> Step(db, c) == (db, Refuse(Invalid))
    ensures Plausible(c) && !O.Authoritative(db.auth, c.fence) ==>
              S.Admit(db.auth, c.fence).Some? && Step(db, c) == (db, Err(Unauthorised(S.Admit(db.auth, c.fence).value)))
    ensures Plausible(c) && O.Authoritative(db.auth, c.fence) && c.op in db.operations ==>
              var o := db.operations[c.op];
              Step(db, c) == (db, if o.user == c.fence.user && o.route == RouteOf(c) && o.request == RequestOf(c)
                                  then Replayed(o.response) else Refuse(Conflict))
  {
    O.WriteOutcome(db.auth, c.fence);
    if c.DoComplete? { KnownReasons(c.target, c.reasons); }
    hide S.Admit, O.Authoritative, Reasons, ReasonsKept, Leased, EditedVersion, SubmissionProblem, PublishedRows, GivenUp;
    hide Revising, Claim, OperatorRelease, Preprocess, SessionStep, RevokeTasks, RestoreTasks, Release, Deactivate;
  }

  /** The rows of task `t` become `r'`, the holder index follows, the request is stored under its number and the session
      is marked as used. */
  ghost predicate Carried(db: Db, c: Command, t: TaskId, r': Rows, out: (Db, Outcome))
    requires Numbered(c) && c.fence.user in db.auth.sessions
  {
    && out.1.Ok?
    && out.0 == db.(tasks := db.tasks[t := r'],
                    held := if r'.assignment.Some? then db.held[c.fence.user := t] else db.held - {c.fence.user},
                    nextId := if c.DoReopen? then db.nextId + 2 else db.nextId,
                    operations := db.operations[c.op := Operation(c.fence.user, RouteOf(c), RequestOf(c), out.1.response)],
                    auth := db.auth.(sessions := db.auth.sessions[c.fence.user :=
                                                   O.Acted(db.auth, db.auth.sessions[c.fence.user])]))
  }

  /** What the working version of the annotator's task says to the request: another revision is a conflict that names the
      latest, entries that cannot be applied are reported by the first of them. */
  ghost predicate EditRefused(ver: Version, expected: int, dirty: seq<G.Dirty>, why: Refusal) {
    if ver.revision != expected then why == RevisionConflict(ver.revision)
    else why.InvalidSegments? && !G.Acceptable(ver.segments, dirty)
         && exists i :: G.StopsAt(ver.segments, dirty, i, why.problem)
  }

  ghost predicate EditFits(ver: Version, expected: int, dirty: seq<G.Dirty>) {
    ver.revision == expected && G.Acceptable(ver.segments, dirty)
  }

  lemma EditOutcome(r: Rows, v: VersionId, expected: int, dirty: seq<G.Dirty>)
    requires v in r.versions
    ensures var edited := EditedVersion(r, v, expected, dirty);
            if EditFits(r.versions[v], expected, dirty)
            then edited.Good? && G.Apply(r.versions[v].segments, dirty).Ok?
                 && edited.value == r.versions[v].(segments := G.Apply(r.versions[v].segments, dirty).value)
            else edited.Bad? && EditRefused(r.versions[v], expected, dirty, edited.error)
  {
    G.ApplyMeaning(r.versions[v].segments, dirty);
    hide G.Apply, G.Acceptable, G.StopsAt;
  }

  lemma HolderIs(db: Db, u: UserId)
    requires Inv(db)
    ensures HasAssignment(db, u) <==> u in db.held
    ensures u in db.held ==> db.held[u] in db.tasks && Holds(db.tasks[db.held[u]], u)
                             && RowsOk(db.tasks[db.held[u]])
                             && db.tasks[db.held[u]].assignment.value.version in db.tasks[db.held[u]].versions
  {
    if HasAssignment(db, u) { WorkingVersion(db, u); RowsFit(db, db.held[u]); }
    hide TasksOk, LogsOk, S.AuthOk;
  }

  lemma LeaseOutcome(db: Db, u: UserId, lease: Option<Token>)
    requires Inv(db)
    ensures Leased(db, u, lease) ==
            if u !in db.held then Bad(Conflict)
            else if !Shows(lease, db.tasks[db.held[u]].assignment.value) then Bad(Forbidden) else Good(db.held[u])
  {
    HolderIs(db, u);
    hide Inv;
  }

  /** A save in a fresh request is refused without an assignment, under another lease than the one in force, against
      another revision, and for entries that cannot be applied; otherwise it is accepted and recorded. */
  lemma SaveOutcome(db: Db, c: Command)
    requires Inv(db) && c.DoSave? && Fresh(db, c.fence, c.op)
    ensures var u, out := c.fence.user, Step(db, c);
            if u !in db.held then out == (db, Refuse(Conflict))
            else
              var t := db.held[u];
              var r := db.tasks[t];
              var ver := r.versions[r.assignment.value.version];
              if !Shows(c.lease, r.assignment.value) then out == (db, Refuse(Forbidden))
              else if !EditFits(ver, c.expected, c.dirty) then
                out.0 == db && out.1.Err? && out.1.error.Refused?
                && EditRefused(ver, c.expected, c.dirty, out.1.error.refusal)
              else
                && t in out.0.tasks && Carried(db, c, t, out.0.tasks[t], out)
                && EditRecorded(r, out.0.tasks[t], r.assignment.value.version, c.expected, c.dirty)
                && out.1 == Ok(SavedRevision(c.expected + 1))
  {
    hide Inv, RowsOk, Step, Leased, EditedVersion, EditRefused, EditFits, EditRecorded, Carried, Fresh;
    var u := c.fence.user;
    SaveUnfolds(db, c);
    HolderIs(db, u);
    LeaseOutcome(db, u, c.lease);
    if u in db.held {
      var r := db.tasks[db.held[u]];
      var v := r.assignment.value.version;
      EditOutcome(r, v, c.expected, c.dirty);
      if EditedVersion(r, v, c.expected, c.dirty).Good? {
        SavedRows(r, v, c.expected, c.dirty);
        SavedKeepsHolder(r, v, c.expected, c.dirty);
        FinishCarries(db, c, db.held[u], PutVersion(r, v, Saved(EditedVersion(r, v, c.expected, c.dirty).value)),
                      SavedRevision(c.expected + 1));
      }
    }
  }

  /** Storing the request and marking the session, after the rows of the annotator's task have been written. */
  lemma FinishCarries(db: Db, c: Command, t: TaskId, r': Rows, response: Response)
    requires Numbered(c) && !c.DoReopen? && Fresh(db, c.fence, c.op)
    requires t in db.tasks && Holds(db.tasks[t], c.fence.user) && c.fence.user in db.held && db.held[c.fence.user] == t
    requires r'.assignment.Some? ==> Holds(r', c.fence.user)
    ensures var out := Finish(SetRows(db, t, r'), c.fence, c.op, RouteOf(c), RequestOf(c), response);
            Carried(db, c, t, r', out) && t in out.0.tasks && out.0.tasks[t] == r' && out.1 == Ok(response)
  {
    O.WriteOutcome(db.auth, c.fence);
    HeldAgain(db.held, c.fence.user);
    hide S.Touch, O.Acted, S.Admit;
  }

  lemma SaveUnfolds(db: Db, c: Command)
    requires c.DoSave? && Fresh(db, c.fence, c.op)
    ensures Step(db, c) ==
            var leased := Leased(db, c.fence.user, c.lease);
            if leased.Bad? then (db, Refuse(leased.error))
            else
              var r := db.tasks[leased.value];
              var v := r.assignment.value.version;
              var edited := EditedVersion(r, v, c.expected, c.dirty);
              if edited.Bad? then (db, Refuse(edited.error))
              else Finish(SetRows(db, leased.value, PutVersion(r, v, Saved(edited.value))), c.fence, c.op, RouteOf(c),
                          RequestOf(c), SavedRevision(Saved(edited.value).revision))
  {
    O.WriteOutcome(db.auth, c.fence);
    hide S.Admit, Leased, EditedVersion, PutVersion, Finish, SetRows, Claim, Complete, Abandon, Reopen, OperatorRelease;
    hide Preprocess, SessionStep, RevokeTasks, RestoreTasks, Release, Deactivate;
  }

  lemma SavedKeepsHolder(r: Rows, v: VersionId, expected: int, dirty: seq<G.Dirty>)
    requires EditedVersion(r, v, expected, dirty).Good?
    ensures PutVersion(r, v, Saved(EditedVersion(r, v, expected, dirty).value)).assignment == r.assignment
    ensures v in r.versions && r.versions[v].revision == expected
    ensures Saved(EditedVersion(r, v, expected, dirty).value).revision == expected + 1
  {
  }

  lemma HeldAgain(held: map<UserId, TaskId>, u: UserId)
    requires u in held
    ensures (held - {u})[u := held[u]] == held && held[u := held[u]] == held
  {
  }

  /** The rows after the request's edits make a submission with this outcome. */
  ghost predicate Submittable(r: Rows, after: G.Table, target: Status) {
    G.TimelineOk(after, r.duration) && (target.Annotated? ==> Transcribed(after))
  }

  /** A completion in a fresh, plausible request is refused for the same reasons as a save, and as invalid if the edited
      rows overlap, leave the audio, or lack a text that an annotation needs; otherwise it is accepted and recorded. */
  lemma CompleteOutcome(db: Db, c: Command)
    requires Inv(db) && c.DoComplete? && Plausible(c) && Fresh(db, c.fence, c.op)
    ensures var u, out := c.fence.user, Step(db, c);
            if u !in db.held then out == (db, Refuse(Conflict))
            else
              var t := db.held[u];
              var r := db.tasks[t];
              var ver := r.versions[r.assignment.value.version];
              if !Shows(c.lease, r.assignment.value) then out == (db, Refuse(Forbidden))
              else if !EditFits(ver, c.expected, c.dirty) then
                out.0 == db && out.1.Err? && out.1.error.Refused?
                && EditRefused(ver, c.expected, c.dirty, out.1.error.refusal)
              else
                && G.Apply(ver.segments, c.dirty).Ok?
                && if !Submittable(r, G.Apply(ver.segments, c.dirty).value, c.target) then out == (db, Refuse(Invalid))
                   else
                     && t in out.0.tasks && Carried(db, c, t, out.0.tasks[t], out)
                     && SubmissionRecorded(r, out.0.tasks[t], r.assignment.value, c.expected, c.dirty, c.target, c.reasons)
                     && out.1.response.CompletedTask? && out.1.response.task == t && out.1.response.status == c.target
                     && ReasonsKept(c.target, c.reasons, out.1.response.reasons)
  {
    hide Inv, RowsOk, Step, Leased, EditedVersion, EditRefused, EditFits, SubmissionRecorded, Carried, Fresh;
    hide Reasons, ReasonsKept, SubmissionProblem, PublishedRows, Submittable, G.Apply, Plausible, Shows;
    var u := c.fence.user;
    CompleteUnfolds(db, c);
    KnownReasons(c.target, c.reasons);
    HolderIs(db, u);
    LeaseOutcome(db, u, c.lease);
    if u in db.held {
      var r := db.tasks[db.held[u]];
      var a := r.assignment.value;
      EditOutcome(r, a.version, c.expected, c.dirty);
      var edited := EditedVersion(r, a.version, c.expected, c.dirty);
      if edited.Good? {
        ProblemIs(r, edited.value, c.target);
        if SubmissionProblem(r, edited.value, c.target).None? {
          RecordedSubmission(r, SubmitMove(c.expected, c.dirty, c.target, c.reasons));
          FinishCarries(db, c, db.held[u], PublishedRows(r, a, edited.value, c.target, Reasons(c.target, c.reasons).value),
                        CompletedTask(db.held[u], c.target, Reasons(c.target, c.reasons).value));
        }
      }
    }
  }

  lemma RecordedSubmission(r: Rows, m: Move)
    requires RowsOk(r) && m.SubmitMove? && Enabled(r, m)
    ensures var a := r.assignment.value;
            var ver := EditedVersion(r, a.version, m.expected, m.dirty).value;
            var r' := PublishedRows(r, a, ver, m.target, Reasons(m.target, m.reasons).value);
            SubmissionRecorded(r, r', a, m.expected, m.dirty, m.target, m.reasons) && r'.assignment.None?
  {
    SubmittedRows(r, m);
    hide RowsOk, EditedVersion, PublishedRows, SubmissionProblem, SubmissionRecorded, Reasons;
    RecordedIsFree(r, After(r, m), r.assignment.value, m);
  }

  lemma ProblemIs(r: Rows, ver: Version, target: Status)
    requires RowsOk(r) && r.assignment.Some? && r.assignment.value.version in r.versions
    requires ver == r.versions[r.assignment.value.version].(segments := ver.segments)
    ensures SubmissionProblem(r, ver, target) == if Submittable(r, ver.segments, target) then None else Some(Invalid)
  {
    assert VersionOk(r, r.assignment.value.version);
    AllTranscribed(ver.segments);
    hide Transcribed, HasUntranscribed, G.TimelineOk, ItemsOk, BlocksOk, VersionsOk;
  }

  lemma CompleteUnfolds(db: Db, c: Command)
    requires c.DoComplete? && Plausible(c) && Fresh(db, c.fence, c.op)
    ensures Reasons(c.target, c.reasons).Good?
    ensures Step(db, c) ==
            var leased, reasons := Leased(db, c.fence.user, c.lease), Reasons(c.target, c.reasons).value;
            if leased.Bad? then (db, Refuse(leased.error))
            else
              var r := db.tasks[leased.value];
              var a := r.assignment.value;
              var edited := EditedVersion(r, a.version, c.expected, c.dirty);
              if edited.Bad? then (db, Refuse(edited.error))
              else
                var problem := SubmissionProblem(r, edited.value, c.target);
                if problem.Some? then (db, Refuse(problem.value))
                else Finish(SetRows(db, leased.value, PublishedRows(r, a, edited.value, c.target, reasons)), c.fence, c.op,
                            RouteOf(c), RequestOf(c), CompletedTask(leased.value, c.target, reasons))
  {
    O.WriteOutcome(db.auth, c.fence);
    KnownReasons(c.target, c.reasons);
    hide S.Admit, Leased, EditedVersion, SubmissionProblem, PublishedRows, Finish, SetRows, Claim, Save, Abandon, Reopen;
    hide OperatorRelease, Preprocess, SessionStep, RevokeTasks, RestoreTasks, Release, Deactivate, Reasons, ReasonsKept;
  }

  /** The assignment is gone. A revision's draft is abandoned with it; an annotation's draft stays open as it is. */
  ghost predicate GivenBack(r: Rows, r': Rows) {
    && r.assignment.Some?
    && var v := r.assignment.value.version;
      if r.current.Some? then
        v in r.versions && r' == r.(assignment := None, draft := None,
                                    versions := r.versions[v := r.versions[v].(lifecycle := Abandoned)])
      else r' == r.(assignment := None)
  }

  lemma GivesBack(r: Rows)
    requires RowsOk(r) && r.assignment.Some?
    ensures GivenBack(r, GivenUp(r, r.assignment.value))
  {
    assert VersionOk(r, r.assignment.value.version);
    hide ItemsOk, BlocksOk, VersionsOk;
  }

  /** A give-up in a fresh, confirmed request is refused without an assignment and under another lease than the one in
      force; otherwise the task is given back. */
  lemma AbandonOutcome(db: Db, c: Command)
    requires Inv(db) && c.DoAbandon? && Plausible(c) && Fresh(db, c.fence, c.op)
    ensures var u, out := c.fence.user, Step(db, c);
            if u !in db.held then out == (db, Refuse(Conflict))
            else
              var t := db.held[u];
              if !Shows(c.lease, db.tasks[t].assignment.value) then out == (db, Refuse(Forbidden))
              else
                && t in out.0.tasks && Carried(db, c, t, out.0.tasks[t], out)
                && GivenBack(db.tasks[t], out.0.tasks[t]) && out.1 == Ok(AbandonedTask)
  {
    hide Inv, RowsOk, Step, Leased, Carried, Fresh, GivenUp;
    var u := c.fence.user;
    AbandonUnfolds(db, c);
    HolderIs(db, u);
    LeaseOutcome(db, u, c.lease);
    if u in db.held {
      var r := db.tasks[db.held[u]];
      GivesBack(r);
      FinishCarries(db, c, db.held[u], GivenUp(r, r.assignment.value), AbandonedTask);
    }
  }

  lemma AbandonUnfolds(db: Db, c: Command)
    requires c.DoAbandon? && c.confirm && Fresh(db, c.fence, c.op)
    ensures Step(db, c) ==
            var leased := Leased(db, c.fence.user, c.lease);
            if leased.Bad? then (db, Refuse(leased.error))
            else
              var r := db.tasks[leased.value];
              Finish(SetRows(db, leased.value, GivenUp(r, r.assignment.value)), c.fence, c.op, RouteOf(c), RequestOf(c),
                     AbandonedTask)
  {
    O.WriteOutcome(db.auth, c.fence);
    hide S.Admit, Leased, GivenUp, Finish, SetRows, Claim, Save, Complete, Reopen, OperatorRelease, Preprocess;
    hide SessionStep, RevokeTasks, RestoreTasks, Release, Deactivate;
  }

  /** A copy of the current version, its rows, outcome and reasons, opens as the annotator's revision. */
  ghost predicate RevisionOpened(r: Rows, r': Rows, u: UserId, draft: VersionId, token: Token) {
    && r.current.Some? && r.current.value in r.versions
    && var base := r.versions[r.current.value];
      r' == r.(versions := r.versions[draft := Version(Draft, base.target, r.current, 0, false, None, base.skipReasons, None,
                                                       None, base.segments)],
               draft := Some(draft), assignment := Some(Assignment(u, draft, RevisionMode, token)))
  }

  /** A reopening in a fresh request is refused while the annotator holds a task, for an unknown task, for one without a
      submission, and for somebody else's; otherwise the annotator revises it under a new lease. */
  lemma ReopenOutcome(db: Db, c: Command)
    requires Inv(db) && c.DoReopen? && Fresh(db, c.fence, c.op)
    ensures var u, t, out := c.fence.user, c.task, Step(db, c);
            if u in db.held then out == (db, Refuse(Conflict))
            else if t !in db.tasks then out == (db, Refuse(NotFound))
            else if db.tasks[t].status.Pending? then out == (db, Refuse(Conflict))
            else
              && db.tasks[t].current.Some? && db.tasks[t].current.value in db.tasks[t].versions
              && if db.tasks[t].versions[db.tasks[t].current.value].submitter != Some(u)
                 then out == (db, Refuse(Forbidden))
                 else
                   && t in out.0.tasks && Carried(db, c, t, out.0.tasks[t], out)
                   && RevisionOpened(db.tasks[t], out.0.tasks[t], u, db.nextId, db.nextId + 1)
                   && out.1 == Ok(ReopenedTask(t, db.nextId + 1))
  {
    hide Inv, RowsOk, Step, Finish, SetRows, Carried, Revising, Fresh, HasAssignment, RevisionOpened, Holds;
    HolderIs(db, c.fence.user);
    ReopenUnfolds(db, c);
    if c.task in db.tasks {
      RowsFit(db, c.task);
      CurrentIsThere(db.tasks[c.task]);
      if c.fence.user !in db.held && SubmittedBy(db.tasks[c.task], c.fence.user) {
        RevisableIsFree(db, c.task, c.fence.user);
        RevisionOpens(db.tasks[c.task], c.fence.user, db.nextId, db.nextId + 1);
        ReopenCarries(db, c, Revising(db.tasks[c.task], c.fence.user, db.tasks[c.task].current.value, db.nextId, db.nextId + 1));
      }
    }
  }

  lemma CurrentIsThere(r: Rows)
    requires RowsOk(r)
    ensures r.status.Pending? <==> r.current.None?
    ensures r.current.Some? ==> r.current.value in r.versions && r.versions[r.current.value].target == r.status
  {
  }

  lemma RevisableIsFree(db: Db, t: TaskId, u: UserId)
    requires Inv(db) && t in db.tasks && u !in db.held && SubmittedBy(db.tasks[t], u)
    ensures db.tasks[t].draft.None? && db.tasks[t].assignment.None?
  {
    OwnSubmissionIsFree(db, t, u);
  }

  lemma RevisionOpens(r: Rows, u: UserId, draft: VersionId, token: Token)
    requires RowsOk(r) && r.current.Some? && r.current.value in r.versions
    ensures var r' := Revising(r, u, r.current.value, draft, token);
            RevisionOpened(r, r', u, draft, token) && Holds(r', u)
  {
    CurrentIsThere(r);
    hide RowsOk;
  }

  lemma ReopenCarries(db: Db, c: Command, r': Rows)
    requires c.DoReopen? && Fresh(db, c.fence, c.op) && c.task in db.tasks && db.tasks[c.task].assignment.None?
    requires Holds(r', c.fence.user)
    ensures var response := ReopenedTask(c.task, db.nextId + 1);
            var out := Finish(SetRows(db, c.task, r').(nextId := db.nextId + 2), c.fence, c.op, RouteOf(c), RequestOf(c),
                              response);
            && Carried(db, c, c.task, r', out) && c.task in out.0.tasks && out.0.tasks[c.task] == r'
            && out.1 == Ok(response)
  {
    O.WriteOutcome(db.auth, c.fence);
    hide S.Touch, O.Acted, S.Admit;
  }

  lemma ReopenUnfolds(db: Db, c: Command)
    requires c.DoReopen? && Fresh(db, c.fence, c.op)
    ensures Step(db, c) ==
            if HasAssignment(db, c.fence.user) then (db, Refuse(Conflict))
            else if c.task !in db.tasks then (db, Refuse(NotFound))
            else
              var r := db.tasks[c.task];
              if r.current.None? then (db, Refuse(Conflict))
              else if !SubmittedBy(r, c.fence.user) then (db, Refuse(Forbidden))
              else if r.draft.Some? then (db, Refuse(Conflict))
              else Finish(SetRows(db, c.task, Revising(r, c.fence.user, r.current.value, db.nextId, db.nextId + 1))
                            .(nextId := db.nextId + 2),
                          c.fence, c.op, RouteOf(c), RequestOf(c), ReopenedTask(c.task, db.nextId + 1))
  {
    O.WriteOutcome(db.auth, c.fence);
    hide S.Admit, HasAssignment, Revising, Finish, SetRows, Claim, Save, Complete, Abandon, OperatorRelease, Preprocess;
    hide SessionStep, RevokeTasks, RestoreTasks, Release, Deactivate;
  }

  /* ---------- claiming ---------- */

  /** Pending, offered to annotators, nobody's, and neither closed to the annotator nor reserved for another. */
  predicate Available(r: Rows, u: UserId) {
    && r.status.Pending? && r.eligible && r.assignment.None? && u !in r.blocks
    && (r.reserved.Some? ==> r.reserved.value == u)
  }

  /** A claim through a session that is not authoritative is refused. An annotator who holds a task gets that one again,
      and nothing but the session changes. Otherwise the task that is tried is taken exactly if it is available, under a
      new lease and with its open draft as it is. */
  lemma ClaimOutcome(db: Db, c: Command)
    requires Inv(db) && c.DoClaim?
    ensures var u, t, out := c.fence.user, c.task, Step(db, c);
            if !O.Authoritative(db.auth, c.fence) then
              S.Admit(db.auth, c.fence).Some? && out == (db, Err(Unauthorised(S.Admit(db.auth, c.fence).value)))
            else
              var auth := db.auth.(sessions := db.auth.sessions[u := O.Acted(db.auth, db.auth.sessions[u])]);
              if u in db.held then
                out == (db.(auth := auth), Ok(ResumedTask(db.held[u], db.tasks[db.held[u]].assignment.value)))
              else if t !in db.tasks || !Available(db.tasks[t], u) then out == (db, Refuse(NoTask))
              else
                && db.tasks[t].draft.Some?
                && var a := Assignment(u, db.tasks[t].draft.value, AnnotationMode, db.nextId);
                  && out.0 == db.(tasks := db.tasks[t := db.tasks[t].(assignment := Some(a), reserved := None,
                                                                       claimedAt := Some(db.auth.now))],
                                  held := db.held[u := t], nextId := db.nextId + 1, auth := auth)
                  && out.1 == Ok(ClaimedTask(t, a))
  {
    hide Inv, RowsOk, S.Admit, S.Touch, O.Acted, O.Authoritative, Save, Complete, Abandon, Reopen, OperatorRelease;
    HolderIs(db, c.fence.user);
    if c.task in db.tasks { RowsFit(db, c.task); PendingIsOpen(db.tasks[c.task]); }
    O.WriteOutcome(db.auth, c.fence);
    hide Preprocess, SessionStep, RevokeTasks, RestoreTasks, Release, Deactivate;
  }

  lemma PendingIsOpen(r: Rows)
    requires RowsOk(r)
    ensures r.status.Pending? ==> r.draft.Some?
  {
  }

  /** The operator gives a task back for an annotator who holds one, whatever the session; for others there is nothing to
      give back. */
  lemma OperatorReleaseOutcome(db: Db, u: UserId)
    requires Inv(db)
    ensures var out := Step(db, DoOperatorRelease(u));
            if u !in db.held then out == (db, Refuse(NotFound))
            else
              var t := db.held[u];
              && t in out.0.tasks && GivenBack(db.tasks[t], out.0.tasks[t]) && out.1 == Ok(ReleasedByOperator)
              && out.0 == db.(tasks := db.tasks[t := out.0.tasks[t]], held := db.held - {u})
  {
    hide Inv, RowsOk, GivenUp, Claim, Save, Complete, Abandon, Reopen;
    hide Preprocess, SessionStep, RevokeTasks, RestoreTasks, Release, Deactivate;
    HolderIs(db, u);
    if u in db.held { GivesBack(db.tasks[db.held[u]]); }
  }

  /* ---------- recognised segments ---------- */

  /** Submitted, being worked on, or edited by somebody. */
  predicate InHumanHands(r: Rows) {
    || !r.status.Pending? || r.assignment.Some?
    || (r.draft.Some? && r.draft.value in r.versions && r.versions[r.draft.value].humanModified)
  }

  lemma ProtectedIs(r: Rows)
    requires RowsOk(r)
    ensures IsProtected(r) <==> InHumanHands(r)
  {
  }

  /** Open version and baseline have the recognised rows, and the task the length and eligibility that came with them. */
  ghost predicate RefreshedBy(r: Rows, r': Rows, i: Ingest) {
    && r.draft.Some? && r.baseline.Some? && r.draft.value in r.versions && r.baseline.value in r.versions
    && var d, b := r.draft.value, r.baseline.value;
      r' == r.(duration := i.duration, eligible := i.eligible,
               versions := r.versions[d := r.versions[d].(segments := i.rows, revision := r.versions[d].revision + 1)]
                                     [b := r.versions[b].(segments := i.rows)])
  }

  /** A pending task nobody has worked on: an open version made from a baseline, both with the recognised rows. */
  function Untried(base: VersionId, draft: VersionId, i: Ingest): Rows {
    var v := Version(Baseline, Pending, None, 0, false, None, [], None, None, i.rows);
    Rows(Pending, i.eligible, i.duration, None, Some(base), None, None,
         map[base := v, draft := v.(lifecycle := Draft, base := Some(base))], Some(draft), None, map[], map[])
  }

  /** Recognised segments for a known path are refused without the processing lease, except for metadata, and put aside or
      refused if the task is in human hands; otherwise they replace open version and baseline. A new path gets a new
      task. */
  lemma PreprocessOutcome(db: Db, i: Ingest)
    requires Inv(db)
    ensures var out := Step(db, DoPreprocess(i));
            if i.path in db.paths then
              var t := db.paths[i.path];
              && t in db.tasks
              && if !i.metadataOnly && !i.leaseHeld then out == (db, Refuse(Conflict))
                 else if InHumanHands(db.tasks[t]) then
                   out == (db, if i.skipIfProtected then Ok(SkippedHuman(t)) else Refuse(Protected))
                 else if i.metadataOnly then out == (db, Ok(MetadataOnly(t)))
                 else
                   && t in out.0.tasks && out.0 == db.(tasks := db.tasks[t := out.0.tasks[t]])
                   && RefreshedBy(db.tasks[t], out.0.tasks[t], i) && out.1 == Ok(RefreshedTask(t))
            else
              out == (db.(paths := db.paths[i.path := db.nextId], nextId := db.nextId + 3,
                          tasks := db.tasks[db.nextId := Untried(db.nextId + 1, db.nextId + 2, i)]),
                      Ok(CreatedTask(db.nextId)))
  {
    hide Inv, RowsOk, IsProtected, InHumanHands, Refreshed, RefreshedBy, Claim, Save, Complete, Abandon, Reopen;
    hide OperatorRelease, SessionStep, RevokeTasks, RestoreTasks, Release, Deactivate;
    if i.path in db.paths {
      PathHasTask(db, i.path);
      var t := db.paths[i.path];
      RowsFit(db, t);
      ProtectedIs(db.tasks[t]);
      UntouchedHasDraft(db.tasks[t]);
      if !IsProtected(db.tasks[t]) { RefreshIs(db.tasks[t], i); }
    }
  }

  lemma RefreshIs(r: Rows, i: Ingest)
    requires RowsOk(r) && r.draft.Some? && r.draft.value in r.versions && !IsProtected(r)
    ensures RefreshedBy(r, Refreshed(r, i.duration, i.rows, i.eligible), i)
    ensures Refreshed(r, i.duration, i.rows, i.eligible).assignment.None? && r.assignment.None?
  {
    assert VersionOk(r, r.draft.value) && VersionOk(r, r.baseline.value);
    hide ItemsOk, BlocksOk, VersionsOk;
  }
}
