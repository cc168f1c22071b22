/** One run of the store from beginning to end: a task is stored, taken, skipped, revoked, refused to its annotator and
    put back. Every command of it is accepted, so the theorems about accepted commands speak about runs that exist.
 */
module WorkedRun {
  import opened Common
  import opened TaskRows
  import opened TaskHistory
  import opened Store
  import opened StoreInvariant
  import opened StoreRuns
  import opened StoreReplay
  import opened StoreRestore
  import S = Sessions
  import G = Segments

  const POLICY := S.Policy(1800, 28800, 90, 60)
  const ANNOTATOR: UserId := 7
  const FENCE := S.Fence(ANNOTATOR, 100, 1)
  const ADMIN := Admin(1, true, 900, true)
  const AGAIN := Admin(1, true, 901, true)

  const STORED := DoPreprocess(Ingest("a.wav", 10.0, map[], true, false, false, false))
  const LOGIN := DoSession(S.Login(ANNOTATOR, 100, None))
  const CLAIMED := DoClaim(FENCE, 0)
  const SKIPPED := DoComplete(FENCE, Some(3), 0, Skipped, ["noisy"], [], 500, Body("skip"))
  const REVOKED := DoRevoke(ADMIN, ANNOTATOR, [RevokeItem(0, 2)], "wrong audio", true, false)
  const PUT_BACK := DoRestore(AGAIN, 4, [0], "right after all")

  lemma BeforeTheSubmission() returns (db: Db)
    ensures db == Run(EmptyStore(0, POLICY), [STORED, LOGIN, CLAIMED])
    ensures 0 in db.tasks && db.nextId == 4 && db.actions == map[] && db.actionOps == map[] && db.operations == map[]
    ensures db.held == map[ANNOTATOR := 0] && S.Admit(db.auth, FENCE).None? && ActiveUser(db, ANNOTATOR)
    ensures db.tasks[0] == Taken(NewRows(1, 2, 10.0, map[], true), ANNOTATOR, 3, 0)
  {
    hide Save, Complete, Abandon, Reopen, OperatorRelease, RevokeTasks, RestoreTasks, Release, Deactivate;
    var db0 := EmptyStore(0, POLICY);
    var db1 := Step(db0, STORED).0;
    assert db1 == NewTask(db0, STORED.ingest);
    var db2 := Step(db1, LOGIN).0;
    assert db2.auth.sessions == map[ANNOTATOR := S.Session(100, 1, 0, 0, 0, 1800, 28800)];
    db := Step(db2, CLAIMED).0;
    assert [STORED, LOGIN, CLAIMED][1..] == [LOGIN, CLAIMED] && [LOGIN, CLAIMED][1..] == [CLAIMED] && [CLAIMED][1..] == [];
    assert Run(db2, [CLAIMED]) == db && Run(db1, [LOGIN, CLAIMED]) == db;
  }

  lemma SkippingIsAccepted(r: Rows)
    requires r == Taken(NewRows(1, 2, 10.0, map[], true), ANNOTATOR, 3, 0)
    ensures Reasons(Skipped, ["noisy"]) == Good(["noisy"])
    ensures EditedVersion(r, 2, 0, []) == Good(r.versions[2])
    ensures SubmissionProblem(r, r.versions[2], Skipped).None?
  {
  }

  ghost predicate SkippedOnce(r: Rows) {
    && r.versions.Keys == {1, 2} && r.current == Some(2) && r.baseline == Some(1) && r.assignment.None? && r.draft.None?
    && r.versions[2].submitter == Some(ANNOTATOR) && r.versions[2].lifecycle.Published? && r.items == map[]
    && r.versions[1].lifecycle.Baseline?
  }

  lemma AfterTheSubmission() returns (db: Db)
    ensures db == Run(EmptyStore(0, POLICY), [STORED, LOGIN, CLAIMED, SKIPPED])
    ensures 0 in db.tasks && SkippedOnce(db.tasks[0]) && ActiveUser(db, ANNOTATOR)
    ensures db.nextId == 4 && db.actions == map[] && db.actionOps == map[]
  {
    hide Claim, Save, Abandon, Reopen, OperatorRelease, RevokeTasks, RestoreTasks, Release, Deactivate, Preprocess;
    hide SessionStep, S.Admit, S.Touch;
    var before := BeforeTheSubmission();
    SkippingIsAccepted(before.tasks[0]);
    db := Step(before, SKIPPED).0;
    RunOneMore(EmptyStore(0, POLICY), [STORED, LOGIN, CLAIMED], SKIPPED);
    assert [STORED, LOGIN, CLAIMED] + [SKIPPED] == [STORED, LOGIN, CLAIMED, SKIPPED];
    hide EditedVersion, Reasons, SubmissionProblem;
    var ver, a := before.tasks[0].versions[2], before.tasks[0].assignment.value;
    assert db == Finish(SetRows(before, 0, PublishedRows(before.tasks[0], a, ver, Skipped, ["noisy"])), FENCE, 500,
                        CompleteRoute, Body("skip"), CompletedTask(0, Skipped, ["noisy"])).0;
    TouchKeepsAccounts(before.auth);
  }

  lemma TouchKeepsAccounts(a: S.Auth)
    ensures S.Touch(a, FENCE).active == a.active
  {
  }

  lemma {:induction false} RunOneMore(db: Db, cs: seq<Command>, c: Command)
    ensures Run(db, cs + [c]) == Step(Run(db, cs), c).0
    decreases |cs|
  {
    hide Step;
    if cs == [] {
      assert [c][1..] == [] && cs + [c] == [c];
    } else {
      assert (cs + [c])[0] == cs[0] && (cs + [c])[1..] == cs[1..] + [c];
      RunOneMore(Step(db, cs[0]).0, cs[1..], c);
    }
  }

  lemma RunNothing(db: Db)
    ensures Run(db, []) == db
  {
  }

  lemma ReasonsAreGiven()
    ensures ReasonOk("wrong audio") && ReasonOk("right after all")
  {
    assert TrimLeft("wrong audio") == "wrong audio" && TrimLeft("right after all") == "right after all";
    assert TrimRight("wrong audio") == "wrong audio" && TrimRight("right after all") == "right after all";
  }

  lemma RevokeIsAccepted(r: Rows)
    requires SkippedOnce(r)
    ensures Revoke(r, 2, ANNOTATOR, 4, true, false, 5).Good?
    ensures ANNOTATOR in Revoke(r, 2, ANNOTATOR, 4, true, false, 5).value.blocks
  {
  }

  /** The revoke is accepted and shuts the annotator out; the restore is accepted and puts the task back as it was. */
  lemma WorkIsRevokedAndPutBack()
    ensures var db := Run(EmptyStore(0, POLICY), [STORED, LOGIN, CLAIMED, SKIPPED]);
            var revoked := Step(db, REVOKED);
            var restored := Step(revoked.0, PUT_BACK);
            && 0 in db.tasks && SubmittedBy(db.tasks[0], ANNOTATOR)
            && revoked.1.Ok? && 0 in revoked.0.tasks && ANNOTATOR in revoked.0.tasks[0].blocks
            && restored.1.Ok? && 0 in restored.0.tasks && db.tasks[0].draft.None?
            && PutBackExactly(db.tasks[0], restored.0.tasks[0])
  {
    hide Claim, Save, Complete, Abandon, Reopen, OperatorRelease, RestoreTasks, Release, Deactivate, Preprocess, SessionStep;
    hide Revoke, PutBackExactly, Run, TrimLeft, TrimRight;
    var db := AfterTheSubmission();
    ReasonsAreGiven();
    RevokeIsAccepted(db.tasks[0]);
    assert RevokeOne(OpenAction(db, ADMIN, PayloadOf(REVOKED)), RevokeItem(0, 2), ANNOTATOR, 4, true, false).Good?;
    var db1 := Step(db, REVOKED).0;
    assert Step(db, REVOKED).1.Ok?;
    assert Lists(REVOKED.items, 0) by { assert REVOKED.items[0].task == 0; }
    assert BeginAction(db1, AGAIN, PayloadOf(PUT_BACK)).None?;
    assert 0 in db1.tasks && ANNOTATOR in db1.tasks[0].blocks;
    hide Step, BeginAction;
    RevokeCanBeUndone(0, POLICY, [STORED, LOGIN, CLAIMED, SKIPPED], REVOKED, PUT_BACK);
    assert Inv(EmptyStore(0, POLICY));
    RunKeepsInv(EmptyStore(0, POLICY), [STORED, LOGIN, CLAIMED, SKIPPED]);
    hide Inv;
    RunNothing(db1);
    RestoreUndoesRevokeInRuns(db, REVOKED, [], PUT_BACK, 0);
  }
}
