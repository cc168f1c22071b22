/** Credit stays within the audio: if recognised segments carry faithful times, then in every run what a task's current
    version is credited with is bounded by the length of its audio, restored versions included. */
module CreditBounds {
  import opened Common
  import opened TaskRows
  import opened TaskInvariant
  import opened TaskHistory
  import opened Store
  import opened StoreInvariant
  import opened StoreAdmin
  import opened StoreRuns
  import opened StoreRestore
  import S = Sessions
  import G = Segments

  /* ---------- one task ---------- */

  /** A version is the current one, or a restore may make it the current one again. */
  ghost predicate MayBeCurrent(r: Rows, v: VersionId) {
    && v in r.versions
    && (r.versions[v].lifecycle.Published?
        || (r.versions[v].lifecycle.Revoked? && exists a <- r.items :: Undoes(r, a, v)))
  }

  predicate Undoes(r: Rows, a: ActionId, v: VersionId)
    requires a in r.items
  {
    r.items[a].before == v && CleanDraft(r, r.items[a].after)
  }

  /** Credit by segments is at most the length of the audio, up to 1.5 ms a row. */
  predicate Bounded(ver: Version, duration: real) {
    ver.credit.Some? && ver.credit.value.basis.TrainableSegments? ==>
      ver.credit.value.seconds <= duration + 0.0015 * |ver.segments| as real
  }

  ghost predicate AllFaithful(r: Rows) {
    0.0 <= r.duration && forall v <- r.versions :: G.Faithful(r.versions[v].segments)
  }

  ghost predicate CreditsFit(r: Rows) {
    forall v :: MayBeCurrent(r, v) ==> Bounded(r.versions[v], r.duration)
  }

  ghost predicate FaithfulRows(m: Move) {
    m.RefreshMove? ==> 0.0 <= m.duration && G.Faithful(m.rows)
  }

  lemma CleaningIsFaithful(table: G.Table)
    requires G.Faithful(table)
    ensures G.Faithful(map k <- table :: Cleaned(table[k]))
  {
  }

  lemma PlainKeepsFaithful(r: Rows, m: Move)
    requires RowsOk(r) && Enabled(r, m) && PlainMove(m) && AllFaithful(r) && FaithfulRows(m)
    ensures AllFaithful(After(r, m))
  {
    if m.SaveMove? { G.EditsStayFaithful(r.versions[r.assignment.value.version].segments, m.dirty); }
    hide RowsOk, G.Faithful, Claimable, G.Apply;
  }

  lemma SubmitKeepsFaithful(r: Rows, m: Move)
    requires RowsOk(r) && Enabled(r, m) && m.SubmitMove? && AllFaithful(r)
    ensures AllFaithful(After(r, m))
  {
    G.EditsStayFaithful(r.versions[r.assignment.value.version].segments, m.dirty);
    SubmitIs(r, m);
    hide RowsOk, G.Faithful, FrozenCredit, SubmissionProblem, G.Apply;
  }

  lemma CloneKeepsFaithful(r: Rows, draft: VersionId)
    requires CloneClean(r, draft).Good? && AllFaithful(r)
    ensures AllFaithful(CloneClean(r, draft).value)
  {
    CleaningIsFaithful(r.versions[r.baseline.value].segments);
    hide G.Faithful;
  }

  lemma ReleaseKeepsFaithful(r: Rows)
    requires AllFaithful(r)
    ensures AllFaithful(Released(r))
  {
    hide G.Faithful;
  }

  lemma AdminKeepsFaithful(r: Rows, m: Move)
    requires Enabled(r, m) && (m.ResetMove? || m.RevokeMove? || m.RestoreMove?) && AllFaithful(r)
    ensures AllFaithful(After(r, m))
  {
    hide G.Faithful, Released, CloneClean, RevokeProblem;
    match m
    case ResetMove(draft) =>
      ReleaseKeepsFaithful(r);
      if r.status.Pending? && r.current.None? { CloneKeepsFaithful(Released(r), draft); }
    case RevokeMove(version, _, action, _, _, draft) =>
      ReleaseKeepsFaithful(r);
      CloneKeepsFaithful(Withdrawn(Released(r), version, action), draft);
    case RestoreMove(_, _) =>
  }

  lemma MoveKeepsFaithful(r: Rows, m: Move)
    requires RowsOk(r) && Enabled(r, m) && AllFaithful(r) && FaithfulRows(m)
    ensures AllFaithful(After(r, m))
  {
    hide RowsOk, Enabled, After, AllFaithful, FaithfulRows;
    if m.SubmitMove? { SubmitKeepsFaithful(r, m); }
    else if PlainMove(m) { PlainKeepsFaithful(r, m); }
    else { AdminKeepsFaithful(r, m); }
  }

  /* where a version that counts comes from */

  /** A version becomes published only by a submission or a restore, and revoked only by a revoke. */
  ghost predicate CameFrom(r: Rows, m: Move, v: VersionId, r': Rows) {
    v in r'.versions ==>
      && (r'.versions[v].lifecycle.Published? ==>
            v in r.versions && (r.versions[v].lifecycle.Published?
                                || (m.RestoreMove? && m.source in r.items && r.items[m.source].before == v)))
      && (r'.versions[v].lifecycle.Revoked? ==>
            v in r.versions && (r.versions[v].lifecycle.Revoked? || (m.RevokeMove? && v == m.version)))
  }

  lemma PlainCameFrom(r: Rows, m: Move, v: VersionId)
    requires RowsOk(r) && Enabled(r, m) && PlainMove(m)
    ensures CameFrom(r, m, v, After(r, m))
  {
    assert r.assignment.Some? ==> Some(r.assignment.value.version) == r.draft;
    hide RowsOk, Claimable, EditedVersion;
  }

  lemma ResetCameFrom(r: Rows, m: Move, v: VersionId)
    requires RowsOk(r) && Enabled(r, m) && m.ResetMove?
    ensures CameFrom(r, m, v, After(r, m))
  {
    ReleasedIsClosed(r);
    hide RowsOk;
  }

  lemma RevokeCameFrom(r: Rows, m: Move, v: VersionId)
    requires RowsOk(r) && Enabled(r, m) && m.RevokeMove?
    ensures CameFrom(r, m, v, After(r, m))
  {
    hide RowsOk, Enabled, After;
    RevokeHasEffect(r, m);
  }

  lemma RestoreCameFrom(r: Rows, m: Move, v: VersionId)
    requires RowsOk(r) && Enabled(r, m) && m.RestoreMove?
    ensures CameFrom(r, m, v, After(r, m))
  {
    hide RowsOk, Enabled, After;
    RestoreHasEffect(r, m);
  }

  lemma MoveCameFrom(r: Rows, m: Move, v: VersionId)
    requires RowsOk(r) && Enabled(r, m) && !m.SubmitMove?
    ensures CameFrom(r, m, v, After(r, m))
  {
    hide RowsOk, Enabled, After, CameFrom;
    match m
    case ResetMove(_) => ResetCameFrom(r, m, v);
    case RevokeMove(_, _, _, _, _, _) => RevokeCameFrom(r, m, v);
    case RestoreMove(_, _) => RestoreCameFrom(r, m, v);
    case _ => PlainCameFrom(r, m, v);
  }

  /** The length of the audio, the baseline and the audit rows. */
  predicate SameFrame(r: Rows, r': Rows) {
    r'.baseline == r.baseline && r'.duration == r.duration && r'.items == r.items
  }

  lemma ReleaseKeepsFrame(r: Rows)
    ensures SameFrame(r, Released(r))
  {
  }

  lemma CloneKeepsFrame(r: Rows, draft: VersionId)
    requires CloneClean(r, draft).Good?
    ensures SameFrame(r, CloneClean(r, draft).value)
  {
  }

  lemma RevokeKeepsFrame(r: Rows, m: Move)
    requires m.RevokeMove? && Enabled(r, m)
    ensures After(r, m).baseline == r.baseline && After(r, m).duration == r.duration
  {
    hide Released, CloneClean, RevokeProblem;
    ReleaseKeepsFrame(r);
    CloneKeepsFrame(Withdrawn(Released(r), m.version, m.action), m.draft);
  }

  lemma ResetKeepsFrame(r: Rows, m: Move)
    requires m.ResetMove? && Enabled(r, m)
    ensures SameFrame(r, After(r, m))
  {
    hide Released, CloneClean;
    ReleaseKeepsFrame(r);
    if r.status.Pending? && r.current.None? { CloneKeepsFrame(Released(r), m.draft); }
  }

  lemma OtherKeepsFrame(r: Rows, m: Move)
    requires Enabled(r, m) && !m.RevokeMove? && !m.ResetMove?
    ensures After(r, m).baseline == r.baseline && After(r, m).items == r.items
    ensures !m.RefreshMove? ==> After(r, m).duration == r.duration
  {
    hide EditedVersion, Reasons, SubmissionProblem, FrozenCredit, AsSubmitted, Superseding, Claimable, Revoke, Reset;
    hide IsProtected, SubmittedBy, Restorable;
  }

  lemma LengthStays(r: Rows, m: Move)
    requires Enabled(r, m)
    ensures After(r, m).baseline == r.baseline
    ensures !m.RefreshMove? ==> After(r, m).duration == r.duration
    ensures !m.RevokeMove? ==> After(r, m).items == r.items
  {
    hide Enabled, After;
    if m.RevokeMove? { RevokeKeepsFrame(r, m); }
    else if m.ResetMove? { ResetKeepsFrame(r, m); }
    else { OtherKeepsFrame(r, m); }
  }

  /** A clean draft was clean before, or it is the one this revoke makes. */
  lemma CleanWasClean(r: Rows, m: Move, a: ActionId)
    requires RowsOk(r) && Enabled(r, m) && RowsOk(After(r, m)) && a in r.items && a in After(r, m).items
    requires After(r, m).items[a] == r.items[a] && CleanDraft(After(r, m), r.items[a].after)
    ensures CleanDraft(r, r.items[a].after)
  {
    var w := r.items[a].after;
    assert ItemOk(r, a);
    if !r.versions[w].lifecycle.Baseline? {
      if !CleanDraft(r, w) { TouchedStaysTouched(r, m, w); }
    } else {
      BaselineStays(r, m, w);
    }
  }

  lemma BaselineStays(r: Rows, m: Move, w: VersionId)
    requires RowsOk(r) && Enabled(r, m) && RowsOk(After(r, m)) && w in r.versions && r.versions[w].lifecycle.Baseline?
    ensures w in After(r, m).versions ==> !After(r, m).versions[w].lifecycle.Draft?
  {
    LengthStays(r, m);
    assert VersionOk(r, w);
    hide Enabled, After;
    if w in After(r, m).versions { assert VersionOk(After(r, m), w); }
  }

  /* the bound over every change */

  /** A version that may be current after a change other than a submission or a refresh might have been before. */
  lemma StillMayBeCurrent(r: Rows, m: Move, v: VersionId)
    requires RowsOk(r) && Enabled(r, m) && !m.SubmitMove? && RowsOk(After(r, m)) && MayBeCurrent(After(r, m), v)
    ensures MayBeCurrent(r, v)
  {
    var r' := After(r, m);
    MoveCameFrom(r, m, v);
    if r'.versions[v].lifecycle.Published? {
      if !r.versions[v].lifecycle.Published? { RestoredMightBe(r, m); }
    } else if r.versions[v].lifecycle.Revoked? {
      var a :| a in r'.items && Undoes(r', a, v);
      ItemWasThere(r, m, a, v);
      hide RowsOk, Enabled, After;
      CleanWasClean(r, m, a);
      assert Undoes(r, a, v);
    } else {
      RevokedWasCurrent(r, m);
    }
  }

  lemma RestoredMightBe(r: Rows, m: Move)
    requires RowsOk(r) && Enabled(r, m) && m.RestoreMove?
    ensures m.source in r.items && MayBeCurrent(r, r.items[m.source].before)
  {
    assert Undoes(r, m.source, r.items[m.source].before);
  }

  lemma RevokedWasCurrent(r: Rows, m: Move)
    requires RowsOk(r) && Enabled(r, m) && m.RevokeMove?
    ensures MayBeCurrent(r, m.version)
  {
    hide RowsOk;
  }

  /** The audit row that undoes a version revoked earlier is not new. */
  lemma ItemWasThere(r: Rows, m: Move, a: ActionId, v: VersionId)
    requires RowsOk(r) && Enabled(r, m) && !m.SubmitMove? && a in After(r, m).items && After(r, m).items[a].before == v
    requires v in r.versions && r.versions[v].lifecycle.Revoked?
    ensures a in r.items && After(r, m).items[a] == r.items[a]
  {
    if m.RevokeMove? {
      assert VersionOk(r, v);
      hide RowsOk, Enabled, After;
      RevokeHasEffect(r, m);
    } else {
      LengthStays(r, m);
      hide RowsOk, Enabled, After;
    }
  }

  lemma ClosedStaysAsItWas(r: Rows, m: Move, v: VersionId)
    requires RowsOk(r) && Enabled(r, m) && MayBeCurrent(r, v)
    ensures v in After(r, m).versions && SameWork(r.versions[v], After(r, m).versions[v])
  {
    hide RowsOk, Enabled, After;
    MoveKeepsClosedWork(r, m, v);
  }

  lemma OtherKeepsCredits(r: Rows, m: Move)
    requires RowsOk(r) && Enabled(r, m) && !m.SubmitMove? && !m.RefreshMove? && CreditsFit(r)
    ensures CreditsFit(After(r, m))
  {
    MoveKeepsRows(r, m);
    LengthStays(r, m);
    hide RowsOk, Enabled, After, MayBeCurrent;
    forall v | MayBeCurrent(After(r, m), v)
      ensures v in After(r, m).versions && Bounded(After(r, m).versions[v], After(r, m).duration)
    {
      StillMayBeCurrent(r, m, v);
      ClosedStaysAsItWas(r, m, v);
    }
  }

  /** With the draft submitted, only the submission may be current. */
  lemma SubmitKeepsCredits(r: Rows, m: Move)
    requires RowsOk(r) && Enabled(r, m) && m.SubmitMove? && AllFaithful(r)
    ensures CreditsFit(After(r, m))
  {
    MoveKeepsRows(r, m);
    SubmissionCreditIsBounded(r, m);
    SubmitIs(r, m);
    LengthStays(r, m);
    var r', a := After(r, m), r.assignment.value.version;
    assert r'.draft.None? && r'.current == Some(a);
    hide Enabled, After, G.Faithful, FrozenCredit;
    NoneClean(r');
    forall v | MayBeCurrent(r', v) ensures v == a { assert VersionOk(r', v); }
  }

  lemma NoneClean(r: Rows)
    requires RowsOk(r) && (r.draft.Some? ==> r.draft.value in r.versions && !CleanDraft(r, r.draft.value))
    ensures forall a <- r.items :: !CleanDraft(r, r.items[a].after)
  {
    forall a | a in r.items ensures !CleanDraft(r, r.items[a].after) {
      if r.items[a].after in r.versions { assert VersionOk(r, r.items[a].after); }
    }
  }

  /** A refreshed task has no version that may be current. */
  lemma RefreshKeepsCredits(r: Rows, m: Move)
    requires RowsOk(r) && Enabled(r, m) && m.RefreshMove?
    ensures CreditsFit(After(r, m))
  {
    MoveKeepsRows(r, m);
    BaselineIsNotTheDraft(r);
    var r' := After(r, m);
    assert r'.current.None? && r'.draft.Some? && r'.draft.value in r'.versions && !CleanDraft(r', r'.draft.value);
    hide Enabled, After;
    NoneClean(r');
    forall v ensures !MayBeCurrent(r', v) {
      if v in r'.versions { assert VersionOk(r', v); }
    }
  }

  /** Faithful rows, and credits within the audio, stay so over every change. */
  ghost predicate Sound(r: Rows) {
    AllFaithful(r) && CreditsFit(r)
  }

  lemma MoveKeepsSound(r: Rows, m: Move)
    requires RowsOk(r) && Enabled(r, m) && Sound(r) && FaithfulRows(m)
    ensures Sound(After(r, m))
  {
    hide RowsOk, Enabled, After, AllFaithful, CreditsFit, FaithfulRows;
    MoveKeepsFaithful(r, m);
    if m.SubmitMove? {
      SubmitKeepsCredits(r, m);
    } else if m.RefreshMove? {
      RefreshKeepsCredits(r, m);
    } else {
      OtherKeepsCredits(r, m);
    }
  }

  lemma {:induction false} AdminKeepsSound(r: Rows, ms: seq<Move>)
    requires RowsOk(r) && EnabledAll(r, ms) && Sound(r) && forall m <- ms :: AdminMove(m)
    ensures Sound(AfterAll(r, ms))
    decreases |ms|
  {
    hide RowsOk, Enabled, After, Sound;
    if ms != [] {
      assert ms[0] in ms;
      MoveKeepsRows(r, ms[0]);
      MoveKeepsSound(r, ms[0]);
      AdminKeepsSound(After(r, ms[0]), ms[1..]);
    }
  }

  /* ---------- the store ---------- */

  ghost predicate FaithfulIngest(c: Command) {
    c.DoPreprocess? ==> 0.0 <= c.ingest.duration && G.Faithful(c.ingest.rows)
  }

  ghost predicate AllSound(db: Db) {
    forall t <- db.tasks :: Sound(db.tasks[t])
  }

  lemma AdminStaysSound(db: Db, c: Command, t: TaskId)
    requires Inv(db) && t in db.tasks && Sound(db.tasks[t]) && Administrative(c)
    ensures t in Step(db, c).0.tasks && Sound(Step(db, c).0.tasks[t])
  {
    RowsFit(db, t);
    hide Inv, Step, Enabled, After, RowsOk, Sound, Administrative;
    AdminIsQuiet(db, c, t);
    hide EnabledAll, AfterAll;
    var ms :| QuietBy(db.tasks[t], ms, Step(db, c).0.tasks[t]);
    AdminKeepsSound(db.tasks[t], ms);
  }

  lemma RefreshesAreFaithful(db: Db, c: Command, o: Outcome)
    requires FaithfulIngest(c) && MoveOf(db, c, o).Some?
    ensures FaithfulRows(MoveOf(db, c, o).value.1)
  {
    hide G.Faithful;
  }

  lemma OrdinaryStaysSound(db: Db, c: Command, t: TaskId)
    requires Inv(db) && t in db.tasks && Sound(db.tasks[t]) && FaithfulIngest(c) && !Administrative(c)
    ensures t in Step(db, c).0.tasks && Sound(Step(db, c).0.tasks[t])
  {
    hide Inv, Step, RowsOk, Sound, FaithfulIngest, FaithfulRows, Administrative, MoveOf, Moved, Enabled, After;
    RowsFit(db, t);
    OrdinaryStep(db, c);
    var change := MoveOf(db, c, Step(db, c).1);
    if change.Some? { RefreshesAreFaithful(db, c, Step(db, c).1); }
    MovedStaysSound(db, Step(db, c).0, change, t);
  }

  lemma MovedStaysSound(db: Db, db': Db, change: Option<(TaskId, Move)>, t: TaskId)
    requires Moved(db, db', change) && t in db.tasks && RowsOk(db.tasks[t]) && Sound(db.tasks[t])
    requires change.Some? ==> FaithfulRows(change.value.1)
    ensures t in db'.tasks && Sound(db'.tasks[t])
  {
    hide RowsOk, Sound, FaithfulRows, Enabled, After;
    if change.Some? && change.value.0 == t { MoveKeepsSound(db.tasks[t], change.value.1); }
  }

  lemma KnownTaskStaysSound(db: Db, c: Command, t: TaskId)
    requires Inv(db) && AllSound(db) && FaithfulIngest(c) && t in db.tasks
    ensures t in Step(db, c).0.tasks && Sound(Step(db, c).0.tasks[t])
  {
    hide Inv, Step, Sound, FaithfulIngest, Administrative;
    if Administrative(c) { AdminStaysSound(db, c, t); } else { OrdinaryStaysSound(db, c, t); }
  }

  lemma NewRowsAreSound(base: VersionId, draft: VersionId, i: Ingest)
    requires base != draft && 0.0 <= i.duration && G.Faithful(i.rows)
    ensures Sound(NewRows(base, draft, i.duration, i.rows, i.eligible))
  {
    hide G.Faithful;
  }

  lemma {:induction false} RunKeepsSound(db: Db, cs: seq<Command>)
    requires Inv(db) && AllSound(db) && forall c <- cs :: FaithfulIngest(c)
    ensures AllSound(Run(db, cs))
    decreases |cs|
  {
    hide Inv, Step, Sound;
    if cs != [] {
      var next := Step(db, cs[0]).0;
      assert cs[0] in cs;
      forall t | t in next.tasks ensures Sound(next.tasks[t]) {
        if t in db.tasks {
          KnownTaskStaysSound(db, cs[0], t);
        } else {
          NewTaskIs(db, cs[0], t);
          NewRowsAreSound(db.nextId + 1, db.nextId + 2, cs[0].ingest);
        }
      }
      StepKeepsInv(db, cs[0]);
      RunKeepsSound(next, cs[1..]);
    }
  }

  /** If the recogniser's segments have faithful times, then in every reachable state whatever a task's current version
      is credited with by segments, however it became current, is at most the length of the task's audio, up to 1.5 ms
      a row. */
  lemma CurrentCreditIsBounded(now: nat, policy: S.Policy, cs: seq<Command>, t: TaskId)
    requires forall c <- cs :: FaithfulIngest(c)
    requires t in Run(EmptyStore(now, policy), cs).tasks && Run(EmptyStore(now, policy), cs).tasks[t].current.Some?
    ensures var r := Run(EmptyStore(now, policy), cs).tasks[t];
            r.current.value in r.versions && Bounded(r.versions[r.current.value], r.duration)
  {
    var db := Run(EmptyStore(now, policy), cs);
    assert Inv(EmptyStore(now, policy));
    RunKeepsInv(EmptyStore(now, policy), cs);
    RunKeepsSound(EmptyStore(now, policy), cs);
    RowsFit(db, t);
    var r := db.tasks[t];
    hide Run, Inv;
    assert VersionOk(r, r.current.value) && MayBeCurrent(r, r.current.value);
  }
}
