/** What the rows of every task satisfy at all times, and the proof that no change breaks it. */
module TaskInvariant {
  import opened Common
  import opened TaskRows
  import G = Segments

  /** The lifecycles of a version that has been submitted at some time. */
  predicate Submitted(l: Lifecycle) {
    l.Published? || l.Superseded? || l.Revoked?
  }

  predicate IsLegacy(c: Option<Credit>) {
    c.Some? && c.value.basis.LegacyAudio?
  }

  /** A version is based on one that is no longer open; if that one is credited by audio length, it inherits the credit. */
  predicate BaseOk(r: Rows, ver: Version) {
    ver.base.Some? ==>
      && ver.base.value in r.versions
      && !r.versions[ver.base.value].lifecycle.Draft?
      && (ver.credit.Some? && IsLegacy(r.versions[ver.base.value].credit) ==>
            ver.credit == r.versions[ver.base.value].credit)
  }

  /** At most one version is open, at most one is published, at most one is the baseline, and the task row names them;
      exactly the versions that were submitted carry a submitter's credit. */
  predicate VersionOk(r: Rows, v: VersionId)
    requires v in r.versions
  {
    var ver := r.versions[v];
    && (ver.lifecycle.Draft? <==> r.draft == Some(v))
    && (ver.lifecycle.Published? <==> r.current == Some(v))
    && (ver.lifecycle.Baseline? <==> r.baseline == Some(v))
    && (if Submitted(ver.lifecycle) then ver.credit.Some? && !ver.target.Pending?
        else ver.credit.None? && ver.submitter.None?)
    && (ver.lifecycle.Revoked? <==> ver.revokedBy.Some?)
    && BaseOk(r, ver)
  }

  ghost predicate VersionsOk(r: Rows) {
    forall v <- r.versions :: VersionOk(r, v)
  }

  /** A task is pending exactly while it has no current version; a pending task has an open draft made from the
      baseline, and any other task has one only for a revision. */
  predicate TaskOk(r: Rows) {
    && r.baseline.Some? && r.baseline.value in r.versions
    && (r.status.Pending? <==> r.current.None?)
    && (r.draft.Some? ==> r.draft.value in r.versions)
    && (r.current.Some? ==> r.current.value in r.versions && r.versions[r.current.value].target == r.status)
    && (r.current.None? ==> r.draft.Some? && r.versions[r.draft.value].base == r.baseline)
    && (r.current.Some? && r.draft.Some? ==> r.assignment.Some?)
    && (r.reserved.Some? ==> r.current.None? && r.assignment.None?)
  }

  /** An assignment works on the open draft: a fresh annotation of a pending task, or a revision by the submitter of the
      current version, based on that version. */
  predicate AssignmentOk(r: Rows) {
    r.assignment.Some? ==>
      var a := r.assignment.value;
      && r.draft == Some(a.version) && a.version in r.versions
      && match r.current
         case None => a.mode.AnnotationMode?
         case Some(c) => a.mode.RevisionMode? && c in r.versions && r.versions[c].submitter == Some(a.user)
                         && r.versions[a.version].base == Some(c)
  }

  /** A blocked annotator neither holds the task nor is its current submitter. */
  predicate BlocksOk(r: Rows) {
    && (r.assignment.Some? ==> r.assignment.value.user !in r.blocks)
    && (forall u <- r.blocks :: !SubmittedBy(r, u))
  }

  /** While a clean draft is open, its task is not reserved, and a block on the revoked annotator can only be the one
      made with it. */
  predicate ItemOk(r: Rows, a: ActionId)
    requires a in r.items
  {
    var item := r.items[a];
    && item.before in r.versions && item.after in r.versions && item.before != item.after
    && r.versions[item.before].submitter == Some(item.annotator)
    && (r.versions[item.after].lifecycle.Draft? ==>
          && r.reserved.None?
          && (item.annotator in r.blocks ==> r.blocks[item.annotator] == a))
  }

  ghost predicate ItemsOk(r: Rows) {
    forall a <- r.items :: ItemOk(r, a)
  }

  ghost predicate RowsOk(r: Rows) {
    VersionsOk(r) && TaskOk(r) && AssignmentOk(r) && BlocksOk(r) && ItemsOk(r)
  }

  /* ---------- taking, saving and refreshing ---------- */

  lemma TakeKeepsRows(r: Rows, m: Move)
    requires RowsOk(r) && m.TakeMove? && Enabled(r, m)
    ensures RowsOk(After(r, m))
  {
    var r' := After(r, m);
    forall v | v in r'.versions ensures VersionOk(r', v) { assert VersionOk(r, v); }
    forall a | a in r'.items ensures ItemOk(r', a) { assert ItemOk(r, a); }
  }

  /** An edit of a version that leaves its place in the task's history alone. */
  predicate SameRole(ver: Version, ver': Version) {
    && ver'.lifecycle == ver.lifecycle && ver'.base == ver.base && ver'.credit == ver.credit
    && ver'.submitter == ver.submitter && ver'.target == ver.target && ver'.revokedBy == ver.revokedBy
  }

  lemma EditKeepsRows(r: Rows, v: VersionId, ver: Version)
    requires RowsOk(r) && v in r.versions && SameRole(r.versions[v], ver)
    ensures RowsOk(PutVersion(r, v, ver)) && PutVersion(r, v, ver) == r.(versions := r.versions[v := ver])
  {
    assert VersionOk(r, v);
    var r' := PutVersion(r, v, ver);
    forall w | w in r'.versions ensures VersionOk(r', w) { assert VersionOk(r, w); }
    forall a | a in r'.items ensures ItemOk(r', a) { assert ItemOk(r, a); }
  }

  lemma RefreshKeepsRows(r: Rows, m: Move)
    requires RowsOk(r) && m.RefreshMove? && Enabled(r, m)
    ensures RowsOk(After(r, m))
  {
    var ver := r.versions[r.draft.value];
    var r1 := PutVersion(r, r.draft.value, ver.(segments := m.rows, revision := ver.revision + 1));
    EditKeepsRows(r, r.draft.value, ver.(segments := m.rows, revision := ver.revision + 1));
    var base := r1.versions[r.baseline.value];
    EditKeepsRows(r1, r.baseline.value, base.(segments := m.rows));
    var r2 := PutVersion(r1, r.baseline.value, base.(segments := m.rows));
    var r' := After(r, m);
    assert r' == r2.(duration := m.duration, eligible := m.eligible);
    forall v | v in r'.versions ensures VersionOk(r', v) { assert VersionOk(r2, v); }
    forall a | a in r'.items ensures ItemOk(r', a) { assert ItemOk(r2, a); }
  }

  lemma SaveKeepsRows(r: Rows, m: Move)
    requires RowsOk(r) && m.SaveMove? && Enabled(r, m)
    ensures RowsOk(After(r, m))
  {
    var v := r.assignment.value.version;
    EditKeepsRows(r, v, Saved(EditedVersion(r, v, m.expected, m.dirty).value));
  }

  /* ---------- giving up and reopening ---------- */

  /** The rows with the open draft abandoned and nobody working on the task. */
  function Closed(r: Rows): Rows
    requires r.draft.Some? ==> r.draft.value in r.versions
  {
    if r.draft.None? then r else
      var d := r.draft.value;
      r.(versions := r.versions[d := r.versions[d].(lifecycle := Abandoned)], draft := None, assignment := None)
  }

  lemma ReleasedIsClosed(r: Rows)
    requires RowsOk(r)
    ensures Released(r) == Closed(r)
  {
    if r.draft.Some? { assert VersionOk(r, r.draft.value); }
  }

  lemma ClosedVersions(r: Rows)
    requires RowsOk(r)
    ensures VersionsOk(Closed(r)) && ItemsOk(Closed(r))
  {
    var r' := Closed(r);
    forall v | v in r'.versions ensures VersionOk(r', v) { assert VersionOk(r, v); }
    forall a | a in r'.items ensures ItemOk(r', a) { assert ItemOk(r, a); }
  }

  /** For a published task the result is the task with its current version and no draft. */
  lemma ClosedKeepsRows(r: Rows)
    requires RowsOk(r) && r.current.Some?
    ensures RowsOk(Closed(r))
  {
    ClosedVersions(r);
    assert VersionOk(r, r.current.value);
  }

  lemma GiveUpKeepsRows(r: Rows, m: Move)
    requires RowsOk(r) && m.GiveUpMove? && Enabled(r, m)
    ensures RowsOk(After(r, m))
  {
    var r' := After(r, m);
    if r.current.Some? {
      assert VersionOk(r, r.draft.value);
      assert r' == Closed(r);
      ClosedKeepsRows(r);
    } else {
      forall v | v in r'.versions ensures VersionOk(r', v) { assert VersionOk(r, v); }
      forall a | a in r'.items ensures ItemOk(r', a) { assert ItemOk(r, a); }
    }
  }

  lemma ReviseKeepsRows(r: Rows, m: Move)
    requires RowsOk(r) && m.ReviseMove? && Enabled(r, m)
    ensures RowsOk(After(r, m))
  {
    var r' := After(r, m);
    assert VersionOk(r, r.current.value);
    forall v | v in r'.versions ensures VersionOk(r', v) { if v != m.draft { assert VersionOk(r, v); } }
    forall a | a in r'.items ensures ItemOk(r', a) { assert ItemOk(r, a); }
  }

  lemma UnreserveKeepsRows(r: Rows, m: Move)
    requires RowsOk(r) && m.UnreserveMove?
    ensures RowsOk(After(r, m))
  {
    var r' := After(r, m);
    forall v | v in r'.versions ensures VersionOk(r', v) { assert VersionOk(r, v); }
    forall a | a in r'.items ensures ItemOk(r', a) { assert ItemOk(r, a); }
  }

  /* ---------- the clean draft ---------- */

  /** Rows that are in order except that a pending task still lacks its draft. */
  ghost predicate Draftless(r: Rows) {
    && VersionsOk(r) && BlocksOk(r) && ItemsOk(r)
    && r.status.Pending? && r.current.None? && r.draft.None? && r.assignment.None?
    && r.baseline.Some? && r.baseline.value in r.versions
  }

  lemma CloneMakesRows(r: Rows, draft: VersionId)
    requires Draftless(r) && draft !in r.versions
    ensures CloneClean(r, draft).Good? && RowsOk(CloneClean(r, draft).value)
  {
    assert VersionOk(r, r.baseline.value);
    var r' := CloneClean(r, draft).value;
    forall v | v in r'.versions ensures VersionOk(r', v) { if v != draft { assert VersionOk(r, v); } }
    forall a | a in r'.items ensures ItemOk(r', a) { assert ItemOk(r, a); }
  }

  lemma ResetKeepsRows(r: Rows, draft: VersionId)
    requires RowsOk(r) && draft !in r.versions
    ensures Reset(r, draft).Good? && RowsOk(Reset(r, draft).value)
  {
    ReleasedIsClosed(r);
    if r.current.Some? {
      ClosedKeepsRows(r);
    } else {
      ClosedVersions(r);
      CloneMakesRows(Closed(r), draft);
    }
  }

  /* ---------- revoking ---------- */

  lemma WithdrawnIsDraftless(r: Rows, action: ActionId)
    requires RowsOk(r) && r.current.Some? && r.draft.None? && r.assignment.None?
    ensures Draftless(Withdrawn(r, r.current.value, action))
  {
    var r' := Withdrawn(r, r.current.value, action);
    assert VersionOk(r, r.current.value);
    forall v | v in r'.versions ensures VersionOk(r', v) { assert VersionOk(r, v); }
    forall a | a in r'.items ensures ItemOk(r', a) { assert ItemOk(r, a); }
  }

  lemma AuditedKeepsRows(r: Rows, item: Item, action: ActionId, block: bool)
    requires RowsOk(r) && r.current.None? && r.assignment.None? && r.reserved.None? && action !in r.items
    requires item.before in r.versions && r.draft == Some(item.after) && item.before != item.after
    requires r.versions[item.before].submitter == Some(item.annotator) && item.annotator !in r.blocks
    requires forall a <- r.items :: !r.versions[r.items[a].after].lifecycle.Draft?
    ensures RowsOk(Audited(r, item, action, block))
  {
    var r' := Audited(r, item, action, block);
    forall v | v in r'.versions ensures VersionOk(r', v) { assert VersionOk(r, v); }
    forall a | a in r'.items ensures ItemOk(r', a) { if a != action { assert ItemOk(r, a); } }
  }

  /** The rows a revoke passes through just before the clean draft is made. */
  lemma BareIsDraftless(r: Rows, action: ActionId)
    requires RowsOk(r) && r.current.Some?
    ensures Released(r) == Closed(r) && RowsOk(Closed(r)) && r.current.value in Closed(r).versions
    ensures Draftless(Withdrawn(Closed(r), r.current.value, action))
  {
    ReleasedIsClosed(r);
    ClosedKeepsRows(r);
    WithdrawnIsDraftless(Closed(r), action);
  }

  /** On rows that are in order a revoke goes through exactly when the expected version is the annotator's current one
      and no open work is in the way, or may be released. */
  lemma RevokeSucceeds(r: Rows, expected: VersionId, annotator: UserId, action: ActionId, block: bool, release: bool,
                       draft: VersionId)
    requires RowsOk(r) && draft !in r.versions
    ensures Revoke(r, expected, annotator, action, block, release, draft).Good? <==>
            r.current == Some(expected) && SubmittedBy(r, annotator) && (r.draft.None? || release)
  {
    if r.current.Some? {
      assert VersionOk(r, r.current.value);
      BareIsDraftless(r, action);
      CloneMakesRows(Withdrawn(Closed(r), r.current.value, action), draft);
    }
  }

  lemma RevokeIs(r: Rows, expected: VersionId, annotator: UserId, action: ActionId, block: bool, release: bool,
                 draft: VersionId)
    requires RowsOk(r) && draft !in r.versions
    requires Revoke(r, expected, annotator, action, block, release, draft).Good?
    ensures r.current == Some(expected) && expected in r.versions && expected in Closed(r).versions
    ensures SubmittedBy(r, annotator)
    ensures Draftless(Withdrawn(Closed(r), expected, action))
    ensures CloneClean(Withdrawn(Closed(r), expected, action), draft).Good?
    ensures Revoke(r, expected, annotator, action, block, release, draft) ==
            Good(Audited(CloneClean(Withdrawn(Closed(r), expected, action), draft).value,
                         Item(annotator, expected, draft), action, block))
  {
    BareIsDraftless(r, action);
  }

  lemma AuditedCloneIsOk(bare: Rows, item: Item, action: ActionId, block: bool)
    requires Draftless(bare) && bare.reserved.None? && action !in bare.items && item.after !in bare.versions
    requires item.before in bare.versions && bare.versions[item.before].submitter == Some(item.annotator)
    requires item.annotator !in bare.blocks
    ensures CloneClean(bare, item.after).Good? && RowsOk(Audited(CloneClean(bare, item.after).value, item, action, block))
  {
    CloneMakesRows(bare, item.after);
    var cloned := CloneClean(bare, item.after).value;
    forall a | a in cloned.items
      ensures !cloned.versions[cloned.items[a].after].lifecycle.Draft?
    {
      assert ItemOk(bare, a) && VersionOk(bare, bare.items[a].after);
    }
    AuditedKeepsRows(cloned, item, action, block);
  }

  lemma BareFacts(r: Rows, action: ActionId)
    requires RowsOk(r) && r.current.Some? && r.current.value in Closed(r).versions
    ensures var bare := Withdrawn(Closed(r), r.current.value, action);
            && bare.reserved.None? && bare.blocks == r.blocks && bare.items == r.items
            && bare.versions.Keys == r.versions.Keys
            && bare.versions[r.current.value].submitter == r.versions[r.current.value].submitter
  {
    assert VersionOk(r, r.current.value);
  }

  lemma RevokedRowsOk(r: Rows, expected: VersionId, annotator: UserId, action: ActionId, block: bool, release: bool,
                      draft: VersionId)
    requires RowsOk(r) && draft !in r.versions && action !in r.items
    requires Revoke(r, expected, annotator, action, block, release, draft).Good?
    ensures RowsOk(Revoke(r, expected, annotator, action, block, release, draft).value)
  {
    RevokeIs(r, expected, annotator, action, block, release, draft);
    BareFacts(r, action);
    AuditedCloneIsOk(Withdrawn(Closed(r), expected, action), Item(annotator, expected, draft), action, block);
  }

  lemma RevokeKeepsRows(r: Rows, m: Move)
    requires RowsOk(r) && m.RevokeMove? && Enabled(r, m)
    ensures RowsOk(After(r, m))
  {
    RevokedRowsOk(r, m.version, m.annotator, m.action, m.block, m.release, m.draft);
  }

  /* ---------- restoring ---------- */

  /** The shape of a restore on rows that are in order. */
  lemma PutBackIs(r: Rows, source: ActionId)
    requires RowsOk(r) && source in r.items
    requires CleanDraft(r, r.items[source].after) && RevokedBy(r, r.items[source].before, r.items[source].annotator, source)
    ensures PutBack(r, source) ==
            var item := r.items[source];
            var was := r.versions[item.before];
            r.(versions := r.versions[item.after := r.versions[item.after].(lifecycle := Abandoned)]
                                     [item.before := was.(lifecycle := Published, revokedBy := None)],
               draft := None, status := was.target, current := Some(item.before),
               blocks := if item.annotator in r.blocks && r.blocks[item.annotator] == source
                         then r.blocks - {item.annotator} else r.blocks)
  {
    assert ItemOk(r, source);
    assert VersionOk(r, r.items[source].after);
  }

  /** What a restore starts from: the clean draft is the open version, the revoked one is its annotator's. */
  lemma RestoreStarts(r: Rows, m: Move)
    requires RowsOk(r) && m.RestoreMove? && Enabled(r, m)
    ensures m.source in r.items
    ensures var item := r.items[m.source];
            && r.draft == Some(item.after) && r.current.None? && r.assignment.None? && r.reserved.None?
            && item.before != item.after && item.before in r.versions && item.after in r.versions
            && r.versions[item.before].lifecycle.Revoked? && r.versions[item.before].submitter == Some(item.annotator)
            && (item.annotator in r.blocks ==> r.blocks[item.annotator] == m.source)
            && VersionOk(r, item.before) && VersionOk(r, item.after)
            && CleanDraft(r, item.after) && RevokedBy(r, item.before, item.annotator, m.source)
  {
    var item := r.items[m.source];
    assert ItemOk(r, m.source) && VersionOk(r, item.after) && VersionOk(r, item.before);
  }

  lemma RestoreKeepsVersion(r: Rows, m: Move, v: VersionId)
    requires RowsOk(r) && m.RestoreMove? && Enabled(r, m) && v in After(r, m).versions
    ensures VersionOk(After(r, m), v)
  {
    hide PutBack, Restorable, TaskOk, AssignmentOk, BlocksOk, ItemsOk;
    RestoreStarts(r, m);
    PutBackIs(r, m.source);
    assert v in r.versions && VersionOk(r, v);
  }

  lemma RestoreKeepsItems(r: Rows, m: Move)
    requires RowsOk(r) && m.RestoreMove? && Enabled(r, m)
    ensures ItemsOk(After(r, m))
  {
    RestoreStarts(r, m);
    PutBackIs(r, m.source);
    var r' := After(r, m);
    hide PutBack, Restorable, After, TaskOk, AssignmentOk, BlocksOk, VersionsOk;
    forall a | a in r'.items ensures ItemOk(r', a) { assert ItemOk(r, a); }
  }

  lemma RestoreKeepsRows(r: Rows, m: Move)
    requires RowsOk(r) && m.RestoreMove? && Enabled(r, m)
    ensures RowsOk(After(r, m))
  {
    forall v | v in After(r, m).versions ensures VersionOk(After(r, m), v) { RestoreKeepsVersion(r, m, v); }
    RestoreKeepsItems(r, m);
    RestoreStarts(r, m);
    PutBackIs(r, m.source);
    var r' := After(r, m);
    hide PutBack, Restorable, After, VersionsOk, ItemsOk, AssignmentOk;
    assert r'.assignment.None?;
    assert r.items[m.source].annotator !in r'.blocks;
  }

  /* ---------- submitting ---------- */

  lemma SubmitIs(r: Rows, m: Move)
    requires RowsOk(r) && m.SubmitMove? && Enabled(r, m)
    ensures var a := r.assignment.value;
            var ver := EditedVersion(r, a.version, m.expected, m.dirty).value;
            After(r, m) ==
              r.(versions := Superseding(r.versions, a.version)
                   [a.version := AsSubmitted(ver, a.user, m.target, Reasons(m.target, m.reasons).value,
                                             FrozenCredit(r, ver, a, m.target))],
                 draft := None, status := m.target, current := Some(a.version), reserved := None, assignment := None)
  {
    assert VersionOk(r, r.assignment.value.version);
  }

  /** A draft inherits its credit exactly when it revises a version credited by audio length. */
  lemma CreditIsInherited(r: Rows, ver: Version, a: Assignment, target: Status)
    requires RowsOk(r) && r.assignment == Some(a) && ver.base == r.versions[a.version].base
    ensures ver.base.Some? && ver.base.value in r.versions && IsLegacy(r.versions[ver.base.value].credit) ==>
              Some(FrozenCredit(r, ver, a, target)) == r.versions[ver.base.value].credit
  {
    assert VersionOk(r, a.version);
    if ver.base.Some? { assert VersionOk(r, ver.base.value); }
  }

  lemma SubmitKeepsVersions(r: Rows, m: Move)
    requires RowsOk(r) && m.SubmitMove? && Enabled(r, m)
    ensures VersionsOk(After(r, m))
  {
    SubmitIs(r, m);
    var a := r.assignment.value;
    var ver := EditedVersion(r, a.version, m.expected, m.dirty).value;
    CreditIsInherited(r, ver, a, m.target);
    var r' := After(r, m);
    assert VersionOk(r, a.version);
    forall v | v in r'.versions ensures VersionOk(r', v) {
      assert VersionOk(r, v);
      if r.versions[v].base.Some? { assert VersionOk(r, r.versions[v].base.value); }
    }
  }

  lemma SubmitKeepsRows(r: Rows, m: Move)
    requires RowsOk(r) && m.SubmitMove? && Enabled(r, m)
    ensures RowsOk(After(r, m))
  {
    hide After, FrozenCredit, SubmissionProblem, EditedVersion, VersionsOk, ItemsOk;
    SubmitKeepsVersions(r, m);
    SubmitKeepsItems(r, m);
    SubmitIs(r, m);
    SubmitsTheDraft(r, m);
  }

  lemma SubmitsTheDraft(r: Rows, m: Move)
    requires RowsOk(r) && m.SubmitMove? && Enabled(r, m)
    ensures r.draft == Some(r.assignment.value.version) && r.assignment.value.version in r.versions
    ensures VersionOk(r, r.assignment.value.version)
  {
    hide After, FrozenCredit, SubmissionProblem, EditedVersion;
  }

  lemma SubmitKeepsItems(r: Rows, m: Move)
    requires RowsOk(r) && m.SubmitMove? && Enabled(r, m)
    ensures ItemsOk(After(r, m))
  {
    hide After, FrozenCredit, SubmissionProblem, EditedVersion;
    SubmitIs(r, m);
    SubmitsTheDraft(r, m);
    var r' := After(r, m);
    forall a | a in r'.items ensures ItemOk(r', a) { assert ItemOk(r, a); assert VersionOk(r, r.items[a].before); }
  }

  /* ---------- all changes ---------- */

  lemma MoveKeepsRows(r: Rows, m: Move)
    requires RowsOk(r) && Enabled(r, m)
    ensures RowsOk(After(r, m))
  {
    match m
    case TakeMove(_, _, _) => TakeKeepsRows(r, m);
    case SaveMove(_, _) => SaveKeepsRows(r, m);
    case SubmitMove(_, _, _, _) => SubmitKeepsRows(r, m);
    case GiveUpMove => GiveUpKeepsRows(r, m);
    case ReviseMove(_, _, _) => ReviseKeepsRows(r, m);
    case ResetMove(draft) => ResetKeepsRows(r, draft);
    case UnreserveMove(_) => UnreserveKeepsRows(r, m);
    case RevokeMove(_, _, _, _, _, _) => RevokeKeepsRows(r, m);
    case RestoreMove(_, _) => RestoreKeepsRows(r, m);
    case RefreshMove(_, _, _) => RefreshKeepsRows(r, m);
  }

  lemma {:induction false} MovesKeepRows(r: Rows, ms: seq<Move>)
    requires RowsOk(r) && EnabledAll(r, ms)
    ensures RowsOk(AfterAll(r, ms))
    decreases |ms|
  {
    if ms != [] {
      MoveKeepsRows(r, ms[0]);
      MovesKeepRows(After(r, ms[0]), ms[1..]);
    }
  }

  lemma NewTaskRowsOk(base: VersionId, draft: VersionId, duration: real, rows: G.Table, eligible: bool)
    requires base != draft
    ensures RowsOk(NewRows(base, draft, duration, rows, eligible))
  {
    var r := NewRows(base, draft, duration, rows, eligible);
    forall v | v in r.versions ensures VersionOk(r, v) { assert v == base || v == draft; }
  }

  /** What a pending task has in its version rows: one open version and no published one. */
  ghost predicate OneDraft(r: Rows) {
    && (exists d <- r.versions :: r.versions[d].lifecycle.Draft? &&
          forall v <- r.versions :: r.versions[v].lifecycle.Draft? ==> v == d)
    && (forall v <- r.versions :: !r.versions[v].lifecycle.Published?)
  }

  /** What any other task has: one published version, which carries the task's status, and an open one only under its
      own submitter's revision. */
  ghost predicate OnePublished(r: Rows) {
    && r.current.Some? && r.current.value in r.versions && r.versions[r.current.value].target == r.status
    && (forall v <- r.versions :: r.versions[v].lifecycle.Published? <==> v == r.current.value)
    && (forall v <- r.versions :: r.versions[v].lifecycle.Draft? ==> RevisedBySubmitter(r, v))
  }

  predicate RevisedBySubmitter(r: Rows, v: VersionId) {
    && r.assignment.Some? && r.assignment.value.version == v && r.assignment.value.mode.RevisionMode?
    && SubmittedBy(r, r.assignment.value.user)
  }

  /** The columns `draft` and `current` say no more than the version rows do. */
  lemma OneDraftOrOnePublished(r: Rows)
    requires RowsOk(r)
    ensures if r.status.Pending? then OneDraft(r) else OnePublished(r)
  {
    hide BlocksOk, ItemsOk;
    if r.status.Pending? {
      var d := r.draft.value;
      assert VersionOk(r, d);
      forall v | v in r.versions
        ensures !r.versions[v].lifecycle.Published? && (r.versions[v].lifecycle.Draft? ==> v == d)
      {
        assert VersionOk(r, v);
      }
    } else {
      forall v | v in r.versions
        ensures r.versions[v].lifecycle.Published? <==> v == r.current.value
        ensures r.versions[v].lifecycle.Draft? ==> RevisedBySubmitter(r, v)
      {
        assert VersionOk(r, v);
      }
    }
  }
}
