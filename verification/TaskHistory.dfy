/** What holds over every sequence of changes to a task: submitted work is immutable, a version is the fold of its
    accepted edits, a restore undoes its revoke exactly, and credit given by audio length is passed on unchanged. */
module TaskHistory {
  import opened Common
  import opened TaskRows
  import opened TaskInvariant
  import G = Segments

  /* ---------- the effect of the administrative changes ---------- */

  lemma BareVersions(r: Rows, action: ActionId)
    requires RowsOk(r) && r.current.Some? && r.current.value in Closed(r).versions
    ensures var bare := Withdrawn(Closed(r), r.current.value, action);
            && bare.versions.Keys == r.versions.Keys
            && r.current.value in r.versions
            && bare.versions[r.current.value] ==
               r.versions[r.current.value].(lifecycle := Revoked, revokedBy := Some(action))
            && (forall v <- r.versions :: v != r.current.value ==> bare.versions[v] == Closed(r).versions[v])
            && bare.duration == r.duration && bare.eligible == r.eligible && bare.baseline == r.baseline
            && bare.blocks == r.blocks && bare.items == r.items && bare.reserved.None?
            && bare.status.Pending? && bare.current.None? && bare.assignment.None? && bare.draft.None?
  {
    CurrentIsNotTheDraft(r);
    hide RowsOk;
  }

  lemma CurrentIsNotTheDraft(r: Rows)
    requires RowsOk(r) && r.current.Some?
    ensures r.current.value in r.versions && r.draft != r.current && (r.draft.Some? ==> r.draft.value in r.versions)
    ensures r.draft.Some? ==> r.assignment.Some?
    ensures r.assignment.Some? ==> r.draft.Some?
  {
    assert VersionOk(r, r.current.value);
  }

  /** A clean draft joins the rows; nothing else changes. */
  ghost predicate CloneEffect(r: Rows, draft: VersionId, r': Rows) {
    && r'.versions.Keys == r.versions.Keys + {draft}
    && (forall v <- r.versions :: r'.versions[v] == r.versions[v])
    && r'.versions[draft].lifecycle.Draft? && r'.versions[draft].revision == 0 && !r'.versions[draft].humanModified
    && r' == r.(versions := r'.versions, draft := Some(draft))
  }

  lemma CloneHasEffect(r: Rows, draft: VersionId)
    requires CloneClean(r, draft).Good? && draft !in r.versions
    ensures CloneEffect(r, draft, CloneClean(r, draft).value)
  {
  }

  /** What a revoke leaves: the withdrawn version, the abandoned draft if there was one, the clean draft, the block and
      the audit row; all else is as before. */
  ghost predicate RevokeEffect(r: Rows, m: Move, r': Rows)
    requires m.RevokeMove?
  {
    && m.version in r.versions && r.current == Some(m.version) && r.draft != Some(m.version)
    && (r.draft.Some? ==> r.draft.value in r.versions)
    && r'.versions.Keys == r.versions.Keys + {m.draft}
    && r'.versions[m.version] == r.versions[m.version].(lifecycle := Revoked, revokedBy := Some(m.action))
    && (forall v <- r.versions :: v != m.version ==> r'.versions[v] == Closed(r).versions[v])
    && r'.versions[m.draft].lifecycle.Draft? && r'.versions[m.draft].revision == 0
    && !r'.versions[m.draft].humanModified
    && r'.draft == Some(m.draft) && r'.status.Pending? && r'.current.None? && r'.reserved.None? && r'.assignment.None?
    && r'.duration == r.duration && r'.eligible == r.eligible && r'.baseline == r.baseline
    && r'.blocks == (if m.block then r.blocks[m.annotator := m.action] else r.blocks)
    && r'.items == r.items[m.action := Item(m.annotator, m.version, m.draft)]
  }

  lemma AuditedBareHasEffect(r: Rows, m: Move, bare: Rows, cloned: Rows)
    requires RowsOk(r) && m.RevokeMove? && r.current == Some(m.version) && m.version in Closed(r).versions
    requires bare == Withdrawn(Closed(r), m.version, m.action) && m.draft !in r.versions
    requires CloneEffect(bare, m.draft, cloned)
    ensures RevokeEffect(r, m, Audited(cloned, Item(m.annotator, m.version, m.draft), m.action, m.block))
  {
    BareVersions(r, m.action);
    assert VersionOk(r, m.version);
  }

  lemma RevokeHasEffect(r: Rows, m: Move)
    requires RowsOk(r) && m.RevokeMove? && Enabled(r, m)
    ensures RevokeEffect(r, m, After(r, m)) && SubmittedBy(r, m.annotator)
  {
    RevokeIs(r, m.version, m.annotator, m.action, m.block, m.release, m.draft);
    var bare := Withdrawn(Closed(r), m.version, m.action);
    BareFacts(r, m.action);
    CloneHasEffect(bare, m.draft);
    AuditedBareHasEffect(r, m, bare, CloneClean(bare, m.draft).value);
  }

  /** What a release leaves: the abandoned draft and, for a pending task, a clean one. */
  ghost predicate ResetEffect(r: Rows, m: Move, r': Rows)
    requires m.ResetMove?
  {
    && (r.draft.Some? ==> r.draft.value in r.versions)
    && r.versions.Keys <= r'.versions.Keys
    && (forall v <- r.versions :: r'.versions[v] == Closed(r).versions[v])
    && r'.items == r.items && r'.blocks == r.blocks
  }

  lemma ResetHasEffect(r: Rows, m: Move)
    requires RowsOk(r) && m.ResetMove? && Enabled(r, m)
    ensures ResetEffect(r, m, After(r, m))
  {
    ReleasedIsClosed(r);
  }

  ghost predicate RestoreEffect(r: Rows, m: Move, r': Rows)
    requires m.RestoreMove?
  {
    && m.source in r.items
    && r'.items == r.items
    && var item := r.items[m.source];
      && item.before in r.versions && item.after in r.versions && item.before != item.after
      && r'.versions == r.versions[item.after := r.versions[item.after].(lifecycle := Abandoned)]
                                  [item.before := r.versions[item.before].(lifecycle := Published, revokedBy := None)]
  }

  lemma RestoreHasEffect(r: Rows, m: Move)
    requires RowsOk(r) && m.RestoreMove? && Enabled(r, m)
    ensures RestoreEffect(r, m, After(r, m))
  {
    assert ItemOk(r, m.source);
    PutBackIs(r, m.source);
  }

  /* ---------- submitted work is immutable ---------- */

  /** The version is neither open nor the baseline. */
  predicate IsClosedVersion(r: Rows, v: VersionId) {
    v in r.versions && !r.versions[v].lifecycle.Draft? && !r.versions[v].lifecycle.Baseline?
  }

  /** Everything a submission consists of; only the lifecycle and the mark of a revoke may still change. */
  predicate SameWork(ver: Version, ver': Version) {
    && ver'.segments == ver.segments && ver'.credit == ver.credit && ver'.submitter == ver.submitter
    && ver'.target == ver.target && ver'.skipReasons == ver.skipReasons && ver'.base == ver.base
    && ver'.revision == ver.revision
  }

  lemma SubmitKeepsClosedWork(r: Rows, m: Move, v: VersionId)
    requires RowsOk(r) && Enabled(r, m) && m.SubmitMove? && IsClosedVersion(r, v)
    ensures IsClosedVersion(After(r, m), v) && SameWork(r.versions[v], After(r, m).versions[v])
  {
    SubmitIs(r, m);
    assert VersionOk(r, r.assignment.value.version);
  }

  lemma ResetKeepsClosedWork(r: Rows, m: Move, v: VersionId)
    requires RowsOk(r) && Enabled(r, m) && m.ResetMove? && IsClosedVersion(r, v)
    ensures IsClosedVersion(After(r, m), v) && SameWork(r.versions[v], After(r, m).versions[v])
  {
    assert r.draft != Some(v) by { assert VersionOk(r, v); }
    hide RowsOk, Enabled, After;
    ResetHasEffect(r, m);
  }

  lemma RevokeKeepsClosedWork(r: Rows, m: Move, v: VersionId)
    requires RowsOk(r) && Enabled(r, m) && m.RevokeMove? && IsClosedVersion(r, v)
    ensures IsClosedVersion(After(r, m), v) && SameWork(r.versions[v], After(r, m).versions[v])
  {
    assert r.draft != Some(v) by { assert VersionOk(r, v); }
    hide RowsOk, Enabled, After;
    RevokeHasEffect(r, m);
  }

  lemma RestoreKeepsClosedWork(r: Rows, m: Move, v: VersionId)
    requires RowsOk(r) && Enabled(r, m) && m.RestoreMove? && IsClosedVersion(r, v)
    ensures IsClosedVersion(After(r, m), v) && SameWork(r.versions[v], After(r, m).versions[v])
  {
    hide RowsOk, Enabled, After;
    RestoreHasEffect(r, m);
  }

  predicate PlainMove(m: Move) {
    !m.SubmitMove? && !m.ResetMove? && !m.RevokeMove? && !m.RestoreMove?
  }

  lemma PlainMoveKeepsClosedWork(r: Rows, m: Move, v: VersionId)
    requires RowsOk(r) && Enabled(r, m) && PlainMove(m) && IsClosedVersion(r, v)
    ensures IsClosedVersion(After(r, m), v) && SameWork(r.versions[v], After(r, m).versions[v])
  {
    hide Claimable, Revoke, Reset, Restorable, SubmissionProblem, PublishedRows, PutBack, VersionsOk, BlocksOk, ItemsOk;
    ClosedIsElsewhere(r, v);
    assert r.assignment.Some? ==> Some(r.assignment.value.version) == r.draft;
    hide TaskOk, AssignmentOk;
  }

  lemma ClosedIsElsewhere(r: Rows, v: VersionId)
    requires RowsOk(r) && IsClosedVersion(r, v)
    ensures r.draft != Some(v) && r.baseline != Some(v)
  {
    assert VersionOk(r, v);
  }

  lemma MoveKeepsClosedWork(r: Rows, m: Move, v: VersionId)
    requires RowsOk(r) && Enabled(r, m) && IsClosedVersion(r, v)
    ensures IsClosedVersion(After(r, m), v) && SameWork(r.versions[v], After(r, m).versions[v])
  {
    hide RowsOk, Enabled, After, IsClosedVersion, SameWork;
    if m.SubmitMove? {
      SubmitKeepsClosedWork(r, m, v);
    } else if PlainMove(m) {
      PlainMoveKeepsClosedWork(r, m, v);
    } else if m.ResetMove? {
      ResetKeepsClosedWork(r, m, v);
    } else if m.RevokeMove? {
      RevokeKeepsClosedWork(r, m, v);
    } else {
      RestoreKeepsClosedWork(r, m, v);
    }
  }

  /** Once a version has left the draft state, its segments, credit, submitter and outcome never change again. */
  lemma {:induction false} ClosedWorkIsImmutable(r: Rows, ms: seq<Move>, v: VersionId)
    requires RowsOk(r) && EnabledAll(r, ms) && IsClosedVersion(r, v)
    ensures IsClosedVersion(AfterAll(r, ms), v) && SameWork(r.versions[v], AfterAll(r, ms).versions[v])
    decreases |ms|
  {
    if ms != [] {
      MoveKeepsRows(r, ms[0]);
      MoveKeepsClosedWork(r, ms[0], v);
      ClosedWorkIsImmutable(After(r, ms[0]), ms[1..], v);
    }
  }

  /* ---------- a version is the fold of its accepted edits ---------- */

  datatype Edit = Patch(expected: int, dirty: seq<G.Dirty>) | Replace(rows: G.Table)

  /** The edits a change makes to a version's segments. */
  function EditsOf(r: Rows, m: Move, v: VersionId): seq<Edit> {
    match m
    case SaveMove(expected, dirty) =>
      if r.assignment.Some? && r.assignment.value.version == v then [Patch(expected, dirty)] else []
    case SubmitMove(expected, dirty, _, _) =>
      if r.assignment.Some? && r.assignment.value.version == v then [Patch(expected, dirty)] else []
    case RefreshMove(_, rows, _) => if r.draft == Some(v) then [Replace(rows)] else []
    case _ => []
  }

  ghost function AllEdits(r: Rows, ms: seq<Move>, v: VersionId): seq<Edit>
    requires EnabledAll(r, ms)
    decreases |ms|
  {
    if ms == [] then [] else EditsOf(r, ms[0], v) + AllEdits(After(r, ms[0]), ms[1..], v)
  }

  function Edited(table: G.Table, e: Edit): G.Table {
    match e
    case Replace(rows) => rows
    case Patch(_, dirty) => var applied := G.Apply(table, dirty); if applied.Ok? then applied.value else table
  }

  function Fold(table: G.Table, edits: seq<Edit>): G.Table
    decreases |edits|
  {
    if edits == [] then table else Fold(Edited(table, edits[0]), edits[1..])
  }

  lemma FoldOfOne(table: G.Table, e: Edit)
    ensures Fold(table, [e]) == Edited(table, e)
  {
    assert Fold(Edited(table, e), [e][1..]) == Edited(table, e);
  }

  lemma {:induction false} FoldSplits(table: G.Table, e: seq<Edit>, f: seq<Edit>)
    ensures Fold(table, e + f) == Fold(Fold(table, e), f)
    decreases |e|
  {
    if e == [] {
      assert e + f == f;
    } else {
      assert (e + f)[0] == e[0] && (e + f)[1..] == e[1..] + f;
      FoldSplits(Edited(table, e[0]), e[1..], f);
    }
  }

  /** Each accepted edit was made against the revision that the edits before it had led to. */
  ghost predicate InRevisionOrder(edits: seq<Edit>, first: nat) {
    forall i :: 0 <= i < |edits| && edits[i].Patch? ==> edits[i].expected == first + i
  }

  lemma EditsOfOneMove(r: Rows, m: Move, v: VersionId)
    requires RowsOk(r) && Enabled(r, m) && v in r.versions && !r.versions[v].lifecycle.Baseline?
    ensures v in After(r, m).versions && !After(r, m).versions[v].lifecycle.Baseline?
    ensures After(r, m).versions[v].segments == Fold(r.versions[v].segments, EditsOf(r, m, v))
    ensures After(r, m).versions[v].revision == r.versions[v].revision + |EditsOf(r, m, v)|
    ensures InRevisionOrder(EditsOf(r, m, v), r.versions[v].revision)
  {
    if IsClosedVersion(r, v) {
      assert VersionOk(r, v);
      MoveKeepsClosedWork(r, m, v);
    } else {
      EditsOfTheDraft(r, m, v);
    }
  }

  lemma AdminLeavesTheDraftsRows(r: Rows, m: Move, v: VersionId)
    requires RowsOk(r) && Enabled(r, m) && (m.ResetMove? || m.RevokeMove? || m.RestoreMove?)
    requires v in r.versions && r.versions[v].lifecycle.Draft?
    ensures v in After(r, m).versions
    ensures var ver, ver' := r.versions[v], After(r, m).versions[v];
            && !ver'.lifecycle.Baseline? && ver'.segments == ver.segments && ver'.revision == ver.revision
            && ver'.humanModified == ver.humanModified
  {
    hide RowsOk, Enabled, After;
    match m
    case ResetMove(draft) => ResetHasEffect(r, m);
    case RevokeMove(version, _, _, _, _, _) => RevokeHasEffect(r, m);
    case RestoreMove(source, _) => RestoreHasEffect(r, m);
  }

  lemma BaselineIsNotTheDraft(r: Rows)
    requires RowsOk(r)
    ensures r.baseline.Some? && r.draft != r.baseline
  {
    assert VersionOk(r, r.baseline.value);
  }

  /** What a change does to the open version: its rows and revision follow the edits, and a human's mark stays. */
  ghost predicate DraftFollows(r: Rows, m: Move, v: VersionId, r': Rows)
    requires v in r.versions
  {
    && v in r'.versions && !r'.versions[v].lifecycle.Baseline?
    && r'.versions[v].segments == Fold(r.versions[v].segments, EditsOf(r, m, v))
    && r'.versions[v].revision == r.versions[v].revision + |EditsOf(r, m, v)|
    && InRevisionOrder(EditsOf(r, m, v), r.versions[v].revision)
    && (r.versions[v].humanModified ==> r'.versions[v].humanModified)
  }

  lemma RefreshEditsTheDraft(r: Rows, m: Move, v: VersionId)
    requires RowsOk(r) && Enabled(r, m) && m.RefreshMove? && r.draft == Some(v) && v in r.versions
    requires r.versions[v].lifecycle.Draft?
    ensures DraftFollows(r, m, v, After(r, m))
  {
    BaselineIsNotTheDraft(r);
    FoldOfOne(r.versions[v].segments, Replace(m.rows));
    hide RowsOk, Fold;
  }

  lemma SaveEditsTheDraft(r: Rows, m: Move, v: VersionId)
    requires RowsOk(r) && Enabled(r, m) && m.SaveMove? && r.draft == Some(v) && v in r.versions
    requires r.versions[v].lifecycle.Draft?
    ensures DraftFollows(r, m, v, After(r, m))
  {
    assert r.assignment.value.version == v;
    FoldOfOne(r.versions[v].segments, Patch(m.expected, m.dirty));
    hide RowsOk, Fold;
  }

  lemma PlainEditsOfTheDraft(r: Rows, m: Move, v: VersionId)
    requires RowsOk(r) && Enabled(r, m) && PlainMove(m) && r.draft == Some(v) && v in r.versions
    requires r.versions[v].lifecycle.Draft?
    ensures DraftFollows(r, m, v, After(r, m))
  {
    if m.SaveMove? {
      hide RowsOk, Enabled, After, DraftFollows;
      SaveEditsTheDraft(r, m, v);
    } else if m.RefreshMove? {
      hide RowsOk, Enabled, After, DraftFollows;
      RefreshEditsTheDraft(r, m, v);
    } else {
      assert r.assignment.Some? ==> Some(r.assignment.value.version) == r.draft;
      hide RowsOk, Claimable, Revoke, Reset, Restorable, SubmissionProblem, PublishedRows, PutBack;
    }
  }

  lemma SubmitEditsTheDraft(r: Rows, m: Move, v: VersionId)
    requires RowsOk(r) && Enabled(r, m) && m.SubmitMove? && r.draft == Some(v) && v in r.versions
    requires r.versions[v].lifecycle.Draft?
    ensures DraftFollows(r, m, v, After(r, m))
  {
    SubmitIs(r, m);
    FoldOfOne(r.versions[v].segments, Patch(m.expected, m.dirty));
    assert r.assignment.value.version == v;
    hide RowsOk, SubmissionProblem, FrozenCredit, PublishedRows;
  }

  lemma EditsOfTheDraft(r: Rows, m: Move, v: VersionId)
    requires RowsOk(r) && Enabled(r, m) && v in r.versions && r.versions[v].lifecycle.Draft?
    ensures DraftFollows(r, m, v, After(r, m))
  {
    assert r.draft == Some(v) by { assert VersionOk(r, v); }
    if PlainMove(m) {
      hide RowsOk, Enabled, After, DraftFollows;
      PlainEditsOfTheDraft(r, m, v);
    } else if m.SubmitMove? {
      hide RowsOk, Enabled, After, DraftFollows;
      SubmitEditsTheDraft(r, m, v);
    } else {
      hide RowsOk, Enabled, After;
      AdminLeavesTheDraftsRows(r, m, v);
    }
  }

  /** No update is lost: at any later time a version holds exactly the fold of its accepted edits in revision order, its
      revision counts them, and the i-th of them was accepted against revision i. */
  lemma {:induction false} VersionIsTheFoldOfItsEdits(r: Rows, ms: seq<Move>, v: VersionId)
    requires RowsOk(r) && EnabledAll(r, ms) && v in r.versions && !r.versions[v].lifecycle.Baseline?
    ensures v in AfterAll(r, ms).versions
    ensures AfterAll(r, ms).versions[v].segments == Fold(r.versions[v].segments, AllEdits(r, ms, v))
    ensures AfterAll(r, ms).versions[v].revision == r.versions[v].revision + |AllEdits(r, ms, v)|
    ensures InRevisionOrder(AllEdits(r, ms, v), r.versions[v].revision)
    decreases |ms|
  {
    if ms != [] {
      var now, later := EditsOf(r, ms[0], v), AllEdits(After(r, ms[0]), ms[1..], v);
      MoveKeepsRows(r, ms[0]);
      EditsOfOneMove(r, ms[0], v);
      VersionIsTheFoldOfItsEdits(After(r, ms[0]), ms[1..], v);
      FoldSplits(r.versions[v].segments, now, later);
      forall i | 0 <= i < |now + later| && (now + later)[i].Patch?
        ensures (now + later)[i].expected == r.versions[v].revision + i
      {
        if i >= |now| { assert (now + later)[i] == later[i - |now|]; }
      }
    }
  }

  /** No two accepted edits of a version were made against the same revision. */
  lemma AcceptedRevisionsAreDistinct(edits: seq<Edit>, first: nat)
    requires InRevisionOrder(edits, first)
    ensures forall i, j :: 0 <= i < j < |edits| && edits[i].Patch? && edits[j].Patch? ==>
              edits[i].expected < edits[j].expected
  {
  }

  /** Human edits keep the segment ids and the recogniser's text; only a preprocessing refresh can change those. */
  lemma {:induction false} PatchesKeepIdsAndRecognisedText(table: G.Table, edits: seq<Edit>)
    requires forall e <- edits :: e.Patch?
    ensures Fold(table, edits).Keys == table.Keys
    ensures forall k <- table :: Fold(table, edits)[k].asrText == table[k].asrText
    decreases |edits|
  {
    if edits != [] {
      assert edits[0] in edits;
      G.ApplyMeaning(table, edits[0].dirty);
      PatchesKeepIdsAndRecognisedText(Edited(table, edits[0]), edits[1..]);
    }
  }

  /* ---------- restore undoes revoke ---------- */

  /** The revoke can still be undone, and nothing about the task has changed but who may hold it. */
  ghost predicate WindowOpen(r0: Rows, r: Rows, action: ActionId, item: Item)
    requires r0.draft.Some? ==> r0.draft.value in r0.versions
  {
    && r.draft == Some(item.after) && item.after in r.versions
    && r.versions[item.after].lifecycle.Draft? && r.versions[item.after].revision == 0
    && r.status.Pending? && r.current.None? && r.reserved.None?
    && item.before in r0.versions && item.before in r.versions
    && r.versions[item.before] == r0.versions[item.before].(lifecycle := Revoked, revokedBy := Some(action))
    && (forall v <- r0.versions :: v != item.before ==> v in r.versions && r.versions[v] == Closed(r0).versions[v])
    && r.blocks - {item.annotator} == r0.blocks
    && (item.annotator in r.blocks ==> r.blocks[item.annotator] == action)
    && r.duration == r0.duration && r.eligible == r0.eligible && r.baseline == r0.baseline
  }

  /** Either the window is open or the clean draft has been touched. */
  ghost predicate Window(r0: Rows, r: Rows, action: ActionId, item: Item)
    requires r0.draft.Some? ==> r0.draft.value in r0.versions
  {
    && action in r.items && r.items[action] == item && item.after in r.versions
    && !r.versions[item.after].lifecycle.Baseline?
    && (CleanDraft(r, item.after) ==> WindowOpen(r0, r, action, item))
  }

  lemma RevokeOpensWindow(r0: Rows, m: Move)
    requires RowsOk(r0) && m.RevokeMove? && Enabled(r0, m)
    ensures Window(r0, After(r0, m), m.action, Item(m.annotator, m.version, m.draft))
  {
    hide RowsOk, Enabled, After, Closed;
    RevokeHasEffect(r0, m);
    var r, item := After(r0, m), Item(m.annotator, m.version, m.draft);
    PublishedFacts(r0, m.version, m.annotator);
    assert r.blocks - {m.annotator} == r0.blocks;
    assert WindowOpen(r0, r, m.action, item);
  }

  /** Nothing reopens a touched draft. */
  lemma TouchedStaysTouched(r: Rows, m: Move, v: VersionId)
    requires RowsOk(r) && Enabled(r, m) && v in r.versions && !r.versions[v].lifecycle.Baseline? && !CleanDraft(r, v)
    ensures v in After(r, m).versions && !After(r, m).versions[v].lifecycle.Baseline? && !CleanDraft(After(r, m), v)
  {
    EditsOfOneMove(r, m, v);
    assert VersionOk(r, v);
    if IsClosedVersion(r, v) {
      MoveKeepsClosedWork(r, m, v);
    } else {
      EditsOfTheDraft(r, m, v);
    }
  }

  /** The audit rows of earlier revokes are never rewritten. */
  lemma ItemsStay(r: Rows, m: Move, a: ActionId)
    requires RowsOk(r) && Enabled(r, m) && a in r.items
    ensures a in After(r, m).items && After(r, m).items[a] == r.items[a]
  {
    if m.RevokeMove? {
      assert m.action !in r.items;
      hide RowsOk, Enabled, After, Closed;
      RevokeHasEffect(r, m);
    } else if m.ResetMove? || m.RestoreMove? {
      hide RowsOk, Enabled, After, Closed;
      if m.ResetMove? { ResetHasEffect(r, m); } else { RestoreHasEffect(r, m); }
    } else {
      hide RowsOk, Enabled, Revoke, Reset, PutBack, FrozenCredit, AsSubmitted, Superseding;
    }
  }

  lemma MoveKeepsWindow(r0: Rows, r: Rows, m: Move, action: ActionId, item: Item)
    requires RowsOk(r0) && RowsOk(r) && Enabled(r, m) && Window(r0, r, action, item)
    ensures Window(r0, After(r, m), action, item)
  {
    ItemsStay(r, m, action);
    if !CleanDraft(r, item.after) {
      TouchedStaysTouched(r, m, item.after);
    } else {
      OpenWindowStep(r0, r, m, action, item);
    }
  }

  lemma OpenWindowStep(r0: Rows, r: Rows, m: Move, action: ActionId, item: Item)
    requires RowsOk(r0) && RowsOk(r) && Enabled(r, m)
    requires CleanDraft(r, item.after) && WindowOpen(r0, r, action, item)
    ensures item.after in After(r, m).versions && !After(r, m).versions[item.after].lifecycle.Baseline?
    ensures CleanDraft(After(r, m), item.after) ==> WindowOpen(r0, After(r, m), action, item)
  {
    EditsOfTheDraft(r, m, item.after);
    hide RowsOk, Enabled, After, WindowOpen, CleanDraft, DraftFollows;
    if PlainMove(m) {
      PlainMoveInWindow(r0, r, m, action, item);
    } else {
      OtherMoveClosesWindow(r0, r, m, action, item);
    }
    StillNoBaseline(r, m, item.after);
  }

  lemma StillNoBaseline(r: Rows, m: Move, v: VersionId)
    requires Enabled(r, m) && v in r.versions && DraftFollows(r, m, v, After(r, m))
    ensures v in After(r, m).versions && !After(r, m).versions[v].lifecycle.Baseline?
  {
    hide Enabled, After;
  }

  /** Every other change ends the clean draft. */
  lemma OtherMoveClosesWindow(r0: Rows, r: Rows, m: Move, action: ActionId, item: Item)
    requires RowsOk(r0) && RowsOk(r) && Enabled(r, m) && !PlainMove(m)
    requires CleanDraft(r, item.after) && WindowOpen(r0, r, action, item)
    ensures !CleanDraft(After(r, m), item.after)
  {
    assert r.draft == Some(item.after) && r.current.None?;
    hide RowsOk, Enabled, After, FrozenCredit, WindowOpen;
    match m
    case SubmitMove(_, _, _, _) => SubmitClosesWindow(r, m);
    case ResetMove(_) => ResetHasEffect(r, m);
    case RevokeMove(_, _, _, _, _, _) => RevokeHasEffect(r, m);
    case RestoreMove(_, _) => RestoreClosesWindow(r, m);
  }

  lemma RestoreClosesWindow(r: Rows, m: Move)
    requires RowsOk(r) && Enabled(r, m) && m.RestoreMove?
    ensures r.draft.Some? && !CleanDraft(After(r, m), r.draft.value)
  {
    hide PutBack, Restorable, RowsOk;
    RestoreStarts(r, m);
    PutBackIs(r, m.source);
  }

  lemma SubmitClosesWindow(r: Rows, m: Move)
    requires RowsOk(r) && Enabled(r, m) && m.SubmitMove?
    ensures r.draft.Some? && r.draft.value in After(r, m).versions
    ensures After(r, m).versions[r.draft.value].lifecycle.Published?
  {
    SubmitIs(r, m);
    assert r.draft == Some(r.assignment.value.version);
    hide RowsOk, SubmissionProblem, FrozenCredit, PublishedRows;
  }

  lemma PlainMoveInWindow(r0: Rows, r: Rows, m: Move, action: ActionId, item: Item)
    requires RowsOk(r0) && RowsOk(r) && Enabled(r, m) && PlainMove(m)
    requires CleanDraft(r, item.after) && WindowOpen(r0, r, action, item)
    ensures item.after in After(r, m).versions
    ensures CleanDraft(After(r, m), item.after) ==> WindowOpen(r0, After(r, m), action, item)
  {
    assert r.assignment.Some? ==> Some(r.assignment.value.version) == r.draft;
    assert r.assignment.Some? ==> r.assignment.value.mode.AnnotationMode?;
    BaselineIsNotTheDraft(r);
    hide RowsOk, Closed, Claimable, Revoke, Reset, PutBack, Restorable, SubmissionProblem, PublishedRows;
  }

  lemma {:induction false} MovesKeepWindow(r0: Rows, r: Rows, ms: seq<Move>, action: ActionId, item: Item)
    requires RowsOk(r0) && RowsOk(r) && EnabledAll(r, ms) && Window(r0, r, action, item)
    ensures RowsOk(AfterAll(r, ms)) && Window(r0, AfterAll(r, ms), action, item)
    decreases |ms|
  {
    if ms != [] {
      MoveKeepsRows(r, ms[0]);
      MoveKeepsWindow(r0, r, ms[0], action, item);
      MovesKeepWindow(r0, After(r, ms[0]), ms[1..], action, item);
    }
  }

  /** The task as it was before the revoke, but for the audit trail and the abandoned drafts. */
  ghost predicate PutBackExactly(r0: Rows, r: Rows)
    requires r0.draft.Some? ==> r0.draft.value in r0.versions
  {
    && r.status == r0.status && r.current == r0.current && r.reserved == r0.reserved
    && r.blocks == r0.blocks
    && r.duration == r0.duration && r.eligible == r0.eligible && r.baseline == r0.baseline
    && r.assignment.None? && r.draft.None?
    && forall v <- r0.versions :: v in r.versions && r.versions[v] == Closed(r0).versions[v]
  }

  lemma RestoreInOpenWindow(r0: Rows, r: Rows, action: ActionId, item: Item, at: nat)
    requires RowsOk(r0) && RowsOk(r) && r0.current == Some(item.before) && SubmittedBy(r0, item.annotator)
    requires item.annotator !in r0.blocks && r0.reserved.None? && r0.versions[item.before].target == r0.status
    requires Closed(r0).versions[item.before] == r0.versions[item.before]
    requires r0.versions[item.before].lifecycle.Published? && r0.versions[item.before].revokedBy.None?
    requires item.after !in r0.versions
    requires Window(r0, r, action, item) && Restorable(r, action, at)
    ensures PutBackExactly(r0, PutBack(r, action))
  {
    assert ItemOk(r, action);
    PutBackIs(r, action);
    var r' := PutBack(r, action);
    assert r'.blocks == r0.blocks;
    assert r'.versions[item.before] == r0.versions[item.before];
  }

  lemma PublishedFacts(r: Rows, c: VersionId, u: UserId)
    requires RowsOk(r) && r.current == Some(c) && SubmittedBy(r, u)
    ensures u !in r.blocks && r.reserved.None? && r.versions[c].target == r.status
    ensures Closed(r).versions[c] == r.versions[c]
    ensures r.versions[c].lifecycle.Published? && r.versions[c].revokedBy.None?
  {
    assert VersionOk(r, c);
  }

  /** Restore is the exact inverse of revoke, whatever happened in between: whenever it is accepted, the task has the
      same status, current version, submissions, credits, reservation and reclaim blocks as just before the revoke. */
  lemma RestoreUndoesRevoke(r0: Rows, revoke: Move, ms: seq<Move>, at: nat)
    requires RowsOk(r0) && revoke.RevokeMove? && Enabled(r0, revoke) && EnabledAll(After(r0, revoke), ms)
    requires Enabled(AfterAll(After(r0, revoke), ms), RestoreMove(revoke.action, at))
    ensures PutBackExactly(r0, After(AfterAll(After(r0, revoke), ms), RestoreMove(revoke.action, at)))
  {
    var r1, item := After(r0, revoke), Item(revoke.annotator, revoke.version, revoke.draft);
    MoveKeepsRows(r0, revoke);
    RevokeOpensWindow(r0, revoke);
    RevokeHasEffect(r0, revoke);
    PublishedFacts(r0, revoke.version, revoke.annotator);
    MovesKeepWindow(r0, r1, ms, revoke.action, item);
    RestoreInOpenWindow(r0, AfterAll(r1, ms), revoke.action, item, at);
  }

  /** The clean draft of a revoke is as the revoke left it, and nobody has the task or has claimed it since. */
  predicate Untouched(r: Rows, draft: VersionId, at: nat) {
    CleanDraft(r, draft) && r.assignment.None? && (r.claimedAt.None? || r.claimedAt.value <= at)
  }

  /** The remaining conditions of a restore never decide: whatever happened since the revoke, a clean draft that is
      untouched means that the task is still pending, without a current version, and that the revoked version is still
      the annotator's, revoked by the same action. */
  lemma RestorableIffUntouched(r0: Rows, revoke: Move, ms: seq<Move>, at: nat)
    requires RowsOk(r0) && revoke.RevokeMove? && Enabled(r0, revoke) && EnabledAll(After(r0, revoke), ms)
    ensures var r := AfterAll(After(r0, revoke), ms);
            && revoke.action in r.items
            && r.items[revoke.action] == Item(revoke.annotator, revoke.version, revoke.draft)
            && (Restorable(r, revoke.action, at) <==> Untouched(r, revoke.draft, at))
  {
    var r1, item := After(r0, revoke), Item(revoke.annotator, revoke.version, revoke.draft);
    MoveKeepsRows(r0, revoke);
    RevokeOpensWindow(r0, revoke);
    RevokeHasEffect(r0, revoke);
    MovesKeepWindow(r0, r1, ms, revoke.action, item);
    hide RowsOk, Enabled, After, EnabledAll, AfterAll, RevokeEffect;
  }

  /* ---------- credit ---------- */

  /** A chain of submissions, each a revision of the one before. */
  ghost predicate RevisionChain(r: Rows, chain: seq<VersionId>) {
    && (forall v <- chain :: v in r.versions && Submitted(r.versions[v].lifecycle))
    && (forall i :: 0 < i < |chain| ==> chain[i] in r.versions && r.versions[chain[i]].base == Some(chain[i - 1]))
  }

  /** Along a chain of revisions that starts at a submission credited by audio length, every submission, skipped ones
      included, keeps that credit. */
  lemma {:induction false} LegacyCreditIsConstant(r: Rows, chain: seq<VersionId>)
    requires RowsOk(r) && chain != [] && RevisionChain(r, chain)
    requires chain[0] in r.versions && IsLegacy(r.versions[chain[0]].credit)
    ensures forall v <- chain :: v in r.versions && r.versions[v].credit == r.versions[chain[0]].credit
    decreases |chain|
  {
    if |chain| > 1 {
      var front, last := chain[..|chain| - 1], chain[|chain| - 1];
      assert forall i :: 0 <= i < |front| ==> front[i] == chain[i];
      LegacyCreditIsConstant(r, front);
      assert last in chain && VersionOk(r, last) && r.versions[last].base == Some(front[|front| - 1]);
      assert front[|front| - 1] in front;
      forall v | v in chain ensures v in r.versions && r.versions[v].credit == r.versions[chain[0]].credit {
        if v != last { assert v in front; }
      }
    }
  }

  /** A submission that is not credited by audio length is credited with at most the audio's length, up to 1.5 ms a row. */
  lemma SubmissionCreditIsBounded(r: Rows, m: Move)
    requires RowsOk(r) && m.SubmitMove? && Enabled(r, m)
    requires G.Faithful(r.versions[r.assignment.value.version].segments) && 0.0 <= r.duration
    ensures var ver := After(r, m).versions[r.assignment.value.version];
            ver.credit.Some? &&
            (ver.credit.value.basis.TrainableSegments? ==>
               ver.credit.value.seconds <= r.duration + 0.0015 * |ver.segments| as real)
  {
    SubmitIs(r, m);
    var a := r.assignment.value;
    var ver := EditedVersion(r, a.version, m.expected, m.dirty).value;
    G.EditsStayFaithful(r.versions[a.version].segments, m.dirty);
    G.CreditIsBounded(ver.segments, r.duration);
  }
}
