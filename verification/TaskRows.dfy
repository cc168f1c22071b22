/** The rows of one task, and the changes a transaction can make to them.

    Versions, segments, the assignment, reclaim blocks and audit rows all carry the task they belong to, so the tables
    are kept here task by task. The partial unique index on draft versions is the column `draft`.
 */
module TaskRows {
  import opened Common
  import G = Segments

  datatype Lifecycle = Baseline | Draft | Published | Superseded | Revoked | Abandoned

  datatype Status = Pending | Annotated | Skipped

  datatype Basis = LegacyAudio | TrainableSegments

  datatype Credit = Credit(basis: Basis, seconds: real)

  datatype Mode = AnnotationMode | RevisionMode

  datatype Version = Version(
    lifecycle: Lifecycle,
    target: Status,
    base: Option<VersionId>,
    revision: nat,
    humanModified: bool,
    submitter: Option<UserId>,
    skipReasons: seq<string>,
    credit: Option<Credit>,
    revokedBy: Option<ActionId>,
    segments: G.Table)

  datatype Assignment = Assignment(user: UserId, version: VersionId, mode: Mode, token: Token)

  /** The audit row of a revoke: whose submission, which version, and the clean draft that took its place. */
  datatype Item = Item(annotator: UserId, before: VersionId, after: VersionId)

  datatype Rows = Rows(
    status: Status,
    eligible: bool,
    duration: real,
    current: Option<VersionId>,
    baseline: Option<VersionId>,
    reserved: Option<UserId>,
    claimedAt: Option<nat>,
    versions: map<VersionId, Version>,
    draft: Option<VersionId>,
    assignment: Option<Assignment>,
    blocks: map<UserId, ActionId>,
    items: map<ActionId, Item>)

  /** The error responses a transaction can end with, apart from those of the session checks. */
  datatype Refusal =
    | NotFound
    | Conflict
    | RevisionConflict(current: nat)
    | Invalid
    | InvalidSegments(problem: G.Error)
    | Forbidden
    | NoTask
    | Protected
    | Internal

  datatype Try<+T> = Good(value: T) | Bad(error: Refusal)

  /** Writing a version row, with the index on drafts kept up to date. */
  function PutVersion(r: Rows, v: VersionId, ver: Version): Rows {
    r.(versions := r.versions[v := ver],
       draft := if ver.lifecycle.Draft? then Some(v) else if r.draft == Some(v) then None else r.draft)
  }

  /** The update that abandons a version only matches it while it is a draft. */
  function AbandonDraft(r: Rows, v: VersionId): Rows {
    if v in r.versions && r.versions[v].lifecycle.Draft?
    then PutVersion(r, v, r.versions[v].(lifecycle := Abandoned)) else r
  }

  /* ---------- claiming ---------- */

  predicate Claimable(r: Rows, u: UserId) {
    && r.status.Pending? && r.eligible && r.draft.Some? && r.assignment.None?
    && u !in r.blocks && (r.reserved.None? || r.reserved.value == u)
  }

  function Taken(r: Rows, u: UserId, token: Token, now: nat): Rows
    requires r.draft.Some?
  {
    r.(assignment := Some(Assignment(u, r.draft.value, AnnotationMode, token)), reserved := None, claimedAt := Some(now))
  }

  /* ---------- saving ---------- */

  /** The working version at the revision the client last saw, with the dirty rows applied. */
  function EditedVersion(r: Rows, v: VersionId, expected: int, dirty: seq<G.Dirty>): Try<Version> {
    if v !in r.versions then Bad(Conflict)
    else if r.versions[v].revision != expected then Bad(RevisionConflict(r.versions[v].revision))
    else
      var applied := G.Apply(r.versions[v].segments, dirty);
      if applied.Err? then Bad(InvalidSegments(applied.error))
      else Good(r.versions[v].(segments := applied.value))
  }

  function Saved(ver: Version): Version {
    ver.(revision := ver.revision + 1, humanModified := true)
  }

  /* ---------- completing ---------- */

  const ALLOWED_SKIP_REASONS: set<string> := {"noisy", "not_egyptian", "poor_quality"}

  /** The reasons a submission is stored with, or a validation error. */
  function Reasons(target: Status, reasons: seq<string>): Try<seq<string>> {
    match target
    case Pending => Bad(Invalid)
    case Annotated => Good([])
    case Skipped =>
      if reasons == [] || exists r <- reasons :: r !in ALLOWED_SKIP_REASONS then Bad(Invalid) else Good(reasons)
  }

  predicate Blank(text: string) {
    forall c <- text :: c == ' '
  }

  predicate HasUntranscribed(table: G.Table) {
    exists k <- table :: !table[k].exclude && Blank(table[k].text)
  }

  predicate InheritsCredit(r: Rows, ver: Version, a: Assignment) {
    && a.mode.RevisionMode? && ver.base.Some? && ver.base.value in r.versions
    && r.versions[ver.base.value].submitter == Some(a.user)
    && r.versions[ver.base.value].credit.Some? && r.versions[ver.base.value].credit.value.basis.LegacyAudio?
  }

  /** The credit a draft is frozen with: a self-revision of a submission credited by audio length inherits it. */
  ghost function FrozenCredit(r: Rows, ver: Version, a: Assignment, target: Status): Credit {
    if InheritsCredit(r, ver, a) then r.versions[ver.base.value].credit.value
    else if target.Annotated? then Credit(TrainableSegments, G.TrainableSeconds(ver.segments))
    else Credit(TrainableSegments, 0.0)
  }

  function AsSubmitted(ver: Version, u: UserId, target: Status, reasons: seq<string>, credit: Credit): Version {
    ver.(lifecycle := Published, target := target, skipReasons := reasons, revision := ver.revision + 1,
         humanModified := true, submitter := Some(u), credit := Some(credit))
  }

  /** The update that supersedes every other published version of the task. */
  function Superseding(versions: map<VersionId, Version>, v: VersionId): map<VersionId, Version> {
    map w <- versions ::
      if versions[w].lifecycle.Published? && w != v then versions[w].(lifecycle := Superseded) else versions[w]
  }

  /** Why a submission is refused after its rows were applied. */
  ghost function SubmissionProblem(r: Rows, ver: Version, target: Status): Option<Refusal> {
    if !G.TimelineOk(ver.segments, r.duration) then Some(Invalid)
    else if target.Annotated? && HasUntranscribed(ver.segments) then Some(Invalid)
    else if !ver.lifecycle.Draft? || ver.credit.Some? then Some(Internal)
    else None
  }

  ghost function PublishedRows(r: Rows, a: Assignment, ver: Version, target: Status, reasons: seq<string>): Rows {
    var submitted := AsSubmitted(ver, a.user, target, reasons, FrozenCredit(r, ver, a, target));
    var r1 := PutVersion(r.(versions := Superseding(r.versions, a.version)), a.version, submitted);
    r1.(status := target, current := Some(a.version), reserved := None, assignment := None)
  }

  /* ---------- giving up and reopening ---------- */

  /** A revision draft is discarded with its assignment; an annotation draft stays with the task. */
  function GivenUp(r: Rows, a: Assignment): Rows {
    (if a.mode.RevisionMode? then AbandonDraft(r, a.version) else r).(assignment := None)
  }

  function Revising(r: Rows, u: UserId, published: VersionId, draft: VersionId, token: Token): Rows
    requires published in r.versions
  {
    var base := r.versions[published];
    var copy := Version(Draft, r.status, Some(published), 0, false, None, base.skipReasons, None, None, base.segments);
    PutVersion(r, draft, copy).(assignment := Some(Assignment(u, draft, RevisionMode, token)))
  }

  /* ---------- administration ---------- */

  /** The assignment is deleted, the version it worked on and any other open draft are abandoned. */
  function Released(r: Rows): Rows {
    var r1 := if r.assignment.Some? then AbandonDraft(r, r.assignment.value.version).(assignment := None) else r;
    if r1.draft.Some? then AbandonDraft(r1, r1.draft.value) else r1
  }

  function Cleaned(row: G.Segment): G.Segment {
    row.(text := "", exclude := false)
  }

  /** A fresh draft from the baseline, with the texts and exclusion marks taken out. */
  function CloneClean(r: Rows, draft: VersionId): Try<Rows> {
    if r.baseline.None? || r.baseline.value !in r.versions || !r.versions[r.baseline.value].lifecycle.Baseline?
    then Bad(Conflict)
    else if r.draft.Some? then Bad(Conflict)
    else
      var base := r.versions[r.baseline.value].segments;
      var copy := Version(Draft, Pending, r.baseline, 0, false, None, [], None, None, map k <- base :: Cleaned(base[k]));
      Good(PutVersion(r, draft, copy))
  }

  /** Release, and for a pending task a clean draft in place of the abandoned one. */
  function Reset(r: Rows, draft: VersionId): Try<Rows> {
    if r.status.Pending? && r.current.None? then CloneClean(Released(r), draft) else Good(Released(r))
  }

  /** The current version is marked revoked and the task is pending again. */
  function Withdrawn(r: Rows, current: VersionId, action: ActionId): Rows
    requires current in r.versions
  {
    PutVersion(r, current, r.versions[current].(lifecycle := Revoked, revokedBy := Some(action)))
      .(status := Pending, current := None, reserved := None)
  }

  function Audited(r: Rows, item: Item, action: ActionId, block: bool): Rows {
    r.(blocks := if block then r.blocks[item.annotator := action] else r.blocks, items := r.items[action := item])
  }

  function RevokeProblem(r: Rows, expected: VersionId, annotator: UserId, release: bool): Option<Refusal> {
    if r.current != Some(expected) then Some(Conflict)
    else if expected !in r.versions || !r.versions[expected].lifecycle.Published? then Some(Conflict)
    else if r.versions[expected].submitter != Some(annotator) then Some(Conflict)
    else if r.baseline.None? then Some(Conflict)
    else if (r.assignment.Some? || r.draft.Some?) && !release then Some(Conflict)
    else None
  }

  /** `draft` is the identifier of the clean draft that takes the revoked version's place. */
  function Revoke(r: Rows, expected: VersionId, annotator: UserId, action: ActionId, block: bool, release: bool,
                  draft: VersionId): Try<Rows>
  {
    var problem, released := RevokeProblem(r, expected, annotator, release), Released(r);
    if problem.Some? then Bad(problem.value)
    else if expected !in released.versions then Bad(Internal)
    else
      var cloned := CloneClean(Withdrawn(released, expected, action), draft);
      if cloned.Bad? then cloned
      else Good(Audited(cloned.value, Item(annotator, expected, draft), action, block))
  }

  /** The clean draft of a revoke, with no edit, refresh or submission since. */
  predicate CleanDraft(r: Rows, v: VersionId) {
    && v in r.versions && r.versions[v].lifecycle.Draft? && r.versions[v].revision == 0 && !r.versions[v].humanModified
  }

  predicate RevokedBy(r: Rows, v: VersionId, annotator: UserId, source: ActionId) {
    && v in r.versions && r.versions[v].lifecycle.Revoked?
    && r.versions[v].submitter == Some(annotator) && r.versions[v].revokedBy == Some(source)
  }

  /** The conditions under which a revoke made by action `source` at time `at` can be undone. */
  predicate Restorable(r: Rows, source: ActionId, at: nat) {
    && source in r.items
    && r.status.Pending? && r.current.None? && r.assignment.None?
    && (r.claimedAt.None? || r.claimedAt.value <= at)
    && CleanDraft(r, r.items[source].after)
    && RevokedBy(r, r.items[source].before, r.items[source].annotator, source)
  }

  function PutBack(r: Rows, source: ActionId): Rows
    requires source in r.items && r.items[source].after in r.versions && r.items[source].before in r.versions
  {
    var item := r.items[source];
    var was := r.versions[item.before];
    var r1 := PutVersion(r, item.after, r.versions[item.after].(lifecycle := Abandoned));
    var r2 := PutVersion(r1, item.before, was.(lifecycle := Published, revokedBy := None));
    r2.(status := was.target, current := Some(item.before),
        blocks := if item.annotator in r2.blocks && r2.blocks[item.annotator] == source
                  then r2.blocks - {item.annotator} else r2.blocks)
  }

  function Unreserved(r: Rows, u: UserId): Rows {
    if r.reserved == Some(u) then r.(reserved := None) else r
  }

  predicate SubmittedBy(r: Rows, u: UserId) {
    r.current.Some? && r.current.value in r.versions && r.versions[r.current.value].submitter == Some(u)
  }

  /* ---------- preprocessing ---------- */

  predicate IsProtected(r: Rows) {
    || r.current.Some? || r.assignment.Some?
    || (r.draft.Some? && r.draft.value in r.versions && r.versions[r.draft.value].humanModified)
  }

  function Refreshed(r: Rows, duration: real, rows: G.Table, eligible: bool): Rows
    requires r.draft.Some? && r.draft.value in r.versions
  {
    var ver := r.versions[r.draft.value];
    var r1 := PutVersion(r, r.draft.value, ver.(segments := rows, revision := ver.revision + 1));
    var r2 := if r.baseline.Some? && r.baseline.value in r1.versions
              then PutVersion(r1, r.baseline.value, r1.versions[r.baseline.value].(segments := rows)) else r1;
    r2.(duration := duration, eligible := eligible)
  }

  function NewRows(base: VersionId, draft: VersionId, duration: real, rows: G.Table, eligible: bool): Rows {
    Rows(Pending, eligible, duration, None, Some(base), None, None,
         map[base := Version(Baseline, Pending, None, 0, false, None, [], None, None, rows),
             draft := Version(Draft, Pending, Some(base), 0, false, None, [], None, None, rows)],
         Some(draft), None, map[], map[])
  }

  /* ---------- moves ---------- */

  /** Everything a transaction can do to the rows of one task. */
  datatype Move =
    | TakeMove(user: UserId, token: Token, now: nat)
    | SaveMove(expected: int, dirty: seq<G.Dirty>)
    | SubmitMove(expected: int, dirty: seq<G.Dirty>, target: Status, reasons: seq<string>)
    | GiveUpMove
    | ReviseMove(user: UserId, draft: VersionId, token: Token)
    | ResetMove(draft: VersionId)
    | UnreserveMove(user: UserId)
    | RevokeMove(version: VersionId, annotator: UserId, action: ActionId, block: bool, release: bool, draft: VersionId)
    | RestoreMove(source: ActionId, at: nat)
    | RefreshMove(duration: real, rows: G.Table, eligible: bool)

  ghost predicate Enabled(r: Rows, m: Move) {
    match m
    case TakeMove(u, _, _) => Claimable(r, u)
    case SaveMove(expected, dirty) =>
      r.assignment.Some? && EditedVersion(r, r.assignment.value.version, expected, dirty).Good?
    case SubmitMove(expected, dirty, target, reasons) =>
      && r.assignment.Some? && EditedVersion(r, r.assignment.value.version, expected, dirty).Good?
      && Reasons(target, reasons).Good?
      && SubmissionProblem(r, EditedVersion(r, r.assignment.value.version, expected, dirty).value, target).None?
    case GiveUpMove => r.assignment.Some?
    case ReviseMove(u, draft, _) => SubmittedBy(r, u) && r.draft.None? && draft !in r.versions
    case ResetMove(draft) => r.assignment.Some? && draft !in r.versions && Reset(r, draft).Good?
    case UnreserveMove(_) => true
    case RevokeMove(expected, annotator, action, block, release, draft) =>
      draft !in r.versions && action !in r.items && Revoke(r, expected, annotator, action, block, release, draft).Good?
    case RestoreMove(source, at) => Restorable(r, source, at)
    case RefreshMove(_, _, _) => !IsProtected(r) && r.draft.Some? && r.draft.value in r.versions
  }

  ghost function After(r: Rows, m: Move): Rows
    requires Enabled(r, m)
  {
    match m
    case TakeMove(u, token, now) => Taken(r, u, token, now)
    case SaveMove(expected, dirty) =>
      var v := r.assignment.value.version;
      PutVersion(r, v, Saved(EditedVersion(r, v, expected, dirty).value))
    case SubmitMove(expected, dirty, target, reasons) =>
      var a := r.assignment.value;
      PublishedRows(r, a, EditedVersion(r, a.version, expected, dirty).value, target, Reasons(target, reasons).value)
    case GiveUpMove => GivenUp(r, r.assignment.value)
    case ReviseMove(u, draft, token) => Revising(r, u, r.current.value, draft, token)
    case ResetMove(draft) => Reset(r, draft).value
    case UnreserveMove(u) => Unreserved(r, u)
    case RevokeMove(expected, annotator, action, block, release, draft) =>
      Revoke(r, expected, annotator, action, block, release, draft).value
    case RestoreMove(source, _) => PutBack(r, source)
    case RefreshMove(duration, rows, eligible) => Refreshed(r, duration, rows, eligible)
  }

  ghost predicate EnabledAll(r: Rows, ms: seq<Move>)
    decreases |ms|
  {
    ms == [] || (Enabled(r, ms[0]) && EnabledAll(After(r, ms[0]), ms[1..]))
  }

  ghost function AfterAll(r: Rows, ms: seq<Move>): Rows
    requires EnabledAll(r, ms)
    decreases |ms|
  {
    if ms == [] then r else AfterAll(After(r, ms[0]), ms[1..])
  }
}
