/** Tasks taken over from the JSON files of the earlier system: where submissions credited by audio length come from. */
module LegacyImport {
  import opened Common
  import opened TaskRows
  import opened TaskInvariant
  import opened TaskHistory
  import opened Store
  import opened StoreInvariant
  import opened StoreAdmin
  import opened StoreRuns
  import S = Sessions
  import G = Segments

  /** One file: `owner` is who annotated or skipped it, `explicit` the credit fields if the file has them. */
  datatype Legacy = Legacy(path: string, duration: real, status: Status, owner: Option<UserId>, humanModified: bool,
                           explicit: Option<Credit>, reasons: seq<string>, rows: G.Table)

  /** A submission without credit fields is credited with the audio's length, a skip with nothing. */
  function CreditFromLegacy(l: Legacy): Try<Option<Credit>> {
    match l.explicit
    case None =>
      Good(match l.status
           case Pending => None
           case Annotated => Some(Credit(LegacyAudio, l.duration))
           case Skipped => Some(Credit(TrainableSegments, 0.0)))
    case Some(c) => if l.status.Pending? || c.seconds < 0.0 then Bad(Invalid) else Good(Some(c))
  }

  /** Texts and marks are kept in the baseline only where nobody has edited a pending file. */
  function BaselineRows(l: Legacy): G.Table {
    if l.status.Pending? && !l.humanModified then l.rows else map k <- l.rows :: Cleaned(l.rows[k])
  }

  function Submitter(l: Legacy): Option<UserId> {
    if l.status.Pending? then None else l.owner
  }

  function LegacyRows(version: VersionId, base: VersionId, l: Legacy, credit: Option<Credit>): Rows {
    var open := l.status.Pending?;
    var ver := Version(if open then Draft else Published, l.status, Some(base), 0, l.humanModified, Submitter(l), l.reasons,
                       credit, None, l.rows);
    Rows(l.status, l.rows != map[], l.duration, if open then None else Some(version), Some(base), None, None,
         map[version := ver, base := Version(Baseline, Pending, None, 0, false, None, [], None, None, BaselineRows(l))],
         if open then Some(version) else None, None, map[], map[])
  }

  /** The account named in a file is made if it is new; one that exists is taken as it is. */
  function EnsureOwner(db: Db, owner: Option<UserId>): Db {
    if owner.Some? && owner.value !in db.auth.active
    then db.(auth := db.auth.(active := db.auth.active[owner.value := true])) else db
  }

  function ImportTask(db: Db, l: Legacy): Try<Db> {
    var credit := CreditFromLegacy(l);
    if credit.Bad? then Bad(credit.error)
    else if l.path in db.paths then Bad(Conflict)
    else
      Good(AddRows(EnsureOwner(db, Submitter(l)), l.path, LegacyRows(db.nextId + 1, db.nextId + 2, l, credit.value)))
  }

  /** A new task under a new path; the next three identifiers are the task's and its two versions'. */
  function AddRows(db: Db, path: string, r: Rows): Db {
    db.(paths := db.paths[path := db.nextId], tasks := db.tasks[db.nextId := r], nextId := db.nextId + 3)
  }

  lemma LegacyRowsOk(version: VersionId, base: VersionId, l: Legacy)
    requires version != base && CreditFromLegacy(l).Good?
    ensures RowsOk(LegacyRows(version, base, l, CreditFromLegacy(l).value))
  {
    var r := LegacyRows(version, base, l, CreditFromLegacy(l).value);
    forall v | v in r.versions ensures VersionOk(r, v) { assert v == version || v == base; }
  }

  /** What becomes of a file. It is refused with a negative credit, or one for work that is not done; a known path is a
      conflict. Otherwise there is a new task: with an open version and nobody's name on it for a pending file, else with
      a current version of the file's owner; credited as the file says, and by its length or with nothing if it does not
      say. The recognised rows are those of the file, without texts and marks if anybody has worked on it. */
  lemma ImportOutcome(db: Db, l: Legacy)
    ensures var done := ImportTask(db, l);
            if l.explicit.Some? && (l.status.Pending? || l.explicit.value.seconds < 0.0) then done == Bad(Invalid)
            else if l.path in db.paths then done == Bad(Conflict)
            else
              && done.Good? && db.nextId in done.value.tasks
              && done.value == db.(auth := done.value.auth, paths := db.paths[l.path := db.nextId], nextId := db.nextId + 3,
                                   tasks := db.tasks[db.nextId := done.value.tasks[db.nextId]])
              && done.value.auth == (if l.owner.None? || l.status.Pending? || l.owner.value in db.auth.active then db.auth
                                     else db.auth.(active := db.auth.active[l.owner.value := true]))
              && TakenFrom(l, done.value.tasks[db.nextId], db.nextId + 1, db.nextId + 2)
  {
    hide TakenFrom, LegacyRows, EnsureOwner, Submitter, CreditFromLegacy;
    CreditRefused(l);
    OwnerMade(db, l);
    if CreditFromLegacy(l).Good? { RowsAreTaken(l, db.nextId + 1, db.nextId + 2); }
  }

  lemma CreditRefused(l: Legacy)
    ensures if l.explicit.Some? && (l.status.Pending? || l.explicit.value.seconds < 0.0)
            then CreditFromLegacy(l) == Bad(Invalid) else CreditFromLegacy(l).Good?
  {
  }

  lemma OwnerMade(db: Db, l: Legacy)
    ensures EnsureOwner(db, Submitter(l)) ==
            db.(auth := if l.owner.None? || l.status.Pending? || l.owner.value in db.auth.active then db.auth
                        else db.auth.(active := db.auth.active[l.owner.value := true]))
  {
  }

  lemma RowsAreTaken(l: Legacy, v: VersionId, base: VersionId)
    requires CreditFromLegacy(l).Good? && v != base
    ensures TakenFrom(l, LegacyRows(v, base, l, CreditFromLegacy(l).value), v, base)
  {
  }

  ghost predicate TakenFrom(l: Legacy, r: Rows, v: VersionId, base: VersionId) {
    && v in r.versions && base in r.versions && r.versions.Keys == {v, base}
    && r.status == l.status && r.duration == l.duration && (r.eligible <==> l.rows.Keys != {})
    && r.draft == (if l.status.Pending? then Some(v) else None) && r.current == (if l.status.Pending? then None else Some(v))
    && r.baseline == Some(base) && r.reserved.None? && r.claimedAt.None? && r.assignment.None?
    && r.blocks == map[] && r.items == map[]
    && r.versions[v] == Version(if l.status.Pending? then Draft else Published, l.status, Some(base), 0, l.humanModified,
                                if l.status.Pending? then None else l.owner, l.reasons,
                                if l.explicit.Some? then l.explicit
                                else if l.status.Annotated? then Some(Credit(LegacyAudio, l.duration))
                                else if l.status.Skipped? then Some(Credit(TrainableSegments, 0.0)) else None,
                                None, l.rows)
    && var rows := r.versions[base].segments;
      && r.versions[base] == Version(Baseline, Pending, None, 0, false, None, [], None, None, rows)
      && rows.Keys == l.rows.Keys
      && forall k <- rows :: rows[k] == if l.status.Pending? && !l.humanModified then l.rows[k]
                                        else l.rows[k].(text := "", exclude := false)
  }

  lemma OwnerKeepsInv(db: Db, owner: Option<UserId>)
    requires Inv(db)
    ensures Inv(EnsureOwner(db, owner))
  {
    if owner.Some? && owner.value !in db.auth.active {
      S.EnsureUserKeepsAuthOk(db.auth, owner.value);
      hide Inv;
      AuthKeepsInv(db, S.EnsureUser(db.auth, owner.value));
    }
  }

  lemma NewRowsKeepInv(db: Db, path: string, r: Rows)
    requires Inv(db) && RowsOk(r) && r.assignment.None? && r.reserved.None? && r.items == map[]
    requires forall v <- r.versions :: v < db.nextId + 3
    ensures Inv(AddRows(db, path, r)) <==> PeopleOk(db.auth.active, r)
  {
    hide RowsOk, S.AuthOk;
    BumpKeepsInv(db, db.nextId + 3);
    var db1 := db.(nextId := db.nextId + 3);
    var db' := AddRows(db, path, r);
    assert db.nextId !in db.tasks;
    if PeopleOk(db.auth.active, r) {
      forall t | t in db'.tasks ensures t < db'.nextId && TaskFits(db'.tasks[t], db'.nextId, db'.auth.active) {
        if t != db.nextId { assert TaskFits(db1.tasks[t], db1.nextId, db1.auth.active); }
      }
      hide PeopleOk, TaskFits;
      NewRowsKeepHeld(db1, db', db.nextId);
    } else {
      assert !TaskFits(r, db'.nextId, db'.auth.active) && db.nextId in db'.tasks;
    }
  }

  lemma NewRowsKeepHeld(db: Db, db': Db, t: TaskId)
    requires HeldOk(db) && LogsOk(db) && t !in db.tasks && db'.held == db.held && t in db'.tasks
    requires db'.tasks == db.tasks[t := db'.tasks[t]] && db'.tasks[t].assignment.None?
    requires db'.actions == db.actions && db'.actionOps == db.actionOps && db'.auth == db.auth && db'.nextId == db.nextId
    requires forall p <- db'.paths :: db'.paths[p] == t || (p in db.paths && db'.paths[p] == db.paths[p])
    ensures HeldOk(db') && LogsOk(db')
  {
    forall u | u in db'.held ensures db'.held[u] in db'.tasks && Holds(db'.tasks[db'.held[u]], u) {
      assert Holds(db.tasks[db.held[u]], u);
    }
  }

  /** Taking over a file keeps all that the other transactions rely on exactly when the file is not one submitted by an
      account that has been deactivated: the import does not look at the account's state, so it can give a deactivated
      annotator a current submission again. */
  lemma ImportKeepsInv(db: Db, l: Legacy)
    requires Inv(db) && ImportTask(db, l).Good?
    ensures Inv(ImportTask(db, l).value) <==> !(Submitter(l).Some? && AccountClosed(db, Submitter(l).value))
  {
    hide Inv, RowsOk, PeopleOk, LegacyRows, AddRows, Submitter, CreditFromLegacy, AccountClosed;
    LegacyRowsOk(db.nextId + 1, db.nextId + 2, l);
    LegacyPeople(db, l);
    LegacyShape(db, l);
    OwnerKeepsInv(db, Submitter(l));
    NewRowsKeepInv(EnsureOwner(db, Submitter(l)), l.path,
                   LegacyRows(db.nextId + 1, db.nextId + 2, l, CreditFromLegacy(l).value));
  }

  lemma LegacyShape(db: Db, l: Legacy)
    requires CreditFromLegacy(l).Good?
    ensures var rows := LegacyRows(db.nextId + 1, db.nextId + 2, l, CreditFromLegacy(l).value);
            rows.assignment.None? && rows.reserved.None? && rows.items == map[] && forall v <- rows.versions :: v < db.nextId + 3
  {
  }

  lemma LegacyPeople(db: Db, l: Legacy)
    requires CreditFromLegacy(l).Good?
    ensures PeopleOk(EnsureOwner(db, Submitter(l)).auth.active,
                     LegacyRows(db.nextId + 1, db.nextId + 2, l, CreditFromLegacy(l).value))
            <==> !(Submitter(l).Some? && AccountClosed(db, Submitter(l).value))
  {
  }

  /** In every run after the import, each submission that goes back to one credited by audio length through revisions
      alone, skips included, has that same credit. */
  lemma LegacyCreditOverRuns(db: Db, cs: seq<Command>, t: TaskId, chain: seq<VersionId>)
    requires Inv(db) && t in Run(db, cs).tasks && chain != []
    requires RevisionChain(Run(db, cs).tasks[t], chain) && chain[0] in Run(db, cs).tasks[t].versions
    requires IsLegacy(Run(db, cs).tasks[t].versions[chain[0]].credit)
    ensures var versions := Run(db, cs).tasks[t].versions;
            forall v <- chain :: v in versions && versions[v].credit == versions[chain[0]].credit
  {
    RunKeepsInv(db, cs);
    RowsFit(Run(db, cs), t);
    hide Run, Inv, RowsOk;
    LegacyCreditIsConstant(Run(db, cs).tasks[t], chain);
  }

  /* ---------- the assignments and reservations of a manifest ---------- */

  predicate IsPending(db: Db, path: string) {
    path in db.paths && db.paths[path] in db.tasks && db.tasks[db.paths[path]].status.Pending?
  }

  function HandedOver(r: Rows, u: UserId, token: Token): Rows
    requires r.draft.Some?
  {
    r.(assignment := Some(Assignment(u, r.draft.value, AnnotationMode, token)))
  }

  /** An assignment entry: a pending task goes to the annotator named, unless either is engaged otherwise. */
  function HandOver(db: Db, path: string, u: UserId): Try<Db> {
    if !IsPending(db, path) then Bad(NotFound)
    else
      var t, db1 := db.paths[path], EnsureOwner(db, Some(u));
      var r := db.tasks[t];
      if r.draft.None? then Bad(Internal)
      else if HasAssignment(db, u) || r.assignment.Some? then
        if r.assignment.Some? && r.assignment.value.user == u && r.assignment.value.version == r.draft.value
        then Good(db1) else Bad(Conflict)
      else Good(SetRows(db1, t, HandedOver(r, u, db.nextId)).(nextId := db.nextId + 1))
  }

  /** A reservation for whoever last worked on a file; no row is updated unless the task is pending. */
  function Reserve(db: Db, path: string, u: UserId): Db {
    var db1 := EnsureOwner(db, Some(u));
    if IsPending(db, path) then SetRows(db1, db.paths[path], db.tasks[db.paths[path]].(reserved := Some(u))) else db1
  }

  lemma HandedOverOk(db: Db, r: Rows, u: UserId, token: Token, n: nat)
    requires TaskFits(r, n, db.auth.active) && r.status.Pending? && r.draft.Some? && r.assignment.None?
    ensures TaskFits(HandedOver(r, u, token), n, db.auth.active) <==>
            Alive(db.auth.active, u) && u !in r.blocks && r.reserved.None?
  {
    var r' := HandedOver(r, u, token);
    if u !in r.blocks && r.reserved.None? {
      forall v | v in r'.versions ensures VersionOk(r', v) { assert VersionOk(r, v); }
      forall a | a in r'.items ensures ItemOk(r', a) { assert ItemOk(r, a); }
    }
  }

  /** Writing the rows of one task keeps the invariant exactly when the rows are in order. */
  lemma SetRowsIff(db: Db, t: TaskId, r: Rows)
    requires Inv(db) && t in db.tasks
    requires r.assignment.Some? && r.assignment.value.user in db.held ==> db.held[r.assignment.value.user] == t
    ensures Inv(SetRows(db, t, r)) <==> TaskFits(r, db.nextId, db.auth.active)
  {
    if TaskFits(r, db.nextId, db.auth.active) { SetRowsKeepsInv(db, t, r); }
    if Inv(SetRows(db, t, r)) { RowsFit(SetRows(db, t, r), t); }
    hide HeldOk, LogsOk, TaskFits, S.AuthOk;
  }

  lemma OwnerIsAlive(db: Db, u: UserId)
    ensures Alive(EnsureOwner(db, Some(u)).auth.active, u) <==> !AccountClosed(db, u)
  {
  }

  /** Handing a pending task over looks at neither the account, nor the blocks, nor a reservation: the invariant survives
      exactly when the account has not been deactivated, the annotator is not blocked and the task is not reserved. So a
      deactivated or blocked annotator can be given a task here, and nowhere else. */
  lemma HandOverKeepsInv(db: Db, path: string, u: UserId)
    requires Inv(db) && HandOver(db, path, u).Good?
    ensures IsPending(db, path)
    ensures var t, db' := db.paths[path], HandOver(db, path, u).value;
            var r := db.tasks[t];
            && t in db'.tasks && Holds(db'.tasks[t], u)
            && (r.assignment.Some? ==> Inv(db'))
            && (r.assignment.None? ==> (Inv(db') <==> !AccountClosed(db, u) && u !in r.blocks && r.reserved.None?))
  {
    hide Inv, EnsureOwner, AccountClosed, Alive, HandOver, SetRows, HandedOver, Holds, HasAssignment, IsPending;
    HandOverIs(db, path, u);
    OwnerKeepsInv(db, Some(u));
    OwnerIsAlive(db, u);
    OwnerChangesNoTask(db, u);
    if db.tasks[db.paths[path]].assignment.None? { FreshHandOver(EnsureOwner(db, Some(u)), db.paths[path], u); }
  }

  lemma HandOverIs(db: Db, path: string, u: UserId)
    requires HandOver(db, path, u).Good?
    ensures IsPending(db, path)
    ensures var t, db1 := db.paths[path], EnsureOwner(db, Some(u));
            var r := db.tasks[t];
            && r.draft.Some? && r.status.Pending? && t in db1.tasks
            && t in HandOver(db, path, u).value.tasks && Holds(HandOver(db, path, u).value.tasks[t], u)
            && (r.assignment.Some? ==> HandOver(db, path, u).value == db1)
            && (r.assignment.None? ==>
                  && !HasAssignment(db1, u)
                  && HandOver(db, path, u).value == SetRows(db1, t, HandedOver(r, u, db.nextId)).(nextId := db.nextId + 1))
  {
  }

  /** An entry for a path without a pending task fails, one that is already carried out changes nothing but that it makes
      an account that is missing, and any other is a conflict while the annotator or the task is engaged. Otherwise the
      annotator gets the open version under a new lease. */
  lemma HandOverOutcome(db: Db, path: string, u: UserId)
    requires Inv(db)
    ensures var done := HandOver(db, path, u);
            if !(path in db.paths && db.tasks[db.paths[path]].status.Pending?) then done == Bad(NotFound)
            else
              var t := db.paths[path];
              var r := db.tasks[t];
              var auth := if u in db.auth.active then db.auth else db.auth.(active := db.auth.active[u := true]);
              && r.draft.Some?
              && if r.assignment.Some? && r.assignment.value.user == u then done == Good(db.(auth := auth))
                 else if r.assignment.Some? || u in db.held then done == Bad(Conflict)
                 else done == Good(db.(auth := auth, nextId := db.nextId + 1, held := db.held[u := t],
                                       tasks := db.tasks[t := r.(assignment := Some(Assignment(u, r.draft.value,
                                                                                     AnnotationMode, db.nextId)))]))
  {
    hide Inv, RowsOk, TaskFits;
    HeldIsExact(db, u);
    if path in db.paths { RowsFit(db, db.paths[path]); OpenDraft(db.tasks[db.paths[path]]); }
  }

  lemma OpenDraft(r: Rows)
    requires RowsOk(r)
    ensures r.status.Pending? ==> r.draft.Some?
    ensures r.assignment.Some? ==> r.draft == Some(r.assignment.value.version)
  {
  }

  lemma HeldIsExact(db: Db, u: UserId)
    requires Inv(db)
    ensures HasAssignment(db, u) <==> u in db.held
    ensures forall p <- db.paths :: db.paths[p] in db.tasks
    ensures forall t <- db.tasks :: Holds(db.tasks[t], u) ==> u in db.held
  {
  }

  /** A reservation changes nothing but the reservation of a pending task, and makes an account that is missing. */
  lemma ReserveOutcome(db: Db, path: string, u: UserId)
    requires Inv(db)
    ensures var auth := if u in db.auth.active then db.auth else db.auth.(active := db.auth.active[u := true]);
            Reserve(db, path, u) ==
            if path in db.paths && db.tasks[db.paths[path]].status.Pending?
            then db.(auth := auth, tasks := db.tasks[db.paths[path] := db.tasks[db.paths[path]].(reserved := Some(u))])
            else db.(auth := auth)
  {
    hide Inv;
    HeldIsExact(db, u);
    if path in db.paths && db.tasks[db.paths[path]].status.Pending? { SameHolder(db, db.paths[path]); }
  }

  lemma SameHolder(db: Db, t: TaskId)
    requires Inv(db) && t in db.tasks
    ensures Reheld(db.held, db.tasks[t].assignment, db.tasks[t].assignment, t) == db.held
  {
    hide TasksOk, LogsOk, S.AuthOk;
  }

  lemma OwnerChangesNoTask(db: Db, u: UserId)
    ensures EnsureOwner(db, Some(u)) == db.(auth := EnsureOwner(db, Some(u)).auth)
  {
  }

  lemma HandedOverKeepsInv(db: Db, t: TaskId, u: UserId, token: Token)
    requires Inv(db) && t in db.tasks && u !in db.held
    requires db.tasks[t].status.Pending? && db.tasks[t].draft.Some? && db.tasks[t].assignment.None?
    ensures Inv(SetRows(db, t, HandedOver(db.tasks[t], u, token))) <==>
            Alive(db.auth.active, u) && u !in db.tasks[t].blocks && db.tasks[t].reserved.None?
  {
    RowsFit(db, t);
    HandedOverOk(db, db.tasks[t], u, token, db.nextId);
    hide Inv, TaskFits, Alive, SetRows;
    SetRowsIff(db, t, HandedOver(db.tasks[t], u, token));
  }

  lemma FreshHandOver(db: Db, t: TaskId, u: UserId)
    requires Inv(db) && t in db.tasks && db.tasks[t].status.Pending? && db.tasks[t].draft.Some?
    requires db.tasks[t].assignment.None? && !HasAssignment(db, u)
    ensures var r := db.tasks[t];
            var db' := SetRows(db, t, HandedOver(r, u, db.nextId)).(nextId := db.nextId + 1);
            Inv(db') <==> Alive(db.auth.active, u) && u !in r.blocks && r.reserved.None?
  {
    hide Inv, Alive, SetRows, HandedOver, HasAssignment;
    NotHeld(db, u);
    BumpKeepsInv(db, db.nextId + 1);
    DrawnFirst(db, t, HandedOver(db.tasks[t], u, db.nextId));
    HandedOverKeepsInv(db.(nextId := db.nextId + 1), t, u, db.nextId);
  }

  lemma DrawnFirst(db: Db, t: TaskId, r: Rows)
    requires t in db.tasks
    ensures SetRows(db, t, r).(nextId := db.nextId + 1) == SetRows(db.(nextId := db.nextId + 1), t, r)
  {
  }

  /** Whether the open draft is the clean draft of a revoke. */
  predicate MadeByRevoke(r: Rows) {
    exists a <- r.items :: Some(r.items[a].after) == r.draft
  }

  lemma ReservedOk(db: Db, r: Rows, u: UserId, n: nat)
    requires TaskFits(r, n, db.auth.active) && r.status.Pending?
    ensures TaskFits(r.(reserved := Some(u)), n, db.auth.active) <==>
            Alive(db.auth.active, u) && r.assignment.None? && !MadeByRevoke(r)
  {
    var r' := r.(reserved := Some(u));
    assert VersionOk(r, r.draft.value);
    if MadeByRevoke(r) {
      var a :| a in r.items && Some(r.items[a].after) == r.draft;
      assert !ItemOk(r', a);
    } else if r.assignment.None? {
      forall v | v in r'.versions ensures VersionOk(r', v) { assert VersionOk(r, v); }
      forall a | a in r'.items ensures ItemOk(r', a) {
        assert ItemOk(r, a) && VersionOk(r, r.items[a].after);
      }
    }
  }

  /** Nor does a reservation look at anything but the task's status: the invariant survives exactly when the account has
      not been deactivated, nobody is at work on the task, and its draft is not the clean draft of a revoke, which a
      restore expects to find unreserved. */
  lemma ReserveKeepsInv(db: Db, path: string, u: UserId)
    requires Inv(db)
    ensures !IsPending(db, path) ==> Inv(Reserve(db, path, u))
    ensures IsPending(db, path) ==>
              var r := db.tasks[db.paths[path]];
              Inv(Reserve(db, path, u)) <==> !AccountClosed(db, u) && r.assignment.None? && !MadeByRevoke(r)
  {
    OwnerKeepsInv(db, Some(u));
    OwnerIsAlive(db, u);
    if IsPending(db, path) {
      var t, db1 := db.paths[path], EnsureOwner(db, Some(u));
      RowsFit(db1, t);
      if db1.tasks[t].assignment.Some? { AssignedHere(db1, t); }
      hide Inv, TaskFits, EnsureOwner, Alive, AccountClosed;
      ReservedOk(db1, db.tasks[t], u, db1.nextId);
      SetRowsIff(db1, t, db.tasks[t].(reserved := Some(u)));
    }
  }

  lemma AssignedHere(db: Db, t: TaskId)
    requires Inv(db) && t in db.tasks && db.tasks[t].assignment.Some?
    ensures db.tasks[t].assignment.value.user in db.held && db.held[db.tasks[t].assignment.value.user] == t
  {
  }

  /* ---------- taking a file over again ---------- */

  /** The store and, for tasks taken over, the hash of the file they came from. */
  datatype Archive = Archive(db: Db, hashes: map<TaskId, string>)

  /** A known path is skipped if its task came from the very same file, and refused otherwise. */
  function TakeOver(a: Archive, l: Legacy, hash: string): Try<Archive> {
    if l.path in a.db.paths then
      var t := a.db.paths[l.path];
      if t in a.hashes && a.hashes[t] == hash then Good(a) else Bad(Conflict)
    else
      var done := ImportTask(a.db, l);
      if done.Bad? then Bad(done.error) else Good(Archive(done.value, a.hashes[a.db.nextId := hash]))
  }

  function TakeOverAll(a: Archive, files: seq<(Legacy, string)>): Try<Archive>
    decreases |files|
  {
    if files == [] then Good(a)
    else
      var first := TakeOver(a, files[0].0, files[0].1);
      if first.Bad? then first else TakeOverAll(first.value, files[1..])
  }

  ghost predicate CameFrom(a: Archive, f: (Legacy, string)) {
    f.0.path in a.db.paths && a.db.paths[f.0.path] in a.hashes && a.hashes[a.db.paths[f.0.path]] == f.1
  }

  /** Hashes belong to tasks there are. */
  ghost predicate ArchiveOk(a: Archive) {
    (forall p <- a.db.paths :: a.db.paths[p] < a.db.nextId) && (forall t <- a.hashes :: t < a.db.nextId)
  }

  lemma TakenOver(a: Archive, l: Legacy, hash: string)
    requires ArchiveOk(a) && TakeOver(a, l, hash).Good?
    ensures var a' := TakeOver(a, l, hash).value;
            && ArchiveOk(a') && CameFrom(a', (l, hash))
            && forall f: (Legacy, string) :: CameFrom(a, f) ==> CameFrom(a', f)
  {
    hide LegacyRows, CreditFromLegacy, Submitter;
  }

  lemma {:induction false} AllTakenOver(a: Archive, files: seq<(Legacy, string)>)
    requires ArchiveOk(a) && TakeOverAll(a, files).Good?
    ensures var a' := TakeOverAll(a, files).value;
            && ArchiveOk(a') && (forall f <- files :: CameFrom(a', f))
            && forall f: (Legacy, string) :: CameFrom(a, f) ==> CameFrom(a', f)
    decreases |files|
  {
    hide TakeOver, CameFrom, ArchiveOk;
    if files != [] {
      TakenOver(a, files[0].0, files[0].1);
      AllTakenOver(TakeOver(a, files[0].0, files[0].1).value, files[1..]);
      assert forall f <- files :: f == files[0] || f in files[1..];
    }
  }

  lemma {:induction false} NothingToTake(a: Archive, files: seq<(Legacy, string)>)
    requires forall f <- files :: CameFrom(a, f)
    ensures TakeOverAll(a, files) == Good(a)
    decreases |files|
  {
    if files != [] {
      assert files[0] in files && forall f <- files[1..] :: f in files;
      NothingToTake(a, files[1..]);
    }
  }

  /** Taking the same files over again changes nothing. */
  lemma TakingOverAgain(a: Archive, files: seq<(Legacy, string)>)
    requires ArchiveOk(a) && TakeOverAll(a, files).Good?
    ensures TakeOverAll(TakeOverAll(a, files).value, files) == TakeOverAll(a, files)
  {
    AllTakenOver(a, files);
    hide CameFrom, TakeOver;
    NothingToTake(TakeOverAll(a, files).value, files);
  }

  /* ---------- the export back ---------- */

  /** What the version keeps of the file it came from: whether it had credit fields, whom a pending file names, and
      whether the manifest counts it as worked on. A task that did not come from a file keeps nothing. */
  datatype Origin = Origin(hadCredit: bool, owner: Option<UserId>, humanModified: bool)

  function OriginOf(l: Legacy): Origin {
    Origin(l.explicit.Some?, l.owner, l.humanModified)
  }

  /** The version that is exported: the current one, or a pending task's draft. */
  function Exported(r: Rows): Option<VersionId> {
    if r.current.Some? then r.current else if r.status.Pending? then r.draft else None
  }

  function Implicit(status: Status, duration: real): Credit {
    if status.Annotated? then Credit(LegacyAudio, duration) else Credit(TrainableSegments, 0.0)
  }

  /** The exported file. Credit is written out unless the file had none and it is what a file without credit means. */
  function ToLegacy(path: string, r: Rows, origin: Option<Origin>): Legacy
    requires Exported(r).Some? && Exported(r).value in r.versions
  {
    var ver := r.versions[Exported(r).value];
    var stated := ver.credit.Some?
                  && (origin.None? || origin.value.hadCredit || ver.credit.value != Implicit(r.status, r.duration));
    Legacy(path, r.duration, r.status,
           if r.status.Pending? then (if origin.Some? then origin.value.owner else None) else ver.submitter,
           if origin.Some? then origin.value.humanModified else ver.humanModified,
           if stated then ver.credit else None, ver.skipReasons, ver.segments)
  }

  /** A file that is taken over and exported again is the same file. */
  lemma ImportThenExport(version: VersionId, base: VersionId, l: Legacy)
    requires version != base && CreditFromLegacy(l).Good?
    ensures var r := LegacyRows(version, base, l, CreditFromLegacy(l).value);
            Exported(r) == Some(version) && ToLegacy(l.path, r, Some(OriginOf(l))) == l
  {
  }

  /** A task in order that is exported and taken over elsewhere has the same current work there: status, rows, reasons,
      submitter and credit. It is taken over iff its credit is not negative. */
  lemma ExportThenImport(path: string, r: Rows, origin: Option<Origin>, version: VersionId, base: VersionId)
    requires RowsOk(r) && version != base
    ensures Exported(r).Some? && Exported(r).value in r.versions
    ensures var ver, l := r.versions[Exported(r).value], ToLegacy(path, r, origin);
            && (CreditFromLegacy(l).Good? <==> l.explicit.Some? ==> ver.credit.value.seconds >= 0.0)
            && (CreditFromLegacy(l).Good? ==>
                  var r' := LegacyRows(version, base, l, CreditFromLegacy(l).value);
                  var ver' := r'.versions[version];
                  && Exported(r') == Some(version) && r'.status == r.status && r'.duration == r.duration
                  && ver'.segments == ver.segments && ver'.skipReasons == ver.skipReasons
                  && ver'.submitter == ver.submitter && ver'.credit == ver.credit)
  {
    assert Exported(r).Some?;
    assert VersionOk(r, Exported(r).value);
  }
}
