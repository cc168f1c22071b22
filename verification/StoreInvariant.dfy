/** The invariant of the whole store, and the proof that every transaction keeps it over every run. */
module StoreInvariant {
  import opened Common
  import opened TaskRows
  import opened TaskInvariant
  import opened Store
  import opened TaskHistory
  import S = Sessions
  import G = Segments

  predicate Alive(active: map<UserId, bool>, u: UserId) {
    u in active && active[u]
  }

  /** Identifiers come from the counter, so the next ones are new. */
  ghost predicate IdsBelow(r: Rows, n: nat) {
    (forall v <- r.versions :: v < n) && (forall a <- r.items :: a < n)
  }

  /** Only an active account holds a task, has one reserved, or is the current submitter of one. */
  predicate PeopleOk(active: map<UserId, bool>, r: Rows) {
    && (r.assignment.Some? ==> Alive(active, r.assignment.value.user))
    && (r.reserved.Some? ==> Alive(active, r.reserved.value))
    && (r.current.Some? && r.current.value in r.versions && r.versions[r.current.value].submitter.Some? ==>
          Alive(active, r.versions[r.current.value].submitter.value))
  }

  ghost predicate TaskFits(r: Rows, n: nat, active: map<UserId, bool>) {
    RowsOk(r) && IdsBelow(r, n) && PeopleOk(active, r)
  }

  ghost predicate TasksOk(db: Db) {
    forall t <- db.tasks :: t < db.nextId && TaskFits(db.tasks[t], db.nextId, db.auth.active)
  }

  predicate Holds(r: Rows, u: UserId) {
    r.assignment.Some? && r.assignment.value.user == u
  }

  /** The index on assigned annotators is exact, so each annotator holds at most one task. */
  ghost predicate HeldOk(db: Db) {
    && (forall u <- db.held :: db.held[u] in db.tasks && Holds(db.tasks[db.held[u]], u))
    && (forall t <- db.tasks :: db.tasks[t].assignment.Some? ==>
          db.tasks[t].assignment.value.user in db.held && db.held[db.tasks[t].assignment.value.user] == t)
  }

  ghost predicate LogsOk(db: Db) {
    && (forall p <- db.paths :: db.paths[p] in db.tasks)
    && (forall a <- db.actions :: a < db.nextId && db.actions[a].at <= db.auth.now)
    && (forall op <- db.actionOps :: db.actionOps[op] in db.actions && db.actions[db.actionOps[op]].op == op)
  }

  ghost predicate Inv(db: Db) {
    TasksOk(db) && HeldOk(db) && LogsOk(db) && S.AuthOk(db.auth)
  }

  /* ---------- pieces of transactions ---------- */

  lemma BumpKeepsInv(db: Db, n: nat)
    requires Inv(db) && db.nextId <= n
    ensures Inv(db.(nextId := n))
  {
    var db' := db.(nextId := n);
    forall t | t in db'.tasks ensures t < n && TaskFits(db'.tasks[t], n, db'.auth.active) {
      assert TaskFits(db.tasks[t], db.nextId, db.auth.active);
    }
  }

  /** The session table may change in any way that keeps accounts active and its own deadlines in order. */
  lemma AuthKeepsInv(db: Db, a: S.Auth)
    requires Inv(db) && S.AuthOk(a) && db.auth.now <= a.now
    requires forall u :: Alive(db.auth.active, u) ==> Alive(a.active, u)
    ensures Inv(db.(auth := a))
  {
    var db' := db.(auth := a);
    forall t | t in db'.tasks ensures t < db'.nextId && TaskFits(db'.tasks[t], db'.nextId, a.active) {
      assert TaskFits(db.tasks[t], db.nextId, db.auth.active);
    }
  }

  lemma TouchKeepsInv(db: Db, fence: S.Fence)
    requires Inv(db)
    ensures Inv(TouchSession(db, fence))
  {
    S.TouchKeepsAuthOk(db.auth, fence);
    AuthKeepsInv(db, S.Touch(db.auth, fence));
  }

  lemma RecordKeepsInv(db: Db, op: OperationId, o: Operation)
    requires Inv(db)
    ensures Inv(Record(db, op, o))
  {
    var db' := Record(db, op, o);
    assert TasksOk(db') && HeldOk(db') && LogsOk(db');
  }

  lemma FinishKeepsInv(db: Db, fence: S.Fence, op: OperationId, route: Route, request: Request, response: Response)
    requires Inv(db)
    ensures Inv(Finish(db, fence, op, route, request, response).0)
  {
    RecordKeepsInv(db, op, Operation(fence.user, route, request, response));
    TouchKeepsInv(Record(db, op, Operation(fence.user, route, request, response)), fence);
  }

  lemma OpenActionKeepsInv(db: Db, admin: Admin, payload: Payload)
    requires Inv(db)
    ensures Inv(OpenAction(db, admin, payload))
  {
    hide TasksOk, HeldOk, LogsOk, S.AuthOk;
    BumpKeepsInv(db, db.nextId + 1);
    SameTasks(db.(nextId := db.nextId + 1), OpenAction(db, admin, payload));
    OpenActionKeepsLogs(db, admin, payload);
  }

  lemma SameTasks(db: Db, db': Db)
    requires TasksOk(db) && HeldOk(db)
    requires db'.tasks == db.tasks && db'.held == db.held && db'.nextId == db.nextId && db'.auth == db.auth
    ensures TasksOk(db') && HeldOk(db')
  {
    hide TaskFits, Holds;
  }

  lemma OpenActionKeepsLogs(db: Db, admin: Admin, payload: Payload)
    requires LogsOk(db)
    ensures LogsOk(OpenAction(db, admin, payload))
  {
    assert db.nextId !in db.actions;
  }

  lemma SetRowsKeepsHeld(db: Db, t: TaskId, r: Rows)
    requires HeldOk(db) && t in db.tasks
    requires r.assignment.Some? && r.assignment.value.user in db.held ==> db.held[r.assignment.value.user] == t
    ensures HeldOk(SetRows(db, t, r))
  {
    var db' := SetRows(db, t, r);
    forall u | u in db'.held ensures db'.held[u] in db'.tasks && Holds(db'.tasks[db'.held[u]], u) {
      assert u in db.held || Holds(r, u);
    }
    forall s | s in db'.tasks && db'.tasks[s].assignment.Some?
      ensures db'.tasks[s].assignment.value.user in db'.held && db'.held[db'.tasks[s].assignment.value.user] == s
    {
      if s != t { assert db.held[db.tasks[s].assignment.value.user] == s; }
    }
  }

  lemma SetRowsKeepsInv(db: Db, t: TaskId, r: Rows)
    requires Inv(db) && t in db.tasks && TaskFits(r, db.nextId, db.auth.active)
    requires r.assignment.Some? && r.assignment.value.user in db.held ==> db.held[r.assignment.value.user] == t
    ensures Inv(SetRows(db, t, r))
  {
    SetRowsKeepsHeld(db, t, r);
    var db' := SetRows(db, t, r);
    forall s | s in db'.tasks ensures s < db'.nextId && TaskFits(db'.tasks[s], db'.nextId, db'.auth.active) {
      if s != t { assert TaskFits(db.tasks[s], db.nextId, db.auth.active); }
    }
  }

  /* ---------- one move inside a transaction ---------- */

  /** What a transaction has checked, beyond the rows themselves, when it makes a move. */
  predicate Fits(db: Db, r: Rows, m: Move) {
    match m
    case TakeMove(u, _, _) => ActiveUser(db, u) && u !in db.held
    case ReviseMove(u, draft, _) => ActiveUser(db, u) && u !in db.held && draft < db.nextId
    case ResetMove(draft) => draft < db.nextId
    case RevokeMove(_, _, action, _, _, draft) => action < db.nextId && draft < db.nextId
    case RestoreMove(source, _) => source in r.items && ActiveUser(db, r.items[source].annotator)
    case _ => true
  }

  lemma TakeFits(db: Db, r: Rows, m: Move)
    requires TaskFits(r, db.nextId, db.auth.active) && Enabled(r, m) && Fits(db, r, m) && m.TakeMove?
    ensures IdsBelow(After(r, m), db.nextId) && PeopleOk(db.auth.active, After(r, m))
  {
  }

  lemma EditFits(db: Db, r: Rows, m: Move)
    requires TaskFits(r, db.nextId, db.auth.active) && Enabled(r, m) && (m.SaveMove? || m.RefreshMove?)
    ensures IdsBelow(After(r, m), db.nextId) && PeopleOk(db.auth.active, After(r, m))
    ensures After(r, m).assignment == r.assignment
  {
    if m.RefreshMove? { assert VersionOk(r, r.draft.value) && VersionOk(r, r.baseline.value); }
    else { assert VersionOk(r, r.assignment.value.version); }
  }

  lemma SubmitFits(db: Db, r: Rows, m: Move)
    requires TaskFits(r, db.nextId, db.auth.active) && Enabled(r, m) && m.SubmitMove?
    ensures IdsBelow(After(r, m), db.nextId) && PeopleOk(db.auth.active, After(r, m))
    ensures After(r, m).assignment.None?
  {
    SubmitIs(r, m);
  }

  lemma GiveUpFits(db: Db, r: Rows, m: Move)
    requires TaskFits(r, db.nextId, db.auth.active) && Enabled(r, m) && (m.GiveUpMove? || m.UnreserveMove?)
    ensures IdsBelow(After(r, m), db.nextId) && PeopleOk(db.auth.active, After(r, m))
    ensures After(r, m).assignment.None? || After(r, m).assignment == r.assignment
  {
    if m.GiveUpMove? { assert VersionOk(r, r.assignment.value.version); }
    hide VersionsOk, ItemsOk, BlocksOk;
  }

  lemma ReviseFits(db: Db, r: Rows, m: Move)
    requires TaskFits(r, db.nextId, db.auth.active) && Enabled(r, m) && Fits(db, r, m) && m.ReviseMove?
    ensures IdsBelow(After(r, m), db.nextId) && PeopleOk(db.auth.active, After(r, m))
  {
  }

  lemma ResetFits(db: Db, r: Rows, m: Move)
    requires TaskFits(r, db.nextId, db.auth.active) && Enabled(r, m) && Fits(db, r, m) && m.ResetMove?
    ensures IdsBelow(After(r, m), db.nextId) && PeopleOk(db.auth.active, After(r, m))
    ensures After(r, m).assignment.None? && After(r, m).reserved == r.reserved && After(r, m).current == r.current
    ensures forall u :: SubmittedBy(After(r, m), u) <==> SubmittedBy(r, u)
    ensures r.current.Some? ==> After(r, m).draft.None?
  {
    ReleasedIsClosed(r);
    if r.current.Some? { assert VersionOk(r, r.current.value); }
  }

  lemma RevokeFits(db: Db, r: Rows, m: Move)
    requires TaskFits(r, db.nextId, db.auth.active) && Enabled(r, m) && Fits(db, r, m) && m.RevokeMove?
    ensures IdsBelow(After(r, m), db.nextId) && PeopleOk(db.auth.active, After(r, m))
    ensures After(r, m).assignment.None? && After(r, m).reserved.None? && After(r, m).current.None?
  {
    RevokeHasEffect(r, m);
  }

  lemma RestoreFits(db: Db, r: Rows, m: Move)
    requires TaskFits(r, db.nextId, db.auth.active) && Enabled(r, m) && Fits(db, r, m) && m.RestoreMove?
    ensures IdsBelow(After(r, m), db.nextId) && PeopleOk(db.auth.active, After(r, m))
    ensures After(r, m).assignment.None?
  {
    assert ItemOk(r, m.source);
    PutBackIs(r, m.source);
  }

  lemma MoveFits(db: Db, r: Rows, m: Move)
    requires TaskFits(r, db.nextId, db.auth.active) && Enabled(r, m) && Fits(db, r, m)
    ensures TaskFits(After(r, m), db.nextId, db.auth.active)
    ensures var a := After(r, m).assignment;
            a.None? || a == r.assignment || ((m.TakeMove? || m.ReviseMove?) && a.value.user == m.user)
  {
    MoveKeepsRows(r, m);
    hide RowsOk, IdsBelow, PeopleOk;
    match m
    case TakeMove(_, _, _) => TakeFits(db, r, m);
    case SaveMove(_, _) => EditFits(db, r, m);
    case SubmitMove(_, _, _, _) => SubmitFits(db, r, m);
    case GiveUpMove => GiveUpFits(db, r, m);
    case ReviseMove(_, _, _) => ReviseFits(db, r, m);
    case ResetMove(_) => ResetFits(db, r, m);
    case UnreserveMove(_) => GiveUpFits(db, r, m);
    case RevokeMove(_, _, _, _, _, _) => RevokeFits(db, r, m);
    case RestoreMove(_, _) => RestoreFits(db, r, m);
    case RefreshMove(_, _, _) => EditFits(db, r, m);
  }

  lemma MoveKeepsInv(db: Db, t: TaskId, m: Move)
    requires Inv(db) && t in db.tasks && Enabled(db.tasks[t], m) && Fits(db, db.tasks[t], m)
    ensures Inv(SetRows(db, t, After(db.tasks[t], m)))
  {
    assert TaskFits(db.tasks[t], db.nextId, db.auth.active);
    MoveFits(db, db.tasks[t], m);
    SetRowsKeepsInv(db, t, After(db.tasks[t], m));
  }

  /* ---------- transactions on one task ---------- */

  predicate Administrative(c: Command) {
    c.DoRevoke? || c.DoRestore? || c.DoRelease? || c.DoDeactivate?
  }

  /** The move that a command other than an administrative one makes when it ends with `o`, and on which task. */
  function MoveOf(db: Db, c: Command, o: Outcome): Option<(TaskId, Move)> {
    if !o.Ok? then None
    else
      match c
      case DoClaim(fence, t) =>
        if o.response.ClaimedTask? then Some((t, TakeMove(fence.user, db.nextId, db.auth.now))) else None
      case DoSave(fence, _, expected, dirty, _, _) =>
        if HasAssignment(db, fence.user) then Some((db.held[fence.user], SaveMove(expected, dirty))) else None
      case DoComplete(fence, _, expected, target, reasons, dirty, _, _) =>
        if HasAssignment(db, fence.user)
        then Some((db.held[fence.user], SubmitMove(expected, dirty, target, reasons))) else None
      case DoAbandon(fence, _, _, _) =>
        if HasAssignment(db, fence.user) then Some((db.held[fence.user], GiveUpMove)) else None
      case DoReopen(fence, t, _) => Some((t, ReviseMove(fence.user, db.nextId, db.nextId + 1)))
      case DoOperatorRelease(u) => if HasAssignment(db, u) then Some((db.held[u], GiveUpMove)) else None
      case DoPreprocess(i) =>
        if o.response.RefreshedTask? && i.path in db.paths
        then Some((db.paths[i.path], RefreshMove(i.duration, i.rows, i.eligible))) else None
      case _ => None
  }

  /** The rows of the tasks there were change by one move on one task, or not at all. */
  ghost predicate Moved(db: Db, db': Db, change: Option<(TaskId, Move)>) {
    match change
    case None => forall t <- db.tasks :: t in db'.tasks && db'.tasks[t] == db.tasks[t]
    case Some(tm) =>
      && tm.0 in db.tasks && Enabled(db.tasks[tm.0], tm.1)
      && db'.tasks == db.tasks[tm.0 := After(db.tasks[tm.0], tm.1)]
  }

  lemma ClaimStep(db: Db, c: Command)
    requires Inv(db) && c.DoClaim?
    ensures var out := Claim(db, c.fence, c.task); Inv(out.0) && Moved(db, out.0, MoveOf(db, c, out.1))
  {
    var out := Claim(db, c.fence, c.task);
    if out.1.Ok? && out.1.response.ClaimedTask? {
      ClaimTakes(db, c);
    } else {
      ClaimTakesNothing(db, c);
    }
    hide Inv, Moved, MoveOf, Claim;
  }

  lemma ClaimTakesNothing(db: Db, c: Command)
    requires Inv(db) && c.DoClaim?
    requires !(Claim(db, c.fence, c.task).1.Ok? && Claim(db, c.fence, c.task).1.response.ClaimedTask?)
    ensures var out := Claim(db, c.fence, c.task); Inv(out.0) && Moved(db, out.0, MoveOf(db, c, out.1))
  {
    hide Inv, Taken, Claimable, S.Admit, S.Touch;
    TouchKeepsInv(db, c.fence);
  }

  lemma NotHeld(db: Db, u: UserId)
    requires Inv(db) && !HasAssignment(db, u)
    ensures u !in db.held
  {
  }

  lemma ClaimTakes(db: Db, c: Command)
    requires Inv(db) && c.DoClaim?
    requires Claim(db, c.fence, c.task).1.Ok? && Claim(db, c.fence, c.task).1.response.ClaimedTask?
    ensures var out := Claim(db, c.fence, c.task); Inv(out.0) && Moved(db, out.0, MoveOf(db, c, out.1))
  {
    hide Inv;
    var m := TakeMove(c.fence.user, db.nextId, db.auth.now);
    var db1 := db.(nextId := db.nextId + 1);
    NotHeld(db, c.fence.user);
    BumpKeepsInv(db, db.nextId + 1);
    MoveKeepsInv(db1, c.task, m);
    TouchKeepsInv(SetRows(db1, c.task, After(db.tasks[c.task], m)), c.fence);
  }

  lemma SaveStep(db: Db, c: Command)
    requires Inv(db) && c.DoSave?
    ensures var out := Save(db, c.fence, c.lease, c.expected, c.dirty, c.op, c.request);
            Inv(out.0) && Moved(db, out.0, MoveOf(db, c, out.1))
  {
    hide Inv;
    var out := Save(db, c.fence, c.lease, c.expected, c.dirty, c.op, c.request);
    if out.1.Ok? {
      var t, m := db.held[c.fence.user], SaveMove(c.expected, c.dirty);
      MoveKeepsInv(db, t, m);
      FinishKeepsInv(SetRows(db, t, After(db.tasks[t], m)), c.fence, c.op, SaveRoute, c.request, out.1.response);
    }
  }

  lemma CompleteStep(db: Db, c: Command)
    requires Inv(db) && c.DoComplete?
    ensures var out := Complete(db, c.fence, c.lease, c.expected, c.target, c.reasons, c.dirty, c.op, c.request);
            Inv(out.0) && Moved(db, out.0, MoveOf(db, c, out.1))
  {
    hide Inv;
    var out := Complete(db, c.fence, c.lease, c.expected, c.target, c.reasons, c.dirty, c.op, c.request);
    if out.1.Ok? {
      var t, m := db.held[c.fence.user], SubmitMove(c.expected, c.dirty, c.target, c.reasons);
      MoveKeepsInv(db, t, m);
      FinishKeepsInv(SetRows(db, t, After(db.tasks[t], m)), c.fence, c.op, CompleteRoute, c.request, out.1.response);
    }
  }

  lemma AbandonStep(db: Db, c: Command)
    requires Inv(db) && c.DoAbandon?
    ensures var out := Abandon(db, c.fence, c.lease, c.op, c.confirm);
            Inv(out.0) && Moved(db, out.0, MoveOf(db, c, out.1))
  {
    hide Inv;
    var out := Abandon(db, c.fence, c.lease, c.op, c.confirm);
    if out.1.Ok? {
      var t := db.held[c.fence.user];
      MoveKeepsInv(db, t, GiveUpMove);
      FinishKeepsInv(SetRows(db, t, After(db.tasks[t], GiveUpMove)), c.fence, c.op, AbandonRoute,
                     AbandonBody(c.lease, c.confirm), AbandonedTask);
    }
  }

  lemma OperatorReleaseStep(db: Db, c: Command)
    requires Inv(db) && c.DoOperatorRelease?
    ensures var out := OperatorRelease(db, c.user); Inv(out.0) && Moved(db, out.0, MoveOf(db, c, out.1))
  {
    hide Inv;
    if HasAssignment(db, c.user) { MoveKeepsInv(db, db.held[c.user], GiveUpMove); }
  }

  lemma FreshId(db: Db, t: TaskId, id: nat)
    requires Inv(db) && t in db.tasks && db.nextId <= id
    ensures id !in db.tasks[t].versions && id !in db.tasks[t].items
  {
  }

  lemma ReopenStep(db: Db, c: Command)
    requires Inv(db) && c.DoReopen?
    ensures var out := Reopen(db, c.fence, c.task, c.op); Inv(out.0) && Moved(db, out.0, MoveOf(db, c, out.1))
  {
    hide Inv, S.Touch, Revising;
    var out := Reopen(db, c.fence, c.task, c.op);
    if out.1.Ok? {
      var m := ReviseMove(c.fence.user, db.nextId, db.nextId + 1);
      var db1 := db.(nextId := db.nextId + 2);
      BumpKeepsInv(db, db.nextId + 2);
      FreshId(db, c.task, db.nextId);
      NotHeld(db, c.fence.user);
      MoveKeepsInv(db1, c.task, m);
      FinishKeepsInv(SetRows(db1, c.task, After(db.tasks[c.task], m)), c.fence, c.op, ReopenRoute, ReopenBody(c.task),
                     ReopenedTask(c.task, db.nextId + 1));
    }
  }

  lemma NewTaskKeepsTasks(db: Db, i: Ingest)
    requires Inv(db)
    ensures TasksOk(NewTask(db, i)) && db.nextId !in db.tasks
  {
    hide RowsOk;
    BumpKeepsInv(db, db.nextId + 3);
    var db1 := db.(nextId := db.nextId + 3);
    var db' := NewTask(db, i);
    NewTaskRowsOk(db.nextId + 1, db.nextId + 2, i.duration, i.rows, i.eligible);
    assert db.nextId !in db.tasks;
    forall t | t in db'.tasks ensures t < db'.nextId && TaskFits(db'.tasks[t], db'.nextId, db'.auth.active) {
      if t != db.nextId { assert TaskFits(db1.tasks[t], db1.nextId, db1.auth.active); }
    }
  }

  lemma NewTaskKeepsHeld(db: Db, i: Ingest)
    requires HeldOk(db) && db.nextId !in db.tasks
    ensures HeldOk(NewTask(db, i))
  {
    var db' := NewTask(db, i);
    forall u | u in db'.held ensures db'.held[u] in db'.tasks && Holds(db'.tasks[db'.held[u]], u) {
      assert Holds(db.tasks[db.held[u]], u);
    }
  }

  lemma NewTaskKeepsLogs(db: Db, i: Ingest)
    requires LogsOk(db)
    ensures LogsOk(NewTask(db, i))
  {
  }

  lemma NewTaskKeepsInv(db: Db, i: Ingest)
    requires Inv(db)
    ensures Inv(NewTask(db, i)) && db.nextId !in db.tasks
  {
    NewTaskKeepsTasks(db, i);
    NewTaskKeepsHeld(db, i);
    NewTaskKeepsLogs(db, i);
    hide TasksOk, HeldOk, LogsOk, S.AuthOk;
  }

  lemma PreprocessStep(db: Db, c: Command)
    requires Inv(db) && c.DoPreprocess?
    ensures var out := Preprocess(db, c.ingest); Inv(out.0) && Moved(db, out.0, MoveOf(db, c, out.1))
  {
    hide Inv;
    NewTaskKeepsInv(db, c.ingest);
    var change := MoveOf(db, c, Preprocess(db, c.ingest).1);
    if change.Some? { MoveKeepsInv(db, change.value.0, change.value.1); }
  }

  lemma SessionCommandStep(db: Db, c: Command)
    requires Inv(db) && c.DoSession?
    ensures var out := SessionStep(db, c.session); Inv(out.0) && Moved(db, out.0, MoveOf(db, c, out.1))
  {
    hide TasksOk, HeldOk, LogsOk, S.AuthOk, S.Step, Alive;
    if !c.session.Write? && !c.session.Deactivate? {
      S.StepKeepsAuthOk(db.auth, c.session);
      AccountsStayAlive(db.auth, c.session);
      AuthKeepsInv(db, S.Step(db.auth, c.session).0);
    }
  }

  lemma AccountsStayAlive(a: S.Auth, c: S.Command)
    requires !c.Write? && !c.Deactivate?
    ensures forall u :: Alive(a.active, u) ==> Alive(S.Step(a, c).0.active, u)
    ensures forall u <- a.active :: u in S.Step(a, c).0.active && S.Step(a, c).0.active[u] == a.active[u]
  {
  }

  lemma OrdinaryStep(db: Db, c: Command)
    requires Inv(db) && !Administrative(c)
    ensures var out := Step(db, c); Inv(out.0) && Moved(db, out.0, MoveOf(db, c, out.1))
  {
    hide Inv, Moved, MoveOf, Claim, Save, Complete, Abandon, Reopen, OperatorRelease, Preprocess, SessionStep;
    match c
    case DoClaim(_, _) => ClaimStep(db, c);
    case DoSave(_, _, _, _, _, _) => SaveStep(db, c);
    case DoComplete(_, _, _, _, _, _, _, _) => CompleteStep(db, c);
    case DoAbandon(_, _, _, _) => AbandonStep(db, c);
    case DoReopen(_, _, _) => ReopenStep(db, c);
    case DoOperatorRelease(_) => OperatorReleaseStep(db, c);
    case DoPreprocess(_) => PreprocessStep(db, c);
    case DoSession(_) => SessionCommandStep(db, c);
  }
}
