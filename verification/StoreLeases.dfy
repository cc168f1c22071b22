/** Preprocessing leases and the store together: who may overwrite a task's recognised segments, over whole runs. */
module StoreLeases {
  import opened Common
  import opened TaskRows
  import opened Store
  import opened StoreInvariant
  import opened StoreRuns
  import opened StoreRestore
  import L = ProcessingLease
  import Q = StoreRequests

  /** The lease columns of a task. */
  datatype LeaseRow = LeaseRow(token: Option<Token>, until: Option<nat>, version: nat)

  datatype Platform = Platform(db: Db, leases: map<TaskId, LeaseRow>, nextToken: Token)

  function RowOf(p: Platform, t: TaskId): LeaseRow {
    if t in p.leases then p.leases[t] else LeaseRow(None, None, 0)
  }

  function LeaseOf(p: Platform, t: TaskId): L.Lease {
    var row := RowOf(p, t);
    L.Lease(p.db.auth.now, row.token, row.until, row.version, p.nextToken)
  }

  function WithLease(p: Platform, t: TaskId, l: L.Lease): Platform {
    p.(leases := p.leases[t := LeaseRow(l.token, l.until, l.version)], nextToken := l.nextToken)
  }

  predicate Holder(p: Platform, t: TaskId, k: Token) {
    L.HeldBy(LeaseOf(p, t), k)
  }

  /** Lease calls, the storing of recognised segments under a token or without one, and every other command. */
  datatype Call =
    | Acquire(task: TaskId, ttl: nat, expected: Option<nat>)
    | Renew(task: TaskId, token: Token, ttl: nat)
    | Finish(task: TaskId, maybe: Option<Token>)
    | StoreRows(ingest: Ingest, maybe: Option<Token>)
    | Other(command: Command)

  /** The task that an audio path belongs to already. */
  function Known(p: Platform, path: string): Option<TaskId> {
    if path in p.db.paths && p.db.paths[path] in p.db.tasks then Some(p.db.paths[path]) else None
  }

  /** The token is checked before anything is written, and given back in the same transaction, so it serves once. A task
      made in this transaction has no lease, so a token is refused with it. */
  function StoreUnder(p: Platform, i: Ingest, maybe: Option<Token>): (Platform, Outcome) {
    match Known(p, i.path)
    case None =>
      if maybe.Some? then (p, Refuse(Conflict))
      else var (db, o) := Preprocess(p.db, i); (p.(db := db), o)
    case Some(t) =>
      var l := LeaseOf(p, t);
      var (db, o) := Preprocess(p.db, i.(leaseHeld := L.Require(l, maybe).Fine?));
      if o.Ok? && !i.metadataOnly && maybe.Some?
      then (WithLease(p.(db := db), t, L.Complete(l, maybe).0), o) else (p.(db := db), o)
  }

  ghost function Step(p: Platform, c: Call): (Platform, Option<Outcome>) {
    match c
    case Acquire(t, ttl, expected) =>
      if t in p.db.tasks then (WithLease(p, t, L.Acquire(LeaseOf(p, t), ttl, expected).0), None) else (p, None)
    case Renew(t, k, ttl) =>
      if t in p.db.tasks then (WithLease(p, t, L.Renew(LeaseOf(p, t), k, ttl).0), None) else (p, None)
    case Finish(t, maybe) =>
      if t in p.db.tasks then (WithLease(p, t, L.Complete(LeaseOf(p, t), maybe).0), None) else (p, None)
    case StoreRows(i, maybe) => var (p', o) := StoreUnder(p, i, maybe); (p', Some(o))
    case Other(c) =>
      if c.DoPreprocess? then (p, None) else (p.(db := Store.Step(p.db, c).0), Some(Store.Step(p.db, c).1))
  }

  ghost function Run(p: Platform, cs: seq<Call>): Platform
    decreases |cs|
  {
    if cs == [] then p else Run(Step(p, cs[0]).0, cs[1..])
  }

  /** The call has overwritten the recognised segments of the task. */
  ghost predicate Refreshes(p: Platform, c: Call, t: TaskId) {
    c.StoreRows? && Step(p, c).1 == Some(Ok(RefreshedTask(t)))
  }

  ghost predicate RefreshesIn(p: Platform, cs: seq<Call>, t: TaskId)
    decreases |cs|
  {
    cs != [] && (Refreshes(p, cs[0], t) || RefreshesIn(Step(p, cs[0]).0, cs[1..], t))
  }

  /* ---------- one call ---------- */

  /** A refresh is accepted only from the live holder of the task's lease, whose token is then spent, or, from a caller
      without a token, while nobody holds it. */
  lemma RefreshIsFenced(p: Platform, c: Call, t: TaskId)
    requires Refreshes(p, c, t)
    ensures Known(p, c.ingest.path) == Some(t)
    ensures match c.maybe
            case Some(k) => Holder(p, t, k) && forall j :: !Holder(Step(p, c).0, t, j)
            case None => !L.Live(LeaseOf(p, t))
  {
    hide IsProtected, Refreshed, NewRows;
  }

  /** The lease columns say that a token holds until a time to come. */
  predicate IsLeased(p: Platform, t: TaskId) {
    t in p.leases && p.leases[t].token.Some? && p.leases[t].until.Some? && p.db.auth.now < p.leases[t].until.value
  }

  /** A caller with a token has the lease in force; one without finds none in force. */
  predicate MayStore(p: Platform, t: TaskId, maybe: Option<Token>) {
    if maybe.Some? then IsLeased(p, t) && p.leases[t].token == maybe else !IsLeased(p, t)
  }

  /** The token is given back; the version stays. */
  function Spent(p: Platform, t: TaskId, maybe: Option<Token>): map<TaskId, LeaseRow>
    requires t in p.leases || maybe.None?
  {
    if maybe.Some? then p.leases[t := LeaseRow(None, None, p.leases[t].version)] else p.leases
  }

  /** Storing segments for a known path. Metadata needs no lease and leaves it alone. Otherwise the caller must be the
      holder, or find nobody, and is refused if not; a task in human hands is skipped with the token spent, or refused with
      nothing changed; any other is overwritten and the token spent. For a new path a token is refused, as there is no
      lease yet. */
  lemma StoreOutcome(p: Platform, i: Ingest, maybe: Option<Token>)
    requires Inv(p.db)
    ensures var (p', out) := StoreUnder(p, i, maybe);
            if i.path !in p.db.paths then
              if maybe.Some? then p' == p && out == Refuse(Conflict)
              else p' == p.(db := p'.db) && (p'.db, out) == Store.Step(p.db, DoPreprocess(i)) && out == Ok(CreatedTask(p.db.nextId))
            else
              var t := p.db.paths[i.path];
              && t in p.db.tasks
              && var busy := Q.InHumanHands(p.db.tasks[t]);
                if i.metadataOnly then
                  p' == p && out == if !busy then Ok(MetadataOnly(t)) else if i.skipIfProtected then Ok(SkippedHuman(t))
                                    else Refuse(Protected)
                else if !MayStore(p, t, maybe) then p' == p && out == Refuse(Conflict)
                else
                  && (t in p.leases || maybe.None?)
                  && if busy && !i.skipIfProtected then p' == p && out == Refuse(Protected)
                     else if busy then p' == p.(leases := Spent(p, t, maybe)) && out == Ok(SkippedHuman(t))
                     else
                       && t in p'.db.tasks && Q.RefreshedBy(p.db.tasks[t], p'.db.tasks[t], i) && out == Ok(RefreshedTask(t))
                       && p' == p.(leases := Spent(p, t, maybe), db := p.db.(tasks := p.db.tasks[t := p'.db.tasks[t]]))
  {
    hide Inv, Preprocess, Q.InHumanHands, Q.RefreshedBy;
    Q.PreprocessOutcome(p.db, i);
    PreprocessIs(p.db, i);
    if i.path in p.db.paths {
      var t := p.db.paths[i.path];
      var j := i.(leaseHeld := L.Require(LeaseOf(p, t), maybe).Fine?);
      Q.PreprocessOutcome(p.db, j);
      PreprocessIs(p.db, j);
      SameRefresh(p.db.tasks[t], i, j);
      assert L.Require(LeaseOf(p, t), maybe).Fine? <==> MayStore(p, t, maybe);
      assert p.(db := p.db) == p;
    }
    hide Store.Step;
  }

  lemma PreprocessIs(db: Db, i: Ingest)
    ensures Store.Step(db, DoPreprocess(i)) == Preprocess(db, i)
  {
    hide Preprocess, Claim, Save, Complete, Abandon, Reopen, OperatorRelease, SessionStep;
    hide RevokeTasks, RestoreTasks, Release, Deactivate;
  }

  lemma SameRefresh(r: Rows, i: Ingest, j: Ingest)
    requires j == i.(leaseHeld := j.leaseHeld)
    ensures forall r' :: Q.RefreshedBy(r, r', i) <==> Q.RefreshedBy(r, r', j)
  {
  }

  lemma ClockGoesOn(p: Platform, c: Call)
    requires Inv(p.db)
    ensures Inv(Step(p, c).0.db) && p.db.auth.now <= Step(p, c).0.db.auth.now
  {
    match c
    case StoreRows(i, maybe) => StoringKeepsInv(p, i, maybe);
    case Other(c) => OtherKeepsInv(p, c);
    case _ => hide Inv;
  }

  lemma OtherKeepsInv(p: Platform, c: Command)
    requires Inv(p.db)
    ensures Inv(Store.Step(p.db, c).0) && p.db.auth.now <= Store.Step(p.db, c).0.auth.now
  {
    hide Inv, Store.Step;
    StepKeepsInv(p.db, c);
    ClockAdvances(p.db, c);
  }

  lemma PreprocessKeepsInv(db: Db, i: Ingest)
    requires Inv(db)
    ensures Inv(Preprocess(db, i).0) && db.auth.now <= Preprocess(db, i).0.auth.now
  {
    hide Inv, Preprocess, Claim, Save, Complete, Abandon, Reopen, OperatorRelease, SessionStep;
    hide RevokeTasks, RestoreTasks, Release, Deactivate;
    StepKeepsInv(db, DoPreprocess(i));
    ClockAdvances(db, DoPreprocess(i));
  }

  lemma StoringKeepsInv(p: Platform, i: Ingest, maybe: Option<Token>)
    requires Inv(p.db)
    ensures Inv(StoreUnder(p, i, maybe).0.db) && p.db.auth.now <= StoreUnder(p, i, maybe).0.db.auth.now
  {
    hide Inv, Preprocess, L.Require, L.Complete, LeaseOf;
    PreprocessKeepsInv(p.db, i);
    if Known(p, i.path).Some? {
      PreprocessKeepsInv(p.db, i.(leaseHeld := L.Require(LeaseOf(p, Known(p, i.path).value), maybe).Fine?));
    }
  }

  lemma PreprocessKeepsAuth(db: Db, i: Ingest)
    ensures Preprocess(db, i).0.auth == db.auth
  {
    hide Refreshed, NewRows, IsProtected;
  }

  /** What a call may do to a lease: renew, spend or let lapse one that is held, or grant a new token. */
  ghost predicate LeaseMoves(p: Platform, p': Platform, t: TaskId) {
    forall k: Token :: k < p.nextToken && Holder(p', t, k) ==> Holder(p, t, k)
  }

  lemma LeaseCallMoves(p: Platform, c: Call, t: TaskId)
    requires c.Acquire? || c.Renew? || c.Finish?
    ensures LeaseMoves(p, Step(p, c).0, t)
  {
  }

  lemma TimeMoves(p: Platform, db: Db, t: TaskId)
    requires p.db.auth.now <= db.auth.now
    ensures LeaseMoves(p, p.(db := db), t)
  {
  }

  lemma SpendingMoves(p: Platform, t0: TaskId, maybe: Option<Token>, t: TaskId)
    ensures LeaseMoves(p, WithLease(p, t0, L.Complete(LeaseOf(p, t0), maybe).0), t)
  {
  }

  lemma MovesChain(p: Platform, q: Platform, r: Platform, t: TaskId)
    requires LeaseMoves(p, q, t) && LeaseMoves(q, r, t) && p.nextToken <= q.nextToken
    ensures LeaseMoves(p, r, t)
  {
    hide Holder;
  }

  lemma StoringMoves(p: Platform, i: Ingest, maybe: Option<Token>, t: TaskId)
    requires Inv(p.db)
    ensures LeaseMoves(p, StoreUnder(p, i, maybe).0, t)
  {
    var p' := StoreUnder(p, i, maybe).0;
    StoringKeepsInv(p, i, maybe);
    TimeMoves(p, p'.db, t);
    var q := p.(db := p'.db);
    hide Inv, Preprocess, LeaseMoves;
    if Known(p, i.path).Some? {
      var t0 := Known(p, i.path).value;
      PreprocessKeepsAuth(p.db, i.(leaseHeld := L.Require(LeaseOf(p, t0), maybe).Fine?));
      SpendingMoves(q, t0, maybe, t);
      MovesChain(p, q, WithLease(q, t0, L.Complete(LeaseOf(q, t0), maybe).0), t);
      SpentLater(p, p'.db, t0, maybe);
    }
  }

  /** The clock does not move inside the transaction. */
  lemma SpentLater(p: Platform, db: Db, t: TaskId, maybe: Option<Token>)
    requires p.db.auth == db.auth
    ensures WithLease(p.(db := db), t, L.Complete(LeaseOf(p, t), maybe).0)
            == WithLease(p.(db := db), t, L.Complete(LeaseOf(p.(db := db), t), maybe).0)
  {
  }

  lemma CallMoves(p: Platform, c: Call, t: TaskId)
    requires Inv(p.db)
    ensures LeaseMoves(p, Step(p, c).0, t)
  {
    hide Inv, LeaseMoves, StoreUnder, Store.Step;
    match c
    case StoreRows(i, maybe) => StoringMoves(p, i, maybe, t);
    case Other(command) =>
      OtherKeepsInv(p, command);
      TimeMoves(p, Store.Step(p.db, command).0, t);
      TimeMoves(p, p.db, t);
    case _ => LeaseCallMoves(p, c, t);
  }

  /** Whoever holds the lease after a call held it before or was granted it by that very call; and no refresh happened
      meanwhile. */
  lemma HolderHeldBefore(p: Platform, c: Call, t: TaskId, k: Token)
    requires Inv(p.db) && k < p.nextToken && Holder(Step(p, c).0, t, k)
    ensures Holder(p, t, k) && !Refreshes(p, c, t)
  {
    CallMoves(p, c, t);
    hide Inv, Step;
    if Refreshes(p, c, t) {
      RefreshIsFenced(p, c, t);
      hide Refreshes;
    }
  }

  lemma TokensGrow(p: Platform, c: Call)
    ensures p.nextToken <= Step(p, c).0.nextToken
  {
    hide Preprocess, Store.Step;
  }

  /* ---------- over every run ---------- */

  /** While a token holds, no refresh has overwritten the task's recognised segments since it was granted. */
  lemma {:induction false} HolderIsUndisturbed(p: Platform, cs: seq<Call>, t: TaskId, k: Token)
    requires Inv(p.db) && k < p.nextToken && Holder(Run(p, cs), t, k)
    ensures Holder(p, t, k) && !RefreshesIn(p, cs, t)
    decreases |cs|
  {
    hide Inv, Step, Holder, Refreshes;
    if cs != [] {
      ClockGoesOn(p, cs[0]);
      TokensGrow(p, cs[0]);
      HolderIsUndisturbed(Step(p, cs[0]).0, cs[1..], t, k);
      HolderHeldBefore(p, cs[0], t, k);
    }
  }

  /** A refresh accepted under a token, at any time after the grant, is the first refresh of the task since the grant and
      was made while that token was the only one that held; afterwards the token never serves again. */
  lemma RefreshUnderTheOnlyToken(p: Platform, cs: seq<Call>, c: Call, later: seq<Call>, t: TaskId)
    requires Inv(p.db) && c.StoreRows? && c.maybe.Some? && c.maybe.value < p.nextToken && Refreshes(Run(p, cs), c, t)
    ensures Holder(p, t, c.maybe.value) && !RefreshesIn(p, cs, t)
    ensures forall k :: Holder(Run(p, cs), t, k) ==> k == c.maybe.value
    ensures !Holder(Run(Step(Run(p, cs), c).0, later), t, c.maybe.value)
    ensures !Refreshes(Run(Step(Run(p, cs), c).0, later), c, t)
  {
    var q, k := Run(p, cs), c.maybe.value;
    RefreshIsFenced(q, c, t);
    HolderIsUndisturbed(p, cs, t, k);
    RunKeepsTables(p, cs);
    var q' := Step(q, c).0;
    ClockGoesOn(q, c);
    TokensGrow(q, c);
    hide Inv, Step, Run, Refreshes;
    if Holder(Run(q', later), t, k) { HolderIsUndisturbed(q', later, t, k); }
    if Refreshes(Run(q', later), c, t) { RefreshIsFenced(Run(q', later), c, t); }
  }

  lemma {:induction false} RunKeepsTables(p: Platform, cs: seq<Call>)
    requires Inv(p.db)
    ensures Inv(Run(p, cs).db) && p.nextToken <= Run(p, cs).nextToken
    decreases |cs|
  {
    hide Inv, Step;
    if cs != [] {
      ClockGoesOn(p, cs[0]);
      TokensGrow(p, cs[0]);
      RunKeepsTables(Step(p, cs[0]).0, cs[1..]);
    }
  }
}
