/** Sessions, fences, accounts and stored operations over every run of the store. */
module StoreSessions {
  import opened Common
  import opened TaskRows
  import opened TaskInvariant
  import opened Store
  import opened StoreInvariant
  import opened StoreAdmin
  import opened StoreRuns
  import S = Sessions

  /* ---------- what a command does to the session table ---------- */

  predicate Writes(c: Command) {
    c.DoClaim? || c.DoSave? || c.DoComplete? || c.DoAbandon? || c.DoReopen?
  }

  /** The session command that a command with outcome `o` amounts to for the session table, if any. */
  function SessionEffect(c: Command, o: Outcome): seq<S.Command> {
    if !o.Ok? then []
    else if Writes(c) then [S.Write(c.fence)]
    else
      match c
      case DoDeactivate(_, u, _) => [S.Deactivate(u)]
      case DoSession(sc) => [sc]
      case _ => []
  }

  lemma RunOne(a: S.Auth, c: S.Command)
    ensures S.Run(a, [c]) == S.Step(a, c).0
  {
    assert [c][1..] == [];
    assert S.Run(S.Step(a, c).0, []) == S.Step(a, c).0;
  }

  lemma WriteAuth(a: S.Auth, fence: S.Fence)
    requires S.Admit(a, fence).None?
    ensures S.Run(a, [S.Write(fence)]) == S.Touch(a, fence)
  {
    RunOne(a, S.Write(fence));
  }

  ghost predicate Follows(db: Db, c: Command, out: (Db, Outcome)) {
    && out.0.auth == S.Run(db.auth, SessionEffect(c, out.1))
    && (out.1.Ok? && Writes(c) ==> S.Admit(db.auth, c.fence).None?)
  }

  lemma ClaimAuth(db: Db, c: Command)
    requires c.DoClaim?
    ensures Follows(db, c, Claim(db, c.fence, c.task))
  {
    if S.Admit(db.auth, c.fence).None? { WriteAuth(db.auth, c.fence); }
    hide S.Admit, S.Touch, S.Step, Claimable;
  }

  lemma SaveAuth(db: Db, c: Command)
    requires c.DoSave?
    ensures Follows(db, c, Save(db, c.fence, c.lease, c.expected, c.dirty, c.op, c.request))
  {
    if S.Admit(db.auth, c.fence).None? { WriteAuth(db.auth, c.fence); }
    hide S.Admit, S.Touch, S.Step, EditedVersion;
  }

  lemma CompleteAuth(db: Db, c: Command)
    requires c.DoComplete?
    ensures Follows(db, c, Complete(db, c.fence, c.lease, c.expected, c.target, c.reasons, c.dirty, c.op, c.request))
  {
    hide S.Admit, S.Touch, S.Step, EditedVersion, SubmissionProblem, PublishedRows, Reasons, Leased;
    if S.Admit(db.auth, c.fence).None? { WriteAuth(db.auth, c.fence); }
  }

  lemma AbandonAuth(db: Db, c: Command)
    requires c.DoAbandon?
    ensures Follows(db, c, Abandon(db, c.fence, c.lease, c.op, c.confirm))
  {
    if S.Admit(db.auth, c.fence).None? { WriteAuth(db.auth, c.fence); }
    hide S.Admit, S.Touch, S.Step, GivenUp;
  }

  lemma ReopenAuth(db: Db, c: Command)
    requires c.DoReopen?
    ensures Follows(db, c, Reopen(db, c.fence, c.task, c.op))
  {
    if S.Admit(db.auth, c.fence).None? { WriteAuth(db.auth, c.fence); }
    hide S.Admit, S.Touch, S.Step, Revising;
  }

  lemma SessionAuth(db: Db, c: Command)
    requires c.DoSession?
    ensures Follows(db, c, SessionStep(db, c.session))
  {
    RunOne(db.auth, c.session);
    hide S.Step;
  }

  lemma DeactivateAuth(db: Db, c: Command)
    requires Inv(db) && c.DoDeactivate?
    ensures Follows(db, c, Deactivate(db, c.admin, c.user, c.reason))
  {
    hide Inv, Deactivate, Quiet;
    DeactivateStep(db, c);
    RunOne(db.auth, S.Deactivate(c.user));
  }

  lemma BatchAuth(db: Db, c: Command)
    requires Inv(db) && (c.DoRevoke? || c.DoRestore? || c.DoRelease?)
    ensures Step(db, c).0.auth == db.auth
  {
    hide Inv, MovedBy;
    hide Claim, Save, Complete, Abandon, Reopen, OperatorRelease, Preprocess, SessionStep;
    hide RevokeTasks, RestoreTasks, Release, Deactivate;
    match c
    case DoRevoke(_, _, _, _, _, _) => RevokeStep(db, c);
    case DoRestore(_, _, _, _) => RestoreStep(db, c);
    case DoRelease(_, _, _) => ReleaseStep(db, c);
  }

  lemma AuthFollows(db: Db, c: Command)
    requires Inv(db)
    ensures Follows(db, c, Step(db, c))
  {
    if c.DoRevoke? || c.DoRestore? || c.DoRelease? {
      hide Step, Inv;
      BatchAuth(db, c);
    } else {
      hide Inv, Follows, RevokeTasks, RestoreTasks, Release, Deactivate, Claim, Save, Complete, Abandon, Reopen, SessionStep;
      match c
      case DoClaim(_, _) => ClaimAuth(db, c);
      case DoSave(_, _, _, _, _, _) => SaveAuth(db, c);
      case DoComplete(_, _, _, _, _, _, _, _) => CompleteAuth(db, c);
      case DoAbandon(_, _, _, _) => AbandonAuth(db, c);
      case DoReopen(_, _, _) => ReopenAuth(db, c);
      case DoSession(_) => SessionAuth(db, c);
      case DoDeactivate(_, _, _) => DeactivateAuth(db, c);
      case _ => RestAuth(db, c);
    }
  }

  lemma RestAuth(db: Db, c: Command)
    requires c.DoOperatorRelease? || c.DoPreprocess?
    ensures Follows(db, c, Step(db, c))
  {
    hide RevokeTasks, RestoreTasks, Release, Deactivate, Claim, Save, Complete, Abandon, Reopen, SessionStep;
    hide GivenUp, Refreshed, NewRows;
  }

  /* ---------- fences ---------- */

  /** The server draws a new session id for every login and takeover. */
  predicate ReissuesIn(c: Command, fence: S.Fence) {
    c.DoSession? && S.Reissues(c.session, fence)
  }

  lemma FenceStep(db: Db, c: Command, fence: S.Fence)
    requires Inv(db) && !S.Passes(db.auth, fence) && !ReissuesIn(c, fence)
    ensures !S.Passes(Step(db, c).0.auth, fence)
  {
    hide Inv, Step, S.Passes;
    AuthFollows(db, c);
    S.RejectedFenceStaysRejected(db.auth, SessionEffect(c, Step(db, c).1), fence);
  }

  /** Once a fence is rejected, for whatever reason, no later run of commands of any kind lets it through again. */
  lemma {:induction false} RejectedFenceStaysRejected(db: Db, cs: seq<Command>, fence: S.Fence)
    requires Inv(db) && !S.Passes(db.auth, fence)
    requires forall c <- cs :: !ReissuesIn(c, fence)
    ensures !S.Passes(Run(db, cs).auth, fence)
    decreases |cs|
  {
    hide Inv, Step, S.Passes;
    if cs != [] {
      assert cs[0] in cs;
      StepKeepsInv(db, cs[0]);
      FenceStep(db, cs[0], fence);
      RejectedFenceStaysRejected(Step(db, cs[0]).0, cs[1..], fence);
    }
  }

  /** In every reachable state, a write is accepted only through the one live session of an active account, before its
      idle allowance since the last activity and its absolute allowance since login are used up. */
  lemma AcceptedWritesAreFenced(db: Db, cs: seq<Command>, c: Command)
    requires Inv(db) && Writes(c) && Step(Run(db, cs), c).1.Ok?
    ensures var a := Run(db, cs).auth;
            && Alive(a.active, c.fence.user) && c.fence.user in a.sessions
            && S.Matches(a.sessions[c.fence.user], c.fence)
            && a.now < a.sessions[c.fence.user].loginAt + a.policy.absolute
            && a.now < a.sessions[c.fence.user].lastActivity + a.policy.idle
            && (forall other: S.Fence :: other.user == c.fence.user && S.Passes(a, other) ==> other == c.fence)
  {
    var here := Run(db, cs);
    RunKeepsInv(db, cs);
    AuthFollows(here, c);
    hide Run, Step, TasksOk, HeldOk, LogsOk;
    assert S.RowOk(here.auth, here.auth.sessions[c.fence.user]);
  }

  /* ---------- closed accounts ---------- */

  lemma {:induction false} ClosedInSessions(a: S.Auth, cs: seq<S.Command>, u: UserId)
    requires u in a.active && !a.active[u]
    ensures u in S.Run(a, cs).active && !S.Run(a, cs).active[u]
    decreases |cs|
  {
    if cs != [] {
      assert u in S.Step(a, cs[0]).0.active && !S.Step(a, cs[0]).0.active[u];
      hide S.Step;
      ClosedInSessions(S.Step(a, cs[0]).0, cs[1..], u);
    }
  }

  lemma {:induction false} ClosedStaysClosed(db: Db, cs: seq<Command>, u: UserId)
    requires Inv(db) && AccountClosed(db, u)
    ensures AccountClosed(Run(db, cs), u)
    decreases |cs|
  {
    hide Inv, Step;
    if cs != [] {
      AuthFollows(db, cs[0]);
      ClosedInSessions(db.auth, SessionEffect(cs[0], Step(db, cs[0]).1), u);
      StepKeepsInv(db, cs[0]);
      ClosedStaysClosed(Step(db, cs[0]).0, cs[1..], u);
    }
  }

  lemma ClosedIsUninvolved(db: Db, u: UserId)
    requires Inv(db) && AccountClosed(db, u)
    ensures u !in db.auth.sessions && Uninvolved(db, u)
    ensures forall t <- db.tasks :: !Holds(db.tasks[t], u)
  {
    hide RowsOk, IdsBelow, LogsOk;
    forall t | t in db.tasks
      ensures db.tasks[t].reserved != Some(u) && !SubmittedBy(db.tasks[t], u) && !Holds(db.tasks[t], u)
    {
      assert TaskFits(db.tasks[t], db.nextId, db.auth.active);
    }
  }

  /** Deactivation is final: after it, whatever is done, restores included, the account never again has a session, a
      task, a reservation or a current submission. */
  lemma DeactivationIsFinal(db: Db, deactivate: Command, cs: seq<Command>)
    requires Inv(db) && deactivate.DoDeactivate? && Step(db, deactivate).1.Ok?
    ensures var later, u := Run(Step(db, deactivate).0, cs), deactivate.user;
            && u !in later.auth.sessions && u !in later.held
            && (forall t <- later.tasks :: later.tasks[t].reserved != Some(u) && !SubmittedBy(later.tasks[t], u)
                                           && !Holds(later.tasks[t], u))
  {
    var next := Step(db, deactivate).0;
    StepKeepsInv(db, deactivate);
    DeactivateCloses(db, deactivate);
    hide Inv, Step, Run;
    RunKeepsInv(next, cs);
    ClosedStaysClosed(next, cs, deactivate.user);
    ClosedIsUninvolved(Run(next, cs), deactivate.user);
  }

  lemma DeactivateCloses(db: Db, c: Command)
    requires Inv(db) && c.DoDeactivate? && Step(db, c).1.Ok?
    ensures AccountClosed(Step(db, c).0, c.user)
  {
    hide Inv, Deactivate, Quiet;
    hide Claim, Save, Complete, Abandon, Reopen, OperatorRelease, Preprocess, SessionStep, RevokeTasks, RestoreTasks, Release;
    DeactivateStep(db, c);
  }
}
