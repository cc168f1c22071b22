/** Web sessions: one row per annotator, replaced by takeover and bounded by an idle and an absolute deadline.

    The functions below give each session transaction as one step over `Auth`; the methods of the repository class
    carry the same steps out row by row. A run interleaves the session commands with the writes that the annotation
    commands make through a fence, with deactivations, and with the passage of time.
 */
module Sessions {
  import opened Common

  /** Policy values in seconds; constant while a run lasts. */
  datatype Policy = Policy(idle: nat, absolute: nat, presenceLease: nat, throttle: nat)

  datatype Session = Session(
    sid: SessionId,
    generation: nat,
    loginAt: nat,
    lastSeen: nat,
    lastActivity: nat,
    idleExpires: nat,
    absoluteExpires: nat)

  datatype Auth = Auth(
    now: nat,
    policy: Policy,
    active: map<UserId, bool>,
    sessions: map<UserId, Session>)

  /** What a request presents to prove that its session is still the authoritative one. */
  datatype Fence = Fence(user: UserId, sid: SessionId, generation: nat)

  datatype Rejection =
    | NotAuthenticated
    | SessionReplaced
    | AbsoluteTimeout
    | IdleTimeout
    | AccountDeactivated
    | AnnotatorMissing
    | SessionActive
    | SessionChanged

  datatype Reply =
    | Resumed(row: Session)
    | Entered(row: Session)
    | TookOverStale(row: Session)
    | TookOverByForce(row: Session)
    | Beat(idleExpires: nat, absoluteExpires: nat)
    | Done
    | Rejected(why: Rejection)

  datatype Cookie = Cookie(sid: SessionId, generation: Option<nat>)

  /* ---------- the fence ---------- */

  predicate Matches(row: Session, fence: Fence) {
    row.sid == fence.sid && row.generation == fence.generation
  }

  function FenceCheck(a: Auth, fence: Fence): Option<Rejection> {
    if fence.user !in a.sessions then Some(NotAuthenticated)
    else
      var row := a.sessions[fence.user];
      if !Matches(row, fence) then Some(SessionReplaced)
      else if row.absoluteExpires <= a.now then Some(AbsoluteTimeout)
      else if row.idleExpires <= a.now then Some(IdleTimeout)
      else None
  }

  predicate Passes(a: Auth, fence: Fence) {
    FenceCheck(a, fence).None?
  }

  /** The two checks every annotator write starts with: the account, then the fence. */
  function Admit(a: Auth, fence: Fence): Option<Rejection> {
    if fence.user !in a.active then Some(AnnotatorMissing)
    else if !a.active[fence.user] then Some(AccountDeactivated)
    else FenceCheck(a, fence)
  }

  /* ---------- row updates ---------- */

  function NewRow(a: Auth, sid: SessionId, previousGeneration: nat): Session {
    Session(sid, previousGeneration + 1, a.now, a.now, a.now,
            Min(a.now + a.policy.idle, a.now + a.policy.absolute), a.now + a.policy.absolute)
  }

  function Store(a: Auth, user: UserId, row: Session): Auth {
    a.(sessions := a.sessions[user := row])
  }

  function Drop(a: Auth, user: UserId): Auth {
    a.(sessions := a.sessions - {user})
  }

  function Refreshed(a: Auth, row: Session): Session {
    row.(lastSeen := a.now, lastActivity := a.now, idleExpires := Min(a.now + a.policy.idle, row.absoluteExpires))
  }

  /** The activity refresh a genuine write performs; the UPDATE matches only the fenced row. */
  function Touch(a: Auth, fence: Fence): Auth {
    if fence.user in a.sessions && Matches(a.sessions[fence.user], fence) then
      Store(a, fence.user, Refreshed(a, a.sessions[fence.user]))
    else a
  }

  /* ---------- session commands ---------- */

  datatype Command =
    | Login(user: UserId, requested: SessionId, cookie: Option<Cookie>)
    | Takeover(user: UserId, requested: SessionId, observedGeneration: nat, observedSid: SessionId)
    | Heartbeat(user: UserId, sid: SessionId, generation: Option<nat>, activity: bool)
    | Logout(user: UserId, sid: SessionId, generation: Option<nat>)
    | Write(fence: Fence)
    | Deactivate(user: UserId)
    | Tick(seconds: nat)

  function EnsureUser(a: Auth, user: UserId): Auth {
    if user in a.active then a else a.(active := a.active[user := true])
  }

  predicate Named(row: Session, sid: SessionId, generation: Option<nat>) {
    row.sid == sid && (generation.None? || row.generation == generation.value)
  }

  predicate Live(a: Auth, row: Session) {
    row.idleExpires > a.now && row.absoluteExpires > a.now
  }

  function LoginStep(a0: Auth, user: UserId, requested: SessionId, cookie: Option<Cookie>): (Auth, Reply) {
    var a := EnsureUser(a0, user);
    if !a.active[user] then (a0, Rejected(AccountDeactivated))
    else if user !in a.sessions then
      var row := NewRow(a, requested, 0);
      (Store(a, user, row), Entered(row))
    else
      var current := a.sessions[user];
      if cookie.Some? && Named(current, cookie.value.sid, cookie.value.generation) && Live(a, current) then
        var row := current.(lastSeen := a.now);
        (Store(a, user, row), Resumed(row))
      else if !Live(a, current) then
        var row := NewRow(a, requested, current.generation);
        (Store(a, user, row), Entered(row))
      else if current.lastSeen + a.policy.presenceLease <= a.now then
        var row := NewRow(a, requested, current.generation);
        (Store(a, user, row), TookOverStale(row))
      else (a0, Rejected(SessionActive))
  }

  function TakeoverStep(a0: Auth, user: UserId, requested: SessionId, observedGeneration: nat, observedSid: SessionId)
    : (Auth, Reply)
  {
    var a := EnsureUser(a0, user);
    if !a.active[user] then (a0, Rejected(AccountDeactivated))
    else if user !in a.sessions || a.sessions[user].generation != observedGeneration || a.sessions[user].sid != observedSid
    then (a0, Rejected(SessionChanged))
    else
      var row := NewRow(a, requested, a.sessions[user].generation);
      (Store(a, user, row), TookOverByForce(row))
  }

  function HeartbeatStep(a: Auth, user: UserId, sid: SessionId, generation: Option<nat>, activity: bool): (Auth, Reply) {
    if user !in a.active then (a, Rejected(NotAuthenticated))
    else if !a.active[user] then (a, Rejected(AccountDeactivated))
    else if user !in a.sessions then (a, Rejected(NotAuthenticated))
    else
      var row := a.sessions[user];
      if !Named(row, sid, generation) then (a, Rejected(SessionReplaced))
      else if row.absoluteExpires <= a.now then (a, Rejected(AbsoluteTimeout))
      else if row.idleExpires <= a.now then (a, Rejected(IdleTimeout))
      else
        var row' := if activity && row.lastActivity + a.policy.throttle < a.now
                    then Refreshed(a, row) else row.(lastSeen := a.now);
        (Store(a, user, row'), Beat(row'.idleExpires, row'.absoluteExpires))
  }

  function LogoutStep(a: Auth, user: UserId, sid: SessionId, generation: Option<nat>): (Auth, Reply) {
    if user in a.sessions && Named(a.sessions[user], sid, generation) then (Drop(a, user), Done) else (a, Done)
  }

  /** A write of the annotation workflow, as far as the session table is concerned. */
  function WriteStep(a: Auth, fence: Fence): (Auth, Reply) {
    var refused := Admit(a, fence);
    if refused.Some? then (a, Rejected(refused.value)) else (Touch(a, fence), Done)
  }

  function DeactivateStep(a: Auth, user: UserId): (Auth, Reply) {
    if user in a.active && a.active[user] then
      (Drop(a.(active := a.active[user := false]), user), Done)
    else (a, Rejected(AnnotatorMissing))
  }

  function Step(a: Auth, c: Command): (Auth, Reply) {
    match c
    case Login(user, requested, cookie) => LoginStep(a, user, requested, cookie)
    case Takeover(user, requested, g, s) => TakeoverStep(a, user, requested, g, s)
    case Heartbeat(user, sid, g, activity) => HeartbeatStep(a, user, sid, g, activity)
    case Logout(user, sid, g) => LogoutStep(a, user, sid, g)
    case Write(fence) => WriteStep(a, fence)
    case Deactivate(user) => DeactivateStep(a, user)
    case Tick(seconds) => (a.(now := a.now + seconds), Done)
  }

  function Run(a: Auth, cs: seq<Command>): Auth
    decreases |cs|
  {
    if cs == [] then a else Run(Step(a, cs[0]).0, cs[1..])
  }

  /* ---------- a rejected fence stays rejected ---------- */

  /** The server draws a new session id for every login and takeover; a run is fresh for a fence if none of its entries
      is asked to install that fence's id. */
  predicate Reissues(c: Command, fence: Fence) {
    (c.Login? || c.Takeover?) && c.user == fence.user && c.requested == fence.sid
  }

  ghost predicate NeverReissues(cs: seq<Command>, fence: Fence) {
    forall i :: 0 <= i < |cs| ==> !Reissues(cs[i], fence)
  }

  lemma RejectedFenceStep(a: Auth, c: Command, fence: Fence)
    requires !Passes(a, fence) && !Reissues(c, fence)
    ensures !Passes(Step(a, c).0, fence)
  {
  }

  lemma {:induction false} RejectedFenceStaysRejected(a: Auth, cs: seq<Command>, fence: Fence)
    requires !Passes(a, fence) && NeverReissues(cs, fence)
    ensures !Passes(Run(a, cs), fence)
    decreases |cs|
  {
    if cs != [] {
      RejectedFenceStep(a, cs[0], fence);
      assert NeverReissues(cs[1..], fence) by {
        forall i | 0 <= i < |cs[1..]| ensures !Reissues(cs[1..][i], fence) { assert cs[1..][i] == cs[i + 1]; }
      }
      RejectedFenceStaysRejected(Step(a, cs[0]).0, cs[1..], fence);
    }
  }

  /** Freshness of the id is needed: the generation starts again at one after a logout, so an id that came back would
      carry its old fence with it. */
  lemma ReissuedIdRevivesFence()
    ensures exists a: Auth, cs: seq<Command>, fence: Fence :: !Passes(a, fence) && Passes(Run(a, cs), fence)
  {
    var policy := Policy(1800, 72000, 150, 30);
    var empty := Auth(0, policy, map[], map[]);
    var enter := Login(1, 7, None);
    var fence := Fence(1, 7, 1);
    var entered := Step(empty, enter).0;
    var out := Step(entered, Logout(1, 7, Some(1))).0;
    assert !Passes(out, fence);
    var again := [enter];
    assert again[1..] == [];
    assert Run(out, again) == Run(Step(out, enter).0, []) == Step(out, enter).0;
    assert Passes(Run(out, again), fence);
  }

  /** While the row is never deleted the generation alone is enough, even if ids repeat. */
  predicate Outdated(a: Auth, fence: Fence) {
    fence.user in a.sessions && !Passes(a, fence) && fence.generation <= a.sessions[fence.user].generation
  }

  predicate DeletesRowOf(c: Command, user: UserId) {
    (c.Logout? || c.Deactivate?) && c.user == user
  }

  lemma OutdatedStep(a: Auth, c: Command, fence: Fence)
    requires Outdated(a, fence) && !DeletesRowOf(c, fence.user)
    ensures Outdated(Step(a, c).0, fence)
  {
  }

  lemma {:induction false} GenerationAloneFences(a: Auth, cs: seq<Command>, fence: Fence)
    requires Outdated(a, fence)
    requires forall i :: 0 <= i < |cs| ==> !DeletesRowOf(cs[i], fence.user)
    ensures Outdated(Run(a, cs), fence)
    decreases |cs|
  {
    if cs != [] {
      assert !DeletesRowOf(cs[0], fence.user);
      OutdatedStep(a, cs[0], fence);
      hide Step, Outdated;
      forall i | 0 <= i < |cs[1..]| ensures !DeletesRowOf(cs[1..][i], fence.user) { assert cs[1..][i] == cs[i + 1]; }
      GenerationAloneFences(Step(a, cs[0]).0, cs[1..], fence);
    }
  }

  function Latest(a: Auth, user: UserId): Fence
    requires user in a.sessions
  {
    Fence(user, a.sessions[user].sid, a.sessions[user].generation)
  }

  predicate Entry(reply: Reply) {
    reply.Entered? || reply.TookOverStale? || reply.TookOverByForce?
  }

  /** A login or takeover that is let in has the only fence that passes from then on; a login is let in over another
      session only if that one has expired or has not been seen for the presence lease. */
  lemma EntryReplacesTheSession(a: Auth, c: Command)
    requires c.Login? || c.Takeover?
    requires Entry(Step(a, c).1) && a.policy.idle > 0 && a.policy.absolute > 0
    ensures var b := Step(a, c).0;
            && c.user in b.sessions && b.sessions[c.user].sid == c.requested
            && Admit(b, Latest(b, c.user)).None?
            && (forall f: Fence :: f.user == c.user && Passes(b, f) ==> f == Latest(b, c.user))
            && (c.user in a.sessions ==> b.sessions[c.user].generation == a.sessions[c.user].generation + 1)
    ensures c.Login? && c.user in a.sessions ==>
              !Live(a, a.sessions[c.user]) || a.sessions[c.user].lastSeen + a.policy.presenceLease <= a.now
    ensures c.Takeover? ==> c.user in a.sessions && a.sessions[c.user].sid == c.observedSid
                            && a.sessions[c.user].generation == c.observedGeneration
  {
  }

  lemma OneFencePassesAtATime(a: Auth, f: Fence, g: Fence)
    requires f.user == g.user && Passes(a, f) && Passes(a, g)
    ensures f == g
  {
  }

  /* ---------- deadlines ---------- */

  predicate RowOk(a: Auth, row: Session) {
    && row.loginAt <= row.lastActivity <= row.lastSeen <= a.now
    && row.absoluteExpires == row.loginAt + a.policy.absolute
    && row.idleExpires == Min(row.lastActivity + a.policy.idle, row.absoluteExpires)
    && row.generation > 0
  }

  /** Every row obeys the deadline arithmetic and belongs to an active annotator. */
  ghost predicate AuthOk(a: Auth) {
    forall u <- a.sessions :: RowOk(a, a.sessions[u]) && u in a.active && a.active[u]
  }

  lemma StoreKeepsAuthOk(a: Auth, user: UserId, row: Session)
    requires AuthOk(a) && user in a.active && a.active[user] && RowOk(a, row)
    ensures AuthOk(Store(a, user, row))
  {
    var a' := Store(a, user, row);
    forall u | u in a'.sessions
      ensures RowOk(a', a'.sessions[u]) && u in a'.active && a'.active[u]
    {
      assert u != user ==> u in a.sessions && RowOk(a, a.sessions[u]);
    }
  }

  lemma EnsureUserKeepsAuthOk(a: Auth, user: UserId)
    requires AuthOk(a)
    ensures AuthOk(EnsureUser(a, user))
  {
    var a1 := EnsureUser(a, user);
    forall u | u in a1.sessions
      ensures RowOk(a1, a1.sessions[u]) && u in a1.active && a1.active[u]
    {
      assert RowOk(a, a.sessions[u]);
    }
  }

  lemma EntryKeepsAuthOk(a: Auth, c: Command)
    requires AuthOk(a) && (c.Login? || c.Takeover?)
    ensures AuthOk(Step(a, c).0)
  {
    var a1 := EnsureUser(a, c.user);
    EnsureUserKeepsAuthOk(a, c.user);
    if c.user in a1.sessions { assert RowOk(a1, a1.sessions[c.user]); }
    hide AuthOk;
    var a' := Step(a, c).0;
    if a' != a {
      StoreKeepsAuthOk(a1, c.user, a'.sessions[c.user]);
    }
  }

  lemma TouchKeepsAuthOk(a: Auth, fence: Fence)
    requires AuthOk(a)
    ensures AuthOk(Touch(a, fence))
  {
    if fence.user in a.sessions {
      assert RowOk(a, a.sessions[fence.user]);
      StoreKeepsAuthOk(a, fence.user, Refreshed(a, a.sessions[fence.user]));
    }
  }

  lemma HeartbeatKeepsAuthOk(a: Auth, c: Command)
    requires AuthOk(a) && c.Heartbeat?
    ensures AuthOk(Step(a, c).0)
  {
    var a' := Step(a, c).0;
    if a' != a {
      assert RowOk(a, a.sessions[c.user]);
      StoreKeepsAuthOk(a, c.user, a'.sessions[c.user]);
    }
  }

  lemma RemovalKeepsAuthOk(a: Auth, c: Command)
    requires AuthOk(a) && (c.Logout? || c.Deactivate? || c.Tick?)
    ensures AuthOk(Step(a, c).0)
  {
    var a' := Step(a, c).0;
    forall u | u in a'.sessions
      ensures RowOk(a', a'.sessions[u]) && u in a'.active && a'.active[u]
    {
      assert u in a.sessions && RowOk(a, a.sessions[u]);
    }
  }

  lemma StepKeepsAuthOk(a: Auth, c: Command)
    requires AuthOk(a)
    ensures AuthOk(Step(a, c).0) && Step(a, c).0.policy == a.policy && Step(a, c).0.now >= a.now
  {
    match c
    case Login(_, _, _) => EntryKeepsAuthOk(a, c);
    case Takeover(_, _, _, _) => EntryKeepsAuthOk(a, c);
    case Heartbeat(_, _, _, _) => HeartbeatKeepsAuthOk(a, c);
    case Write(fence) => TouchKeepsAuthOk(a, fence);
    case _ => RemovalKeepsAuthOk(a, c);
  }

  lemma {:induction false} RunKeepsAuthOk(a: Auth, cs: seq<Command>)
    requires AuthOk(a)
    ensures AuthOk(Run(a, cs)) && Run(a, cs).policy == a.policy && Run(a, cs).now >= a.now
    decreases |cs|
  {
    if cs != [] {
      StepKeepsAuthOk(a, cs[0]);
      RunKeepsAuthOk(Step(a, cs[0]).0, cs[1..]);
    }
  }

  /** Idle expiry is the earlier of last activity plus the idle allowance and the absolute deadline, and no write is
      admitted once the absolute allowance since login is used up. */
  lemma AdmittedWritesAreInTime(a: Auth, cs: seq<Command>, fence: Fence)
    requires AuthOk(a)
    requires Admit(Run(a, cs), fence).None?
    ensures var b := Run(a, cs); var row := b.sessions[fence.user];
            && row.idleExpires == Min(row.lastActivity + a.policy.idle, row.loginAt + a.policy.absolute)
            && b.now < row.loginAt + a.policy.absolute
            && b.now < row.lastActivity + a.policy.idle
  {
    RunKeepsAuthOk(a, cs);
    var b := Run(a, cs);
    assert RowOk(b, b.sessions[fence.user]);
  }

  /** Within one session the login time and the absolute deadline do not move, and only activity moves the idle one. */
  lemma DeadlinesWithinASession(a: Auth, c: Command, user: UserId)
    requires AuthOk(a) && user in a.sessions && user in Step(a, c).0.sessions
    requires a.sessions[user].sid == Step(a, c).0.sessions[user].sid
    requires a.sessions[user].generation == Step(a, c).0.sessions[user].generation
    ensures var row, row' := a.sessions[user], Step(a, c).0.sessions[user];
            && row'.loginAt == row.loginAt && row'.absoluteExpires == row.absoluteExpires
            && row.lastActivity <= row'.lastActivity && row.idleExpires <= row'.idleExpires
            && (c.Heartbeat? && !c.activity ==> row'.idleExpires == row.idleExpires)
            && (c.Login? ==> row'.idleExpires == row.idleExpires)
  {
    assert RowOk(a, a.sessions[user]);
  }

  /** The session of the fence has seen activity no longer than the throttle before `t`. */
  predicate ActiveSince(a: Auth, fence: Fence, t: nat) {
    t <= a.now &&
    (fence.user in a.sessions && Matches(a.sessions[fence.user], fence) ==>
       t <= a.sessions[fence.user].lastActivity + a.policy.throttle)
  }

  predicate GenuineActivity(c: Command, fence: Fence) {
    || c == Write(fence)
    || c == Heartbeat(fence.user, fence.sid, Some(fence.generation), true)
  }

  lemma StepRemembersActivity(a: Auth, c: Command, fence: Fence, t: nat)
    requires ActiveSince(a, fence, t)
    requires fence.user in a.sessions ==> RowOk(a, a.sessions[fence.user])
    ensures ActiveSince(Step(a, c).0, fence, t)
  {
  }

  lemma {:induction false} ActivityIsRemembered(a: Auth, cs: seq<Command>, fence: Fence, t: nat)
    requires AuthOk(a) && ActiveSince(a, fence, t)
    ensures ActiveSince(Run(a, cs), fence, t)
    decreases |cs|
  {
    if cs != [] {
      StepKeepsAuthOk(a, cs[0]);
      StepRemembersActivity(a, cs[0], fence, t);
      ActivityIsRemembered(Step(a, cs[0]).0, cs[1..], fence, t);
    }
  }

  /** An idle timeout is never reported earlier than the idle allowance, less the throttle, after genuine activity. */
  lemma IdleTimeoutIsNotEarly(a: Auth, activity: Command, cs: seq<Command>, fence: Fence)
    requires AuthOk(a) && Passes(a, fence) && GenuineActivity(activity, fence)
    requires FenceCheck(Run(Step(a, activity).0, cs), fence) == Some(IdleTimeout)
    ensures a.now + a.policy.idle <= Run(Step(a, activity).0, cs).now + a.policy.throttle
  {
    var a1 := Step(a, activity).0;
    assert RowOk(a, a.sessions[fence.user]);
    StepKeepsAuthOk(a, activity);
    ActivityIsRemembered(a1, cs, fence, a.now);
    RunKeepsAuthOk(a1, cs);
    var b := Run(a1, cs);
    assert RowOk(b, b.sessions[fence.user]);
  }
}
