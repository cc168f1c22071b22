/** When each session command is answered how, in terms of the account, the row and the clock. */
module SessionOutcomes {
  import opened Common
  import opened Sessions

  predicate Deactivated(a: Auth, u: UserId) {
    u in a.active && !a.active[u]
  }

  /** One of the two deadlines has been reached. */
  predicate Lapsed(a: Auth, row: Session) {
    row.idleExpires <= a.now || row.absoluteExpires <= a.now
  }

  /** The browser has the row's id, and its generation if it sends one. */
  predicate Carries(row: Session, cookie: Option<Cookie>) {
    && cookie.Some? && cookie.value.sid == row.sid
    && (cookie.value.generation.Some? ==> cookie.value.generation.value == row.generation)
  }

  predicate LongUnseen(a: Auth, row: Session) {
    row.lastSeen + a.policy.presenceLease <= a.now
  }

  /** The row starts now under the id, one generation on, and both deadlines are counted from now. */
  predicate Starts(a: Auth, u: UserId, requested: SessionId, row: Session) {
    && row.sid == requested && row.loginAt == row.lastSeen == row.lastActivity == a.now
    && row.generation == 1 + (if u in a.sessions then a.sessions[u].generation else 0)
    && row.absoluteExpires == a.now + a.policy.absolute
    && row.idleExpires <= a.now + a.policy.idle && row.idleExpires <= row.absoluteExpires
    && (row.idleExpires == a.now + a.policy.idle || row.idleExpires == row.absoluteExpires)
  }

  /** The account, made if it is new, has this row; everything else is as it was. */
  predicate HasRow(a: Auth, b: Auth, u: UserId, row: Session) {
    b == a.(active := a.active[u := true], sessions := a.sessions[u := row])
  }

  /** The five answers to a login. An account without a session, or with one past a deadline, is let in; a browser that
      carries the live session resumes it, and only the time it was seen moves; over a live session of another browser a
      login is let in exactly when that one has not been seen for the presence lease. */
  lemma LoginOutcome(a: Auth, u: UserId, requested: SessionId, cookie: Option<Cookie>)
    ensures var (b, reply) := Step(a, Login(u, requested, cookie));
            if Deactivated(a, u) then reply == Rejected(AccountDeactivated) && b == a
            else if u !in a.sessions || Lapsed(a, a.sessions[u]) then
              reply.Entered? && Starts(a, u, requested, reply.row) && HasRow(a, b, u, reply.row)
            else if Carries(a.sessions[u], cookie) then
              reply == Resumed(a.sessions[u].(lastSeen := a.now)) && HasRow(a, b, u, reply.row)
            else if LongUnseen(a, a.sessions[u]) then
              reply.TookOverStale? && Starts(a, u, requested, reply.row) && HasRow(a, b, u, reply.row)
            else reply == Rejected(SessionActive) && b == a
  {
    var b := Step(a, Login(u, requested, cookie)).0;
    assert u in a.active ==> a.active[u := a.active[u]] == a.active;
  }

  /** A takeover replaces exactly the session that was observed, live or not, and is refused if that is no longer there. */
  lemma TakeoverOutcome(a: Auth, u: UserId, requested: SessionId, generation: nat, sid: SessionId)
    ensures var (b, reply) := Step(a, Takeover(u, requested, generation, sid));
            if Deactivated(a, u) then reply == Rejected(AccountDeactivated) && b == a
            else if u in a.sessions && a.sessions[u].sid == sid && a.sessions[u].generation == generation then
              reply.TookOverByForce? && Starts(a, u, requested, reply.row) && HasRow(a, b, u, reply.row)
            else reply == Rejected(SessionChanged) && b == a
  {
    assert u in a.active ==> a.active[u := a.active[u]] == a.active;
  }

  /** A heartbeat is refused by the first of these that is the case: no such account, account deactivated, no session,
      another session, absolute deadline, idle deadline. Otherwise the session was seen now, and reported activity moves
      the idle deadline if the last one noted is longer ago than the throttle. */
  lemma HeartbeatOutcome(a: Auth, u: UserId, sid: SessionId, generation: Option<nat>, activity: bool)
    ensures var (b, reply) := Step(a, Heartbeat(u, sid, generation, activity));
            && (reply.Rejected? ==> b == a)
            && (reply == Rejected(NotAuthenticated) <==> u !in a.active || (!Deactivated(a, u) && u !in a.sessions))
            && (reply == Rejected(AccountDeactivated) <==> Deactivated(a, u))
            && (u in a.active && a.active[u] && u in a.sessions ==>
                  var row := a.sessions[u];
                  if !Carries(row, Some(Cookie(sid, generation))) then reply == Rejected(SessionReplaced)
                  else if Lapsed(a, row) then
                    reply == Rejected(if row.absoluteExpires <= a.now then AbsoluteTimeout else IdleTimeout)
                  else
                    && reply.Beat? && HasRow(a, b, u, b.sessions[u])
                    && reply == Beat(b.sessions[u].idleExpires, b.sessions[u].absoluteExpires)
                    && b.sessions[u] == if activity && a.now - row.lastActivity > a.policy.throttle then Acted(a, row)
                                        else row.(lastSeen := a.now))
  {
    assert u in a.active ==> a.active[u := a.active[u]] == a.active;
  }

  /** A session used just now: both times are now, and the idle allowance runs from now up to the absolute deadline. */
  function Acted(a: Auth, row: Session): (row': Session)
    ensures row'.idleExpires <= row.absoluteExpires && row'.idleExpires <= a.now + a.policy.idle
    ensures row'.idleExpires == row.absoluteExpires || row'.idleExpires == a.now + a.policy.idle
  {
    row.(lastSeen := a.now, lastActivity := a.now,
         idleExpires := if row.absoluteExpires <= a.now + a.policy.idle then row.absoluteExpires
                        else a.now + a.policy.idle)
  }

  /** A logout removes the caller's own session and no other, and never fails. */
  lemma LogoutOutcome(a: Auth, u: UserId, sid: SessionId, generation: Option<nat>)
    ensures var (b, reply) := Step(a, Logout(u, sid, generation));
            && reply == Done
            && b == if u in a.sessions && Carries(a.sessions[u], Some(Cookie(sid, generation)))
                    then a.(sessions := a.sessions - {u}) else a
  {
  }

  /** The session of an active account, inside both deadlines. */
  predicate Authoritative(a: Auth, f: Fence) {
    && f.user in a.active && a.active[f.user]
    && f.user in a.sessions && a.sessions[f.user].sid == f.sid && a.sessions[f.user].generation == f.generation
    && a.now < a.sessions[f.user].idleExpires && a.now < a.sessions[f.user].absoluteExpires
  }

  /** A write is admitted exactly through the account's authoritative session, which it marks as used; otherwise the reason
      is the first of these: no such account, account deactivated, no session, another session, absolute deadline, idle
      deadline. */
  lemma WriteOutcome(a: Auth, f: Fence)
    ensures Admit(a, f).None? <==> Authoritative(a, f)
    ensures Authoritative(a, f) ==> Touch(a, f) == a.(sessions := a.sessions[f.user := Acted(a, a.sessions[f.user])])
    ensures Admit(a, f) == Some(AnnotatorMissing) <==> f.user !in a.active
    ensures Admit(a, f) == Some(AccountDeactivated) <==> Deactivated(a, f.user)
    ensures f.user in a.active && a.active[f.user] ==>
              && (Admit(a, f) == Some(NotAuthenticated) <==> f.user !in a.sessions)
              && (f.user in a.sessions ==>
                    var row := a.sessions[f.user];
                    var mine := Carries(row, Some(Cookie(f.sid, Some(f.generation))));
                    && (Admit(a, f) == Some(SessionReplaced) <==> !mine)
                    && (Admit(a, f) == Some(AbsoluteTimeout) <==> mine && row.absoluteExpires <= a.now)
                    && (Admit(a, f) == Some(IdleTimeout) <==> mine && row.idleExpires <= a.now < row.absoluteExpires))
  {
  }
}
