/** The lease that keeps two workers from preprocessing the same audio, and the removal of a rejected audio file. */
module ProcessingLease {
  import opened Common

  /** The lease columns of one task, the clock, and the counter that tokens are drawn from. */
  datatype Lease = Lease(now: nat, token: Option<Token>, until: Option<nat>, version: nat, nextToken: Token)

  datatype Answer = Granted(token: Token, version: nat) | Fine | Conflict

  predicate Live(l: Lease) {
    l.token.Some? && l.until.Some? && l.until.value > l.now
  }

  predicate HeldBy(l: Lease, t: Token) {
    l.token == Some(t) && l.until.Some? && l.until.value > l.now
  }

  function Acquire(l: Lease, ttl: nat, expected: Option<nat>): (Lease, Answer) {
    if expected.Some? && l.version != expected.value then (l, Conflict)
    else if Live(l) then (l, Conflict)
    else
      (l.(token := Some(l.nextToken), until := Some(l.now + ttl), version := l.version + 1, nextToken := l.nextToken + 1),
       Granted(l.nextToken, l.version + 1))
  }

  function Renew(l: Lease, t: Token, ttl: nat): (Lease, Answer) {
    if HeldBy(l, t) then (l.(until := Some(l.now + ttl)), Fine) else (l, Conflict)
  }

  /** The check made before every fenced write; a missing token may only proceed while nobody holds the lease. */
  function Require(l: Lease, t: Option<Token>): Answer {
    match t
    case None => if Live(l) then Conflict else Fine
    case Some(t) => if HeldBy(l, t) then Fine else Conflict
  }

  function Complete(l: Lease, t: Option<Token>): (Lease, Answer) {
    match t
    case None => (l, if Live(l) then Conflict else Fine)
    case Some(t) => if HeldBy(l, t) then (l.(token := None, until := None), Fine) else (l, Conflict)
  }

  datatype Call =
    | DoAcquire(ttl: nat, expected: Option<nat>)
    | DoRenew(token: Token, ttl: nat)
    | DoRequire(maybe: Option<Token>)
    | DoComplete(maybe: Option<Token>)
    | Wait(seconds: nat)

  function Step(l: Lease, c: Call): (Lease, Answer) {
    match c
    case DoAcquire(ttl, expected) => Acquire(l, ttl, expected)
    case DoRenew(t, ttl) => Renew(l, t, ttl)
    case DoRequire(t) => (l, Require(l, t))
    case DoComplete(t) => Complete(l, t)
    case Wait(seconds) => (l.(now := l.now + seconds), Fine)
  }

  function Run(l: Lease, cs: seq<Call>): Lease
    decreases |cs|
  {
    if cs == [] then l else Run(Step(l, cs[0]).0, cs[1..])
  }

  /** Tokens are never drawn twice. */
  predicate Ok(l: Lease) {
    l.token.Some? ==> l.token.value < l.nextToken
  }

  /* ---------- the lease as a row of the task table ---------- */

  class TaskRow {
    var now: nat
    var token: Option<Token>
    var until: Option<nat>
    var version: nat
    var nextToken: Token

    function State(): Lease
      reads this
    {
      Lease(now, token, until, version, nextToken)
    }

    constructor (now: nat)
      ensures State() == Lease(now, None, None, 0, 0) && Ok(State())
    {
      this.now, token, until, version, nextToken := now, None, None, 0, 0;
    }

    method AcquireProcessingLease(ttl: nat, expected: Option<nat>) returns (answer: Answer)
      requires Ok(State())
      modifies this
      ensures (State(), answer) == Acquire(old(State()), ttl, expected) && Ok(State())
    {
      if expected.Some? && version != expected.value { return Conflict; }
      if token.Some? && until.Some? && until.value > now { return Conflict; }
      token, until, version := Some(nextToken), Some(now + ttl), version + 1;
      nextToken := nextToken + 1;
      answer := Granted(token.value, version);
    }

    method RenewProcessingLease(t: Token, ttl: nat) returns (answer: Answer)
      modifies this`until
      ensures (State(), answer) == Renew(old(State()), t, ttl)
    {
      if token != Some(t) || until.None? || until.value <= now { return Conflict; }
      until := Some(now + ttl);
      answer := Fine;
    }

    method RequireProcessingToken(t: Option<Token>) returns (answer: Answer)
      ensures answer == Require(State(), t)
    {
      if t.None? {
        if token.Some? && until.Some? && until.value > now { return Conflict; }
        return Fine;
      }
      if token != t || until.None? || until.value <= now { return Conflict; }
      answer := Fine;
    }

    method CompleteProcessing(t: Option<Token>) returns (answer: Answer)
      modifies this`token, this`until
      ensures (State(), answer) == Complete(old(State()), t)
    {
      answer := RequireProcessingToken(t);
      if answer.Fine? && t.Some? { token, until := None, None; }
    }

    method TryReleaseProcessingLease(t: Option<Token>) returns (released: bool)
      modifies this`token, this`until
      ensures released == (t.Some? && HeldBy(old(State()), t.value))
      ensures State() == if released then Complete(old(State()), t).0 else old(State())
    {
      if t.None? { return false; }
      var answer := CompleteProcessing(t);
      released := answer.Fine?;
    }
  }

  /* ---------- fencing ---------- */

  lemma OneHolderAtATime(l: Lease, s: Token, t: Token)
    requires Require(l, Some(s)).Fine? && Require(l, Some(t)).Fine?
    ensures s == t && Live(l)
  {
  }

  lemma LostStaysLostStep(l: Lease, c: Call, t: Token)
    requires Ok(l) && t < l.nextToken && !HeldBy(l, t)
    ensures var l' := Step(l, c).0; Ok(l') && t < l'.nextToken && !HeldBy(l', t)
  {
  }

  /** A token that has lapsed, completed or been superseded never renews, writes or completes again. */
  lemma {:induction false} LostStaysLost(l: Lease, cs: seq<Call>, t: Token, ttl: nat)
    requires Ok(l) && t < l.nextToken && !HeldBy(l, t)
    ensures var l' := Run(l, cs);
            && Require(l', Some(t)).Conflict? && Renew(l', t, ttl) == (l', Conflict)
            && Complete(l', Some(t)) == (l', Conflict)
    decreases |cs|
  {
    if cs != [] {
      LostStaysLostStep(l, cs[0], t);
      LostStaysLost(Step(l, cs[0]).0, cs[1..], t, ttl);
    }
  }

  /** While a token still holds the lease, nobody else has acquired it in between: the version is that of the grant. */
  lemma {:induction false} HolderIsAlone(l: Lease, cs: seq<Call>, t: Token)
    requires Ok(l) && t < l.nextToken && HeldBy(Run(l, cs), t)
    ensures HeldBy(l, t) && Run(l, cs).version == l.version
    decreases |cs|
  {
    if cs != [] {
      var l1 := Step(l, cs[0]).0;
      if !HeldBy(l, t) {
        LostStaysLostStep(l, cs[0], t);
        HolderIsAlone(l1, cs[1..], t);
      } else {
        HolderIsAlone(l1, cs[1..], t);
      }
    }
  }

  lemma {:induction false} VersionsOnlyGrow(l: Lease, cs: seq<Call>)
    ensures l.version <= Run(l, cs).version
    decreases |cs|
  {
    if cs != [] { VersionsOnlyGrow(Step(l, cs[0]).0, cs[1..]); }
  }

  /** Of the workers that ask for the lease against the same version, at most one ever gets it. */
  lemma ExpectedVersionIsUsedOnce(l: Lease, ttl: nat, expected: nat, cs: seq<Call>, ttl': nat)
    requires Acquire(l, ttl, Some(expected)).1.Granted?
    ensures Acquire(Run(Acquire(l, ttl, Some(expected)).0, cs), ttl', Some(expected)).1.Conflict?
  {
    VersionsOnlyGrow(Acquire(l, ttl, Some(expected)).0, cs);
  }

  /* ---------- how long a lease lasts ---------- */

  /** The columns say that this token holds until a time to come. */
  predicate InForce(l: Lease) {
    l.token.Some? && l.until.Some? && l.now < l.until.value
  }

  /** The lease is granted exactly if none is in force and the caller's version, if it gives one, is the present one: under
      a new token and the next version, for the time asked for. A token renews, writes and completes exactly while it is
      the one in force; without one a write is let through exactly while none is. Whatever is refused changes nothing. */
  lemma LeaseOutcomes(l: Lease, ttl: nat, expected: Option<nat>, t: Token)
    ensures Acquire(l, ttl, expected) ==
            if !InForce(l) && (expected.Some? ==> expected.value == l.version) then
              (Lease(l.now, Some(l.nextToken), Some(l.now + ttl), l.version + 1, l.nextToken + 1),
               Granted(l.nextToken, l.version + 1))
            else (l, Conflict)
    ensures InForce(l) && l.token == Some(t) ==>
              && Renew(l, t, ttl) == (l.(until := Some(l.now + ttl)), Fine) && Require(l, Some(t)) == Fine
              && Complete(l, Some(t)) == (l.(token := None, until := None), Fine)
    ensures !(InForce(l) && l.token == Some(t)) ==>
              Renew(l, t, ttl) == Complete(l, Some(t)) == (l, Conflict) && Require(l, Some(t)) == Conflict
    ensures Complete(l, None) == (l, Require(l, None)) && Require(l, None) == if InForce(l) then Conflict else Fine
  {
  }

  function Waited(cs: seq<Call>): nat {
    if cs == [] then 0 else (if cs[0].Wait? then cs[0].seconds else 0) + Waited(cs[1..])
  }

  /** The holder neither renews nor completes. */
  predicate LeftAlone(cs: seq<Call>, t: Token) {
    forall c <- cs :: !(c.DoRenew? && c.token == t) && c != DoComplete(Some(t))
  }

  lemma {:induction false} HoldsUntil(l: Lease, t: Token, cs: seq<Call>)
    requires Ok(l) && l.token == Some(t) && l.until.Some? && LeftAlone(cs, t)
    ensures HeldBy(Run(l, cs), t) <==> l.now + Waited(cs) < l.until.value
    decreases |cs|
  {
    if cs != [] {
      var l1 := Step(l, cs[0]).0;
      assert cs[0] in cs && forall c <- cs[1..] :: c in cs;
      if HeldBy(l1, t) {
        HoldsUntil(l1, t, cs[1..]);
      } else {
        LostStaysLost(l1, cs[1..], t, 0);
      }
    }
  }

  /** A granted lease lasts exactly as long as was asked for: until then no calls of others, any number of them, take it
      away, and from then on they do not bring it back. So does a renewed one. */
  lemma GrantLasts(l: Lease, ttl: nat, expected: Option<nat>, t: Token, cs: seq<Call>)
    requires Ok(l) && LeftAlone(cs, t)
    ensures Acquire(l, ttl, expected).1.Granted? && Acquire(l, ttl, expected).1.token == t ==>
              (HeldBy(Run(Acquire(l, ttl, expected).0, cs), t) <==> Waited(cs) < ttl)
    ensures Renew(l, t, ttl).1.Fine? ==> (HeldBy(Run(Renew(l, t, ttl).0, cs), t) <==> Waited(cs) < ttl)
  {
    if Acquire(l, ttl, expected).1.Granted? && Acquire(l, ttl, expected).1.token == t {
      HoldsUntil(Acquire(l, ttl, expected).0, t, cs);
    }
    if Renew(l, t, ttl).1.Fine? { HoldsUntil(Renew(l, t, ttl).0, t, cs); }
  }

  predicate Tokenless(c: Call) {
    (c.DoRequire? || c.DoComplete?) && c.maybe.None?
  }

  /** Calls without a token, any number of them, never clear or bypass a live lease. */
  lemma {:induction false} TokenlessCallsAreHarmless(l: Lease, cs: seq<Call>)
    requires Live(l) && forall c <- cs :: Tokenless(c)
    ensures Run(l, cs) == l
    ensures forall c <- cs :: Step(l, c).1.Conflict?
    decreases |cs|
  {
    if cs != [] {
      assert cs[0] in cs;
      TokenlessCallsAreHarmless(Step(l, cs[0]).0, cs[1..]);
      forall c | c in cs ensures Step(l, c).1.Conflict? {}
    }
  }

  /* ---------- rejected audio ---------- */

  /** How storing the rejection ends: it may fail before the file is set aside, find the task protected, fail after the
      file has been set aside (a lost lease or a failing commit), or commit. It may also be interrupted once the file has
      been set aside, before or after the commit: an interrupt is not among the exceptions that are handled, and the
      process may just as well be gone. */
  datatype Storing = FailsEarly | FindsProtected | FailsLate | Commits | InterruptedEarly | InterruptedLate

  /** Which file operations fail, whether the file set aside disappears, and whether someone else fills the path again. */
  datatype Faults = Faults(storing: Storing, parkFails: bool, parkedLost: bool, pathRefilled: bool, restoreFails: bool,
                           unlinkFails: bool)

  datatype Ending = Returned | Raised | Interrupted

  /** The ways to lose a file whose rejection was not recorded, each after it was set aside and with nothing put in its
      place: an interrupt before the commit, or a failure after which the file is not there to be renamed back, or
      renaming it back fails. */
  predicate LosesAudio(f: Faults) {
    && !f.parkFails && !f.pathRefilled
    && (f.storing.InterruptedEarly? || (f.storing.FailsLate? && (f.parkedLost || f.restoreFails)))
  }

  /** Whether the transaction gets as far as renaming the file. */
  predicate ReachesPark(s: Storing) {
    s.FailsLate? || s.Commits? || s.InterruptedEarly? || s.InterruptedLate?
  }

  class RejectedAudio {
    var atPath: bool
    var parked: bool
    var recorded: bool

    constructor (present: bool)
      ensures atPath == present && !parked && !recorded
    {
      atPath, parked, recorded := present, false, false;
    }

    /** Renames the file out of the way, inside the transaction that records the rejection. */
    method Park(faults: Faults) returns (raised: bool)
      modifies this`atPath, this`parked
      ensures raised == (old(atPath) && faults.parkFails)
      ensures (atPath, parked) == if old(atPath) && !raised then (false, true) else (old(atPath), old(parked))
    {
      if !atPath { return false; }
      if faults.parkFails { return true; }
      atPath, parked := false, true;
      raised := false;
    }

    /** The transaction: recorded only if it commits. */
    method Store(faults: Faults) returns (ending: Ending)
      requires atPath && !parked && !recorded
      modifies this
      ensures recorded <==> (faults.storing.Commits? || faults.storing.InterruptedLate?) && !faults.parkFails
      ensures ending.Interrupted? <==>
              (faults.storing.InterruptedEarly? || faults.storing.InterruptedLate?) && !faults.parkFails
      ensures ending.Returned? <==> faults.storing.FindsProtected? || (faults.storing.Commits? && !faults.parkFails)
      ensures (atPath, parked) ==
              if !faults.parkFails && ReachesPark(faults.storing) then (false, true) else (true, false)
    {
      if faults.storing.FailsEarly? { return Raised; }
      if faults.storing.FindsProtected? { return Returned; }
      var raised := Park(faults);
      if raised || faults.storing.FailsLate? { return Raised; }
      if faults.storing.InterruptedEarly? { return Interrupted; }
      recorded := true;
      ending := if faults.storing.InterruptedLate? then Interrupted else Returned;
    }

    /** The file leaves its path only with a committed rejection; on every other exit a file is at the path, but for the
        ways of losing it named by `LosesAudio`. */
    method Finalize(faults: Faults) returns (ending: Ending)
      requires atPath && !parked && !recorded
      modifies this
      ensures recorded <==> (faults.storing.Commits? || faults.storing.InterruptedLate?) && !faults.parkFails
      ensures !atPath && !recorded <==> LosesAudio(faults)
      ensures ending.Interrupted? <==>
              (faults.storing.InterruptedEarly? || faults.storing.InterruptedLate?) && !faults.parkFails
      ensures parked ==> recorded || faults.pathRefilled || LosesAudio(faults)
      ensures !atPath && !parked && !recorded ==> faults.parkedLost
    {
      ending := Store(faults);
      if parked && faults.parkedLost { parked := false; }
      if faults.pathRefilled { atPath := true; }
      match ending
      case Interrupted =>
      case Raised =>
        if parked && !atPath && !faults.restoreFails { atPath, parked := true, false; }
      case Returned =>
        if parked && !faults.unlinkFails { parked := false; }
    }
  }

  /** An interrupt between renaming the file and the commit leaves it renamed and the rejection unrecorded, although no
      file operation failed; so does a file that vanishes before it can be renamed back. */
  lemma InterruptsLoseAudio()
    ensures LosesAudio(Faults(InterruptedEarly, false, false, false, false, false))
    ensures LosesAudio(Faults(FailsLate, false, true, false, false, false))
    ensures forall f: Faults :: LosesAudio(f) && !f.parkedLost && !f.restoreFails ==> f.storing.InterruptedEarly?
  {
  }

  method InterruptedExample() returns (audio: RejectedAudio, ending: Ending)
    ensures !audio.atPath && audio.parked && !audio.recorded && ending.Interrupted?
  {
    audio := new RejectedAudio(true);
    ending := audio.Finalize(Faults(InterruptedEarly, false, false, false, false, false));
  }
}
