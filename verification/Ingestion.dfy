/** Which task an audio file belongs to: by its media identity, by its path, or a new placeholder. */
module Ingestion {
  import opened Common
  import P = Provenance
  import L = ProcessingLease

  /** The columns of a task that ingestion looks at: its own path, further paths recorded as aliases, the paths named in
      its current source records, whether it is protected, and its processing lease. */
  datatype Task = Task(path: string, aliases: seq<string>, mentions: set<string>, isProtected: bool,
                       token: Option<Token>, until: Option<nat>, version: nat)

  datatype State = State(now: nat, nextId: TaskId, nextToken: Token, tasks: map<TaskId, Task>,
                         identities: map<P.Identity, P.Binding>)

  datatype Media = Media(identity: P.Identity, pcm: Option<string>)

  datatype Error = Missing | Busy | PathMismatch

  datatype Reply =
    | Leased(task: TaskId, path: string, created: bool, token: Token, version: nat)
    | IsProtected(task: TaskId, path: string, created: bool)
    | Imported(task: TaskId, created: bool)
    | Failed(error: Error)

  /* ---------- looking a path up ---------- */

  predicate Owns(s: State, t: TaskId, p: string) {
    t in s.tasks && s.tasks[t].path == p
  }

  predicate HasAlias(s: State, t: TaskId, p: string) {
    t in s.tasks && p in s.tasks[t].aliases
  }

  predicate Names(s: State, t: TaskId, p: string) {
    t in s.tasks && p in s.tasks[t].mentions
  }

  /** The tasks a path may lead to: the one it belongs to, else those it is an alias of, else those whose records name
      it. Among equals the query does not say which comes first. */
  ghost predicate LeadsTo(s: State, p: string, t: TaskId) {
    || Owns(s, t, p)
    || ((forall u :: !Owns(s, u, p))
        && (HasAlias(s, t, p) || ((forall u :: !HasAlias(s, u, p)) && Names(s, t, p))))
  }

  ghost predicate Finds(s: State, p: string, found: Option<TaskId>) {
    match found
    case None => forall t :: !LeadsTo(s, p, t)
    case Some(t) => LeadsTo(s, p, t)
  }

  ghost predicate FindsOwner(s: State, p: string, found: Option<TaskId>) {
    match found
    case None => forall t :: !Owns(s, t, p)
    case Some(t) => Owns(s, t, p)
  }

  /* ---------- the two transactions ---------- */

  function Aliased(task: Task, p: string): Task {
    if p == "" || task.path == p || p in task.aliases then task else task.(aliases := task.aliases + [p])
  }

  function AddAlias(s: State, t: TaskId, p: string): State {
    if t in s.tasks then s.(tasks := s.tasks[t := Aliased(s.tasks[t], p)]) else s
  }

  function CreatePlaceholder(s: State, p: string): State {
    s.(nextId := s.nextId + 1, tasks := s.tasks[s.nextId := Task(p, [], {}, false, None, None, 0)])
  }

  /** Deleting a task deletes its identities. */
  function Deleted(s: State, t: TaskId): State {
    s.(tasks := s.tasks - {t}, identities := map i <- s.identities | s.identities[i].task != t :: s.identities[i])
  }

  function Attach(s: State, m: Media, t: TaskId): (State, P.Outcome) {
    var (tables, o) := P.Attach(P.Tables(0, map[], map[], s.identities), m.identity, t, m.pcm);
    (s.(identities := tables.identities), o)
  }

  function BoundTo(s: State, m: Option<Media>): Option<TaskId> {
    if m.Some? && m.value.identity in s.identities then Some(s.identities[m.value.identity].task) else None
  }

  /** Binding the identity to the task; if that is refused, the task it is bound to is used instead, and a placeholder
      made for the other one is deleted. */
  function Settle(s: State, t: TaskId, created: bool, m: Option<Media>): (State, TaskId, bool) {
    if m.None? then (s, t, created)
    else
      var (s1, o) := Attach(s, m.value, t);
      if !o.Refused? || m.value.identity !in s.identities then (s1, t, created)
      else
        var raced := s.identities[m.value.identity].task;
        (if created && raced != t then Deleted(s, t) else s, raced, false)
  }

  function LeaseOf(s: State, task: Task): L.Lease {
    L.Lease(s.now, task.token, task.until, task.version, s.nextToken)
  }

  function WithLease(s: State, t: TaskId, l: L.Lease): State
    requires t in s.tasks
  {
    s.(nextToken := l.nextToken, tasks := s.tasks[t := s.tasks[t].(token := l.token, until := l.until, version := l.version)])
  }

  /** `found` is where the path leads. A lease that is taken rolls everything back. */
  function Begin(s: State, p: string, m: Option<Media>, ttl: nat, found: Option<TaskId>): (State, Reply) {
    var known := BoundTo(s, m);
    if known.Some? && known.value !in s.tasks then (s, Failed(Missing))
    else
      var created := known.None? && found.None?;
      var t := if known.Some? then known.value else if found.Some? then found.value else s.nextId;
      var s1 := if created then CreatePlaceholder(s, p) else AddAlias(s, t, p);
      var (s2, t2, created2) := Settle(s1, t, created, m);
      var s3 := AddAlias(s2, t2, p);
      if t2 !in s3.tasks then (s, Failed(Missing))
      else if s3.tasks[t2].isProtected then (s3, IsProtected(t2, s3.tasks[t2].path, created2))
      else
        var (l, answer) := L.Acquire(LeaseOf(s3, s3.tasks[t2]), ttl, None);
        if answer.Granted?
        then (WithLease(s3, t2, l), Leased(t2, s3.tasks[t2].path, created2, answer.token, answer.version))
        else (s, Failed(Busy))
  }

  /** `owner` is the task with this very path; aliases and source records are not looked at. */
  function Import(s: State, p: string, m: Option<Media>, owner: Option<TaskId>): (State, Reply) {
    var known := BoundTo(s, m);
    if known.Some? && owner.Some? && owner != known then (s, Failed(PathMismatch))
    else
      var created := known.None? && owner.None?;
      var t := if known.Some? then known.value else if owner.Some? then owner.value else s.nextId;
      var s1 := if created then CreatePlaceholder(s, p) else s;
      var (s2, t2, created2) := Settle(s1, t, created, m);
      (AddAlias(s2, t2, p), Imported(t2, created2))
  }

  /* ---------- what is true of the tables ---------- */

  predicate TaskOk(s: State, t: TaskId)
    requires t in s.tasks
  {
    t < s.nextId && NoRepeats(s.tasks[t].aliases) && s.tasks[t].path !in s.tasks[t].aliases
  }

  /** Paths are unique and identities belong to tasks there are. */
  ghost predicate Ok(s: State) {
    && (forall t <- s.tasks :: TaskOk(s, t))
    && (forall t <- s.tasks, u <- s.tasks :: s.tasks[t].path == s.tasks[u].path ==> t == u)
    && (forall i <- s.identities :: s.identities[i].task in s.tasks)
  }

  /** The task the call is about, if there already is one. */
  function TargetOf(s: State, m: Option<Media>, found: Option<TaskId>): Option<TaskId> {
    if BoundTo(s, m).Some? then BoundTo(s, m) else found
  }

  /** The digest that is kept: the first one ever given. */
  function Kept(s: State, m: Media): Option<string> {
    if m.identity in s.identities && s.identities[m.identity].pcm.Some? then s.identities[m.identity].pcm else m.pcm
  }

  /** The tables afterwards: one task more at most, and then it is the one the call is about; no other task changes, and
      none of that one but its aliases and its lease; the identity is bound to it. */
  ghost predicate Placed(s: State, s': State, p: string, m: Option<Media>, target: Option<TaskId>, t: TaskId) {
    && t in s'.tasks && t == TaskFor(s, target)
    && (target.None? ==> t !in s.tasks && s'.tasks[t].path == p && s'.tasks[t].aliases == [])
    && (target.Some? ==> t in s.tasks && s'.tasks[t].path == s.tasks[t].path
                         && s'.tasks[t].aliases == Aliased(s.tasks[t], p).aliases
                         && s'.tasks[t].mentions == s.tasks[t].mentions
                         && s'.tasks[t].isProtected == s.tasks[t].isProtected)
    && s'.tasks.Keys == s.tasks.Keys + {t}
    && (forall u <- s.tasks :: u != t ==> s'.tasks[u] == s.tasks[u])
    && s'.identities == (match m
                         case None => s.identities
                         case Some(media) => s.identities[media.identity := P.Binding(t, Kept(s, media))])
  }

  ghost predicate SameLease(s: State, s': State, t: TaskId) {
    && s'.nextToken == s.nextToken
    && (t in s.tasks && t in s'.tasks ==>
          s'.tasks[t].token == s.tasks[t].token && s'.tasks[t].until == s.tasks[t].until
          && s'.tasks[t].version == s.tasks[t].version)
  }

  /** With the identity at hand nothing is ever refused for good: a refusal can only be about the digest. */
  lemma SettleIs(s: State, t: TaskId, created: bool, m: Option<Media>)
    requires BoundTo(s, m).Some? ==> BoundTo(s, m).value == t && !created
    ensures var (s', t', created') := Settle(s, t, created, m);
            && t' == t && created' == created && s' == s.(identities := s'.identities)
            && s'.identities == (match m
                                 case None => s.identities
                                 case Some(media) => s.identities[media.identity := P.Binding(t, Kept(s, media))])
  {
    if m.Some? && m.value.identity in s.identities {
      var b := s.identities[m.value.identity];
      assert s.identities[m.value.identity := b] == s.identities;
    }
  }

  lemma AliasKeepsOk(s: State, t: TaskId, p: string)
    requires Ok(s) && t in s.tasks
    ensures Ok(AddAlias(s, t, p)) && AddAlias(AddAlias(s, t, p), t, p) == AddAlias(s, t, p)
  {
    var s' := AddAlias(s, t, p);
    assert forall u <- s'.tasks :: s'.tasks[u].path == s.tasks[u].path;
    forall u | u in s'.tasks ensures TaskOk(s', u) { assert TaskOk(s, u); }
    assert s'.tasks[t := Aliased(s'.tasks[t], p)] == s'.tasks;
  }

  lemma CreateKeepsOk(s: State, p: string)
    requires Ok(s) && forall u :: !Owns(s, u, p)
    ensures Ok(CreatePlaceholder(s, p)) && s.nextId !in s.tasks
    ensures AddAlias(CreatePlaceholder(s, p), s.nextId, p) == CreatePlaceholder(s, p)
  {
    var s' := CreatePlaceholder(s, p);
    forall t | t in s.tasks ensures t < s.nextId { assert TaskOk(s, t); }
    forall u | u in s'.tasks ensures TaskOk(s', u) { if u != s.nextId { assert TaskOk(s, u); } }
    forall t, u | t in s'.tasks && u in s'.tasks && s'.tasks[t].path == s'.tasks[u].path ensures t == u {
      assert !Owns(s, t, p) && !Owns(s, u, p);
    }
    assert s'.tasks[s.nextId := Aliased(s'.tasks[s.nextId], p)] == s'.tasks;
  }

  /** The task with the path on record: its own, or an alias. */
  function WithPath(s: State, p: string, target: Option<TaskId>): State {
    if target.Some? then AddAlias(s, target.value, p) else CreatePlaceholder(s, p)
  }

  function Rebound(s: State, m: Option<Media>, t: TaskId): State {
    match m
    case None => s
    case Some(media) => s.(identities := s.identities[media.identity := P.Binding(t, Kept(s, media))])
  }

  ghost predicate Target(s: State, p: string, m: Option<Media>, target: Option<TaskId>) {
    && target == TargetOf(s, m, target)
    && (target.Some? ==> target.value in s.tasks)
    && (target.None? ==> forall u :: !Owns(s, u, p))
  }

  function TaskFor(s: State, target: Option<TaskId>): TaskId {
    if target.Some? then target.value else s.nextId
  }

  lemma WithPathOk(s: State, p: string, m: Option<Media>, target: Option<TaskId>)
    requires Ok(s) && Target(s, p, m, target)
    ensures Ok(WithPath(s, p, target)) && TaskFor(s, target) in WithPath(s, p, target).tasks
    ensures AddAlias(WithPath(s, p, target), TaskFor(s, target), p) == WithPath(s, p, target)
  {
    if target.None? { CreateKeepsOk(s, p); } else { AliasKeepsOk(s, target.value, p); }
    hide Ok;
  }

  lemma RebindingKeepsOk(s: State, m: Option<Media>, t: TaskId)
    requires Ok(s) && t in s.tasks
    ensures Ok(Rebound(s, m, t))
  {
    var s' := Rebound(s, m, t);
    forall u | u in s'.tasks ensures TaskOk(s', u) { assert TaskOk(s, u); }
  }

  /** The tables before any lease is taken, whether or not the alias was recorded before the identity was bound. */
  lemma Settled(s: State, p: string, m: Option<Media>, target: Option<TaskId>, s1: State)
    requires Ok(s) && Target(s, p, m, target)
    requires s1 == WithPath(s, p, target) || (target.Some? && s1 == s)
    ensures var (s2, t, created) := Settle(s1, TaskFor(s, target), target.None?, m);
            && t == TaskFor(s, target) && created == target.None?
            && AddAlias(s2, t, p) == Rebound(WithPath(s, p, target), m, t) && Ok(AddAlias(s2, t, p))
  {
    var t := TaskFor(s, target);
    WithPathOk(s, p, m, target);
    SettleIs(s1, t, target.None?, m);
    RebindingKeepsOk(WithPath(s, p, target), m, t);
    hide Settle, Ok, Aliased;
  }

  lemma ReboundIsPlaced(s: State, p: string, m: Option<Media>, target: Option<TaskId>)
    requires Ok(s) && Target(s, p, m, target)
    ensures var s' := Rebound(WithPath(s, p, target), m, TaskFor(s, target));
            && Placed(s, s', p, m, target, TaskFor(s, target)) && SameLease(s, s', TaskFor(s, target))
            && (target.None? ==> s'.tasks[s.nextId] == Task(p, [], {}, false, None, None, 0))
  {
    if target.None? { CreateKeepsOk(s, p); }
    hide Ok;
  }

  /* ---------- what the transactions do ---------- */

  predicate BeingProcessed(s: State, target: Option<TaskId>) {
    && target.Some? && target.value in s.tasks
    && !s.tasks[target.value].isProtected && L.Live(LeaseOf(s, s.tasks[target.value]))
  }

  lemma TargetIsThere(s: State, p: string, m: Option<Media>, found: Option<TaskId>)
    requires Ok(s) && (BoundTo(s, m).None? ==> Finds(s, p, found) || FindsOwner(s, p, found))
    ensures Target(s, p, m, TargetOf(s, m, found))
  {
    if BoundTo(s, m).None? && found.None? {
      forall u ensures !Owns(s, u, p) { assert LeadsTo(s, p, u) || !LeadsTo(s, p, u); }
    }
  }

  /** What a caller that is not refused gets, and what it leaves behind. */
  ghost predicate Begun(s: State, s': State, p: string, m: Option<Media>, ttl: nat, target: Option<TaskId>, r: Reply) {
    var t := TaskFor(s, target);
    && (r.Leased? || r.IsProtected?) && r.task == t && r.created == target.None?
    && Placed(s, s', p, m, target, t) && r.path == s'.tasks[t].path
    && (r.IsProtected? ==> s'.tasks[t].isProtected && SameLease(s, s', t))
    && (r.Leased? ==> !s'.tasks[t].isProtected && r.token == s.nextToken && s'.nextToken == s.nextToken + 1
                      && s'.tasks[t].token == Some(r.token) && s'.tasks[t].until == Some(s.now + ttl)
                      && s'.tasks[t].version == r.version
                      && r.version == (if t in s.tasks then s.tasks[t].version else 0) + 1)
  }

  /** Begin, from the point where the task is settled. */
  lemma BeginFromHere(s: State, p: string, m: Option<Media>, ttl: nat, found: Option<TaskId>, s3: State)
    requires Ok(s) && (BoundTo(s, m).None? ==> Finds(s, p, found))
    requires s3 == Rebound(WithPath(s, p, TargetOf(s, m, found)), m, TaskFor(s, TargetOf(s, m, found)))
    ensures var t := TaskFor(s, TargetOf(s, m, found));
            && t in s3.tasks
            && Begin(s, p, m, ttl, found) ==
               if s3.tasks[t].isProtected then (s3, IsProtected(t, s3.tasks[t].path, TargetOf(s, m, found).None?))
               else
                 var (l, answer) := L.Acquire(LeaseOf(s3, s3.tasks[t]), ttl, None);
                 if answer.Granted?
                 then (WithLease(s3, t, l),
                       Leased(t, s3.tasks[t].path, TargetOf(s, m, found).None?, answer.token, answer.version))
                 else (s, Failed(Busy))
  {
    var target := TargetOf(s, m, found);
    TargetIsThere(s, p, m, found);
    WithPathOk(s, p, m, target);
    Settled(s, p, m, target, WithPath(s, p, target));
    hide Ok, Settle, Rebound, Finds, L.Acquire, WithLease, Aliased;
  }

  lemma LeaseKeepsOk(s: State, t: TaskId, l: L.Lease)
    requires Ok(s) && t in s.tasks
    ensures Ok(WithLease(s, t, l))
  {
    var s' := WithLease(s, t, l);
    assert forall u <- s'.tasks :: s'.tasks[u].path == s.tasks[u].path && s'.tasks[u].aliases == s.tasks[u].aliases;
    forall u | u in s'.tasks ensures TaskOk(s', u) { assert TaskOk(s, u); }
  }

  /** Beginning to process is refused only while someone else does, and then changes nothing. Otherwise the file is
      placed with the task its identity is bound to, or the one its path leads to, or a new one that is the only new one. */
  lemma BeginIs(s: State, p: string, m: Option<Media>, ttl: nat, found: Option<TaskId>)
    requires Ok(s) && (BoundTo(s, m).None? ==> Finds(s, p, found))
    ensures var (s', r), target := Begin(s, p, m, ttl, found), TargetOf(s, m, found);
            && Ok(s') && s'.now == s.now
            && (r.Failed? <==> BeingProcessed(s, target))
            && (r.Failed? ==> r.error.Busy? && s' == s)
            && (!r.Failed? ==> Begun(s, s', p, m, ttl, target, r))
  {
    var target := TargetOf(s, m, found);
    var t := TaskFor(s, target);
    TargetIsThere(s, p, m, found);
    WithPathOk(s, p, m, target);
    Settled(s, p, m, target, WithPath(s, p, target));
    ReboundIsPlaced(s, p, m, target);
    var s3 := Rebound(WithPath(s, p, target), m, t);
    assert t in s3.tasks && s3.now == s.now;
    BeginFromHere(s, p, m, ttl, found, s3);
    hide Begin, Rebound, WithPath, Settle, Finds, TargetOf, Target, Placed, SameLease, BoundTo, Begun, BeingProcessed;
    LeaseTaken(s, s3, p, m, ttl, target);
  }

  lemma LeaseTaken(s: State, s3: State, p: string, m: Option<Media>, ttl: nat, target: Option<TaskId>)
    requires Ok(s3) && s3.now == s.now
    requires Placed(s, s3, p, m, target, TaskFor(s, target)) && SameLease(s, s3, TaskFor(s, target))
    requires target.None? ==> s3.tasks[s.nextId] == Task(p, [], {}, false, None, None, 0)
    ensures var t := TaskFor(s, target);
            var (l, answer) := L.Acquire(LeaseOf(s3, s3.tasks[t]), ttl, None);
            && (s3.tasks[t].isProtected ==>
                  !BeingProcessed(s, target)
                  && Begun(s, s3, p, m, ttl, target, IsProtected(t, s3.tasks[t].path, target.None?)))
            && (!s3.tasks[t].isProtected ==> (answer.Granted? <==> !BeingProcessed(s, target)))
            && (!s3.tasks[t].isProtected && answer.Granted? ==>
                  && Ok(WithLease(s3, t, l))
                  && Begun(s, WithLease(s3, t, l), p, m, ttl, target,
                           Leased(t, s3.tasks[t].path, target.None?, answer.token, answer.version)))
  {
    var t := TaskFor(s, target);
    var l := L.Acquire(LeaseOf(s3, s3.tasks[t]), ttl, None).0;
    LeaseKeepsOk(s3, t, l);
    LeaseKeepsPlace(s, s3, p, m, target, l);
    BusyWhenLive(s, s3, ttl, target);
    if !s3.tasks[t].isProtected && L.Acquire(LeaseOf(s3, s3.tasks[t]), ttl, None).1.Granted? {
      GrantedIsBegun(s, s3, p, m, ttl, target);
    }
    hide Ok, Placed, L.Live, L.Acquire, WithLease;
  }

  lemma GrantedIsBegun(s: State, s3: State, p: string, m: Option<Media>, ttl: nat, target: Option<TaskId>)
    requires s3.now == s.now && TaskFor(s, target) in s3.tasks && SameLease(s, s3, TaskFor(s, target))
    requires var t := TaskFor(s, target);
             var (l, answer) := L.Acquire(LeaseOf(s3, s3.tasks[t]), ttl, None);
             && !s3.tasks[t].isProtected && answer.Granted? && Placed(s, WithLease(s3, t, l), p, m, target, t)
             && (if target.None? then t !in s.tasks && s3.tasks[t].version == 0 else t in s.tasks)
    ensures var t := TaskFor(s, target);
            var (l, answer) := L.Acquire(LeaseOf(s3, s3.tasks[t]), ttl, None);
            Begun(s, WithLease(s3, t, l), p, m, ttl, target,
                  Leased(t, s3.tasks[t].path, target.None?, answer.token, answer.version))
  {
    hide Placed;
  }

  lemma BusyWhenLive(s: State, s3: State, ttl: nat, target: Option<TaskId>)
    requires s3.now == s.now && TaskFor(s, target) in s3.tasks && SameLease(s, s3, TaskFor(s, target))
    requires target.Some? ==> target.value in s.tasks
                              && s3.tasks[target.value].isProtected == s.tasks[target.value].isProtected
    requires target.None? ==> s3.tasks[s.nextId].token.None?
    ensures var task := s3.tasks[TaskFor(s, target)];
            L.Acquire(LeaseOf(s3, task), ttl, None).1.Granted? && !task.isProtected
            <==> !BeingProcessed(s, target) && !task.isProtected
  {
  }

  lemma LeaseKeepsPlace(s: State, s3: State, p: string, m: Option<Media>, target: Option<TaskId>, l: L.Lease)
    requires Placed(s, s3, p, m, target, TaskFor(s, target))
    ensures Placed(s, WithLease(s3, TaskFor(s, target), l), p, m, target, TaskFor(s, target))
    ensures target.Some? ==> target.value in s.tasks
                             && s3.tasks[target.value].isProtected == s.tasks[target.value].isProtected
    ensures target.None? ==> TaskFor(s, target) !in s.tasks
  {
    hide Aliased;
  }

  /** An import is refused only if the path belongs to another task than the one the identity is bound to. */
  lemma ImportIs(s: State, p: string, m: Option<Media>, owner: Option<TaskId>)
    requires Ok(s) && FindsOwner(s, p, owner)
    ensures var (s', r), target := Import(s, p, m, owner), TargetOf(s, m, owner);
            var t := TaskFor(s, target);
            && Ok(s') && s'.now == s.now
            && (r.Failed? <==> owner.Some? && owner != target)
            && (r.Failed? ==> r.error.PathMismatch? && s' == s)
            && (!r.Failed? ==> r == Imported(t, target.None?) && Placed(s, s', p, m, target, t) && SameLease(s, s', t))
  {
    var target := TargetOf(s, m, owner);
    TargetIsThere(s, p, m, owner);
    WithPathOk(s, p, m, target);
    Settled(s, p, m, target, if target.None? then WithPath(s, p, target) else s);
    ReboundIsPlaced(s, p, m, target);
    hide Ok, Settle, Aliased, Placed, SameLease;
  }

  /* ---------- where the path leads afterwards ---------- */

  /** Whichever row the lookup returns, it is the task's. */
  ghost predicate SurelyLeadsTo(s: State, p: string, t: TaskId) {
    forall f :: Finds(s, p, f) ==> f == Some(t)
  }

  /** For a task that has the path as its own or as an alias: the path is its own, or it is nobody's own and nobody
      else's alias. */
  ghost predicate PathIsIts(s: State, p: string, t: TaskId) {
    || Owns(s, t, p)
    || (HasAlias(s, t, p) && forall u :: Owns(s, u, p) || HasAlias(s, u, p) ==> u == t)
  }

  lemma SurelyIff(s: State, p: string, t: TaskId)
    requires Ok(s) && (Owns(s, t, p) || HasAlias(s, t, p))
    ensures SurelyLeadsTo(s, p, t) <==> PathIsIts(s, p, t)
  {
    if SurelyLeadsTo(s, p, t) && !Owns(s, t, p) {
      forall u | Owns(s, u, p) || HasAlias(s, u, p) ensures u == t {
        if v :| Owns(s, v, p) {
          assert LeadsTo(s, p, v) && Finds(s, p, Some(v));
          assert false;
        } else {
          assert LeadsTo(s, p, u) && Finds(s, p, Some(u));
        }
      }
    }
    if PathIsIts(s, p, t) {
      assert LeadsTo(s, p, t);
      forall f | Finds(s, p, f) ensures f == Some(t) {
        assert f.Some? && LeadsTo(s, p, f.value);
      }
    }
  }

  /** After a successful start a lookup of the path is certain to return the task iff no other task has the path as its
      own and, unless it is the task's own, no other task has it as an alias. Both can be seen before the start. */
  lemma PathLeadsBack(s: State, p: string, m: Option<Media>, ttl: nat, found: Option<TaskId>)
    requires Ok(s) && (BoundTo(s, m).None? ==> Finds(s, p, found)) && p != ""
    ensures var (s', r), target := Begin(s, p, m, ttl, found), TargetOf(s, m, found);
            !r.Failed? ==>
              && (LeadsTo(s', p, r.task) <==> forall u :: Owns(s, u, p) ==> u == r.task)
              && (SurelyLeadsTo(s', p, r.task) <==> FreeFor(s, p, target, r.task))
  {
    BeginIs(s, p, m, ttl, found);
    var (s', r) := Begin(s, p, m, ttl, found);
    if !r.Failed? {
      PlacedLeadsBack(s, s', p, m, TargetOf(s, m, found), r.task);
    }
    hide Ok, Begin, Finds, TargetOf, BoundTo, LeadsTo, SurelyLeadsTo, FreeFor;
  }

  /** No other task owns the path, and it is the task's own, or a new task's, or no other task's alias. */
  ghost predicate FreeFor(s: State, p: string, target: Option<TaskId>, t: TaskId) {
    && (forall u :: Owns(s, u, p) ==> u == t)
    && (target.None? || Owns(s, t, p) || forall u :: HasAlias(s, u, p) ==> u == t)
  }

  lemma PlacedOwners(s: State, s': State, p: string, m: Option<Media>, target: Option<TaskId>, t: TaskId)
    requires Placed(s, s', p, m, target, t)
    ensures forall u :: Owns(s', u, p) <==> Owns(s, u, p) || (target.None? && u == t)
    ensures forall u :: u != t ==> (HasAlias(s', u, p) <==> HasAlias(s, u, p))
    ensures p != "" ==> Owns(s', t, p) || HasAlias(s', t, p)
  {
  }

  lemma PlacedLeadsBack(s: State, s': State, p: string, m: Option<Media>, target: Option<TaskId>, t: TaskId)
    requires Placed(s, s', p, m, target, t) && Ok(s') && p != ""
    ensures LeadsTo(s', p, t) <==> forall u :: Owns(s, u, p) ==> u == t
    ensures SurelyLeadsTo(s', p, t) <==> FreeFor(s, p, target, t)
  {
    PlacedOwners(s, s', p, m, target, t);
    SurelyIff(s', p, t);
    assert target.None? ==> Owns(s', t, p);
    hide Placed, SurelyLeadsTo, Ok, Owns, HasAlias;
  }

  /** After a successful import nobody else has the path as its own; a lookup is certain to return the task iff, unless
      the path is the task's own, no other task has it as an alias. */
  lemma ImportedPathLeadsBack(s: State, p: string, m: Option<Media>, owner: Option<TaskId>)
    requires Ok(s) && FindsOwner(s, p, owner) && p != ""
    ensures var (s', r), target := Import(s, p, m, owner), TargetOf(s, m, owner);
            r.Imported? ==>
              && LeadsTo(s', p, r.task)
              && (SurelyLeadsTo(s', p, r.task) <==>
                  target.None? || Owns(s, r.task, p) || forall u :: HasAlias(s, u, p) ==> u == r.task)
  {
    ImportIs(s, p, m, owner);
    var (s', r) := Import(s, p, m, owner);
    if r.Imported? {
      forall u ensures Owns(s, u, p) ==> u == r.task { assert Owns(s, u, p) && owner.Some? ==> u == owner.value; }
      PlacedLeadsBack(s, s', p, m, TargetOf(s, m, owner), r.task);
    }
    hide Ok, Import, LeadsTo, SurelyLeadsTo;
  }

  const VIDEO := P.Identity("site", "v1", "audio")

  /** Processing does not make the comparison that an import makes: with a known identity it goes ahead on the
      identity's task although the path is another task's, and the path then leads elsewhere. */
  lemma PathOfAnotherTask()
    ensures var s := State(0, 2, 0, map[0 := Task("a.wav", [], {}, false, None, None, 0),
                                        1 := Task("b.wav", [], {}, false, None, None, 0)],
                           map[VIDEO := P.Binding(0, None)]);
            var m := Some(Media(VIDEO, None));
            && Ok(s) && Begin(s, "b.wav", m, 60, Some(1)).1.Leased? && Begin(s, "b.wav", m, 60, Some(1)).1.task == 0
            && !LeadsTo(Begin(s, "b.wav", m, 60, Some(1)).0, "b.wav", 0)
            && Import(s, "b.wav", m, Some(1)) == (s, Failed(PathMismatch))
  {
    var s := State(0, 2, 0, map[0 := Task("a.wav", [], {}, false, None, None, 0),
                                1 := Task("b.wav", [], {}, false, None, None, 0)], map[VIDEO := P.Binding(0, None)]);
    var s' := Begin(s, "b.wav", Some(Media(VIDEO, None)), 60, Some(1)).0;
    assert Owns(s', 1, "b.wav");
  }

  const VIDEO2 := P.Identity("site", "v2", "audio")

  const NOTHING := State(0, 0, 0, map[], map[])

  function Fresh(path: string, aliases: seq<string>): Task {
    Task(path, aliases, {}, false, None, None, 0)
  }

  const ONE_FILE := State(0, 1, 0, map[0 := Fresh("a.wav", [])], map[VIDEO := P.Binding(0, None)])

  const TWO_FILES := State(0, 2, 0, map[0 := Fresh("a.wav", []), 1 := Fresh("b.wav", [])],
                           map[VIDEO := P.Binding(0, None), VIDEO2 := P.Binding(1, None)])

  const ALIASED := State(0, 2, 0, map[0 := Fresh("a.wav", []), 1 := Fresh("b.wav", ["c.wav"])],
                         map[VIDEO := P.Binding(0, None), VIDEO2 := P.Binding(1, None)])

  /** Three imports from empty tables: two files with an identity each, and the second identity once more under the path
      "c.wav", which becomes an alias of its task. */
  lemma ThreeImports()
    ensures FindsOwner(NOTHING, "a.wav", None) && Import(NOTHING, "a.wav", Some(Media(VIDEO, None)), None).0 == ONE_FILE
    ensures FindsOwner(ONE_FILE, "b.wav", None) && Import(ONE_FILE, "b.wav", Some(Media(VIDEO2, None)), None).0 == TWO_FILES
    ensures FindsOwner(TWO_FILES, "c.wav", None) && Import(TWO_FILES, "c.wav", Some(Media(VIDEO2, None)), None).0 == ALIASED
  {
    FirstFile();
    SecondFile();
    ThirdPath();
  }

  lemma FirstFile()
    ensures Import(NOTHING, "a.wav", Some(Media(VIDEO, None)), None).0 == ONE_FILE
  {
    var s := Import(NOTHING, "a.wav", Some(Media(VIDEO, None)), None).0;
    assert s.tasks == ONE_FILE.tasks && s.identities == ONE_FILE.identities;
  }

  lemma SecondFile()
    ensures Import(ONE_FILE, "b.wav", Some(Media(VIDEO2, None)), None).0 == TWO_FILES
  {
    var s := Import(ONE_FILE, "b.wav", Some(Media(VIDEO2, None)), None).0;
    assert VIDEO2 !in ONE_FILE.identities;
    assert s.tasks == TWO_FILES.tasks && s.identities == TWO_FILES.identities;
  }

  lemma ThirdPath()
    ensures Import(TWO_FILES, "c.wav", Some(Media(VIDEO2, None)), None).0 == ALIASED
  {
    var s := Import(TWO_FILES, "c.wav", Some(Media(VIDEO2, None)), None).0;
    assert [] + ["c.wav"] == ["c.wav"];
    assert s.tasks == ALIASED.tasks && s.identities == ALIASED.identities;
  }

  lemma BothHaveIt(s: State)
    requires HasAlias(s, 0, "c.wav") && HasAlias(s, 1, "c.wav") && forall u :: !Owns(s, u, "c.wav")
    ensures Finds(s, "c.wav", Some(0)) && Finds(s, "c.wav", Some(1))
  {
  }

  /** No task owns "c.wav", so importing it, or starting to process it, under the first identity goes ahead on task 0. It
      is then an alias of both tasks, and a lookup may return either. */
  lemma SharedAlias()
    ensures Finds(ALIASED, "c.wav", Some(1)) && FindsOwner(ALIASED, "c.wav", None)
    ensures var (s, r) := Import(ALIASED, "c.wav", Some(Media(VIDEO, None)), None);
            r == Imported(0, false) && Finds(s, "c.wav", Some(0)) && Finds(s, "c.wav", Some(1))
    ensures var (s, r) := Begin(ALIASED, "c.wav", Some(Media(VIDEO, None)), 60, Some(1));
            r.Leased? && r.task == 0 && Finds(s, "c.wav", Some(0)) && Finds(s, "c.wav", Some(1))
  {
    assert HasAlias(ALIASED, 1, "c.wav") && forall u :: !Owns(ALIASED, u, "c.wav");
    hide Finds;
    ImportedTwice();
    BegunTwice();
    BothHaveIt(Import(ALIASED, "c.wav", Some(Media(VIDEO, None)), None).0);
    BothHaveIt(Begin(ALIASED, "c.wav", Some(Media(VIDEO, None)), 60, Some(1)).0);
    assert LeadsTo(ALIASED, "c.wav", 1);
    FoundIt(ALIASED, "c.wav", 1);
  }

  lemma FoundIt(s: State, p: string, t: TaskId)
    requires LeadsTo(s, p, t)
    ensures Finds(s, p, Some(t))
  {
  }

  lemma ImportedTwice()
    ensures var (s, r) := Import(ALIASED, "c.wav", Some(Media(VIDEO, None)), None);
            && r == Imported(0, false) && HasAlias(s, 0, "c.wav") && HasAlias(s, 1, "c.wav")
            && forall u :: !Owns(s, u, "c.wav")
  {
  }

  lemma BegunTwice()
    ensures var (s, r) := Begin(ALIASED, "c.wav", Some(Media(VIDEO, None)), 60, Some(1));
            && r.Leased? && r.task == 0 && HasAlias(s, 0, "c.wav") && HasAlias(s, 1, "c.wav")
            && forall u :: !Owns(s, u, "c.wav")
  {
  }

  /* ---------- over every run ---------- */

  /** Calls, and what the rest of the platform does to the other columns; a token is only ever granted by a start. */
  datatype Call =
    | DoBegin(path: string, media: Option<Media>, ttl: nat, found: Option<TaskId>)
    | DoImport(path: string, media: Option<Media>, found: Option<TaskId>)
    | Elsewhere(task: TaskId, mentions: set<string>, isProtected: bool, token: Option<Token>, until: Option<nat>, version: nat)
    | Wait(seconds: nat)

  ghost predicate Possible(s: State, c: Call) {
    match c
    case DoBegin(p, m, _, found) => BoundTo(s, m).None? ==> Finds(s, p, found)
    case DoImport(p, _, owner) => FindsOwner(s, p, owner)
    case Elsewhere(t, _, _, token, _, _) => t in s.tasks && (token.None? || token == s.tasks[t].token)
    case Wait(_) => true
  }

  function Step(s: State, c: Call): State {
    match c
    case DoBegin(p, m, ttl, found) => Begin(s, p, m, ttl, found).0
    case DoImport(p, m, owner) => Import(s, p, m, owner).0
    case Elsewhere(t, mentions, isProtected, token, until, version) =>
      if t !in s.tasks then s
      else s.(tasks := s.tasks[t := Task(s.tasks[t].path, s.tasks[t].aliases, mentions, isProtected, token, until, version)])
    case Wait(seconds) => s.(now := s.now + seconds)
  }

  ghost predicate PossibleAll(s: State, cs: seq<Call>)
    decreases |cs|
  {
    cs == [] || (Possible(s, cs[0]) && PossibleAll(Step(s, cs[0]), cs[1..]))
  }

  function Run(s: State, cs: seq<Call>): State
    decreases |cs|
  {
    if cs == [] then s else Run(Step(s, cs[0]), cs[1..])
  }

  /** Tasks, their own paths, bindings and digests are kept, aliases only added. */
  ghost predicate Keeps(s: State, s': State) {
    && (forall t <- s.tasks :: t in s'.tasks && s'.tasks[t].path == s.tasks[t].path
                               && s.tasks[t].aliases <= s'.tasks[t].aliases)
    && (forall i <- s.identities :: i in s'.identities && s'.identities[i].task == s.identities[i].task
                                    && (s.identities[i].pcm.Some? ==> s'.identities[i].pcm == s.identities[i].pcm))
  }

  lemma PlacedKeeps(s: State, s': State, p: string, m: Option<Media>, target: Option<TaskId>, t: TaskId)
    requires Placed(s, s', p, m, target, t) && (BoundTo(s, m).Some? ==> BoundTo(s, m).value == t)
    ensures Keeps(s, s')
  {
  }

  lemma StepKeeps(s: State, c: Call)
    requires Ok(s) && Possible(s, c)
    ensures Ok(Step(s, c)) && Keeps(s, Step(s, c))
  {
    match c
    case DoBegin(p, m, ttl, found) =>
      BeginIs(s, p, m, ttl, found);
      hide Ok, Placed, Keeps, Begin;
      assert Keeps(s, s) by { KeepsItself(s); }
      if !Begin(s, p, m, ttl, found).1.Failed? {
        PlacedKeeps(s, Begin(s, p, m, ttl, found).0, p, m, TargetOf(s, m, found), Begin(s, p, m, ttl, found).1.task);
      }
    case DoImport(p, m, owner) =>
      ImportIs(s, p, m, owner);
      hide Ok, Placed, Keeps, Import;
      assert Keeps(s, s) by { KeepsItself(s); }
      if !Import(s, p, m, owner).1.Failed? {
        PlacedKeeps(s, Import(s, p, m, owner).0, p, m, TargetOf(s, m, owner), Import(s, p, m, owner).1.task);
      }
    case Elsewhere(_, _, _, _, _, _) => ElsewhereKeeps(s, c);
    case Wait(_) => ElsewhereKeeps(s, c);
  }

  lemma KeepsItself(s: State)
    ensures Keeps(s, s)
  {
  }

  lemma ElsewhereKeeps(s: State, c: Call)
    requires Ok(s) && Possible(s, c) && (c.Elsewhere? || c.Wait?)
    ensures Ok(Step(s, c)) && Keeps(s, Step(s, c))
  {
    var s' := Step(s, c);
    assert forall u <- s'.tasks :: u in s.tasks && s'.tasks[u].path == s.tasks[u].path
                                   && s'.tasks[u].aliases == s.tasks[u].aliases;
    forall u | u in s'.tasks ensures TaskOk(s', u) { assert TaskOk(s, u); }
  }

  lemma KeepsChains(a: State, b: State, c: State)
    requires Keeps(a, b) && Keeps(b, c)
    ensures Keeps(a, c)
  {
  }

  /** In every run no task is lost or renamed, no alias forgotten, no identity rebound, no digest rewritten. */
  lemma {:induction false} RunKeeps(s: State, cs: seq<Call>)
    requires Ok(s) && PossibleAll(s, cs)
    ensures Ok(Run(s, cs)) && Keeps(s, Run(s, cs))
    decreases |cs|
  {
    hide Ok, Keeps, Possible, Step;
    if cs == [] {
      KeepsItself(s);
    } else {
      StepKeeps(s, cs[0]);
      RunKeeps(Step(s, cs[0]), cs[1..]);
      KeepsChains(s, Step(s, cs[0]), Run(s, cs));
    }
  }

  /* the lease and the path */

  /** Tokens that tasks have were drawn from the counter. */
  ghost predicate TokensOk(s: State) {
    forall t <- s.tasks :: s.tasks[t].token.Some? ==> s.tasks[t].token.value < s.nextToken
  }

  /** Only task `t` can have the token, and it was drawn. */
  ghost predicate Only(s: State, t: TaskId, k: Token) {
    k < s.nextToken && forall u <- s.tasks :: s.tasks[u].token == Some(k) ==> u == t
  }

  lemma BegunTokens(s: State, s': State, p: string, m: Option<Media>, ttl: nat, target: Option<TaskId>, r: Reply, t: TaskId, k: Token)
    requires Begun(s, s', p, m, ttl, target, r) && Only(s, t, k)
    requires target.None? ==> s'.tasks[r.task].token == None || r.Leased?
    ensures Only(s', t, k)
  {
    hide Aliased;
  }

  lemma BeginKeepsOnly(s: State, c: Call, t: TaskId, k: Token)
    requires Ok(s) && Possible(s, c) && c.DoBegin? && Only(s, t, k)
    ensures Only(Step(s, c), t, k)
  {
    BeginIs(s, c.path, c.media, c.ttl, c.found);
    var r := Begin(s, c.path, c.media, c.ttl, c.found).1;
    if !r.Failed? {
      if TargetOf(s, c.media, c.found).None? { NewIsLeased(s, c); }
      hide Ok, Begin, Begun, Only, BeingProcessed;
      BegunTokens(s, Step(s, c), c.path, c.media, c.ttl, TargetOf(s, c.media, c.found), r, t, k);
    }
  }

  /** A placeholder that was just made is not protected. */
  lemma NewIsLeased(s: State, c: Call)
    requires Ok(s) && Possible(s, c) && c.DoBegin? && TargetOf(s, c.media, c.found).None?
    ensures Begin(s, c.path, c.media, c.ttl, c.found).1.Leased?
  {
    TargetIsThere(s, c.path, c.media, c.found);
    ReboundIsPlaced(s, c.path, c.media, None);
    BeginFromHere(s, c.path, c.media, c.ttl, c.found, Rebound(WithPath(s, c.path, None), c.media, s.nextId));
    hide Ok, Begin, Rebound, WithPath, Placed;
  }

  lemma ImportKeepsOnly(s: State, c: Call, t: TaskId, k: Token)
    requires Ok(s) && Possible(s, c) && c.DoImport? && Only(s, t, k)
    ensures Only(Step(s, c), t, k)
  {
    ImportIs(s, c.path, c.media, c.found);
    if TargetOf(s, c.media, c.found).None? { NewIsUnleased(s, c); }
    hide Ok, Import;
  }

  lemma NewIsUnleased(s: State, c: Call)
    requires Ok(s) && Possible(s, c) && c.DoImport? && TargetOf(s, c.media, c.found).None?
    ensures s.nextId in Step(s, c).tasks ==> Step(s, c).tasks[s.nextId].token.None?
  {
    TargetIsThere(s, c.path, c.media, c.found);
    WithPathOk(s, c.path, c.media, None);
    Settled(s, c.path, c.media, None, WithPath(s, c.path, None));
    ReboundIsPlaced(s, c.path, c.media, None);
    hide Ok, Settle, Aliased, Placed;
  }

  lemma StepKeepsOnly(s: State, c: Call, t: TaskId, k: Token)
    requires Ok(s) && Possible(s, c) && Only(s, t, k)
    ensures Only(Step(s, c), t, k)
  {
    hide Ok;
    match c
    case DoBegin(_, _, _, _) => BeginKeepsOnly(s, c, t, k);
    case DoImport(_, _, _) => ImportKeepsOnly(s, c, t, k);
    case _ =>
  }

  lemma BeginKeepsTokens(s: State, c: Call)
    requires Ok(s) && Possible(s, c) && c.DoBegin? && TokensOk(s)
    ensures TokensOk(Step(s, c))
  {
    BeginIs(s, c.path, c.media, c.ttl, c.found);
    if TargetOf(s, c.media, c.found).None? { NewIsLeased(s, c); }
    hide Ok, Begin, BeingProcessed, Aliased, TargetOf;
  }

  lemma ImportKeepsTokens(s: State, c: Call)
    requires Ok(s) && Possible(s, c) && c.DoImport? && TokensOk(s)
    ensures TokensOk(Step(s, c))
  {
    ImportIs(s, c.path, c.media, c.found);
    if TargetOf(s, c.media, c.found).None? { NewIsUnleased(s, c); }
    hide Ok, Import, Aliased;
  }

  lemma StepKeepsTokens(s: State, c: Call)
    requires Ok(s) && Possible(s, c) && TokensOk(s)
    ensures TokensOk(Step(s, c))
  {
    hide Ok;
    match c
    case DoBegin(_, _, _, _) => BeginKeepsTokens(s, c);
    case DoImport(_, _, _) => ImportKeepsTokens(s, c);
    case _ =>
  }

  lemma {:induction false} RunKeepsTokens(s: State, cs: seq<Call>)
    requires Ok(s) && PossibleAll(s, cs) && TokensOk(s)
    ensures TokensOk(Run(s, cs))
    decreases |cs|
  {
    hide Ok, TokensOk, Possible, Step;
    if cs != [] {
      StepKeeps(s, cs[0]);
      StepKeepsTokens(s, cs[0]);
      RunKeepsTokens(Step(s, cs[0]), cs[1..]);
    }
  }

  lemma {:induction false} RunKeepsOnly(s: State, cs: seq<Call>, t: TaskId, k: Token)
    requires Ok(s) && PossibleAll(s, cs) && Only(s, t, k)
    ensures Only(Run(s, cs), t, k)
    decreases |cs|
  {
    hide Ok, Only, Possible, Step;
    if cs != [] {
      StepKeeps(s, cs[0]);
      StepKeepsOnly(s, cs[0], t, k);
      RunKeepsOnly(Step(s, cs[0]), cs[1..], t, k);
    }
  }

  lemma LeasedOnly(s: State, p: string, m: Option<Media>, ttl: nat, found: Option<TaskId>)
    requires Ok(s) && TokensOk(s) && (BoundTo(s, m).None? ==> Finds(s, p, found)) && Begin(s, p, m, ttl, found).1.Leased?
    ensures var (s', r) := Begin(s, p, m, ttl, found);
            && Ok(s') && Only(s', r.task, r.token) && Owns(s', r.task, r.path)
            && (p != "" ==> Owns(s', r.task, p) || HasAlias(s', r.task, p))
  {
    hide Ok, Begin, BeingProcessed, Finds, BoundTo, TargetOf, TaskFor, SameLease;
    BeginIs(s, p, m, ttl, found);
    var (s', r) := Begin(s, p, m, ttl, found);
    BegunLeased(s, s', p, m, ttl, TargetOf(s, m, found), r);
  }

  lemma BegunLeased(s: State, s': State, p: string, m: Option<Media>, ttl: nat, target: Option<TaskId>, r: Reply)
    requires TokensOk(s) && Begun(s, s', p, m, ttl, target, r) && r.Leased?
    ensures Only(s', r.task, r.token) && Owns(s', r.task, r.path)
    ensures p != "" ==> Owns(s', r.task, p) || HasAlias(s', r.task, p)
  {
    PlacedOwners(s, s', p, m, target, r.task);
  }

  /** From a start that granted a lease to a store under its token, whatever happens between: the token is accepted for no
      other task, so a store that reaches another task is refused. Under the path returned by the start the store is
      certain to reach the leased task; under the path it was given, exactly if that path is the task's own, or nobody
      else's own or alias. */
  lemma StoreReachesTheLeasedTask(before: seq<Call>, now: nat, p: string, m: Option<Media>, ttl: nat,
                                  found: Option<TaskId>, cs: seq<Call>)
    requires var s := Run(State(now, 0, 0, map[], map[]), before);
             && PossibleAll(State(now, 0, 0, map[], map[]), before)
             && (BoundTo(s, m).None? ==> Finds(s, p, found)) && Begin(s, p, m, ttl, found).1.Leased?
             && PossibleAll(Begin(s, p, m, ttl, found).0, cs)
    ensures var (s', r) := Begin(Run(State(now, 0, 0, map[], map[]), before), p, m, ttl, found);
            var later := Run(s', cs);
            && (forall u <- later.tasks :: L.Require(LeaseOf(later, later.tasks[u]), Some(r.token)).Fine? ==> u == r.task)
            && SurelyLeadsTo(later, r.path, r.task)
            && (p != "" ==> (SurelyLeadsTo(later, p, r.task) <==> PathIsIts(later, p, r.task)))
  {
    var empty := State(now, 0, 0, map[], map[]);
    assert Ok(empty) && TokensOk(empty);
    var s := Run(empty, before);
    RunKeeps(empty, before);
    RunKeepsTokens(empty, before);
    LeasedOnly(s, p, m, ttl, found);
    var (s', r) := Begin(s, p, m, ttl, found);
    RunKeeps(s', cs);
    RunKeepsOnly(s', cs, r.task, r.token);
    hide Run, Begin, Ok, PossibleAll, TokensOk, SurelyLeadsTo, PathIsIts, Finds;
    AtTheLeasedTask(s', Run(s', cs), p, r.path, r.task, r.token);
  }

  lemma AtTheLeasedTask(s: State, later: State, p: string, path: string, t: TaskId, k: Token)
    requires Ok(later) && Keeps(s, later) && Only(later, t, k) && Owns(s, t, path)
    requires p != "" ==> Owns(s, t, p) || HasAlias(s, t, p)
    ensures forall u <- later.tasks :: L.Require(LeaseOf(later, later.tasks[u]), Some(k)).Fine? ==> u == t
    ensures SurelyLeadsTo(later, path, t)
    ensures p != "" ==> (SurelyLeadsTo(later, p, t) <==> PathIsIts(later, p, t))
  {
    assert Owns(later, t, path) && PathIsIts(later, path, t);
    assert HasAlias(s, t, p) ==> HasAlias(later, t, p) by {
      if HasAlias(s, t, p) { assert s.tasks[t].aliases <= later.tasks[t].aliases; }
    }
    hide Ok, SurelyLeadsTo, PathIsIts;
    SurelyIff(later, path, t);
    if p != "" { SurelyIff(later, p, t); }
  }

  /** The call was about the task the identity is bound to, if it was not refused, and rewrote no digest. */
  predicate StaysWith(s: State, out: (State, Reply), i: P.Identity, b: P.Binding) {
    && (!out.1.Failed? ==> out.1.task == b.task && !out.1.created && out.0.tasks.Keys == s.tasks.Keys)
    && i in out.0.identities && out.0.identities[i].task == b.task
    && (b.pcm.Some? ==> out.0.identities[i].pcm == b.pcm)
  }

  predicate StillBound(s: State, i: P.Identity, b: P.Binding) {
    i in s.identities && s.identities[i].task == b.task && (b.pcm.Some? ==> s.identities[i].pcm == b.pcm)
  }

  lemma BegunWithIdentity(s: State, p: string, m: Media, ttl: nat, found: Option<TaskId>, b: P.Binding)
    requires Ok(s) && StillBound(s, m.identity, b)
    ensures StaysWith(s, Begin(s, p, Some(m), ttl, found), m.identity, b)
  {
    BeginIs(s, p, Some(m), ttl, found);
    assert b.task in s.tasks;
    hide Ok, Begin, BeingProcessed, SameLease;
  }

  lemma ImportedWithIdentity(s: State, p: string, m: Media, owner: Option<TaskId>, b: P.Binding)
    requires Ok(s) && StillBound(s, m.identity, b) && FindsOwner(s, p, owner)
    ensures StaysWith(s, Import(s, p, Some(m), owner), m.identity, b)
    ensures Import(s, p, Some(m), owner).1.Failed? <==> owner.Some? && owner.value != b.task
  {
    ImportIs(s, p, Some(m), owner);
    assert b.task in s.tasks;
    hide Ok, Import, SameLease;
  }

  /** Once an identity is bound, every later call that names it is about the same task and makes no other, whatever path
      it comes with; a different digest is neither recorded nor reported. */
  lemma IdentityDecides(s: State, cs: seq<Call>, m: Media, p: string, ttl: nat, found: Option<TaskId>, owner: Option<TaskId>)
    requires Ok(s) && PossibleAll(s, cs) && m.identity in s.identities && FindsOwner(Run(s, cs), p, owner)
    ensures var b, s' := s.identities[m.identity], Run(s, cs);
            && StaysWith(s', Begin(s', p, Some(m), ttl, found), m.identity, b)
            && StaysWith(s', Import(s', p, Some(m), owner), m.identity, b)
            && (Import(s', p, Some(m), owner).1.Failed? <==> owner.Some? && owner.value != b.task)
  {
    RunKeeps(s, cs);
    var b, s' := s.identities[m.identity], Run(s, cs);
    assert StillBound(s', m.identity, b);
    hide Ok, Run, Begin, Import, PossibleAll, StaysWith, FindsOwner;
    BegunWithIdentity(s', p, m, ttl, found, b);
    ImportedWithIdentity(s', p, m, owner, b);
  }

  /* ---------- the transactions step by step ---------- */

  class Intake {
    var now: nat
    var nextId: TaskId
    var nextToken: Token
    var tasks: map<TaskId, Task>
    var identities: map<P.Identity, P.Binding>

    function Tables(): State
      reads this
    {
      State(now, nextId, nextToken, tasks, identities)
    }

    constructor (now: nat)
      ensures Tables() == State(now, 0, 0, map[], map[]) && Ok(Tables())
    {
      this.now, nextId, nextToken, tasks, identities := now, 0, 0, map[], map[];
    }

    /** One row at most comes back; which of several equals is not determined. */
    method FindTaskForAudioPath(p: string) returns (found: Option<TaskId>)
      ensures Finds(Tables(), p, found)
    {
      var own := set t <- tasks | tasks[t].path == p;
      var aliased := set t <- tasks | p in tasks[t].aliases;
      var named := set t <- tasks | p in tasks[t].mentions;
      var ranked := if own != {} then own else if aliased != {} then aliased else named;
      assert forall t :: t in own <==> Owns(Tables(), t, p);
      assert forall t :: t in aliased <==> HasAlias(Tables(), t, p);
      assert forall t :: t in named <==> Names(Tables(), t, p);
      if ranked == {} { return None; }
      var t := AnyOf(ranked);
      found := Some(t);
    }

    method LockTaskByRelPath(p: string) returns (owner: Option<TaskId>)
      ensures FindsOwner(Tables(), p, owner)
    {
      var own := set t <- tasks | tasks[t].path == p;
      assert forall t :: t in own <==> Owns(Tables(), t, p);
      if own == {} { return None; }
      var t := AnyOf(own);
      owner := Some(t);
    }

    method RegisterPathAlias(t: TaskId, p: string)
      modifies this`tasks
      ensures Tables() == AddAlias(old(Tables()), t, p)
    {
      if p == "" || t !in tasks || tasks[t].path == p || p in tasks[t].aliases {
        assert t in tasks ==> tasks[t := tasks[t]] == tasks;
        return;
      }
      tasks := tasks[t := tasks[t].(aliases := tasks[t].aliases + [p])];
    }

    method CreatePlaceholderTask(p: string) returns (t: TaskId)
      modifies this`tasks, this`nextId
      ensures Tables() == CreatePlaceholder(old(Tables()), p) && t == old(nextId)
    {
      t := nextId;
      nextId := nextId + 1;
      tasks := tasks[t := Task(p, [], {}, false, None, None, 0)];
    }

    method AttachIdentity(m: Media, t: TaskId) returns (o: P.Outcome)
      modifies this`identities
      ensures (Tables(), o) == Attach(old(Tables()), m, t)
    {
      if m.identity !in identities {
        identities := identities[m.identity := P.Binding(t, m.pcm)];
        return P.Created;
      }
      var b := identities[m.identity];
      if m.pcm.Some? && b.pcm.Some? && m.pcm != b.pcm { return P.Refused; }
      if b.task != t { return P.Refused; }
      if m.pcm.Some? && b.pcm.None? {
        identities := identities[m.identity := b.(pcm := m.pcm)];
        return P.Revised;
      }
      o := P.Unchanged;
    }

    /** The attachment, and the way out when it is refused. */
    method SettleIdentity(t: TaskId, created: bool, m: Option<Media>) returns (t': TaskId, created': bool)
      modifies this`tasks, this`identities
      ensures (Tables(), t', created') == Settle(old(Tables()), t, created, m)
    {
      t', created' := t, created;
      if m.None? { return; }
      var o := AttachIdentity(m.value, t);
      if o.Refused? && m.value.identity in identities {
        t', created' := identities[m.value.identity].task, false;
        if created && t' != t {
          tasks, identities := tasks - {t}, map i <- identities | identities[i].task != t :: identities[i];
        }
      }
    }

    method AcquireLease(t: TaskId, ttl: nat) returns (answer: L.Answer)
      requires t in tasks
      modifies this`tasks, this`nextToken
      ensures var (l, granted) := L.Acquire(LeaseOf(old(Tables()), old(tasks)[t]), ttl, None);
              answer == granted && Tables() == if granted.Granted? then WithLease(old(Tables()), t, l) else old(Tables())
    {
      var task := tasks[t];
      if task.token.Some? && task.until.Some? && task.until.value > now { return L.Conflict; }
      tasks := tasks[t := task.(token := Some(nextToken), until := Some(now + ttl), version := task.version + 1)];
      nextToken := nextToken + 1;
      answer := L.Granted(nextToken - 1, task.version + 1);
    }

    method BeginAudioProcessing(p: string, m: Option<Media>, ttl: nat) returns (r: Reply, found: Option<TaskId>)
      modifies this
      ensures BoundTo(old(Tables()), m).None? ==> Finds(old(Tables()), p, found)
      ensures (Tables(), r) == Begin(old(Tables()), p, m, ttl, found)
    {
      hide Finds, Settle, Aliased, CreatePlaceholder, WithLease, L.Acquire;
      var saved := Tables();
      var t, created := 0, false;
      found := None;
      if m.Some? && m.value.identity in identities {
        t := identities[m.value.identity].task;
        if t !in tasks { return Failed(Missing), None; }
        RegisterPathAlias(t, p);
      } else {
        found := FindTaskForAudioPath(p);
        if found.Some? {
          t := found.value;
          RegisterPathAlias(t, p);
        } else {
          t := CreatePlaceholderTask(p);
          created := true;
        }
      }
      t, created := SettleIdentity(t, created, m);
      RegisterPathAlias(t, p);
      if t !in tasks {
        Rollback(saved);
        return Failed(Missing), found;
      }
      var task := tasks[t];
      if task.isProtected { return IsProtected(t, task.path, created), found; }
      var answer := AcquireLease(t, ttl);
      if !answer.Granted? {
        Rollback(saved);
        return Failed(Busy), found;
      }
      r := Leased(t, task.path, created, answer.token, answer.version);
    }

    method ImportOneRecord(p: string, m: Option<Media>) returns (r: Reply, owner: Option<TaskId>)
      modifies this
      ensures FindsOwner(old(Tables()), p, owner)
      ensures (Tables(), r) == Import(old(Tables()), p, m, owner)
    {
      var t, created := 0, false;
      owner := LockTaskByRelPath(p);
      if m.Some? && m.value.identity in identities {
        t := identities[m.value.identity].task;
        if owner.Some? && owner.value != t { return Failed(PathMismatch), owner; }
      } else if owner.Some? {
        t := owner.value;
      } else {
        t := CreatePlaceholderTask(p);
        created := true;
      }
      t, created := SettleIdentity(t, created, m);
      RegisterPathAlias(t, p);
      r := Imported(t, created);
    }

    method Rollback(saved: State)
      modifies this
      ensures Tables() == saved
    {
      now, nextId, nextToken, tasks, identities := saved.now, saved.nextId, saved.nextToken, saved.tasks, saved.identities;
    }
  }
}
