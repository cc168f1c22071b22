/** The search for a task to claim: what the scope and filter queries mean over the rows, and the proof that looking
    through the reserved tasks and then one confidence band at a time finds the task that one sorted query would. */
module ClaimSearch {
  import opened Common
  import opened TaskRows
  import S = Sessions
  import Store

  datatype Scene =
    | Airport | BusinessNegotiation | Clinic | Emergencies | Hotel | Restaurant | Shopping | SpokenLanguages | Taxi
    | TourismInformation

  datatype Confidence = High | Medium | Low | Unknown

  /** A source without a scene counts as evidence for spoken languages. */
  datatype Source = Source(id: nat, scene: Option<Scene>, confidence: Confidence, batch: string, current: bool)

  datatype Task = Task(id: TaskId, order: nat, rows: Rows, sources: seq<Source>)

  datatype Mode = AllScenes | Restricted | NoScenes

  datatype Scope = Scope(mode: Mode, allowUnknown: bool, codes: set<Scene>)

  datatype Filter = Filter(scene: Option<Scene>, confidence: Option<Confidence>, batch: Option<string>)

  datatype Policy = SourceConfidence | Fifo

  /* ---------- scopes and filters ---------- */

  predicate CanClaim(scope: Scope) {
    && !scope.mode.NoScenes?
    && !(scope.mode.Restricted? && scope.codes == {} && !scope.allowUnknown)
  }

  predicate AllowsFallback(scope: Scope) {
    match scope.mode
    case NoScenes => false
    case AllScenes => true
    case Restricted => scope.allowUnknown || SpokenLanguages in scope.codes
  }

  predicate IsFallback(scene: Option<Scene>) {
    scene == None || scene == Some(SpokenLanguages)
  }

  predicate SelectsFallback(f: Filter) {
    f.scene == Some(SpokenLanguages)
  }

  predicate SelectsNamedScene(f: Filter) {
    f.scene.Some? && f.scene.value != SpokenLanguages
  }

  predicate RequiresSourceRow(f: Filter) {
    f.batch.Some? || SelectsNamedScene(f) || (f.confidence.Some? && f.confidence.value != Unknown)
  }

  predicate AllowsVirtual(f: Filter) {
    f.batch.None? && (f.scene.None? || SelectsFallback(f)) && (f.confidence.None? || f.confidence.value == Unknown)
  }

  predicate NoCurrentSources(t: Task) {
    forall s <- t.sources :: !s.current
  }

  /** The conditions a filter puts on one source row; all of them must hold of the same row. */
  predicate RowFits(s: Source, f: Filter) {
    && s.current
    && (if SelectsFallback(f) then IsFallback(s.scene) else f.scene.Some? ==> s.scene == f.scene)
    && (f.confidence.Some? ==> s.confidence == f.confidence.value)
    && (f.batch.Some? ==> s.batch == f.batch.value)
  }

  predicate InScope(s: Source, scope: Scope) {
    || scope.mode.AllScenes?
    || (s.scene.Some? && s.scene.value != SpokenLanguages && s.scene.value in scope.codes)
    || (AllowsFallback(scope) && IsFallback(s.scene))
  }

  predicate Evidence(s: Source, scope: Scope, f: Filter) {
    RowFits(s, f) && InScope(s, scope)
  }

  predicate HasEvidence(t: Task, scope: Scope, f: Filter) {
    exists s <- t.sources :: Evidence(s, scope, f)
  }

  /* ---------- three forms of the matching rule ---------- */

  /** The form used for counting and for the unreserved bands. */
  predicate ExistsMatch(t: Task, scope: Scope, f: Filter) {
    if !CanClaim(scope) then false
    else if RequiresSourceRow(f) then HasEvidence(t, scope, f)
    else if SelectsFallback(f) || f.confidence == Some(Unknown) then
      HasEvidence(t, scope, f) || (AllowsFallback(scope) && NoCurrentSources(t))
    else if scope.mode.AllScenes? then true
    else HasEvidence(t, scope, f) || (AllowsFallback(scope) && NoCurrentSources(t))
  }

  function ConfidenceRank(c: Confidence): (r: nat)
    ensures 1 <= r <= 4
  {
    match c case High => 1 case Medium => 2 case Low => 3 case Unknown => 4
  }

  /** Position in the text order of scene codes, a missing code first. */
  function SceneRank(scene: Option<Scene>): nat {
    match scene
    case None => 0
    case Some(Airport) => 1 case Some(BusinessNegotiation) => 2 case Some(Clinic) => 3 case Some(Emergencies) => 4
    case Some(Hotel) => 5 case Some(Restaurant) => 6 case Some(Shopping) => 7 case Some(SpokenLanguages) => 8
    case Some(Taxi) => 9 case Some(TourismInformation) => 10
  }

  predicate Better(s: Source, s': Source) {
    var c, c', p, p' := ConfidenceRank(s.confidence), ConfidenceRank(s'.confidence), SceneRank(s.scene), SceneRank(s'.scene);
    c < c' || (c == c' && (p < p' || (p == p' && s.id < s'.id)))
  }

  /** The best matching current source: highest confidence, then scene code, then id. */
  function Best(sources: seq<Source>, scope: Scope, f: Filter): (b: Option<Source>)
    ensures b.None? <==> forall s <- sources :: !Evidence(s, scope, f)
    ensures b.Some? ==>
              && b.value in sources && Evidence(b.value, scope, f)
              && forall s <- sources :: Evidence(s, scope, f) ==> !Better(s, b.value)
  {
    if sources == [] then None
    else
      var rest := Best(sources[1..], scope, f);
      assert forall s :: s in sources <==> s == sources[0] || s in sources[1..];
      if !Evidence(sources[0], scope, f) then rest
      else if rest.None? || Better(sources[0], rest.value) then Some(sources[0])
      else rest
  }

  /** The form used by the one-shot query and for the reserved tasks: a join on the best source. */
  predicate LateralMatch(t: Task, scope: Scope, f: Filter) {
    var best := Best(t.sources, scope, f);
    if !CanClaim(scope) then false
    else if RequiresSourceRow(f) then best.Some?
    else if SelectsFallback(f) || f.confidence == Some(Unknown) then
      best.Some? || (AllowsFallback(scope) && NoCurrentSources(t))
    else if scope.mode.AllScenes? then true
    else best.Some? || (AllowsFallback(scope) && NoCurrentSources(t))
  }

  /** The form that starts from the source rows; tasks without any are added when the filter allows them. */
  predicate InSourceFirstSet(t: Task, scope: Scope, f: Filter) {
    || HasEvidence(t, scope, f)
    || (&& AllowsVirtual(f)
        && (!scope.mode.AllScenes? || SelectsFallback(f) || f.confidence == Some(Unknown))
        && AllowsFallback(scope)
        && t.rows.status.Pending? && t.rows.eligible && NoCurrentSources(t))
  }

  lemma ExistsIsLateral(t: Task, scope: Scope, f: Filter)
    ensures ExistsMatch(t, scope, f) <==> LateralMatch(t, scope, f)
    ensures HasEvidence(t, scope, f) <==> Best(t.sources, scope, f).Some?
  {
    var best := Best(t.sources, scope, f);
    if best.Some? { assert best.value in t.sources && Evidence(best.value, scope, f); }
  }

  /* ---------- what a match is ---------- */

  /** The scope has the scene; a source without one counts for spoken languages, as does access to unknown scenes. */
  predicate Reaches(scope: Scope, scene: Option<Scene>) {
    match scope.mode
    case AllScenes => true
    case NoScenes => false
    case Restricted =>
      if scene.None? || scene.value.SpokenLanguages? then scope.allowUnknown || SpokenLanguages in scope.codes
      else scene.value in scope.codes
  }

  /** One current source that has the batch, the confidence and the scene asked for, in a scene of the scope. */
  predicate Bears(s: Source, scope: Scope, f: Filter) {
    && s.current && Reaches(scope, s.scene)
    && (f.batch.Some? ==> s.batch == f.batch.value)
    && (f.confidence.Some? ==> s.confidence == f.confidence.value)
    && match f.scene
       case None => true
       case Some(SpokenLanguages) => s.scene.None? || s.scene.value.SpokenLanguages?
       case Some(c) => s.scene == Some(c)
  }

  /** A filter that asks for no batch, no other scene than spoken languages and no known confidence lets a task through
      that has no current source, if the scope has spoken languages; without any filter and with all scenes, every task. */
  predicate NeedsNoSource(t: Task, scope: Scope, f: Filter) {
    && f.batch.None? && (f.scene.Some? ==> f.scene.value.SpokenLanguages?)
    && (f.confidence.Some? ==> f.confidence.value.Unknown?)
    && (|| (scope.mode.AllScenes? && f.scene.None? && f.confidence.None?)
        || (Reaches(scope, None) && forall s <- t.sources :: !s.current))
  }

  /** A task matches through one source that meets all of the filter's conditions in the scope, or because the filter
      needs none. */
  predicate Suits(t: Task, scope: Scope, f: Filter) {
    (exists s <- t.sources :: Bears(s, scope, f)) || NeedsNoSource(t, scope, f)
  }

  lemma BearsIsEvidence(s: Source, scope: Scope, f: Filter)
    requires CanClaim(scope)
    ensures Bears(s, scope, f) <==> Evidence(s, scope, f)
  {
  }

  lemma MatchIs(t: Task, scope: Scope, f: Filter)
    ensures ExistsMatch(t, scope, f) <==> Suits(t, scope, f)
  {
    if CanClaim(scope) {
      forall s ensures Bears(s, scope, f) <==> Evidence(s, scope, f) { BearsIsEvidence(s, scope, f); }
    }
  }

  /** When the source-first set may stand in for the matching rule: not for an open filter over all scenes, which also
      matches tasks without sources, and not for a scope without access whose stored codes the filter could hit. */
  predicate SourceFirstIsExact(scope: Scope, f: Filter) {
    && !(scope.mode.AllScenes? && f.scene.None? && f.confidence.None? && f.batch.None?)
    && !(scope.mode.NoScenes? && exists c <- scope.codes :: c != SpokenLanguages && (f.scene.None? || f.scene.value == c))
  }

  lemma SourceFirstAgrees(t: Task, scope: Scope, f: Filter)
    requires SourceFirstIsExact(scope, f) && t.rows.status.Pending? && t.rows.eligible
    ensures InSourceFirstSet(t, scope, f) <==> ExistsMatch(t, scope, f)
  {
    if scope.mode.NoScenes? {
      forall s | s in t.sources ensures !Evidence(s, scope, f) {}
    }
    if scope.mode.Restricted? && !CanClaim(scope) {
      assert forall s <- t.sources :: !InScope(s, scope);
    }
  }

  function SomeTask(r: Rows, sources: seq<Source>): Task {
    Task(0, 0, r, sources)
  }

  lemma SourceFirstDiffers(scope: Scope, f: Filter, r: Rows) returns (t: Task)
    requires !SourceFirstIsExact(scope, f) && r.status.Pending? && r.eligible
    ensures t.rows == r && InSourceFirstSet(t, scope, f) != ExistsMatch(t, scope, f)
  {
    if scope.mode.AllScenes? {
      t := SomeTask(r, []);
    } else {
      var c :| c in scope.codes && c != SpokenLanguages && (f.scene.None? || f.scene.value == c);
      var s := Source(0, Some(c), if f.confidence.Some? then f.confidence.value else High,
                      if f.batch.Some? then f.batch.value else "", true);
      t := SomeTask(r, [s]);
      assert s in t.sources && Evidence(s, scope, f);
    }
  }

  /** Over all pending, eligible tasks the source-first set is the matching set exactly under that condition. */
  lemma SourceFirstExactness(scope: Scope, f: Filter, r: Rows)
    requires r.status.Pending? && r.eligible
    ensures (forall t: Task :: t.rows.status.Pending? && t.rows.eligible ==>
               (InSourceFirstSet(t, scope, f) <==> ExistsMatch(t, scope, f))) <==> SourceFirstIsExact(scope, f)
  {
    if SourceFirstIsExact(scope, f) {
      forall t: Task | t.rows.status.Pending? && t.rows.eligible
        ensures InSourceFirstSet(t, scope, f) <==> ExistsMatch(t, scope, f)
      {
        SourceFirstAgrees(t, scope, f);
      }
    } else {
      var t := SourceFirstDiffers(scope, f, r);
    }
  }

  /* ---------- queries ---------- */

  datatype Shape = OneShot | ReservedOnly | Unreserved

  datatype Query = Query(shape: Shape, scope: Scope, filter: Filter, user: UserId, policy: Policy)

  predicate ReservedFor(t: Task, u: UserId) {
    t.rows.reserved == Some(u)
  }

  function BestRank(t: Task, scope: Scope, f: Filter): (r: nat)
    ensures 1 <= r <= 4
  {
    var best := Best(t.sources, scope, f);
    if best.Some? then ConfidenceRank(best.value.confidence) else 4
  }

  predicate Keeps(q: Query, t: Task) {
    && Claimable(t.rows, q.user)
    && match q.shape
       case OneShot => LateralMatch(t, q.scope, q.filter)
       case ReservedOnly =>
         ReservedFor(t, q.user)
         && if q.policy.Fifo? then ExistsMatch(t, q.scope, q.filter) else LateralMatch(t, q.scope, q.filter)
       case Unreserved =>
         t.rows.reserved.None?
         && if SelectsNamedScene(q.filter) then InSourceFirstSet(t, q.scope, q.filter)
            else ExistsMatch(t, q.scope, q.filter)
  }

  function Rank(q: Query, t: Task): nat {
    match q.shape
    case OneShot =>
      (if ReservedFor(t, q.user) then 0 else 5) + (if q.policy.Fifo? then 0 else BestRank(t, q.scope, q.filter))
    case ReservedOnly => if q.policy.Fifo? then 0 else BestRank(t, q.scope, q.filter)
    case Unreserved => 0
  }

  predicate Precedes(q: Query, t: Task, t': Task) {
    var r, r' := Rank(q, t), Rank(q, t');
    r < r' || (r == r' && (t.order < t'.order || (t.order == t'.order && t.id < t'.id)))
  }

  predicate Offered(q: Query, locked: set<TaskId>, t: Task) {
    Keeps(q, t) && t.id !in locked
  }

  /** The first row of the query in its order, passing over locked tasks. */
  function First(pool: seq<Task>, locked: set<TaskId>, q: Query): (r: Option<Task>)
    ensures r.None? <==> forall t <- pool :: !Offered(q, locked, t)
    ensures r.Some? ==>
              && r.value in pool && Offered(q, locked, r.value)
              && forall t <- pool :: Offered(q, locked, t) ==> !Precedes(q, t, r.value)
  {
    if pool == [] then None
    else
      var rest := First(pool[1..], locked, q);
      assert forall t :: t in pool <==> t == pool[0] || t in pool[1..];
      if !Offered(q, locked, pool[0]) then rest
      else if rest.None? || Precedes(q, pool[0], rest.value) then Some(pool[0])
      else rest
  }

  ghost predicate IdsDiffer(pool: seq<Task>) {
    forall s, t :: s in pool && t in pool && s.id == t.id ==> s == t
  }

  lemma FirstIsUnique(pool: seq<Task>, locked: set<TaskId>, q: Query, t: Task)
    requires IdsDiffer(pool) && t in pool && Offered(q, locked, t)
    requires forall x <- pool :: Offered(q, locked, x) ==> !Precedes(q, x, t)
    ensures First(pool, locked, q) == Some(t)
  {
    var r := First(pool, locked, q).value;
    assert !Precedes(q, t, r) && !Precedes(q, r, t);
  }

  /* ---------- one band ---------- */

  function Banded(f: Filter, c: Confidence): Filter {
    f.(confidence := Some(c))
  }

  predicate BandMatch(t: Task, scope: Scope, f: Filter, c: Confidence) {
    ExistsMatch(t, scope, Banded(f, c))
  }

  /** The band of a task's best source; tasks without sources are in the last one. */
  lemma MatchesItsBand(t: Task, scope: Scope, f: Filter, c: Confidence)
    requires f.confidence.None? && LateralMatch(t, scope, f) && ConfidenceRank(c) == BestRank(t, scope, f)
    ensures BandMatch(t, scope, f, c)
  {
    var best := Best(t.sources, scope, f);
    if best.Some? {
      assert best.value in t.sources && Evidence(best.value, scope, Banded(f, c));
    } else if scope.mode.AllScenes? && f.scene.None? && f.batch.None? {
      forall s | s in t.sources ensures !s.current { assert !Evidence(s, scope, f); }
    }
  }

  lemma BandBoundsBest(t: Task, scope: Scope, f: Filter, c: Confidence)
    requires f.confidence.None? && BandMatch(t, scope, f, c)
    ensures LateralMatch(t, scope, f) && BestRank(t, scope, f) <= ConfidenceRank(c)
  {
    ExistsIsLateral(t, scope, f);
    if HasEvidence(t, scope, Banded(f, c)) {
      var s :| s in t.sources && Evidence(s, scope, Banded(f, c));
      assert Evidence(s, scope, f);
      assert !Better(s, Best(t.sources, scope, f).value);
    }
  }

  lemma OneBandOnly(t: Task, scope: Scope, f: Filter)
    requires f.confidence.Some? && LateralMatch(t, scope, f)
    ensures BestRank(t, scope, f) == ConfidenceRank(f.confidence.value)
  {
  }

  /** Starting from the sources of a named scene gives the band's matches. */
  lemma UnreservedKeeps(q: Query, t: Task)
    requires q.shape.Unreserved? && CanClaim(q.scope)
    ensures Keeps(q, t) <==> Claimable(t.rows, q.user) && t.rows.reserved.None? && ExistsMatch(t, q.scope, q.filter)
  {
    if SelectsNamedScene(q.filter) && Claimable(t.rows, q.user) { SourceFirstAgrees(t, q.scope, q.filter); }
  }

  /* ---------- the banded search ---------- */

  const BANDS: seq<Confidence> := [High, Medium, Low, Unknown]

  function OneShotQuery(scope: Scope, f: Filter, u: UserId, policy: Policy): Query {
    Query(OneShot, scope, f, u, policy)
  }

  /** No claimable task reserved for the user is left. */
  ghost predicate NoneReserved(pool: seq<Task>, locked: set<TaskId>, q: Query) {
    forall t <- pool :: Offered(q, locked, t) ==> t.rows.reserved.None?
  }

  lemma ReservedWins(pool: seq<Task>, locked: set<TaskId>, q: Query, t: Task)
    requires IdsDiffer(pool) && q.shape.OneShot? && First(pool, locked, q.(shape := ReservedOnly)) == Some(t)
    ensures First(pool, locked, q) == Some(t)
  {
    var reserved := q.(shape := ReservedOnly);
    forall x | x in pool ensures Keeps(reserved, x) <==> Keeps(q, x) && ReservedFor(x, q.user) {
      ExistsIsLateral(x, q.scope, q.filter);
    }
    forall x | x in pool && Offered(q, locked, x) ensures !Precedes(q, x, t) {
      if ReservedFor(x, q.user) { assert Offered(reserved, locked, x) && !Precedes(reserved, x, t); }
    }
    FirstIsUnique(pool, locked, q, t);
  }

  lemma NoReservedLeft(pool: seq<Task>, locked: set<TaskId>, q: Query)
    requires q.shape.OneShot? && First(pool, locked, q.(shape := ReservedOnly)).None?
    ensures NoneReserved(pool, locked, q)
  {
    forall t | t in pool && Offered(q, locked, t) ensures t.rows.reserved.None? {
      ExistsIsLateral(t, q.scope, q.filter);
      assert !Offered(q.(shape := ReservedOnly), locked, t);
    }
  }

  /** The unreserved tasks of one search step: one band, or all of them in plain order. */
  predicate InBand(q: Query, band: Option<Confidence>, t: Task) {
    && Keeps(q, t) && t.rows.reserved.None?
    && (band.Some? ==> BestRank(t, q.scope, q.filter) == ConfidenceRank(band.value))
  }

  /** What the query of a band offers, when the bands before it offered nothing, is the band. */
  lemma BandOffers(q: Query, c: Confidence, t: Task)
    requires q.shape.OneShot? && CanClaim(q.scope)
    requires q.filter.confidence.Some? ==> c == q.filter.confidence.value
    ensures InBand(q, Some(c), t) ==> Keeps(q.(shape := Unreserved, filter := Banded(q.filter, c)), t)
    ensures Keeps(q.(shape := Unreserved, filter := Banded(q.filter, c)), t) ==>
              Keeps(q, t) && t.rows.reserved.None? && BestRank(t, q.scope, q.filter) <= ConfidenceRank(c)
  {
    var b := q.(shape := Unreserved, filter := Banded(q.filter, c));
    UnreservedKeeps(b, t);
    ExistsIsLateral(t, q.scope, q.filter);
    if q.filter.confidence.Some? {
      assert b.filter == q.filter;
      if LateralMatch(t, q.scope, q.filter) { OneBandOnly(t, q.scope, q.filter); }
    } else {
      if InBand(q, Some(c), t) { MatchesItsBand(t, q.scope, q.filter, c); }
      if Keeps(b, t) { BandBoundsBest(t, q.scope, q.filter, c); }
    }
  }

  /** Nothing unlocked is left in the bands above rank `n`. */
  ghost predicate NothingAbove(pool: seq<Task>, locked: set<TaskId>, q: Query, n: nat) {
    forall t <- pool :: Offered(q, locked, t) ==> t.rows.reserved.None? && BestRank(t, q.scope, q.filter) >= n
  }

  lemma BandWins(pool: seq<Task>, locked: set<TaskId>, q: Query, c: Confidence, t: Task)
    requires IdsDiffer(pool) && q.shape.OneShot? && !q.policy.Fifo? && CanClaim(q.scope)
    requires q.filter.confidence.Some? ==> c == q.filter.confidence.value
    requires NothingAbove(pool, locked, q, ConfidenceRank(c))
    requires First(pool, locked, q.(shape := Unreserved, filter := Banded(q.filter, c))) == Some(t)
    ensures First(pool, locked, q) == Some(t)
  {
    var b := q.(shape := Unreserved, filter := Banded(q.filter, c));
    BandOffers(q, c, t);
    assert Offered(q, locked, t) && Rank(q, t) == 5 + ConfidenceRank(c);
    forall x | x in pool && Offered(q, locked, x) ensures !Precedes(q, x, t) {
      if BestRank(x, q.scope, q.filter) == ConfidenceRank(c) {
        BandOffers(q, c, x);
        assert Offered(b, locked, x) && !Precedes(b, x, t);
      }
    }
    FirstIsUnique(pool, locked, q, t);
  }

  lemma BandIsEmpty(pool: seq<Task>, locked: set<TaskId>, q: Query, c: Confidence)
    requires q.shape.OneShot? && CanClaim(q.scope)
    requires q.filter.confidence.Some? ==> c == q.filter.confidence.value
    requires NothingAbove(pool, locked, q, ConfidenceRank(c))
    requires First(pool, locked, q.(shape := Unreserved, filter := Banded(q.filter, c))).None?
    ensures NothingAbove(pool, locked, q, ConfidenceRank(c) + 1)
  {
    forall t | t in pool && Offered(q, locked, t) ensures BestRank(t, q.scope, q.filter) >= ConfidenceRank(c) + 1 {
      BandOffers(q, c, t);
      assert !Offered(q.(shape := Unreserved, filter := Banded(q.filter, c)), locked, t);
    }
  }

  lemma FifoWins(pool: seq<Task>, locked: set<TaskId>, q: Query)
    requires IdsDiffer(pool) && q.shape.OneShot? && q.policy.Fifo? && CanClaim(q.scope) && NoneReserved(pool, locked, q)
    ensures First(pool, locked, q.(shape := Unreserved)) == First(pool, locked, q)
  {
    var b := q.(shape := Unreserved);
    forall t | t in pool ensures Offered(b, locked, t) <==> Offered(q, locked, t) {
      UnreservedKeeps(b, t);
      ExistsIsLateral(t, q.scope, q.filter);
    }
    if First(pool, locked, b).Some? {
      var t := First(pool, locked, b).value;
      forall x | x in pool && Offered(q, locked, x) ensures !Precedes(q, x, t) { assert !Precedes(b, x, t); }
      FirstIsUnique(pool, locked, q, t);
    }
  }

  lemma NothingLeft(pool: seq<Task>, locked: set<TaskId>, q: Query)
    requires q.shape.OneShot?
    requires (exists n :: n > 4 && NothingAbove(pool, locked, q, n))
             || (q.filter.confidence.Some? && NothingAbove(pool, locked, q, ConfidenceRank(q.filter.confidence.value) + 1))
    ensures First(pool, locked, q).None?
  {
    forall t | t in pool ensures !Offered(q, locked, t) {
      if Offered(q, locked, t) && q.filter.confidence.Some? { OneBandOnly(t, q.scope, q.filter); }
    }
  }

  /** Reserved tasks first, then one confidence band after the other: this finds exactly the task that the single query
      sorted by reservation, best confidence, allocation order and id finds, whatever is locked by others. */
  method FetchClaimCandidate(pool: seq<Task>, locked: set<TaskId>, scope: Scope, f: Filter, u: UserId, policy: Policy)
    returns (r: Option<Task>)
    requires IdsDiffer(pool)
    ensures r == First(pool, locked, OneShotQuery(scope, f, u, policy))
  {
    ghost var q := OneShotQuery(scope, f, u, policy);
    if !CanClaim(scope) { return None; }
    hide Keeps, CanClaim, Precedes, Rank, IdsDiffer;
    r := First(pool, locked, Query(ReservedOnly, scope, f, u, policy));
    if r.Some? {
      ReservedWins(pool, locked, q, r.value);
      return;
    }
    NoReservedLeft(pool, locked, q);
    if policy.Fifo? {
      FifoWins(pool, locked, q);
      return First(pool, locked, Query(Unreserved, scope, f, u, policy));
    }
    var bands := if f.confidence.Some? then [f.confidence.value] else BANDS;
    for i := 0 to |bands|
      invariant NothingAbove(pool, locked, q, if i == 0 then 1 else ConfidenceRank(bands[i - 1]) + 1)
    {
      if f.confidence.Some? && i == 0 { OnlyTheBand(pool, locked, q); }
      r := First(pool, locked, Query(Unreserved, scope, Banded(f, bands[i]), u, policy));
      if r.Some? {
        BandWins(pool, locked, q, bands[i], r.value);
        return;
      }
      BandIsEmpty(pool, locked, q, bands[i]);
    }
    NothingLeft(pool, locked, q);
    r := None;
  }

  lemma OnlyTheBand(pool: seq<Task>, locked: set<TaskId>, q: Query)
    requires q.shape.OneShot? && q.filter.confidence.Some? && NothingAbove(pool, locked, q, 1)
    ensures NothingAbove(pool, locked, q, ConfidenceRank(q.filter.confidence.value))
  {
    forall t | t in pool && Offered(q, locked, t)
      ensures BestRank(t, q.scope, q.filter) >= ConfidenceRank(q.filter.confidence.value)
    {
      OneBandOnly(t, q.scope, q.filter);
    }
  }

  /* ---------- the outcome of a claim ---------- */

  /** The part of the claim conditions that does not concern sources. */
  predicate Open(t: Task, u: UserId, includeAssigned: bool) {
    && t.rows.status.Pending? && t.rows.eligible && t.rows.draft.Some?
    && (includeAssigned || t.rows.assignment.None?)
    && u !in t.rows.blocks && (t.rows.reserved.None? || t.rows.reserved.value == u)
  }

  function MatchingIds(pool: seq<Task>, scope: Scope, f: Filter, u: UserId, includeAssigned: bool): set<TaskId> {
    set t <- pool | Open(t, u, includeAssigned) && ExistsMatch(t, scope, f) :: t.id
  }

  function CountClaimable(pool: seq<Task>, scope: Scope, f: Filter, u: UserId, includeAssigned: bool): nat {
    |MatchingIds(pool, scope, f, u, includeAssigned)|
  }

  /** A task the annotator may take: pending, offered to annotators, with an open draft, nobody's, neither closed to the
      annotator nor reserved for another, and a match. */
  predicate Qualifies(t: Task, u: UserId, scope: Scope, f: Filter) {
    && t.rows.status.Pending? && t.rows.eligible && t.rows.draft.Some? && t.rows.assignment.None?
    && u !in t.rows.blocks && (t.rows.reserved.Some? ==> t.rows.reserved.value == u)
    && Suits(t, scope, f)
  }

  lemma OfferedIs(q: Query, locked: set<TaskId>, t: Task)
    requires q.shape.OneShot?
    ensures Offered(q, locked, t) <==> t.id !in locked && Qualifies(t, q.user, q.scope, q.filter)
  {
    MatchIs(t, q.scope, q.filter);
    ExistsIsLateral(t, q.scope, q.filter);
  }

  predicate Surer(c: Confidence, c': Confidence) {
    match c
    case High => !c'.High?
    case Medium => c'.Low? || c'.Unknown?
    case Low => c'.Unknown?
    case Unknown => false
  }

  /** The confidence a task is offered at: that of its surest source among those that match, or unknown without one. */
  ghost predicate OfferedAt(t: Task, scope: Scope, f: Filter, c: Confidence) {
    || (&& (exists s <- t.sources :: Bears(s, scope, f) && s.confidence == c)
        && (forall s <- t.sources :: Bears(s, scope, f) ==> !Surer(s.confidence, c)))
    || (c.Unknown? && forall s <- t.sources :: !Bears(s, scope, f))
  }

  /** A reserved task goes before the others; then, under the confidence policy, the surer one; then the one allocated
      earlier, then the one with the smaller id. */
  predicate GoesBefore(t: Task, c: Confidence, x: Task, d: Confidence, u: UserId, policy: Policy) {
    if (t.rows.reserved == Some(u)) != (x.rows.reserved == Some(u)) then t.rows.reserved == Some(u)
    else if policy.SourceConfidence? && c != d then Surer(c, d)
    else t.order < x.order || (t.order == x.order && t.id < x.id)
  }

  lemma RankIs(t: Task, scope: Scope, f: Filter, c: Confidence)
    requires CanClaim(scope)
    ensures OfferedAt(t, scope, f, c) <==> BestRank(t, scope, f) == ConfidenceRank(c)
  {
    forall s ensures Bears(s, scope, f) <==> Evidence(s, scope, f) { BearsIsEvidence(s, scope, f); }
    hide Bears, Evidence;
    var best := Best(t.sources, scope, f);
    if best.Some? {
      assert best.value in t.sources && Evidence(best.value, scope, f);
      forall s | s in t.sources && Evidence(s, scope, f) ensures !Surer(s.confidence, best.value.confidence) {
        assert !Better(s, best.value);
      }
      if OfferedAt(t, scope, f, c) {
        var s :| s in t.sources && Evidence(s, scope, f) && s.confidence == c;
        assert !Surer(s.confidence, best.value.confidence) && !Surer(best.value.confidence, c);
      }
    }
  }

  /** The search finds a task exactly if one qualifies that nobody has locked; what it finds qualifies, and goes before
      every other such task. */
  lemma FoundTaskIsFirst(pool: seq<Task>, locked: set<TaskId>, scope: Scope, f: Filter, u: UserId, policy: Policy)
    requires IdsDiffer(pool)
    ensures var found := First(pool, locked, OneShotQuery(scope, f, u, policy));
            && (found.None? <==> forall t <- pool :: Qualifies(t, u, scope, f) ==> t.id in locked)
            && (found.Some? ==>
                  && found.value in pool && Qualifies(found.value, u, scope, f) && found.value.id !in locked
                  && forall x <- pool, c, d ::
                       && x != found.value && Qualifies(x, u, scope, f) && x.id !in locked
                       && OfferedAt(found.value, scope, f, c) && OfferedAt(x, scope, f, d)
                       ==> GoesBefore(found.value, c, x, d, u, policy))
  {
    var q := OneShotQuery(scope, f, u, policy);
    var found := First(pool, locked, q);
    forall t ensures Offered(q, locked, t) <==> t.id !in locked && Qualifies(t, u, scope, f) { OfferedIs(q, locked, t); }
    hide Qualifies, Offered, OfferedAt, First;
    if found.Some? {
      AccessOfFound(q, locked, found.value);
      forall x, c, d
        | x in pool && x != found.value && Qualifies(x, u, scope, f) && x.id !in locked
          && OfferedAt(found.value, scope, f, c) && OfferedAt(x, scope, f, d)
        ensures GoesBefore(found.value, c, x, d, u, policy)
      {
        assert Offered(q, locked, x) && !Precedes(q, x, found.value);
        RankIs(found.value, scope, f, c);
        RankIs(x, scope, f, d);
        NotPreceded(q, found.value, c, x, d);
      }
    }
  }

  lemma AccessOfFound(q: Query, locked: set<TaskId>, t: Task)
    requires q.shape.OneShot? && Offered(q, locked, t)
    ensures CanClaim(q.scope)
  {
  }

  lemma NotPreceded(q: Query, t: Task, c: Confidence, x: Task, d: Confidence)
    requires q.shape.OneShot? && !Precedes(q, x, t) && x.id != t.id
    requires BestRank(t, q.scope, q.filter) == ConfidenceRank(c) && BestRank(x, q.scope, q.filter) == ConfidenceRank(d)
    ensures GoesBefore(t, c, x, d, q.user, q.policy)
  {
    hide Best;
  }

  /** The number shown for a scope and filter is that of the tasks the annotator may take. */
  lemma CountIs(pool: seq<Task>, scope: Scope, f: Filter, u: UserId)
    ensures CountClaimable(pool, scope, f, u, false) == |set t <- pool | Qualifies(t, u, scope, f) :: t.id|
  {
    forall t ensures Open(t, u, false) && ExistsMatch(t, scope, f) <==> Qualifies(t, u, scope, f) { MatchIs(t, scope, f); }
    hide ExistsMatch, Suits;
    assert MatchingIds(pool, scope, f, u, false) == set t <- pool | Qualifies(t, u, scope, f) :: t.id;
  }

  datatype PoolOutcome = Claimed(task: Task) | Busy | Empty | Forbidden

  predicate AllowsScene(scope: Scope, c: Scene) {
    if scope.mode.NoScenes? then false
    else if c.SpokenLanguages? then AllowsFallback(scope)
    else scope.mode.AllScenes? || c in scope.codes
  }

  /** A filter by a scene outside the scope is refused before anything is searched or counted. */
  predicate Refused(scope: Scope, f: Filter) {
    f.scene.Some? && !AllowsScene(scope, f.scene.value)
  }

  /** Refusing such a filter hides no task. */
  lemma RefusedMatchesNothing(pool: seq<Task>, locked: set<TaskId>, scope: Scope, f: Filter, u: UserId, policy: Policy)
    requires Refused(scope, f)
    ensures forall t: Task :: !ExistsMatch(t, scope, f)
    ensures CountClaimable(pool, scope, f, u, false) == 0
    ensures First(pool, locked, OneShotQuery(scope, f, u, policy)).None?
  {
    forall t: Task ensures !ExistsMatch(t, scope, f) {
      if CanClaim(scope) {
        forall s | s in t.sources ensures !Evidence(s, scope, f) {}
      }
    }
    assert MatchingIds(pool, scope, f, u, false) == {};
    if First(pool, locked, OneShotQuery(scope, f, u, policy)).Some? {
      FirstIsCounted(pool, locked, scope, f, u, policy);
      assert false;
    }
  }

  /** And no more is refused than that: a scene is allowed exactly if some task could match a filter by it. */
  lemma AllowedIffMatchable(scope: Scope, c: Scene, r: Rows)
    ensures AllowsScene(scope, c) <==>
            exists t: Task :: t.rows == r && ExistsMatch(t, scope, Filter(Some(c), None, None))
  {
    var f := Filter(Some(c), None, None);
    if AllowsScene(scope, c) {
      var s := Source(0, Some(c), High, "", true);
      var t := Task(0, 0, r, [s]);
      assert s in t.sources && Evidence(s, scope, f);
      assert t.rows == r && ExistsMatch(t, scope, f);
    } else {
      RefusedMatchesNothing([], {}, scope, f, 0, Fifo);
    }
  }

  lemma MatchingIsOffered(pool: seq<Task>, scope: Scope, f: Filter, u: UserId, policy: Policy, t: Task)
    requires t in pool
    ensures Open(t, u, false) && ExistsMatch(t, scope, f) <==> Keeps(OneShotQuery(scope, f, u, policy), t)
  {
    ExistsIsLateral(t, scope, f);
  }

  lemma NoneOfferedUnlocked(pool: seq<Task>, scope: Scope, f: Filter, u: UserId, policy: Policy)
    ensures First(pool, {}, OneShotQuery(scope, f, u, policy)).None? <==> CountClaimable(pool, scope, f, u, false) == 0
  {
    var ids := MatchingIds(pool, scope, f, u, false);
    forall t | t in pool
      ensures Offered(OneShotQuery(scope, f, u, policy), {}, t) <==> Open(t, u, false) && ExistsMatch(t, scope, f)
    {
      MatchingIsOffered(pool, scope, f, u, policy, t);
    }
    forall t | t in pool && Open(t, u, false) && ExistsMatch(t, scope, f) ensures t.id in ids {}
    if ids != {} {
      var id :| id in ids;
      assert exists t :: t in pool && Open(t, u, false) && ExistsMatch(t, scope, f) && t.id == id;
    }
  }

  /** A claim is refused for a scene outside the scope, and else takes the first unlocked match. It reports the pool
      as empty exactly when no unassigned task matches, and as busy exactly when all that match are locked by others;
      so it never does the latter when nothing is locked. */
  method ClaimFromPool(pool: seq<Task>, locked: set<TaskId>, scope: Scope, f: Filter, u: UserId, policy: Policy)
    returns (r: PoolOutcome)
    requires IdsDiffer(pool)
    ensures var first := First(pool, locked, OneShotQuery(scope, f, u, policy));
            && (r.Forbidden? <==> Refused(scope, f))
            && (r.Empty? <==> !Refused(scope, f) && CountClaimable(pool, scope, f, u, false) == 0)
            && (r.Busy? <==> first.None? && CountClaimable(pool, scope, f, u, false) > 0)
            && (r.Claimed? ==> first == Some(r.task) && Claimable(r.task.rows, u))
            && (r.Busy? ==> locked != {})
    ensures r.Forbidden? <==> f.scene.Some? && !Reaches(scope, f.scene)
    ensures r.Claimed? ==> r.task in pool && Qualifies(r.task, u, scope, f) && r.task.id !in locked
    ensures r.Busy? ==> exists t <- pool :: Qualifies(t, u, scope, f)
    ensures r.Busy? ==> forall t <- pool :: Qualifies(t, u, scope, f) ==> t.id in locked
    ensures r.Empty? || r.Forbidden? ==> forall t <- pool :: !Qualifies(t, u, scope, f)
  {
    FoundTaskIsFirst(pool, locked, scope, f, u, policy);
    FoundTaskIsFirst(pool, {}, scope, f, u, policy);
    hide Qualifies, GoesBefore, OfferedAt, CountClaimable;
    ghost var q := OneShotQuery(scope, f, u, policy);
    NoneOfferedUnlocked(pool, scope, f, u, policy);
    if f.scene.Some? && !AllowsScene(scope, f.scene.value) {
      RefusedMatchesNothing(pool, locked, scope, f, u, policy);
      return PoolOutcome.Forbidden;
    }
    if CanClaim(scope) {
      var reserved := First(pool, locked, Query(ReservedOnly, scope, f, u, policy));
      if reserved.Some? {
        ReservedWins(pool, locked, q, reserved.value);
        FirstIsCounted(pool, locked, scope, f, u, policy);
        return Claimed(reserved.value);
      }
    }
    var found := FetchClaimCandidate(pool, locked, scope, f, u, policy);
    FirstIsCounted(pool, locked, scope, f, u, policy);
    if found.Some? { return Claimed(found.value); }
    r := if CountClaimable(pool, scope, f, u, false) > 0 then Busy else Empty;
  }

  lemma FirstIsCounted(pool: seq<Task>, locked: set<TaskId>, scope: Scope, f: Filter, u: UserId, policy: Policy)
    ensures First(pool, locked, OneShotQuery(scope, f, u, policy)).Some? ==> CountClaimable(pool, scope, f, u, false) > 0
  {
    var first := First(pool, locked, OneShotQuery(scope, f, u, policy));
    if first.Some? {
      MatchingIsOffered(pool, scope, f, u, policy, first.value);
      assert first.value.id in MatchingIds(pool, scope, f, u, false);
    }
  }

  /** The store accepts what the search found: with the same rows and no assignment yet, the claim goes through. */
  lemma FoundTaskIsClaimed(db: Store.Db, fence: S.Fence, pool: seq<Task>, locked: set<TaskId>, scope: Scope, f: Filter,
                           policy: Policy)
    requires S.Admit(db.auth, fence).None? && !Store.HasAssignment(db, fence.user)
    requires forall t <- pool :: t.id in db.tasks && db.tasks[t.id] == t.rows
    ensures match First(pool, locked, OneShotQuery(scope, f, fence.user, policy))
            case None => true
            case Some(t) => Store.Claim(db, fence, t.id).1 ==
                            Store.Ok(Store.ClaimedTask(t.id, Assignment(fence.user, t.rows.draft.value, AnnotationMode,
                                                                        db.nextId)))
  {
  }

  /* ---------- counts by scene ---------- */

  const SCENE_ORDER: seq<Scene> :=
    [Restaurant, Hotel, Taxi, Airport, Clinic, TourismInformation, Emergencies, SpokenLanguages, BusinessNegotiation,
     Shopping]

  function EffectiveScene(s: Source): Scene {
    if s.scene.Some? then s.scene.value else SpokenLanguages
  }

  predicate Listed(scope: Scope, c: Scene) {
    scope.mode.AllScenes? || c in scope.codes || (c.SpokenLanguages? && scope.allowUnknown)
  }

  function ListedOf(scope: Scope, scenes: seq<Scene>): (r: seq<Scene>)
    ensures forall c :: c in r <==> c in scenes && Listed(scope, c)
  {
    if scenes == [] then []
    else if Listed(scope, scenes[0]) then [scenes[0]] + ListedOf(scope, scenes[1..]) else ListedOf(scope, scenes[1..])
  }

  /** The scene filter itself plays no part in a count by scene. */
  predicate CountedRow(s: Source, scope: Scope, f: Filter) {
    && s.current && InScope(s, scope)
    && (f.confidence.Some? ==> s.confidence == f.confidence.value)
    && (f.batch.Some? ==> s.batch == f.batch.value)
  }

  /** The tasks of one group of the grouped query. */
  function Group(pool: seq<Task>, scope: Scope, f: Filter, u: UserId, c: Scene): set<TaskId> {
    set t <- pool
      | Open(t, u, false) && exists s <- t.sources :: CountedRow(s, scope, f) && EffectiveScene(s) == c :: t.id
  }

  lemma GroupIsSingleScene(pool: seq<Task>, scope: Scope, f: Filter, u: UserId, c: Scene)
    requires CanClaim(scope) && c != SpokenLanguages
    ensures Group(pool, scope, f, u, c) == MatchingIds(pool, scope, f.(scene := Some(c)), u, false)
  {
    var g := f.(scene := Some(c));
    forall t | t in pool
      ensures (exists s <- t.sources :: CountedRow(s, scope, f) && EffectiveScene(s) == c) <==> ExistsMatch(t, scope, g)
    {
      forall s | s in t.sources
        ensures CountedRow(s, scope, f) && EffectiveScene(s) == c <==> Evidence(s, scope, g)
      {
      }
    }
  }

  /** The grouped scan, corrected for spoken languages. */
  method CountsByCode(pool: seq<Task>, scope: Scope, f: Filter, u: UserId)
    returns (byCode: map<Scene, nat>, unknownAvailable: nat)
    ensures CanClaim(scope) ==> forall c <- SCENE_ORDER ::
              c in byCode && (Listed(scope, c) ==> byCode[c] == CountClaimable(pool, scope, f.(scene := Some(c)), u, false))
    ensures !CanClaim(scope) ==> byCode == map[]
    ensures unknownAvailable ==
            if AllowsFallback(scope) then CountClaimable(pool, scope, f.(scene := Some(SpokenLanguages)), u, false) else 0
  {
    hide CountClaimable, Group;
    byCode, unknownAvailable := map[], 0;
    if !CanClaim(scope) { return; }
    for k := 0 to |SCENE_ORDER|
      invariant forall c <- SCENE_ORDER[..k] :: c in byCode && byCode[c] == |Group(pool, scope, f, u, c)|
    {
      byCode := byCode[SCENE_ORDER[k] := |Group(pool, scope, f, u, SCENE_ORDER[k])|];
    }
    assert SCENE_ORDER[..|SCENE_ORDER|] == SCENE_ORDER;
    forall c | c in SCENE_ORDER && c != SpokenLanguages
      ensures byCode[c] == CountClaimable(pool, scope, f.(scene := Some(c)), u, false)
    {
      GroupCount(pool, scope, f, u, c);
    }
    if AllowsFallback(scope) {
      unknownAvailable := CountClaimable(pool, scope, f.(scene := Some(SpokenLanguages)), u, false);
      byCode := byCode[SpokenLanguages := unknownAvailable];
    }
  }

  lemma GroupCount(pool: seq<Task>, scope: Scope, f: Filter, u: UserId, c: Scene)
    requires CanClaim(scope) && c != SpokenLanguages
    ensures |Group(pool, scope, f, u, c)| == CountClaimable(pool, scope, f.(scene := Some(c)), u, false)
  {
    GroupIsSingleScene(pool, scope, f, u, c);
  }

  lemma NoAccessNoCount(pool: seq<Task>, scope: Scope, f: Filter, u: UserId)
    requires !CanClaim(scope)
    ensures CountClaimable(pool, scope, f, u, false) == 0
  {
    assert MatchingIds(pool, scope, f, u, false) == {};
  }

  /** All scenes of a scope with access are listed and no others; without access the stored codes still are. */
  lemma ListedIsReached(scope: Scope, c: Scene)
    ensures c in ListedOf(scope, SCENE_ORDER) <==>
            if scope.mode.NoScenes? then c in scope.codes || (c.SpokenLanguages? && scope.allowUnknown)
            else Reaches(scope, Some(c))
  {
    EveryScene(c);
  }

  lemma EveryScene(c: Scene)
    ensures c in SCENE_ORDER
  {
    assert SCENE_ORDER[0] == Restaurant && SCENE_ORDER[1] == Hotel && SCENE_ORDER[2] == Taxi && SCENE_ORDER[3] == Airport;
    assert SCENE_ORDER[4] == Clinic && SCENE_ORDER[5] == TourismInformation && SCENE_ORDER[6] == Emergencies;
    assert SCENE_ORDER[7] == SpokenLanguages && SCENE_ORDER[8] == BusinessNegotiation && SCENE_ORDER[9] == Shopping;
  }

  /** Every listed scene is shown with the count that a claim filtered by that scene alone would see. */
  method SceneCounts(pool: seq<Task>, scope: Scope, f: Filter, u: UserId)
    returns (items: seq<(Scene, nat)>, unknownAvailable: nat)
    ensures |items| == |ListedOf(scope, SCENE_ORDER)|
    ensures forall i :: 0 <= i < |items| ==>
              && items[i].0 == ListedOf(scope, SCENE_ORDER)[i]
              && items[i].1 == CountClaimable(pool, scope, f.(scene := Some(items[i].0)), u, false)
    ensures unknownAvailable ==
            if AllowsFallback(scope) then CountClaimable(pool, scope, f.(scene := Some(SpokenLanguages)), u, false) else 0
  {
    hide CountClaimable, CanClaim, Listed;
    var byCode, unknown := CountsByCode(pool, scope, f, u);
    unknownAvailable := unknown;
    var codes := ListedOf(scope, SCENE_ORDER);
    items := [];
    for i := 0 to |codes|
      invariant |items| == i
      invariant forall j :: 0 <= j < i ==>
                  && items[j].0 == codes[j]
                  && items[j].1 == CountClaimable(pool, scope, f.(scene := Some(codes[j])), u, false)
    {
      var c := codes[i];
      assert c in codes;
      if !CanClaim(scope) { NoAccessNoCount(pool, scope, f.(scene := Some(c)), u); }
      items := items + [(c, if c in byCode then byCode[c] else 0)];
    }
  }

  /* ---------- the reason shown with an empty pool ---------- */

  datatype Reason = NoSceneAccess | NoPreprocessed | AllCompleted | NoMatchingScene | AllAssigned | Available

  function EmptyPoolReason(scope: Scope, f: Filter, total: nat, pending: nat, eligiblePending: nat, matching: nat,
                           matchingUnassigned: nat): Reason
  {
    if !CanClaim(scope) then NoSceneAccess
    else if total == 0 || (pending > 0 && eligiblePending == 0) then NoPreprocessed
    else if eligiblePending == 0 then AllCompleted
    else if matching == 0 && (f.scene.Some? || !scope.mode.AllScenes? || f.batch.Some? || f.confidence.Some?)
    then NoMatchingScene
    else if matchingUnassigned == 0 && eligiblePending > 0 then AllAssigned
    else if matchingUnassigned > 0 then Available
    else NoMatchingScene
  }

  function Ids(pool: seq<Task>): set<TaskId> {
    set t <- pool :: t.id
  }

  function PendingIds(pool: seq<Task>): set<TaskId> {
    set t <- pool | t.rows.status.Pending? :: t.id
  }

  function EligibleIds(pool: seq<Task>): set<TaskId> {
    set t <- pool | t.rows.status.Pending? && t.rows.eligible :: t.id
  }

  /** The reason in the pool's snapshot; there is none for a scene outside the scope, which is refused. */
  function SnapshotReason(pool: seq<Task>, scope: Scope, f: Filter, u: UserId): Option<Reason> {
    if Refused(scope, f) then None
    else Some(EmptyPoolReason(scope, f, |Ids(pool)|, |PendingIds(pool)|, |EligibleIds(pool)|,
                              CountClaimable(pool, scope, f, u, true), CountClaimable(pool, scope, f, u, false)))
  }

  /** The pool is shown as available exactly when a claim that meets no locks gets a task. */
  lemma ReasonAgreesWithClaim(pool: seq<Task>, scope: Scope, f: Filter, u: UserId, policy: Policy)
    ensures SnapshotReason(pool, scope, f, u) == Some(Available) <==>
            First(pool, {}, OneShotQuery(scope, f, u, policy)).Some?
  {
    if Refused(scope, f) {
      RefusedMatchesNothing(pool, {}, scope, f, u, policy);
    } else {
      UnrefusedReason(pool, scope, f, u, policy);
    }
  }

  /** The task would qualify if nobody worked on it. */
  predicate WouldQualify(t: Task, u: UserId, scope: Scope, f: Filter) {
    Qualifies(t.(rows := t.rows.(assignment := None)), u, scope, f)
  }

  predicate OnOffer(t: Task) {
    t.rows.status.Pending? && t.rows.eligible
  }

  lemma CountsMean(pool: seq<Task>, scope: Scope, f: Filter, u: UserId)
    ensures CountClaimable(pool, scope, f, u, false) > 0 <==> exists t <- pool :: Qualifies(t, u, scope, f)
    ensures CountClaimable(pool, scope, f, u, true) > 0 <==> exists t <- pool :: WouldQualify(t, u, scope, f)
  {
    forall t, b: bool
      ensures Open(t, u, b) && ExistsMatch(t, scope, f) <==>
              if b then WouldQualify(t, u, scope, f) else Qualifies(t, u, scope, f)
    {
      MatchIs(t, scope, f);
    }
    hide ExistsMatch, Open, Qualifies, WouldQualify;
    Inhabited(MatchingIds(pool, scope, f, u, false));
    Inhabited(MatchingIds(pool, scope, f, u, true));
    forall t | t in pool
      ensures Qualifies(t, u, scope, f) ==> t.id in MatchingIds(pool, scope, f, u, false)
      ensures WouldQualify(t, u, scope, f) ==> t.id in MatchingIds(pool, scope, f, u, true)
    {
    }
  }

  lemma TotalsMean(pool: seq<Task>)
    ensures |Ids(pool)| > 0 <==> pool != []
    ensures |PendingIds(pool)| > 0 <==> exists t <- pool :: t.rows.status.Pending?
    ensures |EligibleIds(pool)| > 0 <==> exists t <- pool :: OnOffer(t)
  {
    forall t | t in pool
      ensures t.id in Ids(pool) && (t.rows.status.Pending? ==> t.id in PendingIds(pool))
      ensures OnOffer(t) ==> t.id in EligibleIds(pool)
    {
    }
    Inhabited(Ids(pool));
    Inhabited(PendingIds(pool));
    Inhabited(EligibleIds(pool));
    if pool != [] { assert pool[0] in pool; }
  }

  lemma Inhabited(s: set<TaskId>)
    ensures |s| > 0 <==> exists x :: x in s
  {
    if s != {} { var x :| x in s; }
  }

  /** The reason shown: no access to any scene; nothing to offer, because there are no tasks or the pending ones are not
      eligible; all work done; nothing that suits the scope and filter even among tasks others work on; all that suits
      being worked on, closed to the annotator or reserved for others; or none, because a task qualifies. */
  lemma ReasonOutcome(pool: seq<Task>, scope: Scope, f: Filter, u: UserId)
    requires !Refused(scope, f)
    ensures SnapshotReason(pool, scope, f, u) == Some(
              if scope.mode.NoScenes? || (scope.mode.Restricted? && scope.codes == {} && !scope.allowUnknown) then NoSceneAccess
              else if exists t <- pool :: Qualifies(t, u, scope, f) then Available
              else if pool == [] || ((exists t <- pool :: t.rows.status.Pending?) && !exists t <- pool :: OnOffer(t))
              then NoPreprocessed
              else if !exists t <- pool :: OnOffer(t) then AllCompleted
              else if (exists t <- pool :: WouldQualify(t, u, scope, f))
                      || (scope.mode.AllScenes? && f == Filter(None, None, None)) then AllAssigned
              else NoMatchingScene)
  {
    CountsMean(pool, scope, f, u);
    TotalsMean(pool);
    assert (exists t <- pool :: Qualifies(t, u, scope, f)) ==> exists t <- pool :: OnOffer(t);
    assert (exists t <- pool :: Qualifies(t, u, scope, f)) ==> exists t <- pool :: WouldQualify(t, u, scope, f) by {
      if t :| t in pool && Qualifies(t, u, scope, f) {
        assert t.(rows := t.rows.(assignment := None)) == t;
      }
    }
    assert (exists t <- pool :: OnOffer(t)) ==> exists t <- pool :: t.rows.status.Pending?;
    hide Qualifies, WouldQualify, CountClaimable, OnOffer, Ids, PendingIds, EligibleIds;
  }

  lemma UnrefusedReason(pool: seq<Task>, scope: Scope, f: Filter, u: UserId, policy: Policy)
    ensures EmptyPoolReason(scope, f, |Ids(pool)|, |PendingIds(pool)|, |EligibleIds(pool)|,
                            CountClaimable(pool, scope, f, u, true), CountClaimable(pool, scope, f, u, false)).Available?
            <==> First(pool, {}, OneShotQuery(scope, f, u, policy)).Some?
  {
    NoneOfferedUnlocked(pool, scope, f, u, policy);
    var unassigned, all := MatchingIds(pool, scope, f, u, false), MatchingIds(pool, scope, f, u, true);
    SubsetIsSmaller(unassigned, all);
    SubsetIsSmaller(all, EligibleIds(pool));
    SubsetIsSmaller(EligibleIds(pool), Ids(pool));
    if !CanClaim(scope) { assert unassigned == {}; }
  }
}
