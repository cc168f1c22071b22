/** Carrying out a metadata import: when the database accepts the planned rows, how many it gains, and what planning the
    same document again finds. */
module ImportApply {
  import opened Common
  import opened ImportPlan

  /* ---------- one row ---------- */

  /** A review without a number is written as the first. */
  function Written(r: Review): Review {
    if r.number == 0 then r.(number := 1) else r
  }

  /** What a primary key or a unique index of a table holds. */
  datatype Key =
    | BatchId(id: Id)
    | BatchCode(code: string)
    | ActionId(id: Id)
    | ActionOp(op: Id)
    | SourceId(id: Id)
    | CurrentSource(batch: Id, key: string)
    | PredictionId(id: Id)
    | ReviewId(id: Id)
    | ReviewNumber(version: Id, number: int)

  function KeysOf(op: Op): set<Key> {
    match op
    case InsertBatch(id, b) => {BatchId(id), BatchCode(b.code)}
    case InsertAction(id, a) => {ActionId(id), ActionOp(a.op)}
    case InsertSource(id, s) =>
      if s.body.current then {SourceId(id), CurrentSource(s.batch, s.body.key)} else {SourceId(id)}
    case InsertPrediction(id, _) => {PredictionId(id)}
    case InsertReview(id, r) => {ReviewId(id), ReviewNumber(r.version, Written(r).number)}
  }

  predicate Taken(db: Db, k: Key) {
    match k
    case BatchId(id) => id in db.batches
    case BatchCode(code) => code in db.codes
    case ActionId(id) => id in db.actions
    case ActionOp(op) => op in db.ops
    case SourceId(id) => id in db.sources
    case CurrentSource(batch, key) => (batch, key) in db.currents
    case PredictionId(id) => id in db.predictions
    case ReviewId(id) => id in db.reviews
    case ReviewNumber(version, number) => (version, number) in db.numbers
  }

  /** The rows a new row refers to are there (a review may name itself as its predecessor). */
  predicate RefsThere(db: Db, op: Op) {
    match op
    case InsertBatch(_, _) => true
    case InsertAction(_, _) => true
    case InsertSource(_, s) => s.task in db.tasks && s.batch in db.batches
    case InsertPrediction(_, p) => p.task in db.tasks && (p.version.Some? ==> p.version.value in db.versions)
    case InsertReview(id, r) =>
      && r.version in db.versions
      && (r.user.Some? ==> r.user.value in db.users)
      && (r.action.Some? ==> r.action.value in db.actions)
      && (r.previous.Some? ==> r.previous.value in db.reviews || r.previous.value == id)
  }

  function Added(db: Db, op: Op): Db {
    match op
    case InsertBatch(id, b) => db.(batches := db.batches[id := b], codes := db.codes[b.code := id])
    case InsertAction(id, a) => db.(actions := db.actions[id := a], ops := db.ops[a.op := id])
    case InsertSource(id, s) =>
      db.(sources := db.sources[id := s],
          currents := if s.body.current then db.currents[(s.batch, s.body.key) := id] else db.currents)
    case InsertPrediction(id, p) => db.(predictions := db.predictions[id := p])
    case InsertReview(id, r) =>
      db.(reviews := db.reviews[id := Written(r)], numbers := db.numbers[(r.version, Written(r).number) := id])
  }

  predicate KeysFree(db: Db, op: Op) {
    forall k <- KeysOf(op) :: !Taken(db, k)
  }

  /** Inserts one row; `None` when a primary key, unique or foreign key constraint of the table objects. */
  function Insert(db: Db, op: Op): Option<Db> {
    if RefsThere(db, op) && KeysFree(db, op) then Some(Added(db, op)) else None
  }

  function Apply(db: Db, ops: seq<Op>): Option<Db>
    decreases |ops|
  {
    if ops == [] then Some(db)
    else
      var first := Insert(db, ops[0]);
      if first.None? then None else Apply(first.value, ops[1..])
  }

  /** The loop that writes the rows. */
  method ApplyImport(db: Db, ops: seq<Op>) returns (r: Option<Db>)
    ensures r == Apply(db, ops)
  {
    var now := db;
    for i := 0 to |ops|
      invariant Apply(db, ops) == Apply(now, ops[i..])
    {
      assert ops[i..][0] == ops[i] && ops[i..][1..] == ops[i + 1..];
      var next := Insert(now, ops[i]);
      if next.None? { return None; }
      now := next.value;
    }
    assert ops[|ops|..] == [];
    r := Some(now);
  }

  /* ---------- when the rows are accepted ---------- */

  predicate InsertsBatch(op: Op, id: Id) {
    op.InsertBatch? && op.id == id
  }

  predicate InsertsAction(op: Op, id: Id) {
    op.InsertAction? && op.id == id
  }

  predicate InsertsReview(op: Op, id: Id) {
    op.InsertReview? && op.id == id
  }

  predicate BatchInserted(ops: seq<Op>, id: Id) {
    exists o <- ops :: InsertsBatch(o, id)
  }

  predicate ActionInserted(ops: seq<Op>, id: Id) {
    exists o <- ops :: InsertsAction(o, id)
  }

  predicate ReviewInserted(ops: seq<Op>, id: Id) {
    exists o <- ops :: InsertsReview(o, id)
  }

  /** The rows an insertion refers to are in the database or inserted before it. */
  predicate RefsFound(db: Db, before: seq<Op>, op: Op) {
    match op
    case InsertBatch(_, _) => true
    case InsertAction(_, _) => true
    case InsertSource(_, s) =>
      s.task in db.tasks && (s.batch in db.batches || BatchInserted(before, s.batch))
    case InsertPrediction(_, p) => p.task in db.tasks && (p.version.Some? ==> p.version.value in db.versions)
    case InsertReview(id, r) =>
      && r.version in db.versions
      && (r.user.Some? ==> r.user.value in db.users)
      && (r.action.Some? ==> r.action.value in db.actions || ActionInserted(before, r.action.value))
      && (r.previous.Some? ==>
            r.previous.value == id || r.previous.value in db.reviews
            || ReviewInserted(before, r.previous.value))
  }

  predicate AllRefsFound(db: Db, before: seq<Op>, ops: seq<Op>)
    decreases |ops|
  {
    ops == [] || (RefsFound(db, before, ops[0]) && AllRefsFound(db, before + [ops[0]], ops[1..]))
  }

  /** No two of the rows claim the same key. */
  ghost predicate KeysApart(ops: seq<Op>) {
    forall i, j :: 0 <= i < j < |ops| ==> KeysOf(ops[i]) !! KeysOf(ops[j])
  }

  ghost predicate AllKeysFree(db: Db, ops: seq<Op>) {
    forall op <- ops :: KeysFree(db, op)
  }

  lemma TakenAfter(db: Db, op: Op, k: Key)
    ensures Taken(Added(db, op), k) <==> Taken(db, k) || k in KeysOf(op)
  {
  }

  lemma RefsAfter(db: Db, first: Op, before: seq<Op>, op: Op)
    ensures RefsFound(Added(db, first), before, op) <==> RefsFound(db, [first] + before, op)
  {
    assert forall o :: o in [first] + before <==> o == first || o in before;
    forall x ensures BatchInserted([first] + before, x) <==> InsertsBatch(first, x) || BatchInserted(before, x)
      ensures ActionInserted([first] + before, x) <==> InsertsAction(first, x) || ActionInserted(before, x)
      ensures ReviewInserted([first] + before, x) <==> InsertsReview(first, x) || ReviewInserted(before, x) {}
    hide BatchInserted, ActionInserted, ReviewInserted, Written;
  }

  lemma {:induction false} AllRefsAfter(db: Db, first: Op, before: seq<Op>, ops: seq<Op>)
    ensures AllRefsFound(Added(db, first), before, ops) <==> AllRefsFound(db, [first] + before, ops)
    decreases |ops|
  {
    hide RefsFound, Added;
    if ops != [] {
      RefsAfter(db, first, before, ops[0]);
      AllRefsAfter(db, first, before + [ops[0]], ops[1..]);
      assert [first] + (before + [ops[0]]) == [first] + before + [ops[0]];
    }
  }

  lemma RefsNow(db: Db, op: Op)
    ensures RefsFound(db, [], op) <==> RefsThere(db, op)
  {
  }

  lemma KeysApartSplits(ops: seq<Op>)
    requires ops != []
    ensures KeysApart(ops) <==> KeysApart(ops[1..]) && forall op <- ops[1..] :: KeysOf(ops[0]) !! KeysOf(op)
  {
    hide KeysOf;
    var rest := ops[1..];
    if KeysApart(ops) {
      forall op | op in rest ensures KeysOf(ops[0]) !! KeysOf(op) { var j :| 0 <= j < |rest| && rest[j] == op; assert ops[j + 1] == op; }
      forall i, j | 0 <= i < j < |rest| ensures KeysOf(rest[i]) !! KeysOf(rest[j]) {
        assert rest[i] == ops[i + 1] && rest[j] == ops[j + 1];
      }
    }
    if KeysApart(rest) && forall op <- rest :: KeysOf(ops[0]) !! KeysOf(op) {
      forall i, j | 0 <= i < j < |ops| ensures KeysOf(ops[i]) !! KeysOf(ops[j]) {
        assert ops[j] == rest[j - 1] && rest[j - 1] in rest;
        if i > 0 { assert ops[i] == rest[i - 1]; }
      }
    }
  }

  lemma KeysStillFree(db: Db, first: Op, ops: seq<Op>)
    ensures AllKeysFree(Added(db, first), ops) <==>
            AllKeysFree(db, ops) && forall op <- ops :: KeysOf(first) !! KeysOf(op)
  {
    forall k ensures Taken(Added(db, first), k) <==> Taken(db, k) || k in KeysOf(first) { TakenAfter(db, first, k); }
    hide Taken, Added, KeysOf;
  }

  /** Rows are accepted, one after another, exactly when each refers to rows that are there or come before it, none
      claims a key that is taken, and no two claim the same. */
  lemma {:induction false} AcceptedIff(db: Db, ops: seq<Op>)
    ensures Apply(db, ops).Some? <==> AllRefsFound(db, [], ops) && AllKeysFree(db, ops) && KeysApart(ops)
    decreases |ops|
  {
    hide RefsFound, RefsThere, KeysOf, Taken, Added;
    if ops != [] {
      RefsNow(db, ops[0]);
      KeysApartSplits(ops);
      KeysStillFree(db, ops[0], ops[1..]);
      AllRefsAfter(db, ops[0], [], ops[1..]);
      AcceptedIff(Added(db, ops[0]), ops[1..]);
      assert [ops[0]] + [] == [ops[0]] && [] + [ops[0]] == [ops[0]];
      assert forall op :: op in ops <==> op == ops[0] || op in ops[1..];
      hide AllRefsFound, KeysApart, KeysFree;
    }
  }

  /** A review without a number needs number one of its version. */
  predicate NumberFree(db: Db, op: Op) {
    op.InsertReview? ==> (op.review.version, Written(op.review).number) !in db.numbers
  }

  lemma PlannedKeysFree(db: Db, m: Mapping, doc: Doc, op: Op)
    requires op in PlannedOps(db, m, doc)
    ensures KeysFree(db, op) <==> NumberFree(db, op)
  {
    InPlannedOps(db, m, doc, op);
    InKindOps(db, m, doc, KindOf(op), op);
    NewIsFree(db, m, doc, op);
  }

  lemma NewIsFree(db: Db, m: Mapping, doc: Doc, op: Op)
    requires New(op) in DocVerdicts(db, m, doc, KindOf(op))
             || exists t <- doc.tasks :: New(op) in TaskVerdicts(db, m, doc, t, KindOf(op))
    ensures KeysFree(db, op) <==> NumberFree(db, op)
  {
    hide KeysFree, ReviewRefsFound, ResolveBatch, InOrder, VersionOfTask;
    match op
    case InsertBatch(_, _) =>
      var i :| 0 <= i < |doc.batches| && PlanBatch(db, m, doc.batches[i]) == New(op);
      NewBatchIsFree(db, m, doc.batches[i]);
    case InsertAction(_, _) =>
      var i :| 0 <= i < |doc.actions| && PlanAction(db, m, doc.actions[i]) == New(op);
      NewActionIsFree(db, m, doc.actions[i]);
    case InsertSource(_, _) =>
      var t :| t in doc.tasks && New(op) in SourceVerdicts(db, m, doc, t);
      var vs := SourceVerdicts(db, m, doc, t);
      var i :| 0 <= i < |vs| && vs[i] == New(op);
      NewSourceIsFree(db, m, doc, t, t.sources[i]);
    case InsertPrediction(_, _) =>
      var t :| t in doc.tasks && New(op) in PredictionVerdicts(db, m, t);
      var vs := PredictionVerdicts(db, m, t);
      var i :| 0 <= i < |vs| && vs[i] == New(op);
      NewPredictionIsFree(db, m, t, t.predictions[i]);
    case InsertReview(_, _) =>
      var t :| t in doc.tasks && New(op) in ReviewVerdicts(db, m, doc, t);
      var vs := ReviewVerdicts(db, m, doc, t);
      var i :| 0 <= i < |vs| && vs[i] == New(op);
      NewReviewIsFree(db, m, doc, t, InOrder(t.reviews)[i]);
  }

  lemma NewBatchIsFree(db: Db, m: Mapping, b: BatchDoc)
    requires PlanBatch(db, m, b).New?
    ensures KeysFree(db, PlanBatch(db, m, b).op)
  {
  }

  lemma NewActionIsFree(db: Db, m: Mapping, a: ActionDoc)
    requires PlanAction(db, m, a).New?
    ensures KeysFree(db, PlanAction(db, m, a).op)
  {
  }

  lemma NewSourceIsFree(db: Db, m: Mapping, doc: Doc, t: TaskDoc, s: SourceDoc)
    requires PlanSource(db, m, doc, t, s).New?
    ensures KeysFree(db, PlanSource(db, m, doc, t, s).op)
  {
    hide ResolveBatch;
  }

  lemma NewPredictionIsFree(db: Db, m: Mapping, t: TaskDoc, p: PredictionDoc)
    requires PlanPrediction(db, m, t, p).New?
    ensures KeysFree(db, PlanPrediction(db, m, t, p).op)
  {
  }

  lemma NewReviewIsFree(db: Db, m: Mapping, doc: Doc, t: TaskDoc, r: ReviewDoc)
    requires PlanReview(db, m, doc, t, r).New?
    ensures var op := PlanReview(db, m, doc, t, r).op; KeysFree(db, op) <==> NumberFree(db, op)
  {
    hide ReviewRefsFound;
    var op := PlanReview(db, m, doc, t, r).op;
    var n := ReviewNumber(op.review.version, Written(op.review).number);
    assert n in KeysOf(op) && (Taken(db, n) <==> !NumberFree(db, op));
  }

  /** A plan without errors is carried out exactly when its references resolve, no two of its rows claim the same key
      (two records mapped onto one id, two current sources of one record), and a review numbered zero finds number one
      of its version free. */
  lemma PlanIsAcceptedIff(db: Db, m: Mapping, doc: Doc)
    ensures var ops := PlannedOps(db, m, doc);
            Apply(db, ops).Some? <==>
            AllRefsFound(db, [], ops) && KeysApart(ops) && forall op <- ops :: NumberFree(db, op)
  {
    var ops := PlannedOps(db, m, doc);
    AcceptedIff(db, ops);
    forall op | op in ops ensures KeysFree(db, op) <==> NumberFree(db, op) { PlannedKeysFree(db, m, doc, op); }
    hide PlannedOps, AllRefsFound, KeysApart, KeysFree, NumberFree;
  }

  /* ---------- what carrying it out leaves ---------- */

  ghost predicate Extends<K, V>(a: map<K, V>, b: map<K, V>) {
    forall k <- a :: k in b && b[k] == a[k]
  }

  ghost predicate Grows(a: Db, b: Db) {
    && b.tasks == a.tasks && b.versions == a.versions && b.users == a.users
    && Extends(a.batches, b.batches) && Extends(a.codes, b.codes) && Extends(a.actions, b.actions)
    && Extends(a.ops, b.ops) && Extends(a.sources, b.sources) && Extends(a.currents, b.currents)
    && Extends(a.predictions, b.predictions) && Extends(a.reviews, b.reviews) && Extends(a.numbers, b.numbers)
  }

  predicate Present(db: Db, op: Op) {
    match op
    case InsertBatch(id, b) => id in db.batches && db.batches[id] == b && b.code in db.codes && db.codes[b.code] == id
    case InsertAction(id, a) => id in db.actions && db.actions[id] == a
    case InsertSource(id, s) => id in db.sources && db.sources[id] == s
    case InsertPrediction(id, p) => id in db.predictions && db.predictions[id] == p
    case InsertReview(id, r) => id in db.reviews && db.reviews[id] == Written(r)
  }

  /** The number of rows of the table for a kind of record. */
  function Size(db: Db, k: Kind): nat {
    match k
    case BatchKind => |db.batches|
    case SourceKind => |db.sources|
    case PredictionKind => |db.predictions|
    case ActionKind => |db.actions|
    case ReviewKind => |db.reviews|
  }

  lemma InsertGrows(db: Db, op: Op)
    requires Insert(db, op).Some?
    ensures Grows(db, Insert(db, op).value) && Present(Insert(db, op).value, op)
    ensures forall i <- Insert(db, op).value.batches :: i in db.batches || InsertsBatch(op, i)
  {
    assert forall k <- KeysOf(op) :: !Taken(db, k);
    match op
    case InsertBatch(id, b) => assert BatchId(id) in KeysOf(op) && BatchCode(b.code) in KeysOf(op);
    case InsertAction(id, a) => assert ActionId(id) in KeysOf(op) && ActionOp(a.op) in KeysOf(op);
    case InsertSource(id, s) => assert SourceId(id) in KeysOf(op);
      assert s.body.current ==> CurrentSource(s.batch, s.body.key) in KeysOf(op);
    case InsertPrediction(id, _) => assert PredictionId(id) in KeysOf(op);
    case InsertReview(id, r) => assert ReviewId(id) in KeysOf(op) && ReviewNumber(r.version, Written(r).number) in KeysOf(op);
  }

  lemma PresentStays(a: Db, b: Db, op: Op)
    requires Grows(a, b) && Present(a, op)
    ensures Present(b, op)
  {
  }

  lemma GrowsChains(a: Db, b: Db, c: Db)
    requires Grows(a, b) && Grows(b, c)
    ensures Grows(a, c)
  {
  }

  lemma {:induction false} ApplyGrows(db: Db, ops: seq<Op>)
    requires Apply(db, ops).Some?
    ensures var db' := Apply(db, ops).value;
            && Grows(db, db') && (forall op <- ops :: Present(db', op))
            && (forall i <- db'.batches :: i in db.batches || exists op <- ops :: InsertsBatch(op, i))
    decreases |ops|
  {
    if ops != [] {
      hide Present, Grows, Insert;
      var next, db' := Insert(db, ops[0]).value, Apply(db, ops).value;
      InsertGrows(db, ops[0]);
      ApplyGrows(next, ops[1..]);
      GrowsChains(db, next, db');
      PresentStays(next, db', ops[0]);
      assert forall op <- ops :: op == ops[0] || op in ops[1..];
      assert ops[0] in ops && forall op <- ops[1..] :: op in ops;
    } else {
      hide Present, Insert;
    }
  }

  lemma NewKeys(db: Db, op: Op)
    requires KeysFree(db, op)
    ensures match op
            case InsertBatch(id, _) => id !in db.batches
            case InsertAction(id, _) => id !in db.actions
            case InsertSource(id, _) => id !in db.sources
            case InsertPrediction(id, _) => id !in db.predictions
            case InsertReview(id, _) => id !in db.reviews
  {
    match op
    case InsertBatch(id, _) => assert BatchId(id) in KeysOf(op);
    case InsertAction(id, _) => assert ActionId(id) in KeysOf(op);
    case InsertSource(id, _) => assert SourceId(id) in KeysOf(op);
    case InsertPrediction(id, _) => assert PredictionId(id) in KeysOf(op);
    case InsertReview(id, _) => assert ReviewId(id) in KeysOf(op);
  }

  lemma InsertAddsOne(db: Db, op: Op, k: Kind)
    requires Insert(db, op).Some?
    ensures Size(Insert(db, op).value, k) == Size(db, k) + if KindOf(op) == k then 1 else 0
  {
    NewKeys(db, op);
    hide KeysFree, RefsThere, Written;
  }

  /** Each table grows by exactly the number that the planner counted for it. */
  lemma {:induction false} RowsAddedAsPlanned(db: Db, ops: seq<Op>, k: Kind)
    requires Apply(db, ops).Some?
    ensures k in CountsOf(ops) && Size(Apply(db, ops).value, k) == Size(db, k) + CountsOf(ops)[k]
    decreases |ops|
  {
    hide Insert, KindOf, OfKind, Size;
    AllKinds(k);
    if ops == [] {
      NothingCounted(k);
    } else {
      InsertAddsOne(db, ops[0], k);
      RowsAddedAsPlanned(Insert(db, ops[0]).value, ops[1..], k);
      OfKindSplits([ops[0]], ops[1..], k);
      OneCounted(ops[0], k);
      assert [ops[0]] + ops[1..] == ops;
    }
  }

  lemma NothingCounted(k: Kind)
    ensures OfKind([], k) == []
  {
  }

  lemma OneCounted(op: Op, k: Kind)
    ensures OfKind([op], k) == if KindOf(op) == k then [op] else []
  {
  }

  /* ---------- planning again ---------- */

  /** The index on batch codes is exact. */
  ghost predicate CodesOk(db: Db) {
    && (forall i <- db.batches :: db.batches[i].code in db.codes && db.codes[db.batches[i].code] == i)
    && (forall c <- db.codes :: db.codes[c] in db.batches && db.batches[db.codes[c]].code == c)
  }

  /** No batch that was found by its code under another id has its own mapped id taken by a batch of the same import. */
  ghost predicate BatchIdsStayFree(db: Db, m: Mapping, doc: Doc) {
    forall b, c :: b in doc.batches && c in doc.batches && FoundElsewhere(db, m, b) && PlanBatch(db, m, c).New? ==>
      Remap(m.batches, c.id) != Remap(m.batches, b.id)
  }

  predicate FoundElsewhere(db: Db, m: Mapping, b: BatchDoc) {
    b.row.code in db.codes && Remap(m.batches, b.id) !in db.batches
  }

  /** Every review to be inserted has a number, which is then the number it is written with. */
  ghost predicate ReviewsNumbered(db: Db, m: Mapping, doc: Doc) {
    forall t <- doc.tasks, r <- t.reviews :: PlanReview(db, m, doc, t, r).New? ==> r.row.number != 0
  }

  /** What an import that was carried out leaves for the next plan. */
  ghost predicate Done(db: Db, m: Mapping, doc: Doc, db': Db) {
    && Grows(db, db') && (forall op <- PlannedOps(db, m, doc) :: Present(db', op))
    && (forall i <- db'.batches :: i in db.batches ||
          exists b <- doc.batches :: PlanBatch(db, m, b).New? && Remap(m.batches, b.id) == i)
  }

  lemma BatchOpComesFrom(db: Db, m: Mapping, doc: Doc, op: Op)
    requires op in PlannedOps(db, m, doc) && op.InsertBatch?
    ensures exists b <- doc.batches :: PlanBatch(db, m, b).New? && Remap(m.batches, b.id) == op.id
  {
    InPlannedOps(db, m, doc, op);
    InKindOps(db, m, doc, BatchKind, op);
    var i :| 0 <= i < |doc.batches| && BatchVerdicts(db, m, doc)[i] == New(op);
    assert PlanBatch(db, m, doc.batches[i]) == New(op);
  }

  lemma ImportIsDone(db: Db, m: Mapping, doc: Doc)
    requires Apply(db, PlannedOps(db, m, doc)).Some?
    ensures Done(db, m, doc, Apply(db, PlannedOps(db, m, doc)).value)
  {
    hide Grows, Present, PlanBatch;
    var ops, db' := PlannedOps(db, m, doc), Apply(db, PlannedOps(db, m, doc)).value;
    ApplyGrows(db, ops);
    forall i | i in db'.batches && i !in db.batches
      ensures exists b <- doc.batches :: PlanBatch(db, m, b).New? && Remap(m.batches, b.id) == i
    {
      var op :| op in ops && InsertsBatch(op, i);
      BatchOpComesFrom(db, m, doc, op);
    }
    hide PlannedOps, Apply;
  }

  /** A new record of the document is among the rows that are there afterwards. */
  lemma NewIsPresent(db: Db, m: Mapping, doc: Doc, db': Db, t: TaskDoc, k: Kind, v: Verdict)
    requires Done(db, m, doc, db') && v.New?
    requires v in DocVerdicts(db, m, doc, k) || (t in doc.tasks && v in TaskVerdicts(db, m, doc, t, k))
    ensures Present(db', v.op)
  {
    hide Present, Grows, PlannedOps, KindOps, DocVerdicts, TaskVerdicts;
    VerdictsKeepKind(db, m, doc, t, k, v.op);
    DocOrTask(db, m, doc, t, k);
    InKindOps(db, m, doc, k, v.op);
    InPlannedOps(db, m, doc, v.op);
  }

  lemma DocOrTask(db: Db, m: Mapping, doc: Doc, t: TaskDoc, k: Kind)
    ensures if OfTasks(k) then DocVerdicts(db, m, doc, k) == [] else TaskVerdicts(db, m, doc, t, k) == []
  {
  }

  /* what becomes of each kind of record */

  lemma BatchIsSame(db: Db, m: Mapping, doc: Doc, db': Db, i: nat)
    requires CodesOk(db) && Done(db, m, doc, db') && i < |doc.batches| && !PlanBatch(db, m, doc.batches[i]).Wrong?
    requires BatchIdsStayFree(db, m, doc)
    ensures PlanBatch(db', m, doc.batches[i]).Same?
  {
    var b := doc.batches[i];
    BatchStays(db, m, doc, db', i);
    hide PlannedOps;
    if FoundElsewhere(db, m, b) { assert b in doc.batches && Remap(m.batches, b.id) !in db'.batches; }
  }

  lemma BatchStays(db: Db, m: Mapping, doc: Doc, db': Db, i: nat)
    requires Done(db, m, doc, db') && i < |doc.batches|
    ensures PlanBatch(db, m, doc.batches[i]).New? ==> Present(db', PlanBatch(db, m, doc.batches[i]).op)
  {
    hide Present, Grows, PlannedOps, PlanBatch;
    var v := BatchVerdicts(db, m, doc)[i];
    assert v in BatchVerdicts(db, m, doc) && v in DocVerdicts(db, m, doc, BatchKind);
    if v.New? { NewIsPresent(db, m, doc, db', TaskDoc(0, [], [], []), BatchKind, v); }
  }

  lemma TargetStays(db: Db, m: Mapping, doc: Doc, db': Db, b: BatchDoc)
    requires CodesOk(db) && Done(db, m, doc, db') && b in doc.batches && !PlanBatch(db, m, b).Wrong?
    ensures BatchTarget(db', m, b) == BatchTarget(db, m, b)
  {
    var i :| 0 <= i < |doc.batches| && doc.batches[i] == b;
    BatchStays(db, m, doc, db', i);
    hide PlannedOps;
  }

  lemma NotWrong(db: Db, m: Mapping, doc: Doc, b: BatchDoc)
    requires NothingWrong(db, m, doc) && b in doc.batches
    ensures !PlanBatch(db, m, b).Wrong?
  {
    hide PlanBatch, TaskVerdicts;
    var i :| 0 <= i < |doc.batches| && doc.batches[i] == b;
    assert NoneWrong(DocVerdicts(db, m, doc, BatchKind));
    assert BatchVerdicts(db, m, doc)[i] in BatchVerdicts(db, m, doc);
  }

  /** Sources resolve to the same batch again. */
  lemma ResolvesAsBefore(db: Db, m: Mapping, doc: Doc, db': Db, s: SourceDoc)
    requires CodesOk(db) && Done(db, m, doc, db') && NothingWrong(db, m, doc) && ResolveBatch(db, m, doc, s).Some?
    ensures ResolveBatch(db', m, doc, s) == ResolveBatch(db, m, doc, s)
  {
    if s.batch.Some? && FindBatch(doc.batches, s.batch.value).Some? {
      NotWrong(db, m, doc, FindBatch(doc.batches, s.batch.value).value);
      TargetStays(db, m, doc, db', FindBatch(doc.batches, s.batch.value).value);
    }
    if s.code.Some? && FindCode(doc.batches, s.code.value).Some? {
      NotWrong(db, m, doc, FindCode(doc.batches, s.code.value).value);
      TargetStays(db, m, doc, db', FindCode(doc.batches, s.code.value).value);
    }
    hide PlannedOps, FindBatch, FindCode, BatchTarget, NothingWrong, CodesOk;
  }

  lemma SourceIsSame(db: Db, m: Mapping, doc: Doc, db': Db, t: TaskDoc, i: nat)
    requires CodesOk(db) && Done(db, m, doc, db') && NothingWrong(db, m, doc) && t in doc.tasks && i < |t.sources|
    requires !PlanSource(db, m, doc, t, t.sources[i]).Wrong?
    ensures PlanSource(db', m, doc, t, t.sources[i]).Same?
  {
    var s, v := t.sources[i], SourceVerdicts(db, m, doc, t)[i];
    ResolvesAsBefore(db, m, doc, db', s);
    assert v in SourceVerdicts(db, m, doc, t) && v in TaskVerdicts(db, m, doc, t, SourceKind);
    if v.New? { NewIsPresent(db, m, doc, db', t, SourceKind, v); }
    hide ResolveBatch, PlannedOps, NothingWrong, CodesOk;
  }

  lemma PredictionIsSame(db: Db, m: Mapping, doc: Doc, db': Db, t: TaskDoc, i: nat)
    requires Done(db, m, doc, db') && t in doc.tasks && i < |t.predictions|
    requires !PlanPrediction(db, m, t, t.predictions[i]).Wrong?
    ensures PlanPrediction(db', m, t, t.predictions[i]).Same?
  {
    var v := PredictionVerdicts(db, m, t)[i];
    assert v in PredictionVerdicts(db, m, t) && v in TaskVerdicts(db, m, doc, t, PredictionKind);
    if v.New? { NewIsPresent(db, m, doc, db', t, PredictionKind, v); }
    hide PlannedOps;
  }

  /** A review is found again as it is, exactly unless it was inserted without a number. */
  lemma ReviewAgain(db: Db, m: Mapping, doc: Doc, db': Db, t: TaskDoc, r: ReviewDoc)
    requires Done(db, m, doc, db') && t in doc.tasks && r in t.reviews && !PlanReview(db, m, doc, t, r).Wrong?
    ensures if PlanReview(db, m, doc, t, r).New? && r.row.number == 0 then PlanReview(db', m, doc, t, r).Wrong?
            else PlanReview(db', m, doc, t, r).Same?
  {
    assert r in InOrder(t.reviews);
    var i :| 0 <= i < |InOrder(t.reviews)| && InOrder(t.reviews)[i] == r;
    var v := ReviewVerdicts(db, m, doc, t)[i];
    assert v in ReviewVerdicts(db, m, doc, t) && v in TaskVerdicts(db, m, doc, t, ReviewKind);
    assert v == PlanReview(db, m, doc, t, r);
    if v.New? { NewIsPresent(db, m, doc, db', t, ReviewKind, v); }
    hide PlannedOps, InOrder, ReviewVerdicts, TaskVerdicts;
    assert ReviewRefsFound(db', m, doc, t, r.row) by { hide HasReview, ActionPlanned; }
    hide ReviewRefsFound;
  }

  lemma ActionIsSame(db: Db, m: Mapping, doc: Doc, db': Db, i: nat)
    requires Done(db, m, doc, db') && i < |doc.actions| && !PlanAction(db, m, doc.actions[i]).Wrong?
    ensures PlanAction(db', m, doc.actions[i]).Same?
  {
    var v := ActionVerdicts(db, m, doc)[i];
    assert v in ActionVerdicts(db, m, doc) && v in DocVerdicts(db, m, doc, ActionKind);
    if v.New? { NewIsPresent(db, m, doc, db', TaskDoc(0, [], [], []), ActionKind, v); }
    hide PlannedOps;
  }

  /* all records */

  predicate AllAre(vs: seq<Verdict>) {
    forall v <- vs :: v.Same?
  }

  /** A plan that finds every record as it is. */
  ghost predicate AllSame(db: Db, m: Mapping, doc: Doc) {
    && CoreFound(db, m, doc) && MappingPresent(m, doc)
    && (forall k: Kind :: AllAre(DocVerdicts(db, m, doc, k)))
    && (forall t <- doc.tasks, k: Kind :: AllAre(TaskVerdicts(db, m, doc, t, k)))
  }

  lemma DocAllSame(db: Db, m: Mapping, doc: Doc, db': Db, k: Kind)
    requires CodesOk(db) && Done(db, m, doc, db') && NothingWrong(db, m, doc) && BatchIdsStayFree(db, m, doc)
    ensures AllAre(DocVerdicts(db', m, doc, k))
  {
    hide PlannedOps, PlanBatch, PlanAction, CodesOk, BatchIdsStayFree, Done;
    assert NoneWrong(DocVerdicts(db, m, doc, k));
    hide NothingWrong;
    match k
    case BatchKind =>
      forall i | 0 <= i < |doc.batches| ensures BatchVerdicts(db', m, doc)[i].Same? {
        assert BatchVerdicts(db, m, doc)[i] in DocVerdicts(db, m, doc, k);
        BatchIsSame(db, m, doc, db', i);
      }
    case ActionKind =>
      forall i | 0 <= i < |doc.actions| ensures ActionVerdicts(db', m, doc)[i].Same? {
        assert ActionVerdicts(db, m, doc)[i] in DocVerdicts(db, m, doc, k);
        ActionIsSame(db, m, doc, db', i);
      }
    case _ =>
  }

  lemma TaskAllSame(db: Db, m: Mapping, doc: Doc, db': Db, t: TaskDoc, k: Kind)
    requires CodesOk(db) && Done(db, m, doc, db') && NothingWrong(db, m, doc) && ReviewsNumbered(db, m, doc)
    requires t in doc.tasks
    ensures AllAre(TaskVerdicts(db', m, doc, t, k))
  {
    assert NoneWrong(TaskVerdicts(db, m, doc, t, k));
    hide PlannedOps, PlanSource, PlanPrediction, PlanReview, CodesOk, Done, NothingWrong, InOrder;
    match k
    case SourceKind =>
      forall i | 0 <= i < |t.sources| ensures SourceVerdicts(db', m, doc, t)[i].Same? {
        assert SourceVerdicts(db, m, doc, t)[i] in TaskVerdicts(db, m, doc, t, k);
        SourceIsSame(db, m, doc, db', t, i);
      }
    case PredictionKind =>
      forall i | 0 <= i < |t.predictions| ensures PredictionVerdicts(db', m, t)[i].Same? {
        assert PredictionVerdicts(db, m, t)[i] in TaskVerdicts(db, m, doc, t, k);
        PredictionIsSame(db, m, doc, db', t, i);
      }
    case ReviewKind =>
      forall i | 0 <= i < |InOrder(t.reviews)| ensures ReviewVerdicts(db', m, doc, t)[i].Same? {
        assert ReviewVerdicts(db, m, doc, t)[i] in TaskVerdicts(db, m, doc, t, k);
        assert InOrder(t.reviews)[i] in InOrder(t.reviews);
        ReviewAgain(db, m, doc, db', t, InOrder(t.reviews)[i]);
      }
    case _ =>
  }

  lemma {:induction false} NothingCollected(vs: seq<Verdict>)
    requires AllAre(vs)
    ensures Collect(vs) == [] && NoneWrong(vs) && Sames(vs) == |vs|
  {
    if vs != [] {
      assert vs[|vs| - 1] in vs && forall v <- vs[..|vs| - 1] :: v in vs;
      NothingCollected(vs[..|vs| - 1]);
    }
  }

  function RecordsIn(t: TaskDoc, k: Kind): nat {
    match k
    case SourceKind => |t.sources|
    case PredictionKind => |t.predictions|
    case ReviewKind => |t.reviews|
    case _ => 0
  }

  function RecordsInAll(tasks: seq<TaskDoc>, k: Kind): nat {
    if tasks == [] then 0 else RecordsInAll(tasks[..|tasks| - 1], k) + RecordsIn(tasks[|tasks| - 1], k)
  }

  /** The number of records of a kind in the document. */
  function RecordsOf(doc: Doc, k: Kind): nat {
    match k
    case BatchKind => |doc.batches|
    case ActionKind => |doc.actions|
    case _ => RecordsInAll(doc.tasks, k)
  }

  lemma {:induction false} NoTaskOpsWhenSame(db: Db, m: Mapping, doc: Doc, tasks: seq<TaskDoc>, k: Kind)
    requires OfTasks(k) && forall t <- tasks :: AllAre(TaskVerdicts(db, m, doc, t, k))
    ensures TaskOps(db, m, doc, tasks, k) == [] && TaskSames(db, m, doc, tasks, k) == RecordsInAll(tasks, k)
  {
    hide Collect, Sames, InOrder, PlanSource, PlanPrediction, PlanReview, AllAre;
    if tasks != [] {
      var n := |tasks| - 1;
      assert tasks[n] in tasks && forall t <- tasks[..n] :: t in tasks;
      NothingCollected(TaskVerdicts(db, m, doc, tasks[n], k));
      NoTaskOpsWhenSame(db, m, doc, tasks[..n], k);
    }
  }

  lemma KindIsSame(db: Db, m: Mapping, doc: Doc, k: Kind)
    requires AllAre(DocVerdicts(db, m, doc, k)) && forall t <- doc.tasks :: AllAre(TaskVerdicts(db, m, doc, t, k))
    ensures KindOps(db, m, doc, k) == [] && UnchangedOf(db, m, doc, k) == RecordsOf(doc, k)
  {
    hide AllAre, TaskOps, TaskSames, TaskVerdicts;
    NothingCollected(DocVerdicts(db, m, doc, k));
    if OfTasks(k) { NoTaskOpsWhenSame(db, m, doc, doc.tasks, k); }
  }

  /** Such a plan has no errors and nothing to insert, and counts every record as unchanged. */
  lemma AllSameIsEmpty(db: Db, m: Mapping, doc: Doc)
    requires AllSame(db, m, doc)
    ensures Clean(db, m, doc) && PlannedOps(db, m, doc) == []
    ensures forall k: Kind :: UnchangedOf(db, m, doc, k) == RecordsOf(doc, k)
  {
    hide Collect, Sames, CoreFound, MappingPresent, AllAre, NoneWrong, DocVerdicts, TaskVerdicts, KindOps, UnchangedOf;
    hide RecordsOf;
    forall k: Kind
      ensures NoneWrong(DocVerdicts(db, m, doc, k)) && KindOps(db, m, doc, k) == []
      ensures UnchangedOf(db, m, doc, k) == RecordsOf(doc, k)
    {
      NothingCollected(DocVerdicts(db, m, doc, k));
      KindIsSame(db, m, doc, k);
    }
    forall k: Kind, t | t in doc.tasks ensures NoneWrong(TaskVerdicts(db, m, doc, t, k)) {
      NothingCollected(TaskVerdicts(db, m, doc, t, k));
    }
  }

  lemma CoreStays(db: Db, m: Mapping, doc: Doc, db': Db)
    requires CoreFound(db, m, doc) && Grows(db, db')
    ensures CoreFound(db', m, doc)
  {
  }

  lemma EverythingIsSame(db: Db, m: Mapping, doc: Doc, db': Db)
    requires CodesOk(db) && Clean(db, m, doc) && Done(db, m, doc, db')
    requires BatchIdsStayFree(db, m, doc) && ReviewsNumbered(db, m, doc)
    ensures AllSame(db', m, doc)
  {
    CoreStays(db, m, doc, db');
    hide Done, CoreFound, MappingPresent, CodesOk, BatchIdsStayFree, ReviewsNumbered, NothingWrong, DocVerdicts, TaskVerdicts;
    hide AllAre;
    forall k: Kind ensures AllAre(DocVerdicts(db', m, doc, k)) { DocAllSame(db, m, doc, db', k); }
    forall k: Kind, t | t in doc.tasks ensures AllAre(TaskVerdicts(db', m, doc, t, k)) { TaskAllSame(db, m, doc, db', t, k); }
  }

  /* noticing that the conditions failed */

  lemma TakenIdIsNoticed(db: Db, m: Mapping, doc: Doc, db': Db)
    requires NothingWrong(db', m, doc) && Done(db, m, doc, db') && NothingWrong(db, m, doc)
    ensures BatchIdsStayFree(db, m, doc)
  {
    hide NothingWrong, Done;
    forall b, c | b in doc.batches && c in doc.batches && FoundElsewhere(db, m, b) && PlanBatch(db, m, c).New?
      ensures Remap(m.batches, c.id) != Remap(m.batches, b.id)
    {
      TakenIdIsWrong(db, m, doc, db', b, c);
    }
  }

  lemma TakenIdIsWrong(db: Db, m: Mapping, doc: Doc, db': Db, b: BatchDoc, c: BatchDoc)
    requires NothingWrong(db', m, doc) && Done(db, m, doc, db') && NothingWrong(db, m, doc)
    requires b in doc.batches && c in doc.batches && FoundElsewhere(db, m, b) && PlanBatch(db, m, c).New?
    ensures Remap(m.batches, c.id) != Remap(m.batches, b.id)
  {
    NotWrong(db', m, doc, b);
    NotWrong(db, m, doc, b);
    var j :| 0 <= j < |doc.batches| && doc.batches[j] == c;
    BatchStays(db, m, doc, db', j);
    hide PlannedOps, NothingWrong;
  }

  lemma ReviewNotWrong(db: Db, m: Mapping, doc: Doc, t: TaskDoc, r: ReviewDoc)
    requires NothingWrong(db, m, doc) && t in doc.tasks && r in t.reviews
    ensures !PlanReview(db, m, doc, t, r).Wrong?
  {
    assert NoneWrong(TaskVerdicts(db, m, doc, t, ReviewKind)) && r in InOrder(t.reviews);
    hide PlanReview, InOrder, NothingWrong;
    var i :| 0 <= i < |InOrder(t.reviews)| && InOrder(t.reviews)[i] == r;
    assert ReviewVerdicts(db, m, doc, t)[i] in ReviewVerdicts(db, m, doc, t);
  }

  lemma MissingNumberIsNoticed(db: Db, m: Mapping, doc: Doc, db': Db)
    requires NothingWrong(db', m, doc) && Done(db, m, doc, db') && NothingWrong(db, m, doc)
    ensures ReviewsNumbered(db, m, doc)
  {
    hide NothingWrong, Done, PlanReview;
    forall t, r | t in doc.tasks && r in t.reviews && PlanReview(db, m, doc, t, r).New? ensures r.row.number != 0 {
      ReviewNotWrong(db, m, doc, t, r);
      ReviewNotWrong(db', m, doc, t, r);
      ReviewAgain(db, m, doc, db', t, r);
    }
  }

  /** Importing is idempotent: after an import has been carried out, planning the same document again finds no error,
      nothing to insert and every record unchanged, exactly when no batch's mapped id was taken by another batch of the
      import and every inserted review had a number. */
  lemma ImportIsIdempotent(db: Db, m: Mapping, doc: Doc)
    requires CodesOk(db) && Clean(db, m, doc) && Apply(db, PlannedOps(db, m, doc)).Some?
    ensures var db' := Apply(db, PlannedOps(db, m, doc)).value;
            && (BatchIdsStayFree(db, m, doc) && ReviewsNumbered(db, m, doc) ==>
                  Clean(db', m, doc) && PlannedOps(db', m, doc) == []
                  && forall k: Kind :: UnchangedOf(db', m, doc, k) == RecordsOf(doc, k))
            && (Clean(db', m, doc) ==> BatchIdsStayFree(db, m, doc) && ReviewsNumbered(db, m, doc))
  {
    ImportIsDone(db, m, doc);
    var db' := Apply(db, PlannedOps(db, m, doc)).value;
    hide PlannedOps, Apply, Done, NothingWrong, UnchangedOf, RecordsOf;
    if BatchIdsStayFree(db, m, doc) && ReviewsNumbered(db, m, doc) {
      EverythingIsSame(db, m, doc, db');
      AllSameIsEmpty(db', m, doc);
    }
    if Clean(db', m, doc) {
      TakenIdIsNoticed(db, m, doc, db');
      MissingNumberIsNoticed(db, m, doc, db');
    }
  }

  /* ---------- the two conditions can fail ---------- */

  const EMPTY_DB := Db({}, map[], {}, map[], map[], map[], map[], map[], map[], map[], map[], map[])

  const NO_MAPPING := Mapping(map[], map[], map[], map[], map[], map[], map[], map[])

  lemma CollectOne(v: Verdict)
    ensures Collect([v]) == if v.New? then [v.op] else []
  {
    assert [v][..0] == [];
  }

  lemma AcceptOne(db: Db, op: Op)
    ensures Apply(db, [op]).Some? <==> Insert(db, op).Some?
  {
    assert [op][1..] == [];
  }

  /** A batch stored as 1 under the code of document batch 5, and a new batch 6, both mapped onto 7: the plan has no errors
      and is carried out, batch 6 gets the id 7, and planning again finds batch 5 in conflict with it. */
  lemma MappedIdMayBeTaken() returns (db: Db, m: Mapping, doc: Doc)
    ensures CodesOk(db) && Clean(db, m, doc) && PlannedOps(db, m, doc) == [InsertBatch(7, Batch("new", ""))]
    ensures Apply(db, PlannedOps(db, m, doc)).Some? && !BatchIdsStayFree(db, m, doc)
    ensures !Clean(Apply(db, PlannedOps(db, m, doc)).value, m, doc)
  {
    db := EMPTY_DB.(batches := map[1 := Batch("old", "")], codes := map["old" := 1]);
    m := NO_MAPPING.(batches := map[5 := 7, 6 := 7]);
    var b, c := BatchDoc(5, Batch("old", "")), BatchDoc(6, Batch("new", ""));
    doc := Doc([], [], [], [b, c], []);
    OldAndNew(db, m, b, c);
    hide PlanBatch, Insert, CodesOk, FoundElsewhere;
    TwoBatches(db, m, doc, b, c);
    AcceptOne(db, InsertBatch(7, Batch("new", "")));
    hide Clean, PlannedOps, Apply;
    SharedIdIsNoticed(db, m, doc, b, c);
  }

  lemma SharedIdIsNoticed(db: Db, m: Mapping, doc: Doc, b: BatchDoc, c: BatchDoc)
    requires CodesOk(db) && Clean(db, m, doc) && Apply(db, PlannedOps(db, m, doc)).Some?
    requires b in doc.batches && c in doc.batches && FoundElsewhere(db, m, b) && PlanBatch(db, m, c).New?
    requires Remap(m.batches, b.id) == Remap(m.batches, c.id)
    ensures !BatchIdsStayFree(db, m, doc) && !Clean(Apply(db, PlannedOps(db, m, doc)).value, m, doc)
  {
    hide PlanBatch, CodesOk, FoundElsewhere, Clean, PlannedOps, Apply;
    ImportIsIdempotent(db, m, doc);
  }

  lemma OldAndNew(db: Db, m: Mapping, b: BatchDoc, c: BatchDoc)
    requires db == EMPTY_DB.(batches := map[1 := Batch("old", "")], codes := map["old" := 1])
    requires m == NO_MAPPING.(batches := map[5 := 7, 6 := 7])
    requires b == BatchDoc(5, Batch("old", "")) && c == BatchDoc(6, Batch("new", ""))
    ensures PlanBatch(db, m, b).Same? && PlanBatch(db, m, c) == New(InsertBatch(7, Batch("new", "")))
    ensures FoundElsewhere(db, m, b) && Insert(db, InsertBatch(7, Batch("new", ""))).Some? && CodesOk(db)
  {
  }

  lemma TwoBatches(db: Db, m: Mapping, doc: Doc, b: BatchDoc, c: BatchDoc)
    requires doc == Doc([], [], [], [b, c], []) && PlanBatch(db, m, b).Same? && PlanBatch(db, m, c).New?
    requires m == NO_MAPPING.(batches := m.batches) && forall i <- m.batches :: i == b.id || i == c.id
    ensures Clean(db, m, doc) && PlannedOps(db, m, doc) == [PlanBatch(db, m, c).op]
  {
    hide PlanBatch;
    var vs := BatchVerdicts(db, m, doc);
    assert vs == [PlanBatch(db, m, b), PlanBatch(db, m, c)];
    assert vs[..1] == [PlanBatch(db, m, b)];
    CollectOne(PlanBatch(db, m, b));
    assert b in doc.batches && c in doc.batches;
    assert KindOps(db, m, doc, BatchKind) == [PlanBatch(db, m, c).op];
    assert ActionVerdicts(db, m, doc) == [];
  }

  /** A review numbered zero: the plan has no errors and is carried out, the review is written as the first of its
      version, and planning again finds it in conflict with what was written. */
  lemma ZeroNumberIsNoticed() returns (db: Db, m: Mapping, doc: Doc)
    ensures CodesOk(db) && Clean(db, m, doc) && BatchIdsStayFree(db, m, doc) && Apply(db, PlannedOps(db, m, doc)).Some?
    ensures !ReviewsNumbered(db, m, doc) && !Clean(Apply(db, PlannedOps(db, m, doc)).value, m, doc)
  {
    db := EMPTY_DB.(tasks := {1}, versions := map[2 := 1]);
    m := NO_MAPPING;
    var r := ReviewDoc(3, Review(2, 0, None, None, None, ""));
    var t := TaskDoc(1, [], [], [r]);
    doc := Doc([t], [], [], [], []);
    ZeroIsInserted(db, m, doc, t, r);
    OneReview(db, m, doc, t, r);
    NoBatchesNoTrouble(db, m, doc);
    hide Clean, PlannedOps, PlanReview, Insert, CodesOk, BatchIdsStayFree;
    AcceptOne(db, PlanReview(db, m, doc, t, r).op);
    assert t in doc.tasks && r in t.reviews && !ReviewsNumbered(db, m, doc);
    hide Apply, ReviewsNumbered;
    ImportIsIdempotent(db, m, doc);
  }

  lemma NoBatchesNoTrouble(db: Db, m: Mapping, doc: Doc)
    requires db.batches == map[] && db.codes == map[] && doc.batches == []
    ensures CodesOk(db) && BatchIdsStayFree(db, m, doc)
  {
  }

  lemma ZeroIsInserted(db: Db, m: Mapping, doc: Doc, t: TaskDoc, r: ReviewDoc)
    requires db == EMPTY_DB.(tasks := {1}, versions := map[2 := 1]) && m == NO_MAPPING && t == TaskDoc(1, [], [], [r])
    requires r == ReviewDoc(3, Review(2, 0, None, None, None, ""))
    ensures PlanReview(db, m, doc, t, r) == New(InsertReview(3, r.row)) && Insert(db, InsertReview(3, r.row)).Some?
  {
  }

  lemma OneReview(db: Db, m: Mapping, doc: Doc, t: TaskDoc, r: ReviewDoc)
    requires doc == Doc([t], [], [], [], []) && t == TaskDoc(t.id, [], [], [r]) && PlanReview(db, m, doc, t, r).New?
    requires t.id in db.tasks && m == NO_MAPPING.(actions := m.actions)
    ensures Clean(db, m, doc) && PlannedOps(db, m, doc) == [PlanReview(db, m, doc, t, r).op]
  {
    hide PlanReview;
    assert InOrder([r]) == [r];
    var v := PlanReview(db, m, doc, t, r);
    assert ReviewVerdicts(db, m, doc, t) == [v];
    CollectOne(v);
    assert doc.tasks[..0] == [];
    forall k: Kind
      ensures TaskOps(db, m, doc, doc.tasks, k) == if k.ReviewKind? then [v.op] else []
      ensures NoneWrong(TaskVerdicts(db, m, doc, t, k)) && DocVerdicts(db, m, doc, k) == []
    {
      assert TaskVerdicts(db, m, doc, t, k) == if k.ReviewKind? then [v] else [];
    }
    hide TaskOps, TaskVerdicts, DocVerdicts;
    forall k: Kind ensures KindOps(db, m, doc, k) == if k.ReviewKind? then [v.op] else [] {}
  }
}
