/** References in a metadata import: when every planned row refers to rows that are there by its turn. */
module ImportReferences {
  import opened Common
  import opened ImportPlan
  import opened ImportApply

  lemma {:induction false} RefsSplit(db: Db, before: seq<Op>, xs: seq<Op>, ys: seq<Op>)
    ensures AllRefsFound(db, before, xs + ys) <==> AllRefsFound(db, before, xs) && AllRefsFound(db, before + xs, ys)
    decreases |xs|
  {
    hide RefsFound;
    if xs == [] {
      assert xs + ys == ys && before + xs == before;
    } else {
      assert (xs + ys)[0] == xs[0] && (xs + ys)[1..] == xs[1..] + ys;
      assert before + [xs[0]] + xs[1..] == before + xs;
      RefsSplit(db, before + [xs[0]], xs[1..], ys);
    }
  }

  /** The rows to insert for a list of records refer to what is there when their turn comes. */
  lemma {:induction false} RefsOfCollected(db: Db, before: seq<Op>, vs: seq<Verdict>)
    ensures AllRefsFound(db, before, Collect(vs)) <==>
            forall i :: 0 <= i < |vs| && vs[i].New? ==> RefsFound(db, before + Collect(vs[..i]), vs[i].op)
  {
    hide RefsFound, AllRefsFound;
    if vs == [] {
      NoRefs(db, before);
    } else {
      var n := |vs| - 1;
      var front := vs[..n];
      CollectLast(vs);
      hide Collect;
      RefsOfCollected(db, before, front);
      forall i | 0 <= i < n ensures front[..i] == vs[..i] && front[i] == vs[i] {}
      if vs[n].New? {
        RefsSplit(db, before, Collect(front), [vs[n].op]);
        OneRef(db, before + Collect(front), vs[n].op);
      }
    }
  }

  lemma CollectLast(vs: seq<Verdict>)
    requires vs != []
    ensures var n := |vs| - 1; Collect(vs) == if vs[n].New? then Collect(vs[..n]) + [vs[n].op] else Collect(vs[..n])
  {
    assert Collect(vs[..|vs| - 1]) + [] == Collect(vs[..|vs| - 1]);
  }

  lemma NoRefs(db: Db, before: seq<Op>)
    ensures AllRefsFound(db, before, [])
  {
  }

  lemma OneRef(db: Db, before: seq<Op>, op: Op)
    ensures AllRefsFound(db, before, [op]) <==> RefsFound(db, before, op)
  {
    hide RefsFound;
    assert [op][1..] == [];
  }

  /* what the structural checks of the document guarantee */

  ghost predicate IdsDiffer(rs: seq<ReviewDoc>) {
    forall i, j :: 0 <= i < j < |rs| ==> rs[i].id != rs[j].id
  }

  /** Ids are unique per kind, a batch that a source names by id is in the document unless it carries no batches, and so
      is a review's predecessor. */
  ghost predicate WellFormed(doc: Doc) {
    && (forall i, j :: 0 <= i < j < |doc.tasks| ==> doc.tasks[i].id != doc.tasks[j].id)
    && (forall t <- doc.tasks :: IdsDiffer(t.reviews))
    && (forall s, t :: s in doc.tasks && t in doc.tasks && s != t ==>
          forall r <- s.reviews, q <- t.reviews :: r.id != q.id)
    && (forall t <- doc.tasks, r <- t.reviews ::
          r.row.previous.Some? ==> exists u <- doc.tasks :: HasReview(u, r.row.previous.value))
    && (forall t <- doc.tasks, s <- t.sources ::
          doc.batches != [] && s.batch.Some? ==> exists b <- doc.batches :: b.id == s.batch.value)
  }

  /** No two reviews of the document are mapped onto one. */
  ghost predicate ReviewIdsStayApart(m: Mapping, doc: Doc) {
    forall s, t :: s in doc.tasks && t in doc.tasks ==>
      forall r <- s.reviews, q <- t.reviews :: Remap(m.reviews, r.id) == Remap(m.reviews, q.id) ==> r.id == q.id
  }

  /* when the references are found */

  /** A batch that only the mapping explains must exist. */
  predicate BatchKnown(db: Db, m: Mapping, doc: Doc, s: SourceDoc) {
    doc.batches == [] && s.batch.Some? && s.batch.value in m.batches ==> m.batches[s.batch.value] in db.batches
  }

  /** An admin action that only the mapping names must exist. */
  predicate ActionKnown(db: Db, m: Mapping, doc: Doc, r: ReviewDoc) {
    r.row.action.Some? && doc.actions == [] && r.row.action.value in m.actions ==>
      m.actions[r.row.action.value] in db.actions
  }

  /** A predecessor that is not in the database comes first in the order of numbers. */
  predicate PreviousComesFirst(db: Db, m: Mapping, t: TaskDoc, r: ReviewDoc) {
    r.row.previous.Some? && Remap(m.reviews, r.row.previous.value) !in db.reviews ==>
      exists q <- t.reviews :: q.id == r.row.previous.value && !Precedes(r, q)
  }

  predicate BatchPlanned(db: Db, m: Mapping, doc: Doc, id: Id) {
    exists b <- doc.batches :: PlanBatch(db, m, b).New? && Remap(m.batches, b.id) == id
  }

  predicate ActionIsPlanned(db: Db, m: Mapping, doc: Doc, id: Id) {
    exists a <- doc.actions :: PlanAction(db, m, a).New? && Remap(m.actions, a.id) == id
  }

  lemma ListedBatchIsThere(db: Db, m: Mapping, doc: Doc, b: BatchDoc)
    requires CodesOk(db) && NothingWrong(db, m, doc) && b in doc.batches
    ensures BatchTarget(db, m, b) in db.batches || BatchPlanned(db, m, doc, BatchTarget(db, m, b))
  {
    NotWrong(db, m, doc, b);
    hide NothingWrong;
  }

  lemma SourceRefs(db: Db, m: Mapping, doc: Doc, t: TaskDoc, s: SourceDoc, before: seq<Op>)
    requires Clean(db, m, doc) && CodesOk(db) && WellFormed(doc) && t in doc.tasks && s in t.sources
    requires PlanSource(db, m, doc, t, s).New?
    requires forall i :: BatchInserted(before, i) <==> BatchPlanned(db, m, doc, i)
    ensures RefsFound(db, before, PlanSource(db, m, doc, t, s).op) <==> BatchKnown(db, m, doc, s)
  {
    var batch := ResolveBatch(db, m, doc, s).value;
    assert Remap(m.tasks, t.id) in db.tasks;
    BatchIsThere(db, m, doc, t, s);
    hide Clean, CodesOk, WellFormed, PlanBatch, BatchPlanned, ResolveBatch, BatchKnown;
  }

  /** Only a batch that is named by id and explained by the mapping alone can be missing. */
  lemma BatchIsThere(db: Db, m: Mapping, doc: Doc, t: TaskDoc, s: SourceDoc)
    requires Clean(db, m, doc) && CodesOk(db) && WellFormed(doc) && t in doc.tasks && s in t.sources
    requires ResolveBatch(db, m, doc, s).Some?
    ensures var batch := ResolveBatch(db, m, doc, s).value;
            batch in db.batches || BatchPlanned(db, m, doc, batch) <==> BatchKnown(db, m, doc, s)
  {
    if s.batch.Some? && FindBatch(doc.batches, s.batch.value).Some? {
      ListedBatchIsThere(db, m, doc, FindBatch(doc.batches, s.batch.value).value);
    } else if s.batch.Some? && s.batch.value in m.batches {
      assert doc.batches == [];
      assert !BatchPlanned(db, m, doc, m.batches[s.batch.value]);
    } else if s.code.Some? && FindCode(doc.batches, s.code.value).Some? {
      ListedBatchIsThere(db, m, doc, FindCode(doc.batches, s.code.value).value);
    }
    hide Clean, WellFormed, PlanBatch, BatchPlanned;
  }

  ghost predicate SourcesKnown(db: Db, m: Mapping, doc: Doc, tasks: seq<TaskDoc>) {
    forall t <- tasks :: TaskSourcesKnown(db, m, doc, t)
  }

  /** References of all the sources, when the batches have been inserted. */
  lemma {:induction false} RefsOfSources(db: Db, m: Mapping, doc: Doc, tasks: seq<TaskDoc>, before: seq<Op>)
    requires Clean(db, m, doc) && CodesOk(db) && WellFormed(doc) && tasks <= doc.tasks
    requires forall i :: BatchInserted(before, i) <==> BatchPlanned(db, m, doc, i)
    ensures AllRefsFound(db, before, TaskOps(db, m, doc, tasks, SourceKind)) <==> SourcesKnown(db, m, doc, tasks)
    ensures forall i :: BatchInserted(before + TaskOps(db, m, doc, tasks, SourceKind), i) <==> BatchPlanned(db, m, doc, i)
    decreases |tasks|
  {
    hide Clean, CodesOk, WellFormed, RefsFound, BatchPlanned, BatchInserted, BatchKnown, PlanSource, Collect, AllRefsFound;
    if tasks == [] {
      assert before + [] == before;
      assert AllRefsFound(db, before, []) by { NoRefs(db, before); }
    } else {
      var n := |tasks| - 1;
      var earlier, vs := TaskOps(db, m, doc, tasks[..n], SourceKind), SourceVerdicts(db, m, doc, tasks[n]);
      assert TaskOps(db, m, doc, tasks, SourceKind) == earlier + Collect(vs);
      assert tasks[n] == doc.tasks[n];
      RefsOfSources(db, m, doc, tasks[..n], before);
      hide TaskOps, TaskVerdicts, SourceVerdicts;
      RefsSplit(db, before, earlier, Collect(vs));
      RefsOfTaskSources(db, m, doc, tasks[n], before + earlier);
      assert before + earlier + Collect(vs) == before + TaskOps(db, m, doc, tasks, SourceKind);
      KnownLast(db, m, doc, tasks);
      hide SourcesKnown;
    }
  }

  ghost predicate TaskSourcesKnown(db: Db, m: Mapping, doc: Doc, t: TaskDoc) {
    forall s <- t.sources :: PlanSource(db, m, doc, t, s).New? ==> BatchKnown(db, m, doc, s)
  }

  lemma KnownLast(db: Db, m: Mapping, doc: Doc, tasks: seq<TaskDoc>)
    requires tasks != []
    ensures var n := |tasks| - 1;
            SourcesKnown(db, m, doc, tasks) <==>
            SourcesKnown(db, m, doc, tasks[..n]) && TaskSourcesKnown(db, m, doc, tasks[n])
  {
    hide TaskSourcesKnown;
    var n := |tasks| - 1;
    assert forall t :: t in tasks <==> t in tasks[..n] || t == tasks[n];
  }

  lemma RefsOfTaskSources(db: Db, m: Mapping, doc: Doc, t: TaskDoc, before: seq<Op>)
    requires Clean(db, m, doc) && CodesOk(db) && WellFormed(doc) && t in doc.tasks
    requires forall i :: BatchInserted(before, i) <==> BatchPlanned(db, m, doc, i)
    ensures AllRefsFound(db, before, Collect(SourceVerdicts(db, m, doc, t))) <==>
            TaskSourcesKnown(db, m, doc, t)
    ensures forall i :: BatchInserted(before + Collect(SourceVerdicts(db, m, doc, t)), i) <==> BatchPlanned(db, m, doc, i)
  {
    hide Clean, CodesOk, WellFormed, RefsFound, BatchPlanned, BatchKnown, PlanSource;
    var vs := SourceVerdicts(db, m, doc, t);
    RefsOfCollected(db, before, vs);
    forall i | 0 <= i < |vs| && vs[i].New?
      ensures RefsFound(db, before + Collect(vs[..i]), vs[i].op) <==> BatchKnown(db, m, doc, t.sources[i])
    {
      SourcesInsertNoBatch(db, m, doc, t, i, before);
      SourceRefs(db, m, doc, t, t.sources[i], before + Collect(vs[..i]));
    }
    SourcesInsertNoBatch(db, m, doc, t, |vs|, before);
    assert vs[..|vs|] == vs;
  }

  lemma SourcesInsertNoBatch(db: Db, m: Mapping, doc: Doc, t: TaskDoc, n: nat, before: seq<Op>)
    requires n <= |t.sources|
    ensures forall i :: BatchInserted(before + Collect(SourceVerdicts(db, m, doc, t)[..n]), i) <==> BatchInserted(before, i)
  {
    var vs := SourceVerdicts(db, m, doc, t)[..n];
    forall op | op in Collect(vs) ensures !op.InsertBatch? {
      Collected(vs, op);
      var k :| 0 <= k < |vs| && vs[k] == New(op);
      assert vs[k] == PlanSource(db, m, doc, t, t.sources[k]);
    }
  }

  /* reviews */

  ghost predicate Ascends(rs: seq<ReviewDoc>) {
    forall i, j :: 0 <= i < j < |rs| ==> Precedes(rs[i], rs[j])
  }

  lemma {:induction false} InsertSortedSorts(rs: seq<ReviewDoc>, r: ReviewDoc)
    requires Ascends(rs) && forall q <- rs :: q.id != r.id
    ensures Ascends(InsertSorted(rs, r))
  {
    var out := InsertSorted(rs, r);
    if rs == [] {
    } else if !Precedes(rs[0], r) {
      assert rs[0] in rs && Precedes(r, rs[0]);
      forall i, j | 0 <= i < j < |out| ensures Precedes(out[i], out[j]) {
        if i == 0 && j > 1 { assert Precedes(rs[0], rs[j - 1]); }
      }
    } else {
      assert forall q <- rs[1..] :: q in rs;
      InsertSortedSorts(rs[1..], r);
      var tail := InsertSorted(rs[1..], r);
      forall i, j | 0 <= i < j < |out| ensures Precedes(out[i], out[j]) {
        if i == 0 {
          assert out[j] == tail[j - 1] && tail[j - 1] in tail;
          if out[j] != r { var k :| 0 <= k < |rs[1..]| && rs[1..][k] == out[j]; assert Precedes(rs[0], rs[k + 1]); }
        } else {
          assert Precedes(tail[i - 1], tail[j - 1]);
        }
      }
    }
  }

  lemma {:induction false} InOrderSorts(rs: seq<ReviewDoc>)
    requires IdsDiffer(rs)
    ensures Ascends(InOrder(rs))
  {
    if rs != [] {
      InOrderSorts(rs[1..]);
      forall q | q in InOrder(rs[1..]) ensures q.id != rs[0].id {
        var k :| 0 <= k < |rs[1..]| && rs[1..][k] == q;
        assert rs[k + 1] == q;
      }
      InsertSortedSorts(InOrder(rs[1..]), rs[0]);
    }
  }

  lemma PrecedesIsPosition(rs: seq<ReviewDoc>, i: nat, j: nat)
    requires IdsDiffer(rs) && i < |InOrder(rs)| && j < |InOrder(rs)|
    ensures !Precedes(InOrder(rs)[i], InOrder(rs)[j]) <==> j <= i
  {
    InOrderSorts(rs);
  }

  /** The reviews of one task that are inserted before its i-th. */
  lemma InsertedInTask(db: Db, m: Mapping, doc: Doc, t: TaskDoc, i: nat, x: Id)
    requires i <= |InOrder(t.reviews)|
    ensures ReviewInserted(Collect(ReviewVerdicts(db, m, doc, t)[..i]), x) <==>
            exists j :: 0 <= j < i && ReviewVerdicts(db, m, doc, t)[j].New? && Remap(m.reviews, InOrder(t.reviews)[j].id) == x
  {
    var vs := ReviewVerdicts(db, m, doc, t)[..i];
    hide ReviewRefsFound, MappedReview, Collect, InOrder;
    if ReviewInserted(Collect(vs), x) {
      var op :| op in Collect(vs) && InsertsReview(op, x);
      Collected(vs, op);
      var j :| 0 <= j < |vs| && vs[j] == New(op);
    }
    if j :| 0 <= j < i && ReviewVerdicts(db, m, doc, t)[j].New? && Remap(m.reviews, InOrder(t.reviews)[j].id) == x {
      Collected(vs, vs[j].op);
      assert vs[j] in vs && InsertsReview(vs[j].op, x);
    }
  }

  lemma InsertedInTasks(db: Db, m: Mapping, doc: Doc, tasks: seq<TaskDoc>, x: Id)
    requires ReviewInserted(TaskOps(db, m, doc, tasks, ReviewKind), x)
    ensures exists t <- tasks, q <- t.reviews :: Remap(m.reviews, q.id) == x
  {
    hide ReviewRefsFound, MappedReview, Collect, TaskOps;
    var op :| op in TaskOps(db, m, doc, tasks, ReviewKind) && InsertsReview(op, x);
    CollectedTasks(db, m, doc, tasks, ReviewKind, op);
    var t :| t in tasks && New(op) in ReviewVerdicts(db, m, doc, t);
    var vs := ReviewVerdicts(db, m, doc, t);
    var j :| 0 <= j < |vs| && vs[j] == New(op);
    assert InOrder(t.reviews)[j] in t.reviews;
  }

  lemma ActionRef(db: Db, m: Mapping, doc: Doc, t: TaskDoc, r: ReviewDoc)
    requires Clean(db, m, doc) && t in doc.tasks && r in t.reviews && PlanReview(db, m, doc, t, r).New?
    requires r.row.action.Some?
    ensures var a := Remap(m.actions, r.row.action.value);
            a in db.actions || ActionIsPlanned(db, m, doc, a) <==> ActionKnown(db, m, doc, r)
  {
    assert MappingPresent(m, doc) && ReviewRefsFound(db, m, doc, t, r.row);
    var id := r.row.action.value;
    if d :| d in doc.actions && d.id == id {
      ActionNotWrong(db, m, doc, d);
    }
    hide Clean, PlanReview;
  }

  lemma ActionNotWrong(db: Db, m: Mapping, doc: Doc, a: ActionDoc)
    requires NothingWrong(db, m, doc) && a in doc.actions
    ensures !PlanAction(db, m, a).Wrong?
  {
    assert NoneWrong(DocVerdicts(db, m, doc, ActionKind));
    hide PlanAction, NothingWrong;
    var i :| 0 <= i < |doc.actions| && doc.actions[i] == a;
    assert ActionVerdicts(db, m, doc)[i] in ActionVerdicts(db, m, doc);
  }

  /** The predecessor of a task's i-th review is there in time exactly when it comes first in the order of numbers. */
  lemma PreviousRef(db: Db, m: Mapping, doc: Doc, k: nat, i: nat)
    requires Clean(db, m, doc) && WellFormed(doc) && ReviewIdsStayApart(m, doc)
    requires k < |doc.tasks| && i < |InOrder(doc.tasks[k].reviews)|
    requires PlanReview(db, m, doc, doc.tasks[k], InOrder(doc.tasks[k].reviews)[i]).New?
    ensures var t := doc.tasks[k];
            var r := InOrder(t.reviews)[i];
            r.row.previous.Some? ==>
              var x := Remap(m.reviews, r.row.previous.value);
              (x == Remap(m.reviews, r.id) || x in db.reviews || ReviewInserted(TaskOps(db, m, doc, doc.tasks[..k], ReviewKind), x)
               || ReviewInserted(Collect(ReviewVerdicts(db, m, doc, t)[..i]), x))
              <==> PreviousComesFirst(db, m, t, r)
  {
    hide Collect, TaskOps, ReviewVerdicts, InOrder, ReviewIdsStayApart, ReviewInserted;
    var t := doc.tasks[k];
    var rs := InOrder(t.reviews);
    var r := rs[i];
    assert r in rs && r in t.reviews && t in doc.tasks && IdsDiffer(t.reviews);
    if r.row.previous.Some? && Remap(m.reviews, r.row.previous.value) !in db.reviews {
      var p := r.row.previous.value;
      var x := Remap(m.reviews, p);
      assert HasReview(t, p);
      var q :| q in t.reviews && q.id == p;
      assert q in rs;
      var j :| 0 <= j < |rs| && rs[j] == q;
      NotInOtherTasks(db, m, doc, k, q);
      InsertedInTask(db, m, doc, t, i, x);
      PrecedesIsPosition(t.reviews, i, j);
      SameIdSameReview(t.reviews, q);
      PreviousByPosition(db, m, doc, t, i, j, x);
    }
  }

  lemma SameIdSameReview(rs: seq<ReviewDoc>, q: ReviewDoc)
    requires IdsDiffer(rs) && q in rs
    ensures forall r <- rs :: r.id == q.id ==> r == q
  {
  }

  lemma PreviousByPosition(db: Db, m: Mapping, doc: Doc, t: TaskDoc, i: nat, j: nat, x: Id)
    requires NothingWrong(db, m, doc) && ReviewIdsStayApart(m, doc) && t in doc.tasks && IdsDiffer(t.reviews)
    requires i < |InOrder(t.reviews)| && j < |InOrder(t.reviews)|
    requires Remap(m.reviews, InOrder(t.reviews)[j].id) == x && x !in db.reviews
    ensures (exists n :: 0 <= n < i && ReviewVerdicts(db, m, doc, t)[n].New?
                         && Remap(m.reviews, InOrder(t.reviews)[n].id) == x) <==> j < i
    ensures x == Remap(m.reviews, InOrder(t.reviews)[i].id) <==> j == i
  {
    var rs := InOrder(t.reviews);
    forall n | 0 <= n < |rs| && Remap(m.reviews, rs[n].id) == x ensures n == j {
      assert rs[n] in t.reviews && rs[j] in t.reviews;
      InOrderSorts(t.reviews);
      if n < j { assert Precedes(rs[n], rs[j]); }
      if j < n { assert Precedes(rs[j], rs[n]); }
      SameIdSameReview(t.reviews, rs[j]);
    }
    assert rs[j] in t.reviews;
    ReviewNotWrong(db, m, doc, t, rs[j]);
    assert ReviewVerdicts(db, m, doc, t)[j].New?;
  }

  lemma NotInOtherTasks(db: Db, m: Mapping, doc: Doc, k: nat, q: ReviewDoc)
    requires WellFormed(doc) && ReviewIdsStayApart(m, doc) && k < |doc.tasks| && q in doc.tasks[k].reviews
    ensures !ReviewInserted(TaskOps(db, m, doc, doc.tasks[..k], ReviewKind), Remap(m.reviews, q.id))
  {
    var x := Remap(m.reviews, q.id);
    forall s, r | s in doc.tasks[..k] && r in s.reviews ensures Remap(m.reviews, r.id) != x {
      var n :| 0 <= n < k && doc.tasks[n] == s;
      OtherTask(m, doc, n, k, r, q);
    }
    if ReviewInserted(TaskOps(db, m, doc, doc.tasks[..k], ReviewKind), x) { InsertedInTasks(db, m, doc, doc.tasks[..k], x); }
  }

  lemma OtherTask(m: Mapping, doc: Doc, n: nat, k: nat, r: ReviewDoc, q: ReviewDoc)
    requires WellFormed(doc) && ReviewIdsStayApart(m, doc) && n < k < |doc.tasks|
    requires r in doc.tasks[n].reviews && q in doc.tasks[k].reviews
    ensures Remap(m.reviews, r.id) != Remap(m.reviews, q.id)
  {
    assert doc.tasks[n] in doc.tasks && doc.tasks[k] in doc.tasks && doc.tasks[n] != doc.tasks[k];
  }

  /** What stands before the reviews: the actions to insert, and no review. */
  ghost predicate BeforeReviews(db: Db, m: Mapping, doc: Doc, past: seq<Op>) {
    && (forall x :: ActionInserted(past, x) <==> ActionIsPlanned(db, m, doc, x))
    && (forall x :: !ReviewInserted(past, x))
  }

  lemma InsertedEither(xs: seq<Op>, ys: seq<Op>, x: Id)
    ensures ReviewInserted(xs + ys, x) <==> ReviewInserted(xs, x) || ReviewInserted(ys, x)
    ensures ActionInserted(xs + ys, x) <==> ActionInserted(xs, x) || ActionInserted(ys, x)
    ensures BatchInserted(xs + ys, x) <==> BatchInserted(xs, x) || BatchInserted(ys, x)
  {
    assert forall o :: o in xs + ys <==> o in xs || o in ys;
  }

  lemma ReviewsInsertNoAction(db: Db, m: Mapping, doc: Doc, k: nat, i: nat, x: Id)
    requires k < |doc.tasks| && i <= |InOrder(doc.tasks[k].reviews)|
    ensures !ActionInserted(TaskOps(db, m, doc, doc.tasks[..k], ReviewKind), x)
    ensures !ActionInserted(Collect(ReviewVerdicts(db, m, doc, doc.tasks[k])[..i]), x)
  {
    hide Collect, TaskOps, ReviewRefsFound, MappedReview, InOrder;
    forall o | o in TaskOps(db, m, doc, doc.tasks[..k], ReviewKind) ensures !InsertsAction(o, x) {
      CollectedTasks(db, m, doc, doc.tasks[..k], ReviewKind, o);
    }
    forall o | o in Collect(ReviewVerdicts(db, m, doc, doc.tasks[k])[..i]) ensures !InsertsAction(o, x) {
      Collected(ReviewVerdicts(db, m, doc, doc.tasks[k])[..i], o);
    }
  }

  ghost predicate ReviewKnown(db: Db, m: Mapping, doc: Doc, t: TaskDoc, r: ReviewDoc) {
    ActionKnown(db, m, doc, r) && PreviousComesFirst(db, m, t, r)
  }

  lemma ReviewRefs(db: Db, m: Mapping, doc: Doc, past: seq<Op>, k: nat, i: nat)
    requires Clean(db, m, doc) && WellFormed(doc) && ReviewIdsStayApart(m, doc) && BeforeReviews(db, m, doc, past)
    requires k < |doc.tasks| && i < |InOrder(doc.tasks[k].reviews)|
    requires PlanReview(db, m, doc, doc.tasks[k], InOrder(doc.tasks[k].reviews)[i]).New?
    ensures var t := doc.tasks[k];
            var r := InOrder(t.reviews)[i];
            RefsFound(db, past + TaskOps(db, m, doc, doc.tasks[..k], ReviewKind) + Collect(ReviewVerdicts(db, m, doc, t)[..i]),
                      PlanReview(db, m, doc, t, r).op)
            <==> ReviewKnown(db, m, doc, t, r)
  {
    var t := doc.tasks[k];
    var r := InOrder(t.reviews)[i];
    assert r in InOrder(t.reviews) && r in t.reviews && t in doc.tasks;
    NewReviewIs(db, m, doc, t, r);
    hide Clean, WellFormed, ReviewIdsStayApart, TaskOps, Collect, ActionKnown, PreviousComesFirst, BeforeReviews, PlanReview;
    hide InOrder, ReviewVerdicts, TaskVerdicts, ActionInserted, ReviewInserted, ReviewRefsFound, ActionIsPlanned, HasReview;
    if r.row.action.Some? { FindsAction(db, m, doc, past, k, i); }
    if r.row.previous.Some? { FindsPrevious(db, m, doc, past, k, i); }
    NothingToFind(db, m, doc, t, r);
  }

  lemma NewReviewIs(db: Db, m: Mapping, doc: Doc, t: TaskDoc, r: ReviewDoc)
    requires PlanReview(db, m, doc, t, r).New?
    ensures PlanReview(db, m, doc, t, r).op == InsertReview(Remap(m.reviews, r.id), MappedReview(m, r.row))
    ensures Remap(m.versions, r.row.version) in db.versions
    ensures r.row.user.Some? ==> Remap(m.users, r.row.user.value) in db.users
  {
    hide HasReview, ActionPlanned;
  }

  lemma FindsAction(db: Db, m: Mapping, doc: Doc, past: seq<Op>, k: nat, i: nat)
    requires Clean(db, m, doc) && BeforeReviews(db, m, doc, past)
    requires k < |doc.tasks| && i < |InOrder(doc.tasks[k].reviews)|
    requires PlanReview(db, m, doc, doc.tasks[k], InOrder(doc.tasks[k].reviews)[i]).New?
    requires InOrder(doc.tasks[k].reviews)[i].row.action.Some?
    ensures var t := doc.tasks[k];
            var r := InOrder(t.reviews)[i];
            var x := Remap(m.actions, r.row.action.value);
            var before := past + TaskOps(db, m, doc, doc.tasks[..k], ReviewKind) + Collect(ReviewVerdicts(db, m, doc, t)[..i]);
            x in db.actions || ActionInserted(before, x) <==> ActionKnown(db, m, doc, r)
  {
    var t := doc.tasks[k];
    var r := InOrder(t.reviews)[i];
    assert r in InOrder(t.reviews) && r in t.reviews && t in doc.tasks;
    var earlier, here := TaskOps(db, m, doc, doc.tasks[..k], ReviewKind), Collect(ReviewVerdicts(db, m, doc, t)[..i]);
    var x := Remap(m.actions, r.row.action.value);
    hide Clean, TaskOps, Collect, ActionKnown, ActionIsPlanned, InOrder, ReviewVerdicts, ActionInserted, ReviewInserted;
    hide PlanReview;
    ActionRef(db, m, doc, t, r);
    InsertedEither(past + earlier, here, x);
    InsertedEither(past, earlier, x);
    ReviewsInsertNoAction(db, m, doc, k, i, x);
  }

  lemma FindsPrevious(db: Db, m: Mapping, doc: Doc, past: seq<Op>, k: nat, i: nat)
    requires Clean(db, m, doc) && WellFormed(doc) && ReviewIdsStayApart(m, doc) && BeforeReviews(db, m, doc, past)
    requires k < |doc.tasks| && i < |InOrder(doc.tasks[k].reviews)|
    requires PlanReview(db, m, doc, doc.tasks[k], InOrder(doc.tasks[k].reviews)[i]).New?
    requires InOrder(doc.tasks[k].reviews)[i].row.previous.Some?
    ensures var t := doc.tasks[k];
            var r := InOrder(t.reviews)[i];
            var x := Remap(m.reviews, r.row.previous.value);
            var before := past + TaskOps(db, m, doc, doc.tasks[..k], ReviewKind) + Collect(ReviewVerdicts(db, m, doc, t)[..i]);
            x == Remap(m.reviews, r.id) || x in db.reviews || ReviewInserted(before, x)
            <==> PreviousComesFirst(db, m, t, r)
  {
    var t := doc.tasks[k];
    var r := InOrder(t.reviews)[i];
    var earlier, here := TaskOps(db, m, doc, doc.tasks[..k], ReviewKind), Collect(ReviewVerdicts(db, m, doc, t)[..i]);
    var x := Remap(m.reviews, r.row.previous.value);
    hide Clean, WellFormed, ReviewIdsStayApart, TaskOps, Collect, PreviousComesFirst, InOrder, ReviewVerdicts;
    hide ActionInserted, ReviewInserted, HasReview, PlanReview;
    PreviousRef(db, m, doc, k, i);
    InsertedEither(past + earlier, here, x);
    InsertedEither(past, earlier, x);
  }

  lemma NothingToFind(db: Db, m: Mapping, doc: Doc, t: TaskDoc, r: ReviewDoc)
    ensures r.row.action.None? ==> ActionKnown(db, m, doc, r)
    ensures r.row.previous.None? ==> PreviousComesFirst(db, m, t, r)
  {
  }

  ghost predicate KnownIfNew(db: Db, m: Mapping, doc: Doc, t: TaskDoc, r: ReviewDoc) {
    PlanReview(db, m, doc, t, r).New? ==> ReviewKnown(db, m, doc, t, r)
  }

  ghost predicate TaskKnown(db: Db, m: Mapping, doc: Doc, t: TaskDoc) {
    forall r <- t.reviews :: KnownIfNew(db, m, doc, t, r)
  }

  lemma RefsOfTaskReviews(db: Db, m: Mapping, doc: Doc, past: seq<Op>, k: nat)
    requires Clean(db, m, doc) && WellFormed(doc) && ReviewIdsStayApart(m, doc) && BeforeReviews(db, m, doc, past)
    requires k < |doc.tasks|
    ensures AllRefsFound(db, past + TaskOps(db, m, doc, doc.tasks[..k], ReviewKind),
                         Collect(ReviewVerdicts(db, m, doc, doc.tasks[k]))) <==>
            TaskKnown(db, m, doc, doc.tasks[k])
  {
    var t := doc.tasks[k];
    var vs, rs, before := ReviewVerdicts(db, m, doc, t), InOrder(t.reviews), past + TaskOps(db, m, doc, doc.tasks[..k], ReviewKind);
    hide Clean, WellFormed, ReviewIdsStayApart, BeforeReviews, TaskOps, Collect, RefsFound, ReviewKnown, PlanReview;
    hide InOrder, AllRefsFound, TaskVerdicts;
    RefsOfCollected(db, before, vs);
    forall i | 0 <= i < |vs|
      ensures (vs[i].New? ==> RefsFound(db, before + Collect(vs[..i]), vs[i].op)) <==> KnownIfNew(db, m, doc, t, rs[i])
    {
      if vs[i].New? { ReviewRefs(db, m, doc, past, k, i); }
    }
    InOrderCovers(db, m, doc, t, rs);
    hide KnownIfNew, ReviewVerdicts, TaskKnown;
  }

  lemma InOrderCovers(db: Db, m: Mapping, doc: Doc, t: TaskDoc, rs: seq<ReviewDoc>)
    requires forall x :: x in rs <==> x in t.reviews
    ensures TaskKnown(db, m, doc, t) <==> forall i :: 0 <= i < |rs| ==> KnownIfNew(db, m, doc, t, rs[i])
  {
    hide KnownIfNew;
    if TaskKnown(db, m, doc, t) {
      forall i | 0 <= i < |rs| ensures KnownIfNew(db, m, doc, t, rs[i]) { assert rs[i] in rs; }
    } else {
      var r :| r in t.reviews && !KnownIfNew(db, m, doc, t, r);
      assert r in rs;
      var i :| 0 <= i < |rs| && rs[i] == r;
      assert !KnownIfNew(db, m, doc, t, rs[i]);
    }
  }

  ghost predicate KnownUpTo(db: Db, m: Mapping, doc: Doc, n: nat)
    requires n <= |doc.tasks|
  {
    forall k :: 0 <= k < n ==> TaskKnown(db, m, doc, doc.tasks[k])
  }

  lemma KnownOneMore(db: Db, m: Mapping, doc: Doc, n: nat)
    requires 0 < n <= |doc.tasks|
    ensures KnownUpTo(db, m, doc, n) <==> KnownUpTo(db, m, doc, n - 1) && TaskKnown(db, m, doc, doc.tasks[n - 1])
  {
    hide TaskKnown;
  }

  lemma {:induction false} RefsOfReviews(db: Db, m: Mapping, doc: Doc, past: seq<Op>, n: nat)
    requires Clean(db, m, doc) && WellFormed(doc) && ReviewIdsStayApart(m, doc) && BeforeReviews(db, m, doc, past)
    requires n <= |doc.tasks|
    ensures AllRefsFound(db, past, TaskOps(db, m, doc, doc.tasks[..n], ReviewKind)) <==> KnownUpTo(db, m, doc, n)
  {
    hide Clean, WellFormed, ReviewIdsStayApart, BeforeReviews, RefsFound, TaskKnown, Collect, AllRefsFound, ReviewVerdicts;
    if n == 0 {
      NoRefs(db, past);
    } else {
      ReviewsOfLast(db, m, doc, n);
      KnownOneMore(db, m, doc, n);
      hide TaskOps, KnownUpTo;
      RefsOfReviews(db, m, doc, past, n - 1);
      RefsOfTaskReviews(db, m, doc, past, n - 1);
      RefsSplit(db, past, TaskOps(db, m, doc, doc.tasks[..n - 1], ReviewKind),
                Collect(ReviewVerdicts(db, m, doc, doc.tasks[n - 1])));
    }
  }

  lemma ReviewsOfLast(db: Db, m: Mapping, doc: Doc, n: nat)
    requires 0 < n <= |doc.tasks|
    ensures TaskOps(db, m, doc, doc.tasks[..n], ReviewKind) ==
            TaskOps(db, m, doc, doc.tasks[..n - 1], ReviewKind) + Collect(ReviewVerdicts(db, m, doc, doc.tasks[n - 1]))
  {
    hide Collect, ReviewVerdicts;
    assert doc.tasks[..n][..n - 1] == doc.tasks[..n - 1];
  }

  lemma BatchesNeedNothing(db: Db, m: Mapping, doc: Doc)
    ensures AllRefsFound(db, [], Collect(BatchVerdicts(db, m, doc)))
  {
    hide Collect;
    var vs := BatchVerdicts(db, m, doc);
    RefsOfCollected(db, [], vs);
    forall i | 0 <= i < |vs| && vs[i].New? ensures RefsFound(db, [] + Collect(vs[..i]), vs[i].op) {}
  }

  lemma BatchesBefore(db: Db, m: Mapping, doc: Doc)
    ensures var b := Collect(BatchVerdicts(db, m, doc));
            && AllRefsFound(db, [], b)
            && (forall i :: BatchInserted(b, i) <==> BatchPlanned(db, m, doc, i))
            && (forall i :: !ActionInserted(b, i) && !ReviewInserted(b, i))
  {
    hide Collect;
    var vs := BatchVerdicts(db, m, doc);
    BatchesNeedNothing(db, m, doc);
    forall op ensures op in Collect(vs) <==> New(op) in vs { Collected(vs, op); }
    forall i ensures BatchInserted(Collect(vs), i) <==> BatchPlanned(db, m, doc, i) {
      if b :| b in doc.batches && PlanBatch(db, m, b).New? && Remap(m.batches, b.id) == i {
        var n :| 0 <= n < |doc.batches| && doc.batches[n] == b;
        assert vs[n] in vs && InsertsBatch(vs[n].op, i);
      }
    }
  }

  lemma ActionsNeedNothing(db: Db, m: Mapping, doc: Doc, before: seq<Op>)
    ensures AllRefsFound(db, before, Collect(ActionVerdicts(db, m, doc)))
  {
    hide Collect;
    var vs := ActionVerdicts(db, m, doc);
    RefsOfCollected(db, before, vs);
    forall i | 0 <= i < |vs| && vs[i].New? ensures RefsFound(db, before + Collect(vs[..i]), vs[i].op) {}
  }

  lemma ActionsInserted(db: Db, m: Mapping, doc: Doc, i: Id)
    ensures ActionInserted(Collect(ActionVerdicts(db, m, doc)), i) <==> ActionIsPlanned(db, m, doc, i)
    ensures !ReviewInserted(Collect(ActionVerdicts(db, m, doc)), i)
  {
    hide Collect;
    var vs := ActionVerdicts(db, m, doc);
    forall op ensures op in Collect(vs) <==> New(op) in vs { Collected(vs, op); }
    if a :| a in doc.actions && PlanAction(db, m, a).New? && Remap(m.actions, a.id) == i {
      var n :| 0 <= n < |doc.actions| && doc.actions[n] == a;
      assert vs[n] in vs && InsertsAction(vs[n].op, i);
    }
  }

  lemma SourcesInsertSourcesOnly(db: Db, m: Mapping, doc: Doc, i: Id)
    ensures !ActionInserted(TaskOps(db, m, doc, doc.tasks, SourceKind), i) && !ReviewInserted(TaskOps(db, m, doc, doc.tasks, SourceKind), i)
  {
    hide TaskOps, ResolveBatch;
    forall o | o in TaskOps(db, m, doc, doc.tasks, SourceKind) ensures o.InsertSource? {
      CollectedTasks(db, m, doc, doc.tasks, SourceKind, o);
    }
  }

  ghost predicate AllReviewsKnown(db: Db, m: Mapping, doc: Doc) {
    forall t <- doc.tasks, r <- t.reviews :: KnownIfNew(db, m, doc, t, r)
  }

  /** Predictions refer to tasks and versions only, which a plan without errors has found. */
  lemma {:induction false} RefsOfPredictions(db: Db, m: Mapping, doc: Doc, tasks: seq<TaskDoc>, before: seq<Op>)
    requires Clean(db, m, doc) && tasks <= doc.tasks
    ensures AllRefsFound(db, before, TaskOps(db, m, doc, tasks, PredictionKind))
    decreases |tasks|
  {
    hide Clean, RefsFound, PlanPrediction;
    if tasks != [] {
      var n := |tasks| - 1;
      var earlier, vs := TaskOps(db, m, doc, tasks[..n], PredictionKind), PredictionVerdicts(db, m, tasks[n]);
      RefsOfPredictions(db, m, doc, tasks[..n], before);
      assert tasks[n] == doc.tasks[n];
      RefsSplit(db, before, earlier, Collect(vs));
      RefsOfCollected(db, before + earlier, vs);
      forall i | 0 <= i < |vs| && vs[i].New? ensures RefsFound(db, before + earlier + Collect(vs[..i]), vs[i].op) {
        PredictionRefs(db, m, doc, tasks[n], tasks[n].predictions[i], before + earlier + Collect(vs[..i]));
      }
    }
  }

  lemma PredictionRefs(db: Db, m: Mapping, doc: Doc, t: TaskDoc, p: PredictionDoc, before: seq<Op>)
    requires Clean(db, m, doc) && t in doc.tasks && PlanPrediction(db, m, t, p).New?
    ensures RefsFound(db, before, PlanPrediction(db, m, t, p).op)
  {
    hide NothingWrong;
  }

  lemma PredictionsInsertPredictionsOnly(db: Db, m: Mapping, doc: Doc, i: Id)
    ensures var p := KindOps(db, m, doc, PredictionKind); !ActionInserted(p, i) && !ReviewInserted(p, i)
  {
    hide KindOps;
    forall o | o in KindOps(db, m, doc, PredictionKind) ensures o.InsertPrediction? {
      InKindOps(db, m, doc, PredictionKind, o);
    }
  }

  /** When a plan without errors can be carried out as far as references go: every row refers to rows that are in the
      database or inserted before it exactly when (1) a batch that only the mapping explains exists, (2) an admin action
      that only the mapping names exists, and (3) a review's predecessor comes before it in the order of numbers. A
      plan without errors guarantees none of the three. */
  lemma ReferencesResolve(db: Db, m: Mapping, doc: Doc)
    requires Clean(db, m, doc) && CodesOk(db) && WellFormed(doc) && ReviewIdsStayApart(m, doc)
    ensures AllRefsFound(db, [], PlannedOps(db, m, doc)) <==>
            SourcesKnown(db, m, doc, doc.tasks) && AllReviewsKnown(db, m, doc)
  {
    hide Clean, CodesOk, WellFormed, ReviewIdsStayApart, Collect, RefsFound, SourcesKnown, PlanReview, ReviewKnown;
    hide AllRefsFound, BatchPlanned, ActionIsPlanned, TaskOps, ActionInserted, BatchInserted, ReviewInserted;
    hide BatchVerdicts, ActionVerdicts;
    var b, s := Collect(BatchVerdicts(db, m, doc)), TaskOps(db, m, doc, doc.tasks, SourceKind);
    var p := TaskOps(db, m, doc, doc.tasks, PredictionKind);
    var a, r := Collect(ActionVerdicts(db, m, doc)), TaskOps(db, m, doc, doc.tasks, ReviewKind);
    BatchesBefore(db, m, doc);
    RefsOfSources(db, m, doc, doc.tasks, b);
    RefsOfPredictions(db, m, doc, doc.tasks, b + s);
    ActionsNeedNothing(db, m, doc, b + s + p);
    forall x ensures ActionInserted(b + s + p + a, x) <==> ActionIsPlanned(db, m, doc, x)
      ensures !ReviewInserted(b + s + p + a, x)
    {
      SourcesInsertSourcesOnly(db, m, doc, x);
      PredictionsInsertPredictionsOnly(db, m, doc, x);
      ActionsInserted(db, m, doc, x);
      InsertedEither(b + s + p, a, x);
      InsertedEither(b + s, p, x);
      InsertedEither(b, s, x);
    }
    assert doc.tasks[..|doc.tasks|] == doc.tasks;
    RefsOfReviews(db, m, doc, b + s + p + a, |doc.tasks|);
    RefsSplit(db, [], b + s + p + a, r);
    RefsSplit(db, [], b + s + p, a);
    RefsSplit(db, [], b + s, p);
    RefsSplit(db, [], b, s);
    assert [] + b == b && [] + (b + s) == b + s && [] + (b + s + p) == b + s + p
           && [] + (b + s + p + a) == b + s + p + a;
    ByPosition(db, m, doc);
  }

  lemma ByPosition(db: Db, m: Mapping, doc: Doc)
    ensures AllReviewsKnown(db, m, doc) <==>
            KnownUpTo(db, m, doc, |doc.tasks|)
  {
    hide KnownIfNew;
    forall k | 0 <= k < |doc.tasks| ensures doc.tasks[k] in doc.tasks {}
  }

  /* ---------- each of the three conditions can fail ---------- */

  /** A document with one task that carries one review and nothing else. */
  function OneReviewDoc(r: ReviewDoc): Doc {
    Doc([TaskDoc(1, [], [], [r])], [], [], [], [])
  }

  const ONE_TASK := EMPTY_DB.(tasks := {1}, versions := map[2 := 1])

  /** A document without admin actions, and a mapping that names the one a review cites. */
  lemma NamedActionMayBeMissing() returns (db: Db, m: Mapping, doc: Doc)
    ensures Clean(db, m, doc) && CodesOk(db) && WellFormed(doc) && ReviewIdsStayApart(m, doc)
    ensures !AllRefsFound(db, [], PlannedOps(db, m, doc))
  {
    var r := ReviewDoc(3, Review(2, 1, None, Some(7), None, ""));
    var t := TaskDoc(1, [], [], [r]);
    db, m, doc := ONE_TASK, NO_MAPPING.(actions := map[7 := 8]), OneReviewDoc(r);
    assert PlanReview(db, m, doc, t, r) == New(InsertReview(3, r.row.(action := Some(8))));
    assert !RefsFound(db, [], InsertReview(3, r.row.(action := Some(8))));
    hide PlanReview, RefsFound;
    OneReview(db, m, doc, t, r);
    OneReviewIsWellFormed(m, r);
    OneRef(db, [], InsertReview(3, r.row.(action := Some(8))));
    hide Clean, PlannedOps, AllRefsFound, WellFormed, ReviewIdsStayApart;
  }

  lemma OneReviewIsWellFormed(m: Mapping, r: ReviewDoc)
    requires r.row.previous.None?
    ensures WellFormed(OneReviewDoc(r)) && ReviewIdsStayApart(m, OneReviewDoc(r))
  {
  }

  /** A source whose batch only the mapping explains, and a database without that batch. */
  lemma MappedBatchMayBeMissing() returns (db: Db, m: Mapping, doc: Doc)
    ensures Clean(db, m, doc) && CodesOk(db) && WellFormed(doc) && ReviewIdsStayApart(m, doc)
    ensures !AllRefsFound(db, [], PlannedOps(db, m, doc))
  {
    var s := SourceDoc(4, Some(5), None, SourceBody("key", 1, true, ""));
    var t := TaskDoc(1, [s], [], []);
    db, m, doc := ONE_TASK, NO_MAPPING.(batches := map[5 := 9]), Doc([t], [], [], [], []);
    assert PlanSource(db, m, doc, t, s).New? && !BatchKnown(db, m, doc, s);
    assert s in t.sources && t in doc.tasks && CodesOk(db);
    hide PlanSource, BatchKnown, CodesOk;
    OneTaskIsClean(db, m, doc, t);
    OneSourceIsWellFormed(m, doc, t);
    hide Clean, PlannedOps, AllRefsFound, WellFormed, ReviewIdsStayApart;
    assert !SourcesKnown(db, m, doc, doc.tasks) by { assert !TaskSourcesKnown(db, m, doc, t); }
    ReferencesResolve(db, m, doc);
  }

  lemma OneSourceIsWellFormed(m: Mapping, doc: Doc, t: TaskDoc)
    requires doc == Doc([t], [], [], [], []) && t.reviews == []
    ensures WellFormed(doc) && ReviewIdsStayApart(m, doc)
  {
    assert forall x <- doc.tasks :: x == t;
  }

  /** A review whose predecessor has a greater number. */
  lemma PredecessorMayComeLater() returns (db: Db, m: Mapping, doc: Doc)
    ensures Clean(db, m, doc) && CodesOk(db) && WellFormed(doc) && ReviewIdsStayApart(m, doc)
    ensures !AllRefsFound(db, [], PlannedOps(db, m, doc))
  {
    var r := ReviewDoc(3, Review(2, 1, None, None, Some(4), ""));
    var q := ReviewDoc(4, Review(2, 2, None, None, None, ""));
    var t := TaskDoc(1, [], [], [r, q]);
    db, m, doc := ONE_TASK, NO_MAPPING, Doc([t], [], [], [], []);
    LaterFacts(db, m, doc, t, r, q);
    assert r in t.reviews && q in t.reviews && t in doc.tasks && CodesOk(db);
    hide PlanReview, PreviousComesFirst, CodesOk;
    OneTaskIsClean(db, m, doc, t);
    TwoReviewsAreWellFormed(m, doc, t, r, q);
    hide Clean, PlannedOps, AllRefsFound, WellFormed, ReviewIdsStayApart;
    assert !AllReviewsKnown(db, m, doc) by { assert !ReviewKnown(db, m, doc, t, r); }
    ReferencesResolve(db, m, doc);
  }

  lemma LaterFacts(db: Db, m: Mapping, doc: Doc, t: TaskDoc, r: ReviewDoc, q: ReviewDoc)
    requires db == ONE_TASK && m == NO_MAPPING && t == TaskDoc(1, [], [], [r, q])
    requires r == ReviewDoc(3, Review(2, 1, None, None, Some(4), "")) && q == ReviewDoc(4, Review(2, 2, None, None, None, ""))
    ensures PlanReview(db, m, doc, t, r).New? && PlanReview(db, m, doc, t, q).New? && !PreviousComesFirst(db, m, t, r)
    ensures forall x <- t.reviews :: !PlanReview(db, m, doc, t, x).Wrong?
  {
    assert q in t.reviews && HasReview(t, 4);
    assert forall x <- t.reviews :: x == r || x == q;
  }

  lemma TwoReviewsAreWellFormed(m: Mapping, doc: Doc, t: TaskDoc, r: ReviewDoc, q: ReviewDoc)
    requires doc == Doc([t], [], [], [], []) && t == TaskDoc(t.id, [], [], [r, q]) && m == NO_MAPPING
    requires r.id != q.id && r.row.previous == Some(q.id) && q.row.previous.None?
    ensures WellFormed(doc) && ReviewIdsStayApart(m, doc)
  {
    assert forall x <- doc.tasks :: x == t;
    assert q in t.reviews && HasReview(t, q.id) && t in doc.tasks;
    assert forall x <- t.reviews :: x == r || x == q;
  }

  /** One task, of which nothing is wrong. */
  lemma OneTaskIsClean(db: Db, m: Mapping, doc: Doc, t: TaskDoc)
    requires doc == Doc([t], [], [], [], []) && t.id in db.tasks && m == NO_MAPPING.(batches := m.batches)
    requires t.predictions == [] && forall s <- t.sources :: !PlanSource(db, m, doc, t, s).Wrong?
    requires forall r <- t.reviews :: !PlanReview(db, m, doc, t, r).Wrong?
    ensures Clean(db, m, doc)
  {
    assert forall x <- doc.tasks :: x == t;
    hide PlanSource, PlanReview, InOrder;
    forall k: Kind ensures DocVerdicts(db, m, doc, k) == [] {}
    forall k: Kind ensures NoneWrong(TaskVerdicts(db, m, doc, t, k)) {
      match k
      case SourceKind =>
        forall v | v in SourceVerdicts(db, m, doc, t) ensures !v.Wrong? {
          var vs := SourceVerdicts(db, m, doc, t);
          var i :| 0 <= i < |vs| && vs[i] == v;
          assert t.sources[i] in t.sources;
        }
      case ReviewKind =>
        forall v | v in ReviewVerdicts(db, m, doc, t) ensures !v.Wrong? {
          var vs := ReviewVerdicts(db, m, doc, t);
          var i :| 0 <= i < |vs| && vs[i] == v;
          assert InOrder(t.reviews)[i] in InOrder(t.reviews);
        }
      case _ =>
    }
    hide TaskVerdicts, DocVerdicts;
  }
}
