/** Importing an exported metadata document: every record is first compared with the database, which gives either an error
    or a row to insert, and only a plan without errors is carried out.

    The model covers batches, admin actions, source records, predictions and scene reviews, the kinds that refer to one
    another, for documents in which every field is filled in; empty text counts as missing. Unique constraints are index
    columns of the tables. */
module ImportPlan {
  import opened Common

  type Id = nat

  datatype Batch = Batch(code: string, payload: string)

  datatype Action = Action(op: Id, payload: string)

  datatype SourceBody = SourceBody(key: string, revision: nat, current: bool, payload: string)

  datatype Source = Source(task: Id, batch: Id, body: SourceBody)

  datatype Prediction = Prediction(task: Id, version: Option<Id>, payload: string)

  datatype Review = Review(version: Id, number: int, user: Option<Id>, action: Option<Id>, previous: Option<Id>,
                           payload: string)

  datatype Db = Db(
    tasks: set<Id>,
    versions: map<Id, Id>,
    users: set<Id>,
    batches: map<Id, Batch>,
    codes: map<string, Id>,
    actions: map<Id, Action>,
    ops: map<Id, Id>,
    sources: map<Id, Source>,
    currents: map<(Id, string), Id>,
    predictions: map<Id, Prediction>,
    reviews: map<Id, Review>,
    numbers: map<(Id, int), Id>)

  /* ---------- the document ---------- */

  datatype BatchDoc = BatchDoc(id: Id, row: Batch)

  datatype ActionDoc = ActionDoc(id: Id, row: Action)

  /** A source names its batch by id, by code, or both. */
  datatype SourceDoc = SourceDoc(id: Id, batch: Option<Id>, code: Option<string>, body: SourceBody)

  datatype PredictionDoc = PredictionDoc(id: Id, version: Option<Id>, payload: string)

  /** The references inside a row are those of the export. */
  datatype ReviewDoc = ReviewDoc(id: Id, row: Review)

  datatype TaskDoc = TaskDoc(id: Id, sources: seq<SourceDoc>, predictions: seq<PredictionDoc>, reviews: seq<ReviewDoc>)

  datatype VersionDoc = VersionDoc(id: Id, task: Id)

  datatype Doc = Doc(tasks: seq<TaskDoc>, versions: seq<VersionDoc>, users: seq<Id>, batches: seq<BatchDoc>,
                     actions: seq<ActionDoc>)

  datatype Mapping = Mapping(tasks: map<Id, Id>, versions: map<Id, Id>, users: map<Id, Id>, batches: map<Id, Id>,
                             actions: map<Id, Id>, sources: map<Id, Id>, predictions: map<Id, Id>, reviews: map<Id, Id>)

  function Remap(table: map<Id, Id>, id: Id): Id {
    if id in table then table[id] else id
  }

  function Mapped(o: Option<Id>, table: map<Id, Id>): Option<Id> {
    if o.Some? then Some(Remap(table, o.value)) else None
  }

  /* ---------- what is found for each record ---------- */

  datatype Op =
    | InsertBatch(id: Id, batch: Batch)
    | InsertSource(id: Id, source: Source)
    | InsertPrediction(id: Id, prediction: Prediction)
    | InsertAction(id: Id, action: Action)
    | InsertReview(id: Id, review: Review)

  datatype Verdict = Wrong | Same | New(op: Op)

  function PlanBatch(db: Db, m: Mapping, b: BatchDoc): Verdict {
    var dest := Remap(m.batches, b.id);
    var byCode, byId := b.row.code in db.codes, dest in db.batches;
    if byCode && byId && db.codes[b.row.code] != dest then Wrong
    else if byCode || byId then
      var found := if byCode then db.codes[b.row.code] else dest;
      if found in db.batches && db.batches[found] == b.row then Same else Wrong
    else New(InsertBatch(dest, b.row))
  }

  /** Where a batch of the document is or will be: a known batch code is the stable key. */
  function BatchTarget(db: Db, m: Mapping, b: BatchDoc): Id {
    if b.row.code in db.codes then db.codes[b.row.code] else Remap(m.batches, b.id)
  }

  function FindBatch(batches: seq<BatchDoc>, id: Id): (r: Option<BatchDoc>)
    ensures r.None? <==> forall b <- batches :: b.id != id
    ensures r.Some? ==> r.value in batches && r.value.id == id
  {
    if batches == [] then None
    else if batches[0].id == id then Some(batches[0])
    else FindBatch(batches[1..], id)
  }

  function FindCode(batches: seq<BatchDoc>, code: string): (r: Option<BatchDoc>)
    ensures r.None? <==> forall b <- batches :: b.row.code != code
    ensures r.Some? ==> r.value in batches && r.value.row.code == code
  {
    if batches == [] then None
    else if batches[0].row.code == code then Some(batches[0])
    else FindCode(batches[1..], code)
  }

  /** A reference by id that the document does not explain is looked up in the mapping alone. */
  function BatchById(db: Db, m: Mapping, doc: Doc, id: Id): Option<Id> {
    var b := FindBatch(doc.batches, id);
    if b.Some? then Some(BatchTarget(db, m, b.value))
    else if id in m.batches then Some(m.batches[id]) else None
  }

  function BatchByCode(db: Db, m: Mapping, doc: Doc, code: string): Option<Id> {
    var b := FindCode(doc.batches, code);
    if b.Some? then Some(BatchTarget(db, m, b.value))
    else if code in db.codes then Some(db.codes[code]) else None
  }

  /** The batch a source refers to: by its id if that is explained, else by its code. */
  function ResolveBatch(db: Db, m: Mapping, doc: Doc, s: SourceDoc): Option<Id> {
    var byId := if s.batch.Some? then BatchById(db, m, doc, s.batch.value) else None;
    if byId.Some? then byId
    else if s.code.Some? then BatchByCode(db, m, doc, s.code.value) else None
  }

  function PlanAction(db: Db, m: Mapping, a: ActionDoc): Verdict {
    var dest := Remap(m.actions, a.id);
    if dest in db.actions then (if db.actions[dest] == a.row then Same else Wrong)
    else if a.row.op in db.ops then Wrong
    else New(InsertAction(dest, a.row))
  }

  function PlanSource(db: Db, m: Mapping, doc: Doc, t: TaskDoc, s: SourceDoc): Verdict {
    var dest, batch := Remap(m.sources, s.id), ResolveBatch(db, m, doc, s);
    if batch.None? then Wrong
    else
      var row := Source(Remap(m.tasks, t.id), batch.value, s.body);
      if dest in db.sources then (if db.sources[dest] == row then Same else Wrong)
      else if s.body.current && (batch.value, s.body.key) in db.currents then Wrong
      else New(InsertSource(dest, row))
  }

  /** A version that a record of a task refers to must be one of the task it is mapped onto. */
  predicate VersionOfTask(db: Db, m: Mapping, t: TaskDoc, version: Id) {
    Remap(m.versions, version) in db.versions && db.versions[Remap(m.versions, version)] == Remap(m.tasks, t.id)
  }

  function PlanPrediction(db: Db, m: Mapping, t: TaskDoc, p: PredictionDoc): Verdict {
    var dest, row := Remap(m.predictions, p.id), Prediction(Remap(m.tasks, t.id), Mapped(p.version, m.versions), p.payload);
    if p.version.Some? && !VersionOfTask(db, m, t, p.version.value) then Wrong
    else if dest in db.predictions then (if db.predictions[dest] == row then Same else Wrong)
    else New(InsertPrediction(dest, row))
  }

  predicate HasAction(doc: Doc, id: Id) {
    exists a <- doc.actions :: a.id == id
  }

  predicate HasReview(t: TaskDoc, id: Id) {
    exists r <- t.reviews :: r.id == id
  }

  function MappedReview(m: Mapping, r: Review): Review {
    r.(version := Remap(m.versions, r.version), user := Mapped(r.user, m.users), action := Mapped(r.action, m.actions),
       previous := Mapped(r.previous, m.reviews))
  }

  /** An admin action counts as planned when the document carries it, or when the mapping merely names it. */
  predicate ActionPlanned(m: Mapping, doc: Doc, id: Id) {
    id in m.actions || HasAction(doc, id)
  }

  predicate ReviewRefsFound(db: Db, m: Mapping, doc: Doc, t: TaskDoc, r: Review) {
    var row := MappedReview(m, r);
    && VersionOfTask(db, m, t, r.version)
    && (r.previous.Some? ==> HasReview(t, r.previous.value) || row.previous.value in db.reviews)
    && (r.user.Some? ==> row.user.value in db.users)
    && (r.action.Some? ==> ActionPlanned(m, doc, r.action.value) || row.action.value in db.actions)
  }

  function PlanReview(db: Db, m: Mapping, doc: Doc, t: TaskDoc, r: ReviewDoc): Verdict {
    var dest, row := Remap(m.reviews, r.id), MappedReview(m, r.row);
    if !ReviewRefsFound(db, m, doc, t, r.row) then Wrong
    else if dest in db.reviews then (if db.reviews[dest] == row then Same else Wrong)
    else if (row.version, row.number) in db.numbers then Wrong
    else New(InsertReview(dest, row))
  }

  /* ---------- what the verdicts mean ---------- */

  /** A batch counts as present where its code is known, else under its mapped id. It is unchanged exactly if the row there
      is the document's, it is inserted exactly if neither code nor id is known, and it is an error otherwise: with other
      contents, or with code and id on different rows. */
  lemma BatchVerdict(db: Db, m: Mapping, b: BatchDoc)
    ensures var dest, verdict := Remap(m.batches, b.id), PlanBatch(db, m, b);
            && (verdict.New? <==> b.row.code !in db.codes && dest !in db.batches)
            && (verdict.New? ==> verdict.op == InsertBatch(dest, b.row))
            && (verdict.Same? <==>
                  if b.row.code in db.codes
                  then db.codes[b.row.code] in db.batches && db.batches[db.codes[b.row.code]] == b.row
                       && (dest in db.batches ==> dest == db.codes[b.row.code])
                  else dest in db.batches && db.batches[dest] == b.row)
  {
  }

  /** An action present under its mapped id is unchanged if it is the same and an error otherwise; a new one is inserted as
      it is unless its operation is taken. */
  lemma ActionVerdict(db: Db, m: Mapping, a: ActionDoc)
    ensures var dest, verdict := Remap(m.actions, a.id), PlanAction(db, m, a);
            && (verdict.Same? <==> dest in db.actions && db.actions[dest] == a.row)
            && (verdict.New? <==> dest !in db.actions && a.row.op !in db.ops)
            && (verdict.New? ==> verdict.op == InsertAction(dest, a.row))
  {
  }

  /** The batch of a source: the document's batch with the id given; else what the mapping makes of that id; else the
      document's batch with the code given; else the known one with that code. */
  lemma BatchOfSource(db: Db, m: Mapping, doc: Doc, s: SourceDoc)
    ensures var r := ResolveBatch(db, m, doc, s);
            if s.batch.Some? && (exists b <- doc.batches :: b.id == s.batch.value) then
              exists b <- doc.batches :: b.id == s.batch.value && PlacedAt(db, m, b, r)
            else if s.batch.Some? && s.batch.value in m.batches then r == Some(m.batches[s.batch.value])
            else if s.code.Some? && (exists b <- doc.batches :: b.row.code == s.code.value) then
              exists b <- doc.batches :: b.row.code == s.code.value && PlacedAt(db, m, b, r)
            else if s.code.Some? && s.code.value in db.codes then r == Some(db.codes[s.code.value])
            else r == None
  {
    var byId := if s.batch.Some? then FindBatch(doc.batches, s.batch.value) else None;
    var byCode := if s.code.Some? then FindCode(doc.batches, s.code.value) else None;
    if byId.Some? {
      assert byId.value in doc.batches && PlacedAt(db, m, byId.value, ResolveBatch(db, m, doc, s));
    } else if !(s.batch.Some? && s.batch.value in m.batches) && byCode.Some? {
      assert byCode.value in doc.batches && PlacedAt(db, m, byCode.value, ResolveBatch(db, m, doc, s));
    }
  }

  /** Under the known id of its code, else under the id the mapping gives it, else under its own. */
  predicate PlacedAt(db: Db, m: Mapping, b: BatchDoc, r: Option<Id>) {
    r == Some(if b.row.code in db.codes then db.codes[b.row.code]
              else if b.id in m.batches then m.batches[b.id] else b.id)
  }

  /** A source without a batch is an error. One present under its mapped id is unchanged if it is the same, on the mapped
      task and batch, and an error otherwise; a new one is inserted unless it is current and its record has a current
      row. */
  lemma SourceVerdict(db: Db, m: Mapping, doc: Doc, t: TaskDoc, s: SourceDoc)
    ensures var dest, batch, verdict := Remap(m.sources, s.id), ResolveBatch(db, m, doc, s), PlanSource(db, m, doc, t, s);
            if batch.None? then verdict.Wrong?
            else
              var row := Source(Remap(m.tasks, t.id), batch.value, s.body);
              && (verdict.Same? <==> dest in db.sources && db.sources[dest] == row)
              && (verdict.New? <==> dest !in db.sources && !(s.body.current && (batch.value, s.body.key) in db.currents))
              && (verdict.New? ==> verdict.op == InsertSource(dest, row))
  {
  }

  /** The mapped version, if one is given, is a version of the mapped task. */
  predicate FitsTask(db: Db, m: Mapping, t: TaskDoc, version: Option<Id>) {
    version.Some? ==>
      var v := Remap(m.versions, version.value);
      v in db.versions && db.versions[v] == Remap(m.tasks, t.id)
  }

  /** The same for a prediction, which must name a version of its task if it names one. */
  lemma PredictionVerdict(db: Db, m: Mapping, t: TaskDoc, p: PredictionDoc)
    ensures var dest, verdict := Remap(m.predictions, p.id), PlanPrediction(db, m, t, p);
            var row := Prediction(Remap(m.tasks, t.id),
                                  if p.version.Some? then Some(Remap(m.versions, p.version.value)) else None, p.payload);
            && (verdict.Same? <==> FitsTask(db, m, t, p.version) && dest in db.predictions && db.predictions[dest] == row)
            && (verdict.New? <==> FitsTask(db, m, t, p.version) && dest !in db.predictions)
            && (verdict.New? ==> verdict.op == InsertPrediction(dest, row))
  {
  }

  /** Everything a review refers to is found: a version of its task, the review it follows in the task or the database, a
      known user, and an action of the document, of the mapping or of the database. */
  predicate RefersToFound(db: Db, m: Mapping, doc: Doc, t: TaskDoc, r: Review) {
    && FitsTask(db, m, t, Some(r.version))
    && (r.user.Some? ==> Remap(m.users, r.user.value) in db.users)
    && (r.previous.Some? ==>
          (exists x <- t.reviews :: x.id == r.previous.value) || Remap(m.reviews, r.previous.value) in db.reviews)
    && (r.action.Some? ==>
          || r.action.value in m.actions || (exists a <- doc.actions :: a.id == r.action.value)
          || Remap(m.actions, r.action.value) in db.actions)
  }

  /** The same for a review whose references are found, with all of them mapped; a new one also needs its number free. */
  lemma ReviewVerdict(db: Db, m: Mapping, doc: Doc, t: TaskDoc, r: ReviewDoc)
    ensures var dest, verdict := Remap(m.reviews, r.id), PlanReview(db, m, doc, t, r);
            var row := Review(Remap(m.versions, r.row.version), r.row.number,
                              if r.row.user.Some? then Some(Remap(m.users, r.row.user.value)) else None,
                              if r.row.action.Some? then Some(Remap(m.actions, r.row.action.value)) else None,
                              if r.row.previous.Some? then Some(Remap(m.reviews, r.row.previous.value)) else None,
                              r.row.payload);
            var found := RefersToFound(db, m, doc, t, r.row);
            && (verdict.Same? <==> found && dest in db.reviews && db.reviews[dest] == row)
            && (verdict.New? <==> found && dest !in db.reviews && (row.version, row.number) !in db.numbers)
            && (verdict.New? ==> verdict.op == InsertReview(dest, row))
  {
  }

  /** What can be wrong with a document before its records are looked at: a task, version or user that is not in the
      database, two tasks mapped onto one, a version on another task than the document or the mapping says, and an entry of
      the mapping that names no record of the document, although it has some of that kind. */
  datatype Fault =
    | NoTask(task: Id)
    | OneForTwo(first: Id, second: Id)
    | NoVersion(version: Id)
    | OnOtherTask(item: VersionDoc)
    | NoUser(user: Id)
    | StrayTask(id: Id)
    | StrayVersion(id: Id)
    | StrayUser(id: Id)
    | StrayBatch(id: Id)
    | StrayAction(id: Id)
    | StraySource(id: Id)
    | StrayPrediction(id: Id)
    | StrayReview(id: Id)

  ghost predicate IsTask(doc: Doc, id: Id) { exists t <- doc.tasks :: t.id == id }

  ghost predicate IsVersion(doc: Doc, id: Id) { exists v <- doc.versions :: v.id == id }

  ghost predicate IsBatch(doc: Doc, id: Id) { exists b <- doc.batches :: b.id == id }

  ghost predicate IsAction(doc: Doc, id: Id) { exists a <- doc.actions :: a.id == id }

  ghost predicate IsSource(doc: Doc, id: Id) { exists t <- doc.tasks :: exists s <- t.sources :: s.id == id }

  ghost predicate IsPrediction(doc: Doc, id: Id) { exists t <- doc.tasks :: exists p <- t.predictions :: p.id == id }

  ghost predicate IsReview(doc: Doc, id: Id) { exists t <- doc.tasks :: exists r <- t.reviews :: r.id == id }

  ghost predicate HasFault(db: Db, m: Mapping, doc: Doc, f: Fault) {
    match f
    case NoTask(t) => IsTask(doc, t) && Remap(m.tasks, t) !in db.tasks
    case OneForTwo(s, t) => IsTask(doc, s) && IsTask(doc, t) && s != t && Remap(m.tasks, s) == Remap(m.tasks, t)
    case NoVersion(v) => IsVersion(doc, v) && Remap(m.versions, v) !in db.versions
    case OnOtherTask(v) =>
      && v in doc.versions && Remap(m.versions, v.id) in db.versions && (v.task in m.tasks || IsTask(doc, v.task))
      && db.versions[Remap(m.versions, v.id)] != Remap(m.tasks, v.task)
    case NoUser(u) => u in doc.users && Remap(m.users, u) !in db.users
    case StrayTask(i) => i in m.tasks && !IsTask(doc, i) && exists j :: IsTask(doc, j)
    case StrayVersion(i) => i in m.versions && !IsVersion(doc, i) && exists j :: IsVersion(doc, j)
    case StrayUser(i) => i in m.users && i !in doc.users && exists j :: j in doc.users
    case StrayBatch(i) => i in m.batches && !IsBatch(doc, i) && exists j :: IsBatch(doc, j)
    case StrayAction(i) => i in m.actions && !IsAction(doc, i) && exists j :: IsAction(doc, j)
    case StraySource(i) => i in m.sources && !IsSource(doc, i) && exists j :: IsSource(doc, j)
    case StrayPrediction(i) => i in m.predictions && !IsPrediction(doc, i) && exists j :: IsPrediction(doc, j)
    case StrayReview(i) => i in m.reviews && !IsReview(doc, i) && exists j :: IsReview(doc, j)
  }

  lemma CoreFaults(db: Db, m: Mapping, doc: Doc)
    ensures CoreFound(db, m, doc) <==>
            forall f :: HasFault(db, m, doc, f) ==> !f.NoTask? && !f.OneForTwo? && !f.NoVersion? && !f.OnOtherTask? && !f.NoUser?
  {
    if CoreFound(db, m, doc) {
      forall f | HasFault(db, m, doc, f)
        ensures !f.NoTask? && !f.OneForTwo? && !f.NoVersion? && !f.OnOtherTask? && !f.NoUser?
      {
      }
    } else {
      if t :| t in doc.tasks && Remap(m.tasks, t.id) !in db.tasks {
        assert HasFault(db, m, doc, NoTask(t.id));
      } else if s, t :| s in doc.tasks && t in doc.tasks && Remap(m.tasks, s.id) == Remap(m.tasks, t.id) && s.id != t.id {
        assert HasFault(db, m, doc, OneForTwo(s.id, t.id));
      } else if v :| v in doc.versions && Remap(m.versions, v.id) !in db.versions {
        assert HasFault(db, m, doc, NoVersion(v.id));
      } else if u :| u in doc.users && Remap(m.users, u) !in db.users {
        assert HasFault(db, m, doc, NoUser(u));
      } else {
        var v :| v in doc.versions && (v.task in m.tasks || exists t <- doc.tasks :: t.id == v.task)
                 && db.versions[Remap(m.versions, v.id)] != Remap(m.tasks, v.task);
        assert HasFault(db, m, doc, OnOtherTask(v));
      }
    }
  }

  ghost predicate Inhabits(doc: Doc) {
    && (doc.tasks != [] <==> exists j :: IsTask(doc, j)) && (doc.versions != [] <==> exists j :: IsVersion(doc, j))
    && (doc.users != [] <==> exists j :: j in doc.users) && (doc.batches != [] <==> exists j :: IsBatch(doc, j))
    && (doc.actions != [] <==> exists j :: IsAction(doc, j))
  }

  ghost predicate InhabitsTasks(doc: Doc) {
    && ((exists t <- doc.tasks :: t.sources != []) <==> exists j :: IsSource(doc, j))
    && ((exists t <- doc.tasks :: t.predictions != []) <==> exists j :: IsPrediction(doc, j))
    && ((exists t <- doc.tasks :: t.reviews != []) <==> exists j :: IsReview(doc, j))
  }

  lemma DocInhabits(doc: Doc)
    ensures Inhabits(doc)
  {
    if doc.tasks != [] { assert IsTask(doc, doc.tasks[0].id); }
    if doc.versions != [] { assert IsVersion(doc, doc.versions[0].id); }
    if doc.users != [] { assert doc.users[0] in doc.users; }
    if doc.batches != [] { assert IsBatch(doc, doc.batches[0].id); }
    if doc.actions != [] { assert IsAction(doc, doc.actions[0].id); }
  }

  lemma TasksInhabit(doc: Doc)
    ensures InhabitsTasks(doc)
  {
    if t :| t in doc.tasks && t.sources != [] { assert t.sources[0] in t.sources && IsSource(doc, t.sources[0].id); }
    if t :| t in doc.tasks && t.predictions != [] {
      assert t.predictions[0] in t.predictions && IsPrediction(doc, t.predictions[0].id);
    }
    if t :| t in doc.tasks && t.reviews != [] { assert t.reviews[0] in t.reviews && IsReview(doc, t.reviews[0].id); }
  }

  /** The checks made before the records are looked at fail exactly if the document has one of these faults. */
  lemma FaultsFail(db: Db, m: Mapping, doc: Doc)
    ensures CoreFound(db, m, doc) && MappingPresent(m, doc) <==> forall f :: !HasFault(db, m, doc, f)
  {
    CoreFaults(db, m, doc);
    DocInhabits(doc);
    TasksInhabit(doc);
    StrayFaults(db, m, doc);
    hide HasFault, CoreFound, MappingPresent, Inhabits, InhabitsTasks;
  }

  lemma StrayFaults(db: Db, m: Mapping, doc: Doc)
    requires Inhabits(doc) && InhabitsTasks(doc)
    ensures MappingPresent(m, doc) <==>
            forall f :: HasFault(db, m, doc, f) ==> f.NoTask? || f.OneForTwo? || f.NoVersion? || f.OnOtherTask? || f.NoUser?
  {
    hide IsTask, IsVersion, IsBatch, IsAction, IsSource, IsPrediction, IsReview, MappingPresent;
    MappingIs(m, doc);
    if MappingPresent(m, doc) {
      forall f | HasFault(db, m, doc, f)
        ensures f.NoTask? || f.OneForTwo? || f.NoVersion? || f.OnOtherTask? || f.NoUser?
      {
      }
    } else {
      var f := SomeStray(m, doc);
      assert HasFault(db, m, doc, f);
    }
  }

  lemma SomeStray(m: Mapping, doc: Doc) returns (f: Fault)
    requires Inhabits(doc) && InhabitsTasks(doc) && !MappingPresent(m, doc)
    ensures !f.NoTask? && !f.OneForTwo? && !f.NoVersion? && !f.OnOtherTask? && !f.NoUser?
    ensures forall db :: HasFault(db, m, doc, f)
  {
    hide IsTask, IsVersion, IsBatch, IsAction, IsSource, IsPrediction, IsReview, MappingPresent;
    MappingIs(m, doc);
    if i :| i in m.tasks && !IsTask(doc, i) && doc.tasks != [] { f := StrayTask(i); }
    else if i :| i in m.versions && !IsVersion(doc, i) && doc.versions != [] { f := StrayVersion(i); }
    else if i :| i in m.users && i !in doc.users && doc.users != [] { f := StrayUser(i); }
    else if i :| i in m.batches && !IsBatch(doc, i) && doc.batches != [] { f := StrayBatch(i); }
    else if i :| i in m.actions && !IsAction(doc, i) && doc.actions != [] { f := StrayAction(i); }
    else if i :| i in m.sources && !IsSource(doc, i) && exists j :: IsSource(doc, j) { f := StraySource(i); }
    else if i :| i in m.predictions && !IsPrediction(doc, i) && exists j :: IsPrediction(doc, j) { f := StrayPrediction(i); }
    else { var i :| i in m.reviews && !IsReview(doc, i); f := StrayReview(i); }
  }

  lemma MappingIs(m: Mapping, doc: Doc)
    ensures MappingPresent(m, doc) <==>
            && (doc.tasks != [] ==> forall i <- m.tasks :: IsTask(doc, i))
            && (doc.versions != [] ==> forall i <- m.versions :: IsVersion(doc, i))
            && (doc.users != [] ==> forall i <- m.users :: i in doc.users)
            && (doc.batches != [] ==> forall i <- m.batches :: IsBatch(doc, i))
            && (doc.actions != [] ==> forall i <- m.actions :: IsAction(doc, i))
            && ((exists t <- doc.tasks :: t.sources != []) ==> forall i <- m.sources :: IsSource(doc, i))
            && ((exists t <- doc.tasks :: t.predictions != []) ==> forall i <- m.predictions :: IsPrediction(doc, i))
            && ((exists t <- doc.tasks :: t.reviews != []) ==> forall i <- m.reviews :: IsReview(doc, i))
  {
  }

  /* ---------- the order of a task's reviews ---------- */

  predicate Precedes(r: ReviewDoc, s: ReviewDoc) {
    r.row.number < s.row.number || (r.row.number == s.row.number && r.id < s.id)
  }

  function InsertSorted(rs: seq<ReviewDoc>, r: ReviewDoc): (out: seq<ReviewDoc>)
    ensures forall x :: x in out <==> x in rs || x == r
    ensures |out| == |rs| + 1
  {
    if rs == [] then [r]
    else if !Precedes(rs[0], r) then [r] + rs
    else
      var tail := InsertSorted(rs[1..], r);
      assert forall x :: x in rs <==> x == rs[0] || x in rs[1..];
      [rs[0]] + tail
  }

  /** A task's reviews are planned in the order of their numbers. */
  function InOrder(rs: seq<ReviewDoc>): (out: seq<ReviewDoc>)
    ensures forall x :: x in out <==> x in rs
    ensures |out| == |rs|
  {
    if rs == [] then [] else
      assert forall x :: x in rs <==> x == rs[0] || x in rs[1..];
      InsertSorted(InOrder(rs[1..]), rs[0])
  }

  /* ---------- the verdicts on all records of a kind ---------- */

  datatype Kind = BatchKind | SourceKind | PredictionKind | ActionKind | ReviewKind

  const KINDS := {BatchKind, SourceKind, PredictionKind, ActionKind, ReviewKind}

  function KindOf(op: Op): Kind {
    match op
    case InsertBatch(_, _) => BatchKind
    case InsertSource(_, _) => SourceKind
    case InsertPrediction(_, _) => PredictionKind
    case InsertAction(_, _) => ActionKind
    case InsertReview(_, _) => ReviewKind
  }

  /** Batches and admin actions stand beside the tasks, the other kinds inside them. */
  predicate OfTasks(k: Kind) {
    k.SourceKind? || k.PredictionKind? || k.ReviewKind?
  }

  function BatchVerdicts(db: Db, m: Mapping, doc: Doc): (r: seq<Verdict>)
    ensures |r| == |doc.batches| && forall i :: 0 <= i < |r| ==> r[i] == PlanBatch(db, m, doc.batches[i])
  {
    seq(|doc.batches|, i requires 0 <= i < |doc.batches| => PlanBatch(db, m, doc.batches[i]))
  }

  function ActionVerdicts(db: Db, m: Mapping, doc: Doc): (r: seq<Verdict>)
    ensures |r| == |doc.actions| && forall i :: 0 <= i < |r| ==> r[i] == PlanAction(db, m, doc.actions[i])
  {
    seq(|doc.actions|, i requires 0 <= i < |doc.actions| => PlanAction(db, m, doc.actions[i]))
  }

  function DocVerdicts(db: Db, m: Mapping, doc: Doc, k: Kind): seq<Verdict> {
    match k
    case BatchKind => BatchVerdicts(db, m, doc)
    case ActionKind => ActionVerdicts(db, m, doc)
    case _ => []
  }

  function SourceVerdicts(db: Db, m: Mapping, doc: Doc, t: TaskDoc): (r: seq<Verdict>)
    ensures |r| == |t.sources| && forall i :: 0 <= i < |r| ==> r[i] == PlanSource(db, m, doc, t, t.sources[i])
  {
    seq(|t.sources|, i requires 0 <= i < |t.sources| => PlanSource(db, m, doc, t, t.sources[i]))
  }

  function PredictionVerdicts(db: Db, m: Mapping, t: TaskDoc): (r: seq<Verdict>)
    ensures |r| == |t.predictions| && forall i :: 0 <= i < |r| ==> r[i] == PlanPrediction(db, m, t, t.predictions[i])
  {
    seq(|t.predictions|, i requires 0 <= i < |t.predictions| => PlanPrediction(db, m, t, t.predictions[i]))
  }

  function ReviewVerdicts(db: Db, m: Mapping, doc: Doc, t: TaskDoc): (r: seq<Verdict>)
    ensures var rs := InOrder(t.reviews);
            |r| == |rs| && forall i :: 0 <= i < |r| ==> r[i] == PlanReview(db, m, doc, t, rs[i])
  {
    var rs := InOrder(t.reviews);
    seq(|rs|, i requires 0 <= i < |rs| => PlanReview(db, m, doc, t, rs[i]))
  }

  function TaskVerdicts(db: Db, m: Mapping, doc: Doc, t: TaskDoc, k: Kind): seq<Verdict> {
    match k
    case SourceKind => SourceVerdicts(db, m, doc, t)
    case PredictionKind => PredictionVerdicts(db, m, t)
    case ReviewKind => ReviewVerdicts(db, m, doc, t)
    case _ => []
  }

  /** The rows to insert, of those records that are new. */
  function Collect(vs: seq<Verdict>): seq<Op> {
    if vs == [] then []
    else Collect(vs[..|vs| - 1]) + if vs[|vs| - 1].New? then [vs[|vs| - 1].op] else []
  }

  function TaskOps(db: Db, m: Mapping, doc: Doc, tasks: seq<TaskDoc>, k: Kind): seq<Op> {
    if tasks == [] then []
    else
      var n := |tasks| - 1;
      TaskOps(db, m, doc, tasks[..n], k) + Collect(TaskVerdicts(db, m, doc, tasks[n], k))
  }

  function KindOps(db: Db, m: Mapping, doc: Doc, k: Kind): seq<Op> {
    if OfTasks(k) then TaskOps(db, m, doc, doc.tasks, k) else Collect(DocVerdicts(db, m, doc, k))
  }

  /** Batches first, then sources, predictions, admin actions and reviews. */
  function PlannedOps(db: Db, m: Mapping, doc: Doc): seq<Op> {
    KindOps(db, m, doc, BatchKind) + KindOps(db, m, doc, SourceKind) + KindOps(db, m, doc, PredictionKind)
      + KindOps(db, m, doc, ActionKind) + KindOps(db, m, doc, ReviewKind)
  }

  predicate NoneWrong(vs: seq<Verdict>) {
    forall v <- vs :: !v.Wrong?
  }

  /** Tasks, versions and users must exist; no two tasks may be mapped onto one. */
  predicate CoreFound(db: Db, m: Mapping, doc: Doc) {
    && (forall t <- doc.tasks :: Remap(m.tasks, t.id) in db.tasks)
    && (forall s <- doc.tasks, t <- doc.tasks :: Remap(m.tasks, s.id) == Remap(m.tasks, t.id) ==> s.id == t.id)
    && (forall v <- doc.versions :: Remap(m.versions, v.id) in db.versions &&
          ((v.task in m.tasks || exists t <- doc.tasks :: t.id == v.task) ==>
             db.versions[Remap(m.versions, v.id)] == Remap(m.tasks, v.task)))
    && (forall u <- doc.users :: Remap(m.users, u) in db.users)
  }

  /** A mapping may only name records the document carries, unless it carries none of that kind. */
  predicate MappingPresent(m: Mapping, doc: Doc) {
    && (doc.batches != [] ==> forall i <- m.batches :: exists b <- doc.batches :: b.id == i)
    && (doc.actions != [] ==> forall i <- m.actions :: HasAction(doc, i))
    && (doc.tasks != [] ==> forall i <- m.tasks :: exists t <- doc.tasks :: t.id == i)
    && (doc.versions != [] ==> forall i <- m.versions :: exists v <- doc.versions :: v.id == i)
    && (doc.users != [] ==> forall i <- m.users :: i in doc.users)
    && ((exists t <- doc.tasks :: t.sources != []) ==>
          forall i <- m.sources :: exists t <- doc.tasks :: exists s <- t.sources :: s.id == i)
    && ((exists t <- doc.tasks :: t.predictions != []) ==>
          forall i <- m.predictions :: exists t <- doc.tasks :: exists p <- t.predictions :: p.id == i)
    && ((exists t <- doc.tasks :: t.reviews != []) ==>
          forall i <- m.reviews :: exists t <- doc.tasks :: HasReview(t, i))
  }

  /** No record is wrong. (A record of the document that is wrong still counts here when others refer to it; the plan has
      failed in any case.) */
  ghost predicate NothingWrong(db: Db, m: Mapping, doc: Doc) {
    && (forall k: Kind :: NoneWrong(DocVerdicts(db, m, doc, k)))
    && (forall t <- doc.tasks, k: Kind :: NoneWrong(TaskVerdicts(db, m, doc, t, k)))
  }

  /** A plan without errors. */
  ghost predicate Clean(db: Db, m: Mapping, doc: Doc) {
    CoreFound(db, m, doc) && MappingPresent(m, doc) && NothingWrong(db, m, doc)
  }

  /* ---------- the rows of each kind ---------- */

  function OfKind(ops: seq<Op>, k: Kind): seq<Op> {
    if ops == [] then []
    else
      var n := |ops| - 1;
      OfKind(ops[..n], k) + if KindOf(ops[n]) == k then [ops[n]] else []
  }

  lemma {:induction false} OfKindSplits(xs: seq<Op>, ys: seq<Op>, k: Kind)
    ensures OfKind(xs + ys, k) == OfKind(xs, k) + OfKind(ys, k)
    decreases |ys|
  {
    hide KindOf;
    if ys == [] {
      assert xs + ys == xs;
    } else {
      var n := |ys| - 1;
      assert (xs + ys)[..|xs| + n] == xs + ys[..n];
      OfKindSplits(xs, ys[..n], k);
    }
  }

  lemma {:induction false} OneKindOnly(ops: seq<Op>, k: Kind, j: Kind)
    requires forall op <- ops :: KindOf(op) == k
    ensures OfKind(ops, j) == if j == k then ops else []
  {
    hide KindOf;
    if ops != [] {
      var n := |ops| - 1;
      assert ops == ops[..n] + [ops[n]] && ops[n] in ops;
      forall op | op in ops[..n] ensures KindOf(op) == k { assert op in ops; }
      OneKindOnly(ops[..n], k, j);
    }
  }

  lemma {:induction false} Collected(vs: seq<Verdict>, op: Op)
    ensures op in Collect(vs) <==> New(op) in vs
  {
    if vs != [] {
      var n := |vs| - 1;
      Collected(vs[..n], op);
      assert forall v :: v in vs <==> v in vs[..n] || v == vs[n];
    }
  }

  lemma {:induction false} CollectedTasks(db: Db, m: Mapping, doc: Doc, tasks: seq<TaskDoc>, k: Kind, op: Op)
    ensures op in TaskOps(db, m, doc, tasks, k) <==> exists t <- tasks :: New(op) in TaskVerdicts(db, m, doc, t, k)
  {
    hide Collect, TaskVerdicts;
    if tasks != [] {
      var n := |tasks| - 1;
      CollectedTasks(db, m, doc, tasks[..n], k, op);
      Collected(TaskVerdicts(db, m, doc, tasks[n], k), op);
      assert forall t :: t in tasks <==> t in tasks[..n] || t == tasks[n];
    }
  }

  lemma VerdictsKeepKind(db: Db, m: Mapping, doc: Doc, t: TaskDoc, k: Kind, op: Op)
    ensures New(op) in DocVerdicts(db, m, doc, k) || New(op) in TaskVerdicts(db, m, doc, t, k) ==> KindOf(op) == k
  {
    hide ReviewRefsFound, MappedReview, ResolveBatch, InOrder, VersionOfTask;
  }

  lemma OpsKeepKind(db: Db, m: Mapping, doc: Doc, t: TaskDoc, k: Kind)
    ensures forall op <- Collect(DocVerdicts(db, m, doc, k)) :: KindOf(op) == k
    ensures forall op <- Collect(TaskVerdicts(db, m, doc, t, k)) :: KindOf(op) == k
  {
    hide Collect, DocVerdicts, TaskVerdicts, KindOf;
    forall op | op in Collect(DocVerdicts(db, m, doc, k)) ensures KindOf(op) == k {
      Collected(DocVerdicts(db, m, doc, k), op);
      VerdictsKeepKind(db, m, doc, t, k, op);
    }
    forall op | op in Collect(TaskVerdicts(db, m, doc, t, k)) ensures KindOf(op) == k {
      Collected(TaskVerdicts(db, m, doc, t, k), op);
      VerdictsKeepKind(db, m, doc, t, k, op);
    }
  }

  /** What is planned of a kind comes from a new record of that kind. */
  lemma InKindOps(db: Db, m: Mapping, doc: Doc, k: Kind, op: Op)
    ensures op in KindOps(db, m, doc, k) <==>
            if OfTasks(k) then exists t <- doc.tasks :: New(op) in TaskVerdicts(db, m, doc, t, k)
            else New(op) in DocVerdicts(db, m, doc, k)
    ensures op in KindOps(db, m, doc, k) ==> KindOf(op) == k
  {
    hide Collect, TaskOps, DocVerdicts, TaskVerdicts, KindOf;
    if OfTasks(k) {
      CollectedTasks(db, m, doc, doc.tasks, k, op);
      forall t | t in doc.tasks && New(op) in TaskVerdicts(db, m, doc, t, k) ensures KindOf(op) == k {
        VerdictsKeepKind(db, m, doc, t, k, op);
      }
    } else {
      Collected(DocVerdicts(db, m, doc, k), op);
      VerdictsKeepKind(db, m, doc, TaskDoc(0, [], [], []), k, op);
    }
  }

  lemma InPlannedOps(db: Db, m: Mapping, doc: Doc, op: Op)
    ensures op in PlannedOps(db, m, doc) <==> op in KindOps(db, m, doc, KindOf(op))
  {
    hide KindOps, KindOf;
    forall k: Kind ensures op in KindOps(db, m, doc, k) ==> KindOf(op) == k { InKindOps(db, m, doc, k, op); }
  }

  /* ---------- the planner ---------- */

  /** The insertions of one task in the order they are planned: sources, predictions, reviews. */
  function PayloadOf(db: Db, m: Mapping, doc: Doc, t: TaskDoc): seq<Op> {
    Collect(TaskVerdicts(db, m, doc, t, SourceKind)) + Collect(TaskVerdicts(db, m, doc, t, PredictionKind))
      + Collect(TaskVerdicts(db, m, doc, t, ReviewKind))
  }

  function PayloadOps(db: Db, m: Mapping, doc: Doc, tasks: seq<TaskDoc>): seq<Op> {
    if tasks == [] then []
    else
      var n := |tasks| - 1;
      PayloadOps(db, m, doc, tasks[..n]) + PayloadOf(db, m, doc, tasks[n])
  }

  lemma NothingOfOtherKinds(db: Db, m: Mapping, doc: Doc, t: TaskDoc, k: Kind)
    ensures !OfTasks(k) ==> Collect(TaskVerdicts(db, m, doc, t, k)) == []
  {
  }

  lemma KindOfPayload(db: Db, m: Mapping, doc: Doc, t: TaskDoc, k: Kind)
    ensures OfKind(PayloadOf(db, m, doc, t), k) == Collect(TaskVerdicts(db, m, doc, t, k))
  {
    hide OfKind, Collect, TaskVerdicts, KindOf;
    var s, p := Collect(TaskVerdicts(db, m, doc, t, SourceKind)), Collect(TaskVerdicts(db, m, doc, t, PredictionKind));
    var r := Collect(TaskVerdicts(db, m, doc, t, ReviewKind));
    NothingOfOtherKinds(db, m, doc, t, k);
    forall j: Kind ensures forall op <- Collect(TaskVerdicts(db, m, doc, t, j)) :: KindOf(op) == j {
      OpsKeepKind(db, m, doc, t, j);
    }
    OneKindOnly(s, SourceKind, k);
    OneKindOnly(p, PredictionKind, k);
    OneKindOnly(r, ReviewKind, k);
    OfKindSplits(s + p, r, k);
    OfKindSplits(s, p, k);
  }

  lemma {:induction false} KindsOfPayload(db: Db, m: Mapping, doc: Doc, tasks: seq<TaskDoc>, k: Kind)
    ensures OfKind(PayloadOps(db, m, doc, tasks), k) == TaskOps(db, m, doc, tasks, k)
  {
    hide OfKind, Collect, TaskVerdicts, PayloadOf;
    if tasks == [] {
      OneKindOnly([], k, k);
    } else {
      var n := |tasks| - 1;
      KindsOfPayload(db, m, doc, tasks[..n], k);
      KindOfPayload(db, m, doc, tasks[n], k);
      OfKindSplits(PayloadOps(db, m, doc, tasks[..n]), PayloadOf(db, m, doc, tasks[n]), k);
    }
  }

  lemma {:induction false} NoTaskOps(db: Db, m: Mapping, doc: Doc, tasks: seq<TaskDoc>, k: Kind)
    requires !OfTasks(k)
    ensures TaskOps(db, m, doc, tasks, k) == []
  {
    if tasks != [] { NoTaskOps(db, m, doc, tasks[..|tasks| - 1], k); }
  }

  lemma SortedPlan(db: Db, m: Mapping, doc: Doc, k: Kind)
    ensures OfKind(Collect(DocVerdicts(db, m, doc, BatchKind)) + Collect(DocVerdicts(db, m, doc, ActionKind))
                   + PayloadOps(db, m, doc, doc.tasks), k) == KindOps(db, m, doc, k)
  {
    hide OfKind, Collect, DocVerdicts, TaskVerdicts, PayloadOps, TaskOps;
    var b, a := Collect(DocVerdicts(db, m, doc, BatchKind)), Collect(DocVerdicts(db, m, doc, ActionKind));
    forall j: Kind ensures forall op <- Collect(DocVerdicts(db, m, doc, j)) :: KindOf(op) == j {
      OpsKeepKind(db, m, doc, TaskDoc(0, [], [], []), j);
    }
    OneKindOnly(b, BatchKind, k);
    OneKindOnly(a, ActionKind, k);
    if !OfTasks(k) { NoTaskOps(db, m, doc, doc.tasks, k); }
    KindsOfPayload(db, m, doc, doc.tasks, k);
    OfKindSplits(b + a, PayloadOps(db, m, doc, doc.tasks), k);
    OfKindSplits(b, a, k);
  }

  /* the counters of the report */

  function CountsOf(ops: seq<Op>): map<Kind, nat> {
    map k <- KINDS :: |OfKind(ops, k)|
  }

  function Sames(vs: seq<Verdict>): nat {
    if vs == [] then 0 else Sames(vs[..|vs| - 1]) + if vs[|vs| - 1].Same? then 1 else 0
  }

  function TaskSames(db: Db, m: Mapping, doc: Doc, tasks: seq<TaskDoc>, k: Kind): nat {
    if tasks == [] then 0
    else
      var n := |tasks| - 1;
      TaskSames(db, m, doc, tasks[..n], k) + Sames(TaskVerdicts(db, m, doc, tasks[n], k))
  }

  lemma OneMoreTask(db: Db, m: Mapping, doc: Doc, tasks: seq<TaskDoc>, i: nat)
    requires i < |tasks|
    ensures PayloadOps(db, m, doc, tasks[..i + 1]) == PayloadOps(db, m, doc, tasks[..i]) + PayloadOf(db, m, doc, tasks[i])
    ensures forall k <- KINDS :: TaskSames(db, m, doc, tasks[..i + 1], k) ==
                                 TaskSames(db, m, doc, tasks[..i], k) + Sames(TaskVerdicts(db, m, doc, tasks[i], k))
    ensures forall x :: x in tasks[..i + 1] <==> x in tasks[..i] || x == tasks[i]
  {
    hide PayloadOf, TaskVerdicts, Sames;
    assert tasks[..i + 1][..i] == tasks[..i];
  }

  lemma NoTaskYet(db: Db, m: Mapping, doc: Doc)
    ensures PayloadOps(db, m, doc, doc.tasks[..0]) == []
    ensures forall k :: TaskSames(db, m, doc, doc.tasks[..0], k) == 0
  {
    hide TaskVerdicts, PayloadOf;
  }

  /** How many records of a kind are in the database as they are. */
  function UnchangedOf(db: Db, m: Mapping, doc: Doc, k: Kind): nat {
    if OfTasks(k) then TaskSames(db, m, doc, doc.tasks, k) else Sames(DocVerdicts(db, m, doc, k))
  }

  lemma CountAfter(ops: seq<Op>, op: Op)
    ensures KindOf(op) in CountsOf(ops)
    ensures CountsOf(ops + [op]) == CountsOf(ops)[KindOf(op) := CountsOf(ops)[KindOf(op)] + 1]
  {
    forall k: Kind ensures |OfKind(ops + [op], k)| == |OfKind(ops, k)| + if KindOf(op) == k then 1 else 0 {
      OfKindSplits(ops, [op], k);
      assert OfKind([op], k) == if KindOf(op) == k then [op] else [];
    }
    AllKinds(KindOf(op));
    hide KindOf, OfKind;
  }

  lemma KindsOfTask(db: Db, m: Mapping, doc: Doc, t: TaskDoc)
    ensures TaskVerdicts(db, m, doc, t, SourceKind) == SourceVerdicts(db, m, doc, t)
    ensures TaskVerdicts(db, m, doc, t, PredictionKind) == PredictionVerdicts(db, m, t)
    ensures TaskVerdicts(db, m, doc, t, ReviewKind) == ReviewVerdicts(db, m, doc, t)
    ensures Sames(TaskVerdicts(db, m, doc, t, BatchKind)) == Sames(TaskVerdicts(db, m, doc, t, ActionKind)) == 0
  {
  }

  /** Goes through the document once, collecting errors and insertions, and counting. */
  class Planner {
    var failed: bool
    var ops: seq<Op>
    var inserted: map<Kind, nat>
    var same: map<Kind, nat>

    constructor ()
      ensures !failed && ops == [] && inserted == CountsOf([]) && same == map k <- KINDS :: 0
    {
      failed, ops := false, [];
      inserted := map k <- KINDS :: 0;
      same := map k <- KINDS :: 0;
    }

    method Note(vs: seq<Verdict>, k: Kind)
      requires k in same && inserted == CountsOf(ops)
      modifies this
      ensures ops == old(ops) + Collect(vs) && failed == (old(failed) || !NoneWrong(vs))
      ensures inserted == CountsOf(ops) && same == old(same)[k := old(same)[k] + Sames(vs)]
    {
      hide OfKind, KindOf, CountsOf;
      for i := 0 to |vs|
        invariant ops == old(ops) + Collect(vs[..i]) && failed == (old(failed) || !NoneWrong(vs[..i]))
        invariant inserted == CountsOf(ops) && same == old(same)[k := old(same)[k] + Sames(vs[..i])]
      {
        assert vs[..i + 1][..i] == vs[..i] && vs[..i + 1][i] == vs[i];
        assert forall v :: v in vs[..i + 1] <==> v in vs[..i] || v == vs[i];
        match vs[i]
        case Wrong => failed := true;
        case Same => same := same[k := same[k] + 1];
        case New(op) =>
          CountAfter(ops, op);
          AllKinds(KindOf(op));
          inserted := inserted[KindOf(op) := inserted[KindOf(op)] + 1];
          ops := ops + [op];
      }
      assert vs[..|vs|] == vs;
    }

    method PlanTasks(db: Db, m: Mapping, doc: Doc)
      requires same.Keys == KINDS && inserted == CountsOf(ops)
      modifies this
      ensures ops == old(ops) + PayloadOps(db, m, doc, doc.tasks) && inserted == CountsOf(ops)
      ensures failed == (old(failed) || exists t <- doc.tasks :: TaskFails(db, m, doc, t))
      ensures same.Keys == KINDS && forall k <- KINDS :: same[k] == old(same)[k] + TaskSames(db, m, doc, doc.tasks, k)
    {
      hide Collect, CountsOf, Sames, TaskFails, PayloadOf, TaskVerdicts, OfTasks, NoneWrong, OfKind, KindOf, PayloadOps;
      hide TaskSames;
      NoTaskYet(db, m, doc);
      for i := 0 to |doc.tasks|
        invariant ops == old(ops) + PayloadOps(db, m, doc, doc.tasks[..i]) && inserted == CountsOf(ops)
        invariant failed == (old(failed) || exists t <- doc.tasks[..i] :: TaskFails(db, m, doc, t))
        invariant same.Keys == KINDS
        invariant forall k <- KINDS :: same[k] == old(same)[k] + TaskSames(db, m, doc, doc.tasks[..i], k)
      {
        OneMoreTask(db, m, doc, doc.tasks, i);
        PlanTask(db, m, doc, doc.tasks[i]);
      }
      assert doc.tasks[..|doc.tasks|] == doc.tasks;
    }

    method PlanTask(db: Db, m: Mapping, doc: Doc, t: TaskDoc)
      requires same.Keys == KINDS && inserted == CountsOf(ops)
      modifies this
      ensures ops == old(ops) + PayloadOf(db, m, doc, t) && inserted == CountsOf(ops)
      ensures failed == (old(failed) || TaskFails(db, m, doc, t))
      ensures same.Keys == KINDS && forall k <- KINDS :: same[k] == old(same)[k] + Sames(TaskVerdicts(db, m, doc, t, k))
    {
      hide NoneWrong, Collect, CountsOf, OfKind, KindOf, Sames, SourceVerdicts, PredictionVerdicts, ReviewVerdicts;
      KindsOfTask(db, m, doc, t);
      hide TaskVerdicts;
      Note(SourceVerdicts(db, m, doc, t), SourceKind);
      Note(PredictionVerdicts(db, m, t), PredictionKind);
      Note(ReviewVerdicts(db, m, doc, t), ReviewKind);
    }

    /** The insertions come out in an order fit for carrying them out. */
    method PlanImport(db: Db, m: Mapping, doc: Doc)
      requires !failed && ops == [] && inserted == CountsOf([]) && same == map k <- KINDS :: 0
      modifies this
      ensures failed <==> !Clean(db, m, doc)
      ensures ops == PlannedOps(db, m, doc) && inserted == CountsOf(ops)
      ensures same == map k <- KINDS :: UnchangedOf(db, m, doc, k)
    {
      hide NoneWrong, Collect, CountsOf, Sames, CoreFound, MappingPresent, TaskVerdicts, DocVerdicts, PayloadOps, TaskOps;
      hide OfKind, KindOps, TaskSames, TaskFails, NothingWrong, PlannedOps, UnchangedOf;
      failed := !CoreFound(db, m, doc) || !MappingPresent(m, doc);
      Note(BatchVerdicts(db, m, doc), BatchKind);
      Note(ActionVerdicts(db, m, doc), ActionKind);
      PlanTasks(db, m, doc);
      ghost var planned := ops;
      ops := Sorted(ops);
      assert planned == Collect(BatchVerdicts(db, m, doc)) + Collect(ActionVerdicts(db, m, doc))
                        + PayloadOps(db, m, doc, doc.tasks);
      SortedIsPlanned(db, m, doc);
      WrongSomewhere(db, m, doc);
      forall k | k in KINDS ensures same[k] == UnchangedOf(db, m, doc, k) { SameSomewhere(db, m, doc, k); }
    }
  }

  /** Stable sorting by kind. */
  function Sorted(ops: seq<Op>): seq<Op> {
    OfKind(ops, BatchKind) + OfKind(ops, SourceKind) + OfKind(ops, PredictionKind) + OfKind(ops, ActionKind)
      + OfKind(ops, ReviewKind)
  }

  lemma SortedIsPlanned(db: Db, m: Mapping, doc: Doc)
    ensures var planned := Collect(BatchVerdicts(db, m, doc)) + Collect(ActionVerdicts(db, m, doc))
                           + PayloadOps(db, m, doc, doc.tasks);
            Sorted(planned) == PlannedOps(db, m, doc) && CountsOf(PlannedOps(db, m, doc)) == CountsOf(planned)
  {
    forall k: Kind { SortedPlan(db, m, doc, k); }
    var planned := Collect(BatchVerdicts(db, m, doc)) + Collect(ActionVerdicts(db, m, doc))
                   + PayloadOps(db, m, doc, doc.tasks);
    hide OfKind, KindOps, Collect, PayloadOps, CountsOf;
    SortingKeepsCounts(db, m, doc, planned);
  }

  predicate TaskFails(db: Db, m: Mapping, doc: Doc, t: TaskDoc) {
    || !NoneWrong(SourceVerdicts(db, m, doc, t)) || !NoneWrong(PredictionVerdicts(db, m, t))
    || !NoneWrong(ReviewVerdicts(db, m, doc, t))
  }

  lemma WrongSomewhere(db: Db, m: Mapping, doc: Doc)
    ensures NothingWrong(db, m, doc) <==>
            && NoneWrong(BatchVerdicts(db, m, doc)) && NoneWrong(ActionVerdicts(db, m, doc))
            && forall t <- doc.tasks :: !TaskFails(db, m, doc, t)
  {
    assert NoneWrong([]);
    forall k: Kind
      ensures NoneWrong(DocVerdicts(db, m, doc, k)) <==> (k.BatchKind? ==> NoneWrong(BatchVerdicts(db, m, doc)))
                                                         && (k.ActionKind? ==> NoneWrong(ActionVerdicts(db, m, doc)))
    {
      hide NoneWrong;
    }
    assert NoneWrong(DocVerdicts(db, m, doc, BatchKind)) <==> NoneWrong(BatchVerdicts(db, m, doc));
    assert NoneWrong(DocVerdicts(db, m, doc, ActionKind)) <==> NoneWrong(ActionVerdicts(db, m, doc));
    forall t | t in doc.tasks
      ensures TaskFails(db, m, doc, t) <==> exists k: Kind :: !NoneWrong(TaskVerdicts(db, m, doc, t, k))
    {
      assert !NoneWrong(SourceVerdicts(db, m, doc, t)) ==> !NoneWrong(TaskVerdicts(db, m, doc, t, SourceKind));
      assert !NoneWrong(PredictionVerdicts(db, m, t)) ==> !NoneWrong(TaskVerdicts(db, m, doc, t, PredictionKind));
      assert !NoneWrong(ReviewVerdicts(db, m, doc, t)) ==> !NoneWrong(TaskVerdicts(db, m, doc, t, ReviewKind));
      hide NoneWrong;
    }
    hide NoneWrong, TaskVerdicts, DocVerdicts, TaskFails;
  }

  lemma SameSomewhere(db: Db, m: Mapping, doc: Doc, k: Kind)
    ensures UnchangedOf(db, m, doc, k) ==
            (if k.BatchKind? then Sames(BatchVerdicts(db, m, doc)) else 0)
            + (if k.ActionKind? then Sames(ActionVerdicts(db, m, doc)) else 0) + TaskSames(db, m, doc, doc.tasks, k)
  {
    if !OfTasks(k) { NoTaskSames(db, m, doc, doc.tasks, k); }
    hide TaskSames, Sames;
  }

  lemma {:induction false} NoTaskSames(db: Db, m: Mapping, doc: Doc, tasks: seq<TaskDoc>, k: Kind)
    requires !OfTasks(k)
    ensures TaskSames(db, m, doc, tasks, k) == 0
  {
    if tasks != [] { NoTaskSames(db, m, doc, tasks[..|tasks| - 1], k); }
  }

  lemma AllKinds(k: Kind)
    ensures k in KINDS
  {
    match k case BatchKind => case SourceKind => case PredictionKind => case ActionKind => case ReviewKind =>
  }

  lemma SortingKeepsCounts(db: Db, m: Mapping, doc: Doc, planned: seq<Op>)
    requires forall k: Kind :: OfKind(planned, k) == KindOps(db, m, doc, k)
    ensures CountsOf(PlannedOps(db, m, doc)) == CountsOf(planned)
  {
    forall k: Kind ensures OfKind(PlannedOps(db, m, doc), k) == KindOps(db, m, doc, k) { KindOfPlanned(db, m, doc, k); }
    hide OfKind, PlannedOps, KindOps;
  }

  lemma KindOfPlanned(db: Db, m: Mapping, doc: Doc, k: Kind)
    ensures OfKind(PlannedOps(db, m, doc), k) == KindOps(db, m, doc, k)
  {
    hide OfKind, KindOps;
    forall j: Kind ensures forall op <- KindOps(db, m, doc, j) :: KindOf(op) == j {
      forall op | op in KindOps(db, m, doc, j) ensures KindOf(op) == j { InKindOps(db, m, doc, j, op); }
    }
    hide KindOf;
    var b, s, p := KindOps(db, m, doc, BatchKind), KindOps(db, m, doc, SourceKind), KindOps(db, m, doc, PredictionKind);
    var a, r := KindOps(db, m, doc, ActionKind), KindOps(db, m, doc, ReviewKind);
    OneKindOnly(b, BatchKind, k);
    OneKindOnly(s, SourceKind, k);
    OneKindOnly(p, PredictionKind, k);
    OneKindOnly(a, ActionKind, k);
    OneKindOnly(r, ReviewKind, k);
    OfKindSplits(b + s + p + a, r, k);
    OfKindSplits(b + s + p, a, k);
    OfKindSplits(b + s, p, k);
    OfKindSplits(b, s, k);
  }
}
