/** Append-only provenance: revisions of source records, chains of scene reviews, and the binding of media identities. */
module Provenance {
  import opened Common

  /** One version of something that is never overwritten: a revision of a source record or a scene review. (Source rows
      do not store the link to the row before.) */
  datatype Row<+C> = Row(id: nat, number: nat, content: C, previous: Option<nat>, current: bool)

  datatype Outcome = Created | Revised | Unchanged | Refused

  /* ---------- chains ---------- */

  predicate InPlace<C(==)>(rows: seq<Row<C>>, i: nat)
    requires i < |rows|
  {
    && rows[i].number == i + 1
    && (rows[i].current <==> i == |rows| - 1)
    && if i == 0 then rows[i].previous.None?
       else rows[i].previous == Some(rows[i - 1].id) && rows[i].content != rows[i - 1].content
  }

  /** Numbers run from 1, each row names the one before, only the last is current, and neighbours differ. */
  ghost predicate ChainOk<C>(rows: seq<Row<C>>) {
    forall i :: 0 <= i < |rows| ==> InPlace(rows, i)
  }

  function Append<C(==)>(rows: seq<Row<C>>, id: nat, content: C): seq<Row<C>> {
    if rows == [] then [Row(id, 1, content, None, true)]
    else
      var n := |rows| - 1;
      if rows[n].content == content then rows
      else rows[..n] + [rows[n].(current := false), Row(id, rows[n].number + 1, content, Some(rows[n].id), true)]
  }

  lemma AppendKeepsChain<C>(rows: seq<Row<C>>, id: nat, content: C)
    requires ChainOk(rows)
    ensures ChainOk(Append(rows, id, content))
  {
    var rows' := Append(rows, id, content);
    if rows != [] && rows' != rows {
      forall i | 0 <= i < |rows'| ensures InPlace(rows', i) {
        if i < |rows| { assert InPlace(rows, i); }
        if 0 < i { assert InPlace(rows, i - 1) && SameRow(rows[i - 1], rows'[i - 1]); }
      }
    }
  }

  /** Looks for the current row, wherever it is, and finds the last one. */
  method FindCurrent<C>(rows: seq<Row<C>>) returns (found: Option<nat>)
    requires ChainOk(rows)
    ensures found == if rows == [] then None else Some(|rows| - 1)
  {
    assert rows != [] ==> InPlace(rows, |rows| - 1);
    for i := 0 to |rows|
      invariant forall j :: 0 <= j < i ==> !rows[j].current
    {
      assert InPlace(rows, i);
      if rows[i].current { return Some(i); }
    }
    found := None;
  }

  /** Closes the current row, if any, and appends the next one. */
  method Succeed<C(==)>(rows: seq<Row<C>>, id: nat, content: C) returns (rows': seq<Row<C>>)
    requires ChainOk(rows) && (rows != [] ==> rows[|rows| - 1].content != content)
    ensures rows' == Append(rows, id, content) && ChainOk(rows')
  {
    AppendKeepsChain(rows, id, content);
    var current := FindCurrent(rows);
    match current
    case None => rows' := [Row(id, 1, content, None, true)];
    case Some(n) =>
      rows' := rows[n := rows[n].(current := false)];
      rows' := rows' + [Row(id, rows[n].number + 1, content, Some(rows[n].id), true)];
  }

  /* ---------- tables ---------- */

  datatype SourceKey = SourceKey(batch: nat, record: string)

  /** What a source row says, and about which task; the digest stands for the evidence it is computed from. */
  datatype Evidence = Evidence(task: TaskId, digest: string)

  datatype ReviewStatus = Pending | Confirmed | Mixed | OutOfScope | Uncertain

  datatype Review = Review(status: ReviewStatus, codes: set<string>, note: string)

  const BLANK: Review := Review(Pending, {}, "")

  datatype Identity = Identity(provider: string, externalId: string, variant: string)

  datatype Binding = Binding(task: TaskId, pcm: Option<string>)

  datatype Tables = Tables(
    nextId: nat,
    sources: map<SourceKey, seq<Row<Evidence>>>,
    reviews: map<VersionId, seq<Row<Review>>>,
    identities: map<Identity, Binding>)

  function RowsOf<K, C>(table: map<K, seq<Row<C>>>, k: K): seq<Row<C>> {
    if k in table then table[k] else []
  }

  /** Every chain is in order; all rows of a source record are about one task; no review chain starts with a blank. */
  ghost predicate SourcesOk(rows: seq<Row<Evidence>>) {
    ChainOk(rows) && forall i :: 0 <= i < |rows| ==> rows[i].content.task == rows[0].content.task
  }

  ghost predicate ReviewsOk(rows: seq<Row<Review>>) {
    ChainOk(rows) && (rows != [] ==> rows[0].content != BLANK)
  }

  ghost predicate Ok(t: Tables) {
    && (forall k <- t.sources :: SourcesOk(t.sources[k]))
    && (forall v <- t.reviews :: ReviewsOk(t.reviews[v]))
  }

  /* ---------- the three writes ---------- */

  function SyncOutcome(rows: seq<Row<Evidence>>, e: Evidence): Outcome {
    if rows == [] then Created
    else if rows[|rows| - 1].content.task != e.task then Refused
    else if rows[|rows| - 1].content.digest == e.digest then Unchanged
    else Revised
  }

  function Sync(t: Tables, k: SourceKey, e: Evidence): (Tables, Outcome) {
    var rows := RowsOf(t.sources, k);
    var o := SyncOutcome(rows, e);
    if o.Refused? || o.Unchanged? then (t, o)
    else (t.(nextId := t.nextId + 1, sources := t.sources[k := Append(rows, t.nextId, e)]), o)
  }

  function AppendReview(t: Tables, v: VersionId, r: Review): (Tables, bool) {
    var rows := RowsOf(t.reviews, v);
    if (if rows == [] then r == BLANK else rows[|rows| - 1].content == r) then (t, false)
    else (t.(nextId := t.nextId + 1, reviews := t.reviews[v := Append(rows, t.nextId, r)]), true)
  }

  predicate Clashes(pcm: Option<string>, pcm': Option<string>) {
    pcm.Some? && pcm'.Some? && pcm != pcm'
  }

  function Attach(t: Tables, i: Identity, task: TaskId, pcm: Option<string>): (Tables, Outcome) {
    if i !in t.identities then (t.(identities := t.identities[i := Binding(task, pcm)]), Created)
    else
      var b := t.identities[i];
      if Clashes(pcm, b.pcm) || b.task != task then (t, Refused)
      else if pcm.Some? && b.pcm.None? then (t.(identities := t.identities[i := Binding(task, pcm)]), Revised)
      else (t, Unchanged)
  }

  class MetadataRepository {
    var nextId: nat
    var sources: map<SourceKey, seq<Row<Evidence>>>
    var reviews: map<VersionId, seq<Row<Review>>>
    var identities: map<Identity, Binding>

    function State(): Tables
      reads this
    {
      Tables(nextId, sources, reviews, identities)
    }

    constructor ()
      ensures State() == Tables(0, map[], map[], map[]) && Ok(State())
    {
      nextId, sources, reviews, identities := 0, map[], map[], map[];
    }

    method SyncSourceRecord(k: SourceKey, e: Evidence) returns (o: Outcome)
      requires Ok(State())
      modifies this`nextId, this`sources
      ensures (State(), o) == Sync(old(State()), k, e) && Ok(State())
    {
      SyncKeepsOk(State(), k, e);
      var rows := if k in sources then sources[k] else [];
      var current := FindCurrent(rows);
      if current.Some? && rows[current.value].content.task != e.task { return Refused; }
      if current.Some? && rows[current.value].content.digest == e.digest { return Unchanged; }
      var id := nextId;
      nextId := nextId + 1;
      rows := Succeed(rows, id, e);
      sources := sources[k := rows];
      o := if current.Some? then Revised else Created;
    }

    method AppendSceneReview(v: VersionId, r: Review) returns (changed: bool)
      requires Ok(State())
      modifies this`nextId, this`reviews
      ensures (State(), changed) == AppendReview(old(State()), v, r) && Ok(State())
    {
      ReviewKeepsOk(State(), v, r);
      var rows := if v in reviews then reviews[v] else [];
      var latest := FindCurrent(rows);
      if latest.None? && r == BLANK { return false; }
      if latest.Some? && rows[latest.value].content == r { return false; }
      var id := nextId;
      nextId := nextId + 1;
      rows := Succeed(rows, id, r);
      reviews := reviews[v := rows];
      changed := true;
    }

    method AttachIdentity(i: Identity, task: TaskId, pcm: Option<string>) returns (o: Outcome)
      requires Ok(State())
      modifies this`identities
      ensures (State(), o) == Attach(old(State()), i, task, pcm) && Ok(State())
    {
      if i !in identities {
        identities := identities[i := Binding(task, pcm)];
        return Created;
      }
      var b := identities[i];
      if pcm.Some? && b.pcm.Some? && pcm != b.pcm { return Refused; }
      if b.task != task { return Refused; }
      if pcm.Some? && b.pcm.None? {
        identities := identities[i := b.(pcm := pcm)];
        return Revised;
      }
      o := Unchanged;
    }
  }

  /* ---------- the chains over every run ---------- */

  datatype Write =
    | DoSync(key: SourceKey, evidence: Evidence)
    | DoReview(version: VersionId, review: Review)
    | DoAttach(identity: Identity, task: TaskId, pcm: Option<string>)

  function Step(t: Tables, w: Write): Tables {
    match w
    case DoSync(k, e) => Sync(t, k, e).0
    case DoReview(v, r) => AppendReview(t, v, r).0
    case DoAttach(i, task, pcm) => Attach(t, i, task, pcm).0
  }

  function Run(t: Tables, ws: seq<Write>): Tables
    decreases |ws|
  {
    if ws == [] then t else Run(Step(t, ws[0]), ws[1..])
  }

  lemma SyncKeepsOk(t: Tables, k: SourceKey, e: Evidence)
    requires Ok(t)
    ensures Ok(Sync(t, k, e).0)
  {
    var rows := RowsOf(t.sources, k);
    assert SourcesOk(rows);
    AppendKeepsChain(rows, t.nextId, e);
  }

  lemma ReviewKeepsOk(t: Tables, v: VersionId, r: Review)
    requires Ok(t)
    ensures Ok(AppendReview(t, v, r).0)
  {
    var rows := RowsOf(t.reviews, v);
    assert ReviewsOk(rows);
    AppendKeepsChain(rows, t.nextId, r);
  }

  lemma StepKeepsOk(t: Tables, w: Write)
    requires Ok(t)
    ensures Ok(Step(t, w))
  {
    match w
    case DoSync(k, e) => SyncKeepsOk(t, k, e);
    case DoReview(v, r) => ReviewKeepsOk(t, v, r);
    case DoAttach(_, _, _) =>
  }

  /** What was written stays, but for the mark of the current row: earlier rows keep number, content and link. */
  predicate SameRow<C(==)>(a: Row<C>, b: Row<C>) {
    a.id == b.id && a.number == b.number && a.content == b.content && a.previous == b.previous
  }

  ghost predicate Longer<C>(rows: seq<Row<C>>, rows': seq<Row<C>>) {
    |rows| <= |rows'| && forall i :: 0 <= i < |rows| ==> SameRow(rows[i], rows'[i])
  }

  /** Bindings keep their task, and their digest once they have one. */
  predicate Kept(b: Binding, b': Binding) {
    b'.task == b.task && (b.pcm.Some? ==> b'.pcm == b.pcm)
  }

  ghost predicate Grows(t: Tables, t': Tables) {
    && (forall k <- t.sources :: k in t'.sources && Longer(t.sources[k], t'.sources[k]))
    && (forall v <- t.reviews :: v in t'.reviews && Longer(t.reviews[v], t'.reviews[v]))
    && (forall i <- t.identities :: i in t'.identities && Kept(t.identities[i], t'.identities[i]))
  }

  lemma GrowsAlready(t: Tables)
    ensures Grows(t, t)
  {
  }

  lemma StepGrows(t: Tables, w: Write)
    ensures Grows(t, Step(t, w))
  {
    match w
    case DoSync(k, e) =>
      LongerByAppend(RowsOf(t.sources, k), t.nextId, e);
      hide Append, Longer;
      LongerAlready(t);
    case DoReview(v, r) =>
      LongerByAppend(RowsOf(t.reviews, v), t.nextId, r);
      hide Append, Longer;
      LongerAlready(t);
    case DoAttach(_, _, _) =>
      hide Longer;
      LongerAlready(t);
  }

  lemma LongerByAppend<C>(rows: seq<Row<C>>, id: nat, content: C)
    ensures Longer(rows, Append(rows, id, content))
  {
  }

  lemma LongerAlready(t: Tables)
    ensures forall k <- t.sources :: Longer(t.sources[k], t.sources[k])
    ensures forall v <- t.reviews :: Longer(t.reviews[v], t.reviews[v])
  {
  }

  /** In every run from empty tables: each record has revisions 1..n on one task of which only the last is current, each
      version's reviews are linked 1..n of which only the last stands, neighbours always differ; and nothing written is
      ever lost, moved to another task or changed. */
  lemma {:induction false} NothingIsRewritten(t: Tables, ws: seq<Write>)
    requires Ok(t)
    ensures Ok(Run(t, ws)) && Grows(t, Run(t, ws))
    decreases |ws|
  {
    hide Ok, Grows, Step;
    if ws == [] {
      GrowsAlready(t);
    } else {
      StepKeepsOk(t, ws[0]);
      StepGrows(t, ws[0]);
      NothingIsRewritten(Step(t, ws[0]), ws[1..]);
      GrowsChains(t, Step(t, ws[0]), Run(t, ws));
    }
  }

  lemma GrowsChains(a: Tables, b: Tables, c: Tables)
    requires Grows(a, b) && Grows(b, c)
    ensures Grows(a, c)
  {
  }

  /* ---------- what one write leaves ---------- */

  /** A row was added at the end: numbered next, naming the one before, and current; the others are as they were, but that
      none of them is current. */
  ghost predicate Added<C>(rows: seq<Row<C>>, rows': seq<Row<C>>, id: nat, content: C) {
    var n := |rows|;
    && |rows'| == n + 1 && rows'[n].id == id && rows'[n].number == n + 1 && rows'[n].content == content && rows'[n].current
    && rows'[n].previous == (if n == 0 then None else Some(rows[n - 1].id))
    && forall i :: 0 <= i < n ==> SameRow(rows[i], rows'[i]) && !rows'[i].current
  }

  lemma AppendAdds<C>(rows: seq<Row<C>>, id: nat, content: C)
    requires ChainOk(rows) && (rows != [] ==> rows[|rows| - 1].content != content)
    ensures Added(rows, Append(rows, id, content), id, content)
  {
    if rows != [] {
      assert InPlace(rows, |rows| - 1);
      forall i | 0 <= i < |rows| ensures SameRow(rows[i], Append(rows, id, content)[i]) && !Append(rows, id, content)[i].current {
        assert InPlace(rows, i);
      }
    }
  }

  /** A review is recorded exactly if it says something else than the version's latest one, or, as the first, anything at
      all; it is then the version's current review. */
  lemma ReviewSays(t: Tables, v: VersionId, r: Review)
    requires Ok(t)
    ensures var ((t', changed), rows) := (AppendReview(t, v, r), RowsOf(t.reviews, v));
            && (changed <==> if rows == [] then r != Review(Pending, {}, "") else rows[|rows| - 1].content != r)
            && (!changed ==> t' == t)
            && (changed ==> && t' == t.(nextId := t.nextId + 1, reviews := t.reviews[v := RowsOf(t'.reviews, v)])
                            && Added(rows, RowsOf(t'.reviews, v), t.nextId, r))
  {
    var rows := RowsOf(t.reviews, v);
    assert ReviewsOk(rows);
    if rows == [] || rows[|rows| - 1].content != r { AppendAdds(rows, t.nextId, r); }
  }

  /** Evidence about a record that belongs to another task is refused, and evidence with the current digest changes nothing;
      any other becomes the record's current revision. */
  lemma SyncOutcomes(t: Tables, k: SourceKey, e: Evidence)
    requires Ok(t)
    ensures var ((t', o), rows) := (Sync(t, k, e), RowsOf(t.sources, k));
            if rows != [] && rows[|rows| - 1].content.task != e.task then (t', o) == (t, Refused)
            else if rows != [] && rows[|rows| - 1].content.digest == e.digest then (t', o) == (t, Unchanged)
            else
              && o == (if rows == [] then Created else Revised)
              && t' == t.(nextId := t.nextId + 1, sources := t.sources[k := RowsOf(t'.sources, k)])
              && Added(rows, RowsOf(t'.sources, k), t.nextId, e)
  {
    var rows := RowsOf(t.sources, k);
    assert SourcesOk(rows);
    if rows == [] || rows[|rows| - 1].content != e { AppendAdds(rows, t.nextId, e); }
  }

  /** An identity is bound to the first task it comes with and to the first digest; another task, or another digest than
      the one it has, is refused. */
  lemma AttachOutcomes(t: Tables, i: Identity, task: TaskId, pcm: Option<string>)
    ensures var (t', o) := Attach(t, i, task, pcm);
            if i !in t.identities then o == Created && t' == t.(identities := t.identities[i := Binding(task, pcm)])
            else
              var b := t.identities[i];
              if b.task != task || (pcm.Some? && b.pcm.Some? && pcm.value != b.pcm.value) then (t', o) == (t, Refused)
              else if b.pcm.None? && pcm.Some? then
                o == Revised && t' == t.(identities := t.identities[i := Binding(b.task, pcm)])
              else (t', o) == (t, Unchanged)
  {
  }

  /* ---------- synchronising the same records again ---------- */

  datatype Record = Record(key: SourceKey, evidence: Evidence)

  /** Synchronises a list; a refusal rolls the whole list back. */
  function SyncAll(t: Tables, records: seq<Record>): Option<Tables>
    decreases |records|
  {
    if records == [] then Some(t)
    else
      var (t1, o) := Sync(t, records[0].key, records[0].evidence);
      if o.Refused? then None else SyncAll(t1, records[1..])
  }

  /** The list says one thing about each record. */
  ghost predicate Consistent(records: seq<Record>) {
    forall r, s :: r in records && s in records && r.key == s.key ==> r.evidence == s.evidence
  }

  predicate Says(t: Tables, r: Record) {
    var rows := RowsOf(t.sources, r.key);
    rows != [] && rows[|rows| - 1].content == r.evidence
  }

  lemma SyncSays(t: Tables, r: Record)
    requires !Sync(t, r.key, r.evidence).1.Refused?
    ensures Says(Sync(t, r.key, r.evidence).0, r)
    ensures Says(t, r) <==> Sync(t, r.key, r.evidence).0 == t
  {
    if Says(t, r) { assert Sync(t, r.key, r.evidence).1.Unchanged?; }
  }

  /** After a list has been taken in, each record's current row is what the last entry for it says. */
  lemma {:induction false} LastEntryStands(t: Tables, records: seq<Record>, r: Record)
    requires SyncAll(t, records).Some?
    requires forall s <- records :: s.key == r.key ==> s.evidence == r.evidence
    requires r in records || Says(t, r)
    ensures Says(SyncAll(t, records).value, r)
    decreases |records|
  {
    if records != [] {
      var t1 := Sync(t, records[0].key, records[0].evidence).0;
      SyncSays(t, records[0]);
      assert r in records ==> r == records[0] || r in records[1..];
      assert records[0] in records;
      if r !in records[1..] {
        if records[0].key == r.key { assert Says(t1, r); } else { assert Says(t1, r); }
      }
      LastEntryStands(t1, records[1..], r);
    }
  }

  lemma {:induction false} AllSaidIsNoOp(t: Tables, records: seq<Record>)
    requires forall r <- records :: Says(t, r)
    ensures SyncAll(t, records) == Some(t)
    decreases |records|
  {
    if records != [] {
      assert records[0] in records && Says(t, records[0]);
      assert Sync(t, records[0].key, records[0].evidence).1.Unchanged?;
      AllSaidIsNoOp(t, records[1..]);
    }
  }

  lemma {:induction false} IdsOnlyGrow(t: Tables, records: seq<Record>)
    requires SyncAll(t, records).Some?
    ensures SyncAll(t, records).value.nextId >= t.nextId
    decreases |records|
  {
    if records != [] { IdsOnlyGrow(Sync(t, records[0].key, records[0].evidence).0, records[1..]); }
  }

  lemma {:induction false} NoOpSaysAll(t: Tables, records: seq<Record>)
    requires SyncAll(t, records) == Some(t)
    ensures forall r <- records :: Says(t, r)
    decreases |records|
  {
    if records != [] {
      var t1 := Sync(t, records[0].key, records[0].evidence).0;
      IdsOnlyGrow(t1, records[1..]);
      assert t1.nextId == t.nextId;
      SyncSays(t, records[0]);
      NoOpSaysAll(t, records[1..]);
      assert forall r <- records :: r == records[0] || r in records[1..];
    }
  }

  /** Taking in the same list a second time changes nothing exactly when the list does not say two different things about
      one record: with two digests for one record every repetition appends further revisions. */
  lemma ResyncIsNoOp(t: Tables, records: seq<Record>)
    requires SyncAll(t, records).Some?
    ensures var t1 := SyncAll(t, records).value; SyncAll(t1, records) == Some(t1) <==> Consistent(records)
  {
    var t1 := SyncAll(t, records).value;
    if Consistent(records) {
      forall r | r in records ensures Says(t1, r) { LastEntryStands(t, records, r); }
      AllSaidIsNoOp(t1, records);
    }
    if SyncAll(t1, records) == Some(t1) {
      NoOpSaysAll(t1, records);
    }
  }
}
