/** What any sequence of DeepSec reviews leaves in the database, counted against what was reported. */
module Deduplication {
  import opened Options
  import opened Records
  import opened Engines
  import opened AuditTrail
  import opened Lawfulness

  predicate Describes(finding: Finding, repo: nat, report: Report) {
    finding.repo == repo && finding.fingerprint == report.fingerprint
  }

  /** The returned ids name the reported findings, one source location is stored per report, and a
      finding's last commit moves iff it was reported. */
  ghost predicate Stored(a: Db, b: Db, repo: nat, head: string, reports: seq<Report>, ids: seq<nat>) {
    && |ids| == |reports| && |a.findings| <= |b.findings|
    && (forall i | 0 <= i < |ids| :: ids[i] < |b.findings| && Describes(b.findings[ids[i]], repo, reports[i]))
    && b.locations == a.locations
       + seq(|ids|, i requires 0 <= i < |ids| && |reports| == |ids| => Location(ids[i], reports[i].filePath, head))
    && forall f | 0 <= f < |b.findings| ::
         if f in ids then b.findings[f].lastSeen == head
         else f < |a.findings| && b.findings[f].lastSeen == a.findings[f].lastSeen
  }

  lemma UpsertEffect(db: Db, repo: nat, r: nat, head: string, report: Report)
    requires Ledger(db)
    ensures var u := UpsertFinding(db, repo, r, head, report);
            u.Some? && Lawful(db, u.value.db) && Stored(db, u.value.db, repo, head, [report], [u.value.id])
  {
    hide Ledger, Lawful, Stored, UpsertFinding;
    UpsertFindingIsLawful(db, repo, r, head, report);
    UpsertStores(db, repo, r, head, report);
  }

  lemma UpsertStores(db: Db, repo: nat, r: nat, head: string, report: Report)
    requires UpsertFinding(db, repo, r, head, report).Some?
    ensures var u := UpsertFinding(db, repo, r, head, report).value; Stored(db, u.db, repo, head, [report], [u.id])
  {
    hide FindByPrint;
  }

  /**
   What one report writes. A finding that is known only moves its last commit; a new one takes its columns
   from the report, and is confirmed from source at once if the report is of high confidence.
   */
  lemma UpsertIsExact(db: Db, repo: nat, r: nat, head: string, report: Report)
    ensures var u := UpsertFinding(db, repo, r, head, report);
            var found := FindByPrint(db.findings, repo, report.fingerprint);
            var id := if found.Some? then found.value else |db.findings|;
            var confirmed := report.confidence == HighConfidence;
            && u.Some? && u.value.id == id
            && u.value.db.locations == db.locations + [Location(id, report.filePath, head)]
            && u.value.db.findings
            == (if found.Some? then db.findings[id := db.findings[id].(lastSeen := head)]
                else db.findings + [Finding(repo, report.fingerprint, report.severity, report.confidence,
                                            report.category, if confirmed then SourceConfirmed else Suspected,
                                            head, head)])
            && u.value.db.events
            == db.events
               + (if found.Some? then [] else [FindingMoved(id, Some(r), None, Suspected)])
               + (if found.Some? || !confirmed then []
                  else [FindingMoved(id, Some(r), Some(Suspected), SourceConfirmed)])
            && u.value.db.runs == db.runs && u.value.db.requests == db.requests
            && u.value.db.validations == db.validations && u.value.db.executions == db.executions
            && u.value.db.remediations == db.remediations
  {
    hide FindByPrint;
  }

  lemma StoredCompose(
    a: Db, b: Db, c: Db, repo: nat, head: string, reports: seq<Report>, report: Report, ids: seq<nat>, id: nat)
    requires Stored(a, b, repo, head, reports, ids) && Stored(b, c, repo, head, [report], [id]) && Grows(b, c)
    ensures Stored(a, c, repo, head, reports + [report], ids + [id])
  {
    forall i | 0 <= i < |ids| ensures Describes(c.findings[ids[i]], repo, reports[i]) {
      assert FindingIdentity(b.findings[ids[i]]) == FindingIdentity(c.findings[ids[i]]);
    }
    assert [id][0] == id && [report][0] == report;
  }

  lemma UpsertSnoc(db: Db, repo: nat, r: nat, head: string, reports: seq<Report>)
    requires reports != [] && UpsertAll(db, repo, r, head, reports).Some?
    ensures var n := |reports| - 1;
            var rest := UpsertAll(db, repo, r, head, reports[..n]);
            && rest.Some?
            && var last := UpsertFinding(rest.value.db, repo, r, head, reports[n]);
            last.Some?
            && UpsertAll(db, repo, r, head, reports).value == Persisted(last.value.db, rest.value.ids + [last.value.id])
  {}

  lemma StoredNothing(db: Db, repo: nat, r: nat, head: string)
    ensures UpsertAll(db, repo, r, head, []) == Some(Persisted(db, [])) && Stored(db, db, repo, head, [], [])
  {}

  lemma {:induction false} UpsertAllEffect(db: Db, repo: nat, r: nat, head: string, reports: seq<Report>)
    requires Ledger(db)
    ensures var u := UpsertAll(db, repo, r, head, reports);
            u.Some? && Lawful(db, u.value.db) && Stored(db, u.value.db, repo, head, reports, u.value.ids)
  {
    hide *;
    UpsertAllIsLawful(db, repo, r, head, reports);
    if reports == [] {
      StoredNothing(db, repo, r, head);
    } else {
      UpsertSnoc(db, repo, r, head, reports);
      var n := |reports| - 1;
      UpsertAllEffect(db, repo, r, head, reports[..n]);
      var rest := UpsertAll(db, repo, r, head, reports[..n]).value;
      LastUpsert(db, rest.db, repo, r, head, reports[n]);
      var last := UpsertFinding(rest.db, repo, r, head, reports[n]).value;
      StoredCompose(db, rest.db, last.db, repo, head, reports[..n], reports[n], rest.ids, last.id);
      assert reports[..n] + [reports[n]] == reports;
    }
  }

  lemma LastUpsert(a: Db, db: Db, repo: nat, r: nat, head: string, report: Report)
    requires Lawful(a, db)
    ensures var u := UpsertFinding(db, repo, r, head, report);
            u.Some? && Grows(db, u.value.db) && Stored(db, u.value.db, repo, head, [report], [u.value.id])
  {
    UpsertEffect(db, repo, r, head, report);
    hide UpsertFinding, Stored, Grows;
  }

  /** Storing one batch never throws, and duplicates within it get the same id. */
  lemma PersistEffect(db: Db, repo: nat, r: nat, head: string, reports: seq<Report>, cost: real)
    requires Ledger(db)
    ensures var u := PersistDeepSec(db, repo, r, head, reports, cost);
            && u.Some? && Lawful(db, u.value.db) && Stored(db, u.value.db, repo, head, reports, u.value.ids)
            && forall i, j | 0 <= i < |reports| && 0 <= j < |reports| ::
                 u.value.ids[i] == u.value.ids[j] <==> reports[i].fingerprint == reports[j].fingerprint
  {
    hide Ledger, Lawful, Stored, UpsertAll, UniqueRows;
    var db1 := db.(executions := db.executions + [Execution(r, cost)]);
    ExecutedIsLawful(db, Execution(r, cost));
    LawfulKeepsLedger(db, db1);
    UpsertAllEffect(db1, repo, r, head, reports);
    var u := UpsertAll(db1, repo, r, head, reports).value;
    LawfulTransitive(db, db1, u.db);
    LawfulIsUnique(db, u.db);
    StoredElsewhere(db1, db, u.db, repo, head, reports, u.ids);
    IdsArePrints(db, u.db, repo, head, reports, u.ids);
  }

  lemma LawfulIsUnique(a: Db, b: Db)
    requires Lawful(a, b)
    ensures UniqueRows(b)
  {
    hide UniqueRows, Grows;
  }

  lemma StoredElsewhere(a1: Db, a: Db, b: Db, repo: nat, head: string, reports: seq<Report>, ids: seq<nat>)
    requires Stored(a1, b, repo, head, reports, ids) && a1.findings == a.findings && a1.locations == a.locations
    ensures Stored(a, b, repo, head, reports, ids)
  {
    hide Describes;
  }

  lemma IdsArePrints(a: Db, b: Db, repo: nat, head: string, reports: seq<Report>, ids: seq<nat>)
    requires Stored(a, b, repo, head, reports, ids) && UniqueRows(b)
    ensures |ids| == |reports|
    ensures forall i, j | 0 <= i < |reports| && 0 <= j < |reports| ::
              ids[i] == ids[j] <==> reports[i].fingerprint == reports[j].fingerprint
  {
    forall i, j | 0 <= i < |reports| && 0 <= j < |reports|
      ensures ids[i] == ids[j] <==> reports[i].fingerprint == reports[j].fingerprint
    {
      assert Describes(b.findings[ids[i]], repo, reports[i]);
      assert Describes(b.findings[ids[j]], repo, reports[j]);
    }
  }

  // ---------------------------------------------------------------- any number of batches

  datatype Batch = Batch(repo: nat, run: nat, headSha: string, reports: seq<Report>, cost: real)

  function PersistAll(db: Db, batches: seq<Batch>): Option<Db> {
    if batches == [] then Some(db) else
    var rest :- PersistAll(db, batches[..|batches| - 1]);
    var b := batches[|batches| - 1];
    var saved :- PersistDeepSec(rest, b.repo, b.run, b.headSha, b.reports, b.cost);
    Some(saved.db)
  }

  function Reported(batches: seq<Batch>): nat {
    if batches == [] then 0 else Reported(batches[..|batches| - 1]) + |batches[|batches| - 1].reports|
  }

  predicate Mentions(batch: Batch, finding: Finding) {
    exists i | 0 <= i < |batch.reports| :: Describes(finding, batch.repo, batch.reports[i])
  }

  /** The head SHA of the last batch that reported the finding. */
  function LastHead(batches: seq<Batch>, finding: Finding): Option<string> {
    if batches == [] then None else
    var b := batches[|batches| - 1];
    if Mentions(b, finding) then Some(b.headSha) else LastHead(batches[..|batches| - 1], finding)
  }

  ghost predicate LastCommits(a: Db, b: Db, batches: seq<Batch>) {
    forall f | 0 <= f < |b.findings| ::
      match LastHead(batches, b.findings[f])
      case Some(head) => b.findings[f].lastSeen == head
      case None => f < |a.findings| && b.findings[f].lastSeen == a.findings[f].lastSeen
  }

  lemma {:induction false} LastHeadByIdentity(batches: seq<Batch>, f: Finding, g: Finding)
    requires FindingIdentity(f) == FindingIdentity(g)
    ensures LastHead(batches, f) == LastHead(batches, g)
  {
    if batches != [] {
      LastHeadByIdentity(batches[..|batches| - 1], f, g);
      var b := batches[|batches| - 1];
      assert forall i | 0 <= i < |b.reports| ::
          Describes(f, b.repo, b.reports[i]) <==> Describes(g, b.repo, b.reports[i]);
    }
  }

  lemma MentionedIsStored(b: Db, c: Db, batch: Batch, ids: seq<nat>, f: nat)
    requires Stored(b, c, batch.repo, batch.headSha, batch.reports, ids) && UniqueRows(c) && f < |c.findings|
    ensures Mentions(batch, c.findings[f]) <==> f in ids
  {
    if Mentions(batch, c.findings[f]) {
      var i :| 0 <= i < |batch.reports| && Describes(c.findings[f], batch.repo, batch.reports[i]);
      assert Describes(c.findings[ids[i]], batch.repo, batch.reports[i]);
    }
    if f in ids {
      var i :| 0 <= i < |ids| && ids[i] == f;
      assert Describes(c.findings[f], batch.repo, batch.reports[i]);
    }
  }

  lemma LastCommitsStep(a: Db, b: Db, c: Db, batches: seq<Batch>, batch: Batch, ids: seq<nat>)
    requires LastCommits(a, b, batches) && Lawful(b, c)
    requires Stored(b, c, batch.repo, batch.headSha, batch.reports, ids)
    ensures LastCommits(a, c, batches + [batch])
  {
    var all := batches + [batch];
    assert all[..|batches|] == batches;
    forall f | 0 <= f < |c.findings|
      ensures match LastHead(all, c.findings[f])
              case Some(head) => c.findings[f].lastSeen == head
              case None => f < |a.findings| && c.findings[f].lastSeen == a.findings[f].lastSeen
    {
      MentionedIsStored(b, c, batch, ids, f);
      if f !in ids { LastHeadByIdentity(batches, b.findings[f], c.findings[f]); }
    }
  }

  /**
   Over any sequence of reviews: nothing throws; each fingerprint has one finding per repository; as
   many findings are created as creation events are logged; one source location is kept per report;
   the first commit never changes and the last commit is the head of the last review that saw it.
   */
  lemma ReviewsAreConserved(db: Db, batches: seq<Batch>)
    requires Ledger(db)
    ensures var b := PersistAll(db, batches);
            && b.Some? && Lawful(db, b.value) && UniqueRows(b.value)
            && Created(b.value.events) - Created(db.events) == |b.value.findings| - |db.findings|
            && |b.value.locations| == |db.locations| + Reported(batches)
            && (forall f | 0 <= f < |db.findings| :: b.value.findings[f].firstSeen == db.findings[f].firstSeen)
            && LastCommits(db, b.value, batches)
  {
    hide *;
    BatchesConserve(db, batches);
    ConservedIs(db, PersistAll(db, batches).value, batches);
  }

  /** What stays true of a database that these batches were stored in. */
  ghost predicate Conserved(a: Db, b: Db, batches: seq<Batch>) {
    && Lawful(a, b)
    && Created(b.events) - Created(a.events) == |b.findings| - |a.findings|
    && |b.locations| == |a.locations| + Reported(batches)
    && (forall f | 0 <= f < |a.findings| :: b.findings[f].firstSeen == a.findings[f].firstSeen)
    && LastCommits(a, b, batches)
  }

  lemma ConservedIs(a: Db, b: Db, batches: seq<Batch>)
    requires Conserved(a, b, batches)
    ensures Lawful(a, b) && UniqueRows(b)
    ensures Created(b.events) - Created(a.events) == |b.findings| - |a.findings|
    ensures |b.locations| == |a.locations| + Reported(batches)
    ensures |a.findings| <= |b.findings|
    ensures forall f | 0 <= f < |a.findings| :: b.findings[f].firstSeen == a.findings[f].firstSeen
    ensures LastCommits(a, b, batches)
  {
    hide Reported, LastCommits, Created, UniqueRows;
    LawfulGrows(a, b);
    LawfulIsUnique(a, b);
  }

  lemma LawfulGrows(a: Db, b: Db)
    requires Lawful(a, b)
    ensures |a.findings| <= |b.findings|
    ensures forall f | 0 <= f < |a.findings| :: b.findings[f].firstSeen == a.findings[f].firstSeen
  {
    hide Ledger;
    forall f | 0 <= f < |a.findings| ensures b.findings[f].firstSeen == a.findings[f].firstSeen {
      assert FindingIdentity(a.findings[f]) == FindingIdentity(b.findings[f]);
    }
  }

  lemma CreatedIsCounted(a: Db, b: Db)
    requires Ledger(a) && Lawful(a, b)
    ensures Created(b.events) - Created(a.events) == |b.findings| - |a.findings|
  {
    hide Created, Grows;
  }

  lemma NothingPersisted(db: Db)
    requires Ledger(db)
    ensures PersistAll(db, []) == Some(db) && Conserved(db, db, [])
  {
    LawfulReflexive(db);
    hide Lawful, Ledger, Created;
  }

  lemma PersistSnoc(db: Db, batches: seq<Batch>)
    requires batches != []
    ensures var n := |batches| - 1;
            var rest, last := PersistAll(db, batches[..n]), batches[n];
            rest.Some? ==>
              var saved := PersistDeepSec(rest.value, last.repo, last.run, last.headSha, last.reports, last.cost);
              PersistAll(db, batches) == if saved.None? then None else Some(saved.value.db)
  {
    hide PersistDeepSec;
  }

  lemma ConservedSnoc(a: Db, b: Db, c: Db, batches: seq<Batch>, last: Batch, ids: seq<nat>)
    requires Ledger(a) && Conserved(a, b, batches) && Lawful(b, c)
    requires Stored(b, c, last.repo, last.headSha, last.reports, ids)
    ensures Conserved(a, c, batches + [last])
  {
    hide Ledger, Lawful, LastCommits, LastHead, Created, Describes;
    LawfulTransitive(a, b, c);
    CreatedIsCounted(a, c);
    LawfulGrows(a, c);
    LastCommitsStep(a, b, c, batches, last, ids);
    assert (batches + [last])[..|batches|] == batches;
  }

  lemma {:induction false} BatchesConserve(db: Db, batches: seq<Batch>)
    requires Ledger(db)
    ensures PersistAll(db, batches).Some? && Conserved(db, PersistAll(db, batches).value, batches)
  {
    hide *;
    if batches == [] {
      NothingPersisted(db);
    } else {
      var n := |batches| - 1;
      var last := batches[n];
      BatchesConserve(db, batches[..n]);
      var rest := PersistAll(db, batches[..n]).value;
      ConservedIs(db, rest, batches[..n]);
      LawfulKeepsLedger(db, rest);
      PersistEffect(rest, last.repo, last.run, last.headSha, last.reports, last.cost);
      var saved := PersistDeepSec(rest, last.repo, last.run, last.headSha, last.reports, last.cost).value;
      ConservedSnoc(db, rest, saved.db, batches[..n], last, saved.ids);
      assert batches[..n] + [last] == batches;
      PersistSnoc(db, batches);
    }
  }
}
