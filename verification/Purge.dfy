/** The batched purge of old rows, with other coroutines running between the batches. */
module Purge {
  import opened Options

  datatype Status = Active | Paused | Ended

  // A message or an event; an event may belong to no session.
  datatype Row = Row(created: real, session: Option<string>)

  datatype Kind = Messages | Events

  predicate InUse(sessions: map<string, Status>, session: string) {
    session in sessions && (sessions[session] == Active || sessions[session] == Paused)
  }

  // The WHERE clause of the two DELETE statements; the messages table has no row without a session.
  predicate Eligible(kind: Kind, row: Row, cutoff: real, sessions: map<string, Status>) {
    row.created < cutoff &&
    match row.session case None => kind == Events case Some(id) => !InUse(sessions, id)
  }

  function EligibleIds(kind: Kind, rows: map<nat, Row>, cutoff: real, sessions: map<string, Status>): set<nat> {
    set id | id in rows && Eligible(kind, rows[id], cutoff, sessions)
  }

  // One big DELETE.
  function OneShot(kind: Kind, rows: map<nat, Row>, cutoff: real, sessions: map<string, Status>): map<nat, Row> {
    rows - EligibleIds(kind, rows, cutoff, sessions)
  }

  // What the other coroutines do between two batches: sessions change in any way, rows are removed
  // (`delete_messages`) and added.
  datatype Change = Change(sessions: map<string, Status>, removed: set<nat>, added: map<nat, Row>)

  // A deleted row, with the sessions as they were when it was deleted.
  datatype Deletion = Deletion(row: Row, sessions: map<string, Status>)

  // An old row whose session is gone or has ended, or an old event of no session.
  ghost predicate MayGo(kind: Kind, row: Row, cutoff: real, sessions: map<string, Status>) {
    && row.created < cutoff
    && (row.session.None? ==> kind == Events)
    && (row.session.Some? ==> row.session.value !in sessions || sessions[row.session.value] == Ended)
  }

  // A row of an active or a paused session; a message of no session, which the table cannot hold.
  ghost predicate MustStay(kind: Kind, row: Row, sessions: map<string, Status>) {
    || (row.session.None? && kind == Messages)
    || (row.session.Some? && row.session.value in sessions
        && (sessions[row.session.value] == Active || sessions[row.session.value] == Paused))
  }

  lemma GoOrStay(kind: Kind, cutoff: real, sessions: map<string, Status>)
    ensures forall row: Row :: Eligible(kind, row, cutoff, sessions) <==> MayGo(kind, row, cutoff, sessions)
    ensures forall row: Row ::
              Eligible(kind, row, cutoff, sessions) <==> row.created < cutoff && !MustStay(kind, row, sessions)
  {
  }

  class Database {
    var rows: map<nat, Row>
    var sessions: map<string, Status>

    constructor (rows: map<nat, Row>, sessions: map<string, Status>)
      ensures this.rows == rows && this.sessions == sessions
    {
      this.rows, this.sessions := rows, sessions;
    }

    // DELETE ... LIMIT: which of the eligible rows go, the database chooses.
    method DeleteBatch(kind: Kind, cutoff: real, limit: nat) returns (deleted: set<nat>)
      modifies `rows
      ensures deleted <= EligibleIds(kind, old(rows), cutoff, sessions)
      ensures |deleted| <= limit
      ensures |deleted| < limit ==> deleted == EligibleIds(kind, old(rows), cutoff, sessions)
      ensures rows == old(rows) - deleted
      ensures forall id | id in deleted :: id in old(rows) && MayGo(kind, old(rows)[id], cutoff, sessions)
      ensures |deleted| < limit ==>
                forall id | id in rows && rows[id].created < cutoff :: MustStay(kind, rows[id], sessions)
    {
      GoOrStay(kind, cutoff, sessions);
      hide Eligible, MayGo, MustStay;
      var left := EligibleIds(kind, rows, cutoff, sessions);
      deleted := {};
      while left != {} && |deleted| < limit
        invariant left !! deleted && left + deleted == EligibleIds(kind, rows, cutoff, sessions)
        invariant |deleted| <= limit
        decreases |left|
      {
        var id :| id in left;
        left, deleted := left - {id}, deleted + {id};
      }
      assert left == {} ==> left + deleted == deleted;
      rows := rows - deleted;
    }

    // A row keeps its identity while it is there: an added row does not replace one.
    method OthersRun(change: Change)
      modifies this
      ensures sessions == change.sessions && rows == change.added + (old(rows) - change.removed)
    {
      sessions, rows := change.sessions, change.added + (rows - change.removed);
    }
  }

  // Rows that appear during a purge are stamped with the current time, which the cutoff precedes.
  ghost predicate AddsOnlyNew(others: nat -> Change, cutoff: real) {
    forall k: nat, id | id in others(k).added :: others(k).added[id].created >= cutoff
  }

  // Nothing but the purge happens.
  ghost predicate Undisturbed(others: nat -> Change, sessions: map<string, Status>) {
    forall k: nat :: others(k) == Change(sessions, {}, map[])
  }

  ghost predicate RemovedByOthers(others: nat -> Change, id: nat) { exists k: nat :: id in others(k).removed }

  function OldIds(rows: map<nat, Row>, cutoff: real): set<nat> {
    set id | id in rows && rows[id].created < cutoff
  }

  ghost predicate NotInUse(d: Deletion, kind: Kind, cutoff: real) {
    Eligible(kind, d.row, cutoff, d.sessions)
  }

  // A batch size below one would never leave the loop: no count of deleted rows is less than it.
  method BatchedDelete(db: Database, kind: Kind, cutoff: real, batchSize: nat, others: nat -> Change)
    returns (total: nat, ghost deletions: map<nat, Deletion>, ghost taken: set<nat>)
    requires batchSize >= 1
    requires AddsOnlyNew(others, cutoff)
    modifies db
    // every deleted row was old, and its session neither active nor paused, at its deletion
    ensures forall id | id in deletions :: id in old(db.rows) && deletions[id].row == old(db.rows)[id]
              && NotInUse(deletions[id], kind, cutoff)
    // no other row is gone but those that the others removed, and the count is right
    ensures forall id | id in old(db.rows) && id !in deletions && id !in taken ::
              id in db.rows && db.rows[id] == old(db.rows)[id]
    ensures taken !! deletions.Keys && forall id | id in taken :: id in old(db.rows) && RemovedByOthers(others, id)
    ensures OldIds(db.rows, cutoff) == OldIds(old(db.rows), cutoff) - deletions.Keys - taken
    ensures total == |deletions|
    // what is left is in use by the sessions at the last batch
    ensures EligibleIds(kind, db.rows, cutoff, db.sessions) == {}
    // with the three statuses: who may go and who must stay
    ensures forall id | id in deletions :: MayGo(kind, deletions[id].row, cutoff, deletions[id].sessions)
    ensures forall id | id in db.rows && db.rows[id].created < cutoff :: MustStay(kind, db.rows[id], db.sessions)
    // left alone, the batches delete what one statement would
    ensures Undisturbed(others, old(db.sessions)) ==>
              db.rows == OneShot(kind, old(db.rows), cutoff, old(db.sessions)) && db.sessions == old(db.sessions)
              && total == |EligibleIds(kind, old(db.rows), cutoff, old(db.sessions))|
  {
    hide Progress, AllUnder, EligibleIds, OldIds, OneShot, Eligible, Recorded, Undisturbed, MayGo, MustStay;
    total, deletions, taken := 0, map[], {};
    ghost var before, sessions := db.rows, db.sessions;
    NoProgressYet(before, deletions, taken, kind, cutoff, sessions);
    var gap: nat := 0;
    while true
      invariant Progress(before, db.rows, deletions, taken, kind, cutoff) && total == |deletions|
      invariant forall id | id in taken :: RemovedByOthers(others, id)
      invariant Undisturbed(others, sessions) ==>
                  db.sessions == sessions && db.rows == before - deletions.Keys && AllUnder(deletions, sessions)
                  && taken == {}
      decreases |OldIds(db.rows, cutoff)|
    {
      ghost var rows := db.rows;
      var deleted := db.DeleteBatch(kind, cutoff, batchSize);
      ghost var now := Recorded(rows, deleted, db.sessions, kind, cutoff);
      BatchProgress(before, rows, deletions, taken, kind, cutoff, db.sessions, deleted);
      RemovedTwice(before, deletions.Keys, deleted);
      if AllUnder(deletions, db.sessions) {
        StillUnder(rows, deletions, kind, cutoff, db.sessions, deleted);
      }
      deletions := deletions + now;
      total := total + |deleted|;
      if |deleted| < batchSize {
        NoneEligible(rows, deleted, kind, cutoff, db.sessions);
        break;
      }
      OthersProgress(before, db.rows, deletions, taken, kind, cutoff, others(gap));
      Unchanged(others, sessions, gap, db.rows, before, deletions, taken);
      taken := taken + TakenNow(before, db.rows, deletions, taken, others(gap).removed);
      db.OthersRun(others(gap));
      gap := gap + 1;
    }
    ProgressMeans(before, db.rows, deletions, taken, kind, cutoff);
    WhoWent(deletions, db.rows, kind, cutoff, db.sessions);
    if Undisturbed(others, sessions) {
      SameSessions(before, db.rows, deletions, taken, kind, cutoff, sessions);
      SameIds(before, deletions, kind, cutoff, sessions, db.rows);
    }
  }

  // What the batches and the others so far have done to the rows.
  ghost predicate Progress(before: map<nat, Row>, rows: map<nat, Row>, deletions: map<nat, Deletion>, taken: set<nat>,
                           kind: Kind, cutoff: real) {
    && (forall id | id in deletions ::
          id in before && deletions[id].row == before[id] && NotInUse(deletions[id], kind, cutoff))
    && (forall id | id in before && id !in deletions && id !in taken :: id in rows && rows[id] == before[id])
    && taken <= before.Keys && taken !! deletions.Keys
    && OldIds(rows, cutoff) == OldIds(before, cutoff) - deletions.Keys - taken
  }

  // Which of the rows there were at first the others remove now.
  ghost function TakenNow(before: map<nat, Row>, rows: map<nat, Row>, deletions: map<nat, Deletion>, taken: set<nat>,
                          removed: set<nat>): set<nat> {
    set id | id in removed && id in before && id in rows && id !in deletions && id !in taken
  }

  lemma WhoWent(deletions: map<nat, Deletion>, rows: map<nat, Row>, kind: Kind, cutoff: real,
                sessions: map<string, Status>)
    requires forall id | id in deletions :: NotInUse(deletions[id], kind, cutoff)
    requires EligibleIds(kind, rows, cutoff, sessions) == {}
    ensures forall id | id in deletions :: MayGo(kind, deletions[id].row, cutoff, deletions[id].sessions)
    ensures forall id | id in rows && rows[id].created < cutoff :: MustStay(kind, rows[id], sessions)
  {
    hide Eligible, MayGo, MustStay;
    forall id | id in deletions ensures MayGo(kind, deletions[id].row, cutoff, deletions[id].sessions) {
      GoOrStay(kind, cutoff, deletions[id].sessions);
    }
    GoOrStay(kind, cutoff, sessions);
    forall id | id in rows && rows[id].created < cutoff ensures MustStay(kind, rows[id], sessions) {
      assert id !in EligibleIds(kind, rows, cutoff, sessions);
    }
  }

  lemma NoProgressYet(before: map<nat, Row>, none: map<nat, Deletion>, taken: set<nat>, kind: Kind, cutoff: real,
                      sessions: map<string, Status>)
    requires none == map[] && taken == {}
    ensures Progress(before, before, none, taken, kind, cutoff) && |none| == 0 && before == before - none.Keys
    ensures AllUnder(none, sessions)
  {
  }

  ghost predicate AllUnder(deletions: map<nat, Deletion>, sessions: map<string, Status>) {
    forall id | id in deletions :: deletions[id].sessions == sessions
  }

  ghost function Recorded(rows: map<nat, Row>, deleted: set<nat>, sessions: map<string, Status>, kind: Kind,
                          cutoff: real): map<nat, Deletion>
    requires deleted <= EligibleIds(kind, rows, cutoff, sessions)
  {
    map id | id in deleted :: Deletion(rows[id], sessions)
  }

  lemma BatchProgress(before: map<nat, Row>, rows: map<nat, Row>, deletions: map<nat, Deletion>,
                      taken: set<nat>, kind: Kind, cutoff: real,
                      sessions: map<string, Status>, deleted: set<nat>)
    requires Progress(before, rows, deletions, taken, kind, cutoff)
    requires deleted <= EligibleIds(kind, rows, cutoff, sessions)
    ensures var now := Recorded(rows, deleted, sessions, kind, cutoff);
            Progress(before, rows - deleted, deletions + now, taken, kind, cutoff)
            && |deletions + now| == |deletions| + |deleted|
            && (deletions + now).Keys == deletions.Keys + deleted
    ensures |OldIds(rows - deleted, cutoff)| == |OldIds(rows, cutoff)| - |deleted|
  {
    hide EligibleIds, OldIds, Eligible, NotInUse, Progress;
    var now := Recorded(rows, deleted, sessions, kind, cutoff);
    BatchRecorded(before, rows, deletions, taken, kind, cutoff, sessions, deleted);
    ProgressMeans(before, rows, deletions, taken, kind, cutoff);
    EligibleIsOld(kind, rows, cutoff, sessions);
    OldIdsDrop(rows, deleted, cutoff);
    LeftAfter(OldIds(before, cutoff), OldIds(rows, cutoff), deletions.Keys, taken, deleted, (deletions + now).Keys);
    IsProgress(before, rows - deleted, deletions + now, taken, kind, cutoff);
  }

  lemma BatchRecorded(before: map<nat, Row>, rows: map<nat, Row>, deletions: map<nat, Deletion>, taken: set<nat>,
                      kind: Kind, cutoff: real, sessions: map<string, Status>, deleted: set<nat>)
    requires Progress(before, rows, deletions, taken, kind, cutoff)
    requires deleted <= EligibleIds(kind, rows, cutoff, sessions)
    ensures deleted !! deletions.Keys + taken
    ensures var all := deletions + Recorded(rows, deleted, sessions, kind, cutoff);
            && all.Keys == deletions.Keys + deleted && |all| == |deletions| + |deleted|
            && (forall id | id in all :: id in before && all[id].row == before[id] && NotInUse(all[id], kind, cutoff))
            && (forall id | id in before && id !in all && id !in taken ::
                  id in rows - deleted && (rows - deleted)[id] == before[id])
  {
    hide EligibleIds, OldIds, Eligible, NotInUse, Progress;
    ProgressMeans(before, rows, deletions, taken, kind, cutoff);
    SetMinus(OldIds(before, cutoff), deletions.Keys, taken);
    StillBefore(before, rows, deletions.Keys + taken, cutoff, kind, sessions, deleted);
    DisjointSum(deletions, Recorded(rows, deleted, sessions, kind, cutoff));
    BatchRecords(before, rows, deletions, taken, kind, cutoff, sessions, deleted);
  }

  lemma SetMinus(a: set<nat>, b: set<nat>, c: set<nat>)
    ensures a - b - c == a - (b + c)
  {
  }

  // What is left after one more batch.
  lemma LeftAfter(start: set<nat>, left: set<nat>, keys: set<nat>, taken: set<nat>, deleted: set<nat>, all: set<nat>)
    requires left == start - keys - taken && all == keys + deleted && deleted !! keys + taken && taken !! keys
    ensures left - deleted == start - all - taken && taken !! all && deleted !! keys
  {
  }

  lemma BatchRecords(before: map<nat, Row>, rows: map<nat, Row>, deletions: map<nat, Deletion>,
                      taken: set<nat>, kind: Kind, cutoff: real,
                     sessions: map<string, Status>, deleted: set<nat>)
    requires Progress(before, rows, deletions, taken, kind, cutoff)
    requires deleted <= EligibleIds(kind, rows, cutoff, sessions)
    requires forall id | id in deleted :: id in before && id in rows && rows[id] == before[id]
    ensures var all := deletions + Recorded(rows, deleted, sessions, kind, cutoff);
            all.Keys == deletions.Keys + deleted
            && (forall id | id in all :: id in before && all[id].row == before[id] && NotInUse(all[id], kind, cutoff))
            && (forall id | id in before && id !in all && id !in taken ::
                  id in rows - deleted && (rows - deleted)[id] == before[id])
  {
    hide EligibleIds, OldIds, NotInUse;
    var all := deletions + Recorded(rows, deleted, sessions, kind, cutoff);
    forall id | id in all ensures id in before && all[id].row == before[id] && NotInUse(all[id], kind, cutoff) {
      if id in deleted {
        RecordedNotInUse(rows, deleted, sessions, kind, cutoff, id);
      }
    }
  }

  lemma IsProgress(before: map<nat, Row>, rows: map<nat, Row>, deletions: map<nat, Deletion>,
                      taken: set<nat>, kind: Kind, cutoff: real)
    requires forall id | id in deletions ::
             id in before && deletions[id].row == before[id] && NotInUse(deletions[id], kind, cutoff)
    requires forall id | id in before && id !in deletions && id !in taken :: id in rows && rows[id] == before[id]
    requires OldIds(rows, cutoff) == OldIds(before, cutoff) - deletions.Keys - taken
    requires taken <= before.Keys && taken !! deletions.Keys
    ensures Progress(before, rows, deletions, taken, kind, cutoff)
  {
    hide OldIds, NotInUse;
  }

  lemma RecordedNotInUse(rows: map<nat, Row>, deleted: set<nat>, sessions: map<string, Status>, kind: Kind,
                         cutoff: real, id: nat)
    requires deleted <= EligibleIds(kind, rows, cutoff, sessions) && id in deleted
    ensures var d := Recorded(rows, deleted, sessions, kind, cutoff)[id];
            id in rows && d.row == rows[id] && NotInUse(d, kind, cutoff)
  {
  }

  lemma StillUnder(rows: map<nat, Row>, deletions: map<nat, Deletion>, kind: Kind, cutoff: real,
                   sessions: map<string, Status>, deleted: set<nat>)
    requires AllUnder(deletions, sessions) && deleted <= EligibleIds(kind, rows, cutoff, sessions)
    ensures AllUnder(deletions + Recorded(rows, deleted, sessions, kind, cutoff), sessions)
  {
  }

  lemma SameSessions(before: map<nat, Row>, rows: map<nat, Row>, deletions: map<nat, Deletion>,
                      taken: set<nat>, kind: Kind, cutoff: real,
                     sessions: map<string, Status>)
    requires Progress(before, rows, deletions, taken, kind, cutoff) && AllUnder(deletions, sessions)
    ensures deletions.Keys <= EligibleIds(kind, before, cutoff, sessions)
  {
    forall id | id in deletions ensures id in EligibleIds(kind, before, cutoff, sessions) {
      assert NotInUse(deletions[id], kind, cutoff);
    }
  }

  lemma EligibleIsOld(kind: Kind, rows: map<nat, Row>, cutoff: real, sessions: map<string, Status>)
    ensures EligibleIds(kind, rows, cutoff, sessions) <= OldIds(rows, cutoff)
  {
  }

  lemma OthersProgress(before: map<nat, Row>, rows: map<nat, Row>, deletions: map<nat, Deletion>, taken: set<nat>,
                       kind: Kind, cutoff: real, change: Change)
    requires Progress(before, rows, deletions, taken, kind, cutoff)
    requires forall id | id in change.added :: change.added[id].created >= cutoff
    ensures var after := change.added + (rows - change.removed);
            && Progress(before, after, deletions,
                        taken + TakenNow(before, rows, deletions, taken, change.removed), kind, cutoff)
            && OldIds(after, cutoff) <= OldIds(rows, cutoff) && |OldIds(after, cutoff)| <= |OldIds(rows, cutoff)|
  {
    hide NotInUse, Eligible, OldIds, Progress, TakenNow;
    ProgressMeans(before, rows, deletions, taken, kind, cutoff);
    var after, now := change.added + (rows - change.removed), TakenNow(before, rows, deletions, taken, change.removed);
    OldIdsAdd(rows - change.removed, change.added, cutoff);
    OldIdsTaken(before, rows, deletions, taken, kind, cutoff, change.removed);
    Smaller(OldIds(after, cutoff), OldIds(rows, cutoff));
    StillThere(before, rows, deletions, taken, change);
    TakenIs(before, rows, deletions, taken, change.removed);
    IsProgress(before, after, deletions, taken + now, kind, cutoff);
  }

  lemma TakenIs(before: map<nat, Row>, rows: map<nat, Row>, deletions: map<nat, Deletion>, taken: set<nat>,
                removed: set<nat>)
    requires taken <= before.Keys && taken !! deletions.Keys
    ensures var all := taken + TakenNow(before, rows, deletions, taken, removed);
            all <= before.Keys && all !! deletions.Keys
  {
  }

  lemma OldIdsTaken(before: map<nat, Row>, rows: map<nat, Row>, deletions: map<nat, Deletion>, taken: set<nat>,
                    kind: Kind, cutoff: real, removed: set<nat>)
    requires Progress(before, rows, deletions, taken, kind, cutoff)
    ensures OldIds(rows - removed, cutoff) <= OldIds(rows, cutoff)
    ensures OldIds(rows - removed, cutoff)
         == OldIds(before, cutoff) - deletions.Keys - (taken + TakenNow(before, rows, deletions, taken, removed))
  {
    hide NotInUse;
    var left, now := OldIds(before, cutoff) - deletions.Keys - taken, TakenNow(before, rows, deletions, taken, removed);
    assert OldIds(rows - removed, cutoff) == OldIds(rows, cutoff) - removed;
    forall id | id in left ensures id in removed <==> id in now {
      assert id in OldIds(rows, cutoff);
    }
    assert left - removed == left - now;
  }

  lemma StillThere(before: map<nat, Row>, rows: map<nat, Row>, deletions: map<nat, Deletion>, taken: set<nat>,
                   change: Change)
    requires forall id | id in before && id !in deletions && id !in taken :: id in rows && rows[id] == before[id]
    ensures var after := change.added + (rows - change.removed);
            forall id | id in before && id !in deletions
                      && id !in taken + TakenNow(before, rows, deletions, taken, change.removed) ::
              id in after && after[id] == before[id]
  {
  }

  lemma {:induction false} Smaller(a: set<nat>, b: set<nat>)
    requires a <= b
    ensures |a| <= |b|
  {
    assert b == a + (b - a);
  }

  lemma Unchanged(others: nat -> Change, sessions: map<string, Status>, gap: nat, rows: map<nat, Row>,
                  before: map<nat, Row>, deletions: map<nat, Deletion>, taken: set<nat>)
    ensures Undisturbed(others, sessions) ==>
              others(gap).sessions == sessions && others(gap).added + (rows - others(gap).removed) == rows
              && TakenNow(before, rows, deletions, taken, others(gap).removed) == {}
    ensures forall id | id in TakenNow(before, rows, deletions, taken, others(gap).removed) ::
            RemovedByOthers(others, id)
  {
  }

  lemma RemovedTwice(before: map<nat, Row>, a: set<nat>, b: set<nat>)
    ensures (before - a) - b == before - (a + b)
  {
  }

  lemma ProgressMeans(before: map<nat, Row>, rows: map<nat, Row>, deletions: map<nat, Deletion>,
                      taken: set<nat>, kind: Kind, cutoff: real)
    requires Progress(before, rows, deletions, taken, kind, cutoff)
    ensures forall id | id in deletions ::
            id in before && deletions[id].row == before[id] && NotInUse(deletions[id], kind, cutoff)
    ensures forall id | id in before && id !in deletions && id !in taken :: id in rows && rows[id] == before[id]
    ensures taken <= before.Keys && taken !! deletions.Keys
    ensures OldIds(rows, cutoff) == OldIds(before, cutoff) - deletions.Keys - taken
  {
  }

  lemma StillBefore(before: map<nat, Row>, rows: map<nat, Row>, gone: set<nat>, cutoff: real, kind: Kind,
                    sessions: map<string, Status>, deleted: set<nat>)
    requires OldIds(rows, cutoff) == OldIds(before, cutoff) - gone
    requires forall id | id in before && id !in gone :: id in rows && rows[id] == before[id]
    requires deleted <= EligibleIds(kind, rows, cutoff, sessions)
    ensures deleted !! gone
    ensures forall id | id in deleted :: id in before && id in rows && rows[id] == before[id]
              && Eligible(kind, rows[id], cutoff, sessions)
  {
    forall id | id in deleted ensures id in OldIds(rows, cutoff) {
    }
  }

  lemma DisjointSum(a: map<nat, Deletion>, b: map<nat, Deletion>)
    requires a.Keys !! b.Keys
    ensures |a + b| == |a| + |b.Keys|
  {
    assert (a + b).Keys == a.Keys + b.Keys;
    assert |(a + b).Keys| == |a + b| && |a.Keys| == |a|;
  }

  lemma OldIdsDrop(rows: map<nat, Row>, deleted: set<nat>, cutoff: real)
    requires deleted <= OldIds(rows, cutoff)
    ensures OldIds(rows - deleted, cutoff) == OldIds(rows, cutoff) - deleted
    ensures |OldIds(rows - deleted, cutoff)| == |OldIds(rows, cutoff)| - |deleted|
  {
    assert OldIds(rows - deleted, cutoff) == OldIds(rows, cutoff) - deleted;
  }

  lemma OldIdsAdd(rows: map<nat, Row>, added: map<nat, Row>, cutoff: real)
    requires forall id | id in added :: added[id].created >= cutoff
    ensures OldIds(added + rows, cutoff) == OldIds(rows, cutoff)
  {
  }

  lemma NoneEligible(rows: map<nat, Row>, deleted: set<nat>, kind: Kind, cutoff: real, sessions: map<string, Status>)
    requires deleted == EligibleIds(kind, rows, cutoff, sessions)
    ensures EligibleIds(kind, rows - deleted, cutoff, sessions) == {}
  {
  }

  lemma SameIds(before: map<nat, Row>, deletions: map<nat, Deletion>, kind: Kind, cutoff: real,
                sessions: map<string, Status>, rows: map<nat, Row>)
    requires rows == before - deletions.Keys && EligibleIds(kind, rows, cutoff, sessions) == {}
    requires deletions.Keys <= EligibleIds(kind, before, cutoff, sessions)
    ensures deletions.Keys == EligibleIds(kind, before, cutoff, sessions) && |deletions| == |deletions.Keys|
    ensures rows == OneShot(kind, before, cutoff, sessions)
  {
    forall id | id in EligibleIds(kind, before, cutoff, sessions) ensures id in deletions {
      assert id !in deletions ==> id in EligibleIds(kind, rows, cutoff, sessions);
    }
  }
}
