/**
  The data repair of migration 20260822_01: two UPDATEs that leave at most one active
  assistant row per thread, after which the partial unique index can be built.
*/
module ActiveIndex {
  import opened Messages
  import opened Wrappers

  predicate Stale(r: Row, now: int) {
    r.createdAt < now - 2 * 60 * 60
  }

  // ORDER BY created_at DESC, id DESC puts row j before row i.
  predicate Newer(rows: map<Id, Row>, j: Id, i: Id)
    requires i in rows && j in rows
  {
    rows[j].createdAt > rows[i].createdAt || (rows[j].createdAt == rows[i].createdAt && j > i)
  }

  function Ahead(rows: map<Id, Row>, i: Id): set<Id>
    requires i in rows
  {
    set j | j in rows && Active(rows[j]) && rows[j].thread == rows[i].thread && Newer(rows, j, i)
  }

  // row_number() over the active rows of the thread.
  function Position(rows: map<Id, Row>, i: Id): nat
    requires i in rows
  {
    1 + |Ahead(rows, i)|
  }

  function FailWhere(rows: map<Id, Row>, ids: set<Id>): map<Id, Row> {
    map i | i in rows :: if i in ids then FailRow(rows[i]) else rows[i]
  }

  function StaleIds(rows: map<Id, Row>, now: int): set<Id> {
    set i | i in rows && Active(rows[i]) && Stale(rows[i], now)
  }

  function SurplusIds(rows: map<Id, Row>): set<Id> {
    set i | i in rows && Active(rows[i]) && Position(rows, i) > 1
  }

  function Migrate(rows: map<Id, Row>, now: int): map<Id, Row> {
    var recent := FailWhere(rows, StaleIds(rows, now));
    FailWhere(recent, SurplusIds(recent))
  }

  // Row i is the newest non-stale active row of its thread, said without positions.
  ghost predicate Newest(rows: map<Id, Row>, now: int, i: Id)
    requires i in rows
  {
    && Active(rows[i]) && !Stale(rows[i], now)
    && forall j | j in rows && Active(rows[j]) && !Stale(rows[j], now) && rows[j].thread == rows[i].thread ::
         j == i || Newer(rows, i, j)
  }

  lemma SurplusIsBehindSomeone(rows: map<Id, Row>, i: Id)
    requires i in rows
    ensures Position(rows, i) > 1 <==>
            exists j :: j in rows && Active(rows[j]) && rows[j].thread == rows[i].thread && Newer(rows, j, i)
  {
    if Position(rows, i) > 1 {
      assert Ahead(rows, i) != {};
      var j :| j in Ahead(rows, i);
    }
    if j :| j in rows && Active(rows[j]) && rows[j].thread == rows[i].thread && Newer(rows, j, i) {
      assert j in Ahead(rows, i);
      assert Ahead(rows, i) != {};
    }
  }

  // From any table: the newest non-stale active row of each thread is kept as it was, every
  // other active row becomes a failed one, and no other row is touched.
  lemma MigrationKeepsExactlyTheNewest(rows: map<Id, Row>, now: int, i: Id)
    requires i in rows
    ensures Migrate(rows, now).Keys == rows.Keys
    ensures Migrate(rows, now)[i] ==
            if Active(rows[i]) && !Newest(rows, now, i) then FailRow(rows[i]) else rows[i]
  {
    var recent := FailWhere(rows, StaleIds(rows, now));
    SurplusIsBehindSomeone(recent, i);
    assert forall j | j in rows :: Active(recent[j]) <==> Active(rows[j]) && !Stale(rows[j], now);
    assert forall j | j in rows :: Newer(recent, j, i) <==> Newer(rows, j, i);
    if Active(rows[i]) && !Stale(rows[i], now) {
      if !Newest(rows, now, i) {
        var j :| j in rows && Active(rows[j]) && !Stale(rows[j], now)
                 && rows[j].thread == rows[i].thread && j != i && !Newer(rows, i, j);
        assert Active(recent[j]) && Newer(recent, j, i);
      }
    }
  }

  // In terms of times: an active row that survives is at most two hours old, and no active row of its
  // thread was created after it; one that does not is older, or an active row of its thread was
  // created after it, or at the same time under a larger id.
  lemma SurvivorIsTheLatest(rows: map<Id, Row>, now: int, i: Id)
    requires i in rows && Active(rows[i])
    ensures i in Migrate(rows, now)
    ensures Active(Migrate(rows, now)[i]) ==>
              && Migrate(rows, now)[i] == rows[i] && rows[i].createdAt >= now - 7200
              && forall j | j in rows && Active(rows[j]) && rows[j].thread == rows[i].thread ::
                   rows[j].createdAt <= rows[i].createdAt
    ensures !Active(Migrate(rows, now)[i]) ==>
              && Migrate(rows, now)[i]
                 == rows[i].(status := Failed, content := AGENT_FAILURE_CONTENT, partial := None)
              && (rows[i].createdAt < now - 7200
                  || exists j :: j in rows && Active(rows[j]) && rows[j].thread == rows[i].thread && j != i
                                 && (rows[j].createdAt > rows[i].createdAt
                                     || (rows[j].createdAt == rows[i].createdAt && j > i)))
  {
    MigrationKeepsExactlyTheNewest(rows, now, i);
    if !Newest(rows, now, i) && rows[i].createdAt >= now - 7200 {
      var j :| j in rows && Active(rows[j]) && !Stale(rows[j], now) && rows[j].thread == rows[i].thread && j != i
               && !Newer(rows, i, j);
    }
  }

  lemma MigrationReachesOneActive(rows: map<Id, Row>, now: int)
    ensures OneActive(Migrate(rows, now))
  {
    var after := Migrate(rows, now);
    forall i, j | i in after && j in after && Active(after[i]) && Active(after[j]) && after[i].thread == after[j].thread
      ensures i == j
    {
      MigrationKeepsExactlyTheNewest(rows, now, i);
      MigrationKeepsExactlyTheNewest(rows, now, j);
      assert Newest(rows, now, i) && Newest(rows, now, j);
      assert i == j || (Newer(rows, i, j) && Newer(rows, j, i));
    }
  }

  // A thread with any non-stale active row still has one afterwards.
  lemma {:induction false} SomeRowSurvives(rows: map<Id, Row>, now: int, i: Id, seen: set<Id>) returns (winner: Id)
    requires i in rows && Active(rows[i]) && !Stale(rows[i], now)
    requires seen <= rows.Keys
    requires forall j | j in seen && Active(rows[j]) && !Stale(rows[j], now) && rows[j].thread == rows[i].thread ::
               j == i || Newer(rows, i, j)
    ensures winner in rows && rows[winner].thread == rows[i].thread
    ensures Active(Migrate(rows, now)[winner]) && Migrate(rows, now)[winner] == rows[winner]
    decreases |rows.Keys - seen|
  {
    if j :| j in rows.Keys && j !in seen {
      assert rows.Keys - (seen + {j}) == (rows.Keys - seen) - {j};
      var contender := Active(rows[j]) && !Stale(rows[j], now) && rows[j].thread == rows[i].thread;
      winner := SomeRowSurvives(rows, now, if contender && Newer(rows, j, i) then j else i, seen + {j});
    } else {
      winner := i;
      MigrationKeepsExactlyTheNewest(rows, now, i);
      assert Newest(rows, now, i);
    }
  }

  lemma ActiveThreadKeepsARow(rows: map<Id, Row>, now: int, i: Id)
    requires i in rows && Active(rows[i]) && !Stale(rows[i], now)
    ensures exists w :: w in rows && rows[w].thread == rows[i].thread && Active(rows[w])
                        && w in Migrate(rows, now) && Migrate(rows, now)[w] == rows[w]
  {
    var w := SomeRowSurvives(rows, now, i, {i});
  }

  class MessageTable {
    var rows: map<Id, Row>
    var indexed: bool

    constructor (rows: map<Id, Row>)
      ensures this.rows == rows && !indexed
    {
      this.rows := rows;
      indexed := false;
    }

    // CREATE UNIQUE INDEX refuses a table with two active rows in one thread.
    method CreateIndex() returns (created: bool)
      modifies this`indexed
      ensures created == OneActive(rows)
      ensures indexed == (old(indexed) || created)
    {
      created := OneActive(rows);
      indexed := indexed || created;
    }

    method Upgrade(now: int)
      modifies this
      ensures rows == Migrate(old(rows), now)
      ensures OneActive(rows) && indexed
    {
      rows := FailWhere(rows, StaleIds(rows, now));
      rows := FailWhere(rows, SurplusIds(rows));
      MigrationReachesOneActive(old(rows), now);
      var _ := CreateIndex();
    }
  }
}
