/** The SQLite database behind NotificationDatabaseHelper: the `notifications`
    table (AUTOINCREMENT id) and the `enabled_apps` table (keyed by package name),
    held abstractly instead of as SQL. */
module Store {
  import opened Values

  /** The largest rowid SQLite can hand out. Once AUTOINCREMENT has used it, every
      later insert fails with SQLITE_FULL. */
  const MaxRowId: int := 0x7FFF_FFFF_FFFF_FFFF

  /** The default of `getNotifications(limit: Int = 100)`. */
  const DefaultLimit: int := 100

  /** One row of `notifications`. It is also the shape of each map that
      getNotifications returns (keys id, packageName, title, text, timestamp,
      action, isActive). */
  datatype Row = Row(id: int, packageName: string, title: string, text: string,
                     timestamp: int, action: string, isActive: int)

  /** The `notifications` table: its rows in rowid order, and `lastId`, the largest
      id AUTOINCREMENT has ever assigned (SQLite's sqlite_sequence entry). Deleting
      rows does not lower `lastId`. */
  datatype NotificationTable = NotificationTable(rows: seq<Row>, lastId: int)

  /** One row of `enabled_apps` apart from its key, the package name. */
  datatype AppRow = AppRow(appName: string, isEnabled: int)

  /** One map of the list that getEnabledApps returns. */
  datatype EnabledApp = EnabledApp(packageName: string, appName: string)

  ghost predicate IdsIncreasing(rows: seq<Row>)
  {
    forall i, j :: 0 <= i < j < |rows| ==> rows[i].id < rows[j].id
  }

  /** What AUTOINCREMENT maintains: ids are positive, strictly increasing in rowid
      order, and never above the largest id assigned so far. */
  ghost predicate TableValid(t: NotificationTable)
  {
    && 0 <= t.lastId <= MaxRowId
    && IdsIncreasing(t.rows)
    && forall r :: r in t.rows ==> 1 <= r.id <= t.lastId
  }

  // ---------------------------------------------------------------------------
  // insertNotification

  /** The ContentValues that insertNotification builds from its map, stored under
      the id the table assigns. A missing or wrongly typed packageName, title or
      text becomes "", a missing action becomes "posted", a timestamp that is not a
      Long becomes the clock value `now`, and is_active is always 1. */
  function RowFromValues(id: int, data: map<string, Value>, now: int): Row
  {
    Row(id,
        StringOr(data, "packageName", ""),
        StringOr(data, "title", ""),
        StringOr(data, "text", ""),
        LongOr(data, "timestamp", now),
        StringOr(data, "action", "posted"),
        1)
  }

  /** An insert succeeds when the database could be opened for writing and the
      AUTOINCREMENT sequence is not exhausted. */
  predicate CanInsert(t: NotificationTable, writable: bool)
  {
    writable && t.lastId < MaxRowId
  }

  /** The table after insertNotification. On success one row is appended whose id
      exceeds every id assigned before; on failure the exception is caught and
      the table is as it was. */
  function Inserted(t: NotificationTable, data: map<string, Value>, now: int, writable: bool): (t': NotificationTable)
    requires TableValid(t)
    ensures TableValid(t')
    ensures CanInsert(t, writable) ==>
      && t'.lastId == t.lastId + 1
      && t'.rows == t.rows + [RowFromValues(t'.lastId, data, now)]
      && forall r :: r in t.rows ==> r.id < t'.lastId
    ensures !CanInsert(t, writable) ==> t' == t
  {
    if CanInsert(t, writable) then
      NotificationTable(t.rows + [RowFromValues(t.lastId + 1, data, now)], t.lastId + 1)
    else
      t
  }

  // ---------------------------------------------------------------------------
  // deleteNotification and clearAllNotifications

  /** `DELETE FROM notifications WHERE id = ?`: the rows without that id, in
      their order. */
  function DeleteById(rows: seq<Row>, id: int): (r: seq<Row>)
    ensures forall x :: x in r <==> x in rows && x.id != id
  {
    if rows == [] then []
    else
      var rest := DeleteById(rows[1..], id);
      assert forall x :: x in rows <==> x == rows[0] || x in rows[1..];
      if rows[0].id == id then rest else [rows[0]] + rest
  }

  /** Every row with that id goes, and every other row stays as often as it was
      there. */
  lemma {:induction false} DeleteByIdCounts(rows: seq<Row>, id: int)
    ensures forall x :: multiset(DeleteById(rows, id))[x] == if x.id == id then 0 else multiset(rows)[x]
  {
    if rows != [] {
      DeleteByIdCounts(rows[1..], id);
      assert rows == [rows[0]] + rows[1..];
    }
  }

  /** In a table with increasing ids the first row has the smallest id. */
  lemma HeadHasSmallestId(rows: seq<Row>)
    requires rows != [] && IdsIncreasing(rows)
    ensures forall x :: x in rows[1..] ==> rows[0].id < x.id
  {
    forall x | x in rows[1..]
      ensures rows[0].id < x.id
    {
      var k :| 0 <= k < |rows[1..]| && rows[1..][k] == x;
      assert rows[k + 1] == x;
    }
  }

  lemma ConsKeepsIncreasing(h: Row, rest: seq<Row>)
    requires IdsIncreasing(rest)
    requires forall x :: x in rest ==> h.id < x.id
    ensures IdsIncreasing([h] + rest)
  {
    var r := [h] + rest;
    forall i, j | 0 <= i < j < |r|
      ensures r[i].id < r[j].id
    {
      assert r[j] == rest[j - 1];
      if i > 0 {
        assert r[i] == rest[i - 1];
      }
    }
  }

  lemma {:induction false} DeleteKeepsOrder(rows: seq<Row>, id: int)
    requires IdsIncreasing(rows)
    ensures IdsIncreasing(DeleteById(rows, id))
  {
    if rows != [] {
      DeleteKeepsOrder(rows[1..], id);
      if rows[0].id != id {
        HeadHasSmallestId(rows);
        ConsKeepsIncreasing(rows[0], DeleteById(rows[1..], id));
      }
    }
  }

  /** The table after deleteNotification(id). */
  function Deleted(t: NotificationTable, id: int): (t': NotificationTable)
    requires TableValid(t)
    ensures TableValid(t')
    ensures t'.lastId == t.lastId
    ensures forall r :: r in t'.rows <==> r in t.rows && r.id != id
  {
    DeleteKeepsOrder(t.rows, id);
    t.(rows := DeleteById(t.rows, id))
  }

  /** A second delete of the same id changes nothing. */
  lemma {:induction false} DeleteIdempotent(rows: seq<Row>, id: int)
    ensures DeleteById(DeleteById(rows, id), id) == DeleteById(rows, id)
  {
    if rows != [] {
      DeleteIdempotent(rows[1..], id);
      DeleteAbsentIsIdentity(DeleteById(rows[1..], id), id);
    }
  }

  /** Deleting an id no row carries is a no-op, not an error. */
  lemma {:induction false} DeleteAbsentIsIdentity(rows: seq<Row>, id: int)
    requires forall r :: r in rows ==> r.id != id
    ensures DeleteById(rows, id) == rows
  {
    if rows != [] {
      assert rows[0] in rows;
      DeleteAbsentIsIdentity(rows[1..], id);
      assert rows == [rows[0]] + rows[1..];
    }
  }

  /** The table after clearAllNotifications: no rows are left, and the
      AUTOINCREMENT sequence is kept, so ids keep growing afterwards. */
  function Cleared(t: NotificationTable): (t': NotificationTable)
    requires TableValid(t)
    ensures TableValid(t') && t'.rows == [] && t'.lastId == t.lastId
  {
    t.(rows := [])
  }

  // ---------------------------------------------------------------------------
  // Sequences of table operations: ids are never reused

  datatype TableOp =
    | InsertOp(data: map<string, Value>, now: int, writable: bool)
    | DeleteOp(id: int)
    | ClearOp

  function Apply(t: NotificationTable, op: TableOp): (t': NotificationTable)
    requires TableValid(t)
    ensures TableValid(t')
  {
    match op
    case InsertOp(data, now, writable) => Inserted(t, data, now, writable)
    case DeleteOp(id) => Deleted(t, id)
    case ClearOp => Cleared(t)
  }

  function Run(t: NotificationTable, ops: seq<TableOp>): (t': NotificationTable)
    requires TableValid(t)
    ensures TableValid(t')
    decreases |ops|
  {
    if ops == [] then t else Run(Apply(t, ops[0]), ops[1..])
  }

  /** One operation never lowers the sequence, and every row it leaves is either
      an old row or carries an id above every id assigned before it. */
  lemma ApplyNeverReusesIds(t: NotificationTable, op: TableOp)
    requires TableValid(t)
    ensures Apply(t, op).lastId >= t.lastId
    ensures forall r :: r in Apply(t, op).rows ==> r in t.rows || r.id > t.lastId
  {
  }

  /** After any sequence of inserts, deletes and clears, a row that was not there
      before has an id larger than every id assigned before the sequence began. */
  lemma {:induction false} IdsNeverReused(t: NotificationTable, ops: seq<TableOp>)
    requires TableValid(t)
    ensures Run(t, ops).lastId >= t.lastId
    ensures forall r :: r in Run(t, ops).rows ==> r in t.rows || r.id > t.lastId
    decreases |ops|
  {
    if ops != [] {
      var t1 := Apply(t, ops[0]);
      ApplyNeverReusesIds(t, ops[0]);
      IdsNeverReused(t1, ops[1..]);
    }
  }

  /** An id that was assigned and then deleted never comes back, whatever is
      inserted, deleted or cleared afterwards. */
  lemma DeletedIdNeverReturns(t: NotificationTable, id: int, ops: seq<TableOp>)
    requires TableValid(t) && id <= t.lastId
    ensures forall r :: r in Run(Deleted(t, id), ops).rows ==> r.id != id
  {
    IdsNeverReused(Deleted(t, id), ops);
  }

  // ---------------------------------------------------------------------------
  // getNotifications: ORDER BY timestamp DESC LIMIT limit

  /** The decimal digits of n, as Kotlin's `toString` writes them. */
  function Digits(n: nat): (s: string)
    ensures |s| > 0 && forall i :: 0 <= i < |s| ==> '0' <= s[i] <= '9'
    decreases n
  {
    if n < 10 then ["0123456789"[n]] else Digits(n / 10) + ["0123456789"[n % 10]]
  }

  /** `Int.toString()`: a minus sign before the digits of a negative number. */
  function IntToString(n: int): (s: string)
    ensures |s| > 0 && (s[0] == '-' <==> n < 0)
  {
    if n < 0 then "-" + Digits(-n) else Digits(n)
  }

  /** The LIMIT strings Android's SQLiteQueryBuilder accepts, `\s*\d+\s*(,\s*\d+\s*)?`,
      restricted to strings without blanks or commas, which is all `Int.toString`
      can produce: a non-empty run of digits. */
  predicate IsLimitClause(s: string)
  {
    |s| > 0 && forall i :: 0 <= i < |s| ==> '0' <= s[i] <= '9'
  }

  /** `limit.toString()` passes the query builder's check exactly when the limit
      is not negative. */
  lemma LimitClauseIffNonNegative(limit: int)
    ensures IsLimitClause(IntToString(limit)) <==> 0 <= limit
  {
    if limit < 0 {
      assert IntToString(limit)[0] == '-';
    }
  }

  /** The default limit is sent as "100"; a limit of -1 is refused with the
      message "invalid LIMIT clauses:-1". */
  lemma LimitClauseExamples()
    ensures IntToString(DefaultLimit) == "100" && IsLimitClause("100")
    ensures InvalidLimitMessage(-1) == "invalid LIMIT clauses:-1"
  {
    assert Digits(1) == "1";
    assert Digits(10) == "10";
    assert Digits(100) == "100";
  }

  /** The message of the IllegalArgumentException the query builder throws. */
  function InvalidLimitMessage(limit: int): string
  {
    "invalid LIMIT clauses:" + IntToString(limit)
  }

  /** What getNotifications produces: the rows read from the cursor, or the
      exception that the query throws for a LIMIT string it rejects. */
  datatype QueryResult = Page(rows: seq<Row>) | InvalidLimit(message: string)

  /** Rows a LIMIT clause lets through out of n. */
  function PageSize(limit: nat, n: nat): (r: nat)
    ensures r <= n && r <= limit
    ensures r == n || r == limit
  {
    if limit > n then n else limit
  }

  ghost predicate NewestFirst(s: seq<Row>)
  {
    forall i, j :: 0 <= i < j < |s| ==> s[i].timestamp >= s[j].timestamp
  }

  /** `page` is a correct answer to the query over `rows`: as many rows as the
      limit allows, each taken from the table at most as often as it is there,
      sorted by timestamp descending, and no row left out is newer than a row
      returned. Rows with equal timestamps may come in any order. */
  ghost predicate IsNewestFirstPage(rows: seq<Row>, limit: nat, page: seq<Row>)
  {
    && |page| == PageSize(limit, |rows|)
    && multiset(page) <= multiset(rows)
    && NewestFirst(page)
    && NoneLeftNewer(rows, page)
  }

  /** No row of `rows` missing from `page` is newer than a row of `page`. */
  ghost predicate NoneLeftNewer(rows: seq<Row>, page: seq<Row>)
  {
    forall x, y :: x in rows && x !in page && y in page ==> x.timestamp <= y.timestamp
  }

  /** `s` with `x` put in front of the first row that is not newer than it. */
  function InsertNewestFirst(x: Row, s: seq<Row>): (r: seq<Row>)
    ensures |r| == |s| + 1
  {
    if s == [] || x.timestamp >= s[0].timestamp then [x] + s
    else [s[0]] + InsertNewestFirst(x, s[1..])
  }

  /** The rows sorted by timestamp descending: one of the orders in which SQLite
      may return `ORDER BY timestamp DESC`. */
  function SortNewestFirst(rows: seq<Row>): (r: seq<Row>)
    ensures |r| == |rows|
  {
    if rows == [] then [] else InsertNewestFirst(rows[0], SortNewestFirst(rows[1..]))
  }

  lemma {:induction false} InsertCounts(x: Row, s: seq<Row>)
    ensures multiset(InsertNewestFirst(x, s)) == multiset(s) + multiset{x}
  {
    if s != [] && x.timestamp < s[0].timestamp {
      var tail := InsertNewestFirst(x, s[1..]);
      InsertCounts(x, s[1..]);
      assert s == [s[0]] + s[1..];
      assert multiset([s[0]] + tail) == multiset{s[0]} + multiset(tail);
    }
  }

  lemma ConsKeepsNewestFirst(m: Row, tail: seq<Row>)
    requires NewestFirst(tail)
    requires forall j :: 0 <= j < |tail| ==> tail[j].timestamp <= m.timestamp
    ensures NewestFirst([m] + tail)
  {
    var page := [m] + tail;
    forall i, j | 0 <= i < j < |page|
      ensures page[i].timestamp >= page[j].timestamp
    {
      assert page[j] == tail[j - 1];
      if i > 0 {
        assert page[i] == tail[i - 1];
      }
    }
  }

  lemma {:induction false} InsertKeepsNewestFirst(x: Row, s: seq<Row>)
    requires NewestFirst(s)
    ensures NewestFirst(InsertNewestFirst(x, s))
  {
    if s != [] && x.timestamp < s[0].timestamp {
      var rest := s[1..];
      assert NewestFirst(rest) by {
        forall i, j | 0 <= i < j < |rest|
          ensures rest[i].timestamp >= rest[j].timestamp
        {
          assert rest[i] == s[i + 1] && rest[j] == s[j + 1];
        }
      }
      var tail := InsertNewestFirst(x, rest);
      InsertKeepsNewestFirst(x, rest);
      assert tail[0].timestamp <= s[0].timestamp by {
        if rest != [] && x.timestamp < rest[0].timestamp {
          assert tail[0] == rest[0] == s[1];
        } else {
          assert tail[0] == x;
        }
      }
      ConsKeepsNewestFirst(s[0], tail);
    } else {
      ConsKeepsNewestFirst(x, s);
    }
  }

  lemma {:induction false} SortCounts(rows: seq<Row>)
    ensures multiset(SortNewestFirst(rows)) == multiset(rows)
  {
    if rows != [] {
      SortCounts(rows[1..]);
      InsertCounts(rows[0], SortNewestFirst(rows[1..]));
      assert rows == [rows[0]] + rows[1..];
    }
  }

  lemma {:induction false} SortIsNewestFirst(rows: seq<Row>)
    ensures NewestFirst(SortNewestFirst(rows))
  {
    if rows != [] {
      SortIsNewestFirst(rows[1..]);
      InsertKeepsNewestFirst(rows[0], SortNewestFirst(rows[1..]));
    }
  }

  lemma PrefixCounts(sorted: seq<Row>, n: nat)
    requires n <= |sorted|
    ensures multiset(sorted[..n]) <= multiset(sorted)
  {
    assert sorted == sorted[..n] + sorted[n..];
  }

  lemma PrefixNewestFirst(sorted: seq<Row>, n: nat)
    requires n <= |sorted| && NewestFirst(sorted)
    ensures NewestFirst(sorted[..n])
  {
    var page := sorted[..n];
    forall i, j | 0 <= i < j < |page|
      ensures page[i].timestamp >= page[j].timestamp
    {
      assert page[i] == sorted[i] && page[j] == sorted[j];
    }
  }

  /** A row of a sorted sequence that is not in its first `n` rows is no newer
      than any of them. */
  lemma PrefixLeavesOlder(rows: seq<Row>, sorted: seq<Row>, n: nat)
    requires n <= |sorted| && NewestFirst(sorted)
    requires multiset(sorted) == multiset(rows)
    ensures NoneLeftNewer(rows, sorted[..n])
  {
    var page := sorted[..n];
    forall x, y | x in rows && x !in page && y in page
      ensures x.timestamp <= y.timestamp
    {
      var rest := sorted[n..];
      assert sorted == page + rest;
      assert x in multiset(rows);
      assert x in multiset(rest);
      var i :| 0 <= i < |rest| && rest[i] == x;
      var j :| 0 <= j < |page| && page[j] == y;
      assert rest[i] == sorted[n + i] && page[j] == sorted[j];
    }
  }

  /** The first PageSize(limit, |rows|) rows of the sorted table answer the
      query: so every limit has a correct answer. */
  lemma SortedPrefixIsPage(rows: seq<Row>, limit: nat)
    ensures IsNewestFirstPage(rows, limit, SortNewestFirst(rows)[..PageSize(limit, |rows|)])
  {
    var sorted := SortNewestFirst(rows);
    var n := PageSize(limit, |rows|);
    SortCounts(rows);
    SortIsNewestFirst(rows);
    PrefixCounts(sorted, n);
    PrefixNewestFirst(sorted, n);
    PrefixLeavesOlder(rows, sorted, n);
  }

  /** A row strictly newer than every other row is the first one any correct
      answer returns, whatever the (non-zero) limit. */
  lemma NewestRowComesFirst(rows: seq<Row>, limit: nat, page: seq<Row>, newest: Row)
    requires newest in rows
    requires forall x :: x in rows && x != newest ==> x.timestamp < newest.timestamp
    requires limit > 0
    requires IsNewestFirstPage(rows, limit, page)
    ensures page != [] && page[0] == newest
  {
    assert |page| > 0;
    assert multiset(page)[page[0]] > 0;
  }

  // ---------------------------------------------------------------------------
  // The enabled_apps table

  /** `insertWithOnConflict(..., CONFLICT_REPLACE)` of (p, n, 1): afterwards p has
      exactly one row, named n and enabled, and every other package keeps its row. */
  function Upserted(apps: map<string, AppRow>, p: string, n: string): (r: map<string, AppRow>)
    ensures r.Keys == apps.Keys + {p}
    ensures r[p] == AppRow(n, 1)
    ensures forall q :: q in apps && q != p ==> r[q] == apps[q]
  {
    apps[p := AppRow(n, 1)]
  }

  /** Package names whose row has is_enabled = 1. */
  function EnabledPackages(apps: map<string, AppRow>): set<string>
  {
    set p | p in apps && apps[p].isEnabled == 1
  }

  function PackagesOf(list: seq<EnabledApp>): set<string>
  {
    set i | 0 <= i < |list| :: list[i].packageName
  }

  lemma PackagesOfAppend(list: seq<EnabledApp>, e: EnabledApp)
    ensures PackagesOf(list + [e]) == PackagesOf(list) + {e.packageName}
  {
    var l := list + [e];
    assert l[|list|] == e;
    assert forall i :: 0 <= i < |list| ==> l[i] == list[i];
  }

  /** `list` is a correct answer to `SELECT ... WHERE is_enabled = 1`: one entry per
      enabled package, with that package's app name, in any order. */
  ghost predicate IsEnabledListing(apps: map<string, AppRow>, list: seq<EnabledApp>)
  {
    && (forall i, j :: 0 <= i < j < |list| ==> list[i].packageName != list[j].packageName)
    && (forall i :: 0 <= i < |list| ==>
          list[i].packageName in apps && apps[list[i].packageName] == AppRow(list[i].appName, 1))
    && PackagesOf(list) == EnabledPackages(apps)
  }

  lemma UpsertIdempotent(apps: map<string, AppRow>, p: string, n: string)
    ensures Upserted(Upserted(apps, p, n), p, n) == Upserted(apps, p, n)
  {
  }

  /** Enabling p adds p to the enabled packages and changes no other package. */
  lemma EnableAddsPackage(apps: map<string, AppRow>, p: string, n: string)
    ensures EnabledPackages(Upserted(apps, p, n)) == EnabledPackages(apps) + {p}
  {
  }

  /** Removing p takes p out of the enabled packages and changes no other package. */
  lemma RemoveDropsPackage(apps: map<string, AppRow>, p: string)
    ensures EnabledPackages(apps - {p}) == EnabledPackages(apps) - {p}
  {
  }

  // ---------------------------------------------------------------------------
  // NotificationDatabaseHelper

  class NotificationDatabaseHelper {
    var notifications: NotificationTable
    var enabledApps: map<string, AppRow>

    ghost predicate Valid()
      reads this
    {
      TableValid(notifications)
    }

    /** onCreate: both tables exist and are empty. */
    constructor ()
      ensures Valid()
      ensures notifications == NotificationTable([], 0) && enabledApps == map[]
    {
      notifications := NotificationTable([], 0);
      enabledApps := map[];
    }

    /** Never fails: when the database cannot be opened (`writable` false) or the
        insert itself fails, the exception is caught and nothing changes. */
    method InsertNotification(data: map<string, Value>, now: int, writable: bool)
      requires Valid()
      modifies this
      ensures Valid()
      ensures notifications == Inserted(old(notifications), data, now, writable)
      ensures enabledApps == old(enabledApps)
    {
      if !writable {
        // writableDatabase threw; the catch logs it
        return;
      }
      if notifications.lastId == MaxRowId {
        // SQLITE_FULL: db.insert reports -1 and the table is unchanged
        return;
      }
      var id := notifications.lastId + 1;
      var row := RowFromValues(id, data, now);
      notifications := NotificationTable(notifications.rows + [row], id);
    }

    /** A negative limit makes the query throw, which getNotifications does not
        catch. */
    method GetNotifications(limit: int := DefaultLimit) returns (result: QueryResult)
      ensures result.InvalidLimit? <==> limit < 0
      ensures result.InvalidLimit? ==> result.message == InvalidLimitMessage(limit)
      ensures result.Page? ==> 0 <= limit && IsNewestFirstPage(notifications.rows, limit, result.rows)
    {
      var clause := IntToString(limit);
      LimitClauseIffNonNegative(limit);
      if !IsLimitClause(clause) {
        return InvalidLimit("invalid LIMIT clauses:" + clause);
      }
      var rows := notifications.rows;
      // the SQL engine evaluates ORDER BY timestamp DESC LIMIT limit
      var cursor := SortNewestFirst(rows)[..PageSize(limit, |rows|)];
      SortedPrefixIsPage(rows, limit);
      var list := [];
      var i := 0;
      while i < |cursor|
        invariant 0 <= i <= |cursor|
        invariant list == cursor[..i]
      {
        list := list + [cursor[i]];
        i := i + 1;
      }
      assert list == cursor;
      result := Page(list);
    }

    method DeleteNotification(id: int)
      requires Valid()
      modifies this
      ensures Valid()
      ensures notifications == Deleted(old(notifications), id)
      ensures enabledApps == old(enabledApps)
    {
      notifications := Deleted(notifications, id);
    }

    method ClearAllNotifications()
      requires Valid()
      modifies this
      ensures Valid()
      ensures notifications == Cleared(old(notifications))
      ensures enabledApps == old(enabledApps)
    {
      notifications := notifications.(rows := []);
    }

    method AddEnabledApp(packageName: string, appName: string)
      modifies this
      ensures enabledApps == Upserted(old(enabledApps), packageName, appName)
      ensures notifications == old(notifications)
    {
      enabledApps := enabledApps[packageName := AppRow(appName, 1)];
    }

    method RemoveEnabledApp(packageName: string)
      modifies this
      ensures enabledApps == old(enabledApps) - {packageName}
      ensures notifications == old(notifications)
    {
      enabledApps := enabledApps - {packageName};
    }

    /** Walks the cursor of `SELECT * FROM enabled_apps WHERE is_enabled = 1`; the
        table's iteration order is left open. */
    method GetEnabledApps() returns (list: seq<EnabledApp>)
      ensures IsEnabledListing(enabledApps, list)
    {
      list := [];
      var remaining := enabledApps.Keys;
      while remaining != {}
        invariant remaining <= enabledApps.Keys
        invariant forall i, j :: 0 <= i < j < |list| ==> list[i].packageName != list[j].packageName
        invariant forall i :: 0 <= i < |list| ==>
          && list[i].packageName in enabledApps
          && list[i].packageName !in remaining
          && enabledApps[list[i].packageName] == AppRow(list[i].appName, 1)
        invariant PackagesOf(list) == EnabledPackages(enabledApps) - remaining
        decreases remaining
      {
        var p :| p in remaining;
        var row := enabledApps[p];
        if row.isEnabled == 1 {
          PackagesOfAppend(list, EnabledApp(p, row.appName));
          list := list + [EnabledApp(p, row.appName)];
        }
        remaining := remaining - {p};
      }
    }
  }
}
