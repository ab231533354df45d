/** Values shared by the session catalog: rows, cursors and the order of the listing
    (internal/domain/session/catalog.go). */
module CatalogTypes {
  import opened Wrappers

  datatype Changes = Changes(additions: Option<int>, deletions: Option<int>, files: Option<int>)

  datatype Summary = Summary(
    workspaceId: string, resource: string, provider: string, title: string, status: int,
    activity: string, workingDirectory: string, changes: Option<Changes>,
    createdAt: int, modifiedAt: int, observedAt: int)

  /** The position of a row in the listing; the three fields of a cursor. */
  datatype Key = Key(modifiedAt: int, workspaceId: string, resource: string)

  // The zero time.
  const ZERO_TIME := 0

  function KeyOf(item: Summary): Key {
    Key(item.modifiedAt, item.workspaceId, item.resource)
  }

  /** Binary collation. */
  predicate TextLess(a: string, b: string) {
    if b == [] then false
    else if a == [] then true
    else a[0] < b[0] || (a[0] == b[0] && TextLess(a[1..], b[1..]))
  }

  /** The texts agree up to a place where the first one ends or has the smaller character. */
  predicate DiffersAt(a: string, b: string, k: nat) {
    k <= |a| && k < |b| && a[..k] == b[..k] && (k == |a| || a[k] < b[k])
  }

  lemma {:induction false} TextLessIsLexicographic(a: string, b: string)
    ensures TextLess(a, b) <==> exists k: nat :: DiffersAt(a, b, k)
  {
    if b != [] {
      if a == [] || a[0] < b[0] {
        assert DiffersAt(a, b, 0);
      } else {
        TextLessIsLexicographic(a[1..], b[1..]);
        if k: nat :| a[0] == b[0] && DiffersAt(a[1..], b[1..], k) {
          assert a[..k + 1] == [a[0]] + a[1..][..k] && b[..k + 1] == [b[0]] + b[1..][..k];
          assert DiffersAt(a, b, k + 1);
        }
        if k: nat :| DiffersAt(a, b, k) {
          assert a[..k][0] == a[0] && b[..k][0] == b[0];
          assert a[1..][..k - 1] == a[..k][1..] && b[1..][..k - 1] == b[..k][1..];
          assert DiffersAt(a[1..], b[1..], k - 1);
        }
      }
    }
  }

  /** modified_at descending, then workspace_id and resource ascending. */
  predicate Before(a: Key, b: Key) {
    a.modifiedAt > b.modifiedAt
    || (a.modifiedAt == b.modifiedAt
        && (TextLess(a.workspaceId, b.workspaceId)
            || (a.workspaceId == b.workspaceId && TextLess(a.resource, b.resource))))
  }

  lemma {:induction false} TextLessTotal(a: string, b: string)
    ensures !(TextLess(a, b) && TextLess(b, a)) && !TextLess(a, a)
    ensures a == b || TextLess(a, b) || TextLess(b, a)
  {
    if a != [] {
      TextLessTotal(a[1..], a[1..]);
      if b != [] {
        TextLessTotal(a[1..], b[1..]);
        assert a == [a[0]] + a[1..] && b == [b[0]] + b[1..];
      }
    }
  }

  lemma {:induction false} TextLessTransitive(a: string, b: string, c: string)
    requires TextLess(a, b) && TextLess(b, c)
    ensures TextLess(a, c)
  {
    if a != [] && a[0] == b[0] && b[0] == c[0] {
      TextLessTransitive(a[1..], b[1..], c[1..]);
    }
  }

  /** The listing order is a strict total order on keys. */
  lemma BeforeTotal(a: Key, b: Key)
    ensures !(Before(a, b) && Before(b, a)) && !Before(a, a)
    ensures a == b || Before(a, b) || Before(b, a)
  {
    TextLessTotal(a.workspaceId, b.workspaceId);
    TextLessTotal(a.resource, b.resource);
  }

  lemma BeforeTransitive(a: Key, b: Key, c: Key)
    requires Before(a, b) && Before(b, c)
    ensures Before(a, c)
  {
    TextLessTotal(a.workspaceId, a.workspaceId);
    if TextLess(a.workspaceId, b.workspaceId) && TextLess(b.workspaceId, c.workspaceId) {
      TextLessTransitive(a.workspaceId, b.workspaceId, c.workspaceId);
    }
    if TextLess(a.resource, b.resource) && TextLess(b.resource, c.resource) {
      TextLessTransitive(a.resource, b.resource, c.resource);
    }
  }
}

/** The catalog table (internal/infra/persistence/gormstore/session_repository.go). The database
    is a map from its primary key; a statement either takes effect or fails without effect. */
module SessionRepository {
  import opened CatalogTypes
  import opened Wrappers

  datatype RowKey = RowKey(workspaceId: string, resource: string)

  datatype Row = Row(
    workspaceId: string, resource: string, provider: string, title: string, status: int,
    activity: string, workingDirectory: string,
    changeAdditions: Option<int>, changeDeletions: Option<int>, changeFiles: Option<int>,
    createdAt: int, modifiedAt: int, observedAt: int)

  type Table = map<RowKey, Row>

  datatype ListQuery = ListQuery(limit: int, updatedAfter: Option<int>, cursor: Option<Key>)

  function ToRow(item: Summary): Row {
    var changes := if item.changes.Some? then item.changes.value else Changes(None, None, None);
    Row(item.workspaceId, item.resource, item.provider, item.title, item.status, item.activity,
        item.workingDirectory, changes.additions, changes.deletions, changes.files,
        item.createdAt, item.modifiedAt, item.observedAt)
  }

  function FromRow(row: Row): Summary {
    var changes :=
      if row.changeAdditions.Some? || row.changeDeletions.Some? || row.changeFiles.Some?
      then Some(Changes(row.changeAdditions, row.changeDeletions, row.changeFiles))
      else None;
    Summary(row.workspaceId, row.resource, row.provider, row.title, row.status, row.activity,
            row.workingDirectory, changes, row.createdAt, row.modifiedAt, row.observedAt)
  }

  /** Present but empty changes and absent changes are one value to the table. */
  function Stored(item: Summary): Summary {
    if item.changes == Some(Changes(None, None, None)) then item.(changes := None) else item
  }

  /** A stored item reads back as itself exactly when it does not carry empty changes. */
  lemma RowRoundTrip(item: Summary)
    ensures FromRow(ToRow(item)) == Stored(item)
    ensures FromRow(ToRow(item)) == item <==> item.changes != Some(Changes(None, None, None))
  {
  }

  function KeyIn(item: Summary): RowKey {
    RowKey(item.workspaceId, item.resource)
  }

  ghost predicate Keyed(table: Table) {
    forall k :: k in table ==> k == RowKey(table[k].workspaceId, table[k].resource)
  }

  /** The items a table holds. */
  ghost function Items(table: Table): set<Summary> {
    set k | k in table :: FromRow(table[k])
  }

  function UpsertAll(table: Table, items: seq<Summary>): Table {
    if items == [] then table
    else
      var last := items[|items| - 1];
      UpsertAll(table, items[..|items| - 1])[KeyIn(last) := ToRow(last)]
  }

  function Resources(items: seq<Summary>): set<string> {
    set item | item in items :: item.resource
  }

  lemma UpsertNext(table: Table, items: seq<Summary>, i: nat)
    requires i < |items|
    ensures UpsertAll(table, items[..i + 1]) == UpsertAll(table, items[..i])[KeyIn(items[i]) := ToRow(items[i])]
    ensures Resources(items[..i + 1]) == Resources(items[..i]) + {items[i].resource}
  {
    assert items[..i + 1][..i] == items[..i];
    assert items[..i + 1] == items[..i] + [items[i]];
  }

  function Replaced(table: Table, workspaceId: string, items: seq<Summary>): Table {
    var resources := Resources(items);
    var upserted := UpsertAll(table, items);
    map k | k in upserted && !(k.workspaceId == workspaceId && k.resource !in resources) :: upserted[k]
  }

  predicate Matches(row: Row, query: ListQuery) {
    && (query.updatedAfter.Some? ==> row.modifiedAt > query.updatedAfter.value)
    && (query.cursor.Some? ==>
          var c := query.cursor.value;
          row.modifiedAt < c.modifiedAt
          || (row.modifiedAt == c.modifiedAt && TextLess(c.workspaceId, row.workspaceId))
          || (row.modifiedAt == c.modifiedAt && row.workspaceId == c.workspaceId && TextLess(c.resource, row.resource)))
  }

  /** The items the query admits: those after the lower time bound and after the cursor. */
  ghost function Admitted(items: set<Summary>, updatedAfter: Option<int>, cursor: Option<Key>): set<Summary> {
    set x | x in items && (updatedAfter.Some? ==> x.modifiedAt > updatedAfter.value)
            && (cursor.Some? ==> Before(cursor.value, KeyOf(x)))
  }

  ghost predicate InOrder(s: seq<Summary>) {
    forall i, j :: 0 <= i < j < |s| ==> Before(KeyOf(s[i]), KeyOf(s[j]))
  }

  ghost predicate DistinctKeys(items: set<Summary>) {
    forall x, y :: x in items && y in items && KeyOf(x) == KeyOf(y) ==> x == y
  }

  /** `s` is the first `limit` members of `items` in listing order. */
  ghost predicate IsFirst(s: seq<Summary>, items: set<Summary>, limit: nat) {
    && InOrder(s)
    && (forall x :: x in s ==> x in items)
    && (|items| <= limit ==> forall x :: x in items ==> x in s)
    && (|items| > limit ==> |s| == limit)
    && (forall x, y :: x in s && y in items && y !in s ==> Before(KeyOf(x), KeyOf(y)))
  }

  /** Newer first; of equal times the lesser workspace, and of equal workspaces the lesser resource. */
  ghost predicate NewestFirst(s: seq<Summary>) {
    forall i, j :: 0 <= i < j < |s| ==>
                     && s[i].modifiedAt >= s[j].modifiedAt
                     && (s[i].modifiedAt == s[j].modifiedAt ==> s[i].workspaceId == s[j].workspaceId || TextLess(s[i].workspaceId, s[j].workspaceId))
                     && (s[i].modifiedAt == s[j].modifiedAt && s[i].workspaceId == s[j].workspaceId ==> TextLess(s[i].resource, s[j].resource))
  }

  /** A listing is newest first and holds only rows modified after the lower time bound and not newer than the cursor; a
      row that would fit and is left out is no newer than any row of the listing, which then is full. */
  lemma ListingIsNewestFirst(items: set<Summary>, updatedAfter: Option<int>, cursor: Option<Key>, limit: nat, s: seq<Summary>)
    requires IsFirst(s, Admitted(items, updatedAfter, cursor), limit)
    ensures NewestFirst(s)
    ensures forall x :: x in s ==> x in items && (updatedAfter.Some? ==> x.modifiedAt > updatedAfter.value)
                                   && (cursor.Some? ==> x.modifiedAt <= cursor.value.modifiedAt && KeyOf(x) != cursor.value)
    ensures forall y :: y in items && y !in s && (updatedAfter.Some? ==> y.modifiedAt > updatedAfter.value)
                        && (cursor.Some? ==> y.modifiedAt < cursor.value.modifiedAt)
                        ==> |s| == limit && forall x :: x in s ==> x.modifiedAt >= y.modifiedAt
  {
    var admitted := Admitted(items, updatedAfter, cursor);
    forall i, j | 0 <= i < j < |s|
      ensures Before(KeyOf(s[i]), KeyOf(s[j])) && !TextLess(s[i].workspaceId, s[i].workspaceId)
    {
      TextLessTotal(s[i].workspaceId, s[i].workspaceId);
    }
    forall x | x in s && cursor.Some?
      ensures KeyOf(x) != cursor.value
    {
      BeforeTotal(KeyOf(x), KeyOf(x));
    }
    forall y | y in items && y !in s && (updatedAfter.Some? ==> y.modifiedAt > updatedAfter.value)
               && (cursor.Some? ==> y.modifiedAt < cursor.value.modifiedAt)
      ensures |s| == limit && forall x :: x in s ==> x.modifiedAt >= y.modifiedAt
    {
      assert y in admitted;
    }
  }

  class Repository {
    var table: Table

    ghost predicate Valid()
      reads this
    {
      Keyed(table)
    }

    constructor ()
      ensures Valid() && table == map[]
    {
      table := map[];
    }

    method ReplaceWorkspace(workspaceId: string, items: seq<Summary>) returns (ok: bool)
      requires Valid()
      modifies this
      ensures Valid()
      ensures table == if ok then Replaced(old(table), workspaceId, items) else old(table)
    {
      var resources: set<string> := {};
      var upserted := table;
      for i := 0 to |items|
        invariant upserted == UpsertAll(table, items[..i]) && Keyed(upserted)
        invariant resources == Resources(items[..i]) && table == old(table)
      {
        UpsertNext(table, items, i);
        upserted := upserted[KeyIn(items[i]) := ToRow(items[i])];
        resources := resources + {items[i].resource};
      }
      assert items[..|items|] == items;
      ok := *;
      if ok {
        table := map k | k in upserted && !(k.workspaceId == workspaceId && k.resource !in resources) :: upserted[k];
      }
    }

    method Upsert(item: Summary) returns (ok: bool)
      requires Valid()
      modifies this
      ensures Valid()
      ensures table == if ok then old(table)[KeyIn(item) := ToRow(item)] else old(table)
    {
      ok := *;
      if ok {
        table := table[KeyIn(item) := ToRow(item)];
      }
    }

    method Remove(workspaceId: string, resource: string) returns (ok: bool)
      requires Valid()
      modifies this
      ensures Valid()
      ensures table == if ok then old(table) - {RowKey(workspaceId, resource)} else old(table)
    {
      ok := *;
      if ok {
        table := table - {RowKey(workspaceId, resource)};
      }
    }

    /** WHERE, ORDER BY and LIMIT. */
    method List(query: ListQuery) returns (ok: bool, items: seq<Summary>)
      requires Valid() && query.limit >= 0
      ensures ok ==> IsFirst(items, Admitted(Items(table), query.updatedAfter, query.cursor), query.limit)
    {
      items := [];
      ok := *;
      if ok {
        var matching := set k | k in table && Matches(table[k], query) :: FromRow(table[k]);
        ItemsHaveDistinctKeys(table);
        assert matching == Admitted(Items(table), query.updatedAfter, query.cursor);
        items := OrderAndLimit(matching, query.limit);
      }
    }
  }

  /** ORDER BY with LIMIT: takes the least remaining row until there are enough. */
  method OrderAndLimit(matching: set<Summary>, limit: nat) returns (items: seq<Summary>)
    requires DistinctKeys(matching)
    ensures IsFirst(items, matching, limit)
  {
    items := [];
    var rest := matching;
    while rest != {} && |items| < limit
      invariant rest <= matching && |items| <= limit && |items| + |rest| == |matching|
      invariant forall x :: x in matching <==> x in rest || x in items
      invariant InOrder(items)
      invariant forall x, y :: x in items && y in rest ==> Before(KeyOf(x), KeyOf(y))
      decreases rest
    {
      FirstExists(rest);
      var first :| first in rest && forall y :: y in rest && y != first ==> Before(KeyOf(first), KeyOf(y));
      items := items + [first];
      rest := rest - {first};
    }
  }

  lemma ItemsHaveDistinctKeys(table: Table)
    requires Keyed(table)
    ensures DistinctKeys(Items(table))
  {
  }

  lemma {:induction false} FirstExists(items: set<Summary>)
    requires items != {} && DistinctKeys(items)
    ensures exists x :: x in items && forall y :: y in items && y != x ==> Before(KeyOf(x), KeyOf(y))
  {
    var a :| a in items;
    var rest := items - {a};
    if rest != {} {
      FirstExists(rest);
      var b :| b in rest && forall y :: y in rest && y != b ==> Before(KeyOf(b), KeyOf(y));
      BeforeTotal(KeyOf(a), KeyOf(b));
      var first := if Before(KeyOf(a), KeyOf(b)) then a else b;
      forall y | y in items && y != first
        ensures Before(KeyOf(first), KeyOf(y))
      {
        if first == a && y != b {
          BeforeTransitive(KeyOf(a), KeyOf(b), KeyOf(y));
        }
      }
    } else {
      assert items == {a};
    }
  }
}
