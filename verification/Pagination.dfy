/** Keyset pagination: the service that cuts pages and the client that follows cursors
    (internal/usecase/session/service.go,
    packages/workbench/src/providers/http-session-catalog-provider.ts). */
module Pagination {
  import opened CatalogTypes
  import opened SessionRepository
  import opened Wrappers

  const DEFAULT_PAGE_SIZE := 50
  const MAXIMUM_PAGE_SIZE := 200
  const CLIENT_LIMIT := 200

  /** The text of a cursor; base64 and JSON are kept as values. */
  datatype CursorText = NoCursor | Encoded(key: Key) | Malformed

  datatype ListError = InvalidCursor | StorageFailure

  datatype Outcome<+T> = Success(value: T) | Failure(error: ListError)

  datatype Page = Page(items: seq<Summary>, nextCursor: CursorText)

  function PageSize(limit: int): (size: nat)
    ensures 1 <= size <= MAXIMUM_PAGE_SIZE
    ensures 1 <= limit <= MAXIMUM_PAGE_SIZE ==> size == limit
    ensures limit <= 0 ==> size == 50
    ensures limit > MAXIMUM_PAGE_SIZE ==> size == MAXIMUM_PAGE_SIZE
  {
    if limit <= 0 then DEFAULT_PAGE_SIZE
    else if limit > MAXIMUM_PAGE_SIZE then MAXIMUM_PAGE_SIZE
    else limit
  }

  predicate Resumable(key: Key) {
    key.workspaceId != "" && key.resource != "" && key.modifiedAt != ZERO_TIME
  }

  function DecodeCursor(text: CursorText): Outcome<Option<Key>> {
    match text
    case NoCursor => Success(None)
    case Malformed => Failure(InvalidCursor)
    case Encoded(key) => if Resumable(key) then Success(Some(key)) else Failure(InvalidCursor)
  }

  /** The page holds the first `size` of `items`, and names its last row when rows remain. */
  ghost predicate IsPage(page: Page, items: set<Summary>, size: nat) {
    && IsFirst(page.items, items, size)
    && (|items| <= size ==> page.nextCursor == NoCursor)
    && (|items| > size > 0 ==> page.nextCursor == Encoded(KeyOf(page.items[size - 1])))
  }

  method List(repository: Repository, limit: int, cursor: CursorText, updatedAfter: Option<int>)
    returns (page: Outcome<Page>)
    requires repository.Valid()
    ensures page == Failure(InvalidCursor) <==> DecodeCursor(cursor).Failure?
    ensures page == Failure(InvalidCursor)
       <==> cursor.Malformed?
            || (cursor.Encoded? && (cursor.key.workspaceId == "" || cursor.key.resource == "" || cursor.key.modifiedAt == ZERO_TIME))
    ensures page.Success? ==>
              IsPage(page.value, Admitted(Items(repository.table), updatedAfter, DecodeCursor(cursor).value), PageSize(limit))
    ensures page.Success? ==>
              |page.value.items| <= PageSize(limit) && NewestFirst(page.value.items)
              && forall x :: x in page.value.items ==> x in Items(repository.table) && (updatedAfter.Some? ==> x.modifiedAt > updatedAfter.value)
  {
    var size := PageSize(limit);
    var decoded := DecodeCursor(cursor);
    if decoded.Failure? {
      return Failure(decoded.error);
    }
    var ok, items := repository.List(ListQuery(size + 1, updatedAfter, decoded.value));
    if !ok {
      return Failure(StorageFailure);
    }
    ghost var admitted := Admitted(Items(repository.table), updatedAfter, decoded.value);
    PageOfFirst(items, admitted, size);
    var result := Page(items, NoCursor);
    if |items| > size {
      result := Page(items[..size], Encoded(KeyOf(items[size - 1])));
    }
    ListingIsNewestFirst(Items(repository.table), updatedAfter, decoded.value, size, result.items);
    InOrderSize(result.items);
    return Success(result);
  }

  lemma {:induction false} InOrderSize(s: seq<Summary>)
    requires InOrder(s)
    ensures |set x | x in s| == |s|
  {
    if s != [] {
      var last, front := s[|s| - 1], s[..|s| - 1];
      InOrderSize(front);
      BeforeTotal(KeyOf(last), KeyOf(last));
      assert (set x | x in s) == (set x | x in front) + {last};
    }
  }

  lemma FirstHasAll(s: seq<Summary>, items: set<Summary>, limit: nat)
    requires IsFirst(s, items, limit)
    ensures |items| <= limit ==> |s| == |items| && items == set x | x in s
  {
    InOrderSize(s);
    if |items| <= limit {
      assert items == set x | x in s;
    }
  }

  /** Fetching one row more than the page tells whether rows remain. */
  lemma FirstOfFirst(s: seq<Summary>, items: set<Summary>, size: nat)
    requires IsFirst(s, items, size + 1) && |s| == size + 1
    ensures |items| > size && IsFirst(s[..size], items, size)
  {
    InOrderSize(s);
    FirstHasAll(s, items, size + 1);
    assert s == s[..size] + [s[size]];
    forall x, y | x in s[..size] && y in items && y !in s[..size]
      ensures Before(KeyOf(x), KeyOf(y))
    {
      assert x in s;
    }
  }

  lemma PageOfFirst(items: seq<Summary>, all: set<Summary>, size: nat)
    requires size > 0 && IsFirst(items, all, size + 1)
    ensures var page := if |items| > size then Page(items[..size], Encoded(KeyOf(items[size - 1]))) else Page(items, NoCursor);
            IsPage(page, all, size)
  {
    FirstHasAll(items, all, size + 1);
    if |items| > size {
      FirstOfFirst(items, all, size);
    }
  }

  // ----- The client's walk

  function Flatten(pages: seq<Page>): seq<Summary> {
    if pages == [] then [] else Flatten(pages[..|pages| - 1]) + pages[|pages| - 1].items
  }

  /** The cursor that the request after `pages` sends. */
  function CursorAfter(pages: seq<Page>): CursorText {
    if pages == [] then NoCursor else pages[|pages| - 1].nextCursor
  }

  ghost predicate Finished(pages: seq<Page>) {
    pages != [] && CursorAfter(pages) == NoCursor
  }

  /** Each page continues the ones before it; request `i` sees the table as `versions[i]`. */
  ghost predicate IsWalk(versions: seq<Table>, pages: seq<Page>, updatedAfter: Option<int>, size: nat) {
    pages == []
    || (var n := |pages| - 1;
        var cursor := DecodeCursor(CursorAfter(pages[..n]));
        n < |versions| && IsWalk(versions, pages[..n], updatedAfter, size)
        && !Finished(pages[..n]) && cursor.Success?
        && IsPage(pages[n], Admitted(Items(versions[n]), updatedAfter, cursor.value), size))
  }

  datatype Fetch = Complete(items: seq<Summary>) | Failed(error: ListError) | Unfinished

  /** How the loop ends: with the rows of a finished walk, with a cursor that is refused, with a storage failure, or
      with as many requests as it is watched for. */
  ghost predicate Fetched(versions: seq<Table>, fetch: Fetch, pages: seq<Page>) {
    && IsWalk(versions, pages, None, CLIENT_LIMIT)
    && match fetch
       case Complete(items) => Finished(pages) && items == Flatten(pages)
       case Failed(error) => !Finished(pages) && (error.InvalidCursor? <==> DecodeCursor(CursorAfter(pages)).Failure?)
       case Unfinished => |pages| == |versions| && !Finished(pages)
  }

  /** The cursor-following loop. Others write to the table between requests: request `i` finds it
      as `versions[i]`, and the loop is watched for as many requests as there are versions. */
  method ListAll(repository: Repository, versions: seq<Table>)
    returns (fetch: Fetch, ghost pages: seq<Page>)
    requires forall i :: 0 <= i < |versions| ==> Keyed(versions[i])
    modifies repository
    ensures Fetched(versions, fetch, pages)
  {
    pages := [];
    var items := [];
    var cursor := NoCursor;
    for i := 0 to |versions|
      invariant |pages| == i
      invariant IsWalk(versions, pages, None, CLIENT_LIMIT) && !Finished(pages)
      invariant items == Flatten(pages) && cursor == CursorAfter(pages)
    {
      repository.table := versions[i];
      var page := List(repository, CLIENT_LIMIT, cursor, None);
      if page.Failure? {
        return Failed(page.error), pages;
      }
      items := items + page.value.items;
      cursor := page.value.nextCursor;
      WalkExtends(versions, pages, page.value, None, CLIENT_LIMIT);
      pages := pages + [page.value];
      if cursor == NoCursor {
        return Complete(items), pages;
      }
    }
    return Unfinished, pages;
  }

  lemma WalkExtends(versions: seq<Table>, pages: seq<Page>, page: Page, updatedAfter: Option<int>, size: nat)
    requires IsWalk(versions, pages, updatedAfter, size) && |pages| < |versions| && !Finished(pages)
    requires DecodeCursor(CursorAfter(pages)).Success?
    requires IsPage(page, Admitted(Items(versions[|pages|]), updatedAfter, DecodeCursor(CursorAfter(pages)).value), size)
    ensures IsWalk(versions, pages + [page], updatedAfter, size)
    ensures Flatten(pages + [page]) == Flatten(pages) + page.items
    ensures CursorAfter(pages + [page]) == page.nextCursor
  {
    var all := pages + [page];
    assert all[..|all| - 1] == pages && all[|all| - 1] == page;
  }

  // ----- What every walk returns, whatever happens to the table meanwhile

  ghost predicate AtOrBefore(a: Key, b: Key) {
    a == b || Before(a, b)
  }

  ghost predicate AllAfter(s: seq<Summary>, cursor: Option<Key>) {
    cursor.Some? ==> forall x :: x in s ==> Before(cursor.value, KeyOf(x))
  }

  ghost predicate AllUpTo(s: seq<Summary>, cursor: CursorText) {
    cursor.Encoded? ==> forall x :: x in s ==> AtOrBefore(KeyOf(x), cursor.key)
  }

  /** A page's rows come after the cursor it was asked with and up to the cursor it gives. */
  lemma PageBounds(page: Page, items: set<Summary>, updatedAfter: Option<int>, cursor: Option<Key>, size: nat)
    requires size > 0 && IsPage(page, Admitted(items, updatedAfter, cursor), size)
    ensures InOrder(page.items) && AllAfter(page.items, cursor) && AllUpTo(page.items, page.nextCursor)
    ensures forall x :: x in page.items ==> x in items
    ensures page.nextCursor.Encoded? ==>
              |page.items| == size && page.nextCursor.key == KeyOf(page.items[size - 1])
    ensures !page.nextCursor.Malformed?
  {
  }

  lemma Join(front: seq<Summary>, last: seq<Summary>, cursor: Option<Key>, next: CursorText)
    requires InOrder(front) && InOrder(last) && AllAfter(last, cursor) && AllUpTo(last, next)
    requires cursor.None? ==> front == []
    requires cursor.Some? ==> AllUpTo(front, Encoded(cursor.value))
    requires next.Encoded? ==> last != []
    ensures InOrder(front + last) && AllUpTo(front + last, next)
  {
    if cursor.Some? {
      var c := cursor.value;
      forall x, y | x in front && y in last
        ensures Before(KeyOf(x), KeyOf(y))
      {
        if KeyOf(x) != c {
          BeforeTransitive(KeyOf(x), c, KeyOf(y));
        }
      }
      if next.Encoded? {
        var y := last[0];
        forall x | x in front
          ensures Before(KeyOf(x), next.key)
        {
          if KeyOf(y) != next.key {
            BeforeTransitive(KeyOf(x), KeyOf(y), next.key);
          }
        }
      }
    }
  }

  /** The rows come in strict listing order, so no key is ever returned twice. */
  lemma {:induction false} WalkIsInOrder(versions: seq<Table>, pages: seq<Page>, updatedAfter: Option<int>, size: nat)
    requires size > 0 && IsWalk(versions, pages, updatedAfter, size)
    ensures InOrder(Flatten(pages)) && AllUpTo(Flatten(pages), CursorAfter(pages))
  {
    if pages != [] {
      var n := |pages| - 1;
      var cursor := DecodeCursor(CursorAfter(pages[..n])).value;
      WalkIsInOrder(versions, pages[..n], updatedAfter, size);
      PageBounds(pages[n], Items(versions[n]), updatedAfter, cursor, size);
      Join(Flatten(pages[..n]), pages[n].items, cursor, pages[n].nextCursor);
    }
  }

  /** Every returned row was in the table when some request was answered. */
  lemma {:induction false} WalkReturnsRows(versions: seq<Table>, pages: seq<Page>, updatedAfter: Option<int>, size: nat, x: Summary)
    requires size > 0 && IsWalk(versions, pages, updatedAfter, size) && x in Flatten(pages)
    ensures exists i :: 0 <= i < |pages| && x in Items(versions[i])
  {
    var n := |pages| - 1;
    var cursor := DecodeCursor(CursorAfter(pages[..n])).value;
    PageBounds(pages[n], Items(versions[n]), updatedAfter, cursor, size);
    if x in pages[n].items {
      assert x in Items(versions[n]);
    } else {
      WalkReturnsRows(versions, pages[..n], updatedAfter, size, x);
    }
  }

  ghost predicate HasKey(items: set<Summary>, key: Key) {
    exists x :: x in items && KeyOf(x) == key
  }

  ghost predicate Returned(items: seq<Summary>, key: Key) {
    exists x :: x in items && KeyOf(x) == key
  }

  /** A page returns an admitted key or gives a cursor before it. */
  lemma PageReachesOrPasses(page: Page, items: set<Summary>, updatedAfter: Option<int>, cursor: Option<Key>, size: nat, key: Key)
    requires size > 0 && IsPage(page, Admitted(items, updatedAfter, cursor), size) && HasKey(items, key)
    requires updatedAfter.Some? ==> key.modifiedAt > updatedAfter.value
    requires cursor.Some? ==> Before(cursor.value, key)
    ensures Returned(page.items, key) || (page.nextCursor.Encoded? && Before(page.nextCursor.key, key))
  {
    var x :| x in items && KeyOf(x) == key;
    var admitted := Admitted(items, updatedAfter, cursor);
    assert x in admitted;
    if x !in page.items {
      assert |admitted| > size;
      assert page.items[size - 1] in page.items;
    }
  }

  lemma {:induction false} StableKeyReachedOrAhead(versions: seq<Table>, pages: seq<Page>, updatedAfter: Option<int>, size: nat, key: Key)
    requires size > 0 && IsWalk(versions, pages, updatedAfter, size) && pages != []
    requires forall i :: 0 <= i < |pages| ==> HasKey(Items(versions[i]), key)
    requires updatedAfter.Some? ==> key.modifiedAt > updatedAfter.value
    ensures Returned(Flatten(pages), key)
            || (CursorAfter(pages).Encoded? && Before(CursorAfter(pages).key, key))
  {
    var n := |pages| - 1;
    var front := pages[..n];
    var cursor := DecodeCursor(CursorAfter(front)).value;
    if n > 0 {
      StableKeyReachedOrAhead(versions, front, updatedAfter, size, key);
    }
    if Returned(Flatten(front), key) {
      var x :| x in Flatten(front) && KeyOf(x) == key;
      assert x in Flatten(pages);
    } else {
      PageReachesOrPasses(pages[n], Items(versions[n]), updatedAfter, cursor, size, key);
      if Returned(pages[n].items, key) {
        var x :| x in pages[n].items && KeyOf(x) == key;
        assert x in Flatten(pages);
      }
    }
  }

  /** A row whose key stays put while the walk runs is returned, and returned once, although other
      rows are added, deleted and moved between the requests. */
  lemma StableRowsReturnedOnce(versions: seq<Table>, pages: seq<Page>, updatedAfter: Option<int>, size: nat, key: Key)
    requires size > 0 && IsWalk(versions, pages, updatedAfter, size) && Finished(pages)
    requires forall i :: 0 <= i < |pages| ==> HasKey(Items(versions[i]), key)
    requires updatedAfter.Some? ==> key.modifiedAt > updatedAfter.value
    ensures exists i :: 0 <= i < |Flatten(pages)| && KeyOf(Flatten(pages)[i]) == key
                        && forall j :: 0 <= j < |Flatten(pages)| && KeyOf(Flatten(pages)[j]) == key ==> j == i
  {
    StableKeyReachedOrAhead(versions, pages, updatedAfter, size, key);
    WalkIsInOrder(versions, pages, updatedAfter, size);
    OnceInOrder(Flatten(pages), key);
  }

  lemma OnceInOrder(s: seq<Summary>, key: Key)
    requires InOrder(s) && Returned(s, key)
    ensures exists i :: 0 <= i < |s| && KeyOf(s[i]) == key
                        && forall j :: 0 <= j < |s| && KeyOf(s[j]) == key ==> j == i
  {
    BeforeTotal(key, key);
    var x :| x in s && KeyOf(x) == key;
    var i :| 0 <= i < |s| && s[i] == x;
    assert forall j :: 0 <= j < |s| && KeyOf(s[j]) == key ==> j == i;
  }

  // ----- On a table that does not change

  ghost predicate Constant(versions: seq<Table>, table: Table) {
    forall i :: 0 <= i < |versions| ==> versions[i] == table
  }

  /** A page is cut out of what the earlier pages left. */
  lemma RestIsUnread(all: set<Summary>, front: seq<Summary>, cursor: Key, rest: set<Summary>)
    requires InOrder(front) && DistinctKeys(all)
    requires forall x :: x in front ==> x in all
    requires forall x :: x in all ==> (x in front <==> AtOrBefore(KeyOf(x), cursor))
    requires rest == set x | x in all && Before(cursor, KeyOf(x))
    ensures |rest| == |all| - |front|
    ensures forall x :: x in all ==> (x in rest <==> x !in front)
  {
    forall x | x in all
      ensures x in rest <==> x !in front
    {
      BeforeTotal(KeyOf(x), cursor);
    }
    InOrderSize(front);
    var read := set x | x in front;
    assert rest == all - read;
  }

  /** Up to the cursor everything has been read, beyond it nothing. */
  lemma CutAtCursor(rest: set<Summary>, s: seq<Summary>, size: nat, x: Summary)
    requires size > 0 && IsFirst(s, rest, size) && |rest| > size && x in rest
    ensures x in s <==> AtOrBefore(KeyOf(x), KeyOf(s[size - 1]))
  {
    var last := s[size - 1];
    BeforeTotal(KeyOf(x), KeyOf(last));
    assert last in s;
  }

  /** The rows read are those up to the cursor, or all of them. */
  ghost predicate Covers(all: set<Summary>, read: seq<Summary>, next: CursorText) {
    && (forall x :: x in read ==> x in all)
    && (next.NoCursor? ==> forall x :: x in all ==> x in read)
    && (!next.NoCursor? ==>
          read != [] && next == Encoded(KeyOf(read[|read| - 1]))
          && forall x :: x in all ==> (x in read <==> AtOrBefore(KeyOf(x), next.key)))
  }

  /** The pages are full, and there is a cursor when rows remain. */
  predicate Counted(total: nat, read: nat, next: CursorText, n: nat, size: nat) {
    && (next.NoCursor? <==> total <= n * size)
    && (!next.NoCursor? ==> read == n * size > 0)
  }

  lemma FirstCovers(all: set<Summary>, page: Page, size: nat)
    requires size > 0 && IsPage(page, all, size)
    ensures Covers(all, page.items, page.nextCursor)
  {
    if |all| > size {
      forall x | x in all
        ensures x in page.items <==> AtOrBefore(KeyOf(x), KeyOf(page.items[size - 1]))
      {
        CutAtCursor(all, page.items, size, x);
      }
    } else {
      FirstHasAll(page.items, all, size);
    }
  }

  lemma NextCovers(all: set<Summary>, read: seq<Summary>, cursor: Key, rest: set<Summary>, page: Page, size: nat)
    requires size > 0 && DistinctKeys(all) && InOrder(read) && Covers(all, read, Encoded(cursor))
    requires rest == set x | x in all && Before(cursor, KeyOf(x))
    requires IsPage(page, rest, size)
    ensures |rest| == |all| - |read| && Covers(all, read + page.items, page.nextCursor)
  {
    RestIsUnread(all, read, cursor, rest);
    if |rest| > size {
      forall x | x in all
        ensures x in read + page.items <==> AtOrBefore(KeyOf(x), page.nextCursor.key)
      {
        CutBehind(read, cursor, rest, page, size, x);
      }
    } else {
      FirstHasAll(page.items, rest, size);
    }
  }

  lemma CutBehind(read: seq<Summary>, cursor: Key, rest: set<Summary>, page: Page, size: nat, x: Summary)
    requires size > 0 && IsPage(page, rest, size) && |rest| > size
    requires x in rest <==> x !in read
    requires x in read ==> AtOrBefore(KeyOf(x), cursor)
    requires forall y :: y in rest ==> Before(cursor, KeyOf(y))
    ensures x in read + page.items <==> AtOrBefore(KeyOf(x), page.nextCursor.key)
  {
    if x in rest {
      CutAtCursor(rest, page.items, size, x);
    } else {
      var last := page.items[size - 1];
      assert last in page.items;
      if KeyOf(x) != cursor {
        BeforeTransitive(KeyOf(x), cursor, KeyOf(last));
      }
    }
  }

  lemma NextCounted(total: nat, read: nat, rest: nat, page: nat, next: CursorText, n: nat, size: nat)
    requires size > 0 && read == n * size && rest == total - read
    requires next.NoCursor? <==> rest <= size
    requires !next.NoCursor? ==> page == size
    ensures Counted(total, read + page, next, n + 1, size)
  {
    assert (n + 1) * size == n * size + size;
  }

  lemma CursorIsLast(all: set<Summary>, read: seq<Summary>, next: CursorText, n: nat, size: nat)
    requires Covers(all, read, next) && Counted(|all|, |read|, next, n, size) && next != NoCursor
    ensures |read| == n * size > 0 && next == Encoded(KeyOf(read[n * size - 1]))
  {
  }

  lemma AdmittedAfter(table: Table, updatedAfter: Option<int>, cursor: Key)
    requires Keyed(table)
    ensures var all := Admitted(Items(table), updatedAfter, None);
            DistinctKeys(all)
            && Admitted(Items(table), updatedAfter, Some(cursor)) == set x | x in all && Before(cursor, KeyOf(x))
  {
    ItemsHaveDistinctKeys(table);
  }

  /** After `n` pages of a fixed table the first `n * size` rows have been read, and the walk ends
      exactly when that is all of them. */
  lemma {:induction false} FixedTablePages(versions: seq<Table>, pages: seq<Page>, updatedAfter: Option<int>, size: nat, table: Table)
    requires size > 0 && Keyed(table) && Constant(versions, table)
    requires IsWalk(versions, pages, updatedAfter, size) && pages != []
    ensures var all := Admitted(Items(table), updatedAfter, None);
            && Covers(all, Flatten(pages), CursorAfter(pages))
            && Counted(|all|, |Flatten(pages)|, CursorAfter(pages), |pages|, size)
            && (|pages| > 1 ==> (|pages| - 1) * size < |all|)
  {
    var n: nat := |pages| - 1;
    if n == 0 {
      FirstFixedPage(versions, pages, updatedAfter, size, table);
    } else {
      FixedTablePages(versions, pages[..n], updatedAfter, size, table);
      NextFixedPage(versions, pages, updatedAfter, size, table);
    }
  }

  lemma FirstFixedPage(versions: seq<Table>, pages: seq<Page>, updatedAfter: Option<int>, size: nat, table: Table)
    requires size > 0 && Constant(versions, table) && IsWalk(versions, pages, updatedAfter, size) && |pages| == 1
    ensures var all := Admitted(Items(table), updatedAfter, None);
            && Covers(all, Flatten(pages), CursorAfter(pages))
            && Counted(|all|, |Flatten(pages)|, CursorAfter(pages), 1, size)
  {
    FirstCovers(Admitted(Items(table), updatedAfter, None), pages[0], size);
    assert Flatten(pages) == pages[0].items;
  }

  lemma NextFixedPage(versions: seq<Table>, pages: seq<Page>, updatedAfter: Option<int>, size: nat, table: Table)
    requires size > 0 && Keyed(table) && Constant(versions, table)
    requires IsWalk(versions, pages, updatedAfter, size) && |pages| > 1
    requires var all, front := Admitted(Items(table), updatedAfter, None), pages[..|pages| - 1];
             && Covers(all, Flatten(front), CursorAfter(front))
             && Counted(|all|, |Flatten(front)|, CursorAfter(front), |front|, size)
    ensures var all := Admitted(Items(table), updatedAfter, None);
            && Covers(all, Flatten(pages), CursorAfter(pages))
            && Counted(|all|, |Flatten(pages)|, CursorAfter(pages), |pages|, size)
            && (|pages| - 1) * size < |all|
  {
    var n: nat := |pages| - 1;
    var all, front := Admitted(Items(table), updatedAfter, None), pages[..n];
    var cursor := DecodeCursor(CursorAfter(front)).value.value;
    var rest := Admitted(Items(table), updatedAfter, Some(cursor));
    WalkIsInOrder(versions, front, updatedAfter, size);
    AdmittedAfter(table, updatedAfter, cursor);
    NextCovers(all, Flatten(front), cursor, rest, pages[n], size);
    NextCounted(|all|, |Flatten(front)|, |rest|, |pages[n].items|, pages[n].nextCursor, n, size);
  }

  /** On a fixed table a finished walk returns exactly the filtered rows, in listing order, in
      max(1, ceil(n / size)) pages. */
  lemma FixedTableWalk(versions: seq<Table>, pages: seq<Page>, updatedAfter: Option<int>, size: nat, table: Table)
    requires size > 0 && Keyed(table) && Constant(versions, table)
    requires IsWalk(versions, pages, updatedAfter, size) && Finished(pages)
    ensures var all, read := Admitted(Items(table), updatedAfter, None), Flatten(pages);
            && InOrder(read) && (set x | x in read) == all && |read| == |all|
            && |pages| == if all == {} then 1 else (|all| + size - 1) / size
  {
    var all := Admitted(Items(table), updatedAfter, None);
    FixedTablePages(versions, pages, updatedAfter, size, table);
    WalkIsInOrder(versions, pages, updatedAfter, size);
    InOrderSize(Flatten(pages));
    assert (set x | x in Flatten(pages)) == all;
    PageCount(|all|, size, |pages|);
  }

  lemma PageCount(total: nat, size: nat, n: nat)
    requires size > 0 && n > 0 && total <= n * size
    requires n > 1 ==> (n - 1) * size < total
    ensures n == if total == 0 then 1 else (total + size - 1) / size
  {
    if n == 1 {
      if total > 0 {
        Quotient(total + size - 1, size, 1);
      }
    } else {
      assert (n - 1) * size == n * size - size;
      assert (n - 1) * size >= 0;
      Quotient(total + size - 1, size, n);
    }
  }

  lemma Scale(a: int, b: int, size: nat)
    requires a <= b
    ensures a * size <= b * size
  {
    assert b * size == a * size + (b - a) * size;
  }

  lemma Quotient(x: nat, size: nat, n: nat)
    requires size > 0 && n * size <= x < n * size + size
    ensures x / size == n
  {
    var q := x / size;
    assert q * size <= x < q * size + size;
    assert (n + 1) * size == n * size + size && (q + 1) * size == q * size + size;
    if q + 1 <= n {
      Scale(q + 1, n, size);
    }
    if n + 1 <= q {
      Scale(n + 1, q, size);
    }
  }

  // ----- When the walk over a fixed table completes

  /** Rows of a listing in its order that hold everything standing in front of one of them. */
  ghost predicate Lowest(listing: seq<Summary>, read: seq<Summary>) {
    && InOrder(read)
    && (forall x :: x in read ==> x in listing)
    && (forall x, y :: x in read && y in listing && Before(KeyOf(y), KeyOf(x)) ==> y in read)
  }

  lemma NotLast(read: seq<Summary>, x: Summary, y: Summary)
    requires InOrder(read) && read != [] && x in read[..|read| - 1] && y in read && Before(KeyOf(y), KeyOf(x))
    ensures y in read[..|read| - 1]
  {
    var i: nat :| i < |read| - 1 && read[i] == x;
    BeforeTotal(KeyOf(x), KeyOf(y));
    var j: nat :| j < |read| && read[j] == y;
    assert j < |read| - 1;
    assert read[..|read| - 1][j] == y;
  }

  lemma FrontIsLowest(listing: seq<Summary>, read: seq<Summary>)
    requires read != [] && Lowest(listing, read)
    ensures Lowest(listing, read[..|read| - 1])
  {
    var front := read[..|read| - 1];
    forall x, y | x in front && y in listing && Before(KeyOf(y), KeyOf(x))
      ensures y in front
    {
      NotLast(read, x, y);
    }
  }

  lemma LastIsNew(s: seq<Summary>, m: nat)
    requires InOrder(s) && m < |s|
    ensures s[m] !in s[..m]
  {
    BeforeTotal(KeyOf(s[m]), KeyOf(s[m]));
  }

  lemma NextInListing(listing: seq<Summary>, read: seq<Summary>, m: nat, j: nat)
    requires InOrder(listing) && InOrder(read) && |read| == m + 1 && read[..m] <= listing
    requires j < |listing| && listing[j] == read[m]
    requires forall y :: y in listing && Before(KeyOf(y), KeyOf(read[m])) ==> y in read
    ensures j == m
  {
    LastIsNew(read, m);
    assert forall i :: 0 <= i < m ==> listing[i] == read[..m][i];
    assert m <= j;
    var y := listing[m];
    LastIsNew(listing, m);
    assert listing[..m] == read[..m];
    assert y in read ==> y == read[m];
    BeforeTotal(KeyOf(y), KeyOf(y));
  }

  lemma LowestStep(listing: seq<Summary>, read: seq<Summary>)
    requires InOrder(listing) && read != [] && Lowest(listing, read) && read[..|read| - 1] <= listing
    ensures read <= listing
  {
    var m: nat := |read| - 1;
    var last := read[m];
    assert last in read && last in listing;
    var j: nat :| j < |listing| && listing[j] == last;
    NextInListing(listing, read, m, j);
  }

  /** Rows of a listing that hold everything in front of them are its beginning. */
  lemma {:induction false} LowestAreFirst(listing: seq<Summary>, read: seq<Summary>)
    requires InOrder(listing) && Lowest(listing, read)
    ensures read <= listing
  {
    if read != [] {
      FrontIsLowest(listing, read);
      LowestAreFirst(listing, read[..|read| - 1]);
      LowestStep(listing, read);
    }
  }

  ghost predicate IsListing(listing: seq<Summary>, table: Table, updatedAfter: Option<int>) {
    InOrder(listing) && (set x | x in listing) == Admitted(Items(table), updatedAfter, None)
  }

  /** Every last row of a full page that another row follows can be continued from. */
  ghost predicate BoundariesResumable(listing: seq<Summary>, size: nat) {
    forall k :: k > 0 ==> CanContinue(listing, size, k)
  }

  predicate CanContinue(listing: seq<Summary>, size: nat, k: nat)
    requires k > 0
  {
    0 < k * size < |listing| ==> Resumable(KeyOf(listing[k * size - 1]))
  }

  lemma ReadIsLowest(all: set<Summary>, listing: seq<Summary>, read: seq<Summary>, next: CursorText)
    requires Covers(all, read, next) && InOrder(read) && (set x | x in listing) == all
    ensures Lowest(listing, read)
  {
    forall x | x in read
      ensures x in listing
    {
      assert x in all;
    }
    forall x, y | x in read && y in listing && Before(KeyOf(y), KeyOf(x))
      ensures y in read
    {
      assert y in all;
      if !next.NoCursor? && KeyOf(x) != next.key {
        BeforeTransitive(KeyOf(y), KeyOf(x), next.key);
      }
    }
  }

  lemma CoveredIsListed(all: set<Summary>, listing: seq<Summary>, read: seq<Summary>, next: CursorText, n: nat, size: nat)
    requires Covers(all, read, next) && Counted(|all|, |read|, next, n, size)
    requires InOrder(listing) && InOrder(read) && (set x | x in listing) == all
    ensures read <= listing
    ensures next.NoCursor? ==> read == listing
    ensures !next.NoCursor? ==> |read| == n * size > 0 && next == Encoded(KeyOf(listing[n * size - 1]))
  {
    ReadIsLowest(all, listing, read, next);
    LowestAreFirst(listing, read);
    InOrderSize(listing);
    InOrderSize(read);
    if next.NoCursor? {
      assert (set x | x in read) == all;
    } else {
      assert listing[n * size - 1] == read[n * size - 1];
    }
  }

  /** The pages read so far are the beginning of the listing. */
  lemma PagesAreListing(versions: seq<Table>, pages: seq<Page>, updatedAfter: Option<int>, size: nat, table: Table, listing: seq<Summary>)
    requires size > 0 && Keyed(table) && Constant(versions, table) && IsListing(listing, table, updatedAfter)
    requires IsWalk(versions, pages, updatedAfter, size) && pages != []
    ensures Flatten(pages) <= listing && (Finished(pages) <==> |listing| <= |pages| * size)
    ensures Finished(pages) ==> Flatten(pages) == listing
    ensures !Finished(pages) ==> |Flatten(pages)| == |pages| * size > 0
                                 && CursorAfter(pages) == Encoded(KeyOf(listing[|pages| * size - 1]))
  {
    var all := Admitted(Items(table), updatedAfter, None);
    FixedTablePages(versions, pages, updatedAfter, size, table);
    WalkIsInOrder(versions, pages, updatedAfter, size);
    InOrderSize(listing);
    CoveredIsListed(all, listing, Flatten(pages), CursorAfter(pages), |pages|, size);
  }

  lemma {:induction false} WalkContinues(versions: seq<Table>, pages: seq<Page>, updatedAfter: Option<int>, size: nat, table: Table,
                                         listing: seq<Summary>, k: nat)
    requires size > 0 && Keyed(table) && Constant(versions, table) && IsListing(listing, table, updatedAfter)
    requires IsWalk(versions, pages, updatedAfter, size) && 0 < k < |pages|
    ensures CanContinue(listing, size, k)
  {
    var front := pages[..|pages| - 1];
    if k == |front| {
      PagesAreListing(versions, front, updatedAfter, size, table, listing);
    } else {
      WalkContinues(versions, front, updatedAfter, size, table, listing, k);
    }
  }

  /** A walk over a fixed table that has come to its end has read the whole listing exactly when every boundary row
      can be continued from; otherwise the walk's own cursor is refused. */
  lemma FixedWalkFinishesIff(versions: seq<Table>, pages: seq<Page>, updatedAfter: Option<int>, size: nat, table: Table,
                             listing: seq<Summary>)
    requires size > 0 && Keyed(table) && Constant(versions, table) && IsListing(listing, table, updatedAfter)
    requires IsWalk(versions, pages, updatedAfter, size) && pages != []
    requires Finished(pages) || DecodeCursor(CursorAfter(pages)).Failure?
    ensures Finished(pages) <==> BoundariesResumable(listing, size)
  {
    var n := |pages|;
    PagesAreListing(versions, pages, updatedAfter, size, table, listing);
    if Finished(pages) {
      forall k | k > 0
        ensures CanContinue(listing, size, k)
      {
        if k < n {
          WalkContinues(versions, pages, updatedAfter, size, table, listing, k);
        } else {
          Scale(n, k, size);
        }
      }
    } else {
      assert !CanContinue(listing, size, n);
    }
  }

  /** On a fixed table, without storage failures and with requests enough, following the cursors completes, with
      the whole listing, exactly when every boundary row has non-empty ids and a non-zero time. */
  lemma FixedTableCompletesIff(versions: seq<Table>, fetch: Fetch, pages: seq<Page>, table: Table, listing: seq<Summary>)
    requires Fetched(versions, fetch, pages) && fetch != Failed(StorageFailure)
    requires Keyed(table) && Constant(versions, table) && IsListing(listing, table, None)
    requires versions != [] && |listing| <= |versions| * CLIENT_LIMIT
    ensures fetch.Complete? <==> BoundariesResumable(listing, CLIENT_LIMIT)
    ensures fetch.Complete? ==> fetch.items == listing
  {
    PagesAreListing(versions, pages, None, CLIENT_LIMIT, table, listing);
    FixedWalkFinishesIff(versions, pages, None, CLIENT_LIMIT, table, listing);
  }

  /** The walk over a fixed table can go on past a page boundary exactly when the row at that
      boundary has non-empty ids and a non-zero time; otherwise its own cursor is refused. */
  lemma BoundaryRowsMustBeResumable(versions: seq<Table>, pages: seq<Page>, updatedAfter: Option<int>, size: nat, table: Table)
    requires size > 0 && Keyed(table) && Constant(versions, table)
    requires IsWalk(versions, pages, updatedAfter, size) && pages != [] && !Finished(pages)
    ensures |Flatten(pages)| == |pages| * size > 0
    ensures DecodeCursor(CursorAfter(pages)).Success? <==> Resumable(KeyOf(Flatten(pages)[|pages| * size - 1]))
  {
    var all := Admitted(Items(table), updatedAfter, None);
    FixedTablePages(versions, pages, updatedAfter, size, table);
    CursorIsLast(all, Flatten(pages), CursorAfter(pages), |pages|, size);
  }
}
