/** A list that keeps elements only for the rows near its viewport
    (packages/ui/src/widgets/virtual-list.ts). */
module VirtualList {
  datatype Row = Row(top: real, bottom: real, key: string)

  /** An item as its delegate describes it. */
  datatype Item = Item(height: real, key: string)

  /** An element that was rendered, at its last position. */
  datatype Element = Element(top: real, height: real, active: bool)

  const UINT32 := 0x1_0000_0000

  function Bottom(items: seq<Item>, n: nat): real
    requires n <= |items|
  {
    if n == 0 then 0.0 else Bottom(items, n - 1) + items[n - 1].height
  }

  ghost predicate StandsAt(row: Row, items: seq<Item>, i: nat)
    requires i < |items|
  {
    row == Row(Bottom(items, i), Bottom(items, i + 1), items[i].key)
  }

  /** The rows stand on top of one another. */
  ghost predicate Stacked(rows: seq<Row>, items: seq<Item>) {
    |rows| == |items| && forall i :: 0 <= i < |items| ==> StandsAt(rows[i], items, i)
  }

  /** Each row has its item's key and height and starts where the one above it ends, the first one at the top. */
  lemma StackedHeights(rows: seq<Row>, items: seq<Item>, i: nat)
    requires Stacked(rows, items) && i < |items|
    ensures rows[i].key == items[i].key && rows[i].bottom - rows[i].top == items[i].height
    ensures rows[i].top == if i == 0 then 0.0 else rows[i - 1].bottom
  {
    assert StandsAt(rows[i], items, i) && (i > 0 ==> StandsAt(rows[i - 1], items, i - 1));
  }

  predicate Descending(rows: seq<Row>) {
    && (forall i, j :: 0 <= i < j < |rows| ==> rows[i].bottom <= rows[j].top)
    && (forall i :: 0 <= i < |rows| ==> rows[i].top <= rows[i].bottom)
  }

  /** The linear scan: the rows that touch a stretch of the content. */
  function Scan(rows: seq<Row>, start: real, end: real): set<string> {
    set i | 0 <= i < |rows| && rows[i].bottom >= start && rows[i].top <= end :: rows[i].key
  }

  function Keys(rows: seq<Row>, first: nat, last: nat): set<string>
    requires first <= last <= |rows|
  {
    if first == last then {} else Keys(rows, first, last - 1) + {rows[last - 1].key}
  }

  lemma {:induction false} KeyInRange(rows: seq<Row>, first: nat, last: nat, key: string)
    requires first <= last <= |rows|
    ensures key in Keys(rows, first, last) <==> exists i :: first <= i < last && rows[i].key == key
  {
    if first < last {
      KeyInRange(rows, first, last - 1, key);
    }
  }

  /** In a stacked list the rows that touch a stretch are neighbours. */
  lemma ScanIsRange(rows: seq<Row>, start: real, end: real, first: nat, last: nat)
    requires first <= last <= |rows|
    requires forall i :: 0 <= i < first ==> rows[i].bottom < start
    requires forall i :: first <= i < last ==> rows[i].bottom >= start && rows[i].top <= end
    requires forall i :: last <= i < |rows| ==> rows[i].top > end
    ensures Scan(rows, start, end) == Keys(rows, first, last)
  {
    forall key
      ensures key in Scan(rows, start, end) <==> key in Keys(rows, first, last)
    {
      KeyInRange(rows, first, last, key);
    }
  }

  lemma AllBelow(rows: seq<Row>, last: nat, end: real)
    requires Descending(rows) && last <= |rows| && (last < |rows| ==> rows[last].top > end)
    ensures forall i :: last <= i < |rows| ==> rows[i].top > end
  {
    forall i | last < i < |rows|
      ensures rows[i].top > end
    {
      assert rows[last].bottom <= rows[i].top;
    }
  }

  predicate HasKey(rows: seq<Row>, key: string) {
    exists i :: 0 <= i < |rows| && rows[i].key == key
  }

  function Max(a: real, b: real): real {
    if a < b then b else a
  }

  lemma {:induction false} BottomGrows(items: seq<Item>, i: nat, j: nat)
    requires i <= j <= |items| && forall k :: 0 <= k < |items| ==> items[k].height >= 0.0
    ensures Bottom(items, i) <= Bottom(items, j)
  {
    if i < j {
      BottomGrows(items, i, j - 1);
    }
  }

  lemma StackedDescends(rows: seq<Row>, items: seq<Item>)
    requires Stacked(rows, items) && forall k :: 0 <= k < |items| ==> items[k].height >= 0.0
    ensures Descending(rows)
  {
    forall i, j | 0 <= i < j < |rows|
      ensures rows[i].bottom <= rows[j].top
    {
      assert StandsAt(rows[i], items, i) && StandsAt(rows[j], items, j);
      BottomGrows(items, i + 1, j);
    }
    forall i | 0 <= i < |rows|
      ensures rows[i].top <= rows[i].bottom
    {
      assert StandsAt(rows[i], items, i);
      BottomGrows(items, i, i + 1);
    }
  }

  /** No other row has this row's key. */
  predicate UniqueKey(rows: seq<Row>, i: nat)
    requires i < |rows|
  {
    forall j :: 0 <= j < |rows| && j != i ==> rows[j].key != rows[i].key
  }

  lemma UniqueInRange(rows: seq<Row>, first: nat, last: nat, i: nat)
    requires first <= last <= |rows| && i < |rows| && UniqueKey(rows, i) && rows[i].key in Keys(rows, first, last)
    ensures first <= i < last
  {
    KeyInRange(rows, first, last, rows[i].key);
  }

  function ElementOf(row: Row, active: bool): Element {
    Element(row.top, row.bottom - row.top, active)
  }

  /** The element under a row's key shows that row. */
  predicate Shows(rendered: map<string, Element>, row: Row, hasActive: bool, activeKey: string) {
    row.key in rendered && rendered[row.key] == ElementOf(row, hasActive && activeKey == row.key)
  }

  /** Rows with a key of their own are shown where they stand. */
  predicate ShownBetween(rendered: map<string, Element>, rows: seq<Row>, first: nat, last: nat, hasActive: bool, activeKey: string)
    requires first <= last <= |rows|
  {
    forall i :: first <= i < last && UniqueKey(rows, i) ==> Shows(rendered, rows[i], hasActive, activeKey)
  }

  predicate AllShown(rendered: map<string, Element>, rows: seq<Row>, hasActive: bool, activeKey: string) {
    forall i :: 0 <= i < |rows| && rows[i].key in rendered && UniqueKey(rows, i) ==> Shows(rendered, rows[i], hasActive, activeKey)
  }

  lemma ShowNext(rendered: map<string, Element>, rows: seq<Row>, first: nat, last: nat, hasActive: bool, activeKey: string)
    requires first <= last < |rows| && ShownBetween(rendered, rows, first, last, hasActive, activeKey)
    ensures var row := rows[last];
            ShownBetween(rendered[row.key := ElementOf(row, hasActive && activeKey == row.key)], rows, first, last + 1, hasActive, activeKey)
  {
    var row := rows[last];
    var rendered' := rendered[row.key := ElementOf(row, hasActive && activeKey == row.key)];
    forall i | first <= i < last + 1 && UniqueKey(rows, i)
      ensures Shows(rendered', rows[i], hasActive, activeKey)
    {
      if i < last {
        assert Shows(rendered, rows[i], hasActive, activeKey) && rows[last].key != rows[i].key;
      }
    }
  }

  lemma ShowKept(rendered: map<string, Element>, rows: seq<Row>, first: nat, last: nat, hasActive: bool, activeKey: string)
    requires first <= last <= |rows| && ShownBetween(rendered, rows, first, last, hasActive, activeKey)
    requires Keys(rows, first, last) <= rendered.Keys
    ensures var kept := rendered - (rendered.Keys - Keys(rows, first, last));
            kept.Keys == Keys(rows, first, last) && AllShown(kept, rows, hasActive, activeKey)
  {
    var kept := rendered - (rendered.Keys - Keys(rows, first, last));
    forall i | 0 <= i < |rows| && rows[i].key in kept && UniqueKey(rows, i)
      ensures Shows(kept, rows[i], hasActive, activeKey)
    {
      UniqueInRange(rows, first, last, i);
      assert Shows(rendered, rows[i], hasActive, activeKey);
    }
  }

  /** Without the elements of rows outside the range, what is left is what a scan keeps. */
  lemma KeptIsScan(rendered: map<string, Element>, rows: seq<Row>, start: real, end: real, first: nat, last: nat,
                   hasActive: bool, activeKey: string)
    requires Descending(rows) && first <= last <= |rows|
    requires forall i :: 0 <= i < first ==> rows[i].bottom < start
    requires forall i :: first <= i < |rows| ==> rows[i].bottom >= start
    requires forall i :: first <= i < last ==> rows[i].top <= end
    requires last < |rows| ==> rows[last].top > end
    requires ShownBetween(rendered, rows, first, last, hasActive, activeKey) && Keys(rows, first, last) <= rendered.Keys
    ensures var kept := rendered - (rendered.Keys - Keys(rows, first, last));
            kept.Keys == Scan(rows, start, end) && AllShown(kept, rows, hasActive, activeKey)
  {
    AllBelow(rows, last, end);
    ScanIsRange(rows, start, end, first, last);
    ShowKept(rendered, rows, first, last, hasActive, activeKey);
  }

  /** The row is at least in part inside a stretch of the content. */
  predicate Touches(row: Row, start: real, end: real) {
    row.bottom >= start && row.top <= end
  }

  lemma ScanHas(rows: seq<Row>, start: real, end: real, i: nat)
    requires i < |rows| && Touches(rows[i], start, end)
    ensures rows[i].key in Scan(rows, start, end)
  {
  }

  class VirtualList {
    var rows: seq<Row>
    var rendered: map<string, Element>
    var activeKey: string
    var hasActive: bool
    var viewportHeight: real
    var clientHeight: real
    var scrollTop: real
    const overscan: real

    constructor (viewportHeight: real, clientHeight: real, overscan: real)
      ensures rows == [] && rendered == map[] && scrollTop == 0.0
      ensures this.viewportHeight == viewportHeight && this.clientHeight == clientHeight && this.overscan == overscan
    {
      this.viewportHeight, this.clientHeight, this.overscan := viewportHeight, clientHeight, overscan;
      rows, rendered, activeKey, hasActive, scrollTop := [], map[], "", false, 0.0;
    }

    function EffectiveHeight(): (height: real)
      reads this
      ensures viewportHeight > 0.0 ==> height == viewportHeight
      ensures viewportHeight == 0.0 && clientHeight > 0.0 ==> height == clientHeight
    {
      if viewportHeight != 0.0 then viewportHeight else if clientHeight != 0.0 then clientHeight else 600.0
    }

    function Start(): real
      reads this
    {
      Max(0.0, scrollTop - overscan)
    }

    function End(): real
      reads this
    {
      scrollTop + EffectiveHeight() + overscan
    }

    /** Every row inside the viewport has an element, and no element is for a row farther off than the overscan. */
    ghost predicate CoversViewport()
      reads this
    {
      var top, bottom := scrollTop, scrollTop + EffectiveHeight();
      && (overscan >= 0.0 && scrollTop >= 0.0 ==>
            forall i :: 0 <= i < |rows| && Touches(rows[i], top, bottom) ==> rows[i].key in rendered)
      && (forall key :: key in rendered ==>
                          exists i :: 0 <= i < |rows| && rows[i].key == key && Touches(rows[i], top - overscan, bottom + overscan))
    }

    /** The element of a row with a key of its own has the row's place, its height and its focus. */
    ghost predicate PlacesElements()
      reads this
    {
      forall i :: 0 <= i < |rows| && rows[i].key in rendered && UniqueKey(rows, i) ==>
                    var element := rendered[rows[i].key];
                    element.top == rows[i].top && element.top + element.height == rows[i].bottom
                    && (element.active <==> hasActive && activeKey == rows[i].key)
    }

    lemma ScanCovers()
      requires rendered.Keys == Scan(rows, Start(), End()) && AllShown(rendered, rows, hasActive, activeKey)
      ensures CoversViewport() && PlacesElements()
    {
      forall i | 0 <= i < |rows| && Touches(rows[i], scrollTop, scrollTop + EffectiveHeight()) && overscan >= 0.0 && scrollTop >= 0.0
        ensures rows[i].key in rendered
      {
        ScanHas(rows, Start(), End(), i);
      }
      forall i | 0 <= i < |rows| && rows[i].key in rendered && UniqueKey(rows, i)
        ensures rendered[rows[i].key] == ElementOf(rows[i], hasActive && activeKey == rows[i].key)
      {
        assert Shows(rendered, rows[i], hasActive, activeKey);
      }
    }

    /** The binary search finds the first row that ends at or below an offset; the sum of two row numbers is
        halved as a 32-bit number. */
    method FirstVisibleIndex(offset: real) returns (low: nat)
      requires Descending(rows) && |rows| <= UINT32 / 2
      ensures low <= |rows|
      ensures forall i :: 0 <= i < low ==> rows[i].bottom < offset
      ensures forall i :: low <= i < |rows| ==> rows[i].bottom >= offset
    {
      low := 0;
      var high := |rows|;
      while low < high
        invariant low <= high <= |rows|
        invariant forall i :: 0 <= i < low ==> rows[i].bottom < offset
        invariant forall i :: high <= i < |rows| ==> rows[i].bottom >= offset
      {
        var middle := (low + high) % UINT32 / 2;
        if rows[middle].bottom < offset {
          low := middle + 1;
        } else {
          high := middle;
        }
      }
    }

    /** After rendering, the elements kept are those a linear scan would keep, each at its row's place. */
    method RenderVisible()
      requires Descending(rows) && |rows| <= UINT32 / 2
      modifies this`rendered
      ensures rendered.Keys == Scan(rows, Start(), End())
      ensures AllShown(rendered, rows, hasActive, activeKey)
      ensures CoversViewport() && PlacesElements()
    {
      var start, end := Start(), End();
      var first := FirstVisibleIndex(start);
      var last, visible := RenderFrom(first, end);
      KeptIsScan(rendered, rows, start, end, first, last, hasActive, activeKey);
      var stale := rendered.Keys - visible;
      rendered := rendered - stale;
      assert Start() == start && End() == end;
      ScanCovers();
    }

    /** The loop over the rows from the first visible one to the first one past the end. */
    method RenderFrom(first: nat, end: real) returns (last: nat, visible: set<string>)
      requires first <= |rows|
      modifies this`rendered
      ensures first <= last <= |rows| && visible == Keys(rows, first, last) && visible <= rendered.Keys
      ensures forall i :: first <= i < last ==> rows[i].top <= end
      ensures last < |rows| ==> rows[last].top > end
      ensures ShownBetween(rendered, rows, first, last, hasActive, activeKey)
    {
      visible := {};
      last := first;
      while last < |rows| && rows[last].top <= end
        invariant first <= last <= |rows| && visible == Keys(rows, first, last) && visible <= rendered.Keys
        invariant forall i :: first <= i < last ==> rows[i].top <= end
        invariant ShownBetween(rendered, rows, first, last, hasActive, activeKey)
      {
        var row := rows[last];
        ShowNext(rendered, rows, first, last, hasActive, activeKey);
        visible := visible + {row.key};
        rendered := rendered[row.key := Element(row.top, row.bottom - row.top, hasActive && row.key == activeKey)];
        last := last + 1;
      }
    }

    method SetItems(items: seq<Item>)
      requires (forall k :: 0 <= k < |items| ==> items[k].height >= 0.0) && |items| <= UINT32 / 2
      modifies this`rows, this`rendered, this`activeKey, this`hasActive
      ensures Stacked(rows, items) && Descending(rows)
      ensures rendered.Keys == Scan(rows, Start(), End())
      ensures CoversViewport() && PlacesElements()
      ensures hasActive <==> rows != []
      ensures hasActive ==> activeKey == if old(hasActive) && HasKey(rows, old(activeKey)) then old(activeKey) else rows[0].key
    {
      rows := Stack(items);
      StackedDescends(rows, items);
      if !hasActive || !HasKey(rows, activeKey) {
        hasActive := rows != [];
        if rows != [] {
          activeKey := rows[0].key;
        }
      }
      RenderVisible();
    }

    static method Stack(items: seq<Item>) returns (stacked: seq<Row>)
      ensures Stacked(stacked, items)
    {
      var top := 0.0;
      stacked := [];
      for i := 0 to |items|
        invariant |stacked| == i && top == Bottom(items, i)
        invariant forall j :: 0 <= j < i ==> StandsAt(stacked[j], items, j)
      {
        stacked := stacked + [Row(top, top + items[i].height, items[i].key)];
        top := top + items[i].height;
      }
    }

    /** Scrolls as little as needed to show a row. */
    method Reveal(index: nat)
      requires Descending(rows) && |rows| <= UINT32 / 2
      modifies this`scrollTop, this`rendered
      ensures index >= |rows| ==> scrollTop == old(scrollTop) && rendered == old(rendered)
      ensures index < |rows| && rows[index].bottom - rows[index].top <= EffectiveHeight() ==>
                scrollTop <= rows[index].top && rows[index].bottom <= scrollTop + EffectiveHeight()
      ensures index < |rows| && rows[index].top < old(scrollTop) ==> scrollTop == rows[index].top
      ensures index < |rows| && rows[index].top >= old(scrollTop) ==>
                scrollTop == Max(old(scrollTop), rows[index].bottom - EffectiveHeight())
      ensures index < |rows| ==> rendered.Keys == Scan(rows, Start(), End()) && CoversViewport() && PlacesElements()
    {
      if index >= |rows| {
        return;
      }
      var row := rows[index];
      var height := EffectiveHeight();
      if row.top < scrollTop {
        scrollTop := row.top;
      } else if row.bottom > scrollTop + height {
        scrollTop := row.bottom - height;
      }
      RenderVisible();
    }
  }
}
