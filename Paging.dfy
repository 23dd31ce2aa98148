/** Paging of the property listing into pages of four items, as done by
    PropertyListComponent.makingActualList in the web front end. */
module Paging {

  /** Number of listing items on one page (the component's miniListSize). */
  const MiniListSize: nat := 4

  /** Specification of the paging: consecutive pages of MiniListSize items,
      followed by one trailing page that holds the remainder. The trailing
      page is always present, so it is empty when the length is a multiple
      of four (in particular [] is paged as [[]]). */
  function Chunks<T>(s: seq<T>): seq<seq<T>>
    decreases |s|
  {
    if |s| < MiniListSize then [s]
    else [s[..MiniListSize]] + Chunks(s[MiniListSize..])
  }

  /** Concatenation of a sequence of pages. */
  function Flatten<T>(pages: seq<seq<T>>): seq<T>
  {
    if pages == [] then [] else pages[0] + Flatten(pages[1..])
  }

  /** Concatenating all pages gives back the listing, same items, same order. */
  lemma {:induction false} FlattenChunks<T>(s: seq<T>)
    ensures Flatten(Chunks(s)) == s
    decreases |s|
  {
    if |s| >= MiniListSize {
      FlattenChunks(s[MiniListSize..]);
      assert Chunks(s)[1..] == Chunks(s[MiniListSize..]);
      assert s[..MiniListSize] + s[MiniListSize..] == s;
    }
  }

  /** There are exactly |s| / 4 + 1 pages, so the result is never empty. */
  lemma {:induction false} ChunksCount<T>(s: seq<T>)
    ensures |Chunks(s)| == |s| / MiniListSize + 1
    ensures Chunks(s) != []
    decreases |s|
  {
    if |s| >= MiniListSize {
      ChunksCount(s[MiniListSize..]);
    }
  }

  /** Page k holds the items with positions 4k up to (but excluding) 4k + 4,
      cut off at the end of the listing. */
  lemma {:induction false} ChunksPageAt<T>(s: seq<T>, k: nat)
    requires k < |s| / MiniListSize + 1
    ensures |Chunks(s)| == |s| / MiniListSize + 1
    ensures MiniListSize * k <= |s|
    ensures Chunks(s)[k] == s[MiniListSize * k .. Min(MiniListSize * k + MiniListSize, |s|)]
    decreases |s|
  {
    ChunksCount(s);
    if |s| >= MiniListSize && k > 0 {
      ChunksPageAt(s[MiniListSize..], k - 1);
      var t := s[MiniListSize..];
      assert t[MiniListSize * (k - 1) .. Min(MiniListSize * (k - 1) + MiniListSize, |t|)]
          == s[MiniListSize * k .. Min(MiniListSize * k + MiniListSize, |s|)];
    }
  }

  function Min(a: int, b: int): int { if a <= b then a else b }

  /** Every page but the last has exactly four items; the last page holds
      the remaining |s| % 4 items, which are the tail of the listing. */
  lemma PageSizes<T>(s: seq<T>)
    ensures |Chunks(s)| == |s| / MiniListSize + 1
    ensures forall k :: 0 <= k < |Chunks(s)| - 1 ==> |Chunks(s)[k]| == MiniListSize
    ensures |Chunks(s)[|Chunks(s)| - 1]| == |s| % MiniListSize
    ensures Chunks(s)[|Chunks(s)| - 1] == s[|s| - |s| % MiniListSize ..]
  {
    ChunksCount(s);
    forall k | 0 <= k < |Chunks(s)| - 1
      ensures |Chunks(s)[k]| == MiniListSize
    {
      ChunksPageAt(s, k);
    }
    ChunksPageAt(s, |s| / MiniListSize);
  }

  /** Appending one item to the listing extends the last page; when that
      page becomes full a new empty trailing page appears. This is the step
      the paging loop takes per item. */
  lemma {:induction false} ChunksSnoc<T>(s: seq<T>, x: T)
    ensures Chunks(s) != []
    ensures Chunks(s + [x]) ==
      Chunks(s)[..|Chunks(s)| - 1] + [Chunks(s)[|Chunks(s)| - 1] + [x]]
      + (if |s| % MiniListSize == MiniListSize - 1 then [[]] else [])
    decreases |s|
  {
    ChunksCount(s);
    if |s| < MiniListSize {
      if |s| == MiniListSize - 1 {
        assert (s + [x])[..MiniListSize] == s + [x];
        assert (s + [x])[MiniListSize..] == [];
      }
    } else {
      var t := s[MiniListSize..];
      ChunksSnoc(t, x);
      assert (s + [x])[..MiniListSize] == s[..MiniListSize];
      assert (s + [x])[MiniListSize..] == t + [x];
      assert |t| % MiniListSize == |s| % MiniListSize;
      assert Chunks(s) == [s[..MiniListSize]] + Chunks(t);
    }
  }

  /** Pushing onto a list whose head is later shifted off. */
  lemma AppendAfterHead<T>(a: seq<T>, x: T)
    requires |a| >= 1
    ensures (a + [x])[1..] == a[1..] + [x]
  {
  }

  /** makingActualList: walks the listing once, collecting items into a
      temporary page and pushing it whenever the running count reaches a
      multiple of four. The list of pages starts with a sentinel empty page
      that is dropped at the end, after the trailing page has been pushed.
      The listing itself is a value here, so it cannot be changed. */
  method MakingActualList<T>(items: seq<T>) returns (actualList: seq<seq<T>>)
    ensures actualList == Chunks(items)
  {
    var listSize := |items|;
    actualList := [[]];
    var tempList: seq<T> := [];
    for i := 0 to listSize
      invariant |actualList| >= 1 && actualList[0] == []
      invariant |tempList| == i % MiniListSize
      invariant actualList[1..] + [tempList] == Chunks(items[..i])
    {
      var property := items[i];
      ghost var done := actualList[1..];
      ghost var pages := Chunks(items[..i]);
      ChunksSnoc(items[..i], property);
      assert pages[..|pages| - 1] == done && pages[|pages| - 1] == tempList;
      assert items[..i + 1] == items[..i] + [property];
      tempList := tempList + [property];
      if i != 0 && (i + 1) % MiniListSize == 0 {
        AppendAfterHead(actualList, tempList);
        actualList := actualList + [tempList];
        tempList := [];
        assert actualList[1..] + [tempList] == done + [pages[|pages| - 1] + [property]] + [[]];
      } else {
        assert actualList[1..] + [tempList] == done + [pages[|pages| - 1] + [property]];
      }
    }
    actualList := actualList + [tempList];
    actualList := actualList[1..];
    assert items[..listSize] == items;
  }
}
