/** The dynamic content feed: a feed generated from the user's niche and
    goals and sorted newest first, bookmarks kept in a set mirrored to local
    storage under "adsense-calculator-bookmarks", and the tab filter. */
module ContentFeed {
  import opened JsValues
  import opened Seqs

  /** A feed item. `publishedAt` is the publication date written as the
      number yyyymmdd, which orders exactly as the dates' timestamps do. The
      description and body text are not modelled. */
  datatype ContentItem = ContentItem(
    id: string, kind: string, title: string, category: string, readTime: nat,
    publishedAt: nat, trending: bool, bookmarked: bool)

  const BaseContent: seq<ContentItem> := [
    ContentItem("1", "tip", "Optimize Ad Placement for Higher CTR", "optimization", 3, 20240115, true, false),
    ContentItem("2", "news", "Google AdSense Policy Updates - January 2024", "policy", 5, 20240110, false, false),
    ContentItem("3", "case-study", "How a Travel Blog Increased RPM by 300%", "case-study", 8, 20240108, true, false),
    ContentItem("4", "tip", "Mobile Optimization for Better Ad Performance", "mobile", 4, 20240105, false, false),
    ContentItem("5", "update", "New AdSense Features: Auto Ads 2.0", "features", 6, 20240103, true, false)]

  const FinanceItem := ContentItem("6", "tip", "Finance Niche: High-Value Keywords for Better CPC", "niche-specific", 5, 20240112, true, false)
  const TechnologyItem := ContentItem("7", "case-study", "Tech Blog Success: Native Ads vs Display Ads", "niche-specific", 7, 20240111, false, false)
  const RpmItem := ContentItem("8", "tip", "Advanced RPM Optimization Strategies", "goal-specific", 6, 20240114, true, false)
  const CtrItem := ContentItem("9", "tip", "CTR Optimization: A/B Testing Guide", "goal-specific", 8, 20240113, false, false)

  /** The ids occurring in a list of items. */
  function Ids(s: seq<ContentItem>): set<string> {
    set k | 0 <= k < |s| :: s[k].id
  }

  /** No two items share an id. */
  predicate DistinctIds(s: seq<ContentItem>) {
    forall i, j :: 0 <= i < j < |s| ==> s[i].id != s[j].id
  }

  /** Sorted by publication date, newest first. */
  predicate NewestFirst(s: seq<ContentItem>) {
    forall i, j :: 0 <= i < j < |s| ==> s[i].publishedAt >= s[j].publishedAt
  }

  /** Places `x` after every item at least as new as it. */
  function Insert(x: ContentItem, s: seq<ContentItem>): (r: seq<ContentItem>)
    ensures |r| == |s| + 1
  {
    if s == [] then [x]
    else if x.publishedAt > s[0].publishedAt then [x] + s
    else [s[0]] + Insert(x, s[1..])
  }

  /** Insertion adds exactly one copy of `x` and loses nothing. */
  lemma {:induction false} InsertPermutes(x: ContentItem, s: seq<ContentItem>)
    ensures multiset(Insert(x, s)) == multiset(s) + multiset{x}
  {
    if s != [] && x.publishedAt <= s[0].publishedAt {
      InsertPermutes(x, s[1..]);
      assert s == [s[0]] + s[1..];
    }
  }

  /** The items of an insertion are `x` and the items already there. */
  lemma InsertMembers(x: ContentItem, s: seq<ContentItem>)
    ensures forall y :: y in Insert(x, s) <==> y == x || y in s
  {
    InsertPermutes(x, s);
    forall y ensures y in Insert(x, s) <==> y == x || y in s {
      assert y in Insert(x, s) <==> y in multiset(Insert(x, s));
      assert y in s <==> y in multiset(s);
    }
  }

  /** Insertion into a list sorted newest first keeps it sorted. */
  lemma {:induction false} InsertSorted(x: ContentItem, s: seq<ContentItem>)
    requires NewestFirst(s)
    ensures NewestFirst(Insert(x, s))
  {
    if s != [] && x.publishedAt <= s[0].publishedAt {
      var tail := s[1..];
      InsertSorted(x, tail);
      InsertMembers(x, tail);
      var t := Insert(x, tail);
      var r := Insert(x, s);
      assert r == [s[0]] + t;
      forall k | 0 <= k < |t| ensures t[k].publishedAt <= s[0].publishedAt {
        assert t[k] in t;
        if t[k] != x {
          var j :| 0 <= j < |tail| && tail[j] == t[k];
          assert tail[j] == s[j + 1];
        }
      }
      forall i, j | 0 <= i < j < |r| ensures r[i].publishedAt >= r[j].publishedAt {
        assert r[j] == t[j - 1];
        if i > 0 {
          assert r[i] == t[i - 1];
        }
      }
    }
  }

  /** Items with equal elements have equal ids. */
  lemma {:induction false} SameElementsSameIds(a: seq<ContentItem>, b: seq<ContentItem>)
    requires forall y :: y in a <==> y in b
    ensures Ids(a) == Ids(b)
  {
    forall id | id in Ids(a) ensures id in Ids(b) {
      var k :| 0 <= k < |a| && a[k].id == id;
      assert a[k] in b;
      var j :| 0 <= j < |b| && b[j] == a[k];
    }
    forall id | id in Ids(b) ensures id in Ids(a) {
      var k :| 0 <= k < |b| && b[k].id == id;
      assert b[k] in a;
      var j :| 0 <= j < |a| && a[j] == b[k];
    }
  }

  /** The ids after appending one item. */
  lemma IdsAppend(s: seq<ContentItem>, x: ContentItem)
    ensures Ids(s + [x]) == Ids(s) + {x.id}
  {
    assert forall k :: 0 <= k < |s| ==> (s + [x])[k] == s[k];
    assert (s + [x])[|s|] == x;
  }

  /** Inserting a new id into a list of distinct ids keeps them distinct. */
  lemma {:induction false} InsertKeepsDistinct(x: ContentItem, s: seq<ContentItem>)
    requires DistinctIds(s) && x.id !in Ids(s)
    ensures DistinctIds(Insert(x, s))
    ensures Ids(Insert(x, s)) == Ids(s) + {x.id}
  {
    var r := Insert(x, s);
    InsertMembers(x, s);
    assert forall y :: y in s + [x] <==> y == x || y in s;
    SameElementsSameIds(r, s + [x]);
    IdsAppend(s, x);
    if s == [] {
    } else if x.publishedAt > s[0].publishedAt {
      assert r == [x] + s;
      forall i, j | 0 <= i < j < |r| ensures r[i].id != r[j].id {
        assert r[j] == s[j - 1];
        if i == 0 {
          assert s[j - 1].id in Ids(s);
        } else {
          assert r[i] == s[i - 1];
        }
      }
    } else {
      var tail := s[1..];
      assert Ids(tail) <= Ids(s) by {
        forall id | id in Ids(tail) ensures id in Ids(s) {
          var k :| 0 <= k < |tail| && tail[k].id == id;
          assert s[k + 1] == tail[k];
        }
      }
      InsertKeepsDistinct(x, tail);
      var t := Insert(x, tail);
      assert r == [s[0]] + t;
      assert s[0].id !in Ids(tail) by {
        forall k | 0 <= k < |tail| ensures tail[k].id != s[0].id {
          assert tail[k] == s[k + 1];
        }
      }
      assert s[0].id != x.id by {
        assert s[0].id in Ids(s);
      }
      forall i, j | 0 <= i < j < |r| ensures r[i].id != r[j].id {
        assert r[j] == t[j - 1];
        if i == 0 {
          assert t[j - 1].id in Ids(t);
        } else {
          assert r[i] == t[i - 1];
        }
      }
    }
  }

  /** What the sort keeps after placing the first `i` items. */
  predicate SortedSoFar(items: seq<ContentItem>, i: nat, sorted: seq<ContentItem>)
    requires i <= |items|
  {
    && NewestFirst(sorted)
    && multiset(sorted) == multiset(items[..i])
    && (DistinctIds(items) ==> DistinctIds(sorted) && Ids(sorted) == Ids(items[..i]))
  }

  /** One step of the sort: inserting the next item into the items sorted so
      far keeps them sorted, adds that item, and keeps the ids distinct. */
  lemma InsertNext(items: seq<ContentItem>, i: nat, sorted: seq<ContentItem>)
    requires i < |items| && SortedSoFar(items, i, sorted)
    ensures SortedSoFar(items, i + 1, Insert(items[i], sorted))
  {
    assert items[..i + 1] == items[..i] + [items[i]];
    InsertSorted(items[i], sorted);
    InsertPermutes(items[i], sorted);
    if DistinctIds(items) {
      assert items[i].id !in Ids(items[..i]) by {
        forall k | 0 <= k < i ensures items[..i][k].id != items[i].id {
          assert items[..i][k] == items[k];
        }
      }
      InsertKeepsDistinct(items[i], sorted);
      IdsAppend(items[..i], items[i]);
    }
  }

  /** `items.sort((a, b) => date(b) - date(a))`, as an insertion sort:
      newest first, neither losing nor inventing an item. */
  method SortNewestFirst(items: seq<ContentItem>) returns (sorted: seq<ContentItem>)
    ensures NewestFirst(sorted)
    ensures multiset(sorted) == multiset(items)
    ensures DistinctIds(items) ==> DistinctIds(sorted) && Ids(sorted) == Ids(items)
  {
    sorted := [];
    var i := 0;
    while i < |items|
      invariant 0 <= i <= |items|
      invariant SortedSoFar(items, i, sorted)
    {
      InsertNext(items, i, sorted);
      sorted := Insert(items[i], sorted);
      i := i + 1;
    }
    assert items[..i] == items;
  }

  /** Appending an item whose id is new keeps the ids distinct. */
  lemma AppendNewId(s: seq<ContentItem>, x: ContentItem)
    requires DistinctIds(s) && x.id !in Ids(s)
    ensures DistinctIds(s + [x])
    ensures Ids(s + [x]) == Ids(s) + {x.id}
  {
    assert forall k :: 0 <= k < |s| ==> (s + [x])[k] == s[k];
    assert (s + [x])[|s|] == x;
    forall i, j | 0 <= i < j < |s| + 1 ensures (s + [x])[i].id != (s + [x])[j].id {
      if j == |s| {
        assert s[i].id in Ids(s);
      }
    }
  }

  /** The five base items carry the ids "1" to "5". */
  lemma BaseContentIds()
    ensures DistinctIds(BaseContent)
    ensures Ids(BaseContent) == {"1", "2", "3", "4", "5"}
  {
    var b := BaseContent;
    assert b[0].id == "1" && b[1].id == "2" && b[2].id == "3" && b[3].id == "4" && b[4].id == "5";
    assert "1" in Ids(b) && "2" in Ids(b) && "3" in Ids(b) && "4" in Ids(b) && "5" in Ids(b);
  }

  /** Reordering keeps the same items. */
  lemma SameMembers(a: seq<ContentItem>, b: seq<ContentItem>)
    requires multiset(a) == multiset(b)
    ensures forall y :: y in a <==> y in b
  {
    forall y ensures y in a <==> y in b {
      assert y in a <==> y in multiset(a);
      assert y in b <==> y in multiset(b);
    }
  }

  /** An item's id is among the ids of any list holding it. */
  lemma IdOfMember(s: seq<ContentItem>, y: ContentItem)
    ensures y in s ==> y.id in Ids(s)
  {
    if y in s {
      var k :| 0 <= k < |s| && s[k] == y;
    }
  }

  /** `if (cond) items.push(x)`. */
  function PushWhen(s: seq<ContentItem>, cond: bool, x: ContentItem): (r: seq<ContentItem>)
    ensures |r| >= |s| && r[..|s|] == s
  {
    if cond then s + [x] else s
  }

  /** A conditional push of an item with a new id keeps the ids distinct
      and adds the item's id when it happens. */
  lemma PushWhenNew(s: seq<ContentItem>, cond: bool, x: ContentItem)
    requires DistinctIds(s) && x.id !in Ids(s)
    ensures DistinctIds(PushWhen(s, cond, x))
    ensures Ids(PushWhen(s, cond, x)) == Ids(s) + (if cond then {x.id} else {})
  {
    if cond {
      AppendNewId(s, x);
    }
  }

  /** An item is present after a conditional push exactly when it was
      there before or is the item pushed. */
  lemma PushWhenHas(s: seq<ContentItem>, cond: bool, x: ContentItem, y: ContentItem)
    ensures y in PushWhen(s, cond, x) <==> y in s || (cond && y == x)
  {
  }

  /** Four conditional pushes of items whose ids are new and pairwise
      different keep the ids distinct and add the ids of the items pushed. */
  lemma PushesIds(base: seq<ContentItem>,
                  c1: bool, x1: ContentItem, c2: bool, x2: ContentItem,
                  c3: bool, x3: ContentItem, c4: bool, x4: ContentItem)
    requires DistinctIds(base)
    requires x1.id !in Ids(base) && x2.id !in Ids(base) && x3.id !in Ids(base) && x4.id !in Ids(base)
    requires x1.id != x2.id && x1.id != x3.id && x1.id != x4.id
    requires x2.id != x3.id && x2.id != x4.id && x3.id != x4.id
    ensures var s := PushWhen(PushWhen(PushWhen(PushWhen(base, c1, x1), c2, x2), c3, x3), c4, x4);
      && DistinctIds(s)
      && Ids(s) == Ids(base) + (if c1 then {x1.id} else {}) + (if c2 then {x2.id} else {})
                             + (if c3 then {x3.id} else {}) + (if c4 then {x4.id} else {})
  {
    var s1 := PushWhen(base, c1, x1);
    PushWhenNew(base, c1, x1);
    var s2 := PushWhen(s1, c2, x2);
    PushWhenNew(s1, c2, x2);
    var s3 := PushWhen(s2, c3, x3);
    PushWhenNew(s2, c3, x3);
    PushWhenNew(s3, c4, x4);
  }

  /** After four conditional pushes of items that are new and pairwise
      different, an item pushed is present exactly when its push happened. */
  lemma PushesHas(base: seq<ContentItem>,
                  c1: bool, x1: ContentItem, c2: bool, x2: ContentItem,
                  c3: bool, x3: ContentItem, c4: bool, x4: ContentItem,
                  y: ContentItem, c: bool)
    requires y !in base && (y == x1 || y == x2 || y == x3 || y == x4)
    requires x1 != x2 && x1 != x3 && x1 != x4 && x2 != x3 && x2 != x4 && x3 != x4
    requires c == (if y == x1 then c1 else if y == x2 then c2 else if y == x3 then c3 else c4)
    ensures y in PushWhen(PushWhen(PushWhen(PushWhen(base, c1, x1), c2, x2), c3, x3), c4, x4) <==> c
  {
    var s1 := PushWhen(base, c1, x1);
    PushWhenHas(base, c1, x1, y);
    var s2 := PushWhen(s1, c2, x2);
    PushWhenHas(s1, c2, x2, y);
    var s3 := PushWhen(s2, c3, x3);
    PushWhenHas(s2, c3, x3, y);
    PushWhenHas(s3, c4, x4, y);
  }

  /** The ids the feed must hold for a niche and a goal list. */
  function ExpectedIds(niche: string, goals: seq<string>): set<string> {
    {"1", "2", "3", "4", "5"}
    + (if niche == "finance" then {"6"} else {})
    + (if niche == "technology" then {"7"} else {})
    + (if "Increase RPM" in goals then {"8"} else {})
    + (if "Optimize CTR" in goals then {"9"} else {})
  }

  /** The pushes of `generateContent` onto the base items: the finance item
      for the finance niche, the technology item for the technology niche,
      and the RPM and CTR items for those goals, in that order. */
  function Collect(base: seq<ContentItem>, niche: string, goals: seq<string>): (items: seq<ContentItem>)
    ensures |items| >= |base| && items[..|base|] == base
  {
    var withFinance := PushWhen(base, niche == "finance", FinanceItem);
    var withTechnology := PushWhen(withFinance, niche == "technology", TechnologyItem);
    var withRpm := PushWhen(withTechnology, "Increase RPM" in goals, RpmItem);
    PushWhen(withRpm, "Optimize CTR" in goals, CtrItem)
  }

  /** Pushed onto the five base ids, the items carry distinct ids, exactly
      the expected ones. */
  lemma CollectIds(base: seq<ContentItem>, niche: string, goals: seq<string>)
    requires DistinctIds(base) && Ids(base) == {"1", "2", "3", "4", "5"}
    ensures DistinctIds(Collect(base, niche, goals))
    ensures Ids(Collect(base, niche, goals)) == ExpectedIds(niche, goals)
  {
    assert FinanceItem.id == "6" && TechnologyItem.id == "7" && RpmItem.id == "8" && CtrItem.id == "9";
    PushesIds(base, niche == "finance", FinanceItem, niche == "technology", TechnologyItem,
      "Increase RPM" in goals, RpmItem, "Optimize CTR" in goals, CtrItem);
  }

  /** Each optional item is collected exactly when its condition holds. */
  lemma CollectMembers(base: seq<ContentItem>, niche: string, goals: seq<string>)
    requires Ids(base) == {"1", "2", "3", "4", "5"}
    ensures FinanceItem in Collect(base, niche, goals) <==> niche == "finance"
    ensures TechnologyItem in Collect(base, niche, goals) <==> niche == "technology"
    ensures RpmItem in Collect(base, niche, goals) <==> "Increase RPM" in goals
    ensures CtrItem in Collect(base, niche, goals) <==> "Optimize CTR" in goals
  {
    assert FinanceItem.id == "6" && TechnologyItem.id == "7" && RpmItem.id == "8" && CtrItem.id == "9";
    var f, t, r, c := niche == "finance", niche == "technology", "Increase RPM" in goals, "Optimize CTR" in goals;
    IdOfMember(base, FinanceItem);
    IdOfMember(base, TechnologyItem);
    IdOfMember(base, RpmItem);
    IdOfMember(base, CtrItem);
    PushesHas(base, f, FinanceItem, t, TechnologyItem, r, RpmItem, c, CtrItem, FinanceItem, f);
    PushesHas(base, f, FinanceItem, t, TechnologyItem, r, RpmItem, c, CtrItem, TechnologyItem, t);
    PushesHas(base, f, FinanceItem, t, TechnologyItem, r, RpmItem, c, CtrItem, RpmItem, r);
    PushesHas(base, f, FinanceItem, t, TechnologyItem, r, RpmItem, c, CtrItem, CtrItem, c);
  }

  /** What a newest-first permutation of the collected items holds, for
      any base list with the ids 1 to 5. */
  lemma SortedCollection(base: seq<ContentItem>, niche: string, goals: seq<string>, feed: seq<ContentItem>)
    requires DistinctIds(base) && Ids(base) == {"1", "2", "3", "4", "5"}
    requires multiset(feed) == multiset(Collect(base, niche, goals))
    requires DistinctIds(feed) && Ids(feed) == Ids(Collect(base, niche, goals))
    ensures Ids(feed) == ExpectedIds(niche, goals)
    ensures forall k :: 0 <= k < |base| ==> base[k] in feed
    ensures FinanceItem in feed <==> niche == "finance"
    ensures TechnologyItem in feed <==> niche == "technology"
    ensures RpmItem in feed <==> "Increase RPM" in goals
    ensures CtrItem in feed <==> "Optimize CTR" in goals
  {
    var items := Collect(base, niche, goals);
    CollectIds(base, niche, goals);
    CollectMembers(base, niche, goals);
    SameMembers(items, feed);
    forall k | 0 <= k < |base| ensures base[k] in feed {
      assert items[k] == items[..|base|][k];
    }
  }

  /** `generateContent`: the collected items sorted newest first. */
  method GenerateContent(niche: string, goals: seq<string>) returns (feed: seq<ContentItem>)
    ensures NewestFirst(feed)
    ensures DistinctIds(feed)
    ensures Ids(feed) == ExpectedIds(niche, goals)
    ensures forall k :: 0 <= k < |BaseContent| ==> BaseContent[k] in feed
    ensures FinanceItem in feed <==> niche == "finance"
    ensures TechnologyItem in feed <==> niche == "technology"
    ensures RpmItem in feed <==> "Increase RPM" in goals
    ensures CtrItem in feed <==> "Optimize CTR" in goals
  {
    var items := Collect(BaseContent, niche, goals);
    BaseContentIds();
    CollectIds(BaseContent, niche, goals);
    feed := SortNewestFirst(items);
    SortedCollection(BaseContent, niche, goals, feed);
  }

  /** `toggleBookmark`'s new set: the item's membership flips. */
  function Toggle(bookmarks: set<string>, itemId: string): (r: set<string>)
    ensures itemId in r <==> itemId !in bookmarks
    ensures forall other :: other != itemId ==> (other in r <==> other in bookmarks)
  {
    if itemId in bookmarks then bookmarks - {itemId} else bookmarks + {itemId}
  }

  /** Toggling the same item twice restores the bookmarks. */
  lemma ToggleTwiceRestores(bookmarks: set<string>, itemId: string)
    ensures Toggle(Toggle(bookmarks, itemId), itemId) == bookmarks
  {
  }

  /** Whether a tab shows an item: "all" shows everything, "trending" the
      trending items, "bookmarked" the bookmarked ids, and any other tab the
      items of that type. */
  predicate TabShows(tab: string, bookmarks: set<string>, item: ContentItem) {
    if tab == "all" then true
    else if tab == "trending" then item.trending
    else if tab == "bookmarked" then item.id in bookmarks
    else item.kind == tab
  }

  function TabContent(content: seq<ContentItem>, tab: string, bookmarks: set<string>): (shown: seq<ContentItem>)
    ensures forall y :: y in shown <==> y in content && TabShows(tab, bookmarks, y)
    ensures IsSubsequence(shown, content)
    ensures tab == "all" ==> shown == content
  {
    var keep := (y: ContentItem) => TabShows(tab, bookmarks, y);
    FilterIsSubsequence(content, keep);
    if tab == "all" then
      FilterKeepsAll(content, keep);
      Filter(content, keep)
    else
      Filter(content, keep)
  }

  class Feed {
    var content: seq<ContentItem>
    var activeTab: string
    var bookmarkedItems: set<string>
    /** The "adsense-calculator-bookmarks" entry of local storage. */
    var stored: Option<set<string>>

    constructor (storage: Option<set<string>>)
      ensures content == [] && activeTab == "all" && bookmarkedItems == {} && stored == storage
    {
      content, activeTab, bookmarkedItems, stored := [], "all", {}, storage;
    }

    /** The effect run for a niche and goal list: regenerate the feed and
        load the stored bookmarks. */
    method Refresh(niche: string, goals: seq<string>)
      modifies this`content, this`bookmarkedItems
      ensures NewestFirst(content) && DistinctIds(content)
      ensures Ids(content) == ExpectedIds(niche, goals)
      ensures forall k :: 0 <= k < |BaseContent| ==> BaseContent[k] in content
      ensures FinanceItem in content <==> niche == "finance"
      ensures TechnologyItem in content <==> niche == "technology"
      ensures RpmItem in content <==> "Increase RPM" in goals
      ensures CtrItem in content <==> "Optimize CTR" in goals
      ensures bookmarkedItems == if stored.Some? then stored.value else old(bookmarkedItems)
    {
      content := GenerateContent(niche, goals);
      if stored.Some? {
        bookmarkedItems := stored.value;
      }
    }

    method SetActiveTab(tab: string)
      modifies this`activeTab
      ensures activeTab == tab
    {
      activeTab := tab;
    }

    /** `toggleBookmark`: flip the item's membership and store the set. */
    method ToggleBookmark(itemId: string)
      modifies this`bookmarkedItems, this`stored
      ensures bookmarkedItems == Toggle(old(bookmarkedItems), itemId)
      ensures stored == Some(bookmarkedItems)
    {
      var newBookmarks := bookmarkedItems;
      if itemId in newBookmarks {
        newBookmarks := newBookmarks - {itemId};
      } else {
        newBookmarks := newBookmarks + {itemId};
      }
      bookmarkedItems := newBookmarks;
      stored := Some(newBookmarks);
    }

    /** `filteredContent`: the items the active tab shows. */
    function FilteredContent(): seq<ContentItem>
      reads this
    {
      TabContent(content, activeTab, bookmarkedItems)
    }
  }
}
