/**
 * `local/FeedLocal.cpp`: one feed's post listing and read marking, the
 * sortOrder bookkeeping of the feeds of a folder (resort, nextSortOrder,
 * move, remove), and the refresh pipeline that stores the parsed items
 * and runs the user's scripts on them.
 */
module FeedLocal {
  import opened Wrappers
  import opened Strings
  import opened Flag
  import opened Ordering
  import opened Store
  import opened Scripts
  import PostLocal
  import ScriptLocal
  import Posts

  const M: nat := 0x1_0000_0000_0000_0000

  // ---------------------------------------------------------------- getPosts

  /** The `WHERE` terms `getPosts` builds for this feed, in the order it adds them. */
  function PageConditions(feedID: UInt64, unreadOnly: bool, searchFilter: string, c: FlagColor): seq<PostCondition>
  {
    [FeedIs(feedID)]
    + (if unreadOnly then [Unread] else [])
    + (if searchFilter != "" then [Mentions(searchFilter)] else [])
    + (if c != Gray then [FlaggedAs(PostLocal.FlagID(c))] else [])
  }

  /** What those terms select: the feed's posts, unread if asked, mentioning the filter if one is given, with the colour unless it is Gray. */
  lemma PageConditionsMeaning(feedID: UInt64, unreadOnly: bool, searchFilter: string, c: FlagColor,
                              id: UInt64, row: PostRow, flags: multiset<FlagRow>, memberships: multiset<MembershipRow>)
    ensures SatisfiesAll(PageConditions(feedID, unreadOnly, searchFilter, c), id, row, flags, memberships)
        <==> && row.feedID == feedID
             && (unreadOnly ==> !row.isRead)
             && (searchFilter != "" ==> ContainsIgnoringCase(row.item.title, searchFilter) || ContainsIgnoringCase(row.item.content, searchFilter))
             && (c != Gray ==> FlagRow(id, PostLocal.FlagID(c)) in flags)
  {
    var a: seq<PostCondition> := [FeedIs(feedID)];
    var b: seq<PostCondition> := if unreadOnly then [Unread] else [];
    var d: seq<PostCondition> := if searchFilter != "" then [Mentions(searchFilter)] else [];
    var e: seq<PostCondition> := if c != Gray then [FlaggedAs(PostLocal.FlagID(c))] else [];
    SatisfiesAllConcat(a + b + d, e, id, row, flags, memberships);
    SatisfiesAllConcat(a + b, d, id, row, flags, memberships);
    SatisfiesAllConcat(a, b, id, row, flags, memberships);
    SatisfiesAllSingle(FeedIs(feedID), id, row, flags, memberships);
    SatisfiesAllSingle(Unread, id, row, flags, memberships);
    SatisfiesAllSingle(Mentions(searchFilter), id, row, flags, memberships);
    SatisfiesAllSingle(FlaggedAs(PostLocal.FlagID(c)), id, row, flags, memberships);
  }

  /** `perPage * (page - 1)` in 64-bit unsigned arithmetic, where page 0 wraps around. */
  function PageOffset(perPage: UInt64, page: UInt64): UInt64
  {
    (perPage * ((page + UINT64_MAX) % M)) % M
  }

  /** For page 1 and on, as long as nothing overflows, a page starts `perPage * (page - 1)` posts in. */
  lemma PageOffsetOrdinary(perPage: UInt64, page: UInt64)
    requires 1 <= page && perPage * (page - 1) <= INT64_MAX
    ensures SqlOffset(PageOffset(perPage, page)) == perPage * (page - 1)
  {
    assert (page + UINT64_MAX) % M == page - 1;
  }

  /** Page 0 wraps to an offset SQLite reads as negative, so it shows the first page. */
  lemma PageZeroIsFirstPage(perPage: UInt64)
    requires 0 < perPage <= INT64_MAX
    ensures SqlOffset(PageOffset(perPage, 0)) == 0
  {
    assert perPage * UINT64_MAX == (perPage - 1) * M + (M - perPage);
    assert PageOffset(perPage, 0) == M - perPage;
  }

  /**
   * `getPosts`: the page of the feed's listing that starts at
   * `perPage * (page - 1)`, by date descending (unread first if asked), and
   * the number of matching posts on every page.
   */
  method GetPosts(db: Database, feedID: UInt64, perPage: UInt64, page: UInt64, unreadOnly: bool, unreadFirst: bool,
                  searchFilter: string, c: FlagColor)
    returns (count: nat, r: seq<PostLocal.StoredPost>)
    ensures count == |Matching(db.posts, PageConditions(feedID, unreadOnly, searchFilter, c), db.flags, db.memberships)|
    ensures PostLocal.ListingIn(db.posts, PageConditions(feedID, unreadOnly, searchFilter, c), db.flags, db.memberships, unreadFirst)
    ensures r == PostLocal.LoadAll(db.posts, db.feeds, db.flags,
                   Window(PostLocal.Listing(db.posts, PageConditions(feedID, unreadOnly, searchFilter, c), db.flags, db.memberships, unreadFirst),
                          SqlOffset(PageOffset(perPage, page)), SqlLimit(perPage, |db.posts|)))
  {
    var cs := PageConditions(feedID, unreadOnly, searchFilter, c);
    var offset := PageOffset(perPage, page);
    r := PostLocal.QueryMultiple(db, cs, unreadFirst, SqlOffset(offset), SqlLimit(perPage, |db.posts|));
    count := PostLocal.QueryCount(db, cs);
  }

  /** A post is on the feed's listing exactly when it passes every filter of the call. */
  lemma PageMembers(posts: map<UInt64, PostRow>, flags: multiset<FlagRow>, memberships: multiset<MembershipRow>,
                    feedID: UInt64, unreadOnly: bool, unreadFirst: bool, searchFilter: string, c: FlagColor, id: UInt64)
    ensures id in PostLocal.Listing(posts, PageConditions(feedID, unreadOnly, searchFilter, c), flags, memberships, unreadFirst)
        <==> && id in posts
             && posts[id].feedID == feedID
             && (unreadOnly ==> !posts[id].isRead)
             && (searchFilter != "" ==> ContainsIgnoringCase(posts[id].item.title, searchFilter) || ContainsIgnoringCase(posts[id].item.content, searchFilter))
             && (c != Gray ==> FlagRow(id, PostLocal.FlagID(c)) in flags)
  {
    PostLocal.ListingContents(posts, PageConditions(feedID, unreadOnly, searchFilter, c), flags, memberships, unreadFirst);
    if id in posts {
      PageConditionsMeaning(feedID, unreadOnly, searchFilter, c, id, posts[id], flags, memberships);
    }
  }

  // ---------------------------------------------------------------- markAsRead

  /** The `WHERE` terms of `markAsRead(maxPostID)`: the largest value means no id bound. */
  function MarkAsReadConditions(feedID: UInt64, maxPostID: UInt64): seq<PostCondition>
  {
    if maxPostID == UINT64_MAX then [FeedIs(feedID)] else [FeedIs(feedID), IDAtMost(maxPostID)]
  }

  method MarkAsRead(db: Database, feedID: UInt64, maxPostID: UInt64)
    modifies db`posts
    ensures db.posts == PostLocal.WithIsRead(old(db.posts), true, Matching(old(db.posts), MarkAsReadConditions(feedID, maxPostID), db.flags, db.memberships))
  {
    if maxPostID == UINT64_MAX {
      PostLocal.UpdateIsRead(db, true, [FeedIs(feedID)]);
    } else {
      PostLocal.UpdateIsRead(db, true, [FeedIs(feedID), IDAtMost(maxPostID)]);
    }
  }

  /**
   * Afterwards the feed's posts with an id up to `maxPostID` (all of them
   * for the largest value) are read, and every other post is as it was.
   * The bound is compared as a signed 64-bit integer: for ids up to
   * `INT64_MAX` a bound up to `INT64_MAX` means what it says, and any other
   * bound but the largest marks none of them.
   */
  lemma MarkAsReadEffect(posts: map<UInt64, PostRow>, flags: multiset<FlagRow>, memberships: multiset<MembershipRow>,
                         feedID: UInt64, maxPostID: UInt64, id: UInt64)
    requires id in posts
    ensures var r := PostLocal.WithIsRead(posts, true, Matching(posts, MarkAsReadConditions(feedID, maxPostID), flags, memberships));
      && id in r
      && r[id] == if posts[id].feedID == feedID && (maxPostID == UINT64_MAX || Signed(id) <= Signed(maxPostID))
                  then posts[id].(isRead := true) else posts[id]
    ensures var r := PostLocal.WithIsRead(posts, true, Matching(posts, MarkAsReadConditions(feedID, maxPostID), flags, memberships));
      && (id <= INT64_MAX && maxPostID <= INT64_MAX ==>
            r[id] == if posts[id].feedID == feedID && id <= maxPostID then posts[id].(isRead := true) else posts[id])
      && (id <= INT64_MAX && INT64_MAX < maxPostID < UINT64_MAX ==> r[id] == posts[id])
  {
    var cs := MarkAsReadConditions(feedID, maxPostID);
    var atMost := maxPostID == UINT64_MAX || Signed(id) <= Signed(maxPostID);
    assert SatisfiesAll(cs, id, posts[id], flags, memberships) <==> posts[id].feedID == feedID && atMost by {
      assert Satisfies(cs[0], id, posts[id], flags, memberships) <==> posts[id].feedID == feedID;
      if maxPostID != UINT64_MAX {
        assert Satisfies(cs[1], id, posts[id], flags, memberships) <==> Signed(id) <= Signed(maxPostID);
      }
    }
    PostLocal.UpdateIsReadExactly(posts, true, cs, flags, memberships, id);
  }

  // ---------------------------------------------------------------- getPost

  /** `getPost(postID)`: the post with that id, found only when it belongs to this feed. */
  method GetPost(db: Database, feedID: UInt64, postID: UInt64) returns (r: Option<PostLocal.StoredPost>)
    ensures r.Some? <==> postID in db.posts && db.posts[postID].feedID == feedID
    ensures r.Some? ==> r.value == PostLocal.Load(db.posts, db.feeds, db.flags, postID)
  {
    r := PostLocal.QuerySingle(db, [FeedIs(feedID), IDIs(postID)]);
    PostLocal.MatchingThisPost(db.posts, feedID, postID, db.flags, db.memberships);
  }

  // ---------------------------------------------------------------- sort orders

  /**
   * The column `ORDER BY sortOrder ASC` sorts the feeds of `folder` on.
   * SQLite holds the bound sortOrder as a signed integer, so one above
   * `INT64_MAX` sorts before every smaller one.
   */
  function FolderRanks(feeds: map<UInt64, FeedRow>, folder: UInt64): (ranks: map<UInt64, nat>)
    ensures forall id :: id in ranks <==> id in feeds && feeds[id].folder == folder
    ensures forall a, b :: a in ranks && b in ranks ==>
      (ranks[a] < ranks[b] <==> Signed(feeds[a].sortOrder) < Signed(feeds[b].sortOrder))
  {
    map id | id in feeds && feeds[id].folder == folder :: SignedRank(feeds[id].sortOrder)
  }

  /** The sortOrders in use in `folder`. */
  function FolderSortOrders(feeds: map<UInt64, FeedRow>, folder: UInt64): set<UInt64>
  {
    set id | id in feeds && feeds[id].folder == folder :: feeds[id].sortOrder
  }

  /** `UPDATE feeds SET sortOrder=? WHERE id=?` for every pair of `orders`; a missing row is not touched. */
  function WithSortOrders(feeds: map<UInt64, FeedRow>, orders: map<UInt64, UInt64>): (r: map<UInt64, FeedRow>)
    ensures r.Keys == feeds.Keys
    ensures forall id :: id in r ==> r[id] == if id in orders then feeds[id].(sortOrder := orders[id]) else feeds[id]
  {
    map id | id in feeds :: if id in orders then feeds[id].(sortOrder := orders[id]) else feeds[id]
  }

  /** `resort(folder)`: the feeds of the folder, in sortOrder order, get 10, 20, 30, ... */
  ghost function Resorted(feeds: map<UInt64, FeedRow>, folder: UInt64): map<UInt64, FeedRow>
  {
    WithSortOrders(feeds, Positions(RankOrder(FolderRanks(feeds, folder))))
  }

  method Resort(db: Database, folder: UInt64)
    modifies db`feeds
    ensures db.feeds == Resorted(old(db.feeds), folder)
  {
    var feedIDs := ListRanked(FolderRanks(db.feeds, folder));
    Renumber(db, feedIDs);
  }

  /** The loop of `resort`: `UPDATE feeds SET sortOrder=? WHERE id=?` with 10, 20, 30, ... in turn. */
  method Renumber(db: Database, feedIDs: seq<UInt64>)
    modifies db`feeds
    ensures db.feeds == WithSortOrders(old(db.feeds), Positions(feedIDs))
  {
    ghost var start := db.feeds;
    var sortOrder: UInt64 := 10;
    for i := 0 to |feedIDs|
      invariant sortOrder == SortOrderAt(i)
      invariant db.feeds == WithSortOrders(start, Positions(feedIDs[..i]))
    {
      var f := feedIDs[i];
      RenumberStep(start, feedIDs, i);
      if f in db.feeds {
        db.feeds := db.feeds[f := db.feeds[f].(sortOrder := sortOrder)];
      }
      SortOrderStep(i);
      sortOrder := (sortOrder + 10) % M;
    }
    assert feedIDs[..|feedIDs|] == feedIDs;
  }

  /** One `UPDATE` of the loop: writing position i's number under the i-th id. */
  lemma RenumberStep(feeds: map<UInt64, FeedRow>, feedIDs: seq<UInt64>, i: nat)
    requires i < |feedIDs|
    ensures var cur := WithSortOrders(feeds, Positions(feedIDs[..i]));
      var f := feedIDs[i];
      (if f in cur then cur[f := cur[f].(sortOrder := SortOrderAt(i))] else cur) == WithSortOrders(feeds, Positions(feedIDs[..i + 1]))
  {
    PositionsSnoc(feedIDs, i);
  }

  /** Resorting writes only sortOrders, and only of the feeds of that folder. */
  lemma ResortedFrame(feeds: map<UInt64, FeedRow>, folder: UInt64, id: UInt64)
    ensures Resorted(feeds, folder).Keys == feeds.Keys
    ensures id in feeds ==> Resorted(feeds, folder)[id] == feeds[id].(sortOrder := Resorted(feeds, folder)[id].sortOrder)
    ensures id in feeds && feeds[id].folder != folder ==> Resorted(feeds, folder)[id] == feeds[id]
  {
    var ranks := FolderRanks(feeds, folder);
    RankOrderContents(ranks);
  }

  /** The feed in position k of the folder's order gets `SortOrderAt(k)`. */
  lemma ResortedAt(feeds: map<UInt64, FeedRow>, folder: UInt64, k: nat)
    requires k < |RankOrder(FolderRanks(feeds, folder))|
    ensures var o := RankOrder(FolderRanks(feeds, folder));
      o[k] in feeds && feeds[o[k]].folder == folder && Resorted(feeds, folder)[o[k]].sortOrder == SortOrderAt(k)
  {
    var ranks := FolderRanks(feeds, folder);
    var o := RankOrder(ranks);
    RankOrderContents(ranks);
    RankOrderDistinct(ranks);
    assert o[k] in o;
    PositionsAt(o, k);
  }

  /** The numbers `resort` hands out to `n` feeds: 10, 20, ..., 10n in 64 bits. */
  function Numbers(n: nat): (r: set<UInt64>)
    ensures forall k :: 0 <= k < n ==> SortOrderAt(k) in r
  {
    set k | 0 <= k < n :: SortOrderAt(k)
  }

  /** The number a feed of the folder gets is one of 10, 20, ..., 10n. */
  lemma ResortedNumberOf(feeds: map<UInt64, FeedRow>, folder: UInt64, id: UInt64) returns (k: nat)
    requires id in feeds && feeds[id].folder == folder
    ensures k < |FolderRanks(feeds, folder)| && Resorted(feeds, folder)[id].sortOrder == SortOrderAt(k)
  {
    var ranks := FolderRanks(feeds, folder);
    RankOrderContents(ranks);
    k := RankOrderIndex(ranks, id);
    ResortedAt(feeds, folder, k);
  }

  /** After resorting, the folder's feeds hold exactly the numbers 10, 20, ..., 10n, n being their count. */
  lemma ResortedNumbers(feeds: map<UInt64, FeedRow>, folder: UInt64)
    ensures FolderSortOrders(Resorted(feeds, folder), folder) == Numbers(|FolderRanks(feeds, folder)|)
  {
    var n := |FolderRanks(feeds, folder)|;
    var r := Resorted(feeds, folder);
    RankOrderContents(FolderRanks(feeds, folder));
    forall id | id in r && r[id].folder == folder ensures r[id].sortOrder in Numbers(n) {
      ResortedFrame(feeds, folder, id);
      var k := ResortedNumberOf(feeds, folder, id);
    }
    forall k | 0 <= k < n ensures SortOrderAt(k) in FolderSortOrders(r, folder) {
      ResortedAt(feeds, folder, k);
      ResortedFrame(feeds, folder, RankOrder(FolderRanks(feeds, folder))[k]);
    }
  }

  /**
   * Resorting keeps the folder's order, as SQLite sorts it (by the signed
   * reading of sortOrder): a feed sorted before another still is, unless the
   * numbers wrap around.
   */
  lemma ResortedKeepsOrder(feeds: map<UInt64, FeedRow>, folder: UInt64, a: UInt64, b: UInt64)
    requires a in feeds && b in feeds && feeds[a].folder == folder && feeds[b].folder == folder && a != b
    requires Signed(feeds[a].sortOrder) < Signed(feeds[b].sortOrder) || (feeds[a].sortOrder == feeds[b].sortOrder && a < b)
    requires 10 * |FolderRanks(feeds, folder)| <= UINT64_MAX
    ensures Resorted(feeds, folder)[a].sortOrder < Resorted(feeds, folder)[b].sortOrder
  {
    var ranks := FolderRanks(feeds, folder);
    assert a in ranks && ranks[a] == SignedRank(feeds[a].sortOrder);
    assert b in ranks && ranks[b] == SignedRank(feeds[b].sortOrder);
    var i, j := RankOrderIndicesOrdered(ranks, a, b);
    ResortedAt(feeds, folder, i);
    ResortedAt(feeds, folder, j);
    SortOrderAtIncreasing(i, j, |ranks|);
  }

  /**
   * `nextSortOrder`: 10 above the folder's largest sortOrder in SQLite's
   * signed order (`MAX` of no rows reads as 0), in 64 bits.
   */
  ghost function NextSortOrderOf(feeds: map<UInt64, FeedRow>, folder: UInt64): UInt64
  {
    (SignedLargest(FolderSortOrders(feeds, folder)) + 10) % M
  }

  method NextSortOrder(db: Database, folder: UInt64) returns (r: UInt64)
    ensures r == NextSortOrderOf(db.feeds, folder)
  {
    var sortOrder := SignedLargestOf(FolderSortOrders(db.feeds, folder));
    r := (sortOrder + 10) % M;
  }

  /**
   * Unless the signed sum overflows, the next sortOrder sorts after every
   * sortOrder of the folder, so a new feed goes last.
   */
  lemma NextSortOrderIsLast(feeds: map<UInt64, FeedRow>, folder: UInt64, id: UInt64)
    requires Signed(SignedLargest(FolderSortOrders(feeds, folder))) + 10 <= INT64_MAX
    requires id in feeds && feeds[id].folder == folder
    ensures Signed(feeds[id].sortOrder) < Signed(NextSortOrderOf(feeds, folder))
  {
    assert feeds[id].sortOrder in FolderSortOrders(feeds, folder);
    SignedAddTen(SignedLargest(FolderSortOrders(feeds, folder)));
  }

  // ---------------------------------------------------------------- create

  /**
   * The row `create(url, title, folder)` inserts: no refresh error yet and
   * the parsed columns still empty. The statement names the `title` column
   * twice, binding the URL to the first and '' to the second; SQLite keeps
   * the first, so the stored title is the URL (the title argument only
   * reaches the returned object, until a refresh stores the parsed title).
   */
  function NewFeedRow(url: string, folder: UInt64, sortOrder: UInt64, now: string): FeedRow
  {
    FeedRow(url, folder, sortOrder, now, None, FeedMeta("", "", url, "", "", "", "", "", None))
  }

  /** The feeds table after `create`, and the new feed's id; `None` when no row id is left. */
  datatype Added = Added(feeds: map<UInt64, FeedRow>, id: Option<UInt64>)

  /** `create`: a row placed after the folder's feeds, under the next row id, checked `now`. */
  ghost function Created(feeds: map<UInt64, FeedRow>, url: string, title: string, folder: UInt64, now: string): Added
  {
    match NextRowID(feeds.Keys)
    case None => Added(feeds, None)
    case Some(id) => Added(feeds[id := NewFeedRow(url, folder, NextSortOrderOf(feeds, folder), now)], Some(id))
  }

  method Create(db: Database, url: string, title: string, folder: UInt64, now: string) returns (id: Option<UInt64>)
    modifies db`feeds
    ensures Added(db.feeds, id) == Created(old(db.feeds), url, title, folder, now)
  {
    var sortOrder := NextSortOrder(db, folder);
    id := NewRowID(db.feeds.Keys);
    if id.Some? {
      db.feeds := db.feeds[id.value := NewFeedRow(url, folder, sortOrder, now)];
    }
  }

  /**
   * A created feed has a fresh id, sits last in its folder with the given
   * url (stored as its title too), and every other feed stays; the insert fails only when
   * the largest id is taken.
   */
  lemma CreatedFeed(feeds: map<UInt64, FeedRow>, url: string, title: string, folder: UInt64, now: string)
    ensures var r := Created(feeds, url, title, folder, now);
      && (r.id.None? <==> UINT64_MAX in feeds)
      && (r.id.None? ==> r.feeds == feeds)
      && (r.id.Some? ==> && r.id.value !in feeds
                         && r.feeds.Keys == feeds.Keys + {r.id.value}
                         && r.feeds[r.id.value].url == url && r.feeds[r.id.value].meta.title == url
                         && r.feeds[r.id.value].folder == folder
                         && r.feeds[r.id.value].sortOrder == NextSortOrderOf(feeds, folder)
                         && (forall k :: k in feeds ==> r.feeds[k] == feeds[k]))
  {
    NextRowIDFresh(feeds.Keys);
  }

  // ---------------------------------------------------------------- move

  /** The folder `SELECT folder FROM feeds WHERE id=?` reads: 0 when the feed is missing. */
  function OldFolder(feeds: map<UInt64, FeedRow>, feedID: UInt64): UInt64
  {
    if feedID in feeds then feeds[feedID].folder else 0
  }

  /** `UPDATE feeds SET folder=?, sortOrder=? WHERE id=?`. */
  function Placed(feeds: map<UInt64, FeedRow>, feedID: UInt64, newFolder: UInt64, newSortOrder: UInt64): (r: map<UInt64, FeedRow>)
    ensures r.Keys == feeds.Keys
    ensures forall id :: id in r ==> r[id] == if id == feedID then feeds[id].(folder := newFolder, sortOrder := newSortOrder) else feeds[id]
  {
    if feedID in feeds then feeds[feedID := feeds[feedID].(folder := newFolder, sortOrder := newSortOrder)] else feeds
  }

  /** `move`: place the feed, resort the new folder, and resort the old one too when it is another. */
  ghost function Moved(feeds: map<UInt64, FeedRow>, feedID: UInt64, newFolder: UInt64, newSortOrder: UInt64): map<UInt64, FeedRow>
  {
    var placed := Resorted(Placed(feeds, feedID, newFolder, newSortOrder), newFolder);
    if newFolder != OldFolder(feeds, feedID) then Resorted(placed, OldFolder(feeds, feedID)) else placed
  }

  /** The `id -> sortOrder` pairs of the feeds in folder `a` or `b`. */
  function SortOrdersIn(feeds: map<UInt64, FeedRow>, a: UInt64, b: UInt64): (r: map<UInt64, UInt64>)
    ensures forall id :: id in r <==> id in feeds && (feeds[id].folder == a || feeds[id].folder == b)
    ensures forall id :: id in r ==> r[id] == feeds[id].sortOrder
  {
    map id | id in feeds && (feeds[id].folder == a || feeds[id].folder == b) :: feeds[id].sortOrder
  }

  /** `move` answers with the sortOrders of both folders concerned. */
  method Move(db: Database, feedID: UInt64, newFolder: UInt64, newSortOrder: UInt64) returns (affected: map<UInt64, UInt64>)
    modifies db`feeds
    ensures db.feeds == Moved(old(db.feeds), feedID, newFolder, newSortOrder)
    ensures affected == SortOrdersIn(db.feeds, newFolder, OldFolder(old(db.feeds), feedID))
  {
    var oldFolder := Relocate(db, feedID, newFolder, newSortOrder);
    affected := SortOrdersOf(db, newFolder, oldFolder);
  }

  /** The statements of `move` before its final query. */
  method Relocate(db: Database, feedID: UInt64, newFolder: UInt64, newSortOrder: UInt64) returns (oldFolder: UInt64)
    modifies db`feeds
    ensures db.feeds == Moved(old(db.feeds), feedID, newFolder, newSortOrder)
    ensures oldFolder == OldFolder(old(db.feeds), feedID)
  {
    oldFolder := OldFolder(db.feeds, feedID);
    ghost var placed := Placed(db.feeds, feedID, newFolder, newSortOrder);
    if feedID in db.feeds {
      db.feeds := db.feeds[feedID := db.feeds[feedID].(folder := newFolder, sortOrder := newSortOrder)];
    }
    assert db.feeds == placed;
    Resort(db, newFolder);
    if newFolder != oldFolder {
      Resort(db, oldFolder);
    }
  }

  /** `SELECT id,sortOrder FROM feeds WHERE folder IN (?,?)` read into a map. */
  method SortOrdersOf(db: Database, a: UInt64, b: UInt64) returns (affected: map<UInt64, UInt64>)
    ensures affected == SortOrdersIn(db.feeds, a, b)
  {
    affected := map[];
    var rest := db.feeds.Keys;
    while rest != {}
      invariant rest <= db.feeds.Keys
      invariant forall id :: id in affected <==> id in db.feeds.Keys - rest && (db.feeds[id].folder == a || db.feeds[id].folder == b)
      invariant forall id :: id in affected ==> affected[id] == db.feeds[id].sortOrder
      decreases rest
    {
      var id :| id in rest;
      if db.feeds[id].folder == a || db.feeds[id].folder == b {
        affected := affected[id := db.feeds[id].sortOrder];
      }
      rest := rest - {id};
    }
  }

  /** Resorting one folder leaves the feeds of every other folder as they were. */
  lemma ResortedLeavesOtherFolder(feeds: map<UInt64, FeedRow>, x: UInt64, y: UInt64)
    requires x != y
    ensures FolderRanks(Resorted(feeds, x), y) == FolderRanks(feeds, y)
    ensures FolderSortOrders(Resorted(feeds, x), y) == FolderSortOrders(feeds, y)
  {
    ResortedSameElsewhere(feeds, x, y);
    SameFolderRows(feeds, Resorted(feeds, x), y);
  }

  /** Two tables that agree on which feeds sit in folder y, and on their rows, agree on its ranks and sortOrders. */
  lemma SameFolderRows(a: map<UInt64, FeedRow>, b: map<UInt64, FeedRow>, y: UInt64)
    requires a.Keys == b.Keys
    requires forall id :: id in a ==> (a[id].folder == y <==> b[id].folder == y)
    requires forall id :: id in a && a[id].folder == y ==> a[id] == b[id]
    ensures FolderRanks(a, y) == FolderRanks(b, y)
    ensures FolderSortOrders(a, y) == FolderSortOrders(b, y)
  {
    forall o | o in FolderSortOrders(b, y) ensures o in FolderSortOrders(a, y) {
      var id :| id in b && b[id].folder == y && b[id].sortOrder == o;
      assert a[id] == b[id];
    }
    forall o | o in FolderSortOrders(a, y) ensures o in FolderSortOrders(b, y) {
      var id :| id in a && a[id].folder == y && a[id].sortOrder == o;
      assert b[id] == a[id];
    }
  }

  /** Resorting folder x keeps the rows of the feeds in folder y, and moves no feed in or out of it. */
  lemma ResortedSameElsewhere(feeds: map<UInt64, FeedRow>, x: UInt64, y: UInt64)
    requires x != y
    ensures Resorted(feeds, x).Keys == feeds.Keys
    ensures forall id :: id in feeds ==> (Resorted(feeds, x)[id].folder == y <==> feeds[id].folder == y)
    ensures forall id :: id in feeds && feeds[id].folder == y ==> Resorted(feeds, x)[id] == feeds[id]
  {
    forall id | id in feeds
      ensures Resorted(feeds, x)[id].folder == feeds[id].folder
      ensures feeds[id].folder == y ==> Resorted(feeds, x)[id] == feeds[id]
    {
      ResortedFrame(feeds, x, id);
    }
    ResortedFrame(feeds, x, 0);
  }

  /** A move lands the feed in its new folder; the feeds of other folders keep their rows. */
  lemma MovedFrame(feeds: map<UInt64, FeedRow>, feedID: UInt64, newFolder: UInt64, newSortOrder: UInt64, id: UInt64)
    ensures var r := Moved(feeds, feedID, newFolder, newSortOrder);
      && r.Keys == feeds.Keys
      && (feedID in feeds ==> r[feedID].folder == newFolder)
      && (id in feeds && id != feedID && feeds[id].folder != newFolder && feeds[id].folder != OldFolder(feeds, feedID) ==> r[id] == feeds[id])
  {
    var placed := Placed(feeds, feedID, newFolder, newSortOrder);
    var first := Resorted(placed, newFolder);
    ResortedFrame(placed, newFolder, id);
    ResortedFrame(placed, newFolder, feedID);
    ResortedFrame(first, OldFolder(feeds, feedID), id);
    ResortedFrame(first, OldFolder(feeds, feedID), feedID);
  }

  /** Both folders concerned end up numbered 10, 20, ..., 10n, n being the number of their feeds after the move. */
  lemma MovedNumbers(feeds: map<UInt64, FeedRow>, feedID: UInt64, newFolder: UInt64, newSortOrder: UInt64)
    ensures var placed := Placed(feeds, feedID, newFolder, newSortOrder);
      var r := Moved(feeds, feedID, newFolder, newSortOrder);
      && FolderSortOrders(r, newFolder) == Numbers(|FolderRanks(placed, newFolder)|)
      && FolderSortOrders(r, OldFolder(feeds, feedID)) == Numbers(|FolderRanks(placed, OldFolder(feeds, feedID))|)
  {
    var oldFolder := OldFolder(feeds, feedID);
    var placed := Placed(feeds, feedID, newFolder, newSortOrder);
    var first := Resorted(placed, newFolder);
    ResortedNumbers(placed, newFolder);
    if newFolder != oldFolder {
      ResortedLeavesOtherFolder(placed, newFolder, oldFolder);
      ResortedNumbers(first, oldFolder);
      ResortedLeavesOtherFolder(first, oldFolder, newFolder);
    }
  }

  // ---------------------------------------------------------------- remove

  /** `DELETE FROM posts WHERE feedID=?`. */
  function PostsOutside(posts: map<UInt64, PostRow>, feedID: UInt64): (r: map<UInt64, PostRow>)
    ensures forall id :: id in r <==> id in posts && posts[id].feedID != feedID
    ensures forall id :: id in r ==> r[id] == posts[id]
  {
    map id | id in posts && posts[id].feedID != feedID :: posts[id]
  }

  /**
   * `remove`: an existing feed loses its row and its posts, and the feeds
   * left in its folder are resorted; its posts' flags and script-folder
   * rows stay. An unknown feed changes nothing.
   */
  method Remove(db: Database, feedID: UInt64)
    modifies db`feeds, db`posts
    ensures feedID !in old(db.feeds) ==> db.feeds == old(db.feeds) && db.posts == old(db.posts)
    ensures feedID in old(db.feeds) ==> db.feeds == Resorted(old(db.feeds) - {feedID}, old(db.feeds)[feedID].folder)
    ensures feedID in old(db.feeds) ==> db.posts == PostsOutside(old(db.posts), feedID)
  {
    if feedID in db.feeds {
      var folder := db.feeds[feedID].folder;
      db.feeds := db.feeds - {feedID};
      db.posts := map id | id in db.posts && db.posts[id].feedID != feedID :: db.posts[id];
      Resort(db, folder);
    }
  }

  // ---------------------------------------------------------------- processItems: choosing the scripts

  /** Whether `processItems` runs `s` on event `e` for this feed: enabled, with a non-empty source, meant for every feed or for this one, and registered for `e`. */
  predicate RunsOn(s: Script, feedID: UInt64, e: Event)
  {
    && s.isEnabled
    && s.script != ""
    && (s.runOnFeedIDs.None? || feedID in s.runOnFeedIDs.value)
    && e in s.runOnEvents
  }

  /** The sources of the scripts of `scripts` that run on `e` for this feed, in the order of `scripts`. */
  function ScriptsFor(scripts: seq<Script>, feedID: UInt64, e: Event): (r: seq<string>)
    ensures |r| <= |scripts|
  {
    if scripts == [] then []
    else
      var last := scripts[|scripts| - 1];
      ScriptsFor(scripts[..|scripts| - 1], feedID, e) + (if RunsOn(last, feedID, e) then [last.script] else [])
  }

  /** A source is chosen exactly when some script with that source runs on `e` for this feed. */
  lemma {:induction false} ScriptsForMembers(scripts: seq<Script>, feedID: UInt64, e: Event, source: string)
    ensures source in ScriptsFor(scripts, feedID, e)
        <==> exists k :: 0 <= k < |scripts| && RunsOn(scripts[k], feedID, e) && scripts[k].script == source
    decreases |scripts|
  {
    if scripts != [] {
      var front := scripts[..|scripts| - 1];
      ScriptsForMembers(front, feedID, e, source);
      if exists k :: 0 <= k < |front| && RunsOn(front[k], feedID, e) && front[k].script == source {
        var k :| 0 <= k < |front| && RunsOn(front[k], feedID, e) && front[k].script == source;
        assert scripts[k] == front[k];
      }
      if exists k :: 0 <= k < |scripts| && RunsOn(scripts[k], feedID, e) && scripts[k].script == source {
        var k :| 0 <= k < |scripts| && RunsOn(scripts[k], feedID, e) && scripts[k].script == source;
        if k < |front| {
          assert front[k] == scripts[k];
        }
      }
    }
  }

  /** Choosing keeps the order of the scripts: the choice from a concatenation is the concatenation of the choices. */
  lemma {:induction false} ScriptsForConcat(a: seq<Script>, b: seq<Script>, feedID: UInt64, e: Event)
    ensures ScriptsFor(a + b, feedID, e) == ScriptsFor(a, feedID, e) + ScriptsFor(b, feedID, e)
    decreases |b|
  {
    if b == [] {
      assert a + b == a;
    } else {
      var front := b[..|b| - 1];
      assert (a + b)[..|a + b| - 1] == a + front;
      ScriptsForConcat(a, front, feedID, e);
    }
  }

  /** The loop over `getScripts` that fills the NewPost and UpdatePost lists. */
  method SelectScripts(scripts: seq<Script>, feedID: UInt64) returns (onNew: seq<string>, onUpdate: seq<string>)
    ensures onNew == ScriptsFor(scripts, feedID, NewPost)
    ensures onUpdate == ScriptsFor(scripts, feedID, UpdatePost)
  {
    onNew, onUpdate := [], [];
    for i := 0 to |scripts|
      invariant onNew == ScriptsFor(scripts[..i], feedID, NewPost)
      invariant onUpdate == ScriptsFor(scripts[..i], feedID, UpdatePost)
    {
      assert scripts[..i + 1][..i] == scripts[..i];
      var s := scripts[i];
      if s.isEnabled && s.script != "" {
        if s.runOnFeedIDs.Some? && feedID !in s.runOnFeedIDs.value {
          continue;
        }
        if NewPost in s.runOnEvents {
          onNew := onNew + [s.script];
        }
        if UpdatePost in s.runOnEvents {
          onUpdate := onUpdate + [s.script];
        }
      }
    }
    assert scripts[..|scripts|] == scripts;
  }

  // ---------------------------------------------------------------- processItems: comparing an item to its post

  /** `Post::hasCategory` on the stored category titles: a search that ignores ASCII case. */
  predicate HasCategory(categories: seq<string>, title: string)
  {
    exists k :: 0 <= k < |categories| && IEquals(categories[k], title)
  }

  /**
   * Whether an item counts as changed, so that the UpdatePost scripts run:
   * one of the compared columns differs, the number of categories differs,
   * or one of the new categories is not among the stored ones. Enclosures
   * are not compared.
   */
  predicate Differs(stored: Item, item: Item)
  {
    || stored.title != item.title
    || stored.link != item.link
    || stored.content != item.content
    || stored.author != item.author
    || stored.commentsURL != item.commentsURL
    || stored.datePublished != item.datePublished
    || stored.thumbnail != item.thumbnail
    || |item.categories| != |stored.categories|
    || exists k :: 0 <= k < |item.categories| && !HasCategory(stored.categories, item.categories[k])
  }

  /** The `isDifferent` computation, with its early exits. */
  method IsDifferent(stored: Item, item: Item) returns (d: bool)
    ensures d == Differs(stored, item)
  {
    if stored.title != item.title || stored.link != item.link || stored.content != item.content
      || stored.author != item.author || stored.commentsURL != item.commentsURL
      || stored.datePublished != item.datePublished || stored.thumbnail != item.thumbnail {
      return true;
    }
    if |item.categories| != |stored.categories| {
      return true;
    }
    for i := 0 to |item.categories|
      invariant forall k :: 0 <= k < i ==> HasCategory(stored.categories, item.categories[k])
    {
      var found := false;
      for j := 0 to |stored.categories|
        invariant found <==> exists k :: 0 <= k < j && IEquals(stored.categories[k], item.categories[i])
      {
        if !found && Lower(stored.categories[j]) == Lower(item.categories[i]) {
          found := true;
        }
      }
      if !found {
        return true;
      }
    }
    return false;
  }

  /** A new version that changes only the enclosures does not count as changed. */
  lemma EnclosuresIgnored(stored: Item, enclosures: seq<Posts.Enclosure>)
    ensures !Differs(stored, stored.(enclosures := enclosures))
  {
    var item := stored.(enclosures := enclosures);
    forall k | 0 <= k < |item.categories| ensures HasCategory(stored.categories, item.categories[k]) {
      assert IEquals(stored.categories[k], item.categories[k]);
    }
  }

  /** Listing the same categories in another order, or with other capitals, does not count as a change. */
  lemma CategoriesComparedAsSet(stored: Item, item: Item)
    requires stored.(categories := item.categories) == item
    requires |item.categories| == |stored.categories|
    requires forall k :: 0 <= k < |item.categories| ==> exists j :: 0 <= j < |stored.categories| && Lower(stored.categories[j]) == Lower(item.categories[k])
    ensures !Differs(stored, item)
  {
    forall k | 0 <= k < |item.categories| ensures HasCategory(stored.categories, item.categories[k]) {
      var j :| 0 <= j < |stored.categories| && Lower(stored.categories[j]) == Lower(item.categories[k]);
      assert IEquals(stored.categories[j], item.categories[k]);
    }
  }

  /**
   * The comparison only asks whether each new category is stored, so a list
   * that repeats one category and drops another of the same length passes
   * as unchanged: stored ["a", "b"], new ["a", "a"].
   */
  lemma RepeatedCategoryHidesChange(stored: Item)
    requires stored.categories == ["a", "b"]
    ensures var item := stored.(categories := ["a", "a"]);
      !Differs(stored, item) && !HasCategory(item.categories, "b")
  {
    var item := stored.(categories := ["a", "a"]);
    forall k | 0 <= k < 2 ensures HasCategory(stored.categories, item.categories[k]) {
      assert IEquals(stored.categories[0], item.categories[k]);
    }
    assert Lower("b") == "b" && Lower("a") == "a" by {
      assert Lower("b") == [ToLower('b')] + Lower("");
      assert Lower("a") == [ToLower('a')] + Lower("");
    }
  }

  // ---------------------------------------------------------------- processItems: storing the items

  /** A script run: the script's source and the post it runs on. */
  datatype Run = Run(script: string, postID: UInt64)

  /** The runs performed on one post, and the error that ended them, if one did. */
  datatype Ran = Ran(runs: seq<Run>, error: Option<string>)

  /**
   * `runPostScript` for each script in turn; `run` gives the error a script
   * raises, and the first error ends the refresh (its run is listed). A
   * script's effects on the post it is given (read state, flags, script
   * folder memberships) are not part of this model: `run` only reports.
   */
  function RunScripts(scripts: seq<string>, post: PostLocal.StoredPost, run: (string, PostLocal.StoredPost) -> Option<string>): (r: Ran)
    ensures |r.runs| <= |scripts|
    ensures forall k :: 0 <= k < |r.runs| ==> r.runs[k] == Run(scripts[k], post.id)
    ensures forall k :: 0 <= k < |r.runs| - 1 ==> run(scripts[k], post).None?
    ensures r.error.None? ==> |r.runs| == |scripts| && forall k :: 0 <= k < |scripts| ==> run(scripts[k], post).None?
    ensures r.error.Some? ==> |r.runs| > 0 && r.error == run(scripts[|r.runs| - 1], post)
    decreases |scripts|
  {
    if scripts == [] then Ran([], None)
    else
      var e := run(scripts[0], post);
      if e.Some? then Ran([Run(scripts[0], post.id)], e)
      else
        var rest := RunScripts(scripts[1..], post, run);
        Ran([Run(scripts[0], post.id)] + rest.runs, rest.error)
  }

  /** `r` with `runs` performed before it. */
  function RanAfter(runs: seq<Run>, r: Ran): Ran
  {
    r.(runs := runs + r.runs)
  }

  lemma RanAfterAfter(a: seq<Run>, b: seq<Run>, r: Ran)
    ensures RanAfter(a, RanAfter(b, r)) == RanAfter(a + b, r)
  {
    assert a + (b + r.runs) == (a + b) + r.runs;
  }

  lemma RunScriptsUnfold(scripts: seq<string>, post: PostLocal.StoredPost, run: (string, PostLocal.StoredPost) -> Option<string>, i: nat)
    requires i < |scripts|
    ensures var e := run(scripts[i], post);
      RunScripts(scripts[i..], post, run)
      == if e.Some? then Ran([Run(scripts[i], post.id)], e) else RanAfter([Run(scripts[i], post.id)], RunScripts(scripts[i + 1..], post, run))
  {
    assert scripts[i..][0] == scripts[i];
    assert scripts[i..][1..] == scripts[i + 1..];
  }

  /** One more script of the loop: it either stops the run with its error or leaves the rest to run. */
  lemma RunStep(scripts: seq<string>, post: PostLocal.StoredPost, run: (string, PostLocal.StoredPost) -> Option<string>, runs: seq<Run>, i: nat)
    requires i < |scripts|
    requires RunScripts(scripts, post, run) == RanAfter(runs, RunScripts(scripts[i..], post, run))
    ensures run(scripts[i], post).Some? ==> RunScripts(scripts, post, run) == Ran(runs + [Run(scripts[i], post.id)], run(scripts[i], post))
    ensures run(scripts[i], post).None? ==>
      RunScripts(scripts, post, run) == RanAfter(runs + [Run(scripts[i], post.id)], RunScripts(scripts[i + 1..], post, run))
  {
    RunScriptsUnfold(scripts, post, run, i);
    RanAfterAfter(runs, [Run(scripts[i], post.id)], RunScripts(scripts[i + 1..], post, run));
  }

  /** With every script run, the bookkeeping of the loop is the whole run. */
  lemma RunDone(scripts: seq<string>, post: PostLocal.StoredPost, run: (string, PostLocal.StoredPost) -> Option<string>, runs: seq<Run>)
    requires RunScripts(scripts, post, run) == RanAfter(runs, RunScripts(scripts[|scripts|..], post, run))
    ensures RunScripts(scripts, post, run) == Ran(runs, None)
  {
    assert scripts[|scripts|..] == [];
    assert runs + [] == runs;
  }

  method RunAll(scripts: seq<string>, post: PostLocal.StoredPost, run: (string, PostLocal.StoredPost) -> Option<string>)
      returns (runs: seq<Run>, error: Option<string>)
    ensures Ran(runs, error) == RunScripts(scripts, post, run)
  {
    runs, error := [], None;
    assert scripts[0..] == scripts;
    ghost var total := RunScripts(scripts, post, run);
    for i := 0 to |scripts|
      invariant total == RanAfter(runs, RunScripts(scripts[i..], post, run))
    {
      RunStep(scripts, post, run, runs, i);
      var e := run(scripts[i], post);
      runs := runs + [Run(scripts[i], post.id)];
      if e.Some? {
        error := e;
        return;
      }
    }
    RunDone(scripts, post, run, runs);
  }

  /** What stays fixed while `processItems` works through the items: the feed, the other tables, the chosen scripts and what running a script gives. */
  datatype Context = Context(
    feedID: UInt64,
    feedTitle: string,
    feeds: map<UInt64, FeedRow>,
    flags: multiset<FlagRow>,
    memberships: multiset<MembershipRow>,
    onNew: seq<string>,
    onUpdate: seq<string>,
    run: (string, PostLocal.StoredPost) -> Option<string>)

  /** The posts table after some items, the runs performed, and the error that stopped the refresh. */
  datatype Ingested = Ingested(posts: map<UInt64, PostRow>, runs: seq<Run>, error: Option<string>)

  /**
   * One item: a post of this feed with the item's guid gets the new columns,
   * and the UpdatePost scripts run on it if it changed; otherwise the item
   * becomes a new unread post and the NewPost scripts run on it.
   */
  ghost function IngestItem(ctx: Context, posts: map<UInt64, PostRow>, item: Item): Ingested
  {
    var existing := PostLocal.Single(posts, ctx.feeds, ctx.flags, Matching(posts, [FeedIs(ctx.feedID), GuidIs(item.guid)], ctx.flags, ctx.memberships));
    if existing.Some? then
      var updated := PostLocal.WithItem(posts, existing.value.id, item);
      if |ctx.onUpdate| > 0 && Differs(existing.value.item, item) then
        var again := PostLocal.Single(updated, ctx.feeds, ctx.flags, Matching(updated, [FeedIs(ctx.feedID), IDIs(existing.value.id)], ctx.flags, ctx.memberships));
        if again.Some? then
          var ran := RunScripts(ctx.onUpdate, again.value, ctx.run);
          Ingested(updated, ran.runs, ran.error)
        else Ingested(updated, [], None)
      else Ingested(updated, [], None)
    else
      match NextRowID(posts.Keys)
      case None => Ingested(posts, [], Some(InsertFailed))
      case Some(id) =>
        var post := PostLocal.StoredPost(id, ctx.feedID, ctx.feedTitle, false, item, PostLocal.ColorsOf(ctx.flags, id));
        var ran := RunScripts(ctx.onNew, post, ctx.run);
        Ingested(posts[id := PostRow(ctx.feedID, false, item)], ran.runs, ran.error)
  }

  /** `r` with `runs` performed before it. */
  function After(runs: seq<Run>, r: Ingested): Ingested
  {
    r.(runs := runs + r.runs)
  }

  /** The items in order; the first error stops the rest, while what was stored before it stays. */
  ghost function Ingest(ctx: Context, posts: map<UInt64, PostRow>, items: seq<Item>): Ingested
    decreases |items|, 1
  {
    if items == [] then Ingested(posts, [], None) else IngestLast(ctx, posts, items)
  }

  /** The items but the last, then the last one unless an earlier one failed. */
  ghost function IngestLast(ctx: Context, posts: map<UInt64, PostRow>, items: seq<Item>): Ingested
    requires items != []
    decreases |items|, 0
  {
    var front := Ingest(ctx, posts, items[..|items| - 1]);
    if front.error.Some? then front
    else After(front.runs, IngestItem(ctx, front.posts, items[|items| - 1]))
  }

  lemma IngestSnoc(ctx: Context, posts: map<UInt64, PostRow>, items: seq<Item>)
    requires items != []
    ensures var front := Ingest(ctx, posts, items[..|items| - 1]);
      Ingest(ctx, posts, items) == if front.error.Some? then front else After(front.runs, IngestItem(ctx, front.posts, items[|items| - 1]))
  {
    assert Ingest(ctx, posts, items) == IngestLast(ctx, posts, items);
  }

  /** The context `processItems` works in for this database: the scripts are those of `getScripts`. */
  ghost function ContextOf(db: Database, feedID: UInt64, feedTitle: string, run: (string, PostLocal.StoredPost) -> Option<string>): Context
    reads db`feeds, db`flags, db`memberships, db`scripts
  {
    var scripts := ScriptLocal.Listing(db.scripts);
    Context(feedID, feedTitle, db.feeds, db.flags, db.memberships,
            ScriptsFor(scripts, feedID, NewPost), ScriptsFor(scripts, feedID, UpdatePost), run)
  }

  /** The body of the loop over the items. */
  method ProcessItem(db: Database, feedID: UInt64, feedTitle: string, item: Item, onNew: seq<string>, onUpdate: seq<string>,
                     run: (string, PostLocal.StoredPost) -> Option<string>)
      returns (runs: seq<Run>, error: Option<string>)
    modifies db`posts
    ensures Ingested(db.posts, runs, error)
         == IngestItem(Context(feedID, feedTitle, db.feeds, db.flags, db.memberships, onNew, onUpdate, run), old(db.posts), item)
  {
    runs, error := [], None;
    var existing := PostLocal.QuerySingle(db, [FeedIs(feedID), GuidIs(item.guid)]);
    if existing.Some? {
      PostLocal.Update(db, existing.value.id, item);
      if |onUpdate| > 0 {
        var isDifferent := IsDifferent(existing.value.item, item);
        if isDifferent {
          var updated := PostLocal.QuerySingle(db, [FeedIs(feedID), IDIs(existing.value.id)]);
          if updated.Some? {
            runs, error := RunAll(onUpdate, updated.value, run);
          }
        }
      }
    } else {
      NextRowIDFresh(db.posts.Keys);
      var post := PostLocal.Create(db, feedID, feedTitle, item);
      if post.None? {
        error := Some(InsertFailed);
        return;
      }
      runs, error := RunAll(onNew, post.value, run);
    }
  }

  lemma AfterAfter(a: seq<Run>, b: seq<Run>, r: Ingested)
    ensures After(a, After(b, r)) == After(a + b, r)
  {
    assert a + (b + r.runs) == (a + b) + r.runs;
  }

  /** Once an error has stopped the refresh, the items after it change nothing. */
  lemma {:induction false} IngestStops(ctx: Context, posts: map<UInt64, PostRow>, items: seq<Item>, j: nat)
    requires j <= |items|
    requires Ingest(ctx, posts, items[..j]).error.Some?
    ensures Ingest(ctx, posts, items) == Ingest(ctx, posts, items[..j])
    decreases |items|
  {
    if j < |items| {
      var front := items[..|items| - 1];
      assert front[..j] == items[..j];
      IngestStops(ctx, posts, front, j);
      IngestSnoc(ctx, posts, items);
    } else {
      assert items[..j] == items;
    }
  }

  /** `processItems`: chooses the scripts, then stores the items one by one. */
  method ProcessItems(db: Database, feedID: UInt64, feedTitle: string, items: seq<Item>,
                      run: (string, PostLocal.StoredPost) -> Option<string>, ghost ctx: Context)
      returns (runs: seq<Run>, error: Option<string>)
    requires ctx == ContextOf(db, feedID, feedTitle, run)
    modifies db`posts
    ensures Ingested(db.posts, runs, error) == Ingest(ctx, old(db.posts), items)
  {
    var scripts := ScriptLocal.GetScripts(db);
    var onNew, onUpdate := SelectScripts(scripts, feedID);
    runs, error := StoreItems(db, feedID, feedTitle, items, onNew, onUpdate, run, ctx);
  }

  /** The loop over the items. */
  method StoreItems(db: Database, feedID: UInt64, feedTitle: string, items: seq<Item>, onNew: seq<string>, onUpdate: seq<string>,
                    run: (string, PostLocal.StoredPost) -> Option<string>, ghost ctx: Context)
      returns (runs: seq<Run>, error: Option<string>)
    requires ctx == Context(feedID, feedTitle, db.feeds, db.flags, db.memberships, onNew, onUpdate, run)
    modifies db`posts
    ensures Ingested(db.posts, runs, error) == Ingest(ctx, old(db.posts), items)
  {
    runs, error := [], None;
    for i := 0 to |items|
      invariant error.None?
      invariant Ingest(ctx, old(db.posts), items[..i]) == Ingested(db.posts, runs, None)
    {
      runs, error := StoreItem(db, feedID, feedTitle, items, i, onNew, onUpdate, run, ctx, old(db.posts), runs);
      if error.Some? {
        IngestStops(ctx, old(db.posts), items, i + 1);
        return;
      }
    }
    assert items[..|items|] == items;
  }

  /** One turn of that loop, stated as progress through the items. */
  method StoreItem(db: Database, feedID: UInt64, feedTitle: string, items: seq<Item>, i: nat, onNew: seq<string>, onUpdate: seq<string>,
                   run: (string, PostLocal.StoredPost) -> Option<string>,
                   ghost ctx: Context, ghost start: map<UInt64, PostRow>, runsBefore: seq<Run>)
      returns (runs: seq<Run>, error: Option<string>)
    requires i < |items|
    requires ctx == Context(feedID, feedTitle, db.feeds, db.flags, db.memberships, onNew, onUpdate, run)
    requires Ingest(ctx, start, items[..i]) == Ingested(db.posts, runsBefore, None)
    modifies db`posts
    ensures Ingest(ctx, start, items[..i + 1]) == Ingested(db.posts, runs, error)
  {
    assert items[..i + 1][..i] == items[..i];
    IngestSnoc(ctx, start, items[..i + 1]);
    var r, e := ProcessItem(db, feedID, feedTitle, items[i], onNew, onUpdate, run);
    runs, error := runsBefore + r, e;
  }

  // ---------------------------------------------------------------- processItems: what storing the items keeps

  /** No two posts of one feed share a guid. */
  predicate GuidsUnique(posts: map<UInt64, PostRow>)
  {
    forall a, b :: a in posts && b in posts && a != b && posts[a].feedID == posts[b].feedID ==> posts[a].item.guid != posts[b].item.guid
  }

  lemma SatisfiesPair(c: PostCondition, d: PostCondition, id: UInt64, row: PostRow, flags: multiset<FlagRow>, memberships: multiset<MembershipRow>)
    ensures SatisfiesAll([c, d], id, row, flags, memberships)
        <==> Satisfies(c, id, row, flags, memberships) && Satisfies(d, id, row, flags, memberships)
  {
    assert [c, d][0] == c && [c, d][1] == d;
  }

  /** `getPostByGuid` finds the one post of the feed with that guid. */
  lemma ByGuidFinds(posts: map<UInt64, PostRow>, feedID: UInt64, guid: string, flags: multiset<FlagRow>, memberships: multiset<MembershipRow>, p: UInt64)
    requires GuidsUnique(posts)
    requires p in posts && posts[p].feedID == feedID && posts[p].item.guid == guid
    ensures Matching(posts, [FeedIs(feedID), GuidIs(guid)], flags, memberships) == {p}
  {
    forall x ensures x in Matching(posts, [FeedIs(feedID), GuidIs(guid)], flags, memberships) <==> x == p {
      if x in posts {
        SatisfiesPair(FeedIs(feedID), GuidIs(guid), x, posts[x], flags, memberships);
      }
    }
  }

  /** `getPostByGuid` finds nothing when no post of the feed has that guid. */
  lemma ByGuidMisses(posts: map<UInt64, PostRow>, feedID: UInt64, guid: string, flags: multiset<FlagRow>, memberships: multiset<MembershipRow>)
    requires forall p :: p in posts && posts[p].feedID == feedID ==> posts[p].item.guid != guid
    ensures Matching(posts, [FeedIs(feedID), GuidIs(guid)], flags, memberships) == {}
  {
    forall x | x in posts ensures x !in Matching(posts, [FeedIs(feedID), GuidIs(guid)], flags, memberships) {
      SatisfiesPair(FeedIs(feedID), GuidIs(guid), x, posts[x], flags, memberships);
    }
  }

  /** `getPost` finds a post of the feed by its id. */
  lemma ByIDFinds(posts: map<UInt64, PostRow>, feedID: UInt64, flags: multiset<FlagRow>, memberships: multiset<MembershipRow>, p: UInt64)
    requires p in posts && posts[p].feedID == feedID
    ensures Matching(posts, [FeedIs(feedID), IDIs(p)], flags, memberships) == {p}
  {
    forall x ensures x in Matching(posts, [FeedIs(feedID), IDIs(p)], flags, memberships) <==> x == p {
      if x in posts {
        SatisfiesPair(FeedIs(feedID), IDIs(p), x, posts[x], flags, memberships);
      }
    }
  }

  /**
   * An item whose guid a post of the feed has: that post takes the item's
   * columns and no post is added; the UpdatePost scripts run on it, in
   * order, only when the item differs from what was stored.
   */
  lemma IngestExisting(ctx: Context, posts: map<UInt64, PostRow>, item: Item, p: UInt64)
    requires GuidsUnique(posts)
    requires p in posts && posts[p].feedID == ctx.feedID && posts[p].item.guid == item.guid
    ensures var r := IngestItem(ctx, posts, item);
      && r.posts == PostLocal.WithItem(posts, p, item)
      && (!Differs(posts[p].item, item) ==> r.runs == [] && r.error.None?)
      && (forall k :: 0 <= k < |r.runs| ==> k < |ctx.onUpdate| && r.runs[k] == Run(ctx.onUpdate[k], p))
      && (Differs(posts[p].item, item) && r.error.None? ==> |r.runs| == |ctx.onUpdate|)
  {
    ByGuidFinds(posts, ctx.feedID, item.guid, ctx.flags, ctx.memberships, p);
    var updated := PostLocal.WithItem(posts, p, item);
    ByIDFinds(updated, ctx.feedID, ctx.flags, ctx.memberships, p);
  }

  /**
   * An item whose guid no post of the feed has: it becomes a new unread post
   * of the feed under the next row id, and the NewPost scripts run on it, in
   * order; with no row id left the insert fails and nothing is stored.
   */
  lemma IngestNew(ctx: Context, posts: map<UInt64, PostRow>, item: Item)
    requires forall p :: p in posts && posts[p].feedID == ctx.feedID ==> posts[p].item.guid != item.guid
    ensures var r := IngestItem(ctx, posts, item);
      && (UINT64_MAX in posts ==> r == Ingested(posts, [], Some(InsertFailed)))
      && (UINT64_MAX !in posts ==>
            var id := NextRowID(posts.Keys).value;
            && id !in posts
            && r.posts == posts[id := PostRow(ctx.feedID, false, item)]
            && (forall k :: 0 <= k < |r.runs| ==> k < |ctx.onNew| && r.runs[k] == Run(ctx.onNew[k], id))
            && (r.error.None? ==> |r.runs| == |ctx.onNew|))
  {
    ByGuidMisses(posts, ctx.feedID, item.guid, ctx.flags, ctx.memberships);
    NextRowIDFresh(posts.Keys);
  }

  /** Storing an item keeps guids unique within each feed. */
  lemma IngestItemKeepsGuidsUnique(ctx: Context, posts: map<UInt64, PostRow>, item: Item)
    requires GuidsUnique(posts)
    ensures GuidsUnique(IngestItem(ctx, posts, item).posts)
  {
    if p :| p in posts && posts[p].feedID == ctx.feedID && posts[p].item.guid == item.guid {
      IngestExisting(ctx, posts, item, p);
      WithItemKeepsGuidsUnique(posts, p, item);
    } else {
      IngestNew(ctx, posts, item);
      if UINT64_MAX !in posts {
        var id := NextRowID(posts.Keys).value;
        AddKeepsGuidsUnique(posts, id, PostRow(ctx.feedID, false, item));
      }
    }
  }

  lemma WithItemKeepsGuidsUnique(posts: map<UInt64, PostRow>, p: UInt64, item: Item)
    requires GuidsUnique(posts) && p in posts && posts[p].item.guid == item.guid
    ensures GuidsUnique(PostLocal.WithItem(posts, p, item))
  {
    var r := PostLocal.WithItem(posts, p, item);
    forall a, b | a in r && b in r && a != b && r[a].feedID == r[b].feedID
      ensures r[a].item.guid != r[b].item.guid
    {
      assert r[a].item.guid == posts[a].item.guid && r[b].item.guid == posts[b].item.guid;
    }
  }

  lemma AddKeepsGuidsUnique(posts: map<UInt64, PostRow>, id: UInt64, row: PostRow)
    requires GuidsUnique(posts) && id !in posts
    requires forall p :: p in posts && posts[p].feedID == row.feedID ==> posts[p].item.guid != row.item.guid
    ensures GuidsUnique(posts[id := row])
  {
  }

  /** Storing the items keeps guids unique within each feed, so refreshing never duplicates a post. */
  lemma {:induction false} IngestKeepsGuidsUnique(ctx: Context, posts: map<UInt64, PostRow>, items: seq<Item>)
    requires GuidsUnique(posts)
    ensures GuidsUnique(Ingest(ctx, posts, items).posts)
    decreases |items|
  {
    if items != [] {
      var front := Ingest(ctx, posts, items[..|items| - 1]);
      IngestSnoc(ctx, posts, items);
      IngestKeepsGuidsUnique(ctx, posts, items[..|items| - 1]);
      if front.error.None? {
        IngestItemKeepsGuidsUnique(ctx, front.posts, items[|items| - 1]);
      }
    }
  }

  /**
   * How storing changes the posts table: no post disappears or changes feed
   * or read state, posts of other feeds stay as they were, every added post
   * is an unread post of this feed, and every post whose columns changed
   * holds one of the items.
   */
  predicate Extends(feedID: UInt64, before: map<UInt64, PostRow>, after: map<UInt64, PostRow>, items: seq<Item>)
  {
    && (forall id :: id in before ==> id in after && after[id].feedID == before[id].feedID && after[id].isRead == before[id].isRead)
    && (forall id :: id in before && before[id].feedID != feedID ==> after[id] == before[id])
    && (forall id :: id in after && id !in before ==> after[id].feedID == feedID && !after[id].isRead)
    && (forall id :: id in after ==> (id in before && after[id].item == before[id].item) || after[id].item in items)
  }

  lemma IngestItemExtends(ctx: Context, posts: map<UInt64, PostRow>, item: Item)
    ensures Extends(ctx.feedID, posts, IngestItem(ctx, posts, item).posts, [item])
  {
    var m := Matching(posts, [FeedIs(ctx.feedID), GuidIs(item.guid)], ctx.flags, ctx.memberships);
    var existing := PostLocal.Single(posts, ctx.feeds, ctx.flags, m);
    if existing.Some? {
      var p := existing.value.id;
      assert p in m;
      SatisfiesPair(FeedIs(ctx.feedID), GuidIs(item.guid), p, posts[p], ctx.flags, ctx.memberships);
      assert IngestItem(ctx, posts, item).posts == PostLocal.WithItem(posts, p, item);
    } else {
      NextRowIDFresh(posts.Keys);
    }
  }

  lemma ExtendsTrans(feedID: UInt64, a: map<UInt64, PostRow>, b: map<UInt64, PostRow>, c: map<UInt64, PostRow>, xs: seq<Item>, ys: seq<Item>)
    requires Extends(feedID, a, b, xs) && Extends(feedID, b, c, ys)
    ensures Extends(feedID, a, c, xs + ys)
  {
  }

  lemma {:induction false} IngestExtends(ctx: Context, posts: map<UInt64, PostRow>, items: seq<Item>)
    ensures Extends(ctx.feedID, posts, Ingest(ctx, posts, items).posts, items)
    decreases |items|
  {
    if items != [] {
      var init := items[..|items| - 1];
      var front := Ingest(ctx, posts, init);
      IngestSnoc(ctx, posts, items);
      IngestExtends(ctx, posts, init);
      assert init + [items[|items| - 1]] == items;
      if front.error.None? {
        IngestItemExtends(ctx, front.posts, items[|items| - 1]);
        ExtendsTrans(ctx.feedID, posts, front.posts, IngestItem(ctx, front.posts, items[|items| - 1]).posts, init, [items[|items| - 1]]);
      } else {
        ExtendsTrans(ctx.feedID, posts, front.posts, front.posts, init, [items[|items| - 1]]);
      }
    } else {
      assert Extends(ctx.feedID, posts, posts, items);
    }
  }

  /** The items are stored in order: after the first part, the rest carries on from its table, unless the first part failed. */
  lemma {:induction false} IngestConcat(ctx: Context, posts: map<UInt64, PostRow>, a: seq<Item>, b: seq<Item>)
    ensures var first := Ingest(ctx, posts, a);
      Ingest(ctx, posts, a + b) == if first.error.Some? then first else After(first.runs, Ingest(ctx, first.posts, b))
    decreases |b|
  {
    var first := Ingest(ctx, posts, a);
    if b == [] {
      assert a + b == a;
      assert first.runs + [] == first.runs;
    } else {
      var init := b[..|b| - 1];
      var last := b[|b| - 1];
      assert (a + b)[..|a + b| - 1] == a + init;
      assert (a + b)[|a + b| - 1] == last;
      IngestConcat(ctx, posts, a, init);
      IngestSnoc(ctx, posts, a + b);
      if first.error.None? {
        IngestSnoc(ctx, first.posts, b);
        var mid := Ingest(ctx, first.posts, init);
        if mid.error.None? {
          AfterAfter(first.runs, mid.runs, IngestItem(ctx, mid.posts, last));
        }
      }
    }
  }

  // ---------------------------------------------------------------- refresh

  /** What fetching and parsing the feed's URL gives (`FeedFetcher::parseURL`, which is not part of this model). */
  datatype Fetched =
    | FetchFailed(message: string)      // fetching or parsing threw; its message
    | NotModified                       // no value: the server reports no change since the last refresh
    | Unrecognized                      // a value, but no parser for the document
    | Parsed(iconURL: string, guid: string, title: string, subtitle: string, link: string,
             description: string, language: string, copyright: string,
             conditionalGETInfo: string, items: seq<Item>)

  /** The error `refresh` records for a document no parser recognizes. */
  const NotRecognized: string := "Feed type not recognized"

  /** The columns `update` writes from a parsed feed; an empty conditional-GET tag is stored as NULL. */
  function MetaOf(f: Fetched): (m: FeedMeta)
    requires f.Parsed?
    ensures m.conditionalGETInfo.None? <==> f.conditionalGETInfo == ""
    ensures m.conditionalGETInfo.Some? ==> m.conditionalGETInfo.value == f.conditionalGETInfo
    ensures m.title == f.title
  {
    FeedMeta(f.iconURL, f.guid, f.title, f.subtitle, f.link, f.description, f.language, f.copyright,
             if f.conditionalGETInfo == "" then None else Some(f.conditionalGETInfo))
  }

  /** `feeds` with the row `feedID`, if there is one, changed by `change`. */
  function WithFeed(feeds: map<UInt64, FeedRow>, feedID: UInt64, row: FeedRow): (r: map<UInt64, FeedRow>)
    ensures r.Keys == feeds.Keys
    ensures forall id :: id in r && id != feedID ==> r[id] == feeds[id]
    ensures feedID in feeds ==> r[feedID] == row
  {
    if feedID in feeds then feeds[feedID := row] else feeds
  }

  /** `UPDATE feeds SET lastRefreshError=NULL, lastChecked=? WHERE id=?`. */
  function Started(feeds: map<UInt64, FeedRow>, feedID: UInt64, now: string): map<UInt64, FeedRow>
  {
    if feedID in feeds then WithFeed(feeds, feedID, feeds[feedID].(lastRefreshError := None, lastChecked := now)) else feeds
  }

  /** `updateAndLogLastRefreshError`: `UPDATE feeds SET lastRefreshError=? WHERE id=?`. */
  function Failed(feeds: map<UInt64, FeedRow>, feedID: UInt64, error: string): map<UInt64, FeedRow>
  {
    if feedID in feeds then WithFeed(feeds, feedID, feeds[feedID].(lastRefreshError := Some(error))) else feeds
  }

  /** `update`: the parsed feed's columns replace the stored ones. */
  function Described(feeds: map<UInt64, FeedRow>, feedID: UInt64, meta: FeedMeta): map<UInt64, FeedRow>
  {
    if feedID in feeds then WithFeed(feeds, feedID, feeds[feedID].(meta := meta)) else feeds
  }

  /** The feeds and posts tables after a refresh, and the script runs it performed. */
  datatype Refreshed = Refreshed(feeds: map<UInt64, FeedRow>, posts: map<UInt64, PostRow>, runs: seq<Run>)

  /** The context in which `refresh` stores the items of a parsed feed: the feed row already carries the parsed title. */
  ghost function RefreshContext(db: Database, feedID: UInt64, now: string, fetched: Fetched,
                                run: (string, PostLocal.StoredPost) -> Option<string>): Context
    requires fetched.Parsed?
    reads db`feeds, db`flags, db`memberships, db`scripts
  {
    var scripts := ScriptLocal.Listing(db.scripts);
    Context(feedID, fetched.title, Described(Started(db.feeds, feedID, now), feedID, MetaOf(fetched)), db.flags, db.memberships,
            ScriptsFor(scripts, feedID, NewPost), ScriptsFor(scripts, feedID, UpdatePost), run)
  }

  /** The tables after the items of a parsed feed are stored in `ctx`, the error that stopped it recorded. */
  ghost function StoredBy(ctx: Context, posts: map<UInt64, PostRow>, items: seq<Item>): Refreshed
  {
    var r := Ingest(ctx, posts, items);
    Refreshed(if r.error.Some? then Failed(ctx.feeds, ctx.feedID, r.error.value) else ctx.feeds, r.posts, r.runs)
  }

  /** `refresh`, given what fetching gave and the time: each thrown error is caught and recorded on the feed. */
  ghost function RefreshOf(db: Database, feedID: UInt64, now: string, fetched: Fetched,
                          run: (string, PostLocal.StoredPost) -> Option<string>): Refreshed
    reads db`feeds, db`posts, db`flags, db`memberships, db`scripts
  {
    var started := Started(db.feeds, feedID, now);
    match fetched
    case FetchFailed(message) => Refreshed(Failed(started, feedID, message), db.posts, [])
    case NotModified => Refreshed(started, db.posts, [])
    case Unrecognized => Refreshed(Failed(started, feedID, NotRecognized), db.posts, [])
    case Parsed(_, _, _, _, _, _, _, _, _, items) => StoredBy(RefreshContext(db, feedID, now, fetched, run), db.posts, items)
  }

  /** `refresh`. */
  method Refresh(db: Database, feedID: UInt64, now: string, fetched: Fetched,
                 run: (string, PostLocal.StoredPost) -> Option<string>)
      returns (runs: seq<Run>)
    modifies db`feeds, db`posts
    ensures Refreshed(db.feeds, db.posts, runs) == old(RefreshOf(db, feedID, now, fetched, run))
  {
    ghost var ctx := if fetched.Parsed? then RefreshContext(db, feedID, now, fetched, run) else ContextOf(db, feedID, "", run);
    db.feeds := Started(db.feeds, feedID, now);
    runs := [];
    match fetched {
      case FetchFailed(message) =>
        db.feeds := Failed(db.feeds, feedID, message);
      case NotModified =>
      case Unrecognized =>
        db.feeds := Failed(db.feeds, feedID, NotRecognized);
      case Parsed(_, _, _, _, _, _, _, _, _, _) =>
        runs := RefreshParsed(db, feedID, fetched, run, ctx);
    }
  }

  /** The `try` block once a parser has read the feed: `update`, then `processItems`, with a failure recorded. */
  method RefreshParsed(db: Database, feedID: UInt64, fetched: Fetched, run: (string, PostLocal.StoredPost) -> Option<string>,
                       ghost ctx: Context)
      returns (runs: seq<Run>)
    requires fetched.Parsed?
    requires ctx == ContextOf(db, feedID, fetched.title, run).(feeds := Described(db.feeds, feedID, MetaOf(fetched)))
    modifies db`feeds, db`posts
    ensures Refreshed(db.feeds, db.posts, runs) == StoredBy(ctx, old(db.posts), fetched.items)
  {
    db.feeds := Described(db.feeds, feedID, MetaOf(fetched));
    var error;
    runs, error := ProcessItems(db, feedID, fetched.title, fetched.items, run, ctx);
    if error.Some? {
      db.feeds := Failed(db.feeds, feedID, error.value);
    }
  }

  /**
   * A refresh of a stored feed records the time; the feed's address and
   * place stay, and no other feed changes.
   */
  lemma RefreshKeepsFeeds(db: Database, feedID: UInt64, now: string, fetched: Fetched,
                          run: (string, PostLocal.StoredPost) -> Option<string>)
    requires feedID in db.feeds
    ensures var r := RefreshOf(db, feedID, now, fetched, run);
      && r.feeds.Keys == db.feeds.Keys
      && (forall id :: id in db.feeds && id != feedID ==> r.feeds[id] == db.feeds[id])
      && r.feeds[feedID].lastChecked == now
      && r.feeds[feedID].url == db.feeds[feedID].url
      && r.feeds[feedID].folder == db.feeds[feedID].folder
      && r.feeds[feedID].sortOrder == db.feeds[feedID].sortOrder
  {
  }

  /**
   * The error a refresh of a stored feed leaves: the fetch's message, none
   * when nothing changed, the unrecognized-document message, or the error
   * that stopped storing the items; unless fetching failed or nothing
   * changed, the parsed feed's columns are stored.
   */
  lemma RefreshRecordsError(db: Database, feedID: UInt64, now: string, fetched: Fetched,
                            run: (string, PostLocal.StoredPost) -> Option<string>)
    requires feedID in db.feeds
    ensures var r := RefreshOf(db, feedID, now, fetched, run);
      r.feeds[feedID].lastRefreshError == match fetched
        case FetchFailed(message) => Some(message)
        case NotModified => None
        case Unrecognized => Some(NotRecognized)
        case Parsed(_, _, _, _, _, _, _, _, _, items) => Ingest(RefreshContext(db, feedID, now, fetched, run), db.posts, items).error
    ensures fetched.Parsed? ==> RefreshOf(db, feedID, now, fetched, run).feeds[feedID].meta == MetaOf(fetched)
  {
  }

  /** Only a parsed feed changes posts; what was stored before an error stays. */
  lemma RefreshStoresItems(db: Database, feedID: UInt64, now: string, fetched: Fetched,
                           run: (string, PostLocal.StoredPost) -> Option<string>)
    ensures var r := RefreshOf(db, feedID, now, fetched, run);
      && (!fetched.Parsed? ==> r.posts == db.posts && r.runs == [])
      && (fetched.Parsed? ==> Extends(feedID, db.posts, r.posts, fetched.items))
  {
    if fetched.Parsed? {
      IngestExtends(RefreshContext(db, feedID, now, fetched, run), db.posts, fetched.items);
    }
  }
}
