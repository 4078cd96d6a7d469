/**
 * The statements `local/PostLocal.cpp` issues against the `posts`, `flags`
 * and `scriptfolder_posts` tables, and the three post queries (a listing
 * with `ORDER BY ... LIMIT ? OFFSET ?`, a single-row lookup, a count) the
 * feed, folder, script-folder and source classes build on.
 */
module PostLocal {
  import opened Wrappers
  import opened Strings
  import opened Flag
  import opened Ordering
  import opened Store

  /** The database id of a flag colour (`Flag::idForFlagColor`, which never fails). */
  function FlagID(c: FlagColor): (r: UInt8)
    ensures 1 <= r <= 7
    ensures FlagColorForId(r) == Ok(c)
  {
    IdForFlagColorInjective(c, c);
    IdForFlagColor(c).value
  }

  const AllFlagColors: set<FlagColor> := {Gray, Blue, Green, Yellow, Orange, Red, Purple}

  lemma AllFlagColorsComplete(c: FlagColor)
    ensures c in AllFlagColors
  {
    match c
    case Gray =>
    case Blue =>
    case Green =>
    case Yellow =>
    case Orange =>
    case Red =>
    case Purple =>
  }

  /** The colours `SELECT DISTINCT(flagID) FROM flags WHERE postID=?` yields for a post. */
  function ColorsOf(flags: multiset<FlagRow>, postID: UInt64): (r: set<FlagColor>)
    ensures forall c :: c in r <==> FlagRow(postID, FlagID(c)) in flags
  {
    set c | c in AllFlagColors && FlagRow(postID, FlagID(c)) in flags
  }

  // ---------------------------------------------------------------- flags

  /** `flags` after `DELETE FROM flags WHERE postID=? AND flagID=?`. */
  function Unflagged(flags: multiset<FlagRow>, postID: UInt64, c: FlagColor): (r: multiset<FlagRow>)
    ensures r[FlagRow(postID, FlagID(c))] == 0
    ensures forall row :: row != FlagRow(postID, FlagID(c)) ==> r[row] == flags[row]
  {
    flags[FlagRow(postID, FlagID(c)) := 0]
  }

  /** `flags` after `markFlagged`: Gray is never stored; any other colour ends up in exactly one row. */
  function Flagged(flags: multiset<FlagRow>, postID: UInt64, c: FlagColor): (r: multiset<FlagRow>)
    ensures c == Gray ==> r == flags
    ensures c != Gray ==> r[FlagRow(postID, FlagID(c))] == 1
    ensures forall row :: row != FlagRow(postID, FlagID(c)) ==> r[row] == flags[row]
  {
    if c == Gray then flags else Unflagged(flags, postID, c) + multiset{FlagRow(postID, FlagID(c))}
  }

  method MarkUnflagged(db: Database, postID: UInt64, c: FlagColor)
    modifies db`flags
    ensures db.flags == Unflagged(old(db.flags), postID, c)
  {
    var fc := IdForFlagColor(c).value;
    db.flags := db.flags[FlagRow(postID, fc) := 0];
  }

  method MarkFlagged(db: Database, postID: UInt64, c: FlagColor)
    modifies db`flags
    ensures db.flags == Flagged(old(db.flags), postID, c)
  {
    if c == Gray {
      return;
    }
    MarkUnflagged(db, postID, c);
    var fc := IdForFlagColor(c).value;
    db.flags := db.flags + multiset{FlagRow(postID, fc)};
  }

  /** Flagging twice leaves the table as flagging once does. */
  lemma FlaggedIdempotent(flags: multiset<FlagRow>, postID: UInt64, c: FlagColor)
    ensures Flagged(Flagged(flags, postID, c), postID, c) == Flagged(flags, postID, c)
  {
    var once := Flagged(flags, postID, c);
    var twice := Flagged(once, postID, c);
    forall row ensures twice[row] == once[row] {
    }
    assert twice == once;
  }

  /** Unflagging a colour the post does not carry changes nothing. */
  lemma UnflaggedAbsent(flags: multiset<FlagRow>, postID: UInt64, c: FlagColor)
    requires FlagRow(postID, FlagID(c)) !in flags
    ensures Unflagged(flags, postID, c) == flags
  {
    var r := Unflagged(flags, postID, c);
    forall row ensures r[row] == flags[row] {
    }
    assert r == flags;
  }

  /** Seen through a post's colour set: flagging adds the colour, unflagging removes it, other posts keep theirs. */
  lemma ColorsAfterFlagging(flags: multiset<FlagRow>, postID: UInt64, c: FlagColor, other: UInt64)
    requires other != postID
    ensures c != Gray ==> ColorsOf(Flagged(flags, postID, c), postID) == ColorsOf(flags, postID) + {c}
    ensures ColorsOf(Unflagged(flags, postID, c), postID) == ColorsOf(flags, postID) - {c}
    ensures ColorsOf(Flagged(flags, postID, c), other) == ColorsOf(flags, other)
    ensures ColorsOf(Unflagged(flags, postID, c), other) == ColorsOf(flags, other)
  {
    forall d ensures FlagID(d) == FlagID(c) ==> d == c {
      IdForFlagColorInjective(d, c);
    }
  }

  // ---------------------------------------------------------------- script-folder memberships

  /** `scriptfolder_posts` after `DELETE ... WHERE postID=? AND scriptFolderID=?`. */
  function Unassigned(memberships: multiset<MembershipRow>, scriptFolderID: UInt64, postID: UInt64): (r: multiset<MembershipRow>)
    ensures r[MembershipRow(scriptFolderID, postID)] == 0
    ensures forall row :: row != MembershipRow(scriptFolderID, postID) ==> r[row] == memberships[row]
  {
    memberships[MembershipRow(scriptFolderID, postID) := 0]
  }

  /** `scriptfolder_posts` after `assignToScriptFolder`: exactly one membership row for the pair. */
  function Assigned(memberships: multiset<MembershipRow>, scriptFolderID: UInt64, postID: UInt64): (r: multiset<MembershipRow>)
    ensures r[MembershipRow(scriptFolderID, postID)] == 1
    ensures forall row :: row != MembershipRow(scriptFolderID, postID) ==> r[row] == memberships[row]
  {
    Unassigned(memberships, scriptFolderID, postID) + multiset{MembershipRow(scriptFolderID, postID)}
  }

  method UnassignFromScriptFolder(db: Database, postID: UInt64, scriptFolderID: UInt64)
    modifies db`memberships
    ensures db.memberships == Unassigned(old(db.memberships), scriptFolderID, postID)
  {
    db.memberships := db.memberships[MembershipRow(scriptFolderID, postID) := 0];
  }

  method AssignToScriptFolder(db: Database, postID: UInt64, scriptFolderID: UInt64)
    modifies db`memberships
    ensures db.memberships == Assigned(old(db.memberships), scriptFolderID, postID)
  {
    UnassignFromScriptFolder(db, postID, scriptFolderID);
    db.memberships := db.memberships + multiset{MembershipRow(scriptFolderID, postID)};
  }

  lemma AssignedIdempotent(memberships: multiset<MembershipRow>, scriptFolderID: UInt64, postID: UInt64)
    ensures Assigned(Assigned(memberships, scriptFolderID, postID), scriptFolderID, postID)
         == Assigned(memberships, scriptFolderID, postID)
  {
    var once := Assigned(memberships, scriptFolderID, postID);
    var twice := Assigned(once, scriptFolderID, postID);
    forall row ensures twice[row] == once[row] {
    }
    assert twice == once;
  }

  lemma UnassignedAbsent(memberships: multiset<MembershipRow>, scriptFolderID: UInt64, postID: UInt64)
    requires MembershipRow(scriptFolderID, postID) !in memberships
    ensures Unassigned(memberships, scriptFolderID, postID) == memberships
  {
    var r := Unassigned(memberships, scriptFolderID, postID);
    forall row ensures r[row] == memberships[row] {
    }
    assert r == memberships;
  }

  // ---------------------------------------------------------------- isRead

  /** `posts` after `UPDATE posts SET isRead=?` on the rows `ids`: only their isRead column changes. */
  function WithIsRead(posts: map<UInt64, PostRow>, isRead: bool, ids: set<UInt64>): (r: map<UInt64, PostRow>)
    ensures r.Keys == posts.Keys
    ensures forall id :: id in r ==> r[id].feedID == posts[id].feedID && r[id].item == posts[id].item
    ensures forall id :: id in r ==> r[id].isRead == if id in ids then isRead else posts[id].isRead
  {
    map id | id in posts :: if id in ids then posts[id].(isRead := isRead) else posts[id]
  }

  /** `updateIsRead`: the `WHERE` clause selects the rows; no clause selects them all. */
  method UpdateIsRead(db: Database, isRead: bool, cs: seq<PostCondition>)
    modifies db`posts
    ensures db.posts == WithIsRead(old(db.posts), isRead, Matching(old(db.posts), cs, db.flags, db.memberships))
  {
    var ids := Matching(db.posts, cs, db.flags, db.memberships);
    db.posts := map id | id in db.posts :: if id in ids then db.posts[id].(isRead := isRead) else db.posts[id];
  }

  /** The rows a `WHERE` clause matches get the new state; every other row is left exactly as it was. */
  lemma UpdateIsReadExactly(posts: map<UInt64, PostRow>, isRead: bool, cs: seq<PostCondition>,
                            flags: multiset<FlagRow>, memberships: multiset<MembershipRow>, id: UInt64)
    requires id in posts
    ensures SatisfiesAll(cs, id, posts[id], flags, memberships)
        ==> WithIsRead(posts, isRead, Matching(posts, cs, flags, memberships))[id] == posts[id].(isRead := isRead)
    ensures !SatisfiesAll(cs, id, posts[id], flags, memberships)
        ==> WithIsRead(posts, isRead, Matching(posts, cs, flags, memberships))[id] == posts[id]
  {
    var r := WithIsRead(posts, isRead, Matching(posts, cs, flags, memberships));
    assert r[id].feedID == posts[id].feedID && r[id].item == posts[id].item;
  }

  /** `posts.feedID=? AND posts.id=?` selects the one post, or nothing when it belongs to another feed. */
  lemma MatchingThisPost(posts: map<UInt64, PostRow>, feedID: UInt64, postID: UInt64,
                         flags: multiset<FlagRow>, memberships: multiset<MembershipRow>)
    ensures Matching(posts, [FeedIs(feedID), IDIs(postID)], flags, memberships)
         == if postID in posts && posts[postID].feedID == feedID then {postID} else {}
  {
    var cs := [FeedIs(feedID), IDIs(postID)];
    var m := Matching(posts, cs, flags, memberships);
    forall id ensures id in m <==> id in posts && id == postID && posts[id].feedID == feedID {
      if id in posts {
        assert SatisfiesAll(cs, id, posts[id], flags, memberships)
           <==> Satisfies(cs[0], id, posts[id], flags, memberships) && Satisfies(cs[1], id, posts[id], flags, memberships);
      }
    }
  }

  method MarkAsRead(db: Database, postID: UInt64, feedID: UInt64)
    modifies db`posts
    ensures db.posts == WithIsRead(old(db.posts), true, Matching(old(db.posts), [FeedIs(feedID), IDIs(postID)], db.flags, db.memberships))
  {
    UpdateIsRead(db, true, [FeedIs(feedID), IDIs(postID)]);
  }

  method MarkAsUnread(db: Database, postID: UInt64, feedID: UInt64)
    modifies db`posts
    ensures db.posts == WithIsRead(old(db.posts), false, Matching(old(db.posts), [FeedIs(feedID), IDIs(postID)], db.flags, db.memberships))
  {
    UpdateIsRead(db, false, [FeedIs(feedID), IDIs(postID)]);
  }

  // ---------------------------------------------------------------- update and create

  /** `posts` after `UPDATE posts SET <item columns> WHERE id=?`: only that row's item columns change. */
  function WithItem(posts: map<UInt64, PostRow>, postID: UInt64, item: Item): (r: map<UInt64, PostRow>)
    ensures r.Keys == posts.Keys
    ensures forall id :: id in r ==> r[id].feedID == posts[id].feedID && r[id].isRead == posts[id].isRead
    ensures forall id :: id in r ==> r[id].item == if id == postID then item else posts[id].item
  {
    if postID in posts then posts[postID := posts[postID].(item := item)] else posts
  }

  method Update(db: Database, postID: UInt64, item: Item)
    modifies db`posts
    ensures db.posts == WithItem(old(db.posts), postID, item)
  {
    if postID in db.posts {
      db.posts := db.posts[postID := db.posts[postID].(item := item)];
    }
  }

  /** A post as the queries return it: the row, its id, the feed's title (`LEFT JOIN feeds`) and its flag colours. */
  datatype StoredPost = StoredPost(
    id: UInt64,
    feedID: UInt64,
    feedTitle: string,
    isRead: bool,
    item: Item,
    flagColors: set<FlagColor>)

  /**
   * `create`: inserts an unread row, reads back its id and the flags stored
   * under that id. None is an insert that fails because the largest id is
   * taken.
   */
  method Create(db: Database, feedID: UInt64, feedTitle: string, item: Item) returns (r: Option<StoredPost>)
    modifies db`posts
    ensures r.None? <==> UINT64_MAX in old(db.posts)
    ensures r.None? ==> db.posts == old(db.posts)
    ensures r.Some? ==> r.value.id !in old(db.posts) && r.value.id > 0
    ensures r.Some? ==> NextRowID(old(db.posts).Keys) == Some(r.value.id)
    ensures r.Some? ==> db.posts == old(db.posts)[r.value.id := PostRow(feedID, false, item)]
    ensures r.Some? ==> r == Some(StoredPost(r.value.id, feedID, feedTitle, false, item, ColorsOf(db.flags, r.value.id)))
  {
    var id := NewRowID(db.posts.Keys);
    NextRowIDFresh(db.posts.Keys);
    if id.None? {
      return None;
    }
    db.posts := db.posts[id.value := PostRow(feedID, false, item)];
    var colors: set<FlagColor> := {};
    var todo := AllFlagColors;
    while todo != {}
      invariant todo <= AllFlagColors
      invariant forall c :: c in colors <==> c in AllFlagColors - todo && FlagRow(id.value, FlagID(c)) in db.flags
      decreases todo
    {
      var c :| c in todo;
      if FlagRow(id.value, IdForFlagColor(c).value) in db.flags {
        colors := colors + {c};
      }
      todo := todo - {c};
    }
    forall c ensures c in AllFlagColors {
      AllFlagColorsComplete(c);
    }
    assert colors == ColorsOf(db.flags, id.value);
    r := Some(StoredPost(id.value, feedID, feedTitle, false, item, colors));
  }

  // ---------------------------------------------------------------- queries

  /** The feed title the `LEFT JOIN feeds` contributes: empty when the feed row is missing. */
  function FeedTitle(feeds: map<UInt64, FeedRow>, feedID: UInt64): string
  {
    if feedID in feeds then feeds[feedID].meta.title else ""
  }

  function Load(posts: map<UInt64, PostRow>, feeds: map<UInt64, FeedRow>, flags: multiset<FlagRow>, id: UInt64): (p: StoredPost)
    requires id in posts
    ensures p.id == id && p.feedID == posts[id].feedID && p.isRead == posts[id].isRead && p.item == posts[id].item
    ensures p.flagColors == ColorsOf(flags, id)
  {
    var row := posts[id];
    StoredPost(id, row.feedID, FeedTitle(feeds, row.feedID), row.isRead, row.item, ColorsOf(flags, id))
  }

  /**
   * The sort key of a post: `ORDER BY posts.datePublished DESC`, preceded
   * by `posts.isRead ASC` when unread posts go first.
   */
  function PostKey(unreadFirst: bool, id: UInt64, row: PostRow): (k: Key)
    ensures k.id == id && k.date == row.item.datePublished
    ensures k.rank == if unreadFirst && row.isRead then 1 else 0
  {
    Key(if unreadFirst && row.isRead then 1 else 0, row.item.datePublished, id)
  }

  function KeysOf(posts: map<UInt64, PostRow>, ids: set<UInt64>, unreadFirst: bool): (ks: set<Key>)
    requires ids <= posts.Keys
    ensures forall id :: id in ids ==> PostKey(unreadFirst, id, posts[id]) in ks
    ensures forall k :: k in ks ==> k.id in ids && k == PostKey(unreadFirst, k.id, posts[k.id])
  {
    set id | id in ids :: PostKey(unreadFirst, id, posts[id])
  }

  /** The post ids a query lists, in its order, before `LIMIT` and `OFFSET`. */
  ghost function Listing(posts: map<UInt64, PostRow>, cs: seq<PostCondition>, flags: multiset<FlagRow>,
                         memberships: multiset<MembershipRow>, unreadFirst: bool): seq<UInt64>
  {
    IDsOf(Listed(KeysOf(posts, Matching(posts, cs, flags, memberships), unreadFirst)))
  }

  lemma {:induction false} KeysOfSize(posts: map<UInt64, PostRow>, ids: set<UInt64>, unreadFirst: bool)
    requires ids <= posts.Keys
    ensures |KeysOf(posts, ids, unreadFirst)| == |ids|
    decreases ids
  {
    if ids != {} {
      var x :| x in ids;
      KeysOfSize(posts, ids - {x}, unreadFirst);
      KeysOfRemove(posts, ids, x, unreadFirst);
    }
  }

  /** Taking one id out of the set takes exactly its key out of the keys. */
  lemma KeysOfRemove(posts: map<UInt64, PostRow>, ids: set<UInt64>, x: UInt64, unreadFirst: bool)
    requires ids <= posts.Keys && x in ids
    ensures KeysOf(posts, ids, unreadFirst)
      == KeysOf(posts, ids - {x}, unreadFirst) + {PostKey(unreadFirst, x, posts[x])}
    ensures PostKey(unreadFirst, x, posts[x]) !in KeysOf(posts, ids - {x}, unreadFirst)
  {
    var k := PostKey(unreadFirst, x, posts[x]);
    var all, others := KeysOf(posts, ids, unreadFirst), KeysOf(posts, ids - {x}, unreadFirst);
    forall y | y in all && y != k ensures y in others {
      assert y == PostKey(unreadFirst, y.id, posts[y.id]);
      assert y.id != x;
    }
    assert k in all;
  }

  /** A listing holds every matching post, and nothing else. */
  lemma ListingContents(posts: map<UInt64, PostRow>, cs: seq<PostCondition>, flags: multiset<FlagRow>,
                        memberships: multiset<MembershipRow>, unreadFirst: bool)
    ensures forall id :: id in Listing(posts, cs, flags, memberships, unreadFirst)
                         <==> id in Matching(posts, cs, flags, memberships)
  {
    var m := Matching(posts, cs, flags, memberships);
    var ks := KeysOf(posts, m, unreadFirst);
    var sorted := Listed(ks);
    var l := IDsOf(sorted);
    forall id | id in m ensures id in l {
      var k := PostKey(unreadFirst, id, posts[id]);
      var i :| 0 <= i < |sorted| && sorted[i] == k;
      assert l[i] == id;
    }
    forall id | id in l ensures id in m {
      var i :| 0 <= i < |l| && l[i] == id;
      assert sorted[i] in ks;
    }
  }

  /** Its length is the `COUNT(*)` of the same `WHERE` clause. */
  lemma ListingCount(posts: map<UInt64, PostRow>, cs: seq<PostCondition>, flags: multiset<FlagRow>,
                     memberships: multiset<MembershipRow>, unreadFirst: bool)
    ensures |Listing(posts, cs, flags, memberships, unreadFirst)| == |Matching(posts, cs, flags, memberships)|
  {
    KeysOfSize(posts, Matching(posts, cs, flags, memberships), unreadFirst);
  }

  /**
   * No post is listed twice; unread posts come first when asked for, and
   * the dates never increase among posts of the same rank.
   */
  lemma ListingOrder(posts: map<UInt64, PostRow>, cs: seq<PostCondition>, flags: multiset<FlagRow>,
                     memberships: multiset<MembershipRow>, unreadFirst: bool, i: nat, j: nat)
    requires i < j < |Listing(posts, cs, flags, memberships, unreadFirst)|
    ensures var l := Listing(posts, cs, flags, memberships, unreadFirst);
      && l[i] != l[j]
      && l[i] in posts && l[j] in posts
      && (unreadFirst && !posts[l[j]].isRead ==> !posts[l[i]].isRead)
      && ((!unreadFirst || posts[l[i]].isRead == posts[l[j]].isRead)
          ==> !StrLess(posts[l[i]].item.datePublished, posts[l[j]].item.datePublished))
  {
    var m := Matching(posts, cs, flags, memberships);
    var ks := KeysOf(posts, m, unreadFirst);
    var sorted := Listed(ks);
    var x, y := sorted[i], sorted[j];
    assert x in ks && y in ks;
    assert Before(x, y);
    BeforeIrreflexive(x);
    if StrLess(x.date, y.date) && x.rank == y.rank {
      StrLessTransitive(x.date, y.date, x.date);
      StrLessIrreflexive(x.date);
    }
  }

  /** `ids` as loaded post objects, in order. */
  function LoadAll(posts: map<UInt64, PostRow>, feeds: map<UInt64, FeedRow>, flags: multiset<FlagRow>, ids: seq<UInt64>): (r: seq<StoredPost>)
    requires forall i :: 0 <= i < |ids| ==> ids[i] in posts
    ensures |r| == |ids|
    ensures forall i :: 0 <= i < |ids| ==> r[i] == Load(posts, feeds, flags, ids[i])
  {
    seq(|ids|, i requires 0 <= i < |ids| => Load(posts, feeds, flags, ids[i]))
  }

  lemma ListingInPosts(posts: map<UInt64, PostRow>, cs: seq<PostCondition>, flags: multiset<FlagRow>,
                       memberships: multiset<MembershipRow>, unreadFirst: bool)
    ensures ListingIn(posts, cs, flags, memberships, unreadFirst)
  {
    ListingContents(posts, cs, flags, memberships, unreadFirst);
  }

  /** `queryMultiple`: the listing's window `LIMIT limit OFFSET offset`, each row loaded with its feed title and flags. */
  method QueryMultiple(db: Database, cs: seq<PostCondition>, unreadFirst: bool, offset: nat, limit: nat)
    returns (r: seq<StoredPost>)
    ensures ListingIn(db.posts, cs, db.flags, db.memberships, unreadFirst)
    ensures r == LoadAll(db.posts, db.feeds, db.flags, Window(Listing(db.posts, cs, db.flags, db.memberships, unreadFirst), offset, limit))
  {
    var m := Matching(db.posts, cs, db.flags, db.memberships);
    var ks := ListKeys(KeysOf(db.posts, m, unreadFirst));
    var ids := Window(IDsOf(ks), offset, limit);
    ListingInPosts(db.posts, cs, db.flags, db.memberships, unreadFirst);
    r := LoadRows(db, ids);
  }

  /** The loop of `queryMultiple` that turns each selected row into a post object. */
  method LoadRows(db: Database, ids: seq<UInt64>) returns (r: seq<StoredPost>)
    requires forall j :: 0 <= j < |ids| ==> ids[j] in db.posts
    ensures r == LoadAll(db.posts, db.feeds, db.flags, ids)
  {
    r := [];
    var i := 0;
    while i < |ids|
      invariant 0 <= i <= |ids|
      invariant |r| == i
      invariant forall j :: 0 <= j < i ==> r[j] == Load(db.posts, db.feeds, db.flags, ids[j])
    {
      r := r + [Load(db.posts, db.feeds, db.flags, ids[i])];
      i := i + 1;
    }
  }

  ghost predicate ListingIn(posts: map<UInt64, PostRow>, cs: seq<PostCondition>, flags: multiset<FlagRow>,
                            memberships: multiset<MembershipRow>, unreadFirst: bool)
  {
    forall id :: id in Listing(posts, cs, flags, memberships, unreadFirst) ==> id in posts
  }

  /** `queryCount`: `SELECT COUNT(*)` under the same `WHERE` clause. */
  method QueryCount(db: Database, cs: seq<PostCondition>) returns (n: nat)
    ensures n == |Matching(db.posts, cs, db.flags, db.memberships)|
  {
    var rest := Matching(db.posts, cs, db.flags, db.memberships);
    n := 0;
    while rest != {}
      invariant n + |rest| == |Matching(db.posts, cs, db.flags, db.memberships)|
      decreases rest
    {
      var id :| id in rest;
      rest := rest - {id};
      n := n + 1;
    }
  }

  /** The row `querySingle` returns: only when exactly one row matches. */
  ghost function Single(posts: map<UInt64, PostRow>, feeds: map<UInt64, FeedRow>, flags: multiset<FlagRow>, ids: set<UInt64>): (r: Option<StoredPost>)
    requires ids <= posts.Keys
    ensures r.Some? <==> |ids| == 1
    ensures r.Some? ==> ids == {r.value.id} && r.value == Load(posts, feeds, flags, r.value.id)
  {
    if |ids| == 1 then
      var id :| id in ids;
      assert ids == {id} by {
        forall x | x in ids ensures x == id {
          assert |ids - {id}| == 0;
        }
      }
      Some(Load(posts, feeds, flags, id))
    else None
  }

  /** `querySingle`. */
  method QuerySingle(db: Database, cs: seq<PostCondition>) returns (r: Option<StoredPost>)
    ensures r == Single(db.posts, db.feeds, db.flags, Matching(db.posts, cs, db.flags, db.memberships))
  {
    var m := Matching(db.posts, cs, db.flags, db.memberships);
    if |m| == 1 {
      var id :| id in m;
      r := Some(Load(db.posts, db.feeds, db.flags, id));
    } else {
      r := None;
    }
  }
}
