/**
 * `local/SourceLocal.cpp`: the operations of the local source that act on
 * many posts at once (read state, flags and script-folder memberships for
 * a list of (feed, post) pairs), marking everything read, the unread
 * counts per feed, and the OPML import.
 */
module SourceLocal {
  import opened Wrappers
  import opened Strings
  import opened Flag
  import opened Store
  import PostLocal
  import FeedLocal
  import FolderLocal
  import OPML
  import Xml

  // ---------------------------------------------------------------- remapFeedPostTuplesToMap

  /** The post ids paired with `feedID`, in input order, repeats kept. */
  function PostsOf(pairs: seq<(UInt64, UInt64)>, feedID: UInt64): seq<UInt64>
    decreases |pairs|
  {
    if pairs == [] then []
    else PostsOf(pairs[..|pairs| - 1], feedID) + if pairs[|pairs| - 1].0 == feedID then [pairs[|pairs| - 1].1] else []
  }

  /** The feed ids the pairs mention. */
  function FeedsOf(pairs: seq<(UInt64, UInt64)>): (r: set<UInt64>)
    ensures forall f :: f in r <==> exists i :: 0 <= i < |pairs| && pairs[i].0 == f
  {
    set i | 0 <= i < |pairs| :: pairs[i].0
  }

  /** The map `remapFeedPostTuplesToMap` builds: each mentioned feed to its post ids. */
  function Remapped(pairs: seq<(UInt64, UInt64)>): map<UInt64, seq<UInt64>>
  {
    map f | f in FeedsOf(pairs) :: PostsOf(pairs, f)
  }

  method RemapFeedPostTuplesToMap(pairs: seq<(UInt64, UInt64)>) returns (r: map<UInt64, seq<UInt64>>)
    ensures r == Remapped(pairs)
  {
    r := map[];
    for i := 0 to |pairs|
      invariant r == Remapped(pairs[..i])
    {
      var (feedID, postID) := pairs[i];
      RemappedSnoc(pairs, i);
      if feedID in r {
        r := r[feedID := r[feedID] + [postID]];
      } else {
        assert [] + [postID] == [postID];
        r := r[feedID := [postID]];
      }
    }
    assert pairs[..|pairs|] == pairs;
  }

  /** A feed the pairs do not mention has no post ids. */
  lemma {:induction false} PostsOfUnmentioned(pairs: seq<(UInt64, UInt64)>, feedID: UInt64)
    requires feedID !in FeedsOf(pairs)
    ensures PostsOf(pairs, feedID) == []
    decreases |pairs|
  {
    if pairs != [] {
      var init := pairs[..|pairs| - 1];
      assert feedID !in FeedsOf(init) by {
        forall i | 0 <= i < |init| ensures init[i].0 != feedID {
          assert init[i] == pairs[i];
        }
      }
      PostsOfUnmentioned(init, feedID);
    }
  }

  lemma RemappedSnoc(pairs: seq<(UInt64, UInt64)>, i: nat)
    requires i < |pairs|
    ensures var prev := Remapped(pairs[..i]);
      Remapped(pairs[..i + 1]) == prev[pairs[i].0 := (if pairs[i].0 in prev then prev[pairs[i].0] else []) + [pairs[i].1]]
  {
    var prefix := pairs[..i + 1];
    assert prefix[..|prefix| - 1] == pairs[..i];
    var prev := Remapped(pairs[..i]);
    var next := prev[pairs[i].0 := (if pairs[i].0 in prev then prev[pairs[i].0] else []) + [pairs[i].1]];
    assert FeedsOf(prefix) == FeedsOf(pairs[..i]) + {pairs[i].0} by {
      forall f ensures f in FeedsOf(prefix) <==> f in FeedsOf(pairs[..i]) + {pairs[i].0} {
        if f in FeedsOf(prefix) {
          var k :| 0 <= k < |prefix| && prefix[k].0 == f;
          if k < i {
            assert pairs[..i][k] == prefix[k];
          }
        }
        if f in FeedsOf(pairs[..i]) {
          var k :| 0 <= k < i && pairs[..i][k].0 == f;
          assert prefix[k] == pairs[..i][k];
        }
      }
    }
    if pairs[i].0 !in prev {
      PostsOfUnmentioned(pairs[..i], pairs[i].0);
    }
    assert prefix[|prefix| - 1] == pairs[i];
    forall f | f in FeedsOf(prefix) ensures PostsOf(prefix, f) == next[f] {
      assert PostsOf(prefix, f) == PostsOf(pairs[..i], f) + if pairs[i].0 == f then [pairs[i].1] else [];
    }
  }

  /** The post ids of one stretch of pairs followed by another come in that order. */
  lemma {:induction false} PostsOfConcat(a: seq<(UInt64, UInt64)>, b: seq<(UInt64, UInt64)>, feedID: UInt64)
    ensures PostsOf(a + b, feedID) == PostsOf(a, feedID) + PostsOf(b, feedID)
    decreases |b|
  {
    if b == [] {
      assert a + b == a;
    } else {
      var bi := b[..|b| - 1];
      assert (a + b)[..|a + b| - 1] == a + bi;
      assert (a + b)[|a + b| - 1] == b[|b| - 1];
      PostsOfConcat(a, bi, feedID);
    }
  }

  /**
   * The keys are exactly the feed ids of the input; each post id occurs
   * under its feed as often as its pair occurs in the input.
   */
  lemma {:induction false} PostsOfCounts(pairs: seq<(UInt64, UInt64)>, feedID: UInt64, postID: UInt64)
    ensures multiset(PostsOf(pairs, feedID))[postID] == multiset(pairs)[(feedID, postID)]
    decreases |pairs|
  {
    if pairs != [] {
      var init := pairs[..|pairs| - 1];
      assert pairs == init + [pairs[|pairs| - 1]];
      PostsOfCounts(init, feedID, postID);
    }
  }

  lemma RemappedMeaning(pairs: seq<(UInt64, UInt64)>, feedID: UInt64, postID: UInt64)
    ensures feedID in Remapped(pairs) <==> exists i :: 0 <= i < |pairs| && pairs[i].0 == feedID
    ensures feedID in Remapped(pairs) ==> multiset(Remapped(pairs)[feedID])[postID] == multiset(pairs)[(feedID, postID)]
  {
    PostsOfCounts(pairs, feedID, postID);
  }

  /** A post occurs in its feed's list exactly when the pair occurs in the input. */
  lemma PostsOfMembers(pairs: seq<(UInt64, UInt64)>, feedID: UInt64, postID: UInt64)
    ensures postID in PostsOf(pairs, feedID) <==> (feedID, postID) in pairs
  {
    PostsOfCounts(pairs, feedID, postID);
    assert postID in PostsOf(pairs, feedID) <==> postID in multiset(PostsOf(pairs, feedID));
    assert (feedID, postID) in pairs <==> (feedID, postID) in multiset(pairs);
  }

  // ---------------------------------------------------------------- the posts a list of pairs names

  /**
   * The posts the `setPosts*` operations act on: those that exist and are
   * paired with the feed they belong to (`getPost` looks a post up within
   * its feed, so a post paired with another feed is skipped).
   */
  function Listed(posts: map<UInt64, PostRow>, pairs: seq<(UInt64, UInt64)>): (r: set<UInt64>)
    ensures forall p :: p in r <==> p in posts && (posts[p].feedID, p) in pairs
  {
    set p | p in posts && (posts[p].feedID, p) in pairs
  }

  /** The posts of the ids `ids` that belong to `feedID`. */
  function InFeed(posts: map<UInt64, PostRow>, feedID: UInt64, ids: seq<UInt64>): (r: set<UInt64>)
    ensures forall p :: p in r <==> p in ids && p in posts && posts[p].feedID == feedID
  {
    set p | p in ids && p in posts && posts[p].feedID == feedID
  }

  /** The posts named under the feeds `done` of the remapped pairs. */
  ghost function ListedUnder(posts: map<UInt64, PostRow>, groups: map<UInt64, seq<UInt64>>, done: set<UInt64>): (r: set<UInt64>)
    ensures forall p :: p in r <==> p in posts && posts[p].feedID in done && posts[p].feedID in groups && p in groups[posts[p].feedID]
  {
    set p | p in posts && posts[p].feedID in done && posts[p].feedID in groups && p in groups[posts[p].feedID]
  }

  lemma ListedUnderStep(posts: map<UInt64, PostRow>, groups: map<UInt64, seq<UInt64>>, done: set<UInt64>, feedID: UInt64)
    requires feedID in groups
    ensures ListedUnder(posts, groups, done + {feedID}) == ListedUnder(posts, groups, done) + InFeed(posts, feedID, groups[feedID])
  {
  }

  /** Going through every group of the remapped pairs reaches exactly the listed posts. */
  lemma ListedUnderAll(posts: map<UInt64, PostRow>, pairs: seq<(UInt64, UInt64)>)
    ensures ListedUnder(posts, Remapped(pairs), Remapped(pairs).Keys) == Listed(posts, pairs)
  {
    var groups := Remapped(pairs);
    forall p | p in posts ensures p in ListedUnder(posts, groups, groups.Keys) <==> (posts[p].feedID, p) in pairs {
      var f := posts[p].feedID;
      PostsOfMembers(pairs, f, p);
      if (f, p) in pairs {
        var i :| 0 <= i < |pairs| && pairs[i] == (f, p);
        assert pairs[i].0 == f;
      }
    }
  }

  lemma InFeedSnoc(posts: map<UInt64, PostRow>, feedID: UInt64, ids: seq<UInt64>, j: nat)
    requires j < |ids|
    ensures InFeed(posts, feedID, ids[..j + 1])
         == InFeed(posts, feedID, ids[..j]) + if ids[j] in posts && posts[ids[j]].feedID == feedID then {ids[j]} else {}
  {
    assert ids[..j + 1] == ids[..j] + [ids[j]];
  }

  // ---------------------------------------------------------------- setPostsReadStatus

  lemma WithIsReadTwice(posts: map<UInt64, PostRow>, isRead: bool, a: set<UInt64>, b: set<UInt64>)
    ensures PostLocal.WithIsRead(PostLocal.WithIsRead(posts, isRead, a), isRead, b) == PostLocal.WithIsRead(posts, isRead, a + b)
  {
    var l := PostLocal.WithIsRead(PostLocal.WithIsRead(posts, isRead, a), isRead, b);
    var r := PostLocal.WithIsRead(posts, isRead, a + b);
    assert forall id | id in l :: l[id] == r[id];
  }

  /**
   * `setPostsReadStatus`: every listed post takes the read state, whatever
   * order the feeds of the remapped pairs are visited in; every other post
   * is as it was.
   */
  method SetPostsReadStatus(db: Database, markAsRead: bool, pairs: seq<(UInt64, UInt64)>)
    modifies db`posts
    ensures db.posts == PostLocal.WithIsRead(old(db.posts), markAsRead, Listed(old(db.posts), pairs))
  {
    ghost var start := db.posts;
    var groups := RemapFeedPostTuplesToMap(pairs);
    var feedIDs := groups.Keys;
    while feedIDs != {}
      invariant feedIDs <= groups.Keys
      invariant db.posts == PostLocal.WithIsRead(start, markAsRead, ListedUnder(start, groups, groups.Keys - feedIDs))
      decreases feedIDs
    {
      var feedID :| feedID in feedIDs;
      ghost var before := db.posts;
      ReadStatusOfFeed(db, markAsRead, feedID, groups[feedID]);
      assert InFeed(before, feedID, groups[feedID]) == InFeed(start, feedID, groups[feedID]);
      WithIsReadTwice(start, markAsRead, ListedUnder(start, groups, groups.Keys - feedIDs), InFeed(start, feedID, groups[feedID]));
      ListedUnderStep(start, groups, groups.Keys - feedIDs, feedID);
      assert groups.Keys - (feedIDs - {feedID}) == (groups.Keys - feedIDs) + {feedID};
      feedIDs := feedIDs - {feedID};
    }
    assert groups.Keys - feedIDs == groups.Keys;
    ListedUnderAll(start, pairs);
  }

  /** The inner loop of `setPostsReadStatus`: the feed's posts among `postIDs`, one by one. */
  method ReadStatusOfFeed(db: Database, markAsRead: bool, feedID: UInt64, postIDs: seq<UInt64>)
    modifies db`posts
    ensures db.posts == PostLocal.WithIsRead(old(db.posts), markAsRead, InFeed(old(db.posts), feedID, postIDs))
  {
    ghost var start := db.posts;
    for j := 0 to |postIDs|
      invariant db.posts == PostLocal.WithIsRead(start, markAsRead, InFeed(start, feedID, postIDs[..j]))
    {
      var postID := postIDs[j];
      var post := FeedLocal.GetPost(db, feedID, postID);
      if post.Some? {
        ghost var before := db.posts;
        if markAsRead {
          PostLocal.MarkAsRead(db, postID, feedID);
        } else {
          PostLocal.MarkAsUnread(db, postID, feedID);
        }
        PostLocal.MatchingThisPost(before, feedID, postID, db.flags, db.memberships);
        WithIsReadTwice(start, markAsRead, InFeed(start, feedID, postIDs[..j]), {postID});
      }
      InFeedSnoc(start, feedID, postIDs, j);
    }
    assert postIDs[..|postIDs|] == postIDs;
  }

  // ---------------------------------------------------------------- setPostsFlagStatus

  /** The flag ids of the colours `setPostsFlagStatus` touches; flagging never stores Gray. */
  function FlagIDs(colors: set<FlagColor>, markFlagged: bool): (r: set<UInt8>)
    ensures forall c :: c in colors && (markFlagged ==> c != Gray) ==> PostLocal.FlagID(c) in r
    ensures forall f :: f in r ==> exists c :: c in colors && (markFlagged ==> c != Gray) && f == PostLocal.FlagID(c)
  {
    set c | c in colors && (markFlagged ==> c != Gray) :: PostLocal.FlagID(c)
  }

  lemma FlagIDsAdd(done: set<FlagColor>, c: FlagColor, markFlagged: bool)
    ensures FlagIDs(done + {c}, markFlagged) == FlagIDs(done, markFlagged) + if markFlagged && c == Gray then {} else {PostLocal.FlagID(c)}
  {
  }

  /** The flag rows of the posts `targets` with those ids. */
  function FlagRows(targets: set<UInt64>, colors: set<FlagColor>, markFlagged: bool): (r: set<FlagRow>)
    ensures forall row :: row in r <==> row.postID in targets && row.flagID in FlagIDs(colors, markFlagged)
  {
    set p, f | p in targets && f in FlagIDs(colors, markFlagged) :: FlagRow(p, f)
  }

  /** The number of times each touched row is left in the table: once when flagging or assigning, never otherwise. */
  function Count(add: bool): nat
  {
    if add then 1 else 0
  }

  /**
   * `setPostsFlagStatus`: every given colour of every listed post ends up
   * in exactly one flag row (flagging) or in none (unflagging); all other
   * rows keep their count.
   */
  method SetPostsFlagStatus(db: Database, markFlagged: bool, colors: set<FlagColor>, pairs: seq<(UInt64, UInt64)>)
    modifies db`flags
    ensures db.flags == Recount(old(db.flags), FlagRows(Listed(db.posts, pairs), colors, markFlagged), Count(markFlagged))
  {
    ghost var start := db.flags;
    ghost var ids := FlagIDs(colors, markFlagged);
    var groups := RemapFeedPostTuplesToMap(pairs);
    var feedIDs := groups.Keys;
    while feedIDs != {}
      invariant feedIDs <= groups.Keys
      invariant forall row :: db.flags[row] == if row.postID in ListedUnder(db.posts, groups, groups.Keys - feedIDs) && row.flagID in ids
                                               then Count(markFlagged) else start[row]
      decreases feedIDs
    {
      var feedID :| feedID in feedIDs;
      FlagStatusOfFeed(db, markFlagged, colors, feedID, groups[feedID]);
      ListedUnderStep(db.posts, groups, groups.Keys - feedIDs, feedID);
      assert groups.Keys - (feedIDs - {feedID}) == (groups.Keys - feedIDs) + {feedID};
      feedIDs := feedIDs - {feedID};
    }
    assert groups.Keys - feedIDs == groups.Keys;
    ListedUnderAll(db.posts, pairs);
    assert forall row :: db.flags[row] == Recount(start, FlagRows(Listed(db.posts, pairs), colors, markFlagged), Count(markFlagged))[row];
  }

  /** The feed's posts among `postIDs`, one by one (`getFeed` without fetching always yields the feed). */
  method FlagStatusOfFeed(db: Database, markFlagged: bool, colors: set<FlagColor>, feedID: UInt64, postIDs: seq<UInt64>)
    modifies db`flags
    ensures forall row :: db.flags[row] == if row.postID in InFeed(db.posts, feedID, postIDs) && row.flagID in FlagIDs(colors, markFlagged)
                                           then Count(markFlagged) else old(db.flags)[row]
  {
    ghost var start := db.flags;
    for j := 0 to |postIDs|
      invariant forall row :: db.flags[row] == if row.postID in InFeed(db.posts, feedID, postIDs[..j]) && row.flagID in FlagIDs(colors, markFlagged)
                                               then Count(markFlagged) else start[row]
    {
      var postID := postIDs[j];
      var post := FeedLocal.GetPost(db, feedID, postID);
      if post.Some? {
        FlagStatusOfPost(db, markFlagged, colors, postID);
      }
      InFeedSnoc(db.posts, feedID, postIDs, j);
    }
    assert postIDs[..|postIDs|] == postIDs;
  }

  /** The innermost loop: the colours of the set, in whatever order it yields them. */
  method FlagStatusOfPost(db: Database, markFlagged: bool, colors: set<FlagColor>, postID: UInt64)
    modifies db`flags
    ensures forall row :: db.flags[row] == if row.postID == postID && row.flagID in FlagIDs(colors, markFlagged)
                                           then Count(markFlagged) else old(db.flags)[row]
  {
    ghost var start := db.flags;
    var rest := colors;
    while rest != {}
      invariant rest <= colors
      invariant forall row :: db.flags[row] == if row.postID == postID && row.flagID in FlagIDs(colors - rest, markFlagged)
                                               then Count(markFlagged) else start[row]
      decreases rest
    {
      var c :| c in rest;
      if markFlagged {
        PostLocal.MarkFlagged(db, postID, c);
      } else {
        PostLocal.MarkUnflagged(db, postID, c);
      }
      FlagIDsAdd(colors - rest, c, markFlagged);
      assert colors - (rest - {c}) == (colors - rest) + {c};
      rest := rest - {c};
    }
    assert colors - rest == colors;
  }

  /** Seen through a post: flagging adds the colours (Gray aside) to a listed post, unflagging removes them; other posts keep theirs. */
  lemma FlagStatusColors(flags: multiset<FlagRow>, targets: set<UInt64>, colors: set<FlagColor>, markFlagged: bool, p: UInt64)
    ensures var r := Recount(flags, FlagRows(targets, colors, markFlagged), Count(markFlagged));
      PostLocal.ColorsOf(r, p) == if p !in targets then PostLocal.ColorsOf(flags, p)
                                else if markFlagged then PostLocal.ColorsOf(flags, p) + (colors - {Gray})
                                else PostLocal.ColorsOf(flags, p) - colors
  {
    forall c, d ensures PostLocal.FlagID(c) == PostLocal.FlagID(d) ==> c == d {
      IdForFlagColorInjective(c, d);
    }
  }

  // ---------------------------------------------------------------- assignPostsToScriptFolder

  /** The membership rows of the script folder for the posts `targets`. */
  function MembershipRows(scriptFolderID: UInt64, targets: set<UInt64>): (r: set<MembershipRow>)
    ensures forall row :: row in r <==> row.scriptFolderID == scriptFolderID && row.postID in targets
  {
    set p | p in targets :: MembershipRow(scriptFolderID, p)
  }

  /**
   * `assignPostsToScriptFolder`: nothing happens unless the script folder
   * exists; otherwise each listed post ends up a member exactly once
   * (assigning) or not at all (unassigning), and other rows keep their
   * count.
   */
  method AssignPostsToScriptFolder(db: Database, scriptFolderID: UInt64, assign: bool, pairs: seq<(UInt64, UInt64)>)
    modifies db`memberships
    ensures scriptFolderID !in db.scriptFolders ==> db.memberships == old(db.memberships)
    ensures scriptFolderID in db.scriptFolders ==>
      db.memberships == Recount(old(db.memberships), MembershipRows(scriptFolderID, Listed(db.posts, pairs)), Count(assign))
  {
    if scriptFolderID !in db.scriptFolders {
      return;
    }
    ghost var start := db.memberships;
    var groups := RemapFeedPostTuplesToMap(pairs);
    var feedIDs := groups.Keys;
    while feedIDs != {}
      invariant feedIDs <= groups.Keys
      invariant forall row :: db.memberships[row] == if row.scriptFolderID == scriptFolderID && row.postID in ListedUnder(db.posts, groups, groups.Keys - feedIDs)
                                                     then Count(assign) else start[row]
      decreases feedIDs
    {
      var feedID :| feedID in feedIDs;
      MembershipOfFeed(db, scriptFolderID, assign, feedID, groups[feedID]);
      ListedUnderStep(db.posts, groups, groups.Keys - feedIDs, feedID);
      assert groups.Keys - (feedIDs - {feedID}) == (groups.Keys - feedIDs) + {feedID};
      feedIDs := feedIDs - {feedID};
    }
    assert groups.Keys - feedIDs == groups.Keys;
    ListedUnderAll(db.posts, pairs);
    assert forall row :: db.memberships[row] == Recount(start, MembershipRows(scriptFolderID, Listed(db.posts, pairs)), Count(assign))[row];
  }

  /** The feed's posts among `postIDs`, one by one. */
  method MembershipOfFeed(db: Database, scriptFolderID: UInt64, assign: bool, feedID: UInt64, postIDs: seq<UInt64>)
    modifies db`memberships
    ensures forall row :: db.memberships[row] == if row.scriptFolderID == scriptFolderID && row.postID in InFeed(db.posts, feedID, postIDs)
                                                 then Count(assign) else old(db.memberships)[row]
  {
    ghost var start := db.memberships;
    for j := 0 to |postIDs|
      invariant forall row :: db.memberships[row] == if row.scriptFolderID == scriptFolderID && row.postID in InFeed(db.posts, feedID, postIDs[..j])
                                                     then Count(assign) else start[row]
    {
      var postID := postIDs[j];
      var post := FeedLocal.GetPost(db, feedID, postID);
      if post.Some? {
        if assign {
          PostLocal.AssignToScriptFolder(db, postID, scriptFolderID);
        } else {
          PostLocal.UnassignFromScriptFolder(db, postID, scriptFolderID);
        }
      }
      InFeedSnoc(db.posts, feedID, postIDs, j);
    }
    assert postIDs[..|postIDs|] == postIDs;
  }

  // ---------------------------------------------------------------- markAsRead

  /** The `WHERE` terms of `markAsRead(maxPostID)`: the largest value means no clause at all. */
  function MarkAsReadConditions(maxPostID: UInt64): seq<PostCondition>
  {
    if maxPostID == UINT64_MAX then [] else [IDAtMost(maxPostID)]
  }

  method MarkAsRead(db: Database, maxPostID: UInt64)
    modifies db`posts
    ensures db.posts == PostLocal.WithIsRead(old(db.posts), true, Matching(old(db.posts), MarkAsReadConditions(maxPostID), db.flags, db.memberships))
  {
    if maxPostID == UINT64_MAX {
      PostLocal.UpdateIsRead(db, true, []);
    } else {
      PostLocal.UpdateIsRead(db, true, [IDAtMost(maxPostID)]);
    }
  }

  /**
   * The posts marked are those with an id up to `maxPostID`, in every feed,
   * compared as signed 64-bit integers; for the largest value that is every
   * post. Among ids up to `INT64_MAX`, a bound up to `INT64_MAX` selects
   * those up to it, and any other bound but the largest selects none.
   */
  lemma MarkAsReadSelects(posts: map<UInt64, PostRow>, flags: multiset<FlagRow>, memberships: multiset<MembershipRow>, maxPostID: UInt64)
    ensures Matching(posts, MarkAsReadConditions(maxPostID), flags, memberships)
      == set p | p in posts && (maxPostID == UINT64_MAX || Signed(p) <= Signed(maxPostID))
    ensures maxPostID == UINT64_MAX ==> Matching(posts, MarkAsReadConditions(maxPostID), flags, memberships) == posts.Keys
    ensures maxPostID <= INT64_MAX ==> forall p :: p in posts && p <= INT64_MAX ==>
      (p in Matching(posts, MarkAsReadConditions(maxPostID), flags, memberships) <==> p <= maxPostID)
    ensures INT64_MAX < maxPostID < UINT64_MAX ==> forall p :: p in posts && p <= INT64_MAX ==>
      p !in Matching(posts, MarkAsReadConditions(maxPostID), flags, memberships)
  {
    var cs := MarkAsReadConditions(maxPostID);
    forall p | p in posts
      ensures SatisfiesAll(cs, p, posts[p], flags, memberships) <==> (maxPostID == UINT64_MAX || Signed(p) <= Signed(maxPostID))
    {
      if maxPostID != UINT64_MAX {
        SatisfiesAllSingle(IDAtMost(maxPostID), p, posts[p], flags, memberships);
      }
    }
  }

  // ---------------------------------------------------------------- getUnreadCounts

  /** The unread posts of a feed. */
  function UnreadOf(posts: map<UInt64, PostRow>, feedID: UInt64): (r: set<UInt64>)
    ensures forall p :: p in r <==> p in posts && posts[p].feedID == feedID && !posts[p].isRead
  {
    set p | p in posts && posts[p].feedID == feedID && !posts[p].isRead
  }

  /** The groups of `... WHERE posts.isRead=FALSE GROUP BY posts.feedID`: the feeds with an unread post. */
  function UnreadFeeds(posts: map<UInt64, PostRow>): (r: set<UInt64>)
    ensures forall f :: f in r <==> exists p :: p in posts && posts[p].feedID == f && !posts[p].isRead
  {
    set p | p in posts && !posts[p].isRead :: posts[p].feedID
  }

  /** `getUnreadCounts`: one entry per result row of the grouped count. */
  method GetUnreadCounts(db: Database) returns (r: map<UInt64, nat>)
    ensures r.Keys == UnreadFeeds(db.posts)
    ensures forall f :: f in r ==> r[f] == |UnreadOf(db.posts, f)|
  {
    r := map[];
    var groups := UnreadFeeds(db.posts);
    while groups != {}
      invariant groups <= UnreadFeeds(db.posts)
      invariant r.Keys == UnreadFeeds(db.posts) - groups
      invariant forall f :: f in r ==> r[f] == |UnreadOf(db.posts, f)|
      decreases groups
    {
      var feedID :| feedID in groups;
      r := r[feedID := |UnreadOf(db.posts, feedID)|];
      groups := groups - {feedID};
    }
  }

  /** A feed is in the counts exactly when it has an unread post, and then its count is at least one. */
  lemma UnreadCountsPositive(posts: map<UInt64, PostRow>, feedID: UInt64)
    requires feedID in UnreadFeeds(posts)
    ensures |UnreadOf(posts, feedID)| >= 1
  {
    var p :| p in posts && posts[p].feedID == feedID && !posts[p].isRead;
    assert p in UnreadOf(posts, feedID);
  }

  /** Across all feeds the counts add up to the number of unread posts. */
  lemma UnreadSplits(posts: map<UInt64, PostRow>, feedID: UInt64)
    ensures UnreadOf(posts, feedID) !! (set p | p in posts && !posts[p].isRead && posts[p].feedID != feedID)
    ensures UnreadOf(posts, feedID) + (set p | p in posts && !posts[p].isRead && posts[p].feedID != feedID)
         == set p | p in posts && !posts[p].isRead
  {
  }

  // ---------------------------------------------------------------- importOPML

  /** The folders and feeds after an import, and its result: the new feeds' ids, or the error that stopped it. */
  datatype Imported = Imported(folders: map<UInt64, FolderRow>, feeds: map<UInt64, FeedRow>, feedIDs: Result<set<UInt64>>)

  /** `ids` joined to the ids an import returns. */
  function WithIDs(ids: set<UInt64>, r: Imported): Imported
  {
    match r.feedIDs
    case Ok(more) => r.(feedIDs := Ok(ids + more))
    case Err(e) => r
  }

  lemma WithNoIDs(r: Imported)
    ensures WithIDs({}, r) == r
  {
    if r.feedIDs.Ok? {
      assert {} + r.feedIDs.value == r.feedIDs.value;
    }
  }

  /** A `createFolderHierarchy`: from the folders table, a parent and a path, to the new table and the answer. */
  type Placer = (map<UInt64, FolderRow>, UInt64, seq<string>) -> FolderLocal.Placement

  /** One answer `h` only adds folders, and none at all below an unknown non-root parent, which answers 0. */
  ghost predicate GrowsOnly(folders: map<UInt64, FolderRow>, parentFolderID: UInt64, h: FolderLocal.Placement)
  {
    && FolderLocal.Grows(folders, h.folders)
    && (parentFolderID != 0 && parentFolderID !in folders ==> h == FolderLocal.Placement(folders, Ok(0)))
  }

  /**
   * What the import relies on from one answer `h`: it grows only, and the
   * answer lies where `EndsPath` says; as intended it is the folder the
   * path leads to, and as written a root call with no titles throws.
   */
  ghost predicate PlacedWell(folders: map<UInt64, FolderRow>, parentFolderID: UInt64, path: seq<string>,
                             h: FolderLocal.Placement, asWritten: bool)
  {
    && GrowsOnly(folders, parentFolderID, h)
    && (h.id.Ok? ==> FolderLocal.EndsPath(h.folders, parentFolderID, path, h.id.value))
    && (h.id.Ok? && !asWritten && (parentFolderID == 0 || parentFolderID in folders) ==>
          FolderLocal.Located(h.folders, parentFolderID, path) == Some(h.id.value))
    && (asWritten && parentFolderID == 0 && path == [] ==> h == FolderLocal.Placement(folders, Err(FolderLocal.NullDereference)))
  }

  ghost predicate Places(place: Placer, asWritten: bool)
  {
    forall folders, parentFolderID, path :: PlacedWell(folders, parentFolderID, path, place(folders, parentFolderID, path), asWritten)
  }

  ghost predicate PlacesGrowing(place: Placer)
  {
    forall folders, parentFolderID, path :: GrowsOnly(folders, parentFolderID, place(folders, parentFolderID, path))
  }

  lemma PlacesGrow(place: Placer, asWritten: bool)
    requires Places(place, asWritten)
    ensures PlacesGrowing(place)
  {
    forall folders, parentFolderID, path
      ensures GrowsOnly(folders, parentFolderID, place(folders, parentFolderID, path))
    {
      assert PlacedWell(folders, parentFolderID, path, place(folders, parentFolderID, path), asWritten);
    }
  }

  /** The intended `createFolderHierarchy` answers as the import relies on. */
  lemma IntendedPlaces()
    ensures Places(FolderLocal.Hierarchy, false)
  {
    forall folders, parentFolderID, path
      ensures PlacedWell(folders, parentFolderID, path, FolderLocal.Hierarchy(folders, parentFolderID, path), false)
    {
      FolderLocal.HierarchyPlaces(folders, parentFolderID, path);
      FolderLocal.HierarchyEndsPath(folders, parentFolderID, path);
    }
  }

  /** So does the one as written, throwing on a root call with no titles. */
  lemma AsWrittenPlaces()
    ensures Places(FolderLocal.HierarchyAsWritten, true)
  {
    forall folders, parentFolderID, path
      ensures PlacedWell(folders, parentFolderID, path, FolderLocal.HierarchyAsWritten(folders, parentFolderID, path), true)
    {
      FolderLocal.HierarchyAsWrittenPlaces(folders, parentFolderID, path);
    }
  }

  /**
   * One entry: find or create its folder path below `parentFolderID`, then
   * add a feed there whose title is its url. A failed feed insert is
   * swallowed (`addFeed` logs it and yields no feed); a failed folder
   * insert, or the as-written null dereference, is the error. `place` is
   * the `createFolderHierarchy` the import calls.
   */
  ghost function ImportOne(folders: map<UInt64, FolderRow>, feeds: map<UInt64, FeedRow>, parentFolderID: UInt64,
                           e: OPML.Entry, now: string, place: Placer): Imported
  {
    var h := place(folders, parentFolderID, e.folderHierarchy);
    match h.id
    case Err(error) => Imported(h.folders, feeds, Err(error))
    case Ok(subfolderID) =>
      var added := FeedLocal.Created(feeds, e.url, e.url, subfolderID, now);
      Imported(h.folders, added.feeds, Ok(if added.id.Some? then {added.id.value} else {}))
  }

  /** The entries imported in order; the first error ends the import, keeping what was done. */
  ghost function ImportEntries(folders: map<UInt64, FolderRow>, feeds: map<UInt64, FeedRow>, parentFolderID: UInt64,
                               entries: seq<OPML.Entry>, now: string, place: Placer): Imported
    decreases |entries|
  {
    if entries == [] then Imported(folders, feeds, Ok({}))
    else
      var one := ImportOne(folders, feeds, parentFolderID, entries[0], now, place);
      if one.feedIDs.Err? then one
      else WithIDs(one.feedIDs.value, ImportEntries(one.folders, one.feeds, parentFolderID, entries[1..], now, place))
  }

  lemma WithIDsTwice(a: set<UInt64>, b: set<UInt64>, r: Imported)
    ensures WithIDs(a, WithIDs(b, r)) == WithIDs(a + b, r)
  {
    if r.feedIDs.Ok? {
      assert a + (b + r.feedIDs.value) == a + b + r.feedIDs.value;
    }
  }

  /**
   * `importOPML`: a document the XML parser rejects (`None`) imports
   * nothing; otherwise the entries the OPML handler extracts are imported,
   * through the corrected `createFolderHierarchy`.
   */
  method ImportOPML(db: Database, document: Option<seq<Xml.SaxEvent>>, parentFolderID: UInt64, now: string)
    returns (r: Result<set<UInt64>>)
    modifies db`folders, db`feeds
    ensures document.None? ==> r == Ok({}) && db.folders == old(db.folders) && db.feeds == old(db.feeds)
    ensures document.Some? ==>
      Imported(db.folders, db.feeds, r) == ImportEntries(old(db.folders), old(db.feeds), parentFolderID, OPML.Run(OPML.Initial, document.value).entries, now, FolderLocal.Hierarchy)
  {
    if document.None? {
      return Ok({});
    }
    var entries := OPML.Parse(document.value);
    ghost var goal := ImportEntries(db.folders, db.feeds, parentFolderID, entries, now, FolderLocal.Hierarchy);
    var feedIDs: set<UInt64> := {};
    assert entries[0..] == entries;
    WithNoIDs(goal);
    for i := 0 to |entries|
      invariant WithIDs(feedIDs, ImportEntries(db.folders, db.feeds, parentFolderID, entries[i..], now, FolderLocal.Hierarchy)) == goal
    {
      assert entries[i..][1..] == entries[i + 1..];
      var one := ImportEntry(db, parentFolderID, entries[i], now);
      if one.Err? {
        return Err(one.error);
      }
      WithIDsTwice(feedIDs, one.value, ImportEntries(db.folders, db.feeds, parentFolderID, entries[i + 1..], now, FolderLocal.Hierarchy));
      feedIDs := feedIDs + one.value;
    }
    r := Ok(feedIDs);
  }

  /** The body of the import loop, with the corrected `createFolderHierarchy`. */
  method ImportEntry(db: Database, parentFolderID: UInt64, e: OPML.Entry, now: string) returns (r: Result<set<UInt64>>)
    modifies db`folders, db`feeds
    ensures Imported(db.folders, db.feeds, r) == ImportOne(old(db.folders), old(db.feeds), parentFolderID, e, now, FolderLocal.Hierarchy)
  {
    var subfolderID := FolderLocal.CreateFolderHierarchy(db, parentFolderID, e.folderHierarchy);
    if subfolderID.Err? {
      return Err(subfolderID.error);
    }
    var feed := FeedLocal.Create(db, e.url, e.url, subfolderID.value, now);
    r := Ok(if feed.Some? then {feed.value} else {});
  }

  /**
   * The feed an import added for an entry: its url (also its title), in a
   * folder where `createFolderHierarchy` may answer for the entry's path
   * and, as intended, the very folder that path leads to.
   */
  ghost predicate AddedFor(folders: map<UInt64, FolderRow>, feeds: map<UInt64, FeedRow>, parentFolderID: UInt64,
                           id: UInt64, e: OPML.Entry, asWritten: bool)
  {
    && id in feeds
    && feeds[id].url == e.url && feeds[id].meta.title == e.url
    && FolderLocal.EndsPath(folders, parentFolderID, e.folderHierarchy, feeds[id].folder)
    && (!asWritten && (parentFolderID == 0 || parentFolderID in folders) ==>
          FolderLocal.Located(folders, parentFolderID, e.folderHierarchy) == Some(feeds[id].folder))
  }

  /**
   * What one entry does: it only adds folders and feeds, and the feed it
   * adds is where `AddedFor` says; as written, a top-level entry imported
   * at the root throws and adds nothing.
   */
  lemma ImportOneAdds(folders: map<UInt64, FolderRow>, feeds: map<UInt64, FeedRow>, parentFolderID: UInt64, e: OPML.Entry,
                      now: string, place: Placer, asWritten: bool)
    requires Places(place, asWritten)
    ensures var r := ImportOne(folders, feeds, parentFolderID, e, now, place);
      r.feedIDs.Ok? ==> forall id :: id in r.feedIDs.value ==> id !in feeds && AddedFor(r.folders, r.feeds, parentFolderID, id, e, asWritten)
    ensures asWritten && parentFolderID == 0 && e.folderHierarchy == [] ==>
      ImportOne(folders, feeds, parentFolderID, e, now, place) == Imported(folders, feeds, Err(FolderLocal.NullDereference))
  {
    var h := place(folders, parentFolderID, e.folderHierarchy);
    assert PlacedWell(folders, parentFolderID, e.folderHierarchy, h, asWritten);
    if h.id.Ok? {
      FeedLocal.CreatedFeed(feeds, e.url, e.url, h.id.value, now);
    }
  }

  /** What one entry leaves of the folders: they only grow, and not at all below an unknown parent. */
  lemma ImportOneGrows(folders: map<UInt64, FolderRow>, feeds: map<UInt64, FeedRow>, parentFolderID: UInt64, e: OPML.Entry,
                       now: string, place: Placer)
    requires PlacesGrowing(place)
    ensures var r := ImportOne(folders, feeds, parentFolderID, e, now, place);
      && FolderLocal.Grows(folders, r.folders)
      && (parentFolderID != 0 && parentFolderID !in folders ==> r.folders == folders)
  {
    assert GrowsOnly(folders, parentFolderID, place(folders, parentFolderID, e.folderHierarchy));
  }

  /** What one entry leaves of the feeds: every row keeps its id and contents. */
  lemma ImportOneKeepsFeeds(folders: map<UInt64, FolderRow>, feeds: map<UInt64, FeedRow>, parentFolderID: UInt64, e: OPML.Entry,
                            now: string, place: Placer)
    ensures var r := ImportOne(folders, feeds, parentFolderID, e, now, place);
      forall k :: k in feeds ==> k in r.feeds && r.feeds[k] == feeds[k]
  {
    var h := place(folders, parentFolderID, e.folderHierarchy);
    if h.id.Ok? {
      FeedLocal.CreatedFeed(feeds, e.url, e.url, h.id.value, now);
    }
  }

  /** A feed added for an entry stays so while the import goes on adding. */
  lemma AddedForStable(folders: map<UInt64, FolderRow>, feeds: map<UInt64, FeedRow>,
                       folders': map<UInt64, FolderRow>, feeds': map<UInt64, FeedRow>,
                       parentFolderID: UInt64, id: UInt64, e: OPML.Entry, asWritten: bool)
    requires AddedFor(folders, feeds, parentFolderID, id, e, asWritten)
    requires FolderLocal.Grows(folders, folders')
    requires parentFolderID != 0 && parentFolderID !in folders ==> folders' == folders
    requires forall k :: k in feeds ==> k in feeds' && feeds'[k] == feeds[k]
    ensures AddedFor(folders', feeds', parentFolderID, id, e, asWritten)
  {
    if parentFolderID == 0 || parentFolderID in folders {
      if !asWritten {
        FolderLocal.LocatedStable(folders, folders', parentFolderID, e.folderHierarchy);
      }
      if e.folderHierarchy != [] {
        assert feeds[id].folder in folders;
      }
    }
  }

  /**
   * An import only adds: existing folders and feeds are left as they were,
   * and every returned id is a new feed made for one of the entries, where
   * `AddedFor` says.
   */
  lemma ImportAdds(folders: map<UInt64, FolderRow>, feeds: map<UInt64, FeedRow>, parentFolderID: UInt64,
                   entries: seq<OPML.Entry>, now: string, place: Placer, asWritten: bool)
    requires Places(place, asWritten)
    ensures var r := ImportEntries(folders, feeds, parentFolderID, entries, now, place);
      && FolderLocal.Grows(folders, r.folders)
      && (parentFolderID != 0 && parentFolderID !in folders ==> r.folders == folders)
      && (forall k :: k in feeds ==> k in r.feeds && r.feeds[k] == feeds[k])
      && (r.feedIDs.Ok? ==> forall id :: id in r.feedIDs.value ==>
            id !in feeds && exists i :: 0 <= i < |entries| && AddedFor(r.folders, r.feeds, parentFolderID, id, entries[i], asWritten))
  {
    PlacesGrow(place, asWritten);
    ImportGrows(folders, feeds, parentFolderID, entries, now, place);
    if parentFolderID != 0 && parentFolderID !in folders {
      ImportUnknownParent(folders, feeds, parentFolderID, entries, now, place);
    }
    ImportKeepsFeeds(folders, feeds, parentFolderID, entries, now, place);
    ImportAddsIDs(folders, feeds, parentFolderID, entries, now, place, asWritten);
  }

  /** The folders an import leaves: they only grow. */
  lemma {:induction false} ImportGrows(folders: map<UInt64, FolderRow>, feeds: map<UInt64, FeedRow>, parentFolderID: UInt64,
                                       entries: seq<OPML.Entry>, now: string, place: Placer)
    requires PlacesGrowing(place)
    ensures FolderLocal.Grows(folders, ImportEntries(folders, feeds, parentFolderID, entries, now, place).folders)
    decreases |entries|
  {
    if entries == [] {
      assert FolderLocal.Grows(folders, folders);
    } else {
      var one := ImportOne(folders, feeds, parentFolderID, entries[0], now, place);
      ImportOneGrows(folders, feeds, parentFolderID, entries[0], now, place);
      if one.feedIDs.Ok? {
        var rest := ImportEntries(one.folders, one.feeds, parentFolderID, entries[1..], now, place);
        ImportGrows(one.folders, one.feeds, parentFolderID, entries[1..], now, place);
        FolderLocal.GrowsTransitive(folders, one.folders, rest.folders);
      }
    }
  }

  /** Below an unknown parent an import leaves the folders as they were. */
  lemma {:induction false} ImportUnknownParent(folders: map<UInt64, FolderRow>, feeds: map<UInt64, FeedRow>, parentFolderID: UInt64,
                                               entries: seq<OPML.Entry>, now: string, place: Placer)
    requires PlacesGrowing(place)
    requires parentFolderID != 0 && parentFolderID !in folders
    ensures ImportEntries(folders, feeds, parentFolderID, entries, now, place).folders == folders
    decreases |entries|
  {
    if entries != [] {
      var one := ImportOne(folders, feeds, parentFolderID, entries[0], now, place);
      ImportOneGrows(folders, feeds, parentFolderID, entries[0], now, place);
      if one.feedIDs.Ok? {
        ImportUnknownParent(one.folders, one.feeds, parentFolderID, entries[1..], now, place);
      }
    }
  }

  /** The feeds an import leaves: every row it found keeps its id and contents. */
  lemma {:induction false} ImportKeepsFeeds(folders: map<UInt64, FolderRow>, feeds: map<UInt64, FeedRow>, parentFolderID: UInt64,
                                            entries: seq<OPML.Entry>, now: string, place: Placer)
    ensures var r := ImportEntries(folders, feeds, parentFolderID, entries, now, place);
      forall k :: k in feeds ==> k in r.feeds && r.feeds[k] == feeds[k]
    decreases |entries|
  {
    if entries != [] {
      var one := ImportOne(folders, feeds, parentFolderID, entries[0], now, place);
      ImportOneKeepsFeeds(folders, feeds, parentFolderID, entries[0], now, place);
      if one.feedIDs.Ok? {
        ImportKeepsFeeds(one.folders, one.feeds, parentFolderID, entries[1..], now, place);
      }
    }
  }

  /** The ids an import returns: each is a new feed made for one of the entries. */
  lemma {:induction false} ImportAddsIDs(folders: map<UInt64, FolderRow>, feeds: map<UInt64, FeedRow>, parentFolderID: UInt64,
                                         entries: seq<OPML.Entry>, now: string, place: Placer, asWritten: bool)
    requires Places(place, asWritten)
    ensures var r := ImportEntries(folders, feeds, parentFolderID, entries, now, place);
      r.feedIDs.Ok? ==> forall id :: id in r.feedIDs.value ==>
        id !in feeds && exists i :: 0 <= i < |entries| && AddedFor(r.folders, r.feeds, parentFolderID, id, entries[i], asWritten)
    decreases |entries|
  {
    if entries != [] {
      var one := ImportOne(folders, feeds, parentFolderID, entries[0], now, place);
      PlacesGrow(place, asWritten);
      ImportOneGrows(folders, feeds, parentFolderID, entries[0], now, place);
      ImportOneKeepsFeeds(folders, feeds, parentFolderID, entries[0], now, place);
      ImportOneAdds(folders, feeds, parentFolderID, entries[0], now, place, asWritten);
      if one.feedIDs.Ok? {
        var rest := ImportEntries(one.folders, one.feeds, parentFolderID, entries[1..], now, place);
        ImportGrows(one.folders, one.feeds, parentFolderID, entries[1..], now, place);
        if parentFolderID != 0 && parentFolderID !in one.folders {
          ImportUnknownParent(one.folders, one.feeds, parentFolderID, entries[1..], now, place);
        }
        ImportKeepsFeeds(one.folders, one.feeds, parentFolderID, entries[1..], now, place);
        ImportAddsIDs(one.folders, one.feeds, parentFolderID, entries[1..], now, place, asWritten);
        if rest.feedIDs.Ok? {
          AddedForJoin(feeds, parentFolderID, entries, asWritten, one, rest);
        }
      }
    }
  }

  /** The ids of the first entry and of the rest, joined: each is a new feed made for one of the entries. */
  lemma AddedForJoin(feeds: map<UInt64, FeedRow>, parentFolderID: UInt64, entries: seq<OPML.Entry>, asWritten: bool,
                     one: Imported, rest: Imported)
    requires entries != [] && one.feedIDs.Ok? && rest.feedIDs.Ok?
    requires forall k :: k in feeds ==> k in one.feeds
    requires forall id :: id in one.feedIDs.value ==> id !in feeds && AddedFor(one.folders, one.feeds, parentFolderID, id, entries[0], asWritten)
    requires FolderLocal.Grows(one.folders, rest.folders)
    requires parentFolderID != 0 && parentFolderID !in one.folders ==> rest.folders == one.folders
    requires forall k :: k in one.feeds ==> k in rest.feeds && rest.feeds[k] == one.feeds[k]
    requires forall id :: id in rest.feedIDs.value ==>
      id !in one.feeds && exists i :: 0 <= i < |entries[1..]| && AddedFor(rest.folders, rest.feeds, parentFolderID, id, entries[1..][i], asWritten)
    ensures forall id :: id in one.feedIDs.value + rest.feedIDs.value ==>
      id !in feeds && exists i :: 0 <= i < |entries| && AddedFor(rest.folders, rest.feeds, parentFolderID, id, entries[i], asWritten)
  {
    forall id | id in one.feedIDs.value + rest.feedIDs.value
      ensures id !in feeds && exists i :: 0 <= i < |entries| && AddedFor(rest.folders, rest.feeds, parentFolderID, id, entries[i], asWritten)
    {
      if id in rest.feedIDs.value {
        var i :| 0 <= i < |entries[1..]| && AddedFor(rest.folders, rest.feeds, parentFolderID, id, entries[1..][i], asWritten);
        assert entries[1..][i] == entries[i + 1];
      } else {
        AddedForStable(one.folders, one.feeds, rest.folders, rest.feeds, parentFolderID, id, entries[0], asWritten);
      }
    }
  }

  /** Two entries imported in turn: where neither throws, the folders are those the second leaves. */
  lemma ImportPair(folders: map<UInt64, FolderRow>, feeds: map<UInt64, FeedRow>, parentFolderID: UInt64,
                   e1: OPML.Entry, e2: OPML.Entry, now: string, place: Placer)
    ensures var one := ImportOne(folders, feeds, parentFolderID, e1, now, place);
      var two := ImportOne(one.folders, one.feeds, parentFolderID, e2, now, place);
      one.feedIDs.Ok? && two.feedIDs.Ok? ==> ImportEntries(folders, feeds, parentFolderID, [e1, e2], now, place).folders == two.folders
  {
    var one := ImportOne(folders, feeds, parentFolderID, e1, now, place);
    var two := ImportOne(one.folders, one.feeds, parentFolderID, e2, now, place);
    if one.feedIDs.Ok? && two.feedIDs.Ok? {
      assert [e1, e2][1..] == [e2] && [e2][1..] == [];
      assert ImportEntries(one.folders, one.feeds, parentFolderID, [e2], now, place).folders == two.folders;
    }
  }

  /**
   * Two feeds filed under a/b, imported at the root of an empty table: as
   * written the second entry gets a second b below a, as intended both
   * land in the same b.
   */
  lemma ImportTwiceUnderAB(u1: string, u2: string, now: string)
    ensures var entries := [OPML.Entry(u1, u1, ["a", "b"]), OPML.Entry(u2, u2, ["a", "b"])];
      && ImportEntries(map[], map[], 0, entries, now, FolderLocal.HierarchyAsWritten).folders
           == FolderLocal.AWithB[3 := FolderRow(1, "b", 20)]
      && ImportEntries(map[], map[], 0, entries, now, FolderLocal.Hierarchy).folders == FolderLocal.AWithB
  {
    var e1, e2 := OPML.Entry(u1, u1, ["a", "b"]), OPML.Entry(u2, u2, ["a", "b"]);
    FolderLocal.FirstImport();
    FolderLocal.SecondImportAsWritten();
    FolderLocal.HierarchyReimport();
    ImportPair(map[], map[], 0, e1, e2, now, FolderLocal.HierarchyAsWritten);
    ImportPair(map[], map[], 0, e1, e2, now, FolderLocal.Hierarchy);
  }

  /**
   * A top-level entry (no folder titles) imported at the root: as written
   * the import throws and adds nothing; as intended its feed, if one could
   * be added, is filed at the root.
   */
  lemma ImportTopLevelAtRoot(folders: map<UInt64, FolderRow>, feeds: map<UInt64, FeedRow>, title: string, url: string, now: string)
    ensures ImportEntries(folders, feeds, 0, [OPML.Entry(title, url, [])], now, FolderLocal.HierarchyAsWritten)
      == Imported(folders, feeds, Err(FolderLocal.NullDereference))
    ensures var r := ImportEntries(folders, feeds, 0, [OPML.Entry(title, url, [])], now, FolderLocal.Hierarchy);
      r.feedIDs.Ok? && forall id :: id in r.feedIDs.value ==> id in r.feeds && r.feeds[id].folder == 0
  {
    var e := OPML.Entry(title, url, []);
    AsWrittenPlaces();
    ImportOneAdds(folders, feeds, 0, e, now, FolderLocal.HierarchyAsWritten, true);
    IntendedPlaces();
    ImportOneAdds(folders, feeds, 0, e, now, FolderLocal.Hierarchy, false);
    FolderLocal.HierarchyAsWrittenEmptyPath(folders);
    assert [e][1..] == [];
  }
}
