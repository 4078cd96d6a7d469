/**
 * `local/FolderLocal.cpp`: the folder tree of the local source, stored as
 * the rows of `folders` that name their parent. The walk that collects a
 * folder's subtree, the feeds in it, read marking and removal of a whole
 * subtree, the sortOrder bookkeeping of sibling folders, and the lookup
 * that finds or creates a path of folders.
 */
module FolderLocal {
  import opened Wrappers
  import opened Strings
  import opened Ordering
  import opened Store
  import PostLocal

  const M: nat := 0x1_0000_0000_0000_0000

  // ---------------------------------------------------------------- the subtree walk

  /** The children of `parent`, each ranked 0: a query without `ORDER BY` lists them by ascending id (the rowid order of a table scan). */
  function ChildRanks(folders: map<UInt64, FolderRow>, parent: UInt64): (ranks: map<UInt64, nat>)
    ensures forall id :: id in ranks <==> id in folders && folders[id].parent == parent
    ensures forall id :: id in ranks ==> ranks[id] == 0
  {
    map id | id in folders && folders[id].parent == parent :: 0
  }

  /** `SELECT id FROM folders WHERE parent=?`, in the order it yields the rows. */
  ghost function Children(folders: map<UInt64, FolderRow>, parent: UInt64): seq<UInt64>
  {
    RankOrder(ChildRanks(folders, parent))
  }

  lemma ChildrenContents(folders: map<UInt64, FolderRow>, parent: UInt64)
    ensures forall id :: id in Children(folders, parent) <==> id in folders && folders[id].parent == parent
  {
    RankOrderContents(ChildRanks(folders, parent));
  }

  /** The children of every folder, in the order the walk visits them. */
  ghost function ChildrenOf(folders: map<UInt64, FolderRow>): UInt64 -> seq<UInt64>
  {
    p => Children(folders, p)
  }

  /** `kids` lists, for every id, exactly the stored folders whose parent it is. */
  ghost predicate ListsChildren(folders: map<UInt64, FolderRow>, kids: UInt64 -> seq<UInt64>)
  {
    forall p, c :: c in kids(p) <==> c in folders && folders[c].parent == p
  }

  lemma ChildrenOfLists(folders: map<UInt64, FolderRow>)
    ensures ListsChildren(folders, ChildrenOf(folders))
  {
    forall p ensures forall c :: c in ChildrenOf(folders)(p) <==> c in folders && folders[c].parent == p {
      ChildrenContents(folders, p);
    }
  }

  /**
   * The walk of `folderAndSubfolderIDs` from `id`, visiting the children
   * `kids` gives: the folder itself, then the walk from each child in turn.
   * `fuel` bounds the depth: with a cycle among the parents the source
   * never returns.
   */
  ghost function Subtree(kids: UInt64 -> seq<UInt64>, id: UInt64, fuel: nat): (r: seq<UInt64>)
    ensures |r| > 0 && r[0] == id
    decreases fuel, 0, 0
  {
    if fuel == 0 then [id] else [id] + Forest(kids, kids(id), fuel - 1)
  }

  /** The walks from each of `roots`, one after the other. */
  ghost function Forest(kids: UInt64 -> seq<UInt64>, roots: seq<UInt64>, fuel: nat): seq<UInt64>
    decreases fuel, 1, |roots|
  {
    if roots == [] then [] else Forest(kids, roots[..|roots| - 1], fuel) + Subtree(kids, roots[|roots| - 1], fuel)
  }

  /** The depth the walk from a folder is given: deeper than any chain of distinct folders. */
  function Depth(folders: map<UInt64, FolderRow>): nat
  {
    |folders| + 1
  }

  /** `x` is `id` or a descendant of `id` at most `n` levels down. */
  ghost predicate Reaches(folders: map<UInt64, FolderRow>, id: UInt64, x: UInt64, n: nat)
    decreases n
  {
    x == id || (n > 0 && exists c :: c in folders && folders[c].parent == id && Reaches(folders, c, x, n - 1))
  }

  /** `x` is on the walk from one of `roots`. */
  ghost predicate OnSomeWalk(kids: UInt64 -> seq<UInt64>, roots: seq<UInt64>, fuel: nat, x: UInt64)
  {
    exists i :: 0 <= i < |roots| && x in Subtree(kids, roots[i], fuel)
  }

  lemma {:induction false} ForestMembers(kids: UInt64 -> seq<UInt64>, roots: seq<UInt64>, fuel: nat, x: UInt64)
    ensures x in Forest(kids, roots, fuel) <==> OnSomeWalk(kids, roots, fuel, x)
    decreases |roots|
  {
    if roots != [] {
      var front := roots[..|roots| - 1];
      var last := roots[|roots| - 1];
      assert Forest(kids, roots, fuel) == Forest(kids, front, fuel) + Subtree(kids, last, fuel);
      ForestMembers(kids, front, fuel, x);
      if OnSomeWalk(kids, front, fuel, x) {
        var i :| 0 <= i < |front| && x in Subtree(kids, front[i], fuel);
        assert roots[i] == front[i];
      }
      if x in Subtree(kids, last, fuel) {
        assert OnSomeWalk(kids, roots, fuel, x);
      }
      if OnSomeWalk(kids, roots, fuel, x) {
        var i :| 0 <= i < |roots| && x in Subtree(kids, roots[i], fuel);
        if i < |front| {
          assert front[i] == roots[i];
          assert OnSomeWalk(kids, front, fuel, x);
        }
      }
    }
  }

  /** The walk lists exactly the folder and its descendants down to the depth it is given. */
  lemma {:induction false} SubtreeMembers(folders: map<UInt64, FolderRow>, kids: UInt64 -> seq<UInt64>, id: UInt64, fuel: nat, x: UInt64)
    requires ListsChildren(folders, kids)
    ensures x in Subtree(kids, id, fuel) <==> Reaches(folders, id, x, fuel)
    decreases fuel
  {
    if fuel > 0 && x != id {
      var roots := kids(id);
      ForestMembers(kids, roots, fuel - 1, x);
      if x in Subtree(kids, id, fuel) {
        assert x in Forest(kids, roots, fuel - 1);
        var i :| 0 <= i < |roots| && x in Subtree(kids, roots[i], fuel - 1);
        SubtreeMembers(folders, kids, roots[i], fuel - 1, x);
        assert roots[i] in roots;
        assert roots[i] in folders && folders[roots[i]].parent == id && Reaches(folders, roots[i], x, fuel - 1);
      }
      if Reaches(folders, id, x, fuel) {
        var c :| c in folders && folders[c].parent == id && Reaches(folders, c, x, fuel - 1);
        SubtreeMembers(folders, kids, c, fuel - 1, x);
        assert c in roots;
        var i :| 0 <= i < |roots| && roots[i] == c;
        assert OnSomeWalk(kids, roots, fuel - 1, x);
        assert Subtree(kids, id, fuel) == [id] + Forest(kids, roots, fuel - 1);
      }
    }
  }

  /** Every entry of `s` is a stored folder whose parent is `p` or an entry before it. */
  ghost predicate ParentsFirst(folders: map<UInt64, FolderRow>, s: seq<UInt64>, p: UInt64)
  {
    forall i :: 0 <= i < |s| ==> s[i] in folders && (folders[s[i]].parent == p || folders[s[i]].parent in s[..i])
  }

  lemma ParentsFirstConcat(folders: map<UInt64, FolderRow>, a: seq<UInt64>, b: seq<UInt64>, p: UInt64)
    requires ParentsFirst(folders, a, p) && ParentsFirst(folders, b, p)
    ensures ParentsFirst(folders, a + b, p)
  {
    forall i | 0 <= i < |a + b|
      ensures (a + b)[i] in folders && (folders[(a + b)[i]].parent == p || folders[(a + b)[i]].parent in (a + b)[..i])
    {
      if i < |a| {
        assert (a + b)[i] == a[i] && (a + b)[..i] == a[..i];
      } else {
        assert (a + b)[i] == b[i - |a|];
        assert b[..i - |a|] == (a + b)[|a|..i];
        if folders[b[i - |a|]].parent in b[..i - |a|] {
          var j :| 0 <= j < i - |a| && b[..i - |a|][j] == folders[b[i - |a|]].parent;
          assert (a + b)[..i][|a| + j] == b[j];
        }
      }
    }
  }

  /** Under a first entry `id`, a list whose entries have parent `id` or an earlier entry keeps that property. */
  lemma ParentsFirstCons(folders: map<UInt64, FolderRow>, id: UInt64, rest: seq<UInt64>, p: UInt64)
    requires id in folders && folders[id].parent == p
    requires ParentsFirst(folders, rest, id)
    ensures ParentsFirst(folders, [id] + rest, p)
  {
    var s := [id] + rest;
    forall i | 0 <= i < |s| ensures s[i] in folders && (folders[s[i]].parent == p || folders[s[i]].parent in s[..i]) {
      if i > 0 {
        assert s[i] == rest[i - 1];
        assert s[..i] == [id] + rest[..i - 1];
        if folders[s[i]].parent in rest[..i - 1] {
          var j :| 0 <= j < i - 1 && rest[..i - 1][j] == folders[s[i]].parent;
          assert s[..i][j + 1] == rest[j];
        }
      }
    }
  }

  lemma {:induction false} ForestParentsFirst(folders: map<UInt64, FolderRow>, kids: UInt64 -> seq<UInt64>, p: UInt64, roots: seq<UInt64>, fuel: nat)
    requires ListsChildren(folders, kids)
    requires forall i :: 0 <= i < |roots| ==> roots[i] in folders && folders[roots[i]].parent == p
    ensures ParentsFirst(folders, Forest(kids, roots, fuel), p)
    decreases fuel, 1, |roots|
  {
    if roots != [] {
      var front := roots[..|roots| - 1];
      ForestParentsFirst(folders, kids, p, front, fuel);
      SubtreeParentsFirst(folders, kids, p, roots[|roots| - 1], fuel);
      ParentsFirstConcat(folders, Forest(kids, front, fuel), Subtree(kids, roots[|roots| - 1], fuel), p);
    }
  }

  lemma {:induction false} SubtreeParentsFirst(folders: map<UInt64, FolderRow>, kids: UInt64 -> seq<UInt64>, p: UInt64, id: UInt64, fuel: nat)
    requires ListsChildren(folders, kids)
    requires id in folders && folders[id].parent == p
    ensures ParentsFirst(folders, Subtree(kids, id, fuel), p)
    decreases fuel, 0, 0
  {
    if fuel > 0 {
      var roots := kids(id);
      assert forall i :: 0 <= i < |roots| ==> roots[i] in roots;
      ForestParentsFirst(folders, kids, id, roots, fuel - 1);
      ParentsFirstCons(folders, id, Forest(kids, roots, fuel - 1), p);
    } else {
      ParentsFirstCons(folders, id, [], p);
      assert [id] + [] == [id];
    }
  }

  lemma SubtreePreorder(folders: map<UInt64, FolderRow>, kids: UInt64 -> seq<UInt64>, id: UInt64, fuel: nat)
    requires ListsChildren(folders, kids)
    ensures var s := Subtree(kids, id, fuel);
      s[0] == id && ParentsFirst(folders, s[1..], id)
  {
    var s := Subtree(kids, id, fuel);
    if fuel > 0 {
      var roots := kids(id);
      assert forall i :: 0 <= i < |roots| ==> roots[i] in roots;
      ForestParentsFirst(folders, kids, id, roots, fuel - 1);
      assert s[1..] == Forest(kids, roots, fuel - 1);
    } else {
      assert s[1..] == [];
    }
  }

  /**
   * The walk is depth-first and pre-order: it starts at the folder, and
   * every folder it lists after that is a stored folder whose parent is
   * the start or listed earlier.
   */
  lemma WalkIsPreorder(folders: map<UInt64, FolderRow>, id: UInt64, fuel: nat)
    ensures var s := Subtree(ChildrenOf(folders), id, fuel);
      s[0] == id && ParentsFirst(folders, s[1..], id)
  {
    ChildrenOfLists(folders);
    SubtreePreorder(folders, ChildrenOf(folders), id, fuel);
  }

  /** The walk from a folder lists exactly it and its descendants (to any depth, when there is no cycle). */
  lemma WalkMembers(folders: map<UInt64, FolderRow>, id: UInt64, x: UInt64)
    ensures x in Subtree(ChildrenOf(folders), id, Depth(folders)) <==> Reaches(folders, id, x, Depth(folders))
  {
    ChildrenOfLists(folders);
    SubtreeMembers(folders, ChildrenOf(folders), id, Depth(folders), x);
  }

  /** `folderAndSubfolderIDs`: the walk from the folder. */
  method FolderAndSubfolderIDs(db: Database, folderID: UInt64) returns (ids: seq<UInt64>)
    ensures ids == Subtree(ChildrenOf(db.folders), folderID, Depth(db.folders))
  {
    ids := FetchSubfolderIDs(db, folderID, Depth(db.folders), [], ChildrenOf(db.folders));
  }

  /** `kidsOf` gives the children of every folder as `Children` lists them. */
  ghost predicate ChildrenAre(folders: map<UInt64, FolderRow>, kidsOf: UInt64 -> seq<UInt64>)
  {
    forall p {:trigger Children(folders, p)} :: kidsOf(p) == Children(folders, p)
  }

  lemma ChildrenAreListed(folders: map<UInt64, FolderRow>, kidsOf: UInt64 -> seq<UInt64>, parent: UInt64, kids: seq<UInt64>)
    requires ChildrenAre(folders, kidsOf)
    requires kids == RankOrder(ChildRanks(folders, parent))
    ensures kids == kidsOf(parent)
  {
    assert kids == Children(folders, parent);
  }

  /** The recursive lambda `fetchSubfolderIDs`, appending to `acc`. */
  method FetchSubfolderIDs(db: Database, parent: UInt64, fuel: nat, acc: seq<UInt64>, ghost kidsOf: UInt64 -> seq<UInt64>)
      returns (ids: seq<UInt64>)
    requires ChildrenAre(db.folders, kidsOf)
    ensures ids == acc + Subtree(kidsOf, parent, fuel)
    decreases fuel, 0
  {
    ids := acc + [parent];
    if fuel > 0 {
      var kids := ListRanked(ChildRanks(db.folders, parent));
      ChildrenAreListed(db.folders, kidsOf, parent, kids);
      ids := FetchEach(db, kids, fuel - 1, ids, kidsOf);
      Associative(acc, [parent], Forest(kidsOf, kids, fuel - 1));
    }
  }

  /** Its loop over the children, `SELECT id FROM folders WHERE parent=?` a row at a time. */
  method FetchEach(db: Database, kids: seq<UInt64>, fuel: nat, acc: seq<UInt64>, ghost kidsOf: UInt64 -> seq<UInt64>)
      returns (ids: seq<UInt64>)
    requires ChildrenAre(db.folders, kidsOf)
    ensures ids == acc + Forest(kidsOf, kids, fuel)
    decreases fuel, 1
  {
    ids := acc;
    for i := 0 to |kids|
      invariant ids == acc + Forest(kidsOf, kids[..i], fuel)
    {
      ids := FetchSubfolderIDs(db, kids[i], fuel, ids, kidsOf);
      ForestSnoc(kidsOf, kids, i, fuel);
      Associative(acc, Forest(kidsOf, kids[..i], fuel), Subtree(kidsOf, kids[i], fuel));
    }
    assert kids[..|kids|] == kids;
  }

  /** Regrouping an append, stated once so that the walks above need not prove it by extensionality at every call. */
  lemma Associative(a: seq<UInt64>, b: seq<UInt64>, c: seq<UInt64>)
    ensures (a + b) + c == a + (b + c)
  {
  }

  lemma ForestSnoc(kids: UInt64 -> seq<UInt64>, roots: seq<UInt64>, i: nat, fuel: nat)
    requires i < |roots|
    ensures Forest(kids, roots[..i + 1], fuel) == Forest(kids, roots[..i], fuel) + Subtree(kids, roots[i], fuel)
  {
    assert roots[..i + 1][..i] == roots[..i];
  }

  // ---------------------------------------------------------------- the feeds of a subtree

  /** The ids of a list, as a set: what an `IN (...)` list made from it matches. */
  function SetOf(ids: seq<UInt64>): (r: set<UInt64>)
    ensures forall x :: x in r <==> x in ids
  {
    set x | x in ids
  }

  /** The folders of the walk from `folderID`, as a set: the `folder IN (...)` list. */
  ghost function SubtreeSet(folders: map<UInt64, FolderRow>, folderID: UInt64): set<UInt64>
  {
    SetOf(Subtree(ChildrenOf(folders), folderID, Depth(folders)))
  }

  /** The feeds whose folder is one of `folderIDs`, each ranked 0 (no `ORDER BY`: by ascending id). */
  function FeedRanksIn(feeds: map<UInt64, FeedRow>, folderIDs: set<UInt64>): (ranks: map<UInt64, nat>)
    ensures forall id :: id in ranks <==> id in feeds && feeds[id].folder in folderIDs
  {
    map id | id in feeds && feeds[id].folder in folderIDs :: 0
  }

  /** `SELECT id FROM feeds WHERE folder IN (...)`, in the order it yields the rows. */
  ghost function FeedsIn(feeds: map<UInt64, FeedRow>, folderIDs: set<UInt64>): seq<UInt64>
  {
    RankOrder(FeedRanksIn(feeds, folderIDs))
  }

  /** `fetchFeedIDsInFoldersAndSubfolders`: the feeds stored in the folder or below it. */
  method FetchFeedIDs(db: Database, folderID: UInt64) returns (feedIDs: seq<UInt64>)
    ensures feedIDs == FeedsIn(db.feeds, SubtreeSet(db.folders, folderID))
  {
    var folderIDs := FolderAndSubfolderIDs(db, folderID);
    feedIDs := ListRanked(FeedRanksIn(db.feeds, SetOf(folderIDs)));
  }

  /**
   * A feed is listed exactly when it is stored in the folder or in one of
   * its descendants, and then only once.
   */
  lemma FeedsInSubtree(feeds: map<UInt64, FeedRow>, folders: map<UInt64, FolderRow>, folderID: UInt64, id: UInt64)
    ensures id in FeedsIn(feeds, SubtreeSet(folders, folderID))
        <==> id in feeds && Reaches(folders, folderID, feeds[id].folder, Depth(folders))
    ensures Distinct(FeedsIn(feeds, SubtreeSet(folders, folderID)))
  {
    var ranks := FeedRanksIn(feeds, SubtreeSet(folders, folderID));
    RankOrderContents(ranks);
    RankOrderDistinct(ranks);
    if id in feeds {
      WalkMembers(folders, folderID, feeds[id].folder);
    }
  }

  /** A feed belongs to the subtree's set exactly when it is stored in the folder or below it. */
  lemma SubtreeFeedsMembers(feeds: map<UInt64, FeedRow>, folders: map<UInt64, FolderRow>, folderID: UInt64, id: UInt64)
    ensures id in SubtreeFeeds(feeds, folders, folderID)
        <==> id in feeds && Reaches(folders, folderID, feeds[id].folder, Depth(folders))
  {
    FeedsInSubtree(feeds, folders, folderID, id);
  }

  // ---------------------------------------------------------------- markAllAsRead

  /** The feeds of a subtree, as the set `markAllAsRead` answers with. */
  ghost function SubtreeFeeds(feeds: map<UInt64, FeedRow>, folders: map<UInt64, FolderRow>, folderID: UInt64): set<UInt64>
  {
    SetOf(FeedsIn(feeds, SubtreeSet(folders, folderID)))
  }

  /**
   * `markAllAsRead`: the posts of the subtree's feeds become read, and the
   * feeds are answered; a subtree without feeds changes nothing.
   */
  method MarkAllAsRead(db: Database, folderID: UInt64) returns (feedIDs: set<UInt64>)
    modifies db`posts
    ensures feedIDs == SubtreeFeeds(db.feeds, db.folders, folderID)
    ensures feedIDs == {} ==> db.posts == old(db.posts)
    ensures db.posts == PostLocal.WithIsRead(old(db.posts), true, Matching(old(db.posts), [FeedIn(feedIDs)], db.flags, db.memberships))
  {
    feedIDs := SubtreeFeedIDs(db, folderID);
    if feedIDs == {} {
      MarkingNoFeeds(db.posts, db.flags, db.memberships);
      return;
    }
    PostLocal.UpdateIsRead(db, true, [FeedIn(feedIDs)]);
  }

  /** The feeds of the subtree, fetched as `markAllAsRead` does; nothing changes. */
  method SubtreeFeedIDs(db: Database, folderID: UInt64) returns (feedIDs: set<UInt64>)
    ensures feedIDs == SubtreeFeeds(db.feeds, db.folders, folderID)
  {
    var ids := FetchFeedIDs(db, folderID);
    feedIDs := SetOf(ids);
  }

  lemma MarkingNoFeeds(posts: map<UInt64, PostRow>, flags: multiset<FlagRow>, memberships: multiset<MembershipRow>)
    ensures PostLocal.WithIsRead(posts, true, Matching(posts, [FeedIn({})], flags, memberships)) == posts
  {
    assert Matching(posts, [FeedIn({})], flags, memberships) == {} by {
      forall id | id in posts ensures !SatisfiesAll([FeedIn({})], id, posts[id], flags, memberships) {
        SatisfiesAllSingle(FeedIn({}), id, posts[id], flags, memberships);
      }
    }
  }

  /** Marking the feeds `feedIDs` read: a post becomes read exactly when its feed is one of them. */
  lemma MarkAllAsReadEffect(posts: map<UInt64, PostRow>, flags: multiset<FlagRow>, memberships: multiset<MembershipRow>,
                            feedIDs: set<UInt64>, id: UInt64)
    requires id in posts
    ensures var r := PostLocal.WithIsRead(posts, true, Matching(posts, [FeedIn(feedIDs)], flags, memberships));
      id in r && r[id] == if posts[id].feedID in feedIDs then posts[id].(isRead := true) else posts[id]
  {
    SatisfiesAllSingle(FeedIn(feedIDs), id, posts[id], flags, memberships);
    PostLocal.UpdateIsReadExactly(posts, true, [FeedIn(feedIDs)], flags, memberships, id);
  }

  // ---------------------------------------------------------------- remove

  /** The folders of the walk from `folderID`, fetched as `remove` does; nothing changes. */
  method SubtreeFolderIDs(db: Database, folderID: UInt64) returns (folderIDs: set<UInt64>)
    ensures folderIDs == SubtreeSet(db.folders, folderID)
  {
    var ids := FolderAndSubfolderIDs(db, folderID);
    folderIDs := SetOf(ids);
  }

  /** `DELETE FROM posts WHERE feedID IN (...)`. */
  function PostsOfFeedsOutside(posts: map<UInt64, PostRow>, feedIDs: set<UInt64>): (r: map<UInt64, PostRow>)
    ensures forall id :: id in r <==> id in posts && posts[id].feedID !in feedIDs
    ensures forall id :: id in r ==> r[id] == posts[id]
  {
    map id | id in posts && posts[id].feedID !in feedIDs :: posts[id]
  }

  /** The tables after `remove` of an existing folder. */
  datatype Tables = Tables(folders: map<UInt64, FolderRow>, feeds: map<UInt64, FeedRow>, posts: map<UInt64, PostRow>)

  /**
   * `remove(folderID)` of an existing folder: the posts of the subtree's
   * feeds, those feeds and the subtree's folders are deleted, then the
   * children of the folder's parent are resorted.
   */
  ghost function Removed(folders: map<UInt64, FolderRow>, feeds: map<UInt64, FeedRow>, posts: map<UInt64, PostRow>,
                         folderID: UInt64): Tables
    requires folderID in folders
  {
    var gone := SubtreeFeeds(feeds, folders, folderID);
    Tables(Resorted(folders - SubtreeSet(folders, folderID), folders[folderID].parent),
           feeds - gone,
           PostsOfFeedsOutside(posts, gone))
  }

  /** `remove`; an unknown folder changes nothing, and flags and script-folder rows always stay. */
  method Remove(db: Database, folderID: UInt64)
    modifies db`folders, db`feeds, db`posts
    ensures folderID !in old(db.folders) ==> db.folders == old(db.folders) && db.feeds == old(db.feeds) && db.posts == old(db.posts)
    ensures folderID in old(db.folders) ==>
      Tables(db.folders, db.feeds, db.posts) == Removed(old(db.folders), old(db.feeds), old(db.posts), folderID)
  {
    if folderID in db.folders {
      var parent := db.folders[folderID].parent;
      var feedIDs := SubtreeFeedIDs(db, folderID);
      var folderIDs := SubtreeFolderIDs(db, folderID);
      RemoveRows(db, parent, feedIDs, folderIDs);
    }
  }

  /** The statements of `remove` once the feed and folder ids are known. */
  method RemoveRows(db: Database, parent: UInt64, feedIDs: set<UInt64>, folderIDs: set<UInt64>)
    modifies db`folders, db`feeds, db`posts
    ensures db.posts == PostsOfFeedsOutside(old(db.posts), feedIDs)
    ensures db.feeds == old(db.feeds) - feedIDs
    ensures db.folders == Resorted(old(db.folders) - folderIDs, parent)
  {
    DeleteFeeds(db, feedIDs);
    db.folders := db.folders - folderIDs;
    Resort(db, parent);
  }

  /** `DELETE FROM posts WHERE feedID IN (...)` and `DELETE FROM feeds WHERE id IN (...)`, skipped for no feeds. */
  method DeleteFeeds(db: Database, feedIDs: set<UInt64>)
    modifies db`posts, db`feeds
    ensures db.posts == PostsOfFeedsOutside(old(db.posts), feedIDs)
    ensures db.feeds == old(db.feeds) - feedIDs
  {
    if feedIDs != {} {
      db.posts := PostsOfFeedsOutside(db.posts, feedIDs);
      db.feeds := db.feeds - feedIDs;
    } else {
      NothingOutside(db.posts, db.feeds);
    }
  }

  /** Deleting no feeds leaves both tables as they are. */
  lemma NothingOutside(posts: map<UInt64, PostRow>, feeds: map<UInt64, FeedRow>)
    ensures PostsOfFeedsOutside(posts, {}) == posts
    ensures feeds - {} == feeds
  {
  }

  /**
   * What `remove` keeps: exactly the folders not reached from the removed
   * one, the feeds stored outside its subtree and the posts of those feeds;
   * every kept row is unchanged but for a resorted sortOrder under the parent.
   */
  lemma RemovedKeeps(folders: map<UInt64, FolderRow>, feeds: map<UInt64, FeedRow>, posts: map<UInt64, PostRow>,
                     folderID: UInt64, id: UInt64)
    requires folderID in folders
    ensures var r := Removed(folders, feeds, posts, folderID);
      && (id in r.folders <==> id in folders && !Reaches(folders, folderID, id, Depth(folders)))
      && (id in r.feeds <==> id in feeds && !Reaches(folders, folderID, feeds[id].folder, Depth(folders)))
      && (id in r.feeds ==> r.feeds[id] == feeds[id])
      && (id in r.posts <==> id in posts && !(posts[id].feedID in feeds && Reaches(folders, folderID, feeds[posts[id].feedID].folder, Depth(folders))))
      && (id in r.posts ==> r.posts[id] == posts[id])
      && (id in r.folders ==> r.folders[id] == folders[id].(sortOrder := r.folders[id].sortOrder))
      && (id in r.folders && folders[id].parent != folders[folderID].parent ==> r.folders[id] == folders[id])
  {
    var kept := folders - SubtreeSet(folders, folderID);
    ResortedFrame(kept, folders[folderID].parent, id);
    WalkMembers(folders, folderID, id);
    SubtreeFeedsMembers(feeds, folders, folderID, id);
    if id in posts {
      SubtreeFeedsMembers(feeds, folders, folderID, posts[id].feedID);
    }
  }

  /** The removed folder itself and the feeds stored in it are gone. */
  lemma RemovedFolderGone(folders: map<UInt64, FolderRow>, feeds: map<UInt64, FeedRow>, posts: map<UInt64, PostRow>,
                          folderID: UInt64)
    requires folderID in folders
    ensures folderID !in Removed(folders, feeds, posts, folderID).folders
    ensures forall id :: id in feeds && feeds[id].folder == folderID ==> id !in Removed(folders, feeds, posts, folderID).feeds
  {
    RemovedKeeps(folders, feeds, posts, folderID, folderID);
    forall id | id in feeds && feeds[id].folder == folderID
      ensures id !in Removed(folders, feeds, posts, folderID).feeds
    {
      RemovedKeeps(folders, feeds, posts, folderID, id);
    }
  }

  // ---------------------------------------------------------------- sort orders

  /**
   * The column `ORDER BY sortOrder ASC` sorts the children of `parent` on.
   * SQLite holds the bound sortOrder as a signed integer, so one above
   * `INT64_MAX` sorts before every smaller one.
   */
  function SiblingRanks(folders: map<UInt64, FolderRow>, parent: UInt64): (ranks: map<UInt64, nat>)
    ensures forall id :: id in ranks <==> id in folders && folders[id].parent == parent
    ensures forall a, b :: a in ranks && b in ranks ==>
      (ranks[a] < ranks[b] <==> Signed(folders[a].sortOrder) < Signed(folders[b].sortOrder))
  {
    map id | id in folders && folders[id].parent == parent :: SignedRank(folders[id].sortOrder)
  }

  /** The sortOrders in use among the children of `parent`. */
  function SiblingSortOrders(folders: map<UInt64, FolderRow>, parent: UInt64): set<UInt64>
  {
    set id | id in folders && folders[id].parent == parent :: folders[id].sortOrder
  }

  /** `UPDATE folders SET sortOrder=? WHERE id=?` for every pair of `orders`; a missing row is not touched. */
  function WithSortOrders(folders: map<UInt64, FolderRow>, orders: map<UInt64, UInt64>): (r: map<UInt64, FolderRow>)
    ensures r.Keys == folders.Keys
    ensures forall id :: id in r ==> r[id] == if id in orders then folders[id].(sortOrder := orders[id]) else folders[id]
  {
    map id | id in folders :: if id in orders then folders[id].(sortOrder := orders[id]) else folders[id]
  }

  /** `resort(parent)`: the children of `parent`, in sortOrder order, get 10, 20, 30, ... */
  ghost function Resorted(folders: map<UInt64, FolderRow>, parent: UInt64): map<UInt64, FolderRow>
  {
    WithSortOrders(folders, Positions(RankOrder(SiblingRanks(folders, parent))))
  }

  method Resort(db: Database, parent: UInt64)
    modifies db`folders
    ensures db.folders == Resorted(old(db.folders), parent)
  {
    var folderIDs := ListRanked(SiblingRanks(db.folders, parent));
    Renumber(db, folderIDs);
  }

  /** The loop of `resort`: `UPDATE folders SET sortOrder=? WHERE id=?` with 10, 20, 30, ... in turn. */
  method Renumber(db: Database, folderIDs: seq<UInt64>)
    modifies db`folders
    ensures db.folders == WithSortOrders(old(db.folders), Positions(folderIDs))
  {
    ghost var start := db.folders;
    var sortOrder: UInt64 := 10;
    for i := 0 to |folderIDs|
      invariant sortOrder == SortOrderAt(i)
      invariant db.folders == WithSortOrders(start, Positions(folderIDs[..i]))
    {
      var f := folderIDs[i];
      RenumberStep(start, folderIDs, i);
      if f in db.folders {
        db.folders := db.folders[f := db.folders[f].(sortOrder := sortOrder)];
      }
      SortOrderStep(i);
      sortOrder := (sortOrder + 10) % M;
    }
    assert folderIDs[..|folderIDs|] == folderIDs;
  }

  /** One `UPDATE` of the loop: writing position i's number under the i-th id. */
  lemma RenumberStep(folders: map<UInt64, FolderRow>, folderIDs: seq<UInt64>, i: nat)
    requires i < |folderIDs|
    ensures var cur := WithSortOrders(folders, Positions(folderIDs[..i]));
      var f := folderIDs[i];
      (if f in cur then cur[f := cur[f].(sortOrder := SortOrderAt(i))] else cur) == WithSortOrders(folders, Positions(folderIDs[..i + 1]))
  {
    PositionsSnoc(folderIDs, i);
  }

  /** Resorting writes only sortOrders, and only of the children of that parent. */
  lemma ResortedFrame(folders: map<UInt64, FolderRow>, parent: UInt64, id: UInt64)
    ensures Resorted(folders, parent).Keys == folders.Keys
    ensures id in folders ==> Resorted(folders, parent)[id] == folders[id].(sortOrder := Resorted(folders, parent)[id].sortOrder)
    ensures id in folders && folders[id].parent != parent ==> Resorted(folders, parent)[id] == folders[id]
  {
    RankOrderContents(SiblingRanks(folders, parent));
  }

  /** The child in position k of the parent's order gets `SortOrderAt(k)`. */
  lemma ResortedAt(folders: map<UInt64, FolderRow>, parent: UInt64, k: nat)
    requires k < |RankOrder(SiblingRanks(folders, parent))|
    ensures var o := RankOrder(SiblingRanks(folders, parent));
      o[k] in folders && folders[o[k]].parent == parent && Resorted(folders, parent)[o[k]].sortOrder == SortOrderAt(k)
  {
    var ranks := SiblingRanks(folders, parent);
    var o := RankOrder(ranks);
    RankOrderContents(ranks);
    RankOrderDistinct(ranks);
    assert o[k] in o;
    PositionsAt(o, k);
  }

  /** The numbers `resort` hands out to `n` folders: 10, 20, ..., 10n in 64 bits. */
  function Numbers(n: nat): (r: set<UInt64>)
    ensures forall k :: 0 <= k < n ==> SortOrderAt(k) in r
  {
    set k | 0 <= k < n :: SortOrderAt(k)
  }

  /** After resorting, the children hold exactly the numbers 10, 20, ..., 10n, n being their count. */
  lemma ResortedNumbers(folders: map<UInt64, FolderRow>, parent: UInt64)
    ensures SiblingSortOrders(Resorted(folders, parent), parent) == Numbers(|SiblingRanks(folders, parent)|)
  {
    var ranks := SiblingRanks(folders, parent);
    var n := |ranks|;
    var r := Resorted(folders, parent);
    RankOrderContents(ranks);
    forall id | id in r && r[id].parent == parent ensures r[id].sortOrder in Numbers(n) {
      ResortedFrame(folders, parent, id);
      var k := RankOrderIndex(ranks, id);
      ResortedAt(folders, parent, k);
    }
    forall k | 0 <= k < n ensures SortOrderAt(k) in SiblingSortOrders(r, parent) {
      ResortedAt(folders, parent, k);
      ResortedFrame(folders, parent, RankOrder(ranks)[k]);
    }
  }

  /**
   * Resorting keeps the order of the children, as SQLite sorts them (by the
   * signed reading of sortOrder): one sorted before another still is, unless
   * the numbers wrap around.
   */
  lemma ResortedKeepsOrder(folders: map<UInt64, FolderRow>, parent: UInt64, a: UInt64, b: UInt64)
    requires a in folders && b in folders && folders[a].parent == parent && folders[b].parent == parent && a != b
    requires Signed(folders[a].sortOrder) < Signed(folders[b].sortOrder) || (folders[a].sortOrder == folders[b].sortOrder && a < b)
    requires 10 * |SiblingRanks(folders, parent)| <= UINT64_MAX
    ensures Resorted(folders, parent)[a].sortOrder < Resorted(folders, parent)[b].sortOrder
  {
    var ranks := SiblingRanks(folders, parent);
    assert a in ranks && ranks[a] == SignedRank(folders[a].sortOrder);
    assert b in ranks && ranks[b] == SignedRank(folders[b].sortOrder);
    var i, j := RankOrderIndicesOrdered(ranks, a, b);
    ResortedAt(folders, parent, i);
    ResortedAt(folders, parent, j);
    SortOrderAtIncreasing(i, j, |ranks|);
  }

  /**
   * `nextSortOrder`: 10 above the largest sortOrder among the children in
   * SQLite's signed order (`MAX` of no rows reads as 0), in 64 bits.
   */
  ghost function NextSortOrderOf(folders: map<UInt64, FolderRow>, parent: UInt64): UInt64
  {
    (SignedLargest(SiblingSortOrders(folders, parent)) + 10) % M
  }

  method NextSortOrder(db: Database, parent: UInt64) returns (r: UInt64)
    ensures r == NextSortOrderOf(db.folders, parent)
  {
    var sortOrder := SignedLargestOf(SiblingSortOrders(db.folders, parent));
    r := (sortOrder + 10) % M;
  }

  /**
   * Unless the signed sum overflows, the next sortOrder sorts after that of
   * every child, so a new folder goes last.
   */
  lemma NextSortOrderIsLast(folders: map<UInt64, FolderRow>, parent: UInt64, id: UInt64)
    requires Signed(SignedLargest(SiblingSortOrders(folders, parent))) + 10 <= INT64_MAX
    requires id in folders && folders[id].parent == parent
    ensures Signed(folders[id].sortOrder) < Signed(NextSortOrderOf(folders, parent))
  {
    assert folders[id].sortOrder in SiblingSortOrders(folders, parent);
    SignedAddTen(SignedLargest(SiblingSortOrders(folders, parent)));
  }

  // ---------------------------------------------------------------- create

  /** The folders table after `create`, and the new folder's id; `None` when no row id is left. */
  datatype Made = Made(folders: map<UInt64, FolderRow>, id: Option<UInt64>)

  /** `create(parent, title)`: a row placed after its siblings, under the next row id. */
  ghost function Created(folders: map<UInt64, FolderRow>, parent: UInt64, title: string): Made
  {
    match NextRowID(folders.Keys)
    case None => Made(folders, None)
    case Some(id) => Made(folders[id := FolderRow(parent, title, NextSortOrderOf(folders, parent))], Some(id))
  }

  method Create(db: Database, parent: UInt64, title: string) returns (id: Option<UInt64>)
    modifies db`folders
    ensures Made(db.folders, id) == Created(old(db.folders), parent, title)
  {
    var sortOrder := NextSortOrder(db, parent);
    id := NewRowID(db.folders.Keys);
    if id.Some? {
      db.folders := db.folders[id.value := FolderRow(parent, title, sortOrder)];
    }
  }

  /**
   * A created folder has a fresh id above every id in use, sits under the
   * given parent with the given title, and every other row stays; the
   * insert fails only when the largest id is taken.
   */
  lemma CreatedFolder(folders: map<UInt64, FolderRow>, parent: UInt64, title: string)
    ensures var r := Created(folders, parent, title);
      && (r.id.None? <==> UINT64_MAX in folders)
      && (r.id.None? ==> r.folders == folders)
      && (r.id.Some? ==> && r.id.value !in folders
                         && (forall k :: k in folders ==> k < r.id.value)
                         && r.folders.Keys == folders.Keys + {r.id.value}
                         && r.folders[r.id.value] == FolderRow(parent, title, NextSortOrderOf(folders, parent))
                         && (forall k :: k in folders ==> r.folders[k] == folders[k]))
  {
    NextRowIDFresh(folders.Keys);
  }

  // ---------------------------------------------------------------- move

  /**
   * `move(folderID, newParent, newSortOrder)` of an existing folder: the row
   * takes the new parent and sortOrder, then the old parent's children are
   * resorted and, when it differs, the new parent's too.
   */
  ghost function Moved(folders: map<UInt64, FolderRow>, folderID: UInt64, newParent: UInt64, newSortOrder: UInt64): map<UInt64, FolderRow>
    requires folderID in folders
  {
    var oldParent := folders[folderID].parent;
    var placed := folders[folderID := folders[folderID].(parent := newParent, sortOrder := newSortOrder)];
    var once := Resorted(placed, oldParent);
    if newParent != oldParent then Resorted(once, newParent) else once
  }

  /** `move`; an unknown folder changes nothing. */
  method Move(db: Database, folderID: UInt64, newParent: UInt64, newSortOrder: UInt64)
    modifies db`folders
    ensures folderID !in old(db.folders) ==> db.folders == old(db.folders)
    ensures folderID in old(db.folders) ==> db.folders == Moved(old(db.folders), folderID, newParent, newSortOrder)
  {
    if folderID in db.folders {
      var oldParent := db.folders[folderID].parent;
      db.folders := db.folders[folderID := db.folders[folderID].(parent := newParent, sortOrder := newSortOrder)];
      Resort(db, oldParent);
      if newParent != oldParent {
        Resort(db, newParent);
      }
    }
  }

  /** Moving keeps every row. */
  lemma MovedKeys(folders: map<UInt64, FolderRow>, folderID: UInt64, newParent: UInt64, newSortOrder: UInt64)
    requires folderID in folders
    ensures Moved(folders, folderID, newParent, newSortOrder).Keys == folders.Keys
  {
    var oldParent := folders[folderID].parent;
    var placed := folders[folderID := folders[folderID].(parent := newParent, sortOrder := newSortOrder)];
    assert placed.Keys == folders.Keys;
    ResortedFrame(placed, oldParent, folderID);
    ResortedFrame(Resorted(placed, oldParent), newParent, folderID);
  }

  /**
   * The moved folder gets `newParent`, whatever it is (there is no check
   * against moving a folder below itself), and keeps its title.
   */
  lemma MovedFolder(folders: map<UInt64, FolderRow>, folderID: UInt64, newParent: UInt64, newSortOrder: UInt64)
    requires folderID in folders
    ensures var r := Moved(folders, folderID, newParent, newSortOrder);
      folderID in r && r[folderID] == folders[folderID].(parent := newParent, sortOrder := r[folderID].sortOrder)
  {
    var oldParent := folders[folderID].parent;
    var placed := folders[folderID := folders[folderID].(parent := newParent, sortOrder := newSortOrder)];
    ResortedFrame(placed, oldParent, folderID);
    ResortedFrame(Resorted(placed, oldParent), newParent, folderID);
  }

  /**
   * Every other folder keeps its parent and title, and outside the old and
   * the new parent it keeps its sortOrder too.
   */
  lemma MovedOthers(folders: map<UInt64, FolderRow>, folderID: UInt64, newParent: UInt64, newSortOrder: UInt64, id: UInt64)
    requires folderID in folders && id in folders && id != folderID
    ensures var r := Moved(folders, folderID, newParent, newSortOrder);
      && id in r
      && r[id] == folders[id].(sortOrder := r[id].sortOrder)
      && (folders[id].parent != folders[folderID].parent && folders[id].parent != newParent ==> r[id] == folders[id])
  {
    var oldParent := folders[folderID].parent;
    var placed := folders[folderID := folders[folderID].(parent := newParent, sortOrder := newSortOrder)];
    var once := Resorted(placed, oldParent);
    ResortedFrame(placed, oldParent, id);
    if newParent != oldParent {
      ResortedFrame(once, newParent, id);
    }
  }

  /** Folder 1 under the root and folder 2 under 1: moving 1 below 2 is carried out and leaves the two each other's parent. */
  lemma MoveAllowsCycle()
    ensures var folders := map[1 := FolderRow(0, "a", 10), 2 := FolderRow(1, "b", 10)];
      var r := Moved(folders, 1, 2, 10);
      r[1].parent == 2 && r[2].parent == 1
  {
    var folders := map[1 := FolderRow(0, "a", 10), 2 := FolderRow(1, "b", 10)];
    MovedFolder(folders, 1, 2, 10);
    MovedOthers(folders, 1, 2, 10, 2);
  }

  /**
   * Folders a (10) and b (20) under the root: moving a to sortOrder 2^63,
   * which SQLite reads as -2^63, sorts it first, so the resort gives a 10
   * and b 20 again.
   */
  lemma MoveToSignedMinimum()
    ensures var r := Moved(map[1 := FolderRow(0, "a", 10), 2 := FolderRow(0, "b", 20)], 1, 0, INT64_MAX + 1);
      1 in r && 2 in r && r[1].sortOrder == 10 && r[2].sortOrder == 20
  {
    var f := map[1 := FolderRow(0, "a", 10), 2 := FolderRow(0, "b", 20)];
    assert f.Keys == {1, 2};
    MovedFirstOfTwo(f, 1, 2, 0, INT64_MAX + 1);
  }

  /**
   * A parent with two children: moving one of them, within the parent, to
   * a sortOrder SQLite sorts before its sibling's gives it 10 and the
   * sibling 20.
   */
  lemma MovedFirstOfTwo(folders: map<UInt64, FolderRow>, id: UInt64, other: UInt64, parent: UInt64, newSortOrder: UInt64)
    requires folders.Keys == {id, other} && id != other
    requires folders[id].parent == parent && folders[other].parent == parent
    requires Signed(newSortOrder) < Signed(folders[other].sortOrder)
    ensures var r := Moved(folders, id, parent, newSortOrder);
      id in r && other in r && r[id].sortOrder == 10 && r[other].sortOrder == 20
  {
    var placed := folders[id := folders[id].(parent := parent, sortOrder := newSortOrder)];
    assert SiblingRanks(placed, parent).Keys == {id, other};
    ResortedTwo(placed, parent, id, other);
    ResortedFrame(placed, parent, id);
  }

  /** Two children only, a sorting before b: the resort gives a 10 and b 20. */
  lemma ResortedTwo(folders: map<UInt64, FolderRow>, parent: UInt64, a: UInt64, b: UInt64)
    requires a in folders && b in folders && a != b && folders[a].parent == parent && folders[b].parent == parent
    requires SiblingRanks(folders, parent).Keys == {a, b}
    requires Signed(folders[a].sortOrder) < Signed(folders[b].sortOrder)
    ensures Resorted(folders, parent)[a].sortOrder == 10 && Resorted(folders, parent)[b].sortOrder == 20
  {
    var r := Resorted(folders, parent);
    assert r[a].sortOrder < r[b].sortOrder by {
      assert |SiblingRanks(folders, parent).Keys| == 2;
      ResortedKeepsOrder(folders, parent, a, b);
    }
    assert r[a].sortOrder in Numbers(2) && r[b].sortOrder in Numbers(2) by {
      assert |SiblingRanks(folders, parent).Keys| == 2;
      ResortedNumbers(folders, parent);
      ResortedFrame(folders, parent, a);
      ResortedFrame(folders, parent, b);
      assert r[a].sortOrder in SiblingSortOrders(r, parent);
      assert r[b].sortOrder in SiblingSortOrders(r, parent);
    }
    NumbersOfTwo();
  }

  /** The numbers a resort of two rows hands out. */
  lemma NumbersOfTwo()
    ensures forall v :: v in Numbers(2) ==> v == 10 || v == 20
  {
    forall v | v in Numbers(2) ensures v == 10 || v == 20 {
      var k :| 0 <= k < 2 && v == SortOrderAt(k);
    }
  }

  /**
   * Siblings at 10 and 2^63: SQLite's `MAX` reads 10, 2^63 being negative
   * to it, so the next sortOrder is 20.
   */
  lemma NextSortOrderPassesNegative()
    ensures NextSortOrderOf(map[1 := FolderRow(0, "a", 10), 2 := FolderRow(0, "b", INT64_MAX + 1)], 0) == 20
  {
    var f := map[1 := FolderRow(0, "a", 10), 2 := FolderRow(0, "b", INT64_MAX + 1)];
    assert f.Keys == {1, 2} && f[1].parent == 0 && f[2].parent == 0;
    assert SiblingSortOrders(f, 0) == {10, INT64_MAX + 1};
  }

  // ---------------------------------------------------------------- createFolderHierarchy

  /** The first of `kids` whose title is `title`. */
  function FirstTitled(folders: map<UInt64, FolderRow>, kids: seq<UInt64>, title: string): (r: Option<UInt64>)
    ensures r.Some? ==> r.value in kids && r.value in folders && folders[r.value].title == title
    ensures r.None? ==> forall k :: k in kids && k in folders ==> folders[k].title != title
  {
    if kids == [] then None
    else if kids[0] in folders && folders[kids[0]].title == title then Some(kids[0])
    else FirstTitled(folders, kids[1..], title)
  }

  /** The first match comes before every other one. */
  lemma {:induction false} FirstTitledFirst(folders: map<UInt64, FolderRow>, kids: seq<UInt64>, title: string, j: nat)
    requires FirstTitled(folders, kids, title).Some?
    requires j < |kids| && kids[j] in folders && folders[kids[j]].title == title
    ensures exists i :: 0 <= i <= j && kids[i] == FirstTitled(folders, kids, title).value
  {
    if !(kids[0] in folders && folders[kids[0]].title == title) {
      assert j > 0;
      FirstTitledFirst(folders, kids[1..], title, j - 1);
      var i :| 0 <= i <= j - 1 && kids[1..][i] == FirstTitled(folders, kids[1..], title).value;
      assert kids[i + 1] == FirstTitled(folders, kids, title).value;
    }
  }

  /** The child of `parent` titled `title` that the lookup settles on (children by ascending id). */
  ghost function Find(folders: map<UInt64, FolderRow>, parent: UInt64, title: string): Option<UInt64>
  {
    FirstTitled(folders, Children(folders, parent), title)
  }

  /** Whether `c` is a child of `parent` titled `title`. */
  ghost predicate IsTitledChild(folders: map<UInt64, FolderRow>, parent: UInt64, title: string, c: UInt64)
  {
    c in folders && folders[c].parent == parent && folders[c].title == title
  }

  /** The lookup answers the child of `parent` titled `title` with the least id, and nothing when there is none. */
  lemma FindLeast(folders: map<UInt64, FolderRow>, parent: UInt64, title: string, d: UInt64)
    ensures Find(folders, parent, title).Some? ==> IsTitledChild(folders, parent, title, Find(folders, parent, title).value)
    ensures Find(folders, parent, title).Some? && IsTitledChild(folders, parent, title, d) ==> Find(folders, parent, title).value <= d
    ensures Find(folders, parent, title).None? ==> !IsTitledChild(folders, parent, title, d)
  {
    ChildrenContents(folders, parent);
    if Find(folders, parent, title).Some? && IsTitledChild(folders, parent, title, d) {
      FindBefore(folders, parent, title, d);
    }
  }

  lemma FindBefore(folders: map<UInt64, FolderRow>, parent: UInt64, title: string, d: UInt64)
    requires Find(folders, parent, title).Some? && IsTitledChild(folders, parent, title, d)
    ensures Find(folders, parent, title).value <= d
  {
    var ranks := ChildRanks(folders, parent);
    var kids := RankOrder(ranks);
    assert d in ranks;
    var j := RankOrderIndex(ranks, d);
    FirstTitledFirst(folders, kids, title, j);
    var i :| 0 <= i <= j && kids[i] == Find(folders, parent, title).value;
    if i < j {
      RankOrderSorted(ranks, i, j);
    }
  }

  /** Rows only added, under ids above every id in use before. */
  ghost predicate Grows(before: map<UInt64, FolderRow>, after: map<UInt64, FolderRow>)
  {
    && (forall k :: k in before ==> k in after && after[k] == before[k])
    && (forall k, j :: k in after && k !in before && j in before ==> j < k)
  }

  lemma GrowsTransitive(a: map<UInt64, FolderRow>, b: map<UInt64, FolderRow>, c: map<UInt64, FolderRow>)
    requires Grows(a, b) && Grows(b, c)
    ensures Grows(a, c)
  {
    forall k, j | k in c && k !in a && j in a ensures j < k {
      if k !in b {
        assert j in b;
      }
    }
  }

  /** A row at or below an old id is an old row, unchanged. */
  lemma GrowsKeepsSmaller(before: map<UInt64, FolderRow>, after: map<UInt64, FolderRow>, k: UInt64, j: UInt64)
    requires Grows(before, after) && (k in after || k == j) && j in before && k <= j
    ensures k in before && k in after && after[k] == before[k]
  {
  }

  lemma CreatedGrows(folders: map<UInt64, FolderRow>, parent: UInt64, title: string)
    ensures Grows(folders, Created(folders, parent, title).folders)
  {
    CreatedFolder(folders, parent, title);
  }

  /** Growth keeps every answer of the lookup: new folders have larger ids than the one found. */
  lemma FindStable(before: map<UInt64, FolderRow>, after: map<UInt64, FolderRow>, parent: UInt64, title: string)
    requires Grows(before, after) && Find(before, parent, title).Some?
    ensures Find(after, parent, title) == Find(before, parent, title)
  {
    var c := Find(before, parent, title).value;
    FindLeast(before, parent, title, c);
    GrowsKeepsSmaller(before, after, c, c);
    var c' := FindAtMost(after, parent, title, c);
    GrowsKeepsSmaller(before, after, c', c);
    FindLeast(before, parent, title, c');
  }

  /** Where some child is titled `title`, the lookup finds one whose id is no larger. */
  lemma FindAtMost(folders: map<UInt64, FolderRow>, parent: UInt64, title: string, d: UInt64) returns (c: UInt64)
    requires IsTitledChild(folders, parent, title, d)
    ensures Find(folders, parent, title) == Some(c) && IsTitledChild(folders, parent, title, c) && c <= d
  {
    FindLeast(folders, parent, title, d);
    c := Find(folders, parent, title).value;
  }

  /** A folder created where the lookup found none is what it finds next. */
  lemma CreatedFound(folders: map<UInt64, FolderRow>, parent: UInt64, title: string)
    requires Find(folders, parent, title).None? && Created(folders, parent, title).id.Some?
    ensures var m := Created(folders, parent, title); Find(m.folders, parent, title) == m.id
  {
    var m := Created(folders, parent, title);
    var n := m.id.value;
    CreatedFolder(folders, parent, title);
    FindLeast(m.folders, parent, title, n);
    var c := Find(m.folders, parent, title).value;
    FindLeast(m.folders, parent, title, c);
    if c != n {
      FindLeast(folders, parent, title, c);
    }
  }

  /** The folders table after `createFolderHierarchy`, and its answer (an `Err` when it throws). */
  datatype Placement = Placement(folders: map<UInt64, FolderRow>, id: Result<UInt64>)

  /** From `cur`, one level per title: reuse the child with that title, else create one, and descend. */
  ghost function Walk(folders: map<UInt64, FolderRow>, cur: UInt64, path: seq<string>): Placement
    decreases |path|
  {
    if path == [] then Placement(folders, Ok(cur))
    else match Find(folders, cur, path[0])
      case Some(c) => Walk(folders, c, path[1..])
      case None =>
        var m := Created(folders, cur, path[0]);
        if m.id.None? then Placement(folders, Err(InsertFailed))
        else Walk(m.folders, m.id.value, path[1..])
  }

  /**
   * `createFolderHierarchy(parentID, path)` as its design intends: from the
   * root or from an existing folder, walk the path reusing or creating one
   * folder per title and answer the last one (the start for an empty path);
   * an unknown non-root parent answers 0 and changes nothing.
   */
  ghost function Hierarchy(folders: map<UInt64, FolderRow>, parentID: UInt64, path: seq<string>): Placement
  {
    if parentID != 0 && parentID !in folders then Placement(folders, Ok(0))
    else Walk(folders, parentID, path)
  }

  /** The folder reached by following the titles of `path` down from `cur`, if every one exists. */
  ghost function Located(folders: map<UInt64, FolderRow>, cur: UInt64, path: seq<string>): Option<UInt64>
    decreases |path|
  {
    if path == [] then Some(cur)
    else match Find(folders, cur, path[0])
      case Some(c) => Located(folders, c, path[1..])
      case None => None
  }

  lemma {:induction false} WalkGrows(folders: map<UInt64, FolderRow>, cur: UInt64, path: seq<string>)
    ensures Grows(folders, Walk(folders, cur, path).folders)
    decreases |path|
  {
    if path != [] {
      match Find(folders, cur, path[0])
      case Some(c) =>
        WalkGrows(folders, c, path[1..]);
      case None =>
        var m := Created(folders, cur, path[0]);
        CreatedGrows(folders, cur, path[0]);
        if m.id.Some? {
          WalkGrows(m.folders, m.id.value, path[1..]);
          GrowsTransitive(folders, m.folders, Walk(m.folders, m.id.value, path[1..]).folders);
        }
    }
  }

  /** Growth keeps a located path located, at the same folder. */
  lemma {:induction false} LocatedStable(before: map<UInt64, FolderRow>, after: map<UInt64, FolderRow>, cur: UInt64, path: seq<string>)
    requires Grows(before, after) && Located(before, cur, path).Some?
    ensures Located(after, cur, path) == Located(before, cur, path)
    decreases |path|
  {
    if path != [] {
      var c := Find(before, cur, path[0]).value;
      FindStable(before, after, cur, path[0]);
      LocatedStable(before, after, c, path[1..]);
    }
  }

  /** After a walk that succeeds, its path leads from `cur` to the folder it answers. */
  lemma {:induction false} WalkLocates(folders: map<UInt64, FolderRow>, cur: UInt64, path: seq<string>)
    ensures var r := Walk(folders, cur, path); r.id.Ok? ==> Located(r.folders, cur, path) == Some(r.id.value)
    decreases |path|
  {
    var r := Walk(folders, cur, path);
    if path != [] && r.id.Ok? {
      match Find(folders, cur, path[0])
      case Some(c) =>
        WalkLocates(folders, c, path[1..]);
        WalkGrows(folders, c, path[1..]);
        FindStable(folders, r.folders, cur, path[0]);
      case None =>
        var m := Created(folders, cur, path[0]);
        var n := m.id.value;
        WalkLocates(m.folders, n, path[1..]);
        WalkGrows(m.folders, n, path[1..]);
        CreatedFound(folders, cur, path[0]);
        FindStable(m.folders, r.folders, cur, path[0]);
    }
  }

  /** A walk along a path that already exists creates nothing and answers where the path leads. */
  lemma {:induction false} LocatedWalk(folders: map<UInt64, FolderRow>, cur: UInt64, path: seq<string>)
    requires Located(folders, cur, path).Some?
    ensures Walk(folders, cur, path) == Placement(folders, Ok(Located(folders, cur, path).value))
    decreases |path|
  {
    if path != [] {
      LocatedWalk(folders, Find(folders, cur, path[0]).value, path[1..]);
    }
  }

  /**
   * What `createFolderHierarchy` promises: it only adds folders, under new
   * ids; when it answers a folder from the root or an existing parent, the
   * path leads there; and a path that already exists is reused outright.
   */
  lemma HierarchyPlaces(folders: map<UInt64, FolderRow>, parentID: UInt64, path: seq<string>)
    ensures Grows(folders, Hierarchy(folders, parentID, path).folders)
    ensures var r := Hierarchy(folders, parentID, path);
      r.id.Ok? && (parentID == 0 || parentID in folders) ==> Located(r.folders, parentID, path) == Some(r.id.value)
    ensures (parentID == 0 || parentID in folders) && Located(folders, parentID, path).Some? ==>
      Hierarchy(folders, parentID, path) == Placement(folders, Ok(Located(folders, parentID, path).value))
  {
    WalkGrows(folders, parentID, path);
    WalkLocates(folders, parentID, path);
    if (parentID == 0 || parentID in folders) && Located(folders, parentID, path).Some? {
      LocatedWalk(folders, parentID, path);
    }
  }

  /** Repeating a call that succeeded answers the same folder and creates nothing. */
  lemma HierarchyIdempotent(folders: map<UInt64, FolderRow>, parentID: UInt64, path: seq<string>)
    requires Hierarchy(folders, parentID, path).id.Ok?
    ensures var r := Hierarchy(folders, parentID, path); Hierarchy(r.folders, parentID, path) == r
  {
    var r := Hierarchy(folders, parentID, path);
    if parentID == 0 || parentID in folders {
      HierarchyPlaces(folders, parentID, path);
      HierarchyPlaces(r.folders, parentID, path);
    }
  }

  /** The lookups and inserts of `createFolderHierarchy`, as its design intends. */
  method CreateFolderHierarchy(db: Database, parentID: UInt64, path: seq<string>) returns (r: Result<UInt64>)
    modifies db`folders
    ensures Placement(db.folders, r) == Hierarchy(old(db.folders), parentID, path)
  {
    if parentID != 0 && parentID !in db.folders {
      return Ok(0);
    }
    ghost var goal := Walk(db.folders, parentID, path);
    var current := parentID;
    for i := 0 to |path|
      invariant Walk(db.folders, current, path[i..]) == goal
    {
      assert path[i..][1..] == path[i + 1..];
      var found := SubfolderWithTitle(db, current, path[i]);
      if found.Some? {
        current := found.value;
      } else {
        var id := Create(db, current, path[i]);
        if id.None? {
          return Err(InsertFailed);
        }
        current := id.value;
      }
    }
    return Ok(current);
  }

  /** `getSubfolderWithTitle` without the insert: a scan of the children, by ascending id. */
  method SubfolderWithTitle(db: Database, parent: UInt64, title: string) returns (found: Option<UInt64>)
    ensures found == Find(db.folders, parent, title)
  {
    var kids := ListRanked(ChildRanks(db.folders, parent));
    found := None;
    var i := 0;
    while i < |kids| && found.None?
      invariant i <= |kids|
      invariant found.None? ==> FirstTitled(db.folders, kids[i..], title) == FirstTitled(db.folders, kids, title)
      invariant found.Some? ==> found == FirstTitled(db.folders, kids, title)
    {
      assert kids[i..][1..] == kids[i + 1..];
      if kids[i] in db.folders && db.folders[kids[i]].title == title {
        found := Some(kids[i]);
      }
      i := i + 1;
    }
  }

  // ---------------------------------------------------------------- createFolderHierarchy as written

  /** The answer `createFolderHierarchy` gives for a root call with no titles: it reads the id of a null folder. */
  const NullDereference: string := "null dereference"

  /** Creating one folder per title, each below the previous one, without looking for existing ones. */
  ghost function CreateAllUnder(folders: map<UInt64, FolderRow>, cur: UInt64, path: seq<string>): Placement
    decreases |path|
  {
    if path == [] then Placement(folders, Ok(cur))
    else
      var m := Created(folders, cur, path[0]);
      if m.id.None? then Placement(folders, Err(InsertFailed))
      else CreateAllUnder(m.folders, m.id.value, path[1..])
  }

  /**
   * `createFolderHierarchy` as written: only the root's children are looked
   * up; below them, and below a non-root parent, the lookup scans the
   * in-memory subfolder list of a folder that was read without it, finds
   * nothing and creates a new folder every time.
   */
  ghost function HierarchyAsWritten(folders: map<UInt64, FolderRow>, parentID: UInt64, path: seq<string>): Placement
  {
    if parentID == 0 then
      if path == [] then Placement(folders, Err(NullDereference))
      else match Find(folders, 0, path[0])
        case Some(c) => CreateAllUnder(folders, c, path[1..])
        case None =>
          var m := Created(folders, 0, path[0]);
          if m.id.None? then Placement(folders, Err(InsertFailed))
          else CreateAllUnder(m.folders, m.id.value, path[1..])
    else if parentID !in folders then Placement(folders, Ok(0))
    else CreateAllUnder(folders, parentID, path)
  }

  /** The last title of a path. */
  function LastTitle(path: seq<string>): string
    requires path != []
  {
    if |path| == 1 then path[0] else LastTitle(path[1..])
  }

  /**
   * Where an answer of `createFolderHierarchy` lies: 0 for an unknown
   * non-root parent, the start for an empty path, and otherwise a folder
   * carrying the path's last title.
   */
  ghost predicate EndsPath(folders: map<UInt64, FolderRow>, parentID: UInt64, path: seq<string>, id: UInt64)
  {
    if parentID != 0 && parentID !in folders then id == 0
    else if path == [] then id == parentID
    else id in folders && folders[id].title == LastTitle(path)
  }

  /** Creating one folder per title only adds folders, and answers a new one titled with the last title. */
  lemma {:induction false} CreateAllUnderPlaces(folders: map<UInt64, FolderRow>, cur: UInt64, path: seq<string>)
    ensures Grows(folders, CreateAllUnder(folders, cur, path).folders)
    ensures var r := CreateAllUnder(folders, cur, path);
      r.id.Ok? ==> && (path == [] ==> r.id.value == cur)
                   && (path != [] ==> r.id.value in r.folders && r.id.value !in folders && r.folders[r.id.value].title == LastTitle(path))
    decreases |path|
  {
    if path == [] {
      assert Grows(folders, folders);
    } else {
      var m := Created(folders, cur, path[0]);
      CreatedFolder(folders, cur, path[0]);
      if m.id.None? {
        assert Grows(folders, folders);
      } else {
        CreatedGrows(folders, cur, path[0]);
        CreateAllUnderPlaces(m.folders, m.id.value, path[1..]);
        GrowsTransitive(folders, m.folders, CreateAllUnder(m.folders, m.id.value, path[1..]).folders);
        if path[1..] != [] {
        }
      }
    }
  }

  /** Below a folder `c` carrying the first title, creating the rest answers a folder with the last title. */
  lemma CreateAllBelow(folders: map<UInt64, FolderRow>, folders2: map<UInt64, FolderRow>, c: UInt64, path: seq<string>)
    requires path != [] && Grows(folders, folders2) && c in folders2 && folders2[c].title == path[0]
    ensures var r := CreateAllUnder(folders2, c, path[1..]);
      && Grows(folders, r.folders)
      && (r.id.Ok? ==> r.id.value in r.folders && r.folders[r.id.value].title == LastTitle(path))
      && (r.id.Ok? && (|path| >= 2 || c !in folders) ==> r.id.value !in folders)
  {
    var r := CreateAllUnder(folders2, c, path[1..]);
    CreateAllUnderPlaces(folders2, c, path[1..]);
    GrowsTransitive(folders, folders2, r.folders);
  }

  /**
   * What the as-written call still promises: it only adds folders, its
   * answer lies where `EndsPath` says, a root call with no titles throws,
   * and every folder below the first level is a new one.
   */
  lemma HierarchyAsWrittenPlaces(folders: map<UInt64, FolderRow>, parentID: UInt64, path: seq<string>)
    ensures Grows(folders, HierarchyAsWritten(folders, parentID, path).folders)
    ensures var r := HierarchyAsWritten(folders, parentID, path);
      r.id.Ok? ==> EndsPath(r.folders, parentID, path, r.id.value)
    ensures parentID == 0 && path == [] ==> HierarchyAsWritten(folders, parentID, path).id == Err(NullDereference)
    ensures var r := HierarchyAsWritten(folders, parentID, path);
      r.id.Ok? && (parentID == 0 || parentID in folders) && (|path| >= 2 || (parentID != 0 && path != [])) ==> r.id.value !in folders
  {
    var r := HierarchyAsWritten(folders, parentID, path);
    if parentID == 0 && path != [] {
      RootAsWrittenPlaces(folders, path);
    } else if parentID != 0 && parentID in folders {
      CreateAllUnderPlaces(folders, parentID, path);
      assert parentID in r.folders;
    } else if parentID == 0 {
      assert r == Placement(folders, Err(NullDereference));
      assert Grows(folders, folders);
    } else {
      assert r == Placement(folders, Ok(0));
      assert Grows(folders, folders);
    }
  }

  lemma RootAsWrittenPlaces(folders: map<UInt64, FolderRow>, path: seq<string>)
    requires path != []
    ensures var r := HierarchyAsWritten(folders, 0, path);
      && Grows(folders, r.folders)
      && (r.id.Ok? ==> r.id.value in r.folders && r.folders[r.id.value].title == LastTitle(path))
      && (r.id.Ok? && |path| >= 2 ==> r.id.value !in folders)
  {
    assert Grows(folders, folders);
    match Find(folders, 0, path[0])
    case Some(c) =>
      FindLeast(folders, 0, path[0], c);
      CreateAllBelow(folders, folders, c, path);
    case None =>
      var m := Created(folders, 0, path[0]);
      CreatedFolder(folders, 0, path[0]);
      if m.id.Some? {
        CreatedGrows(folders, 0, path[0]);
        CreateAllBelow(folders, m.folders, m.id.value, path);
      }
  }

  /** A located path ends at a folder titled with its last title. */
  lemma {:induction false} LocatedEnds(folders: map<UInt64, FolderRow>, cur: UInt64, path: seq<string>)
    requires path != [] && Located(folders, cur, path).Some?
    ensures var id := Located(folders, cur, path).value; id in folders && folders[id].title == LastTitle(path)
    decreases |path|
  {
    var c := LocatedFirst(folders, cur, path);
    var rest := path[1..];
    if |path| > 1 {
      LocatedEnds(folders, c, rest);
    }
  }

  /** The first step of a located path: a child titled with the first title, from which the rest is located. */
  lemma LocatedFirst(folders: map<UInt64, FolderRow>, cur: UInt64, path: seq<string>) returns (c: UInt64)
    requires path != [] && Located(folders, cur, path).Some?
    ensures IsTitledChild(folders, cur, path[0], c)
    ensures Located(folders, cur, path) == Located(folders, c, path[1..])
    ensures path[1..] == [] ==> Located(folders, cur, path) == Some(c)
  {
    c := Find(folders, cur, path[0]).value;
    FindLeast(folders, cur, path[0], c);
  }

  /** The intended call's answer lies where `EndsPath` says as well. */
  lemma HierarchyEndsPath(folders: map<UInt64, FolderRow>, parentID: UInt64, path: seq<string>)
    ensures var r := Hierarchy(folders, parentID, path);
      r.id.Ok? ==> EndsPath(r.folders, parentID, path, r.id.value)
  {
    var r := Hierarchy(folders, parentID, path);
    HierarchyPlaces(folders, parentID, path);
    if r.id.Ok? && (parentID == 0 || parentID in folders) && path != [] {
      LocatedEnds(r.folders, parentID, path);
    }
  }

  /** Folder a at the root, as the first call of the example leaves it, and with b below it. */
  const OnlyA: map<UInt64, FolderRow> := map[1 := FolderRow(0, "a", 10)]
  const AWithB: map<UInt64, FolderRow> := OnlyA[2 := FolderRow(1, "b", 10)]

  /** The lookups of the example: nothing on an empty table, nothing below a lone a, a at the root. */
  lemma ImportFindsNone()
    ensures Find(map[], 0, "a") == None
    ensures Find(OnlyA, 1, "b") == None
  {
    FindLeast(map[], 0, "a", 0);
    FindLeast(OnlyA, 1, "b", 0);
  }

  lemma ImportFindsA()
    ensures Find(AWithB, 0, "a") == Some(1)
  {
    assert AWithB[1] == FolderRow(0, "a", 10) && AWithB[2] == FolderRow(1, "b", 10);
    assert IsTitledChild(AWithB, 0, "a", 1);
    FindLeast(AWithB, 0, "a", 1);
    var c := Find(AWithB, 0, "a").value;
    assert c in AWithB.Keys && AWithB.Keys == {1, 2};
    assert c != 2;
  }

  /** The row ids and sortOrders the inserts of the example get. */
  lemma ImportNumbers()
    ensures NextRowID({}) == Some(1) && NextSortOrderOf(map[], 0) == 10
    ensures NextRowID(OnlyA.Keys) == Some(2) && NextSortOrderOf(OnlyA, 1) == 10
    ensures NextRowID(AWithB.Keys) == Some(3) && NextSortOrderOf(AWithB, 1) == 20
  {
    var empty: map<UInt64, FolderRow> := map[];
    assert SiblingSortOrders(empty, 0) == {};
    assert SiblingSortOrders(OnlyA, 1) == {};
    assert OnlyA.Keys == {1};
    assert AWithB[2].parent == 1;
    assert SiblingSortOrders(AWithB, 1) == {10};
    assert AWithB.Keys == {1, 2};
  }

  /** The first call on an empty table, as written and as intended alike: a becomes 1, b becomes 2. */
  lemma FirstImport()
    ensures HierarchyAsWritten(map[], 0, ["a", "b"]) == Placement(AWithB, Ok(2))
    ensures Hierarchy(map[], 0, ["a", "b"]) == Placement(AWithB, Ok(2))
  {
    ImportFindsNone();
    ImportNumbers();
    assert Created(map[], 0, "a") == Made(OnlyA, Some(1));
    assert Created(OnlyA, 1, "b") == Made(AWithB, Some(2));
    assert ["a", "b"][1..] == ["b"] && ["b"][1..] == [];
    assert CreateAllUnder(OnlyA, 1, ["b"]) == Placement(AWithB, Ok(2));
    assert Walk(OnlyA, 1, ["b"]) == Placement(AWithB, Ok(2));
  }

  /** The second call as written finds a but creates a second b, folder 3. */
  lemma SecondImportAsWritten()
    ensures HierarchyAsWritten(AWithB, 0, ["a", "b"]) == Placement(AWithB[3 := FolderRow(1, "b", 20)], Ok(3))
  {
    ImportFindsA();
    ImportNumbers();
    assert Created(AWithB, 1, "b") == Made(AWithB[3 := FolderRow(1, "b", 20)], Some(3));
    assert ["a", "b"][1..] == ["b"] && ["b"][1..] == [];
  }

  /**
   * On an empty table, importing the path a/b twice as written: the second
   * call answers a new folder 3, a second b below a.
   */
  lemma HierarchyAsWrittenDuplicates()
    ensures var r1 := HierarchyAsWritten(map[], 0, ["a", "b"]);
      var r2 := HierarchyAsWritten(r1.folders, 0, ["a", "b"]);
      && r1.id == Ok(2) && r2.id == Ok(3)
      && 2 in r2.folders && 3 in r2.folders
      && r2.folders[2].parent == r2.folders[3].parent == 1
      && r2.folders[2].title == r2.folders[3].title == "b"
  {
    FirstImport();
    SecondImportAsWritten();
  }

  /** The intended walk answers 2 both times and adds nothing the second time. */
  lemma HierarchyReimport()
    ensures var h := Hierarchy(map[], 0, ["a", "b"]); h.id == Ok(2) && Hierarchy(h.folders, 0, ["a", "b"]) == h
  {
    FirstImport();
    HierarchyIdempotent(map[], 0, ["a", "b"]);
  }

  /** With no titles at all the root call as written reads through a null folder; the intended one answers the root. */
  lemma HierarchyAsWrittenEmptyPath(folders: map<UInt64, FolderRow>)
    ensures HierarchyAsWritten(folders, 0, []).id.Err?
    ensures Hierarchy(folders, 0, []) == Placement(folders, Ok(0))
  {
  }
}
