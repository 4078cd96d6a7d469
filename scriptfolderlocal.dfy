/**
 * `local/ScriptFolderLocal.cpp`: the posts a script folder collects (a
 * filtered, paged listing over the `scriptfolder_posts` memberships), and
 * renaming and removing a script folder.
 */
module ScriptFolderLocal {
  import opened Wrappers
  import opened Strings
  import opened Flag
  import opened Ordering
  import opened Store
  import PostLocal
  import FeedLocal

  // ---------------------------------------------------------------- getPosts

  /** The `WHERE` terms `getPosts` builds for this script folder, in the order it adds them. */
  function PageConditions(scriptFolderID: UInt64, unreadOnly: bool, searchFilter: string, c: FlagColor): seq<PostCondition>
  {
    [InScriptFolder(scriptFolderID)]
    + (if unreadOnly then [Unread] else [])
    + (if searchFilter != "" then [Mentions(searchFilter)] else [])
    + (if c != Gray then [FlaggedAs(PostLocal.FlagID(c))] else [])
  }

  /**
   * What those terms select: the members of the script folder, further
   * restricted to the unread ones if asked, to those mentioning the filter
   * if one is given, and to those with the colour unless it is Gray.
   */
  lemma PageConditionsMeaning(scriptFolderID: UInt64, unreadOnly: bool, searchFilter: string, c: FlagColor,
                              id: UInt64, row: PostRow, flags: multiset<FlagRow>, memberships: multiset<MembershipRow>)
    ensures SatisfiesAll(PageConditions(scriptFolderID, unreadOnly, searchFilter, c), id, row, flags, memberships)
        <==> && MembershipRow(scriptFolderID, id) in memberships
             && (unreadOnly ==> !row.isRead)
             && (searchFilter != "" ==> ContainsIgnoringCase(row.item.title, searchFilter) || ContainsIgnoringCase(row.item.content, searchFilter))
             && (c != Gray ==> FlagRow(id, PostLocal.FlagID(c)) in flags)
  {
    var a: seq<PostCondition> := [InScriptFolder(scriptFolderID)];
    var b: seq<PostCondition> := if unreadOnly then [Unread] else [];
    var d: seq<PostCondition> := if searchFilter != "" then [Mentions(searchFilter)] else [];
    var e: seq<PostCondition> := if c != Gray then [FlaggedAs(PostLocal.FlagID(c))] else [];
    SatisfiesAllConcat(a + b + d, e, id, row, flags, memberships);
    SatisfiesAllConcat(a + b, d, id, row, flags, memberships);
    SatisfiesAllConcat(a, b, id, row, flags, memberships);
    SatisfiesAllSingle(InScriptFolder(scriptFolderID), id, row, flags, memberships);
    SatisfiesAllSingle(Unread, id, row, flags, memberships);
    SatisfiesAllSingle(Mentions(searchFilter), id, row, flags, memberships);
    SatisfiesAllSingle(FlaggedAs(PostLocal.FlagID(c)), id, row, flags, memberships);
  }

  /**
   * `getPosts`: the page of the script folder's listing that starts at
   * `perPage * (page - 1)`, by date descending, and the number of matching
   * posts, the same on every page.
   */
  method GetPosts(db: Database, scriptFolderID: UInt64, perPage: UInt64, page: UInt64, unreadOnly: bool,
                  searchFilter: string, c: FlagColor)
    returns (count: nat, r: seq<PostLocal.StoredPost>)
    ensures count == |Matching(db.posts, PageConditions(scriptFolderID, unreadOnly, searchFilter, c), db.flags, db.memberships)|
    ensures PostLocal.ListingIn(db.posts, PageConditions(scriptFolderID, unreadOnly, searchFilter, c), db.flags, db.memberships, false)
    ensures r == PostLocal.LoadAll(db.posts, db.feeds, db.flags,
                   Window(PostLocal.Listing(db.posts, PageConditions(scriptFolderID, unreadOnly, searchFilter, c), db.flags, db.memberships, false),
                          SqlOffset(FeedLocal.PageOffset(perPage, page)), SqlLimit(perPage, |db.posts|)))
  {
    var cs := PageConditions(scriptFolderID, unreadOnly, searchFilter, c);
    var offset := FeedLocal.PageOffset(perPage, page);
    r := PostLocal.QueryMultiple(db, cs, false, SqlOffset(offset), SqlLimit(perPage, |db.posts|));
    count := PostLocal.QueryCount(db, cs);
  }

  /** A post is on the script folder's listing exactly when it is a member and passes every filter of the call. */
  lemma PageMembers(posts: map<UInt64, PostRow>, flags: multiset<FlagRow>, memberships: multiset<MembershipRow>,
                    scriptFolderID: UInt64, unreadOnly: bool, searchFilter: string, c: FlagColor, id: UInt64)
    ensures id in PostLocal.Listing(posts, PageConditions(scriptFolderID, unreadOnly, searchFilter, c), flags, memberships, false)
        <==> && id in posts
             && MembershipRow(scriptFolderID, id) in memberships
             && (unreadOnly ==> !posts[id].isRead)
             && (searchFilter != "" ==> ContainsIgnoringCase(posts[id].item.title, searchFilter) || ContainsIgnoringCase(posts[id].item.content, searchFilter))
             && (c != Gray ==> FlagRow(id, PostLocal.FlagID(c)) in flags)
  {
    PostLocal.ListingContents(posts, PageConditions(scriptFolderID, unreadOnly, searchFilter, c), flags, memberships, false);
    if id in posts {
      PageConditionsMeaning(scriptFolderID, unreadOnly, searchFilter, c, id, posts[id], flags, memberships);
    }
  }

  /** The listing is by date descending, each post once, and the count is its length. */
  lemma PageOrder(posts: map<UInt64, PostRow>, flags: multiset<FlagRow>, memberships: multiset<MembershipRow>,
                  scriptFolderID: UInt64, unreadOnly: bool, searchFilter: string, c: FlagColor, i: nat, j: nat)
    requires i < j < |PostLocal.Listing(posts, PageConditions(scriptFolderID, unreadOnly, searchFilter, c), flags, memberships, false)|
    ensures var l := PostLocal.Listing(posts, PageConditions(scriptFolderID, unreadOnly, searchFilter, c), flags, memberships, false);
      && l[i] != l[j] && l[i] in posts && l[j] in posts
      && !StrLess(posts[l[i]].item.datePublished, posts[l[j]].item.datePublished)
      && |l| == |Matching(posts, PageConditions(scriptFolderID, unreadOnly, searchFilter, c), flags, memberships)|
  {
    var cs := PageConditions(scriptFolderID, unreadOnly, searchFilter, c);
    PostLocal.ListingOrder(posts, cs, flags, memberships, false, i, j);
    PostLocal.ListingCount(posts, cs, flags, memberships, false);
  }

  // ---------------------------------------------------------------- update

  /** `update(title)`: `UPDATE scriptfolders SET title=? WHERE id=?`; an unknown id changes nothing. */
  function Renamed(scriptFolders: map<UInt64, ScriptFolderRow>, scriptFolderID: UInt64, title: string): (r: map<UInt64, ScriptFolderRow>)
    ensures r.Keys == scriptFolders.Keys
    ensures scriptFolderID in r ==> r[scriptFolderID].title == title
    ensures forall id :: id in r && id != scriptFolderID ==> r[id] == scriptFolders[id]
  {
    if scriptFolderID in scriptFolders then scriptFolders[scriptFolderID := scriptFolders[scriptFolderID].(title := title)]
    else scriptFolders
  }

  method Update(db: Database, scriptFolderID: UInt64, title: string)
    modifies db`scriptFolders
    ensures db.scriptFolders == Renamed(old(db.scriptFolders), scriptFolderID, title)
  {
    if scriptFolderID in db.scriptFolders {
      db.scriptFolders := db.scriptFolders[scriptFolderID := db.scriptFolders[scriptFolderID].(title := title)];
    }
  }

  /** Renaming twice is renaming once with the second title. */
  lemma RenamedTwice(scriptFolders: map<UInt64, ScriptFolderRow>, scriptFolderID: UInt64, a: string, b: string)
    ensures Renamed(Renamed(scriptFolders, scriptFolderID, a), scriptFolderID, b) == Renamed(scriptFolders, scriptFolderID, b)
  {
    if scriptFolderID in scriptFolders {
      assert Renamed(scriptFolders, scriptFolderID, a)[scriptFolderID := ScriptFolderRow(b)]
          == scriptFolders[scriptFolderID := ScriptFolderRow(b)];
    }
  }

  // ---------------------------------------------------------------- remove

  /** `DELETE FROM scriptfolder_posts WHERE scriptFolderID=?`. */
  ghost function WithoutScriptFolder(memberships: multiset<MembershipRow>, scriptFolderID: UInt64): multiset<MembershipRow>
  {
    Recount(memberships, set row | row in memberships && row.scriptFolderID == scriptFolderID, 0)
  }

  /** The memberships left are exactly those of the other script folders, each as often as before. */
  lemma WithoutScriptFolderCounts(memberships: multiset<MembershipRow>, scriptFolderID: UInt64, row: MembershipRow)
    ensures WithoutScriptFolder(memberships, scriptFolderID)[row]
         == if row.scriptFolderID == scriptFolderID then 0 else memberships[row]
  {
  }

  /** `remove(scriptFolderID)`: the row and every membership of the script folder go; posts, flags and read states stay. */
  method Remove(db: Database, scriptFolderID: UInt64)
    modifies db`scriptFolders, db`memberships
    ensures db.scriptFolders == old(db.scriptFolders) - {scriptFolderID}
    ensures db.memberships == WithoutScriptFolder(old(db.memberships), scriptFolderID)
  {
    db.scriptFolders := db.scriptFolders - {scriptFolderID};
    DeleteMemberships(db, scriptFolderID);
  }

  /** The second statement of `remove`, deleting the memberships row by row. */
  method DeleteMemberships(db: Database, scriptFolderID: UInt64)
    modifies db`memberships
    ensures db.memberships == WithoutScriptFolder(old(db.memberships), scriptFolderID)
  {
    ghost var start := db.memberships;
    ghost var doomed := set row | row in start && row.scriptFolderID == scriptFolderID;
    var rest := set row | row in db.memberships && row.scriptFolderID == scriptFolderID;
    while rest != {}
      invariant rest <= doomed
      invariant forall row :: db.memberships[row] == if row in doomed - rest then 0 else start[row]
      decreases rest
    {
      var row :| row in rest;
      db.memberships := db.memberships[row := 0];
      rest := rest - {row};
    }
    assert forall row :: db.memberships[row] == WithoutScriptFolder(start, scriptFolderID)[row];
  }
}
