/**
 * The engine's SQLite database as the local classes use it: one map (or
 * multiset of rows, for the tables without a key) per table, the row id
 * SQLite assigns to an inserted row, and the conditions the `posts` queries
 * combine into their `WHERE` clauses.
 */
module Store {
  import opened Wrappers
  import opened Strings
  import opened Flag
  import Posts

  /** A feed item as a parser extracts it (`FeedParser::Item`); a stored post keeps these columns. */
  datatype Item = Item(
    title: string,
    link: string,
    content: string,
    author: string,
    commentsURL: string,
    guid: string,
    datePublished: string,
    thumbnail: string,
    enclosures: seq<Posts.Enclosure>,
    categories: seq<string>)

  /** A row of `posts`. */
  datatype PostRow = PostRow(feedID: UInt64, isRead: bool, item: Item)

  /** A row of `flags`. */
  datatype FlagRow = FlagRow(postID: UInt64, flagID: UInt8)

  /** A row of `scriptfolder_posts`. */
  datatype MembershipRow = MembershipRow(scriptFolderID: UInt64, postID: UInt64)

  /** The columns of `feeds` a refresh copies from the parsed feed. */
  datatype FeedMeta = FeedMeta(
    iconURL: string,
    guid: string,
    title: string,
    subtitle: string,
    link: string,
    description: string,
    language: string,
    copyright: string,
    conditionalGETInfo: Option<string>)

  /** A row of `feeds`. */
  datatype FeedRow = FeedRow(
    url: string,
    folder: UInt64,
    sortOrder: UInt64,
    lastChecked: string,
    lastRefreshError: Option<string>,
    meta: FeedMeta)

  /** A row of `folders`; `parent` 0 is the root. */
  datatype FolderRow = FolderRow(parent: UInt64, title: string, sortOrder: UInt64)

  /** A row of `scripts`; `runOnFeedIDs == None` is SQL NULL. */
  datatype ScriptRow = ScriptRow(
    scriptType: string,
    title: string,
    isEnabled: bool,
    runOnEvents: string,
    runOnFeedIDs: Option<string>,
    script: string)

  /** A row of `scriptfolders`. */
  datatype ScriptFolderRow = ScriptFolderRow(title: string)

  /** The tables. */
  class Database {
    var posts: map<UInt64, PostRow>
    var flags: multiset<FlagRow>
    var memberships: multiset<MembershipRow>
    var feeds: map<UInt64, FeedRow>
    var folders: map<UInt64, FolderRow>
    var scripts: map<UInt64, ScriptRow>
    var scriptFolders: map<UInt64, ScriptFolderRow>

    constructor()
      ensures posts == map[] && flags == multiset{} && memberships == multiset{}
      ensures feeds == map[] && folders == map[] && scripts == map[] && scriptFolders == map[]
    {
      posts := map[];
      flags := multiset{};
      memberships := multiset{};
      feeds := map[];
      folders := map[];
      scripts := map[];
      scriptFolders := map[];
    }
  }

  // ---------------------------------------------------------------- row counts

  /**
   * A table of rows without a key (`flags`, `scriptfolder_posts`) after the
   * rows `rows` are set to occur `n` times each: 0 is a `DELETE`, 1 a
   * `DELETE` followed by an `INSERT`.
   */
  ghost function Recount<T(!new)>(m: multiset<T>, rows: set<T>, n: nat): (r: multiset<T>)
    ensures forall row :: r[row] == if row in rows then n else m[row]
    decreases rows
  {
    if rows == {} then m
    else
      var row :| row in rows;
      Recount(m[row := n], rows - {row}, n)
  }

  /** Recounting in two steps is recounting the union. */
  lemma RecountTwice<T(!new)>(m: multiset<T>, a: set<T>, b: set<T>, n: nat)
    ensures Recount(Recount(m, a, n), b, n) == Recount(m, a + b, n)
  {
    var l := Recount(Recount(m, a, n), b, n);
    var r := Recount(m, a + b, n);
    assert forall row :: l[row] == r[row];
  }

  // ---------------------------------------------------------------- row ids

  /** The largest value of a column, 0 for no rows (`SELECT MAX(...)`, whose NULL reads as 0). */
  ghost function Largest(values: set<UInt64>): (m: UInt64)
    ensures forall k :: k in values ==> k <= m
    ensures m == 0 || m in values
    decreases values
  {
    if values == {} then 0
    else
      var k :| k in values;
      var rest := Largest(values - {k});
      assert forall x :: x in values ==> x == k || x in values - {k};
      if k > rest then k else rest
  }

  /** The loop computing `Largest`. */
  method LargestOf(values: set<UInt64>) returns (m: UInt64)
    ensures m == Largest(values)
  {
    m := 0;
    var rest := values;
    while rest != {}
      invariant rest <= values
      invariant forall k :: k in values - rest ==> k <= m
      invariant m == 0 || m in values
      decreases rest
    {
      var k :| k in rest;
      if k > m {
        m := k;
      }
      assert values - (rest - {k}) == (values - rest) + {k};
      rest := rest - {k};
    }
    var largest := Largest(values);
    assert values - rest == values;
    assert largest <= m && m <= largest;
  }

  /**
   * The id SQLite gives a row inserted into a table holding `keys`: one
   * more than the largest id in use. At the top of the id range SQLite
   * would search for an unused id at random; the model reports a failed
   * insert there instead.
   */
  ghost function NextRowID(keys: set<UInt64>): Option<UInt64>
  {
    var m := Largest(keys);
    if m == UINT64_MAX then None else Some(m + 1)
  }

  /** The error an insert reports when no row id is left (SQLite's SQLITE_FULL). */
  const InsertFailed: string := "database or disk is full"

  lemma NextRowIDFresh(keys: set<UInt64>)
    ensures NextRowID(keys).Some? ==> NextRowID(keys).value !in keys && NextRowID(keys).value > 0
    ensures NextRowID(keys).None? <==> UINT64_MAX in keys
  {
  }

  /** `INSERT` followed by `SELECT last_insert_rowid()`. */
  method NewRowID(keys: set<UInt64>) returns (r: Option<UInt64>)
    ensures r == NextRowID(keys)
  {
    var m := LargestOf(keys);
    r := if m == UINT64_MAX then None else Some(m + 1);
  }

  /** The sortOrder the engine gives the row in position `rank` (from 0) of a renumbering: 10, 20, 30, ... in 64 bits. */
  function SortOrderAt(rank: nat): (r: UInt64)
    ensures 10 * (rank + 1) <= UINT64_MAX ==> r == 10 * (rank + 1)
  {
    (10 * (rank + 1)) % (UINT64_MAX + 1)
  }

  /** Below the top of the 64-bit range, later positions get larger numbers. */
  lemma SortOrderAtIncreasing(i: nat, j: nat, n: nat)
    requires i < j < n && 10 * n <= UINT64_MAX
    ensures SortOrderAt(i) < SortOrderAt(j)
  {
    assert 10 * (j + 1) <= 10 * n;
  }

  /** Ids listed once each. */
  predicate Distinct(ids: seq<UInt64>)
  {
    forall i, j :: 0 <= i < j < |ids| ==> ids[i] != ids[j]
  }

  /** What a renumbering loop over `ids` writes: `SortOrderAt(k)` under the k-th id, a later write winning. */
  function Positions(ids: seq<UInt64>): (r: map<UInt64, UInt64>)
    ensures forall id :: id in r <==> id in ids
    decreases |ids|
  {
    if ids == [] then map[]
    else Positions(ids[..|ids| - 1])[ids[|ids| - 1] := SortOrderAt(|ids| - 1)]
  }

  lemma {:induction false} PositionsAt(ids: seq<UInt64>, k: nat)
    requires Distinct(ids) && k < |ids|
    ensures Positions(ids)[ids[k]] == SortOrderAt(k)
    decreases |ids|
  {
    var front := ids[..|ids| - 1];
    if k < |ids| - 1 {
      assert front[k] == ids[k];
      assert Distinct(front);
      PositionsAt(front, k);
    }
  }

  /** One more step of the loop. */
  lemma PositionsSnoc(ids: seq<UInt64>, i: nat)
    requires i < |ids|
    ensures Positions(ids[..i + 1]) == Positions(ids[..i])[ids[i] := SortOrderAt(i)]
  {
    assert ids[..i + 1][..i] == ids[..i];
  }

  /** The sortOrder counter of the loop, `sortOrder += 10` in 64 bits. */
  lemma SortOrderStep(k: nat)
    ensures SortOrderAt(k + 1) == (SortOrderAt(k) + 10) % (UINT64_MAX + 1)
  {
    var m := UINT64_MAX + 1;
    var a := 10 * (k + 1);
    assert 10 * (k + 2) == a + 10;
    assert a == (a / m) * m + a % m;
    assert (a + 10) % m == (a % m + 10) % m by {
      assert a + 10 == (a / m) * m + (a % m + 10);
    }
  }

  const INT64_MAX: nat := 0x7FFF_FFFF_FFFF_FFFF

  /** An `OFFSET` value bound from a 64-bit unsigned value: SQLite reads it as signed, and treats a negative offset as 0. */
  function SqlOffset(v: UInt64): nat
  {
    if v <= INT64_MAX then v else 0
  }

  /** A `LIMIT` value bound the same way: a negative limit is no limit, here `rows`, the size of the table. */
  function SqlLimit(v: UInt64, rows: nat): nat
  {
    if v <= INT64_MAX then v else rows
  }

  /**
   * A 64-bit unsigned value bound into a statement: SQLite receives the
   * same bits as a signed 64-bit integer, so values above `INT64_MAX` are
   * negative.
   */
  function Signed(v: UInt64): int
  {
    if v <= INT64_MAX then v else v - (UINT64_MAX + 1)
  }

  /** The place of a bound value in SQLite's order on it (by its signed reading), counted from 0. */
  function SignedRank(v: UInt64): nat
  {
    Signed(v) + INT64_MAX + 1
  }

  /** Reading a value as signed loses nothing: distinct values read differently. */
  lemma SignedInjective(a: UInt64, b: UInt64)
    ensures Signed(a) == Signed(b) <==> a == b
  {
  }

  /**
   * `SELECT MAX(...)` over a column of bound values, read back into a
   * `uint64_t`: SQLite takes the largest signed reading, and the `MAX` of
   * no rows reads as 0.
   */
  ghost function SignedLargest(values: set<UInt64>): (m: UInt64)
    ensures forall k :: k in values ==> Signed(k) <= Signed(m)
    ensures values == {} ==> m == 0
    ensures values != {} ==> m in values
    decreases values
  {
    if values == {} then 0
    else
      var k :| k in values;
      var rest := SignedLargest(values - {k});
      assert forall x :: x in values ==> x == k || x in values - {k};
      if values - {k} == {} || Signed(k) > Signed(rest) then k else rest
  }

  /** The aggregate's loop: keep the value with the largest signed reading. */
  method SignedLargestOf(values: set<UInt64>) returns (m: UInt64)
    ensures m == SignedLargest(values)
  {
    m := 0;
    var rest := values;
    while rest != {}
      invariant rest <= values
      invariant forall k :: k in values - rest ==> Signed(k) <= Signed(m)
      invariant values - rest == {} ==> m == 0
      invariant values - rest != {} ==> m in values - rest
      decreases rest
    {
      var k :| k in rest;
      if values - rest == {} || Signed(k) > Signed(m) {
        m := k;
      }
      assert values - (rest - {k}) == (values - rest) + {k};
      rest := rest - {k};
    }
    var largest := SignedLargest(values);
    assert values - rest == values;
    assert Signed(largest) <= Signed(m) && Signed(m) <= Signed(largest);
    SignedInjective(largest, m);
  }

  /**
   * Adding 10 in 64 bits to a value whose signed reading is at least 10
   * below `INT64_MAX` adds 10 to its signed reading: the sum sorts after it.
   */
  lemma SignedAddTen(m: UInt64)
    requires Signed(m) + 10 <= INT64_MAX
    ensures Signed((m + 10) % (UINT64_MAX + 1)) == Signed(m) + 10
  {
    if m + 10 > UINT64_MAX {
      assert (m + 10) % (UINT64_MAX + 1) == m + 10 - (UINT64_MAX + 1);
    }
  }

  // ---------------------------------------------------------------- posts conditions

  /** SQL `text LIKE '%pattern%'`: `pattern` occurs in `text`, ignoring ASCII case. */
  predicate ContainsIgnoringCase(text: string, pattern: string)
  {
    exists i :: 0 <= i <= |text| - |pattern| && OccursAt(text, pattern, i)
  }

  predicate OccursAt(text: string, pattern: string, i: nat)
    requires i + |pattern| <= |text|
  {
    IEquals(text[i..i + |pattern|], pattern)
  }

  /** One term of a `WHERE` clause over `posts`. */
  datatype PostCondition =
    | FeedIs(feedID: UInt64)                    // posts.feedID=?
    | FeedIn(feedIDs: set<UInt64>)              // posts.feedID IN (...)
    | IDIs(postID: UInt64)                      // posts.id=?
    | IDAtMost(maxPostID: UInt64)               // posts.id <= ?, compared as signed 64-bit integers
    | GuidIs(guid: string)                      // posts.guid=?
    | Unread                                    // posts.isRead=FALSE
    | Mentions(searchFilter: string)            // (posts.title LIKE ? OR posts.content LIKE ?)
    | FlaggedAs(flagID: UInt8)                  // posts.id IN (SELECT postID FROM flags WHERE flagID=?)
    | InScriptFolder(scriptFolderID: UInt64)    // posts.id IN (SELECT postID FROM scriptfolder_posts ...)

  predicate Satisfies(c: PostCondition, id: UInt64, row: PostRow, flags: multiset<FlagRow>, memberships: multiset<MembershipRow>)
  {
    match c
    case FeedIs(f) => row.feedID == f
    case FeedIn(fs) => row.feedID in fs
    case IDIs(p) => id == p
    case IDAtMost(m) => Signed(id) <= Signed(m)
    case GuidIs(g) => row.item.guid == g
    case Unread => !row.isRead
    case Mentions(s) => ContainsIgnoringCase(row.item.title, s) || ContainsIgnoringCase(row.item.content, s)
    case FlaggedAs(fc) => FlagRow(id, fc) in flags
    case InScriptFolder(sf) => MembershipRow(sf, id) in memberships
  }

  /** The terms joined by " AND "; no terms at all (no `WHERE`) matches every row. */
  predicate SatisfiesAll(cs: seq<PostCondition>, id: UInt64, row: PostRow, flags: multiset<FlagRow>, memberships: multiset<MembershipRow>)
  {
    forall k :: 0 <= k < |cs| ==> Satisfies(cs[k], id, row, flags, memberships)
  }

  lemma SatisfiesAllSingle(c: PostCondition, id: UInt64, row: PostRow, flags: multiset<FlagRow>, memberships: multiset<MembershipRow>)
    ensures SatisfiesAll([c], id, row, flags, memberships) <==> Satisfies(c, id, row, flags, memberships)
  {
    assert [c][0] == c;
  }

  lemma SatisfiesAllConcat(a: seq<PostCondition>, b: seq<PostCondition>, id: UInt64, row: PostRow, flags: multiset<FlagRow>, memberships: multiset<MembershipRow>)
    ensures SatisfiesAll(a + b, id, row, flags, memberships)
        <==> SatisfiesAll(a, id, row, flags, memberships) && SatisfiesAll(b, id, row, flags, memberships)
  {
    if SatisfiesAll(a, id, row, flags, memberships) && SatisfiesAll(b, id, row, flags, memberships) {
      forall k | 0 <= k < |a + b| ensures Satisfies((a + b)[k], id, row, flags, memberships) {
        if k >= |a| {
          assert (a + b)[k] == b[k - |a|];
        }
      }
    }
    if SatisfiesAll(a + b, id, row, flags, memberships) {
      forall k | 0 <= k < |a| ensures Satisfies(a[k], id, row, flags, memberships) {
        assert (a + b)[k] == a[k];
      }
      forall k | 0 <= k < |b| ensures Satisfies(b[k], id, row, flags, memberships) {
        assert (a + b)[|a| + k] == b[k];
      }
    }
  }

  /** The ids of the rows a `WHERE` clause selects. */
  function Matching(posts: map<UInt64, PostRow>, cs: seq<PostCondition>, flags: multiset<FlagRow>, memberships: multiset<MembershipRow>): (r: set<UInt64>)
    ensures forall id :: id in r <==> id in posts && SatisfiesAll(cs, id, posts[id], flags, memberships)
  {
    set id | id in posts && SatisfiesAll(cs, id, posts[id], flags, memberships)
  }
}
