/**
 * Scripts in the `scripts` table (`local/ScriptLocal.cpp`): how a script's
 * events and feed set are written into the `runOnEvents` and
 * `runOnFeedIDs` columns, how rows are read back into scripts, and the
 * listing `getScripts` takes in `ORDER BY scripts.id DESC` order.
 */
module ScriptLocal {
  import opened Wrappers
  import opened Strings
  import opened Ordering
  import opened Store
  import opened Scripts
  import Helpers

  // ---------------------------------------------------------------- writing

  /** The events in the fixed order the column stores them: "newpost" before "updatepost". */
  function EventOrder(events: set<Event>): (r: seq<Event>)
    ensures forall e :: e in r <==> e in events
    ensures |r| == 2 ==> r == [NewPost, UpdatePost]
  {
    assert forall e :: e in events ==> e == NewPost || e == UpdatePost;
    (if NewPost in events then [NewPost] else []) + (if UpdatePost in events then [UpdatePost] else [])
  }

  /** The `runOnEvents` column for a set of events. */
  function StoredEvents(events: set<Event>): string
  {
    Helpers.Join(Identifiers(EventOrder(events)), ",")
  }

  /** The four possible column values. */
  lemma StoredEventsValues(events: set<Event>)
    ensures events == {} ==> StoredEvents(events) == ""
    ensures events == {NewPost} ==> StoredEvents(events) == "newpost"
    ensures events == {UpdatePost} ==> StoredEvents(events) == "updatepost"
    ensures events == {NewPost, UpdatePost} ==> StoredEvents(events) == "newpost,updatepost"
  {
    JoinedIdentifiers();
    if events == {NewPost, UpdatePost} {
      assert NewPost in events && UpdatePost in events;
      assert EventOrder(events) == [NewPost, UpdatePost];
    } else if events == {NewPost} {
      assert UpdatePost !in events;
      assert EventOrder(events) == [NewPost];
    } else if events == {UpdatePost} {
      assert NewPost !in events;
      assert EventOrder(events) == [UpdatePost];
    } else if events == {} {
      assert EventOrder(events) == [];
    }
  }

  /** The column texts of the four event orders. */
  lemma JoinedIdentifiers()
    ensures Helpers.Join(Identifiers([]), ",") == ""
    ensures Helpers.Join(Identifiers([NewPost]), ",") == "newpost"
    ensures Helpers.Join(Identifiers([UpdatePost]), ",") == "updatepost"
    ensures Helpers.Join(Identifiers([NewPost, UpdatePost]), ",") == "newpost,updatepost"
  {
    assert Identifiers([NewPost, UpdatePost]) == [NewPostIdentifier, UpdatePostIdentifier];
    assert Helpers.Join([NewPostIdentifier, UpdatePostIdentifier], ",")
        == NewPostIdentifier + "," + Helpers.Join([UpdatePostIdentifier], ",");
  }

  /** Reading the column back gives the events that were written. */
  lemma StoredEventsRoundTrip(events: set<Event>)
    ensures EventsNamedIn(StoredEvents(events)) == events
  {
    EventsNamedInJoin(EventOrder(events));
  }

  /** The loop of `create` and `update` that builds the event identifiers before joining them. */
  method EncodeEvents(events: set<Event>) returns (r: string)
    ensures r == StoredEvents(events)
  {
    var eventStrings: seq<string> := [];
    if NewPost in events {
      eventStrings := eventStrings + [NewPostIdentifier];
    }
    if UpdatePost in events {
      eventStrings := eventStrings + [UpdatePostIdentifier];
    }
    assert eventStrings == Identifiers(EventOrder(events));
    r := Helpers.JoinString(eventStrings, ",");
  }

  /**
   * The `runOnFeedIDs` column for a feed set: NULL (None) for "every feed",
   * otherwise the ids joined by "," in the set's iteration order.
   */
  method EncodeFeedIDs(feedIDs: Option<set<UInt64>>) returns (r: Option<string>)
    ensures r.None? <==> feedIDs.None?
    ensures r.Some? ==> FeedIDsNamedIn(r.value) == feedIDs.value
  {
    if feedIDs.None? {
      return None;
    }
    var f := FeedIDVector(feedIDs.value);
    var joined := Helpers.JoinIDNumbers(f, ",");
    FeedIDsNamedInJoin(f);
    r := Some(joined);
  }

  /** `create`: inserts a Lua row; returns the id it was given, None when the insert fails. */
  method Create(db: Database, title: string, enabled: bool, events: set<Event>,
                feedIDs: Option<set<UInt64>>, script: string) returns (id: Option<UInt64>)
    modifies db`scripts
    ensures id.None? <==> UINT64_MAX in old(db.scripts)
    ensures id.None? ==> db.scripts == old(db.scripts)
    ensures id.Some? ==> id.value !in old(db.scripts) && db.scripts.Keys == old(db.scripts).Keys + {id.value}
    ensures id.Some? ==> forall k :: k in old(db.scripts) ==> db.scripts[k] == old(db.scripts)[k]
    ensures id.Some? ==> RowHolds(db.scripts[id.value], LuaIdentifier, title, enabled, events, feedIDs, script)
  {
    var joinedEvents := EncodeEvents(events);
    var joinedFeedIDs := EncodeFeedIDs(feedIDs);
    id := NewRowID(db.scripts.Keys);
    NextRowIDFresh(db.scripts.Keys);
    if id.Some? {
      db.scripts := db.scripts[id.value := ScriptRow(LuaIdentifier, title, enabled, joinedEvents, joinedFeedIDs, script)];
    }
  }

  /** A row holds these settings: the events column is the fixed-order string, the feed column names exactly the set. */
  predicate RowHolds(row: ScriptRow, scriptType: string, title: string, enabled: bool, events: set<Event>,
                     feedIDs: Option<set<UInt64>>, script: string)
  {
    && row.scriptType == scriptType && row.title == title && row.isEnabled == enabled && row.script == script
    && row.runOnEvents == StoredEvents(events)
    && row.runOnFeedIDs.None? == feedIDs.None?
    && (row.runOnFeedIDs.Some? ==> FeedIDsNamedIn(row.runOnFeedIDs.value) == feedIDs.value)
  }

  /** `update`: rewrites every column but the type of the row with that id; a missing row is left alone. */
  method Update(db: Database, id: UInt64, title: string, enabled: bool, events: set<Event>,
                feedIDs: Option<set<UInt64>>, script: string)
    modifies db`scripts
    ensures db.scripts.Keys == old(db.scripts).Keys
    ensures forall k :: k in db.scripts && k != id ==> db.scripts[k] == old(db.scripts)[k]
    ensures id in db.scripts ==>
      RowHolds(db.scripts[id], old(db.scripts)[id].scriptType, title, enabled, events, feedIDs, script)
  {
    var joinedEvents := EncodeEvents(events);
    var joinedFeedIDs := EncodeFeedIDs(feedIDs);
    if id in db.scripts {
      db.scripts := db.scripts[id := ScriptRow(db.scripts[id].scriptType, title, enabled, joinedEvents, joinedFeedIDs, script)];
    }
  }

  /** `remove`: deletes the row with that id and nothing else. */
  method Remove(db: Database, id: UInt64)
    modifies db`scripts
    ensures db.scripts == old(db.scripts) - {id}
  {
    db.scripts := db.scripts - {id};
  }

  // ---------------------------------------------------------------- reading

  /**
   * The script a row is read as: only rows of type "lua" are read; a NULL
   * feed column and one that names no feed both read as "every feed".
   */
  function Decode(id: UInt64, row: ScriptRow): (r: Option<Script>)
    ensures r.Some? <==> row.scriptType == LuaIdentifier
    ensures r.Some? ==> r.value.id == id && r.value.title == row.title && r.value.isEnabled == row.isEnabled
                        && r.value.script == row.script && r.value.runOnEvents == EventsNamedIn(row.runOnEvents)
    ensures r.Some? ==> (r.value.runOnFeedIDs.None?
                         <==> row.runOnFeedIDs.None? || FeedIDsNamedIn(row.runOnFeedIDs.value) == {})
    ensures r.Some? && r.value.runOnFeedIDs.Some? ==> r.value.runOnFeedIDs.value == FeedIDsNamedIn(row.runOnFeedIDs.value)
  {
    if row.scriptType != LuaIdentifier then None
    else
      var feedIDs := if row.runOnFeedIDs.None? then None
                     else if FeedIDsNamedIn(row.runOnFeedIDs.value) == {} then None
                     else Some(FeedIDsNamedIn(row.runOnFeedIDs.value));
      Some(Script(id, Lua, row.title, row.isEnabled, EventsNamedIn(row.runOnEvents), feedIDs, row.script))
  }

  /** The body of the read loop of `queryMultiple` and of `querySingle` for one row. */
  method DecodeRow(id: UInt64, row: ScriptRow) returns (r: Option<Script>)
    ensures r == Decode(id, row)
  {
    if row.scriptType != LuaIdentifier {
      return None;
    }
    var events := ParseRunOnEvents(row.runOnEvents);
    var runOn: Option<set<UInt64>> := None;
    if row.runOnFeedIDs.Some? {
      var feedIDs := ParseRunOnFeedIDs(row.runOnFeedIDs.value);
      if |feedIDs| > 0 {
        runOn := Some(feedIDs);
      }
    }
    r := Some(Script(id, Lua, row.title, row.isEnabled, events, runOn, row.script));
  }

  /**
   * Writing a script and reading it back gives it back, except that an
   * explicitly empty feed set comes back as "every feed".
   */
  lemma StoredScriptRoundTrip(s: Script, row: ScriptRow)
    requires RowHolds(row, LuaIdentifier, s.title, s.isEnabled, s.runOnEvents, s.runOnFeedIDs, s.script)
    ensures Decode(s.id, row) == Some(if s.runOnFeedIDs == Some({}) then s.(runOnFeedIDs := None) else s)
  {
    StoredEventsRoundTrip(s.runOnEvents);
    assert s.scriptType == Lua;
    if s.runOnFeedIDs.Some? {
      assert FeedIDsNamedIn(row.runOnFeedIDs.value) == s.runOnFeedIDs.value;
    }
  }

  /** The quirk on its own: a script restricted to no feed at all is read back as one that runs on every feed. */
  lemma EmptyFeedSetReadsAsEveryFeed(row: ScriptRow)
    requires row.scriptType == LuaIdentifier && row.runOnFeedIDs == Some("")
    ensures Decode(0, row).Some? && Decode(0, row).value.runOnFeedIDs.None?
  {
    assert Tokenize("", ',') == [] by {
      assert Split("", ',') == [];
    }
  }

  /** `ORDER BY scripts.id DESC`: the rows as ranks `UINT64_MAX - id`. */
  function DescendingIDs(scripts: map<UInt64, ScriptRow>): (ranks: map<UInt64, nat>)
    ensures ranks.Keys == scripts.Keys
    ensures forall id :: id in ranks ==> ranks[id] == UINT64_MAX - id
  {
    map id | id in scripts :: UINT64_MAX - id
  }

  /** The Lua scripts among the rows `ids`, in that order. */
  function DecodeAll(scripts: map<UInt64, ScriptRow>, ids: seq<UInt64>): (r: seq<Script>)
    decreases |ids|
  {
    if ids == [] then []
    else
      var last := ids[|ids| - 1];
      var d := if last in scripts then Decode(last, scripts[last]) else None;
      DecodeAll(scripts, ids[..|ids| - 1]) + (if d.Some? then [d.value] else [])
  }

  /** `getScripts`: every Lua row, read, by descending id. */
  ghost function Listing(scripts: map<UInt64, ScriptRow>): seq<Script>
  {
    DecodeAll(scripts, RankOrder(DescendingIDs(scripts)))
  }

  lemma {:induction false} DecodeAllMembers(scripts: map<UInt64, ScriptRow>, ids: seq<UInt64>, s: Script)
    requires forall i :: 0 <= i < |ids| ==> ids[i] in scripts
    ensures s in DecodeAll(scripts, ids) <==> s.id in ids && Decode(s.id, scripts[s.id]) == Some(s)
    decreases |ids|
  {
    if ids != [] {
      var front := ids[..|ids| - 1];
      DecodeAllMembers(scripts, front, s);
      assert ids == front + [ids[|ids| - 1]];
    }
  }

  predicate Descending(ids: seq<UInt64>)
  {
    forall i, j :: 0 <= i < j < |ids| ==> ids[i] > ids[j]
  }

  predicate ScriptsDescend(l: seq<Script>)
  {
    forall i, j :: 0 <= i < j < |l| ==> l[i].id > l[j].id
  }

  lemma {:induction false} DecodeAllOrder(scripts: map<UInt64, ScriptRow>, ids: seq<UInt64>)
    requires forall i :: 0 <= i < |ids| ==> ids[i] in scripts
    requires Descending(ids)
    ensures ScriptsDescend(DecodeAll(scripts, ids))
    decreases |ids|
  {
    if ids != [] {
      var front := ids[..|ids| - 1];
      var last := ids[|ids| - 1];
      DecodeAllOrder(scripts, front);
      var r := DecodeAll(scripts, ids);
      var head := DecodeAll(scripts, front);
      forall i | 0 <= i < |head| ensures head[i].id > last {
        DecodeAllMembers(scripts, front, head[i]);
        assert head[i] in head;
        var k :| 0 <= k < |front| && front[k] == head[i].id;
      }
    }
  }

  /** Ids listed by descending id do descend. */
  lemma DescendingPair(scripts: map<UInt64, ScriptRow>, i: nat, j: nat)
    requires i < j < |RankOrder(DescendingIDs(scripts))|
    ensures RankOrder(DescendingIDs(scripts))[i] > RankOrder(DescendingIDs(scripts))[j]
  {
    var ranks := DescendingIDs(scripts);
    RankOrderSorted(ranks, i, j);
    var a, b := RankOrder(ranks)[i], RankOrder(ranks)[j];
    assert ranks[a] == UINT64_MAX - a && ranks[b] == UINT64_MAX - b;
  }

  lemma DescendingOrder(scripts: map<UInt64, ScriptRow>)
    ensures var o := RankOrder(DescendingIDs(scripts));
      (forall i :: 0 <= i < |o| ==> o[i] in scripts) && Descending(o)
  {
    var o := RankOrder(DescendingIDs(scripts));
    RankOrderContents(DescendingIDs(scripts));
    forall i, j | 0 <= i < j < |o| ensures o[i] > o[j] {
      DescendingPair(scripts, i, j);
    }
  }

  /** The listing holds exactly the rows of type "lua", each read as `Decode` reads it. */
  lemma ListingMembers(scripts: map<UInt64, ScriptRow>, s: Script)
    ensures s in Listing(scripts) <==> s.id in scripts && Decode(s.id, scripts[s.id]) == Some(s)
  {
    var o := RankOrder(DescendingIDs(scripts));
    DescendingOrder(scripts);
    DecodeAllMembers(scripts, o, s);
    RankOrderContents(DescendingIDs(scripts));
  }

  /** The listing's ids strictly descend. */
  lemma ListingDescends(scripts: map<UInt64, ScriptRow>)
    ensures ScriptsDescend(Listing(scripts))
  {
    var o := RankOrder(DescendingIDs(scripts));
    DescendingOrder(scripts);
    DecodeAllOrder(scripts, o);
  }

  lemma DecodeAllSnoc(scripts: map<UInt64, ScriptRow>, ids: seq<UInt64>, i: nat)
    requires i < |ids| && ids[i] in scripts
    ensures var d := Decode(ids[i], scripts[ids[i]]);
      DecodeAll(scripts, ids[..i + 1]) == DecodeAll(scripts, ids[..i]) + (if d.Some? then [d.value] else [])
  {
    assert ids[..i + 1][..i] == ids[..i];
  }

  /** `queryMultiple` with `ORDER BY scripts.id DESC`, as `getScripts` issues it. */
  method GetScripts(db: Database) returns (r: seq<Script>)
    ensures r == Listing(db.scripts)
  {
    var ids := ListRanked(DescendingIDs(db.scripts));
    RankOrderContents(DescendingIDs(db.scripts));
    r := [];
    var i := 0;
    while i < |ids|
      invariant 0 <= i <= |ids|
      invariant r == DecodeAll(db.scripts, ids[..i])
    {
      assert ids[i] in ids;
      DecodeAllSnoc(db.scripts, ids, i);
      var d := DecodeRow(ids[i], db.scripts[ids[i]]);
      if d.Some? {
        r := r + [d.value];
      }
      i := i + 1;
    }
    assert ids[..i] == ids;
  }

  /** `querySingle` on `scripts.id=?`: the row read as `Decode` reads it; nothing for a missing or non-Lua row. */
  method GetScript(db: Database, id: UInt64) returns (r: Option<Script>)
    ensures r == if id in db.scripts then Decode(id, db.scripts[id]) else None
  {
    if id !in db.scripts {
      return None;
    }
    r := DecodeRow(id, db.scripts[id]);
  }
}
