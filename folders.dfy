/**
 * Folders as they travel as JSON: the recursive encoder of
 * `base/Folder.cpp` and the recursive decoder of `remote/FolderRemote.cpp`.
 * A folder owns its subfolders outright, so a subfolder is held as a
 * value; the folder being built or encoded is an object.
 */
module Folders {
  import opened Wrappers
  import opened Strings
  import opened Json
  import StatisticObjects

  datatype Statistic = FeedCount | PostCount | FlaggedPostCount | OldestPost | NewestPost

  const JSONIdentifierFolderStatisticMap: map<string, Statistic> := map[
    "feedCount" := FeedCount, "postCount" := PostCount, "flaggedPostCount" := FlaggedPostCount,
    "oldestPost" := OldestPost, "newestPost" := NewestPost]

  const FolderStatisticJSONIdentifierMap: map<Statistic, string> := map[
    FeedCount := "feedCount", PostCount := "postCount", FlaggedPostCount := "flaggedPostCount",
    OldestPost := "oldestPost", NewestPost := "newestPost"]

  /** Every statistic has an identifier and the two tables are each other's inverse. */
  lemma StatisticMapsInverse()
    ensures forall s: Statistic :: s in FolderStatisticJSONIdentifierMap
    ensures StatisticObjects.Inverse(FolderStatisticJSONIdentifierMap, JSONIdentifierFolderStatisticMap)
  {
    forall s: Statistic
      ensures s in FolderStatisticJSONIdentifierMap
      ensures FolderStatisticJSONIdentifierMap[s] in JSONIdentifierFolderStatisticMap
      ensures JSONIdentifierFolderStatisticMap[FolderStatisticJSONIdentifierMap[s]] == s
    {
      match s
      case FeedCount =>
      case PostCount =>
      case FlaggedPostCount =>
      case OldestPost =>
      case NewestPost =>
    }
  }

  const KeyID: string := "id"
  const KeyTitle: string := "title"
  const KeyParent: string := "parent"
  const KeySortOrder: string := "sortOrder"
  const KeySubfolders: string := "subfolders"
  const KeyStatistics: string := "statistics"
  const KeyFeedIDs: string := "feedIDs"

  /** Dereferencing the null that a missing or mistyped object or array yields. */
  const NullDereference: string := "Null pointer dereference"

  /** Equal-length keys differ in their second character. */
  lemma KeysDistinct()
    ensures |KeyID| == 2 && |KeyTitle| == 5 && |KeyParent| == 6 && |KeyFeedIDs| == 7 && |KeySortOrder| == 9
    ensures |KeySubfolders| == 10 && |KeyStatistics| == 10 && KeySubfolders[1] != KeyStatistics[1]
  {
  }

  /** A folder with its subfolders, each owned by exactly one parent. */
  datatype FolderValue = FolderValue(
    id: UInt64, parentID: UInt64, title: string, sortOrder: UInt64,
    statistics: map<Statistic, string>, subfolders: seq<FolderValue>, feedIDs: seq<UInt64>)

  // ---------------------------------------------------------------- encoding

  function EncodeStatistics(stats: map<Statistic, string>): Object
  {
    StatisticObjects.Encode(stats, FolderStatisticJSONIdentifierMap, JSONIdentifierFolderStatisticMap)
  }

  function EncodeFeedIDs(ids: seq<UInt64>): seq<Json>
  {
    seq(|ids|, i requires 0 <= i < |ids| => JInt(ids[i]))
  }

  function EncodeSubfolders(fs: seq<FolderValue>): seq<Json>
    decreases fs, 2
  {
    if fs == [] then [] else [JObject(EncodeFolder(fs[0]))] + EncodeSubfolders(fs[1..])
  }

  /**
   * `Folder::toJSON`: id, title, parent, sort order, the subfolders array
   * and the feed-id array always; the statistics object only when there
   * are statistics.
   */
  function EncodeFolder(f: FolderValue): Object
    decreases f, 1
  {
    var base := EncodeFields(f);
    if |f.statistics| > 0 then base[KeyStatistics := JObject(EncodeStatistics(f.statistics))] else base
  }

  /** The six entries `toJSON` always writes. */
  function EncodeFields(f: FolderValue): Object
    decreases f, 0
  {
    map[
      KeyID := JInt(f.id), KeyTitle := JString(f.title), KeyParent := JInt(f.parentID),
      KeySortOrder := JInt(f.sortOrder), KeySubfolders := JArray(EncodeSubfolders(f.subfolders)),
      KeyFeedIDs := JArray(EncodeFeedIDs(f.feedIDs))]
  }

  /** The statistics entry leaves the six fields alone. */
  lemma StatisticsKeepFields(f: FolderValue, key: string)
    requires key != KeyStatistics
    ensures key in EncodeFolder(f) <==> key in EncodeFields(f)
    ensures key in EncodeFields(f) ==> EncodeFolder(f)[key] == EncodeFields(f)[key]
  {
  }

  /** The six fields and nothing else; the statistics key is not among them. */
  lemma EncodedFields(f: FolderValue)
    ensures EncodeFields(f).Keys == {KeyID, KeyTitle, KeyParent, KeySortOrder, KeySubfolders, KeyFeedIDs}
    ensures KeyStatistics !in EncodeFields(f)
  {
    KeysDistinct();
  }

  /**
   * The subfolders and the feed ids are written in their order, one
   * element each; the statistics are written exactly when there are some.
   */
  lemma EncodedShape(f: FolderValue)
    ensures KeySubfolders in EncodeFolder(f) && KeyFeedIDs in EncodeFolder(f)
    ensures EncodeFolder(f)[KeySubfolders] == JArray(EncodeSubfolders(f.subfolders))
    ensures EncodeFolder(f)[KeyFeedIDs] == JArray(EncodeFeedIDs(f.feedIDs))
    ensures KeyStatistics in EncodeFolder(f) <==> |f.statistics| > 0
    ensures |EncodeSubfolders(f.subfolders)| == |f.subfolders|
    ensures forall i :: 0 <= i < |f.subfolders| ==> EncodeSubfolders(f.subfolders)[i] == JObject(EncodeFolder(f.subfolders[i]))
    ensures |EncodeFeedIDs(f.feedIDs)| == |f.feedIDs|
    ensures forall i :: 0 <= i < |f.feedIDs| ==> EncodeFeedIDs(f.feedIDs)[i] == JInt(f.feedIDs[i])
  {
    EncodedFields(f);
    StatisticsKeepFields(f, KeySubfolders);
    StatisticsKeepFields(f, KeyFeedIDs);
    SubfoldersInOrder(f.subfolders);
  }

  lemma {:induction false} SubfoldersInOrder(fs: seq<FolderValue>)
    ensures |EncodeSubfolders(fs)| == |fs|
    ensures forall i :: 0 <= i < |fs| ==> EncodeSubfolders(fs)[i] == JObject(EncodeFolder(fs[i]))
  {
    if fs != [] {
      SubfoldersInOrder(fs[1..]);
      assert forall i :: 1 <= i < |fs| ==> fs[1..][i - 1] == fs[i];
    }
  }

  /** Encoding one more subfolder appends its object to the array. */
  lemma {:induction false} EncodeSubfoldersAppend(fs: seq<FolderValue>, f: FolderValue)
    ensures EncodeSubfolders(fs + [f]) == EncodeSubfolders(fs) + [JObject(EncodeFolder(f))]
  {
    if fs == [] {
      assert [f][1..] == [];
    } else {
      assert (fs + [f])[1..] == fs[1..] + [f];
      EncodeSubfoldersAppend(fs[1..], f);
    }
  }

  // ---------------------------------------------------------------- decoding

  /** The statistics object under the statistics key of `o`; a missing or mistyped object is dereferenced. */
  function DecodeStatistics(o: Object): Result<map<Statistic, string>>
  {
    if KeyStatistics !in o || !o[KeyStatistics].JObject? then Err(NullDereference)
    else if !StatisticObjects.Readable(o[KeyStatistics].fields, JSONIdentifierFolderStatisticMap) then
      Err(MissingValue + KeyStatistics)
    else Ok(StatisticObjects.Decoded(o[KeyStatistics].fields, FolderStatisticJSONIdentifierMap, JSONIdentifierFolderStatisticMap))
  }

  /** `getElement<uint64_t>` on each element of the feed-id array. */
  function DecodeFeedIDs(js: seq<Json>): (r: Result<seq<UInt64>>)
  {
    if js == [] then Ok([])
    else if !js[0].JInt? || !(0 <= js[0].n <= UINT64_MAX) then Err(MissingValue + KeyFeedIDs)
    else Prepend([js[0].n as UInt64], DecodeFeedIDs(js[1..]))
  }

  /**
   * The `constructFolder` lambda of `FolderRemote::fromJSON`. With
   * `statsRoot == None` every folder reads its statistics from its own
   * object; with `statsRoot == Some(root)` every folder that has a
   * statistics key reads the statistics of `root`.
   */
  function DecodeTree(statsRoot: Option<Object>, j: Json): Result<FolderValue>
    decreases j
  {
    if !j.JObject? then Err(NullDereference) else
    var o := j.fields;
    var header := DecodeHeader(statsRoot, o);
    if header.Err? then Err(header.error) else
    var subfolders := if KeySubfolders !in o then Ok([])
      else if !o[KeySubfolders].JArray? then Err(NullDereference)
      else DecodeSubfolders(statsRoot, o[KeySubfolders].elements);
    if subfolders.Err? then Err(subfolders.error) else
    var feedIDs := if KeyFeedIDs !in o || !o[KeyFeedIDs].JArray? then Err(NullDereference)
      else DecodeFeedIDs(o[KeyFeedIDs].elements);
    if feedIDs.Err? then Err(feedIDs.error) else
    Ok(header.value.(subfolders := subfolders.value, feedIDs := feedIDs.value))
  }

  /** The id, parent, title, sort order and statistics of one folder object, without its lists. */
  function DecodeHeader(statsRoot: Option<Object>, o: Object): Result<FolderValue>
  {
    var id := GetUInt64(o, KeyID);
    if id.Err? then Err(id.error) else
    var parent := GetUInt64(o, KeyParent);
    if parent.Err? then Err(parent.error) else
    var title := GetString(o, KeyTitle);
    if title.Err? then Err(title.error) else
    var sortOrder := GetUInt64(o, KeySortOrder);
    if sortOrder.Err? then Err(sortOrder.error) else
    var statistics := if KeyStatistics !in o then Ok(map[])
      else DecodeStatistics(if statsRoot.Some? then statsRoot.value else o);
    if statistics.Err? then Err(statistics.error) else
    Ok(FolderValue(id.value, parent.value, title.value, sortOrder.value, statistics.value, [], []))
  }

  /** The subfolder array, decoded element by element in array order. */
  function DecodeSubfolders(statsRoot: Option<Object>, js: seq<Json>): Result<seq<FolderValue>>
    decreases js
  {
    if js == [] then Ok([]) else
    var head := DecodeTree(statsRoot, js[0]);
    if head.Err? then Err(head.error) else
    Prepend([head.value], DecodeSubfolders(statsRoot, js[1..]))
  }

  /** The decoder as intended: each folder's statistics come from its own object. */
  function DecodeFolder(j: Json): Result<FolderValue>
  {
    DecodeTree(None, j)
  }

  /** The decoder as written: every nested folder reads the statistics of the root object `o`. */
  function DecodeFolderAsWritten(o: Object): Result<FolderValue>
  {
    DecodeTree(Some(o), JObject(o))
  }

  // ---------------------------------------------------------------- round trips

  lemma DecodeEncodedFeedIDs(ids: seq<UInt64>)
    ensures DecodeFeedIDs(EncodeFeedIDs(ids)) == Ok(ids)
  {
    if ids != [] {
      assert EncodeFeedIDs(ids)[1..] == EncodeFeedIDs(ids[1..]);
      DecodeEncodedFeedIDs(ids[1..]);
      assert [ids[0]] + ids[1..] == ids;
    }
  }

  lemma DecodeEncodedStatistics(stats: map<Statistic, string>)
    requires |stats| > 0
    ensures DecodeStatistics(map[KeyStatistics := JObject(EncodeStatistics(stats))]) == Ok(stats)
  {
    StatisticMapsInverse();
    StatisticObjects.DecodeEncoded(stats, FolderStatisticJSONIdentifierMap, JSONIdentifierFolderStatisticMap);
  }

  /** The statistics entry of an encoded folder, read from its own object. */
  lemma EncodedStatistics(f: FolderValue)
    ensures KeyStatistics in EncodeFolder(f) ==> DecodeStatistics(EncodeFolder(f)) == Ok(f.statistics)
    ensures KeyStatistics !in EncodeFolder(f) ==> f.statistics == map[]
  {
    EncodedShape(f);
    if |f.statistics| > 0 {
      var o := EncodeFolder(f);
      DecodeEncodedStatistics(f.statistics);
      assert o[KeyStatistics] == map[KeyStatistics := JObject(EncodeStatistics(f.statistics))][KeyStatistics];
    }
  }

  /** The four scalar fields of an encoded folder. */
  lemma EncodedScalars(f: FolderValue)
    ensures GetUInt64(EncodeFolder(f), KeyID) == Ok(f.id)
    ensures GetUInt64(EncodeFolder(f), KeyParent) == Ok(f.parentID)
    ensures GetString(EncodeFolder(f), KeyTitle) == Ok(f.title)
    ensures GetUInt64(EncodeFolder(f), KeySortOrder) == Ok(f.sortOrder)
  {
    EncodedFields(f);
    StatisticsKeepFields(f, KeyID);
    StatisticsKeepFields(f, KeyParent);
    StatisticsKeepFields(f, KeyTitle);
    StatisticsKeepFields(f, KeySortOrder);
  }

  /**
   * Decoding what `toJSON` writes rebuilds the folder at every level:
   * id, parent, title, sort order, statistics, the subfolders in order
   * and the feed ids in order.
   */
  lemma {:induction false} DecodeEncodedFolder(f: FolderValue)
    ensures DecodeFolder(JObject(EncodeFolder(f))) == Ok(f)
    decreases f
  {
    EncodedScalars(f);
    EncodedShape(f);
    EncodedStatistics(f);
    DecodeEncodedSubfolders(f.subfolders);
    DecodeEncodedFeedIDs(f.feedIDs);
  }

  lemma {:induction false} DecodeEncodedSubfolders(fs: seq<FolderValue>)
    ensures DecodeSubfolders(None, EncodeSubfolders(fs)) == Ok(fs)
    decreases fs
  {
    if fs != [] {
      var js := EncodeSubfolders(fs);
      assert js[0] == JObject(EncodeFolder(fs[0])) && js[1..] == EncodeSubfolders(fs[1..]);
      DecodeEncodedFolder(fs[0]);
      DecodeEncodedSubfolders(fs[1..]);
      assert [fs[0]] + fs[1..] == fs;
    }
  }

  /** Without the feed-id array no folder decodes, at any level. */
  lemma DecodeNeedsFeedIDs(statsRoot: Option<Object>, o: Object)
    requires KeyFeedIDs !in o
    ensures DecodeTree(statsRoot, JObject(o)).Err?
  {
  }

  /** A subfolder that does not decode makes the whole folder fail. */
  lemma SubfolderErrorPropagates(statsRoot: Option<Object>, o: Object, i: nat)
    requires KeySubfolders in o && o[KeySubfolders].JArray? && i < |o[KeySubfolders].elements|
    requires DecodeTree(statsRoot, o[KeySubfolders].elements[i]).Err?
    ensures DecodeTree(statsRoot, JObject(o)).Err?
  {
    SubfolderErrorInList(statsRoot, o[KeySubfolders].elements, i);
  }

  lemma {:induction false} SubfolderErrorInList(statsRoot: Option<Object>, js: seq<Json>, i: nat)
    requires i < |js| && DecodeTree(statsRoot, js[i]).Err?
    ensures DecodeSubfolders(statsRoot, js).Err?
  {
    if i > 0 && DecodeTree(statsRoot, js[0]).Ok? {
      SubfolderErrorInList(statsRoot, js[1..], i - 1);
    }
  }

  // ---------------------------------------------------------------- the as-written decoder

  /** What the as-written decoder yields: every folder that has statistics gets `rootStats`. */
  function WithRootStatistics(rootStats: map<Statistic, string>, f: FolderValue): FolderValue
    decreases f
  {
    f.(statistics := if |f.statistics| > 0 then rootStats else map[],
       subfolders := SubfoldersWithRootStatistics(rootStats, f.subfolders))
  }

  function SubfoldersWithRootStatistics(rootStats: map<Statistic, string>, fs: seq<FolderValue>): seq<FolderValue>
    decreases fs
  {
    if fs == [] then [] else [WithRootStatistics(rootStats, fs[0])] + SubfoldersWithRootStatistics(rootStats, fs[1..])
  }

  /**
   * When the root has statistics, the as-written decoder gives every
   * nested folder that has statistics the root's statistics instead of
   * its own.
   */
  lemma {:induction false} AsWrittenTakesRootStatistics(root: Object, f: FolderValue)
    requires DecodeStatistics(root).Ok?
    ensures DecodeTree(Some(root), JObject(EncodeFolder(f))) == Ok(WithRootStatistics(DecodeStatistics(root).value, f))
    decreases f
  {
    EncodedScalars(f);
    EncodedShape(f);
    EncodedStatistics(f);
    AsWrittenSubfolders(root, f.subfolders);
    DecodeEncodedFeedIDs(f.feedIDs);
  }

  lemma {:induction false} AsWrittenSubfolders(root: Object, fs: seq<FolderValue>)
    requires DecodeStatistics(root).Ok?
    ensures DecodeSubfolders(Some(root), EncodeSubfolders(fs)) == Ok(SubfoldersWithRootStatistics(DecodeStatistics(root).value, fs))
    decreases fs
  {
    if fs != [] {
      AsWrittenTakesRootStatistics(root, fs[0]);
      AsWrittenSubfolders(root, fs[1..]);
    }
  }

  /** A root with statistics "1" and one subfolder with statistics "2". */
  function TwoLevelExample(): FolderValue
  {
    FolderValue(1, 0, "a", 10, map[PostCount := "1"], [FolderValue(2, 1, "b", 10, map[PostCount := "2"], [], [])], [])
  }

  /** What the as-written decoder makes of the example: the subfolder carries the root's statistics. */
  function TwoLevelAsWritten(): FolderValue
  {
    FolderValue(1, 0, "a", 10, map[PostCount := "1"], [FolderValue(2, 1, "b", 10, map[PostCount := "1"], [], [])], [])
  }

  /** The subfolder's own statistics "2" are lost: the as-written decoder reports the root's "1". */
  lemma RootStatisticsCounterexample()
    ensures DecodeFolder(JObject(EncodeFolder(TwoLevelExample()))) == Ok(TwoLevelExample())
    ensures DecodeFolderAsWritten(EncodeFolder(TwoLevelExample())) == Ok(TwoLevelAsWritten())
    ensures TwoLevelAsWritten() != TwoLevelExample()
  {
    var f := TwoLevelExample();
    DecodeEncodedFolder(f);
    ExampleRootStatistics();
    AsWrittenTakesRootStatistics(EncodeFolder(f), f);
    ExampleWithRootStatistics();
    assert TwoLevelAsWritten().subfolders[0].statistics[PostCount] != TwoLevelExample().subfolders[0].statistics[PostCount];
  }

  lemma ExampleRootStatistics()
    ensures DecodeStatistics(EncodeFolder(TwoLevelExample())) == Ok(map[PostCount := "1"])
  {
    EncodedStatistics(TwoLevelExample());
  }

  lemma ExampleWithRootStatistics()
    ensures WithRootStatistics(map[PostCount := "1"], TwoLevelExample()) == TwoLevelAsWritten()
  {
    var stats := map[PostCount := "1"];
    var f := TwoLevelExample();
    var g := f.subfolders[0];
    assert SubfoldersWithRootStatistics(stats, g.subfolders) == [];
    assert WithRootStatistics(stats, g) == TwoLevelAsWritten().subfolders[0];
    assert SubfoldersWithRootStatistics(stats, f.subfolders[1..]) == [];
    assert SubfoldersWithRootStatistics(stats, f.subfolders) == TwoLevelAsWritten().subfolders;
  }

  /** A root without statistics and one subfolder with statistics. */
  function NestedOnlyExample(): FolderValue
  {
    FolderValue(1, 0, "a", 10, map[], [FolderValue(2, 1, "b", 10, map[PostCount := "2"], [], [])], [])
  }

  /** The as-written decoder dereferences the root's missing statistics object. */
  lemma NestedStatisticsCounterexample()
    ensures DecodeFolder(JObject(EncodeFolder(NestedOnlyExample()))) == Ok(NestedOnlyExample())
    ensures DecodeFolderAsWritten(EncodeFolder(NestedOnlyExample())) == Err(NullDereference)
  {
    var f := NestedOnlyExample();
    DecodeEncodedFolder(f);
    var root := EncodeFolder(f);
    EncodedShape(f);
    EncodedShape(f.subfolders[0]);
    var child := EncodeFolder(f.subfolders[0]);
    EncodedScalars(f);
    EncodedScalars(f.subfolders[0]);
    assert DecodeStatistics(root) == Err(NullDereference);
    assert DecodeTree(Some(root), JObject(child)) == Err(NullDereference);
    assert EncodeSubfolders(f.subfolders)[0] == JObject(child);
  }

  // ---------------------------------------------------------------- the objects

  /** A folder under construction or being encoded; its subfolders are values it owns. */
  class Folder {
    var id: UInt64
    var parentID: UInt64
    var title: string
    var sortOrder: UInt64
    var statistics: map<Statistic, string>
    var subfolders: seq<FolderValue>
    var feedIDs: seq<UInt64>

    constructor (folderID: UInt64, parentFolderID: UInt64)
      ensures Value() == FolderValue(folderID, parentFolderID, "", 0, map[], [], [])
    {
      id, parentID := folderID, parentFolderID;
      title, sortOrder := "", 0;
      statistics, subfolders, feedIDs := map[], [], [];
    }

    function Value(): FolderValue
      reads this
    {
      FolderValue(id, parentID, title, sortOrder, statistics, subfolders, feedIDs)
    }

    /** `appendSubfolder`: exactly one child more, at the end. */
    method AppendSubfolder(subfolder: FolderValue)
      modifies this`subfolders
      ensures subfolders == old(subfolders) + [subfolder]
    {
      subfolders := subfolders + [subfolder];
    }

    /** `toJSON`: the six fields, then the statistics when there are some. */
    method ToJSON() returns (o: Object)
      ensures o == EncodeFolder(Value())
    {
      var subs := SubfolderArray();
      var ids := FeedIDArray();
      o := map[
        KeyID := JInt(id), KeyTitle := JString(title), KeyParent := JInt(parentID),
        KeySortOrder := JInt(sortOrder), KeySubfolders := JArray(subs), KeyFeedIDs := JArray(ids)];
      if |statistics| > 0 {
        o := o[KeyStatistics := JObject(EncodeStatistics(statistics))];
      }
    }

    /** The loop of `toJSON` that encodes each subfolder in turn. */
    method SubfolderArray() returns (subs: seq<Json>)
      ensures subs == EncodeSubfolders(subfolders)
    {
      subs := [];
      var i := 0;
      while i < |subfolders|
        invariant 0 <= i <= |subfolders|
        invariant subs == EncodeSubfolders(subfolders[..i])
      {
        EncodeSubfoldersAppend(subfolders[..i], subfolders[i]);
        assert subfolders[..i + 1] == subfolders[..i] + [subfolders[i]];
        subs := subs + [JObject(EncodeFolder(subfolders[i]))];
        i := i + 1;
      }
      assert subfolders[..i] == subfolders;
    }

    /** The loop of `toJSON` that writes each feed id in turn. */
    method FeedIDArray() returns (ids: seq<Json>)
      ensures ids == EncodeFeedIDs(feedIDs)
    {
      ids := [];
      var i := 0;
      while i < |feedIDs|
        invariant 0 <= i <= |feedIDs|
        invariant ids == EncodeFeedIDs(feedIDs[..i])
      {
        ids := ids + [JInt(feedIDs[i])];
        i := i + 1;
      }
      assert feedIDs[..i] == feedIDs;
    }
  }

  /**
   * `constructFolder` as intended, each folder reading its own statistics
   * (the engine as written reads the root's; see `DecodeFolderAsWritten`):
   * creates the folder, sets its fields, appends the decoded subfolders and
   * collects the feed ids.
   */
  method ConstructFolder(j: Json) returns (r: Result<FolderValue>)
    ensures r == DecodeFolder(j)
    decreases j, 1
  {
    if !j.JObject? { return Err(NullDereference); }
    var o := j.fields;
    var created := NewFolder(o);
    if created.Err? { return Err(created.error); }
    var folder := created.value;
    if KeySubfolders in o {
      var subfolders := GetArray(o, KeySubfolders);
      if subfolders.None? { return Err(NullDereference); }
      var appended := AppendSubfolders(folder, subfolders.value);
      if appended.Err? { return Err(appended.error); }
      assert folder.subfolders == [] + appended.value == appended.value;
    }
    var feedIDArr := GetArray(o, KeyFeedIDs);
    if feedIDArr.None? { return Err(NullDereference); }
    var feedIDs := ReadFeedIDs(feedIDArr.value);
    if feedIDs.Err? { return Err(feedIDs.error); }
    folder.feedIDs := feedIDs.value;
    assert DecodeTree(None, j).Ok? && DecodeTree(None, j).value.feedIDs == feedIDs.value;
    return Ok(folder.Value());
  }

  /** Creating the folder from its id and parent, then setting its title, sort order and statistics. */
  method NewFolder(o: Object) returns (r: Result<Folder>)
    ensures DecodeHeader(None, o).Err? ==> r.Err? && r.error == DecodeHeader(None, o).error
    ensures DecodeHeader(None, o).Ok? ==> r.Ok? && fresh(r.value) && r.value.Value() == DecodeHeader(None, o).value
  {
    var id := GetUInt64(o, KeyID);
    if id.Err? { return Err(id.error); }
    var parent := GetUInt64(o, KeyParent);
    if parent.Err? { return Err(parent.error); }
    var folder := new Folder(id.value, parent.value);
    var title := GetString(o, KeyTitle);
    if title.Err? { return Err(title.error); }
    folder.title := title.value;
    var sortOrder := GetUInt64(o, KeySortOrder);
    if sortOrder.Err? { return Err(sortOrder.error); }
    folder.sortOrder := sortOrder.value;
    var statistics := ReadStatistics(o);
    if statistics.Err? { return Err(statistics.error); }
    folder.statistics := statistics.value;
    return Ok(folder);
  }

  /** The statistics of a folder object that has them, read from that same object. */
  method ReadStatistics(o: Object) returns (r: Result<map<Statistic, string>>)
    ensures r == (if KeyStatistics !in o then Ok(map[]) else DecodeStatistics(o))
  {
    if KeyStatistics !in o { return Ok(map[]); }
    var statsObj := GetObject(o, KeyStatistics);
    if statsObj.None? { return Err(NullDereference); }
    StatisticMapsInverse();
    var read := StatisticObjects.Read(statsObj.value, FolderStatisticJSONIdentifierMap, JSONIdentifierFolderStatisticMap);
    if read.Err? { return Err(MissingValue + KeyStatistics); }
    return Ok(read.value);
  }

  /** The loop over the subfolder array: each element is constructed, then appended to `folder`. */
  method AppendSubfolders(folder: Folder, js: seq<Json>) returns (r: Result<seq<FolderValue>>)
    modifies folder`subfolders
    ensures r == DecodeSubfolders(None, js)
    ensures r.Ok? ==> folder.subfolders == old(folder.subfolders) + r.value
    decreases js, 0
  {
    var before := folder.subfolders;
    ghost var added: seq<FolderValue> := [];
    assert js[0..] == js;
    PrependPrepend([], [], DecodeSubfolders(None, js));
    var i := 0;
    while i < |js|
      invariant 0 <= i <= |js|
      invariant folder.subfolders == before + added
      invariant DecodeSubfolders(None, js) == Prepend(added, DecodeSubfolders(None, js[i..]))
    {
      assert js[i..][0] == js[i] && js[i..][1..] == js[i + 1..];
      var child := ConstructFolder(js[i]);
      if child.Err? { return Err(child.error); }
      PrependPrepend(added, [child.value], DecodeSubfolders(None, js[i + 1..]));
      folder.AppendSubfolder(child.value);
      added := added + [child.value];
      i := i + 1;
    }
    assert js[i..] == [];
    assert added + [] == added;
    assert folder.subfolders[|before|..] == added;
    r := Ok(folder.subfolders[|before|..]);
  }

  /** The loop over the feed-id array. */
  method ReadFeedIDs(arr: seq<Json>) returns (r: Result<seq<UInt64>>)
    ensures r == DecodeFeedIDs(arr)
  {
    var feedIDs: seq<UInt64> := [];
    assert arr[0..] == arr;
    PrependPrepend([], [], DecodeFeedIDs(arr));
    var i := 0;
    while i < |arr|
      invariant 0 <= i <= |arr|
      invariant DecodeFeedIDs(arr) == Prepend(feedIDs, DecodeFeedIDs(arr[i..]))
    {
      assert arr[i..][0] == arr[i] && arr[i..][1..] == arr[i + 1..];
      if !arr[i].JInt? || !(0 <= arr[i].n <= UINT64_MAX) { return Err(MissingValue + KeyFeedIDs); }
      PrependPrepend(feedIDs, [arr[i].n as UInt64], DecodeFeedIDs(arr[i + 1..]));
      feedIDs := feedIDs + [arr[i].n as UInt64];
      i := i + 1;
    }
    assert arr[i..] == [] && feedIDs + [] == feedIDs;
    return Ok(feedIDs);
  }
}
