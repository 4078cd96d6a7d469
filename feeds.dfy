/**
 * Feeds as they travel as JSON: the encoder of `base/Feed.cpp` and the
 * decoder of `remote/FeedRemote.cpp`, with the sentinels that stand for
 * an absent refresh error ("") and an absent refresh interval (0).
 * Base64 is not modelled: the encoder and decoder are parameters.
 */
module Feeds {
  import opened Wrappers
  import opened Strings
  import opened Json
  import StatisticObjects

  datatype Statistic = PostCount | FlaggedPostCount | OldestPost | NewestPost

  const JSONIdentifierFeedStatisticMap: map<string, Statistic> := map[
    "postCount" := PostCount, "flaggedPostCount" := FlaggedPostCount,
    "oldestPost" := OldestPost, "newestPost" := NewestPost]

  const FeedStatisticJSONIdentifierMap: map<Statistic, string> := map[
    PostCount := "postCount", FlaggedPostCount := "flaggedPostCount",
    OldestPost := "oldestPost", NewestPost := "newestPost"]

  /** Every statistic has an identifier and every identifier names a statistic, each the other's inverse. */
  lemma StatisticMapsInverse()
    ensures forall s: Statistic :: s in FeedStatisticJSONIdentifierMap
    ensures StatisticObjects.Inverse(FeedStatisticJSONIdentifierMap, JSONIdentifierFeedStatisticMap)
  {
    forall s: Statistic
      ensures s in FeedStatisticJSONIdentifierMap
      ensures FeedStatisticJSONIdentifierMap[s] in JSONIdentifierFeedStatisticMap
      ensures JSONIdentifierFeedStatisticMap[FeedStatisticJSONIdentifierMap[s]] == s
    {
      match s
      case PostCount =>
      case FlaggedPostCount =>
      case OldestPost =>
      case NewestPost =>
    }
  }

  const KeyID: string := "id"
  const KeyURL: string := "url"
  const KeyFolder: string := "folder"
  const KeyGUID: string := "guid"
  const KeyIcon: string := "icon"
  const KeyTitle: string := "title"
  const KeySubtitle: string := "subtitle"
  const KeyLink: string := "link"
  const KeyDescription: string := "description"
  const KeyLanguage: string := "language"
  const KeyCopyright: string := "copyright"
  const KeyLastRefreshError: string := "lastRefreshError"
  const KeyRefreshInterval: string := "refreshInterval"
  const KeyLastChecked: string := "lastChecked"
  const KeySortOrder: string := "sortOrder"
  const KeyUnreadCount: string := "unreadCount"
  const KeyStatistics: string := "statistics"
  /** The icon-hash key the decoder reads; its declaration is not part of this model. */
  const KeyIconHash: string := "iconHash"

  /** Equal-length keys differ in their first character. */
  lemma KeysDistinct()
    ensures |KeyID| == 2 && |KeyURL| == 3 && |KeyGUID| == 4 && |KeyLink| == 4 && |KeyIcon| == 4
    ensures |KeyTitle| == 5 && |KeyFolder| == 6 && |KeySubtitle| == 8 && |KeyLanguage| == 8 && |KeyIconHash| == 8
    ensures |KeyCopyright| == 9 && |KeySortOrder| == 9 && |KeyStatistics| == 10
    ensures |KeyDescription| == 11 && |KeyLastChecked| == 11 && |KeyUnreadCount| == 11
    ensures |KeyRefreshInterval| == 15 && |KeyLastRefreshError| == 16
    ensures KeyGUID[0] != KeyLink[0] && KeyGUID[0] != KeyIcon[0] && KeyLink[0] != KeyIcon[0]
    ensures KeySubtitle[0] != KeyLanguage[0] && KeySubtitle[0] != KeyIconHash[0] && KeyLanguage[0] != KeyIconHash[0]
    ensures KeyCopyright[0] != KeySortOrder[0]
    ensures KeyDescription[0] != KeyLastChecked[0] && KeyDescription[0] != KeyUnreadCount[0]
    ensures KeyLastChecked[0] != KeyUnreadCount[0]
  {
  }

  datatype Identity = Identity(id: UInt64, url: string, folderID: UInt64, guid: string, title: string)

  datatype Details = Details(
    subtitle: string, link: string, description: string, language: string, copyright: string, iconHash: string)

  datatype State = State(
    lastRefreshError: Option<string>, refreshInterval: Option<UInt64>,
    sortOrder: UInt64, lastChecked: string, unreadCount: UInt64)

  /** The transferred fields of a feed. */
  datatype Feed = Feed(
    identity: Identity, details: Details, state: State,
    statistics: map<Statistic, string>, iconData: string, dataFetched: bool)

  // ---------------------------------------------------------------- encoding

  function EncodeStatistics(stats: map<Statistic, string>): Object
  {
    StatisticObjects.Encode(stats, FeedStatisticJSONIdentifierMap, JSONIdentifierFeedStatisticMap)
  }

  /** The absent refresh error is written as "". */
  function ErrorSentinel(e: Option<string>): string
  {
    if e.Some? then e.value else ""
  }

  /** The absent refresh interval is written as 0. */
  function IntervalSentinel(i: Option<UInt64>): UInt64
  {
    if i.Some? then i.value else 0
  }

  /**
   * `Feed::toJSON`: fifteen fields always; the statistics object only
   * when there are statistics, the Base64 icon only when there is icon
   * data. The icon hash is not written.
   */
  function EncodeFeed(f: Feed, base64Encode: string -> string): Object
  {
    var base := EncodeFields(f);
    var withStatistics := if |f.statistics| > 0 then base[KeyStatistics := JObject(EncodeStatistics(f.statistics))] else base;
    if f.iconData != "" then withStatistics[KeyIcon := JString(base64Encode(f.iconData))] else withStatistics
  }

  /** The fifteen fields `toJSON` always writes. */
  function EncodeFields(f: Feed): Object
  {
    map[
      KeyID := JInt(f.identity.id), KeyURL := JString(f.identity.url), KeyFolder := JInt(f.identity.folderID),
      KeyGUID := JString(f.identity.guid), KeyTitle := JString(f.identity.title),
      KeySubtitle := JString(f.details.subtitle), KeyLink := JString(f.details.link),
      KeyDescription := JString(f.details.description), KeyLanguage := JString(f.details.language),
      KeyCopyright := JString(f.details.copyright),
      KeyLastRefreshError := JString(ErrorSentinel(f.state.lastRefreshError)),
      KeyRefreshInterval := JInt(IntervalSentinel(f.state.refreshInterval)),
      KeyLastChecked := JString(f.state.lastChecked), KeySortOrder := JInt(f.state.sortOrder),
      KeyUnreadCount := JInt(f.state.unreadCount)]
  }

  // ---------------------------------------------------------------- decoding

  function DecodeIdentity(o: Object): Result<Identity>
  {
    var id := GetUInt64(o, KeyID);
    if id.Err? then Err(id.error) else
    var url := GetString(o, KeyURL);
    if url.Err? then Err(url.error) else
    var folder := GetUInt64(o, KeyFolder);
    if folder.Err? then Err(folder.error) else
    var guid := GetString(o, KeyGUID);
    if guid.Err? then Err(guid.error) else
    var title := GetString(o, KeyTitle);
    if title.Err? then Err(title.error) else
    Ok(Identity(id.value, url.value, folder.value, guid.value, title.value))
  }

  function DecodeDetails(o: Object): Result<Details>
  {
    var subtitle := GetString(o, KeySubtitle);
    if subtitle.Err? then Err(subtitle.error) else
    var link := GetString(o, KeyLink);
    if link.Err? then Err(link.error) else
    var description := GetString(o, KeyDescription);
    if description.Err? then Err(description.error) else
    var language := GetString(o, KeyLanguage);
    if language.Err? then Err(language.error) else
    var copyright := GetString(o, KeyCopyright);
    if copyright.Err? then Err(copyright.error) else
    var iconHash := GetString(o, KeyIconHash);
    if iconHash.Err? then Err(iconHash.error) else
    Ok(Details(subtitle.value, link.value, description.value, language.value, copyright.value, iconHash.value))
  }

  /** "" decodes to an absent refresh error and 0 to an absent interval. */
  function DecodeState(o: Object): Result<State>
  {
    var lre := GetString(o, KeyLastRefreshError);
    if lre.Err? then Err(lre.error) else
    var ri := GetUInt64(o, KeyRefreshInterval);
    if ri.Err? then Err(ri.error) else
    var sortOrder := GetUInt64(o, KeySortOrder);
    if sortOrder.Err? then Err(sortOrder.error) else
    var lastChecked := GetString(o, KeyLastChecked);
    if lastChecked.Err? then Err(lastChecked.error) else
    var unreadCount := GetUInt64(o, KeyUnreadCount);
    if unreadCount.Err? then Err(unreadCount.error) else
    Ok(State(if lre.value != "" then Some(lre.value) else None, if ri.value > 0 then Some(ri.value) else None,
             sortOrder.value, lastChecked.value, unreadCount.value))
  }

  /** The statistics of a present "statistics" value, which must be an object. */
  function DecodeStatistics(o: Object): Result<map<Statistic, string>>
  {
    if KeyStatistics !in o then Ok(map[])
    else if !o[KeyStatistics].JObject? || !StatisticObjects.Readable(o[KeyStatistics].fields, JSONIdentifierFeedStatisticMap) then
      Err(MissingValue + KeyStatistics)
    else Ok(StatisticObjects.Decoded(o[KeyStatistics].fields, FeedStatisticJSONIdentifierMap, JSONIdentifierFeedStatisticMap))
  }

  function DecodeIcon(o: Object, base64Decode: string -> string): Result<string>
  {
    if KeyIcon !in o then Ok("")
    else if !o[KeyIcon].JString? then Err(MissingValue + KeyIcon)
    else Ok(base64Decode(o[KeyIcon].s))
  }

  /** `FeedRemote::fromJSON`: the id, the scalar fields in order, then statistics and icon. */
  function DecodeFeed(o: Object, base64Decode: string -> string): Result<Feed>
  {
    var identity := DecodeIdentity(o);
    if identity.Err? then Err(identity.error) else
    var details := DecodeDetails(o);
    if details.Err? then Err(details.error) else
    var state := DecodeState(o);
    if state.Err? then Err(state.error) else
    var statistics := DecodeStatistics(o);
    if statistics.Err? then Err(statistics.error) else
    var icon := DecodeIcon(o, base64Decode);
    if icon.Err? then Err(icon.error) else
    Ok(Feed(identity.value, details.value, state.value, statistics.value, icon.value, true))
  }

  // ---------------------------------------------------------------- the decoder as the engine runs it

  /** The id read of the static `FeedRemote::fromJSON`, then the url, folder, guid and title setters (`FeedRemote.cpp`, lines 213-216 and 269). */
  method ReadIdentity(o: Object) returns (r: Result<Identity>)
    ensures r == DecodeIdentity(o)
  {
    var id := GetUInt64(o, KeyID);
    if id.Err? { return Err(id.error); }
    var url := GetString(o, KeyURL);
    if url.Err? { return Err(url.error); }
    var folder := GetUInt64(o, KeyFolder);
    if folder.Err? { return Err(folder.error); }
    var guid := GetString(o, KeyGUID);
    if guid.Err? { return Err(guid.error); }
    var title := GetString(o, KeyTitle);
    if title.Err? { return Err(title.error); }
    return Ok(Identity(id.value, url.value, folder.value, guid.value, title.value));
  }

  /** The subtitle, link, description, language, copyright and icon hash setters (`FeedRemote.cpp`, lines 217-222). */
  method ReadDetails(o: Object) returns (r: Result<Details>)
    ensures r == DecodeDetails(o)
  {
    var subtitle := GetString(o, KeySubtitle);
    if subtitle.Err? { return Err(subtitle.error); }
    var link := GetString(o, KeyLink);
    if link.Err? { return Err(link.error); }
    var description := GetString(o, KeyDescription);
    if description.Err? { return Err(description.error); }
    var language := GetString(o, KeyLanguage);
    if language.Err? { return Err(language.error); }
    var copyright := GetString(o, KeyCopyright);
    if copyright.Err? { return Err(copyright.error); }
    var iconHash := GetString(o, KeyIconHash);
    if iconHash.Err? { return Err(iconHash.error); }
    return Ok(Details(subtitle.value, link.value, description.value, language.value, copyright.value, iconHash.value));
  }

  /** The refresh error and interval reads with their emptiness tests, then sortOrder, lastChecked and unreadCount (`FeedRemote.cpp`, lines 224-238). */
  method ReadState(o: Object) returns (r: Result<State>)
    ensures r == DecodeState(o)
  {
    var lre := GetString(o, KeyLastRefreshError);
    if lre.Err? { return Err(lre.error); }
    var lastRefreshError: Option<string> := None;
    if lre.value != "" {
      lastRefreshError := Some(lre.value);
    }
    var ri := GetUInt64(o, KeyRefreshInterval);
    if ri.Err? { return Err(ri.error); }
    var refreshInterval: Option<UInt64> := None;
    if ri.value > 0 {
      refreshInterval := Some(ri.value);
    }
    var sortOrder := GetUInt64(o, KeySortOrder);
    if sortOrder.Err? { return Err(sortOrder.error); }
    var lastChecked := GetString(o, KeyLastChecked);
    if lastChecked.Err? { return Err(lastChecked.error); }
    var unreadCount := GetUInt64(o, KeyUnreadCount);
    if unreadCount.Err? { return Err(unreadCount.error); }
    return Ok(State(lastRefreshError, refreshInterval, sortOrder.value, lastChecked.value, unreadCount.value));
  }

  /**
   * The static `FeedRemote::fromJSON`: reads the id, then every field
   * through its setter, then the statistics and icon when their keys
   * are present. The first missing or mistyped value is an error.
   */
  method FromJSON(o: Object, base64Decode: string -> string) returns (r: Result<Feed>)
    ensures r == DecodeFeed(o, base64Decode)
  {
    var identity := ReadIdentity(o);
    if identity.Err? { return Err(identity.error); }
    var details := ReadDetails(o);
    if details.Err? { return Err(details.error); }
    var state := ReadState(o);
    if state.Err? { return Err(state.error); }
    var statistics: map<Statistic, string> := map[];
    if KeyStatistics in o {
      var statsObj := GetObject(o, KeyStatistics);
      if statsObj.None? { return Err(MissingValue + KeyStatistics); }
      StatisticMapsInverse();
      var read := StatisticObjects.Read(statsObj.value, FeedStatisticJSONIdentifierMap, JSONIdentifierFeedStatisticMap);
      if read.Err? { return Err(MissingValue + KeyStatistics); }
      statistics := read.value;
    }
    var iconData := "";
    if KeyIcon in o {
      var b64 := GetString(o, KeyIcon);
      if b64.Err? { return Err(b64.error); }
      iconData := base64Decode(b64.value);
    }
    return Ok(Feed(identity.value, details.value, state.value, statistics, iconData, true));
  }

  // ---------------------------------------------------------------- round trips

  /** What a decoded feed holds after encoding `f`: the sentinels "" and 0 read back as absent. */
  function Transferred(f: Feed): Feed
  {
    var e := ErrorSentinel(f.state.lastRefreshError);
    var i := IntervalSentinel(f.state.refreshInterval);
    f.(state := f.state.(lastRefreshError := if e != "" then Some(e) else None,
                         refreshInterval := if i > 0 then Some(i) else None),
       dataFetched := true)
  }

  /** Only an explicit empty refresh error and an explicit zero interval are lost in transfer. */
  lemma TransferredKeepsPresentValues(f: Feed)
    ensures Transferred(f).state.lastRefreshError == (if f.state.lastRefreshError == Some("") then None else f.state.lastRefreshError)
    ensures Transferred(f).state.refreshInterval == (if f.state.refreshInterval == Some(0) then None else f.state.refreshInterval)
    ensures Transferred(f).identity == f.identity && Transferred(f).details == f.details
    ensures Transferred(f).statistics == f.statistics && Transferred(f).iconData == f.iconData
  {
  }

  /** The encoded object with the icon hash added, as a server reply that carries one. */
  function WithIconHash(f: Feed, base64Encode: string -> string): Object
  {
    EncodeFeed(f, base64Encode)[KeyIconHash := JString(f.details.iconHash)]
  }

  /** The optional entries and the icon hash leave the fifteen fields alone. */
  lemma ExtrasKeepFields(f: Feed, base64Encode: string -> string, key: string)
    requires key != KeyStatistics && key != KeyIcon && key != KeyIconHash
    ensures key in WithIconHash(f, base64Encode) <==> key in EncodeFields(f)
    ensures key in EncodeFields(f) ==> WithIconHash(f, base64Encode)[key] == EncodeFields(f)[key]
  {
  }

  lemma EncodedKeyFields(f: Feed)
    ensures KeyID in EncodeFields(f) && EncodeFields(f)[KeyID] == JInt(f.identity.id)
    ensures KeyURL in EncodeFields(f) && EncodeFields(f)[KeyURL] == JString(f.identity.url)
  {
    KeysDistinct();
  }

  lemma EncodedIdentityFields(f: Feed)
    ensures KeyFolder in EncodeFields(f) && EncodeFields(f)[KeyFolder] == JInt(f.identity.folderID)
    ensures KeyGUID in EncodeFields(f) && EncodeFields(f)[KeyGUID] == JString(f.identity.guid)
    ensures KeyTitle in EncodeFields(f) && EncodeFields(f)[KeyTitle] == JString(f.identity.title)
  {
    KeysDistinct();
  }

  lemma EncodedDetailFields(f: Feed)
    ensures KeySubtitle in EncodeFields(f) && EncodeFields(f)[KeySubtitle] == JString(f.details.subtitle)
    ensures KeyLink in EncodeFields(f) && EncodeFields(f)[KeyLink] == JString(f.details.link)
    ensures KeyDescription in EncodeFields(f) && EncodeFields(f)[KeyDescription] == JString(f.details.description)
    ensures KeyLanguage in EncodeFields(f) && EncodeFields(f)[KeyLanguage] == JString(f.details.language)
    ensures KeyCopyright in EncodeFields(f) && EncodeFields(f)[KeyCopyright] == JString(f.details.copyright)
  {
    KeysDistinct();
  }

  lemma EncodedStateFields(f: Feed)
    ensures KeyLastRefreshError in EncodeFields(f)
      && EncodeFields(f)[KeyLastRefreshError] == JString(ErrorSentinel(f.state.lastRefreshError))
    ensures KeyRefreshInterval in EncodeFields(f)
      && EncodeFields(f)[KeyRefreshInterval] == JInt(IntervalSentinel(f.state.refreshInterval))
    ensures KeySortOrder in EncodeFields(f) && EncodeFields(f)[KeySortOrder] == JInt(f.state.sortOrder)
    ensures KeyLastChecked in EncodeFields(f) && EncodeFields(f)[KeyLastChecked] == JString(f.state.lastChecked)
    ensures KeyUnreadCount in EncodeFields(f) && EncodeFields(f)[KeyUnreadCount] == JInt(f.state.unreadCount)
  {
    KeysDistinct();
  }

  /** None of the optional keys is among the fifteen fields. */
  lemma EncodedFieldsLackExtras(f: Feed)
    ensures KeyStatistics !in EncodeFields(f) && KeyIcon !in EncodeFields(f) && KeyIconHash !in EncodeFields(f)
  {
    KeysDistinct();
  }

  /** The identity decoder reads the five identity fields and nothing else. */
  lemma IdentityDecodes(o: Object, v: Identity)
    requires KeyID in o && o[KeyID] == JInt(v.id) && KeyURL in o && o[KeyURL] == JString(v.url)
    requires KeyFolder in o && o[KeyFolder] == JInt(v.folderID)
    requires KeyGUID in o && o[KeyGUID] == JString(v.guid) && KeyTitle in o && o[KeyTitle] == JString(v.title)
    ensures DecodeIdentity(o) == Ok(v)
  {
  }

  /** The details decoder reads the five detail fields and the icon hash. */
  lemma DetailsDecode(o: Object, v: Details)
    requires KeySubtitle in o && o[KeySubtitle] == JString(v.subtitle) && KeyLink in o && o[KeyLink] == JString(v.link)
    requires KeyDescription in o && o[KeyDescription] == JString(v.description)
    requires KeyLanguage in o && o[KeyLanguage] == JString(v.language)
    requires KeyCopyright in o && o[KeyCopyright] == JString(v.copyright)
    requires KeyIconHash in o && o[KeyIconHash] == JString(v.iconHash)
    ensures DecodeDetails(o) == Ok(v)
  {
  }

  /** The state decoder turns the sentinels "" and 0 into absent values. */
  lemma StateDecodes(o: Object, lastRefreshError: string, refreshInterval: UInt64, v: State)
    requires KeyLastRefreshError in o && o[KeyLastRefreshError] == JString(lastRefreshError)
    requires KeyRefreshInterval in o && o[KeyRefreshInterval] == JInt(refreshInterval)
    requires KeySortOrder in o && o[KeySortOrder] == JInt(v.sortOrder)
    requires KeyLastChecked in o && o[KeyLastChecked] == JString(v.lastChecked)
    requires KeyUnreadCount in o && o[KeyUnreadCount] == JInt(v.unreadCount)
    requires v.lastRefreshError == (if lastRefreshError != "" then Some(lastRefreshError) else None)
    requires v.refreshInterval == (if refreshInterval > 0 then Some(refreshInterval) else None)
    ensures DecodeState(o) == Ok(v)
  {
  }

  lemma EncodedIdentity(f: Feed, base64Encode: string -> string)
    ensures DecodeIdentity(WithIconHash(f, base64Encode)) == Ok(f.identity)
  {
    KeysDistinct();
    EncodedKeyFields(f);
    EncodedIdentityFields(f);
    ExtrasKeepFields(f, base64Encode, KeyID);
    ExtrasKeepFields(f, base64Encode, KeyURL);
    ExtrasKeepFields(f, base64Encode, KeyFolder);
    ExtrasKeepFields(f, base64Encode, KeyGUID);
    ExtrasKeepFields(f, base64Encode, KeyTitle);
    IdentityDecodes(WithIconHash(f, base64Encode), f.identity);
  }

  lemma EncodedDetails(f: Feed, base64Encode: string -> string)
    ensures DecodeDetails(WithIconHash(f, base64Encode)) == Ok(f.details)
  {
    KeysDistinct();
    EncodedDetailFields(f);
    ExtrasKeepFields(f, base64Encode, KeySubtitle);
    ExtrasKeepFields(f, base64Encode, KeyLink);
    ExtrasKeepFields(f, base64Encode, KeyDescription);
    ExtrasKeepFields(f, base64Encode, KeyLanguage);
    ExtrasKeepFields(f, base64Encode, KeyCopyright);
    DetailsDecode(WithIconHash(f, base64Encode), f.details);
  }

  lemma EncodedState(f: Feed, base64Encode: string -> string)
    ensures DecodeState(WithIconHash(f, base64Encode)) == Ok(Transferred(f).state)
  {
    KeysDistinct();
    EncodedStateFields(f);
    ExtrasKeepFields(f, base64Encode, KeyLastRefreshError);
    ExtrasKeepFields(f, base64Encode, KeyRefreshInterval);
    ExtrasKeepFields(f, base64Encode, KeySortOrder);
    ExtrasKeepFields(f, base64Encode, KeyLastChecked);
    ExtrasKeepFields(f, base64Encode, KeyUnreadCount);
    StateDecodes(WithIconHash(f, base64Encode), ErrorSentinel(f.state.lastRefreshError),
      IntervalSentinel(f.state.refreshInterval), Transferred(f).state);
  }

  /** The keys of the encoded object: the fifteen fields and the optional entries. */
  lemma EncodedKeys(f: Feed, base64Encode: string -> string, key: string)
    ensures key in EncodeFeed(f, base64Encode) <==> (
      || key in EncodeFields(f)
      || (key == KeyStatistics && |f.statistics| > 0)
      || (key == KeyIcon && f.iconData != ""))
  {
  }

  /** The statistics entry is written exactly when there are statistics. */
  lemma StatisticsEntry(f: Feed, base64Encode: string -> string)
    ensures KeyStatistics in WithIconHash(f, base64Encode) <==> |f.statistics| > 0
    ensures |f.statistics| > 0 ==> WithIconHash(f, base64Encode)[KeyStatistics] == JObject(EncodeStatistics(f.statistics))
  {
    KeysDistinct();
    EncodedFieldsLackExtras(f);
  }

  /** The icon entry is written exactly when there is icon data. */
  lemma IconEntry(f: Feed, base64Encode: string -> string)
    ensures KeyIcon in WithIconHash(f, base64Encode) <==> f.iconData != ""
    ensures f.iconData != "" ==> WithIconHash(f, base64Encode)[KeyIcon] == JString(base64Encode(f.iconData))
  {
    KeysDistinct();
    EncodedFieldsLackExtras(f);
  }

  lemma EncodedExtras(f: Feed, base64Encode: string -> string, base64Decode: string -> string)
    requires base64Decode(base64Encode(f.iconData)) == f.iconData
    ensures DecodeStatistics(WithIconHash(f, base64Encode)) == Ok(f.statistics)
    ensures DecodeIcon(WithIconHash(f, base64Encode), base64Decode) == Ok(f.iconData)
  {
    var o := WithIconHash(f, base64Encode);
    StatisticsEntry(f, base64Encode);
    IconEntry(f, base64Encode);
    StatisticMapsInverse();
    StatisticObjects.DecodeEncoded(f.statistics, FeedStatisticJSONIdentifierMap, JSONIdentifierFeedStatisticMap);
    if |f.statistics| == 0 {
      assert f.statistics == map[];
    }
  }

  /**
   * Decoding what `toJSON` writes, given an icon hash and a Base64 decoder
   * that inverts the encoder on the icon data, gives back the feed up to
   * the two sentinels.
   */
  lemma DecodeEncodedFeed(f: Feed, base64Encode: string -> string, base64Decode: string -> string)
    requires base64Decode(base64Encode(f.iconData)) == f.iconData
    ensures DecodeFeed(WithIconHash(f, base64Encode), base64Decode) == Ok(Transferred(f))
  {
    EncodedIdentity(f, base64Encode);
    EncodedDetails(f, base64Encode);
    EncodedState(f, base64Encode);
    EncodedExtras(f, base64Encode, base64Decode);
  }

  /** An object without an icon hash never decodes. */
  lemma DecodeNeedsIconHash(o: Object, base64Decode: string -> string)
    requires KeyIconHash !in o
    ensures DecodeFeed(o, base64Decode).Err?
  {
    assert DecodeDetails(o).Err?;
  }

  /** `toJSON` writes no icon hash, which the decoder requires, so its own output does not decode. */
  lemma EncodedFeedLacksIconHash(f: Feed, base64Encode: string -> string, base64Decode: string -> string)
    ensures KeyIconHash !in EncodeFeed(f, base64Encode)
    ensures DecodeFeed(EncodeFeed(f, base64Encode), base64Decode).Err?
  {
    KeysDistinct();
    EncodedFieldsLackExtras(f);
    var o := EncodeFeed(f, base64Encode);
    EncodedKeys(f, base64Encode, KeyIconHash);
    DecodeNeedsIconHash(o, base64Decode);
  }
}
