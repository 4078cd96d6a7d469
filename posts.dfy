/**
 * Posts (`base/Post.cpp`): an in-memory post whose enclosure and category
 * lists are edited in place, its JSON encoding and the decoder that fills
 * an existing post from JSON.
 */
module Posts {
  import opened Wrappers
  import opened Strings
  import opened Json
  import opened Flag
  import Helpers

  datatype Enclosure = Enclosure(url: string, mimeType: string, size: UInt64)

  datatype Category = Category(id: UInt64, title: string)

  /** The scalar fields `fromJSON` sets, in three groups of four in the order it sets them. */
  datatype FeedPart = FeedPart(isRead: bool, feedID: UInt64, feedTitle: string, feedLink: string)
  datatype TextPart = TextPart(title: string, link: string, content: string, author: string)
  datatype MetaPart = MetaPart(commentsURL: string, guid: string, datePublished: string, thumbnail: string)

  /** Everything a post's JSON carries apart from its id. */
  datatype PostValue = PostValue(
    feed: FeedPart, text: TextPart, meta: MetaPart, flagColors: set<FlagColor>,
    enclosures: seq<Enclosure>, categories: seq<Category>)

  const KeyID: string := "id"
  const KeyIsRead: string := "isRead"
  const KeyFeedID: string := "feedID"
  const KeyFeedTitle: string := "feedTitle"
  const KeyFeedLink: string := "feedLink"
  const KeyTitle: string := "title"
  const KeyLink: string := "link"
  const KeyContent: string := "content"
  const KeyAuthor: string := "author"
  const KeyCommentsURL: string := "commentsURL"
  const KeyGuid: string := "guid"
  const KeyDatePublished: string := "datePublished"
  const KeyThumbnail: string := "thumbnail"
  const KeyFlagColors: string := "flagColors"
  const KeyEnclosures: string := "enclosures"
  const KeyEnclosureURL: string := "url"
  const KeyEnclosureMimeType: string := "mimeType"
  const KeyEnclosureSize: string := "size"
  const KeyCategories: string := "categories"
  const KeyCategoryID: string := "id"
  const KeyCategoryTitle: string := "title"

  /** True when some category title equals `title`, ignoring ASCII case. */
  predicate HasCategoryTitle(categories: seq<Category>, title: string)
  {
    exists k :: 0 <= k < |categories| && IEquals(categories[k].title, title)
  }

  // ---------------------------------------------------------------- scalar fields

  function DecodeFeedPart(o: Object): Result<FeedPart>
  {
    var isRead := GetBool(o, KeyIsRead);
    if isRead.Err? then Err(isRead.error) else
    var feedID := GetUInt64(o, KeyFeedID);
    if feedID.Err? then Err(feedID.error) else
    var feedTitle := GetString(o, KeyFeedTitle);
    if feedTitle.Err? then Err(feedTitle.error) else
    var feedLink := GetString(o, KeyFeedLink);
    if feedLink.Err? then Err(feedLink.error) else
    Ok(FeedPart(isRead.value, feedID.value, feedTitle.value, feedLink.value))
  }

  function DecodeTextPart(o: Object): Result<TextPart>
  {
    var title := GetString(o, KeyTitle);
    if title.Err? then Err(title.error) else
    var link := GetString(o, KeyLink);
    if link.Err? then Err(link.error) else
    var content := GetString(o, KeyContent);
    if content.Err? then Err(content.error) else
    var author := GetString(o, KeyAuthor);
    if author.Err? then Err(author.error) else
    Ok(TextPart(title.value, link.value, content.value, author.value))
  }

  function DecodeMetaPart(o: Object): Result<MetaPart>
  {
    var commentsURL := GetString(o, KeyCommentsURL);
    if commentsURL.Err? then Err(commentsURL.error) else
    var guid := GetString(o, KeyGuid);
    if guid.Err? then Err(guid.error) else
    var datePublished := GetString(o, KeyDatePublished);
    if datePublished.Err? then Err(datePublished.error) else
    var thumbnail := GetString(o, KeyThumbnail);
    if thumbnail.Err? then Err(thumbnail.error) else
    Ok(MetaPart(commentsURL.value, guid.value, datePublished.value, thumbnail.value))
  }

  // ---------------------------------------------------------------- flag colours

  /** Looks each (trimmed) name up; the first unknown name is an error. */
  function ColorsNamed(names: seq<string>): (r: Result<set<FlagColor>>)
  {
    if names == [] then Ok({}) else
    var c := FlagColorForName(Trim(names[0]));
    if c.Err? then Err(c.error) else
    WithColors({c.value}, ColorsNamed(names[1..]))
  }

  /** `r` with `colors` added to its set, when it holds one. */
  function WithColors(colors: set<FlagColor>, r: Result<set<FlagColor>>): Result<set<FlagColor>>
  {
    if r.Err? then r else Ok(colors + r.value)
  }

  lemma WithColorsUnion(a: set<FlagColor>, b: set<FlagColor>, r: Result<set<FlagColor>>)
    ensures WithColors(a, WithColors(b, r)) == WithColors(a + b, r)
    ensures WithColors({}, r) == r
  {
    if r.Ok? {
      assert {} + r.value == r.value;
      assert a + (b + r.value) == (a + b) + r.value;
    }
  }

  /** The flag colours of a comma-separated name list. */
  function FlagColorsOf(str: string): Result<set<FlagColor>>
  {
    ColorsNamed(Split(str, ','))
  }

  function Names(colors: seq<FlagColor>): (r: seq<string>)
    ensures |r| == |colors|
    ensures forall k :: 0 <= k < |colors| ==> r[k] == NameForFlagColor(colors[k]) && r[k] != [] && ',' !in r[k]
  {
    if colors == [] then [] else [NameForFlagColor(colors[0])] + Names(colors[1..])
  }

  lemma {:induction false} ColorsNamedNames(colors: seq<FlagColor>)
    ensures ColorsNamed(Names(colors)) == Ok(set c | c in colors)
  {
    if colors != [] {
      var ns := Names(colors);
      var name := NameForFlagColor(colors[0]);
      assert ns[0] == name && ns[1..] == Names(colors[1..]);
      TrimUnpadded(name);
      FlagColorForNameOfName(colors[0]);
      ColorsNamedNames(colors[1..]);
      assert (set c | c in colors) == {colors[0]} + (set c | c in colors[1..]);
    } else {
      assert (set c | c in colors) == {};
    }
  }

  /** Joining the colour names with "," and reading them back gives the colours. */
  lemma FlagColorsOfJoinedNames(colors: seq<FlagColor>)
    ensures FlagColorsOf(Helpers.Join(Names(colors), ",")) == Ok(set c | c in colors)
  {
    Helpers.SplitJoin(Names(colors), ',');
    ColorsNamedNames(colors);
  }

  /** The colour set in the order a set iteration visits it. */
  method ColorOrder(colors: set<FlagColor>) returns (order: seq<FlagColor>)
    ensures (set c | c in order) == colors
  {
    order := [];
    var rest := colors;
    while rest != {}
      invariant rest <= colors
      invariant (set c | c in order) == colors - rest
      decreases rest
    {
      var c :| c in rest;
      assert (set x | x in order + [c]) == (set x | x in order) + {c};
      order := order + [c];
      rest := rest - {c};
    }
  }

  /** The loop of `fromJSON` that trims and looks up each name. */
  method ParseFlagColors(names: seq<string>) returns (r: Result<set<FlagColor>>)
    ensures r == ColorsNamed(names)
  {
    var colors: set<FlagColor> := {};
    var i := 0;
    assert names[i..] == names;
    WithColorsUnion({}, {}, ColorsNamed(names));
    while i < |names|
      invariant 0 <= i <= |names|
      invariant ColorsNamed(names) == WithColors(colors, ColorsNamed(names[i..]))
    {
      assert names[i..][0] == names[i] && names[i..][1..] == names[i + 1..];
      var c := FlagColorForName(Trim(names[i]));
      if c.Err? {
        return Err(c.error);
      }
      WithColorsUnion(colors, {c.value}, ColorsNamed(names[i + 1..]));
      colors := colors + {c.value};
      i := i + 1;
    }
    return Ok(colors);
  }

  // ---------------------------------------------------------------- enclosures and categories

  function EncodeEnclosure(e: Enclosure): Json
  {
    JObject(map[KeyEnclosureURL := JString(e.url), KeyEnclosureMimeType := JString(e.mimeType),
                KeyEnclosureSize := JInt(e.size)])
  }

  function EncodeEnclosures(es: seq<Enclosure>): (r: seq<Json>)
    ensures |r| == |es|
  {
    if es == [] then [] else [EncodeEnclosure(es[0])] + EncodeEnclosures(es[1..])
  }

  /** One enclosure object: url, mimeType and size must all be present. */
  function DecodeEnclosure(j: Json): Result<Enclosure>
  {
    if !j.JObject? then Err("enclosure is not an object") else
    var url := GetString(j.fields, KeyEnclosureURL);
    if url.Err? then Err(url.error) else
    var mimeType := GetString(j.fields, KeyEnclosureMimeType);
    if mimeType.Err? then Err(mimeType.error) else
    var size := GetUInt64(j.fields, KeyEnclosureSize);
    if size.Err? then Err(size.error) else
    Ok(Enclosure(url.value, mimeType.value, size.value))
  }

  function EncodeCategory(c: Category): Json
  {
    JObject(map[KeyCategoryID := JInt(c.id), KeyCategoryTitle := JString(c.title)])
  }

  function EncodeCategories(cs: seq<Category>): (r: seq<Json>)
    ensures |r| == |cs|
  {
    if cs == [] then [] else [EncodeCategory(cs[0])] + EncodeCategories(cs[1..])
  }

  function DecodeCategory(j: Json): Result<Category>
  {
    if !j.JObject? then Err("category is not an object") else
    var id := GetUInt64(j.fields, KeyCategoryID);
    if id.Err? then Err(id.error) else
    var title := GetString(j.fields, KeyCategoryTitle);
    if title.Err? then Err(title.error) else
    Ok(Category(id.value, title.value))
  }

  function DecodeEnclosures(js: seq<Json>): (r: Result<seq<Enclosure>>)
    ensures r.Ok? ==> |r.value| == |js|
  {
    if js == [] then Ok([]) else
    var head := DecodeEnclosure(js[0]);
    if head.Err? then Err(head.error) else
    var tail := DecodeEnclosures(js[1..]);
    if tail.Err? then tail else Ok([head.value] + tail.value)
  }

  function DecodeCategories(js: seq<Json>): (r: Result<seq<Category>>)
    ensures r.Ok? ==> |r.value| == |js|
  {
    if js == [] then Ok([]) else
    var head := DecodeCategory(js[0]);
    if head.Err? then Err(head.error) else
    var tail := DecodeCategories(js[1..]);
    if tail.Err? then tail else Ok([head.value] + tail.value)
  }

  lemma DecodeEncodedEnclosure(e: Enclosure)
    ensures DecodeEnclosure(EncodeEnclosure(e)) == Ok(e)
  {
    var o := EncodeEnclosure(e).fields;
    assert |KeyEnclosureURL| == 3 && |KeyEnclosureMimeType| == 8 && |KeyEnclosureSize| == 4;
    assert o[KeyEnclosureURL] == JString(e.url);
    assert o[KeyEnclosureMimeType] == JString(e.mimeType);
  }

  lemma DecodeEncodedCategory(c: Category)
    ensures DecodeCategory(EncodeCategory(c)) == Ok(c)
  {
    assert |KeyCategoryID| == 2 && |KeyCategoryTitle| == 5;
  }

  lemma {:induction false} DecodeEncodedEnclosures(es: seq<Enclosure>)
    ensures DecodeEnclosures(EncodeEnclosures(es)) == Ok(es)
  {
    if es != [] {
      var js := EncodeEnclosures(es);
      assert js[0] == EncodeEnclosure(es[0]) && js[1..] == EncodeEnclosures(es[1..]);
      DecodeEncodedEnclosure(es[0]);
      DecodeEncodedEnclosures(es[1..]);
      assert [es[0]] + es[1..] == es;
    }
  }

  lemma {:induction false} DecodeEncodedCategories(cs: seq<Category>)
    ensures DecodeCategories(EncodeCategories(cs)) == Ok(cs)
  {
    if cs != [] {
      var js := EncodeCategories(cs);
      assert js[0] == EncodeCategory(cs[0]) && js[1..] == EncodeCategories(cs[1..]);
      DecodeEncodedCategory(cs[0]);
      DecodeEncodedCategories(cs[1..]);
      assert [cs[0]] + cs[1..] == cs;
    }
  }

  // ---------------------------------------------------------------- the whole object

  /** The flag colours `fromJSON` reads: a comma-separated list of names under "flagColors". */
  function DecodeFlagColors(o: Object): Result<set<FlagColor>>
  {
    var names := GetString(o, KeyFlagColors);
    if names.Err? then Err(names.error) else FlagColorsOf(names.value)
  }

  /** An absent or non-array "enclosures" value contributes no enclosures. */
  function DecodeEnclosureArray(o: Object): Result<seq<Enclosure>>
  {
    var arr := GetArray(o, KeyEnclosures);
    if arr.None? then Ok([]) else DecodeEnclosures(arr.value)
  }

  function DecodeCategoryArray(o: Object): Result<seq<Category>>
  {
    var arr := GetArray(o, KeyCategories);
    if arr.None? then Ok([]) else DecodeCategories(arr.value)
  }

  datatype Scalars = Scalars(feed: FeedPart, text: TextPart, meta: MetaPart)

  datatype Lists = Lists(flagColors: set<FlagColor>, enclosures: seq<Enclosure>, categories: seq<Category>)

  /** The twelve scalar fields, in the order `fromJSON` reads them. */
  function DecodeScalars(o: Object): Result<Scalars>
  {
    var feed := DecodeFeedPart(o);
    if feed.Err? then Err(feed.error) else
    var text := DecodeTextPart(o);
    if text.Err? then Err(text.error) else
    var meta := DecodeMetaPart(o);
    if meta.Err? then Err(meta.error) else
    Ok(Scalars(feed.value, text.value, meta.value))
  }

  /** The flag colours, then the enclosures, then the categories. */
  function DecodeLists(o: Object): Result<Lists>
  {
    var colors := DecodeFlagColors(o);
    if colors.Err? then Err(colors.error) else
    var enclosures := DecodeEnclosureArray(o);
    if enclosures.Err? then Err(enclosures.error) else
    var categories := DecodeCategoryArray(o);
    if categories.Err? then Err(categories.error) else
    Ok(Lists(colors.value, enclosures.value, categories.value))
  }

  /** What `fromJSON` reads: the scalar fields first, then the lists. */
  function DecodePost(o: Object): Result<PostValue>
  {
    var scalars := DecodeScalars(o);
    if scalars.Err? then Err(scalars.error) else
    var lists := DecodeLists(o);
    if lists.Err? then Err(lists.error) else
    Ok(PostValue(scalars.value.feed, scalars.value.text, scalars.value.meta,
                 lists.value.flagColors, lists.value.enclosures, lists.value.categories))
  }

  /** The object `toJSON` builds, given the joined flag-colour names. */
  function EncodePost(id: UInt64, v: PostValue, flagColorNames: string): Object
  {
    map[KeyID := JInt(id), KeyIsRead := JBool(v.feed.isRead), KeyFeedID := JInt(v.feed.feedID),
        KeyFeedTitle := JString(v.feed.feedTitle), KeyFeedLink := JString(v.feed.feedLink),
        KeyTitle := JString(v.text.title), KeyLink := JString(v.text.link), KeyContent := JString(v.text.content),
        KeyAuthor := JString(v.text.author), KeyCommentsURL := JString(v.meta.commentsURL),
        KeyGuid := JString(v.meta.guid), KeyDatePublished := JString(v.meta.datePublished),
        KeyThumbnail := JString(v.meta.thumbnail), KeyFlagColors := JString(flagColorNames),
        KeyEnclosures := JArray(EncodeEnclosures(v.enclosures)),
        KeyCategories := JArray(EncodeCategories(v.categories))]
  }

  /** Post keys of equal length differ in some character. */
  lemma KeysDistinct()
    ensures |KeyID| == 2 && |KeyLink| == 4 && |KeyGuid| == 4 && |KeyTitle| == 5
    ensures |KeyFeedID| == 6 && |KeyIsRead| == 6 && |KeyAuthor| == 6 && |KeyContent| == 7 && |KeyFeedLink| == 8
    ensures |KeyFeedTitle| == 9 && |KeyThumbnail| == 9 && |KeyFlagColors| == 10 && |KeyEnclosures| == 10
    ensures |KeyCategories| == 10 && |KeyCommentsURL| == 11 && |KeyDatePublished| == 13
    ensures KeyLink[0] != KeyGuid[0] && KeyFeedID[0] != KeyIsRead[0] && KeyFeedID[0] != KeyAuthor[0]
    ensures KeyIsRead[0] != KeyAuthor[0] && KeyFeedTitle[0] != KeyThumbnail[0]
    ensures KeyFlagColors[0] != KeyEnclosures[0] && KeyFlagColors[0] != KeyCategories[0]
    ensures KeyEnclosures[0] != KeyCategories[0]
  {
  }

  lemma EncodedFeedPart(id: UInt64, v: PostValue, names: string)
    ensures DecodeFeedPart(EncodePost(id, v, names)) == Ok(v.feed)
  {
    KeysDistinct();
    var o := EncodePost(id, v, names);
    assert o[KeyIsRead] == JBool(v.feed.isRead) && o[KeyFeedID] == JInt(v.feed.feedID);
    assert o[KeyFeedTitle] == JString(v.feed.feedTitle) && o[KeyFeedLink] == JString(v.feed.feedLink);
  }

  lemma EncodedTextPart(id: UInt64, v: PostValue, names: string)
    ensures DecodeTextPart(EncodePost(id, v, names)) == Ok(v.text)
  {
    KeysDistinct();
    var o := EncodePost(id, v, names);
    assert o[KeyTitle] == JString(v.text.title) && o[KeyLink] == JString(v.text.link);
    assert o[KeyContent] == JString(v.text.content) && o[KeyAuthor] == JString(v.text.author);
  }

  lemma EncodedMetaPart(id: UInt64, v: PostValue, names: string)
    ensures DecodeMetaPart(EncodePost(id, v, names)) == Ok(v.meta)
  {
    KeysDistinct();
    var o := EncodePost(id, v, names);
    assert o[KeyCommentsURL] == JString(v.meta.commentsURL) && o[KeyGuid] == JString(v.meta.guid);
    assert o[KeyDatePublished] == JString(v.meta.datePublished) && o[KeyThumbnail] == JString(v.meta.thumbnail);
  }

  lemma EncodedLists(id: UInt64, v: PostValue, names: string)
    ensures GetString(EncodePost(id, v, names), KeyFlagColors) == Ok(names)
    ensures DecodeEnclosureArray(EncodePost(id, v, names)) == Ok(v.enclosures)
    ensures DecodeCategoryArray(EncodePost(id, v, names)) == Ok(v.categories)
  {
    KeysDistinct();
    var o := EncodePost(id, v, names);
    assert o[KeyFlagColors] == JString(names);
    assert o[KeyEnclosures] == JArray(EncodeEnclosures(v.enclosures));
    DecodeEncodedEnclosures(v.enclosures);
    DecodeEncodedCategories(v.categories);
  }

  lemma EncodedID(id: UInt64, v: PostValue, names: string)
    ensures KeyID in EncodePost(id, v, names) && EncodePost(id, v, names)[KeyID] == JInt(id)
  {
    KeysDistinct();
  }

  /** Decoding what `toJSON` builds gives back every field but the id, which `fromJSON` does not read. */
  lemma DecodeEncodedPost(id: UInt64, v: PostValue, names: string)
    requires FlagColorsOf(names) == Ok(v.flagColors)
    ensures DecodePost(EncodePost(id, v, names)) == Ok(v)
  {
    EncodedFeedPart(id, v, names);
    EncodedTextPart(id, v, names);
    EncodedMetaPart(id, v, names);
    EncodedLists(id, v, names);
    var o := EncodePost(id, v, names);
    assert DecodeScalars(o) == Ok(Scalars(v.feed, v.text, v.meta));
    assert DecodeLists(o) == Ok(Lists(v.flagColors, v.enclosures, v.categories));
  }

  // ---------------------------------------------------------------- the post object

  class Post {
    var id: UInt64
    var isRead: bool
    var feedID: UInt64
    var feedTitle: string
    var feedLink: string
    var title: string
    var link: string
    var content: string
    var author: string
    var commentsURL: string
    var guid: string
    var datePublished: string
    var thumbnail: string
    var flagColors: set<FlagColor>
    var enclosures: seq<Enclosure>
    var categories: seq<Category>

    /** `Post(id)`: every other field starts empty, the post unread. */
    constructor (postID: UInt64)
      ensures id == postID
      ensures Value() == PostValue(FeedPart(false, 0, "", ""), TextPart("", "", "", ""), MetaPart("", "", "", ""), {}, [], [])
    {
      id := postID;
      isRead, feedID, feedTitle, feedLink := false, 0, "", "";
      title, link, content, author := "", "", "", "";
      commentsURL, guid, datePublished, thumbnail := "", "", "", "";
      flagColors, enclosures, categories := {}, [], [];
    }

    function Value(): PostValue
      reads this
    {
      PostValue(FeedPart(isRead, feedID, feedTitle, feedLink), TextPart(title, link, content, author),
                MetaPart(commentsURL, guid, datePublished, thumbnail), flagColors, enclosures, categories)
    }

    /** `removeEnclosure`: removes element `index` and keeps the others in order; an index past the end changes nothing. */
    method RemoveEnclosure(index: UInt64)
      modifies this`enclosures
      ensures index < |old(enclosures)| ==>
        enclosures == old(enclosures)[..index] + old(enclosures)[index + 1..]
      ensures index >= |old(enclosures)| ==> enclosures == old(enclosures)
    {
      if index < |enclosures| {
        enclosures := enclosures[..index] + enclosures[index + 1..];
      }
    }

    /** `updateEnclosure`: replaces element `index` only; an index past the end changes nothing. */
    method UpdateEnclosure(index: UInt64, url: string, mimeType: string, size: UInt64)
      modifies this`enclosures
      ensures index < |old(enclosures)| ==>
        enclosures == old(enclosures)[index := Enclosure(url, mimeType, size)]
      ensures index >= |old(enclosures)| ==> enclosures == old(enclosures)
    {
      if index < |enclosures| {
        enclosures := enclosures[index := Enclosure(url, mimeType, size)];
      }
    }

    /** `hasCategory`: a case-insensitive search of the category titles. */
    method HasCategory(categoryTitle: string) returns (found: bool)
      ensures found <==> HasCategoryTitle(categories, categoryTitle)
    {
      var i := 0;
      while i < |categories|
        invariant 0 <= i <= |categories|
        invariant forall k :: 0 <= k < i ==> !IEquals(categories[k].title, categoryTitle)
      {
        if Lower(categories[i].title) == Lower(categoryTitle) {
          return true;
        }
        i := i + 1;
      }
      return false;
    }

    /**
     * `toJSON`: the id and every scalar field under its key, the flag
     * colours as a comma-joined name list (in the set's iteration order),
     * and the enclosures and categories as arrays in list order. Decoding
     * the object gives the post back.
     */
    method ToJSON() returns (o: Object)
      ensures KeyID in o && o[KeyID] == JInt(id)
      ensures DecodePost(o) == Ok(Value())
    {
      var order := ColorOrder(flagColors);
      var names := Helpers.JoinString(Names(order), ",");
      FlagColorsOfJoinedNames(order);
      o := EncodePost(id, Value(), names);
      EncodedID(id, Value(), names);
      DecodeEncodedPost(id, Value(), names);
    }

    method SetFeedPart(o: Object) returns (r: Result<()>)
      modifies this`isRead, this`feedID, this`feedTitle, this`feedLink
      ensures r.Ok? <==> DecodeFeedPart(o).Ok?
      ensures r.Ok? ==> DecodeFeedPart(o).value == FeedPart(isRead, feedID, feedTitle, feedLink)
    {
      var isReadV := GetBool(o, KeyIsRead);
      if isReadV.Err? { return Err(isReadV.error); }
      isRead := isReadV.value;
      var feedIDV := GetUInt64(o, KeyFeedID);
      if feedIDV.Err? { return Err(feedIDV.error); }
      feedID := feedIDV.value;
      var feedTitleV := GetString(o, KeyFeedTitle);
      if feedTitleV.Err? { return Err(feedTitleV.error); }
      feedTitle := feedTitleV.value;
      var feedLinkV := GetString(o, KeyFeedLink);
      if feedLinkV.Err? { return Err(feedLinkV.error); }
      feedLink := feedLinkV.value;
      return Ok(());
    }

    method SetTextPart(o: Object) returns (r: Result<()>)
      modifies this`title, this`link, this`content, this`author
      ensures r.Ok? <==> DecodeTextPart(o).Ok?
      ensures r.Ok? ==> DecodeTextPart(o).value == TextPart(title, link, content, author)
    {
      var titleV := GetString(o, KeyTitle);
      if titleV.Err? { return Err(titleV.error); }
      title := titleV.value;
      var linkV := GetString(o, KeyLink);
      if linkV.Err? { return Err(linkV.error); }
      link := linkV.value;
      var contentV := GetString(o, KeyContent);
      if contentV.Err? { return Err(contentV.error); }
      content := contentV.value;
      var authorV := GetString(o, KeyAuthor);
      if authorV.Err? { return Err(authorV.error); }
      author := authorV.value;
      return Ok(());
    }

    method SetMetaPart(o: Object) returns (r: Result<()>)
      modifies this`commentsURL, this`guid, this`datePublished, this`thumbnail
      ensures r.Ok? <==> DecodeMetaPart(o).Ok?
      ensures r.Ok? ==> DecodeMetaPart(o).value == MetaPart(commentsURL, guid, datePublished, thumbnail)
    {
      var commentsURLV := GetString(o, KeyCommentsURL);
      if commentsURLV.Err? { return Err(commentsURLV.error); }
      commentsURL := commentsURLV.value;
      var guidV := GetString(o, KeyGuid);
      if guidV.Err? { return Err(guidV.error); }
      guid := guidV.value;
      var datePublishedV := GetString(o, KeyDatePublished);
      if datePublishedV.Err? { return Err(datePublishedV.error); }
      datePublished := datePublishedV.value;
      var thumbnailV := GetString(o, KeyThumbnail);
      if thumbnailV.Err? { return Err(thumbnailV.error); }
      thumbnail := thumbnailV.value;
      return Ok(());
    }

    /** `addEnclosure` for each element, in order, until one fails to decode. */
    method AppendEnclosures(js: seq<Json>) returns (r: Result<()>)
      modifies this`enclosures
      ensures r.Ok? <==> DecodeEnclosures(js).Ok?
      ensures r.Ok? ==> enclosures == old(enclosures) + DecodeEnclosures(js).value
    {
      var j := 0;
      assert js[j..] == js;
      assert enclosures[|old(enclosures)|..] == [];
      PrependPrepend([], [], DecodeEnclosures(js));
      while j < |js|
        invariant 0 <= j <= |js|
        invariant |old(enclosures)| <= |enclosures| && enclosures[..|old(enclosures)|] == old(enclosures)
        invariant DecodeEnclosures(js) == Prepend(enclosures[|old(enclosures)|..], DecodeEnclosures(js[j..]))
      {
        assert js[j..][0] == js[j] && js[j..][1..] == js[j + 1..];
        var x := DecodeEnclosure(js[j]);
        if x.Err? {
          return Err(x.error);
        }
        PrependPrepend(enclosures[|old(enclosures)|..], [x.value], DecodeEnclosures(js[j + 1..]));
        assert (enclosures + [x.value])[|old(enclosures)|..] == enclosures[|old(enclosures)|..] + [x.value];
        enclosures := enclosures + [x.value];
        j := j + 1;
      }
      assert js[j..] == [];
      assert enclosures == old(enclosures) + enclosures[|old(enclosures)|..];
      return Ok(());
    }

    /** The category loop of `fromJSON`: each decoded category is appended, in order, until one fails. */
    method AppendCategories(js: seq<Json>) returns (r: Result<()>)
      modifies this`categories
      ensures r.Ok? <==> DecodeCategories(js).Ok?
      ensures r.Ok? ==> categories == old(categories) + DecodeCategories(js).value
    {
      var j := 0;
      assert js[j..] == js;
      assert categories[|old(categories)|..] == [];
      PrependPrepend([], [], DecodeCategories(js));
      while j < |js|
        invariant 0 <= j <= |js|
        invariant |old(categories)| <= |categories| && categories[..|old(categories)|] == old(categories)
        invariant DecodeCategories(js) == Prepend(categories[|old(categories)|..], DecodeCategories(js[j..]))
      {
        assert js[j..][0] == js[j] && js[j..][1..] == js[j + 1..];
        var x := DecodeCategory(js[j]);
        if x.Err? {
          return Err(x.error);
        }
        PrependPrepend(categories[|old(categories)|..], [x.value], DecodeCategories(js[j + 1..]));
        assert (categories + [x.value])[|old(categories)|..] == categories[|old(categories)|..] + [x.value];
        categories := categories + [x.value];
        j := j + 1;
      }
      assert js[j..] == [];
      assert categories == old(categories) + categories[|old(categories)|..];
      return Ok(());
    }

    method SetFlagColors(o: Object) returns (r: Result<()>)
      modifies this`flagColors
      ensures r.Ok? <==> DecodeFlagColors(o).Ok?
      ensures r.Ok? ==> flagColors == DecodeFlagColors(o).value
    {
      var namesV := GetString(o, KeyFlagColors);
      if namesV.Err? { return Err(namesV.error); }
      var names := Helpers.SplitString(namesV.value, ',');
      var colors := ParseFlagColors(names);
      if colors.Err? { return Err(colors.error); }
      flagColors := colors.value;
      return Ok(());
    }

    method AppendEnclosureArray(o: Object) returns (r: Result<()>)
      modifies this`enclosures
      ensures r.Ok? <==> DecodeEnclosureArray(o).Ok?
      ensures r.Ok? ==> enclosures == old(enclosures) + DecodeEnclosureArray(o).value
    {
      var arr := GetArray(o, KeyEnclosures);
      if arr.None? { return Ok(()); }
      r := AppendEnclosures(arr.value);
    }

    method AppendCategoryArray(o: Object) returns (r: Result<()>)
      modifies this`categories
      ensures r.Ok? <==> DecodeCategoryArray(o).Ok?
      ensures r.Ok? ==> categories == old(categories) + DecodeCategoryArray(o).value
    {
      var arr := GetArray(o, KeyCategories);
      if arr.None? { return Ok(()); }
      r := AppendCategories(arr.value);
    }

    method SetScalars(o: Object) returns (r: Result<()>)
      modifies this`isRead, this`feedID, this`feedTitle, this`feedLink
      modifies this`title, this`link, this`content, this`author
      modifies this`commentsURL, this`guid, this`datePublished, this`thumbnail
      ensures r.Ok? <==> DecodeScalars(o).Ok?
      ensures r.Ok? ==> DecodeScalars(o).value == Scalars(
        FeedPart(isRead, feedID, feedTitle, feedLink), TextPart(title, link, content, author),
        MetaPart(commentsURL, guid, datePublished, thumbnail))
    {
      r := SetFeedPart(o);
      if r.Err? { return; }
      r := SetTextPart(o);
      if r.Err? { return; }
      r := SetMetaPart(o);
    }

    method SetLists(o: Object) returns (r: Result<()>)
      modifies this`flagColors, this`enclosures, this`categories
      ensures r.Ok? <==> DecodeLists(o).Ok?
      ensures r.Ok? ==> DecodeLists(o).value == Lists(
        flagColors, DecodeEnclosureArray(o).value, DecodeCategoryArray(o).value)
      ensures r.Ok? ==> enclosures == old(enclosures) + DecodeEnclosureArray(o).value
      ensures r.Ok? ==> categories == old(categories) + DecodeCategoryArray(o).value
    {
      r := SetFlagColors(o);
      if r.Err? { return; }
      r := AppendEnclosureArray(o);
      if r.Err? { return; }
      r := AppendCategoryArray(o);
    }

    /**
     * `fromJSON`: sets the scalar fields one by one, then the flag colours,
     * then APPENDS the decoded enclosures and categories to the lists the
     * post already holds; the id is not read. The first missing or
     * mistyped value or unknown colour name aborts, keeping what was set.
     */
    method FromJSON(o: Object) returns (r: Result<()>)
      modifies this
      ensures id == old(id)
      ensures r.Ok? <==> DecodePost(o).Ok?
      ensures r.Ok? ==> Value() == DecodePost(o).value.(
        enclosures := old(enclosures) + DecodePost(o).value.enclosures,
        categories := old(categories) + DecodePost(o).value.categories)
    {
      r := SetScalars(o);
      if r.Err? { return; }
      r := SetLists(o);
    }
  }
}
