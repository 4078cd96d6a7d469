/**
 * `FeedParserRSS10.cpp`: reading an RSS 1.0 (RDF Site Summary) document
 * into feed properties and items. This parser still fills the older item
 * record of `FeedParser.h`, which has a description where the newer
 * parsers have content, categories and a thumbnail. MD5, the random UUID
 * generator and date normalisation are given as parameters; `dc:` and
 * `content:` elements are found under their conventional prefixes.
 */
module FeedParserRSS10 {
  import opened Wrappers
  import opened Xml
  import Posts

  /** `FeedParser::Item` as this parser knows it. */
  datatype Item = Item(
    title: string,
    link: string,
    description: string,
    author: string,
    commentsURL: string,
    guid: string,
    datePublished: string,
    enclosures: seq<Posts.Enclosure>)

  /** The message of the exception an unreadable `dc:date` raises. */
  const UnparsableDate: string := "cannot parse date/time"

  // ---------------------------------------------------------------- feed properties

  /** The text of a child of the document element's `channel`, or "". */
  function ChannelText(root: Node, name: string): string
  {
    match Child(root, "channel")
    case Some(channel) => ChildText(channel, name)
    case None => ""
  }

  function Title(root: Node): string { ChannelText(root, "title") }

  function Link(root: Node): string { ChannelText(root, "link") }

  function Description(root: Node): string { ChannelText(root, "description") }

  // ---------------------------------------------------------------- items

  /**
   * What the guid is the digest of: the link, else the title, else the
   * description, else the random UUID generated for the item.
   */
  function GuidSource(link: string, title: string, description: string, uuid: string): (r: string)
    ensures r in {link, title, description, uuid}
    ensures r == "" ==> link == "" && title == "" && description == "" && uuid == ""
    ensures link != "" ==> r == link
  {
    if link != "" then link
    else if title != "" then title
    else if description != "" then description
    else uuid
  }

  /** The item's body: the text of `content:encoded` when there is one, else the inner XML of `description`. */
  function ItemDescription(itemNode: Node): (r: string)
    ensures Child(itemNode, "content:encoded").Some? ==> r == InnerText(Child(itemNode, "content:encoded").value)
    ensures Child(itemNode, "content:encoded").None? ==> r == ChildInnerXML(itemNode, "description")
  {
    match Child(itemNode, "content:encoded")
    case Some(encoded) => InnerText(encoded)
    case None => ChildInnerXML(itemNode, "description")
  }

  /** The normalised `dc:date`, "" without one; an unreadable date throws. */
  function ItemDate(itemNode: Node, normalizeDate: string -> Option<string>): (r: Result<string>)
    ensures Child(itemNode, "dc:date").None? ==> r == Ok("")
    ensures r.Err? <==> Child(itemNode, "dc:date").Some? && normalizeDate(InnerText(Child(itemNode, "dc:date").value)).None?
  {
    match Child(itemNode, "dc:date")
    case None => Ok("")
    case Some(date) =>
      match normalizeDate(InnerText(date))
      case Some(normalized) => Ok(normalized)
      case None => Err(UnparsableDate)
  }

  /** One `item` element; `uuid` is the random UUID drawn for it, `md5` the hex MD5 digest of a string. */
  function ItemOf(itemNode: Node, uuid: string, md5: string -> string, normalizeDate: string -> Option<string>): Result<Item>
  {
    var title := ChildText(itemNode, "title");
    var link := ChildText(itemNode, "link");
    var description := ItemDescription(itemNode);
    var author := match Child(itemNode, "dc:creator") case Some(c) => InnerText(c) case None => "";
    var date :- ItemDate(itemNode, normalizeDate);
    Ok(Item(title, link, description, author, "", md5(GuidSource(link, title, description, uuid)), date, []))
  }

  /**
   * The body of the item loop, statement for statement: the title, link and
   * description reads, the `content:encoded` override, the guid source
   * fallbacks and its digest, then `dc:creator` and `dc:date`
   * (`FeedParserRSS10.cpp`, lines 88-133).
   */
  method ReadItem(itemNode: Node, uuid: string, md5: string -> string, normalizeDate: string -> Option<string>) returns (r: Result<Item>)
    ensures r == ItemOf(itemNode, uuid, md5, normalizeDate)
  {
    var title := ChildText(itemNode, "title");
    var link := ChildText(itemNode, "link");
    var description := ChildInnerXML(itemNode, "description");
    var contentEncodedNode := Child(itemNode, "content:encoded");
    if contentEncodedNode.Some? {
      description := InnerText(contentEncodedNode.value);
    }

    var guidSrc := link;
    if guidSrc == "" {
      guidSrc := title;
    }
    if guidSrc == "" {
      guidSrc := description;
    }
    if guidSrc == "" {
      guidSrc := uuid;
    }
    var guid := md5(guidSrc);

    var author := "";
    var creatorNode := Child(itemNode, "dc:creator");
    if creatorNode.Some? {
      author := InnerText(creatorNode.value);
    }

    var datePublished := "";
    var dateNode := Child(itemNode, "dc:date");
    if dateNode.Some? {
      var parsed := normalizeDate(InnerText(dateNode.value));
      if parsed.None? {
        return Err(UnparsableDate);
      }
      datePublished := parsed.value;
    }
    return Ok(Item(title, link, description, author, "", guid, datePublished, []));
  }

  /** What the item loop does with the element at position `i`. */
  function ItemReader(uuids: nat -> string, md5: string -> string, normalizeDate: string -> Option<string>): (nat, Node) -> Result<Item>
  {
    (i: nat, itemNode: Node) => ItemOf(itemNode, uuids(i), md5, normalizeDate)
  }

  /** `items`: every `item` element of the document, in document order; `uuids(i)` is the UUID drawn for the i-th. */
  function Items(root: Node, uuids: nat -> string, md5: string -> string, normalizeDate: string -> Option<string>): Result<seq<Item>>
  {
    MapResult(DocumentElements(root, "item"), ItemReader(uuids, md5, normalizeDate))
  }

  /** The body of the item loop for the element at position `i`, which draws the i-th UUID. */
  method ReadItemAt(i: nat, itemNode: Node, uuids: nat -> string, md5: string -> string, normalizeDate: string -> Option<string>)
    returns (r: Result<Item>)
    ensures r == ItemReader(uuids, md5, normalizeDate)(i, itemNode)
  {
    r := ReadItem(itemNode, uuids(i), md5, normalizeDate);
  }

  method ReadItems(root: Node, uuids: nat -> string, md5: string -> string, normalizeDate: string -> Option<string>) returns (r: Result<seq<Item>>)
    ensures r == Items(root, uuids, md5, normalizeDate)
  {
    var itemList := DocumentElements(root, "item");
    ghost var f := ItemReader(uuids, md5, normalizeDate);
    var items: seq<Item> := [];
    for i := 0 to |itemList|
      invariant MapResult(itemList[..i], f) == Ok(items)
    {
      var item := ReadItemAt(i, itemList[i], uuids, md5, normalizeDate);
      MapResultStep(itemList, f, i, items);
      if item.Err? {
        return Err(item.error);
      }
      items := items + [item.value];
    }
    assert itemList[..|itemList|] == itemList;
    return Ok(items);
  }

  // ---------------------------------------------------------------- properties

  /** The guid is the digest of the link when there is one (the links of two items with equal links give equal guids). */
  lemma GuidFromLink(itemNode: Node, uuid: string, md5: string -> string, normalizeDate: string -> Option<string>)
    requires ItemOf(itemNode, uuid, md5, normalizeDate).Ok?
    requires ChildText(itemNode, "link") != ""
    ensures ItemOf(itemNode, uuid, md5, normalizeDate).value.guid == md5(ChildText(itemNode, "link"))
  {
  }

  /** The digest never covers an empty string: with a title, description or (always non-empty) UUID to fall back on, the source is non-empty. */
  lemma GuidSourceNeverEmpty(itemNode: Node, uuid: string, md5: string -> string, normalizeDate: string -> Option<string>)
    requires uuid != ""
    requires ItemOf(itemNode, uuid, md5, normalizeDate).Ok?
    ensures var item := ItemOf(itemNode, uuid, md5, normalizeDate).value;
      var src := GuidSource(item.link, item.title, item.description, uuid);
      src != "" && item.guid == md5(src)
  {
  }

  /** Without `dc:creator` and `dc:date`, the author and date stay empty and the item cannot fail. */
  lemma MissingCreatorAndDate(itemNode: Node, uuid: string, md5: string -> string, normalizeDate: string -> Option<string>)
    requires Child(itemNode, "dc:creator").None? && Child(itemNode, "dc:date").None?
    ensures ItemOf(itemNode, uuid, md5, normalizeDate).Ok?
    ensures ItemOf(itemNode, uuid, md5, normalizeDate).value.author == ""
    ensures ItemOf(itemNode, uuid, md5, normalizeDate).value.datePublished == ""
  {
  }

  /** Every `item` element gives one item, in order, with the UUID of its position, unless one of them throws. */
  lemma ItemsMeaning(root: Node, uuids: nat -> string, md5: string -> string, normalizeDate: string -> Option<string>)
    ensures var itemNodes := DocumentElements(root, "item");
      && (Items(root, uuids, md5, normalizeDate).Ok? <==>
            forall k :: 0 <= k < |itemNodes| ==> ItemOf(itemNodes[k], uuids(k), md5, normalizeDate).Ok?)
      && (Items(root, uuids, md5, normalizeDate).Ok? ==>
            |Items(root, uuids, md5, normalizeDate).value| == |itemNodes|
            && forall k :: 0 <= k < |itemNodes| ==> Items(root, uuids, md5, normalizeDate).value[k] == ItemOf(itemNodes[k], uuids(k), md5, normalizeDate).value)
  {
    MapResultMeaning(DocumentElements(root, "item"), ItemReader(uuids, md5, normalizeDate));
  }
}
