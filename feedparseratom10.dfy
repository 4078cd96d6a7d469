/**
 * `FeedParserATOM10.cpp`: reading an Atom 1.0 document (RFC 4287) into
 * feed properties and items. The document is the DOM tree the XML parser
 * built; element names are qualified names as written, so the `media:`
 * elements of Media RSS are found under their conventional prefix. Dates
 * are normalised by a given partial function; a date it cannot read makes
 * the whole `items` call throw, as `DateTimeParser::parse` does.
 */
module FeedParserATOM10 {
  import opened Wrappers
  import opened Strings
  import opened Xml
  import opened Store
  import Posts

  /** The message of the exception an unreadable `updated` date raises. */
  const UnparsableDate: string := "cannot parse date/time"

  // ---------------------------------------------------------------- feed properties

  /** `guid`, `title`, `subtitle` and `copyright` are the texts of the document element's children. */
  function Guid(root: Node): string { ChildText(root, "id") }

  function Title(root: Node): string { ChildText(root, "title") }

  function Subtitle(root: Node): string { ChildText(root, "subtitle") }

  function Copyright(root: Node): string { ChildText(root, "rights") }

  /** A link the feed's own link can come from. */
  predicate IsFeedLink(n: Node)
  {
    Attribute(n, "rel") == Some("alternate") && Attribute(n, "href").Some?
  }

  /**
   * `link`: the href of the first `link` element anywhere below the
   * document element with rel exactly "alternate" and an href; "" when
   * there is none. Links inside entries are candidates too.
   */
  function FeedLink(root: Node): (r: string)
    ensures var links := Descendants(root, "link");
      forall k :: 0 <= k < |links| && IsFeedLink(links[k]) && (forall j :: 0 <= j < k ==> !IsFeedLink(links[j])) ==>
        r == links[k].attributes["href"]
    ensures var links := Descendants(root, "link");
      (forall k :: 0 <= k < |links| ==> !IsFeedLink(links[k])) ==> r == ""
  {
    var links := Descendants(root, "link");
    match FirstWhere(links, IsFeedLink)
    case None => ""
    case Some(k) => links[k].attributes["href"]
  }

  /** The scan of `link`: stops at the first alternate link with an href. */
  method ReadFeedLink(root: Node) returns (link: string)
    ensures link == FeedLink(root)
  {
    link := "";
    var linkNodes := Descendants(root, "link");
    var i := 0;
    while i < |linkNodes|
      invariant 0 <= i <= |linkNodes|
      invariant forall j :: 0 <= j < i ==> !IsFeedLink(linkNodes[j])
    {
      var linkEl := linkNodes[i];
      if Attribute(linkEl, "rel") == Some("alternate") && Attribute(linkEl, "href").Some? {
        link := Attribute(linkEl, "href").value;
        break;
      }
      i := i + 1;
    }
  }

  /** A feed whose document element has no alternate link of its own takes the one of its first entry. */
  lemma EntryLinkBecomesFeedLink(root: Node, entry: Node, link: Node)
    requires root.Element? && root.children == [entry]
    requires entry.Element? && entry.name == "entry" && entry.children == [link]
    requires link.Element? && link.name == "link" && IsFeedLink(link)
    ensures FeedLink(root) == link.attributes["href"]
  {
    LinkOfEntryFirst(root, entry, link);
    var links := Descendants(root, "link");
    assert IsFeedLink(links[0]);
  }

  lemma LinkOfEntryFirst(root: Node, entry: Node, link: Node)
    requires root.Element? && root.children == [entry]
    requires entry.Element? && entry.name == "entry" && entry.children == [link]
    requires link.Element? && link.name == "link"
    ensures |Descendants(root, "link")| > 0 && Descendants(root, "link")[0] == link
  {
    assert [entry][1..] == [] && [link][1..] == [];
    var below := ElementsNamed(link.children, "link");
    assert ElementsNamed([link], "link") == [link] + below + [];
    assert ElementsNamed([entry], "link") == ElementsNamed([link], "link") + [];
  }

  // ---------------------------------------------------------------- item links and enclosures

  /** The `length` attribute read as an unsigned 64-bit number; 0 when it is absent or does not parse. */
  function Size(el: Node): UInt64
  {
    match Attribute(el, "length")
    case None => 0
    case Some(length) =>
      match TryParseUnsigned64(length)
      case Some(n) => n
      case None => 0
  }

  function MimeType(el: Node): string
  {
    match Attribute(el, "type")
    case Some(t) => t
    case None => ""
  }

  /** A link that becomes the item's link: one with an href whose rel is absent, "alternate" or "enclosure". */
  predicate IsItemLink(n: Node)
  {
    && Attribute(n, "href").Some?
    && (Attribute(n, "rel").None? || Attribute(n, "rel").value == "alternate" || Attribute(n, "rel").value == "enclosure")
  }

  /** The item's link and the enclosures the link scan adds. */
  datatype LinkChoice = LinkChoice(link: string, enclosures: seq<Posts.Enclosure>)

  /** What one chosen link gives: its href as the link, and itself as an enclosure when it is one with a non-empty href. */
  function ChosenLink(l: Node): (r: LinkChoice)
    requires IsItemLink(l)
    ensures r.link == l.attributes["href"]
    ensures |r.enclosures| <= 1
    ensures r.enclosures != [] <==> Attribute(l, "rel") == Some("enclosure") && l.attributes["href"] != ""
    ensures forall e :: e in r.enclosures ==> e == Posts.Enclosure(l.attributes["href"], MimeType(l), Size(l))
  {
    var href := l.attributes["href"];
    LinkChoice(href, if Attribute(l, "rel") == Some("enclosure") && href != "" then [Posts.Enclosure(href, MimeType(l), Size(l))] else [])
  }

  /**
   * The link scan of an entry: the first item link decides both the link
   * and (for an enclosure link) the one enclosure the scan adds; links
   * with other rels are skipped; without an item link both stay empty.
   */
  function ItemLink(links: seq<Node>): (r: LinkChoice)
    ensures forall k :: 0 <= k < |links| && IsItemLink(links[k]) && (forall j :: 0 <= j < k ==> !IsItemLink(links[j])) ==>
      r == ChosenLink(links[k])
    ensures (forall k :: 0 <= k < |links| ==> !IsItemLink(links[k])) ==> r == LinkChoice("", [])
    ensures forall e :: e in r.enclosures ==> e.url != ""
  {
    match FirstWhere(links, IsItemLink)
    case None => LinkChoice("", [])
    case Some(k) => ChosenLink(links[k])
  }

  /** The first loop of the entry: over its `link` descendants, until one sets the item link. */
  method ReadItemLink(links: seq<Node>) returns (link: string, enclosures: seq<Posts.Enclosure>)
    ensures LinkChoice(link, enclosures) == ItemLink(links)
  {
    link := "";
    enclosures := [];
    var j := 0;
    while j < |links|
      invariant 0 <= j <= |links|
      invariant forall i :: 0 <= i < j ==> !IsItemLink(links[i])
      invariant link == "" && enclosures == []
    {
      var linkEl := links[j];
      if Attribute(linkEl, "href").Some? {
        if Attribute(linkEl, "rel").Some? {
          var rel := Attribute(linkEl, "rel").value;
          if rel == "enclosure" {
            var url := Attribute(linkEl, "href").value;
            var mimeType := "";
            if Attribute(linkEl, "type").Some? {
              mimeType := Attribute(linkEl, "type").value;
            }
            var size: UInt64 := 0;
            if Attribute(linkEl, "length").Some? {
              var parsed := TryParseUnsigned64(Attribute(linkEl, "length").value);
              if parsed.Some? {
                size := parsed.value;
              }
            }
            if url != "" {
              enclosures := enclosures + [Posts.Enclosure(url, mimeType, size)];
            }
          } else if rel != "alternate" {
            j := j + 1;
            continue;
          }
        }
        link := Attribute(linkEl, "href").value;
        assert IsItemLink(linkEl);
        return;
      }
      j := j + 1;
    }
  }

  /** An `enclosure` element's URL: its href, or its url when the href is absent or empty. */
  function EnclosureURL(el: Node): (r: string)
    ensures Attribute(el, "href").Some? && Attribute(el, "href").value != "" ==> r == Attribute(el, "href").value
    ensures (Attribute(el, "href").None? || Attribute(el, "href").value == "") && Attribute(el, "url").Some? ==> r == Attribute(el, "url").value
    ensures (Attribute(el, "href").None? || Attribute(el, "href").value == "") && Attribute(el, "url").None? ==> r == ""
  {
    var href := match Attribute(el, "href") case Some(h) => h case None => "";
    if href == "" && Attribute(el, "url").Some? then Attribute(el, "url").value else href
  }

  /** The enclosures of `enclosure` elements, in order, leaving out those without a URL. */
  function ElementEnclosures(els: seq<Node>): (r: seq<Posts.Enclosure>)
    ensures |r| <= |els|
    ensures forall e :: e in r ==> e.url != ""
    ensures forall e :: e in r ==> exists el :: el in els && e == Posts.Enclosure(EnclosureURL(el), MimeType(el), Size(el))
    ensures forall el :: el in els && EnclosureURL(el) != "" ==> Posts.Enclosure(EnclosureURL(el), MimeType(el), Size(el)) in r
  {
    if els == [] then []
    else
      var init := ElementEnclosures(els[..|els| - 1]);
      var el := els[|els| - 1];
      assert forall x :: x in els <==> x in els[..|els| - 1] || x == el;
      init + if EnclosureURL(el) != "" then [Posts.Enclosure(EnclosureURL(el), MimeType(el), Size(el))] else []
  }

  /** The second loop of the entry: over its `enclosure` descendants. */
  method ReadEnclosures(els: seq<Node>) returns (enclosures: seq<Posts.Enclosure>)
    ensures enclosures == ElementEnclosures(els)
  {
    enclosures := [];
    for j := 0 to |els|
      invariant enclosures == ElementEnclosures(els[..j])
    {
      assert els[..j + 1][..j] == els[..j];
      var enclosureEl := els[j];
      var url := "";
      if Attribute(enclosureEl, "href").Some? {
        url := Attribute(enclosureEl, "href").value;
      }
      if url == "" && Attribute(enclosureEl, "url").Some? {
        url := Attribute(enclosureEl, "url").value;
      }
      var mimeType := "";
      if Attribute(enclosureEl, "type").Some? {
        mimeType := Attribute(enclosureEl, "type").value;
      }
      var size: UInt64 := 0;
      if Attribute(enclosureEl, "length").Some? {
        var parsed := TryParseUnsigned64(Attribute(enclosureEl, "length").value);
        if parsed.Some? {
          size := parsed.value;
        }
      }
      if url != "" {
        enclosures := enclosures + [Posts.Enclosure(url, mimeType, size)];
      }
    }
    assert els[..|els|] == els;
  }

  // ---------------------------------------------------------------- content

  /** The type a `content` element declares, "text" by default. */
  function ContentType(c: Node): string
  {
    match Attribute(c, "type")
    case Some(t) => t
    case None => "text"
  }

  /**
   * The content the entry itself declares: its summary's inner XML, unless
   * a `content` child without `src` overrides it — as `<pre>` text for
   * type "text", as inner XML for any other type.
   */
  function DeclaredContent(entry: Node): (r: string)
    ensures (Child(entry, "content").None? || Attribute(Child(entry, "content").value, "src").Some?) ==> r == ChildInnerXML(entry, "summary")
    ensures Child(entry, "content").Some? && Attribute(Child(entry, "content").value, "src").None? ==>
      var c := Child(entry, "content").value;
      r == if ContentType(c) == "text" then "<pre>" + InnerText(c) + "</pre>" else ChildInnerXML(entry, "content")
  {
    match Child(entry, "content")
    case Some(c) =>
      if Attribute(c, "src").None? then
        if ContentType(c) == "text" then "<pre>" + InnerText(c) + "</pre>" else ChildInnerXML(entry, "content")
      else ChildInnerXML(entry, "summary")
    case None => ChildInnerXML(entry, "summary")
  }

  /** What a media group contributes: the content it renders and the thumbnail it names. */
  datatype Media = Media(content: string, thumbnail: string)

  /** The linked thumbnail image of a media group, when its thumbnail has a url. */
  function ThumbnailMarkup(link: string, thumbnail: string): string
  {
    "<a href=\"" + link + "\"><img src=\"" + thumbnail + "\" alt=\"\" /></a>"
  }

  /** A media description as a paragraph; non-HTML text keeps its line breaks as `<br />`. */
  function DescriptionMarkup(d: Node): string
  {
    if Attribute(d, "type") == Some("html") then "<p>" + InnerText(d) + "</p>"
    else "<p>" + Replace(InnerText(d), '\n', "<br />") + "</p>"
  }

  /**
   * The YouTube fallback: the entry's `media:group`, when present, renders
   * its thumbnail (linked to the item link) and then its description.
   */
  function MediaGroup(entry: Node, link: string): (r: Media)
    ensures Child(entry, "media:group").None? ==> r == Media("", "")
    ensures r.thumbnail != "" ==> r.content != ""
  {
    match Child(entry, "media:group")
    case None => Media("", "")
    case Some(g) => GroupMedia(g, link)
  }

  /** What one media group renders: its thumbnail's url (linked to the item link) and then its description. */
  function GroupMedia(g: Node, link: string): (r: Media)
    ensures r.thumbnail != "" ==> r.content != ""
  {
    var thumbnail := match Child(g, "media:thumbnail") case Some(t) => Attribute(t, "url") case None => None;
    var thumbnailPart := if thumbnail.Some? then ThumbnailMarkup(link, thumbnail.value) else "";
    var descriptionPart := match Child(g, "media:description") case Some(d) => DescriptionMarkup(d) case None => "";
    Media(thumbnailPart + descriptionPart, if thumbnail.Some? then thumbnail.value else "")
  }

  /** The content and thumbnail an item ends with: the declared content, or the media group's when that is empty. */
  function EntryMedia(entry: Node, link: string): (r: Media)
    ensures DeclaredContent(entry) != "" ==> r == Media(DeclaredContent(entry), "")
    ensures DeclaredContent(entry) == "" ==> r == MediaGroup(entry, link)
  {
    var declared := DeclaredContent(entry);
    if declared == "" then MediaGroup(entry, link) else Media(declared, "")
  }

  /** The text of the entry's author's name, or "". */
  function AuthorName(entry: Node): string
  {
    match Child(entry, "author")
    case Some(a) => ChildText(a, "name")
    case None => ""
  }

  // ---------------------------------------------------------------- categories

  /** The `term` attributes of the category elements that have one, in order. */
  function Terms(cats: seq<Node>): (r: seq<string>)
    ensures |r| <= |cats|
    ensures forall t :: t in r <==> exists c :: c in cats && Attribute(c, "term") == Some(t)
  {
    if cats == [] then []
    else
      var c := cats[|cats| - 1];
      assert forall x :: x in cats <==> x in cats[..|cats| - 1] || x == c;
      Terms(cats[..|cats| - 1]) + match Attribute(c, "term") case Some(t) => [t] case None => []
  }

  /** The category loop of the entry. */
  method ReadCategories(cats: seq<Node>) returns (categories: seq<string>)
    ensures categories == Terms(cats)
  {
    categories := [];
    for j := 0 to |cats|
      invariant categories == Terms(cats[..j])
    {
      assert cats[..j + 1][..j] == cats[..j];
      var categoryEl := cats[j];
      if Attribute(categoryEl, "term").Some? {
        categories := categories + [Attribute(categoryEl, "term").value];
      }
    }
    assert cats[..|cats|] == cats;
  }

  // ---------------------------------------------------------------- entries

  /** One entry as an item; an `updated` date the normaliser cannot read throws. */
  function EntryItem(entry: Node, normalizeDate: string -> Option<string>): Result<Item>
  {
    var choice := ItemLink(Descendants(entry, "link"));
    var media := EntryMedia(entry, choice.link);
    match normalizeDate(ChildText(entry, "updated"))
    case None => Err(UnparsableDate)
    case Some(date) =>
      Ok(Item(
        ChildText(entry, "title"), choice.link, media.content, AuthorName(entry), "", ChildText(entry, "id"),
        date, media.thumbnail, choice.enclosures + ElementEnclosures(Descendants(entry, "enclosure")),
        Terms(Descendants(entry, "category"))))
  }

  /**
   * What an entry's item holds: its id as guid, the link scan's link and
   * enclosures followed by the `enclosure` elements', the declared content
   * unless that is empty (then the media group's content and thumbnail),
   * and the category terms; and it fails exactly on an unreadable date.
   */
  lemma EntryItemFields(entry: Node, normalizeDate: string -> Option<string>, item: Item)
    requires EntryItem(entry, normalizeDate) == Ok(item)
    ensures item.datePublished == normalizeDate(ChildText(entry, "updated")).value
    ensures item.guid == ChildText(entry, "id") && item.title == ChildText(entry, "title")
    ensures item.author == AuthorName(entry) && item.commentsURL == ""
    ensures item.link == ItemLink(Descendants(entry, "link")).link
    ensures item.enclosures == ItemLink(Descendants(entry, "link")).enclosures + ElementEnclosures(Descendants(entry, "enclosure"))
    ensures forall e :: e in item.enclosures ==> e.url != ""
    ensures DeclaredContent(entry) != "" ==> item.content == DeclaredContent(entry) && item.thumbnail == ""
    ensures DeclaredContent(entry) == "" ==> Media(item.content, item.thumbnail) == MediaGroup(entry, item.link)
    ensures item.categories == Terms(Descendants(entry, "category"))
  {
  }

  /** An entry fails exactly when its `updated` date cannot be read (a missing one included). */
  lemma EntryItemFailsOnDate(entry: Node, normalizeDate: string -> Option<string>)
    ensures EntryItem(entry, normalizeDate).Err? <==> normalizeDate(ChildText(entry, "updated")).None?
    ensures Child(entry, "updated").None? ==> (EntryItem(entry, normalizeDate).Err? <==> normalizeDate("").None?)
  {
  }

  /**
   * The content part of the entry loop: summary, `content` override, then
   * the media group fallback when the content is still empty
   * (`FeedParserATOM10.cpp`, lines 186-249).
   */
  method ReadContent(entry: Node, link: string) returns (content: string, thumbnail: string)
    ensures Media(content, thumbnail) == EntryMedia(entry, link)
  {
    content := ReadDeclaredContent(entry);
    thumbnail := "";
    if content == "" {
      if Child(entry, "media:group").Some? {
        content, thumbnail := ReadMediaGroup(Child(entry, "media:group").value, link);
      }
    }
  }

  /**
   * The summary read and the `content` override: no `src` attribute, a type
   * defaulting to "text", text wrapped in `<pre>`, anything else read as
   * inner XML (`FeedParserATOM10.cpp`, lines 186-209).
   */
  method ReadDeclaredContent(entry: Node) returns (content: string)
    ensures content == DeclaredContent(entry)
  {
    content := ChildInnerXML(entry, "summary");
    var contentNode := Child(entry, "content");
    if contentNode.Some? {
      var contentEl := contentNode.value;
      if Attribute(contentEl, "src").None? {
        var contentType := "text";
        if Attribute(contentEl, "type").Some? {
          contentType := Attribute(contentEl, "type").value;
        }
        if contentType == "text" {
          content := "<pre>" + InnerText(contentEl) + "</pre>";
        } else {
          content := ChildInnerXML(entry, "content");
        }
      }
    }
  }

  /**
   * The stream the media group renders into: the linked thumbnail, then the
   * description (`FeedParserATOM10.cpp`, lines 216-247).
   */
  method ReadMediaGroup(group: Node, link: string) returns (content: string, thumbnail: string)
    ensures Media(content, thumbnail) == GroupMedia(group, link)
  {
    var stream := "";
    thumbnail := "";
    var thumbnailNode := Child(group, "media:thumbnail");
    if thumbnailNode.Some? && Attribute(thumbnailNode.value, "url").Some? {
      thumbnail := Attribute(thumbnailNode.value, "url").value;
      stream := stream + ThumbnailMarkup(link, thumbnail);
    }
    var descriptionNode := Child(group, "media:description");
    if descriptionNode.Some? {
      stream := stream + DescriptionMarkup(descriptionNode.value);
    }
    content := stream;
  }

  /** The body of the entry loop: builds the item field by field. */
  method ReadEntry(entry: Node, normalizeDate: string -> Option<string>) returns (r: Result<Item>)
    ensures r == EntryItem(entry, normalizeDate)
  {
    var title := ChildText(entry, "title");
    var link, enclosures := ReadItemLink(Descendants(entry, "link"));
    var more := ReadEnclosures(Descendants(entry, "enclosure"));
    enclosures := enclosures + more;

    var content, thumbnail := ReadContent(entry, link);

    var author := "";
    var authorNode := Child(entry, "author");
    if authorNode.Some? {
      author := ChildText(authorNode.value, "name");
    }

    var guid := ChildText(entry, "id");
    var date := normalizeDate(ChildText(entry, "updated"));
    if date.None? {
      return Err(UnparsableDate);
    }
    var categories := ReadCategories(Descendants(entry, "category"));
    return Ok(Item(title, link, content, author, "", guid, date.value, thumbnail, enclosures, categories));
  }

  /** What the entry loop does with each entry (its position plays no part). */
  function EntryReader(normalizeDate: string -> Option<string>): (nat, Node) -> Result<Item>
  {
    (_: nat, entry: Node) => EntryItem(entry, normalizeDate)
  }

  /** `items`: every `entry` element of the document (the document element included), in document order; the first entry with an unreadable date makes the whole call throw. */
  function Items(root: Node, normalizeDate: string -> Option<string>): Result<seq<Item>>
  {
    MapResult(DocumentElements(root, "entry"), EntryReader(normalizeDate))
  }

  method ReadItems(root: Node, normalizeDate: string -> Option<string>) returns (r: Result<seq<Item>>)
    ensures r == Items(root, normalizeDate)
  {
    var entryList := DocumentElements(root, "entry");
    ghost var f := EntryReader(normalizeDate);
    var items: seq<Item> := [];
    for i := 0 to |entryList|
      invariant MapResult(entryList[..i], f) == Ok(items)
    {
      PrefixSnoc(entryList, i);
      var item := ReadEntry(entryList[i], normalizeDate);
      assert f(i, entryList[i]) == item;
      MapResultSnoc(entryList[..i], entryList[i], f, items);
      if item.Err? {
        MapResultErrSticks(entryList, f, i + 1);
        return Err(item.error);
      }
      items := items + [item.value];
    }
    assert entryList[..|entryList|] == entryList;
    return Ok(items);
  }

  /** Every entry becomes exactly one item, in order, unless one of them throws. */
  lemma EntryItemsMeaning(root: Node, normalizeDate: string -> Option<string>)
    ensures var entries := DocumentElements(root, "entry");
      && (Items(root, normalizeDate).Ok? <==> forall k :: 0 <= k < |entries| ==> EntryItem(entries[k], normalizeDate).Ok?)
      && (Items(root, normalizeDate).Ok? ==>
            |Items(root, normalizeDate).value| == |entries|
            && forall k :: 0 <= k < |entries| ==> Items(root, normalizeDate).value[k] == EntryItem(entries[k], normalizeDate).value)
  {
    MapResultMeaning(DocumentElements(root, "entry"), EntryReader(normalizeDate));
  }

  // ---------------------------------------------------------------- properties

  /** An enclosure link placed before the alternate one takes the item link, and the alternate link is never read. */
  lemma EnclosureLinkEndsScan(enclosure: Node, rest: seq<Node>)
    requires Attribute(enclosure, "rel") == Some("enclosure") && Attribute(enclosure, "href").Some?
    ensures ItemLink([enclosure] + rest).link == Attribute(enclosure, "href").value
    ensures ItemLink([enclosure] + rest) == ChosenLink(enclosure)
  {
    assert ([enclosure] + rest)[0] == enclosure;
  }

  /** A link with another rel (`self`, `related`, …) in front changes nothing. */
  lemma OtherRelIsSkipped(other: Node, rest: seq<Node>)
    requires Attribute(other, "rel").Some? && Attribute(other, "rel").value != "alternate" && Attribute(other, "rel").value != "enclosure"
    ensures ItemLink([other] + rest) == ItemLink(rest)
  {
    var links := [other] + rest;
    assert forall k :: 1 <= k < |links| ==> links[k] == rest[k - 1];
    match FirstWhere(rest, IsItemLink)
    case None =>
    case Some(k) =>
      assert IsItemLink(links[k + 1]) && forall j :: 0 <= j < k + 1 ==> !IsItemLink(links[j]);
  }
}
