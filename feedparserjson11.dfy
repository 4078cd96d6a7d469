/**
 * `FeedParserJSON11.cpp`: reading a JSON Feed (version 1 or 1.1) into
 * feed properties and items. The JSON parser and date parsing are not
 * modelled: the parser reads an abstract JSON object, and a date is
 * normalised by a given partial function. A typed read of a missing key or
 * of a value of another type throws, and so does a member call on the
 * null pointer `getArray` and `getObject` return for them; both are the
 * `Err` of the result.
 */
module FeedParserJSON11 {
  import opened Wrappers
  import opened Strings
  import opened Json
  import opened Store
  import Helpers

  /** The message for a member call through the null pointer `getArray` or `getObject` returned. */
  const NullPointer: string := "null pointer dereference"

  /** The wrapper around an item's plain text content. */
  const PreOpen: string := "<pre style=\"white-space:pre-wrap;\">"
  const PreClose: string := "</pre>"

  /** A key read when present, "" otherwise (`if (o->has(key)) x = o->getValue<std::string>(key);`). */
  function OptionalString(o: Object, key: string): (r: Result<string>)
    ensures key !in o ==> r == Ok("")
    ensures key in o ==> r == GetString(o, key)
  {
    if key in o then GetString(o, key) else Ok("")
  }

  // ---------------------------------------------------------------- feed properties

  /** `guid`: the feed_url, or "". */
  function Guid(root: Object): Result<string>
  {
    OptionalString(root, "feed_url")
  }

  /** `title`: a feed without one throws. */
  function Title(root: Object): Result<string>
  {
    GetString(root, "title")
  }

  /** `link`: the home_page_url, or "". */
  function Link(root: Object): Result<string>
  {
    OptionalString(root, "home_page_url")
  }

  function Description(root: Object): Result<string>
  {
    OptionalString(root, "description")
  }

  function Language(root: Object): Result<string>
  {
    OptionalString(root, "language")
  }

  /** `iconURL`: the icon, else the favicon, else "". */
  function IconURL(root: Object): (r: Result<string>)
    ensures "icon" in root ==> r == GetString(root, "icon")
    ensures "icon" !in root && "favicon" in root ==> r == GetString(root, "favicon")
    ensures "icon" !in root && "favicon" !in root ==> r == Ok("")
  {
    if "icon" in root then GetString(root, "icon")
    else if "favicon" in root then GetString(root, "favicon")
    else Ok("")
  }

  // ---------------------------------------------------------------- getAuthors

  /** The names of the author objects that have one, in order. */
  function AuthorNames(authors: seq<Json>): (r: Result<seq<string>>)
    ensures r.Ok? ==> |r.value| <= |authors|
  {
    if authors == [] then Ok([])
    else
      var names :- AuthorNames(authors[..|authors| - 1]);
      var last := authors[|authors| - 1];
      if !last.JObject? then Err(NullPointer)
      else if "name" in last.fields then
        var name :- GetString(last.fields, "name");
        Ok(names + [name])
      else Ok(names)
  }

  /** `getAuthors`: the names joined with ", ", or "" when there are none. */
  function Authors(authors: seq<Json>): (r: Result<string>)
  {
    var names :- AuthorNames(authors);
    Ok(Helpers.Join(names, ", "))
  }

  method GetAuthors(authors: seq<Json>) returns (r: Result<string>)
    ensures r == Authors(authors)
  {
    var names: seq<string> := [];
    for i := 0 to |authors|
      invariant AuthorNames(authors[..i]) == Ok(names)
    {
      assert authors[..i + 1][..i] == authors[..i];
      var author := authors[i];
      if !author.JObject? {
        assert AuthorNames(authors[..i + 1]).Err?;
        AuthorNamesErrSticks(authors, i + 1);
        return Err(NullPointer);
      }
      if "name" in author.fields {
        var name := GetString(author.fields, "name");
        if name.Err? {
          assert AuthorNames(authors[..i + 1]) == Err(name.error);
          AuthorNamesErrSticks(authors, i + 1);
          return Err(name.error);
        }
        names := names + [name.value];
      }
    }
    assert authors[..|authors|] == authors;
    if |names| > 0 {
      var joined := Helpers.JoinString(names, ", ");
      return Ok(joined);
    }
    return Ok("");
  }

  /** Once a prefix of the authors throws, so does the whole array, with the same message. */
  lemma {:induction false} AuthorNamesErrSticks(authors: seq<Json>, n: nat)
    requires n <= |authors| && AuthorNames(authors[..n]).Err?
    ensures AuthorNames(authors) == Err(AuthorNames(authors[..n]).error)
    decreases |authors| - n
  {
    if n < |authors| {
      assert authors[..n + 1][..n] == authors[..n];
      AuthorNamesErrSticks(authors, n + 1);
    } else {
      assert authors[..n] == authors;
    }
  }

  /** The names kept are exactly those of the author objects that have one: nameless entries are skipped. */
  lemma {:induction false} AuthorNamesMeaning(authors: seq<Json>)
    requires forall k :: 0 <= k < |authors| ==> authors[k].JObject? && ("name" in authors[k].fields ==> authors[k].fields["name"].JString?)
    ensures AuthorNames(authors).Ok?
    ensures AuthorNames(authors).value == Named(authors)
    decreases |authors|
  {
    if authors != [] {
      AuthorNamesMeaning(authors[..|authors| - 1]);
    }
  }

  /** The reference reading: the name of every author object that has one, in order. */
  function Named(authors: seq<Json>): seq<string>
    requires forall k :: 0 <= k < |authors| ==> authors[k].JObject? && ("name" in authors[k].fields ==> authors[k].fields["name"].JString?)
  {
    if authors == [] then []
    else
      var last := authors[|authors| - 1].fields;
      Named(authors[..|authors| - 1]) + if "name" in last then [last["name"].s] else []
  }

  /** Authors without names give "", not the feed's authors. */
  lemma NamelessAuthorsJoinToEmpty(authors: seq<Json>)
    requires forall k :: 0 <= k < |authors| ==> authors[k].JObject? && "name" !in authors[k].fields
    ensures Authors(authors) == Ok("")
  {
    AuthorNamesMeaning(authors);
    NamedWithoutNames(authors);
  }

  lemma {:induction false} NamedWithoutNames(authors: seq<Json>)
    requires forall k :: 0 <= k < |authors| ==> authors[k].JObject? && "name" !in authors[k].fields
    ensures Named(authors) == []
    decreases |authors|
  {
    if authors != [] {
      NamedWithoutNames(authors[..|authors| - 1]);
    }
  }

  // ---------------------------------------------------------------- content

  /** The markup-escaping half of the plain-text conversion. */
  function EscapeAngles(text: string): string
  {
    Replace(Replace(text, '<', "&lt;"), '>', "&gt;")
  }

  /** The escaped text holds no raw '<' or '>', so no tag of the text survives. */
  lemma EscapedHasNoAngles(text: string)
    ensures '<' !in EscapeAngles(text) && '>' !in EscapeAngles(text)
  {
  }

  /** Text without markup characters passes the escaping unchanged. */
  lemma EscapeKeepsPlainText(text: string)
    requires '<' !in text && '>' !in text
    ensures EscapeAngles(text) == text
  {
  }

  /** `content_text` shown as preformatted text: escaped, with line breaks as `<br />`. */
  function TextContent(text: string): (r: string)
    ensures '\n' !in r
  {
    var body := Replace(EscapeAngles(text), '\n', "<br />");
    MarkupHasNoLineBreak();
    assert '\n' !in body;
    PreOpen + body + PreClose
  }

  lemma MarkupHasNoLineBreak()
    ensures '\n' !in "<br />" && '\n' !in PreOpen && '\n' !in PreClose
  {
  }

  // ---------------------------------------------------------------- items

  /** The feed-level authors an item without its own inherits: the authors array, else the author's name. */
  function TopLevelAuthors(root: Object): (r: Result<string>)
  {
    var fromArray :- if "authors" in root then
                       match GetArray(root, "authors")
                       case None => Err(NullPointer)
                       case Some(a) => Authors(a)
                     else Ok("");
    if fromArray == "" && "author" in root then
      match GetObject(root, "author")
      case None => Err(NullPointer)
      case Some(a) => OptionalString(a, "name")
    else Ok(fromArray)
  }

  /** An item's author: its authors array if it has the key, else its author's name, else the feed's authors. */
  function ItemAuthor(o: Object, topLevelAuthors: string): (r: Result<string>)
    ensures "authors" !in o && "author" !in o ==> r == Ok(topLevelAuthors)
  {
    if "authors" in o then
      match GetArray(o, "authors")
      case None => Err(NullPointer)
      case Some(a) => Authors(a)
    else if "author" in o then
      match GetObject(o, "author")
      case None => Err(NullPointer)
      case Some(a) => OptionalString(a, "name")
    else Ok(topLevelAuthors)
  }

  /** The date the item gives: date_modified first, then date_published, else "". */
  function ProvidedDate(o: Object): Result<string>
  {
    if "date_modified" in o then GetString(o, "date_modified")
    else if "date_published" in o then GetString(o, "date_published")
    else Ok("")
  }

  /** The stored date: the normalised form of the provided date, "" when there is none or it does not parse. */
  function PublishedDate(provided: string, normalizeDate: string -> Option<string>): (r: string)
    ensures provided == "" || normalizeDate(provided).None? ==> r == ""
    ensures provided != "" && normalizeDate(provided).Some? ==> r == normalizeDate(provided).value
  {
    if provided != "" && normalizeDate(provided).Some? then normalizeDate(provided).value else ""
  }

  /** `getElement<std::string>` over the tags array. */
  function Tags(tags: seq<Json>): (r: Result<seq<string>>)
    ensures r.Ok? ==> |r.value| == |tags| && forall k :: 0 <= k < |tags| ==> tags[k] == JString(r.value[k])
  {
    if tags == [] then Ok([])
    else
      var init :- Tags(tags[..|tags| - 1]);
      var last := tags[|tags| - 1];
      if last.JString? then
        assert forall k :: 0 <= k < |tags| - 1 ==> tags[k] == tags[..|tags| - 1][k];
        Ok(init + [last.s])
      else Err(MissingValue + "tag")
  }

  function Categories(o: Object): Result<seq<string>>
  {
    if "tags" in o then
      match GetArray(o, "tags")
      case None => Err(NullPointer)
      case Some(t) => Tags(t)
    else Ok([])
  }

  /** The content: content_html as is, else content_text converted (a missing content_text throws). */
  function Content(o: Object): (r: Result<string>)
    ensures "content_html" in o ==> r == GetString(o, "content_html")
    ensures "content_html" !in o && GetString(o, "content_text").Ok? ==> r == Ok(TextContent(o["content_text"].s))
    ensures "content_html" !in o && "content_text" !in o ==> r.Err?
  {
    if "content_html" in o then GetString(o, "content_html")
    else
      var text :- GetString(o, "content_text");
      Ok(TextContent(text))
  }

  /** One element of the items array: skipped (`None`) without an id, otherwise its item. */
  function ItemOf(element: Json, topLevelAuthors: string, normalizeDate: string -> Option<string>): (r: Result<Option<Item>>)
    ensures element.JObject? && "id" !in element.fields ==> r == Ok(None)
    ensures r.Ok? && r.value.Some? ==> element.JObject? && "id" in element.fields && element.fields["id"] == JString(r.value.value.guid)
    ensures !element.JObject? ==> r.Err?
  {
    if !element.JObject? then Err(NullPointer)
    else
      var o := element.fields;
      if "id" !in o then Ok(None)
      else
        var guid :- GetString(o, "id");
        var link :- OptionalString(o, "url");
        var title :- OptionalString(o, "title");
        var content :- Content(o);
        var thumbnail :- OptionalString(o, "image");
        var provided :- ProvidedDate(o);
        var author :- ItemAuthor(o, topLevelAuthors);
        var categories :- Categories(o);
        Ok(Some(Item(title, link, content, author, "", guid, PublishedDate(provided, normalizeDate), thumbnail, [], categories)))
  }

  /** The items of the elements, in order. */
  function ItemsFrom(elements: seq<Json>, topLevelAuthors: string, normalizeDate: string -> Option<string>): Result<seq<Item>>
  {
    if elements == [] then Ok([])
    else
      var init :- ItemsFrom(elements[..|elements| - 1], topLevelAuthors, normalizeDate);
      var last :- ItemOf(elements[|elements| - 1], topLevelAuthors, normalizeDate);
      Ok(init + if last.Some? then [last.value] else [])
  }

  /** `items`: the feed's authors, then every item of the items array. */
  function Items(root: Object, normalizeDate: string -> Option<string>): Result<seq<Item>>
  {
    var topLevelAuthors :- TopLevelAuthors(root);
    match GetArray(root, "items")
    case None => Err(NullPointer)
    case Some(elements) => ItemsFrom(elements, topLevelAuthors, normalizeDate)
  }

  /** `items()`: the loop over the items array, appending one item per element with an id. */
  method ReadItems(root: Object, normalizeDate: string -> Option<string>) returns (r: Result<seq<Item>>)
    ensures r == Items(root, normalizeDate)
  {
    var topLevelAuthors := TopLevelAuthors(root);
    if topLevelAuthors.Err? {
      return Err(topLevelAuthors.error);
    }
    var itemList := GetArray(root, "items");
    if itemList.None? {
      return Err(NullPointer);
    }
    var elements := itemList.value;
    var items: seq<Item> := [];
    for i := 0 to |elements|
      invariant ItemsFrom(elements[..i], topLevelAuthors.value, normalizeDate) == Ok(items)
    {
      assert elements[..i + 1][..i] == elements[..i];
      var item := ItemOf(elements[i], topLevelAuthors.value, normalizeDate);
      if item.Err? {
        ItemsFromErrSticks(elements, topLevelAuthors.value, normalizeDate, i + 1);
        return Err(item.error);
      }
      var prefix := elements[..i + 1];
      assert prefix[..|prefix| - 1] == elements[..i] && prefix[|prefix| - 1] == elements[i];
      ItemsFromSnoc(prefix, topLevelAuthors.value, normalizeDate);
      items := items + if item.value.Some? then [item.value.value] else [];
      assert ItemsFrom(elements[..i + 1], topLevelAuthors.value, normalizeDate) == Ok(items);
    }
    assert elements[..|elements|] == elements;
    return Ok(items);
  }

  /** One more element: the items so far, then that element's item if it has one. */
  lemma ItemsFromSnoc(elements: seq<Json>, topLevelAuthors: string, normalizeDate: string -> Option<string>)
    requires elements != []
    ensures var init := ItemsFrom(elements[..|elements| - 1], topLevelAuthors, normalizeDate);
      var last := ItemOf(elements[|elements| - 1], topLevelAuthors, normalizeDate);
      init.Ok? && last.Ok? ==>
        ItemsFrom(elements, topLevelAuthors, normalizeDate) == Ok(init.value + if last.value.Some? then [last.value.value] else [])
  {
  }

  lemma {:induction false} ItemsFromErrSticks(elements: seq<Json>, topLevelAuthors: string, normalizeDate: string -> Option<string>, n: nat)
    requires n <= |elements| && ItemsFrom(elements[..n], topLevelAuthors, normalizeDate).Err?
    ensures ItemsFrom(elements, topLevelAuthors, normalizeDate) == Err(ItemsFrom(elements[..n], topLevelAuthors, normalizeDate).error)
    decreases |elements| - n
  {
    if n < |elements| {
      assert elements[..n + 1][..n] == elements[..n];
      ItemsFromErrSticks(elements, topLevelAuthors, normalizeDate, n + 1);
    } else {
      assert elements[..n] == elements;
    }
  }

  // ---------------------------------------------------------------- properties

  /** The elements that become items: the objects with an id, in order. */
  function WithID(elements: seq<Json>): (r: seq<Json>)
    ensures forall k :: 0 <= k < |r| ==> r[k].JObject? && "id" in r[k].fields
  {
    if elements == [] then []
    else
      var last := elements[|elements| - 1];
      WithID(elements[..|elements| - 1]) + if last.JObject? && "id" in last.fields then [last] else []
  }

  /** Items without an id are skipped; the others are kept in order, each with its id as guid. */
  lemma {:induction false} ItemsKeepIDs(elements: seq<Json>, topLevelAuthors: string, normalizeDate: string -> Option<string>)
    requires ItemsFrom(elements, topLevelAuthors, normalizeDate).Ok?
    ensures var items := ItemsFrom(elements, topLevelAuthors, normalizeDate).value;
      && |items| == |WithID(elements)|
      && forall k :: 0 <= k < |items| ==> WithID(elements)[k].fields["id"] == JString(items[k].guid)
    decreases |elements|
  {
    if elements != [] {
      var init := elements[..|elements| - 1];
      ItemsKeepIDs(init, topLevelAuthors, normalizeDate);
      var last := ItemOf(elements[|elements| - 1], topLevelAuthors, normalizeDate);
      assert last.Ok?;
    }
  }

  /** The item's own authors array wins even when it names nobody; the feed's authors apply only when the item has neither key. */
  lemma AuthorPrecedence(o: Object, topLevelAuthors: string)
    ensures "authors" in o && o["authors"].JArray? ==> ItemAuthor(o, topLevelAuthors) == Authors(o["authors"].elements)
    ensures "authors" !in o && "author" in o && o["author"].JObject? ==> ItemAuthor(o, topLevelAuthors) == OptionalString(o["author"].fields, "name")
    ensures "authors" !in o && "author" !in o ==> ItemAuthor(o, topLevelAuthors) == Ok(topLevelAuthors)
  {
  }

  /** date_modified is preferred over date_published. */
  lemma DatePrecedence(o: Object)
    ensures "date_modified" in o ==> ProvidedDate(o) == GetString(o, "date_modified")
    ensures "date_modified" !in o && "date_published" in o ==> ProvidedDate(o) == GetString(o, "date_published")
  {
  }
}
