/**
 * `FeedDiscovery.cpp`: finding the feeds a URL offers. The page is tried
 * as a YouTube channel, then as a feed itself, then as HTML whose
 * `<link rel="alternate">` elements announce feeds. The regular
 * expressions, the SAX and JSON parsers and URI resolution are not
 * modelled: a discovery receives what each of them makes of the page.
 */
module FeedDiscovery {
  import opened Wrappers
  import opened Strings
  import opened Json
  import opened Xml
  import opened FeedFetcher

  /** `Feed::Type`. */
  datatype FeedType = RSS | Atom | JSON

  /** `DiscoveredFeed`. */
  datatype DiscoveredFeed = DiscoveredFeed(title: string, url: string, feedType: FeedType)

  /**
   * What the regular expressions of `interpretAsYoutubeSource` find in the
   * page: the channel id of a canonical link of the form
   * `https://…youtube.com/channel/<id>`, and the text of the `<title>` tag.
   */
  datatype YoutubeMatch = YoutubeMatch(channelID: Option<string>, title: Option<string>)

  /**
   * What the foreign engines make of the page: the YouTube matches, the
   * JSON parse of the data, the SAX parse of the data, and the SAX parse of
   * the `<links>` document built from the page's `<link …>` tags.
   */
  datatype Readings = Readings(youtube: YoutubeMatch, json: Result<Json>, page: SaxRun, links: SaxRun)

  const YoutubeFeedPrefix: string := "https://www.youtube.com/feeds/videos.xml?channel_id="

  // ---------------------------------------------------------------- interpretAsYoutubeSource

  /** A page of a `…youtube.com` host with a channel canonical link announces the channel's Atom feed, titled by the page. */
  function YoutubeFeed(host: string, m: YoutubeMatch): (r: Option<DiscoveredFeed>)
    ensures r.Some? <==> EndsWith(host, "youtube.com") && m.channelID.Some?
    ensures r.Some? ==> r.value.url == YoutubeFeedPrefix + m.channelID.value && r.value.feedType == Atom
    ensures r.Some? ==> r.value.title == if m.title.Some? then m.title.value else m.channelID.value
  {
    if EndsWith(host, "youtube.com") && m.channelID.Some? then
      var id := m.channelID.value;
      Some(DiscoveredFeed(if m.title.Some? then m.title.value else id, YoutubeFeedPrefix + id, Atom))
    else None
  }

  // ---------------------------------------------------------------- interpretAsDirectFeedLink

  /** `DocumentElementExtractorSaxParser`: the local name of the first element started, or "" if none. */
  function DocumentElementTitle(events: seq<SaxEvent>): (r: string)
    ensures forall k :: 0 <= k < |events| && events[k].StartElement? && (forall j :: 0 <= j < k ==> !events[j].StartElement?) ==>
      r == events[k].localName
    ensures (forall k :: 0 <= k < |events| ==> !events[k].StartElement?) ==> r == ""
  {
    if events == [] then ""
    else if events[0].StartElement? then events[0].localName
    else
      var r := DocumentElementTitle(events[1..]);
      assert forall k :: 0 < k < |events| ==> events[k] == events[1..][k - 1];
      r
  }

  /** The direct reading of a whole, well-formed XML page by its root element; anything else announces nothing. */
  function XmlFeed(uri: string, page: SaxRun): (r: Option<DiscoveredFeed>)
    ensures r.Some? ==> page.completed && r.value.url == uri
    ensures r == Some(DiscoveredFeed("RSS Feed", uri, RSS)) <==>
              page.completed && (IEqualsLowerCase(DocumentElementTitle(page.events), "rss") || IEqualsLowerCase(DocumentElementTitle(page.events), "rdf"))
    ensures r == Some(DiscoveredFeed("Atom Feed", uri, Atom)) <==>
              page.completed && IEqualsLowerCase(DocumentElementTitle(page.events), "feed")
  {
    if !page.completed then None
    else
      var root := DocumentElementTitle(page.events);
      if IEqualsLowerCase(root, "rss") || IEqualsLowerCase(root, "rdf") then Some(DiscoveredFeed("RSS Feed", uri, RSS))
      else if IEqualsLowerCase(root, "feed") then Some(DiscoveredFeed("Atom Feed", uri, Atom))
      else None
  }

  /**
   * A JSON page of either JSON Feed version is its own feed, titled by its
   * `title` (or "JSON feed"). The JSON parsing is outside any `try`, so
   * its exceptions, and those of reading `version` and `title`, propagate.
   */
  function JsonFeed(uri: string, json: Result<Json>): (r: Result<Option<DiscoveredFeed>>)
    ensures r.Ok? && r.value.Some? ==> r.value.value.url == uri && r.value.value.feedType == JSON
    ensures r.Ok? && r.value.Some? <==>
              && json.Ok? && json.value.JObject? && GetString(json.value.fields, "version").Ok?
              && IsJsonFeedVersion(GetString(json.value.fields, "version").value)
              && ("title" in json.value.fields ==> json.value.fields["title"].JString?)
    ensures r.Ok? && r.value.Some? ==>
              r.value.value.title == if "title" in json.value.fields then json.value.fields["title"].s else "JSON feed"
  {
    match json
    case Err(e) => Err(e)
    case Ok(root) =>
      if !root.JObject? then Err(NotAnObject)
      else
        match GetString(root.fields, "version")
        case Err(e) => Err(e)
        case Ok(version) =>
          if !IsJsonFeedVersion(version) then Ok(None)
          else if "title" in root.fields then
            match GetString(root.fields, "title")
            case Err(e) => Err(e)
            case Ok(title) => Ok(Some(DiscoveredFeed(title, uri, JSON)))
          else Ok(Some(DiscoveredFeed("JSON feed", uri, JSON)))
  }

  /** `interpretAsDirectFeedLink`, by the first character of the (non-empty) data. */
  function DirectFeed(data: string, uri: string, readings: Readings): Result<Option<DiscoveredFeed>>
    requires data != []
  {
    if data[0] == '<' then Ok(XmlFeed(uri, readings.page))
    else if data[0] == '{' then JsonFeed(uri, readings.json)
    else Ok(None)
  }

  // ---------------------------------------------------------------- interpretAsHTMLWithRelAlternateLinks

  /** The feed type a `<link>` announces by its `type`, ignoring case; other types announce nothing. */
  function TypeFor(t: string): (r: Option<FeedType>)
    ensures r == Some(RSS) <==> IEqualsLowerCase(t, "application/rss+xml")
    ensures r == Some(Atom) <==> IEqualsLowerCase(t, "application/atom+xml")
    ensures r == Some(JSON) <==> IEqualsLowerCase(t, "application/json") || IEqualsLowerCase(t, "application/feed+json")
  {
    if IEqualsLowerCase(t, "application/rss+xml") then Some(RSS)
    else if IEqualsLowerCase(t, "application/atom+xml") then Some(Atom)
    else if IEqualsLowerCase(t, "application/json") || IEqualsLowerCase(t, "application/feed+json") then Some(JSON)
    else None
  }

  /**
   * `HTMLRelAlternateFeedExtractorSaxParser::startElement`: a `link` with
   * `rel`, `href` and `type`, whose rel is "alternate" ignoring case and
   * whose type is a feed type, announces the feed at its href, titled by
   * its `title` attribute or "".
   */
  function LinkFeed(localName: string, attributes: map<string, string>): (r: Option<DiscoveredFeed>)
    ensures r.Some? <==>
              && localName == "link" && "rel" in attributes && "href" in attributes && "type" in attributes
              && IEqualsLowerCase(attributes["rel"], "alternate") && TypeFor(attributes["type"]).Some?
    ensures r.Some? ==> r.value.url == attributes["href"] && r.value.feedType == TypeFor(attributes["type"]).value
    ensures r.Some? ==> r.value.title == if "title" in attributes then attributes["title"] else ""
  {
    if localName == "link" && "rel" in attributes && "href" in attributes && "type" in attributes
       && IEqualsLowerCase(attributes["rel"], "alternate") && TypeFor(attributes["type"]).Some?
    then Some(DiscoveredFeed(if "title" in attributes then attributes["title"] else "", attributes["href"], TypeFor(attributes["type"]).value))
    else None
  }

  /** What the handler appends over a run of callbacks, in order. */
  function LinkFeeds(events: seq<SaxEvent>): seq<DiscoveredFeed>
  {
    if events == [] then []
    else
      var last := events[|events| - 1];
      LinkFeeds(events[..|events| - 1])
      + if last.StartElement? && LinkFeed(last.localName, last.attributes).Some? then [LinkFeed(last.localName, last.attributes).value] else []
  }

  /** One more callback adds its feed, if it announces one. */
  lemma LinkFeedsStep(events: seq<SaxEvent>, i: nat)
    requires i < |events|
    ensures LinkFeeds(events[..i + 1]) == LinkFeeds(events[..i])
      + if events[i].StartElement? && LinkFeed(events[i].localName, events[i].attributes).Some?
        then [LinkFeed(events[i].localName, events[i].attributes).value] else []
  {
    assert events[..i + 1][..i] == events[..i];
    assert events[..i + 1][i] == events[i];
  }

  /** A callback run split in two yields the feeds of each part, in order. */
  lemma {:induction false} LinkFeedsConcat(a: seq<SaxEvent>, b: seq<SaxEvent>)
    ensures LinkFeeds(a + b) == LinkFeeds(a) + LinkFeeds(b)
    decreases |b|
  {
    if b == [] {
      assert a + b == a;
    } else {
      var b' := b[..|b| - 1];
      assert (a + b)[..|a + b| - 1] == a + b';
      assert (a + b)[|a + b| - 1] == b[|b| - 1];
      LinkFeedsConcat(a, b');
    }
  }

  /** Each feed found comes from a `link` callback that announces exactly it. */
  lemma {:induction false} LinkFeedsSound(events: seq<SaxEvent>, f: DiscoveredFeed)
    requires f in LinkFeeds(events)
    ensures exists k :: 0 <= k < |events| && events[k].StartElement? && LinkFeed(events[k].localName, events[k].attributes) == Some(f)
    decreases |events|
  {
    var last := events[|events| - 1];
    var init := events[..|events| - 1];
    if f in LinkFeeds(init) {
      LinkFeedsSound(init, f);
      var k :| 0 <= k < |init| && init[k].StartElement? && LinkFeed(init[k].localName, init[k].attributes) == Some(f);
      assert events[k] == init[k];
    } else {
      assert events[|events| - 1] == last;
    }
  }

  /** Each announcing `link` callback contributes its feed. */
  lemma {:induction false} LinkFeedsComplete(events: seq<SaxEvent>, k: nat)
    requires k < |events| && events[k].StartElement? && LinkFeed(events[k].localName, events[k].attributes).Some?
    ensures LinkFeed(events[k].localName, events[k].attributes).value in LinkFeeds(events)
  {
    assert events == events[..k + 1] + events[k + 1..];
    LinkFeedsConcat(events[..k + 1], events[k + 1..]);
    assert events[..k + 1][..k] == events[..k];
    assert events[..k + 1][k] == events[k];
  }

  // ---------------------------------------------------------------- postProcessFeeds

  /** The URL a discovered feed keeps: one starting with "http" as is, any other resolved against the page. */
  function Absolute(url: string, resolve: string -> string): string
  {
    if StartsWith(url, "http") then url else resolve(url)
  }

  function PostProcessed(feeds: seq<DiscoveredFeed>, resolve: string -> string): (r: seq<DiscoveredFeed>)
    ensures |r| == |feeds|
    ensures forall k :: 0 <= k < |r| ==> r[k] == feeds[k].(url := Absolute(feeds[k].url, resolve))
  {
    seq(|feeds|, k requires 0 <= k < |feeds| => feeds[k].(url := Absolute(feeds[k].url, resolve)))
  }

  /** Post-processing keeps titles, types and order, and every URL already starting with "http". */
  lemma PostProcessedKeeps(feeds: seq<DiscoveredFeed>, resolve: string -> string, k: nat)
    requires k < |feeds|
    ensures PostProcessed(feeds, resolve)[k].title == feeds[k].title
    ensures PostProcessed(feeds, resolve)[k].feedType == feeds[k].feedType
    ensures StartsWith(feeds[k].url, "http") ==> PostProcessed(feeds, resolve)[k] == feeds[k]
  {
  }

  // ---------------------------------------------------------------- discover

  /** The result of `discover`: the feeds it leaves in `discoveredFeeds`, or the exception that escapes it. */
  datatype Outcome = Outcome(feeds: seq<DiscoveredFeed>, error: Option<string>)

  datatype Alternates = Alternates(feeds: seq<DiscoveredFeed>, success: bool)

  /**
   * The reference reading of `interpretAsHTMLWithRelAlternateLinks`: the
   * feeds of the page's own parse, and whether it counts as a success;
   * when the page yields none and fails to parse, the `<links>` document
   * is read instead.
   */
  function AlternateLinks(readings: Readings): Alternates
  {
    var first := LinkFeeds(readings.page.events);
    if first != [] || readings.page.completed then Alternates(first, true)
    else Alternates(first + LinkFeeds(readings.links.events), readings.links.completed)
  }

  /** `discover`: the first interpretation that succeeds ends it; only alternate links are post-processed. */
  function Discovered(host: string, uri: string, data: string, readings: Readings, resolve: string -> string): Outcome
  {
    if data == [] then Outcome([], None)
    else if YoutubeFeed(host, readings.youtube).Some? then Outcome([YoutubeFeed(host, readings.youtube).value], None)
    else
      match DirectFeed(data, uri, readings)
      case Err(e) => Outcome([], Some(e))
      case Ok(Some(f)) => Outcome([f], None)
      case Ok(None) =>
        var links := AlternateLinks(readings);
        if links.success then Outcome(PostProcessed(links.feeds, resolve), None) else Outcome(links.feeds, None)
  }

  class FeedDiscovery {
    /** `mURI.toString()` and `mURI.getHost()`. */
    var uri: string
    var host: string
    var data: string
    var discoveredFeeds: seq<DiscoveredFeed>

    /** `FeedDiscovery(url, data)`: the page is given; the other constructor downloads it. */
    constructor (uri: string, host: string, data: string)
      ensures this.uri == uri && this.host == host && this.data == data && discoveredFeeds == []
    {
      this.uri := uri;
      this.host := host;
      this.data := data;
      discoveredFeeds := [];
    }

    method Discover(readings: Readings, resolve: string -> string) returns (error: Option<string>)
      modifies this`discoveredFeeds
      ensures Outcome(discoveredFeeds, error) == Discovered(host, uri, data, readings, resolve)
    {
      discoveredFeeds := [];
      error := None;
      if data == [] {
        return;
      }
      var found := InterpretAsYoutubeSource(readings.youtube);
      if found {
        assert discoveredFeeds == [YoutubeFeed(host, readings.youtube).value];
        return;
      }
      var direct := InterpretAsDirectFeedLink(readings);
      if direct.Err? {
        error := Some(direct.error);
        return;
      }
      if direct.value {
        assert discoveredFeeds == [DirectFeed(data, uri, readings).value.value];
        return;
      }
      assert DirectFeed(data, uri, readings) == Ok(None);
      found := InterpretAsHTMLWithRelAlternateLinks(readings);
      assert discoveredFeeds == AlternateLinks(readings).feeds;
      if found {
        PostProcessFeeds(resolve);
      }
    }

    method InterpretAsYoutubeSource(m: YoutubeMatch) returns (found: bool)
      modifies this`discoveredFeeds
      ensures found == YoutubeFeed(host, m).Some?
      ensures discoveredFeeds == old(discoveredFeeds) + if found then [YoutubeFeed(host, m).value] else []
    {
      var f := YoutubeFeed(host, m);
      found := f.Some?;
      if found {
        discoveredFeeds := discoveredFeeds + [f.value];
      }
    }

    method InterpretAsDirectFeedLink(readings: Readings) returns (r: Result<bool>)
      requires data != []
      modifies this`discoveredFeeds
      ensures r.Err? <==> DirectFeed(data, uri, readings).Err?
      ensures r.Err? ==> r.error == DirectFeed(data, uri, readings).error
      ensures r.Ok? ==> r.value == DirectFeed(data, uri, readings).value.Some?
      ensures discoveredFeeds == old(discoveredFeeds) +
                if r.Ok? && r.value then [DirectFeed(data, uri, readings).value.value] else []
    {
      var f := DirectFeed(data, uri, readings);
      if f.Err? {
        return Err(f.error);
      }
      if f.value.Some? {
        discoveredFeeds := discoveredFeeds + [f.value.value];
        return Ok(true);
      }
      return Ok(false);
    }

    method InterpretAsHTMLWithRelAlternateLinks(readings: Readings) returns (success: bool)
      modifies this`discoveredFeeds
      ensures success == AlternateLinks(readings).success
      ensures discoveredFeeds == old(discoveredFeeds) + AlternateLinks(readings).feeds
    {
      ghost var before := discoveredFeeds;
      HandleLinks(readings.page.events);
      if LinkFeeds(readings.page.events) != [] || readings.page.completed {
        return true;
      }
      HandleLinks(readings.links.events);
      success := readings.links.completed;
    }

    /** The alternate-link handler's callbacks, appending through its output pointer to `discoveredFeeds`. */
    method HandleLinks(events: seq<SaxEvent>)
      modifies this`discoveredFeeds
      ensures discoveredFeeds == old(discoveredFeeds) + LinkFeeds(events)
    {
      for i := 0 to |events|
        invariant discoveredFeeds == old(discoveredFeeds) + LinkFeeds(events[..i])
      {
        LinkFeedsStep(events, i);
        var e := events[i];
        if e.StartElement? {
          var f := LinkFeed(e.localName, e.attributes);
          if f.Some? {
            discoveredFeeds := discoveredFeeds + [f.value];
          }
        }
      }
      assert events[..|events|] == events;
    }

    /** `postProcessFeeds`: rewrites the relative URLs in place. */
    method PostProcessFeeds(resolve: string -> string)
      modifies this`discoveredFeeds
      ensures discoveredFeeds == PostProcessed(old(discoveredFeeds), resolve)
    {
      ghost var start := discoveredFeeds;
      for i := 0 to |discoveredFeeds|
        invariant |discoveredFeeds| == |start|
        invariant forall k :: 0 <= k < i ==> discoveredFeeds[k] == start[k].(url := Absolute(start[k].url, resolve))
        invariant forall k :: i <= k < |start| ==> discoveredFeeds[k] == start[k]
      {
        if !StartsWith(discoveredFeeds[i].url, "http") {
          discoveredFeeds := discoveredFeeds[i := discoveredFeeds[i].(url := resolve(discoveredFeeds[i].url))];
        }
      }
    }
  }

  // ---------------------------------------------------------------- properties

  /** Empty data discovers nothing (and the previous results are gone). */
  lemma EmptyDataDiscoversNothing(host: string, uri: string, readings: Readings, resolve: string -> string)
    ensures Discovered(host, uri, "", readings, resolve) == Outcome([], None)
  {
  }

  /**
   * The order of the interpretations: a YouTube channel page yields only
   * its feed; otherwise a page that is itself a feed yields only itself;
   * only then do alternate links count, each one announced by a `link`
   * element of the page or of the rebuilt `<links>` document.
   */
  lemma DiscoveredFrom(host: string, uri: string, data: string, readings: Readings, resolve: string -> string, f: DiscoveredFeed)
    requires data != []
    ensures var o := Discovered(host, uri, data, readings, resolve);
      && (YoutubeFeed(host, readings.youtube).Some? ==> o == Outcome([YoutubeFeed(host, readings.youtube).value], None))
      && (YoutubeFeed(host, readings.youtube).None? && DirectFeed(data, uri, readings).Ok? && DirectFeed(data, uri, readings).value.Some? ==>
            o == Outcome([DirectFeed(data, uri, readings).value.value], None))
      && (YoutubeFeed(host, readings.youtube).None? && DirectFeed(data, uri, readings) == Ok(None) && f in o.feeds ==>
            exists e: SaxEvent, g: DiscoveredFeed ::
              && (e in readings.page.events || e in readings.links.events) && e.StartElement?
              && LinkFeed(e.localName, e.attributes) == Some(g) && f.title == g.title && f.feedType == g.feedType
              && (f.url == g.url || f.url == Absolute(g.url, resolve)))
  {
    var o := Discovered(host, uri, data, readings, resolve);
    if YoutubeFeed(host, readings.youtube).None? && DirectFeed(data, uri, readings) == Ok(None) && f in o.feeds {
      var feeds := AlternateLinks(readings).feeds;
      var k :| 0 <= k < |o.feeds| && o.feeds[k] == f;
      var g := feeds[k];
      assert g in feeds;
      var first := LinkFeeds(readings.page.events);
      if g in first {
        LinkFeedsSound(readings.page.events, g);
        var j :| 0 <= j < |readings.page.events| && readings.page.events[j].StartElement?
                 && LinkFeed(readings.page.events[j].localName, readings.page.events[j].attributes) == Some(g);
        assert readings.page.events[j] in readings.page.events;
      } else {
        assert g in LinkFeeds(readings.links.events);
        LinkFeedsSound(readings.links.events, g);
        var j :| 0 <= j < |readings.links.events| && readings.links.events[j].StartElement?
                 && LinkFeed(readings.links.events[j].localName, readings.links.events[j].attributes) == Some(g);
        assert readings.links.events[j] in readings.links.events;
      }
    }
  }

  /**
   * When the page itself fails to parse without announcing a feed, and the
   * rebuilt `<links>` document announces feeds but then fails too, the
   * feeds are kept as announced: relative URLs stay unresolved.
   */
  lemma FailedLinksKeepRelativeURLs(host: string, uri: string, data: string, readings: Readings, resolve: string -> string)
    requires data != [] && YoutubeFeed(host, readings.youtube).None? && DirectFeed(data, uri, readings) == Ok(None)
    requires LinkFeeds(readings.page.events) == [] && !readings.page.completed && !readings.links.completed
    ensures Discovered(host, uri, data, readings, resolve) == Outcome(LinkFeeds(readings.links.events), None)
  {
  }
}
