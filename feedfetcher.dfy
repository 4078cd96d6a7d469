/**
 * `FeedFetcher::parseString`: deciding from the downloaded data which
 * feed parser reads it. The XML and JSON parsers are not modelled: the
 * call receives what each would make of the data (a document element or
 * a JSON value, or the exception it throws).
 */
module FeedFetcher {
  import opened Wrappers
  import opened Strings
  import opened Json
  import opened Xml

  /** The parser classes `parseString` can hand back. */
  datatype ParserKind = RSS20 | Atom10 | RSS10 | JSON11

  /** The message thrown for an XML document of no known feed format (spelled as in the source). */
  const UnknownFeedType: string := "Unkown feed type"

  /** The message of the exception `extract<Object::Ptr>` throws for JSON that is not an object. */
  const NotAnObject: string := "JSON root is not an object"

  const JsonFeedVersion11: string := "https://jsonfeed.org/version/1.1"
  const JsonFeedVersion1: string := "https://jsonfeed.org/version/1"

  /** `Node::nodeName`: the qualified name of an element; Poco names text nodes "#text". */
  function NodeName(n: Node): string
  {
    if n.Element? then n.name else "#text"
  }

  /** The `version` attribute of an `rss` root says 2.0. */
  predicate IsRSS20(root: Node)
  {
    Attribute(root, "version") == Some("2.0")
  }

  /** Either JSON Feed version URL, ignoring case. */
  predicate IsJsonFeedVersion(version: string)
  {
    IEqualsLowerCase(version, JsonFeedVersion11) || IEqualsLowerCase(version, JsonFeedVersion1)
  }

  /**
   * The decision chain of `parseString`: nothing for empty data or data
   * starting with neither '<' nor '{'; for XML, the parser the root element
   * names (an `rss` root only with version 2.0, any unknown root an
   * exception); for JSON, the JSON Feed parser when the version is either
   * JSON Feed version. Exceptions of the foreign parsers, and of reading a
   * missing or non-text version, propagate.
   */
  function Dispatch(data: string, xml: Result<Node>, json: Result<Json>): (r: Result<Option<ParserKind>>)
    ensures data == [] ==> r == Ok(None)
    ensures r == Ok(Some(RSS20)) <==> data != [] && data[0] == '<' && xml.Ok? && NodeName(xml.value) == "rss" && IsRSS20(xml.value)
    ensures r == Ok(Some(Atom10)) <==> data != [] && data[0] == '<' && xml.Ok? && NodeName(xml.value) == "feed"
    ensures r == Ok(Some(RSS10)) <==> data != [] && data[0] == '<' && xml.Ok? && NodeName(xml.value) == "rdf:RDF"
    ensures data != [] && data[0] == '<' && xml.Ok? ==>
              (r == Err(UnknownFeedType) <==> NodeName(xml.value) !in {"rss", "feed", "rdf:RDF"})
    ensures r == Ok(Some(JSON11)) <==>
              && data != [] && data[0] == '{' && json.Ok? && json.value.JObject?
              && GetString(json.value.fields, "version").Ok? && IsJsonFeedVersion(GetString(json.value.fields, "version").value)
    ensures data != [] && data[0] != '<' && data[0] != '{' ==> r == Ok(None)
    ensures r.Err? ==> data != [] && (data[0] == '<' || data[0] == '{')
  {
    if data == [] then Ok(None)
    else if data[0] == '<' then
      match xml
      case Err(e) => Err(e)
      case Ok(root) =>
        var name := NodeName(root);
        if name == "rss" then (if IsRSS20(root) then Ok(Some(RSS20)) else Ok(None))
        else if name == "feed" then Ok(Some(Atom10))
        else if name == "rdf:RDF" then Ok(Some(RSS10))
        else Err(UnknownFeedType)
    else if data[0] == '{' then
      match json
      case Err(e) => Err(e)
      case Ok(root) =>
        if !root.JObject? then Err(NotAnObject)
        else
          match GetString(root.fields, "version")
          case Err(e) => Err(e)
          case Ok(version) => if IsJsonFeedVersion(version) then Ok(Some(JSON11)) else Ok(None)
    else Ok(None)
  }

  /** The fetcher keeps the last data it was given (`mData`). */
  class FeedFetcher {
    var data: string

    constructor ()
      ensures data == ""
    {
      data := "";
    }

    /** `parseString`: remembers the data, then picks the parser. */
    method ParseString(data: string, xml: Result<Node>, json: Result<Json>) returns (r: Result<Option<ParserKind>>)
      modifies this
      ensures this.data == data
      ensures r == Dispatch(data, xml, json)
    {
      this.data := data;
      if data == [] {
        return Ok(None);
      }
      if data[0] == '<' {
        if xml.Err? {
          return Err(xml.error);
        }
        var name := NodeName(xml.value);
        if name == "rss" {
          if IsRSS20(xml.value) {
            return Ok(Some(RSS20));
          }
        } else if name == "feed" {
          return Ok(Some(Atom10));
        } else if name == "rdf:RDF" {
          return Ok(Some(RSS10));
        } else {
          return Err(UnknownFeedType);
        }
      } else if data[0] == '{' {
        if json.Err? {
          return Err(json.error);
        }
        if !json.value.JObject? {
          return Err(NotAnObject);
        }
        var version := GetString(json.value.fields, "version");
        if version.Err? {
          return Err(version.error);
        }
        if IsJsonFeedVersion(version.value) {
          return Ok(Some(JSON11));
        }
      }
      return Ok(None);
    }
  }

  /** The JSON Feed version check ignores case: a version selects the JSON parser exactly when its lower-case form does. */
  lemma JsonVersionIgnoresCase(version: string)
    ensures IsJsonFeedVersion(version) <==> IsJsonFeedVersion(Lower(version))
  {
    LowerTwice(version);
  }

  lemma LowerTwice(s: string)
    ensures Lower(Lower(s)) == Lower(s)
  {
    forall k | 0 <= k < |s|
      ensures Lower(Lower(s))[k] == Lower(s)[k]
    {
    }
  }

  /** The unit test's document with root `invalid-feed-tag` throws. */
  lemma UnknownRootThrows(attributes: map<string, string>, children: seq<Node>, inner: string)
    ensures Dispatch("<", Ok(Element("invalid-feed-tag", attributes, children, inner)), Err("")) == Err(UnknownFeedType)
  {
  }

  /** A JSON root of any other version yields no parser rather than an exception. */
  lemma OtherJsonVersionYieldsNone(o: Object, version: string)
    requires "version" in o && o["version"] == JString(version) && !IsJsonFeedVersion(version)
    ensures Dispatch("{", Err(""), Ok(JObject(o))) == Ok(None)
  {
  }

  /** The version attribute decides between the RSS 2.0 parser and none: any other version, or none at all, yields no parser. */
  lemma RssOtherVersionYieldsNone(attributes: map<string, string>, children: seq<Node>, inner: string)
    requires !("version" in attributes && attributes["version"] == "2.0")
    ensures Dispatch("<", Ok(Element("rss", attributes, children, inner)), Err("")) == Ok(None)
  {
  }
}
