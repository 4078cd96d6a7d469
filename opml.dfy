/**
 * `OPMLParser.cpp`: the SAX content handler that turns the `outline`
 * elements of an OPML 2.0 document into feed entries, each carrying the
 * titles of the folder outlines it is nested in. The XML parser itself
 * is not modelled: a document is the sequence of element callbacks it
 * delivers.
 */
module OPML {
  import opened Xml

  /** `OPMLEntry`: a feed outline's text, its `xmlUrl`, and the folder titles above it, outermost first. */
  datatype Entry = Entry(title: string, url: string, folderHierarchy: seq<string>)

  /** The handler's fields: `mEntries`, `mCurrentFolderHierarchy`, `mCurrentOutlineIsFeed`. */
  datatype HandlerState = HandlerState(entries: seq<Entry>, hierarchy: seq<string>, outlineIsFeed: bool)

  /** A freshly constructed handler after `startDocument`. */
  const Initial: HandlerState := HandlerState([], [], false)

  /** An outline with `type="rss"`. */
  predicate IsFeedOutline(attributes: map<string, string>)
  {
    "type" in attributes && attributes["type"] == "rss"
  }

  /**
   * `startElement`: an outline with a text attribute is a feed when its
   * type is "rss" (recorded only when it has an `xmlUrl`) and a folder
   * otherwise, whose text is pushed; everything else is ignored.
   */
  function AfterStart(s: HandlerState, localName: string, attributes: map<string, string>): HandlerState
  {
    if localName != "outline" || "text" !in attributes then s
    else if IsFeedOutline(attributes) then
      s.(outlineIsFeed := true,
         entries := s.entries + if "xmlUrl" in attributes then [Entry(attributes["text"], attributes["xmlUrl"], s.hierarchy)] else [])
    else s.(outlineIsFeed := false, hierarchy := s.hierarchy + [attributes["text"]])
  }

  /** `endElement`: closing an outline pops a folder title unless the last outline started was a feed. */
  function AfterEnd(s: HandlerState, localName: string): HandlerState
  {
    if localName != "outline" then s
    else if !s.outlineIsFeed && |s.hierarchy| > 0 then s.(hierarchy := s.hierarchy[..|s.hierarchy| - 1])
    else s.(outlineIsFeed := false)
  }

  function Step(s: HandlerState, e: SaxEvent): HandlerState
  {
    match e
    case StartElement(name, attributes) => AfterStart(s, name, attributes)
    case EndElement(name) => AfterEnd(s, name)
  }

  /** The handler's state after the callbacks `events`, in order. */
  function Run(s: HandlerState, events: seq<SaxEvent>): HandlerState
    decreases |events|
  {
    if events == [] then s else Run(Step(s, events[0]), events[1..])
  }

  class OPMLParser {
    var entries: seq<Entry>
    var hierarchy: seq<string>
    var outlineIsFeed: bool

    function State(): HandlerState
      reads this
    {
      HandlerState(entries, hierarchy, outlineIsFeed)
    }

    constructor()
      ensures State() == Initial
    {
      entries := [];
      hierarchy := [];
      outlineIsFeed := false;
    }

    /** `startDocument`: both the entries and the folder stack are cleared. */
    method StartDocument()
      modifies this
      ensures State() == old(State()).(entries := [], hierarchy := [])
    {
      entries := [];
      hierarchy := [];
    }

    method StartElement(localName: string, attributes: map<string, string>)
      modifies this
      ensures State() == AfterStart(old(State()), localName, attributes)
    {
      if localName == "outline" {
        if "text" in attributes {
          var isRSS := false;
          var text := attributes["text"];
          if "type" in attributes {
            if attributes["type"] == "rss" {
              isRSS := true;
              outlineIsFeed := true;
              if "xmlUrl" in attributes {
                entries := entries + [Entry(text, attributes["xmlUrl"], hierarchy)];
              }
            }
          }
          if !isRSS {
            outlineIsFeed := false;
            hierarchy := hierarchy + [text];
          }
        }
      }
    }

    method EndElement(localName: string)
      modifies this
      ensures State() == AfterEnd(old(State()), localName)
    {
      if localName == "outline" {
        if !outlineIsFeed && |hierarchy| > 0 {
          hierarchy := hierarchy[..|hierarchy| - 1];
        } else {
          outlineIsFeed := false;
        }
      }
    }
  }

  /** `OPMLParser::parse`: a fresh handler receives the document's callbacks; its entries are the result. */
  method Parse(events: seq<SaxEvent>) returns (r: seq<Entry>)
    ensures r == Run(Initial, events).entries
  {
    var handler := new OPMLParser();
    handler.StartDocument();
    for i := 0 to |events|
      invariant Run(handler.State(), events[i..]) == Run(Initial, events)
    {
      assert events[i..][1..] == events[i + 1..];
      match events[i]
      case StartElement(name, attributes) => handler.StartElement(name, attributes);
      case EndElement(name) => handler.EndElement(name);
    }
    r := handler.entries;
  }

  // ---------------------------------------------------------------- properties

  /** Running two stretches of callbacks is running the first, then the second. */
  lemma {:induction false} RunConcat(s: HandlerState, a: seq<SaxEvent>, b: seq<SaxEvent>)
    ensures Run(s, a + b) == Run(Run(s, a), b)
    decreases |a|
  {
    if a == [] {
      assert a + b == b;
    } else {
      assert (a + b)[0] == a[0];
      assert (a + b)[1..] == a[1..] + b;
      RunConcat(Step(s, a[0]), a[1..], b);
    }
  }

  /** Entries are only ever appended, so they come out in document order. */
  lemma {:induction false} RunAppends(s: HandlerState, events: seq<SaxEvent>)
    ensures s.entries <= Run(s, events).entries
    decreases |events|
  {
    if events != [] {
      RunAppends(Step(s, events[0]), events[1..]);
    }
  }

  /** A feed outline with an `xmlUrl` adds one entry: its text, its url and a copy of the folder stack. */
  lemma FeedOutlineRecorded(s: HandlerState, attributes: map<string, string>)
    requires "text" in attributes && IsFeedOutline(attributes) && "xmlUrl" in attributes
    ensures var r := AfterStart(s, "outline", attributes);
      && r.entries == s.entries + [Entry(attributes["text"], attributes["xmlUrl"], s.hierarchy)]
      && r.hierarchy == s.hierarchy && r.outlineIsFeed
  {
  }

  /** A feed outline without an `xmlUrl` records nothing and leaves the folder stack alone. */
  lemma FeedOutlineWithoutUrl(s: HandlerState, attributes: map<string, string>)
    requires "text" in attributes && IsFeedOutline(attributes) && "xmlUrl" !in attributes
    ensures AfterStart(s, "outline", attributes) == s.(outlineIsFeed := true)
  {
  }

  /** An outline element: its attributes and the outlines nested in it. */
  datatype Outline = Outline(attributes: map<string, string>, children: seq<Outline>)

  /** The callbacks the XML parser delivers for an outline and everything inside it. */
  function OutlineEvents(o: Outline): seq<SaxEvent>
    decreases o
  {
    [StartElement("outline", o.attributes)] + OutlinesEvents(o.children) + [EndElement("outline")]
  }

  function OutlinesEvents(os: seq<Outline>): seq<SaxEvent>
    decreases os
  {
    if os == [] then [] else OutlineEvents(os[0]) + OutlinesEvents(os[1..])
  }

  /** As OPML 2.0 has it: every outline has a text attribute; feeds (type "rss") are leaves. */
  predicate WellFormed(o: Outline)
    decreases o
  {
    && "text" in o.attributes
    && (IsFeedOutline(o.attributes) ==> o.children == [])
    && WellFormedAll(o.children)
  }

  predicate WellFormedAll(os: seq<Outline>)
    decreases os
  {
    os != [] ==> WellFormed(os[0]) && WellFormedAll(os[1..])
  }

  /**
   * The reference reading of an outline tree nested in the folders `above`:
   * a feed with a url is one entry there; a folder contributes the entries
   * of its children, one folder deeper.
   */
  function Expected(o: Outline, above: seq<string>): seq<Entry>
    requires WellFormed(o)
    decreases o
  {
    if IsFeedOutline(o.attributes) then
      if "xmlUrl" in o.attributes then [Entry(o.attributes["text"], o.attributes["xmlUrl"], above)] else []
    else ExpectedAll(o.children, above + [o.attributes["text"]])
  }

  function ExpectedAll(os: seq<Outline>, above: seq<string>): seq<Entry>
    requires WellFormedAll(os)
    decreases os
  {
    if os == [] then [] else Expected(os[0], above) + ExpectedAll(os[1..], above)
  }

  /**
   * A well-formed outline appends exactly its reference entries, and
   * afterwards the folder stack is what it was before the outline started.
   */
  lemma {:induction false} OutlineRestores(s: HandlerState, o: Outline)
    requires WellFormed(o)
    ensures Run(s, OutlineEvents(o)) == HandlerState(s.entries + Expected(o, s.hierarchy), s.hierarchy, false)
    decreases o
  {
    var started := AfterStart(s, "outline", o.attributes);
    RunConcat(s, [StartElement("outline", o.attributes)] + OutlinesEvents(o.children), [EndElement("outline")]);
    RunConcat(s, [StartElement("outline", o.attributes)], OutlinesEvents(o.children));
    assert Run(s, [StartElement("outline", o.attributes)]) == started;
    if IsFeedOutline(o.attributes) {
      assert OutlinesEvents(o.children) == [];
      assert Run(started, OutlinesEvents(o.children)) == started;
    } else {
      OutlinesRestore(started, o.children);
      var inside := Run(started, OutlinesEvents(o.children));
      assert inside.hierarchy == s.hierarchy + [o.attributes["text"]];
      assert inside.hierarchy[..|inside.hierarchy| - 1] == s.hierarchy;
      assert Run(inside, [EndElement("outline")]) == AfterEnd(inside, "outline");
    }
  }

  lemma {:induction false} OutlinesRestore(s: HandlerState, os: seq<Outline>)
    requires WellFormedAll(os) && !s.outlineIsFeed
    ensures Run(s, OutlinesEvents(os)) == HandlerState(s.entries + ExpectedAll(os, s.hierarchy), s.hierarchy, false)
    decreases os
  {
    if os != [] {
      RunConcat(s, OutlineEvents(os[0]), OutlinesEvents(os[1..]));
      OutlineRestores(s, os[0]);
      var next := Run(s, OutlineEvents(os[0]));
      OutlinesRestore(next, os[1..]);
    }
  }

  /** The callbacks of a whole document: `<opml><body>` around the top-level outlines. */
  function DocumentEvents(os: seq<Outline>): seq<SaxEvent>
  {
    [StartElement("opml", map[]), StartElement("body", map[])] + OutlinesEvents(os) + [EndElement("body"), EndElement("opml")]
  }

  /** Parsing a well-formed document yields the reference entries, in document order, starting from the top level. */
  lemma DocumentEntries(os: seq<Outline>)
    requires WellFormedAll(os)
    ensures Run(Initial, DocumentEvents(os)).entries == ExpectedAll(os, [])
  {
    var head := [StartElement("opml", map[]), StartElement("body", map[])];
    var tail := [EndElement("body"), EndElement("opml")];
    RunConcat(Initial, head + OutlinesEvents(os), tail);
    RunConcat(Initial, head, OutlinesEvents(os));
    assert Run(Initial, head) == Initial;
    OutlinesRestore(Initial, os);
    var inside := Run(Initial, OutlinesEvents(os));
    assert Run(inside, tail) == inside;
  }

  // ---------------------------------------------------------------- an outline without text

  const FolderA: map<string, string> := map["text" := "A"]
  const FeedF: map<string, string> := map["text" := "f", "type" := "rss", "xmlUrl" := "u"]

  /**
   * An outline without text is skipped when it opens, but closing it still
   * pops the folder it sits in: a feed that follows it inside folder "A"
   * is recorded at the top level.
   */
  lemma TextlessOutlinePopsFolder()
    ensures Run(Initial, [StartElement("outline", FolderA), StartElement("outline", map[]), EndElement("outline"),
                          StartElement("outline", FeedF), EndElement("outline"), EndElement("outline")]).entries
         == [Entry("f", "u", [])]
  {
    var e0, e1, e2 := StartElement("outline", FolderA), StartElement("outline", map[]), EndElement("outline");
    var e3, e4, e5 := StartElement("outline", FeedF), EndElement("outline"), EndElement("outline");
    var s1 := HandlerState([], ["A"], false);
    var s3 := HandlerState([], [], false);
    var s4 := HandlerState([Entry("f", "u", [])], [], true);
    var s5 := HandlerState([Entry("f", "u", [])], [], false);
    TextlessOutlineSteps();
    RunCons(s5, e5, []);
    assert [e5] + [] == [e5];
    RunCons(s4, e4, [e5]);
    RunCons(s3, e3, [e4, e5]);
    assert [e3] + [e4, e5] == [e3, e4, e5];
    RunCons(s1, e2, [e3, e4, e5]);
    assert [e2] + [e3, e4, e5] == [e2, e3, e4, e5];
    RunCons(s1, e1, [e2, e3, e4, e5]);
    assert [e1] + [e2, e3, e4, e5] == [e1, e2, e3, e4, e5];
    RunCons(Initial, e0, [e1, e2, e3, e4, e5]);
    assert [e0] + [e1, e2, e3, e4, e5] == [e0, e1, e2, e3, e4, e5];
  }

  /** The single steps of the example above. */
  lemma TextlessOutlineSteps()
    ensures Step(Initial, StartElement("outline", FolderA)) == HandlerState([], ["A"], false)
    ensures Step(HandlerState([], ["A"], false), StartElement("outline", map[])) == HandlerState([], ["A"], false)
    ensures Step(HandlerState([], ["A"], false), EndElement("outline")) == HandlerState([], [], false)
    ensures Step(HandlerState([], [], false), StartElement("outline", FeedF))
         == HandlerState([Entry("f", "u", [])], [], true)
    ensures Step(HandlerState([Entry("f", "u", [])], [], true), EndElement("outline"))
         == HandlerState([Entry("f", "u", [])], [], false)
    ensures Step(HandlerState([Entry("f", "u", [])], [], false), EndElement("outline"))
         == HandlerState([Entry("f", "u", [])], [], false)
  {
    assert "text" in FeedF && FeedF["text"] == "f" && IsFeedOutline(FeedF) && FeedF["xmlUrl"] == "u";
    assert "text" in FolderA && FolderA["text"] == "A";
    assert ["A"][..0] == [];
  }

  lemma RunCons(s: HandlerState, e: SaxEvent, rest: seq<SaxEvent>)
    ensures Run(s, [e] + rest) == Run(Step(s, e), rest)
  {
    assert ([e] + rest)[1..] == rest;
  }
}
