/**
 * Scripts (`base/Script.cpp`): the event and feed-id strings a script's
 * settings are stored and transferred as, `toJSON`, and the JSON decoder of
 * `remote/ScriptRemote.cpp`.
 */
module Scripts {
  import opened Wrappers
  import opened Strings
  import opened Json
  import Helpers

  const NewPostIdentifier: string := "newpost"
  const UpdatePostIdentifier: string := "updatepost"
  const LuaIdentifier: string := "lua"

  datatype Event = NewPost | UpdatePost

  const AllEvents: set<Event> := {NewPost, UpdatePost}

  datatype ScriptType = Lua

  /** A script: `runOnFeedIDs == None` means "every feed". */
  datatype Script = Script(
    id: UInt64,
    scriptType: ScriptType,
    title: string,
    isEnabled: bool,
    runOnEvents: set<Event>,
    runOnFeedIDs: Option<set<UInt64>>,
    script: string)

  function EventIdentifier(e: Event): (r: string)
    ensures r != [] && ',' !in r && !IsSpace(r[0]) && !IsSpace(r[|r| - 1])
  {
    match e
    case NewPost => NewPostIdentifier
    case UpdatePost => UpdatePostIdentifier
  }

  /** The events whose identifier occurs among `tokens`. */
  function EventsAmong(tokens: seq<string>): (r: set<Event>)
    ensures forall e :: e in r <==> EventIdentifier(e) in tokens
  {
    (if NewPostIdentifier in tokens then {NewPost} else {})
      + (if UpdatePostIdentifier in tokens then {UpdatePost} else {})
  }

  /** The events named by a comma-separated string: its trimmed, non-empty tokens that are event identifiers. */
  function EventsNamedIn(str: string): set<Event>
  {
    EventsAmong(Tokenize(str, ','))
  }

  /** The feed ids named by a comma-separated string: its trimmed tokens that parse as 64-bit numbers. */
  function FeedIDsNamedIn(str: string): set<UInt64>
  {
    FeedIDsAmong(Tokenize(str, ','))
  }

  /** `parseRunOnEvents`: unknown tokens are silently dropped. */
  method ParseRunOnEvents(str: string) returns (events: set<Event>)
    ensures events == EventsNamedIn(str)
  {
    events := CollectEvents(Tokenize(str, ','));
  }

  /** The loop of `parseRunOnEvents` over the tokenizer's tokens. */
  method CollectEvents(tokens: seq<string>) returns (events: set<Event>)
    ensures events == EventsAmong(tokens)
  {
    events := {};
    var i := 0;
    while i < |tokens|
      invariant 0 <= i <= |tokens|
      invariant events == EventsAmong(tokens[..i])
    {
      assert tokens[..i + 1] == tokens[..i] + [tokens[i]];
      if tokens[i] == NewPostIdentifier {
        events := events + {NewPost};
      } else if tokens[i] == UpdatePostIdentifier {
        events := events + {UpdatePost};
      }
      i := i + 1;
    }
    assert tokens[..i] == tokens;
  }

  /** The feed ids among `tokens`. */
  function FeedIDsAmong(tokens: seq<string>): set<UInt64>
  {
    set t | t in tokens && TryParseUnsigned64(t).Some? :: TryParseUnsigned64(t).value
  }

  /** `parseRunOnFeedIDs`: tokens that are not unsigned 64-bit numbers are silently dropped. */
  method ParseRunOnFeedIDs(str: string) returns (feedIDs: set<UInt64>)
    ensures feedIDs == FeedIDsNamedIn(str)
  {
    feedIDs := CollectFeedIDs(Tokenize(str, ','));
  }

  /** The loop of `parseRunOnFeedIDs` over the tokenizer's tokens. */
  method CollectFeedIDs(tokens: seq<string>) returns (feedIDs: set<UInt64>)
    ensures feedIDs == FeedIDsAmong(tokens)
  {
    feedIDs := {};
    var i := 0;
    while i < |tokens|
      invariant 0 <= i <= |tokens|
      invariant feedIDs == FeedIDsAmong(tokens[..i])
    {
      assert tokens[..i + 1] == tokens[..i] + [tokens[i]];
      var parsed := TryParseUnsigned64(tokens[i]);
      if parsed.Some? {
        feedIDs := feedIDs + {parsed.value};
      }
      i := i + 1;
    }
    assert tokens[..i] == tokens;
  }

  /** The identifiers of a sequence of events. */
  function Identifiers(events: seq<Event>): (r: seq<string>)
    ensures |r| == |events|
    ensures forall k :: 0 <= k < |events| ==> r[k] == EventIdentifier(events[k])
  {
    if events == [] then [] else [EventIdentifier(events[0])] + Identifiers(events[1..])
  }

  lemma {:induction false} IdentifiersMention(events: seq<Event>, e: Event)
    ensures EventIdentifier(e) in Identifiers(events) <==> e in events
  {
    if events != [] {
      var head, tail := events[0], events[1..];
      IdentifiersMention(tail, e);
      assert Identifiers(events) == [EventIdentifier(head)] + Identifiers(tail);
      assert events == [head] + tail;
      EventIdentifierInjective(e, head);
    }
  }

  lemma EventIdentifierInjective(a: Event, b: Event)
    ensures EventIdentifier(a) == EventIdentifier(b) <==> a == b
  {
    assert |EventIdentifier(NewPost)| != |EventIdentifier(UpdatePost)|;
  }

  lemma EventsNamedInJoin(events: seq<Event>)
    ensures EventsNamedIn(Helpers.Join(Identifiers(events), ",")) == set e | e in events
  {
    var names := Identifiers(events);
    forall k | 0 <= k < |names| ensures names[k] != [] && ',' !in names[k] && Trim(names[k]) == names[k] {
      TrimUnpadded(names[k]);
    }
    Helpers.TokenizeJoin(names, ',');
    forall e ensures e in EventsAmong(names) <==> e in events {
      IdentifiersMention(events, e);
    }
  }

  /**
   * `runOnEventsString`: the identifiers of the set's events joined by ",",
   * in the set's (unspecified) iteration order. Whatever that order, parsing
   * the string gives the set back.
   */
  method RunOnEventsString(runOnEvents: set<Event>) returns (r: string)
    ensures EventsNamedIn(r) == runOnEvents
  {
    var order: seq<Event> := [];
    var rest := runOnEvents;
    while rest != {}
      invariant rest <= runOnEvents
      invariant (set e | e in order) == runOnEvents - rest
      decreases rest
    {
      var e :| e in rest;
      assert (set x | x in order + [e]) == (set x | x in order) + {e};
      order := order + [e];
      rest := rest - {e};
    }
    r := Helpers.JoinString(Identifiers(order), ",");
    EventsNamedInJoin(order);
  }

  /** The feed-id set as the vector the engine builds from it (in the set's iteration order). */
  method FeedIDVector(feedIDs: set<UInt64>) returns (v: seq<UInt64>)
    ensures (set x: UInt64 | x in v) == feedIDs
  {
    v := [];
    var rest := feedIDs;
    while rest != {}
      invariant rest <= feedIDs
      invariant (set y: UInt64 | y in v) == feedIDs - rest
      decreases rest
    {
      var x :| x in rest;
      assert (set y: UInt64 | y in v + [x]) == (set y: UInt64 | y in v) + {x};
      v := v + [x];
      rest := rest - {x};
    }
  }

  lemma FeedIDsNamedInJoin(ids: seq<UInt64>)
    ensures FeedIDsNamedIn(Helpers.Join(Helpers.Decimals(ids), ",")) == set x | x in ids
  {
    Helpers.TokenizeJoinedDecimals(ids);
    FeedIDsAmongDecimals(ids);
  }

  /** The ids parsed from the decimal renderings of `ids` are the elements of `ids`. */
  lemma FeedIDsAmongDecimals(ids: seq<UInt64>)
    ensures FeedIDsAmong(Helpers.Decimals(ids)) == set x | x in ids
  {
    var ds := Helpers.Decimals(ids);
    forall x | x in ids ensures x in FeedIDsAmong(ds) {
      var k :| 0 <= k < |ids| && ids[k] == x;
      ParseNatToString(x);
      assert ds[k] in ds;
    }
    forall y | y in FeedIDsAmong(ds) ensures y in ids {
      var t :| t in ds && TryParseUnsigned64(t).Some? && TryParseUnsigned64(t).value == y;
      var k :| 0 <= k < |ds| && ds[k] == t;
      ParseNatToString(ids[k]);
    }
  }

  /** `runOnFeedIDsString`: "" for "every feed", otherwise the ids joined by ",". */
  method RunOnFeedIDsString(runOnFeedIDs: Option<set<UInt64>>) returns (r: string)
    ensures runOnFeedIDs.None? ==> r == ""
    ensures runOnFeedIDs.Some? ==> FeedIDsNamedIn(r) == runOnFeedIDs.value
  {
    if runOnFeedIDs.None? {
      return "";
    }
    var v := FeedIDVector(runOnFeedIDs.value);
    r := Helpers.JoinIDNumbers(v, ",");
    FeedIDsNamedInJoin(v);
  }

  // ---------------------------------------------------------------- JSON

  const KeyID: string := "id"
  const KeyType: string := "type"
  const KeyTitle: string := "title"
  const KeyIsEnabled: string := "isEnabled"
  const KeyRunOnEvents: string := "runOnEvents"
  const KeyRunOnFeedIDs: string := "runOnFeedIDs"
  const KeyScript: string := "script"

  /**
   * `ScriptRemote::fromJSON`: reads id, type, title, isEnabled, script and
   * runOnEvents, in that order, failing at the first missing value; a type
   * other than "lua" fails with "Unknown script type". The feed set is
   * present exactly when the runOnFeedIDs key is, even when it names no feed.
   */
  function FromJSON(o: Object): (r: Result<Script>)
    ensures r.Ok? ==> GetUInt64(o, KeyID) == Ok(r.value.id)
    ensures r.Ok? ==> GetString(o, KeyType) == Ok(LuaIdentifier)
    ensures GetUInt64(o, KeyID).Ok? && GetString(o, KeyType).Ok? && GetString(o, KeyType).value != LuaIdentifier
      ==> r == Err("Unknown script type")
    ensures r.Ok? ==> GetString(o, KeyTitle) == Ok(r.value.title)
    ensures r.Ok? ==> GetBool(o, KeyIsEnabled) == Ok(r.value.isEnabled)
    ensures r.Ok? ==> GetString(o, KeyScript) == Ok(r.value.script)
    ensures r.Ok? ==> (GetString(o, KeyRunOnEvents).Ok?
      && r.value.runOnEvents == EventsNamedIn(GetString(o, KeyRunOnEvents).value))
    ensures r.Ok? ==> (r.value.runOnFeedIDs.Some? <==> KeyRunOnFeedIDs in o)
    ensures r.Ok? && KeyRunOnFeedIDs in o ==> (GetString(o, KeyRunOnFeedIDs).Ok?
      && r.value.runOnFeedIDs == Some(FeedIDsNamedIn(GetString(o, KeyRunOnFeedIDs).value)))
  {
    var id := GetUInt64(o, KeyID);
    if id.Err? then Err(id.error) else
    var scriptType := GetString(o, KeyType);
    if scriptType.Err? then Err(scriptType.error)
    else if scriptType.value != LuaIdentifier then Err("Unknown script type") else
    var title := GetString(o, KeyTitle);
    if title.Err? then Err(title.error) else
    var isEnabled := GetBool(o, KeyIsEnabled);
    if isEnabled.Err? then Err(isEnabled.error) else
    var script := GetString(o, KeyScript);
    if script.Err? then Err(script.error) else
    var events := GetString(o, KeyRunOnEvents);
    if events.Err? then Err(events.error) else
    if KeyRunOnFeedIDs in o then
      var feedIDs := GetString(o, KeyRunOnFeedIDs);
      if feedIDs.Err? then Err(feedIDs.error)
      else Ok(Script(id.value, Lua, title.value, isEnabled.value, EventsNamedIn(events.value),
                     Some(FeedIDsNamedIn(feedIDs.value)), script.value))
    else
      Ok(Script(id.value, Lua, title.value, isEnabled.value, EventsNamedIn(events.value), None, script.value))
  }

  /**
   * `Script::toJSON`: the runOnFeedIDs key is written only when the script
   * is restricted to a feed set; decoding the object gives the script back.
   */
  method ToJSON(s: Script) returns (o: Object)
    ensures o.Keys == {KeyID, KeyType, KeyTitle, KeyIsEnabled, KeyRunOnEvents, KeyScript}
      + (if s.runOnFeedIDs.Some? then {KeyRunOnFeedIDs} else {})
    ensures FromJSON(o) == Ok(s)
  {
    o := map[];
    o := o[KeyID := JInt(s.id)];
    match s.scriptType {
      case Lua => o := o[KeyType := JString(LuaIdentifier)];
    }
    o := o[KeyTitle := JString(s.title)];
    o := o[KeyIsEnabled := JBool(s.isEnabled)];
    var events := RunOnEventsString(s.runOnEvents);
    o := o[KeyRunOnEvents := JString(events)];
    var feedIDs := "";
    if s.runOnFeedIDs.Some? {
      feedIDs := RunOnFeedIDsString(s.runOnFeedIDs);
      o := o[KeyRunOnFeedIDs := JString(feedIDs)];
    }
    o := o[KeyScript := JString(s.script)];
    EncodedScript(s, events, feedIDs, o);
  }

  /** The fields `toJSON` writes for every script, in its order. */
  function CommonFields(s: Script, events: string): (o: Object)
    ensures o.Keys == {KeyID, KeyType, KeyTitle, KeyIsEnabled, KeyRunOnEvents}
  {
    map[KeyID := JInt(s.id), KeyType := JString(LuaIdentifier), KeyTitle := JString(s.title),
        KeyIsEnabled := JBool(s.isEnabled), KeyRunOnEvents := JString(events)]
  }

  /** The object `toJSON` builds has the expected keys and decodes back to the script. */
  lemma EncodedScript(s: Script, events: string, feedIDs: string, o: Object)
    requires EventsNamedIn(events) == s.runOnEvents
    requires s.runOnFeedIDs.Some? ==> FeedIDsNamedIn(feedIDs) == s.runOnFeedIDs.value
    requires o == (if s.runOnFeedIDs.Some? then CommonFields(s, events)[KeyRunOnFeedIDs := JString(feedIDs)]
                   else CommonFields(s, events))[KeyScript := JString(s.script)]
    ensures o.Keys == {KeyID, KeyType, KeyTitle, KeyIsEnabled, KeyRunOnEvents, KeyScript}
      + (if s.runOnFeedIDs.Some? then {KeyRunOnFeedIDs} else {})
    ensures FromJSON(o) == Ok(s)
  {
    KeysPairwiseDistinct();
    var common := CommonFields(s, events);
    assert common[KeyRunOnEvents] == JString(events);
    if s.runOnFeedIDs.Some? {
      var withFeedIDs := common[KeyRunOnFeedIDs := JString(feedIDs)];
      assert withFeedIDs[KeyRunOnEvents] == JString(events);
      assert o[KeyRunOnFeedIDs] == JString(feedIDs);
      assert o[KeyRunOnEvents] == JString(events);
      DecodeEncodedFields(o, s);
    } else {
      assert o[KeyRunOnEvents] == JString(events);
      DecodeEncodedFields(o, s);
    }
  }

  /** An object holding the fields of `s` under their keys decodes to `s`. */
  lemma DecodeEncodedFields(o: Object, s: Script)
    requires KeyID in o && o[KeyID] == JInt(s.id)
    requires KeyType in o && o[KeyType] == JString(LuaIdentifier)
    requires KeyTitle in o && o[KeyTitle] == JString(s.title)
    requires KeyIsEnabled in o && o[KeyIsEnabled] == JBool(s.isEnabled)
    requires KeyScript in o && o[KeyScript] == JString(s.script)
    requires KeyRunOnEvents in o && o[KeyRunOnEvents].JString? && EventsNamedIn(o[KeyRunOnEvents].s) == s.runOnEvents
    requires s.runOnFeedIDs.None? <==> KeyRunOnFeedIDs !in o
    requires s.runOnFeedIDs.Some? ==>
      o[KeyRunOnFeedIDs].JString? && FeedIDsNamedIn(o[KeyRunOnFeedIDs].s) == s.runOnFeedIDs.value
    ensures FromJSON(o) == Ok(s)
  {
    FromJSONOfReads(o);
    assert s == Script(s.id, Lua, s.title, s.isEnabled, s.runOnEvents, s.runOnFeedIDs, s.script);
  }

  /** When every read succeeds and the type is "lua", the decoded script holds what was read. */
  lemma FromJSONOfReads(o: Object)
    requires GetUInt64(o, KeyID).Ok? && GetString(o, KeyType) == Ok(LuaIdentifier)
    requires GetString(o, KeyTitle).Ok? && GetBool(o, KeyIsEnabled).Ok? && GetString(o, KeyScript).Ok?
    requires GetString(o, KeyRunOnEvents).Ok?
    requires KeyRunOnFeedIDs in o ==> GetString(o, KeyRunOnFeedIDs).Ok?
    ensures FromJSON(o) == Ok(Script(GetUInt64(o, KeyID).value, Lua, GetString(o, KeyTitle).value,
      GetBool(o, KeyIsEnabled).value, EventsNamedIn(GetString(o, KeyRunOnEvents).value),
      if KeyRunOnFeedIDs in o then Some(FeedIDsNamedIn(GetString(o, KeyRunOnFeedIDs).value)) else None,
      GetString(o, KeyScript).value))
  {
  }

  /** The JSON keys of a script are pairwise distinct. */
  lemma KeysPairwiseDistinct()
    ensures KeyID != KeyType && KeyID != KeyTitle && KeyID != KeyIsEnabled && KeyID != KeyRunOnEvents
    ensures KeyID != KeyRunOnFeedIDs && KeyID != KeyScript
    ensures KeyType != KeyTitle && KeyType != KeyIsEnabled && KeyType != KeyRunOnEvents
    ensures KeyType != KeyRunOnFeedIDs && KeyType != KeyScript
    ensures KeyTitle != KeyIsEnabled && KeyTitle != KeyRunOnEvents && KeyTitle != KeyRunOnFeedIDs
    ensures KeyTitle != KeyScript
    ensures KeyIsEnabled != KeyRunOnEvents && KeyIsEnabled != KeyRunOnFeedIDs && KeyIsEnabled != KeyScript
    ensures KeyRunOnEvents != KeyRunOnFeedIDs && KeyRunOnEvents != KeyScript
    ensures KeyRunOnFeedIDs != KeyScript
  {
    KeysDistinct();
  }

  /** The JSON keys of a script differ in length, so they are pairwise distinct. */
  lemma KeysDistinct()
    ensures |KeyID| == 2 && |KeyType| == 4 && |KeyTitle| == 5 && |KeyScript| == 6
    ensures |KeyIsEnabled| == 9 && |KeyRunOnEvents| == 11 && |KeyRunOnFeedIDs| == 12
  {
  }
}
