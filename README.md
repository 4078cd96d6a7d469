# ZapFeedReader engine core in Dafny

This project models the deterministic core of ZapFeedReader, a desktop feed reader written in C++, and proves properties of the model. The modelled parts are:

- **The local store.** This is the SQLite database of the local source: the posts, feeds, folders, scripts, script folders, flags and script-folder memberships. Each table is a map from row id to row, held in the `Store.Database` class. The two tables without a key, `flags` and `scriptfolder_posts`, are multisets of rows. Each SQL statement the `*Local` classes issue is a method that changes exactly the tables it names in `modifies`.
  - `PostLocal` covers flags, read state, memberships, `update`, `create` and the three post queries: the paged listing, the single lookup and the count.
  - `FeedLocal` covers one feed's listing and read marking, the sortOrder bookkeeping of feeds (`resort`, `nextSortOrder`, `move`, `remove`) and the refresh pipeline. The pipeline selects scripts, inserts new items, updates existing ones and runs scripts on them.
  - `FolderLocal` covers the folder tree: the subtree walk, the feeds in a subtree, `markAllAsRead`, cascading `remove`, `resort`, `move` and the find-or-create walk `createFolderHierarchy`.
  - `ScriptLocal` covers the script table and its column encodings. `ScriptFolderLocal` covers script folders.
  - `SourceLocal` covers the bulk operations on (feed, post) pairs, the unread counts and the OPML import.
- **Encoders and decoders.**
  - The script event and feed-id strings (`Script.cpp`, `ScriptRemote.cpp`).
  - The JSON forms of posts, feeds and folders, with their decoders in `remote/`, and the statistics objects they share.
  - The flag colour tables and the string split and join helpers.
- **Feed formats.**
  - The OPML outline handler and the feed-type dispatch of `FeedFetcher::parseString`.
  - Feed discovery, including `<link rel="alternate">` extraction.
  - The item extraction of the JSON Feed 1.1, Atom 1.0 (RFC 4287) and RSS 1.0 parsers.
- **Small rules.** The auto-refresh due rule of `AutoRefresh::onTimer` and the page clamp of the desktop client's jump-to-page dialog.

How the model reads:

- Loops in the source are `while`/`for` loops in methods. Each such method is proved against a function of its inputs or of the old tables. The properties the source promises are lemmas about those functions.
- Exceptions are the `Err` of a `Result`.
- `uint64_t` is the subset type `UInt64`. Where the source's unsigned arithmetic can wrap (page offsets, `sortOrder + 10`), the model wraps modulo 2^64. A `uint64_t` bound into a statement reaches SQLite as a signed 64-bit integer (`Store.Signed`); this decides the page offset and limit, the `posts.id <= ?` bound of markAsRead, and every comparison of sortOrder: `ORDER BY sortOrder` ranks by the signed reading (`Store.SignedRank`) and `MAX(sortOrder)` takes the largest signed reading (`Store.SignedLargest`). Row ids are compared unsigned (see "## Left out").
- Foreign components are parameters of the operations that need them. These are the Lua interpreter, the XML and JSON parsers, date parsing and formatting, MD5, UUIDs, Base64 and URI resolution. A script run, for example, is a function from (script, post) to an optional error message.
- `ORDER BY` is modelled by the `Ordering` module. Ties between equal keys, which SQL leaves unspecified, are broken by ascending id.

Infrastructure modules carry no rows below: `Wrappers`, `Strings`, `Json`, `Xml`, `Store` and `Ordering` give the vocabulary the rest is written in.

Some of what the model states about the code is less obvious:

- `FeedLocal::create` lists the `title` column twice in its `INSERT`. The URL is bound to the first occurrence and "" to the second, so a new feed's stored title is its URL, whatever title the caller passes (`FeedLocal.CreatedFeed`).
- `Feed::toJSON` writes no icon hash, but `FeedRemote::fromJSON` reads one, so a feed's own JSON does not decode (`Feeds.EncodedFeedLacksIconHash`). The header declaring the JSON keys is not part of this model. For that reason this is recorded as a property of the model rather than as a finding.
- A script stored with an explicitly empty feed set reads back as "every feed" (`ScriptLocal.EmptyFeedSetReadsAsEveryFeed`). The remote decoder keeps such a set empty.
- `FeedLocal`'s update check compares categories by count and case-insensitive membership. A repeated category can therefore hide a change (`FeedLocal.RepeatedCategoryHidesChange`).
- `move` of a folder performs no cycle check (`FolderLocal.MoveAllowsCycle`).
- Page 0 wraps the 64-bit offset and shows the first page (`FeedLocal.PageZeroIsFirstPage`).
- In the Atom parser, the feed link is searched among all descendants, entries included (`FeedParserATOM10.EntryLinkBecomesFeedLink`).
- In the OPML handler, the end of an outline without text pops a folder unless the previous outline was a feed.

## Model

| member | source | states |
|---|---|---|
| Flag.RgbForColor | engine/src/Flag.cpp:31-38 | every colour has an entry in the RGB table, so the magenta fallback is never returned |
| Flag.IdForFlagColor | engine/src/Flag.cpp:49-56 | never throws: every colour has an id, between 1 and 7 |
| Flag.FlagColorForId | engine/src/Flag.cpp:40-47 | succeeds exactly for ids 1..7, returning the colour whose id it is; otherwise throws "Unknown flag color ID requested" |
| Flag.IdForFlagColorInjective | engine/src/Flag.cpp:25-29 | the two id tables are inverse: distinct colours have distinct ids, and the id of a colour maps back to it |
| Helpers.SplitString | engine/src/Helpers.cpp:41-52 | the items between delimiters, empty ones dropped; each item is non-empty and free of the delimiter |
| Helpers.JoinString | engine/src/Helpers.cpp:54-68 | the elements in order with the delimiter between neighbours ("" for none, the element itself for one) |
| Helpers.JoinIDNumbers | engine/src/Helpers.cpp:70-84 | the same join over the decimal renderings of the ids |
| Helpers.JoinDelimiterCount | engine/src/Helpers.cpp:54-68 | joining n >= 1 delimiter-free elements with a one-character delimiter inserts exactly n - 1 delimiters |
| Helpers.SplitJoin | engine/src/Helpers.cpp:41-68 | splitString undoes joinString on non-empty, delimiter-free elements |
| Helpers.TokenizeJoinedDecimals | engine/src/Helpers.cpp:70-84 | tokenising the comma-joined renderings of ids gives the renderings back (the round trip the script and source lists rely on) |
| Scripts.EventsAmong | engine/src/base/Script.cpp:38-52 | an event is collected exactly when its identifier ("newpost", "updatepost") is among the tokens |
| Scripts.ParseRunOnEvents | engine/src/base/Script.cpp:34-54 | the events named by the trimmed, non-empty comma-separated tokens; unknown tokens are dropped |
| Scripts.CollectEvents | engine/src/base/Script.cpp:38-52 | the token loop collects exactly the events named among the tokens |
| Scripts.ParseRunOnFeedIDs | engine/src/base/Script.cpp:56-70 | the feed ids among the tokens that parse as unsigned 64-bit numbers; other tokens are dropped |
| Scripts.CollectFeedIDs | engine/src/base/Script.cpp:60-68 | the token loop collects exactly the tokens that parse as unsigned 64-bit numbers |
| Scripts.EventsNamedInJoin | engine/src/base/Script.cpp:72-93 | parsing the comma-joined identifiers of a list of events gives the set of those events |
| Scripts.RunOnEventsString | engine/src/base/Script.cpp:72-93 | whatever the set's iteration order, parsing the string written gives the event set back |
| Scripts.FeedIDVector | engine/src/base/Script.cpp:99-101 | the vector built from the feed-id set holds exactly the set's ids |
| Scripts.FeedIDsNamedInJoin | engine/src/base/Script.cpp:95-108 | parsing the comma-joined decimal ids gives the set of those ids |
| Scripts.RunOnFeedIDsString | engine/src/base/Script.cpp:95-108 | "" for "every feed"; otherwise a string whose parse is the feed-id set |
| Scripts.FromJSON | engine/src/remote/ScriptRemote.cpp:54-80 | each field is the object's value under its key; a type other than "lua" fails with "Unknown script type"; the feed set is present exactly when its key is |
| Scripts.ToJSON | engine/src/base/Script.cpp:110-135 | writes exactly the six keys, plus runOnFeedIDs when the script is restricted; decoding the object gives the script back |
| Scripts.DecodeEncodedFields | engine/src/remote/ScriptRemote.cpp:54-80 | any object holding a script's fields under their keys decodes to that script |
| Posts.FlagColorsOfJoinedNames | engine/src/base/Post.cpp:44-49 | the comma-joined colour names that toJSON writes read back, through fromJSON's split-trim-lookup, as the same colour set |
| Posts.ColorOrder | engine/src/base/Post.cpp:45-48 | the iteration over the colour set visits exactly the set's colours |
| Posts.ParseFlagColors | engine/src/base/Post.cpp:93-97 | trims and looks up each name; the set of their colours, or the error of the first unknown name |
| Posts.DecodeEncodedEnclosures | engine/src/base/Post.cpp:51-60 | the enclosure array toJSON writes decodes, element by element, to the same enclosures in order |
| Posts.DecodeEncodedCategories | engine/src/base/Post.cpp:62-70 | the category array toJSON writes decodes to the same categories in order |
| Posts.DecodeEncodedPost | engine/src/base/Post.cpp:27-119 | decoding the object toJSON builds gives back every field except the id, which fromJSON does not read |
| Posts.Post.RemoveEnclosure | engine/src/base/Post.cpp:121-127 | removes element index and keeps the rest in order; an index past the end changes nothing |
| Posts.Post.UpdateEnclosure | engine/src/base/Post.cpp:129-138 | replaces element index only; an index past the end changes nothing |
| Posts.Post.HasCategory | engine/src/base/Post.cpp:140-150 | true exactly when some category title equals the given title ignoring ASCII case |
| Posts.Post.ToJSON | engine/src/base/Post.cpp:27-73 | the object holds the id, and decoding it gives the post's whole value back |
| Posts.Post.SetScalars | engine/src/base/Post.cpp:77-88 | sets the twelve scalar fields in order; fails exactly when one is missing or mistyped |
| Posts.Post.SetFlagColors | engine/src/base/Post.cpp:90-98 | fails exactly when the name list is missing or names an unknown colour; otherwise the colours are those named |
| Posts.Post.AppendEnclosures | engine/src/base/Post.cpp:103-108 | appends each decoded enclosure in order; fails exactly when one element does not decode |
| Posts.Post.AppendCategories | engine/src/base/Post.cpp:113-117 | appends each decoded category in order; fails exactly when one element does not decode |
| Posts.Post.FromJSON | engine/src/base/Post.cpp:75-119 | fails exactly when the decoder does; otherwise the scalars and colours are the decoded ones and the decoded enclosures and categories are APPENDED to those already held; the id is untouched |
| Feeds.StatisticMapsInverse | engine/src/base/Feed.cpp:21-33 | every statistic has an identifier, and the two statistic tables are each other's inverse |
| Feeds.ReadIdentity | engine/src/remote/FeedRemote.cpp:267-275 | reads id, url, folder, guid and title, failing on the first missing or mistyped value (the reference decoder) |
| Feeds.ReadDetails | engine/src/remote/FeedRemote.cpp:218-223 | reads subtitle, link, description, language, copyright and icon hash in order, failing on the first missing one |
| Feeds.ReadState | engine/src/remote/FeedRemote.cpp:225-239 | an empty refresh error reads as absent and a zero refresh interval as absent; sort order, last-checked and unread count are required |
| Feeds.FromJSON | engine/src/remote/FeedRemote.cpp:212-275 | the id and every field in order, then the statistics and the Base64-decoded icon when present; any missing value is an error |
| Feeds.TransferredKeepsPresentValues | engine/src/base/Feed.cpp:52-53 | only an explicit empty refresh error and an explicit zero interval are lost in transfer; every other field survives |
| Feeds.DecodeEncodedFeed | engine/src/base/Feed.cpp:39-75 | decoding what toJSON writes (with an icon hash added, under an inverse Base64 pair) gives the feed back up to the two sentinels |
| Feeds.DecodeNeedsIconHash | engine/src/remote/FeedRemote.cpp:223 | an object without an icon hash never decodes |
| Feeds.EncodedFeedLacksIconHash | engine/src/base/Feed.cpp:39-75 | toJSON writes no icon hash, so the decoder rejects toJSON's own output |
| StatisticObjects.Read | engine/src/remote/FeedRemote.cpp:242-256 | fails exactly when a known identifier holds a non-string; otherwise the statistics named by known identifiers, unknown keys ignored |
| StatisticObjects.DecodeEncoded | engine/src/base/Feed.cpp:57-65 | reading back the statistics object toJSON writes gives the same statistics |
| StatisticObjects.EncodeEmpty | engine/src/base/Feed.cpp:57 | the statistics object is empty exactly when there are no statistics |
| StatisticObjects.UnknownIgnored | engine/src/remote/FeedRemote.cpp:250-253 | a key that is not a statistic identifier changes nothing that is read |
| Folders.StatisticMapsInverse | engine/src/base/Folder.cpp:21-35 | every folder statistic has an identifier, and the two tables are each other's inverse |
| Folders.EncodedShape | engine/src/base/Folder.cpp:46-79 | toJSON writes the subfolders and feed ids in their order, one element each, and the statistics object exactly when there are statistics |
| Folders.EncodeSubfoldersAppend | engine/src/base/Folder.cpp:54-58 | encoding one more subfolder appends its object to the array |
| Folders.DecodeEncodedFeedIDs | engine/src/remote/FolderRemote.cpp:308-314 | the feed-id array toJSON writes reads back as the same ids in order |
| Folders.EncodedStatistics | engine/src/base/Folder.cpp:61-69 | the statistics entry read from the folder's own object gives its statistics; without the entry there are none |
| Folders.EncodedScalars | engine/src/base/Folder.cpp:49-52 | id, parent, title and sort order read back as written |
| Folders.DecodeEncodedFolder | engine/src/remote/FolderRemote.cpp:269-321 | with each folder reading its own statistics, decoding what toJSON writes rebuilds the folder at every level: fields, statistics, subfolders in order and feed ids in order |
| Folders.DecodeEncodedSubfolders | engine/src/remote/FolderRemote.cpp:298-306 | the subfolder array toJSON writes decodes to the same subfolders in order |
| Folders.DecodeNeedsFeedIDs | engine/src/remote/FolderRemote.cpp:309-310 | without the feed-id array no folder decodes, at any level (the null array is dereferenced) |
| Folders.SubfolderErrorPropagates | engine/src/remote/FolderRemote.cpp:301-305 | a subfolder that does not decode makes the whole folder fail |
| Folders.AsWrittenTakesRootStatistics | engine/src/remote/FolderRemote.cpp:282-296 | as written, every nested folder that has statistics gets the statistics of the root object instead of its own |
| Folders.RootStatisticsCounterexample | engine/src/remote/FolderRemote.cpp:285 | a root with statistics "1" and a subfolder with "2": the intended decoder gives "2" back, the as-written one reports "1" |
| Folders.NestedStatisticsCounterexample | engine/src/remote/FolderRemote.cpp:285 | a root without statistics and a subfolder with some: the intended decoder succeeds, the as-written one dereferences the root's missing statistics object |
| Folders.Folder.AppendSubfolder | engine/src/base/Folder.cpp:41-44 | exactly one child more, at the end |
| Folders.Folder.ToJSON | engine/src/base/Folder.cpp:46-79 | the object is the folder's encoding: six fields always, statistics only when there are some |
| Folders.Folder.SubfolderArray | engine/src/base/Folder.cpp:54-58 | the loop encodes each subfolder in turn, giving the subfolder array |
| Folders.Folder.FeedIDArray | engine/src/base/Folder.cpp:71-76 | the loop writes each feed id in turn |
| Folders.ConstructFolder | engine/src/remote/FolderRemote.cpp:272-318 | the constructFolder lambda, with each folder reading its own statistics, computes the intended decoder |
| Folders.NewFolder | engine/src/remote/FolderRemote.cpp:274-296 | a fresh folder holding the id, parent, title, sort order and statistics read, or the first read's error |
| Folders.ReadStatistics | engine/src/remote/FolderRemote.cpp:282-296 | no statistics key gives none; otherwise the statistics of the folder's own object, a missing object being dereferenced |
| Folders.AppendSubfolders | engine/src/remote/FolderRemote.cpp:298-306 | decodes the array element by element and appends each subfolder in order; the first failure aborts |
| Folders.ReadFeedIDs | engine/src/remote/FolderRemote.cpp:308-314 | each element read as an unsigned 64-bit number, in order; a non-number aborts |
| OPML.OPMLParser.StartDocument | engine/src/OPMLParser.cpp:39-43 | clears the entries and the folder stack, leaving the feed flag |
| OPML.OPMLParser.StartElement | engine/src/OPMLParser.cpp:49-90 | an outline with text is a feed when its type is "rss" (recorded with the current folder stack only when it has an xmlUrl) and otherwise a folder whose text is pushed; anything else changes nothing |
| OPML.OPMLParser.EndElement | engine/src/OPMLParser.cpp:92-105 | closing an outline pops a folder unless the last outline opened was a feed, in which case the feed flag is cleared |
| OPML.Parse | engine/src/OPMLParser.cpp:22-32 | the entries are those of a fresh handler that receives the document's callbacks in order |
| OPML.RunAppends | engine/src/OPMLParser.cpp:77 | entries are only ever appended, so they come out in document order |
| OPML.FeedOutlineRecorded | engine/src/OPMLParser.cpp:64-79 | a feed outline with an xmlUrl adds exactly one entry (text, url, a copy of the folder stack) and leaves the stack |
| OPML.FeedOutlineWithoutUrl | engine/src/OPMLParser.cpp:64-79 | a feed outline without an xmlUrl records nothing and only sets the feed flag |
| OPML.OutlineRestores | engine/src/OPMLParser.cpp:49-105 | a well-formed outline appends exactly its reference entries, and leaves the folder stack as it found it |
| OPML.DocumentEntries | engine/src/OPMLParser.cpp:22-134 | parsing a well-formed OPML document yields the reference entries: each feed with a url, under the titles of its enclosing folders, in document order |
| OPML.TextlessOutlinePopsFolder | engine/src/OPMLParser.cpp:52-55 | an outline without text is skipped when it opens but still pops its folder when it closes, so a following feed inside folder "A" is recorded at the top level |
| FeedFetcher.Dispatch | engine/src/feed_handling/FeedFetcher.cpp:44-103 | empty data, or data starting with neither '<' nor '{', gives no parser; an XML root `rss` with version 2.0, `feed` or `rdf:RDF` selects RSS 2.0, Atom 1.0 or RSS 1.0 (each if and only if); any other root throws "Unkown feed type"; a JSON object selects JSON Feed exactly when its version is either JSON Feed URL ignoring case; errors arise only for '<' or '{' data |
| FeedFetcher.FeedFetcher.ParseString | engine/src/feed_handling/FeedFetcher.cpp:44-103 | remembers the data and returns the parser the decision chain selects |
| FeedFetcher.JsonVersionIgnoresCase | engine/src/feed_handling/FeedFetcher.cpp:93 | a version selects the JSON parser exactly when its lower-case form does |
| FeedFetcher.UnknownRootThrows | tests/src/TestFeedFetcher.cpp:98 | a document whose root is `invalid-feed-tag` throws |
| FeedFetcher.OtherJsonVersionYieldsNone | engine/src/feed_handling/FeedFetcher.cpp:89-102 | a JSON object of any other version yields no parser rather than an exception |
| FeedFetcher.RssOtherVersionYieldsNone | engine/src/feed_handling/FeedFetcher.cpp:58-66 | an `rss` root whose version attribute is missing or other than 2.0 yields no parser |
| FeedDiscovery.YoutubeFeed | engine/src/feed_handling/FeedDiscovery.cpp:88-117 | a feed is found exactly for a host ending in youtube.com with a channel canonical link: the channel's Atom feed URL, titled by the page title or else the channel id |
| FeedDiscovery.DocumentElementTitle | engine/src/feed_handling/FeedDiscovery.cpp:308-316 | the local name of the first element the parse started, and "" when it started none |
| FeedDiscovery.XmlFeed | engine/src/feed_handling/FeedDiscovery.cpp:121-147 | a page that parses completely is an "RSS Feed" exactly when its root is rss or rdf ignoring case, an "Atom Feed" exactly when it is feed; a failed parse announces nothing |
| FeedDiscovery.JsonFeed | engine/src/feed_handling/FeedDiscovery.cpp:148-167 | a JSON object of either JSON Feed version is its own feed, titled by its title or "JSON feed"; parse and read errors propagate |
| FeedDiscovery.TypeFor | engine/src/feed_handling/FeedDiscovery.cpp:273-294 | the rss, atom, json and feed+json MIME types, ignoring case, map to RSS, Atom, JSON and JSON (each if and only if) |
| FeedDiscovery.LinkFeed | engine/src/feed_handling/FeedDiscovery.cpp:259-306 | a feed is announced exactly by a `link` with rel, href and type, rel "alternate" ignoring case and a feed type; at its href, titled by its title or "" |
| FeedDiscovery.LinkFeedsConcat | engine/src/feed_handling/FeedDiscovery.cpp:176-243 | the handler shared by both parses appends the feeds of the first run, then of the second |
| FeedDiscovery.LinkFeedsSound | engine/src/feed_handling/FeedDiscovery.cpp:259-306 | every feed found comes from a link callback that announces exactly it |
| FeedDiscovery.LinkFeedsComplete | engine/src/feed_handling/FeedDiscovery.cpp:259-306 | every announcing link callback contributes its feed |
| FeedDiscovery.PostProcessed | engine/src/feed_handling/FeedDiscovery.cpp:245-257 | one feed per feed, in order; URLs starting with "http" kept, the others resolved against the page URI |
| FeedDiscovery.PostProcessedKeeps | engine/src/feed_handling/FeedDiscovery.cpp:245-257 | titles, types and absolute URLs are unchanged |
| FeedDiscovery.FeedDiscovery.Discover | engine/src/feed_handling/FeedDiscovery.cpp:63-86 | the feeds and escaping exception are those of the reference decision: nothing for empty data, then YouTube, then direct, then alternate links, post-processed on success |
| FeedDiscovery.FeedDiscovery.InterpretAsYoutubeSource | engine/src/feed_handling/FeedDiscovery.cpp:88-117 | succeeds exactly when a YouTube feed is found, appending that one feed |
| FeedDiscovery.FeedDiscovery.InterpretAsDirectFeedLink | engine/src/feed_handling/FeedDiscovery.cpp:119-169 | by the first character: the XML or JSON reading, appending the feed found; JSON errors propagate |
| FeedDiscovery.FeedDiscovery.InterpretAsHTMLWithRelAlternateLinks | engine/src/feed_handling/FeedDiscovery.cpp:171-243 | appends the page's link feeds; success when there are some or the page parsed; otherwise also the links document's feeds, succeeding when that parses |
| FeedDiscovery.FeedDiscovery.HandleLinks | engine/src/feed_handling/FeedDiscovery.cpp:259-306 | the callbacks append exactly the announced feeds, in order |
| FeedDiscovery.FeedDiscovery.PostProcessFeeds | engine/src/feed_handling/FeedDiscovery.cpp:245-257 | rewrites each relative URL in place, leaving the rest |
| FeedDiscovery.EmptyDataDiscoversNothing | engine/src/feed_handling/FeedDiscovery.cpp:65-69 | empty data discovers nothing and raises nothing |
| FeedDiscovery.DiscoveredFrom | engine/src/feed_handling/FeedDiscovery.cpp:63-86 | a YouTube page yields only its feed; else a page that is a feed yields only itself; else every feed comes from a link element of the page or of the rebuilt links document, with its title and type, and its URL as announced or resolved |
| FeedDiscovery.FailedLinksKeepRelativeURLs | engine/src/feed_handling/FeedDiscovery.cpp:81-85 | when both parses fail, the feeds the links document announced are kept with their relative URLs unresolved |
| FeedParserJSON11.OptionalString | engine/src/feed_handling/FeedParserJSON11.cpp:29-73 | a missing key reads as ""; a present key is read as a string, and a non-string throws (guid, link, description and language read this way) |
| FeedParserJSON11.IconURL | engine/src/feed_handling/FeedParserJSON11.cpp:80-91 | icon when present, else favicon, else "" |
| FeedParserJSON11.AuthorNames | engine/src/feed_handling/FeedParserJSON11.cpp:208-218 | no more names than author entries; a non-object entry throws |
| FeedParserJSON11.GetAuthors | engine/src/feed_handling/FeedParserJSON11.cpp:208-224 | the loop yields Authors: the names joined with ", ", or "" when there are none |
| FeedParserJSON11.AuthorNamesMeaning | engine/src/feed_handling/FeedParserJSON11.cpp:211-218 | for well-formed entries the names kept are exactly those of the authors that have one, in order |
| FeedParserJSON11.NamelessAuthorsJoinToEmpty | engine/src/feed_handling/FeedParserJSON11.cpp:219-223 | authors without names give "" |
| FeedParserJSON11.EscapedHasNoAngles | engine/src/feed_handling/FeedParserJSON11.cpp:144-145 | the escaped text holds no raw '<' or '>' |
| FeedParserJSON11.EscapeKeepsPlainText | engine/src/feed_handling/FeedParserJSON11.cpp:144-145 | text without '<' and '>' passes the escaping unchanged |
| FeedParserJSON11.TextContent | engine/src/feed_handling/FeedParserJSON11.cpp:140-148 | the preformatted content holds no raw line break: every one became "<br />" |
| FeedParserJSON11.ItemAuthor | engine/src/feed_handling/FeedParserJSON11.cpp:176-191 | an item with neither authors nor author inherits the feed's authors |
| FeedParserJSON11.PublishedDate | engine/src/feed_handling/FeedParserJSON11.cpp:165-174 | the normalised provided date, or "" when there is none or it does not parse |
| FeedParserJSON11.Tags | engine/src/feed_handling/FeedParserJSON11.cpp:193-200 | one category per tag, in order, each the tag's string; a non-string tag throws |
| FeedParserJSON11.Content | engine/src/feed_handling/FeedParserJSON11.cpp:134-149 | content_html as is; otherwise content_text in preformatted form; an item with neither throws |
| FeedParserJSON11.ItemOf | engine/src/feed_handling/FeedParserJSON11.cpp:112-202 | a non-object element throws; one without id is skipped; an item kept has its id as guid |
| FeedParserJSON11.ReadItems | engine/src/feed_handling/FeedParserJSON11.cpp:93-206 | the loop yields Items: the feed's authors, then the items of the elements in order, stopping at the first error |
| FeedParserJSON11.WithID | engine/src/feed_handling/FeedParserJSON11.cpp:115-118 | the elements kept are objects with an id |
| FeedParserJSON11.ItemsKeepIDs | engine/src/feed_handling/FeedParserJSON11.cpp:111-122 | the items are the elements with an id, as many and in order, each with its id as guid |
| FeedParserJSON11.AuthorPrecedence | engine/src/feed_handling/FeedParserJSON11.cpp:176-191 | an item's authors array wins even when it names nobody, then its author's name, then the feed's authors |
| FeedParserJSON11.DatePrecedence | engine/src/feed_handling/FeedParserJSON11.cpp:156-164 | date_modified is preferred over date_published |
| FeedParserATOM10.FeedLink | engine/src/feed_handling/FeedParserATOM10.cpp:45-64 | the href of the first link element below the document element with rel "alternate" and an href, or "" when there is none |
| FeedParserATOM10.ReadFeedLink | engine/src/feed_handling/FeedParserATOM10.cpp:45-64 | the scan stops at that link and answers FeedLink |
| FeedParserATOM10.EntryLinkBecomesFeedLink | engine/src/feed_handling/FeedParserATOM10.cpp:48 | links inside entries are candidates too: a feed whose only link sits in its entry takes that link |
| FeedParserATOM10.ChosenLink | engine/src/feed_handling/FeedParserATOM10.cpp:113-145 | the chosen link's href becomes the item link; an enclosure link with a non-empty href also becomes the one enclosure, with its type and length |
| FeedParserATOM10.ItemLink | engine/src/feed_handling/FeedParserATOM10.cpp:106-148 | the first link with an href whose rel is absent, "alternate" or "enclosure" decides the item link; none gives "" and no enclosure; no enclosure has an empty URL |
| FeedParserATOM10.ReadItemLink | engine/src/feed_handling/FeedParserATOM10.cpp:106-148 | the link loop with its continue and break yields ItemLink |
| FeedParserATOM10.EnclosureLinkEndsScan | engine/src/feed_handling/FeedParserATOM10.cpp:118-145 | an enclosure link in front takes the item link and ends the scan |
| FeedParserATOM10.OtherRelIsSkipped | engine/src/feed_handling/FeedParserATOM10.cpp:139-142 | a link with another rel in front changes nothing |
| FeedParserATOM10.EnclosureURL | engine/src/feed_handling/FeedParserATOM10.cpp:161-168 | the href when present and non-empty, else the url attribute, else "" |
| FeedParserATOM10.ElementEnclosures | engine/src/feed_handling/FeedParserATOM10.cpp:153-184 | every enclosure element with a URL gives an enclosure with its type and length, and nothing else is added; none has an empty URL |
| FeedParserATOM10.ReadEnclosures | engine/src/feed_handling/FeedParserATOM10.cpp:153-184 | the enclosure loop yields ElementEnclosures |
| FeedParserATOM10.DeclaredContent | engine/src/feed_handling/FeedParserATOM10.cpp:186-209 | the summary unless a content element without src overrides it: text content in pre, other types as inner XML |
| FeedParserATOM10.ReadDeclaredContent | engine/src/feed_handling/FeedParserATOM10.cpp:186-209 | the summary-then-content statements yield DeclaredContent |
| FeedParserATOM10.MediaGroup | engine/src/feed_handling/FeedParserATOM10.cpp:211-249 | without media:group nothing; a thumbnail is never taken without content that shows it |
| FeedParserATOM10.GroupMedia | engine/src/feed_handling/FeedParserATOM10.cpp:216-247 | a media group's thumbnail always comes with markup |
| FeedParserATOM10.ReadMediaGroup | engine/src/feed_handling/FeedParserATOM10.cpp:216-247 | the stream of the media group yields GroupMedia |
| FeedParserATOM10.EntryMedia | engine/src/feed_handling/FeedParserATOM10.cpp:186-249 | non-empty declared content is kept with no thumbnail; otherwise the media group's content and thumbnail |
| FeedParserATOM10.ReadContent | engine/src/feed_handling/FeedParserATOM10.cpp:186-249 | the content statements yield EntryMedia |
| FeedParserATOM10.Terms | engine/src/feed_handling/FeedParserATOM10.cpp:269-281 | no more categories than category elements, and a term is listed exactly when a category element carries it |
| FeedParserATOM10.ReadCategories | engine/src/feed_handling/FeedParserATOM10.cpp:269-281 | the category loop yields Terms |
| FeedParserATOM10.ReadEntry | engine/src/feed_handling/FeedParserATOM10.cpp:98-284 | the entry loop body builds EntryItem |
| FeedParserATOM10.EntryItemFields | engine/src/feed_handling/FeedParserATOM10.cpp:103-283 | a read entry has the normalised updated date, its id, title and author name, the chosen link, the link and element enclosures, the content rule and the terms |
| FeedParserATOM10.EntryItemFailsOnDate | engine/src/feed_handling/FeedParserATOM10.cpp:263-267 | an entry throws exactly when its updated date cannot be read, a missing one included |
| FeedParserATOM10.ReadItems | engine/src/feed_handling/FeedParserATOM10.cpp:91-289 | the entry loop yields Items |
| FeedParserATOM10.EntryItemsMeaning | engine/src/feed_handling/FeedParserATOM10.cpp:91-289 | parsing succeeds exactly when every entry does, and then item k is what entry k gives |
| FeedParserRSS10.GuidSource | engine/src/FeedParserRSS10.cpp:99-112 | the digest covers the link when there is one, else the title, else the description, else the UUID; it is empty only when all four are |
| FeedParserRSS10.ItemDescription | engine/src/FeedParserRSS10.cpp:90-97 | the text of content:encoded when present, otherwise the inner XML of description |
| FeedParserRSS10.ItemDate | engine/src/FeedParserRSS10.cpp:126-134 | "" without dc:date; the normalised date otherwise, and an error exactly when that date cannot be parsed |
| FeedParserRSS10.ReadItem | engine/src/FeedParserRSS10.cpp:81-135 | the loop body builds the item ItemOf describes, or throws on an unreadable date |
| FeedParserRSS10.ReadItems | engine/src/FeedParserRSS10.cpp:74-140 | the loop yields Items: one item per item element, in order, stopping at the first error |
| FeedParserRSS10.GuidFromLink | engine/src/FeedParserRSS10.cpp:99-118 | an item with a link has the digest of that link as its guid |
| FeedParserRSS10.GuidSourceNeverEmpty | engine/src/FeedParserRSS10.cpp:99-118 | with a non-empty UUID the guid is the digest of a non-empty string |
| FeedParserRSS10.MissingCreatorAndDate | engine/src/FeedParserRSS10.cpp:120-134 | without dc:creator and dc:date the item cannot fail and its author and date are empty |
| FeedParserRSS10.ItemsMeaning | engine/src/FeedParserRSS10.cpp:74-140 | parsing succeeds exactly when every item element does, and then item k is what element k gives with the k-th UUID |
| PostLocal.FlagID | engine/src/Flag.cpp:49-56 | the id stored for a flag colour lies in 1..7 and maps back to that colour |
| PostLocal.ColorsOf | engine/src/local/PostLocal.cpp:177-189 | a colour is in a post's flag set exactly when a flags row with that post id and the colour's id exists |
| PostLocal.Unflagged | engine/src/local/PostLocal.cpp:45-50 | after the delete no row for that post and colour remains; every other row keeps its multiplicity |
| PostLocal.Flagged | engine/src/local/PostLocal.cpp:31-43 | Gray leaves the table unchanged; any other colour ends with exactly one row for the pair; every other row keeps its multiplicity |
| PostLocal.MarkUnflagged | engine/src/local/PostLocal.cpp:45-50 | the flags table becomes Unflagged of the old table |
| PostLocal.MarkFlagged | engine/src/local/PostLocal.cpp:31-43 | unflag first, then insert unless Gray: the flags table becomes Flagged of the old table |
| PostLocal.FlaggedIdempotent | engine/src/local/PostLocal.cpp:31-43 | flagging a post twice with one colour leaves the table as flagging once |
| PostLocal.UnflaggedAbsent | engine/src/local/PostLocal.cpp:45-50 | unflagging a colour the post does not carry changes nothing |
| PostLocal.ColorsAfterFlagging | engine/src/local/PostLocal.cpp:31-50 | seen through the post's colour set, flagging adds the colour (unless Gray) and unflagging removes it; other posts keep their colours |
| PostLocal.Unassigned | engine/src/local/PostLocal.cpp:69-73 | after the delete no membership row for the pair remains; other rows keep their multiplicity |
| PostLocal.Assigned | engine/src/local/PostLocal.cpp:62-67 | after unassign-then-insert exactly one membership row for the pair exists; other rows keep their multiplicity |
| PostLocal.UnassignFromScriptFolder | engine/src/local/PostLocal.cpp:69-73 | the membership table becomes Unassigned of the old table |
| PostLocal.AssignToScriptFolder | engine/src/local/PostLocal.cpp:62-67 | the membership table becomes Assigned of the old table |
| PostLocal.AssignedIdempotent | engine/src/local/PostLocal.cpp:62-67 | assigning twice leaves the table as assigning once |
| PostLocal.UnassignedAbsent | engine/src/local/PostLocal.cpp:69-73 | unassigning a post that is not in the script folder changes nothing |
| PostLocal.WithIsRead | engine/src/local/PostLocal.cpp:343-366 | the same post ids; only the isRead column of the selected rows changes, to the given value |
| PostLocal.UpdateIsRead | engine/src/local/PostLocal.cpp:343-366 | the rows the WHERE conditions match (all rows without conditions) get the new isRead; nothing else changes |
| PostLocal.UpdateIsReadExactly | engine/src/local/PostLocal.cpp:343-366 | a row satisfying every condition gets the new isRead; any other row is unchanged |
| PostLocal.MatchingThisPost | engine/src/local/PostLocal.cpp:54 | the conditions feedID=? and id=? select this post alone, or nothing when it belongs to another feed |
| PostLocal.MarkAsRead | engine/src/local/PostLocal.cpp:52-55 | only this post of this feed becomes read |
| PostLocal.MarkAsUnread | engine/src/local/PostLocal.cpp:57-60 | only this post of this feed becomes unread |
| PostLocal.WithItem | engine/src/local/PostLocal.cpp:368-392 | the same post ids; only the item columns of the one row change; feed id and isRead stay |
| PostLocal.Update | engine/src/local/PostLocal.cpp:368-392 | the posts table becomes WithItem of the old table |
| PostLocal.Create | engine/src/local/PostLocal.cpp:394-461 | the insert fails exactly when the largest row id is taken; otherwise the new row gets the next row id, is unread, nothing else changes, and the returned post carries the stored values and the flags read back for its id |
| PostLocal.Load | engine/src/local/PostLocal.cpp:155-191 | a loaded post carries its row's id, feed id, isRead and item columns, and the colours of its flag rows |
| PostLocal.PostKey | engine/src/local/PostLocal.cpp:75-130 | the ordering key is the post's date, preceded by the isRead rank when unread posts go first |
| PostLocal.KeysOf | engine/src/local/PostLocal.cpp:75-130 | every selected post has its key in the set, and every key belongs to a selected post |
| PostLocal.KeysOfSize | engine/src/local/PostLocal.cpp:75-130 | the keys are as many as the selected posts (the key is injective) |
| PostLocal.ListingContents | engine/src/local/PostLocal.cpp:75-130 | the listing holds every post matching the WHERE conditions and nothing else |
| PostLocal.ListingCount | engine/src/local/PostLocal.cpp:75-130 | the listing's length is the number of matching posts, the COUNT(*) of the same WHERE clause |
| PostLocal.ListingOrder | engine/src/local/PostLocal.cpp:75-130 | no post is listed twice; unread posts come before read ones when asked for; dates do not increase within a rank |
| PostLocal.LoadAll | engine/src/local/PostLocal.cpp:155-193 | one loaded post per id, in the same order |
| PostLocal.ListingInPosts | engine/src/local/PostLocal.cpp:75-130 | every listed id is a row of the posts table |
| PostLocal.QueryMultiple | engine/src/local/PostLocal.cpp:75-195 | the result is the OFFSET/LIMIT window of the ordered listing, each post loaded with its feed title and flags |
| PostLocal.LoadRows | engine/src/local/PostLocal.cpp:155-193 | the loop loads every id in order: the result is LoadAll of the ids |
| PostLocal.QueryCount | engine/src/local/PostLocal.cpp:316-341 | the count is the number of posts the WHERE conditions match |
| PostLocal.Single | engine/src/local/PostLocal.cpp:273-313 | a post is returned exactly when one row matches, and it is that row loaded |
| PostLocal.QuerySingle | engine/src/local/PostLocal.cpp:197-314 | the result is Single of the rows the WHERE conditions match |
| FeedLocal.PageConditionsMeaning | engine/src/local/FeedLocal.cpp:55-88 | a post passes getPosts' WHERE terms exactly when it belongs to the feed, is unread if only unread posts are asked for, mentions the search filter in title or content (ignoring case) when one is given, and carries the flag colour unless it is Gray |
| FeedLocal.PageOffsetOrdinary | engine/src/local/FeedLocal.cpp:90 | from page 1 on, without overflow, the page's offset is perPage * (page - 1) |
| FeedLocal.PageZeroIsFirstPage | engine/src/local/FeedLocal.cpp:90-92 | page 0 wraps around in 64-bit arithmetic to an offset SQLite reads as negative, which shows the first page |
| FeedLocal.GetPosts | engine/src/local/FeedLocal.cpp:51-103 | the count is the number of matching posts; the posts are the LIMIT/OFFSET window of the ordered listing of those posts |
| FeedLocal.PageMembers | engine/src/local/FeedLocal.cpp:51-103 | a post is on the feed's listing exactly when it is stored and passes every filter of the call |
| FeedLocal.MarkAsRead | engine/src/local/FeedLocal.cpp:326-336 | the largest id marks all the feed's posts read; any other bound only those with an id up to it, compared as signed 64-bit integers |
| FeedLocal.MarkAsReadEffect | engine/src/local/FeedLocal.cpp:326-336 | afterwards a post is read when it belongs to the feed and the bound is the largest value or its id is at most the bound as signed 64-bit integers; every other post is unchanged; for ids up to 2^63-1 a bound up to 2^63-1 means what it says, and a bound from 2^63 to 2^64-2 marks none of them |
| FeedLocal.GetPost | engine/src/local/FeedLocal.cpp:105-116 | a post is found exactly when it exists and belongs to this feed, and it is that row loaded |
| FeedLocal.ByIDFinds | engine/src/local/FeedLocal.cpp:105-116 | the conditions feedID=? and id=? match exactly the one post of the feed with that id |
| FeedLocal.ByGuidFinds | engine/src/local/FeedLocal.cpp:118-129 | with guids unique per feed, the conditions feedID=? and guid=? match exactly the post of the feed with that guid |
| FeedLocal.ByGuidMisses | engine/src/local/FeedLocal.cpp:118-129 | when no post of the feed has the guid, the conditions match nothing |
| FeedLocal.FolderRanks | engine/src/local/FeedLocal.cpp:697 | the ranks hold exactly the feeds of the folder and order them by the signed 64-bit reading of their sortOrder, as SQLite does |
| FeedLocal.WithSortOrders | engine/src/local/FeedLocal.cpp:709-710 | the same feed ids; each feed named in the updates gets its new sortOrder, every other feed is unchanged |
| FeedLocal.Resort | engine/src/local/FeedLocal.cpp:691-713 | the feeds table becomes Resorted: the folder's feeds, in SQLite's signed sortOrder order, numbered 10, 20, 30, ... |
| FeedLocal.Renumber | engine/src/local/FeedLocal.cpp:706-712 | the loop writes 10, 20, 30, ... under the ids in turn and changes nothing else |
| FeedLocal.RenumberStep | engine/src/local/FeedLocal.cpp:709-711 | one update of the loop extends the written numbers by the next position |
| FeedLocal.ResortedFrame | engine/src/local/FeedLocal.cpp:691-713 | resorting keeps the feed ids and writes only sortOrders, and only of the folder's feeds |
| FeedLocal.ResortedAt | engine/src/local/FeedLocal.cpp:697-712 | the feed in position k of the folder's signed sortOrder order gets the number 10(k+1) |
| FeedLocal.Numbers | engine/src/local/FeedLocal.cpp:706-711 | the numbers handed to n feeds include 10, 20, ..., 10n |
| FeedLocal.ResortedNumberOf | engine/src/local/FeedLocal.cpp:691-713 | every feed of the folder gets one of the folder's numbers 10, ..., 10n |
| FeedLocal.ResortedNumbers | engine/src/local/FeedLocal.cpp:691-713 | after resorting, the folder's sortOrders are exactly 10, 20, ..., 10n for its n feeds |
| FeedLocal.ResortedKeepsOrder | engine/src/local/FeedLocal.cpp:691-713 | a feed sorted before another (signed sortOrder, then id) still is after resorting, unless the numbers wrap around |
| FeedLocal.ResortedLeavesOtherFolder | engine/src/local/FeedLocal.cpp:691-713 | resorting one folder leaves the feeds and sortOrders of every other folder as they were |
| FeedLocal.NextSortOrder | engine/src/local/FeedLocal.cpp:547-553 | 10 above the folder's largest sortOrder in SQLite's signed order, 10 for an empty folder, in 64-bit arithmetic |
| FeedLocal.NextSortOrderIsLast | engine/src/local/FeedLocal.cpp:547-553 | unless the signed sum overflows, the next sortOrder sorts after every sortOrder of the folder in the signed order |
| FeedLocal.Create | engine/src/local/FeedLocal.cpp:555-586 | the feeds table becomes Created: a new row under the next row id with the next sortOrder (signed maximum plus 10), or no change when no id is left |
| FeedLocal.CreatedFeed | engine/src/local/FeedLocal.cpp:555-586 | the insert fails exactly when the largest id is taken; otherwise the feed has a fresh id, the url (also stored as the title), the folder and the next sortOrder (signed maximum plus 10), and every other feed stays |
| FeedLocal.Placed | engine/src/local/FeedLocal.cpp:663-664 | the same feed ids; only the moved feed changes, to the new folder and sortOrder |
| FeedLocal.SortOrdersIn | engine/src/local/FeedLocal.cpp:676-686 | the pairs are exactly the feeds of the two folders, each with its sortOrder |
| FeedLocal.Move | engine/src/local/FeedLocal.cpp:657-689 | the feeds table becomes Moved (place, resort the new folder, resort the old one when different, each in the signed sortOrder order) and the answer is the sortOrders of both folders afterwards |
| FeedLocal.Relocate | engine/src/local/FeedLocal.cpp:659-672 | the statements before the final query: the old folder as read first, and the feeds table Moved, with resorts in the signed sortOrder order |
| FeedLocal.SortOrdersOf | engine/src/local/FeedLocal.cpp:674-686 | the query's rows read into the map: the sortOrders of the feeds of the two folders |
| FeedLocal.MovedFrame | engine/src/local/FeedLocal.cpp:657-672 | the moved feed lands in the new folder; feeds of every folder not concerned keep their rows |
| FeedLocal.MovedNumbers | engine/src/local/FeedLocal.cpp:657-672 | both folders concerned end up numbered 10, 20, ..., 10n for their feeds after the move |
| FeedLocal.PostsOutside | engine/src/local/FeedLocal.cpp:734-737 | the remaining posts are exactly those of other feeds, unchanged |
| FeedLocal.Remove | engine/src/local/FeedLocal.cpp:715-742 | an unknown feed changes nothing; a stored one loses its row and its posts, and the rest of its folder is resorted in the signed sortOrder order |
| FeedLocal.ScriptsFor | engine/src/local/FeedLocal.cpp:227-250 | no more sources than scripts are chosen |
| FeedLocal.ScriptsForMembers | engine/src/local/FeedLocal.cpp:227-250 | a source is chosen exactly when some enabled, non-empty script with that source is meant for every feed or this one and registered for the event |
| FeedLocal.ScriptsForConcat | engine/src/local/FeedLocal.cpp:227-250 | choosing keeps the scripts' order: the choice from a concatenation is the concatenation of the choices |
| FeedLocal.SelectScripts | engine/src/local/FeedLocal.cpp:220-250 | the loop fills the NewPost and UpdatePost lists with exactly the chosen sources, in order |
| FeedLocal.IsDifferent | engine/src/local/FeedLocal.cpp:261-295 | the early-exit comparison computes Differs: a compared column differs, the category counts differ, or a new category is not stored |
| FeedLocal.EnclosuresIgnored | engine/src/local/FeedLocal.cpp:275 | changing only the enclosures never counts as a change |
| FeedLocal.CategoriesComparedAsSet | engine/src/local/FeedLocal.cpp:277-295 | the same number of categories, each found among the stored ones ignoring ASCII case, counts as unchanged |
| FeedLocal.RepeatedCategoryHidesChange | engine/src/local/FeedLocal.cpp:280-294 | stored categories a and b replaced by a and a count as unchanged |
| FeedLocal.RunScripts | engine/src/local/FeedLocal.cpp:302-305 | each script runs in order on the post; the first error stops the runs and is reported; with no error every script ran |
| FeedLocal.RunAll | engine/src/local/FeedLocal.cpp:302-305 | the loop performs exactly RunScripts' runs and ends with its error |
| FeedLocal.ProcessItem | engine/src/local/FeedLocal.cpp:254-322 | one turn of the item loop leaves the posts, runs and error IngestItem describes |
| FeedLocal.IngestStops | engine/src/local/FeedLocal.cpp:252-323 | once an error has stopped the refresh, the later items change nothing |
| FeedLocal.ProcessItems | engine/src/local/FeedLocal.cpp:220-324 | chooses the scripts, then stores the items: the result is Ingest of the old posts and the items |
| FeedLocal.StoreItems | engine/src/local/FeedLocal.cpp:252-323 | the loop over the items computes Ingest |
| FeedLocal.StoreItem | engine/src/local/FeedLocal.cpp:252-323 | one turn extends the ingest of the first i items to the first i+1 |
| FeedLocal.IngestExisting | engine/src/local/FeedLocal.cpp:255-309 | an item with a stored guid overwrites that post's item columns, adds no post, and runs the UpdatePost scripts on it in order only when it differs |
| FeedLocal.IngestNew | engine/src/local/FeedLocal.cpp:310-322 | an item with a new guid becomes a post of the feed under the next row id, unread for scripts without effects on their post, and the NewPost scripts run on it in order; with no id left nothing is stored and an error results |
| FeedLocal.IngestItemKeepsGuidsUnique | engine/src/local/FeedLocal.cpp:252-323 | storing one item keeps guids unique within each feed |
| FeedLocal.IngestKeepsGuidsUnique | engine/src/local/FeedLocal.cpp:252-323 | refreshing never duplicates a post: guids stay unique within each feed |
| FeedLocal.IngestItemExtends | engine/src/local/FeedLocal.cpp:252-323 | for scripts without effects on their post, storing one item removes no post, changes no feed or read state, leaves other feeds' posts, and adds only unread posts of this feed |
| FeedLocal.IngestExtends | engine/src/local/FeedLocal.cpp:252-323 | for scripts without effects on their post, the same holds for the whole item list |
| FeedLocal.IngestConcat | engine/src/local/FeedLocal.cpp:252-323 | items are stored in order: the rest carries on from the first part's table unless the first part failed |
| FeedLocal.MetaOf | engine/src/local/FeedLocal.cpp:604-625 | the stored feed columns are the parsed ones; an empty conditional-GET tag is stored as NULL |
| FeedLocal.Refresh | engine/src/local/FeedLocal.cpp:167-218 | the tables become RefreshOf the old state: lastChecked recorded, then the parsed columns and items stored, any thrown error recorded on the feed |
| FeedLocal.RefreshParsed | engine/src/local/FeedLocal.cpp:190-213 | update then processItems, with the error that stopped them recorded |
| FeedLocal.RefreshKeepsFeeds | engine/src/local/FeedLocal.cpp:172-177 | a refresh records the time on the feed, keeps its url, folder and sortOrder, and changes no other feed |
| FeedLocal.RefreshRecordsError | engine/src/local/FeedLocal.cpp:179-217 | the recorded error is the fetch's message, none when the server reports no change, the unrecognized-type message, or the error that stopped storing the items; a parsed feed's columns are stored |
| FeedLocal.RefreshStoresItems | engine/src/local/FeedLocal.cpp:179-217 | only a parsed feed changes posts, and then, for scripts without effects on their post, only as an extension by its items |
| ScriptLocal.EventOrder | engine/src/local/ScriptLocal.cpp:89-98 | the listed events are exactly the set's, newpost before updatepost |
| ScriptLocal.StoredEventsValues | engine/src/local/ScriptLocal.cpp:89-99 | the runOnEvents column is "", "newpost", "updatepost" or "newpost,updatepost" for the four event sets |
| ScriptLocal.StoredEventsRoundTrip | engine/src/local/ScriptLocal.cpp:89-99 | parsing the stored events column gives back the events written |
| ScriptLocal.EncodeEvents | engine/src/local/ScriptLocal.cpp:35-45 | the loop and join build the fixed-order events column |
| ScriptLocal.EncodeFeedIDs | engine/src/local/ScriptLocal.cpp:47-57 | NULL exactly for "every feed"; otherwise a string that parses back to exactly the feed set |
| ScriptLocal.Create | engine/src/local/ScriptLocal.cpp:76-119 | the insert fails exactly when the largest id is taken; otherwise a new row under a fresh id holds the Lua type and the given settings, and every other row stays |
| ScriptLocal.Update | engine/src/local/ScriptLocal.cpp:32-68 | the row with that id gets every column but its type rewritten; no other row changes and no row is added or removed |
| ScriptLocal.Remove | engine/src/local/ScriptLocal.cpp:70-74 | exactly the row with that id is deleted |
| ScriptLocal.Decode | engine/src/local/ScriptLocal.cpp:170-191 | only rows of type lua are read; id, title, enabled flag and script are the row's; a NULL feed column or one naming no feed reads as every feed, any other as the feeds it names |
| ScriptLocal.DecodeRow | engine/src/local/ScriptLocal.cpp:174-191 | the loop body reads a row as Decode does |
| ScriptLocal.StoredScriptRoundTrip | engine/src/local/ScriptLocal.cpp:76-195 | writing a script and reading it back gives it back, except that an explicitly empty feed set comes back as every feed |
| ScriptLocal.EmptyFeedSetReadsAsEveryFeed | engine/src/local/ScriptLocal.cpp:181-188 | a lua row whose feed column is the empty string reads as a script for every feed |
| ScriptLocal.DescendingIDs | engine/src/local/SourceLocal.cpp:578 | ORDER BY scripts.id DESC as ranks: every row, ranked by the complement of its id |
| ScriptLocal.DecodeAllMembers | engine/src/local/ScriptLocal.cpp:170-193 | a script is read from the ids exactly when its id is among them and Decode reads its row as it |
| ScriptLocal.DecodeAllOrder | engine/src/local/ScriptLocal.cpp:170-193 | reading rows in descending id order gives scripts in descending id order |
| ScriptLocal.DescendingPair | engine/src/local/SourceLocal.cpp:578 | ids earlier in the ORDER BY scripts.id DESC order are larger |
| ScriptLocal.DescendingOrder | engine/src/local/SourceLocal.cpp:578 | the ordered ids strictly descend |
| ScriptLocal.ListingMembers | engine/src/local/SourceLocal.cpp:576-579 | getScripts lists exactly the lua rows, each read as Decode reads it |
| ScriptLocal.ListingDescends | engine/src/local/SourceLocal.cpp:576-579 | getScripts' ids strictly descend |
| ScriptLocal.GetScripts | engine/src/local/ScriptLocal.cpp:121-195 | queryMultiple with ORDER BY scripts.id DESC returns the Listing |
| ScriptLocal.GetScript | engine/src/local/ScriptLocal.cpp:197-267 | the row with that id read as Decode reads it; nothing for a missing or non-lua row |
| ScriptFolderLocal.PageConditionsMeaning | engine/src/local/ScriptFolderLocal.cpp:39-60 | a post passes getPosts' WHERE terms exactly when it has a membership row for the script folder, is unread if asked, mentions the search filter (ignoring case) when one is given, and carries the flag colour unless it is Gray |
| ScriptFolderLocal.GetPosts | engine/src/local/ScriptFolderLocal.cpp:30-69 | the count is the number of matching posts, whatever the page; the posts are the LIMIT/OFFSET window of the date-descending listing of those posts |
| ScriptFolderLocal.PageMembers | engine/src/local/ScriptFolderLocal.cpp:39-60 | a post is on the script folder's listing exactly when it is stored, a member, and passes every filter |
| ScriptFolderLocal.PageOrder | engine/src/local/ScriptFolderLocal.cpp:62-68 | the listing is by date descending, each post once, and its length is the count |
| ScriptFolderLocal.Renamed | engine/src/local/ScriptFolderLocal.cpp:71-75 | the same script folders; the one with that id gets the new title, every other row is unchanged |
| ScriptFolderLocal.Update | engine/src/local/ScriptFolderLocal.cpp:71-75 | the scriptfolders table becomes Renamed of the old table |
| ScriptFolderLocal.RenamedTwice | engine/src/local/ScriptFolderLocal.cpp:71-75 | renaming twice is renaming once with the second title |
| ScriptFolderLocal.WithoutScriptFolderCounts | engine/src/local/ScriptFolderLocal.cpp:178-181 | after the delete, a membership row of the script folder occurs no more, every other row as often as before |
| ScriptFolderLocal.Remove | engine/src/local/ScriptFolderLocal.cpp:171-182 | the script folder row and all its memberships go; posts, flags and read states are untouched |
| ScriptFolderLocal.DeleteMemberships | engine/src/local/ScriptFolderLocal.cpp:178-181 | deleting the memberships row by row leaves exactly WithoutScriptFolder of the old table |
| FolderLocal.ChildRanks | engine/src/local/FolderLocal.cpp:175 | the ranks hold exactly the folders whose parent is the given one |
| FolderLocal.ChildrenContents | engine/src/local/FolderLocal.cpp:175-182 | the children query lists exactly the stored folders with that parent |
| FolderLocal.ChildrenOfLists | engine/src/local/FolderLocal.cpp:170-183 | the walk's child lists name, for every folder, exactly its children |
| FolderLocal.Subtree | engine/src/local/FolderLocal.cpp:170-183 | the walk from a folder starts with that folder |
| FolderLocal.ForestMembers | engine/src/local/FolderLocal.cpp:176-182 | a folder is on the walks from a list of roots exactly when it is on the walk from one of them |
| FolderLocal.SubtreeMembers | engine/src/local/FolderLocal.cpp:170-183 | the walk lists exactly the folder and its descendants down to the depth it is given |
| FolderLocal.ForestParentsFirst | engine/src/local/FolderLocal.cpp:176-182 | on the walks from children of p, every folder's parent is p or comes earlier |
| FolderLocal.SubtreeParentsFirst | engine/src/local/FolderLocal.cpp:170-183 | on the walk from a child of p, every folder's parent is p or comes earlier |
| FolderLocal.SubtreePreorder | engine/src/local/FolderLocal.cpp:170-183 | the walk is a preorder: the folder first, and every later folder comes after its parent |
| FolderLocal.WalkIsPreorder | engine/src/local/FolderLocal.cpp:166-186 | the same for the children folderAndSubfolderIDs visits |
| FolderLocal.WalkMembers | engine/src/local/FolderLocal.cpp:166-186 | the walk lists exactly the folder and its descendants, at any depth |
| FolderLocal.FolderAndSubfolderIDs | engine/src/local/FolderLocal.cpp:166-186 | the ids are the walk from the folder over the stored children |
| FolderLocal.FetchSubfolderIDs | engine/src/local/FolderLocal.cpp:170-183 | the recursive lambda appends the walk from its folder to what was collected |
| FolderLocal.FetchEach | engine/src/local/FolderLocal.cpp:176-182 | its loop appends the walks from each child in turn |
| FolderLocal.SetOf | engine/src/local/FolderLocal.cpp:207-210 | the IN list matches exactly the listed ids |
| FolderLocal.FeedRanksIn | engine/src/local/FolderLocal.cpp:210 | the ranks hold exactly the feeds whose folder is listed |
| FolderLocal.FetchFeedIDs | engine/src/local/FolderLocal.cpp:197-221 | the feed ids are the feeds whose folder is on the walk |
| FolderLocal.FeedsInSubtree | engine/src/local/FolderLocal.cpp:197-221 | a feed is listed exactly when it is stored in the folder or below it, and none is listed twice |
| FolderLocal.SubtreeFeedsMembers | engine/src/local/FolderLocal.cpp:188-221 | the subtree's feed set holds exactly the feeds stored in the folder or below it |
| FolderLocal.MarkAllAsRead | engine/src/local/FolderLocal.cpp:152-164 | answers the subtree's feeds; no feeds changes nothing, otherwise exactly their posts become read |
| FolderLocal.SubtreeFeedIDs | engine/src/local/FolderLocal.cpp:154 | the subtree's feed set, read without changing anything |
| FolderLocal.MarkingNoFeeds | engine/src/local/FolderLocal.cpp:156-159 | marking an empty feed list read changes nothing |
| FolderLocal.MarkAllAsReadEffect | engine/src/local/FolderLocal.cpp:161 | a post becomes read exactly when its feed is one of the subtree's feeds; every other post is unchanged |
| FolderLocal.SubtreeFolderIDs | engine/src/local/FolderLocal.cpp:294 | the folders of the walk, read without changing anything |
| FolderLocal.PostsOfFeedsOutside | engine/src/local/FolderLocal.cpp:309-311 | the remaining posts are exactly those of other feeds, unchanged |
| FolderLocal.Remove | engine/src/local/FolderLocal.cpp:284-326 | an unknown folder changes nothing; otherwise the tables become Removed: subtree folders, their feeds and those feeds' posts gone, the parent's children resorted in the signed sortOrder order |
| FolderLocal.RemoveRows | engine/src/local/FolderLocal.cpp:303-324 | the statements after the id lookups produce Removed, whose resort ranks by signed sortOrder |
| FolderLocal.DeleteFeeds | engine/src/local/FolderLocal.cpp:303-317 | the feeds named and their posts go; with no feeds both tables stay |
| FolderLocal.NothingOutside | engine/src/local/FolderLocal.cpp:304 | deleting no feeds leaves feeds and posts as they are |
| FolderLocal.RemovedKeeps | engine/src/local/FolderLocal.cpp:284-326 | exactly the folders outside the subtree, the feeds stored outside it and the posts of those feeds remain, unchanged apart from the resorted siblings' sortOrders |
| FolderLocal.RemovedFolderGone | engine/src/local/FolderLocal.cpp:284-326 | the removed folder and the feeds stored in it are gone |
| FolderLocal.SiblingRanks | engine/src/local/FolderLocal.cpp:334 | the ranks hold exactly the children of the parent and order them by the signed 64-bit reading of their sortOrder, as SQLite does |
| FolderLocal.WithSortOrders | engine/src/local/FolderLocal.cpp:345-346 | the same folder ids; each folder named in the updates gets its new sortOrder, every other folder is unchanged |
| FolderLocal.Resort | engine/src/local/FolderLocal.cpp:328-349 | the folders table becomes Resorted: the parent's children, in SQLite's signed sortOrder order, numbered 10, 20, 30, ... |
| FolderLocal.Renumber | engine/src/local/FolderLocal.cpp:342-348 | the loop writes 10, 20, 30, ... under the ids in turn and changes nothing else |
| FolderLocal.RenumberStep | engine/src/local/FolderLocal.cpp:345-347 | one update of the loop extends the written numbers by the next position |
| FolderLocal.ResortedFrame | engine/src/local/FolderLocal.cpp:328-349 | resorting keeps the folder ids and writes only sortOrders, and only of the parent's children |
| FolderLocal.ResortedAt | engine/src/local/FolderLocal.cpp:334-348 | the child in position k of the parent's signed sortOrder order gets the number 10(k+1) |
| FolderLocal.Numbers | engine/src/local/FolderLocal.cpp:342-347 | the numbers handed to n folders include 10, 20, ..., 10n |
| FolderLocal.ResortedNumbers | engine/src/local/FolderLocal.cpp:328-349 | after resorting, the children's sortOrders are exactly 10, 20, ..., 10n |
| FolderLocal.ResortedKeepsOrder | engine/src/local/FolderLocal.cpp:328-349 | a child sorted before another (signed sortOrder, then id) still is after resorting, unless the numbers wrap around |
| FolderLocal.NextSortOrder | engine/src/local/FolderLocal.cpp:262-268 | 10 above the largest sortOrder among the children in SQLite's signed order, 10 with none, in 64-bit arithmetic |
| FolderLocal.NextSortOrderIsLast | engine/src/local/FolderLocal.cpp:262-268 | unless the signed sum overflows, the next sortOrder sorts after every child's in the signed order |
| Store.SignedLargest | engine/src/local/FolderLocal.cpp:266 | MAX(sortOrder): a value whose signed reading is at least every value's, one of the values when there are any, 0 for none |
| Store.SignedLargestOf | engine/src/local/FolderLocal.cpp:266 | the aggregate's loop computes SignedLargest |
| FolderLocal.Create | engine/src/local/FolderLocal.cpp:270-282 | the folders table becomes Created: a new row under the next row id with the next sortOrder (signed maximum plus 10), or no change when no id is left |
| FolderLocal.CreatedFolder | engine/src/local/FolderLocal.cpp:270-282 | the insert fails exactly when the largest id is taken; otherwise the folder gets an id above every id in use, the parent, the title and the next sortOrder (signed maximum plus 10), and every other folder stays |
| FolderLocal.Move | engine/src/local/FolderLocal.cpp:430-445 | an unknown folder changes nothing; otherwise the folders table becomes Moved (place, resort the old parent, and the new one when different, each in the signed sortOrder order) |
| FolderLocal.MovedKeys | engine/src/local/FolderLocal.cpp:430-445 | moving keeps every folder row |
| FolderLocal.MovedFolder | engine/src/local/FolderLocal.cpp:436 | the moved folder gets the new parent and keeps its title |
| FolderLocal.MovedOthers | engine/src/local/FolderLocal.cpp:430-445 | other folders change at most their sortOrder, and not at all outside the two parents concerned |
| FolderLocal.MoveAllowsCycle | engine/src/local/FolderLocal.cpp:430-445 | no acyclicity check: moving folder 1 below its own child 2 makes each the other's parent |
| FolderLocal.MovedFirstOfTwo | engine/src/local/FolderLocal.cpp:430-445 | of two children, the one moved within the parent to a sortOrder SQLite sorts before its sibling's ends with 10 and the sibling with 20 |
| FolderLocal.MoveToSignedMinimum | engine/src/local/FolderLocal.cpp:430-445 | folders a (10) and b (20): moving a to sortOrder 2^63, negative to SQLite, sorts it first, and the resort gives a 10 and b 20 |
| FolderLocal.NextSortOrderPassesNegative | engine/src/local/FolderLocal.cpp:262-268 | siblings at 10 and 2^63: the signed MAX is 10, so the next sortOrder is 20 |
| FolderLocal.FirstTitled | engine/src/local/FolderLocal.cpp:363-371 | the first child with that title, if any |
| FolderLocal.FirstTitledFirst | engine/src/local/FolderLocal.cpp:363-371 | the answer comes before every other child with that title |
| FolderLocal.FindLeast | engine/src/local/FolderLocal.cpp:363-371 | the lookup answers the child of the parent with that title and the least id, and nothing when there is none |
| FolderLocal.CreatedGrows | engine/src/local/FolderLocal.cpp:270-282 | create only adds a row, under an id above every id in use |
| FolderLocal.FindStable | engine/src/local/FolderLocal.cpp:363-371 | adding folders keeps every answer the lookup gave |
| FolderLocal.CreatedFound | engine/src/local/FolderLocal.cpp:387-390 | a folder created where the lookup found none is what it finds next |
| FolderLocal.WalkGrows | engine/src/local/FolderLocal.cpp:395-425 | walking a path of titles only adds folders |
| FolderLocal.LocatedStable | engine/src/local/FolderLocal.cpp:395-425 | adding folders keeps a located path located at the same folder |
| FolderLocal.WalkLocates | engine/src/local/FolderLocal.cpp:395-425 | after a successful walk its path of titles leads to the folder it answers |
| FolderLocal.LocatedWalk | engine/src/local/FolderLocal.cpp:395-425 | walking a path that already exists creates nothing and answers where it leads |
| FolderLocal.HierarchyPlaces | engine/src/local/FolderLocal.cpp:351-428 | createFolderHierarchy as intended only adds folders, answers a folder its path leads to, and an existing path is answered without change |
| FolderLocal.HierarchyIdempotent | engine/src/local/FolderLocal.cpp:351-428 | repeating a call that succeeded answers the same folder and creates nothing |
| FolderLocal.CreateFolderHierarchy | engine/src/local/FolderLocal.cpp:351-428 | the lookups and inserts leave the tables and answer Hierarchy describes |
| FolderLocal.SubfolderWithTitle | engine/src/local/FolderLocal.cpp:354-385 | the scan of the children finds what the lookup Find answers |
| FolderLocal.FirstImport | engine/src/local/FolderLocal.cpp:351-428 | on an empty table the path a/b makes folders 1 and 2, as written and as intended |
| FolderLocal.SecondImportAsWritten | engine/src/local/FolderLocal.cpp:373-390 | as written, the second import of a/b finds a but creates a second b, folder 3 |
| FolderLocal.HierarchyAsWrittenDuplicates | engine/src/local/FolderLocal.cpp:373-390 | as written, importing a/b twice leaves two folders b below a |
| FolderLocal.HierarchyReimport | engine/src/local/FolderLocal.cpp:351-428 | as intended, the second import of a/b answers folder 2 again and adds nothing |
| FolderLocal.HierarchyAsWrittenEmptyPath | engine/src/local/FolderLocal.cpp:395-407 | as written, a root call with no titles reads the id of a null folder; as intended it answers the root |
| FolderLocal.CreateAllUnderPlaces | engine/src/local/FolderLocal.cpp:373-390 | below a known folder the as-written walk only adds folders; with no titles it answers that folder, otherwise a new folder carrying the last title |
| FolderLocal.CreateAllBelow | engine/src/local/FolderLocal.cpp:395-425 | after a first folder titled with the first title, the rest of the as-written walk answers a folder carrying the last title, new unless it is that first folder and the first folder already existed |
| FolderLocal.RootAsWrittenPlaces | engine/src/local/FolderLocal.cpp:395-408 | a root call as written with at least one title only adds folders and answers a folder carrying the last title, a new one when there are two titles or more |
| FolderLocal.HierarchyAsWrittenPlaces | engine/src/local/FolderLocal.cpp:351-428 | createFolderHierarchy as written only adds folders and answers where EndsPath says (0 below an unknown parent, the start for no titles, else a folder carrying the last title); a root call with no titles throws; below a known parent with titles, or from the root with two titles or more, the answer is a new folder |
| FolderLocal.LocatedFirst | engine/src/local/FolderLocal.cpp:395-425 | a located path's first step is a child carrying its first title, and the rest of the path is located from there |
| FolderLocal.LocatedEnds | engine/src/local/FolderLocal.cpp:395-425 | a located path leads to a folder carrying its last title |
| FolderLocal.HierarchyEndsPath | engine/src/local/FolderLocal.cpp:351-428 | createFolderHierarchy as intended answers where EndsPath says |
| SourceLocal.FeedsOf | engine/src/local/SourceLocal.cpp:346-358 | the mentioned feed ids are exactly those some pair carries |
| SourceLocal.RemapFeedPostTuplesToMap | engine/src/local/SourceLocal.cpp:342-360 | the loop builds Remapped: each mentioned feed mapped to its post ids in input order |
| SourceLocal.PostsOfUnmentioned | engine/src/local/SourceLocal.cpp:346-358 | a feed no pair mentions gets no post ids |
| SourceLocal.PostsOfConcat | engine/src/local/SourceLocal.cpp:346-358 | the post ids of one stretch of pairs followed by another come in that order |
| SourceLocal.PostsOfCounts | engine/src/local/SourceLocal.cpp:346-358 | each post id occurs under its feed as often as its pair occurs in the input |
| SourceLocal.RemappedMeaning | engine/src/local/SourceLocal.cpp:342-360 | the map's keys are exactly the mentioned feeds, and each post id occurs under its feed as often as its pair occurs |
| SourceLocal.PostsOfMembers | engine/src/local/SourceLocal.cpp:346-358 | a post id is listed under a feed exactly when that pair occurs in the input |
| SourceLocal.Listed | engine/src/local/SourceLocal.cpp:256-264 | the posts acted on are exactly the stored posts paired with the feed they belong to |
| SourceLocal.InFeed | engine/src/local/SourceLocal.cpp:261-264 | the posts of the given ids that exist and belong to the feed |
| SourceLocal.ListedUnderAll | engine/src/local/SourceLocal.cpp:256-278 | visiting every group of the remapped pairs reaches exactly the listed posts |
| SourceLocal.WithIsReadTwice | engine/src/local/SourceLocal.cpp:256-278 | setting one read state on two sets of posts in turn equals setting it on their union, so the feed order of the map does not matter |
| SourceLocal.SetPostsReadStatus | engine/src/local/SourceLocal.cpp:254-279 | every listed post takes the read state; every other post is as it was |
| SourceLocal.ReadStatusOfFeed | engine/src/local/SourceLocal.cpp:261-276 | the inner loop sets the read state of exactly the feed's posts among the ids |
| SourceLocal.FlagIDs | engine/src/local/SourceLocal.cpp:294-305 | the flag ids touched are those of the given colours, Gray left out when flagging |
| SourceLocal.FlagRows | engine/src/local/SourceLocal.cpp:289-307 | the touched rows are exactly the listed posts paired with those flag ids |
| SourceLocal.SetPostsFlagStatus | engine/src/local/SourceLocal.cpp:281-310 | every touched flag row ends up once when flagging and not at all when unflagging; every other row keeps its count |
| SourceLocal.FlagStatusOfFeed | engine/src/local/SourceLocal.cpp:289-307 | the loop over one feed's post ids leaves each touched row of its posts once or never, the rest as before |
| SourceLocal.FlagStatusOfPost | engine/src/local/SourceLocal.cpp:294-305 | the loop over the colour set, in any order, leaves each of the post's touched rows once or never, the rest as before |
| SourceLocal.FlagStatusColors | engine/src/local/SourceLocal.cpp:281-310 | seen through a post, flagging adds the colours other than Gray to a listed post and unflagging removes them; other posts keep theirs |
| SourceLocal.MembershipRows | engine/src/local/SourceLocal.cpp:320-339 | the touched rows are exactly the script folder paired with the listed posts |
| SourceLocal.AssignPostsToScriptFolder | engine/src/local/SourceLocal.cpp:312-340 | nothing changes unless the script folder exists; otherwise each listed post is a member once (assigning) or never (unassigning), other rows keep their count |
| SourceLocal.MembershipOfFeed | engine/src/local/SourceLocal.cpp:323-338 | the loop over one feed's post ids leaves each of their memberships once or never, the rest as before |
| SourceLocal.MarkAsRead | engine/src/local/SourceLocal.cpp:242-252 | the posts the conditions select become read, nothing else changes |
| SourceLocal.MarkAsReadSelects | engine/src/local/SourceLocal.cpp:242-252 | the selected posts are those of any feed with an id up to the bound as signed 64-bit integers; the largest value selects every post; among ids up to 2^63-1 a bound up to 2^63-1 selects those up to it, and a bound from 2^63 to 2^64-2 selects none |
| SourceLocal.UnreadOf | engine/src/local/SourceLocal.cpp:369 | the unread posts of the feed |
| SourceLocal.UnreadFeeds | engine/src/local/SourceLocal.cpp:369 | the groups are exactly the feeds with an unread post |
| SourceLocal.GetUnreadCounts | engine/src/local/SourceLocal.cpp:362-378 | one entry per feed with unread posts, holding their number |
| SourceLocal.UnreadCountsPositive | engine/src/local/SourceLocal.cpp:362-378 | every count in the map is at least one |
| SourceLocal.UnreadSplits | engine/src/local/SourceLocal.cpp:362-378 | a feed's unread posts and the other feeds' unread posts are disjoint and make up all unread posts |
| SourceLocal.WithNoIDs | engine/src/local/SourceLocal.cpp:664-672 | joining no ids leaves an import result unchanged |
| SourceLocal.WithIDsTwice | engine/src/local/SourceLocal.cpp:664-672 | joining two id sets in turn joins their union |
| SourceLocal.IntendedPlaces | engine/src/local/FolderLocal.cpp:351-428 | the corrected createFolderHierarchy only adds folders, leaves them alone and answers 0 below an unknown parent, and answers the folder its path leads to |
| SourceLocal.AsWrittenPlaces | engine/src/local/FolderLocal.cpp:351-428 | createFolderHierarchy as written only adds folders, leaves them alone and answers 0 below an unknown parent, answers a folder carrying the path's last title, and throws on a root call with no titles |
| SourceLocal.ImportOPML | engine/src/local/SourceLocal.cpp:650-675 | a document the parser rejects imports nothing; otherwise the entries the OPML handler extracts are imported in order as ImportEntries describes, through the corrected createFolderHierarchy |
| SourceLocal.ImportEntry | engine/src/local/SourceLocal.cpp:664-672 | one entry through the corrected createFolderHierarchy: its folder path found or created, then a feed titled by its url added there; a failed feed insert is swallowed |
| SourceLocal.ImportOneGrows | engine/src/local/SourceLocal.cpp:664-672 | with either createFolderHierarchy, one entry only adds folders, and none below an unknown parent |
| SourceLocal.ImportOneKeepsFeeds | engine/src/local/SourceLocal.cpp:664-672 | one entry keeps every existing feed row |
| SourceLocal.ImportOneAdds | engine/src/local/SourceLocal.cpp:664-672 | with either createFolderHierarchy, the feed one entry adds is new, has its url as url and title, and lies where EndsPath says; as intended that is the folder the entry's path leads to; as written a top-level entry at the root throws and changes nothing |
| SourceLocal.AddedForStable | engine/src/local/SourceLocal.cpp:664-672 | a feed added for an entry stays so while the import goes on adding |
| SourceLocal.ImportGrows | engine/src/local/SourceLocal.cpp:650-675 | an import only adds folders |
| SourceLocal.ImportUnknownParent | engine/src/local/SourceLocal.cpp:650-675 | below an unknown parent an import leaves the folders as they were |
| SourceLocal.ImportKeepsFeeds | engine/src/local/SourceLocal.cpp:650-675 | an import keeps every existing feed row |
| SourceLocal.ImportAddsIDs | engine/src/local/SourceLocal.cpp:650-675 | every id an import returns is a new feed made for one of the entries, where AddedFor says |
| SourceLocal.ImportAdds | engine/src/local/SourceLocal.cpp:650-675 | with either createFolderHierarchy, an import leaves existing folders and feeds as they were, and every returned id is a new feed made for one of the entries, where EndsPath says and, as intended, in the folder its path leads to |
| SourceLocal.ImportTwiceUnderAB | engine/src/local/SourceLocal.cpp:664-672 | two feeds under a/b imported at the root of an empty table: as written they leave a second folder b below a, as intended a single one |
| SourceLocal.ImportTopLevelAtRoot | engine/src/local/SourceLocal.cpp:664-672 | a top-level entry imported at the root: as written the import throws and changes nothing, as intended its feed is filed at the root |
| AutoRefresh.DueFeeds | engine/src/AutoRefresh.cpp:48-79 | no more ids than feeds, and an id is listed exactly when a feed with that id has a readable last check more than its interval before now |
| AutoRefresh.LocalSources | engine/src/AutoRefresh.cpp:44 | exactly the sources of the local type |
| AutoRefresh.RequestsFor | engine/src/AutoRefresh.cpp:83-86 | one request per feed id, in order, all under the given source |
| AutoRefresh.Intended | engine/src/AutoRefresh.cpp:41-86 | a request is queued exactly for each source and each of that source's own due feeds |
| AutoRefresh.IntendedExactlyDue | engine/src/AutoRefresh.cpp:37-89 | with the list started afresh per source, a request is queued exactly for each due feed of each local source, under that source |
| AutoRefresh.AutoRefresh.DueFeedIDs | engine/src/AutoRefresh.cpp:48-79 | the inner loop collects the due feeds, skipping feeds whose last check does not parse |
| AutoRefresh.AutoRefresh.Enqueue | engine/src/AutoRefresh.cpp:83-86 | the queueing loop adds one request per listed id under the source |
| AutoRefresh.AutoRefresh.OnTimer | engine/src/AutoRefresh.cpp:37-89 | disabled, nothing is queued; enabled, the list declared before the source loop is queued again after every source |
| AutoRefresh.AutoRefresh.OnTimerPerSource | engine/src/AutoRefresh.cpp:37-89 | with the list declared inside the source loop, a tick queues the intended requests |
| AutoRefresh.AsWrittenCoversIntended | engine/src/AutoRefresh.cpp:41-86 | every intended request is queued as written too; the shared list only adds requests |
| AutoRefresh.AsWrittenRequeues | engine/src/AutoRefresh.cpp:41-86 | with two local sources where only the first has a due feed 10, as written feed 10 is queued under source 2 as well |
| DialogJumpToPage.PageToJumpTo | client-desktop/src/DialogJumpToPage.cpp:55-71 | text that is not a number, or is 0, gives page 1; a number above the page count gives the last page; any other number is the page |
| DialogJumpToPage.PageInRange | client-desktop/src/DialogJumpToPage.cpp:55-71 | with at least one page, the page jumped to lies between 1 and the page count |
| DialogJumpToPage.ResetTextJumpsToCurrentPage | client-desktop/src/DialogJumpToPage.cpp:43-71 | the current page that reset writes into the field enables the button and jumps back to that page |
| DialogJumpToPage.JumpEnabledMeaning | client-desktop/src/DialogJumpToPage.cpp:73-91 | the button is enabled exactly when the text is a decimal number that fits in 64 bits |
| DialogJumpToPage.ZeroJumpsToFirstPage | client-desktop/src/DialogJumpToPage.cpp:55-71 | "0" enables the button yet jumps to page 1 |

Some specification functions have no contract of their own. The rows named here state their properties:

- `FolderLocal.Walk`, `FolderLocal.Located` and `FolderLocal.Hierarchy`: `WalkGrows`, `WalkLocates`, `LocatedWalk`, `LocatedStable`, `LocatedFirst`, `LocatedEnds`, `HierarchyPlaces`, `HierarchyIdempotent`, `HierarchyEndsPath` and `CreateFolderHierarchy`.
- `FolderLocal.HierarchyAsWritten` and `FolderLocal.CreateAllUnder`: `CreateAllUnderPlaces`, `CreateAllBelow`, `RootAsWrittenPlaces`, `HierarchyAsWrittenPlaces`, `FirstImport`, `SecondImportAsWritten`, `HierarchyAsWrittenDuplicates` and `HierarchyAsWrittenEmptyPath`.
- `FeedLocal.IngestItem` and `FeedLocal.Ingest`: `IngestExisting`, `IngestNew`, `IngestStops`, `IngestItemExtends`, `IngestExtends`, `IngestConcat`, `IngestItemKeepsGuidsUnique` and `IngestKeepsGuidsUnique`.
- `FeedLocal.Differs`: `IsDifferent`, `EnclosuresIgnored`, `CategoriesComparedAsSet` and `RepeatedCategoryHidesChange`.
- `FeedLocal.RefreshOf`: `Refresh`, `RefreshParsed`, `RefreshKeepsFeeds`, `RefreshRecordsError` and `RefreshStoresItems`.
- `FeedParserJSON11.Items`, `FeedParserATOM10.EntryItem`, `FeedParserATOM10.Items`, `FeedParserRSS10.ItemOf` and `FeedParserRSS10.Items`: each parser's `ReadItems` and `ReadItem`/`ReadEntry` rows, plus `ItemsKeepIDs`, `EntryItemFields`, `EntryItemFailsOnDate`, `EntryItemsMeaning`, `GuidFromLink`, `GuidSourceNeverEmpty`, `MissingCreatorAndDate` and `ItemsMeaning`.
- `DialogJumpToPage.JumpEnabled`: `JumpEnabledMeaning`, `ResetTextJumpsToCurrentPage` and `ZeroJumpsToFirstPage`.
- `AutoRefresh.Due`: `DueFeeds`, `AutoRefresh.DueFeedIDs` and `IntendedExactlyDue`.
- The feed-level property reads are one call each: `FeedParserJSON11.Title` reads through `Json.GetString`, and `Guid`, `Link`, `Description` and `Language` through `OptionalString` (its row). `FeedParserATOM10.Guid`, `Title`, `Subtitle` and `Copyright` are the texts of the document element's `id`, `title`, `subtitle` and `rights` children. `FeedParserRSS10.Title`, `Link` and `Description` are the texts of the channel's children. The model states nothing further about these reads.

## Left out

- Network I/O is not modelled. This covers `Helpers::performHTTPRequest`, every HTTP method of the remote classes (`ScriptRemote::update` among them), the fetching in `FeedFetcher::parseURL` and the page download behind `FeedDiscovery`. A refresh receives what the fetch produced (`FeedLocal.Fetched`); discovery receives the downloaded page and what each parser makes of it.
- Concurrency is not modelled: the agents, the thread pool, the `AutoRefresh` timer and the mutex around `last_insert_rowid`. A timer tick is a method call given the sources, the current time and a date parser.
- Foreign engines are parameters: the Lua interpreter, the Poco XML (SAX and DOM) and JSON parsers, regular expressions, Poco date parsing and formatting, MD5, the UUID generator, Base64 and URI resolution. The model proves properties for every behaviour of these parameters, not for the real libraries, except that a Lua run is modelled without effects on the post it is given (see `FeedLocal.IngestNew` below).
- SourceLocal.ImportOPML, SourceLocal.ImportEntry: the methods call the corrected `createFolderHierarchy`. The import as written is stated by `ImportEntries` with `FolderLocal.HierarchyAsWritten` as its placer, and `ImportAdds`, `ImportTwiceUnderAB` and `ImportTopLevelAtRoot` cover it.
- FeedLocal.IngestNew, FeedLocal.IngestItemExtends, FeedLocal.IngestExtends, FeedLocal.RefreshStoresItems: a Lua script may act on the post it runs on through `LuaProxyPost` (`markAsRead`, `markAsUnread`, `flag`, `unflag`, `assignToScriptFolder`, `unassignFromScriptFolder`, engine/src/lua/LuaProxyPost.cpp:52-160). These effects are not modelled: a run only reports its error. The read-state and unread-new-post clauses therefore hold only for scripts without such effects.
- XML namespaces are not resolved. `dc:`, `content:` and `media:` elements are found under their conventional prefixes.
- The `xml:lang` read of the Atom parser's `language`, the RSS 1.0 `iconURL` (an `rdf:about` attribute reached by a namespace lookup) and the properties that only return "" are not modelled.
- SQL text construction and the schema are not modelled. The SQL is represented by its effect on the tables, and rows come back in the `ORDER BY` order the statement asks for.
- Ties under `ORDER BY` are broken by ascending id. SQLite leaves their order unspecified.
- A query without `ORDER BY` is read in ascending rowid order.
- `LIKE` wildcards are not modelled: a search filter matches when the title or content contains it, ignoring ASCII case, with `%` and `_` taken literally.
- The category filter of `FeedLocal::getPosts`, which joins `post_categories`, is left out because the category tables are not part of this model.
- A new row gets the largest id in use plus one, and the insert fails when that would pass the largest `UInt64`. SQLite's signed 63-bit limit and its random rowid search are not modelled.
- Folder walks are bounded by the number of folders, because a cycle made by `move` would make the source recurse forever. With a cycle, the walk stops where the source would not terminate.
- `PostLocal.cpp` in this model is an older revision than `FeedLocal.cpp`: its `create` and `update` write `description` and `enclosure` columns, while `FeedLocal` passes the fields of the newer `FeedParser::Item`. The model stores the newer item's fields (content, thumbnail, categories, enclosures) through the statements `PostLocal.cpp` shows.
- `ScriptFolderLocal` creation and its single-row and listing queries are left out. The create in that file takes only a title, while `SourceLocal` passes three arguments, so the two revisions cannot be reconciled from the sources at hand.
- `FeedLocal`'s icons, logs, statistics, thumbnails and `updateProperties` are left out.
- `removeIcon` and the `post_enclosures` delete of `FeedLocal::remove` are left out: those tables are not part of this model.
- `Flag.NameForFlagColor`, `Flag.FlagColorForName`: the name table lives in `Flag.h`, which is not part of this model. Lower-case English colour names are assumed.
- `std::unordered_set` and `std::unordered_map` iteration order is unspecified. Where the output depends on it (the events string, the feed-id string, the colour loops), the model either proves the property for every order or fixes ascending order and says so at the member.
- `Strings.TryParseUnsigned64` accepts exactly non-empty decimal digit strings below 2^64. The leniency of `Poco::NumberParser` (surrounding whitespace, a sign, thousands separators) is not modelled.
- `Json.GetString` and the other typed reads are strict: a value of another type is an error. Poco's conversions between JSON types are not modelled.
- `AutoRefresh.Due`: timestamps are unbounded integers of seconds, so the `Poco::DateTime` arithmetic and the 64-bit `Timespan` conversion are not modelled.
- `AutoRefresh.LocalSources`: the `getSources` query is modelled as a filter on the source type.
- The desktop client apart from the page clamp, the server, and the stale duplicate sources under `engine/src/` whose interfaces no longer match are not part of this model.

## Findings

| source | as written | input that shows it | evidently intended | confidence | as-written member | corrected member |
|---|---|---|---|---|---|---|
| engine/src/remote/FolderRemote.cpp:285 | the recursive decoder reads every nested folder's statistics from the root object `o` | a root with statistics "1" and a subfolder with statistics "2" decodes with "1" in the subfolder; a root without statistics and a subfolder with some dereferences a null object | each folder reads the statistics of its own JSON object | not executed | Folders.RootStatisticsCounterexample | Folders.DecodeEncodedFolder |
| engine/src/local/FolderLocal.cpp:376-384 | below the first level, the title lookup scans `parent->subfolders()`, which `querySingle` never fetched, so it always finds nothing; `importOPML` inherits this | importing the path a/b twice leaves two folders b below a | an existing child with that title is reused at every level | not executed | FolderLocal.HierarchyAsWrittenDuplicates | FolderLocal.HierarchyReimport |
| engine/src/local/FolderLocal.cpp:395-407 | a root-level call returns `currentParent->id()` after the loop, and `currentParent` is still null when the path is empty; `importOPML` inherits this for a top-level entry imported at the root | a root-level call with an empty path | an empty path answers the root | not executed | FolderLocal.HierarchyAsWrittenEmptyPath | FolderLocal.CreateFolderHierarchy |
| engine/src/local/SourceLocal.cpp:664-672 | each entry is placed by `createFolderHierarchy` as written, so the import inherits both defects above | two feeds under a/b imported at the root of an empty table make two folders b; a top-level entry imported at the root throws | each feed is filed in the folder its path leads to, a top-level one at the root | not executed | SourceLocal.ImportTwiceUnderAB | SourceLocal.ImportAdds |
| engine/src/AutoRefresh.cpp:41 | the due-feed list is declared once, outside the source loop, and queued again after every source | two local sources where only the first has a due feed, 10: feed 10 is queued under source 1 and again under source 2 | each source queues only its own due feeds | not executed | AutoRefresh.AsWrittenRequeues | AutoRefresh.AutoRefresh.OnTimerPerSource |
