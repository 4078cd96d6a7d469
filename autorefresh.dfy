/**
 * `AutoRefresh::onTimer`: on every timer tick, queue a refresh of each
 * local feed whose next check is already past. The timer, the agent that
 * runs the refreshes and the callback are not modelled: a tick receives
 * the sources with their feeds, the current time, and the date parser
 * (which turns `lastChecked` into seconds since the epoch, or fails), and
 * returns the (source, feed) refresh requests in the order they are queued.
 */
module AutoRefresh {
  import opened Wrappers
  import opened Strings

  /** The type of the sources `getSources(IdentifierLocalServer)` selects. */
  const IdentifierLocalServer: string := "zapfeedreader.local"

  /** What `onTimer` reads of a feed. */
  datatype FeedInfo = FeedInfo(id: UInt64, lastChecked: string, refreshInterval: Option<UInt64>)

  /** A source with its feeds, as `getFeeds` returns them. */
  datatype SourceInfo = SourceInfo(id: UInt64, kind: string, feeds: seq<FeedInfo>)

  /** One `queueRefreshFeed(sourceID, feedID, …)` call. */
  datatype Request = Request(sourceID: UInt64, feedID: UInt64)

  /** The refresh interval of a feed: its own when it has one, else the global default. */
  function Interval(feed: FeedInfo, defaultInterval: UInt64): UInt64
  {
    if feed.refreshInterval.Some? then feed.refreshInterval.value else defaultInterval
  }

  /** A feed is due when its last check parses and lies more than its interval before now (strictly). */
  predicate Due(feed: FeedInfo, defaultInterval: UInt64, now: int, parseDate: string -> Option<int>)
  {
    parseDate(feed.lastChecked).Some? && parseDate(feed.lastChecked).value + Interval(feed, defaultInterval) < now
  }

  /** The ids of the due feeds, in order. */
  function DueFeeds(feeds: seq<FeedInfo>, defaultInterval: UInt64, now: int, parseDate: string -> Option<int>): (r: seq<UInt64>)
    ensures |r| <= |feeds|
    ensures forall id :: id in r <==> exists feed :: feed in feeds && feed.id == id && Due(feed, defaultInterval, now, parseDate)
  {
    if feeds == [] then []
    else
      var feed := feeds[|feeds| - 1];
      assert forall x :: x in feeds <==> x in feeds[..|feeds| - 1] || x == feed;
      DueFeeds(feeds[..|feeds| - 1], defaultInterval, now, parseDate) + if Due(feed, defaultInterval, now, parseDate) then [feed.id] else []
  }

  /** The local sources, in order. */
  function LocalSources(sources: seq<SourceInfo>): (r: seq<SourceInfo>)
    ensures forall s :: s in r <==> s in sources && s.kind == IdentifierLocalServer
  {
    if sources == [] then []
    else
      var s := sources[|sources| - 1];
      assert forall x :: x in sources <==> x in sources[..|sources| - 1] || x == s;
      LocalSources(sources[..|sources| - 1]) + if s.kind == IdentifierLocalServer then [s] else []
  }

  /** One request per feed id, all for the same source. */
  function RequestsFor(sourceID: UInt64, feedIDs: seq<UInt64>): (r: seq<Request>)
    ensures |r| == |feedIDs|
    ensures forall k :: 0 <= k < |r| ==> r[k] == Request(sourceID, feedIDs[k])
  {
    seq(|feedIDs|, k requires 0 <= k < |feedIDs| => Request(sourceID, feedIDs[k]))
  }

  // ---------------------------------------------------------------- as written

  /** The due list after the sources: one list for the whole tick, never cleared between sources. */
  function Pending(sources: seq<SourceInfo>, defaultInterval: UInt64, now: int, parseDate: string -> Option<int>): seq<UInt64>
  {
    if sources == [] then []
    else
      var s := sources[|sources| - 1];
      Pending(sources[..|sources| - 1], defaultInterval, now, parseDate) + DueFeeds(s.feeds, defaultInterval, now, parseDate)
  }

  /** The requests as written: after each source, every id in the shared due list is queued under that source. */
  function QueuedAsWritten(sources: seq<SourceInfo>, defaultInterval: UInt64, now: int, parseDate: string -> Option<int>): seq<Request>
  {
    if sources == [] then []
    else
      var s := sources[|sources| - 1];
      QueuedAsWritten(sources[..|sources| - 1], defaultInterval, now, parseDate)
        + RequestsFor(s.id, Pending(sources, defaultInterval, now, parseDate))
  }

  // ---------------------------------------------------------------- intended

  /** The requests intended: each source queues exactly its own due feeds. */
  function Intended(sources: seq<SourceInfo>, defaultInterval: UInt64, now: int, parseDate: string -> Option<int>): (r: seq<Request>)
    ensures forall q :: q in r <==> exists s :: s in sources && q.sourceID == s.id && q.feedID in DueFeeds(s.feeds, defaultInterval, now, parseDate)
  {
    if sources == [] then []
    else
      var s := sources[|sources| - 1];
      assert forall x :: x in sources <==> x in sources[..|sources| - 1] || x == s;
      Intended(sources[..|sources| - 1], defaultInterval, now, parseDate) + RequestsFor(s.id, DueFeeds(s.feeds, defaultInterval, now, parseDate))
  }

  /** Something is queued exactly for each due feed of each local source, under that source. */
  lemma IntendedExactlyDue(sources: seq<SourceInfo>, defaultInterval: UInt64, now: int, parseDate: string -> Option<int>, q: Request)
    ensures q in Intended(LocalSources(sources), defaultInterval, now, parseDate) <==>
      exists s, feed :: s in sources && s.kind == IdentifierLocalServer && q.sourceID == s.id
        && feed in s.feeds && feed.id == q.feedID && Due(feed, defaultInterval, now, parseDate)
  {
  }

  class AutoRefresh {
    var enabled: bool
    var feedRefreshIntervalInSeconds: UInt64

    constructor (enabled: bool, feedRefreshIntervalInSeconds: UInt64)
      ensures this.enabled == enabled && this.feedRefreshIntervalInSeconds == feedRefreshIntervalInSeconds
    {
      this.enabled := enabled;
      this.feedRefreshIntervalInSeconds := feedRefreshIntervalInSeconds;
    }

    /** The due feeds of one source: the inner loop, skipping feeds whose last check does not parse. */
    method DueFeedIDs(feeds: seq<FeedInfo>, now: int, parseDate: string -> Option<int>) returns (due: seq<UInt64>)
      ensures due == DueFeeds(feeds, feedRefreshIntervalInSeconds, now, parseDate)
    {
      due := [];
      for j := 0 to |feeds|
        invariant due == DueFeeds(feeds[..j], feedRefreshIntervalInSeconds, now, parseDate)
      {
        assert feeds[..j + 1][..j] == feeds[..j];
        var feed := feeds[j];
        var lastChecked := parseDate(feed.lastChecked);
        if lastChecked.None? {
          continue;
        }
        var interval: UInt64;
        if feed.refreshInterval.Some? {
          interval := feed.refreshInterval.value;
        } else {
          interval := feedRefreshIntervalInSeconds;
        }
        if lastChecked.value + interval < now {
          due := due + [feed.id];
        }
      }
      assert feeds[..|feeds|] == feeds;
    }

    /** The queueing loop: one request per due feed id, under the given source. */
    method Enqueue(queued: seq<Request>, sourceID: UInt64, feedIDs: seq<UInt64>) returns (r: seq<Request>)
      ensures r == queued + RequestsFor(sourceID, feedIDs)
    {
      r := queued;
      for k := 0 to |feedIDs|
        invariant r == queued + RequestsFor(sourceID, feedIDs[..k])
      {
        assert RequestsFor(sourceID, feedIDs[..k + 1]) == RequestsFor(sourceID, feedIDs[..k]) + [Request(sourceID, feedIDs[k])];
        r := r + [Request(sourceID, feedIDs[k])];
      }
      assert feedIDs[..|feedIDs|] == feedIDs;
    }

    /** `onTimer` as written: the due list lives outside the source loop. */
    method OnTimer(sources: seq<SourceInfo>, now: int, parseDate: string -> Option<int>) returns (queued: seq<Request>)
      ensures !enabled ==> queued == []
      ensures enabled ==> queued == QueuedAsWritten(LocalSources(sources), feedRefreshIntervalInSeconds, now, parseDate)
    {
      queued := [];
      if !enabled {
        return;
      }
      var feedIDsToRefresh: seq<UInt64> := [];
      var local := LocalSources(sources);
      for i := 0 to |local|
        invariant feedIDsToRefresh == Pending(local[..i], feedRefreshIntervalInSeconds, now, parseDate)
        invariant queued == QueuedAsWritten(local[..i], feedRefreshIntervalInSeconds, now, parseDate)
      {
        assert local[..i + 1][..i] == local[..i];
        var source := local[i];
        var due := DueFeedIDs(source.feeds, now, parseDate);
        feedIDsToRefresh := feedIDsToRefresh + due;
        queued := Enqueue(queued, source.id, feedIDsToRefresh);
      }
      assert local[..|local|] == local;
    }

    /** `onTimer` with the due list started afresh for every source. */
    method OnTimerPerSource(sources: seq<SourceInfo>, now: int, parseDate: string -> Option<int>) returns (queued: seq<Request>)
      ensures !enabled ==> queued == []
      ensures enabled ==> queued == Intended(LocalSources(sources), feedRefreshIntervalInSeconds, now, parseDate)
    {
      queued := [];
      if !enabled {
        return;
      }
      var local := LocalSources(sources);
      for i := 0 to |local|
        invariant queued == Intended(local[..i], feedRefreshIntervalInSeconds, now, parseDate)
      {
        assert local[..i + 1][..i] == local[..i];
        var source := local[i];
        var feedIDsToRefresh := DueFeedIDs(source.feeds, now, parseDate);
        queued := Enqueue(queued, source.id, feedIDsToRefresh);
      }
      assert local[..|local|] == local;
    }
  }

  // ---------------------------------------------------------------- the discrepancy

  /** Everything intended is queued as written too: the shared list only adds requests. */
  lemma {:induction false} AsWrittenCoversIntended(sources: seq<SourceInfo>, defaultInterval: UInt64, now: int, parseDate: string -> Option<int>)
    ensures forall q :: q in Intended(sources, defaultInterval, now, parseDate) ==> q in QueuedAsWritten(sources, defaultInterval, now, parseDate)
    decreases |sources|
  {
    if sources != [] {
      var init := sources[..|sources| - 1];
      var s := sources[|sources| - 1];
      AsWrittenCoversIntended(init, defaultInterval, now, parseDate);
      var own := DueFeeds(s.feeds, defaultInterval, now, parseDate);
      var pending := Pending(sources, defaultInterval, now, parseDate);
      assert pending == Pending(init, defaultInterval, now, parseDate) + own;
      forall q | q in RequestsFor(s.id, own)
        ensures q in RequestsFor(s.id, pending)
      {
        var k :| 0 <= k < |own| && q == RequestsFor(s.id, own)[k];
        assert q == RequestsFor(s.id, pending)[|Pending(init, defaultInterval, now, parseDate)| + k];
      }
    }
  }

  /** The due feeds of the example: feed 10 alone, and no feed of the empty source. */
  lemma ExampleDue(parseDate: string -> Option<int>)
    requires parseDate("2023-01-01T00:00:00Z") == Some(0)
    ensures DueFeeds([FeedInfo(10, "2023-01-01T00:00:00Z", None)], 60, 1000, parseDate) == [10]
  {
    var feed := FeedInfo(10, "2023-01-01T00:00:00Z", None);
    assert Due(feed, 60, 1000, parseDate);
    assert [feed][..0] == [];
  }

  /** The two sources of the example: one with feed 10, one with no feeds. */
  function ExampleSources(): seq<SourceInfo>
  {
    [SourceInfo(1, IdentifierLocalServer, [FeedInfo(10, "2023-01-01T00:00:00Z", None)]), SourceInfo(2, IdentifierLocalServer, [])]
  }

  /** The shared due list of the example holds feed 10 after the first source and after both. */
  lemma ExamplePending(parseDate: string -> Option<int>)
    requires parseDate("2023-01-01T00:00:00Z") == Some(0)
    ensures Pending(ExampleSources()[..1], 60, 1000, parseDate) == [10]
    ensures Pending(ExampleSources(), 60, 1000, parseDate) == [10]
  {
    var sources := ExampleSources();
    ExampleDue(parseDate);
    assert sources[..1][..0] == [];
    assert Pending(sources[..1], 60, 1000, parseDate) == Pending([], 60, 1000, parseDate) + DueFeeds(sources[0].feeds, 60, 1000, parseDate);
    assert sources[..|sources| - 1] == sources[..1];
    assert Pending(sources, 60, 1000, parseDate) == Pending(sources[..1], 60, 1000, parseDate) + DueFeeds([], 60, 1000, parseDate);
  }

  /**
   * Two local sources, the first with one due feed (id 10), the second
   * with none: as written, feed 10 is queued a second time under source 2,
   * which it does not belong to.
   */
  lemma AsWrittenRequeues(parseDate: string -> Option<int>)
    requires parseDate("2023-01-01T00:00:00Z") == Some(0)
    ensures QueuedAsWritten(ExampleSources(), 60, 1000, parseDate) == [Request(1, 10), Request(2, 10)]
    ensures Intended(ExampleSources(), 60, 1000, parseDate) == [Request(1, 10)]
  {
    var sources := ExampleSources();
    ExampleDue(parseDate);
    ExamplePending(parseDate);
    assert sources[..1][..0] == [];
    assert sources[..|sources| - 1] == sources[..1];
    assert RequestsFor(1, [10]) == [Request(1, 10)];
    assert RequestsFor(2, [10]) == [Request(2, 10)];
    assert QueuedAsWritten(sources[..1], 60, 1000, parseDate) == RequestsFor(1, [10]);
    assert Intended(sources[..1], 60, 1000, parseDate) == RequestsFor(1, [10]);
  }
}
