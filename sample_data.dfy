/**
 * Sample items from src/utils/sampleData.ts: album chart records become remote media
 * items. The chart list is fetched once and kept in a module-level cache; when the fetch
 * gives nothing usable, 30 placeholder charts are cached instead.
 *
 * `createId()` and the random `added` dates are inputs: `newId(k)` is the k-th id drawn and
 * `stamp(k)` the k-th date.
 */
module SampleData {
  import opened Wrappers
  import opened IsoDates
  import opened MediaItems
  import ItemLists

  datatype AlbumChart = AlbumChart(
    position: int,
    artist: string,
    album: string,
    image: Option<string>,
    location: Option<Location>)

  const DefaultCount: int := 30
  const FallbackCount: nat := 30
  const FallbackImagePrefix: string := "https://picsum.photos/300/300?random="

  /** The placeholder charts: positions 1..30, random artist, album and image ids, no location. */
  function FallbackCharts(newId: nat -> string): (r: seq<AlbumChart>)
    ensures |r| == FallbackCount
    ensures forall i :: 0 <= i < |r| ==>
      && r[i].position == i + 1
      && r[i].image == Some(FallbackImagePrefix + newId(3 * i + 2))
      && r[i].location.None?
  {
    seq(FallbackCount, i requires 0 <= i < FallbackCount =>
      AlbumChart(i + 1, newId(3 * i), newId(3 * i + 1), Some(FallbackImagePrefix + newId(3 * i + 2)), None))
  }

  /** `Math.min(count, charts.length)`, as an array length: a negative count makes no items. */
  function SampleCount(count: int, available: nat): (n: nat)
    ensures n <= available && (count >= 0 ==> n == if count < available then count else available)
    ensures count <= 0 ==> n == 0
  {
    if count <= 0 then 0 else if count < available then count else available
  }

  function ItemFromChart(chart: AlbumChart, id: string, added: TimeValue): MediaItem
  {
    MediaItem(id, chart.artist + " - " + chart.album, chart.image.GetOr(""), Valid(added), Remote, None, chart.location)
  }

  /** The items generateSampleMediaItems builds from a chart list, one per chart, in chart order. */
  function SampleItems(charts: seq<AlbumChart>, count: int, newId: nat -> string,
                       stamp: nat -> TimeValue): (r: seq<MediaItem>)
    ensures |r| == SampleCount(count, |charts|)
    ensures forall i :: 0 <= i < |r| ==>
      && r[i].id == newId(i)
      && r[i].title == charts[i].artist + " - " + charts[i].album
      && r[i].src == (if charts[i].image.Some? then charts[i].image.value else "")
      && r[i].added == Valid(stamp(i))
      && r[i].storageType == Remote && r[i].remoteUrl.None?
      && r[i].location == charts[i].location
  {
    seq(SampleCount(count, |charts|), i requires 0 <= i < SampleCount(count, |charts|) =>
      ItemFromChart(charts[i], newId(i), stamp(i)))
  }

  /** Distinct ids drawn for the items make a list the store's id invariant holds for. */
  lemma SampleItemsUnique(charts: seq<AlbumChart>, count: int, newId: nat -> string, stamp: nat -> TimeValue)
    requires forall i, j :: 0 <= i < j ==> newId(i) != newId(j)
    ensures ItemLists.UniqueIds(SampleItems(charts, count, newId, stamp))
  {
  }

  /** The response of `fetch("./data/albumCharts.json")` and its `json()` body. */
  datatype FetchResult =
    | Rejected                        // fetch or json() threw
    | NotOk                           // the response status was not OK
    | Body(json: Json)

  datatype Json = ChartArray(charts: seq<AlbumChart>) | NotAnArray

  /** The charts loadAlbumCharts returns (and caches): the cache when set, else a non-empty fetched array, else the fallback. */
  function LoadedCharts(cached: Option<seq<AlbumChart>>, fetched: FetchResult, newId: nat -> string): (r: seq<AlbumChart>)
    ensures cached.Some? ==> r == cached.value
    ensures cached.None? ==> |r| > 0
  {
    if cached.Some? then cached.value
    else if fetched.Body? && fetched.json.ChartArray? && |fetched.json.charts| > 0 then fetched.json.charts
    else FallbackCharts(newId)
  }

  lemma LoadedChartsCases(cached: Option<seq<AlbumChart>>, fetched: FetchResult, newId: nat -> string)
    requires cached.Some? ==> |cached.value| > 0
    ensures |LoadedCharts(cached, fetched, newId)| > 0
    ensures cached.Some? ==> LoadedCharts(cached, fetched, newId) == cached.value
    ensures cached.None? && (fetched.Rejected? || fetched.NotOk? || fetched == Body(NotAnArray) || fetched == Body(ChartArray([])))
            ==> LoadedCharts(cached, fetched, newId) == FallbackCharts(newId)
    ensures cached.None? && fetched.Body? && fetched.json.ChartArray? && |fetched.json.charts| > 0
            ==> LoadedCharts(cached, fetched, newId) == fetched.json.charts
  {
  }

  /** The module-level `cachedAlbumCharts`, with the functions that read and fill it. */
  class ChartCache {
    var cached: Option<seq<AlbumChart>>

    /** The cache only ever holds a non-empty list. */
    ghost predicate Valid()
      reads this
    {
      cached.Some? ==> |cached.value| > 0
    }

    constructor ()
      ensures Valid() && cached == None
    {
      cached := None;
    }

    /** loadAlbumCharts: serves the cache, else fetches, and caches what it returns. */
    method LoadAlbumCharts(fetched: FetchResult, newId: nat -> string) returns (charts: seq<AlbumChart>)
      requires Valid()
      modifies this
      ensures Valid()
      ensures charts == LoadedCharts(old(cached), fetched, newId) && cached == Some(charts)
      ensures old(cached).Some? ==> charts == old(cached).value
    {
      if cached.Some? {
        return cached.value;
      }
      if fetched.Body? && fetched.json.ChartArray? && |fetched.json.charts| > 0 {
        cached := Some(fetched.json.charts);
        return fetched.json.charts;
      }
      var fallback := FallbackCharts(newId);
      cached := Some(fallback);
      return fallback;
    }

    /** getAlbumChartsSync: the cache when set, else fresh fallback charts (which are not cached). */
    function GetAlbumChartsSync(newId: nat -> string): (r: seq<AlbumChart>)
      reads this
      requires Valid()
      ensures |r| > 0
      ensures cached.Some? ==> r == cached.value
      ensures cached.None? ==> r == FallbackCharts(newId)
    {
      if cached.Some? then cached.value else FallbackCharts(newId)
    }

    /** generateSampleMediaItems(count = 30). */
    method GenerateSampleMediaItems(fetched: FetchResult, chartId: nat -> string, itemId: nat -> string,
                                    stamp: nat -> TimeValue, count: int := DefaultCount)
      returns (items: seq<MediaItem>)
      requires Valid()
      modifies this
      ensures Valid()
      ensures cached == Some(LoadedCharts(old(cached), fetched, chartId))
      ensures items == SampleItems(LoadedCharts(old(cached), fetched, chartId), count, itemId, stamp)
    {
      var charts := LoadAlbumCharts(fetched, chartId);
      items := SampleItems(charts, count, itemId, stamp);
    }

    /** getAlbumCharts and preloadAlbumCharts: loadAlbumCharts by another name. */
    method GetAlbumCharts(fetched: FetchResult, newId: nat -> string) returns (charts: seq<AlbumChart>)
      requires Valid()
      modifies this
      ensures Valid()
      ensures charts == LoadedCharts(old(cached), fetched, newId) && cached == Some(charts)
    {
      charts := LoadAlbumCharts(fetched, newId);
    }
  }

  /** With an empty cache and nothing usable fetched, the default call makes 30 items. */
  lemma FallbackGivesThirty(fetched: FetchResult, chartId: nat -> string, itemId: nat -> string, stamp: nat -> TimeValue)
    requires !(fetched.Body? && fetched.json.ChartArray? && |fetched.json.charts| > 0)
    ensures |SampleItems(LoadedCharts(None, fetched, chartId), DefaultCount, itemId, stamp)| == 30
  {
  }
}
