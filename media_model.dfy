/**
 * MediaModel (src/components/media/MediaModel.ts): owns the item list, pushes every new
 * list to the reactive store, and writes a snapshot to the key-value backend under the key
 * "items". Each asynchronous method is modelled as one atomic step.
 *
 * The backend is the `stored` field (what it holds under "items", or that reading it
 * fails); `storage` is false where the source has no backend (`isServer`). Whether a
 * `setItem` call succeeds is a parameter, `backendAccepts`. The reactive-store callback and
 * the successful writes are recorded, in order, in `events`.
 */
module Model {
  import opened Wrappers
  import opened IsoDates
  import opened MediaItems
  import opened ItemLists
  import opened Serialization
  import SampleData

  const InitialSampleCount: int := 30

  /** What the backend holds under "items": nothing, a value that cannot be read as a list, or records. */
  datatype Snapshot = Absent | Unreadable | Stored(records: seq<SerializedMediaItem>)

  datatype Event =
    | Publish(items: seq<MediaItem>)               // _updateReactiveStore("items", items)
    | Write(records: seq<SerializedMediaItem>)     // a setItem("items", records) that succeeded

  /** The write saveItems makes, if any: none without a backend, when a date cannot be written, or when the backend refuses. */
  function SaveWrites(storage: bool, items: seq<MediaItem>, backendAccepts: bool): (w: seq<Event>)
    ensures |w| <= 1
    ensures |w| == 1 <==> storage && backendAccepts && AllDatesValid(items)
    ensures |w| == 1 ==> w[0] == Write(SerializeAll(items).value)
  {
    if storage && backendAccepts && SerializeAll(items).Some? then [Write(SerializeAll(items).value)] else []
  }

  /** The backend's content after saveItems. */
  function AfterSave(stored: Snapshot, storage: bool, items: seq<MediaItem>, backendAccepts: bool): Snapshot
  {
    if storage && backendAccepts && SerializeAll(items).Some? then Stored(SerializeAll(items).value) else stored
  }

  lemma SavedSnapshotLoadsBack(stored: Snapshot, storage: bool, items: seq<MediaItem>, backendAccepts: bool)
    requires storage && backendAccepts && AllDatesValid(items)
    ensures AfterSave(stored, storage, items, backendAccepts).Stored?
    ensures var back := DeserializeAll(AfterSave(stored, storage, items, backendAccepts).records);
      |back| == |items| && forall i :: 0 <= i < |items| ==> back[i] == Normalized(items[i])
  {
    RoundTripAll(items);
  }

  /** The list initStorage installs from a readable snapshot, if it is non-empty. */
  predicate RestoresFrom(stored: Snapshot)
  {
    stored.Stored? && |stored.records| > 0
  }

  class MediaModel {
    var items: seq<MediaItem>
    const storage: bool
    var stored: Snapshot
    var events: seq<Event>

    /** The private constructor: `initialItems` become the list; nothing is published or saved. */
    constructor (initialItems: seq<MediaItem>, storage: bool, stored: Snapshot)
      ensures this.items == initialItems && this.storage == storage && this.stored == stored && events == []
    {
      this.items := initialItems;
      this.storage := storage;
      this.stored := stored;
      this.events := [];
    }

    /** MediaModel.create: construct, then initialise from storage. */
    static method Create(initialItems: seq<MediaItem>, storage: bool, stored: Snapshot,
                         charts: SampleData.ChartCache, fetched: SampleData.FetchResult,
                         chartId: nat -> string, itemId: nat -> string, stamp: nat -> TimeValue,
                         backendAccepts: bool)
      returns (m: MediaModel)
      requires charts.Valid()
      modifies charts
      ensures fresh(m) && m.storage == storage && charts.Valid()
      ensures storage && RestoresFrom(stored) ==>
        && m.items == DeserializeAll(stored.records) && m.events == [Publish(m.items)] && m.stored == stored
        && charts.cached == old(charts.cached)
      ensures !(storage && RestoresFrom(stored)) ==>
        && m.items == SampleData.SampleItems(SampleData.LoadedCharts(old(charts.cached), fetched, chartId),
                                             InitialSampleCount, itemId, stamp)
        && m.events == [Publish(m.items)] + SaveWrites(storage, m.items, backendAccepts)
        && m.stored == AfterSave(stored, storage, m.items, backendAccepts)
        && charts.cached == Some(SampleData.LoadedCharts(old(charts.cached), fetched, chartId))
    {
      m := new MediaModel(initialItems, storage, stored);
      m.InitStorage(charts, fetched, chartId, itemId, stamp, backendAccepts);
    }

    /** getItemById: the first item with the given id. */
    function GetItemById(id: string): (r: Option<MediaItem>)
      reads this
      ensures r.None? <==> id !in Ids(items)
      ensures r.Some? ==> r.value in items && r.value.id == id
    {
      FindById(items, id)
    }

    method SaveItems(backendAccepts: bool)
      modifies this`stored, this`events
      ensures stored == AfterSave(old(stored), storage, items, backendAccepts)
      ensures events == old(events) + SaveWrites(storage, items, backendAccepts)
    {
      if storage {
        var records := SerializeAll(items);
        if records.Some? && backendAccepts {
          stored := Stored(records.value);
          events := events + [Write(records.value)];
        }
      }
    }

    /** _updateReactiveStore("items", items): hands the whole current list to the reactive store. */
    method UpdateReactiveStore()
      modifies this`events
      ensures events == old(events) + [Publish(items)]
    {
      events := events + [Publish(items)];
    }

    /** initStorage: restore a non-empty stored list; otherwise, or on a read error or without a backend, install samples. */
    method InitStorage(charts: SampleData.ChartCache, fetched: SampleData.FetchResult,
                       chartId: nat -> string, itemId: nat -> string, stamp: nat -> TimeValue,
                       backendAccepts: bool)
      requires charts.Valid()
      modifies this`items, this`stored, this`events, charts
      ensures charts.Valid()
      ensures storage && RestoresFrom(old(stored)) ==>
        && items == DeserializeAll(old(stored).records)
        && events == old(events) + [Publish(items)] && stored == old(stored)
        && charts.cached == old(charts.cached)
      ensures !(storage && RestoresFrom(old(stored))) ==>
        && items == SampleData.SampleItems(SampleData.LoadedCharts(old(charts.cached), fetched, chartId),
                                           InitialSampleCount, itemId, stamp)
        && events == old(events) + [Publish(items)] + SaveWrites(storage, items, backendAccepts)
        && stored == AfterSave(old(stored), storage, items, backendAccepts)
        && charts.cached == Some(SampleData.LoadedCharts(old(charts.cached), fetched, chartId))
    {
      if storage && stored.Stored? && |stored.records| > 0 {
        items := DeserializeAll(stored.records);
        UpdateReactiveStore();
      } else {
        // an absent or empty list, a failed read, or no backend at all
        LoadInitialData(charts, fetched, chartId, itemId, stamp, backendAccepts);
      }
    }

    /** loadInitialData: install 30 sample items, publish them, and save them when there is a backend. */
    method LoadInitialData(charts: SampleData.ChartCache, fetched: SampleData.FetchResult,
                           chartId: nat -> string, itemId: nat -> string, stamp: nat -> TimeValue,
                           backendAccepts: bool)
      requires charts.Valid()
      modifies this`items, this`stored, this`events, charts
      ensures charts.Valid()
      ensures charts.cached == Some(SampleData.LoadedCharts(old(charts.cached), fetched, chartId))
      ensures items == SampleData.SampleItems(SampleData.LoadedCharts(old(charts.cached), fetched, chartId),
                                              InitialSampleCount, itemId, stamp)
      ensures events == old(events) + [Publish(items)] + SaveWrites(storage, items, backendAccepts)
      ensures stored == AfterSave(old(stored), storage, items, backendAccepts)
    {
      items := charts.GenerateSampleMediaItems(fetched, chartId, itemId, stamp, InitialSampleCount);
      UpdateReactiveStore();
      if storage {
        SaveItems(backendAccepts);
      }
    }

    /** loadItems: replace the list by the stored one (an absent value reads as empty); a failed read changes nothing. */
    method LoadItems()
      modifies this`items, this`events
      ensures !storage || old(stored).Unreadable? ==> items == old(items) && events == old(events)
      ensures storage && !old(stored).Unreadable? ==>
        && items == (if stored.Stored? then DeserializeAll(stored.records) else [])
        && events == old(events) + [Publish(items)]
    {
      if storage && !stored.Unreadable? {
        items := if stored.Stored? then DeserializeAll(stored.records) else [];
        UpdateReactiveStore();
      }
    }

    /** addMediaItem: append one new item stamped with a fresh id and the current time. */
    method AddMediaItem(title: string, imageSrc: string, storageType: StorageType, location: Option<Location>,
                        id: string, now: TimeValue, backendAccepts: bool)
      modifies this`items, this`stored, this`events
      ensures items == old(items) + [NewItem(id, title, imageSrc, storageType, now, location)]
      ensures events == old(events) + [Publish(items)] + SaveWrites(storage, items, backendAccepts)
      ensures stored == AfterSave(old(stored), storage, items, backendAccepts)
      ensures id !in Ids(old(items)) ==> GetItemById(id) == Some(items[|items| - 1])
      ensures id !in Ids(old(items)) && UniqueIds(old(items)) ==> UniqueIds(items)
    {
      var item := NewItem(id, title, imageSrc, storageType, now, location);
      if id !in Ids(items) {
        FindAfterAdd(items, item);
        if UniqueIds(items) {
          AddKeepsUnique(items, item);
        }
      }
      items := items + [item];
      UpdateReactiveStore();
      SaveItems(backendAccepts);
    }

    /** deleteMediaItem: drop every item with the id. */
    method DeleteMediaItem(id: string, backendAccepts: bool)
      modifies this`items, this`stored, this`events
      ensures items == Without(old(items), id)
      ensures events == old(events) + [Publish(items)] + SaveWrites(storage, items, backendAccepts)
      ensures stored == AfterSave(old(stored), storage, items, backendAccepts)
      ensures GetItemById(id).None?
      ensures UniqueIds(old(items)) ==> UniqueIds(items)
    {
      FindAfterDelete(items, id);
      if UniqueIds(items) {
        WithoutKeepsUnique(items, id);
      }
      items := Without(items, id);
      UpdateReactiveStore();
      SaveItems(backendAccepts);
    }

    /** updateMediaItem: patch every item with the id, keeping its id and added date. */
    method UpdateMediaItem(id: string, title: string, imageSrc: string, storageType: StorageType,
                           location: Option<Location>, backendAccepts: bool)
      modifies this`items, this`stored, this`events
      ensures items == Updated(old(items), id, title, imageSrc, storageType, location)
      ensures events == old(events) + [Publish(items)] + SaveWrites(storage, items, backendAccepts)
      ensures stored == AfterSave(old(stored), storage, items, backendAccepts)
      ensures Ids(items) == Ids(old(items))
      ensures old(GetItemById(id)).Some? ==>
        GetItemById(id) == Some(Patched(old(GetItemById(id)).value, title, imageSrc, storageType, location))
    {
      UpdatedKeepsIds(items, id, title, imageSrc, storageType, location);
      if FindById(items, id).Some? {
        FindAfterUpdate(items, id, title, imageSrc, storageType, location);
      }
      items := Updated(items, id, title, imageSrc, storageType, location);
      UpdateReactiveStore();
      SaveItems(backendAccepts);
    }
  }
}
