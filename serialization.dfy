/**
 * The persisted snapshot of MediaModel: each item with its `added` date written as an
 * ISO-8601 string (saveItems), and the rule that reads a stored record back (initStorage,
 * loadItems): the date is parsed, a missing storage type means local, and a remote
 * record gets a remoteUrl, falling back to its src.
 */
module Serialization {
  import opened Wrappers
  import opened IsoDates
  import opened MediaItems

  /**
   * A stored record. `storageType` is whatever text the record holds under that key, or
   * None for records written before the field existed.
   */
  datatype SerializedMediaItem = SerializedMediaItem(
    id: string,
    title: string,
    src: string,
    added: string,
    storageType: Option<string>,
    remoteUrl: Option<string>,
    location: Option<Location>)

  function StorageTypeName(t: StorageType): string
  {
    match t
    case Local => "local"
    case Remote => "remote"
  }

  /** `{...item, added: item.added.toISOString()}`; None where toISOString throws (an Invalid Date). */
  function Serialize(item: MediaItem): (r: Option<SerializedMediaItem>)
    ensures r.Some? <==> item.added.Valid?
  {
    match item.added
    case Invalid => None
    case Valid(t) =>
      Some(SerializedMediaItem(item.id, item.title, item.src, ToIsoString(t),
                               Some(StorageTypeName(item.storageType)), item.remoteUrl, item.location))
  }

  predicate AllDatesValid(items: seq<MediaItem>)
  {
    forall i :: 0 <= i < |items| ==> items[i].added.Valid?
  }

  /** The whole snapshot, in list order; None when one item's date cannot be written, so the map throws. */
  function SerializeAll(items: seq<MediaItem>): (r: Option<seq<SerializedMediaItem>>)
    ensures r.Some? <==> AllDatesValid(items)
    ensures r.Some? ==> |r.value| == |items| && forall i :: 0 <= i < |items| ==> Some(r.value[i]) == Serialize(items[i])
  {
    if AllDatesValid(items) then Some(seq(|items|, i requires 0 <= i < |items| => Serialize(items[i]).value))
    else None
  }

  /** JavaScript's `a || b` on optional strings: `a` unless it is missing or empty. */
  function OrElse(a: Option<string>, b: string): string
  {
    if a.Some? && a.value != "" then a.value else b
  }

  /** The load-time normalisation of one stored record. */
  function Deserialize(rec: SerializedMediaItem): (r: MediaItem)
    ensures r.id == rec.id && r.added == ParseDate(rec.added)
    ensures r.storageType.Remote? ==> r.remoteUrl.Some? && (r.remoteUrl == rec.remoteUrl || r.remoteUrl == Some(rec.src))
  {
    var added := ParseDate(rec.added);
    if rec.storageType == Some("remote") then
      MediaItem(rec.id, rec.title, rec.src, added, Remote, Some(OrElse(rec.remoteUrl, rec.src)), rec.location)
    else
      // a missing or empty storage type, "local" and any other text all read as local
      MediaItem(rec.id, rec.title, rec.src, added, Local, rec.remoteUrl, rec.location)
  }

  function DeserializeAll(recs: seq<SerializedMediaItem>): (r: seq<MediaItem>)
    ensures |r| == |recs| && forall i :: 0 <= i < |recs| ==> r[i] == Deserialize(recs[i])
  {
    seq(|recs|, i requires 0 <= i < |recs| => Deserialize(recs[i]))
  }

  lemma DeserializeFields(rec: SerializedMediaItem)
    ensures var r := Deserialize(rec);
      && r.id == rec.id && r.title == rec.title && r.src == rec.src && r.location == rec.location
      && r.added == ParseDate(rec.added)
      && (r.storageType == Remote <==> rec.storageType == Some("remote"))
      && (rec.storageType.None? ==> r.storageType == Local)
      && (r.storageType == Remote ==> r.remoteUrl == Some(if rec.remoteUrl.Some? && rec.remoteUrl.value != "" then rec.remoteUrl.value else rec.src))
      && (r.storageType == Local ==> r.remoteUrl == rec.remoteUrl)
  {
  }

  /** What a save-then-load does to an item: a remote one gains a remoteUrl when it had none. */
  function Normalized(item: MediaItem): (r: MediaItem)
  {
    if item.storageType == Remote then item.(remoteUrl := Some(OrElse(item.remoteUrl, item.src))) else item
  }

  /** An item already in normal form: any remote item has a non-empty remoteUrl or an empty src. */
  predicate IsNormal(item: MediaItem)
  {
    item.storageType == Remote ==> item.remoteUrl == Some(OrElse(item.remoteUrl, item.src))
  }

  lemma NormalizedIsNormal(item: MediaItem)
    ensures IsNormal(Normalized(item))
    ensures IsNormal(item) <==> Normalized(item) == item
    ensures Normalized(Normalized(item)) == Normalized(item)
  {
  }

  /** Saving an item and reading it back gives the item, normalised. */
  lemma {:induction false} RoundTrip(item: MediaItem)
    requires item.added.Valid?
    ensures Deserialize(Serialize(item).value) == Normalized(item)
  {
    IsoRoundTrip(item.added.time);
  }

  lemma {:induction false} RoundTripAll(items: seq<MediaItem>)
    requires AllDatesValid(items)
    ensures var back := DeserializeAll(SerializeAll(items).value);
      |back| == |items| && forall i :: 0 <= i < |items| ==> back[i] == Normalized(items[i])
  {
    var recs := SerializeAll(items).value;
    forall i | 0 <= i < |items| ensures DeserializeAll(recs)[i] == Normalized(items[i]) {
      RoundTrip(items[i]);
    }
  }

  /** Whatever was read from storage survives further saves and loads unchanged. */
  lemma {:induction false} LoadedIsStable(rec: SerializedMediaItem)
    requires Deserialize(rec).added.Valid?
    ensures Deserialize(Serialize(Deserialize(rec)).value) == Deserialize(rec)
  {
    RoundTrip(Deserialize(rec));
  }
}
