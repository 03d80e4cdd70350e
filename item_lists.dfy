/**
 * The list transformations that MediaModel's mutators apply to their item list:
 * append (addMediaItem), filter by id (deleteMediaItem), map by id (updateMediaItem)
 * and find by id (getItemById). Each is a pure function of the old list.
 */
module ItemLists {
  import opened Wrappers
  import opened IsoDates
  import opened MediaItems

  const DefaultTitle: string := "New Item"

  function Ids(s: seq<MediaItem>): (r: seq<string>)
    ensures |r| == |s| && forall i :: 0 <= i < |s| ==> r[i] == s[i].id
  {
    seq(|s|, i requires 0 <= i < |s| => s[i].id)
  }

  /** The invariant the store relies on: no two items share an id. */
  predicate UniqueIds(s: seq<MediaItem>)
  {
    forall i, j :: 0 <= i < j < |s| ==> s[i].id != s[j].id
  }

  // ------------------------------------------------------------------ add

  /** The record addMediaItem builds: an empty title becomes "New Item"; remoteUrl is never set. */
  function NewItem(id: string, title: string, imageSrc: string, storageType: StorageType,
                   now: TimeValue, location: Option<Location>): (r: MediaItem)
    ensures r.title != ""
  {
    MediaItem(id, if title == "" then DefaultTitle else title, imageSrc, Valid(now), storageType, None, location)
  }

  /** Every field of the added item: only an empty title is replaced, and remoteUrl stays unset. */
  lemma NewItemFields(id: string, title: string, imageSrc: string, storageType: StorageType,
                      now: TimeValue, location: Option<Location>)
    ensures var r := NewItem(id, title, imageSrc, storageType, now, location);
      && r.title == (if title == "" then DefaultTitle else title)
      && r.src == imageSrc && r.storageType == storageType && r.remoteUrl.None?
      && r.location == location && r.id == id && r.added == Valid(now)
  {
  }

  lemma {:induction false} AddKeepsUnique(s: seq<MediaItem>, item: MediaItem)
    requires UniqueIds(s) && item.id !in Ids(s)
    ensures UniqueIds(s + [item])
  {
    var t := s + [item];
    forall i, j | 0 <= i < j < |t| ensures t[i].id != t[j].id {
      if j == |s| {
        assert Ids(s)[i] == t[i].id;
      }
    }
  }

  // --------------------------------------------------------------- delete

  /** The items whose id differs from `id`, in their original order. */
  function Without(s: seq<MediaItem>, id: string): (r: seq<MediaItem>)
    ensures |r| <= |s|
    ensures forall x :: x in r <==> x in s && x.id != id
    decreases |s|
  {
    if s == [] then []
    else (if s[0].id == id then [] else [s[0]]) + Without(s[1..], id)
  }

  /** Filtering distributes over concatenation, so the kept items stay in their order. */
  lemma {:induction false} WithoutAppend(a: seq<MediaItem>, b: seq<MediaItem>, id: string)
    ensures Without(a + b, id) == Without(a, id) + Without(b, id)
    decreases |a|
  {
    if a == [] {
      assert a + b == b;
    } else {
      assert (a + b)[1..] == a[1..] + b;
      WithoutAppend(a[1..], b, id);
    }
  }

  lemma {:induction false} WithoutMissing(s: seq<MediaItem>, id: string)
    requires id !in Ids(s)
    ensures Without(s, id) == s
    decreases |s|
  {
    if s != [] {
      assert Ids(s)[0] == s[0].id;
      assert Ids(s[1..]) == Ids(s)[1..];
      WithoutMissing(s[1..], id);
    }
  }

  /** Deleting twice is deleting once. */
  lemma WithoutIdempotent(s: seq<MediaItem>, id: string)
    ensures Without(Without(s, id), id) == Without(s, id)
  {
    var r := Without(s, id);
    forall k | 0 <= k < |r| ensures Ids(r)[k] != id {
      assert r[k] in r;
    }
    WithoutMissing(r, id);
  }

  lemma {:induction false} WithoutKeepsUnique(s: seq<MediaItem>, id: string)
    requires UniqueIds(s)
    ensures UniqueIds(Without(s, id))
    decreases |s|
  {
    if s != [] {
      var rest := Without(s[1..], id);
      WithoutKeepsUnique(s[1..], id);
      if s[0].id != id {
        var r := [s[0]] + rest;
        forall i, j | 0 <= i < j < |r| ensures r[i].id != r[j].id {
          if i == 0 {
            assert r[j] in s[1..];
          }
        }
      }
    }
  }

  // --------------------------------------------------------------- update

  /**
   * The record updateMediaItem builds from a matching item: new title and image, the new
   * location if one is given, and for a remote item a remoteUrl equal to the image; a local
   * update keeps whatever remoteUrl the item had.
   */
  function Patched(item: MediaItem, title: string, imageSrc: string, storageType: StorageType,
                   location: Option<Location>): (r: MediaItem)
    ensures r.id == item.id && r.added == item.added && (r.storageType.Remote? <==> storageType.Remote?)
    ensures r.storageType.Remote? ==> r.remoteUrl == Some(r.src)
  {
    var base := item.(title := title, src := imageSrc, location := if location.Some? then location else item.location);
    if storageType == Remote then base.(storageType := Remote, remoteUrl := Some(imageSrc))
    else base.(storageType := Local)
  }

  lemma PatchedFields(item: MediaItem, title: string, imageSrc: string, storageType: StorageType,
                      location: Option<Location>)
    ensures var r := Patched(item, title, imageSrc, storageType, location);
      && r.id == item.id && r.added == item.added
      && r.title == title && r.src == imageSrc && r.storageType == storageType
      && r.location == (if location.Some? then location else item.location)
      && r.remoteUrl == (if storageType == Remote then Some(imageSrc) else item.remoteUrl)
  {
  }

  /** Every item with id `id` replaced by its patched form; all others untouched. */
  function Updated(s: seq<MediaItem>, id: string, title: string, imageSrc: string,
                   storageType: StorageType, location: Option<Location>): (r: seq<MediaItem>)
    ensures |r| == |s|
    ensures forall i :: 0 <= i < |s| ==>
      r[i] == if s[i].id == id then Patched(s[i], title, imageSrc, storageType, location) else s[i]
    decreases |s|
  {
    if s == [] then []
    else
      [if s[0].id == id then Patched(s[0], title, imageSrc, storageType, location) else s[0]]
      + Updated(s[1..], id, title, imageSrc, storageType, location)
  }

  lemma UpdatedKeepsIds(s: seq<MediaItem>, id: string, title: string, imageSrc: string,
                        storageType: StorageType, location: Option<Location>)
    ensures Ids(Updated(s, id, title, imageSrc, storageType, location)) == Ids(s)
    ensures UniqueIds(s) ==> UniqueIds(Updated(s, id, title, imageSrc, storageType, location))
  {
    var r := Updated(s, id, title, imageSrc, storageType, location);
    assert forall i :: 0 <= i < |s| ==> r[i].id == s[i].id;
  }

  lemma UpdatedMissing(s: seq<MediaItem>, id: string, title: string, imageSrc: string,
                       storageType: StorageType, location: Option<Location>)
    requires id !in Ids(s)
    ensures Updated(s, id, title, imageSrc, storageType, location) == s
  {
    forall i | 0 <= i < |s| ensures s[i].id != id {
      assert Ids(s)[i] == s[i].id;
    }
  }

  // ----------------------------------------------------------------- find

  /** The first item with id `id`, if any (JavaScript's `Array.prototype.find`). */
  function FindById(s: seq<MediaItem>, id: string): (r: Option<MediaItem>)
    ensures r.None? <==> id !in Ids(s)
    ensures r.Some? ==> r.value in s && r.value.id == id
    decreases |s|
  {
    if s == [] then None
    else if s[0].id == id then Some(s[0])
    else
      assert Ids(s) == [s[0].id] + Ids(s[1..]);
      FindById(s[1..], id)
  }

  /** What find returns is the item at the first index carrying the id. */
  lemma {:induction false} FindFirst(s: seq<MediaItem>, id: string, i: nat)
    requires i < |s| && s[i].id == id
    requires forall j :: 0 <= j < i ==> s[j].id != id
    ensures FindById(s, id) == Some(s[i])
    decreases i
  {
    if i > 0 {
      FindFirst(s[1..], id, i - 1);
    }
  }

  /** After an add with a fresh id, looking the id up finds the new item. */
  lemma FindAfterAdd(s: seq<MediaItem>, item: MediaItem)
    requires item.id !in Ids(s)
    ensures FindById(s + [item], item.id) == Some(item)
  {
    var t := s + [item];
    forall j | 0 <= j < |s| ensures t[j].id != item.id {
      assert Ids(s)[j] == s[j].id;
    }
    FindFirst(t, item.id, |s|);
  }

  /** After a delete, the id is no longer found. */
  lemma FindAfterDelete(s: seq<MediaItem>, id: string)
    ensures FindById(Without(s, id), id) == None
  {
    var r := Without(s, id);
    forall k | 0 <= k < |r| ensures Ids(r)[k] != id {
      assert r[k] in r;
    }
  }

  /** After an update, looking the id up finds the patched form of the item found before. */
  lemma {:induction false} FindAfterUpdate(s: seq<MediaItem>, id: string, title: string, imageSrc: string,
                                          storageType: StorageType, location: Option<Location>)
    requires FindById(s, id).Some?
    ensures FindById(Updated(s, id, title, imageSrc, storageType, location), id)
         == Some(Patched(FindById(s, id).value, title, imageSrc, storageType, location))
    decreases |s|
  {
    var r := Updated(s, id, title, imageSrc, storageType, location);
    if s[0].id == id {
      assert r[0] == Patched(s[0], title, imageSrc, storageType, location);
    } else {
      assert r[1..] == Updated(s[1..], id, title, imageSrc, storageType, location);
      FindAfterUpdate(s[1..], id, title, imageSrc, storageType, location);
    }
  }

  // ------------------------------------------------------ sequences of edits

  /** One call of a MediaModel mutator, with the id and time it is stamped with. */
  datatype Command =
    | Add(id: string, title: string, imageSrc: string, storageType: StorageType, now: TimeValue,
          location: Option<Location>)
    | Update(id: string, title: string, imageSrc: string, storageType: StorageType, location: Option<Location>)
    | Delete(id: string)

  function Apply(s: seq<MediaItem>, c: Command): seq<MediaItem>
  {
    match c
    case Add(id, title, imageSrc, storageType, now, location) =>
      s + [NewItem(id, title, imageSrc, storageType, now, location)]
    case Update(id, title, imageSrc, storageType, location) => Updated(s, id, title, imageSrc, storageType, location)
    case Delete(id) => Without(s, id)
  }

  /** The list after replaying `cmds` in order, starting from `s`. */
  function Replay(s: seq<MediaItem>, cmds: seq<Command>): seq<MediaItem>
    decreases |cmds|
  {
    if cmds == [] then s else Replay(Apply(s, cmds[0]), cmds[1..])
  }

  /** Every add in `cmds` is stamped with an id not in the list at the moment it runs. */
  predicate FreshAdds(s: seq<MediaItem>, cmds: seq<Command>)
    decreases |cmds|
  {
    cmds == [] || ((cmds[0].Add? ==> cmds[0].id !in Ids(s)) && FreshAdds(Apply(s, cmds[0]), cmds[1..]))
  }

  /** Whatever mix of adds, updates and deletes runs, ids stay unique as long as each add's id is fresh. */
  lemma {:induction false} ReplayKeepsUnique(s: seq<MediaItem>, cmds: seq<Command>)
    requires UniqueIds(s) && FreshAdds(s, cmds)
    ensures UniqueIds(Replay(s, cmds))
    decreases |cmds|
  {
    if cmds != [] {
      match cmds[0] {
        case Add(id, title, imageSrc, storageType, now, location) =>
          AddKeepsUnique(s, NewItem(id, title, imageSrc, storageType, now, location));
        case Update(id, title, imageSrc, storageType, location) =>
          UpdatedKeepsIds(s, id, title, imageSrc, storageType, location);
        case Delete(id) =>
          WithoutKeepsUnique(s, id);
      }
      ReplayKeepsUnique(Apply(s, cmds[0]), cmds[1..]);
    }
  }
}
