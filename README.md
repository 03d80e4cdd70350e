# Media gallery item store, in Dafny

This project models the data core of a small single-page media gallery. Users add, edit and delete
media items (title, image, creation date, storage kind, optional location). The core has three parts:

- **`MediaModel`** owns the item list. Every change is pushed to a reactive store and written to a
  key-value backend as a snapshot, with each `added` date turned into an ISO-8601 string. On start-up it
  restores the snapshot, normalising old records: a missing storage type means `local`, and a remote
  record gets `remoteUrl`, falling back to `src`. If the snapshot is empty, missing or unreadable, or
  there is no backend, it installs sample items instead: one per chart, at most 30.
- **The sample-data generator** turns album-chart records into remote items. The chart list is
  fetched once and cached; if the fetch gives nothing usable, 30 placeholder charts are used.
- **The edit dialog's form logic**: the reset when the dialog opens or closes, deriving a title from
  a chosen file's name, and the guarded save with its error messages.

Modules, one per source concern:

| file | module | models |
|---|---|---|
| `wrappers.dfy` | `Wrappers` | `Option`, for optional values |
| `decimal.dfy` | `Decimal` | zero-padded decimal fields |
| `iso_dates.dfy` | `IsoDates` | `Date` values, `toISOString`, `new Date(string)`, with a proved round trip |
| `media_item.dfy` | `MediaItems` | the `MediaItem` record |
| `item_lists.dfy` | `ItemLists` | the list transformations of add / delete / update / find |
| `serialization.dfy` | `Serialization` | the stored record, `saveItems`' serialisation, load-time normalisation |
| `sample_data.dfy` | `SampleData` | charts, fallback charts, sample items, the chart cache (class `ChartCache`) |
| `media_model.dfy` | `Model` | class `MediaModel` |
| `text.dfy` | `Text` | `String.prototype.trim`, `replace(/\.[^.]+$/, "")` |
| `edit_dialog.dfy` | `EditDialog` | class `MediaEditDialog` and the pure outcome of `handleSave` |

How the environment is modelled:

- The key-value backend is the field `MediaModel.stored`. It holds what the backend has under `"items"`:
  nothing, a value that cannot be read as a list, or a list of records.
- `isServer` becomes the constant field `storage`. Whether a `setItem` call succeeds is the parameter
  `backendAccepts`.
- The reactive-store callback and each successful write go into one ordered log, `events`. This
  shows that every change publishes the whole new list before it saves.
- `createId()` becomes a function parameter: the k-th id drawn. `new Date()` is a `TimeValue`
  parameter, and so are the random sample dates.
- The response of `fetch` is a `FetchResult` parameter.
- Saving a dialog image (the upload stub or the File System Access API) is the oracle `ImageStore`.
  `URL.createObjectURL` is a string parameter. `onSave` calls go into the log `saves`.

A JavaScript `Date` is either `Valid(t)`, with t milliseconds from the epoch within ±8.64·10^15, or
`Invalid`. This matters: a stored record whose `added` text does not parse loads as an Invalid Date.
From then on, `toISOString` throws inside `saveItems` for every later save. The error is caught and
logged, so nothing is written until that item is deleted. `SaveWrites` states this as an
if-and-only-if. Date strings follow the Date Time String Format of ECMAScript 2024, section
21.4.1.32, on the proleptic Gregorian calendar. Years 0–9999 take four digits; other years take a sign
and six digits.

Three facts about the code that the model keeps:

- `addMediaItem` never sets `remoteUrl`, even for a remote item. Only `updateMediaItem` and loading set it.
- A local item can carry a `remoteUrl`. A local update keeps the old `remoteUrl` through the object
  spread, and a stored local record keeps its `remoteUrl` on load.
- `getItemById` returns the first match. `deleteMediaItem` removes every item with the id, and
  `updateMediaItem` patches every item with the id.

## Model

| member | source | states |
|---|---|---|
| `IsoDates.CivilFromDay` | src/components/media/MediaModel.ts:140 | the calendar date of a day number is a valid date that maps back to the same day number, and its year fits six digits for every day a Date can hold |
| `IsoDates.FieldsOf` | src/components/media/MediaModel.ts:140 | the UTC fields `toISOString` writes are in range (hour below 24) and together give back the time value, also before 1970 |
| `IsoDates.ToIsoString` | src/components/media/MediaModel.ts:140 | `added.toISOString()` is 24 characters long exactly when the UTC year is in 0–9999, and 27 otherwise |
| `IsoDates.ParseDate` | src/components/media/MediaModel.ts:51 | `new Date(text)` can be valid only for text of 24 or 27 characters with `T` before the time and a final `Z`; anything else is an Invalid Date |
| `IsoDates.IsoRoundTrip` | src/components/media/MediaModel.ts:51 | `new Date(d.toISOString())` is the same time value as `d`, for every valid date |
| `Decimal.ParsePad` | src/components/media/MediaModel.ts:140 | reading back a zero-padded decimal field gives the number |
| `ItemLists.NewItem` | src/components/media/MediaModel.ts:154-173 | the added item's title is never empty |
| `ItemLists.NewItemFields` | src/components/media/MediaModel.ts:154-173 | the title is `"New Item"` exactly when the given title is empty and is kept otherwise; src, storage type, location and id are as given, the date is `now`, and remoteUrl is unset |
| `ItemLists.AddKeepsUnique` | src/components/media/MediaModel.ts:175 | appending an item whose id is fresh keeps ids unique |
| `ItemLists.Without` | src/components/media/MediaModel.ts:181 | after a delete, an item is in the list exactly when it was there before and has a different id; the list does not grow |
| `ItemLists.WithoutAppend` | src/components/media/MediaModel.ts:181 | filtering distributes over concatenation, so kept items stay in their original order |
| `ItemLists.WithoutMissing` | src/components/media/MediaModel.ts:181 | deleting an id that is not in the list leaves it unchanged |
| `ItemLists.WithoutIdempotent` | src/components/media/MediaModel.ts:181 | deleting twice is the same as deleting once |
| `ItemLists.WithoutKeepsUnique` | src/components/media/MediaModel.ts:181 | a delete keeps ids unique |
| `ItemLists.Patched` | src/components/media/MediaModel.ts:196-213 | an update never changes an item's id or date, the item is remote exactly when the new storage type is, and a remote item's remoteUrl is its new image |
| `ItemLists.PatchedFields` | src/components/media/MediaModel.ts:196-213 | the updated item keeps its id and added date, takes the new title, image and storage type, keeps its old location unless a new one is given, gets remoteUrl = image when remote, and keeps its old remoteUrl when local |
| `ItemLists.Updated` | src/components/media/MediaModel.ts:193-214 | an update keeps the length and order; at each position the item is patched if its id matches and untouched otherwise |
| `ItemLists.UpdatedKeepsIds` | src/components/media/MediaModel.ts:193-214 | an update leaves the id sequence unchanged, so it keeps ids unique |
| `ItemLists.UpdatedMissing` | src/components/media/MediaModel.ts:193-214 | updating an id that is not in the list leaves it unchanged |
| `ItemLists.FindById` | src/components/media/MediaModel.ts:220-222 | find returns nothing exactly when no item has the id; otherwise it returns an item of the list with that id |
| `ItemLists.FindFirst` | src/components/media/MediaModel.ts:221 | find returns the item at the first index that has the id |
| `ItemLists.FindAfterAdd` | src/components/media/MediaModel.ts:154-175 | after adding an item with a fresh id, looking up that id finds the new item |
| `ItemLists.FindAfterDelete` | src/components/media/MediaModel.ts:181 | after deleting an id, looking it up finds nothing |
| `ItemLists.FindAfterUpdate` | src/components/media/MediaModel.ts:193-214 | after an update, looking up the id finds the patched form of the item found before |
| `ItemLists.ReplayKeepsUnique` | src/components/media/MediaModel.ts:148-218 | any sequence of adds, updates and deletes keeps ids unique if every add gets a fresh id |
| `Serialization.Serialize` | src/components/media/MediaModel.ts:138-141 | a record can be written exactly when its date is valid; otherwise `toISOString` throws |
| `Serialization.SerializeAll` | src/components/media/MediaModel.ts:135-147 | the snapshot exists exactly when every date is valid; then it has one record per item, in order |
| `Serialization.Deserialize` | src/components/media/MediaModel.ts:48-72 | a loaded record keeps its id, its date is the parsed `added` text, and a remote item always has a remoteUrl: the stored one or its src |
| `Serialization.DeserializeAll` | src/components/media/MediaModel.ts:48-72 | loading maps every stored record, one item per record, in order |
| `Serialization.DeserializeFields` | src/components/media/MediaModel.ts:48-72 | a loaded record keeps id, title, src and location and parses `added`; it is remote exactly when stored as `"remote"`; a missing type means local; a remote item gets remoteUrl = `remoteUrl` or else `src`; a local one keeps its remoteUrl |
| `Serialization.NormalizedIsNormal` | src/components/media/MediaModel.ts:61-66 | normalising gives normal form, leaves an already-normal item alone, and doing it twice is the same as once |
| `Serialization.RoundTrip` | src/components/media/MediaModel.ts:48-72 | saving an item with a valid date and loading it back gives the item, except that a remote item gains remoteUrl from src when it had none or an empty one |
| `Serialization.RoundTripAll` | src/components/media/MediaModel.ts:135-147 | the same for a whole list, item by item and in order |
| `Serialization.LoadedIsStable` | src/components/media/MediaModel.ts:48-72 | an item read from storage comes back unchanged from a further save and load |
| `SampleData.FallbackCharts` | src/utils/sampleData.ts:37-44 | exactly 30 charts, with positions 1..30 in order, placeholder images and no location |
| `SampleData.SampleCount` | src/utils/sampleData.ts:52-53 | the number of items is `min(count, charts)`, and none for a count of zero or less |
| `SampleData.SampleItems` | src/utils/sampleData.ts:50-64 | item i comes from chart i: the title is `artist - album`, src is the image or `""`, the item is remote with no remoteUrl, the location is copied and the id and date are the i-th drawn |
| `SampleData.SampleItemsUnique` | src/utils/sampleData.ts:56 | distinct drawn ids give a list with unique ids |
| `SampleData.LoadedCharts` | src/utils/sampleData.ts:14-35 | a set cache is what loading returns; without a cache the result is never empty |
| `SampleData.LoadedChartsCases` | src/utils/sampleData.ts:14-35 | a set cache is returned as it is; a failed fetch, a response that is not OK, a body that is not an array, or an empty array all give the fallback; a non-empty array is used; the result is never empty |
| `SampleData.FallbackGivesThirty` | src/utils/sampleData.ts:50-53 | with no cache and nothing usable fetched, the default call makes exactly 30 items |
| `SampleData.ChartCache.constructor` | src/utils/sampleData.ts:12 | the cache starts unset |
| `SampleData.ChartCache.LoadAlbumCharts` | src/utils/sampleData.ts:14-35 | returns the loaded charts and caches them; once set, the cache is returned without reloading; the cache never holds an empty list |
| `SampleData.ChartCache.GetAlbumChartsSync` | src/utils/sampleData.ts:46-48 | the cached charts when set, otherwise a fresh fallback list; never empty |
| `SampleData.ChartCache.GenerateSampleMediaItems` | src/utils/sampleData.ts:50-64 | loads the charts through the cache, then returns the sample items built from them (count defaults to 30) |
| `SampleData.ChartCache.GetAlbumCharts` | src/utils/sampleData.ts:79-81 | the same result and cache update as `LoadAlbumCharts` |
| `Model.SaveWrites` | src/components/media/MediaModel.ts:135-147 | a save writes exactly when there is a backend, it accepts the write and every date is valid; what it writes is the serialised list |
| `Model.SavedSnapshotLoadsBack` | src/components/media/MediaModel.ts:135-147 | whenever a save writes (a backend that accepts, and every date valid), the stored snapshot loads back as the items, normalised |
| `Model.MediaModel.constructor` | src/components/media/MediaModel.ts:20-23 | starts with the given items; nothing is published or written |
| `Model.MediaModel.Create` | src/components/media/MediaModel.ts:25-36 | a new model that has restored a non-empty snapshot (published, not saved), which leaves the chart cache as it was, or otherwise installed and published the sample batch, saved it when there is a backend that accepts, and cached the charts |
| `Model.MediaModel.GetItemById` | src/components/media/MediaModel.ts:220-222 | nothing exactly when no item has the id; otherwise an item of the list with that id |
| `Model.MediaModel.SaveItems` | src/components/media/MediaModel.ts:135-147 | the backend holds the serialised list after a successful write and is unchanged otherwise; any write is logged |
| `Model.MediaModel.UpdateReactiveStore` | src/components/media/MediaModel.ts:18 | the whole current list is published |
| `Model.MediaModel.InitStorage` | src/components/media/MediaModel.ts:38-85 | with a backend and a non-empty snapshot: the normalised records become the list, which is published and not saved. The chart cache is then unchanged. Otherwise (empty, absent, unreadable, or no backend): the sample batch of at most 30 items is installed and published, then saved when there is a backend that accepts, and the charts are cached |
| `Model.MediaModel.LoadInitialData` | src/components/media/MediaModel.ts:87-98 | installs the sample batch of count 30 (one item per chart, at most 30), publishes it, saves it when there is a backend that accepts, and caches the charts |
| `Model.MediaModel.LoadItems` | src/components/media/MediaModel.ts:99-134 | with a readable backend, the normalised stored list (empty if absent) replaces the list and is published; otherwise nothing changes |
| `Model.MediaModel.AddMediaItem` | src/components/media/MediaModel.ts:148-178 | appends exactly the new item and keeps the earlier ones in order; publishes before saving; with a fresh id the new item is found by id and ids stay unique |
| `Model.MediaModel.DeleteMediaItem` | src/components/media/MediaModel.ts:180-184 | the list becomes the filtered list; publishes before saving; the id is no longer found; ids stay unique |
| `Model.MediaModel.UpdateMediaItem` | src/components/media/MediaModel.ts:186-218 | the list becomes the patched list with the same ids; publishes before saving; a present id is found patched |
| `Text.LeadingSpace` | src/components/media/MediaEditDialog.tsx:103 | counts the whitespace prefix: everything before the count is whitespace, and the next character is not |
| `Text.TrailingSpace` | src/components/media/MediaEditDialog.tsx:103 | the same for the whitespace suffix |
| `Text.Trim` | src/components/media/MediaEditDialog.tsx:103 | the trimmed title is a substring of the title; it is empty exactly when the title is all whitespace; otherwise it starts and ends with a non-whitespace character, and everything before and after it in the title is whitespace |
| `Text.TrimIdempotent` | src/components/media/MediaEditDialog.tsx:103 | trimming twice is the same as trimming once |
| `Text.LastDot` | src/components/media/MediaEditDialog.tsx:58 | the index of the last dot, or -1 when there is none |
| `Text.StripExtension` | src/components/media/MediaEditDialog.tsx:58 | where `\.[^.]+$` matches at k (a dot followed by at least one non-dot up to the end), the result is the name before k; with no match, the name is unchanged |
| `EditDialog.SaveImageFileOutcome` | src/components/media/MediaEditDialog.tsx:71-100 | an error is set only when the result is empty; only a local save through the directory picker can throw |
| `EditDialog.HandleSaveOutcome` | src/components/media/MediaEditDialog.tsx:102-120 | a completed save passes the trimmed title and the form's storage type to onSave; a save is given up after the guard only when a file was chosen |
| `EditDialog.RejectedIffIncomplete` | src/components/media/MediaEditDialog.tsx:103-106 | save refuses exactly when the trimmed title is empty or there is neither a file nor a preview |
| `EditDialog.SavedCallFields` | src/components/media/MediaEditDialog.tsx:102-119 | on success onSave gets the trimmed, non-blank title, the form's storage type and a non-empty image: the preview without a file, else what saving the file returned |
| `EditDialog.FailedImageSaveAbandons` | src/components/media/MediaEditDialog.tsx:109-116 | with a file, an empty or throwing image save means onSave is not called |
| `EditDialog.UploadStubNeverSaves` | src/components/media/MediaEditDialog.tsx:64-75 | with the upload stub as written, a remote save of a chosen file never calls onSave |
| `EditDialog.TitleAfterFileChoice` | src/components/media/MediaEditDialog.tsx:57-60 | a blank title becomes the file name without its final extension; a non-blank title is kept |
| `EditDialog.MediaEditDialog.constructor` | src/components/media/MediaEditDialog.tsx:27-48 | the signals start empty and local, then the effect runs once against the initial props |
| `EditDialog.MediaEditDialog.RunEffect` | src/components/media/MediaEditDialog.tsx:35-48 | opening loads title, preview and storage type from the item (or `""`, `""`, local) and clears the file and error; closing clears preview, file and error and resets the storage type to local, but keeps the title |
| `EditDialog.MediaEditDialog.SetProps` | src/components/media/MediaEditDialog.tsx:35-48 | the effect re-runs when `isOpen` changes, or when the item changes while open; otherwise the form is unchanged |
| `EditDialog.MediaEditDialog.EditTitle` | src/components/media/MediaEditDialog.tsx:146 | the title field sets the title |
| `EditDialog.MediaEditDialog.ChooseStorageType` | src/components/media/MediaEditDialog.tsx:161-189 | the radio buttons, shown only in create mode, set the storage type |
| `EditDialog.MediaEditDialog.HandleFileChange` | src/components/media/MediaEditDialog.tsx:50-62 | the first chosen file becomes the image and the object URL the preview, and a blank title is derived from the file name; choosing no file changes nothing |
| `EditDialog.MediaEditDialog.SaveImageFile` | src/components/media/MediaEditDialog.tsx:71-100 | returns what the upload or the directory-picker write gives, and sets the upload or "not supported" error as the source does |
| `EditDialog.MediaEditDialog.HandleSave` | src/components/media/MediaEditDialog.tsx:102-120 | the error and the onSave log after a rejected, abandoned or completed save |
| `EditDialog.MediaEditDialog.HandleKeyDown` | src/components/media/MediaEditDialog.tsx:122-126 | Enter saves; any other key changes nothing |
| `EditDialog.MediaEditDialog.SaveDisabled` | src/components/media/MediaEditDialog.tsx:221 | the Save button is disabled exactly when handleSave would refuse, whatever the environment |
| `EditDialog.MediaEditDialog.DeleteDisabled` | src/components/media/MediaEditDialog.tsx:213 | the Delete button is enabled only in edit mode with an onDelete handler |

## Left out

- The backend's configuration call (`localforage.config`, store name "MediaApp"/"mediaItems") and the async/await interleaving of the fire-and-forget saves: every method is one atomic step, and storage is one snapshot value.
- Console logging on caught errors: it has no effect on state.
- `createId()`, `new Date()`, `Date.now()` and `Math.random()`: they are inputs (functions from draw index to value); the random date offset of sample items is therefore not computed.
- `generateRandomMediaItem`: it picks a chart with `Math.random`, and nothing in the core calls it.
- IsoDates.ParseDate: reads only the two UTC forms `toISOString` writes. Other inputs that `Date.parse` accepts read as Invalid Date: date-only forms, missing milliseconds, time-zone offsets, local-time forms and engine-specific formats. Out-of-range fields are rejected as the standard says, although some engines roll them over.
- SampleData.LoadedCharts: a fetched JSON array is taken to hold chart records; the source does not check the elements either, and malformed elements are not modelled.
- Model.MediaModel.constructor: the `initialItems || []` guard against null or undefined is not modelled; the declared type is an array.
- The reactive store receives the same array object as `_items`; the model records list values, so aliasing is not modelled.
- EditDialog.MediaEditDialog.SetProps: Solid re-runs the effect when the `item` prop changes identity; the model re-runs it when the item's value changes.
- JavaScript strings are UTF-16 code units and the model's are Unicode scalar values. Every character `trim` removes, and the `.` of the extension pattern, is a single code unit, so both behave the same.
- Location coordinates are opaque values; the model only copies them.
- The JSX, `URL.createObjectURL`, the File System Access API calls and the upload stub's timer: the oracle `ImageStore` stands in for them.
- The chart-scraping script (scripts/fetchAlbumCharts.ts), the zip script (scripts/createZip.ts), src/utils/storageUtils.ts, src/components/media/MediaController.tsx, the views and map components, and the build configuration are not part of this model. They are network, shell, UI and tooling code.
