/** The media record of src/types/MediaItem.ts. */
module MediaItems {
  import opened Wrappers
  import opened IsoDates

  datatype StorageType = Local | Remote

  /** A latitude/longitude pair; the model only copies it, so it does no arithmetic on it. */
  datatype Location = Location(lat: real, lng: real)

  /**
   * One gallery entry. `remoteUrl` is not in the declared type, but the source's object
   * spreads carry it along: stored remote records have it, and local ones may keep it.
   */
  datatype MediaItem = MediaItem(
    id: string,
    title: string,
    src: string,
    added: Date,
    storageType: StorageType,
    remoteUrl: Option<string>,
    location: Option<Location>)
}
