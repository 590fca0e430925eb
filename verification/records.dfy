/** The persisted video record, reduced to the fields the upload handlers
    read or write. */
module Records {

  import opened Wrappers

  /** Identifiers (video and user UUIDs) compared by value. */
  type Uuid = nat

  /** A video record: its identity, its owner, and the two optional
      locations the handlers fill in. `videoUrl` holds a serialised storage
      locator while persisted and a signed URL once rendered for a client. */
  datatype Video = Video(
    id: Uuid,
    userId: Uuid,
    thumbnailUrl: Option<string>,
    videoUrl: Option<string>)
}
