/** The file-store collaborator interface (`fs.FileStore`): the sentinel
    "file not found" error and a snapshot of the answers a store gives. */
module Store {
  import opened Values

  /** `fs.ErrorFileNotFound`, recognised with `errors.Is`, or any other
      failure of the underlying storage. */
  datatype StoreError = FileNotFound | OtherError(msg: string)

  /** What a store answers, at one moment, to `GetObject(key)` and
      `DeleteObject(key)`. The HTTP handlers consult a store only through
      these answers. */
  datatype StoreView = StoreView(
    getObject: string -> Result<Bytes, StoreError>,
    deleteObject: string -> Result<(), StoreError>)
}
