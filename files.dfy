/** A file as the dialogs see it: its name, its MIME type and its size in
    bytes. The contents are never read. */
module Files {
  datatype FileInfo = FileInfo(name: string, mimeType: string, size: nat)

  /** The upload limit of both post dialogs and the batch upload: 10 MiB. */
  const TenMiB: nat := 10 * 1024 * 1024
}
