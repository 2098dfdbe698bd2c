/** What the handlers get back from the hosted backend. The calls themselves
    (storage upload, table writes, sign-up) are not modelled; each handler
    takes their outcomes as parameters and decides what to do with them. */
module Backend {

  /** A file picked in the browser: its name, MIME type and size in bytes. */
  datatype File = File(name: string, mime: string, size: nat)

  /** A storage upload followed by `getPublicUrl`. */
  datatype UploadOutcome = Stored(publicUrl: string) | UploadFailed(message: string)

  /** A table insert or update: done, or an error with its Postgres code. */
  datatype WriteOutcome = Written | WriteFailed(code: string, message: string)
}
