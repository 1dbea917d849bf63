/** Common vocabulary of the model: bytes, optional values, results and the
    error kinds the Go code reports through its `error` return values. */
module Base {

  /** One byte of a Go `[]byte`. */
  newtype byte = x: int | 0 <= x < 256

  type bytes = seq<byte>

  datatype Option<+T> = None | Some(value: T)

  /** The reasons an operation of the core can fail. Go wraps most of these in
      `fmt.Errorf` messages; the model keeps the kind and the subject only. */
  datatype Error =
    | NotFound(name: string)                // embedded file absent
    | ParseFailed                           // YAML unmarshalling rejected the data
    | LocalSource                           // download requested for the "local" source
    | Transport(url: string)                // http.Get failed
    | HttpStatus(url: string, status: int)  // response status other than 200
    | BodyRead(url: string)                 // reading the response body failed
    | DiskFailure                           // a cache file could not be stat'ed, read, written or created
    | BranchesFailed(cause: Error)          // GetBranches failed
    | ReleasesFailed(cause: Error)          // GetReleases failed
    | NoDefaultRepo                         // the repository list has no first entry
    | NothingPreloaded                      // an action has scripts and none of them could be loaded

  datatype Result<+T> = Ok(value: T) | Err(error: Error)

  /** Time is counted in nanoseconds, as Go's time.Duration is. */
  const Second: int := 1_000_000_000
  const Hour: int := 3600 * Second

  /** The 24-hour lifetime shared by the file cache and the in-memory caches. */
  const TTL: int := 24 * Hour
}
