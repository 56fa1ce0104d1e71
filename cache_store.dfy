/**
 * The cache store of the caching proxy: the process-wide map from cache key
 * to captured response (`cache` in caching-proxy.js), together with the
 * state of the cache file `cache.json`.
 *
 * The file system and the JSON serialiser are not modelled: the file is the
 * ghost field `file`, and the results of reading and writing it are given
 * to the operations as outcomes.
 */
module CacheStore {

  /** Header names to values, compared as exact strings (no case folding). */
  type Headers = map<string, string>

  /** What is stored per key: the origin's headers and its whole body. No status code. */
  datatype CachedResponse = CachedResponse(headers: Headers, body: string)

  type Store = map<string, CachedResponse>

  /** The state of the cache file. */
  datatype FileImage =
    | NoFile              // the file does not exist
    | Damaged             // truncated by a write that then failed: empty or a strict prefix of the JSON text
    | Image(store: Store) // the JSON text of a whole store

  /** Result of reading and parsing the cache file. */
  datatype LoadOutcome =
    | Absent            // the file does not exist
    | ParseError        // the file exists but cannot be read or parsed
    | Parsed(image: Store)

  /**
   * Result of serialising and writing the cache file. Writing opens the file
   * for writing, which truncates it, so a failure before the file is opened
   * leaves it as it was, and a failure while writing leaves it damaged.
   */
  datatype SaveOutcome = SaveOk | FailBeforeWrite | FailDuringWrite

  /** A load outcome the file can produce: absence is seen exactly when there is no file, and a damaged file never parses. */
  predicate CanLoad(file: FileImage, outcome: LoadOutcome)
  {
    && (outcome.Absent? <==> file.NoFile?)
    && (file.Damaged? ==> outcome.ParseError?)
  }

  class Cache {
    /** The in-memory store, the single source of truth for hits and misses. */
    var entries: Store
    /** The cache file. */
    ghost var file: FileImage

    /** The process starts with an empty store, whatever the file holds. */
    constructor (ghost image: FileImage)
      ensures entries == map[] && file == image
    {
      entries := map[];
      file := image;
    }

    /**
     * Loading at start-up: a missing file is not an error, an unreadable one
     * is logged and leaves the store as it was, a parsed one replaces the
     * whole store. The file itself is not touched.
     */
    method Load(outcome: LoadOutcome)
      requires CanLoad(file, outcome)
      modifies this`entries
      ensures outcome.Parsed? ==> entries == outcome.image
      ensures !outcome.Parsed? ==> entries == old(entries)
      ensures file.NoFile? ==> entries == old(entries)
    {
      match outcome
      case Parsed(image) => entries := image;
      case _ =>
    }

    /**
     * Writing the whole store to the file. A failure is logged and nothing is
     * rolled back: the in-memory store never changes, whatever happens to the
     * file.
     */
    method Save(outcome: SaveOutcome)
      modifies this`file
      ensures outcome == SaveOk ==> file == Image(entries)
      ensures outcome == FailBeforeWrite ==> file == old(file)
      ensures outcome == FailDuringWrite ==> file == Damaged
    {
      match outcome
      case SaveOk => file := Image(entries);
      case FailBeforeWrite =>
      case FailDuringWrite => file := Damaged;
    }

    /**
     * The one-shot clear: the store becomes empty and the file is removed if
     * it exists. The resulting state does not depend on the state before, so
     * clearing twice is the same as clearing once.
     */
    method Clear()
      modifies this
      ensures entries == map[] && file == NoFile
    {
      entries := map[];
      if !file.NoFile? {
        file := NoFile;
      }
    }
  }
}
