/** The file-based content cache of github/cache.go. Every Cache value of the
    Go program points at the same directory under the temporary-files area,
    so the model has one `Cache` object standing for that directory; its
    files are keyed by the hex md5 of the URL, left abstract as `hash`. */
module ContentCache {
  import opened Base

  /** A cached file: its bytes and its modification time. */
  datatype Entry = Entry(content: bytes, modTime: int)

  /** The cache directory: whether it exists, and its files by name. */
  datatype Dir = Dir(present: bool, files: map<string, Entry>)

  /** How the file system answers during one call: whether os.Stat (other than
      "does not exist"), os.ReadFile and os.WriteFile succeed. */
  datatype Disk = Disk(statOk: bool, readOk: bool, writeOk: bool)

  /** The (content, found, err) triple returned by Get. */
  datatype Lookup = Hit(content: bytes) | Miss | Failed(error: Error)

  /** An entry is stale once it is strictly older than the TTL. */
  predicate Expired(e: Entry, now: int) {
    now - e.modTime > TTL
  }

  /** Get on the directory `d` for the file `key`, and the directory after it. */
  function GetSpec(d: Dir, key: string, now: int, disk: Disk): (Lookup, Dir)
  {
    if !d.present || key !in d.files then (Miss, d)
    else if !disk.statOk then (Failed(DiskFailure), d)
    else if Expired(d.files[key], now) then (Miss, d.(files := d.files - {key}))
    else if !disk.readOk then (Failed(DiskFailure), d)
    else (Hit(d.files[key].content), d)
  }

  /** Put: os.WriteFile succeeds only into an existing directory. */
  function PutSpec(d: Dir, key: string, content: bytes, now: int, disk: Disk): (Result<()>, Dir)
  {
    if d.present && disk.writeOk then (Ok(()), d.(files := d.files[key := Entry(content, now)]))
    else (Err(DiskFailure), d)
  }

  class Cache {
    /** md5 of the URL, hex-encoded. */
    const hash: string -> string
    var dir: Dir

    /** NewCache once its directory exists. The directory is the same fixed
        one on every run, so `files` are whatever earlier runs left in it. */
    constructor (hash: string -> string, files: map<string, Entry>)
      ensures this.hash == hash && dir == Dir(true, files)
    {
      this.hash := hash;
      dir := Dir(true, files);
    }

    /** getCacheKey: the file name for a URL, the same for every call. */
    function CacheKey(url: string): (key: string)
      ensures key == hash(url)
    {
      hash(url)
    }

    /** NewCache's os.MkdirAll: succeeds when the directory already exists, or
        when the file system lets it be created. */
    method Open(mkdirOk: bool) returns (ok: bool)
      modifies this
      ensures ok == (old(dir.present) || mkdirOk)
      ensures dir == old(dir).(present := ok)
    {
      ok := dir.present || mkdirOk;
      dir := dir.(present := ok);
    }

    method Get(url: string, now: int, disk: Disk) returns (r: Lookup)
      modifies this
      ensures (r, dir) == GetSpec(old(dir), CacheKey(url), now, disk)
    {
      var key := CacheKey(url);
      if !dir.present || key !in dir.files {
        return Miss;
      }
      if !disk.statOk {
        return Failed(DiskFailure);
      }
      if now - dir.files[key].modTime > TTL {
        dir := dir.(files := dir.files - {key});
        return Miss;
      }
      if !disk.readOk {
        return Failed(DiskFailure);
      }
      r := Hit(dir.files[key].content);
    }

    method Put(url: string, content: bytes, now: int, disk: Disk) returns (r: Result<()>)
      modifies this
      ensures (r, dir) == PutSpec(old(dir), CacheKey(url), content, now, disk)
    {
      var key := CacheKey(url);
      if !dir.present || !disk.writeOk {
        return Err(DiskFailure);
      }
      dir := dir.(files := dir.files[key := Entry(content, now)]);
      r := Ok(());
    }

    /** Clear: os.RemoveAll removes the directory with every file in it.
        When it fails (`removeOk` false) it may have removed some files
        already: those in `left` are the ones still there, and so is the
        directory. */
    method Clear(removeOk: bool, left: set<string>) returns (r: Result<()>)
      modifies this
      ensures removeOk ==> r == Ok(()) && dir == Dir(false, map[])
      ensures !removeOk ==> r == Err(DiskFailure)
      ensures !removeOk ==> dir == old(dir).(files := map k | k in old(dir.files) && k in left :: old(dir.files)[k])
    {
      if !removeOk {
        dir := dir.(files := map k | k in dir.files && k in left :: dir.files[k]);
        return Err(DiskFailure);
      }
      dir := Dir(false, map[]);
      r := Ok(());
    }
  }

  /** Get for a key with no file reports a miss, without error, and changes nothing. */
  lemma GetAbsent(d: Dir, key: string, now: int, disk: Disk)
    requires key !in d.files
    ensures GetSpec(d, key, now, disk) == (Miss, d)
  {
  }

  /** Get for a stale file reports a miss and removes exactly that file
      (when the file can be stat'ed). */
  lemma GetExpired(d: Dir, key: string, now: int, disk: Disk)
    requires d.present && key in d.files && disk.statOk && now - d.files[key].modTime > TTL
    ensures GetSpec(d, key, now, disk).0 == Miss
    ensures GetSpec(d, key, now, disk).1.files.Keys == d.files.Keys - {key}
  {
  }

  /** A file exactly TTL old is still served. */
  lemma GetAtTtlBoundary(d: Dir, key: string, now: int, disk: Disk)
    requires d.present && key in d.files && disk.statOk && disk.readOk
    requires now - d.files[key].modTime == TTL
    ensures GetSpec(d, key, now, disk) == (Hit(d.files[key].content), d)
  {
  }

  /** Get never changes any file but the one it looks up, and changes that one
      only by deleting it. */
  lemma GetOnlyDeletes(d: Dir, key: string, now: int, disk: Disk)
    ensures var d' := GetSpec(d, key, now, disk).1;
      d'.present == d.present && d'.files.Keys <= d.files.Keys &&
      (forall k :: k in d'.files ==> d'.files[k] == d.files[k]) &&
      (forall k :: k in d.files && k != key ==> k in d'.files)
  {
  }

  /** Put replaces the file for its key and leaves every other file as it was. */
  lemma PutOnlyThatKey(d: Dir, key: string, content: bytes, now: int, disk: Disk)
    requires d.present && disk.writeOk
    ensures var (r, d') := PutSpec(d, key, content, now, disk);
      r.Ok? && d'.files[key] == Entry(content, now) && d'.files.Keys == d.files.Keys + {key} &&
      forall k :: k in d.files && k != key ==> d'.files[k] == d.files[k]
  {
  }

  /** Round trip: what Put stores under a URL's key, Get for the same URL serves
      back for the 24 hours that follow. */
  lemma PutThenGet(d: Dir, hash: string -> string, url: string, content: bytes,
                   t: int, t': int, disk: Disk, disk': Disk)
    requires d.present && disk.writeOk && disk'.statOk && disk'.readOk
    requires t' - t <= TTL
    ensures var d1 := PutSpec(d, hash(url), content, t, disk).1;
      GetSpec(d1, hash(url), t', disk') == (Hit(content), d1)
  {
  }

  /** After Clear every Get misses and every Put fails, until Open recreates
      the directory. */
  lemma ClearedMisses(key: string, content: bytes, now: int, disk: Disk)
    ensures GetSpec(Dir(false, map[]), key, now, disk).0 == Miss
    ensures PutSpec(Dir(false, map[]), key, content, now, disk).0.Err?
  {
  }
}
