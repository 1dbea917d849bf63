/** The raw-content downloader of github/downloader.go: cache first, then the
    network, then a best-effort write back into the cache. */
module Downloader {
  import opened Base
  import opened Strings
  import opened ContentCache
  import opened GitHubClient

  /** What http.Get and io.ReadAll give back for a URL: a transport failure,
      or a status and a body that could be read (Some) or not (None). */
  datatype HttpReply = TransportFailure | Response(status: int, body: Option<bytes>)

  /** The network, left abstract: its answer for each URL. */
  type Web = string -> HttpReply

  /** The environment of one download: the clock, the file system's answers
      and the network. */
  datatype Env = Env(now: nat, disk: Disk, web: Web)

  const RawBase: string := "https://raw.githubusercontent.com/"
  const ScriptRoot: string := "config/"
  const ConfigFile: string := "config/actions.yaml"

  /** The raw-content URL of a file of a repository at a revision. */
  function RawUrl(owner: string, name: string, branch: string, path: string): string {
    RawBase + owner + "/" + name + "/" + branch + "/" + path
  }

  /** DownloadScript's normalisation: one leading "config/" is dropped and
      "config/" is put back. */
  function ScriptPath(p: string): string {
    ScriptRoot + TrimPrefix(p, ScriptRoot)
  }

  /** The network half of DownloadFile. */
  function Fetch(url: string, web: Web): Result<bytes> {
    match web(url)
    case TransportFailure => Err(Transport(url))
    case Response(status, body) =>
      if status != 200 then Err(HttpStatus(url, status))
      else if body.None? then Err(BodyRead(url))
      else Ok(body.value)
  }

  /** DownloadFile for the repository owner/name, on the cache directory `d`
      whose keys come from `hash`: the result and the directory after it. */
  function DownloadSpec(d: Dir, hash: string -> string, owner: string, name: string,
                        branch: string, path: string, env: Env): (Result<bytes>, Dir)
  {
    if branch == "local" then (Err(LocalSource), d)
    else
      var url := RawUrl(owner, name, branch, path);
      var (look, d1) := GetSpec(d, hash(url), env.now, env.disk);
      if look.Hit? then (Ok(look.content), d1)
      else
        match Fetch(url, env.web)
        case Err(e) => (Err(e), d1)
        case Ok(content) => (Ok(content), PutSpec(d1, hash(url), content, env.now, env.disk).1)
  }

  class Downloader {
    const client: Client
    const cache: Cache

    constructor (client: Client, cache: Cache)
      ensures this.client == client && this.cache == cache
    {
      this.client := client;
      this.cache := cache;
    }

    method DownloadFile(branch: string, filePath: string, env: Env) returns (r: Result<bytes>)
      modifies cache
      ensures (r, cache.dir) == DownloadSpec(old(cache.dir), cache.hash, client.owner, client.name, branch, filePath, env)
    {
      if branch == "local" {
        return Err(LocalSource);
      }
      var url := RawUrl(client.owner, client.name, branch, filePath);
      var look := cache.Get(url, env.now, env.disk);
      if look.Hit? {
        return Ok(look.content);
      }
      var reply := env.web(url);
      if reply.TransportFailure? {
        return Err(Transport(url));
      }
      if reply.status != 200 {
        return Err(HttpStatus(url, reply.status));
      }
      if reply.body.None? {
        return Err(BodyRead(url));
      }
      var content := reply.body.value;
      var written := cache.Put(url, content, env.now, env.disk);
      // a failed write is only logged
      r := Ok(content);
    }

    /** DownloadConfig: the catalog file at a revision. */
    method DownloadConfig(branch: string, env: Env) returns (r: Result<bytes>)
      modifies cache
      ensures (r, cache.dir) == DownloadSpec(old(cache.dir), cache.hash, client.owner, client.name, branch, ConfigFile, env)
    {
      r := DownloadFile(branch, ConfigFile, env);
    }

    /** DownloadScript: a script under the configuration directory. */
    method DownloadScript(branch: string, scriptPath: string, env: Env) returns (r: Result<bytes>)
      modifies cache
      ensures (r, cache.dir) == DownloadSpec(old(cache.dir), cache.hash, client.owner, client.name, branch, ScriptPath(scriptPath), env)
    {
      var path := TrimPrefix(scriptPath, ScriptRoot);
      r := DownloadFile(branch, ScriptRoot + path, env);
    }
  }

  /** NewDownloaderWithRepo: a client for owner/name over the shared cache
      directory, which NewCache creates when it is missing. */
  method NewDownloaderWithRepo(owner: string, name: string, cache: Cache, mkdirOk: bool)
    returns (r: Result<Downloader>)
    modifies cache
    ensures cache.dir == old(cache.dir).(present := old(cache.dir.present) || mkdirOk)
    ensures r.Ok? <==> old(cache.dir.present) || mkdirOk
    ensures r.Err? ==> r.error == DiskFailure
    ensures r.Ok? ==> fresh(r.value) && fresh(r.value.client) && r.value.cache == cache
    ensures r.Ok? ==> r.value.client.owner == owner && r.value.client.name == name
  {
    var client := new Client.WithRepo(owner, name);
    var ok := cache.Open(mkdirOk);
    if !ok {
      return Err(DiskFailure);
    }
    var d := new Downloader(client, cache);
    r := Ok(d);
  }

  /** The "local" source never reaches the cache or the network. */
  lemma LocalRejected(d: Dir, hash: string -> string, owner: string, name: string, path: string, env: Env)
    ensures DownloadSpec(d, hash, owner, name, "local", path, env) == (Err(LocalSource), d)
  {
  }

  /** A cache hit is served without consulting the network: the result is the
      same whatever the network would answer. */
  lemma HitNeedsNoNetwork(d: Dir, hash: string -> string, owner: string, name: string,
                          branch: string, path: string, env: Env, web': Web)
    requires branch != "local"
    requires GetSpec(d, hash(RawUrl(owner, name, branch, path)), env.now, env.disk).0.Hit?
    ensures DownloadSpec(d, hash, owner, name, branch, path, env)
         == DownloadSpec(d, hash, owner, name, branch, path, env.(web := web'))
    ensures DownloadSpec(d, hash, owner, name, branch, path, env).0
         == Ok(GetSpec(d, hash(RawUrl(owner, name, branch, path)), env.now, env.disk).0.content)
  {
  }

  /** On anything but a hit, including a cache read error, the result is what
      the network gives. */
  lemma MissFetches(d: Dir, hash: string -> string, owner: string, name: string,
                    branch: string, path: string, env: Env)
    requires branch != "local"
    requires !GetSpec(d, hash(RawUrl(owner, name, branch, path)), env.now, env.disk).0.Hit?
    ensures DownloadSpec(d, hash, owner, name, branch, path, env).0 == Fetch(RawUrl(owner, name, branch, path), env.web)
  {
  }

  /** A failed fetch writes nothing: the directory is left as the cache lookup
      left it. */
  lemma FailedFetchNoWrite(d: Dir, hash: string -> string, owner: string, name: string,
                           branch: string, path: string, env: Env)
    requires branch != "local"
    requires Fetch(RawUrl(owner, name, branch, path), env.web).Err?
    ensures DownloadSpec(d, hash, owner, name, branch, path, env).1
         == GetSpec(d, hash(RawUrl(owner, name, branch, path)), env.now, env.disk).1
  {
  }

  /** A successful fetch stores the content under the URL's key when the write
      succeeds, and returns the content even when it does not. */
  lemma FetchedIsCached(d: Dir, hash: string -> string, owner: string, name: string,
                        branch: string, path: string, env: Env)
    requires branch != "local"
    requires !GetSpec(d, hash(RawUrl(owner, name, branch, path)), env.now, env.disk).0.Hit?
    requires Fetch(RawUrl(owner, name, branch, path), env.web).Ok?
    ensures var content := Fetch(RawUrl(owner, name, branch, path), env.web).value;
      var (r, d') := DownloadSpec(d, hash, owner, name, branch, path, env);
      r == Ok(content) &&
      (d.present && env.disk.writeOk ==> d'.files[hash(RawUrl(owner, name, branch, path))] == Entry(content, env.now))
  {
  }

  /** The only successful status is 200. */
  lemma FetchStatus(url: string, web: Web)
    ensures Fetch(url, web).Ok? <==> web(url).Response? && web(url).status == 200 && web(url).body.Some?
  {
  }

  /** Normalised script paths always lie under "config/". */
  lemma ScriptPathRooted(p: string)
    ensures HasPrefix(ScriptPath(p), ScriptRoot)
  {
  }

  /** Normalising twice is normalising once. */
  lemma ScriptPathIdempotent(p: string)
    ensures ScriptPath(ScriptPath(p)) == ScriptPath(p)
  {
    TrimPrefixOfPrefixed(ScriptRoot, TrimPrefix(p, ScriptRoot));
  }

  /** A bare path and the same path under "config/" name the same file; a path
      already under "config/" is left as it is. */
  lemma ScriptPathPrefixed(p: string)
    ensures !HasPrefix(p, ScriptRoot) ==> ScriptPath(ScriptRoot + p) == ScriptPath(p) == ScriptRoot + p
    ensures HasPrefix(p, ScriptRoot) ==> ScriptPath(p) == p
  {
    TrimPrefixOfPrefixed(ScriptRoot, p);
  }
}
