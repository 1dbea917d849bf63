/** config/remote_provider.go: the catalog and scripts of one repository at
    one revision, fetched through the downloader and its cache. The provider's
    fields never change after construction. */
module RemoteProvider {
  import opened Base
  import opened Types
  import opened ContentCache
  import opened Downloader
  import opened RepoConfigs

  /** LoadConfig as a function of the cache directory: download the catalog
      file at `branch`, then parse it. */
  function LoadConfigSpec(d: Dir, hash: string -> string, owner: string, name: string,
                          branch: string, parse: ConfigParser, env: Env): (Result<Config>, Dir)
  {
    var (got, d') := DownloadSpec(d, hash, owner, name, branch, ConfigFile, env);
    match got
    case Err(e) => (Err(e), d')
    case Ok(data) =>
      match parse(data)
      case None => (Err(ParseFailed), d')
      case Some(c) => (Ok(c), d')
  }

  /** LoadStep as a function of the cache directory: the downloaded script as text. */
  function LoadStepSpec(d: Dir, hash: string -> string, owner: string, name: string,
                        branch: string, path: string, env: Env): (Result<string>, Dir)
  {
    var (got, d') := DownloadSpec(d, hash, owner, name, branch, ScriptPath(path), env);
    match got
    case Err(e) => (Err(e), d')
    case Ok(data) => (Ok(ToText(data)), d')
  }

  class RemoteConfigProvider {
    const branch: string
    const owner: string
    const name: string
    const downloader: Downloader

    /** The downloader fetches from the repository the provider names. */
    predicate Valid() {
      downloader.client.owner == owner && downloader.client.name == name
    }

    constructor (branch: string, owner: string, name: string, downloader: Downloader)
      requires downloader.client.owner == owner && downloader.client.name == name
      ensures this.branch == branch && this.owner == owner && this.name == name
      ensures this.downloader == downloader && Valid()
    {
      this.branch := branch;
      this.owner := owner;
      this.name := name;
      this.downloader := downloader;
    }

    method LoadConfig(parse: ConfigParser, env: Env) returns (r: Result<Config>)
      requires Valid()
      modifies downloader.cache
      ensures (r, downloader.cache.dir)
           == LoadConfigSpec(old(downloader.cache.dir), downloader.cache.hash, owner, name, branch, parse, env)
    {
      var data := downloader.DownloadConfig(branch, env);
      if data.Err? {
        return Err(data.error);
      }
      var parsed := parse(data.value);
      if parsed.None? {
        return Err(ParseFailed);
      }
      r := Ok(parsed.value);
    }

    method LoadStep(scriptPath: string, env: Env) returns (r: Result<string>)
      requires Valid()
      modifies downloader.cache
      ensures (r, downloader.cache.dir)
           == LoadStepSpec(old(downloader.cache.dir), downloader.cache.hash, owner, name, branch, scriptPath, env)
    {
      var data := downloader.DownloadScript(branch, scriptPath, env);
      if data.Err? {
        return Err(data.error);
      }
      r := Ok(ToText(data.value));
    }

    /** GetSourceName: the revision. */
    function GetSourceName(): (s: string)
      ensures s == branch
    {
      branch
    }

    /** GetRepoIdentifier: "owner/name", the identifier of the repository
        the downloader fetches from. */
    function GetRepoIdentifier(): (id: string)
      ensures id == RepoIdentifier(Repo(owner, name))
      ensures Valid() ==> id == RepoIdentifier(Repo(downloader.client.owner, downloader.client.name))
    {
      owner + "/" + name
    }
  }

  /** NewRemoteConfigProviderWithRepo: binds the revision and repository as
      given; fails only when the cache directory cannot be created. */
  method NewRemoteConfigProviderWithRepo(branch: string, owner: string, name: string, cache: Cache, mkdirOk: bool)
    returns (r: Result<RemoteConfigProvider>)
    modifies cache
    ensures cache.dir == old(cache.dir).(present := old(cache.dir.present) || mkdirOk)
    ensures r.Ok? <==> old(cache.dir.present) || mkdirOk
    ensures r.Err? ==> r.error == DiskFailure
    ensures r.Ok? ==> fresh(r.value) && r.value.Valid() && r.value.downloader.cache == cache
    ensures r.Ok? ==> r.value.branch == branch && r.value.owner == owner && r.value.name == name
  {
    var d := NewDownloaderWithRepo(owner, name, cache, mkdirOk);
    if d.Err? {
      return Err(d.error);
    }
    var p := new RemoteConfigProvider(branch, owner, name, d.value);
    r := Ok(p);
  }

  /** NewRemoteConfigProvider: binds the revision to the first configured
      repository. A repository-list error comes through; since a loaded list
      is never empty, the "no default repository" error cannot arise. */
  method NewRemoteConfigProvider(branch: string, repoFiles: Files, parseRepos: RepoParser, cache: Cache, mkdirOk: bool)
    returns (r: Result<RemoteConfigProvider>)
    modifies cache
    ensures GetRepoConfig(repoFiles, parseRepos).Err? ==>
              r == Err(GetRepoConfig(repoFiles, parseRepos).error) && cache.dir == old(cache.dir)
    ensures r.Err? ==> r.error != NoDefaultRepo
    ensures GetRepoConfig(repoFiles, parseRepos).Ok? ==>
              var first := GetRepoConfig(repoFiles, parseRepos).value.repositories[0];
              cache.dir == old(cache.dir).(present := old(cache.dir.present) || mkdirOk) &&
              (r.Ok? <==> old(cache.dir.present) || mkdirOk) &&
              (r.Ok? ==> fresh(r.value) && r.value.Valid() && r.value.downloader.cache == cache &&
                         r.value.branch == branch && r.value.owner == first.owner && r.value.name == first.name)
  {
    var rc := GetRepoConfig(repoFiles, parseRepos);
    if rc.Err? {
      return Err(rc.error);
    }
    DefaultRepoExists(repoFiles, parseRepos);
    var defaultRepo := GetDefaultRepo(rc.value);
    var repo := defaultRepo.value;
    r := NewRemoteConfigProviderWithRepo(branch, repo.owner, repo.name, cache, mkdirOk);
  }

  /** A provider bound to "local" can load nothing: both operations fail with
      the downloader's refusal and leave the cache untouched. */
  lemma LocalBranchFails(d: Dir, hash: string -> string, owner: string, name: string,
                         parse: ConfigParser, path: string, env: Env)
    ensures LoadConfigSpec(d, hash, owner, name, "local", parse, env) == (Err(LocalSource), d)
    ensures LoadStepSpec(d, hash, owner, name, "local", path, env) == (Err(LocalSource), d)
  {
  }

  /** A catalog loads exactly when the download succeeds and parses. */
  lemma LoadConfigOutcome(d: Dir, hash: string -> string, owner: string, name: string,
                          branch: string, parse: ConfigParser, env: Env)
    ensures var got := DownloadSpec(d, hash, owner, name, branch, ConfigFile, env).0;
      var r := LoadConfigSpec(d, hash, owner, name, branch, parse, env).0;
      (got.Err? ==> r == Err(got.error)) &&
      (got.Ok? ==> (r.Ok? <==> parse(got.value).Some?) && (r.Ok? ==> Some(r.value) == parse(got.value)))
  {
  }

  /** A step is the text of the normalised script download, and download
      errors propagate. */
  lemma LoadStepOutcome(d: Dir, hash: string -> string, owner: string, name: string,
                        branch: string, path: string, env: Env)
    ensures var got := DownloadSpec(d, hash, owner, name, branch, ScriptPath(path), env).0;
      var r := LoadStepSpec(d, hash, owner, name, branch, path, env).0;
      (got.Err? ==> r == Err(got.error)) && (got.Ok? ==> r == Ok(ToText(got.value)))
  {
  }
}
