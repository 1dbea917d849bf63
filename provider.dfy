/** The ConfigProvider interface of config/provider.go: a source is either the
    embedded files or one revision of a remote repository. */
module Providers {
  import opened Base
  import opened Types
  import opened ContentCache
  import opened Downloader
  import LocalProvider
  import opened RemoteProvider

  datatype Provider = Local | Remote(remote: RemoteConfigProvider)

  /** The objects a provider's operations may change: the cache directory of
      a remote provider, nothing for the embedded files. */
  function Footprint(p: Provider): set<Cache> {
    if p.Remote? then {p.remote.downloader.cache} else {}
  }

  predicate Valid(p: Provider) {
    p.Remote? ==> p.remote.Valid()
  }

  /** GetSourceName. */
  function SourceName(p: Provider): string {
    match p
    case Local => LocalProvider.SourceName()
    case Remote(r) => r.GetSourceName()
  }

  /** LoadConfig through the interface: `files` are the embedded files. */
  method LoadConfig(p: Provider, files: Files, parse: ConfigParser, env: Env) returns (r: Result<Config>)
    requires Valid(p)
    modifies Footprint(p)
    ensures p.Local? ==> r == LocalProvider.LoadConfig(files, parse)
    ensures p.Remote? ==>
      var c := p.remote.downloader.cache;
      (r, c.dir) == LoadConfigSpec(old(c.dir), c.hash, p.remote.owner, p.remote.name, p.remote.branch, parse, env)
  {
    if p.Local? {
      r := LocalProvider.LoadConfig(files, parse);
    } else {
      r := p.remote.LoadConfig(parse, env);
    }
  }

  /** LoadStep through the interface. */
  method LoadStep(p: Provider, files: Files, scriptPath: string, env: Env) returns (r: Result<string>)
    requires Valid(p)
    modifies Footprint(p)
    ensures p.Local? ==> r == LocalProvider.LoadStep(files, scriptPath)
    ensures p.Remote? ==>
      var c := p.remote.downloader.cache;
      (r, c.dir) == LoadStepSpec(old(c.dir), c.hash, p.remote.owner, p.remote.name, p.remote.branch, scriptPath, env)
  {
    if p.Local? {
      r := LocalProvider.LoadStep(files, scriptPath);
    } else {
      r := p.remote.LoadStep(scriptPath, env);
    }
  }

  /** Only the embedded files are named "local" by construction; a remote
      provider bound to the revision "local" is named "local" too and can load
      nothing. */
  lemma SourceNameLocal(p: Provider, d: Dir, parse: ConfigParser, path: string, env: Env)
    ensures p.Local? ==> SourceName(p) == "local"
    ensures p.Remote? ==> SourceName(p) == p.remote.branch
    ensures p.Remote? && SourceName(p) == "local" ==>
      var r := p.remote;
      LoadConfigSpec(d, r.downloader.cache.hash, r.owner, r.name, r.branch, parse, env) == (Err(LocalSource), d) &&
      LoadStepSpec(d, r.downloader.cache.hash, r.owner, r.name, r.branch, path, env) == (Err(LocalSource), d)
  {
    if p.Remote? && SourceName(p) == "local" {
      LocalBranchFails(d, p.remote.downloader.cache.hash, p.remote.owner, p.remote.name, parse, path, env);
    }
  }
}
