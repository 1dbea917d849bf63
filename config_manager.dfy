/** ConfigManager of config_manager.go: switches between the embedded catalog
    and one loaded from a revision of the repository its downloader serves. */
module ConfigManagers {
  import opened Base
  import opened Types
  import opened ContentCache
  import opened Downloader
  import LocalProvider
  import opened RemoteProvider

  /** The condition GetCurrentConfig and LoadStep share: the remote catalog
      is in use. */
  predicate UsesRemote(currentSource: string, remoteConfig: Option<Config>) {
    !(currentSource == "local" || remoteConfig.None?)
  }

  /** GetCurrentConfig's choice between the two catalogs. */
  function CurrentConfig(localConfig: Option<Config>, remoteConfig: Option<Config>, currentSource: string): Option<Config>
  {
    if UsesRemote(currentSource, remoteConfig) then remoteConfig else localConfig
  }

  /** The fields LoadSource may change. */
  datatype Selection = Selection(currentSource: string, remoteConfig: Option<Config>)

  /** Every selection reachable from the constructor: a remote source always
      comes with its catalog. */
  predicate Consistent(s: Selection) {
    s.currentSource != "local" ==> s.remoteConfig.Some?
  }

  /** LoadSource on the selection `s`, where `loaded` is what downloading and
      parsing the catalog of `source` gave: failures change nothing. */
  function Select(s: Selection, source: string, loaded: Result<Config>): (Result<()>, Selection)
  {
    if source == "local" then (Ok(()), Selection("local", None))
    else
      match loaded
      case Err(e) => (Err(e), s)
      case Ok(c) => (Ok(()), Selection(source, Some(c)))
  }

  class ConfigManager {
    const localConfig: Option<Config>
    var remoteConfig: Option<Config>
    const downloader: Downloader
    var currentSource: string

    function Selected(): Selection
      reads this
    {
      Selection(currentSource, remoteConfig)
    }

    constructor (localConfig: Option<Config>, downloader: Downloader)
      ensures this.localConfig == localConfig && this.downloader == downloader
      ensures currentSource == "local" && remoteConfig == None
      ensures Consistent(Selected())
    {
      this.localConfig := localConfig;
      this.downloader := downloader;
      remoteConfig := None;
      currentSource := "local";
    }

    /** LoadSource: "local" drops the remote catalog without any download;
        any other source is downloaded and parsed, and the selection changes
        only when both succeed. */
    method LoadSource(source: string, parse: ConfigParser, env: Env) returns (r: Result<()>)
      modifies this, downloader.cache
      ensures var c := downloader.cache;
        var client := downloader.client;
        var (loaded, d) := LoadConfigSpec(old(c.dir), c.hash, client.owner, client.name, source, parse, env);
        (r, Selected()) == Select(old(Selected()), source, loaded) &&
        c.dir == (if source == "local" then old(c.dir) else d)
    {
      if source == "local" {
        currentSource := source;
        remoteConfig := None;
        return Ok(());
      }
      var data := downloader.DownloadConfig(source, env);
      if data.Err? {
        return Err(data.error);
      }
      var parsed := parse(data.value);
      if parsed.None? {
        return Err(ParseFailed);
      }
      currentSource := source;
      remoteConfig := parsed;
      r := Ok(());
    }

    function GetCurrentConfig(): (c: Option<Config>)
      reads this
      ensures c == CurrentConfig(localConfig, remoteConfig, currentSource)
    {
      if currentSource == "local" || remoteConfig == None then localConfig else remoteConfig
    }

    /** LoadStep: the embedded file when the remote catalog is not in use,
        otherwise the script of the current source through the downloader. */
    method LoadStep(scriptPath: string, files: Files, env: Env) returns (r: Result<string>)
      modifies downloader.cache
      ensures var c := downloader.cache;
        var client := downloader.client;
        if UsesRemote(currentSource, remoteConfig) then
          (r, c.dir) == LoadStepSpec(old(c.dir), c.hash, client.owner, client.name, currentSource, scriptPath, env)
        else
          r == LocalProvider.LoadStep(files, scriptPath) && c.dir == old(c.dir)
    {
      if currentSource == "local" || remoteConfig == None {
        return LocalProvider.LoadStep(files, scriptPath);
      }
      var data := downloader.DownloadScript(currentSource, scriptPath, env);
      if data.Err? {
        return Err(data.error);
      }
      r := Ok(ToText(data.value));
    }
  }

  /** NewConfigManager: a manager on the "local" source over a downloader for
      the program's own repository `owner`/`name`. */
  method NewConfigManager(localConfig: Option<Config>, owner: string, name: string, cache: Cache, mkdirOk: bool)
    returns (r: Result<ConfigManager>)
    modifies cache
    ensures cache.dir == old(cache.dir).(present := old(cache.dir.present) || mkdirOk)
    ensures r.Ok? <==> old(cache.dir.present) || mkdirOk
    ensures r.Err? ==> r.error == DiskFailure
    ensures r.Ok? ==> var m := r.value;
      fresh(m) && m.localConfig == localConfig && m.currentSource == "local" && m.remoteConfig == None &&
      m.downloader.cache == cache && m.downloader.client.owner == owner && m.downloader.client.name == name
  {
    var d := NewDownloaderWithRepo(owner, name, cache, mkdirOk);
    if d.Err? {
      return Err(d.error);
    }
    var m := new ConfigManager(localConfig, d.value);
    r := Ok(m);
  }

  /** LoadSource keeps a remote source paired with its catalog. */
  lemma SelectConsistent(s: Selection, source: string, loaded: Result<Config>)
    requires Consistent(s)
    ensures Consistent(Select(s, source, loaded).1)
  {
  }

  /** "local" resets the selection whatever it was; any other source either
      fails and keeps the selection or succeeds and selects the new catalog. */
  lemma SelectCases(s: Selection, source: string, loaded: Result<Config>)
    ensures source == "local" ==> Select(s, source, loaded) == (Ok(()), Selection("local", None))
    ensures source != "local" && loaded.Err? ==> Select(s, source, loaded) == (Err(loaded.error), s)
    ensures source != "local" && loaded.Ok? ==> Select(s, source, loaded) == (Ok(()), Selection(source, Some(loaded.value)))
    ensures Select(s, source, loaded).0.Ok? <==> source == "local" || loaded.Ok?
  {
  }

  /** On a consistent selection the nil check of GetCurrentConfig and LoadStep
      is redundant: the remote catalog is in use exactly when the source is
      not "local". */
  lemma ConsistentRouting(localConfig: Option<Config>, s: Selection)
    requires Consistent(s)
    ensures UsesRemote(s.currentSource, s.remoteConfig) <==> s.currentSource != "local"
    ensures CurrentConfig(localConfig, s.remoteConfig, s.currentSource)
         == if s.currentSource == "local" then localConfig else s.remoteConfig
  {
  }

  /** After a successful LoadSource of a remote source, GetCurrentConfig gives
      exactly the catalog that was loaded; after LoadSource("local") it gives
      the embedded one. */
  lemma CurrentAfterSelect(localConfig: Option<Config>, s: Selection, source: string, loaded: Result<Config>)
    ensures var s' := Select(s, source, loaded).1;
      (source == "local" ==> CurrentConfig(localConfig, s'.remoteConfig, s'.currentSource) == localConfig) &&
      (source != "local" && loaded.Ok? ==> CurrentConfig(localConfig, s'.remoteConfig, s'.currentSource) == Some(loaded.value))
  {
  }
}
