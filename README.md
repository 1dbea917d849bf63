# printer-patcher: a Dafny model of the catalog, download and execution core

printer-patcher runs maintenance actions on a 3D printer over SSH. An
action is an ordered list of steps. Each step is a shell command, or the
path of a `.sh` script, plus an expected-output pattern. Actions come from
one of two places:

- the `local` catalog embedded in the binary;
- `config/actions.yaml` at some revision (a `main` branch or a release tag)
  of a GitHub repository, downloaded through a file cache.

This project models that core in Dafny and proves properties of the model.
It covers:

- the repository list (`repo.yaml`) and its default entry;
- the GitHub revision listing;
- the URL-keyed file cache, with its 24-hour lifetime;
- the raw-content downloader;
- the local and remote providers and the providers' common interface;
- the config manager;
- the `[owner/name] revision` source strings that the program offers and parses back;
- the process-wide caches of source lists and scripts;
- the script preload;
- the headless run, which executes an action's steps in order, stops at
  the first failure, and validates each output against its pattern.

## How the model is built

- **Pure code becomes functions.** The repository list, the revision
  listing, the output check and the parsing of source strings are
  functions, with lemmas about them.
- **Stateful code becomes classes.** Code that updates state is a class
  with `modifies` clauses. The classes are:
  - `Cache`, for the cache directory;
  - `Downloader`;
  - `RemoteConfigProvider`;
  - `RemoteConfigLoader`;
  - `ConfigManager`;
  - `ProcessCaches`, for main.go's `sourceCache` and `scriptCache`.
- **Methods are proved equal to specification functions.** Each method
  is proved to return, and to leave behind, exactly what a function of
  its inputs and the old state gives. For example,
  `(r, cache.dir) == DownloadSpec(old(cache.dir), …)` and
  `Run(…) == RunFrom(…)`. The source's promises are then lemmas about
  those functions.
- **Go's loops stay loops.** Each loop in the Go code is a `while` loop
  with invariants:
  - the two loops of `GetBranchNames`;
  - both loops of `fetchSources`;
  - the action search, the two loops of `preloadActionScripts` and the
    step loop of `runHeadless`.
- **The outside world is passed in as parameters:**
  - The file system is a `Disk` record, saying whether stat, read and
    write succeed during one call. `Open`'s `mkdirOk` says whether the
    cache directory can be created.
  - The network is a function from URL to HTTP reply.
  - The GitHub API is a function from repository to its two listings.
  - The YAML decoders are functions from bytes to an optional value.
  - Go's `regexp` is a `Regex` record (does a pattern compile, does it
    match).
  - md5 is the cache's `hash`.
  - The embedded files are a map.
  - The SSH session is a `Session`: whether `Connect` succeeds, and
    `Execute`'s answer to each call.
  - The clock is a `now` argument, in nanoseconds.
- **Provider calls are indexed in the headless run.** The run sees the
  provider's `LoadStep` as a function of the call's index and the script
  path. That lets a remote provider whose cache changes between calls
  answer differently each time.

Two behaviours of the code are easy to miss, and the model keeps both:

- **The file cache and the in-memory caches expire at different ages.**
  The file cache expires an entry only when its age is strictly greater
  than 24 hours, so an entry exactly 24 hours old is still served. The
  in-memory caches of main.go serve only entries strictly younger than
  24 hours.
- **main.go's script cache lives as long as the process.** It is keyed
  by the script path alone, so nothing about the source distinguishes
  entries. Switching sources does not empty it either: within 24 hours
  a script with the same path is served from the old source.
  `Engine.ScriptCacheUpdate` states this keying.

## Model

| member | source | states |
|---|---|---|
| Strings.TrimPrefix | github/downloader.go:96-98 | strings.TrimPrefix: removes one leading copy of the prefix when present, otherwise returns the input unchanged |
| Strings.TrimSuffix | main.go:68-69 | strings.TrimSuffix: removes one trailing copy of the suffix when present, otherwise returns the input unchanged |
| Strings.TrimSpaceBounds | tools/validation.go:16-17 | the trimmed string neither starts nor ends with white space |
| Strings.TrimSpaceIdempotent | tools/validation.go:16-17 | trimming twice gives the same result as trimming once |
| Strings.Cut | main.go:421-425 | SplitN(s, sep, 2): when two parts come back, s is first + sep + second and sep does not occur earlier; one part exactly when sep does not occur |
| Strings.CutHeadFree | main.go:421-431 | the part before a one-character separator never contains it, as the owner split at "/" relies on |
| Strings.CutAtFirst | main.go:421-425 | when sep does not start inside a, splitting a + sep + b gives back a and b |
| Types.ToText | config/local_provider.go:42 | string(data) has one character per byte, with the same values |
| Validation.ValidateOutput | tools/validation.go:9-27 | an empty expectation accepts; otherwise the trimmed expectation, if it compiles, decides by matching the trimmed output, else the two trimmed strings must be equal |
| Validation.EmptyExpectedAccepts | tools/validation.go:10-13 | an empty expectation accepts every output |
| Validation.PatternDecides | tools/validation.go:16-23 | a non-empty expectation that compiles decides by matching the trimmed pattern against the trimmed output |
| Validation.LiteralFallback | tools/validation.go:20-26 | a pattern that does not compile falls back to equality of the trimmed strings |
| Validation.PretrimmedOutput | main.go:346 | trimming the output before validating, as the step loop does, never changes the verdict |
| Validation.PretrimmedExpected | tools/validation.go:10-17 | white space around a non-blank expectation never changes the verdict |
| ContentCache.Cache.constructor | github/cache.go:23-34 | a new cache has an existing directory holding whatever files earlier runs left in it, and the given key function |
| ContentCache.Cache.CacheKey | github/cache.go:37-40 | the file name for a URL is the digest of the URL, the same on every call |
| ContentCache.Cache.Open | github/cache.go:25-29 | MkdirAll succeeds when the directory exists or can be created; no file changes |
| ContentCache.Cache.Get | github/cache.go:43-74 | the lookup and the directory afterwards equal GetSpec: miss when absent, error when stat or read fails, miss plus deletion when stale |
| ContentCache.Cache.Put | github/cache.go:77-83 | the write result and the directory afterwards equal PutSpec: the entry is stored at `now` only when the directory exists and the write succeeds |
| ContentCache.Cache.Clear | github/cache.go:86-88 | a successful RemoveAll leaves no directory and no file; a failed one is reported as an error, keeps the directory and only the files it had not yet removed |
| ContentCache.GetAbsent | github/cache.go:48-52 | a key with no file is a miss with no error, and nothing changes |
| ContentCache.GetExpired | github/cache.go:58-64 | a stale file is a miss and exactly that file is removed |
| ContentCache.GetAtTtlBoundary | github/cache.go:58-60 | a file exactly 24 hours old is still served |
| ContentCache.GetOnlyDeletes | github/cache.go:43-74 | Get changes no other file, and its own file only by deleting it |
| ContentCache.PutOnlyThatKey | github/cache.go:77-83 | Put replaces the entry for its key and keeps every other file |
| ContentCache.PutThenGet | github/cache.go:14 | what Put stores under a URL's key, Get for the same URL serves back for 24 hours |
| ContentCache.ClearedMisses | github/cache.go:86-88 | after Clear every Get misses and every Put fails |
| GitHubClient.Client.WithRepo | github/client.go:52-61 | the client is bound to the given owner and name |
| GitHubClient.Client.GetBranchNames | github/client.go:130-165 | the result equals BranchNames: either listing's error fails the call; otherwise "local", then "main" if such a branch exists, then the non-draft tags in API order |
| GitHubClient.RevisionsShape | github/client.go:144-161 | the listing starts with "local", then "main" when present; its length counts those plus the non-draft releases |
| GitHubClient.NonDraftTagsMembers | github/client.go:157-161 | a tag is listed exactly when some non-draft release carries it |
| GitHubClient.RevisionsAreTags | github/client.go:148-161 | every entry after "local" and "main" is the tag of a non-draft release; no other branch is listed |
| GitHubClient.NonDraftTagsAppend | github/client.go:157-161 | releases contribute in API order |
| GitHubClient.PrereleaseIgnored | github/client.go:157-161 | only tags and draft flags matter; prerelease flags and names do not |
| GitHubClient.ListingFailures | github/client.go:131-142 | a failed branch listing fails the call whatever the releases are; a failed release listing fails it too; success needs both |
| Downloader.Downloader.DownloadFile | github/downloader.go:47-86 | the result and the cache directory afterwards equal DownloadSpec |
| Downloader.Downloader.DownloadConfig | github/downloader.go:89-92 | DownloadSpec for config/actions.yaml |
| Downloader.Downloader.DownloadScript | github/downloader.go:95-99 | DownloadSpec for the path with one "config/" prefix removed and put back |
| Downloader.NewDownloaderWithRepo | github/downloader.go:32-44 | fails with a disk error exactly when the cache directory cannot be created; otherwise it is a fresh client for owner/name over the shared cache |
| Downloader.LocalRejected | github/downloader.go:49-51 | the "local" branch fails without touching the cache or the network |
| Downloader.HitNeedsNoNetwork | github/downloader.go:55-60 | a cache hit returns the cached bytes whatever the network would answer |
| Downloader.MissFetches | github/downloader.go:55-76 | on a miss or a cache error, the result is the network's answer |
| Downloader.FailedFetchNoWrite | github/downloader.go:62-76 | a failed fetch writes nothing to the cache |
| Downloader.FetchedIsCached | github/downloader.go:78-85 | a fetched body is returned, and stored under the URL's key when the write succeeds |
| Downloader.FetchStatus | github/downloader.go:63-76 | only a 200 response with a readable body succeeds |
| Downloader.ScriptPathRooted | github/downloader.go:95-99 | normalised script paths lie under "config/" |
| Downloader.ScriptPathIdempotent | github/downloader.go:95-99 | normalising twice is normalising once |
| Downloader.ScriptPathPrefixed | github/downloader.go:95-99 | "x" and "config/x" name the same file; a path already under "config/" is unchanged |
| RepoConfigs.GetRepoConfig | config/repo_config.go:24-45 | a successful result always lists at least one repository |
| RepoConfigs.GetDefaultRepo | config/repo_config.go:48-53 | there is a default repository exactly when the list is non-empty, and it is the first one |
| RepoConfigs.RepoIdentifier | config/repo_config.go:56-58 | the identifier is the owner, one "/", then the name |
| RepoConfigs.GetRepoConfigCases | config/repo_config.go:24-45 | a missing file and a parse failure propagate; an empty list becomes exactly the default repository; otherwise the parsed list is returned |
| RepoConfigs.DefaultRepoExists | config/repo_config.go:48-53 | after a successful GetRepoConfig, GetDefaultRepo is the first listed repository |
| RepoConfigs.RepoIdentifierSplits | config/repo_config.go:56-58 | "owner/name" splits back at its first "/" when the owner has none |
| LocalProvider.LoadConfig | config/local_provider.go:18-33 | a missing actions.yaml is a not-found error; a present one loads exactly when it parses, as the parsed catalog, else a parse error |
| LocalProvider.LoadStep | config/local_provider.go:36-43 | a step loads exactly when a file of that name is embedded, as text of the same length and bytes; otherwise a not-found error naming the step |
| LocalProvider.SourceName | config/local_provider.go:46-48 | the embedded files are the source "local" |
| LocalProvider.LoadStepCases | config/local_provider.go:36-43 | a step loads exactly when a file of that name is embedded; its text is that file's bytes, otherwise a not-found error |
| LocalProvider.LoadConfigCases | config/local_provider.go:18-33 | the catalog loads exactly when actions.yaml is embedded and parses; a missing file is a not-found error |
| RemoteProvider.RemoteConfigProvider.constructor | config/remote_provider.go:46-60 | binds revision, owner, name and a matching downloader |
| RemoteProvider.RemoteConfigProvider.LoadConfig | config/remote_provider.go:63-78 | the result and the cache afterwards equal LoadConfigSpec: download actions.yaml, then parse |
| RemoteProvider.RemoteConfigProvider.LoadStep | config/remote_provider.go:81-89 | the result and the cache afterwards equal LoadStepSpec: the normalised script download, as text |
| RemoteProvider.RemoteConfigProvider.GetSourceName | config/remote_provider.go:92-94 | the source name is the revision |
| RemoteProvider.RemoteConfigProvider.GetRepoIdentifier | config/remote_provider.go:97-99 | the identifier is "owner/name" of the repository the provider, and so its downloader, fetches from |
| RemoteProvider.NewRemoteConfigProviderWithRepo | config/remote_provider.go:46-60 | fails exactly when the cache directory cannot be created; otherwise binds the given revision and repository |
| RemoteProvider.NewRemoteConfigProvider | config/remote_provider.go:18-43 | a repository-list error propagates with the cache untouched; "no default repository" never happens; otherwise binds the revision to the first listed repository |
| RemoteProvider.LocalBranchFails | config/remote_provider.go:63-89 | a provider on "local" loads nothing and leaves the cache as it was |
| RemoteProvider.LoadConfigOutcome | config/remote_provider.go:63-78 | a catalog loads exactly when the download succeeds and parses; download errors propagate unchanged |
| RemoteProvider.LoadStepOutcome | config/remote_provider.go:81-89 | a step is the text of the normalised download; download errors propagate unchanged |
| Providers.LoadConfig | config/provider.go:5-6 | through the interface, each provider's own LoadConfig |
| Providers.LoadStep | config/provider.go:8-9 | through the interface, each provider's own LoadStep |
| Providers.SourceNameLocal | config/provider.go:11-12 | the local provider is named "local" and a remote one by its revision; a remote provider named "local" can load nothing |
| RemoteLoader.RemoteConfigLoader.constructor | config/remote.go:16-22 | keeps revision and credentials and starts with no actions |
| RemoteLoader.RemoteConfigLoader.LoadConfig | config/remote.go:25-36 | the result and the new fields equal ApplyConfig of the parse |
| RemoteLoader.RemoteConfigLoader.GetUsername | config/remote.go:39-41 | the stored user name |
| RemoteLoader.RemoteConfigLoader.GetPassword | config/remote.go:44-46 | the stored password |
| RemoteLoader.RemoteConfigLoader.GetActions | config/remote.go:49-51 | the stored actions |
| RemoteLoader.ApplyConfigCases | config/remote.go:25-36 | a rejected document changes nothing; an accepted one replaces all three fields, whatever they were |
| RemoteLoader.ApplyConfigIdempotent | config/remote.go:25-36 | loading the same document twice is loading it once |
| RemoteLoader.LastLoadWins | config/remote.go:25-36 | after two loads the state is the last accepted catalog |
| RemoteLoader.RemoteConfigLoader.LoadStep | config/remote.go:54-56 | never fails and gives the data as text of the same length and bytes |
| RemoteLoader.LoadStepIgnoresName | config/remote.go:54-56 | LoadStep ignores the step name, never fails and keeps every byte |
| ConfigManagers.ConfigManager.constructor | config_manager.go:18-29 | starts on "local" with no remote catalog |
| ConfigManagers.ConfigManager.LoadSource | config_manager.go:32-53 | the result and the new selection equal Select of the download-and-parse result; "local" leaves the cache untouched |
| ConfigManagers.ConfigManager.GetCurrentConfig | config_manager.go:56-61 | the remote catalog when a loaded non-local source is selected, else the local one |
| ConfigManagers.ConfigManager.LoadStep | config_manager.go:64-77 | the remote script download when the remote catalog is in use, else the embedded file |
| ConfigManagers.NewConfigManager | config_manager.go:18-29 | fails with a disk error exactly when the cache directory cannot be created; otherwise a manager on "local" for owner/name |
| ConfigManagers.SelectConsistent | config_manager.go:32-53 | LoadSource keeps a remote source paired with its catalog |
| ConfigManagers.SelectCases | config_manager.go:32-53 | "local" always resets; another source is either selected with its catalog or leaves everything unchanged, and the call fails exactly then |
| ConfigManagers.ConsistentRouting | config_manager.go:56-77 | on any reachable selection, the remote catalog is used exactly when the source is not "local" |
| ConfigManagers.CurrentAfterSelect | config_manager.go:50-61 | after a successful remote LoadSource, GetCurrentConfig is the loaded catalog; after "local" it is the embedded one |
| Sources.FetchSources | main.go:140-171 | the result equals FetchSourcesSpec: a repository-list error propagates; otherwise "local" followed by every listed repository's entries |
| Sources.AddRepoSources | main.go:151-158 | one repository's entries are appended; a failed listing appends nothing |
| Sources.AppendRepoSources | main.go:161-166 | every revision but "local" is appended in order as "[owner/name] revision" |
| Sources.SourceNameNotLocal | main.go:163 | a source string starts with "[" and is never "local" |
| Sources.ParseSource | main.go:415-438 | "local" and nothing else is the local source; a parsed repository source is "[owner/name] revision" or "owner/name] revision" with no "/" in the owner; anything else is a revision of the default repository named by the whole string |
| Sources.RepoSourceShape | main.go:421-434 | a source cut into "owner/name", after at most one leading "[", and a revision is one of the two written forms |
| Sources.CurrentSourceName | main.go:395-401 | the local provider and a remote one on "local" are "local"; any other remote provider is "[owner/name] revision" |
| Sources.ParseSourceName | main.go:415-438 | round trip: the selection parser gives back owner, name and revision of "[owner/name] revision" when the owner has no "/" and "owner/name" has no "] " |
| Sources.ParseSourceFallback | main.go:431-438 | a string without "] ", or whose head has no "/", is a revision of the default repository |
| Sources.FetchSourcesLocalFirst | main.go:147-166 | the list starts with "local" and "local" appears nowhere else |
| Sources.AllRepoSourcesQualified | main.go:151-167 | every entry is a source string of a configured repository for a revision other than "local" that its listing offered |
| Sources.RepoSourcesQualified | main.go:161-166 | a repository's entries are exactly its listed revisions, other than "local", qualified |
| Sources.AllRepoSourcesAppend | main.go:151-167 | repositories contribute in configured order |
| Sources.FailedListingSkipped | main.go:154-158 | a repository whose listing fails adds no entry |
| Sources.ListedRepoEntries | main.go:151-166 | a listed repository adds its "main" entry when it has that branch, then its non-draft tags, in order |
| Sources.CurrentSourceParses | main.go:395-401 | the active remote source's name has the listing's format and parses back to the same repository and revision |
| Sources.ScanNeverMatches | main.go:65-67 | the headless scan with "[%s/%s] %s" never succeeds |
| Sources.HeadlessChoiceAsWritten | main.go:61-82 | "local" and nothing else is the local source; every other string becomes a revision of the default repository, because the scan never matches |
| Sources.HeadlessIgnoresRepository | main.go:61-82 | in headless mode, every remote source, even "[owner/name] revision", becomes a revision of the default repository |
| Sources.NewProvider | main.go:413-443 | "local" gives the local provider; a parsed repository gets its own remote provider and the default form gets the first configured repository, with errors propagated; the cache directory is untouched when the repository list fails and is created as needed otherwise |
| Engine.FindAction | main.go:274-285 | the first action with exactly the requested title, or none |
| Engine.FirstActionSpec | main.go:274-285 | none exactly when no action has the title; otherwise an action with it and no earlier one |
| Engine.ProcessCaches.constructor | main.go:34-39 | both caches start empty |
| Engine.ProcessCaches.SetCachedSources | main.go:105-113 | stores the list with the time under the single key; the script cache is unchanged |
| Engine.ProcessCaches.SetCachedScript | main.go:129-137 | stores the text with the time under its path; the source cache is unchanged |
| Engine.ScriptCacheUpdate | main.go:116-137 | a stored script is served for its path while it is under 24 hours old; other paths are unaffected |
| Engine.ScriptExpiresAtTtl | main.go:116-126 | a script entry exactly 24 hours old is not served |
| Engine.SourceCacheUpdate | main.go:92-113 | a stored list replaces the previous one and is served while it is under 24 hours old |
| Engine.ProcessCaches.LoadSources | main.go:174-194 | the result and the source cache afterwards equal LoadSourcesSpec |
| Engine.LoadSourcesHit | main.go:176-180 | a fresh list is returned without reading the repository list or the API, and nothing changes |
| Engine.LoadSourcesRoundTrip | main.go:183-193 | a fetched list is served by every call in the next 24 hours, whatever the API then answers; a failed fetch caches nothing |
| Engine.ProcessCaches.PreloadActionScripts | main.go:197-249 | the result, the script cache and the next LoadStep index equal PreloadSpec |
| Engine.PreloadCounts | main.go:215-239 | each script is counted as either preloaded or failed, with at most one LoadStep call per script |
| Engine.PreloadErrorIff | main.go:243-246 | the preload fails exactly when there are scripts and every one failed to load |
| Engine.PreloadNoScripts | main.go:200-210 | an action without scripts succeeds with no call and no change |
| Engine.PreloadAllCached | main.go:219-224 | when every script is cached, all count as preloaded, with no call and no change |
| Engine.PreloadFailuresCacheNothing | main.go:227-232 | when every load fails, nothing is cached |
| Engine.PreloadKeepsFresh | main.go:219-225 | a script that was fresh before the preload is never reloaded: its entry is the same after it |
| Engine.PreloadConcat | main.go:217-239 | the loop over two runs of steps is the loop over the second started from the state the first leaves |
| Engine.PreloadStepAt | main.go:217-239 | the state after a turn is that one turn (skip, cached, failed or loaded and stored) applied to the state before it |
| Engine.PreloadFromTurn | main.go:217-239 | the final cache is the loop over the remaining steps from the state at any turn |
| Engine.PreloadCallsBefore | main.go:219-229 | when the loop reaches any turn, it has made one call for each earlier turn whose script was not fresh then |
| Engine.PreloadCallsCount | main.go:219-229 | one LoadStep call is made for each turn whose script is not fresh at that turn, and no other |
| Engine.PreloadStoresLoaded | main.go:227-236 | a script that was not fresh at its turn and loaded then is, at the end, fresh in the cache with exactly the text loaded |
| Engine.PreloadUnloadableKept | main.go:227-232 | a path that no call can load keeps its old entry, or stays absent |
| Engine.PreloadCachesAll | main.go:234-237 | when no load fails, every script of the action is cached afterwards |
| Engine.ProcessCaches.ResolveStep | main.go:317-336 | the command, the script cache and the next index equal Resolve |
| Engine.ResolveCases | main.go:317-336 | a plain command is sent verbatim; a script is the cached text, else the loaded text (then cached), else the path itself |
| Engine.ProcessCaches.ExecuteSteps | main.go:311-354 | the count, the commands executed and the cache equal RunFrom |
| Engine.RunBounds | main.go:314-354 | at most every step passes; one Execute per passed step, plus one for the step that stopped the loop |
| Engine.RunPassedPrefix | main.go:339-348 | the j-th command executed belongs to the j-th step, and every step before the count passed |
| Engine.RunStopsAtFirstFailure | main.go:339-353 | when the loop stops early, the last command is the step at the count, that step failed, and nothing after it ran |
| Engine.RunSucceedsIff | main.go:314-357 | the loop counts every step exactly when one command ran per step and each passed its step |
| Engine.RunSendsPlainCommandsVerbatim | main.go:317 | a step that is not a ".sh" path is executed exactly as written |
| Engine.ProcessCaches.RunHeadless | main.go:251-362 | the outcome and the script cache equal Headless |
| Engine.HeadlessGuards | main.go:256-285 | an empty address, an empty action name, a failed LoadConfig or an unknown action stops before connecting, with the cache unchanged |
| Engine.HeadlessConnects | main.go:288-311 | a failed connection executes nothing; otherwise the step loop runs whatever the preload reported |
| Engine.HeadlessSuccess | main.go:357-361 | "all steps completed" is reported exactly when the run connected and every step executed and validated |

## Findings

| source | as written | input that shows it | evidently intended | confidence | as-written member | corrected member |
|---|---|---|---|---|---|---|
| main.go:65-81 | `fmt.Sscanf(*source, "[%s/%s] %s", …)`: `%s` reads up to the next white space, so the `/` that follows it in the format never matches and the scan always fails | `-headless -source "[pijalu/printer-patcher] main"` uses the default repository with revision `[pijalu/printer-patcher] main` | owner `pijalu`, name `printer-patcher`, revision `main`, as the GUI's parser reads the same string | high, not executed | Sources.ScanNeverMatches, Sources.HeadlessIgnoresRepository | Sources.ParseSourceName (ParseSource, used by Sources.NewProvider) |

## Left out

- The GUI is not modelled: runGUI, createScreen and its widgets, the
  execution dialog and its copy of the step loop (main.go:581-700), the
  refresh of the source list, and the "source unchanged" check
  (main.go:407).
- main's flag handling is not modelled. The headless scan of `-source` is
  modelled only as far as the one format it uses: `ScanToken`/`ScanWord`
  follow fmt's `%s` rule, and newlines are treated like other white space.
- tools/ssh.go is not part of this model. The SSH client is the `Session`
  parameter, and its Close is not modelled.
- GetBranches, GetReleases and http.Get are not modelled as HTTP. Their
  answers are the `api` and `Web` parameters, and the HTTP client's
  timeout is not represented.
- yaml.Unmarshal, regexp, md5/hex and embed.FS are parameters
  (`ConfigParser`, `RepoParser`, `Regex`, `hash`, `Files`). Different URLs
  may share a cache file if `hash` collides, as they could with md5.
- Goroutines, the loadSources callback and the mutexes are left out.
  loadSources is modelled as one sequential call that returns what the
  callback would receive.
- The wall clock is the `now` argument. It does not advance within one
  call, so every entry that call stores carries the same time.
- Logging, printed messages and progress values are left out. Errors keep
  their kind and subject, not their message text.
- config/config.go is not part of this model; its LoadStep behaves like
  LocalProvider.LoadStep. regex-escape/ is a separate tool and is not
  part of this model.
- The RepoOwner/RepoName constants, NewClient and NewDownloader are not
  part of this model. Owner and name are always explicit parameters.
- LoadConfigFromData and LoadStepFromData in config/ are not part of this
  model. They appear as the `parse` parameter and as `Types.ToText`.
- Types.ToText: maps each byte to one character. That agrees with Go's
  string conversion only for ASCII bytes; Go would decode UTF-8, which
  is not modelled.
- Engine.ProcessCaches.GetCachedSources and GetCachedScript are plain
  readers without contracts. What they serve is stated by
  Engine.SourceCacheUpdate, Engine.ScriptCacheUpdate and
  Engine.ScriptExpiresAtTtl about the functions they return.
- Engine.ProcessCaches.RunHeadless: takes the result of the provider's
  LoadConfig and LoadStep as inputs (`config` and a `StepLoader`) rather
  than calling a provider object. The effect those calls have on the
  download cache is therefore not part of this operation's contract.
- ContentCache.Cache.Clear: which files a failed RemoveAll had already
  removed is the `left` parameter; the order in which it removes them is
  not modelled.
- ContentCache.Cache.Get: the removal of a stale file is taken to
  succeed. Go ignores os.Remove's error, and a file that stays behind is
  not modelled.
- Engine.ProcessCaches.PreloadActionScripts: a failed preload is
  reported, not raised, exactly as in runHeadless. Its error message is
  not modelled.
