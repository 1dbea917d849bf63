/** The execution pipeline of main.go: the process-wide caches of source
    lists and scripts, loadSources, preloadActionScripts and the headless run
    of an action over a remote shell. The provider's LoadStep is the
    `StepLoader`: its answer to the k-th call of a run, which covers providers
    whose answers depend on earlier calls. The remote shell is a `Session`. */
module Engine {
  import opened Base
  import opened Strings
  import opened Types
  import opened Validation
  import opened Sources

  /** An entry of sourceCache: a source list and when it was stored. */
  datatype SourceEntry = SourceEntry(sources: seq<string>, timestamp: int)

  /** An entry of scriptCache: a script's text and when it was stored. */
  datatype ScriptEntry = ScriptEntry(content: string, timestamp: int)

  type SourceMap = map<string, SourceEntry>
  type ScriptMap = map<string, ScriptEntry>

  /** The single key of sourceCache. */
  const SourcesKey: string := "sources"

  /** Steps whose script ends in this suffix name a script file. */
  const ScriptSuffix: string := ".sh"

  /** The port the remote shell is reached on. */
  const SshPort: int := 22

  /** getCachedSources: an entry is served while it is strictly younger than the TTL. */
  function FreshSources(m: SourceMap, now: int): Option<seq<string>>
  {
    if SourcesKey in m && now - m[SourcesKey].timestamp < TTL then Some(m[SourcesKey].sources) else None
  }

  /** getCachedScript: keyed by the script path alone. */
  function FreshScript(m: ScriptMap, path: string, now: int): Option<string>
  {
    if path in m && now - m[path].timestamp < TTL then Some(m[path].content) else None
  }

  /** The provider's LoadStep: its answer to the call with that index in the run. */
  type StepLoader = (nat, string) -> Result<string>

  /** What Execute gives back for a command: its output, or an error. */
  datatype Reply = Output(text: string) | ExecFailed

  /** The remote shell: whether Connect succeeds for a host, port, user and
      password, and Execute's answer to the call with that index. */
  datatype Session = Session(connect: (string, int, string, string) -> bool, execute: (nat, string) -> Reply)

  predicate IsScript(s: Step) {
    HasSuffix(s.script, ScriptSuffix)
  }

  /** The number of steps that name a script file. */
  function ScriptCount(steps: seq<Step>): nat
  {
    if steps == [] then 0 else (if IsScript(steps[0]) then 1 else 0) + ScriptCount(steps[1..])
  }

  /** The counters of preloadActionScripts, the script cache after it and the
      index of the next LoadStep call. */
  datatype Preload = Preload(preloaded: nat, failed: nat, cache: ScriptMap, calls: nat)

  function Tally(p: nat, f: nat, rest: Preload): Preload {
    rest.(preloaded := rest.preloaded + p, failed := rest.failed + f)
  }

  /** The preload loop over `steps`: a script already cached counts as
      preloaded without a call; otherwise it is loaded and, on success,
      cached; a failure is counted and skipped. */
  function PreloadFrom(steps: seq<Step>, cache: ScriptMap, now: int, load: StepLoader, calls: nat): Preload
  {
    if steps == [] then Preload(0, 0, cache, calls)
    else
      var s := steps[0];
      if !IsScript(s) then PreloadFrom(steps[1..], cache, now, load, calls)
      else if FreshScript(cache, s.script, now).Some? then Tally(1, 0, PreloadFrom(steps[1..], cache, now, load, calls))
      else
        match load(calls, s.script)
        case Err(_) => Tally(0, 1, PreloadFrom(steps[1..], cache, now, load, calls + 1))
        case Ok(c) => Tally(1, 0, PreloadFrom(steps[1..], cache[s.script := ScriptEntry(c, now)], now, load, calls + 1))
  }

  /** One turn of the preload loop, from the counters, cache and call index
      left by the turns before it. */
  function PreloadStep(s: Step, p: Preload, now: int, load: StepLoader): Preload
  {
    if !IsScript(s) then p
    else if FreshScript(p.cache, s.script, now).Some? then p.(preloaded := p.preloaded + 1)
    else
      match load(p.calls, s.script)
      case Err(_) => p.(failed := p.failed + 1, calls := p.calls + 1)
      case Ok(c) => p.(preloaded := p.preloaded + 1, cache := p.cache[s.script := ScriptEntry(c, now)], calls := p.calls + 1)
  }

  /** The state of the preload loop when it reaches turn `i`. */
  function PreloadBefore(steps: seq<Step>, i: nat, cache: ScriptMap, now: int, load: StepLoader, calls: nat): Preload
    requires i <= |steps|
  {
    PreloadFrom(steps[..i], cache, now, load, calls)
  }

  /** Turn `i` needs a LoadStep call: it names a script that is not fresh
      in the cache as the loop finds it. */
  predicate MissAt(steps: seq<Step>, i: nat, cache: ScriptMap, now: int, load: StepLoader, calls: nat)
    requires i < |steps|
  {
    IsScript(steps[i]) && FreshScript(PreloadBefore(steps, i, cache, now, load, calls).cache, steps[i].script, now).None?
  }

  /** The number of turns below `n` that need a LoadStep call. */
  function Misses(steps: seq<Step>, n: nat, cache: ScriptMap, now: int, load: StepLoader, calls: nat): nat
    requires n <= |steps|
  {
    if n == 0 then 0
    else Misses(steps, n - 1, cache, now, load, calls) + (if MissAt(steps, n - 1, cache, now, load, calls) then 1 else 0)
  }

  /** preloadActionScripts: nothing to do without scripts; an error only when
      there are scripts and none was preloaded. */
  function PreloadSpec(action: Action, cache: ScriptMap, now: int, load: StepLoader, calls: nat): (Result<()>, Preload)
  {
    if ScriptCount(action.steps) == 0 then (Ok(()), Preload(0, 0, cache, calls))
    else
      var p := PreloadFrom(action.steps, cache, now, load, calls);
      (if p.preloaded == 0 then Err(NothingPreloaded) else Ok(()), p)
  }

  /** The command sent for a step, the cache after resolving it and the index
      of the next LoadStep call. */
  datatype Resolved = Resolved(command: string, cache: ScriptMap, calls: nat)

  /** A plain command is sent as it is; a script path is replaced by the
      cached text, else by the loaded text (which is then cached), else
      sent as the path itself. */
  function Resolve(s: Step, cache: ScriptMap, now: int, load: StepLoader, calls: nat): Resolved
  {
    if !IsScript(s) then Resolved(s.script, cache, calls)
    else if FreshScript(cache, s.script, now).Some? then Resolved(FreshScript(cache, s.script, now).value, cache, calls)
    else
      match load(calls, s.script)
      case Ok(c) => Resolved(c, cache[s.script := ScriptEntry(c, now)], calls + 1)
      case Err(_) => Resolved(s.script, cache, calls + 1)
  }

  /** How a step's output is judged against its expectation. */
  type Check = (string, string) -> bool

  /** main.go's judgement: the output, trimmed, validated against the
      expected pattern. */
  function OutputCheck(re: Regex): Check {
    (output, expected) => ValidateOutput(re, TrimSpace(output), expected)
  }

  /** A step passes when Execute succeeds and its output passes the check. */
  predicate Passes(check: Check, s: Step, reply: Reply) {
    reply.Output? && check(reply.text, s.expected)
  }

  /** The step loop: the number of steps that passed, the script cache, the
      next LoadStep index, and the commands executed, in order. */
  datatype Run = Run(successful: nat, cache: ScriptMap, calls: nat, executed: seq<string>)

  function Join(n: nat, prefix: seq<string>, rest: Run): Run {
    Run(n + rest.successful, rest.cache, rest.calls, prefix + rest.executed)
  }

  /** The steps run in order, the e-th Execute call being the e-th step; the
      first failure or failed validation ends the loop. */
  function RunFrom(check: Check, steps: seq<Step>, cache: ScriptMap, now: int, load: StepLoader, calls: nat,
                   execute: (nat, string) -> Reply, e: nat): Run
  {
    if steps == [] then Run(0, cache, calls, [])
    else
      var r := Resolve(steps[0], cache, now, load, calls);
      if Passes(check, steps[0], execute(e, r.command)) then
        Join(1, [r.command], RunFrom(check, steps[1..], r.cache, now, load, r.calls, execute, e + 1))
      else Run(0, r.cache, r.calls, [r.command])
  }

  /** One round of the step loop, at index `i`. */
  lemma RunFromUnfold(check: Check, steps: seq<Step>, i: nat, cache: ScriptMap, now: int, load: StepLoader, calls: nat,
                      execute: (nat, string) -> Reply)
    requires i < |steps|
    ensures var r := Resolve(steps[i], cache, now, load, calls);
      RunFrom(check, steps[i..], cache, now, load, calls, execute, i)
      == if Passes(check, steps[i], execute(i, r.command))
         then Join(1, [r.command], RunFrom(check, steps[i + 1..], r.cache, now, load, r.calls, execute, i + 1))
         else Run(0, r.cache, r.calls, [r.command])
  {
    assert steps[i..][0] == steps[i];
    assert steps[i..][1..] == steps[i + 1..];
  }

  lemma JoinStep(i: nat, executed: seq<string>, command: string, rest: Run)
    ensures Join(i, executed, Join(1, [command], rest)) == Join(i + 1, executed + [command], rest)
  {
    assert executed + ([command] + rest.executed) == (executed + [command]) + rest.executed;
  }

  /** The first action with exactly that title. */
  function FirstAction(actions: seq<Action>, title: string): Option<Action>
  {
    if actions == [] then None
    else if actions[0].title == title then Some(actions[0])
    else FirstAction(actions[1..], title)
  }

  /** How runHeadless ends: a guard that returns before connecting, a failed
      connection, or the step loop's counts and commands. */
  datatype Outcome =
    | MissingAddress
    | MissingAction
    | ConfigFailed(error: Error)
    | ActionNotFound
    | ConnectFailed
    | Completed(successful: nat, total: nat, executed: seq<string>)

  /** The "all steps completed" report. */
  predicate Succeeded(o: Outcome) {
    o.Completed? && o.successful == o.total
  }

  /** runHeadless, where `config` is what the provider's LoadConfig gives. */
  function Headless(ip: string, actionName: string, config: Result<Config>, re: Regex, load: StepLoader,
                    session: Session, cache: ScriptMap, now: int): (Outcome, ScriptMap)
  {
    if ip == "" then (MissingAddress, cache)
    else if actionName == "" then (MissingAction, cache)
    else if config.Err? then (ConfigFailed(config.error), cache)
    else
      match FirstAction(config.value.actions, actionName)
      case None => (ActionNotFound, cache)
      case Some(a) =>
        var p := PreloadSpec(a, cache, now, load, 0).1;
        if !session.connect(ip, SshPort, config.value.username, config.value.password) then (ConnectFailed, p.cache)
        else
          var run := RunFrom(OutputCheck(re), a.steps, p.cache, now, load, p.calls, session.execute, 0);
          (Completed(run.successful, |a.steps|, run.executed), run.cache)
  }

  /** loadSources: the cached list when it is fresh, otherwise a fetch whose
      successful result is cached at `now`. */
  function LoadSourcesSpec(m: SourceMap, repoFiles: Files, parseRepos: RepoParser, api: Repo -> Listing, now: int)
    : (Result<seq<string>>, SourceMap)
  {
    match FreshSources(m, now)
    case Some(s) => (Ok(s), m)
    case None =>
      match FetchSourcesSpec(repoFiles, parseRepos, api)
      case Err(e) => (Err(e), m)
      case Ok(s) => (Ok(s), m[SourcesKey := SourceEntry(s, now)])
  }

  /** FindAction: the search loop of runHeadless. */
  method FindAction(actions: seq<Action>, title: string) returns (r: Option<Action>)
    ensures r == FirstAction(actions, title)
  {
    var i := 0;
    while i < |actions|
      invariant 0 <= i <= |actions|
      invariant FirstAction(actions[i..], title) == FirstAction(actions, title)
    {
      assert actions[i..][1..] == actions[i + 1..];
      if actions[i].title == title {
        return Some(actions[i]);
      }
      i := i + 1;
    }
    assert actions[i..] == [];
    r := None;
  }

  /** The process-wide caches sourceCache and scriptCache. */
  class ProcessCaches {
    var sourceCache: SourceMap
    var scriptCache: ScriptMap

    constructor ()
      ensures sourceCache == map[] && scriptCache == map[]
    {
      sourceCache := map[];
      scriptCache := map[];
    }

    function GetCachedSources(now: int): Option<seq<string>>
      reads this
    {
      FreshSources(sourceCache, now)
    }

    method SetCachedSources(sources: seq<string>, now: int)
      modifies this
      ensures sourceCache == old(sourceCache)[SourcesKey := SourceEntry(sources, now)]
      ensures scriptCache == old(scriptCache)
    {
      sourceCache := sourceCache[SourcesKey := SourceEntry(sources, now)];
    }

    function GetCachedScript(path: string, now: int): Option<string>
      reads this
    {
      FreshScript(scriptCache, path, now)
    }

    method SetCachedScript(path: string, content: string, now: int)
      modifies this
      ensures scriptCache == old(scriptCache)[path := ScriptEntry(content, now)]
      ensures sourceCache == old(sourceCache)
    {
      scriptCache := scriptCache[path := ScriptEntry(content, now)];
    }

    /** loadSources, run to completion: `api` answers the GitHub listings. */
    method LoadSources(repoFiles: Files, parseRepos: RepoParser, api: Repo -> Listing, now: int)
      returns (r: Result<seq<string>>)
      modifies this
      ensures (r, sourceCache) == LoadSourcesSpec(old(sourceCache), repoFiles, parseRepos, api, now)
      ensures scriptCache == old(scriptCache)
    {
      var cached := GetCachedSources(now);
      if cached.Some? {
        return Ok(cached.value);
      }
      r := FetchSources(repoFiles, parseRepos, api);
      if r.Ok? {
        SetCachedSources(r.value, now);
      }
    }

    /** preloadActionScripts; `calls` is the index of the next LoadStep call
        and `next` the index after the preload. */
    method PreloadActionScripts(action: Action, load: StepLoader, now: int, calls: nat)
      returns (r: Result<()>, next: nat)
      modifies this
      ensures var (res, p) := PreloadSpec(action, old(scriptCache), now, load, calls);
        r == res && next == p.calls && scriptCache == p.cache
      ensures sourceCache == old(sourceCache)
    {
      var steps := action.steps;
      var scriptCount := 0;
      var i := 0;
      while i < |steps|
        invariant 0 <= i <= |steps|
        invariant scriptCount + ScriptCount(steps[i..]) == ScriptCount(steps)
      {
        assert steps[i..][1..] == steps[i + 1..];
        if HasSuffix(steps[i].script, ScriptSuffix) {
          scriptCount := scriptCount + 1;
        }
        i := i + 1;
      }
      assert steps[i..] == [];
      if scriptCount == 0 {
        return Ok(()), calls;
      }
      var preloaded, failed := 0, 0;
      next := calls;
      i := 0;
      while i < |steps|
        invariant 0 <= i <= |steps|
        invariant sourceCache == old(sourceCache)
        invariant PreloadFrom(steps, old(scriptCache), now, load, calls)
               == Tally(preloaded, failed, PreloadFrom(steps[i..], scriptCache, now, load, next))
      {
        assert steps[i..][1..] == steps[i + 1..];
        var step := steps[i];
        if HasSuffix(step.script, ScriptSuffix) {
          var cached := GetCachedScript(step.script, now);
          if cached.Some? {
            preloaded := preloaded + 1;
          } else {
            var content := load(next, step.script);
            next := next + 1;
            if content.Err? {
              failed := failed + 1;
            } else {
              SetCachedScript(step.script, content.value, now);
              preloaded := preloaded + 1;
            }
          }
        }
        i := i + 1;
      }
      assert steps[i..] == [];
      if scriptCount > 0 && preloaded == 0 {
        r := Err(NothingPreloaded);
      } else {
        r := Ok(());
      }
    }

    /** The command resolution at the head of each round of the step loop. */
    method ResolveStep(step: Step, load: StepLoader, now: int, calls: nat) returns (command: string, next: nat)
      modifies this
      ensures Resolved(command, scriptCache, next) == Resolve(step, old(scriptCache), now, load, calls)
      ensures sourceCache == old(sourceCache)
    {
      command, next := step.script, calls;
      if HasSuffix(step.script, ScriptSuffix) {
        var cached := GetCachedScript(step.script, now);
        if cached.Some? {
          command := cached.value;
        } else {
          var content := load(next, step.script);
          next := next + 1;
          if content.Ok? {
            command := content.value;
            SetCachedScript(step.script, content.value, now);
          }
        }
      }
    }

    /** The step loop of runHeadless: `successful` counts the steps that passed. */
    method ExecuteSteps(check: Check, steps: seq<Step>, load: StepLoader, execute: (nat, string) -> Reply,
                        now: int, calls: nat)
      returns (successful: nat, executed: seq<string>, next: nat)
      modifies this
      ensures Run(successful, scriptCache, next, executed) == RunFrom(check, steps, old(scriptCache), now, load, calls, execute, 0)
      ensures sourceCache == old(sourceCache)
    {
      successful, executed, next := 0, [], calls;
      ghost var goal := RunFrom(check, steps, old(scriptCache), now, load, calls, execute, 0);
      var i := 0;
      while i < |steps|
        invariant 0 <= i <= |steps| && successful == i
        invariant sourceCache == old(sourceCache)
        invariant goal == Join(i, executed, RunFrom(check, steps[i..], scriptCache, now, load, next, execute, i))
      {
        RunFromUnfold(check, steps, i, scriptCache, now, load, next, execute);
        var step := steps[i];
        var command;
        command, next := ResolveStep(step, load, now, next);
        var reply := execute(i, command);
        if reply.ExecFailed? || !check(reply.text, step.expected) {
          executed := executed + [command];
          assert goal == Run(successful, scriptCache, next, executed);
          break;
        }
        JoinStep(i, executed, command, RunFrom(check, steps[i + 1..], scriptCache, now, load, next, execute, i + 1));
        executed := executed + [command];
        successful := successful + 1;
        i := i + 1;
      }
      if i == |steps| {
        assert steps[i..] == [] && executed + [] == executed;
      }
    }

    /** runHeadless: `config` is the provider's LoadConfig result. */
    method RunHeadless(ip: string, actionName: string, config: Result<Config>, re: Regex, load: StepLoader,
                       session: Session, now: int)
      returns (o: Outcome)
      modifies this
      ensures (o, scriptCache) == Headless(ip, actionName, config, re, load, session, old(scriptCache), now)
      ensures sourceCache == old(sourceCache)
    {
      if ip == "" {
        return MissingAddress;
      }
      if actionName == "" {
        return MissingAction;
      }
      if config.Err? {
        return ConfigFailed(config.error);
      }
      var action := FindAction(config.value.actions, actionName);
      if action.None? {
        return ActionNotFound;
      }
      var a := action.value;
      var preloadResult, calls := PreloadActionScripts(a, load, now, 0);
      // a failed preload is only reported: the run goes on
      if !session.connect(ip, SshPort, config.value.username, config.value.password) {
        return ConnectFailed;
      }
      var successful, executed, _ := ExecuteSteps(OutputCheck(re), a.steps, load, session.execute, now, calls);
      o := Completed(successful, |a.steps|, executed);
    }
  }

  /** The script cache is keyed by path alone: storing a script makes it
      served for its path while strictly younger than 24 hours, and leaves
      every other path as it was. */
  lemma ScriptCacheUpdate(m: ScriptMap, path: string, content: string, t: int, q: string, t': int)
    ensures FreshScript(m[path := ScriptEntry(content, t)], q, t')
         == if q == path then (if t' - t < TTL then Some(content) else None) else FreshScript(m, q, t')
  {
  }

  /** A script entry exactly 24 hours old is no longer served. */
  lemma ScriptExpiresAtTtl(m: ScriptMap, path: string, now: int)
    requires path in m && now - m[path].timestamp == TTL
    ensures FreshScript(m, path, now) == None
  {
  }

  /** Storing a source list replaces the previous one; it is served while
      strictly younger than 24 hours. */
  lemma SourceCacheUpdate(m: SourceMap, sources: seq<string>, t: int, t': int)
    ensures FreshSources(m[SourcesKey := SourceEntry(sources, t)], t') == if t' - t < TTL then Some(sources) else None
  {
  }

  /** A fresh cached list is returned without consulting the repository list
      or the API, and nothing changes. */
  lemma LoadSourcesHit(m: SourceMap, repoFiles: Files, parseRepos: RepoParser, api: Repo -> Listing,
                       repoFiles': Files, parseRepos': RepoParser, api': Repo -> Listing, now: int)
    requires FreshSources(m, now).Some?
    ensures LoadSourcesSpec(m, repoFiles, parseRepos, api, now) == (Ok(FreshSources(m, now).value), m)
    ensures LoadSourcesSpec(m, repoFiles, parseRepos, api, now) == LoadSourcesSpec(m, repoFiles', parseRepos', api', now)
  {
  }

  /** A fetched list is served by every later call in the next 24 hours,
      whatever the API would then answer; a failed fetch caches nothing. */
  lemma LoadSourcesRoundTrip(m: SourceMap, repoFiles: Files, parseRepos: RepoParser, api: Repo -> Listing,
                             repoFiles': Files, parseRepos': RepoParser, api': Repo -> Listing, t: int, t': int)
    requires FreshSources(m, t).None?
    requires 0 <= t' - t < TTL
    ensures var (r, m1) := LoadSourcesSpec(m, repoFiles, parseRepos, api, t);
      r == FetchSourcesSpec(repoFiles, parseRepos, api) &&
      (r.Err? ==> m1 == m) &&
      (r.Ok? ==> LoadSourcesSpec(m1, repoFiles', parseRepos', api', t') == (r, m1))
  {
  }

  /** Every script is either preloaded or failed, and at most one LoadStep
      call is made per script. */
  lemma {:induction false} PreloadCounts(steps: seq<Step>, cache: ScriptMap, now: int, load: StepLoader, calls: nat)
    ensures var p := PreloadFrom(steps, cache, now, load, calls);
      p.preloaded + p.failed == ScriptCount(steps) && calls <= p.calls <= calls + ScriptCount(steps)
  {
    if steps != [] {
      var s := steps[0];
      var cache' := if IsScript(s) && FreshScript(cache, s.script, now).None? && load(calls, s.script).Ok?
                    then cache[s.script := ScriptEntry(load(calls, s.script).value, now)] else cache;
      var calls' := if IsScript(s) && FreshScript(cache, s.script, now).None? then calls + 1 else calls;
      PreloadCounts(steps[1..], cache', now, load, calls');
    }
  }

  /** preloadActionScripts fails exactly when the action has scripts and
      every one of them failed to load. */
  lemma PreloadErrorIff(action: Action, cache: ScriptMap, now: int, load: StepLoader, calls: nat)
    ensures var (r, p) := PreloadSpec(action, cache, now, load, calls);
      r.Err? <==> ScriptCount(action.steps) > 0 && p.failed == ScriptCount(action.steps)
  {
    PreloadCounts(action.steps, cache, now, load, calls);
  }

  /** An action without scripts succeeds with no LoadStep call and leaves
      the cache as it was. */
  lemma PreloadNoScripts(action: Action, cache: ScriptMap, now: int, load: StepLoader, calls: nat)
    requires ScriptCount(action.steps) == 0
    ensures PreloadSpec(action, cache, now, load, calls) == (Ok(()), Preload(0, 0, cache, calls))
  {
  }

  /** When every script is already cached, all count as preloaded, no
      LoadStep call is made and the cache is as it was. */
  lemma {:induction false} PreloadAllCached(steps: seq<Step>, cache: ScriptMap, now: int, load: StepLoader, calls: nat)
    requires forall j :: 0 <= j < |steps| && IsScript(steps[j]) ==> FreshScript(cache, steps[j].script, now).Some?
    ensures PreloadFrom(steps, cache, now, load, calls) == Preload(ScriptCount(steps), 0, cache, calls)
  {
    if steps != [] {
      forall j | 0 <= j < |steps[1..]| && IsScript(steps[1..][j])
        ensures FreshScript(cache, steps[1..][j].script, now).Some?
      {
        assert steps[1..][j] == steps[j + 1];
      }
      PreloadAllCached(steps[1..], cache, now, load, calls);
    }
  }

  /** A failed load leaves the cache unchanged: when every load fails, the
      preload caches nothing. */
  lemma {:induction false} PreloadFailuresCacheNothing(steps: seq<Step>, cache: ScriptMap, now: int, load: StepLoader, calls: nat)
    requires forall k: nat, path :: load(k, path).Err?
    ensures PreloadFrom(steps, cache, now, load, calls).cache == cache
  {
    if steps != [] {
      var s := steps[0];
      var calls' := if IsScript(s) && FreshScript(cache, s.script, now).None? then calls + 1 else calls;
      PreloadFailuresCacheNothing(steps[1..], cache, now, load, calls');
    }
  }

  /** A script fresh in the cache before the preload is never reloaded: its
      entry is the same after it. */
  lemma {:induction false} PreloadKeepsFresh(steps: seq<Step>, cache: ScriptMap, now: int, load: StepLoader, calls: nat, path: string)
    requires FreshScript(cache, path, now).Some?
    ensures var f := PreloadFrom(steps, cache, now, load, calls).cache;
      path in f && f[path] == cache[path]
  {
    if steps != [] {
      var s := steps[0];
      var cache' := if IsScript(s) && FreshScript(cache, s.script, now).None? && load(calls, s.script).Ok?
                    then cache[s.script := ScriptEntry(load(calls, s.script).value, now)] else cache;
      var calls' := if IsScript(s) && FreshScript(cache, s.script, now).None? then calls + 1 else calls;
      assert path in cache' && cache'[path] == cache[path];
      PreloadKeepsFresh(steps[1..], cache', now, load, calls', path);
    }
  }

  /** Each successful load is stored under its path: when no load fails,
      every script of the action is cached afterwards. */
  lemma {:induction false} PreloadCachesAll(steps: seq<Step>, cache: ScriptMap, now: int, load: StepLoader, calls: nat)
    requires PreloadFrom(steps, cache, now, load, calls).failed == 0
    ensures forall j :: 0 <= j < |steps| && IsScript(steps[j]) ==>
      FreshScript(PreloadFrom(steps, cache, now, load, calls).cache, steps[j].script, now).Some?
  {
    if steps != [] {
      var s := steps[0];
      var cache' := if IsScript(s) && FreshScript(cache, s.script, now).None? && load(calls, s.script).Ok?
                    then cache[s.script := ScriptEntry(load(calls, s.script).value, now)] else cache;
      var calls' := if IsScript(s) && FreshScript(cache, s.script, now).None? then calls + 1 else calls;
      var final := PreloadFrom(steps, cache, now, load, calls).cache;
      assert final == PreloadFrom(steps[1..], cache', now, load, calls').cache;
      PreloadCachesAll(steps[1..], cache', now, load, calls');
      if IsScript(s) {
        assert FreshScript(cache', s.script, now).Some?;
        PreloadKeepsFresh(steps[1..], cache', now, load, calls', s.script);
      }
      forall j | 0 <= j < |steps| && IsScript(steps[j]) ensures FreshScript(final, steps[j].script, now).Some? {
        if j > 0 {
          assert steps[j] == steps[1..][j - 1];
        }
      }
    }
  }

  /** The preload over `xs + ys` is the preload over `ys` started from the
      state the preload over `xs` leaves, with the counters added up. */
  lemma {:induction false} PreloadConcat(xs: seq<Step>, ys: seq<Step>, cache: ScriptMap, now: int, load: StepLoader, calls: nat)
    ensures var t := PreloadFrom(xs, cache, now, load, calls);
      PreloadFrom(xs + ys, cache, now, load, calls)
      == Tally(t.preloaded, t.failed, PreloadFrom(ys, t.cache, now, load, t.calls))
  {
    if xs == [] {
      assert xs + ys == ys;
    } else {
      var s := xs[0];
      assert (xs + ys)[0] == s;
      assert (xs + ys)[1..] == xs[1..] + ys;
      var cache' := if IsScript(s) && FreshScript(cache, s.script, now).None? && load(calls, s.script).Ok?
                    then cache[s.script := ScriptEntry(load(calls, s.script).value, now)] else cache;
      var calls' := if IsScript(s) && FreshScript(cache, s.script, now).None? then calls + 1 else calls;
      PreloadConcat(xs[1..], ys, cache', now, load, calls');
    }
  }

  /** The loop state after turn `i` is turn `i` applied to the state before it. */
  lemma PreloadStepAt(steps: seq<Step>, i: nat, cache: ScriptMap, now: int, load: StepLoader, calls: nat)
    requires i < |steps|
    ensures PreloadBefore(steps, i + 1, cache, now, load, calls)
         == PreloadStep(steps[i], PreloadBefore(steps, i, cache, now, load, calls), now, load)
  {
    assert steps[..i + 1] == steps[..i] + [steps[i]];
    PreloadConcat(steps[..i], [steps[i]], cache, now, load, calls);
    assert [steps[i]][1..] == [];
  }

  /** The preload as a whole continues from the state before any turn. */
  lemma PreloadFromTurn(steps: seq<Step>, i: nat, cache: ScriptMap, now: int, load: StepLoader, calls: nat)
    requires i <= |steps|
    ensures var t := PreloadBefore(steps, i, cache, now, load, calls);
      PreloadFrom(steps, cache, now, load, calls).cache == PreloadFrom(steps[i..], t.cache, now, load, t.calls).cache
  {
    assert steps == steps[..i] + steps[i..];
    PreloadConcat(steps[..i], steps[i..], cache, now, load, calls);
  }

  lemma {:induction false} PreloadCallsBefore(steps: seq<Step>, n: nat, cache: ScriptMap, now: int, load: StepLoader, calls: nat)
    requires n <= |steps|
    ensures PreloadBefore(steps, n, cache, now, load, calls).calls == calls + Misses(steps, n, cache, now, load, calls)
  {
    if n > 0 {
      PreloadCallsBefore(steps, n - 1, cache, now, load, calls);
      PreloadStepAt(steps, n - 1, cache, now, load, calls);
    }
  }

  /** One LoadStep call is made for each turn whose script is not fresh at
      that turn, and no other. */
  lemma PreloadCallsCount(steps: seq<Step>, cache: ScriptMap, now: int, load: StepLoader, calls: nat)
    ensures PreloadFrom(steps, cache, now, load, calls).calls == calls + Misses(steps, |steps|, cache, now, load, calls)
  {
    PreloadCallsBefore(steps, |steps|, cache, now, load, calls);
    assert steps[..|steps|] == steps;
  }

  /** A script loaded at its turn is cached, fresh, with the loaded text
      when the preload ends: no later turn reloads it. */
  lemma PreloadStoresLoaded(steps: seq<Step>, i: nat, cache: ScriptMap, now: int, load: StepLoader, calls: nat)
    requires i < |steps| && MissAt(steps, i, cache, now, load, calls)
    requires load(PreloadBefore(steps, i, cache, now, load, calls).calls, steps[i].script).Ok?
    ensures FreshScript(PreloadFrom(steps, cache, now, load, calls).cache, steps[i].script, now)
         == Some(load(PreloadBefore(steps, i, cache, now, load, calls).calls, steps[i].script).value)
  {
    var path := steps[i].script;
    var t := PreloadBefore(steps, i + 1, cache, now, load, calls);
    PreloadStepAt(steps, i, cache, now, load, calls);
    assert t.cache[path] == ScriptEntry(load(PreloadBefore(steps, i, cache, now, load, calls).calls, path).value, now);
    PreloadKeepsFresh(steps[i + 1..], t.cache, now, load, t.calls, path);
    PreloadFromTurn(steps, i + 1, cache, now, load, calls);
  }

  /** A path that no LoadStep call can load keeps the entry it had, or
      stays absent. */
  lemma {:induction false} PreloadUnloadableKept(steps: seq<Step>, cache: ScriptMap, now: int, load: StepLoader, calls: nat, path: string)
    requires forall k: nat :: load(k, path).Err?
    ensures var f := PreloadFrom(steps, cache, now, load, calls).cache;
      (path in f <==> path in cache) && (path in cache ==> f[path] == cache[path])
  {
    if steps != [] {
      var s := steps[0];
      var cache' := if IsScript(s) && FreshScript(cache, s.script, now).None? && load(calls, s.script).Ok?
                    then cache[s.script := ScriptEntry(load(calls, s.script).value, now)] else cache;
      var calls' := if IsScript(s) && FreshScript(cache, s.script, now).None? then calls + 1 else calls;
      assert (path in cache' <==> path in cache) && (path in cache ==> cache'[path] == cache[path]);
      PreloadUnloadableKept(steps[1..], cache', now, load, calls', path);
    }
  }

  /** The four ways a step's command is chosen. */
  lemma ResolveCases(s: Step, cache: ScriptMap, now: int, load: StepLoader, calls: nat)
    ensures !IsScript(s) ==> Resolve(s, cache, now, load, calls) == Resolved(s.script, cache, calls)
    ensures IsScript(s) && FreshScript(cache, s.script, now).Some? ==>
      Resolve(s, cache, now, load, calls) == Resolved(FreshScript(cache, s.script, now).value, cache, calls)
    ensures IsScript(s) && FreshScript(cache, s.script, now).None? && load(calls, s.script).Ok? ==>
      var c := load(calls, s.script).value;
      Resolve(s, cache, now, load, calls) == Resolved(c, cache[s.script := ScriptEntry(c, now)], calls + 1) &&
      FreshScript(Resolve(s, cache, now, load, calls).cache, s.script, now) == Some(c)
    ensures IsScript(s) && FreshScript(cache, s.script, now).None? && load(calls, s.script).Err? ==>
      Resolve(s, cache, now, load, calls) == Resolved(s.script, cache, calls + 1)
  {
  }

  /** At most every step passes, and there is one Execute call per passed
      step plus one for the step that stopped the loop, if any. */
  lemma {:induction false} RunBounds(check: Check, steps: seq<Step>, cache: ScriptMap, now: int, load: StepLoader, calls: nat,
                                     execute: (nat, string) -> Reply, e: nat)
    ensures var r := RunFrom(check, steps, cache, now, load, calls, execute, e);
      r.successful <= |steps| && |r.executed| == (if r.successful == |steps| then r.successful else r.successful + 1)
  {
    if steps != [] {
      var r := Resolve(steps[0], cache, now, load, calls);
      if Passes(check, steps[0], execute(e, r.command)) {
        RunBounds(check, steps[1..], r.cache, now, load, r.calls, execute, e + 1);
      }
    }
  }

  /** The j-th command executed, by the e+j-th Execute call, passed the
      j-th step. */
  predicate PassedAt(check: Check, steps: seq<Step>, execute: (nat, string) -> Reply, e: nat, executed: seq<string>, j: nat)
    requires j < |steps| && j < |executed|
  {
    Passes(check, steps[j], execute(e + j, executed[j]))
  }

  /** In order: the j-th command executed belongs to the j-th step, and
      every step before the count passed. */
  lemma {:induction false} RunPassedPrefix(check: Check, steps: seq<Step>, cache: ScriptMap, now: int, load: StepLoader,
                                           calls: nat, execute: (nat, string) -> Reply, e: nat)
    ensures var r := RunFrom(check, steps, cache, now, load, calls, execute, e);
      r.successful <= |steps| && r.successful <= |r.executed| &&
      forall j: nat :: j < r.successful ==> PassedAt(check, steps, execute, e, r.executed, j)
  {
    if steps != [] {
      var r0 := Resolve(steps[0], cache, now, load, calls);
      if Passes(check, steps[0], execute(e, r0.command)) {
        RunPassedPrefix(check, steps[1..], r0.cache, now, load, r0.calls, execute, e + 1);
        var rest := RunFrom(check, steps[1..], r0.cache, now, load, r0.calls, execute, e + 1);
        var r := RunFrom(check, steps, cache, now, load, calls, execute, e);
        assert r == Join(1, [r0.command], rest);
        forall j: nat | j < r.successful ensures PassedAt(check, steps, execute, e, r.executed, j) {
          if j > 0 {
            var k := j - 1;
            assert PassedAt(check, steps[1..], execute, e + 1, rest.executed, k);
            assert steps[j] == steps[1..][k];
            assert r.executed[j] == rest.executed[k];
            assert e + j == (e + 1) + k;
          }
        }
      }
    }
  }

  /** Fail-fast: when the loop stops early, the last command executed is
      that of the step at the count, and that step failed; nothing after it
      ran. */
  lemma {:induction false} RunStopsAtFirstFailure(check: Check, steps: seq<Step>, cache: ScriptMap, now: int, load: StepLoader,
                                                  calls: nat, execute: (nat, string) -> Reply, e: nat)
    ensures var r := RunFrom(check, steps, cache, now, load, calls, execute, e);
      r.successful < |steps| ==>
        |r.executed| == r.successful + 1 &&
        !Passes(check, steps[r.successful], execute(e + r.successful, r.executed[r.successful]))
  {
    if steps != [] {
      var r0 := Resolve(steps[0], cache, now, load, calls);
      if Passes(check, steps[0], execute(e, r0.command)) {
        RunStopsAtFirstFailure(check, steps[1..], r0.cache, now, load, r0.calls, execute, e + 1);
        var rest := RunFrom(check, steps[1..], r0.cache, now, load, r0.calls, execute, e + 1);
        var r := RunFrom(check, steps, cache, now, load, calls, execute, e);
        assert r == Join(1, [r0.command], rest);
        if r.successful < |steps| {
          var k := rest.successful;
          assert steps[r.successful] == steps[1..][k];
          assert r.executed[r.successful] == rest.executed[k];
          assert e + r.successful == (e + 1) + k;
        }
      }
    }
  }

  /** A run from the first Execute call passes every step exactly when it
      executed one command per step and each of them passed its step. */
  lemma RunSucceedsIff(check: Check, steps: seq<Step>, cache: ScriptMap, now: int, load: StepLoader, calls: nat,
                       execute: (nat, string) -> Reply)
    ensures var r := RunFrom(check, steps, cache, now, load, calls, execute, 0);
      r.successful == |steps| <==>
        |r.executed| == |steps| && forall j :: 0 <= j < |steps| ==> Passes(check, steps[j], execute(j, r.executed[j]))
  {
    var r := RunFrom(check, steps, cache, now, load, calls, execute, 0);
    RunBounds(check, steps, cache, now, load, calls, execute, 0);
    RunPassedPrefix(check, steps, cache, now, load, calls, execute, 0);
    RunStopsAtFirstFailure(check, steps, cache, now, load, calls, execute, 0);
    if r.successful == |steps| {
      forall j | 0 <= j < |steps| ensures Passes(check, steps[j], execute(j, r.executed[j])) {
        assert PassedAt(check, steps, execute, 0, r.executed, j);
      }
    } else {
      var k := r.successful;
      assert !Passes(check, steps[k], execute(k, r.executed[k]));
    }
  }

  /** A step whose script is not a ".sh" path is sent verbatim. */
  lemma {:induction false} RunSendsPlainCommandsVerbatim(check: Check, steps: seq<Step>, cache: ScriptMap, now: int,
                                                         load: StepLoader, calls: nat, execute: (nat, string) -> Reply, e: nat)
    ensures var r := RunFrom(check, steps, cache, now, load, calls, execute, e);
      |r.executed| <= |steps| &&
      forall j :: 0 <= j < |r.executed| && !IsScript(steps[j]) ==> r.executed[j] == steps[j].script
  {
    if steps != [] {
      var r0 := Resolve(steps[0], cache, now, load, calls);
      if Passes(check, steps[0], execute(e, r0.command)) {
        RunSendsPlainCommandsVerbatim(check, steps[1..], r0.cache, now, load, r0.calls, execute, e + 1);
        var rest := RunFrom(check, steps[1..], r0.cache, now, load, r0.calls, execute, e + 1);
        var r := RunFrom(check, steps, cache, now, load, calls, execute, e);
        forall j | 0 <= j < |r.executed| && !IsScript(steps[j]) ensures r.executed[j] == steps[j].script {
          if j > 0 {
            assert steps[j] == steps[1..][j - 1];
            assert r.executed[j] == rest.executed[j - 1];
          }
        }
      }
    }
  }

  /** The first action with the title, when there is one; every earlier
      action has another title. */
  lemma {:induction false} FirstActionSpec(actions: seq<Action>, title: string)
    ensures FirstAction(actions, title).None? <==> forall i :: 0 <= i < |actions| ==> actions[i].title != title
    ensures FirstAction(actions, title).Some? ==>
      exists i :: 0 <= i < |actions| && actions[i] == FirstAction(actions, title).value && actions[i].title == title &&
                  forall j :: 0 <= j < i ==> actions[j].title != title
  {
    if actions != [] && actions[0].title != title {
      FirstActionSpec(actions[1..], title);
      if FirstAction(actions, title).Some? {
        var i :| 0 <= i < |actions[1..]| && actions[1..][i] == FirstAction(actions, title).value && actions[1..][i].title == title &&
                 forall j :: 0 <= j < i ==> actions[1..][j].title != title;
        assert actions[i + 1] == actions[1..][i];
        forall j | 0 <= j < i + 1 ensures actions[j].title != title {
          if j > 0 { assert actions[j] == actions[1..][j - 1]; }
        }
      } else {
        forall i | 0 <= i < |actions| ensures actions[i].title != title {
          if i > 0 { assert actions[i] == actions[1..][i - 1]; }
        }
      }
    }
  }

  /** An empty address, an empty action name, a failed LoadConfig or an
      unknown action returns before connecting, executing nothing and
      leaving the cache as it was. */
  lemma HeadlessGuards(ip: string, actionName: string, config: Result<Config>, re: Regex, load: StepLoader,
                       session: Session, cache: ScriptMap, now: int)
    ensures ip == "" ==> Headless(ip, actionName, config, re, load, session, cache, now) == (MissingAddress, cache)
    ensures ip != "" && actionName == "" ==> Headless(ip, actionName, config, re, load, session, cache, now) == (MissingAction, cache)
    ensures ip != "" && actionName != "" && config.Err? ==>
      Headless(ip, actionName, config, re, load, session, cache, now) == (ConfigFailed(config.error), cache)
    ensures ip != "" && actionName != "" && config.Ok? && FirstAction(config.value.actions, actionName).None? ==>
      Headless(ip, actionName, config, re, load, session, cache, now) == (ActionNotFound, cache)
  {
  }

  /** Past the guards, a failed connection executes nothing, and otherwise
      the step loop runs whatever the preload reported. */
  lemma HeadlessConnects(ip: string, actionName: string, config: Result<Config>, re: Regex, load: StepLoader,
                         session: Session, cache: ScriptMap, now: int)
    requires ip != "" && actionName != "" && config.Ok? && FirstAction(config.value.actions, actionName).Some?
    ensures var a := FirstAction(config.value.actions, actionName).value;
      var p := PreloadSpec(a, cache, now, load, 0).1;
      var o := Headless(ip, actionName, config, re, load, session, cache, now).0;
      (!session.connect(ip, SshPort, config.value.username, config.value.password) ==> o == ConnectFailed) &&
      (session.connect(ip, SshPort, config.value.username, config.value.password) ==>
         o.Completed? && o.total == |a.steps| &&
         o.successful == RunFrom(OutputCheck(re), a.steps, p.cache, now, load, p.calls, session.execute, 0).successful)
  {
  }

  /** The run reports success exactly when it connected and every step of
      the action executed and validated; an action without steps succeeds. */
  lemma HeadlessSuccess(ip: string, actionName: string, config: Result<Config>, re: Regex, load: StepLoader,
                        session: Session, cache: ScriptMap, now: int)
    ensures var o := Headless(ip, actionName, config, re, load, session, cache, now).0;
      Succeeded(o) <==>
        o.Completed? && |o.executed| == o.total &&
        (forall j :: 0 <= j < o.total ==> Passes(OutputCheck(re), FirstAction(config.value.actions, actionName).value.steps[j],
                                                 session.execute(j, o.executed[j])))
    ensures var o := Headless(ip, actionName, config, re, load, session, cache, now).0;
      o.Completed? && o.total == 0 ==> Succeeded(o) && o.executed == []
  {
    var o := Headless(ip, actionName, config, re, load, session, cache, now).0;
    if o.Completed? {
      var a := FirstAction(config.value.actions, actionName).value;
      var p := PreloadSpec(a, cache, now, load, 0).1;
      RunSucceedsIff(OutputCheck(re), a.steps, p.cache, now, load, p.calls, session.execute);
    }
  }

}
