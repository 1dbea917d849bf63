/** RemoteConfigLoader of config/remote.go: a holder of credentials and
    actions that a parsed catalog overwrites. */
module RemoteLoader {
  import opened Base
  import opened Types

  /** The fields LoadConfig may change. */
  datatype LoaderState = LoaderState(username: string, password: string, actions: seq<Action>)

  /** LoadConfig on the state `st`, given what the YAML parser made of the data:
      a rejected document changes nothing. */
  function ApplyConfig(st: LoaderState, parsed: Option<Config>): (Result<()>, LoaderState)
  {
    match parsed
    case None => (Err(ParseFailed), st)
    case Some(c) => (Ok(()), LoaderState(c.username, c.password, c.actions))
  }

  class RemoteConfigLoader {
    const branch: string
    var username: string
    var password: string
    var actions: seq<Action>

    /** NewRemoteConfigLoader: no actions until a catalog is loaded. */
    constructor (branch: string, username: string, password: string)
      ensures this.branch == branch && this.username == username && this.password == password
      ensures actions == []
    {
      this.branch := branch;
      this.username := username;
      this.password := password;
      actions := [];
    }

    function State(): LoaderState
      reads this
    {
      LoaderState(username, password, actions)
    }

    method LoadConfig(data: bytes, parse: ConfigParser) returns (r: Result<()>)
      modifies this
      ensures (r, State()) == ApplyConfig(old(State()), parse(data))
    {
      var parsed := parse(data);
      if parsed.None? {
        return Err(ParseFailed);
      }
      username := parsed.value.username;
      password := parsed.value.password;
      actions := parsed.value.actions;
      r := Ok(());
    }

    function GetUsername(): (u: string)
      reads this
      ensures u == State().username
    {
      username
    }

    function GetPassword(): (p: string)
      reads this
      ensures p == State().password
    {
      password
    }

    function GetActions(): (a: seq<Action>)
      reads this
      ensures a == State().actions
    {
      actions
    }

    /** LoadStep: the bytes as text, whatever the step is called; it never fails. */
    function LoadStep(step: string, data: bytes): (r: Result<string>)
      ensures r.Ok? && |r.value| == |data|
      ensures forall i :: 0 <= i < |data| ==> r.value[i] as int == data[i] as int
    {
      Ok(ToText(data))
    }
  }

  /** A rejected document leaves every field as it was; an accepted one
      replaces all three with the catalog's values, whatever they were. */
  lemma ApplyConfigCases(st: LoaderState, st': LoaderState, parsed: Option<Config>)
    ensures parsed.None? ==> ApplyConfig(st, parsed) == (Err(ParseFailed), st)
    ensures parsed.Some? ==> ApplyConfig(st, parsed).0.Ok? && ApplyConfig(st, parsed).1 == ApplyConfig(st', parsed).1
    ensures parsed.Some? ==> var s := ApplyConfig(st, parsed).1;
      s.username == parsed.value.username && s.password == parsed.value.password && s.actions == parsed.value.actions
  {
  }

  /** Loading the same document twice is loading it once. */
  lemma ApplyConfigIdempotent(st: LoaderState, parsed: Option<Config>)
    ensures ApplyConfig(ApplyConfig(st, parsed).1, parsed) == ApplyConfig(st, parsed)
  {
  }

  /** After two loads the state is the last accepted catalog: a rejected
      second document keeps the first. */
  lemma LastLoadWins(st: LoaderState, first: Option<Config>, second: Option<Config>)
    ensures var s := ApplyConfig(ApplyConfig(st, first).1, second).1;
      s == (if second.Some? then ApplyConfig(st, second).1 else ApplyConfig(st, first).1)
  {
  }

  /** LoadStep ignores the step name and keeps every byte. */
  lemma LoadStepIgnoresName(l: RemoteConfigLoader, step: string, step': string, data: bytes)
    ensures l.LoadStep(step, data) == l.LoadStep(step', data)
    ensures l.LoadStep(step, data).Ok? && |l.LoadStep(step, data).value| == |data|
  {
  }
}
