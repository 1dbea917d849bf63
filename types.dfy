/** The data model of the configuration package: the action catalog read from
    actions.yaml and the repository list read from repo.yaml. */
module Types {
  import opened Base

  /** One step of an action. `script` is either a command sent as is or, when
      it ends in ".sh", the path of a script file resolved through the active
      source. An empty `expected` means any output is accepted. */
  datatype Step = Step(title: string, description: string, script: string, expected: string)

  /** A maintenance procedure: its steps run strictly in order. */
  datatype Action = Action(title: string, description: string, steps: seq<Step>)

  /** The catalog: remote-shell credentials and the ordered list of actions. */
  datatype Config = Config(username: string, password: string, actions: seq<Action>)

  /** A remote repository identity. */
  datatype Repo = Repo(owner: string, name: string)

  datatype RepoConfig = RepoConfig(repositories: seq<Repo>)

  /** yaml.Unmarshal into a Config or a RepoConfig: None when it rejects the data. */
  type ConfigParser = bytes -> Option<Config>
  type RepoParser = bytes -> Option<RepoConfig>

  /** An embed.FS: file name to content. */
  type Files = map<string, bytes>

  /** Go's string(data): every byte becomes one character. */
  function ToText(data: bytes): (s: string)
    ensures |s| == |data|
    ensures forall i :: 0 <= i < |data| ==> s[i] as int == data[i] as int
  {
    seq(|data|, i requires 0 <= i < |data| => data[i] as char)
  }
}
