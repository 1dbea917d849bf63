/** config/local_provider.go: the catalog and the scripts bundled in the
    program's embedded files. The provider has no state. */
module LocalProvider {
  import opened Base
  import opened Types

  const ActionsFile: string := "actions.yaml"

  /** LoadConfig: read actions.yaml and parse it. */
  function LoadConfig(files: Files, parse: ConfigParser): (r: Result<Config>)
    ensures ActionsFile !in files ==> r == Err(NotFound(ActionsFile))
    ensures ActionsFile in files ==> (r.Ok? <==> parse(files[ActionsFile]).Some?)
    ensures ActionsFile in files && r.Err? ==> r.error == ParseFailed
    ensures r.Ok? ==> parse(files[ActionsFile]) == Some(r.value)
  {
    if ActionsFile !in files then Err(NotFound(ActionsFile))
    else
      match parse(files[ActionsFile])
      case None => Err(ParseFailed)
      case Some(c) => Ok(c)
  }

  /** LoadStep: the text of the embedded file with exactly that name. */
  function LoadStep(files: Files, step: string): (r: Result<string>)
    ensures r.Ok? <==> step in files
    ensures r.Err? ==> r.error == NotFound(step)
    ensures r.Ok? ==> |r.value| == |files[step]| &&
                      forall i :: 0 <= i < |r.value| ==> r.value[i] as int == files[step][i] as int
  {
    if step in files then Ok(ToText(files[step])) else Err(NotFound(step))
  }

  /** GetSourceName: the name the source list uses for the embedded files. */
  function SourceName(): (s: string)
    ensures s == "local"
  {
    "local"
  }

  /** A step loads exactly when a file of that name is embedded, and its text
      is that file's bytes. */
  lemma LoadStepCases(files: Files, step: string)
    ensures LoadStep(files, step).Ok? <==> step in files
    ensures step in files ==> LoadStep(files, step).value == ToText(files[step])
    ensures step in files ==> |LoadStep(files, step).value| == |files[step]|
    ensures step !in files ==> LoadStep(files, step) == Err(NotFound(step))
  {
  }

  /** The catalog loads exactly when actions.yaml is embedded and parses, and
      it is what the parser produced. */
  lemma LoadConfigCases(files: Files, parse: ConfigParser)
    ensures LoadConfig(files, parse).Ok? <==> ActionsFile in files && parse(files[ActionsFile]).Some?
    ensures LoadConfig(files, parse).Ok? ==> Some(LoadConfig(files, parse).value) == parse(files[ActionsFile])
    ensures ActionsFile !in files ==> LoadConfig(files, parse) == Err(NotFound(ActionsFile))
  {
  }
}
