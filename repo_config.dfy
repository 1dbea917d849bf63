/** The repository list of config/repo_config.go, read from the embedded
    repo.yaml. */
module RepoConfigs {
  import opened Base
  import opened Strings
  import opened Types

  const RepoFile: string := "repo.yaml"

  /** The repository used when repo.yaml lists none. */
  const DefaultRepo: Repo := Repo("pijalu", "printer-patcher")

  /** GetRepoConfig: reading and parsing errors propagate; an empty list is
      replaced by the single default repository. */
  function GetRepoConfig(files: Files, parse: RepoParser): (r: Result<RepoConfig>)
    ensures r.Ok? ==> |r.value.repositories| > 0
  {
    if RepoFile !in files then Err(NotFound(RepoFile))
    else
      match parse(files[RepoFile])
      case None => Err(ParseFailed)
      case Some(rc) =>
        if |rc.repositories| == 0 then Ok(RepoConfig([DefaultRepo])) else Ok(rc)
  }

  /** GetDefaultRepo: the first repository, if there is one. */
  function GetDefaultRepo(rc: RepoConfig): (r: Option<Repo>)
    ensures r.Some? <==> |rc.repositories| > 0
    ensures r.Some? ==> r.value == rc.repositories[0]
  {
    if |rc.repositories| > 0 then Some(rc.repositories[0]) else None
  }

  /** Repo.GetRepoIdentifier: "owner/name". */
  function RepoIdentifier(r: Repo): (id: string)
    ensures |id| == |r.owner| + 1 + |r.name|
    ensures id[..|r.owner|] == r.owner && id[|r.owner|] == '/' && id[|r.owner| + 1..] == r.name
  {
    r.owner + "/" + r.name
  }

  /** The defaulting rule: an empty parsed list becomes exactly the default
      repository, a non-empty one is kept as it is, in order, and the read and
      parse errors come through unchanged. */
  lemma GetRepoConfigCases(files: Files, parse: RepoParser)
    ensures RepoFile !in files ==> GetRepoConfig(files, parse) == Err(NotFound(RepoFile))
    ensures RepoFile in files && parse(files[RepoFile]).None? ==> GetRepoConfig(files, parse) == Err(ParseFailed)
    ensures RepoFile in files && parse(files[RepoFile]).Some? ==>
      var parsed := parse(files[RepoFile]).value.repositories;
      GetRepoConfig(files, parse) == Ok(RepoConfig(if parsed == [] then [DefaultRepo] else parsed))
  {
  }

  /** After a successful GetRepoConfig there is always a default repository,
      and it is the first one listed. */
  lemma DefaultRepoExists(files: Files, parse: RepoParser)
    requires GetRepoConfig(files, parse).Ok?
    ensures var rc := GetRepoConfig(files, parse).value;
      GetDefaultRepo(rc) == Some(rc.repositories[0])
  {
  }

  /** An identifier splits back at its first "/" into owner and name when the
      owner has no "/" of its own. */
  lemma RepoIdentifierSplits(r: Repo)
    requires '/' !in r.owner
    ensures Cut(RepoIdentifier(r), "/") == Some((r.owner, r.name))
  {
    var s := r.owner + "/" + r.name;
    forall k | 0 <= k < |r.owner| ensures !OccursAt(s, "/", k) {
      assert s[k] == r.owner[k];
      assert s[k..k + 1] == [s[k]];
    }
    CutAtFirst(r.owner, "/", r.name);
  }
}
