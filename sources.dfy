/** The source strings of main.go: the list fetchSources offers, the
    "[owner/name] revision" format it writes, the parser that reads such a
    string back when the user picks it, and the name of the active source. */
module Sources {
  import opened Base
  import opened Strings
  import opened Types
  import opened GitHubClient
  import opened RepoConfigs
  import opened RemoteProvider
  import opened Providers
  import opened ContentCache

  /** The separators of the format. */
  const Close: string := "] "
  const Open: string := "["

  /** A revision of a repository as fetchSources lists it. */
  function SourceName(owner: string, name: string, rev: string): string {
    Open + owner + "/" + name + Close + rev
  }

  /** What the selection handler does with a chosen source. */
  datatype Choice =
    | LocalChoice                                          // the embedded files
    | RepoChoice(owner: string, name: string, branch: string)  // NewRemoteConfigProviderWithRepo
    | DefaultRepoChoice(branch: string)                    // NewRemoteConfigProvider

  /** The parse of a chosen source string: split once at "] ", drop one
      leading "[", split once at "/"; anything that does not have both
      separators is a revision of the default repository. */
  function ParseSource(value: string): (c: Choice)
    ensures c.LocalChoice? <==> value == "local"
    ensures c.DefaultRepoChoice? ==> c.branch == value
    ensures c.RepoChoice? ==> '/' !in c.owner
    ensures c.RepoChoice? ==> value == SourceName(c.owner, c.name, c.branch) ||
                              value == c.owner + "/" + c.name + Close + c.branch
  {
    if value == "local" then LocalChoice
    else
      match Cut(value, Close)
      case None => DefaultRepoChoice(value)
      case Some((head, branch)) =>
        match Cut(TrimPrefix(head, Open), "/")
        case None => DefaultRepoChoice(value)
        case Some((owner, name)) =>
          CutHeadFree(TrimPrefix(head, Open), '/');
          RepoSourceShape(value, head, branch, owner, name);
          RepoChoice(owner, name, branch)
  }

  /** A source split into "owner/name" (after one optional "[") and the revision. */
  lemma RepoSourceShape(value: string, head: string, branch: string, owner: string, name: string)
    requires value == head + Close + branch && TrimPrefix(head, Open) == owner + "/" + name
    ensures value == SourceName(owner, name, branch) || value == owner + "/" + name + Close + branch
  {
    if HasPrefix(head, Open) {
      assert head == Open + (owner + "/" + name);
      assert value == SourceName(owner, name, branch);
    } else {
      assert head == owner + "/" + name;
    }
  }

  /** The name of the active source (main.go's currentSource): the remote
      provider's revision is qualified by its repository unless it is "local". */
  function CurrentSourceName(p: Provider): (s: string)
    ensures p.Local? ==> s == "local"
    ensures p.Remote? && p.remote.branch != "local" ==> s == SourceName(p.remote.owner, p.remote.name, p.remote.branch)
    ensures p.Remote? && p.remote.branch == "local" ==> s == "local"
  {
    var s := Providers.SourceName(p);
    if s != "local" && p.Remote? then Open + p.remote.GetRepoIdentifier() + Close + p.remote.GetSourceName()
    else s
  }

  /** What GetBranchNames answers for a repository: the two API listings. */
  datatype Listing = Listing(branches: Result<seq<Branch>>, releases: Result<seq<Release>>)

  /** The entries of one repository: every revision but "local", qualified. */
  function RepoSources(r: Repo, revs: seq<string>): seq<string>
  {
    if revs == [] then []
    else (if revs[0] != "local" then [SourceName(r.owner, r.name, revs[0])] else []) + RepoSources(r, revs[1..])
  }

  /** The entries one repository adds; none when its listing fails. */
  function RepoEntries(r: Repo, api: Repo -> Listing): seq<string>
  {
    match BranchNames(api(r).branches, api(r).releases)
    case Err(_) => []
    case Ok(revs) => RepoSources(r, revs)
  }

  /** The entries of every repository, in the configured order. */
  function AllRepoSources(repos: seq<Repo>, api: Repo -> Listing): seq<string>
  {
    if repos == [] then [] else RepoEntries(repos[0], api) + AllRepoSources(repos[1..], api)
  }

  /** fetchSources: only a failure of the repository list fails it. */
  function FetchSourcesSpec(repoFiles: Files, parseRepos: RepoParser, api: Repo -> Listing): Result<seq<string>>
  {
    match GetRepoConfig(repoFiles, parseRepos)
    case Err(e) => Err(e)
    case Ok(rc) => Ok(["local"] + AllRepoSources(rc.repositories, api))
  }

  /** fetchSources, with `api` standing for the GitHub API of each repository. */
  method FetchSources(repoFiles: Files, parseRepos: RepoParser, api: Repo -> Listing) returns (r: Result<seq<string>>)
    ensures r == FetchSourcesSpec(repoFiles, parseRepos, api)
  {
    var repoConfig := GetRepoConfig(repoFiles, parseRepos);
    if repoConfig.Err? {
      return Err(repoConfig.error);
    }
    var repos := repoConfig.value.repositories;
    ghost var goal := ["local"] + AllRepoSources(repos, api);
    assert FetchSourcesSpec(repoFiles, parseRepos, api) == Ok(goal);
    var allSources: seq<string> := ["local"];
    var i := 0;
    while i < |repos|
      invariant 0 <= i <= |repos|
      invariant allSources + AllRepoSources(repos[i..], api) == goal
    {
      AllRepoSourcesStep(repos, i, api);
      allSources := AddRepoSources(allSources, repos[i], api);
      i := i + 1;
    }
    assert repos[i..] == [];
    assert allSources == goal;
    r := Ok(allSources);
  }

  lemma AllRepoSourcesStep(repos: seq<Repo>, i: nat, api: Repo -> Listing)
    requires i < |repos|
    ensures AllRepoSources(repos[i..], api) == RepoEntries(repos[i], api) + AllRepoSources(repos[i + 1..], api)
  {
    assert repos[i..][1..] == repos[i + 1..];
  }

  /** One round of fetchSources' outer loop: list the revisions of `repo` and
      append its entries; a failed listing appends nothing. */
  method AddRepoSources(acc: seq<string>, repo: Repo, api: Repo -> Listing) returns (r: seq<string>)
    ensures r == acc + RepoEntries(repo, api)
  {
    var client := new Client.WithRepo(repo.owner, repo.name);
    var listing := api(repo);
    var branches := client.GetBranchNames(listing.branches, listing.releases);
    if branches.Err? {
      return acc;
    }
    r := AppendRepoSources(acc, repo, branches.value);
  }

  /** The inner loop of fetchSources: appends the qualified revisions of
      `repo`, skipping "local". */
  method AppendRepoSources(acc: seq<string>, repo: Repo, revs: seq<string>) returns (r: seq<string>)
    ensures r == acc + RepoSources(repo, revs)
  {
    r := acc;
    var j := 0;
    while j < |revs|
      invariant 0 <= j <= |revs|
      invariant r + RepoSources(repo, revs[j..]) == acc + RepoSources(repo, revs)
    {
      assert revs[j..][1..] == revs[j + 1..];
      if revs[j] != "local" {
        r := r + [SourceName(repo.owner, repo.name, revs[j])];
      }
      j := j + 1;
    }
    assert revs[j..] == [];
  }

  /** A source string opens with "[" and so is never "local". */
  lemma SourceNameNotLocal(owner: string, name: string, rev: string)
    ensures SourceName(owner, name, rev)[0] == '['
    ensures SourceName(owner, name, rev) != "local"
  {
    assert SourceName(owner, name, rev)[0] == Open[0];
  }

  /** Round trip: the parser recovers owner, name and revision from a source
      string when the owner has no "/" and "owner/name" has no "] ". */
  lemma ParseSourceName(owner: string, name: string, rev: string)
    requires '/' !in owner
    requires !Contains(owner + "/" + name, Close)
    ensures ParseSource(SourceName(owner, name, rev)) == RepoChoice(owner, name, rev)
  {
    var id := owner + "/" + name;
    var head := Open + id;
    var s := SourceName(owner, name, rev);
    assert s == head + Close + rev;
    SourceNameNotLocal(owner, name, rev);
    forall k | 0 <= k < |head| ensures !OccursAt(s, Close, k) {
      CloseNotInHead(id, rev, k);
    }
    CutAtFirst(head, Close, rev);
    TrimPrefixOfPrefixed(Open, id);
    RepoIdentifierSplits(Repo(owner, name));
  }

  /** No "] " starts inside "[" + id when id has none. */
  lemma CloseNotInHead(id: string, rev: string, k: nat)
    requires !Contains(id, Close)
    requires k < |Open + id|
    ensures !OccursAt(Open + id + Close + rev, Close, k)
  {
    var s := Open + id + Close + rev;
    var n := |Open + id|;
    assert s[0] == '[' && s[n] == ']';
    if k + 2 <= |s| {
      if k == 0 {
        assert s[k..k + 2][0] == '[';
      } else if k + 1 < n {
        assert s[k] == id[k - 1] && s[k + 1] == id[k];
        assert !OccursAt(id, Close, k - 1);
        assert s[k..k + 2] == id[k - 1..k + 1];
      } else {
        assert s[k..k + 2][1] == s[n];
      }
    }
  }

  /** Every list fetchSources returns starts with "local", and "local" occurs
      nowhere else in it. */
  lemma FetchSourcesLocalFirst(repoFiles: Files, parseRepos: RepoParser, api: Repo -> Listing)
    requires FetchSourcesSpec(repoFiles, parseRepos, api).Ok?
    ensures var s := FetchSourcesSpec(repoFiles, parseRepos, api).value;
      |s| >= 1 && s[0] == "local" && forall j :: 1 <= j < |s| ==> s[j] != "local"
  {
    var repos := GetRepoConfig(repoFiles, parseRepos).value.repositories;
    var tail := AllRepoSources(repos, api);
    AllRepoSourcesQualified(repos, api);
    forall j | 1 <= j < 1 + |tail| ensures (["local"] + tail)[j] != "local" {
      assert (["local"] + tail)[j] == tail[j - 1];
      assert tail[j - 1] in tail;
    }
  }

  /** Every entry for the repositories is a qualified source string of one of
      them, for a revision other than "local" that its listing offered. */
  lemma {:induction false} AllRepoSourcesQualified(repos: seq<Repo>, api: Repo -> Listing)
    ensures forall s :: s in AllRepoSources(repos, api) ==>
      s != "local" &&
      exists i, rev :: 0 <= i < |repos| && IsListed(repos[i], rev, api) && s == SourceName(repos[i].owner, repos[i].name, rev)
  {
    if repos != [] {
      AllRepoSourcesQualified(repos[1..], api);
      var l := api(repos[0]);
      var head := RepoEntries(repos[0], api);
      forall s | s in AllRepoSources(repos, api)
        ensures s != "local" &&
          exists i, rev :: 0 <= i < |repos| && IsListed(repos[i], rev, api) && s == SourceName(repos[i].owner, repos[i].name, rev)
      {
        if s in head {
          var revs := BranchNames(l.branches, l.releases).value;
          RepoSourcesQualified(repos[0], revs, s);
          var rev :| rev in revs && rev != "local" && s == SourceName(repos[0].owner, repos[0].name, rev);
          SourceNameNotLocal(repos[0].owner, repos[0].name, rev);
          assert IsListed(repos[0], rev, api);
        } else {
          assert s in AllRepoSources(repos[1..], api);
          var i, rev :| 0 <= i < |repos[1..]| && IsListed(repos[1..][i], rev, api)
                       && s == SourceName(repos[1..][i].owner, repos[1..][i].name, rev);
          assert repos[1..][i] == repos[i + 1];
        }
      }
    }
  }

  /** `rev` is a revision other than "local" that the listing of `r` offers. */
  predicate IsListed(r: Repo, rev: string, api: Repo -> Listing) {
    var l := api(r);
    BranchNames(l.branches, l.releases).Ok? && rev in BranchNames(l.branches, l.releases).value && rev != "local"
  }

  /** The entries of one repository are exactly its revisions other than
      "local", qualified. */
  lemma {:induction false} RepoSourcesQualified(r: Repo, revs: seq<string>, s: string)
    ensures s in RepoSources(r, revs) <==> exists rev :: rev in revs && rev != "local" && s == SourceName(r.owner, r.name, rev)
  {
    if revs != [] {
      RepoSourcesQualified(r, revs[1..], s);
      if exists rev :: rev in revs && rev != "local" && s == SourceName(r.owner, r.name, rev) {
        var rev :| rev in revs && rev != "local" && s == SourceName(r.owner, r.name, rev);
        if rev != revs[0] {
          assert rev in revs[1..];
        }
      }
    }
  }

  /** Repositories contribute in the configured order: the entries for a
      concatenation are the entries of the parts one after the other. */
  lemma {:induction false} AllRepoSourcesAppend(a: seq<Repo>, b: seq<Repo>, api: Repo -> Listing)
    ensures AllRepoSources(a + b, api) == AllRepoSources(a, api) + AllRepoSources(b, api)
  {
    if a == [] {
      assert a + b == b;
    } else {
      assert (a + b)[1..] == a[1..] + b;
      AllRepoSourcesAppend(a[1..], b, api);
    }
  }

  /** A repository whose listing fails is skipped: it adds no entry. */
  lemma FailedListingSkipped(r: Repo, api: Repo -> Listing)
    requires BranchNames(api(r).branches, api(r).releases).Err?
    ensures AllRepoSources([r], api) == []
  {
  }

  /** A repository whose listing succeeds adds its revisions, in order, with
      "local" dropped: its main branch when it has one, then its tags. */
  lemma ListedRepoEntries(r: Repo, bs: seq<Branch>, rs: seq<Release>, api: Repo -> Listing)
    requires api(r) == Listing(Ok(bs), Ok(rs))
    ensures AllRepoSources([r], api)
         == (if HasMain(bs) then [SourceName(r.owner, r.name, "main")] else []) + RepoSources(r, NonDraftTags(rs))
  {
    var revs := Revisions(bs, rs);
    assert [r][1..] == [];
    assert AllRepoSources([r], api) == RepoSources(r, revs);
    assert revs[1..] == (if HasMain(bs) then ["main"] else []) + NonDraftTags(rs);
    assert RepoSources(r, revs) == RepoSources(r, revs[1..]);
    if HasMain(bs) {
      assert revs[1..][1..] == NonDraftTags(rs);
    }
  }

  /** The name of the active remote source has the format of fetchSources'
      entries and parses back to the same repository and revision. */
  lemma CurrentSourceParses(p: Provider)
    requires p.Remote? && p.remote.branch != "local"
    requires '/' !in p.remote.owner && !Contains(p.remote.owner + "/" + p.remote.name, Close)
    ensures CurrentSourceName(p) == SourceName(p.remote.owner, p.remote.name, p.remote.branch)
    ensures ParseSource(CurrentSourceName(p)) == RepoChoice(p.remote.owner, p.remote.name, p.remote.branch)
  {
    ParseSourceName(p.remote.owner, p.remote.name, p.remote.branch);
  }

  /** A string without "] ", or whose head has no "/", falls back to the
      default repository with the whole string as the revision. */
  lemma ParseSourceFallback(value: string)
    requires value != "local"
    requires !Contains(value, Close) || !Contains(TrimPrefix(Cut(value, Close).value.0, Open), "/")
    ensures ParseSource(value) == DefaultRepoChoice(value)
  {
  }

  /** The index of the first white space in `s`, or its length. */
  function TokenEnd(s: string): (n: nat)
    ensures n <= |s| && (n == |s| || IsSpace(s[n]))
  {
    if s == [] || IsSpace(s[0]) then 0 else 1 + TokenEnd(s[1..])
  }

  /** The longest prefix of `s` without white space, and the rest. */
  function TakeToken(s: string): (r: (string, string))
    ensures r.0 + r.1 == s
    ensures r.1 == [] || IsSpace(r.1[0])
  {
    var n := TokenEnd(s);
    assert s[..n] + s[n..] == s;
    (s[..n], s[n..])
  }

  /** A %s verb of fmt's scanner: white space is skipped, then the longest
      run of other runes is taken; an empty run is an error. */
  function ScanWord(s: string): Option<(string, string)>
  {
    var (t, rest) := TakeToken(TrimLeft(s));
    if t == [] then None else Some((t, rest))
  }

  /** A literal rune of the format must be the next rune of the input. */
  function ScanLiteral(c: char, s: string): Option<string>
  {
    if s != [] && s[0] == c then Some(s[1..]) else None
  }

  /** fmt.Sscanf(value, "[%s/%s] %s", &owner, &name, &branch) as written in
      the headless entry point: None when it reports an error. Newlines are
      skipped like other white space, which changes no outcome here. */
  function ScanRepoSource(value: string): Option<(string, string, string)>
  {
    match ScanLiteral('[', value)
    case None => None
    case Some(s1) =>
      match ScanWord(s1)
      case None => None
      case Some((owner, s2)) =>
        match ScanLiteral('/', s2)
        case None => None
        case Some(s3) =>
          match ScanWord(s3)
          case None => None
          case Some((name, s4)) =>
            match ScanLiteral(']', s4)
            case None => None
            case Some(s5) =>
              match ScanWord(TrimLeft(s5))
              case None => None
              case Some((branch, _)) => Some((owner, name, branch))
  }

  /** The headless entry point's reading of -source, as written. */
  function HeadlessChoiceAsWritten(source: string): (c: Choice)
    ensures c.LocalChoice? <==> source == "local"
    ensures source != "local" ==> c == DefaultRepoChoice(source)
  {
    ScanNeverMatches(source);
    if source == "local" then LocalChoice
    else
      match ScanRepoSource(source)
      case Some((owner, name, branch)) => RepoChoice(owner, TrimSuffix(name, "]"), branch)
      case None => DefaultRepoChoice(source)
  }

  /** The scan can never succeed: %s stops only at white space or at the end,
      so the "/" that follows it in the format never matches. */
  lemma ScanNeverMatches(value: string)
    ensures ScanRepoSource(value) == None
  {
    var s1 := ScanLiteral('[', value);
    if s1.Some? {
      var w := ScanWord(s1.value);
      if w.Some? {
        var s2 := w.value.1;
        assert s2 == [] || IsSpace(s2[0]);
        assert ScanLiteral('/', s2) == None;
      }
    }
  }

  /** So in headless mode every remote source, even one in fetchSources'
      format, names a revision of the default repository: the repository
      part is never used. */
  lemma HeadlessIgnoresRepository(owner: string, name: string, rev: string)
    ensures HeadlessChoiceAsWritten(SourceName(owner, name, rev)) == DefaultRepoChoice(SourceName(owner, name, rev))
    ensures HeadlessChoiceAsWritten(SourceName(owner, name, rev)) != RepoChoice(owner, name, rev)
  {
    SourceNameNotLocal(owner, name, rev);
    ScanNeverMatches(SourceName(owner, name, rev));
  }

  /** The provider for a chosen source, as the selection handler creates it;
      the headless entry point is meant to do the same. */
  method NewProvider(choice: Choice, repoFiles: Files, parseRepos: RepoParser, cache: Cache, mkdirOk: bool)
    returns (r: Result<Provider>)
    modifies cache
    ensures choice.LocalChoice? ==> r == Ok(Local) && cache.dir == old(cache.dir)
    ensures choice.RepoChoice? ==>
      cache.dir == old(cache.dir).(present := old(cache.dir.present) || mkdirOk) &&
      (r.Ok? <==> old(cache.dir.present) || mkdirOk) &&
      (r.Ok? ==> r.value.Remote? && Providers.Valid(r.value) && r.value.remote.downloader.cache == cache &&
                 r.value.remote.owner == choice.owner && r.value.remote.name == choice.name &&
                 r.value.remote.branch == choice.branch)
    ensures choice.DefaultRepoChoice? ==>
      (GetRepoConfig(repoFiles, parseRepos).Err? ==>
        r == Err(GetRepoConfig(repoFiles, parseRepos).error) && cache.dir == old(cache.dir)) &&
      (GetRepoConfig(repoFiles, parseRepos).Ok? ==>
        var first := GetRepoConfig(repoFiles, parseRepos).value.repositories[0];
        cache.dir == old(cache.dir).(present := old(cache.dir.present) || mkdirOk) &&
        (r.Ok? <==> old(cache.dir.present) || mkdirOk) &&
        (r.Ok? ==> r.value.Remote? && Providers.Valid(r.value) && r.value.remote.downloader.cache == cache &&
                   r.value.remote.owner == first.owner && r.value.remote.name == first.name &&
                   r.value.remote.branch == choice.branch))
  {
    match choice
    case LocalChoice =>
      r := Ok(Local);
    case RepoChoice(owner, name, branch) =>
      var p := NewRemoteConfigProviderWithRepo(branch, owner, name, cache, mkdirOk);
      r := if p.Ok? then Ok(Remote(p.value)) else Err(p.error);
    case DefaultRepoChoice(branch) =>
      var p := NewRemoteConfigProvider(branch, repoFiles, parseRepos, cache, mkdirOk);
      r := if p.Ok? then Ok(Remote(p.value)) else Err(p.error);
  }
}
