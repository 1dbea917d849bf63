/** The revision listing of github/client.go. The HTTP calls GetBranches and
    GetReleases are not modelled: their results are inputs. */
module GitHubClient {
  import opened Base

  /** A branch as the API lists it (the commit fields are never used). */
  datatype Branch = Branch(name: string)

  datatype Release = Release(tagName: string, name: string, draft: bool, prerelease: bool)

  predicate HasMain(bs: seq<Branch>) {
    exists i :: 0 <= i < |bs| && bs[i].name == "main"
  }

  /** The tag of every release that is not a draft, in the order the API lists them. */
  function NonDraftTags(rs: seq<Release>): seq<string>
  {
    if rs == [] then []
    else (if rs[0].draft then [] else [rs[0].tagName]) + NonDraftTags(rs[1..])
  }

  /** The revisions offered for one repository: "local", then "main" when a
      branch of that name exists, then the non-draft release tags. */
  function Revisions(bs: seq<Branch>, rs: seq<Release>): seq<string>
  {
    ["local"] + (if HasMain(bs) then ["main"] else []) + NonDraftTags(rs)
  }

  /** GetBranchNames as a function of the two API answers: either one failing
      fails the whole listing. */
  function BranchNames(branches: Result<seq<Branch>>, releases: Result<seq<Release>>): Result<seq<string>>
  {
    match branches
    case Err(e) => Err(BranchesFailed(e))
    case Ok(bs) =>
      match releases
      case Err(e) => Err(ReleasesFailed(e))
      case Ok(rs) => Ok(Revisions(bs, rs))
  }

  class Client {
    const owner: string
    const name: string

    /** NewClientWithRepo: binds the repository as given. */
    constructor WithRepo(owner: string, name: string)
      ensures this.owner == owner && this.name == name
    {
      this.owner := owner;
      this.name := name;
    }

    /** GetBranchNames: `branches` and `releases` are what GetBranches and
        GetReleases return for this repository. */
    method GetBranchNames(branches: Result<seq<Branch>>, releases: Result<seq<Release>>)
      returns (r: Result<seq<string>>)
      ensures r == BranchNames(branches, releases)
    {
      if branches.Err? {
        return Err(BranchesFailed(branches.error));
      }
      if releases.Err? {
        return Err(ReleasesFailed(releases.error));
      }
      var bs, rs := branches.value, releases.value;
      var names: seq<string> := ["local"];
      var i := 0;
      while i < |bs|
        invariant 0 <= i <= |bs|
        invariant names == ["local"]
        invariant forall j :: 0 <= j < i ==> bs[j].name != "main"
      {
        if bs[i].name == "main" {
          names := names + ["main"];
          break;
        }
        i := i + 1;
      }
      assert names == ["local"] + (if HasMain(bs) then ["main"] else []);
      var k := 0;
      while k < |rs|
        invariant 0 <= k <= |rs|
        invariant names + NonDraftTags(rs[k..]) == Revisions(bs, rs)
      {
        assert rs[k..][1..] == rs[k + 1..];
        if !rs[k].draft {
          names := names + [rs[k].tagName];
        }
        k := k + 1;
      }
      assert rs[k..] == [];
      assert names == Revisions(bs, rs);
      assert BranchNames(branches, releases) == Ok(Revisions(bs, rs));
      r := Ok(names);
    }
  }

  /** The listing always starts with "local", and its length is one, plus one
      for a "main" branch, plus the number of non-draft releases. */
  lemma RevisionsShape(bs: seq<Branch>, rs: seq<Release>)
    ensures |Revisions(bs, rs)| == 1 + (if HasMain(bs) then 1 else 0) + |NonDraftTags(rs)|
    ensures Revisions(bs, rs)[0] == "local"
    ensures HasMain(bs) ==> Revisions(bs, rs)[1] == "main"
  {
  }

  /** A tag is listed exactly when some non-draft release carries it; the
      prerelease flag plays no part. */
  lemma {:induction false} NonDraftTagsMembers(rs: seq<Release>, t: string)
    ensures t in NonDraftTags(rs) <==> exists i :: 0 <= i < |rs| && !rs[i].draft && rs[i].tagName == t
  {
    if rs != [] {
      NonDraftTagsMembers(rs[1..], t);
      if t in NonDraftTags(rs[1..]) {
        var i :| 0 <= i < |rs[1..]| && !rs[1..][i].draft && rs[1..][i].tagName == t;
        assert rs[i + 1] == rs[1..][i];
      }
      if exists i :: 0 <= i < |rs| && !rs[i].draft && rs[i].tagName == t {
        var i :| 0 <= i < |rs| && !rs[i].draft && rs[i].tagName == t;
        if i > 0 {
          assert rs[1..][i - 1] == rs[i];
        }
      }
    }
  }

  /** Every element after "local" and the optional "main" is the tag of a
      non-draft release: no other branch name is ever listed. */
  lemma RevisionsAreTags(bs: seq<Branch>, rs: seq<Release>, j: nat)
    requires (if HasMain(bs) then 2 else 1) <= j < |Revisions(bs, rs)|
    ensures exists i :: 0 <= i < |rs| && !rs[i].draft && rs[i].tagName == Revisions(bs, rs)[j]
  {
    var m := if HasMain(bs) then 2 else 1;
    var t := Revisions(bs, rs)[j];
    assert t == NonDraftTags(rs)[j - m];
    NonDraftTagsMembers(rs, t);
  }

  /** The releases contribute in API order: listing a concatenation lists the
      parts one after the other. */
  lemma {:induction false} NonDraftTagsAppend(a: seq<Release>, b: seq<Release>)
    ensures NonDraftTags(a + b) == NonDraftTags(a) + NonDraftTags(b)
  {
    if a == [] {
      assert a + b == b;
    } else {
      assert (a + b)[1..] == a[1..] + b;
      NonDraftTagsAppend(a[1..], b);
    }
  }

  /** Two release lists that agree on tags and draft flags list the same
      revisions, whatever their prerelease flags and names. */
  lemma {:induction false} PrereleaseIgnored(rs: seq<Release>, rs': seq<Release>)
    requires |rs| == |rs'|
    requires forall i :: 0 <= i < |rs| ==> rs[i].tagName == rs'[i].tagName && rs[i].draft == rs'[i].draft
    ensures NonDraftTags(rs) == NonDraftTags(rs')
  {
    if rs != [] {
      PrereleaseIgnored(rs[1..], rs'[1..]);
    }
  }

  /** A failed branch listing fails the whole call, whatever the releases
      answer would have been, so GetReleases is never needed; a failed release
      listing fails it too. */
  lemma ListingFailures(branches: Result<seq<Branch>>, releases: Result<seq<Release>>, releases': Result<seq<Release>>)
    ensures branches.Err? ==> BranchNames(branches, releases) == BranchNames(branches, releases') == Err(BranchesFailed(branches.error))
    ensures branches.Ok? && releases.Err? ==> BranchNames(branches, releases) == Err(ReleasesFailed(releases.error))
    ensures BranchNames(branches, releases).Ok? <==> branches.Ok? && releases.Ok?
  {
  }
}
