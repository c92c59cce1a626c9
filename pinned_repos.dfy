/**
 * The enrichment step of the worker: the repository listing returned by the
 * upstream API is filtered down to the pinned names and each surviving record
 * is flattened into a `ProjectData` (`fetchPinnedReposFromAPI` in src/index.ts).
 */
module PinnedRepos {
  import opened Wrappers

  /** One repository record of the upstream listing, as decoded from JSON. */
  datatype GithubRepo = GithubRepo(
    name: string,
    htmlUrl: string,
    description: Option<string>,
    fork: bool,
    isTemplate: bool,
    createdAt: string,
    updatedAt: string,
    language: Option<string>,
    stargazersCount: int,
    topics: seq<string>)

  /** The flattened record the worker returns for one pinned repository. */
  datatype ProjectData = ProjectData(
    repoName: string,
    repoLink: string,
    repoDescription: Option<string>,
    isFork: bool,
    isTemplate: bool,
    createdAt: string,
    lastUpdate: string,
    mainLanguage: Option<string>,
    starAmount: int,
    topics: seq<string>)

  /** An upstream HTTP reply: whether its status was ok, and its decoded body. */
  datatype Reply<T> = Reply(ok: bool, body: T)

  /** What `fetchPinnedReposFromAPI` resolves to: the projected records or an `Error`. */
  datatype ApiResult = Projects(data: seq<ProjectData>) | Failure(message: string)

  const RequestError: string := "Request error"

  /** The object literal pushed for one upstream record. */
  function Project(g: GithubRepo): (p: ProjectData)
    ensures p.repoName == g.name && p.repoLink == g.htmlUrl
    ensures p.repoDescription == g.description && p.mainLanguage == g.language
    ensures p.isFork == g.fork && p.isTemplate == g.isTemplate
    ensures p.createdAt == g.createdAt && p.lastUpdate == g.updatedAt
    ensures p.starAmount == g.stargazersCount && p.topics == g.topics
  {
    ProjectData(g.name, g.htmlUrl, g.description, g.fork, g.isTemplate,
                g.createdAt, g.updatedAt, g.language, g.stargazersCount, g.topics)
  }

  /**
   * The projection loses nothing: two upstream records give the same
   * `ProjectData` only if they are the same record, so in particular a `null`
   * description or language is passed through and never coerced.
   */
  lemma ProjectFaithful(a: GithubRepo, b: GithubRepo)
    ensures Project(a) == Project(b) <==> a == b
    ensures Project(a).repoName == a.name
    ensures Project(a).repoDescription.None? <==> a.description.None?
    ensures Project(a).mainLanguage.None? <==> a.language.None?
  {
  }

  /**
   * What the loop builds after it has seen `data`: the projections of the
   * records whose name is in `repos`, in listing order.  Defined on the last
   * record so that it follows the loop one step at a time.
   */
  function Select(data: seq<GithubRepo>, repos: seq<string>): (r: seq<ProjectData>)
    ensures |r| <= |data|
    ensures forall k :: 0 <= k < |r| ==> r[k].repoName in repos
  {
    if data == [] then []
    else
      var rest := Select(data[..|data| - 1], repos);
      var last := data[|data| - 1];
      if last.name in repos then rest + [Project(last)] else rest
  }

  /** The positions in `data` of the records whose name is in `repos`, ascending. */
  function MatchIndices(data: seq<GithubRepo>, repos: seq<string>): (idx: seq<int>)
    ensures forall k :: 0 <= k < |idx| ==> 0 <= idx[k] < |data| && data[idx[k]].name in repos
    ensures forall k, l :: 0 <= k < l < |idx| ==> idx[k] < idx[l]
    ensures forall i :: 0 <= i < |data| && data[i].name in repos ==> i in idx
  {
    if data == [] then []
    else
      var rest := MatchIndices(data[..|data| - 1], repos);
      if data[|data| - 1].name in repos then rest + [|data| - 1] else rest
  }

  /**
   * The output is exactly the projection of the matching records, taken in
   * upstream order: its k-th element is the projection of the k-th match.
   * Together with the contract of `MatchIndices` this says the output is a
   * subsequence of the listing and that no matching record is dropped.
   */
  lemma {:induction false} SelectAlongMatches(data: seq<GithubRepo>, repos: seq<string>)
    ensures |Select(data, repos)| == |MatchIndices(data, repos)|
    ensures forall k :: 0 <= k < |Select(data, repos)| ==>
              Select(data, repos)[k] == Project(data[MatchIndices(data, repos)[k]])
  {
    if data != [] {
      var init := data[..|data| - 1];
      SelectAlongMatches(init, repos);
      forall k | 0 <= k < |MatchIndices(init, repos)|
        ensures data[MatchIndices(init, repos)[k]] == init[MatchIndices(init, repos)[k]]
      {
      }
    }
  }

  /** Filtering a concatenated listing filters each part: listing order is kept. */
  lemma {:induction false} SelectAppend(a: seq<GithubRepo>, b: seq<GithubRepo>, repos: seq<string>)
    ensures Select(a + b, repos) == Select(a, repos) + Select(b, repos)
  {
    if b == [] {
      assert a + b == a;
    } else {
      var b' := b[..|b| - 1];
      assert (a + b)[..|a + b| - 1] == a + b';
      SelectAppend(a, b', repos);
    }
  }

  /** With no pinned names nothing survives the filter. */
  lemma {:induction false} SelectNoPinned(data: seq<GithubRepo>)
    ensures Select(data, []) == []
  {
    if data != [] {
      SelectNoPinned(data[..|data| - 1]);
    }
  }

  /**
   * Only membership in `repos` matters: its order and any repetitions of a
   * name change nothing, so the output follows listing order, not pinned order.
   */
  lemma {:induction false} SelectMembershipOnly(data: seq<GithubRepo>, repos1: seq<string>, repos2: seq<string>)
    requires forall n :: n in repos1 <==> n in repos2
    ensures Select(data, repos1) == Select(data, repos2)
  {
    if data != [] {
      SelectMembershipOnly(data[..|data| - 1], repos1, repos2);
    }
  }

  /**
   * Each upstream occurrence of a matching record yields exactly one output
   * record, and a record whose name is not pinned yields none.
   */
  lemma {:induction false} SelectCount(data: seq<GithubRepo>, repos: seq<string>, g: GithubRepo)
    ensures multiset(Select(data, repos))[Project(g)] ==
            if g.name in repos then multiset(data)[g] else 0
  {
    if data != [] {
      var init := data[..|data| - 1];
      var last := data[|data| - 1];
      assert data == init + [last];
      SelectCount(init, repos, g);
      ProjectFaithful(last, g);
    }
  }

  /**
   * `fetchPinnedReposFromAPI` after the listing request: a non-ok status gives
   * the `Error("Request error")` value and never data; otherwise the loop walks
   * the listing in order, skips records whose name is not pinned and pushes the
   * projection of every other one.
   */
  method FetchPinnedRepos(reply: Reply<seq<GithubRepo>>, repos: seq<string>) returns (r: ApiResult)
    ensures !reply.ok ==> r == Failure(RequestError)
    ensures reply.ok ==> r == Projects(Select(reply.body, repos))
  {
    if !reply.ok {
      return Failure(RequestError);
    }
    var data := reply.body;
    var newData: seq<ProjectData> := [];
    for i := 0 to |data|
      invariant newData == Select(data[..i], repos)
    {
      assert data[..i + 1][..i] == data[..i];
      var project := data[i];
      if project.name !in repos {
        continue;
      }
      newData := newData + [Project(project)];
    }
    assert data[..|data|] == data;
    return Projects(newData);
  }
}
