/** The registry keeps the last releases' images and the rollback history names them
    (tools/release_registry.py, tools/k8s_release.py). */
module Registry {
  import opened Wrappers

  // --- Image names -------------------------------------------------------------

  datatype Image = Image(host: string, repo: string, tag: string)

  // Where the last c is, or -1.
  function LastIndex(s: string, c: char): (n: int)
    ensures -1 <= n < |s| && (n >= 0 ==> s[n] == c) && forall i :: n < i < |s| ==> s[i] != c
  {
    if s == "" then -1 else if s[|s| - 1] == c then |s| - 1 else LastIndex(s[..|s| - 1], c)
  }

  function FirstIndex(s: string, c: char): (n: nat)
    ensures n <= |s| && (n < |s| ==> s[n] == c) && forall i :: 0 <= i < n ==> s[i] != c
  {
    if s == "" || s[0] == c then 0 else 1 + FirstIndex(s[1..], c)
  }

  /** split: the tag is after the last colon, the host before the first slash; the path is empty
      when there is none. */
  function Split(image: string): Image {
    var colon := LastIndex(image, ':');
    var name := if colon >= 0 then image[..colon] else image;
    var slash := FirstIndex(name, '/');
    Image(name[..slash], if slash < |name| then name[slash + 1..] else "",
          if colon >= 0 then image[colon + 1..] else "")
  }

  /** A registry's port is not a tag: the parts of a pushed name come back, colons in the host or not. */
  lemma SplitUndoesJoin(host: string, repo: string, tag: string)
    requires '/' !in host && ':' !in tag
    ensures Split(host + "/" + repo + ":" + tag) == Image(host, repo, tag)
  {
    var name := host + "/" + repo;
    var image := name + ":" + tag;
    assert host + "/" + repo + ":" + tag == image;
    assert image[|name|] == ':' && forall i :: |name| < i < |image| ==> image[i] == tag[i - |name| - 1];
    assert LastIndex(image, ':') == |name|;
    assert image[..|name|] == name && image[|name| + 1..] == tag;
    assert name[|host|] == '/' && forall i :: 0 <= i < |host| ==> name[i] == host[i];
    assert FirstIndex(name, '/') == |host|;
    assert name[..|host|] == host && name[|host| + 1..] == repo;
  }

  // --- Tags and digests ----------------------------------------------------------

  // A repository's tags and the digest each resolves to.
  type Repos = map<string, map<string, string>>

  // A kept or stale image: its repository and its tag.
  type Ref = (string, string)

  predicate Holds(repos: Repos, ref: Ref) { ref.0 in repos && ref.1 in repos[ref.0] }

  function KeptDigests(repos: Repos, kept: set<Ref>, repo: string): set<string>
    requires repo in repos
  {
    set t | t in repos[repo] && (repo, t) in kept :: repos[repo][t]
  }

  function KeptRepos(kept: set<Ref>): set<string> { set r | r in kept :: r.0 }

  // What plan deletes: each digest of a kept repository that no kept tag resolves to.
  ghost predicate Stale(repos: Repos, kept: set<Ref>, repo: string, digest: string) {
    && repo in KeptRepos(kept) && repo in repos
    && digest !in KeptDigests(repos, kept, repo)
    && exists t :: t in repos[repo] && repos[repo][t] == digest
  }

  // A DELETE by digest removes every tag on it.
  function Deleted(repos: Repos, gone: set<Ref>): Repos {
    map r | r in repos :: map t | t in repos[r] && (r, repos[r][t]) !in gone :: repos[r][t]
  }

  // What a prune may have deleted, however far it came.
  ghost predicate Deletable(repos: Repos, kept: set<Ref>, gone: set<Ref>) {
    forall g :: g in gone ==> Stale(repos, kept, g.0, g.1)
  }

  /** What a whole prune leaves: in a kept repository exactly the tags that share a kept digest,
      every other repository as it was. */
  function Pruned(repos: Repos, kept: set<Ref>): Repos {
    map r | r in repos ::
      if r in KeptRepos(kept) then map t | t in repos[r] && repos[r][t] in KeptDigests(repos, kept, r) :: repos[r][t]
      else repos[r]
  }

  class Store {
    const host: string
    var repos: Repos

    constructor (host: string, repos: Repos)
      ensures this.host == host && this.repos == repos
    {
      this.host := host;
      this.repos := repos;
    }

    /** delete: by digest; gone already is no failure, any other refusal is. */
    method Delete(repo: string, digest: string) returns (ok: bool)
      modifies this`repos
      ensures repos == if ok then Deleted(old(repos), {(repo, digest)}) else old(repos)
    {
      ok := *;
      if ok {
        repos := Deleted(repos, {(repo, digest)});
      }
    }

    /** plan: refused when a kept tag is not there, or any tag's digest cannot be read (`read` is
        false then); else the stale digests and, for each, its stale tags. */
    method Plan(images: set<Image>) returns (r: Option<map<Ref, set<string>>>, read: bool)
      ensures r.Some? <==> read && forall i :: i in images && i.host == host ==> Holds(repos, (i.repo, i.tag))
      ensures r.Some? ==> forall g :: g in r.value <==> Stale(repos, OnHost(images, host), g.0, g.1)
      ensures r.Some? ==> forall g, t :: g in r.value && t in r.value[g] <==>
        Stale(repos, OnHost(images, host), g.0, g.1) && t in repos[g.0] && repos[g.0][t] == g.1
    {
      read := *;
      var kept := OnHost(images, host);
      if !read {
        return None, false;
      }
      if exists k :: k in kept && !Holds(repos, k) {
        ghost var k :| k in kept && !Holds(repos, k);
        ghost var i :| i in images && i.host == host && (i.repo, i.tag) == k;
        return None, true;
      }
      forall i | i in images && i.host == host ensures Holds(repos, (i.repo, i.tag)) {
        assert (i.repo, i.tag) in kept;
      }
      var todo := KeptRepos(kept);
      var deletions: map<Ref, set<string>> := map[];
      while todo != {}
        invariant todo <= KeptRepos(kept)
        invariant PlannedFor(repos, kept, KeptRepos(kept) - todo, deletions)
        decreases |todo|
      {
        var repo :| repo in todo;
        RepoIsThere(repos, kept, repo);
        deletions := deletions + StaleTags(repos[repo], KeptDigests(repos, kept, repo), repo);
        todo := todo - {repo};
      }
      r := Some(deletions);
    }

    /** prune: nothing for no history, nothing when a kept commit does not render or a kept tag is
        not there; a deletion that fails leaves the rest. */
    method Prune(history: seq<string>, render: string -> Option<set<Image>>) returns (ok: bool, ghost gone: set<Ref>)
      modifies this`repos
      ensures repos == Deleted(old(repos), gone)
      ensures KeptImages(history, render).None? ==> gone == {}
      ensures KeptImages(history, render).Some? ==>
        Deletable(old(repos), OnHost(KeptImages(history, render).value, host), gone)
      ensures ok && history != [] ==> KeptImages(history, render).Some?
      ensures ok && history != [] ==> repos == Pruned(old(repos), OnHost(KeptImages(history, render).value, host))
    {
      NothingDeleted(repos);
      var images := KeptImages(history, render);
      if history == [] || images.None? {
        return history == [], {};
      }
      ghost var before, kept := repos, OnHost(images.value, host);
      var plan, read := Plan(images.value);
      if plan.None? {
        return false, {};
      }
      ok, gone := DeleteEach(plan.value.Keys);
      if ok {
        WholePlanPrunes(before, kept, gone);
      }
    }

    method DeleteEach(digests: set<Ref>) returns (ok: bool, ghost gone: set<Ref>)
      modifies this`repos
      ensures repos == Deleted(old(repos), gone) && gone <= digests && (ok ==> gone == digests)
    {
      NothingDeleted(repos);
      gone := {};
      var todo := digests;
      ok := true;
      while ok && todo != {}
        invariant todo <= digests && gone <= digests && (ok ==> gone == digests - todo)
        invariant repos == Deleted(old(repos), gone)
        decreases |todo|
      {
        var g :| g in todo;
        DeletedBoth(old(repos), gone, g);
        ok := Delete(g.0, g.1);
        gone := if ok then gone + {g} else gone;
        todo := todo - {g};
      }
    }
  }

  function OnHost(images: set<Image>, host: string): set<Ref> {
    set i | i in images && i.host == host :: (i.repo, i.tag)
  }

  function StaleTags(tags: map<string, string>, kept: set<string>, repo: string): map<Ref, set<string>> {
    map d | d in tags.Values && d !in kept :: (repo, d) := set t | t in tags && tags[t] == d
  }

  ghost predicate PlannedFor(repos: Repos, kept: set<Ref>, done: set<string>, deletions: map<Ref, set<string>>) {
    && (forall g :: g in deletions <==> g.0 in done && Stale(repos, kept, g.0, g.1))
    && (forall g, t :: g in deletions && t in deletions[g] <==>
          g.0 in done && Stale(repos, kept, g.0, g.1) && t in repos[g.0] && repos[g.0][t] == g.1)
  }

  lemma RepoIsThere(repos: Repos, kept: set<Ref>, repo: string)
    requires repo in KeptRepos(kept) && forall k :: k in kept ==> Holds(repos, k)
    ensures repo in repos
  {
    var k :| k in kept && k.0 == repo;
  }

  const IMAGES_KEPT := 5

  function Last<T>(s: seq<T>, n: nat): seq<T> { if |s| <= n then s else s[|s| - n..] }

  function RenderAll(commits: seq<string>, render: string -> Option<set<Image>>): Option<set<Image>> {
    if commits == [] then Some({}) else
    var last, before := render(commits[|commits| - 1]), RenderAll(commits[..|commits| - 1], render);
    if last.None? || before.None? then None else Some(before.value + last.value)
  }

  /** kept_images */
  function KeptImages(history: seq<string>, render: string -> Option<set<Image>>): Option<set<Image>> {
    RenderAll(Last(history, IMAGES_KEPT), render)
  }

  // --- What a prune leaves -----------------------------------------------------------

  lemma NothingDeleted(repos: Repos)
    ensures Deleted(repos, {}) == repos
  {
    assert forall r :: r in repos ==> Deleted(repos, {})[r] == repos[r];
  }

  lemma DeletedBoth(repos: Repos, gone: set<Ref>, g: Ref)
    ensures Deleted(Deleted(repos, gone), {g}) == Deleted(repos, gone + {g})
  {
    forall r | r in repos ensures Deleted(Deleted(repos, gone), {g})[r] == Deleted(repos, gone + {g})[r] {}
  }

  lemma WholePlanPrunes(repos: Repos, kept: set<Ref>, gone: set<Ref>)
    requires forall g :: g in gone <==> Stale(repos, kept, g.0, g.1)
    ensures Deleted(repos, gone) == Pruned(repos, kept)
  {
    forall r | r in repos ensures Deleted(repos, gone)[r] == Pruned(repos, kept)[r] {
      forall t | t in repos[r]
        ensures (r, repos[r][t]) in gone <==> r in KeptRepos(kept) && repos[r][t] !in KeptDigests(repos, kept, r)
      {
      }
    }
  }

  /** However far a prune came, a kept image resolves to the digest it did, and a repository no kept
      release uses is untouched. */
  lemma KeptStay(repos: Repos, kept: set<Ref>, gone: set<Ref>, ref: Ref)
    requires Deletable(repos, kept, gone) && Holds(repos, ref)
    ensures ref in kept || ref.0 !in KeptRepos(kept) ==>
      Holds(Deleted(repos, gone), ref) && Deleted(repos, gone)[ref.0][ref.1] == repos[ref.0][ref.1]
  {
    if ref in kept {
      assert repos[ref.0][ref.1] in KeptDigests(repos, kept, ref.0);
    }
    if (ref.0, repos[ref.0][ref.1]) in gone {
      assert Stale(repos, kept, ref.0, repos[ref.0][ref.1]);
    }
  }

  /** A prune that stopped anywhere is finished by the next one. */
  lemma StoppedPruneIsFinished(repos: Repos, kept: set<Ref>, gone: set<Ref>)
    requires Deletable(repos, kept, gone) && forall k :: k in kept ==> Holds(repos, k)
    ensures forall k :: k in kept ==> Holds(Deleted(repos, gone), k)
    ensures Pruned(Deleted(repos, gone), kept) == Pruned(repos, kept)
  {
    var now := Deleted(repos, gone);
    forall k | k in kept ensures Holds(now, k) && now[k.0][k.1] == repos[k.0][k.1] { KeptStay(repos, kept, gone, k); }
    forall r | r in repos ensures Pruned(now, kept)[r] == Pruned(repos, kept)[r] {
      if r in KeptRepos(kept) {
        SameKeptDigests(repos, now, kept, r);
        forall t | t in repos[r] && repos[r][t] in KeptDigests(repos, kept, r) ensures t in now[r] {
          assert (r, repos[r][t]) !in gone;
        }
      } else {
        forall t | t in repos[r] ensures t in now[r] { KeptStay(repos, kept, gone, (r, t)); }
        assert now[r] == repos[r];
      }
    }
  }

  lemma SameKeptDigests(repos: Repos, now: Repos, kept: set<Ref>, repo: string)
    requires repo in repos && repo in now
    requires forall t :: t in now[repo] ==> t in repos[repo] && now[repo][t] == repos[repo][t]
    requires forall k :: k in kept && k.0 == repo ==> k.1 in now[repo]
    ensures KeptDigests(repos, kept, repo) == KeptDigests(now, kept, repo)
  {
    forall d | d in KeptDigests(repos, kept, repo) ensures d in KeptDigests(now, kept, repo) {
      var t :| t in repos[repo] && (repo, t) in kept && repos[repo][t] == d;
      assert t in now[repo];
    }
  }
}
