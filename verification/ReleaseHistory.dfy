/** Releases, rollbacks and prunes over the registry: which releases can still be gone back to
    (tools/k8s_release.py, tools/release_registry.py). */
module ReleaseHistory {
  import opened Registry
  import opened Wrappers
  import opened Strings

  const HISTORY_KEPT := 10

  function But(history: seq<string>, tag: string): seq<string> {
    if history == [] then [] else
    if history[0] == tag then But(history[1..], tag) else [history[0]] + But(history[1..], tag)
  }

  /** after_deploy */
  function AfterDeploy(history: seq<string>, tag: string): seq<string> {
    Registry.Last(But(history, tag) + [tag], HISTORY_KEPT)
  }

  function IndexOf(history: seq<string>, tag: string): (n: nat)
    requires tag in history
    ensures n < |history| && history[n] == tag && tag !in history[..n]
  {
    if history[0] == tag then 0 else 1 + IndexOf(history[1..], tag)
  }

  /** after_rollback */
  function AfterRollback(history: seq<string>, tag: string): seq<string> {
    if tag in history then history[..IndexOf(history, tag) + 1] else AfterDeploy(history, tag)
  }

  /** previous: what `rollback` with no tag goes back to */
  function Previous(history: seq<string>): Option<string> {
    if |history| > 1 then Some(history[|history| - 2]) else None
  }

  predicate Restorable(history: seq<string>, tag: string) { tag in Last(history, IMAGES_KEPT) }

  // --- The record --------------------------------------------------------------

  lemma {:induction false} ButKeeps(history: seq<string>, tag: string)
    ensures forall t :: t in But(history, tag) <==> t in history && t != tag
    ensures Distinct(history) ==> Distinct(But(history, tag))
    ensures |But(history, tag)| <= |history|
  {
    if history != [] {
      ButKeeps(history[1..], tag);
      var rest := But(history[1..], tag);
      assert forall i :: 0 <= i < |history| - 1 ==> history[1..][i] == history[i + 1];
      assert Distinct(history) ==> Distinct(history[1..]) && history[0] !in history[1..];
    }
  }

  lemma LastIsDistinct(history: seq<string>, n: nat)
    requires Distinct(history)
    ensures Distinct(Last(history, n))
  {
  }

  /** The record stays a list of different releases, the running one last, and never too long. */
  lemma RecordStaysProper(history: seq<string>, tag: string)
    requires Distinct(history) && |history| <= HISTORY_KEPT
    ensures var h := AfterDeploy(history, tag); Distinct(h) && 0 < |h| <= HISTORY_KEPT && h[|h| - 1] == tag
    ensures var h := AfterRollback(history, tag); Distinct(h) && 0 < |h| <= HISTORY_KEPT && h[|h| - 1] == tag
  {
    ButKeeps(history, tag);
    var all := But(history, tag) + [tag];
    assert Distinct(all);
    LastIsDistinct(all, HISTORY_KEPT);
  }

  /** Rollbacks only go further back: what one undid, no later bare rollback returns to. */
  lemma {:induction false} RollbackNeverGoesForward(history: seq<string>, tag: string)
    requires Distinct(history) && tag in history
    ensures AfterRollback(history, tag) <= history
    ensures var h := AfterRollback(history, tag); Previous(h).Some? ==>
      Previous(h).value in history && IndexOf(history, Previous(h).value) < IndexOf(history, tag)
  {
    var n := IndexOf(history, tag);
    var h := AfterRollback(history, tag);
    if |h| > 1 {
      assert h[|h| - 2] == history[n - 1];
    }
  }

  // Where the k-th of what is left was, and how far from the end.
  lemma ButAt(history: seq<string>, tag: string, k: nat) returns (at: nat)
    requires Distinct(history) && k < |But(history, tag)|
    ensures at < |history| && history[at] == But(history, tag)[k] && |history| - at <= |But(history, tag)| - k + 1
  {
    at := k;
    if tag !in history {
      ButNone(history, tag);
    } else {
      var i := IndexOf(history, tag);
      ButOne(history, tag, i);
      if k >= i { at := k + 1; }
    }
  }

  lemma InLast(history: seq<string>, n: nat, at: nat)
    requires at < |history| && |history| - at <= n
    ensures history[at] in Last(history, n)
  {
    if |history| > n {
      assert Last(history, n)[at - (|history| - n)] == history[at];
    }
  }

  lemma ButOfLast(history: seq<string>, tag: string, n: nat, t: string)
    requires Distinct(history) && t in Last(But(history, tag), n)
    ensures t in Last(history, n + 1)
  {
    var but := But(history, tag);
    var j :| 0 <= j < |Last(but, n)| && Last(but, n)[j] == t;
    var at := ButAt(history, tag, if |but| <= n then j else |but| - n + j);
    InLast(history, n + 1, at);
  }

  lemma {:induction false} ButNone(history: seq<string>, tag: string)
    requires tag !in history
    ensures But(history, tag) == history
  {
    if history != [] {
      ButNone(history[1..], tag);
    }
  }

  lemma {:induction false} ButOne(history: seq<string>, tag: string, i: nat)
    requires Distinct(history) && i < |history| && history[i] == tag
    ensures But(history, tag) == history[..i] + history[i + 1..]
  {
    if i == 0 {
      assert tag !in history[1..];
      ButNone(history[1..], tag);
    } else {
      ButOne(history[1..], tag, i - 1);
      assert history[1..][..i - 1] == history[1..i] && history[1..][i..] == history[i + 1..];
    }
  }

  /** The last releases after a deploy are the one deployed and earlier last ones. */
  lemma DeployReachesNoFurther(history: seq<string>, tag: string, t: string)
    requires Distinct(history) && Restorable(AfterDeploy(history, tag), t)
    ensures t == tag || Restorable(history, t)
  {
    var all := But(history, tag) + [tag];
    var newest := Last(AfterDeploy(history, tag), IMAGES_KEPT);
    assert newest == Last(all, IMAGES_KEPT);
    if t != tag {
      assert t in Last(But(history, tag), IMAGES_KEPT - 1);
      ButOfLast(history, tag, IMAGES_KEPT - 1, t);
    }
  }

  // --- Runs --------------------------------------------------------------------

  datatype World = World(
    history: seq<string>, repos: Repos,
    safe: set<string>)                 // the last releases at the last prune, and those deployed since

  datatype Step =
    | Push(repos: Repos)               // tags added, or moved to a new build; maybe not all of them
    | Deploy(tag: string)
    | Rollback(tag: string)
    | Prune(gone: set<Ref>)            // as far as it came

  // What every commit renders to, and the registry's host.
  datatype Renders = Renders(render: string -> Option<set<Image>>, host: string)

  // Every image of a release is in the registry.
  predicate Present(c: Renders, w: World, tag: string) {
    c.render(tag).Some? && forall i :: i in c.render(tag).value && i.host == c.host ==> Holds(w.repos, (i.repo, i.tag))
  }

  predicate KeptThere(c: Renders, w: World) {
    KeptImages(w.history, c.render).Some? &&
    forall i :: i in KeptImages(w.history, c.render).value && i.host == c.host ==> Holds(w.repos, (i.repo, i.tag))
  }

  ghost predicate Enabled(c: Renders, w: World, step: Step) {
    match step
    case Push(repos) => forall r :: Holds(w.repos, r) ==> Holds(repos, r)
    case Deploy(tag) => Present(c, w, tag)
    case Rollback(tag) => Present(c, w, tag) && Restorable(w.history, tag)
    // Store.Prune: nothing goes unless each kept commit renders and each kept tag is there.
    case Prune(gone) =>
      KeptThere(c, w) && Deletable(w.repos, OnHost(KeptImages(w.history, c.render).value, c.host), gone)
  }

  function Apply(w: World, step: Step): World {
    match step
    case Push(repos) => w.(repos := repos)
    case Deploy(tag) => w.(history := AfterDeploy(w.history, tag), safe := w.safe + {tag})
    case Rollback(tag) => w.(history := AfterRollback(w.history, tag))
    case Prune(gone) => w.(repos := Deleted(w.repos, gone), safe := set t | t in Last(w.history, IMAGES_KEPT))
  }

  ghost predicate Run(c: Renders, worlds: seq<World>, steps: seq<Step>) {
    && |worlds| == |steps| + 1
    && forall i :: 0 <= i < |steps| ==> Enabled(c, worlds[i], steps[i]) && worlds[i + 1] == Apply(worlds[i], steps[i])
  }

  ghost predicate Inv(c: Renders, w: World) {
    Distinct(w.history) && |w.history| <= HISTORY_KEPT && forall t :: t in w.safe ==> Present(c, w, t)
  }

  lemma {:induction false} KeptImagesHold(commits: seq<string>, render: string -> Option<set<Image>>, tag: string)
    requires RenderAll(commits, render).Some? && tag in commits
    ensures render(tag).Some? && render(tag).value <= RenderAll(commits, render).value
  {
    if tag != commits[|commits| - 1] {
      KeptImagesHold(commits[..|commits| - 1], render, tag);
    }
  }

  lemma KeptArePresent(c: Renders, w: World, tag: string)
    requires KeptThere(c, w) && tag in Last(w.history, IMAGES_KEPT)
    ensures Present(c, w, tag)
  {
    KeptImagesHold(Last(w.history, IMAGES_KEPT), c.render, tag);
  }

  /** One of the last five without its images stops every prune: nothing more is ever deleted until
      it has left the five or is pushed again. */
  lemma MissingImagesStopPruning(c: Renders, w: World, tag: string, gone: set<Ref>)
    requires Restorable(w.history, tag) && !Present(c, w, tag)
    ensures !Enabled(c, w, Prune(gone))
  {
    if KeptThere(c, w) {
      KeptArePresent(c, w, tag);
    }
  }

  lemma PruneKeepsPresent(c: Renders, w: World, gone: set<Ref>, tag: string)
    requires Enabled(c, w, Prune(gone)) && tag in Last(w.history, IMAGES_KEPT)
    ensures Present(c, Apply(w, Prune(gone)), tag)
  {
    KeptArePresent(c, w, tag);
    KeptImagesHold(Last(w.history, IMAGES_KEPT), c.render, tag);
    var kept := OnHost(KeptImages(w.history, c.render).value, c.host);
    forall i | i in c.render(tag).value && i.host == c.host
      ensures Holds(Apply(w, Prune(gone)).repos, (i.repo, i.tag))
    {
      KeptStay(w.repos, kept, gone, (i.repo, i.tag));
    }
  }

  lemma StepKeepsInv(c: Renders, w: World, step: Step)
    requires Inv(c, w) && Enabled(c, w, step)
    ensures Inv(c, Apply(w, step))
  {
    match step
    case Push(_) =>
    case Deploy(tag) => RecordStaysProper(w.history, tag);
    case Rollback(tag) => RecordStaysProper(w.history, tag);
    case Prune(gone) =>
      forall t | t in Last(w.history, IMAGES_KEPT) ensures Present(c, Apply(w, step), t) {
        PruneKeepsPresent(c, w, gone, t);
      }
  }

  /** In every run of pushes, deploys, rollbacks and prunes, stopped anywhere, a release deployed
      since the last prune or among the last five at it can be gone back to. */
  lemma {:induction false} SafeReleasesArePresent(c: Renders, worlds: seq<World>, steps: seq<Step>, i: nat, tag: string)
    requires Run(c, worlds, steps) && Inv(c, worlds[0]) && i < |worlds|
    ensures Inv(c, worlds[i]) && (tag in worlds[i].safe ==> Present(c, worlds[i], tag))
  {
    if i > 0 {
      SafeReleasesArePresent(c, worlds, steps, i - 1, tag);
      StepKeepsInv(c, worlds[i - 1], steps[i - 1]);
    }
  }

  /** With no rollback between, `restorable` tells the truth: each release it accepts has its images. */
  lemma {:induction false} RestorableIsPresent(c: Renders, worlds: seq<World>, steps: seq<Step>, i: nat, tag: string)
    requires Run(c, worlds, steps) && Inv(c, worlds[0]) && i < |worlds|
    requires forall t :: Restorable(worlds[0].history, t) ==> t in worlds[0].safe
    requires forall j :: 0 <= j < |steps| ==> !steps[j].Rollback?
    requires Restorable(worlds[i].history, tag)
    ensures tag in worlds[i].safe && Present(c, worlds[i], tag)
  {
    SafeReleasesArePresent(c, worlds, steps, i, tag);
    if i > 0 {
      SafeReleasesArePresent(c, worlds, steps, i - 1, tag);
      var w, step := worlds[i - 1], steps[i - 1];
      if step.Deploy? {
        DeployReachesNoFurther(w.history, step.tag, tag);
        if tag != step.tag {
          RestorableIsPresent(c, worlds, steps, i - 1, tag);
        }
      } else if !step.Prune? {
        RestorableIsPresent(c, worlds, steps, i - 1, tag);
      }
      SafeReleasesArePresent(c, worlds, steps, i, tag);
    }
  }

  // --- After a rollback it may not -------------------------------------------------

  // The images a prune keeps.
  function KeptRefs(c: Renders, w: World): set<Ref> {
    var images := KeptImages(w.history, c.render);
    if images.None? then {} else OnHost(images.value, c.host)
  }

  // What a prune that comes to its end deletes.
  ghost predicate Whole(c: Renders, w: World, gone: set<Ref>) {
    forall g :: g in gone <==> Stale(w.repos, KeptRefs(c, w), g.0, g.1)
  }

  // Each image of a release, in the repositories a prune looks at, shares its digest with a kept one.
  predicate Spared(c: Renders, w: World, tag: string) {
    c.render(tag).Some? && forall i ::
      i in c.render(tag).value && i.host == c.host && i.repo in KeptRepos(KeptRefs(c, w)) ==>
        Holds(w.repos, (i.repo, i.tag)) && w.repos[i.repo][i.tag] in KeptDigests(w.repos, KeptRefs(c, w), i.repo)
  }

  /** For any registry and any releases: after a whole prune a release is there exactly if it was
      there and is spared. */
  lemma PresentAfterPruneIff(c: Renders, w: World, gone: set<Ref>, tag: string)
    requires Enabled(c, w, Prune(gone)) && Whole(c, w, gone)
    ensures Present(c, Apply(w, Prune(gone)), tag) <==> Present(c, w, tag) && Spared(c, w, tag)
  {
    var kept, w' := KeptRefs(c, w), Apply(w, Prune(gone));
    WholePlanPrunes(w.repos, kept, gone);
    if c.render(tag).Some? {
      forall i | i in c.render(tag).value && i.host == c.host
        ensures Holds(w'.repos, (i.repo, i.tag)) <==> (Holds(w.repos, (i.repo, i.tag)) &&
          (i.repo in KeptRepos(kept) ==> w.repos[i.repo][i.tag] in KeptDigests(w.repos, kept, i.repo)))
      {
      }
    }
  }

  lemma RollbackTo(history: seq<string>, i: nat)
    requires Distinct(history) && i < |history|
    ensures AfterRollback(history, history[i]) == history[..i + 1]
  {
    assert IndexOf(history, history[i]) == i;
  }

  lemma RestorableAt(history: seq<string>, i: nat)
    requires Distinct(history) && i < |history|
    ensures Restorable(history, history[i]) <==> |history| - i <= IMAGES_KEPT
  {
    if |history| - i <= IMAGES_KEPT {
      InLast(history, IMAGES_KEPT, i);
    } else {
      var newest := Last(history, IMAGES_KEPT);
      assert forall j :: 0 <= j < |newest| ==> newest[j] == history[|history| - IMAGES_KEPT + j];
    }
  }

  // A rollback to the i-th brings the j-th, no longer among the last five, into reach again.
  predicate BroughtBack(history: seq<string>, i: nat, j: nat) {
    j <= i < |history| && i - j < IMAGES_KEPT && |history| - j > IMAGES_KEPT
  }

  lemma RestorableAfterRollback(history: seq<string>, i: nat, j: nat)
    requires Distinct(history) && j < |history| && i < |history|
    ensures Restorable(history[..i + 1], history[j]) <==> j <= i && i - j < IMAGES_KEPT
  {
    var left := history[..i + 1];
    assert Distinct(left);
    if j <= i {
      assert left[j] == history[j];
      RestorableAt(left, j);
    } else {
      assert forall k :: 0 <= k < |left| ==> left[k] == history[k];
    }
  }

  /** For any registry and any releases, after a whole prune and a rollback `restorable` accepts: all
      it then accepts have their images exactly if each release brought back into reach was there
      before the prune and spared by it. */
  lemma RestorableAfterRollbackIff(c: Renders, w: World, gone: set<Ref>, i: nat)
    requires Distinct(w.history) && i < |w.history| && Restorable(w.history, w.history[i])
    requires Enabled(c, w, Prune(gone)) && Whole(c, w, gone)
    ensures
      var w1 := Apply(w, Prune(gone));
      var w2 := Apply(w1, Rollback(w.history[i]));
      && Enabled(c, w1, Rollback(w.history[i]))
      && ((forall t :: Restorable(w2.history, t) ==> Present(c, w2, t)) <==>
        forall j: nat :: BroughtBack(w.history, i, j) ==> Present(c, w, w.history[j]) && Spared(c, w, w.history[j]))
  {
    var w1 := Apply(w, Prune(gone));
    var w2 := Apply(w1, Rollback(w.history[i]));
    RollbackTo(w.history, i);
    PruneKeepsPresent(c, w, gone, w.history[i]);
    forall j: nat | j < |w.history|
      ensures Restorable(w2.history, w.history[j]) <==> j <= i && i - j < IMAGES_KEPT
      ensures Present(c, w2, w.history[j]) <==> Present(c, w, w.history[j]) && Spared(c, w, w.history[j])
      ensures |w.history| - j <= IMAGES_KEPT ==> Present(c, w2, w.history[j])
    {
      RestorableAfterRollback(w.history, i, j);
      PresentAfterPruneIff(c, w, gone, w.history[j]);
      RestorableAt(w.history, j);
      if |w.history| - j <= IMAGES_KEPT { PruneKeepsPresent(c, w, gone, w.history[j]); }
    }
    forall t | Restorable(w2.history, t) ensures exists j: nat :: j < |w.history| && w.history[j] == t {
      assert t in w2.history;
    }
  }

  lemma SomeBroughtBack(history: seq<string>, i: nat)
    requires i < |history| && |history| - i <= IMAGES_KEPT
    ensures (exists j: nat :: BroughtBack(history, i, j)) <==> |history| > IMAGES_KEPT && i < |history| - 1
  {
    if |history| > IMAGES_KEPT && i < |history| - 1 {
      assert BroughtBack(history, i, if i < IMAGES_KEPT then 0 else i + 1 - IMAGES_KEPT);
    }
  }

  /** Where no release but the last five is spared, that is: exactly if the record had at most five,
      or the rollback was to the running release. */
  lemma RestorableOfOwnImagesIff(c: Renders, w: World, gone: set<Ref>, i: nat)
    requires Distinct(w.history) && i < |w.history| && Restorable(w.history, w.history[i])
    requires Enabled(c, w, Prune(gone)) && Whole(c, w, gone)
    requires forall t :: t in w.history && !Restorable(w.history, t) ==> !Spared(c, w, t)
    ensures
      var w2 := Apply(Apply(w, Prune(gone)), Rollback(w.history[i]));
      (forall t :: Restorable(w2.history, t) ==> Present(c, w2, t)) <==> |w.history| <= IMAGES_KEPT || i == |w.history| - 1
  {
    RestorableAfterRollbackIff(c, w, gone, i);
    RestorableAt(w.history, i);
    SomeBroughtBack(w.history, i);
    forall j: nat | BroughtBack(w.history, i, j) ensures !Spared(c, w, w.history[j]) {
      RestorableAt(w.history, j);
    }
  }

  // Commits that each build one image, all of one repository.
  const REPO := "api"

  function Own(host: string, tag: string): set<Image> { {Image(host, REPO, tag)} }

  function Alone(host: string): Renders { Renders(tag => Some(Own(host, tag)), host) }

  // All of them pushed, each with its own digest, and recorded.
  function Built(history: seq<string>): World {
    World(history, map[REPO := map t | t in history :: t], set t | t in Last(history, IMAGES_KEPT))
  }

  lemma {:induction false} AloneRenders(host: string, commits: seq<string>)
    ensures RenderAll(commits, Alone(host).render).Some?
    ensures forall i :: i in RenderAll(commits, Alone(host).render).value <==>
      i.host == host && i.repo == REPO && i.tag in commits
  {
    if commits != [] {
      var front, last := commits[..|commits| - 1], commits[|commits| - 1];
      AloneRenders(host, front);
      assert Alone(host).render(last) == Some(Own(host, last));
    }
  }

  lemma AloneIsKept(host: string, history: seq<string>)
    requires 0 < |history|
    ensures KeptThere(Alone(host), Built(history))
    ensures forall t :: (REPO, t) in KeptRefs(Alone(host), Built(history)) <==> Restorable(history, t)
  {
    var newest := Last(history, IMAGES_KEPT);
    AloneRenders(host, newest);
    var images := KeptImages(history, Alone(host).render).value;
    forall t ensures (REPO, t) in OnHost(images, host) <==> t in newest {
      assert Image(host, REPO, t) in images <==> t in newest;
    }
  }

  lemma AloneIsNotSpared(host: string, history: seq<string>, tag: string)
    requires 0 < |history| && tag in history && !Restorable(history, tag)
    ensures !Spared(Alone(host), Built(history), tag)
  {
    AloneIsKept(host, history);
    var w, kept, newest := Built(history), KeptRefs(Alone(host), Built(history)), Last(history, IMAGES_KEPT);
    assert (REPO, newest[0]) in kept;
    assert Image(host, REPO, tag) in Alone(host).render(tag).value;
    assert forall t :: t in history ==> w.repos[REPO][t] == t;
  }

  /** Such releases there are, of any names: more than five on record, pruned whole, and any step
      back, and one that `restorable` then accepts is gone. */
  lemma RestorableMayBeGone(host: string, history: seq<string>, gone: set<Ref>, i: nat) returns (tag: string)
    requires Distinct(history) && |history| > IMAGES_KEPT && i < |history| - 1 && Restorable(history, history[i])
    requires Whole(Alone(host), Built(history), gone)
    ensures
      var w1 := Apply(Built(history), Prune(gone));
      var w2 := Apply(w1, Rollback(history[i]));
      && Enabled(Alone(host), Built(history), Prune(gone)) && Enabled(Alone(host), w1, Rollback(history[i]))
      && Restorable(w2.history, tag) && !Present(Alone(host), w2, tag)
  {
    var c, w := Alone(host), Built(history);
    AloneIsKept(host, history);
    forall t | t in history && !Restorable(history, t) ensures !Spared(c, w, t) { AloneIsNotSpared(host, history, t); }
    RestorableAfterRollbackIff(c, w, gone, i);
    RestorableOfOwnImagesIff(c, w, gone, i);
    var w2 := Apply(Apply(w, Prune(gone)), Rollback(history[i]));
    tag :| Restorable(w2.history, tag) && !Present(c, w2, tag);
  }
}
