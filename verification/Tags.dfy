/** What the tag of a workspace app's image is made of: the app's project, all it imports, and every
    file of no project (tools/k8srender/tags.py). */
module Tags {
  import opened Wrappers

  type Path = seq<string>                    // its parts
  type Files = map<Path, string>             // path -> blob id, at HEAD

  // What the content behind a blob id says.
  datatype Reader = Reader(
    name: string -> string,                  // project.json's name
    imports: string -> set<string>,          // the workspace aliases a file imports
    aliases: string -> map<string, Path>,    // tsconfig.base.json: alias -> target
    text: Path -> string)                    // a path as git prints it

  const PROJECT := "project.json"
  const TSCONFIG: Path := ["tsconfig.base.json"]

  predicate Under(f: Path, root: Path) { root <= f }

  // --- Projects ------------------------------------------------------------------

  function Roots(files: Files): set<Path> { set f | f in files && f != [] && f[|f| - 1] == PROJECT :: f[..|f| - 1] }

  // No project lies in another.
  predicate Apart(roots: set<Path>) { forall r, s :: r in roots && s in roots && r <= s ==> r == s }

  lemma RootHasProject(files: Files, root: Path)
    requires root in Roots(files)
    ensures root + [PROJECT] in files
  {
    var f :| f in files && f != [] && f[|f| - 1] == PROJECT && f[..|f| - 1] == root;
    assert f == root + [PROJECT];
  }

  // The root of the project called so: the last listed, as a dict keeps it.
  function Named(rd: Reader, files: Files, order: seq<Path>, app: string): Option<Path>
    requires forall r :: r in order ==> r + [PROJECT] in files
  {
    if order == [] then None else
    var last := order[|order| - 1];
    if rd.name(files[last + [PROJECT]]) == app then Some(last) else Named(rd, files, order[..|order| - 1], app)
  }

  // The first root listed that a path lies under.
  function FirstOver(order: seq<Path>, f: Path): (r: Option<Path>)
    ensures r.Some? ==> r.value in order && Under(f, r.value)
  {
    if order == [] then None else if Under(f, order[0]) then Some(order[0]) else FirstOver(order[1..], f)
  }

  predicate ImportsOne(rd: Reader, files: Files, order: seq<Path>, from: Path, to: Path)
    requires TSCONFIG in files
  {
    var aliases := rd.aliases(files[TSCONFIG]);
    && from != to
    && exists f, a ::
      f in files && Under(f, from) && a in rd.imports(files[f]) && a in aliases && FirstOver(order, aliases[a]) == Some(to)
  }

  /** imports: the other projects whose alias some file of this one names. */
  function Imports(rd: Reader, files: Files, order: seq<Path>): (r: map<Path, set<Path>>)
    requires TSCONFIG in files
  {
    map r | r in Roots(files) :: set s | s in Roots(files) && ImportsOne(rd, files, order, r, s)
  }

  // --- The closure ---------------------------------------------------------------

  // b is reached from a by n imports, one or more.
  ghost predicate ReachIn<T(!new)>(imports: map<T, set<T>>, a: T, b: T, n: nat)
    decreases n
  {
    if n == 0 then false else
    if n == 1 then a in imports && b in imports[a] else
    exists c :: ReachIn(imports, a, c, n - 1) && c in imports && b in imports[c]
  }

  ghost predicate Reaches<T(!new)>(imports: map<T, set<T>>, a: T, b: T) { exists n: nat :: ReachIn(imports, a, b, n) }

  lemma ReachesOn<T(!new)>(imports: map<T, set<T>>, a: T, b: T, c: T)
    requires a in imports && b in imports && c in imports[b] && (a == b || Reaches(imports, a, b))
    ensures Reaches(imports, a, c)
  {
    if a == b {
      assert ReachIn(imports, a, c, 1);
    } else {
      var n: nat :| ReachIn(imports, a, b, n);
      assert ReachIn(imports, a, c, n + 1);
    }
  }

  // Holding what each of these imports.
  predicate Closed<T>(imports: map<T, set<T>>, done: set<T>, seen: set<T>) {
    forall x :: x in done && x in imports ==> imports[x] <= seen
  }

  function Taken<T>(seen: set<T>, todo: seq<T>): set<T> { set r | r in seen && r !in todo }

  // A set closed under imports that holds what a imports holds all it reaches.
  lemma {:induction false} ClosedHolds<T(!new)>(imports: map<T, set<T>>, a: T, seen: set<T>, b: T, n: nat)
    requires Closed(imports, seen + {a}, seen) && ReachIn(imports, a, b, n)
    ensures b in seen
    decreases n
  {
    if n > 1 {
      var c :| ReachIn(imports, a, c, n - 1) && c in imports && b in imports[c];
      ClosedHolds(imports, a, seen, c, n - 1);
    }
  }

  ghost predicate Working<T(!new)>(imports: map<T, set<T>>, root: T, seen: set<T>, todo: seq<T>) {
    && seen <= imports.Keys && (forall r :: r in todo ==> r in imports && (r == root || r in seen))
    && (forall r :: r in seen ==> Reaches(imports, root, r))
    && Closed(imports, Taken(seen + {root}, todo), seen)
  }

  /** closure: exactly the projects reached by one or more imports; itself only around a cycle. */
  method Closure<T(==, !new)>(imports: map<T, set<T>>, root: T) returns (seen: set<T>)
    requires root in imports && forall r :: r in imports ==> imports[r] <= imports.Keys
    ensures forall r :: r in seen <==> Reaches(imports, root, r)
  {
    seen := {};
    var todo := [root];
    while todo != []
      invariant Working(imports, root, seen, todo)
      decreases 2 * |imports.Keys - seen| + |todo|
    {
      var top, left := todo[|todo| - 1], todo[..|todo| - 1];
      var deps := imports[top] - seen;
      var more := Listed(deps);
      Shrinks(imports.Keys, seen, deps);
      StillWorking(imports, root, seen, todo, deps, more);
      seen, todo := seen + deps, left + more;
    }
    assert Taken(seen + {root}, todo) == seen + {root};
    forall r | Reaches(imports, root, r) ensures r in seen {
      var n: nat :| ReachIn(imports, root, r, n);
      ClosedHolds(imports, root, seen, r, n);
    }
  }

  lemma StillWorking<T(!new)>(imports: map<T, set<T>>, root: T, seen: set<T>, todo: seq<T>, deps: set<T>, more: seq<T>)
    requires root in imports && Working(imports, root, seen, todo) && todo != [] && deps == imports[todo[|todo| - 1]] - seen
    requires deps <= imports.Keys && forall r :: r in more <==> r in deps
    ensures Working(imports, root, seen + deps, todo[..|todo| - 1] + more)
  {
    var top := todo[|todo| - 1];
    assert top in todo;
    forall d | d in deps ensures Reaches(imports, root, d) { ReachesOn(imports, root, top, d); }
    forall r | r in todo[..|todo| - 1] + more ensures r in imports && (r == root || r in seen + deps) {
      assert r in todo || r in deps;
    }
    StillClosed(imports, root, seen, todo, deps, more);
  }

  lemma StillClosed<T>(imports: map<T, set<T>>, root: T, seen: set<T>, todo: seq<T>, deps: set<T>, more: seq<T>)
    requires todo != [] && todo[|todo| - 1] in imports && deps == imports[todo[|todo| - 1]] - seen
    requires Closed(imports, Taken(seen + {root}, todo), seen)
    requires forall r :: r in more <==> r in deps
    ensures Closed(imports, Taken(seen + deps + {root}, todo[..|todo| - 1] + more), seen + deps)
  {
    var now, left, top := seen + deps, todo[..|todo| - 1] + more, todo[|todo| - 1];
    assert todo == todo[..|todo| - 1] + [top];
    forall x | x in now + {root} && x !in left && x in imports ensures imports[x] <= now {
      if x != top {
        assert x !in todo && x !in deps;
        assert x in Taken(seen + {root}, todo);
      }
    }
  }

  // A set's members in some order, as a loop over it takes them.
  method Listed<T(==)>(s: set<T>) returns (r: seq<T>)
    ensures forall x :: x in r <==> x in s
    ensures |r| == |s|
  {
    r := [];
    var left := s;
    while left != {}
      invariant left <= s && |r| + |left| == |s| && forall x :: x in r <==> x in s - left
      decreases |left|
    {
      var x :| x in left;
      r, left := r + [x], left - {x};
    }
  }

  lemma Shrinks<T>(all: set<T>, seen: set<T>, more: set<T>)
    requires more <= all && more !! seen
    ensures |all - (seen + more)| == |all - seen| - |more|
  {
    assert all - seen == (all - (seen + more)) + more;
  }

  // --- The inputs ----------------------------------------------------------------

  /** SEED_ONLY: the scripts only db-migrate's stage runs. */
  predicate SeedOnly(f: Path) {
    |f| == 2 && f[0] == "prisma" && |f[1]| >= 7 && f[1][..4] == "seed" && f[1][|f[1]| - 3..] == ".js"
  }

  ghost predicate Needed(rd: Reader, files: Files, order: seq<Path>, root: Path, r: Path)
    requires TSCONFIG in files
  {
    r == root || Reaches(Imports(rd, files, order), root, r)
  }

  // In a project the app does not import.
  ghost predicate Foreign(rd: Reader, files: Files, order: seq<Path>, root: Path, f: Path)
    requires TSCONFIG in files
  {
    exists r :: r in Roots(files) && Under(f, r) && !Needed(rd, files, order, root, r)
  }

  /** The files an app's image is made of. */
  ghost function Kept(rd: Reader, files: Files, order: seq<Path>, root: Path): Files
    requires TSCONFIG in files
  {
    map f | f in files && !SeedOnly(f) && !Foreign(rd, files, order, root, f) :: files[f]
  }

  function Line(rd: Reader, f: Path, blob: string): string { rd.text(f) + " " + blob }

  function Lines(rd: Reader, files: Files): set<string> { set f | f in files :: Line(rd, f, files[f]) }

  ghost predicate Listing(files: Files, order: seq<Path>) { forall r :: r in order <==> r in Roots(files) }

  lemma ListedHaveProjects(files: Files, order: seq<Path>)
    requires Listing(files, order)
    ensures forall r :: r in order ==> r + [PROJECT] in files
  {
    forall r | r in order ensures r + [PROJECT] in files { RootHasProject(files, r); }
  }

  /** What the tag of an app's image is made of: refused for an app no project is called; else the
      lines of exactly the kept files. */
  ghost function InputsOf(rd: Reader, files: Files, order: seq<Path>, app: string): Option<set<string>>
    requires TSCONFIG in files && forall p :: p in order ==> p + [PROJECT] in files
  {
    match Named(rd, files, order, app)
    case None => None
    case Some(root) => Some(Lines(rd, Kept(rd, files, order, root)))
  }

  /** _app_inputs */
  method AppInputs(rd: Reader, files: Files, order: seq<Path>, app: string) returns (r: Option<set<string>>)
    requires TSCONFIG in files && Listing(files, order)
    ensures (forall p :: p in order ==> p + [PROJECT] in files) && r == InputsOf(rd, files, order, app)
  {
    ListedHaveProjects(files, order);
    var named := Named(rd, files, order, app);
    if named.None? {
      return None;
    }
    var root, imports := named.value, Imports(rd, files, order);
    NamedIsListed(rd, files, order, app);
    var closure := Closure(imports, root);
    var keep := {root} + closure;
    var others := set p | p in order && p !in keep;
    var kept := map f | f in files && !SeedOnly(f) && forall p :: p in others ==> !Under(f, p) :: files[f];
    KeptByOthers(rd, files, order, root, others, kept);
    r := Some(Lines(rd, kept));
  }

  lemma {:induction false} NamedIsListed(rd: Reader, files: Files, order: seq<Path>, app: string)
    requires forall p :: p in order ==> p + [PROJECT] in files
    ensures Named(rd, files, order, app).Some? ==> Named(rd, files, order, app).value in order
  {
    if order != [] {
      NamedIsListed(rd, files, order[..|order| - 1], app);
    }
  }

  lemma KeptByOthers(rd: Reader, files: Files, order: seq<Path>, root: Path, others: set<Path>, kept: Files)
    requires TSCONFIG in files
    requires forall p :: p in others <==> p in Roots(files) && !Needed(rd, files, order, root, p)
    requires kept == map f | f in files && !SeedOnly(f) && forall p :: p in others ==> !Under(f, p) :: files[f]
    ensures kept == Kept(rd, files, order, root)
  {
    forall f | f in files ensures (forall p :: p in others ==> !Under(f, p)) <==> !Foreign(rd, files, order, root, f) {}
  }

  // --- What a tag does not depend on -----------------------------------------------

  // The two trees agree on this file: both have it alike or neither has it.
  predicate Same(a: Files, b: Files, f: Path) { (f in a <==> f in b) && (f in a ==> a[f] == b[f]) }

  // They differ in projects the app does not import and in seed scripts of no project, nowhere else.
  ghost predicate DifferOutside(rd: Reader, a: Files, b: Files, order: seq<Path>, root: Path)
    requires TSCONFIG in a
  {
    forall f :: Same(a, b, f) || Foreign(rd, a, order, root, f) || (SeedOnly(f) && forall r :: r in Roots(a) ==> !Under(f, r))
  }

  lemma NeededFilesAreSame(rd: Reader, a: Files, b: Files, order: seq<Path>, root: Path, r: Path, f: Path)
    requires TSCONFIG in a && Apart(Roots(a)) && DifferOutside(rd, a, b, order, root)
    requires r in Roots(a) && Needed(rd, a, order, root, r) && Under(f, r)
    ensures Same(a, b, f)
  {
    forall s | s in Roots(a) && Under(f, s) ensures s == r { PrefixesNest(f, r, s); }
  }

  lemma PrefixesNest(f: Path, r: Path, s: Path)
    requires r <= f && s <= f
    ensures r <= s || s <= r
  {
    assert f[..|r|] == r && f[..|s|] == s;
  }

  lemma SameImports(rd: Reader, a: Files, b: Files, order: seq<Path>, root: Path, r: Path)
    requires TSCONFIG in a && TSCONFIG in b && rd.aliases(a[TSCONFIG]) == rd.aliases(b[TSCONFIG])
    requires Apart(Roots(a)) && Roots(a) == Roots(b) && DifferOutside(rd, a, b, order, root)
    requires r in Roots(a) && Needed(rd, a, order, root, r)
    ensures Imports(rd, a, order)[r] == Imports(rd, b, order)[r]
  {
    forall s | s in Roots(a) ensures ImportsOne(rd, a, order, r, s) == ImportsOne(rd, b, order, r, s) {
      forall f | Under(f, r) ensures Same(a, b, f) { NeededFilesAreSame(rd, a, b, order, root, r, f); }
    }
  }

  lemma {:induction false} SameReach(i: map<Path, set<Path>>, j: map<Path, set<Path>>, root: Path, b: Path, n: nat)
    requires i.Keys == j.Keys
    requires forall r :: r in i && (r == root || Reaches(i, root, r)) ==> i[r] == j[r]
    ensures ReachIn(i, root, b, n) <==> ReachIn(j, root, b, n)
    decreases n
  {
    if n > 1 {
      var m: nat := n - 1;
      forall c ensures ReachIn(i, root, c, m) <==> ReachIn(j, root, c, m) { SameReach(i, j, root, c, m); }
    }
  }

  lemma NeededAlike(rd: Reader, a: Files, b: Files, order: seq<Path>, root: Path, r: Path)
    requires TSCONFIG in a && TSCONFIG in b && rd.aliases(a[TSCONFIG]) == rd.aliases(b[TSCONFIG])
    requires Apart(Roots(a)) && Roots(a) == Roots(b) && DifferOutside(rd, a, b, order, root)
    ensures Needed(rd, a, order, root, r) <==> Needed(rd, b, order, root, r)
  {
    var i, j := Imports(rd, a, order), Imports(rd, b, order);
    forall s | s in i && (s == root || Reaches(i, root, s)) ensures i[s] == j[s] { SameImports(rd, a, b, order, root, s); }
    forall n: nat ensures ReachIn(i, root, r, n) <==> ReachIn(j, root, r, n) { SameReach(i, j, root, r, n); }
  }

  lemma KeptAlike(rd: Reader, a: Files, b: Files, order: seq<Path>, root: Path)
    requires TSCONFIG in a && TSCONFIG in b && rd.aliases(a[TSCONFIG]) == rd.aliases(b[TSCONFIG])
    requires Apart(Roots(a)) && Roots(a) == Roots(b) && DifferOutside(rd, a, b, order, root)
    ensures Kept(rd, a, order, root) == Kept(rd, b, order, root)
  {
    forall r ensures Needed(rd, a, order, root, r) <==> Needed(rd, b, order, root, r) {
      NeededAlike(rd, a, b, order, root, r);
    }
    forall f ensures Foreign(rd, a, order, root, f) <==> Foreign(rd, b, order, root, f) {}
  }

  // Some project listed after this one is called so.
  predicate LaterNamesake(rd: Reader, files: Files, order: seq<Path>, root: Path, app: string)
    requires forall r :: r in order ==> r + [PROJECT] in files
  {
    exists i, j :: 0 <= i < j < |order| && order[i] == root && rd.name(files[order[j] + [PROJECT]]) == app
  }

  /** An app is looked up as this project exactly if it is called so and none listed after it is. */
  lemma {:induction false} NamedIff(rd: Reader, files: Files, order: seq<Path>, root: Path, app: string)
    requires forall r :: r in order ==> r + [PROJECT] in files
    requires root in order && forall i, j :: 0 <= i < j < |order| ==> order[i] != order[j]
    ensures Named(rd, files, order, app) == Some(root) <==>
      rd.name(files[root + [PROJECT]]) == app && !LaterNamesake(rd, files, order, root, app)
  {
    var n := |order| - 1;
    var front, last := order[..n], order[n];
    assert order == front + [last];
    if rd.name(files[last + [PROJECT]]) == app {
      if last != root {
        var i :| 0 <= i < |order| && order[i] == root;
        assert LaterNamesake(rd, files, order, root, app);
      }
    } else if last != root {
      assert root in front;
      NamedIff(rd, files, front, root, app);
      assert LaterNamesake(rd, files, order, root, app) <==> LaterNamesake(rd, files, front, root, app);
    } else {
      NamedHasTheName(rd, files, order, app);
    }
  }

  lemma {:induction false} NamedHasTheName(rd: Reader, files: Files, order: seq<Path>, app: string)
    requires forall r :: r in order ==> r + [PROJECT] in files
    ensures Named(rd, files, order, app).Some? ==>
      var root := Named(rd, files, order, app).value;
      root in order && rd.name(files[root + [PROJECT]]) == app
  {
    if order != [] { NamedHasTheName(rd, files, order[..|order| - 1], app); }
  }

  // Paths read apart, and blob ids without spaces, as git prints them.
  ghost predicate ReadApart(rd: Reader, files: Files) {
    (forall f, g :: rd.text(f) == rd.text(g) ==> f == g) && forall f :: f in files ==> ' ' !in files[f]
  }

  /** Two trees with the same projects and aliases that differ only in projects the app does not
      import, or in seed scripts outside every project: the app is the same project in both exactly
      if the other tree calls none listed after it by its name, and exactly then are its image's
      inputs the same. */
  lemma OtherProjectsDoNotCount(rd: Reader, a: Files, b: Files, order: seq<Path>, app: string, root: Path)
    requires TSCONFIG in a && TSCONFIG in b && rd.aliases(a[TSCONFIG]) == rd.aliases(b[TSCONFIG])
    requires Listing(a, order) && Listing(b, order) && Apart(Roots(a))
    requires forall i, j :: 0 <= i < j < |order| ==> order[i] != order[j]
    requires (forall r :: r in order ==> r + [PROJECT] in a) && (forall r :: r in order ==> r + [PROJECT] in b)
    requires Named(rd, a, order, app) == Some(root) && DifferOutside(rd, a, b, order, root)
    ensures Named(rd, b, order, app) == Some(root) <==> !LaterNamesake(rd, b, order, root, app)
    ensures !LaterNamesake(rd, b, order, root, app) ==> InputsOf(rd, a, order, app) == InputsOf(rd, b, order, app)
    ensures ReadApart(rd, a) && ReadApart(rd, b) ==>
      (InputsOf(rd, a, order, app) == InputsOf(rd, b, order, app) <==> !LaterNamesake(rd, b, order, root, app))
  {
    NamedHasTheName(rd, a, order, app);
    assert Roots(a) == Roots(b);
    NeededFilesAreSame(rd, a, b, order, root, root, root + [PROJECT]);
    NamedIff(rd, b, order, root, app);
    KeptAlike(rd, a, b, order, root);
    if ReadApart(rd, a) && ReadApart(rd, b) && LaterNamesake(rd, b, order, root, app) {
      NamesakeTakesOver(rd, a, b, order, app, root);
    }
  }

  /** The last project called so is looked up. */
  lemma {:induction false} LastNamesake(rd: Reader, files: Files, order: seq<Path>, app: string, j: nat)
    requires forall r :: r in order ==> r + [PROJECT] in files
    requires j < |order| && rd.name(files[order[j] + [PROJECT]]) == app
    ensures exists k :: j <= k < |order| && Named(rd, files, order, app) == Some(order[k])
  {
    var n := |order| - 1;
    if rd.name(files[order[n] + [PROJECT]]) != app {
      LastNamesake(rd, files, order[..n], app, j);
    }
  }

  lemma TheOneLookedUp(rd: Reader, a: Files, b: Files, order: seq<Path>, app: string, root: Path) returns (taken: Path)
    requires forall i, j :: 0 <= i < j < |order| ==> order[i] != order[j]
    requires (forall r :: r in order ==> r + [PROJECT] in a) && (forall r :: r in order ==> r + [PROJECT] in b)
    requires Named(rd, a, order, app) == Some(root) && LaterNamesake(rd, b, order, root, app)
    ensures taken in order && Named(rd, b, order, app) == Some(taken)
    ensures rd.name(b[taken + [PROJECT]]) == app && rd.name(a[taken + [PROJECT]]) != app
  {
    var i, j :| 0 <= i < j < |order| && order[i] == root && rd.name(b[order[j] + [PROJECT]]) == app;
    LastNamesake(rd, b, order, app, j);
    var k :| j <= k < |order| && Named(rd, b, order, app) == Some(order[k]);
    taken := order[k];
    NamedHasTheName(rd, b, order, app);
    NamedIff(rd, a, order, root, app);
  }

  lemma ChangedProjectIsForeign(rd: Reader, a: Files, b: Files, order: seq<Path>, root: Path, r: Path)
    requires TSCONFIG in a && r in Roots(a) && r + [PROJECT] in a && r + [PROJECT] in b
    requires DifferOutside(rd, a, b, order, root) && a[r + [PROJECT]] != b[r + [PROJECT]]
    ensures r + [PROJECT] !in Kept(rd, a, order, root)
  {
    assert !Same(a, b, r + [PROJECT]) && Under(r + [PROJECT], r);
  }

  /** A project listed after the app's and called as it in the other tree is called otherwise in this
      one: its own file tells the two images apart. */
  lemma NamesakeTakesOver(rd: Reader, a: Files, b: Files, order: seq<Path>, app: string, root: Path)
    requires TSCONFIG in a && TSCONFIG in b && Listing(a, order) && Listing(b, order) && Apart(Roots(b))
    requires forall i, j :: 0 <= i < j < |order| ==> order[i] != order[j]
    requires (forall r :: r in order ==> r + [PROJECT] in a) && (forall r :: r in order ==> r + [PROJECT] in b)
    requires Named(rd, a, order, app) == Some(root) && DifferOutside(rd, a, b, order, root)
    requires ReadApart(rd, a) && ReadApart(rd, b) && LaterNamesake(rd, b, order, root, app)
    ensures InputsOf(rd, a, order, app) != InputsOf(rd, b, order, app)
  {
    var taken := TheOneLookedUp(rd, a, b, order, app, root);
    ChangedProjectIsForeign(rd, a, b, order, root, taken);
    OwnFileIsKept(rd, b, order, taken);
    InputsAreTheKeptFiles(rd, Kept(rd, a, order, root), Kept(rd, b, order, taken));
  }

  lemma OwnFileIsKept(rd: Reader, files: Files, order: seq<Path>, root: Path)
    requires TSCONFIG in files && Apart(Roots(files)) && root in Roots(files) && root + [PROJECT] in files
    ensures root + [PROJECT] in Kept(rd, files, order, root)
  {
    var f := root + [PROJECT];
    forall r | r in Roots(files) && Under(f, r) ensures r == root { PrefixesNest(f, root, r); }
  }

  // Two projects and the aliases.
  function TwoProjects(x: Path, y: Path, first: string, second: string, aliases: string): Files {
    map[x + [PROJECT] := first, y + [PROJECT] := second, TSCONFIG := aliases]
  }

  lemma TwoAreListed(x: Path, y: Path, first: string, second: string, aliases: string)
    requires x != y
    ensures Listing(TwoProjects(x, y, first, second, aliases), [x, y])
  {
    var files := TwoProjects(x, y, first, second, aliases);
    assert (x + [PROJECT])[|x|] == PROJECT && (x + [PROJECT])[..|x|] == x;
    assert (y + [PROJECT])[|y|] == PROJECT && (y + [PROJECT])[..|y|] == y;
    assert TSCONFIG[0] != PROJECT;
    forall r ensures r in [x, y] <==> r in Roots(files) {
      if r in [x, y] { assert r + [PROJECT] in files; }
    }
  }

  lemma NothingImported(rd: Reader, files: Files, order: seq<Path>, root: Path, r: Path)
    requires TSCONFIG in files && forall f :: f in files ==> rd.imports(files[f]) == {}
    ensures Needed(rd, files, order, root, r) <==> r == root
  {
    var imports := Imports(rd, files, order);
    assert forall c :: c in imports ==> imports[c] == {};
    assert forall n: nat :: !ReachIn(imports, root, r, n);
  }

  // Neither root in the other, nor a seed script or the aliases below them.
  predicate Beside(x: Path, y: Path) {
    && !(x <= y) && !(y <= x) && !(x <= TSCONFIG) && !(y <= TSCONFIG)
    && !SeedOnly(x + [PROJECT]) && !SeedOnly(y + [PROJECT])
  }

  /** Of two projects that import nothing, neither's image has a file of the other. */
  lemma OtherIsForeign(rd: Reader, x: Path, y: Path, first: string, second: string, aliases: string)
    requires Beside(x, y) && rd.imports(first) == {} && rd.imports(second) == {} && rd.imports(aliases) == {}
    ensures
      var files := TwoProjects(x, y, first, second, aliases);
      forall f :: Under(f, y) ==> Foreign(rd, files, [x, y], x, f)
  {
    var files := TwoProjects(x, y, first, second, aliases);
    TwoAreListed(x, y, first, second, aliases);
    assert y in [x, y] && y in Roots(files);
    NothingImported(rd, files, [x, y], x, y);
  }

  lemma SameElsewhere(x: Path, y: Path, first: string, second: string, renamed: string, aliases: string)
    requires Beside(x, y)
    ensures
      var a, b := TwoProjects(x, y, first, second, aliases), TwoProjects(x, y, first, renamed, aliases);
      forall f :: f != y + [PROJECT] ==> Same(a, b, f)
  {
  }

  lemma TwoAreApart(x: Path, y: Path, first: string, second: string, aliases: string)
    requires Beside(x, y)
    ensures Apart(Roots(TwoProjects(x, y, first, second, aliases)))
  {
    TwoAreListed(x, y, first, second, aliases);
  }

  lemma RenamedAlone(rd: Reader, x: Path, y: Path, first: string, second: string, renamed: string, aliases: string)
    requires Beside(x, y) && rd.imports(first) == {} && rd.imports(second) == {} && rd.imports(aliases) == {}
    ensures
      var a, b := TwoProjects(x, y, first, second, aliases), TwoProjects(x, y, first, renamed, aliases);
      DifferOutside(rd, a, b, [x, y], x)
  {
    var a, b := TwoProjects(x, y, first, second, aliases), TwoProjects(x, y, first, renamed, aliases);
    SameElsewhere(x, y, first, second, renamed, aliases);
    OtherIsForeign(rd, x, y, first, second, aliases);
    OnlyTheOtherDiffers(rd, a, b, [x, y], x, y);
  }

  lemma OnlyTheOtherDiffers(rd: Reader, a: Files, b: Files, order: seq<Path>, x: Path, y: Path)
    requires TSCONFIG in a && forall f :: Under(f, y) ==> Foreign(rd, a, order, x, f)
    requires forall f :: f != y + [PROJECT] ==> Same(a, b, f)
    ensures DifferOutside(rd, a, b, order, x)
  {
    assert Under(y + [PROJECT], y);
  }

  lemma NameIsLast(rd: Reader, files: Files, x: Path, y: Path, app: string)
    requires x + [PROJECT] in files && y + [PROJECT] in files && rd.name(files[x + [PROJECT]]) == app
    ensures Named(rd, files, [x, y], app) == Some(if rd.name(files[y + [PROJECT]]) == app then y else x)
  {
    assert [x, y][..1] == [x];
  }

  lemma TwoHold(x: Path, y: Path, first: string, second: string, aliases: string)
    requires Beside(x, y)
    ensures
      var files := TwoProjects(x, y, first, second, aliases);
      files[x + [PROJECT]] == first && files[y + [PROJECT]] == second
    ensures ' ' !in first && ' ' !in second && ' ' !in aliases ==>
      var files := TwoProjects(x, y, first, second, aliases);
      forall f :: f in files ==> ' ' !in files[f]
  {
    assert (x + [PROJECT])[..|x|] == x && (y + [PROJECT])[..|y|] == y;
    assert x + [PROJECT] != y + [PROJECT];
    assert TSCONFIG[..0] == [] && x != [] && y != [];
    assert |x + [PROJECT]| > 1 && |y + [PROJECT]| > 1;
  }

  /** Give a project the app does not import the app's own name: the tree differs nowhere else, and
      yet the app's image is made of that project instead. */
  lemma RenamedProjectTakesOver(
    rd: Reader, x: Path, y: Path, first: string, second: string, renamed: string, aliases: string, app: string)
    requires Beside(x, y) && rd.name(first) == app && rd.name(second) != app && rd.name(renamed) == app
    requires rd.imports(first) == {} && rd.imports(second) == {} && rd.imports(renamed) == {} && rd.imports(aliases) == {}
    requires ' ' !in first && ' ' !in second && ' ' !in renamed && ' ' !in aliases
    requires forall f, g :: rd.text(f) == rd.text(g) ==> f == g
    ensures
      var a, b := TwoProjects(x, y, first, second, aliases), TwoProjects(x, y, first, renamed, aliases);
      && Listing(a, [x, y]) && Listing(b, [x, y]) && Apart(Roots(a))
      && Named(rd, a, [x, y], app) == Some(x) && DifferOutside(rd, a, b, [x, y], x)
      && InputsOf(rd, a, [x, y], app) != InputsOf(rd, b, [x, y], app)
  {
    TwoAreListed(x, y, first, second, aliases);
    TwoAreListed(x, y, first, renamed, aliases);
    TwoAreApart(x, y, first, second, aliases);
    TwoHold(x, y, first, second, aliases);
    NameIsLast(rd, TwoProjects(x, y, first, second, aliases), x, y, app);
    TwoHold(x, y, first, renamed, aliases);
    TwoAreApart(x, y, first, renamed, aliases);
    RenamedAlone(rd, x, y, first, second, renamed, aliases);
    var b := TwoProjects(x, y, first, renamed, aliases);
    assert [x, y][0] == x && [x, y][1] == y && LaterNamesake(rd, b, [x, y], x, app);
    NamesakeTakesOver(rd, TwoProjects(x, y, first, second, aliases), b, [x, y], app, x);
  }

  // --- What it does depend on --------------------------------------------------------

  lemma ShorterLeavesSpace(a: string, x: string, b: string, y: string)
    requires a + " " + x == b + " " + y && |a| < |b|
    ensures ' ' in x
  {
    var line := b + " " + y;
    assert line[|b|] == ' ' && (a + " " + x)[|b|] == x[|b| - |a| - 1];
  }

  lemma LineIsOneFile(a: string, x: string, b: string, y: string)
    requires ' ' !in x && ' ' !in y && a + " " + x == b + " " + y
    ensures a == b && x == y
  {
    if |a| < |b| { ShorterLeavesSpace(a, x, b, y); }
    if |b| < |a| { ShorterLeavesSpace(b, y, a, x); }
    var line := a + " " + x;
    assert line[..|a|] == a && line[..|b|] == b && line[|a| + 1..] == x && line[|b| + 1..] == y;
  }

  /** The lines stand for the kept files exactly: a kept file changed, added or gone changes them. */
  lemma InputsAreTheKeptFiles(rd: Reader, a: Files, b: Files)
    requires ReadApart(rd, a) && ReadApart(rd, b)
    ensures Lines(rd, a) == Lines(rd, b) <==> a == b
  {
    if Lines(rd, a) == Lines(rd, b) {
      LinesHold(rd, a, b);
      LinesHold(rd, b, a);
    }
  }

  lemma LinesHold(rd: Reader, a: Files, b: Files)
    requires ReadApart(rd, a) && ReadApart(rd, b)
    requires Lines(rd, a) <= Lines(rd, b)
    ensures forall f :: f in a ==> f in b && a[f] == b[f]
  {
    forall f | f in a ensures f in b && a[f] == b[f] {
      assert Line(rd, f, a[f]) in Lines(rd, b);
      var g :| g in b && Line(rd, g, b[g]) == Line(rd, f, a[f]);
      LineIsOneFile(rd.text(f), a[f], rd.text(g), b[g]);
    }
  }
}
