/** The renderer's output is closed: what a pod or a route names is among the objects. */
module RendererClosure {
  import opened Renderer
  import opened Wrappers
  import opened Strings

  // --- A pod's volumes -------------------------------------------------------------

  // An object is placed with the volume that names it.
  ghost predicate Fits(p: Placing) {
    p.Placed? ==> match p.volume
      case Claim(n) => p.behind == Some((Pvc(n), ClaimObject(n)))
      case FileRef(kind, n) => p.behind == Some((File(p.mount.volume), FileObject(kind, n)))
      case _ => p.behind == None
  }

  ghost predicate Backed(state: State) {
    && (forall v :: v in state.volumes ==> match state.volumes[v]
          case Claim(n) => Pvc(n) in state.objects
          case FileRef(kind, n) => File(v) in state.objects && state.objects[File(v)] == FileObject(kind, n)
          case _ => true)
    && forall k :: k in state.objects ==> Own(k, state.objects[k])
  }

  // A claim's key is its name; a file's key holds a file.
  predicate Own(key: Key, object_: Object) {
    match key case Pvc(n) => object_ == ClaimObject(n) case File(_) => object_.FileObject?
  }

  lemma PlacingsFit(setup: Setup, name: string, service: Service)
    ensures forall p :: p in Placings(setup, name, service) ==> Fits(p)
  {
    forall p | p in Placings(setup, name, service) ensures Fits(p) {
      var a, b := OfVolumes(setup, service.volumes), OfDeclared(setup, name, ConfigMap, service.configs);
      var c, d := OfDeclared(setup, name, Secret, service.secrets), OfMemory(setup, service.tmpfs, service.shm);
      assert p in a || p in b || p in c || p in d;
    }
  }

  lemma {:induction false} PodPlacingsFit(stack: Stack, members: seq<string>)
    requires forall m :: m in members ==> m in stack.services
    ensures forall p :: p in PodPlacings(stack, members) ==> Fits(p)
  {
    if members != [] {
      var last := members[|members| - 1];
      PodPlacingsFit(stack, members[..|members| - 1]);
      PlacingsFit(stack.setup, last, stack.services[last]);
    }
  }

  /** Whatever is placed over whatever, a pod's volumes keep their objects. */
  lemma {:induction false} PlacingKeepsBacked(start: State, placings: seq<Placing>)
    requires Backed(start) && forall p :: p in placings ==> Fits(p)
    ensures Backed(After(start, placings))
  {
    if placings != [] {
      PlacingKeepsBacked(start, placings[..|placings| - 1]);
      assert Fits(placings[|placings| - 1]);
    }
  }

  lemma {:induction false} MountsAreVolumes(start: State, placings: seq<Placing>)
    ensures start.volumes.Keys <= After(start, placings).volumes.Keys
    ensures forall m :: m in MountsOf(placings) ==> m.volume in After(start, placings).volumes
  {
    if placings != [] {
      MountsAreVolumes(start, placings[..|placings| - 1]);
    }
  }

  lemma {:induction false} ContainersMountVolumes(stack: Stack, members: seq<string>, c: Container, m: Mount)
    requires forall n :: n in members ==> n in stack.services
    requires c in Containers(stack, members) && m in c.mounts
    ensures m.volume in After(State(map[], map[]), PodPlacings(stack, members)).volumes
  {
    var last := members[|members| - 1];
    var front := members[..|members| - 1];
    var before, more := PodPlacings(stack, front), Placings(stack.setup, last, stack.services[last]);
    OneAfterAnother(State(map[], map[]), before, more);
    MountsAreVolumes(After(State(map[], map[]), before), more);
    if c in Containers(stack, front) {
      ContainersMountVolumes(stack, front, c, m);
    }
  }

  lemma {:induction false} SecretsAreReturned(containers: seq<Container>, c: Container)
    requires c in containers && c.environment.Some?
    ensures c.environment.value in Secrets(containers)
  {
    var last := containers[|containers| - 1];
    if c != last {
      SecretsAreReturned(containers[..|containers| - 1], c);
    }
  }

  /** Within a pod everything is closed, with no hypothesis: its containers' environment Secrets are
      returned, every mount is of a volume, and every volume's claim or file is among the pod's
      objects. */
  lemma PodIsClosed(stack: Stack, name: string)
    requires Proper(stack) && name in stack.services && PodOf(stack, name).Some?
    ensures var pod := PodOf(stack, name).value;
      && (forall c :: c in pod.containers && c.environment.Some? ==> c.environment.value in pod.secrets)
      && (forall c, m :: c in pod.containers && m in c.mounts ==> m.volume in pod.volumes)
      && Backed(State(pod.volumes, pod.objects))
  {
    JoiningAreNames(stack, name, stack.names);
    var pod, members := PodOf(stack, name).value, Members(stack, name);
    forall c | c in pod.containers && c.environment.Some? ensures c.environment.value in pod.secrets {
      SecretsAreReturned(pod.containers, c);
    }
    forall c, m | c in pod.containers && m in c.mounts ensures m.volume in pod.volumes {
      ContainersMountVolumes(stack, members, c, m);
    }
    PodPlacingsFit(stack, members);
    PlacingKeepsBacked(State(map[], map[]), PodPlacings(stack, members));
    assert After(State(map[], map[]), PodPlacings(stack, members)) == State(pod.volumes, pod.objects);
  }

  // --- Across pods -----------------------------------------------------------------

  ghost predicate IsPod(stack: Stack, name: string, pod: Pod) {
    Proper(stack) && name in stack.services && name !in stack.sidecars && PodOf(stack, name) == Some(pod)
  }

  /** The output holds the pod of each service that is no sidecar, and nothing else. */
  lemma {:induction false} OutputHolds(stack: Stack, names: seq<string>)
    requires Proper(stack) && (forall n :: n in names ==> n in stack.services) && PodsOf(stack, names).Some?
    ensures var out := PodsOf(stack, names).value;
      && (forall p :: p in out.pods ==> p.name in names && IsPod(stack, p.name, p))
      && (forall n :: n in names && n !in stack.sidecars ==> PodOf(stack, n).Some? && PodOf(stack, n).value in out.pods)
  {
    if names != [] {
      OutputHolds(stack, names[..|names| - 1]);
    }
  }

  /** What a pod mounts is shared, as some pod mounts it. */
  lemma {:induction false} SharedIsSomePods(stack: Stack, names: seq<string>, p: Pod, k: Key) returns (q: Pod)
    requires Proper(stack) && (forall n :: n in names ==> n in stack.services) && PodsOf(stack, names).Some?
    requires p in PodsOf(stack, names).value.pods && k in p.objects
    ensures k in PodsOf(stack, names).value.shared && q in PodsOf(stack, names).value.pods
    ensures k in q.objects && q.objects[k] == PodsOf(stack, names).value.shared[k]
  {
    var front, last := names[..|names| - 1], names[|names| - 1];
    if last in stack.sidecars {
      q := SharedIsSomePods(stack, front, p, k);
    } else {
      var pod := PodOf(stack, last).value;
      if k in pod.objects {
        q := pod;
      } else {
        q := SharedIsSomePods(stack, front, p, k);
      }
    }
  }

  // Two pods that mount a file under one name mount the same: same kind, same hash.
  ghost predicate FilesAgree(out: Output) {
    forall p, q, base :: p in out.pods && q in out.pods && File(base) in p.objects && File(base) in q.objects ==>
      p.objects[File(base)] == q.objects[File(base)]
  }

  ghost predicate ClaimsClosed(out: Output) {
    forall p, v :: p in out.pods && v in p.volumes && p.volumes[v].Claim? ==>
      Pvc(p.volumes[v].name) in out.shared && out.shared[Pvc(p.volumes[v].name)] == ClaimObject(p.volumes[v].name)
  }

  // The file object the volume names is there, under the volume's own name.
  predicate Resolves(shared: map<Key, Object>, v: string, file: Volume)
    requires file.FileRef?
  {
    File(v) in shared && shared[File(v)] == FileObject(file.kind, file.name)
  }

  ghost predicate FilesClosed(out: Output) {
    forall p, v :: p in out.pods && v in p.volumes && p.volumes[v].FileRef? ==> Resolves(out.shared, v, p.volumes[v])
  }

  lemma PodsAreBacked(stack: Stack, p: Pod)
    requires Proper(stack) && PodsOf(stack, stack.names).Some? && p in PodsOf(stack, stack.names).value.pods
    ensures Backed(State(p.volumes, p.objects))
  {
    OutputHolds(stack, stack.names);
    PodIsClosed(stack, p.name);
  }

  /** A claim is its name's, whichever pod mounts it. */
  lemma ClaimsAreClosed(stack: Stack)
    requires Proper(stack) && PodsOf(stack, stack.names).Some?
    ensures ClaimsClosed(PodsOf(stack, stack.names).value)
  {
    var out := PodsOf(stack, stack.names).value;
    forall p, v | p in out.pods && v in p.volumes && p.volumes[v].Claim?
      ensures Pvc(p.volumes[v].name) in out.shared && out.shared[Pvc(p.volumes[v].name)] == ClaimObject(p.volumes[v].name)
    {
      PodsAreBacked(stack, p);
      var k := Pvc(State(p.volumes, p.objects).volumes[v].name);
      assert k in p.objects;
      var q := SharedIsSomePods(stack, stack.names, p, k);
      PodsAreBacked(stack, q);
      assert Own(k, State(q.volumes, q.objects).objects[k]);
    }
  }

  // The service mounts a named volume that is no pod's own, under this name.
  ghost predicate NamesVolume(setup: Setup, service: Service, n: string) {
    exists e :: e in service.volumes && e.Named? && e.source !in setup.podLocal && setup.dns(e.source) == n
  }

  ghost predicate PlacesKey(placings: seq<Placing>, k: Key) {
    exists p :: p in placings && p.Placed? && p.behind.Some? && p.behind.value.0 == k
  }

  lemma {:induction false} KeyWasPlaced(start: State, placings: seq<Placing>, k: Key)
    ensures k in After(start, placings).objects <==> k in start.objects || PlacesKey(placings, k)
  {
    if placings != [] {
      var front, last := placings[..|placings| - 1], placings[|placings| - 1];
      KeyWasPlaced(start, front, k);
      assert placings == front + [last];
    }
  }

  lemma VolumesPlace(setup: Setup, service: Service, n: string)
    ensures PlacesKey(OfVolumes(setup, service.volumes), Pvc(n)) <==> NamesVolume(setup, service, n)
  {
    var placings := OfVolumes(setup, service.volumes);
    if NamesVolume(setup, service, n) {
      var e :| e in service.volumes && e.Named? && e.source !in setup.podLocal && setup.dns(e.source) == n;
      var i :| 0 <= i < |service.volumes| && service.volumes[i] == e;
      assert placings[i] == EntryPlacing(setup, e) && placings[i] in placings;
    }
    if PlacesKey(placings, Pvc(n)) {
      var p :| p in placings && p.Placed? && p.behind.Some? && p.behind.value.0 == Pvc(n);
      var i :| 0 <= i < |placings| && placings[i] == p;
      assert service.volumes[i] in service.volumes;
    }
  }

  lemma PlacesEither(a: seq<Placing>, b: seq<Placing>, k: Key)
    ensures PlacesKey(a + b, k) <==> PlacesKey(a, k) || PlacesKey(b, k)
  {
    assert forall p :: p in a + b <==> p in a || p in b;
  }

  lemma ClaimIsPlacedIff(setup: Setup, name: string, service: Service, n: string)
    ensures PlacesKey(Placings(setup, name, service), Pvc(n)) <==> NamesVolume(setup, service, n)
  {
    var a, b := OfVolumes(setup, service.volumes), OfDeclared(setup, name, ConfigMap, service.configs);
    var c, d := OfDeclared(setup, name, Secret, service.secrets), OfMemory(setup, service.tmpfs, service.shm);
    PlacesEither(a + b + c, d, Pvc(n));
    PlacesEither(a + b, c, Pvc(n));
    PlacesEither(a, b, Pvc(n));
    VolumesPlace(setup, service, n);
  }

  lemma {:induction false} MembersPlace(stack: Stack, members: seq<string>, k: Key)
    requires forall m :: m in members ==> m in stack.services
    ensures PlacesKey(PodPlacings(stack, members), k) <==>
      exists m :: m in members && PlacesKey(Placings(stack.setup, m, stack.services[m]), k)
  {
    if members != [] {
      var front, last := members[..|members| - 1], members[|members| - 1];
      MembersPlace(stack, front, k);
      assert members == front + [last];
    }
  }

  /** A pod's claims are exactly the named volumes its services mount, but those every pod has to
      itself. */
  lemma PodClaimsIff(stack: Stack, name: string, n: string)
    requires Proper(stack) && name in stack.services && PodOf(stack, name).Some?
    ensures (forall m :: m in Members(stack, name) ==> m in stack.services) &&
      (Pvc(n) in PodOf(stack, name).value.objects <==>
        exists m :: m in Members(stack, name) && NamesVolume(stack.setup, stack.services[m], n))
  {
    JoiningAreNames(stack, name, stack.names);
    var members := Members(stack, name);
    KeyWasPlaced(State(map[], map[]), PodPlacings(stack, members), Pvc(n));
    MembersPlace(stack, members, Pvc(n));
    forall m | m in members
      ensures PlacesKey(Placings(stack.setup, m, stack.services[m]), Pvc(n)) <==> NamesVolume(stack.setup, stack.services[m], n)
    {
      ClaimIsPlacedIff(stack.setup, m, stack.services[m], n);
    }
  }

  lemma FileIsThePods(stack: Stack, p: Pod, v: string)
    requires Proper(stack) && PodsOf(stack, stack.names).Some? && p in PodsOf(stack, stack.names).value.pods
    requires v in p.volumes && p.volumes[v].FileRef?
    ensures File(v) in p.objects && p.objects[File(v)] == FileObject(p.volumes[v].kind, p.volumes[v].name)
  {
    PodsAreBacked(stack, p);
    assert v in State(p.volumes, p.objects).volumes;
  }

  /** Agreeing files are enough. */
  lemma AgreeingFilesAreClosed(stack: Stack)
    requires Proper(stack) && PodsOf(stack, stack.names).Some? && FilesAgree(PodsOf(stack, stack.names).value)
    ensures FilesClosed(PodsOf(stack, stack.names).value)
  {
    var out := PodsOf(stack, stack.names).value;
    forall p, v | p in out.pods && v in p.volumes && p.volumes[v].FileRef?
      ensures Resolves(out.shared, v, p.volumes[v])
    {
      FileIsThePods(stack, p, v);
      var q := SharedIsSomePods(stack, stack.names, p, File(v));
    }
  }

  // --- Exactly when files are closed ---------------------------------------------------

  // What the last entry mounted under this name is: the pod's volume.
  function LastUnder(placings: seq<Placing>, v: string): Option<Volume> {
    if placings == [] then None else
    var last := placings[|placings| - 1];
    if last.Placed? && last.mount.volume == v then Some(last.volume) else LastUnder(placings[..|placings| - 1], v)
  }

  // The last file mounted under this name: the object the pod brings.
  function LastFile(placings: seq<Placing>, v: string): Option<Volume> {
    if placings == [] then None else
    var last := placings[|placings| - 1];
    if last.Placed? && last.mount.volume == v && last.volume.FileRef? then Some(last.volume)
    else LastFile(placings[..|placings| - 1], v)
  }

  function ObjectOf(file: Option<Volume>): Option<Object> {
    if file.Some? && file.value.FileRef? then Some(FileObject(file.value.kind, file.value.name)) else None
  }

  function At<K, V>(m: map<K, V>, k: K): Option<V> { if k in m then Some(m[k]) else None }

  lemma {:induction false} PlacedIsLast(placings: seq<Placing>, v: string)
    requires forall p :: p in placings ==> Fits(p)
    ensures
      var state := After(State(map[], map[]), placings);
      At(state.volumes, v) == LastUnder(placings, v) && At(state.objects, File(v)) == ObjectOf(LastFile(placings, v))
    ensures LastFile(placings, v).Some? ==> LastFile(placings, v).value.FileRef?
  {
    if placings != [] {
      PlacedIsLast(placings[..|placings| - 1], v);
      assert Fits(placings[|placings| - 1]);
    }
  }

  lemma {:induction false} FileIsItsOwnLast(placings: seq<Placing>, v: string)
    requires LastUnder(placings, v).Some? && LastUnder(placings, v).value.FileRef?
    ensures LastFile(placings, v) == LastUnder(placings, v)
  {
    var last := placings[|placings| - 1];
    if !(last.Placed? && last.mount.volume == v) { FileIsItsOwnLast(placings[..|placings| - 1], v); }
  }

  // Everything a pod's services mount, in order.
  ghost function Mounted(stack: Stack, name: string): seq<Placing>
    requires Proper(stack) && name in stack.services
  {
    JoiningAreNames(stack, name, stack.names);
    PodPlacings(stack, Members(stack, name))
  }

  // The last file mounted under this name by the last pod that mounts one there.
  ghost function StackFile(stack: Stack, names: seq<string>, v: string): Option<Volume>
    requires Proper(stack) && forall n :: n in names ==> n in stack.services
  {
    if names == [] then None else
    var last := names[|names| - 1];
    if last !in stack.sidecars && LastFile(Mounted(stack, last), v).Some? then LastFile(Mounted(stack, last), v)
    else StackFile(stack, names[..|names| - 1], v)
  }

  lemma PodHasLast(stack: Stack, name: string, v: string)
    requires Proper(stack) && name in stack.services && PodOf(stack, name).Some?
    ensures
      var pod := PodOf(stack, name).value;
      && At(pod.volumes, v) == LastUnder(Mounted(stack, name), v)
      && At(pod.objects, File(v)) == ObjectOf(LastFile(Mounted(stack, name), v))
    ensures LastFile(Mounted(stack, name), v).Some? ==> LastFile(Mounted(stack, name), v).value.FileRef?
  {
    JoiningAreNames(stack, name, stack.names);
    PodPlacingsFit(stack, Members(stack, name));
    PlacedIsLast(Mounted(stack, name), v);
  }

  lemma {:induction false} LastUnderIsPlaced(placings: seq<Placing>, v: string)
    ensures LastUnder(placings, v).Some? ==>
      exists p :: p in placings && p.Placed? && p.mount.volume == v && p.volume == LastUnder(placings, v).value
    ensures LastUnder(placings, v).None? ==> forall p :: p in placings && p.Placed? ==> p.mount.volume != v
  {
    if placings != [] {
      LastUnderIsPlaced(placings[..|placings| - 1], v);
      assert placings == placings[..|placings| - 1] + [placings[|placings| - 1]];
    }
  }

  // The entry's mount shows what the entry names.
  predicate ShowsItsOwn(pod: Pod, p: Placing)
    requires p.Placed?
  {
    At(pod.volumes, p.mount.volume) == Some(p.volume)
  }

  // Entries mounted under one name in a pod are of one volume, and files one file read one way.
  ghost predicate OneVolumeEach(placings: seq<Placing>) {
    forall p, q :: p in placings && q in placings && p.Placed? && q.Placed? && p.mount.volume == q.mount.volume ==>
      p.volume == q.volume
  }

  /** A volume is a pod's by name alone, and a later entry takes the name over: every mount of a pod
      shows what its own entry names exactly when entries mounted under one name are of one volume. */
  lemma MountsShowTheirOwnIff(stack: Stack, name: string)
    requires Proper(stack) && name in stack.services && PodOf(stack, name).Some?
    ensures (forall p :: p in Mounted(stack, name) && p.Placed? ==> ShowsItsOwn(PodOf(stack, name).value, p))
      <==> OneVolumeEach(Mounted(stack, name))
  {
    forall p | p in Mounted(stack, name) && p.Placed?
      ensures ShowsItsOwn(PodOf(stack, name).value, p) <==>
        LastUnder(Mounted(stack, name), p.mount.volume) == Some(p.volume)
      ensures exists q ::
        && q in Mounted(stack, name) && q.Placed? && q.mount.volume == p.mount.volume
        && LastUnder(Mounted(stack, name), p.mount.volume) == Some(q.volume)
    {
      PodHasLast(stack, name, p.mount.volume);
      LastUnderIsPlaced(Mounted(stack, name), p.mount.volume);
    }
  }

  /** Two files of one base name in different directories, of different text, are such entries. */
  lemma SameBaseNameIsShared(setup: Setup, a: string, b: string, target: string, other: string)
    requires forall path :: path in {a, b} ==>
      && path !in setup.dockerHost && setup.relative(path).Some? && setup.relative(path).value !in setup.baked
      && setup.isFile(path) && !setup.isSecret(setup.relative(path).value)
    requires setup.basename(a) == setup.basename(b)
    requires setup.digest(setup.basename(a), setup.text(a)) != setup.digest(setup.basename(b), setup.text(b))
    ensures !OneVolumeEach(OfVolumes(setup, [Bind(a, target), Bind(b, other)]))
  {
    var placings := OfVolumes(setup, [Bind(a, target), Bind(b, other)]);
    var p, q := placings[0], placings[1];
    assert a in {a, b} && b in {a, b};
    assert p in placings && q in placings && p.mount.volume == q.mount.volume;
    var base, key := setup.dns("cfg-" + setup.basename(a)), setup.basename(a);
    assert p.volume.name == base + "-" + setup.digest(key, setup.text(a));
    assert p.volume.name[|base| + 1..] == setup.digest(key, setup.text(a));
    assert q.volume.name == base + "-" + setup.digest(key, setup.text(b));
    assert q.volume.name[|base| + 1..] == setup.digest(key, setup.text(b));
  }

  lemma {:induction false} SharedIsStackFile(stack: Stack, names: seq<string>, v: string)
    requires Proper(stack) && (forall n :: n in names ==> n in stack.services) && PodsOf(stack, names).Some?
    ensures At(PodsOf(stack, names).value.shared, File(v)) == ObjectOf(StackFile(stack, names, v))
    ensures StackFile(stack, names, v).Some? ==> StackFile(stack, names, v).value.FileRef?
  {
    if names != [] {
      var last := names[|names| - 1];
      SharedIsStackFile(stack, names[..|names| - 1], v);
      if last !in stack.sidecars { PodHasLast(stack, last, v); }
    }
  }

  // Whatever file a pod shows under a name is the stack's under that name.
  ghost predicate FilesShownAreShared(stack: Stack)
    requires Proper(stack)
  {
    forall n, v :: n in stack.services && n !in stack.sidecars && ShowsFile(stack, n, v) ==>
      LastUnder(Mounted(stack, n), v) == StackFile(stack, stack.names, v)
  }

  ghost predicate ShowsFile(stack: Stack, name: string, v: string)
    requires Proper(stack) && name in stack.services
  {
    LastUnder(Mounted(stack, name), v).Some? && LastUnder(Mounted(stack, name), v).value.FileRef?
  }

  lemma FileIsSharedIff(stack: Stack, name: string, v: string)
    requires Proper(stack) && PodsOf(stack, stack.names).Some? && name in stack.services && PodOf(stack, name).Some?
    ensures
      var out, pod := PodsOf(stack, stack.names).value, PodOf(stack, name).value;
      && (v in pod.volumes && pod.volumes[v].FileRef? <==> ShowsFile(stack, name, v))
      && (ShowsFile(stack, name, v) ==>
        (Resolves(out.shared, v, pod.volumes[v]) <==>
          LastUnder(Mounted(stack, name), v) == StackFile(stack, stack.names, v)))
  {
    PodHasLast(stack, name, v);
    if ShowsFile(stack, name, v) {
      FileIsItsOwnLast(Mounted(stack, name), v);
      SharedIsStackFile(stack, stack.names, v);
    }
  }

  lemma ClosedFilesAreShared(stack: Stack)
    requires Proper(stack) && PodsOf(stack, stack.names).Some? && FilesClosed(PodsOf(stack, stack.names).value)
    ensures FilesShownAreShared(stack)
  {
    OutputHolds(stack, stack.names);
    forall n, v | n in stack.services && n !in stack.sidecars && ShowsFile(stack, n, v)
      ensures LastUnder(Mounted(stack, n), v) == StackFile(stack, stack.names, v)
    {
      assert PodOf(stack, n).value in PodsOf(stack, stack.names).value.pods;
      FileIsSharedIff(stack, n, v);
    }
  }

  lemma SharedFilesAreClosed(stack: Stack)
    requires Proper(stack) && PodsOf(stack, stack.names).Some? && FilesShownAreShared(stack)
    ensures FilesClosed(PodsOf(stack, stack.names).value)
  {
    var out := PodsOf(stack, stack.names).value;
    OutputHolds(stack, stack.names);
    forall p, v | p in out.pods && v in p.volumes && p.volumes[v].FileRef?
      ensures Resolves(out.shared, v, p.volumes[v])
    {
      assert IsPod(stack, p.name, p);
      FileIsSharedIff(stack, p.name, v);
    }
  }

  /** Files are keyed by name alone. The output is closed for them exactly when, under every name, each
      pod whose last mount there is a file mounts the very file that the last pod with one there does. */
  lemma FilesAreClosedIff(stack: Stack)
    requires Proper(stack) && PodsOf(stack, stack.names).Some?
    ensures FilesClosed(PodsOf(stack, stack.names).value) <==> FilesShownAreShared(stack)
  {
    if FilesClosed(PodsOf(stack, stack.names).value) { ClosedFilesAreShared(stack); }
    if FilesShownAreShared(stack) { SharedFilesAreClosed(stack); }
  }

  // What a pod places, over its members.
  ghost predicate Places(stack: Stack, name: string, placing: Placing)
    requires Proper(stack)
  {
    && name in stack.services
    && (forall m :: m in Members(stack, name) ==> m in stack.services)
    && placing in PodPlacings(stack, Members(stack, name))
  }

  // Files mounted under one name, anywhere in the stack, are one file read one way.
  ghost predicate FilesNamedApart(stack: Stack)
    requires Proper(stack)
  {
    forall m, n, p, q :: Places(stack, m, p) && Places(stack, n, q) && SameFileName(p, q) ==> p.volume == q.volume
  }

  predicate SameFileName(p: Placing, q: Placing) {
    p.Placed? && q.Placed? && p.volume.FileRef? && q.volume.FileRef? && p.mount.volume == q.mount.volume
  }

  lemma {:induction false} ObjectWasPlaced(placings: seq<Placing>, base: string) returns (p: Placing)
    requires forall p :: p in placings ==> Fits(p)
    requires File(base) in After(State(map[], map[]), placings).objects
    ensures p in placings && p.Placed? && p.volume.FileRef? && p.mount.volume == base
    ensures After(State(map[], map[]), placings).objects[File(base)] == FileObject(p.volume.kind, p.volume.name)
  {
    var last := placings[|placings| - 1];
    assert Fits(last);
    if last.Placed? && last.behind.Some? && last.behind.value.0 == File(base) {
      p := last;
    } else {
      p := ObjectWasPlaced(placings[..|placings| - 1], base);
    }
  }

  /** The hypothesis on the compose model under which every file reference is closed. */
  lemma FilesNamedApartAreClosed(stack: Stack)
    requires Proper(stack) && PodsOf(stack, stack.names).Some? && FilesNamedApart(stack)
    ensures FilesClosed(PodsOf(stack, stack.names).value)
  {
    var out := PodsOf(stack, stack.names).value;
    forall p, q, base | p in out.pods && q in out.pods && File(base) in p.objects && File(base) in q.objects
      ensures p.objects[File(base)] == q.objects[File(base)]
    {
      var a := PodPlacedFile(stack, p, base);
      var b := PodPlacedFile(stack, q, base);
      assert Places(stack, p.name, a) && Places(stack, q.name, b);
    }
    AgreeingFilesAreClosed(stack);
  }

  lemma PodPlacedFile(stack: Stack, pod: Pod, base: string) returns (p: Placing)
    requires Proper(stack) && PodsOf(stack, stack.names).Some? && pod in PodsOf(stack, stack.names).value.pods
    requires File(base) in pod.objects
    ensures Places(stack, pod.name, p) && p.Placed? && p.volume.FileRef? && p.mount.volume == base
    ensures pod.objects[File(base)] == FileObject(p.volume.kind, p.volume.name)
  {
    OutputHolds(stack, stack.names);
    assert IsPod(stack, pod.name, pod);
    JoiningAreNames(stack, pod.name, stack.names);
    PodPlacingsFit(stack, Members(stack, pod.name));
    p := ObjectWasPlaced(PodPlacings(stack, Members(stack, pod.name)), base);
  }

  // --- Routes and calls --------------------------------------------------------------

  // Some pod's Service answers under this name on this port.
  ghost predicate Served(stack: Stack, out: Output, host: string, port: nat) {
    exists p :: p in out.pods && stack.setup.dns(p.name) == host && port in p.ports
  }

  lemma {:induction false} IndexOneHolds(index: map<string, (string, nat)>, owner: string, backends: seq<(string, nat)>, b: string)
    ensures b in IndexOne(index, owner, backends) ==>
      (IndexOne(index, owner, backends)[b].0 == owner && (b, IndexOne(index, owner, backends)[b].1) in backends) ||
      (b in index && index[b] == IndexOne(index, owner, backends)[b])
  {
    if backends != [] {
      IndexOneHolds(index, owner, backends[..|backends| - 1], b);
    }
  }

  /** A Traefik service name stands for a container that defines it, on the port it gives. */
  lemma {:induction false} IndexHolds(services: map<string, Service>, order: seq<string>, b: string)
    requires forall n :: n in order ==> n in services
    requires b in BackendIndex(services, order)
    ensures var (owner, port) := BackendIndex(services, order)[b];
      owner in order && (b, port) in services[owner].backends
  {
    var front, last := order[..|order| - 1], order[|order| - 1];
    IndexOneHolds(BackendIndex(services, front), last, services[last].backends, b);
    if b in BackendIndex(services, front) && BackendIndex(services, order)[b] == BackendIndex(services, front)[b] {
      IndexHolds(services, front, b);
    }
  }

  ghost predicate OneNameEach(stack: Stack) {
    forall m, n :: m in stack.services && n in stack.services && stack.setup.dns(m) == stack.setup.dns(n) ==> m == n
  }

  lemma RouteHasOwner(stack: Stack, name: string, i: nat)
    requires Proper(stack) && name in stack.services && i < |stack.services[name].routers|
    requires var t := Routes(stack.services[name], BackendIndex(stack.services, stack.order))[i]; t.Some? && t.value.To?
    ensures var t := Routes(stack.services[name], BackendIndex(stack.services, stack.order))[i].value;
      t.service in stack.services && t.port in Ports(stack.services[t.service])
  {
    var service, index := stack.services[name], BackendIndex(stack.services, stack.order);
    var router := service.routers[i];
    var chosen := if router.service.None? && |service.backends| == 1 then Some(service.backends[0].0) else router.service;
    var wanted := RemoveSuffix(if chosen.Some? then chosen.value else "", "@docker");
    assert Routes(service, index)[i] == Some(To(index[wanted].0, index[wanted].1));
    IndexHolds(stack.services, stack.order, wanted);
    assert (wanted, index[wanted].1).1 in Ports(stack.services[index[wanted].0]);
  }

  /** Every route's backend is a Service of the output, on a port it has, exactly when its owner is
      no sidecar: a sidecar's labels are read, but no Service is made of them. */
  lemma RoutesAreServedIff(stack: Stack, name: string, i: nat)
    requires Proper(stack) && OneNameEach(stack) && PodsOf(stack, stack.names).Some?
    requires name in stack.services && i < |stack.services[name].routers|
    requires var t := Routes(stack.services[name], BackendIndex(stack.services, stack.order))[i]; t.Some? && t.value.To?
    ensures var t := Routes(stack.services[name], BackendIndex(stack.services, stack.order))[i].value;
      Served(stack, PodsOf(stack, stack.names).value, stack.setup.dns(t.service), t.port) <==>
        t.service !in stack.sidecars
  {
    var t := Routes(stack.services[name], BackendIndex(stack.services, stack.order))[i].value;
    RouteHasOwner(stack, name, i);
    ServedIff(stack, t.service, t.port);
  }

  lemma ServedIff(stack: Stack, host: string, port: nat)
    requires Proper(stack) && OneNameEach(stack) && PodsOf(stack, stack.names).Some?
    requires host in stack.services && port in Ports(stack.services[host])
    ensures Served(stack, PodsOf(stack, stack.names).value, stack.setup.dns(host), port) <==> host !in stack.sidecars
  {
    var out := PodsOf(stack, stack.names).value;
    OutputHolds(stack, stack.names);
    if host !in stack.sidecars {
      var pod := PodOf(stack, host).value;
      assert pod in out.pods && pod.name == host && port in pod.ports;
    }
  }

  lemma {:induction false} CallIsListed(stack: Stack, names: seq<string>, caller: string, call: Call)
    requires forall n :: n in names ==> n in stack.services
    requires caller in names && call in stack.services[caller].calls
    ensures (caller, call) in CallsOf(stack, names)
  {
    var last := names[|names| - 1];
    if caller == last {
      var i :| 0 <= i < |stack.services[last].calls| && stack.services[last].calls[i] == call;
      assert CallsOf(stack, names)[|CallsOf(stack, names[..|names| - 1])| + i] == (caller, call);
    } else {
      CallIsListed(stack, names[..|names| - 1], caller, call);
    }
  }

  /** In a stack render accepts, a service that another calls has a Service with the port named, or,
      when none is named, with each port it exposes and at least one: exactly when it is no sidecar. */
  lemma CallsAreAnsweredIff(stack: Stack, caller: string, call: Call, port: nat)
    requires Proper(stack) && OneNameEach(stack) && PodsOf(stack, stack.names).Some?
    requires CallsAccepted(stack)
    requires caller in stack.services && call in stack.services[caller].calls
    requires call.host in stack.services && call.host != caller
    ensures stack.services[call.host].expose != {}
    ensures (if call.port.Some? then port == call.port.value else port in stack.services[call.host].expose) ==>
      (Served(stack, PodsOf(stack, stack.names).value, stack.setup.dns(call.host), port) <==>
        call.host !in stack.sidecars)
  {
    CallIsListed(stack, stack.order, caller, call);
    assert (caller, call) in AllCalls(stack);
    if (if call.port.Some? then port == call.port.value else port in stack.services[call.host].expose) {
      ServedIff(stack, call.host, port);
    }
  }

  // --- Where the hypotheses are needed -------------------------------------------------

  function Bare(): Service { Service([], [], [], [], false, map[], [], {}, [], []) }

  // Every name its own, a text its own digest; the configs of one service are rewritten for it.
  function Anywhere(special: string): Setup {
    Setup(n => n, (key, text) => text, e => "", p => Some(p), p => true, p => false, p => p, p => "",
          (service, target, text) => if service == special then "!" + text else text,
          (kind, source) => Some(source), {}, {}, {})
  }

  // A database whose router names a port that its sidecar's labels define.
  function SidecarStack(): Stack {
    var db, pg := Bare().(routers := [Router("r", Some("metrics"))]), Bare().(backends := [("metrics", 9187)]);
    Stack(Anywhere(""), map["db" := db, "pg" := pg], ["db", "pg"], ["db", "pg"], map["pg" := "db"], [], None)
  }

  lemma IndexOfOne(services: map<string, Service>, order: seq<string>, last: string, b: string, port: nat)
    requires (forall n :: n in order ==> n in services) && last in services && services[last].backends == [(b, port)]
    ensures b in BackendIndex(services, order + [last]) && BackendIndex(services, order + [last])[b] == (last, port)
  {
    var next := order + [last];
    assert next[..|next| - 1] == order;
    assert [(b, port)][..0] == [];
  }

  lemma SidecarRoute()
    ensures var stack := SidecarStack();
      Proper(stack) && Routes(stack.services["db"], BackendIndex(stack.services, stack.order)) == [Some(To("pg", 9187))]
  {
    var stack := SidecarStack();
    IndexOfOne(stack.services, ["db"], "pg", "metrics", 9187);
    assert ["db"] + ["pg"] == stack.order;
    RouteByName(Router("r", Some("metrics")), stack.services["db"], BackendIndex(stack.services, stack.order));
  }

  lemma RouteByName(router: Router, service: Service, index: map<string, (string, nat)>)
    requires router.service == Some("metrics") && "metrics" in index
    ensures Backend(router, service, index) == Some(To(index["metrics"].0, index["metrics"].1))
  {
    assert !EndsWith("metrics", "@internal") && "metrics"[0] != '@';
    assert RemoveSuffix("metrics", "@docker") == "metrics" by {
      assert "metrics"[|"metrics"| - |"@docker"|..] == "metrics";
    }
  }

  lemma {:induction false} BareStackRenders(stack: Stack, names: seq<string>)
    requires Proper(stack) && forall n :: n in names ==> n in stack.services
    requires forall n :: n in stack.services ==> Placings(stack.setup, n, stack.services[n]) == []
    requires forall n :: n in names && n !in stack.sidecars ==>
      None !in Routes(stack.services[n], BackendIndex(stack.services, stack.order))
    ensures PodsOf(stack, names).Some?
  {
    if names != [] {
      var last := names[|names| - 1];
      BareStackRenders(stack, names[..|names| - 1]);
      if last !in stack.sidecars {
        NothingMounted(stack, last);
      }
    }
  }

  lemma NothingToMount(setup: Setup, name: string, service: Service)
    requires service.volumes == [] && service.configs == [] && service.secrets == [] && service.tmpfs == [] && !service.shm
    ensures Placings(setup, name, service) == []
  {
  }

  lemma NoCallsAccepted(stack: Stack)
    requires Proper(stack) && stack.auth == [] && forall n :: n in stack.services ==> stack.services[n].calls == []
    ensures CallsAccepted(stack)
  {
    NoCalls(stack, stack.order);
  }

  lemma SidecarStackIsBare()
    ensures var stack := SidecarStack();
      forall n :: n in stack.services ==> Placings(stack.setup, n, stack.services[n]) == []
  {
    var stack := SidecarStack();
    NothingToMount(stack.setup, "db", stack.services["db"]);
    NothingToMount(stack.setup, "pg", stack.services["pg"]);
  }

  lemma SidecarStackRenders()
    ensures var stack := SidecarStack();
      Proper(stack) && CallsAccepted(stack) && PodsOf(stack, stack.names).Some?
  {
    var stack := SidecarStack();
    SidecarRoute();
    SidecarStackIsBare();
    BareStackRenders(stack, stack.names);
    NoCallsAccepted(stack);
  }

  /** A route to a port its pod's sidecar defines: accepted, and no Service answers it. */
  lemma SidecarsRouteIsNotServed()
    ensures var stack := SidecarStack();
      && Proper(stack) && CallsAccepted(stack) && PodsOf(stack, stack.names).Some?
      && Routes(stack.services["db"], BackendIndex(stack.services, stack.order)) == [Some(To("pg", 9187))]
      && !Served(stack, PodsOf(stack, stack.names).value, "pg", 9187)
  {
    SidecarRoute();
    SidecarStackRenders();
    var stack := SidecarStack();
    assert ("metrics", 9187) in stack.services["pg"].backends;
    assert ("metrics", 9187).1 in Ports(stack.services["pg"]);
    ServedIff(stack, "pg", 9187);
  }

  lemma {:induction false} NoCalls(stack: Stack, names: seq<string>)
    requires forall n :: n in names ==> n in stack.services && stack.services[n].calls == []
    ensures CallsOf(stack, names) == []
  {
    if names != [] {
      NoCalls(stack, names[..|names| - 1]);
    }
  }

  lemma NothingMounted(stack: Stack, name: string)
    requires Proper(stack) && name in stack.services
    requires forall n :: n in stack.services ==> Placings(stack.setup, n, stack.services[n]) == []
    ensures (forall m :: m in Members(stack, name) ==> m in stack.services) && PodPlacings(stack, Members(stack, name)) == []
  {
    JoiningAreNames(stack, name, stack.names);
    NoPlacings(stack, Members(stack, name));
  }

  lemma {:induction false} NoPlacings(stack: Stack, members: seq<string>)
    requires forall m :: m in members ==> m in stack.services && Placings(stack.setup, m, stack.services[m]) == []
    ensures PodPlacings(stack, members) == []
  {
    if members != [] {
      NoPlacings(stack, members[..|members| - 1]);
    }
  }

  // Two services that mount one config, which is rewritten for one of them.
  function RewrittenStack(): Stack {
    var service := Bare().(configs := [Declared("f", "/f")]);
    Stack(Anywhere("a"), map["a" := service, "b" := service], ["a", "b"], ["a", "b"], map[], [], None)
  }

  function RewrittenName(n: string): string { if n == "a" then "cfg-f-!" else "cfg-f-" }

  lemma {:induction false} JoinsNone(stack: Stack, name: string, names: seq<string>)
    requires stack.sidecars == map[]
    ensures Joining(stack, name, names) == []
  {
    if names != [] {
      JoinsNone(stack, name, names[..|names| - 1]);
    }
  }

  lemma RewrittenPlacing(n: string)
    requires n in RewrittenStack().services
    ensures Placings(RewrittenStack().setup, n, RewrittenStack().services[n]) ==
      [Placed(Mount("cfg-f", "/f"), FileRef(ConfigMap, RewrittenName(n)),
              Some((File("cfg-f"), FileObject(ConfigMap, RewrittenName(n)))))]
  {
    var setup := RewrittenStack().setup;
    assert "cfg-" + "f" == "cfg-f" && "!" + "" == "!";
    assert "cfg-f" + "-" + "!" == "cfg-f-!" && "cfg-f" + "-" + "" == "cfg-f-";
    assert DeclaredPlacing(setup, n, ConfigMap, Declared("f", "/f")) ==
      FilePlacing(setup, ConfigMap, "cfg-f", "/f", "/f", if n == "a" then "!" else "");
  }

  lemma RewrittenPlacings(n: string)
    requires n in RewrittenStack().services
    ensures Members(RewrittenStack(), n) == [n]
    ensures PodPlacings(RewrittenStack(), [n]) ==
      [Placed(Mount("cfg-f", "/f"), FileRef(ConfigMap, RewrittenName(n)), Some((File("cfg-f"), FileObject(ConfigMap, RewrittenName(n)))))]
  {
    var stack := RewrittenStack();
    JoinsNone(stack, n, stack.names);
    RewrittenPlacing(n);
    assert [n][..0] == [];
  }

  lemma AfterOne(p: Placing, k: Key, o: Object)
    requires p.Placed? && p.behind == Some((k, o))
    ensures After(State(map[], map[]), [p]) == State(map[p.mount.volume := p.volume], map[k := o])
  {
    assert [p][..0] == [];
  }

  lemma RewrittenPod(n: string)
    requires n in RewrittenStack().services
    ensures Proper(RewrittenStack()) && PodOf(RewrittenStack(), n).Some?
    ensures var pod := PodOf(RewrittenStack(), n).value;
      && "cfg-f" in pod.volumes && pod.volumes["cfg-f"] == FileRef(ConfigMap, RewrittenName(n))
      && File("cfg-f") in pod.objects && pod.objects[File("cfg-f")] == FileObject(ConfigMap, RewrittenName(n))
  {
    RewrittenPlacings(n);
    AfterOne(PodPlacings(RewrittenStack(), [n])[0], File("cfg-f"), FileObject(ConfigMap, RewrittenName(n)));
  }

  /** A file two services read differently: one of the two pods names an object that is not there. */
  lemma RewrittenFileIsNotClosed()
    ensures var stack := RewrittenStack();
      Proper(stack) && PodsOf(stack, stack.names).Some? && !FilesClosed(PodsOf(stack, stack.names).value)
  {
    var stack := RewrittenStack();
    RewrittenPod("a");
    RewrittenPod("b");
    RewrittenRenders(stack.names);
    OutputHolds(stack, stack.names);
    var a, b := PodOf(stack, "a").value, PodOf(stack, "b").value;
    assert a in PodsOf(stack, stack.names).value.pods && b in PodsOf(stack, stack.names).value.pods;
    assert |RewrittenName("a")| != |RewrittenName("b")|;
  }

  lemma {:induction false} RewrittenRenders(names: seq<string>)
    requires forall n :: n in names ==> n in RewrittenStack().services
    ensures Proper(RewrittenStack()) && PodsOf(RewrittenStack(), names).Some?
  {
    if names != [] {
      RewrittenRenders(names[..|names| - 1]);
      RewrittenPod(names[|names| - 1]);
    }
  }
}
