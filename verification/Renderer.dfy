/** The compose-to-Kubernetes renderer (tools/k8srender): one pod a service, the volumes its
    containers mount and the objects behind them, the Services and the routes to them. */
module Renderer {
  import opened Wrappers
  import opened Strings

  // --- The compose model -------------------------------------------------------

  datatype Kind = Secret | ConfigMap

  // One `volumes:` entry.
  datatype Entry =
    | Named(source: string, target: string)
    | Anonymous(target: string)
    | Bind(path: string, target: string)
    | Tmpfs(target: string)
    | OtherType(target: string)

  // One `configs:` or `secrets:` entry, its target resolved.
  datatype Declared = Declared(source: string, target: string)

  datatype Router = Router(name: string, service: Option<string>)

  datatype Call = Call(host: string, port: Option<nat>)

  datatype Service = Service(
    volumes: seq<Entry>, configs: seq<Declared>, secrets: seq<Declared>, tmpfs: seq<string>, shm: bool,
    environment: map<string, string>,
    calls: seq<Call>,                       // the `host:port`s its environment values name
    expose: set<nat>,
    routers: seq<Router>,                   // its Traefik labels, read
    backends: seq<(string, nat)>)           // Traefik service name -> port, as its labels list them

  // Names, files and digests: what the renderer asks of its surroundings.
  datatype Setup = Setup(
    dns: string -> string,                  // dns_name
    digest: (string, string) -> string,     // hashed: of a key and its text
    environmentDigest: map<string, string> -> string,
    relative: string -> Option<string>,     // of a path, inside the repository
    isFile: string -> bool,                 // there, or a sealed secret
    isSecret: string -> bool,               // under SECRET_DIR
    basename: string -> string,
    text: string -> string,                 // a file's text, a secret's opened
    rewrite: (string, string, string) -> string,   // a service's config at its target, as it reads it here
    declaredFile: (Kind, string) -> Option<string>,
    podLocal: set<string>, dockerHost: set<string>, baked: set<string>)

  datatype Stack = Stack(
    setup: Setup,
    services: map<string, Service>,
    order: seq<string>,                     // as compose lists them
    names: seq<string>,                     // sorted
    sidecars: map<string, string>,          // sidecar -> the pod it joins
    auth: seq<Call>,                        // the ForwardAuth addresses Traefik calls
    peer: Option<map<string, set<nat>>>)    // what the stack called across namespaces exposes

  ghost predicate Proper(stack: Stack) {
    && (forall n :: n in stack.order <==> n in stack.services)
    && (forall n :: n in stack.names <==> n in stack.services)
  }

  // --- The Kubernetes objects ----------------------------------------------------

  datatype Volume =
    | EmptyDir(memory: bool)
    | HostPath(path: string)
    | Claim(name: string)
    | FileRef(kind: Kind, name: string)

  datatype Key = Pvc(name: string) | File(base: string)

  datatype Object = ClaimObject(name: string) | FileObject(kind: Kind, name: string)

  datatype Mount = Mount(volume: string, path: string)

  // What one entry comes to.
  datatype Placing =
    | Refused
    | Skipped
    | Placed(mount: Mount, volume: Volume, behind: Option<(Key, Object)>)

  function FilePlacing(setup: Setup, kind: Kind, base: string, key: string, target: string, text: string): Placing {
    var name := base + "-" + setup.digest(key, text);
    Placed(Mount(base, target), FileRef(kind, name), Some((File(base), FileObject(kind, name))))
  }

  function MemoryPlacing(name: string, path: string): Placing {
    Placed(Mount(name, path), EmptyDir(true), None)
  }

  /** _mount, _named, _bind, _file */
  function EntryPlacing(setup: Setup, entry: Entry): Placing {
    match entry
    case Anonymous(_) => Refused
    case OtherType(_) => Refused
    case Tmpfs(target) => MemoryPlacing("tmp-" + setup.dns(target), target)
    case Named(source, target) =>
      var name := setup.dns(source);
      if source in setup.podLocal then Placed(Mount(name, target), EmptyDir(false), None)
      else Placed(Mount(name, target), Claim(name), Some((Pvc(name), ClaimObject(name))))
    case Bind(path, target) =>
      var relative := setup.relative(path);
      if path in setup.dockerHost || (relative.Some? && relative.value in setup.baked) then Skipped else
      if relative.None? then
        var dns := setup.dns(path);
        var name := "host-" + if dns == "" then "root" else dns;
        Placed(Mount(name, target), HostPath(path), None)
      else if !setup.isFile(path) then Refused else
      var key, secret := setup.basename(path), setup.isSecret(relative.value);
      FilePlacing(setup, if secret then Secret else ConfigMap,
                  setup.dns((if secret then "secret-" else "cfg-") + key), key, target, setup.text(path))
  }

  /** _declared: a config is what this service reads of it on Kubernetes. */
  function DeclaredPlacing(setup: Setup, service: string, kind: Kind, entry: Declared): Placing {
    var file := setup.declaredFile(kind, entry.source);
    if file.None? then Refused else
    var text := setup.text(file.value);
    FilePlacing(setup, kind, setup.dns((if kind.Secret? then "secret-" else "cfg-") + entry.source),
                setup.basename(entry.target), entry.target,
                if kind.Secret? then text else setup.rewrite(service, entry.target, text))
  }

  function OfVolumes(setup: Setup, entries: seq<Entry>): seq<Placing> {
    seq(|entries|, i requires 0 <= i < |entries| => EntryPlacing(setup, entries[i]))
  }

  function OfDeclared(setup: Setup, name: string, kind: Kind, entries: seq<Declared>): seq<Placing> {
    seq(|entries|, i requires 0 <= i < |entries| => DeclaredPlacing(setup, name, kind, entries[i]))
  }

  function OfMemory(setup: Setup, paths: seq<string>, shm: bool): seq<Placing> {
    seq(|paths|, i requires 0 <= i < |paths| => MemoryPlacing("tmp-" + setup.dns(paths[i]), paths[i])) +
    if shm then [MemoryPlacing("dshm", "/dev/shm")] else []
  }

  // Everything a service mounts, in for_service's order.
  function Placings(setup: Setup, name: string, service: Service): seq<Placing> {
    OfVolumes(setup, service.volumes) + OfDeclared(setup, name, ConfigMap, service.configs) +
    OfDeclared(setup, name, Secret, service.secrets) + OfMemory(setup, service.tmpfs, service.shm)
  }

  // --- A pod's mounts ------------------------------------------------------------

  datatype State = State(volumes: map<string, Volume>, objects: map<Key, Object>)

  // The pod's volumes and objects once these are placed: a later one takes its name over.
  function After(state: State, placings: seq<Placing>): State {
    if placings == [] then state else
    var before, last := After(state, placings[..|placings| - 1]), placings[|placings| - 1];
    if !last.Placed? then before else
    State(before.volumes[last.mount.volume := last.volume],
          if last.behind.Some? then before.objects[last.behind.value.0 := last.behind.value.1] else before.objects)
  }

  function MountsOf(placings: seq<Placing>): seq<Mount> {
    if placings == [] then [] else
    var before, last := MountsOf(placings[..|placings| - 1]), placings[|placings| - 1];
    if last.Placed? then before + [last.mount] else before
  }

  class Mounts {
    const setup: Setup
    var volumes: map<string, Volume>
    var objects: map<Key, Object>

    constructor (setup: Setup)
      ensures this.setup == setup && Now() == State(map[], map[])
    {
      this.setup := setup;
      volumes, objects := map[], map[];
    }

    function Now(): State
      reads this
    {
      State(volumes, objects)
    }

    /** Entries placed one by one, up to one that is refused: the pod's volumes and the objects
        behind them accumulate here. */
    method Place(placings: seq<Placing>) returns (r: Option<seq<Mount>>)
      modifies this`volumes, this`objects
      ensures r == if Refused in placings then None else Some(MountsOf(placings))
      ensures r.Some? ==> Now() == After(old(Now()), placings)
    {
      var mounts := [];
      for i := 0 to |placings|
        invariant Refused !in placings[..i]
        invariant mounts == MountsOf(placings[..i])
        invariant Now() == After(old(Now()), placings[..i])
      {
        var p := placings[i];
        var next := placings[..i + 1];
        assert next[..i] == placings[..i] && next[i] == p;
        match p {
          case Refused => return None;
          case Skipped =>
          case Placed(mount, volume, behind) =>
            volumes := volumes[mount.volume := volume];
            if behind.Some? {
              objects := objects[behind.value.0 := behind.value.1];
            }
            mounts := mounts + [mount];
        }
        assert next == placings[..i] + [p];
      }
      assert placings[..|placings|] == placings;
      r := Some(mounts);
    }

    /** for_service: the container's volumeMounts. */
    method ForService(name: string, service: Service) returns (r: Option<seq<Mount>>)
      modifies this`volumes, this`objects
      ensures r == if Refused in Placings(setup, name, service) then None
                   else Some(MountsOf(Placings(setup, name, service)))
      ensures r.Some? ==> Now() == After(old(Now()), Placings(setup, name, service))
    {
      ghost var start := Now();
      var a, b := OfVolumes(setup, service.volumes), OfDeclared(setup, name, ConfigMap, service.configs);
      var c, d := OfDeclared(setup, name, Secret, service.secrets), OfMemory(setup, service.tmpfs, service.shm);
      var first := Place(a);
      if first.None? { return None; }
      var second := Place(b);
      if second.None? { return None; }
      var third := Place(c);
      if third.None? { return None; }
      var fourth := Place(d);
      if fourth.None? { return None; }
      OneAfterAnother(start, a, b);
      OneAfterAnother(start, a + b, c);
      OneAfterAnother(start, a + b + c, d);
      r := Some(first.value + second.value + third.value + fourth.value);
    }
  }

  lemma {:induction false} OneAfterAnother(start: State, a: seq<Placing>, b: seq<Placing>)
    ensures After(start, a + b) == After(After(start, a), b)
    ensures MountsOf(a + b) == MountsOf(a) + MountsOf(b)
    decreases |b|
  {
    if b == [] {
      assert a + b == a;
    } else {
      assert (a + b)[..|a + b| - 1] == a + b[..|b| - 1];
      OneAfterAnother(start, a, b[..|b| - 1]);
    }
  }

  // --- Services and routes ---------------------------------------------------------

  datatype Target = Internal(name: string) | To(service: string, port: nat)

  function RemoveSuffix(s: string, end: string): string {
    if EndsWith(s, end) then s[..|s| - |end|] else s
  }

  function IndexOne(index: map<string, (string, nat)>, owner: string, backends: seq<(string, nat)>)
    : map<string, (string, nat)>
  {
    if backends == [] then index else
    var before, last := IndexOne(index, owner, backends[..|backends| - 1]), backends[|backends| - 1];
    before[last.0 := (owner, last.1)]
  }

  /** backend_index: a name two containers define is the later one's. */
  function BackendIndex(services: map<string, Service>, order: seq<string>): map<string, (string, nat)>
    requires forall n :: n in order ==> n in services
  {
    if order == [] then map[] else
    var last := order[|order| - 1];
    IndexOne(BackendIndex(services, order[..|order| - 1]), last, services[last].backends)
  }

  /** _backend: a router naming no service uses its container's only one. */
  function Backend(router: Router, service: Service, index: map<string, (string, nat)>): Option<Target> {
    var name := if router.service.None? && |service.backends| == 1 then Some(service.backends[0].0) else router.service;
    if name.Some? && EndsWith(name.value, "@internal") then Some(Internal(name.value)) else
    var wanted := RemoveSuffix(if name.Some? then name.value else "", "@docker");
    if wanted in index then Some(To(index[wanted].0, index[wanted].1)) else None
  }

  function Routes(service: Service, index: map<string, (string, nat)>): seq<Option<Target>> {
    seq(|service.routers|, i requires 0 <= i < |service.routers| => Backend(service.routers[i], service, index))
  }

  // The ports of the ClusterIP Service: `expose:` and those Traefik calls.
  function Ports(service: Service): set<nat> { service.expose + set b | b in service.backends :: b.1 }

  // --- A pod -----------------------------------------------------------------------

  datatype Container = Container(environment: Option<string>, mounts: seq<Mount>)

  datatype Pod = Pod(
    name: string, containers: seq<Container>, volumes: map<string, Volume>,
    secrets: seq<string>, ports: set<nat>, routes: seq<Option<Target>>, objects: map<Key, Object>)

  /** environment_secret */
  function EnvironmentSecret(setup: Setup, name: string, service: Service): Option<string> {
    if service.environment == map[] then None
    else Some(setup.dns(name) + "-env-" + setup.environmentDigest(service.environment))
  }

  function Joining(stack: Stack, name: string, names: seq<string>): seq<string> {
    if names == [] then [] else
    var before, last := Joining(stack, name, names[..|names| - 1]), names[|names| - 1];
    if last in stack.sidecars && stack.sidecars[last] == name then before + [last] else before
  }

  lemma {:induction false} JoiningAreNames(stack: Stack, name: string, names: seq<string>)
    ensures forall n :: n in Joining(stack, name, names) ==> n in names
  {
    if names != [] {
      JoiningAreNames(stack, name, names[..|names| - 1]);
    }
  }

  function Members(stack: Stack, name: string): seq<string> { [name] + Joining(stack, name, stack.names) }

  function PodPlacings(stack: Stack, members: seq<string>): seq<Placing>
    requires forall m :: m in members ==> m in stack.services
  {
    if members == [] then [] else
    var last := members[|members| - 1];
    PodPlacings(stack, members[..|members| - 1]) + Placings(stack.setup, last, stack.services[last])
  }

  function ContainerOf(stack: Stack, member: string): Container
    requires member in stack.services
  {
    var service := stack.services[member];
    Container(EnvironmentSecret(stack.setup, member, service), MountsOf(Placings(stack.setup, member, service)))
  }

  function Containers(stack: Stack, members: seq<string>): seq<Container>
    requires forall m :: m in members ==> m in stack.services
  {
    if members == [] then [] else
    Containers(stack, members[..|members| - 1]) + [ContainerOf(stack, members[|members| - 1])]
  }

  function Secrets(containers: seq<Container>): seq<string> {
    if containers == [] then [] else
    var before, last := Secrets(containers[..|containers| - 1]), containers[|containers| - 1];
    if last.environment.Some? then before + [last.environment.value] else before
  }

  ghost function PodOf(stack: Stack, name: string): Option<Pod>
    requires Proper(stack) && name in stack.services
  {
    JoiningAreNames(stack, name, stack.names);
    var members := Members(stack, name);
    var service, placings := stack.services[name], PodPlacings(stack, members);
    var routes := Routes(service, BackendIndex(stack.services, stack.order));
    if Refused in placings || None in routes then None else
    var state, containers := After(State(map[], map[]), placings), Containers(stack, members);
    Some(Pod(name, containers, state.volumes, Secrets(containers), Ports(service), routes, state.objects))
  }

  /** _pod: the containers of a service and its sidecars, over one set of mounts. */
  method RenderPod(stack: Stack, name: string, index: map<string, (string, nat)>) returns (r: Option<Pod>)
    requires Proper(stack) && name in stack.services && index == BackendIndex(stack.services, stack.order)
    ensures r == PodOf(stack, name)
  {
    JoiningAreNames(stack, name, stack.names);
    var mounts := new Mounts(stack.setup);
    var containers := RenderContainers(stack, Members(stack, name), mounts);
    var routes := Routes(stack.services[name], index);
    if containers.None? || None in routes {
      return None;
    }
    r := Some(Pod(name, containers.value, mounts.volumes, Secrets(containers.value), Ports(stack.services[name]), routes,
                  mounts.objects));
  }

  method RenderContainers(stack: Stack, members: seq<string>, mounts: Mounts) returns (r: Option<seq<Container>>)
    requires forall m :: m in members ==> m in stack.services
    requires mounts.setup == stack.setup
    modifies mounts
    ensures r == if Refused in PodPlacings(stack, members) then None else Some(Containers(stack, members))
    ensures r.Some? ==> mounts.Now() == After(old(mounts.Now()), PodPlacings(stack, members))
  {
    var containers := [];
    ghost var start := mounts.Now();
    for i := 0 to |members|
      invariant Rendered(stack, members[..i], start, mounts.Now(), containers)
    {
      var member := members[i];
      var service := stack.services[member];
      ghost var before := mounts.Now();
      var mounted := mounts.ForService(member, service);
      assert members[..i + 1] == members[..i] + [member];
      if mounted.None? {
        NextMemberRefused(stack, members[..i], member);
        RefusedStays(stack, members, i + 1);
        return None;
      }
      NextMember(stack, members[..i], member, start, before, containers);
      containers := containers + [Container(EnvironmentSecret(stack.setup, member, service), mounted.value)];
    }
    assert members[..|members|] == members;
    r := Some(containers);
  }

  ghost predicate Rendered(stack: Stack, members: seq<string>, start: State, now: State, containers: seq<Container>) {
    && (forall m :: m in members ==> m in stack.services)
    && containers == Containers(stack, members)
    && Refused !in PodPlacings(stack, members)
    && now == After(start, PodPlacings(stack, members))
  }

  lemma NextMember(stack: Stack, members: seq<string>, member: string, start: State, now: State, containers: seq<Container>)
    requires Rendered(stack, members, start, now, containers) && member in stack.services
    requires Refused !in Placings(stack.setup, member, stack.services[member])
    ensures Rendered(stack, members + [member], start, After(now, Placings(stack.setup, member, stack.services[member])),
                     containers + [ContainerOf(stack, member)])
  {
    var next := members + [member];
    assert next[..|next| - 1] == members;
    OneAfterAnother(start, PodPlacings(stack, members), Placings(stack.setup, member, stack.services[member]));
  }

  lemma NextMemberRefused(stack: Stack, members: seq<string>, member: string)
    requires (forall m :: m in members ==> m in stack.services) && member in stack.services
    requires Refused in Placings(stack.setup, member, stack.services[member])
    ensures Refused in PodPlacings(stack, members + [member])
  {
    assert (members + [member])[..|members|] == members;
  }

  lemma {:induction false} RefusedStays(stack: Stack, members: seq<string>, i: nat)
    requires i <= |members| && (forall m :: m in members ==> m in stack.services)
    requires Refused in PodPlacings(stack, members[..i])
    ensures Refused in PodPlacings(stack, members)
    decreases |members|
  {
    if i == |members| {
      assert members[..i] == members;
    } else {
      var front := members[..|members| - 1];
      assert front[..i] == members[..i];
      RefusedStays(stack, front, i);
    }
  }

  // --- The calls services make -------------------------------------------------------

  const TRAEFIK := "gateway-handler"

  predicate Unanswered(stack: Stack, caller: string, call: Call) {
    && call.host != caller
    && (call.host in stack.services || (stack.peer.Some? && call.host in stack.peer.value))
    && var ports := if call.host in stack.services then stack.services[call.host].expose else stack.peer.value[call.host];
       (ports == {} || (call.port.Some? && call.port.value !in ports))
  }

  function CallsOf(stack: Stack, names: seq<string>): seq<(string, Call)>
    requires forall n :: n in names ==> n in stack.services
  {
    if names == [] then [] else
    var last := names[|names| - 1];
    var calls := stack.services[last].calls;
    CallsOf(stack, names[..|names| - 1]) + seq(|calls|, i requires 0 <= i < |calls| => (last, calls[i]))
  }

  function AllCalls(stack: Stack): seq<(string, Call)>
    requires forall n :: n in stack.order ==> n in stack.services
  {
    CallsOf(stack, stack.order) + seq(|stack.auth|, i requires 0 <= i < |stack.auth| => (TRAEFIK, stack.auth[i]))
  }

  /** _check_calls: refused when a call to a service here or in the peer names a port it does not
      expose; else the peer's services that are called. */
  method CheckCalls(stack: Stack) returns (r: Option<set<string>>)
    requires forall n :: n in stack.order ==> n in stack.services
    ensures r.None? <==> exists c :: c in AllCalls(stack) && Unanswered(stack, c.0, c.1)
    ensures r.Some? ==> forall h :: h in r.value <==>
      exists c :: c in AllCalls(stack) && CallsPeer(stack, c.0, c.1) && c.1.host == h
  {
    var calls := AllCalls(stack);
    var called := {};
    for i := 0 to |calls|
      invariant forall j :: 0 <= j < i ==> !Unanswered(stack, calls[j].0, calls[j].1)
      invariant forall h :: h in called <==>
        exists j :: 0 <= j < i && CallsPeer(stack, calls[j].0, calls[j].1) && calls[j].1.host == h
    {
      var caller, call := calls[i].0, calls[i].1;
      if CallsPeer(stack, caller, call) {
        called := called + {call.host};
      }
      if Unanswered(stack, caller, call) {
        assert calls[i] in calls;
        return None;
      }
    }
    r := Some(called);
  }

  predicate CallsPeer(stack: Stack, caller: string, call: Call) {
    call.host != caller && call.host !in stack.services && stack.peer.Some? && call.host in stack.peer.value
  }

  // --- The whole stack -----------------------------------------------------------------

  datatype Output = Output(pods: seq<Pod>, shared: map<Key, Object>)

  // The output with one more service: a pod, unless it is a sidecar.
  ghost function With(stack: Stack, before: Option<Output>, name: string): Option<Output>
    requires Proper(stack) && name in stack.services
  {
    if before.None? || name in stack.sidecars then before else
    var pod := PodOf(stack, name);
    if pod.None? then None
    else Some(Output(before.value.pods + [pod.value], before.value.shared + pod.value.objects))
  }

  ghost function PodsOf(stack: Stack, names: seq<string>): Option<Output>
    requires Proper(stack) && forall n :: n in names ==> n in stack.services
  {
    if names == [] then Some(Output([], map[]))
    else With(stack, PodsOf(stack, names[..|names| - 1]), names[|names| - 1])
  }

  lemma NextPod(stack: Stack, names: seq<string>, i: nat)
    requires Proper(stack) && (forall n :: n in names ==> n in stack.services) && i < |names|
    ensures PodsOf(stack, names[..i + 1]) == With(stack, PodsOf(stack, names[..i]), names[i])
  {
    assert names[..i + 1][..i] == names[..i] && names[..i + 1][i] == names[i];
  }

  ghost predicate CallsAccepted(stack: Stack)
    requires Proper(stack)
  {
    forall c :: c in AllCalls(stack) ==> !Unanswered(stack, c.0, c.1)
  }

  /** render: every service that is no sidecar is a pod; the claims and files they mount are shared. */
  method Render(stack: Stack) returns (r: Option<Output>)
    requires Proper(stack)
    ensures r == if CallsAccepted(stack) then PodsOf(stack, stack.names) else None
  {
    var checked := CheckCalls(stack);
    if checked.None? {
      return None;
    }
    r := RenderPods(stack, BackendIndex(stack.services, stack.order));
  }

  method RenderPods(stack: Stack, index: map<string, (string, nat)>) returns (r: Option<Output>)
    requires Proper(stack) && index == BackendIndex(stack.services, stack.order)
    ensures r == PodsOf(stack, stack.names)
  {
    var out := Output([], map[]);
    for i := 0 to |stack.names|
      invariant PodsOf(stack, stack.names[..i]) == Some(out)
    {
      var name := stack.names[i];
      NextPod(stack, stack.names, i);
      if name !in stack.sidecars {
        var pod := RenderPod(stack, name, index);
        if pod.None? {
          NoneStays(stack, stack.names, i + 1);
          return None;
        }
        out := Output(out.pods + [pod.value], out.shared + pod.value.objects);
      }
    }
    assert stack.names[..|stack.names|] == stack.names;
    r := Some(out);
  }

  lemma {:induction false} NoneStays(stack: Stack, names: seq<string>, i: nat)
    requires Proper(stack) && (forall n :: n in names ==> n in stack.services)
    requires i <= |names| && PodsOf(stack, names[..i]).None?
    ensures PodsOf(stack, names).None?
    decreases |names|
  {
    if i == |names| {
      assert names[..i] == names;
    } else {
      assert names[..|names| - 1][..i] == names[..i];
      NoneStays(stack, names[..|names| - 1], i);
    }
  }
}
