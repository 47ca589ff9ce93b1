/** Backup bundles made, shipped and pruned (scripts/bundle/bundle_make.py `seal` and `upkeep`,
    scripts/bundle/ship.py, scripts/bundle/bundle_plan.py).

    Two timers with different locks: one makes bundles, one ships them, and each tidies the
    local directory afterwards. A step below is one operation on one file or key; any step of
    either process may be its last before a crash, which forgets all it held in memory. */
module Shipping {
  import opened Sets
  import opened Retention

  // A file of BUNDLE_DIR, or a key under the S3 prefix: a bundle, or its `.sha256`.
  datatype Key = Bundle(at: int) | Checksum(at: int)

  const BUNDLES_KEPT: nat := 7

  function Bundles(keys: set<Key>): (r: set<int>)
    ensures forall n :: n in r <==> Bundle(n) in keys
  {
    set k | k in keys && k.Bundle? :: k.at
  }

  ghost function Newer(names: set<int>, n: int): set<int> { set m | m in names && m > n }

  // --- Decisions -------------------------------------------------------------

  function OldestFirst(names: set<int>): (r: seq<int>)
    ensures forall x :: x in r <==> x in names
    ensures forall i, j :: 0 <= i < j < |r| ==> r[i] < r[j]
  {
    var d := Descending(names);
    var r := seq(|d|, i requires 0 <= i < |d| => d[|d| - 1 - i]);
    assert forall i :: 0 <= i < |d| ==> d[i] == r[|d| - 1 - i];
    r
  }

  /** Bundles beyond the newest BUNDLES_KEPT that reached S3; shipping is configured. */
  function ToPrune(names: set<int>, shipped: set<int>): seq<int> {
    var aged := OldestFirst(names);
    Filter(if |aged| <= BUNDLES_KEPT then [] else aged[..|aged| - BUNDLES_KEPT], shipped)
  }

  function Filter(names: seq<int>, shipped: set<int>): (r: seq<int>)
    ensures forall x :: x in r <==> x in names && x in shipped
  {
    if names == [] then [] else
    if names[0] in shipped then [names[0]] + Filter(names[1..], shipped) else Filter(names[1..], shipped)
  }

  /** The local prune never names one of the newest seven, nor one the ledger does not hold. */
  lemma PrunedIsOldAndShipped(names: set<int>, shipped: set<int>, n: int)
    requires n in ToPrune(names, shipped)
    ensures n in names && n in shipped && |Newer(names, n)| >= BUNDLES_KEPT
  {
    var aged := OldestFirst(names);
    var cut := |aged| - BUNDLES_KEPT;
    assert n in aged[..cut];
    LaterAreNewer(names, aged, cut, n);
  }

  lemma LaterAreNewer(names: set<int>, aged: seq<int>, cut: nat, n: int)
    requires aged == OldestFirst(names)
    requires cut <= |aged| && n in aged[..cut]
    ensures |Newer(names, n)| >= |aged| - cut
  {
    var later := aged[cut..];
    IncreasingCardinality(later);
    forall x | x in later ensures x in Newer(names, n) {
      var j :| 0 <= j < |later| && later[j] == x;
      assert aged[cut + j] == x;
    }
    SubsetCardinality((set x | x in later), Newer(names, n));
  }

  lemma {:induction false} IncreasingCardinality(s: seq<int>)
    requires forall i, j :: 0 <= i < j < |s| ==> s[i] < s[j]
    ensures |set x | x in s| == |s|
  {
    if s != [] {
      var front := s[..|s| - 1];
      IncreasingCardinality(front);
      assert (set x | x in s) == (set x | x in front) + {s[|s| - 1]};
    }
  }

  // upkeep removes a bundle, then its checksum: what is left on disk is never a bundle alone.
  function UpkeepFiles(names: seq<int>): (r: seq<Key>)
    ensures forall k :: k in r <==> k.at in names
  {
    if names == [] then [] else [Bundle(names[0]), Checksum(names[0])] + UpkeepFiles(names[1..])
  }

  /** No checksum goes while its bundle is still there. */
  ghost predicate BundleFirst(files: seq<Key>, disk: set<Key>) {
    forall i :: 0 <= i < |files| && files[i].Checksum? && Bundle(files[i].at) in disk
      ==> Bundle(files[i].at) in files[..i]
  }

  lemma {:induction false} UpkeepIsBundleFirst(names: seq<int>, disk: set<Key>)
    ensures BundleFirst(UpkeepFiles(names), disk)
  {
    if names != [] {
      UpkeepIsBundleFirst(names[1..], disk);
      var rest := UpkeepFiles(names[1..]);
      var files := UpkeepFiles(names);
      forall i | 0 <= i < |files| && files[i].Checksum? && Bundle(files[i].at) in disk
        ensures Bundle(files[i].at) in files[..i]
      {
        if i > 1 {
          assert files[i] == rest[i - 2];
          var j :| 0 <= j < i - 2 && rest[j] == Bundle(files[i].at);
          assert files[..i][j + 2] == rest[j];
        } else {
          assert files[..i][0] == Bundle(files[i].at);
        }
      }
    }
  }

  /** No bundle goes from S3 while its checksum is still there. */
  ghost predicate ChecksumFirst(removed: seq<Key>, keys: set<Key>) {
    forall i :: 0 <= i < |removed| && removed[i].Bundle? && Checksum(removed[i].at) in keys
      ==> Checksum(removed[i].at) in removed[..i]
  }

  ghost predicate OldestFirstKeys(removed: seq<Key>) {
    forall i, j :: 0 <= i < j < |removed| ==> removed[i].at <= removed[j].at
  }

  /** `removed` is what the bundles in `names` contribute: unkept, past the cutoff, with its checksum. */
  ghost predicate Removes(removed: seq<Key>, keys: set<Key>, keep: set<int>, cutoff: int, names: seq<int>) {
    && (forall k :: k in removed <==> k in keys && k.at in names && k.at !in keep && k.at < cutoff)
    && ChecksumFirst(removed, keys)
    && OldestFirstKeys(removed)
  }

  lemma OneMoreRemoved(removed: seq<Key>, keys: set<Key>, keep: set<int>, cutoff: int, names: seq<int>, name: int,
                       both: seq<Key>)
    requires Removes(removed, keys, keep, cutoff, names)
    requires forall n :: n in names ==> n < name
    requires Bundle(name) in keys && name !in keep && name < cutoff
    requires both == if Checksum(name) in keys then [Checksum(name), Bundle(name)] else [Bundle(name)]
    ensures Removes(removed + both, keys, keep, cutoff, names + [name])
  {
    var more := removed + both;
    forall k ensures k in both <==> k in keys && k.at == name {
      assert both[|both| - 1] == Bundle(name);
      assert Checksum(name) in keys ==> both[0] == Checksum(name);
    }
    forall i | 0 <= i < |more| && more[i].Bundle? && Checksum(more[i].at) in keys
      ensures Checksum(more[i].at) in more[..i]
    {
      if i < |removed| {
        assert more[..i] == removed[..i];
      } else {
        assert more[..i][|removed|] == Checksum(name);
      }
    }
    forall i, j | 0 <= i < j < |more| ensures more[i].at <= more[j].at {
      assert i < |removed| ==> removed[i] in removed;
      assert j >= |removed| ==> more[j] in both;
      assert i >= |removed| ==> more[i] in both;
    }
  }

  lemma NoneRemoved(removed: seq<Key>, keys: set<Key>, keep: set<int>, cutoff: int, names: seq<int>, name: int)
    requires Removes(removed, keys, keep, cutoff, names) && (name in keep || name >= cutoff)
    ensures Removes(removed, keys, keep, cutoff, names + [name])
  {
  }

  /** s3_to_remove: what is past its lock and not kept, oldest first, each checksum before its bundle. */
  method S3ToRemove(keys: set<Key>, rules: seq<Rule>, cutoff: int) returns (removed: seq<Key>)
    requires forall r :: r in rules ==> r.window.Under?
    ensures MayRemove(removed, keys, rules, cutoff)
    ensures OldestFirstKeys(removed)
  {
    var names := Bundles(keys);
    var keep := S3Keep(names, rules);
    var oldest := OldestFirst(names);
    removed := [];
    for n := 0 to |oldest|
      invariant Removes(removed, keys, keep, cutoff, oldest[..n])
    {
      var name := oldest[n];
      assert oldest[..n + 1] == oldest[..n] + [name];
      assert name in names;
      if name !in keep && name < cutoff {
        var both := if Checksum(name) in keys then [Checksum(name), Bundle(name)] else [Bundle(name)];
        OneMoreRemoved(removed, keys, keep, cutoff, oldest[..n], name, both);
        removed := removed + both;
      } else {
        NoneRemoved(removed, keys, keep, cutoff, oldest[..n], name);
      }
    }
    assert oldest[..|oldest|] == oldest;
  }

  // --- The two processes -----------------------------------------------------

  // upkeep: the directory is listed, then the ledger read, then files go one by one.
  datatype Tidy = Listed(names: set<int>) | Removing(files: seq<Key>)

  datatype Maker = MakerIdle | Sealing(name: int) | MakerTidies(tidy: Tidy)

  datatype Stage = Waits | BundleSent | WholeSent
  datatype Shipper =
    | ShipperIdle
    | Sending(queue: seq<int>, stage: Stage)
    | AllSent            // at least one bundle went: only then are old keys removed
    | Pruning(keys: seq<Key>)
    | ShipperTidies(tidy: Tidy)

  datatype World = World(
    made: set<int>,      // every bundle ever finished here
    disk: set<Key>,
    ledger: set<int>,
    s3: set<Key>,
    sent: set<int>,      // every bundle that ever landed in S3
    whole: set<int>,     // every bundle whose checksum followed it there
    maker: Maker,
    shipper: Shipper)

  ghost predicate Init(w: World) {
    w == World({}, {}, {}, {}, {}, {}, MakerIdle, ShipperIdle)
  }

  datatype Step =
    | WriteChecksum(name: int) | Rename
    | MakerLists | MakerReads | MakerRemoves | MakerCrashes
    | ShipStarts | SendBundle | SendChecksum | Record
    | ListS3(cutoff: int, keys: seq<Key>) | RemoveKey
    | ShipperLists | ShipperReads | ShipperRemoves | ShipperStops

  /** What s3_to_remove may answer for the keys listed (S3ToRemove's contract). */
  ghost predicate MayRemove(removed: seq<Key>, keys: set<Key>, rules: seq<Rule>, cutoff: int) {
    && (forall k :: k in removed <==>
      k in keys && k.at in Bundles(keys) && k.at !in Keep(rules, Bundles(keys)) && k.at < cutoff)
    && ChecksumFirst(removed, keys)
  }

  ghost predicate Enabled(rules: seq<Rule>, w: World, step: Step) {
    match step
    case WriteChecksum(name) => w.maker.MakerIdle? && name !in w.made
    case Rename => w.maker.Sealing?
    case MakerLists => w.maker.MakerIdle?
    case MakerReads => w.maker.MakerTidies? && w.maker.tidy.Listed?
    case MakerRemoves => w.maker.MakerTidies? && w.maker.tidy.Removing? && w.maker.tidy.files != []
    case MakerCrashes => true
    case ShipStarts => w.shipper.ShipperIdle?
    case SendBundle => w.shipper.Sending? && w.shipper.queue != [] && w.shipper.stage.Waits?
      && Bundle(w.shipper.queue[0]) in w.disk
    case SendChecksum => w.shipper.Sending? && w.shipper.queue != [] && w.shipper.stage.BundleSent?
      && Checksum(w.shipper.queue[0]) in w.disk
    case Record => w.shipper.Sending? && w.shipper.queue != [] && w.shipper.stage.WholeSent?
    case ListS3(cutoff, keys) => w.shipper.AllSent? && MayRemove(keys, w.s3, rules, cutoff)
    case RemoveKey => w.shipper.Pruning? && w.shipper.keys != []
    case ShipperLists => (w.shipper.Sending? && w.shipper.queue == []) || (w.shipper.Pruning? && w.shipper.keys == [])
    case ShipperReads => w.shipper.ShipperTidies? && w.shipper.tidy.Listed?
    case ShipperRemoves => w.shipper.ShipperTidies? && w.shipper.tidy.Removing? && w.shipper.tidy.files != []
    case ShipperStops => true
  }

  ghost function Apply(w: World, step: Step): World {
    match step
    case WriteChecksum(name) => w.(disk := w.disk + {Checksum(name)}, maker := Sealing(name))
    case Rename =>
      if !w.maker.Sealing? then w else
      w.(disk := w.disk + {Bundle(w.maker.name)}, made := w.made + {w.maker.name}, maker := MakerIdle)
    case MakerLists => w.(maker := MakerTidies(Listed(Bundles(w.disk))))
    case MakerReads => 
      if !w.maker.MakerTidies? then w else w.(maker := MakerTidies(AfterRead(w.maker.tidy, w.ledger)))
    case MakerRemoves =>
      if !w.maker.MakerTidies? then w else
      w.(disk := AfterRemoval(w.maker.tidy, w.disk), maker := MakerTidies(Rest(w.maker.tidy)))
    case MakerCrashes => w.(maker := MakerIdle)
    case ShipStarts => w.(shipper := Sending(OldestFirst(Bundles(w.disk) - w.ledger), Waits))
    case SendBundle =>
      if !w.shipper.Sending? || w.shipper.queue == [] then w else
      w.(s3 := w.s3 + {Bundle(w.shipper.queue[0])}, sent := w.sent + {w.shipper.queue[0]},
         shipper := w.shipper.(stage := BundleSent))
    case SendChecksum =>
      if !w.shipper.Sending? || w.shipper.queue == [] then w else
      w.(s3 := w.s3 + {Checksum(w.shipper.queue[0])}, whole := w.whole + {w.shipper.queue[0]},
         shipper := w.shipper.(stage := WholeSent))
    case Record =>
      if !w.shipper.Sending? || w.shipper.queue == [] then w else
      w.(ledger := w.ledger + {w.shipper.queue[0]}, shipper := if |w.shipper.queue| == 1 then AllSent else Sending(w.shipper.queue[1..], Waits))
    case ListS3(cutoff, keys) => w.(shipper := Pruning(keys))
    case RemoveKey =>
      if !w.shipper.Pruning? || w.shipper.keys == [] then w else
      w.(s3 := w.s3 - {w.shipper.keys[0]}, shipper := Pruning(w.shipper.keys[1..]))
    case ShipperLists => w.(shipper := ShipperTidies(Listed(Bundles(w.disk))))
    case ShipperReads => 
      if !w.shipper.ShipperTidies? then w else w.(shipper := ShipperTidies(AfterRead(w.shipper.tidy, w.ledger)))
    case ShipperRemoves =>
      if !w.shipper.ShipperTidies? then w else
      w.(disk := AfterRemoval(w.shipper.tidy, w.disk), shipper := ShipperTidies(Rest(w.shipper.tidy)))
    case ShipperStops => w.(shipper := ShipperIdle)
  }

  function AfterRead(tidy: Tidy, ledger: set<int>): Tidy {
    if tidy.Listed? then Removing(UpkeepFiles(ToPrune(tidy.names, ledger))) else tidy
  }

  function AfterRemoval(tidy: Tidy, disk: set<Key>): set<Key> {
    if tidy.Removing? && tidy.files != [] then disk - {tidy.files[0]} else disk
  }

  function Rest(tidy: Tidy): Tidy {
    if tidy.Removing? && tidy.files != [] then Removing(tidy.files[1..]) else tidy
  }

  // --- What every state keeps ------------------------------------------------

  ghost predicate TidyInv(w: World, tidy: Tidy) {
    match tidy
    case Listed(names) => names <= w.made
    case Removing(files) =>
      && (forall k :: k in files ==> k.at in w.ledger && |Newer(w.made, k.at)| >= BUNDLES_KEPT)
      && BundleFirst(files, w.disk)
  }

  ghost predicate DiskInv(w: World) {
    && Bundles(w.disk) <= w.made
    && (forall n :: Bundle(n) in w.disk ==> Checksum(n) in w.disk)
    && (forall n :: n in w.made ==> Bundle(n) in w.disk || n in w.ledger)
    && (forall n :: n in w.made && |Newer(w.made, n)| < BUNDLES_KEPT ==> Bundle(n) in w.disk)
  }

  ghost predicate MakerInv(w: World) {
    match w.maker
    case MakerIdle => true
    case Sealing(name) => name !in w.made && Checksum(name) in w.disk
    case MakerTidies(tidy) => TidyInv(w, tidy)
  }

  ghost predicate S3Inv(rules: seq<Rule>, w: World) {
    && w.ledger <= w.whole <= w.sent <= w.made
    && (forall n :: Checksum(n) in w.s3 ==> Bundle(n) in w.s3)
    && Keep(rules, w.sent) <= Bundles(w.s3) <= w.sent
  }

  ghost predicate ShipperInv(rules: seq<Rule>, w: World) {
    match w.shipper
    case ShipperIdle => true
    case AllSent => true
    case Sending(queue, stage) =>
      && (forall n :: n in queue ==> n in w.made && n !in w.ledger)
      && (forall i, j :: 0 <= i < j < |queue| ==> queue[i] < queue[j])
      && (queue != [] && stage != Waits ==> Bundle(queue[0]) in w.s3)
      && (queue != [] && stage == WholeSent ==> queue[0] in w.whole)
    case Pruning(keys) =>
      && (forall k :: k in keys ==> k.at !in Keep(rules, w.sent))
      && ChecksumFirst(keys, w.s3)
    case ShipperTidies(tidy) => TidyInv(w, tidy)
  }

  ghost predicate Inv(rules: seq<Rule>, w: World) {
    DiskInv(w) && MakerInv(w) && S3Inv(rules, w) && ShipperInv(rules, w)
  }

  // --- Each step keeps it ----------------------------------------------------

  lemma TidyReads(w: World, tidy: Tidy)
    requires TidyInv(w, tidy) && tidy.Listed?
    ensures TidyInv(w, AfterRead(tidy, w.ledger))
  {
    var names := ToPrune(tidy.names, w.ledger);
    UpkeepIsBundleFirst(names, w.disk);
    forall k | k in UpkeepFiles(names) ensures k.at in w.ledger && |Newer(w.made, k.at)| >= BUNDLES_KEPT {
      PrunedIsOldAndShipped(tidy.names, w.ledger, k.at);
      assert Newer(tidy.names, k.at) <= Newer(w.made, k.at);
      SubsetCardinality(Newer(tidy.names, k.at), Newer(w.made, k.at));
    }
  }

  /** One file goes: the rest of the directory, and the other process's list, stay sound. */
  lemma TidyRemoves(w: World, tidy: Tidy, disk: set<Key>)
    requires DiskInv(w) && TidyInv(w, tidy) && tidy.Removing? && tidy.files != []
    requires disk == AfterRemoval(tidy, w.disk)
    ensures DiskInv(w.(disk := disk)) && TidyInv(w.(disk := disk), Rest(tidy))
  {
    var gone, rest := tidy.files[0], tidy.files[1..];
    assert gone in tidy.files;
    forall i | 0 <= i < |rest| && rest[i].Checksum? && Bundle(rest[i].at) in disk
      ensures Bundle(rest[i].at) in rest[..i]
    {
      assert tidy.files[i + 1] == rest[i];
      var j :| 0 <= j < i + 1 && tidy.files[j] == Bundle(rest[i].at);
      assert rest[..i][j - 1] == tidy.files[j];
    }
    if gone.Checksum? { assert Bundle(gone.at) !in tidy.files[..0]; }
  }

  lemma TidyUndisturbed(w: World, w': World, tidy: Tidy)
    requires TidyInv(w, tidy)
    requires w.made <= w'.made && w.ledger <= w'.ledger
    requires forall k :: k in w'.disk && k.Bundle? && k !in w.disk ==> k.at !in w.ledger
    ensures TidyInv(w', tidy)
  {
    if tidy.Removing? {
      forall k | k in tidy.files ensures |Newer(w'.made, k.at)| >= BUNDLES_KEPT {
        SubsetCardinality(Newer(w.made, k.at), Newer(w'.made, k.at));
      }
      forall i | 0 <= i < |tidy.files| && tidy.files[i].Checksum? && Bundle(tidy.files[i].at) in w'.disk
        ensures Bundle(tidy.files[i].at) in tidy.files[..i]
      {
        assert tidy.files[i] in tidy.files;
      }
    }
  }

  lemma Renamed(rules: seq<Rule>, w: World)
    requires Inv(rules, w) && w.maker.Sealing?
    ensures Inv(rules, Apply(w, Rename))
  {
    var w' := Apply(w, Rename);
    forall n | n in w'.made && |Newer(w'.made, n)| < BUNDLES_KEPT ensures Bundle(n) in w'.disk {
      if n != w.maker.name { SubsetCardinality(Newer(w.made, n), Newer(w'.made, n)); }
    }
    if w.shipper.ShipperTidies? { TidyUndisturbed(w, w', w.shipper.tidy); }
  }

  lemma BundleLanded(rules: seq<Rule>, w: World)
    requires Inv(rules, w) && Enabled(rules, w, SendBundle)
    ensures Inv(rules, Apply(w, SendBundle))
  {
    var n := w.shipper.queue[0];
    var w' := Apply(w, SendBundle);
    OnlinePruningLosesNothing(rules, w.sent, Bundles(w.s3), n, Bundles(w.s3) + {n});
    assert Bundles(w'.s3) == Bundles(w.s3) + {n};
  }

  lemma Listing(rules: seq<Rule>, w: World, cutoff: int, keys: seq<Key>)
    requires Inv(rules, w) && Enabled(rules, w, ListS3(cutoff, keys))
    ensures Inv(rules, Apply(w, ListS3(cutoff, keys)))
  {
    KeepIsPathIndependent(rules, Bundles(w.s3), w.sent);
  }

  lemma RestIsChecksumFirst(keys: seq<Key>, s3: set<Key>)
    requires keys != [] && ChecksumFirst(keys, s3)
    ensures ChecksumFirst(keys[1..], s3 - {keys[0]})
    ensures keys[0].Bundle? ==> Checksum(keys[0].at) !in s3
  {
    var rest := keys[1..];
    assert keys[..0] == [];
    forall i | 0 <= i < |rest| && rest[i].Bundle? && Checksum(rest[i].at) in s3 - {keys[0]}
      ensures Checksum(rest[i].at) in rest[..i]
    {
      assert keys[i + 1] == rest[i];
      var j :| 0 <= j < i + 1 && keys[j] == Checksum(rest[i].at);
      assert rest[..i][j - 1] == keys[j];
    }
  }

  lemma KeyGone(rules: seq<Rule>, w: World)
    requires Inv(rules, w) && Enabled(rules, w, RemoveKey)
    ensures Inv(rules, Apply(w, RemoveKey))
  {
    var keys := w.shipper.keys;
    RestIsChecksumFirst(keys, w.s3);
    assert keys[0] in keys;
    assert Bundles(w.s3 - {keys[0]}) == Bundles(w.s3) - if keys[0].Bundle? then {keys[0].at} else {};
  }

  lemma FileGone(rules: seq<Rule>, w: World, step: Step)
    requires Inv(rules, w) && Enabled(rules, w, step) && (step.MakerRemoves? || step.ShipperRemoves?)
    ensures Inv(rules, Apply(w, step))
  {
    var w' := Apply(w, step);
    var tidy := if step.MakerRemoves? then w.maker.tidy else w.shipper.tidy;
    assert tidy.files[0] in tidy.files;
    TidyRemoves(w, tidy, w'.disk);
    if step.MakerRemoves? && w.shipper.ShipperTidies? { TidyUndisturbed(w, w', w.shipper.tidy); }
    if step.ShipperRemoves? && w.maker.MakerTidies? { TidyUndisturbed(w, w', w.maker.tidy); }
  }

  lemma Recorded(rules: seq<Rule>, w: World)
    requires Inv(rules, w) && Enabled(rules, w, Record)
    ensures Inv(rules, Apply(w, Record))
  {
    var w' := Apply(w, Record);
    if w.maker.MakerTidies? { TidyUndisturbed(w, w', w.maker.tidy); }
  }

  lemma MakerStepKeepsInv(rules: seq<Rule>, w: World, step: Step)
    requires Inv(rules, w) && Enabled(rules, w, step)
    requires step.WriteChecksum? || step.Rename? || step.MakerLists? || step.MakerReads? || step.MakerCrashes?
    ensures Inv(rules, Apply(w, step))
  {
    match step
    case WriteChecksum(name) =>
      if w.shipper.ShipperTidies? { TidyUndisturbed(w, Apply(w, step), w.shipper.tidy); }
    case Rename => Renamed(rules, w);
    case MakerReads => TidyReads(w, w.maker.tidy);
    case _ =>
  }

  lemma Starts(rules: seq<Rule>, w: World)
    requires Inv(rules, w) && Enabled(rules, w, ShipStarts)
    ensures Inv(rules, Apply(w, ShipStarts))
  {
    assert forall n :: n in Bundles(w.disk) ==> n in w.made;
  }

  lemma StepKeepsInv(rules: seq<Rule>, w: World, step: Step)
    requires Inv(rules, w) && Enabled(rules, w, step)
    ensures Inv(rules, Apply(w, step))
  {
    match step
    case ShipperReads => TidyReads(w, w.shipper.tidy);
    case MakerRemoves => FileGone(rules, w, step);
    case ShipperRemoves => FileGone(rules, w, step);
    case ShipStarts => Starts(rules, w);
    case SendBundle => BundleLanded(rules, w);
    case SendChecksum => assert Bundles(Apply(w, step).s3) == Bundles(w.s3);
    case Record => Recorded(rules, w);
    case ListS3(cutoff, keys) => Listing(rules, w, cutoff, keys);
    case RemoveKey => KeyGone(rules, w);
    case ShipperLists =>
    case ShipperStops =>
    case _ => MakerStepKeepsInv(rules, w, step);
  }

  // --- Whole runs ------------------------------------------------------------

  /** Any interleaving of the two processes from an empty server and an empty prefix. */
  ghost predicate Run(rules: seq<Rule>, states: seq<World>, steps: seq<Step>) {
    && |states| == |steps| + 1
    && Init(states[0])
    && forall i :: 0 <= i < |steps| ==>
      Enabled(rules, states[i], steps[i]) && states[i + 1] == Apply(states[i], steps[i])
  }

  lemma {:induction false} EveryRunKeepsInv(rules: seq<Rule>, states: seq<World>, steps: seq<Step>, i: nat)
    requires Run(rules, states, steps) && i < |states|
    ensures Inv(rules, states[i])
  {
    if i == 0 {
      assert Keep(rules, {}) == {};
    } else {
      EveryRunKeepsInv(rules, states, steps, i - 1);
      StepKeepsInv(rules, states[i - 1], steps[i - 1]);
      assert states[i - 1 + 1] == Apply(states[i - 1], steps[i - 1]);
    }
  }

  /** A checksum in S3 means its bundle is there, and a ledger line means it all arrived. */
  lemma ChecksumMeansBundle(rules: seq<Rule>, states: seq<World>, steps: seq<Step>, w: World, n: int)
    requires Run(rules, states, steps) && w in states
    ensures Checksum(n) in w.s3 ==> Bundle(n) in w.s3
    ensures n in w.ledger ==> n in w.whole
  {
    var i :| 0 <= i < |states| && states[i] == w;
    EveryRunKeepsInv(rules, states, steps, i);
  }

  /** What one prune of every bundle ever made would keep is here or in S3, at every moment. */
  lemma NothingKeptIsLost(rules: seq<Rule>, states: seq<World>, steps: seq<Step>, w: World)
    requires Run(rules, states, steps) && w in states
    ensures Keep(rules, w.made) <= Bundles(w.disk) + Bundles(w.s3)
  {
    var i :| 0 <= i < |states| && states[i] == w;
    EveryRunKeepsInv(rules, states, steps, i);
    KeepFromFewer(rules, w.sent, w.made);
    forall n | n in Keep(rules, w.made) && Bundle(n) !in w.disk ensures n in Bundles(w.s3) {
      assert n in w.ledger && n in w.sent;
    }
  }

  /** The newest seven ever made are on the local disk, each with its checksum. */
  lemma NewestSevenStayHere(rules: seq<Rule>, states: seq<World>, steps: seq<Step>, w: World, n: int)
    requires Run(rules, states, steps) && w in states
    requires n in w.made && |Newer(w.made, n)| < BUNDLES_KEPT
    ensures Bundle(n) in w.disk && Checksum(n) in w.disk
  {
    var i :| 0 <= i < |states| && states[i] == w;
    EveryRunKeepsInv(rules, states, steps, i);
  }

  /** However the other process tidies, the shipper finds both files of what it is sending. */
  lemma ShipperFindsItsFiles(rules: seq<Rule>, states: seq<World>, steps: seq<Step>, w: World, n: int)
    requires Run(rules, states, steps) && w in states
    requires w.shipper.Sending? && n in w.shipper.queue
    ensures Bundle(n) in w.disk && Checksum(n) in w.disk
  {
    var i :| 0 <= i < |states| && states[i] == w;
    EveryRunKeepsInv(rules, states, steps, i);
  }
}
