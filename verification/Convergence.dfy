/** A Stack comes up after boundedly many steps of its surroundings. */
module Convergence {
  import opened Wrappers
  import opened Names
  import opened Objects
  import opened Clusters
  import opened Snapshots
  import opened Volumes
  import opened Bindings
  import opened Catalogs
  import opened Tiers
  import opened Backings
  import opened Services
  import opened Reconcilers
  import opened Settling
  import opened SettlingTiers
  import opened Readiness
  import opened Idempotence
  import opened Sharing
  import opened Passes
  import Runs

  // ----------------------------------------------------------------------------- gates

  /** What a pass may have to wait for, by the index of the backing or service. */
  datatype Gate =
    | SourceGate(i: nat)    // the parent's snapshot is ready and bound
    | HandleGate(i: nat)    // the content it is bound to has a handle
    | RestoreGate(i: nat)   // the restore snapshot is ready
    | SetGate(i: nat)       // the StatefulSet has a ready replica
    | RecoverGate(i: nat)   // the parent's Cluster has a base backup
    | ParentGate(i: nat)    // the parent's bucket has a name
    | ClusterGate(i: nat)   // the Cluster has a ready instance
    | BoundGate(i: nat)     // the bucket claim is bound
    | ConfigGate(i: nat)    // the bucket's ConfigMap is there
    | HookGate(i: nat)      // the release Job has finished

  function GatesOfBacking(i: nat): set<Gate> {
    {SourceGate(i), HandleGate(i), RestoreGate(i), SetGate(i), RecoverGate(i), ParentGate(i), ClusterGate(i),
     BoundGate(i), ConfigGate(i)}
  }

  function BackingGates(n: nat): set<Gate> {
    if n == 0 then {} else BackingGates(n - 1) + GatesOfBacking(n - 1)
  }

  function HookGates(n: nat): set<Gate> {
    if n == 0 then {} else HookGates(n - 1) + {HookGate(n - 1)}
  }

  function Gates(spec: StackSpec): set<Gate> {
    BackingGates(|spec.backing|) + HookGates(|spec.services|)
  }

  predicate InSpec(g: Gate, spec: StackSpec) {
    if g.HookGate? then g.i < |spec.services| else g.i < |spec.backing|
  }

  lemma {:induction false} BackingGatesAre(n: nat, g: Gate)
    ensures g in BackingGates(n) <==> !g.HookGate? && g.i < n
  {
    hide GatesOfBacking;
    if n > 0 {
      BackingGatesAre(n - 1, g);
      NineGates(n - 1, g);
    }
  }

  lemma {:induction false} BackingGatesCount(n: nat)
    ensures |BackingGates(n)| <= 9 * n
  {
    hide GatesOfBacking;
    if n > 0 {
      BackingGatesCount(n - 1);
      NineGates(n - 1, SourceGate(n - 1));
      Few(BackingGates(n - 1), GatesOfBacking(n - 1));
    }
  }

  lemma NineGates(i: nat, g: Gate)
    ensures |GatesOfBacking(i)| <= 9
    ensures g in GatesOfBacking(i) <==> !g.HookGate? && g.i == i
  {
    Few({SourceGate(i), HandleGate(i), RestoreGate(i), SetGate(i), RecoverGate(i)},
      {ParentGate(i), ClusterGate(i), BoundGate(i), ConfigGate(i)});
    assert GatesOfBacking(i) == {SourceGate(i), HandleGate(i), RestoreGate(i), SetGate(i), RecoverGate(i)} +
                                {ParentGate(i), ClusterGate(i), BoundGate(i), ConfigGate(i)};
  }

  lemma Few<T>(a: set<T>, b: set<T>)
    ensures |a + b| <= |a| + |b|
  {
    assert a + b == a + (b - a) && |b - a| <= |b| by {
      assert b == (b - a) + (b * a);
    }
  }

  lemma {:induction false} HookGatesAre(n: nat, g: Gate)
    ensures g in HookGates(n) <==> g.HookGate? && g.i < n
    ensures |HookGates(n)| <= n
  {
    if n > 0 {
      HookGatesAre(n - 1, g);
      Few(HookGates(n - 1), {HookGate(n - 1)});
    }
  }

  lemma GatesAre(spec: StackSpec, g: Gate)
    ensures g in Gates(spec) <==> InSpec(g, spec)
    ensures |Gates(spec)| <= 9 * |spec.backing| + |spec.services|
  {
    hide BackingGates, HookGates;
    BackingGatesAre(|spec.backing|, g);
    BackingGatesCount(|spec.backing|);
    HookGatesAre(|spec.services|, g);
    Few(BackingGates(|spec.backing|), HookGates(|spec.services|));
  }

  predicate HandleSet(s: Store, content: string) {
    var k := ContentKey(content);
    content != "" && k in s.objs && s.objs[k].obj.Content? && s.objs[k].obj.statusHandle != "" &&
    s.objs[k].obj.driver != ""
  }

  predicate SnapshotReady(s: Store, k: Key) {
    k in s.objs && s.objs[k].obj.Snapshot? && s.objs[k].obj.readyToUse
  }

  predicate NamedBucket(s: Store, k: Key) {
    k in s.objs && s.objs[k].obj.ConfigMap? && GetOr(s.objs[k].obj.data, "BUCKET_NAME", "") != ""
  }

  predicate JobFinished(s: Store, k: Key) {
    k in s.objs && s.objs[k].obj.Job? && s.objs[k].obj.outcome != JobActive
  }

  predicate Met(s: Store, sk: Key, st: Object, g: Gate)
    requires st.Stack? && InSpec(g, st.spec)
  {
    match g
    case SourceGate(i) => SourceBound(s, st, sk.ns, st.spec.backing[i].name)
    case HandleGate(i) => HandleSet(s, SourceContent(s, st, sk.ns, st.spec.backing[i].name))
    case RestoreGate(i) => SnapshotReady(s, SnapshotKey(sk.ns, RestoreName(st.spec.backing[i].name)))
    case SetGate(i) => SetReady(s, SetKey(sk.ns, NameOf(sk, st.spec.backing[i])))
    case RecoverGate(i) => RecoverableIn(s, ClusterKey(st.cloneNs, ParentCluster(st, st.spec.backing[i])))
    case ParentGate(i) => NamedBucket(s, ConfigMapKey(st.cloneNs, BackupName(ParentCluster(st, st.spec.backing[i]))))
    case ClusterGate(i) => ClusterReady(s, ClusterKey(sk.ns, NameOf(sk, st.spec.backing[i])))
    case BoundGate(i) => BucketBound(s, BucketKey(sk.ns, NameOf(sk, st.spec.backing[i])))
    case ConfigGate(i) => Find(s, ConfigMapKey(sk.ns, NameOf(sk, st.spec.backing[i]))).Some?
    case HookGate(i) => JobFinished(s, JobKey(sk, st.spec.services[i].name, st.generation))
  }

  /** What an engine reported is still reported. */
  predicate Improved(a: Object, b: Object) {
    KindOf(a) == KindOf(b) &&
    match a
    case StatefulSet(_, _, _, _, _, readyReplicas) => readyReplicas >= 1 ==> b.readyReplicas >= 1
    case Cluster(_, _, _, _, _, readyInstances, recoverable) =>
      (readyInstances >= 1 ==> b.readyInstances >= 1) && (recoverable ==> b.recoverable)
    case BucketClaim(_, _, _, bound) => bound ==> b.bound
    case Snapshot(_, _, readyToUse, boundContent) =>
      (readyToUse ==> b.readyToUse) && (boundContent != "" ==> b.boundContent == boundContent)
    case Content(_, driver, _, _, _, statusHandle) =>
      (statusHandle != "" ==> b.statusHandle != "") && (driver != "" ==> b.driver != "")
    case Job(_, _, _, outcome) => outcome != JobActive ==> b.outcome != JobActive
    case ConfigMap(data) => GetOr(data, "BUCKET_NAME", "") != "" ==> GetOr(b.data, "BUCKET_NAME", "") != ""
    case _ => true
  }

  ghost predicate Improves(s: Store, t: Store) {
    forall k | k in s.objs :: k in t.objs && Improved(s.objs[k].obj, t.objs[k].obj)
  }

  lemma AdvancesImproves(s: Store, t: Store, keys: set<Key>)
    requires Advances(s, t, keys)
    ensures Improves(s, t)
  {
    forall k | k in s.objs ensures Improved(s.objs[k].obj, t.objs[k].obj) {
      assert Preserved(s.objs[k].obj, t.objs[k].obj);
    }
  }

  /** Whatever an object was ready for, it still is. */
  lemma StaysReady(s: Store, t: Store, k: Key)
    requires Improves(s, t)
    ensures SetReady(s, k) ==> SetReady(t, k)
    ensures ClusterReady(s, k) ==> ClusterReady(t, k)
    ensures RecoverableIn(s, k) ==> RecoverableIn(t, k)
    ensures BucketBound(s, k) ==> BucketBound(t, k)
    ensures SnapshotReady(s, k) ==> SnapshotReady(t, k)
    ensures NamedBucket(s, k) ==> NamedBucket(t, k)
    ensures JobFinished(s, k) ==> JobFinished(t, k)
    ensures Find(s, k).Some? ==> Find(t, k).Some?
  {
    if k in s.objs {
      assert Improved(s.objs[k].obj, t.objs[k].obj);
    }
  }

  lemma StaysBound(s: Store, t: Store, sk: Key, st: Object, b: string)
    requires Improves(s, t) && st.Stack?
    ensures SourceBound(s, st, sk.ns, b) ==> SourceBound(t, st, sk.ns, b)
    ensures HandleSet(s, SourceContent(s, st, sk.ns, b)) ==> HandleSet(t, SourceContent(t, st, sk.ns, b))
  {
    var k := SourceKey(st, sk.ns, b);
    if k in s.objs {
      assert Improved(s.objs[k].obj, t.objs[k].obj);
    }
    var c := ContentKey(SourceContent(s, st, sk.ns, b));
    if c in s.objs {
      assert Improved(s.objs[c].obj, t.objs[c].obj);
    }
  }

  /** No step that only improves things, a pass among them, shuts a gate. */
  lemma GateStays(s: Store, t: Store, sk: Key, st: Object, g: Gate)
    requires Improves(s, t) && st.Stack? && InSpec(g, st.spec) && Met(s, sk, st, g)
    ensures Met(t, sk, st, g)
  {
    hide Improves, SourceBound, HandleSet, SourceContent, SetReady, ClusterReady, RecoverableIn, BucketBound,
      SnapshotReady, NamedBucket, JobFinished, Find;
    match g {
      case SourceGate(i) => StaysBound(s, t, sk, st, st.spec.backing[i].name);
      case HandleGate(i) => StaysBound(s, t, sk, st, st.spec.backing[i].name);
      case RestoreGate(i) => StaysReady(s, t, SnapshotKey(sk.ns, RestoreName(st.spec.backing[i].name)));
      case SetGate(i) => StaysReady(s, t, SetKey(sk.ns, NameOf(sk, st.spec.backing[i])));
      case RecoverGate(i) => StaysReady(s, t, ClusterKey(st.cloneNs, ParentCluster(st, st.spec.backing[i])));
      case ParentGate(i) =>
        StaysReady(s, t, ConfigMapKey(st.cloneNs, BackupName(ParentCluster(st, st.spec.backing[i]))));
      case ClusterGate(i) => StaysReady(s, t, ClusterKey(sk.ns, NameOf(sk, st.spec.backing[i])));
      case BoundGate(i) => StaysReady(s, t, BucketKey(sk.ns, NameOf(sk, st.spec.backing[i])));
      case ConfigGate(i) => StaysReady(s, t, ConfigMapKey(sk.ns, NameOf(sk, st.spec.backing[i])));
      case HookGate(i) => StaysReady(s, t, JobKey(sk, st.spec.services[i].name, st.generation));
    }
  }

  /** The object whose status the gate waits for is there. */
  predicate Offered(s: Store, sk: Key, st: Object, g: Gate)
    requires st.Stack? && InSpec(g, st.spec)
  {
    match g
    case SourceGate(i) => SourceKey(st, sk.ns, st.spec.backing[i].name) in s.objs
    case HandleGate(i) => SourceBound(s, st, sk.ns, st.spec.backing[i].name)
    case RestoreGate(i) => SnapshotKey(sk.ns, RestoreName(st.spec.backing[i].name)) in s.objs
    case SetGate(i) => SetKey(sk.ns, NameOf(sk, st.spec.backing[i])) in s.objs
    case ClusterGate(i) => ClusterKey(sk.ns, NameOf(sk, st.spec.backing[i])) in s.objs
    case BoundGate(i) => BucketKey(sk.ns, NameOf(sk, st.spec.backing[i])) in s.objs
    case HookGate(i) => JobKey(sk, st.spec.services[i].name, st.generation) in s.objs
    case _ => true
  }

  /** A gate that is shut, and that its owner can open. */
  predicate Waiting(s: Store, sk: Key, st: Object, g: Gate)
    requires st.Stack?
  {
    InSpec(g, st.spec) && !Met(s, sk, st, g) && Offered(s, sk, st, g)
  }

  // ------------------------------------------------------- what a stuck pass waits for

  /** The backing's gate that keeps it from being ready. */
  lemma PostgresWaits(cfg: Config, u: Store, sk: Key, st: Object, i: nat) returns (g: Gate)
    requires Typed(u) && st.Stack? && i < |st.spec.backing|
    requires PostgresQ(cfg, u, sk, st, st.spec.backing[i]).store == u
    requires PostgresQ(cfg, u, sk, st, st.spec.backing[i]).result.Ok? &&
             !PostgresQ(cfg, u, sk, st, st.spec.backing[i]).result.value.ready
    ensures g.i == i && !g.HookGate? && Waiting(u, sk, st, g)
  {
    hide BackingName, BackupName, Mutate, CopyBackupCredsQ, EnsureBucketQ, ApplyClusterQ;
    var b := st.spec.backing[i];
    var boot := ChooseBootstrapQ(cfg, u, sk, st, b);
    if boot.result.value.None? {
      g := if RecoverableIn(u, ClusterKey(st.cloneNs, ParentCluster(st, b))) then ParentGate(i) else RecoverGate(i);
    } else {
      g := ClusterGate(i);
      ClusterWaits(cfg, u, sk, st, b);
    }
  }

  lemma ClusterWaits(cfg: Config, u: Store, sk: Key, st: Object, b: BackingSpec)
    requires Typed(u) && st.Stack? && PostgresQ(cfg, u, sk, st, b).store == u
    requires ChooseBootstrapQ(cfg, u, sk, st, b).result.Ok? && ChooseBootstrapQ(cfg, u, sk, st, b).result.value.Some?
    requires PostgresQ(cfg, u, sk, st, b).result.Ok? && !PostgresQ(cfg, u, sk, st, b).result.value.ready
    ensures ClusterKey(sk.ns, NameOf(sk, b)) in u.objs && !ClusterReady(u, ClusterKey(sk.ns, NameOf(sk, b)))
  {
    hide ChooseBootstrapQ, EnsureBucketQ, ApplyClusterQ, ClusterReady, Advances, Typed;
    var boot := ChooseBootstrapQ(cfg, u, sk, st, b);
    BootstrapAdvances(cfg, u, sk, st, b);
    var before := if b.backup && !IsPgClone(st, b) then EnsureBucketQ(cfg, boot.store, sk, BackupName(NameOf(sk, b)))
                  else Outcome(boot.store, Ok(UNBOUND));
    BucketAdvances(cfg, boot.store, sk, BackupName(NameOf(sk, b)));
    ClusterUp(cfg, before.store, sk, b, boot.result.value.value, before.result.value);
  }

  lemma ObjectWaits(cfg: Config, u: Store, sk: Key, st: Object, i: nat) returns (g: Gate)
    requires Typed(u) && st.Stack? && i < |st.spec.backing|
    requires ObjectQ(cfg, u, sk, st.spec.backing[i]).store == u
    requires ObjectQ(cfg, u, sk, st.spec.backing[i]).result.Ok? &&
             !ObjectQ(cfg, u, sk, st.spec.backing[i]).result.value.ready
    ensures g.i == i && !g.HookGate? && Waiting(u, sk, st, g)
  {
    hide BackingName, Apply, Mutate, Preserved;
    var name := NameOf(sk, st.spec.backing[i]);
    var k := BucketKey(sk.ns, name);
    ApplyAdvances(cfg, u, k, BucketPatch(cfg, sk, name));
    var obc := Apply(cfg, u, k, BucketPatch(cfg, sk, name));
    g := if obc.result.value.obj.bound then ConfigGate(i) else BoundGate(i);
  }

  /** The link of the clone that is missing. */
  lemma CloneWaits(cfg: Config, s: Store, sk: Key, st: Object, i: nat) returns (g: Gate)
    requires Typed(s) && st.Stack? && i < |st.spec.backing| && IsPreviewClone(st)
    requires CloneRestore(cfg, s, st, sk.ns, st.spec.backing[i].name).result.Ok?
    requires !CloneRestore(cfg, s, st, sk.ns, st.spec.backing[i].name).result.value.ready
    ensures g.i == i && !g.HookGate?
    ensures Waiting(CloneRestore(cfg, s, st, sk.ns, st.spec.backing[i].name).store, sk, st, g)
  {
    hide Mutate, Preserved, CloneName, RestoreName, Apply, Blank, Advances, CloneRestore, LinkedStore,
         ShareOf, HandleSet;
    var b := st.spec.backing[i].name;
    var src := AfterSource(cfg, s, st, sk.ns, b);
    CloneIs(cfg, s, st, sk.ns, b);
    SourceLeft(cfg, s, st, sk.ns, b);
    if Seen(s, st, sk.ns, b).Some? {
      LinksLeave(cfg, src, sk.ns, b, Seen(s, st, sk.ns, b).value);
      g := RestoreGate(i);
    } else if SourceBound(s, st, sk.ns, b) {
      NoHandle(src, SourceContent(s, st, sk.ns, b));
      g := HandleGate(i);
    } else {
      g := SourceGate(i);
    }
  }

  /** The source snapshot, as taking it leaves it. */
  lemma SourceLeft(cfg: Config, s: Store, st: Object, ns: string, b: string)
    requires Typed(s) && st.Stack?
    ensures var src := AfterSource(cfg, s, st, ns, b);
            Typed(src) && SourceKey(st, ns, b) in src.objs &&
            SourceBound(src, st, ns, b) == SourceBound(s, st, ns, b) &&
            (SourceBound(s, st, ns, b) ==> SourceContent(src, st, ns, b) == SourceContent(s, st, ns, b)) &&
            (Seen(s, st, ns, b).Some? ==> Seen(s, st, ns, b).value.driver != "") &&
            forall c :: ShareOf(src, c) == ShareOf(s, c)
  {
    hide Mutate, Blank, Preserved, Apply, Advances;
    SourceTakes(cfg, s, st, ns, b);
  }

  lemma NoHandle(s: Store, content: string)
    requires ShareOf(s, content).None?
    ensures !HandleSet(s, content)
  {
  }

  lemma SetTierWaits(cfg: Config, u: Store, sk: Key, st: Object, i: nat, secret: Patch, service: Patch,
                     persistent: bool, claim: Seed -> Patch, labelled: bool) returns (g: Gate)
    requires Typed(u) && st.Stack? && i < |st.spec.backing|
    requires PatchKind(secret) == SecretKind && PatchKind(service) == Objects.ServiceKind
    requires forall seed :: claim(seed).BackingSet?
    requires var t := SetTierQ(cfg, u, sk, st, st.spec.backing[i], secret, service, persistent, claim, labelled);
             t.store == u && t.result.Ok? && !t.result.value.ready
    ensures g.i == i && !g.HookGate? && Waiting(u, sk, st, g)
  {
    hide Apply, Mutate, Preserved, CloneRestore, SetUpQ;
    var b := st.spec.backing[i];
    var sec := Apply(cfg, u, SecretKey(sk.ns, NameOf(sk, b)), secret);
    var svc := Apply(cfg, sec.store, ServiceKey(sk.ns, NameOf(sk, b)), service);
    EndpointAdvances(cfg, u, sk, b, secret, service);
    var seed := if persistent then Seeding(cfg, svc.store, sk, st, b.name) else Outcome(svc.store, Ok(Fresh));
    if seed.result.value.Wait? {
      g := CloneWaits(cfg, svc.store, sk, st, i);
    } else {
      g := SetGate(i);
      SeedingAdvances(cfg, svc.store, sk, st, b.name);
      SetUpReady(cfg, seed.store, sk, b, claim(seed.result.value), labelled);
    }
  }

  /** A backing that is not ready in a settled store has a gate that is not met. */
  lemma BackingWaits(cfg: Config, cat: Catalog, u: Store, sk: Key, st: Object, i: nat) returns (g: Gate)
    requires Typed(u) && st.Stack? && i < |st.spec.backing|
    requires var one := ProvisionQ(cfg, cat, u, sk, st, st.spec.backing[i]);
             one.store == u && one.result.Ok? && one.result.value.Some? && !one.result.value.value.got.ready
    ensures g.i == i && !g.HookGate? && Waiting(u, sk, st, g)
  {
    hide Lower, Met, Offered, PostgresQ, ObjectQ, TemplatedQ, FallbackQ, SetTierQ;
    var b := st.spec.backing[i];
    if IsPostgres(b.kind) {
      g := PostgresWaits(cfg, u, sk, st, i);
    } else if IsObjectStore(b.kind) {
      g := ObjectWaits(cfg, u, sk, st, i);
    } else if Lookup(cat, b.kind).Some? {
      var def := Lookup(cat, b.kind).value;
      ImageNeeded(cfg, u, sk, st, b, def);
      TemplatedIsTier(cfg, u, sk, st, b, def);
      g := SetTierWaits(cfg, u, sk, st, i, SecretPatch(cfg, sk, b, def),
        EndpointPatch(sk, b, OrDefault(def.portName, def.kind), def.port), def.persistence.Some?,
        seed => TemplateSetPatch(sk, b, def, ImageOf(cfg, b, def).value, seed),
        def.persistence.Some? && b.backup && !IsPreviewClone(st));
    } else {
      PortNeeded(cfg, u, sk, st, b);
      FallbackIsTier(cfg, u, sk, st, b);
      g := SetTierWaits(cfg, u, sk, st, i, AddressPatch(sk, b),
        EndpointPatch(sk, b, "svc", b.port), true, seed => FallbackSetPatch(cfg, sk, b, seed),
        b.backup && !IsPreviewClone(st));
    }
  }

  // ----------------------------------------------------------- from fates to gates

  lemma {:induction false} FateAt(cfg: Config, s: Store, sk: Key, st: Object, backings: map<string, Backing>, i: nat,
        n: nat)
    requires st.Stack? && i < n <= |st.spec.services| && ServicesQ(cfg, s, sk, st, backings, n).result.Ok?
    ensures |ServicesQ(cfg, s, sk, st, backings, n).result.value| == n
    ensures ServiceQ(cfg, ServicesQ(cfg, s, sk, st, backings, i).store, sk, st, st.spec.services[i],
              Urls(sk, st.spec, |st.spec.services|), backings).result ==
            Ok(ServicesQ(cfg, s, sk, st, backings, n).result.value[i])
  {
    hide ServiceQ, Urls;
    if i < n - 1 {
      FateAt(cfg, s, sk, st, backings, i, n - 1);
    } else {
      FateCount(cfg, s, sk, st, backings, n - 1);
    }
  }

  lemma {:induction false} FateCount(cfg: Config, s: Store, sk: Key, st: Object, backings: map<string, Backing>, n: nat)
    requires st.Stack? && n <= |st.spec.services| && ServicesQ(cfg, s, sk, st, backings, n).result.Ok?
    ensures |ServicesQ(cfg, s, sk, st, backings, n).result.value| == n
  {
    hide ServiceQ, Urls;
    if n > 0 {
      FateCount(cfg, s, sk, st, backings, n - 1);
    }
  }

  /** Where an entry of the ledger comes from. */
  lemma {:induction false} EntryFrom(cfg: Config, cat: Catalog, u: Store, sk: Key, st: Object, n: nat, name: string)
    returns (i: nat)
    requires st.Stack? && n <= |st.spec.backing| && ProvisionAll(cfg, cat, u, sk, st, n).result.Ok?
    requires forall m | 0 <= m <= n :: ProvisionAll(cfg, cat, u, sk, st, m).store == u
    requires name in ProvisionAll(cfg, cat, u, sk, st, n).result.value.backings
    ensures i < n && st.spec.backing[i].name == name
    ensures var one := ProvisionQ(cfg, cat, u, sk, st, st.spec.backing[i]);
            one.store == u && one.result.Ok? && one.result.value.Some? &&
            one.result.value.value.got.ready == ProvisionAll(cfg, cat, u, sk, st, n).result.value.backings[name].ready
  {
    hide ProvisionQ;
    assert n > 0;
    assert ProvisionAll(cfg, cat, u, sk, st, n - 1).store == u;
    assert ProvisionAll(cfg, cat, u, sk, st, n).store == u;
    var one := ProvisionQ(cfg, cat, u, sk, st, st.spec.backing[n - 1]);
    if one.result.value.Some? && st.spec.backing[n - 1].name == name {
      i := n - 1;
    } else {
      i := EntryFrom(cfg, cat, u, sk, st, n - 1, name);
    }
  }

  // ---------------------------------------------------------------------- progress

  predicate Stuck(f: Fate) { f == Held || f == HookActive }

  lemma HeldWaits(cfg: Config, cat: Catalog, u: Store, sk: Key, ledger: Ledger, fates: seq<Fate>, i: nat)
    returns (g: Gate)
    requires Typed(u) && Settled(cfg, cat, u, sk, ledger, fates) && i < |fates| && fates[i] == Held
    ensures Waiting(u, sk, u.objs[sk].obj, g)
  {
    hide Typed, ProvisionAll, ProvisionQ, Scheduled, ServicesQ, Assessed, Waiting, Urls, Resolve;
    var st := u.objs[sk].obj;
    var n, urls := |st.spec.services|, Urls(sk, st.spec, |st.spec.services|);
    FateCount(cfg, u, sk, st, ledger.backings, n);
    FateAt(cfg, u, sk, st, ledger.backings, i, n);
    var svc := st.spec.services[i];
    HeldBlocks(cfg, ServicesQ(cfg, u, sk, st, ledger.backings, i).store, sk, st, svc, urls, ledger.backings);
    var c :| 0 <= c < |svc.connections| && Blocks(urls, ledger.backings, svc.connections[c].target);
    var j := EntryFrom(cfg, cat, u, sk, st, |st.spec.backing|, svc.connections[c].target);
    g := BackingWaits(cfg, cat, u, sk, st, j);
  }

  lemma HeldBlocks(cfg: Config, s: Store, sk: Key, st: Object, svc: ServiceSpec, urls: map<string, string>,
        backings: map<string, Backing>)
    requires st.Stack? && ServiceQ(cfg, s, sk, st, svc, urls, backings).result == Ok(Held)
    ensures exists c | 0 <= c < |svc.connections| :: Blocks(urls, backings, svc.connections[c].target)
  {
    hide ReleaseGateQ, ProcessesQ;
    WaitsForBacking(cfg, urls, backings, svc, |svc.connections|);
  }

  lemma HookWaits(cfg: Config, cat: Catalog, u: Store, sk: Key, ledger: Ledger, fates: seq<Fate>, i: nat)
    requires Typed(u) && Settled(cfg, cat, u, sk, ledger, fates) && i < |fates| && fates[i] == HookActive
    ensures Waiting(u, sk, u.objs[sk].obj, HookGate(i))
  {
    hide Typed, ProvisionAll, Scheduled, ServicesQ, Assessed, Urls, Advances, ServiceQ, Ladder;
    var st := u.objs[sk].obj;
    var n := |st.spec.services|;
    FateCount(cfg, u, sk, st, ledger.backings, n);
    FateAt(cfg, u, sk, st, ledger.backings, i, n);
    var s := ServicesQ(cfg, u, sk, st, ledger.backings, i).store;
    ServiceTyped(cfg, u, sk, st, ledger.backings, i);
    ActiveJob(cfg, s, sk, st, st.spec.services[i], Urls(sk, st.spec, n), ledger.backings);
    NextStore(cfg, u, sk, st, ledger.backings, i, n);
    ServiceLadder(cfg, u, sk, st, ledger.backings, n);
    LadderAdvances(ServiceStores(cfg, u, sk, st, ledger.backings, n), ServiceRungs(sk, st, n), i + 1, n);
    KeptBy(ServicesQ(cfg, u, sk, st, ledger.backings, i + 1).store, u, Union(ServiceRungs(sk, st, n)[i + 1..n]),
      JobKey(sk, st.spec.services[i].name, st.generation));
  }

  lemma KeptBy(s: Store, t: Store, keys: set<Key>, k: Key)
    requires Advances(s, t, keys) && k in s.objs
    ensures k in t.objs && Preserved(s.objs[k].obj, t.objs[k].obj)
  {
  }

  lemma {:induction false} NextStore(cfg: Config, s: Store, sk: Key, st: Object, backings: map<string, Backing>,
        i: nat, n: nat)
    requires st.Stack? && i < n <= |st.spec.services| && ServicesQ(cfg, s, sk, st, backings, n).result.Ok?
    ensures ServicesQ(cfg, s, sk, st, backings, i + 1).store ==
            ServiceQ(cfg, ServicesQ(cfg, s, sk, st, backings, i).store, sk, st, st.spec.services[i],
              Urls(sk, st.spec, |st.spec.services|), backings).store
  {
    hide ServiceQ, Urls;
    if i + 1 < n {
      NextStore(cfg, s, sk, st, backings, i, n - 1);
    }
  }

  lemma ActiveJob(cfg: Config, s: Store, sk: Key, st: Object, svc: ServiceSpec, urls: map<string, string>,
        backings: map<string, Backing>)
    requires Typed(s) && st.Stack? && ServiceQ(cfg, s, sk, st, svc, urls, backings).result == Ok(HookActive)
    ensures var t := ServiceQ(cfg, s, sk, st, svc, urls, backings).store; var k := JobKey(sk, svc.name, st.generation);
            k in t.objs && t.objs[k].obj.Job? && t.objs[k].obj.outcome == JobActive
  {
    hide Resolve, ProcessesQ;
  }

  /** Progress: while a service is held or waits for its hook, some gate is shut
      that its owner can open. */
  lemma StuckWaits(cfg: Config, cat: Catalog, u: Store, sk: Key, ledger: Ledger, fates: seq<Fate>) returns (g: Gate)
    requires Typed(u) && Settled(cfg, cat, u, sk, ledger, fates) && exists f | f in fates :: Stuck(f)
    ensures Waiting(u, sk, u.objs[sk].obj, g)
  {
    hide Settled, Typed, Waiting;
    var f :| f in fates && Stuck(f);
    var i :| 0 <= i < |fates| && fates[i] == f;
    if f == Held {
      g := HeldWaits(cfg, cat, u, sk, ledger, fates, i);
    } else {
      HookWaits(cfg, cat, u, sk, ledger, fates, i);
      SettledStack(cfg, cat, u, sk, ledger, fates);
      g := HookGate(i);
    }
  }

  lemma SettledStack(cfg: Config, cat: Catalog, u: Store, sk: Key, ledger: Ledger, fates: seq<Fate>)
    requires Settled(cfg, cat, u, sk, ledger, fates)
    ensures sk in u.objs && u.objs[sk].obj.Stack?
  {
  }

  // -------------------------------------------------------------------- one gate opens

  /** Labelled contents name their driver. */
  ghost predicate DriversNamed(s: Store) {
    forall k | k in s.objs && s.objs[k].obj.Content? :: DriverNamed(s.objs[k].obj)
  }

  /** They do in every run: whoever labels a content has read its driver. */
  lemma DriversAreNamed(cfg: Config, stores: seq<Store>, events: seq<Event>, n: nat)
    requires IsRun(cfg, stores, events) && n < |stores|
    ensures Typed(stores[n]) && DriversNamed(stores[n])
  {
    hide IsStep, Justified, Carries;
    RunTyped(cfg, stores, events, n);
    forall k | k in stores[n].objs && stores[n].objs[k].obj.Content? && stores[n].objs[k].obj.contentOwner != ""
      ensures stores[n].objs[k].obj.driver != ""
    {
      var w := Runs.LastWriter(cfg, stores, events, n, k);
      DriverRead(cfg, stores[..w + 1], k, events[w].patch, events[w].why, stores[n].objs[k].obj);
    }
  }

  lemma DriverRead(cfg: Config, stores: seq<Store>, k: Key, p: Patch, why: Reason, o: Object)
    requires Justified(cfg, stores, k, p, why) && Carries(cfg, p, o) && o.Content?
    ensures o.driver != ""
  {
    hide SourceTaken, SourceContent;
  }

  /** The one event that opens a waiting gate of a clone. */
  function CloneEvent(s: Store, sk: Key, st: Object, g: Gate): Event
    requires Typed(s) && st.Stack? && Waiting(s, sk, st, g)
    requires g.SourceGate? || g.HandleGate? || g.RestoreGate?
  {
    match g
    case SourceGate(i) =>
      var k := SourceKey(st, sk.ns, st.spec.backing[i].name);
      var o := s.objs[k].obj;
      StatusReported(k, o.(readyToUse := true, boundContent := OrDefault(o.boundContent, "snapcontent")))
    case HandleGate(i) =>
      var k := ContentKey(SourceContent(s, st, sk.ns, st.spec.backing[i].name));
      if k in s.objs && s.objs[k].obj.driver != "" then StatusReported(k, s.objs[k].obj.(statusHandle := "handle"))
      else Foreign(k, Content("", "rbd", "", "", "", "handle"))
    case RestoreGate(i) =>
      var k := SnapshotKey(sk.ns, RestoreName(st.spec.backing[i].name));
      StatusReported(k, s.objs[k].obj.(readyToUse := true))
  }

  /** The one event that opens a waiting gate. */
  function Opening(s: Store, sk: Key, st: Object, g: Gate): Event
    requires Typed(s) && st.Stack? && Waiting(s, sk, st, g)
  {
    match g
    case SourceGate(_) => CloneEvent(s, sk, st, g)
    case HandleGate(_) => CloneEvent(s, sk, st, g)
    case RestoreGate(_) => CloneEvent(s, sk, st, g)
    case SetGate(i) =>
      var k := SetKey(sk.ns, NameOf(sk, st.spec.backing[i]));
      StatusReported(k, s.objs[k].obj.(readyReplicas := 1))
    case RecoverGate(i) =>
      var k := ClusterKey(st.cloneNs, ParentCluster(st, st.spec.backing[i]));
      if k in s.objs then StatusReported(k, s.objs[k].obj.(recoverable := true))
      else Foreign(k, Cluster(None, "", "", InitDb, None, 0, true))
    case ParentGate(i) =>
      Foreign(ConfigMapKey(st.cloneNs, BackupName(ParentCluster(st, st.spec.backing[i]))),
              ConfigMap(map["BUCKET_NAME" := "bucket"]))
    case ClusterGate(i) =>
      var k := ClusterKey(sk.ns, NameOf(sk, st.spec.backing[i]));
      StatusReported(k, s.objs[k].obj.(readyInstances := 1))
    case BoundGate(i) =>
      var k := BucketKey(sk.ns, NameOf(sk, st.spec.backing[i]));
      StatusReported(k, s.objs[k].obj.(bound := true))
    case ConfigGate(i) =>
      Foreign(ConfigMapKey(sk.ns, NameOf(sk, st.spec.backing[i])), ConfigMap(map["BUCKET_NAME" := "bucket"]))
    case HookGate(i) =>
      var k := JobKey(sk, st.spec.services[i].name, st.generation);
      StatusReported(k, s.objs[k].obj.(outcome := JobComplete))
  }

  lemma OpeningImproves(s: Store, sk: Key, st: Object, g: Gate)
    requires Typed(s) && st.Stack? && Waiting(s, sk, st, g) && DriversNamed(s)
    ensures var ev := Opening(s, sk, st, g);
            (ev.StatusReported? || ev.Foreign?) && (ev.key in s.objs ==> Improved(s.objs[ev.key].obj, ev.obj))
  {
    hide BackingName, CloneName, RestoreName, BackupName;
  }

  /** A report of the kind that opens a gate. */
  predicate EngineReport(s: Store, ev: Event) {
    ev.StatusReported? && ev.key in s.objs &&
    var o := s.objs[ev.key].obj;
    match o
    case StatefulSet(_, _, _, _, _, _) => ev.obj == o.(readyReplicas := 1)
    case Cluster(_, _, _, _, _, _, _) => ev.obj == o.(recoverable := true) || ev.obj == o.(readyInstances := 1)
    case BucketClaim(_, _, _, _) => ev.obj == o.(bound := true)
    case Snapshot(_, _, _, bound) =>
      ev.obj.Snapshot? && ev.obj == o.(readyToUse := true, boundContent := ev.obj.boundContent) &&
      (ev.obj.boundContent == bound || ev.obj.boundContent == "snapcontent")
    case Content(_, driver, _, _, _, handle) => handle == "" && driver != "" && ev.obj == o.(statusHandle := "handle")
    case Job(_, _, _, outcome) => outcome == JobActive && ev.obj == o.(outcome := JobComplete)
    case _ => false
  }

  /** An object of the parent, or a bucket's ConfigMap, that comes to be there. */
  predicate Appearance(s: Store, ev: Event) {
    ev.Foreign? && KindOf(ev.obj) == ev.key.kind && OwnerOf(ev.obj) == None &&
    (ev.obj.Content? || ev.obj.Cluster? || ev.obj.ConfigMap?) &&
    (ev.key in s.objs ==> OwnerOf(s.objs[ev.key].obj) == None)
  }

  lemma CloneOpening(s: Store, sk: Key, st: Object, g: Gate)
    requires Typed(s) && st.Stack? && Waiting(s, sk, st, g) && DriversNamed(s)
    requires g.SourceGate? || g.HandleGate? || g.RestoreGate?
    ensures EngineReport(s, Opening(s, sk, st, g)) || Appearance(s, Opening(s, sk, st, g))
  {
    hide BackingName, CloneName, RestoreName, BackupName;
  }

  lemma TierOpening(s: Store, sk: Key, st: Object, g: Gate)
    requires Typed(s) && st.Stack? && Waiting(s, sk, st, g) && DriversNamed(s)
    requires !(g.SourceGate? || g.HandleGate? || g.RestoreGate?)
    ensures EngineReport(s, Opening(s, sk, st, g)) || Appearance(s, Opening(s, sk, st, g))
  {
    hide BackingName, CloneName, RestoreName, BackupName;
  }

  lemma OpeningShape(s: Store, sk: Key, st: Object, g: Gate)
    requires Typed(s) && st.Stack? && Waiting(s, sk, st, g) && DriversNamed(s)
    ensures EngineReport(s, Opening(s, sk, st, g)) || Appearance(s, Opening(s, sk, st, g))
  {
    hide Typed, DriversNamed, Waiting, Opening, EngineReport, Appearance;
    if g.SourceGate? || g.HandleGate? || g.RestoreGate? {
      CloneOpening(s, sk, st, g);
    } else {
      TierOpening(s, sk, st, g);
    }
  }

  lemma OpeningPossible(cfg: Config, s: Store, sk: Key, st: Object, g: Gate)
    requires Typed(s) && st.Stack? && Waiting(s, sk, st, g) && DriversNamed(s)
    ensures Possible(cfg, s, Opening(s, sk, st, g))
  {
    hide Typed, DriversNamed, Waiting, Opening, Possible, EngineReport, Appearance;
    var ev := Opening(s, sk, st, g);
    OpeningShape(s, sk, st, g);
    ReportPossible(cfg, s, ev);
  }

  lemma ReportPossible(cfg: Config, s: Store, ev: Event)
    requires EngineReport(s, ev) || Appearance(s, ev)
    ensures Possible(cfg, s, ev)
  {
  }

  lemma ReportEffect(cfg: Config, s: Store, ev: Event)
    requires ev.StatusReported? || ev.Foreign?
    ensures Effect(cfg, s, ev) == Put(s, ev.key, ev.obj)
  {
  }

  lemma OpeningMeets(s: Store, sk: Key, st: Object, g: Gate)
    requires Typed(s) && st.Stack? && Waiting(s, sk, st, g)
    requires Opening(s, sk, st, g).StatusReported? || Opening(s, sk, st, g).Foreign?
    ensures Met(Put(s, Opening(s, sk, st, g).key, Opening(s, sk, st, g).obj), sk, st, g)
  {
    hide BackingName, CloneName, RestoreName, BackupName;
  }

  lemma PutImproves(s: Store, k: Key, o: Object)
    requires k in s.objs ==> Improved(s.objs[k].obj, o)
    ensures Improves(s, Put(s, k, o))
  {
  }

  /** Every waiting gate is one report of an engine away from open, and that report
      shuts no other gate. */
  lemma GateOpens(cfg: Config, s: Store, sk: Key, st: Object, g: Gate, other: Gate)
    requires Typed(s) && st.Stack? && Waiting(s, sk, st, g) && DriversNamed(s) && InSpec(other, st.spec)
    ensures var ev := Opening(s, sk, st, g); var t := Effect(cfg, s, ev);
            (ev.StatusReported? || ev.Foreign?) && Possible(cfg, s, ev) && Met(t, sk, st, g) &&
            (Met(s, sk, st, other) ==> Met(t, sk, st, other))
  {
    hide Met, Offered, Opening, Improves, DriversNamed, Improved;
    var ev := Opening(s, sk, st, g);
    OpeningImproves(s, sk, st, g);
    OpeningPossible(cfg, s, sk, st, g);
    ReportEffect(cfg, s, ev);
    OpeningMeets(s, sk, st, g);
    PutImproves(s, ev.key, ev.obj);
    if Met(s, sk, st, other) {
      GateStays(s, Effect(cfg, s, ev), sk, st, other);
    }
  }

  /** In every run that event can come next. */
  lemma RunOpensGate(cfg: Config, stores: seq<Store>, events: seq<Event>, sk: Key, st: Object, g: Gate)
    returns (ev: Event, t: Store)
    requires IsRun(cfg, stores, events) && |stores| > 0 && st.Stack? && Waiting(stores[|stores| - 1], sk, st, g)
    ensures (ev.StatusReported? || ev.Foreign?) && IsRun(cfg, stores + [t], events + [ev])
    ensures Met(t, sk, st, g) &&
            forall other | InSpec(other, st.spec) && Met(stores[|stores| - 1], sk, st, other) :: Met(t, sk, st, other)
  {
    hide IsRun, Typed, DriversNamed, Offered, Met, Opening, Possible, Effect;
    var s := stores[|stores| - 1];
    DriversAreNamed(cfg, stores, events, |stores| - 1);
    ev := Opening(s, sk, st, g);
    t := Effect(cfg, s, ev);
    GateOpens(cfg, s, sk, st, g, g);
    forall other | InSpec(other, st.spec) && Met(s, sk, st, other) ensures Met(t, sk, st, other) {
      GateOpens(cfg, s, sk, st, g, other);
    }
    ExtendRun(cfg, stores, events, ev);
  }

  // ------------------------------------------------------------------------- the ranking

  ghost function MetGates(s: Store, sk: Key, st: Object): set<Gate>
    requires st.Stack?
  {
    set g | g in Gates(st.spec) && InSpec(g, st.spec) && Met(s, sk, st, g)
  }

  lemma GatesIgnoreStatus(s: Store, sk: Key, st: Object, st': Object, g: Gate)
    requires SameStack(st, st') && InSpec(g, st.spec)
    ensures Met(s, sk, st, g) == Met(s, sk, st', g)
  {
  }

  /** The surroundings between two passes: they keep the Stack's specification and
      every open gate, and if some gate waits they open one that was shut. */
  ghost predicate Surroundings(u: Store, e: Store, sk: Key, st: Object)
    requires st.Stack?
  {
    (forall g | InSpec(g, st.spec) && Met(u, sk, st, g) :: Met(e, sk, st, g)) &&
    ((exists g :: Waiting(u, sk, st, g)) ==> exists g | InSpec(g, st.spec) :: !Met(u, sk, st, g) && Met(e, sk, st, g))
  }

  /** A successful pass from `e` to `u` over the Stack `st`, whatever its status. */
  ghost predicate Pass(cfg: Config, cat: Catalog, e: Store, u: Store, sk: Key, st: Object) {
    sk.kind == StackKind && Typed(e) && Find(e, sk).Some? && SameStack(st, e.objs[sk].obj) &&
    ChildrenApart(cat, sk, e.objs[sk].obj) && SafeDefs(cat, e.objs[sk].obj) &&
    ClonesSettle(cat, e, sk, e.objs[sk].obj) &&
    ReconcileQ(cfg, cat, e, sk).result.Ok? && ReconcileQ(cfg, cat, e, sk).store == u
  }

  /** Every service with an image is rolled out, unless its release Job failed. */
  ghost predicate Up(cfg: Config, cat: Catalog, u: Store, sk: Key) {
    exists ledger, fates :: Settled(cfg, cat, u, sk, ledger, fates) && forall f | f in fates :: !Stuck(f)
  }

  /** What being up means for a service with an image: its release Job, if it has a
      hook, has finished, and every connection that leads to a provisioned backing
      leads to one that is ready. */
  lemma UpServes(cfg: Config, cat: Catalog, u: Store, sk: Key, i: nat, c: nat)
    requires Typed(u) && sk in u.objs && u.objs[sk].obj.Stack? && Up(cfg, cat, u, sk)
    requires i < |u.objs[sk].obj.spec.services| && u.objs[sk].obj.spec.services[i].image != ""
    ensures var st := u.objs[sk].obj; var svc := st.spec.services[i];
            HasHook(svc) ==> JobFinished(u, JobKey(sk, svc.name, st.generation))
    ensures var st := u.objs[sk].obj; var svc := st.spec.services[i];
            c < |svc.connections| && !IsServiceEdge(st.spec, svc.connections[c].target) &&
            (exists j | 0 <= j < |st.spec.backing| ::
               st.spec.backing[j].name == svc.connections[c].target && Provisions(cat.Keys, st.spec.backing[j])) ==>
              exists j | 0 <= j < |st.spec.backing| ::
                st.spec.backing[j].name == svc.connections[c].target &&
                BackingReady(u, sk.ns, sk.name, st.spec.backing[j])
  {
    hide Typed, ProvisionAll, ProvisionQ, Scheduled, ServicesQ, Assessed, Urls, Resolve, ServiceQ, Advances,
         BackingReady, Provisions;
    var st := u.objs[sk].obj;
    var n, svc := |st.spec.services|, st.spec.services[i];
    var urls := Urls(sk, st.spec, n);
    var ledger, fates :| Settled(cfg, cat, u, sk, ledger, fates) && forall f | f in fates :: !Stuck(f);
    FateCount(cfg, u, sk, st, ledger.backings, n);
    FateAt(cfg, u, sk, st, ledger.backings, i, n);
    assert fates[i] in fates;
    var s := ServicesQ(cfg, u, sk, st, ledger.backings, i).store;
    FateMeans(cfg, s, sk, st, svc, urls, ledger.backings);
    StoreAdvances(cfg, u, sk, st, ledger.backings, i, n);
    if HasHook(svc) {
      KeptBy(s, u, Union(ServiceRungs(sk, st, n)[i..n]), JobKey(sk, svc.name, st.generation));
    }
    if c < |svc.connections| && !IsServiceEdge(st.spec, svc.connections[c].target) {
      var target := svc.connections[c].target;
      UrlsAreServiceEdges(sk, st.spec, n, target);
      LedgerHas(cfg, cat, u, sk, st, |st.spec.backing|, target);
      assert !Blocks(urls, ledger.backings, target);
      if target in ledger.backings {
        var j := EntryFrom(cfg, cat, u, sk, st, |st.spec.backing|, target);
        GateAgrees(cfg, cat, u, sk, st, st.spec.backing[j]);
      }
    }
  }

  lemma FateMeans(cfg: Config, s: Store, sk: Key, st: Object, svc: ServiceSpec, urls: map<string, string>,
        backings: map<string, Backing>)
    requires st.Stack? && svc.image != "" && ServiceQ(cfg, s, sk, st, svc, urls, backings).result.Ok?
    requires !Stuck(ServiceQ(cfg, s, sk, st, svc, urls, backings).result.value)
    ensures forall c | 0 <= c < |svc.connections| :: !Blocks(urls, backings, svc.connections[c].target)
    ensures HasHook(svc) ==> JobFinished(s, JobKey(sk, svc.name, st.generation))
  {
    hide ProcessesQ;
    WaitsForBacking(cfg, urls, backings, svc, |svc.connections|);
  }

  lemma StoreAdvances(cfg: Config, u: Store, sk: Key, st: Object, backings: map<string, Backing>, i: nat, n: nat)
    requires Typed(u) && st.Stack? && i < n == |st.spec.services| && ServicesQ(cfg, u, sk, st, backings, n).store == u
    ensures Advances(ServicesQ(cfg, u, sk, st, backings, i).store, u, Union(ServiceRungs(sk, st, n)[i..n]))
  {
    hide Typed, ServicesQ, Advances, Ladder;
    ServiceLadder(cfg, u, sk, st, backings, n);
    LadderAdvances(ServiceStores(cfg, u, sk, st, backings, n), ServiceRungs(sk, st, n), i, n);
  }

  lemma PassKeepsGates(cfg: Config, cat: Catalog, e: Store, u: Store, sk: Key, st: Object)
    requires st.Stack? && Pass(cfg, cat, e, u, sk, st)
    ensures Typed(u) && MetGates(e, sk, st) <= MetGates(u, sk, st)
  {
    hide Typed, Advances, ReconcileQ, ChildrenApart, SafeDefs, ClonesSettle, Met, Gates, Went;
    var h := PassGoes(cfg, cat, e, sk, u, ReconcileQ(cfg, cat, e, sk).result.value);
    var keys := PassAdvances(cfg, cat, e, sk, h);
    AdvancesImproves(e, u, keys);
    forall g | g in MetGates(e, sk, st) ensures g in MetGates(u, sk, st) {
      GateStays(e, u, sk, st, g);
    }
  }

  lemma PassKeepsStack(cfg: Config, cat: Catalog, e: Store, u: Store, sk: Key, st: Object)
    requires st.Stack? && Pass(cfg, cat, e, u, sk, st)
    ensures Typed(u) && sk in u.objs && SameStack(st, u.objs[sk].obj)
  {
    hide Typed, ReconcileQ, ChildrenApart, SafeDefs, ClonesSettle, Went, NextStatus;
    var h := PassGoes(cfg, cat, e, sk, u, ReconcileQ(cfg, cat, e, sk).result.value);
    StatusWrites(cfg, cat, e, sk, h);
  }

  /** After a pass the Stack is up, or a gate waits. */
  lemma UpOrWaiting(cfg: Config, cat: Catalog, e: Store, u: Store, sk: Key, st: Object)
    requires st.Stack? && Pass(cfg, cat, e, u, sk, st)
    ensures Up(cfg, cat, u, sk) || exists g :: Waiting(u, sk, st, g)
  {
    hide Typed, ReconcileQ, ChildrenApart, SafeDefs, ClonesSettle, Met, Offered, Settled, Went;
    PassKeepsGates(cfg, cat, e, u, sk, st);
    var h := PassGoes(cfg, cat, e, sk, u, ReconcileQ(cfg, cat, e, sk).result.value);
    PassSettles(cfg, cat, e, sk, h);
    if forall f | f in h.fates :: !Stuck(f) {
      assert Up(cfg, cat, u, sk);
    } else {
      var g := StuckWaits(cfg, cat, u, sk, h.ledger, h.fates);
      GatesIgnoreStatus(u, sk, st, u.objs[sk].obj, g);
      OfferedIgnoresStatus(u, sk, st, u.objs[sk].obj, g);
      assert Waiting(u, sk, st, g);
    }
  }

  lemma OfferedIgnoresStatus(s: Store, sk: Key, st: Object, st': Object, g: Gate)
    requires SameStack(st, st') && InSpec(g, st.spec)
    ensures Offered(s, sk, st, g) == Offered(s, sk, st', g)
  {
  }

  /** Each round without success opens a gate for good. */
  lemma {:induction false} Climb(cfg: Config, cats: seq<Catalog>, es: seq<Store>, us: seq<Store>, sk: Key, st: Object,
        k: nat)
    requires st.Stack? && k < |es| == |us| == |cats|
    requires forall i | 0 <= i < |es| :: Pass(cfg, cats[i], es[i], us[i], sk, st)
    requires forall i | 0 <= i < |es| - 1 :: Surroundings(us[i], es[i + 1], sk, st)
    requires forall i | 0 <= i <= k :: !Up(cfg, cats[i], us[i], sk)
    ensures |MetGates(us[k], sk, st)| >= k
  {
    hide Pass, Up, Met, Gates, Waiting;
    if k > 0 {
      Climb(cfg, cats, es, us, sk, st, k - 1);
      UpOrWaiting(cfg, cats[k - 1], es[k - 1], us[k - 1], sk, st);
      PassKeepsGates(cfg, cats[k], es[k], us[k], sk, st);
      assert Surroundings(us[k - 1], es[k], sk, st);
      var g :| InSpec(g, st.spec) && !Met(us[k - 1], sk, st, g) && Met(es[k], sk, st, g);
      GatesAre(st.spec, g);
      var before, after := MetGates(us[k - 1], sk, st), MetGates(es[k], sk, st);
      assert before + {g} <= after && g !in before;
      Smaller(before + {g}, after);
      Smaller(after, MetGates(us[k], sk, st));
    }
  }

  lemma Smaller<T>(a: set<T>, b: set<T>)
    requires a <= b
    ensures |a| <= |b|
  {
    assert b == a + (b - a);
  }

  /** Convergence: with the specification fixed and surroundings that keep what
      they have done, no more rounds than the Stack has gates (nine for a backing,
      one for a service) can pass before every service with an image is rolled
      out, save those whose release Job failed. */
  lemma Converges(cfg: Config, cats: seq<Catalog>, es: seq<Store>, us: seq<Store>, sk: Key, st: Object) returns (k: nat)
    requires st.Stack? && |es| == |us| == |cats| > 9 * |st.spec.backing| + |st.spec.services| + 1
    requires forall i | 0 <= i < |es| :: Pass(cfg, cats[i], es[i], us[i], sk, st)
    requires forall i | 0 <= i < |es| - 1 :: Surroundings(us[i], es[i + 1], sk, st)
    ensures k < |us| && Up(cfg, cats[k], us[k], sk)
  {
    hide Pass, Up, Met, Surroundings;
    var last := |us| - 1;
    if forall i | 0 <= i <= last :: !Up(cfg, cats[i], us[i], sk) {
      Climb(cfg, cats, es, us, sk, st, last);
      GatesAre(st.spec, SetGate(0));
      Smaller(MetGates(us[last], sk, st), Gates(st.spec));
      assert false;
    } else {
      k :| 0 <= k <= last && Up(cfg, cats[k], us[k], sk);
    }
  }
}
