/** A Stack whose objects nobody else claims comes up: passes succeed, and each
    leaves an engine with one report to make, until every service is out. */
module Liveness {
  import opened Wrappers
  import opened Names
  import opened Objects
  import opened Clusters
  import opened Snapshots
  import opened Volumes
  import opened Bindings
  import opened Catalogs
  import opened Tiers
  import opened Backings
  import opened Services
  import opened Reconcilers
  import opened Settling
  import opened SettlingTiers
  import opened Idempotence
  import opened Passes
  import opened Sharing
  import opened Convergence

  // -------------------------------------------------------------------- calls succeed

  /** SetControllerReference of this Stack does not refuse the object; a release
      Job is only read. */
  predicate Unclaimed(o: Object, stack: string) {
    o.Snapshot? || o.Content? || o.Job? || OwnerOf(o) == None || OwnerOf(o) == Some(stack)
  }

  /** Nobody else claims what is under these keys. */
  ghost predicate Ours(s: Store, sk: Key, keys: set<Key>) {
    Typed(s) && forall k | k in keys && k in s.objs :: Unclaimed(s.objs[k].obj, sk.name)
  }

  predicate IsClonePatch(p: Patch) { p.SourceSnapshot? || p.StaticContent? || p.RestoreSnapshot? }

  /** The values of a template Secret render, whatever its password. */
  ghost predicate ValuesRender(cfg: Config, def: ServiceDefinition, host: string) {
    forall password :: Renders(cfg, def, TemplateData(host, def.port, password))
  }

  /** The calls a pass over the Stack makes under these keys. */
  ghost predicate OwnCall(cfg: Config, sk: Key, keys: set<Key>, k: Key, p: Patch) {
    k.kind == PatchKind(p) && StackPatch(p) && (IsClonePatch(p) || (k in keys && p.stack == sk.name)) &&
    (p.TemplatedSecret? ==> ValuesRender(cfg, p.def, p.host))
  }

  ghost predicate Goes<T>(o: Outcome<T>, sk: Key, keys: set<Key>) { o.result.Ok? && Ours(o.store, sk, keys) }

  lemma ApplyGoes(cfg: Config, s: Store, sk: Key, keys: set<Key>, k: Key, p: Patch)
    requires Ours(s, sk, keys) && OwnCall(cfg, sk, keys, k, p)
    ensures Goes(Apply(cfg, s, k, p), sk, keys) && Advances(s, Apply(cfg, s, k, p).store, {k})
    ensures k in Apply(cfg, s, k, p).store.objs && Apply(cfg, s, k, p).result.value == Apply(cfg, s, k, p).store.objs[k]
    ensures KindOf(Apply(cfg, s, k, p).result.value.obj) == k.kind
  {
    hide Advances, Mutate, Unclaimed, ValuesRender;
    MutateGoes(cfg, p, Find(s, k), sk.name);
    ApplyAdvances(cfg, s, k, p);
  }

  lemma MutateGoes(cfg: Config, p: Patch, base: Option<Object>, stack: string)
    requires StackPatch(p) && (!IsClonePatch(p) ==> p.stack == stack)
    requires p.TemplatedSecret? ==> ValuesRender(cfg, p.def, p.host)
    requires base.Some? ==> KindOf(base.value) == PatchKind(p) && (!IsClonePatch(p) ==> Unclaimed(base.value, stack))
    ensures Mutate(cfg, p, base).Ok? && Unclaimed(Mutate(cfg, p, base).value, stack)
  {
    hide SecretFinal, Renders;
  }

  lemma SeedingGoes(cfg: Config, s: Store, sk: Key, keys: set<Key>, st: Object, b: string)
    requires Ours(s, sk, keys) && st.Stack?
    ensures Goes(Seeding(cfg, s, sk, st, b), sk, keys)
  {
    hide CloneRestore, Ours;
    if IsPreviewClone(st) {
      CloneGoes(cfg, s, sk, keys, st, b);
    }
  }

  lemma CloneGoes(cfg: Config, s: Store, sk: Key, keys: set<Key>, st: Object, b: string)
    requires Ours(s, sk, keys) && st.Stack? && IsPreviewClone(st)
    ensures Goes(CloneRestore(cfg, s, st, sk.ns, b), sk, keys)
  {
    hide Apply, Advances, CloneRestore, Ours, OwnCall;
    OursTyped(s, sk, keys);
    CloneIs(cfg, s, st, sk.ns, b);
    CloneCalls(cfg, sk, keys, st, b, Seen(s, st, sk.ns, b));
    SourceLeft(cfg, s, st, sk.ns, b);
    ApplyGoes(cfg, s, sk, keys, SourceKey(st, sk.ns, b), SourceSnapshot(sk.ns, ClaimName(st.cloneStack, b)));
    var src := AfterSource(cfg, s, st, sk.ns, b);
    if Seen(s, st, sk.ns, b).Some? {
      var x := Seen(s, st, sk.ns, b).value;
      ApplyGoes(cfg, src, sk, keys, ContentKey(CloneName(sk.ns, b)), SharePatch(sk.ns, b, x));
      ApplyGoes(cfg, Apply(cfg, src, ContentKey(CloneName(sk.ns, b)), SharePatch(sk.ns, b, x)).store, sk, keys,
        SnapshotKey(sk.ns, RestoreName(b)), RestoreSnapshot(sk.ns, CloneName(sk.ns, b)));
    }
  }

  lemma OursTyped(s: Store, sk: Key, keys: set<Key>)
    requires Ours(s, sk, keys)
    ensures Typed(s)
  {
  }

  lemma CloneCalls(cfg: Config, sk: Key, keys: set<Key>, st: Object, b: string, x: Option<Share>)
    requires st.Stack?
    ensures OwnCall(cfg, sk, keys, SourceKey(st, sk.ns, b), SourceSnapshot(sk.ns, ClaimName(st.cloneStack, b)))
    ensures x.Some? && x.value.driver != "" ==>
              OwnCall(cfg, sk, keys, ContentKey(CloneName(sk.ns, b)), SharePatch(sk.ns, b, x.value))
    ensures OwnCall(cfg, sk, keys, SnapshotKey(sk.ns, RestoreName(b)), RestoreSnapshot(sk.ns, CloneName(sk.ns, b)))
  {
  }

  lemma LabelGoes(s: Store, sk: Key, keys: set<Key>, b: string)
    requires Ours(s, sk, keys)
    ensures Ours(BackupLabelled(s, sk.ns, sk.name, b), sk, keys)
  {
  }

  lemma SetTierGoes(cfg: Config, s: Store, sk: Key, keys: set<Key>, st: Object, b: BackingSpec, secret: Patch,
        service: Patch, persistent: bool, claim: Seed -> Patch, labelled: bool)
    requires Ours(s, sk, keys) && st.Stack? && SetKey(sk.ns, NameOf(sk, b)) in keys
    requires OwnCall(cfg, sk, keys, SecretKey(sk.ns, NameOf(sk, b)), secret)
    requires OwnCall(cfg, sk, keys, Clusters.ServiceKey(sk.ns, NameOf(sk, b)), service)
    requires forall seed :: claim(seed).BackingSet? && claim(seed).stack == sk.name
    ensures Goes(SetTierQ(cfg, s, sk, st, b, secret, service, persistent, claim, labelled), sk, keys)
  {
    hide Apply, Ours, Advances, Seeding, BackupLabelled, ValuesRender;
    var name := NameOf(sk, b);
    ApplyGoes(cfg, s, sk, keys, SecretKey(sk.ns, name), secret);
    var sec := Apply(cfg, s, SecretKey(sk.ns, name), secret);
    ApplyGoes(cfg, sec.store, sk, keys, Clusters.ServiceKey(sk.ns, name), service);
    var svc := Apply(cfg, sec.store, Clusters.ServiceKey(sk.ns, name), service);
    SeedingGoes(cfg, svc.store, sk, keys, st, b.name);
    var seed := if persistent then Seeding(cfg, svc.store, sk, st, b.name) else Outcome(svc.store, Ok(Fresh));
    ApplyGoes(cfg, seed.store, sk, keys, SetKey(sk.ns, name), claim(seed.result.value));
    LabelGoes(Apply(cfg, seed.store, SetKey(sk.ns, name), claim(seed.result.value)).store, sk, keys, b.name);
  }

  lemma BucketGoes(cfg: Config, s: Store, sk: Key, keys: set<Key>, name: string)
    requires Ours(s, sk, keys) && BucketKey(sk.ns, name) in keys
    ensures Goes(EnsureBucketQ(cfg, s, sk, name), sk, keys)
  {
    hide Apply, Ours, Advances;
    ApplyGoes(cfg, s, sk, keys, BucketKey(sk.ns, name), BucketPatch(cfg, sk, name));
  }

  /** The parent of a cloned postgres keeps its backup credentials. */
  predicate CredsFor(s: Store, st: Object, b: BackingSpec)
    requires st.Stack?
  {
    IsPostgres(b.kind) && IsPgClone(st, b) ==> Find(s, SecretKey(st.cloneNs, BackupName(ParentCluster(st, b)))).Some?
  }

  lemma BootstrapGoes(cfg: Config, s: Store, sk: Key, keys: set<Key>, st: Object, b: BackingSpec)
    requires Ours(s, sk, keys) && st.Stack? && IsPostgres(b.kind) && CredsFor(s, st, b) &&
             PostgresKeys(sk, st, b) <= keys
    ensures Goes(ChooseBootstrapQ(cfg, s, sk, st, b), sk, keys)
  {
    hide Apply, Ours, Advances, ParentBucketQ, Lower;
    if IsPgClone(st, b) {
      assert CredsKey(sk, b) in PostgresKeys(sk, st, b);
      var src := Find(s, SecretKey(st.cloneNs, BackupName(ParentCluster(st, b))));
      ApplyGoes(cfg, s, sk, keys, CredsKey(sk, b), CredsPatch(sk, src.value.data));
    }
  }

  lemma PostgresGoes(cfg: Config, s: Store, sk: Key, keys: set<Key>, st: Object, b: BackingSpec)
    requires Ours(s, sk, keys) && st.Stack? && IsPostgres(b.kind) && CredsFor(s, st, b) &&
             PostgresKeys(sk, st, b) <= keys
    ensures Goes(PostgresQ(cfg, s, sk, st, b), sk, keys)
  {
    hide Apply, Ours, Advances, ChooseBootstrapQ, EnsureBucketQ, Lower, CredsFor;
    BootstrapGoes(cfg, s, sk, keys, st, b);
    var boot := ChooseBootstrapQ(cfg, s, sk, st, b);
    if boot.result.value.Some? {
      var name := NameOf(sk, b);
      var k, l := ClusterKey(sk.ns, name), Key(ScheduledBackupKind, sk.ns, name);
      assert k in PostgresKeys(sk, st, b) && l in PostgresKeys(sk, st, b);
      if b.backup && !IsPgClone(st, b) {
        assert BucketKey(sk.ns, BackupName(name)) in PostgresKeys(sk, st, b);
        BucketGoes(cfg, boot.store, sk, keys, BackupName(name));
      }
      var bucket := ArchiveQ(cfg, boot.store, sk, st, b);
      var p := PgPatch(sk, b, boot.result.value.value, bucket.result.value);
      ApplyGoes(cfg, bucket.store, sk, keys, k, p);
      ApplyGoes(cfg, Apply(cfg, bucket.store, k, p).store, sk, keys, l, BaseBackup(sk.name, name));
    }
  }

  /** A fallback has a port. */
  predicate Ported(cat: Catalog, b: BackingSpec) {
    !IsPostgres(b.kind) && !IsObjectStore(b.kind) && Lookup(cat, b.kind).None? && b.image != "" ==> b.port != 0
  }

  /** The descriptor the backing is provisioned from, if any, renders for it. */
  ghost predicate Renderable(cfg: Config, cat: Catalog, sk: Key, b: BackingSpec) {
    !IsPostgres(b.kind) && !IsObjectStore(b.kind) && Lookup(cat, b.kind).Some? ==>
      ImageOf(cfg, b, Lookup(cat, b.kind).value).Ok? &&
      ValuesRender(cfg, Lookup(cat, b.kind).value, ServiceHost(NameOf(sk, b), sk.ns))
  }

  lemma ProvisionGoes(cfg: Config, cat: Catalog, s: Store, sk: Key, keys: set<Key>, st: Object, b: BackingSpec)
    requires Ours(s, sk, keys) && st.Stack? && CredsFor(s, st, b) && Ported(cat, b) && Renderable(cfg, cat, sk, b)
    requires BackingKeys(cat, sk, st, b) <= keys
    ensures Goes(ProvisionQ(cfg, cat, s, sk, st, b), sk, keys)
  {
    hide Ours, PostgresQ, EnsureBucketQ, TemplatedQ, FallbackQ, SetTierQ, Lower, ValuesRender, PostgresKeys;
    if IsPostgres(b.kind) {
      PostgresGoes(cfg, s, sk, keys, st, b);
    } else if IsObjectStore(b.kind) {
      BucketGoes(cfg, s, sk, keys, NameOf(sk, b));
    } else if Lookup(cat, b.kind).Some? {
      var def := Lookup(cat, b.kind).value;
      SetTierOwns(sk, st, b, keys, HasVolume(cat, b));
      TemplatedIsTier(cfg, s, sk, st, b, def);
      SetTierGoes(cfg, s, sk, keys, st, b, SecretPatch(cfg, sk, b, def),
        EndpointPatch(sk, b, OrDefault(def.portName, def.kind), def.port), def.persistence.Some?,
        seed => TemplateSetPatch(sk, b, def, ImageOf(cfg, b, def).value, seed),
        def.persistence.Some? && b.backup && !IsPreviewClone(st));
    } else if b.image != "" {
      SetTierOwns(sk, st, b, keys, HasVolume(cat, b));
      FallbackIsTier(cfg, s, sk, st, b);
      SetTierGoes(cfg, s, sk, keys, st, b, AddressPatch(sk, b),
        EndpointPatch(sk, b, "svc", b.port), true, seed => FallbackSetPatch(cfg, sk, b, seed),
        b.backup && !IsPreviewClone(st));
    }
  }

  lemma SetTierOwns(sk: Key, st: Object, b: BackingSpec, keys: set<Key>, persistent: bool)
    requires st.Stack? && SetTierKeys(sk, st, b, persistent) <= keys
    ensures SecretKey(sk.ns, NameOf(sk, b)) in keys && Clusters.ServiceKey(sk.ns, NameOf(sk, b)) in keys
    ensures SetKey(sk.ns, NameOf(sk, b)) in keys
  {
    assert SecretKey(sk.ns, NameOf(sk, b)) in EndpointKeys(sk, b) &&
           Clusters.ServiceKey(sk.ns, NameOf(sk, b)) in EndpointKeys(sk, b);
    assert SetKey(sk.ns, NameOf(sk, b)) in SetKeys(sk, b);
  }

  predicate CredsThere(s: Store, st: Object)
    requires st.Stack?
  {
    forall i | 0 <= i < |st.spec.backing| :: CredsFor(s, st, st.spec.backing[i])
  }

  lemma CredsStay(s: Store, t: Store, st: Object, keys: set<Key>)
    requires Typed(s) && Typed(t) && st.Stack? && CredsThere(s, st) && Advances(s, t, keys)
    ensures CredsThere(t, st)
  {
    hide Lower;
    forall i | 0 <= i < |st.spec.backing| ensures CredsFor(t, st, st.spec.backing[i]) {
      var k := SecretKey(st.cloneNs, BackupName(ParentCluster(st, st.spec.backing[i])));
      assert CredsFor(s, st, st.spec.backing[i]);
      if k in s.objs {
        assert Preserved(s.objs[k].obj, t.objs[k].obj);
      }
    }
  }

  /** Everything a pass over the Stack writes. */
  function PassKeys(cat: Catalog, sk: Key, st: Object): set<Key>
    requires st.Stack?
  {
    Union(BackingRungs(cat, sk, st, |st.spec.backing|)) + LateKeys(sk, st)
  }

  lemma PassKeysCover(cat: Catalog, sk: Key, st: Object)
    requires st.Stack?
    ensures forall i | 0 <= i < |st.spec.backing| ::
      BackingKeys(cat, sk, st, st.spec.backing[i]) <= PassKeys(cat, sk, st)
    ensures forall i | 0 <= i < |st.spec.services| :: ServiceKeys(sk, st, st.spec.services[i]) <= PassKeys(cat, sk, st)
    ensures ScheduleKey(sk) in PassKeys(cat, sk, st) && sk in PassKeys(cat, sk, st)
  {
    hide BackingKeys, ServiceKeys;
    forall i, k | 0 <= i < |st.spec.backing| && k in BackingKeys(cat, sk, st, st.spec.backing[i])
      ensures k in PassKeys(cat, sk, st) {
      InUnion(BackingRungs(cat, sk, st, |st.spec.backing|), k);
      assert k in BackingRungs(cat, sk, st, |st.spec.backing|)[i];
    }
    forall i, k | 0 <= i < |st.spec.services| && k in ServiceKeys(sk, st, st.spec.services[i])
      ensures k in PassKeys(cat, sk, st) {
      InUnion(ServiceRungs(sk, st, |st.spec.services|), k);
      assert k in ServiceRungs(sk, st, |st.spec.services|)[i];
    }
  }

  lemma {:induction false} BackingsGo(cfg: Config, cat: Catalog, s: Store, sk: Key, keys: set<Key>, st: Object, n: nat)
    requires Ours(s, sk, keys) && st.Stack? && n <= |st.spec.backing| && CredsThere(s, st)
    requires forall i | 0 <= i < |st.spec.backing| ::
               Ported(cat, st.spec.backing[i]) && Renderable(cfg, cat, sk, st.spec.backing[i]) &&
               BackingKeys(cat, sk, st, st.spec.backing[i]) <= keys
    ensures Goes(ProvisionAll(cfg, cat, s, sk, st, n), sk, keys) &&
            CredsThere(ProvisionAll(cfg, cat, s, sk, st, n).store, st)
  {
    hide ProvisionQ, CredsFor, Ported, Renderable, Advances, BackingKeys, Unclaimed;
    if n > 0 {
      BackingsGo(cfg, cat, s, sk, keys, st, n - 1);
      var before := ProvisionAll(cfg, cat, s, sk, st, n - 1).store;
      ProvisionGoes(cfg, cat, before, sk, keys, st, st.spec.backing[n - 1]);
      BackingTyped(cfg, cat, s, sk, st, n);
      CredsStay(before, ProvisionAll(cfg, cat, s, sk, st, n).store, st,
                BackingKeys(cat, sk, st, st.spec.backing[n - 1]));
    }
  }

  lemma HookGoes(cfg: Config, s: Store, sk: Key, keys: set<Key>, st: Object, svc: ServiceSpec, env: seq<EnvVar>)
    requires Ours(s, sk, keys) && st.Stack?
    ensures Goes(ReleaseGateQ(cfg, s, sk, st, svc, env), sk, keys)
  {
  }

  lemma ProcessGoes(cfg: Config, s: Store, sk: Key, keys: set<Key>, svc: ServiceSpec, p: ProcessSpec, env: seq<EnvVar>)
    requires Ours(s, sk, keys) && ProcessKeys(sk, svc, p) <= keys
    ensures Goes(ProcessQ(cfg, s, sk, svc, p, env), sk, keys)
  {
    hide Apply, Ours, Advances, ProcessContainer;
    var name := ProcessName(sk.name, svc.name, p.name);
    var k, l := DeploymentKey(sk.ns, name), Clusters.ServiceKey(sk.ns, name);
    assert k in ProcessKeys(sk, svc, p) && l in ProcessKeys(sk, svc, p);
    ApplyGoes(cfg, s, sk, keys, k, ProcessPatch(cfg, sk, svc, p, env));
    var dep := Apply(cfg, s, k, ProcessPatch(cfg, sk, svc, p, env));
    ApplyGoes(cfg, dep.store, sk, keys, l, ServicePatch(sk, svc, p));
  }

  lemma {:induction false} RolloutGoes(cfg: Config, s: Store, sk: Key, keys: set<Key>, svc: ServiceSpec,
        env: seq<EnvVar>, n: nat)
    requires Ours(s, sk, keys) && n <= |svc.processes| && Union(ProcessRungs(sk, svc, |svc.processes|)) <= keys
    ensures Goes(ProcessesQ(cfg, s, sk, svc, env, n), sk, keys)
  {
    hide Ours, ProcessQ, ProcessKeys;
    if n > 0 {
      RolloutGoes(cfg, s, sk, keys, svc, env, n - 1);
      forall k | k in ProcessKeys(sk, svc, svc.processes[n - 1]) ensures k in keys {
        InUnion(ProcessRungs(sk, svc, |svc.processes|), k);
        assert k in ProcessRungs(sk, svc, |svc.processes|)[n - 1];
      }
      ProcessGoes(cfg, ProcessesQ(cfg, s, sk, svc, env, n - 1).store, sk, keys, svc, svc.processes[n - 1], env);
    }
  }

  lemma {:induction false} ServicesGo(cfg: Config, s: Store, sk: Key, keys: set<Key>, st: Object,
        backings: map<string, Backing>, n: nat)
    requires Ours(s, sk, keys) && st.Stack? && n <= |st.spec.services|
    requires forall i | 0 <= i < |st.spec.services| :: ServiceKeys(sk, st, st.spec.services[i]) <= keys
    ensures Goes(ServicesQ(cfg, s, sk, st, backings, n), sk, keys)
  {
    hide Ours, ReleaseGateQ, ProcessesQ, Resolve, Urls, ProcessRungs;
    if n > 0 {
      ServicesGo(cfg, s, sk, keys, st, backings, n - 1);
      var before, svc := ServicesQ(cfg, s, sk, st, backings, n - 1).store, st.spec.services[n - 1];
      var env := Resolve(cfg, Urls(sk, st.spec, |st.spec.services|), backings, svc, |svc.connections|).env;
      HookGoes(cfg, before, sk, keys, st, svc, env);
      var gate := if HasHook(svc) then ReleaseGateQ(cfg, before, sk, st, svc, env)
                  else Outcome(before, Ok(JobComplete));
      assert ServiceKeys(sk, st, svc) <= keys;
      RolloutGoes(cfg, gate.store, sk, keys, svc, env, |svc.processes|);
    }
  }

  // -------------------------------------------------------------------- passes succeed

  /** What the spec must be like: its parts write different keys, its fallbacks have
      a port, and its descriptors render and do not render the password. */
  ghost predicate Workable(cfg: Config, cat: Catalog, sk: Key, st: Object)
    requires st.Stack?
  {
    ChildrenApart(cat, sk, st) && SafeDefs(cat, st) &&
    forall i | 0 <= i < |st.spec.backing| ::
      Ported(cat, st.spec.backing[i]) && Renderable(cfg, cat, sk, st.spec.backing[i])
  }

  /** What the store must be like: nobody else claims what the pass writes, labelled
      contents name their driver, and a preview's parent is there to be cloned. */
  ghost predicate Sane(cat: Catalog, s: Store, sk: Key, st: Object) {
    sk.kind == StackKind && sk in s.objs && SameStack(st, s.objs[sk].obj) && Ours(s, sk, PassKeys(cat, sk, st)) &&
    CredsThere(s, st) && DriversNamed(s) && (IsPreviewClone(st) ==> ForeignSources(s, sk, st))
  }

  lemma PassSucceeds(cfg: Config, cat: Catalog, s: Store, sk: Key) returns (g: Stages)
    requires sk.kind == StackKind && sk in s.objs && s.objs[sk].obj.Stack? &&
             Ours(s, sk, PassKeys(cat, sk, s.objs[sk].obj))
    requires Workable(cfg, cat, sk, s.objs[sk].obj) && CredsThere(s, s.objs[sk].obj)
    ensures Went(cfg, cat, s, sk, g) && Ours(g.done, sk, PassKeys(cat, sk, s.objs[sk].obj))
    ensures ReconcileQ(cfg, cat, s, sk) == Outcome(g.done, Ok(Held in g.fates || g.ledger.pending))
  {
    hide ProvisionAll, ServicesQ, CredsFor, Ported, Renderable, SafeDefs, NextStatus, Advances, Unclaimed, CredsThere,
      BackingRungs, ServiceRungs, BackingKeys, ServiceKeys, ChildrenApart, PassKeys;
    var st := s.objs[sk].obj;
    var keys := PassKeys(cat, sk, st);
    PassKeysCover(cat, sk, st);
    BackingsGo(cfg, cat, s, sk, keys, st, |st.spec.backing|);
    var all := ProvisionAll(cfg, cat, s, sk, st, |st.spec.backing|);
    ScheduleGoes(cfg, all.store, sk, keys, st);
    var scheduled := Scheduled(cfg, all.store, sk, st);
    ServicesGo(cfg, scheduled, sk, keys, st, all.result.value.backings, |st.spec.services|);
    var served := ServicesQ(cfg, scheduled, sk, st, all.result.value.backings, |st.spec.services|);
    var status := Assessed(served.store, sk, st, FlagsOf(served.result.value)).status;
    g := Stages(all.result.value, served.result.value, all.store, scheduled, served.store,
      StatusUpdate(served.store, sk, s.objs[sk], status).store);
    StagesAdvance(cfg, cat, s, sk, g);
    StatusGoes(served.store, sk, keys, s.objs[sk], status);
  }

  lemma ScheduleGoes(cfg: Config, s: Store, sk: Key, keys: set<Key>, st: Object)
    requires Ours(s, sk, keys) && st.Stack? && ScheduleKey(sk) in keys
    ensures Ours(Scheduled(cfg, s, sk, st), sk, keys)
  {
    hide Apply, Ours, Advances;
    ApplyGoes(cfg, s, sk, keys, ScheduleKey(sk), BackupSchedule(sk.name));
  }

  lemma StatusGoes(s: Store, sk: Key, keys: set<Key>, entry: Entry, status: Status)
    requires Ours(s, sk, keys) && sk.kind == StackKind && sk in s.objs && s.objs[sk] == entry && entry.obj.Stack?
    ensures Goes(StatusUpdate(s, sk, entry, status), sk, keys)
  {
  }

  lemma DriversStay(s: Store, t: Store, keys: set<Key>)
    requires Typed(s) && Typed(t) && DriversNamed(s) && Advances(s, t, keys)
    ensures DriversNamed(t)
  {
    forall k | k in t.objs && t.objs[k].obj.Content? ensures DriverNamed(t.objs[k].obj) {
      if k in s.objs {
        assert Preserved(s.objs[k].obj, t.objs[k].obj);
      } else {
        assert Blank(t.objs[k].obj);
      }
    }
  }

  lemma SourcesStay(s: Store, t: Store, sk: Key, st: Object, keys: set<Key>)
    requires Typed(s) && Typed(t) && st.Stack? && ForeignSources(s, sk, st) && Advances(s, t, keys)
    ensures ForeignSources(t, sk, st)
  {
    hide CloneName;
    forall i, j | 0 <= i < |st.spec.backing| && 0 <= j < |st.spec.backing|
      ensures SourceContent(t, st, sk.ns, st.spec.backing[i].name) != CloneName(sk.ns, st.spec.backing[j].name)
    {
      var k := SourceKey(st, sk.ns, st.spec.backing[i].name);
      assert CloneName(sk.ns, st.spec.backing[j].name) != "" by { CloneNameStarts(sk.ns, st.spec.backing[j].name); }
      assert SourceContent(s, st, sk.ns, st.spec.backing[i].name) != CloneName(sk.ns, st.spec.backing[j].name);
      if k in s.objs {
        assert Preserved(s.objs[k].obj, t.objs[k].obj);
      } else if k in t.objs {
        assert Blank(t.objs[k].obj);
      }
    }
  }

  lemma CloneNameStarts(ns: string, b: string)
    ensures CloneName(ns, b) != "" && CloneName(ns, b)[0] == 'p'
  {
  }

  lemma NothingButStatus(cfg: Config, cat: Catalog, s: Store, sk: Key, st: Object, st': Object)
    requires SameStack(st, st')
    ensures ForeignSources(s, sk, st) == ForeignSources(s, sk, st') && CredsThere(s, st) == CredsThere(s, st')
    ensures PassKeys(cat, sk, st) == PassKeys(cat, sk, st') && Workable(cfg, cat, sk, st) == Workable(cfg, cat, sk, st')
  {
    hide CloneName, Lower, BackingName, Ported, Renderable, PassKeys, ChildrenApart, SourceContent, CredsFor;
    forall b ensures SourceContent(s, st, sk.ns, b) == SourceContent(s, st', sk.ns, b) {
      SourceIgnoresStatus(s, sk, st, st', b);
    }
    forall b ensures CredsFor(s, st, b) == CredsFor(s, st', b) {
      CredsIgnoreStatus(s, st, st', b);
    }
    KeysIgnoreStatus(cat, sk, st, st');
  }

  lemma SourceIgnoresStatus(s: Store, sk: Key, st: Object, st': Object, b: string)
    requires SameStack(st, st')
    ensures SourceContent(s, st, sk.ns, b) == SourceContent(s, st', sk.ns, b)
  {
  }

  lemma CredsIgnoreStatus(s: Store, st: Object, st': Object, b: BackingSpec)
    requires SameStack(st, st')
    ensures CredsFor(s, st, b) == CredsFor(s, st', b)
  {
    hide Lower;
  }

  lemma KeysIgnoreStatus(cat: Catalog, sk: Key, st: Object, st': Object)
    requires SameStack(st, st')
    ensures forall b :: BackingKeys(cat, sk, st, b) == BackingKeys(cat, sk, st', b)
    ensures forall svc :: ServiceKeys(sk, st, svc) == ServiceKeys(sk, st', svc)
    ensures PassKeys(cat, sk, st) == PassKeys(cat, sk, st') && ChildrenApart(cat, sk, st) == ChildrenApart(cat, sk, st')
  {
    hide CloneName, Lower, BackingName, RestoreName, ClaimName, JobKey;
    assert forall b :: SeedKeys(sk, st, b) == SeedKeys(sk, st', b);
    assert forall b :: BackingKeys(cat, sk, st, b) == BackingKeys(cat, sk, st', b);
    assert BackingRungs(cat, sk, st, |st.spec.backing|) == BackingRungs(cat, sk, st', |st.spec.backing|);
    assert ServiceRungs(sk, st, |st.spec.services|) == ServiceRungs(sk, st', |st.spec.services|);
  }

  /** A pass over a sane store succeeds and leaves one. */
  lemma PassGoesOn(cfg: Config, cat: Catalog, s: Store, sk: Key, st: Object) returns (t: Store)
    requires st.Stack? && Sane(cat, s, sk, st) && Workable(cfg, cat, sk, st)
    ensures Pass(cfg, cat, s, t, sk, st) && Sane(cat, t, sk, st)
  {
    hide Advances, Unclaimed, CredsThere, DriversNamed, ForeignSources, Went, ReconcileQ, ChildrenApart, NextStatus,
      SafeDefs, Ported, Renderable, ClonesSettle, PassKeys;
    var now := s.objs[sk].obj;
    NothingButStatus(cfg, cat, s, sk, st, now);
    var g := PassSucceeds(cfg, cat, s, sk);
    t := g.done;
    var keys := PassAdvances(cfg, cat, s, sk, g);
    StatusWrites(cfg, cat, s, sk, g);
    CredsStay(s, t, st, keys);
    DriversStay(s, t, keys);
    if IsPreviewClone(st) {
      SourcesStay(s, t, sk, st, keys);
      ForeignSourcesSettle(cat, s, sk, now);
    } else {
      NoClonesSettle(cat, s, sk, now);
    }
  }

  lemma NoClonesSettle(cat: Catalog, s: Store, sk: Key, st: Object)
    requires st.Stack? && !IsPreviewClone(st)
    ensures ClonesSettle(cat, s, sk, st)
  {
    hide CloneSettles, Found;
  }

  // ------------------------------------------------------------------ engines go on

  /** What an engine's report may not touch. */
  predicate Harmless(s: Store, ev: Event) {
    (ev.StatusReported? || ev.Foreign?) && KindOf(ev.obj) == ev.key.kind && !ev.obj.Stack? && !ev.obj.Secret? &&
    (ev.key in s.objs ==> OwnerOf(ev.obj) == OwnerOf(s.objs[ev.key].obj)) &&
    (ev.key !in s.objs ==> OwnerOf(ev.obj) == None) &&
    (ev.obj.Content? ==> DriverNamed(ev.obj)) &&
    (ev.obj.Snapshot? ==>
       ev.obj.boundContent == "snapcontent" ||
       (ev.key in s.objs && s.objs[ev.key].obj.Snapshot? && ev.obj.boundContent == s.objs[ev.key].obj.boundContent))
  }

  lemma OpeningHarmless(s: Store, sk: Key, st: Object, g: Gate)
    requires Typed(s) && st.Stack? && Waiting(s, sk, st, g) && DriversNamed(s)
    ensures Harmless(s, Opening(s, sk, st, g))
  {
    hide Typed, DriversNamed, Waiting, Opening, EngineReport, Appearance, Harmless;
    OpeningShape(s, sk, st, g);
    ReportHarmless(s, Opening(s, sk, st, g));
  }

  lemma ReportHarmless(s: Store, ev: Event)
    requires Typed(s) && (EngineReport(s, ev) || Appearance(s, ev))
    ensures Harmless(s, ev)
  {
  }

  lemma HarmlessSane(cat: Catalog, s: Store, sk: Key, st: Object, ev: Event)
    requires st.Stack? && Sane(cat, s, sk, st) && Harmless(s, ev)
    ensures Sane(cat, Put(s, ev.key, ev.obj), sk, st)
  {
    hide Lower, CloneName, BackingName, BackupName, PassKeys;
    var t := Put(s, ev.key, ev.obj);
    assert CredsThere(t, st) by {
      forall i | 0 <= i < |st.spec.backing| ensures CredsFor(t, st, st.spec.backing[i]) {
        assert CredsFor(s, st, st.spec.backing[i]);
      }
    }
    if IsPreviewClone(st) {
      forall i, j | 0 <= i < |st.spec.backing| && 0 <= j < |st.spec.backing|
        ensures SourceContent(t, st, sk.ns, st.spec.backing[i].name) != CloneName(sk.ns, st.spec.backing[j].name)
      {
        CloneNameStarts(sk.ns, st.spec.backing[j].name);
        assert SourceContent(s, st, sk.ns, st.spec.backing[i].name) != CloneName(sk.ns, st.spec.backing[j].name);
      }
    }
  }

  /** Between two passes one waiting gate is opened, by an event that is possible. */
  ghost predicate Opened(cfg: Config, u: Store, e: Store, sk: Key, st: Object)
    requires st.Stack?
  {
    Typed(u) && exists g :: Waiting(u, sk, st, g) && Possible(cfg, u, Opening(u, sk, st, g)) &&
                            e == Effect(cfg, u, Opening(u, sk, st, g))
  }

  lemma EngineGoesOn(cfg: Config, cat: Catalog, u: Store, sk: Key, st: Object, g: Gate) returns (e: Store)
    requires st.Stack? && Sane(cat, u, sk, st) && Waiting(u, sk, st, g)
    ensures Opened(cfg, u, e, sk, st) && Sane(cat, e, sk, st) && MetGates(u, sk, st) < MetGates(e, sk, st)
  {
    hide Ours, Sane, Met, Offered, Opening, Gates, Possible, Effect, Typed, DriversNamed, Harmless;
    SaneTyped(cat, u, sk, st);
    var ev := Opening(u, sk, st, g);
    e := Effect(cfg, u, ev);
    OpeningHarmless(u, sk, st, g);
    GateOpens(cfg, u, sk, st, g, g);
    ReportEffect(cfg, u, ev);
    HarmlessSane(cat, u, sk, st, ev);
    GatesAre(st.spec, g);
    forall other | other in MetGates(u, sk, st) ensures other in MetGates(e, sk, st) {
      GateOpens(cfg, u, sk, st, g, other);
    }
    assert g in MetGates(e, sk, st) && g !in MetGates(u, sk, st);
  }

  lemma SaneTyped(cat: Catalog, s: Store, sk: Key, st: Object)
    requires Sane(cat, s, sk, st)
    ensures Typed(s) && DriversNamed(s)
  {
  }

  // ---------------------------------------------------------------------- coming up

  /** Passes with one opened gate between each two. */
  ghost predicate Rounds(cfg: Config, cat: Catalog, es: seq<Store>, us: seq<Store>, sk: Key, st: Object)
    requires st.Stack?
  {
    |es| == |us| && (forall i | 0 <= i < |es| :: Pass(cfg, cat, es[i], us[i], sk, st)) &&
    forall i | 0 <= i < |es| - 1 :: Opened(cfg, us[i], es[i + 1], sk, st)
  }

  lemma Rises(cfg: Config, cat: Catalog, s: Store, sk: Key, st: Object) returns (es: seq<Store>, us: seq<Store>)
    requires st.Stack? && Sane(cat, s, sk, st) && Workable(cfg, cat, sk, st)
    ensures Rounds(cfg, cat, es, us, sk, st) && 0 < |es| && es[0] == s
    ensures |es| <= 1 + |Gates(st.spec)| - |MetGates(s, sk, st)|
    ensures Up(cfg, cat, us[|us| - 1], sk)
    decreases |Gates(st.spec)| - |MetGates(s, sk, st)|
  {
    hide Sane, Workable, Pass, Up, Met, Gates, Waiting, Opened;
    var u := PassGoesOn(cfg, cat, s, sk, st);
    PassKeepsGates(cfg, cat, s, u, sk, st);
    Smaller(MetGates(s, sk, st), MetGates(u, sk, st));
    Smaller(MetGates(u, sk, st), Gates(st.spec));
    UpOrWaiting(cfg, cat, s, u, sk, st);
    if Up(cfg, cat, u, sk) {
      es, us := [s], [u];
    } else {
      var g :| Waiting(u, sk, st, g);
      var e := EngineGoesOn(cfg, cat, u, sk, st, g);
      Fewer(MetGates(u, sk, st), MetGates(e, sk, st));
      Smaller(MetGates(e, sk, st), Gates(st.spec));
      es, us := Rises(cfg, cat, e, sk, st);
      es, us := [s] + es, [u] + us;
    }
  }

  lemma Fewer<T>(a: set<T>, b: set<T>)
    requires a < b
    ensures |a| < |b|
  {
    assert b == a + (b - a) && |b - a| > 0 by {
      var x :| x in b && x !in a;
      assert x in b - a;
    }
  }

  /** From any sane store a Stack comes up: every pass succeeds, each but the last
      leaves a gate that one possible event opens, and nine rounds for a backing,
      one for a service, and one more are enough. */
  lemma ComesUp(cfg: Config, cat: Catalog, s: Store, sk: Key, st: Object) returns (es: seq<Store>, us: seq<Store>)
    requires st.Stack? && Sane(cat, s, sk, st) && Workable(cfg, cat, sk, st)
    ensures Rounds(cfg, cat, es, us, sk, st) && 0 < |es| <= 9 * |st.spec.backing| + |st.spec.services| + 1 && es[0] == s
    ensures Up(cfg, cat, us[|us| - 1], sk)
  {
    hide Sane, Workable, Rounds, Up, Gates, Met;
    GatesAre(st.spec, SetGate(0));
    es, us := Rises(cfg, cat, s, sk, st);
  }
}
