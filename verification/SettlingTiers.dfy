/** The same for buckets, objects and postgres, and for any backing. */
module SettlingTiers {
  import opened Wrappers
  import opened Names
  import opened Objects
  import opened Clusters
  import opened Volumes
  import opened Catalogs
  import opened Tiers
  import opened Backings
  import opened Settling

  // ------------------------------------------------------------ what a pass only reads

  /** Nothing a pass reads but never writes has changed. */
  ghost predicate Steady(s: Store, u: Store) {
    (forall k: Key | k.kind == ConfigMapKind :: Find(u, k) == Find(s, k)) &&
    (forall k: Key | k.kind == ClusterKind :: RecoverableIn(u, k) == RecoverableIn(s, k))
  }

  lemma AdvancesSteady(s: Store, u: Store, keys: set<Key>)
    requires Typed(s) && Typed(u) && Advances(s, u, keys)
    ensures Steady(s, u)
  {
    forall k: Key | k.kind == ConfigMapKind ensures Find(u, k) == Find(s, k) {
      assert k in s.objs ==> Preserved(s.objs[k].obj, u.objs[k].obj);
      assert k in u.objs && k !in s.objs ==> Blank(u.objs[k].obj);
    }
    forall k: Key | k.kind == ClusterKind ensures RecoverableIn(u, k) == RecoverableIn(s, k) {
      assert k in s.objs ==> Preserved(s.objs[k].obj, u.objs[k].obj);
      assert k in u.objs && k !in s.objs ==> Blank(u.objs[k].obj);
    }
  }

  // -------------------------------------------------------------------------- buckets

  lemma BucketAdvances(cfg: Config, s: Store, sk: Key, name: string)
    requires Typed(s)
    ensures Typed(EnsureBucketQ(cfg, s, sk, name).store)
    ensures Advances(s, EnsureBucketQ(cfg, s, sk, name).store, {BucketKey(sk.ns, name)})
  {
    hide Apply, Advances, Typed;
    ApplyAdvances(cfg, s, BucketKey(sk.ns, name), BucketPatch(cfg, sk, name));
  }

  lemma BucketAgain(cfg: Config, s: Store, sk: Key, name: string, u: Store)
    requires Typed(s) && EnsureBucketQ(cfg, s, sk, name).result.Ok? && Steady(s, u)
    requires SameAt(u, EnsureBucketQ(cfg, s, sk, name).store, BucketKey(sk.ns, name))
    ensures EnsureBucketQ(cfg, u, sk, name) == Outcome(u, EnsureBucketQ(cfg, s, sk, name).result)
  {
    hide Apply, Preserved, Blank;
    var k := BucketKey(sk.ns, name);
    var t := Apply(cfg, s, k, BucketPatch(cfg, sk, name)).store;
    ApplyAdvances(cfg, s, k, BucketPatch(cfg, sk, name));
    ApplyAgain(cfg, s, k, BucketPatch(cfg, sk, name), u, BucketPatch(cfg, sk, name));
    assert SameAt(s, t, ConfigMapKey(sk.ns, name));
    assert Find(t, ConfigMapKey(sk.ns, name)) == Find(s, ConfigMapKey(sk.ns, name)) ==
           Find(u, ConfigMapKey(sk.ns, name));
  }

  // ------------------------------------------------------------------------- postgres

  function CredsKey(sk: Key, b: BackingSpec): Key { SecretKey(sk.ns, CloneCredsName(NameOf(sk, b))) }

  /** A clone copies the parent's credentials; what is backed up and not a clone
      has a bucket. */
  function BootKeys(sk: Key, st: Object, b: BackingSpec): set<Key>
    requires st.Stack?
  {
    if IsPgClone(st, b) then {CredsKey(sk, b)} else {}
  }

  function ArchiveKeys(sk: Key, st: Object, b: BackingSpec): set<Key>
    requires st.Stack?
  {
    if b.backup && !IsPgClone(st, b) then {BucketKey(sk.ns, BackupName(NameOf(sk, b)))} else {}
  }

  function PostgresKeys(sk: Key, st: Object, b: BackingSpec): set<Key>
    requires st.Stack?
  {
    BootKeys(sk, st, b) + ArchiveKeys(sk, st, b) + ClusterKeys(sk, b)
  }

  lemma BootstrapAdvances(cfg: Config, s: Store, sk: Key, st: Object, b: BackingSpec)
    requires Typed(s) && st.Stack?
    ensures Typed(ChooseBootstrapQ(cfg, s, sk, st, b).store)
    ensures Advances(s, ChooseBootstrapQ(cfg, s, sk, st, b).store, BootKeys(sk, st, b))
  {
    hide Apply, Advances, Typed, ParentBucketQ;
    StaysPut(s);
    AdvancesMore(s, s, {}, BootKeys(sk, st, b));
    var src := Find(s, SecretKey(st.cloneNs, BackupName(ParentCluster(st, b))));
    if src.Some? {
      ApplyAdvances(cfg, s, CredsKey(sk, b), CredsPatch(sk, src.value.data));
    }
  }

  /** The bootstrap a second look chooses: none while it waits, and once the
      Cluster is there the one that is ignored. */
  lemma BootstrapAgain(cfg: Config, s: Store, sk: Key, st: Object, b: BackingSpec, u: Store)
    requires st.Stack? && Steady(s, u) && ChooseBootstrapQ(cfg, s, sk, st, b).result.Ok?
    requires if ChooseBootstrapQ(cfg, s, sk, st, b).result.value.None? then
               SameAt(u, s, ClusterKey(sk.ns, NameOf(sk, b)))
             else ClusterKey(sk.ns, NameOf(sk, b)) in u.objs
    ensures ChooseBootstrapQ(cfg, u, sk, st, b) ==
            Outcome(u, Ok(if ChooseBootstrapQ(cfg, s, sk, st, b).result.value.None? then None else Some(InitDb)))
  {
    hide CopyBackupCredsQ;
  }

  function ClusterKeys(sk: Key, b: BackingSpec): set<Key> {
    {ClusterKey(sk.ns, NameOf(sk, b)), Key(ScheduledBackupKind, sk.ns, NameOf(sk, b))}
  }

  lemma ClusterAdvances(cfg: Config, s: Store, sk: Key, b: BackingSpec, boot: Bootstrap, archive: BoundBucket)
    requires Typed(s)
    ensures Typed(ApplyClusterQ(cfg, s, sk, b, boot, archive).store)
    ensures Advances(s, ApplyClusterQ(cfg, s, sk, b, boot, archive).store, ClusterKeys(sk, b))
  {
    hide Apply, Advances, Typed;
    var name := NameOf(sk, b);
    var k, l := ClusterKey(sk.ns, name), Key(ScheduledBackupKind, sk.ns, name);
    ApplyAdvances(cfg, s, k, PgPatch(sk, b, boot, archive));
    var cl := Apply(cfg, s, k, PgPatch(sk, b, boot, archive));
    ApplyAdvances(cfg, cl.store, l, BaseBackup(sk.name, name));
    AdvancesMore(s, cl.store, {k}, ClusterKeys(sk, b));
    AdvancesTwice(s, cl.store, Apply(cfg, cl.store, l, BaseBackup(sk.name, name)).store, {k}, {l});
    assert {k} + {l} == ClusterKeys(sk, b);
  }

  lemma ClusterAgain(cfg: Config, s: Store, sk: Key, b: BackingSpec, boot: Bootstrap, archive: BoundBucket, u: Store,
        boot': Bootstrap)
    requires Typed(s) && ApplyClusterQ(cfg, s, sk, b, boot, archive).result.Ok?
    requires AgreeOn(u, ApplyClusterQ(cfg, s, sk, b, boot, archive).store, ClusterKeys(sk, b))
    ensures ClusterKey(sk.ns, NameOf(sk, b)) in u.objs
    ensures ApplyClusterQ(cfg, u, sk, b, boot', archive) ==
            Outcome(u, ApplyClusterQ(cfg, s, sk, b, boot, archive).result)
  {
    hide Apply, Preserved, Blank;
    var name := NameOf(sk, b);
    var k, l := ClusterKey(sk.ns, name), Key(ScheduledBackupKind, sk.ns, name);
    var p := PgPatch(sk, b, boot, archive);
    var cl := Apply(cfg, s, k, p);
    var t := ApplyClusterQ(cfg, s, sk, b, boot, archive).store;
    ApplyAdvances(cfg, s, k, p);
    ApplyAdvances(cfg, cl.store, l, BaseBackup(sk.name, name));
    assert SameAt(cl.store, t, k);
    assert SameAt(u, t, k) && SameAt(u, t, l);
    ApplyAgain(cfg, s, k, p, u, PgPatch(sk, b, boot', archive));
    if archive.bound {
      ApplyAgain(cfg, cl.store, l, BaseBackup(sk.name, name), u, BaseBackup(sk.name, name));
    }
  }

  lemma ArchiveAdvances(cfg: Config, s: Store, sk: Key, st: Object, b: BackingSpec)
    requires Typed(s) && st.Stack?
    ensures var t := ArchiveQ(cfg, s, sk, st, b).store; Typed(t) && Advances(s, t, ArchiveKeys(sk, st, b))
  {
    hide Advances, Typed, EnsureBucketQ;
    StaysPut(s);
    BucketAdvances(cfg, s, sk, BackupName(NameOf(sk, b)));
  }

  /** The backup half of a postgres. */
  function ArchiveQ(cfg: Config, s: Store, sk: Key, st: Object, b: BackingSpec): Outcome<BoundBucket>
    requires st.Stack?
  {
    if b.backup && !IsPgClone(st, b) then EnsureBucketQ(cfg, s, sk, BackupName(NameOf(sk, b)))
    else Outcome(s, Ok(UNBOUND))
  }

  lemma PostgresAdvances(cfg: Config, s: Store, sk: Key, st: Object, b: BackingSpec)
    requires Typed(s) && st.Stack?
    ensures Typed(PostgresQ(cfg, s, sk, st, b).store)
    ensures Advances(s, PostgresQ(cfg, s, sk, st, b).store, PostgresKeys(sk, st, b))
  {
    hide Advances, Typed, ChooseBootstrapQ, EnsureBucketQ, ApplyClusterQ, BootKeys, ArchiveKeys, ClusterKeys;
    var boot := ChooseBootstrapQ(cfg, s, sk, st, b);
    BootstrapAdvances(cfg, s, sk, st, b);
    AdvancesMore(s, boot.store, BootKeys(sk, st, b), PostgresKeys(sk, st, b));
    var before := ArchiveQ(cfg, boot.store, sk, st, b);
    ArchiveAdvances(cfg, boot.store, sk, st, b);
    AdvancesTwice(s, boot.store, before.store, BootKeys(sk, st, b), ArchiveKeys(sk, st, b));
    AdvancesMore(s, before.store, BootKeys(sk, st, b) + ArchiveKeys(sk, st, b), PostgresKeys(sk, st, b));
    if boot.result.Ok? && boot.result.value.Some? && before.result.Ok? {
      ClusterAdvances(cfg, before.store, sk, b, boot.result.value.value, before.result.value);
      AdvancesTwice(s, before.store,
                    ApplyClusterQ(cfg, before.store, sk, b, boot.result.value.value, before.result.value).store,
        BootKeys(sk, st, b) + ArchiveKeys(sk, st, b), ClusterKeys(sk, b));
    }
  }

  lemma PostgresAgain(cfg: Config, s: Store, sk: Key, st: Object, b: BackingSpec, u: Store)
    requires Typed(s) && st.Stack? && PostgresQ(cfg, s, sk, st, b).result.Ok? && Steady(s, u)
    requires AgreeOn(u, PostgresQ(cfg, s, sk, st, b).store, PostgresKeys(sk, st, b))
    ensures PostgresQ(cfg, u, sk, st, b) == Outcome(u, PostgresQ(cfg, s, sk, st, b).result)
  {
    hide Advances, Typed, AgreeOn, SameAt, Steady, ChooseBootstrapQ, EnsureBucketQ, ApplyClusterQ, Preserved, Blank;
    var name := NameOf(sk, b);
    var t := PostgresQ(cfg, s, sk, st, b).store;
    var boot := ChooseBootstrapQ(cfg, s, sk, st, b);
    BootstrapAdvances(cfg, s, sk, st, b);
    if boot.result.value.None? {
      NoBootstrap(cfg, s, sk, st, b);
      AtKey(u, t, PostgresKeys(sk, st, b), ClusterKey(sk.ns, name));
      BootstrapAgain(cfg, s, sk, st, b, u);
    } else {
      var before := ArchiveQ(cfg, boot.store, sk, st, b);
      ArchiveAdvances(cfg, boot.store, sk, st, b);
      ClusterAdvances(cfg, before.store, sk, b, boot.result.value.value, before.result.value);
      Narrow(u, t, PostgresKeys(sk, st, b), ClusterKeys(sk, b));
      ClusterAgain(cfg, before.store, sk, b, boot.result.value.value, before.result.value, u, InitDb);
      BootstrapAgain(cfg, s, sk, st, b, u);
      if b.backup && !IsPgClone(st, b) {
        var bk := BucketKey(sk.ns, BackupName(name));
        AgreeOutside(before.store, t, ClusterKeys(sk, b), {bk});
        AtKey(u, t, PostgresKeys(sk, st, b), bk);
        AtKey(t, before.store, {bk}, bk);
        SameTwice(u, t, before.store, bk);
        AdvancesSteady(s, boot.store, BootKeys(sk, st, b));
        SteadyBack(s, boot.store, u);
        BucketAgain(cfg, boot.store, sk, BackupName(name), u);
      }
    }
  }

  lemma NoBootstrap(cfg: Config, s: Store, sk: Key, st: Object, b: BackingSpec)
    requires st.Stack? && ChooseBootstrapQ(cfg, s, sk, st, b).result == Ok(None)
    ensures ChooseBootstrapQ(cfg, s, sk, st, b).store == s
  {
    hide CopyBackupCredsQ;
  }

  lemma SteadyBack(s: Store, t: Store, u: Store)
    requires Steady(s, t) && Steady(s, u)
    ensures Steady(t, u)
  {
  }

  // ----------------------------------------------------------------------- any backing

  /** No descriptor the backing may be provisioned from renders its own password. */
  predicate SafeDef(cat: Catalog, b: BackingSpec) {
    Lookup(cat, b.kind).Some? ==> "password" !in Lookup(cat, b.kind).value.secretValues
  }

  /** A backing with a volume: a fallback, or a descriptor that wants one. */
  predicate HasVolume(cat: Catalog, b: BackingSpec) {
    !IsPostgres(b.kind) && !IsObjectStore(b.kind) &&
    if Lookup(cat, b.kind).Some? then Lookup(cat, b.kind).value.persistence.Some? else b.image != ""
  }

  /** Every key the provisioning of a backing may write, by its tier. */
  function BackingKeys(cat: Catalog, sk: Key, st: Object, b: BackingSpec): set<Key>
    requires st.Stack?
  {
    if IsPostgres(b.kind) then PostgresKeys(sk, st, b)
    else if IsObjectStore(b.kind) then {BucketKey(sk.ns, NameOf(sk, b))}
    else if Lookup(cat, b.kind).Some? || b.image != "" then SetTierKeys(sk, st, b, HasVolume(cat, b))
    else {}
  }

  lemma ProvisionAdvances(cfg: Config, cat: Catalog, s: Store, sk: Key, st: Object, b: BackingSpec)
    requires Typed(s) && st.Stack?
    ensures Typed(ProvisionQ(cfg, cat, s, sk, st, b).store)
    ensures Advances(s, ProvisionQ(cfg, cat, s, sk, st, b).store, BackingKeys(cat, sk, st, b))
  {
    hide Advances, Typed, Lower, PostgresQ, EnsureBucketQ, TemplatedQ, FallbackQ, PostgresKeys, SetTierKeys, SetTierQ,
      TemplateSetPatch, FallbackSetPatch;
    StaysPut(s);
    if IsPostgres(b.kind) {
      PostgresAdvances(cfg, s, sk, st, b);
    } else if IsObjectStore(b.kind) {
      BucketAdvances(cfg, s, sk, NameOf(sk, b));
    } else if Lookup(cat, b.kind).Some? {
      TemplatedAdvances(cfg, s, sk, st, b, Lookup(cat, b.kind).value);
    } else if b.image != "" {
      FallbackAdvances(cfg, s, sk, st, b);
    }
  }

  lemma TemplatedAdvances(cfg: Config, s: Store, sk: Key, st: Object, b: BackingSpec, def: ServiceDefinition)
    requires Typed(s) && st.Stack?
    ensures Typed(TemplatedQ(cfg, s, sk, st, b, def).store)
    ensures Advances(s, TemplatedQ(cfg, s, sk, st, b, def).store, SetTierKeys(sk, st, b, def.persistence.Some?))
  {
    hide Advances, Typed, SetTierKeys, SetTierQ;
    StaysPut(s);
    AdvancesMore(s, s, {}, SetTierKeys(sk, st, b, def.persistence.Some?));
    if ImageOf(cfg, b, def).Ok? {
      TemplatedIsTier(cfg, s, sk, st, b, def);
      SetTierAdvances(cfg, s, sk, st, b, SecretPatch(cfg, sk, b, def),
        EndpointPatch(sk, b, OrDefault(def.portName, def.kind), def.port), def.persistence.Some?,
        seed => TemplateSetPatch(sk, b, def, ImageOf(cfg, b, def).value, seed),
        def.persistence.Some? && b.backup && !IsPreviewClone(st));
    }
  }

  lemma TemplatedAgain(cfg: Config, s: Store, sk: Key, st: Object, b: BackingSpec, def: ServiceDefinition, u: Store)
    requires Typed(s) && Typed(u) && st.Stack? && TemplatedQ(cfg, s, sk, st, b, def).result.Ok? &&
             "password" !in def.secretValues
    requires AgreeOn(u, TemplatedQ(cfg, s, sk, st, b, def).store, SetTierKeys(sk, st, b, def.persistence.Some?))
    requires Seen(s, st, sk.ns, b.name).Some? ==> Seen(u, st, sk.ns, b.name).Some?
    ensures Idle(TemplatedQ(cfg, u, sk, st, b, def), u) <==> SeedRereads(s, u, sk, st, b, def.persistence.Some?)
    ensures SeedRereads(s, u, sk, st, b, def.persistence.Some?) ==>
              TemplatedQ(cfg, u, sk, st, b, def) == Outcome(u, TemplatedQ(cfg, s, sk, st, b, def).result)
  {
    hide AgreeOn, SetTierKeys, SetTierQ, TemplatedQ, SeedRereads, Seen;
    assert ImageOf(cfg, b, def).Ok? by { ImageNeeded(cfg, s, sk, st, b, def); }
    TemplatedIsTier(cfg, s, sk, st, b, def);
    TemplatedIsTier(cfg, u, sk, st, b, def);
    SetTierAgain(cfg, s, sk, st, b, SecretPatch(cfg, sk, b, def),
      EndpointPatch(sk, b, OrDefault(def.portName, def.kind), def.port), def.persistence.Some?,
      seed => TemplateSetPatch(sk, b, def, ImageOf(cfg, b, def).value, seed),
      def.persistence.Some? && b.backup && !IsPreviewClone(st), u);
  }

  lemma ImageNeeded(cfg: Config, s: Store, sk: Key, st: Object, b: BackingSpec, def: ServiceDefinition)
    requires st.Stack? && TemplatedQ(cfg, s, sk, st, b, def).result.Ok?
    ensures ImageOf(cfg, b, def).Ok?
  {
  }

  lemma FallbackAdvances(cfg: Config, s: Store, sk: Key, st: Object, b: BackingSpec)
    requires Typed(s) && st.Stack?
    ensures Typed(FallbackQ(cfg, s, sk, st, b).store)
    ensures Advances(s, FallbackQ(cfg, s, sk, st, b).store, SetTierKeys(sk, st, b, true))
  {
    hide Advances, Typed, SetTierKeys, SetTierQ;
    StaysPut(s);
    AdvancesMore(s, s, {}, SetTierKeys(sk, st, b, true));
    if b.port != 0 {
      FallbackIsTier(cfg, s, sk, st, b);
      SetTierAdvances(cfg, s, sk, st, b, AddressPatch(sk, b),
        EndpointPatch(sk, b, "svc", b.port), true, seed => FallbackSetPatch(cfg, sk, b, seed),
        b.backup && !IsPreviewClone(st));
    }
  }

  lemma FallbackAgain(cfg: Config, s: Store, sk: Key, st: Object, b: BackingSpec, u: Store)
    requires Typed(s) && Typed(u) && st.Stack? && FallbackQ(cfg, s, sk, st, b).result.Ok?
    requires AgreeOn(u, FallbackQ(cfg, s, sk, st, b).store, SetTierKeys(sk, st, b, true))
    requires Seen(s, st, sk.ns, b.name).Some? ==> Seen(u, st, sk.ns, b.name).Some?
    ensures Idle(FallbackQ(cfg, u, sk, st, b), u) <==> SeedRereads(s, u, sk, st, b, true)
    ensures SeedRereads(s, u, sk, st, b, true) ==>
              FallbackQ(cfg, u, sk, st, b) == Outcome(u, FallbackQ(cfg, s, sk, st, b).result)
  {
    hide AgreeOn, SetTierKeys, SetTierQ, FallbackQ, SeedRereads, Seen;
    assert b.port != 0 by { PortNeeded(cfg, s, sk, st, b); }
    FallbackIsTier(cfg, s, sk, st, b);
    FallbackIsTier(cfg, u, sk, st, b);
    SetTierAgain(cfg, s, sk, st, b, AddressPatch(sk, b),
      EndpointPatch(sk, b, "svc", b.port), true, seed => FallbackSetPatch(cfg, sk, b, seed),
      b.backup && !IsPreviewClone(st), u);
  }

  lemma PortNeeded(cfg: Config, s: Store, sk: Key, st: Object, b: BackingSpec)
    requires st.Stack? && FallbackQ(cfg, s, sk, st, b).result.Ok?
    ensures b.port != 0
  {
  }

  /** Provisioning a backing again, in any later store that still holds what it
      left, is idle exactly when its clone, if it still waits for one, rereads; and
      then it reports the same. */
  lemma ProvisionAgain(cfg: Config, cat: Catalog, s: Store, sk: Key, st: Object, b: BackingSpec, u: Store)
    requires Typed(s) && Typed(u) && st.Stack? && ProvisionQ(cfg, cat, s, sk, st, b).result.Ok? && Steady(s, u) &&
             SafeDef(cat, b)
    requires AgreeOn(u, ProvisionQ(cfg, cat, s, sk, st, b).store, BackingKeys(cat, sk, st, b))
    requires Seen(s, st, sk.ns, b.name).Some? ==> Seen(u, st, sk.ns, b.name).Some?
    ensures Idle(ProvisionQ(cfg, cat, u, sk, st, b), u) <==> SeedRereads(s, u, sk, st, b, HasVolume(cat, b))
    ensures SeedRereads(s, u, sk, st, b, HasVolume(cat, b)) ==>
              ProvisionQ(cfg, cat, u, sk, st, b) == Outcome(u, ProvisionQ(cfg, cat, s, sk, st, b).result)
  {
    hide AgreeOn, Steady, Lower, PostgresQ, TemplatedQ, FallbackQ, EnsureBucketQ, PostgresKeys, SetTierKeys,
         Rereads, Seen;
    if IsPostgres(b.kind) {
      PostgresAgain(cfg, s, sk, st, b, u);
    } else if IsObjectStore(b.kind) {
      var k := BucketKey(sk.ns, NameOf(sk, b));
      AtKey(u, ProvisionQ(cfg, cat, s, sk, st, b).store, {k}, k);
      BucketAgain(cfg, s, sk, NameOf(sk, b), u);
    } else if Lookup(cat, b.kind).Some? {
      TemplatedAgain(cfg, s, sk, st, b, Lookup(cat, b.kind).value, u);
    } else if b.image != "" {
      FallbackAgain(cfg, s, sk, st, b, u);
    }
  }
}
