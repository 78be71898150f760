/** When a backing counts as ready, tier by tier, and what provisioning one leaves. */
module Readiness {
  import opened Wrappers
  import opened Names
  import opened Objects
  import opened Shapes
  import opened Clusters
  import opened Snapshots
  import opened Volumes
  import opened Catalogs
  import opened Tiers
  import opened Backings
  import opened Settling
  import opened SettlingTiers

  /** The one thing the twin does not look at. */
  predicate BucketNamed(s: Store, sk: Key, b: BackingSpec) {
    IsObjectStore(b.kind) && !IsPostgres(b.kind) ==> Find(s, ConfigMapKey(sk.ns, NameOf(sk, b))).Some?
  }

  lemma PostgresReady(cfg: Config, s: Store, sk: Key, st: Object, b: BackingSpec)
    requires Typed(s) && st.Stack? && PostgresQ(cfg, s, sk, st, b).result.Ok?
    ensures PostgresQ(cfg, s, sk, st, b).result.value.ready <==>
            ClusterReady(PostgresQ(cfg, s, sk, st, b).store, ClusterKey(sk.ns, NameOf(sk, b)))
  {
    hide ChooseBootstrapQ, EnsureBucketQ, ApplyClusterQ, ClusterReady, Typed, Advances;
    var name := NameOf(sk, b);
    var boot := ChooseBootstrapQ(cfg, s, sk, st, b);
    BootstrapAdvances(cfg, s, sk, st, b);
    if boot.result.value.None? {
      NoBootstrap(cfg, s, sk, st, b);
      NoCluster(cfg, s, sk, st, b);
    } else {
      var before := if b.backup && !IsPgClone(st, b) then EnsureBucketQ(cfg, boot.store, sk, BackupName(name))
                    else Outcome(boot.store, Ok(UNBOUND));
      BucketAdvances(cfg, boot.store, sk, BackupName(name));
      ClusterUp(cfg, before.store, sk, b, boot.result.value.value, before.result.value);
    }
  }

  lemma NoCluster(cfg: Config, s: Store, sk: Key, st: Object, b: BackingSpec)
    requires st.Stack? && ChooseBootstrapQ(cfg, s, sk, st, b).result == Ok(None)
    ensures !ClusterReady(s, ClusterKey(sk.ns, NameOf(sk, b)))
  {
    hide CopyBackupCredsQ;
  }

  lemma ClusterUp(cfg: Config, s: Store, sk: Key, b: BackingSpec, boot: Bootstrap, archive: BoundBucket)
    requires Typed(s) && ApplyClusterQ(cfg, s, sk, b, boot, archive).result.Ok?
    ensures ClusterKey(sk.ns, NameOf(sk, b)) in ApplyClusterQ(cfg, s, sk, b, boot, archive).store.objs
    ensures ApplyClusterQ(cfg, s, sk, b, boot, archive).result.value <==>
            ClusterReady(ApplyClusterQ(cfg, s, sk, b, boot, archive).store, ClusterKey(sk.ns, NameOf(sk, b)))
  {
    hide Apply, Preserved, Blank;
    var name := NameOf(sk, b);
    var k := ClusterKey(sk.ns, name);
    var cl := Apply(cfg, s, k, PgPatch(sk, b, boot, archive));
    ApplyAdvances(cfg, s, k, PgPatch(sk, b, boot, archive));
    ApplyAdvances(cfg, cl.store, Key(ScheduledBackupKind, sk.ns, name), BaseBackup(sk.name, name));
    assert SameAt(cl.store, ApplyClusterQ(cfg, s, sk, b, boot, archive).store, k);
  }

  lemma ObjectReady(cfg: Config, s: Store, sk: Key, b: BackingSpec)
    requires Typed(s) && ObjectQ(cfg, s, sk, b).result.Ok?
    ensures ObjectQ(cfg, s, sk, b).result.value.ready <==>
            BucketBound(ObjectQ(cfg, s, sk, b).store, BucketKey(sk.ns, NameOf(sk, b))) &&
            Find(ObjectQ(cfg, s, sk, b).store, ConfigMapKey(sk.ns, NameOf(sk, b))).Some?
  {
    hide Apply, Preserved, Blank;
    ApplyAdvances(cfg, s, BucketKey(sk.ns, NameOf(sk, b)), BucketPatch(cfg, sk, NameOf(sk, b)));
  }

  lemma SetTierReady(cfg: Config, s: Store, sk: Key, st: Object, b: BackingSpec, secret: Patch, service: Patch,
                     persistent: bool, claim: Seed -> Patch, labelled: bool)
    requires Typed(s) && st.Stack? && PatchKind(secret) == SecretKind && PatchKind(service) == Objects.ServiceKind
    requires forall seed :: claim(seed).BackingSet?
    requires SetTierQ(cfg, s, sk, st, b, secret, service, persistent, claim, labelled).result.Ok?
    ensures var t := SetTierQ(cfg, s, sk, st, b, secret, service, persistent, claim, labelled);
            t.result.value.ready <==> SetReady(t.store, SetKey(sk.ns, NameOf(sk, b)))
  {
    hide Apply, CloneRestore, SetUpQ, Preserved, Blank, CloneKeys;
    var k := SetKey(sk.ns, NameOf(sk, b));
    var sec := Apply(cfg, s, SecretKey(sk.ns, NameOf(sk, b)), secret);
    var svc := Apply(cfg, sec.store, ServiceKey(sk.ns, NameOf(sk, b)), service);
    EndpointAdvances(cfg, s, sk, b, secret, service);
    TierKeysApart(sk, st, b);
    var seed := if persistent then Seeding(cfg, svc.store, sk, st, b.name) else Outcome(svc.store, Ok(Fresh));
    SeedingAdvances(cfg, svc.store, sk, st, b.name);
    if seed.result.value.Wait? {
      assert k !in svc.store.objs;
      assert SameAt(svc.store, seed.store, k);
    } else {
      SetUpReady(cfg, seed.store, sk, b, claim(seed.result.value), labelled);
    }
  }

  lemma SetUpReady(cfg: Config, s: Store, sk: Key, b: BackingSpec, p: Patch, labelled: bool)
    requires Typed(s) && p.BackingSet? && SetUpQ(cfg, s, sk, b, p, labelled).result.Ok?
    ensures SetKey(sk.ns, NameOf(sk, b)) in SetUpQ(cfg, s, sk, b, p, labelled).store.objs
    ensures SetUpQ(cfg, s, sk, b, p, labelled).result.value.ready <==>
            SetReady(SetUpQ(cfg, s, sk, b, p, labelled).store, SetKey(sk.ns, NameOf(sk, b)))
  {
    hide Apply, Preserved, BackupLabelled;
    var k := SetKey(sk.ns, NameOf(sk, b));
    var ss := Apply(cfg, s, k, p);
    ApplyAdvances(cfg, s, k, p);
    LabelAdvances(ss.store, sk.ns, sk.name, b.name);
    assert SameAt(ss.store, SetUpQ(cfg, s, sk, b, p, labelled).store, k);
  }

  /** In the store a provisioning leaves, the reconciler's answer is the twin's,
      and for a bucket the ConfigMap besides. */
  lemma GateAgrees(cfg: Config, cat: Catalog, s: Store, sk: Key, st: Object, b: BackingSpec)
    requires Typed(s) && st.Stack? && ProvisionQ(cfg, cat, s, sk, st, b).result.Ok?
    requires ProvisionQ(cfg, cat, s, sk, st, b).result.value.Some?
    ensures var t := ProvisionQ(cfg, cat, s, sk, st, b).store;
            ProvisionQ(cfg, cat, s, sk, st, b).result.value.value.got.ready <==>
            BackingReady(t, sk.ns, sk.name, b) && BucketNamed(t, sk, b)
  {
    hide Lower, PostgresQ, ObjectQ, TemplatedQ, FallbackQ, SetTierQ, SetReady, ClusterReady, BucketBound, Find;
    if IsPostgres(b.kind) {
      PostgresReady(cfg, s, sk, st, b);
    } else if IsObjectStore(b.kind) {
      ObjectReady(cfg, s, sk, b);
    } else if Lookup(cat, b.kind).Some? {
      var def := Lookup(cat, b.kind).value;
      ImageNeeded(cfg, s, sk, st, b, def);
      TemplatedIsTier(cfg, s, sk, st, b, def);
      SetTierReady(cfg, s, sk, st, b, SecretPatch(cfg, sk, b, def),
        EndpointPatch(sk, b, OrDefault(def.portName, def.kind), def.port), def.persistence.Some?,
        seed => TemplateSetPatch(sk, b, def, ImageOf(cfg, b, def).value, seed),
        def.persistence.Some? && b.backup && !IsPreviewClone(st));
    } else {
      PortNeeded(cfg, s, sk, st, b);
      FallbackIsTier(cfg, s, sk, st, b);
      SetTierReady(cfg, s, sk, st, b, AddressPatch(sk, b),
        EndpointPatch(sk, b, "svc", b.port), true, seed => FallbackSetPatch(cfg, sk, b, seed),
        b.backup && !IsPreviewClone(st));
    }
  }

  // ------------------------------------------------------- what provisioning a set leaves

  lemma SetUpMakes(cfg: Config, s: Store, sk: Key, b: BackingSpec, p: Patch, labelled: bool)
    requires Typed(s) && p.BackingSet? && SetUpQ(cfg, s, sk, b, p, labelled).result.Ok?
    ensures var t := SetUpQ(cfg, s, sk, b, p, labelled).store; var k := SetKey(sk.ns, NameOf(sk, b));
            k in t.objs && Carries(cfg, p, t.objs[k].obj) &&
            t.objs[k].obj.volume == (if k in s.objs then s.objs[k].obj.volume else p.volume) &&
            (labelled ==> LabelledIfThere(t, ClaimKey(sk.ns, sk.name, b.name)))
  {
    hide Carries, Preserved, Blank;
    var k := SetKey(sk.ns, NameOf(sk, b));
    var ss := Apply(cfg, s, k, p);
    ApplyAdvances(cfg, s, k, p);
    LabelAdvances(ss.store, sk.ns, sk.name, b.name);
    MutateCarries(cfg, p, Find(s, k));
    assert SameAt(ss.store, SetUpQ(cfg, s, sk, b, p, labelled).store, k);
  }

  /** The seed of a StatefulSet that is about to be made. */
  function SeedFor(st: Object, b: BackingSpec, persistent: bool): Seed
    requires st.Stack?
  {
    if persistent && IsPreviewClone(st) then From(RestoreName(b.name)) else Fresh
  }

  lemma SeedingIs(cfg: Config, s: Store, sk: Key, st: Object, b: BackingSpec)
    requires Typed(s) && st.Stack? && SetKey(sk.ns, NameOf(sk, b)) !in s.objs
    requires Seeding(cfg, s, sk, st, b.name).result.Ok?
    ensures Seeding(cfg, s, sk, st, b.name).result.value in {Wait, SeedFor(st, b, true)}
  {
    hide CloneRestore, LinkedStore, AfterSource, Seen;
    if IsPreviewClone(st) {
      CloneIs(cfg, s, st, sk.ns, b.name);
    }
  }

  /** A tier that is not left waiting leaves its StatefulSet as some seed's patch has it,
      made with the right seed, its claim kept where it was there, and labelled. */
  lemma SetTierMakes(cfg: Config, s: Store, sk: Key, st: Object, b: BackingSpec, secret: Patch, service: Patch,
                     persistent: bool, claim: Seed -> Patch, labelled: bool) returns (seed: Seed)
    requires Typed(s) && st.Stack? && PatchKind(secret) == SecretKind && PatchKind(service) == Objects.ServiceKind
    requires forall seed :: claim(seed).BackingSet?
    requires var r := SetTierQ(cfg, s, sk, st, b, secret, service, persistent, claim, labelled).result;
             r.Ok? && !r.value.pending
    ensures var t := SetTierQ(cfg, s, sk, st, b, secret, service, persistent, claim, labelled).store;
            var k := SetKey(sk.ns, NameOf(sk, b));
            k in t.objs && Carries(cfg, claim(seed), t.objs[k].obj) &&
            (k in s.objs ==> s.objs[k].obj.StatefulSet? && t.objs[k].obj.volume == s.objs[k].obj.volume) &&
            (k !in s.objs ==> seed == SeedFor(st, b, persistent) && t.objs[k].obj.volume == claim(seed).volume) &&
            (labelled ==> LabelledIfThere(t, ClaimKey(sk.ns, sk.name, b.name)))
  {
    hide Apply, CloneRestore, SetUpQ, Preserved, Blank, CloneKeys, Seeding, Carries, LabelledIfThere, ClaimKey;
    var k := SetKey(sk.ns, NameOf(sk, b));
    var sec := Apply(cfg, s, SecretKey(sk.ns, NameOf(sk, b)), secret);
    var svc := Apply(cfg, sec.store, ServiceKey(sk.ns, NameOf(sk, b)), service);
    EndpointAdvances(cfg, s, sk, b, secret, service);
    TierKeysApart(sk, st, b);
    assert SameAt(s, svc.store, k);
    var seeded := if persistent then Seeding(cfg, svc.store, sk, st, b.name) else Outcome(svc.store, Ok(Fresh));
    SeedingAdvances(cfg, svc.store, sk, st, b.name);
    assert SameAt(svc.store, seeded.store, k);
    seed := seeded.result.value;
    if k !in s.objs && persistent {
      SeedingIs(cfg, svc.store, sk, st, b);
    }
    SetUpMakes(cfg, seeded.store, sk, b, claim(seed), labelled);
  }

  /** What the catalog, or else its image, provisions a backing from. */
  function SetOrigin(cat: Catalog, b: BackingSpec): Origin {
    var def := Lookup(cat, b.kind);
    if def.Some? then Descriptor(def.value) else Image
  }

  /** What provisioning a StatefulSet leaves: it is as its backing asks; made now, it has
      a claim exactly when it persists, of the size asked for, which in a preview
      restores the clone's snapshot; there before, it keeps the claim it had; and the
      claim of one to be backed up carries the label. */
  lemma SetMade(cfg: Config, cat: Catalog, s: Store, sk: Key, st: Object, b: BackingSpec)
    requires Typed(s) && st.Stack? && ProvisionQ(cfg, cat, s, sk, st, b).result.Ok?
    requires !IsPostgres(b.kind) && !IsObjectStore(b.kind)
    requires var placed := ProvisionQ(cfg, cat, s, sk, st, b).result.value;
             placed.Some? && !placed.value.got.pending
    ensures var t := ProvisionQ(cfg, cat, s, sk, st, b).store; var k := SetKey(sk.ns, NameOf(sk, b));
            var from := SetOrigin(cat, b);
            k in t.objs && SetFits(cfg, t.objs[k].obj, sk.name, b, from) &&
            (k in s.objs ==> s.objs[k].obj.StatefulSet? && t.objs[k].obj.volume == s.objs[k].obj.volume) &&
            (k !in s.objs ==>
               VolumeFits(t.objs[k].obj.volume, b, from) &&
               (Persistent(from) ==>
                  t.objs[k].obj.volume.value.source == if IsPreviewClone(st) then Some(RestoreName(b.name))
                                                       else None)) &&
            (Persistent(from) && b.backup && !IsPreviewClone(st) ==>
               LabelledIfThere(t, ClaimKey(sk.ns, sk.name, b.name)))
  {
    hide Lower, TemplatedQ, FallbackQ, SetTierQ, SetFits, Carries, LabelledIfThere, ClaimKey;
    if Lookup(cat, b.kind).Some? {
      var def := Lookup(cat, b.kind).value;
      ImageNeeded(cfg, s, sk, st, b, def);
      TemplatedIsTier(cfg, s, sk, st, b, def);
      var image := ImageOf(cfg, b, def).value;
      var seed := SetTierMakes(cfg, s, sk, st, b, SecretPatch(cfg, sk, b, def),
        EndpointPatch(sk, b, OrDefault(def.portName, def.kind), def.port), def.persistence.Some?,
        seed => TemplateSetPatch(sk, b, def, image, seed), def.persistence.Some? && b.backup && !IsPreviewClone(st));
      TemplateSetFits(cfg, sk, b, def, image, seed);
      CarriedFits(cfg, TemplateSetPatch(sk, b, def, image, seed),
        ProvisionQ(cfg, cat, s, sk, st, b).store.objs[SetKey(sk.ns, NameOf(sk, b))].obj, sk.name, b, Descriptor(def));
    } else {
      PortNeeded(cfg, s, sk, st, b);
      FallbackIsTier(cfg, s, sk, st, b);
      var seed := SetTierMakes(cfg, s, sk, st, b, AddressPatch(sk, b), EndpointPatch(sk, b, "svc", b.port), true,
        seed => FallbackSetPatch(cfg, sk, b, seed), b.backup && !IsPreviewClone(st));
      FallbackSetFits(cfg, sk, b, seed);
      CarriedFits(cfg, FallbackSetPatch(cfg, sk, b, seed),
        ProvisionQ(cfg, cat, s, sk, st, b).store.objs[SetKey(sk.ns, NameOf(sk, b))].obj, sk.name, b, Image);
    }
  }

  /** Undisturbed, a Stack that is no clone and has a backing to be backed up is left with
      its snapshot schedule, unless somebody else owns that; any other Stack without. */
  lemma ScheduleMade(cfg: Config, s: Store, sk: Key, st: Object)
    requires st.Stack? && Typed(s)
    requires ScheduleKey(sk) in s.objs ==> OwnerOf(s.objs[ScheduleKey(sk)].obj) in {None, Some(sk.name)}
    ensures if !IsPreviewClone(st) && exists b | b in st.spec.backing :: b.backup
            then Find(Scheduled(cfg, s, sk, st), Key(SnapshotScheduleKind, sk.ns, sk.name + "-backup")) ==
                 Some(SnapshotSchedule(Some(sk.name)))
            else Scheduled(cfg, s, sk, st) == s
  {
    if b :| b in st.spec.backing && b.backup {
      var i :| 0 <= i < |st.spec.backing| && st.spec.backing[i] == b;
    }
  }
}
