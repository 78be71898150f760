/** The four ways to provision a backing: reconcileTemplated (servicedef.go),
    reconcileFallback, reconcilePostgres and reconcileObject
    (stack_controller.go). */
module Tiers {
  import opened Wrappers
  import opened Names
  import opened Objects
  import opened Shapes
  import opened Clusters
  import opened Api
  import opened Snapshots
  import opened Volumes
  import opened Bindings

  function NameOf(sk: Key, b: BackingSpec): string { BackingName(sk.name, b.name) }

  function LabelsOf(sk: Key, b: BackingSpec): Labels { BackingLabels(sk.name, b.name) }

  // ------------------------------------------------------------------ templates

  function ImageOf(cfg: Config, b: BackingSpec, def: ServiceDefinition): Result<string> {
    cfg.render(def.image, map["Version" := OrDefault(b.version, def.defaultVersion)])
  }

  function TemplateVolume(b: BackingSpec, def: ServiceDefinition, seed: Seed): Option<VolumeClaim> {
    if def.persistence.None? then None
    else Some(VolumeClaim(OrDefault(b.disk, OrDefault(def.persistence.value.defaultDisk, "1Gi")), SourceOf(seed)))
  }

  function SecretPatch(cfg: Config, sk: Key, b: BackingSpec, def: ServiceDefinition): Patch {
    TemplatedSecret(sk.name, def, ServiceHost(NameOf(sk, b), sk.ns), cfg.mint(sk.ns, NameOf(sk, b)))
  }

  function EndpointPatch(sk: Key, b: BackingSpec, portName: string, port: int): Patch {
    BackingService(sk.name, LabelsOf(sk, b), portName, port)
  }

  function TemplateContainer(def: ServiceDefinition, image: string, env: seq<EnvVar>): Container {
    Container(def.kind, image, def.command, def.args, env, def.port,
      if def.persistence.Some? then Some(def.persistence.value.mountPath) else None)
  }

  ghost function TemplateSetPatch(sk: Key, b: BackingSpec, def: ServiceDefinition, image: string, seed: Seed): Patch {
    BackingSet(sk.name, LabelsOf(sk, b), NameOf(sk, b),
      TemplateContainer(def, image, SortedSecretEnv(def.containerEnv, NameOf(sk, b))), TemplateVolume(b, def, seed))
  }

  /** The StatefulSet a patch creates. */
  function Created(p: Patch): Object
    requires p.BackingSet?
  {
    StatefulSet(Some(p.stack), p.labels, p.serviceName, p.container, p.volume, 0)
  }

  /** The patch is what the backing asks for, provisioned from `from` under the
      catalog read. */
  predicate Asked(cfg: Config, stores: seq<Store>, sk: Key, b: BackingSpec, p: Patch, read: Option<nat>, from: Origin) {
    p.BackingSet? && SetFits(cfg, Created(p), sk.name, b, from) && VolumeFits(p.volume, b, from) &&
    FromCatalog(cfg, stores, b, read, from)
  }

  predicate FromCatalog(cfg: Config, stores: seq<Store>, b: BackingSpec, read: Option<nat>, from: Origin) {
    ReadIn(stores, read) && from in Origins(cfg, DataRead(cfg, stores, read), b)
  }

  lemma StillFromCatalog(cfg: Config, stores: seq<Store>, stores': seq<Store>, b: BackingSpec, read: Option<nat>,
                         from: Origin)
    requires stores <= stores' && FromCatalog(cfg, stores, b, read, from)
    ensures FromCatalog(cfg, stores', b, read, from)
  {
    hide Origins, OverlayData;
  }

  lemma JustifySet(cfg: Config, stores: seq<Store>, v: nat, sk: Key, st: Object, bi: nat, p: Patch, seed: nat,
                   read: Option<nat>, from: Origin)
    requires HasStack(stores, v, sk) && StackAt(stores, v, sk) == st && bi < |st.spec.backing|
    requires Asked(cfg, stores, sk, BackingAt(st, bi), p, read, from)
    requires p.volume.Some? ==>
               SeedJustified(stores, SetKey(sk.ns, NameOf(sk, BackingAt(st, bi))), st, BackingAt(st, bi),
                 p.volume.value.source, seed)
    ensures Justified(cfg, stores, SetKey(sk.ns, NameOf(sk, BackingAt(st, bi))), p,
                      Placement(v, sk, bi, seed, read, from))
  {
    hide SetFits, VolumeFits, SeedJustified, Origins, DataRead;
  }

  lemma CarriedFits(cfg: Config, p: Patch, o: Object, stack: string, b: BackingSpec, from: Origin)
    requires p.BackingSet? && SetFits(cfg, Created(p), stack, b, from) && Carries(cfg, p, o)
    ensures SetFits(cfg, o, stack, b, from)
  {
  }

  /** An object was there in some store of the run. */
  predicate Exists(stores: seq<Store>, at: nat, k: Key) {
    at < |stores| && k in stores[at].objs
  }

  /** Where a provisioning pass saw what it leaves: the object of its tier, the Secret
      and the Service of a StatefulSet; the bucket, its ConfigMap and the
      ScheduledBackup of a Cluster that is backed up. */
  datatype Place = Place(at: nat, secret: nat, service: nat, bound: nat, named: nat, scheduled: nat, from: Origin)

  const NO_PLACE := Place(0, 0, 0, 0, 0, 0, Operator)

  /** Secret and Service were seen as the backing asks. */
  predicate EndpointSeen(cfg: Config, stores: seq<Store>, sk: Key, b: BackingSpec, p: Place) {
    var name := NameOf(sk, b);
    Exists(stores, p.secret, SecretKey(sk.ns, name)) &&
    SecretFits(cfg, stores[p.secret].objs[SecretKey(sk.ns, name)].obj, sk.name, sk.ns, b, p.from) &&
    Exists(stores, p.service, ServiceKey(sk.ns, name)) &&
    EndpointFits(stores[p.service].objs[ServiceKey(sk.ns, name)].obj, sk.name, b, p.from)
  }

  /** So was the StatefulSet. */
  predicate SetSeen(cfg: Config, stores: seq<Store>, sk: Key, b: BackingSpec, p: Place) {
    var k := SetKey(sk.ns, NameOf(sk, b));
    Exists(stores, p.at, k) && SetFits(cfg, stores[p.at].objs[k].obj, sk.name, b, p.from) &&
    EndpointSeen(cfg, stores, sk, b, p)
  }

  lemma EndpointStays(cfg: Config, stores: seq<Store>, stores': seq<Store>, sk: Key, b: BackingSpec, p: Place, at: nat)
    requires stores <= stores' && EndpointSeen(cfg, stores, sk, b, p)
    ensures EndpointSeen(cfg, stores', sk, b, p.(at := at))
  {
    hide SecretFits, EndpointFits;
  }

  /** The Secret and the headless Service of a template backing. */
  method TemplateEndpoint(c: ApiServer, sk: Key, b: BackingSpec, def: ServiceDefinition)
    returns (r: Result<()>, ghost p: Place)
    requires c.Valid()
    modifies c`stores, c`events
    ensures c.Valid() && old(c.stores) <= c.stores && old(c.events) <= c.events
    ensures r.Ok? ==> p.from == Descriptor(def) && EndpointSeen(c.cfg, c.stores, sk, b, p)
    ensures c.quiet ==> Outcome(c.Now(), r) == TemplateEndpointQ(c.cfg, old(c.Now()), sk, b, def)
  {
    hide IsStep, Mutate, Justified, Apply, Carries, SecretFits, EndpointFits;
    p := NO_PLACE.(from := Descriptor(def));
    var name := NameOf(sk, b);
    var patch := SecretPatch(c.cfg, sk, b, def);
    PlumbingJustified(c.cfg, c.stores, SecretKey(sk.ns, name), patch);
    var sec, secAt := c.CreateOrUpdate(SecretKey(sk.ns, name), patch, Plumbing);
    if sec.Err? {
      return Err(sec.why), p;
    }
    TemplateSecretFits(c.cfg, sk, b, def, sec.value.obj);
    patch := EndpointPatch(sk, b, OrDefault(def.portName, def.kind), def.port);
    PlumbingJustified(c.cfg, c.stores, ServiceKey(sk.ns, name), patch);
    var svc, svcAt := c.CreateOrUpdate(ServiceKey(sk.ns, name), patch, Plumbing);
    if svc.Err? {
      return Err(svc.why), p;
    }
    ServiceCarries(c.cfg, sk, b, Descriptor(def), patch, svc.value.obj);
    p := p.(secret := secAt, service := svcAt);
    r := Ok(());
  }

  lemma TemplateSecretFits(cfg: Config, sk: Key, b: BackingSpec, def: ServiceDefinition, o: Object)
    requires Carries(cfg, SecretPatch(cfg, sk, b, def), o)
    ensures SecretFits(cfg, o, sk.name, sk.ns, b, Descriptor(def))
  {
    hide Coherent;
  }

  lemma ServiceCarries(cfg: Config, sk: Key, b: BackingSpec, from: Origin, p: Patch, o: Object)
    requires Carries(cfg, p, o)
    requires match from
             case Operator => false
             case Image => p == EndpointPatch(sk, b, "svc", b.port)
             case Descriptor(def) => p == EndpointPatch(sk, b, OrDefault(def.portName, def.kind), def.port)
    ensures EndpointFits(o, sk.name, b, from)
  {
  }

  function TemplateEndpointQ(cfg: Config, s: Store, sk: Key, b: BackingSpec, def: ServiceDefinition): Outcome<()> {
    var sec := Apply(cfg, s, SecretKey(sk.ns, NameOf(sk, b)), SecretPatch(cfg, sk, b, def));
    if sec.result.Err? then Outcome(sec.store, Err(sec.result.why))
    else
      var svc := Apply(cfg, sec.store, ServiceKey(sk.ns, NameOf(sk, b)),
        EndpointPatch(sk, b, OrDefault(def.portName, def.kind), def.port));
      Outcome(svc.store, if svc.result.Err? then Err(svc.result.why) else Ok(()))
  }

  /** The StatefulSet, and its claim's backup label, once the volume is settled. */
  method SetUp(c: ApiServer, sk: Key, st: Object, bi: nat, p: Patch, labelled: bool, ghost v: nat, ghost seed: nat,
               ghost read: Option<nat>, ghost from: Origin)
    returns (r: Result<Provisioned>, ghost at: nat)
    requires Reads(c, sk, st, v) && bi < |st.spec.backing|
    requires Asked(c.cfg, c.stores, sk, BackingAt(st, bi), p, read, from)
    requires p.volume.Some? ==>
               SeedJustified(c.stores, SetKey(sk.ns, NameOf(sk, BackingAt(st, bi))), st, BackingAt(st, bi),
                 p.volume.value.source, seed)
    modifies c`stores, c`events
    ensures c.Valid() && old(c.stores) <= c.stores && old(c.events) <= c.events
    ensures r.Ok? ==>
              !r.value.pending && r.value.secret == NameOf(sk, BackingAt(st, bi)) &&
              Exists(c.stores, at, SetKey(sk.ns, NameOf(sk, BackingAt(st, bi)))) &&
              SetFits(c.cfg, c.stores[at].objs[SetKey(sk.ns, NameOf(sk, BackingAt(st, bi)))].obj, sk.name,
                BackingAt(st, bi), from) &&
              (r.value.ready ==> SetReady(c.stores[at], SetKey(sk.ns, NameOf(sk, BackingAt(st, bi)))))
    ensures c.quiet ==> Outcome(c.Now(), r) == SetUpQ(c.cfg, old(c.Now()), sk, BackingAt(st, bi), p, labelled)
  {
    hide IsStep, Mutate, Justified, Apply, SeedJustified, BackupLabelled, Carries, SetFits, VolumeFits, FromCatalog;
    at := 0;
    var b := BackingAt(st, bi);
    JustifySet(c.cfg, c.stores, v, sk, st, bi, p, seed, read, from);
    var ss, ssAt := c.CreateOrUpdate(SetKey(sk.ns, NameOf(sk, b)), p, Placement(v, sk, bi, seed, read, from));
    if ss.Err? {
      return Err(ss.why), at;
    }
    at := ssAt;
    CarriedFits(c.cfg, p, ss.value.obj, sk.name, b, from);
    SetIsOne(c.cfg, ss.value.obj, sk.name, b, from);
    if labelled {
      var marked;
      ghost var readAt, markedAt;
      marked, readAt, markedAt := LabelBackup(c, sk.ns, sk.name, b.name); // best effort
    }
    r := Ok(Provisioned(ss.value.obj.readyReplicas >= 1, NameOf(sk, b), false));
  }

  lemma SetIsOne(cfg: Config, o: Object, stack: string, b: BackingSpec, from: Origin)
    requires SetFits(cfg, o, stack, b, from)
    ensures o.StatefulSet?
  {
  }

  function SetUpQ(cfg: Config, s: Store, sk: Key, b: BackingSpec, p: Patch, labelled: bool): Outcome<Provisioned>
    requires p.BackingSet?
  {
    var ss := Apply(cfg, s, SetKey(sk.ns, NameOf(sk, b)), p);
    if ss.result.Err? then Outcome(ss.store, Err(ss.result.why))
    else
      Outcome(if labelled then BackupLabelled(ss.store, sk.ns, sk.name, b.name) else ss.store,
        Ok(Provisioned(ss.result.value.obj.readyReplicas >= 1, NameOf(sk, b), false)))
  }

  /** reconcileTemplated. */
  method ReconcileTemplated(c: ApiServer, sk: Key, st: Object, bi: nat, def: ServiceDefinition, ghost v: nat,
                            ghost read: Option<nat>)
    returns (r: Result<Provisioned>, ghost p: Place)
    requires Reads(c, sk, st, v) && bi < |st.spec.backing|
    requires FromCatalog(c.cfg, c.stores, BackingAt(st, bi), read, Descriptor(def))
    modifies c`stores, c`events
    ensures c.Valid() && old(c.stores) <= c.stores && old(c.events) <= c.events
    ensures r.Ok? ==>
              r.value.secret == NameOf(sk, BackingAt(st, bi)) && p.from == Descriptor(def) &&
              EndpointSeen(c.cfg, c.stores, sk, BackingAt(st, bi), p)
    ensures r.Ok? && r.value.ready ==>
              !r.value.pending && p.at < |c.stores| &&
              SetReady(c.stores[p.at], SetKey(sk.ns, NameOf(sk, BackingAt(st, bi))))
    ensures r.Ok? && !r.value.pending ==> SetSeen(c.cfg, c.stores, sk, BackingAt(st, bi), p)
    ensures c.quiet ==> Outcome(c.Now(), r) == TemplatedQ(c.cfg, old(c.Now()), sk, st, BackingAt(st, bi), def)
  {
    hide IsStep, SeedJustified, EndpointSeen, SetReady, TemplateEndpointQ, Seeding, SetUpQ, FromCatalog, SetFits,
         VolumeFits;
    p := NO_PLACE;
    var b := BackingAt(st, bi);
    var image := ImageOf(c.cfg, b, def);
    if image.Err? {
      return Err(image.why), p;
    }
    var endpoint;
    endpoint, p := TemplateEndpoint(c, sk, b, def);
    if endpoint.Err? {
      return Err(endpoint.why), p;
    }
    ghost var stores1 := c.stores;
    var seed := Fresh;
    ghost var at := 0;
    if def.persistence.Some? {
      var seeded;
      seeded, at := SeedVolume(c, sk, st, bi, v);
      if seeded.Err? {
        return Err(seeded.why), p;
      }
      seed := seeded.value;
      if seed.Wait? {
        EndpointStays(c.cfg, stores1, c.stores, sk, b, p, p.at);
        return Ok(Provisioned(false, NameOf(sk, b), true)), p;
      }
    }
    var env := ContainerEnvFrom(def.containerEnv, NameOf(sk, b));
    var patch := BackingSet(sk.name, LabelsOf(sk, b), NameOf(sk, b), TemplateContainer(def, image.value, env),
      TemplateVolume(b, def, seed));
    TemplateSetFits(c.cfg, sk, b, def, image.value, seed);
    StillFromCatalog(c.cfg, old(c.stores), c.stores, b, read, Descriptor(def));
    ghost var ready;
    r, ready := SetUp(c, sk, st, bi, patch, def.persistence.Some? && b.backup && !IsPreviewClone(st), v, at, read,
      Descriptor(def));
    EndpointStays(c.cfg, stores1, c.stores, sk, b, p, ready);
    p := p.(at := ready);
  }

  lemma TemplateSetFits(cfg: Config, sk: Key, b: BackingSpec, def: ServiceDefinition, image: string, seed: Seed)
    requires ImageOf(cfg, b, def) == Ok(image)
    ensures var p := TemplateSetPatch(sk, b, def, image, seed);
            SetFits(cfg, Created(p), sk.name, b, Descriptor(def)) && VolumeFits(p.volume, b, Descriptor(def))
  {
    hide SortedSecretEnv, Refers;
    SortedRefers(def.containerEnv, NameOf(sk, b));
  }

  ghost function TemplatedQ(cfg: Config, s: Store, sk: Key, st: Object, b: BackingSpec,
        def: ServiceDefinition): Outcome<Provisioned>
    requires st.Stack?
  {
    var image := ImageOf(cfg, b, def);
    if image.Err? then Outcome(s, Err(image.why))
    else
      var endpoint := TemplateEndpointQ(cfg, s, sk, b, def);
      if endpoint.result.Err? then Outcome(endpoint.store, Err(endpoint.result.why))
      else
        var seed := if def.persistence.Some? then Seeding(cfg, endpoint.store, sk, st, b.name)
                    else Outcome(endpoint.store, Ok(Fresh));
        if seed.result.Err? then Outcome(seed.store, Err(seed.result.why))
        else if seed.result.value.Wait? then Outcome(seed.store, Ok(Provisioned(false, NameOf(sk, b), true)))
        else SetUpQ(cfg, seed.store, sk, b, TemplateSetPatch(sk, b, def, image.value, seed.result.value),
          def.persistence.Some? && b.backup && !IsPreviewClone(st))
  }

  // ------------------------------------------------------------------- fallback

  function FallbackContainer(cfg: Config, b: BackingSpec): Container {
    Container("backing", cfg.normalize(b.image), [], [], [], b.port, Some("/data"))
  }

  function FallbackSetPatch(cfg: Config, sk: Key, b: BackingSpec, seed: Seed): Patch {
    BackingSet(sk.name, LabelsOf(sk, b), NameOf(sk, b), FallbackContainer(cfg, b),
      Some(VolumeClaim(OrDefault(b.disk, "1Gi"), SourceOf(seed))))
  }

  method FallbackEndpoint(c: ApiServer, sk: Key, b: BackingSpec) returns (r: Result<()>, ghost p: Place)
    requires c.Valid()
    modifies c`stores, c`events
    ensures c.Valid() && old(c.stores) <= c.stores && old(c.events) <= c.events
    ensures r.Ok? ==> p.from == Image && EndpointSeen(c.cfg, c.stores, sk, b, p)
    ensures c.quiet ==> Outcome(c.Now(), r) == FallbackEndpointQ(c.cfg, old(c.Now()), sk, b)
  {
    hide IsStep, Mutate, Justified, Apply, Carries, SecretFits, EndpointFits;
    p := NO_PLACE.(from := Image);
    var name := NameOf(sk, b);
    var patch := AddressPatch(sk, b);
    PlumbingJustified(c.cfg, c.stores, SecretKey(sk.ns, name), patch);
    var sec, secAt := c.CreateOrUpdate(SecretKey(sk.ns, name), patch, Plumbing);
    if sec.Err? {
      return Err(sec.why), p;
    }
    AddressCarries(c.cfg, sk, b, sec.value.obj);
    patch := EndpointPatch(sk, b, "svc", b.port);
    PlumbingJustified(c.cfg, c.stores, ServiceKey(sk.ns, name), patch);
    var svc, svcAt := c.CreateOrUpdate(ServiceKey(sk.ns, name), patch, Plumbing);
    if svc.Err? {
      return Err(svc.why), p;
    }
    ServiceCarries(c.cfg, sk, b, Image, patch, svc.value.obj);
    p := p.(secret := secAt, service := svcAt);
    r := Ok(());
  }

  function AddressPatch(sk: Key, b: BackingSpec): Patch {
    FallbackSecret(sk.name, ServiceHost(NameOf(sk, b), sk.ns), b.port)
  }

  lemma AddressCarries(cfg: Config, sk: Key, b: BackingSpec, o: Object)
    requires Carries(cfg, AddressPatch(sk, b), o)
    ensures SecretFits(cfg, o, sk.name, sk.ns, b, Image)
  {
  }

  function FallbackEndpointQ(cfg: Config, s: Store, sk: Key, b: BackingSpec): Outcome<()> {
    var name := NameOf(sk, b);
    var sec := Apply(cfg, s, SecretKey(sk.ns, name), AddressPatch(sk, b));
    if sec.result.Err? then Outcome(sec.store, Err(sec.result.why))
    else
      var svc := Apply(cfg, sec.store, ServiceKey(sk.ns, name), EndpointPatch(sk, b, "svc", b.port));
      Outcome(svc.store, if svc.result.Err? then Err(svc.result.why) else Ok(()))
  }

  /** reconcileFallback. */
  method ReconcileFallback(c: ApiServer, sk: Key, st: Object, bi: nat, ghost v: nat, ghost read: Option<nat>)
    returns (r: Result<Provisioned>, ghost p: Place)
    requires Reads(c, sk, st, v) && bi < |st.spec.backing|
    requires FromCatalog(c.cfg, c.stores, BackingAt(st, bi), read, Image)
    modifies c`stores, c`events
    ensures c.Valid() && old(c.stores) <= c.stores && old(c.events) <= c.events
    ensures r.Ok? ==>
              r.value.secret == NameOf(sk, BackingAt(st, bi)) && p.from == Image && BackingAt(st, bi).port != 0 &&
              EndpointSeen(c.cfg, c.stores, sk, BackingAt(st, bi), p)
    ensures r.Ok? && r.value.ready ==>
              !r.value.pending && p.at < |c.stores| &&
              SetReady(c.stores[p.at], SetKey(sk.ns, NameOf(sk, BackingAt(st, bi))))
    ensures r.Ok? && !r.value.pending ==> SetSeen(c.cfg, c.stores, sk, BackingAt(st, bi), p)
    ensures c.quiet ==> Outcome(c.Now(), r) == FallbackQ(c.cfg, old(c.Now()), sk, st, BackingAt(st, bi))
  {
    hide IsStep, SeedJustified, SetReady, EndpointSeen, FallbackEndpointQ, Seeding, SetUpQ, FromCatalog, SetFits,
         VolumeFits;
    p := NO_PLACE;
    var b := BackingAt(st, bi);
    if b.port == 0 {
      return Err(NeedsPort), p;
    }
    var endpoint;
    endpoint, p := FallbackEndpoint(c, sk, b);
    if endpoint.Err? {
      return Err(endpoint.why), p;
    }
    ghost var stores1 := c.stores;
    var seeded;
    ghost var at;
    seeded, at := SeedVolume(c, sk, st, bi, v);
    if seeded.Err? {
      return Err(seeded.why), p;
    }
    EndpointStays(c.cfg, stores1, c.stores, sk, b, p, p.at);
    if seeded.value.Wait? {
      return Ok(Provisioned(false, NameOf(sk, b), true)), p;
    }
    FallbackSetFits(c.cfg, sk, b, seeded.value);
    StillFromCatalog(c.cfg, old(c.stores), c.stores, b, read, Image);
    ghost var ready;
    r, ready := SetUp(c, sk, st, bi, FallbackSetPatch(c.cfg, sk, b, seeded.value), b.backup &&
                      !IsPreviewClone(st), v, at,
      read, Image);
    EndpointStays(c.cfg, stores1, c.stores, sk, b, p, ready);
    p := p.(at := ready);
  }

  lemma FallbackSetFits(cfg: Config, sk: Key, b: BackingSpec, seed: Seed)
    requires b.port != 0
    ensures var p := FallbackSetPatch(cfg, sk, b, seed);
            SetFits(cfg, Created(p), sk.name, b, Image) && VolumeFits(p.volume, b, Image)
  {
  }

  function FallbackQ(cfg: Config, s: Store, sk: Key, st: Object, b: BackingSpec): Outcome<Provisioned>
    requires st.Stack?
  {
    if b.port == 0 then Outcome(s, Err(NeedsPort))
    else
      var endpoint := FallbackEndpointQ(cfg, s, sk, b);
      if endpoint.result.Err? then Outcome(endpoint.store, Err(endpoint.result.why))
      else
        var seed := Seeding(cfg, endpoint.store, sk, st, b.name);
        if seed.result.Err? then Outcome(seed.store, Err(seed.result.why))
        else if seed.result.value.Wait? then Outcome(seed.store, Ok(Provisioned(false, NameOf(sk, b), true)))
        else SetUpQ(cfg, seed.store, sk, b, FallbackSetPatch(cfg, sk, b, seed.result.value),
          b.backup && !IsPreviewClone(st))
  }

  // ------------------------------------------------------------ buckets, objects

  /** ensureBucket's answer: bound with its ConfigMap there, and the name in it. */
  datatype BoundBucket = BoundBucket(bound: bool, name: string)

  const UNBOUND := BoundBucket(false, "")

  function BucketPatch(cfg: Config, sk: Key, name: string): Patch { Bucket(sk.name, name, cfg.storageClass) }

  method EnsureBucket(c: ApiServer, sk: Key, name: string)
    returns (r: Result<BoundBucket>, ghost at: nat, ghost named: nat)
    requires c.Valid()
    modifies c`stores, c`events
    ensures c.Valid() && old(c.stores) <= c.stores && old(c.events) <= c.events
    ensures r.Ok? ==>
              Exists(c.stores, at, BucketKey(sk.ns, name)) &&
              ClaimFits(c.cfg, c.stores[at].objs[BucketKey(sk.ns, name)].obj, sk.name, name)
    ensures r.Ok? && r.value.bound ==>
              BucketBound(c.stores[at], BucketKey(sk.ns, name)) && named < |c.stores| &&
              NamesBucket(c.stores[named], ConfigMapKey(sk.ns, name), r.value.name)
    ensures c.quiet ==> Outcome(c.Now(), r) == EnsureBucketQ(c.cfg, old(c.Now()), sk, name)
  {
    hide IsStep, Mutate, Justified, Apply;
    at, named := 0, 0;
    PlumbingJustified(c.cfg, c.stores, BucketKey(sk.ns, name), BucketPatch(c.cfg, sk, name));
    var obc, obcAt := c.CreateOrUpdate(BucketKey(sk.ns, name), BucketPatch(c.cfg, sk, name), Plumbing);
    if obc.Err? {
      return Err(obc.why), at, named;
    }
    at := obcAt;
    if !obc.value.obj.bound {
      return Ok(UNBOUND), at, named;
    }
    var cm, cmAt := c.Get(ConfigMapKey(sk.ns, name));
    named := cmAt;
    match cm
    case Failed => r := Err(Transient);
    case Missing => r := Ok(UNBOUND);
    case Found(entry) => r := Ok(BoundBucket(true, GetOr(entry.obj.data, "BUCKET_NAME", "")));
  }

  function EnsureBucketQ(cfg: Config, s: Store, sk: Key, name: string): Outcome<BoundBucket> {
    var obc := Apply(cfg, s, BucketKey(sk.ns, name), BucketPatch(cfg, sk, name));
    if obc.result.Err? then Outcome(obc.store, Err(obc.result.why))
    else if !obc.result.value.obj.bound then Outcome(obc.store, Ok(UNBOUND))
    else
      var cm := Find(obc.store, ConfigMapKey(sk.ns, name));
      Outcome(obc.store, Ok(if cm.None? then UNBOUND
                            else BoundBucket(true, GetOr(cm.value.data, "BUCKET_NAME", ""))))
  }

  /** reconcileObject. */
  method ReconcileObject(c: ApiServer, sk: Key, b: BackingSpec)
    returns (r: Result<Provisioned>, ghost at: nat, ghost named: nat)
    requires c.Valid()
    modifies c`stores, c`events
    ensures c.Valid() && old(c.stores) <= c.stores && old(c.events) <= c.events
    ensures r.Ok? ==>
              Exists(c.stores, at, BucketKey(sk.ns, NameOf(sk, b))) && r.value.secret == NameOf(sk, b) &&
              ClaimFits(c.cfg, c.stores[at].objs[BucketKey(sk.ns, NameOf(sk, b))].obj, sk.name, NameOf(sk, b))
    ensures r.Ok? && r.value.ready ==>
              BucketBound(c.stores[at], BucketKey(sk.ns, NameOf(sk, b))) &&
              Exists(c.stores, named, ConfigMapKey(sk.ns, NameOf(sk, b)))
    ensures c.quiet ==> Outcome(c.Now(), r) == ObjectQ(c.cfg, old(c.Now()), sk, b)
  {
    hide IsStep, EnsureBucketQ, ClaimFits;
    var bucket;
    bucket, at, named := EnsureBucket(c, sk, NameOf(sk, b));
    r := if bucket.Err? then Err(bucket.why) else Ok(Provisioned(bucket.value.bound, NameOf(sk, b), false));
  }

  function ObjectQ(cfg: Config, s: Store, sk: Key, b: BackingSpec): Outcome<Provisioned> {
    var bucket := EnsureBucketQ(cfg, s, sk, NameOf(sk, b));
    Outcome(bucket.store, if bucket.result.Err? then Err(bucket.result.why)
                          else Ok(Provisioned(bucket.result.value.bound, NameOf(sk, b), false)))
  }

  // ------------------------------------------------------------------- postgres

  const PG_IMAGE := "registry.local/cloudnative-pg/postgresql"
  const PG_VERSION := "17.2"

  /** cloneSource: only a backed-up postgres of a preview is cloned. */
  predicate IsPgClone(st: Object, b: BackingSpec)
    requires st.Stack?
  {
    b.backup && IsPreviewClone(st)
  }

  function ParentCluster(st: Object, b: BackingSpec): string
    requires st.Stack?
  {
    BackingName(st.cloneStack, b.name)
  }

  /** parentRecoverable: "" stands for not (yet) recoverable, since a parent with
      no bucket name is not either. */
  method ParentBucket(c: ApiServer, ns: string, cluster: string)
    returns (r: Result<string>, ghost at: nat, ghost named: nat)
    requires c.Valid()
    modifies c`stores, c`events
    ensures c.Valid() && old(c.stores) <= c.stores && old(c.events) <= c.events
    ensures r.Ok? && r.value != "" ==>
              at < |c.stores| && RecoverableIn(c.stores[at], ClusterKey(ns, cluster)) &&
              named < |c.stores| && NamesBucket(c.stores[named], ConfigMapKey(ns, BackupName(cluster)), r.value)
    ensures c.quiet ==> c.Now() == old(c.Now()) && r == Ok(ParentBucketQ(c.Now(), ns, cluster))
  {
    hide IsStep;
    var parent, readAt := c.Get(ClusterKey(ns, cluster));
    at, named := readAt, 0;
    if parent.Failed? {
      return Err(Transient), at, named;
    }
    if parent.Missing? || !parent.entry.obj.recoverable {
      return Ok(""), at, named;
    }
    var cm, cmAt := c.Get(ConfigMapKey(ns, BackupName(cluster)));
    named := cmAt;
    match cm
    case Failed => r := Err(Transient);
    case Missing => r := Ok("");
    case Found(entry) => r := Ok(GetOr(entry.obj.data, "BUCKET_NAME", ""));
  }

  function ParentBucketQ(s: Store, ns: string, cluster: string): string {
    var cm := Find(s, ConfigMapKey(ns, BackupName(cluster)));
    if RecoverableIn(s, ClusterKey(ns, cluster)) && cm.Some? then GetOr(cm.value.data, "BUCKET_NAME", "") else ""
  }

  function CredsPatch(sk: Key, data: map<string, string>): Patch {
    CopiedCreds(sk.name, GetOr(data, "AWS_ACCESS_KEY_ID", ""), GetOr(data, "AWS_SECRET_ACCESS_KEY", ""))
  }

  method CopyBackupCreds(c: ApiServer, sk: Key, srcNs: string, srcName: string, dst: string)
    returns (r: Result<()>, ghost from: nat, ghost at: nat)
    requires c.Valid()
    modifies c`stores, c`events
    ensures c.Valid() && old(c.stores) <= c.stores && old(c.events) <= c.events
    ensures r.Ok? ==> CredsCopied(c.stores, SecretKey(srcNs, srcName), SecretKey(sk.ns, dst), from, at)
    ensures c.quiet ==> Outcome(c.Now(), r) == CopyBackupCredsQ(c.cfg, old(c.Now()), sk, srcNs, srcName, dst)
  {
    hide IsStep, Mutate, Justified, Apply;
    var src, readAt := c.Get(SecretKey(srcNs, srcName));
    from, at := readAt, 0;
    if !src.Found? {
      return Err(if src.Failed? then Transient else NotFound), from, at;
    }
    var patch := CredsPatch(sk, src.entry.obj.data);
    PlumbingJustified(c.cfg, c.stores, SecretKey(sk.ns, dst), patch);
    var copy, copyAt := c.CreateOrUpdate(SecretKey(sk.ns, dst), patch, Plumbing);
    at := copyAt;
    r := if copy.Err? then Err(copy.why) else Ok(());
  }

  function CopyBackupCredsQ(cfg: Config, s: Store, sk: Key, srcNs: string, srcName: string, dst: string): Outcome<()> {
    var src := Find(s, SecretKey(srcNs, srcName));
    if src.None? then Outcome(s, Err(NotFound))
    else
      var copy := Apply(cfg, s, SecretKey(sk.ns, dst), CredsPatch(sk, src.value.data));
      Outcome(copy.store, if copy.result.Err? then Err(copy.result.why) else Ok(()))
  }

  /** The bootstrap a pass would create the Cluster with; None while the parent
      has nothing to recover from. */
  method ChooseBootstrap(c: ApiServer, sk: Key, st: Object, bi: nat, ghost v: nat)
    returns (r: Result<Option<Bootstrap>>, ghost s: Sources)
    requires Reads(c, sk, st, v) && bi < |st.spec.backing|
    modifies c`stores, c`events
    ensures c.Valid() && old(c.stores) <= c.stores && old(c.events) <= c.events
    ensures r.Ok? && r.value.Some? ==>
              Bootstraps(c.stores, ClusterKey(sk.ns, NameOf(sk, BackingAt(st, bi))), st, BackingAt(st, bi),
                         r.value.value,
                s)
    ensures c.quiet ==> Outcome(c.Now(), r) == ChooseBootstrapQ(c.cfg, old(c.Now()), sk, st, BackingAt(st, bi))
  {
    hide IsStep, CopyBackupCredsQ, CredsCopied, IsRun;
    var b := BackingAt(st, bi);
    var name := NameOf(sk, b);
    var existing, readAt := c.Get(ClusterKey(sk.ns, name));
    s := Sources(readAt, 0, 0, 0);
    if !IsPgClone(st, b) || existing.Found? {
      return Ok(Some(InitDb)), s;
    }
    var parent := ParentCluster(st, b);
    var bucket;
    ghost var at, named;
    bucket, at, named := ParentBucket(c, st.cloneNs, parent);
    if bucket.Err? {
      return Err(bucket.why), s;
    }
    if bucket.value == "" {
      return Ok(None), s;
    }
    var copied;
    ghost var from, copyAt;
    copied, from, copyAt := CopyBackupCreds(c, sk, st.cloneNs, BackupName(parent), CloneCredsName(name));
    if copied.Err? {
      return Err(copied.why), s;
    }
    s := Sources(at, named, from, copyAt);
    r := Ok(Some(Recovery(parent, bucket.value, CloneCredsName(name))));
  }

  /** Where the reads behind a bootstrap were answered: the Cluster or its parent, the
      parent's bucket, the parent's Secret and the copy. */
  datatype Sources = Sources(seed: nat, named: nat, creds: nat, copied: nat)

  predicate Bootstraps(stores: seq<Store>, k: Key, st: Object, b: BackingSpec, boot: Bootstrap, s: Sources)
    requires st.Stack?
  {
    BootstrapJustified(stores, k, st, b, boot, s.seed, s.named, s.creds, s.copied)
  }

  function ChooseBootstrapQ(cfg: Config, s: Store, sk: Key, st: Object, b: BackingSpec): Outcome<Option<Bootstrap>>
    requires st.Stack?
  {
    var name := NameOf(sk, b);
    var parent := ParentCluster(st, b);
    if !IsPgClone(st, b) || ClusterKey(sk.ns, name) in s.objs then Outcome(s, Ok(Some(InitDb)))
    else
      var bucket := ParentBucketQ(s, st.cloneNs, parent);
      if bucket == "" then Outcome(s, Ok(None))
      else
        var copied := CopyBackupCredsQ(cfg, s, sk, st.cloneNs, BackupName(parent), CloneCredsName(name));
        Outcome(copied.store, if copied.result.Err? then Err(copied.result.why)
                              else Ok(Some(Recovery(parent, bucket, CloneCredsName(name)))))
  }

  function PgPatch(sk: Key, b: BackingSpec, bootstrap: Bootstrap, archive: BoundBucket): Patch {
    PgCluster(sk.name, OrDefault(b.disk, "1Gi"), PG_IMAGE + ":" + OrDefault(b.version, PG_VERSION), bootstrap,
      if archive.bound then Some(archive.name) else None)
  }

  function ClusterReason(v: nat, sk: Key, bi: nat, s: Sources, archived: nat): Reason {
    Provision(v, sk, bi, s.seed, s.named, s.creds, s.copied, archived)
  }

  /** The bucket a Cluster is to archive to, and where its ConfigMap named it. */
  predicate Archives(stores: seq<Store>, sk: Key, st: Object, b: BackingSpec, archive: BoundBucket, archived: nat)
    requires st.Stack?
  {
    archive.bound ==>
      b.backup && !IsPgClone(st, b) && archived < |stores| &&
      NamesBucket(stores[archived], ConfigMapKey(sk.ns, BackupName(NameOf(sk, b))), archive.name)
  }

  lemma PgFits(cfg: Config, sk: Key, b: BackingSpec, boot: Bootstrap, archive: BoundBucket, o: Object)
    requires Carries(cfg, PgPatch(sk, b, boot, archive), o)
    ensures o.Cluster? && ClusterFits(o, sk.name, b) && (archive.bound ==> o.archive == Some(archive.name))
  {
  }

  lemma ScheduleCarries(cfg: Config, stack: string, cluster: string, o: Object)
    requires Carries(cfg, BaseBackup(stack, cluster), o)
    ensures o == ScheduledBackup(Some(stack), cluster)
  {
  }

  lemma JustifyCluster(cfg: Config, stores: seq<Store>, v: nat, sk: Key, st: Object, bi: nat, boot: Bootstrap,
                       archive: BoundBucket, s: Sources, archived: nat)
    requires HasStack(stores, v, sk) && StackAt(stores, v, sk) == st && bi < |st.spec.backing|
    requires IsPostgres(BackingAt(st, bi).kind)
    requires Bootstraps(stores, ClusterKey(sk.ns, NameOf(sk, BackingAt(st, bi))), st, BackingAt(st, bi), boot, s)
    requires Archives(stores, sk, st, BackingAt(st, bi), archive, archived)
    ensures Justified(cfg, stores, ClusterKey(sk.ns, NameOf(sk, BackingAt(st, bi))),
              PgPatch(sk, BackingAt(st, bi), boot, archive), ClusterReason(v, sk, bi, s, archived))
  {
    hide BootstrapJustified;
  }

  lemma BootstrapPersists(stores: seq<Store>, stores': seq<Store>, k: Key, st: Object, b: BackingSpec, boot: Bootstrap,
        s: Sources)
    requires st.Stack? && stores <= stores' && Bootstraps(stores, k, st, b, boot, s)
    ensures Bootstraps(stores', k, st, b, boot, s)
  {
  }

  function ScheduledKey(sk: Key, b: BackingSpec): Key { Key(ScheduledBackupKind, sk.ns, NameOf(sk, b)) }

  /** A Cluster as its backing asks, which archives to the bucket if it is bound, with
      its ScheduledBackup. */
  predicate ClusterSeen(stores: seq<Store>, sk: Key, b: BackingSpec, archive: BoundBucket, p: Place) {
    var k := ClusterKey(sk.ns, NameOf(sk, b));
    Exists(stores, p.at, k) && ClusterFits(stores[p.at].objs[k].obj, sk.name, b) &&
    (archive.bound ==>
       stores[p.at].objs[k].obj.archive == Some(archive.name) && Exists(stores, p.scheduled, ScheduledKey(sk, b)) &&
       stores[p.scheduled].objs[ScheduledKey(sk, b)].obj == ScheduledBackup(Some(sk.name), NameOf(sk, b)))
  }

  /** ensureScheduledBackup. */
  method EnsureScheduledBackup(c: ApiServer, sk: Key, b: BackingSpec) returns (r: Result<()>, ghost at: nat)
    requires c.Valid()
    modifies c`stores, c`events
    ensures c.Valid() && old(c.stores) <= c.stores && old(c.events) <= c.events
    ensures r.Ok? ==>
              Exists(c.stores, at, ScheduledKey(sk, b)) &&
              c.stores[at].objs[ScheduledKey(sk, b)].obj == ScheduledBackup(Some(sk.name), NameOf(sk, b))
    ensures c.quiet ==> Outcome(c.Now(), r) == ScheduledBackupQ(c.cfg, old(c.Now()), sk, b)
  {
    hide IsStep, Mutate, Justified, Apply, Carries;
    PlumbingJustified(c.cfg, c.stores, ScheduledKey(sk, b), BaseBackup(sk.name, NameOf(sk, b)));
    var sb;
    sb, at := c.CreateOrUpdate(ScheduledKey(sk, b), BaseBackup(sk.name, NameOf(sk, b)), Plumbing);
    if sb.Ok? {
      ScheduleCarries(c.cfg, sk.name, NameOf(sk, b), sb.value.obj);
    }
    r := if sb.Err? then Err(sb.why) else Ok(());
  }

  function ScheduledBackupQ(cfg: Config, s: Store, sk: Key, b: BackingSpec): Outcome<()> {
    var sb := Apply(cfg, s, ScheduledKey(sk, b), BaseBackup(sk.name, NameOf(sk, b)));
    Outcome(sb.store, if sb.result.Err? then Err(sb.result.why) else Ok(()))
  }

  /** The Cluster, and its ScheduledBackup once the bucket is wired. */
  method ApplyCluster(c: ApiServer, sk: Key, st: Object, bi: nat, boot: Bootstrap, archive: BoundBucket,
                      ghost v: nat, ghost s: Sources, ghost archived: nat)
    returns (r: Result<bool>, ghost p: Place)
    requires Reads(c, sk, st, v) && bi < |st.spec.backing| && IsPostgres(BackingAt(st, bi).kind)
    requires Bootstraps(c.stores, ClusterKey(sk.ns, NameOf(sk, BackingAt(st, bi))), st, BackingAt(st, bi), boot, s)
    requires Archives(c.stores, sk, st, BackingAt(st, bi), archive, archived)
    modifies c`stores, c`events
    ensures c.Valid() && old(c.stores) <= c.stores && old(c.events) <= c.events
    ensures r.Ok? ==> ClusterSeen(c.stores, sk, BackingAt(st, bi), archive, p)
    ensures r.Ok? && r.value ==> ClusterReady(c.stores[p.at], ClusterKey(sk.ns, NameOf(sk, BackingAt(st, bi))))
    ensures c.quiet ==>
              Outcome(c.Now(), r) == ApplyClusterQ(c.cfg, old(c.Now()), sk, BackingAt(st, bi), boot, archive)
  {
    hide IsStep, Mutate, Justified, Apply, Bootstraps, Archives, PgPatch, IsPostgres, ClusterFits, Carries,
         ScheduledBackupQ, ClusterReason, ScheduledKey;
    p := NO_PLACE;
    var b := BackingAt(st, bi);
    var name := NameOf(sk, b);
    JustifyCluster(c.cfg, c.stores, v, sk, st, bi, boot, archive, s, archived);
    PgKind(sk, b, boot, archive);
    var cl, clAt := c.CreateOrUpdate(ClusterKey(sk.ns, name), PgPatch(sk, b, boot, archive),
      ClusterReason(v, sk, bi, s, archived));
    if cl.Err? {
      return Err(cl.why), p;
    }
    PgFits(c.cfg, sk, b, boot, archive, cl.value.obj);
    p := p.(at := clAt);
    if archive.bound {
      var scheduled;
      ghost var at;
      scheduled, at := EnsureScheduledBackup(c, sk, b);
      if scheduled.Err? {
        return Err(scheduled.why), p;
      }
      p := p.(scheduled := at);
    }
    r := Ok(cl.value.obj.readyInstances >= 1);
  }

  lemma PgKind(sk: Key, b: BackingSpec, boot: Bootstrap, archive: BoundBucket)
    ensures PatchKind(PgPatch(sk, b, boot, archive)) == ClusterKind
  {
  }

  function ApplyClusterQ(cfg: Config, s: Store, sk: Key, b: BackingSpec, bootstrap: Bootstrap,
        archive: BoundBucket): Outcome<bool>
  {
    var name := NameOf(sk, b);
    var cl := Apply(cfg, s, ClusterKey(sk.ns, name), PgPatch(sk, b, bootstrap, archive));
    if cl.result.Err? then Outcome(cl.store, Err(cl.result.why))
    else
      var up := cl.result.value.obj.readyInstances >= 1;
      if !archive.bound then Outcome(cl.store, Ok(up))
      else
        var sb := ScheduledBackupQ(cfg, cl.store, sk, b);
        Outcome(sb.store, if sb.result.Err? then Err(sb.result.why) else Ok(up))
  }

  /** A postgres is provisioned for good: its Cluster was seen as asked, and if it is
      to be backed up, archiving to the bucket its ConfigMap named, with the bucket
      bound and a ScheduledBackup. */
  predicate PostgresSeen(stores: seq<Store>, sk: Key, st: Object, b: BackingSpec, p: Place)
    requires st.Stack?
  {
    var name := NameOf(sk, b);
    ClusterSeen(stores, sk, b, UNBOUND, p) &&
    (b.backup && !IsPgClone(st, b) ==>
       p.bound < |stores| && BucketBound(stores[p.bound], BucketKey(sk.ns, BackupName(name))) && p.named < |stores| &&
       (var archive := stores[p.at].objs[ClusterKey(sk.ns, name)].obj.archive;
        archive.Some? && NamesBucket(stores[p.named], ConfigMapKey(sk.ns, BackupName(name)), archive.value) &&
        ClusterSeen(stores, sk, b, BoundBucket(true, archive.value), p)))
  }

  /** reconcilePostgres. */
  method ReconcilePostgres(c: ApiServer, sk: Key, st: Object, bi: nat, ghost v: nat)
    returns (r: Result<Provisioned>, ghost p: Place)
    requires Reads(c, sk, st, v) && bi < |st.spec.backing| && IsPostgres(BackingAt(st, bi).kind)
    modifies c`stores, c`events
    ensures c.Valid() && old(c.stores) <= c.stores && old(c.events) <= c.events
    ensures r.Ok? ==> r.value.secret == AppSecretName(NameOf(sk, BackingAt(st, bi)))
    ensures r.Ok? && r.value.ready ==>
              p.at < |c.stores| && ClusterReady(c.stores[p.at], ClusterKey(sk.ns, NameOf(sk, BackingAt(st, bi))))
    ensures r.Ok? && !r.value.pending ==> PostgresSeen(c.stores, sk, st, BackingAt(st, bi), p)
    ensures c.quiet ==> Outcome(c.Now(), r) == PostgresQ(c.cfg, old(c.Now()), sk, st, BackingAt(st, bi))
  {
    hide IsStep, Bootstraps, ChooseBootstrapQ, EnsureBucketQ, ApplyClusterQ, ClusterReady, BucketBound, ClusterFits,
         IsPostgres, ScheduledKey;
    p := NO_PLACE;
    var b := BackingAt(st, bi);
    var name := NameOf(sk, b);
    var boot;
    ghost var s, bound, named;
    boot, s := ChooseBootstrap(c, sk, st, bi, v);
    if boot.Err? {
      return Err(boot.why), p;
    }
    if boot.value.None? {
      return Ok(Provisioned(false, AppSecretName(name), true)), p;
    }
    var wantBackup := b.backup && !IsPgClone(st, b);
    var archive := UNBOUND;
    ghost var stores1 := c.stores;
    if wantBackup {
      var bucket;
      bucket, bound, named := EnsureBucket(c, sk, BackupName(name));
      if bucket.Err? {
        return Err(bucket.why), p;
      }
      archive := bucket.value;
    } else {
      bound, named := 0, 0;
    }
    BootstrapPersists(stores1, c.stores, ClusterKey(sk.ns, name), st, b, boot.value.value, s);
    var up;
    up, p := ApplyCluster(c, sk, st, bi, boot.value.value, archive, v, s, named);
    p := p.(bound := bound, named := named);
    r := if up.Err? then Err(up.why)
         else Ok(Provisioned(up.value, AppSecretName(name), wantBackup && !archive.bound));
  }

  function PostgresQ(cfg: Config, s: Store, sk: Key, st: Object, b: BackingSpec): Outcome<Provisioned>
    requires st.Stack?
  {
    var name := NameOf(sk, b);
    var boot := ChooseBootstrapQ(cfg, s, sk, st, b);
    if boot.result.Err? then Outcome(boot.store, Err(boot.result.why))
    else if boot.result.value.None? then Outcome(boot.store, Ok(Provisioned(false, AppSecretName(name), true)))
    else
      var wantBackup := b.backup && !IsPgClone(st, b);
      var bucket := if wantBackup then EnsureBucketQ(cfg, boot.store, sk, BackupName(name))
                    else Outcome(boot.store, Ok(UNBOUND));
      if bucket.result.Err? then Outcome(bucket.store, Err(bucket.result.why))
      else
        var up := ApplyClusterQ(cfg, bucket.store, sk, b, boot.result.value.value, bucket.result.value);
        Outcome(up.store, if up.result.Err? then Err(up.result.why)
                          else Ok(Provisioned(up.result.value, AppSecretName(name), wantBackup &&
                                              !bucket.result.value.bound)))
  }
}
