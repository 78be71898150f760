/** The API server as a run of stores: every change anybody makes is an event,
    and a pass of a controller may only cause events it can justify by what it
    read earlier in the same run. */
module Clusters {
  import opened Wrappers
  import opened Names
  import opened Objects
  import opened Shapes

  // --------------------------------------------------------------------- stores

  /** `rv` is the resourceVersion; `deleting` stands for a deletionTimestamp. */
  datatype Entry = Entry(uid: nat, rv: nat, deleting: bool, obj: Object)

  datatype Store = Store(objs: map<Key, Entry>, clock: nat)

  const EMPTY := Store(map[], 0)

  predicate Typed(s: Store) {
    forall k | k in s.objs :: KindOf(s.objs[k].obj) == k.kind
  }

  function Find(s: Store, k: Key): (r: Option<Object>)
    ensures r.Some? ==> k in s.objs && r.value == s.objs[k].obj && KindOf(r.value) == k.kind
  {
    if k in s.objs && KindOf(s.objs[k].obj) == k.kind then Some(s.objs[k].obj) else None
  }

  /** Create (a new UID) or Update (same UID) at the next resourceVersion. */
  function Put(s: Store, k: Key, o: Object): Store {
    var e := if k in s.objs then s.objs[k].(rv := s.clock + 1, obj := o)
             else Entry(s.clock + 1, s.clock + 1, false, o);
    Store(s.objs[k := e], s.clock + 1)
  }

  function Doom(s: Store, k: Key): Store {
    if k in s.objs then Store(s.objs[k := s.objs[k].(rv := s.clock + 1, deleting := true)], s.clock + 1) else s
  }

  function Drop(s: Store, k: Key): Store {
    Store(s.objs - {k}, s.clock + 1)
  }

  predicate Doomed(s: Store, k: Key) {
    k in s.objs ==> s.objs[k].deleting
  }

  // --------------------------------------------------------------------- events

  /** What let a service through: where its release Job was seen done, where each
      connection's backing was seen ready, where the descriptors' ConfigMap was
      read (None: the read failed), and the env its connections resolved to. */
  datatype Passage = Passage(job: nat, seen: seq<nat>, read: Option<nat>, env: seq<EnvVar>)

  /** The reads a pass bases a write on, as indexes of stores of the run. */
  datatype Reason =
    | Plumbing
    | Placement(version: nat, stack: Key, backing: nat, seed: nat, read: Option<nat>, from: Origin)
    | Provision(version: nat, stack: Key, backing: nat, seed: nat, named: nat, creds: nat, copied: nat, archived: nat)
    | CloneLink(version: nat, stack: Key, backing: nat, snapshot: nat, content: nat)
    | Hook(version: nat, stack: Key, service: nat, passage: Passage)
    | Rollout(version: nat, stack: Key, service: nat, process: nat, passage: Passage)
    | Assessment(version: nat, passages: seq<Passage>, listed: nat)
    | EnvProvision(version: nat, env: Key, held: nat)
    | Teardown(version: nat, snapshots: nat, contents: nat, doomed: map<Key, nat>, nsDoomed: nat)

  datatype Event =
    // writes of controller passes
    | Applied(key: Key, patch: Patch, why: Reason)
    | JobCreated(key: Key, job: Object, why: Reason)
    | StatusWritten(key: Key, status: Status, why: Reason)
    | FinalizerAdded(key: Key)
    | FinalizerRemoved(key: Key, why: Reason)
    // anybody may ask for a deletion; the API server removes the object later
    | DeleteAccepted(key: Key)
    | Removed(key: Key)
    // users, and the operators and provisioners that own the status fields
    | StackEdited(key: Key, cloneNs: string, cloneStack: string, spec: StackSpec)
    | EnvironmentEdited(key: Key, project: string, envType: string, cloneFrom: string, stack: Option<StackSpec>)
    | StatusReported(key: Key, obj: Object)
    | Foreign(key: Key, obj: Object)

  /** The fields only the engine behind an object sets. A finished Job stays
      finished and a snapshot handle stays set. */
  predicate StatusOnly(a: Object, b: Object) {
    match a
    case StatefulSet(_, _, _, _, _, _) => b.StatefulSet? && b == a.(readyReplicas := b.readyReplicas)
    case Job(_, _, _, outcome) => b.Job? && b == a.(outcome := b.outcome) && outcome == JobActive
    case Deployment(_, _, _, _, _) => b.Deployment? && b == a.(readyPods := b.readyPods)
    case Cluster(_, _, _, _, _, _, _) =>
      b.Cluster? && b == a.(readyInstances := b.readyInstances, recoverable := b.recoverable)
    case BucketClaim(_, _, _, _) => b.BucketClaim? && b == a.(bound := b.bound)
    case Snapshot(_, _, _, _) =>
      b.Snapshot? && b == a.(readyToUse := b.readyToUse, boundContent := b.boundContent)
    case Content(_, _, _, _, _, handle) =>
      b.Content? && b == a.(statusHandle := b.statusHandle) && (handle != "" ==> b.statusHandle == handle)
    case _ => false
  }

  /** What an event does to the object under its key. */
  datatype Change = Keep | Write(obj: Object) | Mark | Erase

  function ChangeOf(cfg: Config, s: Store, ev: Event): Change {
    var now := Find(s, ev.key);
    match ev
    case Applied(_, patch, _) =>
      if ev.key.kind != PatchKind(patch) then Keep
      else (match Mutate(cfg, patch, now) case Ok(o) => Write(o) case Err(_) => Keep)
    case JobCreated(_, job, _) => Write(job)
    case StatusWritten(_, status, _) =>
      if now.Some? && now.value.Stack? then Write(now.value.(status := status)) else Keep
    case FinalizerAdded(_) =>
      if now.Some? && now.value.Environment? then Write(now.value.(finalizer := true)) else Keep
    case FinalizerRemoved(_, _) =>
      if now.Some? && now.value.Environment? then Write(now.value.(finalizer := false)) else Keep
    case DeleteAccepted(_) => if now.Some? then Mark else Keep
    case Removed(_) => Erase
    case StackEdited(_, cloneNs, cloneStack, spec) =>
      if now.Some? && now.value.Stack? then
        Write(Stack(NextGeneration(now.value, spec), cloneNs, cloneStack, spec, now.value.status))
      else Write(Stack(1, cloneNs, cloneStack, spec, EMPTY_STATUS))
    case EnvironmentEdited(_, project, envType, cloneFrom, stack) =>
      if now.Some? && now.value.Environment? then
        Write(Environment(now.value.revision + 1, project, envType, cloneFrom, stack, now.value.finalizer))
      else Write(Environment(1, project, envType, cloneFrom, stack, false))
    case StatusReported(_, o) => Write(o)
    case Foreign(_, o) => Write(o)
  }

  /** metadata.generation counts the versions of the spec. */
  function NextGeneration(now: Object, spec: StackSpec): nat
    requires now.Stack?
  {
    if now.spec == spec then now.generation else now.generation + 1
  }

  /** The store after an event. */
  function Effect(cfg: Config, s: Store, ev: Event): Store {
    match ChangeOf(cfg, s, ev)
    case Keep => s
    case Write(o) => Put(s, ev.key, o)
    case Mark => Doom(s, ev.key)
    case Erase => Drop(s, ev.key)
  }

  // ---------------------------------------------------- what the passes look for

  predicate IsPreviewClone(st: Object)
    requires st.Stack?
  {
    st.cloneNs != "" && st.cloneStack != ""
  }

  function SecretKey(ns: string, name: string): Key { Key(SecretKind, ns, name) }
  function ServiceKey(ns: string, name: string): Key { Key(ServiceKind, ns, name) }
  function SetKey(ns: string, name: string): Key { Key(StatefulSetKind, ns, name) }
  function ClusterKey(ns: string, name: string): Key { Key(ClusterKind, ns, name) }
  function BucketKey(ns: string, name: string): Key { Key(BucketClaimKind, ns, name) }
  function ConfigMapKey(ns: string, name: string): Key { Key(ConfigMapKind, ns, name) }
  function SnapshotKey(ns: string, name: string): Key { Key(SnapshotKind, ns, name) }
  function ContentKey(name: string): Key { Key(ContentKind, "", name) }
  function DeploymentKey(ns: string, name: string): Key { Key(DeploymentKind, ns, name) }
  function NamespaceKey(name: string): Key { Key(NamespaceKind, "", name) }

  function JobKey(sk: Key, service: string, generation: nat): Key {
    Key(JobKind, sk.ns, ReleaseJobName(sk.name, service, generation))
  }

  predicate SetReady(s: Store, k: Key) {
    k in s.objs && s.objs[k].obj.StatefulSet? && s.objs[k].obj.readyReplicas >= 1
  }

  predicate ClusterReady(s: Store, k: Key) {
    k in s.objs && s.objs[k].obj.Cluster? && s.objs[k].obj.readyInstances >= 1
  }

  predicate BucketBound(s: Store, k: Key) {
    k in s.objs && s.objs[k].obj.BucketClaim? && s.objs[k].obj.bound
  }

  /** The restore snapshot of a clone, labelled, reading its content, and ready. */
  predicate RestoreReady(s: Store, ns: string, backing: string) {
    RestoreOf(s, ns, backing) && s.objs[SnapshotKey(ns, RestoreName(backing))].obj.readyToUse
  }

  predicate RestoreOf(s: Store, ns: string, backing: string) {
    var k := SnapshotKey(ns, RestoreName(backing));
    k in s.objs && s.objs[k].obj.Snapshot? && s.objs[k].obj.cloneOwner == ns &&
    s.objs[k].obj.source == FromContent(CloneName(ns, backing))
  }

  predicate JobDone(s: Store, k: Key) {
    k in s.objs && s.objs[k].obj.Job? && s.objs[k].obj.outcome == JobComplete
  }

  /** The readiness signal of a backing's tier. */
  predicate BackingReady(s: Store, ns: string, stack: string, b: BackingSpec) {
    var name := BackingName(stack, b.name);
    if IsPostgres(b.kind) then ClusterReady(s, ClusterKey(ns, name))
    else if IsObjectStore(b.kind) then BucketBound(s, BucketKey(ns, name))
    else SetReady(s, SetKey(ns, name))
  }

  const OVERLAY_NAME := "paas-servicedefs"

  function OverlayData(cfg: Config, s: Store): map<string, string> {
    var cm := Find(s, ConfigMapKey(cfg.systemNs, OVERLAY_NAME));
    if cm.Some? then cm.value.data else map[]
  }

  /** The names the documents of the ConfigMap describe. */
  function Described(cfg: Config, data: map<string, string>): set<string> {
    set n, k | n in data && cfg.parse(data[n]).Some? &&
               k in NamesUpTo(cfg.parse(data[n]).value, |cfg.parse(data[n]).value.aliases|) :: k
  }

  predicate ReadIn(stores: seq<Store>, read: Option<nat>) {
    read.Some? ==> read.value < |stores|
  }

  /** What a read of the ConfigMap answered; nothing when it failed. */
  function DataRead(cfg: Config, stores: seq<Store>, read: Option<nat>): map<string, string>
    requires ReadIn(stores, read)
  {
    if read.Some? then OverlayData(cfg, stores[read.value]) else map[]
  }

  /** The types of the catalog a pass loads: the builtins, and what the ConfigMap
      described when it was read. */
  function Known(cfg: Config, data: map<string, string>): set<string> {
    cfg.builtins.Keys + Described(cfg, data)
  }

  /** What may provision a backing under a catalog overlaid with these documents: the
      operator of its type; a descriptor that claims the type, of a document before the
      builtin one; or its image. */
  function Origins(cfg: Config, data: map<string, string>, b: BackingSpec): set<Origin> {
    var key := Lower(b.kind);
    if IsPostgres(b.kind) || IsObjectStore(b.kind) then {Operator}
    else if key in Described(cfg, data) then
      set n | n in data && cfg.parse(data[n]).Some? && Claims(cfg.parse(data[n]).value, key) ::
        Descriptor(cfg.parse(data[n]).value)
    else if key in cfg.builtins then {Descriptor(cfg.builtins[key])}
    else if b.image != "" then {Image}
    else {}
  }

  /** Whether reconcileBacking provisions a backing under a catalog of these types. */
  predicate Provisions(known: set<string>, b: BackingSpec) {
    IsPostgres(b.kind) || IsObjectStore(b.kind) || Lower(b.kind) in known || b.image != ""
  }

  /** The env vars a connection to a backing stands for: what its tier makes, by
      reference, the main one under the connection's alias. */
  function BackingVars(cfg: Config, sk: Key, b: BackingSpec, from: Origin, alias: string): set<EnvVar> {
    var name := BackingName(sk.name, b.name);
    match from
    case Operator =>
      if IsPostgres(b.kind) then PostgresVars(AppSecretName(name), alias) else BucketVars(cfg, name, alias)
    case Descriptor(def) => DescriptorVars(def, name, alias)
    case Image => AddressVars(name, alias)
  }

  /** The URI and the discrete variables of libpq. */
  function PostgresVars(secret: string, alias: string): set<EnvVar> {
    {EnvVar(alias, SecretRef(secret, "uri")), EnvVar("PGHOST", SecretRef(secret, "host")),
     EnvVar("PGPORT", SecretRef(secret, "port")), EnvVar("PGDATABASE", SecretRef(secret, "dbname")),
     EnvVar("PGUSER", SecretRef(secret, "user")), EnvVar("PGPASSWORD", SecretRef(secret, "password"))}
  }

  /** Endpoint, bucket, region and keys, under the names S3 clients read. */
  function BucketVars(cfg: Config, name: string, alias: string): set<EnvVar> {
    {EnvVar(alias, Literal(cfg.endpoint))} +
    {EnvVar("S3_ENDPOINT", Literal(cfg.endpoint)), EnvVar("S3_BUCKET", ConfigRef(name, "BUCKET_NAME")),
     EnvVar("S3_REGION", Literal("us-east-1")), EnvVar("AWS_DEFAULT_REGION", Literal("us-east-1")),
     EnvVar("S3_ACCESS_KEY_ID", SecretRef(name, "AWS_ACCESS_KEY_ID")),
     EnvVar("S3_SECRET_ACCESS_KEY", SecretRef(name, "AWS_SECRET_ACCESS_KEY")),
     EnvVar("AWS_ACCESS_KEY_ID", SecretRef(name, "AWS_ACCESS_KEY_ID")),
     EnvVar("AWS_SECRET_ACCESS_KEY", SecretRef(name, "AWS_SECRET_ACCESS_KEY"))}
  }

  function DescriptorVars(def: ServiceDefinition, secret: string, alias: string): set<EnvVar> {
    {EnvVar(alias, SecretRef(secret, def.primaryKey))} +
    set n | n in def.extra :: EnvVar(n, SecretRef(secret, def.extra[n]))
  }

  function AddressVars(secret: string, alias: string): set<EnvVar> {
    {EnvVar(alias, SecretRef(secret, "endpoint")), EnvVar("FALLBACK_HOST", SecretRef(secret, "host")),
     EnvVar("FALLBACK_PORT", SecretRef(secret, "port"))}
  }

  /** The env holds all that a connection to the backing stands for. */
  predicate Binds(cfg: Config, data: map<string, string>, env: seq<EnvVar>, sk: Key, b: BackingSpec, alias: string) {
    exists from | from in Origins(cfg, data, b) :: BackingVars(cfg, sk, b, from, alias) <= set e | e in env
  }

  predicate Exposed(svc: ServiceSpec) {
    exists j | 0 <= j < |svc.processes| :: svc.processes[j].port > 0
  }

  /** A connection to a service that has a port is an internal URL. */
  predicate IsServiceEdge(spec: StackSpec, target: string) {
    exists i | 0 <= i < |spec.services| :: spec.services[i].name == target && Exposed(spec.services[i])
  }

  predicate FirstPorted(svc: ServiceSpec, j: nat) {
    j < |svc.processes| && svc.processes[j].port > 0 && forall i | 0 <= i < j :: svc.processes[i].port <= 0
  }

  predicate LastExposed(spec: StackSpec, target: string, i: nat) {
    i < |spec.services| && spec.services[i].name == target && Exposed(spec.services[i]) &&
    forall k | i < k < |spec.services| && spec.services[k].name == target :: !Exposed(spec.services[k])
  }

  /** The URL of a service edge: the first process with a port, of the last service of
      that name that has one. */
  predicate EdgeUrl(sk: Key, spec: StackSpec, target: string, url: string) {
    exists i | 0 <= i < |spec.services| && LastExposed(spec, target, i) ::
      exists j | 0 <= j < |spec.services[i].processes| && FirstPorted(spec.services[i], j) ::
        url == "http://" + ServiceHost(ProcessName(sk.name, target, spec.services[i].processes[j].name), sk.ns)
  }

  /** The env var of a connection to a service. */
  predicate IsEdgeVar(sk: Key, spec: StackSpec, conn: ConnectionSpec, e: EnvVar) {
    e.name == conn.alias && e.source.Literal? && EdgeUrl(sk, spec, conn.target, e.source.text)
  }

  /** A connection that may be bound: a service edge whose URL the env holds; a
      backing that was ready in the store at index `at` and whose credentials the env
      holds; or a target the pass did not provision under the catalog it had loaded. */
  predicate ConnectionMet(cfg: Config, data: map<string, string>, stores: seq<Store>, sk: Key, spec: StackSpec,
        conn: ConnectionSpec, at: nat, env: seq<EnvVar>)
  {
    if IsServiceEdge(spec, conn.target) then conn.alias != "" ==> exists e | e in env :: IsEdgeVar(sk, spec, conn, e)
    else
      || (at < |stores| && exists i | 0 <= i < |spec.backing| ::
            spec.backing[i].name == conn.target && BackingReady(stores[at], sk.ns, sk.name, spec.backing[i]) &&
            (conn.alias != "" ==> Binds(cfg, data, env, sk, spec.backing[i], conn.alias)))
      || (forall i | 0 <= i < |spec.backing| ::
            spec.backing[i].name == conn.target ==> !Provisions(Known(cfg, data), spec.backing[i]))
  }

  predicate ConnectionsMet(cfg: Config, data: map<string, string>, stores: seq<Store>, sk: Key, spec: StackSpec,
        svc: ServiceSpec, seen: seq<nat>, env: seq<EnvVar>)
  {
    |seen| == |svc.connections| &&
    forall c | 0 <= c < |svc.connections| ::
      ConnectionMet(cfg, data, stores, sk, spec, svc.connections[c], seen[c], env)
  }

  /** An env var that a connection with an alias puts in an env. */
  predicate Contributes(cfg: Config, data: map<string, string>, sk: Key, spec: StackSpec, conn: ConnectionSpec,
        e: EnvVar)
  {
    conn.alias != "" &&
    if IsServiceEdge(spec, conn.target) then IsEdgeVar(sk, spec, conn, e)
    else exists i | 0 <= i < |spec.backing| ::
      spec.backing[i].name == conn.target && OfBacking(cfg, data, sk, spec.backing[i], conn.alias, e)
  }

  predicate OfBacking(cfg: Config, data: map<string, string>, sk: Key, b: BackingSpec, alias: string, e: EnvVar) {
    exists from | from in Origins(cfg, data, b) :: e in BackingVars(cfg, sk, b, from, alias)
  }

  /** The spec's own env vars come first, and everything after them comes from a
      connection of the service. */
  predicate EnvFits(cfg: Config, data: map<string, string>, sk: Key, spec: StackSpec, svc: ServiceSpec,
        env: seq<EnvVar>)
  {
    svc.env <= env && forall n | |svc.env| <= n < |env| :: OfConnection(cfg, data, sk, spec, svc, env[n])
  }

  predicate OfConnection(cfg: Config, data: map<string, string>, sk: Key, spec: StackSpec, svc: ServiceSpec, e: EnvVar)
  {
    exists c | 0 <= c < |svc.connections| :: Contributes(cfg, data, sk, spec, svc.connections[c], e)
  }

  /** The backing gate of a service: its connections met, under the catalog read, by
      an env that holds what they stand for and nothing else. */
  predicate Connected(cfg: Config, stores: seq<Store>, sk: Key, spec: StackSpec, svc: ServiceSpec, g: Passage) {
    ReadIn(stores, g.read) &&
    ConnectionsMet(cfg, DataRead(cfg, stores, g.read), stores, sk, spec, svc, g.seen, g.env) &&
    EnvFits(cfg, DataRead(cfg, stores, g.read), sk, spec, svc, g.env)
  }

  predicate HookDone(stores: seq<Store>, sk: Key, st: Object, svc: ServiceSpec, job: nat)
    requires st.Stack?
  {
    HasHook(svc) ==> job < |stores| && JobDone(stores[job], JobKey(sk, svc.name, st.generation))
  }

  /** Both gates of a service: the backings it connects to were ready, its release
      Job of this generation had completed. */
  predicate GatesPassed(cfg: Config, stores: seq<Store>, sk: Key, st: Object, svc: ServiceSpec, g: Passage)
    requires st.Stack?
  {
    Connected(cfg, stores, sk, st.spec, svc, g) && HookDone(stores, sk, st, svc, g.job)
  }

  function Replicas(p: ProcessSpec): int { if p.replicas == 0 then 1 else p.replicas }

  function ShCommand(cmd: string): seq<string> { ["/bin/sh", "-c", cmd] }

  function ProcessEnv(env: seq<EnvVar>, port: int): seq<EnvVar> {
    if port <= 0 then env else [EnvVar("PORT", Literal(Number(port)))] + env
  }

  function ProcessContainer(cfg: Config, svc: ServiceSpec, p: ProcessSpec, env: seq<EnvVar>): Container {
    Container(p.name, cfg.normalize(svc.image), if p.command != "" then ShCommand(p.command) else [], [],
      ProcessEnv(env, p.port), if p.port > 0 then p.port else 0, None)
  }

  function ProcessPatch(cfg: Config, sk: Key, svc: ServiceSpec, p: ProcessSpec, env: seq<EnvVar>): Patch {
    ProcessDeployment(sk.name, ProcessLabels(sk.name, svc.name, p.name), Replicas(p),
      ProcessContainer(cfg, svc, p, env))
  }

  function ReleaseJob(cfg: Config, sk: Key, svc: ServiceSpec, env: seq<EnvVar>): Object {
    Job(Some(sk.name), HookLabels(sk.name, svc.name),
      Container("release", cfg.normalize(svc.image), ShCommand(svc.release), [], env, 0, None), JobActive)
  }

  predicate HasStack(stores: seq<Store>, v: nat, sk: Key) {
    v < |stores| && sk.kind == StackKind && sk in stores[v].objs && stores[v].objs[sk].obj.Stack?
  }

  function StackAt(stores: seq<Store>, v: nat, sk: Key): Object
    requires HasStack(stores, v, sk)
  {
    stores[v].objs[sk].obj
  }

  predicate HasEnvironment(stores: seq<Store>, v: nat, ek: Key) {
    v < |stores| && ek.kind == EnvironmentKind && ek in stores[v].objs && stores[v].objs[ek].obj.Environment?
  }

  function NamespaceOf(ek: Key, env: Object): string
    requires env.Environment?
  {
    NamespaceName(env.project, ek.name)
  }

  predicate ListedIn(s: Store, ns: string, stack: string, k: Key) {
    k.kind == DeploymentKind && k.ns == ns && k in s.objs && s.objs[k].obj.Deployment? &&
    match s.objs[k].obj.labels
    case ProcessLabels(owner, _, _) => owner == stack
    case _ => false
  }

  /** The Deployments labelled with a Stack. */
  function Listed(s: Store, ns: string, stack: string): set<Key> {
    set k | k in s.objs && ListedIn(s, ns, stack, k)
  }

  predicate DeploymentReady(s: Store, k: Key) {
    k in s.objs && s.objs[k].obj.Deployment? && s.objs[k].obj.readyPods >= 1
  }

  predicate AllDeploymentsReady(s: Store, ns: string, stack: string) {
    Listed(s, ns, stack) != {} && forall k | k in Listed(s, ns, stack) :: DeploymentReady(s, k)
  }

  predicate LabelledIn(s: Store, kind: Kind, ns: string, k: Key) {
    k.kind == kind && k in s.objs && OwnerOf(s.objs[k].obj) == Some(ns)
  }

  /** The clone artifacts of a kind that carry clone-owner=ns. */
  function Labelled(s: Store, kind: Kind, ns: string): set<Key> {
    set k | k in s.objs && LabelledIn(s, kind, ns, k)
  }

  // -------------------------------------------------------- what a pass may write

  /** A volume is seeded when a preview's claim restores the backing's ready
      restore snapshot; the one way out is that the object had existed before. */
  predicate SeedJustified(stores: seq<Store>, k: Key, st: Object, b: BackingSpec, source: Option<string>, seed: nat)
    requires st.Stack?
  {
    if !IsPreviewClone(st) then source == None
    else
      || (source == Some(RestoreName(b.name)) && seed < |stores|
          && RestoreReady(stores[seed], k.ns, b.name))
      || (source == None && seed < |stores| && k in stores[seed].objs)
  }

  /** A backing's volume is the one its descriptor, under the catalog read, or its
      image asks for, and seeded. */
  predicate VolumeJustified(cfg: Config, stores: seq<Store>, k: Key, st: Object, b: BackingSpec,
        volume: Option<VolumeClaim>, why: Reason)
    requires st.Stack? && why.Placement?
  {
    VolumeFits(volume, b, why.from) && ReadIn(stores, why.read) &&
    why.from in Origins(cfg, DataRead(cfg, stores, why.read), b) &&
    (volume.Some? ==> SeedJustified(stores, k, st, b, volume.value.source, why.seed))
  }

  /** A backed-up postgres of a preview recovers from the parent's bucket: the one
      named, at index `named`, by the ConfigMap of the parent's backup. */
  predicate BootstrapJustified(stores: seq<Store>, k: Key, st: Object, b: BackingSpec, boot: Bootstrap, seed: nat,
        named: nat, creds: nat, copied: nat)
    requires st.Stack?
  {
    if !(b.backup && IsPreviewClone(st)) then boot == InitDb
    else
      var parent := BackingName(st.cloneStack, b.name);
      || (boot.Recovery? && boot.source == parent && boot.bucket != "" && seed < |stores|
          && RecoverableIn(stores[seed], ClusterKey(st.cloneNs, parent)) && named < |stores|
          && NamesBucket(stores[named], ConfigMapKey(st.cloneNs, BackupName(parent)), boot.bucket)
          && boot.creds == CloneCredsName(k.name)
          && CredsCopied(stores, SecretKey(st.cloneNs, BackupName(parent)), SecretKey(k.ns, boot.creds), creds, copied))
      || (boot == InitDb && seed < |stores| && k in stores[seed].objs)
  }

  /** The copy, at index `at`, has both keys of the Secret read at `from`. */
  predicate CredsCopied(stores: seq<Store>, src: Key, dst: Key, from: nat, at: nat) {
    from < |stores| && at < |stores| && src in stores[from].objs && stores[from].objs[src].obj.Secret? &&
    dst in stores[at].objs && stores[at].objs[dst].obj.Secret? &&
    (var a, b := stores[from].objs[src].obj.data, stores[at].objs[dst].obj.data;
     GetOr(b, "AWS_ACCESS_KEY_ID", "") == GetOr(a, "AWS_ACCESS_KEY_ID", "") &&
     GetOr(b, "AWS_SECRET_ACCESS_KEY", "") == GetOr(a, "AWS_SECRET_ACCESS_KEY", ""))
  }

  /** A Cluster archives only when it is to be backed up and is no clone, and to the
      bucket that the ConfigMap of its own backup claim named. */
  predicate ArchiveJustified(stores: seq<Store>, k: Key, st: Object, b: BackingSpec, archive: Option<string>,
        archived: nat)
    requires st.Stack?
  {
    archive.Some? ==>
      b.backup && !IsPreviewClone(st) && archived < |stores| &&
      NamesBucket(stores[archived], ConfigMapKey(k.ns, BackupName(k.name)), archive.value)
  }

  predicate NamesBucket(s: Store, k: Key, bucket: string) {
    k in s.objs && s.objs[k].obj.ConfigMap? && GetOr(s.objs[k].obj.data, "BUCKET_NAME", "") == bucket
  }

  predicate RecoverableIn(s: Store, k: Key) {
    k in s.objs && s.objs[k].obj.Cluster? && s.objs[k].obj.recoverable
  }

  /** A ready, bound source snapshot of the parent's claim, labelled for teardown. */
  predicate SourceTaken(s: Store, st: Object, previewNs: string, backing: string, content: string)
    requires st.Stack?
  {
    var k := SnapshotKey(st.cloneNs, CloneName(previewNs, backing));
    k in s.objs && s.objs[k].obj.Snapshot? && s.objs[k].obj.cloneOwner == previewNs &&
    s.objs[k].obj.source == FromClaim(ClaimName(st.cloneStack, backing)) &&
    s.objs[k].obj.readyToUse && s.objs[k].obj.boundContent == content && content != ""
  }

  predicate HandleIn(s: Store, content: string, driver: string, handle: string) {
    var k := ContentKey(content);
    k in s.objs && s.objs[k].obj.Content? && s.objs[k].obj.statusHandle == handle && handle != "" &&
    s.objs[k].obj.driver == driver && driver != ""
  }

  /** The content the source snapshot is bound to. */
  function SourceContent(s: Store, st: Object, previewNs: string, backing: string): string
    requires st.Stack?
  {
    var k := SnapshotKey(st.cloneNs, CloneName(previewNs, backing));
    if k in s.objs && s.objs[k].obj.Snapshot? then s.objs[k].obj.boundContent else ""
  }

  /** The static content that exposes a handle to the restore snapshot. */
  predicate ContentShared(s: Store, previewNs: string, backing: string) {
    var k := ContentKey(CloneName(previewNs, backing));
    k in s.objs && s.objs[k].obj.Content? && s.objs[k].obj.contentOwner == previewNs &&
    s.objs[k].obj.refNs == previewNs && s.objs[k].obj.refName == RestoreName(backing)
  }

  /** A version of an Environment that was not being deleted, and its finalizer held. */
  predicate EnvironmentHeld(stores: seq<Store>, why: Reason) {
    why.EnvProvision? && HasEnvironment(stores, why.version, why.env) && HasEnvironment(stores, why.held, why.env) &&
    !stores[why.version].objs[why.env].deleting &&
    stores[why.held].objs[why.env].uid == stores[why.version].objs[why.env].uid &&
    stores[why.held].objs[why.env].obj.finalizer
  }

  predicate NamespaceFits(o: Object, ek: Key, env: Object)
    requires env.Environment?
  {
    o.Namespace? && o.project == env.project && o.environment == ek.name &&
    o.envType == (if env.envType != "" then env.envType else "persistent")
  }

  /** An Environment whose Stack is to start as a clone of a sibling's. */
  predicate IsPreview(env: Object)
    requires env.Environment?
  {
    env.envType == "preview" && env.cloneFrom != ""
  }

  /** A preview's clone source is the Stack of the sibling, in the sibling's namespace;
      other Environments name none. */
  predicate CloneFits(cloneNs: string, cloneStack: string, ek: Key, env: Object)
    requires env.Environment?
  {
    if IsPreview(env) then cloneStack == env.cloneFrom && cloneNs == NamespaceOf(ek.(name := env.cloneFrom), env)
    else cloneStack == "" && cloneNs == ""
  }

  /** The reads that entitle a pass to apply a patch to an object. */
  predicate Justified(cfg: Config, stores: seq<Store>, k: Key, p: Patch, why: Reason) {
    match p
    case BackingSet(stack, labels, serviceName, container, volume) =>
      why.Placement? && HasStack(stores, why.version, why.stack) &&
      (var st := StackAt(stores, why.version, why.stack);
       why.backing < |st.spec.backing| &&
       (var b := st.spec.backing[why.backing];
        k == SetKey(why.stack.ns, BackingName(why.stack.name, b.name)) &&
        SetFits(cfg, StatefulSet(Some(stack), labels, serviceName, container, volume, 0), why.stack.name, b,
                why.from) &&
        VolumeJustified(cfg, stores, k, st, b, volume, why)))
    case PgCluster(stack, disk, image, bootstrap, archive) =>
      why.Provision? && HasStack(stores, why.version, why.stack) &&
      (var st := StackAt(stores, why.version, why.stack);
       why.backing < |st.spec.backing| &&
       (var b := st.spec.backing[why.backing];
        k == ClusterKey(why.stack.ns, BackingName(why.stack.name, b.name)) && IsPostgres(b.kind) &&
        ClusterFits(Cluster(Some(stack), disk, image, bootstrap, archive, 0, false), why.stack.name, b) &&
        ArchiveJustified(stores, k, st, b, archive, why.archived) &&
        BootstrapJustified(stores, k, st, b, bootstrap, why.seed, why.named, why.creds, why.copied)))
    case SourceSnapshot(previewNs, claim) =>
      why.CloneLink? && HasStack(stores, why.version, why.stack) &&
      (var st := StackAt(stores, why.version, why.stack);
       why.backing < |st.spec.backing| && IsPreviewClone(st) && previewNs == why.stack.ns && previewNs != "" &&
       (var b := st.spec.backing[why.backing];
        k == SnapshotKey(st.cloneNs, CloneName(previewNs, b.name)) && claim == ClaimName(st.cloneStack, b.name)))
    case StaticContent(previewNs, driver, handle, restore) =>
      why.CloneLink? && HasStack(stores, why.version, why.stack) &&
      (var st := StackAt(stores, why.version, why.stack);
       why.backing < |st.spec.backing| && IsPreviewClone(st) && previewNs == why.stack.ns && previewNs != "" &&
       (var b := st.spec.backing[why.backing];
        k == ContentKey(CloneName(previewNs, b.name)) && restore == RestoreName(b.name) &&
        why.snapshot < |stores| && why.content < |stores| &&
        (var source := SourceContent(stores[why.snapshot], st, previewNs, b.name);
         SourceTaken(stores[why.snapshot], st, previewNs, b.name, source) &&
         HandleIn(stores[why.content], source, driver, handle))))
    case RestoreSnapshot(previewNs, content) =>
      why.CloneLink? && HasStack(stores, why.version, why.stack) &&
      (var st := StackAt(stores, why.version, why.stack);
       why.backing < |st.spec.backing| && IsPreviewClone(st) && previewNs == why.stack.ns && previewNs != "" &&
       (var b := st.spec.backing[why.backing];
        k == SnapshotKey(previewNs, RestoreName(b.name)) && content == CloneName(previewNs, b.name) &&
        why.content < |stores| && ContentShared(stores[why.content], previewNs, b.name)))
    case ProcessDeployment(stack, labels, replicas, container) =>
      why.Rollout? && HasStack(stores, why.version, why.stack) &&
      (var st := StackAt(stores, why.version, why.stack);
       why.service < |st.spec.services| &&
       (var svc := st.spec.services[why.service];
        svc.image != "" && why.process < |svc.processes| &&
        (var proc := svc.processes[why.process];
         k == DeploymentKey(why.stack.ns, ProcessName(why.stack.name, svc.name, proc.name)) &&
         DeploymentFits(cfg, Deployment(Some(stack), labels, replicas, container, 0), why.stack.name, svc, proc,
           why.passage.env) &&
         GatesPassed(cfg, stores, why.stack, st, svc, why.passage))))
    case EnvNamespace(project, environment, envType) =>
      EnvironmentHeld(stores, why) &&
      (var env := stores[why.version].objs[why.env].obj;
       k == NamespaceKey(NamespaceOf(why.env, env)) &&
       NamespaceFits(Namespace(project, environment, envType), why.env, env))
    case EnvStack(cloneNs, cloneStack, spec) =>
      EnvironmentHeld(stores, why) &&
      (var env := stores[why.version].objs[why.env].obj;
       k == Key(StackKind, NamespaceOf(why.env, env), why.env.name) && env.stack == Some(spec) &&
       CloneFits(cloneNs, cloneStack, why.env, env))
    case _ => true
  }

  predicate StatusJustified(cfg: Config, stores: seq<Store>, sk: Key, st: Object, status: Status, why: Reason)
    requires st.Stack?
  {
    var services := st.spec.services;
    status.observedGeneration == st.generation &&
    (status.phase == Running || status.phase == Progressing ==>
       why.Assessment? && |why.passages| == |services| &&
       (forall i | 0 <= i < |services| && services[i].image != "" ::
          GatesPassed(cfg, stores, sk, st, services[i], why.passages[i])) &&
       why.listed < |stores| &&
       (status.phase == Running <==> AllDeploymentsReady(stores[why.listed], sk.ns, sk.name)))
  }

  /** Every listed artifact, and the namespace, was deleted at some later time. */
  predicate TeardownJustified(stores: seq<Store>, ek: Key, why: Reason) {
    why.Teardown? && HasEnvironment(stores, why.version, ek) &&
    (var e := stores[why.version].objs[ek];
     var ns := NamespaceOf(ek, e.obj);
     e.deleting && why.version <= why.snapshots < |stores| && why.version <= why.contents < |stores| &&
     (forall k | k in Labelled(stores[why.snapshots], SnapshotKind, ns) ::
        k in why.doomed && why.snapshots <= why.doomed[k] < |stores| && Doomed(stores[why.doomed[k]], k)) &&
     (forall k | k in Labelled(stores[why.contents], ContentKind, ns) ::
        k in why.doomed && why.contents <= why.doomed[k] < |stores| && Doomed(stores[why.doomed[k]], k)) &&
     why.version <= why.nsDoomed < |stores| && Doomed(stores[why.nsDoomed], NamespaceKey(ns)))
  }

  /** The kinds of object anybody may keep in a namespace. */
  predicate ForeignKind(kind: Kind) {
    kind != StackKind && kind != NamespaceKind && kind != EnvironmentKind
  }

  /** What the API server admits in a store. */
  predicate Possible(cfg: Config, s: Store, ev: Event) {
    var k := ev.key;
    match ev
    case Applied(_, p, _) =>
      k.kind == PatchKind(p) && Mutate(cfg, p, Find(s, k)).Ok?
    case JobCreated(_, job, _) => k !in s.objs && k.kind == JobKind && job.Job?
    case StatusWritten(_, _, _) => k in s.objs && s.objs[k].obj.Stack?
    case FinalizerAdded(_) => k in s.objs && s.objs[k].obj.Environment? && !s.objs[k].deleting
    case FinalizerRemoved(_, _) => k in s.objs && s.objs[k].obj.Environment?
    case DeleteAccepted(_) => k in s.objs
    case Removed(_) => k in s.objs && (s.objs[k].obj.Environment? ==> !s.objs[k].obj.finalizer)
    case StackEdited(_, _, _, _) => k.kind == StackKind
    case EnvironmentEdited(_, _, _, _, _) => k.kind == EnvironmentKind
    case StatusReported(_, o) => k in s.objs && StatusOnly(s.objs[k].obj, o)
    case Foreign(_, o) =>
      ForeignKind(k.kind) && KindOf(o) == k.kind && OwnerOf(o) == None &&
      (k in s.objs ==> OwnerOf(s.objs[k].obj) == None)
  }

  predicate HookJustified(cfg: Config, stores: seq<Store>, k: Key, job: Object, why: Reason)
    requires job.Job?
  {
    why.Hook? && HasStack(stores, why.version, why.stack) &&
    (var st := StackAt(stores, why.version, why.stack);
     why.service < |st.spec.services| &&
     (var svc := st.spec.services[why.service];
      HasHook(svc) && k == JobKey(why.stack, svc.name, st.generation) &&
      JobFits(cfg, job, why.stack.name, svc, why.passage.env) &&
      Connected(cfg, stores, why.stack, st.spec, svc, why.passage)))
  }

  /** What a pass must have read before it causes an event; `stores` is the run
      so far. The other events need no reason. */
  predicate Warranted(cfg: Config, stores: seq<Store>, ev: Event)
    requires |stores| > 0
  {
    var s := stores[|stores| - 1];
    match ev
    case Applied(k, p, why) => Justified(cfg, stores, k, p, why)
    case JobCreated(k, job, why) => job.Job? && HookJustified(cfg, stores, k, job, why)
    case StatusWritten(k, status, why) =>
      // Status().Update: the Stack has not changed since the version the pass read
      why.Assessment? && k in s.objs && HasStack(stores, why.version, k) &&
      s.objs[k].rv == stores[why.version].objs[k].rv &&
      StatusJustified(cfg, stores, k, StackAt(stores, why.version, k), status, why)
    case FinalizerRemoved(k, why) =>
      why.Teardown? && k in s.objs && TeardownJustified(stores, k, why) &&
      s.objs[k].rv == stores[why.version].objs[k].rv
    case _ => true
  }

  /** Whether an event can happen next. */
  predicate Enabled(cfg: Config, stores: seq<Store>, ev: Event)
    requires |stores| > 0
  {
    Possible(cfg, stores[|stores| - 1], ev) && Warranted(cfg, stores, ev)
  }

  // ----------------------------------------------------------------------- runs

  predicate IsRun(cfg: Config, stores: seq<Store>, events: seq<Event>) {
    |stores| == |events| + 1 && stores[0] == EMPTY &&
    forall i | 0 <= i < |events| :: IsStep(cfg, stores, events, i)
  }

  predicate IsStep(cfg: Config, stores: seq<Store>, events: seq<Event>, i: nat)
    requires |stores| == |events| + 1 && i < |events|
  {
    Enabled(cfg, stores[..i + 1], events[i]) && stores[i + 1] == Effect(cfg, stores[i], events[i])
  }

  lemma ExtendRun(cfg: Config, stores: seq<Store>, events: seq<Event>, ev: Event)
    requires IsRun(cfg, stores, events) && Enabled(cfg, stores, ev)
    ensures IsRun(cfg, stores + [Effect(cfg, stores[|stores| - 1], ev)], events + [ev])
  {
    var stores' := stores + [Effect(cfg, stores[|stores| - 1], ev)];
    var events' := events + [ev];
    forall i | 0 <= i < |events'| ensures IsStep(cfg, stores', events', i) {
      if i < |events| {
        assert IsStep(cfg, stores, events, i);
        assert stores'[..i + 1] == stores[..i + 1];
      } else {
        assert stores'[..i + 1] == stores;
      }
    }
  }

  lemma PatchTyped(cfg: Config, p: Patch, base: Option<Object>)
    requires base.Some? ==> KindOf(base.value) == PatchKind(p)
    requires Mutate(cfg, p, base).Ok?
    ensures KindOf(Mutate(cfg, p, base).value) == PatchKind(p)
  {
  }

  lemma ChangeTyped(cfg: Config, s: Store, ev: Event)
    requires Typed(s) && Possible(cfg, s, ev) && ChangeOf(cfg, s, ev).Write?
    ensures KindOf(ChangeOf(cfg, s, ev).obj) == ev.key.kind
  {
    if ev.Applied? {
      PatchTyped(cfg, ev.patch, Find(s, ev.key));
    }
  }

  /** Every object of a run is stored under a key of its own kind. */
  lemma RunTyped(cfg: Config, stores: seq<Store>, events: seq<Event>, i: nat)
    requires IsRun(cfg, stores, events) && i < |stores|
    ensures Typed(stores[i])
  {
    if i > 0 {
      RunTyped(cfg, stores, events, i - 1);
      StepOf(cfg, stores, events, i - 1);
      if ChangeOf(cfg, stores[i - 1], events[i - 1]).Write? {
        ChangeTyped(cfg, stores[i - 1], events[i - 1]);
      }
    }
  }

  lemma StepOf(cfg: Config, stores: seq<Store>, events: seq<Event>, i: nat)
    requires IsRun(cfg, stores, events) && i < |events|
    ensures Possible(cfg, stores[i], events[i])
    ensures Warranted(cfg, stores[..i + 1], events[i])
    ensures stores[i + 1] == Effect(cfg, stores[i], events[i])
  {
    assert IsStep(cfg, stores, events, i);
    assert stores[..i + 1][i] == stores[i];
  }

  // ---------------------------------------------------------- resource versions

  predicate Clocked(s: Store) {
    forall k | k in s.objs :: s.objs[k].rv <= s.clock && s.objs[k].uid <= s.clock
  }

  lemma RunClocked(cfg: Config, stores: seq<Store>, events: seq<Event>, i: nat, j: nat)
    requires IsRun(cfg, stores, events) && i <= j < |stores|
    ensures Clocked(stores[j]) && stores[i].clock <= stores[j].clock
    decreases j
  {
    hide IsStep, Warranted, Possible, ChangeOf;
    if j > 0 {
      RunClocked(cfg, stores, events, if i < j then i else j - 1, j - 1);
      StepOf(cfg, stores, events, j - 1);
    }
  }

  /** Optimistic concurrency: two reads of one key with one resourceVersion are
      reads of the same object. */
  lemma VersionIdentifies(cfg: Config, stores: seq<Store>, events: seq<Event>, i: nat, j: nat, k: Key)
    requires IsRun(cfg, stores, events) && i <= j < |stores|
    requires k in stores[i].objs && k in stores[j].objs && stores[i].objs[k].rv == stores[j].objs[k].rv
    ensures stores[i].objs[k] == stores[j].objs[k]
    decreases j
  {
    hide IsStep, Warranted, Possible, ChangeOf;
    if i < j {
      StepOf(cfg, stores, events, j - 1);
      RunClocked(cfg, stores, events, i, j - 1);
      RunClocked(cfg, stores, events, 0, i);
      if stores[j].objs[k] == stores[j - 1].objs[k] {
        VersionIdentifies(cfg, stores, events, i, j - 1, k);
      }
    }
  }

  // ------------------------------------------------------------ reasons persist

  lemma ConnectedPersists(cfg: Config, stores: seq<Store>, stores': seq<Store>, sk: Key, spec: StackSpec,
        svc: ServiceSpec, g: Passage)
    requires stores <= stores' && Connected(cfg, stores, sk, spec, svc, g)
    ensures Connected(cfg, stores', sk, spec, svc, g)
  {
    hide BackingReady, Provisions, Binds, Known, OverlayData, EnvFits, IsServiceEdge, IsEdgeVar;
    var data := DataRead(cfg, stores, g.read);
    forall c | 0 <= c < |svc.connections|
      ensures ConnectionMet(cfg, data, stores', sk, spec, svc.connections[c], g.seen[c], g.env)
    {
      assert ConnectionMet(cfg, data, stores, sk, spec, svc.connections[c], g.seen[c], g.env);
    }
  }

  lemma GatesPersist(cfg: Config, stores: seq<Store>, stores': seq<Store>, sk: Key, st: Object, svc: ServiceSpec,
        g: Passage)
    requires st.Stack? && stores <= stores' && GatesPassed(cfg, stores, sk, st, svc, g)
    ensures GatesPassed(cfg, stores', sk, st, svc, g)
  {
    hide Connected;
    ConnectedPersists(cfg, stores, stores', sk, st.spec, svc, g);
  }

  lemma JustifiedPersists(cfg: Config, stores: seq<Store>, stores': seq<Store>, k: Key, p: Patch, why: Reason)
    requires stores <= stores' && Justified(cfg, stores, k, p, why)
    ensures Justified(cfg, stores', k, p, why)
  {
    hide SetFits, VolumeFits, ClusterFits, DeploymentFits, GatesPassed, Origins, OverlayData;
    if p.ProcessDeployment? {
      var st := StackAt(stores, why.version, why.stack);
      GatesPersist(cfg, stores, stores', why.stack, st, st.spec.services[why.service], why.passage);
    }
  }

  lemma HookPersists(cfg: Config, stores: seq<Store>, stores': seq<Store>, k: Key, job: Object, why: Reason)
    requires job.Job? && stores <= stores' && HookJustified(cfg, stores, k, job, why)
    ensures HookJustified(cfg, stores', k, job, why)
  {
    hide Connected, JobFits;
    var st := StackAt(stores, why.version, why.stack);
    ConnectedPersists(cfg, stores, stores', why.stack, st.spec, st.spec.services[why.service], why.passage);
  }

  // -------------------------------------------------------- a call nobody disturbs

  /** The store a call leaves and what it returns. */
  datatype Outcome<+T> = Outcome(store: Store, result: Result<T>)

  /** CreateOrUpdate when no other event falls between its read and its write. */
  function Apply(cfg: Config, s: Store, k: Key, p: Patch): Outcome<Entry>
    requires k.kind == PatchKind(p)
  {
    match Mutate(cfg, p, Find(s, k))
    case Err(why) => Outcome(s, Err(why))
    case Ok(o) =>
      if k in s.objs && s.objs[k].obj == o then Outcome(s, Ok(s.objs[k]))
      else Outcome(Put(s, k, o), Ok(Put(s, k, o).objs[k]))
  }

  lemma ApplyStep(cfg: Config, stores: seq<Store>, k: Key, p: Patch, why: Reason)
    requires |stores| > 0 && k.kind == PatchKind(p)
    requires Mutate(cfg, p, Find(stores[|stores| - 1], k)).Ok? && Justified(cfg, stores, k, p, why)
    ensures Enabled(cfg, stores, Applied(k, p, why))
    ensures Effect(cfg, stores[|stores| - 1], Applied(k, p, why)) ==
            Put(stores[|stores| - 1], k, Mutate(cfg, p, Find(stores[|stores| - 1], k)).value)
  {
    hide Mutate, Justified;
  }

  lemma ForeignStep(cfg: Config, stores: seq<Store>, k: Key, o: Object)
    requires |stores| > 0 && k.kind == ClaimKind && o.Claim?
    requires k in stores[|stores| - 1].objs && stores[|stores| - 1].objs[k].obj.Claim?
    ensures Enabled(cfg, stores, Foreign(k, o))
    ensures Effect(cfg, stores[|stores| - 1], Foreign(k, o)) == Put(stores[|stores| - 1], k, o)
  {
  }

  lemma StatusPersists(cfg: Config, stores: seq<Store>, stores': seq<Store>, sk: Key, st: Object, status: Status,
        why: Reason)
    requires st.Stack? && stores <= stores' && StatusJustified(cfg, stores, sk, st, status, why)
    ensures StatusJustified(cfg, stores', sk, st, status, why)
  {
    if status.phase == Running || status.phase == Progressing {
      forall i | 0 <= i < |st.spec.services| && st.spec.services[i].image != ""
        ensures GatesPassed(cfg, stores', sk, st, st.spec.services[i], why.passages[i])
      {
        GatesPersist(cfg, stores, stores', sk, st, st.spec.services[i], why.passages[i]);
      }
    }
  }

  function Creation(s: Store, k: Key, o: Object): Outcome<()> {
    if k in s.objs then Outcome(s, Err(AlreadyExists)) else Outcome(Put(s, k, o), Ok(()))
  }

  function StatusUpdate(s: Store, sk: Key, entry: Entry, status: Status): Outcome<()>
    requires entry.obj.Stack?
  {
    if sk !in s.objs then Outcome(s, Err(NotFound))
    else if s.objs[sk].rv != entry.rv then Outcome(s, Err(Conflict))
    else if entry.obj.status == status then Outcome(s, Ok(()))
    else Outcome(Put(s, sk, entry.obj.(status := status)), Ok(()))
  }

  /** The patches that need no reason. */
  predicate IsPlumbing(p: Patch) {
    !p.BackingSet? && !p.PgCluster? && !p.SourceSnapshot? && !p.StaticContent? && !p.RestoreSnapshot? &&
    !p.ProcessDeployment? && !p.EnvNamespace? && !p.EnvStack?
  }

  lemma PlumbingJustified(cfg: Config, stores: seq<Store>, k: Key, p: Patch)
    requires IsPlumbing(p)
    ensures Justified(cfg, stores, k, p, Plumbing)
  {
  }
}
