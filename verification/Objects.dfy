/** The objects the controllers read and write, and the mutate functions they
    hand to CreateOrUpdate. */
module Objects {
  import opened Wrappers
  import opened Names

  // ----------------------------------------------------------------- Stack spec

  datatype EnvSource =
    | Literal(text: string)
    | SecretRef(secret: string, key: string)
    | ConfigRef(configMap: string, key: string)

  datatype EnvVar = EnvVar(name: string, source: EnvSource)

  datatype ProcessSpec = ProcessSpec(name: string, command: string, port: int, replicas: int)

  datatype ConnectionSpec = ConnectionSpec(target: string, alias: string)

  /** `release` is the release hook's command; "" when the service has none. */
  datatype ServiceSpec = ServiceSpec(
    name: string, image: string, processes: seq<ProcessSpec>, env: seq<EnvVar>,
    release: string, connections: seq<ConnectionSpec>)

  datatype BackingSpec = BackingSpec(
    name: string, kind: string, version: string, disk: string, image: string, port: int, backup: bool)

  datatype StackSpec = StackSpec(services: seq<ServiceSpec>, backing: seq<BackingSpec>)

  datatype Phase = NoPhase | Running | Progressing | ProvisioningBacking | ReleaseHook | ReleaseFailed

  datatype HookPhase = NoHookPhase | HookNone | HookRunning | HookComplete | HookFailed

  datatype Status = Status(
    phase: Phase, hook: HookPhase, observedGeneration: nat, services: nat, readyServices: nat)

  const EMPTY_STATUS := Status(NoPhase, NoHookPhase, 0, 0, 0)

  predicate HasHook(svc: ServiceSpec) { svc.release != "" }

  // ------------------------------------------------------------- the descriptors

  datatype PersistenceSpec = PersistenceSpec(mountPath: string, defaultDisk: string)

  datatype ServiceDefinition = ServiceDefinition(
    kind: string, aliases: seq<string>, image: string, defaultVersion: string, port: int, portName: string,
    command: seq<string>, args: seq<string>, generatePassword: bool, containerEnv: map<string, string>,
    persistence: Option<PersistenceSpec>, secretValues: map<string, string>,
    primaryKey: string, extra: map<string, string>)

  /** Letters A to Z only: strings.ToLower on ASCII. */
  function Lower(s: string): string {
    seq(|s|, i requires 0 <= i < |s| => if 'A' <= s[i] <= 'Z' then s[i] - 'A' + 'a' else s[i])
  }

  predicate IsPostgres(kind: string) { Lower(kind) == "postgres" || Lower(kind) == "postgresql" }

  predicate IsObjectStore(kind: string) { Lower(kind) == "object" || Lower(kind) == "s3" }

  /** The lower-case type and the first `n` lower-case aliases. */
  function NamesUpTo(def: ServiceDefinition, n: nat): set<string>
    requires n <= |def.aliases|
  {
    if n == 0 then {Lower(def.kind)} else NamesUpTo(def, n - 1) + {Lower(def.aliases[n - 1])}
  }

  /** A descriptor claims its type and its aliases, in any case. */
  predicate Claims(def: ServiceDefinition, key: string) {
    key in NamesUpTo(def, |def.aliases|)
  }

  type Catalog = map<string, ServiceDefinition>

  type NonEmptyString = s: string | s != "" witness "x"

  /** What the controller is configured with or leaves to libraries: `render` is
      text/template, `parse` is parseServiceDef, `mint` is randomPassword (one
      draw per Secret), `normalize` is normalizeImage. */
  datatype Config = Config(
    builtins: Catalog, systemNs: string, storageClass: string, endpoint: string,
    normalize: string -> string,
    render: (string, map<string, string>) -> Result<string>,
    parse: string -> Option<ServiceDefinition>,
    mint: (string, string) -> NonEmptyString)

  // -------------------------------------------------------------------- objects

  datatype Kind =
    | StackKind | SecretKind | ServiceKind | StatefulSetKind | JobKind | DeploymentKind
    | ClusterKind | BucketClaimKind | ConfigMapKind | SnapshotKind | ContentKind | ClaimKind
    | ScheduledBackupKind | SnapshotScheduleKind | NamespaceKind | EnvironmentKind

  /** Cluster-scoped objects have ns "". */
  datatype Key = Key(kind: Kind, ns: string, name: string)

  datatype Labels =
    | NoLabels
    | BackingLabels(stack: string, backing: string)
    | ProcessLabels(stack: string, service: string, process: string)
    | HookLabels(stack: string, service: string)

  datatype Container = Container(
    name: string, image: string, command: seq<string>, args: seq<string>, env: seq<EnvVar>,
    port: int, mount: Option<string>)

  /** A volume claim template; `source` names the VolumeSnapshot it restores. */
  datatype VolumeClaim = VolumeClaim(disk: string, source: Option<string>)

  datatype Bootstrap =
    | InitDb
    | Recovery(source: string, bucket: string, creds: string)

  datatype JobStatus = JobActive | JobComplete | JobFailed

  datatype SnapshotSource = FromClaim(claim: string) | FromContent(content: string)

  /** `owner` is the controller reference (a Stack's name); `cloneOwner` is the
      paas.sh/clone-owner label, "" when absent. */
  datatype Object =
    | Stack(generation: nat, cloneNs: string, cloneStack: string, spec: StackSpec, status: Status)
    | Secret(owner: Option<string>, data: map<string, string>)
    | Service(owner: Option<string>, labels: Labels, headless: bool, selector: Labels,
              portName: string, port: int, targetPort: int)
    | StatefulSet(owner: Option<string>, labels: Labels, serviceName: string, container: Container,
                  volume: Option<VolumeClaim>, readyReplicas: nat)
    | Job(owner: Option<string>, labels: Labels, container: Container, outcome: JobStatus)
    | Deployment(owner: Option<string>, labels: Labels, replicas: int, container: Container, readyPods: nat)
    | Cluster(owner: Option<string>, disk: string, image: string, bootstrap: Bootstrap,
              archive: Option<string>, readyInstances: nat, recoverable: bool)
    | BucketClaim(owner: Option<string>, generateName: string, storageClass: string, bound: bool)
    | ConfigMap(data: map<string, string>)
    | Snapshot(cloneOwner: string, source: SnapshotSource, readyToUse: bool, boundContent: string)
    | Content(contentOwner: string, driver: string, handle: string, refNs: string, refName: string,
              statusHandle: string)
    | Claim(backup: bool, backing: string)
    | ScheduledBackup(owner: Option<string>, cluster: string)
    | SnapshotSchedule(owner: Option<string>)
    | Namespace(project: string, environment: string, envType: string)
    | Environment(revision: nat, project: string, envType: string, cloneFrom: string,
                  stack: Option<StackSpec>, finalizer: bool)

  function KindOf(o: Object): Kind {
    match o
    case Stack(_, _, _, _, _) => StackKind
    case Secret(_, _) => SecretKind
    case Service(_, _, _, _, _, _, _) => ServiceKind
    case StatefulSet(_, _, _, _, _, _) => StatefulSetKind
    case Job(_, _, _, _) => JobKind
    case Deployment(_, _, _, _, _) => DeploymentKind
    case Cluster(_, _, _, _, _, _, _) => ClusterKind
    case BucketClaim(_, _, _, _) => BucketClaimKind
    case ConfigMap(_) => ConfigMapKind
    case Snapshot(_, _, _, _) => SnapshotKind
    case Content(_, _, _, _, _, _) => ContentKind
    case Claim(_, _) => ClaimKind
    case ScheduledBackup(_, _) => ScheduledBackupKind
    case SnapshotSchedule(_) => SnapshotScheduleKind
    case Namespace(_, _, _) => NamespaceKind
    case Environment(_, _, _, _, _, _) => EnvironmentKind
  }

  /** The Stack or the preview namespace an object is marked as belonging to. */
  function OwnerOf(o: Object): Option<string> {
    if o.Snapshot? then (if o.cloneOwner == "" then None else Some(o.cloneOwner))
    else if o.Content? then (if o.contentOwner == "" then None else Some(o.contentOwner))
    else if o.Stack? || o.ConfigMap? || o.Claim? || o.Namespace? || o.Environment? then None
    else o.owner
  }

  // -------------------------------------------------------- CreateOrUpdate bodies

  /** One constructor per CreateOrUpdate call site. A field marked "creation
      only" is written only while the object has no UID. */
  datatype Patch =
    | TemplatedSecret(stack: string, def: ServiceDefinition, host: string, mint: NonEmptyString)
    | FallbackSecret(stack: string, host: string, port: int)
    | CopiedCreds(stack: string, accessKey: string, secretKey: string)
    | BackingService(stack: string, labels: Labels, portName: string, port: int)
    | ProcessService(stack: string, labels: Labels, port: int)
    | BackingSet(stack: string, labels: Labels, serviceName: string, container: Container,
                 volume: Option<VolumeClaim>)                       // volume: creation only
    | PgCluster(stack: string, disk: string, image: string, bootstrap: Bootstrap,
                archive: Option<string>)                            // bootstrap: creation only
    | Bucket(stack: string, generateName: string, storageClass: string)
    | BaseBackup(stack: string, cluster: string)
    | BackupSchedule(stack: string)
    | SourceSnapshot(previewNs: string, claim: string)
    | StaticContent(previewNs: string, driver: string, handle: string, restore: string)
    | RestoreSnapshot(previewNs: string, content: string)
    | ProcessDeployment(stack: string, labels: Labels, replicas: int, container: Container)
    | EnvNamespace(project: string, environment: string, envType: string)
    | EnvStack(cloneNs: string, cloneStack: string, spec: StackSpec)

  function PatchKind(p: Patch): Kind {
    match p
    case TemplatedSecret(_, _, _, _) => SecretKind
    case FallbackSecret(_, _, _) => SecretKind
    case CopiedCreds(_, _, _) => SecretKind
    case BackingService(_, _, _, _) => ServiceKind
    case ProcessService(_, _, _) => ServiceKind
    case BackingSet(_, _, _, _, _) => StatefulSetKind
    case PgCluster(_, _, _, _, _) => ClusterKind
    case Bucket(_, _, _) => BucketClaimKind
    case BaseBackup(_, _) => ScheduledBackupKind
    case BackupSchedule(_) => SnapshotScheduleKind
    case SourceSnapshot(_, _) => SnapshotKind
    case StaticContent(_, _, _, _) => ContentKind
    case RestoreSnapshot(_, _) => SnapshotKind
    case ProcessDeployment(_, _, _, _) => DeploymentKind
    case EnvNamespace(_, _, _) => NamespaceKind
    case EnvStack(_, _, _) => StackKind
  }

  /** SetControllerReference: a controller owner of another name refuses. */
  predicate Ownable(base: Option<Object>, stack: string) {
    base.Some? ==> OwnerOf(base.value) == None || OwnerOf(base.value) == Some(stack)
  }

  function Number(n: int): string {
    if n < 0 then "-" + Decimal(-n) else Decimal(n)
  }

  function TemplateData(host: string, port: int, password: string): map<string, string> {
    map["Host" := host, "Port" := Number(port), "Password" := password]
  }

  /** The Secret of a template backing before secretValues are rendered: the
      password is minted only when it is wanted and absent. */
  function SecretBase(def: ServiceDefinition, host: string, mint: string,
        data: map<string, string>): map<string, string>
  {
    var minted := if def.generatePassword && GetOr(data, "password", "") == ""
                  then data["password" := mint] else data;
    minted["host" := host]["port" := Number(def.port)]
  }

  predicate Renders(cfg: Config, def: ServiceDefinition, values: map<string, string>) {
    forall k | k in def.secretValues :: cfg.render(def.secretValues[k], values).Ok?
  }

  function Rendered(cfg: Config, def: ServiceDefinition, values: map<string, string>): map<string, string>
    requires Renders(cfg, def, values)
  {
    map k | k in def.secretValues :: cfg.render(def.secretValues[k], values).value
  }

  /** The values every template of this Secret is rendered with. */
  function SecretData(def: ServiceDefinition, host: string, mint: string,
        data: map<string, string>): map<string, string>
  {
    TemplateData(host, def.port, GetOr(SecretBase(def, host, mint, data), "password", ""))
  }

  function SecretFinal(cfg: Config, def: ServiceDefinition, host: string, mint: string,
        data: map<string, string>): map<string, string>
    requires Renders(cfg, def, SecretData(def, host, mint, data))
  {
    SecretBase(def, host, mint, data) + Rendered(cfg, def, SecretData(def, host, mint, data))
  }

  /** What the mutate function makes of the object it is given (None: not found). */
  function Mutate(cfg: Config, p: Patch, base: Option<Object>): Result<Object>
    requires base.Some? ==> KindOf(base.value) == PatchKind(p)
  {
    match p
    case TemplatedSecret(stack, def, host, mint) =>
      var data := if base.Some? then base.value.data else map[];
      if !Renders(cfg, def, SecretData(def, host, mint, data)) then Err(RenderFailed)
      else if !Ownable(base, stack) then Err(AlreadyOwned)
      else Ok(Secret(Some(stack), SecretFinal(cfg, def, host, mint, data)))
    case FallbackSecret(stack, host, port) =>
      var data := if base.Some? then base.value.data else map[];
      if !Ownable(base, stack) then Err(AlreadyOwned)
      else Ok(Secret(Some(stack),
        data["host" := host]["port" := Number(port)]["endpoint" := host + ":" + Number(port)]))
    case CopiedCreds(stack, accessKey, secretKey) =>
      var data := if base.Some? then base.value.data else map[];
      if !Ownable(base, stack) then Err(AlreadyOwned)
      else Ok(Secret(Some(stack),
        data["AWS_ACCESS_KEY_ID" := accessKey]["AWS_SECRET_ACCESS_KEY" := secretKey]))
    case BackingService(stack, labels, portName, port) =>
      if !Ownable(base, stack) then Err(AlreadyOwned)
      else Ok(Service(Some(stack), labels, true, labels, portName, port, port))
    case ProcessService(stack, labels, port) =>
      if !Ownable(base, stack) then Err(AlreadyOwned)
      else Ok(Service(Some(stack), labels, base.Some? && base.value.headless, labels, "http", 80, port))
    case BackingSet(stack, labels, serviceName, container, volume) =>
      if !Ownable(base, stack) then Err(AlreadyOwned)
      else if base.None? then Ok(StatefulSet(Some(stack), labels, serviceName, container, volume, 0))
      else Ok(StatefulSet(Some(stack), labels, serviceName, container, base.value.volume, base.value.readyReplicas))
    case PgCluster(stack, disk, image, bootstrap, archive) =>
      if !Ownable(base, stack) then Err(AlreadyOwned)
      else if base.None? then Ok(Cluster(Some(stack), disk, image, bootstrap, archive, 0, false))
      else Ok(Cluster(Some(stack), disk, image, base.value.bootstrap,
        if archive.Some? then archive else base.value.archive, base.value.readyInstances, base.value.recoverable))
    case Bucket(stack, generateName, storageClass) =>
      if !Ownable(base, stack) then Err(AlreadyOwned)
      else Ok(BucketClaim(Some(stack), generateName, storageClass, base.Some? && base.value.bound))
    case BaseBackup(stack, cluster) =>
      if !Ownable(base, stack) then Err(AlreadyOwned) else Ok(ScheduledBackup(Some(stack), cluster))
    case BackupSchedule(stack) =>
      if !Ownable(base, stack) then Err(AlreadyOwned) else Ok(SnapshotSchedule(Some(stack)))
    case SourceSnapshot(previewNs, claim) =>
      Ok(if base.None? then Snapshot(previewNs, FromClaim(claim), false, "")
         else base.value.(cloneOwner := previewNs, source := FromClaim(claim)))
    case StaticContent(previewNs, driver, handle, restore) =>
      Ok(Content(previewNs, driver, handle, previewNs, restore,
        if base.None? then "" else base.value.statusHandle))
    case RestoreSnapshot(previewNs, content) =>
      Ok(if base.None? then Snapshot(previewNs, FromContent(content), false, "")
         else base.value.(cloneOwner := previewNs, source := FromContent(content)))
    case ProcessDeployment(stack, labels, replicas, container) =>
      if !Ownable(base, stack) then Err(AlreadyOwned)
      else Ok(Deployment(Some(stack), labels, replicas, container, if base.None? then 0 else base.value.readyPods))
    case EnvNamespace(project, environment, envType) =>
      Ok(Namespace(project, environment, envType))
    case EnvStack(cloneNs, cloneStack, spec) =>
      Ok(if base.None? then Stack(1, cloneNs, cloneStack, spec, EMPTY_STATUS)
         else base.value.(
           generation := if base.value.spec == spec then base.value.generation else base.value.generation + 1,
           cloneNs := if cloneNs != "" then cloneNs else base.value.cloneNs,
           cloneStack := if cloneStack != "" then cloneStack else base.value.cloneStack,
           spec := spec))
  }

  // ------------------------------------------------------ what a patch guarantees

  /** Every secret value is its template rendered with the password beside it. */
  predicate Coherent(cfg: Config, def: ServiceDefinition, host: string, data: map<string, string>) {
    forall k | k in def.secretValues ::
      k in data &&
      cfg.render(def.secretValues[k], TemplateData(host, def.port, GetOr(data, "password", ""))) == Ok(data[k])
  }

  /** The fields a patch owns, as they stand in the object it returns. */
  predicate Carries(cfg: Config, p: Patch, o: Object) {
    KindOf(o) == PatchKind(p) &&
    match p
    case TemplatedSecret(stack, def, host, _) =>
      o.owner == Some(stack) && ("password" !in def.secretValues ==> Coherent(cfg, def, host, o.data)) &&
      ("host" !in def.secretValues ==> GetOr(o.data, "host", "") == host) &&
      ("port" !in def.secretValues ==> GetOr(o.data, "port", "") == Number(def.port)) &&
      (def.generatePassword && "password" !in def.secretValues ==> GetOr(o.data, "password", "") != "")
    case FallbackSecret(stack, host, port) =>
      o.owner == Some(stack) && GetOr(o.data, "endpoint", "") == host + ":" + Number(port) &&
      GetOr(o.data, "host", "") == host && GetOr(o.data, "port", "") == Number(port)
    case CopiedCreds(stack, accessKey, secretKey) =>
      o.owner == Some(stack) && GetOr(o.data, "AWS_ACCESS_KEY_ID", "") == accessKey &&
      GetOr(o.data, "AWS_SECRET_ACCESS_KEY", "") == secretKey
    case BackingService(stack, labels, portName, port) =>
      o == Service(Some(stack), labels, true, labels, portName, port, port)
    case ProcessService(stack, labels, port) =>
      o == Service(Some(stack), labels, o.headless, labels, "http", 80, port)
    case BackingSet(stack, labels, serviceName, container, _) =>
      o == StatefulSet(Some(stack), labels, serviceName, container, o.volume, o.readyReplicas)
    case PgCluster(stack, disk, image, _, archive) =>
      o == Cluster(Some(stack), disk, image, o.bootstrap, o.archive, o.readyInstances, o.recoverable) &&
      (archive.Some? ==> o.archive == archive)
    case Bucket(stack, generateName, storageClass) =>
      o == BucketClaim(Some(stack), generateName, storageClass, o.bound)
    case BaseBackup(stack, cluster) => o == ScheduledBackup(Some(stack), cluster)
    case BackupSchedule(stack) => o == SnapshotSchedule(Some(stack))
    case SourceSnapshot(previewNs, claim) => o.cloneOwner == previewNs && o.source == FromClaim(claim)
    case StaticContent(previewNs, driver, handle, restore) =>
      o == Content(previewNs, driver, handle, previewNs, restore, o.statusHandle)
    case RestoreSnapshot(previewNs, content) => o.cloneOwner == previewNs && o.source == FromContent(content)
    case ProcessDeployment(stack, labels, replicas, container) =>
      o == Deployment(Some(stack), labels, replicas, container, o.readyPods)
    case EnvNamespace(project, environment, envType) => o == Namespace(project, environment, envType)
    case EnvStack(cloneNs, cloneStack, spec) =>
      o.spec == spec && (cloneNs != "" ==> o.cloneNs == cloneNs) && (cloneStack != "" ==> o.cloneStack == cloneStack)
  }

  lemma MutateCarries(cfg: Config, p: Patch, base: Option<Object>)
    requires base.Some? ==> KindOf(base.value) == PatchKind(p)
    requires Mutate(cfg, p, base).Ok?
    ensures Carries(cfg, p, Mutate(cfg, p, base).value)
  {
    if p.TemplatedSecret? {
      hide Renders, SecretFinal, Coherent, SecretData;
      TemplateCarries(cfg, p.def, p.host, p.mint, if base.Some? then base.value.data else map[]);
    }
  }

  lemma TemplateCarries(cfg: Config, def: ServiceDefinition, host: string, mint: NonEmptyString,
        data: map<string, string>)
    requires Renders(cfg, def, SecretData(def, host, mint, data))
    ensures var final := SecretFinal(cfg, def, host, mint, data);
            ("host" !in def.secretValues ==> GetOr(final, "host", "") == host) &&
            ("port" !in def.secretValues ==> GetOr(final, "port", "") == Number(def.port)) &&
            ("password" !in def.secretValues ==>
               Coherent(cfg, def, host, final) && (def.generatePassword ==> GetOr(final, "password", "") != ""))
  {
    if "password" !in def.secretValues {
      PasswordSettles(cfg, def, host, mint, data);
    }
  }

  lemma WrittenAgain(data: map<string, string>, host: string, port: string, values: map<string, string>)
    ensures var final := data["host" := host]["port" := port] + values;
            final["host" := host]["port" := port] + values == final
  {
  }

  /** The password a Secret ends up with is the one its values are rendered with,
      and it is there if the descriptor wants one. */
  lemma PasswordSettles(cfg: Config, def: ServiceDefinition, host: string, mint: NonEmptyString,
        data: map<string, string>)
    requires "password" !in def.secretValues && Renders(cfg, def, SecretData(def, host, mint, data))
    ensures var final := SecretFinal(cfg, def, host, mint, data);
            GetOr(final, "password", "") == GetOr(SecretBase(def, host, mint, data), "password", "") &&
            (def.generatePassword ==> GetOr(final, "password", "") != "")
  {
    hide Renders;
    assert "password" !in Rendered(cfg, def, SecretData(def, host, mint, data));
  }

  lemma SecretSettles(cfg: Config, def: ServiceDefinition, host: string, mint: NonEmptyString,
        data: map<string, string>)
    requires "password" !in def.secretValues && Renders(cfg, def, SecretData(def, host, mint, data))
    ensures var final := SecretFinal(cfg, def, host, mint, data);
            SecretData(def, host, mint, final) == SecretData(def, host, mint, data) &&
            SecretFinal(cfg, def, host, mint, final) == final
  {
    hide Renders, Rendered, TemplateData;
    var values := Rendered(cfg, def, SecretData(def, host, mint, data));
    var kept := if def.generatePassword && GetOr(data, "password", "") == "" then data["password" := mint] else data;
    PasswordSettles(cfg, def, host, mint, data);
    WrittenAgain(kept, host, Number(def.port), values);
  }

  /** A second run of the same mutate function finds nothing to change: it makes
      the same fields, and creation-only fields and statuses are left alone. */
  lemma MutateSettles(cfg: Config, p: Patch, base: Option<Object>)
    requires base.Some? ==> KindOf(base.value) == PatchKind(p)
    requires Mutate(cfg, p, base).Ok?
    requires p.TemplatedSecret? ==> "password" !in p.def.secretValues
    ensures Carries(cfg, p, Mutate(cfg, p, base).value)
    ensures Mutate(cfg, p, Some(Mutate(cfg, p, base).value)) == Mutate(cfg, p, base)
  {
    hide Carries, SecretBase, Rendered;
    MutateCarries(cfg, p, base);
    if p.TemplatedSecret? {
      SecretSettles(cfg, p.def, p.host, p.mint, if base.Some? then base.value.data else map[]);
    } else if p.FallbackSecret? || p.CopiedCreds? {
      assert Mutate(cfg, p, Some(Mutate(cfg, p, base).value)).value.data == Mutate(cfg, p, base).value.data;
    }
  }
}
