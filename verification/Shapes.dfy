/** What the objects of a Stack are to look like, field by field, in terms of its
    spec and the descriptors alone; the passes are proved to write such objects. */
module Shapes {
  import opened Wrappers
  import opened Names
  import opened Objects
  import opened Sorting

  /** What provisions a backing: an operator, a descriptor, or its own image. */
  datatype Origin = Operator | Descriptor(def: ServiceDefinition) | Image

  /** The StatefulSet of such a backing keeps its data. */
  predicate Persistent(from: Origin) {
    from == Image || (from.Descriptor? && from.def.persistence.Some?)
  }

  /** A claim exactly when something persists, of the size the spec asks for, else
      the descriptor, else 1Gi. */
  predicate VolumeFits(volume: Option<VolumeClaim>, b: BackingSpec, from: Origin) {
    (volume.Some? <==> Persistent(from)) &&
    (volume.Some? && b.disk != "" ==> volume.value.disk == b.disk) &&
    (volume.Some? && b.disk == "" ==>
       volume.value.disk == (if from.Descriptor? && from.def.persistence.value.defaultDisk != ""
                             then from.def.persistence.value.defaultDisk else "1Gi"))
  }

  /** One env var for each name of the map, in ascending order, by reference to the
      key it maps to. */
  predicate Refers(env: seq<EnvVar>, m: map<string, string>, secret: string) {
    (forall n | n in m :: EnvVar(n, SecretRef(secret, m[n])) in env) &&
    (forall e | e in env :: e.name in m && e.source == SecretRef(secret, m[e.name])) &&
    forall i, j | 0 <= i < j < |env| :: Less(env[i].name, env[j].name)
  }

  /** The StatefulSet of a backing, its volume aside. */
  predicate SetFits(cfg: Config, o: Object, stack: string, b: BackingSpec, from: Origin) {
    o.StatefulSet? && o.owner == Some(stack) && o.labels == BackingLabels(stack, b.name) &&
    o.serviceName == BackingName(stack, b.name) &&
    match from
    case Operator => false
    case Image =>
      b.port != 0 && o.container == Container("backing", cfg.normalize(b.image), [], [], [], b.port, Some("/data"))
    case Descriptor(def) =>
      var version := if b.version != "" then b.version else def.defaultVersion;
      cfg.render(def.image, map["Version" := version]) == Ok(o.container.image) &&
      o.container.name == def.kind && o.container.command == def.command && o.container.args == def.args &&
      o.container.port == def.port && Refers(o.container.env, def.containerEnv, BackingName(stack, b.name)) &&
      (o.container.mount.Some? <==> def.persistence.Some?) &&
      (def.persistence.Some? ==> o.container.mount == Some(def.persistence.value.mountPath))
  }

  /** The headless Service of a backing selects the pods of its StatefulSet and leads
      to their port. */
  predicate EndpointFits(o: Object, stack: string, b: BackingSpec, from: Origin) {
    o.Service? && o.owner == Some(stack) && o.headless && o.selector == BackingLabels(stack, b.name) &&
    o.labels == o.selector && o.port == o.targetPort &&
    match from
    case Operator => false
    case Image => o.portName == "svc" && o.port == b.port
    case Descriptor(def) => o.portName == (if def.portName != "" then def.portName else def.kind) && o.port == def.port
  }

  /** The Secret of a backing: a fallback's has its address; a template's its values,
      rendered with the password in it, and the host and port it does not render. */
  predicate SecretFits(cfg: Config, o: Object, stack: string, ns: string, b: BackingSpec, from: Origin) {
    o.Secret? && o.owner == Some(stack) &&
    var host := BackingName(stack, b.name) + "." + ns + ".svc.cluster.local";
    match from
    case Operator => false
    case Image =>
      GetOr(o.data, "host", "") == host && GetOr(o.data, "port", "") == Number(b.port) &&
      GetOr(o.data, "endpoint", "") == host + ":" + Number(b.port)
    case Descriptor(def) =>
      ("password" !in def.secretValues ==>
         Coherent(cfg, def, host, o.data) && (def.generatePassword ==> GetOr(o.data, "password", "") != "")) &&
      ("host" !in def.secretValues ==> GetOr(o.data, "host", "") == host) &&
      ("port" !in def.secretValues ==> GetOr(o.data, "port", "") == Number(def.port))
  }

  /** A bucket claim. */
  predicate ClaimFits(cfg: Config, o: Object, stack: string, name: string) {
    o.BucketClaim? && o.owner == Some(stack) && o.generateName == name && o.storageClass == cfg.storageClass
  }

  /** The Cluster of a postgres backing, its bootstrap and archive aside. */
  predicate ClusterFits(o: Object, stack: string, b: BackingSpec) {
    o.Cluster? && o.owner == Some(stack) && o.disk == (if b.disk != "" then b.disk else "1Gi") &&
    o.image == "registry.local/cloudnative-pg/postgresql:" + (if b.version != "" then b.version else "17.2")
  }

  /** The Deployment of a process: PORT comes before the env it is given. */
  predicate DeploymentFits(cfg: Config, o: Object, stack: string, svc: ServiceSpec, p: ProcessSpec, env: seq<EnvVar>) {
    o.Deployment? && o.owner == Some(stack) && o.labels == ProcessLabels(stack, svc.name, p.name) &&
    o.replicas == (if p.replicas != 0 then p.replicas else 1) &&
    o.container.name == p.name && o.container.image == cfg.normalize(svc.image) &&
    o.container.command == (if p.command != "" then ["/bin/sh", "-c", p.command] else []) && o.container.args == [] &&
    o.container.mount == None && o.container.port == (if p.port > 0 then p.port else 0) &&
    o.container.env == (if p.port > 0 then [EnvVar("PORT", Literal(Number(p.port)))] else []) + env
  }

  /** The Service of a process selects the pods of its Deployment and leads to the
      port they listen on. */
  predicate ServiceFits(o: Object, stack: string, svc: ServiceSpec, p: ProcessSpec) {
    o.Service? && o.owner == Some(stack) && o.selector == ProcessLabels(stack, svc.name, p.name) &&
    o.labels == o.selector && o.portName == "http" && o.port == 80 && o.targetPort == p.port
  }

  /** The release Job of a service runs its hook. */
  predicate JobFits(cfg: Config, o: Object, stack: string, svc: ServiceSpec, env: seq<EnvVar>) {
    o.Job? && o.owner == Some(stack) && o.labels == HookLabels(stack, svc.name) && o.outcome == JobActive &&
    o.container.image == cfg.normalize(svc.image) && o.container.command == ["/bin/sh", "-c", svc.release] &&
    o.container.args == [] && o.container.env == env && o.container.mount == None
  }
}
