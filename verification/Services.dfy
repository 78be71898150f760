/** The services half of StackReconciler.Reconcile: resolve connections, hold,
    run the release hook, roll out (stack_controller.go). */
module Services {
  import opened Wrappers
  import opened Names
  import opened Objects
  import opened Shapes
  import opened Clusters
  import opened Api
  import opened Snapshots
  import opened Bindings
  import opened Backings

  // ------------------------------------------------------------- internal URLs

  function FirstPort(svc: ServiceSpec, j: nat): Option<ProcessSpec>
    requires j <= |svc.processes|
    decreases |svc.processes| - j
  {
    if j == |svc.processes| then None
    else if svc.processes[j].port > 0 then Some(svc.processes[j])
    else FirstPort(svc, j + 1)
  }

  function UrlOf(sk: Key, svc: ServiceSpec, p: ProcessSpec): string {
    "http://" + ServiceHost(ProcessName(sk.name, svc.name, p.name), sk.ns)
  }

  /** serviceURLs after `n` services: a later service of the same name wins. */
  function Urls(sk: Key, spec: StackSpec, n: nat): map<string, string>
    requires n <= |spec.services|
  {
    if n == 0 then map[]
    else
      var svc := spec.services[n - 1];
      var p := FirstPort(svc, 0);
      if p.None? then Urls(sk, spec, n - 1) else Urls(sk, spec, n - 1)[svc.name := UrlOf(sk, svc, p.value)]
  }

  method ServiceUrls(sk: Key, spec: StackSpec) returns (out: map<string, string>)
    ensures out == Urls(sk, spec, |spec.services|)
  {
    out := map[];
    for i := 0 to |spec.services|
      invariant out == Urls(sk, spec, i)
    {
      var svc := spec.services[i];
      var j := 0;
      while j < |svc.processes| && svc.processes[j].port <= 0
        invariant 0 <= j <= |svc.processes| && FirstPort(svc, 0) == FirstPort(svc, j)
      {
        j := j + 1;
      }
      if j < |svc.processes| {
        out := out[svc.name := UrlOf(sk, svc, svc.processes[j])];
      }
    }
  }

  lemma {:induction false} FirstPortExposed(svc: ServiceSpec, j: nat)
    requires j <= |svc.processes|
    ensures FirstPort(svc, j).Some? <==> exists i | j <= i < |svc.processes| :: svc.processes[i].port > 0
    decreases |svc.processes| - j
  {
    if j < |svc.processes| {
      FirstPortExposed(svc, j + 1);
    }
  }

  /** A name has an internal URL exactly when a service of that name has a port. */
  lemma {:induction false} UrlsAreServiceEdges(sk: Key, spec: StackSpec, n: nat, target: string)
    requires n <= |spec.services|
    ensures target in Urls(sk, spec, n) <==>
            exists i | 0 <= i < n :: spec.services[i].name == target && Exposed(spec.services[i])
  {
    if n > 0 {
      UrlsAreServiceEdges(sk, spec, n - 1, target);
      FirstPortExposed(spec.services[n - 1], 0);
    }
  }

  lemma {:induction false} FirstPortAt(svc: ServiceSpec, j: nat) returns (at: nat)
    requires j <= |svc.processes| && FirstPort(svc, j).Some?
    requires forall i | 0 <= i < j :: svc.processes[i].port <= 0
    ensures FirstPorted(svc, at) && FirstPort(svc, j) == Some(svc.processes[at])
    decreases |svc.processes| - j
  {
    at := j;
    if svc.processes[j].port <= 0 {
      at := FirstPortAt(svc, j + 1);
    }
  }

  /** The URL of a name is that of the last service of the name with a port, by its
      first process with one. */
  lemma {:induction false} UrlAt(sk: Key, spec: StackSpec, n: nat, target: string) returns (i: nat, j: nat)
    requires n <= |spec.services| && target in Urls(sk, spec, n)
    ensures i < n && spec.services[i].name == target && FirstPorted(spec.services[i], j)
    ensures forall k | i < k < n && spec.services[k].name == target :: !Exposed(spec.services[k])
    ensures Urls(sk, spec, n)[target] ==
            "http://" + ServiceHost(ProcessName(sk.name, target, spec.services[i].processes[j].name), sk.ns)
  {
    hide ServiceHost, ProcessName;
    var svc := spec.services[n - 1];
    FirstPortExposed(svc, 0);
    if FirstPort(svc, 0).Some? && svc.name == target {
      i := n - 1;
      j := FirstPortAt(svc, 0);
    } else {
      i, j := UrlAt(sk, spec, n - 1, target);
    }
  }

  lemma UrlIsEdge(sk: Key, spec: StackSpec, target: string)
    ensures target in Urls(sk, spec, |spec.services|) <==> IsServiceEdge(spec, target)
    ensures target in Urls(sk, spec, |spec.services|) ==>
              EdgeUrl(sk, spec, target, Urls(sk, spec, |spec.services|)[target])
  {
    hide ServiceHost, ProcessName, Urls;
    UrlsAreServiceEdges(sk, spec, |spec.services|, target);
    if target in Urls(sk, spec, |spec.services|) {
      var i, j := UrlAt(sk, spec, |spec.services|, target);
      assert Exposed(spec.services[i]);
      assert LastExposed(spec, target, i);
    }
  }

  // ---------------------------------------------------------------- connections

  /** The env of a service after its first `n` connections, and whether some
      backing made it wait. */
  datatype Resolved = Resolved(env: seq<EnvVar>, wait: bool)

  ghost function Resolve(cfg: Config, urls: map<string, string>, backings: map<string, Backing>, svc: ServiceSpec,
        n: nat): Resolved
    requires n <= |svc.connections|
  {
    if n == 0 then Resolved(svc.env, false)
    else
      var before := Resolve(cfg, urls, backings, svc, n - 1);
      var conn := svc.connections[n - 1];
      if conn.target in urls then
        (if conn.alias == "" then before
         else before.(env := before.env + [EnvVar(conn.alias, Literal(urls[conn.target]))]))
      else if conn.target in backings then
        (if !backings[conn.target].ready then before.(wait := true)
         else if conn.alias == "" then before
         else before.(env := before.env + BindingEnv(cfg, backings[conn.target].binding, conn.alias)))
      else before
  }

  predicate Blocks(urls: map<string, string>, backings: map<string, Backing>, target: string) {
    target !in urls && target in backings && !backings[target].ready
  }

  /** A service waits exactly when one of its connections leads to a backing that
      is not ready. */
  lemma {:induction false} WaitsForBacking(cfg: Config, urls: map<string, string>, backings: map<string, Backing>,
        svc: ServiceSpec, n: nat)
    requires n <= |svc.connections|
    ensures Resolve(cfg, urls, backings, svc, n).wait <==>
            exists i | 0 <= i < n :: Blocks(urls, backings, svc.connections[i].target)
  {
    if n > 0 {
      WaitsForBacking(cfg, urls, backings, svc, n - 1);
    }
  }

  function SeenAt(sights: map<string, Sight>, svc: ServiceSpec): seq<nat> {
    seq(|svc.connections|, i requires 0 <= i < |svc.connections| =>
      GetOr(sights, svc.connections[i].target, Sight(0, 0)).at)
  }

  /** What one connection adds to the env. */
  ghost function Added(cfg: Config, urls: map<string, string>, backings: map<string, Backing>, conn: ConnectionSpec)
    : seq<EnvVar>
  {
    if conn.alias == "" then []
    else if conn.target in urls then [EnvVar(conn.alias, Literal(urls[conn.target]))]
    else if conn.target in backings && backings[conn.target].ready then
      BindingEnv(cfg, backings[conn.target].binding, conn.alias)
    else []
  }

  lemma ResolveAdds(cfg: Config, urls: map<string, string>, backings: map<string, Backing>, svc: ServiceSpec, n: nat)
    requires 0 < n <= |svc.connections|
    ensures Resolve(cfg, urls, backings, svc, n).env ==
            Resolve(cfg, urls, backings, svc, n - 1).env + Added(cfg, urls, backings, svc.connections[n - 1])
  {
    hide BindingEnv;
  }

  /** Whatever a connection adds is in the env of the service. */
  lemma {:induction false} ResolveHolds(cfg: Config, urls: map<string, string>, backings: map<string, Backing>,
        svc: ServiceSpec, i: nat, n: nat, e: EnvVar)
    requires i < n <= |svc.connections| && e in Added(cfg, urls, backings, svc.connections[i])
    ensures e in Resolve(cfg, urls, backings, svc, n).env
  {
    hide Added, Resolve;
    ResolveAdds(cfg, urls, backings, svc, n);
    if i < n - 1 {
      ResolveHolds(cfg, urls, backings, svc, i, n - 1, e);
    }
  }

  /** After the spec's own vars nothing is in the env but what connections add. */
  lemma {:induction false} ResolveOnly(cfg: Config, urls: map<string, string>, backings: map<string, Backing>,
        svc: ServiceSpec, n: nat)
    requires n <= |svc.connections|
    ensures var env := Resolve(cfg, urls, backings, svc, n).env;
            svc.env <= env &&
            forall m | |svc.env| <= m < |env| ::
              exists i | 0 <= i < n :: env[m] in Added(cfg, urls, backings, svc.connections[i])
  {
    hide Added;
    if n > 0 {
      var before, env := Resolve(cfg, urls, backings, svc, n - 1).env, Resolve(cfg, urls, backings, svc, n).env;
      ResolveOnly(cfg, urls, backings, svc, n - 1);
      ResolveAdds(cfg, urls, backings, svc, n);
      forall m | |svc.env| <= m < |env|
        ensures exists i | 0 <= i < n :: env[m] in Added(cfg, urls, backings, svc.connections[i])
      {
        if m < |before| {
          assert env[m] == before[m];
        } else {
          assert env[m] in Added(cfg, urls, backings, svc.connections[n - 1]);
        }
      }
    }
  }

  /** The connections of a service resolved: the spec's env, then what its connections
      add and nothing else; it waits exactly when one of them blocks. */
  method ResolveConnections(cfg: Config, urls: map<string, string>, backings: map<string, Backing>, svc: ServiceSpec)
    returns (r: Resolved)
    ensures r == Resolve(cfg, urls, backings, svc, |svc.connections|)
    ensures svc.env <= r.env
    ensures forall i, e | 0 <= i < |svc.connections| && e in Added(cfg, urls, backings, svc.connections[i]) ::
      e in r.env
    ensures forall m | |svc.env| <= m < |r.env| ::
      exists i | 0 <= i < |svc.connections| :: r.env[m] in Added(cfg, urls, backings, svc.connections[i])
    ensures r.wait <==> exists i | 0 <= i < |svc.connections| :: Blocks(urls, backings, svc.connections[i].target)
  {
    var env, wait := svc.env, false;
    for i := 0 to |svc.connections|
      invariant Resolved(env, wait) == Resolve(cfg, urls, backings, svc, i)
    {
      var conn := svc.connections[i];
      if conn.target in urls {
        if conn.alias != "" {
          env := env + [EnvVar(conn.alias, Literal(urls[conn.target]))];
        }
      } else if conn.target in backings {
        if !backings[conn.target].ready {
          wait := true;
        } else if conn.alias != "" {
          var extra := Bind(cfg, backings[conn.target].binding, conn.alias);
          env := env + extra;
        }
      }
    }
    r := Resolved(env, wait);
    forall i, e | 0 <= i < |svc.connections| && e in Added(cfg, urls, backings, svc.connections[i]) ensures e in env {
      ResolveHolds(cfg, urls, backings, svc, i, |svc.connections|, e);
    }
    ResolveOnly(cfg, urls, backings, svc, |svc.connections|);
    WaitsForBacking(cfg, urls, backings, svc, |svc.connections|);
  }

  /** A binding stands for exactly what the tier of its backing makes. */
  lemma BindingIs(cfg: Config, data: map<string, string>, sk: Key, b: BackingSpec, binding: Binding, alias: string,
                  e: EnvVar)
    requires BindingFits(cfg, data, sk, b, binding) && alias != ""
    ensures e in BindingEnv(cfg, binding, alias) <==> e in BackingVars(cfg, sk, b, OriginOf(binding), alias)
  {
    hide Lower, BackingName, AppSecretName, SortedSecretEnv, Origins;
    match binding {
      case PostgresBinding(secret) => PostgresEnvIs(secret, alias, e);
      case ObjectBinding(name) => ObjectEnvIs(cfg, name, alias, e);
      case TemplateBinding(def, secret) => SortedRefers(def.extra, secret);
      case FallbackBinding(secret) => FallbackEnvIs(secret, alias, e);
    }
  }

  lemma PostgresEnvIs(secret: string, alias: string, e: EnvVar)
    ensures e in PostgresEnv(secret, alias) <==> e in PostgresVars(secret, alias)
  {
    SameSix(EnvVar(alias, SecretRef(secret, "uri")), EnvVar("PGHOST", SecretRef(secret, "host")),
      EnvVar("PGPORT", SecretRef(secret, "port")), EnvVar("PGDATABASE", SecretRef(secret, "dbname")),
      EnvVar("PGUSER", SecretRef(secret, "user")), EnvVar("PGPASSWORD", SecretRef(secret, "password")), e);
  }

  lemma SameSix<T>(a: T, b: T, c: T, d: T, f: T, g: T, e: T)
    ensures e in [a, b, c, d, f, g] <==> e in {a, b, c, d, f, g}
  {
    var s := [a, b, c, d, f, g];
    assert s[0] in s && s[1] in s && s[2] in s && s[3] in s && s[4] in s && s[5] in s;
  }

  lemma ObjectEnvIs(cfg: Config, name: string, alias: string, e: EnvVar)
    requires alias != ""
    ensures e in ObjectEnv(cfg, name, alias) <==> e in BucketVars(cfg, name, alias)
  {
    SameEight(EnvVar("S3_ENDPOINT", Literal(cfg.endpoint)), EnvVar("S3_BUCKET", ConfigRef(name, "BUCKET_NAME")),
      EnvVar("S3_REGION", Literal("us-east-1")), EnvVar("AWS_DEFAULT_REGION", Literal("us-east-1")),
      EnvVar("S3_ACCESS_KEY_ID", SecretRef(name, "AWS_ACCESS_KEY_ID")),
      EnvVar("S3_SECRET_ACCESS_KEY", SecretRef(name, "AWS_SECRET_ACCESS_KEY")),
      EnvVar("AWS_ACCESS_KEY_ID", SecretRef(name, "AWS_ACCESS_KEY_ID")),
      EnvVar("AWS_SECRET_ACCESS_KEY", SecretRef(name, "AWS_SECRET_ACCESS_KEY")), e);
  }

  lemma SameEight<T>(a: T, b: T, c: T, d: T, f: T, g: T, h: T, i: T, e: T)
    ensures e in [a, b, c, d, f, g, h, i] <==> e in {a, b, c, d, f, g, h, i}
  {
    var s := [a, b, c, d, f, g, h, i];
    assert s[0] in s && s[1] in s && s[2] in s && s[3] in s && s[4] in s && s[5] in s && s[6] in s && s[7] in s;
  }

  lemma FallbackEnvIs(secret: string, alias: string, e: EnvVar)
    requires alias != ""
    ensures e in FallbackEnv(secret, alias) <==> e in AddressVars(secret, alias)
  {
    SameThree(EnvVar(alias, SecretRef(secret, "endpoint")), EnvVar("FALLBACK_HOST", SecretRef(secret, "host")),
      EnvVar("FALLBACK_PORT", SecretRef(secret, "port")), e);
  }

  lemma SameThree<T>(a: T, b: T, c: T, e: T)
    ensures e in [a] + [b, c] <==> e in {a, b, c}
  {
    var s := [a] + [b, c];
    assert s[0] in s && s[1] in s && s[2] in s;
  }

  /** A service that does not wait has every connection met and bound, and nothing
      else in its env. */
  lemma NotWaitingIsMet(cfg: Config, stores: seq<Store>, sk: Key, spec: StackSpec, svc: ServiceSpec, ledger: Ledger,
                        sights: map<string, Sight>, read: Option<nat>, g: Passage)
    requires ReadIn(stores, read)
    requires LedgerSound(cfg, DataRead(cfg, stores, read), stores, sk, spec, |spec.backing|, ledger, sights)
    requires var resolved := Resolve(cfg, Urls(sk, spec, |spec.services|), ledger.backings, svc, |svc.connections|);
             !resolved.wait && g.env == resolved.env
    requires g.seen == SeenAt(sights, svc) && g.read == read
    ensures Connected(cfg, stores, sk, spec, svc, g)
  {
    hide ConnectionMet, LedgerSound, Resolve, Added, Contributes, DataRead, Urls;
    var urls, data := Urls(sk, spec, |spec.services|), DataRead(cfg, stores, read);
    WaitsForBacking(cfg, urls, ledger.backings, svc, |svc.connections|);
    forall i | 0 <= i < |svc.connections|
      ensures ConnectionMet(cfg, data, stores, sk, spec, svc.connections[i], g.seen[i], g.env)
    {
      assert !Blocks(urls, ledger.backings, svc.connections[i].target);
      forall e | e in Added(cfg, urls, ledger.backings, svc.connections[i]) ensures e in g.env {
        ResolveHolds(cfg, urls, ledger.backings, svc, i, |svc.connections|, e);
      }
      AddedMeets(cfg, data, stores, sk, spec, svc.connections[i], ledger, sights, g.env);
    }
    assert ConnectionsMet(cfg, data, stores, sk, spec, svc, g.seen, g.env);
    ResolveOnly(cfg, urls, ledger.backings, svc, |svc.connections|);
    assert svc.env <= g.env;
    forall m | |svc.env| <= m < |g.env| ensures OfConnection(cfg, data, sk, spec, svc, g.env[m]) {
      var c :| 0 <= c < |svc.connections| && g.env[m] in Added(cfg, urls, ledger.backings, svc.connections[c]);
      AddedContributes(cfg, data, stores, sk, spec, svc.connections[c], ledger, sights, g.env[m]);
    }
    assert EnvFits(cfg, data, sk, spec, svc, g.env);
  }

  lemma AddedMeets(cfg: Config, data: map<string, string>, stores: seq<Store>, sk: Key, spec: StackSpec,
                   conn: ConnectionSpec, ledger: Ledger, sights: map<string, Sight>, env: seq<EnvVar>)
    requires LedgerSound(cfg, data, stores, sk, spec, |spec.backing|, ledger, sights)
    requires !Blocks(Urls(sk, spec, |spec.services|), ledger.backings, conn.target)
    requires forall e | e in Added(cfg, Urls(sk, spec, |spec.services|), ledger.backings, conn) :: e in env
    ensures ConnectionMet(cfg, data, stores, sk, spec, conn, GetOr(sights, conn.target, Sight(0, 0)).at, env)
  {
    hide BackingReady, Provisions, Known, IsServiceEdge, Urls, EdgeUrl, BackingVars, BindingEnv, Origins, BindingFits;
    var urls := Urls(sk, spec, |spec.services|);
    UrlIsEdge(sk, spec, conn.target);
    if conn.target in urls {
      if conn.alias != "" {
        var e := EnvVar(conn.alias, Literal(urls[conn.target]));
        assert e in Added(cfg, urls, ledger.backings, conn) && IsEdgeVar(sk, spec, conn, e);
      }
    } else if conn.target in ledger.backings {
      assert Sighted(cfg, data, stores, sk, spec, conn.target, ledger.backings[conn.target], sights[conn.target]);
      if conn.alias != "" {
        var b, binding := spec.backing[sights[conn.target].index], ledger.backings[conn.target].binding;
        BoundByAdded(cfg, data, sk, b, binding, conn.alias, env);
      }
    }
  }

  lemma BoundByAdded(cfg: Config, data: map<string, string>, sk: Key, b: BackingSpec, binding: Binding, alias: string,
                     env: seq<EnvVar>)
    requires BindingFits(cfg, data, sk, b, binding) && alias != ""
    requires forall e | e in BindingEnv(cfg, binding, alias) :: e in env
    ensures Binds(cfg, data, env, sk, b, alias)
  {
    hide BackingVars, BindingEnv, Origins;
    var from := OriginOf(binding);
    OriginFits(cfg, data, sk, b, binding);
    forall e | e in BackingVars(cfg, sk, b, from, alias) ensures e in env {
      BindingIs(cfg, data, sk, b, binding, alias, e);
    }
    assert BackingVars(cfg, sk, b, from, alias) <= set e | e in env;
  }

  lemma OriginFits(cfg: Config, data: map<string, string>, sk: Key, b: BackingSpec, binding: Binding)
    requires BindingFits(cfg, data, sk, b, binding)
    ensures OriginOf(binding) in Origins(cfg, data, b)
  {
  }

  lemma AddedContributes(cfg: Config, data: map<string, string>, stores: seq<Store>, sk: Key, spec: StackSpec,
                         conn: ConnectionSpec, ledger: Ledger, sights: map<string, Sight>, e: EnvVar)
    requires LedgerSound(cfg, data, stores, sk, spec, |spec.backing|, ledger, sights)
    requires e in Added(cfg, Urls(sk, spec, |spec.services|), ledger.backings, conn)
    ensures Contributes(cfg, data, sk, spec, conn, e)
  {
    hide BackingReady, Provisions, Known, IsServiceEdge, Urls, EdgeUrl, BackingVars, BindingEnv, Origins, BindingFits;
    var urls := Urls(sk, spec, |spec.services|);
    UrlIsEdge(sk, spec, conn.target);
    if conn.target !in urls {
      assert Sighted(cfg, data, stores, sk, spec, conn.target, ledger.backings[conn.target], sights[conn.target]);
      var b, binding := spec.backing[sights[conn.target].index], ledger.backings[conn.target].binding;
      OriginFits(cfg, data, sk, b, binding);
      BindingIs(cfg, data, sk, b, binding, conn.alias, e);
      assert OfBacking(cfg, data, sk, b, conn.alias, e);
    }
  }

  // --------------------------------------------------------------- the release hook

  /** reconcileReleaseJob: a Job of this generation that is not there is created
      and not done. */
  method ReleaseGate(c: ApiServer, sk: Key, st: Object, si: nat, env: seq<EnvVar>, ghost v: nat, ghost g: Passage)
    returns (r: Result<JobStatus>, ghost at: nat)
    requires Reads(c, sk, st, v) && si < |st.spec.services| && HasHook(st.spec.services[si])
    requires g.env == env && Connected(c.cfg, c.stores, sk, st.spec, st.spec.services[si], g)
    modifies c`stores, c`events
    ensures c.Valid() && old(c.stores) <= c.stores && old(c.events) <= c.events
    ensures r.Ok? ==> JobSeen(c.stores, JobKey(sk, st.spec.services[si].name, st.generation), r.value, at)
    ensures c.quiet ==> Outcome(c.Now(), r) == ReleaseGateQ(c.cfg, old(c.Now()), sk, st, st.spec.services[si], env)
  {
    hide IsStep, Connected, HookJustified, ReleaseJob;
    var svc := st.spec.services[si];
    var k := JobKey(sk, svc.name, st.generation);
    JobIs(c.cfg, sk, svc, env);
    var got, readAt := c.Get(k);
    at := readAt;
    match got
    case Failed => r := Err(Transient);
    case Found(entry) => r := Ok(entry.obj.outcome);
    case Missing =>
      ConnectedPersists(c.cfg, old(c.stores), c.stores, sk, st.spec, svc, g);
      JustifyHook(c.cfg, c.stores, v, sk, st, si, g);
      var created := c.CreateJob(k, ReleaseJob(c.cfg, sk, svc, env), Hook(v, sk, si, g));
      at := |c.stores| - 1;
      r := if created.Err? then Err(created.why) else Ok(JobActive);
  }

  lemma JobIs(cfg: Config, sk: Key, svc: ServiceSpec, env: seq<EnvVar>)
    ensures var job := ReleaseJob(cfg, sk, svc, env);
            job.Job? && job.outcome == JobActive && JobFits(cfg, job, sk.name, svc, env)
  {
  }

  lemma JustifyHook(cfg: Config, stores: seq<Store>, v: nat, sk: Key, st: Object, si: nat, g: Passage)
    requires HasStack(stores, v, sk) && StackAt(stores, v, sk) == st && si < |st.spec.services|
    requires HasHook(st.spec.services[si]) && Connected(cfg, stores, sk, st.spec, st.spec.services[si], g)
    ensures var svc := st.spec.services[si]; var job := ReleaseJob(cfg, sk, svc, g.env);
            job.Job? && HookJustified(cfg, stores, JobKey(sk, svc.name, st.generation), job, Hook(v, sk, si, g))
  {
    hide Connected, JobFits;
    JobIs(cfg, sk, st.spec.services[si], g.env);
  }

  /** The Job of a gate, as it stood in some store of the run. */
  predicate JobSeen(stores: seq<Store>, k: Key, outcome: JobStatus, at: nat) {
    at < |stores| && k in stores[at].objs && stores[at].objs[k].obj.Job? && stores[at].objs[k].obj.outcome == outcome
  }

  function ReleaseGateQ(cfg: Config, s: Store, sk: Key, st: Object, svc: ServiceSpec,
        env: seq<EnvVar>): Outcome<JobStatus>
    requires st.Stack?
  {
    var k := JobKey(sk, svc.name, st.generation);
    var job := Find(s, k);
    if job.Some? then Outcome(s, Ok(job.value.outcome))
    else
      var created := Creation(s, k, ReleaseJob(cfg, sk, svc, env));
      Outcome(created.store, if created.result.Err? then Err(created.result.why) else Ok(JobActive))
  }

  // ---------------------------------------------------------------------- rollout

  function ServicePatch(sk: Key, svc: ServiceSpec, p: ProcessSpec): Patch {
    ProcessService(sk.name, ProcessLabels(sk.name, svc.name, p.name), p.port)
  }

  /** Where the objects of a process were seen. */
  datatype Spot = Spot(deployment: nat, service: nat)

  /** The Deployment of a process was seen as the spec asks, and its Service if it has a
      port. */
  predicate Deployed(cfg: Config, stores: seq<Store>, sk: Key, svc: ServiceSpec, p: ProcessSpec, env: seq<EnvVar>,
        at: Spot)
  {
    var name := ProcessName(sk.name, svc.name, p.name);
    at.deployment < |stores| && DeploymentKey(sk.ns, name) in stores[at.deployment].objs &&
    DeploymentFits(cfg, stores[at.deployment].objs[DeploymentKey(sk.ns, name)].obj, sk.name, svc, p, env) &&
    (p.port > 0 ==>
       at.service < |stores| && ServiceKey(sk.ns, name) in stores[at.service].objs &&
       ServiceFits(stores[at.service].objs[ServiceKey(sk.ns, name)].obj, sk.name, svc, p))
  }

  lemma ProcessCarries(cfg: Config, sk: Key, svc: ServiceSpec, p: ProcessSpec, env: seq<EnvVar>, o: Object)
    ensures Carries(cfg, ProcessPatch(cfg, sk, svc, p, env), o) ==> DeploymentFits(cfg, o, sk.name, svc, p, env)
    ensures Carries(cfg, ServicePatch(sk, svc, p), o) ==> ServiceFits(o, sk.name, svc, p)
  {
  }

  lemma ProcessKinds(cfg: Config, sk: Key, svc: ServiceSpec, p: ProcessSpec, env: seq<EnvVar>)
    ensures ProcessPatch(cfg, sk, svc, p, env).ProcessDeployment? && ServicePatch(sk, svc, p).ProcessService?
  {
  }

  lemma JustifyRollout(cfg: Config, stores: seq<Store>, v: nat, sk: Key, st: Object, si: nat, pi: nat, g: Passage)
    requires HasStack(stores, v, sk) && StackAt(stores, v, sk) == st && si < |st.spec.services|
    requires st.spec.services[si].image != "" && pi < |st.spec.services[si].processes|
    requires GatesPassed(cfg, stores, sk, st, st.spec.services[si], g)
    ensures var svc := st.spec.services[si]; var p := svc.processes[pi];
            Justified(cfg, stores, DeploymentKey(sk.ns, ProcessName(sk.name, svc.name, p.name)),
              ProcessPatch(cfg, sk, svc, p, g.env), Rollout(v, sk, si, pi, g))
  {
    hide GatesPassed, ProcessPatch, ProcessName;
    var svc := st.spec.services[si];
    var p := svc.processes[pi];
    var patch := ProcessPatch(cfg, sk, svc, p, g.env);
    ProcessKinds(cfg, sk, svc, p, g.env);
    ProcessFits(cfg, sk, svc, p, g.env);
  }

  lemma ProcessFits(cfg: Config, sk: Key, svc: ServiceSpec, p: ProcessSpec, env: seq<EnvVar>)
    ensures var patch := ProcessPatch(cfg, sk, svc, p, env);
            DeploymentFits(cfg, Deployment(Some(patch.stack), patch.labels, patch.replicas, patch.container, 0),
                           sk.name,
              svc, p, env)
  {
  }

  /** reconcileProcess. */
  method ReconcileProcess(c: ApiServer, sk: Key, st: Object, si: nat, pi: nat, env: seq<EnvVar>, ghost v: nat,
        ghost g: Passage)
    returns (r: Result<()>, ghost at: Spot)
    requires Reads(c, sk, st, v) && si < |st.spec.services|
    requires st.spec.services[si].image != "" && pi < |st.spec.services[si].processes|
    requires GatesPassed(c.cfg, c.stores, sk, st, st.spec.services[si], g) && g.env == env
    modifies c`stores, c`events
    ensures c.Valid() && old(c.stores) <= c.stores && old(c.events) <= c.events
    ensures r.Ok? ==>
              Deployed(c.cfg, c.stores, sk, st.spec.services[si], st.spec.services[si].processes[pi], env, at)
    ensures c.quiet ==>
              Outcome(c.Now(), r) ==
                ProcessQ(c.cfg, old(c.Now()), sk, st.spec.services[si], st.spec.services[si].processes[pi], env)
  {
    hide IsRun, Mutate, Justified, Apply, GatesPassed, Carries, ProcessPatch, ServicePatch, DeploymentFits,
         ServiceFits, ProcessName;
    at := Spot(0, 0);
    var svc := st.spec.services[si];
    var p := svc.processes[pi];
    var name := ProcessName(sk.name, svc.name, p.name);
    ProcessKinds(c.cfg, sk, svc, p, env);
    JustifyRollout(c.cfg, c.stores, v, sk, st, si, pi, g);
    var dep, depAt := c.CreateOrUpdate(DeploymentKey(sk.ns, name), ProcessPatch(c.cfg, sk, svc, p, env),
                                       Rollout(v, sk, si, pi, g));
    if dep.Err? {
      return Err(dep.why), at;
    }
    ProcessCarries(c.cfg, sk, svc, p, env, dep.value.obj);
    at := at.(deployment := depAt);
    if p.port <= 0 {
      return Ok(()), at;
    }
    PlumbingJustified(c.cfg, c.stores, ServiceKey(sk.ns, name), ServicePatch(sk, svc, p));
    var obj, objAt := c.CreateOrUpdate(ServiceKey(sk.ns, name), ServicePatch(sk, svc, p), Plumbing);
    if obj.Err? {
      return Err(obj.why), at;
    }
    ProcessCarries(c.cfg, sk, svc, p, env, obj.value.obj);
    at := at.(service := objAt);
    r := Ok(());
  }

  function ProcessQ(cfg: Config, s: Store, sk: Key, svc: ServiceSpec, p: ProcessSpec, env: seq<EnvVar>): Outcome<()> {
    var name := ProcessName(sk.name, svc.name, p.name);
    var dep := Apply(cfg, s, DeploymentKey(sk.ns, name), ProcessPatch(cfg, sk, svc, p, env));
    if dep.result.Err? then Outcome(dep.store, Err(dep.result.why))
    else if p.port <= 0 then Outcome(dep.store, Ok(()))
    else
      var obj := Apply(cfg, dep.store, ServiceKey(sk.ns, name), ServicePatch(sk, svc, p));
      Outcome(obj.store, if obj.result.Err? then Err(obj.result.why) else Ok(()))
  }

  function ProcessesQ(cfg: Config, s: Store, sk: Key, svc: ServiceSpec, env: seq<EnvVar>, n: nat): Outcome<()>
    requires n <= |svc.processes|
  {
    if n == 0 then Outcome(s, Ok(()))
    else
      var before := ProcessesQ(cfg, s, sk, svc, env, n - 1);
      if before.result.Err? then before else ProcessQ(cfg, before.store, sk, svc, svc.processes[n - 1], env)
  }

  lemma ProcessErrStays(cfg: Config, s: Store, sk: Key, svc: ServiceSpec, env: seq<EnvVar>, m: nat, n: nat)
    requires m <= n <= |svc.processes| && ProcessesQ(cfg, s, sk, svc, env, m).result.Err?
    ensures ProcessesQ(cfg, s, sk, svc, env, n) == ProcessesQ(cfg, s, sk, svc, env, m)
  {
  }

  ghost predicate AllDeployed(cfg: Config, stores: seq<Store>, sk: Key, svc: ServiceSpec, env: seq<EnvVar>, n: nat,
        at: seq<Spot>)
  {
    n == |at| <= |svc.processes| &&
    forall j | 0 <= j < n :: Deployed(cfg, stores, sk, svc, svc.processes[j], env, at[j])
  }

  lemma DeployedPersist(cfg: Config, stores: seq<Store>, stores': seq<Store>, sk: Key, svc: ServiceSpec,
                        env: seq<EnvVar>, n: nat, at: seq<Spot>)
    requires stores <= stores' && AllDeployed(cfg, stores, sk, svc, env, n, at)
    ensures AllDeployed(cfg, stores', sk, svc, env, n, at)
  {
    hide DeploymentFits, ServiceFits;
    forall j | 0 <= j < n ensures Deployed(cfg, stores', sk, svc, svc.processes[j], env, at[j]) {
      assert Deployed(cfg, stores, sk, svc, svc.processes[j], env, at[j]);
    }
  }

  method RollOut(c: ApiServer, sk: Key, st: Object, si: nat, env: seq<EnvVar>, ghost v: nat, ghost g: Passage)
    returns (r: Result<()>, ghost at: seq<Spot>)
    requires Reads(c, sk, st, v) && si < |st.spec.services| && st.spec.services[si].image != ""
    requires GatesPassed(c.cfg, c.stores, sk, st, st.spec.services[si], g) && g.env == env
    modifies c`stores, c`events
    ensures c.Valid() && old(c.stores) <= c.stores && old(c.events) <= c.events
    ensures r.Ok? ==>
              AllDeployed(c.cfg, c.stores, sk, st.spec.services[si], env, |st.spec.services[si].processes|, at)
    ensures c.quiet ==>
              Outcome(c.Now(), r) ==
              ProcessesQ(c.cfg, old(c.Now()), sk, st.spec.services[si], env, |st.spec.services[si].processes|)
  {
    hide IsStep, GatesPassed, ProcessQ, Deployed;
    at := [];
    var svc := st.spec.services[si];
    for j := 0 to |svc.processes|
      invariant Reads(c, sk, st, v) && old(c.stores) <= c.stores && old(c.events) <= c.events
      invariant AllDeployed(c.cfg, c.stores, sk, svc, env, j, at)
      invariant c.quiet ==> Outcome(c.Now(), Ok(())) == ProcessesQ(c.cfg, old(c.Now()), sk, svc, env, j)
    {
      GatesPersist(c.cfg, old(c.stores), c.stores, sk, st, svc, g);
      ghost var stores0 := c.stores;
      var one;
      ghost var oneAt;
      one, oneAt := ReconcileProcess(c, sk, st, si, j, env, v, g);
      if one.Err? {
        if c.quiet {
          ProcessErrStays(c.cfg, old(c.Now()), sk, svc, env, j + 1, |svc.processes|);
        }
        return Err(one.why), at;
      }
      assert one.value == ();
      DeployedPersist(c.cfg, stores0, c.stores, sk, svc, env, j, at);
      at := at + [oneAt];
    }
    r := Ok(());
  }
}
