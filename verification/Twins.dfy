/** The API's view of a Stack's backings (internal/api/server.go), against the
    reconciler's. */
module Twins {
  import opened Wrappers
  import opened Names
  import opened Objects
  import opened Shapes
  import opened Clusters
  import opened Catalogs
  import opened Backings
  import opened Passes
  import opened Readiness

  datatype BackingStatus = BackingStatus(name: string, kind: string, ready: bool)

  /** backingStatuses: the signal of each backing's tier. */
  method BackingStatuses(s: Store, sk: Key, spec: StackSpec) returns (out: seq<BackingStatus>)
    ensures |out| == |spec.backing|
    ensures forall i | 0 <= i < |out| ::
              out[i] == BackingStatus(spec.backing[i].name, spec.backing[i].kind,
                                      BackingReady(s, sk.ns, sk.name, spec.backing[i]))
  {
    hide Lower;
    out := [];
    for i := 0 to |spec.backing|
      invariant |out| == i
      invariant forall j | 0 <= j < i ::
                  out[j] == BackingStatus(spec.backing[j].name, spec.backing[j].kind,
                                          BackingReady(s, sk.ns, sk.name, spec.backing[j]))
    {
      var b := spec.backing[i];
      var name := BackingName(sk.name, b.name);
      var ready := false;
      if IsPostgres(b.kind) {
        var u := Find(s, ClusterKey(sk.ns, name));
        ready := u.Some? && u.value.readyInstances >= 1;
      } else if IsObjectStore(b.kind) {
        var u := Find(s, BucketKey(sk.ns, name));
        ready := u.Some? && u.value.bound;
      } else {
        var u := Find(s, SetKey(sk.ns, name));
        ready := u.Some? && u.value.readyReplicas >= 1;
      }
      out := out + [BackingStatus(b.name, b.kind, ready)];
    }
  }

  predicate DistinctBackings(spec: StackSpec) {
    forall i, j | 0 <= i < j < |spec.backing| :: spec.backing[i].name != spec.backing[j].name
  }

  /** The ledger's entry for a backing is its own. */
  lemma {:induction false} LedgerEntry(cfg: Config, cat: Catalog, u: Store, sk: Key, st: Object, n: nat, i: nat)
    requires st.Stack? && i < n <= |st.spec.backing| && DistinctBackings(st.spec)
    requires forall m | 0 <= m <= n :: ProvisionAll(cfg, cat, u, sk, st, m).store == u
    requires ProvisionAll(cfg, cat, u, sk, st, n).result.Ok?
    ensures var one := ProvisionQ(cfg, cat, u, sk, st, st.spec.backing[i]);
            var backings := ProvisionAll(cfg, cat, u, sk, st, n).result.value.backings;
            var name := st.spec.backing[i].name;
            one.store == u && one.result.Ok? &&
            (one.result.value.Some? ==> name in backings && backings[name].ready == one.result.value.value.got.ready) &&
            (one.result.value.None? ==> name !in backings)
  {
    hide ProvisionQ;
    assert ProvisionAll(cfg, cat, u, sk, st, n - 1).store == u;
    assert ProvisionAll(cfg, cat, u, sk, st, n).store == u;
    if i < n - 1 {
      LedgerEntry(cfg, cat, u, sk, st, n - 1, i);
    } else {
      NotYetIn(cfg, cat, u, sk, st, n - 1, st.spec.backing[i].name);
    }
  }

  lemma {:induction false} NotYetIn(cfg: Config, cat: Catalog, u: Store, sk: Key, st: Object, n: nat, name: string)
    requires st.Stack? && n <= |st.spec.backing| && ProvisionAll(cfg, cat, u, sk, st, n).result.Ok?
    requires forall i | 0 <= i < n :: st.spec.backing[i].name != name
    ensures name !in ProvisionAll(cfg, cat, u, sk, st, n).result.value.backings
  {
    hide ProvisionQ;
    if n > 0 {
      NotYetIn(cfg, cat, u, sk, st, n - 1, name);
    }
  }

  /** The twin agrees with the gate: in a settled store, a backing the reconciler
      provisions holds nobody up exactly when the twin reports it ready and, if it
      is a bucket, its ConfigMap is there. */
  lemma TwinAgrees(cfg: Config, cat: Catalog, u: Store, sk: Key, ledger: Ledger, fates: seq<Reconcilers.Fate>, i: nat)
    requires Typed(u) && Settled(cfg, cat, u, sk, ledger, fates) && DistinctBackings(u.objs[sk].obj.spec)
    requires i < |u.objs[sk].obj.spec.backing| && u.objs[sk].obj.spec.backing[i].name in ledger.backings
    ensures var b := u.objs[sk].obj.spec.backing[i];
            ledger.backings[b.name].ready <==> BackingReady(u, sk.ns, sk.name, b) && BucketNamed(u, sk, b)
  {
    hide Typed, ProvisionQ, ProvisionAll, BackingReady, BucketNamed;
    var st := u.objs[sk].obj;
    LedgerEntry(cfg, cat, u, sk, st, |st.spec.backing|, i);
    GateAgrees(cfg, cat, u, sk, st, st.spec.backing[i]);
  }

  // ------------------------------------------------------------------- the palette

  function VarNames(vars: set<EnvVar>): set<string> {
    set v | v in vars :: v.name
  }

  /** The API's entry for a descriptor promises what a connection gets and a pass makes:
      the env vars it names are those a connection under its default alias stands for,
      and it is persistent exactly when the StatefulSet is to have a volume. */
  lemma EntryAgrees(cfg: Config, sk: Key, b: BackingSpec, def: ServiceDefinition)
    ensures var e := EntryOf(def);
            VarNames(BackingVars(cfg, sk, b, Descriptor(def), e.defaultEnv)) == {e.defaultEnv} + set n | n in e.extra
    ensures EntryOf(def).persistent <==> Persistent(Descriptor(def))
    ensures forall o | b.version == "" && SetFits(cfg, o, sk.name, b, Descriptor(def)) ::
              o.container.name == EntryOf(def).kind && o.container.port == EntryOf(def).port &&
              cfg.render(def.image, map["Version" := EntryOf(def).defaultVersion]) == Ok(o.container.image)
  {
    hide TemplateDefaultEnv, Refers;
    var e := EntryOf(def);
    var vars := BackingVars(cfg, sk, b, Descriptor(def), e.defaultEnv);
    var secret := BackingName(sk.name, b.name);
    assert EnvVar(e.defaultEnv, SecretRef(secret, def.primaryKey)) in vars;
    forall n | n in e.extra ensures n in VarNames(vars) {
      assert EnvVar(n, SecretRef(secret, def.extra[n])) in vars;
    }
  }

  /** So do the entries of the operator types, save that a bucket comes with three more
      variables, which S3 clients read, than its entry names. */
  lemma OperatorEntriesAgree(cfg: Config, name: string, o: Object, stack: string, b: BackingSpec)
    ensures b.version == "" && ClusterFits(o, stack, b) ==>
              o.image == "registry.local/cloudnative-pg/postgresql:" + OPERATOR_ENTRIES[0].defaultVersion
    ensures var e := OPERATOR_ENTRIES[0];
            VarNames(PostgresVars(name, e.defaultEnv)) == {e.defaultEnv} + set n | n in e.extra
    ensures var e := OPERATOR_ENTRIES[1];
            VarNames(BucketVars(cfg, name, e.defaultEnv)) ==
            (set n | n in e.extra) + {"AWS_DEFAULT_REGION", "AWS_ACCESS_KEY_ID", "AWS_SECRET_ACCESS_KEY"}
  {
  }

  lemma DefaultEnvs()
    ensures TemplateDefaultEnv("valkey") == "REDIS_URL" && TemplateDefaultEnv("memcached") == "MEMCACHED_SERVERS"
    ensures TemplateDefaultEnv("nats") == "NATS_URL" && TemplateDefaultEnv("my-db2") == "MY_DB2_URL"
  {
  }
}
