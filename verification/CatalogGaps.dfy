/** What a failed read of the descriptors' ConfigMap does to the backing gate. */
module CatalogGaps {
  import opened Wrappers
  import opened Names
  import opened Objects
  import opened Shapes
  import opened Clusters
  import opened Bindings
  import opened Catalogs
  import opened Backings
  import opened Services
  import opened Reconcilers
  import opened Runs

  // ---------------------------------------------------------- exactly when the gate holds

  /** Every backing a service connects to, of those a catalog of the types `full`
      provisions, was provisioned and ready. */
  predicate ReadyUnder(full: set<string>, spec: StackSpec, backings: map<string, Backing>, svc: ServiceSpec) {
    forall c, i | 0 <= c < |svc.connections| && 0 <= i < |spec.backing| ::
      spec.backing[i].name == svc.connections[c].target && !IsServiceEdge(spec, svc.connections[c].target) &&
      Provisions(full, spec.backing[i]) ==>
        svc.connections[c].target in backings && backings[svc.connections[c].target].ready
  }

  /** The catalog `known` provisions a backing of every name the service connects to
      for which `full` does. */
  predicate Covers(known: set<string>, full: set<string>, spec: StackSpec, svc: ServiceSpec) {
    forall c, i | 0 <= c < |svc.connections| && 0 <= i < |spec.backing| ::
      spec.backing[i].name == svc.connections[c].target && !IsServiceEdge(spec, svc.connections[c].target) &&
      Provisions(full, spec.backing[i]) ==>
        exists j | 0 <= j < |spec.backing| ::
          spec.backing[j].name == svc.connections[c].target && Provisions(known, spec.backing[j])
  }

  /** The gate lets a service through with all its backings ready if and only if the
      catalog the pass had loaded covers the service's connections. */
  lemma GateHoldsExactly(cfg: Config, cat: Catalog, full: set<string>, s: Store, sk: Key, st: Object, svc: ServiceSpec)
    requires st.Stack? && ProvisionAll(cfg, cat, s, sk, st, |st.spec.backing|).result.Ok?
    requires var backings := ProvisionAll(cfg, cat, s, sk, st, |st.spec.backing|).result.value.backings;
             !Resolve(cfg, Urls(sk, st.spec, |st.spec.services|), backings, svc, |svc.connections|).wait
    ensures var backings := ProvisionAll(cfg, cat, s, sk, st, |st.spec.backing|).result.value.backings;
            ReadyUnder(full, st.spec, backings, svc) <==> Covers(cat.Keys, full, st.spec, svc)
  {
    hide ProvisionAll, Resolve, Provisions, Urls, Exposed, IsServiceEdge;
    var n := |st.spec.backing|;
    var backings := ProvisionAll(cfg, cat, s, sk, st, n).result.value.backings;
    var urls := Urls(sk, st.spec, |st.spec.services|);
    WaitsForBacking(cfg, urls, backings, svc, |svc.connections|);
    forall c | 0 <= c < |svc.connections|
      ensures var target := svc.connections[c].target;
              (target in urls <==> IsServiceEdge(st.spec, target)) &&
              (target in backings <==>
                 exists i | 0 <= i < n ::
                   st.spec.backing[i].name == target && Provisions(cat.Keys, st.spec.backing[i])) &&
              (target !in urls && target in backings ==> backings[target].ready)
    {
      var target := svc.connections[c].target;
      UrlEdge(sk, st.spec, target);
      LedgerHas(cfg, cat, s, sk, st, n, target);
      assert !Blocks(urls, backings, target);
    }
  }

  lemma UrlEdge(sk: Key, spec: StackSpec, target: string)
    ensures target in Urls(sk, spec, |spec.services|) <==> IsServiceEdge(spec, target)
  {
    UrlsAreServiceEdges(sk, spec, |spec.services|, target);
  }

  /** A read that was answered gives a catalog that covers whatever its answer
      described, so the gate holds under it. */
  lemma AnsweredReadHolds(cfg: Config, cat: Catalog, data: map<string, string>, spec: StackSpec, svc: ServiceSpec)
    requires IsOverlay(cfg, data, cat)
    ensures Covers(cat.Keys, cfg.builtins.Keys + Described(cfg, data), spec, svc)
  {
    OverlayKeys(cfg, data, cat);
  }

  /** A connection of the service leads to a name all of whose backings only the
      ConfigMap describes. */
  predicate LeansOnConfigMap(cfg: Config, data: map<string, string>, spec: StackSpec, svc: ServiceSpec) {
    exists c, i | 0 <= c < |svc.connections| && 0 <= i < |spec.backing| ::
      spec.backing[i].name == svc.connections[c].target && !IsServiceEdge(spec, svc.connections[c].target) &&
      Lower(spec.backing[i].kind) in Described(cfg, data) &&
      forall j | 0 <= j < |spec.backing| && spec.backing[j].name == svc.connections[c].target ::
        !Provisions(cfg.builtins.Keys, spec.backing[j])
  }

  /** When the read fails, a service let through has every backing that a catalog
      with the ConfigMap would provision ready, if and only if no connection leans on
      the ConfigMap alone. */
  lemma FailedReadGate(cfg: Config, cat: Catalog, data: map<string, string>, s: Store, sk: Key, st: Object,
        svc: ServiceSpec)
    requires st.Stack? && cat.Keys == cfg.builtins.Keys &&
             ProvisionAll(cfg, cat, s, sk, st, |st.spec.backing|).result.Ok?
    requires var backings := ProvisionAll(cfg, cat, s, sk, st, |st.spec.backing|).result.value.backings;
             !Resolve(cfg, Urls(sk, st.spec, |st.spec.services|), backings, svc, |svc.connections|).wait
    ensures var backings := ProvisionAll(cfg, cat, s, sk, st, |st.spec.backing|).result.value.backings;
            ReadyUnder(cfg.builtins.Keys + Described(cfg, data), st.spec, backings, svc) <==>
            !LeansOnConfigMap(cfg, data, st.spec, svc)
  {
    hide ProvisionAll, Resolve, Urls, Lower, IsServiceEdge, Described, ReadyUnder;
    GateHoldsExactly(cfg, cat, cfg.builtins.Keys + Described(cfg, data), s, sk, st, svc);
  }

  /** In every run: a Deployment was written when some backing of each name its
      service connects to was ready, and is bound in its env, of the names that the
      catalog its pass had loaded provisions. */
  lemma RolloutReady(cfg: Config, stores: seq<Store>, events: seq<Event>, n: nat, k: Key, c: nat, i: nat)
    returns (w: nat, why: Reason, j: nat)
    requires IsRun(cfg, stores, events) && n < |stores|
    requires k.kind == DeploymentKind && k in stores[n].objs && OwnerOf(stores[n].objs[k].obj) != None
    ensures w < n && Gated(cfg, stores, k, stores[n].objs[k].obj, w, why) && ReadIn(stores, why.passage.read)
    ensures var spec := StackAt(stores, why.version, why.stack).spec; var svc := spec.services[why.service];
            var g := why.passage; var data := DataRead(cfg, stores, g.read);
            c < |svc.connections| && i < |spec.backing| && spec.backing[i].name == svc.connections[c].target &&
            !IsServiceEdge(spec, svc.connections[c].target) && Provisions(Known(cfg, data), spec.backing[i]) ==>
              j < |spec.backing| && spec.backing[j].name == svc.connections[c].target && g.seen[c] <= w &&
              BackingReady(stores[g.seen[c]], why.stack.ns, why.stack.name, spec.backing[j]) &&
              (svc.connections[c].alias != "" ==>
                 Binds(cfg, data, g.env, why.stack, spec.backing[j], svc.connections[c].alias))
  {
    hide IsStep, IsServiceEdge, Provisions, BackingReady, Binds, Known, DeploymentFits, EnvFits, DataRead, IsEdgeVar;
    w, why := RolloutGated(cfg, stores, events, n, k);
    j := 0;
    var spec := StackAt(stores, why.version, why.stack).spec;
    var svc, g := spec.services[why.service], why.passage;
    DataStays(cfg, stores[..w + 1], stores, g.read);
    var data := DataRead(cfg, stores, g.read);
    if c < |svc.connections| && i < |spec.backing| && spec.backing[i].name == svc.connections[c].target &&
      !IsServiceEdge(spec, svc.connections[c].target) && Provisions(Known(cfg, data), spec.backing[i])
    {
      assert ConnectionMet(cfg, data, stores[..w + 1], why.stack, spec, svc.connections[c], g.seen[c], g.env);
      j :| 0 <= j < |spec.backing| && spec.backing[j].name == svc.connections[c].target &&
        BackingReady(stores[..w + 1][g.seen[c]], why.stack.ns, why.stack.name, spec.backing[j]) &&
        (svc.connections[c].alias != "" ==>
           Binds(cfg, data, g.env, why.stack, spec.backing[j], svc.connections[c].alias));
    }
  }

  // -------------------------------------------------------------------- a failing input

  const SK := Key(StackKind, "proj-shop-dev", "dev")

  const QUEUE := ServiceDefinition("queue", [], "queue:1", "", 4222, "", [], [], false, map[], None, map[], "url",
                                   map[])

  const WEB := ServiceSpec("web", "shop:1", [ProcessSpec("http", "", 8080, 1)], [], "",
                           [ConnectionSpec("q", "QUEUE_URL")])

  const SHOP := Stack(1, "", "", StackSpec([WEB], [BackingSpec("q", "queue", "", "", "", 0, false)]), EMPTY_STATUS)

  const DEPLOYED := DeploymentKey("proj-shop-dev", "dev-web-http")

  /** The process runs already, from an earlier version; the queue does not. */
  function Shop(cfg: Config): Store {
    Store(map[
      SK := Entry(1, 1, false, SHOP),
      ConfigMapKey(cfg.systemNs, OVERLAY_NAME) := Entry(2, 2, false, ConfigMap(map["queue.yaml" := "doc"])),
      DEPLOYED := Entry(3, 3, false, Deployment(Some("dev"), ProcessLabels("dev", "web", "http"), 2,
        Container("http", "shop:0", [], [], [], 8080, None), 1))], 3)
  }

  lemma ShopNames()
    ensures ProcessName("dev", "web", "http") == "dev-web-http" && BackingName("dev", "q") == "dev-q"
    ensures Lower("queue") == "queue" && !IsPostgres("queue") && !IsObjectStore("queue")
  {
    assert Lower("queue")[0] == 'q';
    assert "postgres"[0] == 'p' && "postgresql"[0] == 'p' && "object"[0] == 'o' && "s3"[0] == 's';
  }

  /** The ConfigMap describes the queue, which is not there. */
  lemma QueueIsWanted(cfg: Config)
    requires "queue" !in cfg.builtins && cfg.parse("doc") == Some(QUEUE)
    ensures "queue" in Described(cfg, OverlayData(cfg, Shop(cfg)))
    ensures LeansOnConfigMap(cfg, OverlayData(cfg, Shop(cfg)), SHOP.spec, WEB)
  {
    hide Lower;
    ShopNames();
    var data := OverlayData(cfg, Shop(cfg));
    assert data == map["queue.yaml" := "doc"];
    assert "queue.yaml" in data && Lower(QUEUE.kind) in NamesUpTo(QUEUE, 0);
    assert SHOP.spec.backing[0].name == WEB.connections[0].target;
  }

  lemma QueueIsSkipped(cfg: Config)
    requires "queue" !in cfg.builtins
    ensures ProvisionAll(cfg, cfg.builtins, Shop(cfg), SK, SHOP, 1) == Outcome(Shop(cfg), Ok(Ledger(map[], false)))
  {
    hide Lower;
    ShopNames();
    assert ProvisionAll(cfg, cfg.builtins, Shop(cfg), SK, SHOP, 0) == Outcome(Shop(cfg), Ok(Ledger(map[], false)));
    assert ProvisionQ(cfg, cfg.builtins, Shop(cfg), SK, SHOP, SHOP.spec.backing[0]) == Outcome(Shop(cfg), Ok(None));
  }

  lemma WebGoesOut(cfg: Config)
    ensures Resolve(cfg, Urls(SK, SHOP.spec, 1), map[], WEB, 1) == Resolved([], false)
  {
    assert Resolve(cfg, Urls(SK, SHOP.spec, 1), map[], WEB, 0) == Resolved([], false);
    assert FirstPort(WEB, 0) == Some(WEB.processes[0]);
    assert Urls(SK, SHOP.spec, 0) == map[];
    assert "q" !in Urls(SK, SHOP.spec, 1);
  }

  function Shipped(cfg: Config): Store {
    Put(Shop(cfg), DEPLOYED, Deployment(Some("dev"), ProcessLabels("dev", "web", "http"), 1,
                                        ProcessContainer(cfg, WEB, WEB.processes[0], []), 1))
  }

  function Served(cfg: Config): Store {
    var labels := ProcessLabels("dev", "web", "http");
    Put(Shipped(cfg), ServiceKey(SK.ns, "dev-web-http"), Service(Some("dev"), labels, false, labels, "http", 80, 8080))
  }

  lemma WebDeploys(cfg: Config)
    ensures var dep := Apply(cfg, Shop(cfg), DEPLOYED, ProcessPatch(cfg, SK, WEB, WEB.processes[0], []));
            dep.store == Shipped(cfg) && dep.result.Ok?
  {
    hide ProcessContainer;
    ShopNames();
    assert Find(Shop(cfg), DEPLOYED) == Some(Shop(cfg).objs[DEPLOYED].obj) &&
           Shop(cfg).objs[DEPLOYED].obj.replicas == 2;
  }

  lemma WebRolls(cfg: Config)
    ensures ProcessesQ(cfg, Shop(cfg), SK, WEB, [], 1) == Outcome(Served(cfg), Ok(()))
  {
    hide ProcessPatch, Shop, Mutate;
    ShopNames();
    WebDeploys(cfg);
    var p := WEB.processes[0];
    assert ProcessesQ(cfg, Shop(cfg), SK, WEB, [], 0) == Outcome(Shop(cfg), Ok(()));
    WebServes(cfg);
    assert ProcessQ(cfg, Shop(cfg), SK, WEB, p, []) == Outcome(Served(cfg), Ok(()));
  }

  lemma WebServes(cfg: Config)
    ensures var made := Apply(cfg, Shipped(cfg), ServiceKey(SK.ns, "dev-web-http"),
                              ServicePatch(SK, WEB, WEB.processes[0]));
            made.store == Served(cfg) && made.result.Ok?
  {
    assert Find(Shipped(cfg), ServiceKey(SK.ns, "dev-web-http")) == None;
  }

  lemma ServedIs(cfg: Config)
    ensures SK in Served(cfg).objs && Served(cfg).objs[SK] == Shop(cfg).objs[SK]
    ensures Listed(Served(cfg), SK.ns, SK.name) == {DEPLOYED} && DeploymentReady(Served(cfg), DEPLOYED)
    ensures forall k | k in Served(cfg).objs :: k.kind != StatefulSetKind
    ensures DeploymentFits(cfg, Served(cfg).objs[DEPLOYED].obj, SK.name, WEB, WEB.processes[0], [])
  {
    hide ProcessContainer, DeploymentFits;
    assert forall k :: ListedIn(Served(cfg), SK.ns, SK.name, k) <==> k == DEPLOYED;
    WebFits(cfg);
  }

  lemma WebFits(cfg: Config)
    ensures DeploymentFits(cfg, Shipped(cfg).objs[DEPLOYED].obj, SK.name, WEB, WEB.processes[0], [])
  {
    hide Number;
  }

  lemma WebIsServed(cfg: Config)
    ensures ServicesQ(cfg, Shop(cfg), SK, SHOP, map[], 1) == Outcome(Served(cfg), Ok([RolledOut]))
  {
    hide ProcessesQ, Resolve, Shop, Urls, Served;
    WebRolls(cfg);
    WebGoesOut(cfg);
    assert ServicesQ(cfg, Shop(cfg), SK, SHOP, map[], 0) == Outcome(Shop(cfg), Ok([]));
    assert ServiceQ(cfg, Shop(cfg), SK, SHOP, WEB, Urls(SK, SHOP.spec, 1), map[]) ==
           Outcome(Served(cfg), Ok(RolledOut));
    assert [] + [RolledOut] == [RolledOut];
  }

  lemma RunningWithout(cfg: Config) returns (t: Store)
    ensures UpdateStatusQ(Served(cfg), SK, Shop(cfg).objs[SK], FlagsOf([RolledOut]), false) == Outcome(t, Ok(false))
    ensures SK in t.objs && t.objs[SK].obj.Stack? && t.objs[SK].obj.status.phase == Running
    ensures t.objs.Keys == Served(cfg).objs.Keys && t.objs[DEPLOYED] == Served(cfg).objs[DEPLOYED]
  {
    hide Listed, DeploymentReady, Served, ProcessContainer;
    ServedIs(cfg);
    var flags := FlagsOf([RolledOut]);
    AllReadyCounts(Served(cfg), SK.ns, SK.name);
    var status := Reconcilers.Assessed(Served(cfg), SK, SHOP, flags).status;
    assert status.phase == Running;
    t := Put(Served(cfg), SK, SHOP.(status := status));
    assert SK.kind != DEPLOYED.kind;
    assert t.objs.Keys == Served(cfg).objs.Keys;
  }

  lemma QueueIsAbsent(s: Store)
    requires forall k | k in s.objs :: k.kind != StatefulSetKind
    ensures !BackingReady(s, SK.ns, SK.name, SHOP.spec.backing[0])
  {
    hide Lower;
    ShopNames();
  }

  lemma NothingOverlaid(cfg: Config, stores: seq<Store>)
    ensures LoadedAt(cfg, stores, None, cfg.builtins)
  {
    var none: seq<string> := [];
    assert IsDocOrder(none, map[]) && RegisteredAll(cfg.builtins, Parsed(cfg, Documents(none, map[]))) == cfg.builtins;
  }

  /** A pass whose read of the ConfigMap failed rolls the service out without the
      queue and without its binding, calls the Stack Running and does not requeue. */
  lemma FailedReadOpensGate(cfg: Config, stores: seq<Store>) returns (t: Store)
    requires "queue" !in cfg.builtins && cfg.parse("doc") == Some(QUEUE)
    ensures LeansOnConfigMap(cfg, OverlayData(cfg, Shop(cfg)), SHOP.spec, WEB)
    ensures LoadedAt(cfg, stores, None, cfg.builtins) &&
            ReconcileQ(cfg, cfg.builtins, Shop(cfg), SK) == Outcome(t, Ok(false))
    ensures SK in t.objs && t.objs[SK].obj.Stack? && t.objs[SK].obj.status.phase == Running
    ensures DEPLOYED in t.objs && DeploymentFits(cfg, t.objs[DEPLOYED].obj, SK.name, WEB, WEB.processes[0], [])
    ensures !BackingReady(t, SK.ns, SK.name, SHOP.spec.backing[0])
  {
    hide ServicesQ, ProvisionAll, UpdateStatusQ, Listed, Lower, Served, BackingReady, ProcessContainer,
         LoadedAt, LeansOnConfigMap;
    QueueIsWanted(cfg);
    WebIsServed(cfg);
    ServedIs(cfg);
    QueueIsSkipped(cfg);
    NothingOverlaid(cfg, stores);
    t := RunningWithout(cfg);
    assert !WantsSchedule(SHOP);
    QueueIsAbsent(t);
  }
}
