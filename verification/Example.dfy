/** A Stack with a backing, a connection to it and a release hook, from nothing to
    up. The backing is an image fallback, or of any descriptor that renders. */
module Example {
  import opened Objects
  import opened Clusters
  import opened SettlingTiers
  import opened Passes
  import opened PlainNames
  import opened Convergence
  import opened Liveness

  const SK := Key(StackKind, "proj-shop-dev", "dev")

  const WEB := ServiceSpec("web", "shop:1", [ProcessSpec("http", "", 8080, 1)], [], "migrate",
                           [ConnectionSpec("q", "QUEUE_URL")])

  const SHOP := Stack(1, "", "", StackSpec([WEB], [BackingSpec("q", "queue", "", "", "queue:1", 4222, false)]),
                      EMPTY_STATUS)

  const START := Store(map[SK := Entry(1, 1, false, SHOP)], 1)

  const QUEUE := SHOP.spec.backing[0]

  lemma ShopIsPlain(cfg: Config, cat: Catalog)
    requires Renderable(cfg, cat, SK, QUEUE) && SafeDef(cat, QUEUE)
    ensures Workable(cfg, cat, SK, SHOP) && Sane(cat, START, SK, SHOP)
  {
    hide Lower, SafeDef, Renderable, PassKeys, ChildrenApart;
    PlainNamesApart(cat, SK, SHOP);
  }

  lemma QueueIsASet()
    ensures !IsPostgres("queue") && !IsObjectStore("queue")
  {
    assert Lower("queue")[0] == 'q';
    assert "postgres"[0] == 'p' && "postgresql"[0] == 'p' && "object"[0] == 'o' && "s3"[0] == 's';
  }

  /** Passes and engines in turn bring the Stack up in at most eleven rounds, in
      which the gate of its StatefulSet and that of its hook, shut at first, are
      opened. */
  lemma ShopComesUp(cfg: Config, cat: Catalog) returns (es: seq<Store>, us: seq<Store>)
    requires Renderable(cfg, cat, SK, QUEUE) && SafeDef(cat, QUEUE)
    ensures Rounds(cfg, cat, es, us, SK, SHOP) && 0 < |es| <= 11 && es[0] == START && Up(cfg, cat, us[|us| - 1], SK)
    ensures !Met(START, SK, SHOP, SetGate(0)) && !Met(START, SK, SHOP, HookGate(0))
    ensures Met(us[|us| - 1], SK, SHOP, SetGate(0)) && Met(us[|us| - 1], SK, SHOP, HookGate(0))
  {
    hide Renderable, SafeDef, Workable, Sane, Rounds, Up, Lower;
    ShopIsPlain(cfg, cat);
    es, us := ComesUp(cfg, cat, START, SK, SHOP);
    LastPass(cfg, cat, es, us);
    var u := us[|us| - 1];
    UpServes(cfg, cat, u, SK, 0, 0);
    QueueIsASet();
    assert !IsServiceEdge(SHOP.spec, "q");
    var st := u.objs[SK].obj;
    assert st.spec.backing[0].name == st.spec.services[0].connections[0].target;
  }

  lemma LastPass(cfg: Config, cat: Catalog, es: seq<Store>, us: seq<Store>)
    requires Rounds(cfg, cat, es, us, SK, SHOP) && 0 < |es|
    ensures |us| == |es|
    ensures var u := us[|us| - 1]; Typed(u) && SK in u.objs && SameStack(SHOP, u.objs[SK].obj)
  {
    hide Pass;
    assert Pass(cfg, cat, es[|es| - 1], us[|us| - 1], SK, SHOP);
    PassKeepsStack(cfg, cat, es[|es| - 1], us[|us| - 1], SK, SHOP);
  }
}
