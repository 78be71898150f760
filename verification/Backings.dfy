/** reconcileBacking (stack_controller.go): provision every backing by its tier
    and learn how to bind connections to it. */
module Backings {
  import opened Wrappers
  import opened Names
  import opened Objects
  import opened Shapes
  import opened Clusters
  import opened Api
  import opened Snapshots
  import opened Volumes
  import opened Bindings
  import opened Catalogs
  import opened Tiers

  // ---------------------------------------------------------------- the catalog

  /** The documents that parse, in the order they were met; a malformed one is
      skipped. */
  function Parsed(cfg: Config, docs: seq<string>): seq<ServiceDefinition> {
    if docs == [] then []
    else
      var defs := Parsed(cfg, docs[..|docs| - 1]);
      var def := cfg.parse(docs[|docs| - 1]);
      if def.Some? then defs + [def.value] else defs
  }

  ghost predicate IsDocOrder(names: seq<string>, data: map<string, string>) {
    (forall i, j | 0 <= i < j < |names| :: names[i] != names[j]) && forall n :: n in names <==> n in data
  }

  function Documents(names: seq<string>, data: map<string, string>): seq<string>
    requires forall n | n in names :: n in data
  {
    seq(|names|, i requires 0 <= i < |names| => data[names[i]])
  }

  /** The builtin catalog overlaid with the ConfigMap, in some map order. */
  ghost predicate IsOverlay(cfg: Config, data: map<string, string>, cat: Catalog) {
    exists names: seq<string> ::
      IsDocOrder(names, data) && cat == RegisteredAll(cfg.builtins, Parsed(cfg, Documents(names, data)))
  }

  lemma {:induction false} RegisteredKeys(cat: Catalog, defs: seq<ServiceDefinition>, k: string)
    ensures k in RegisteredAll(cat, defs) <==> k in cat || exists i | 0 <= i < |defs| :: Claims(defs[i], k)
  {
    hide NamesUpTo;
    if defs != [] {
      RegisteredKeys(cat, defs[..|defs| - 1], k);
    }
  }

  lemma {:induction false} ParsedMembers(cfg: Config, docs: seq<string>, d: ServiceDefinition)
    ensures d in Parsed(cfg, docs) <==> exists i | 0 <= i < |docs| :: cfg.parse(docs[i]) == Some(d)
  {
    if docs != [] {
      ParsedMembers(cfg, docs[..|docs| - 1], d);
    }
  }

  /** Whatever the map order, the types of an overlay are the builtins' and those
      the documents describe. */
  lemma OverlayKeys(cfg: Config, data: map<string, string>, cat: Catalog)
    requires IsOverlay(cfg, data, cat)
    ensures cat.Keys == Known(cfg, data)
  {
    hide NamesUpTo, RegisteredAll, Parsed;
    var names :| IsDocOrder(names, data) && cat == RegisteredAll(cfg.builtins, Parsed(cfg, Documents(names, data)));
    var docs := Documents(names, data);
    var defs := Parsed(cfg, docs);
    forall k ensures k in cat <==> k in Known(cfg, data) {
      RegisteredKeys(cfg.builtins, defs, k);
      if i :| 0 <= i < |defs| && Claims(defs[i], k) {
        ParsedMembers(cfg, docs, defs[i]);
        var j :| 0 <= j < |docs| && cfg.parse(docs[j]) == Some(defs[i]);
        assert names[j] in names;
      }
      if n :| n in data && cfg.parse(data[n]).Some? && Claims(cfg.parse(data[n]).value, k) {
        assert n in names;
        var j :| 0 <= j < |names| && names[j] == n;
        assert docs[j] == data[n];
        ParsedMembers(cfg, docs, cfg.parse(data[n]).value);
      }
    }
  }

  /** The catalog is what one read of the ConfigMap makes of the builtins; of a
      read that failed, nothing. */
  ghost predicate LoadedAt(cfg: Config, stores: seq<Store>, read: Option<nat>, cat: Catalog) {
    ReadIn(stores, read) && IsOverlay(cfg, DataRead(cfg, stores, read), cat)
  }

  /** catalog(): a ConfigMap that cannot be read is as good as none. */
  method LoadCatalog(c: ApiServer, builtins: ServiceCatalog) returns (cat: Catalog, ghost read: Option<nat>)
    requires c.Valid() && builtins.Valid() && builtins.View() == c.cfg.builtins
    modifies c`stores, c`events
    ensures c.Valid() && old(c.stores) <= c.stores && old(c.events) <= c.events
    ensures LoadedAt(c.cfg, c.stores, read, cat)
    ensures c.quiet ==> c.Now() == old(c.Now()) && read == Some(|c.stores| - 1)
  {
    hide IsStep, IsOverlay, Described;
    var cm, at := c.Get(ConfigMapKey(c.cfg.systemNs, OVERLAY_NAME));
    var data := if cm.Found? then cm.entry.obj.data else map[];
    var merged := MergeCatalog(c.cfg, builtins, data);
    cat := merged.View();
    read := if cm.Failed? then None else Some(at);
  }

  method MergeCatalog(cfg: Config, builtins: ServiceCatalog, data: map<string, string>) returns (merged: ServiceCatalog)
    requires builtins.Valid() && builtins.View() == cfg.builtins
    ensures merged.Valid() && fresh(merged)
    ensures IsOverlay(cfg, data, merged.View())
  {
    hide Registered, Overlaid, Pointers, Dereferenced;
    merged := new ServiceCatalog.Copy(builtins);
    var rest := data.Keys;
    ghost var names: seq<string> := [];
    while rest != {}
      invariant rest <= data.Keys && merged.Valid() && fresh(merged)
      invariant forall i, j | 0 <= i < j < |names| :: names[i] != names[j]
      invariant forall n :: n in names <==> n in data && n !in rest
      invariant merged.View() == RegisteredAll(cfg.builtins, Parsed(cfg, Documents(names, data)))
      decreases |rest|
    {
      var n :| n in rest;
      rest := rest - {n};
      var def := cfg.parse(data[n]);
      ghost var before := Documents(names, data);
      if def.Some? {
        merged.Register(def.value);
      }
      ParsedMore(cfg, before, data[n]);
      names := names + [n];
      assert Documents(names, data) == before + [data[n]];
    }
    assert IsDocOrder(names, data);
  }

  lemma OverlayExists(cfg: Config, data: map<string, string>)
    ensures exists cat :: IsOverlay(cfg, data, cat)
  {
    var names := NamesOf(data.Keys);
    assert IsDocOrder(names, data);
    assert IsOverlay(cfg, data, RegisteredAll(cfg.builtins, Parsed(cfg, Documents(names, data))));
  }

  lemma NamesOf(keys: set<string>) returns (names: seq<string>)
    ensures forall i, j | 0 <= i < j < |names| :: names[i] != names[j]
    ensures forall n :: n in names <==> n in keys
  {
    names := [];
    if keys != {} {
      var k :| k in keys;
      names := NamesOf(keys - {k});
      names := names + [k];
    }
  }

  lemma ParsedMore(cfg: Config, docs: seq<string>, doc: string)
    ensures Parsed(cfg, docs + [doc]) ==
            (if cfg.parse(doc).Some? then Parsed(cfg, docs) + [cfg.parse(doc).value] else Parsed(cfg, docs))
    ensures RegisteredAll(cfg.builtins, Parsed(cfg, docs + [doc])) ==
            (if cfg.parse(doc).Some? then
               Registered(RegisteredAll(cfg.builtins, Parsed(cfg, docs)), cfg.parse(doc).value)
             else RegisteredAll(cfg.builtins, Parsed(cfg, docs)))
  {
    assert (docs + [doc])[..|docs|] == docs;
    var defs := Parsed(cfg, docs);
    if cfg.parse(doc).Some? {
      assert (defs + [cfg.parse(doc).value])[..|defs|] == defs;
    }
  }

  // ------------------------------------------------------------- one backing, all

  datatype Placed = Placed(got: Provisioned, binding: Binding)

  /** Nothing about a backing is left for a later pass to create: its objects were seen
      as it asks, provisioned as the catalog has it. */
  predicate InPlace(cfg: Config, data: map<string, string>, stores: seq<Store>, sk: Key, st: Object, b: BackingSpec,
        p: Place)
    requires st.Stack?
  {
    if IsPostgres(b.kind) then PostgresSeen(stores, sk, st, b, p)
    else if IsObjectStore(b.kind) then
      Exists(stores, p.at, BucketKey(sk.ns, NameOf(sk, b))) &&
      ClaimFits(cfg, stores[p.at].objs[BucketKey(sk.ns, NameOf(sk, b))].obj, sk.name, NameOf(sk, b))
    else p.from in Origins(cfg, data, b) && SetSeen(cfg, stores, sk, b, p)
  }

  function OriginOf(binding: Binding): Origin {
    match binding
    case TemplateBinding(def, _) => Descriptor(def)
    case FallbackBinding(_) => Image
    case _ => Operator
  }

  /** The binding names what the tier of the backing makes. */
  predicate BindingFits(cfg: Config, data: map<string, string>, sk: Key, b: BackingSpec, binding: Binding) {
    OriginOf(binding) in Origins(cfg, data, b) &&
    if IsPostgres(b.kind) then binding == PostgresBinding(AppSecretName(NameOf(sk, b)))
    else if IsObjectStore(b.kind) then binding == ObjectBinding(NameOf(sk, b))
    else (binding.TemplateBinding? || binding.FallbackBinding?) && binding.secret == NameOf(sk, b)
  }

  /** A catalog has for a backing's type what the documents it was loaded from, or the
      builtins, have for it. */
  lemma LookupOrigin(cfg: Config, data: map<string, string>, cat: Catalog, b: BackingSpec)
    requires IsOverlay(cfg, data, cat)
    ensures IsPostgres(b.kind) || IsObjectStore(b.kind) ==> Origins(cfg, data, b) == {Operator}
    ensures !IsPostgres(b.kind) && !IsObjectStore(b.kind) && Lookup(cat, b.kind).Some? ==>
              Descriptor(Lookup(cat, b.kind).value) in Origins(cfg, data, b)
    ensures !IsPostgres(b.kind) && !IsObjectStore(b.kind) && Lookup(cat, b.kind).None? && b.image != "" ==>
              Origins(cfg, data, b) == {Image}
  {
    hide Lower, RegisteredAll, Parsed, LastClaimant, NamesUpTo;
    var names :| IsDocOrder(names, data) && cat == RegisteredAll(cfg.builtins, Parsed(cfg, Documents(names, data)));
    var docs := Documents(names, data);
    var key, defs := Lower(b.kind), Parsed(cfg, docs);
    OverlayKeys(cfg, data, cat);
    LastClaimantWins(cfg.builtins, defs, key);
    var last := LastClaimant(defs, key);
    if last.Some? {
      LastClaimantClaims(defs, key);
      ParsedMembers(cfg, docs, last.value);
      var j :| 0 <= j < |docs| && cfg.parse(docs[j]) == last;
      assert names[j] in names && names[j] in data;
    } else if key in Described(cfg, data) {
      var n :| n in data && cfg.parse(data[n]).Some? && Claims(cfg.parse(data[n]).value, key);
      assert n in names;
      var j :| 0 <= j < |names| && names[j] == n;
      assert docs[j] == data[n];
      ParsedMembers(cfg, docs, cfg.parse(data[n]).value);
      NoClaimant(defs, key, cfg.parse(data[n]).value);
    }
  }

  lemma {:induction false} LastClaimantClaims(defs: seq<ServiceDefinition>, key: string)
    requires LastClaimant(defs, key).Some?
    ensures LastClaimant(defs, key).value in defs && Claims(LastClaimant(defs, key).value, key)
  {
    if !Claims(defs[|defs| - 1], key) {
      LastClaimantClaims(defs[..|defs| - 1], key);
    }
  }

  lemma {:induction false} NoClaimant(defs: seq<ServiceDefinition>, key: string, d: ServiceDefinition)
    requires LastClaimant(defs, key).None? && d in defs
    ensures !Claims(d, key)
  {
    if d != defs[|defs| - 1] {
      NoClaimant(defs[..|defs| - 1], key, d);
    }
  }

  /** What a pass loaded it still has loaded. */
  lemma DataStays(cfg: Config, stores: seq<Store>, stores': seq<Store>, read: Option<nat>)
    requires stores <= stores' && ReadIn(stores, read)
    ensures ReadIn(stores', read) && DataRead(cfg, stores', read) == DataRead(cfg, stores, read)
  {
    hide OverlayData;
  }

  /** The switch of reconcileBacking; None when the type is neither cataloged nor
      given an image. */
  method ProvisionOne(c: ApiServer, sk: Key, st: Object, bi: nat, cat: Catalog, ghost v: nat, ghost read: Option<nat>)
    returns (r: Result<Option<Placed>>, ghost p: Place)
    requires Reads(c, sk, st, v) && bi < |st.spec.backing| && LoadedAt(c.cfg, c.stores, read, cat)
    modifies c`stores, c`events
    ensures c.Valid() && old(c.stores) <= c.stores && old(c.events) <= c.events
    ensures ReadIn(c.stores, read) && DataRead(c.cfg, c.stores, read) == DataRead(c.cfg, old(c.stores), read)
    ensures r.Ok? ==> (r.value.Some? <==> Provisions(Known(c.cfg, DataRead(c.cfg, c.stores, read)), BackingAt(st, bi)))
    ensures r.Ok? && r.value.Some? ==>
              BindingFits(c.cfg, DataRead(c.cfg, c.stores, read), sk, BackingAt(st, bi), r.value.value.binding)
    ensures r.Ok? && r.value.Some? && r.value.value.got.ready ==>
              p.at < |c.stores| && BackingReady(c.stores[p.at], sk.ns, sk.name, BackingAt(st, bi))
    ensures r.Ok? && r.value.Some? && !r.value.value.got.pending ==>
              InPlace(c.cfg, DataRead(c.cfg, c.stores, read), c.stores, sk, st, BackingAt(st, bi), p)
    ensures c.quiet ==> Outcome(c.Now(), r) == ProvisionQ(c.cfg, cat, old(c.Now()), sk, st, BackingAt(st, bi))
  {
    hide IsStep, PostgresQ, ObjectQ, TemplatedQ, FallbackQ, SetReady, ClusterReady, BucketBound, Lower,
         IsOverlay, Origins, DataRead, Known, PostgresSeen, SetSeen, EndpointSeen, ClaimFits;
    p := NO_PLACE;
    var b := BackingAt(st, bi);
    ghost var data := DataRead(c.cfg, c.stores, read);
    LookupOrigin(c.cfg, data, cat, b);
    OverlayKeys(c.cfg, data, cat);
    if IsPostgres(b.kind) {
      var got;
      got, p := ReconcilePostgres(c, sk, st, bi, v);
      r := if got.Err? then Err(got.why) else Ok(Some(Placed(got.value, PostgresBinding(got.value.secret))));
    } else if IsObjectStore(b.kind) {
      var got;
      ghost var at, named;
      got, at, named := ReconcileObject(c, sk, b);
      p := p.(at := at);
      r := if got.Err? then Err(got.why) else Ok(Some(Placed(got.value, ObjectBinding(got.value.secret))));
    } else if Lookup(cat, b.kind).Some? {
      var def := Lookup(cat, b.kind).value;
      var got;
      got, p := ReconcileTemplated(c, sk, st, bi, def, v, read);
      r := if got.Err? then Err(got.why) else Ok(Some(Placed(got.value, TemplateBinding(def, got.value.secret))));
    } else if b.image != "" {
      var got;
      got, p := ReconcileFallback(c, sk, st, bi, v, read);
      r := if got.Err? then Err(got.why) else Ok(Some(Placed(got.value, FallbackBinding(got.value.secret))));
    } else {
      r := Ok(None);
    }
    DataStays(c.cfg, old(c.stores), c.stores, read);
  }

  ghost function ProvisionQ(cfg: Config, cat: Catalog, s: Store, sk: Key, st: Object,
        b: BackingSpec): Outcome<Option<Placed>>
    requires st.Stack?
  {
    if IsPostgres(b.kind) then
      var p := PostgresQ(cfg, s, sk, st, b);
      Outcome(p.store, if p.result.Err? then Err(p.result.why)
                       else Ok(Some(Placed(p.result.value, PostgresBinding(p.result.value.secret)))))
    else if IsObjectStore(b.kind) then
      var p := ObjectQ(cfg, s, sk, b);
      Outcome(p.store, if p.result.Err? then Err(p.result.why)
                       else Ok(Some(Placed(p.result.value, ObjectBinding(p.result.value.secret)))))
    else if Lookup(cat, b.kind).Some? then
      var def := Lookup(cat, b.kind).value;
      var p := TemplatedQ(cfg, s, sk, st, b, def);
      Outcome(p.store, if p.result.Err? then Err(p.result.why)
                       else Ok(Some(Placed(p.result.value, TemplateBinding(def, p.result.value.secret)))))
    else if b.image != "" then
      var p := FallbackQ(cfg, s, sk, st, b);
      Outcome(p.store, if p.result.Err? then Err(p.result.why)
                       else Ok(Some(Placed(p.result.value, FallbackBinding(p.result.value.secret)))))
    else Outcome(s, Ok(None))
  }

  /** What reconcileBacking returns: the map `out` and backupPending. */
  datatype Ledger = Ledger(backings: map<string, Backing>, pending: bool)

  function Recorded(ledger: Ledger, name: string, placed: Option<Placed>): Ledger {
    if placed.None? then ledger
    else Ledger(ledger.backings[name := Backing(placed.value.got.ready, placed.value.binding)],
                ledger.pending || placed.value.got.pending)
  }

  /** Which backing an entry came from, and where it was seen ready. */
  datatype Sight = Sight(index: nat, at: nat)

  predicate Sighted(cfg: Config, data: map<string, string>, stores: seq<Store>, sk: Key, spec: StackSpec, name: string,
        entry: Backing, sight: Sight)
  {
    sight.index < |spec.backing| && spec.backing[sight.index].name == name &&
    BindingFits(cfg, data, sk, spec.backing[sight.index], entry.binding) &&
    (entry.ready ==> sight.at < |stores| && BackingReady(stores[sight.at], sk.ns, sk.name, spec.backing[sight.index]))
  }

  /** After `n` backings: every entry is backed by what was seen, and no backing
      the catalog provisions is missing. */
  ghost predicate LedgerSound(cfg: Config, data: map<string, string>, stores: seq<Store>, sk: Key, spec: StackSpec,
        n: nat, ledger: Ledger, sights: map<string, Sight>)
  {
    (forall name | name in ledger.backings ::
       name in sights && Sighted(cfg, data, stores, sk, spec, name, ledger.backings[name], sights[name])) &&
    forall i | 0 <= i < n && i < |spec.backing| ::
      Provisions(Known(cfg, data), spec.backing[i]) ==> spec.backing[i].name in ledger.backings
  }

  /** Unless the pass is to be repeated, every backing up to `n` is in place. */
  ghost predicate AllInPlace(cfg: Config, data: map<string, string>, stores: seq<Store>, sk: Key, st: Object, n: nat,
        ledger: Ledger, places: seq<Place>)
    requires st.Stack?
  {
    |places| == n <= |st.spec.backing| &&
    (!ledger.pending ==>
       forall i | 0 <= i < n ::
         Provisions(Known(cfg, data), st.spec.backing[i]) ==>
           InPlace(cfg, data, stores, sk, st, st.spec.backing[i], places[i]))
  }

  lemma PlacePersists(cfg: Config, data: map<string, string>, stores: seq<Store>, stores': seq<Store>, sk: Key,
        st: Object, b: BackingSpec, p: Place)
    requires st.Stack? && stores <= stores' && InPlace(cfg, data, stores, sk, st, b, p)
    ensures InPlace(cfg, data, stores', sk, st, b, p)
  {
    hide SetFits, SecretFits, EndpointFits, ClusterFits, ClaimFits, Origins, IsPostgres, IsObjectStore;
  }

  lemma PlacesPersist(cfg: Config, data: map<string, string>, stores: seq<Store>, stores': seq<Store>, sk: Key,
        st: Object, n: nat, ledger: Ledger, places: seq<Place>)
    requires st.Stack? && stores <= stores' && AllInPlace(cfg, data, stores, sk, st, n, ledger, places)
    ensures AllInPlace(cfg, data, stores', sk, st, n, ledger, places)
  {
    hide InPlace, Provisions, Known;
    if !ledger.pending {
      forall i | 0 <= i < n && Provisions(Known(cfg, data), st.spec.backing[i])
        ensures InPlace(cfg, data, stores', sk, st, st.spec.backing[i], places[i])
      {
        PlacePersists(cfg, data, stores, stores', sk, st, st.spec.backing[i], places[i]);
      }
    }
  }

  lemma LedgerGrows(cfg: Config, data: map<string, string>, stores: seq<Store>, stores': seq<Store>, sk: Key,
                    spec: StackSpec, n: nat, ledger: Ledger, sights: map<string, Sight>, placed: Option<Placed>,
                      at: nat)
    requires stores <= stores' && n < |spec.backing| && LedgerSound(cfg, data, stores, sk, spec, n, ledger, sights)
    requires Provisions(Known(cfg, data), spec.backing[n]) ==> placed.Some?
    requires placed.Some? ==> BindingFits(cfg, data, sk, spec.backing[n], placed.value.binding)
    requires placed.Some? && placed.value.got.ready ==>
               at < |stores'| && BackingReady(stores'[at], sk.ns, sk.name, spec.backing[n])
    ensures LedgerSound(cfg, data, stores', sk, spec, n + 1, Recorded(ledger, spec.backing[n].name, placed),
              sights[spec.backing[n].name := if placed.Some? then Sight(n, at)
                                             else GetOr(sights, spec.backing[n].name, Sight(n, at))])
  {
    hide BackingReady, Provisions, BindingFits, Known;
    var name := spec.backing[n].name;
    var ledger' := Recorded(ledger, name, placed);
    var sights' := sights[name := if placed.Some? then Sight(n, at) else GetOr(sights, name, Sight(n, at))];
    forall m | m in ledger'.backings
      ensures m in sights' && Sighted(cfg, data, stores', sk, spec, m, ledger'.backings[m], sights'[m])
    {
      if m != name || placed.None? {
        assert Sighted(cfg, data, stores, sk, spec, m, ledger.backings[m], sights[m]);
      }
    }
  }

  lemma LedgerPersists(cfg: Config, data: map<string, string>, stores: seq<Store>, stores': seq<Store>, sk: Key,
                       spec: StackSpec, n: nat, ledger: Ledger, sights: map<string, Sight>)
    requires stores <= stores' && LedgerSound(cfg, data, stores, sk, spec, n, ledger, sights)
    ensures LedgerSound(cfg, data, stores', sk, spec, n, ledger, sights)
  {
    hide BackingReady, Provisions, BindingFits, Known;
    forall m | m in ledger.backings ensures Sighted(cfg, data, stores', sk, spec, m, ledger.backings[m], sights[m]) {
      assert Sighted(cfg, data, stores, sk, spec, m, ledger.backings[m], sights[m]);
    }
  }

  /** The backings up to `n`, when nothing falls between the calls. */
  ghost function ProvisionAll(cfg: Config, cat: Catalog, s: Store, sk: Key, st: Object, n: nat): Outcome<Ledger>
    requires st.Stack? && n <= |st.spec.backing|
  {
    if n == 0 then Outcome(s, Ok(Ledger(map[], false)))
    else
      var before := ProvisionAll(cfg, cat, s, sk, st, n - 1);
      if before.result.Err? then before
      else
        var b := st.spec.backing[n - 1];
        var one := ProvisionQ(cfg, cat, before.store, sk, st, b);
        Outcome(one.store, if one.result.Err? then Err(one.result.why)
                           else Ok(Recorded(before.result.value, b.name, one.result.value)))
  }

  lemma ProvisionErrStays(cfg: Config, cat: Catalog, s: Store, sk: Key, st: Object, m: nat, n: nat)
    requires st.Stack? && m <= n <= |st.spec.backing| && ProvisionAll(cfg, cat, s, sk, st, m).result.Err?
    ensures ProvisionAll(cfg, cat, s, sk, st, n) == ProvisionAll(cfg, cat, s, sk, st, m)
  {
  }

  lemma ProvisionedIff(cfg: Config, cat: Catalog, s: Store, sk: Key, st: Object, b: BackingSpec)
    requires st.Stack? && ProvisionQ(cfg, cat, s, sk, st, b).result.Ok?
    ensures ProvisionQ(cfg, cat, s, sk, st, b).result.value.Some? <==> Provisions(cat.Keys, b)
  {
    hide Lower, PostgresQ, ObjectQ, TemplatedQ, FallbackQ;
  }

  /** The map reconcileBacking returns has the backings the catalog provisions. */
  lemma {:induction false} LedgerHas(cfg: Config, cat: Catalog, s: Store, sk: Key, st: Object, n: nat, name: string)
    requires st.Stack? && n <= |st.spec.backing| && ProvisionAll(cfg, cat, s, sk, st, n).result.Ok?
    ensures name in ProvisionAll(cfg, cat, s, sk, st, n).result.value.backings <==>
            exists i | 0 <= i < n :: st.spec.backing[i].name == name && Provisions(cat.Keys, st.spec.backing[i])
  {
    hide ProvisionQ, Provisions;
    if n > 0 {
      LedgerHas(cfg, cat, s, sk, st, n - 1, name);
      ProvisionedIff(cfg, cat, ProvisionAll(cfg, cat, s, sk, st, n - 1).store, sk, st, st.spec.backing[n - 1]);
    }
  }

  predicate WantsSchedule(st: Object)
    requires st.Stack?
  {
    !IsPreviewClone(st) && exists i | 0 <= i < |st.spec.backing| :: st.spec.backing[i].backup
  }

  function ScheduleKey(sk: Key): Key { Key(SnapshotScheduleKind, sk.ns, BackupName(sk.name)) }

  function Scheduled(cfg: Config, s: Store, sk: Key, st: Object): Store
    requires st.Stack?
  {
    if WantsSchedule(st) then Apply(cfg, s, ScheduleKey(sk), BackupSchedule(sk.name)).store else s
  }

  method EnsureSchedule(c: ApiServer, sk: Key, st: Object)
    requires c.Valid() && st.Stack?
    modifies c`stores, c`events
    ensures c.Valid() && old(c.stores) <= c.stores && old(c.events) <= c.events
    ensures c.quiet ==> c.Now() == Scheduled(c.cfg, old(c.Now()), sk, st)
  {
    hide IsStep, Mutate, Justified, Apply;
    if !IsPreviewClone(st) {
      var i := 0;
      while i < |st.spec.backing| && !st.spec.backing[i].backup
        invariant 0 <= i <= |st.spec.backing| && forall j | 0 <= j < i :: !st.spec.backing[j].backup
      {
        i := i + 1;
      }
      if i < |st.spec.backing| {
        PlumbingJustified(c.cfg, c.stores, ScheduleKey(sk), BackupSchedule(sk.name));
        var r, at := c.CreateOrUpdate(ScheduleKey(sk), BackupSchedule(sk.name), Plumbing);
      }
    }
  }

  /** reconcileBacking. */
  method ReconcileBacking(c: ApiServer, sk: Key, st: Object, cat: Catalog, ghost v: nat, ghost read: Option<nat>)
    returns (r: Result<Ledger>, ghost sights: map<string, Sight>, ghost places: seq<Place>)
    requires Reads(c, sk, st, v) && LoadedAt(c.cfg, c.stores, read, cat)
    modifies c`stores, c`events
    ensures c.Valid() && old(c.stores) <= c.stores && old(c.events) <= c.events && LoadedAt(c.cfg, c.stores, read, cat)
    ensures r.Ok? ==>
              LedgerSound(c.cfg, DataRead(c.cfg, c.stores, read), c.stores, sk, st.spec, |st.spec.backing|, r.value,
                          sights)
    ensures r.Ok? ==>
              AllInPlace(c.cfg, DataRead(c.cfg, c.stores, read), c.stores, sk, st, |st.spec.backing|, r.value, places)
    ensures c.quiet ==> Outcome(c.Now(), r) == BackingsQ(c.cfg, cat, old(c.Now()), sk, st)
  {
    hide IsStep, BackingReady, Provisions, BindingFits, ProvisionQ, LedgerSound, AllInPlace, InPlace, IsOverlay, Known,
         DataRead;
    sights, places := map[], [];
    var ledger := Ledger(map[], false);
    ghost var data := DataRead(c.cfg, c.stores, read);
    NothingProvisioned(c.cfg, data, c.stores, sk, st);
    for i := 0 to |st.spec.backing|
      invariant Reads(c, sk, st, v) && old(c.stores) <= c.stores && old(c.events) <= c.events
      invariant ReadIn(c.stores, read) && DataRead(c.cfg, c.stores, read) == data && IsOverlay(c.cfg, data, cat)
      invariant LedgerSound(c.cfg, data, c.stores, sk, st.spec, i, ledger, sights)
      invariant AllInPlace(c.cfg, data, c.stores, sk, st, i, ledger, places)
      invariant c.quiet ==> Outcome(c.Now(), Ok(ledger)) == ProvisionAll(c.cfg, cat, old(c.Now()), sk, st, i)
    {
      ghost var stores0 := c.stores;
      var one;
      ghost var p;
      one, p := ProvisionOne(c, sk, st, i, cat, v, read);
      if one.Err? {
        if c.quiet {
          ProvisionErrStays(c.cfg, cat, old(c.Now()), sk, st, i + 1, |st.spec.backing|);
        }
        return Err(one.why), sights, places;
      }
      LedgerGrows(c.cfg, data, stores0, c.stores, sk, st.spec, i, ledger, sights, one.value, p.at);
      PlacesGrow(c.cfg, data, stores0, c.stores, sk, st, i, ledger, places, one.value, p);
      var name := st.spec.backing[i].name;
      sights := sights[name := if one.value.Some? then Sight(i, p.at) else GetOr(sights, name, Sight(i, p.at))];
      ledger := Recorded(ledger, name, one.value);
      places := places + [p];
    }
    ghost var stores1 := c.stores;
    EnsureSchedule(c, sk, st);
    DataStays(c.cfg, stores1, c.stores, read);
    LedgerPersists(c.cfg, data, stores1, c.stores, sk, st.spec, |st.spec.backing|, ledger, sights);
    PlacesPersist(c.cfg, data, stores1, c.stores, sk, st, |st.spec.backing|, ledger, places);
    r := Ok(ledger);
  }

  lemma PlacesGrow(cfg: Config, data: map<string, string>, stores: seq<Store>, stores': seq<Store>, sk: Key, st: Object,
                   n: nat, ledger: Ledger, places: seq<Place>, placed: Option<Placed>, p: Place)
    requires st.Stack? && stores <= stores' && n < |st.spec.backing|
    requires AllInPlace(cfg, data, stores, sk, st, n, ledger, places)
    requires Provisions(Known(cfg, data), st.spec.backing[n]) ==> placed.Some?
    requires placed.Some? && !placed.value.got.pending ==> InPlace(cfg, data, stores', sk, st, st.spec.backing[n], p)
    ensures AllInPlace(cfg, data, stores', sk, st, n + 1, Recorded(ledger, st.spec.backing[n].name, placed), places +
                       [p])
  {
    hide InPlace, Provisions, Known;
    PlacesPersist(cfg, data, stores, stores', sk, st, n, ledger, places);
  }

  lemma NothingProvisioned(cfg: Config, data: map<string, string>, stores: seq<Store>, sk: Key, st: Object)
    requires st.Stack?
    ensures LedgerSound(cfg, data, stores, sk, st.spec, 0, Ledger(map[], false), map[])
    ensures AllInPlace(cfg, data, stores, sk, st, 0, Ledger(map[], false), [])
  {
  }

  ghost function BackingsQ(cfg: Config, cat: Catalog, s: Store, sk: Key, st: Object): Outcome<Ledger>
    requires st.Stack?
  {
    var all := ProvisionAll(cfg, cat, s, sk, st, |st.spec.backing|);
    if all.result.Err? then all else Outcome(Scheduled(cfg, all.store, sk, st), all.result)
  }
}
