/** What the clones of a Stack find to share in the course of a pass, from the
    store the pass starts with. */
module Sharing {
  import opened Wrappers
  import opened Names
  import opened Objects
  import opened Clusters
  import opened Snapshots
  import opened Volumes
  import opened Catalogs
  import opened Tiers
  import opened Backings
  import opened Settling
  import opened SettlingTiers
  import opened Idempotence

  // ------------------------------------------------------------------ one backing

  /** The volume of the backing is to be seeded, and its StatefulSet is not there. */
  predicate Clones(cat: Catalog, s: Store, sk: Key, st: Object, b: BackingSpec)
    requires st.Stack?
  {
    HasVolume(cat, b) && IsPreviewClone(st) && SetKey(sk.ns, NameOf(sk, b)) !in s.objs
  }

  function HandleAt(s: Store, content: string): string {
    var k := ContentKey(content);
    if k in s.objs && s.objs[k].obj.Content? then s.objs[k].obj.statusHandle else ""
  }

  /** What a content offers once it names another driver. */
  function Reoffered(s: Store, content: string, driver: string): Option<Share> {
    if HandleAt(s, content) == "" then None else Some(Share(driver, HandleAt(s, content)))
  }

  predicate IsReady(s: Store, k: Key) {
    k in s.objs && s.objs[k].obj.Snapshot? && s.objs[k].obj.readyToUse
  }

  /** What a step of a clone does to a content: its own names the driver it found. */
  function Step(s: Store, sk: Key, b: BackingSpec, found: Option<Share>, content: string): Option<Share> {
    if found.Some? && content == CloneName(sk.ns, b.name) then Reoffered(s, content, found.value.driver)
    else ShareOf(s, content)
  }

  /** A step of a clone: its content names the driver it found, its StatefulSet
      comes with a ready restore, and without a find nothing is linked. */
  ghost predicate Steps(s: Store, t: Store, sk: Key, st: Object, b: BackingSpec, clones: bool)
    requires st.Stack?
  {
    var found := if clones then Seen(s, st, sk.ns, b.name) else None;
    var restore := SnapshotKey(sk.ns, RestoreName(b.name));
    (forall c :: ShareOf(t, c) == Step(s, sk, b, found, c)) &&
    (clones ==> (SetKey(sk.ns, NameOf(sk, b)) in t.objs <==> found.Some? && IsReady(s, restore))) &&
    (found.None? ==> SameAt(s, t, ContentKey(CloneName(sk.ns, b.name))) && SameAt(s, t, restore))
  }

  /** Work on other kinds of key is no step. */
  lemma NoStep(s: Store, t: Store, sk: Key, st: Object, b: BackingSpec, keys: set<Key>)
    requires st.Stack? && Advances(s, t, keys)
    requires forall k | k in keys :: k.kind != ContentKind && k.kind != SnapshotKind
    ensures Steps(s, t, sk, st, b, false)
  {
    hide Preserved, Blank;
    forall c ensures ShareOf(t, c) == ShareOf(s, c) {
      KeptAt(s, t, keys, ContentKey(c));
    }
  }

  lemma SeedingSteps(cfg: Config, s: Store, sk: Key, st: Object, b: BackingSpec)
    requires Typed(s) && st.Stack? && IsPreviewClone(st) && SetKey(sk.ns, NameOf(sk, b)) !in s.objs
    ensures var r := Seeding(cfg, s, sk, st, b.name); var found := Seen(s, st, sk.ns, b.name);
            r.result.Ok? &&
            (r.result.value.Wait? <==>
               !(found.Some? && IsReady(s, SnapshotKey(sk.ns, RestoreName(b.name))))) &&
            (forall c :: ShareOf(r.store, c) == Step(s, sk, b, found, c)) &&
            (found.None? ==> SameAt(s, r.store, ContentKey(CloneName(sk.ns, b.name))) &&
                             SameAt(s, r.store, SnapshotKey(sk.ns, RestoreName(b.name))))
  {
    hide Apply, Blank, Preserved, Advances, SourceContent, SourceBound, CloneRestore, LinkedStore, AfterSource, ShareOf;
    var ns, found := sk.ns, Seen(s, st, sk.ns, b.name);
    CloneIs(cfg, s, st, ns, b.name);
    AfterIs(cfg, s, st, ns, b.name);
    var src := AfterSource(cfg, s, st, ns, b.name);
    if found.Some? {
      SeenDriver(s, st, ns, b.name);
      LinksLeave(cfg, src, ns, b.name, found.value);
      LinkSteps(s, src, LinkedStore(cfg, src, ns, b.name, found.value).store, sk, b, found.value);
    }
  }

  lemma AfterIs(cfg: Config, s: Store, st: Object, ns: string, b: string)
    requires Typed(s) && st.Stack?
    ensures var src := AfterSource(cfg, s, st, ns, b);
            Typed(src) && (forall c :: ShareOf(src, c) == ShareOf(s, c) && SameAt(s, src, ContentKey(c))) &&
            SameAt(s, src, SnapshotKey(ns, RestoreName(b)))
  {
    hide Mutate, Blank, Preserved, Apply;
    SourceTakes(cfg, s, st, ns, b);
    SourceIsNotRestore(st, ns, b);
  }

  lemma SeenDriver(s: Store, st: Object, ns: string, b: string)
    requires st.Stack? && Seen(s, st, ns, b).Some?
    ensures Seen(s, st, ns, b).value.driver != ""
  {
  }

  lemma LinkSteps(s: Store, src: Store, t: Store, sk: Key, b: BackingSpec, x: Share)
    requires x.driver != "" && LinksMade(src, t, sk.ns, b.name, x) && Advances(src, t, LinkKeys(sk.ns, b.name))
    requires (forall c :: ShareOf(src, c) == ShareOf(s, c) && SameAt(s, src, ContentKey(c)))
    requires SameAt(s, src, SnapshotKey(sk.ns, RestoreName(b.name)))
    ensures forall c :: ShareOf(t, c) == Step(s, sk, b, Some(x), c)
    ensures var l := SnapshotKey(sk.ns, RestoreName(b.name)); l in t.objs && t.objs[l].obj.readyToUse == IsReady(s, l)
  {
    hide Blank, Preserved;
    forall c ensures ShareOf(t, c) == Step(s, sk, b, Some(x), c) {
      assert SameAt(s, src, ContentKey(c));
      if c != CloneName(sk.ns, b.name) {
        KeptAt(src, t, LinkKeys(sk.ns, b.name), ContentKey(c));
      }
    }
  }

  /** Work around a step of a clone, on other kinds of key. */
  lemma StepsAround(s: Store, svc: Store, seed: Store, t: Store, sk: Key, st: Object, b: BackingSpec,
        found: Option<Share>)
    requires st.Stack? && Advances(s, svc, EndpointKeys(sk, b)) && Advances(seed, t, SetKeys(sk, b))
    requires forall c :: ShareOf(seed, c) == Step(svc, sk, b, found, c)
    requires found.None? ==> SameAt(svc, seed, ContentKey(CloneName(sk.ns, b.name))) &&
                             SameAt(svc, seed, SnapshotKey(sk.ns, RestoreName(b.name)))
    ensures forall c :: ShareOf(t, c) == Step(s, sk, b, found, c)
    ensures found.None? ==>
      SameAt(s, t, ContentKey(CloneName(sk.ns, b.name))) && SameAt(s, t, SnapshotKey(sk.ns, RestoreName(b.name)))
  {
    hide Blank, Preserved;
    forall c ensures ShareOf(t, c) == Step(s, sk, b, found, c) {
      KeptAt(s, svc, EndpointKeys(sk, b), ContentKey(c));
      KeptAt(seed, t, SetKeys(sk, b), ContentKey(c));
      assert ShareOf(seed, c) == Step(svc, sk, b, found, c);
    }
    KeptAt(s, svc, EndpointKeys(sk, b), ContentKey(CloneName(sk.ns, b.name)));
    KeptAt(seed, t, SetKeys(sk, b), ContentKey(CloneName(sk.ns, b.name)));
    KeptAt(s, svc, EndpointKeys(sk, b), SnapshotKey(sk.ns, RestoreName(b.name)));
    KeptAt(seed, t, SetKeys(sk, b), SnapshotKey(sk.ns, RestoreName(b.name)));
  }

  lemma SetTierSteps(cfg: Config, s: Store, sk: Key, st: Object, b: BackingSpec, secret: Patch, service: Patch,
                     persistent: bool, claim: Seed -> Patch, labelled: bool)
    requires Typed(s) && st.Stack? && PatchKind(secret) == SecretKind && PatchKind(service) == Objects.ServiceKind
    requires forall seed :: claim(seed).BackingSet?
    requires SetTierQ(cfg, s, sk, st, b, secret, service, persistent, claim, labelled).result.Ok?
    ensures Steps(s, SetTierQ(cfg, s, sk, st, b, secret, service, persistent, claim, labelled).store, sk, st, b,
              persistent && IsPreviewClone(st) && SetKey(sk.ns, NameOf(sk, b)) !in s.objs)
  {
    hide Apply, Advances, Typed, Seeding, SetUpQ, SetKeys, EndpointKeys, SeedKeys, Seen, ShareOf, Step, IsReady;
    var k := SetKey(sk.ns, NameOf(sk, b));
    var sec := Apply(cfg, s, SecretKey(sk.ns, NameOf(sk, b)), secret);
    var svc := Apply(cfg, sec.store, Clusters.ServiceKey(sk.ns, NameOf(sk, b)), service).store;
    EndpointAdvances(cfg, s, sk, b, secret, service);
    SeenKept(s, svc, sk, st, b);
    var clones := persistent && IsPreviewClone(st) && k !in s.objs;
    var found := if clones then Seen(s, st, sk.ns, b.name) else None;
    var seed := if persistent then Seeding(cfg, svc, sk, st, b.name) else Outcome(svc, Ok(Fresh));
    EndpointKeeps(s, svc, sk, b);
    if clones {
      SeedingSteps(cfg, svc, sk, st, b);
      SeedingAdvances(cfg, svc, sk, st, b.name);
      TierKeysApart(sk, st, b);
      KeptAt(svc, seed.store, SeedKeys(sk, st, b.name), k);
    } else {
      if persistent {
        SeedingFresh(cfg, svc, sk, st, b);
      }
      NoFind(svc, sk, b);
    }
    var t := SetTierQ(cfg, s, sk, st, b, secret, service, persistent, claim, labelled).store;
    StaysPut(seed.store);
    AdvancesMore(seed.store, seed.store, {}, SetKeys(sk, b));
    if !seed.result.value.Wait? {
      SetUpAdvances(cfg, seed.store, sk, b, claim(seed.result.value), labelled);
      SetUpMakes(cfg, seed.store, sk, b, claim(seed.result.value), labelled);
    }
    StepsAround(s, svc, seed.store, t, sk, st, b, found);
  }

  lemma SeedingFresh(cfg: Config, s: Store, sk: Key, st: Object, b: BackingSpec)
    requires st.Stack? && !(IsPreviewClone(st) && SetKey(sk.ns, NameOf(sk, b)) !in s.objs)
    ensures Seeding(cfg, s, sk, st, b.name) == Outcome(s, Ok(Fresh))
  {
  }

  lemma NoFind(s: Store, sk: Key, b: BackingSpec)
    ensures forall c :: Step(s, sk, b, None, c) == ShareOf(s, c)
    ensures forall k :: SameAt(s, s, k)
  {
  }

  /** The endpoint leaves the StatefulSet and the restore snapshot alone. */
  lemma EndpointKeeps(s: Store, t: Store, sk: Key, b: BackingSpec)
    requires Advances(s, t, EndpointKeys(sk, b))
    ensures SetKey(sk.ns, NameOf(sk, b)) in t.objs <==> SetKey(sk.ns, NameOf(sk, b)) in s.objs
    ensures IsReady(t, SnapshotKey(sk.ns, RestoreName(b.name))) == IsReady(s, SnapshotKey(sk.ns, RestoreName(b.name)))
  {
    hide Preserved, Blank;
    KeptAt(s, t, EndpointKeys(sk, b), SetKey(sk.ns, NameOf(sk, b)));
    KeptAt(s, t, EndpointKeys(sk, b), SnapshotKey(sk.ns, RestoreName(b.name)));
  }

  /** One backing of a pass, whatever its tier. */
  lemma ProvisionSteps(cfg: Config, cat: Catalog, s: Store, sk: Key, st: Object, b: BackingSpec)
    requires Typed(s) && st.Stack? && ProvisionQ(cfg, cat, s, sk, st, b).result.Ok?
    ensures Steps(s, ProvisionQ(cfg, cat, s, sk, st, b).store, sk, st, b, Clones(cat, s, sk, st, b))
  {
    hide Advances, Typed, Lower, PostgresQ, EnsureBucketQ, TemplatedQ, FallbackQ, SetTierQ, Steps;
    if IsPostgres(b.kind) {
      PostgresAdvances(cfg, s, sk, st, b);
      NoStep(s, PostgresQ(cfg, s, sk, st, b).store, sk, st, b, PostgresKeys(sk, st, b));
    } else if IsObjectStore(b.kind) {
      BucketAdvances(cfg, s, sk, NameOf(sk, b));
      NoStep(s, ObjectQ(cfg, s, sk, b).store, sk, st, b, {BucketKey(sk.ns, NameOf(sk, b))});
    } else if Lookup(cat, b.kind).Some? {
      var def := Lookup(cat, b.kind).value;
      ImageNeeded(cfg, s, sk, st, b, def);
      TemplatedIsTier(cfg, s, sk, st, b, def);
      SetTierSteps(cfg, s, sk, st, b, SecretPatch(cfg, sk, b, def),
        EndpointPatch(sk, b, OrDefault(def.portName, def.kind), def.port), def.persistence.Some?,
        seed => TemplateSetPatch(sk, b, def, ImageOf(cfg, b, def).value, seed),
        def.persistence.Some? && b.backup && !IsPreviewClone(st));
    } else if b.image != "" {
      PortNeeded(cfg, s, sk, st, b);
      FallbackIsTier(cfg, s, sk, st, b);
      SetTierSteps(cfg, s, sk, st, b, AddressPatch(sk, b),
        EndpointPatch(sk, b, "svc", b.port), true, seed => FallbackSetPatch(cfg, sk, b, seed),
        b.backup && !IsPreviewClone(st));
    } else {
      StaysPut(s);
      NoStep(s, s, sk, st, b, {});
    }
  }

  // ------------------------------------------------------------------- a whole pass

  /** What a content offers after the first `i` backings of a pass over `s`. */
  function Offers(cat: Catalog, s: Store, sk: Key, st: Object, i: nat, content: string): Option<Share>
    requires st.Stack? && i <= |st.spec.backing|
    decreases i, 0
  {
    if i == 0 then ShareOf(s, content)
    else
      var found := Found(cat, s, sk, st, i - 1);
      if found.Some? && content == CloneName(sk.ns, st.spec.backing[i - 1].name) then
        Reoffered(s, content, found.value.driver)
      else Offers(cat, s, sk, st, i - 1, content)
  }

  /** What the clone of backing `i` finds when its turn comes. */
  function Found(cat: Catalog, s: Store, sk: Key, st: Object, i: nat): Option<Share>
    requires st.Stack? && i < |st.spec.backing|
    decreases i, 1
  {
    var b := st.spec.backing[i];
    if Clones(cat, s, sk, st, b) && SourceBound(s, st, sk.ns, b.name)
    then Offers(cat, s, sk, st, i, SourceContent(s, st, sk.ns, b.name)) else None
  }

  /** What it would find once the pass is over. */
  function FoundAfter(cat: Catalog, s: Store, sk: Key, st: Object, i: nat): Option<Share>
    requires st.Stack? && i < |st.spec.backing|
  {
    var b := st.spec.backing[i];
    if SourceBound(s, st, sk.ns, b.name)
    then Offers(cat, s, sk, st, |st.spec.backing|, SourceContent(s, st, sk.ns, b.name)) else None
  }

  /** The pass leaves the clone of backing `i` waiting. */
  predicate StillWaits(cat: Catalog, s: Store, sk: Key, st: Object, i: nat)
    requires st.Stack? && i < |st.spec.backing|
  {
    var b := st.spec.backing[i];
    Clones(cat, s, sk, st, b) &&
    !(Found(cat, s, sk, st, i).Some? && IsReady(s, SnapshotKey(sk.ns, RestoreName(b.name))))
  }

  /** That clone found what it would find after the pass, or found nothing and is
      linked to that already. */
  predicate CloneSettles(cat: Catalog, s: Store, sk: Key, st: Object, i: nat)
    requires st.Stack? && i < |st.spec.backing|
  {
    var found, after := Found(cat, s, sk, st, i), FoundAfter(cat, s, sk, st, i);
    after == found || (found.None? && Linked(s, sk.ns, st.spec.backing[i].name, after.value))
  }

  predicate ClonesSettle(cat: Catalog, s: Store, sk: Key, st: Object)
    requires st.Stack?
  {
    forall i | 0 <= i < |st.spec.backing| :: StillWaits(cat, s, sk, st, i) ==> CloneSettles(cat, s, sk, st, i)
  }

  // -------------------------------------------------------------- these are what is found

  /** What engines reported stays through any part of a pass. */
  lemma StatusesStay(s: Store, u: Store, keys: set<Key>, st: Object, ns: string, b: string)
    requires Typed(s) && Typed(u) && Advances(s, u, keys) && st.Stack?
    ensures SourceBound(u, st, ns, b) == SourceBound(s, st, ns, b)
    ensures SourceBound(s, st, ns, b) ==> SourceContent(u, st, ns, b) == SourceContent(s, st, ns, b)
    ensures IsReady(u, SnapshotKey(ns, RestoreName(b))) == IsReady(s, SnapshotKey(ns, RestoreName(b)))
  {
    StatusStays(s, u, keys, SourceKey(st, ns, b));
    StatusStays(s, u, keys, SnapshotKey(ns, RestoreName(b)));
  }

  lemma StatusStays(s: Store, u: Store, keys: set<Key>, k: Key)
    requires Typed(s) && Typed(u) && Advances(s, u, keys)
    ensures k in s.objs ==> k in u.objs && Preserved(s.objs[k].obj, u.objs[k].obj)
    ensures k in u.objs && k !in s.objs ==> Blank(u.objs[k].obj)
  {
  }

  lemma HandleStays(s: Store, u: Store, keys: set<Key>, content: string)
    requires Typed(s) && Typed(u) && Advances(s, u, keys)
    ensures HandleAt(u, content) == HandleAt(s, content)
  {
    StatusStays(s, u, keys, ContentKey(content));
  }

  /** The stores of a pass, from the first to backing `i` and on to the last. */
  lemma StoresAlong(cfg: Config, cat: Catalog, s: Store, sk: Key, st: Object, i: nat, n: nat)
    returns (before: set<Key>, after: set<Key>)
    requires Typed(s) && st.Stack? && i <= n <= |st.spec.backing| && BackingsApart(cat, sk, st)
    ensures var si, t := ProvisionAll(cfg, cat, s, sk, st, i).store, ProvisionAll(cfg, cat, s, sk, st, n).store;
            Typed(si) && Typed(t) && Advances(s, si, before) && Advances(si, t, after)
    ensures forall j, k | i <= j < |st.spec.backing| && k in BackingKeys(cat, sk, st, st.spec.backing[j]) ::
      k !in before
    ensures forall j, k | 0 <= j < i && k in BackingKeys(cat, sk, st, st.spec.backing[j]) :: k !in after
  {
    hide Typed, Advances, ProvisionAll, BackingKeys, Ladder;
    var t, keys := BackingStores(cfg, cat, s, sk, st, n), BackingRungs(cat, sk, st, n);
    BackingLadder(cfg, cat, s, sk, st, n);
    before, after := Union(keys[0..i]), Union(keys[i..n]);
    LadderAdvances(t, keys, 0, i);
    LadderAdvances(t, keys, i, n);
    BackingTyped(cfg, cat, s, sk, st, i);
    BackingTyped(cfg, cat, s, sk, st, n);
    forall j, k | i <= j < |st.spec.backing| && k in BackingKeys(cat, sk, st, st.spec.backing[j]) ensures k !in before {
      InUnion(keys[0..i], k);
    }
    forall j, k | 0 <= j < i && k in BackingKeys(cat, sk, st, st.spec.backing[j]) ensures k !in after {
      InUnion(keys[i..n], k);
    }
  }

  /** The keys of a clone are its backing's own. */
  lemma CloneOwns(cat: Catalog, sk: Key, st: Object, b: BackingSpec)
    requires st.Stack? && HasVolume(cat, b) && IsPreviewClone(st)
    ensures {SetKey(sk.ns, NameOf(sk, b)), ContentKey(CloneName(sk.ns, b.name)),
             SnapshotKey(sk.ns, RestoreName(b.name))} <=
            BackingKeys(cat, sk, st, b)
  {
    hide Lower;
  }

  /** When its turn comes a backing finds its StatefulSet, its source's binding and
      its restore snapshot as the pass found them. */
  lemma TurnComes(cfg: Config, cat: Catalog, s: Store, sk: Key, st: Object, i: nat)
    requires Typed(s) && st.Stack? && i < |st.spec.backing| && BackingsApart(cat, sk, st)
    ensures var b, si := st.spec.backing[i], ProvisionAll(cfg, cat, s, sk, st, i).store;
            Clones(cat, si, sk, st, b) == Clones(cat, s, sk, st, b) &&
            SourceBound(si, st, sk.ns, b.name) == SourceBound(s, st, sk.ns, b.name) &&
            (SourceBound(s, st, sk.ns, b.name) ==>
               SourceContent(si, st, sk.ns, b.name) == SourceContent(s, st, sk.ns, b.name)) &&
            IsReady(si, SnapshotKey(sk.ns, RestoreName(b.name))) == IsReady(s, SnapshotKey(sk.ns, RestoreName(b.name)))
  {
    hide Typed, Advances, ProvisionAll, BackingKeys, HasVolume, SourceBound, SourceContent, IsReady;
    var b, si := st.spec.backing[i], ProvisionAll(cfg, cat, s, sk, st, i).store;
    var before, after := StoresAlong(cfg, cat, s, sk, st, i, i);
    StatusesStay(s, si, before, st, sk.ns, b.name);
    if HasVolume(cat, b) && IsPreviewClone(st) {
      CloneOwns(cat, sk, st, b);
      KeptAt(s, si, before, SetKey(sk.ns, NameOf(sk, b)));
    }
  }

  /** What contents offer along a pass. */
  lemma {:induction false} OffersAre(cfg: Config, cat: Catalog, s: Store, sk: Key, st: Object, i: nat)
    requires Typed(s) && st.Stack? && i <= |st.spec.backing| && BackingsApart(cat, sk, st)
    requires ProvisionAll(cfg, cat, s, sk, st, i).result.Ok?
    ensures forall c :: ShareOf(ProvisionAll(cfg, cat, s, sk, st, i).store, c) == Offers(cat, s, sk, st, i, c)
  {
    hide Typed, Advances, ProvisionAll, ProvisionQ, BackingKeys, ShareOf, Clones, SourceBound, SourceContent,
         IsReady, HandleAt, Ladder;
    if i == 0 {
      NoneProvisioned(cfg, cat, s, sk, st);
    } else {
      OkBefore(cfg, cat, s, sk, st, i);
      OffersAre(cfg, cat, s, sk, st, i - 1);
      var b, si := st.spec.backing[i - 1], ProvisionAll(cfg, cat, s, sk, st, i - 1).store;
      var t := ProvisionAll(cfg, cat, s, sk, st, i).store;
      TurnComes(cfg, cat, s, sk, st, i - 1);
      OneStep(cfg, cat, s, sk, st, i - 1);
      var before, after := StoresAlong(cfg, cat, s, sk, st, i - 1, i);
      var found := Found(cat, s, sk, st, i - 1);
      forall c ensures ShareOf(t, c) == Offers(cat, s, sk, st, i, c) {
        assert ShareOf(t, c) == Step(si, sk, b, found, c);
        HandleStays(s, si, before, c);
      }
    }
  }

  /** The step of one backing, when its turn comes. */
  lemma OneStep(cfg: Config, cat: Catalog, s: Store, sk: Key, st: Object, i: nat)
    requires Typed(s) && st.Stack? && i < |st.spec.backing| && BackingsApart(cat, sk, st)
    requires ProvisionAll(cfg, cat, s, sk, st, i + 1).result.Ok?
    requires forall c :: ShareOf(ProvisionAll(cfg, cat, s, sk, st, i).store, c) == Offers(cat, s, sk, st, i, c)
    ensures var b, si := st.spec.backing[i], ProvisionAll(cfg, cat, s, sk, st, i).store;
            var t := ProvisionAll(cfg, cat, s, sk, st, i + 1).store;
            var found := Found(cat, s, sk, st, i);
            (forall c :: ShareOf(t, c) == Step(si, sk, b, found, c)) &&
            (Clones(cat, s, sk, st, b) ==>
               found == Seen(si, st, sk.ns, b.name) &&
               (SetKey(sk.ns, NameOf(sk, b)) in t.objs <==> !StillWaits(cat, s, sk, st, i))) &&
            (found.None? ==>
               SameAt(si, t, ContentKey(CloneName(sk.ns, b.name))) &&
               SameAt(si, t, SnapshotKey(sk.ns, RestoreName(b.name))))
  {
    hide Typed, ProvisionQ, BackingKeys, ShareOf, Clones, SourceBound, SourceContent, IsReady, Step;
    OkBefore(cfg, cat, s, sk, st, i + 1);
    BackingTyped(cfg, cat, s, sk, st, i);
    TurnComes(cfg, cat, s, sk, st, i);
    ProvisionSteps(cfg, cat, ProvisionAll(cfg, cat, s, sk, st, i).store, sk, st, st.spec.backing[i]);
  }

  /** Keys no clone is concerned with. */
  predicate OffClones(keys: set<Key>) {
    forall k | k in keys :: k.kind != ContentKind && k.kind != SnapshotKind && k.kind != StatefulSetKind
  }

  /** The clone of backing `i` is in `u` as its turn left it. */
  lemma CloneKept(cfg: Config, cat: Catalog, s: Store, sk: Key, st: Object, i: nat, u: Store, late: set<Key>)
    requires Typed(s) && Typed(u) && st.Stack? && i < |st.spec.backing| && BackingsApart(cat, sk, st)
    requires HasVolume(cat, st.spec.backing[i]) && IsPreviewClone(st) && OffClones(late)
    requires Advances(ProvisionAll(cfg, cat, s, sk, st, |st.spec.backing|).store, u, late)
    ensures var b := st.spec.backing[i];
            var si, t := ProvisionAll(cfg, cat, s, sk, st, i).store, ProvisionAll(cfg, cat, s, sk, st, i + 1).store;
            SameAt(s, si, ContentKey(CloneName(sk.ns, b.name))) && SameAt(t, u, ContentKey(CloneName(sk.ns, b.name))) &&
            SameAt(s, si, SnapshotKey(sk.ns, RestoreName(b.name))) &&
            SameAt(t, u, SnapshotKey(sk.ns, RestoreName(b.name))) &&
            SameAt(s, si, SetKey(sk.ns, NameOf(sk, b))) && SameAt(t, u, SetKey(sk.ns, NameOf(sk, b)))
  {
    hide Typed, Advances, ProvisionAll, BackingKeys, HasVolume, SameAt;
    var b, n := st.spec.backing[i], |st.spec.backing|;
    var si, t, all := ProvisionAll(cfg, cat, s, sk, st, i).store, ProvisionAll(cfg, cat, s, sk, st, i + 1).store,
      ProvisionAll(cfg, cat, s, sk, st, n).store;
    CloneOwns(cat, sk, st, b);
    var before, rest := StoresAlong(cfg, cat, s, sk, st, i, n);
    var upto, after := StoresAlong(cfg, cat, s, sk, st, i + 1, n);
    forall k | k in {SetKey(sk.ns, NameOf(sk, b)), ContentKey(CloneName(sk.ns, b.name)),
                     SnapshotKey(sk.ns, RestoreName(b.name))}
      ensures SameAt(s, si, k) && SameAt(t, u, k)
    {
      KeptAt(s, si, before, k);
      KeptAt(t, all, after, k);
      KeptAt(all, u, late, k);
      SameTwice(t, all, u, k);
    }
  }

  /** What the clone of backing `i` finds in a store the pass leaves. */
  lemma FindsAfter(cfg: Config, cat: Catalog, s: Store, sk: Key, st: Object, i: nat, u: Store, late: set<Key>)
    requires Typed(s) && Typed(u) && st.Stack? && i < |st.spec.backing| && BackingsApart(cat, sk, st) && OffClones(late)
    requires ProvisionAll(cfg, cat, s, sk, st, |st.spec.backing|).result.Ok?
    requires Advances(ProvisionAll(cfg, cat, s, sk, st, |st.spec.backing|).store, u, late)
    ensures Seen(u, st, sk.ns, st.spec.backing[i].name) == FoundAfter(cat, s, sk, st, i)
  {
    hide Typed, Advances, ProvisionAll, SourceBound, SourceContent, IsReady, ShareOf, Offers;
    var b, n := st.spec.backing[i].name, |st.spec.backing|;
    var all := ProvisionAll(cfg, cat, s, sk, st, n).store;
    var before, rest := StoresAlong(cfg, cat, s, sk, st, n, n);
    StatusesStay(s, all, before, st, sk.ns, b);
    StatusesStay(all, u, late, st, sk.ns, b);
    OffersAre(cfg, cat, s, sk, st, n);
    var c := SourceContent(s, st, sk.ns, b);
    ShareKept(all, u, late, c);
    assert ShareOf(all, c) == Offers(cat, s, sk, st, n, c);
  }

  lemma ShareKept(s: Store, u: Store, late: set<Key>, c: string)
    requires Advances(s, u, late) && OffClones(late)
    ensures ShareOf(u, c) == ShareOf(s, c)
  {
    hide Advances;
    KeptAt(s, u, late, ContentKey(c));
  }

  /** One clone rereads exactly when it settles. */
  lemma CloneRereads(cfg: Config, cat: Catalog, s: Store, sk: Key, st: Object, i: nat, u: Store, late: set<Key>)
    requires Typed(s) && Typed(u) && st.Stack? && i < |st.spec.backing| && BackingsApart(cat, sk, st) && OffClones(late)
    requires ProvisionAll(cfg, cat, s, sk, st, |st.spec.backing|).result.Ok?
    requires Advances(ProvisionAll(cfg, cat, s, sk, st, |st.spec.backing|).store, u, late)
    ensures var b := st.spec.backing[i];
            SeedRereads(ProvisionAll(cfg, cat, s, sk, st, i).store, u, sk, st, b, HasVolume(cat, b)) <==>
            (StillWaits(cat, s, sk, st, i) ==> CloneSettles(cat, s, sk, st, i))
  {
    hide Typed, Advances, ProvisionAll, HasVolume, Seen, IsReady, Found, FoundAfter, Linked, BackingsApart;
    var b := st.spec.backing[i];
    if HasVolume(cat, b) && IsPreviewClone(st) {
      EarlierIsOk(cfg, cat, s, sk, st, i + 1, |st.spec.backing|);
      EarlierIsOk(cfg, cat, s, sk, st, i, |st.spec.backing|);
      OffersAre(cfg, cat, s, sk, st, i);
      OneStep(cfg, cat, s, sk, st, i);
      CloneKept(cfg, cat, s, sk, st, i, u, late);
      FindsAfter(cfg, cat, s, sk, st, i, u, late);
      var si, t := ProvisionAll(cfg, cat, s, sk, st, i).store, ProvisionAll(cfg, cat, s, sk, st, i + 1).store;
      if !Clones(cat, s, sk, st, b) {
        SetStays(cfg, cat, s, sk, st, i);
      } else if Found(cat, s, sk, st, i).None? && FoundAfter(cat, s, sk, st, i).Some? {
        LinkedSame(s, si, t, u, sk.ns, b.name, FoundAfter(cat, s, sk, st, i).value);
      }
    }
  }

  lemma EarlierIsOk(cfg: Config, cat: Catalog, s: Store, sk: Key, st: Object, m: nat, n: nat)
    requires st.Stack? && m <= n <= |st.spec.backing| && ProvisionAll(cfg, cat, s, sk, st, n).result.Ok?
    ensures ProvisionAll(cfg, cat, s, sk, st, m).result.Ok?
  {
    hide ProvisionQ;
    if ProvisionAll(cfg, cat, s, sk, st, m).result.Err? {
      ProvisionErrStays(cfg, cat, s, sk, st, m, n);
    }
  }

  lemma SetStays(cfg: Config, cat: Catalog, s: Store, sk: Key, st: Object, i: nat)
    requires Typed(s) && st.Stack? && i < |st.spec.backing| && BackingsApart(cat, sk, st)
    ensures var k := SetKey(sk.ns, NameOf(sk, st.spec.backing[i]));
            k in s.objs ==> k in ProvisionAll(cfg, cat, s, sk, st, i + 1).store.objs
  {
    hide Typed, ProvisionAll;
    var before, rest := StoresAlong(cfg, cat, s, sk, st, i + 1, i + 1);
    StatusStays(s, ProvisionAll(cfg, cat, s, sk, st, i + 1).store, before,
                SetKey(sk.ns, NameOf(sk, st.spec.backing[i])));
  }

  lemma LinkedSame(s: Store, si: Store, t: Store, u: Store, ns: string, b: string, x: Share)
    requires var k, l := ContentKey(CloneName(ns, b)), SnapshotKey(ns, RestoreName(b));
             SameAt(s, si, k) && SameAt(si, t, k) && SameAt(t, u, k) && SameAt(s, si, l) && SameAt(si, t, l) &&
             SameAt(t, u, l)
    ensures Linked(u, ns, b, x) == Linked(s, ns, b, x)
  {
  }

  /** The second look of a pass finds nothing new exactly when its clones settle. */
  lemma RereadsExactly(cfg: Config, cat: Catalog, s: Store, sk: Key, st: Object, u: Store, late: set<Key>)
    requires Typed(s) && Typed(u) && st.Stack? && BackingsApart(cat, sk, st) && OffClones(late)
    requires ProvisionAll(cfg, cat, s, sk, st, |st.spec.backing|).result.Ok?
    requires Advances(ProvisionAll(cfg, cat, s, sk, st, |st.spec.backing|).store, u, late)
    ensures Rereading(cfg, cat, s, u, sk, st, |st.spec.backing|) <==> ClonesSettle(cat, s, sk, st)
  {
    hide Typed, Advances, ProvisionAll, HasVolume, SeedRereads, StillWaits, CloneSettles, BackingsApart, OffClones;
    forall i | 0 <= i < |st.spec.backing|
      ensures var b := st.spec.backing[i];
              SeedRereads(ProvisionAll(cfg, cat, s, sk, st, i).store, u, sk, st, b, HasVolume(cat, b)) <==>
              (StillWaits(cat, s, sk, st, i) ==> CloneSettles(cat, s, sk, st, i))
    {
      CloneRereads(cfg, cat, s, sk, st, i, u, late);
    }
  }

  // ----------------------------------------------------------------- when they settle

  /** No source snapshot is bound to a content that a clone of the Stack writes. */
  predicate ForeignSources(s: Store, sk: Key, st: Object)
    requires st.Stack?
  {
    forall i, j | 0 <= i < |st.spec.backing| && 0 <= j < |st.spec.backing| ::
      SourceContent(s, st, sk.ns, st.spec.backing[i].name) != CloneName(sk.ns, st.spec.backing[j].name)
  }

  lemma {:induction false} OffersOwn(cat: Catalog, s: Store, sk: Key, st: Object, i: nat, content: string)
    requires st.Stack? && i <= |st.spec.backing|
    requires forall j | 0 <= j < |st.spec.backing| :: content != CloneName(sk.ns, st.spec.backing[j].name)
    ensures Offers(cat, s, sk, st, i, content) == ShareOf(s, content)
  {
    hide Found, CloneName, ShareOf;
    if i > 0 {
      OffersOwn(cat, s, sk, st, i - 1, content);
    }
  }

  /** They do when no source is bound to what a clone of the Stack writes. */
  lemma ForeignSourcesSettle(cat: Catalog, s: Store, sk: Key, st: Object)
    requires st.Stack? && ForeignSources(s, sk, st)
    ensures ClonesSettle(cat, s, sk, st)
  {
    hide CloneName, ShareOf, SourceContent, SourceBound, Offers, Linked, Clones;
    forall i | 0 <= i < |st.spec.backing| ensures StillWaits(cat, s, sk, st, i) ==> CloneSettles(cat, s, sk, st, i) {
      var c := SourceContent(s, st, sk.ns, st.spec.backing[i].name);
      OffersOwn(cat, s, sk, st, i, c);
      OffersOwn(cat, s, sk, st, |st.spec.backing|, c);
    }
  }
}
