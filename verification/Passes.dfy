/** Whole passes of StackReconciler.Reconcile, back to back. */
module Passes {
  import opened Wrappers
  import opened Objects
  import opened Clusters
  import opened Snapshots
  import opened Volumes
  import opened Bindings
  import opened Catalogs
  import opened Tiers
  import opened Backings
  import opened Overlays
  import opened Services
  import opened Reconcilers
  import opened Settling
  import opened SettlingTiers
  import opened Idempotence
  import opened Sharing

  // --------------------------------------------------------- the status is not consulted

  /** The same Stack, whatever its status. */
  predicate SameStack(a: Object, b: Object) {
    a.Stack? && b.Stack? && a == b.(status := a.status)
  }

  lemma SeedingIgnoresStatus(cfg: Config, s: Store, sk: Key, st: Object, st': Object, b: string)
    requires SameStack(st, st')
    ensures Seeding(cfg, s, sk, st, b) == Seeding(cfg, s, sk, st', b)
  {
    hide Apply;
  }

  lemma TemplatedIgnoresStatus(cfg: Config, s: Store, sk: Key, st: Object, st': Object, b: BackingSpec,
        def: ServiceDefinition)
    requires SameStack(st, st')
    ensures TemplatedQ(cfg, s, sk, st, b, def) == TemplatedQ(cfg, s, sk, st', b, def)
  {
    hide Seeding, TemplateEndpointQ, SetUpQ;
    SeedingIgnoresStatus(cfg, TemplateEndpointQ(cfg, s, sk, b, def).store, sk, st, st', b.name);
  }

  lemma FallbackIgnoresStatus(cfg: Config, s: Store, sk: Key, st: Object, st': Object, b: BackingSpec)
    requires SameStack(st, st')
    ensures FallbackQ(cfg, s, sk, st, b) == FallbackQ(cfg, s, sk, st', b)
  {
    hide Seeding, FallbackEndpointQ, SetUpQ;
    SeedingIgnoresStatus(cfg, FallbackEndpointQ(cfg, s, sk, b).store, sk, st, st', b.name);
  }

  lemma PostgresIgnoresStatus(cfg: Config, s: Store, sk: Key, st: Object, st': Object, b: BackingSpec)
    requires SameStack(st, st')
    ensures PostgresQ(cfg, s, sk, st, b) == PostgresQ(cfg, s, sk, st', b)
  {
    hide ApplyClusterQ, EnsureBucketQ, CopyBackupCredsQ, ParentBucketQ;
  }

  lemma ProvisionIgnoresStatus(cfg: Config, cat: Catalog, s: Store, sk: Key, st: Object, st': Object, b: BackingSpec)
    requires SameStack(st, st')
    ensures ProvisionQ(cfg, cat, s, sk, st, b) == ProvisionQ(cfg, cat, s, sk, st', b)
  {
    hide Lower, PostgresQ, TemplatedQ, FallbackQ, ObjectQ;
    PostgresIgnoresStatus(cfg, s, sk, st, st', b);
    FallbackIgnoresStatus(cfg, s, sk, st, st', b);
    if Lookup(cat, b.kind).Some? {
      TemplatedIgnoresStatus(cfg, s, sk, st, st', b, Lookup(cat, b.kind).value);
    }
  }

  lemma {:induction false} BackingsIgnoreStatus(cfg: Config, cat: Catalog, s: Store, sk: Key, st: Object, st': Object,
        n: nat)
    requires SameStack(st, st') && n <= |st.spec.backing|
    ensures ProvisionAll(cfg, cat, s, sk, st, n) == ProvisionAll(cfg, cat, s, sk, st', n)
  {
    hide ProvisionQ;
    if n > 0 {
      BackingsIgnoreStatus(cfg, cat, s, sk, st, st', n - 1);
      ProvisionIgnoresStatus(cfg, cat, ProvisionAll(cfg, cat, s, sk, st, n - 1).store, sk, st, st',
                             st.spec.backing[n - 1]);
    }
  }

  lemma GateIgnoresStatus(cfg: Config, s: Store, sk: Key, st: Object, st': Object, svc: ServiceSpec, env: seq<EnvVar>)
    requires SameStack(st, st')
    ensures ReleaseGateQ(cfg, s, sk, st, svc, env) == ReleaseGateQ(cfg, s, sk, st', svc, env)
  {
    hide Find, Creation, ReleaseJob, JobKey;
  }

  lemma ServiceIgnoresStatus(cfg: Config, s: Store, sk: Key, st: Object, st': Object, svc: ServiceSpec,
                             urls: map<string, string>, backings: map<string, Backing>)
    requires SameStack(st, st')
    ensures ServiceQ(cfg, s, sk, st, svc, urls, backings) == ServiceQ(cfg, s, sk, st', svc, urls, backings)
  {
    hide Resolve, ProcessesQ, ReleaseGateQ;
    GateIgnoresStatus(cfg, s, sk, st, st', svc, Resolve(cfg, urls, backings, svc, |svc.connections|).env);
  }

  lemma {:induction false} ServicesIgnoreStatus(cfg: Config, s: Store, sk: Key, st: Object, st': Object,
        backings: map<string, Backing>, n: nat)
    requires SameStack(st, st') && n <= |st.spec.services|
    ensures ServicesQ(cfg, s, sk, st, backings, n) == ServicesQ(cfg, s, sk, st', backings, n)
  {
    hide ServiceQ, Urls;
    if n > 0 {
      ServicesIgnoreStatus(cfg, s, sk, st, st', backings, n - 1);
      ServiceIgnoresStatus(cfg, ServicesQ(cfg, s, sk, st, backings, n - 1).store, sk, st, st', st.spec.services[n - 1],
        Urls(sk, st.spec, |st.spec.services|), backings);
    }
  }

  // --------------------------------------------------------------------------- status

  /** Assessing an assessed Stack again. */
  lemma AssessedAgain(s: Store, u: Store, sk: Key, st: Object, flags: Flags)
    requires st.Stack? && Advances(s, u, {sk}) && sk.kind == StackKind
    ensures Assessed(u, sk, Assessed(s, sk, st, flags), flags) == Assessed(s, sk, st, flags)
  {
    hide Preserved, Blank;
    assert Listed(u, sk.ns, sk.name) == Listed(s, sk.ns, sk.name) by {
      forall k: Key | k.kind == DeploymentKind ensures SameAt(s, u, k) {}
    }
    var keys := Listed(s, sk.ns, sk.name);
    assert ReadyOf(u, keys) == ReadyOf(s, keys) by {
      forall k | k in keys ensures SameAt(s, u, k) {}
    }
  }

  lemma StatusAdvances(s: Store, sk: Key, entry: Entry, status: Status)
    requires Typed(s) && entry.obj.Stack? && sk.kind == StackKind && sk in s.objs && s.objs[sk] == entry
    ensures Typed(StatusUpdate(s, sk, entry, status).store) &&
            Advances(s, StatusUpdate(s, sk, entry, status).store, {sk})
    ensures StatusUpdate(s, sk, entry, status).result.Ok?
    ensures var u := StatusUpdate(s, sk, entry, status).store;
            sk in u.objs && u.objs[sk].obj == entry.obj.(status := status)
  {
  }

  // ---------------------------------------------------------------------- two passes

  /** No two parts of the Stack write the same keys. */
  ghost predicate ChildrenApart(cat: Catalog, sk: Key, st: Object)
    requires st.Stack?
  {
    BackingsApart(cat, sk, st) && ServicesApart(sk, st) &&
    forall i, j | 0 <= i < |st.spec.backing| && 0 <= j < |st.spec.services| ::
      ServiceKeys(sk, st, st.spec.services[j]) !! BackingKeys(cat, sk, st, st.spec.backing[i])
  }

  ghost predicate SafeDefs(cat: Catalog, st: Object)
    requires st.Stack?
  {
    forall i | 0 <= i < |st.spec.backing| :: SafeDef(cat, st.spec.backing[i])
  }

  /** The keys written after the backings. */
  function LateKeys(sk: Key, st: Object): set<Key>
    requires st.Stack?
  {
    {ScheduleKey(sk)} + Union(ServiceRungs(sk, st, |st.spec.services|)) + {sk}
  }

  lemma LateKeysApart(cat: Catalog, sk: Key, st: Object, i: nat)
    requires st.Stack? && sk.kind == StackKind && ChildrenApart(cat, sk, st) && i < |st.spec.backing|
    ensures LateKeys(sk, st) !! BackingKeys(cat, sk, st, st.spec.backing[i])
  {
    hide ServiceKeys, ServicesApart, BackingsApart;
    var foot := BackingKeys(cat, sk, st, st.spec.backing[i]);
    forall k | k in LateKeys(sk, st) ensures k !in foot {
      InUnion(ServiceRungs(sk, st, |st.spec.services|), k);
    }
  }

  lemma ScheduleAdvances(cfg: Config, s: Store, sk: Key, st: Object)
    requires Typed(s) && st.Stack?
    ensures Typed(Scheduled(cfg, s, sk, st)) && Advances(s, Scheduled(cfg, s, sk, st), {ScheduleKey(sk)})
  {
    hide Apply, Advances, Typed;
    StaysPut(s);
    AdvancesMore(s, s, {}, {ScheduleKey(sk)});
    ApplyAdvances(cfg, s, ScheduleKey(sk), BackupSchedule(sk.name));
  }

  /** Best effort: a schedule that could not be written is left out again. */
  lemma ScheduleAgain(cfg: Config, s: Store, sk: Key, st: Object, u: Store)
    requires Typed(s) && st.Stack? && SameAt(u, Scheduled(cfg, s, sk, st), ScheduleKey(sk))
    ensures Scheduled(cfg, u, sk, st) == u
  {
    var k, p := ScheduleKey(sk), BackupSchedule(sk.name);
    if WantsSchedule(st) {
      if Apply(cfg, s, k, p).result.Ok? {
        ApplyAgain(cfg, s, k, p, u, p);
      }
    }
  }

  /** Later work keeps what every backing left, and what it found to share. */
  lemma BackingsHold(cfg: Config, cat: Catalog, s: Store, sk: Key, st: Object, u: Store, i: nat)
    requires Typed(s) && Typed(u) && st.Stack? && sk.kind == StackKind && ChildrenApart(cat, sk, st) &&
             SafeDefs(cat, st)
    requires i < |st.spec.backing| && ProvisionAll(cfg, cat, s, sk, st, |st.spec.backing|).result.Ok?
    requires Advances(ProvisionAll(cfg, cat, s, sk, st, |st.spec.backing|).store, u, LateKeys(sk, st))
    ensures Holding(cfg, cat, s, u, sk, st, i)
  {
    hide Typed, Advances, AgreeOn, Steady, ProvisionAll, SafeDef, Ladder, LateKeys, ServicesApart, BackingKeys, Seen;
    var n := |st.spec.backing|;
    var t, keys := BackingStores(cfg, cat, s, sk, st, n), BackingRungs(cat, sk, st, n);
    BackingLadder(cfg, cat, s, sk, st, n);
    assert t[i] == ProvisionAll(cfg, cat, s, sk, st, i).store &&
           t[i + 1] == ProvisionAll(cfg, cat, s, sk, st, i + 1).store;
    var foot := BackingKeys(cat, sk, st, st.spec.backing[i]);
    BackingKept(cfg, cat, s, sk, st, i);
    LateKeysApart(cat, sk, st, i);
    AgreeOutside(t[n], u, LateKeys(sk, st), foot);
    AgreeThrough(t[i + 1], t[n], u, foot);
    LadderAdvances(t, keys, i, n);
    AdvancesTwice(t[i], t[n], u, Union(keys[i..n]), LateKeys(sk, st));
    BackingTyped(cfg, cat, s, sk, st, i);
    AdvancesSteady(t[i], u, Union(keys[i..n]) + LateKeys(sk, st));
    SeenStays(t[i], u, st, sk.ns, st.spec.backing[i].name, Union(keys[i..n]) + LateKeys(sk, st));
  }

  /** What a clone found to share, it finds later too. */
  lemma SeenStays(s: Store, u: Store, st: Object, ns: string, b: string, keys: set<Key>)
    requires Typed(s) && Typed(u) && st.Stack? && Advances(s, u, keys)
    ensures Seen(s, st, ns, b).Some? ==> Seen(u, st, ns, b).Some?
    ensures SourceBound(s, st, ns, b) ==>
      SourceBound(u, st, ns, b) && SourceContent(u, st, ns, b) == SourceContent(s, st, ns, b)
  {
    var k, c := SourceKey(st, ns, b), ContentKey(SourceContent(s, st, ns, b));
    assert k in s.objs ==> Preserved(s.objs[k].obj, u.objs[k].obj);
    assert c in s.objs ==> Preserved(s.objs[c].obj, u.objs[c].obj);
  }

  /** The backings half, seen from a store that later work left. */
  lemma BackingsSettle(cfg: Config, cat: Catalog, s: Store, sk: Key, st: Object, u: Store)
    requires Typed(s) && Typed(u) && st.Stack? && sk.kind == StackKind && ChildrenApart(cat, sk, st) &&
             SafeDefs(cat, st)
    requires ProvisionAll(cfg, cat, s, sk, st, |st.spec.backing|).result.Ok?
    requires Advances(ProvisionAll(cfg, cat, s, sk, st, |st.spec.backing|).store, u, LateKeys(sk, st))
    ensures Idle(ProvisionAll(cfg, cat, u, sk, st, |st.spec.backing|), u) <==>
            Rereading(cfg, cat, s, u, sk, st, |st.spec.backing|)
    ensures Rereading(cfg, cat, s, u, sk, st, |st.spec.backing|) ==>
              forall m | 0 <= m <= |st.spec.backing| ::
                ProvisionAll(cfg, cat, u, sk, st, m) == Outcome(u, ProvisionAll(cfg, cat, s, sk, st, m).result)
  {
    hide Typed, Advances, ProvisionAll, LateKeys, ChildrenApart, SafeDefs, Rereading, Holding;
    var n := |st.spec.backing|;
    forall i | 0 <= i < n ensures Holding(cfg, cat, s, u, sk, st, i) {
      BackingsHold(cfg, cat, s, sk, st, u, i);
    }
    AllAgain(cfg, cat, s, sk, st, n, u);
    if Idle(ProvisionAll(cfg, cat, u, sk, st, n), u) {
      forall m | 0 <= m <= n ensures Idle(ProvisionAll(cfg, cat, u, sk, st, m), u) {
        IdleThroughout(cfg, cat, u, sk, st, m, n);
      }
    }
  }

  /** The stages of a successful pass. */
  datatype Stages = Stages(
    ledger: Ledger, fates: seq<Fate>, provisioned: Store, scheduled: Store, served: Store, done: Store)

  /** A pass over `s` went through the stages up to the status. */
  ghost predicate GotThrough(cfg: Config, cat: Catalog, s: Store, sk: Key, g: Stages) {
    sk.kind == StackKind && sk in s.objs && s.objs[sk].obj.Stack? &&
    (var st := s.objs[sk].obj;
     ProvisionAll(cfg, cat, s, sk, st, |st.spec.backing|) == Outcome(g.provisioned, Ok(g.ledger)) &&
     g.scheduled == Scheduled(cfg, g.provisioned, sk, st) &&
     ServicesQ(cfg, g.scheduled, sk, st, g.ledger.backings, |st.spec.services|) == Outcome(g.served, Ok(g.fates)))
  }

  /** And through all of them. */
  ghost predicate Went(cfg: Config, cat: Catalog, s: Store, sk: Key, g: Stages) {
    GotThrough(cfg, cat, s, sk, g) &&
    UpdateStatusQ(g.served, sk, s.objs[sk], FlagsOf(g.fates), g.ledger.pending) ==
    Outcome(g.done, Ok(FlagsOf(g.fates).held || g.ledger.pending))
  }

  lemma PassGoes(cfg: Config, cat: Catalog, s: Store, sk: Key, t: Store, r: bool) returns (g: Stages)
    requires sk.kind == StackKind && Find(s, sk).Some? && ReconcileQ(cfg, cat, s, sk) == Outcome(t, Ok(r))
    ensures Went(cfg, cat, s, sk, g) && g.done == t && r == (Held in g.fates || g.ledger.pending)
  {
    hide ProvisionAll, Scheduled, ServicesQ, StatusUpdate, Assessed;
    var st := s.objs[sk].obj;
    var all := ProvisionAll(cfg, cat, s, sk, st, |st.spec.backing|);
    var scheduled := Scheduled(cfg, all.store, sk, st);
    var served := ServicesQ(cfg, scheduled, sk, st, all.result.value.backings, |st.spec.services|);
    g := Stages(all.result.value, served.result.value, all.store, scheduled, served.store, t);
  }

  lemma StagesAdvance(cfg: Config, cat: Catalog, s: Store, sk: Key, g: Stages)
    requires Typed(s) && GotThrough(cfg, cat, s, sk, g)
    ensures var st := s.objs[sk].obj;
            Typed(g.provisioned) && Typed(g.scheduled) && Typed(g.served) &&
            Advances(s, g.provisioned, Union(BackingRungs(cat, sk, st, |st.spec.backing|))) &&
            Advances(g.provisioned, g.scheduled, {ScheduleKey(sk)}) &&
            Advances(g.scheduled, g.served, Union(ServiceRungs(sk, st, |st.spec.services|))) &&
            sk in g.served.objs && g.served.objs[sk] == s.objs[sk]
  {
    hide Typed, Advances, ProvisionAll, Scheduled, ServicesQ, BackingKeys, ServiceKeys, UpdateStatusQ, Ladder;
    var st := s.objs[sk].obj;
    var n, m := |st.spec.backing|, |st.spec.services|;
    BackingLadder(cfg, cat, s, sk, st, n);
    LadderAdvances(BackingStores(cfg, cat, s, sk, st, n), BackingRungs(cat, sk, st, n), 0, n);
    assert BackingRungs(cat, sk, st, n)[0..n] == BackingRungs(cat, sk, st, n);
    BackingTyped(cfg, cat, s, sk, st, n);
    ScheduleAdvances(cfg, g.provisioned, sk, st);
    ServicesAdvance(cfg, g.scheduled, sk, st, g.ledger.backings);
    StackUntouched(cat, s, sk, st);
    AgreeOutside(s, g.provisioned, Union(BackingRungs(cat, sk, st, n)), {sk});
    AgreeOutside(g.provisioned, g.scheduled, {ScheduleKey(sk)}, {sk});
    AgreeOutside(g.scheduled, g.served, Union(ServiceRungs(sk, st, m)), {sk});
    AtKey(g.provisioned, s, {sk}, sk);
    AtKey(g.scheduled, g.provisioned, {sk}, sk);
    AtKey(g.served, g.scheduled, {sk}, sk);
  }

  /** No provisioning or rollout writes a Stack. */
  lemma StackUntouched(cat: Catalog, s: Store, sk: Key, st: Object)
    requires st.Stack? && sk.kind == StackKind
    ensures sk !in Union(BackingRungs(cat, sk, st, |st.spec.backing|)) &&
            sk !in Union(ServiceRungs(sk, st, |st.spec.services|))
  {
    hide ServiceKeys, BackingKeys;
    InUnion(BackingRungs(cat, sk, st, |st.spec.backing|), sk);
    InUnion(ServiceRungs(sk, st, |st.spec.services|), sk);
    forall i | 0 <= i < |st.spec.backing| ensures sk !in BackingKeys(cat, sk, st, st.spec.backing[i]) {
      NoStackKey(cat, sk, st, st.spec.backing[i]);
    }
    forall i | 0 <= i < |st.spec.services| ensures sk !in ServiceKeys(sk, st, st.spec.services[i]) {
      NotServed(sk, st, st.spec.services[i], sk);
    }
  }

  lemma NoStackKey(cat: Catalog, sk: Key, st: Object, b: BackingSpec)
    requires st.Stack? && sk.kind == StackKind
    ensures sk !in BackingKeys(cat, sk, st, b)
  {
  }

  lemma NotServed(sk: Key, st: Object, svc: ServiceSpec, k: Key)
    requires st.Stack? && (k.kind == StackKind || k.kind == SnapshotScheduleKind)
    ensures k !in ServiceKeys(sk, st, svc)
  {
    InUnion(ProcessRungs(sk, svc, |svc.processes|), k);
  }

  lemma ScheduleNotServed(sk: Key, st: Object)
    requires st.Stack?
    ensures ScheduleKey(sk) !in Union(ServiceRungs(sk, st, |st.spec.services|))
  {
    hide ServiceKeys;
    InUnion(ServiceRungs(sk, st, |st.spec.services|), ScheduleKey(sk));
    forall i | 0 <= i < |st.spec.services| ensures ScheduleKey(sk) !in ServiceKeys(sk, st, st.spec.services[i]) {
      NotServed(sk, st, st.spec.services[i], ScheduleKey(sk));
    }
  }

  /** The last stage writes the status and nothing else. */
  lemma StatusWrites(cfg: Config, cat: Catalog, s: Store, sk: Key, g: Stages)
    requires Typed(s) && Went(cfg, cat, s, sk, g)
    ensures Typed(g.done) && Advances(g.served, g.done, {sk}) && sk in g.done.objs
    ensures g.done.objs[sk].obj == Assessed(g.served, sk, s.objs[sk].obj, FlagsOf(g.fates))
  {
    hide Typed, Advances, ProvisionAll, Scheduled, ServicesQ, NextStatus, StatusUpdate;
    StagesAdvance(cfg, cat, s, sk, g);
    StatusAdvances(g.served, sk, s.objs[sk], Assessed(g.served, sk, s.objs[sk].obj, FlagsOf(g.fates)).status);
  }

  /** From the provisioned backings to the end of the pass. */
  lemma LateAdvance(cfg: Config, cat: Catalog, s: Store, sk: Key, g: Stages)
    requires Typed(s) && Went(cfg, cat, s, sk, g)
    ensures var st := s.objs[sk].obj;
            Typed(g.done) && Advances(g.provisioned, g.done, LateKeys(sk, st)) &&
            AgreeOn(g.done, g.scheduled, {ScheduleKey(sk)}) &&
            AgreeOn(g.done, g.served, Union(ServiceRungs(sk, st, |st.spec.services|)))
  {
    hide Typed, Advances, ProvisionAll, Scheduled, ServicesQ, UpdateStatusQ, Assessed;
    var st := s.objs[sk].obj;
    var rungs := Union(ServiceRungs(sk, st, |st.spec.services|));
    StagesAdvance(cfg, cat, s, sk, g);
    StackUntouched(cat, s, sk, st);
    ScheduleNotServed(sk, st);
    StatusWrites(cfg, cat, s, sk, g);
    AdvancesTwice(g.provisioned, g.scheduled, g.served, {ScheduleKey(sk)}, rungs);
    AdvancesTwice(g.provisioned, g.served, g.done, {ScheduleKey(sk)} + rungs, {sk});
    AgreeOutside(g.served, g.done, {sk}, rungs);
    AdvancesTwice(g.scheduled, g.served, g.done, rungs, {sk});
    AgreeOutside(g.scheduled, g.done, rungs + {sk}, {ScheduleKey(sk)});
  }

  /** A whole pass takes nothing away. */
  lemma PassAdvances(cfg: Config, cat: Catalog, s: Store, sk: Key, g: Stages) returns (keys: set<Key>)
    requires Typed(s) && Went(cfg, cat, s, sk, g)
    ensures Typed(g.done) && Advances(s, g.done, keys)
  {
    hide Typed, Advances, GotThrough, AgreeOn, LateKeys, UpdateStatusQ;
    WentOver(cfg, cat, s, sk, g);
    var st := s.objs[sk].obj;
    keys := Union(BackingRungs(cat, sk, st, |st.spec.backing|)) + LateKeys(sk, st);
    StagesAdvance(cfg, cat, s, sk, g);
    LateAdvance(cfg, cat, s, sk, g);
    AdvancesTwice(s, g.provisioned, g.done, Union(BackingRungs(cat, sk, st, |st.spec.backing|)), LateKeys(sk, st));
  }

  lemma WentOver(cfg: Config, cat: Catalog, s: Store, sk: Key, g: Stages)
    requires Went(cfg, cat, s, sk, g)
    ensures sk.kind == StackKind && sk in s.objs && s.objs[sk].obj.Stack?
  {
    hide ProvisionAll, Scheduled, ServicesQ, UpdateStatusQ;
  }

  /** A store in which every backing, looked at again, is as `ledger` says, every
      service as `fates` says, and nothing is left to write. */
  ghost predicate Settled(cfg: Config, cat: Catalog, u: Store, sk: Key, ledger: Ledger, fates: seq<Fate>) {
    sk in u.objs && u.objs[sk].obj.Stack? &&
    (var st := u.objs[sk].obj;
     ProvisionAll(cfg, cat, u, sk, st, |st.spec.backing|).result == Ok(ledger) &&
     (forall m | 0 <= m <= |st.spec.backing| :: ProvisionAll(cfg, cat, u, sk, st, m).store == u) &&
     Scheduled(cfg, u, sk, st) == u &&
     ServicesQ(cfg, u, sk, st, ledger.backings, |st.spec.services|) == Outcome(u, Ok(fates)) &&
     Assessed(u, sk, st, FlagsOf(fates)) == st)
  }

  lemma LateOffClones(sk: Key, st: Object)
    requires st.Stack? && sk.kind == StackKind
    ensures OffClones(LateKeys(sk, st))
  {
    hide ServiceKeys;
    forall k | k in LateKeys(sk, st)
      ensures k.kind != ContentKind && k.kind != SnapshotKind && k.kind != StatefulSetKind {
      InUnion(ServiceRungs(sk, st, |st.spec.services|), k);
      if i :| 0 <= i < |st.spec.services| && k in ServiceKeys(sk, st, st.spec.services[i]) {
        ServiceKinds(sk, st, st.spec.services[i], k);
      }
    }
  }

  lemma ServiceKinds(sk: Key, st: Object, svc: ServiceSpec, k: Key)
    requires st.Stack? && k in ServiceKeys(sk, st, svc)
    ensures k.kind == JobKind || k.kind == DeploymentKind || k.kind == Objects.ServiceKind
  {
    InUnion(ProcessRungs(sk, svc, |svc.processes|), k);
  }

  /** The clones find in the store a pass leaves what they settle on. */
  lemma DoneRereads(cfg: Config, cat: Catalog, s: Store, sk: Key, g: Stages)
    requires Typed(s) && Went(cfg, cat, s, sk, g) && ChildrenApart(cat, sk, s.objs[sk].obj)
    ensures var st := s.objs[sk].obj;
            Rereading(cfg, cat, s, g.done, sk, st, |st.spec.backing|) <==> ClonesSettle(cat, s, sk, st)
  {
    hide Typed, Advances, ProvisionAll, Scheduled, ServicesQ, UpdateStatusQ, Rereading, ClonesSettle,
         LateKeys, BackingsApart, ServicesApart, OffClones;
    var st := s.objs[sk].obj;
    LateAdvance(cfg, cat, s, sk, g);
    LateOffClones(sk, st);
    RereadsExactly(cfg, cat, s, sk, st, g.done, LateKeys(sk, st));
  }

  /** A successful pass leaves nothing for the next one, if its clones settle. */
  lemma PassSettles(cfg: Config, cat: Catalog, s: Store, sk: Key, g: Stages)
    requires Typed(s) && Went(cfg, cat, s, sk, g)
    requires ChildrenApart(cat, sk, s.objs[sk].obj) && SafeDefs(cat, s.objs[sk].obj)
    ensures sk in g.done.objs && SameStack(s.objs[sk].obj, g.done.objs[sk].obj)
    ensures ClonesSettle(cat, s, sk, s.objs[sk].obj) ==> Settled(cfg, cat, g.done, sk, g.ledger, g.fates)
  {
    hide Typed, Advances, AgreeOn, ProvisionAll, Scheduled, ServicesQ, NextStatus, ChildrenApart, SafeDefs, LateKeys,
      UpdateStatusQ, Rereading, ClonesSettle;
    var st := s.objs[sk].obj;
    DoneRereads(cfg, cat, s, sk, g);
    var u, n, m := g.done, |st.spec.backing|, |st.spec.services|;
    StagesAdvance(cfg, cat, s, sk, g);
    LateAdvance(cfg, cat, s, sk, g);
    StatusWrites(cfg, cat, s, sk, g);
    var st' := u.objs[sk].obj;
    BackingsSettle(cfg, cat, s, sk, st, u);
    forall i | 0 <= i <= n ensures ProvisionAll(cfg, cat, u, sk, st', i) == ProvisionAll(cfg, cat, u, sk, st, i) {
      BackingsIgnoreStatus(cfg, cat, u, sk, st, st', i);
    }
    AtKey(u, g.scheduled, {ScheduleKey(sk)}, ScheduleKey(sk));
    ScheduleAgain(cfg, g.provisioned, sk, st, u);
    ScheduleIgnoresStatus(cfg, u, sk, st, st');
    ServicesApartHere(cat, sk, st);
    ServicesAgain(cfg, g.scheduled, sk, st, g.ledger.backings, u);
    ServicesIgnoreStatus(cfg, u, sk, st, st', g.ledger.backings, m);
    AssessedAgain(g.served, u, sk, st, FlagsOf(g.fates));
  }

  /** A second pass that changes nothing shows that they do. */
  lemma SettledClones(cfg: Config, cat: Catalog, s: Store, sk: Key, g: Stages, r: bool)
    requires Typed(s) && Went(cfg, cat, s, sk, g) && ReconcileQ(cfg, cat, g.done, sk) == Outcome(g.done, Ok(r))
    requires ChildrenApart(cat, sk, s.objs[sk].obj) && SafeDefs(cat, s.objs[sk].obj)
    ensures ClonesSettle(cat, s, sk, s.objs[sk].obj)
  {
    hide Typed, Advances, AgreeOn, ProvisionAll, Scheduled, ServicesQ, NextStatus, ChildrenApart, SafeDefs, LateKeys,
      UpdateStatusQ, Rereading, ReconcileQ, BackingRungs, ClonesSettle;
    DoneRereads(cfg, cat, s, sk, g);
    var st, u := s.objs[sk].obj, g.done;
    StagesAdvance(cfg, cat, s, sk, g);
    LateAdvance(cfg, cat, s, sk, g);
    PassSettles(cfg, cat, s, sk, g);
    var st' := u.objs[sk].obj;
    assert Find(u, sk).Some?;
    var h := PassGoes(cfg, cat, u, sk, u, r);
    StagesAdvance(cfg, cat, u, sk, h);
    LateAdvance(cfg, cat, u, sk, h);
    Between(u, h.provisioned, u, Union(BackingRungs(cat, sk, st', |st'.spec.backing|)), LateKeys(sk, st'));
    BackingsIgnoreStatus(cfg, cat, u, sk, st, st', |st.spec.backing|);
    BackingsSettle(cfg, cat, s, sk, st, u);
  }

  lemma ScheduleIgnoresStatus(cfg: Config, s: Store, sk: Key, st: Object, st': Object)
    requires SameStack(st, st')
    ensures Scheduled(cfg, s, sk, st) == Scheduled(cfg, s, sk, st')
  {
    hide Apply;
  }

  lemma ServicesApartHere(cat: Catalog, sk: Key, st: Object)
    requires st.Stack? && ChildrenApart(cat, sk, st)
    ensures ServicesApart(sk, st)
  {
  }

  lemma SettledPass(cfg: Config, cat: Catalog, u: Store, sk: Key, ledger: Ledger, fates: seq<Fate>)
    requires sk.kind == StackKind && Settled(cfg, cat, u, sk, ledger, fates)
    ensures ReconcileQ(cfg, cat, u, sk) == Outcome(u, Ok(Held in fates || ledger.pending))
  {
    hide ProvisionAll, Scheduled, ServicesQ, NextStatus;
  }

  /** The clones of the Stack, if it is there, settle. */
  predicate StackSettles(cat: Catalog, s: Store, sk: Key)
    requires sk.kind == StackKind
  {
    Find(s, sk).Some? ==> ClonesSettle(cat, s, sk, s.objs[sk].obj)
  }

  /** The parts of the Stack, if it is there, write under different keys and no
      descriptor renders the password. */
  ghost predicate StackApart(cat: Catalog, s: Store, sk: Key)
    requires sk.kind == StackKind
  {
    Find(s, sk).Some? ==> ChildrenApart(cat, sk, s.objs[sk].obj) && SafeDefs(cat, s.objs[sk].obj)
  }

  /** Idempotence: a successful pass over any store, followed by a second one with
      fresh reads, changes nothing and gives the same answer, exactly when every
      clone that goes on waiting found what it would find after the pass. */
  lemma PassTwice(cfg: Config, cat: Catalog, s: Store, sk: Key, t: Store, r: bool)
    requires Typed(s) && sk.kind == StackKind && ReconcileQ(cfg, cat, s, sk) == Outcome(t, Ok(r))
    requires StackApart(cat, s, sk)
    ensures ReconcileQ(cfg, cat, t, sk) == Outcome(t, Ok(r)) <==> StackSettles(cat, s, sk)
  {
    if Find(s, sk).Some? {
      hide Typed, ReconcileQ, ChildrenApart, SafeDefs, Went, Settled, ClonesSettle;
      var g := PassGoes(cfg, cat, s, sk, t, r);
      PassSettles(cfg, cat, s, sk, g);
      if ClonesSettle(cat, s, sk, s.objs[sk].obj) {
        SettledPass(cfg, cat, t, sk, g.ledger, g.fates);
      } else if ReconcileQ(cfg, cat, t, sk) == Outcome(t, Ok(r)) {
        SettledClones(cfg, cat, s, sk, g, r);
      }
    } else {
      NoStackNoPass(cfg, cat, s, sk);
    }
  }

  lemma NoStackNoPass(cfg: Config, cat: Catalog, s: Store, sk: Key)
    requires sk.kind == StackKind && Find(s, sk).None?
    ensures ReconcileQ(cfg, cat, s, sk).store == s
  {
  }

  /** A pass leaves the descriptors' ConfigMap alone. */
  lemma OverlayStays(cfg: Config, cat: Catalog, s: Store, sk: Key, t: Store, r: bool)
    requires Typed(s) && sk.kind == StackKind && ReconcileQ(cfg, cat, s, sk) == Outcome(t, Ok(r))
    ensures OverlayData(cfg, t) == OverlayData(cfg, s)
  {
    hide Typed, Advances, ReconcileQ, Went;
    if Find(s, sk).Some? {
      var g := PassGoes(cfg, cat, s, sk, t, r);
      var keys := PassAdvances(cfg, cat, s, sk, g);
      AdvancesSteady(s, t, keys);
    } else {
      NoStackNoPass(cfg, cat, s, sk);
    }
  }

  /** The same when each pass loads the catalog for itself, in whatever order the
      ConfigMap's documents come. */
  lemma SecondPass(cfg: Config, cat: Catalog, cat': Catalog, s: Store, sk: Key, t: Store, r: bool)
    requires Typed(s) && sk.kind == StackKind && ReconcileQ(cfg, cat, s, sk) == Outcome(t, Ok(r))
    requires StackApart(cat, s, sk)
    requires DocsAgree(cfg, OverlayData(cfg, s))
    requires IsOverlay(cfg, OverlayData(cfg, s), cat) && IsOverlay(cfg, OverlayData(cfg, t), cat')
    ensures ReconcileQ(cfg, cat', t, sk) == Outcome(t, Ok(r)) <==> StackSettles(cat, s, sk)
  {
    hide Typed, ReconcileQ, IsOverlay, DocsAgree, OverlayData, StackSettles, StackApart;
    OverlayStays(cfg, cat, s, sk, t, r);
    OneCatalog(cfg, OverlayData(cfg, s));
    PassTwice(cfg, cat, s, sk, t, r);
  }
}
