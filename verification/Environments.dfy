/** EnvironmentReconciler.Reconcile (environment_controller.go) and the garbage
    collection of clone artifacts (snapshots.go). */
module Environments {
  import opened Wrappers
  import opened Names
  import opened Objects
  import opened Clusters
  import opened Api
  import opened Volumes

  // ------------------------------------------------------------------------- teardown

  /** The keys whose deletion was accepted, each with a store in which it was
      absent or on its way out. */
  ghost predicate AllDoomed(stores: seq<Store>, from: nat, keys: set<Key>, doomed: map<Key, nat>) {
    forall k | k in keys :: k in doomed && from <= doomed[k] < |stores| && Doomed(stores[doomed[k]], k)
  }

  /** `t` is `s` with the objects under `keys` marked for deletion. */
  ghost predicate Marked(s: Store, t: Store, keys: set<Key>) {
    t.objs.Keys == s.objs.Keys &&
    forall k | k in s.objs ::
      if k in keys then t.objs[k].deleting && t.objs[k].obj == s.objs[k].obj && t.objs[k].uid == s.objs[k].uid
      else t.objs[k] == s.objs[k]
  }

  lemma DoomMarks(s: Store, t: Store, keys: set<Key>, k: Key)
    requires Marked(s, t, keys)
    ensures Marked(s, Doom(t, k), keys + {k})
  {
  }

  /** The loop of gcCloneArtifacts over one kind. */
  method DeleteAll(c: ApiServer, items: seq<Key>, ghost keys: set<Key>)
    returns (r: Result<()>, ghost doomed: map<Key, nat>)
    requires c.Valid() && IsListing(items, keys)
    modifies c`stores, c`events
    ensures c.Valid() && old(c.stores) <= c.stores && old(c.events) <= c.events
    ensures r.Ok? ==> AllDoomed(c.stores, |old(c.stores)| - 1, keys, doomed)
    ensures c.quiet ==> r.Ok? && Marked(old(c.Now()), c.Now(), keys)
  {
    hide IsStep;
    doomed := map[];
    ghost var done: set<Key> := {};
    for i := 0 to |items|
      invariant c.Valid() && old(c.stores) <= c.stores && old(c.events) <= c.events
      invariant forall k :: k in done <==> exists j | 0 <= j < i :: items[j] == k
      invariant AllDoomed(c.stores, |old(c.stores)| - 1, done, doomed)
      invariant c.quiet ==> Marked(old(c.Now()), c.Now(), done)
    {
      ghost var now := c.Now();
      var one := c.Delete(items[i]);
      if one.Err? {
        return Err(one.why), doomed;
      }
      if c.quiet {
        DoomMarks(old(c.Now()), now, done, items[i]);
      }
      doomed := doomed[items[i] := |c.stores| - 1];
      done := done + {items[i]};
    }
    assert done == keys;
    r := Ok(());
  }

  /** gcCloneArtifacts: list, then delete, first the snapshots, then the static
      contents. */
  method CollectArtifacts(c: ApiServer, ns: string)
    returns (r: Result<()>, ghost snapshots: nat, ghost contents: nat, ghost doomed: map<Key, nat>)
    requires c.Valid()
    modifies c`stores, c`events
    ensures c.Valid() && old(c.stores) <= c.stores && old(c.events) <= c.events
    ensures r.Ok? ==>
              |old(c.stores)| - 1 <= snapshots < |c.stores| && |old(c.stores)| - 1 <= contents < |c.stores| &&
              AllDoomed(c.stores, snapshots, Labelled(c.stores[snapshots], SnapshotKind, ns), doomed) &&
              AllDoomed(c.stores, contents, Labelled(c.stores[contents], ContentKind, ns), doomed)
    ensures c.quiet ==> r.Ok? && Marked(old(c.Now()), c.Now(), Artifacts(old(c.Now()), ns))
  {
    hide IsStep, LabelledIn, Marked;
    snapshots, contents, doomed := 0, 0, map[];
    var items;
    items, snapshots := c.ListArtifacts(SnapshotKind, ns);
    if items.Err? {
      return Err(items.why), snapshots, contents, doomed;
    }
    ghost var keys := Labelled(c.stores[snapshots], SnapshotKind, ns);
    ghost var first, second;
    r, first := DeleteAll(c, items.value, keys);
    if r.Err? {
      return;
    }
    ghost var stores1 := c.stores;
    items, contents := c.ListArtifacts(ContentKind, ns);
    if items.Err? {
      return Err(items.why), snapshots, contents, doomed;
    }
    ghost var more := Labelled(c.stores[contents], ContentKind, ns);
    ghost var stores2 := c.stores;
    r, second := DeleteAll(c, items.value, more);
    doomed := map k | k in first.Keys + second.Keys ::
      if k in keys && k in first then first[k] else if k in second then second[k] else first[k];
    if r.Ok? {
      KindsApart(c.stores[snapshots], c.stores[contents], ns);
    }
    if c.quiet {
      ArtifactsMarked(old(c.Now()), stores1[|stores1| - 1], c.Now(), ns);
    }
  }

  /** Everything that carries clone-owner=ns. */
  function Artifacts(s: Store, ns: string): set<Key> {
    Labelled(s, SnapshotKind, ns) + Labelled(s, ContentKind, ns)
  }

  lemma KindsApart(s: Store, t: Store, ns: string)
    ensures Labelled(s, SnapshotKind, ns) !! Labelled(t, ContentKind, ns)
  {
  }

  lemma ArtifactsMarked(s: Store, t: Store, u: Store, ns: string)
    requires Marked(s, t, Labelled(s, SnapshotKind, ns)) && Marked(t, u, Labelled(t, ContentKind, ns))
    ensures Marked(s, u, Artifacts(s, ns))
  {
    assert Labelled(t, ContentKind, ns) == Labelled(s, ContentKind, ns);
  }

  /** The deletion half: artifacts, namespace, finalizer, in this order. */
  method TearDown(c: ApiServer, ek: Key, entry: Entry, ghost v: nat) returns (r: Result<()>, ghost why: Reason)
    requires c.Valid() && HasEnvironment(c.stores, v, ek) && c.stores[v].objs[ek] == entry && entry.deleting
    modifies c`stores, c`events
    ensures c.Valid() && old(c.stores) <= c.stores && old(c.events) <= c.events
    ensures r.Ok? ==>
              TeardownJustified(c.stores, ek, why) && why.version == v &&
              ek in c.Now().objs && c.Now().objs[ek].obj == entry.obj.(finalizer := false)
    ensures c.quiet && v == |old(c.stores)| - 1 ==> r.Ok? && TornDown(old(c.Now()), c.Now(), ek, entry)
  {
    hide IsStep, Labelled, Doomed;
    var ns := NamespaceOf(ek, entry.obj);
    why := Plumbing;
    ghost var snapshots, contents, doomed;
    r, snapshots, contents, doomed := CollectArtifacts(c, ns);
    if r.Err? {
      return;
    }
    ghost var stores1 := c.stores;
    r := c.Delete(NamespaceKey(ns));
    if r.Err? {
      return;
    }
    if c.quiet && v == |old(c.stores)| - 1 {
      OthersKept(old(c.Now()), stores1[|stores1| - 1], ns, ek);
    }
    why := Teardown(v, snapshots, contents, doomed, |c.stores| - 1);
    ListedDoomed(stores1, c.stores, ek, entry, why);
    ghost var stores2 := c.stores;
    r := c.RemoveFinalizer(ek, entry, why);
    TeardownPersists(stores2, c.stores, ek, why);
  }

  lemma OthersKept(s: Store, u: Store, ns: string, ek: Key)
    requires Marked(s, u, Artifacts(s, ns)) && ek.kind == EnvironmentKind && ek in s.objs
    ensures ek in Doom(u, NamespaceKey(ns)).objs && Doom(u, NamespaceKey(ns)).objs[ek] == s.objs[ek]
  {
  }

  lemma ListedDoomed(stores: seq<Store>, stores': seq<Store>, ek: Key, entry: Entry, why: Reason)
    requires stores <= stores' && why.Teardown? && HasEnvironment(stores, why.version, ek)
    requires stores[why.version].objs[ek] == entry && entry.deleting
    requires why.version <= why.snapshots < |stores| && why.version <= why.contents < |stores|
    requires why.version <= why.nsDoomed < |stores'|
    requires var ns := NamespaceOf(ek, entry.obj);
             AllDoomed(stores, why.snapshots, Labelled(stores[why.snapshots], SnapshotKind, ns), why.doomed) &&
             AllDoomed(stores, why.contents, Labelled(stores[why.contents], ContentKind, ns), why.doomed) &&
             Doomed(stores'[why.nsDoomed], NamespaceKey(ns))
    ensures TeardownJustified(stores', ek, why)
  {
    hide Labelled;
  }

  /** What a teardown nobody disturbs leaves. */
  ghost predicate TornDown(s: Store, t: Store, ek: Key, entry: Entry)
    requires entry.obj.Environment?
  {
    var ns := NamespaceOf(ek, entry.obj);
    exists u: Store ::
      Marked(s, u, Artifacts(s, ns)) && t == Put(Doom(u, NamespaceKey(ns)), ek, entry.obj.(finalizer := false))
  }

  // ------------------------------------------------------------------------ provision

  function NamespacePatch(ek: Key, env: Object): Patch
    requires env.Environment?
  {
    EnvNamespace(env.project, ek.name, OrDefault(env.envType, "persistent"))
  }

  /** A preview names the sibling it is seeded from. */
  function StackPatchOf(env: Object): Patch
    requires env.Environment? && env.stack.Some?
  {
    if env.envType == "preview" && env.cloneFrom != ""
    then EnvStack(NamespaceName(env.project, env.cloneFrom), env.cloneFrom, env.stack.value)
    else EnvStack("", "", env.stack.value)
  }

  /** The Stack of an Environment. */
  function StackKeyOf(ek: Key, env: Object): Key
    requires env.Environment?
  {
    Key(StackKind, NamespaceOf(ek, env), ek.name)
  }

  /** The Environment as read, not being deleted, and its finalizer seen held. */
  predicate Holding(stores: seq<Store>, v: nat, ek: Key, entry: Entry, held: nat) {
    HasEnvironment(stores, v, ek) && stores[v].objs[ek] == entry && !entry.deleting &&
    HasEnvironment(stores, held, ek) && stores[held].objs[ek].uid == entry.uid && stores[held].objs[ek].obj.finalizer
  }

  lemma JustifyNamespace(cfg: Config, stores: seq<Store>, v: nat, ek: Key, entry: Entry, held: nat)
    requires Holding(stores, v, ek, entry, held)
    ensures Justified(cfg, stores, NamespaceKey(NamespaceOf(ek, entry.obj)), NamespacePatch(ek, entry.obj),
                      EnvProvision(v, ek, held))
  {
  }

  lemma JustifyStack(cfg: Config, stores: seq<Store>, v: nat, ek: Key, entry: Entry, held: nat)
    requires Holding(stores, v, ek, entry, held) && entry.obj.stack.Some?
    ensures Justified(cfg, stores, StackKeyOf(ek, entry.obj), StackPatchOf(entry.obj), EnvProvision(v, ek, held))
  {
  }

  lemma StackIsClone(cfg: Config, ek: Key, env: Object, o: Object)
    requires env.Environment? && env.stack.Some? && Carries(cfg, StackPatchOf(env), o)
    ensures o.Stack? && o.spec == env.stack.value &&
            (IsPreview(env) ==>
               o.cloneStack == env.cloneFrom && o.cloneNs == NamespaceOf(ek.(name := env.cloneFrom), env) &&
               IsPreviewClone(o))
  {
  }

  /** The Environment's Stack, if it has one, was seen with that spec; a preview's as a
      clone of the Stack of the sibling it is cloned from, in that sibling's namespace. */
  predicate StackSeen(stores: seq<Store>, at: nat, ek: Key, env: Object)
    requires env.Environment?
  {
    env.stack.Some? ==>
      at < |stores| && StackKeyOf(ek, env) in stores[at].objs &&
      (var o := stores[at].objs[StackKeyOf(ek, env)].obj;
       o.Stack? && o.spec == env.stack.value &&
       (IsPreview(env) ==>
          o.cloneStack == env.cloneFrom && o.cloneNs == NamespaceOf(ek.(name := env.cloneFrom), env) &&
          IsPreviewClone(o)))
  }

  /** ensureStack: the app graph, if any, named after the Environment. */
  method EnsureStack(c: ApiServer, ek: Key, entry: Entry, ghost v: nat, ghost held: nat)
    returns (r: Result<()>, ghost at: nat)
    requires c.Valid() && Holding(c.stores, v, ek, entry, held)
    modifies c`stores, c`events
    ensures c.Valid() && old(c.stores) <= c.stores && old(c.events) <= c.events
    ensures r.Ok? ==> StackSeen(c.stores, at, ek, entry.obj)
    ensures c.quiet ==> Outcome(c.Now(), r) == StackedQ(c.cfg, old(c.Now()), ek, entry.obj)
  {
    hide IsStep, Mutate, Justified, Apply, Carries, NamespaceName;
    at := 0;
    var env := entry.obj;
    if env.stack.None? {
      return Ok(()), at;
    }
    JustifyStack(c.cfg, c.stores, v, ek, entry, held);
    var st, stAt := c.CreateOrUpdate(StackKeyOf(ek, env), StackPatchOf(env), EnvProvision(v, ek, held));
    at := stAt;
    if st.Ok? {
      StackIsClone(c.cfg, ek, env, st.value.obj);
    }
    r := if st.Err? then Err(st.why) else Ok(());
  }

  function StackedQ(cfg: Config, s: Store, ek: Key, env: Object): Outcome<()>
    requires env.Environment?
  {
    if env.stack.None? then Outcome(s, Ok(()))
    else
      var st := Apply(cfg, s, StackKeyOf(ek, env), StackPatchOf(env));
      Outcome(st.store, if st.result.Err? then Err(st.result.why) else Ok(()))
  }

  /** Undisturbed, a new Stack is a clone exactly as its Environment is a preview of a
      sibling; one that is there takes the spec, in a new generation if it differs, keeps
      its status, and keeps its clone source unless a preview names one. */
  lemma StackMade(cfg: Config, s: Store, ek: Key, env: Object)
    requires env.Environment? && env.stack.Some? && Typed(s)
    ensures var t := StackedQ(cfg, s, ek, env).store; var k := StackKeyOf(ek, env);
            k in t.objs && t.objs[k].obj.Stack? && t.objs[k].obj.spec == env.stack.value &&
            (IsPreview(env) ==>
               t.objs[k].obj.cloneStack == env.cloneFrom &&
               t.objs[k].obj.cloneNs == NamespaceOf(ek.(name := env.cloneFrom), env)) &&
            (k !in s.objs ==>
               t.objs[k].obj.generation == 1 && t.objs[k].obj.status == EMPTY_STATUS &&
               (IsPreviewClone(t.objs[k].obj) <==> IsPreview(env))) &&
            (k in s.objs ==>
               var was := s.objs[k].obj;
               was.Stack? && t.objs[k].obj.status == was.status &&
               t.objs[k].obj.generation == was.generation + (if was.spec == env.stack.value then 0 else 1) &&
               (!IsPreview(env) ==> t.objs[k].obj.cloneStack == was.cloneStack && t.objs[k].obj.cloneNs == was.cloneNs))
  {
  }

  /** Where a provisioning pass saw the finalizer held, the namespace, the Stack. */
  datatype Seen = Seen(held: nat, namespace: nat, stack: nat)

  ghost predicate ProvisionSeen(stores: seq<Store>, ek: Key, entry: Entry, seen: Seen)
    requires entry.obj.Environment?
  {
    var ns := NamespaceOf(ek, entry.obj);
    HasEnvironment(stores, seen.held, ek) && stores[seen.held].objs[ek].uid == entry.uid &&
    stores[seen.held].objs[ek].obj.finalizer &&
    seen.namespace < |stores| && NamespaceKey(ns) in stores[seen.namespace].objs &&
    NamespaceFits(stores[seen.namespace].objs[NamespaceKey(ns)].obj, ek, entry.obj) &&
    StackSeen(stores, seen.stack, ek, entry.obj)
  }

  /** The finalizer, then the namespace, its baseline, and the Stack. */
  method Provision(c: ApiServer, ek: Key, entry: Entry, ghost v: nat) returns (r: Result<()>, ghost seen: Seen)
    requires c.Valid() && HasEnvironment(c.stores, v, ek) && c.stores[v].objs[ek] == entry && !entry.deleting
    modifies c`stores, c`events
    ensures c.Valid() && old(c.stores) <= c.stores && old(c.events) <= c.events
    ensures r.Ok? ==> ProvisionSeen(c.stores, ek, entry, seen)
    ensures c.quiet && v == |old(c.stores)| - 1 ==> Outcome(c.Now(), r) == ProvisionedQ(c.cfg, old(c.Now()), ek, entry)
  {
    hide IsRun, Mutate, Justified, Apply, StackedQ, Carries, StackSeen, NamespaceFits;
    var ns := NamespaceOf(ek, entry.obj);
    seen := Seen(v, 0, 0);
    if !entry.obj.finalizer {
      r := c.AddFinalizer(ek, entry, v);
      if r.Err? {
        return;
      }
      seen := seen.(held := |c.stores| - 1);
    }
    JustifyNamespace(c.cfg, c.stores, v, ek, entry, seen.held);
    var made, at := c.CreateOrUpdate(NamespaceKey(ns), NamespacePatch(ek, entry.obj), EnvProvision(v, ek, seen.held));
    if made.Err? {
      return Err(made.why), seen;
    }
    NamespaceIs(c.cfg, ek, entry.obj, made.value.obj);
    seen := seen.(namespace := at);
    var failed := c.Fails(); // the baseline, a server-side apply of a fixed file
    if failed {
      return Err(Transient), seen;
    }
    ghost var stackAt;
    r, stackAt := EnsureStack(c, ek, entry, v, seen.held);
    seen := seen.(stack := stackAt);
  }

  lemma NamespaceIs(cfg: Config, ek: Key, env: Object, o: Object)
    requires env.Environment? && Carries(cfg, NamespacePatch(ek, env), o)
    ensures NamespaceFits(o, ek, env)
  {
  }

  function ProvisionedQ(cfg: Config, s: Store, ek: Key, entry: Entry): Outcome<()>
    requires entry.obj.Environment?
  {
    var env := entry.obj;
    var ns := NamespaceOf(ek, env);
    var held := if env.finalizer then s else Put(s, ek, env.(finalizer := true));
    var made := Apply(cfg, held, NamespaceKey(ns), NamespacePatch(ek, env));
    if made.result.Err? then Outcome(made.store, Err(made.result.why)) else StackedQ(cfg, made.store, ek, env)
  }

  /** Reconcile. A deleted Environment loses its finalizer only by a teardown that
      `why` justifies; another one is provisioned as `seen` says. */
  method Reconcile(c: ApiServer, ek: Key)
    returns (r: Result<()>, ghost why: Option<Reason>, ghost seen: Option<(nat, Seen)>)
    requires c.Valid() && ek.kind == EnvironmentKind
    modifies c`stores, c`events
    ensures c.Valid() && old(c.stores) <= c.stores && old(c.events) <= c.events
    ensures r.Ok? && why.Some? ==>
              TeardownJustified(c.stores, ek, why.value) && ek in c.Now().objs &&
              c.Now().objs[ek].obj.Environment? && !c.Now().objs[ek].obj.finalizer
    ensures r.Ok? && seen.Some? ==>
              var (v, at) := seen.value;
              HasEnvironment(c.stores, v, ek) && !c.stores[v].objs[ek].deleting &&
              ProvisionSeen(c.stores, ek, c.stores[v].objs[ek], at)
    ensures c.quiet ==>
              if ek !in old(c.Now()).objs then Outcome(c.Now(), r) == Outcome(old(c.Now()), Ok(()))
              else
                var entry := old(c.Now()).objs[ek];
                entry.obj.Environment? &&
                (if entry.deleting then
                   r.Ok? && (if entry.obj.finalizer then TornDown(old(c.Now()), c.Now(), ek, entry)
                             else c.Now() == old(c.Now()))
                 else Outcome(c.Now(), r) == ProvisionedQ(c.cfg, old(c.Now()), ek, entry))
  {
    hide IsStep, TornDown, ProvisionedQ, TeardownJustified, ProvisionSeen;
    why, seen := None, None;
    var got, v := c.Get(ek);
    if got.Failed? {
      return Err(Transient), why, seen;
    }
    if got.Missing? {
      return Ok(()), why, seen;
    }
    if !got.entry.deleting {
      ghost var at;
      r, at := Provision(c, ek, got.entry, v);
      seen := Some((v, at));
      return;
    }
    if !got.entry.obj.finalizer {
      return Ok(()), why, seen;
    }
    ghost var reason;
    r, reason := TearDown(c, ek, got.entry, v);
    why := Some(reason);
  }
}
