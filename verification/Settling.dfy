/** What one pass changes, and that a second look at its own work changes
    nothing: call by call and backing by backing. */
module Settling {
  import opened Wrappers
  import opened Names
  import opened Objects
  import opened Clusters
  import opened Snapshots
  import opened Volumes
  import opened Tiers

  // ------------------------------------------------------------- agreeing, advancing

  predicate SameAt(s: Store, t: Store, k: Key) {
    (k in s.objs <==> k in t.objs) && (k in s.objs ==> s.objs[k] == t.objs[k])
  }

  predicate AgreeOn(s: Store, t: Store, keys: set<Key>) {
    forall k | k in keys :: SameAt(s, t, k)
  }

  /** What no pass takes from an object: what the engines reported, what was
      decided at creation, finished work, a Stack's specification. */
  predicate Preserved(a: Object, b: Object) {
    KindOf(a) == KindOf(b) &&
    match a
    case StatefulSet(_, _, _, _, volume, readyReplicas) => b.volume == volume && b.readyReplicas == readyReplicas
    case Cluster(_, _, _, bootstrap, _, readyInstances, recoverable) =>
      b.bootstrap == bootstrap && b.readyInstances == readyInstances && b.recoverable == recoverable
    case BucketClaim(_, _, _, bound) => b.bound == bound
    case Snapshot(_, _, readyToUse, boundContent) => b.readyToUse == readyToUse && b.boundContent == boundContent
    case Content(_, driver, _, _, _, statusHandle) =>
      b.statusHandle == statusHandle && (driver != "" ==> b.driver != "") && (DriverNamed(a) ==> DriverNamed(b))
    case Deployment(_, _, _, _, readyPods) => b.readyPods == readyPods
    case Job(_, _, _, _) => b == a
    case ConfigMap(_) => b == a
    case Claim(backup, _) => backup ==> b == a
    case Stack(generation, cloneNs, cloneStack, spec, _) =>
      b.generation == generation && b.cloneNs == cloneNs && b.cloneStack == cloneStack && b.spec == spec
    case _ => true
  }

  /** A content that somebody labelled names its driver. */
  predicate DriverNamed(o: Object)
    requires o.Content?
  {
    o.contentOwner != "" ==> o.driver != ""
  }

  /** What no pass makes up. */
  predicate Blank(o: Object) {
    !o.ConfigMap? && !o.Stack? && !o.Claim? && (o.Cluster? ==> !o.recoverable) &&
    (o.Snapshot? ==> o.boundContent == "" && !o.readyToUse) &&
    (o.Content? ==> DriverNamed(o) && o.statusHandle == "")
  }

  /** `t` is `s` with work done under `keys`, and nothing taken away. */
  ghost predicate Advances(s: Store, t: Store, keys: set<Key>) {
    (forall k | k in s.objs :: k in t.objs && Preserved(s.objs[k].obj, t.objs[k].obj)) &&
    (forall k | k in t.objs && k !in s.objs :: Blank(t.objs[k].obj)) &&
    (forall k | k !in keys :: SameAt(s, t, k)) &&
    s.clock <= t.clock && (s.clock == t.clock ==> s == t)
  }

  lemma PreservedTwice(a: Object, b: Object, c: Object)
    requires Preserved(a, b) && Preserved(b, c)
    ensures Preserved(a, c)
  {
  }

  lemma BlankStays(a: Object, b: Object)
    requires Blank(a) && Preserved(a, b)
    ensures Blank(b)
  {
  }

  lemma AdvancesTwice(s: Store, t: Store, u: Store, keys: set<Key>, keys': set<Key>)
    requires Advances(s, t, keys) && Advances(t, u, keys')
    ensures Advances(s, u, keys + keys')
  {
    hide Preserved, Blank;
    forall k | k in s.objs ensures k in u.objs && Preserved(s.objs[k].obj, u.objs[k].obj) {
      PreservedTwice(s.objs[k].obj, t.objs[k].obj, u.objs[k].obj);
    }
    forall k | k in u.objs && k !in s.objs ensures Blank(u.objs[k].obj) {
      if k in t.objs {
        BlankStays(t.objs[k].obj, u.objs[k].obj);
      }
    }
    forall k | k !in keys + keys' ensures SameAt(s, u, k) {
      assert SameAt(s, t, k) && SameAt(t, u, k);
    }
  }

  lemma AdvancesMore(s: Store, t: Store, keys: set<Key>, keys': set<Key>)
    requires Advances(s, t, keys) && keys <= keys'
    ensures Advances(s, t, keys')
  {
    hide Preserved, Blank;
  }

  /** Outside the keys worked on, the stores agree. */
  lemma AgreeOutside(s: Store, t: Store, keys: set<Key>, other: set<Key>)
    requires Advances(s, t, keys) && keys !! other
    ensures AgreeOn(t, s, other)
  {
    hide Preserved, Blank;
  }

  lemma AgreeThrough(s: Store, t: Store, u: Store, keys: set<Key>)
    requires AgreeOn(u, t, keys) && AgreeOn(t, s, keys)
    ensures AgreeOn(u, s, keys)
  {
  }

  /** The stores of a sequence of steps, each working under its own keys. */
  ghost predicate Ladder(t: seq<Store>, keys: seq<set<Key>>) {
    |t| == |keys| + 1 && forall i | 0 <= i < |keys| :: Advances(t[i], t[i + 1], keys[i])
  }

  function Union(keys: seq<set<Key>>): set<Key> {
    if keys == [] then {} else Union(keys[..|keys| - 1]) + keys[|keys| - 1]
  }

  lemma {:induction false} InUnion(keys: seq<set<Key>>, k: Key)
    ensures k in Union(keys) <==> exists i | 0 <= i < |keys| :: k in keys[i]
  {
    if keys != [] {
      InUnion(keys[..|keys| - 1], k);
    }
  }

  lemma {:induction false} LadderAdvances(t: seq<Store>, keys: seq<set<Key>>, i: nat, j: nat)
    requires Ladder(t, keys) && i <= j <= |keys|
    ensures Advances(t[i], t[j], Union(keys[i..j]))
    decreases j
  {
    hide Advances;
    if i == j {
      StaysPut(t[i]);
    } else {
      LadderAdvances(t, keys, i, j - 1);
      AdvancesTwice(t[i], t[j - 1], t[j], Union(keys[i..j - 1]), keys[j - 1]);
      assert keys[i..j][..j - i - 1] == keys[i..j - 1];
    }
  }

  lemma StaysPut(s: Store)
    ensures Advances(s, s, {})
  {
  }

  /** What step `i` left under `other` is still so at the end. */
  lemma LadderAgrees(t: seq<Store>, keys: seq<set<Key>>, i: nat, other: set<Key>)
    requires Ladder(t, keys) && i <= |keys| && forall j | i <= j < |keys| :: keys[j] !! other
    ensures AgreeOn(t[|keys|], t[i], other)
  {
    hide Advances, AgreeOn;
    LadderAdvances(t, keys, i, |keys|);
    var rest := Union(keys[i..]);
    assert keys[i..|keys|] == keys[i..];
    forall k | k in rest ensures k !in other {
      InUnion(keys[i..], k);
    }
    AgreeOutside(t[i], t[|keys|], rest, other);
  }

  // ------------------------------------------------------------------------ one call

  /** Patches of a pass over a Stack. */
  predicate StackPatch(p: Patch) {
    !p.EnvNamespace? && !p.EnvStack? && (p.StaticContent? ==> p.driver != "")
  }

  predicate PasswordSafe(p: Patch) {
    p.TemplatedSecret? ==> "password" !in p.def.secretValues
  }

  lemma MutatePreserves(cfg: Config, p: Patch, base: Option<Object>)
    requires base.Some? ==> KindOf(base.value) == PatchKind(p)
    requires StackPatch(p) && Mutate(cfg, p, base).Ok?
    ensures base.Some? ==> Preserved(base.value, Mutate(cfg, p, base).value)
    ensures base.None? ==> Blank(Mutate(cfg, p, base).value)
    ensures KindOf(Mutate(cfg, p, base).value) == PatchKind(p)
  {
    hide Renders, SecretFinal, Ownable;
  }

  lemma ApplyAdvances(cfg: Config, s: Store, k: Key, p: Patch)
    requires Typed(s) && k.kind == PatchKind(p) && StackPatch(p)
    ensures Typed(Apply(cfg, s, k, p).store) && Advances(s, Apply(cfg, s, k, p).store, {k})
    ensures Apply(cfg, s, k, p).result.Ok? ==>
              k in Apply(cfg, s, k, p).store.objs &&
              Apply(cfg, s, k, p).result.value == Apply(cfg, s, k, p).store.objs[k] &&
              KindOf(Apply(cfg, s, k, p).result.value.obj) == k.kind
    ensures k in s.objs && Apply(cfg, s, k, p).result.Ok? ==>
              Preserved(s.objs[k].obj, Apply(cfg, s, k, p).result.value.obj)
  {
    hide Mutate, Blank, Preserved;
    StaysPut(s);
    AdvancesMore(s, s, {}, {k});
    if Mutate(cfg, p, Find(s, k)).Ok? {
      MutatePreserves(cfg, p, Find(s, k));
      PutAdvances(s, k, Mutate(cfg, p, Find(s, k)).value);
      if k in s.objs {
        Unharmed(s.objs[k].obj);
      }
    }
  }

  lemma Unharmed(o: Object)
    ensures Preserved(o, o)
  {
  }

  lemma PutAdvances(s: Store, k: Key, o: Object)
    requires Typed(s) && KindOf(o) == k.kind
    requires if k in s.objs then Preserved(s.objs[k].obj, o) else Blank(o)
    ensures Typed(Put(s, k, o)) && Advances(s, Put(s, k, o), {k})
  {
    hide Preserved, Blank, KindOf;
    forall l | l in s.objs ensures Preserved(s.objs[l].obj, Put(s, k, o).objs[l].obj) {
      Unharmed(s.objs[l].obj);
    }
  }

  /** The same patch, up to the fields written at creation only. */
  predicate SamePatch(p: Patch, p': Patch) {
    p == p' ||
    (p.BackingSet? && p'.BackingSet? &&
     p' == BackingSet(p.stack, p.labels, p.serviceName, p.container, p'.volume)) ||
    (p.PgCluster? && p'.PgCluster? && p' == PgCluster(p.stack, p.disk, p.image, p'.bootstrap, p.archive))
  }

  /** CreateOrUpdate a second time: no write, the same answer. */
  lemma ApplyAgain(cfg: Config, s: Store, k: Key, p: Patch, u: Store, p': Patch)
    requires Typed(s) && k.kind == PatchKind(p) && SamePatch(p, p') && PasswordSafe(p)
    requires Apply(cfg, s, k, p).result.Ok? && SameAt(u, Apply(cfg, s, k, p).store, k)
    ensures PatchKind(p') == k.kind
    ensures Apply(cfg, u, k, p') == Outcome(u, Apply(cfg, s, k, p).result)
  {
    hide Mutate, Carries;
    MutateSettles(cfg, p, Find(s, k));
    PatchTyped(cfg, p, Find(s, k));
    CreationFieldsIgnored(cfg, p, p', Mutate(cfg, p, Find(s, k)).value);
  }

  /** An object that is there keeps what was decided at its creation. */
  lemma CreationFieldsIgnored(cfg: Config, p: Patch, p': Patch, o: Object)
    requires KindOf(o) == PatchKind(p) && SamePatch(p, p')
    ensures PatchKind(p') == PatchKind(p) && Mutate(cfg, p', Some(o)) == Mutate(cfg, p, Some(o))
  {
    hide Renders, SecretFinal;
  }

  // --------------------------------------------------------------------- the clone

  function CloneKeys(st: Object, ns: string, b: string): set<Key>
    requires st.Stack?
  {
    {SourceKey(st, ns, b), ContentKey(CloneName(ns, b)), SnapshotKey(ns, RestoreName(b))}
  }

  /** The content of a clone is as that share makes it, and its restore snapshot
      is there and not ready. */
  predicate Linked(s: Store, ns: string, b: string, x: Share) {
    var k := ContentKey(CloneName(ns, b));
    k in s.objs && s.objs[k].obj.Content? &&
    s.objs[k].obj == Content(ns, x.driver, x.handle, ns, RestoreName(b), s.objs[k].obj.statusHandle) &&
    RestoreOf(s, ns, b) && !s.objs[SnapshotKey(ns, RestoreName(b))].obj.readyToUse
  }

  /** What a clone finds to share. */
  function Seen(s: Store, st: Object, ns: string, b: string): Option<Share>
    requires st.Stack?
  {
    if SourceBound(s, st, ns, b) then ShareOf(s, SourceContent(s, st, ns, b)) else None
  }

  /** A second look, in `u`, finds the same, or what is linked already. */
  predicate Rereads(s: Store, u: Store, st: Object, ns: string, b: string)
    requires st.Stack?
  {
    Seen(u, st, ns, b) == Seen(s, st, ns, b) ||
    (Seen(s, st, ns, b).None? && Linked(u, ns, b, Seen(u, st, ns, b).value))
  }

  /** Taking the source snapshot keeps its status; a new one is not ready. */
  lemma SourceMade(cfg: Config, s: Store, k: Key, p: Patch)
    requires Typed(s) && k.kind == SnapshotKind && p.SourceSnapshot?
    ensures var r := Apply(cfg, s, k, p);
            r.result.Ok? && r.result.value.obj.Snapshot? &&
            r.result.value.obj.readyToUse == (k in s.objs && s.objs[k].obj.readyToUse) &&
            r.result.value.obj.boundContent == (if k in s.objs then s.objs[k].obj.boundContent else "")
  {
  }

  lemma SourceIsNotRestore(st: Object, ns: string, b: string)
    requires st.Stack?
    ensures SourceKey(st, ns, b) != SnapshotKey(ns, RestoreName(b))
  {
    assert SourceKey(st, ns, b).name[0] == 'p' && RestoreName(b)[0] == 'c';
  }

  /** The first link, in the store it leaves. */
  lemma SourceTakes(cfg: Config, s: Store, st: Object, ns: string, b: string)
    requires Typed(s) && st.Stack?
    ensures var k := SourceKey(st, ns, b); var src := Apply(cfg, s, k, SourceSnapshot(ns, ClaimName(st.cloneStack, b)));
            src.result.Ok? && k in src.store.objs && src.result.value == src.store.objs[k] && Typed(src.store) &&
            Advances(s, src.store, {k}) && src.result.value.obj.Snapshot? &&
            (SourceBound(s, st, ns, b) <==>
               src.result.value.obj.readyToUse && src.result.value.obj.boundContent != "") &&
            (SourceBound(s, st, ns, b) ==> src.result.value.obj.boundContent == SourceContent(s, st, ns, b)) &&
            forall c :: ShareOf(src.store, c) == ShareOf(s, c)
  {
    hide Mutate, Blank, Preserved, Advances;
    var k, p := SourceKey(st, ns, b), SourceSnapshot(ns, ClaimName(st.cloneStack, b));
    ApplyAdvances(cfg, s, k, p);
    SourceMade(cfg, s, k, p);
  }

  /** The links a clone makes once it has something to share. */
  function LinkedStore(cfg: Config, s: Store, ns: string, b: string, x: Share): Outcome<Entry> {
    var content := Apply(cfg, s, ContentKey(CloneName(ns, b)), SharePatch(ns, b, x));
    Apply(cfg, content.store, SnapshotKey(ns, RestoreName(b)), RestoreSnapshot(ns, CloneName(ns, b)))
  }

  function AfterSource(cfg: Config, s: Store, st: Object, ns: string, b: string): Store
    requires st.Stack?
  {
    Apply(cfg, s, SourceKey(st, ns, b), SourceSnapshot(ns, ClaimName(st.cloneStack, b))).store
  }

  /** A clone, step by step: nothing after the source snapshot unless there is
      something to share. */
  lemma CloneIs(cfg: Config, s: Store, st: Object, ns: string, b: string)
    requires Typed(s) && st.Stack? && IsPreviewClone(st)
    ensures Seen(s, st, ns, b).None? ==>
      CloneRestore(cfg, s, st, ns, b) == Outcome(AfterSource(cfg, s, st, ns, b), Ok(NOT_YET))
    ensures Seen(s, st, ns, b).Some? ==>
              var r := LinkedStore(cfg, AfterSource(cfg, s, st, ns, b), ns, b, Seen(s, st, ns, b).value);
              r.result.Ok? && r.result.value.obj.Snapshot? &&
              CloneRestore(cfg, s, st, ns, b) ==
                Outcome(r.store, Ok(Restore(RestoreName(b), r.result.value.obj.readyToUse)))
  {
    hide Apply, Mutate, Blank, Preserved, Advances, SourceContent, SourceBound, ShareOf;
    SourceTakes(cfg, s, st, ns, b);
    var src := AfterSource(cfg, s, st, ns, b);
    if Seen(s, st, ns, b).Some? {
      var x := Seen(s, st, ns, b).value;
      ContentGoes(cfg, src, ContentKey(CloneName(ns, b)), SharePatch(ns, b, x));
      RestoreGoes(cfg, Apply(cfg, src, ContentKey(CloneName(ns, b)), SharePatch(ns, b, x)).store,
        SnapshotKey(ns, RestoreName(b)), RestoreSnapshot(ns, CloneName(ns, b)));
    }
  }

  lemma ContentGoes(cfg: Config, s: Store, k: Key, q: Patch)
    requires k.kind == ContentKind && q.StaticContent?
    ensures Apply(cfg, s, k, q).result.Ok?
  {
  }

  lemma RestoreGoes(cfg: Config, s: Store, k: Key, q: Patch)
    requires k.kind == SnapshotKind && q.RestoreSnapshot?
    ensures Apply(cfg, s, k, q).result.Ok? && Apply(cfg, s, k, q).result.value.obj.Snapshot?
  {
  }

  function LinkKeys(ns: string, b: string): set<Key> {
    {ContentKey(CloneName(ns, b)), SnapshotKey(ns, RestoreName(b))}
  }

  /** The content as the share makes it, its status kept; the restore snapshot,
      ready if it was. */
  predicate LinksMade(s: Store, t: Store, ns: string, b: string, x: Share) {
    var k, l := ContentKey(CloneName(ns, b)), SnapshotKey(ns, RestoreName(b));
    k in t.objs && t.objs[k].obj.Content? &&
    (k in s.objs ==> s.objs[k].obj.Content?) && (l in s.objs ==> s.objs[l].obj.Snapshot?) &&
    t.objs[k].obj == Content(ns, x.driver, x.handle, ns, RestoreName(b),
                               if k in s.objs then s.objs[k].obj.statusHandle else "") &&
    RestoreOf(t, ns, b) && t.objs[l].obj.readyToUse == (l in s.objs && s.objs[l].obj.readyToUse)
  }

  /** What linking leaves. */
  lemma LinksLeave(cfg: Config, s: Store, ns: string, b: string, x: Share)
    requires Typed(s) && x.driver != ""
    ensures var r := LinkedStore(cfg, s, ns, b, x); var l := SnapshotKey(ns, RestoreName(b));
            Typed(r.store) && Advances(s, r.store, LinkKeys(ns, b)) && LinksMade(s, r.store, ns, b, x) &&
            r.result.Ok? && l in r.store.objs && r.result.value == r.store.objs[l]
  {
    hide Apply, Blank, Preserved, Advances;
    var k, l := ContentKey(CloneName(ns, b)), SnapshotKey(ns, RestoreName(b));
    var p, q := SharePatch(ns, b, x), RestoreSnapshot(ns, CloneName(ns, b));
    ContentMade(cfg, s, k, p);
    var content := Apply(cfg, s, k, p).store;
    RestoreMade(cfg, content, l, ns, b);
    AdvancesTwice(s, content, Apply(cfg, content, l, q).store, {k}, {l});
    assert {k} + {l} == LinkKeys(ns, b);
    KeptAt(s, content, {k}, l);
    KeptAt(content, Apply(cfg, content, l, q).store, {l}, k);
  }

  lemma KeptAt(s: Store, t: Store, keys: set<Key>, k: Key)
    requires Advances(s, t, keys) && k !in keys
    ensures SameAt(s, t, k)
  {
    hide Preserved, Blank;
  }

  lemma ContentMade(cfg: Config, s: Store, k: Key, p: Patch)
    requires Typed(s) && k.kind == ContentKind && p.StaticContent? && p.driver != ""
    ensures var r := Apply(cfg, s, k, p);
            r.result.Ok? && Typed(r.store) && Advances(s, r.store, {k}) && k in r.store.objs &&
            r.store.objs[k].obj == Content(p.previewNs, p.driver, p.handle, p.previewNs, p.restore,
              if k in s.objs then s.objs[k].obj.statusHandle else "")
  {
    hide Advances;
    ApplyAdvances(cfg, s, k, p);
  }

  lemma RestoreMade(cfg: Config, s: Store, l: Key, ns: string, b: string)
    requires Typed(s) && l == SnapshotKey(ns, RestoreName(b))
    ensures var r := Apply(cfg, s, l, RestoreSnapshot(ns, CloneName(ns, b)));
            r.result.Ok? && Typed(r.store) && Advances(s, r.store, {l}) && RestoreOf(r.store, ns, b) &&
            r.result.value == r.store.objs[l] &&
            r.store.objs[l].obj.readyToUse == (l in s.objs && s.objs[l].obj.readyToUse)
  {
    hide Advances;
    ApplyAdvances(cfg, s, l, RestoreSnapshot(ns, CloneName(ns, b)));
  }

  /** Linking again writes nothing and answers the same. */
  lemma LinkAgain(cfg: Config, s: Store, ns: string, b: string, x: Share, u: Store)
    requires Typed(s) && x.driver != ""
    requires var t := LinkedStore(cfg, s, ns, b, x).store;
             SameAt(u, t, ContentKey(CloneName(ns, b))) && SameAt(u, t, SnapshotKey(ns, RestoreName(b)))
    ensures LinkedStore(cfg, u, ns, b, x) == Outcome(u, LinkedStore(cfg, s, ns, b, x).result)
  {
    hide Apply, Mutate, Blank, Preserved, Advances;
    var k, l := ContentKey(CloneName(ns, b)), SnapshotKey(ns, RestoreName(b));
    var p, q := SharePatch(ns, b, x), RestoreSnapshot(ns, CloneName(ns, b));
    ContentMade(cfg, s, k, p);
    var content := Apply(cfg, s, k, p).store;
    RestoreMade(cfg, content, l, ns, b);
    KeptAt(content, Apply(cfg, content, l, q).store, {l}, k);
    ApplyAgain(cfg, s, k, p, u, p);
    ApplyAgain(cfg, content, l, q, u, q);
  }

  /** Linking writes nothing exactly when the links are there already. */
  lemma LinkIdle(cfg: Config, u: Store, ns: string, b: string, x: Share)
    requires Typed(u) && x.driver != ""
    ensures LinkedStore(cfg, u, ns, b, x).store == u && !LinkedStore(cfg, u, ns, b, x).result.value.obj.readyToUse <==>
            Linked(u, ns, b, x)
    ensures LinkedStore(cfg, u, ns, b, x).result.Ok?
  {
    LinksLeave(cfg, u, ns, b, x);
    LinkedIdle(cfg, u, ns, b, x);
  }

  lemma LinkedIdle(cfg: Config, u: Store, ns: string, b: string, x: Share)
    ensures Linked(u, ns, b, x) ==> LinkedStore(cfg, u, ns, b, x).store == u
  {
  }

  lemma CloneAdvances(cfg: Config, s: Store, st: Object, ns: string, b: string)
    requires Typed(s) && st.Stack?
    ensures Typed(CloneRestore(cfg, s, st, ns, b).store)
    ensures Advances(s, CloneRestore(cfg, s, st, ns, b).store, CloneKeys(st, ns, b))
  {
    hide Apply, Blank, Preserved, Advances, Typed, SourceContent, SourceBound, SharedQ;
    StaysPut(s);
    AdvancesMore(s, s, {}, CloneKeys(st, ns, b));
    if IsPreviewClone(st) {
      CloneIs(cfg, s, st, ns, b);
      SourceTakes(cfg, s, st, ns, b);
      var src := AfterSource(cfg, s, st, ns, b);
      AdvancesMore(s, src, {SourceKey(st, ns, b)}, CloneKeys(st, ns, b));
      if Seen(s, st, ns, b).Some? {
        var x := Seen(s, st, ns, b).value;
        LinksLeave(cfg, src, ns, b, x);
        AdvancesTwice(s, src, LinkedStore(cfg, src, ns, b, x).store, {SourceKey(st, ns, b)}, LinkKeys(ns, b));
        assert {SourceKey(st, ns, b)} + LinkKeys(ns, b) == CloneKeys(st, ns, b);
      }
    }
  }

  /** The source snapshot taken again. */
  lemma SourceAgain(cfg: Config, s: Store, st: Object, ns: string, b: string, u: Store)
    requires Typed(s) && st.Stack? && SameAt(u, CloneRestore(cfg, s, st, ns, b).store, SourceKey(st, ns, b)) &&
             IsPreviewClone(st)
    ensures AfterSource(cfg, u, st, ns, b) == u
  {
    hide Apply, Blank, Preserved, Advances, SourceContent, SourceBound, Mutate;
    var k, p := SourceKey(st, ns, b), SourceSnapshot(ns, ClaimName(st.cloneStack, b));
    CloneIs(cfg, s, st, ns, b);
    SourceTakes(cfg, s, st, ns, b);
    var src := AfterSource(cfg, s, st, ns, b);
    if Seen(s, st, ns, b).Some? {
      var x := Seen(s, st, ns, b).value;
      LinksLeave(cfg, src, ns, b, x);
      SourceIsNotRestore(st, ns, b);
      KeptAt(src, LinkedStore(cfg, src, ns, b, x).store, LinkKeys(ns, b), k);
    }
    ApplyAgain(cfg, s, k, p, u, p);
  }

  /** A second look that finds the same to share finds every link as it was left. */
  lemma CloneAgain(cfg: Config, s: Store, st: Object, ns: string, b: string, u: Store)
    requires Typed(s) && Typed(u) && st.Stack? && Seen(u, st, ns, b) == Seen(s, st, ns, b)
    requires AgreeOn(u, CloneRestore(cfg, s, st, ns, b).store, CloneKeys(st, ns, b))
    ensures CloneRestore(cfg, u, st, ns, b) == Outcome(u, CloneRestore(cfg, s, st, ns, b).result)
  {
    hide Apply, Blank, Preserved, Advances, SourceContent, SourceBound, SharedQ, LinkedStore, AfterSource;
    if IsPreviewClone(st) {
      var t := CloneRestore(cfg, s, st, ns, b).store;
      AtKey(u, t, CloneKeys(st, ns, b), SourceKey(st, ns, b));
      AtKey(u, t, CloneKeys(st, ns, b), ContentKey(CloneName(ns, b)));
      AtKey(u, t, CloneKeys(st, ns, b), SnapshotKey(ns, RestoreName(b)));
      CloneIs(cfg, s, st, ns, b);
      CloneIs(cfg, u, st, ns, b);
      SourceAgain(cfg, s, st, ns, b, u);
      if Seen(s, st, ns, b).Some? {
        SourceTypes(cfg, s, st, ns, b);
        LinkAgain(cfg, AfterSource(cfg, s, st, ns, b), ns, b, Seen(s, st, ns, b).value, u);
      }
    }
  }

  lemma SourceTypes(cfg: Config, s: Store, st: Object, ns: string, b: string)
    requires Typed(s) && st.Stack?
    ensures Typed(AfterSource(cfg, s, st, ns, b)) && s.clock <= AfterSource(cfg, s, st, ns, b).clock
    ensures s.clock == AfterSource(cfg, s, st, ns, b).clock ==> s == AfterSource(cfg, s, st, ns, b)
  {
    hide Apply, Mutate;
    SourceTakes(cfg, s, st, ns, b);
  }

  lemma CloneKeysHave(st: Object, ns: string, b: string)
    requires st.Stack?
    ensures SourceKey(st, ns, b) in CloneKeys(st, ns, b) && ContentKey(CloneName(ns, b)) in CloneKeys(st, ns, b)
    ensures SnapshotKey(ns, RestoreName(b)) in CloneKeys(st, ns, b)
  {
  }

  /** What seeding may write: nothing outside a preview. */
  function SeedKeys(sk: Key, st: Object, b: string): set<Key>
    requires st.Stack?
  {
    if IsPreviewClone(st) then CloneKeys(st, sk.ns, b) else {}
  }

  lemma SeedingAdvances(cfg: Config, s: Store, sk: Key, st: Object, b: string)
    requires Typed(s) && st.Stack?
    ensures Typed(Seeding(cfg, s, sk, st, b).store)
    ensures Advances(s, Seeding(cfg, s, sk, st, b).store, SeedKeys(sk, st, b))
  {
    hide CloneRestore, Advances, Typed, CloneKeys;
    CloneAdvances(cfg, s, st, sk.ns, b);
    StaysPut(s);
    AdvancesMore(s, s, {}, SeedKeys(sk, st, b));
  }

  /** A clone that waits still waits at a second look, and writes nothing, exactly
      when that look finds the same to share, or what is linked already. */
  lemma WaitsAgain(cfg: Config, s: Store, sk: Key, st: Object, b: string, u: Store)
    requires Typed(s) && Typed(u) && st.Stack? && Seeding(cfg, s, sk, st, b).result == Ok(Wait)
    requires SetKey(sk.ns, BackingName(sk.name, b)) !in u.objs
    requires AgreeOn(u, Seeding(cfg, s, sk, st, b).store, SeedKeys(sk, st, b))
    requires Seen(s, st, sk.ns, b).Some? ==> Seen(u, st, sk.ns, b).Some?
    ensures Seeding(cfg, u, sk, st, b) == Outcome(u, Ok(Wait)) <==> Rereads(s, u, st, sk.ns, b)
  {
    hide Apply, Blank, Preserved, Advances, SourceContent, SourceBound, SharedQ, LinkedStore, AfterSource,
         Linked, CloneKeys;
    var ns := sk.ns;
    if Seen(u, st, ns, b) == Seen(s, st, ns, b) {
      CloneAgain(cfg, s, st, ns, b, u);
    } else {
      CloneKeysHave(st, ns, b);
      AtKey(u, CloneRestore(cfg, s, st, ns, b).store, CloneKeys(st, ns, b), SourceKey(st, ns, b));
      AtKey(u, CloneRestore(cfg, s, st, ns, b).store, CloneKeys(st, ns, b), ContentKey(CloneName(ns, b)));
      SourceAgain(cfg, s, st, ns, b, u);
      CloneIs(cfg, u, st, ns, b);
      var y := Seen(u, st, ns, b).value;
      LinkIdle(cfg, u, ns, b, y);
      if Seen(s, st, ns, b).Some? {
        CloneIs(cfg, s, st, ns, b);
        SourceTypes(cfg, s, st, ns, b);
        LinksLeave(cfg, AfterSource(cfg, s, st, ns, b), ns, b, Seen(s, st, ns, b).value);
        OtherShare(u, ns, b, Seen(s, st, ns, b).value, y);
      }
    }
  }

  lemma OtherShare(u: Store, ns: string, b: string, x: Share, y: Share)
    requires x != y
    requires var k := ContentKey(CloneName(ns, b));
             k in u.objs && u.objs[k].obj.Content? && u.objs[k].obj.driver == x.driver &&
             u.objs[k].obj.handle == x.handle
    ensures !Linked(u, ns, b, y)
  {
  }

  // ---------------------------------------------------------------- the StatefulSet

  lemma LabelAdvances(s: Store, ns: string, stack: string, backing: string)
    requires Typed(s)
    ensures Typed(BackupLabelled(s, ns, stack, backing))
    ensures Advances(s, BackupLabelled(s, ns, stack, backing), {ClaimKey(ns, stack, backing)})
    ensures forall u :: SameAt(u, BackupLabelled(s, ns, stack, backing), ClaimKey(ns, stack, backing)) ==>
                          BackupLabelled(u, ns, stack, backing) == u
  {
  }

  function SetKeys(sk: Key, b: BackingSpec): set<Key> {
    {SetKey(sk.ns, NameOf(sk, b)), ClaimKey(sk.ns, sk.name, b.name)}
  }

  lemma SetUpAdvances(cfg: Config, s: Store, sk: Key, b: BackingSpec, p: Patch, labelled: bool)
    requires Typed(s) && p.BackingSet?
    ensures Typed(SetUpQ(cfg, s, sk, b, p, labelled).store)
    ensures Advances(s, SetUpQ(cfg, s, sk, b, p, labelled).store, SetKeys(sk, b))
  {
    hide Apply, BackupLabelled, Advances, Typed;
    var k := SetKey(sk.ns, NameOf(sk, b));
    ApplyAdvances(cfg, s, k, p);
    var ss := Apply(cfg, s, k, p);
    LabelAdvances(ss.store, sk.ns, sk.name, b.name);
    AdvancesTwice(s, ss.store, BackupLabelled(ss.store, sk.ns, sk.name, b.name), {k},
                  {ClaimKey(sk.ns, sk.name, b.name)});
    AdvancesMore(s, ss.store, {k}, SetKeys(sk, b));
    assert {k} + {ClaimKey(sk.ns, sk.name, b.name)} == SetKeys(sk, b);
  }

  lemma SetUpAgain(cfg: Config, s: Store, sk: Key, b: BackingSpec, p: Patch, labelled: bool, u: Store, p': Patch)
    requires Typed(s) && p.BackingSet? && p'.BackingSet? && SamePatch(p, p')
    requires SetUpQ(cfg, s, sk, b, p, labelled).result.Ok?
    requires AgreeOn(u, SetUpQ(cfg, s, sk, b, p, labelled).store, SetKeys(sk, b))
    ensures SetKey(sk.ns, NameOf(sk, b)) in u.objs
    ensures SetUpQ(cfg, u, sk, b, p', labelled) == Outcome(u, SetUpQ(cfg, s, sk, b, p, labelled).result)
  {
    hide Apply, BackupLabelled, Preserved, Blank;
    var k := SetKey(sk.ns, NameOf(sk, b));
    var ss := Apply(cfg, s, k, p);
    var t := SetUpQ(cfg, s, sk, b, p, labelled).store;
    ApplyAdvances(cfg, s, k, p);
    LabelAdvances(ss.store, sk.ns, sk.name, b.name);
    assert SameAt(ss.store, t, k);
    assert SameAt(u, t, k) && SameAt(u, t, ClaimKey(sk.ns, sk.name, b.name));
    ApplyAgain(cfg, s, k, p, u, p');
  }

  /** Once the StatefulSet is there, seeding is settled. */
  lemma SeedingSettled(cfg: Config, u: Store, sk: Key, st: Object, b: string)
    requires st.Stack? && SetKey(sk.ns, BackingName(sk.name, b)) in u.objs
    ensures Seeding(cfg, u, sk, st, b) == Outcome(u, Ok(Fresh))
  {
  }

  // ---------------------------------------------------------------------- templates

  function EndpointKeys(sk: Key, b: BackingSpec): set<Key> {
    {SecretKey(sk.ns, NameOf(sk, b)), ServiceKey(sk.ns, NameOf(sk, b))}
  }

  lemma EndpointAdvances(cfg: Config, s: Store, sk: Key, b: BackingSpec, p: Patch, q: Patch)
    requires Typed(s) && PatchKind(p) == SecretKind && PatchKind(q) == ServiceKind && StackPatch(p) && StackPatch(q)
    ensures var sec := Apply(cfg, s, SecretKey(sk.ns, NameOf(sk, b)), p);
            var svc := Apply(cfg, sec.store, ServiceKey(sk.ns, NameOf(sk, b)), q);
            Typed(sec.store) && Typed(svc.store) && Advances(s, sec.store, EndpointKeys(sk, b)) &&
            Advances(s, svc.store, EndpointKeys(sk, b))
  {
    hide Apply, Advances, Typed;
    var k, l := SecretKey(sk.ns, NameOf(sk, b)), ServiceKey(sk.ns, NameOf(sk, b));
    ApplyAdvances(cfg, s, k, p);
    var sec := Apply(cfg, s, k, p);
    ApplyAdvances(cfg, sec.store, l, q);
    AdvancesMore(s, sec.store, {k}, EndpointKeys(sk, b));
    AdvancesTwice(s, sec.store, Apply(cfg, sec.store, l, q).store, {k}, {l});
    assert {k} + {l} == EndpointKeys(sk, b);
  }

  lemma EndpointAgain(cfg: Config, s: Store, sk: Key, b: BackingSpec, p: Patch, q: Patch, u: Store)
    requires Typed(s) && PatchKind(p) == SecretKind && PatchKind(q) == ServiceKind && StackPatch(p) && StackPatch(q)
    requires PasswordSafe(p) && PasswordSafe(q)
    requires var sec := Apply(cfg, s, SecretKey(sk.ns, NameOf(sk, b)), p);
             var svc := Apply(cfg, sec.store, ServiceKey(sk.ns, NameOf(sk, b)), q);
             sec.result.Ok? && svc.result.Ok? && AgreeOn(u, svc.store, EndpointKeys(sk, b))
    ensures var sec := Apply(cfg, s, SecretKey(sk.ns, NameOf(sk, b)), p);
            var svc := Apply(cfg, sec.store, ServiceKey(sk.ns, NameOf(sk, b)), q);
            Apply(cfg, u, SecretKey(sk.ns, NameOf(sk, b)), p) == Outcome(u, sec.result) &&
            Apply(cfg, u, ServiceKey(sk.ns, NameOf(sk, b)), q) == Outcome(u, svc.result)
  {
    hide Apply, Preserved, Blank;
    var k, l := SecretKey(sk.ns, NameOf(sk, b)), ServiceKey(sk.ns, NameOf(sk, b));
    var sec := Apply(cfg, s, k, p);
    var svc := Apply(cfg, sec.store, l, q);
    ApplyAdvances(cfg, s, k, p);
    ApplyAdvances(cfg, sec.store, l, q);
    assert SameAt(sec.store, svc.store, k);
    assert SameAt(u, svc.store, k) && SameAt(u, svc.store, l);
    ApplyAgain(cfg, s, k, p, u, p);
    ApplyAgain(cfg, sec.store, l, q, u, q);
  }

  /** Every key a template or fallback backing may write. */
  function SetTierKeys(sk: Key, st: Object, b: BackingSpec, persistent: bool): set<Key>
    requires st.Stack?
  {
    EndpointKeys(sk, b) + SetKeys(sk, b) + (if persistent then SeedKeys(sk, st, b.name) else {})
  }

  /** The shape reconcileTemplated and reconcileFallback share. */
  function SetTierQ(cfg: Config, s: Store, sk: Key, st: Object, b: BackingSpec, secret: Patch, service: Patch,
                    persistent: bool, claim: Seed -> Patch, labelled: bool): Outcome<Provisioned>
    requires st.Stack? && PatchKind(secret) == SecretKind && PatchKind(service) == ServiceKind
    requires forall seed :: claim(seed).BackingSet?
  {
    var sec := Apply(cfg, s, SecretKey(sk.ns, NameOf(sk, b)), secret);
    if sec.result.Err? then Outcome(sec.store, Err(sec.result.why))
    else
      var svc := Apply(cfg, sec.store, ServiceKey(sk.ns, NameOf(sk, b)), service);
      if svc.result.Err? then Outcome(svc.store, Err(svc.result.why))
      else
        var seed := if persistent then Seeding(cfg, svc.store, sk, st, b.name) else Outcome(svc.store, Ok(Fresh));
        if seed.result.Err? then Outcome(seed.store, Err(seed.result.why))
        else if seed.result.value.Wait? then Outcome(seed.store, Ok(Provisioned(false, NameOf(sk, b), true)))
        else SetUpQ(cfg, seed.store, sk, b, claim(seed.result.value), labelled)
  }

  lemma SetTierAdvances(cfg: Config, s: Store, sk: Key, st: Object, b: BackingSpec, secret: Patch, service: Patch,
                        persistent: bool, claim: Seed -> Patch, labelled: bool)
    requires Typed(s) && st.Stack? && PatchKind(secret) == SecretKind && PatchKind(service) == ServiceKind
    requires forall seed :: claim(seed).BackingSet?
    ensures var t := SetTierQ(cfg, s, sk, st, b, secret, service, persistent, claim, labelled).store;
            Typed(t) && Advances(s, t, SetTierKeys(sk, st, b, persistent))
  {
    hide Apply, Advances, Typed, Seeding, SetUpQ, Preserved, Blank, SetKeys, EndpointKeys, SeedKeys;
    var keys, seeds := SetTierKeys(sk, st, b, persistent), if persistent then SeedKeys(sk, st, b.name) else {};
    var sec := Apply(cfg, s, SecretKey(sk.ns, NameOf(sk, b)), secret);
    var svc := Apply(cfg, sec.store, ServiceKey(sk.ns, NameOf(sk, b)), service);
    EndpointAdvances(cfg, s, sk, b, secret, service);
    AdvancesMore(s, sec.store, EndpointKeys(sk, b), keys);
    AdvancesMore(s, svc.store, EndpointKeys(sk, b), keys);
    var seed := if persistent then Seeding(cfg, svc.store, sk, st, b.name) else Outcome(svc.store, Ok(Fresh));
    SeedingAdvances(cfg, svc.store, sk, st, b.name);
    StaysPut(svc.store);
    AdvancesTwice(s, svc.store, seed.store, EndpointKeys(sk, b), seeds);
    AdvancesMore(s, seed.store, EndpointKeys(sk, b) + seeds, keys);
    if seed.result.Ok? {
      var up := SetUpQ(cfg, seed.store, sk, b, claim(seed.result.value), labelled);
      SetUpAdvances(cfg, seed.store, sk, b, claim(seed.result.value), labelled);
      AdvancesTwice(s, seed.store, up.store, keys, SetKeys(sk, b));
      assert keys + SetKeys(sk, b) == keys;
    }
  }

  /** The keys of the three parts of a set tier are of different kinds. */
  lemma TierKeysApart(sk: Key, st: Object, b: BackingSpec)
    requires st.Stack?
    ensures EndpointKeys(sk, b) !! SeedKeys(sk, st, b.name)
    ensures SetKeys(sk, b) !! EndpointKeys(sk, b) && SetKeys(sk, b) !! SeedKeys(sk, st, b.name)
    ensures SourceKey(st, sk.ns, b.name) !in EndpointKeys(sk, b)
    ensures SetKey(sk.ns, NameOf(sk, b)) !in SeedKeys(sk, st, b.name) + EndpointKeys(sk, b)
    ensures SetKey(sk.ns, NameOf(sk, b)) in SetKeys(sk, b)
  {
  }

  /** What a second look at a clone that still waits has to find. */
  predicate SeedRereads(s: Store, u: Store, sk: Key, st: Object, b: BackingSpec, persistent: bool)
    requires st.Stack?
  {
    persistent && IsPreviewClone(st) && SetKey(sk.ns, NameOf(sk, b)) !in u.objs ==> Rereads(s, u, st, sk.ns, b.name)
  }

  /** The call succeeds and writes nothing. */
  predicate Idle<T>(o: Outcome<T>, u: Store) { o.result.Ok? && o.store == u }

  /** A second look at the whole tier is idle exactly when its clone rereads, and
      then answers the same. */
  lemma SetTierAgain(cfg: Config, s: Store, sk: Key, st: Object, b: BackingSpec, secret: Patch, service: Patch,
                     persistent: bool, claim: Seed -> Patch, labelled: bool, u: Store)
    requires Typed(s) && Typed(u) && st.Stack? && PatchKind(secret) == SecretKind && PatchKind(service) == ServiceKind
    requires PasswordSafe(secret)
    requires (forall seed :: claim(seed).BackingSet?) && (forall seed :: SamePatch(claim(seed), claim(Fresh)))
    requires var t := SetTierQ(cfg, s, sk, st, b, secret, service, persistent, claim, labelled);
             t.result.Ok? && AgreeOn(u, t.store, SetTierKeys(sk, st, b, persistent))
    requires Seen(s, st, sk.ns, b.name).Some? ==> Seen(u, st, sk.ns, b.name).Some?
    ensures Idle(SetTierQ(cfg, u, sk, st, b, secret, service, persistent, claim, labelled), u) <==>
            SeedRereads(s, u, sk, st, b, persistent)
    ensures SeedRereads(s, u, sk, st, b, persistent) ==>
              SetTierQ(cfg, u, sk, st, b, secret, service, persistent, claim, labelled) ==
              Outcome(u, SetTierQ(cfg, s, sk, st, b, secret, service, persistent, claim, labelled).result)
  {
    hide Apply, Typed, Advances, AgreeOn, SameAt, Seeding, SetUpQ, Preserved, Blank, SetKeys, EndpointKeys, SeedKeys,
      SamePatch, Seen, Rereads;
    TierKeysApart(sk, st, b);
    var k, keys := SetKey(sk.ns, NameOf(sk, b)), SetTierKeys(sk, st, b, persistent);
    var seeds := if persistent then SeedKeys(sk, st, b.name) else {};
    var t := SetTierQ(cfg, s, sk, st, b, secret, service, persistent, claim, labelled);
    var sec := Apply(cfg, s, SecretKey(sk.ns, NameOf(sk, b)), secret);
    var svc := Apply(cfg, sec.store, ServiceKey(sk.ns, NameOf(sk, b)), service);
    EndpointAdvances(cfg, s, sk, b, secret, service);
    var seed := if persistent then Seeding(cfg, svc.store, sk, st, b.name) else Outcome(svc.store, Ok(Fresh));
    SeedingAdvances(cfg, svc.store, sk, st, b.name);
    StaysPut(svc.store);
    Narrow(u, t.store, keys, EndpointKeys(sk, b));
    Narrow(u, t.store, keys, SetKeys(sk, b));
    Narrow(u, t.store, keys, seeds);
    AgreeOutside(svc.store, seed.store, seeds, EndpointKeys(sk, b));
    SeenKept(s, svc.store, sk, st, b);
    if seed.result.value.Wait? {
      AgreeThrough(svc.store, seed.store, u, EndpointKeys(sk, b));
      EndpointAgain(cfg, s, sk, b, secret, service, u);
      AgreeOutside(svc.store, seed.store, seeds, {k});
      AtKey(u, seed.store, SetKeys(sk, b), k);
      AtKey(seed.store, svc.store, {k}, k);
      SameTwice(u, seed.store, svc.store, k);
      SeedAgain(cfg, svc.store, sk, st, b, claim, labelled, u);
      RereadsKept(s, svc.store, u, sk, st, b);
    } else {
      var p := claim(seed.result.value);
      SetUpAdvances(cfg, seed.store, sk, b, p, labelled);
      AgreeOutside(seed.store, t.store, SetKeys(sk, b), EndpointKeys(sk, b));
      AgreeThrough(seed.store, t.store, u, EndpointKeys(sk, b));
      AgreeThrough(svc.store, seed.store, u, EndpointKeys(sk, b));
      EndpointAgain(cfg, s, sk, b, secret, service, u);
      SetUpAgain(cfg, seed.store, sk, b, p, labelled, u, claim(Fresh));
      SeedingSettled(cfg, u, sk, st, b.name);
    }
  }

  /** The waiting half of that. */
  lemma SeedAgain(cfg: Config, s: Store, sk: Key, st: Object, b: BackingSpec, claim: Seed -> Patch, labelled: bool,
        u: Store)
    requires Typed(s) && Typed(u) && st.Stack? && Seeding(cfg, s, sk, st, b.name).result == Ok(Wait)
    requires forall seed :: claim(seed).BackingSet?
    requires SameAt(u, s, SetKey(sk.ns, NameOf(sk, b)))
    requires AgreeOn(u, Seeding(cfg, s, sk, st, b.name).store, SeedKeys(sk, st, b.name))
    requires Seen(s, st, sk.ns, b.name).Some? ==> Seen(u, st, sk.ns, b.name).Some?
    ensures IsPreviewClone(st) && SetKey(sk.ns, NameOf(sk, b)) !in u.objs
    ensures Seeding(cfg, u, sk, st, b.name) == Outcome(u, Ok(Wait)) <==> Rereads(s, u, st, sk.ns, b.name)
    ensures var again := Seeding(cfg, u, sk, st, b.name);
            again.result.Ok? && !again.result.value.Wait? ==>
              !Idle(SetUpQ(cfg, again.store, sk, b, claim(again.result.value), labelled), u)
  {
    hide Apply, Typed, Advances, AgreeOn, Seeding, SetUpQ, SeedKeys, Rereads, Seen;
    SeedWaits(cfg, s, sk, st, b);
    WaitsAgain(cfg, s, sk, st, b.name, u);
    var again := Seeding(cfg, u, sk, st, b.name);
    SeedingAdvances(cfg, u, sk, st, b.name);
    if again.result.Ok? && !again.result.value.Wait? &&
      SetUpQ(cfg, again.store, sk, b, claim(again.result.value), labelled).result.Ok?
    {
      SetUpMakes(cfg, again.store, sk, b, claim(again.result.value), labelled);
    }
  }

  lemma SetUpMakes(cfg: Config, s: Store, sk: Key, b: BackingSpec, p: Patch, labelled: bool)
    requires Typed(s) && p.BackingSet? && SetUpQ(cfg, s, sk, b, p, labelled).result.Ok?
    ensures SetKey(sk.ns, NameOf(sk, b)) in SetUpQ(cfg, s, sk, b, p, labelled).store.objs
  {
    hide Apply, Preserved;
    ApplyAdvances(cfg, s, SetKey(sk.ns, NameOf(sk, b)), p);
  }

  lemma SeedWaits(cfg: Config, s: Store, sk: Key, st: Object, b: BackingSpec)
    requires st.Stack? && Seeding(cfg, s, sk, st, b.name).result == Ok(Wait)
    ensures IsPreviewClone(st) && SetKey(sk.ns, NameOf(sk, b)) !in s.objs
  {
    hide CloneRestore;
  }

  /** The endpoint writes no snapshot and no content. */
  lemma SeenKept(s: Store, t: Store, sk: Key, st: Object, b: BackingSpec)
    requires st.Stack? && Advances(s, t, EndpointKeys(sk, b))
    ensures Seen(t, st, sk.ns, b.name) == Seen(s, st, sk.ns, b.name)
  {
    hide Preserved, Blank;
    KeptAt(s, t, EndpointKeys(sk, b), SourceKey(st, sk.ns, b.name));
    KeptAt(s, t, EndpointKeys(sk, b), ContentKey(SourceContent(s, st, sk.ns, b.name)));
  }

  lemma RereadsKept(s: Store, t: Store, u: Store, sk: Key, st: Object, b: BackingSpec)
    requires st.Stack? && Seen(t, st, sk.ns, b.name) == Seen(s, st, sk.ns, b.name)
    ensures Rereads(s, u, st, sk.ns, b.name) == Rereads(t, u, st, sk.ns, b.name)
  {
  }

  lemma Narrow(s: Store, t: Store, keys: set<Key>, keys': set<Key>)
    requires AgreeOn(s, t, keys) && keys' <= keys
    ensures AgreeOn(s, t, keys')
  {
  }

  lemma AtKey(s: Store, t: Store, keys: set<Key>, k: Key)
    requires AgreeOn(s, t, keys) && k in keys
    ensures SameAt(s, t, k)
  {
  }

  lemma SameTwice(s: Store, t: Store, u: Store, k: Key)
    requires SameAt(s, t, k) && SameAt(t, u, k)
    ensures SameAt(s, u, k)
  {
  }

  lemma TemplatedIsTier(cfg: Config, s: Store, sk: Key, st: Object, b: BackingSpec, def: ServiceDefinition)
    requires st.Stack? && ImageOf(cfg, b, def).Ok?
    ensures TemplatedQ(cfg, s, sk, st, b, def) ==
            SetTierQ(cfg, s, sk, st, b, SecretPatch(cfg, sk, b, def),
                     EndpointPatch(sk, b, OrDefault(def.portName, def.kind), def.port),
              def.persistence.Some?, seed => TemplateSetPatch(sk, b, def, ImageOf(cfg, b, def).value, seed),
              def.persistence.Some? && b.backup && !IsPreviewClone(st))
  {
    hide Apply, Seeding, SetUpQ;
  }

  lemma FallbackIsTier(cfg: Config, s: Store, sk: Key, st: Object, b: BackingSpec)
    requires st.Stack? && b.port != 0
    ensures FallbackQ(cfg, s, sk, st, b) ==
            SetTierQ(cfg, s, sk, st, b, AddressPatch(sk, b),
              EndpointPatch(sk, b, "svc", b.port), true, seed => FallbackSetPatch(cfg, sk, b, seed),
              b.backup && !IsPreviewClone(st))
  {
    hide Apply, Seeding, SetUpQ;
  }
}
