/** Two clones of a preview, the source snapshot of the one bound to the static
    content that the other writes. */
module CrossClones {
  import opened Wrappers
  import opened Names
  import opened Objects
  import opened Clusters
  import opened Snapshots
  import opened Catalogs
  import opened Reconcilers
  import opened Sharing
  import opened Passes
  import opened PlainNames
  import opened Liveness

  /** The first clone is bound to the content of the second, which names driver `d`;
      the second to a content of the parent's, with driver `e`; both go on waiting. */
  predicate CrossBound(cat: Catalog, s: Store, sk: Key, st: Object, content: string, d: string, e: string)
    requires st.Stack?
  {
    |st.spec.backing| == 2 &&
    (var a, b := st.spec.backing[0], st.spec.backing[1];
     a.name != b.name && Clones(cat, s, sk, st, a) && Clones(cat, s, sk, st, b) &&
     BoundTo(s, st, sk.ns, a.name, CloneName(sk.ns, b.name), d) && BoundTo(s, st, sk.ns, b.name, content, e) &&
     content != CloneName(sk.ns, a.name) && content != CloneName(sk.ns, b.name) &&
     !IsReady(s, SnapshotKey(sk.ns, RestoreName(a.name))) && !IsReady(s, SnapshotKey(sk.ns, RestoreName(b.name))))
  }

  /** The source snapshot of a clone is ready and bound to a content of that driver. */
  predicate BoundTo(s: Store, st: Object, ns: string, b: string, content: string, driver: string)
    requires st.Stack?
  {
    SourceBound(s, st, ns, b) && SourceContent(s, st, ns, b) == content &&
    ShareOf(s, content).Some? && ShareOf(s, content).value.driver == driver
  }

  lemma CrossBoundSettles(cat: Catalog, s: Store, sk: Key, st: Object, content: string, d: string, e: string)
    requires st.Stack? && CrossBound(cat, s, sk, st, content, d, e)
    ensures ClonesSettle(cat, s, sk, st) <==> d == e
  {
    hide Clones, SourceBound, SourceContent, CloneName, RestoreName, IsReady;
    var a, b := st.spec.backing[0].name, st.spec.backing[1].name;
    var c := CloneName(sk.ns, b);
    CloneNamesApart(sk.ns, a, b);
    assert Found(cat, s, sk, st, 0) == ShareOf(s, c);
    assert Offers(cat, s, sk, st, 1, content) == ShareOf(s, content) && Found(cat, s, sk, st, 1) == ShareOf(s, content);
    assert FoundAfter(cat, s, sk, st, 0) == Some(Share(e, ShareOf(s, c).value.handle));
    assert FoundAfter(cat, s, sk, st, 1) == ShareOf(s, content);
    assert StillWaits(cat, s, sk, st, 0) && CloneSettles(cat, s, sk, st, 1);
  }

  /** Such a preview is idempotent exactly when the two drivers are the same. */
  lemma CrossBoundClones(cfg: Config, cat: Catalog, s: Store, sk: Key, content: string, d: string, e: string, t: Store,
        r: bool)
    requires Typed(s) && sk.kind == StackKind && sk in s.objs && s.objs[sk].obj.Stack?
    requires ChildrenApart(cat, sk, s.objs[sk].obj) && SafeDefs(cat, s.objs[sk].obj)
    requires CrossBound(cat, s, sk, s.objs[sk].obj, content, d, e) && ReconcileQ(cfg, cat, s, sk) == Outcome(t, Ok(r))
    ensures ReconcileQ(cfg, cat, t, sk) == Outcome(t, Ok(r)) <==> d == e
  {
    hide Typed, ReconcileQ, CrossBound, ChildrenApart, SafeDefs, ClonesSettle;
    assert Find(s, sk).Some?;
    CrossBoundSettles(cat, s, sk, s.objs[sk].obj, content, d, e);
    PassTwice(cfg, cat, s, sk, t, r);
  }

  // ---------------------------------------------------------------------- such a store

  const SK := Key(StackKind, "proj-shop-pr", "pr")

  const A := BackingSpec("a", "queue", "", "", "queue:1", 4222, false)

  const B := BackingSpec("b", "queue", "", "", "queue:1", 4222, false)

  const PREVIEW := Stack(1, "proj-shop-dev", "dev", StackSpec([], [A, B]), EMPTY_STATUS)

  const BOUND := "snapcontent-b"

  function Crossed(d: string, e: string): Store {
    Store(map[
      SK := Entry(1, 1, false, PREVIEW),
      SourceKey(PREVIEW, SK.ns, "a") :=
        Entry(2, 2, false, Snapshot(SK.ns, FromClaim(ClaimName("dev", "a")), true, CloneName(SK.ns, "b"))),
      SourceKey(PREVIEW, SK.ns, "b") :=
        Entry(3, 3, false, Snapshot(SK.ns, FromClaim(ClaimName("dev", "b")), true, BOUND)),
      ContentKey(CloneName(SK.ns, "b")) := Entry(4, 4, false, Content("", d, "", "", "", "first")),
      ContentKey(BOUND) := Entry(5, 5, false, Content("", e, "", "", "", "second"))], 5)
  }

  lemma CrossedNames()
    ensures CloneName(SK.ns, "a") != CloneName(SK.ns, "b") && BOUND != CloneName(SK.ns, "a") &&
            BOUND != CloneName(SK.ns, "b")
    ensures CloneName(SK.ns, "b") != ""
    ensures SourceKey(PREVIEW, SK.ns, "a") != SourceKey(PREVIEW, SK.ns, "b")
    ensures forall b :: SourceKey(PREVIEW, SK.ns, "a") != SnapshotKey(SK.ns, RestoreName(b))
    ensures forall b :: SourceKey(PREVIEW, SK.ns, "b") != SnapshotKey(SK.ns, RestoreName(b))
    ensures !IsPostgres("queue") && !IsObjectStore("queue")
  {
    CloneNamesApart(SK.ns, "a", "b");
    assert BOUND[0] == 's' && CloneName(SK.ns, "a")[0] == 'p' && CloneName(SK.ns, "b")[0] == 'p';
    assert Lower("queue")[0] == 'q';
    assert "postgres"[0] == 'p' && "postgresql"[0] == 'p' && "object"[0] == 'o' && "s3"[0] == 's';
  }

  lemma CrossedIs(cat: Catalog, d: string, e: string)
    requires Lookup(cat, "queue").None? && d != "" && e != ""
    ensures CrossBound(cat, Crossed(d, e), SK, PREVIEW, BOUND, d, e)
  {
    hide Lower, CloneName, RestoreName, ClaimName;
    CrossedNames();
  }

  lemma CrossedWorks(cfg: Config, cat: Catalog)
    requires Lookup(cat, "queue").None?
    ensures Workable(cfg, cat, SK, PREVIEW)
  {
    hide Lower, ChildrenApart;
    PlainNamesApart(cat, SK, PREVIEW);
  }

  lemma CrossedIsOurs(cat: Catalog, d: string, e: string)
    ensures Ours(Crossed(d, e), SK, PassKeys(cat, SK, PREVIEW)) && Typed(Crossed(d, e))
  {
    hide Lower, CloneName, RestoreName, ClaimName, PassKeys;
    assert forall k | k in Crossed(d, e).objs ::
        KindOf(Crossed(d, e).objs[k].obj) == k.kind && Unclaimed(Crossed(d, e).objs[k].obj, SK.name);
  }

  lemma CrossedCreds(s: Store)
    ensures CredsThere(s, PREVIEW)
  {
    hide Lower;
    CrossedNames();
  }

  /** A pass over that store succeeds; with two drivers, the next one changes what
      it left. */
  lemma CrossedStore(cfg: Config, cat: Catalog, d: string, e: string) returns (t: Store, r: bool)
    requires Lookup(cat, "queue").None? && d != "" && e != ""
    ensures ReconcileQ(cfg, cat, Crossed(d, e), SK) == Outcome(t, Ok(r))
    ensures ReconcileQ(cfg, cat, t, SK) == Outcome(t, Ok(r)) <==> d == e
  {
    hide ReconcileQ, Workable, Ours, CrossBound, CredsThere, Typed, ChildrenApart, Lower, PassKeys, ClonesSettle, Went;
    CrossedIs(cat, d, e);
    CrossedWorks(cfg, cat);
    CrossedIsOurs(cat, d, e);
    CrossedCreds(Crossed(d, e));
    WorkableApart(cfg, cat, SK, PREVIEW);
    assert SK in Crossed(d, e).objs && Crossed(d, e).objs[SK].obj == PREVIEW;
    var g := PassSucceeds(cfg, cat, Crossed(d, e), SK);
    t, r := g.done, Held in g.fates || g.ledger.pending;
    CrossBoundClones(cfg, cat, Crossed(d, e), SK, BOUND, d, e, t, r);
  }

  lemma WorkableApart(cfg: Config, cat: Catalog, sk: Key, st: Object)
    requires st.Stack? && Workable(cfg, cat, sk, st)
    ensures ChildrenApart(cat, sk, st) && SafeDefs(cat, st)
  {
  }
}
