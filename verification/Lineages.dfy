/** Where the data of a preview's restore snapshot comes from. */
module Lineages {
  import opened Names
  import opened NameLaws
  import opened Objects
  import opened Clusters
  import opened Runs

  /** The stores in which the links of a restore snapshot were seen. */
  datatype Lineage = Lineage(restore: nat, shared: nat, content: nat, snapshot: nat, version: nat, stack: Key)

  /** The restore snapshot reads the static content of this preview; that one
      carries the handle of a content bound to a ready snapshot of the parent's
      claim of the same backing. Everything the controller made on the way is
      labelled with the preview's namespace. */
  ghost predicate Descends(stores: seq<Store>, ns: string, b: string, l: Lineage) {
    l.shared < |stores| && l.content < |stores| && l.snapshot < |stores| &&
    HasStack(stores, l.version, l.stack) && l.stack.ns == ns && IsPreviewClone(StackAt(stores, l.version, l.stack)) &&
    ContentShared(stores[l.shared], ns, b) &&
    (var st := StackAt(stores, l.version, l.stack);
     var copy := stores[l.shared].objs[ContentKey(CloneName(ns, b))].obj;
     var source := SourceContent(stores[l.snapshot], st, ns, b);
     SourceTaken(stores[l.snapshot], st, ns, b, source) &&
     HandleIn(stores[l.content], source, copy.driver, copy.handle))
  }

  lemma RestoreWriter(cfg: Config, stores: seq<Store>, events: seq<Event>, n: nat, ns: string, b: string)
    returns (shared: nat)
    requires IsRun(cfg, stores, events) && n < |stores| && ns != "" && RestoreOf(stores[n], ns, b)
    ensures shared < n && ContentShared(stores[shared], ns, b)
  {
    hide IsStep, ContentShared, Mutate;
    var k := SnapshotKey(ns, RestoreName(b));
    var w := LastWriter(cfg, stores, events, n, k);
    var p, why := events[w].patch, events[w].why;
    RestorePatch(cfg, stores[..w + 1], k, p, why, stores[n].objs[k].obj, ns, b);
    shared := why.content;
  }

  lemma RestorePatch(cfg: Config, stores: seq<Store>, k: Key, p: Patch, why: Reason, o: Object, ns: string, b: string)
    requires k == SnapshotKey(ns, RestoreName(b)) && o.Snapshot? && o.source.FromContent?
    requires Carries(cfg, p, o) && Justified(cfg, stores, k, p, why)
    ensures p.RestoreSnapshot? && why.CloneLink? && why.content < |stores| && ContentShared(stores[why.content], ns, b)
  {
    hide ContentShared;
    var st := StackAt(stores, why.version, why.stack);
    PrefixCancels("clone-", b, st.spec.backing[why.backing].name);
  }

  lemma SharedWriter(cfg: Config, stores: seq<Store>, events: seq<Event>, n: nat, ns: string, b: string)
    returns (why: Reason)
    requires IsRun(cfg, stores, events) && n < |stores| && ns != "" && ContentShared(stores[n], ns, b)
    ensures why.CloneLink?
    ensures Descends(stores, ns, b, Lineage(0, n, why.content, why.snapshot, why.version, why.stack))
  {
    hide IsStep, SourceTaken, HandleIn, Mutate;
    var k := ContentKey(CloneName(ns, b));
    var w := LastWriter(cfg, stores, events, n, k);
    why := events[w].why;
    SharedPatch(cfg, stores[..w + 1], k, events[w].patch, why, stores[n].objs[k].obj, ns, b);
  }

  lemma SharedPatch(cfg: Config, stores: seq<Store>, k: Key, p: Patch, why: Reason, o: Object, ns: string, b: string)
    requires k == ContentKey(CloneName(ns, b)) && o.Content? && o.contentOwner == ns
    requires Carries(cfg, p, o) && Justified(cfg, stores, k, p, why)
    ensures p.StaticContent? && why.CloneLink? && HasStack(stores, why.version, why.stack) && why.stack.ns == ns
    ensures IsPreviewClone(StackAt(stores, why.version, why.stack))
    ensures why.content < |stores| && why.snapshot < |stores|
    ensures var st := StackAt(stores, why.version, why.stack);
            var source := SourceContent(stores[why.snapshot], st, ns, b);
            SourceTaken(stores[why.snapshot], st, ns, b, source) &&
            HandleIn(stores[why.content], source, o.driver, o.handle)
  {
    hide SourceTaken, HandleIn, SourceContent;
    var st := StackAt(stores, why.version, why.stack);
    PrefixCancels("paas-clone-" + (ns + "-"), b, st.spec.backing[why.backing].name) by {
      assert CloneName(ns, b) == "paas-clone-" + (ns + "-") + b;
      assert CloneName(ns, st.spec.backing[why.backing].name) ==
             "paas-clone-" + (ns + "-") + st.spec.backing[why.backing].name;
    }
  }

  /** Clone chain integrity, over all runs and any number of partial passes: every
      restore snapshot a preview may be seeded from descends, link by link, from a
      snapshot of the parent's claim. */
  lemma RestoresDescend(cfg: Config, stores: seq<Store>, events: seq<Event>, n: nat, ns: string, b: string)
    returns (l: Lineage)
    requires IsRun(cfg, stores, events) && n < |stores| && ns != "" && RestoreReady(stores[n], ns, b)
    ensures l.restore == n && Descends(stores, ns, b, l)
  {
    hide IsStep, ContentShared;
    var shared := RestoreWriter(cfg, stores, events, n, ns, b);
    var why := SharedWriter(cfg, stores, events, shared, ns, b);
    l := Lineage(n, shared, why.content, why.snapshot, why.version, why.stack);
  }
}
