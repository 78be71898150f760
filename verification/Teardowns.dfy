/** What the teardown of an Environment leaves behind, over all runs. */
module Teardowns {
  import opened Wrappers
  import opened Names
  import opened Objects
  import opened Clusters
  import opened Runs
  import opened Environments

  // ------------------------------------------------------------------ objects that stay

  /** An object that is the same at both ends was there all along. */
  lemma UidBetween(cfg: Config, stores: seq<Store>, events: seq<Event>, i: nat, m: nat, j: nat, k: Key)
    requires IsRun(cfg, stores, events) && i <= m <= j < |stores|
    requires k in stores[i].objs && k in stores[j].objs && stores[i].objs[k].uid == stores[j].objs[k].uid
    ensures k in stores[m].objs && stores[m].objs[k].uid == stores[i].objs[k].uid
    decreases j
  {
    hide IsStep;
    if m < j {
      SameUidBefore(cfg, stores, events, i, j, k);
      UidBetween(cfg, stores, events, i, m, j - 1, k);
    }
  }

  lemma DeletingStep(cfg: Config, s: Store, ev: Event, k: Key)
    requires Clocked(s) && k in s.objs && s.objs[k].deleting && k in Effect(cfg, s, ev).objs
    requires Effect(cfg, s, ev).objs[k].uid == s.objs[k].uid
    ensures Effect(cfg, s, ev).objs[k].deleting
  {
    hide ChangeOf;
  }

  /** A deletion is never taken back. */
  lemma DeletingStays(cfg: Config, stores: seq<Store>, events: seq<Event>, i: nat, j: nat, k: Key)
    requires IsRun(cfg, stores, events) && i <= j < |stores|
    requires k in stores[i].objs && k in stores[j].objs && stores[i].objs[k].uid == stores[j].objs[k].uid
    requires stores[i].objs[k].deleting
    ensures stores[j].objs[k].deleting
    decreases j
  {
    hide IsStep, Effect, Possible, Warranted;
    if i < j {
      SameUidBefore(cfg, stores, events, i, j, k);
      DeletingStays(cfg, stores, events, i, j - 1, k);
      StepOf(cfg, stores, events, j - 1);
      RunClocked(cfg, stores, events, i, j - 1);
      DeletingStep(cfg, stores[j - 1], events[j - 1], k);
    }
  }

  // -------------------------------------------------------------------- the finalizer

  /** The Environment object of that UID is there and holds the finalizer. */
  predicate Holds(s: Store, ek: Key, uid: nat) {
    ek in s.objs && s.objs[ek].uid == uid && s.objs[ek].obj.Environment? && s.objs[ek].obj.finalizer
  }

  lemma HoldsStep(cfg: Config, s: Store, ev: Event, ek: Key, uid: nat)
    requires Typed(s) && Possible(cfg, s, ev) && ek.kind == EnvironmentKind && Holds(s, ek, uid)
    ensures Holds(Effect(cfg, s, ev), ek, uid) || (ev.FinalizerRemoved? && ev.key == ek)
  {
    hide Mutate;
  }

  lemma WarrantedRemoval(cfg: Config, stores: seq<Store>, ev: Event)
    requires |stores| > 0 && ev.FinalizerRemoved? && Warranted(cfg, stores, ev)
    ensures TeardownJustified(stores, ev.key, ev.why) && ev.key in stores[|stores| - 1].objs
    ensures stores[|stores| - 1].objs[ev.key].rv == stores[ev.why.version].objs[ev.key].rv
  {
    hide TeardownJustified;
    TeardownShape(stores, ev.key, ev.why);
  }

  lemma TeardownShape(stores: seq<Store>, ek: Key, why: Reason)
    requires TeardownJustified(stores, ek, why)
    ensures why.Teardown? && HasEnvironment(stores, why.version, ek) && stores[why.version].objs[ek].deleting
  {
  }

  /** The finalizer leaves an Environment only by a teardown pass of this very
      version of it, after every artifact it had listed and the namespace had
      their deletion accepted. */
  lemma FinalizerLeaves(cfg: Config, stores: seq<Store>, events: seq<Event>, i: nat, n: nat, ek: Key, uid: nat)
    returns (w: nat)
    requires IsRun(cfg, stores, events) && i <= n < |stores| && ek.kind == EnvironmentKind
    requires Holds(stores[i], ek, uid) && !Holds(stores[n], ek, uid)
    ensures i <= w < n && events[w].FinalizerRemoved? && events[w].key == ek
    ensures TeardownJustified(stores[..w + 1], ek, events[w].why)
    ensures ek in stores[w].objs && HasEnvironment(stores, events[w].why.version, ek)
    ensures stores[events[w].why.version].objs[ek] == stores[w].objs[ek] && stores[w].objs[ek].uid == uid
    decreases n - i
  {
    hide IsStep, TeardownJustified, Possible, Warranted, Effect;
    StepOf(cfg, stores, events, i);
    RunTyped(cfg, stores, events, i);
    if Holds(stores[i + 1], ek, uid) {
      w := FinalizerLeaves(cfg, stores, events, i + 1, n, ek, uid);
    } else {
      w := i;
      HoldsStep(cfg, stores[i], events[i], ek, uid);
      WarrantedRemoval(cfg, stores[..i + 1], events[i]);
      TeardownShape(stores[..i + 1], ek, events[i].why);
      VersionIdentifies(cfg, stores, events, events[i].why.version, i, ek);
    }
  }

  // -------------------------------------------------------------------- the artifacts

  /** A write of the clone machinery for a preview namespace. */
  predicate ClonesFor(ev: Event, ns: string) {
    ev.Applied? && (ev.patch.SourceSnapshot? || ev.patch.StaticContent? || ev.patch.RestoreSnapshot?) &&
    ev.patch.previewNs == ns
  }

  /** Such writes come from passes over a Stack in that namespace. */
  lemma ClonesForStack(cfg: Config, stores: seq<Store>, events: seq<Event>, e: nat, ns: string)
    requires IsRun(cfg, stores, events) && e < |events| && ClonesFor(events[e], ns)
    ensures events[e].why.CloneLink? && events[e].why.stack.ns == ns
  {
    hide IsStep, SourceTaken, HandleIn;
    StepOf(cfg, stores, events, e);
    WarrantedPatch(cfg, stores[..e + 1], events[e]);
  }

  lemma ArtifactPatch(cfg: Config, p: Patch, o: Object, ns: string)
    requires Carries(cfg, p, o) && (o.Snapshot? || o.Content?) && OwnerOf(o) == Some(ns)
    ensures (p.SourceSnapshot? || p.StaticContent? || p.RestoreSnapshot?) && p.previewNs == ns
  {
  }

  /** An artifact nobody labelled since `a` was labelled at `a`. */
  lemma LabelledSince(cfg: Config, stores: seq<Store>, events: seq<Event>, a: nat, n: nat, k: Key, ns: string)
    requires IsRun(cfg, stores, events) && a <= n < |stores| && (k.kind == SnapshotKind || k.kind == ContentKind)
    requires k in stores[n].objs && OwnerOf(stores[n].objs[k].obj) == Some(ns)
    requires forall e | a <= e < n :: !(ClonesFor(events[e], ns) && events[e].key == k)
    ensures k in stores[a].objs && OwnerOf(stores[a].objs[k].obj) == Some(ns) &&
            stores[a].objs[k].uid == stores[n].objs[k].uid
    decreases n
  {
    hide IsStep, Justified, Carries, OwnerOf, StatusOnly;
    if a < n {
      RunTyped(cfg, stores, events, n);
      OwnedSteps(cfg, stores, events, n, k);
      if events[n - 1].Applied? && events[n - 1].key == k {
        ArtifactPatch(cfg, events[n - 1].patch, stores[n].objs[k].obj, ns);
      }
      LabelledSince(cfg, stores, events, a, n - 1, k, ns);
    }
  }

  /** Whatever carried the label when it was listed and had its deletion accepted
      is gone or going. */
  lemma ListedGoes(cfg: Config, stores: seq<Store>, events: seq<Event>, a: nat, d: nat, n: nat, k: Key)
    requires IsRun(cfg, stores, events) && a <= d <= n < |stores|
    requires k in stores[a].objs && k in stores[n].objs && stores[a].objs[k].uid == stores[n].objs[k].uid
    requires Doomed(stores[d], k)
    ensures stores[n].objs[k].deleting
  {
    hide IsStep;
    UidBetween(cfg, stores, events, a, d, n, k);
    DeletingStays(cfg, stores, events, d, n, k);
  }

  /** Since store `a` a pass over a Stack of the namespace wrote that artifact. */
  ghost predicate CloneWritten(events: seq<Event>, a: nat, n: nat, k: Key, ns: string)
    requires n <= |events|
  {
    exists e | a <= e < n ::
      ClonesFor(events[e], ns) && events[e].key == k && events[e].why.CloneLink? && events[e].why.stack.ns == ns
  }

  /** The moment of the first of the two lists. */
  function ListedAt(why: Reason): nat
    requires why.Teardown?
  {
    if why.snapshots < why.contents then why.snapshots else why.contents
  }

  lemma ArtifactGoes(cfg: Config, stores: seq<Store>, events: seq<Event>, w: nat, n: nat, ek: Key, why: Reason, k: Key)
    requires IsRun(cfg, stores, events) && w < n < |stores| && TeardownJustified(stores[..w + 1], ek, why)
    requires k in Artifacts(stores[n], NamespaceOf(ek, stores[why.version].objs[ek].obj))
    ensures stores[n].objs[k].deleting ||
            CloneWritten(events, ListedAt(why), n, k, NamespaceOf(ek, stores[why.version].objs[ek].obj))
  {
    hide IsStep, ClonesFor;
    var ns := NamespaceOf(ek, stores[why.version].objs[ek].obj);
    var a := if k.kind == SnapshotKind then why.snapshots else why.contents;
    if e :| a <= e < n && ClonesFor(events[e], ns) && events[e].key == k {
      ClonesForStack(cfg, stores, events, e, ns);
    } else {
      LabelledSince(cfg, stores, events, a, n, k, ns);
      assert k in Labelled(stores[..w + 1][a], k.kind, ns);
      ListedGoes(cfg, stores, events, a, why.doomed[k], n, k);
    }
  }

  // -------------------------------------------------------------------- the namespace

  predicate MakesNamespace(ev: Event, k: Key) {
    ev.Applied? && ev.key == k && ev.patch.EnvNamespace?
  }

  lemma DoomedStep(cfg: Config, s: Store, ev: Event, k: Key)
    requires Typed(s) && Possible(cfg, s, ev) && k.kind == NamespaceKind && Doomed(s, k) && !MakesNamespace(ev, k)
    ensures Doomed(Effect(cfg, s, ev), k)
  {
    hide Mutate;
  }

  lemma DoomedStays(cfg: Config, stores: seq<Store>, events: seq<Event>, d: nat, n: nat, k: Key)
    requires IsRun(cfg, stores, events) && d <= n < |stores| && k.kind == NamespaceKind && Doomed(stores[d], k)
    requires forall e | d <= e < n :: !MakesNamespace(events[e], k)
    ensures Doomed(stores[n], k)
    decreases n
  {
    hide IsStep, Possible, Warranted, Effect, Doomed, MakesNamespace;
    if d < n {
      DoomedStays(cfg, stores, events, d, n - 1, k);
      StepOf(cfg, stores, events, n - 1);
      RunTyped(cfg, stores, events, n - 1);
      DoomedStep(cfg, stores[n - 1], events[n - 1], k);
    }
  }

  lemma NamespaceGoes(cfg: Config, stores: seq<Store>, events: seq<Event>, w: nat, n: nat, ek: Key, why: Reason)
    requires IsRun(cfg, stores, events) && w < n < |stores| && TeardownJustified(stores[..w + 1], ek, why)
    requires var k := NamespaceKey(NamespaceOf(ek, stores[why.version].objs[ek].obj));
             forall e | why.nsDoomed <= e < n :: !MakesNamespace(events[e], k)
    ensures Doomed(stores[n], NamespaceKey(NamespaceOf(ek, stores[why.version].objs[ek].obj)))
  {
    hide IsStep;
    DoomedStays(cfg, stores, events, why.nsDoomed, n, NamespaceKey(NamespaceOf(ek, stores[why.version].objs[ek].obj)));
  }

  /** Teardown completeness, over all runs of failing and retried passes: an
      Environment that held the finalizer and no longer does was torn down by a
      pass over its last version. From then on every clone artifact labelled with
      its namespace is on its way out, or a pass over a Stack in that namespace has
      written it since the artifacts were listed; and the namespace is gone or on
      its way out unless something has made it anew. */
  lemma TeardownComplete(cfg: Config, stores: seq<Store>, events: seq<Event>, i: nat, n: nat, ek: Key, uid: nat)
    returns (w: nat, why: Reason)
    requires IsRun(cfg, stores, events) && i <= n < |stores| && ek.kind == EnvironmentKind
    requires Holds(stores[i], ek, uid) && !Holds(stores[n], ek, uid)
    ensures i <= w < n && events[w] == FinalizerRemoved(ek, why) && TeardownJustified(stores[..w + 1], ek, why)
    ensures stores[why.version].objs[ek].uid == uid
    ensures var ns := NamespaceOf(ek, stores[why.version].objs[ek].obj);
            (forall k | k in Artifacts(stores[n], ns) ::
               stores[n].objs[k].deleting || CloneWritten(events, ListedAt(why), n, k, ns)) &&
            ((forall e | why.nsDoomed <= e < n :: !MakesNamespace(events[e], NamespaceKey(ns))) ==>
               Doomed(stores[n], NamespaceKey(ns)))
  {
    hide IsStep, TeardownJustified, LabelledIn, Doomed, CloneWritten, MakesNamespace;
    w := FinalizerLeaves(cfg, stores, events, i, n, ek, uid);
    why := events[w].why;
    TeardownShape(stores[..w + 1], ek, why);
    var ns := NamespaceOf(ek, stores[why.version].objs[ek].obj);
    forall k | k in Artifacts(stores[n], ns)
      ensures stores[n].objs[k].deleting || CloneWritten(events, ListedAt(why), n, k, ns)
    {
      ArtifactGoes(cfg, stores, events, w, n, ek, why, k);
    }
    if forall e | why.nsDoomed <= e < n :: !MakesNamespace(events[e], NamespaceKey(ns)) {
      NamespaceGoes(cfg, stores, events, w, n, ek, why);
    }
  }

  /** Every namespace a provisioning pass made is that of the version it read, and
      the Environment held the finalizer first. */
  lemma NamespaceIsHeld(cfg: Config, stores: seq<Store>, events: seq<Event>, e: nat)
    requires IsRun(cfg, stores, events) && e < |events| && MakesNamespace(events[e], events[e].key)
    ensures var why := events[e].why;
            why.EnvProvision? && why.version <= e && HasEnvironment(stores, why.version, why.env) &&
            !stores[why.version].objs[why.env].deleting &&
            events[e].key == NamespaceKey(NamespaceOf(why.env, stores[why.version].objs[why.env].obj)) &&
            why.held <= e && Holds(stores[why.held], why.env, stores[why.version].objs[why.env].uid)
  {
    hide IsStep;
    StepOf(cfg, stores, events, e);
    WarrantedPatch(cfg, stores[..e + 1], events[e]);
  }

  /** The project of an Environment object is never edited. */
  ghost predicate ProjectFixed(stores: seq<Store>, ek: Key, uid: nat) {
    forall i, j | 0 <= i < |stores| && 0 <= j < |stores| && HasEnvironment(stores, i, ek) &&
                  HasEnvironment(stores, j, ek)
      && stores[i].objs[ek].uid == uid && stores[j].objs[ek].uid == uid ::
      stores[i].objs[ek].obj.project == stores[j].objs[ek].obj.project
  }

  /** One worker per Environment, reading monotonically: a namespace write that
      lands after a teardown pass deleted the namespace was based on a read no
      older than that pass's. */
  ghost predicate Serial(stores: seq<Store>, events: seq<Event>, ek: Key) {
    forall f, g | 0 <= f < |events| && 0 <= g < |events| && events[f].FinalizerRemoved? && events[f].key == ek
      && events[f].why.Teardown? && MakesNamespace(events[g], events[g].key) && events[g].why.EnvProvision?
      && events[g].why.env == ek && events[f].why.nsDoomed <= g ::
      events[f].why.version <= events[g].why.version
  }

  /** No namespace escapes: once an Environment is gone, every namespace its passes
      ever made is gone or going, unless a newer Environment makes it anew. */
  lemma NoNamespaceEscapes(cfg: Config, stores: seq<Store>, events: seq<Event>, e: nat, n: nat)
    returns (w: nat, why: Reason)
    requires IsRun(cfg, stores, events) && e < n < |stores| && MakesNamespace(events[e], events[e].key)
    requires events[e].why.EnvProvision? && HasEnvironment(stores, events[e].why.version, events[e].why.env)
    requires var ek := events[e].why.env; var uid := stores[events[e].why.version].objs[ek].uid;
             ProjectFixed(stores, ek, uid) && Serial(stores, events, ek) && !Holds(stores[n], ek, uid)
    ensures var ek := events[e].why.env;
            w < n && events[w] == FinalizerRemoved(ek, why) && TeardownJustified(stores[..w + 1], ek, why)
    ensures forall g | why.nsDoomed <= g < n && MakesNamespace(events[g], events[e].key) ::
              events[g].why.EnvProvision? && HasEnvironment(stores, events[g].why.version, events[g].why.env) &&
              (events[g].why.env != events[e].why.env ||
               stores[events[g].why.version].objs[events[g].why.env].uid !=
                 stores[events[e].why.version].objs[events[e].why.env].uid)
    ensures (forall g | why.nsDoomed <= g < n :: !MakesNamespace(events[g], events[e].key)) ==>
      Doomed(stores[n], events[e].key)
  {
    hide IsStep, TeardownJustified, Doomed, Artifacts, CloneWritten;
    NamespaceIsHeld(cfg, stores, events, e);
    var ek := events[e].why.env;
    var uid := stores[events[e].why.version].objs[ek].uid;
    w, why := TeardownComplete(cfg, stores, events, events[e].why.held, n, ek, uid);
    TeardownShape(stores[..w + 1], ek, why);
    assert events[e].key == NamespaceKey(NamespaceOf(ek, stores[why.version].objs[ek].obj));
    forall g | why.nsDoomed <= g < n && MakesNamespace(events[g], events[e].key)
      ensures events[g].why.EnvProvision? && HasEnvironment(stores, events[g].why.version, events[g].why.env)
      ensures events[g].why.env != ek || stores[events[g].why.version].objs[ek].uid != uid
    {
      NamespaceIsHeld(cfg, stores, events, g);
      if events[g].why.env == ek && stores[events[g].why.version].objs[ek].uid == uid {
        assert events[w].FinalizerRemoved? && MakesNamespace(events[g], events[g].key);
        NotDeletingLater(cfg, stores, events, why.version, events[g].why.version, ek);
      }
    }
  }

  lemma NotDeletingLater(cfg: Config, stores: seq<Store>, events: seq<Event>, i: nat, j: nat, k: Key)
    requires IsRun(cfg, stores, events) && i <= j < |stores| && k in stores[i].objs && k in stores[j].objs
    requires stores[i].objs[k].deleting && !stores[j].objs[k].deleting
    ensures stores[i].objs[k].uid != stores[j].objs[k].uid
  {
    hide IsStep;
    if stores[i].objs[k].uid == stores[j].objs[k].uid {
      DeletingStays(cfg, stores, events, i, j, k);
    }
  }

  /** No Environment of that namespace still has a teardown to go through. */
  predicate NobodyHolds(s: Store, ns: string) {
    forall ek | ek in s.objs && s.objs[ek].obj.Environment? && NamespaceOf(ek, s.objs[ek].obj) == ns ::
      !s.objs[ek].obj.finalizer
  }

  /** Nothing in a teardown holds a Stack pass back: after the last Environment of
      a namespace has been torn down, a pass over any version of a preview's Stack
      that it can still read may go on to write a labelled source snapshot in the
      parent's namespace, which no teardown is left to delete. */
  lemma RunningStackEscapes(cfg: Config, stores: seq<Store>, events: seq<Event>, w: nat, ek: Key, why: Reason,
                            v: nat, sk: Key, bi: nat)
    returns (ev: Event, t: Store)
    requires IsRun(cfg, stores, events) && w < |events| && events[w] == FinalizerRemoved(ek, why)
    requires why.Teardown? && HasEnvironment(stores, why.version, ek)
    requires HasStack(stores, v, sk) && sk.ns == NamespaceOf(ek, stores[why.version].objs[ek].obj)
    requires NobodyHolds(stores[|stores| - 1], sk.ns)
    requires var st := StackAt(stores, v, sk);
             IsPreviewClone(st) && bi < |st.spec.backing| &&
             SnapshotKey(st.cloneNs, CloneName(sk.ns, st.spec.backing[bi].name)) !in stores[|stores| - 1].objs
    ensures IsRun(cfg, stores + [t], events + [ev]) && NobodyHolds(t, sk.ns)
    ensures CloneWritten(events + [ev], |events|, |events| + 1, ev.key, sk.ns) && ev.key !in stores[|stores| - 1].objs
    ensures ev.key in Artifacts(t, sk.ns) && !t.objs[ev.key].deleting && ev.key.ns == StackAt(stores, v, sk).cloneNs
  {
    hide IsRun;
    var st := StackAt(stores, v, sk);
    var b := st.spec.backing[bi].name;
    ev := Applied(SnapshotKey(st.cloneNs, CloneName(sk.ns, b)), SourceSnapshot(sk.ns, ClaimName(st.cloneStack, b)),
      CloneLink(v, sk, bi, 0, 0));
    t := Effect(cfg, stores[|stores| - 1], ev);
    RunHasStores(cfg, stores, events);
    assert sk.ns[0] == 'p';
    ExtendRun(cfg, stores, events, ev);
    assert (events + [ev])[|events|] == ev;
  }

  lemma RunHasStores(cfg: Config, stores: seq<Store>, events: seq<Event>)
    requires IsRun(cfg, stores, events)
    ensures |stores| == |events| + 1
  {
    hide IsStep;
  }
}
