/** What is decided once, when an object is created, and where a preview's data
    comes from. */
module Provenance {
  import opened Wrappers
  import opened Names
  import opened Objects
  import opened Shapes
  import opened Clusters
  import opened Runs

  // ---------------------------------------------------------------- fields set once

  /** The fields a pass writes only while the object has no UID. */
  predicate SameFixed(a: Object, b: Object) {
    (a.StatefulSet? && b.StatefulSet? ==> a.volume == b.volume) &&
    (a.Cluster? && b.Cluster? ==> a.bootstrap == b.bootstrap)
  }

  lemma FixedByStep(cfg: Config, s: Store, ev: Event, k: Key)
    requires Typed(s) && Possible(cfg, s, ev) && k in s.objs && k in Effect(cfg, s, ev).objs
    requires OwnerOf(s.objs[k].obj) != None
    requires k.kind == StatefulSetKind || k.kind == ClusterKind
    ensures SameFixed(s.objs[k].obj, Effect(cfg, s, ev).objs[k].obj)
    ensures OwnerOf(Effect(cfg, s, ev).objs[k].obj) == OwnerOf(s.objs[k].obj)
  {
  }

  /** Set once, over all runs: while a StatefulSet or a Cluster of a Stack keeps
      its UID, its volume claim (with the data source) or its bootstrap is the
      same in every store, and so is its owner. */
  lemma SetOnce(cfg: Config, stores: seq<Store>, events: seq<Event>, i: nat, j: nat, k: Key)
    requires IsRun(cfg, stores, events) && i <= j < |stores|
    requires k.kind == StatefulSetKind || k.kind == ClusterKind
    requires k in stores[i].objs && k in stores[j].objs && stores[i].objs[k].uid == stores[j].objs[k].uid
    requires OwnerOf(stores[i].objs[k].obj) != None
    ensures SameFixed(stores[i].objs[k].obj, stores[j].objs[k].obj)
    ensures OwnerOf(stores[i].objs[k].obj) == OwnerOf(stores[j].objs[k].obj)
    decreases j
  {
    hide IsStep, Warranted, Effect, Possible;
    RunTyped(cfg, stores, events, i);
    if i < j {
      SameUidBefore(cfg, stores, events, i, j, k);
      SetOnce(cfg, stores, events, i, j - 1, k);
      RunTyped(cfg, stores, events, j - 1);
      StepOf(cfg, stores, events, j - 1);
      FixedByStep(cfg, stores[j - 1], events[j - 1], k);
    }
  }

  // ---------------------------------------------------------------------- creation

  /** Event `c` created the object of store `n`. */
  ghost predicate CreatedBy(stores: seq<Store>, events: seq<Event>, n: nat, k: Key, c: nat) {
    c < n < |stores| && c < |events| && k !in stores[c].objs && k in stores[c + 1].objs && k in stores[n].objs &&
    stores[c + 1].objs[k].uid == stores[n].objs[k].uid && events[c].key == k
  }

  lemma Origin(cfg: Config, stores: seq<Store>, events: seq<Event>, n: nat, k: Key) returns (c: nat)
    requires IsRun(cfg, stores, events) && n < |stores| && k in stores[n].objs
    ensures CreatedBy(stores, events, n, k, c)
  {
    hide IsStep, Warranted, Possible, ChangeOf;
    assert n > 0;
    StepOf(cfg, stores, events, n - 1);
    if k in stores[n - 1].objs {
      c := Origin(cfg, stores, events, n - 1, k);
    } else {
      c := n - 1;
    }
  }

  /** An object that is there and later is not was removed in between. */
  lemma RemovedBetween(cfg: Config, stores: seq<Store>, events: seq<Event>, i: nat, j: nat, k: Key) returns (d: nat)
    requires IsRun(cfg, stores, events) && i <= j < |stores| && k in stores[i].objs && k !in stores[j].objs
    ensures i <= d < j && d < |events| && events[d] == Removed(k)
    decreases j
  {
    hide IsStep, Warranted, Possible;
    StepOf(cfg, stores, events, j - 1);
    if k in stores[j - 1].objs {
      d := j - 1;
    } else {
      d := RemovedBetween(cfg, stores, events, i, j - 1, k);
    }
  }

  // ----------------------------------------------------------------------- seeding

  /** A pass over version `why.version` made the StatefulSet, with a claim exactly when
      what provisions the backing persists, of the size asked for: in a preview it
      restores the backing's snapshot, which was ready, or the object had been there
      when the pass looked; elsewhere it starts empty. */
  ghost predicate VolumeChosen(cfg: Config, stores: seq<Store>, k: Key, o: Object, c: nat, why: Reason) {
    o.StatefulSet? && c < |stores| && why.Placement? && why.version <= c && HasStack(stores, why.version, why.stack) &&
    (var st := StackAt(stores, why.version, why.stack);
     why.backing < |st.spec.backing| && k.ns == why.stack.ns &&
     k.name == BackingName(why.stack.name, st.spec.backing[why.backing].name) &&
     VolumeJustified(cfg, stores[..c + 1], k, st, st.spec.backing[why.backing], o.volume, why))
  }

  /** The same for the bootstrap of a Cluster. */
  ghost predicate BootstrapChosen(stores: seq<Store>, k: Key, o: Object, c: nat, why: Reason) {
    o.Cluster? && c < |stores| && why.Provision? && why.version <= c && HasStack(stores, why.version, why.stack) &&
    (var st := StackAt(stores, why.version, why.stack);
     why.backing < |st.spec.backing| && k.ns == why.stack.ns &&
     k.name == BackingName(why.stack.name, st.spec.backing[why.backing].name) &&
     BootstrapJustified(stores[..c + 1], k, st, st.spec.backing[why.backing], o.bootstrap, why.seed, why.named,
       why.creds, why.copied))
  }

  lemma ChosenAtCreation(cfg: Config, stores: seq<Store>, c: nat, k: Key, ev: Event)
    requires c < |stores| && ev.Applied? && ev.key == k && k !in stores[c].objs
    requires k.kind == StatefulSetKind || k.kind == ClusterKind
    requires Possible(cfg, stores[c], ev) && Warranted(cfg, stores[..c + 1], ev)
    ensures var s' := Effect(cfg, stores[c], ev);
            k in s'.objs && OwnerOf(s'.objs[k].obj) != None &&
            (if k.kind == StatefulSetKind then VolumeChosen(cfg, stores, k, s'.objs[k].obj, c, ev.why)
             else BootstrapChosen(stores, k, s'.objs[k].obj, c, ev.why))
  {
    hide VolumeJustified, BootstrapJustified, SetFits, ClusterFits, ArchiveJustified;
  }

  lemma ChosenStays(cfg: Config, stores: seq<Store>, k: Key, a: Object, b: Object, c: nat, why: Reason)
    requires SameFixed(a, b) && KindOf(a) == KindOf(b)
    ensures VolumeChosen(cfg, stores, k, a, c, why) ==> VolumeChosen(cfg, stores, k, b, c, why)
    ensures BootstrapChosen(stores, k, a, c, why) ==> BootstrapChosen(stores, k, b, c, why)
  {
  }

  /** Every StatefulSet and Cluster a pass created still has, in any later store,
      the volume source or bootstrap that pass chose. */
  lemma ChosenOnce(cfg: Config, stores: seq<Store>, events: seq<Event>, n: nat, k: Key) returns (c: nat, why: Reason)
    requires IsRun(cfg, stores, events) && n < |stores| && k in stores[n].objs
    requires k.kind == StatefulSetKind || k.kind == ClusterKind
    ensures CreatedBy(stores, events, n, k, c)
    ensures events[c].Applied? ==>
              why == events[c].why &&
              (if k.kind == StatefulSetKind then VolumeChosen(cfg, stores, k, stores[n].objs[k].obj, c, why)
               else BootstrapChosen(stores, k, stores[n].objs[k].obj, c, why))
  {
    hide IsStep, Warranted, Possible, Effect, VolumeChosen, BootstrapChosen, SameFixed;
    c := Origin(cfg, stores, events, n, k);
    why := Plumbing;
    if events[c].Applied? {
      why := events[c].why;
      StepOf(cfg, stores, events, c);
      ChosenAtCreation(cfg, stores, c, k, events[c]);
      SetOnce(cfg, stores, events, c + 1, n, k);
      RunTyped(cfg, stores, events, c + 1);
      RunTyped(cfg, stores, events, n);
      ChosenStays(cfg, stores, k, stores[c + 1].objs[k].obj, stores[n].objs[k].obj, c, why);
    }
  }

  /** Clone seeding, over all runs: a StatefulSet that a pass made for a preview, for a
      backing that persists, has a volume, and it restores a ready snapshot of the
      parent's data. The only escape is that the object was
      removed between the pass's existence check and its creation. */
  lemma VolumesAreSeeded(cfg: Config, stores: seq<Store>, events: seq<Event>, n: nat, k: Key)
    returns (c: nat, why: Reason, removed: nat)
    requires IsRun(cfg, stores, events) && n < |stores| && k.kind == StatefulSetKind && k in stores[n].objs
    ensures CreatedBy(stores, events, n, k, c)
    ensures events[c].Applied? ==>
              why == events[c].why && VolumeChosen(cfg, stores, k, stores[n].objs[k].obj, c, why)
    ensures events[c].Applied? && IsPreviewClone(StackAt(stores, why.version, why.stack)) && Persistent(why.from) ==>
              var b := StackAt(stores, why.version, why.stack).spec.backing[why.backing];
              stores[n].objs[k].obj.volume.Some? && why.seed <= c &&
              (|| (stores[n].objs[k].obj.volume.value.source == Some(RestoreName(b.name)) &&
                   RestoreReady(stores[why.seed], k.ns, b.name))
               || (why.seed <= removed < c && events[removed] == Removed(k)))
  {
    hide IsStep, RestoreReady;
    c, why := ChosenOnce(cfg, stores, events, n, k);
    removed := 0;
    if events[c].Applied? && IsPreviewClone(StackAt(stores, why.version, why.stack)) {
      var o := stores[n].objs[k].obj;
      if Persistent(why.from) && o.volume.value.source == None {
        removed := RemovedBetween(cfg, stores, events, why.seed, c, k);
      }
    }
  }

  /** The same for a backed-up postgres: a preview's Cluster recovers from the
      parent's non-empty bucket, with the parent's credentials copied beside it. */
  lemma ClustersAreSeeded(cfg: Config, stores: seq<Store>, events: seq<Event>, n: nat, k: Key)
    returns (c: nat, why: Reason, removed: nat)
    requires IsRun(cfg, stores, events) && n < |stores| && k.kind == ClusterKind && k in stores[n].objs
    ensures CreatedBy(stores, events, n, k, c)
    ensures events[c].Applied? ==>
              why == events[c].why && BootstrapChosen(stores, k, stores[n].objs[k].obj, c, why)
    ensures events[c].Applied? &&
            (var st := StackAt(stores, why.version, why.stack);
             IsPreviewClone(st) && st.spec.backing[why.backing].backup) ==>
              var st := StackAt(stores, why.version, why.stack);
              var parent := BackingName(st.cloneStack, st.spec.backing[why.backing].name);
              var boot := stores[n].objs[k].obj.bootstrap;
              why.seed <= c &&
              (|| (boot.Recovery? && boot.source == parent && boot.bucket != "" &&
                   RecoverableIn(stores[why.seed], ClusterKey(st.cloneNs, parent)) && why.named <= c &&
                   NamesBucket(stores[why.named], ConfigMapKey(st.cloneNs, BackupName(parent)), boot.bucket) &&
                   CredsCopied(stores[..c + 1], SecretKey(st.cloneNs, BackupName(parent)), SecretKey(k.ns, boot.creds),
                     why.creds, why.copied))
               || (why.seed <= removed < c && events[removed] == Removed(k)))
  {
    hide IsStep;
    c, why := ChosenOnce(cfg, stores, events, n, k);
    removed := 0;
    if events[c].Applied? {
      var st := StackAt(stores, why.version, why.stack);
      if IsPreviewClone(st) && st.spec.backing[why.backing].backup && stores[n].objs[k].obj.bootstrap == InitDb {
        removed := RemovedBetween(cfg, stores, events, why.seed, c, k);
      }
    }
  }

  // ----------------------------------------------------------------------- archives

  /** Event `w` is a pass's write of the Cluster for a backing that is to be backed up
      and is no clone, with the bucket the ConfigMap of its backup claim had named. */
  ghost predicate ArchiveSet(stores: seq<Store>, events: seq<Event>, k: Key, bucket: string, w: nat) {
    w < |events| && w < |stores| && events[w].Applied? && events[w].key == k &&
    (var why := events[w].why;
     why.Provision? && why.version <= w && HasStack(stores, why.version, why.stack) &&
     (var st := StackAt(stores, why.version, why.stack);
      why.backing < |st.spec.backing| && st.spec.backing[why.backing].backup && !IsPreviewClone(st) &&
      k == ClusterKey(why.stack.ns, BackingName(why.stack.name, st.spec.backing[why.backing].name)) &&
      why.archived <= w && NamesBucket(stores[why.archived], ConfigMapKey(k.ns, BackupName(k.name)), bucket)))
  }

  lemma ArchiveStep(cfg: Config, s: Store, ev: Event, k: Key)
    requires Typed(s) && k.kind == ClusterKind && Possible(cfg, s, ev)
    requires k in s.objs ==> OwnerOf(s.objs[k].obj) != None
    requires k !in s.objs ==> ev.Applied?
    requires k in Effect(cfg, s, ev).objs && Effect(cfg, s, ev).objs[k].obj.Cluster?
    ensures var archive := Effect(cfg, s, ev).objs[k].obj.archive;
            || archive.None?
            || (k in s.objs && s.objs[k].obj.Cluster? && s.objs[k].obj.archive == archive)
            || (ev.Applied? && ev.key == k && ev.patch.PgCluster? && ev.patch.archive == archive)
  {
  }

  lemma ArchiveIsSet(cfg: Config, stores: seq<Store>, events: seq<Event>, n: nat, k: Key)
    requires n < |stores| && n < |events| && Warranted(cfg, stores[..n + 1], events[n])
    requires events[n].Applied? && events[n].key == k && events[n].patch.PgCluster? && events[n].patch.archive.Some?
    ensures ArchiveSet(stores, events, k, events[n].patch.archive.value, n)
  {
    hide BootstrapJustified;
  }

  /** In every run the archive of a Cluster that a pass made is a bucket that the
      ConfigMap of its own backup claim had named. */
  lemma ArchivesAreOwn(cfg: Config, stores: seq<Store>, events: seq<Event>, n: nat, k: Key, c: nat) returns (w: nat)
    requires IsRun(cfg, stores, events) && n < |stores| && k.kind == ClusterKind
    requires CreatedBy(stores, events, n, k, c) && events[c].Applied?
    requires stores[n].objs[k].obj.Cluster? && stores[n].objs[k].obj.archive.Some?
    ensures c <= w < n && ArchiveSet(stores, events, k, stores[n].objs[k].obj.archive.value, w)
  {
    hide IsStep, Warranted, Possible, Effect, ArchiveSet;
    StepOf(cfg, stores, events, n - 1);
    RunTyped(cfg, stores, events, n - 1);
    if n - 1 > c {
      SameUidBefore(cfg, stores, events, c + 1, n, k);
      OwnedSince(cfg, stores, events, c, n - 1, k);
    }
    ArchiveStep(cfg, stores[n - 1], events[n - 1], k);
    if n - 1 > c && stores[n - 1].objs[k].obj.Cluster? &&
      stores[n - 1].objs[k].obj.archive == stores[n].objs[k].obj.archive
    {
      w := ArchivesAreOwn(cfg, stores, events, n - 1, k, c);
    } else {
      w := n - 1;
      ArchiveIsSet(cfg, stores, events, w, k);
    }
  }

  lemma OwnedSince(cfg: Config, stores: seq<Store>, events: seq<Event>, c: nat, n: nat, k: Key)
    requires IsRun(cfg, stores, events) && CreatedBy(stores, events, n, k, c) && events[c].Applied?
    requires k.kind == ClusterKind
    ensures OwnerOf(stores[n].objs[k].obj) != None
  {
    hide IsStep, Warranted, Possible, Effect, VolumeChosen, BootstrapChosen;
    StepOf(cfg, stores, events, c);
    ChosenAtCreation(cfg, stores, c, k, events[c]);
    SetOnce(cfg, stores, events, c + 1, n, k);
  }

  // ------------------------------------------------------------------ clone sources

  /** Event `w` gave the Stack its clone source: a user's edit, or a pass over a preview
      Environment whose Stack it is, which named the sibling to clone from. */
  ghost predicate CloneSet(stores: seq<Store>, events: seq<Event>, sk: Key, ns: string, stack: string, w: nat) {
    w < |events| && w < |stores| && events[w].key == sk &&
    match events[w]
    case StackEdited(_, cloneNs, cloneStack, _) => cloneNs == ns && cloneStack == stack
    case Applied(_, EnvStack(_, _, _), EnvProvision(version, ek, _)) =>
      version <= w && HasEnvironment(stores, version, ek) &&
      (var env := stores[version].objs[ek].obj;
       sk == Key(StackKind, NamespaceOf(ek, env), ek.name) && IsPreview(env) && stack == env.cloneFrom &&
       ns == NamespaceOf(ek.(name := env.cloneFrom), env))
    case _ => false
  }

  lemma CloneStep(cfg: Config, s: Store, ev: Event, sk: Key)
    requires Typed(s) && sk.kind == StackKind && Possible(cfg, s, ev)
    requires sk in Effect(cfg, s, ev).objs && Effect(cfg, s, ev).objs[sk].obj.Stack?
    requires ev.Applied? && ev.patch.EnvStack? ==> (ev.patch.cloneNs == "" <==> ev.patch.cloneStack == "")
    ensures var o := Effect(cfg, s, ev).objs[sk].obj;
            || (o.cloneNs == "" && o.cloneStack == "")
            || (sk in s.objs && s.objs[sk].obj.Stack? && s.objs[sk].obj.cloneNs == o.cloneNs &&
                s.objs[sk].obj.cloneStack == o.cloneStack)
            || (ev.key == sk && ev.StackEdited? && ev.cloneNs == o.cloneNs && ev.cloneStack == o.cloneStack)
            || (ev.key == sk && ev.Applied? && ev.patch.EnvStack? && ev.patch.cloneNs == o.cloneNs &&
                ev.patch.cloneStack == o.cloneStack && o.cloneStack != "")
  {
  }

  lemma CloneAsked(cfg: Config, stores: seq<Store>, events: seq<Event>, n: nat)
    requires n < |stores| && n < |events| && Warranted(cfg, stores[..n + 1], events[n])
    requires events[n].Applied? && events[n].patch.EnvStack?
    ensures events[n].patch.cloneNs == "" <==> events[n].patch.cloneStack == ""
    ensures events[n].patch.cloneStack != "" ==>
              CloneSet(stores, events, events[n].key, events[n].patch.cloneNs, events[n].patch.cloneStack, n)
  {
  }

  /** In every run a Stack is a clone only as a user made it, or as the preview
      Environment whose Stack it is asked. */
  lemma ClonesAreAsked(cfg: Config, stores: seq<Store>, events: seq<Event>, n: nat, sk: Key) returns (w: nat)
    requires IsRun(cfg, stores, events) && n < |stores| && sk.kind == StackKind && sk in stores[n].objs
    ensures stores[n].objs[sk].obj.Stack?
    ensures var st := stores[n].objs[sk].obj;
            st.cloneNs != "" || st.cloneStack != "" ==>
              w < n && CloneSet(stores, events, sk, st.cloneNs, st.cloneStack, w)
  {
    hide IsStep, Warranted, Possible, Effect, CloneSet;
    w := 0;
    RunTyped(cfg, stores, events, n);
    if n > 0 {
      StepOf(cfg, stores, events, n - 1);
      RunTyped(cfg, stores, events, n - 1);
      var ev := events[n - 1];
      if ev.Applied? && ev.patch.EnvStack? {
        CloneAsked(cfg, stores, events, n - 1);
      }
      CloneStep(cfg, stores[n - 1], ev, sk);
      var st := stores[n].objs[sk].obj;
      if sk in stores[n - 1].objs && stores[n - 1].objs[sk].obj.cloneNs == st.cloneNs &&
        stores[n - 1].objs[sk].obj.cloneStack == st.cloneStack
      {
        w := ClonesAreAsked(cfg, stores, events, n - 1, sk);
      } else {
        w := n - 1;
        EditSets(stores, events, sk, st.cloneNs, st.cloneStack, w);
      }
    }
  }

  lemma EditSets(stores: seq<Store>, events: seq<Event>, sk: Key, ns: string, stack: string, w: nat)
    requires w < |events| && w < |stores|
    ensures events[w].key == sk && events[w].StackEdited? && events[w].cloneNs == ns &&
            events[w].cloneStack == stack ==>
              CloneSet(stores, events, sk, ns, stack, w)
  {
  }
}
