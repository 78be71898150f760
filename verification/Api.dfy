/** The client the controllers call. Any number of events of other actors may
    fall before each call takes effect, a call may fail, and a typed read may be
    answered from a cache that lags behind. */
module Api {
  import opened Wrappers
  import opened Objects
  import opened Clusters

  datatype Fetched = Found(entry: Entry) | Missing | Failed

  /** The kinds read as unstructured objects, which the client does not cache. */
  predicate LiveKind(kind: Kind) {
    kind == ClusterKind || kind == BucketClaimKind || kind == SnapshotKind || kind == ContentKind ||
    kind == ScheduledBackupKind || kind == SnapshotScheduleKind
  }

  class ApiServer {
    const cfg: Config
    var quiet: bool            // no other actor, no failure, no lag
    var stores: seq<Store>
    ghost var events: seq<Event>

    ghost predicate Valid()
      reads this
    {
      IsRun(cfg, stores, events)
    }

    function Now(): Store
      reads this
      requires |stores| > 0
    {
      stores[|stores| - 1]
    }

    constructor (cfg: Config)
      ensures Valid() && this.cfg == cfg && !quiet && stores == [EMPTY]
    {
      this.cfg := cfg;
      quiet := false;
      stores := [EMPTY];
      events := [];
    }

    method Commit(next: Store, ghost ev: Event)
      requires Valid() && Enabled(cfg, stores, ev) && next == Effect(cfg, Now(), ev)
      modifies this`stores, this`events
      ensures Valid() && stores == old(stores) + [next] && events == old(events) + [ev]
    {
      ExtendRun(cfg, stores, events, ev);
      stores := stores + [next];
      events := events + [ev];
    }

    /** Other actors: users, engines and other passes of the controllers. */
    method Interfere()
      requires Valid()
      modifies this`stores, this`events
      ensures Valid() && old(stores) <= stores && old(events) <= events
      ensures quiet ==> stores == old(stores)
    {
      if !quiet {
        var n: int := *;
        for i := 0 to if n < 0 then 0 else n
          invariant Valid() && old(stores) <= stores && old(events) <= events
        {
          var ev: Event := *;
          if Enabled(cfg, stores, ev) {
            Commit(Effect(cfg, Now(), ev), ev);
          }
        }
      }
    }

    method Fails() returns (failed: bool)
      ensures quiet ==> !failed
    {
      failed := *;
      failed := failed && !quiet;
    }

    /** Get; `at` is the store that answered. */
    method Get(k: Key) returns (r: Fetched, at: nat)
      requires Valid()
      modifies this`stores, this`events
      ensures Valid() && old(stores) <= stores && old(events) <= events && at < |stores|
      ensures r.Found? ==> k in stores[at].objs && stores[at].objs[k] == r.entry && KindOf(r.entry.obj) == k.kind
      ensures r.Missing? ==> k !in stores[at].objs
      ensures LiveKind(k.kind) || quiet ==> at == |stores| - 1
      ensures quiet ==> stores == old(stores) && !r.Failed?
    {
      Interfere();
      at := |stores| - 1;
      if !LiveKind(k.kind) && !quiet {
        var lag: int := *;
        at := if 0 <= lag <= at then at - lag else 0;
      }
      var failed := Fails();
      RunTyped(cfg, stores, events, at);
      r := if failed then Failed else if k in stores[at].objs then Found(stores[at].objs[k]) else Missing;
    }

    /** Create when nothing was read, otherwise Update at the version read. */
    method WriteBack(k: Key, got: Fetched, o: Object, ghost readAt: nat, ghost p: Patch, ghost why: Reason)
      returns (r: Result<Entry>)
      requires Valid() && readAt < |stores| && k.kind == PatchKind(p) && !got.Failed?
      requires got.Found? ==> k in stores[readAt].objs && stores[readAt].objs[k] == got.entry
      requires got.Found? ==> KindOf(got.entry.obj) == k.kind
      requires Mutate(cfg, p, Before(got)) == Ok(o) && Justified(cfg, stores, k, p, why)
      modifies this`stores, this`events
      ensures Valid() && old(stores) <= stores && old(events) <= events
      ensures r.Ok? ==> k in Now().objs && Now().objs[k] == r.value && r.value.obj == o
      ensures quiet && readAt == |old(stores)| - 1 && (got.Missing? ==> k !in old(Now()).objs) ==>
                r.Ok? && Now() == Put(old(Now()), k, o)
    {
      hide Mutate, Justified, IsRun, Enabled, PatchKind, Effect;
      ghost var stores0 := stores;
      Interfere();
      var failed := Fails();
      if failed {
        return Err(Transient);
      }
      if got.Missing? && k in Now().objs {
        return Err(AlreadyExists);
      }
      if got.Found? && (k !in Now().objs || Now().objs[k].rv != got.entry.rv) {
        return Err(if k !in Now().objs then NotFound else Conflict);
      }
      if got.Found? {
        VersionIdentifies(cfg, stores, events, readAt, |stores| - 1, k);
      }
      assert Find(Now(), k) == Before(got);
      JustifiedPersists(cfg, stores0, stores, k, p, why);
      ApplyStep(cfg, stores, k, p, why);
      Commit(Put(Now(), k, o), Applied(k, p, why));
      r := Ok(Now().objs[k]);
    }

    /** Nothing to change, or a write. */
    method Save(k: Key, got: Fetched, o: Object, readAt: nat, ghost p: Patch, ghost why: Reason)
      returns (r: Result<Entry>, at: nat)
      requires Valid() && readAt < |stores| && k.kind == PatchKind(p) && !got.Failed?
      requires got.Found? ==> k in stores[readAt].objs && stores[readAt].objs[k] == got.entry
      requires got.Found? ==> KindOf(got.entry.obj) == k.kind
      requires Mutate(cfg, p, Before(got)) == Ok(o) && Justified(cfg, stores, k, p, why)
      modifies this`stores, this`events
      ensures Valid() && old(stores) <= stores && old(events) <= events
      ensures r.Ok? ==> at < |stores| && k in stores[at].objs && stores[at].objs[k] == r.value && r.value.obj == o
      ensures r.Ok? && readAt == |old(stores)| - 1 ==> at == |stores| - 1
      ensures quiet && readAt == |old(stores)| - 1 && (got.Missing? ==> k !in old(Now()).objs) ==>
                Outcome(Now(), r) ==
                (if got.Found? && o == got.entry.obj then Outcome(old(Now()), Ok(got.entry))
                 else Outcome(Put(old(Now()), k, o), Ok(Put(old(Now()), k, o).objs[k])))
    {
      hide Mutate, Justified, IsRun, PatchKind, KindOf;
      at := readAt;
      if got.Found? && o == got.entry.obj {
        return Ok(got.entry), at;
      }
      r := WriteBack(k, got, o, readAt, p, why);
      at := |stores| - 1;
    }

    /** controllerutil.CreateOrUpdate. `at` is the store the returned object is
        in: the one written, or the one read when there was nothing to change. */
    method CreateOrUpdate(k: Key, p: Patch, ghost why: Reason) returns (r: Result<Entry>, at: nat)
      requires Valid() && k.kind == PatchKind(p) && Justified(cfg, stores, k, p, why)
      modifies this`stores, this`events
      ensures Valid() && old(stores) <= stores && old(events) <= events
      ensures r.Ok? ==> at < |stores| && k in stores[at].objs && stores[at].objs[k] == r.value
      ensures r.Ok? ==> Carries(cfg, p, r.value.obj)
      ensures r.Ok? && LiveKind(k.kind) ==> at == |stores| - 1
      ensures quiet ==> Outcome(Now(), r) == Apply(cfg, old(Now()), k, p)
    {
      hide Mutate, Justified, IsRun, Carries, PatchKind, KindOf, Apply;
      ghost var stores0 := stores;
      var got;
      got, at := Get(k);
      if got.Failed? {
        return Err(Transient), at;
      }
      var made := Mutate(cfg, p, Before(got));
      if quiet {
        QuietApply(cfg, Now(), k, p, got);
      }
      if made.Err? {
        return Err(made.why), at;
      }
      MutateCarries(cfg, p, Before(got));
      JustifiedPersists(cfg, stores0, stores, k, p, why);
      r, at := Save(k, got, made.value, at, p, why);
    }

    /** Create of a release Job. */
    method CreateJob(k: Key, job: Object, ghost why: Reason) returns (r: Result<()>)
      requires Valid() && k.kind == JobKind && job.Job? && HookJustified(cfg, stores, k, job, why)
      modifies this`stores, this`events
      ensures Valid() && old(stores) <= stores && old(events) <= events
      ensures r.Ok? ==> k in Now().objs && Now().objs[k].obj == job
      ensures quiet ==> Outcome(Now(), r) == Creation(old(Now()), k, job)
    {
      hide IsStep;
      ghost var stores0 := stores;
      Interfere();
      var failed := Fails();
      if failed {
        return Err(Transient);
      }
      if k in Now().objs {
        return Err(AlreadyExists);
      }
      HookPersists(cfg, stores0, stores, k, job, why);
      Commit(Put(Now(), k, job), JobCreated(k, job, why));
      r := Ok(());
    }

    /** Update of a volume claim's labels. */
    method UpdateClaim(k: Key, entry: Entry, o: Object, ghost readAt: nat) returns (r: Result<()>)
      requires Valid() && k.kind == ClaimKind && o.Claim? && o != entry.obj
      requires readAt < |stores| && k in stores[readAt].objs && stores[readAt].objs[k] == entry && entry.obj.Claim?
      modifies this`stores, this`events
      ensures Valid() && old(stores) <= stores && old(events) <= events
      ensures r.Ok? ==> k in Now().objs && Now().objs[k].obj == o
      ensures quiet && readAt == |old(stores)| - 1 ==> r.Ok? && Now() == Put(old(Now()), k, o)
    {
      hide IsRun, Enabled, Effect;
      Interfere();
      var failed := Fails();
      if failed || k !in Now().objs || Now().objs[k].rv != entry.rv {
        return Err(Conflict);
      }
      VersionIdentifies(cfg, stores, events, readAt, |stores| - 1, k);
      ForeignStep(cfg, stores, k, o);
      Commit(Put(Now(), k, o), Foreign(k, o));
      r := Ok(());
    }

    /** Status().Update of the Stack version `entry`. */
    method WriteStatus(sk: Key, entry: Entry, status: Status, ghost why: Reason) returns (r: Result<()>)
      requires Valid() && why.Assessment? && HasStack(stores, why.version, sk) && stores[why.version].objs[sk] == entry
      requires StatusJustified(cfg, stores, sk, entry.obj, status, why)
      modifies this`stores, this`events
      ensures Valid() && old(stores) <= stores && old(events) <= events
      ensures r.Ok? ==> sk in Now().objs && Now().objs[sk].obj == entry.obj.(status := status)
      ensures quiet ==> Outcome(Now(), r) == StatusUpdate(old(Now()), sk, entry, status)
    {
      hide IsStep, StatusJustified, Possible;
      ghost var stores0 := stores;
      Interfere();
      var failed := Fails();
      if failed {
        return Err(Transient);
      }
      if sk !in Now().objs {
        return Err(NotFound);
      }
      if Now().objs[sk].rv != entry.rv {
        return Err(Conflict);
      }
      VersionIdentifies(cfg, stores, events, why.version, |stores| - 1, sk);
      StatusPersists(cfg, stores0, stores, sk, entry.obj, status, why);
      if entry.obj.status != status {
        Commit(Put(Now(), sk, entry.obj.(status := status)), StatusWritten(sk, status, why));
      }
      r := Ok(());
    }

    /** List of the clone artifacts that carry clone-owner=ns; unstructured, so
        not off the cache. A kind the cluster does not have lists nothing. */
    method ListArtifacts(kind: Kind, ns: string) returns (r: Result<seq<Key>>, at: nat)
      requires Valid()
      modifies this`stores, this`events
      ensures Valid() && old(stores) <= stores && old(events) <= events && at == |stores| - 1
      ensures r.Ok? ==> IsListing(r.value, Labelled(stores[at], kind, ns))
      ensures quiet ==> stores == old(stores) && r.Ok?
    {
      hide IsStep;
      Interfere();
      at := |stores| - 1;
      var failed := Fails();
      if failed {
        return Err(Transient), at;
      }
      var items := Enumerate(Labelled(stores[at], kind, ns));
      r := Ok(items);
    }

    /** Delete, with NotFound taken for success: accepted, or already gone. */
    method Delete(k: Key) returns (r: Result<()>)
      requires Valid()
      modifies this`stores, this`events
      ensures Valid() && old(stores) <= stores && old(events) <= events
      ensures r.Ok? ==> Doomed(Now(), k)
      ensures quiet ==> r.Ok? && Now() == Doom(old(Now()), k)
    {
      hide IsStep, Warranted;
      Interfere();
      var failed := Fails();
      if failed {
        return Err(Transient);
      }
      if k in Now().objs {
        RunTyped(cfg, stores, events, |stores| - 1);
        DeleteEnabled(cfg, stores, k);
        Commit(Doom(Now(), k), DeleteAccepted(k));
      }
      r := Ok(());
    }

    /** Update of an Environment's finalizer list. */
    method AddFinalizer(ek: Key, entry: Entry, ghost readAt: nat) returns (r: Result<()>)
      requires Valid() && HasEnvironment(stores, readAt, ek) && stores[readAt].objs[ek] == entry
      requires !entry.deleting && !entry.obj.finalizer
      modifies this`stores, this`events
      ensures Valid() && old(stores) <= stores && old(events) <= events
      ensures r.Ok? ==>
                HasEnvironment(stores, |stores| - 1, ek) && Now().objs[ek].uid == entry.uid &&
                Now().objs[ek].obj.finalizer
      ensures quiet && readAt == |old(stores)| - 1 ==>
                r.Ok? && Now() == Put(old(Now()), ek, entry.obj.(finalizer := true))
    {
      hide IsRun, Warranted;
      Interfere();
      var failed := Fails();
      if failed {
        return Err(Transient);
      }
      if ek !in Now().objs || Now().objs[ek].rv != entry.rv {
        return Err(if ek !in Now().objs then NotFound else Conflict);
      }
      VersionIdentifies(cfg, stores, events, readAt, |stores| - 1, ek);
      FinalizerEnabled(cfg, stores, ek);
      Commit(Put(Now(), ek, entry.obj.(finalizer := true)), FinalizerAdded(ek));
      r := Ok(());
    }

    method RemoveFinalizer(ek: Key, entry: Entry, ghost why: Reason) returns (r: Result<()>)
      requires Valid() && TeardownJustified(stores, ek, why) && stores[why.version].objs[ek] == entry
      modifies this`stores, this`events
      ensures Valid() && old(stores) <= stores && old(events) <= events
      ensures r.Ok? ==> ek in Now().objs && Now().objs[ek].obj == entry.obj.(finalizer := false)
      ensures quiet && ek in old(Now()).objs && old(Now()).objs[ek].rv == entry.rv ==>
                r.Ok? && Now() == Put(old(Now()), ek, entry.obj.(finalizer := false))
    {
      hide IsRun;
      ghost var stores0 := stores;
      Interfere();
      var failed := Fails();
      if failed {
        return Err(Transient);
      }
      if ek !in Now().objs || Now().objs[ek].rv != entry.rv {
        return Err(if ek !in Now().objs then NotFound else Conflict);
      }
      VersionIdentifies(cfg, stores, events, why.version, |stores| - 1, ek);
      TeardownPersists(stores0, stores, ek, why);
      RemovalEnabled(cfg, stores, ek, why);
      Commit(Put(Now(), ek, entry.obj.(finalizer := false)), FinalizerRemoved(ek, why));
      r := Ok(());
    }

    /** List of the Deployments labelled with a Stack, off the cache. */
    method ListDeployments(ns: string, stack: string) returns (r: Result<seq<Key>>, at: nat)
      requires Valid()
      modifies this`stores, this`events
      ensures Valid() && old(stores) <= stores && old(events) <= events && at < |stores|
      ensures r.Ok? ==> IsListing(r.value, Listed(stores[at], ns, stack))
      ensures quiet ==> stores == old(stores) && r.Ok? && at == |stores| - 1
    {
      hide IsStep;
      Interfere();
      at := |stores| - 1;
      if !quiet {
        var lag: int := *;
        at := if 0 <= lag <= at then at - lag else 0;
      }
      var failed := Fails();
      if failed {
        return Err(Transient), at;
      }
      var items := Enumerate(Listed(stores[at], ns, stack));
      r := Ok(items);
    }
  }

  /** What was read decides a call nobody disturbs. */
  lemma QuietApply(cfg: Config, s: Store, k: Key, p: Patch, got: Fetched)
    requires k.kind == PatchKind(p) && !got.Failed? && (got.Missing? ==> k !in s.objs)
    requires got.Found? ==> k in s.objs && s.objs[k] == got.entry && KindOf(got.entry.obj) == k.kind
    ensures var made := Mutate(cfg, p, Before(got));
            Apply(cfg, s, k, p) ==
            (if made.Err? then Outcome(s, Err(made.why))
             else if got.Found? && made.value == got.entry.obj then Outcome(s, Ok(got.entry))
             else Outcome(Put(s, k, made.value), Ok(Put(s, k, made.value).objs[k])))
  {
    hide Mutate;
  }

  lemma DeleteEnabled(cfg: Config, stores: seq<Store>, k: Key)
    requires |stores| > 0 && k in stores[|stores| - 1].objs && Typed(stores[|stores| - 1])
    ensures Enabled(cfg, stores, DeleteAccepted(k))
    ensures Effect(cfg, stores[|stores| - 1], DeleteAccepted(k)) == Doom(stores[|stores| - 1], k)
  {
  }

  lemma FinalizerEnabled(cfg: Config, stores: seq<Store>, ek: Key)
    requires |stores| > 0 && ek.kind == EnvironmentKind && ek in stores[|stores| - 1].objs
    requires var e := stores[|stores| - 1].objs[ek]; e.obj.Environment? && !e.deleting
    ensures Enabled(cfg, stores, FinalizerAdded(ek))
    ensures var s := stores[|stores| - 1];
            Effect(cfg, s, FinalizerAdded(ek)) == Put(s, ek, s.objs[ek].obj.(finalizer := true))
  {
  }

  lemma RemovalEnabled(cfg: Config, stores: seq<Store>, ek: Key, why: Reason)
    requires |stores| > 0 && TeardownJustified(stores, ek, why)
    requires var s := stores[|stores| - 1];
             ek in s.objs && s.objs[ek].obj.Environment? && s.objs[ek].rv == stores[why.version].objs[ek].rv
    ensures Enabled(cfg, stores, FinalizerRemoved(ek, why))
    ensures var s := stores[|stores| - 1];
            Effect(cfg, s, FinalizerRemoved(ek, why)) == Put(s, ek, s.objs[ek].obj.(finalizer := false))
  {
  }

  lemma TeardownPersists(stores: seq<Store>, stores': seq<Store>, ek: Key, why: Reason)
    requires stores <= stores' && TeardownJustified(stores, ek, why)
    ensures TeardownJustified(stores', ek, why)
  {
  }

  method Enumerate(keys: set<Key>) returns (items: seq<Key>)
    ensures IsListing(items, keys)
  {
    hide IsListing;
    items := [];
    ListsNothing();
    var rest := keys;
    ghost var done: set<Key> := {};
    while rest != {}
      invariant done + rest == keys && done !! rest && IsListing(items, done)
      decreases |rest|
    {
      var k :| k in rest;
      ListsMore(items, done, k);
      items := items + [k];
      done := done + {k};
      rest := rest - {k};
    }
    assert done == keys;
  }

  lemma ListsNothing()
    ensures IsListing([], {})
  {
  }

  lemma ListsMore(items: seq<Key>, done: set<Key>, k: Key)
    requires IsListing(items, done) && k !in done
    ensures IsListing(items + [k], done + {k})
  {
    assert forall i | 0 <= i < |items| :: items[i] in items;
  }

  /** Every element once. */
  ghost predicate IsListing(items: seq<Key>, keys: set<Key>) {
    (forall i, j | 0 <= i < j < |items| :: items[i] != items[j]) && forall k :: k in items <==> k in keys
  }

  function Before(got: Fetched): Option<Object>
    requires !got.Failed?
  {
    if got.Found? then Some(got.entry.obj) else None
  }

}
