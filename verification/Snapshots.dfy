/** snapshots.go: the staged, cross-namespace clone of a volume. */
module Snapshots {
  import opened Wrappers
  import opened Names
  import opened Objects
  import opened Clusters
  import opened Api

  /** The restore snapshot to seed from, and whether it is ready to use. */
  datatype Restore = Restore(name: string, ready: bool)

  const NOT_YET := Restore("", false)

  function SourceKey(st: Object, ns: string, backing: string): Key
    requires st.Stack?
  {
    SnapshotKey(st.cloneNs, CloneName(ns, backing))
  }

  /** The stores at which the links of a clone were seen, oldest first. */
  datatype Chain = Chain(snapshot: nat, content: nat, shared: nat, restore: nat)

  predicate SharedAs(s: Store, ns: string, backing: string, driver: string, handle: string) {
    var k := ContentKey(CloneName(ns, backing));
    ContentShared(s, ns, backing) && s.objs[k].obj.driver == driver && s.objs[k].obj.handle == handle
  }

  /** A pass that reads version `v` of a Stack. */
  ghost predicate Reads(c: ApiServer, sk: Key, st: Object, v: nat)
    reads c
  {
    c.Valid() && HasStack(c.stores, v, sk) && StackAt(c.stores, v, sk) == st && sk.ns != ""
  }

  lemma ReadStays(stores: seq<Store>, stores': seq<Store>, v: nat, sk: Key)
    requires HasStack(stores, v, sk) && stores <= stores'
    ensures HasStack(stores', v, sk) && StackAt(stores', v, sk) == StackAt(stores, v, sk)
  {
  }

  lemma JustifySource(cfg: Config, stores: seq<Store>, v: nat, sk: Key, st: Object, bi: nat)
    requires HasStack(stores, v, sk) && StackAt(stores, v, sk) == st && sk.ns != "" && IsPreviewClone(st)
    requires bi < |st.spec.backing|
    ensures Justified(cfg, stores, SourceKey(st, sk.ns, st.spec.backing[bi].name),
              SourceSnapshot(sk.ns, ClaimName(st.cloneStack, st.spec.backing[bi].name)), CloneLink(v, sk, bi, 0, 0))
  {
  }

  lemma JustifyContent(cfg: Config, stores: seq<Store>, v: nat, sk: Key, st: Object, bi: nat, snap: nat, cont: nat,
                       driver: string, handle: string)
    requires HasStack(stores, v, sk) && StackAt(stores, v, sk) == st && sk.ns != "" && IsPreviewClone(st)
    requires bi < |st.spec.backing| && snap < |stores| && cont < |stores|
    requires var b := st.spec.backing[bi].name; var source := SourceContent(stores[snap], st, sk.ns, b);
             SourceTaken(stores[snap], st, sk.ns, b, source) && HandleIn(stores[cont], source, driver, handle)
    ensures Justified(cfg, stores, ContentKey(CloneName(sk.ns, st.spec.backing[bi].name)),
              StaticContent(sk.ns, driver, handle, RestoreName(st.spec.backing[bi].name)),
              CloneLink(v, sk, bi, snap, cont))
  {
  }

  lemma JustifyRestore(cfg: Config, stores: seq<Store>, v: nat, sk: Key, st: Object, bi: nat, snap: nat, shared: nat)
    requires HasStack(stores, v, sk) && StackAt(stores, v, sk) == st && sk.ns != "" && IsPreviewClone(st)
    requires bi < |st.spec.backing| && shared < |stores|
    requires ContentShared(stores[shared], sk.ns, st.spec.backing[bi].name)
    ensures Justified(cfg, stores, SnapshotKey(sk.ns, RestoreName(st.spec.backing[bi].name)),
              RestoreSnapshot(sk.ns, CloneName(sk.ns, st.spec.backing[bi].name)), CloneLink(v, sk, bi, snap, shared))
  {
  }

  /** The chain up to the static content. */
  predicate Shared(stores: seq<Store>, st: Object, ns: string, backing: string, c: Chain)
    requires st.Stack?
  {
    c.snapshot <= c.content <= c.shared < |stores| &&
    (var source := SourceContent(stores[c.snapshot], st, ns, backing);
     SourceTaken(stores[c.snapshot], st, ns, backing, source) &&
     ContentKey(source) in stores[c.content].objs && stores[c.content].objs[ContentKey(source)].obj.Content? &&
     (var content := stores[c.content].objs[ContentKey(source)].obj;
      HandleIn(stores[c.content], source, content.driver, content.statusHandle) &&
      SharedAs(stores[c.shared], ns, backing, content.driver, content.statusHandle)))
  }

  /** An unbroken chain: the restore snapshot reads the static content, whose
      handle is that of the content bound to a snapshot of the parent's claim. */
  predicate Unbroken(stores: seq<Store>, st: Object, ns: string, backing: string, c: Chain)
    requires st.Stack?
  {
    Shared(stores, st, ns, backing, c) && c.shared <= c.restore < |stores| && RestoreOf(stores[c.restore], ns, backing)
  }

  lemma LinksHold(stores: seq<Store>, st: Object, ns: string, backing: string, snapshot: nat, content: nat)
    requires st.Stack? && snapshot < |stores| && content < |stores|
    requires var k := SourceKey(st, ns, backing);
             k in stores[snapshot].objs &&
             (var o := stores[snapshot].objs[k].obj;
              o.Snapshot? && o.cloneOwner == ns && o.source == FromClaim(ClaimName(st.cloneStack, backing)) &&
              o.readyToUse && o.boundContent != "" &&
              (var l := ContentKey(o.boundContent);
               l in stores[content].objs && stores[content].objs[l].obj.Content? &&
               stores[content].objs[l].obj.statusHandle != "" && stores[content].objs[l].obj.driver != ""))
    ensures var source := SourceContent(stores[snapshot], st, ns, backing); var k := SourceKey(st, ns, backing);
            source == stores[snapshot].objs[k].obj.boundContent &&
            SourceTaken(stores[snapshot], st, ns, backing, source) &&
            HandleIn(stores[content], source, stores[content].objs[ContentKey(source)].obj.driver,
              stores[content].objs[ContentKey(source)].obj.statusHandle)
  {
  }

  /** Step 2: expose the handle of the content the source snapshot is bound to
      through a static content; Ok(false) when some link is not there yet. */
  method ShareBound(c: ApiServer, sk: Key, st: Object, bi: nat, snapshot: Object, ghost v: nat, ghost taken: nat)
    returns (r: Result<bool>, ghost chain: Chain)
    requires Reads(c, sk, st, v) && bi < |st.spec.backing| && IsPreviewClone(st)
    requires taken == |c.stores| - 1 && SourceKey(st, sk.ns, st.spec.backing[bi].name) in c.Now().objs
    requires c.Now().objs[SourceKey(st, sk.ns, st.spec.backing[bi].name)].obj == snapshot
    requires snapshot.Snapshot? && snapshot.cloneOwner == sk.ns
    requires snapshot.source == FromClaim(ClaimName(st.cloneStack, st.spec.backing[bi].name))
    modifies c`stores, c`events
    ensures c.Valid() && old(c.stores) <= c.stores && old(c.events) <= c.events
    ensures r.Ok? && r.value ==>
              chain.snapshot == taken && chain.shared == |c.stores| - 1 &&
              Shared(c.stores, st, sk.ns, st.spec.backing[bi].name, chain)
    ensures c.quiet ==>
              Outcome(c.Now(), r) == ShareBoundQ(c.cfg, old(c.Now()), sk.ns, st.spec.backing[bi].name, snapshot)
  {
    hide IsRun, SourceTaken, HandleIn, SourceContent, ShareOf, SharedAs, Apply;
    var b := st.spec.backing[bi].name;
    chain := Chain(taken, 0, 0, 0);
    if !snapshot.readyToUse || snapshot.boundContent == "" {
      return Ok(false), chain;
    }
    var got, at := c.Get(ContentKey(snapshot.boundContent));
    ShareSeen(c.stores[at], snapshot.boundContent);
    if !got.Found? {
      return if got.Failed? then Err(Transient) else Ok(false), chain;
    }
    chain := chain.(content := at);
    var bound := got.entry.obj;
    if bound.statusHandle == "" || bound.driver == "" {
      return Ok(false), chain;
    }
    LinksHold(c.stores, st, sk.ns, b, chain.snapshot, chain.content);
    ReadStays(old(c.stores), c.stores, v, sk);
    var shared := ShareTo(c, sk, st, bi, Share(bound.driver, bound.statusHandle), v, chain.snapshot, chain.content);
    if shared.Err? {
      return Err(shared.why), chain;
    }
    chain := chain.(shared := |c.stores| - 1);
    r := Ok(true);
  }

  /** The static content of a clone, for a driver and handle as they were read. */
  method ShareTo(c: ApiServer, sk: Key, st: Object, bi: nat, x: Share, ghost v: nat, ghost snapshot: nat,
                 ghost content: nat)
    returns (r: Result<()>)
    requires Reads(c, sk, st, v) && bi < |st.spec.backing| && IsPreviewClone(st)
    requires snapshot < |c.stores| && content < |c.stores|
    requires var b := st.spec.backing[bi].name; var source := SourceContent(c.stores[snapshot], st, sk.ns, b);
             SourceTaken(c.stores[snapshot], st, sk.ns, b, source) &&
             HandleIn(c.stores[content], source, x.driver, x.handle)
    modifies c`stores, c`events
    ensures c.Valid() && old(c.stores) <= c.stores && old(c.events) <= c.events
    ensures r.Ok? ==> SharedAs(c.Now(), sk.ns, st.spec.backing[bi].name, x.driver, x.handle)
    ensures c.quiet ==>
              var b := st.spec.backing[bi].name;
              var made := Apply(c.cfg, old(c.Now()), ContentKey(CloneName(sk.ns, b)), SharePatch(sk.ns, b, x));
              Outcome(c.Now(), r) == Outcome(made.store, if made.result.Err? then Err(made.result.why) else Ok(()))
  {
    hide IsStep, Justified, Mutate, Apply, SourceTaken, HandleIn, SourceContent;
    var b := st.spec.backing[bi].name;
    JustifyContent(c.cfg, c.stores, v, sk, st, bi, snapshot, content, x.driver, x.handle);
    var made, at := c.CreateOrUpdate(ContentKey(CloneName(sk.ns, b)), SharePatch(sk.ns, b, x),
      CloneLink(v, sk, bi, snapshot, content));
    r := if made.Err? then Err(made.why) else Ok(());
  }

  /** What sharing takes from a content, when both are there. */
  datatype Share = Share(driver: string, handle: string)

  function ShareOf(s: Store, content: string): Option<Share> {
    var bound := Find(s, ContentKey(content));
    if bound.None? || bound.value.statusHandle == "" || bound.value.driver == "" then None
    else Some(Share(bound.value.driver, bound.value.statusHandle))
  }

  lemma ShareSeen(s: Store, content: string)
    ensures var k := ContentKey(content);
            k !in s.objs ==> ShareOf(s, content).None?
    ensures var k := ContentKey(content);
            k in s.objs && s.objs[k].obj.Content? ==>
              var o := s.objs[k].obj;
              ShareOf(s, content) ==
                if o.statusHandle == "" || o.driver == "" then None else Some(Share(o.driver, o.statusHandle))
  {
  }

  function SharePatch(ns: string, b: string, x: Share): Patch {
    StaticContent(ns, x.driver, x.handle, RestoreName(b))
  }

  function ShareBoundQ(cfg: Config, s: Store, ns: string, b: string, snapshot: Object): Outcome<bool>
    requires snapshot.Snapshot?
  {
    if !snapshot.readyToUse || snapshot.boundContent == "" then Outcome(s, Ok(false))
    else
      match ShareOf(s, snapshot.boundContent)
      case None => Outcome(s, Ok(false))
      case Some(x) =>
        var content := Apply(cfg, s, ContentKey(CloneName(ns, b)), SharePatch(ns, b, x));
        Outcome(content.store, if content.result.Err? then Err(content.result.why) else Ok(true))
  }

  /** Steps 1 and 2: take the parent's snapshot and share what it is bound to. */
  method ShareHandle(c: ApiServer, sk: Key, st: Object, bi: nat, ghost v: nat)
    returns (r: Result<bool>, ghost chain: Chain)
    requires Reads(c, sk, st, v) && bi < |st.spec.backing| && IsPreviewClone(st)
    modifies c`stores, c`events
    ensures c.Valid() && old(c.stores) <= c.stores && old(c.events) <= c.events
    ensures r.Ok? && r.value ==>
              |old(c.stores)| - 1 <= chain.snapshot && chain.shared == |c.stores| - 1 &&
              Shared(c.stores, st, sk.ns, st.spec.backing[bi].name, chain)
    ensures c.quiet ==> Outcome(c.Now(), r) == SharedQ(c.cfg, old(c.Now()), st, sk.ns, st.spec.backing[bi].name)
  {
    hide IsStep, Justified, Mutate, Apply, IsRun, Shared, ShareBoundQ;
    var b := st.spec.backing[bi].name;
    chain := Chain(0, 0, 0, 0);
    JustifySource(c.cfg, c.stores, v, sk, st, bi);
    var src, at := c.CreateOrUpdate(SourceKey(st, sk.ns, b), SourceSnapshot(sk.ns, ClaimName(st.cloneStack, b)),
      CloneLink(v, sk, bi, 0, 0));
    if src.Err? {
      return Err(src.why), chain;
    }
    r, chain := ShareBound(c, sk, st, bi, src.value.obj, v, at);
  }

  function SharedQ(cfg: Config, s: Store, st: Object, ns: string, b: string): Outcome<bool>
    requires st.Stack?
  {
    var src := Apply(cfg, s, SourceKey(st, ns, b), SourceSnapshot(ns, ClaimName(st.cloneStack, b)));
    if src.result.Err? then Outcome(src.store, Err(src.result.why))
    else ShareBoundQ(cfg, src.store, ns, b, src.result.value.obj)
  }

  /** The source snapshot of a clone is ready and bound. */
  predicate SourceBound(s: Store, st: Object, ns: string, b: string)
    requires st.Stack?
  {
    var k := SourceKey(st, ns, b);
    k in s.objs && s.objs[k].obj.Snapshot? && s.objs[k].obj.readyToUse && s.objs[k].obj.boundContent != ""
  }

  /** prepareCloneRestore: share the parent's handle, then restore from it. */
  method PrepareCloneRestore(c: ApiServer, sk: Key, st: Object, bi: nat, ghost v: nat)
    returns (r: Result<Restore>, ghost chain: Chain)
    requires Reads(c, sk, st, v) && bi < |st.spec.backing|
    modifies c`stores, c`events
    ensures c.Valid() && old(c.stores) <= c.stores && old(c.events) <= c.events
    ensures r.Ok? && r.value.ready ==>
              r.value.name == RestoreName(st.spec.backing[bi].name) &&
              |old(c.stores)| - 1 <= chain.snapshot && chain.restore == |c.stores| - 1 &&
              Unbroken(c.stores, st, sk.ns, st.spec.backing[bi].name, chain) &&
              RestoreReady(c.Now(), sk.ns, st.spec.backing[bi].name)
    ensures c.quiet ==> Outcome(c.Now(), r) == CloneRestore(c.cfg, old(c.Now()), st, sk.ns, st.spec.backing[bi].name)
  {
    hide IsStep, Justified, Mutate, Apply, IsRun, SharedQ, SourceTaken, HandleIn, CloneName, ContentShared;
    var b := st.spec.backing[bi].name;
    chain := Chain(0, 0, 0, 0);
    if !IsPreviewClone(st) {
      return Ok(NOT_YET), chain;
    }
    var shared;
    shared, chain := ShareHandle(c, sk, st, bi, v);
    if shared.Err? || !shared.value {
      return if shared.Err? then Err(shared.why) else Ok(NOT_YET), chain;
    }
    JustifyRestore(c.cfg, c.stores, v, sk, st, bi, chain.snapshot, chain.shared);
    var restore, at := c.CreateOrUpdate(SnapshotKey(sk.ns, RestoreName(b)),
      RestoreSnapshot(sk.ns, CloneName(sk.ns, b)), CloneLink(v, sk, bi, chain.snapshot, chain.shared));
    if restore.Err? {
      return Err(restore.why), chain;
    }
    chain := chain.(restore := at);
    r := Ok(Restore(RestoreName(b), restore.value.obj.readyToUse));
  }

  /** The same when nothing falls between its calls. */
  function CloneRestore(cfg: Config, s: Store, st: Object, ns: string, b: string): Outcome<Restore>
    requires st.Stack?
  {
    if !IsPreviewClone(st) then Outcome(s, Ok(NOT_YET))
    else
      var shared := SharedQ(cfg, s, st, ns, b);
      if shared.result.Err? then Outcome(shared.store, Err(shared.result.why))
      else if !shared.result.value then Outcome(shared.store, Ok(NOT_YET))
      else
        var restore := Apply(cfg, shared.store, SnapshotKey(ns, RestoreName(b)), RestoreSnapshot(ns, CloneName(ns, b)));
        Outcome(restore.store, if restore.result.Err? then Err(restore.result.why)
                               else Ok(Restore(RestoreName(b), restore.result.value.obj.readyToUse)))
  }
}
