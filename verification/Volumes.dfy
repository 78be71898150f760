/** The parts the StatefulSet tiers share: seeding a volume, labelling it for
    backups, and the StatefulSet itself. */
module Volumes {
  import opened Wrappers
  import opened Names
  import opened Objects
  import opened Clusters
  import opened Api
  import opened Snapshots

  /** What a pass may do about a volume: wait for the clone, create it empty (or
      keep the one there is), or create it from a snapshot. */
  datatype Seed = Wait | Fresh | From(snapshot: string)

  function SourceOf(seed: Seed): Option<string> {
    if seed.From? then Some(seed.snapshot) else None
  }

  /** A provisioned backing, as the tiers report it. */
  datatype Provisioned = Provisioned(ready: bool, secret: string, pending: bool)

  function BackingAt(st: Object, bi: nat): BackingSpec
    requires st.Stack? && bi < |st.spec.backing|
  {
    st.spec.backing[bi]
  }

  function OrDefault(v: string, default: string): string { if v == "" then default else v }

  /** The clone gate of reconcileTemplated and reconcileFallback: before the
      first creation in a preview, wait for the restore snapshot. */
  method SeedVolume(c: ApiServer, sk: Key, st: Object, bi: nat, ghost v: nat) returns (r: Result<Seed>, ghost at: nat)
    requires Reads(c, sk, st, v) && bi < |st.spec.backing|
    modifies c`stores, c`events
    ensures c.Valid() && old(c.stores) <= c.stores && old(c.events) <= c.events
    ensures r.Ok? && !r.value.Wait? ==>
              SeedJustified(c.stores, SetKey(sk.ns, BackingName(sk.name, BackingAt(st, bi).name)), st,
                BackingAt(st, bi), SourceOf(r.value), at)
    ensures c.quiet ==> Outcome(c.Now(), r) == Seeding(c.cfg, old(c.Now()), sk, st, BackingAt(st, bi).name)
  {
    hide IsStep, Unbroken, CloneRestore;
    at := 0;
    var b := BackingAt(st, bi).name;
    if !IsPreviewClone(st) {
      return Ok(Fresh), at;
    }
    var got, readAt := c.Get(SetKey(sk.ns, BackingName(sk.name, b)));
    if got.Found? {
      return Ok(Fresh), readAt;
    }
    var restore;
    ghost var chain;
    restore, chain := PrepareCloneRestore(c, sk, st, bi, v);
    if restore.Err? {
      return Err(restore.why), at;
    }
    if !restore.value.ready {
      return Ok(Wait), at;
    }
    r, at := Ok(From(restore.value.name)), chain.restore;
  }

  function Seeding(cfg: Config, s: Store, sk: Key, st: Object, b: string): Outcome<Seed>
    requires st.Stack?
  {
    if !IsPreviewClone(st) || SetKey(sk.ns, BackingName(sk.name, b)) in s.objs then Outcome(s, Ok(Fresh))
    else
      var restore := CloneRestore(cfg, s, st, sk.ns, b);
      match restore.result
      case Err(why) => Outcome(restore.store, Err(why))
      case Ok(value) => Outcome(restore.store, Ok(if value.ready then From(value.name) else Wait))
  }

  function ClaimKey(ns: string, stack: string, backing: string): Key {
    Key(ClaimKind, ns, ClaimName(stack, backing))
  }

  /** labelBackupPVC: a claim that is not there yet is left for a later pass, one read
      without its label gets it, with its backing. */
  method LabelBackup(c: ApiServer, ns: string, stack: string, backing: string)
    returns (r: Result<()>, ghost read: nat, ghost at: nat)
    requires c.Valid()
    modifies c`stores, c`events
    ensures c.Valid() && old(c.stores) <= c.stores && old(c.events) <= c.events
    ensures r.Ok? ==>
              read <= at < |c.stores| && LabelledIfThere(c.stores[at], ClaimKey(ns, stack, backing)) &&
              (!LabelledIfThere(c.stores[read], ClaimKey(ns, stack, backing)) ==>
                 ClaimKey(ns, stack, backing) in c.stores[at].objs &&
                 c.stores[at].objs[ClaimKey(ns, stack, backing)].obj == Claim(true, backing))
    ensures c.quiet ==> r.Ok? && c.Now() == BackupLabelled(old(c.Now()), ns, stack, backing)
  {
    hide IsStep;
    var k := ClaimKey(ns, stack, backing);
    var got, readAt := c.Get(k);
    read, at := readAt, readAt;
    match got
    case Failed => r := Err(Transient);
    case Missing => r := Ok(());
    case Found(entry) =>
      r := Ok(());
      if !entry.obj.backup {
        r := c.UpdateClaim(k, entry, Claim(true, backing), at);
        at := |c.stores| - 1;
      }
  }

  predicate LabelledIfThere(s: Store, k: Key) {
    k in s.objs ==> s.objs[k].obj.Claim? && s.objs[k].obj.backup
  }

  function BackupLabelled(s: Store, ns: string, stack: string, backing: string): Store {
    var k := ClaimKey(ns, stack, backing);
    var claim := Find(s, k);
    if claim.Some? && !claim.value.backup then Put(s, k, Claim(true, backing)) else s
  }
}
