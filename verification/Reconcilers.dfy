/** StackReconciler.Reconcile and updateStatus (stack_controller.go). */
module Reconcilers {
  import opened Wrappers
  import opened Objects
  import opened Clusters
  import opened Api
  import opened Snapshots
  import opened Bindings
  import opened Catalogs
  import opened Tiers
  import opened Backings
  import opened Services

  // ---------------------------------------------------------------- one service

  /** What a pass does with a service. */
  datatype Fate = NoImage | Held | HookBroken | HookActive | RolledOut

  /** Where the reads behind a fate were answered, and the env resolved. */
  datatype Trace = Trace(passage: Passage, deployed: seq<Spot>)

  const NO_TRACE := Trace(Passage(0, [], None, []), [])

  ghost predicate FateTrue(cfg: Config, stores: seq<Store>, sk: Key, st: Object, svc: ServiceSpec,
                           backings: map<string, Backing>, fate: Fate, t: Trace)
    requires st.Stack?
  {
    var k := JobKey(sk, svc.name, st.generation);
    match fate
    case NoImage => svc.image == ""
    case Held =>
      svc.image != "" &&
      exists i | 0 <= i < |svc.connections| ::
        Blocks(Urls(sk, st.spec, |st.spec.services|), backings, svc.connections[i].target)
    case HookBroken =>
      svc.image != "" && HasHook(svc) && Connected(cfg, stores, sk, st.spec, svc, t.passage) &&
      JobSeen(stores, k, JobFailed, t.passage.job)
    case HookActive =>
      svc.image != "" && HasHook(svc) && Connected(cfg, stores, sk, st.spec, svc, t.passage) &&
      JobSeen(stores, k, JobActive, t.passage.job)
    case RolledOut =>
      svc.image != "" && GatesPassed(cfg, stores, sk, st, svc, t.passage) &&
      AllDeployed(cfg, stores, sk, svc, t.passage.env, |svc.processes|, t.deployed)
  }

  lemma FatePersists(cfg: Config, stores: seq<Store>, stores': seq<Store>, sk: Key, st: Object, svc: ServiceSpec,
                     backings: map<string, Backing>, fate: Fate, t: Trace)
    requires st.Stack? && stores <= stores' && FateTrue(cfg, stores, sk, st, svc, backings, fate, t)
    ensures FateTrue(cfg, stores', sk, st, svc, backings, fate, t)
  {
    hide GatesPassed, AllDeployed, Connected;
    if fate.HookBroken? || fate.HookActive? {
      ConnectedPersists(cfg, stores, stores', sk, st.spec, svc, t.passage);
    }
    if fate.RolledOut? {
      GatesPersist(cfg, stores, stores', sk, st, svc, t.passage);
      DeployedPersist(cfg, stores, stores', sk, svc, t.passage.env, |svc.processes|, t.deployed);
    }
  }

  lemma JobSeenDone(stores: seq<Store>, sk: Key, st: Object, svc: ServiceSpec, at: nat)
    requires st.Stack? && JobSeen(stores, JobKey(sk, svc.name, st.generation), JobComplete, at)
    ensures HookDone(stores, sk, st, svc, at)
  {
  }

  /** The body of the services loop. */
  method ReconcileService(c: ApiServer, sk: Key, st: Object, si: nat, urls: map<string, string>, ledger: Ledger,
                          ghost v: nat, ghost read: Option<nat>, ghost sights: map<string, Sight>)
    returns (r: Result<Fate>, ghost t: Trace)
    requires Reads(c, sk, st, v) && si < |st.spec.services| && urls == Urls(sk, st.spec, |st.spec.services|)
    requires ReadIn(c.stores, read)
    requires LedgerSound(c.cfg, DataRead(c.cfg, c.stores, read), c.stores, sk, st.spec, |st.spec.backing|, ledger,
                         sights)
    modifies c`stores, c`events
    ensures c.Valid() && old(c.stores) <= c.stores && old(c.events) <= c.events
    ensures r.Ok? ==> FateTrue(c.cfg, c.stores, sk, st, st.spec.services[si], ledger.backings, r.value, t)
    ensures c.quiet ==>
              Outcome(c.Now(), r) == ServiceQ(c.cfg, old(c.Now()), sk, st, st.spec.services[si], urls, ledger.backings)
  {
    hide IsRun, LedgerSound, ProcessesQ, AllDeployed, Connected, HookDone, JobSeen, Urls, ReleaseGateQ;
    t := NO_TRACE;
    var svc := st.spec.services[si];
    if svc.image == "" {
      return Ok(NoImage), t;
    }
    var resolved := ResolveConnections(c.cfg, urls, ledger.backings, svc);
    if resolved.wait {
      WaitsForBacking(c.cfg, urls, ledger.backings, svc, |svc.connections|);
      return Ok(Held), t;
    }
    ghost var g := Passage(0, SeenAt(sights, svc), read, resolved.env);
    NotWaitingIsMet(c.cfg, c.stores, sk, st.spec, svc, ledger, sights, read, g);
    ghost var stores1 := c.stores;
    if HasHook(svc) {
      var gate;
      ghost var job;
      gate, job := ReleaseGate(c, sk, st, si, resolved.env, v, g);
      if gate.Err? {
        return Err(gate.why), t;
      }
      ConnectedPersists(c.cfg, stores1, c.stores, sk, st.spec, svc, g);
      JobAside(c.cfg, c.stores, sk, st.spec, svc, g, job);
      g := g.(job := job);
      t := t.(passage := g);
      if gate.value != JobComplete {
        return Ok(if gate.value == JobFailed then HookBroken else HookActive), t;
      }
      JobSeenDone(c.stores, sk, st, svc, job);
    } else {
      NoHookDone(c.stores, sk, st, svc, g.job);
    }
    ghost var stores2 := c.stores;
    var rolled;
    ghost var deployed;
    rolled, deployed := RollOut(c, sk, st, si, resolved.env, v, g);
    if rolled.Err? {
      return Err(rolled.why), t;
    }
    GatesPersist(c.cfg, stores2, c.stores, sk, st, svc, g);
    t := Trace(g, deployed);
    r := Ok(RolledOut);
  }

  lemma JobAside(cfg: Config, stores: seq<Store>, sk: Key, spec: StackSpec, svc: ServiceSpec, g: Passage, job: nat)
    requires Connected(cfg, stores, sk, spec, svc, g)
    ensures Connected(cfg, stores, sk, spec, svc, g.(job := job))
  {
    hide ConnectionsMet, EnvFits, DataRead;
  }

  lemma NoHookDone(stores: seq<Store>, sk: Key, st: Object, svc: ServiceSpec, job: nat)
    requires st.Stack? && !HasHook(svc)
    ensures HookDone(stores, sk, st, svc, job)
  {
  }

  ghost function ServiceQ(cfg: Config, s: Store, sk: Key, st: Object, svc: ServiceSpec, urls: map<string, string>,
                          backings: map<string, Backing>): Outcome<Fate>
    requires st.Stack?
  {
    if svc.image == "" then Outcome(s, Ok(NoImage))
    else
      var resolved := Resolve(cfg, urls, backings, svc, |svc.connections|);
      if resolved.wait then Outcome(s, Ok(Held))
      else
        var gate := if HasHook(svc) then ReleaseGateQ(cfg, s, sk, st, svc, resolved.env)
                    else Outcome(s, Ok(JobComplete));
        if gate.result.Err? then Outcome(gate.store, Err(gate.result.why))
        else if gate.result.value == JobFailed then Outcome(gate.store, Ok(HookBroken))
        else if gate.result.value == JobActive then Outcome(gate.store, Ok(HookActive))
        else
          var rolled := ProcessesQ(cfg, gate.store, sk, svc, resolved.env, |svc.processes|);
          Outcome(rolled.store, if rolled.result.Err? then Err(rolled.result.why) else Ok(RolledOut))
  }

  // --------------------------------------------------------------- all services

  ghost function ServicesQ(cfg: Config, s: Store, sk: Key, st: Object, backings: map<string, Backing>,
        n: nat): Outcome<seq<Fate>>
    requires st.Stack? && n <= |st.spec.services|
  {
    if n == 0 then Outcome(s, Ok([]))
    else
      var before := ServicesQ(cfg, s, sk, st, backings, n - 1);
      if before.result.Err? then before
      else
        var one := ServiceQ(cfg, before.store, sk, st, st.spec.services[n - 1], Urls(sk, st.spec, |st.spec.services|),
                            backings);
        Outcome(one.store, if one.result.Err? then Err(one.result.why)
                           else Ok(before.result.value + [one.result.value]))
  }

  lemma ServiceErrStays(cfg: Config, s: Store, sk: Key, st: Object, backings: map<string, Backing>, m: nat, n: nat)
    requires st.Stack? && m <= n <= |st.spec.services| && ServicesQ(cfg, s, sk, st, backings, m).result.Err?
    ensures ServicesQ(cfg, s, sk, st, backings, n) == ServicesQ(cfg, s, sk, st, backings, m)
  {
  }

  ghost predicate FatesTrue(cfg: Config, stores: seq<Store>, sk: Key, st: Object, backings: map<string, Backing>,
        n: nat, fates: seq<Fate>, traces: seq<Trace>)
    requires st.Stack?
  {
    |fates| == |traces| == n <= |st.spec.services| &&
    forall i | 0 <= i < n :: FateTrue(cfg, stores, sk, st, st.spec.services[i], backings, fates[i], traces[i])
  }

  lemma FatesPersist(cfg: Config, stores: seq<Store>, stores': seq<Store>, sk: Key, st: Object,
        backings: map<string, Backing>, n: nat, fates: seq<Fate>, traces: seq<Trace>)
    requires st.Stack? && stores <= stores' && FatesTrue(cfg, stores, sk, st, backings, n, fates, traces)
    ensures FatesTrue(cfg, stores', sk, st, backings, n, fates, traces)
  {
    hide FateTrue;
    forall i | 0 <= i < n ensures FateTrue(cfg, stores', sk, st, st.spec.services[i], backings, fates[i], traces[i]) {
      FatePersists(cfg, stores, stores', sk, st, st.spec.services[i], backings, fates[i], traces[i]);
    }
  }

  lemma NoFates(cfg: Config, stores: seq<Store>, sk: Key, st: Object, backings: map<string, Backing>)
    requires st.Stack?
    ensures FatesTrue(cfg, stores, sk, st, backings, 0, [], [])
  {
  }

  lemma FatesMore(cfg: Config, stores: seq<Store>, sk: Key, st: Object, backings: map<string, Backing>, n: nat,
                  fates: seq<Fate>, traces: seq<Trace>, fate: Fate, t: Trace)
    requires st.Stack? && n < |st.spec.services| && FatesTrue(cfg, stores, sk, st, backings, n, fates, traces)
    requires FateTrue(cfg, stores, sk, st, st.spec.services[n], backings, fate, t)
    ensures FatesTrue(cfg, stores, sk, st, backings, n + 1, fates + [fate], traces + [t])
  {
    hide FateTrue;
  }

  /** The three flags the loop keeps. */
  datatype Flags = Flags(held: bool, active: bool, broken: bool)

  function FlagsOf(fates: seq<Fate>): Flags {
    Flags(Held in fates, HookActive in fates, HookBroken in fates)
  }

  /** The services loop of Reconcile. */
  method ReconcileServices(c: ApiServer, sk: Key, st: Object, ledger: Ledger, ghost v: nat, ghost read: Option<nat>,
                           ghost sights: map<string, Sight>)
    returns (r: Result<Flags>, ghost fates: seq<Fate>, ghost traces: seq<Trace>)
    requires Reads(c, sk, st, v)
    requires ReadIn(c.stores, read)
    requires LedgerSound(c.cfg, DataRead(c.cfg, c.stores, read), c.stores, sk, st.spec, |st.spec.backing|, ledger,
                         sights)
    modifies c`stores, c`events
    ensures c.Valid() && old(c.stores) <= c.stores && old(c.events) <= c.events
    ensures r.Ok? ==> FatesTrue(c.cfg, c.stores, sk, st, ledger.backings, |st.spec.services|, fates, traces)
    ensures r.Ok? ==> r.value == FlagsOf(fates)
    ensures c.quiet && r.Ok? ==>
              Outcome(c.Now(), Ok(fates)) == ServicesQ(c.cfg, old(c.Now()), sk, st, ledger.backings, |st.spec.services|)
    ensures c.quiet && r.Err? ==>
              Outcome(c.Now(), Err(r.why)) ==
                ServicesQ(c.cfg, old(c.Now()), sk, st, ledger.backings, |st.spec.services|)
  {
    hide IsStep, LedgerSound, FateTrue, FatesTrue, ServiceQ, Urls, DataRead;
    fates, traces := [], [];
    ghost var data := DataRead(c.cfg, c.stores, read);
    NoFates(c.cfg, c.stores, sk, st, ledger.backings);
    var urls := ServiceUrls(sk, st.spec);
    var flags := Flags(false, false, false);
    for i := 0 to |st.spec.services|
      invariant Reads(c, sk, st, v) && old(c.stores) <= c.stores && old(c.events) <= c.events
      invariant FatesTrue(c.cfg, c.stores, sk, st, ledger.backings, i, fates, traces)
      invariant flags == FlagsOf(fates)
      invariant c.quiet ==>
                  Outcome(c.Now(), Ok(fates)) == ServicesQ(c.cfg, old(c.Now()), sk, st, ledger.backings, i)
    {
      LedgerPersists(c.cfg, data, old(c.stores), c.stores, sk, st.spec, |st.spec.backing|, ledger, sights);
      DataStays(c.cfg, old(c.stores), c.stores, read);
      ghost var stores0 := c.stores;
      var one;
      ghost var t;
      one, t := ReconcileService(c, sk, st, i, urls, ledger, v, read, sights);
      if one.Err? {
        if c.quiet {
          ServiceErrStays(c.cfg, old(c.Now()), sk, st, ledger.backings, i + 1, |st.spec.services|);
        }
        return Err(one.why), fates, traces;
      }
      FatesPersist(c.cfg, stores0, c.stores, sk, st, ledger.backings, i, fates, traces);
      match one.value {
        case Held => flags := flags.(held := true);
        case HookActive => flags := flags.(active := true);
        case HookBroken => flags := flags.(broken := true);
        case _ =>
      }
      FatesMore(c.cfg, c.stores, sk, st, ledger.backings, i, fates, traces, one.value, t);
      fates, traces := fates + [one.value], traces + [t];
    }
    r := Ok(flags);
  }

  // --------------------------------------------------------------------- status

  predicate AnyHook(spec: StackSpec) {
    exists i | 0 <= i < |spec.services| :: HasHook(spec.services[i])
  }

  /** hasReleaseHook. */
  method HasReleaseHook(spec: StackSpec) returns (r: bool)
    ensures r == AnyHook(spec)
  {
    for i := 0 to |spec.services|
      invariant forall j | 0 <= j < i :: !HasHook(spec.services[j])
    {
      if HasHook(spec.services[i]) {
        return true;
      }
    }
    r := false;
  }

  function NextStatus(st: Object, flags: Flags, total: nat, ready: nat): Status
    requires st.Stack?
  {
    var base := st.status.(services := |st.spec.services|, readyServices := ready, observedGeneration := st.generation);
    if flags.broken then base.(hook := HookFailed, phase := ReleaseFailed)
    else if flags.held then base.(phase := ProvisioningBacking)
    else if flags.active then base.(hook := HookRunning, phase := ReleaseHook)
    else base.(hook := if AnyHook(st.spec) then HookComplete else HookNone,
               phase := if total > 0 && ready == total then Running else Progressing)
  }

  function ReadyOf(s: Store, keys: set<Key>): set<Key> {
    set k | k in keys && DeploymentReady(s, k)
  }

  /** The counting loop of updateStatus. */
  method CountReady(s: Store, items: seq<Key>, ghost keys: set<Key>) returns (total: nat, ready: nat)
    requires IsListing(items, keys)
    ensures total == |keys| && ready == |ReadyOf(s, keys)|
  {
    hide DeploymentReady, ReadyOf;
    total, ready := 0, 0;
    ghost var counted: set<Key> := {};
    NoneReady(s);
    for i := 0 to |items|
      invariant forall k :: k in counted <==> exists j | 0 <= j < i :: items[j] == k
      invariant total == |counted| && ready == |ReadyOf(s, counted)|
    {
      OneMoreReady(s, counted, items[i]);
      total := total + 1;
      if DeploymentReady(s, items[i]) {
        ready := ready + 1;
      }
      counted := counted + {items[i]};
    }
    assert counted == keys;
  }

  lemma NoneReady(s: Store)
    ensures ReadyOf(s, {}) == {}
  {
  }

  lemma OneMoreReady(s: Store, counted: set<Key>, k: Key)
    requires k !in counted
    ensures |ReadyOf(s, counted + {k})| == |ReadyOf(s, counted)| + (if DeploymentReady(s, k) then 1 else 0)
  {
    hide DeploymentReady;
    var more := counted + {k};
    if DeploymentReady(s, k) {
      assert ReadyOf(s, more) == ReadyOf(s, counted) + {k};
    } else {
      assert ReadyOf(s, more) == ReadyOf(s, counted);
    }
  }

  lemma AllReadyCounts(s: Store, ns: string, stack: string)
    ensures var keys := Listed(s, ns, stack);
            |keys| > 0 && |ReadyOf(s, keys)| == |keys| <==> AllDeploymentsReady(s, ns, stack)
  {
    var keys := Listed(s, ns, stack);
    var ready := ReadyOf(s, keys);
    if AllDeploymentsReady(s, ns, stack) {
      assert ready == keys;
    }
    if |ready| == |keys| {
      SubsetOfSameSize(ready, keys);
    }
  }

  lemma SubsetOfSameSize(a: set<Key>, b: set<Key>)
    requires a <= b && |a| == |b|
    ensures a == b
  {
    assert b == a + (b - a);
  }

  lemma StatusIsJustified(cfg: Config, stores: seq<Store>, sk: Key, st: Object, backings: map<string, Backing>,
                          fates: seq<Fate>, traces: seq<Trace>, v: nat, listed: nat)
    requires st.Stack? && listed < |stores|
    requires FatesTrue(cfg, stores, sk, st, backings, |st.spec.services|, fates, traces)
    ensures var keys := Listed(stores[listed], sk.ns, sk.name);
            StatusJustified(cfg, stores, sk, st,
              NextStatus(st, FlagsOf(fates), |keys|, |ReadyOf(stores[listed], keys)|), AssessmentOf(traces, v, listed))
  {
    hide GatesPassed, AllDeploymentsReady, Listed;
    var keys := Listed(stores[listed], sk.ns, sk.name);
    var why := AssessmentOf(traces, v, listed);
    var status := NextStatus(st, FlagsOf(fates), |keys|, |ReadyOf(stores[listed], keys)|);
    AllReadyCounts(stores[listed], sk.ns, sk.name);
    if status.phase == Running || status.phase == Progressing {
      forall i | 0 <= i < |st.spec.services| && st.spec.services[i].image != ""
        ensures GatesPassed(cfg, stores, sk, st, st.spec.services[i], why.passages[i])
      {
        assert fates[i] in fates;
        assert FateTrue(cfg, stores, sk, st, st.spec.services[i], backings, fates[i], traces[i]);
      }
    }
  }

  function AssessmentOf(traces: seq<Trace>, v: nat, listed: nat): Reason {
    Assessment(v, seq(|traces|, i requires 0 <= i < |traces| => traces[i].passage), listed)
  }

  /** updateStatus; the result is whether to requeue. */
  method UpdateStatus(c: ApiServer, sk: Key, entry: Entry, flags: Flags, pending: bool, ghost v: nat,
                      ghost backings: map<string, Backing>, ghost fates: seq<Fate>, ghost traces: seq<Trace>)
    returns (r: Result<bool>, ghost listed: nat)
    requires Reads(c, sk, entry.obj, v) && c.stores[v].objs[sk] == entry && flags == FlagsOf(fates)
    requires FatesTrue(c.cfg, c.stores, sk, entry.obj, backings, |entry.obj.spec.services|, fates, traces)
    modifies c`stores, c`events
    ensures c.Valid() && old(c.stores) <= c.stores && old(c.events) <= c.events
    ensures r.Ok? ==> r.value == (flags.held || pending)
    ensures r.Ok? ==>
              sk in c.Now().objs && listed < |c.stores| &&
              c.Now().objs[sk].obj == Assessed(c.stores[listed], sk, entry.obj, flags)
    ensures c.quiet ==> Outcome(c.Now(), r) == UpdateStatusQ(old(c.Now()), sk, entry, flags, pending)
  {
    hide IsStep, FatesTrue, StatusJustified;
    ghost var stores0 := c.stores;
    var items, at := c.ListDeployments(sk.ns, sk.name);
    listed := at;
    if items.Err? {
      return Err(items.why), listed;
    }
    var total, ready := CountReady(c.stores[at], items.value, Listed(c.stores[at], sk.ns, sk.name));
    FatesPersist(c.cfg, stores0, c.stores, sk, entry.obj, backings, |entry.obj.spec.services|, fates, traces);
    StatusIsJustified(c.cfg, c.stores, sk, entry.obj, backings, fates, traces, v, at);
    var hooked := HasReleaseHook(entry.obj.spec);
    var status := NextStatus(entry.obj, flags, total, ready);
    var written := c.WriteStatus(sk, entry, status, AssessmentOf(traces, v, at));
    r := if written.Err? then Err(written.why) else Ok(flags.held || pending);
  }

  /** The Stack with the status a pass gives it, Deployments listed in `s`. */
  function Assessed(s: Store, sk: Key, st: Object, flags: Flags): Object
    requires st.Stack?
  {
    var keys := Listed(s, sk.ns, sk.name);
    st.(status := NextStatus(st, flags, |keys|, |ReadyOf(s, keys)|))
  }

  function UpdateStatusQ(s: Store, sk: Key, entry: Entry, flags: Flags, pending: bool): Outcome<bool>
    requires entry.obj.Stack?
  {
    var written := StatusUpdate(s, sk, entry, Assessed(s, sk, entry.obj, flags).status);
    Outcome(written.store, if written.result.Err? then Err(written.result.why) else Ok(flags.held || pending))
  }

  // ------------------------------------------------------------------- the pass

  /** What a successful pass saw and decided. */
  datatype Report = Report(
    version: nat, st: Object, read: Option<nat>, cat: Catalog, ledger: Ledger, sights: map<string, Sight>,
    places: seq<Place>, fates: seq<Fate>, traces: seq<Trace>, listed: nat)

  ghost predicate ReportTrue(cfg: Config, stores: seq<Store>, sk: Key, rep: Report) {
    HasStack(stores, rep.version, sk) && rep.st == StackAt(stores, rep.version, sk) &&
    LoadedAt(cfg, stores, rep.read, rep.cat) &&
    LedgerSound(cfg, DataRead(cfg, stores, rep.read), stores, sk, rep.st.spec, |rep.st.spec.backing|, rep.ledger,
      rep.sights) &&
    AllInPlace(cfg, DataRead(cfg, stores, rep.read), stores, sk, rep.st, |rep.st.spec.backing|, rep.ledger,
               rep.places) &&
    FatesTrue(cfg, stores, sk, rep.st, rep.ledger.backings, |rep.st.spec.services|, rep.fates, rep.traces)
  }

  /** Reconcile once the Stack is read and the catalog loaded; Ok(requeue). */
  method Work(c: ApiServer, sk: Key, entry: Entry, cat: Catalog, ghost v: nat, ghost read: Option<nat>)
    returns (r: Result<bool>, ghost report: Option<Report>)
    requires Reads(c, sk, entry.obj, v) && c.stores[v].objs[sk] == entry && LoadedAt(c.cfg, c.stores, read, cat)
    modifies c`stores, c`events
    ensures c.Valid() && old(c.stores) <= c.stores && old(c.events) <= c.events
    ensures r.Ok? <==> report.Some?
    ensures r.Ok? ==>
              ReportTrue(c.cfg, c.stores, sk, report.value) &&
              r.value == (Held in report.value.fates || report.value.ledger.pending) &&
              sk in c.Now().objs && StatusOf(c.stores, sk, report.value, c.Now().objs[sk].obj)
    ensures c.quiet && sk in old(c.Now()).objs && old(c.Now()).objs[sk] == entry ==>
              Outcome(c.Now(), r) == ReconcileQ(c.cfg, cat, old(c.Now()), sk)
  {
    hide IsStep, BackingsQ, LedgerSound, AllInPlace, FatesTrue, ServicesQ, UpdateStatusQ, StatusOf,
         NextStatus, DataRead, IsOverlay;
    report := None;
    var st := entry.obj;
    ghost var data := DataRead(c.cfg, c.stores, read);
    ghost var stores0 := c.stores;
    var ledger;
    ghost var sights, places;
    ledger, sights, places := ReconcileBacking(c, sk, st, cat, v, read);
    if ledger.Err? {
      return Err(ledger.why), report;
    }
    ghost var stores1 := c.stores;
    var flags;
    ghost var fates, traces;
    DataStays(c.cfg, stores0, c.stores, read);
    flags, fates, traces := ReconcileServices(c, sk, st, ledger.value, v, read, sights);
    if flags.Err? {
      return Err(flags.why), report;
    }
    ghost var stores2 := c.stores;
    ghost var listed;
    r, listed := UpdateStatus(c, sk, entry, flags.value, ledger.value.pending, v, ledger.value.backings, fates, traces);
    if r.Ok? {
      DataStays(c.cfg, stores0, c.stores, read);
      LedgerPersists(c.cfg, data, stores1, c.stores, sk, st.spec, |st.spec.backing|, ledger.value, sights);
      PlacesPersist(c.cfg, data, stores1, c.stores, sk, st, |st.spec.backing|, ledger.value, places);
      FatesPersist(c.cfg, stores2, c.stores, sk, st, ledger.value.backings, |st.spec.services|, fates, traces);
      report := Some(Report(v, st, read, cat, ledger.value, sights, places, fates, traces, listed));
      StatusFollows(c.stores, sk, report.value);
    }
  }

  lemma LoadedNow(cfg: Config, stores: seq<Store>, read: Option<nat>, cat: Catalog)
    requires |stores| > 0 && LoadedAt(cfg, stores, read, cat)
    ensures read == Some(|stores| - 1) ==> IsOverlay(cfg, OverlayData(cfg, stores[|stores| - 1]), cat)
  {
    hide IsOverlay, OverlayData;
  }

  /** Reconcile; `report` is set when the Stack was found and the pass succeeded. */
  method Reconcile(c: ApiServer, builtins: ServiceCatalog, sk: Key)
    returns (r: Result<bool>, ghost report: Option<Report>)
    requires c.Valid() && sk.kind == StackKind && sk.ns != ""
    requires builtins.Valid() && builtins.View() == c.cfg.builtins
    modifies c`stores, c`events
    ensures c.Valid() && old(c.stores) <= c.stores && old(c.events) <= c.events
    ensures r.Ok? && report.None? ==> !r.value
    ensures r.Ok? && report.Some? ==>
              ReportTrue(c.cfg, c.stores, sk, report.value) &&
              r.value == (Held in report.value.fates || report.value.ledger.pending) &&
              sk in c.Now().objs && StatusOf(c.stores, sk, report.value, c.Now().objs[sk].obj)
    ensures c.quiet ==> exists cat ::
              IsOverlay(c.cfg, OverlayData(c.cfg, old(c.Now())), cat) &&
              Outcome(c.Now(), r) == ReconcileQ(c.cfg, cat, old(c.Now()), sk)
  {
    hide IsStep, IsOverlay, ReportTrue, StatusOf, BackingsQ, ServicesQ, UpdateStatusQ, OverlayData, LoadedAt;
    report := None;
    ghost var s0 := c.Now();
    var got, v := c.Get(sk);
    if got.Failed? {
      return Err(Transient), report;
    }
    if got.Missing? {
      ghost var cat0 := LoadedCatalog(c.cfg, s0);
      return Ok(false), report;
    }
    var cat;
    ghost var read;
    cat, read := LoadCatalog(c, builtins);
    LoadedNow(c.cfg, c.stores, read, cat);
    r, report := Work(c, sk, got.entry, cat, v, read);
  }

  /** The status a pass stores follows from its fates and from the Deployments it
      listed; while a service is held, the hook keeps the phase it had. */
  ghost predicate StatusOf(stores: seq<Store>, sk: Key, rep: Report, now: Object) {
    now.Stack? && rep.st.Stack? && rep.listed < |stores| &&
    now.spec == rep.st.spec && now.generation == rep.st.generation &&
    (var status, fates, listed := now.status, rep.fates, Listed(stores[rep.listed], sk.ns, sk.name);
     var through := forall f | f in fates :: f == RolledOut || f == NoImage;
     status.observedGeneration == rep.st.generation && status.services == |rep.st.spec.services| &&
     status.readyServices == |set k | k in listed && DeploymentReady(stores[rep.listed], k)| &&
     (status.phase == ReleaseFailed <==> HookBroken in fates) &&
     (status.phase == ProvisioningBacking <==> HookBroken !in fates && Held in fates) &&
     (status.phase == ReleaseHook <==> HookBroken !in fates && Held !in fates && HookActive in fates) &&
     (status.phase == Running <==> through && AllDeploymentsReady(stores[rep.listed], sk.ns, sk.name)) &&
     (status.phase == Progressing <==> through && !AllDeploymentsReady(stores[rep.listed], sk.ns, sk.name)) &&
     match status.phase
     case ReleaseFailed => status.hook == HookFailed
     case ProvisioningBacking => status.hook == rep.st.status.hook
     case ReleaseHook => status.hook == HookRunning
     case _ =>
       status.hook == (if exists i | 0 <= i < |rep.st.spec.services| :: rep.st.spec.services[i].release != ""
                       then HookComplete else HookNone))
  }

  lemma StatusFollows(stores: seq<Store>, sk: Key, rep: Report)
    requires rep.st.Stack? && rep.listed < |stores|
    ensures StatusOf(stores, sk, rep, Assessed(stores[rep.listed], sk, rep.st, FlagsOf(rep.fates)))
  {
    hide Listed, DeploymentReady, AllDeploymentsReady;
    AllReadyCounts(stores[rep.listed], sk.ns, sk.name);
  }

  ghost function LoadedCatalog(cfg: Config, s: Store): (cat: Catalog)
    ensures IsOverlay(cfg, OverlayData(cfg, s), cat)
  {
    OverlayExists(cfg, OverlayData(cfg, s));
    var cat :| IsOverlay(cfg, OverlayData(cfg, s), cat);
    cat
  }

  ghost function ReconcileQ(cfg: Config, cat: Catalog, s: Store, sk: Key): Outcome<bool>
    requires sk.kind == StackKind
  {
    if Find(s, sk).None? then Outcome(s, Ok(false))
    else
      var entry := s.objs[sk];
      var st := entry.obj;
      var ledger := BackingsQ(cfg, cat, s, sk, st);
      if ledger.result.Err? then Outcome(ledger.store, Err(ledger.result.why))
      else
        var fates := ServicesQ(cfg, ledger.store, sk, st, ledger.result.value.backings, |st.spec.services|);
        if fates.result.Err? then Outcome(fates.store, Err(fates.result.why))
        else UpdateStatusQ(fates.store, sk, entry, FlagsOf(fates.result.value), ledger.result.value.pending)
  }
}
