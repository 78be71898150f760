/** What holds in every run, whatever passes, users and engines interleave. */
module Runs {
  import opened Wrappers
  import opened Names
  import opened Objects
  import opened Shapes
  import opened Clusters

  // ---------------------------------------------------------------- last writers

  /** Fields a patch owns survive status reports. */
  lemma CarriesStays(cfg: Config, p: Patch, a: Object, b: Object)
    requires Carries(cfg, p, a) && StatusOnly(a, b)
    ensures Carries(cfg, p, b)
  {
  }

  lemma StatusKeepsOwner(a: Object, b: Object)
    requires StatusOnly(a, b)
    ensures OwnerOf(a) == OwnerOf(b) && KindOf(a) == KindOf(b)
  {
  }

  /** Event `w` is a pass's write of `k`, and the object of store `n` is still the
      one it wrote, up to status. */
  ghost predicate WrittenBy(cfg: Config, stores: seq<Store>, events: seq<Event>, n: nat, k: Key, w: nat) {
    w < n < |stores| && w < |events| && events[w].Applied? && events[w].key == k &&
    k in stores[n].objs && Carries(cfg, events[w].patch, stores[n].objs[k].obj) &&
    Justified(cfg, stores[..w + 1], k, events[w].patch, events[w].why) &&
    k in stores[w + 1].objs && stores[w + 1].objs[k].uid == stores[n].objs[k].uid
  }

  /** Every owned or labelled object, Jobs aside, is the work of some pass whose
      reads justified it. */
  lemma LastWriter(cfg: Config, stores: seq<Store>, events: seq<Event>, n: nat, k: Key) returns (w: nat)
    requires IsRun(cfg, stores, events) && n < |stores| && k in stores[n].objs
    requires OwnerOf(stores[n].objs[k].obj) != None && k.kind != JobKind
    ensures WrittenBy(cfg, stores, events, n, k, w)
  {
    hide IsStep, Justified, Carries, OwnerOf;
    assert n > 0;
    OwnedSteps(cfg, stores, events, n, k);
    if events[n - 1].Applied? && events[n - 1].key == k {
      w := n - 1;
    } else {
      w := LastWriter(cfg, stores, events, n - 1, k);
      if stores[n].objs[k].obj != stores[n - 1].objs[k].obj {
        CarriesStays(cfg, events[w].patch, stores[n - 1].objs[k].obj, stores[n].objs[k].obj);
      }
    }
  }

  /** How the object under `k` came to be what it is in store `n`. */
  ghost predicate OwnedStep(cfg: Config, stores: seq<Store>, events: seq<Event>, n: nat, k: Key) {
    0 < n < |stores| && n <= |events| && k in stores[n].objs &&
    (var ev := events[n - 1];
     if ev.Applied? && ev.key == k then
       Carries(cfg, ev.patch, stores[n].objs[k].obj) && Justified(cfg, stores[..n], k, ev.patch, ev.why)
     else
       k in stores[n - 1].objs && stores[n - 1].objs[k].uid == stores[n].objs[k].uid &&
       OwnerOf(stores[n - 1].objs[k].obj) == OwnerOf(stores[n].objs[k].obj) &&
       (stores[n - 1].objs[k].obj == stores[n].objs[k].obj ||
        StatusOnly(stores[n - 1].objs[k].obj, stores[n].objs[k].obj)))
  }

  lemma OwnedSteps(cfg: Config, stores: seq<Store>, events: seq<Event>, n: nat, k: Key)
    requires IsRun(cfg, stores, events) && 0 < n < |stores| && k in stores[n].objs
    requires OwnerOf(stores[n].objs[k].obj) != None && k.kind != JobKind
    ensures OwnedStep(cfg, stores, events, n, k)
  {
    hide IsStep, Justified, Mutate, Warranted, StatusOnly, Carries, KindOf, Typed, Possible;
    StepOf(cfg, stores, events, n - 1);
    RunTyped(cfg, stores, events, n);
    RunTyped(cfg, stores, events, n - 1);
    var ev := events[n - 1];
    if ev.key == k && ev.Applied? {
      WarrantedPatch(cfg, stores[..n], ev);
      AppliedCarries(cfg, stores[n - 1], ev);
    } else if ev.key == k && ev.StatusReported? {
      StatusKeepsOwner(stores[n - 1].objs[k].obj, ev.obj);
    } else {
      Untouched(cfg, stores[n - 1], ev, k);
    }
  }

  lemma WarrantedPatch(cfg: Config, stores: seq<Store>, ev: Event)
    requires |stores| > 0 && ev.Applied? && Warranted(cfg, stores, ev)
    ensures Justified(cfg, stores, ev.key, ev.patch, ev.why)
  {
  }

  lemma AppliedCarries(cfg: Config, s: Store, ev: Event)
    requires ev.Applied? && Possible(cfg, s, ev)
    ensures var s' := Effect(cfg, s, ev);
            ev.key in s'.objs && Carries(cfg, ev.patch, s'.objs[ev.key].obj)
  {
    MutateCarries(cfg, ev.patch, Find(s, ev.key));
  }

  /** Other events leave an owned object that is not a Stack, a Job or an
      Environment as it is. */
  lemma Untouched(cfg: Config, s: Store, ev: Event, k: Key)
    requires Typed(s) && Possible(cfg, s, ev) && !(ev.key == k && (ev.Applied? || ev.StatusReported?))
    requires var s' := Effect(cfg, s, ev);
             k in s'.objs && OwnerOf(s'.objs[k].obj) != None && k.kind != JobKind && KindOf(s'.objs[k].obj) == k.kind
    ensures k in s.objs && s.objs[k].obj == Effect(cfg, s, ev).objs[k].obj
    ensures s.objs[k].uid == Effect(cfg, s, ev).objs[k].uid
  {
    hide Mutate;
  }

  // -------------------------------------------------------------- the release gate

  /** The Deployment is as process `why.process` of a stored version of its Stack
      asks, written when every backing the service connects to, of those the catalog
      read at `why.passage.read` has, had been ready, with an env that holds the
      spec's vars and all that the connections stand for, and nothing else; and its
      release Job of that generation had completed. */
  ghost predicate Gated(cfg: Config, stores: seq<Store>, k: Key, o: Object, w: nat, why: Reason) {
    o.Deployment? && why.Rollout? && why.version <= w < |stores| && HasStack(stores, why.version, why.stack) &&
    (var st := StackAt(stores, why.version, why.stack);
     var g := why.passage;
     why.service < |st.spec.services| &&
     (var svc := st.spec.services[why.service];
      why.process < |svc.processes| && svc.image != "" &&
      (var p := svc.processes[why.process];
       k == DeploymentKey(why.stack.ns, ProcessName(why.stack.name, svc.name, p.name)) &&
       DeploymentFits(cfg, o, why.stack.name, svc, p, g.env) &&
       Connected(cfg, stores[..w + 1], why.stack, st.spec, svc, g) &&
       (HasHook(svc) ==> g.job <= w && JobDone(stores[g.job], JobKey(why.stack, svc.name, st.generation))))))
  }

  /** Release gate, over all runs: no Deployment of a Stack is ever anything but a
      rollout that both gates let through. */
  lemma RolloutGated(cfg: Config, stores: seq<Store>, events: seq<Event>, n: nat, k: Key)
    returns (w: nat, why: Reason)
    requires IsRun(cfg, stores, events) && n < |stores|
    requires k.kind == DeploymentKind && k in stores[n].objs && OwnerOf(stores[n].objs[k].obj) != None
    ensures w < n && events[w].Applied? && events[w].key == k && why == events[w].why
    ensures Gated(cfg, stores, k, stores[n].objs[k].obj, w, why)
  {
    hide IsStep, Connected, Mutate;
    w := LastWriter(cfg, stores, events, n, k);
    why := events[w].why;
    RunTyped(cfg, stores, events, n);
    DeploymentPatchKind(events[w].patch, k, cfg, stores[n].objs[k].obj);
  }

  lemma DeploymentPatchKind(p: Patch, k: Key, cfg: Config, o: Object)
    requires Carries(cfg, p, o) && KindOf(o) == k.kind == DeploymentKind
    ensures p.ProcessDeployment?
  {
  }

  // ------------------------------------------------------------------ what an env holds

  /** In every run a service edge with an alias has its URL in the env of each
      Deployment of the service. */
  lemma EdgesBound(cfg: Config, stores: seq<Store>, events: seq<Event>, n: nat, k: Key, c: nat)
    returns (w: nat, why: Reason, e: EnvVar)
    requires IsRun(cfg, stores, events) && n < |stores|
    requires k.kind == DeploymentKind && k in stores[n].objs && OwnerOf(stores[n].objs[k].obj) != None
    ensures w < n && Gated(cfg, stores, k, stores[n].objs[k].obj, w, why)
    ensures var spec := StackAt(stores, why.version, why.stack).spec; var svc := spec.services[why.service];
            c < |svc.connections| && IsServiceEdge(spec, svc.connections[c].target) &&
            svc.connections[c].alias != "" ==>
              e in stores[n].objs[k].obj.container.env && IsEdgeVar(why.stack, spec, svc.connections[c], e)
  {
    hide IsStep, IsServiceEdge, IsEdgeVar, EnvFits, DataRead, Known;
    w, why := RolloutGated(cfg, stores, events, n, k);
    e := EnvVar("", Literal(""));
    var spec := StackAt(stores, why.version, why.stack).spec;
    var svc, g := spec.services[why.service], why.passage;
    if c < |svc.connections| && IsServiceEdge(spec, svc.connections[c].target) && svc.connections[c].alias != "" {
      var data := DataRead(cfg, stores[..w + 1], g.read);
      assert ConnectionMet(cfg, data, stores[..w + 1], why.stack, spec, svc.connections[c], g.seen[c], g.env);
      e :| e in g.env && IsEdgeVar(why.stack, spec, svc.connections[c], e);
    }
  }

  /** In every run a Deployment of a Stack refers to no Secret but those of the spec's
      own env and of backings its service connects to. */
  lemma SecretsConnected(cfg: Config, stores: seq<Store>, events: seq<Event>, n: nat, k: Key, e: EnvVar)
    returns (w: nat, why: Reason, c: nat, i: nat)
    requires IsRun(cfg, stores, events) && n < |stores|
    requires k.kind == DeploymentKind && k in stores[n].objs && OwnerOf(stores[n].objs[k].obj) != None
    requires stores[n].objs[k].obj.Deployment? && e in stores[n].objs[k].obj.container.env && e.source.SecretRef?
    ensures w < n && Gated(cfg, stores, k, stores[n].objs[k].obj, w, why)
    ensures var spec := StackAt(stores, why.version, why.stack).spec; var svc := spec.services[why.service];
            || e in svc.env
            || (c < |svc.connections| && i < |spec.backing| && spec.backing[i].name == svc.connections[c].target &&
                (var name := BackingName(why.stack.name, spec.backing[i].name);
                 e.source.secret == if IsPostgres(spec.backing[i].kind) then AppSecretName(name) else name))
  {
    hide IsStep, IsServiceEdge, ConnectionsMet, DataRead, Contributes;
    w, why := RolloutGated(cfg, stores, events, n, k);
    c, i := 0, 0;
    var spec := StackAt(stores, why.version, why.stack).spec;
    var svc, g := spec.services[why.service], why.passage;
    var m :| 0 <= m < |g.env| && g.env[m] == e;
    if m < |svc.env| {
      assert svc.env[m] == e;
    } else {
      assert OfConnection(cfg, DataRead(cfg, stores[..w + 1], g.read), why.stack, spec, svc, g.env[m]);
      c :| 0 <= c < |svc.connections| &&
        Contributes(cfg, DataRead(cfg, stores[..w + 1], g.read), why.stack, spec, svc.connections[c], e);
      i := ContributedBy(cfg, DataRead(cfg, stores[..w + 1], g.read), why.stack, spec, svc.connections[c], e);
    }
  }

  lemma ContributedBy(cfg: Config, data: map<string, string>, sk: Key, spec: StackSpec, conn: ConnectionSpec, e: EnvVar)
    returns (i: nat)
    requires Contributes(cfg, data, sk, spec, conn, e) && e.source.SecretRef?
    ensures i < |spec.backing| && spec.backing[i].name == conn.target
    ensures var name := BackingName(sk.name, spec.backing[i].name);
            e.source.secret == if IsPostgres(spec.backing[i].kind) then AppSecretName(name) else name
  {
    hide EdgeUrl, Described, Lower, BackingName, AppSecretName;
    i :| 0 <= i < |spec.backing| && spec.backing[i].name == conn.target &&
      OfBacking(cfg, data, sk, spec.backing[i], conn.alias, e);
  }

  // ------------------------------------------------------------------ the backings

  /** The StatefulSet or Cluster is as a backing of a stored version of its Stack asks:
      a StatefulSet by what the catalog its pass had read has for the backing's type. */
  ghost predicate Rendered(cfg: Config, stores: seq<Store>, k: Key, o: Object, w: nat, why: Reason) {
    (why.Placement? || why.Provision?) && why.version <= w < |stores| && HasStack(stores, why.version, why.stack) &&
    (var st := StackAt(stores, why.version, why.stack);
     why.backing < |st.spec.backing| &&
     (var b := st.spec.backing[why.backing];
      k.ns == why.stack.ns && k.name == BackingName(why.stack.name, b.name) &&
      if k.kind == ClusterKind then IsPostgres(b.kind) && ClusterFits(o, why.stack.name, b)
      else
        why.Placement? && SetFits(cfg, o, why.stack.name, b, why.from) && ReadIn(stores[..w + 1], why.read) &&
        why.from in Origins(cfg, DataRead(cfg, stores[..w + 1], why.read), b)))
  }

  /** In every run a Stack's StatefulSets and Clusters are what some version of it, and
      the catalog read with it, ask for. */
  lemma BackingsRendered(cfg: Config, stores: seq<Store>, events: seq<Event>, n: nat, k: Key)
    returns (w: nat, why: Reason)
    requires IsRun(cfg, stores, events) && n < |stores|
    requires k.kind == StatefulSetKind || k.kind == ClusterKind
    requires k in stores[n].objs && OwnerOf(stores[n].objs[k].obj) != None
    ensures w < n && events[w].Applied? && events[w].key == k && why == events[w].why
    ensures Rendered(cfg, stores, k, stores[n].objs[k].obj, w, why)
  {
    hide IsStep, Mutate, Rendered, Justified, Carries;
    w := LastWriter(cfg, stores, events, n, k);
    why := events[w].why;
    RunTyped(cfg, stores, events, n);
    WriteRendered(cfg, stores, events, n, k, w);
  }

  lemma WriteRendered(cfg: Config, stores: seq<Store>, events: seq<Event>, n: nat, k: Key, w: nat)
    requires WrittenBy(cfg, stores, events, n, k, w) && KindOf(stores[n].objs[k].obj) == k.kind
    requires k.kind == StatefulSetKind || k.kind == ClusterKind
    ensures Rendered(cfg, stores, k, stores[n].objs[k].obj, w, events[w].why)
  {
    hide Origins, OverlayData, SeedJustified, BootstrapJustified, ArchiveJustified, VolumeFits;
  }

  // ------------------------------------------------------------------- generations

  /** What one event makes of a Stack that stays the same object. */
  lemma StackStep(cfg: Config, s: Store, ev: Event, sk: Key)
    requires Typed(s) && Possible(cfg, s, ev) && sk.kind == StackKind
    requires sk in s.objs && sk in Effect(cfg, s, ev).objs && Effect(cfg, s, ev).objs[sk].obj.Stack?
    ensures s.objs[sk].obj.Stack?
    ensures var a, b := s.objs[sk].obj, Effect(cfg, s, ev).objs[sk].obj;
            a.generation <= b.generation && (a.generation == b.generation ==> a.spec == b.spec) &&
            (a.status == b.status || (ev.StatusWritten? && ev.key == sk && b.status == ev.status))
  {
  }

  /** A generation of one Stack object has one spec. */
  lemma GenerationFixesSpec(cfg: Config, stores: seq<Store>, events: seq<Event>, i: nat, j: nat, sk: Key)
    requires IsRun(cfg, stores, events) && i <= j < |stores| && sk.kind == StackKind
    requires sk in stores[i].objs && sk in stores[j].objs && stores[i].objs[sk].uid == stores[j].objs[sk].uid
    ensures stores[i].objs[sk].obj.Stack? && stores[j].objs[sk].obj.Stack?
    ensures stores[i].objs[sk].obj.generation <= stores[j].objs[sk].obj.generation
    ensures stores[i].objs[sk].obj.generation == stores[j].objs[sk].obj.generation ==>
              stores[i].objs[sk].obj.spec == stores[j].objs[sk].obj.spec
    decreases j
  {
    hide IsStep, Warranted, Effect, Possible, StatusOnly;
    RunTyped(cfg, stores, events, i);
    RunTyped(cfg, stores, events, j);
    if i < j {
      SameUidBefore(cfg, stores, events, i, j, sk);
      GenerationFixesSpec(cfg, stores, events, i, j - 1, sk);
      StepOf(cfg, stores, events, j - 1);
      RunTyped(cfg, stores, events, j - 1);
      StackStep(cfg, stores[j - 1], events[j - 1], sk);
    }
  }

  /** An object keeps its UID from the first store it is in to the last. */
  lemma SameUidBefore(cfg: Config, stores: seq<Store>, events: seq<Event>, i: nat, j: nat, k: Key)
    requires IsRun(cfg, stores, events) && i < j < |stores|
    requires k in stores[i].objs && k in stores[j].objs && stores[i].objs[k].uid == stores[j].objs[k].uid
    ensures k in stores[j - 1].objs && stores[j - 1].objs[k].uid == stores[i].objs[k].uid
  {
    hide IsStep, ChangeOf, Possible, Warranted;
    StepOf(cfg, stores, events, j - 1);
    RunClocked(cfg, stores, events, i, j - 1);
    RunClocked(cfg, stores, events, 0, i);
  }

  // ------------------------------------------------------------------------ status

  /** A stored phase is the verdict of a pass over the version it read: every
      service with an image had passed both gates, and Running means that all of
      the Stack's Deployments, at least one, were ready when they were listed. */
  ghost predicate Assessed(cfg: Config, stores: seq<Store>, sk: Key, status: Status, w: nat, why: Reason) {
    why.Assessment? && why.version <= w < |stores| && why.listed <= w && HasStack(stores, why.version, sk) &&
    (var st := StackAt(stores, why.version, sk);
     var services := st.spec.services;
     status.observedGeneration == st.generation && |why.passages| == |services| &&
     (forall i | 0 <= i < |services| && services[i].image != "" ::
        var g := why.passages[i];
        Connected(cfg, stores[..w + 1], sk, st.spec, services[i], g) &&
        (HasHook(services[i]) ==>
           g.job <= w && JobDone(stores[g.job], JobKey(sk, services[i].name, status.observedGeneration)))) &&
     (status.phase == Running <==> AllDeploymentsReady(stores[why.listed], sk.ns, sk.name)))
  }

  /** Status soundness, over all runs. */
  lemma StatusSound(cfg: Config, stores: seq<Store>, events: seq<Event>, n: nat, sk: Key)
    returns (w: nat, why: Reason)
    requires IsRun(cfg, stores, events) && n < |stores| && sk.kind == StackKind && sk in stores[n].objs
    ensures stores[n].objs[sk].obj.Stack?
    ensures var status := stores[n].objs[sk].obj.status;
            status.phase == Running || status.phase == Progressing ==>
              w < n && Assessed(cfg, stores, sk, status, w, why)
  {
    hide IsStep, Assessed, Effect, Possible;
    w, why := 0, Plumbing;
    RunTyped(cfg, stores, events, n);
    if n > 0 {
      StepOf(cfg, stores, events, n - 1);
      RunTyped(cfg, stores, events, n - 1);
      var ev := events[n - 1];
      if sk in stores[n - 1].objs {
        StackStep(cfg, stores[n - 1], ev, sk);
        if stores[n].objs[sk].obj.status == stores[n - 1].objs[sk].obj.status {
          w, why := StatusSound(cfg, stores, events, n - 1, sk);
        } else {
          w, why := n - 1, ev.why;
          if ev.status.phase == Running || ev.status.phase == Progressing {
            VerdictHolds(cfg, stores, n - 1, ev);
          }
        }
      } else {
        NewStack(cfg, stores[n - 1], ev, sk);
      }
    }
  }

  lemma VerdictHolds(cfg: Config, stores: seq<Store>, w: nat, ev: Event)
    requires w < |stores| && ev.StatusWritten? && Warranted(cfg, stores[..w + 1], ev)
    requires ev.status.phase == Running || ev.status.phase == Progressing
    ensures Assessed(cfg, stores, ev.key, ev.status, w, ev.why)
  {
    hide Connected, AllDeploymentsReady;
  }

  lemma NewStack(cfg: Config, s: Store, ev: Event, sk: Key)
    requires Typed(s) && Possible(cfg, s, ev) && sk.kind == StackKind && sk !in s.objs
    requires sk in Effect(cfg, s, ev).objs && Effect(cfg, s, ev).objs[sk].obj.Stack?
    ensures Effect(cfg, s, ev).objs[sk].obj.status == EMPTY_STATUS
  {
  }
}
