/** A pass over its own work changes nothing. */
module Idempotence {
  import opened Wrappers
  import opened Names
  import opened Objects
  import opened Clusters
  import opened Bindings
  import opened Backings
  import opened Services
  import opened Reconcilers
  import opened Settling
  import opened SettlingTiers

  // --------------------------------------------------------------------- all backings

  /** No two backings write the same keys. */
  ghost predicate BackingsApart(cat: Catalog, sk: Key, st: Object)
    requires st.Stack?
  {
    forall i, j | 0 <= i < |st.spec.backing| && 0 <= j < |st.spec.backing| && i != j ::
      BackingKeys(cat, sk, st, st.spec.backing[j]) !! BackingKeys(cat, sk, st, st.spec.backing[i])
  }

  ghost function BackingStores(cfg: Config, cat: Catalog, s: Store, sk: Key, st: Object, n: nat): seq<Store>
    requires st.Stack? && n <= |st.spec.backing|
  {
    seq(n + 1, i requires 0 <= i <= n => ProvisionAll(cfg, cat, s, sk, st, i).store)
  }

  function BackingRungs(cat: Catalog, sk: Key, st: Object, n: nat): seq<set<Key>>
    requires st.Stack? && n <= |st.spec.backing|
  {
    seq(n, i requires 0 <= i < n => BackingKeys(cat, sk, st, st.spec.backing[i]))
  }

  lemma {:induction false} BackingTyped(cfg: Config, cat: Catalog, s: Store, sk: Key, st: Object, n: nat)
    requires Typed(s) && st.Stack? && n <= |st.spec.backing|
    ensures Typed(ProvisionAll(cfg, cat, s, sk, st, n).store)
    ensures n > 0 ==>
              Advances(ProvisionAll(cfg, cat, s, sk, st, n - 1).store, ProvisionAll(cfg, cat, s, sk, st, n).store,
                BackingKeys(cat, sk, st, st.spec.backing[n - 1]))
  {
    hide Typed, Advances, ProvisionQ, BackingKeys;
    if n > 0 {
      BackingTyped(cfg, cat, s, sk, st, n - 1);
      var before := ProvisionAll(cfg, cat, s, sk, st, n - 1);
      ProvisionAdvances(cfg, cat, before.store, sk, st, st.spec.backing[n - 1]);
      StaysPut(before.store);
      AdvancesMore(before.store, before.store, {}, BackingKeys(cat, sk, st, st.spec.backing[n - 1]));
    }
  }

  lemma BackingLadder(cfg: Config, cat: Catalog, s: Store, sk: Key, st: Object, n: nat)
    requires Typed(s) && st.Stack? && n <= |st.spec.backing|
    ensures Ladder(BackingStores(cfg, cat, s, sk, st, n), BackingRungs(cat, sk, st, n))
    ensures ProvisionAll(cfg, cat, s, sk, st, 0).store == s
  {
    hide Typed, Advances, ProvisionQ, BackingKeys;
    forall i | 0 <= i < n
      ensures Advances(BackingStores(cfg, cat, s, sk, st, n)[i], BackingStores(cfg, cat, s, sk, st, n)[i + 1],
                       BackingRungs(cat, sk, st, n)[i])
    {
      BackingTyped(cfg, cat, s, sk, st, i + 1);
    }
  }

  /** What backing `i` left is still there when all are done. */
  lemma BackingKept(cfg: Config, cat: Catalog, s: Store, sk: Key, st: Object, i: nat)
    requires Typed(s) && st.Stack? && i < |st.spec.backing| && BackingsApart(cat, sk, st)
    ensures AgreeOn(ProvisionAll(cfg, cat, s, sk, st, |st.spec.backing|).store,
                    ProvisionAll(cfg, cat, s, sk, st, i + 1).store,
              BackingKeys(cat, sk, st, st.spec.backing[i]))
  {
    hide Typed, Advances, AgreeOn, ProvisionQ, ProvisionAll, BackingKeys, Ladder;
    var n := |st.spec.backing|;
    BackingLadder(cfg, cat, s, sk, st, n);
    LadderAgrees(BackingStores(cfg, cat, s, sk, st, n), BackingRungs(cat, sk, st, n), i + 1,
      BackingKeys(cat, sk, st, st.spec.backing[i]));
  }

  /** Every clone that still waits in `u` rereads what its backing saw. */
  ghost predicate Rereading(cfg: Config, cat: Catalog, s: Store, u: Store, sk: Key, st: Object, n: nat)
    requires st.Stack? && n <= |st.spec.backing|
  {
    forall i | 0 <= i < n ::
      SeedRereads(ProvisionAll(cfg, cat, s, sk, st, i).store, u, sk, st, st.spec.backing[i],
                  HasVolume(cat, st.spec.backing[i]))
  }

  /** `u` still holds what backing `i` of a pass over `s` left. */
  ghost predicate Holding(cfg: Config, cat: Catalog, s: Store, u: Store, sk: Key, st: Object, i: nat)
    requires st.Stack? && i < |st.spec.backing|
  {
    var b, before := st.spec.backing[i], ProvisionAll(cfg, cat, s, sk, st, i).store;
    AgreeOn(u, ProvisionAll(cfg, cat, s, sk, st, i + 1).store, BackingKeys(cat, sk, st, b)) && Steady(before, u) &&
    (Seen(before, st, sk.ns, b.name).Some? ==> Seen(u, st, sk.ns, b.name).Some?) && SafeDef(cat, b)
  }

  ghost predicate IdleUpTo(cfg: Config, cat: Catalog, u: Store, sk: Key, st: Object, n: nat)
    requires st.Stack? && n <= |st.spec.backing|
  {
    forall m | 0 <= m <= n :: Idle(ProvisionAll(cfg, cat, u, sk, st, m), u)
  }

  /** Backing by backing, `u` answers as `s` did. */
  ghost predicate SameUpTo(cfg: Config, cat: Catalog, s: Store, u: Store, sk: Key, st: Object, n: nat)
    requires st.Stack? && n <= |st.spec.backing|
  {
    forall m | 0 <= m <= n ::
      ProvisionAll(cfg, cat, u, sk, st, m) == Outcome(u, ProvisionAll(cfg, cat, s, sk, st, m).result)
  }

  /** Provisioning all backings again is idle, backing by backing, exactly when
      every clone that still waits rereads, and then answers the same. */
  lemma {:induction false} AllAgain(cfg: Config, cat: Catalog, s: Store, sk: Key, st: Object, n: nat, u: Store)
    requires Typed(s) && Typed(u) && st.Stack? && n <= |st.spec.backing| &&
             ProvisionAll(cfg, cat, s, sk, st, n).result.Ok?
    requires forall i | 0 <= i < n :: Holding(cfg, cat, s, u, sk, st, i)
    ensures IdleUpTo(cfg, cat, u, sk, st, n) <==> Rereading(cfg, cat, s, u, sk, st, n)
    ensures Rereading(cfg, cat, s, u, sk, st, n) ==> SameUpTo(cfg, cat, s, u, sk, st, n)
  {
    hide Typed, AgreeOn, Steady, ProvisionQ, BackingKeys, SafeDef, SeedRereads, Seen, Idle, ProvisionAll;
    if n == 0 {
      NoneProvisioned(cfg, cat, s, sk, st);
      NoneProvisioned(cfg, cat, u, sk, st);
    } else {
      OkBefore(cfg, cat, s, sk, st, n);
      AllAgain(cfg, cat, s, sk, st, n - 1, u);
      assert Holding(cfg, cat, s, u, sk, st, n - 1);
      if Rereading(cfg, cat, s, u, sk, st, n - 1) {
        assert SameUpTo(cfg, cat, s, u, sk, st, n - 1);
        OneMoreAgain(cfg, cat, s, sk, st, n, u);
      }
      RereadingMore(cfg, cat, s, u, sk, st, n);
      IdleMore(cfg, cat, u, sk, st, n);
    }
  }

  lemma NoneProvisioned(cfg: Config, cat: Catalog, s: Store, sk: Key, st: Object)
    requires st.Stack?
    ensures Idle(ProvisionAll(cfg, cat, s, sk, st, 0), s)
    ensures ProvisionAll(cfg, cat, s, sk, st, 0).result == Ok(Ledger(map[], false))
  {
  }

  lemma OkBefore(cfg: Config, cat: Catalog, s: Store, sk: Key, st: Object, n: nat)
    requires st.Stack? && 0 < n <= |st.spec.backing| && ProvisionAll(cfg, cat, s, sk, st, n).result.Ok?
    ensures ProvisionAll(cfg, cat, s, sk, st, n - 1).result.Ok?
  {
  }

  lemma RereadingMore(cfg: Config, cat: Catalog, s: Store, u: Store, sk: Key, st: Object, n: nat)
    requires st.Stack? && 0 < n <= |st.spec.backing|
    ensures var b := st.spec.backing[n - 1];
            Rereading(cfg, cat, s, u, sk, st, n) <==>
            Rereading(cfg, cat, s, u, sk, st, n - 1) &&
            SeedRereads(ProvisionAll(cfg, cat, s, sk, st, n - 1).store, u, sk, st, b, HasVolume(cat, b))
  {
    hide SeedRereads, ProvisionAll, HasVolume;
  }

  lemma IdleMore(cfg: Config, cat: Catalog, u: Store, sk: Key, st: Object, n: nat)
    requires st.Stack? && 0 < n <= |st.spec.backing|
    ensures IdleUpTo(cfg, cat, u, sk, st, n) <==>
            IdleUpTo(cfg, cat, u, sk, st, n - 1) && Idle(ProvisionAll(cfg, cat, u, sk, st, n), u)
  {
    hide Idle, ProvisionAll;
  }

  /** One more backing, over a store in which those before are idle. */
  lemma OneMoreAgain(cfg: Config, cat: Catalog, s: Store, sk: Key, st: Object, n: nat, u: Store)
    requires Typed(s) && Typed(u) && st.Stack? && 0 < n <= |st.spec.backing| &&
             ProvisionAll(cfg, cat, s, sk, st, n).result.Ok?
    requires Holding(cfg, cat, s, u, sk, st, n - 1) && SameUpTo(cfg, cat, s, u, sk, st, n - 1)
    ensures var b := st.spec.backing[n - 1];
            Idle(ProvisionAll(cfg, cat, u, sk, st, n), u) <==>
            SeedRereads(ProvisionAll(cfg, cat, s, sk, st, n - 1).store, u, sk, st, b, HasVolume(cat, b))
    ensures Idle(ProvisionAll(cfg, cat, u, sk, st, n), u) ==> SameUpTo(cfg, cat, s, u, sk, st, n)
  {
    hide Typed, AgreeOn, Steady, ProvisionQ, BackingKeys, SafeDef, SeedRereads, Seen, HasVolume;
    BackingTyped(cfg, cat, s, sk, st, n - 1);
    assert ProvisionAll(cfg, cat, u, sk, st, n - 1) == Outcome(u, ProvisionAll(cfg, cat, s, sk, st, n - 1).result);
    ProvisionAgain(cfg, cat, ProvisionAll(cfg, cat, s, sk, st, n - 1).store, sk, st, st.spec.backing[n - 1], u);
  }

  /** Idle as a whole is idle at each backing. */
  lemma IdleThroughout(cfg: Config, cat: Catalog, u: Store, sk: Key, st: Object, m: nat, n: nat)
    requires Typed(u) && st.Stack? && m <= n <= |st.spec.backing| && Idle(ProvisionAll(cfg, cat, u, sk, st, n), u)
    ensures Idle(ProvisionAll(cfg, cat, u, sk, st, m), u)
  {
    hide Typed, Advances, ProvisionQ, ProvisionAll, BackingKeys, Ladder;
    var t, keys := BackingStores(cfg, cat, u, sk, st, n), BackingRungs(cat, sk, st, n);
    BackingLadder(cfg, cat, u, sk, st, n);
    LadderAdvances(t, keys, 0, m);
    LadderAdvances(t, keys, m, n);
    Between(u, t[m], u, Union(keys[0..m]), Union(keys[m..n]));
    if ProvisionAll(cfg, cat, u, sk, st, m).result.Err? {
      ProvisionErrStays(cfg, cat, u, sk, st, m, n);
    }
  }

  /** A store on the way from a store back to it is that store. */
  lemma Between(s: Store, t: Store, u: Store, keys: set<Key>, keys': set<Key>)
    requires Advances(s, t, keys) && Advances(t, u, keys') && s == u
    ensures t == s
  {
    hide Preserved, Blank;
  }

  // ------------------------------------------------------------------------- processes

  function ProcessKeys(sk: Key, svc: ServiceSpec, p: ProcessSpec): set<Key> {
    {DeploymentKey(sk.ns, ProcessName(sk.name, svc.name, p.name)),
     Clusters.ServiceKey(sk.ns, ProcessName(sk.name, svc.name, p.name))}
  }

  lemma ProcessAdvances(cfg: Config, s: Store, sk: Key, svc: ServiceSpec, p: ProcessSpec, env: seq<EnvVar>)
    requires Typed(s)
    ensures Typed(ProcessQ(cfg, s, sk, svc, p, env).store)
    ensures Advances(s, ProcessQ(cfg, s, sk, svc, p, env).store, ProcessKeys(sk, svc, p))
  {
    hide Apply, Advances, Typed;
    var name := ProcessName(sk.name, svc.name, p.name);
    var k, l := DeploymentKey(sk.ns, name), Clusters.ServiceKey(sk.ns, name);
    ApplyAdvances(cfg, s, k, ProcessPatch(cfg, sk, svc, p, env));
    var dep := Apply(cfg, s, k, ProcessPatch(cfg, sk, svc, p, env));
    ApplyAdvances(cfg, dep.store, l, ServicePatch(sk, svc, p));
    AdvancesMore(s, dep.store, {k}, ProcessKeys(sk, svc, p));
    AdvancesTwice(s, dep.store, Apply(cfg, dep.store, l, ServicePatch(sk, svc, p)).store, {k}, {l});
    assert {k} + {l} == ProcessKeys(sk, svc, p);
  }

  lemma ProcessAgain(cfg: Config, s: Store, sk: Key, svc: ServiceSpec, p: ProcessSpec, env: seq<EnvVar>, u: Store)
    requires Typed(s) && ProcessQ(cfg, s, sk, svc, p, env).result.Ok?
    requires AgreeOn(u, ProcessQ(cfg, s, sk, svc, p, env).store, ProcessKeys(sk, svc, p))
    ensures ProcessQ(cfg, u, sk, svc, p, env) == Outcome(u, Ok(()))
  {
    hide Apply, Preserved, Blank;
    var name := ProcessName(sk.name, svc.name, p.name);
    var k, l := DeploymentKey(sk.ns, name), Clusters.ServiceKey(sk.ns, name);
    var patch := ProcessPatch(cfg, sk, svc, p, env);
    var dep := Apply(cfg, s, k, patch);
    var t := ProcessQ(cfg, s, sk, svc, p, env).store;
    ApplyAdvances(cfg, s, k, patch);
    ApplyAdvances(cfg, dep.store, l, ServicePatch(sk, svc, p));
    assert SameAt(dep.store, t, k);
    assert SameAt(u, t, k) && SameAt(u, t, l);
    ApplyAgain(cfg, s, k, patch, u, patch);
    if p.port > 0 {
      ApplyAgain(cfg, dep.store, l, ServicePatch(sk, svc, p), u, ServicePatch(sk, svc, p));
    }
  }

  predicate ProcessesApart(sk: Key, svc: ServiceSpec) {
    forall i, j | 0 <= i < |svc.processes| && 0 <= j < |svc.processes| && i != j ::
      ProcessKeys(sk, svc, svc.processes[i]) !! ProcessKeys(sk, svc, svc.processes[j])
  }

  ghost function ProcessStores(cfg: Config, s: Store, sk: Key, svc: ServiceSpec, env: seq<EnvVar>, n: nat): seq<Store>
    requires n <= |svc.processes|
  {
    seq(n + 1, i requires 0 <= i <= n => ProcessesQ(cfg, s, sk, svc, env, i).store)
  }

  function ProcessRungs(sk: Key, svc: ServiceSpec, n: nat): seq<set<Key>>
    requires n <= |svc.processes|
  {
    seq(n, i requires 0 <= i < n => ProcessKeys(sk, svc, svc.processes[i]))
  }

  lemma {:induction false} ProcessTyped(cfg: Config, s: Store, sk: Key, svc: ServiceSpec, env: seq<EnvVar>, n: nat)
    requires Typed(s) && n <= |svc.processes|
    ensures Typed(ProcessesQ(cfg, s, sk, svc, env, n).store)
    ensures n > 0 ==>
              Advances(ProcessesQ(cfg, s, sk, svc, env, n - 1).store, ProcessesQ(cfg, s, sk, svc, env, n).store,
                ProcessKeys(sk, svc, svc.processes[n - 1]))
  {
    hide Typed, Advances, ProcessQ, ProcessKeys;
    if n > 0 {
      ProcessTyped(cfg, s, sk, svc, env, n - 1);
      var before := ProcessesQ(cfg, s, sk, svc, env, n - 1).store;
      ProcessAdvances(cfg, before, sk, svc, svc.processes[n - 1], env);
      StaysPut(before);
      AdvancesMore(before, before, {}, ProcessKeys(sk, svc, svc.processes[n - 1]));
    }
  }

  lemma ProcessLadder(cfg: Config, s: Store, sk: Key, svc: ServiceSpec, env: seq<EnvVar>, n: nat)
    requires Typed(s) && n <= |svc.processes|
    ensures Ladder(ProcessStores(cfg, s, sk, svc, env, n), ProcessRungs(sk, svc, n))
    ensures ProcessesQ(cfg, s, sk, svc, env, 0).store == s
  {
    hide Typed, Advances, ProcessQ, ProcessKeys;
    forall i | 0 <= i < n
      ensures Advances(ProcessStores(cfg, s, sk, svc, env, n)[i], ProcessStores(cfg, s, sk, svc, env, n)[i + 1],
                       ProcessRungs(sk, svc, n)[i])
    {
      ProcessTyped(cfg, s, sk, svc, env, i + 1);
    }
  }

  lemma {:induction false} ProcessesAgain(cfg: Config, s: Store, sk: Key, svc: ServiceSpec, env: seq<EnvVar>, n: nat,
        u: Store)
    requires Typed(s) && n <= |svc.processes| && ProcessesQ(cfg, s, sk, svc, env, n).result.Ok?
    requires forall i | 0 <= i < n ::
               AgreeOn(u, ProcessesQ(cfg, s, sk, svc, env, i + 1).store, ProcessKeys(sk, svc, svc.processes[i]))
    ensures ProcessesQ(cfg, u, sk, svc, env, n) == Outcome(u, Ok(()))
  {
    hide Typed, AgreeOn, ProcessQ, ProcessKeys;
    if n > 0 {
      ProcessesAgain(cfg, s, sk, svc, env, n - 1, u);
      ProcessTyped(cfg, s, sk, svc, env, n - 1);
      ProcessAgain(cfg, ProcessesQ(cfg, s, sk, svc, env, n - 1).store, sk, svc, svc.processes[n - 1], env, u);
    }
  }

  /** Rolling a whole service out again. */
  lemma RolloutAgain(cfg: Config, s: Store, sk: Key, svc: ServiceSpec, env: seq<EnvVar>, u: Store)
    requires Typed(s) && ProcessesApart(sk, svc) && ProcessesQ(cfg, s, sk, svc, env, |svc.processes|).result.Ok?
    requires AgreeOn(u, ProcessesQ(cfg, s, sk, svc, env, |svc.processes|).store,
                     Union(ProcessRungs(sk, svc, |svc.processes|)))
    ensures ProcessesQ(cfg, u, sk, svc, env, |svc.processes|) == Outcome(u, Ok(()))
  {
    hide Typed, Advances, AgreeOn, ProcessQ, ProcessKeys, ProcessesQ, Ladder;
    var n := |svc.processes|;
    var t, keys := ProcessStores(cfg, s, sk, svc, env, n), ProcessRungs(sk, svc, n);
    ProcessLadder(cfg, s, sk, svc, env, n);
    forall i | 0 <= i < n
      ensures AgreeOn(u, ProcessesQ(cfg, s, sk, svc, env, i + 1).store, ProcessKeys(sk, svc, svc.processes[i]))
    {
      LadderAgrees(t, keys, i + 1, keys[i]);
      forall k | k in keys[i] ensures k in Union(keys) {
        InUnion(keys, k);
      }
      Narrow(u, t[n], Union(keys), keys[i]);
      AgreeThrough(t[i + 1], t[n], u, keys[i]);
    }
    ProcessesAgain(cfg, s, sk, svc, env, n, u);
  }

  // -------------------------------------------------------------------------- services

  /** Every key the body of the services loop may write for a service. */
  function ServiceKeys(sk: Key, st: Object, svc: ServiceSpec): set<Key>
    requires st.Stack?
  {
    {JobKey(sk, svc.name, st.generation)} + Union(ProcessRungs(sk, svc, |svc.processes|))
  }

  lemma RolloutAdvances(cfg: Config, s: Store, sk: Key, svc: ServiceSpec, env: seq<EnvVar>)
    requires Typed(s)
    ensures Typed(ProcessesQ(cfg, s, sk, svc, env, |svc.processes|).store)
    ensures Advances(s, ProcessesQ(cfg, s, sk, svc, env, |svc.processes|).store,
                     Union(ProcessRungs(sk, svc, |svc.processes|)))
  {
    hide Typed, Advances, ProcessesQ, Ladder;
    var n := |svc.processes|;
    var t, keys := ProcessStores(cfg, s, sk, svc, env, n), ProcessRungs(sk, svc, n);
    ProcessLadder(cfg, s, sk, svc, env, n);
    LadderAdvances(t, keys, 0, n);
    assert keys[0..n] == keys;
    ProcessTyped(cfg, s, sk, svc, env, n);
  }

  lemma GateAdvances(cfg: Config, s: Store, sk: Key, st: Object, svc: ServiceSpec, env: seq<EnvVar>)
    requires Typed(s) && st.Stack?
    ensures Typed(ReleaseGateQ(cfg, s, sk, st, svc, env).store)
    ensures Advances(s, ReleaseGateQ(cfg, s, sk, st, svc, env).store, {JobKey(sk, svc.name, st.generation)})
  {
    hide Advances, Typed;
    var k := JobKey(sk, svc.name, st.generation);
    StaysPut(s);
    AdvancesMore(s, s, {}, {k});
    if k !in s.objs {
      PutAdvances(s, k, ReleaseJob(cfg, sk, svc, env));
    }
  }

  /** A release Job that is there is left alone. */
  lemma GateAgain(cfg: Config, s: Store, sk: Key, st: Object, svc: ServiceSpec, env: seq<EnvVar>, u: Store)
    requires Typed(s) && st.Stack? && ReleaseGateQ(cfg, s, sk, st, svc, env).result.Ok?
    requires SameAt(u, ReleaseGateQ(cfg, s, sk, st, svc, env).store, JobKey(sk, svc.name, st.generation))
    ensures ReleaseGateQ(cfg, u, sk, st, svc, env) == Outcome(u, ReleaseGateQ(cfg, s, sk, st, svc, env).result)
  {
  }

  lemma JobNotRung(sk: Key, st: Object, svc: ServiceSpec)
    requires st.Stack?
    ensures JobKey(sk, svc.name, st.generation) !in Union(ProcessRungs(sk, svc, |svc.processes|))
  {
    InUnion(ProcessRungs(sk, svc, |svc.processes|), JobKey(sk, svc.name, st.generation));
  }

  lemma ServiceAdvances(cfg: Config, s: Store, sk: Key, st: Object, svc: ServiceSpec, urls: map<string, string>,
        backings: map<string, Backing>)
    requires Typed(s) && st.Stack?
    ensures Typed(ServiceQ(cfg, s, sk, st, svc, urls, backings).store)
    ensures Advances(s, ServiceQ(cfg, s, sk, st, svc, urls, backings).store, ServiceKeys(sk, st, svc))
  {
    hide Typed, Advances, Resolve, ReleaseGateQ, ProcessesQ, ProcessRungs;
    var keys, job := ServiceKeys(sk, st, svc), {JobKey(sk, svc.name, st.generation)};
    StaysPut(s);
    AdvancesMore(s, s, {}, keys);
    AdvancesMore(s, s, {}, job);
    var env := Resolve(cfg, urls, backings, svc, |svc.connections|).env;
    var gate := if HasHook(svc) then ReleaseGateQ(cfg, s, sk, st, svc, env) else Outcome(s, Ok(JobComplete));
    GateAdvances(cfg, s, sk, st, svc, env);
    AdvancesMore(s, gate.store, job, keys);
    RolloutAdvances(cfg, gate.store, sk, svc, env);
    AdvancesTwice(s, gate.store, ProcessesQ(cfg, gate.store, sk, svc, env, |svc.processes|).store, job,
      Union(ProcessRungs(sk, svc, |svc.processes|)));
  }

  lemma ServiceAgain(cfg: Config, s: Store, sk: Key, st: Object, svc: ServiceSpec, urls: map<string, string>,
                     backings: map<string, Backing>, u: Store)
    requires Typed(s) && st.Stack? && ProcessesApart(sk, svc) &&
             ServiceQ(cfg, s, sk, st, svc, urls, backings).result.Ok?
    requires AgreeOn(u, ServiceQ(cfg, s, sk, st, svc, urls, backings).store, ServiceKeys(sk, st, svc))
    ensures ServiceQ(cfg, u, sk, st, svc, urls, backings) ==
            Outcome(u, ServiceQ(cfg, s, sk, st, svc, urls, backings).result)
  {
    hide Typed, Advances, AgreeOn, SameAt, Resolve, ReleaseGateQ, ProcessesQ, ProcessRungs, ProcessesApart;
    var jk, rungs := JobKey(sk, svc.name, st.generation), Union(ProcessRungs(sk, svc, |svc.processes|));
    var resolved := Resolve(cfg, urls, backings, svc, |svc.connections|);
    if svc.image != "" && !resolved.wait {
      var t := ServiceQ(cfg, s, sk, st, svc, urls, backings).store;
      var gate := if HasHook(svc) then ReleaseGateQ(cfg, s, sk, st, svc, resolved.env) else Outcome(s, Ok(JobComplete));
      GateAdvances(cfg, s, sk, st, svc, resolved.env);
      Narrow(u, t, ServiceKeys(sk, st, svc), {jk});
      Narrow(u, t, ServiceKeys(sk, st, svc), rungs);
      StaysPut(gate.store);
      AdvancesMore(gate.store, gate.store, {}, rungs);
      RolloutAdvances(cfg, gate.store, sk, svc, resolved.env);
      JobNotRung(sk, st, svc);
      AgreeOutside(gate.store, t, rungs, {jk});
      AgreeThrough(gate.store, t, u, {jk});
      AtKey(u, gate.store, {jk}, jk);
      if HasHook(svc) {
        GateAgain(cfg, s, sk, st, svc, resolved.env, u);
      }
      if gate.result.value == JobComplete {
        RolloutAgain(cfg, gate.store, sk, svc, resolved.env, u);
      }
    }
  }

  ghost function ServiceStores(cfg: Config, s: Store, sk: Key, st: Object, backings: map<string, Backing>,
        n: nat): seq<Store>
    requires st.Stack? && n <= |st.spec.services|
  {
    seq(n + 1, i requires 0 <= i <= n => ServicesQ(cfg, s, sk, st, backings, i).store)
  }

  function ServiceRungs(sk: Key, st: Object, n: nat): seq<set<Key>>
    requires st.Stack? && n <= |st.spec.services|
  {
    seq(n, i requires 0 <= i < n => ServiceKeys(sk, st, st.spec.services[i]))
  }

  lemma {:induction false} ServiceTyped(cfg: Config, s: Store, sk: Key, st: Object, backings: map<string, Backing>,
        n: nat)
    requires Typed(s) && st.Stack? && n <= |st.spec.services|
    ensures Typed(ServicesQ(cfg, s, sk, st, backings, n).store)
    ensures n > 0 ==>
              Advances(ServicesQ(cfg, s, sk, st, backings, n - 1).store, ServicesQ(cfg, s, sk, st, backings, n).store,
                ServiceKeys(sk, st, st.spec.services[n - 1]))
  {
    hide Typed, Advances, ServiceQ, ServiceKeys, Urls;
    if n > 0 {
      ServiceTyped(cfg, s, sk, st, backings, n - 1);
      var before := ServicesQ(cfg, s, sk, st, backings, n - 1).store;
      ServiceAdvances(cfg, before, sk, st, st.spec.services[n - 1], Urls(sk, st.spec, |st.spec.services|), backings);
      StaysPut(before);
      AdvancesMore(before, before, {}, ServiceKeys(sk, st, st.spec.services[n - 1]));
    }
  }

  lemma ServiceLadder(cfg: Config, s: Store, sk: Key, st: Object, backings: map<string, Backing>, n: nat)
    requires Typed(s) && st.Stack? && n <= |st.spec.services|
    ensures Ladder(ServiceStores(cfg, s, sk, st, backings, n), ServiceRungs(sk, st, n))
    ensures ServicesQ(cfg, s, sk, st, backings, 0).store == s
  {
    hide Typed, Advances, ServiceQ, ServiceKeys;
    forall i | 0 <= i < n
      ensures Advances(ServiceStores(cfg, s, sk, st, backings, n)[i], ServiceStores(cfg, s, sk, st, backings, n)[i + 1],
                       ServiceRungs(sk, st, n)[i])
    {
      ServiceTyped(cfg, s, sk, st, backings, i + 1);
    }
  }

  /** No two services write a common key, and no two processes of one do. */
  ghost predicate ServicesApart(sk: Key, st: Object)
    requires st.Stack?
  {
    (forall i, j | 0 <= i < |st.spec.services| && 0 <= j < |st.spec.services| && i != j ::
       ServiceKeys(sk, st, st.spec.services[j]) !! ServiceKeys(sk, st, st.spec.services[i])) &&
    (forall i | 0 <= i < |st.spec.services| :: ProcessesApart(sk, st.spec.services[i]))
  }

  lemma {:induction false} ServicesAgainUpTo(cfg: Config, s: Store, sk: Key, st: Object,
        backings: map<string, Backing>, n: nat, u: Store)
    requires Typed(s) && st.Stack? && n <= |st.spec.services| && ServicesQ(cfg, s, sk, st, backings, n).result.Ok?
    requires forall i | 0 <= i < n ::
               AgreeOn(u, ServicesQ(cfg, s, sk, st, backings, i + 1).store, ServiceKeys(sk, st, st.spec.services[i]))
    requires forall i | 0 <= i < n :: ProcessesApart(sk, st.spec.services[i])
    ensures ServicesQ(cfg, u, sk, st, backings, n) == Outcome(u, ServicesQ(cfg, s, sk, st, backings, n).result)
  {
    hide Typed, AgreeOn, ServiceQ, ServiceKeys, ProcessesApart, Urls;
    if n > 0 {
      ServicesAgainUpTo(cfg, s, sk, st, backings, n - 1, u);
      ServiceTyped(cfg, s, sk, st, backings, n - 1);
      ServiceAgain(cfg, ServicesQ(cfg, s, sk, st, backings, n - 1).store, sk, st, st.spec.services[n - 1],
        Urls(sk, st.spec, |st.spec.services|), backings, u);
    }
  }

  lemma ServicesAdvance(cfg: Config, s: Store, sk: Key, st: Object, backings: map<string, Backing>)
    requires Typed(s) && st.Stack?
    ensures Typed(ServicesQ(cfg, s, sk, st, backings, |st.spec.services|).store)
    ensures Advances(s, ServicesQ(cfg, s, sk, st, backings, |st.spec.services|).store,
                     Union(ServiceRungs(sk, st, |st.spec.services|)))
  {
    hide Typed, Advances, ServicesQ, Ladder;
    var n := |st.spec.services|;
    var t, keys := ServiceStores(cfg, s, sk, st, backings, n), ServiceRungs(sk, st, n);
    ServiceLadder(cfg, s, sk, st, backings, n);
    LadderAdvances(t, keys, 0, n);
    assert keys[0..n] == keys;
    ServiceTyped(cfg, s, sk, st, backings, n);
  }

  lemma ServicesAgain(cfg: Config, s: Store, sk: Key, st: Object, backings: map<string, Backing>, u: Store)
    requires Typed(s) && st.Stack? && ServicesApart(sk, st)
    requires ServicesQ(cfg, s, sk, st, backings, |st.spec.services|).result.Ok?
    requires AgreeOn(u, ServicesQ(cfg, s, sk, st, backings, |st.spec.services|).store,
               Union(ServiceRungs(sk, st, |st.spec.services|)))
    ensures ServicesQ(cfg, u, sk, st, backings, |st.spec.services|) ==
            Outcome(u, ServicesQ(cfg, s, sk, st, backings, |st.spec.services|).result)
  {
    hide Typed, Advances, AgreeOn, ServiceQ, ServiceKeys, ServicesQ, Ladder, ProcessesApart;
    var n := |st.spec.services|;
    var t, keys := ServiceStores(cfg, s, sk, st, backings, n), ServiceRungs(sk, st, n);
    ServiceLadder(cfg, s, sk, st, backings, n);
    forall i | 0 <= i < n
      ensures AgreeOn(u, ServicesQ(cfg, s, sk, st, backings, i + 1).store, ServiceKeys(sk, st, st.spec.services[i]))
    {
      LadderAgrees(t, keys, i + 1, keys[i]);
      forall k | k in keys[i] ensures k in Union(keys) {
        InUnion(keys, k);
      }
      Narrow(u, t[n], Union(keys), keys[i]);
      AgreeThrough(t[i + 1], t[n], u, keys[i]);
    }
    ServicesAgainUpTo(cfg, s, sk, st, backings, n, u);
  }
}
