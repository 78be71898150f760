/** Names without hyphens keep the children of a Stack apart. */
module PlainNames {
  import opened Names
  import opened NameLaws
  import opened Objects
  import opened Clusters
  import opened Tiers
  import opened Settling
  import opened SettlingTiers
  import opened Idempotence
  import opened Passes

  predicate Plain(spec: StackSpec) {
    (forall i | 0 <= i < |spec.backing| :: HyphenFree(spec.backing[i].name)) &&
    (forall i, j | 0 <= i < j < |spec.backing| :: spec.backing[i].name != spec.backing[j].name) &&
    (forall i | 0 <= i < |spec.services| :: PlainService(spec.services[i])) &&
    (forall i, j | 0 <= i < j < |spec.services| :: spec.services[i].name != spec.services[j].name)
  }

  predicate PlainService(svc: ServiceSpec) {
    HyphenFree(svc.name) &&
    (forall i | 0 <= i < |svc.processes| :: HyphenFree(svc.processes[i].name)) &&
    (forall i, j | 0 <= i < j < |svc.processes| :: svc.processes[i].name != svc.processes[j].name)
  }

  lemma Tail(stack: string, x: string, y: string)
    requires stack + "-" + x == stack + "-" + y
    ensures x == y
  {
    PrefixCancels(stack + "-", x, y);
  }

  lemma SuffixCancels(a: string, b: string, s: string)
    requires a + s == b + s
    ensures a == b
  {
    assert |a| == |b|;
    assert a == (a + s)[..|a|] && b == (b + s)[..|b|];
  }

  /** The names made from one backing differ from those made from another. */
  lemma BackingNamesApart(stack: string, a: string, b: string)
    requires HyphenFree(a) && HyphenFree(b) && a != b
    ensures BackingName(stack, a) != BackingName(stack, b)
    ensures BackupName(BackingName(stack, a)) != BackupName(BackingName(stack, b))
    ensures CloneCredsName(BackingName(stack, a)) != CloneCredsName(BackingName(stack, b))
    ensures BackingName(stack, a) != BackupName(BackingName(stack, b))
    ensures BackingName(stack, a) != CloneCredsName(BackingName(stack, b))
    ensures ClaimName(stack, a) != ClaimName(stack, b)
  {
    if BackingName(stack, a) == BackingName(stack, b) {
      Tail(stack, a, b);
    }
    if BackupName(BackingName(stack, a)) == BackupName(BackingName(stack, b)) {
      SuffixCancels(BackingName(stack, a), BackingName(stack, b), "-backup");
    }
    if CloneCredsName(BackingName(stack, a)) == CloneCredsName(BackingName(stack, b)) {
      SuffixCancels(BackingName(stack, a), BackingName(stack, b), "-clone-src");
    }
    if BackingName(stack, a) == BackupName(BackingName(stack, b)) {
      assert stack + "-" + a == stack + "-" + (b + "-" + "backup");
      HyphenInside(b, "backup");
      Tail(stack, a, b + "-" + "backup");
    }
    if BackingName(stack, a) == CloneCredsName(BackingName(stack, b)) {
      assert stack + "-" + a == stack + "-" + (b + "-" + "clone-src");
      HyphenInside(b, "clone-src");
      Tail(stack, a, b + "-" + "clone-src");
    }
    if ClaimName(stack, a) == ClaimName(stack, b) {
      SuffixCancels("data-" + Join(stack, a), "data-" + Join(stack, b), "-0");
      PrefixCancels("data-", Join(stack, a), Join(stack, b));
    }
  }

  lemma CloneNamesApart(ns: string, a: string, b: string)
    requires a != b
    ensures CloneName(ns, a) != CloneName(ns, b) && RestoreName(a) != RestoreName(b)
    ensures CloneName(ns, a) != RestoreName(b)
  {
    if CloneName(ns, a) == CloneName(ns, b) {
      PrefixCancels("paas-clone-", Join(ns, a), Join(ns, b));
      Tail(ns, a, b);
    }
    if RestoreName(a) == RestoreName(b) {
      PrefixCancels("clone-", a, b);
    }
    assert CloneName(ns, a)[0] == 'p' && RestoreName(b)[0] == 'c';
  }

  lemma ProcessNamesApart(stack: string, s: string, p: string, t: string, q: string)
    requires HyphenFree(s) && HyphenFree(t) && (s != t || p != q)
    ensures ProcessName(stack, s, p) != ProcessName(stack, t, q)
  {
    if ProcessName(stack, s, p) == ProcessName(stack, t, q) {
      assert ProcessName(stack, s, p) == stack + "-" + Join(s, p);
      assert ProcessName(stack, t, q) == stack + "-" + Join(t, q);
      Tail(stack, Join(s, p), Join(t, q));
      JoinInjective(s, p, t, q);
    }
  }

  lemma ProcessIsNotBacking(stack: string, b: string, s: string, p: string)
    requires HyphenFree(b)
    ensures BackingName(stack, b) != ProcessName(stack, s, p)
  {
    if BackingName(stack, b) == ProcessName(stack, s, p) {
      assert stack + "-" + b == stack + "-" + Join(s, p);
      HyphenInside(s, p);
      Tail(stack, b, Join(s, p));
    }
  }

  /** Nothing named after one backing is named after another. */
  predicate NamesApart(sk: Key, st: Object, a: string, b: string)
    requires st.Stack?
  {
    BackingName(sk.name, a) != BackingName(sk.name, b) &&
    BackupName(BackingName(sk.name, a)) != BackupName(BackingName(sk.name, b)) &&
    CloneCredsName(BackingName(sk.name, a)) != CloneCredsName(BackingName(sk.name, b)) &&
    BackingName(sk.name, a) != BackupName(BackingName(sk.name, b)) &&
    BackingName(sk.name, b) != BackupName(BackingName(sk.name, a)) &&
    BackingName(sk.name, a) != CloneCredsName(BackingName(sk.name, b)) &&
    BackingName(sk.name, b) != CloneCredsName(BackingName(sk.name, a)) &&
    ClaimName(sk.name, a) != ClaimName(sk.name, b) &&
    CloneName(sk.ns, a) != CloneName(sk.ns, b) && RestoreName(a) != RestoreName(b) &&
    CloneName(sk.ns, a) != RestoreName(b) && CloneName(sk.ns, b) != RestoreName(a)
  }

  function OperatorKeys(sk: Key, b: BackingSpec): set<Key> {
    ClusterKeys(sk, b) + {BucketKey(sk.ns, NameOf(sk, b)), BucketKey(sk.ns, BackupName(NameOf(sk, b))), CredsKey(sk, b)}
  }

  /** What a backing of any tier may write. */
  function AnyKeys(sk: Key, st: Object, b: BackingSpec): set<Key>
    requires st.Stack?
  {
    EndpointKeys(sk, b) + SetKeys(sk, b) + SeedKeys(sk, st, b.name) + OperatorKeys(sk, b)
  }

  lemma KeysOfTier(cat: Catalog, sk: Key, st: Object, b: BackingSpec)
    requires st.Stack?
    ensures BackingKeys(cat, sk, st, b) <= AnyKeys(sk, st, b)
  {
    hide Lower, EndpointKeys, SetKeys, SeedKeys;
  }

  lemma EndpointsApart(sk: Key, st: Object, a: BackingSpec, b: BackingSpec)
    requires st.Stack? && NamesApart(sk, st, a.name, b.name)
    ensures EndpointKeys(sk, b) !! AnyKeys(sk, st, a)
    ensures SetKeys(sk, b) !! AnyKeys(sk, st, a)
  {
    hide BackingName, BackupName, CloneCredsName, ClaimName, CloneName, RestoreName;
  }

  lemma ClonesApart(sk: Key, st: Object, a: BackingSpec, b: BackingSpec)
    requires st.Stack? && NamesApart(sk, st, a.name, b.name)
    ensures SeedKeys(sk, st, b.name) !! AnyKeys(sk, st, a)
  {
    hide BackingName, BackupName, CloneCredsName, ClaimName, CloneName, RestoreName;
  }

  lemma OperatorsApart(sk: Key, st: Object, a: BackingSpec, b: BackingSpec)
    requires st.Stack? && NamesApart(sk, st, a.name, b.name)
    ensures OperatorKeys(sk, b) !! AnyKeys(sk, st, a)
  {
    hide BackingName, BackupName, CloneCredsName, ClaimName, CloneName, RestoreName;
  }

  lemma BackingsPlain(cat: Catalog, sk: Key, st: Object)
    requires st.Stack? && Plain(st.spec)
    ensures BackingsApart(cat, sk, st)
  {
    hide HyphenFree, EndpointKeys, SetKeys, SeedKeys, OperatorKeys, BackingKeys;
    forall i, j | 0 <= i < |st.spec.backing| && 0 <= j < |st.spec.backing| && i != j
      ensures BackingKeys(cat, sk, st, st.spec.backing[j]) !! BackingKeys(cat, sk, st, st.spec.backing[i])
    {
      var a, b := st.spec.backing[i], st.spec.backing[j];
      BackingNamesApart(sk.name, a.name, b.name);
      BackingNamesApart(sk.name, b.name, a.name);
      CloneNamesApart(sk.ns, a.name, b.name);
      CloneNamesApart(sk.ns, b.name, a.name);
      EndpointsApart(sk, st, a, b);
      ClonesApart(sk, st, a, b);
      OperatorsApart(sk, st, a, b);
      KeysOfTier(cat, sk, st, a);
      KeysOfTier(cat, sk, st, b);
    }
  }

  lemma InServiceKeys(sk: Key, st: Object, svc: ServiceSpec, k: Key)
    requires st.Stack?
    ensures k in ServiceKeys(sk, st, svc) <==>
            k == JobKey(sk, svc.name, st.generation) ||
            exists i | 0 <= i < |svc.processes| :: k in ProcessKeys(sk, svc, svc.processes[i])
  {
    var rungs := ProcessRungs(sk, svc, |svc.processes|);
    InUnion(rungs, k);
    if i :| 0 <= i < |rungs| && k in rungs[i] {
      assert k in ProcessKeys(sk, svc, svc.processes[i]);
    }
    if i :| 0 <= i < |svc.processes| && k in ProcessKeys(sk, svc, svc.processes[i]) {
      assert k in rungs[i];
    }
  }

  lemma ServicePairPlain(sk: Key, st: Object, s: ServiceSpec, t: ServiceSpec)
    requires st.Stack? && PlainService(s) && PlainService(t) && s.name != t.name
    ensures ServiceKeys(sk, st, s) !! ServiceKeys(sk, st, t)
  {
    hide ServiceKeys, HyphenFree;
    forall k | k in ServiceKeys(sk, st, s) ensures k !in ServiceKeys(sk, st, t) {
      InServiceKeys(sk, st, s, k);
      InServiceKeys(sk, st, t, k);
      if JobKey(sk, s.name, st.generation) == JobKey(sk, t.name, st.generation) {
        JobNamesInjective(sk.name, s.name, st.generation, t.name, st.generation);
      }
      forall i, j | 0 <= i < |s.processes| && 0 <= j < |t.processes|
        ensures ProcessName(sk.name, s.name, s.processes[i].name) != ProcessName(sk.name, t.name, t.processes[j].name)
      {
        ProcessNamesApart(sk.name, s.name, s.processes[i].name, t.name, t.processes[j].name);
      }
    }
  }

  lemma ProcessesPlain(sk: Key, svc: ServiceSpec)
    requires PlainService(svc)
    ensures ProcessesApart(sk, svc)
  {
    hide HyphenFree;
    forall i, j | 0 <= i < |svc.processes| && 0 <= j < |svc.processes| && i != j
      ensures ProcessKeys(sk, svc, svc.processes[i]) !! ProcessKeys(sk, svc, svc.processes[j])
    {
      ProcessNamesApart(sk.name, svc.name, svc.processes[i].name, svc.name, svc.processes[j].name);
    }
  }

  lemma ServiceVersusBacking(cat: Catalog, sk: Key, st: Object, svc: ServiceSpec, b: BackingSpec)
    requires st.Stack? && HyphenFree(b.name)
    ensures ServiceKeys(sk, st, svc) !! BackingKeys(cat, sk, st, b)
  {
    hide ServiceKeys, BackingKeys;
    KeysOfTier(cat, sk, st, b);
    forall k | k in ServiceKeys(sk, st, svc) ensures k !in AnyKeys(sk, st, b) {
      InServiceKeys(sk, st, svc, k);
      forall i | 0 <= i < |svc.processes|
        ensures ProcessName(sk.name, svc.name, svc.processes[i].name) != BackingName(sk.name, b.name)
      {
        ProcessIsNotBacking(sk.name, b.name, svc.name, svc.processes[i].name);
      }
    }
  }

  /** Distinct names without hyphens are enough for the children to be apart. */
  lemma PlainNamesApart(cat: Catalog, sk: Key, st: Object)
    requires st.Stack? && Plain(st.spec)
    ensures ChildrenApart(cat, sk, st)
  {
    hide ServiceKeys, BackingKeys, HyphenFree, PlainService, ProcessesApart;
    BackingsPlain(cat, sk, st);
    forall i, j | 0 <= i < |st.spec.services| && 0 <= j < |st.spec.services| && i != j
      ensures ServiceKeys(sk, st, st.spec.services[j]) !! ServiceKeys(sk, st, st.spec.services[i])
    {
      ServicePairPlain(sk, st, st.spec.services[i], st.spec.services[j]);
    }
    forall i | 0 <= i < |st.spec.services| ensures ProcessesApart(sk, st.spec.services[i]) {
      ProcessesPlain(sk, st.spec.services[i]);
    }
    forall i, j | 0 <= i < |st.spec.backing| && 0 <= j < |st.spec.services|
      ensures ServiceKeys(sk, st, st.spec.services[j]) !! BackingKeys(cat, sk, st, st.spec.backing[i])
    {
      ServiceVersusBacking(cat, sk, st, st.spec.services[j], st.spec.backing[i]);
    }
  }
}
