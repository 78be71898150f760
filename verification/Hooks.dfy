/** Whose release hook a gate waited for. */
module Hooks {
  import opened Wrappers
  import opened Names
  import opened NameLaws
  import opened Objects
  import opened Shapes
  import opened Clusters
  import opened Services
  import opened Runs

  // -------------------------------------------------------------- where Jobs come from

  /** Event `w` created the Job, for the hook of a service in a version of a Stack
      its pass had read. */
  ghost predicate MadeBy(cfg: Config, stores: seq<Store>, events: seq<Event>, n: nat, k: Key, w: nat) {
    w < n < |stores| && w < |events| && events[w].JobCreated? && events[w].key == k && events[w].job.Job? &&
    HookJustified(cfg, stores[..w + 1], k, events[w].job, events[w].why) &&
    k in stores[n].objs && stores[n].objs[k].obj.Job? &&
    stores[n].objs[k].obj == events[w].job.(outcome := stores[n].objs[k].obj.outcome)
  }

  lemma JobStep(cfg: Config, s: Store, ev: Event, k: Key)
    requires Typed(s) && Possible(cfg, s, ev) && k.kind == JobKind && k in Effect(cfg, s, ev).objs
    requires OwnerOf(Effect(cfg, s, ev).objs[k].obj) != None
    ensures (ev.JobCreated? && ev.key == k && ev.job.Job? && Effect(cfg, s, ev).objs[k].obj == ev.job) ||
            (k in s.objs && s.objs[k].obj.Job? && Effect(cfg, s, ev).objs[k].obj.Job? &&
             OwnerOf(s.objs[k].obj) == OwnerOf(Effect(cfg, s, ev).objs[k].obj) &&
             Effect(cfg, s, ev).objs[k].obj == s.objs[k].obj.(outcome := Effect(cfg, s, ev).objs[k].obj.outcome))
  {
  }

  lemma WarrantedJob(cfg: Config, stores: seq<Store>, ev: Event)
    requires |stores| > 0 && ev.JobCreated? && Warranted(cfg, stores, ev)
    ensures ev.job.Job? && HookJustified(cfg, stores, ev.key, ev.job, ev.why)
  {
  }

  /** Every Job of a Stack was created by one of its passes and never rewritten. */
  lemma JobOrigin(cfg: Config, stores: seq<Store>, events: seq<Event>, n: nat, k: Key) returns (w: nat)
    requires IsRun(cfg, stores, events) && n < |stores| && k.kind == JobKind && k in stores[n].objs
    requires OwnerOf(stores[n].objs[k].obj) != None
    ensures MadeBy(cfg, stores, events, n, k, w)
  {
    hide IsStep, Warranted, Effect, Possible, HookJustified;
    assert n > 0;
    RunTyped(cfg, stores, events, n - 1);
    StepOf(cfg, stores, events, n - 1);
    JobStep(cfg, stores[n - 1], events[n - 1], k);
    if events[n - 1].JobCreated? && events[n - 1].key == k && stores[n].objs[k].obj == events[n - 1].job {
      w := n - 1;
      WarrantedJob(cfg, stores[..n], events[n - 1]);
    } else {
      w := JobOrigin(cfg, stores, events, n - 1, k);
    }
  }

  // ----------------------------------------------------------------- the gate, in full

  /** The Job under a gate's name ran the release command of the service of that
      name in a stored version of the Stack with that generation, once the backings it
      connects to were ready, with the env its connections stand for. */
  ghost predicate RanHook(cfg: Config, stores: seq<Store>, sk: Key, service: string, generation: nat, job: Object,
        why: Reason)
  {
    job.Job? && why.Hook? && HasStack(stores, why.version, sk) &&
    (var st := StackAt(stores, why.version, sk);
     st.generation == generation && why.service < |st.spec.services| &&
     (var svc := st.spec.services[why.service];
      svc.name == service && HasHook(svc) &&
      JobFits(cfg, job.(outcome := JobActive), sk.name, svc, why.passage.env) &&
      Connected(cfg, stores, sk, st.spec, svc, why.passage)))
  }

  /** A Job that carries the Stack as its owner ran this service's hook at this
      generation, and no other service's. */
  lemma OwnJobRanHook(cfg: Config, stores: seq<Store>, events: seq<Event>, n: nat, sk: Key, service: string,
        generation: nat)
    returns (why: Reason)
    requires IsRun(cfg, stores, events) && n < |stores|
    requires JobKey(sk, service, generation) in stores[n].objs
    requires OwnerOf(stores[n].objs[JobKey(sk, service, generation)].obj) == Some(sk.name)
    requires sk.kind == StackKind
    ensures RanHook(cfg, stores, sk, service, generation, stores[n].objs[JobKey(sk, service, generation)].obj, why)
  {
    hide IsStep, Connected;
    var k := JobKey(sk, service, generation);
    var w := JobOrigin(cfg, stores, events, n, k);
    why := events[w].why;
    var st := StackAt(stores, why.version, why.stack);
    ConnectedPersists(cfg, stores[..w + 1], stores, why.stack, st.spec, st.spec.services[why.service], why.passage);
    assert why.stack.name == sk.name;
    JobNamesInjective(sk.name, service, generation, st.spec.services[why.service].name, st.generation);
  }

  /** The release gate as a promise to the user: a Deployment of a service with a
      hook, when the Job its pass saw is its own Stack's, was written only after
      that service's hook of that generation had run to completion; if the Stack
      was not recreated meanwhile, it is the hook of the very spec rolled out. */
  lemma RolloutFollowsHook(cfg: Config, stores: seq<Store>, events: seq<Event>, n: nat, k: Key)
    returns (w: nat, why: Reason, hook: Reason)
    requires IsRun(cfg, stores, events) && n < |stores|
    requires k.kind == DeploymentKind && k in stores[n].objs && OwnerOf(stores[n].objs[k].obj) != None
    ensures w < n && events[w].key == k && Gated(cfg, stores, k, stores[n].objs[k].obj, w, why)
    ensures var st := StackAt(stores, why.version, why.stack); var svc := st.spec.services[why.service];
            HasHook(svc) ==>
              var jk := JobKey(why.stack, svc.name, st.generation);
              why.passage.job <= w && JobDone(stores[why.passage.job], jk) &&
              (OwnerOf(stores[why.passage.job].objs[jk].obj) == Some(why.stack.name) ==>
                 RanHook(cfg, stores, why.stack, svc.name, st.generation, stores[why.passage.job].objs[jk].obj, hook) &&
                 (stores[hook.version].objs[why.stack].uid == stores[why.version].objs[why.stack].uid ==>
                    StackAt(stores, hook.version, why.stack).spec == st.spec))
  {
    hide IsStep, Connected, RanHook, DeploymentFits;
    w, why := RolloutGated(cfg, stores, events, n, k);
    hook := Plumbing;
    var st := StackAt(stores, why.version, why.stack);
    var svc := st.spec.services[why.service];
    if HasHook(svc) {
      var jk := JobKey(why.stack, svc.name, st.generation);
      if OwnerOf(stores[why.passage.job].objs[jk].obj) == Some(why.stack.name) {
        hook := OwnJobRanHook(cfg, stores, events, why.passage.job, why.stack, svc.name, st.generation);
        HookVersion(cfg, stores, why.stack, svc.name, st.generation, stores[why.passage.job].objs[jk].obj, hook);
        if stores[hook.version].objs[why.stack].uid == stores[why.version].objs[why.stack].uid {
          if hook.version <= why.version {
            GenerationFixesSpec(cfg, stores, events, hook.version, why.version, why.stack);
          } else {
            GenerationFixesSpec(cfg, stores, events, why.version, hook.version, why.stack);
          }
        }
      }
    }
  }

  lemma HookVersion(cfg: Config, stores: seq<Store>, sk: Key, service: string, generation: nat, job: Object,
        why: Reason)
    requires RanHook(cfg, stores, sk, service, generation, job, why)
    ensures why.Hook? && HasStack(stores, why.version, sk) && StackAt(stores, why.version, sk).generation == generation
  {
  }

  /** The gate goes by the Job's name alone: another Stack's finished Job of that
      name opens it, and such a Job exists whenever the two Stacks' and services'
      joined names agree. */
  lemma ForeignJobOpensGate(cfg: Config, s: Store, sk: Key, st: Object, svc: ServiceSpec, env: seq<EnvVar>,
                            other: string, service: string)
    requires st.Stack? && Shifted(sk.name, svc.name, other, service)
    requires JobDone(s, Key(JobKind, sk.ns, ReleaseJobName(other, service, st.generation)))
    ensures ReleaseGateQ(cfg, s, sk, st, svc, env) == Outcome(s, Ok(JobComplete))
  {
    JobNamesCollide(sk.name, svc.name, st.generation, other, service, st.generation);
  }
}
