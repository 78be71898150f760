/** What still moves a Stack forward after a pass has returned. */
module WakeUps {
  import opened Wrappers
  import opened NameLaws
  import opened Objects
  import opened Clusters
  import opened Backings
  import opened Services
  import opened Reconcilers
  import opened Hooks

  /** What Reconcile returns as RequeueAfter. */
  predicate Requeued(rep: Report) { Held in rep.fates || rep.ledger.pending }

  /** The Job a service waits for is owned by the Stack, so that its completion
      wakes the controller. The exceptions are a Job put there by hand, and one of
      another Stack of the namespace whose joined name is the same. */
  ghost predicate Watched(sk: Key, service: string, job: Object) {
    match OwnerOf(job)
    case None => true
    case Some(owner) =>
      owner == sk.name ||
      exists other: string :: Shifted(sk.name, service, owner, other) || Shifted(owner, other, sk.name, service)
  }

  lemma JobWatched(cfg: Config, stores: seq<Store>, events: seq<Event>, at: nat, sk: Key, service: string,
        generation: nat)
    requires IsRun(cfg, stores, events) && at < |stores| && JobKey(sk, service, generation) in stores[at].objs
    ensures Watched(sk, service, stores[at].objs[JobKey(sk, service, generation)].obj)
  {
    hide IsStep;
    var k := JobKey(sk, service, generation);
    if OwnerOf(stores[at].objs[k].obj) != None {
      var w := JobOrigin(cfg, stores, events, at, k);
      var why := events[w].why;
      var st := StackAt(stores, why.version, why.stack);
      JobNamesCollide(sk.name, service, generation, why.stack.name, st.spec.services[why.service].name, st.generation);
    }
  }

  /** No lost wake-up: after a successful pass that does not ask to be repeated,
      every backing is in place with its backup bucket bound, and every service
      with an image is either rolled out, or waits for a Job of this generation
      that is there and watched, or has seen that Job fail. */
  lemma NoLostWakeUp(cfg: Config, stores: seq<Store>, events: seq<Event>, sk: Key, rep: Report)
    requires IsRun(cfg, stores, events) && ReportTrue(cfg, stores, sk, rep) && !Requeued(rep)
    ensures forall i | 0 <= i < |rep.st.spec.backing| &&
            Provisions(Known(cfg, DataRead(cfg, stores, rep.read)), rep.st.spec.backing[i]) ::
              InPlace(cfg, DataRead(cfg, stores, rep.read), stores, sk, rep.st, rep.st.spec.backing[i], rep.places[i])
    ensures forall i | 0 <= i < |rep.st.spec.services| && rep.st.spec.services[i].image != "" ::
              var svc := rep.st.spec.services[i]; var t := rep.traces[i];
              var k := JobKey(sk, svc.name, rep.st.generation);
              match rep.fates[i]
              case RolledOut => AllDeployed(cfg, stores, sk, svc, t.passage.env, |svc.processes|, t.deployed)
              case HookActive => JobSeen(stores, k, JobActive, t.passage.job) &&
              Watched(sk, svc.name, stores[t.passage.job].objs[k].obj)
              case HookBroken => JobSeen(stores, k, JobFailed, t.passage.job)
              case _ => false
  {
    hide IsStep, InPlace, Provisions, LoadedAt, GatesPassed, Watched, AllDeployed, LedgerSound, Blocks, Urls;
    forall i | 0 <= i < |rep.st.spec.services| && rep.st.spec.services[i].image != "" && rep.fates[i] == HookActive
      ensures Watched(sk, rep.st.spec.services[i].name,
                stores[rep.traces[i].passage.job].objs[JobKey(sk, rep.st.spec.services[i].name, rep.st.generation)].obj)
    {
      assert FateTrue(cfg, stores, sk, rep.st, rep.st.spec.services[i], rep.ledger.backings, rep.fates[i],
                      rep.traces[i]);
      JobWatched(cfg, stores, events, rep.traces[i].passage.job, sk, rep.st.spec.services[i].name, rep.st.generation);
    }
    forall i | 0 <= i < |rep.st.spec.services| && rep.st.spec.services[i].image != ""
      ensures rep.fates[i] != Held && rep.fates[i] != NoImage
      ensures FateTrue(cfg, stores, sk, rep.st, rep.st.spec.services[i], rep.ledger.backings, rep.fates[i],
                       rep.traces[i])
    {
      assert rep.fates[i] in rep.fates;
    }
  }
}
