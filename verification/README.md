# The PaaS control plane, modelled and proved in Dafny

The control plane turns an `Environment` into a namespace and a `Stack` into backing data services, release Jobs and
Deployments. Its controllers are level-triggered: every pass reads some objects, perhaps from a lagging cache, makes a
series of create-or-update calls, any of which may fail, writes a status, and leaves the rest to a later pass. This
project models those passes call by call, and proves what they keep over all runs in which users, engines, failing
passes and stale reads interleave.

How the model is put together:

- `Clusters` (Clusters.dfy) is the API server as a *run*: a sequence of stores (key to UID, resourceVersion, object) and
  the events between them. Events of users and engines are free, save that engines only fill in status. An event of a
  controller pass is enabled only if the stores the pass had read justify it; the indexes of those stores are part of
  the event. A typed read may be answered from any earlier store, an unstructured one is live.
- `Shapes` says, field by field and in terms of the spec and the descriptors alone, what each object is to look like.
  The passes build their objects in their own ways, and an event that writes one is enabled only if it looks like that.
- `Api` is the client as a class over such a run. Before every call any number of events of others may happen, and the
  call may fail; `quiet` says that neither does.
- `Snapshots` to `Reconcilers`, and `Environments`, are the passes, in the order and with the branches of the source.
  Each contract says two things: whatever else happens, every write of the pass is an enabled event and the evidence it
  returns is true; and when nothing else happens, the store and the result are those of a function (`...Q`) of the store.
- `Runs`, `CatalogGaps`, `Provenance`, `Lineages`, `Credentials`, `Hooks`, `WakeUps` and `Teardowns` are theorems about
  all runs. `Settling` to `Passes`, `Sharing`, `CrossClones`, `PlainNames`, `Convergence` and `Liveness` are theorems about passes
  as functions: when a pass is idempotent, a bound on the number of steps to convergence, and that these steps exist. `Example` applies
  them to one Stack.
- `Hubs` is the SSE hub as a machine of its own, with a bound on how soon it is fresh, and its code as a class over it; `Overcommit`, `Catalogs`, `Overlays`,
  `Twins` and `NameLaws` are the pieces beside.

Check everything with `dafny verify dfyconfig.toml --resource-limit 2000000 --verification-time-limit 0` (Dafny 4.11).

Properties the code does not have, with what holds instead:

- A read of the descriptors' ConfigMap that fails is taken for an empty one. The pass then skips backings that only the
  ConfigMap describes, rolls out services that connect to them without their env, calls the Stack Running and does not
  come back (`CatalogGaps.FailedReadOpensGate`). A service let through has all its backings ready exactly when the
  catalog that was loaded covers its connections (`GateHoldsExactly`); with a failed read, exactly when no connection
  leans on the ConfigMap alone (`FailedReadGate`); with an answered read, for all that the answer described
  (`AnsweredReadHolds`).
- The release gate goes by the Job's name alone, and two Stacks of one namespace can share one
  (`Hooks.ForeignJobOpensGate`); when is settled by `NameLaws.JobNamesCollide`.
- Namespace and clone names are ambiguous as soon as a project or namespace name has a hyphen
  (`NameLaws.HyphenCollides`); exactly when is settled by `NamespacesCollide` and `ClonesCollide`.
- The comment on overcommit claims an equivalence. `Overcommit.WhenRatioIsExact` says on which limits it holds, and
  `RatioExactForMultiples` what that means where no floor applies; `RatioIsNotExact` gives limits on which it fails,
  `AdmittedLimits` and `BoundIsTight` the bound.
- A descriptor with a `password` entry in `secretValues` can break coherence at the first pass, and stability at a Secret
  that holds another password already (`Credentials.PasswordTemplateBreaks`). Exactly when a pass keeps the password is
  `PasswordKept`; exactly when it leaves a coherent Secret is `CoherentExactly`.
- Nothing in a teardown holds back a running Stack pass, which may leave a clone artifact behind after the last
  finalizer of its namespace is gone (`Teardowns.RunningStackEscapes`).
- The result of the ConfigMap overlay depends on map order exactly when two documents describe different things under one
  name (`Overlays.OneCatalog`).
- The API's entry for a bucket does not name three of the variables that a connection to one gets
  (`Twins.OperatorEntriesAgree`); the entries of all other types name exactly what is got (`Twins.EntryAgrees`).
- A comment (environment_controller.go:171-174) has a preview's backings other than postgres start empty; the code
  restores them from the parent's volumes, and the model follows it (`Provenance.VolumesAreSeeded`).
- A pass need not be idempotent: a clone may share from a content that a later clone of the same pass rewrites. It is
  idempotent exactly when every clone that goes on waiting found what it would find after the pass
  (`Passes.PassTwice`; the condition, `Sharing.ClonesSettle`, reads the store before the pass). Of two clones, the source
  of the one bound to the static content of the other, that is when their drivers agree
  (`CrossClones.CrossBoundClones`); `CrossedStore` is such a store. No source bound to a content of the Stack's own is
  enough (`Sharing.ForeignSourcesSettle`).

## Model

| member | source | states |
|---|---|---|
| Objects.MutateCarries | internal/controller/servicedef.go:225-247 | The object a mutate function returns carries every field that call site owns, a Secret's host and port and a preview's clone source among them; a template Secret's values are rendered with the password beside them, and a wanted password is there |
| Objects.MutateSettles | internal/controller/stack_controller.go:332-398 | A mutate function run again on its own result changes nothing, so CreateOrUpdate becomes a no-op |
| Clusters.VersionIdentifies | internal/controller/environment_controller.go:80-88 | Two reads of a key at one resourceVersion saw the same object, which makes Update safe against lost updates |
| Clusters.RunTyped | internal/controller/stack_controller.go:96-102 | In every run every key holds an object of its own kind |
| Api.ApiServer.CreateOrUpdate | internal/controller/snapshots.go:128-135 | Get, mutate, then create, update at the version read, or nothing: with interference the object returned carries the patch and was in some store; without, store and result are those of `Apply` |
| Api.ApiServer.WriteBack | internal/controller/snapshots.go:128-135 | The write half: Create fails on an existing object, Update on a changed resourceVersion, and what lands is the mutated form of what was read |
| Api.ApiServer.CreateJob | internal/controller/stack_controller.go:730-739 | Create only if no object has that name |
| Api.ApiServer.WriteStatus | internal/controller/stack_controller.go:878-880 | Status().Update succeeds only on the version read and changes nothing but the status |
| Api.ApiServer.ListDeployments | internal/controller/stack_controller.go:842-845 | Every Deployment labelled with the Stack in some store, once each |
| Api.ApiServer.ListArtifacts | internal/controller/snapshots.go:212-223 | Every object of the kind labelled with the namespace, live, once each |
| Api.ApiServer.Delete | internal/controller/snapshots.go:224-228 | On success the object is gone or its deletion is under way; NotFound is success |
| Api.ApiServer.AddFinalizer | internal/controller/environment_controller.go:80-84 | On success the same Environment object holds the finalizer |
| Api.ApiServer.RemoveFinalizer | internal/controller/environment_controller.go:74-77 | Only with a justified teardown, and only on the version read |
| Snapshots.ShareBound | internal/controller/snapshots.go:138-179 | From the source snapshot to the static content: stops at the first link not there; otherwise the content carries the handle and driver of the content the snapshot is bound to |
| Snapshots.ShareTo | internal/controller/snapshots.go:158-179 | The static content shows the driver and handle that were read, labelled with the preview's namespace, and refers to its restore snapshot |
| Snapshots.ShareHandle | internal/controller/snapshots.go:122-179 | Takes the parent's snapshot and shares its handle; true means the chain so far is unbroken |
| Snapshots.PrepareCloneRestore | internal/controller/snapshots.go:111-191 | Ready means the chain restore snapshot, static content, handle, source snapshot, claim `data-<parentStack>-<b>-0` is unbroken, every link labelled with the preview's namespace |
| Volumes.SeedVolume | internal/controller/stack_controller.go:626-635 | Before the first creation in a preview either waits or gives the ready restore snapshot; otherwise the object was there or nothing is cloned |
| Volumes.LabelBackup | internal/controller/snapshots.go:81-96 | On success there was a store in which the claim was missing or labelled, and a claim read without its label got it, with its backing; undisturbed, the claim gets the label if it is there without it |
| Tiers.TemplateEndpoint | internal/controller/servicedef.go:225-261 | Secret and headless Service were seen as the descriptor asks: values rendered with the Secret's own password, host and port, a selector that leads to the pods and their port |
| Tiers.SetUp | internal/controller/servicedef.go:300-340 | The StatefulSet was seen with the image, command, env, port and mount its backing asks for, written with a claim only at creation and only the one it is to have; ready means a ready replica was seen |
| Tiers.ReconcileTemplated | internal/controller/servicedef.go:209-341 | Ready only with a ready replica; Secret and Service as the descriptor asks, and unless pending the StatefulSet too, its image rendered with the backing's version or the default, its env by reference, its mount where the descriptor persists |
| Tiers.ReconcileFallback | internal/controller/stack_controller.go:584-687 | The same for the image fallback, which fails without a port: image, port and the mount at /data, a Secret with the address |
| Tiers.EnsureBucket | internal/controller/stack_controller.go:523-547 | The claim exists, named and classed as configured; bound only if it was bound and a ConfigMap of that name was seen with that BUCKET_NAME |
| Tiers.ReconcileObject | internal/controller/stack_controller.go:512-518 | Ready only with a bound bucket claim |
| Tiers.ParentBucket | internal/controller/stack_controller.go:434-450 | A name only if the parent Cluster was recoverable, and only the one the parent's ConfigMap had as BUCKET_NAME |
| Tiers.CopyBackupCreds | internal/controller/stack_controller.go:455-472 | On success the copy was seen with both keys of the parent's Secret as it was read; NotFound without that Secret |
| Tiers.ChooseBootstrap | internal/controller/stack_controller.go:280-309 | The bootstrap is recovery from the bucket the parent's ConfigMap names, with a copy of the parent's credentials that was seen, or initdb where nothing is cloned or the Cluster was there; none while the parent has nothing to recover |
| Tiers.ApplyCluster | internal/controller/stack_controller.go:326-407 | The Cluster was seen with the disk and image its backing asks for, archiving to the bucket once it is bound, with its ScheduledBackup; its bootstrap is set only at creation; up only with a ready instance |
| Tiers.EnsureScheduledBackup | internal/controller/stack_controller.go:475-491 | The ScheduledBackup of the Cluster was seen, owned by the Stack |
| Tiers.ReconcilePostgres | internal/controller/stack_controller.go:262-411 | Ready only with a ready instance; not pending only with the Cluster seen as asked and, where backups are wanted, archiving to the bucket that the ConfigMap of its bound claim named, with its ScheduledBackup |
| Bindings.Bind | internal/controller/stack_controller.go:496-510 | The env of a connection, by tier, its discrete variables in a fixed order |
| Bindings.ContainerEnvFrom | internal/controller/servicedef.go:359-365 | Env from a map, in ascending key order whatever the map order |
| Sorting.SortedKeys | internal/controller/servicedef.go:379-386 | The one ascending listing of the keys |
| Sorting.OrderUnique | internal/controller/servicedef.go:379-386 | A set of keys has only one ascending listing, so rendered specs cannot thrash |
| Catalogs.ServiceCatalog.Register | internal/controller/servicedef.go:121-126 | Points the type and every alias, lower-cased, at the descriptor, and no other name |
| Catalogs.ServiceCatalog.LookUp | internal/controller/servicedef.go:128-133 | The descriptor the lower-cased name points at |
| Catalogs.LastWriterWins | internal/controller/servicedef.go:121-133 | After any registrations a lookup finds the last descriptor claiming the name, else what was there before |
| Catalogs.OrderIrrelevant | internal/controller/servicedef.go:184-203 | When descriptors that claim a common name are equal, the catalog does not depend on their order |
| Overlays.OrderMatters | internal/controller/servicedef.go:195-203 | Two documents of any ConfigMap that describe different things under one name: some order gives the one, some order the other |
| Overlays.OneCatalog | internal/controller/servicedef.go:195-203 | Every read of a ConfigMap gives one catalog, whatever the map order, if and only if no two documents describe different things under one name |
| Catalogs.NothingUnregistered | internal/controller/servicedef.go:179-204 | An overlay never takes a name away |
| Catalogs.ClaimsExactly | internal/controller/servicedef.go:121-133 | A descriptor claims its type and its aliases, whatever their case |
| Catalogs.ServiceCatalog.Entries | internal/controller/catalog_api.go:69-96 | The operator types and each descriptor still pointed at exactly once, sorted by type |
| Catalogs.UpperSnake | internal/controller/catalog_api.go:117-131 | Byte for byte, letters, digits and underscores only |
| Catalogs.EntryDispatches | internal/controller/stack_controller.go:198-236 | Every name of an entry reaches the template tier under any later overlay if and only if none of them is postgres, postgresql, object or s3 |
| Backings.MergeCatalog | internal/controller/servicedef.go:179-204 | The builtin catalog overlaid with the documents that parse, in some map order; nothing unregistered |
| Backings.OverlayKeys | internal/controller/servicedef.go:179-204 | The types of an overlay are the builtins' and those the documents describe, whatever the map order |
| Backings.LoadCatalog | internal/controller/servicedef.go:179-204 | The catalog a pass loads is the overlay of the ConfigMap as it was read, and of nothing when that read failed |
| Backings.LookupOrigin | internal/controller/servicedef.go:179-204 | What a loaded catalog has for a backing's type is what some document that claims it describes, else the builtin; a backing falls to its image only when neither does |
| Backings.ProvisionOne | internal/controller/stack_controller.go:197-237 | The dispatch of one backing: a ready answer was seen ready, a settled one is in place with every object as the backing asks, by the descriptor the catalog read has, the binding names what its tier makes, and it is skipped exactly when its type is neither built in the operators nor in the catalog and it has no image |
| Backings.ReconcileBacking | internal/controller/stack_controller.go:191-254 | Every entry of the map was seen as it says, no backing that the loaded catalog provisions is missing, and unless the pass is to be repeated each of these is in place |
| Backings.LedgerHas | internal/controller/stack_controller.go:191-254 | The map has exactly the names of the backings that the catalog provisions |
| Services.ServiceUrls | internal/controller/stack_controller.go:914-928 | The last service of a name wins, by its first process with a port |
| Services.UrlsAreServiceEdges | internal/controller/stack_controller.go:914-928 | A name has an internal URL exactly when a service of that name has a port |
| Services.UrlIsEdge | internal/controller/stack_controller.go:914-928 | That URL is http:// and the cluster address of the first process with a port, of the last service of the name that has one |
| Services.ResolveConnections | internal/controller/stack_controller.go:124-148 | The env of a service is the spec's vars, then all that its connections add, and nothing else; it is held exactly when a connection leads to a backing that is not ready |
| Services.BindingIs | internal/controller/stack_controller.go:496-574 | A connection to a backing adds exactly the vars its tier stands for: libpq's, the S3 clients' names, the descriptor's primary key and extras, or the fallback's address, by reference to what the tier makes |
| Services.NotWaitingIsMet | internal/controller/stack_controller.go:124-152 | A service that is not held has every service edge's URL and every ready backing's vars in its env, and no others |
| Services.WaitsForBacking | internal/controller/stack_controller.go:126-152 | A service is held exactly when some connection leads to a backing that is not ready |
| Services.ReleaseGate | internal/controller/stack_controller.go:726-755 | The state of the Job of this generation as it was seen; a missing one is created, once the backings are ready, with the resolved env, and active |
| Services.ReconcileProcess | internal/controller/stack_controller.go:789-839 | Called only past both gates; the Deployment was seen with replicas, image, command, PORT and env as the spec asks, and for a process with a port its Service, leading to it |
| Services.RollOut | internal/controller/stack_controller.go:170-174 | Every process of the service |
| Reconcilers.ReconcileService | internal/controller/stack_controller.go:113-175 | What became of a service, with the evidence: no image, held by an unready backing, hook failed, hook active, or rolled out past both gates, with every backing the loaded catalog provisions seen ready and bound in the env |
| Reconcilers.ReconcileServices | internal/controller/stack_controller.go:110-175 | The three flags say which of these occurred |
| Reconcilers.CountReady | internal/controller/stack_controller.go:846-852 | Counts the listed Deployments and those ready |
| Reconcilers.UpdateStatus | internal/controller/stack_controller.go:841-888 | Writes the status that follows from the flags and the listing, and asks to be requeued exactly when a service was held or a backing was pending |
| Reconcilers.StatusFollows | internal/controller/stack_controller.go:841-877 | Phase, hook, generation and counts follow from the fates and the listed Deployments; while a service is held the hook keeps the phase it had |
| Reconcilers.Work | internal/controller/stack_controller.go:104-177 | A successful pass reports truly and stores the phase, hook and counts that its fates and its listing call for |
| Reconcilers.Reconcile | internal/controller/stack_controller.go:96-177 | The whole pass: all its writes are justified, its report, the catalog read included, is true, and undisturbed it is `ReconcileQ` of the store |
| Runs.LastWriter | internal/controller/stack_controller.go:796-822 | In every run every owned object, Jobs aside, is the work of a pass whose reads justified it and still carries that patch |
| Runs.RolloutGated | internal/controller/stack_controller.go:150-174 | Release gate: in every run a Stack's Deployment is what a stored version of it asks, written when every backing of its service which the catalog read provisions had been ready and its Job of that generation complete, with an env of the spec's vars, the URLs and vars its connections stand for, and nothing else |
| Runs.EdgesBound | internal/controller/stack_controller.go:127-132 | In every run the Deployments of a service hold the URL of each service it connects to under an alias |
| Runs.SecretsConnected | internal/controller/stack_controller.go:124-148 | In every run a Deployment refers to no Secret but those of the spec's own env and of backings its service connects to |
| Runs.BackingsRendered | internal/controller/servicedef.go:214-331 | In every run a Stack's StatefulSets and Clusters are what some version of it asks: a StatefulSet by the descriptor that the ConfigMap read with it, else the builtins, have for the type, or by its image |
| Runs.GenerationFixesSpec | internal/controller/stack_controller.go:727 | A generation of one Stack object has one spec |
| Runs.StatusSound | internal/controller/stack_controller.go:841-877 | In every run a stored Running or Progressing means every imaged service had passed both gates at the observed generation, under the catalog that pass had read, and Running that all labelled Deployments, at least one, were ready |
| CatalogGaps.GateHoldsExactly | internal/controller/stack_controller.go:124-152 | Under any wanted catalog, a service let through has all its backings ready if and only if the loaded catalog covers its connections |
| CatalogGaps.AnsweredReadHolds | internal/controller/servicedef.go:195-204 | A catalog loaded from an answered read covers whatever the answer described |
| CatalogGaps.FailedReadGate | internal/controller/servicedef.go:188-194 | With a failed read the gate holds if and only if no connection leans on the ConfigMap alone |
| CatalogGaps.FailedReadOpensGate | internal/controller/servicedef.go:191-194 | A Stack and a ConfigMap on which it fails, whatever is built in beside the described type: the service goes out without its queue and without its env, the Stack is Running, the pass is not repeated |
| CatalogGaps.RolloutReady | internal/controller/stack_controller.go:150-174 | In every run, for a Deployment and a connection of its service to a backing that the catalog read provisions, some backing of that name had been ready and is bound in the env |
| Provenance.SetOnce | internal/controller/servicedef.go:309-325 | In every run volume claim templates and CNPG bootstrap never change while the UID stays |
| Provenance.ChosenOnce | internal/controller/stack_controller.go:337-365 | What a pass chose at creation is what any later store still has: a claim exactly when what provisions the backing persists, of the size asked for |
| Provenance.VolumesAreSeeded | internal/controller/stack_controller.go:626-673 | Clone seeding: in every run a StatefulSet made for a preview, for a backing that persists, has a volume and it restores a snapshot that was ready, unless the object was removed between existence check and creation |
| Provenance.ClustersAreSeeded | internal/controller/stack_controller.go:278-365 | The same for a backed-up postgres: recovery from the bucket that the ConfigMap of the parent's backup named, with the parent's credentials copied |
| Provenance.ArchivesAreOwn | internal/controller/stack_controller.go:367-380 | In every run a Cluster that a pass made archives only to a bucket that the ConfigMap of its own backup claim had named, for a backing that is backed up and no clone |
| Provenance.ClonesAreAsked | internal/controller/environment_controller.go:175-182 | In every run a Stack is a clone only as a user made it, or as its Environment, a preview of that sibling, asked |
| Lineages.RestoresDescend | internal/controller/snapshots.go:111-191 | In every run, after any number of partial passes, a ready restore snapshot descends link by link from a snapshot of the parent's claim of the same backing |
| Credentials.PasswordStable | internal/controller/servicedef.go:231-233 | In every run a Secret's password never changes once set, while no descriptor renders one itself |
| Credentials.PasswordKept | internal/controller/servicedef.go:231-246 | Exactly when one pass keeps a password |
| Credentials.CoherentExactly | internal/controller/servicedef.go:231-246 | One pass leaves a coherent Secret if and only if every template renders the same with the password used as with the one left |
| Credentials.SecretsCohere | internal/controller/servicedef.go:234-246 | In every run a template Secret holds each value rendered with the password in that same Secret, if and only if the templates rendered alike when it was written; without a password template they do |
| Credentials.PasswordTemplateBreaks | internal/controller/servicedef.go:238-244 | A descriptor with a password template that breaks coherence at the first pass, and stability at a Secret with another password |
| Hooks.JobOrigin | internal/controller/stack_controller.go:731-739 | In every run a Stack's Job was created once, by a pass, for a hook of a version it had read |
| Hooks.OwnJobRanHook | internal/controller/stack_controller.go:726-785 | A Job owned by the Stack ran the hook of this service at this generation and no other, once its backings were ready, with the env its connections stand for |
| Hooks.RolloutFollowsHook | internal/controller/stack_controller.go:150-174 | A Deployment of a service with a hook was written after its own hook of that generation completed; for an unrecreated Stack, the hook of the very spec rolled out |
| Hooks.ForeignJobOpensGate | internal/controller/stack_controller.go:727-753 | Another Stack's finished Job of the same joined name opens the gate |
| WakeUps.NoLostWakeUp | internal/controller/stack_controller.go:881-888 | A successful pass that is not requeued left every backing that its catalog provisions in place, and every imaged service rolled out, or waiting for a Job that is there and watched, or with its Job failed |
| WakeUps.JobWatched | internal/controller/stack_controller.go:901-908 | The Job a service waits for is owned by the Stack, but for a hand-made Job or a name clash across Stacks |
| Settling.ApplyAdvances | internal/controller/snapshots.go:128-135 | One call writes under one key and takes nothing engines reported or creation decided |
| Settling.CloneAgain | internal/controller/snapshots.go:111-191 | Preparing a clone again, when it finds the same to share, changes nothing and answers the same, over any store that kept what it left |
| SettlingTiers.PostgresAgain | internal/controller/stack_controller.go:262-411 | Provisioning a postgres again changes nothing and answers the same, though the second look skips the clone |
| SettlingTiers.ProvisionAgain | internal/controller/stack_controller.go:197-237 | Provisioning any backing again changes nothing if and only if its clone, where it waits for one, rereads what it found; and then it answers the same |
| Idempotence.ServicesAgain | internal/controller/stack_controller.go:113-175 | Going over the services again changes nothing and answers the same |
| Passes.PassTwice | internal/controller/stack_controller.go:96-176 | Idempotence: after a successful pass over any store, a second one changes nothing and answers the same if and only if the clones that go on waiting had found, before the pass, what they would find after it; the children of its backings and services have distinct names |
| Passes.SecondPass | internal/controller/stack_controller.go:96-176 | The same equivalence with the catalog loaded anew each time |
| Sharing.OffersAre | internal/controller/snapshots.go:146-175 | What any content offers at any point of a pass follows from the store before it and the clones that went first |
| Sharing.RereadsExactly | internal/controller/snapshots.go:137-179 | The second look of every clone finds what its first one found, or what it already shares, if and only if the clones settle in the store before the pass |
| Sharing.ForeignSourcesSettle | internal/controller/snapshots.go:146-175 | They do when no source snapshot is bound to a static content the same Stack writes |
| CrossClones.CrossBoundClones | internal/controller/snapshots.go:146-175 | Two waiting clones, one's source bound to the other's static content, in a Stack of any two backings with a volume: after a successful pass a second one changes nothing if and only if the drivers they name agree |
| CrossClones.CrossedStore | internal/controller/snapshots.go:146-175 | A preview of two such clones, for any two drivers: a pass over it succeeds, and the next one changes nothing if and only if they are the same |
| PlainNames.PlainNamesApart | internal/controller/stack_controller.go:790 | Distinct names without hyphens are enough for the children's names to be distinct, under any catalog |
| Convergence.StuckWaits | internal/controller/stack_controller.go:126-165 | Progress: after a pass, while a service is held or waits for its hook, some gate is shut that its owner can open |
| Convergence.DriversAreNamed | internal/controller/snapshots.go:158-172 | In every run a labelled static content names its driver |
| Convergence.GateOpens | internal/controller/snapshots.go:137-155 | Such a gate is one status report away from open, which shuts no other |
| Convergence.RunOpensGate | internal/controller/snapshots.go:137-155 | In every run that report can come next |
| Convergence.PassKeepsGates | internal/controller/stack_controller.go:96-176 | A pass never shuts an open gate |
| Convergence.Converges | internal/controller/stack_controller.go:113-175 | At most nine rounds per backing and one per service, each opening a gate, before every imaged service is rolled out unless its Job failed |
| Convergence.UpServes | internal/controller/stack_controller.go:124-165 | What being up means: an imaged service has its release Job finished, and its connections to provisioned backings lead to ready ones |
| Liveness.PassGoesOn | internal/controller/stack_controller.go:96-176 | A pass succeeds and leaves such a store, if the descriptors its backings dispatch to render, its parts write under different keys, nobody else claims what is under those keys, and a preview's sources are not bound to its own contents |
| Liveness.ComesUp | internal/controller/stack_controller.go:96-176 | From any such store, passes and one engine report between each two, every one of them possible, bring the Stack up within nine rounds per backing, one per service and one more |
| Example.ShopComesUp | internal/controller/stack_controller.go:96-176 | A Stack with a backing, a connection to it and a release hook comes up from nothing in at most eleven rounds, in which both gates, shut at first, are opened; all it asks is that the one descriptor in use renders |
| Environments.CollectArtifacts | internal/controller/snapshots.go:211-231 | Every artifact listed with clone-owner=ns had its deletion accepted, first snapshots, then contents |
| Environments.TearDown | internal/controller/environment_controller.go:65-78 | Artifacts, then the namespace, then the finalizer: success only with every listed deletion and the namespace's accepted |
| Environments.Provision | internal/controller/environment_controller.go:80-107 | On success the finalizer was seen held by this very Environment, and the namespace and the Stack were seen with what its version asks for |
| Environments.EnsureStack | internal/controller/environment_controller.go:163-187 | On success the Stack, if there is to be one, was seen with the spec, and a preview's as a clone of the sibling's Stack in the sibling's namespace |
| Environments.StackMade | internal/controller/environment_controller.go:163-187 | Undisturbed, a new Stack is a clone exactly when the Environment is a preview of a sibling; one there before takes the spec, in a new generation if it differs, and keeps status and clone source |
| Environments.Reconcile | internal/controller/environment_controller.go:53-108 | The branches of the pass: the finalizer goes only with a justified teardown, and an Environment not being deleted is provisioned from a version that was not |
| Teardowns.FinalizerLeaves | internal/controller/environment_controller.go:65-78 | In every run the finalizer leaves only by a teardown of the Environment's last version |
| Teardowns.TeardownComplete | internal/controller/environment_controller.go:65-94 | In every run, after it left, every labelled artifact has its deletion under way, or a pass over a Stack in that namespace wrote it after the list; and so for the namespace, unless something made it anew |
| Teardowns.NoNamespaceEscapes | internal/controller/environment_controller.go:189-195 | With the project fixed and one worker per Environment, no namespace an Environment ever made outlives it, unless a newer Environment makes it |
| Teardowns.RunningStackEscapes | internal/controller/snapshots.go:128-135 | After the last finalizer of a namespace has gone, the run can go on with a labelled snapshot that no teardown is left to delete |
| Hubs.AlwaysSafe | internal/api/server.go:491-543 | In every run nothing is sent on a closed channel and the last select never finds the slot taken |
| Hubs.AlwaysOrdered | internal/api/server.go:522-543 | In every run each subscriber receives a strictly increasing sequence of broadcasts |
| Hubs.AlwaysServed | internal/api/server.go:525-543 | In every run each broadcast gives every subscriber exactly its payload |
| Hubs.ClientsStayFresh | internal/api/server.go:291-312 | Freshness in every run: what a client will show is current, or a wake-up is outstanding, or a broadcast on its way to it is current |
| Hubs.QuietMeansFresh | internal/api/server.go:484-562 | With nothing outstanding every client shows exactly the caches' state |
| Hubs.WorkRunsOut | internal/api/server.go:491-562 | In every run, while no cache changes, no heartbeat ticks and nobody joins, the informers and the run loop take no more steps than there was work |
| Hubs.BecomesFresh | internal/api/server.go:491-562 | Any run can go on with no more steps than there is work, after which every client is exactly up to date |
| Hubs.Hub.MarkDirty | internal/api/server.go:484-489 | Fills the one token, or finds it there |
| Hubs.Hub.Send | internal/api/server.go:526-542 | The nested selects, readers racing, end with the payload in the slot |
| Hubs.Hub.Broadcast | internal/api/server.go:513-544 | Nobody is watching, or everybody is given one snapshot begun after the call |
| Hubs.Hub.Connect | internal/api/server.go:291-299 | Subscribes before priming, and primes with a snapshot no older than the call |
| Hubs.Hub.Turn | internal/api/server.go:545-562 | A turn of the run loop takes a channel that is ready, and blocks only if none is: a token arms the timer, a timer or a heartbeat gives everybody a snapshot begun after |
| Twins.BackingStatuses | internal/api/server.go:400-431 | Per backing, the signal of its tier |
| Readiness.GateAgrees | internal/controller/stack_controller.go:197-237 | The reconciler's answer for a backing is the tier's signal in the store it leaves, and for a bucket the ConfigMap besides |
| Readiness.SetMade | internal/controller/servicedef.go:296-338 | What provisioning a StatefulSet leaves: made now, it has a claim exactly when it persists, of the size asked for, empty or in a preview restoring the clone's snapshot; there before, it keeps its claim; a backed-up one's claim is labelled |
| Readiness.ScheduleMade | internal/controller/stack_controller.go:239-252 | Undisturbed, a Stack that is no clone is left with its snapshot schedule exactly when some backing is to be backed up |
| Twins.TwinAgrees | internal/api/server.go:397-431 | In a settled store a backing is ready for the gate exactly when the twin says so and, for a bucket, its ConfigMap is there |
| Twins.EntryAgrees | internal/controller/catalog_api.go:78-92 | The API's entry for a descriptor names exactly the vars a connection under its default alias gets, and the image version, port and persistence a pass provisions with |
| Twins.OperatorEntriesAgree | internal/controller/catalog_api.go:43-67 | So do the entries of the operator types, save three more vars of a bucket that S3 clients read |
| Overcommit.ResolveTier | internal/controller/overcommit.go:37-42 | A known tier by name, else dev; ratios at least one |
| Overcommit.RequestsWithinLimits | internal/controller/overcommit.go:60-74 | Requests are never zero, and within the limits exactly when the limits reach 1m and 4Mi |
| Overcommit.RequestsByRatio | internal/controller/overcommit.go:60-74 | Each request is its limit over the ratio of its own resource, rounded down, or the floor |
| Overcommit.TierRatios | internal/controller/overcommit.go:28-42 | The ratios of the four pools, and dev's for any other name |
| Overcommit.AdmittedLimits | internal/controller/overcommit.go:8-12 | Requests of n containers within A keep limits within rA + n(r-1) |
| Overcommit.BoundIsTight | internal/controller/overcommit.go:60-74 | Some containers reach that bound, for every n and r |
| Overcommit.LimitsAdmitted | internal/controller/overcommit.go:8-12 | Limits within rA keep requests within A when no floor applies |
| Overcommit.NodeAdmits | internal/controller/overcommit.go:8-22 | What a node of a pool admits by its requests keeps CPU and memory within their own ratios' worth, but for less than one ratio each container |
| Overcommit.NodeHasRoom | internal/controller/overcommit.go:8-22 | Containers within that worth of both are admitted, where no floor applies |
| Overcommit.WhenRatioIsExact | internal/controller/overcommit.go:10-12 | The claimed equivalence holds for nodes of every size if and only if what the floors add to the limits makes up for what rounding drops from them, by less than one ratio |
| Overcommit.RatioExactForMultiples | internal/controller/overcommit.go:10-12 | Where no floor applies: if and only if every limit is a multiple of the ratio |
| Overcommit.RatioIsNotExact | internal/controller/overcommit.go:10-12 | Limits on which it fails, both ways |
| NameLaws.JobNamesInjective | internal/controller/stack_controller.go:727 | Release Job names are injective in service and generation within a Stack |
| NameLaws.JobNamesCollide | internal/controller/stack_controller.go:727 | Exactly when two release Jobs of a namespace share a name |
| NameLaws.NamespacesCollide | internal/controller/environment_controller.go:110-112 | Exactly when two environments share a namespace |
| NameLaws.NamespacesInjective | internal/controller/environment_controller.go:110-112 | Never when all projects, or all environments, are free of hyphens |
| NameLaws.ClonesCollide | internal/controller/snapshots.go:120 | Exactly when two clones share a source snapshot and static content |
| NameLaws.HyphenCollides | internal/controller/environment_controller.go:110-112 | Any hyphen in the first component makes the joined name ambiguous |

## Left out

- Converges: the rounds are made of successful passes whose clones settle, over a Stack whose children are apart, and a gate once open stays open between them; that such passes and openings exist is `Liveness.ComesUp`, which asks that the descriptors in use render with every password, that nobody else claims what the pass writes, and that the parent of a cloned postgres keeps its backup credentials.
- PassTwice: asks that the children's names be pairwise distinct, and that no descriptor in use has a `password` value template; on clones it is exact.
- CrossBoundClones: Kubernetes binds a snapshot only to a content that refers to it, which the model does not ask of the engines; `CrossedStore` is a store of the model's.
- LabelBackup: the claim is read from the cache, which may lag; a claim that was not seen is left without its label for a later pass.
- PasswordStable: objects a Stack owns are not edited or re-owned by hand while they live; the Secret is not deleted.
- RolloutGated: says what the pass had seen, under the catalog it had read; whose Job it was is `Hooks.RolloutFollowsHook`, and what a failed read of the catalog lets through is `CatalogGaps.FailedReadGate`.
- TeardownComplete: an artifact that a pass over a Stack of the namespace writes after the list is excepted, and `Teardowns.RunningStackEscapes` shows that it must be; the finalizer write is justified by lists of the artifacts at one moment per kind.
- NoLostWakeUp: a backing that only a ConfigMap describes, whose read failed, is not among those in place; labelling the claim of a backing is best effort and may wait for the next pass.
- WorkRunsOut: changes of the caches, heartbeats and new subscribers bring new work and end the count.
- ClientsStayFresh: marshalling a snapshot is taken not to fail, and the run loop not to be cancelled.
- TwinAgrees: both sides look at one store; each may lag behind in its own cache.
- A wall clock: the debounce, heartbeat and requeue delays are steps that may happen at any time.
- Owner references go by the Stack's name, which is what the conflict check of SetControllerReference compares; refreshing a stale owner UID is not modelled.
- Strings are ASCII: EqualFold and ToLower fold the letters A to Z only.
- Random passwords are one draw per Secret; template rendering, descriptor parsing and image normalization are parameters that may fail or return anything.
- Pod details: resources, security context, tolerations, scheduler name, pull policy, storage class names and labels nobody selects by. A Deployment's ready pods are its readyReplicas.
- The catalog's `sort.Slice` is an insertion on the way, which gives one of the orders the sort may give; a `ServiceCatalog` stores descriptors by position, a position standing for a pointer.
- The security baseline of a namespace is one step that may fail and changes nothing that is modelled; the Environment's own status is left out.
- A cluster without the snapshot kinds is one that lists none of them.
- Backup schedules and scheduled backups have no contents beyond their owner and Cluster.
- The process half of the twin, JSON, HTTP routing, request handlers other than the event stream's start, `main.go`, and AppReconciler.
- The single container of a release Job's retries: a Job is active, complete or failed, and stays finished.
