/** The names the controllers give to objects, as functions of the Stack, its
    parts and the namespace (stack_controller.go, snapshots.go,
    environment_controller.go). */
module Names {
  function Join(a: string, b: string): string { a + "-" + b }

  function Decimal(n: nat): string
    decreases n
  {
    if n < 10 then [Digit(n)] else Decimal(n / 10) + [Digit(n % 10)]
  }

  function Digit(n: nat): char
    requires n < 10
  {
    "0123456789"[n]
  }

  /** A backing's Secret, Service, StatefulSet, Cluster or bucket claim. */
  function BackingName(stack: string, backing: string): string { Join(stack, backing) }

  function BackupName(cluster: string): string { cluster + "-backup" }

  function CloneCredsName(cluster: string): string { cluster + "-clone-src" }

  function AppSecretName(cluster: string): string { cluster + "-app" }

  function ProcessName(stack: string, service: string, process: string): string {
    Join(Join(stack, service), process)
  }

  function ReleaseJobName(stack: string, service: string, generation: nat): string {
    Join(stack, service) + "-release-g" + Decimal(generation)
  }

  /** The claim of ordinal 0 of a one-replica StatefulSet. */
  function ClaimName(stack: string, backing: string): string { "data-" + Join(stack, backing) + "-0" }

  /** Both the source snapshot and the static content of a clone. */
  function CloneName(previewNs: string, backing: string): string { "paas-clone-" + Join(previewNs, backing) }

  function RestoreName(backing: string): string { "clone-" + backing }

  function NamespaceName(project: string, environment: string): string { "proj-" + Join(project, environment) }

  function ServiceHost(name: string, ns: string): string { name + "." + ns + ".svc.cluster.local" }
}
