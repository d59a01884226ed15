/** The Kubernetes and OpenShift objects the operator reads and writes, reduced to the fields it sets or tests. */
module ClusterObjects {
  import opened WebServerApi
  import opened Sorting
  import opened Digest

  datatype Meta = Meta(name: string, ns: string, labels: Labels, annotations: Labels, owner: Option<string>)

  datatype Provider = KubernetesMembershipProvider | DNSMembershipProvider

  /** The content of a ConfigMap entry: the text of the generated scripts is reduced to the choices made in it. */
  datatype Content =
    | Text(text: string)
    | ServerXmlScript(provider: Option<Provider>, tls: bool, verification: string, accessLogs: bool)
    | StartScript(logging: bool)
    | LoggingProperties

  datatype VolumeSource = FromConfigMap(name: string) | FromClaim(name: string) | FromSecret(name: string)

  datatype Volume = Volume(name: string, source: VolumeSource, executable: bool)

  datatype Mount = Mount(name: string, path: string, subPath: string, readOnly: bool)

  datatype Probe = HealthPath | ScriptProbe(path: string)

  datatype PodTemplate = PodTemplate(
    labels: Labels,
    containerName: string,
    image: string,
    readiness: Probe,
    liveness: Probe,
    resources: string,
    securityContext: Option<string>,
    env: seq<EnvVar>,
    mounts: seq<Mount>,
    volumes: seq<Volume>,
    pullSecrets: seq<string>,
    startScript: Option<string>)

  datatype ClaimTemplate = ClaimTemplate(name: string, ns: string, spec: ClaimSpec)

  datatype WorkloadSpec = WorkloadSpec(
    replicas: int32,
    selector: Labels,
    template: PodTemplate,
    claims: seq<ClaimTemplate>,
    deleteClaims: bool)

  datatype Phase = Pending | Running | Succeeded | Failed | Unknown

  datatype Subject = Subject(kind: string, name: string, ns: string)

  datatype Kind =
    | ServiceMonitorKind | ServiceKind | ConfigMapKind | ClaimKind | RouteKind | RoleBindingKind
    | PodKind | BuildConfigKind | ImageStreamKind | DeploymentKind | StatefulSetKind

  datatype Ref = Ref(kind: Kind, ns: string, name: string)

  datatype Body =
    | ServiceMonitor(monitored: Labels)
    | Service(port: int, headless: bool, loadBalancer: bool, selector: Labels, addresses: seq<string>)
    | ConfigMap(data: map<string, Content>)
    | Claim(volumeName: string, storageClass: string)
    | Route(host: string, subdomain: string, passthrough: bool, admitted: seq<string>)
    | RoleBinding(roleKind: string, roleName: string, subjects: seq<Subject>)
    | Pod(image: string, mounts: seq<Mount>, volumes: seq<Volume>, phase: Phase, ip: string)
    | BuildConfig(sources: WebSources, fromStream: string, fromNamespace: string)
    | ImageStream(repository: string)
    | Workload(kind: WorkloadKind, spec: WorkloadSpec, observed: int32)

  datatype Object = Object(meta: Meta, body: Body)
  {
    function Id(): Ref {
      Ref(
        match body
        case ServiceMonitor(_) => ServiceMonitorKind
        case Service(_, _, _, _, _) => ServiceKind
        case ConfigMap(_) => ConfigMapKind
        case Claim(_, _) => ClaimKind
        case Route(_, _, _, _) => RouteKind
        case RoleBinding(_, _, _) => RoleBindingKind
        case Pod(_, _, _, _, _) => PodKind
        case BuildConfig(_, _, _) => BuildConfigKind
        case ImageStream(_) => ImageStreamKind
        case Workload(kind, _, _) => KindOf(kind)
        ,
        meta.ns, meta.name)
    }
  }

  function KindOf(kind: WorkloadKind): Kind {
    if kind == WorkloadKind.Deployment then DeploymentKind else StatefulSetKind
  }

  predicate IsWorkload(ref: Ref) {
    ref.kind == DeploymentKind || ref.kind == StatefulSetKind
  }

  /** The API server's objects, each under its own kind, namespace and name. */
  type Store = m: map<Ref, Object> | forall r :: r in m ==> m[r].Id() == r witness map[]

  /** The order in which the cache lists a set of objects: any order, each object once. */
  type Lister = f: set<Ref> -> seq<Ref> | forall refs :: Lists(f(refs), refs) ghost witness AnyLister()

  ghost function AnyLister(): (f: set<Ref> -> seq<Ref>)
    ensures forall refs :: Lists(f(refs), refs)
  {
    (refs: set<Ref>) => Listing(refs)
  }

  /** The operator's environment, fixed at start. */
  datatype Platform = Platform(
    isOpenShift: bool,
    hasServiceMonitor: bool,
    operatorNamespace: string,
    hashing: Hashing,
    lister: Lister)

  const HASH: string := "webserver-hash"
  const SOURCE_HASH: string := "web-image-source-hash"

  /** A label as Go reads it: the empty string when absent. */
  function LabelOf(labels: Labels, key: string): string {
    if key in labels then labels[key] else ""
  }
}
