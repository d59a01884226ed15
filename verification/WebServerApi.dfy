/** The WebServer custom resource (api/v1alpha1/webserver_types.go). */
module WebServerApi {

  datatype Option<+T> = None | Some(value: T)

  datatype EnvVar = EnvVar(name: string, value: string)

  datatype HealthCheck = HealthCheck(readinessScript: string, livenessScript: string)

  datatype Builder = Builder(image: string, buildScript: string)

  /** `builder` may be nil: required by the CRD, tested in one place and dereferenced blindly in another. */
  datatype WebApp = WebApp(
    name: string,
    repositoryURL: string,
    repositoryRef: string,
    contextDir: string,
    warImage: string,
    pushSecret: string,
    builder: Option<Builder>)

  datatype WebImage = WebImage(
    applicationImage: string,
    pullSecret: string,
    webApp: Option<WebApp>,
    health: Option<HealthCheck>)

  datatype WebSources = WebSources(
    repositoryURL: string,
    repositorySecret: string,
    repositoryRef: string,
    contextDir: string)

  datatype WebImageStream = WebImageStream(
    streamName: string,
    streamNamespace: string,
    sources: Option<WebSources>,
    health: Option<HealthCheck>)

  datatype TLSConfig = TLSConfig(
    secret: string,
    password: string,
    certificateVerification: string,
    routeHostname: string)

  datatype PersistentLogs = PersistentLogs(
    catalinaLogs: bool,
    accessLogs: bool,
    volumeName: string,
    storageClass: string,
    deleteLogClaims: bool)

  /** The specification of a claim, copied through. */
  datatype ClaimSpec = ClaimSpec(text: string)

  datatype VolumeSpec = VolumeSpec(
    claims: seq<string>,
    secrets: seq<string>,
    configMaps: seq<string>,
    claimTemplates: seq<ClaimSpec>,
    deleteCreatedClaims: bool)

  type int32 = x: int | -0x8000_0000 <= x < 0x8000_0000

  datatype Spec = Spec(
    applicationName: string,
    replicas: int32,
    useSessionClustering: bool,
    useInsightsClient: bool,
    webImage: Option<WebImage>,
    webImageStream: Option<WebImageStream>,
    tls: TLSConfig,
    env: seq<EnvVar>,
    logs: PersistentLogs,
    podResources: string,
    securityContext: Option<string>,
    volume: Option<VolumeSpec>,
    isNotJWS: bool)

  type Labels = map<string, string>

  /** The resource without its status, which is a separate subresource. */
  datatype WebServer = WebServer(
    name: string,
    ns: string,
    uid: string,
    labels: Labels,
    annotations: Labels,
    spec: Spec)

  datatype PodState = ACTIVE | PENDING | FAILED

  datatype PodStatus = PodStatus(name: string, ip: string, state: PodState)

  datatype Status = Status(
    replicas: int32,
    pods: seq<PodStatus>,
    hosts: seq<string>,
    scalingDownPods: int32,
    selector: string)

  /** The name an absent webapp name defaults to is written into the resource before anything is derived from it. */
  function SetDefaults(w: WebServer): WebServer {
    if w.spec.webImage.Some? && w.spec.webImage.value.webApp.Some? && w.spec.webImage.value.webApp.value.name == "" then
      var image := w.spec.webImage.value;
      w.(spec := w.spec.(webImage := Some(image.(webApp := Some(image.webApp.value.(name := "ROOT.war"))))))
    else w
  }

  /** `setDefaultValues` dereferences the builder of every webapp. */
  predicate DefaultsCrash(w: WebServer) {
    w.spec.webImage.Some? && w.spec.webImage.value.webApp.Some? && w.spec.webImage.value.webApp.value.builder.None?
  }

  datatype WorkloadKind = Deployment | StatefulSet

  /** Claim templates ask for a StatefulSet, their absence for a Deployment. */
  function WantedKind(w: WebServer): WorkloadKind {
    if w.spec.volume.Some? && |w.spec.volume.value.claimTemplates| > 0 then StatefulSet else Deployment
  }

  function Health(w: WebServer): Option<HealthCheck> {
    if w.spec.webImage.Some? then w.spec.webImage.value.health
    else if w.spec.webImageStream.Some? then w.spec.webImageStream.value.health
    else None
  }

  predicate UsesTLS(w: WebServer) {
    "tls" <= w.spec.tls.routeHostname
  }

  predicate KeepsLogs(w: WebServer) {
    w.spec.logs.catalinaLogs || w.spec.logs.accessLogs
  }

  /** The condition, repeated in four places of the source, under which server.xml is edited at start. */
  predicate EditsServerXml(w: WebServer) {
    UsesTLS(w) || w.spec.useSessionClustering || w.spec.logs.accessLogs || w.spec.logs.catalinaLogs
  }

  const KUBEPING: string := "UseKUBEPing"

  function Annotation(w: WebServer, key: string): string {
    if key in w.annotations then w.annotations[key] else ""
  }

  predicate GetUseKUBEPing(w: WebServer) {
    Annotation(w, KUBEPING) != "false"
  }

  predicate NeedUseKUBEPing(w: WebServer) {
    Annotation(w, KUBEPING) == ""
  }

  /** Everything of the specification but the replica count, with the labels. */
  function Unscaled(w: WebServer): (Spec, Labels) {
    (w.spec.(replicas := 0), w.labels)
  }
}
