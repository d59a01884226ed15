/** The object generators of internal/controller/templates.go. */
module Templates {
  import opened WebServerApi
  import opened Digest
  import opened ClusterObjects

  /* ---------- names ---------- */

  const LOGGING_MAP: string := "config-volume"
  function LogClaimName(w: WebServer): string { "volume-pvc-" + w.name }
  function ScriptsMapName(w: WebServer): string { "webserver-" + w.name }
  function StartMapName(w: WebServer): string { "start-sh-webserver-" + w.name }
  function LivenessMapName(w: WebServer): string { "livenessprobescript-sh-webserver-" + w.name }
  function ReadinessMapName(w: WebServer): string { "readinessprobescript-sh-webserver-" + w.name }
  function BuildMapName(w: WebServer): string { "webserver-bd-" + w.name }
  function DNSServiceName(w: WebServer): string { "webserver-" + w.name }

  function Owned(w: WebServer, name: string): Meta {
    Meta(name, w.ns, map[], map[], Some(w.uid))
  }

  /* ---------- labels and selectors ---------- */

  function SelectorLabels(w: WebServer): Labels {
    SelectorOf(w.name, w.spec.applicationName, WantedKind(w))
  }

  function SelectorOf(name: string, app: string, kind: WorkloadKind): Labels {
    map["WebServer" := name, "application" := app, "app.kubernetes.io/name" := name]
    + if kind == WorkloadKind.StatefulSet then map["statefulset" := app] else map["deployment" := app]
  }

  /** User labels override the operator's. */
  function LabelsForWeb(w: WebServer): Labels {
    SelectorLabels(w) + w.labels
  }

  ghost function TemplateLabels(p: Platform, w: WebServer): Labels {
    LabelsForWeb(w)[HASH := WebServerHash(p.hashing, w)]
  }

  predicate Matches(selector: Labels, labels: Labels) {
    forall k :: k in selector ==> k in labels && labels[k] == selector[k]
  }

  /* ---------- environment variables ---------- */

  /** 128-bit FNV-1 hash of the name of the Insights deployment. */
  const DEPLOY_HASH_SUFFIX: string := "20b02fd04fded82dcd706406391af9ba"

  function OperatorEnv(w: WebServer): seq<EnvVar> {
    OperatorVariables(if GetUseKUBEPing(w) && w.spec.useSessionClustering then w.ns else "webserver-" + w.name,
                      w.spec.logs, EditsServerXml(w))
  }

  function OperatorVariables(namespace: string, logs: PersistentLogs, editsServerXml: bool): seq<EnvVar> {
    [EnvVar("KUBERNETES_NAMESPACE", namespace)]
    + (if logs.accessLogs then [EnvVar("ENABLE_ACCESS_LOG", "true")] else [])
    + (if editsServerXml then [EnvVar("ENV_FILES", "/env/my-files/test.sh")] else [])
    + (if logs.catalinaLogs then
         [EnvVar("CATALINA_LOGGING_CONFIG", "-Djava.util.logging.config.file=/opt/operator_conf/logging.properties")]
       else [])
  }

  /** The value of the last variable of that name. */
  function LastValue(env: seq<EnvVar>, name: string, default: string): string {
    if env == [] then default
    else if env[|env| - 1].name == name then env[|env| - 1].value
    else LastValue(env[..|env| - 1], name, default)
  }

  function AgentOptions(p: Platform, app: string, debug: string): string {
    " -javaagent:/opt/runtimes-agent.jar=name=" + app
    + ";is_ocp=true;token=dummy;debug=" + debug + ";base_url="
    + "http://insights-proxy-" + DEPLOY_HASH_SUFFIX + "." + p.operatorNamespace + ".svc:8080"
  }

  const JAVA_TOOL_OPTIONS: string := "JAVA_TOOL_OPTIONS"

  function Extended(env: seq<EnvVar>, suffix: string): seq<EnvVar> {
    seq(|env|, i requires 0 <= i < |env| =>
      if env[i].name == JAVA_TOOL_OPTIONS then EnvVar(env[i].name, env[i].value + suffix) else env[i])
  }

  predicate HasJavaToolOptions(env: seq<EnvVar>) {
    exists i :: 0 <= i < |env| && env[i].name == JAVA_TOOL_OPTIONS
  }

  function WithAgent(env: seq<EnvVar>, suffix: string): seq<EnvVar> {
    if HasJavaToolOptions(env) then Extended(env, suffix) else env + [EnvVar(JAVA_TOOL_OPTIONS, suffix)]
  }

  function EnvVars(p: Platform, w: WebServer): seq<EnvVar> {
    var env := OperatorEnv(w) + w.spec.env;
    if w.spec.useInsightsClient then
      WithAgent(env, AgentOptions(p, w.spec.applicationName, LastValue(env, "INSIGHTS_DEBUG", "false")))
    else env
  }

  /* ---------- volumes, mounts and claims ---------- */

  function Itoa(n: nat): string {
    if n < 10 then [DigitChar(n)] else Itoa(n / 10) + [DigitChar(n % 10)]
  }

  function DigitChar(d: nat): char
    requires d < 10
  {
    '0' + d as char
  }

  function ClaimName(w: WebServer, index: nat): string {
    w.spec.applicationName + "-" + Itoa(index)
  }

  function ClaimTemplates(w: WebServer): seq<ClaimTemplate> {
    if w.spec.volume.None? then []
    else
      var specs := w.spec.volume.value.claimTemplates;
      seq(|specs|, i requires 0 <= i < |specs| => ClaimTemplate(ClaimName(w, i), w.ns, specs[i]))
  }

  function ClaimMounts(names: seq<string>): seq<Mount> {
    seq(|names|, i requires 0 <= i < |names| =>
      Mount("persistent-vol-" + names[i], "/volumes/persistent-volume-" + names[i], "", false))
  }

  function SecretMounts(names: seq<string>): seq<Mount> {
    seq(|names|, i requires 0 <= i < |names| => Mount("secret-vol-" + names[i], "/secrets/" + names[i], "", true))
  }

  function ConfigMapMounts(names: seq<string>): seq<Mount> {
    seq(|names|, i requires 0 <= i < |names| => Mount("configmap-vol-" + names[i], "/configmaps/" + names[i], "", true))
  }

  function TemplateMounts(w: WebServer, count: nat): seq<Mount> {
    seq(count, i requires 0 <= i < count => Mount(ClaimName(w, i), "/app-data/" + ClaimName(w, i), "", false))
  }

  function LogMounts(w: WebServer): seq<Mount> {
    if KeepsLogs(w) then
      [Mount(LOGGING_MAP, "/opt/operator_conf/logging.properties", "logging.properties", false),
       Mount(LogClaimName(w), "/opt/tomcat_logs", "", false)]
    else []
  }

  function ScriptMounts(w: WebServer): seq<Mount> {
    if EditsServerXml(w) then [Mount(ScriptsMapName(w), "/env/my-files", "", false)] else []
  }

  function StartMounts(w: WebServer): seq<Mount> {
    if w.spec.isNotJWS then [Mount(StartMapName(w), "/opt/start", "", false)] else []
  }

  predicate HasLiveness(w: WebServer) {
    Health(w).Some? && Health(w).value.livenessScript != ""
  }

  predicate HasReadiness(w: WebServer) {
    Health(w).Some? && Health(w).value.readinessScript != ""
  }

  function LivenessMounts(w: WebServer): seq<Mount> {
    if HasLiveness(w) then
      [Mount(LivenessMapName(w), "/opt/probe/livenessProbeScript.sh", "livenessProbeScript.sh", false)]
    else []
  }

  function ReadinessMounts(w: WebServer): seq<Mount> {
    if HasReadiness(w) then
      [Mount(ReadinessMapName(w), "/opt/probe/readinessProbeScript.sh", "readinessProbeScript.sh", false)]
    else []
  }

  function UserMounts(w: WebServer): seq<Mount> {
    if w.spec.volume.None? then []
    else
      var v := w.spec.volume.value;
      ClaimMounts(v.claims) + SecretMounts(v.secrets) + ConfigMapMounts(v.configMaps)
      + TemplateMounts(w, |v.claimTemplates|)
  }

  function TLSMounts(w: WebServer): seq<Mount> {
    if w.spec.tls.secret != "" then [Mount("webserver-tls" + w.name, "/tls", "", true)] else []
  }

  function VolumeMounts(w: WebServer): seq<Mount> {
    LogMounts(w) + ScriptMounts(w) + StartMounts(w) + LivenessMounts(w) + ReadinessMounts(w)
    + UserMounts(w) + TLSMounts(w)
  }

  function ClaimVolumes(names: seq<string>): seq<Volume> {
    seq(|names|, i requires 0 <= i < |names| => Volume("persistent-vol-" + names[i], FromClaim(names[i]), false))
  }

  function SecretVolumes(names: seq<string>): seq<Volume> {
    seq(|names|, i requires 0 <= i < |names| => Volume("secret-vol-" + names[i], FromSecret(names[i]), false))
  }

  function ConfigMapVolumes(names: seq<string>): seq<Volume> {
    seq(|names|, i requires 0 <= i < |names| => Volume("configmap-vol-" + names[i], FromConfigMap(names[i]), false))
  }

  function LogVolumes(w: WebServer): seq<Volume> {
    if KeepsLogs(w) then
      [Volume(LOGGING_MAP, FromConfigMap(LOGGING_MAP), false),
       Volume(LogClaimName(w), FromClaim(LogClaimName(w)), false)]
    else []
  }

  function ScriptVolumes(w: WebServer): seq<Volume> {
    if EditsServerXml(w) then [Volume(ScriptsMapName(w), FromConfigMap(ScriptsMapName(w)), false)] else []
  }

  function StartVolumes(w: WebServer): seq<Volume> {
    if w.spec.isNotJWS then [Volume(StartMapName(w), FromConfigMap(StartMapName(w)), true)] else []
  }

  function ReadinessVolumes(w: WebServer): seq<Volume> {
    if HasReadiness(w) then [Volume(ReadinessMapName(w), FromConfigMap(ReadinessMapName(w)), true)] else []
  }

  function LivenessVolumes(w: WebServer): seq<Volume> {
    if HasLiveness(w) then [Volume(LivenessMapName(w), FromConfigMap(LivenessMapName(w)), true)] else []
  }

  function UserVolumes(w: WebServer): seq<Volume> {
    if w.spec.volume.None? then []
    else
      var v := w.spec.volume.value;
      ClaimVolumes(v.claims) + SecretVolumes(v.secrets) + ConfigMapVolumes(v.configMaps)
  }

  function TLSVolumes(w: WebServer): seq<Volume> {
    if w.spec.tls.secret != "" then [Volume("webserver-tls" + w.name, FromSecret(w.spec.tls.secret), false)] else []
  }

  function OperatorVolumes(w: WebServer): seq<Volume> {
    LogVolumes(w) + ScriptVolumes(w) + StartVolumes(w) + ReadinessVolumes(w) + LivenessVolumes(w)
  }

  function Volumes(w: WebServer): seq<Volume> {
    OperatorVolumes(w) + UserVolumes(w) + TLSVolumes(w)
  }

  /* ---------- pods and workloads ---------- */

  function PullSecrets(w: WebServer): seq<string> {
    if w.spec.webImage.Some? && w.spec.webImage.value.pullSecret != "" then [w.spec.webImage.value.pullSecret] else []
  }

  ghost function Template(p: Platform, w: WebServer, image: string): PodTemplate {
    TemplateOf(TemplateLabels(p, w), w.spec.applicationName, image, HasReadiness(w), HasLiveness(w),
        w.spec.podResources,
               w.spec.securityContext, EnvVars(p, w), VolumeMounts(w), Volumes(w), PullSecrets(w), w.spec.isNotJWS)
  }

  function TemplateOf(labels: Labels, name: string, image: string, hasReadiness: bool, hasLiveness: bool,
                      resources: string, securityContext: Option<string>, env: seq<EnvVar>, mounts: seq<Mount>,
                      volumes: seq<Volume>, secrets: seq<string>, isNotJWS: bool): PodTemplate {
    PodTemplate(
      labels, name, image,
      if hasReadiness then ScriptProbe("/opt/probe/readinessProbeScript.sh") else HealthPath,
      if hasLiveness then ScriptProbe("/opt/probe/livenessProbeScript.sh") else HealthPath,
      resources, securityContext, env, mounts, volumes, secrets,
      if isNotJWS then Some("/opt/start/start.sh") else None)
  }

  const TRIGGERS: string := "image.openshift.io/triggers"

  function TriggerAnnotations(name: string): Labels {
    map[TRIGGERS :=
          "[{\"from\": {\"kind\":\"ImageStreamTag\",\"name\":\"" + name + ":latest\"},"
          + "\"fieldPath\":\"spec.template.spec.containers[?(@.name==\\\"" + name
          + "\\\")].image\"}]"]
  }

  /** What a pass wants of the workload of a WebServer. */
  datatype WorkloadGoal = WorkloadGoal(
    hash: string,                 // the current digest
    created: Object,              // what to create if there is none
    meta: Meta,                   // what to overwrite the metadata and
    spec: WorkloadSpec,           //   the specification with if the digest is stale
    fixedImage: Option<string>,   // the image a drifted one is brought back to
    replicas: int32,
    fromImage: bool)              // deployed from an image, not from an image stream

  ghost function WorkloadMeta(p: Platform, w: WebServer): Meta {
    Owned(w, w.spec.applicationName).(labels := TemplateLabels(p, w))
  }

  function TriggersOf(w: WebServer): Labels {
    if w.spec.webImage.None? then TriggerAnnotations(w.spec.applicationName) else map[]
  }

  ghost function SpecOfWorkload(p: Platform, w: WebServer, image: string): WorkloadSpec {
    WorkloadSpec(
      w.spec.replicas,
      SelectorLabels(w),
      Template(p, w, image),
      if WantedKind(w) == WorkloadKind.Deployment then [] else ClaimTemplates(w),
      false)
  }

  predicate DeletesClaims(w: WebServer) {
    WantedKind(w) == WorkloadKind.StatefulSet && w.spec.volume.Some? && w.spec.volume.value.deleteCreatedClaims
  }

  function FixedImage(w: WebServer): Option<string> {
    if w.spec.webImage.Some? && w.spec.webImage.value.webApp.None? && w.spec.webImage.value.applicationImage != "" then
      Some(w.spec.webImage.value.applicationImage)
    else None
  }

  /** `generateDeployment`, `generateStatefulSet` and their updating counterparts, which agree but for two things:
      only creation sets the retention policy of a StatefulSet, and only the update gives a StatefulSet the image
      trigger of an image stream. The image is that of the specification or of the image stream. */
  ghost function GoalFor(p: Platform, w: WebServer, image: string): WorkloadGoal {
    Goal(WantedKind(w), WebServerHash(p.hashing, w), WorkloadMeta(p, w), TriggersOf(w), SpecOfWorkload(p, w, image),
         DeletesClaims(w), FixedImage(w), w.spec.webImage.Some?)
  }

  function Goal(kind: WorkloadKind, hash: string, meta: Meta, triggers: Labels, spec: WorkloadSpec,
                deleteClaims: bool, fixedImage: Option<string>, fromImage: bool): WorkloadGoal {
    WorkloadGoal(
      hash,
      Object(if kind == WorkloadKind.Deployment then meta.(annotations := triggers) else meta,
             Workload(kind, spec.(deleteClaims := deleteClaims), 0)),
      meta.(annotations := triggers), spec, fixedImage, spec.replicas, fromImage)
  }

  /* ---------- services, routes and the rest ---------- */

  function RoutingService(w: WebServer): Object {
    Object(
      Owned(w, w.spec.applicationName),
      Service(if UsesTLS(w) then 8443 else 8080, WantedKind(w) == WorkloadKind.StatefulSet, false,
              map["application" := w.spec.applicationName, "WebServer" := w.name], []))
  }

  function DNSService(w: WebServer): Object {
    Object(Owned(w, DNSServiceName(w)),
           Service(8080, true, false, map["application" := w.spec.applicationName], []))
  }

  function LoadBalancer(w: WebServer): Object {
    Object(
      Owned(w, w.spec.applicationName + "-lb")
        .(annotations := map["description" := "LoadBalancer for application's http service."]),
      Service(80, false, true, map["deployment" := w.spec.applicationName, "WebServer" := w.name], []))
  }

  function PlainRoute(w: WebServer): Object {
    var host := w.spec.tls.routeHostname;
    Object(
      Owned(w, w.spec.applicationName).(annotations := map["description" := "Route for application's http service."]),
      Route(host, if host == "" then w.spec.applicationName + "." + w.ns else "", false, []))
  }

  function SecureRoute(w: WebServer): Object {
    var host := w.spec.tls.routeHostname;
    Object(
      Owned(w, w.spec.applicationName).(annotations := map["description" := "Route for application's https service."]),
      Route(if |host| <= 3 then "" else host[4..], "", true, []))
  }

  function Monitor(w: WebServer): Object {
    Object(Owned(w, w.name).(labels := LabelsForWeb(w)), ServiceMonitor(LabelsForWeb(w)))
  }

  function PrometheusService(w: WebServer): Object {
    Object(Owned(w, w.name + "-admin").(labels := LabelsForWeb(w)),
           Service(9404, true, false, LabelsForWeb(w), []))
  }

  function RoleBindingName(w: WebServer): string { "view-kubeping-" + w.name }

  function KubePingRoleBinding(w: WebServer): Object {
    Object(Owned(w, RoleBindingName(w)),
           RoleBinding("ClusterRole", "view", [Subject("ServiceAccount", "default", w.ns)]))
  }

  function ServerXml(w: WebServer): Content {
    ServerXmlScript(
      if !w.spec.useSessionClustering then None
      else if GetUseKUBEPing(w) then Some(KubernetesMembershipProvider) else Some(DNSMembershipProvider),
      UsesTLS(w), w.spec.tls.certificateVerification, w.spec.logs.accessLogs)
  }

  function ScriptsMap(w: WebServer): Object {
    Object(Owned(w, ScriptsMapName(w)), ConfigMap(map["test.sh" := ServerXml(w)]))
  }

  function StartMap(w: WebServer): Object {
    Object(Owned(w, StartMapName(w)), ConfigMap(map["start.sh" := StartScript(KeepsLogs(w))]))
  }

  function LivenessMap(w: WebServer): Object
    requires Health(w).Some?
  {
    Object(Owned(w, LivenessMapName(w)),
           ConfigMap(map["livenessProbeScript.sh" := Text("#!/bin/sh\n" + Health(w).value.livenessScript)]))
  }

  function ReadinessMap(w: WebServer): Object
    requires Health(w).Some?
  {
    Object(Owned(w, ReadinessMapName(w)),
           ConfigMap(map["readinessProbeScript.sh" := Text("#!/bin/sh\n" + Health(w).value.readinessScript)]))
  }

  function LoggingMap(w: WebServer): Object {
    Object(Owned(w, LOGGING_MAP), ConfigMap(map["logging.properties" := LoggingProperties]))
  }

  function LogClaim(w: WebServer): Object {
    Object(Owned(w, LogClaimName(w)).(owner := if w.spec.logs.deleteLogClaims then Some(w.uid) else None),
           Claim(w.spec.logs.volumeName, w.spec.logs.storageClass))
  }

  /* ---------- builds ---------- */

  /** A webapp is built from sources by a pod. */
  predicate BuildsWebApp(w: WebServer) {
    && w.spec.webImage.Some? && w.spec.webImage.value.webApp.Some?
    && var app := w.spec.webImage.value.webApp.value;
       app.repositoryURL != "" && app.builder.Some? && app.builder.value.image != ""
  }

  function BuildScript(w: WebServer): string
    requires BuildsWebApp(w)
  {
    w.spec.webImage.value.webApp.value.builder.value.buildScript
  }

  function BuildMap(w: WebServer): Object
    requires BuildsWebApp(w)
  {
    Object(Owned(w, BuildMapName(w)), ConfigMap(map["build.sh" := Text(BuildScript(w))]))
  }

  function BuildMounts(w: WebServer): seq<Mount>
    requires BuildsWebApp(w)
  {
    [Mount("app-volume", "/auth", "", true)]
    + if BuildScript(w) != "" then [Mount(BuildMapName(w), "/build/my-files", "", false)] else []
  }

  function BuildVolumes(w: WebServer): seq<Volume>
    requires BuildsWebApp(w)
  {
    [Volume("app-volume", FromSecret(w.spec.webImage.value.webApp.value.pushSecret), false)]
    + if BuildScript(w) != "" then [Volume(BuildMapName(w), FromConfigMap(BuildMapName(w)), false)] else []
  }

  ghost function BuildPod(p: Platform, w: WebServer): Object
    requires BuildsWebApp(w)
  {
    Object(
      Owned(w, w.spec.applicationName + "-build").(labels := map[HASH := WebServerHash(p.hashing, w)]),
      Pod(w.spec.webImage.value.webApp.value.builder.value.image, BuildMounts(w), BuildVolumes(w), Unknown, ""))
  }

  function StreamObject(w: WebServer): Object {
    Object(Owned(w, w.spec.applicationName), ImageStream(""))
  }

  /** The image stream is built from sources by a BuildConfig. */
  predicate BuildsStream(w: WebServer) {
    w.spec.webImageStream.Some? && w.spec.webImageStream.value.sources.Some?
  }

  function SourceBuild(p: Platform, w: WebServer): Object
    requires BuildsStream(w)
  {
    Object(
      Owned(w, w.spec.applicationName).(labels := map[SOURCE_HASH := WebImageStreamHash(p.hashing, w)]),
      BuildConfig(w.spec.webImageStream.value.sources.value,
                  w.spec.webImageStream.value.streamName, w.spec.webImageStream.value.streamNamespace))
  }
}
