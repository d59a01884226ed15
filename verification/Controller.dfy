/** `Reconcile`: one pass over the resource, in the order of the source. */
module Controller {
  import opened WebServerApi
  import opened Sorting
  import opened ClusterObjects
  import opened Templates
  import opened ClientApi
  import opened Steps
  import opened KubePing
  import opened Workloads
  import opened Builds
  import opened Cleanup
  import opened PodReport

  /* ---------- what a pass wants ---------- */

  /** Exactly one deployment method is given, and it exists on the platform. */
  predicate Usable(p: Platform, w: WebServer) {
    w.spec.webImage.Some? != w.spec.webImageStream.Some? && (w.spec.webImageStream.Some? ==> p.isOpenShift)
  }

  function MonitorSteps(p: Platform, w: WebServer): seq<Step> {
    if p.hasServiceMonitor then [Lenient(Monitor(w)), Lenient(PrometheusService(w))] else []
  }

  function ScriptSteps(w: WebServer): seq<Step> {
    if EditsServerXml(w) then [Apply(ScriptsMap(w))] else []
  }

  function LivenessSteps(w: WebServer): seq<Step> {
    if HasLiveness(w) then [Apply(LivenessMap(w))] else []
  }

  function ReadinessSteps(w: WebServer): seq<Step> {
    if HasReadiness(w) then [Apply(ReadinessMap(w))] else []
  }

  function StartSteps(w: WebServer): seq<Step> {
    if w.spec.isNotJWS then [Apply(StartMap(w))] else []
  }

  function LogSteps(w: WebServer): seq<Step> {
    if KeepsLogs(w) then [Apply(LoggingMap(w)), Ensure(LogClaim(w))] else []
  }

  /** The ConfigMaps and the claim the pods refer to. */
  function SupportSteps(w: WebServer): seq<Step> {
    ScriptSteps(w) + LivenessSteps(w) + ReadinessSteps(w) + StartSteps(w) + LogSteps(w)
  }

  /** A route on OpenShift, unless none is wanted; a load balancer elsewhere. */
  function Exposure(p: Platform, w: WebServer): Option<Object> {
    if !p.isOpenShift then Some(LoadBalancer(w))
    else if UsesTLS(w) then Some(SecureRoute(w))
    else if w.spec.tls.routeHostname != "NONE" then Some(PlainRoute(w))
    else None
  }

  /* ---------- the parts of a pass ---------- */

  /** Up to the clustering decision, which may change the resource in hand. */
  ghost function Front(p: Platform, s: Api, w: WebServer): Decision {
    DecideAfter(s, w, MonitorSteps(p, w), Usable(p, w), RoutingService(w))
  }

  ghost function DecideAfter(s: Api, w: WebServer, monitors: seq<Step>, usable: bool, routing: Object): Decision {
    var monitored := RunSteps(s, monitors);
    if monitored.flow.Return? then Decision(monitored.api, w, monitored.flow)
    else if !usable then Decision(monitored.api, w, Return(Empty, None))
    else
      var routed := RunStep(monitored.api, Ensure(routing));
      if routed.flow.Return? then Decision(routed.api, w, routed.flow) else Decide(routed.api, w)
  }

  datatype Exposed = Exposed(api: Api, flow: Flow, hosts: Option<seq<string>>)

  function Addresses(o: Object): seq<string> {
    if o.body.Service? then o.body.addresses else if o.body.Route? then o.body.admitted else []
  }

  /** A load balancer without an address is waited for. */
  function ExposeObject(s: Api, obj: Object, wait: bool): Exposed {
    var e := EnsureObject(s, obj);
    if e.flow.Return? then Exposed(e.api, e.flow, None)
    else if wait && Addresses(e.found) == [] then Exposed(e.api, Return(Requeue, None), None)
    else Exposed(e.api, Next, Some(SortBy(Addresses(e.found), Itself)))
  }

  function Expose(p: Platform, s: Api, w: WebServer): Exposed {
    if Exposure(p, w).None? then Exposed(s, Next, None) else ExposeObject(s, Exposure(p, w).value, !p.isOpenShift)
  }

  ghost function Back(p: Platform, s: Api, w: WebServer): Exposed {
    var supported := RunSteps(s, SupportSteps(w));
    if supported.flow.Return? then Exposed(supported.api, supported.flow, None) else Expose(p, supported.api, w)
  }

  function BuildRef(w: WebServer): Ref {
    Ref(BuildConfigKind, w.ns, w.spec.applicationName)
  }

  /** The stream the image is taken from: the application's own when it is built from sources. */
  function StreamRef(w: WebServer): Ref
    requires w.spec.webImageStream.Some?
  {
    if BuildsStream(w) then Ref(ImageStreamKind, w.ns, w.spec.applicationName)
    else Ref(ImageStreamKind, w.spec.webImageStream.value.streamNamespace, w.spec.webImageStream.value.streamName)
  }

  datatype StreamBuild = StreamBuild(stream: Object, build: Object)

  /** What a rollout is made of: perhaps a build, and the goal of the workload, which for a stream depends on the
      repository found. */
  datatype Plan =
    | FromImage(build: Option<BuildGoal>, goal: WorkloadGoal)
    | FromStream(sources: Option<StreamBuild>, config: Ref, stream: Ref, goals: string -> WorkloadGoal)
  {
    ghost predicate Valid() {
      match this
      case FromImage(build, goal) => goal.created.body.Workload? && (build.Some? ==> build.value.pod.body.Pod?)
      case FromStream(_, _, stream, goals) =>
        stream.kind == ImageStreamKind && forall image :: goals(image).created.body.Workload?
    }
  }

  ghost function BuildOf(p: Platform, w: WebServer): (build: Option<BuildGoal>)
    ensures build.Some? ==> build.value.pod.body.Pod?
  {
    if BuildsWebApp(w) then Some(BuildGoalFor(p, w)) else None
  }

  ghost function ImagePlan(p: Platform, w: WebServer): (plan: Plan)
    requires w.spec.webImage.Some?
    ensures plan.Valid()
  {
    FromImage(BuildOf(p, w), GoalFor(p, w, DeployedImage(w)))
  }

  function SourcesOf(p: Platform, w: WebServer): Option<StreamBuild> {
    if BuildsStream(w) then Some(StreamBuild(StreamObject(w), SourceBuild(p, w))) else None
  }

  ghost function StreamPlan(p: Platform, w: WebServer): (plan: Plan)
    requires w.spec.webImageStream.Some?
    ensures plan.Valid()
  {
    FromStream(SourcesOf(p, w), BuildRef(w), StreamRef(w), (image: string) => GoalFor(p, w, image))
  }

  ghost function PlanOf(p: Platform, w: WebServer): (plan: Plan)
    requires Usable(p, w)
    ensures plan.Valid()
  {
    if w.spec.webImage.Some? then ImagePlan(p, w) else StreamPlan(p, w)
  }

  function PodGate(s: Api, build: Option<BuildGoal>): Gate
    requires build.Some? ==> build.value.pod.body.Pod?
  {
    if build.Some? then GateBuild(s, build.value) else Gate(s, Next, true)
  }

  /** With sources, the build comes first; without, a BuildConfig left from earlier goes. */
  function StreamGate(s: Api, sources: Option<StreamBuild>, config: Ref): Gate {
    if sources.Some? then PrepareBuild(s, sources.value.stream, sources.value.build)
    else Gate(DropBuild(s, config), Next, true)
  }

  function ContinueFrom(s: Api, stream: Ref, goals: string -> WorkloadGoal): Out
    requires stream.kind == ImageStreamKind && forall image :: goals(image).created.body.Workload?
  {
    var (t, repository) := ReadStream(s, stream);
    if repository.None? then Out(t, Next) else ContinueWith(t, goals(repository.value))
  }

  /** `webImageConfiguration` and `webImageSourceConfiguration` */
  function RunPlan(s: Api, plan: Plan): Out
    requires plan.Valid()
  {
    match plan
    case FromImage(build, goal) =>
      var gate := PodGate(s, build);
      if gate.open then ContinueWith(gate.api, goal) else Out(gate.api, gate.flow)
    case FromStream(sources, config, stream, goals) =>
      var gate := StreamGate(s, sources, config);
      if gate.open then ContinueFrom(gate.api, stream, goals) else Out(gate.api, gate.flow)
  }

  /** The rollout, and the cleanup if the rollout lets the pass go on. */
  function DeployPlan(p: Platform, s: Api, w: WebServer, plan: Plan): Out
    requires plan.Valid()
  {
    CleanAfter(p, RunPlan(s, plan), w)
  }

  function CleanAfter(p: Platform, rolled: Out, w: WebServer): Out {
    if rolled.flow.Return? then rolled else CheckOwned(p, rolled.api, w)
  }

  ghost function Deploy(p: Platform, s: Api, w: WebServer): Out
    requires Usable(p, w)
  {
    DeployPlan(p, s, w, PlanOf(p, w))
  }

  datatype Prepared = Prepared(api: Api, w: WebServer, flow: Flow, hosts: Option<seq<string>>)

  /** Everything of a pass before the status report. */
  ghost function Prepare(p: Platform, s: Api, w: WebServer): Prepared {
    var front := Front(p, s, w);
    if front.flow.Return? then Prepared(front.api, front.w, front.flow, None)
    else
      assert Usable(p, front.w);
      var back := Back(p, front.api, front.w);
      if back.flow.Return? then Prepared(back.api, front.w, back.flow, None)
      else
        var deployed := Deploy(p, back.api, front.w);
        Prepared(deployed.api, front.w, deployed.flow, back.hosts)
  }

  /** The status is reported unless the pass has ended. */
  ghost function Conclude(done: Prepared, status: Status): Reported {
    if done.flow.Return? then Reported(done.api, status, done.flow) else Report(done.api, done.w, status, done.hosts)
  }

  ghost function ReconcileSpec(p: Platform, s: Api, status: Status): Reported {
    var (t, err) := GetServerCall(s);
    if err.Some? then
      Reported(t, status, Return(Empty, if err.value == NotFound then None else Some(ApiError(err.value))))
    else if DefaultsCrash(s.server.value) then Reported(t, status, Return(Empty, Some(Crash)))
    else Conclude(Prepare(p, t, SetDefaults(s.server.value)), status)
  }

  /* ---------- the methods ---------- */

  method EnsureMonitors(p: Platform, r: Client, w: WebServer) returns (flow: Flow)
    modifies r`objects, r`script, r`log
    ensures Out(r.State(), flow) == RunSteps(old(r.State()), MonitorSteps(p, w))
  {
    flow := Next;
    if p.hasServiceMonitor {
      ghost var steps := MonitorSteps(p, w);
      assert steps[1..] == [Lenient(PrometheusService(w))];
      RunOneStep(EnsureLeniently(r.State(), Monitor(w)).api, Lenient(PrometheusService(w)));
      flow := GetOrCreateNew(r, Monitor(w));
      if flow.Return? { return; }
      flow := GetOrCreateNew(r, PrometheusService(w));
    }
  }

  method EnsureConfigMaps(r: Client, w: WebServer) returns (flow: Flow)
    modifies r`objects, r`script, r`log
    ensures Out(r.State(), flow) == RunSteps(old(r.State()), SupportSteps(w))
  {
    ghost var s := r.State();
    ghost var probes := ScriptSteps(w) + LivenessSteps(w) + ReadinessSteps(w);
    RunStepsAppend(s, probes, StartSteps(w));
    RunStepsAppend(s, probes + StartSteps(w), LogSteps(w));
    flow := EnsureScripts(r, w);
    if flow.Return? { return; }
    flow := ApplyIf(r, w.spec.isNotJWS, StartMap(w), StartSteps(w));
    if flow.Return? { return; }
    flow := EnsureLogs(r, w);
  }

  method EnsureScripts(r: Client, w: WebServer) returns (flow: Flow)
    modifies r`objects, r`script, r`log
    ensures Out(r.State(), flow) == RunSteps(old(r.State()), ScriptSteps(w) + LivenessSteps(w) + ReadinessSteps(w))
  {
    RunStepsAppend(r.State(), ScriptSteps(w), LivenessSteps(w));
    RunStepsAppend(r.State(), ScriptSteps(w) + LivenessSteps(w), ReadinessSteps(w));
    flow := ApplyIf(r, EditsServerXml(w), ScriptsMap(w), ScriptSteps(w));
    if flow.Return? { return; }
    if Health(w).Some? {
      flow := ApplyIf(r, Health(w).value.livenessScript != "", LivenessMap(w), LivenessSteps(w));
      if flow.Return? { return; }
      flow := ApplyIf(r, Health(w).value.readinessScript != "", ReadinessMap(w), ReadinessSteps(w));
    }
  }

  method EnsureLogs(r: Client, w: WebServer) returns (flow: Flow)
    modifies r`objects, r`script, r`log
    ensures Out(r.State(), flow) == RunSteps(old(r.State()), LogSteps(w))
  {
    flow := Next;
    if w.spec.logs.catalinaLogs || w.spec.logs.accessLogs {
      RunStepsAppend(r.State(), [Apply(LoggingMap(w))], [Ensure(LogClaim(w))]);
      RunOneStep(r.State(), Apply(LoggingMap(w)));
      RunOneStep(ApplyObject(r.State(), LoggingMap(w)).api, Ensure(LogClaim(w)));
      assert [Apply(LoggingMap(w))] + [Ensure(LogClaim(w))] == LogSteps(w);
      flow := CreateConfigMap(r, LoggingMap(w));
      if flow.Return? { return; }
      var claim;
      flow, claim := CreateIfMissing(r, LogClaim(w));
    }
  }

  /** Writes the ConfigMap if it is wanted. */
  method ApplyIf(r: Client, wanted: bool, obj: Object, ghost steps: seq<Step>) returns (flow: Flow)
    requires steps == if wanted then [Apply(obj)] else []
    modifies r`objects, r`script, r`log
    ensures Out(r.State(), flow) == RunSteps(old(r.State()), steps)
  {
    flow := Next;
    if wanted {
      RunOneStep(r.State(), Apply(obj));
      flow := CreateConfigMap(r, obj);
    }
  }

  method ExposeApplication(p: Platform, r: Client, w: WebServer) returns (flow: Flow, hosts: Option<seq<string>>)
    modifies r`objects, r`script, r`log
    ensures Exposed(r.State(), flow, hosts) == Expose(p, old(r.State()), w)
  {
    flow, hosts := Next, None;
    if p.isOpenShift {
      if w.spec.tls.routeHostname != "NONE" && !UsesTLS(w) {
        var route;
        flow, route := CreateIfMissing(r, PlainRoute(w));
        if flow.Return? { return; }
        hosts := Some(SortBy(Addresses(route), Itself));
      } else if UsesTLS(w) {
        var route;
        flow, route := CreateIfMissing(r, SecureRoute(w));
        if flow.Return? { return; }
        hosts := Some(SortBy(Addresses(route), Itself));
      }
    } else {
      var balancer;
      flow, balancer := CreateIfMissing(r, LoadBalancer(w));
      if flow.Return? { return; }
      if Addresses(balancer) == [] { return Return(Requeue, None), None; }
      hosts := Some(SortBy(Addresses(balancer), Itself));
    }
  }

  method WebImageConfiguration(p: Platform, r: Client, w: WebServer) returns (flow: Flow)
    requires w.spec.webImage.Some?
    modifies r`objects, r`script, r`log
    ensures Out(r.State(), flow) == RunPlan(old(r.State()), ImagePlan(p, w))
  {
    if BuildsWebApp(w) {
      var open;
      flow, open := BuildWebApp(p, r, w);
      if !open { return; }
    }
    var image := w.spec.webImage.value.applicationImage;
    if w.spec.webImage.value.webApp.Some? { image := w.spec.webImage.value.webApp.value.warImage; }
    flow := ContinueWithWorkload(p, r, w, image);
  }

  method WebImageSourceConfiguration(p: Platform, r: Client, w: WebServer) returns (flow: Flow)
    requires w.spec.webImageStream.Some?
    modifies r`objects, r`script, r`log
    ensures Out(r.State(), flow) == RunPlan(old(r.State()), StreamPlan(p, w))
  {
    flow := Next;
    if w.spec.webImageStream.value.sources.Some? {
      var open;
      flow, open := PrepareStreamBuild(r, StreamObject(w), SourceBuild(p, w));
      if !open { return; }
    } else {
      DropBuildConfig(r, BuildRef(w));
    }
    var repository := ReadRepository(r, StreamRef(w));
    if repository.None? { return Next; }
    flow := ContinueWithWorkload(p, r, w, repository.value);
  }

  /** One pass. */
  method Reconcile(p: Platform, r: Client) returns (flow: Flow)
    modifies r
    ensures Reported(r.State(), r.status, flow) == ReconcileSpec(p, old(r.State()), old(r.status))
  {
    var err := r.GetServer();
    if err.Some? {
      if err.value == NotFound { return Return(Empty, None); }
      return Return(Empty, Some(ApiError(err.value)));
    }
    if DefaultsCrash(r.server.value) { return Return(Empty, Some(Crash)); }
    var w := SetDefaults(r.server.value);
    var hosts;
    flow, w, hosts := PrepareCalls(p, r, w);
    if flow.Return? { return; }
    flow := ReportStatus(p, r, w, hosts);
  }

  method PrepareCalls(p: Platform, r: Client, w0: WebServer)
    returns (flow: Flow, w: WebServer, hosts: Option<seq<string>>)
    modifies r`objects, r`script, r`log, r`server
    ensures Prepared(r.State(), w, flow, hosts) == Prepare(p, old(r.State()), w0)
  {
    hosts := None;
    flow, w := FrontCalls(p, r, w0);
    if flow.Return? { return; }
    assert Usable(p, w);
    flow := EnsureConfigMaps(r, w);
    if flow.Return? { return; }
    var found;
    flow, found := ExposeApplication(p, r, w);
    if flow.Return? { return; }
    hosts := found;
    if w.spec.webImage.Some? {
      flow := WebImageConfiguration(p, r, w);
    } else {
      flow := WebImageSourceConfiguration(p, r, w);
    }
    if flow.Return? { return; }
    flow := CheckOwnedObjects(p, r, w);
  }

  method FrontCalls(p: Platform, r: Client, w0: WebServer) returns (flow: Flow, w: WebServer)
    modifies r`objects, r`script, r`log, r`server
    ensures Decision(r.State(), w, flow) == Front(p, old(r.State()), w0)
    ensures flow.Next? ==> Usable(p, w)
  {
    w := w0;
    flow := EnsureMonitors(p, r, w);
    if flow.Return? { return; }
    if w.spec.webImageStream.Some? && w.spec.webImage.Some? {
      return Return(Empty, None), w;
    } else if w.spec.webImageStream.None? && w.spec.webImage.None? {
      return Return(Empty, None), w;
    } else if w.spec.webImageStream.Some? && !p.isOpenShift {
      return Return(Empty, None), w;
    }
    flow, w := RouteAndDecide(p, r, w0, RoutingService(w0));
  }

  method RouteAndDecide(p: Platform, r: Client, w0: WebServer, routing: Object) returns (flow: Flow, w: WebServer)
    modifies r`objects, r`script, r`log, r`server
    ensures var routed := RunStep(old(r.State()), Ensure(routing));
            Decision(r.State(), w, flow) ==
            if routed.flow.Return? then Decision(routed.api, w0, routed.flow) else Decide(routed.api, w0)
    ensures w.spec == w0.spec
  {
    w := w0;
    var service;
    flow, service := CreateIfMissing(r, routing);
    if flow.Return? { return; }
    if w.spec.useSessionClustering {
      w, flow := UseSessionClusteringConfig(p, r, w);
    }
  }
}
