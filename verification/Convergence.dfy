/** What the state holds in which passes have become quiet, in the fields of the resource. */
module Convergence {
  import opened WebServerApi
  import opened Digest
  import opened ClusterObjects
  import opened Templates
  import opened Steps
  import opened Workloads
  import opened Builds
  import opened Cleanup
  import opened Controller
  import opened Files
  import opened Progress
  import opened History

  function WantedRef(w: WebServer): Ref {
    Ref(if w.spec.volume.Some? && w.spec.volume.value.claimTemplates != [] then StatefulSetKind else DeploymentKind,
        w.ns, w.spec.applicationName)
  }

  /** The one workload of the resource: current, of the replicas wanted, and of the image where it is given outright. */
  ghost predicate Serves(p: Platform, w: WebServer, objects: Store) {
    && WantedRef(w) in objects && objects[WantedRef(w)].body.Workload?
    && var o := objects[WantedRef(w)];
       && LabelOf(o.meta.labels, "webserver-hash") == WebServerHash(p.hashing, w)
       && o.body.spec.replicas == w.spec.replicas
       && (w.spec.webImage.Some? ==>
             var image := w.spec.webImage.value;
             image.webApp.None? && image.applicationImage != "" ==>
               o.body.spec.template.image == image.applicationImage)
  }

  ghost predicate Alone(w: WebServer, objects: Store) {
    forall r :: r in objects && r.kind in {DeploymentKind, StatefulSetKind} && r.ns == w.ns ==>
                  objects[r].meta.owner == Some(w.uid) ==> r == WantedRef(w)
  }

  /** Services, monitors, log claim and exposure. */
  ghost predicate Reachable(p: Platform, w: WebServer, objects: Store) {
    && Ref(ServiceKind, w.ns, w.spec.applicationName) in objects
    && (p.hasServiceMonitor ==> Ref(ServiceMonitorKind, w.ns, w.name) in objects
                                && Ref(ServiceKind, w.ns, w.name + "-admin") in objects)
    && (w.spec.useSessionClustering && Annotation(w, "UseKUBEPing") == "false" ==>
          Ref(ServiceKind, w.ns, "webserver-" + w.name) in objects)
    && (KeepsLogs(w) ==> Ref(ClaimKind, w.ns, "volume-pvc-" + w.name) in objects)
    && (p.isOpenShift && w.spec.tls.routeHostname != "NONE" ==>
          Ref(RouteKind, w.ns, w.spec.applicationName) in objects)
    && (!p.isOpenShift ==> Ref(ServiceKind, w.ns, w.spec.applicationName + "-lb") in objects)
  }

  /** The build pod is that of the specification. */
  ghost predicate AppBuilt(p: Platform, w: WebServer, objects: Store) {
    w.spec.webImage.Some? && w.spec.webImage.value.webApp.Some? ==>
      var app, pod := w.spec.webImage.value.webApp.value, Ref(PodKind, w.ns, w.spec.applicationName + "-build");
      app.repositoryURL != "" && app.builder.Some? && app.builder.value.image != "" ==>
        pod in objects && LabelOf(objects[pod].meta.labels, "webserver-hash") == WebServerHash(p.hashing, w)
  }

  /** The BuildConfig is that of the specification, and gone without sources. */
  ghost predicate StreamBuilt(p: Platform, w: WebServer, objects: Store) {
    w.spec.webImage.None? && w.spec.webImageStream.Some? ==>
      var config := Ref(BuildConfigKind, w.ns, w.spec.applicationName);
      if w.spec.webImageStream.value.sources.None? then config !in objects
      else
        && config in objects
        && LabelOf(objects[config].meta.labels, "web-image-source-hash") == WebImageStreamHash(p.hashing, w)
        && Ref(ImageStreamKind, w.ns, w.spec.applicationName) in objects
  }

  lemma InOrderServes(p: Platform, w: WebServer, objects: Store)
    requires TargetPart(AgendaOf(p, w), objects) == 0
    ensures Serves(p, w, objects)
  {
    assert TargetRef(w) == WantedRef(w);
  }

  lemma NoneLeftIsAlone(p: Platform, w: WebServer, objects: Store)
    requires NoneLeft(AgendaOf(p, w), objects)
    ensures Alone(w, objects)
  {
    assert TargetRef(w) == WantedRef(w);
    forall r | r in objects && r.kind in {DeploymentKind, StatefulSetKind} && r.ns == w.ns
               && objects[r].meta.owner == Some(w.uid) ensures r == WantedRef(w)
    {
      assert r !in OthersOf(objects, w.ns, w.uid, TargetRef(w));
    }
  }

  lemma FirstMet(objects: Store, steps: seq<Step>, obj: Object)
    requires AllMet(objects, steps) && (Ensure(obj) in steps || Lenient(obj) in steps)
    ensures obj.Id() in objects
  {
    var i :| 0 <= i < |steps| && steps[i] in {Ensure(obj), Lenient(obj)};
    assert Met(objects, steps[i]);
  }

  lemma FrontIsThere(p: Platform, w: WebServer, objects: Store)
    requires AllMet(objects, MonitorSteps(p, w)) && AllMet(objects, [Ensure(RoutingService(w))])
    requires AllMet(objects, DNSSteps(w))
    ensures Ref(ServiceKind, w.ns, w.spec.applicationName) in objects
    ensures p.hasServiceMonitor ==> Ref(ServiceMonitorKind, w.ns, w.name) in objects
                                    && Ref(ServiceKind, w.ns, w.name + "-admin") in objects
    ensures w.spec.useSessionClustering && Annotation(w, "UseKUBEPing") == "false" ==>
              Ref(ServiceKind, w.ns, "webserver-" + w.name) in objects
  {
    FirstMet(objects, [Ensure(RoutingService(w))], RoutingService(w));
    if p.hasServiceMonitor {
      FirstMet(objects, MonitorSteps(p, w), Monitor(w));
      FirstMet(objects, MonitorSteps(p, w), PrometheusService(w));
    }
    if w.spec.useSessionClustering && Annotation(w, "UseKUBEPing") == "false" {
      FirstMet(objects, DNSSteps(w), DNSService(w));
    }
  }

  lemma ClaimIsThere(w: WebServer, objects: Store)
    requires AllMet(objects, SupportSteps(w))
    ensures KeepsLogs(w) ==> Ref(ClaimKind, w.ns, "volume-pvc-" + w.name) in objects
  {
    if KeepsLogs(w) {
      assert LogSteps(w)[1] in SupportSteps(w);
      FirstMet(objects, SupportSteps(w), LogClaim(w));
    }
  }

  lemma ExposureIsThere(p: Platform, w: WebServer, objects: Store)
    requires AllMet(objects, ExposureSteps(p, w))
    ensures p.isOpenShift && w.spec.tls.routeHostname != "NONE" ==>
              Ref(RouteKind, w.ns, w.spec.applicationName) in objects
    ensures !p.isOpenShift ==> Ref(ServiceKind, w.ns, w.spec.applicationName + "-lb") in objects
  {
    if Exposure(p, w).Some? { FirstMet(objects, ExposureSteps(p, w), Exposure(p, w).value); }
  }

  lemma BuildPodCarries(p: Platform, w: WebServer)
    requires BuildsWebApp(w)
    ensures BuildPod(p, w).Id() == Ref(PodKind, w.ns, w.spec.applicationName + "-build")
    ensures DigestOf(BuildPod(p, w)) == WebServerHash(p.hashing, w)
  {
  }

  lemma PodIsCurrent(p: Platform, w: WebServer, objects: Store)
    requires BuildsWebApp(w) ==> PodWork(objects, BuildPod(p, w)) == 0
    ensures AppBuilt(p, w, objects)
  {
    if BuildsWebApp(w) { BuildPodCarries(p, w); }
  }

  lemma SourceBuildCarries(p: Platform, w: WebServer)
    requires BuildsStream(w)
    ensures SourceBuild(p, w).Id() == Ref(BuildConfigKind, w.ns, w.spec.applicationName)
    ensures LabelOf(SourceBuild(p, w).meta.labels, "web-image-source-hash") == WebImageStreamHash(p.hashing, w)
    ensures StreamObject(w).Id() == Ref(ImageStreamKind, w.ns, w.spec.applicationName)
  {
  }

  lemma ConfigIsCurrent(p: Platform, w: WebServer, objects: Store)
    requires w.spec.webImage.None? && w.spec.webImageStream.Some?
    requires ConfigWork(objects, BuildRef(w), if BuildsStream(w) then Some(SourceBuild(p, w)) else None) == 0
    requires BuildsStream(w) ==> StreamObject(w).Id() in objects
    ensures StreamBuilt(p, w, objects)
  {
    if BuildsStream(w) { SourceBuildCarries(p, w); }
  }

  lemma StreamIsThere(p: Platform, w: WebServer, objects: Store)
    requires Usable(p, w) && BuildsStream(w) && PlanStepsMet(objects, PlanOf(p, w))
    ensures StreamObject(w).Id() in objects
  {
    assert PlanOf(p, w) == StreamPlan(p, w);
  }

  lemma RolloutIsBuilt(p: Platform, w: WebServer, objects: Store)
    requires Usable(p, w) && RolloutDone(PlanOf(p, w), AgendaOf(p, w), objects)
    ensures AppBuilt(p, w, objects) && StreamBuilt(p, w, objects)
  {
    PodIsCurrent(p, w, objects);
    if BuildsStream(w) { StreamIsThere(p, w, objects); }
    if w.spec.webImage.None? { ConfigIsCurrent(p, w, objects); }
  }

  /** The state that reconciliation settles in: where failure-free passes change nothing any more and get through to
      their report, and the image stream to deploy from is not missing, the store holds what the resource specifies,
      with the workload wanted as the only one it owns. */
  lemma QuietStateIsAsSpecified(p: Platform, sys: System)
    requires Quiet(p, sys) && !StreamMissing(SetDefaults(sys.server), sys.objects)
    ensures var w, t := SetDefaults(sys.server), sys.objects;
            && Serves(p, w, t) && Alone(w, t) && Reachable(p, w, t) && AppBuilt(p, w, t) && StreamBuilt(p, w, t)
            && ProbesHold(t, w) && StartFilesHold(t, w) && EnvFileHolds(t, w)
  {
    var w := SetDefaults(sys.server);
    QuietIsQuiescent(p, sys);
    QuietMeansInOrder(p, sys);
    InOrderServes(p, w, sys.objects);
    NoneLeftIsAlone(p, w, sys.objects);
    FrontIsThere(p, w, sys.objects);
    ClaimIsThere(w, sys.objects);
    ExposureIsThere(p, w, sys.objects);
    RolloutIsBuilt(p, w, sys.objects);
    ProbesAreThere(sys.objects, w);
    StartFilesAreThere(sys.objects, w);
    EnvFileIsThere(sys.objects, w);
  }
}
