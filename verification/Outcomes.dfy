/** What a pass writes, said in the fields of the resource. */
module Outcomes {
  import opened WebServerApi
  import opened Sorting
  import opened Digest
  import opened DigestFields
  import opened ClusterObjects
  import opened Templates
  import opened Generators
  import opened ClientApi
  import opened Steps
  import opened Workloads
  import opened Builds
  import opened Cleanup
  import opened PodReport
  import opened Controller
  import opened KubePing
  import opened Safety
  import opened Files

  /* ---------- what is wanted ---------- */

  /** What of the template the specification gives outright. */
  ghost predicate FieldsAsSpecified(p: Platform, w: WebServer, pod: PodTemplate, image: string) {
    && pod.image == image && pod.containerName == w.spec.applicationName
    && LabelOf(pod.labels, "webserver-hash") == WebServerHash(p.hashing, w)
    && pod.resources == w.spec.podResources && pod.securityContext == w.spec.securityContext
    && (pod.startScript.Some? <==> w.spec.isNotJWS)
    && pod.pullSecrets == if w.spec.webImage.Some? && w.spec.webImage.value.pullSecret != ""
                          then [w.spec.webImage.value.pullSecret] else []
  }

  /** Volumes, probes, and the environment of either decision on clustering. */
  ghost predicate FilesAsSpecified(p: Platform, w: WebServer, pod: PodTemplate) {
    && pod.env in {EnvVars(p, Annotated(w, true)), EnvVars(p, Annotated(w, false))}
    && pod.mounts == VolumeMounts(w) && pod.volumes == Volumes(w)
    && (pod.readiness == HealthPath <==> Probes(w).readinessScript == "")
    && (pod.liveness == HealthPath <==> Probes(w).livenessScript == "")
  }

  predicate HasClaims(w: WebServer) {
    w.spec.volume.Some? && w.spec.volume.value.claimTemplates != []
  }

  ghost predicate SpecAsSpecified(p: Platform, w: WebServer, spec: WorkloadSpec, image: string) {
    && spec.replicas == w.spec.replicas
    && spec.selector == map["WebServer" := w.name, "application" := w.spec.applicationName,
                            "app.kubernetes.io/name" := w.name,
                            (if HasClaims(w) then "statefulset" else "deployment") := w.spec.applicationName]
    && spec.claims == (if HasClaims(w) then ClaimTemplates(w) else [])
    && FieldsAsSpecified(p, w, spec.template, image) && FilesAsSpecified(p, w, spec.template)
  }

  ghost predicate MetaAsSpecified(p: Platform, w: WebServer, meta: Meta) {
    && meta.name == w.spec.applicationName && meta.ns == w.ns && meta.owner == Some(w.uid)
    && LabelOf(meta.labels, "webserver-hash") == WebServerHash(p.hashing, w)
  }

  /** The workload as the specification has it, for that image; a Deployment follows its image stream by itself. */
  ghost predicate AsSpecified(p: Platform, w: WebServer, o: Object, image: string) {
    && o.body.Workload? && MetaAsSpecified(p, w, o.meta)
    && (o.body.kind == WorkloadKind.StatefulSet <==> HasClaims(w))
    && (!HasClaims(w) ==> ("image.openshift.io/triggers" in o.meta.annotations <==> w.spec.webImage.None?))
    && SpecAsSpecified(p, w, o.body.spec, image)
  }

  /** Nothing of the workload found is changed but its digest, its replicas and its image. */
  ghost predicate ChangedTo(was: Object, o: Object, hash: string, replicas: int32, image: string) {
    && was.body.Workload? && o.body.Workload?
    && LabelOf(o.meta.labels, "webserver-hash") == hash
    && (forall key :: key in o.meta.labels && key != "webserver-hash" ==>
                        key in was.meta.labels && was.meta.labels[key] == o.meta.labels[key])
    && o.meta == was.meta.(labels := o.meta.labels)
    && o.body == was.body.(spec := was.body.spec.(
                 replicas := replicas, template := was.body.spec.template.(image := image)))
  }

  /** So mended, the image is set only where it is given outright. */
  ghost predicate Mended(p: Platform, w: WebServer, was: Object, o: Object) {
    was.body.Workload?
    && ChangedTo(was, o, WebServerHash(p.hashing, w), w.spec.replicas,
                 if w.spec.webImage.Some? && w.spec.webImage.value.webApp.None?
                    && w.spec.webImage.value.applicationImage != ""
                 then w.spec.webImage.value.applicationImage else was.body.spec.template.image)
  }

  /** A workload is generated, if there was none or one of another digest, or mended. */
  ghost predicate RolledOut(p: Platform, w: WebServer, e: Event, image: string) {
    && IsRollout(e)
    && if e.Created? || LabelOf(e.was.meta.labels, "webserver-hash") !in {"", WebServerHash(p.hashing, w)}
       then AsSpecified(p, w, e.obj, image)
       else Mended(p, w, e.was, e.obj)
  }

  /** The build pod of the webapp: labelled with the digest, of the builder's image, with the push secret. */
  ghost predicate IsBuildPod(p: Platform, w: WebServer, o: Object) {
    && w.spec.webImage.Some? && w.spec.webImage.value.webApp.Some?
    && w.spec.webImage.value.webApp.value.builder.Some?
    && o.body.Pod? && o.meta.name == w.spec.applicationName + "-build" && o.meta.ns == w.ns
    && o.meta.owner == Some(w.uid) && LabelOf(o.meta.labels, "webserver-hash") == WebServerHash(p.hashing, w)
    && o.body.image == w.spec.webImage.value.webApp.value.builder.value.image
    && (exists v, m :: v in o.body.volumes && m in o.body.mounts && v.name == m.name
                       && v.source == FromSecret(w.spec.webImage.value.webApp.value.pushSecret) && m.path == "/auth")
  }

  /** An event that writes neither a workload nor a pod. */
  predicate Harmless(e: Event) {
    e.Created? || e.Updated? ==> !IsWorkload(e.obj.Id()) && e.obj.Id().kind != PodKind
  }

  ghost predicate Silent(s: Api, t: Api) {
    s.log <= t.log && forall i :: |s.log| <= i < |t.log| ==> Harmless(t.log[i])
  }

  /** All workloads and pods written are those. */
  ghost predicate Writes(p: Platform, s: Api, t: Api, w: WebServer, image: string) {
    && s.log <= t.log
    && forall i :: |s.log| <= i < |t.log| ==>
         || Harmless(t.log[i])
         || RolledOut(p, w, t.log[i], image)
         || (t.log[i].Created? && IsBuildPod(p, w, t.log[i].obj))
  }

  /* ---------- parts that write neither ---------- */

  lemma SupportIsSilent(s: Api, t: Api)
    requires Grows(s, t)
    ensures Silent(s, t)
  {
    forall i | |s.log| <= i < |t.log| ensures Harmless(t.log[i]) { assert IsSupport(t.log[i]); }
  }

  lemma SilentWrites(p: Platform, s: Api, t: Api, w: WebServer, image: string)
    requires Silent(s, t)
    ensures Writes(p, s, t, w, image)
  {
  }

  lemma WritesTransitive(p: Platform, s: Api, t: Api, u: Api, w: WebServer, image: string)
    requires Writes(p, s, t, w, image) && Writes(p, t, u, w, image)
    ensures Writes(p, s, u, w, image)
  {
    forall i | |s.log| <= i < |t.log| ensures u.log[i] == t.log[i] {}
  }

  lemma SilentTransitive(s: Api, t: Api, u: Api)
    requires Silent(s, t) && Silent(t, u)
    ensures Silent(s, u)
  {
    forall i | |s.log| <= i < |t.log| ensures u.log[i] == t.log[i] {}
  }

  lemma CleaningIsSilent(s: Api, t: Out, leftovers: set<Ref>)
    requires Cleans(s, t, leftovers)
    ensures Silent(s, t.api)
  {
    forall i | |s.log| <= i < |t.api.log| ensures Harmless(t.api.log[i]) { assert IsCleanup(t.api.log[i], leftovers); }
  }

  /* ---------- the rollout ---------- */

  /** Of pods, the gate creates but the one wanted. */
  lemma PodGateWrites(s: Api, pod: Object)
    requires pod.body.Pod?
    ensures var t := GatePod(s, pod).api;
            && s.log <= t.log
            && forall i :: |s.log| <= i < |t.log| ==> Harmless(t.log[i]) || t.log[i] == Created(pod)
  {
    EnsureEffect(s, pod);
    var e := EnsureObject(s, pod);
    if e.flow.Next? {
      CheckPodIsSilent(e.api, e.found, DigestOf(pod));
      assert forall i :: |s.log| <= i < |e.api.log| ==> e.api.log[i] == Read(e.found);
    }
  }

  lemma CheckPodIsSilent(s: Api, found: Object, digest: string)
    requires found.body.Pod?
    ensures Silent(s, CheckPod(s, found, digest).api)
  {
  }

  lemma BuildPodIsWanted(p: Platform, w: WebServer)
    requires BuildsWebApp(w)
    ensures BuildPod(p, w).body.Pod? && IsBuildPod(p, w, BuildPod(p, w))
  {
    var pod := BuildPod(p, w);
    assert pod.body.volumes[0] in pod.body.volumes && pod.body.mounts[0] in pod.body.mounts;
  }

  lemma BuildGateWrites(p: Platform, s: Api, w: WebServer, image: string, b: BuildGoal)
    requires b.pod.body.Pod? && IsBuildPod(p, w, b.pod) && (b.script.Some? ==> !IsCore(b.script.value.Id()))
    ensures Writes(p, s, GateBuild(s, b).api, w, image)
  {
    if b.script.None? {
      PodGateWrites(s, b.pod);
    } else {
      var applied := ApplyObject(s, b.script.value);
      StepGrows(s, Apply(b.script.value));
      SupportIsSilent(s, applied.api);
      SilentWrites(p, s, applied.api, w, image);
      if applied.flow.Next? {
        PodGateWrites(applied.api, b.pod);
        WritesTransitive(p, s, applied.api, GatePod(applied.api, b.pod).api, w, image);
      }
    }
  }

  /** The environment depends on the annotations by the decision alone. */
  lemma EnvFollowsDecision(p: Platform, v: WebServer, w: WebServer)
    requires SameResource(v, w)
    ensures EnvVars(p, v) == EnvVars(p, Annotated(w, GetUseKUBEPing(v)))
  {
    assert OperatorEnv(v) == OperatorEnv(Annotated(w, GetUseKUBEPing(v)));
  }

  lemma FieldsAreAsSpecified(p: Platform, w: WebServer, image: string)
    ensures FieldsAsSpecified(p, w, Template(p, w, image), image)
  {
    LabelsCarryTheDigest(p, w);
  }

  lemma FilesAreAsSpecified(p: Platform, w: WebServer, image: string)
    ensures FilesAsSpecified(p, w, Template(p, w, image))
  {
    FilesOfTemplate(p, w, image);
    EnvFollowsDecision(p, w, w);
    FilesFromParts(p, w, Template(p, w, image), GetUseKUBEPing(w));
  }

  lemma FilesOfTemplate(p: Platform, w: WebServer, image: string)
    ensures var pod := Template(p, w, image);
            && pod.env == EnvVars(p, w) && pod.mounts == VolumeMounts(w) && pod.volumes == Volumes(w)
            && (pod.readiness == HealthPath <==> Probes(w).readinessScript == "")
            && (pod.liveness == HealthPath <==> Probes(w).livenessScript == "")
  {
    ProbesAreWanted(w);
    PartsOfTemplate(TemplateLabels(p, w), w.spec.applicationName, image, HasReadiness(w), HasLiveness(w),
                    w.spec.podResources, w.spec.securityContext, EnvVars(p, w), VolumeMounts(w), Volumes(w),
                    PullSecrets(w), w.spec.isNotJWS);
  }

  lemma ProbesAreWanted(w: WebServer)
    ensures HasReadiness(w) <==> Probes(w).readinessScript != ""
    ensures HasLiveness(w) <==> Probes(w).livenessScript != ""
  {
  }

  lemma PartsOfTemplate(labels: Labels, name: string, image: string, hasReadiness: bool, hasLiveness: bool,
                        resources: string, securityContext: Option<string>, env: seq<EnvVar>, mounts: seq<Mount>,
                        volumes: seq<Volume>, secrets: seq<string>, isNotJWS: bool)
    ensures var pod := TemplateOf(labels, name, image, hasReadiness, hasLiveness, resources, securityContext, env,
                                  mounts, volumes, secrets, isNotJWS);
            && pod.env == env && pod.mounts == mounts && pod.volumes == volumes
            && (pod.readiness == HealthPath <==> !hasReadiness) && (pod.liveness == HealthPath <==> !hasLiveness)
  {
  }

  lemma FilesFromParts(p: Platform, w: WebServer, pod: PodTemplate, use: bool)
    requires pod.env == EnvVars(p, Annotated(w, use)) && pod.mounts == VolumeMounts(w) && pod.volumes == Volumes(w)
    requires pod.readiness == HealthPath <==> Probes(w).readinessScript == ""
    requires pod.liveness == HealthPath <==> Probes(w).livenessScript == ""
    ensures FilesAsSpecified(p, w, pod)
  {
  }

  lemma SelectorAsSpecified(w: WebServer)
    ensures SelectorLabels(w) == map["WebServer" := w.name, "application" := w.spec.applicationName,
                                     "app.kubernetes.io/name" := w.name,
                                     (if HasClaims(w) then "statefulset" else "deployment") := w.spec.applicationName]
  {
  }

  lemma SpecIsAsSpecified(p: Platform, w: WebServer, image: string)
    ensures SpecAsSpecified(p, w, SpecOfWorkload(p, w, image), image)
  {
    FieldsAreAsSpecified(p, w, image);
    FilesAreAsSpecified(p, w, image);
    SelectorAsSpecified(w);
    KindAsSpecified(w);
  }

  lemma LabelsCarryTheDigest(p: Platform, w: WebServer)
    ensures LabelOf(TemplateLabels(p, w), "webserver-hash") == WebServerHash(p.hashing, w)
  {
  }

  lemma MetaIsAsSpecified(p: Platform, w: WebServer, annotations: Labels)
    ensures MetaAsSpecified(p, w, WorkloadMeta(p, w).(annotations := annotations))
    ensures MetaAsSpecified(p, w, WorkloadMeta(p, w))
  {
    LabelsCarryTheDigest(p, w);
  }

  lemma KindAsSpecified(w: WebServer)
    ensures WantedKind(w) == WorkloadKind.StatefulSet <==> HasClaims(w)
    ensures "image.openshift.io/triggers" in TriggersOf(w) <==> w.spec.webImage.None?
  {
  }

  lemma PartsOfAGoal(kind: WorkloadKind, hash: string, meta: Meta, triggers: Labels, spec: WorkloadSpec,
                     deleteClaims: bool, fixedImage: Option<string>, fromImage: bool)
    ensures var g := Goal(kind, hash, meta, triggers, spec, deleteClaims, fixedImage, fromImage);
            && g.hash == hash && g.fixedImage == fixedImage && g.replicas == spec.replicas
            && g.meta == meta.(annotations := triggers) && g.spec == spec
            && g.created.meta in {meta, meta.(annotations := triggers)}
            && (kind == WorkloadKind.Deployment ==> g.created.meta == meta.(annotations := triggers))
            && g.created.body == Workload(kind, spec.(deleteClaims := deleteClaims), 0)
  {
  }

  lemma GoalAsSpecified(p: Platform, w: WebServer, image: string)
    ensures var g := GoalFor(p, w, image);
            && AsSpecified(p, w, g.created, image) && g.created.body.kind == WantedKind(w)
            && MetaAsSpecified(p, w, g.meta) && SpecAsSpecified(p, w, g.spec, image)
            && g.hash == WebServerHash(p.hashing, w) && g.fixedImage == FixedImage(w)
            && g.replicas == g.spec.replicas == w.spec.replicas && g.meta.annotations == TriggersOf(w)
  {
    SpecIsAsSpecified(p, w, image);
    MetaIsAsSpecified(p, w, TriggersOf(w));
    KindAsSpecified(w);
    PartsOfAGoal(WantedKind(w), WebServerHash(p.hashing, w), WorkloadMeta(p, w), TriggersOf(w),
                 SpecOfWorkload(p, w, image), DeletesClaims(w), FixedImage(w), w.spec.webImage.Some?);
  }

  lemma RegeneratedIs(p: Platform, w: WebServer, g: WorkloadGoal, image: string, found: Object)
    requires found.body.Workload? && found.body.kind == WantedKind(w)
    requires MetaAsSpecified(p, w, g.meta) && SpecAsSpecified(p, w, g.spec, image)
    requires g.meta.annotations == TriggersOf(w)
    ensures AsSpecified(p, w, Regenerated(g, found), image)
  {
    KindAsSpecified(w);
  }

  lemma RepairedIs(g: WorkloadGoal, found: Object)
    requires found.body.Workload? && DigestOf(found) in {"", g.hash}
    ensures ChangedTo(found, Repaired(g, found), g.hash, g.replicas,
                      if g.fixedImage.Some? then g.fixedImage.value else found.body.spec.template.image)
  {
    var stamped := Stamped(g, found);
    assert stamped.body == found.body;
    var imaged := WithImage(g, stamped);
    assert imaged.meta == stamped.meta;
  }

  /** A rollout that generates does so to the liking of `made`, and one that mends to that of `mended`. */
  ghost predicate RollsSo(e: Event, hash: string, made: Object -> bool, mended: (Object, Object) -> bool) {
    && IsRollout(e)
    && if e.Created? || DigestOf(e.was) !in {"", hash} then made(e.obj) else mended(e.was, e.obj)
  }

  lemma GoalWrites(s: Api, g: WorkloadGoal, target: Ref, made: Object -> bool, mended: (Object, Object) -> bool)
    requires IsFor(g, target) && IsWorkload(target) && made(g.created)
    requires forall found: Object :: found.body.Workload? && found.Id() == target ==>
                                       if DigestOf(found) in {"", g.hash} then mended(found, Repaired(g, found))
                                       else made(Regenerated(g, found))
    ensures var t := ContinueWith(s, g).api;
            && s.log <= t.log
            && forall i :: |s.log| <= i < |t.log| ==> Harmless(t.log[i]) || RollsSo(t.log[i], g.hash, made, mended)
  {
    var t := ContinueWith(s, g).api;
    ContinueIsSafe(s, g);
    ContinueWrites(s, g);
    forall i | |s.log| <= i < |t.log| && IsRollout(t.log[i]) ensures RollsSo(t.log[i], g.hash, made, mended) {
      if t.log[i].Updated? { assert t.log[i].was.Id() == target; }
    }
  }

  /** The goal is what the specification has. */
  ghost predicate GoalSpecified(p: Platform, w: WebServer, image: string, g: WorkloadGoal) {
    && AsSpecified(p, w, g.created, image) && MetaAsSpecified(p, w, g.meta) && SpecAsSpecified(p, w, g.spec, image)
    && g.meta.annotations == TriggersOf(w) && g.hash == WebServerHash(p.hashing, w)
    && g.fixedImage == FixedImage(w) && g.replicas == w.spec.replicas
  }

  lemma RemadeIs(p: Platform, w: WebServer, image: string, g: WorkloadGoal, found: Object)
    requires GoalSpecified(p, w, image, g) && found.body.Workload? && found.Id() == TargetRef(w)
    ensures if DigestOf(found) in {"", g.hash} then Mended(p, w, found, Repaired(g, found))
            else AsSpecified(p, w, Regenerated(g, found), image)
  {
    KindOfTarget(w, found);
    if DigestOf(found) in {"", g.hash} { RepairedIs(g, found); } else { RegeneratedIs(p, w, g, image, found); }
  }

  lemma SpecifiedGoalWrites(p: Platform, s: Api, w: WebServer, image: string, g: WorkloadGoal)
    requires GoalSpecified(p, w, image, g) && IsFor(g, TargetRef(w))
    ensures Writes(p, s, ContinueWith(s, g).api, w, image)
  {
    var made := (o: Object) => AsSpecified(p, w, o, image);
    var mended := (was: Object, o: Object) => Mended(p, w, was, o);
    forall found: Object | found.body.Workload? && found.Id() == TargetRef(w)
      ensures if DigestOf(found) in {"", g.hash} then mended(found, Repaired(g, found)) else made(Regenerated(g, found))
    {
      RemadeIs(p, w, image, g, found);
    }
    GoalWrites(s, g, TargetRef(w), made, mended);
    RollsSoRollsOut(p, s, ContinueWith(s, g).api, w, image, made, mended);
  }

  lemma ContinueWritesAsSpecified(p: Platform, s: Api, w: WebServer, image: string)
    ensures Writes(p, s, ContinueWith(s, GoalFor(p, w, image)).api, w, image)
  {
    GoalIsForTarget(p, w, image);
    GoalAsSpecified(p, w, image);
    SpecifiedGoalWrites(p, s, w, image, GoalFor(p, w, image));
  }

  lemma RollsSoRollsOut(p: Platform, s: Api, t: Api, w: WebServer, image: string, made: Object -> bool,
                        mended: (Object, Object) -> bool)
    requires s.log <= t.log
    requires forall i :: |s.log| <= i < |t.log| ==>
                           Harmless(t.log[i]) || RollsSo(t.log[i], WebServerHash(p.hashing, w), made, mended)
    requires forall o :: made(o) ==> AsSpecified(p, w, o, image)
    requires forall was, o :: mended(was, o) ==> Mended(p, w, was, o)
    ensures Writes(p, s, t, w, image)
  {
    forall i | |s.log| <= i < |t.log| && !Harmless(t.log[i]) ensures RolledOut(p, w, t.log[i], image) {
      assert RollsSo(t.log[i], WebServerHash(p.hashing, w), made, mended);
    }
  }

  lemma KindOfTarget(w: WebServer, o: Object)
    requires o.body.Workload? && o.Id() == TargetRef(w)
    ensures o.body.kind == WantedKind(w)
  {
  }

  /* ---------- plans ---------- */

  /** The image stream was found with that repository, or could not be read, in which case the image is empty. */
  predicate StreamAnswers(w: WebServer, e: Event, image: string) {
    && w.spec.webImageStream.Some?
    && var stream := w.spec.webImageStream.value;
       var ref := if stream.sources.Some? then Ref(ImageStreamKind, w.ns, w.spec.applicationName)
                  else Ref(ImageStreamKind, stream.streamNamespace, stream.streamName);
       || (e.Read? && e.obj.Id() == ref && e.obj.body.ImageStream? && image == e.obj.body.repository)
       || (e.Refused? && e.verb == GET && e.target == Some(ref) && e.err != NotFound && image == "")
  }

  /** The image is that of the specification, the webapp's own where there is one, or what the image stream had been
      read to hold before the workload was written. */
  ghost predicate ImageNamed(s: Api, t: Api, w: WebServer, image: string) {
    if w.spec.webImage.Some? then
      image == if w.spec.webImage.value.webApp.Some? then w.spec.webImage.value.webApp.value.warImage
               else w.spec.webImage.value.applicationImage
    else
      forall k :: |s.log| <= k < |t.log| && IsRollout(t.log[k]) ==>
                    exists j :: |s.log| <= j < k && StreamAnswers(w, t.log[j], image)
  }

  ghost predicate WritesFrom(p: Platform, s: Api, t: Api, w: WebServer, image: string) {
    Writes(p, s, t, w, image) && ImageNamed(s, t, w, image)
  }

  /** All workloads and pods written are those, for one image that is named. */
  ghost predicate WritesWanted(p: Platform, s: Api, t: Api, w: WebServer) {
    exists image :: WritesFrom(p, s, t, w, image)
  }

  lemma SilentThenWrites(p: Platform, s: Api, t: Api, u: Api, w: WebServer, image: string)
    requires Silent(s, t) && WritesFrom(p, t, u, w, image)
    ensures WritesFrom(p, s, u, w, image)
  {
    SilentWrites(p, s, t, w, image);
    WritesTransitive(p, s, t, u, w, image);
    forall k | |s.log| <= k < |t.log| ensures Harmless(u.log[k]) { assert u.log[k] == t.log[k]; }
  }

  lemma WritesThenSilent(p: Platform, s: Api, t: Api, u: Api, w: WebServer, image: string)
    requires WritesFrom(p, s, t, w, image) && Silent(t, u)
    ensures WritesFrom(p, s, u, w, image)
  {
    SilentWrites(p, t, u, w, image);
    WritesTransitive(p, s, t, u, w, image);
    forall k | |s.log| <= k < |u.log| && IsRollout(u.log[k]) && w.spec.webImage.None?
      ensures exists j :: |s.log| <= j < k && StreamAnswers(w, u.log[j], image)
    {
      assert k < |t.log| && u.log[k] == t.log[k];
      var j :| |s.log| <= j < k && StreamAnswers(w, t.log[j], image);
      assert u.log[j] == t.log[j];
    }
  }

  /** No rollout is there to name an image for. */
  lemma SilentWritesFrom(p: Platform, s: Api, t: Api, w: WebServer)
    requires Silent(s, t)
    ensures WritesWanted(p, s, t, w)
  {
    var image := if w.spec.webImage.None? then "" else DeployedImage(w);
    SilentWrites(p, s, t, w, image);
    assert WritesFrom(p, s, t, w, image);
  }

  lemma WritesThroughGate(p: Platform, s: Api, w: WebServer, image: string, gate: Gate)
    requires Writes(p, s, gate.api, w, image)
    ensures Writes(p, s, if gate.open then ContinueWith(gate.api, GoalFor(p, w, image)).api else gate.api, w, image)
  {
    if gate.open {
      ContinueWritesAsSpecified(p, gate.api, w, image);
      WritesTransitive(p, s, gate.api, ContinueWith(gate.api, GoalFor(p, w, image)).api, w, image);
    }
  }

  lemma GateWrites(p: Platform, s: Api, w: WebServer, image: string)
    ensures Writes(p, s, PodGate(s, BuildOf(p, w)).api, w, image)
  {
    if BuildsWebApp(w) {
      BuildPodIsWanted(p, w);
      BuildGateWrites(p, s, w, image, BuildGoalFor(p, w));
    } else {
      SilentWrites(p, s, s, w, image);
    }
  }

  lemma ImagePlanWrites(p: Platform, s: Api, w: WebServer)
    requires w.spec.webImage.Some?
    ensures WritesFrom(p, s, RunPlan(s, ImagePlan(p, w)).api, w, DeployedImage(w))
  {
    GateWrites(p, s, w, DeployedImage(w));
    WritesThroughGate(p, s, w, DeployedImage(w), PodGate(s, BuildOf(p, w)));
  }

  lemma ReadsAreSilent(s: Api, ref: Ref)
    ensures Silent(s, GetCall(s, ref).0) && Silent(s, InstantiateCall(s, ref).0)
  {
  }

  lemma DeletionIsSilent(s: Api, ref: Ref)
    ensures Silent(s, DeleteCall(s, ref).0)
  {
  }

  lemma CallsAreSilent(s: Api, ref: Ref, obj: Object)
    requires !IsWorkload(obj.Id()) && obj.Id().kind != PodKind
    ensures Silent(s, GetCall(s, ref).0) && Silent(s, DeleteCall(s, ref).0) && Silent(s, InstantiateCall(s, ref).0)
    ensures Silent(s, CreateCall(s, obj).0) && Silent(s, UpdateCall(s, obj).0)
  {
    ReadsAreSilent(s, ref);
    DeletionIsSilent(s, ref);
    CreationIsSilent(s, obj);
    UpdateIsSilent(s, obj);
  }

  lemma CreationIsSilent(s: Api, obj: Object)
    requires !IsWorkload(obj.Id()) && obj.Id().kind != PodKind
    ensures Silent(s, CreateCall(s, obj).0)
  {
  }

  lemma UpdateIsSilent(s: Api, obj: Object)
    requires !IsWorkload(obj.Id()) && obj.Id().kind != PodKind
    ensures Silent(s, UpdateCall(s, obj).0)
  {
  }

  lemma UpdateBuildIsSilent(s: Api, build: Object)
    requires build.Id().kind == BuildConfigKind
    ensures Silent(s, UpdateBuild(s, build).api)
  {
    var t := GetCall(s, build.Id()).0;
    var u, v := UpdateCall(t, build).0, CreateCall(t, build).0;
    var x := InstantiateCall(u, build.Id()).0;
    CallsAreSilent(s, build.Id(), build);
    CallsAreSilent(t, build.Id(), build);
    CallsAreSilent(u, build.Id(), build);
    SilentTransitive(s, t, v);
    SilentTransitive(s, t, u);
    SilentTransitive(s, u, x);
    assert UpdateBuild(s, build).api in {t, u, v, x};
  }

  lemma PrepareBuildIsSilent(s: Api, stream: Object, build: Object)
    requires stream.Id().kind == ImageStreamKind && build.Id().kind == BuildConfigKind
    ensures Silent(s, PrepareBuild(s, stream, build).api)
  {
    var e := EnsureObject(s, stream);
    StepGrows(s, Ensure(stream));
    SupportIsSilent(s, e.api);
    if e.flow.Next? {
      var t := GetCall(e.api, stream.Id()).0;
      CallsAreSilent(e.api, stream.Id(), stream);
      SilentTransitive(s, e.api, t);
      UpdateBuildIsSilent(t, build);
      SilentTransitive(s, t, UpdateBuild(t, build).api);
    }
  }

  lemma StreamGateIsSilent(s: Api, p: Platform, w: WebServer)
    requires w.spec.webImageStream.Some?
    ensures Silent(s, StreamGate(s, SourcesOf(p, w), BuildRef(w)).api)
  {
    if BuildsStream(w) {
      PrepareBuildIsSilent(s, StreamObject(w), SourceBuild(p, w));
    } else {
      var t := GetCall(s, BuildRef(w)).0;
      CallsAreSilent(s, BuildRef(w), StreamObject(w));
      CallsAreSilent(t, BuildRef(w), StreamObject(w));
      SilentTransitive(s, t, DeleteCall(t, BuildRef(w)).0);
    }
  }

  lemma ReadIsAnswer(s: Api, w: WebServer)
    requires w.spec.webImageStream.Some?
    ensures var (t, repository) := ReadStream(s, StreamRef(w));
            && Silent(s, t) && |t.log| == |s.log| + 1
            && (repository.Some? ==> StreamAnswers(w, t.log[|s.log|], repository.value))
  {
    var (t, reply) := GetCall(s, StreamRef(w));
    if reply.Ok? { assert reply.value.Id() == StreamRef(w); }
  }

  lemma RolloutOfStream(p: Platform, s: Api, w: WebServer)
    requires w.spec.webImageStream.Some? && w.spec.webImage.None?
    ensures WritesWanted(p, s, ContinueFrom(s, StreamRef(w), StreamPlan(p, w).goals).api, w)
  {
    var (t, repository) := ReadStream(s, StreamRef(w));
    ReadIsAnswer(s, w);
    if repository.None? {
      SilentWritesFrom(p, s, t, w);
    } else {
      var image := repository.value;
      assert StreamPlan(p, w).goals(image) == GoalFor(p, w, image);
      ContinueWritesAsSpecified(p, t, w, image);
      WritesBehindAnswer(p, s, t, ContinueWith(t, GoalFor(p, w, image)).api, w, image);
    }
  }

  lemma WritesBehindAnswer(p: Platform, s: Api, t: Api, u: Api, w: WebServer, image: string)
    requires w.spec.webImage.None? && Silent(s, t) && |t.log| == |s.log| + 1
    requires StreamAnswers(w, t.log[|s.log|], image) && Writes(p, t, u, w, image)
    ensures WritesFrom(p, s, u, w, image)
  {
    SilentWrites(p, s, t, w, image);
    WritesTransitive(p, s, t, u, w, image);
    assert u.log[|s.log|] == t.log[|s.log|];
  }

  lemma StreamPlanWrites(p: Platform, s: Api, w: WebServer)
    requires w.spec.webImageStream.Some? && w.spec.webImage.None?
    ensures WritesWanted(p, s, RunPlan(s, StreamPlan(p, w)).api, w)
  {
    var gate := StreamGate(s, SourcesOf(p, w), BuildRef(w));
    StreamGateIsSilent(s, p, w);
    if gate.open {
      var t := ContinueFrom(gate.api, StreamRef(w), StreamPlan(p, w).goals).api;
      RolloutOfStream(p, gate.api, w);
      var image :| WritesFrom(p, gate.api, t, w, image);
      SilentThenWrites(p, s, gate.api, t, w, image);
      assert RunPlan(s, StreamPlan(p, w)).api == t;
    } else {
      SilentWritesFrom(p, s, gate.api, w);
    }
  }

  lemma PlanWrites(p: Platform, s: Api, w: WebServer)
    requires Usable(p, w)
    ensures WritesWanted(p, s, RunPlan(s, PlanOf(p, w)).api, w)
  {
    if w.spec.webImage.Some? {
      ImagePlanWrites(p, s, w);
      assert WritesFrom(p, s, RunPlan(s, PlanOf(p, w)).api, w, DeployedImage(w));
    } else {
      StreamPlanWrites(p, s, w);
    }
  }

  /* ---------- whole passes ---------- */

  lemma DeployWrites(p: Platform, s: Api, w: WebServer)
    requires Usable(p, w)
    ensures WritesWanted(p, s, Deploy(p, s, w).api, w)
  {
    var rolled := RunPlan(s, PlanOf(p, w));
    PlanWrites(p, s, w);
    var image :| WritesFrom(p, s, rolled.api, w, image);
    if rolled.flow.Next? {
      CleanupRemovesLeftovers(p, rolled.api, w);
      CleaningIsSilent(rolled.api, CheckOwned(p, rolled.api, w), Leftovers(rolled.api.objects, w));
      WritesThenSilent(p, s, rolled.api, CheckOwned(p, rolled.api, w).api, w, image);
    }
    assert WritesFrom(p, s, Deploy(p, s, w).api, w, image);
  }

  lemma BackWrites(p: Platform, s: Api, w: WebServer)
    requires Usable(p, w)
    ensures var back := Back(p, s, w);
            var t := if back.flow.Return? then back.api else Deploy(p, back.api, w).api;
            WritesWanted(p, s, t, w)
  {
    var back := Back(p, s, w);
    BackEffect(p, s, w);
    SupportIsSilent(s, back.api);
    if back.flow.Return? {
      SilentWritesFrom(p, s, back.api, w);
    } else {
      DeployWrites(p, back.api, w);
      var image :| WritesFrom(p, back.api, Deploy(p, back.api, w).api, w, image);
      SilentThenWrites(p, s, back.api, Deploy(p, back.api, w).api, w, image);
    }
  }

  lemma PrepareWrites(p: Platform, s: Api, w: WebServer)
    ensures WritesWanted(p, s, Prepare(p, s, w).api, Prepare(p, s, w).w)
  {
    var front, t := Front(p, s, w), Prepare(p, s, w);
    FrontGrows(p, s, w);
    SupportIsSilent(s, front.api);
    if front.flow.Return? {
      SilentWritesFrom(p, s, front.api, front.w);
    } else {
      BackWrites(p, front.api, front.w);
      var image :| WritesFrom(p, front.api, t.api, front.w, image);
      SilentThenWrites(p, s, front.api, t.api, front.w, image);
    }
  }

  lemma ConcludingWrites(p: Platform, s: Api, done: Prepared, status: Status, image: string)
    requires WritesFrom(p, s, done.api, done.w, image)
    ensures WritesFrom(p, s, Conclude(done, status).api, done.w, image)
  {
    if done.flow.Next? {
      ReportGrows(done.api, done.w, status, done.hosts);
      SupportIsSilent(done.api, Report(done.api, done.w, status, done.hosts).api);
      WritesThenSilent(p, s, done.api, Report(done.api, done.w, status, done.hosts).api, done.w, image);
    }
  }

  lemma SameResourceSameFiles(p: Platform, v: WebServer, w: WebServer, pod: PodTemplate)
    requires SameResource(v, w) && FilesAsSpecified(p, v, pod)
    ensures FilesAsSpecified(p, w, pod)
  {
    EnvFollowsDecision(p, Annotated(v, true), w);
    EnvFollowsDecision(p, Annotated(v, false), w);
    SameResourceSameVolumes(v, w);
    FilesFromParts(p, w, pod, pod.env == EnvVars(p, Annotated(v, true)));
  }

  lemma SameResourceSameVolumes(v: WebServer, w: WebServer)
    requires SameResource(v, w)
    ensures Volumes(v) == Volumes(w) && VolumeMounts(v) == VolumeMounts(w) && Probes(v) == Probes(w)
    ensures ClaimTemplates(v) == ClaimTemplates(w)
  {
    SameMounts(v, w);
    SameUserMounts(v, w);
  }

  lemma SameResourceSameSpec(p: Platform, v: WebServer, w: WebServer, spec: WorkloadSpec, image: string)
    requires SameResource(v, w) && SpecAsSpecified(p, v, spec, image)
    ensures SpecAsSpecified(p, w, spec, image)
  {
    HashOfUnscaled(p.hashing, v, w);
    SameResourceSameFiles(p, v, w, spec.template);
    SameResourceSameVolumes(v, w);
  }

  lemma SameResourceSameRollout(p: Platform, v: WebServer, w: WebServer, e: Event, image: string)
    requires SameResource(v, w) && RolledOut(p, v, e, image)
    ensures RolledOut(p, w, e, image)
  {
    HashOfUnscaled(p.hashing, v, w);
    if AsSpecified(p, v, e.obj, image) { SameResourceSameSpec(p, v, w, e.obj.body.spec, image); }
  }

  lemma SameResourceSameEvent(p: Platform, v: WebServer, w: WebServer, e: Event, image: string)
    requires SameResource(v, w)
    ensures e.Created? && IsBuildPod(p, v, e.obj) ==> IsBuildPod(p, w, e.obj)
    ensures StreamAnswers(v, e, image) ==> StreamAnswers(w, e, image)
  {
    HashOfUnscaled(p.hashing, v, w);
  }

  /** What is written is in fields of the resource that the decision on clustering does not touch. */
  lemma SameResourceSameWrites(p: Platform, s: Api, t: Api, v: WebServer, w: WebServer, image: string)
    requires SameResource(v, w) && WritesFrom(p, s, t, v, image)
    ensures WritesFrom(p, s, t, w, image)
  {
    forall e: Event
      ensures RolledOut(p, v, e, image) ==> RolledOut(p, w, e, image)
      ensures e.Created? && IsBuildPod(p, v, e.obj) ==> IsBuildPod(p, w, e.obj)
      ensures StreamAnswers(v, e, image) ==> StreamAnswers(w, e, image)
    {
      SameResourceSameEvent(p, v, w, e, image);
      if RolledOut(p, v, e, image) { SameResourceSameRollout(p, v, w, e, image); }
    }
  }

  lemma InHandIsSame(p: Platform, s: Api)
    requires s.server.Some?
    ensures SameResource(InHand(p, s), SetDefaults(s.server.value))
  {
    FrontEffect(p, GetServerCall(s).0, SetDefaults(s.server.value));
  }

  /** For every store and any answers: whatever workload a pass creates, or regenerates because of its digest, is the
      specification's, running the image of the specification - the webapp's own where there is one - or the one its
      image stream was read to hold; what it otherwise updates keeps all but digest, replicas and an image given
      outright; and a pod it creates is the build pod, of the builder's image and with the digest of the resource. */
  lemma PassWritesAsSpecified(p: Platform, s: Api, status: Status)
    requires s.server.Some?
    ensures WritesWanted(p, s, ReconcileSpec(p, s, status).api, SetDefaults(s.server.value))
  {
    var w, t := SetDefaults(s.server.value), GetServerCall(s).0;
    GetServerGrows(s);
    SupportIsSilent(s, t);
    if GetServerCall(s).1.Some? || DefaultsCrash(s.server.value) {
      SilentWritesFrom(p, s, t, w);
    } else {
      var done := Prepare(p, t, w);
      PrepareWrites(p, t, w);
      var image :| WritesFrom(p, t, done.api, done.w, image);
      SilentThenWrites(p, s, t, done.api, done.w, image);
      ConcludingWrites(p, s, done, status, image);
      InHandIsSame(p, s);
      SameResourceSameWrites(p, s, ReconcileSpec(p, s, status).api, done.w, w, image);
      assert WritesFrom(p, s, ReconcileSpec(p, s, status).api, w, image);
    }
  }

  /** So what is generated for an image runs the image of the specification: the one the webapp was built into, where
      there is a webapp, and the application image otherwise. */
  lemma ImageIsRolledOut(p: Platform, s: Api, status: Status, k: nat)
    requires s.server.Some? && s.server.value.spec.webImage.Some?
    requires |s.log| <= k < |ReconcileSpec(p, s, status).api.log| && IsRollout(ReconcileSpec(p, s, status).api.log[k])
    ensures var e, w := ReconcileSpec(p, s, status).api.log[k], SetDefaults(s.server.value);
            var image := s.server.value.spec.webImage.value;
            e.Created? || LabelOf(e.was.meta.labels, "webserver-hash") !in {"", WebServerHash(p.hashing, w)} ==>
              && e.obj.body.Workload?
              && e.obj.body.spec.template.image ==
                 if image.webApp.Some? then image.webApp.value.warImage else image.applicationImage
  {
    PassWritesAsSpecified(p, s, status);
    ImageIsNamed(p, s, ReconcileSpec(p, s, status).api, SetDefaults(s.server.value), k);
    DefaultsKeepImages(s.server.value);
  }

  lemma ImageIsNamed(p: Platform, s: Api, t: Api, w: WebServer, k: nat)
    requires WritesWanted(p, s, t, w) && w.spec.webImage.Some? && |s.log| <= k < |t.log| && IsRollout(t.log[k])
    ensures var e, wanted := t.log[k], w.spec.webImage.value;
            e.Created? || LabelOf(e.was.meta.labels, "webserver-hash") !in {"", WebServerHash(p.hashing, w)} ==>
              && e.obj.body.Workload?
              && e.obj.body.spec.template.image ==
                 if wanted.webApp.Some? then wanted.webApp.value.warImage else wanted.applicationImage
  {
    var image :| WritesFrom(p, s, t, w, image);
  }

  lemma DefaultsKeepImages(w: WebServer)
    requires w.spec.webImage.Some?
    ensures var v, u := w.spec.webImage.value, SetDefaults(w).spec.webImage;
            && u.Some? && u.value.applicationImage == v.applicationImage && (u.value.webApp.Some? <==> v.webApp.Some?)
            && (v.webApp.Some? ==> u.value.webApp.value.warImage == v.webApp.value.warImage)
  {
  }

  /** The build pod of the resource was read, labelled with the digest of the resource, and had succeeded. */
  ghost predicate BuildSucceeded(p: Platform, w: WebServer, e: Event) {
    && e.Read? && e.obj.body.Pod? && e.obj.body.phase == Succeeded
    && e.obj.meta.ns == w.ns && e.obj.meta.name == w.spec.applicationName + "-build"
    && LabelOf(e.obj.meta.labels, "webserver-hash") == WebServerHash(p.hashing, w)
  }

  /** For every store and any answers: where a webapp is built, each write of the workload comes after the read of the
      build pod that is labelled with the digest of this very resource and has succeeded. */
  lemma BuildComesFirst(p: Platform, s: Api, status: Status, k: nat)
    requires s.server.Some? && s.server.value.spec.webImage.Some? && s.server.value.spec.webImage.value.webApp.Some?
    requires var app := s.server.value.spec.webImage.value.webApp.value;
             app.repositoryURL != "" && app.builder.Some? && app.builder.value.image != ""
    requires |s.log| <= k < |ReconcileSpec(p, s, status).api.log| && IsRollout(ReconcileSpec(p, s, status).api.log[k])
    ensures exists j :: |s.log| <= j < k
                        && BuildSucceeded(p, SetDefaults(s.server.value), ReconcileSpec(p, s, status).api.log[j])
  {
    var t, w := ReconcileSpec(p, s, status).api, InHand(p, s);
    InHandIsSame(p, s);
    ReconcileIsSafe(p, s, status);
    assert BuildsWebApp(w);
    BehindBuild(p, s, t, w, SetDefaults(s.server.value), k);
  }

  lemma BehindBuild(p: Platform, s: Api, t: Api, v: WebServer, w: WebServer, k: nat)
    requires BuildsWebApp(v) && SuccessFirst(s, t, BuildPod(p, v)) && SameResource(v, w)
    requires |s.log| <= k < |t.log| && IsRollout(t.log[k])
    ensures exists j :: |s.log| <= j < k && BuildSucceeded(p, w, t.log[j])
  {
    var j :| |s.log| <= j < k && IsSuccess(t.log[j], BuildPod(p, v));
    SuccessIsBuild(p, v, t.log[j]);
    HashOfUnscaled(p.hashing, v, w);
    assert BuildSucceeded(p, w, t.log[j]);
  }

  lemma SuccessIsBuild(p: Platform, w: WebServer, e: Event)
    requires BuildsWebApp(w) && IsSuccess(e, BuildPod(p, w))
    ensures BuildSucceeded(p, w, e)
  {
  }

  /** A specification that names no deployment method, or two, or an image stream off OpenShift, is left alone: no
      workload is written or removed, and no pod created. */
  lemma UnusableIsLeftAlone(p: Platform, s: Api, status: Status)
    requires s.server.Some?
    requires var spec := s.server.value.spec;
             spec.webImage.Some? == spec.webImageStream.Some? || (spec.webImageStream.Some? && !p.isOpenShift)
    ensures var t := ReconcileSpec(p, s, status).api;
            && Silent(s, t)
            && forall i :: |s.log| <= i < |t.log| ==> !t.log[i].Deleted?
  {
    var t, w := GetServerCall(s).0, SetDefaults(s.server.value);
    GetServerGrows(s);
    UnusableStops(p, t, w);
    GrowsTransitive(s, t, Front(p, t, w).api);
    GrowingDeletesNothing(s, ReconcileSpec(p, s, status).api);
  }

  lemma UnusableStops(p: Platform, s: Api, w: WebServer)
    requires !Usable(p, w)
    ensures Grows(s, Front(p, s, w).api) && Front(p, s, w).flow.Return?
  {
    FrontEffect(p, s, w);
    NoDecisionMakesUsable(p, Front(p, s, w).w, w);
  }

  lemma NoDecisionMakesUsable(p: Platform, v: WebServer, w: WebServer)
    requires SameResource(v, w)
    ensures Usable(p, v) <==> Usable(p, w)
  {
  }

  lemma GrowingDeletesNothing(s: Api, t: Api)
    requires Grows(s, t)
    ensures Silent(s, t) && forall i :: |s.log| <= i < |t.log| ==> !t.log[i].Deleted?
  {
    SupportIsSilent(s, t);
    forall i | |s.log| <= i < |t.log| ensures !t.log[i].Deleted? { assert IsSupport(t.log[i]); }
  }

  lemma ScriptIsThere(s: Api, b: BuildGoal)
    requires b.pod.body.Pod? && b.script.Some? && b.script.value.Id() != b.pod.Id() && GateBuild(s, b).flow.Next?
    ensures b.script.value.Id() in GateBuild(s, b).api.objects
            && GateBuild(s, b).api.objects[b.script.value.Id()] == b.script.value
  {
    var applied := ApplyObject(s, b.script.value);
    PodGateIsSafe(applied.api, b.pod);
    assert SameAt(applied.api.objects, GatePod(applied.api, b.pod).api.objects, b.script.value.Id());
  }

  lemma ScriptIsMounted(p: Platform, w: WebServer)
    requires BuildsWebApp(w) && w.spec.webImage.value.webApp.value.builder.value.buildScript != ""
    ensures exists v, m :: v in BuildPod(p, w).body.volumes && m in BuildPod(p, w).body.mounts && v.name == m.name
                           && v.source == FromConfigMap("webserver-bd-" + w.name) && m.path == "/build/my-files"
  {
    var v, m := BuildVolumes(w)[1], BuildMounts(w)[1];
    assert v in BuildVolumes(w) && m in BuildMounts(w) && v.source == FromConfigMap("webserver-bd-" + w.name);
  }

  /** Where the gate of a build with a script of its own lets the pass go on, the script is in place, and the build pod
      mounts it. */
  lemma BuildScriptIsInPlace(p: Platform, s: Api, w: WebServer)
    requires BuildsWebApp(w) && w.spec.webImage.value.webApp.value.builder.value.buildScript != ""
    requires GateBuild(s, BuildGoalFor(p, w)).flow.Next?
    ensures var t, r := GateBuild(s, BuildGoalFor(p, w)).api, Ref(ConfigMapKind, w.ns, "webserver-bd-" + w.name);
            && r in t.objects
            && t.objects[r].body ==
               ConfigMap(map["build.sh" := Text(w.spec.webImage.value.webApp.value.builder.value.buildScript)])
    ensures exists v, m :: v in BuildPod(p, w).body.volumes && m in BuildPod(p, w).body.mounts && v.name == m.name
                           && v.source == FromConfigMap("webserver-bd-" + w.name) && m.path == "/build/my-files"
  {
    GoalScriptIsThere(s, BuildGoalFor(p, w), w);
    ScriptIsMounted(p, w);
  }

  lemma GoalScriptIsThere(s: Api, b: BuildGoal, w: WebServer)
    requires BuildsWebApp(w) && b.script == Some(BuildMap(w)) && b.pod.body.Pod? && GateBuild(s, b).flow.Next?
    ensures var t, r := GateBuild(s, b).api, Ref(ConfigMapKind, w.ns, "webserver-bd-" + w.name);
            && r in t.objects
            && t.objects[r].body ==
               ConfigMap(map["build.sh" := Text(w.spec.webImage.value.webApp.value.builder.value.buildScript)])
  {
    BuildMapIs(w);
    ScriptIsThere(s, b);
  }

  lemma BuildMapIs(w: WebServer)
    requires BuildsWebApp(w)
    ensures BuildMap(w).Id() == Ref(ConfigMapKind, w.ns, "webserver-bd-" + w.name)
    ensures BuildMap(w).body ==
            ConfigMap(map["build.sh" := Text(w.spec.webImage.value.webApp.value.builder.value.buildScript)])
  {
  }

  /** A resource that cannot be read ends the pass before anything is done, without failure if it is gone. */
  lemma FirstReadDecides(p: Platform, s: Api, status: Status, err: Err)
    requires GetServerCall(s).1 == Some(err)
    ensures var r := ReconcileSpec(p, s, status);
            && r.api.log == s.log + [Refused(GET, None, err)] && r.api.objects == s.objects && r.status == status
            && r.flow == Return(Empty, if err == NotFound then None else Some(ApiError(err)))
  {
  }

  /* ---------- the way in ---------- */

  /** The hosts found are the addresses, in order, of the route or the load balancer that was read. */
  ghost predicate HostsOf(p: Platform, w: WebServer, e: Event, hosts: seq<string>) {
    && e.Read? && SortedBy(hosts, Itself)
    && if p.isOpenShift then
         && e.obj.Id() == Ref(RouteKind, w.ns, w.spec.applicationName) && e.obj.body.Route?
         && multiset(hosts) == multiset(e.obj.body.admitted)
       else
         && e.obj.Id() == Ref(ServiceKind, w.ns, w.spec.applicationName + "-lb") && e.obj.body.Service?
         && multiset(hosts) == multiset(e.obj.body.addresses) && hosts != []
  }

  lemma AddressesAreRead(s: Api, obj: Object, wait: bool)
    requires ExposeObject(s, obj, wait).flow.Next?
    ensures var e := ExposeObject(s, obj, wait);
            && e.hosts.Some? && SortedBy(e.hosts.value, Itself)
            && |e.api.log| == |s.log| + 1 && e.api.log[|s.log|].Read?
            && e.api.log[|s.log|].obj.Id() == obj.Id()
            && multiset(e.hosts.value) == multiset(Addresses(e.api.log[|s.log|].obj))
            && (wait ==> e.hosts.value != [])
  {
    var found := EnsureObject(s, obj).found;
    EnsureEffect(s, obj);
    SortByIsSort(Addresses(found), Itself);
    SortedEmpty(Addresses(found));
  }

  /** Whatever fails, a pass goes on with the hosts of what exposes the application, or with none only where, on
      OpenShift, no route is wanted. */
  lemma HostsAreFound(p: Platform, s: Api, w: WebServer)
    requires Expose(p, s, w).flow.Next?
    ensures var e := Expose(p, s, w);
            if e.hosts.None? then p.isOpenShift && w.spec.tls.routeHostname == "NONE" && e.api == s
            else |e.api.log| == |s.log| + 1 && HostsOf(p, w, e.api.log[|s.log|], e.hosts.value)
  {
    if Exposure(p, w).Some? {
      ExposedIs(p, w);
      AddressesAreRead(s, Exposure(p, w).value, !p.isOpenShift);
      ReadHosts(p, w, Expose(p, s, w).api.log[|s.log|], Expose(p, s, w).hosts.value);
    }
  }

  lemma ExposedIs(p: Platform, w: WebServer)
    requires Exposure(p, w).Some?
    ensures Exposure(p, w).value.Id() ==
            if p.isOpenShift then Ref(RouteKind, w.ns, w.spec.applicationName)
            else Ref(ServiceKind, w.ns, w.spec.applicationName + "-lb")
  {
  }

  lemma ReadHosts(p: Platform, w: WebServer, e: Event, hosts: seq<string>)
    requires e.Read? && SortedBy(hosts, Itself) && multiset(hosts) == multiset(Addresses(e.obj))
    requires !p.isOpenShift ==> hosts != []
    requires e.obj.Id() == if p.isOpenShift then Ref(RouteKind, w.ns, w.spec.applicationName)
                           else Ref(ServiceKind, w.ns, w.spec.applicationName + "-lb")
    ensures HostsOf(p, w, e, hosts)
  {
  }

  lemma SortedEmpty(addresses: seq<string>)
    ensures SortBy(addresses, Itself) == [] <==> addresses == []
  {
    SortByIsSort(addresses, Itself);
    assert |multiset(SortBy(addresses, Itself))| == |multiset(addresses)|;
  }

  /** What exposes it: on OpenShift a route for the host name given, through to TLS if it is prefixed so and unless it
      is NONE; elsewhere a load balancer. */
  lemma ExposureFollowsHostName(p: Platform, w: WebServer, host: string)
    ensures !p.isOpenShift ==>
              Exposure(p, w).Some? && Exposure(p, w).value.body.Service? && Exposure(p, w).value.body.loadBalancer
    ensures p.isOpenShift && w.spec.tls.routeHostname == "tls:" + host ==>
              Exposure(p, w).Some? && Exposure(p, w).value.body == Route(host, "", true, [])
    ensures p.isOpenShift && w.spec.tls.routeHostname == host != "" && host != "NONE" && !("tls" <= host) ==>
              Exposure(p, w).Some? && Exposure(p, w).value.body == Route(host, "", false, [])
    ensures p.isOpenShift && w.spec.tls.routeHostname == "" ==>
              Exposure(p, w).Some?
              && Exposure(p, w).value.body == Route("", w.spec.applicationName + "." + w.ns, false, [])
    ensures p.isOpenShift && w.spec.tls.routeHostname == "NONE" ==> Exposure(p, w).None?
  {
    var name := "tls:" + host;
    assert name[..3] == "tls" && name[4..] == host && "NONE"[0] != "tls"[0];
  }

  /* ---------- edits ---------- */

  /** An edit of any one field but the replica count is rolled out: without failures, a workload that carries the
      digest of the resource before the edit is generated anew exactly if the edit changed the field, and then has
      the specification of the resource after it. */
  lemma EditIsRolledOut(p: Platform, f: Field, s: Api, v: WebServer, w: WebServer, image: string)
    requires v.labels == w.labels && AgreeBut(f, v.spec, w.spec) && Told(p.hashing, f, v.spec, w.spec)
    requires NoCollision(p.hashing, HashInput(p.hashing, v), HashInput(p.hashing, w))
    requires s.script == [] && TargetRef(w) in s.objects && s.objects[TargetRef(w)].body.Workload?
    requires LabelOf(s.objects[TargetRef(w)].meta.labels, "webserver-hash") == WebServerHash(p.hashing, v)
    ensures var t, found := ContinueWith(s, GoalFor(p, w, image)), s.objects[TargetRef(w)];
            && (t.flow == Return(RequeueAfter(500), None) <==> !SameField(f, v.spec, w.spec))
            && (!SameField(f, v.spec, w.spec) ==>
                  && TargetRef(w) in t.api.objects
                  && t.api.log == s.log + [Read(found), Updated(found, t.api.objects[TargetRef(w)])]
                  && t.api.objects[TargetRef(w)].body == found.body.(spec := SpecOfWorkload(p, w, image))
                  && AsSpecified(p, w, t.api.objects[TargetRef(w)], image))
  {
    DigestSeesField(p.hashing, f, v, w);
    HashIsNeverEmpty(p.hashing, v);
    GoalIsForTarget(p, w, image);
    GoalAsSpecified(p, w, image);
    KindOfTarget(w, s.objects[TargetRef(w)]);
    RegeneratedIs(p, w, GoalFor(p, w, image), image, s.objects[TargetRef(w)]);
    StaleIsRegenerated(s, GoalFor(p, w, image), TargetRef(w));
    GoalSpec(p, w, image);
  }

  lemma GoalSpec(p: Platform, w: WebServer, image: string)
    ensures GoalFor(p, w, image).spec == SpecOfWorkload(p, w, image)
  {
  }

  lemma StaleIsRegenerated(s: Api, g: WorkloadGoal, target: Ref)
    requires IsFor(g, target) && s.script == [] && target in s.objects && s.objects[target].body.Workload?
    requires DigestOf(s.objects[target]) != ""
    ensures var t, found := ContinueWith(s, g), s.objects[target];
            && (t.flow == Return(RequeueAfter(500), None) <==> DigestOf(found) != g.hash)
            && (DigestOf(found) != g.hash ==>
                  && target in t.api.objects && t.api.objects[target] == Regenerated(g, found)
                  && t.api.log == s.log + [Read(found), Updated(found, Regenerated(g, found))])
  {
    var found := s.objects[target];
    assert found.Id() == target;
    StableNeedsNoRepairId(g, found);
  }

  /** An edit of the image stream is built: without failures, a BuildConfig that carries the source digest of the
      resource before the edit is overwritten and a build of it started exactly if the edit changed the stream. */
  lemma SourceEditIsBuilt(p: Platform, s: Api, v: WebServer, w: WebServer)
    requires Told(p.hashing, StreamField, v.spec, w.spec) && BuildsStream(w) && s.script == []
    requires NoCollision(p.hashing, p.hashing.json(WebImageStreamPart(v.spec.webImageStream)),
                         p.hashing.json(WebImageStreamPart(w.spec.webImageStream)))
    requires BuildRef(w) in s.objects
    requires LabelOf(s.objects[BuildRef(w)].meta.labels, "web-image-source-hash") == WebImageStreamHash(p.hashing, v)
    ensures var t, found := UpdateBuild(s, SourceBuild(p, w)).api, s.objects[BuildRef(w)];
            if v.spec.webImageStream == w.spec.webImageStream then t.log == s.log + [Read(found)]
            else
              && BuildRef(w) in t.objects
              && t.log == s.log + [Read(found), Updated(found, t.objects[BuildRef(w)]), Instantiated(BuildRef(w))]
              && t.objects[BuildRef(w)].body.BuildConfig?
              && t.objects[BuildRef(w)].body.sources == w.spec.webImageStream.value.sources.value
  {
    SourceDigestSeesStream(p.hashing, v, w);
    assert SourceBuild(p, w).Id() == BuildRef(w);
  }
}
