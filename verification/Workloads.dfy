/** `continueWithDeployment` and `continueWithStatefulSet`: create, stamp, regenerate, repair or leave a workload. */
module Workloads {
  import opened WebServerApi
  import opened Digest
  import opened ClusterObjects
  import opened Templates
  import opened Generators
  import opened ClientApi
  import opened Steps

  /** The stored digest label, with which the object was generated. */
  function DigestOf(o: Object): string {
    LabelOf(o.meta.labels, HASH)
  }

  function Stamped(g: WorkloadGoal, o: Object): Object {
    if DigestOf(o) == "" then Object(o.meta.(labels := o.meta.labels[HASH := g.hash]), o.body) else o
  }

  predicate Drifted(g: WorkloadGoal, image: string) {
    g.fixedImage.Some? && g.fixedImage.value != image
  }

  function WithImage(g: WorkloadGoal, o: Object): Object
    requires o.body.Workload?
  {
    if Drifted(g, o.body.spec.template.image) then
      Object(o.meta, o.body.(spec := o.body.spec.(template := o.body.spec.template.(image := g.fixedImage.value))))
    else o
  }

  function Scaled(o: Object, replicas: int32): Object
    requires o.body.Workload?
  {
    Object(o.meta, o.body.(spec := o.body.spec.(replicas := replicas)))
  }

  /** The stored object with its digest stamped if it had none, its image fixed and its replicas set. */
  function Repaired(g: WorkloadGoal, o: Object): Object
    requires o.body.Workload?
  {
    Scaled(WithImage(g, Stamped(g, o)), g.replicas)
  }

  /** The stored object generated anew; what other controllers observed of it stays. */
  function Regenerated(g: WorkloadGoal, o: Object): Object
    requires o.body.Workload?
  {
    Object(g.meta, o.body.(spec := g.spec))
  }

  /** What becomes of a workload found. */
  function Remade(g: WorkloadGoal, found: Object): Object
    requires found.body.Workload?
  {
    if DigestOf(found) != "" && DigestOf(found) != g.hash then Regenerated(g, found) else Repaired(g, found)
  }

  /** A label cannot be written into the nil label map of an object without labels; and the branch for a
      StatefulSet dereferences the image without testing it. */
  predicate RepairCrashes(g: WorkloadGoal, o: Object)
    requires o.body.Workload?
  {
    || (DigestOf(o) == "" && o.meta.labels == map[])
    || (o.body.kind == WorkloadKind.StatefulSet && !g.fromImage)
  }

  function RepairWorkload(s: Api, g: WorkloadGoal, found: Object): Out
    requires found.body.Workload?
  {
    if DigestOf(found) != "" && DigestOf(found) != g.hash then
      var (t, err) := UpdateCall(s, Regenerated(g, found));
      Out(t, if err.Some? && err.value != Conflict then Next else Return(RequeueAfter(500), None))
    else if RepairCrashes(g, found) then Out(s, Return(Empty, Some(Crash)))
    else if Repaired(g, found) != found then
      var (t, err) := UpdateCall(s, Repaired(g, found));
      Out(t, if err.Some? && err.value != Conflict then Return(Empty, Some(ApiError(err.value)))
             else Return(Requeue, None))
    else Out(s, Next)
  }

  function ContinueWith(s: Api, g: WorkloadGoal): Out
    requires g.created.body.Workload?
  {
    var e := EnsureObject(s, g.created);
    if e.flow.Return? then Out(e.api, e.flow) else RepairWorkload(e.api, g, e.found)
  }

  /* ---------- the methods ---------- */

  /** The variables as `generateEnvVars` makes them from the slice of the specification. */
  method GenerateEnv(p: Platform, w: WebServer) returns (variables: seq<EnvVar>)
    ensures variables == EnvVars(p, w)
  {
    var user := Append(w.spec.env, []);
    var env := GenerateEnvVars(p, w, user);
    variables := env[..];
  }

  method GeneratePodTemplate(p: Platform, w: WebServer, image: string) returns (template: PodTemplate)
    ensures template == Template(p, w, image)
  {
    var labels := LabelsForWeb(w);
    var hash := GetWebServerHash(p.hashing, w);
    labels := labels[HASH := hash];
    var env := GenerateEnv(p, w);
    var mounts := GenerateVolumeMounts(w);
    var volumes := GenerateVolumes(w);
    template := PodTemplate(
      labels, w.spec.applicationName, image,
      if HasReadiness(w) then ScriptProbe("/opt/probe/readinessProbeScript.sh") else HealthPath,
      if HasLiveness(w) then ScriptProbe("/opt/probe/livenessProbeScript.sh") else HealthPath,
      w.spec.podResources, w.spec.securityContext, env, mounts, volumes, PullSecrets(w), None);
    if w.spec.isNotJWS {
      template := template.(startScript := Some("/opt/start/start.sh"));
    }
  }

  method GenerateSpec(p: Platform, w: WebServer, image: string) returns (spec: WorkloadSpec)
    ensures spec == SpecOfWorkload(p, w, image)
  {
    var template := GeneratePodTemplate(p, w, image);
    spec := WorkloadSpec(w.spec.replicas, SelectorLabels(w), template, [], false);
    if WantedKind(w) == WorkloadKind.StatefulSet {
      var claims := GeneratePersistentVolumeClaims(w);
      spec := spec.(claims := claims);
    }
  }

  method GenerateMeta(p: Platform, w: WebServer, hash: string) returns (meta: Meta, triggers: Labels)
    requires hash == WebServerHash(p.hashing, w)
    ensures meta == WorkloadMeta(p, w) && triggers == TriggersOf(w)
  {
    meta := Owned(w, w.spec.applicationName).(labels := LabelsForWeb(w)[HASH := hash]);
    triggers := map[];
    if w.spec.webImage.None? { triggers := TriggerAnnotations(w.spec.applicationName); }
  }

  method GenerateWorkload(p: Platform, w: WebServer, image: string) returns (g: WorkloadGoal)
    ensures g == GoalFor(p, w, image)
  {
    var hash := GetWebServerHash(p.hashing, w);
    var meta, triggers := GenerateMeta(p, w, hash);
    var spec := GenerateSpec(p, w, image);
    g := AssembleGoal(w, hash, meta, triggers, spec);
  }

  /** The two generators of either kind, side by side: what to create, and what to overwrite with. */
  method AssembleGoal(w: WebServer, hash: string, meta: Meta, triggers: Labels, spec: WorkloadSpec)
    returns (g: WorkloadGoal)
    requires spec.replicas == w.spec.replicas && !spec.deleteClaims && meta.annotations == map[]
    ensures g == Goal(WantedKind(w), hash, meta, triggers, spec, DeletesClaims(w), FixedImage(w), w.spec.webImage.Some?)
  {
    var kind := WantedKind(w);
    var created, createdMeta := spec, meta;
    if kind == WorkloadKind.Deployment {
      createdMeta := meta.(annotations := triggers);
    } else if w.spec.volume.Some? && w.spec.volume.value.deleteCreatedClaims {
      created := created.(deleteClaims := true);
    }
    g := WorkloadGoal(hash, Object(createdMeta, Workload(kind, created, 0)), meta.(annotations := triggers), spec,
                      FixedImage(w), w.spec.replicas, w.spec.webImage.Some?);
  }

  method ContinueWithWorkload(p: Platform, r: Client, w: WebServer, image: string) returns (flow: Flow)
    modifies r`objects, r`script, r`log
    ensures Out(r.State(), flow) == ContinueWith(old(r.State()), GoalFor(p, w, image))
  {
    var g := GenerateWorkload(p, w, image);
    flow := CreateOrRepair(r, g);
  }

  method CreateOrRepair(r: Client, g: WorkloadGoal) returns (flow: Flow)
    requires g.created.body.Workload?
    modifies r`objects, r`script, r`log
    ensures Out(r.State(), flow) == ContinueWith(old(r.State()), g)
  {
    var workload;
    flow, workload := CreateIfMissing(r, g.created);
    if flow.Return? { return; }
    ghost var found := workload;
    var changed := false;
    if DigestOf(workload) == "" {
      if workload.meta.labels == map[] { return Return(Empty, Some(Crash)); }
      if workload.body.kind == WorkloadKind.StatefulSet && !g.fromImage { return Return(Empty, Some(Crash)); }
      changed := g.hash != "" || HASH !in workload.meta.labels;
      workload := Object(workload.meta.(labels := workload.meta.labels[HASH := g.hash]), workload.body);
    } else if DigestOf(workload) != g.hash {
      workload := Object(g.meta, workload.body.(spec := g.spec));
      var err := r.Update(workload);
      if err.Some? && err.value != Conflict { return Next; }
      return Return(RequeueAfter(500), None);
    } else if workload.body.kind == WorkloadKind.StatefulSet && !g.fromImage {
      return Return(Empty, Some(Crash));
    }
    assert workload == Stamped(g, found) && (changed <==> workload != found);
    if g.fixedImage.Some? && g.fixedImage.value != workload.body.spec.template.image {
      workload := Object(workload.meta, workload.body.(spec := workload.body.spec.(
      template := workload.body.spec.template.(image := g.fixedImage.value))));
      changed := true;
    }
    assert workload == WithImage(g, Stamped(g, found)) && (changed <==> workload != found);
    if workload.body.spec.replicas != g.replicas {
      workload := Object(workload.meta, workload.body.(spec := workload.body.spec.(replicas := g.replicas)));
      changed := true;
    }
    assert workload == Repaired(g, found) && (changed <==> workload != found);
    if changed {
      var err := r.Update(workload);
      if err.Some? && err.value != Conflict { return Return(Empty, Some(ApiError(err.value))); }
      return Return(Requeue, None);
    }
    flow := Next;
  }

  /* ---------- one-write stabilisation ---------- */

  /** Nothing is left to repair: the digest is current, the image is the specified one, and so are the replicas. */
  ghost predicate Stable(g: WorkloadGoal, o: Object) {
    && o.body.Workload?
    && DigestOf(o) == g.hash
    && !Drifted(g, o.body.spec.template.image)
    && o.body.spec.replicas == g.replicas
  }

  ghost predicate IsGoal(g: WorkloadGoal) {
    && g.hash != ""
    && Stable(g, g.created)
    && Stable(g, Object(g.meta, g.created.body.(spec := g.spec)))
    && Object(g.meta, g.created.body).Id() == g.created.Id()
    && g.created.body.spec.(deleteClaims := false) == g.spec.(deleteClaims := false)
    && g.created.meta.(annotations := map[]) == g.meta.(annotations := map[])
  }

  /** The image an image deployment runs. */
  function DeployedImage(w: WebServer): string
    requires w.spec.webImage.Some?
  {
    if w.spec.webImage.value.webApp.Some? then w.spec.webImage.value.webApp.value.warImage
    else w.spec.webImage.value.applicationImage
  }

  /** The image given to the workload helper: that of the specification, or any of an image stream. */
  predicate ImageFor(w: WebServer, image: string) {
    w.spec.webImage.Some? ==> image == DeployedImage(w)
  }

  function TargetRef(w: WebServer): Ref {
    Ref(KindOf(WantedKind(w)), w.ns, w.spec.applicationName)
  }

  lemma GoalIsSound(kind: WorkloadKind, hash: string, meta: Meta, triggers: Labels, spec: WorkloadSpec,
                    deleteClaims: bool, fixedImage: Option<string>, fromImage: bool)
    requires hash != "" && LabelOf(meta.labels, HASH) == hash && meta.annotations == map[]
    requires fixedImage.Some? ==> fixedImage.value == spec.template.image
    requires !spec.deleteClaims
    ensures var g := Goal(kind, hash, meta, triggers, spec, deleteClaims, fixedImage, fromImage);
            && IsGoal(g) && g.created.Id() == Ref(KindOf(kind), meta.ns, meta.name) && g.created.body.kind == kind
            && g.hash == hash && g.fromImage == fromImage && g.replicas == spec.replicas && g.fixedImage == fixedImage
            && g.created.meta.owner == g.meta.owner == meta.owner
  {
  }

  lemma GoalKeepsItsName(kind: WorkloadKind, hash: string, meta: Meta, triggers: Labels, spec: WorkloadSpec,
                         deleteClaims: bool, fixedImage: Option<string>, fromImage: bool)
    ensures var g := Goal(kind, hash, meta, triggers, spec, deleteClaims, fixedImage, fromImage);
            Object(g.meta, g.created.body).Id() == g.created.Id() == Ref(KindOf(kind), meta.ns, meta.name)
  {
  }

  /** Every goal is for the wanted kind and name, whatever the image. */
  lemma GoalIsForTarget(p: Platform, w: WebServer, image: string)
    ensures Object(GoalFor(p, w, image).meta, GoalFor(p, w, image).created.body).Id()
            == GoalFor(p, w, image).created.Id() == TargetRef(w)
  {
    GoalKeepsItsName(WantedKind(w), WebServerHash(p.hashing, w), WorkloadMeta(p, w), TriggersOf(w),
                     SpecOfWorkload(p, w, image), DeletesClaims(w), FixedImage(w), w.spec.webImage.Some?);
    assert WorkloadMeta(p, w).ns == w.ns && WorkloadMeta(p, w).name == w.spec.applicationName;
  }

  lemma PartsOfTheGoal(p: Platform, w: WebServer, image: string)
    ensures var spec, meta := SpecOfWorkload(p, w, image), WorkloadMeta(p, w);
            && spec.template == Template(p, w, image) && spec.template.image == image
            && spec.replicas == w.spec.replicas && !spec.deleteClaims
            && spec.selector == SelectorLabels(w)
            && LabelOf(meta.labels, HASH) == WebServerHash(p.hashing, w) && meta.annotations == map[]
            && meta.name == w.spec.applicationName && meta.ns == w.ns && meta.owner == Some(w.uid)
  {
  }

  /** The creating and the updating generator agree, and what they generate needs no repair. */
  lemma GoalsAreSound(p: Platform, w: WebServer, image: string)
    requires ImageFor(w, image)
    ensures var g := GoalFor(p, w, image);
            && IsGoal(g) && g.created.Id() == TargetRef(w) && g.created.body.kind == WantedKind(w)
            && g.hash == WebServerHash(p.hashing, w) && g.fromImage == w.spec.webImage.Some?
            && g.replicas == w.spec.replicas && g.fixedImage == FixedImage(w)
            && g.created.meta.owner == g.meta.owner == Some(w.uid)
  {
    HashIsNeverEmpty(p.hashing, w);
    PartsOfTheGoal(p, w, image);
    assert FixedImage(w).Some? ==> FixedImage(w).value == image;
    GoalIsSound(WantedKind(w), WebServerHash(p.hashing, w), WorkloadMeta(p, w), TriggersOf(w),
                SpecOfWorkload(p, w, image), DeletesClaims(w), FixedImage(w), w.spec.webImage.Some?);
  }

  lemma StableNeedsNoRepair(g: WorkloadGoal, o: Object)
    requires o.body.Workload? && g.hash != ""
    ensures Stable(g, o) <==> DigestOf(o) == g.hash && Repaired(g, o) == o
    ensures DigestOf(o) == "" || DigestOf(o) == g.hash ==> Stable(g, Repaired(g, o))
    ensures Repaired(g, o).Id() == o.Id()
  {
  }

  /** Without failures, a call that does not crash leaves a stable workload of the wanted kind and name and touches
      nothing else; it goes on exactly when there was nothing to repair. */
  lemma FaithfulContinue(s: Api, g: WorkloadGoal)
    requires s.script == [] && IsGoal(g)
    ensures var t, target := ContinueWith(s, g), g.created.Id();
            && t.api.script == [] && t.api.server == s.server
            && (t.flow == Return(Empty, Some(Crash)) ==> t.api.objects == s.objects)
            && (t.flow != Return(Empty, Some(Crash)) ==>
                  && target in t.api.objects && Stable(g, t.api.objects[target])
                  && t.api.objects == s.objects[target := t.api.objects[target]])
            && (t.flow.Next? <==>
                  target in s.objects && Stable(g, s.objects[target]) && !RepairCrashes(g, s.objects[target]))
            && (t.flow.Next? ==> t.api.objects == s.objects)
            && (t.flow.Next? || t.flow == Return(Empty, Some(Crash)) || t.api.objects != s.objects)
            && t.flow in {Next, Return(Requeue, None), Return(RequeueAfter(500), None), Return(Empty, Some(Crash))}
  {
    var target := g.created.Id();
    if target in s.objects {
      var found := s.objects[target];
      assert found.Id() == target;
      StableNeedsNoRepair(g, found);
      assert Regenerated(g, found).Id() == target && Stable(g, Regenerated(g, found));
    }
  }

  /** What becomes of the pass when the update is answered: a workload of another digest is taken up again after half a
      second, also on a conflict, but any other refusal lets the pass go on with the old one; for the other repairs a
      conflict means at once, and any other refusal is the pass's failure. */
  lemma UpdateAnswers(s: Api, g: WorkloadGoal, found: Object)
    requires found.body.Workload? && |RepairWorkload(s, g, found).api.log| > |s.log|
    ensures var t, stale := RepairWorkload(s, g, found), DigestOf(found) !in {"", g.hash};
            |t.api.log| == |s.log| + 1
            && match t.api.log[|s.log|]
               case Updated(_, obj) => t.flow == Return(if stale then RequeueAfter(500) else Requeue, None)
               case Refused(verb, _, err) =>
                 && verb == UPDATE
                 && t.flow == if err == Conflict then Return(if stale then RequeueAfter(500) else Requeue, None)
                              else if stale then Next
                              else Return(Empty, Some(ApiError(err)))
               case _ => false
  {
    var obj := if DigestOf(found) in {"", g.hash} then Repaired(g, found) else Regenerated(g, found);
    UpdateIsLogged(s, obj);
    assert RepairWorkload(s, g, found).api in {s, UpdateCall(s, obj).0};
  }

  lemma UpdateIsLogged(s: Api, obj: Object)
    ensures var (t, err) := UpdateCall(s, obj);
            && |t.log| == |s.log| + 1
            && if err.None? then t.log[|s.log|].Updated?
               else t.log[|s.log|] == Refused(UPDATE, Some(obj.Id()), err.value)
  {
  }

  lemma CrashIsStill(s: Api, g: WorkloadGoal)
    requires s.script == [] && IsGoal(g)
    ensures ContinueWith(s, g).flow == Return(Empty, Some(Crash)) <==>
            g.created.Id() in s.objects && var o := s.objects[g.created.Id()];
            (DigestOf(o) == "" || DigestOf(o) == g.hash) && RepairCrashes(g, o)
  {
  }

  /** The next pass finds everything in order: it writes nothing, goes on, and digest, image and replicas are
      those of the specification. */
  ghost predicate Settled(s: Api, g: WorkloadGoal)
    requires g.created.body.Workload?
  {
    && ContinueWith(s, g).flow.Next? && ContinueWith(s, g).api.objects == s.objects
    && g.created.Id() in s.objects && Stable(g, s.objects[g.created.Id()])
  }

  /** One failure-free call settles any stored workload, or none, however it was made. The exact exceptions are an
      existing object without any label, and a StatefulSet that is not deployed from an image. */
  lemma OneWriteStabilises(p: Platform, s: Api, w: WebServer, image: string)
    requires s.script == [] && ImageFor(w, image)
    ensures Settled(ContinueWith(s, GoalFor(p, w, image)).api, GoalFor(p, w, image)) <==>
            !(TargetRef(w) in s.objects && s.objects[TargetRef(w)].meta.labels == map[])
            && !(WantedKind(w) == WorkloadKind.StatefulSet && w.spec.webImage.None?)
  {
    GoalsAreSound(p, w, image);
    OneWriteSettles(s, GoalFor(p, w, image));
  }

  lemma OneWriteSettles(s: Api, g: WorkloadGoal)
    requires s.script == [] && IsGoal(g)
    ensures Settled(ContinueWith(s, g).api, g) <==>
            !(g.created.Id() in s.objects && s.objects[g.created.Id()].meta.labels == map[])
            && !(g.created.body.kind == WorkloadKind.StatefulSet && !g.fromImage)
  {
    var once, target := ContinueWith(s, g).api, g.created.Id();
    FaithfulContinue(s, g);
    FaithfulContinue(once, g);
    CrashIsStill(s, g);
    if target in s.objects { assert s.objects[target].Id() == target; }
    if target in once.objects { assert once.objects[target].Id() == target; }
  }

  /** Scaling never regenerates: when the replica count of the specification is all that changed since the object
      was settled, it is all that changes in the object, whatever fails. */
  lemma ScalingKeepsTheTemplate(p: Platform, s: Api, v: WebServer, w: WebServer, i: string, j: string)
    requires ImageFor(v, i) && ImageFor(w, j)
    requires Unscaled(v) == Unscaled(w) && v.name == w.name && v.ns == w.ns
    requires TargetRef(v) in s.objects && Stable(GoalFor(p, v, i), s.objects[TargetRef(v)])
    ensures TargetRef(w) == TargetRef(v) && WebServerHash(p.hashing, w) == WebServerHash(p.hashing, v)
    ensures var t := ContinueWith(s, GoalFor(p, w, j)).api;
            TargetRef(v) in t.objects
            && t.objects[TargetRef(v)] in {s.objects[TargetRef(v)], Scaled(s.objects[TargetRef(v)], w.spec.replicas)}
  {
    UnscaledWantsAlike(p, v, w);
    GoalsAreSound(p, v, i);
    GoalsAreSound(p, w, j);
    ScaledGoalKeepsTheTemplate(s, GoalFor(p, v, i), GoalFor(p, w, j));
  }

  lemma UnscaledWantsAlike(p: Platform, v: WebServer, w: WebServer)
    requires Unscaled(v) == Unscaled(w) && v.name == w.name && v.ns == w.ns
    ensures TargetRef(w) == TargetRef(v) && FixedImage(w) == FixedImage(v)
    ensures WebServerHash(p.hashing, w) == WebServerHash(p.hashing, v)
  {
    HashOfUnscaled(p.hashing, v, w);
    assert v.spec.(replicas := 0) == w.spec.(replicas := 0);
  }

  lemma ScaledGoalKeepsTheTemplate(s: Api, g: WorkloadGoal, h: WorkloadGoal)
    requires IsGoal(g) && IsGoal(h)
    requires g.created.Id() == h.created.Id() && g.hash == h.hash && g.fixedImage == h.fixedImage
    requires g.created.Id() in s.objects && Stable(g, s.objects[g.created.Id()])
    ensures var t := ContinueWith(s, h).api;
            g.created.Id() in t.objects
            && t.objects[g.created.Id()] in {s.objects[g.created.Id()], Scaled(s.objects[g.created.Id()], h.replicas)}
  {
    var found := s.objects[g.created.Id()];
    assert found.Id() == g.created.Id();
    assert Repaired(h, found) == Scaled(found, h.replicas);
    assert Scaled(found, h.replicas).Id() == found.Id();
  }
}
