/** What a pass may do to workloads whatever the API answers: when one is written, and when one is deleted. */
module Safety {
  import opened WebServerApi
  import opened ClusterObjects
  import opened Templates
  import opened ClientApi
  import opened Steps
  import opened KubePing
  import opened Workloads
  import opened Builds
  import opened Cleanup
  import opened PodReport
  import opened Controller

  /* ---------- the parts that only support ---------- */

  /** The same resource but for its annotations. */
  predicate SameResource(v: WebServer, w: WebServer) {
    v == w.(annotations := v.annotations)
  }

  lemma MonitorsAreSupport(p: Platform, w: WebServer)
    ensures AllSupport(MonitorSteps(p, w))
  {
  }

  lemma SupportIsSupport(w: WebServer)
    ensures AllSupport(SupportSteps(w))
  {
    AppendSupport(ScriptSteps(w), LivenessSteps(w));
    AppendSupport(ScriptSteps(w) + LivenessSteps(w), ReadinessSteps(w));
    AppendSupport(ScriptSteps(w) + LivenessSteps(w) + ReadinessSteps(w), StartSteps(w));
    AppendSupport(ScriptSteps(w) + LivenessSteps(w) + ReadinessSteps(w) + StartSteps(w), LogSteps(w));
  }

  lemma AppendSupport(a: seq<Step>, b: seq<Step>)
    requires AllSupport(a) && AllSupport(b)
    ensures AllSupport(a + b)
  {
  }

  /** Nothing but support, and perhaps the annotation decided. */
  ghost predicate Supports(s: Api, w: WebServer, d: Decision) {
    && Grows(s, d.api)
    && (d.w == w || (w.spec.useSessionClustering && NeedUseKUBEPing(w)
                     && d.w in {Annotated(w, true), Annotated(w, false)}))
    && (d.api.server == s.server || (d.w != w && d.api.server == Some(d.w)))
  }

  lemma SupportsAfter(s: Api, t: Api, w: WebServer, d: Decision)
    requires Grows(s, t) && t.server == s.server && Supports(t, w, d)
    ensures Supports(s, w, d)
  {
  }

  lemma DecideAfterEffect(s: Api, w: WebServer, monitors: seq<Step>, usable: bool, routing: Object)
    requires AllSupport(monitors) && !IsCore(routing.Id())
    ensures Supports(s, w, DecideAfter(s, w, monitors, usable, routing))
    ensures DecideAfter(s, w, monitors, usable, routing).flow.Next? ==> usable
  {
    var monitored := RunSteps(s, monitors);
    StepsGrow(s, monitors);
    if monitored.flow.Next? && usable {
      StepGrows(monitored.api, Ensure(routing));
      var routed := RunStep(monitored.api, Ensure(routing));
      GrowsTransitive(s, monitored.api, routed.api);
      if routed.flow.Next? {
        DecideGrows(routed.api, w);
        SupportsAfter(s, routed.api, w, Decide(routed.api, w));
      }
    }
  }

  /** Before the ConfigMaps are written, a pass only adds objects and perhaps decides the annotation. */
  lemma FrontEffect(p: Platform, s: Api, w: WebServer)
    ensures Supports(s, w, Front(p, s, w))
    ensures SameResource(Front(p, s, w).w, w)
    ensures Front(p, s, w).flow.Next? ==> Usable(p, Front(p, s, w).w)
  {
    MonitorsAreSupport(p, w);
    DecideAfterEffect(s, w, MonitorSteps(p, w), Usable(p, w), RoutingService(w));
  }

  lemma ExposureIsSupport(p: Platform, w: WebServer)
    ensures Exposure(p, w).Some? ==> Exposure(p, w).value.Id().kind in {ServiceKind, RouteKind}
  {
  }

  lemma ExposeObjectGrows(s: Api, obj: Object, wait: bool)
    requires !IsCore(obj.Id())
    ensures var e := ExposeObject(s, obj, wait);
            Grows(s, e.api) && e.api.server == s.server && (e.flow.Next? ==> e.api.objects == s.objects)
  {
    StepGrows(s, Ensure(obj));
  }

  lemma ExposeGrows(p: Platform, s: Api, w: WebServer)
    ensures var e := Expose(p, s, w);
            Grows(s, e.api) && e.api.server == s.server && (e.flow.Next? ==> e.api.objects == s.objects)
  {
    if Exposure(p, w).Some? {
      ExposureIsSupport(p, w);
      ExposeObjectGrows(s, Exposure(p, w).value, !p.isOpenShift);
    }
  }

  /** The ConfigMaps, the claim and the exposure are support, too. */
  lemma BackEffect(p: Platform, s: Api, w: WebServer)
    ensures var back := Back(p, s, w);
            && Grows(s, back.api) && back.api.server == s.server
            && (back.flow.Next? ==> RunSteps(s, SupportSteps(w)).flow.Next?
                                    && back.api.objects == RunSteps(s, SupportSteps(w)).api.objects)
  {
    var supported := RunSteps(s, SupportSteps(w));
    SupportIsSupport(w);
    StepsGrow(s, SupportSteps(w));
    if supported.flow.Next? {
      ExposeGrows(p, supported.api, w);
      GrowsTransitive(s, supported.api, Expose(p, supported.api, w).api);
    }
  }

  /* ---------- the rollout ---------- */

  /** A workload is created or updated. */
  predicate IsRollout(e: Event) {
    (e.Created? || e.Updated?) && IsWorkload(e.obj.Id())
  }

  predicate IsRemoval(e: Event) {
    e.Deleted? && IsWorkload(e.obj.Id())
  }

  predicate IsReadOf(e: Event, ref: Ref) {
    e.Read? && e.obj.Id() == ref
  }

  /** The image stream to deploy from does not exist. */
  predicate IsLostStream(e: Event) {
    e.Refused? && e.verb == GET && e.target.Some? && e.target.value.kind == ImageStreamKind && e.err == NotFound
  }

  /** The two answers on which the rollout is skipped without ending the pass. */
  predicate IsSkip(e: Event) {
    IsLostPod(e) || IsLostStream(e)
  }

  /** A part of a pass that touches no workload. */
  ghost predicate LeavesWorkloads(s: Api, t: Api) {
    && s.log <= t.log && t.server == s.server
    && (forall r :: IsWorkload(r) ==> SameAt(s.objects, t.objects, r))
    && (forall i :: |s.log| <= i < |t.log| ==> !IsRollout(t.log[i]) && !IsRemoval(t.log[i]))
  }

  lemma LeavesTransitive(s: Api, t: Api, u: Api)
    requires LeavesWorkloads(s, t) && LeavesWorkloads(t, u)
    ensures LeavesWorkloads(s, u)
  {
  }

  lemma GrowingLeavesWorkloads(s: Api, t: Api)
    requires Grows(s, t) && t.server == s.server
    ensures LeavesWorkloads(s, t)
  {
  }

  lemma PodGateLeavesWorkloads(s: Api, pod: Object)
    requires pod.body.Pod?
    ensures LeavesWorkloads(s, GatePod(s, pod).api)
  {
    PodGateIsSafe(s, pod);
    var t := GatePod(s, pod).api;
    forall i | |s.log| <= i < |t.log| ensures !IsRollout(t.log[i]) && !IsRemoval(t.log[i]) {
      assert IsPodEvent(t.log[i]);
    }
  }

  /** The gate opened on a succeeded pod of the current digest, or was skipped as a stale pod was gone already. */
  ghost predicate OpensOnSuccess(s: Api, g: Gate, pod: Object) {
    && LeavesWorkloads(s, g.api)
    && (g.flow.Next? ==> |g.api.log| > |s.log|
                         && if g.open then IsSuccess(g.api.log[|g.api.log| - 1], pod)
                            else IsLostPod(g.api.log[|g.api.log| - 1]))
    && (g.open ==> g.flow.Next?)
  }

  lemma PodGateOpensOnSuccess(s: Api, pod: Object)
    requires pod.body.Pod?
    ensures OpensOnSuccess(s, GatePod(s, pod), pod)
  {
    PodGateLeavesWorkloads(s, pod);
    PodGateIsSafe(s, pod);
  }

  lemma GateAfterSupport(s: Api, t: Api, g: Gate, pod: Object)
    requires LeavesWorkloads(s, t) && OpensOnSuccess(t, g, pod)
    ensures OpensOnSuccess(s, g, pod)
  {
  }

  lemma ApplyLeavesWorkloads(s: Api, obj: Object)
    requires !IsCore(obj.Id())
    ensures LeavesWorkloads(s, ApplyObject(s, obj).api)
  {
    StepGrows(s, Apply(obj));
    GrowingLeavesWorkloads(s, ApplyObject(s, obj).api);
  }

  lemma BuildGateIsSafe(s: Api, b: BuildGoal)
    requires b.pod.body.Pod? && (b.script.Some? ==> !IsCore(b.script.value.Id()))
    ensures OpensOnSuccess(s, GateBuild(s, b), b.pod)
  {
    if b.script.None? {
      PodGateOpensOnSuccess(s, b.pod);
    } else {
      var applied := ApplyObject(s, b.script.value);
      ApplyLeavesWorkloads(s, b.script.value);
      if applied.flow.Next? {
        PodGateOpensOnSuccess(applied.api, b.pod);
        GateAfterSupport(s, applied.api, GatePod(applied.api, b.pod), b.pod);
      }
    }
  }

  lemma GetLeavesWorkloads(s: Api, ref: Ref)
    ensures LeavesWorkloads(s, GetCall(s, ref).0)
  {
  }

  lemma CreateLeavesWorkloads(s: Api, obj: Object)
    requires !IsWorkload(obj.Id())
    ensures LeavesWorkloads(s, CreateCall(s, obj).0)
  {
  }

  lemma UpdateLeavesWorkloads(s: Api, obj: Object)
    requires !IsWorkload(obj.Id())
    ensures LeavesWorkloads(s, UpdateCall(s, obj).0)
  {
  }

  lemma InstantiateLeavesWorkloads(s: Api, ref: Ref)
    ensures LeavesWorkloads(s, InstantiateCall(s, ref).0)
  {
  }

  lemma BuildConfigGateIsSafe(s: Api, build: Object)
    requires !IsWorkload(build.Id())
    ensures LeavesWorkloads(s, UpdateBuild(s, build).api)
  {
    var t := GetCall(s, build.Id()).0;
    var u, v := UpdateCall(t, build).0, CreateCall(t, build).0;
    var x := InstantiateCall(u, build.Id()).0;
    GetLeavesWorkloads(s, build.Id());
    CreateLeavesWorkloads(t, build);
    UpdateLeavesWorkloads(t, build);
    InstantiateLeavesWorkloads(u, build.Id());
    LeavesTransitive(s, t, v);
    LeavesTransitive(s, t, u);
    LeavesTransitive(s, u, x);
    assert UpdateBuild(s, build).api in {t, u, v, x};
  }

  lemma BuildConfigGateOpens(s: Api, build: Object)
    ensures UpdateBuild(s, build).open <==> UpdateBuild(s, build).flow.Next?
  {
  }

  lemma ReadLeavesWorkloads(s: Api, ref: Ref)
    requires ref.kind == ImageStreamKind
    ensures var (t, reply) := GetCall(s, ref);
            && LeavesWorkloads(s, t)
            && t.objects == s.objects
            && (reply == Fail(NotFound) ==> |t.log| > |s.log| && IsLostStream(t.log[|t.log| - 1]))
  {
  }

  lemma PrepareBuildIsSafe(s: Api, stream: Object, build: Object)
    requires stream.Id().kind == ImageStreamKind && build.Id().kind == BuildConfigKind
    ensures var g := PrepareBuild(s, stream, build);
            && LeavesWorkloads(s, g.api)
            && (g.flow.Next? && !g.open ==> |g.api.log| > |s.log| && IsLostStream(g.api.log[|g.api.log| - 1]))
            && (g.open ==> g.flow.Next?)
  {
    var e := EnsureObject(s, stream);
    StepGrows(s, Ensure(stream));
    GrowingLeavesWorkloads(s, e.api);
    if e.flow.Next? {
      var t := GetCall(e.api, stream.Id()).0;
      ReadLeavesWorkloads(e.api, stream.Id());
      LeavesTransitive(s, e.api, t);
      BuildConfigGateIsSafe(t, build);
      BuildConfigGateOpens(t, build);
      LeavesTransitive(s, t, UpdateBuild(t, build).api);
    }
  }

  lemma DeleteLeavesWorkloads(s: Api, ref: Ref)
    requires !IsWorkload(ref)
    ensures LeavesWorkloads(s, DeleteCall(s, ref).0)
  {
  }

  lemma DropBuildIsSafe(s: Api, ref: Ref)
    requires ref.kind == BuildConfigKind
    ensures LeavesWorkloads(s, DropBuild(s, ref))
  {
    var t := GetCall(s, ref).0;
    GetLeavesWorkloads(s, ref);
    DeleteLeavesWorkloads(t, ref);
    LeavesTransitive(s, t, DeleteCall(t, ref).0);
  }

  /** Only the goal's workload is touched, and it is there when the pass goes on. */
  ghost predicate RollsOnly(s: Api, t: Api, target: Ref) {
    && s.log <= t.log && t.server == s.server
    && (forall r :: r != target ==> SameAt(s.objects, t.objects, r))
    && (target in s.objects ==> target in t.objects)
    && (forall i :: |s.log| <= i < |t.log| ==>
                      || t.log[i].Refused?
                      || ((t.log[i].Read? || t.log[i].Created? || t.log[i].Updated?) && t.log[i].obj.Id() == target))
  }

  lemma RollsTransitive(s: Api, t: Api, u: Api, target: Ref)
    requires RollsOnly(s, t, target) && RollsOnly(t, u, target)
    ensures RollsOnly(s, u, target)
  {
    forall r | r != target ensures SameAt(s.objects, u.objects, r) {
      assert SameAt(s.objects, t.objects, r) && SameAt(t.objects, u.objects, r);
    }
  }

  lemma UpdateRolls(s: Api, obj: Object)
    ensures RollsOnly(s, UpdateCall(s, obj).0, obj.Id())
  {
  }

  lemma EnsureRolls(s: Api, obj: Object)
    ensures RollsOnly(s, EnsureObject(s, obj).api, obj.Id())
  {
    EnsureEffect(s, obj);
  }

  lemma RepairRolls(s: Api, g: WorkloadGoal, found: Object)
    requires found.body.Workload?
    requires Repaired(g, found).Id() == found.Id() == Regenerated(g, found).Id()
    ensures RollsOnly(s, RepairWorkload(s, g, found).api, found.Id())
  {
    UpdateRolls(s, Repaired(g, found));
    UpdateRolls(s, Regenerated(g, found));
  }

  lemma ContinueIsSafe(s: Api, g: WorkloadGoal)
    requires g.created.body.Workload? && Object(g.meta, g.created.body).Id() == g.created.Id()
    ensures var t, target := ContinueWith(s, g), g.created.Id();
            && RollsOnly(s, t.api, target)
            && (t.flow.Next? ==>
                  |t.api.log| > |s.log| && IsReadOf(t.api.log[|s.log|], target) && target in t.api.objects)
  {
    EnsureEffect(s, g.created);
    EnsureRolls(s, g.created);
    var e := EnsureObject(s, g.created);
    if e.flow.Next? {
      StableNeedsNoRepairId(g, e.found);
      RepairRolls(e.api, g, e.found);
      RollsTransitive(s, e.api, ContinueWith(s, g).api, g.created.Id());
    }
  }

  lemma StableNeedsNoRepairId(g: WorkloadGoal, o: Object)
    requires g.created.body.Workload? && o.body.Workload? && o.Id() == g.created.Id()
    requires Object(g.meta, g.created.body).Id() == g.created.Id()
    ensures Repaired(g, o).Id() == g.created.Id() == Regenerated(g, o).Id()
  {
  }

  lemma ContinueMakes(s: Api, g: WorkloadGoal)
    requires IsFor(g, g.created.Id()) && IsWorkload(g.created.Id())
    ensures var t, target := ContinueWith(s, g).api.objects, g.created.Id();
            target in t ==>
              if target in s.objects then
                s.objects[target].body.Workload? && s.objects[target].Id() == target
                && t[target] in {s.objects[target], Remade(g, s.objects[target])}
              else t[target] == g.created
  {
    var target := g.created.Id();
    if target in s.objects {
      var found := s.objects[target];
      assert found.Id() == target;
      StableNeedsNoRepairId(g, found);
      RepairMakes(EnsureObject(s, g.created).api, g, found);
    }
  }

  lemma RepairMakes(s: Api, g: WorkloadGoal, found: Object)
    requires found.body.Workload? && found.Id() in s.objects && s.objects[found.Id()] == found
    requires Repaired(g, found).Id() == found.Id() == Regenerated(g, found).Id()
    ensures var t := RepairWorkload(s, g, found).api.objects;
            && found.Id() in t
            && t[found.Id()] in {found, Remade(g, found)}
  {
  }

  /** What is written is the goal's new workload, or what becomes of the one found. */
  lemma ContinueWrites(s: Api, g: WorkloadGoal)
    requires IsFor(g, g.created.Id()) && IsWorkload(g.created.Id())
    ensures var t, target := ContinueWith(s, g).api, g.created.Id();
            forall i :: |s.log| <= i < |t.log| && IsRollout(t.log[i]) ==>
                          if t.log[i].Created? then t.log[i].obj == g.created
                          else target in s.objects && t.log[i].was == s.objects[target] && t.log[i].was.body.Workload?
                               && t.log[i].obj == Remade(g, t.log[i].was)
  {
    EnsureEffect(s, g.created);
    var target := g.created.Id();
    if target in s.objects {
      var found, e := s.objects[target], EnsureObject(s, g.created);
      assert found.Id() == target;
      StableNeedsNoRepairId(g, found);
      if e.flow.Next? { RepairWrites(e.api, g, found); }
    }
  }

  lemma RepairWrites(s: Api, g: WorkloadGoal, found: Object)
    requires found.body.Workload? && found.Id() in s.objects && s.objects[found.Id()] == found
    requires Repaired(g, found).Id() == found.Id() == Regenerated(g, found).Id()
    ensures var t := RepairWorkload(s, g, found).api;
            && s.log <= t.log
            && forall i :: |s.log| <= i < |t.log| ==>
                             t.log[i].Refused? || t.log[i] == Updated(found, Remade(g, found))
  {
    if DigestOf(found) == "" || DigestOf(found) == g.hash {
      OneUpdate(s, Repaired(g, found));
    } else {
      OneUpdate(s, Regenerated(g, found));
    }
  }

  lemma OneUpdate(s: Api, obj: Object)
    requires obj.Id() in s.objects
    ensures var t := UpdateCall(s, obj).0;
            |t.log| == |s.log| + 1 && s.log <= t.log
            && (t.log[|s.log|].Refused? || t.log[|s.log|] == Updated(s.objects[obj.Id()], obj))
  {
  }

  /** Under any answers a rollout writes only the wanted workload and removes none; it lets the pass go on either
      with that workload read and in place, or skipped, for one of the two reasons. */
  ghost predicate RollsOut(s: Api, t: Out, target: Ref) {
    && s.log <= t.api.log && t.api.server == s.server
    && (forall r :: IsWorkload(r) && r != target ==> SameAt(s.objects, t.api.objects, r))
    && (target in s.objects ==> target in t.api.objects)
    && (forall i :: |s.log| <= i < |t.api.log| ==>
                      !IsRemoval(t.api.log[i]) && (IsRollout(t.api.log[i]) ==> t.api.log[i].obj.Id() == target))
    && (t.flow.Next? ==> Reached(s, t.api, target) || Skipped(s, t.api))
  }

  ghost predicate Reached(s: Api, t: Api, target: Ref) {
    target in t.objects && exists i :: |s.log| <= i < |t.log| && IsReadOf(t.log[i], target)
  }

  ghost predicate Skipped(s: Api, t: Api) {
    exists i :: |s.log| <= i < |t.log| && IsSkip(t.log[i])
  }

  lemma RolloutAfterGate(s: Api, t: Api, g: WorkloadGoal)
    requires LeavesWorkloads(s, t)
    requires g.created.body.Workload? && Object(g.meta, g.created.body).Id() == g.created.Id()
    ensures RollsOut(s, ContinueWith(t, g), g.created.Id())
    ensures ContinueWith(t, g).flow.Next? ==> Reached(s, ContinueWith(t, g).api, g.created.Id())
  {
    ContinueIsSafe(t, g);
    var u, target := ContinueWith(t, g), g.created.Id();
    forall r | IsWorkload(r) && r != target ensures SameAt(s.objects, u.api.objects, r) {
      assert SameAt(s.objects, t.objects, r) && SameAt(t.objects, u.api.objects, r);
    }
    assert IsWorkload(target) && SameAt(s.objects, t.objects, target);
    forall i | |s.log| <= i < |u.api.log|
      ensures !IsRemoval(u.api.log[i]) && (IsRollout(u.api.log[i]) ==> u.api.log[i].obj.Id() == target)
    {
      if i < |t.log| { assert u.api.log[i] == t.log[i]; }
    }
  }

  lemma ClosedGateRollsOut(s: Api, t: Api, flow: Flow, target: Ref)
    requires LeavesWorkloads(s, t) && IsWorkload(target)
    requires flow.Next? ==> |t.log| > |s.log| && IsSkip(t.log[|t.log| - 1])
    ensures RollsOut(s, Out(t, flow), target)
  {
  }

  /** Each write of a workload in the new part of the log comes after the read of a succeeded pod of that digest. */
  ghost predicate SuccessFirst(s: Api, t: Api, pod: Object) {
    forall k :: |s.log| <= k < |t.log| && IsRollout(t.log[k]) ==>
                  exists j :: |s.log| <= j < k && IsSuccess(t.log[j], pod)
  }

  lemma WritesFollowSuccess(s: Api, t: Api, u: Api, pod: Object)
    requires LeavesWorkloads(s, t) && t.log <= u.log
    requires |t.log| > |s.log| && IsSuccess(t.log[|t.log| - 1], pod)
    ensures SuccessFirst(s, u, pod)
  {
  }

  /** The goal is for that workload. */
  ghost predicate IsFor(g: WorkloadGoal, target: Ref) {
    g.created.body.Workload? && Object(g.meta, g.created.body).Id() == g.created.Id() == target
  }

  /** A plan for that workload, whose builds are of the kinds they should be. */
  ghost predicate Targets(plan: Plan, target: Ref) {
    && plan.Valid() && IsWorkload(target)
    && match plan
       case FromImage(build, goal) =>
         && IsFor(goal, target)
         && (build.Some? && build.value.script.Some? ==> !IsCore(build.value.script.value.Id()))
       case FromStream(sources, config, _, goals) =>
         && (forall image :: IsFor(goals(image), target))
         && config.kind == BuildConfigKind
         && (sources.Some? ==> sources.value.stream.Id().kind == ImageStreamKind
                               && sources.value.build.Id().kind == BuildConfigKind
                               && sources.value.stream.Id() == plan.stream)
  }

  predicate HasPod(plan: Plan) {
    plan.FromImage? && plan.build.Some?
  }

  /** What a rollout may do: it rolls out nothing but its goal, after a build pod if there is one, and without a
      build it lets the pass go on only with the goal's workload in place. */
  ghost predicate SafeRollout(s: Api, t: Out, plan: Plan, target: Ref) {
    && RollsOut(s, t, target)
    && (HasPod(plan) ==> SuccessFirst(s, t.api, plan.build.value.pod))
    && (plan.FromImage? && !HasPod(plan) && t.flow.Next? ==> Reached(s, t.api, target))
  }

  lemma RolloutThroughGate(s: Api, gate: Gate, pod: Object, g: WorkloadGoal)
    requires OpensOnSuccess(s, gate, pod) && IsFor(g, g.created.Id())
    ensures var t := if gate.open then ContinueWith(gate.api, g) else Out(gate.api, gate.flow);
            RollsOut(s, t, g.created.Id()) && SuccessFirst(s, t.api, pod)
  {
    if gate.open {
      RolloutAfterGate(s, gate.api, g);
      ContinueIsSafe(gate.api, g);
      WritesFollowSuccess(s, gate.api, ContinueWith(gate.api, g).api, pod);
    } else {
      ClosedGateRollsOut(s, gate.api, gate.flow, g.created.Id());
    }
  }

  lemma ImagePlanIsSafe(s: Api, plan: Plan, target: Ref)
    requires plan.FromImage? && Targets(plan, target)
    ensures SafeRollout(s, RunPlan(s, plan), plan, target)
  {
    if plan.build.None? {
      RolloutAfterGate(s, s, plan.goal);
    } else {
      var gate := GateBuild(s, plan.build.value);
      BuildGateIsSafe(s, plan.build.value);
      RolloutThroughGate(s, gate, plan.build.value.pod, plan.goal);
      assert RunPlan(s, plan) == if gate.open then ContinueWith(gate.api, plan.goal) else Out(gate.api, gate.flow);
    }
  }

  lemma StreamGateIsSafe(s: Api, sources: Option<StreamBuild>, config: Ref)
    requires config.kind == BuildConfigKind
    requires sources.Some? ==> sources.value.stream.Id().kind == ImageStreamKind
                               && sources.value.build.Id().kind == BuildConfigKind
    ensures var gate := StreamGate(s, sources, config);
            && LeavesWorkloads(s, gate.api)
            && (gate.flow.Next? && !gate.open ==>
                  |gate.api.log| > |s.log| && IsLostStream(gate.api.log[|gate.api.log| - 1]))
  {
    if sources.Some? {
      PrepareBuildIsSafe(s, sources.value.stream, sources.value.build);
    } else {
      DropBuildIsSafe(s, config);
    }
  }

  lemma StreamPlanIsSafe(s: Api, plan: Plan, target: Ref)
    requires plan.FromStream? && Targets(plan, target)
    ensures SafeRollout(s, RunPlan(s, plan), plan, target)
  {
    var gate := StreamGate(s, plan.sources, plan.config);
    StreamGateIsSafe(s, plan.sources, plan.config);
    if gate.open {
      ContinueFromIsSafe(s, gate.api, plan.stream, plan.goals, target);
    } else {
      ClosedGateRollsOut(s, gate.api, gate.flow, target);
    }
  }

  lemma ContinueFromIsSafe(s: Api, gated: Api, stream: Ref, goals: string -> WorkloadGoal, target: Ref)
    requires LeavesWorkloads(s, gated) && stream.kind == ImageStreamKind && IsWorkload(target)
    requires forall image :: goals(image).created.body.Workload?
    requires forall image :: IsFor(goals(image), target)
    ensures RollsOut(s, ContinueFrom(gated, stream, goals), target)
  {
    var (t, repository) := ReadStream(gated, stream);
    ReadLeavesWorkloads(gated, stream);
    LeavesTransitive(s, gated, t);
    if repository.None? {
      ClosedGateRollsOut(s, t, Next, target);
    } else {
      assert IsFor(goals(repository.value), target);
      RolloutAfterGate(s, t, goals(repository.value));
    }
  }

  lemma PlanIsSafe(s: Api, plan: Plan, target: Ref)
    requires Targets(plan, target)
    ensures SafeRollout(s, RunPlan(s, plan), plan, target)
  {
    if plan.FromImage? { ImagePlanIsSafe(s, plan, target); } else { StreamPlanIsSafe(s, plan, target); }
  }

  lemma GoalsAreForTarget(p: Platform, w: WebServer, image: string)
    ensures IsFor(GoalFor(p, w, image), TargetRef(w))
  {
    GoalIsForTarget(p, w, image);
  }

  lemma PlanForGoal(p: Platform, w: WebServer, goal: WorkloadGoal)
    requires IsFor(goal, TargetRef(w))
    ensures Targets(FromImage(BuildOf(p, w), goal), TargetRef(w))
  {
  }

  lemma ImagePlanTargets(p: Platform, w: WebServer)
    requires w.spec.webImage.Some?
    ensures Targets(ImagePlan(p, w), TargetRef(w))
  {
    GoalsAreForTarget(p, w, DeployedImage(w));
    PlanForGoal(p, w, GoalFor(p, w, DeployedImage(w)));
  }

  lemma StreamPlanTargets(p: Platform, w: WebServer)
    requires w.spec.webImageStream.Some?
    ensures Targets(StreamPlan(p, w), TargetRef(w))
  {
    var plan := StreamPlan(p, w);
    forall image ensures IsFor(plan.goals(image), TargetRef(w)) {
      assert plan.goals(image) == GoalFor(p, w, image);
      GoalsAreForTarget(p, w, image);
    }
    if BuildsStream(w) {
      assert plan.sources.value.build.Id().kind == BuildConfigKind;
      assert plan.sources.value.stream.Id() == plan.stream && plan.stream.kind == ImageStreamKind;
    }
  }

  /** What `Reconcile` plans is for the wanted workload. */
  lemma PlanTargets(p: Platform, w: WebServer)
    requires Usable(p, w)
    ensures Targets(PlanOf(p, w), TargetRef(w))
    ensures HasPod(PlanOf(p, w)) <==> BuildsWebApp(w)
    ensures PlanOf(p, w).FromImage? <==> w.spec.webImage.Some?
  {
    if w.spec.webImage.Some? { ImagePlanTargets(p, w); } else { StreamPlanTargets(p, w); }
  }

  /* ---------- whole passes ---------- */

  /** Something justifies a removal at `k`: the wanted workload was read before it and is still there, or the
      rollout was skipped before it, which only a build or an image stream can cause. */
  ghost predicate Justified(from: nat, k: nat, t: Api, target: Ref, maySkip: bool)
    requires k <= |t.log|
  {
    || (target in t.objects && exists j :: from <= j < k && IsReadOf(t.log[j], target))
    || (maySkip && exists j :: from <= j < k && IsSkip(t.log[j]))
  }

  /** What a pass, or a part of one, may do to the workloads of an owner when `target` is wanted. */
  ghost predicate NoGap(s: Api, t: Api, leftovers: set<Ref>, target: Ref, maySkip: bool) {
    && s.log <= t.log
    && (target in s.objects ==> target in t.objects)
    && (forall r :: IsWorkload(r) && r != target && r !in leftovers ==> SameAt(s.objects, t.objects, r))
    && (forall k :: |s.log| <= k < |t.log| && IsRollout(t.log[k]) ==> t.log[k].obj.Id() == target)
    && (forall k :: |s.log| <= k < |t.log| && IsRemoval(t.log[k]) ==>
                      t.log[k].obj.Id() in leftovers && t.log[k].obj.Id() != target
                      && Justified(|s.log|, k, t, target, maySkip))
  }

  lemma SameWorkloadsSameOthers(a: Store, b: Store, ns: string, owner: string, target: Ref)
    requires forall r :: IsWorkload(r) && r != target ==> SameAt(a, b, r)
    ensures OthersOf(a, ns, owner, target) == OthersOf(b, ns, owner, target)
  {
  }

  /** A cleanup behind a safe rollout closes no gap it has not seen filled. */
  lemma CleanupAfterRollout(s: Api, t: Out, u: Out, plan: Plan, leftovers: set<Ref>, target: Ref)
    requires SafeRollout(s, t, plan, target) && IsWorkload(target)
    requires t.flow.Next? && Cleans(t.api, u, leftovers) && target !in leftovers
    ensures NoGap(s, u.api, leftovers, target, !plan.FromImage? || HasPod(plan))
    ensures HasPod(plan) ==> SuccessFirst(s, u.api, plan.build.value.pod)
  {
  }

  /** Only a build pod or an image stream can make a pass skip its rollout. */
  predicate MaySkip(w: WebServer) {
    w.spec.webImageStream.Some? || BuildsWebApp(w)
  }

  /** What a rollout and its cleanup may do; nothing is left over when both succeed. */
  ghost predicate SafePass(s: Api, t: Out, ns: string, owner: string, target: Ref, maySkip: bool, pod: Option<Object>) {
    && NoGap(s, t.api, OthersOf(s.objects, ns, owner, target), target, maySkip)
    && (pod.Some? ==> SuccessFirst(s, t.api, pod.value))
    && (t.flow.Next? ==> OthersOf(t.api.objects, ns, owner, target) == {})
  }

  function PodOf(plan: Plan): Option<Object> {
    if HasPod(plan) then Some(plan.build.value.pod) else None
  }

  lemma CleanedIsSafe(s: Api, rolled: Out, u: Out, plan: Plan, ns: string, owner: string, target: Ref)
    requires SafeRollout(s, rolled, plan, target) && rolled.flow.Next? && IsWorkload(target)
    requires Cleans(rolled.api, u, OthersOf(rolled.api.objects, ns, owner, target))
    ensures SafePass(s, u, ns, owner, target, !plan.FromImage? || HasPod(plan), PodOf(plan))
  {
    SameWorkloadsSameOthers(s.objects, rolled.api.objects, ns, owner, target);
    CleanupAfterRollout(s, rolled, u, plan, OthersOf(s.objects, ns, owner, target), target);
    forall r ensures r !in OthersOf(u.api.objects, ns, owner, target) || u.flow.Return? {
      if r in u.api.objects { assert SameAt(rolled.api.objects, u.api.objects, r); }
    }
  }

  lemma StoppedIsSafe(s: Api, rolled: Out, plan: Plan, ns: string, owner: string, target: Ref)
    requires SafeRollout(s, rolled, plan, target) && rolled.flow.Return? && IsWorkload(target)
    ensures SafePass(s, rolled, ns, owner, target, !plan.FromImage? || HasPod(plan), PodOf(plan))
  {
  }

  lemma CleaningIsSafe(p: Platform, s: Api, rolled: Out, w: WebServer, plan: Plan)
    requires SafeRollout(s, rolled, plan, TargetRef(w))
    ensures SafePass(s, CleanAfter(p, rolled, w), w.ns, w.uid, TargetRef(w), !plan.FromImage? || HasPod(plan),
            PodOf(plan))
  {
    if rolled.flow.Next? {
      CleanupRemovesLeftovers(p, rolled.api, w);
      CleanedIsSafe(s, rolled, CheckOwned(p, rolled.api, w), plan, w.ns, w.uid, TargetRef(w));
    } else {
      StoppedIsSafe(s, rolled, plan, w.ns, w.uid, TargetRef(w));
    }
  }

  lemma DeployPlanIsSafe(p: Platform, s: Api, w: WebServer, plan: Plan)
    requires Targets(plan, TargetRef(w))
    ensures SafePass(s, DeployPlan(p, s, w, plan), w.ns, w.uid, TargetRef(w), !plan.FromImage? || HasPod(plan),
            PodOf(plan))
  {
    PlanIsSafe(s, plan, TargetRef(w));
    CleaningIsSafe(p, s, RunPlan(s, plan), w, plan);
  }

  ghost function PodWanted(p: Platform, w: WebServer): Option<Object> {
    if BuildsWebApp(w) then Some(BuildPod(p, w)) else None
  }

  lemma PodOfPlan(p: Platform, w: WebServer)
    requires Usable(p, w)
    ensures PodOf(PlanOf(p, w)) == PodWanted(p, w)
  {
  }

  lemma DeployIsSafe(p: Platform, s: Api, w: WebServer)
    requires Usable(p, w)
    ensures SafePass(s, Deploy(p, s, w), w.ns, w.uid, TargetRef(w), MaySkip(w), PodWanted(p, w))
  {
    PlanTargets(p, w);
    DeployPlanIsSafe(p, s, w, PlanOf(p, w));
    PodOfPlan(p, w);
  }

  lemma SafeBehindSupport(s: Api, t: Api, u: Out, ns: string, owner: string, target: Ref, maySkip: bool,
                          pod: Option<Object>)
    requires Grows(s, t) && IsWorkload(target) && SafePass(t, u, ns, owner, target, maySkip, pod)
    ensures SafePass(s, u, ns, owner, target, maySkip, pod)
  {
  }

  lemma SupportAloneIsSafe(s: Api, t: Out, ns: string, owner: string, target: Ref, maySkip: bool, pod: Option<Object>)
    requires Grows(s, t.api) && t.flow.Return? && IsWorkload(target)
    ensures SafePass(s, t, ns, owner, target, maySkip, pod)
  {
  }

  /** The part of a pass behind the clustering decision. */
  lemma BehindFrontIsSafe(p: Platform, s: Api, w: WebServer)
    requires Usable(p, w)
    ensures var back := Back(p, s, w);
            var t := if back.flow.Return? then Out(back.api, back.flow) else Deploy(p, back.api, w);
            SafePass(s, t, w.ns, w.uid, TargetRef(w), MaySkip(w), PodWanted(p, w))
  {
    var back := Back(p, s, w);
    BackEffect(p, s, w);
    if back.flow.Return? {
      SupportAloneIsSafe(s, Out(back.api, back.flow), w.ns, w.uid, TargetRef(w), MaySkip(w), PodWanted(p, w));
    } else {
      DeployIsSafe(p, back.api, w);
      SafeBehindSupport(s, back.api, Deploy(p, back.api, w), w.ns, w.uid, TargetRef(w), MaySkip(w), PodWanted(p, w));
    }
  }

  lemma FrontGrows(p: Platform, s: Api, w: WebServer)
    ensures Grows(s, Front(p, s, w).api)
    ensures Front(p, s, w).flow.Next? ==> Usable(p, Front(p, s, w).w)
  {
    FrontEffect(p, s, w);
  }

  lemma PrepareIsSafe(p: Platform, s: Api, w: WebServer)
    ensures var t := Prepare(p, s, w);
            SafePass(s, Out(t.api, t.flow), t.w.ns, t.w.uid, TargetRef(t.w), MaySkip(t.w), PodWanted(p, t.w))
  {
    var front := Front(p, s, w);
    var v := front.w;
    FrontGrows(p, s, w);
    if front.flow.Return? {
      SupportAloneIsSafe(s, Out(front.api, front.flow), v.ns, v.uid, TargetRef(v), MaySkip(v), PodWanted(p, v));
    } else {
      var back := Back(p, front.api, v);
      var t := if back.flow.Return? then Out(back.api, back.flow) else Deploy(p, back.api, v);
      BehindFrontIsSafe(p, front.api, v);
      SafeBehindSupport(s, front.api, t, v.ns, v.uid, TargetRef(v), MaySkip(v), PodWanted(p, v));
    }
  }

  lemma WriteStatusGrows(s: Api, status: Status, now: Status, last: Flow)
    ensures var r := WriteStatus(s, status, now, last);
            Grows(s, r.api) && r.api.objects == s.objects && r.api.server == s.server
  {
  }

  lemma ReportOnGrows(s: Api, of: Topic, status: Status, hosts: Option<seq<string>>)
    ensures var r := ReportOn(s, of, status, hosts);
            Grows(s, r.api) && r.api.objects == s.objects && r.api.server == s.server
  {
    var (t, reply) := GetCall(s, of.target);
    var now := NewStatus(of, status, hosts, ObservedReplicas(reply));
    GetGrows(s, of.target);
    WriteStatusGrows(t, status, now, LastWord(of));
    GrowsTransitive(s, t, WriteStatus(t, status, now, LastWord(of)).api);
  }

  /** The report changes nothing but the status. */
  lemma ReportGrows(s: Api, w: WebServer, status: Status, hosts: Option<seq<string>>)
    ensures var r := Report(s, w, status, hosts);
            Grows(s, r.api) && r.api.objects == s.objects && r.api.server == s.server
  {
    var t := ListCall(s).0;
    ListGrows(s);
    ReportOnGrows(t, TopicOf(s.objects, w), status, hosts);
    GrowsTransitive(s, t, ReportOn(t, TopicOf(s.objects, w), status, hosts).api);
  }

  lemma GetServerGrows(s: Api)
    ensures var t := GetServerCall(s).0; Grows(s, t) && t.objects == s.objects && t.server == s.server
  {
  }

  /** The resource a pass holds when it ends: the stored one with its defaults, and perhaps the annotation. */
  ghost function InHand(p: Platform, s: Api): WebServer
    requires s.server.Some?
  {
    Prepare(p, GetServerCall(s).0, SetDefaults(s.server.value)).w
  }

  lemma SafeThroughReport(s: Api, t: Api, u: Api, leftovers: set<Ref>, target: Ref, maySkip: bool, pod: Option<Object>)
    requires NoGap(s, t, leftovers, target, maySkip) && (pod.Some? ==> SuccessFirst(s, t, pod.value))
    requires Grows(t, u) && u.objects == t.objects && IsWorkload(target)
    ensures NoGap(s, u, leftovers, target, maySkip) && (pod.Some? ==> SuccessFirst(s, u, pod.value))
  {
  }

  /** Whatever the API answers, a pass creates and updates no workload but the wanted one; it removes only owned
      workloads other than that one, and only after it has read the wanted one, which is still there at the end -
      or after a build pod or an image stream was missing. Where a webapp is built, every write of the workload
      comes after the read of a succeeded build pod of the current digest. */
  lemma ReconcileIsSafe(p: Platform, s: Api, status: Status)
    requires s.server.Some?
    ensures var t, w := ReconcileSpec(p, s, status).api, InHand(p, s);
            && NoGap(s, t, Leftovers(s.objects, w), TargetRef(w), MaySkip(w))
            && (BuildsWebApp(w) ==> SuccessFirst(s, t, BuildPod(p, w)))
  {
    var r, w := ReconcileSpec(p, s, status), InHand(p, s);
    var t := GetServerCall(s).0;
    GetServerGrows(s);
    if GetServerCall(s).1.Some? || DefaultsCrash(s.server.value) {
      SupportAloneIsSafe(s, Out(t, r.flow), w.ns, w.uid, TargetRef(w), MaySkip(w), PodWanted(p, w));
    } else {
      var done := Prepare(p, t, SetDefaults(s.server.value));
      PrepareIsSafe(p, t, SetDefaults(s.server.value));
      SafeBehindSupport(s, t, Out(done.api, done.flow), w.ns, w.uid, TargetRef(w), MaySkip(w), PodWanted(p, w));
      if done.flow.Next? {
        ReportGrows(done.api, done.w, status, done.hosts);
        SafeThroughReport(s, done.api, r.api, Leftovers(s.objects, w), TargetRef(w), MaySkip(w), PodWanted(p, w));
      }
    }
  }

  /** A pass that gets to its report leaves the wanted workload as the only owned one. */
  lemma ReportMeansNoLeftovers(p: Platform, s: Api, w: WebServer)
    requires Prepare(p, s, w).flow.Next?
    ensures Leftovers(Prepare(p, s, w).api.objects, Prepare(p, s, w).w) == {}
  {
    PrepareIsSafe(p, s, w);
  }

  /* ---------- the gap there is ---------- */

  /** The image stream is not built by the operator and does not exist. */
  predicate LacksStream(objects: Store, plan: Plan) {
    plan.FromStream? && plan.sources.None? && plan.stream !in objects
  }

  lemma FaithfulImageGap(s: Api, plan: Plan, target: Ref)
    requires s.script == [] && plan.FromImage? && Targets(plan, target)
    ensures RunPlan(s, plan).flow.Next? ==> target in RunPlan(s, plan).api.objects
  {
    ImagePlanIsSafe(s, plan, target);
    if plan.build.Some? {
      var b := plan.build.value;
      var applied := if b.script.Some? then ApplyObject(s, b.script.value) else Out(s, Next);
      if b.script.Some? { FaithfulStep(s, Apply(b.script.value)); }
      assert applied.api.script == [];
      FaithfulPodGate(applied.api, b.pod);
      if GateBuild(s, b).open {
        ContinueIsSafe(GateBuild(s, b).api, plan.goal);
      }
    }
  }

  lemma MissingStreamGap(s: Api, plan: Plan, target: Ref)
    requires s.script == [] && plan.FromStream? && plan.sources.None? && Targets(plan, target)
    ensures var t := RunPlan(s, plan);
            t.flow.Next? && target !in t.api.objects <==> plan.stream !in s.objects && target !in s.objects
  {
    var gate := StreamGate(s, plan.sources, plan.config);
    FaithfulDropBuild(s, plan.config);
    var (t, repository) := ReadStream(gate.api, plan.stream);
    assert repository.None? <==> plan.stream !in s.objects;
    if repository.Some? {
      ContinueIsSafe(t, plan.goals(repository.value));
    }
  }

  lemma BuiltStreamHasNoGap(s: Api, plan: Plan, target: Ref)
    requires s.script == [] && plan.FromStream? && plan.sources.Some? && Targets(plan, target)
    ensures RunPlan(s, plan).flow.Next? ==> target in RunPlan(s, plan).api.objects
  {
    var stream, build := plan.sources.value.stream, plan.sources.value.build;
    var gate := StreamGate(s, plan.sources, plan.config);
    var e := EnsureObject(s, stream);
    if e.flow.Next? {
      var t := GetCall(e.api, stream.Id()).0;
      assert gate == UpdateBuild(t, build);
      FaithfulUpdateBuild(t, build);
      if gate.open {
        assert SameAt(t.objects, gate.api.objects, stream.Id());
        var (u, repository) := ReadStream(gate.api, plan.stream);
        ContinueIsSafe(u, plan.goals(repository.value));
      }
    }
  }

  /** Without failures a rollout lets the pass go on to the cleanup without the wanted workload in place exactly
      when neither that workload nor the image stream it should be deployed from exists. */
  lemma WhenThereIsAGap(p: Platform, s: Api, w: WebServer)
    requires Usable(p, w) && s.script == []
    ensures var t := RunPlan(s, PlanOf(p, w));
            t.flow.Next? && TargetRef(w) !in t.api.objects <==>
            w.spec.webImageStream.Some? && !BuildsStream(w) && StreamRef(w) !in s.objects && TargetRef(w) !in s.objects
  {
    var plan, target := PlanOf(p, w), TargetRef(w);
    PlanTargets(p, w);
    if w.spec.webImage.Some? {
      FaithfulImageGap(s, plan, target);
    } else if BuildsStream(w) {
      BuiltStreamHasNoGap(s, plan, target);
    } else {
      MissingStreamGap(s, plan, target);
    }
  }

  /** In that case the cleanup takes every workload there is: after a switch to an image stream that does not
      exist, nothing serves. */
  lemma TheGapIsReal(p: Platform, s: Api, w: WebServer)
    requires s.script == [] && Usable(p, w)
    requires w.spec.webImageStream.Some? && !BuildsStream(w) && StreamRef(w) !in s.objects && TargetRef(w) !in s.objects
    ensures var t := Deploy(p, s, w);
            t.flow.Next?
            && forall r :: r in t.api.objects && IsWorkload(r) && r.ns == w.ns ==>
                             t.api.objects[r].meta.owner != Some(w.uid)
  {
    var rolled := RunPlan(s, PlanOf(p, w));
    WhenThereIsAGap(p, s, w);
    DeployIsSafe(p, s, w);
    MissingStreamIsSilent(p, s, w);
    CleanupRemovesLeftovers(p, rolled.api, w);
    assert Leftovers(Deploy(p, s, w).api.objects, w) == {};
    assert SameAt(rolled.api.objects, Deploy(p, s, w).api.objects, TargetRef(w));
  }

  lemma MissingStreamIsSilent(p: Platform, s: Api, w: WebServer)
    requires s.script == [] && Usable(p, w) && w.spec.webImageStream.Some? && !BuildsStream(w)
            && StreamRef(w) !in s.objects
    ensures RunPlan(s, PlanOf(p, w)).api.script == []
  {
  }
}
