/** The builds that gate a rollout: a build pod for a webapp, a BuildConfig for an image stream. */
module Builds {
  import opened WebServerApi
  import opened Digest
  import opened ClusterObjects
  import opened Templates
  import opened ClientApi
  import opened Steps
  import opened Workloads

  /** A gate ends the pass, or lets it go on with the rollout (`open`) or straight to the cleanup. */
  datatype Gate = Gate(api: Api, flow: Flow, open: bool)

  /* ---------- build pods ---------- */

  /** The build pod wanted, with the current digest, and the ConfigMap of its script if there is one. */
  datatype BuildGoal = BuildGoal(script: Option<Object>, pod: Object)

  ghost function BuildGoalFor(p: Platform, w: WebServer): BuildGoal
    requires BuildsWebApp(w)
  {
    BuildGoal(if BuildScript(w) != "" then Some(BuildMap(w)) else None, BuildPod(p, w))
  }

  /** A stale pod is deleted; a pod that has not succeeded is waited for. The script's ConfigMap has just been
      overwritten when it is compared with the script, so that comparison never fails. */
  function CheckPod(s: Api, found: Object, digest: string): Gate
    requires found.body.Pod?
  {
    if DigestOf(found) != digest then
      var (t, err) := DeleteCall(s, found.Id());
      Gate(t, if err == Some(NotFound) then Next else Return(RequeueAfter(500), None), false)
    else if found.body.phase != Succeeded then Gate(s, Return(RequeueAfter(5000), None), false)
    else Gate(s, Next, true)
  }

  function GatePod(s: Api, pod: Object): Gate
    requires pod.body.Pod?
  {
    var e := EnsureObject(s, pod);
    if e.flow.Return? then Gate(e.api, e.flow, false) else CheckPod(e.api, e.found, DigestOf(pod))
  }

  function GateBuild(s: Api, b: BuildGoal): Gate
    requires b.pod.body.Pod?
  {
    if b.script.None? then GatePod(s, b.pod)
    else
      var applied := ApplyObject(s, b.script.value);
      if applied.flow.Return? then Gate(applied.api, applied.flow, false) else GatePod(applied.api, b.pod)
  }

  method BuildWebApp(p: Platform, r: Client, w: WebServer) returns (flow: Flow, open: bool)
    requires BuildsWebApp(w)
    modifies r`objects, r`script, r`log
    ensures Gate(r.State(), flow, open) == GateBuild(old(r.State()), BuildGoalFor(p, w))
  {
    open := false;
    if BuildScript(w) != "" {
      flow := CreateConfigMap(r, BuildMap(w));
      if flow.Return? { return; }
    }
    var hash := GetWebServerHash(p.hashing, w);
    var pod := Object(
      Owned(w, w.spec.applicationName + "-build").(labels := map[HASH := hash]),
      Pod(w.spec.webImage.value.webApp.value.builder.value.image, BuildMounts(w), BuildVolumes(w), Unknown, ""));
    assert pod == BuildPod(p, w);
    flow, open := GatePodCalls(r, pod);
  }

  method GatePodCalls(r: Client, pod: Object) returns (flow: Flow, open: bool)
    requires pod.body.Pod?
    modifies r`objects, r`script, r`log
    ensures Gate(r.State(), flow, open) == GatePod(old(r.State()), pod)
  {
    open := false;
    var found;
    flow, found := CreateIfMissing(r, pod);
    if flow.Return? { return; }
    if DigestOf(found) != DigestOf(pod) {
      var err := r.Delete(found.Id());
      if err.Some? && err.value == NotFound { return Next, false; }
      return Return(RequeueAfter(500), None), false;
    }
    if found.body.phase != Succeeded { return Return(RequeueAfter(5000), None), false; }
    return Next, true;
  }

  predicate IsSuccess(e: Event, pod: Object) {
    e.Read? && e.obj.Id() == pod.Id() && e.obj.body.Pod? && DigestOf(e.obj) == DigestOf(pod)
    && e.obj.body.phase == Succeeded
  }

  /** The build pod was gone when it was to be deleted: the one answer that skips the rollout. */
  predicate IsLostPod(e: Event) {
    e.Refused? && e.verb == DELETE && e.target.Some? && e.target.value.kind == PodKind && e.err == NotFound
  }

  /** Whatever fails: only that pod is touched; the gate opens only on a succeeded pod of the current digest; and
      it lets the pass go on closed only if a stale pod was already gone. */
  lemma PodGateIsSafe(s: Api, pod: Object)
    requires pod.body.Pod?
    ensures var g := GatePod(s, pod);
            && (forall r :: r != pod.Id() ==> SameAt(s.objects, g.api.objects, r))
            && s.log <= g.api.log && g.api.server == s.server
            && (forall i :: |s.log| <= i < |g.api.log| ==> IsPodEvent(g.api.log[i]))
            && (g.flow.Next? ==> |g.api.log| > |s.log|
                                 && if g.open then IsSuccess(g.api.log[|g.api.log| - 1], pod)
                                    else IsLostPod(g.api.log[|g.api.log| - 1]))
            && (g.open ==> g.flow.Next?)
  {
    EnsureEffect(s, pod);
    var e := EnsureObject(s, pod);
    if e.flow.Next? {
      assert e.found.Id() == pod.Id();
      CheckPodIsSafe(e.api, e.found, pod);
    }
  }

  lemma CheckPodIsSafe(s: Api, found: Object, pod: Object)
    requires found.body.Pod? && found.Id() == pod.Id() && s.log != [] && s.log[|s.log| - 1] == Read(found)
    ensures var g := CheckPod(s, found, DigestOf(pod));
            && (forall r :: r != pod.Id() ==> SameAt(s.objects, g.api.objects, r))
            && g.api.server == s.server
            && (g.api.log == s.log || (|g.api.log| == |s.log| + 1 && s.log <= g.api.log
                  && IsPodEvent(g.api.log[|s.log|])))
            && (g.flow.Next? ==> if g.open then IsSuccess(g.api.log[|g.api.log| - 1], pod)
                                 else IsLostPod(g.api.log[|g.api.log| - 1]))
            && (g.open ==> g.flow.Next?)
  {
    if DigestOf(found) != DigestOf(pod) { PodDeletion(s, found); }
  }

  lemma PodDeletion(s: Api, found: Object)
    requires found.body.Pod?
    ensures var (t, err) := DeleteCall(s, found.Id());
            && (forall r :: r != found.Id() ==> SameAt(s.objects, t.objects, r))
            && t.server == s.server
            && |t.log| == |s.log| + 1 && s.log <= t.log && IsPodEvent(t.log[|s.log|])
            && (err == Some(NotFound) ==> IsLostPod(t.log[|s.log|]))
  {
    if found.Id() in s.objects { assert s.objects[found.Id()].Id() == found.Id(); }
  }

  predicate IsPodEvent(e: Event) {
    match e
    case Read(obj) => obj.Id().kind == PodKind
    case Created(obj) => obj.Id().kind == PodKind
    case Deleted(obj) => obj.Id().kind == PodKind
    case Refused(_, _, _) => true
    case _ => false
  }

  /** How far a build pod is from being current: a stale one must go and be made again. */
  function PodWork(objects: Store, pod: Object): nat {
    if pod.Id() !in objects then 1 else if DigestOf(objects[pod.Id()]) != DigestOf(pod) then 2 else 0
  }

  lemma FaithfulPodGate(s: Api, pod: Object)
    requires pod.body.Pod? && s.script == []
    ensures var g := GatePod(s, pod);
            && g.api.script == []
            && (g.api.objects != s.objects ==> PodWork(g.api.objects, pod) < PodWork(s.objects, pod))
            && (g.api.objects == s.objects ==> g.flow.Next? || g.flow == Return(RequeueAfter(5000), None))
            && (g.flow.Next? ==> g.open && g.api.objects == s.objects)
            && (g.flow == Return(RequeueAfter(5000), None) ==>
                  pod.Id() in s.objects && s.objects[pod.Id()].body.Pod? && s.objects[pod.Id()].body.phase != Succeeded)
            && g.flow in {Next, Return(Requeue, None), Return(RequeueAfter(500), None),
               Return(RequeueAfter(5000), None)}
  {
  }

  /** Without failures the gate opens exactly on a pod that exists with the current digest and has succeeded, and
      the pass comes back in five seconds exactly for one of the current digest that has not. */
  lemma GateOpensOnSuccessAlone(s: Api, pod: Object)
    requires pod.body.Pod? && s.script == []
    ensures var g, found := GatePod(s, pod), pod.Id() in s.objects && DigestOf(s.objects[pod.Id()]) == DigestOf(pod);
            && (g.open <==> found && s.objects[pod.Id()].body.phase == Succeeded)
            && (g.flow == Return(RequeueAfter(5000), None) <==> found && s.objects[pod.Id()].body.phase != Succeeded)
  {
    if pod.Id() in s.objects { assert s.objects[pod.Id()].Id() == pod.Id(); }
  }

  /** A pod of another digest never opens the gate, whatever fails; without failures it is deleted and the pass
      requeued. */
  lemma StalePodIsReplaced(s: Api, pod: Object)
    requires pod.body.Pod? && pod.Id() in s.objects && DigestOf(s.objects[pod.Id()]) != DigestOf(pod)
    ensures var g := GatePod(s, pod);
            && !g.open
            && (s.script == [] ==> g.flow == Return(RequeueAfter(500), None) && g.api.objects == s.objects - {pod.Id()})
  {
  }

  /* ---------- image streams ---------- */

  /** `createUpdateBuildConfig`: a changed source digest is written and a build started. */
  function UpdateBuild(s: Api, build: Object): Gate {
    var (t, reply) := GetCall(s, build.Id());
    match reply
    case Ok(found) =>
      if LabelOf(found.meta.labels, SOURCE_HASH) == LabelOf(build.meta.labels, SOURCE_HASH) then Gate(t, Next, true)
      else
        var (u, err) := UpdateCall(t, build);
        if err.Some? then Gate(u, Return(Empty, Some(ApiError(err.value))), false)
        else
          var (v, err) := InstantiateCall(u, build.Id());
          if err.Some? then Gate(v, Return(Empty, Some(ApiError(err.value))), false) else Gate(v, Next, true)
    case Fail(NotFound) =>
      var (u, err) := CreateCall(t, build);
      Gate(u, if err.Some? && err.value != AlreadyExists then Return(Empty, Some(ApiError(err.value)))
              else Return(Requeue, None), false)
    case Fail(err) => Gate(t, Return(Empty, Some(ApiError(err))), false)
  }

  /** With sources: an image stream of the application's own, and its BuildConfig. */
  function PrepareBuild(s: Api, stream: Object, build: Object): Gate {
    var e := EnsureObject(s, stream);
    if e.flow.Return? then Gate(e.api, e.flow, false)
    else
      var (t, reply) := GetCall(e.api, stream.Id());
      if reply == Fail(NotFound) then Gate(t, Next, false) else UpdateBuild(t, build)
  }

  /** Without sources: a BuildConfig left from earlier is dropped, whether or not that succeeds. */
  function DropBuild(s: Api, ref: Ref): Api {
    var (t, reply) := GetCall(s, ref);
    if reply.Ok? then DeleteCall(t, ref).0 else t
  }

  /** The repository of an image stream: none if it does not exist, an empty one if it cannot be read. */
  function ReadStream(s: Api, ref: Ref): (Api, Option<string>)
    requires ref.kind == ImageStreamKind
  {
    var (t, reply) := GetCall(s, ref);
    match reply
    case Ok(found) => assert found.Id() == ref; (t, Some(found.body.repository))
    case Fail(NotFound) => (t, None)
    case Fail(_) => (t, Some(""))
  }

  method CreateUpdateBuildConfig(r: Client, build: Object) returns (flow: Flow)
    modifies r`objects, r`script, r`log
    ensures Gate(r.State(), flow, flow.Next?) == UpdateBuild(old(r.State()), build)
  {
    var reply := r.Get(build.Id());
    if reply.Fail? && reply.err == NotFound {
      var err := r.Create(build);
      if err.Some? && err.value != AlreadyExists { return Return(Empty, Some(ApiError(err.value))); }
      return Return(Requeue, None);
    } else if reply.Fail? {
      return Return(Empty, Some(ApiError(reply.err)));
    }
    if LabelOf(reply.value.meta.labels, SOURCE_HASH) != LabelOf(build.meta.labels, SOURCE_HASH) {
      var err := r.Update(build);
      if err.Some? { return Return(Empty, Some(ApiError(err.value))); }
      err := r.Instantiate(build.Id());
      if err.Some? { return Return(Empty, Some(ApiError(err.value))); }
    }
    flow := Next;
  }

  method PrepareStreamBuild(r: Client, stream: Object, build: Object) returns (flow: Flow, open: bool)
    modifies r`objects, r`script, r`log
    ensures Gate(r.State(), flow, open) == PrepareBuild(old(r.State()), stream, build)
  {
    open := false;
    var found;
    flow, found := CreateIfMissing(r, stream);
    if flow.Return? { return; }
    var reply := r.Get(stream.Id());
    if reply.Fail? && reply.err == NotFound { return; }
    flow := CreateUpdateBuildConfig(r, build);
    open := flow.Next?;
  }

  method DropBuildConfig(r: Client, ref: Ref)
    modifies r`objects, r`script, r`log
    ensures r.State() == DropBuild(old(r.State()), ref)
  {
    var reply := r.Get(ref);
    if reply.Ok? {
      var _ := r.Delete(ref);
    }
  }

  method ReadRepository(r: Client, ref: Ref) returns (repository: Option<string>)
    requires ref.kind == ImageStreamKind
    modifies r`script, r`log
    ensures (r.State(), repository) == ReadStream(old(r.State()), ref)
  {
    var reply := r.Get(ref);
    if reply.Fail? && reply.err == NotFound { return None; }
    if reply.Fail? { return Some(""); }
    assert reply.value.Id() == ref;
    repository := Some(reply.value.body.repository);
  }

  /** Whatever is answered, the last call decides: current or built, the pass goes on; created or existing, it comes
      back at once; any other refusal is its failure. */
  lemma BuildAnswers(s: Api, build: Object)
    ensures var g := UpdateBuild(s, build);
            |g.api.log| > |s.log| && (g.open <==> g.flow.Next?)
            && var last := g.api.log[|g.api.log| - 1];
               && (g.flow.Next? <==> last.Read? || last.Instantiated?)
               && (g.flow == Return(Requeue, None) <==>
                     last == Created(build) || last == Refused(CREATE, Some(build.Id()), AlreadyExists))
               && (g.flow.Return? && g.flow != Return(Requeue, None) ==>
                     last.Refused? && g.flow == Return(Empty, Some(ApiError(last.err))))
  {
    var (t, reply) := GetCall(s, build.Id());
    assert |t.log| == |s.log| + 1 && (if reply.Ok? then t.log[|s.log|] == Read(reply.value)
                                      else t.log[|s.log|] == Refused(GET, Some(build.Id()), reply.err));
    CreationIsLogged(t, build);
    UpdateIsLogged(t, build);
    StartIsLogged(UpdateCall(t, build).0, build.Id());
  }

  lemma CreationIsLogged(s: Api, obj: Object)
    ensures var (t, err) := CreateCall(s, obj);
            && |t.log| == |s.log| + 1
            && t.log[|s.log|] == if err.None? then Created(obj) else Refused(CREATE, Some(obj.Id()), err.value)
  {
  }

  lemma StartIsLogged(s: Api, ref: Ref)
    ensures var (t, err) := InstantiateCall(s, ref);
            && |t.log| == |s.log| + 1
            && t.log[|s.log|] == if err.None? then Instantiated(ref) else Refused(INSTANTIATE, Some(ref), err.value)
  {
  }

  /** A stale build pod is deleted and taken up again after half a second, also if that is refused, unless it is gone
      already. */
  lemma StalePodAnswers(s: Api, found: Object, digest: string)
    requires found.body.Pod? && DigestOf(found) != digest
    ensures var g := CheckPod(s, found, digest);
            |g.api.log| == |s.log| + 1
            && match g.api.log[|s.log|]
               case Deleted(_) => g.flow == Return(RequeueAfter(500), None)
               case Refused(verb, _, err) =>
                 verb == DELETE && g.flow == if err == NotFound then Next else Return(RequeueAfter(500), None)
               case _ => false
  {
  }

  /** What is left to do about the BuildConfig of an image stream: to be current, or to be gone. */
  function ConfigWork(objects: Store, ref: Ref, build: Option<Object>): nat {
    if build.None? then (if ref in objects then 1 else 0)
    else if ref !in objects then 1
    else if LabelOf(objects[ref].meta.labels, SOURCE_HASH) != LabelOf(build.value.meta.labels, SOURCE_HASH) then 1
    else 0
  }

  lemma FaithfulUpdateBuild(s: Api, build: Object)
    requires s.script == []
    ensures var g := UpdateBuild(s, build);
            && g.api.script == [] && g.api.server == s.server
            && (forall r :: r != build.Id() ==> SameAt(s.objects, g.api.objects, r))
            && (g.api.objects != s.objects ==>
                  ConfigWork(g.api.objects, build.Id(), Some(build)) < ConfigWork(s.objects, build.Id(), Some(build)))
            && (g.api.objects == s.objects ==> g.flow.Next?)
            && (g.flow.Next? ==> g.open)
            && g.flow in {Next, Return(Requeue, None)}
  {
  }

  lemma FaithfulDropBuild(s: Api, ref: Ref)
    requires s.script == []
    ensures var t := DropBuild(s, ref);
            && t.script == [] && t.server == s.server
            && t.objects == s.objects - {ref}
            && (t.objects != s.objects ==> ConfigWork(t.objects, ref, None) < ConfigWork(s.objects, ref, None))
  {
  }

  /* ---------- explicit builds ---------- */

  /** A BuildConfig was overwritten by one of another source digest. */
  predicate IsSourceChange(e: Event) {
    && e.Updated? && e.obj.Id().kind == BuildConfigKind
    && LabelOf(e.was.meta.labels, SOURCE_HASH) != LabelOf(e.obj.meta.labels, SOURCE_HASH)
  }

  /** Every build started follows immediately on a change of the source digest of the BuildConfig it builds. */
  ghost predicate BuildsFollowChanges(log: seq<Event>) {
    forall i :: 0 <= i < |log| && log[i].Instantiated? ==>
                  i > 0 && IsSourceChange(log[i - 1]) && log[i - 1].obj.Id() == log[i].ref
  }

  function CountBuilds(log: seq<Event>): nat {
    if log == [] then 0 else CountBuilds(log[..|log| - 1]) + (if log[|log| - 1].Instantiated? then 1 else 0)
  }

  function CountChanges(log: seq<Event>): nat {
    if log == [] then 0 else CountChanges(log[..|log| - 1]) + (if IsSourceChange(log[|log| - 1]) then 1 else 0)
  }

  /** So builds never outnumber the changes; and a change that ends the log has not been built. */
  lemma {:induction false} BuildsNeverExceedChanges(log: seq<Event>)
    requires BuildsFollowChanges(log)
    ensures CountBuilds(log) <= CountChanges(log)
    ensures log != [] && IsSourceChange(log[|log| - 1]) ==> CountBuilds(log) < CountChanges(log)
  {
    if log != [] {
      BuildsNeverExceedChanges(log[..|log| - 1]);
    }
  }
}
