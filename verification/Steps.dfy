/** The get-or-create helpers a pass is made of, and what any list of them does to the store. */
module Steps {
  import opened WebServerApi
  import opened ClusterObjects
  import opened ClientApi

  /** `ctrl.Result`: empty, requeue at once, or requeue after a delay. */
  datatype Result = Empty | Requeue | RequeueAfter(milliseconds: nat)

  /** What makes a pass fail: an error of the API server, or a panic. */
  datatype Failure = ApiError(err: Err) | Crash

  /** A helper either lets the pass go on or ends it with a result and perhaps a failure. */
  datatype Flow = Next | Return(result: Result, failure: Option<Failure>)

  datatype Out = Out(api: Api, flow: Flow)

  datatype Ensured = Ensured(api: Api, flow: Flow, found: Object)

  /** `createService`, `createRoute`, `createDeployment` and their likes: read the object; if there is none, create
      it and requeue. */
  function EnsureObject(s: Api, obj: Object): (r: Ensured)
    ensures r.flow.Next? ==> r.found.Id() == obj.Id() && r.api.objects == s.objects && obj.Id() in s.objects
                             && r.found == s.objects[obj.Id()]
  {
    var (t, reply) := GetCall(s, obj.Id());
    match reply
    case Ok(found) => Ensured(t, Next, found)
    case Fail(NotFound) =>
      var (u, err) := CreateCall(t, obj);
      Ensured(u, if err.Some? && err.value != AlreadyExists then Return(Empty, Some(ApiError(err.value)))
                 else Return(Requeue, None), obj)
    case Fail(err) => Ensured(t, Return(Empty, Some(ApiError(err))), obj)
  }

  /** `createConfigMap`: overwrite the object; if there is none, create it and requeue. */
  function ApplyObject(s: Api, obj: Object): Out {
    var (t, err) := UpdateCall(s, obj);
    if err.None? then Out(t, Next)
    else if err.value == NotFound then
      var (u, err) := CreateCall(t, obj);
      Out(u, if err.Some? && err.value != AlreadyExists then Return(Empty, Some(ApiError(err.value)))
             else Return(Requeue, None))
    else Out(t, Return(Empty, Some(ApiError(err.value))))
  }

  /** `GetOrCreateNewServiceMonitor` and `GetOrCreateNewPrometheusService`: an error of the read other than
      NotFound passes for success. */
  function EnsureLeniently(s: Api, obj: Object): Out {
    var (t, reply) := GetCall(s, obj.Id());
    if reply.Fail? && reply.err == NotFound then
      var (u, err) := CreateCall(t, obj);
      Out(u, if err.Some? && err.value != AlreadyExists then Return(Empty, Some(ApiError(err.value)))
             else Return(Requeue, None))
    else Out(t, Next)
  }

  datatype Step = Ensure(obj: Object) | Apply(obj: Object) | Lenient(obj: Object)

  function RunStep(s: Api, step: Step): Out {
    match step
    case Ensure(obj) => var e := EnsureObject(s, obj); Out(e.api, e.flow)
    case Apply(obj) => ApplyObject(s, obj)
    case Lenient(obj) => EnsureLeniently(s, obj)
  }

  /** Runs the steps in order up to the first that ends the pass. */
  function RunSteps(s: Api, steps: seq<Step>): Out
    decreases |steps|
  {
    if steps == [] then Out(s, Next)
    else
      var first := RunStep(s, steps[0]);
      if first.flow.Return? then first else RunSteps(first.api, steps[1..])
  }

  lemma {:induction false} RunStepsAppend(s: Api, a: seq<Step>, b: seq<Step>)
    ensures RunSteps(s, a + b) ==
            if RunSteps(s, a).flow.Return? then RunSteps(s, a) else RunSteps(RunSteps(s, a).api, b)
    decreases |a|
  {
    if a == [] {
      assert a + b == b;
    } else {
      var first := RunStep(s, a[0]);
      assert (a + b)[1..] == a[1..] + b;
      if first.flow.Next? {
        RunStepsAppend(first.api, a[1..], b);
      }
    }
  }

  lemma RunOneStep(s: Api, step: Step)
    ensures RunSteps(s, [step]) == RunStep(s, step)
  {
  }

  /* ---------- the helpers themselves ---------- */

  method CreateIfMissing(r: Client, obj: Object) returns (flow: Flow, found: Object)
    modifies r`objects, r`script, r`log
    ensures var e := EnsureObject(old(r.State()), obj); r.State() == e.api && flow == e.flow && found == e.found
  {
    found := obj;
    var reply := r.Get(obj.Id());
    if reply.Fail? && reply.err == NotFound {
      var err := r.Create(obj);
      if err.Some? && err.value != AlreadyExists {
        flow := Return(Empty, Some(ApiError(err.value)));
        return;
      }
      flow := Return(Requeue, None);
      return;
    } else if reply.Fail? {
      flow := Return(Empty, Some(ApiError(reply.err)));
      return;
    }
    flow, found := Next, reply.value;
  }

  method CreateConfigMap(r: Client, obj: Object) returns (flow: Flow)
    modifies r`objects, r`script, r`log
    ensures Out(r.State(), flow) == ApplyObject(old(r.State()), obj)
  {
    var err := r.Update(obj);
    if err.Some? && err.value == NotFound {
      err := r.Create(obj);
      if err.Some? && err.value != AlreadyExists {
        return Return(Empty, Some(ApiError(err.value)));
      }
      return Return(Requeue, None);
    } else if err.Some? {
      return Return(Empty, Some(ApiError(err.value)));
    }
    flow := Next;
  }

  method GetOrCreateNew(r: Client, obj: Object) returns (flow: Flow)
    modifies r`objects, r`script, r`log
    ensures Out(r.State(), flow) == EnsureLeniently(old(r.State()), obj)
  {
    var reply := r.Get(obj.Id());
    if reply.Fail? && reply.err == NotFound {
      var err := r.Create(obj);
      if err.Some? && err.value != AlreadyExists {
        return Return(Empty, Some(ApiError(err.value)));
      }
      return Return(Requeue, None);
    }
    flow := Next;
  }

  /* ---------- what steps do under any failures ---------- */

  /** Kinds that only the rollout and the cleanup of a pass write. */
  predicate IsCore(ref: Ref) {
    IsWorkload(ref) || ref.kind == PodKind || ref.kind == BuildConfigKind
  }

  predicate IsSupport(e: Event) {
    match e
    case Read(_) => true
    case Created(obj) => !IsCore(obj.Id())
    case Updated(_, obj) => !IsCore(obj.Id())
    case Deleted(_) => false
    case Instantiated(_) => false
    case ServerRead(_) => true
    case ServerWritten(_) => true
    case StatusWritten(_) => true
    case Listed => true
    case Refused(_, _, _) => true
  }

  /** Nothing disappears, objects of the core kinds stay as they are, and only supporting writes are logged. */
  ghost predicate Grows(s: Api, t: Api) {
    && (forall r :: r in s.objects ==> r in t.objects)
    && (forall r :: r in t.objects && IsCore(r) ==> r in s.objects && t.objects[r] == s.objects[r])
    && s.log <= t.log
    && (forall i :: |s.log| <= i < |t.log| ==> IsSupport(t.log[i]))
  }

  lemma GrowsTransitive(s: Api, t: Api, u: Api)
    requires Grows(s, t) && Grows(t, u)
    ensures Grows(s, u)
  {
  }

  ghost predicate AllSupport(steps: seq<Step>) {
    forall i :: 0 <= i < |steps| ==> !IsCore(steps[i].obj.Id())
  }

  lemma GetGrows(s: Api, ref: Ref)
    ensures Grows(s, GetCall(s, ref).0) && GetCall(s, ref).0.server == s.server
  {
  }

  lemma CreateGrows(s: Api, obj: Object)
    requires !IsCore(obj.Id())
    ensures Grows(s, CreateCall(s, obj).0) && CreateCall(s, obj).0.server == s.server
  {
  }

  lemma UpdateGrows(s: Api, obj: Object)
    requires !IsCore(obj.Id())
    ensures Grows(s, UpdateCall(s, obj).0) && UpdateCall(s, obj).0.server == s.server
  {
  }

  lemma ListGrows(s: Api)
    ensures Grows(s, ListCall(s).0) && ListCall(s).0.server == s.server && ListCall(s).0.objects == s.objects
  {
  }

  lemma GetThenCreateGrows(s: Api, obj: Object)
    requires !IsCore(obj.Id())
    ensures var t := GetCall(s, obj.Id()).0;
            Grows(s, t) && Grows(s, CreateCall(t, obj).0) && CreateCall(t, obj).0.server == t.server == s.server
  {
    var t := GetCall(s, obj.Id()).0;
    GetGrows(s, obj.Id());
    CreateGrows(t, obj);
    GrowsTransitive(s, t, CreateCall(t, obj).0);
  }

  ghost predicate SameAt(a: Store, b: Store, r: Ref) {
    (r in a <==> r in b) && (r in a ==> a[r] == b[r])
  }

  /** Get-or-create, whatever fails: it goes on only after reading the object, and otherwise at most creates it. */
  lemma EnsureEffect(s: Api, obj: Object)
    ensures var e := EnsureObject(s, obj);
            && e.api.server == s.server
            && (e.flow.Next? ==> e.api.log == s.log + [Read(e.found)])
            && (forall r :: r != obj.Id() ==> SameAt(s.objects, e.api.objects, r))
            && s.log <= e.api.log
            && (forall i :: |s.log| <= i < |e.api.log| && e.flow.Return? ==>
                              e.api.log[i].Refused? || e.api.log[i] == Created(obj))
  {
  }

  /** How the last answer decides: found, the pass goes on; created, or reported as existing, it comes back at once;
      any other refusal is its failure. */
  lemma EnsureAnswers(s: Api, obj: Object)
    ensures var e := EnsureObject(s, obj);
            |e.api.log| > |s.log|
            && var last := e.api.log[|e.api.log| - 1];
               && (e.flow.Next? <==> last.Read?)
               && (e.flow == Return(Requeue, None) <==>
                     last == Created(obj) || last == Refused(CREATE, Some(obj.Id()), AlreadyExists))
               && (e.flow.Return? && e.flow != Return(Requeue, None) ==>
                     last.Refused? && e.flow == Return(Empty, Some(ApiError(last.err))))
  {
  }

  /** The same for an object that is overwritten. */
  lemma ApplyAnswers(s: Api, obj: Object)
    ensures var t := ApplyObject(s, obj);
            |t.api.log| > |s.log|
            && var last := t.api.log[|t.api.log| - 1];
               && (t.flow.Next? <==> last.Updated? && last.obj == obj)
               && (t.flow == Return(Requeue, None) <==>
                     last == Created(obj) || last == Refused(CREATE, Some(obj.Id()), AlreadyExists))
               && (t.flow.Return? && t.flow != Return(Requeue, None) ==>
                     last.Refused? && t.flow == Return(Empty, Some(ApiError(last.err))))
  {
  }

  lemma StepGrows(s: Api, step: Step)
    requires !IsCore(step.obj.Id())
    ensures Grows(s, RunStep(s, step).api)
    ensures RunStep(s, step).api.server == s.server
  {
    var obj := step.obj;
    var t := if step.Apply? then UpdateCall(s, obj).0 else GetCall(s, obj.Id()).0;
    GetGrows(s, obj.Id());
    UpdateGrows(s, obj);
    CreateGrows(t, obj);
    GrowsTransitive(s, t, CreateCall(t, obj).0);
  }

  lemma {:induction false} StepsGrow(s: Api, steps: seq<Step>)
    requires AllSupport(steps)
    ensures Grows(s, RunSteps(s, steps).api)
    ensures RunSteps(s, steps).api.server == s.server
    decreases |steps|
  {
    if steps != [] {
      var first := RunStep(s, steps[0]);
      StepGrows(s, steps[0]);
      StepsGrow(first.api, steps[1..]);
      if first.flow.Next? {
        GrowsTransitive(s, first.api, RunSteps(first.api, steps[1..]).api);
      }
    }
  }

  /** The step finds nothing to do: its object exists and, if it is applied, has that content. */
  ghost predicate Met(objects: Store, step: Step) {
    step.obj.Id() in objects && (step.Apply? ==> objects[step.obj.Id()] == step.obj)
  }

  /** No step applies another content than a step of the list does under that name. */
  ghost predicate Consistent(steps: seq<Step>) {
    forall i, j :: 0 <= i < |steps| && 0 <= j < |steps| && steps[j].Apply? && steps[i].obj.Id() == steps[j].obj.Id()
                   ==> steps[i] == steps[j]
  }

  /** Under any failures, a list of steps that lets the pass go on leaves all its objects in place, except those of
      lenient steps. */
  lemma {:induction false} StepsPassedAreMet(s: Api, steps: seq<Step>)
    requires Consistent(steps)
    requires RunSteps(s, steps).flow.Next?
    ensures forall i :: 0 <= i < |steps| && !steps[i].Lenient? ==> Met(RunSteps(s, steps).api.objects, steps[i])
    decreases |steps|
  {
    if steps != [] {
      var first, rest := RunStep(s, steps[0]), steps[1..];
      assert Consistent(rest);
      StepsPassedAreMet(first.api, rest);
      if !steps[0].Lenient? {
        assert Met(first.api.objects, steps[0]);
        MetIsKept(first.api, steps[0], rest);
      }
      forall i | 0 <= i < |steps| && !steps[i].Lenient? ensures Met(RunSteps(s, steps).api.objects, steps[i]) {
        if i > 0 { assert steps[i] == rest[i - 1]; }
      }
    }
  }

  lemma MetIsKeptByStep(s: Api, met: Step, step: Step)
    requires Met(s.objects, met)
    requires (met.Apply? || step.Apply?) && step.obj.Id() == met.obj.Id() ==> step == met
    ensures Met(RunStep(s, step).api.objects, met)
  {
    var obj := step.obj;
    var t := if step.Apply? then UpdateCall(s, obj).0 else GetCall(s, obj.Id()).0;
    assert Met(t.objects, met);
    assert Met(CreateCall(t, obj).0.objects, met);
  }

  lemma {:induction false} MetIsKept(s: Api, met: Step, steps: seq<Step>)
    requires Met(s.objects, met)
    requires forall i :: 0 <= i < |steps| && (steps[i].Apply? || met.Apply?) && steps[i].obj.Id() == met.obj.Id() ==>
                           steps[i] == met
    ensures Met(RunSteps(s, steps).api.objects, met)
    decreases |steps|
  {
    if steps != [] {
      MetIsKeptByStep(s, met, steps[0]);
      MetIsKept(RunStep(s, steps[0]).api, met, steps[1..]);
    }
  }

  /* ---------- what steps do when no call fails ---------- */

  /** The number of steps that still have something to do. */
  ghost function Unmet(objects: Store, steps: seq<Step>): nat {
    if steps == [] then 0 else (if Met(objects, steps[0]) then 0 else 1) + Unmet(objects, steps[1..])
  }

  lemma {:induction false} UnmetDrops(a: Store, b: Store, steps: seq<Step>)
    requires forall i :: 0 <= i < |steps| && Met(a, steps[i]) ==> Met(b, steps[i])
    ensures Unmet(b, steps) <= Unmet(a, steps)
    ensures (exists i :: 0 <= i < |steps| && !Met(a, steps[i]) && Met(b, steps[i])) ==>
              Unmet(b, steps) < Unmet(a, steps)
  {
    if steps != [] {
      UnmetDrops(a, b, steps[1..]);
      if i :| 0 <= i < |steps| && !Met(a, steps[i]) && Met(b, steps[i]) {
        if i > 0 { assert steps[1..][i - 1] == steps[i]; }
      }
    }
  }

  /** Without failures a step either has nothing to do, and then changes nothing and lets the pass go on, or it
      is met afterwards. */
  lemma FaithfulStep(s: Api, step: Step)
    requires s.script == []
    ensures var t := RunStep(s, step);
            && t.api.script == []
            && (Met(s.objects, step) ==> t.api.objects == s.objects && t.flow.Next?)
            && (!Met(s.objects, step) ==>
                  t.api.objects == s.objects[step.obj.Id() := step.obj] && Met(t.api.objects, step))
            && t.flow in {Next, Return(Requeue, None)}
            && (t.flow.Return? ==> !Met(s.objects, step))
  {
  }

  /** Without failures, running some of the steps of a consistent list never adds to what is left to do in it, and
      takes from it if anything is written; nothing is written only if the pass goes on. */
  lemma {:induction false} FaithfulSteps(s: Api, some: seq<Step>, all: seq<Step>)
    requires s.script == []
    requires Consistent(all) && forall i :: 0 <= i < |some| ==> some[i] in all
    ensures var t := RunSteps(s, some);
            && t.api.script == []
            && Unmet(t.api.objects, all) <= Unmet(s.objects, all)
            && (t.api.objects != s.objects ==> Unmet(t.api.objects, all) < Unmet(s.objects, all))
            && (t.api.objects == s.objects ==> t.flow.Next?)
            && t.flow in {Next, Return(Requeue, None)}
    decreases |some|
  {
    if some != [] {
      var step := some[0];
      var first := RunStep(s, step);
      FaithfulStep(s, step);
      if !Met(s.objects, step) {
        forall i | 0 <= i < |all| && Met(s.objects, all[i]) ensures Met(first.api.objects, all[i]) {
          var j :| 0 <= j < |all| && all[j] == step;
        }
        UnmetDrops(s.objects, first.api.objects, all);
      }
      FaithfulSteps(first.api, some[1..], all);
    }
  }
}
