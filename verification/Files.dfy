/** The ConfigMaps and the claim a workload's pods mount: no pass leaves a workload referring to one that is missing,
    or that lacks the file looked for in it. */
module Files {
  import opened WebServerApi
  import opened Digest
  import opened ClusterObjects
  import opened Templates
  import opened Generators
  import opened ClientApi
  import opened Steps
  import opened KubePing
  import opened Workloads
  import opened Builds
  import opened Cleanup
  import opened PodReport
  import opened Controller
  import opened Safety

  /** The key that each of the operator's own ConfigMaps is mounted for. */
  function RequiredKeys(w: WebServer): map<string, string> {
    map[LOGGING_MAP := "logging.properties",
        ScriptsMapName(w) := "test.sh",
        StartMapName(w) := "start.sh",
        LivenessMapName(w) := "livenessProbeScript.sh",
        ReadinessMapName(w) := "readinessProbeScript.sh"]
  }

  /** The ConfigMap exists and holds the key required of it, if any is. */
  ghost predicate HoldsKey(objects: Store, ns: string, keys: map<string, string>, name: string) {
    var r := Ref(ConfigMapKind, ns, name);
    && r in objects && objects[r].body.ConfigMap?
    && (name in keys ==> keys[name] in objects[r].body.data)
  }

  /** A volume of the operator's own carries the name of its source; a user's never does. */
  ghost predicate Resolved(objects: Store, ns: string, keys: map<string, string>, v: Volume) {
    match v.source
    case FromConfigMap(name) => v.name == name ==> HoldsKey(objects, ns, keys, name)
    case FromClaim(name) => v.name == name ==> Ref(ClaimKind, ns, name) in objects
    case FromSecret(_) => true
  }

  ghost predicate AllResolved(objects: Store, ns: string, keys: map<string, string>, volumes: seq<Volume>) {
    forall i :: 0 <= i < |volumes| ==> Resolved(objects, ns, keys, volumes[i])
  }

  /** The workloads of the owner that mount a ConfigMap or claim of the operator's that is missing or incomplete. */
  ghost function Dangling(objects: Store, ns: string, owner: string, keys: map<string, string>): set<Ref> {
    set r | r in objects && IsWorkload(r) && r.ns == ns && objects[r].meta.owner == Some(owner)
            && !(objects[r].body.Workload? && AllResolved(objects, ns, keys, objects[r].body.spec.template.volumes))
  }

  /* ---------- what keeps files ---------- */

  ghost predicate KeepsFiles(a: Store, b: Store, ns: string, keys: map<string, string>) {
    && (forall name :: HoldsKey(a, ns, keys, name) ==> HoldsKey(b, ns, keys, name))
    && (forall r :: r in a && r.kind == ClaimKind ==> r in b)
  }

  lemma KeptFilesStayResolved(a: Store, b: Store, ns: string, keys: map<string, string>, volumes: seq<Volume>)
    requires KeepsFiles(a, b, ns, keys) && AllResolved(a, ns, keys, volumes)
    ensures AllResolved(b, ns, keys, volumes)
  {
  }

  lemma KeepsTransitive(a: Store, b: Store, c: Store, ns: string, keys: map<string, string>)
    requires KeepsFiles(a, b, ns, keys) && KeepsFiles(b, c, ns, keys)
    ensures KeepsFiles(a, c, ns, keys)
  {
  }

  /** Nothing that exists changes. */
  ghost predicate OnlyAdds(a: Store, b: Store) {
    forall r :: r in a ==> r in b && b[r] == a[r]
  }

  lemma AddingKeepsFiles(a: Store, b: Store, ns: string, keys: map<string, string>)
    requires OnlyAdds(a, b)
    ensures KeepsFiles(a, b, ns, keys)
  {
  }

  /** A change at one object that is neither a ConfigMap nor a claim. */
  lemma ChangeElsewhereKeepsFiles(a: Store, b: Store, at: Ref, ns: string, keys: map<string, string>)
    requires forall r :: r != at ==> SameAt(a, b, r)
    requires at.kind != ConfigMapKind && at.kind != ClaimKind
    ensures KeepsFiles(a, b, ns, keys)
  {
    forall name | HoldsKey(a, ns, keys, name) ensures HoldsKey(b, ns, keys, name) {
      assert SameAt(a, b, Ref(ConfigMapKind, ns, name));
    }
    forall r | r in a && r.kind == ClaimKind ensures r in b {
      assert SameAt(a, b, r);
    }
  }

  /** What is applied is a ConfigMap that holds the key required of it. */
  ghost predicate Formed(step: Step, keys: map<string, string>) {
    step.Apply? ==>
      && step.obj.body.ConfigMap?
      && (step.obj.meta.name in keys ==> keys[step.obj.meta.name] in step.obj.body.data)
  }

  lemma EnsureAdds(s: Api, obj: Object)
    ensures OnlyAdds(s.objects, EnsureObject(s, obj).api.objects)
  {
  }

  lemma LenientAdds(s: Api, obj: Object)
    ensures OnlyAdds(s.objects, EnsureLeniently(s, obj).api.objects)
  {
  }

  lemma WritingFormedKeepsFiles(objects: Store, obj: Object, ns: string, keys: map<string, string>)
    requires Formed(Apply(obj), keys)
    ensures KeepsFiles(objects, objects[obj.Id() := obj], ns, keys)
  {
  }

  lemma StepKeepsFiles(s: Api, step: Step, ns: string, keys: map<string, string>)
    requires Formed(step, keys)
    ensures KeepsFiles(s.objects, RunStep(s, step).api.objects, ns, keys)
  {
    var obj, t := step.obj, RunStep(s, step).api.objects;
    match step
    case Ensure(_) => EnsureAdds(s, obj); AddingKeepsFiles(s.objects, t, ns, keys);
    case Lenient(_) => LenientAdds(s, obj); AddingKeepsFiles(s.objects, t, ns, keys);
    case Apply(_) => WritingFormedKeepsFiles(s.objects, obj, ns, keys);
  }

  lemma {:induction false} StepsKeepFiles(s: Api, steps: seq<Step>, ns: string, keys: map<string, string>)
    requires forall i :: 0 <= i < |steps| ==> Formed(steps[i], keys)
    ensures KeepsFiles(s.objects, RunSteps(s, steps).api.objects, ns, keys)
    decreases |steps|
  {
    if steps != [] {
      var first := RunStep(s, steps[0]);
      StepKeepsFiles(s, steps[0], ns, keys);
      if first.flow.Next? {
        StepsKeepFiles(first.api, steps[1..], ns, keys);
        KeepsTransitive(s.objects, first.api.objects, RunSteps(s, steps).api.objects, ns, keys);
      }
    }
  }

  /* ---------- the operator's own ConfigMaps ---------- */

  /** The names of the operator's ConfigMaps are distinct, the one of the builder's script included. */
  lemma KeysByName(w: WebServer)
    ensures var keys := RequiredKeys(w);
            && keys[LOGGING_MAP] == "logging.properties" && keys[ScriptsMapName(w)] == "test.sh"
            && keys[StartMapName(w)] == "start.sh" && keys[LivenessMapName(w)] == "livenessProbeScript.sh"
            && keys[ReadinessMapName(w)] == "readinessProbeScript.sh" && BuildMapName(w) !in keys
  {
    OriginsOfMaps(w);
  }

  lemma OriginsOfMaps(w: WebServer)
    ensures Origin(w, LOGGING_MAP) == 5 && Origin(w, ScriptsMapName(w)) == 9 && Origin(w, StartMapName(w)) == 3
    ensures Origin(w, ReadinessMapName(w)) == 8 && Origin(w, LivenessMapName(w)) == 7
            && Origin(w, BuildMapName(w)) == 10
  {
  }

  lemma SupportIsFormed(w: WebServer)
    ensures forall i :: 0 <= i < |SupportSteps(w)| ==> Formed(SupportSteps(w)[i], RequiredKeys(w))
  {
    KeysByName(w);
    FormedAppend(ScriptSteps(w), LivenessSteps(w), RequiredKeys(w));
    FormedAppend(ScriptSteps(w) + LivenessSteps(w), ReadinessSteps(w), RequiredKeys(w));
    FormedAppend(ScriptSteps(w) + LivenessSteps(w) + ReadinessSteps(w), StartSteps(w), RequiredKeys(w));
    FormedAppend(ScriptSteps(w) + LivenessSteps(w) + ReadinessSteps(w) + StartSteps(w), LogSteps(w), RequiredKeys(w));
  }

  lemma FormedAppend(a: seq<Step>, b: seq<Step>, keys: map<string, string>)
    requires forall i :: 0 <= i < |a| ==> Formed(a[i], keys)
    requires forall i :: 0 <= i < |b| ==> Formed(b[i], keys)
    ensures forall i :: 0 <= i < |a + b| ==> Formed((a + b)[i], keys)
  {
  }

  /** The step that writes the ConfigMap of a name. */
  function MapStep(w: WebServer, name: string): Step {
    if Origin(w, name) == 5 then Apply(LoggingMap(w))
    else if Origin(w, name) == 3 then Apply(StartMap(w))
    else if Origin(w, name) == 7 && HasLiveness(w) then Apply(LivenessMap(w))
    else if Origin(w, name) == 8 && HasReadiness(w) then Apply(ReadinessMap(w))
    else if Origin(w, name) == 10 && BuildsWebApp(w) then Apply(BuildMap(w))
    else Apply(ScriptsMap(w))
  }

  /** ConfigMaps are applied, nothing else is, and each name stands for one content. */
  ghost predicate WellNamed(w: WebServer, steps: seq<Step>) {
    forall i :: 0 <= i < |steps| ==>
                  && (steps[i].Apply? <==> steps[i].obj.body.ConfigMap?)
                  && (steps[i].Apply? ==> steps[i] == MapStep(w, steps[i].obj.meta.name))
  }

  lemma WellNamedIsConsistent(w: WebServer, steps: seq<Step>)
    requires WellNamed(w, steps)
    ensures Consistent(steps)
  {
  }

  lemma WellNamedAppend(w: WebServer, a: seq<Step>, b: seq<Step>)
    requires WellNamed(w, a) && WellNamed(w, b)
    ensures WellNamed(w, a + b)
  {
  }

  lemma MapsAreWellNamed(w: WebServer)
    ensures WellNamed(w, ScriptSteps(w)) && WellNamed(w, LivenessSteps(w)) && WellNamed(w, ReadinessSteps(w))
            && WellNamed(w, StartSteps(w)) && WellNamed(w, LogSteps(w))
  {
    OriginsOfMaps(w);
  }

  lemma SupportIsWellNamed(w: WebServer)
    ensures WellNamed(w, SupportSteps(w))
  {
    MapsAreWellNamed(w);
    WellNamedAppend(w, ScriptSteps(w), LivenessSteps(w));
    WellNamedAppend(w, ScriptSteps(w) + LivenessSteps(w), ReadinessSteps(w));
    WellNamedAppend(w, ScriptSteps(w) + LivenessSteps(w) + ReadinessSteps(w), StartSteps(w));
    WellNamedAppend(w, ScriptSteps(w) + LivenessSteps(w) + ReadinessSteps(w) + StartSteps(w), LogSteps(w));
  }

  ghost predicate AllMet(objects: Store, steps: seq<Step>) {
    forall i :: 0 <= i < |steps| ==> Met(objects, steps[i])
  }

  lemma AllMetParts(objects: Store, a: seq<Step>, b: seq<Step>)
    requires AllMet(objects, a + b)
    ensures AllMet(objects, a) && AllMet(objects, b)
  {
    forall i | 0 <= i < |a| ensures Met(objects, a[i]) { assert (a + b)[i] == a[i]; }
    forall i | 0 <= i < |b| ensures Met(objects, b[i]) { assert (a + b)[|a| + i] == b[i]; }
  }

  lemma PartsOfSupport(objects: Store, w: WebServer)
    requires AllMet(objects, SupportSteps(w))
    ensures AllMet(objects, ScriptSteps(w)) && AllMet(objects, LivenessSteps(w)) && AllMet(objects, ReadinessSteps(w))
            && AllMet(objects, StartSteps(w)) && AllMet(objects, LogSteps(w))
  {
    var a := ScriptSteps(w);
    var b := a + LivenessSteps(w);
    var c := b + ReadinessSteps(w);
    var d := c + StartSteps(w);
    AllMetParts(objects, d, LogSteps(w));
    AllMetParts(objects, c, StartSteps(w));
    AllMetParts(objects, b, ReadinessSteps(w));
    AllMetParts(objects, a, LivenessSteps(w));
  }

  lemma ResolvedAppend(objects: Store, ns: string, keys: map<string, string>, a: seq<Volume>, b: seq<Volume>)
    requires AllResolved(objects, ns, keys, a) && AllResolved(objects, ns, keys, b)
    ensures AllResolved(objects, ns, keys, a + b)
  {
  }

  lemma OneResolved(objects: Store, w: WebServer, keys: map<string, string>, step: Step, v: Volume)
    requires Met(objects, step) && Formed(step, keys) && step.obj.meta.ns == w.ns
    requires step.obj.body.ConfigMap? ==> step.Apply?
    requires || (v.source == FromConfigMap(step.obj.meta.name) && step.obj.body.ConfigMap?)
             || (v.source == FromClaim(step.obj.meta.name) && step.obj.body.Claim?)
    ensures Resolved(objects, w.ns, keys, v)
  {
  }

  lemma LogVolumesResolved(objects: Store, w: WebServer)
    requires AllMet(objects, LogSteps(w))
    ensures AllResolved(objects, w.ns, RequiredKeys(w), LogVolumes(w))
  {
    if KeepsLogs(w) {
      KeysByName(w);
      assert Met(objects, LogSteps(w)[0]) && Met(objects, LogSteps(w)[1]);
      OneResolved(objects, w, RequiredKeys(w), Apply(LoggingMap(w)), LogVolumes(w)[0]);
      OneResolved(objects, w, RequiredKeys(w), Ensure(LogClaim(w)), LogVolumes(w)[1]);
    }
  }

  lemma ScriptVolumesResolved(objects: Store, w: WebServer)
    requires AllMet(objects, ScriptSteps(w))
    ensures AllResolved(objects, w.ns, RequiredKeys(w), ScriptVolumes(w))
  {
    if EditsServerXml(w) {
      KeysByName(w);
      assert Met(objects, ScriptSteps(w)[0]);
      OneResolved(objects, w, RequiredKeys(w), Apply(ScriptsMap(w)), ScriptVolumes(w)[0]);
    }
  }

  lemma StartVolumesResolved(objects: Store, w: WebServer)
    requires AllMet(objects, StartSteps(w))
    ensures AllResolved(objects, w.ns, RequiredKeys(w), StartVolumes(w))
  {
    if w.spec.isNotJWS {
      KeysByName(w);
      assert Met(objects, StartSteps(w)[0]);
      OneResolved(objects, w, RequiredKeys(w), Apply(StartMap(w)), StartVolumes(w)[0]);
    }
  }

  lemma LivenessVolumesResolved(objects: Store, w: WebServer)
    requires AllMet(objects, LivenessSteps(w))
    ensures AllResolved(objects, w.ns, RequiredKeys(w), LivenessVolumes(w))
  {
    if HasLiveness(w) {
      KeysByName(w);
      assert Met(objects, LivenessSteps(w)[0]);
      OneResolved(objects, w, RequiredKeys(w), Apply(LivenessMap(w)), LivenessVolumes(w)[0]);
    }
  }

  lemma ReadinessVolumesResolved(objects: Store, w: WebServer)
    requires AllMet(objects, ReadinessSteps(w))
    ensures AllResolved(objects, w.ns, RequiredKeys(w), ReadinessVolumes(w))
  {
    if HasReadiness(w) {
      KeysByName(w);
      assert Met(objects, ReadinessSteps(w)[0]);
      OneResolved(objects, w, RequiredKeys(w), Apply(ReadinessMap(w)), ReadinessVolumes(w)[0]);
    }
  }

  /** A user's volume never carries the name of its source. */
  lemma UserVolumesResolved(objects: Store, ns: string, keys: map<string, string>, w: WebServer)
    ensures AllResolved(objects, ns, keys, UserVolumes(w)) && AllResolved(objects, ns, keys, TLSVolumes(w))
  {
  }

  /** Where all support steps are met, the volumes of the generated template are resolved: the conditions under
      which volumes are generated are those under which their sources are written. */
  lemma SupportResolvesVolumes(objects: Store, w: WebServer)
    requires AllMet(objects, SupportSteps(w))
    ensures AllResolved(objects, w.ns, RequiredKeys(w), Volumes(w))
  {
    var ns, keys := w.ns, RequiredKeys(w);
    PartsOfSupport(objects, w);
    LogVolumesResolved(objects, w);
    ScriptVolumesResolved(objects, w);
    StartVolumesResolved(objects, w);
    ReadinessVolumesResolved(objects, w);
    LivenessVolumesResolved(objects, w);
    UserVolumesResolved(objects, ns, keys, w);
    var a := LogVolumes(w) + ScriptVolumes(w);
    var b := a + StartVolumes(w);
    var c := b + ReadinessVolumes(w);
    ResolvedAppend(objects, ns, keys, LogVolumes(w), ScriptVolumes(w));
    ResolvedAppend(objects, ns, keys, a, StartVolumes(w));
    ResolvedAppend(objects, ns, keys, b, ReadinessVolumes(w));
    ResolvedAppend(objects, ns, keys, c, LivenessVolumes(w));
    ResolvedAppend(objects, ns, keys, OperatorVolumes(w), UserVolumes(w));
    ResolvedAppend(objects, ns, keys, OperatorVolumes(w) + UserVolumes(w), TLSVolumes(w));
  }

  /* ---------- the files a pod names ---------- */

  /** The mount puts a key of the ConfigMap at that path: the key itself if it has a sub-path, a directory else. */
  predicate Shows(m: Mount, v: Volume, data: map<string, Content>, path: string) {
    && m.name == v.name
    && if m.subPath != "" then m.path == path && m.subPath in data
       else exists key :: key in data && path == m.path + "/" + key
  }

  /** A container with those mounts and volumes finds a file of a ConfigMap at that path. */
  ghost predicate FileAt(objects: Store, ns: string, mounts: seq<Mount>, volumes: seq<Volume>, path: string) {
    exists m, v :: m in mounts && v in volumes && v.source.FromConfigMap?
                   && var r := Ref(ConfigMapKind, ns, v.source.name);
                   r in objects && objects[r].body.ConfigMap? && Shows(m, v, objects[r].body.data, path)
  }

  lemma FileAtMore(objects: Store, ns: string, ms: seq<Mount>, vs: seq<Volume>, mounts: seq<Mount>,
                   volumes: seq<Volume>,
                   path: string)
    requires FileAt(objects, ns, ms, vs, path)
    requires forall m :: m in ms ==> m in mounts
    requires forall v :: v in vs ==> v in volumes
    ensures FileAt(objects, ns, mounts, volumes, path)
  {
  }

  lemma FileShown(objects: Store, ns: string, m: Mount, v: Volume, obj: Object, key: string, path: string)
    requires Met(objects, Apply(obj)) && obj.body.ConfigMap? && obj.meta.ns == ns && key in obj.body.data
    requires v.source == FromConfigMap(obj.meta.name) && m.name == v.name
    requires if m.subPath != "" then m.path == path && m.subPath == key else path == m.path + "/" + key
    ensures FileAt(objects, ns, [m], [v], path)
  {
    assert m in [m] && v in [v];
    assert obj.Id() == Ref(ConfigMapKind, ns, v.source.name);
    assert Shows(m, v, objects[obj.Id()].body.data, path);
  }

  lemma ScriptIsShown(objects: Store, w: WebServer)
    requires AllMet(objects, ScriptSteps(w)) && EditsServerXml(w)
    ensures FileAt(objects, w.ns, ScriptMounts(w), ScriptVolumes(w), "/env/my-files/test.sh")
  {
    assert Met(objects, ScriptSteps(w)[0]);
    assert "/env/my-files" + "/" + "test.sh" == "/env/my-files/test.sh";
    FileShown(objects, w.ns, ScriptMounts(w)[0], ScriptVolumes(w)[0], ScriptsMap(w), "test.sh",
        "/env/my-files/test.sh");
  }

  lemma StartIsShown(objects: Store, w: WebServer)
    requires AllMet(objects, StartSteps(w)) && w.spec.isNotJWS
    ensures FileAt(objects, w.ns, StartMounts(w), StartVolumes(w), "/opt/start/start.sh")
  {
    assert Met(objects, StartSteps(w)[0]);
    assert "/opt/start" + "/" + "start.sh" == "/opt/start/start.sh";
    FileShown(objects, w.ns, StartMounts(w)[0], StartVolumes(w)[0], StartMap(w), "start.sh", "/opt/start/start.sh");
  }

  lemma LivenessIsShown(objects: Store, w: WebServer)
    requires AllMet(objects, LivenessSteps(w)) && HasLiveness(w)
    ensures FileAt(objects, w.ns, LivenessMounts(w), LivenessVolumes(w), "/opt/probe/livenessProbeScript.sh")
  {
    assert Met(objects, LivenessSteps(w)[0]);
    FileShown(objects, w.ns, LivenessMounts(w)[0], LivenessVolumes(w)[0], LivenessMap(w), "livenessProbeScript.sh",
              "/opt/probe/livenessProbeScript.sh");
  }

  lemma ReadinessIsShown(objects: Store, w: WebServer)
    requires AllMet(objects, ReadinessSteps(w)) && HasReadiness(w)
    ensures FileAt(objects, w.ns, ReadinessMounts(w), ReadinessVolumes(w), "/opt/probe/readinessProbeScript.sh")
  {
    assert Met(objects, ReadinessSteps(w)[0]);
    FileShown(objects, w.ns, ReadinessMounts(w)[0], ReadinessVolumes(w)[0], ReadinessMap(w), "readinessProbeScript.sh",
              "/opt/probe/readinessProbeScript.sh");
  }

  lemma LoggingIsShown(objects: Store, w: WebServer)
    requires AllMet(objects, LogSteps(w)) && KeepsLogs(w)
    ensures FileAt(objects, w.ns, LogMounts(w), LogVolumes(w), "/opt/operator_conf/logging.properties")
  {
    assert Met(objects, LogSteps(w)[0]);
    FileShown(objects, w.ns, LogMounts(w)[0], LogVolumes(w)[0], LoggingMap(w), "logging.properties",
              "/opt/operator_conf/logging.properties");
    FileAtMore(objects, w.ns, [LogMounts(w)[0]], [LogVolumes(w)[0]], LogMounts(w), LogVolumes(w),
               "/opt/operator_conf/logging.properties");
  }

  /** A part of the mounts and the volumes of the generated pod. */
  ghost predicate IsPart(w: WebServer, ms: seq<Mount>, vs: seq<Volume>) {
    (forall m :: m in ms ==> m in VolumeMounts(w)) && (forall v :: v in vs ==> v in Volumes(w))
  }

  lemma PartsOfThePod(w: WebServer)
    ensures IsPart(w, LogMounts(w), LogVolumes(w)) && IsPart(w, ScriptMounts(w), ScriptVolumes(w))
            && IsPart(w, StartMounts(w), StartVolumes(w)) && IsPart(w, LivenessMounts(w), LivenessVolumes(w))
            && IsPart(w, ReadinessMounts(w), ReadinessVolumes(w))
  {
  }

  /** The generated pod finds a file of a ConfigMap at that path. */
  ghost predicate PodFinds(objects: Store, w: WebServer, path: string) {
    FileAt(objects, w.ns, VolumeMounts(w), Volumes(w), path)
  }

  lemma FoundInPart(objects: Store, w: WebServer, ms: seq<Mount>, vs: seq<Volume>, path: string)
    requires IsPart(w, ms, vs) && FileAt(objects, w.ns, ms, vs, path)
    ensures PodFinds(objects, w, path)
  {
    FileAtMore(objects, w.ns, ms, vs, VolumeMounts(w), Volumes(w), path);
  }

  lemma FilesAreFound(objects: Store, w: WebServer)
    requires AllMet(objects, SupportSteps(w))
    ensures EditsServerXml(w) ==> PodFinds(objects, w, "/env/my-files/test.sh")
    ensures w.spec.isNotJWS ==> PodFinds(objects, w, "/opt/start/start.sh")
    ensures HasLiveness(w) ==> PodFinds(objects, w, "/opt/probe/livenessProbeScript.sh")
    ensures HasReadiness(w) ==> PodFinds(objects, w, "/opt/probe/readinessProbeScript.sh")
    ensures KeepsLogs(w) ==> PodFinds(objects, w, "/opt/operator_conf/logging.properties")
  {
    PartsOfSupport(objects, w);
    PartsOfThePod(w);
    if EditsServerXml(w) {
      ScriptIsShown(objects, w);
      FoundInPart(objects, w, ScriptMounts(w), ScriptVolumes(w), "/env/my-files/test.sh");
    }
    if w.spec.isNotJWS {
      StartIsShown(objects, w);
      FoundInPart(objects, w, StartMounts(w), StartVolumes(w), "/opt/start/start.sh");
    }
    if HasLiveness(w) {
      LivenessIsShown(objects, w);
      FoundInPart(objects, w, LivenessMounts(w), LivenessVolumes(w), "/opt/probe/livenessProbeScript.sh");
    }
    if HasReadiness(w) {
      ReadinessIsShown(objects, w);
      FoundInPart(objects, w, ReadinessMounts(w), ReadinessVolumes(w), "/opt/probe/readinessProbeScript.sh");
    }
    if KeepsLogs(w) {
      LoggingIsShown(objects, w);
      FoundInPart(objects, w, LogMounts(w), LogVolumes(w), "/opt/operator_conf/logging.properties");
    }
  }

  lemma NamesInTemplate(p: Platform, w: WebServer, image: string)
    ensures var t := Template(p, w, image);
            && (t.startScript.Some? ==> w.spec.isNotJWS && t.startScript.value == "/opt/start/start.sh")
            && (t.liveness.ScriptProbe? ==> HasLiveness(w) && t.liveness.path == "/opt/probe/livenessProbeScript.sh")
            && (t.readiness.ScriptProbe? ==>
                  HasReadiness(w) && t.readiness.path == "/opt/probe/readinessProbeScript.sh")
  {
  }

  lemma NamesInEnv(w: WebServer, e: EnvVar)
    requires e in OperatorEnv(w) && e.name == "ENV_FILES"
    ensures EditsServerXml(w) && e.value == "/env/my-files/test.sh"
  {
  }

  /** Every file of the operator's that the generated pod names - in its environment, as its start script, as its
      probes - is where it is looked for. */
  ghost predicate FindsItsFiles(objects: Store, p: Platform, w: WebServer, image: string) {
    var t := Template(p, w, image);
    && (t.startScript.Some? ==> PodFinds(objects, w, t.startScript.value))
    && (t.liveness.ScriptProbe? ==> PodFinds(objects, w, t.liveness.path))
    && (t.readiness.ScriptProbe? ==> PodFinds(objects, w, t.readiness.path))
    && (forall e :: e in OperatorEnv(w) && e.name == "ENV_FILES" ==> PodFinds(objects, w, e.value))
    && (KeepsLogs(w) ==> PodFinds(objects, w, "/opt/operator_conf/logging.properties"))
  }

  /** Once the support steps are met, the pod finds its files. */
  lemma NamedFilesExist(objects: Store, p: Platform, w: WebServer, image: string)
    requires AllMet(objects, SupportSteps(w))
    ensures FindsItsFiles(objects, p, w, image)
  {
    NamesInTemplate(p, w, image);
    FilesAreFound(objects, w);
    forall e | e in OperatorEnv(w) && e.name == "ENV_FILES" ensures PodFinds(objects, w, e.value) {
      NamesInEnv(w, e);
    }
  }

  /* ---------- the parts of a pass ---------- */

  lemma CreateAdds(s: Api, obj: Object)
    ensures OnlyAdds(s.objects, CreateCall(s, obj).0.objects)
  {
  }

  lemma BindRoleAdds(s: Api, w: WebServer)
    ensures OnlyAdds(s.objects, BindRole(s, w).api.objects)
  {
    var binding := KubePingRoleBinding(w);
    var u := GetCall(ListCall(s).0, binding.Id()).0;
    CreateAdds(u, binding);
    assert u.objects == s.objects;
    assert BindRole(s, w).api.objects in {s.objects, CreateCall(u, binding).0.objects};
  }

  lemma DecideAdds(s: Api, w: WebServer)
    ensures OnlyAdds(s.objects, Decide(s, w).api.objects)
  {
    if w.spec.useSessionClustering {
      if NeedUseKUBEPing(w) {
        BindRoleAdds(s, w);
        assert Decide(s, w).api.objects == BindRole(s, w).api.objects;
      } else {
        EnsureAdds(s, DNSService(w));
      }
    }
  }

  lemma {:induction false} EnsuringAdds(s: Api, steps: seq<Step>)
    requires forall i :: 0 <= i < |steps| ==> !steps[i].Apply?
    ensures OnlyAdds(s.objects, RunSteps(s, steps).api.objects)
    decreases |steps|
  {
    if steps != [] {
      var first := RunStep(s, steps[0]);
      if steps[0].Ensure? { EnsureAdds(s, steps[0].obj); } else { LenientAdds(s, steps[0].obj); }
      if first.flow.Next? {
        EnsuringAdds(first.api, steps[1..]);
      }
    }
  }

  lemma DecideAfterAdds(s: Api, w: WebServer, monitors: seq<Step>, usable: bool, routing: Object)
    requires forall i :: 0 <= i < |monitors| ==> !monitors[i].Apply?
    ensures OnlyAdds(s.objects, DecideAfter(s, w, monitors, usable, routing).api.objects)
  {
    var monitored := RunSteps(s, monitors);
    EnsuringAdds(s, monitors);
    if monitored.flow.Next? && usable {
      EnsureAdds(monitored.api, routing);
      var routed := RunStep(monitored.api, Ensure(routing));
      if routed.flow.Next? {
        DecideAdds(routed.api, w);
      }
    }
  }

  lemma FrontAdds(p: Platform, s: Api, w: WebServer)
    ensures OnlyAdds(s.objects, Front(p, s, w).api.objects)
  {
    DecideAfterAdds(s, w, MonitorSteps(p, w), Usable(p, w), RoutingService(w));
  }

  lemma BackKeepsFiles(p: Platform, s: Api, w: WebServer)
    ensures var back := Back(p, s, w);
            && KeepsFiles(s.objects, back.api.objects, w.ns, RequiredKeys(w))
            && (back.flow.Next? ==> AllResolved(back.api.objects, w.ns, RequiredKeys(w), Volumes(w)))
  {
    var supported, keys := RunSteps(s, SupportSteps(w)), RequiredKeys(w);
    SupportIsFormed(w);
    StepsKeepFiles(s, SupportSteps(w), w.ns, keys);
    if supported.flow.Next? {
      SupportIsMet(s, w);
      SupportResolvesVolumes(supported.api.objects, w);
      ExposeKeepsFiles(p, supported.api, w, keys);
      KeepsTransitive(s.objects, supported.api.objects, Back(p, s, w).api.objects, w.ns, keys);
      BackEffect(p, s, w);
    }
  }

  lemma SupportIsMet(s: Api, w: WebServer)
    requires RunSteps(s, SupportSteps(w)).flow.Next?
    ensures AllMet(RunSteps(s, SupportSteps(w)).api.objects, SupportSteps(w))
  {
    SupportIsWellNamed(w);
    WellNamedIsConsistent(w, SupportSteps(w));
    StepsPassedAreMet(s, SupportSteps(w));
    SupportIsNotLenient(w);
  }

  lemma SupportIsNotLenient(w: WebServer)
    ensures forall i :: 0 <= i < |SupportSteps(w)| ==> !SupportSteps(w)[i].Lenient?
  {
  }

  lemma ExposeKeepsFiles(p: Platform, s: Api, w: WebServer, keys: map<string, string>)
    ensures KeepsFiles(s.objects, Expose(p, s, w).api.objects, w.ns, keys)
  {
    if Exposure(p, w).Some? {
      EnsureAdds(s, Exposure(p, w).value);
    }
    AddingKeepsFiles(s.objects, Expose(p, s, w).api.objects, w.ns, keys);
  }

  /** Whatever fails and whatever the store, a pass that gets to its rollout has put everything in place that the
      pods to be rolled out mount, the claim included, and every file that they name. */
  lemma FilesComeBeforeRollout(p: Platform, s: Api, w: WebServer, image: string)
    requires Back(p, s, w).flow.Next?
    ensures AllResolved(Back(p, s, w).api.objects, w.ns, RequiredKeys(w), Template(p, w, image).volumes)
    ensures FindsItsFiles(Back(p, s, w).api.objects, p, w, image)
  {
    BackEffect(p, s, w);
    BackKeepsFiles(p, s, w);
    SupportIsMet(s, w);
    NamedFilesExist(Back(p, s, w).api.objects, p, w, image);
  }

  /** The ConfigMap of that name holds exactly that entry. */
  ghost predicate HoldsEntry(objects: Store, w: WebServer, name: string, key: string, content: Content) {
    var r := Ref(ConfigMapKind, w.ns, name);
    r in objects && objects[r].body == ConfigMap(map[key := content])
  }

  /** The probes, as the specification gives them for either kind of deployment. */
  function Probes(w: WebServer): HealthCheck {
    if w.spec.webImage.Some? then
      if w.spec.webImage.value.health.Some? then w.spec.webImage.value.health.value else HealthCheck("", "")
    else if w.spec.webImageStream.Some? && w.spec.webImageStream.value.health.Some? then
      w.spec.webImageStream.value.health.value
    else HealthCheck("", "")
  }

  lemma AppliedIsThere(objects: Store, steps: seq<Step>, obj: Object)
    requires AllMet(objects, steps) && Apply(obj) in steps
    ensures obj.Id() in objects && objects[obj.Id()] == obj
  {
    var i :| 0 <= i < |steps| && steps[i] == Apply(obj);
    assert Met(objects, steps[i]);
  }

  ghost predicate ProbesHold(objects: Store, w: WebServer) {
    var liveness, readiness := Probes(w).livenessScript, Probes(w).readinessScript;
    && (liveness != "" ==> HoldsEntry(objects, w, "livenessprobescript-sh-webserver-" + w.name,
                                      "livenessProbeScript.sh", Text("#!/bin/sh\n" + liveness)))
    && (readiness != "" ==> HoldsEntry(objects, w, "readinessprobescript-sh-webserver-" + w.name,
                                       "readinessProbeScript.sh", Text("#!/bin/sh\n" + readiness)))
  }

  ghost predicate StartFilesHold(objects: Store, w: WebServer) {
    var logging := w.spec.logs.catalinaLogs || w.spec.logs.accessLogs;
    && (w.spec.isNotJWS ==> HoldsEntry(objects, w, "start-sh-webserver-" + w.name, "start.sh", StartScript(logging)))
    && (logging ==> HoldsEntry(objects, w, "config-volume", "logging.properties", LoggingProperties))
  }

  ghost predicate EnvFileHolds(objects: Store, w: WebServer) {
    var tls, logs := "tls" <= w.spec.tls.routeHostname, w.spec.logs;
    tls || w.spec.useSessionClustering || logs.accessLogs || logs.catalinaLogs ==>
      HoldsEntry(objects, w, "webserver-" + w.name, "test.sh", ServerXmlScript(
                 if !w.spec.useSessionClustering then None
                 else if Annotation(w, "UseKUBEPing") == "false" then Some(DNSMembershipProvider)
                 else Some(KubernetesMembershipProvider),
                 tls, w.spec.tls.certificateVerification, logs.accessLogs))
  }

  lemma ProbesAreThere(objects: Store, w: WebServer)
    requires AllMet(objects, SupportSteps(w))
    ensures ProbesHold(objects, w)
  {
    if Probes(w).livenessScript != "" {
      assert LivenessSteps(w) == [Apply(LivenessMap(w))];
      assert LivenessSteps(w)[0] in SupportSteps(w);
      AppliedIsThere(objects, SupportSteps(w), LivenessMap(w));
    }
    if Probes(w).readinessScript != "" {
      assert ReadinessSteps(w) == [Apply(ReadinessMap(w))];
      assert ReadinessSteps(w)[0] in SupportSteps(w);
      AppliedIsThere(objects, SupportSteps(w), ReadinessMap(w));
    }
  }

  lemma StartFilesAreThere(objects: Store, w: WebServer)
    requires AllMet(objects, SupportSteps(w))
    ensures StartFilesHold(objects, w)
  {
    if w.spec.isNotJWS {
      assert StartSteps(w)[0] in SupportSteps(w);
      AppliedIsThere(objects, SupportSteps(w), StartMap(w));
    }
    if KeepsLogs(w) {
      assert LogSteps(w)[0] in SupportSteps(w);
      AppliedIsThere(objects, SupportSteps(w), LoggingMap(w));
    }
  }

  lemma EnvFileIsThere(objects: Store, w: WebServer)
    requires AllMet(objects, SupportSteps(w))
    ensures EnvFileHolds(objects, w)
  {
    if EditsServerXml(w) {
      assert ScriptSteps(w)[0] in SupportSteps(w);
      AppliedIsThere(objects, SupportSteps(w), ScriptsMap(w));
    }
  }

  /** And they hold what the specification says: whatever the store and the answers, a pass that gets to its rollout
      has overwritten each ConfigMap that differed. */
  lemma FilesHoldTheSpecification(p: Platform, s: Api, w: WebServer)
    requires Back(p, s, w).flow.Next?
    ensures var t := Back(p, s, w).api.objects; ProbesHold(t, w) && StartFilesHold(t, w) && EnvFileHolds(t, w)
  {
    BackEffect(p, s, w);
    SupportIsMet(s, w);
    ProbesAreThere(Back(p, s, w).api.objects, w);
    StartFilesAreThere(Back(p, s, w).api.objects, w);
    EnvFileIsThere(Back(p, s, w).api.objects, w);
  }

  /* ---------- what is rolled out ---------- */

  /** The goal generates the same volumes whether it creates or overwrites. */
  ghost predicate MountsVolumes(g: WorkloadGoal, volumes: seq<Volume>) {
    && g.created.body.Workload? && g.created.body.spec.template.volumes == volumes
    && g.spec.template.volumes == volumes
  }

  /** What is to be mounted, in which namespace, with which keys, by workloads of which digest. */
  datatype Mounting = Mounting(ns: string, keys: map<string, string>, hash: string, volumes: seq<Volume>)

  ghost function MountingOf(p: Platform, w: WebServer): Mounting {
    Mounting(w.ns, RequiredKeys(w), WebServerHash(p.hashing, w), Volumes(w))
  }

  /** Everything to be mounted is there. */
  ghost predicate Ready(objects: Store, m: Mounting) {
    AllResolved(objects, m.ns, m.keys, m.volumes)
  }

  /** A write that generates the workload: its creation, or the update of one of another digest. */
  predicate Generates(e: Event, hash: string) {
    IsRollout(e) && (e.Created? || (DigestOf(e.was) != "" && DigestOf(e.was) != hash))
  }

  predicate HasVolumes(o: Object, volumes: seq<Volume>) {
    o.body.Workload? && o.body.spec.template.volumes == volumes
  }

  predicate KeptMounts(a: Store, b: Store, r: Ref) {
    r in a && r in b && a[r].body.Workload? && a[r].meta.owner == b[r].meta.owner
    && HasVolumes(b[r], a[r].body.spec.template.volumes)
  }

  /** A part of a pass loses no file; it writes a workload only when everything to be mounted is there, and generates
      it with those volumes; and a workload it leaves mounts what it did before, or those volumes. */
  ghost predicate Mounts(s: Api, t: Api, m: Mounting) {
    && s.log <= t.log
    && KeepsFiles(s.objects, t.objects, m.ns, m.keys)
    && (forall i :: |s.log| <= i < |t.log| && IsRollout(t.log[i]) ==>
                      Ready(t.objects, m) && (Generates(t.log[i], m.hash) ==> HasVolumes(t.log[i].obj, m.volumes)))
    && (forall r :: r in t.objects && IsWorkload(r) ==>
                      KeptMounts(s.objects, t.objects, r) || (Ready(t.objects, m)
                          && HasVolumes(t.objects[r], m.volumes)))
  }

  lemma MountsTransitive(s: Api, t: Api, u: Api, m: Mounting)
    requires Mounts(s, t, m) && Mounts(t, u, m)
    ensures Mounts(s, u, m)
  {
    if Ready(t.objects, m) { KeptFilesStayResolved(t.objects, u.objects, m.ns, m.keys, m.volumes); }
    forall i | |s.log| <= i < |t.log| ensures u.log[i] == t.log[i] {}
  }

  /** A part that touches no workload but for deleting some. */
  lemma QuietMounts(s: Api, t: Api, m: Mounting)
    requires s.log <= t.log && KeepsFiles(s.objects, t.objects, m.ns, m.keys)
    requires forall i :: |s.log| <= i < |t.log| ==> !IsRollout(t.log[i])
    requires forall r :: r in t.objects && IsWorkload(r) ==> SameAt(s.objects, t.objects, r)
    ensures Mounts(s, t, m)
  {
    forall r | r in t.objects && IsWorkload(r) ensures KeptMounts(s.objects, t.objects, r) {
      assert SameAt(s.objects, t.objects, r) && t.objects[r].Id() == r;
    }
  }

  lemma SupportMounts(s: Api, t: Api, m: Mounting)
    requires Grows(s, t) && KeepsFiles(s.objects, t.objects, m.ns, m.keys)
    ensures Mounts(s, t, m)
  {
    forall i | |s.log| <= i < |t.log| ensures !IsRollout(t.log[i]) { assert IsSupport(t.log[i]); }
    QuietMounts(s, t, m);
  }

  lemma MountsAddsNoDangling(s: Api, t: Api, m: Mounting, owner: string)
    requires Mounts(s, t, m)
    ensures Dangling(t.objects, m.ns, owner, m.keys) <= Dangling(s.objects, m.ns, owner, m.keys)
  {
    forall r | r in Dangling(t.objects, m.ns, owner, m.keys) ensures r in Dangling(s.objects, m.ns, owner, m.keys) {
      assert KeptMounts(s.objects, t.objects, r);
      var volumes := s.objects[r].body.spec.template.volumes;
      if AllResolved(s.objects, m.ns, m.keys, volumes) {
        KeptFilesStayResolved(s.objects, t.objects, m.ns, m.keys, volumes);
      }
    }
  }

  lemma ContinueMounts(s: Api, g: WorkloadGoal, m: Mounting)
    requires IsFor(g, g.created.Id()) && IsWorkload(g.created.Id())
    requires MountsVolumes(g, m.volumes) && g.hash == m.hash && Ready(s.objects, m)
    ensures Mounts(s, ContinueWith(s, g).api, m)
  {
    var t, target := ContinueWith(s, g).api, g.created.Id();
    ContinueIsSafe(s, g);
    ContinueWrites(s, g);
    ChangeElsewhereKeepsFiles(s.objects, t.objects, target, m.ns, m.keys);
    KeptFilesStayResolved(s.objects, t.objects, m.ns, m.keys, m.volumes);
    forall r | r in t.objects && IsWorkload(r)
      ensures KeptMounts(s.objects, t.objects, r) || HasVolumes(t.objects[r], m.volumes)
    {
      assert t.objects[r].Id() == r;
      if r != target { assert SameAt(s.objects, t.objects, r); } else { TargetMounts(s, g, m.volumes); }
    }
  }

  lemma TargetMounts(s: Api, g: WorkloadGoal, volumes: seq<Volume>)
    requires IsFor(g, g.created.Id()) && IsWorkload(g.created.Id()) && MountsVolumes(g, volumes)
    requires g.created.Id() in ContinueWith(s, g).api.objects
    ensures var t, r := ContinueWith(s, g).api.objects, g.created.Id();
            KeptMounts(s.objects, t, r) || HasVolumes(t[r], volumes)
  {
    ContinueMakes(s, g);
  }

  lemma PodGateKeepsFiles(s: Api, pod: Object, ns: string, keys: map<string, string>)
    requires pod.body.Pod?
    ensures KeepsFiles(s.objects, GatePod(s, pod).api.objects, ns, keys)
  {
    PodGateIsSafe(s, pod);
    ChangeElsewhereKeepsFiles(s.objects, GatePod(s, pod).api.objects, pod.Id(), ns, keys);
  }

  lemma BuildGateKeepsFiles(s: Api, b: BuildGoal, ns: string, keys: map<string, string>)
    requires b.pod.body.Pod? && (b.script.Some? ==> Formed(Apply(b.script.value), keys))
    ensures KeepsFiles(s.objects, GateBuild(s, b).api.objects, ns, keys)
  {
    if b.script.None? {
      PodGateKeepsFiles(s, b.pod, ns, keys);
    } else {
      var applied := ApplyObject(s, b.script.value);
      StepKeepsFiles(s, Apply(b.script.value), ns, keys);
      if applied.flow.Next? {
        PodGateKeepsFiles(applied.api, b.pod, ns, keys);
        KeepsTransitive(s.objects, applied.api.objects, GatePod(applied.api, b.pod).api.objects, ns, keys);
      }
    }
  }

  lemma UpdateBuildKeepsFiles(s: Api, build: Object, ns: string, keys: map<string, string>)
    requires build.Id().kind == BuildConfigKind
    ensures KeepsFiles(s.objects, UpdateBuild(s, build).api.objects, ns, keys)
  {
    ChangeElsewhereKeepsFiles(s.objects, UpdateBuild(s, build).api.objects, build.Id(), ns, keys);
  }

  lemma StreamGateKeepsFiles(s: Api, sources: Option<StreamBuild>, config: Ref, ns: string, keys: map<string, string>)
    requires config.kind == BuildConfigKind && (sources.Some? ==> sources.value.build.Id().kind == BuildConfigKind)
    ensures KeepsFiles(s.objects, StreamGate(s, sources, config).api.objects, ns, keys)
  {
    var t := StreamGate(s, sources, config).api;
    if sources.None? {
      ChangeElsewhereKeepsFiles(s.objects, t.objects, config, ns, keys);
    } else {
      var stream, build := sources.value.stream, sources.value.build;
      var e := EnsureObject(s, stream);
      EnsureAdds(s, stream);
      AddingKeepsFiles(s.objects, e.api.objects, ns, keys);
      if e.flow.Next? {
        var u := GetCall(e.api, stream.Id()).0;
        UpdateBuildKeepsFiles(u, build, ns, keys);
        KeepsTransitive(s.objects, u.objects, UpdateBuild(u, build).api.objects, ns, keys);
      }
    }
  }

  /** All goals of the plan generate those volumes, and its build script takes no name of another ConfigMap. */
  ghost predicate PlanMounts(plan: Plan, m: Mounting) {
    && plan.Valid()
    && match plan
       case FromImage(build, goal) =>
         && MountsVolumes(goal, m.volumes) && goal.hash == m.hash
         && (build.Some? && build.value.script.Some? ==> Formed(Apply(build.value.script.value), m.keys))
       case FromStream(_, _, _, goals) =>
         forall image :: MountsVolumes(goals(image), m.volumes) && goals(image).hash == m.hash
  }

  lemma GateMounts(s: Api, t: Api, m: Mounting)
    requires LeavesWorkloads(s, t) && KeepsFiles(s.objects, t.objects, m.ns, m.keys) && Ready(s.objects, m)
    ensures Mounts(s, t, m) && Ready(t.objects, m)
  {
    QuietMounts(s, t, m);
    KeptFilesStayResolved(s.objects, t.objects, m.ns, m.keys, m.volumes);
  }

  lemma ImagePlanMounts(s: Api, plan: Plan, target: Ref, m: Mounting)
    requires plan.FromImage? && Targets(plan, target) && PlanMounts(plan, m) && Ready(s.objects, m)
    ensures Mounts(s, RunPlan(s, plan).api, m)
  {
    var gate := PodGate(s, plan.build);
    if plan.build.Some? {
      BuildGateIsSafe(s, plan.build.value);
      BuildGateKeepsFiles(s, plan.build.value, m.ns, m.keys);
      GateMounts(s, gate.api, m);
    }
    if gate.open {
      ContinueMounts(gate.api, plan.goal, m);
      if plan.build.Some? { MountsTransitive(s, gate.api, ContinueWith(gate.api, plan.goal).api, m); }
    }
  }

  lemma StreamPlanMounts(s: Api, plan: Plan, target: Ref, m: Mounting)
    requires plan.FromStream? && Targets(plan, target) && PlanMounts(plan, m) && Ready(s.objects, m)
    ensures Mounts(s, RunPlan(s, plan).api, m)
  {
    var gate := StreamGate(s, plan.sources, plan.config);
    StreamGateIsSafe(s, plan.sources, plan.config);
    StreamGateKeepsFiles(s, plan.sources, plan.config, m.ns, m.keys);
    GateMounts(s, gate.api, m);
    if gate.open {
      ContinueFromMounts(gate.api, plan.stream, plan.goals, target, m);
      MountsTransitive(s, gate.api, ContinueFrom(gate.api, plan.stream, plan.goals).api, m);
    }
  }

  lemma ContinueFromMounts(s: Api, stream: Ref, goals: string -> WorkloadGoal, target: Ref, m: Mounting)
    requires stream.kind == ImageStreamKind && IsWorkload(target) && Ready(s.objects, m)
    requires forall image :: goals(image).created.body.Workload?
    requires forall image :: IsFor(goals(image), target) && MountsVolumes(goals(image), m.volumes)
                             && goals(image).hash == m.hash
    ensures Mounts(s, ContinueFrom(s, stream, goals).api, m)
  {
    var (t, repository) := ReadStream(s, stream);
    ReadLeavesWorkloads(s, stream);
    ReadMounts(s, t, m);
    if repository.Some? {
      var g := goals(repository.value);
      assert IsFor(g, target) && MountsVolumes(g, m.volumes);
      ContinueMounts(t, g, m);
      MountsTransitive(s, t, ContinueWith(t, g).api, m);
    }
  }

  lemma ReadMounts(s: Api, t: Api, m: Mounting)
    requires LeavesWorkloads(s, t) && t.objects == s.objects
    ensures Mounts(s, t, m)
  {
    QuietMounts(s, t, m);
  }

  lemma PlanMountsRollouts(s: Api, plan: Plan, target: Ref, m: Mounting)
    requires Targets(plan, target) && PlanMounts(plan, m) && Ready(s.objects, m)
    ensures Mounts(s, RunPlan(s, plan).api, m)
  {
    if plan.FromImage? { ImagePlanMounts(s, plan, target, m); } else { StreamPlanMounts(s, plan, target, m); }
  }

  /** Deleting workloads loses no file. */
  lemma CleanupMounts(s: Api, t: Out, leftovers: set<Ref>, m: Mounting)
    requires Cleans(s, t, leftovers) && forall r :: r in leftovers ==> IsWorkload(r)
    ensures Mounts(s, t.api, m)
  {
    forall name | HoldsKey(s.objects, m.ns, m.keys, name) ensures HoldsKey(t.api.objects, m.ns, m.keys, name) {
      assert SameAt(s.objects, t.api.objects, Ref(ConfigMapKind, m.ns, name));
    }
    forall r | r in s.objects && r.kind == ClaimKind ensures r in t.api.objects {
      assert SameAt(s.objects, t.api.objects, r);
    }
    forall i | |s.log| <= i < |t.api.log| ensures !IsRollout(t.api.log[i]) {
      assert IsCleanup(t.api.log[i], leftovers);
    }
    QuietMounts(s, t.api, m);
  }

  /* ---------- whole passes ---------- */

  lemma GoalMounts(p: Platform, w: WebServer, image: string)
    ensures MountsVolumes(GoalFor(p, w, image), Volumes(w)) && GoalFor(p, w, image).hash == WebServerHash(p.hashing, w)
  {
  }

  lemma BuildMapIsFormed(p: Platform, w: WebServer)
    ensures var b := BuildOf(p, w);
            b.Some? && b.value.script.Some? ==> Formed(Apply(b.value.script.value), RequiredKeys(w))
  {
    KeysByName(w);
  }

  lemma ImageGoalMounts(p: Platform, w: WebServer, goal: WorkloadGoal)
    requires MountsVolumes(goal, Volumes(w)) && goal.hash == WebServerHash(p.hashing, w)
    ensures PlanMounts(FromImage(BuildOf(p, w), goal), MountingOf(p, w))
  {
    BuildMapIsFormed(p, w);
  }

  lemma StreamGoalsMount(p: Platform, w: WebServer)
    requires w.spec.webImageStream.Some?
    ensures PlanMounts(StreamPlan(p, w), MountingOf(p, w))
  {
    var goals := StreamPlan(p, w).goals;
    forall image ensures MountsVolumes(goals(image), Volumes(w)) && goals(image).hash == WebServerHash(p.hashing, w) {
      GoalMounts(p, w, image);
    }
  }

  lemma PlanOfMounts(p: Platform, w: WebServer)
    requires Usable(p, w)
    ensures PlanMounts(PlanOf(p, w), MountingOf(p, w))
  {
    if w.spec.webImage.Some? {
      GoalMounts(p, w, DeployedImage(w));
      ImageGoalMounts(p, w, GoalFor(p, w, DeployedImage(w)));
    } else {
      StreamGoalsMount(p, w);
    }
  }

  lemma CleaningMounts(p: Platform, s: Api, rolled: Out, w: WebServer, m: Mounting)
    requires Mounts(s, rolled.api, m)
    ensures Mounts(s, CleanAfter(p, rolled, w).api, m)
  {
    if rolled.flow.Next? {
      CleanupRemovesLeftovers(p, rolled.api, w);
      CleanupMounts(rolled.api, CheckOwned(p, rolled.api, w), Leftovers(rolled.api.objects, w), m);
      MountsTransitive(s, rolled.api, CheckOwned(p, rolled.api, w).api, m);
    }
  }

  lemma DeployMounts(p: Platform, s: Api, w: WebServer)
    requires Usable(p, w) && Ready(s.objects, MountingOf(p, w))
    ensures Mounts(s, Deploy(p, s, w).api, MountingOf(p, w))
  {
    PlanTargets(p, w);
    PlanOfMounts(p, w);
    PlanMountsRollouts(s, PlanOf(p, w), TargetRef(w), MountingOf(p, w));
    CleaningMounts(p, s, RunPlan(s, PlanOf(p, w)), w, MountingOf(p, w));
  }

  /** The part of a pass behind the clustering decision, whatever store it starts from. */
  lemma BackAndDeployMount(p: Platform, s: Api, w: WebServer)
    requires Usable(p, w)
    ensures var back := Back(p, s, w);
            var t := if back.flow.Return? then Out(back.api, back.flow) else Deploy(p, back.api, w);
            Mounts(s, t.api, MountingOf(p, w))
  {
    var back := Back(p, s, w);
    BackEffect(p, s, w);
    BackKeepsFiles(p, s, w);
    SupportMounts(s, back.api, MountingOf(p, w));
    if back.flow.Next? {
      DeployMounts(p, back.api, w);
      MountsTransitive(s, back.api, Deploy(p, back.api, w).api, MountingOf(p, w));
    }
  }

  lemma FrontMounts(p: Platform, s: Api, w: WebServer, m: Mounting)
    ensures Mounts(s, Front(p, s, w).api, m)
  {
    FrontEffect(p, s, w);
    FrontAdds(p, s, w);
    AddingKeepsFiles(s.objects, Front(p, s, w).api.objects, m.ns, m.keys);
    SupportMounts(s, Front(p, s, w).api, m);
  }

  lemma PrepareMounts(p: Platform, s: Api, w: WebServer)
    ensures Mounts(s, Prepare(p, s, w).api, MountingOf(p, Prepare(p, s, w).w))
  {
    var front := Front(p, s, w);
    var m := MountingOf(p, front.w);
    FrontMounts(p, s, w, m);
    FrontEffect(p, s, w);
    if front.flow.Next? {
      BackAndDeployMount(p, front.api, front.w);
      MountsTransitive(s, front.api, Prepare(p, s, w).api, m);
    }
  }

  lemma ConcludingMounts(s: Api, done: Prepared, status: Status, m: Mounting)
    requires Mounts(s, done.api, m)
    ensures Mounts(s, Conclude(done, status).api, m)
  {
    if done.flow.Next? {
      var r := Report(done.api, done.w, status, done.hosts).api;
      ReportGrows(done.api, done.w, status, done.hosts);
      SupportMounts(done.api, r, m);
      MountsTransitive(s, done.api, r, m);
    }
  }

  lemma ReadServerMounts(s: Api, m: Mounting)
    ensures Mounts(s, GetServerCall(s).0, m)
  {
    GetServerGrows(s);
    SupportMounts(s, GetServerCall(s).0, m);
  }

  lemma ReadAndPrepareMount(p: Platform, s: Api, w: WebServer)
    ensures var done := Prepare(p, GetServerCall(s).0, w); Mounts(s, done.api, MountingOf(p, done.w))
  {
    var t := GetServerCall(s).0;
    var done := Prepare(p, t, w);
    PrepareMounts(p, t, w);
    ReadServerMounts(s, MountingOf(p, done.w));
    MountsTransitive(s, t, done.api, MountingOf(p, done.w));
  }

  /** No dangling references, for every store and any answers: a pass loses no file of the operator's; and when it
      creates or updates the workload, every ConfigMap, with its key, and the claim that the generated pods mount
      exist - also if they had been deleted before - and what it creates or regenerates mounts exactly those. */
  lemma RolloutsAreMounted(p: Platform, s: Api, status: Status)
    requires s.server.Some?
    ensures Mounts(s, ReconcileSpec(p, s, status).api, MountingOf(p, InHand(p, s)))
  {
    var w := SetDefaults(s.server.value);
    var done := Prepare(p, GetServerCall(s).0, w);
    ReadServerMounts(s, MountingOf(p, done.w));
    ReadAndPrepareMount(p, s, w);
    ConcludingMounts(s, done, status, MountingOf(p, done.w));
  }

  lemma InHandKeepsNames(p: Platform, s: Api)
    requires s.server.Some?
    ensures var w, v := s.server.value, InHand(p, s); v.ns == w.ns && v.name == w.name && v.uid == w.uid
  {
    var t, w := GetServerCall(s).0, SetDefaults(s.server.value);
    FrontEffect(p, t, w);
  }

  lemma SameNamesSameKeys(v: WebServer, w: WebServer)
    requires v.name == w.name
    ensures RequiredKeys(v) == RequiredKeys(w)
  {
  }

  /** So no pass makes a workload dangle, whatever store it starts from. */
  lemma PassAddsNoDangling(p: Platform, s: Api, status: Status)
    requires s.server.Some?
    ensures var w, t := s.server.value, ReconcileSpec(p, s, status).api;
            Dangling(t.objects, w.ns, w.uid, RequiredKeys(w)) <= Dangling(s.objects, w.ns, w.uid, RequiredKeys(w))
  {
    var w, v := s.server.value, InHand(p, s);
    RolloutsAreMounted(p, s, status);
    InHandKeepsNames(p, s);
    SameNamesSameKeys(v, w);
    MountsAddsNoDangling(s, ReconcileSpec(p, s, status).api, MountingOf(p, v), w.uid);
  }
}
