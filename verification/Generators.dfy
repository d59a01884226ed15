/** The generators that append in loops, and how the independent generators agree with each other. */
module Generators {
  import opened WebServerApi
  import opened Digest
  import opened ClusterObjects
  import opened Templates

  /* ---------- the loops ---------- */

  method GenerateVolumeMounts(w: WebServer) returns (volm: seq<Mount>)
    ensures volm == VolumeMounts(w)
  {
    volm := GenerateOperatorMounts(w);
    if w.spec.volume.Some? {
      var user := GenerateUserMounts(w, w.spec.volume.value);
      volm := volm + user;
    }
    if w.spec.tls.secret != "" {
      volm := volm + [Mount("webserver-tls" + w.name, "/tls", "", true)];
    }
  }

  method GenerateOperatorMounts(w: WebServer) returns (volm: seq<Mount>)
    ensures volm == LogMounts(w) + ScriptMounts(w) + StartMounts(w) + LivenessMounts(w) + ReadinessMounts(w)
  {
    volm := [];
    if w.spec.logs.catalinaLogs || w.spec.logs.accessLogs {
      volm := volm + [Mount(LOGGING_MAP, "/opt/operator_conf/logging.properties", "logging.properties", false),
                      Mount(LogClaimName(w), "/opt/tomcat_logs", "", false)];
    }
    assert volm == LogMounts(w);
    if UsesTLS(w) || w.spec.useSessionClustering || w.spec.logs.accessLogs || w.spec.logs.catalinaLogs {
      volm := volm + [Mount(ScriptsMapName(w), "/env/my-files", "", false)];
    }
    assert volm == LogMounts(w) + ScriptMounts(w);
    if w.spec.isNotJWS {
      volm := volm + [Mount(StartMapName(w), "/opt/start", "", false)];
    }
    assert volm == LogMounts(w) + ScriptMounts(w) + StartMounts(w);
    var health := Health(w);
    if health.Some? && health.value.livenessScript != "" {
      volm := volm + [Mount(LivenessMapName(w), "/opt/probe/livenessProbeScript.sh", "livenessProbeScript.sh", false)];
    }
    assert volm == LogMounts(w) + ScriptMounts(w) + StartMounts(w) + LivenessMounts(w);
    if health.Some? && health.value.readinessScript != "" {
      volm := volm
      + [Mount(ReadinessMapName(w), "/opt/probe/readinessProbeScript.sh", "readinessProbeScript.sh", false)];
    }
  }

  method GenerateUserMounts(w: WebServer, v: VolumeSpec) returns (volm: seq<Mount>)
    ensures volm == ClaimMounts(v.claims) + SecretMounts(v.secrets) + ConfigMapMounts(v.configMaps)
                    + TemplateMounts(w, |v.claimTemplates|)
  {
    volm := [];
    for i := 0 to |v.claims|
      invariant volm == ClaimMounts(v.claims)[..i]
    {
      volm := volm + [Mount("persistent-vol-" + v.claims[i], "/volumes/persistent-volume-" + v.claims[i], "", false)];
    }
    for i := 0 to |v.secrets|
      invariant volm == ClaimMounts(v.claims) + SecretMounts(v.secrets)[..i]
    {
      volm := volm + [Mount("secret-vol-" + v.secrets[i], "/secrets/" + v.secrets[i], "", true)];
    }
    for i := 0 to |v.configMaps|
      invariant volm == ClaimMounts(v.claims) + SecretMounts(v.secrets) + ConfigMapMounts(v.configMaps)[..i]
    {
      volm := volm + [Mount("configmap-vol-" + v.configMaps[i], "/configmaps/" + v.configMaps[i], "", true)];
    }
    for i := 0 to |v.claimTemplates|
      invariant volm == ClaimMounts(v.claims) + SecretMounts(v.secrets) + ConfigMapMounts(v.configMaps)
                        + TemplateMounts(w, |v.claimTemplates|)[..i]
    {
      volm := volm + [Mount(ClaimName(w, i), "/app-data/" + ClaimName(w, i), "", false)];
    }
  }

  method GenerateVolumes(w: WebServer) returns (vol: seq<Volume>)
    ensures vol == Volumes(w)
  {
    vol := GenerateOperatorVolumes(w);
    if w.spec.volume.Some? {
      var user := GenerateUserVolumes(w.spec.volume.value);
      vol := vol + user;
    }
    if w.spec.tls.secret != "" {
      vol := vol + [Volume("webserver-tls" + w.name, FromSecret(w.spec.tls.secret), false)];
    }
  }

  method GenerateOperatorVolumes(w: WebServer) returns (vol: seq<Volume>)
    ensures vol == OperatorVolumes(w)
  {
    vol := [];
    if w.spec.logs.catalinaLogs || w.spec.logs.accessLogs {
      vol := vol + [Volume(LOGGING_MAP, FromConfigMap(LOGGING_MAP), false),
                    Volume(LogClaimName(w), FromClaim(LogClaimName(w)), false)];
    }
    assert vol == LogVolumes(w);
    if UsesTLS(w) || w.spec.useSessionClustering || w.spec.logs.accessLogs || w.spec.logs.catalinaLogs {
      vol := vol + [Volume(ScriptsMapName(w), FromConfigMap(ScriptsMapName(w)), false)];
    }
    assert vol == LogVolumes(w) + ScriptVolumes(w);
    if w.spec.isNotJWS {
      vol := vol + [Volume(StartMapName(w), FromConfigMap(StartMapName(w)), true)];
    }
    assert vol == LogVolumes(w) + ScriptVolumes(w) + StartVolumes(w);
    var health := Health(w);
    if health.Some? && health.value.readinessScript != "" {
      vol := vol + [Volume(ReadinessMapName(w), FromConfigMap(ReadinessMapName(w)), true)];
    }
    assert vol == LogVolumes(w) + ScriptVolumes(w) + StartVolumes(w) + ReadinessVolumes(w);
    if health.Some? && health.value.livenessScript != "" {
      vol := vol + [Volume(LivenessMapName(w), FromConfigMap(LivenessMapName(w)), true)];
    }
  }

  method GenerateUserVolumes(v: VolumeSpec) returns (vol: seq<Volume>)
    ensures vol == ClaimVolumes(v.claims) + SecretVolumes(v.secrets) + ConfigMapVolumes(v.configMaps)
  {
    vol := [];
    for i := 0 to |v.claims|
      invariant vol == ClaimVolumes(v.claims)[..i]
    {
      vol := vol + [Volume("persistent-vol-" + v.claims[i], FromClaim(v.claims[i]), false)];
    }
    for i := 0 to |v.secrets|
      invariant vol == ClaimVolumes(v.claims) + SecretVolumes(v.secrets)[..i]
    {
      vol := vol + [Volume("secret-vol-" + v.secrets[i], FromSecret(v.secrets[i]), false)];
    }
    for i := 0 to |v.configMaps|
      invariant vol == ClaimVolumes(v.claims) + SecretVolumes(v.secrets) + ConfigMapVolumes(v.configMaps)[..i]
    {
      vol := vol + [Volume("configmap-vol-" + v.configMaps[i], FromConfigMap(v.configMaps[i]), false)];
    }
  }

  method GeneratePersistentVolumeClaims(w: WebServer) returns (claims: seq<ClaimTemplate>)
    ensures claims == ClaimTemplates(w)
  {
    claims := [];
    if w.spec.volume.None? { return; }
    var specs := w.spec.volume.value.claimTemplates;
    for i := 0 to |specs|
      invariant claims == ClaimTemplates(w)[..i]
    {
      claims := claims + [ClaimTemplate(w.spec.applicationName + "-" + Itoa(i), w.ns, specs[i])];
    }
  }

  /** The operator's variables with the user's behind them, which are copied out of the slice `user` of the
      specification: no step writes to that slice. */
  method GenerateEnvVars(p: Platform, w: WebServer, user: array<EnvVar>) returns (env: array<EnvVar>)
    requires user[..] == w.spec.env
    ensures user[..] == old(user[..]) && fresh(env)
    ensures env[..] == EnvVars(p, w)
  {
    var value := "webserver-" + w.name;
    if GetUseKUBEPing(w) && w.spec.useSessionClustering { value := w.ns; }
    var first := GenerateOperatorVars(value, w);
    env := Append(first, user[..]);
    if w.spec.useInsightsClient {
      env := AddAgent(p, w.spec.applicationName, env);
    }
  }

  /** Go's `append` where the elements need a new backing array. */
  method Append(env: seq<EnvVar>, more: seq<EnvVar>) returns (grown: array<EnvVar>)
    ensures fresh(grown) && grown[..] == env + more
  {
    grown := new EnvVar[|env| + |more|](i requires 0 <= i < |env| + |more| => (env + more)[i]);
  }

  method GenerateOperatorVars(value: string, w: WebServer) returns (env: seq<EnvVar>)
    ensures env == OperatorVariables(value, w.spec.logs, EditsServerXml(w))
  {
    env := [EnvVar("KUBERNETES_NAMESPACE", value)];
    if w.spec.logs.accessLogs { env := env + [EnvVar("ENABLE_ACCESS_LOG", "true")]; }
    if UsesTLS(w) || w.spec.useSessionClustering || w.spec.logs.accessLogs || w.spec.logs.catalinaLogs {
      env := env + [EnvVar("ENV_FILES", "/env/my-files/test.sh")];
    }
    if w.spec.logs.catalinaLogs {
      env := env + [EnvVar("CATALINA_LOGGING_CONFIG",
                           "-Djava.util.logging.config.file=/opt/operator_conf/logging.properties")];
    }
  }

  /** Extends the variables in place, or appends one of its own if there was none to extend. */
  method AddAgent(p: Platform, app: string, variables: array<EnvVar>) returns (env: array<EnvVar>)
    modifies variables
    ensures env == variables || fresh(env)
    ensures env[..] == WithAgent(old(variables[..]),
                                 AgentOptions(p, app, LastValue(old(variables[..]), "INSIGHTS_DEBUG", "false")))
  {
    var debug := FindDebug(variables[..]);
    var options := AgentOptions(p, app, debug);
    var updated := AppendAgent(variables, options);
    env := variables;
    if !updated {
      env := Append(variables[..], [EnvVar(JAVA_TOOL_OPTIONS, options)]);
    }
  }

  method FindDebug(env: seq<EnvVar>) returns (debug: string)
    ensures debug == LastValue(env, "INSIGHTS_DEBUG", "false")
  {
    debug := "false";
    for i := 0 to |env|
      invariant debug == LastValue(env[..i], "INSIGHTS_DEBUG", "false")
    {
      assert env[..i + 1][..i] == env[..i];
      if env[i].name == "INSIGHTS_DEBUG" { debug := env[i].value; }
    }
    assert env[..|env|] == env;
  }

  method AppendAgent(env: array<EnvVar>, options: string) returns (updated: bool)
    modifies env
    ensures updated == HasJavaToolOptions(old(env[..]))
    ensures env[..] == if updated then Extended(old(env[..]), options) else old(env[..])
  {
    updated := false;
    ghost var was := env[..];
    for i := 0 to env.Length
      invariant updated == HasJavaToolOptions(was[..i])
      invariant env[..i] == Extended(was, options)[..i]
      invariant env[i..] == was[i..]
    {
      assert was[..i + 1] == was[..i] + [was[i]];
      assert env[i] == was[i];
      if env[i].name == JAVA_TOOL_OPTIONS {
        env[i] := EnvVar(env[i].name, env[i].value + options);
        updated := true;
        assert was[..i + 1][i].name == JAVA_TOOL_OPTIONS;
      }
    }
    assert was[..|was|] == was;
    if !updated {
      assert Extended(was, options) == was;
    }
  }

  /* ---------- environment ---------- */

  lemma LastValueIsLast(env: seq<EnvVar>, name: string, default: string)
    ensures (forall i :: 0 <= i < |env| ==> env[i].name != name) ==> LastValue(env, name, default) == default
    ensures forall i :: 0 <= i < |env| && env[i].name == name && (forall j :: i < j < |env| ==> env[j].name != name)
                        ==> LastValue(env, name, default) == env[i].value
  {
  }

  lemma OperatorEnvNames(w: WebServer)
    ensures forall i :: 0 <= i < |OperatorEnv(w)| ==> OperatorEnv(w)[i].name != "INSIGHTS_DEBUG"
    ensures forall i :: 0 <= i < |OperatorEnv(w)| ==> OperatorEnv(w)[i].name != JAVA_TOOL_OPTIONS
  {
  }

  /** What the Insights agent adds: the operator's variables and the names and order of the user's are kept, only
      values of JAVA_TOOL_OPTIONS change, by the suffix, and afterwards there is such a variable. */
  lemma WithAgentKeepsVariables(first: seq<EnvVar>, user: seq<EnvVar>, suffix: string)
    requires forall i :: 0 <= i < |first| ==> first[i].name != JAVA_TOOL_OPTIONS
    ensures WithAgent(first + user, suffix) ==
            first + Extended(user, suffix)
            + if HasJavaToolOptions(user) then [] else [EnvVar(JAVA_TOOL_OPTIONS, suffix)]
    ensures HasJavaToolOptions(WithAgent(first + user, suffix))
  {
    OnlyUsersJavaToolOptions(first, user);
    WithAgentHasOptions(first + user, suffix);
    if !HasJavaToolOptions(user) {
      assert Extended(user, suffix) == user;
    }
  }

  lemma OnlyUsersJavaToolOptions(first: seq<EnvVar>, user: seq<EnvVar>)
    requires forall i :: 0 <= i < |first| ==> first[i].name != JAVA_TOOL_OPTIONS
    ensures HasJavaToolOptions(first + user) <==> HasJavaToolOptions(user)
  {
    assert forall i :: 0 <= i < |user| ==> (first + user)[|first| + i] == user[i];
  }

  lemma WithAgentHasOptions(env: seq<EnvVar>, suffix: string)
    ensures HasJavaToolOptions(WithAgent(env, suffix))
  {
    if HasJavaToolOptions(env) {
      var i :| 0 <= i < |env| && env[i].name == JAVA_TOOL_OPTIONS;
      assert WithAgent(env, suffix)[i].name == JAVA_TOOL_OPTIONS;
    } else {
      assert WithAgent(env, suffix)[|env|].name == JAVA_TOOL_OPTIONS;
    }
  }

  /** The variables of a container: the operator's, then the user's in order, with the agent's options behind
      every value of JAVA_TOOL_OPTIONS when Insights is on, and the last INSIGHTS_DEBUG of the user in them. */
  lemma EnvKeepsUserVariables(p: Platform, w: WebServer)
    ensures var suffix := AgentOptions(p, w.spec.applicationName, LastValue(w.spec.env, "INSIGHTS_DEBUG", "false"));
            EnvVars(p, w) ==
            if !w.spec.useInsightsClient then OperatorEnv(w) + w.spec.env
            else OperatorEnv(w) + Extended(w.spec.env, suffix)
                 + if HasJavaToolOptions(w.spec.env) then [] else [EnvVar(JAVA_TOOL_OPTIONS, suffix)]
    ensures w.spec.useInsightsClient ==> HasJavaToolOptions(EnvVars(p, w))
  {
    OperatorEnvNames(w);
    LastValueOfTail(OperatorEnv(w), w.spec.env, "INSIGHTS_DEBUG", "false");
    WithAgentKeepsVariables(
      OperatorEnv(w), w.spec.env,
          AgentOptions(p, w.spec.applicationName, LastValue(w.spec.env, "INSIGHTS_DEBUG", "false")));
  }

  /** Variable by variable: each of the user's is there, behind the operator's and in its place, with its value; behind
      that value come the agent's options if Insights is on and it is JAVA_TOOL_OPTIONS. */
  lemma UserVariablesStay(p: Platform, w: WebServer)
    ensures var env, first, user := EnvVars(p, w), |OperatorEnv(w)|, w.spec.env;
            |env| >= first + |user|
            && forall i :: 0 <= i < |user| ==>
                 && env[first + i].name == user[i].name
                 && if w.spec.useInsightsClient && user[i].name == "JAVA_TOOL_OPTIONS" then
                      user[i].value + AgentOptions(p, w.spec.applicationName,
                                                   LastValue(user, "INSIGHTS_DEBUG", "false")) == env[first + i].value
                    else env[first + i].value == user[i].value
  {
    EnvKeepsUserVariables(p, w);
  }

  lemma {:induction false} LastValueOfTail(a: seq<EnvVar>, b: seq<EnvVar>, name: string, default: string)
    requires forall i :: 0 <= i < |a| ==> a[i].name != name
    ensures LastValue(a + b, name, default) == LastValue(b, name, default)
  {
    if b == [] {
      assert a + b == a;
      LastValueIsLast(a, name, default);
    } else {
      assert (a + b)[..|a + b| - 1] == a + b[..|b| - 1];
      LastValueOfTail(a, b[..|b| - 1], name, default);
    }
  }

  /** The provider written to `test.sh` and the variable it reads agree: the Kubernetes provider gets the
      namespace, the DNS provider the name of the DNS service. The value tells the two apart exactly when the
      namespace does not happen to carry that name. */
  lemma ClusteringIsConsistent(p: Platform, w: WebServer)
    requires w.spec.useSessionClustering
    ensures var provider, value := ServerXml(w).provider, OperatorEnv(w)[0].value;
            && OperatorEnv(w)[0].name == "KUBERNETES_NAMESPACE"
            && (provider == Some(KubernetesMembershipProvider) <==> GetUseKUBEPing(w))
            && (provider == Some(KubernetesMembershipProvider) ==> value == w.ns)
            && (provider == Some(DNSMembershipProvider) ==> value == DNSService(w).meta.name)
            && (provider == Some(KubernetesMembershipProvider) || provider == Some(DNSMembershipProvider))
            && ((value == w.ns <==> provider == Some(KubernetesMembershipProvider))
                <==> (GetUseKUBEPing(w) || w.ns != DNSService(w).meta.name))
  {
  }

  /* ---------- volumes and mounts ---------- */

  function MountNames(mounts: seq<Mount>): seq<string> {
    seq(|mounts|, i requires 0 <= i < |mounts| => mounts[i].name)
  }

  function VolumeNames(volumes: seq<Volume>): seq<string> {
    seq(|volumes|, i requires 0 <= i < |volumes| => volumes[i].name)
  }

  function ClaimNames(claims: seq<ClaimTemplate>): seq<string> {
    seq(|claims|, i requires 0 <= i < |claims| => claims[i].name)
  }

  lemma MountNamesAppend(a: seq<Mount>, b: seq<Mount>)
    ensures MountNames(a + b) == MountNames(a) + MountNames(b)
  {
  }

  lemma VolumeNamesAppend(a: seq<Volume>, b: seq<Volume>)
    ensures VolumeNames(a + b) == VolumeNames(a) + VolumeNames(b)
  {
  }

  /** The two generators emit their parts in different orders, under the same names. */
  lemma PartsMatch(w: WebServer)
    ensures MountNames(LogMounts(w)) == VolumeNames(LogVolumes(w))
    ensures MountNames(ScriptMounts(w)) == VolumeNames(ScriptVolumes(w))
    ensures MountNames(StartMounts(w)) == VolumeNames(StartVolumes(w))
    ensures MountNames(LivenessMounts(w)) == VolumeNames(LivenessVolumes(w))
    ensures MountNames(ReadinessMounts(w)) == VolumeNames(ReadinessVolumes(w))
    ensures MountNames(TLSMounts(w)) == VolumeNames(TLSVolumes(w))
    ensures MountNames(UserMounts(w)) == VolumeNames(UserVolumes(w)) + ClaimNames(ClaimTemplates(w))
  {
    if w.spec.volume.Some? {
      var v := w.spec.volume.value;
      assert MountNames(UserMounts(w)) == VolumeNames(UserVolumes(w)) + ClaimNames(ClaimTemplates(w));
    }
  }

  /** Every mount has its volume or claim template and the other way round, with multiplicity. */
  lemma MountsMatchVolumes(w: WebServer)
    ensures multiset(MountNames(VolumeMounts(w)))
            == multiset(VolumeNames(Volumes(w))) + multiset(ClaimNames(ClaimTemplates(w)))
  {
    PartsMatch(w);
    var m1 := LogMounts(w) + ScriptMounts(w);
    var m2 := m1 + StartMounts(w);
    var m3 := m2 + LivenessMounts(w);
    var m4 := m3 + ReadinessMounts(w);
    MountNamesAppend(LogMounts(w), ScriptMounts(w));
    MountNamesAppend(m1, StartMounts(w));
    MountNamesAppend(m2, LivenessMounts(w));
    MountNamesAppend(m3, ReadinessMounts(w));
    MountNamesAppend(m4, UserMounts(w));
    MountNamesAppend(m4 + UserMounts(w), TLSMounts(w));
    var v1 := LogVolumes(w) + ScriptVolumes(w);
    var v2 := v1 + StartVolumes(w);
    var v3 := v2 + ReadinessVolumes(w);
    VolumeNamesAppend(LogVolumes(w), ScriptVolumes(w));
    VolumeNamesAppend(v1, StartVolumes(w));
    VolumeNamesAppend(v2, ReadinessVolumes(w));
    VolumeNamesAppend(v3, LivenessVolumes(w));
    VolumeNamesAppend(OperatorVolumes(w), UserVolumes(w));
    VolumeNamesAppend(OperatorVolumes(w) + UserVolumes(w), TLSVolumes(w));
  }

  predicate NoDuplicates(s: seq<string>) {
    forall i, j :: 0 <= i < j < |s| ==> s[i] != s[j]
  }

  function Prefixed(prefix: string, names: seq<string>): seq<string> {
    seq(|names|, i requires 0 <= i < |names| => prefix + names[i])
  }

  lemma PrefixedNamesDistinct(names: seq<string>, prefix: string)
    requires NoDuplicates(names)
    ensures NoDuplicates(Prefixed(prefix, names))
  {
    forall i, j | 0 <= i < j < |names| ensures prefix + names[i] != prefix + names[j] {
      assert (prefix + names[i])[|prefix|..] == names[i];
      assert (prefix + names[j])[|prefix|..] == names[j];
    }
  }

  /** A number telling apart the origins of volume names: names of different origin differ in one of the
      characters looked at, or in length. */
  function Origin(w: WebServer, name: string): int {
    if |name| < 7 then 0
    else if name[0] == 'p' then 1
    else if name[0] == 's' then (if name[1] == 'e' then 2 else 3)
    else if name[0] == 'c' then (if name[6] == 'm' then 4 else 5)
    else if name[0] == 'v' then 6
    else if name[0] == 'l' then 7
    else if name[0] == 'r' then 8
    else if |name| == 10 + |w.name| then 9
    else 10
  }

  ghost predicate DistinctWithin(w: WebServer, names: seq<string>, origins: set<int>) {
    NoDuplicates(names) && forall i :: 0 <= i < |names| ==> Origin(w, names[i]) in origins
  }

  lemma AppendDistinct(w: WebServer, a: seq<Volume>, s: set<int>, b: seq<Volume>, t: set<int>)
    requires DistinctWithin(w, VolumeNames(a), s) && DistinctWithin(w, VolumeNames(b), t) && s !! t
    ensures DistinctWithin(w, VolumeNames(a + b), s + t)
  {
    VolumeNamesAppend(a, b);
  }

  lemma OriginsOfOperatorVolumes(w: WebServer)
    ensures DistinctWithin(w, VolumeNames(LogVolumes(w)), {5, 6})
    ensures DistinctWithin(w, VolumeNames(ScriptVolumes(w)), {9})
    ensures DistinctWithin(w, VolumeNames(StartVolumes(w)), {3})
    ensures DistinctWithin(w, VolumeNames(ReadinessVolumes(w)), {8})
    ensures DistinctWithin(w, VolumeNames(LivenessVolumes(w)), {7})
    ensures DistinctWithin(w, VolumeNames(TLSVolumes(w)), {10})
  {
    assert Origin(w, LOGGING_MAP) == 5;
    assert Origin(w, LogClaimName(w)) == 6;
    assert Origin(w, ScriptsMapName(w)) == 9;
    assert Origin(w, StartMapName(w)) == 3;
    assert Origin(w, ReadinessMapName(w)) == 8;
    assert Origin(w, LivenessMapName(w)) == 7;
    assert Origin(w, "webserver-tls" + w.name) == 10;
  }

  lemma OriginsOfUserVolumes(w: WebServer, v: VolumeSpec)
    requires NoDuplicates(v.claims) && NoDuplicates(v.secrets) && NoDuplicates(v.configMaps)
    ensures DistinctWithin(w, VolumeNames(ClaimVolumes(v.claims)), {1})
    ensures DistinctWithin(w, VolumeNames(SecretVolumes(v.secrets)), {2})
    ensures DistinctWithin(w, VolumeNames(ConfigMapVolumes(v.configMaps)), {4})
  {
    PrefixedNamesDistinct(v.claims, "persistent-vol-");
    PrefixedNamesDistinct(v.secrets, "secret-vol-");
    PrefixedNamesDistinct(v.configMaps, "configmap-vol-");
    assert VolumeNames(ClaimVolumes(v.claims)) == Prefixed("persistent-vol-", v.claims);
    assert VolumeNames(SecretVolumes(v.secrets)) == Prefixed("secret-vol-", v.secrets);
    assert VolumeNames(ConfigMapVolumes(v.configMaps)) == Prefixed("configmap-vol-", v.configMaps);
  }

  lemma OperatorNamesAreDistinct(w: WebServer)
    ensures DistinctWithin(w, VolumeNames(OperatorVolumes(w)), {5, 6, 9, 3, 8, 7})
  {
    OriginsOfOperatorVolumes(w);
    var v1 := LogVolumes(w) + ScriptVolumes(w);
    var v2 := v1 + StartVolumes(w);
    var v3 := v2 + ReadinessVolumes(w);
    AppendDistinct(w, LogVolumes(w), {5, 6}, ScriptVolumes(w), {9});
    AppendDistinct(w, v1, {5, 6, 9}, StartVolumes(w), {3});
    AppendDistinct(w, v2, {5, 6, 9, 3}, ReadinessVolumes(w), {8});
    AppendDistinct(w, v3, {5, 6, 9, 3, 8}, LivenessVolumes(w), {7});
  }

  predicate ListsWithoutDuplicates(w: WebServer) {
    w.spec.volume.Some? ==>
      var v := w.spec.volume.value;
      NoDuplicates(v.claims) && NoDuplicates(v.secrets) && NoDuplicates(v.configMaps)
  }

  lemma UserNamesAreDistinct(w: WebServer)
    requires ListsWithoutDuplicates(w)
    ensures DistinctWithin(w, VolumeNames(UserVolumes(w)), {1, 2, 4})
  {
    if w.spec.volume.Some? {
      var v := w.spec.volume.value;
      OriginsOfUserVolumes(w, v);
      AppendDistinct(w, ClaimVolumes(v.claims), {1}, SecretVolumes(v.secrets), {2});
      AppendDistinct(w, ClaimVolumes(v.claims) + SecretVolumes(v.secrets), {1, 2}, ConfigMapVolumes(v.configMaps), {4});
    }
  }

  /** When the user's lists hold no duplicates, no two volumes carry the same name. */
  lemma VolumeNamesAreDistinct(w: WebServer)
    requires ListsWithoutDuplicates(w)
    ensures NoDuplicates(VolumeNames(Volumes(w)))
  {
    OperatorNamesAreDistinct(w);
    UserNamesAreDistinct(w);
    OriginsOfOperatorVolumes(w);
    AppendDistinct(w, OperatorVolumes(w), {5, 6, 9, 3, 8, 7}, UserVolumes(w), {1, 2, 4});
    AppendDistinct(w, OperatorVolumes(w) + UserVolumes(w), {5, 6, 9, 3, 8, 7, 1, 2, 4}, TLSVolumes(w), {10});
  }

  lemma {:induction false} ItoaIsInjective(m: nat, n: nat)
    requires Itoa(m) == Itoa(n)
    ensures m == n
  {
    var s, t := Itoa(m), Itoa(n);
    assert s[|s| - 1] == DigitChar(m % 10) && t[|t| - 1] == DigitChar(n % 10);
    ItoaLength(m);
    ItoaLength(n);
    if m >= 10 {
      assert s[..|s| - 1] == Itoa(m / 10) && t[..|t| - 1] == Itoa(n / 10);
      ItoaIsInjective(m / 10, n / 10);
    }
  }

  lemma ItoaLength(n: nat)
    ensures n < 10 <==> |Itoa(n)| == 1
    ensures |Itoa(n)| >= 1
  {
  }

  lemma ClaimNamesAreDistinct(w: WebServer)
    ensures NoDuplicates(ClaimNames(ClaimTemplates(w)))
  {
    if w.spec.volume.Some? {
      var claims := ClaimTemplates(w);
      var prefix := w.spec.applicationName + "-";
      forall i, j | 0 <= i < j < |claims| ensures ClaimName(w, i) != ClaimName(w, j) {
        assert ClaimName(w, i)[|prefix|..] == Itoa(i);
        assert ClaimName(w, j)[|prefix|..] == Itoa(j);
        if Itoa(i) == Itoa(j) {
          ItoaIsInjective(i, j);
        }
      }
    }
  }

  /** The same resource but for its replica count and its annotations. */
  predicate SameButScale(v: WebServer, w: WebServer) {
    v == w.(spec := w.spec.(replicas := v.spec.replicas), annotations := v.annotations)
  }

  lemma SameOperatorVolumes(v: WebServer, w: WebServer)
    requires SameButScale(v, w)
    ensures LogVolumes(v) == LogVolumes(w) && ScriptVolumes(v) == ScriptVolumes(w) && StartVolumes(v) == StartVolumes(w)
            && ReadinessVolumes(v) == ReadinessVolumes(w) && LivenessVolumes(v) == LivenessVolumes(w)
            && UserVolumes(v) == UserVolumes(w) && TLSVolumes(v) == TLSVolumes(w)
  {
  }

  lemma SameOperatorMounts(v: WebServer, w: WebServer)
    requires SameButScale(v, w)
    ensures LogMounts(v) == LogMounts(w) && ScriptMounts(v) == ScriptMounts(w) && StartMounts(v) == StartMounts(w)
            && ReadinessMounts(v) == ReadinessMounts(w) && LivenessMounts(v) == LivenessMounts(w)
            && TLSMounts(v) == TLSMounts(w)
  {
  }

  lemma SameUserMounts(v: WebServer, w: WebServer)
    requires SameButScale(v, w)
    ensures UserMounts(v) == UserMounts(w) && ClaimTemplates(v) == ClaimTemplates(w)
  {
  }

  lemma SameMounts(v: WebServer, w: WebServer)
    requires SameButScale(v, w)
    ensures VolumeMounts(v) == VolumeMounts(w) && Volumes(v) == Volumes(w)
  {
    SameOperatorMounts(v, w);
    SameUserMounts(v, w);
    SameOperatorVolumes(v, w);
  }

  /* ---------- what the pods find where ---------- */

  /** A volume of that source is mounted at that path. */
  ghost predicate Finds(w: WebServer, source: VolumeSource, path: string, readOnly: bool) {
    exists m, v :: m in VolumeMounts(w) && v in Volumes(w) && m.name == v.name
                   && v.source == source && m.path == path && m.readOnly == readOnly
  }

  lemma UserClaimIsFound(w: WebServer, i: nat)
    requires w.spec.volume.Some? && i < |w.spec.volume.value.claims|
    ensures Finds(w, FromClaim(w.spec.volume.value.claims[i]),
                  "/volumes/persistent-volume-" + w.spec.volume.value.claims[i], false)
  {
    var names := w.spec.volume.value.claims;
    assert ClaimMounts(names)[i] in VolumeMounts(w) && ClaimVolumes(names)[i] in Volumes(w);
  }

  lemma UserSecretIsFound(w: WebServer, i: nat)
    requires w.spec.volume.Some? && i < |w.spec.volume.value.secrets|
    ensures Finds(w, FromSecret(w.spec.volume.value.secrets[i]), "/secrets/" + w.spec.volume.value.secrets[i], true)
  {
    var names := w.spec.volume.value.secrets;
    assert SecretMounts(names)[i] in VolumeMounts(w) && SecretVolumes(names)[i] in Volumes(w);
  }

  lemma UserConfigMapIsFound(w: WebServer, i: nat)
    requires w.spec.volume.Some? && i < |w.spec.volume.value.configMaps|
    ensures Finds(w, FromConfigMap(w.spec.volume.value.configMaps[i]),
                  "/configmaps/" + w.spec.volume.value.configMaps[i], true)
  {
    var names := w.spec.volume.value.configMaps;
    assert ConfigMapMounts(names)[i] in VolumeMounts(w) && ConfigMapVolumes(names)[i] in Volumes(w);
  }

  /** Each claim, secret and ConfigMap of the user's is mounted at the path of its name, the latter two read-only; so
      are the secret for TLS and the claim for the logs. */
  lemma UserFilesAreMounted(w: WebServer)
    ensures w.spec.volume.Some? ==>
              var v := w.spec.volume.value;
              && (forall i :: 0 <= i < |v.claims| ==>
                                Finds(w, FromClaim(v.claims[i]), "/volumes/persistent-volume-" + v.claims[i], false))
              && (forall i :: 0 <= i < |v.secrets| ==>
                                Finds(w, FromSecret(v.secrets[i]), "/secrets/" + v.secrets[i], true))
              && (forall i :: 0 <= i < |v.configMaps| ==>
                                Finds(w, FromConfigMap(v.configMaps[i]), "/configmaps/" + v.configMaps[i], true))
    ensures w.spec.tls.secret != "" ==> Finds(w, FromSecret(w.spec.tls.secret), "/tls", true)
    ensures w.spec.logs.catalinaLogs || w.spec.logs.accessLogs ==>
              Finds(w, FromClaim("volume-pvc-" + w.name), "/opt/tomcat_logs", false)
  {
    if w.spec.volume.Some? {
      var v := w.spec.volume.value;
      forall i | 0 <= i < |v.claims|
        ensures Finds(w, FromClaim(v.claims[i]), "/volumes/persistent-volume-" + v.claims[i], false)
      {
        UserClaimIsFound(w, i);
      }
      forall i | 0 <= i < |v.secrets| ensures Finds(w, FromSecret(v.secrets[i]), "/secrets/" + v.secrets[i], true) {
        UserSecretIsFound(w, i);
      }
      forall i | 0 <= i < |v.configMaps|
        ensures Finds(w, FromConfigMap(v.configMaps[i]), "/configmaps/" + v.configMaps[i], true)
      {
        UserConfigMapIsFound(w, i);
      }
    }
    TLSSecretIsFound(w);
    LogClaimIsFound(w);
  }

  lemma TLSSecretIsFound(w: WebServer)
    ensures w.spec.tls.secret != "" ==> Finds(w, FromSecret(w.spec.tls.secret), "/tls", true)
  {
    if w.spec.tls.secret != "" {
      var m, v := TLSMounts(w)[0], TLSVolumes(w)[0];
      assert m in VolumeMounts(w) && v in Volumes(w);
      assert m.name == v.name && v.source == FromSecret(w.spec.tls.secret) && m.path == "/tls" && m.readOnly;
    }
  }

  lemma LogClaimIsFound(w: WebServer)
    ensures w.spec.logs.catalinaLogs || w.spec.logs.accessLogs ==>
              Finds(w, FromClaim("volume-pvc-" + w.name), "/opt/tomcat_logs", false)
  {
    if w.spec.logs.catalinaLogs || w.spec.logs.accessLogs {
      var m, v := LogMounts(w)[1], LogVolumes(w)[1];
      assert m in VolumeMounts(w) && v in Volumes(w);
      assert m.name == v.name && v.source == FromClaim("volume-pvc-" + w.name);
      assert m.path == "/opt/tomcat_logs" && !m.readOnly;
    }
  }

  /** Of each claim template the pod mounts the claim of that name, at the path of that name. */
  lemma ClaimTemplatesAreMounted(w: WebServer, i: nat)
    requires w.spec.volume.Some? && i < |w.spec.volume.value.claimTemplates|
    ensures i < |ClaimTemplates(w)| && ClaimTemplates(w)[i].spec == w.spec.volume.value.claimTemplates[i]
    ensures exists m :: m in VolumeMounts(w) && m.name == ClaimTemplates(w)[i].name
                        && m.path == "/app-data/" + ClaimTemplates(w)[i].name && !m.readOnly
  {
    var m := TemplateMounts(w, |w.spec.volume.value.claimTemplates|)[i];
    assert m in VolumeMounts(w);
  }

  /* ---------- selectors ---------- */

  /** Across all edits, the selector of a workload of one kind and name never changes. */
  lemma SelectorIsStable(v: WebServer, w: WebServer)
    requires v.name == w.name && v.spec.applicationName == w.spec.applicationName
    ensures SelectorLabels(v) == SelectorLabels(w) <==> WantedKind(v) == WantedKind(w)
  {
    assert "statefulset" in SelectorLabels(v) <==> WantedKind(v) == WorkloadKind.StatefulSet;
    assert "statefulset" in SelectorLabels(w) <==> WantedKind(w) == WorkloadKind.StatefulSet;
  }

  /** User labels agree with `labels` wherever both are set. */
  ghost predicate Respects(user: Labels, labels: Labels) {
    forall k :: k in user && k in labels ==> user[k] == labels[k]
  }

  /** A selector is found in operator labels overridden by the user's, if it was found in the operator's, exactly
      when the user reassigns none of its keys. */
  lemma CoverageUnderOverride(selector: Labels, operator: Labels, user: Labels, key: string, value: string)
    requires Matches(selector, operator) && key !in selector
    ensures Matches(selector, (operator + user)[key := value]) <==> Respects(user, selector)
  {
  }

  lemma HashKeyIsNoSelectorKey(w: WebServer)
    ensures HASH !in SelectorLabels(w)
  {
  }

  /** The workload's selector finds the pods of its own template exactly when the user labels reassign none of
      the selector's keys. */
  lemma SelectorCoversTemplate(p: Platform, w: WebServer)
    ensures Matches(SelectorLabels(w), TemplateLabels(p, w)) <==> Respects(w.labels, SelectorLabels(w))
  {
    HashKeyIsNoSelectorKey(w);
    CoverageUnderOverride(SelectorLabels(w), SelectorLabels(w), w.labels, HASH, WebServerHash(p.hashing, w));
  }

  lemma RoutingSelectorIsPart(w: WebServer)
    ensures Matches(RoutingService(w).body.selector, SelectorLabels(w))
  {
  }

  /** The same for the routing service. */
  lemma RoutingCoversTemplate(p: Platform, w: WebServer)
    ensures Matches(RoutingService(w).body.selector, TemplateLabels(p, w)) <==>
            Respects(w.labels, RoutingService(w).body.selector)
  {
    RoutingSelectorIsPart(w);
    HashKeyIsNoSelectorKey(w);
    CoverageUnderOverride(
      RoutingService(w).body.selector, SelectorLabels(w), w.labels, HASH, WebServerHash(p.hashing, w));
  }

  /** The DNS service of a cluster finds its pods exactly when the user does not call the application otherwise. */
  lemma DNSCoversTemplate(p: Platform, w: WebServer)
    ensures Matches(DNSService(w).body.selector, TemplateLabels(p, w)) <==>
            ("application" in w.labels ==> w.labels["application"] == w.spec.applicationName)
  {
    HashKeyIsNoSelectorKey(w);
    assert Matches(DNSService(w).body.selector, SelectorLabels(w));
    CoverageUnderOverride(
      DNSService(w).body.selector, SelectorLabels(w), w.labels, HASH, WebServerHash(p.hashing, w));
  }

  lemma CoverageByItself(labels: Labels, key: string, value: string)
    ensures Matches(labels, labels[key := value]) <==> (key in labels ==> labels[key] == value)
  {
  }

  /** The label map by which pods are listed is found on the template's pods exactly when the user does not set
      the digest label to something else. */
  lemma ListingCoversTemplate(p: Platform, w: WebServer)
    ensures Matches(LabelsForWeb(w), TemplateLabels(p, w)) <==>
            (HASH in w.labels ==> w.labels[HASH] == WebServerHash(p.hashing, w))
  {
    HashKeyIsNoSelectorKey(w);
    CoverageByItself(LabelsForWeb(w), HASH, WebServerHash(p.hashing, w));
  }

  lemma KeysOfLoadBalancer(w: WebServer)
    ensures "deployment" in LoadBalancer(w).body.selector
    ensures LoadBalancer(w).body.selector.Keys <= SelectorLabels(w).Keys + {"deployment"}
    ensures forall k :: k in LoadBalancer(w).body.selector && k in SelectorLabels(w) ==>
                          LoadBalancer(w).body.selector[k] == SelectorLabels(w)[k]
    ensures "deployment" in SelectorLabels(w) <==> WantedKind(w) == WorkloadKind.Deployment
  {
  }

  lemma CoverageOfPartlySet(selector: Labels, operator: Labels, user: Labels, extra: string, key: string, value: string)
    requires extra in selector && selector.Keys <= operator.Keys + {extra} && key !in selector
    requires forall k :: k in selector && k in operator ==> selector[k] == operator[k]
    ensures Matches(selector, (operator + user)[key := value]) <==>
            Respects(user, selector) && (extra in operator || extra in user)
  {
  }

  /** The load balancer selects by the Deployment's key, so it finds no pod of a StatefulSet unless the user
      sets that label. */
  lemma LoadBalancerCoverage(p: Platform, w: WebServer)
    ensures Matches(LoadBalancer(w).body.selector, TemplateLabels(p, w)) <==>
            && Respects(w.labels, LoadBalancer(w).body.selector)
            && (WantedKind(w) == WorkloadKind.Deployment || "deployment" in w.labels)
  {
    HashKeyIsNoSelectorKey(w);
    KeysOfLoadBalancer(w);
    HashKeyIsNoLoadBalancerKey(w);
    CoverageOfPartlySet(
      LoadBalancer(w).body.selector, SelectorLabels(w), w.labels, "deployment", HASH, WebServerHash(p.hashing, w));
  }

  /** For instance a label `application` of the user's takes the pods from the workload's own selector, from the
      routing service and from the load balancer. */
  lemma SelectorsMayMiss(p: Platform, v: WebServer)
    ensures var w := v.(labels := map["application" := v.spec.applicationName + "-2"]);
            && !Matches(SelectorLabels(w), TemplateLabels(p, w))
            && !Matches(RoutingService(w).body.selector, TemplateLabels(p, w))
  {
    var w := v.(labels := map["application" := v.spec.applicationName + "-2"]);
    SelectorCoversTemplate(p, w);
    RoutingCoversTemplate(p, w);
    assert w.spec.applicationName == v.spec.applicationName
        && |v.spec.applicationName + "-2"| > |v.spec.applicationName|;
    assert w.labels["application"] != SelectorLabels(w)["application"];
    assert w.labels["application"] != RoutingService(w).body.selector["application"];
  }

  /** The pods of a StatefulSet without labels of the user's are not found by the load balancer. */
  lemma LoadBalancerMayMiss(p: Platform, w: WebServer)
    requires WantedKind(w) == WorkloadKind.StatefulSet && w.labels == map[]
    ensures !Matches(LoadBalancer(w).body.selector, TemplateLabels(p, w))
  {
    LoadBalancerCoverage(p, w);
  }

  /** Pods are listed wherever the user does not set the digest label; with an empty one none is. */
  lemma ListingMayMiss(p: Platform, v: WebServer)
    ensures HASH !in v.labels ==> Matches(LabelsForWeb(v), TemplateLabels(p, v))
    ensures var w := v.(labels := map[HASH := ""]); !Matches(LabelsForWeb(w), TemplateLabels(p, w))
  {
    var w := v.(labels := map[HASH := ""]);
    ListingCoversTemplate(p, v);
    ListingCoversTemplate(p, w);
    HashIsNeverEmpty(p.hashing, w);
  }

  lemma HashKeyIsNoLoadBalancerKey(w: WebServer)
    ensures HASH !in LoadBalancer(w).body.selector
  {
  }
}
