# The JWS operator: reconciliation, generators and name registry

A model of the operator that keeps a `WebServer` custom resource deployed, with proofs about it.

One pass (`Controller.Reconcile`) reads the resource, creates or overwrites the objects it needs in a fixed order,
rolls out a Deployment or a StatefulSet behind a build if there is one, deletes the workloads it no longer wants and
reports the status. Between passes users edit the resource and others change the cluster. Every call to the API server
may be answered with any error, by a script that is part of the state.

How it is written down:

- `ClientApi.Client` is the client the passes call: an object with the store, the resource, its status, the script of
  answers and a ghost log of what was done. Each method is proved equal to a function on `Api` values (`GetCall`, ...).
- The helpers and the pass itself are methods on that client (`Steps`, `KubePing`, `Workloads`, `Builds`, `Cleanup`,
  `PodReport`, `Controller`), each proved equal to a function of the old state; the functions are what the lemmas are
  about. The generators that append in loops are methods as well (`Generators`, `Digest`), against the functions of
  `Templates`.
- `Outcomes` says in the fields of the resource what any pass writes, `Convergence` what the store holds once passes are
  quiet, `DigestFields` which fields the digests tell apart.
- `VolumeClashes` says when a claim template takes a volume's name, `LabelText` which label maps the digest tells apart.
- `Safety` (what a pass does to workloads, whatever fails), `Files` (nothing mounted is missing), `ExplicitBuilds`,
  `Progress` (termination without failures), `Runs` and `History` (whole runs) hold the main results.
- `Webhook.AppRegistry` is the registry of application names, over slices with shared growth of their backing arrays.

`Platform` holds what is fixed at start: OpenShift or not, whether ServiceMonitors exist, the operator's namespace,
SHA-256 and JSON marshalling as arbitrary functions, and the order in which the cache lists objects (any order).

Facts about the code which the statements had to respect, each stated as a lemma or in a contract:

- A failed non-conflict update of a stale workload, a missing image stream and a build pod that is gone when it is to be
  deleted let the pass go on (`Safety.IsSkip`, `Workloads.RepairWorkload`). Without failures the cleanup then runs
  without the wanted workload in place exactly when `Safety.WhenThereIsAGap` says so, and `Safety.TheGapIsReal` shows
  that nothing serves afterwards.
- A workload without any label makes the pass panic (a label is written into a nil map), and so does a StatefulSet that is
  deployed from an image stream; `Workloads.OneWriteStabilises` has these as its exact exceptions.
- `setDefaultValues` dereferences the builder of every webapp without a nil test (`WebServerApi.DefaultsCrash`).
- The digest separates legal label maps exactly as far as the text between the colons of their pairs differs
  (`LabelText.SectionsAgreeOnTokens`, `Digest.TwoLegalLabelMapsHashAlike`).
- The decision on clustering is no part of the digest (`History.DigestForgetsDecision`), and a conflict on recording it
  lets the pass go on with it unrecorded (`KubePing.Decide`).
- User labels override the operator's: coverage of the selectors holds exactly when they reassign none of the keys.
  The label map by which pods are listed is found on the pods exactly when the user does not set `webserver-hash`
  (`Generators.ListingCoversTemplate`). The load balancer selects by `deployment`, which pods of a StatefulSet lack.
- Only creation gives a StatefulSet its retention policy (`History.RetentionDependsOnHistory`).
- Host lists are compared with `DeepEqual`: an empty list is never equal to the stored nil list, so the status is written
  again in every pass while a route has no host; it does not change by that.
- A claim template may take the name of a volume, of the operator's or of the user's; `VolumeClashes` says exactly when.

## Model

| member | source | states |
|---|---|---|
| `LabelEncoding.DecodeInvertsEncode` | internal/controller/helper.go:965-968 | decoding the unpadded base64 with the custom alphabet gives back every byte string of any length, so no digest is lost |
| `LabelEncoding.DigestLabelIsLegalAndLossless` | internal/controller/helper.go:965-968 | for every 32-byte digest the label has 45 characters, is a legal label value (alphanumeric at both ends, otherwise of the legal characters), and determines the digest |
| `LabelEncoding.DistinctDigestsHaveDistinctLabels` | internal/controller/helper.go:965-968 | different digests have different labels |
| `Sorting.SortForgetsOrder` | internal/controller/helper.go:830-835 | the sort yields the same list from any listing of the same elements whose keys differ |
| `Digest.WriteLabels` | internal/controller/helper.go:892-907 | collecting, sorting and concatenating the labels gives the section of the sorted keys, whatever order the map is iterated in |
| `Digest.GetWebServerHash` | internal/controller/helper.go:884-969 | the digest fed piece by piece is the hash of the canonical input |
| `DigestFields.DigestSeesField` | internal/controller/helper.go:884-969 | every field of the specification but the replica count is in the digest: for each of the twelve, the digests of two resources that agree in labels and all other fields are equal if and only if they agree in that one, marshalling telling its values apart and the hash function not colliding on the two inputs |
| `DigestFields.SourceDigestSeesStream` | internal/controller/helper.go:867-881 | the source digest of a BuildConfig is equal for two resources if and only if their image streams are, under the same provisos |
| `Digest.HashIsNeverEmpty` | internal/controller/helper.go:183-188 | the digest is never the empty string that marks an unlabelled workload |
| `Digest.DigestDoesNotSeparateLabels` | internal/controller/helper.go:903-905 | moving a label's value to the front of the next key leaves the digest as it is, for every hash function |
| `Digest.TwoLegalLabelMapsHashAlike` | internal/controller/helper.go:903-905 | two concrete different label maps with one digest |
| `LabelText.SectionsAgreeOnTokens` | internal/controller/helper.go:892-907 | two legal label maps are written alike if and only if the text between the colons is the same: the first key, each value with the next key behind it, the last value |
| `LabelText.EqualKeysAreToldApart` | internal/controller/helper.go:892-907 | legal label maps of the same keys are written alike only if they are equal, so a change of values is always seen |
| `LabelText.DigestSeparatesTokens` | internal/controller/helper.go:884-969 | the digests of a resource under two legal label maps are equal if and only if that text is, the hash function not colliding on the two inputs |
| `Generators.GenerateVolumeMounts` | internal/controller/templates.go:1050-1143 | the loops append exactly the mounts of the specification function |
| `Generators.GenerateVolumes` | internal/controller/templates.go:1146-1285 | the same for volumes |
| `Generators.GeneratePersistentVolumeClaims` | internal/controller/templates.go:1029-1047 | one claim per template, named by application and index |
| `Generators.GenerateEnvVars` | internal/controller/templates.go:965-1027 | the operator's variables, then the user's, then the Insights agent over all of them; the slice of the specification, from which they are copied, keeps its elements |
| `Generators.AddAgent` | internal/controller/templates.go:998-1024 | extends the variables in place, or appends one if there was none to extend, with the last INSIGHTS_DEBUG in the options |
| `Generators.AppendAgent` | internal/controller/templates.go:1006-1026 | extends in place exactly the values of JAVA_TOOL_OPTIONS and tells whether there was one |
| `Generators.EnvKeepsUserVariables` | internal/controller/templates.go:965-1027 | the variables are the operator's, then the user's in order and unchanged but for the suffix behind JAVA_TOOL_OPTIONS, of which there is one at least with Insights on, holding the last INSIGHTS_DEBUG or `false` |
| `Generators.UserVariablesStay` | internal/controller/templates.go:965-1027 | variable by variable: each of the user's is in its place with its value, behind which the agent's options come if and only if Insights is on and it is JAVA_TOOL_OPTIONS |
| `Generators.ClusteringIsConsistent` | internal/controller/templates.go:1438-1450 | the provider in `test.sh` and KUBERNETES_NAMESPACE agree: namespace for Kubernetes, DNS service name for DNS; the value alone tells them apart exactly when the namespace is not called like the service |
| `Generators.MountsMatchVolumes` | internal/controller/templates.go:1029-1285 | the multiset of mount names is that of volume names plus that of claim template names |
| `Generators.UserFilesAreMounted` | internal/controller/templates.go:1050-1285 | each claim, secret and ConfigMap of the user's, the TLS secret and the log claim are volumes mounted at the paths of their names, secrets and ConfigMaps read-only |
| `Generators.ClaimTemplatesAreMounted` | internal/controller/templates.go:1029-1143 | the pod mounts the claim of each template, of the specification given, at the path of its name |
| `Generators.VolumeNamesAreDistinct` | internal/controller/templates.go:1146-1285 | volume names are pairwise distinct when the user's lists hold no duplicates |
| `Generators.ClaimNamesAreDistinct` | internal/controller/templates.go:1029-1047 | claim template names are pairwise distinct |
| `Generators.ItoaIsInjective` | internal/controller/templates.go:1034-1036 | decimal printing is injective |
| `VolumeClashes.ClaimTakesAVolumeName` | internal/controller/templates.go:1029-1285 | for every index a claim template carries the name of a generated volume if and only if application name and index spell one: the name with its dash starts with one of the nine prefixes, and the rest with the index behind it is in the list the prefix is used for |
| `VolumeClashes.PodVolumeNamesAreDistinct` | internal/controller/templates.go:1029-1285 | volume and claim template names together are pairwise distinct, the user's lists holding no duplicates, if and only if no template spells a volume's name |
| `VolumeClashes.OtherStemsAreSafe` | internal/controller/templates.go:1029-1285 | none does where the application name with its dash starts with no prefix in use |
| `VolumeClashes.OperatorNameMayClash` | internal/controller/templates.go:1034-1036 | the first template of resource `x-0` of application `webserver-x` is called like the volume of its test.sh |
| `VolumeClashes.ClaimMayTakeAVolumeName` | internal/controller/templates.go:1034-1036 | of application `secret-vol` it is called like the volume of the user's secret `0` |
| `Generators.SelectorIsStable` | internal/controller/helper.go:810-825 | for one name and application the selector is the same exactly when the kind is, across all edits |
| `Generators.SelectorCoversTemplate` | internal/controller/templates.go:823-826 | the selector finds the template's pods exactly when user labels reassign none of its keys |
| `Generators.RoutingCoversTemplate` | internal/controller/templates.go:42-47 | the same for the routing service |
| `Generators.DNSCoversTemplate` | internal/controller/templates.go:106-130 | the DNS service finds the pods exactly when the user does not reassign the label `application` |
| `Generators.ListingCoversTemplate` | internal/controller/helper.go:762-776 | pods are found by the full label map exactly when the user leaves the digest label alone |
| `Generators.LoadBalancerCoverage` | internal/controller/templates.go:791-819 | the load balancer finds the template's pods exactly when labels respect its selector and the workload is a Deployment or the user sets `deployment` |
| `Generators.SelectorsMayMiss` | internal/controller/helper.go:798-802 | a user label `application` with another value takes the pods from the selectors of workload and routing service |
| `Generators.LoadBalancerMayMiss` | internal/controller/templates.go:805-808 | without user labels the load balancer finds no pod of a StatefulSet |
| `Generators.ListingMayMiss` | internal/controller/helper.go:762-776 | pods are listed wherever the user does not set the digest label, and none is with an empty one |
| `ClientApi.Client.Get` | internal/controller/helper.go:443-446 | an API read against the scripted answers |
| `ClientApi.Client.Create` | internal/controller/helper.go:450-454 | an API creation, refused if the object exists |
| `ClientApi.Client.Update` | internal/controller/helper.go:543-544 | an API update, refused if the object does not exist |
| `ClientApi.Client.Delete` | internal/controller/helper.go:1100-1106 | an API deletion |
| `Steps.CreateIfMissing` | internal/controller/helper.go:442-463 | read, create and requeue if missing, as all `create*` helpers do |
| `Steps.EnsureEffect` | internal/controller/helper.go:609-652 | whatever fails, it goes on only after reading the object, and otherwise creates that object or nothing |
| `Steps.EnsureAnswers` | internal/controller/helper.go:442-463 | whatever is answered, the last call decides: found goes on, created or existing comes back at once, any other refusal is the failure of the pass |
| `Steps.ApplyAnswers` | internal/controller/helper.go:542-561 | the same for objects that are overwritten |
| `Steps.CreateConfigMap` | internal/controller/helper.go:542-561 | overwrite, or create and requeue |
| `Steps.GetOrCreateNew` | internal/controller/servicemonitor.go:17-34 | get or create, an error of the read other than NotFound passing for success |
| `Steps.StepsPassedAreMet` | internal/controller/webserver_controller.go:198-254 | whatever fails, a list of steps that lets the pass go on has left every object in place, applied ones with the content wanted |
| `Steps.FaithfulSteps` | internal/controller/webserver_controller.go:147-254 | without failures, steps that write anything leave fewer unmet, and steps that write nothing let the pass go on |
| `KubePing.CheckRoleBinding` | internal/controller/helper.go:466-500 | the nested loops answer whether some listed binding allows KUBEPing |
| `KubePing.CreateRoleBinding` | internal/controller/helper.go:507-540 | use KUBEPing exactly unless the creation of the role binding was forbidden, and then because a listed one allows it, its own is in the store, or the API reported it as existing |
| `KubePing.DecisionIsGrounded` | internal/controller/helper.go:391-440 | whatever fails, an undecided resource that gets through this phase is annotated "true" or "false", the latter if and only if the creation of its role binding was forbidden; it is decided for KUBEPing if and only if a listed binding allowed it, the API reported its own as existing, or that one is in the resulting store and its creation was not forbidden; and the decision is recorded but for a conflict |
| `KubePing.MissedBindingIsNotUsed` | internal/controller/helper.go:517-529 | that proviso is needed: a binding in the store that a read misses and whose creation is forbidden is not used |
| `KubePing.OwnBindingAllows` | internal/controller/templates.go:83-104 | the role binding that the operator makes is one by which it then allows KUBEPing |
| `KubePing.UseSessionClusteringConfig` | internal/controller/helper.go:391-440 | the decision as `Reconcile` uses it, its result dropped and only its error ending the pass |
| `KubePing.DecideGrows` | internal/controller/helper.go:391-440 | whatever fails, the decision only adds objects and writes nothing but the annotation of an undecided resource |
| `KubePing.DecisionIsSticky` | internal/controller/helper.go:1042-1055 | a decided resource is neither changed nor written |
| `KubePing.DNSServiceIsThere` | internal/controller/helper.go:429-437 | with DNSPing decided, a pass through this phase without error has the service in place, unless the API says it exists |
| `Runs.DecisionStays` | internal/controller/helper.go:997-1055 | over every run, with any answers and anything done by others, the annotation once set stays, unless an edit of the user changes that very annotation; the hypothesis is on the edits alone |
| `Workloads.GeneratePodTemplate` | internal/controller/templates.go:823-884 | the pod template, with its digest label |
| `Workloads.GenerateWorkload` | internal/controller/templates.go:367-495 | what the creating and the updating generators make |
| `Workloads.CreateOrRepair` | internal/controller/helper.go:167-313 | create, stamp, regenerate, repair or leave the workload, on the object in place |
| `Workloads.UpdateAnswers` | internal/controller/helper.go:187-239 | whatever is answered to the update of a workload: of another digest, it is taken up again after half a second, also on a conflict, and any other refusal lets the pass go on; otherwise a conflict means at once and any other refusal is the failure of the pass |
| `Workloads.GoalsAreSound` | internal/controller/templates.go:367-495 | creating and updating generator agree up to retention policy and trigger annotation, and what they make needs no repair |
| `Workloads.FaithfulContinue` | internal/controller/helper.go:167-313 | without failures a call that does not panic leaves a workload in order and touches nothing else, and goes on exactly if it was in order |
| `Workloads.OneWriteStabilises` | internal/controller/helper.go:167-313 | after one failure-free call the next one goes on, writes nothing and finds digest, image and replicas as specified, if and only if the stored object was not without labels and it is not a StatefulSet without `WebImage` |
| `Workloads.ScalingKeepsTheTemplate` | internal/controller/helper.go:217-224 | a change of the replica count alone never regenerates the workload, whatever fails |
| `Builds.BuildWebApp` | internal/controller/helper.go:104-152 | script, build pod, digest and phase, in that order |
| `Builds.GateOpensOnSuccessAlone` | internal/controller/helper.go:743-758 | without failures the gate opens if and only if the build pod exists with the current digest and phase Succeeded, and the pass comes back after five seconds if and only if it exists with the current digest and another phase |
| `Builds.PodGateIsSafe` | internal/controller/helper.go:125-150 | whatever fails, only the build pod is touched, and the gate opens only on a succeeded pod of the current digest |
| `Builds.StalePodIsReplaced` | internal/controller/helper.go:134-144 | a stale pod never opens the gate, and without failures is deleted and the pass requeued |
| `Builds.StalePodAnswers` | internal/controller/helper.go:134-144 | whatever is answered to its deletion, the pass comes back after half a second, unless the pod was gone already |
| `Builds.CreateUpdateBuildConfig` | internal/controller/helper.go:676-719 | read, create, or update and start a build |
| `Builds.BuildAnswers` | internal/controller/helper.go:676-719 | whatever is answered, the last call decides: current or built goes on, created or existing comes back at once, any other refusal is the failure of the pass |
| `Builds.PrepareStreamBuild` | internal/controller/helper.go:323-356 | image stream and BuildConfig of a build from sources |
| `Builds.DropBuildConfig` | internal/controller/helper.go:357-369 | the BuildConfig left from earlier is deleted, errors ignored |
| `Builds.ReadRepository` | internal/controller/helper.go:371-383 | nothing for a missing image stream, the empty image for one that cannot be read |
| `Builds.BuildsNeverExceedChanges` | internal/controller/helper.go:698-713 | in a log in which builds follow changes they never outnumber them |
| `ExplicitBuilds.PassFollows` | internal/controller/helper.go:698-713 | in every pass each build follows at once on an update that changed the source digest of that BuildConfig; without failures each such update is followed by its build |
| `ExplicitBuilds.BuildsMatchChanges` | internal/controller/helper.go:698-713 | builds and changes are then as many |
| `Runs.BuildsAreAtMostOnce` | internal/controller/helper.go:698-713 | over every run builds are at most as many as changes of the source digest written, and exactly as many if no call fails |
| `Cleanup.CheckOwnedObjects` | internal/controller/helper.go:1076-1138 | lists both kinds and deletes the other kind and other names |
| `Cleanup.ListedIsLeftovers` | internal/controller/helper.go:1096-1135 | what is listed for deletion is exactly the owned workloads other than the wanted one, each once |
| `Cleanup.CleanupRemovesLeftovers` | internal/controller/helper.go:1076-1138 | whatever fails only leftovers go, all of them if it succeeds, and without failures it does |
| `Cleanup.CleanupLeavesTheTarget` | internal/controller/helper.go:1076-1138 | after a successful cleanup no owned workload but the wanted one is left |
| `PodReport.GetPodStatus` | internal/controller/helper.go:838-865 | one status per pod in order, with its name and address, ACTIVE if and only if its phase is Running, PENDING if and only if it is Pending, FAILED for every other phase; requeue exactly if a pod has no address |
| `PodReport.GetPodList` | internal/controller/helper.go:762-776 | the pods by name, whatever order the cache lists them in |
| `PodReport.PodOrderIsForgotten` | internal/controller/helper.go:830-865 | any two listings of the same pods give the same sequence |
| `PodReport.ReportPods` | internal/controller/webserver_controller.go:352-406 | the status written, when it is written, and how the pass ends; where the report is not cut short the status tells each pod in the state of its phase, the hosts, the replicas observed of the workload read, and, for legal replica counts, the exact surplus, as the 32-bit difference does not overflow |
| `PodReport.ReportTellsThePods` | internal/controller/webserver_controller.go:352-406 | whatever fails, a report that is not cut short has told exactly the pods of the namespace that carry all labels of the resource, by name, and comes back after half a second if and only if their number is not the wanted one or one has no address |
| `PodReport.LastWordOrCutShort` | internal/controller/webserver_controller.go:386-406 | it is cut short only by the refusal to write the status, which then stays, a conflict coming back at once |
| `Controller.EnsureConfigMaps` | internal/controller/webserver_controller.go:198-254 | the ConfigMaps and the claim, in order, under their conditions |
| `Controller.ExposeApplication` | internal/controller/webserver_controller.go:256-326 | route, secure route or load balancer, and the hosts found |
| `Controller.WebImageConfiguration` | internal/controller/helper.go:100-165 | the rollout of an image, behind its build |
| `Controller.WebImageSourceConfiguration` | internal/controller/helper.go:315-389 | the rollout from an image stream |
| `Controller.Reconcile` | internal/controller/webserver_controller.go:116-407 | the whole pass equals its specification on which the results below are proved |
| `Safety.ContinueIsSafe` | internal/controller/helper.go:167-313 | whatever fails only the goal's workload is written, and the pass goes on only with it read and in place |
| `Safety.BuildGateIsSafe` | internal/controller/helper.go:104-152 | the build touches no workload, opens only behind a succeeded pod of the digest, and is skipped only for a pod already gone |
| `Safety.CleanupAfterRollout` | internal/controller/webserver_controller.go:328-350 | behind a rollout that lets the pass go on, each deletion of a workload is justified |
| `Safety.ReconcileIsSafe` | internal/controller/webserver_controller.go:116-407 | no gap and build gate, for every pass and any answers: a pass writes only the wanted workload, never deletes it, deletes only owned others, and those only after the wanted one was read and stays, or a build pod or image stream was missing; where a webapp is built every write follows the read of its succeeded build pod |
| `Safety.ReportMeansNoLeftovers` | internal/controller/webserver_controller.go:345-350 | a pass that reaches its report leaves the wanted workload as the only owned one, across kind switches and renames |
| `Safety.WhenThereIsAGap` | internal/controller/helper.go:371-380 | without failures the cleanup is reached without the wanted workload if and only if neither it nor the image stream, not built by the operator, exists |
| `Safety.TheGapIsReal` | internal/controller/helper.go:371-380 | in that case the pass deletes every owned workload there is |
| `Outcomes.PassWritesAsSpecified` | internal/controller/webserver_controller.go:116-407 | for every store and any answers, in the fields of the resource: a workload that a pass creates, or regenerates because of its digest, has the kind, name, owner, digest, replicas, selector, claims, image, environment of the decision on clustering, volumes, mounts, probes, resources, security context and pull secret of the specification; otherwise only digest, replicas and an image given outright are changed; a pod it creates is the build pod, with the digest of the resource, the image of the builder and the push secret; the image of a stream rollout was read from the stream before |
| `Outcomes.ImageIsRolledOut` | internal/controller/helper.go:153-164 | every workload so created or regenerated for a `WebImage` runs the webapp's `WebAppWarImage` where there is a webapp and `ApplicationImage` otherwise |
| `Outcomes.BuildComesFirst` | internal/controller/helper.go:104-152 | where a webapp is built, each write of the workload comes after the read of the pod `<application>-build` whose `webserver-hash` is the digest of this very resource and whose phase is Succeeded |
| `Outcomes.BuildScriptIsInPlace` | internal/controller/helper.go:106-124 | where the build has a script of its own and lets the pass go on, the ConfigMap holds that script and the build pod mounts it |
| `Outcomes.UnusableIsLeftAlone` | internal/controller/webserver_controller.go:161-170 | with no deployment method, two, or an image stream off OpenShift, a pass writes no workload or pod and deletes nothing |
| `Outcomes.FirstReadDecides` | internal/controller/webserver_controller.go:127-135 | a resource that cannot be read ends the pass before anything is done, without failure if it is gone |
| `Outcomes.EditIsRolledOut` | internal/controller/helper.go:187-206 | for each of the twelve fields: without failures a workload that carries the digest from before an edit of that field is regenerated if and only if the field changed, and then has exactly the specification from after it |
| `Outcomes.SourceEditIsBuilt` | internal/controller/helper.go:698-713 | a BuildConfig that carries the source digest from before an edit is overwritten, with the sources from after it, and built if and only if the image stream changed |
| `Outcomes.HostsAreFound` | internal/controller/webserver_controller.go:256-326 | whatever fails, a pass goes on with the sorted addresses of the route or load balancer it read, or with none only on OpenShift with host name NONE |
| `Outcomes.ExposureFollowsHostName` | internal/controller/templates.go:712-788 | which route is wanted for which host name, `tls:` being taken off |
| `Files.SupportResolvesVolumes` | internal/controller/templates.go:1146-1285 | volumes are generated under the very conditions under which their ConfigMaps and claim are written |
| `Files.NamedFilesExist` | internal/controller/templates.go:823-1027 | every file of the operator's that the pod names, in its environment, start script and probes, is mounted at that path from a key of an existing ConfigMap |
| `Files.FilesComeBeforeRollout` | internal/controller/webserver_controller.go:198-254 | from any store and whatever fails, a pass that gets to its rollout has put in place every ConfigMap with its key and the log claim that the pod template mounts, and every file it names |
| `Files.FilesHoldTheSpecification` | internal/controller/templates.go:132-208 | and each of those ConfigMaps holds what the specification says: the probe scripts, the start script, the logging properties, and in test.sh the membership provider, TLS and access logs |
| `Files.RolloutsAreMounted` | internal/controller/webserver_controller.go:116-407 | for every store and any answers: a pass loses no file; if it creates or updates the workload, all ConfigMaps, with their keys, and the claim that the generated volumes name exist in the resulting store, though they were missing before; and what it creates or regenerates has exactly those volumes |
| `Files.PassAddsNoDangling` | internal/controller/webserver_controller.go:116-407 | its consequence for the workloads that exist already: for every store and any answers, the owned workloads that dangle after a pass are among those that did before it |
| `Runs.OnlyOthersMakeDangle` | internal/controller/webserver_controller.go:116-407 | over every run, with no hypothesis, an owned workload that dangles at the end did so at the start or was made to by a move of others; passes and edits never make one dangle |
| `Runs.RunsNeverDangle` | internal/controller/webserver_controller.go:116-407 | so none ever dangles where others take no mounted file away and keep owner and volumes of the owned workloads, which they may scale, annotate, relabel and delete |
| `Progress.AgendaIsSound` | internal/controller/webserver_controller.go:147-350 | no two steps of a pass contradict each other, so one does not undo another |
| `Progress.AnnotatingKeepsAgenda` | internal/controller/helper.go:997-1055 | recording KUBEPing changes nothing of what a pass wants |
| `Progress.EachPassProgresses` | internal/controller/webserver_controller.go:116-407 | termination: for every platform and state a failure-free pass changes nothing in store, resource and status, or lowers the measure |
| `Progress.PassesSettle` | internal/controller/webserver_controller.go:116-407 | after as many failure-free passes as the measure says every further one changes nothing |
| `Progress.QuietPassesWait` | internal/controller/webserver_controller.go:116-407 | a pass that changes nothing has panicked, given up on an unusable specification, waits for the load balancer or the build pod, or reports with only the pods to wait for |
| `Progress.ThroughMeansDone` | internal/controller/webserver_controller.go:198-350 | a quiet pass that gets through has nothing left to do but a workload whose image stream is missing |
| `Convergence.QuietStateIsAsSpecified` | internal/controller/webserver_controller.go:116-407 | the state reconciliation settles in: where passes change nothing any more and get through, and the image stream is not missing, the store holds the wanted workload, current, scaled and of an image given outright, as the only one owned; the services, monitors, log claim and exposure; the current build pod or BuildConfig; and every ConfigMap with the content specified |
| `Runs.PassRecordsOnly` | internal/controller/helper.go:997-1028 | whatever fails, all a pass does to the resource is to record an open decision |
| `History.GoalKeepsMade` | internal/controller/helper.go:180-226 | creating, regenerating and repairing keep that every workload of the owner is made for a specification seen and carries its digest, also when a workload of another owner is found under the name |
| `History.RunsKeepMade` | internal/controller/helper.go:167-239 | the same over every run in which others make no workloads in that owner's name and keep the core of those there are; they may scale, annotate and delete them, report on them and set their image, unless images are pinned |
| `History.SettledFromTheStart` | internal/controller/helper.go:997-1028 | passes made workloads for one specification under one decision on clustering: without session clustering always, and otherwise where the annotation, set before or by the first pass, is left alone |
| `History.DigestForgetsDecision` | internal/controller/helper.go:884-969 | the decision on clustering is in the template and not in the digest, so that hypothesis cannot be dropped |
| `History.CurrentDigestMeansCurrentTemplate` | internal/controller/helper.go:167-239 | over every such run from a store in which the resource owns no workload, with digests that separate the specifications passes had in hand and one decision on clustering for each, an owned workload that carries the current digest is the one that would be created now, up to what others may write |
| `History.LooksLikeMeansTemplate` | internal/controller/templates.go:402-463 | its pod template is exactly the one generated for the image it runs, which is the specified one if images are pinned |
| `History.HistoryIsForgotten` | internal/controller/helper.go:167-313 | two such runs ending in the same resource, each with its own wanted workload in order, have the same Deployment up to annotations, and the same StatefulSet but for its retention policy; the image is the same where it is repaired or pinned |
| `History.QuietRunsAgree` | internal/controller/webserver_controller.go:116-407 | so quiescence depends on the final resource and not on the edits before it |
| `History.RetentionDependsOnHistory` | internal/controller/templates.go:388-392 | a created StatefulSet has the retention policy wanted, a regenerated one never has, and both are settled |
| `Webhook.AppRegistry.CheckApplicationName` | internal/webhook/v1alpha1/webserver_webhook.go:126-167 | refused exactly if another server of the namespace holds the name; otherwise recorded, renaming in place; all other namespaces unchanged |
| `Webhook.AppRegistry.ValidateCreate` | internal/webhook/v1alpha1/webserver_webhook.go:77-86 | the verdict and the registry after a creation |
| `Webhook.AppRegistry.ValidateUpdate` | internal/webhook/v1alpha1/webserver_webhook.go:89-98 | the verdict and the registry after an update |
| `Webhook.AppRegistry.ValidateDelete` | internal/webhook/v1alpha1/webserver_webhook.go:101-118 | exactly the server's pair goes, the others keep their order, other namespaces their lists |
| `Webhook.AppRegistry.CutOut` | internal/webhook/v1alpha1/webserver_webhook.go:112 | the splice within the backing array |
| `Webhook.SpliceIsWithout` | internal/webhook/v1alpha1/webserver_webhook.go:108-115 | cutting one pair out of a one-to-one list leaves the other servers' pairs, in order |
| `Webhook.HistoriesRefineAnInjectiveMap` | internal/webhook/v1alpha1/webserver_webhook.go:126-167 | for every history of requests each list is one-to-one and equal to the injective map folded from the accepted requests, which alone decides the next verdict |
| `Webhook.DeleteFreesTheName` | internal/webhook/v1alpha1/webserver_webhook.go:101-118 | after a deletion any server may take the name at any later time, as long as no other has asked for it since |

## Left out

- Manager, TLS, leader election, discovery and watches in cmd/main.go: wiring.
- Stale reads from the cache and lost replies of calls that took effect: an API call here either takes effect and succeeds or does nothing and fails.
- Edits by users and moves of others in the middle of a pass: they happen between passes, and between passes others may do anything.
- More than one WebServer at a time: others may own objects in the store, but make no passes.
- Finalizers, owner-based garbage collection and resource versions; a conflict is one of the scripted answers.
- The response of the update that records the annotation is not read back into the resource in hand, so the selector set before it is not lost here.
- Errors of JSON marshalling, which would make the digest the empty string.
- The branch that deletes the ConfigMap of a build script that differs: the ConfigMap has just been overwritten with that script, so the branch is dead.
- Texts of shell scripts, server.xml edits and logging properties: reduced to the choices made in them (`ClusterObjects.Content`).
- Ports, probe details, security contexts and resource quantities: copied through, as one text each.
- Webhook secrets, environment, triggers and output of BuildConfigs, and the rest of the build pod: not read by any decision.
- Wall-clock delays of requeues: kept as numbers.
- Concurrent webhook requests: each request is one atomic step, although `ValidateDelete` takes no lock.
- Runs.RunsNeverDangle: assumes that others take no mounted file away between passes and make no workloads in the resource's name, since nothing the operator does can keep a running workload from dangling then; `Runs.OnlyOthersMakeDangle` and `Files.RolloutsAreMounted` assume nothing.
- Progress.PassesSettle: assumes a fixed environment and no failures, without which there is nothing to converge to.
- History.HistoryIsForgotten: assumes that the resource owns no workload at the start, that others make none in its name and keep the core of those there are, that the wanted workload is its own, that passes decided alike on clustering for one specification, and that the digest separates the specifications they had in hand; `History.DigestForgetsDecision` and `Digest.TwoLegalLabelMapsHashAlike` show that the last two cannot be dropped. An image that is neither repaired nor pinned is whatever others or the repository made it.
