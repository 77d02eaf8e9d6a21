/** The reconciler of springbootapplication_controller.go together with the create-or-update
    closures of springbootapplication_deployment.go and springbootapplication_hpa.go. The
    Kubernetes store is a set of maps from object key to object; every Create or Update is
    appended to a write log. Each upsert is specified by a function from the old store to the
    new one (Sync*), and the class Cluster carries it out step by step on its fields. */
module Controller {
  import opened Wrappers
  import opened Api
  import opened Objects
  import opened DeploymentBuilder
  import opened Autoscaling
  import opened ConfigMerge

  const ExternalPort := 80
  const ConfigFileKey := "application.yaml"

  datatype Kind = AppKind | ConfigMapKind | ServiceKind | DeploymentKind | AutoscalerKind

  function KindName(k: Kind): string {
    match k
    case AppKind => "SpringBootApplication"
    case ConfigMapKind => "ConfigMap"
    case ServiceKind => "Service"
    case DeploymentKind => "Deployment"
    case AutoscalerKind => "HorizontalPodAutoscaler"
  }

  datatype Write = Created(kind: Kind, key: Key) | Updated(kind: Kind, key: Key)

  /** The store: one map per kind, the log of writes issued, and the kinds whose Get fails
      with an error other than NotFound. */
  datatype Store = Store(
    apps: map<Key, AppRecord>,
    configMaps: map<Key, ConfigMap>,
    services: map<Key, Service>,
    deployments: map<Key, Deployment>,
    autoscalers: map<Key, HorizontalPodAutoscaler>,
    writes: seq<Write>,
    unreadable: set<Kind>)

  datatype Outcome = Outcome(store: Store, err: Option<Error>)

  /** Every stored application sits under its own namespace and name. */
  predicate WellKeyed(s: Store) {
    forall k :: k in s.apps ==> s.apps[k].key == k
  }

  /** `t` differs from `s` at most in the object of kind `k` stored under `key` and in the
      write log. */
  predicate Touches(s: Store, t: Store, k: Kind, key: Key) {
    && t.apps == s.apps
    && t.unreadable == s.unreadable
    && (if k == ConfigMapKind then t.configMaps - {key} == s.configMaps - {key} else t.configMaps == s.configMaps)
    && (if k == ServiceKind then t.services - {key} == s.services - {key} else t.services == s.services)
    && (if k == DeploymentKind then t.deployments - {key} == s.deployments - {key} else t.deployments == s.deployments)
    && (if k == AutoscalerKind then t.autoscalers - {key} == s.autoscalers - {key} else t.autoscalers == s.autoscalers)
  }

  /** `t`'s write log is `s`'s with at most one write appended: a Create or an Update of the
      object of kind `k` under `key`. */
  predicate AddsAtMostOne(s: Store, t: Store, k: Kind, key: Key) {
    && |s.writes| <= |t.writes| && t.writes[..|s.writes|] == s.writes
    && |t.writes| <= |s.writes| + 1
    && (forall i :: |s.writes| <= i < |t.writes| ==> t.writes[i].kind == k && t.writes[i].key == key)
  }

  // ConfigMap

  /** The ConfigMap ensureConfigMap wants: the rendered config under application.yaml and the
      app's labels; no owner link is set on it. */
  function DesiredConfigMap(app: AppRecord, config: string): (c: ConfigMap)
    ensures c.data.Keys == {ConfigFileKey} && c.data[ConfigFileKey] == config
    ensures c.meta.owner.None?
  {
    ConfigMap(ObjectMeta(LabelsOf(app.labels), map[], None), map[ConfigFileKey := config])
  }

  predicate ConfigMapInSync(s: Store, app: AppRecord, config: string) {
    app.key in s.configMaps && s.configMaps[app.key].data == DesiredConfigMap(app, config).data
  }

  /** ensureConfigMap: create when absent, replace with the desired object when its data
      differs, write nothing otherwise; a failed Get is returned with no write. */
  function SyncConfigMap(s: Store, app: AppRecord, config: string): (o: Outcome)
    ensures ConfigMapKind in s.unreadable ==> o == Outcome(s, Some(ReadFailed(KindName(ConfigMapKind))))
    ensures Touches(s, o.store, ConfigMapKind, app.key)
    ensures AddsAtMostOne(s, o.store, ConfigMapKind, app.key)
    ensures ConfigMapKind !in s.unreadable ==>
      && o.err.None?
      && ConfigMapInSync(o.store, app, config)
    ensures ConfigMapKind !in s.unreadable && app.key !in s.configMaps ==>
      o.store.configMaps[app.key] == DesiredConfigMap(app, config) && o.store.writes == s.writes + [Created(ConfigMapKind, app.key)]
    ensures ConfigMapKind !in s.unreadable && app.key in s.configMaps && !ConfigMapInSync(s, app, config) ==>
      o.store.configMaps[app.key] == DesiredConfigMap(app, config) && o.store.writes == s.writes + [Updated(ConfigMapKind, app.key)]
    ensures ConfigMapInSync(s, app, config) ==> o.store == s
  {
    if ConfigMapKind in s.unreadable then
      Outcome(s, Some(ReadFailed(KindName(ConfigMapKind))))
    else
      var desired := DesiredConfigMap(app, config);
      if app.key !in s.configMaps then
        Outcome(s.(configMaps := s.configMaps[app.key := desired], writes := s.writes + [Created(ConfigMapKind, app.key)]), None)
      else if s.configMaps[app.key].data != desired.data then
        Outcome(s.(configMaps := s.configMaps[app.key := desired], writes := s.writes + [Updated(ConfigMapKind, app.key)]), None)
      else
        Outcome(s, None)
  }

  // Service

  /** The Service ensureService wants: ClusterIP, one port "http" 80 -> the internal port (cast
      to int32 by intstr.FromInt), pods selected by their app label; no owner link. */
  function DesiredService(app: AppRecord, internalPort: int): (v: Service)
    ensures v.spec.serviceType == "ClusterIP"
    ensures v.spec.ports == [ServicePort("http", ExternalPort, ToInt32(internalPort))]
    ensures v.spec.selector == map[AppLabel := app.key.name]
    ensures v.meta.owner.None?
  {
    Service(ObjectMeta(LabelsOf(app.labels), map[], None),
            ServiceSpec("ClusterIP", [ServicePort("http", ExternalPort, ToInt32(internalPort))], map[AppLabel := app.key.name], ""))
  }

  /** The three fields ensureService owns on an existing Service. */
  predicate OwnedFieldsAgree(existing: Service, desired: Service) {
    && existing.spec.ports == desired.spec.ports
    && existing.spec.selector == desired.spec.selector
    && existing.spec.serviceType == desired.spec.serviceType
  }

  /** The existing Service with the owned fields copied from the desired one. */
  function WithOwnedFields(existing: Service, desired: Service): (r: Service)
    ensures OwnedFieldsAgree(r, desired)
    ensures r.meta == existing.meta && r.spec.clusterIP == existing.spec.clusterIP
    ensures OwnedFieldsAgree(existing, desired) <==> r == existing
  {
    existing.(spec := existing.spec.(serviceType := desired.spec.serviceType, ports := desired.spec.ports, selector := desired.spec.selector))
  }

  predicate ServiceInSync(s: Store, app: AppRecord, internalPort: int) {
    app.key in s.services && OwnedFieldsAgree(s.services[app.key], DesiredService(app, internalPort))
  }

  /** ensureService: create when absent; otherwise copy the owned fields that differ onto the
      existing object and update it iff any did. Labels and everything else the existing
      Service has are kept. */
  function SyncService(s: Store, app: AppRecord, internalPort: int): (o: Outcome)
    ensures ServiceKind in s.unreadable ==> o == Outcome(s, Some(ReadFailed(KindName(ServiceKind))))
    ensures Touches(s, o.store, ServiceKind, app.key)
    ensures AddsAtMostOne(s, o.store, ServiceKind, app.key)
    ensures ServiceKind !in s.unreadable ==>
      && o.err.None?
      && ServiceInSync(o.store, app, internalPort)
    ensures ServiceKind !in s.unreadable && app.key !in s.services ==>
      o.store.services[app.key] == DesiredService(app, internalPort) && o.store.writes == s.writes + [Created(ServiceKind, app.key)]
    ensures ServiceKind !in s.unreadable && app.key in s.services && !ServiceInSync(s, app, internalPort) ==>
      && o.store.services[app.key].meta == s.services[app.key].meta
      && o.store.services[app.key].spec.clusterIP == s.services[app.key].spec.clusterIP
      && o.store.writes == s.writes + [Updated(ServiceKind, app.key)]
    ensures ServiceInSync(s, app, internalPort) ==> o.store == s
  {
    if ServiceKind in s.unreadable then
      Outcome(s, Some(ReadFailed(KindName(ServiceKind))))
    else
      var desired := DesiredService(app, internalPort);
      if app.key !in s.services then
        Outcome(s.(services := s.services[app.key := desired], writes := s.writes + [Created(ServiceKind, app.key)]), None)
      else if !OwnedFieldsAgree(s.services[app.key], desired) then
        Outcome(s.(services := s.services[app.key := WithOwnedFields(s.services[app.key], desired)],
                   writes := s.writes + [Updated(ServiceKind, app.key)]), None)
      else
        Outcome(s, None)
  }

  // Deployment

  /** The object CreateOrUpdate starts from when the Deployment does not exist yet. */
  const NewDeployment := Deployment(ObjectMeta(map[], map[], None), DeploymentSpec(None, map[], PodTemplate(map[], PodSpec(None, [], []))), 0)

  /** The ensureDeployment closure applied to `existing`: Labels and Spec from the desired
      Deployment, the controller reference stamped; nothing else touched. */
  function ClaimDeployment(existing: Deployment, desired: Deployment, app: AppRecord): (r: Deployment)
    ensures r.meta.labels == desired.meta.labels && r.spec == desired.spec && r.meta.owner == Some(ControllerRef(app))
    ensures r.meta.annotations == existing.meta.annotations && r.readyReplicas == existing.readyReplicas
  {
    existing.(meta := existing.meta.(labels := desired.meta.labels, owner := Some(ControllerRef(app))), spec := desired.spec)
  }

  predicate DeploymentInSync(s: Store, app: AppRecord) {
    DeploymentFor(app).Success? ==>
      app.key in s.deployments
      && ClaimDeployment(s.deployments[app.key], DeploymentFor(app).value, app) == s.deployments[app.key]
  }

  /** ensureDeployment through CreateOrUpdate: a failed build writes nothing; otherwise the
      claimed object is created, or written back iff claiming changed the existing one. */
  function SyncDeployment(s: Store, app: AppRecord): (o: Outcome)
    ensures DeploymentKind in s.unreadable ==> o == Outcome(s, Some(ReadFailed(KindName(DeploymentKind))))
    ensures Touches(s, o.store, DeploymentKind, app.key)
    ensures AddsAtMostOne(s, o.store, DeploymentKind, app.key)
    ensures DeploymentKind !in s.unreadable && DeploymentFor(app).Failure? ==> o == Outcome(s, Some(DeploymentFor(app).error))
    ensures DeploymentKind !in s.unreadable && DeploymentFor(app).Success? ==>
      && o.err.None?
      && DeploymentInSync(o.store, app)
      && (app.key !in s.deployments ==> o.store.writes == s.writes + [Created(DeploymentKind, app.key)])
      && (app.key in s.deployments && !DeploymentInSync(s, app) ==>
            && o.store.deployments[app.key].meta.annotations == s.deployments[app.key].meta.annotations
            && o.store.deployments[app.key].readyReplicas == s.deployments[app.key].readyReplicas
            && o.store.writes == s.writes + [Updated(DeploymentKind, app.key)])
    ensures DeploymentInSync(s, app) && DeploymentKind !in s.unreadable && DeploymentFor(app).Success? ==> o.store == s
  {
    if DeploymentKind in s.unreadable then
      Outcome(s, Some(ReadFailed(KindName(DeploymentKind))))
    else
      match DeploymentFor(app)
      case Failure(e) => Outcome(s, Some(e))
      case Success(desired) =>
        if app.key !in s.deployments then
          Outcome(s.(deployments := s.deployments[app.key := ClaimDeployment(NewDeployment, desired, app)],
                     writes := s.writes + [Created(DeploymentKind, app.key)]), None)
        else
          var claimed := ClaimDeployment(s.deployments[app.key], desired, app);
          if claimed != s.deployments[app.key] then
            Outcome(s.(deployments := s.deployments[app.key := claimed], writes := s.writes + [Updated(DeploymentKind, app.key)]), None)
          else
            Outcome(s, None)
  }

  // HorizontalPodAutoscaler

  const NewAutoscaler := HorizontalPodAutoscaler(ObjectMeta(map[], map[], None),
    HpaSpec(CrossVersionObjectReference("", "", ""), None, 0, [], None), 0)

  /** The ensureAutoscaler closure applied to `existing`: the app's labels, the built spec and
      the controller reference; nothing else touched. */
  function ClaimAutoscaler(existing: HorizontalPodAutoscaler, spec: HpaSpec, app: AppRecord): (r: HorizontalPodAutoscaler)
    ensures r.meta.labels == LabelsOf(app.labels) && r.spec == spec && r.meta.owner == Some(ControllerRef(app))
    ensures r.meta.annotations == existing.meta.annotations && r.currentReplicas == existing.currentReplicas
  {
    existing.(meta := existing.meta.(labels := LabelsOf(app.labels), owner := Some(ControllerRef(app))), spec := spec)
  }

  predicate AutoscalerInSync(s: Store, app: AppRecord) {
    AutoscalerSpecFor(app).Success? ==>
      app.key in s.autoscalers
      && ClaimAutoscaler(s.autoscalers[app.key], AutoscalerSpecFor(app).value, app) == s.autoscalers[app.key]
  }

  /** ensureAutoscaler through CreateOrUpdate, on the same pattern as SyncDeployment. */
  function SyncAutoscaler(s: Store, app: AppRecord): (o: Outcome)
    ensures AutoscalerKind in s.unreadable ==> o == Outcome(s, Some(ReadFailed(KindName(AutoscalerKind))))
    ensures Touches(s, o.store, AutoscalerKind, app.key)
    ensures AddsAtMostOne(s, o.store, AutoscalerKind, app.key)
    ensures AutoscalerKind !in s.unreadable && AutoscalerSpecFor(app).Failure? ==> o == Outcome(s, Some(AutoscalerSpecFor(app).error))
    ensures AutoscalerKind !in s.unreadable && AutoscalerSpecFor(app).Success? ==>
      && o.err.None?
      && AutoscalerInSync(o.store, app)
      && (app.key !in s.autoscalers ==> o.store.writes == s.writes + [Created(AutoscalerKind, app.key)])
      && (app.key in s.autoscalers && !AutoscalerInSync(s, app) ==>
            && o.store.autoscalers[app.key].meta.annotations == s.autoscalers[app.key].meta.annotations
            && o.store.autoscalers[app.key].currentReplicas == s.autoscalers[app.key].currentReplicas
            && o.store.writes == s.writes + [Updated(AutoscalerKind, app.key)])
    ensures AutoscalerInSync(s, app) && AutoscalerKind !in s.unreadable && AutoscalerSpecFor(app).Success? ==> o.store == s
  {
    if AutoscalerKind in s.unreadable then
      Outcome(s, Some(ReadFailed(KindName(AutoscalerKind))))
    else
      match AutoscalerSpecFor(app)
      case Failure(e) => Outcome(s, Some(e))
      case Success(spec) =>
        if app.key !in s.autoscalers then
          Outcome(s.(autoscalers := s.autoscalers[app.key := ClaimAutoscaler(NewAutoscaler, spec, app)],
                     writes := s.writes + [Created(AutoscalerKind, app.key)]), None)
        else
          var claimed := ClaimAutoscaler(s.autoscalers[app.key], spec, app);
          if claimed != s.autoscalers[app.key] then
            Outcome(s.(autoscalers := s.autoscalers[app.key := claimed], writes := s.writes + [Updated(AutoscalerKind, app.key)]), None)
          else
            Outcome(s, None)
  }

  // Reconcile

  /** The position of a child kind in Reconcile's sequence; 3 for kinds Reconcile never writes. */
  function Step(k: Kind): nat {
    match k
    case ConfigMapKind => 0
    case ServiceKind => 1
    case DeploymentKind => 2
    case _ => 3
  }

  /** Writes one Reconcile may add: all for `key`, all of a child kind it syncs, each kind at
      most once and in the order ConfigMap, Service, Deployment. */
  predicate ChildWritesInOrder(w: seq<Write>, key: Key) {
    && (forall i :: 0 <= i < |w| ==> w[i].key == key && Step(w[i].kind) < 3)
    && (forall i, j :: 0 <= i < j < |w| ==> Step(w[i].kind) < Step(w[j].kind))
  }

  /** `t`'s log is `s`'s log followed by writes in Reconcile's order. */
  predicate AppendsChildWrites(s: Store, t: Store, key: Key) {
    |s.writes| <= |t.writes| && t.writes[..|s.writes|] == s.writes && ChildWritesInOrder(t.writes[|s.writes|..], key)
  }

  /** Reconcile: a missing app is not an error; otherwise merge the config, then sync the
      ConfigMap, the Service and the Deployment, in that order, each with whatever the merge
      produced (("", 0) when it failed). Every error after the app's Get is dropped. */
  function ReconcileModel(s: Store, key: Key, codec: Codec): (o: Outcome)
    ensures AppKind in s.unreadable ==> o == Outcome(s, Some(ReadFailed(KindName(AppKind))))
    ensures AppKind !in s.unreadable ==> o.err.None?
    ensures AppKind !in s.unreadable && key !in s.apps ==> o.store == s
    ensures AppKind !in s.unreadable && key in s.apps ==>
      var app := s.apps[key];
      var m := MergeOutcome(app.spec.config, codec);
      && o.store.apps == s.apps && o.store.autoscalers == s.autoscalers && o.store.unreadable == s.unreadable
      && (ConfigMapKind !in s.unreadable ==> ConfigMapInSync(o.store, app, m.0))
      && (ServiceKind !in s.unreadable ==> ServiceInSync(o.store, app, m.1))
      && (DeploymentKind !in s.unreadable ==> DeploymentInSync(o.store, app))
      && AppendsChildWrites(s, o.store, app.key)
      && o.store.configMaps - {app.key} == s.configMaps - {app.key}
      && o.store.services - {app.key} == s.services - {app.key}
      && o.store.deployments - {app.key} == s.deployments - {app.key}
      && (ConfigMapKind in s.unreadable ==> o.store.configMaps == s.configMaps)
      && (ServiceKind in s.unreadable ==> o.store.services == s.services)
      && (DeploymentKind in s.unreadable || DeploymentFor(app).Failure? ==> o.store.deployments == s.deployments)
  {
    if AppKind in s.unreadable then
      Outcome(s, Some(ReadFailed(KindName(AppKind))))
    else if key !in s.apps then
      Outcome(s, None)
    else
      var app := s.apps[key];
      var merged := MergeOutcome(app.spec.config, codec);
      var s1 := SyncConfigMap(s, app, merged.0).store;
      var s2 := SyncService(s1, app, merged.1).store;
      var s3 := SyncDeployment(s2, app).store;
      ChildSyncsCompose(s, s1, s2, s3, app, merged.0, merged.1);
      Outcome(s3, None)
  }

  /** What the three syncs of Reconcile leave behind, from their contracts one by one: each
      child is still in sync after the later steps, the autoscalers and apps are untouched,
      and the log grows by at most one write per child, in order. */
  lemma {:induction false} ChildSyncsCompose(s: Store, s1: Store, s2: Store, s3: Store, app: AppRecord, config: string, port: int)
    requires s1 == SyncConfigMap(s, app, config).store
    requires s2 == SyncService(s1, app, port).store
    requires s3 == SyncDeployment(s2, app).store
    ensures s3.apps == s.apps && s3.autoscalers == s.autoscalers && s3.unreadable == s.unreadable
    ensures ConfigMapKind !in s.unreadable ==> ConfigMapInSync(s3, app, config)
    ensures ServiceKind !in s.unreadable ==> ServiceInSync(s3, app, port)
    ensures DeploymentKind !in s.unreadable ==> DeploymentInSync(s3, app)
    ensures AppendsChildWrites(s, s3, app.key)
    ensures s3.configMaps - {app.key} == s.configMaps - {app.key}
    ensures s3.services - {app.key} == s.services - {app.key}
    ensures s3.deployments - {app.key} == s.deployments - {app.key}
    ensures ConfigMapKind in s.unreadable ==> s3.configMaps == s.configMaps
    ensures ServiceKind in s.unreadable ==> s3.services == s.services
    ensures DeploymentKind in s.unreadable || DeploymentFor(app).Failure? ==> s3.deployments == s.deployments
  {
    assert s3.configMaps == s2.configMaps == s1.configMaps;
    assert s3.services == s2.services;
    WritesCompose(s, s1, s2, s3, app.key);
  }

  /** One optional ConfigMap write, then one optional Service write, then one optional
      Deployment write make a log extension in Reconcile's order. */
  lemma {:induction false} WritesCompose(s: Store, s1: Store, s2: Store, s3: Store, key: Key)
    requires AddsAtMostOne(s, s1, ConfigMapKind, key)
    requires AddsAtMostOne(s1, s2, ServiceKind, key)
    requires AddsAtMostOne(s2, s3, DeploymentKind, key)
    ensures AppendsChildWrites(s, s3, key)
  {
    var n0, n1, n2 := |s.writes|, |s1.writes|, |s2.writes|;
    assert s3.writes[..n0] == s.writes by {
      assert s3.writes[..n0] == s3.writes[..n2][..n0] == s2.writes[..n1][..n0];
    }
    var w := s3.writes[n0..];
    forall i | 0 <= i < |w|
      ensures w[i].key == key
      ensures Step(w[i].kind) == if n0 + i < n1 then 0 else if n0 + i < n2 then 1 else 2
    {
      var k := n0 + i;
      assert w[i] == s3.writes[k];
      if k < n2 {
        assert s3.writes[k] == s2.writes[k];
        if k < n1 {
          assert s2.writes[k] == s1.writes[k];
        }
      }
    }
  }

  /** A second Reconcile with nothing changed in between writes nothing and changes nothing. */
  lemma {:induction false} ReconcileIdempotent(s: Store, key: Key, codec: Codec)
    ensures var s1 := ReconcileModel(s, key, codec).store;
      ReconcileModel(s1, key, codec).store == s1
  {
    var s1 := ReconcileModel(s, key, codec).store;
    if AppKind !in s.unreadable && key in s.apps {
      var app := s.apps[key];
      var merged := MergeOutcome(app.spec.config, codec);
      var a1 := SyncConfigMap(s, app, merged.0).store;
      var a2 := SyncService(a1, app, merged.1).store;
      assert ConfigMapKind !in s.unreadable ==> ConfigMapInSync(s1, app, merged.0);
      assert ServiceKind !in s.unreadable ==> ServiceInSync(s1, app, merged.1);
      var b1 := SyncConfigMap(s1, app, merged.0).store;
      assert b1 == s1;
      var b2 := SyncService(b1, app, merged.1).store;
      assert b2 == s1;
      var b3 := SyncDeployment(b2, app).store;
      assert b3 == s1;
    }
  }

  /** A config that does not decode still reaches the ConfigMap and the Service: the
      ConfigMap holds an empty application.yaml and the Service targets port 0. */
  lemma ReconcileAfterDecodeFailure(s: Store, key: Key, codec: Codec)
    requires AppKind !in s.unreadable && ConfigMapKind !in s.unreadable && ServiceKind !in s.unreadable
    requires WellKeyed(s) && key in s.apps && Decoded(s.apps[key].spec.config, codec).None?
    ensures var s1 := ReconcileModel(s, key, codec).store;
      && key in s1.configMaps && s1.configMaps[key].data == map[ConfigFileKey := ""]
      && key in s1.services && s1.services[key].spec.ports == [ServicePort("http", ExternalPort, 0)]
  {
    var app := s.apps[key];
    assert MergeOutcome(app.spec.config, codec) == ("", 0, Some(DecodeFailed));
    var a1 := SyncConfigMap(s, app, "").store;
    var a2 := SyncService(a1, app, 0).store;
    var a3 := SyncDeployment(a2, app).store;
    assert a3 == ReconcileModel(s, key, codec).store;
    assert a3.configMaps == a1.configMaps;
    assert a3.services == a2.services;
  }

  /** A first Reconcile against a store holding none of the children creates the ConfigMap,
      the Service and the Deployment, in that order, and nothing else. */
  lemma ReconcileCreatesChildrenInOrder(s: Store, key: Key, codec: Codec)
    requires WellKeyed(s) && s.unreadable == {} && key in s.apps
    requires key !in s.configMaps && key !in s.services && key !in s.deployments
    requires DeploymentFor(s.apps[key]).Success?
    ensures ReconcileModel(s, key, codec).store.writes ==
      s.writes + [Created(ConfigMapKind, key), Created(ServiceKind, key), Created(DeploymentKind, key)]
  {
  }

  /** Owner links as written: the Deployment and the HorizontalPodAutoscaler carry the app's
      controller reference; a ConfigMap or Service the reconciler writes carries none. */
  lemma ChildOwnerLinks(s: Store, app: AppRecord, config: string, internalPort: int)
    requires app.key !in s.configMaps && app.key !in s.services
    requires s.unreadable == {}
    ensures SyncConfigMap(s, app, config).store.configMaps[app.key].meta.owner.None?
    ensures SyncService(s, app, internalPort).store.services[app.key].meta.owner.None?
    ensures DeploymentFor(app).Success? ==>
      SyncDeployment(s, app).store.deployments[app.key].meta.owner == Some(ControllerRef(app))
    ensures AutoscalerSpecFor(app).Success? ==>
      SyncAutoscaler(s, app).store.autoscalers[app.key].meta.owner == Some(ControllerRef(app))
  {
  }

  /** The Service takes its target port from the merged config while the container port comes
      from the spec, so the two can disagree: spec port 8080 with server.port 3333 in the
      config sends the Service to 3333 and opens 8080 on the pod. */
  lemma {:induction false} ServiceAndContainerPortsCanDisagree(s: Store, key: Key)
    requires WellKeyed(s) && s.unreadable == {} && key in s.apps
    requires s.apps[key].spec.port == 8080 && s.apps[key].spec.resourcePreset == Some(Small)
    requires s.apps[key].spec.config.Some? && |s.apps[key].spec.config.value| > 0
    ensures var codec := Codec(
        (b: Bytes) => Some(map["server" := ConfigMerge.JObject(map["port" := ConfigMerge.JFloat(3333.0)])]),
        (d: Document) => Some("rendered"));
      var s1 := ReconcileModel(s, key, codec).store;
      && key in s1.services && s1.services[key].spec.ports[0].targetPort == 3333
      && key in s1.deployments && s1.deployments[key].spec.template.spec.containers[0].ports[0].containerPort == 8080
  {
    var codec := Codec(
        (b: Bytes) => Some(map["server" := ConfigMerge.JObject(map["port" := ConfigMerge.JFloat(3333.0)])]),
        (d: Document) => Some("rendered"));
    var app := s.apps[key];
    var doc := map["server" := ConfigMerge.JObject(map["port" := ConfigMerge.JFloat(3333.0)])];
    assert Decoded(app.spec.config, codec) == Some(doc);
    assert EffectivePort(doc) == 3333;
    assert MergeOutcome(app.spec.config, codec).1 == 3333;
  }

  /** The in-memory store the reconciler works against. */
  class Cluster {
    var apps: map<Key, AppRecord>
    var configMaps: map<Key, ConfigMap>
    var services: map<Key, Service>
    var deployments: map<Key, Deployment>
    var autoscalers: map<Key, HorizontalPodAutoscaler>
    var writes: seq<Write>
    const unreadable: set<Kind>

    function State(): Store
      reads this
    {
      Store(apps, configMaps, services, deployments, autoscalers, writes, unreadable)
    }

    constructor (s: Store)
      ensures State() == s
    {
      apps, configMaps, services, deployments, autoscalers := s.apps, s.configMaps, s.services, s.deployments, s.autoscalers;
      writes, unreadable := s.writes, s.unreadable;
    }

    /** ensureConfigMap. */
    method EnsureConfigMap(app: Application, config: string) returns (err: Option<Error>)
      modifies this`configMaps, this`writes
      ensures Outcome(State(), err) == SyncConfigMap(old(State()), app.Record(), config)
    {
      if ConfigMapKind in unreadable {
        return Some(ReadFailed(KindName(ConfigMapKind)));
      }
      var desired := ConfigMap(ObjectMeta(LabelsOf(app.labels), map[], None), map[ConfigFileKey := config]);
      if app.key !in configMaps {
        configMaps := configMaps[app.key := desired];
        writes := writes + [Created(ConfigMapKind, app.key)];
      } else if desired.data != configMaps[app.key].data {
        configMaps := configMaps[app.key := desired];
        writes := writes + [Updated(ConfigMapKind, app.key)];
      }
      return None;
    }

    /** ensureService: the diff-and-copy update with its needsUpdate flag. */
    method EnsureService(app: Application, internalPort: int) returns (err: Option<Error>)
      modifies this`services, this`writes
      ensures Outcome(State(), err) == SyncService(old(State()), app.Record(), internalPort)
    {
      if ServiceKind in unreadable {
        return Some(ReadFailed(KindName(ServiceKind)));
      }
      var desired := Service(
        ObjectMeta(LabelsOf(app.labels), map[], None),
        ServiceSpec("ClusterIP", [ServicePort("http", ExternalPort, ToInt32(internalPort))], map[AppLabel := app.key.name], ""));
      if app.key !in services {
        services := services[app.key := desired];
        writes := writes + [Created(ServiceKind, app.key)];
        return None;
      }

      var existing := services[app.key];
      var needsUpdate := false;
      if existing.spec.ports != desired.spec.ports {
        existing := existing.(spec := existing.spec.(ports := desired.spec.ports));
        needsUpdate := true;
      }
      if existing.spec.selector != desired.spec.selector {
        existing := existing.(spec := existing.spec.(selector := desired.spec.selector));
        needsUpdate := true;
      }
      if existing.spec.serviceType != desired.spec.serviceType {
        existing := existing.(spec := existing.spec.(serviceType := desired.spec.serviceType));
        needsUpdate := true;
      }
      if needsUpdate {
        services := services[app.key := existing];
        writes := writes + [Updated(ServiceKind, app.key)];
      }
      return None;
    }

    /** ensureDeployment: CreateOrUpdate with the closure that builds the Deployment (updating
        the app's label map in place) and claims Labels, Spec and the owner link. */
    method EnsureDeployment(app: Application) returns (err: Option<Error>)
      modifies this`deployments, this`writes, app`labels
      ensures Outcome(State(), err) == SyncDeployment(old(State()), old(app.Record()))
      ensures app.labels == if DeploymentKind in unreadable then old(app.labels) else WithAppLabel(old(app.labels), app.key.name)
    {
      if DeploymentKind in unreadable {
        return Some(ReadFailed(KindName(DeploymentKind)));
      }
      var found := app.key in deployments;
      var deploy := if found then deployments[app.key] else NewDeployment;
      var before := deploy;

      var desired := CreateDeploymentObject(app);
      if desired.Failure? {
        return Some(desired.error);
      }
      deploy := deploy.(meta := deploy.meta.(labels := desired.value.meta.labels), spec := desired.value.spec);
      deploy := deploy.(meta := deploy.meta.(owner := Some(OwnerRefFor(app.key.name, app.uid))));

      if !found {
        deployments := deployments[app.key := deploy];
        writes := writes + [Created(DeploymentKind, app.key)];
      } else if deploy != before {
        deployments := deployments[app.key := deploy];
        writes := writes + [Updated(DeploymentKind, app.key)];
      }
      return None;
    }

    /** ensureAutoscaler: CreateOrUpdate with the closure that sets the app's labels, builds the
        spec (merging the app's custom behaviour in place) and claims the owner link. */
    method EnsureAutoscaler(app: Application) returns (err: Option<Error>)
      modifies this`autoscalers, this`writes, app.behaviour
      ensures Outcome(State(), err) == SyncAutoscaler(old(State()), old(app.Record()))
      ensures app.behaviour != null && AutoscalerKind !in unreadable && AutoscalerSpecFor(old(app.Record())).Success? ==>
        Some(app.behaviour.Value()) == AutoscalerSpecFor(old(app.Record())).value.behavior
      ensures app.behaviour != null && (AutoscalerKind in unreadable || AutoscalerSpecFor(old(app.Record())).Failure?) ==>
        app.behaviour.Value() == old(app.behaviour.Value())
    {
      if AutoscalerKind in unreadable {
        return Some(ReadFailed(KindName(AutoscalerKind)));
      }
      var found := app.key in autoscalers;
      var hpa := if found then autoscalers[app.key] else NewAutoscaler;
      var before := hpa;

      hpa := hpa.(meta := hpa.meta.(labels := LabelsOf(app.labels)));
      var spec := CreateAutoscalerSpec(app);
      if spec.Failure? {
        return Some(spec.error);
      }
      hpa := hpa.(spec := spec.value);
      hpa := hpa.(meta := hpa.meta.(owner := Some(OwnerRefFor(app.key.name, app.uid))));

      if !found {
        autoscalers := autoscalers[app.key := hpa];
        writes := writes + [Created(AutoscalerKind, app.key)];
      } else if hpa != before {
        autoscalers := autoscalers[app.key := hpa];
        writes := writes + [Updated(AutoscalerKind, app.key)];
      }
      return None;
    }

    /** Reconcile on a fresh copy of the stored app, discarding every step's error. */
    method Reconcile(key: Key, codec: Codec) returns (err: Option<Error>)
      modifies this`configMaps, this`services, this`deployments, this`writes
      ensures Outcome(State(), err) == ReconcileModel(old(State()), key, codec)
    {
      if AppKind in unreadable {
        return Some(ReadFailed(KindName(AppKind)));
      }
      if key !in apps {
        return None;
      }
      ghost var s0 := State();
      var app := new Application(apps[key]);
      ghost var record := app.Record();

      var appConfig, internalPort, mergeErr := MergeConfigWithDefaultPort(app.spec.config, codec);
      var configMapErr := EnsureConfigMap(app, appConfig);
      ghost var s1 := State();
      assert s1 == SyncConfigMap(s0, record, appConfig).store;
      var serviceErr := EnsureService(app, internalPort);
      ghost var s2 := State();
      assert s2 == SyncService(s1, record, internalPort).store;
      var deploymentErr := EnsureDeployment(app);
      assert State() == SyncDeployment(s2, record).store;
      return None;
    }
  }
}
