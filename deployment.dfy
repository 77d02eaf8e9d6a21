/** The Deployment builder of springbootapplication_deployment.go (createDeploymentObject):
    one hardened container built from the spec, the config volume and its mount, the app
    label, and the in-place update of the application's own label map. */
module DeploymentBuilder {
  import opened Wrappers
  import opened Api
  import opened Objects
  import opened Resources

  const AppLabel := "app"
  const ContainerName := "app"
  const PortName := "http"
  const ConfigVolume := "config"
  const ConfigMountPath := "/config"

  /** The two environment variables every container gets, in this order. */
  const FixedEnv: seq<EnvVar> := [
    EnvVar("SPRING_CONFIG_ADDITIONAL_LOCATION", ConfigMountPath),
    EnvVar("JAVA_TOOL_OPTIONS", "-XX:MaxRAMPercentage=70")
  ]

  /** The app's label map after `labels["app"] = app.Name`: a nil map is left nil, any other
      map gains (or has overwritten) the `app` entry and keeps every other entry. */
  function WithAppLabel(labels: Option<Labels>, name: string): (r: Option<Labels>)
    ensures r.Some? <==> labels.Some?
    ensures r.Some? ==> r.value.Keys == labels.value.Keys + {AppLabel} && r.value[AppLabel] == name
    ensures r.Some? ==> forall k :: k in labels.value && k != AppLabel ==> r.value[k] == labels.value[k]
  {
    if labels.None? then None else Some(labels.value[AppLabel := name])
  }

  /** Every label the selector asks for is on the pod template, so the Deployment owns its pods. */
  predicate SelectorMatches(selector: Labels, podLabels: Labels) {
    forall k :: k in selector ==> k in podLabels && podLabels[k] == selector[k]
  }

  /** Every volume mount names a volume of the pod. */
  predicate MountsResolve(pod: PodSpec) {
    forall c, m :: c in pod.containers && m in c.volumeMounts ==> exists v :: v in pod.volumes && v.name == m.name
  }

  /** The security settings the operator imposes whatever the spec says. */
  predicate Hardened(pod: PodSpec) {
    && pod.securityContext == Some(PodSecurityContext(Some(true), Some("RuntimeDefault")))
    && forall c :: c in pod.containers ==>
         c.securityContext == Some(SecurityContext(Some(false), Some(true), ["ALL"]))
  }

  /** The Deployment createDeploymentObject returns for an application as stored, before its
      label map is touched. */
  function DeploymentFor(app: AppRecord): (r: Result<Deployment, Error>)
    ensures r.Failure? <==> CreateResources(app.spec).Failure?
    ensures r.Failure? ==> r.error == CreateResources(app.spec).error
    ensures r.Success? ==>
      var d := r.value;
      && d.meta.labels == LabelsOf(WithAppLabel(app.labels, app.key.name))
      && d.meta.owner == Some(ControllerRef(app))
      && d.spec.replicas.None?
      && d.spec.selector == map[AppLabel := app.key.name]
      && d.spec.template.labels == LabelsOf(app.labels)[AppLabel := app.key.name]
      && SelectorMatches(d.spec.selector, d.spec.template.labels)
      && Hardened(d.spec.template.spec)
      && MountsResolve(d.spec.template.spec)
      && d.spec.template.spec.volumes == [Volume(ConfigVolume, Some(app.key.name))]
      && |d.spec.template.spec.containers| == 1
    ensures r.Success? ==>
      var c := r.value.spec.template.spec.containers[0];
      && c.name == ContainerName
      && c.image == app.spec.image
      && c.ports == [ContainerPort(PortName, ToInt32(app.spec.port))]
      && c.resources == CreateResources(app.spec).value
      && c.env == FixedEnv
      && c.volumeMounts == [VolumeMount(ConfigVolume, ConfigMountPath)]
  {
    match CreateResources(app.spec)
    case Failure(e) => Failure(e)
    case Success(resources) =>
      var container := Container(
        ContainerName, app.spec.image, [ContainerPort(PortName, ToInt32(app.spec.port))], resources,
        Some(SecurityContext(Some(false), Some(true), ["ALL"])), FixedEnv,
        [VolumeMount(ConfigVolume, ConfigMountPath)]);
      var volume := Volume(ConfigVolume, Some(app.key.name));
      assert container in [container] && volume in [volume];
      var pod := PodSpec(Some(PodSecurityContext(Some(true), Some("RuntimeDefault"))), [container], [volume]);
      Success(Deployment(
        ObjectMeta(LabelsOf(WithAppLabel(app.labels, app.key.name)), map[], Some(ControllerRef(app))),
        DeploymentSpec(None, map[AppLabel := app.key.name], PodTemplate(LabelsOf(app.labels)[AppLabel := app.key.name], pod)),
        0))
  }

  /** createDeploymentObject. The app's label map is updated in place before the resources
      are resolved, so it gains the `app` label even when the build then fails; the returned
      Deployment's own labels are that same (updated) map. */
  method CreateDeploymentObject(app: Application) returns (r: Result<Deployment, Error>)
    modifies app`labels
    ensures app.labels == WithAppLabel(old(app.labels), app.key.name)
    ensures r == DeploymentFor(old(app.Record()))
  {
    var templateLabels: Labels;
    if app.labels.None? {
      templateLabels := map[AppLabel := app.key.name];
    } else {
      app.labels := Some(app.labels.value[AppLabel := app.key.name]);
      templateLabels := app.labels.value;
    }

    var resources := CreateResources(app.spec);
    if resources.Failure? {
      return Failure(resources.error);
    }

    var container := Container(
      ContainerName, app.spec.image, [ContainerPort(PortName, ToInt32(app.spec.port))], resources.value,
      Some(SecurityContext(Some(false), Some(true), ["ALL"])), FixedEnv,
      [VolumeMount(ConfigVolume, ConfigMountPath)]);
    var pod := PodSpec(
      Some(PodSecurityContext(Some(true), Some("RuntimeDefault"))),
      [container],
      [Volume(ConfigVolume, Some(app.key.name))]);
    var dep := Deployment(
      ObjectMeta(LabelsOf(app.labels), map[], None),
      DeploymentSpec(None, map[AppLabel := app.key.name], PodTemplate(templateLabels, pod)),
      0);
    // SetControllerReference
    dep := dep.(meta := dep.meta.(owner := Some(OwnerRefFor(app.key.name, app.uid))));
    return Success(dep);
  }

  /** The Deployment does not depend on the framework type, the raw config, the autoscaler
      settings or the custom behaviour. */
  lemma DeploymentIgnoresScalingAndConfig(app: AppRecord, framework: string, config: Option<Bytes>,
                                          autoscaler: AutoscalingConfig, behaviour: Option<Behavior>)
    ensures DeploymentFor(app.(spec := app.spec.(framework := framework, config := config, autoscaler := autoscaler),
                               behaviour := behaviour))
         == DeploymentFor(app)
  {
  }
}
