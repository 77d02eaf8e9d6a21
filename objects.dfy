/** The Kubernetes child objects the operator writes, reduced to the fields the core sets or
    compares, plus one field of each kind that the core never claims (annotations, status,
    clusterIP) so that "everything else is preserved" can be stated. */
module Objects {
  import opened Wrappers
  import opened Api

  /** The controller owner link that SetControllerReference stamps on a child. */
  datatype OwnerRef = OwnerRef(
    apiVersion: string, kind: string, name: string, uid: string,
    controller: bool, blockOwnerDeletion: bool)

  /** ObjectMeta without name and namespace, which are the store key. A nil label map and an
      empty one are the same object to the store and to semantic equality, so labels are a
      plain map here. */
  datatype ObjectMeta = ObjectMeta(labels: Labels, annotations: Labels, owner: Option<OwnerRef>)

  datatype ResourceName = Cpu | Memory

  datatype ResourceRequirements = ResourceRequirements(
    requests: map<ResourceName, Quantity>,
    limits: map<ResourceName, Quantity>)

  // ConfigMap

  datatype ConfigMap = ConfigMap(meta: ObjectMeta, data: map<string, string>)

  // Service

  datatype ServicePort = ServicePort(name: string, port: int, targetPort: int)

  datatype ServiceSpec = ServiceSpec(serviceType: string, ports: seq<ServicePort>, selector: Labels, clusterIP: string)

  datatype Service = Service(meta: ObjectMeta, spec: ServiceSpec)

  // Deployment

  datatype ContainerPort = ContainerPort(name: string, containerPort: int)

  datatype EnvVar = EnvVar(name: string, value: string)

  datatype VolumeMount = VolumeMount(name: string, mountPath: string)

  datatype SecurityContext = SecurityContext(
    allowPrivilegeEscalation: Option<bool>,
    readOnlyRootFilesystem: Option<bool>,
    dropCapabilities: seq<string>)

  datatype PodSecurityContext = PodSecurityContext(runAsNonRoot: Option<bool>, seccompProfileType: Option<string>)

  datatype Container = Container(
    name: string,
    image: string,
    ports: seq<ContainerPort>,
    resources: ResourceRequirements,
    securityContext: Option<SecurityContext>,
    env: seq<EnvVar>,
    volumeMounts: seq<VolumeMount>)

  /** A volume; `configMap` is the name of the ConfigMap it projects, if any. */
  datatype Volume = Volume(name: string, configMap: Option<string>)

  datatype PodSpec = PodSpec(securityContext: Option<PodSecurityContext>, containers: seq<Container>, volumes: seq<Volume>)

  datatype PodTemplate = PodTemplate(labels: Labels, spec: PodSpec)

  datatype DeploymentSpec = DeploymentSpec(replicas: Option<int>, selector: Labels, template: PodTemplate)

  datatype Deployment = Deployment(meta: ObjectMeta, spec: DeploymentSpec, readyReplicas: nat)

  // HorizontalPodAutoscaler

  datatype CrossVersionObjectReference = CrossVersionObjectReference(kind: string, apiVersion: string, name: string)

  datatype MetricTarget = MetricTarget(targetType: string, averageUtilization: Option<int>)

  /** A MetricSpec of type Resource, with its ResourceMetricSource inlined. */
  datatype MetricSpec = MetricSpec(metricType: string, resourceName: ResourceName, target: MetricTarget)

  datatype HpaSpec = HpaSpec(
    scaleTargetRef: CrossVersionObjectReference,
    minReplicas: Option<int>,
    maxReplicas: int,
    metrics: seq<MetricSpec>,
    behavior: Option<Behavior>)

  datatype HorizontalPodAutoscaler = HorizontalPodAutoscaler(meta: ObjectMeta, spec: HpaSpec, currentReplicas: nat)

  /** The link SetControllerReference builds for a SpringBootApplication. */
  function ControllerRef(app: AppRecord): OwnerRef {
    OwnerRefFor(app.key.name, app.uid)
  }

  function OwnerRefFor(name: string, uid: string): OwnerRef {
    OwnerRef("spring.dante-lor.github.io/v1alpha1", "SpringBootApplication", name, uid, true, true)
  }

  /** The empty label map a nil Go map stands for. */
  function LabelsOf(l: Option<Labels>): Labels {
    if l.Some? then l.value else map[]
  }
}
