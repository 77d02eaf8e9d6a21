/** The SpringBootApplication resource as the controller reads it: its spec fields, the
    quantity strings it carries, and the in-memory object the controller and the admission
    webhook mutate. */
module Api {
  import opened Wrappers

  type Labels = map<string, string>
  type Bytes = seq<bv8>

  /** The values of the ResourcePreset string type. */
  const Small := "small"
  const Medium := "medium"
  const Large := "large"

  /** The values of the SpringFramework string type (the field `type` of the spec). */
  const SpringWeb := "web"
  const SpringWebflux := "webflux"
  const SpringNative := "native"

  /** Every error the core can return; Go builds these with fmt.Errorf. */
  datatype Error =
    | MissingResources                   // neither preset nor explicit resources
    | MalformedQuantity(input: string)   // resource.ParseQuantity rejected `input`
    | UnrecognizedPreset(preset: string)
    | UnrecognizedType(framework: string)    // no default CPU target for the type
    | UnhandledFramework(framework: string)  // no default scaling behaviour for the type
    | DecodeFailed                       // json.Unmarshal of the raw config failed
    | EncodeFailed                       // yaml.Marshal of the merged config failed
    | ReadFailed(kind: string)           // a Get other than NotFound failed
    | NotAnApplication(kind: string)     // the webhook was handed another kind of object

  /** Go's int32(x) conversion: keeps the low 32 bits, read as two's complement. */
  function ToInt32(x: int): (r: int)
    ensures -0x8000_0000 <= r < 0x8000_0000
    ensures -0x8000_0000 <= x < 0x8000_0000 ==> r == x
    ensures (x - r) % 0x1_0000_0000 == 0
  {
    (x + 0x8000_0000) % 0x1_0000_0000 - 0x8000_0000
  }

  /** A resource.Quantity, kept as the text it was parsed from. */
  datatype Quantity = Quantity(text: string)

  predicate IsDigit(c: char) {
    '0' <= c <= '9'
  }

  /** Length of the run of decimal digits at the start of `s`. */
  function LeadingDigits(s: string): (n: nat)
    ensures n <= |s|
    ensures forall i :: 0 <= i < n ==> IsDigit(s[i])
    ensures n < |s| ==> !IsDigit(s[n])
  {
    if |s| > 0 && IsDigit(s[0]) then 1 + LeadingDigits(s[1..]) else 0
  }

  /** The binary and decimal SI suffixes a quantity may end with. */
  const QuantitySuffixes: set<string> :=
    {"", "n", "u", "m", "k", "M", "G", "T", "P", "E", "Ki", "Mi", "Gi", "Ti", "Pi", "Ei"}

  /** resource.ParseQuantity: an unsigned integer followed by a suffix. */
  function ParseQuantity(s: string): (r: Result<Quantity, Error>)
    ensures r.Success? <==> 0 < LeadingDigits(s) && s[LeadingDigits(s)..] in QuantitySuffixes
    ensures r.Success? ==> r.value == Quantity(s)
    ensures r.Failure? ==> r.error == MalformedQuantity(s)
  {
    var n := LeadingDigits(s);
    if 0 < n && s[n..] in QuantitySuffixes then Success(Quantity(s)) else Failure(MalformedQuantity(s))
  }

  datatype ResourceDefinition = ResourceDefinition(cpu: string, memory: string)

  datatype ScalingPolicy = ScalingPolicy(policyType: string, value: int, periodSeconds: int)

  /** HPAScalingRules: one scale-up or scale-down block. */
  datatype ScalingRules = ScalingRules(stabilizationWindowSeconds: Option<int>, policies: seq<ScalingPolicy>)

  /** HorizontalPodAutoscalerBehavior as a value; None stands for a nil block pointer. */
  datatype Behavior = Behavior(scaleUp: Option<ScalingRules>, scaleDown: Option<ScalingRules>)

  /** The autoscaler section of the spec, without its behaviour pointer (see AppRecord). */
  datatype AutoscalingConfig = AutoscalingConfig(minReplicas: int, maxReplicas: int, cpuPercentage: Option<int>)

  /** The spec fields the builders read. */
  datatype AppSpec = AppSpec(
    framework: string,
    image: string,
    port: int,
    config: Option<Bytes>,
    resourcePreset: Option<string>,
    resources: Option<ResourceDefinition>,
    autoscaler: AutoscalingConfig)

  datatype Key = Key(namespace: string, name: string)

  /** A SpringBootApplication as the store holds it. `behaviour` is the spec's
      autoscaler.behaviour, kept beside the spec because the core mutates it through a pointer. */
  datatype AppRecord = AppRecord(
    key: Key,
    uid: string,
    labels: Option<Labels>,
    spec: AppSpec,
    behaviour: Option<Behavior>)

  /** The custom HorizontalPodAutoscalerBehavior object a spec points to. */
  class ScalingBehaviour {
    var scaleUp: Option<ScalingRules>
    var scaleDown: Option<ScalingRules>

    function Value(): Behavior
      reads this
    {
      Behavior(scaleUp, scaleDown)
    }

    constructor (b: Behavior)
      ensures Value() == b
    {
      scaleUp := b.scaleUp;
      scaleDown := b.scaleDown;
    }
  }

  /** An in-memory SpringBootApplication: a label map that may be nil and is shared with
      whoever reads it, a spec the webhook edits, and the custom behaviour pointer. */
  class Application {
    const key: Key
    const uid: string
    var labels: Option<Labels>
    var spec: AppSpec
    const behaviour: ScalingBehaviour?

    function Record(): AppRecord
      reads this, behaviour
    {
      AppRecord(key, uid, labels, spec, if behaviour == null then None else Some(behaviour.Value()))
    }

    /** The fresh copy a Get decodes from the store. */
    constructor (r: AppRecord)
      ensures Record() == r
      ensures behaviour != null ==> fresh(behaviour)
    {
      key := r.key;
      uid := r.uid;
      labels := r.labels;
      spec := r.spec;
      if r.behaviour.Some? {
        behaviour := new ScalingBehaviour(r.behaviour.value);
      } else {
        behaviour := null;
      }
    }
  }
}
