/** The HorizontalPodAutoscaler spec builder of springbootapplication_hpa.go: scale target,
    replica bounds, the CPU utilisation target, and the per-framework default scaling
    behaviour merged block by block with the user's custom behaviour. */
module Autoscaling {
  import opened Wrappers
  import opened Api
  import opened Objects

  const KnownFrameworks: set<string> := {SpringWeb, SpringWebflux, SpringNative}
  const PercentPolicy := "Percent"

  /** A default profile: scale-up has a stabilization window and exactly one Percent
      policy; scale-down has a stabilization window and no policies. */
  predicate DefaultShape(b: Behavior) {
    && b.scaleUp.Some?
    && b.scaleUp.value.stabilizationWindowSeconds.Some?
    && |b.scaleUp.value.policies| == 1
    && b.scaleUp.value.policies[0].policyType == PercentPolicy
    && b.scaleDown.Some?
    && b.scaleDown.value.stabilizationWindowSeconds.Some?
    && b.scaleDown.value.policies == []
  }

  /** createBehaviour: every argument is cast to int32 on the way in. */
  function CreateBehaviour(scaleUpStabilization: int, scaleUpPercentage: int, scaleUpPeriodSeconds: int,
                           scaleDownStabilization: int): (b: Behavior)
    ensures DefaultShape(b)
    ensures b.scaleUp.value.stabilizationWindowSeconds == Some(ToInt32(scaleUpStabilization))
    ensures b.scaleUp.value.policies[0].value == ToInt32(scaleUpPercentage)
    ensures b.scaleUp.value.policies[0].periodSeconds == ToInt32(scaleUpPeriodSeconds)
    ensures b.scaleDown.value.stabilizationWindowSeconds == Some(ToInt32(scaleDownStabilization))
  {
    Behavior(
      Some(ScalingRules(Some(ToInt32(scaleUpStabilization)),
                        [ScalingPolicy(PercentPolicy, ToInt32(scaleUpPercentage), ToInt32(scaleUpPeriodSeconds))])),
      Some(ScalingRules(Some(ToInt32(scaleDownStabilization)), [])))
  }

  /** getDefaultBehaviour: one profile per known framework, an error for any other type. */
  function DefaultBehaviour(framework: string): (r: Result<Behavior, Error>)
    ensures r.Success? <==> framework in KnownFrameworks
    ensures r.Success? ==> DefaultShape(r.value)
    ensures r.Failure? ==> r.error == UnhandledFramework(framework)
  {
    if framework == SpringWeb then Success(CreateBehaviour(30, 50, 60, 300))
    else if framework == SpringWebflux then Success(CreateBehaviour(20, 75, 60, 240))
    else if framework == SpringNative then Success(CreateBehaviour(10, 100, 30, 120))
    else Failure(UnhandledFramework(framework))
  }

  /** The default CPU utilisation target of createAutoscalerSpec's switch. */
  function DefaultCpuTarget(framework: string): (r: Option<int>)
    ensures r.Some? <==> framework in KnownFrameworks
    ensures r.Some? ==> 0 < r.value <= 100
  {
    if framework == SpringWeb then Some(70)
    else if framework == SpringWebflux then Some(75)
    else if framework == SpringNative then Some(65)
    else None
  }

  /** The default tables, value by value. */
  lemma DefaultTables()
    ensures DefaultCpuTarget(SpringWeb) == Some(70)
    ensures DefaultCpuTarget(SpringWebflux) == Some(75)
    ensures DefaultCpuTarget(SpringNative) == Some(65)
    ensures DefaultBehaviour(SpringWeb) == Success(Behavior(
      Some(ScalingRules(Some(30), [ScalingPolicy(PercentPolicy, 50, 60)])), Some(ScalingRules(Some(300), []))))
    ensures DefaultBehaviour(SpringWebflux) == Success(Behavior(
      Some(ScalingRules(Some(20), [ScalingPolicy(PercentPolicy, 75, 60)])), Some(ScalingRules(Some(240), []))))
    ensures DefaultBehaviour(SpringNative) == Success(Behavior(
      Some(ScalingRules(Some(10), [ScalingPolicy(PercentPolicy, 100, 30)])), Some(ScalingRules(Some(120), []))))
  {
  }

  /** The value mergeBehaviours leaves in the custom object: each block is the custom one
      when set, and otherwise the default one, taken whole. */
  function MergeBlocks(custom: Behavior, defaults: Behavior): (r: Behavior)
    ensures custom.scaleUp.Some? ==> r.scaleUp == custom.scaleUp
    ensures custom.scaleUp.None? ==> r.scaleUp == defaults.scaleUp
    ensures custom.scaleDown.Some? ==> r.scaleDown == custom.scaleDown
    ensures custom.scaleDown.None? ==> r.scaleDown == defaults.scaleDown
  {
    Behavior(
      if custom.scaleUp.None? then defaults.scaleUp else custom.scaleUp,
      if custom.scaleDown.None? then defaults.scaleDown else custom.scaleDown)
  }

  /** Merging is idempotent, and an empty custom behaviour merges to the default. */
  lemma MergeIdempotent(custom: Behavior, defaults: Behavior)
    ensures MergeBlocks(MergeBlocks(custom, defaults), defaults) == MergeBlocks(custom, defaults)
    ensures MergeBlocks(Behavior(None, None), defaults) == defaults
  {
  }

  /** Blocks are never mixed: each block of the result is a whole block of one input, and a
      custom scale-up alone leaves scale-down exactly the default (and vice versa). */
  lemma MergeIsBlockGranular(custom: Behavior, defaults: Behavior)
    ensures MergeBlocks(custom, defaults).scaleUp in {custom.scaleUp, defaults.scaleUp}
    ensures MergeBlocks(custom, defaults).scaleDown in {custom.scaleDown, defaults.scaleDown}
    ensures custom.scaleDown.None? ==> MergeBlocks(custom, defaults).scaleDown == defaults.scaleDown
    ensures custom.scaleUp.None? ==> MergeBlocks(custom, defaults).scaleUp == defaults.scaleUp
  {
  }

  /** mergeBehaviours: fills the nil blocks of the caller's custom object in place and hands
      back that same object. */
  method MergeBehaviours(custom: ScalingBehaviour, defaults: Behavior) returns (r: ScalingBehaviour)
    modifies custom
    ensures r == custom
    ensures custom.Value() == MergeBlocks(old(custom.Value()), defaults)
  {
    if custom.scaleUp.None? {
      custom.scaleUp := defaults.scaleUp;
    }
    if custom.scaleDown.None? {
      custom.scaleDown := defaults.scaleDown;
    }
    return custom;
  }

  /** The spec createAutoscalerSpec returns for an application as stored. The default
      behaviour is looked up even when an explicit CPU percentage is given, so an unknown
      type is an error either way. */
  function AutoscalerSpecFor(app: AppRecord): (r: Result<HpaSpec, Error>)
    ensures r.Success? <==> app.spec.framework in KnownFrameworks
    ensures r.Failure? ==>
      r.error == (if app.spec.autoscaler.cpuPercentage.None? then UnrecognizedType(app.spec.framework)
                  else UnhandledFramework(app.spec.framework))
    ensures r.Success? ==>
      && r.value.scaleTargetRef == CrossVersionObjectReference("Deployment", "apps/v1", app.key.name)
      && r.value.minReplicas == Some(ToInt32(app.spec.autoscaler.minReplicas))
      && r.value.maxReplicas == ToInt32(app.spec.autoscaler.maxReplicas)
      && r.value.metrics == [MetricSpec("Resource", Cpu, MetricTarget("Utilization",
           if app.spec.autoscaler.cpuPercentage.Some? then app.spec.autoscaler.cpuPercentage
           else DefaultCpuTarget(app.spec.framework)))]
    ensures r.Success? ==>
      var defaults := DefaultBehaviour(app.spec.framework).value;
      r.value.behavior == Some(if app.behaviour.None? then defaults else MergeBlocks(app.behaviour.value, defaults))
  {
    var config := app.spec.autoscaler;
    var target := if config.cpuPercentage.Some? then config.cpuPercentage else DefaultCpuTarget(app.spec.framework);
    if target.None? then
      Failure(UnrecognizedType(app.spec.framework))
    else
      match DefaultBehaviour(app.spec.framework)
      case Failure(e) => Failure(e)
      case Success(defaults) =>
        Success(HpaSpec(
          CrossVersionObjectReference("Deployment", "apps/v1", app.key.name),
          Some(ToInt32(config.minReplicas)),
          ToInt32(config.maxReplicas),
          [MetricSpec("Resource", Cpu, MetricTarget("Utilization", target))],
          Some(if app.behaviour.None? then defaults else MergeBlocks(app.behaviour.value, defaults))))
  }

  /** createAutoscalerSpec. On success with a custom behaviour, that object (reached through
      the app's spec) has been merged in place, so the app now carries the HPA's behaviour. */
  method CreateAutoscalerSpec(app: Application) returns (r: Result<HpaSpec, Error>)
    modifies app.behaviour
    ensures r == AutoscalerSpecFor(old(app.Record()))
    ensures app.behaviour != null && r.Success? ==> Some(app.behaviour.Value()) == r.value.behavior
    ensures app.behaviour != null && r.Failure? ==> app.behaviour.Value() == old(app.behaviour.Value())
  {
    var config := app.spec.autoscaler;
    var spec := HpaSpec(CrossVersionObjectReference("", "", ""), None, 0, [], None);

    spec := spec.(scaleTargetRef := CrossVersionObjectReference("Deployment", "apps/v1", app.key.name));
    spec := spec.(minReplicas := Some(ToInt32(config.minReplicas)), maxReplicas := ToInt32(config.maxReplicas));

    var averageTargetPercent := config.cpuPercentage;
    if averageTargetPercent.None? {
      if app.spec.framework == SpringWeb {
        averageTargetPercent := Some(70);
      } else if app.spec.framework == SpringWebflux {
        averageTargetPercent := Some(75);
      } else if app.spec.framework == SpringNative {
        averageTargetPercent := Some(65);
      } else {
        return Failure(UnrecognizedType(app.spec.framework));
      }
    }
    spec := spec.(metrics := [MetricSpec("Resource", Cpu, MetricTarget("Utilization", averageTargetPercent))]);

    var defaultBehaviour := DefaultBehaviour(app.spec.framework);
    if defaultBehaviour.Failure? {
      return Failure(defaultBehaviour.error);
    }

    if app.behaviour == null {
      spec := spec.(behavior := Some(defaultBehaviour.value));
    } else {
      var merged := MergeBehaviours(app.behaviour, defaultBehaviour.value);
      spec := spec.(behavior := Some(merged.Value()));
    }
    return Success(spec);
  }

  /** A web application with replicas 1..5 and no explicit target scales its Deployment
      between 1 and 5 replicas at 70% CPU, with the web default behaviour. */
  lemma WebAutoscalerDefaults(app: AppRecord)
    requires app.spec.framework == SpringWeb && app.spec.autoscaler == AutoscalingConfig(1, 5, None)
    requires app.behaviour.None?
    ensures AutoscalerSpecFor(app) == Success(HpaSpec(
      CrossVersionObjectReference("Deployment", "apps/v1", app.key.name), Some(1), 5,
      [MetricSpec("Resource", Cpu, MetricTarget("Utilization", Some(70)))],
      Some(CreateBehaviour(30, 50, 60, 300))))
  {
  }

  /** A custom scale-up block alone keeps the web default scale-down (stabilization 300s). */
  lemma CustomScaleUpKeepsDefaultScaleDown(app: AppRecord, up: ScalingRules)
    requires app.spec.framework == SpringWeb && app.behaviour == Some(Behavior(Some(up), None))
    ensures AutoscalerSpecFor(app).Success?
    ensures AutoscalerSpecFor(app).value.behavior == Some(Behavior(Some(up), Some(ScalingRules(Some(300), []))))
  {
  }
}
