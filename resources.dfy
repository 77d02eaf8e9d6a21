/** The resource-requirement resolver of springbootapplication_deployment.go: a closed preset
    table, or an explicit cpu/memory pair, turned into requests and limits under one fixed
    policy (CPU is requested only, memory is requested and limited to the same amount). */
module Resources {
  import opened Wrappers
  import opened Api
  import opened Objects

  /** The policy every resolved requirement follows. */
  predicate SpringPolicy(r: ResourceRequirements, cpu: Quantity, memory: Quantity) {
    && r.requests.Keys == {Cpu, Memory}
    && r.requests[Cpu] == cpu
    && r.requests[Memory] == memory
    && r.limits.Keys == {Memory}
    && r.limits[Memory] == r.requests[Memory]
  }

  function CreateSpringResourceRequirements(cpu: Quantity, memory: Quantity): (r: ResourceRequirements)
    ensures SpringPolicy(r, cpu, memory)
    ensures Cpu !in r.limits
  {
    ResourceRequirements(map[Cpu := cpu, Memory := memory], map[Memory := memory])
  }

  /** The preset table, as (cpu, memory) quantity strings; None outside the closed set. */
  function PresetQuantities(preset: string): Option<(string, string)> {
    if preset == Small then Some(("1", "1Gi"))
    else if preset == Medium then Some(("2", "2Gi"))
    else if preset == Large then Some(("4", "4Gi"))
    else None
  }

  /** createResources. A set preset wins over explicit resources; without one, cpu is
      parsed before memory and the first failure is returned. */
  function CreateResources(spec: AppSpec): (r: Result<ResourceRequirements, Error>)
    ensures spec.resourcePreset.Some? ==>
      match PresetQuantities(spec.resourcePreset.value)
      case Some(q) => r == Success(CreateSpringResourceRequirements(Quantity(q.0), Quantity(q.1)))
      case None => r == Failure(UnrecognizedPreset(spec.resourcePreset.value))
    ensures spec.resourcePreset.None? && spec.resources.None? ==> r == Failure(MissingResources)
    ensures spec.resourcePreset.None? && spec.resources.Some? ==>
      var cpu, memory := ParseQuantity(spec.resources.value.cpu), ParseQuantity(spec.resources.value.memory);
      && (cpu.Failure? ==> r == Failure(cpu.error))
      && (cpu.Success? && memory.Failure? ==> r == Failure(memory.error))
      && (cpu.Success? && memory.Success? ==> r.Success? && SpringPolicy(r.value, cpu.value, memory.value))
    ensures r.Success? ==> SpringPolicy(r.value, r.value.requests[Cpu], r.value.requests[Memory])
  {
    if spec.resourcePreset.None? then
      if spec.resources.None? then
        Failure(MissingResources)
      else
        match ParseQuantity(spec.resources.value.cpu)
        case Failure(e) => Failure(e)
        case Success(cpu) =>
          match ParseQuantity(spec.resources.value.memory)
          case Failure(e) => Failure(e)
          case Success(memory) => Success(CreateSpringResourceRequirements(cpu, memory))
    else
      var preset := spec.resourcePreset.value;
      if preset == Small then
        Success(CreateSpringResourceRequirements(Quantity("1"), Quantity("1Gi")))
      else if preset == Medium then
        Success(CreateSpringResourceRequirements(Quantity("2"), Quantity("2Gi")))
      else if preset == Large then
        Success(CreateSpringResourceRequirements(Quantity("4"), Quantity("4Gi")))
      else
        Failure(UnrecognizedPreset(preset))
  }

  /** The literals the preset table hands to resource.MustParse are well formed, so
      MustParse never panics there and yields the same quantity ParseQuantity would. */
  lemma {:induction false} PresetLiteralsParse(preset: string)
    requires PresetQuantities(preset).Some?
    ensures ParseQuantity(PresetQuantities(preset).value.0) == Success(Quantity(PresetQuantities(preset).value.0))
    ensures ParseQuantity(PresetQuantities(preset).value.1) == Success(Quantity(PresetQuantities(preset).value.1))
  {
    var q := PresetQuantities(preset).value;
    assert LeadingDigits(q.0[1..]) == 0;
    assert LeadingDigits(q.1[1..]) == 0;
  }

  /** The three presets, with the values the tests assert. */
  lemma PresetTable(spec: AppSpec)
    ensures spec.resourcePreset == Some(Small) ==>
      CreateResources(spec) == Success(ResourceRequirements(map[Cpu := Quantity("1"), Memory := Quantity("1Gi")], map[Memory := Quantity("1Gi")]))
    ensures spec.resourcePreset == Some(Medium) ==>
      CreateResources(spec) == Success(ResourceRequirements(map[Cpu := Quantity("2"), Memory := Quantity("2Gi")], map[Memory := Quantity("2Gi")]))
    ensures spec.resourcePreset == Some(Large) ==>
      CreateResources(spec) == Success(ResourceRequirements(map[Cpu := Quantity("4"), Memory := Quantity("4Gi")], map[Memory := Quantity("4Gi")]))
  {
  }

  /** A set preset makes the explicit resources irrelevant. */
  lemma PresetIgnoresResources(spec: AppSpec, other: Option<ResourceDefinition>)
    requires spec.resourcePreset.Some?
    ensures CreateResources(spec.(resources := other)) == CreateResources(spec)
  {
  }

  /** Explicit quantities are used as given: cpu "2" and memory "8Gi" become those requests
      and a memory-only limit of "8Gi". */
  lemma {:induction false} ExplicitResourcesUsedAsGiven(spec: AppSpec)
    requires spec.resourcePreset.None? && spec.resources == Some(ResourceDefinition("2", "8Gi"))
    ensures CreateResources(spec) == Success(ResourceRequirements(
      map[Cpu := Quantity("2"), Memory := Quantity("8Gi")], map[Memory := Quantity("8Gi")]))
  {
    assert LeadingDigits("8Gi"[1..]) == 0;
    assert LeadingDigits("2"[1..]) == 0;
  }
}
