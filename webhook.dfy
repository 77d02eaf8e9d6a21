/** The defaulting admission webhook of springbootapplication_webhook.go: after it, exactly
    one of ResourcePreset and Resources is set, explicit resources winning over a preset. */
module Webhook {
  import opened Wrappers
  import opened Api
  import opened Objects
  import opened Resources

  /** What the webhook is handed: a SpringBootApplication, or an object of some other kind. */
  datatype RuntimeObject = AppObject(app: Application) | OtherObject(kind: string)

  /** The spec after defaulting. */
  function Defaulted(spec: AppSpec): (r: AppSpec)
    ensures spec.resources.Some? ==> r.resourcePreset.None?
    ensures spec.resources.None? && spec.resourcePreset.None? ==> r.resourcePreset == Some(Small)
    ensures spec.resources.None? && spec.resourcePreset.Some? ==> r.resourcePreset == spec.resourcePreset
    ensures r.resources.Some? != r.resourcePreset.Some?
    ensures r == spec.(resourcePreset := r.resourcePreset)
  {
    if spec.resources.Some? then spec.(resourcePreset := None)
    else if spec.resourcePreset.None? then spec.(resourcePreset := Some(Small))
    else spec
  }

  /** SpringBootApplicationResourceDefaulter.Default: rejects other kinds untouched, and
      otherwise rewrites only the preset of the object it was given. */
  method Default(obj: RuntimeObject) returns (err: Option<Error>)
    modifies if obj.AppObject? then {obj.app} else {}
    ensures obj.OtherObject? ==> err == Some(NotAnApplication(obj.kind))
    ensures obj.AppObject? ==> err.None? && obj.app.spec == Defaulted(old(obj.app.spec))
    ensures obj.AppObject? ==> obj.app.labels == old(obj.app.labels)
  {
    if obj.OtherObject? {
      return Some(NotAnApplication(obj.kind));
    }
    var app := obj.app;
    if app.spec.resources.Some? {
      app.spec := app.spec.(resourcePreset := None);
    } else if app.spec.resourcePreset.None? {
      app.spec := app.spec.(resourcePreset := Some(Small));
    }
    return None;
  }

  /** Defaulting twice is defaulting once. */
  lemma DefaultIdempotent(spec: AppSpec)
    ensures Defaulted(Defaulted(spec)) == Defaulted(spec)
  {
  }

  /** After defaulting the resolver never reports missing resources: a spec with explicit
      resources resolves from them, and a spec with neither resolves to the small preset. */
  lemma DefaultedSpecResolves(spec: AppSpec)
    ensures CreateResources(Defaulted(spec)) != Failure(MissingResources)
    ensures spec.resources.Some? ==>
      CreateResources(Defaulted(spec)) == CreateResources(spec.(resourcePreset := None))
    ensures spec.resources.None? && spec.resourcePreset.None? ==>
      CreateResources(Defaulted(spec)) == Success(CreateSpringResourceRequirements(Quantity("1"), Quantity("1Gi")))
  {
  }
}
