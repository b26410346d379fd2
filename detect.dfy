/**
 * The detect step of the buildpack (detect.go): it always passes, with a
 * build plan that requires php and php-fpm, then httpd and its config.
 */
module DetectPhase {
  import opened Wrappers

  /** Whether a requirement is needed while building, at launch, or both. */
  datatype BuildPlanMetadata = BuildPlanMetadata(launch: bool, build: bool)

  datatype BuildPlanRequirement = BuildPlanRequirement(name: string, metadata: BuildPlanMetadata)

  datatype BuildPlanProvision = BuildPlanProvision(name: string)

  /** A plan: its `Provides`, its `Requires`, and the alternative plans `Or`-ed to it. */
  datatype BuildPlan = BuildPlan(provisions: seq<BuildPlanProvision>, requirements: seq<BuildPlanRequirement>,
                                 alternatives: seq<BuildPlan>)

  datatype DetectResult = DetectResult(plan: BuildPlan)

  /** The fields of the detect context; detection reads none of them. */
  datatype DetectContext = DetectContext(workingDir: string, cnbPath: string)

  /** The requirements every plan starts with. */
  const BaseRequirements: seq<BuildPlanRequirement> :=
    [ BuildPlanRequirement("php", BuildPlanMetadata(launch := false, build := true)),
      BuildPlanRequirement("php-fpm", BuildPlanMetadata(launch := true, build := true)) ]

  /** The requirements of the httpd server. */
  const HttpdRequirements: seq<BuildPlanRequirement> :=
    [ BuildPlanRequirement("httpd", BuildPlanMetadata(launch := true, build := false)),
      BuildPlanRequirement("httpd-config", BuildPlanMetadata(launch := true, build := true)) ]

  /**
   * The returned DetectFunc: never an error, and, whatever the context, one
   * plan with no provisions and no alternatives whose requirements are, in
   * order, php {build}, php-fpm {build, launch}, httpd {launch} and
   * httpd-config {build, launch}.
   */
  function Detect(context: DetectContext): (r: Result<DetectResult, string>)
    ensures r.Success?
    ensures r.value.plan.provisions == [] && r.value.plan.alternatives == []
    ensures r.value.plan.requirements == [
              BuildPlanRequirement("php", BuildPlanMetadata(launch := false, build := true)),
              BuildPlanRequirement("php-fpm", BuildPlanMetadata(launch := true, build := true)),
              BuildPlanRequirement("httpd", BuildPlanMetadata(launch := true, build := false)),
              BuildPlanRequirement("httpd-config", BuildPlanMetadata(launch := true, build := true)) ]
    // the base requirements come first, the server's after them
    ensures r.value.plan.requirements[..|BaseRequirements|] == BaseRequirements
    ensures r.value.plan.requirements[|BaseRequirements|..] == HttpdRequirements
    // no name is required twice, and each requirement is needed at build or launch
    ensures forall i, j :: 0 <= i < j < |r.value.plan.requirements| ==>
              r.value.plan.requirements[i].name != r.value.plan.requirements[j].name
    ensures forall req :: req in r.value.plan.requirements ==> req.metadata.build || req.metadata.launch
  {
    var plan := BuildPlan([], HttpdRequirements, []);
    Success(DetectResult(plan.(requirements := BaseRequirements + plan.requirements)))
  }
}
