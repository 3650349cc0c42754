/**
 * The registry's lifecycle stages, the two stage comparators and the stage gate
 * (`assertStage`), together with the errors the registry throws.
 */
module Stages {
  import opened Wrappers

  /** `Stages`: the registry starts in Configuration and `init` moves it on. */
  datatype Stage = Configuration | PluginsInitialisation | Ready

  /** The string value each enum member carries. */
  function StageName(s: Stage): string
  {
    match s
    case Configuration => "Configuration"
    case PluginsInitialisation => "PluginsInitialisation"
    case Ready => "Ready"
  }

  /**
   * The comparators compare the enum's string values; because those strings
   * are pairwise distinct, that is the same as comparing the stages.
   */
  lemma StageNamesDistinct(a: Stage, b: Stage)
    ensures StageName(a) == StageName(b) <==> a == b
  {
    if a != b {
      assert StageName(a)[0] != StageName(b)[0];
    }
  }

  /** `STAGES_NOT_EQUAL_COMPARATOR`: the default comparator of `assertStage`. */
  function StagesNotEqual(a: Stage, b: Stage): (r: bool)
    ensures r <==> a != b
  {
    StageNamesDistinct(a, b);
    StageName(a) != StageName(b)
  }

  /** `STAGES_EQUAL_COMPARATOR`. */
  function StagesEqual(a: Stage, b: Stage): (r: bool)
    ensures r <==> a == b
  {
    StageNamesDistinct(a, b);
    StageName(a) == StageName(b)
  }

  /**
   * Everything the registry throws. Each error carries the values its message
   * interpolates; the message text itself is not modelled.
   */
  datatype RegistryError =
    | StageForbidden(methodName: string, stage: Stage)  // Executing "<method>" in "<stage>" stage is forbidden
    | NoExtensionPoint(name: string)                     // No extension point with name "<name>"
    | PluginAlreadyRegistered(name: string)              // Plugin with name "<name>" already registered
    | MissingDependency(name: string)                    // a `requires` name with no registered plugin

  /**
   * `assertStage`: throws when `comparator(current, stage)` holds. The error
   * names the method and the stage passed as argument, never the current one.
   */
  function AssertStage(current: Stage, stage: Stage, methodName: string,
                       comparator: (Stage, Stage) -> bool := StagesNotEqual): (r: Outcome<RegistryError>)
    ensures r.Fail? ==> r.error == StageForbidden(methodName, stage)
  {
    if comparator(current, stage) then Fail(StageForbidden(methodName, stage)) else Pass
  }

  /** With the default comparator the gate means "must be in `stage`". */
  lemma {:induction false} GateRequiresStage(current: Stage, stage: Stage, methodName: string)
    ensures AssertStage(current, stage, methodName).Pass? <==> current == stage
  {
    StageNamesDistinct(current, stage);
  }

  /** With `STAGES_EQUAL_COMPARATOR` the gate means "must not be in `stage`". */
  lemma {:induction false} GateForbidsStage(current: Stage, stage: Stage, methodName: string)
    ensures AssertStage(current, stage, methodName, StagesEqual).Pass? <==> current != stage
  {
    StageNamesDistinct(current, stage);
  }
}
