// Values shared by the components: engines, capture plans and prepared
// generations. Paths, revisions and addresses are kept as opaque values; only
// their equality matters to the code modelled here.

module Types {
  datatype Option<+T> = None | Some(value: T)

  datatype Engine = Mihomo | SingBox

  // A capture plan splits into the listener part, which stays fixed while a
  // core runs, and the two address sets a dynamic refresh may replace.
  datatype CapturePlan = CapturePlan(
    listener: nat,
    dnsEnabled: bool,
    destinations: seq<nat>,
    endpoints: seq<nat>)

  // One prepared native generation. `runtime` names its private runtime
  // directory; `source` and `revision` identify the profile it was made from.
  datatype Generation = Generation(
    engine: Engine,
    runtime: nat,
    source: string,
    revision: string,
    capture: CapturePlan)
  {
    // The same applied configuration in another private runtime.
    predicate CloneOf(other: Generation) {
      this == other.(runtime := runtime)
    }
  }

  // The effects whose outcome an example run has to fix.
  datatype Effect =
    | TakeLock | ReleaseLock | Prepare | WriteFile
    | StartCore | AnswerProbe | InstallCapture | RaiseGuard | CheckGuard | DropGuard
    | DropCapture | StopCore
    | ApplyRules | RemoveRules | ApplyResolver | RestoreResolver
    | ClearName | SyncName
    | SwapCore | RecordSwap
    | SwapBinary | RestartManager | ReadBack

  // What the environment does. In `Any` every effect may succeed, fail or be cut
  // off by a crash, so a property proved there holds in every environment. In a
  // determined world there is no crash and exactly the listed effects fail; runs
  // that exhibit an outcome are given there.
  datatype World = Any | Exactly(failing: set<Effect>) {
    predicate Fixes(e: Effect, ok: bool) { Exactly? ==> ok == (e !in failing) }
  }

  method Attempt(world: World, e: Effect) returns (ok: bool)
    ensures world.Fixes(e, ok)
  {
    ok := *;
    if world.Exactly? { ok := e !in world.failing; }
  }

  // Whether the manager dies before the next effect.
  method Dies(world: World) returns (dies: bool)
    ensures world.Exactly? ==> !dies
  {
    dies := *;
    dies := dies && world.Any?;
  }
}
