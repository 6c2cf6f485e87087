/** Capability vocabulary, the loss-impact decision and the severity order. */
module Capabilities {
  datatype Lifecycle =
    | Unknown | Discovered | Initializing | Ready | Impaired | Unreliable
    | Denied | Unavailable | Disconnected | Failed | Restarting | Stale

  datatype Requirement = Required | Optional | Disabled

  datatype MaterialClass = CognitiveClass | OperationalClass | PeripheralClass | CosmeticClass

  datatype Impact = NoImpact | CosmeticImpact | PeripheralImpact | CognitiveImpact | CriticalImpact

  datatype Severity = Cosmetic | Peripheral | Cognitive | Critical

  datatype Definition = Definition(requirement: Requirement, material: MaterialClass, configured: bool)

  datatype TaskNeed = TaskNeed(required: bool, unsafeIfLost: bool)

  /** The lifecycle states that count as the loss of a capability. */
  predicate IsLoss(s: Lifecycle) {
    s in {Impaired, Unreliable, Denied, Unavailable, Disconnected, Failed, Stale}
  }

  function ClassifyTaskImpact(d: Definition, taskRequires: bool, unsafeIfLost: bool): Impact {
    if taskRequires && unsafeIfLost then CriticalImpact
    else if taskRequires then CognitiveImpact
    else if d.requirement == Required && d.material in {CognitiveClass, OperationalClass} then CognitiveImpact
    else if d.material == CosmeticClass then CosmeticImpact
    else if d.requirement == Optional then PeripheralImpact
    else NoImpact
  }

  /** Only these two impacts can open or widen a degradation episode. */
  predicate Degrades(i: Impact) {
    i in {CognitiveImpact, CriticalImpact}
  }

  function FromImpact(i: Impact): Severity {
    match i
    case NoImpact => Peripheral
    case CosmeticImpact => Cosmetic
    case PeripheralImpact => Peripheral
    case CognitiveImpact => Cognitive
    case CriticalImpact => Critical
  }

  function Rank(s: Severity): nat {
    match s
    case Cosmetic => 0
    case Peripheral => 1
    case Cognitive => 2
    case Critical => 3
  }

  function Maximum(first: Severity, second: Severity): Severity {
    if Rank(first) >= Rank(second) then first else second
  }

  /** A loss degrades exactly when the task needs the capability, or the
      definition requires it for thinking or acting; it is critical exactly when
      the task needs it and losing it is unsafe. */
  lemma ImpactMeaning(d: Definition, taskRequires: bool, unsafeIfLost: bool)
    ensures Degrades(ClassifyTaskImpact(d, taskRequires, unsafeIfLost)) <==>
            taskRequires || (d.requirement == Required && d.material != PeripheralClass && d.material != CosmeticClass)
    ensures ClassifyTaskImpact(d, taskRequires, unsafeIfLost) == CriticalImpact <==> taskRequires && unsafeIfLost
  {
  }
}
