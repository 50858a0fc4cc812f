/**
 * The verdict table of the trolley analyser: an agency ratio and a
 * compassion ratio are turned into one of seven archetypes, each with its
 * own label and tagline.
 */
module Verdicts {

  /** The rows of the table, in the order they are tried. */
  datatype Verdict =
    | DetachedBystander
    | HeroicUtilitarian
    | CalculatingPragmatist
    | ChaosConductor
    | ColdStrategist
    | MalevolentMastermind
    | PureEvil
  {
    function Label(): string {
      match this
      case DetachedBystander => "Detached Bystander"
      case HeroicUtilitarian => "Heroic Utilitarian"
      case CalculatingPragmatist => "Calculating Pragmatist"
      case ChaosConductor => "Chaos Conductor"
      case ColdStrategist => "Cold Strategist"
      case MalevolentMastermind => "Malevolent Mastermind"
      case PureEvil => "Pure Evil"
    }

    function Tagline(): string {
      match this
      case DetachedBystander => "You let fate decide."
      case HeroicUtilitarian => "You cut losses wherever you could."
      case CalculatingPragmatist => "Feelings off, calculator on."
      case ChaosConductor => "Equal parts mercy and mayhem."
      case ColdStrategist => "Your math favoured the massacre."
      case MalevolentMastermind => "You steered straight into crowds."
      case PureEvil => "All aboard the pain train."
    }

    /** Place on the compassion scale: 5 for the kindest row, 0 for the cruelest; -1 off the scale. */
    function Rank(): int {
      match this
      case DetachedBystander => -1
      case HeroicUtilitarian => 5
      case CalculatingPragmatist => 4
      case ChaosConductor => 3
      case ColdStrategist => 2
      case MalevolentMastermind => 1
      case PureEvil => 0
    }
  }

  /**
   * The region of the (agency, compassion) plane each row owns once the
   * rows before it have been ruled out: seven disjoint pieces.
   */
  predicate InRegion(v: Verdict, agency: real, compassion: real) {
    match v
    case DetachedBystander => agency < 0.2
    case HeroicUtilitarian => agency >= 0.2 && 0.5 <= compassion
    case CalculatingPragmatist => agency >= 0.2 && 0.2 <= compassion < 0.5
    case ChaosConductor => agency >= 0.2 && -0.2 < compassion < 0.2
    case ColdStrategist => agency >= 0.2 && -0.5 <= compassion <= -0.2
    case MalevolentMastermind => agency >= 0.2 && -0.8 <= compassion < -0.5
    case PureEvil => agency >= 0.2 && compassion < -0.8
  }

  /** First matching row of the table; the result is the one row whose region holds the point. */
  function PickVerdict(agency: real, compassion: real): (v: Verdict)
    ensures InRegion(v, agency, compassion)
    ensures forall w :: InRegion(w, agency, compassion) ==> w == v
  {
    if agency < 0.2 then DetachedBystander
    else if compassion >= 0.5 then HeroicUtilitarian
    else if compassion >= 0.2 then CalculatingPragmatist
    else if compassion > -0.2 then ChaosConductor
    else if compassion >= -0.5 then ColdStrategist
    else if compassion >= -0.8 then MalevolentMastermind
    else PureEvil
  }

  /** Below the agency threshold compassion plays no part; at the threshold itself the player is no bystander. */
  lemma AgencyThreshold(agency: real, compassion: real)
    ensures PickVerdict(agency, compassion) == DetachedBystander <==> agency < 0.2
    ensures PickVerdict(0.2, compassion) != DetachedBystander
  {
  }

  /** Less compassion never earns a kinder row. */
  lemma CompassionMonotone(agency: real, c1: real, c2: real)
    requires agency >= 0.2 && c1 <= c2
    ensures 0 <= PickVerdict(agency, c1).Rank() <= PickVerdict(agency, c2).Rank()
  {
  }

  /** Label and tagline each identify their row, so a label names one verdict. */
  lemma RowsDistinct(v: Verdict, w: Verdict)
    ensures v.Label() == w.Label() <==> v == w
    ensures v.Tagline() == w.Tagline() <==> v == w
  {
  }
}
