/** The enumerations of coach/models/enums.py. Each Python `Enum` becomes a
    datatype whose constructors are its members; `Value()` is the member's
    `.value` and the module-level `...Of` function is the lookup `Enum(v)`,
    which returns None where Python raises `ValueError`. */
module Enums {
  import opened Util

  /** Training intensity zones 1 (recovery) to 5 (sprint). */
  datatype EffortZone = Zone1 | Zone2 | Zone3 | Zone4 | Zone5
  {
    function Value(): (v: int)
      ensures 1 <= v <= 5
    {
      match this
      case Zone1 => 1
      case Zone2 => 2
      case Zone3 => 3
      case Zone4 => 4
      case Zone5 => 5
    }
  }

  /** `EffortZone(v)`: an integer names a zone exactly when it lies in 1..5. */
  function EffortZoneOf(v: int): (r: Option<EffortZone>)
    ensures r.Some? <==> 1 <= v <= 5
    ensures r.Some? ==> r.value.Value() == v
  {
    if v == 1 then Some(Zone1)
    else if v == 2 then Some(Zone2)
    else if v == 3 then Some(Zone3)
    else if v == 4 then Some(Zone4)
    else if v == 5 then Some(Zone5)
    else None
  }

  /** Every zone is found again from its value, and no two zones share a value. */
  lemma EffortZoneRoundTrip(z: EffortZone, z': EffortZone)
    ensures EffortZoneOf(z.Value()) == Some(z)
    ensures z.Value() == z'.Value() ==> z == z'
  {
  }

  /** Units of a distance: kilometres for long segments, metres for short ones. */
  datatype DistanceUnit = KM | M
  {
    function Value(): string
    {
      match this
      case KM => "KILOMETERS"
      case M => "METERS"
    }
  }

  /** `DistanceUnit(s)`: the inverse of `Value()`, None for any other string. */
  function DistanceUnitOf(s: string): (r: Option<DistanceUnit>)
    ensures r.Some? ==> r.value.Value() == s
    ensures r.None? ==> forall u: DistanceUnit :: u.Value() != s
  {
    if s == "KILOMETERS" then Some(KM)
    else if s == "METERS" then Some(M)
    else None
  }

  lemma DistanceUnitRoundTrip(u: DistanceUnit)
    ensures DistanceUnitOf(u.Value()) == Some(u)
  {
  }

  /** Training objectives; each member's value is its own upper-case name. */
  datatype Goal = Endurance | Speed | Recovery | Threshold | Base | Technique
  {
    function Value(): string
    {
      match this
      case Endurance => "ENDURANCE"
      case Speed => "SPEED"
      case Recovery => "RECOVERY"
      case Threshold => "THRESHOLD"
      case Base => "BASE"
      case Technique => "TECHNIQUE"
    }
  }

  function GoalOf(s: string): (r: Option<Goal>)
    ensures r.Some? ==> r.value.Value() == s
    ensures r.None? ==> forall g: Goal :: g.Value() != s
  {
    if s == "ENDURANCE" then Some(Endurance)
    else if s == "SPEED" then Some(Speed)
    else if s == "RECOVERY" then Some(Recovery)
    else if s == "THRESHOLD" then Some(Threshold)
    else if s == "BASE" then Some(Base)
    else if s == "TECHNIQUE" then Some(Technique)
    else None
  }

  lemma GoalRoundTrip(g: Goal)
    ensures GoalOf(g.Value()) == Some(g)
  {
  }

  /** Athlete experience levels; values are the members' upper-case names. */
  datatype Experience = Beginner | Intermediate | Advanced | Elite
  {
    function Value(): string
    {
      match this
      case Beginner => "BEGINNER"
      case Intermediate => "INTERMEDIATE"
      case Advanced => "ADVANCED"
      case Elite => "ELITE"
    }
  }

  function ExperienceOf(s: string): (r: Option<Experience>)
    ensures r.Some? ==> r.value.Value() == s
    ensures r.None? ==> forall e: Experience :: e.Value() != s
  {
    if s == "BEGINNER" then Some(Beginner)
    else if s == "INTERMEDIATE" then Some(Intermediate)
    else if s == "ADVANCED" then Some(Advanced)
    else if s == "ELITE" then Some(Elite)
    else None
  }

  lemma ExperienceRoundTrip(e: Experience)
    ensures ExperienceOf(e.Value()) == Some(e)
  {
  }

  /** Supported sports; values are the members' upper-case names. */
  datatype Sport = Cycling | Running | Swimming | Triathlon
  {
    function Value(): string
    {
      match this
      case Cycling => "CYCLING"
      case Running => "RUNNING"
      case Swimming => "SWIMMING"
      case Triathlon => "TRIATHLON"
    }
  }

  function SportOf(s: string): (r: Option<Sport>)
    ensures r.Some? ==> r.value.Value() == s
    ensures r.None? ==> forall sp: Sport :: sp.Value() != s
  {
    if s == "CYCLING" then Some(Cycling)
    else if s == "RUNNING" then Some(Running)
    else if s == "SWIMMING" then Some(Swimming)
    else if s == "TRIATHLON" then Some(Triathlon)
    else None
  }

  lemma SportRoundTrip(sp: Sport)
    ensures SportOf(sp.Value()) == Some(sp)
  {
  }
}
