/** The wind-turbine record and the efficiency normalisation its save applies. */
module TurbineModel {

  /** Inclusive bounds of an accepted power coefficient, and the value that
      replaces one outside them. */
  const MinEfficiency: real := 0.0
  const MaxEfficiency: real := 0.6
  const DefaultEfficiency: real := 0.4

  predicate EfficiencyInRange(e: real)
  {
    MinEfficiency <= e <= MaxEfficiency
  }

  /** The efficiency a save stores: a value inside the bounds (endpoints
      included) is kept, anything else becomes the default. */
  function NormalizedEfficiency(e: real): (r: real)
    ensures EfficiencyInRange(r)
    ensures EfficiencyInRange(e) ==> r == e
    ensures e > MaxEfficiency || e < MinEfficiency ==> r == DefaultEfficiency
  {
    if e > MaxEfficiency || e < MinEfficiency then DefaultEfficiency else e
  }

  /** Normalising an already normalised efficiency changes nothing. */
  lemma NormalizeIdempotent(e: real)
    ensures NormalizedEfficiency(NormalizedEfficiency(e)) == NormalizedEfficiency(e)
  {
  }

  /** The only values that survive normalisation are those already in range. */
  lemma NormalizeFixedPoints(e: real)
    ensures NormalizedEfficiency(e) == e <==> EfficiencyInRange(e)
  {
  }

  class Turbine {
    var name: string
    var companyName: string
    var rotorDiameter: real
    var efficiency: real
    var nominalPower: real
    var startupSpeed: real

    /** Building a turbine stores the values as given; nothing is normalised
        until it is saved. */
    constructor (name: string, companyName: string, rotorDiameter: real,
                 efficiency: real, nominalPower: real, startupSpeed: real)
      ensures this.name == name && this.companyName == companyName
      ensures this.rotorDiameter == rotorDiameter && this.efficiency == efficiency
      ensures this.nominalPower == nominalPower && this.startupSpeed == startupSpeed
    {
      this.name := name;
      this.companyName := companyName;
      this.rotorDiameter := rotorDiameter;
      this.efficiency := efficiency;
      this.nominalPower := nominalPower;
      this.startupSpeed := startupSpeed;
    }

    /** Save: replace an out-of-range efficiency by the default before
        storing; no other field is touched. */
    method Save()
      modifies this`efficiency
      ensures efficiency == NormalizedEfficiency(old(efficiency))
      ensures EfficiencyInRange(efficiency)
      ensures old(EfficiencyInRange(efficiency)) ==> efficiency == old(efficiency)
      ensures old(efficiency) > MaxEfficiency ==> efficiency == DefaultEfficiency
      ensures old(efficiency) < MinEfficiency ==> efficiency == DefaultEfficiency
    {
      if efficiency > MaxEfficiency || efficiency < MinEfficiency {
        efficiency := DefaultEfficiency;
      }
    }
  }

  /** Saving twice stores what saving once stores, and leaves every other
      field as it was. */
  method SaveTwice(t: Turbine)
    modifies t
    ensures t.efficiency == NormalizedEfficiency(old(t.efficiency))
    ensures t.name == old(t.name) && t.companyName == old(t.companyName)
    ensures t.rotorDiameter == old(t.rotorDiameter) && t.nominalPower == old(t.nominalPower)
    ensures t.startupSpeed == old(t.startupSpeed)
  {
    t.Save();
    ghost var first := t.efficiency;
    t.Save();
    assert t.efficiency == first;
  }
}
