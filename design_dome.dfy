/**
 * The dome calculator of design_dome.py: the surface area of a hemispherical
 * dome and the weight of its shell on Mars, for a given diameter (metres),
 * material and shell thickness (centimetres).
 *
 * The pure part (the density table and the chain of formulas) is a set of
 * functions; `sphere_area`, which validates its arguments and then overwrites
 * five module-level variables, is the method `Dome.SphereArea` on a class whose
 * fields are those variables.
 */
module DesignDome {
  import opened Rounding

  // ---------------------------------------------------------------------------
  // Constants
  // ---------------------------------------------------------------------------

  /** The material names the density table knows; glass is the default. */
  const Glass: string := "유리"
  const Aluminium: string := "알루미늄"
  const CarbonSteel: string := "탄소강"

  /** Density of each known material, in g/cm^3. */
  const MaterialDensities: map<string, real> :=
    map[Glass := 2.4, Aluminium := 2.7, CarbonSteel := 7.85]

  /** Mars surface gravity as a fraction of Earth's. */
  const MarsGravityRatio: real := 0.378

  /**
   * The shortest decimal that prints as `math.pi` (not the binary value of
   * the double itself); the proofs only use that it is positive.
   */
  const Pi: real := 3.141592653589793

  // ---------------------------------------------------------------------------
  // The formula chain
  // ---------------------------------------------------------------------------

  /**
   * Density (g/cm^3) used for a material name: the table's entry, or glass's
   * density when the name is not in the table.
   */
  function Density(materialName: string): (density: real)
    ensures density in MaterialDensities.Values
    ensures density > 0.0
  {
    if materialName in MaterialDensities then MaterialDensities[materialName]
    else MaterialDensities[Glass]
  }

  /** Surface area (m^2) of a hemisphere of the given diameter (m), base excluded. */
  function HemisphereArea(diameter: real): real
  {
    var radius := diameter / 2.0;
    2.0 * Pi * (radius * radius)
  }

  /** The area is never negative, and positive for every non-zero diameter. */
  lemma HemisphereAreaPositive(diameter: real)
    ensures HemisphereArea(diameter) >= 0.0
    ensures diameter != 0.0 ==> HemisphereArea(diameter) > 0.0
  {
    var radius := diameter / 2.0;
    if radius > 0.0 {
      PositiveProduct(radius, radius, radius * radius);
    } else if radius < 0.0 {
      NegativeProduct(radius, radius, radius * radius);
    }
    if radius != 0.0 {
      PositiveProduct(2.0 * Pi, radius * radius, HemisphereArea(diameter));
    }
  }

  /** `p`, the product of two positive reals, is positive. */
  lemma PositiveProduct(a: real, b: real, p: real)
    requires a > 0.0 && b > 0.0 && p == a * b
    ensures p > 0.0
  {
  }

  /** `p`, the product of two negative reals, is positive. */
  lemma NegativeProduct(a: real, b: real, p: real)
    requires a < 0.0 && b < 0.0 && p == a * b
    ensures p > 0.0
  {
  }

  /**
   * Weight (kg) on Mars of a hemispherical shell: its volume is approximated
   * as surface area times thickness, thickness is converted from cm to m and
   * density from g/cm^3 to kg/m^3.
   */
  function MarsWeight(diameter: real, materialName: string, thickness: real): real
  {
    var thicknessM := thickness / 100.0;
    var densityKgM3 := Density(materialName) * 1000.0;
    var volumeM3 := HemisphereArea(diameter) * thicknessM;
    var earthWeightKg := volumeM3 * densityKgM3;
    earthWeightKg * MarsGravityRatio
  }

  /** The known densities are 2.4, 2.7 and 7.85 g/cm^3. */
  lemma DensityTable()
    ensures Density(Glass) == 2.4
    ensures Density(Aluminium) == 2.7
    ensures Density(CarbonSteel) == 7.85
  {
  }

  /** A name outside the table is given glass's density, 2.4 g/cm^3. */
  lemma UnknownMaterialIsGlass(materialName: string)
    requires materialName != Glass && materialName != Aluminium && materialName != CarbonSteel
    ensures Density(materialName) == Density(Glass) == 2.4
  {
    assert materialName !in MaterialDensities;
  }

  /** The hemisphere area is pi * d^2 / 2, half a sphere's 4 * pi * r^2. */
  lemma HemisphereAreaClosedForm(diameter: real)
    ensures HemisphereArea(diameter) == Pi * diameter * diameter / 2.0
    ensures 2.0 * HemisphereArea(diameter) == 4.0 * Pi * (diameter / 2.0) * (diameter / 2.0)
  {
  }

  /**
   * The four conversion steps together multiply the area by thickness,
   * density and the constant 100^-1 * 1000 * 0.378 = 3.78.
   */
  lemma MarsWeightClosedForm(diameter: real, materialName: string, thickness: real)
    ensures MarsWeight(diameter, materialName, thickness)
         == HemisphereArea(diameter) * thickness * Density(materialName) * 3.78
  {
    assert (thickness / 100.0) * 1000.0 * MarsGravityRatio == thickness * 3.78;
  }

  /** Valid inputs always give a shell of positive weight. */
  lemma MarsWeightPositive(diameter: real, materialName: string, thickness: real)
    requires diameter > 0.0 && thickness > 0.0
    ensures MarsWeight(diameter, materialName, thickness) > 0.0
  {
    var a, d := HemisphereArea(diameter), Density(materialName);
    HemisphereAreaPositive(diameter);
    MarsWeightClosedForm(diameter, materialName, thickness);
    PositiveProduct(a, d, a * d);
    PositiveProduct(a * d * 3.78, thickness, MarsWeight(diameter, materialName, thickness));
  }

  /** For a fixed dome and material, a thicker shell is strictly heavier. */
  lemma MarsWeightIncreasing(diameter: real, materialName: string, thinner: real, thicker: real)
    requires diameter > 0.0 && thinner < thicker
    ensures MarsWeight(diameter, materialName, thinner) < MarsWeight(diameter, materialName, thicker)
  {
    var a, d := HemisphereArea(diameter), Density(materialName);
    HemisphereAreaPositive(diameter);
    MarsWeightClosedForm(diameter, materialName, thinner);
    MarsWeightClosedForm(diameter, materialName, thicker);
    PositiveProduct(a, d, a * d);
    PositiveProduct(a * d * 3.78, thicker - thinner,
      MarsWeight(diameter, materialName, thicker) - MarsWeight(diameter, materialName, thinner));
  }

  /** An unknown material weighs exactly what glass weighs. */
  lemma UnknownMaterialWeighsAsGlass(diameter: real, materialName: string, thickness: real)
    requires materialName != Glass && materialName != Aluminium && materialName != CarbonSteel
    ensures MarsWeight(diameter, materialName, thickness) == MarsWeight(diameter, Glass, thickness)
  {
    UnknownMaterialIsGlass(materialName);
  }

  // ---------------------------------------------------------------------------
  // One computation as a value
  // ---------------------------------------------------------------------------

  /** Why a computation is refused; each is reported by an error message. */
  datatype DomeError = InvalidDiameter | InvalidThickness

  /** What a successful computation stores: arguments as given, results rounded. */
  datatype DomeResult = DomeResult(
    material: string, diameter: real, thickness: real, area: real, weight: real)

  datatype Result = Success(value: DomeResult) | Failure(error: DomeError)

  /**
   * The outcome of one computation: the diameter is checked first, then the
   * thickness; on success the arguments are kept as given (an unknown
   * material name too) and the area and weight are rounded to three decimals.
   */
  function Compute(domeDiameter: real, materialName: string := Glass, domeThickness: real := 1.0): (r: Result)
    ensures r.Failure? <==> domeDiameter <= 0.0 || domeThickness <= 0.0
    ensures r == Failure(InvalidDiameter) <==> domeDiameter <= 0.0
    ensures r == Failure(InvalidThickness) <==> domeDiameter > 0.0 && domeThickness <= 0.0
    ensures r.Success? ==>
      && r.value.material == materialName
      && r.value.diameter == domeDiameter
      && r.value.thickness == domeThickness
      && HasThreeDecimals(r.value.area) && Dist(r.value.area, HemisphereArea(domeDiameter)) <= 0.0005
      && HasThreeDecimals(r.value.weight)
      && Dist(r.value.weight, MarsWeight(domeDiameter, materialName, domeThickness)) <= 0.0005
  {
    if domeDiameter <= 0.0 then Failure(InvalidDiameter)
    else if domeThickness <= 0.0 then Failure(InvalidThickness)
    else Success(DomeResult(
      materialName, domeDiameter, domeThickness,
      Round3(HemisphereArea(domeDiameter)),
      Round3(MarsWeight(domeDiameter, materialName, domeThickness))))
  }

  /** The stored area and weight of a successful computation are never negative. */
  lemma ComputeNonNegative(domeDiameter: real, materialName: string, domeThickness: real)
    requires Compute(domeDiameter, materialName, domeThickness).Success?
    ensures Compute(domeDiameter, materialName, domeThickness).value.area >= 0.0
    ensures Compute(domeDiameter, materialName, domeThickness).value.weight >= 0.0
  {
    HemisphereAreaPositive(domeDiameter);
    Round3NonNegative(HemisphereArea(domeDiameter));
    MarsWeightPositive(domeDiameter, materialName, domeThickness);
    Round3NonNegative(MarsWeight(domeDiameter, materialName, domeThickness));
  }

  /**
   * An unknown material gives glass's area and weight; only the stored
   * material name differs.
   */
  lemma UnknownMaterialComputesAsGlass(domeDiameter: real, materialName: string, domeThickness: real)
    requires materialName != Glass && materialName != Aluminium && materialName != CarbonSteel
    ensures Compute(domeDiameter, materialName, domeThickness)
         == match Compute(domeDiameter, Glass, domeThickness)
            case Success(v) => Success(v.(material := materialName))
            case Failure(e) => Failure(e)
  {
    UnknownMaterialWeighsAsGlass(domeDiameter, materialName, domeThickness);
  }

  /**
   * Worked example: a 10 m glass dome 1 cm thick has area 50 * pi and Mars
   * weight 453.6 * pi, each before rounding.
   */
  lemma GlassDomeExample()
    ensures Compute(10.0) == Success(DomeResult(Glass, 10.0, 1.0, Round3(50.0 * Pi), Round3(453.6 * Pi)))
  {
    assert HemisphereArea(10.0) == 50.0 * Pi;
    DensityTable();
    MarsWeightClosedForm(10.0, Glass, 1.0);
    assert MarsWeight(10.0, Glass, 1.0) == 50.0 * Pi * 1.0 * 2.4 * 3.78;
  }

  /**
   * Worked example: a 6 m aluminium dome 2 cm thick has area 18 * pi and Mars
   * weight 367.416 * pi, each before rounding.
   */
  lemma AluminiumDomeExample()
    ensures Compute(6.0, Aluminium, 2.0)
         == Success(DomeResult(Aluminium, 6.0, 2.0, Round3(18.0 * Pi), Round3(367.416 * Pi)))
  {
    assert HemisphereArea(6.0) == 18.0 * Pi;
    DensityTable();
    MarsWeightClosedForm(6.0, Aluminium, 2.0);
    assert MarsWeight(6.0, Aluminium, 2.0) == 18.0 * Pi * 2.0 * 2.7 * 3.78;
  }

  /** Rounding a stored result again changes nothing. */
  lemma ComputeAlreadyRounded(domeDiameter: real, materialName: string, domeThickness: real)
    requires Compute(domeDiameter, materialName, domeThickness).Success?
    ensures var v := Compute(domeDiameter, materialName, domeThickness).value;
      Round3(v.area) == v.area && Round3(v.weight) == v.weight
  {
    var v := Compute(domeDiameter, materialName, domeThickness).value;
    Round3OfThreeDecimals(v.area);
    Round3OfThreeDecimals(v.weight);
  }

  // ---------------------------------------------------------------------------
  // The module-level variables and sphere_area
  // ---------------------------------------------------------------------------

  /** What a call reports: the variables were updated, or an error message. */
  datatype Status = Updated | Rejected(reason: DomeError)

  /** The five module-level variables that hold the last successful result. */
  class Dome {
    var material: string
    var diameter: real
    var thickness: real
    var area: real
    var weight: real

    /** The variables as the module initialises them. */
    constructor ()
      ensures material == "" && diameter == 0.0 && thickness == 0.0
      ensures area == 0.0 && weight == 0.0
    {
      material, diameter, thickness := "", 0.0, 0.0;
      area, weight := 0.0, 0.0;
    }

    /** The five variables as one value. */
    function Snapshot(): DomeResult
      reads this
    {
      DomeResult(material, diameter, thickness, area, weight)
    }

    /**
     * `sphere_area`: reject a non-positive diameter, then a non-positive
     * thickness, leaving every variable as it was; otherwise store the
     * arguments and the rounded area and Mars weight.
     */
    method SphereArea(domeDiameter: real, materialName: string := Glass, domeThickness: real := 1.0)
      returns (status: Status)
      modifies this
      ensures domeDiameter <= 0.0 ==>
        status == Rejected(InvalidDiameter) && Snapshot() == old(Snapshot())
      ensures domeDiameter > 0.0 && domeThickness <= 0.0 ==>
        status == Rejected(InvalidThickness) && Snapshot() == old(Snapshot())
      ensures domeDiameter > 0.0 && domeThickness > 0.0 ==>
        && status == Updated
        && material == materialName
        && diameter == domeDiameter
        && thickness == domeThickness
        && area == Round3(HemisphereArea(domeDiameter))
        && weight == Round3(MarsWeight(domeDiameter, materialName, domeThickness))
      ensures Compute(domeDiameter, materialName, domeThickness)
           == if status.Updated? then Success(Snapshot()) else Failure(status.reason)
    {
      if domeDiameter <= 0.0 {
        return Rejected(InvalidDiameter);
      }
      if domeThickness <= 0.0 {
        return Rejected(InvalidThickness);
      }
      material := materialName;
      diameter := domeDiameter;
      thickness := domeThickness;

      var radius := domeDiameter / 2.0;
      var domeAreaM2 := 2.0 * Pi * (radius * radius);
      var densityGCm3 := Density(materialName);
      var thicknessM := domeThickness / 100.0;
      var densityKgM3 := densityGCm3 * 1000.0;
      var domeVolumeM3 := domeAreaM2 * thicknessM;
      var earthWeightKg := domeVolumeM3 * densityKgM3;
      var marsWeightKg := earthWeightKg * MarsGravityRatio;
      assert domeAreaM2 == HemisphereArea(domeDiameter);
      assert marsWeightKg == MarsWeight(domeDiameter, materialName, domeThickness);

      area := Round3(domeAreaM2);
      weight := Round3(marsWeightKg);
      status := Updated;
    }
  }

  /**
   * The test the interactive loop applies to the variables before it prints
   * them: it looks at the stored diameter and thickness, not at whether the
   * latest call succeeded.
   */
  predicate MainDisplays(stored: DomeResult) {
    stored.diameter > 0.0 && stored.thickness > 0.0
  }

  /**
   * A dome of diameter 10 m in glass, 1 cm thick, followed by a call with a
   * negative diameter: the rejected call leaves the first result in place,
   * so the variables still show a positive diameter and thickness.
   */
  method RejectionKeepsEarlierResult() returns (first: Status, second: Status, shown: DomeResult)
    ensures first == Updated && second == Rejected(InvalidDiameter)
    ensures shown == DomeResult(Glass, 10.0, 1.0, Round3(50.0 * Pi), Round3(453.6 * Pi))
    ensures MainDisplays(shown)
  {
    var dome := new Dome();
    first := dome.SphereArea(10.0);
    MarsWeightClosedForm(10.0, Glass, 1.0);
    second := dome.SphereArea(-5.0);
    shown := dome.Snapshot();
  }
}
