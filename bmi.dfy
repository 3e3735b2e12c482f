/**
 * The BMI calculation of bmi_calc/script.js: weight and height normalisation,
 * the body-mass index rounded to one decimal, the four-rung category ladder,
 * the healthy-weight-range advice, and the validation gates of the form's
 * submit handler that wrap them.
 *
 * All arithmetic is on exact `real`s; JavaScript's `Math.round(y)` is
 * `Floor(y + 0.5)` (halves go toward +infinity).
 */
module BmiCalc {

  datatype Option<+T> = None | Some(value: T)

  datatype Result<+T, +E> = Success(value: T) | Failure(error: E)

  // ---------------------------------------------------------------------
  // Rounding to one decimal: `Math.round(v * 10) / 10`
  // ---------------------------------------------------------------------

  /** `x` has at most one decimal digit: it is a multiple of 0.1. */
  predicate OnTenthGrid(x: real) {
    (x * 10.0).Floor as real == x * 10.0
  }

  /**
   * `formatKg(v)`, and the rounding of the BMI in the submit handler:
   * `Math.round(v * 10) / 10`.
   */
  function RoundTenth(v: real): (r: real)
    ensures OnTenthGrid(r)
    ensures v - 0.05 < r <= v + 0.05
  {
    (v * 10.0 + 0.5).Floor as real / 10.0
  }

  /** A value already on the 0.1 grid is left alone by the rounding. */
  lemma RoundTenthFixesGrid(x: real)
    requires OnTenthGrid(x)
    ensures RoundTenth(x) == x
  {
    var k := (x * 10.0).Floor;
    assert x * 10.0 + 0.5 == k as real + 0.5;
    assert (x * 10.0 + 0.5).Floor == k;
  }

  /** Rounding twice is rounding once. */
  lemma RoundTenthIdempotent(v: real)
    ensures RoundTenth(RoundTenth(v)) == RoundTenth(v)
  {
    RoundTenthFixesGrid(RoundTenth(v));
  }

  /** The rounding never reverses the order of two values. */
  lemma RoundTenthMonotone(a: real, b: real)
    requires a <= b
    ensures RoundTenth(a) <= RoundTenth(b)
  {
    assert (a * 10.0 + 0.5).Floor <= (b * 10.0 + 0.5).Floor;
  }

  /**
   * The advice thresholds on the rounded value, read back on the unrounded
   * one: below 18.5 after rounding means below 18.45 before, above 24.9
   * after rounding means at least 24.95 before.
   */
  lemma RoundTenthBelowThresholds(v: real)
    ensures RoundTenth(v) < 18.5 ==> v < 18.45
    ensures RoundTenth(v) > 24.9 ==> v >= 24.95
  {
  }

  /** A non-negative value never rounds to a negative one. */
  lemma RoundTenthNonNegative(v: real)
    requires v >= 0.0
    ensures RoundTenth(v) >= 0.0
  {
  }

  // ---------------------------------------------------------------------
  // Unit normalisation: `toKg` and `toMeters`
  // ---------------------------------------------------------------------

  /** Kilograms in one pound. */
  const PoundInKg: real := 0.45359237

  /** Metres in one inch. */
  const InchInMeters: real := 0.0254

  /** A height given in metres above this many is read as centimetres. */
  const MaxPlausibleMeters: real := 3.0

  /**
   * `toKg`: pounds are converted, `"kg"` and every unrecognised unit are
   * taken as kilograms already.
   */
  function ToKg(weight: real, unit: string): (kg: real)
    ensures unit == "lb" ==> kg / PoundInKg == weight
    ensures unit != "lb" ==> kg == weight
    ensures weight > 0.0 <==> kg > 0.0
  {
    if unit == "kg" then weight
    else if unit == "lb" then weight * PoundInKg
    else weight
  }

  /** A normalised height and whether the "centimetres typed as metres" rule fired. */
  datatype Height = Height(meters: real, autoConvertedFromCm: bool)

  /**
   * `toMeters`: `"cm"` and `"in"` are converted; under `"m"` a value above 3
   * is taken as centimetres and flagged; any other unit is taken as metres.
   */
  function ToMeters(height: real, unit: string): (h: Height)
    ensures h.autoConvertedFromCm <==> unit == "m" && height > MaxPlausibleMeters
    ensures h.autoConvertedFromCm || unit == "cm" ==> h.meters * 100.0 == height
    ensures unit == "in" ==> h.meters / InchInMeters == height
    ensures !h.autoConvertedFromCm && unit != "cm" && unit != "in" ==> h.meters == height
    ensures height > 0.0 ==> h.meters > 0.0
  {
    if unit == "m" then
      if height > MaxPlausibleMeters then Height(height / 100.0, true)
      else Height(height, false)
    else if unit == "cm" then Height(height / 100.0, false)
    else if unit == "in" then Height(height * InchInMeters, false)
    else Height(height, false)
  }

  /**
   * The auto-conversion under `"m"` gives exactly the metres that the same
   * number would give under `"cm"`.
   */
  lemma AutoConversionIsCentimetres(height: real)
    requires height > MaxPlausibleMeters
    ensures ToMeters(height, "m").meters == ToMeters(height, "cm").meters
    ensures ToMeters(height, "m").autoConvertedFromCm && !ToMeters(height, "cm").autoConvertedFromCm
  {
  }

  // ---------------------------------------------------------------------
  // The index and its category
  // ---------------------------------------------------------------------

  /** `meters * meters`. */
  function Square(meters: real): real {
    meters * meters
  }

  // SquareOverSide, SquarePositive, DivisionByPositive and ScaleLess are
  // arithmetic helpers for the solver; they state nothing about the program.

  /** The square divided by its side is the side. */
  lemma SquareOverSide(meters: real)
    requires meters > 0.0
    ensures Square(meters) / meters == meters
  {
  }

  /** A positive length has a positive square. */
  lemma SquarePositive(meters: real)
    requires meters > 0.0
    ensures Square(meters) > 0.0
  {
    SquareOverSide(meters);
    assert Square(meters) / meters > 0.0;
  }

  /** Division by a positive number can be undone and keeps the sign. */
  lemma DivisionByPositive(k: real, s: real)
    requires s > 0.0
    ensures k / s * s == k
    ensures k > 0.0 <==> k / s > 0.0
  {
  }

  /** Multiplying both sides by a positive number keeps a strict order. */
  lemma ScaleLess(x: real, y: real, s: real)
    requires s > 0.0
    ensures x < y <==> x * s < y * s
  {
  }

  /** `kg / (meters * meters)`. */
  function BodyMassIndex(kg: real, meters: real): (bmi: real)
    requires meters > 0.0
    ensures bmi * Square(meters) == kg
    ensures kg > 0.0 <==> bmi > 0.0
  {
    SquarePositive(meters);
    DivisionByPositive(kg, Square(meters));
    kg / Square(meters)
  }

  /** Comparing the index with a threshold is comparing the weight with threshold * height squared. */
  lemma BmiBelow(kg: real, meters: real, t: real)
    requires meters > 0.0
    ensures BodyMassIndex(kg, meters) < t <==> kg < t * Square(meters)
  {
    SquarePositive(meters);
    ScaleLess(BodyMassIndex(kg, meters), t, Square(meters));
  }

  datatype Category = Underweight | Normal | Overweight | Obese {

    /** Position in the order Underweight < Normal < Overweight < Obese. */
    function Rank(): nat {
      match this
      case Underweight => 0
      case Normal => 1
      case Overweight => 2
      case Obese => 3
    }

    function Name(): string {
      match this
      case Underweight => "Underweight"
      case Normal => "Normal (Healthy weight)"
      case Overweight => "Overweight"
      case Obese => "Obese"
    }

    function Color(): string {
      match this
      case Underweight => "var(--danger)"
      case Normal => "var(--success)"
      case Overweight => "#f59e0b"
      case Obese => "var(--danger)"
    }

    function Info(): string {
      match this
      case Underweight => "Your BMI is below the healthy range."
      case Normal => "You are within a healthy BMI range. Keep maintaining healthy habits!"
      case Overweight => "Your BMI is above the healthy range."
      case Obese => "Your BMI is in the obese range."
    }
  }

  /**
   * `getCategory`: the first rung of the ladder that matches. Every value
   * lies in exactly one of four half-open bands.
   */
  function GetCategory(bmi: real): (c: Category)
    ensures c == Underweight <==> bmi < 18.5
    ensures c == Normal <==> 18.5 <= bmi < 25.0
    ensures c == Overweight <==> 25.0 <= bmi < 30.0
    ensures c == Obese <==> 30.0 <= bmi
  {
    if bmi < 18.5 then Underweight
    else if bmi < 25.0 then Normal
    else if bmi < 30.0 then Overweight
    else Obese
  }

  /** A larger index never gets a lower category. */
  lemma GetCategoryMonotone(a: real, b: real)
    requires a <= b
    ensures GetCategory(a).Rank() <= GetCategory(b).Rank()
  {
  }

  // ---------------------------------------------------------------------
  // Healthy-range advice
  // ---------------------------------------------------------------------

  /** `18.5 * meters * meters`, the lower end of the healthy range. */
  function MinHealthyKg(meters: real): real {
    18.5 * Square(meters)
  }

  /** `24.9 * meters * meters`, the upper end of the healthy range. */
  function MaxHealthyKg(meters: real): real {
    24.9 * Square(meters)
  }

  /**
   * The recommendation message, as the numbers it interpolates: the healthy
   * range and, when outside it, the kilograms to gain or to lose, all
   * rounded to one decimal.
   */
  datatype Advice =
    | Gain(minKg: real, maxKg: real, amount: real)
    | Lose(minKg: real, maxKg: real, amount: real)
    | Within(minKg: real, maxKg: real)

  /** The three-way branch on the rounded index in the submit handler. */
  function Recommend(rounded: real, kg: real, meters: real): (a: Advice)
    ensures a.minKg == RoundTenth(MinHealthyKg(meters))
    ensures a.maxKg == RoundTenth(MaxHealthyKg(meters))
    ensures 0.0 <= a.minKg <= a.maxKg
    ensures a.Gain? ==> a.amount == RoundTenth(MinHealthyKg(meters) - kg)
    ensures a.Lose? ==> a.amount == RoundTenth(kg - MaxHealthyKg(meters))
  {
    var minKg := RoundTenth(MinHealthyKg(meters));
    var maxKg := RoundTenth(MaxHealthyKg(meters));
    RoundTenthNonNegative(MinHealthyKg(meters));
    RoundTenthMonotone(MinHealthyKg(meters), MaxHealthyKg(meters));
    if rounded < 18.5 then Gain(minKg, maxKg, RoundTenth(MinHealthyKg(meters) - kg))
    else if rounded > 24.9 then Lose(minKg, maxKg, RoundTenth(kg - MaxHealthyKg(meters)))
    else Within(minKg, maxKg)
  }

  /** Advice to gain for Underweight, to lose above Normal, none for Normal. */
  predicate AgreesWithCategory(a: Advice, c: Category) {
    && (a.Gain? <==> c == Underweight)
    && (a.Lose? <==> c == Overweight || c == Obese)
    && (a.Within? <==> c == Normal)
  }

  /**
   * On the 0.1 grid the advice thresholds (`< 18.5`, `> 24.9`) cut the line
   * exactly where the category thresholds (`< 18.5`, `< 25`) do.
   */
  lemma GridThresholds(x: real)
    requires OnTenthGrid(x)
    ensures x > 24.9 <==> x >= 25.0
  {
  }

  /**
   * The advice branch taken for the rounded index agrees with its category,
   * and a gain or a loss is always of a positive number of kilograms before
   * rounding.
   */
  lemma AdviceMatchesCategory(kg: real, meters: real)
    requires meters > 0.0
    ensures var rounded := RoundTenth(BodyMassIndex(kg, meters));
            var a := Recommend(rounded, kg, meters);
            && AgreesWithCategory(a, GetCategory(rounded))
            && (a.Gain? ==> MinHealthyKg(meters) - kg > 0.0)
            && (a.Lose? ==> kg - MaxHealthyKg(meters) > 0.0)
            && (a.Gain? || a.Lose? ==> a.amount >= 0.0)
  {
    var bmi := BodyMassIndex(kg, meters);
    var rounded := RoundTenth(bmi);
    var a := Recommend(rounded, kg, meters);
    GridThresholds(rounded);
    RoundTenthBelowThresholds(bmi);
    if rounded < 18.5 {
      BmiBelow(kg, meters, 18.45);
      RoundTenthNonNegative(MinHealthyKg(meters) - kg);
    } else if rounded > 24.9 {
      BmiBelow(kg, meters, 24.95);
      RoundTenthNonNegative(kg - MaxHealthyKg(meters));
    }
  }

  // ---------------------------------------------------------------------
  // The submit handler: validation gates around the pipeline
  // ---------------------------------------------------------------------

  /** The three alerts of the submit handler. */
  datatype InputError = InvalidWeight | InvalidHeight | InvalidComputedHeight

  /** What the handler displays: the rounded index, its category, the advice and the auto-conversion note. */
  datatype Report = Report(bmi: real, category: Category, advice: Advice, autoConvertedFromCm: bool)

  /** A form field that is non-empty, numeric and strictly positive. */
  predicate Positive(field: Option<real>) {
    field.Some? && field.value > 0.0
  }

  /**
   * The submit handler without its DOM effects. A field is `None` when it
   * is empty or does not parse as a number. Weight is checked first, then
   * height, then the converted height.
   */
  function Calculate(weight: Option<real>, weightUnit: string, height: Option<real>, heightUnit: string)
    : (r: Result<Report, InputError>)
    ensures !Positive(weight) ==> r == Failure(InvalidWeight)
    ensures Positive(weight) && !Positive(height) ==> r == Failure(InvalidHeight)
    ensures r.Success? <==> Positive(weight) && Positive(height)
    ensures r.Success? ==>
              && r.value.bmi >= 0.0
              && OnTenthGrid(r.value.bmi)
              && r.value.category == GetCategory(r.value.bmi)
              && AgreesWithCategory(r.value.advice, r.value.category)
              && (r.value.autoConvertedFromCm <==> heightUnit == "m" && height.value > MaxPlausibleMeters)
    ensures r.Success? ==>
              var kg := ToKg(weight.value, weightUnit);
              var meters := ToMeters(height.value, heightUnit).meters;
              && meters > 0.0
              && r.value.bmi == RoundTenth(BodyMassIndex(kg, meters))
              && r.value.advice == Recommend(r.value.bmi, kg, meters)
  {
    if !Positive(weight) then Failure(InvalidWeight)
    else if !Positive(height) then Failure(InvalidHeight)
    else
      var kg := ToKg(weight.value, weightUnit);
      var h := ToMeters(height.value, heightUnit);
      if h.meters <= 0.0 then Failure(InvalidComputedHeight)
      else
        var bmi := BodyMassIndex(kg, h.meters);
        var rounded := RoundTenth(bmi);
        AdviceMatchesCategory(kg, h.meters);
        RoundTenthNonNegative(bmi);
        Success(Report(rounded, GetCategory(rounded), Recommend(rounded, kg, h.meters), h.autoConvertedFromCm))
  }

  /**
   * The converted-height gate never fires: inputs that pass the weight and
   * height gates always convert to a positive height.
   */
  lemma ComputedHeightGateUnreachable(weight: Option<real>, weightUnit: string, height: Option<real>, heightUnit: string)
    ensures Calculate(weight, weightUnit, height, heightUnit) != Failure(InvalidComputedHeight)
  {
  }

  /** A successful report's index is within 0.05 of the exact index of the normalised inputs. */
  lemma CalculateIsCloseToExact(weight: real, weightUnit: string, height: real, heightUnit: string)
    requires weight > 0.0 && height > 0.0
    ensures var r := Calculate(Some(weight), weightUnit, Some(height), heightUnit);
            var exact := BodyMassIndex(ToKg(weight, weightUnit), ToMeters(height, heightUnit).meters);
            r.Success? && exact - 0.05 < r.value.bmi <= exact + 0.05 && r.value.bmi >= 0.0
  {
    var exact := BodyMassIndex(ToKg(weight, weightUnit), ToMeters(height, heightUnit).meters);
    RoundTenthNonNegative(exact);
  }

  // ---------------------------------------------------------------------
  // Worked examples
  // ---------------------------------------------------------------------

  /** 70 kg at 1.75 m: index 22.9, Normal, healthy range 56.7 to 76.3 kg, no change needed. */
  lemma ExampleNormal()
    ensures Calculate(Some(70.0), "kg", Some(1.75), "m")
         == Success(Report(22.9, Normal, Within(56.7, 76.3), false))
  {
    assert RoundTenth(BodyMassIndex(70.0, 1.75)) == 22.9;
    assert Recommend(22.9, 70.0, 1.75) == Within(56.7, 76.3);
  }

  /** 45 kg at 170 typed under metres: read as 1.70 m, index 15.6, Underweight, about 8.5 kg to gain. */
  lemma ExampleUnderweightAutoConverted()
    ensures Calculate(Some(45.0), "kg", Some(170.0), "m")
         == Success(Report(15.6, Underweight, Gain(53.5, 72.0, 8.5), true))
  {
    assert ToMeters(170.0, "m") == Height(1.7, true);
    assert RoundTenth(BodyMassIndex(45.0, 1.7)) == 15.6;
    assert Recommend(15.6, 45.0, 1.7) == Gain(53.5, 72.0, 8.5);
  }

  /** 100 kg at 1.70 m: index 34.6, Obese, about 28 kg to lose. */
  lemma ExampleObese()
    ensures Calculate(Some(100.0), "kg", Some(1.7), "m")
         == Success(Report(34.6, Obese, Lose(53.5, 72.0, 28.0), false))
  {
    assert RoundTenth(BodyMassIndex(100.0, 1.7)) == 34.6;
    assert Recommend(34.6, 100.0, 1.7) == Lose(53.5, 72.0, 28.0);
  }

  /** 154 lb at 69 in: 69.853225 kg at 1.7526 m, index 22.7, Normal. */
  lemma ExamplePoundsAndInches()
    ensures Calculate(Some(154.0), "lb", Some(69.0), "in")
         == Success(Report(22.7, Normal, Within(56.8, 76.5), false))
  {
    assert ToKg(154.0, "lb") == 69.85322498 && ToMeters(69.0, "in") == Height(1.7526, false);
    assert RoundTenth(BodyMassIndex(69.85322498, 1.7526)) == 22.7;
    assert Recommend(22.7, 69.85322498, 1.7526) == Within(56.8, 76.5);
  }

  /**
   * An index that rounds to exactly 25.0 is Overweight and gets the advice
   * to lose weight: the `> 24.9` test catches it.
   */
  lemma ExampleBoundaryTwentyFive()
    ensures Calculate(Some(25.0), "kg", Some(1.0), "m")
         == Success(Report(25.0, Overweight, Lose(18.5, 24.9, 0.1), false))
  {
    assert RoundTenth(BodyMassIndex(25.0, 1.0)) == 25.0;
    assert Recommend(25.0, 25.0, 1.0) == Lose(18.5, 24.9, 0.1);
  }
}
