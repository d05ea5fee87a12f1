/**
 * The dough-recipe calculator ("Calcolatore Pizza"): from the number and
 * weight of the dough balls, the hydration, the salt and fat per litre of
 * water and the percentage of old dough ("pasta di riporto"), it splits the
 * dough into flour, water and salt, estimates the fresh yeast from the
 * leavening hours and room temperature, and suggests a flour strength from
 * the total leavening time.
 *
 * Inputs are taken after `Number(...)`: an empty field is 0. The first three
 * fields go through `Number(x) || 0`, so they are optional here and an empty
 * or non-numeric value counts as 0. `Math.pow(1.096, tempRoom)` is the
 * parameter `growth`, about which only positivity is assumed.
 */
module PizzaCalculator {
  import opened Wrappers
  import opened JsMath

  /** Vigour of the old dough; selectable, but not read by the computation. */
  datatype PdrType = Stanca | Normale | Vivace

  datatype RecipeInputs = RecipeInputs(
    isTeglia: bool,
    numBalls: Option<real>,
    ballWeight: Option<real>,
    hydration: Option<real>,
    saltLit: real,
    fatLit: real,
    pdrPercent: real,
    hoursTotal: real,
    hoursFridge: real,
    tempRoom: real,
    pdrType: PdrType)

  /** The state the calculator opens with. */
  const Defaults := RecipeInputs(false, Some(1.0), Some(260.0), Some(65.0), 50.0, 0.0, 0.0, 24.0, 0.0, 20.0, Normale)

  // ---------------------------------------------------------------------
  // Flour, water and salt
  // ---------------------------------------------------------------------

  /** The whole dough mass to produce; a missing ball count or weight makes it 0. */
  function TotalWeight(s: RecipeInputs): (r: real)
    ensures s.numBalls.None? || s.ballWeight.None? ==> r == 0.0
    ensures s.numBalls.Some? && s.ballWeight.Some? ==> r == s.numBalls.value * s.ballWeight.value
  {
    s.numBalls.GetOr(0.0) * s.ballWeight.GetOr(0.0)
  }

  /** Water, salt, fat and old dough as fractions of the flour mass (baker's percentages). */
  datatype Factors = Factors(h: real, salt: real, fat: real, pdr: real)

  /** Salt and fat are per litre of water, so their factors scale with `h`;
      a missing hydration makes the water, salt and fat factors all 0. */
  function FactorsOf(s: RecipeInputs): (r: Factors)
    ensures s.hydration.None? ==> r.h == 0.0 && r.salt == 0.0 && r.fat == 0.0
    ensures s.hydration.Some? ==> r.h * 100.0 == s.hydration.value
    ensures r.salt == (s.saltLit / 1000.0) * r.h && r.fat == (s.fatLit / 1000.0) * r.h
    ensures r.pdr * 100.0 == s.pdrPercent
  {
    var h := s.hydration.GetOr(0.0) / 100.0;
    Factors(h, (s.saltLit / 1000.0) * h, (s.fatLit / 1000.0) * h, s.pdrPercent / 100.0)
  }

  /** `1 + h + s + f + pdr`: the dough mass per unit of flour. */
  function Denominator(f: Factors): real
  {
    1.0 + f.h + f.salt + f.fat + f.pdr
  }

  /** The exact (unrounded) masses in grams. */
  datatype Partition = Partition(flour: real, water: real, salt: real)

  /**
   * The split of the dough mass. `None` when the denominator vanishes (only
   * possible for negative inputs, which are not clamped): the division then
   * yields an infinite or NaN flour mass.
   */
  function Split(s: RecipeInputs): (r: Option<Partition>)
    ensures r.None? <==> Denominator(FactorsOf(s)) == 0.0
    ensures r.Some? ==> r.value.water == r.value.flour * FactorsOf(s).h
    ensures r.Some? ==> r.value.salt == (r.value.water / 1000.0) * s.saltLit
  {
    var f := FactorsOf(s);
    var d := Denominator(f);
    if d == 0.0 then None
    else
      var flour := TotalWeight(s) / d;
      var water := flour * f.h;
      var saltG := (water / 1000.0) * s.saltLit;
      Some(Partition(flour, water, saltG))
  }

  /** The salt mass equals the flour mass times the salt factor. */
  lemma SaltIsFlourTimesSaltFactor(s: RecipeInputs)
    requires Split(s).Some?
    ensures Split(s).value.salt == Split(s).value.flour * FactorsOf(s).salt
  {
    var p, f := Split(s).value, FactorsOf(s);
    var n := s.saltLit;
    assert p.salt == (p.flour * f.h / 1000.0) * n;
    assert f.salt == (n / 1000.0) * f.h;
    assert (p.flour * f.h / 1000.0) * n == p.flour * ((n / 1000.0) * f.h);
  }

  /**
   * Conservation: flour, water, salt, and the fat and old-dough shares of
   * the flour add up exactly to the dough mass asked for.
   */
  lemma PartitionConservesMass(s: RecipeInputs)
    requires Split(s).Some?
    ensures var p, f := Split(s).value, FactorsOf(s);
      p.flour + p.water + p.salt + p.flour * f.fat + p.flour * f.pdr == TotalWeight(s)
  {
    var p, f := Split(s).value, FactorsOf(s);
    var d := Denominator(f);
    SaltIsFlourTimesSaltFactor(s);
    assert p.flour == TotalWeight(s) / d;
    assert p.flour + p.water + p.salt + p.flour * f.fat + p.flour * f.pdr == p.flour * d;
    assert TotalWeight(s) / d * d == TotalWeight(s);
  }

  // ---------------------------------------------------------------------
  // Yeast
  // ---------------------------------------------------------------------

  /** `Math.max(hoursTotal - hoursFridge * 0.8, 1)`: the leavening time the yeast formula divides by. */
  function TimeDivisor(hoursTotal: real, hoursFridge: real): (d: real)
    ensures 1.0 <= d
    ensures hoursTotal - hoursFridge * 0.8 <= d
    ensures d == 1.0 || d == hoursTotal - hoursFridge * 0.8
  {
    Max(hoursTotal - hoursFridge * 0.8, 1.0)
  }

  /**
   * `(flour * 2250) / (growth * divisor * 1000)`: the fresh yeast in grams,
   * inversely proportional to the temperature factor and the time.
   */
  function Yeast(flour: real, growth: real, divisor: real): (y: real)
    requires 0.0 < growth && 1.0 <= divisor
    ensures y * (growth * divisor * 1000.0) == flour * 2250.0
  {
    (flour * 2250.0) / (growth * divisor * 1000.0)
  }

  /** For a non-negative flour mass the yeast is non-negative and at most what one hour of leavening would need. */
  lemma YeastBounds(flour: real, growth: real, divisor: real)
    requires 0.0 <= flour && 0.0 < growth && 1.0 <= divisor
    ensures 0.0 <= Yeast(flour, growth, divisor) <= Yeast(flour, growth, 1.0)
  {
    var y, y1 := Yeast(flour, growth, divisor), Yeast(flour, growth, 1.0);
    var k := growth * 1000.0;
    assert y * (k * divisor) == flour * 2250.0;
    assert y1 * k == flour * 2250.0;
    assert 0.0 < k * divisor;
    assert 0.0 <= y;
    assert (y1 - y) * k == y * k * (divisor - 1.0);
    assert 0.0 <= y * k * (divisor - 1.0);
  }

  // ---------------------------------------------------------------------
  // Suggested flour strength
  // ---------------------------------------------------------------------

  /** The four suggestions, for shortest to longest leavening; `Category()` gives the label shown. */
  datatype Advice = AdviceDebole | AdviceMedia | AdviceMoltoForte | AdviceEstrapolita {

    function Rank(): nat
    {
      match this
      case AdviceDebole => 0
      case AdviceMedia => 1
      case AdviceMoltoForte => 2
      case AdviceEstrapolita => 3
    }

    /** The W range shown. */
    function Range(): string
    {
      match this
      case AdviceDebole => "W 180 - 220"
      case AdviceMedia => "W 230 - 270"
      case AdviceMoltoForte => "W 300 - 340"
      case AdviceEstrapolita => "W 360+"
    }

    /** The category label shown. */
    function Category(): string
    {
      match this
      case AdviceDebole => "Debole"
      case AdviceMedia => "Media"
      case AdviceMoltoForte => "Molto Forte"
      case AdviceEstrapolita => "Estrapolita"
    }
  }

  /** The hour ranges of the suggestions; 18 to 36 hours both included in the third. */
  predicate InHoursRange(hours: real, a: Advice)
  {
    match a
    case AdviceDebole => hours < 12.0
    case AdviceMedia => 12.0 <= hours < 18.0
    case AdviceMoltoForte => 18.0 <= hours <= 36.0
    case AdviceEstrapolita => 36.0 < hours
  }

  /** "Molto Forte" unless fewer than 12, fewer than 18 or more than 36 hours. */
  function AdviceForHours(hours: real): (a: Advice)
    ensures InHoursRange(hours, a)
  {
    if hours < 12.0 then AdviceDebole
    else if hours < 18.0 then AdviceMedia
    else if hours > 36.0 then AdviceEstrapolita
    else AdviceMoltoForte
  }

  /** Every number of hours lies in exactly one range, the one `AdviceForHours` picks. */
  lemma AdviceUnique(hours: real, a: Advice)
    requires InHoursRange(hours, a)
    ensures a == AdviceForHours(hours)
  {
  }

  /** Longer leavening never suggests a weaker flour. */
  lemma AdviceMonotone(h1: real, h2: real)
    requires h1 <= h2
    ensures AdviceForHours(h1).Rank() <= AdviceForHours(h2).Rank()
  {
  }

  /** At the thresholds: 12 hours is "Media", 18 and 36 hours are Molto Forte. */
  lemma AdviceBoundaries()
    ensures AdviceForHours(11.9) == AdviceDebole && AdviceForHours(12.0) == AdviceMedia
    ensures AdviceForHours(18.0) == AdviceMoltoForte && AdviceForHours(36.0) == AdviceMoltoForte
    ensures AdviceForHours(36.1) == AdviceEstrapolita
  {
  }

  // ---------------------------------------------------------------------
  // The whole result
  // ---------------------------------------------------------------------

  /** The displayed quantities: whole grams of flour, water and salt; yeast and dry yeast to the hundredth. */
  datatype Amounts = Amounts(flour: int, water: int, salt: int, yeast: real, dry: real)

  /** `amounts` is `None` when the masses are not finite numbers. */
  datatype Recipe = Recipe(amounts: Option<Amounts>, strength: string, cat: string)

  /** The fresh yeast, unrounded, for a given split. */
  function YeastOf(s: RecipeInputs, p: Partition, growth: real -> real): real
    requires 0.0 < growth(s.tempRoom)
  {
    Yeast(p.flour, growth(s.tempRoom), TimeDivisor(s.hoursTotal, s.hoursFridge))
  }

  /** The memoised computation of the recipe card. */
  function Compute(s: RecipeInputs, growth: real -> real): (r: Recipe)
    requires 0.0 < growth(s.tempRoom)
    ensures r.amounts.None? <==> Denominator(FactorsOf(s)) == 0.0
    ensures r.amounts.Some? ==>
      var p, a := Split(s).value, r.amounts.value;
      && a.flour as real - 0.5 <= p.flour < a.flour as real + 0.5
      && a.water as real - 0.5 <= p.water < a.water as real + 0.5
      && a.salt as real - 0.5 <= p.salt < a.salt as real + 0.5
      && a.yeast == RoundCents(YeastOf(s, p, growth))
      && a.dry == RoundCents(YeastOf(s, p, growth) / 3.0)
    ensures InHoursRange(s.hoursTotal, AdviceForHours(s.hoursTotal))
    ensures r.strength == AdviceForHours(s.hoursTotal).Range()
    ensures r.cat == AdviceForHours(s.hoursTotal).Category()
  {
    var advice := AdviceForHours(s.hoursTotal);
    var amounts := match Split(s)
      case None => None
      case Some(p) =>
        var yeast := YeastOf(s, p, growth);
        Some(Amounts(Round(p.flour), Round(p.water), Round(p.salt), RoundCents(yeast), RoundCents(yeast / 3.0)));
    Recipe(amounts, advice.Range(), advice.Category())
  }

  /** The pan toggle and the old-dough vigour do not change any output. */
  lemma PanAndPdrTypeIgnored(s: RecipeInputs, isTeglia: bool, pdrType: PdrType, growth: real -> real)
    requires 0.0 < growth(s.tempRoom)
    ensures Compute(s.(isTeglia := isTeglia, pdrType := pdrType), growth) == Compute(s, growth)
  {
    var s' := s.(isTeglia := isTeglia, pdrType := pdrType);
    assert TotalWeight(s') == TotalWeight(s) && FactorsOf(s') == FactorsOf(s);
    assert s'.saltLit == s.saltLit;
    var d := Denominator(FactorsOf(s));
    if d != 0.0 {
      var flour := TotalWeight(s) / d;
      assert Split(s').value.flour == flour;
      assert Split(s).value.flour == flour;
      assert Split(s').value.water == Split(s).value.water;
      assert Split(s').value.salt == Split(s).value.salt;
      assert Split(s') == Split(s);
    } else {
      assert Split(s') == Split(s);
    }
    if Split(s).Some? {
      assert YeastOf(s', Split(s).value, growth) == YeastOf(s, Split(s).value, growth);
    }
  }

  /** The opening state gives 155 g of flour, 100 g of water and 5 g of salt, and suggests W 300 - 340. */
  lemma DefaultRecipe(growth: real -> real)
    requires 0.0 < growth(20.0)
    ensures Compute(Defaults, growth).amounts.Some?
    ensures var a := Compute(Defaults, growth).amounts.value;
      a.flour == 155 && a.water == 100 && a.salt == 5
    ensures Compute(Defaults, growth).strength == "W 300 - 340"
    ensures Compute(Defaults, growth).cat == "Molto Forte"
  {
    var f := FactorsOf(Defaults);
    assert f == Factors(0.65, 0.0325, 0.0, 0.0);
    assert Denominator(f) == 1.6825;
    var p := Split(Defaults).value;
    assert p.flour == 104000.0 / 673.0;
    assert p.water == 67600.0 / 673.0;
    assert p.salt == 3380.0 / 673.0;
  }
}
