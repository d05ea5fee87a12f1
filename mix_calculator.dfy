/**
 * The flour-blend calculator ("Mix Farine"): two or three flours, each given
 * by its strength W and its mass in grams, are blended into one weighted
 * strength, which is then classified into one of five bakers' categories.
 *
 * The table of entries keeps the raw text the user typed; `parseFloat` is a
 * parameter `parse` of the calculation, with `None` standing for NaN.
 */
module MixCalculator {
  import opened Wrappers
  import opened JsMath

  // ---------------------------------------------------------------------
  // The table of flours and its updates
  // ---------------------------------------------------------------------

  /** One row of the flour table: its id and the text of its two inputs. */
  datatype FlourEntry = FlourEntry(id: int, w: string, grams: string)

  /** The two editable inputs of a row. */
  datatype Field = W | Grams

  function FieldOf(e: FlourEntry, f: Field): string
  {
    match f
    case W => e.w
    case Grams => e.grams
  }

  /** The three empty rows, with ids 1, 2 and 3, the table starts with. */
  function InitialFlours(): (r: seq<FlourEntry>)
    ensures |r| == 3
    ensures forall i :: 0 <= i < 3 ==> r[i].id == i + 1 && r[i].w == "" && r[i].grams == ""
  {
    [FlourEntry(1, "", ""), FlourEntry(2, "", ""), FlourEntry(3, "", "")]
  }

  /**
   * A copy of the table in which row `index` has `field` replaced by
   * `value`: only that field of that row changes, the row keeps its id.
   */
  function SetField(fs: seq<FlourEntry>, index: nat, field: Field, value: string): (r: seq<FlourEntry>)
    requires index < |fs|
    ensures |r| == |fs|
    ensures forall j :: 0 <= j < |fs| && j != index ==> r[j] == fs[j]
    ensures r[index].id == fs[index].id
    ensures FieldOf(r[index], field) == value
    ensures forall f: Field :: f != field ==> FieldOf(r[index], f) == FieldOf(fs[index], f)
  {
    var e := fs[index];
    var e' := match field
      case W => e.(w := value)
      case Grams => e.(grams := value);
    fs[index := e']
  }

  /** The state of the blend screen: how many flours are used, and the rows. */
  class MixState {
    var mode: nat
    var flours: seq<FlourEntry>

    ghost predicate Valid()
      reads this
    {
      (mode == 2 || mode == 3) && |flours| == 3
    }

    /** Two flours, three empty rows. */
    constructor ()
      ensures Valid()
      ensures mode == 2 && flours == InitialFlours()
    {
      mode := 2;
      flours := InitialFlours();
    }

    /** The "2" / "3" toggle. */
    method SetMode(m: nat)
      requires Valid()
      requires m == 2 || m == 3
      modifies this
      ensures Valid()
      ensures mode == m && flours == old(flours)
    {
      mode := m;
    }

    /** Typing into one input of one row. */
    method HandleInputChange(index: nat, field: Field, value: string)
      requires Valid()
      requires index < |flours|
      modifies this
      ensures Valid()
      ensures mode == old(mode)
      ensures flours == SetField(old(flours), index, field, value)
    {
      flours := SetField(flours, index, field, value);
    }

    /** The reset button: every row emptied, ids restored, mode kept. */
    method HandleReset()
      requires Valid()
      modifies this
      ensures Valid()
      ensures mode == old(mode)
      ensures flours == InitialFlours()
    {
      flours := InitialFlours();
    }

    /** The blend the screen shows for its current state: the first `mode` rows. */
    method Result(parse: string -> Option<real>) returns (r: MixResult)
      requires Valid()
      ensures r == Blend(Readings(flours[..mode], parse))
    {
      r := MixCalculation(flours, mode, parse);
    }
  }

  // ---------------------------------------------------------------------
  // The blended strength
  // ---------------------------------------------------------------------

  /** A row's two inputs after `parseFloat`; `None` is NaN. */
  datatype Reading = Reading(w: Option<real>, grams: Option<real>)

  function ReadingOf(e: FlourEntry, parse: string -> Option<real>): Reading
  {
    Reading(parse(e.w), parse(e.grams))
  }

  function Readings(fs: seq<FlourEntry>, parse: string -> Option<real>): seq<Reading>
  {
    seq(|fs|, i requires 0 <= i < |fs| => ReadingOf(fs[i], parse))
  }

  /** The strength and mass of a row whose two inputs both parsed. */
  datatype Contribution = Contribution(w: real, grams: real)

  function ContributionOf(r: Reading): seq<Contribution>
  {
    if r.w.Some? && r.grams.Some? then [Contribution(r.w.value, r.grams.value)] else []
  }

  /** The rows that take part in the blend, in order: those whose inputs both parse. */
  function Contributions(rs: seq<Reading>): seq<Contribution>
  {
    if rs == [] then [] else Contributions(rs[..|rs| - 1]) + ContributionOf(rs[|rs| - 1])
  }

  /** What a taking-part row adds to the weighted sum: strength times mass. */
  function Product(c: Contribution): real
  {
    c.w * c.grams
  }

  /** What a taking-part row adds to the total mass. */
  function Mass(c: Contribution): real
  {
    c.grams
  }

  function Sum(cs: seq<Contribution>, f: Contribution -> real): real
  {
    if cs == [] then 0.0 else Sum(cs[..|cs| - 1], f) + f(cs[|cs| - 1])
  }

  /** The sum of strength times mass. */
  function WeightedSum(cs: seq<Contribution>): real
  {
    Sum(cs, Product)
  }

  /** The sum of masses. */
  function GramSum(cs: seq<Contribution>): real
  {
    Sum(cs, Mass)
  }

  /** What the blend screen shows: the rounded strength and the total mass. */
  datatype MixResult = MixResult(resultW: int, totalGrams: real)

  /** The blend of the given rows, as a specification. */
  function Blend(rs: seq<Reading>): MixResult
  {
    var cs := Contributions(rs);
    var g := GramSum(cs);
    MixResult(if g == 0.0 then 0 else Round(WeightedSum(cs) / g), g)
  }

  /**
   * The loop over the first `mode` rows: both running sums grow only for a
   * row whose strength and mass both parse.
   */
  method MixCalculation(flours: seq<FlourEntry>, mode: nat, parse: string -> Option<real>)
    returns (result: MixResult)
    requires mode <= |flours|
    ensures result == Blend(Readings(flours[..mode], parse))
  {
    ghost var rs := Readings(flours[..mode], parse);
    ghost var seen: seq<Reading> := [];
    var totalW := 0.0;
    var totGrams := 0.0;
    var i := 0;
    while i < mode
      invariant 0 <= i <= mode
      invariant seen == rs[..i]
      invariant totalW == WeightedSum(Contributions(seen))
      invariant totGrams == GramSum(Contributions(seen))
    {
      var w := parse(flours[i].w);
      var g := parse(flours[i].grams);
      ghost var row := Reading(w, g);
      assert rs[..i + 1] == seen + [row];
      assert WeightedSum(Contributions(seen + [row])) == totalW + WeightOf(row)
          && GramSum(Contributions(seen + [row])) == totGrams + MassOf(row) by {
        ContributionsSnoc(seen, row);
      }
      if w.Some? && g.Some? {
        totalW := totalW + w.value * g.value;
        totGrams := totGrams + g.value;
      }
      seen := seen + [row];
      i := i + 1;
    }
    assert seen == rs;
    var calculatedW := if totGrams == 0.0 then 0 else Round(totalW / totGrams);
    result := MixResult(calculatedW, totGrams);
  }

  /** What one row adds to the weighted sum... */
  function WeightOf(r: Reading): real
  {
    if r.w.Some? && r.grams.Some? then r.w.value * r.grams.value else 0.0
  }

  /** ...and to the total mass. */
  function MassOf(r: Reading): real
  {
    if r.w.Some? && r.grams.Some? then r.grams.value else 0.0
  }

  /** One more row adds its own contribution, if any, to both sums. */
  lemma ContributionsSnoc(rs: seq<Reading>, r: Reading)
    ensures WeightedSum(Contributions(rs + [r])) == WeightedSum(Contributions(rs)) + WeightOf(r)
    ensures GramSum(Contributions(rs + [r])) == GramSum(Contributions(rs)) + MassOf(r)
  {
    assert (rs + [r])[..|rs|] == rs;
    var cs := Contributions(rs + [r]);
    if r.w.Some? && r.grams.Some? {
      assert cs[..|cs| - 1] == Contributions(rs);
    } else {
      assert cs == Contributions(rs);
    }
  }

  /** The meaning of a blend: total mass of the taking-part rows, and the nearest integer to their weighted average. */
  lemma BlendMeaning(rs: seq<Reading>)
    ensures Blend(rs).totalGrams == GramSum(Contributions(rs))
    ensures Blend(rs).totalGrams == 0.0 ==> Blend(rs).resultW == 0
    ensures Blend(rs).totalGrams != 0.0 ==>
      var avg := WeightedSum(Contributions(rs)) / Blend(rs).totalGrams;
      Blend(rs).resultW as real - 0.5 <= avg < Blend(rs).resultW as real + 0.5
  {
  }

  // Filtering and summing distribute over concatenation.

  lemma {:induction false} ContributionsAppend(a: seq<Reading>, b: seq<Reading>)
    ensures Contributions(a + b) == Contributions(a) + Contributions(b)
    decreases |b|
  {
    if b == [] {
      assert a + b == a;
    } else {
      var b' := b[..|b| - 1];
      assert (a + b)[..|a + b| - 1] == a + b';
      ContributionsAppend(a, b');
    }
  }

  lemma {:induction false} SumAppend(a: seq<Contribution>, b: seq<Contribution>, f: Contribution -> real)
    ensures Sum(a + b, f) == Sum(a, f) + Sum(b, f)
    decreases |b|
  {
    if b == [] {
      assert a + b == a;
    } else {
      var b' := b[..|b| - 1];
      assert (a + b)[..|a + b| - 1] == a + b';
      SumAppend(a, b', f);
    }
  }

  /** Taking one row out of the middle removes exactly its contribution. */
  lemma {:induction false} SumWithout(b: seq<Reading>, k: nat, f: Contribution -> real)
    requires k < |b|
    ensures Sum(Contributions(b), f)
         == Sum(Contributions(b[..k] + b[k + 1..]), f) + Sum(ContributionOf(b[k]), f)
  {
    var c1, cx, c2 := Contributions(b[..k]), ContributionOf(b[k]), Contributions(b[k + 1..]);
    assert b == b[..k] + [b[k]] + b[k + 1..];
    ContributionsAppend(b[..k] + [b[k]], b[k + 1..]);
    ContributionsAppend(b[..k], [b[k]]);
    ContributionsAppend(b[..k], b[k + 1..]);
    assert Contributions([b[k]]) == cx by {
      assert [b[k]][..0] == [];
    }
    assert Contributions(b) == c1 + cx + c2;
    SumAppend(c1 + cx, c2, f);
    SumAppend(c1, cx, f);
    SumAppend(c1, c2, f);
  }

  /** Removing the same element from two permutations of each other leaves permutations. */
  lemma RemoveLast(a: seq<Reading>, b: seq<Reading>, k: nat)
    requires multiset(a) == multiset(b) && a != [] && k < |b| && b[k] == a[|a| - 1]
    ensures multiset(a[..|a| - 1]) == multiset(b[..k] + b[k + 1..])
  {
    var x, a', b' := a[|a| - 1], a[..|a| - 1], b[..k] + b[k + 1..];
    assert a == a' + [x];
    assert b == b[..k] + [x] + b[k + 1..];
    assert multiset(b) == multiset(b[..k]) + multiset([x]) + multiset(b[k + 1..]);
    assert multiset(b') == multiset(b[..k]) + multiset(b[k + 1..]);
    assert multiset(a') == multiset(a) - multiset([x]);
    assert multiset(b') == multiset(b) - multiset([x]);
  }

  /** A sum over the taking-part rows is the same for any reordering of the rows. */
  lemma {:induction false} SumPermutationInvariant(a: seq<Reading>, b: seq<Reading>, f: Contribution -> real)
    requires multiset(a) == multiset(b)
    ensures Sum(Contributions(a), f) == Sum(Contributions(b), f)
    decreases |a|
  {
    if a == [] {
      assert |b| == |multiset(b)| == 0;
    } else {
      var x := a[|a| - 1];
      var a' := a[..|a| - 1];
      assert x in multiset(b) by {
        assert a == a' + [x];
      }
      var k :| 0 <= k < |b| && b[k] == x;
      RemoveLast(a, b, k);
      SumPermutationInvariant(a', b[..k] + b[k + 1..], f);
      SumAppend(Contributions(a'), ContributionOf(x), f);
      SumWithout(b, k, f);
    }
  }

  /** Reordering the rows leaves the blend unchanged. */
  lemma BlendPermutationInvariant(a: seq<Reading>, b: seq<Reading>)
    requires multiset(a) == multiset(b)
    ensures Blend(a) == Blend(b)
  {
    SumPermutationInvariant(a, b, Product);
    SumPermutationInvariant(a, b, Mass);
  }

  /** A sum of terms each no larger than another's is no larger. */
  lemma {:induction false} SumMonotone(cs: seq<Contribution>, f: Contribution -> real, g: Contribution -> real)
    requires forall i :: 0 <= i < |cs| ==> f(cs[i]) <= g(cs[i])
    ensures Sum(cs, f) <= Sum(cs, g)
  {
    if cs != [] {
      SumMonotone(cs[..|cs| - 1], f, g);
    }
  }

  /** Scaling every term scales the sum. */
  lemma {:induction false} SumScale(cs: seq<Contribution>, k: real, f: Contribution -> real, g: Contribution -> real)
    requires forall c :: g(c) == k * f(c)
    ensures Sum(cs, g) == k * Sum(cs, f)
  {
    if cs != [] {
      var cs' := cs[..|cs| - 1];
      SumScale(cs', k, f, g);
      var s', x := Sum(cs', f), f(cs[|cs| - 1]);
      assert k * (s' + x) == k * s' + k * x;
    }
  }

  /** Non-negative masses have a non-negative total. */
  lemma {:induction false} GramSumNonNegative(cs: seq<Contribution>)
    requires forall i :: 0 <= i < |cs| ==> 0.0 <= cs[i].grams
    ensures 0.0 <= GramSum(cs)
  {
    if cs != [] {
      GramSumNonNegative(cs[..|cs| - 1]);
    }
  }

  /** With non-negative masses, strengths of at least lo give a weighted sum of at least lo times the mass. */
  lemma WeightedSumAtLeast(cs: seq<Contribution>, lo: real)
    requires forall i :: 0 <= i < |cs| ==> 0.0 <= cs[i].grams && lo <= cs[i].w
    ensures lo * GramSum(cs) <= WeightedSum(cs)
  {
    var low := (c: Contribution) => lo * c.grams;
    forall i | 0 <= i < |cs|
      ensures low(cs[i]) <= Product(cs[i])
    {
      ScaledBounds(cs[i].w, cs[i].grams, lo, cs[i].w);
    }
    SumScale(cs, lo, Mass, low);
    SumMonotone(cs, low, Product);
  }

  /** With non-negative masses, strengths of at most hi give a weighted sum of at most hi times the mass. */
  lemma WeightedSumAtMost(cs: seq<Contribution>, hi: real)
    requires forall i :: 0 <= i < |cs| ==> 0.0 <= cs[i].grams && cs[i].w <= hi
    ensures WeightedSum(cs) <= hi * GramSum(cs)
  {
    var high := (c: Contribution) => hi * c.grams;
    forall i | 0 <= i < |cs|
      ensures Product(cs[i]) <= high(cs[i])
    {
      ScaledBounds(cs[i].w, cs[i].grams, cs[i].w, hi);
    }
    SumScale(cs, hi, Mass, high);
    SumMonotone(cs, Product, high);
  }

  lemma ScaledBounds(w: real, g: real, lo: real, hi: real)
    requires 0.0 <= g && lo <= w <= hi
    ensures lo * g <= w * g <= hi * g
  {
    assert (w - lo) * g >= 0.0;
    assert (hi - w) * g >= 0.0;
  }

  lemma QuotientBounds(s: real, g: real, lo: real, hi: real)
    requires 0.0 < g && lo * g <= s <= hi * g
    ensures lo <= s / g <= hi
  {
    var q := s / g;
    assert q * g == s;
    assert (q - lo) * g >= 0.0;
    assert (hi - q) * g >= 0.0;
  }

  /**
   * With non-negative masses and a positive total, the weighted average lies
   * between any bounds of the strengths (in particular between their minimum
   * and maximum).
   */
  lemma AverageWithinStrengths(cs: seq<Contribution>, lo: real, hi: real)
    requires forall i :: 0 <= i < |cs| ==> 0.0 <= cs[i].grams && lo <= cs[i].w <= hi
    requires 0.0 < GramSum(cs)
    ensures lo <= WeightedSum(cs) / GramSum(cs) <= hi
  {
    var w, g := WeightedSum(cs), GramSum(cs);
    assert lo * g <= w by { WeightedSumAtLeast(cs, lo); }
    assert w <= hi * g by { WeightedSumAtMost(cs, hi); }
    QuotientBounds(w, g, lo, hi);
  }

  /**
   * The same for the rows taking part in a blend; when the bounds are whole
   * numbers, the rounded strength lies between them too.
   */
  lemma BlendWithinStrengths(rs: seq<Reading>, lo: int, hi: int)
    requires forall c :: c in Contributions(rs) ==> 0.0 <= c.grams && lo as real <= c.w <= hi as real
    requires 0.0 < GramSum(Contributions(rs))
    ensures lo as real <= WeightedSum(Contributions(rs)) / GramSum(Contributions(rs)) <= hi as real
    ensures lo <= Blend(rs).resultW <= hi
  {
    var cs := Contributions(rs);
    assert forall i :: 0 <= i < |cs| ==> cs[i] in cs;
    AverageWithinStrengths(cs, lo as real, hi as real);
    RoundBetween(lo, WeightedSum(cs) / GramSum(cs), hi);
  }

  /** In two-flour mode, editing the hidden third row does not change the blend. */
  lemma ThirdRowIgnoredInTwoFlourMode(fs: seq<FlourEntry>, field: Field, value: string, parse: string -> Option<real>)
    requires |fs| == 3
    ensures Blend(Readings(SetField(fs, 2, field, value)[..2], parse)) == Blend(Readings(fs[..2], parse))
  {
    assert SetField(fs, 2, field, value)[..2] == fs[..2];
  }

  /** After a reset, when `parse` reads an empty input as NaN, the blend is empty and there is no analysis. */
  lemma ResetGivesEmptyBlend(mode: nat, parse: string -> Option<real>)
    requires mode <= 3
    requires parse("") == None
    ensures Blend(Readings(InitialFlours()[..mode], parse)) == MixResult(0, 0.0)
    ensures Analyze(Blend(Readings(InitialFlours()[..mode], parse)).resultW) == None
  {
    var rs := Readings(InitialFlours()[..mode], parse);
    NoContributionsWhenUnparsed(rs);
  }

  /** When no row has both inputs parsed, no row takes part. */
  lemma {:induction false} NoContributionsWhenUnparsed(rs: seq<Reading>)
    requires forall i :: 0 <= i < |rs| ==> !(rs[i].w.Some? && rs[i].grams.Some?)
    ensures Contributions(rs) == []
  {
    if rs != [] {
      NoContributionsWhenUnparsed(rs[..|rs| - 1]);
    }
  }

  /** A row whose strength or mass does not parse, wherever it stands, changes neither sum nor the blend. */
  lemma UnparsedRowIgnored(before: seq<Reading>, r: Reading, after: seq<Reading>)
    requires !(r.w.Some? && r.grams.Some?)
    ensures Contributions(before + [r] + after) == Contributions(before + after)
    ensures Blend(before + [r] + after) == Blend(before + after)
  {
    var cb, ca := Contributions(before), Contributions(after);
    assert Contributions([r]) == [] by {
      assert [r][..0] == [];
    }
    assert Contributions(before + [r]) == cb by {
      ContributionsAppend(before, [r]);
      assert cb + [] == cb;
    }
    ContributionsAppend(before + [r], after);
    ContributionsAppend(before, after);
  }

  /** Every row taking part comes from a row whose strength and mass both parsed to its values. */
  lemma {:induction false} ContributionsFromParsedRows(rs: seq<Reading>)
    ensures forall c :: c in Contributions(rs) ==>
      exists i :: 0 <= i < |rs| && rs[i].w == Some(c.w) && rs[i].grams == Some(c.grams)
  {
    if rs != [] {
      var init := rs[..|rs| - 1];
      ContributionsFromParsedRows(init);
      forall c | c in Contributions(rs)
        ensures exists i :: 0 <= i < |rs| && rs[i].w == Some(c.w) && rs[i].grams == Some(c.grams)
      {
        if c in Contributions(init) {
          var i :| 0 <= i < |init| && init[i].w == Some(c.w) && init[i].grams == Some(c.grams);
          assert rs[i] == init[i];
        } else {
          assert c in ContributionOf(rs[|rs| - 1]);
          assert rs[|rs| - 1].w == Some(c.w) && rs[|rs| - 1].grams == Some(c.grams);
        }
      }
    }
  }

  // ---------------------------------------------------------------------
  // The expert analysis of the blended strength
  // ---------------------------------------------------------------------

  /** The five flour categories, weakest first. */
  datatype Band = Debole | Media | Forte | MoltoForte | Speciale {

    /** Position in the order weakest to strongest. */
    function Rank(): nat
    {
      match this
      case Debole => 0
      case Media => 1
      case Forte => 2
      case MoltoForte => 3
      case Speciale => 4
    }

    function Category(): string
    {
      match this
      case Debole => "Farina Debole"
      case Media => "Farina Media"
      case Forte => "Farina Forte"
      case MoltoForte => "Farina Molto Forte"
      case Speciale => "Farina Speciale / Manitoba"
    }

    function Fermentation(): string
    {
      match this
      case Debole => "Breve (2 - 4 ore)"
      case Media => "Medio-Breve (4 - 8 ore)"
      case Forte => "Media (8 - 24 ore)"
      case MoltoForte => "Lunga (24 - 48 ore)"
      case Speciale => "Molto Lunga (48+ ore)"
    }

    /** Recommended hydration range, in percent. */
    function HydrationMin(): int
    {
      match this
      case Debole => 50
      case Media => 55
      case Forte => 60
      case MoltoForte => 70
      case Speciale => 80
    }

    function HydrationMax(): int
    {
      match this
      case Debole => 55
      case Media => 60
      case Forte => 70
      case MoltoForte => 80
      case Speciale => 90
    }
  }

  /** The strength ranges of the categories: lower bounds inclusive, upper bounds exclusive. */
  predicate InBand(w: int, b: Band)
  {
    match b
    case Debole => w < 180
    case Media => 180 <= w < 240
    case Forte => 240 <= w < 300
    case MoltoForte => 300 <= w < 350
    case Speciale => 350 <= w
  }

  /** The if/else chain on the blended strength. */
  function Classify(w: int): (b: Band)
    ensures InBand(w, b)
  {
    if w < 180 then Debole
    else if w < 240 then Media
    else if w < 300 then Forte
    else if w < 350 then MoltoForte
    else Speciale
  }

  /** Every strength lies in exactly one range, the one `Classify` picks. */
  lemma ClassifyUnique(w: int, b: Band)
    requires InBand(w, b)
    ensures b == Classify(w)
  {
  }

  /** A stronger blend never gets a weaker category. */
  lemma ClassifyMonotone(w1: int, w2: int)
    requires w1 <= w2
    ensures Classify(w1).Rank() <= Classify(w2).Rank()
  {
  }

  /** The boundary strengths belong to the upper category. */
  lemma ClassifyBoundaries()
    ensures Classify(179) == Debole
    ensures Classify(180) == Media
    ensures Classify(239) == Media && Classify(240) == Forte
    ensures Classify(299) == Forte && Classify(300) == MoltoForte
    ensures Classify(349) == MoltoForte && Classify(350) == Speciale
  {
  }

  /** Each hydration range is non-empty and ends where the next category's begins. */
  lemma HydrationRangesChain(b: Band, next: Band)
    ensures b.HydrationMin() < b.HydrationMax()
    ensures next.Rank() == b.Rank() + 1 ==> b.HydrationMax() == next.HydrationMin()
  {
  }

  /** `Math.min((resultW / 450) * 100, 100)`: the needle position on the strength gauge. */
  function Gauge(w: int): (p: real)
    ensures p <= 100.0
    ensures 450 <= w ==> p == 100.0
    ensures w < 450 ==> p * 4.5 == w as real
    ensures 0 <= w ==> 0.0 <= p
  {
    Min((w as real / 450.0) * 100.0, 100.0)
  }

  /** The needle never moves back as the strength grows. */
  lemma GaugeMonotone(w1: int, w2: int)
    requires w1 <= w2
    ensures Gauge(w1) <= Gauge(w2)
  {
  }

  /** The analysis shown for a blend: the category chosen and the gauge position. */
  datatype Analysis = Analysis(band: Band, wPercentage: real)

  /** No analysis for a zero strength; otherwise the category and the gauge. */
  function Analyze(resultW: int): (r: Option<Analysis>)
    ensures r.None? <==> resultW == 0
    ensures r.Some? ==> InBand(resultW, r.value.band) && r.value.wPercentage == Gauge(resultW)
  {
    if resultW == 0 then None else Some(Analysis(Classify(resultW), Gauge(resultW)))
  }
}
