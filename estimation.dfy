/**
 * The estimation engine: from a headcount, a vibe and four participation
 * shares to per-substance totals, packaging units and a five-row breakdown.
 */
module Estimation {
  import opened Rounding
  import opened Presets
  import opened Inputs
  import opened VibeDisplay

  /** The form state the engine reads; shares are percentages. */
  datatype Input = Input(
    headcount: int,
    vibe: Vibe,
    beerShare: real,
    liquorShare: real,
    weedShare: real,
    cokeShare: real)
  {
    /** What the share inputs guarantee after clamping. */
    predicate SharesInRange() {
      && 0.0 <= beerShare <= 100.0
      && 0.0 <= liquorShare <= 100.0
      && 0.0 <= weedShare <= 100.0
      && 0.0 <= cokeShare <= 100.0
    }
  }

  /** The form's initial state. */
  const DefaultInput: Input := Input(25, Chill, 60.0, 30.0, 25.0, 5.0)

  /** Twelve-ounce servings in a half-barrel keg. */
  const ServingsPerKeg: real := 165.0
  /** Standard shots in a 750 mL bottle. */
  const ShotsPerFifth: real := 17.0
  /** Standard shots in a 1.75 L bottle. */
  const ShotsPerHandle: real := 39.0
  /** Grams in an ounce. */
  const GramsPerOunce: real := 28.0
  /** Grams in an eighth of an ounce. */
  const GramsPerEighth: real := 3.5

  lemma ProductMonotone(a: real, b: real, c: real, d: real)
    requires 0.0 <= a <= b && 0.0 <= c <= d
    ensures a * c <= b * d
  {
    assert a * c <= b * c;
    assert b * c <= b * d;
  }

  /** A product of two non-negative factors is non-negative. */
  lemma ProductNonNegative(a: real, b: real)
    ensures 0.0 <= a && 0.0 <= b ==> 0.0 <= a * b
  {
    if 0.0 <= a && 0.0 <= b {
      ProductMonotone(0.0, a, 0.0, b);
    }
  }

  /** A share in [0, 100] of at least one guest lies between none and all of them. */
  lemma ShareOfHeadBounds(head: int, share: real)
    ensures 1 <= head && 0.0 <= share <= 100.0 ==>
      0.0 <= head as real * (share / 100.0) <= head as real
  {
    if 1 <= head && 0.0 <= share <= 100.0 {
      ProductMonotone(head as real, head as real, share / 100.0, 1.0);
      ProductMonotone(0.0, head as real, 0.0, share / 100.0);
    }
  }

  /** How many of `head` guests take part at a share of `share` percent. */
  function Participants(head: int, share: real): (n: int)
    ensures 1 <= head && 0.0 <= share <= 100.0 ==> 0 <= n <= head
  {
    ShareOfHeadBounds(head, share);
    RoundHalfUp(head as real * (share / 100.0))
  }

  datatype Beer = Beer(totalBeers: real, cans12: int, kegs: real)

  /** The beer figures for `drinkers` guests at `beerPer` servings each. */
  function BeerPlan(drinkers: int, beerPer: real): (b: Beer)
    ensures b.totalBeers <= b.cans12 as real < b.totalBeers + 1.0
    ensures IsCents(b.kegs)
    ensures 0 <= drinkers && 0.0 <= beerPer ==>
      0.0 <= b.totalBeers && 0 <= b.cans12 && 0.0 <= b.kegs
  {
    var totalBeers := drinkers as real * beerPer;
    ProductNonNegative(drinkers as real, beerPer);
    Beer(totalBeers, Ceil(totalBeers / 1.0), Round2(totalBeers / ServingsPerKeg))
  }

  datatype Liquor = Liquor(totalDrinks: real, shots: real, fifths: real, handles: real)

  /** One standard drink is one shot: no rounding before the bottle counts. */
  function LiquorPlan(spiritPeople: int, drinksPer: real): (l: Liquor)
    ensures IsCents(l.fifths) && IsCents(l.handles)
    ensures 0 <= spiritPeople && 0.0 <= drinksPer ==>
      0.0 <= l.shots && 0.0 <= l.fifths && 0.0 <= l.handles
  {
    var totalDrinks := spiritPeople as real * drinksPer;
    ProductNonNegative(spiritPeople as real, drinksPer);
    var shots := totalDrinks;
    Liquor(totalDrinks, shots, Round2(shots / ShotsPerFifth), Round2(shots / ShotsPerHandle))
  }

  datatype Weed = Weed(totalGrams: real, ounces: real)

  function WeedPlan(users: int, weedPer: real): (w: Weed)
    ensures IsCents(w.totalGrams) && IsCents(w.ounces)
    ensures 0 <= users && 0.0 <= weedPer ==> 0.0 <= w.totalGrams && 0.0 <= w.ounces
  {
    ProductNonNegative(users as real, weedPer);
    var totalGrams := Round2(users as real * weedPer);
    Weed(totalGrams, Round2(totalGrams / GramsPerOunce))
  }

  datatype Coke = Coke(totalGrams: real, eighths: real)

  function CokePlan(users: int, cokePer: real): (c: Coke)
    ensures IsCents(c.totalGrams) && IsCents(c.eighths)
    ensures 0 <= users && 0.0 <= cokePer ==> 0.0 <= c.totalGrams && 0.0 <= c.eighths
  {
    ProductNonNegative(users as real, cokePer);
    var totalGrams := Round2(users as real * cokePer);
    Coke(totalGrams, Round2(totalGrams / GramsPerEighth))
  }

  /**
   * One row of the breakdown table: the numbers its quantity and notes
   * columns show, in table order.
   */
  datatype Row =
    | BeerRow(beers: real, cans: int, drinkers: int, beerPer: real)
    | KegRow(kegs: real)
    | BoozeRow(drinks: real, fifths: real, handles: real, drinkers: int, drinksPer: real)
    | ZaRow(grams: real, ounces: real, users: int, weedPer: real)
    | BagRow(grams: real, eighths: real, users: int, cokePer: real)
  {
    /** The fixed label of the Item column. */
    function Item(): string {
      match this
      case BeerRow(_, _, _, _) => "Beer (12 oz servings)"
      case KegRow(_) => "Kegs (half-barrel = ~165 cans)"
      case BoozeRow(_, _, _, _, _) => "Booze (standard drinks/shots)"
      case ZaRow(_, _, _, _) => "Za"
      case BagRow(_, _, _, _) => "Bag"
    }

    predicate NonNegative() {
      match this
      case BeerRow(beers, cans, drinkers, beerPer) =>
        0.0 <= beers && 0 <= cans && 0 <= drinkers && 0.0 <= beerPer
      case KegRow(kegs) => 0.0 <= kegs
      case BoozeRow(drinks, fifths, handles, drinkers, drinksPer) =>
        0.0 <= drinks && 0.0 <= fifths && 0.0 <= handles && 0 <= drinkers && 0.0 <= drinksPer
      case ZaRow(grams, ounces, users, weedPer) =>
        0.0 <= grams && 0.0 <= ounces && 0 <= users && 0.0 <= weedPer
      case BagRow(grams, eighths, users, cokePer) =>
        0.0 <= grams && 0.0 <= eighths && 0 <= users && 0.0 <= cokePer
    }

    /** Same kind of row, and no number in it larger than in `other`. */
    predicate AtMost(other: Row) {
      match this
      case BeerRow(beers, cans, drinkers, beerPer) =>
        other.BeerRow? && beers <= other.beers && cans <= other.cans
        && drinkers <= other.drinkers && beerPer <= other.beerPer
      case KegRow(kegs) =>
        other.KegRow? && kegs <= other.kegs
      case BoozeRow(drinks, fifths, handles, drinkers, drinksPer) =>
        other.BoozeRow? && drinks <= other.drinks && fifths <= other.fifths
        && handles <= other.handles && drinkers <= other.drinkers && drinksPer <= other.drinksPer
      case ZaRow(grams, ounces, users, weedPer) =>
        other.ZaRow? && grams <= other.grams && ounces <= other.ounces
        && users <= other.users && weedPer <= other.weedPer
      case BagRow(grams, eighths, users, cokePer) =>
        other.BagRow? && grams <= other.grams && eighths <= other.eighths
        && users <= other.users && cokePer <= other.cokePer
    }
  }

  /** The result record: echoed inputs, top-line totals and the breakdown. */
  datatype Estimate = Estimate(
    head: int,
    vibe: Vibe,
    totalBeers: real,
    shots: real,
    totalWeedGrams: real,
    totalCokeGrams: real,
    breakdown: seq<Row>)
  {
    /**
     * Five rows in the order beer, kegs, booze, za, bag, and the table
     * shows the same totals as the summary line.
     */
    predicate WellFormed() {
      && |breakdown| == 5
      && breakdown[0].BeerRow? && breakdown[1].KegRow? && breakdown[2].BoozeRow?
      && breakdown[3].ZaRow? && breakdown[4].BagRow?
      && breakdown[0].beers == totalBeers
      && breakdown[2].drinks == shots
      && breakdown[3].grams == totalWeedGrams
      && breakdown[4].grams == totalCokeGrams
    }

    predicate NonNegative() {
      && 0.0 <= totalBeers && 0.0 <= shots && 0.0 <= totalWeedGrams && 0.0 <= totalCokeGrams
      && forall i :: 0 <= i < |breakdown| ==> breakdown[i].NonNegative()
    }

    /** Every total and every row of this estimate is at most that of `other`. */
    predicate AtMost(other: Estimate) {
      && totalBeers <= other.totalBeers
      && shots <= other.shots
      && totalWeedGrams <= other.totalWeedGrams
      && totalCokeGrams <= other.totalCokeGrams
      && |breakdown| == |other.breakdown|
      && forall i :: 0 <= i < |breakdown| ==> breakdown[i].AtMost(other.breakdown[i])
    }

    /** The vibe as the summary line shows it; every preset key shows as it is. */
    function VibeLabel(): (shown: string)
      ensures shown == Key(vibe)
    {
      KeyShownAsIs(vibe);
      Spaced(Key(vibe))
    }
  }

  lemma KeyShownAsIs(v: Vibe)
    ensures Spaced(Key(v)) == Key(v)
  {
  }

  /** calculate: the estimate for one state of the form. */
  function Calculate(input: Input): (e: Estimate)
    ensures e.WellFormed()
    ensures 1 <= e.head
    ensures 1 <= input.headcount ==> e.head == input.headcount
    ensures e.vibe == input.vibe
  {
    var head := Head(input.headcount);
    var p := Preset(input.vibe);
    var beerDrinkers := Participants(head, input.beerShare);
    var spiritPeople := Participants(head, input.liquorShare);
    var weedUsers := Participants(head, input.weedShare);
    var cokeUsers := Participants(head, input.cokeShare);
    var beer := BeerPlan(beerDrinkers, p.beerPer);
    var liquor := LiquorPlan(spiritPeople, p.drinksPer);
    var weed := WeedPlan(weedUsers, p.weedPer);
    var coke := CokePlan(cokeUsers, p.cokePer);
    var breakdown := [
      BeerRow(Round2(beer.totalBeers), beer.cans12, beerDrinkers, p.beerPer),
      KegRow(Round2(beer.kegs)),
      BoozeRow(Round2(liquor.shots), liquor.fifths, liquor.handles, spiritPeople, p.drinksPer),
      ZaRow(weed.totalGrams, weed.ounces, weedUsers, p.weedPer),
      BagRow(coke.totalGrams, coke.eighths, cokeUsers, p.cokePer)
    ];
    Estimate(head, input.vibe, Round2(beer.totalBeers), Round2(liquor.shots),
             weed.totalGrams, coke.totalGrams, breakdown)
  }
}
