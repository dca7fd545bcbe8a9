/**
 * What the estimator promises, proved about the model: participant counts
 * stay within the headcount, quantities are never negative and vanish with
 * their share, the packaging units are the stated ratios of the totals,
 * estimates grow with headcount, shares and vibe, and the form's initial
 * state gives the figures the page shows.
 */
module EstimationProperties {
  import opened Rounding
  import opened Presets
  import opened Inputs
  import opened Estimation

  /** A whole multiple of a whole number, as the integer product. */
  lemma WholeProduct(k: int, x: real)
    requires IsWhole(x)
    ensures k as real * x == (k * x.Floor) as real
  {
  }

  /** More guests or a larger share never means fewer participants. */
  lemma ParticipantsMonotone(head1: int, head2: int, share1: real, share2: real)
    requires 1 <= head1 <= head2 && 0.0 <= share1 <= share2
    ensures Participants(head1, share1) <= Participants(head2, share2)
  {
    ProductMonotone(head1 as real, head2 as real, share1 / 100.0, share2 / 100.0);
    RoundHalfUpMonotone(head1 as real * (share1 / 100.0), head2 as real * (share2 / 100.0));
  }

  lemma ParticipantsOfNoShare(head: int)
    ensures Participants(head, 0.0) == 0
  {
    RoundHalfUpOfWhole(0.0);
  }

  lemma ParticipantsOfFullShare(head: int)
    ensures Participants(head, 100.0) == head
  {
    RoundHalfUpOfWhole(head as real);
  }

  /** With a whole per-person rate, beers are whole and one can is one beer. */
  lemma BeerTotalsWhole(drinkers: int, beerPer: real)
    requires IsWhole(beerPer)
    ensures IsWhole(BeerPlan(drinkers, beerPer).totalBeers)
    ensures BeerPlan(drinkers, beerPer).cans12 as real == BeerPlan(drinkers, beerPer).totalBeers
  {
    var total := drinkers as real * beerPer;
    WholeProduct(drinkers, beerPer);
    IntIsWhole(drinkers * beerPer.Floor);
    assert total / 1.0 == total;
    CeilOfWhole(total);
  }

  lemma LiquorShotsWhole(spiritPeople: int, drinksPer: real)
    requires IsWhole(drinksPer)
    ensures IsWhole(LiquorPlan(spiritPeople, drinksPer).shots)
  {
    WholeProduct(spiritPeople, drinksPer);
    IntIsWhole(spiritPeople * drinksPer.Floor);
  }

  /** The participant counts of an input, in the order beer, liquor, cannabis, cocaine. */
  function Counts(input: Input): (int, int, int, int) {
    var head := Head(input.headcount);
    (Participants(head, input.beerShare), Participants(head, input.liquorShare),
     Participants(head, input.weedShare), Participants(head, input.cokeShare))
  }

  /** Calculate, spelled through its participant counts and the per-substance figures. */
  lemma CalculateUnfolded(input: Input)
    ensures var c, p := Counts(input), Preset(input.vibe);
      var beer, liquor := BeerPlan(c.0, p.beerPer), LiquorPlan(c.1, p.drinksPer);
      var weed, coke := WeedPlan(c.2, p.weedPer), CokePlan(c.3, p.cokePer);
      Calculate(input) == Estimate(Head(input.headcount), input.vibe,
        Round2(beer.totalBeers), Round2(liquor.shots), weed.totalGrams, coke.totalGrams, [
          BeerRow(Round2(beer.totalBeers), beer.cans12, c.0, p.beerPer),
          KegRow(Round2(beer.kegs)),
          BoozeRow(Round2(liquor.shots), liquor.fifths, liquor.handles, c.1, p.drinksPer),
          ZaRow(weed.totalGrams, weed.ounces, c.2, p.weedPer),
          BagRow(coke.totalGrams, coke.eighths, c.3, p.cokePer)])
  {
  }

  lemma BeerRoundedExact(drinkers: int, beerPer: real)
    requires IsWhole(beerPer)
    ensures var b := BeerPlan(drinkers, beerPer);
      Round2(b.totalBeers) == b.totalBeers && Round2(b.kegs) == b.kegs
  {
    var b := BeerPlan(drinkers, beerPer);
    BeerTotalsWhole(drinkers, beerPer);
    Round2OfWhole(b.totalBeers);
    Round2Idempotent(b.totalBeers / ServingsPerKeg);
  }

  lemma LiquorRoundedExact(spiritPeople: int, drinksPer: real)
    requires IsWhole(drinksPer)
    ensures var l := LiquorPlan(spiritPeople, drinksPer);
      Round2(l.shots) == l.shots
  {
    LiquorShotsWhole(spiritPeople, drinksPer);
    Round2OfWhole(LiquorPlan(spiritPeople, drinksPer).shots);
  }

  /**
   * Rounding the beer and drink totals again for the result, and the keg
   * count again for its row, changes nothing: the shown figures are the
   * exact ones.
   */
  lemma ReroundingChangesNothing(input: Input)
    ensures var c, p := Counts(input), Preset(input.vibe);
      var e := Calculate(input);
      && e.totalBeers == BeerPlan(c.0, p.beerPer).totalBeers
      && e.breakdown[1].kegs == BeerPlan(c.0, p.beerPer).kegs
      && e.shots == LiquorPlan(c.1, p.drinksPer).shots
  {
    var c, p := Counts(input), Preset(input.vibe);
    var beer, liquor := BeerPlan(c.0, p.beerPer), LiquorPlan(c.1, p.drinksPer);
    var e := Calculate(input);
    CalculateUnfolded(input);
    assert e.totalBeers == Round2(beer.totalBeers);
    assert e.breakdown[1].kegs == Round2(beer.kegs);
    assert e.shots == Round2(liquor.shots);
    BeerRoundedExact(c.0, p.beerPer);
    LiquorRoundedExact(c.1, p.drinksPer);
  }

  /** The packaging units are the stated ratios of the totals the summary shows. */
  lemma PackagingRatios(input: Input)
    ensures var e := Calculate(input);
      && IsWhole(e.totalBeers) && IsWhole(e.shots)
      && e.breakdown[0].cans as real == e.totalBeers
      && e.breakdown[1].kegs == Round2(e.totalBeers / ServingsPerKeg)
      && e.breakdown[2].fifths == Round2(e.shots / ShotsPerFifth)
      && e.breakdown[2].handles == Round2(e.shots / ShotsPerHandle)
      && e.breakdown[3].ounces == Round2(e.totalWeedGrams / GramsPerOunce)
      && e.breakdown[4].eighths == Round2(e.totalCokeGrams / GramsPerEighth)
  {
    var c, p := Counts(input), Preset(input.vibe);
    CalculateUnfolded(input);
    ReroundingChangesNothing(input);
    BeerTotalsWhole(c.0, p.beerPer);
    LiquorShotsWhole(c.1, p.drinksPer);
  }

  /** The breakdown carries the five fixed item labels, in table order. */
  lemma BreakdownLabels(input: Input)
    ensures var rows := Calculate(input).breakdown;
      [rows[0].Item(), rows[1].Item(), rows[2].Item(), rows[3].Item(), rows[4].Item()]
      == ["Beer (12 oz servings)", "Kegs (half-barrel = ~165 cans)",
          "Booze (standard drinks/shots)", "Za", "Bag"]
  {
  }

  /** With shares in [0, 100], no figure of the estimate is negative. */
  lemma NonNegativeEstimate(input: Input)
    requires input.SharesInRange()
    ensures Calculate(input).NonNegative()
  {
    var c, p := Counts(input), Preset(input.vibe);
    CalculateUnfolded(input);
    var beer, liquor := BeerPlan(c.0, p.beerPer), LiquorPlan(c.1, p.drinksPer);
    Round2NonNegative(beer.totalBeers);
    Round2NonNegative(beer.kegs);
    Round2NonNegative(liquor.shots);
    var e := Calculate(input);
    assert e.breakdown[0].NonNegative();
    assert e.breakdown[1].NonNegative();
    assert e.breakdown[2].NonNegative();
    assert e.breakdown[3].NonNegative();
    assert e.breakdown[4].NonNegative();
  }

  lemma BeerOfNobody(beerPer: real)
    ensures BeerPlan(0, beerPer) == Beer(0.0, 0, 0.0)
  {
    assert 0.0 / 1.0 == 0.0 && 0.0 / ServingsPerKeg == 0.0;
    CeilOfWhole(0.0);
    Round2Zero();
  }

  lemma LiquorOfNobody(drinksPer: real)
    ensures LiquorPlan(0, drinksPer) == Liquor(0.0, 0.0, 0.0, 0.0)
  {
    assert 0.0 / ShotsPerFifth == 0.0 && 0.0 / ShotsPerHandle == 0.0;
    Round2Zero();
  }

  lemma WeedOfNobody(weedPer: real)
    ensures WeedPlan(0, weedPer) == Weed(0.0, 0.0)
  {
    assert 0.0 / GramsPerOunce == 0.0;
    Round2Zero();
  }

  lemma CokeOfNobody(cokePer: real)
    ensures CokePlan(0, cokePer) == Coke(0.0, 0.0)
  {
    assert 0.0 / GramsPerEighth == 0.0;
    Round2Zero();
  }

  /**
   * A substance whose share is zero gets no participants and zero of every
   * quantity derived from it, whatever the headcount and vibe.
   */
  lemma ZeroShareZeroQuantities(input: Input)
    ensures var e := Calculate(input);
      && (input.beerShare == 0.0 ==>
            e.totalBeers == 0.0 && e.breakdown[0].cans == 0
            && e.breakdown[0].drinkers == 0 && e.breakdown[1].kegs == 0.0)
      && (input.liquorShare == 0.0 ==>
            e.shots == 0.0 && e.breakdown[2].drinkers == 0
            && e.breakdown[2].fifths == 0.0 && e.breakdown[2].handles == 0.0)
      && (input.weedShare == 0.0 ==>
            e.totalWeedGrams == 0.0 && e.breakdown[3].users == 0 && e.breakdown[3].ounces == 0.0)
      && (input.cokeShare == 0.0 ==>
            e.totalCokeGrams == 0.0 && e.breakdown[4].users == 0 && e.breakdown[4].eighths == 0.0)
  {
    var p := Preset(input.vibe);
    CalculateUnfolded(input);
    ParticipantsOfNoShare(Head(input.headcount));
    Round2Zero();
    if input.beerShare == 0.0 {
      BeerOfNobody(p.beerPer);
    }
    if input.liquorShare == 0.0 {
      LiquorOfNobody(p.drinksPer);
    }
    if input.weedShare == 0.0 {
      WeedOfNobody(p.weedPer);
    }
    if input.cokeShare == 0.0 {
      CokeOfNobody(p.cokePer);
    }
  }

  /** Per-substance monotonicity: more participants or a higher rate never means less. */
  lemma BeerMonotone(drinkers1: int, drinkers2: int, beerPer1: real, beerPer2: real)
    requires 0 <= drinkers1 <= drinkers2 && 0.0 <= beerPer1 <= beerPer2
    ensures var b1, b2 := BeerPlan(drinkers1, beerPer1), BeerPlan(drinkers2, beerPer2);
      b1.totalBeers <= b2.totalBeers && b1.cans12 <= b2.cans12 && b1.kegs <= b2.kegs
  {
    var t1, t2 := drinkers1 as real * beerPer1, drinkers2 as real * beerPer2;
    assert t1 <= t2 by {
      ProductMonotone(drinkers1 as real, drinkers2 as real, beerPer1, beerPer2);
    }
    CeilMonotone(t1 / 1.0, t2 / 1.0);
    Round2Monotone(t1 / ServingsPerKeg, t2 / ServingsPerKeg);
  }

  lemma LiquorMonotone(people1: int, people2: int, drinksPer1: real, drinksPer2: real)
    requires 0 <= people1 <= people2 && 0.0 <= drinksPer1 <= drinksPer2
    ensures var l1, l2 := LiquorPlan(people1, drinksPer1), LiquorPlan(people2, drinksPer2);
      l1.shots <= l2.shots && l1.fifths <= l2.fifths && l1.handles <= l2.handles
  {
    var s1, s2 := people1 as real * drinksPer1, people2 as real * drinksPer2;
    assert s1 <= s2 by {
      ProductMonotone(people1 as real, people2 as real, drinksPer1, drinksPer2);
    }
    Round2Monotone(s1 / ShotsPerFifth, s2 / ShotsPerFifth);
    Round2Monotone(s1 / ShotsPerHandle, s2 / ShotsPerHandle);
  }

  lemma WeedMonotone(users1: int, users2: int, weedPer1: real, weedPer2: real)
    requires 0 <= users1 <= users2 && 0.0 <= weedPer1 <= weedPer2
    ensures var w1, w2 := WeedPlan(users1, weedPer1), WeedPlan(users2, weedPer2);
      w1.totalGrams <= w2.totalGrams && w1.ounces <= w2.ounces
  {
    var g1, g2 := users1 as real * weedPer1, users2 as real * weedPer2;
    assert g1 <= g2 by {
      ProductMonotone(users1 as real, users2 as real, weedPer1, weedPer2);
    }
    Round2Monotone(g1, g2);
    Round2Monotone(Round2(g1) / GramsPerOunce, Round2(g2) / GramsPerOunce);
  }

  lemma CokeMonotone(users1: int, users2: int, cokePer1: real, cokePer2: real)
    requires 0 <= users1 <= users2 && 0.0 <= cokePer1 <= cokePer2
    ensures var c1, c2 := CokePlan(users1, cokePer1), CokePlan(users2, cokePer2);
      c1.totalGrams <= c2.totalGrams && c1.eighths <= c2.eighths
  {
    var g1, g2 := users1 as real * cokePer1, users2 as real * cokePer2;
    assert g1 <= g2 by {
      ProductMonotone(users1 as real, users2 as real, cokePer1, cokePer2);
    }
    Round2Monotone(g1, g2);
    Round2Monotone(Round2(g1) / GramsPerEighth, Round2(g2) / GramsPerEighth);
  }

  /** More guests or a larger share never means fewer participants in any category. */
  lemma CountsMonotone(a: Input, b: Input)
    requires a.headcount <= b.headcount
    requires 0.0 <= a.beerShare <= b.beerShare
    requires 0.0 <= a.liquorShare <= b.liquorShare
    requires 0.0 <= a.weedShare <= b.weedShare
    requires 0.0 <= a.cokeShare <= b.cokeShare
    ensures var ca, cb := Counts(a), Counts(b);
      && 0 <= ca.0 <= cb.0 && 0 <= ca.1 <= cb.1 && 0 <= ca.2 <= cb.2 && 0 <= ca.3 <= cb.3
  {
    var h1, h2 := Head(a.headcount), Head(b.headcount);
    HeadMonotone(a.headcount, b.headcount);
    ParticipantsOfNoShare(h1);
    ParticipantsMonotone(h1, h1, 0.0, a.beerShare);
    ParticipantsMonotone(h1, h1, 0.0, a.liquorShare);
    ParticipantsMonotone(h1, h1, 0.0, a.weedShare);
    ParticipantsMonotone(h1, h1, 0.0, a.cokeShare);
    ParticipantsMonotone(h1, h2, a.beerShare, b.beerShare);
    ParticipantsMonotone(h1, h2, a.liquorShare, b.liquorShare);
    ParticipantsMonotone(h1, h2, a.weedShare, b.weedShare);
    ParticipantsMonotone(h1, h2, a.cokeShare, b.cokeShare);
  }

  /**
   * Raising the headcount, any share, or the vibe (chill, pregame,
   * fullsend) never lowers any figure of the estimate.
   */
  lemma EstimateMonotone(a: Input, b: Input)
    requires a.headcount <= b.headcount
    requires Rank(a.vibe) <= Rank(b.vibe)
    requires 0.0 <= a.beerShare <= b.beerShare
    requires 0.0 <= a.liquorShare <= b.liquorShare
    requires 0.0 <= a.weedShare <= b.weedShare
    requires 0.0 <= a.cokeShare <= b.cokeShare
    ensures Calculate(a).AtMost(Calculate(b))
  {
    var ca, cb := Counts(a), Counts(b);
    var pa, pb := Preset(a.vibe), Preset(b.vibe);
    CountsMonotone(a, b);
    PresetsOrdered(a.vibe, b.vibe);
    CalculateUnfolded(a);
    CalculateUnfolded(b);
    BeerMonotone(ca.0, cb.0, pa.beerPer, pb.beerPer);
    LiquorMonotone(ca.1, cb.1, pa.drinksPer, pb.drinksPer);
    WeedMonotone(ca.2, cb.2, pa.weedPer, pb.weedPer);
    CokeMonotone(ca.3, cb.3, pa.cokePer, pb.cokePer);
    var ba, bb := BeerPlan(ca.0, pa.beerPer), BeerPlan(cb.0, pb.beerPer);
    var la, lb := LiquorPlan(ca.1, pa.drinksPer), LiquorPlan(cb.1, pb.drinksPer);
    Round2Monotone(ba.totalBeers, bb.totalBeers);
    Round2Monotone(ba.kegs, bb.kegs);
    Round2Monotone(la.shots, lb.shots);
    var e1, e2 := Calculate(a), Calculate(b);
    assert e1.breakdown[0].AtMost(e2.breakdown[0]);
    assert e1.breakdown[1].AtMost(e2.breakdown[1]);
    assert e1.breakdown[2].AtMost(e2.breakdown[2]);
    assert e1.breakdown[3].AtMost(e2.breakdown[3]);
    assert e1.breakdown[4].AtMost(e2.breakdown[4]);
  }

  /** The form's initial state: 25 guests, chill, shares 60/30/25/5. */
  lemma DefaultScenario()
    ensures Calculate(DefaultInput) == Estimate(25, Chill, 30.0, 8.0, 3.0, 0.1, [
      BeerRow(30.0, 30, 15, 2.0),
      KegRow(0.18),
      BoozeRow(8.0, 0.47, 0.21, 8, 1.0),
      ZaRow(3.0, 0.11, 6, 0.5),
      BagRow(0.1, 0.03, 1, 0.1)])
  {
    assert Participants(25, 60.0) == 15;
    assert Participants(25, 30.0) == 8;
    assert Participants(25, 25.0) == 6;
    assert Participants(25, 5.0) == 1;
    Round2OfWhole(30.0);
    Round2OfWhole(8.0);
    Round2OfWhole(3.0);
    assert Round2(30.0 / 165.0) == 0.18;
    Round2Idempotent(30.0 / 165.0);
    assert Round2(8.0 / 17.0) == 0.47;
    assert Round2(8.0 / 39.0) == 0.21;
    assert Round2(3.0 / 28.0) == 0.11;
    assert Round2(1.0 * 0.1) == 0.1;
    assert Round2(0.1 / 3.5) == 0.03;
  }

  /** One guest, every share at 100, fullsend: each figure is the bare rate. */
  lemma SingleGuestFullSend()
    ensures Calculate(Input(1, Fullsend, 100.0, 100.0, 100.0, 100.0))
         == Estimate(1, Fullsend, 5.0, 3.0, 2.0, 0.5, [
              BeerRow(5.0, 5, 1, 5.0),
              KegRow(0.03),
              BoozeRow(3.0, 0.18, 0.08, 1, 3.0),
              ZaRow(2.0, 0.07, 1, 2.0),
              BagRow(0.5, 0.14, 1, 0.5)])
  {
    ParticipantsOfFullShare(1);
    Round2OfWhole(5.0);
    Round2OfWhole(3.0);
    Round2OfWhole(2.0);
    assert Round2(0.5) == 0.5;
    assert Round2(5.0 / 165.0) == 0.03;
    Round2Idempotent(5.0 / 165.0);
    assert Round2(3.0 / 17.0) == 0.18;
    assert Round2(3.0 / 39.0) == 0.08;
    assert Round2(2.0 / 28.0) == 0.07;
    assert Round2(0.5 / 3.5) == 0.14;
  }
}
