/**
 * The preset table: each vibe key selects four per-person rates
 * (beer servings, standard drinks, grams of cannabis, grams of cocaine).
 */
module Presets {
  import opened Wrappers
  import opened Rounding

  datatype Vibe = Chill | Pregame | Fullsend

  datatype Rates = Rates(beerPer: real, drinksPer: real, weedPer: real, cokePer: real)
  {
    predicate Positive() {
      0.0 < beerPer && 0.0 < drinksPer && 0.0 < weedPer && 0.0 < cokePer
    }

    /** Componentwise comparison of two rate bundles. */
    predicate AtMost(other: Rates) {
      && beerPer <= other.beerPer
      && drinksPer <= other.drinksPer
      && weedPer <= other.weedPer
      && cokePer <= other.cokePer
    }
  }

  /** The key a vibe is stored and selected under. */
  function Key(v: Vibe): (k: string)
    ensures VibeOfKey(k) == Some(v)
  {
    match v
    case Chill => "chill"
    case Pregame => "pregame"
    case Fullsend => "fullsend"
  }

  /** Looking a raw key up in the table; None for a key the table lacks. */
  function VibeOfKey(k: string): (r: Option<Vibe>)
    ensures r.Some? <==> k in {"chill", "pregame", "fullsend"}
  {
    if k == "chill" then Some(Chill)
    else if k == "pregame" then Some(Pregame)
    else if k == "fullsend" then Some(Fullsend)
    else None
  }

  /** The table entry for a vibe. */
  function Preset(v: Vibe): (p: Rates)
    ensures p.Positive()
    ensures IsWhole(p.beerPer) && IsWhole(p.drinksPer)
  {
    match v
    case Chill => Rates(2.0, 1.0, 0.5, 0.1)
    case Pregame => Rates(3.0, 2.0, 1.0, 0.2)
    case Fullsend => Rates(5.0, 3.0, 2.0, 0.5)
  }

  /** Intensity order of the vibes: chill, then pregame, then fullsend. */
  function Rank(v: Vibe): nat {
    match v
    case Chill => 0
    case Pregame => 1
    case Fullsend => 2
  }

  /** A more intense vibe never has a lower rate for any substance. */
  lemma PresetsOrdered(a: Vibe, b: Vibe)
    requires Rank(a) <= Rank(b)
    ensures Preset(a).AtMost(Preset(b))
  {
  }

  /** A strictly more intense vibe has a strictly higher rate for every substance. */
  lemma PresetsStrictlyOrdered(a: Vibe, b: Vibe)
    requires Rank(a) < Rank(b)
    ensures Preset(a).beerPer < Preset(b).beerPer
    ensures Preset(a).drinksPer < Preset(b).drinksPer
    ensures Preset(a).weedPer < Preset(b).weedPer
    ensures Preset(a).cokePer < Preset(b).cokePer
  {
  }
}
