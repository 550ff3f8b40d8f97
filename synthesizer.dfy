/**
 * The combo synthesizer (generateSingleCombo in backend/app.js): bounded rejection sampling
 * of one main course, one side dish and one drink under a calorie window and a day profile.
 */
module Synthesizer {
  import opened Menu
  import opened Sampling

  /** The day profiles the synthesizer knows; Unconstrained is any other profile string. */
  datatype Profile = Sweet | Spicy | Balanced | Unconstrained

  const MaxAttempts: nat := 1000
  const MinCalories: nat := 800
  const MaxCalories: nat := 1000

  const MildlyCaloric: string := "Mildly Caloric, Balanced Spice"
  const ModeratelyCaloric: string := "Moderately Caloric, Robust Flavor"
  const NoBand: string := "N/A"

  /**
   * A synthesized combo: the three items, the calorie total, the average operative score in
   * tenths (the source stores parseFloat(avg.toFixed(1))) and the calorie-band label.
   */
  datatype Combo = Combo(
    main: FoodItem,
    side: FoodItem,
    drink: FoodItem,
    totalCalories: nat,
    avgScoreTenths: nat,
    spicyProfile: string)

  function Items(c: Combo): seq<FoodItem> { [c.main, c.side, c.drink] }

  predicate OccursAt(s: string, part: string, i: nat)
  {
    i + |part| <= |s| && s[i..i + |part|] == part
  }

  /** String.prototype.includes. */
  predicate Contains(s: string, part: string)
  {
    exists i :: 0 <= i <= |s| && OccursAt(s, part, i)
  }

  function Count<T>(xs: seq<T>, p: T -> bool): (n: nat)
    ensures n <= |xs|
  {
    if xs == [] then 0 else (if p(xs[0]) then 1 else 0) + Count(xs[1..], p)
  }

  predicate IsSweetish(item: FoodItem)
  {
    item.spicyLevel == 0 || Contains(item.name, "Lassi") || Contains(item.name, "Mango")
  }

  predicate IsMild(item: FoodItem) { item.spicyLevel == 0 }

  predicate IsSpicy(item: FoodItem) { item.spicyLevel > 0 }

  /** The day-profile filter of generateSingleCombo, check by check as the source makes them. */
  predicate PassesDayProfile(profile: Profile, items: seq<FoodItem>)
  {
    match profile
    case Sweet =>
      !(Count(items, IsSweetish) < 2) && !(exists k :: 0 <= k < |items| && items[k].spicyLevel > 1)
    case Spicy =>
      !(Count(items, IsSpicy) == 0) && !(forall k :: 0 <= k < |items| ==> items[k].spicyLevel < 2)
    case Balanced =>
      !(Count(items, IsMild) < 1 || Count(items, IsSpicy) < 1)
      && !(exists k :: 0 <= k < |items| && items[k].spicyLevel == 3)
    case Unconstrained => true
  }

  /** A filter keeps something exactly when some element satisfies the predicate. */
  lemma {:induction false} CountPositive<T>(xs: seq<T>, p: T -> bool)
    ensures Count(xs, p) > 0 <==> exists k :: 0 <= k < |xs| && p(xs[k])
    decreases |xs|
  {
    if xs != [] {
      CountPositive(xs[1..], p);
      if !p(xs[0]) {
        if exists k :: 0 <= k < |xs| && p(xs[k]) {
          var k :| 0 <= k < |xs| && p(xs[k]);
          assert xs[1..][k - 1] == xs[k];
        }
        if exists j :: 0 <= j < |xs[1..]| && p(xs[1..][j]) {
          var j :| 0 <= j < |xs[1..]| && p(xs[1..][j]);
          assert xs[j + 1] == xs[1..][j];
        }
      }
    }
  }

  /**
   * The day profiles in plain terms: sweet wants two sweetish items and nothing hotter than
   * level 1; spicy wants an item of level 2 or more (which is then also spicy); balanced wants
   * a mild item, a spicy item and nothing of level 3; any other profile accepts everything.
   */
  lemma ProfileMeaning(items: seq<FoodItem>)
    ensures PassesDayProfile(Sweet, items)
        <==> (Count(items, IsSweetish) >= 2 && forall k :: 0 <= k < |items| ==> items[k].spicyLevel <= 1)
    ensures PassesDayProfile(Spicy, items)
        <==> exists k :: 0 <= k < |items| && items[k].spicyLevel >= 2
    ensures PassesDayProfile(Balanced, items)
        <==> ((exists k :: 0 <= k < |items| && items[k].spicyLevel == 0)
              && (exists k :: 0 <= k < |items| && items[k].spicyLevel > 0)
              && forall k :: 0 <= k < |items| ==> items[k].spicyLevel != 3)
    ensures PassesDayProfile(Unconstrained, items)
  {
    assert Count(items, IsSpicy) > 0 <==> exists k :: 0 <= k < |items| && IsSpicy(items[k]) by {
      CountPositive(items, IsSpicy);
    }
    assert Count(items, IsMild) > 0 <==> exists k :: 0 <= k < |items| && IsMild(items[k]) by {
      CountPositive(items, IsMild);
    }
    assert PassesDayProfile(Spicy, items) <==> exists k :: 0 <= k < |items| && items[k].spicyLevel >= 2;
  }

  /**
   * The average of three operative scores rounded to one decimal, in tenths: the nearest
   * integer to 10 * sum / 3 (a third is never exactly half-way between two tenths).
   */
  function ScoreTenths(sum: nat): (r: nat)
    ensures -1 <= 3 * r - 10 * sum <= 1
  {
    (10 * sum + 1) / 3
  }

  /** The calorie-band label of a total. */
  function CalorieBand(total: nat): (band: string)
    ensures band != NoBand <==> MinCalories <= total <= MaxCalories
    ensures band == MildlyCaloric <==> MinCalories <= total < 900
  {
    if MinCalories <= total < 900 then MildlyCaloric
    else if 900 <= total <= MaxCalories then ModeratelyCaloric
    else NoBand
  }

  /**
   * The checks an attempt applies to the three drawn items, in the source's order: three
   * different names, none already used today, a total within 800..1000, the day profile.
   */
  function Judge(main: FoodItem, side: FoodItem, drink: FoodItem, used: set<string>, profile: Profile): (r: Option<Combo>)
    ensures r.Some? ==> r.value.main == main && r.value.side == side && r.value.drink == drink
  {
    if |{main.name, side.name, drink.name}| != 3 then None
    else if main.name in used || side.name in used || drink.name in used then None
    else
      var total := main.caloricValue + side.caloricValue + drink.caloricValue;
      if total < MinCalories || total > MaxCalories then None
      else if !PassesDayProfile(profile, [main, side, drink]) then None
      else
        var avg := ScoreTenths(main.operativeScore + side.operativeScore + drink.operativeScore);
        Some(Combo(main, side, drink, total, avg, CalorieBand(total)))
  }

  lemma JudgeAccepts(main: FoodItem, side: FoodItem, drink: FoodItem, used: set<string>, profile: Profile)
    requires |{main.name, side.name, drink.name}| == 3
    requires main.name !in used && side.name !in used && drink.name !in used
    requires MinCalories <= main.caloricValue + side.caloricValue + drink.caloricValue <= MaxCalories
    requires PassesDayProfile(profile, [main, side, drink])
    ensures var total := main.caloricValue + side.caloricValue + drink.caloricValue;
      Judge(main, side, drink, used, profile)
      == Some(Combo(main, side, drink, total,
                    ScoreTenths(main.operativeScore + side.operativeScore + drink.operativeScore),
                    CalorieBand(total)))
  {
  }

  /** What every combo the synthesizer returns satisfies, stated item by item. */
  predicate Acceptable(c: Combo, used: set<string>, profile: Profile)
  {
    c.main.name != c.side.name && c.main.name != c.drink.name && c.side.name != c.drink.name
    && c.main.name !in used && c.side.name !in used && c.drink.name !in used
    && c.totalCalories == c.main.caloricValue + c.side.caloricValue + c.drink.caloricValue
    && MinCalories <= c.totalCalories <= MaxCalories
    && PassesDayProfile(profile, Items(c))
    && -1 <= 3 * c.avgScoreTenths - 10 * (c.main.operativeScore + c.side.operativeScore + c.drink.operativeScore) <= 1
    && c.spicyProfile == CalorieBand(c.totalCalories)
  }

  lemma DistinctNames(a: string, b: string, c: string)
    ensures |{a, b, c}| == 3 <==> a != b && a != c && b != c
  {
    if a == b || a == c || b == c {
      assert |{a, b, c}| <= 2 by {
        if a == b { assert {a, b, c} == {a, c}; }
        else if a == c { assert {a, b, c} == {a, b}; }
        else { assert {a, b, c} == {a, b}; }
      }
    }
  }

  /** The judge accepts exactly the acceptable combos of the three items it was given. */
  lemma JudgeMeansAcceptable(main: FoodItem, side: FoodItem, drink: FoodItem, used: set<string>, profile: Profile, c: Combo)
    ensures Judge(main, side, drink, used, profile) == Some(c)
        <==> Acceptable(c, used, profile) && c.main == main && c.side == side && c.drink == drink
  {
    DistinctNames(main.name, side.name, drink.name);
    var sum := main.operativeScore + side.operativeScore + drink.operativeScore;
    if Acceptable(c, used, profile) && c.main == main && c.side == side && c.drink == drink {
      ScoreIsUnique(sum, c.avgScoreTenths);
    }
  }

  /** At most one number of tenths lies within a third of a tenth of the exact mean. */
  lemma ScoreIsUnique(sum: nat, r: nat)
    requires -1 <= 3 * r - 10 * sum <= 1
    ensures r == ScoreTenths(sum)
  {
    var q := ScoreTenths(sum);
    assert -2 <= 3 * (r - q) <= 2;
  }

  /** One attempt: draw one item from each pool (getRandomItems(pool, 1)[0]), then judge them. */
  function Attempt(pools: Pools, used: set<string>, profile: Profile, ds: Draws): (Option<Combo>, Draws)
  {
    var ds1 := Consume(ds, |pools.mains|);
    var ds2 := Consume(ds1, |pools.sides|);
    var ds3 := Consume(ds2, |pools.drinks|);
    var mainPick := GetRandomItems(pools.mains, 1, ds);
    var sidePick := GetRandomItems(pools.sides, 1, ds1);
    var drinkPick := GetRandomItems(pools.drinks, 1, ds2);
    var verdict := if |mainPick| == 0 || |sidePick| == 0 || |drinkPick| == 0 then None
      else Judge(mainPick[0], sidePick[0], drinkPick[0], used, profile);
    (verdict, ds3)
  }

  /** An attempt takes one full shuffle's worth of draws from each pool, whatever it decides. */
  lemma AttemptConsumesPools(pools: Pools, used: set<string>, profile: Profile, ds: Draws)
    ensures Attempt(pools, used, profile, ds).1 == Consume(ds, |pools.mains| + |pools.sides| + |pools.drinks|)
  {
    ConsumeThrice(ds, |pools.mains|, |pools.sides|, |pools.drinks|);
  }

  /** Up to attemptsLeft attempts; the first accepted combo wins, and the draws left over. */
  function Synthesize(pools: Pools, used: set<string>, profile: Profile, ds: Draws, attemptsLeft: nat): (Option<Combo>, Draws)
    decreases attemptsLeft
  {
    if attemptsLeft == 0 then (None, ds)
    else
      var first := Attempt(pools, used, profile, ds);
      if first.0.Some? then first else Synthesize(pools, used, profile, first.1, attemptsLeft - 1)
  }

  lemma SynthesizeUnfold(pools: Pools, used: set<string>, profile: Profile, ds: Draws, n: nat)
    requires n > 0
    ensures var first := Attempt(pools, used, profile, ds);
      Synthesize(pools, used, profile, ds, n)
      == if first.0.Some? then first else Synthesize(pools, used, profile, first.1, n - 1)
  {
  }

  predicate DrawnFrom(c: Combo, pools: Pools)
  {
    c.main in pools.mains && c.side in pools.sides && c.drink in pools.drinks
  }

  /** Whatever an attempt returns is acceptable and made of items of the pools. */
  lemma AttemptSound(pools: Pools, used: set<string>, profile: Profile, ds: Draws)
    requires Attempt(pools, used, profile, ds).0.Some?
    ensures Acceptable(Attempt(pools, used, profile, ds).0.value, used, profile)
    ensures DrawnFrom(Attempt(pools, used, profile, ds).0.value, pools)
  {
    var ds1 := Consume(ds, |pools.mains|);
    var ds2 := Consume(ds1, |pools.sides|);
    var c := Attempt(pools, used, profile, ds).0.value;
    JudgeMeansAcceptable(c.main, c.side, c.drink, used, profile, c);
    SampledFromPool(pools.mains, 1, ds, c.main);
    SampledFromPool(pools.sides, 1, ds1, c.side);
    SampledFromPool(pools.drinks, 1, ds2, c.drink);
  }

  /** Whatever the synthesizer returns is acceptable and made of items of the pools. */
  lemma {:induction false} SynthesizeSound(pools: Pools, used: set<string>, profile: Profile, ds: Draws, n: nat)
    requires Synthesize(pools, used, profile, ds, n).0.Some?
    ensures Acceptable(Synthesize(pools, used, profile, ds, n).0.value, used, profile)
    ensures DrawnFrom(Synthesize(pools, used, profile, ds, n).0.value, pools)
    decreases n
  {
    SynthesizeUnfold(pools, used, profile, ds, n);
    var first := Attempt(pools, used, profile, ds);
    if first.0.Some? {
      AttemptSound(pools, used, profile, ds);
    } else {
      SynthesizeSound(pools, used, profile, first.1, n - 1);
    }
  }

  /** With an empty pool no attempt can succeed, so the result is null. */
  lemma {:induction false} EmptyPoolYieldsNothing(pools: Pools, used: set<string>, profile: Profile, ds: Draws, n: nat)
    requires pools.mains == [] || pools.sides == [] || pools.drinks == []
    ensures Synthesize(pools, used, profile, ds, n).0 == None
    decreases n
  {
    if n > 0 {
      EmptyPoolYieldsNothing(pools, used, profile, Attempt(pools, used, profile, ds).1, n - 1);
    }
  }

  /** The "N/A" band is unreachable: an acceptable combo always gets one of the two real labels. */
  lemma AcceptableHasBand(c: Combo, used: set<string>, profile: Profile)
    requires Acceptable(c, used, profile)
    ensures c.spicyProfile != NoBand
    ensures c.spicyProfile == MildlyCaloric <==> c.totalCalories < 900
    ensures c.spicyProfile == ModeratelyCaloric <==> 900 <= c.totalCalories
  {
  }

  /**
   * The checks of one attempt of generateSingleCombo's loop, each rejecting the drawn items at
   * once (the source's `continue`), and the combo built from items that pass them all.
   */
  method CheckAttempt(main: FoodItem, side: FoodItem, drink: FoodItem, usedItems: set<string>, dayProfile: Profile)
    returns (verdict: Option<Combo>)
    ensures verdict == Judge(main, side, drink, usedItems, dayProfile)
    ensures verdict.Some? ==> Acceptable(verdict.value, usedItems, dayProfile) && Items(verdict.value) == [main, side, drink]
  {
    verdict := None;
    if |{main.name, side.name, drink.name}| != 3 {
      return;
    }
    if main.name in usedItems || side.name in usedItems || drink.name in usedItems {
      return;
    }
    var total := main.caloricValue + side.caloricValue + drink.caloricValue;
    if total < MinCalories || total > MaxCalories {
      return;
    }
    if !PassesDayProfile(dayProfile, [main, side, drink]) {
      return;
    }
    var avg := ScoreTenths(main.operativeScore + side.operativeScore + drink.operativeScore);
    var band := CalorieBand(total);
    verdict := Some(Combo(main, side, drink, total, avg, band));
    JudgeAccepts(main, side, drink, usedItems, dayProfile);
    JudgeMeansAcceptable(main, side, drink, usedItems, dayProfile, verdict.value);
  }

  /**
   * generateSingleCombo: up to 1000 attempts, each drawing one item per pool and rejecting
   * it with `continue` at the first failed check; the first surviving combo is returned.
   */
  method GenerateSingleCombo(
    availableMains: seq<FoodItem>, availableSides: seq<FoodItem>, availableDrinks: seq<FoodItem>,
    usedItems: set<string>, dayProfile: Profile, ds: Draws)
    returns (combo: Option<Combo>, rest: Draws)
    ensures (combo, rest) == Synthesize(Pools(availableMains, availableSides, availableDrinks), usedItems, dayProfile, ds, MaxAttempts)
    ensures combo.Some? ==> Acceptable(combo.value, usedItems, dayProfile)
    ensures combo.Some? ==> DrawnFrom(combo.value, Pools(availableMains, availableSides, availableDrinks))
  {
    ghost var pools := Pools(availableMains, availableSides, availableDrinks);
    rest := ds;
    for attempt := 0 to MaxAttempts
      invariant Synthesize(pools, usedItems, dayProfile, ds, MaxAttempts)
             == Synthesize(pools, usedItems, dayProfile, rest, MaxAttempts - attempt)
    {
      ghost var before := rest;
      var mainPick := GetRandomItems(availableMains, 1, rest);
      rest := Consume(rest, |availableMains|);
      var sidePick := GetRandomItems(availableSides, 1, rest);
      rest := Consume(rest, |availableSides|);
      var drinkPick := GetRandomItems(availableDrinks, 1, rest);
      rest := Consume(rest, |availableDrinks|);
      ghost var verdict := Attempt(pools, usedItems, dayProfile, before);
      assert verdict.1 == rest;
      SynthesizeUnfold(pools, usedItems, dayProfile, before, MaxAttempts - attempt);

      if |mainPick| == 0 || |sidePick| == 0 || |drinkPick| == 0 {
        continue;
      }
      var judged := CheckAttempt(mainPick[0], sidePick[0], drinkPick[0], usedItems, dayProfile);
      assert verdict.0 == judged;
      if judged.None? {
        continue;
      }
      combo := judged;
      SynthesizeSound(pools, usedItems, dayProfile, ds, MaxAttempts);
      return;
    }
    combo := None;
    assert Synthesize(pools, usedItems, dayProfile, rest, 0) == (None, rest);
  }
}
