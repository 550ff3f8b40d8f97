/**
 * The week planner of the POST /generate-combos handler in backend/app.js: for each of the
 * seven days from the requested one, three slots, each filled by a retry loop over the combo
 * synthesizer that accepts only fingerprints new to the request, and, failing that, by a chain
 * of fallbacks ending in a combo with fixed statistics.
 */
module Planner {
  import opened Menu
  import opened Sampling
  import opened Fingerprint
  import opened Synthesizer
  import opened Ledger
  import opened WeekPolicy

  const SlotsPerDay: nat := 3
  const DaysPerWeek: nat := 7
  const MaxComboAttempts: nat := 5000

  /** The manual fallback combo's fixed statistics: 850 kcal and a score of 7.5. */
  const FallbackCalories: nat := 850
  const FallbackScoreTenths: nat := 75
  const FallbackLabel: string := "Balanced Fallback"

  /** combo_id: the fingerprint, or for a manual combo its day and slot (the timestamp is left out). */
  datatype ComboId = Hashed(digest: Digest) | ManualId(day: string, slot: nat)

  datatype PlannedCombo = PlannedCombo(combo: Combo, comboId: ComboId, day: string)

  /** How a slot was filled: the retry loop, or the first, second or last fallback. */
  datatype Origin = Retry | SameProfileFallback | BalancedFallback | Manual

  datatype DayPlan = DayPlan(day: string, dayProfile: string, combos: seq<PlannedCombo>)

  /** The week's extremes; scores in tenths. */
  datatype Stats = Stats(minCalories: nat, maxCalories: nat, minScoreTenths: nat, maxScoreTenths: nat)

  datatype WeekPlan = WeekPlan(weekCombos: seq<DayPlan>, totalDays: nat, totalCombos: nat, stats: Stats)

  /** The handler's answers: the plan (200), a validation message (400), or no combos at all (500). */
  datatype Response = Generated(plan: WeekPlan) | BadRequest(error: string) | ServerError(error: string)

  /** Enough items in every category for a full session menu (8 mains, 6 sides, 6 drinks). */
  predicate Stocked(menu: Catalog)
  {
    |menu.mainCourses| >= SessionMains && |menu.sideDishes| >= SessionSides && |menu.drinks| >= SessionDrinks
  }

  predicate FromCatalog(c: Combo, menu: Catalog)
  {
    c.main in menu.mainCourses && c.side in menu.sideDishes && c.drink in menu.drinks
  }

  function NamesOf(c: Combo): set<string>
  {
    {c.main.name, c.side.name, c.drink.name}
  }

  /** The fingerprints a planned combo contributes to usedComboHashes: none for a manual combo. */
  function DigestOf(pc: PlannedCombo): set<Digest>
  {
    if pc.comboId.Hashed? then {pc.comboId.digest} else {}
  }

  /** What a slot's combo is known to satisfy, given how it was made. */
  predicate Justified(pc: PlannedCombo, origin: Origin, menu: Catalog, profile: Profile, day: string, slot: nat)
  {
    pc.day == day && FromCatalog(pc.combo, menu)
    && match origin
       case Retry =>
         Acceptable(pc.combo, {}, profile) && pc.comboId == Hashed(ComboHash(Items(pc.combo)))
       case SameProfileFallback =>
         Acceptable(pc.combo, {}, profile) && pc.comboId == Hashed(ComboHash(Items(pc.combo)))
       case BalancedFallback =>
         Acceptable(pc.combo, {}, Balanced) && pc.comboId == Hashed(ComboHash(Items(pc.combo)))
       case Manual =>
         pc.comboId == ManualId(day, slot)
         && pc.combo.totalCalories == FallbackCalories
         && pc.combo.avgScoreTenths == FallbackScoreTenths
         && pc.combo.spicyProfile == FallbackLabel
  }

  /** Pools of eight mains and six sides and drinks. */
  predicate PoolsSized(p: Pools)
  {
    |p.mains| == SessionMains && |p.sides| == SessionSides && |p.drinks| == SessionDrinks
  }

  /**
   * Pools of eight mains and six sides and drinks, each drawn without replacement from its
   * catalog category (a sub-multiset of it, so every item is a catalog item).
   */
  predicate SessionPools(p: Pools, menu: Catalog)
  {
    PoolsSized(p)
    && multiset(p.mains) <= multiset(menu.mainCourses) && (forall x :: x in p.mains ==> x in menu.mainCourses)
    && multiset(p.sides) <= multiset(menu.sideDishes) && (forall x :: x in p.sides ==> x in menu.sideDishes)
    && multiset(p.drinks) <= multiset(menu.drinks) && (forall x :: x in p.drinks ==> x in menu.drinks)
  }

  lemma InSubMultiset<T>(xs: seq<T>, ys: seq<T>)
    requires multiset(xs) <= multiset(ys)
    ensures forall x :: x in xs ==> x in ys
  {
    forall x | x in xs
      ensures x in ys
    {
      assert multiset(xs)[x] > 0;
    }
  }

  /** Reshuffling a session menu drawn from a stocked catalog gives session pools. */
  lemma SessionMenuReshuffled(menu: Catalog, session: Pools, dsMains: Draws, dsSides: Draws, dsDrinks: Draws)
    requires Stocked(menu)
    requires |session.mains| == Min(SessionMains, |menu.mainCourses|) && multiset(session.mains) <= multiset(menu.mainCourses)
    requires |session.sides| == Min(SessionSides, |menu.sideDishes|) && multiset(session.sides) <= multiset(menu.sideDishes)
    requires |session.drinks| == Min(SessionDrinks, |menu.drinks|) && multiset(session.drinks) <= multiset(menu.drinks)
    ensures SessionPools(Pools(Shuffle(session.mains, dsMains), Shuffle(session.sides, dsSides), Shuffle(session.drinks, dsDrinks)), menu)
  {
    ShufflePermutes(session.mains, dsMains);
    ShufflePermutes(session.sides, dsSides);
    ShufflePermutes(session.drinks, dsDrinks);
    InSubMultiset(Shuffle(session.mains, dsMains), menu.mainCourses);
    InSubMultiset(Shuffle(session.sides, dsSides), menu.sideDishes);
    InSubMultiset(Shuffle(session.drinks, dsDrinks), menu.drinks);
  }

  /** Adding the three names one by one adds the combo's names. */
  lemma AddedNames(used: set<string>, c: Combo)
    ensures used + {c.main.name} + {c.side.name} + {c.drink.name} == used + NamesOf(c)
  {
  }

  /** A combo the synthesizer drew from session pools, fingerprinted, is a justified retry combo. */
  lemma CandidateJustified(c: Combo, menu: Catalog, pools: Pools, used: set<string>, profile: Profile, day: string, slot: nat)
    requires SessionPools(pools, menu) && DrawnFrom(c, pools) && Acceptable(c, used, profile)
    ensures Justified(PlannedCombo(c, Hashed(ComboHash([c.main, c.side, c.drink])), day), Retry, menu, profile, day, slot)
  {
    assert Items(c) == [c.main, c.side, c.drink];
  }

  /**
   * A combo the synthesizer drew from session pools, with a fingerprint not yet used, is a
   * justified retry combo; accepting it adds exactly its fingerprint and its names.
   */
  lemma RetryAccepts(
    c: Combo, comboHash: Digest, menu: Catalog, pools: Pools, usedComboHashes: set<Digest>, usedItems: set<string>,
    profile: Profile, day: string, slot: nat)
    requires SessionPools(pools, menu) && DrawnFrom(c, pools) && Acceptable(c, usedItems, profile)
    requires comboHash == ComboHash([c.main, c.side, c.drink]) && comboHash !in usedComboHashes
    ensures ComboHash(Items(c)) == comboHash
    ensures var pc := PlannedCombo(c, Hashed(comboHash), day);
      Justified(pc, Retry, menu, profile, day, slot)
      && pc.comboId.digest !in usedComboHashes
      && DigestOf(pc) == {comboHash}
      && usedItems + {c.main.name} + {c.side.name} + {c.drink.name} == usedItems + NamesOf(c)
  {
    AddedNames(usedItems, c);
    CandidateJustified(c, menu, pools, usedItems, profile, day, slot);
  }

  /** The fingerprints of the hashed combos among cs. */
  function Digests(cs: seq<PlannedCombo>): set<Digest>
    decreases |cs|
  {
    if cs == [] then {} else Digests(cs[..|cs| - 1]) + DigestOf(cs[|cs| - 1])
  }

  /** The fingerprints of the combos among cs that the retry loop accepted (the ledger's additions). */
  function RetryDigests(cs: seq<PlannedCombo>, origins: seq<Origin>): set<Digest>
    requires |cs| == |origins|
    decreases |cs|
  {
    if cs == [] then {}
    else
      RetryDigests(cs[..|cs| - 1], origins[..|cs| - 1])
      + (if origins[|cs| - 1] == Retry then DigestOf(cs[|cs| - 1]) else {})
  }

  /** The item names of the combos among cs that the retry loop accepted (usedItemsForThisDay). */
  function RetryNames(cs: seq<PlannedCombo>, origins: seq<Origin>): set<string>
    requires |cs| == |origins|
    decreases |cs|
  {
    if cs == [] then {}
    else
      RetryNames(cs[..|cs| - 1], origins[..|cs| - 1])
      + (if origins[|cs| - 1] == Retry then NamesOf(cs[|cs| - 1].combo) else {})
  }

  lemma {:induction false} DigestsMember(cs: seq<PlannedCombo>, i: nat)
    requires i < |cs| && cs[i].comboId.Hashed?
    ensures cs[i].comboId.digest in Digests(cs)
    decreases |cs|
  {
    if i < |cs| - 1 {
      DigestsMember(cs[..|cs| - 1], i);
    }
  }

  lemma {:induction false} DigestsAppend(xs: seq<PlannedCombo>, ys: seq<PlannedCombo>)
    ensures Digests(xs + ys) == Digests(xs) + Digests(ys)
    decreases |ys|
  {
    if ys != [] {
      var init := ys[..|ys| - 1];
      assert (xs + ys)[..|xs + ys| - 1] == xs + init;
      DigestsAppend(xs, init);
    } else {
      assert xs + ys == xs;
    }
  }

  lemma {:induction false} RetryNamesMember(cs: seq<PlannedCombo>, origins: seq<Origin>, i: nat)
    requires |cs| == |origins| && i < |cs| && origins[i] == Retry
    ensures NamesOf(cs[i].combo) <= RetryNames(cs, origins)
    decreases |cs|
  {
    if i < |cs| - 1 {
      RetryNamesMember(cs[..|cs| - 1], origins[..|cs| - 1], i);
    }
  }

  /**
   * Every combo the retry loop accepted has a fingerprint absent from `before` and from the
   * combos planned ahead of it: the check against usedComboHashes.
   */
  predicate FreshAgainst(cs: seq<PlannedCombo>, origins: seq<Origin>, before: set<Digest>)
    requires |cs| == |origins|
  {
    forall j :: 0 <= j < |cs| && origins[j] == Retry ==>
      cs[j].comboId.Hashed? && cs[j].comboId.digest !in before + Digests(cs[..j])
  }

  /** Within one day, combos accepted by the retry loop share no item name. */
  predicate RetryNamesDisjoint(cs: seq<PlannedCombo>, origins: seq<Origin>)
    requires |cs| == |origins|
  {
    forall i, j :: 0 <= i < j < |cs| && origins[i] == Retry && origins[j] == Retry ==>
      NamesOf(cs[i].combo) !! NamesOf(cs[j].combo)
  }

  /** A combo accepted by the retry loop has a combo_id no earlier combo of the week has. */
  predicate RetryIdsUnique(cs: seq<PlannedCombo>, origins: seq<Origin>)
    requires |cs| == |origins|
  {
    forall i, j :: 0 <= i < j < |cs| && origins[j] == Retry ==> cs[i].comboId != cs[j].comboId
  }

  /** Freshness against the growing usedComboHashes makes the accepted combo_ids unique. */
  lemma FreshMeansUnique(cs: seq<PlannedCombo>, origins: seq<Origin>)
    requires |cs| == |origins| && FreshAgainst(cs, origins, {})
    ensures RetryIdsUnique(cs, origins)
  {
    forall i, j | 0 <= i < j < |cs| && origins[j] == Retry
      ensures cs[i].comboId != cs[j].comboId
    {
      if cs[i].comboId.Hashed? {
        assert cs[..j][i] == cs[i];
        DigestsMember(cs[..j], i);
      }
    }
  }

  /**
   * The pools a slot draws (a fresh session menu, each category then reshuffled) and the
   * draws left over.
   */
  function SlotPools(menu: Catalog, ds: Draws): (r: (Pools, Draws))
    requires Stocked(menu)
    ensures PoolsSized(r.0)
  {
    var session := SelectSessionMenu(menu, ds);
    var dsMains := Consume(ds, SessionMenuDraws(menu));
    var dsSides := Consume(dsMains, |session.mains|);
    var dsDrinks := Consume(dsSides, |session.sides|);
    (Pools(Shuffle(session.mains, dsMains), Shuffle(session.sides, dsSides), Shuffle(session.drinks, dsDrinks)),
     Consume(dsDrinks, |session.drinks|))
  }

  /** A slot's pools are session pools: every item is drawn without replacement from its category. */
  lemma SlotPoolsFromMenu(menu: Catalog, ds: Draws)
    requires Stocked(menu)
    ensures SessionPools(SlotPools(menu, ds).0, menu)
  {
    var session := SelectSessionMenu(menu, ds);
    var dsMains := Consume(ds, SessionMenuDraws(menu));
    var dsSides := Consume(dsMains, |session.mains|);
    var dsDrinks := Consume(dsSides, |session.sides|);
    SessionMenuFromCatalog(menu, ds);
    SessionMenuReshuffled(menu, session, dsMains, dsSides, dsDrinks);
  }

  /**
   * The retry loop's outcome: of up to n synthesizer calls against the names used so far, the
   * first that yields a combo whose fingerprint is not in hashes; and the draws left over.
   */
  function RetryRef(pools: Pools, profile: Profile, hashes: set<Digest>, items: set<string>, ds: Draws, n: nat)
    : (Option<Combo>, Draws)
    decreases n
  {
    if n == 0 then (None, ds)
    else
      var found := Synthesize(pools, items, profile, ds, MaxAttempts);
      if found.0.Some? && ComboHash(Items(found.0.value)) !in hashes then found
      else RetryRef(pools, profile, hashes, items, found.1, n - 1)
  }

  /** One synthesizer call of the retry loop: its combo if the fingerprint is new, otherwise the rest of the calls. */
  lemma RetryRefStep(pools: Pools, profile: Profile, hashes: set<Digest>, items: set<string>, ds: Draws, n: nat)
    requires n > 0
    ensures var found := Synthesize(pools, items, profile, ds, MaxAttempts);
      RetryRef(pools, profile, hashes, items, ds, n)
      == if found.0.Some? && ComboHash(Items(found.0.value)) !in hashes then found
         else RetryRef(pools, profile, hashes, items, found.1, n - 1)
  {
  }

  /** A combo the retry loop settles on is acceptable, drawn from the pools, and has a new fingerprint. */
  lemma {:induction false} RetryRefSound(
    pools: Pools, profile: Profile, hashes: set<Digest>, items: set<string>, ds: Draws, n: nat)
    requires RetryRef(pools, profile, hashes, items, ds, n).0.Some?
    ensures var c := RetryRef(pools, profile, hashes, items, ds, n).0.value;
      Acceptable(c, items, profile) && DrawnFrom(c, pools) && ComboHash(Items(c)) !in hashes
    decreases n
  {
    var found := Synthesize(pools, items, profile, ds, MaxAttempts);
    if found.0.Some? && ComboHash(Items(found.0.value)) !in hashes {
      SynthesizeSound(pools, items, profile, ds, MaxAttempts);
    } else {
      RetryRefSound(pools, profile, hashes, items, found.1, n - 1);
    }
  }

  /** The manual combo: the first item of each pool with the fixed fallback statistics. */
  function ManualCombo(pools: Pools): Combo
    requires pools.mains != [] && pools.sides != [] && pools.drinks != []
  {
    Combo(pools.mains[0], pools.sides[0], pools.drinks[0], FallbackCalories, FallbackScoreTenths, FallbackLabel)
  }

  /**
   * The fallback chain: the synthesizer with no used names and the day's profile; only if that
   * finds nothing, with the balanced profile; only if that finds nothing too, the manual combo.
   */
  function FallbackRef(pools: Pools, profile: Profile, ds: Draws): (Combo, Origin, Draws)
    requires pools.mains != [] && pools.sides != [] && pools.drinks != []
  {
    var first := Synthesize(pools, {}, profile, ds, MaxAttempts);
    if first.0.Some? then (first.0.value, SameProfileFallback, first.1)
    else
      var second := Synthesize(pools, {}, Balanced, first.1, MaxAttempts);
      if second.0.Some? then (second.0.value, BalancedFallback, second.1)
      else (ManualCombo(pools), Manual, second.1)
  }

  /**
   * The order of the fallback chain: the same-profile combo when that try finds one, the
   * balanced one exactly when only the second try does, the manual one exactly when both fail.
   */
  lemma FallbackOrder(pools: Pools, profile: Profile, ds: Draws)
    requires pools.mains != [] && pools.sides != [] && pools.drinks != []
    ensures var first := Synthesize(pools, {}, profile, ds, MaxAttempts);
      var second := Synthesize(pools, {}, Balanced, first.1, MaxAttempts);
      var r := FallbackRef(pools, profile, ds);
      (r.1 == SameProfileFallback <==> first.0.Some?)
      && (r.1 == BalancedFallback <==> first.0.None? && second.0.Some?)
      && (r.1 == Manual <==> first.0.None? && second.0.None?)
      && (first.0.Some? ==> r.0 == first.0.value)
      && (first.0.None? && second.0.Some? ==> r.0 == second.0.value)
  {
  }

  /**
   * What one slot yields from the draws: the retry loop's combo when it finds one, otherwise
   * the fallback chain's on the same pools; with how it was made and the draws left over.
   */
  function SlotRef(menu: Catalog, profile: Profile, hashes: set<Digest>, items: set<string>, ds: Draws)
    : (Combo, Origin, Draws)
    requires Stocked(menu)
  {
    var drawn := SlotPools(menu, ds);
    var retried := RetryRef(drawn.0, profile, hashes, items, drawn.1, MaxComboAttempts);
    if retried.0.Some? then (retried.0.value, Retry, retried.1) else FallbackRef(drawn.0, profile, retried.1)
  }

  /**
   * The order within a slot: the retry loop's combo exactly when it finds one; otherwise the
   * fallback chain, run on the same pools with the draws the retry loop left.
   */
  lemma SlotOrder(menu: Catalog, profile: Profile, hashes: set<Digest>, items: set<string>, ds: Draws)
    requires Stocked(menu)
    ensures var drawn := SlotPools(menu, ds);
      var retried := RetryRef(drawn.0, profile, hashes, items, drawn.1, MaxComboAttempts);
      var r := SlotRef(menu, profile, hashes, items, ds);
      (r.1 == Retry <==> retried.0.Some?)
      && (retried.0.Some? ==> r.0 == retried.0.value && r.2 == retried.1)
      && (retried.0.None? ==> r == FallbackRef(drawn.0, profile, retried.1))
  {
    var drawn := SlotPools(menu, ds);
    var retried := RetryRef(drawn.0, profile, hashes, items, drawn.1, MaxComboAttempts);
    if retried.0.None? {
      FallbackOrder(drawn.0, profile, retried.1);
    }
  }

  /** The slot's pools: a fresh session menu, each category then reshuffled. */
  method DrawSlotPools(menu: Catalog, ds: Draws) returns (pools: Pools, rest: Draws)
    requires Stocked(menu)
    ensures (pools, rest) == SlotPools(menu, ds)
    ensures SessionPools(pools, menu)
  {
    var session := SelectSessionMenu(menu, ds);
    rest := Consume(ds, SessionMenuDraws(menu));
    var dsMains := rest;
    var shuffledMains := Shuffle(session.mains, rest);
    rest := Consume(rest, |session.mains|);
    var dsSides := rest;
    var shuffledSides := Shuffle(session.sides, rest);
    rest := Consume(rest, |session.sides|);
    var dsDrinks := rest;
    var shuffledDrinks := Shuffle(session.drinks, rest);
    rest := Consume(rest, |session.drinks|);
    pools := Pools(shuffledMains, shuffledSides, shuffledDrinks);
    SessionMenuFromCatalog(menu, ds);
    SessionMenuReshuffled(menu, session, dsMains, dsSides, dsDrinks);
  }

  /**
   * One pass of the retry loop: a synthesizer call against the names used today; its combo is
   * accepted when its fingerprint is not in usedComboHashes, and is then recorded in the ledger
   * and in usedComboHashes, its names joining the names used today. The ledger lookup is made
   * but does not affect acceptance.
   */
  method TryCombo(
    menu: Catalog, pools: Pools, day: string, slot: nat, profile: Profile,
    usedComboHashes: set<Digest>, usedItems: set<string>, ledger: LocalLedger, userId: string, ds: Draws)
    returns (accepted: Option<PlannedCombo>, hashesAfter: set<Digest>, itemsAfter: set<string>, rest: Draws)
    requires SessionPools(pools, menu)
    modifies ledger
    ensures var found := Synthesize(pools, usedItems, profile, ds, MaxAttempts);
      rest == found.1
      && (accepted.Some? <==> found.0.Some? && ComboHash(Items(found.0.value)) !in usedComboHashes)
      && (accepted.Some? ==> accepted.value.combo == found.0.value)
    ensures accepted.None? ==>
      hashesAfter == usedComboHashes && itemsAfter == usedItems && ledger.stored == old(ledger.stored)
    ensures accepted.Some? ==>
      Justified(accepted.value, Retry, menu, profile, day, slot)
      && Acceptable(accepted.value.combo, usedItems, profile)
      && accepted.value.comboId.digest !in usedComboHashes
      && hashesAfter == usedComboHashes + DigestOf(accepted.value)
      && itemsAfter == usedItems + NamesOf(accepted.value.combo)
      && ledger.stored == old(ledger.stored) + DigestOf(accepted.value)
  {
    accepted, hashesAfter, itemsAfter := None, usedComboHashes, usedItems;
    var potential;
    potential, rest := GenerateSingleCombo(pools.mains, pools.sides, pools.drinks, usedItems, profile, ds);
    assert Pools(pools.mains, pools.sides, pools.drinks) == pools;
    if potential.Some? {
      var c := potential.value;
      var comboHash := ComboHash([c.main, c.side, c.drink]);
      var existsLocally := comboHash in hashesAfter;
      var existsGlobally := ledger.Exists(comboHash);
      if !existsLocally {
        RetryAccepts(c, comboHash, menu, pools, usedComboHashes, usedItems, profile, day, slot);
        accepted := Some(PlannedCombo(c, Hashed(comboHash), day));
        ledger.Record(comboHash, day, userId);
        hashesAfter := hashesAfter + {comboHash};
        itemsAfter := itemsAfter + {c.main.name};
        itemsAfter := itemsAfter + {c.side.name};
        itemsAfter := itemsAfter + {c.drink.name};
      } else {
        assert ComboHash(Items(c)) == comboHash;
      }
    }
  }

  /**
   * The slot's retry loop: up to 5000 passes of TryCombo, stopping at the first that accepts
   * a combo; the outcome is RetryRef's.
   */
  method RetrySlot(
    menu: Catalog, pools: Pools, day: string, slot: nat, profile: Profile,
    usedComboHashes: set<Digest>, usedItems: set<string>, ledger: LocalLedger, userId: string, ds: Draws)
    returns (accepted: Option<PlannedCombo>, hashesAfter: set<Digest>, itemsAfter: set<string>, rest: Draws)
    requires SessionPools(pools, menu)
    modifies ledger
    ensures accepted.None? <==> RetryRef(pools, profile, usedComboHashes, usedItems, ds, MaxComboAttempts).0.None?
    ensures accepted.Some? ==>
      accepted.value.combo == RetryRef(pools, profile, usedComboHashes, usedItems, ds, MaxComboAttempts).0.value
    ensures rest == RetryRef(pools, profile, usedComboHashes, usedItems, ds, MaxComboAttempts).1
    ensures accepted.None? ==>
      hashesAfter == usedComboHashes && itemsAfter == usedItems && ledger.stored == old(ledger.stored)
    ensures accepted.Some? ==>
      Justified(accepted.value, Retry, menu, profile, day, slot)
      && Acceptable(accepted.value.combo, usedItems, profile)
      && accepted.value.comboId.digest !in usedComboHashes
      && hashesAfter == usedComboHashes + DigestOf(accepted.value)
      && itemsAfter == usedItems + NamesOf(accepted.value.combo)
      && ledger.stored == old(ledger.stored) + DigestOf(accepted.value)
  {
    accepted := None;
    var attempts := 0;
    hashesAfter, itemsAfter, rest := usedComboHashes, usedItems, ds;
    assert MaxComboAttempts - attempts == MaxComboAttempts;
    while accepted.None? && attempts < MaxComboAttempts
      invariant attempts <= MaxComboAttempts
      invariant accepted.None? ==>
        RetryRef(pools, profile, usedComboHashes, usedItems, ds, MaxComboAttempts)
        == RetryRef(pools, profile, usedComboHashes, usedItems, rest, MaxComboAttempts - attempts)
      invariant accepted.Some? ==>
        RetryRef(pools, profile, usedComboHashes, usedItems, ds, MaxComboAttempts) == (Some(accepted.value.combo), rest)
      invariant accepted.None? ==>
        hashesAfter == usedComboHashes && itemsAfter == usedItems && ledger.stored == old(ledger.stored)
      invariant accepted.Some? ==>
        Justified(accepted.value, Retry, menu, profile, day, slot)
        && Acceptable(accepted.value.combo, usedItems, profile)
        && accepted.value.comboId.digest !in usedComboHashes
        && hashesAfter == usedComboHashes + DigestOf(accepted.value)
        && itemsAfter == usedItems + NamesOf(accepted.value.combo)
        && ledger.stored == old(ledger.stored) + DigestOf(accepted.value)
      decreases MaxComboAttempts - attempts
    {
      RetryRefStep(pools, profile, usedComboHashes, usedItems, rest, MaxComboAttempts - attempts);
      accepted, hashesAfter, itemsAfter, rest :=
        TryCombo(menu, pools, day, slot, profile, usedComboHashes, usedItems, ledger, userId, rest);
      attempts := attempts + 1;
    }
  }

  /**
   * The slot's fallback chain: the synthesizer with no used names and the day's profile, then
   * with the balanced profile; a combo found so is fingerprinted without any duplicate check.
   * Failing both, the manual combo of the first item of each pool with fixed statistics.
   */
  method FallbackSlot(menu: Catalog, pools: Pools, day: string, slot: nat, profile: Profile, ds: Draws)
    returns (planned: PlannedCombo, ghost origin: Origin, rest: Draws)
    requires SessionPools(pools, menu)
    ensures planned.day == day && FromCatalog(planned.combo, menu)
    ensures planned.comboId.Hashed? ==>
      planned.comboId == Hashed(ComboHash(Items(planned.combo)))
      && (Acceptable(planned.combo, {}, profile) || Acceptable(planned.combo, {}, Balanced))
    ensures !planned.comboId.Hashed? ==>
      planned.comboId == ManualId(day, slot)
      && planned.combo == Combo(pools.mains[0], pools.sides[0], pools.drinks[0],
           FallbackCalories, FallbackScoreTenths, FallbackLabel)
    ensures (planned.combo, origin, rest) == FallbackRef(pools, profile, ds)
    ensures origin != Retry
    ensures Justified(planned, origin, menu, profile, day, slot)
  {
    var fallback;
    ghost var target := profile;
    fallback, rest := GenerateSingleCombo(pools.mains, pools.sides, pools.drinks, {}, profile, ds);
    origin := SameProfileFallback;
    if fallback.None? {
      fallback, rest := GenerateSingleCombo(pools.mains, pools.sides, pools.drinks, {}, Balanced, rest);
      origin, target := BalancedFallback, Balanced;
    }
    if fallback.Some? {
      var c := fallback.value;
      var comboHash := ComboHash([c.main, c.side, c.drink]);
      planned := PlannedCombo(c, Hashed(comboHash), day);
      FallbackJustified(c, menu, pools, target, origin, profile, day, slot);
    } else {
      var manual := Combo(pools.mains[0], pools.sides[0], pools.drinks[0],
        FallbackCalories, FallbackScoreTenths, FallbackLabel);
      assert manual == ManualCombo(pools);
      planned := PlannedCombo(manual, ManualId(day, slot), day);
      origin := Manual;
      ManualJustified(menu, pools, profile, day, slot);
    }
  }

  /** A combo of the fallback chain, drawn from session pools and fingerprinted, is justified. */
  lemma FallbackJustified(
    c: Combo, menu: Catalog, pools: Pools, target: Profile, origin: Origin, profile: Profile, day: string, slot: nat)
    requires SessionPools(pools, menu) && DrawnFrom(c, pools) && Acceptable(c, {}, target)
    requires (origin == SameProfileFallback && target == profile) || (origin == BalancedFallback && target == Balanced)
    ensures Justified(PlannedCombo(c, Hashed(ComboHash([c.main, c.side, c.drink])), day), origin, menu, profile, day, slot)
  {
    assert Items(c) == [c.main, c.side, c.drink];
  }

  /** The manual combo of the pools' first items is justified. */
  lemma ManualJustified(menu: Catalog, pools: Pools, profile: Profile, day: string, slot: nat)
    requires SessionPools(pools, menu)
    ensures Justified(
      PlannedCombo(Combo(pools.mains[0], pools.sides[0], pools.drinks[0], FallbackCalories, FallbackScoreTenths, FallbackLabel),
        ManualId(day, slot), day),
      Manual, menu, profile, day, slot)
  {
    assert pools.mains[0] in pools.mains && pools.sides[0] in pools.sides && pools.drinks[0] in pools.drinks;
  }

  /**
   * One slot: a fresh session menu, reshuffled, then the retry loop and, if it finds nothing,
   * the fallback chain, whose fingerprint (if any) also joins usedComboHashes.
   */
  method FillSlot(
    menu: Catalog, day: string, slot: nat, profile: Profile, usedComboHashes: set<Digest>, usedItems: set<string>,
    ledger: LocalLedger, userId: string, ds: Draws)
    returns (planned: PlannedCombo, ghost origin: Origin, hashesAfter: set<Digest>, itemsAfter: set<string>, rest: Draws)
    requires Stocked(menu)
    modifies ledger
    ensures (planned.combo, origin, rest) == SlotRef(menu, profile, usedComboHashes, usedItems, ds)
    ensures Justified(planned, origin, menu, profile, day, slot)
    ensures origin == Retry ==> Acceptable(planned.combo, usedItems, profile)
    ensures origin == Retry ==> planned.comboId.digest !in usedComboHashes
    ensures hashesAfter == usedComboHashes + DigestOf(planned)
    ensures origin == Retry ==> itemsAfter == usedItems + NamesOf(planned.combo)
    ensures origin != Retry ==> itemsAfter == usedItems
    ensures origin == Retry ==> ledger.stored == old(ledger.stored) + DigestOf(planned)
    ensures origin != Retry ==> ledger.stored == old(ledger.stored)
  {
    var pools;
    pools, rest := DrawSlotPools(menu, ds);
    var accepted;
    accepted, hashesAfter, itemsAfter, rest :=
      RetrySlot(menu, pools, day, slot, profile, usedComboHashes, usedItems, ledger, userId, rest);
    if accepted.Some? {
      planned := accepted.value;
      origin := Retry;
    } else {
      planned, origin, rest := FallbackSlot(menu, pools, day, slot, profile, rest);
      RecordedDigest(hashesAfter, planned);
      if planned.comboId.Hashed? {
        hashesAfter := hashesAfter + {planned.comboId.digest};
      }
    }
  }

  /** Adding a planned combo's fingerprint, if it has one, adds exactly its DigestOf. */
  lemma RecordedDigest(hashes: set<Digest>, pc: PlannedCombo)
    ensures (if pc.comboId.Hashed? then hashes + {pc.comboId.digest} else hashes) == hashes + DigestOf(pc)
  {
  }

  /** An acceptable combo uses none of the used names. */
  lemma AcceptableAvoidsUsed(c: Combo, used: set<string>, profile: Profile)
    requires Acceptable(c, used, profile)
    ensures NamesOf(c) !! used
  {
  }

  /** Appending a slot's combo to the day keeps freshness and disjointness, and grows the sets by it. */
  lemma SlotAppended(cs: seq<PlannedCombo>, os: seq<Origin>, pc: PlannedCombo, o: Origin, before: set<Digest>)
    requires |cs| == |os| && FreshAgainst(cs, os, before) && RetryNamesDisjoint(cs, os)
    requires o == Retry ==>
      pc.comboId.Hashed? && pc.comboId.digest !in before + Digests(cs) && NamesOf(pc.combo) !! RetryNames(cs, os)
    ensures FreshAgainst(cs + [pc], os + [o], before)
    ensures RetryNamesDisjoint(cs + [pc], os + [o])
    ensures Digests(cs + [pc]) == Digests(cs) + DigestOf(pc)
    ensures RetryDigests(cs + [pc], os + [o]) == RetryDigests(cs, os) + (if o == Retry then DigestOf(pc) else {})
    ensures RetryNames(cs + [pc], os + [o]) == RetryNames(cs, os) + (if o == Retry then NamesOf(pc.combo) else {})
  {
    var cs', os' := cs + [pc], os + [o];
    assert cs'[..|cs|] == cs && os'[..|cs|] == os;
    forall j | 0 <= j < |cs'| && os'[j] == Retry
      ensures cs'[j].comboId.Hashed? && cs'[j].comboId.digest !in before + Digests(cs'[..j])
    {
      if j < |cs| {
        assert cs'[..j] == cs[..j];
      }
    }
    forall i, j | 0 <= i < j < |cs'| && os'[i] == Retry && os'[j] == Retry
      ensures NamesOf(cs'[i].combo) !! NamesOf(cs'[j].combo)
    {
      if j == |cs| {
        RetryNamesMember(cs, os, i);
      }
    }
  }

  /** Each of a day's slots so far is justified by how it was filled. */
  predicate SlotsJustified(cs: seq<PlannedCombo>, os: seq<Origin>, menu: Catalog, profile: Profile, day: string)
  {
    |cs| == |os| && forall k :: 0 <= k < |cs| ==> Justified(cs[k], os[k], menu, profile, day, k)
  }

  /**
   * What a slot filled against the day's earlier fingerprints and names adds to the day:
   * the day's combos stay fresh against the week's earlier fingerprints, the retry loop's
   * combos keep to distinct names, and the names, fingerprints and ledger grow accordingly.
   */
  lemma SlotExtendsDay(
    menu: Catalog, day: string, slot: nat, profile: Profile, before: set<Digest>,
    cs: seq<PlannedCombo>, os: seq<Origin>, pc: PlannedCombo, o: Origin,
    usedItems: set<string>, itemsAfter: set<string>, hashesAfter: set<Digest>,
    stored: set<Digest>, storedBefore: set<Digest>, storedAfter: set<Digest>)
    requires |cs| == |os| && FreshAgainst(cs, os, before) && RetryNamesDisjoint(cs, os)
    requires SlotsJustified(cs, os, menu, profile, day) && slot == |cs|
    requires usedItems == RetryNames(cs, os)
    requires storedBefore == stored + RetryDigests(cs, os)
    requires Justified(pc, o, menu, profile, day, slot)
    requires o == Retry ==> Acceptable(pc.combo, usedItems, profile)
    requires o == Retry ==> pc.comboId.digest !in before + Digests(cs)
    requires hashesAfter == before + Digests(cs) + DigestOf(pc)
    requires o == Retry ==> itemsAfter == usedItems + NamesOf(pc.combo)
    requires o != Retry ==> itemsAfter == usedItems
    requires o == Retry ==> storedAfter == storedBefore + DigestOf(pc)
    requires o != Retry ==> storedAfter == storedBefore
    ensures SlotsJustified(cs + [pc], os + [o], menu, profile, day)
    ensures FreshAgainst(cs + [pc], os + [o], before)
    ensures RetryNamesDisjoint(cs + [pc], os + [o])
    ensures itemsAfter == RetryNames(cs + [pc], os + [o])
    ensures hashesAfter == before + Digests(cs + [pc])
    ensures storedAfter == stored + RetryDigests(cs + [pc], os + [o])
  {
    if o == Retry {
      AcceptableAvoidsUsed(pc.combo, usedItems, profile);
    }
    SlotAppended(cs, os, pc, o, before);
    JustifiedAppended(cs, os, pc, o, menu, profile, day);
  }

  /** A justified slot after justified slots keeps the day's slots justified. */
  lemma JustifiedAppended(
    cs: seq<PlannedCombo>, os: seq<Origin>, pc: PlannedCombo, o: Origin, menu: Catalog, profile: Profile, day: string)
    requires SlotsJustified(cs, os, menu, profile, day)
    requires Justified(pc, o, menu, profile, day, |cs|)
    ensures SlotsJustified(cs + [pc], os + [o], menu, profile, day)
  {
    forall k | 0 <= k < |cs| + 1
      ensures Justified((cs + [pc])[k], (os + [o])[k], menu, profile, day, k)
    {
      if k < |cs| {
        assert (cs + [pc])[k] == cs[k] && (os + [o])[k] == os[k];
      }
    }
  }

  /** The planned combo a slot's combo becomes: fingerprinted, or for a manual combo its day-and-slot id. */
  function PlannedOf(c: Combo, origin: Origin, day: string, slot: nat): PlannedCombo
  {
    PlannedCombo(c, if origin == Manual then ManualId(day, slot) else Hashed(ComboHash(Items(c))), day)
  }

  /**
   * The day planned so far (done, with its origins) completed by the slots from slot on: each
   * the reference slot against the fingerprints and the retry names so far, with the draws the
   * slot before left. Yields the day's planned combos, their origins, the final usedComboHashes
   * and the draws left over.
   */
  function DayRef(
    menu: Catalog, day: string, profile: Profile, hashes: set<Digest>, items: set<string>, ds: Draws, slot: nat,
    done: seq<PlannedCombo>, doneOrigins: seq<Origin>)
    : (seq<PlannedCombo>, seq<Origin>, set<Digest>, Draws)
    requires Stocked(menu)
    decreases SlotsPerDay - slot, 1
  {
    if slot >= SlotsPerDay then (done, doneOrigins, hashes, ds)
    else SlotThenDay(menu, day, profile, hashes, items, ds, slot, done, doneOrigins)
  }

  /** Slot number slot filled by the reference slot, then the rest of the day. */
  function SlotThenDay(
    menu: Catalog, day: string, profile: Profile, hashes: set<Digest>, items: set<string>, ds: Draws, slot: nat,
    done: seq<PlannedCombo>, doneOrigins: seq<Origin>)
    : (seq<PlannedCombo>, seq<Origin>, set<Digest>, Draws)
    requires Stocked(menu) && slot < SlotsPerDay
    decreases SlotsPerDay - slot, 0
  {
    var r := SlotRef(menu, profile, hashes, items, ds);
    var pc := PlannedOf(r.0, r.1, day, slot);
    DayRef(menu, day, profile, hashes + DigestOf(pc), if r.1 == Retry then items + NamesOf(r.0) else items, r.2,
      slot + 1, done + [pc], doneOrigins + [r.1])
  }

  /**
   * A slot filled as the reference slot prescribes, with its fingerprint and (for a retry combo)
   * its names recorded, leaves the day's outcome as it was.
   */
  lemma SlotAdvancesDay(
    menu: Catalog, day: string, profile: Profile, hashes: set<Digest>, items: set<string>, ds: Draws, slot: nat,
    done: seq<PlannedCombo>, doneOrigins: seq<Origin>,
    pc: PlannedCombo, o: Origin, hashesAfter: set<Digest>, itemsAfter: set<string>, rest: Draws)
    requires Stocked(menu) && slot < SlotsPerDay
    requires (pc.combo, o, rest) == SlotRef(menu, profile, hashes, items, ds)
    requires Justified(pc, o, menu, profile, day, slot)
    requires hashesAfter == hashes + DigestOf(pc)
    requires o == Retry ==> itemsAfter == items + NamesOf(pc.combo)
    requires o != Retry ==> itemsAfter == items
    ensures DayRef(menu, day, profile, hashes, items, ds, slot, done, doneOrigins)
      == DayRef(menu, day, profile, hashesAfter, itemsAfter, rest, slot + 1, done + [pc], doneOrigins + [o])
  {
    assert DayRef(menu, day, profile, hashes, items, ds, slot, done, doneOrigins)
      == SlotThenDay(menu, day, profile, hashes, items, ds, slot, done, doneOrigins);
    assert pc == PlannedOf(pc.combo, o, day, slot);
  }

  /**
   * The day planned so far, from the fingerprints and draws it started with, is on the way to
   * the reference day: completing it from the current sets and draws gives the same outcome.
   */
  predicate DayOnTrack(
    menu: Catalog, day: string, profile: Profile, startHashes: set<Digest>, startDraws: Draws,
    hashes: set<Digest>, items: set<string>, ds: Draws, slot: nat, done: seq<PlannedCombo>, doneOrigins: seq<Origin>)
    requires Stocked(menu)
  {
    DayRef(menu, day, profile, startHashes, {}, startDraws, 0, [], [])
    == DayRef(menu, day, profile, hashes, items, ds, slot, done, doneOrigins)
  }

  /** Filling a slot as the reference slot prescribes keeps the day on track. */
  lemma SlotKeepsTrack(
    menu: Catalog, day: string, profile: Profile, startHashes: set<Digest>, startDraws: Draws,
    hashes: set<Digest>, items: set<string>, ds: Draws, slot: nat, done: seq<PlannedCombo>, doneOrigins: seq<Origin>,
    pc: PlannedCombo, o: Origin, hashesAfter: set<Digest>, itemsAfter: set<string>, rest: Draws)
    requires Stocked(menu) && slot < SlotsPerDay
    requires DayOnTrack(menu, day, profile, startHashes, startDraws, hashes, items, ds, slot, done, doneOrigins)
    requires (pc.combo, o, rest) == SlotRef(menu, profile, hashes, items, ds)
    requires Justified(pc, o, menu, profile, day, slot)
    requires hashesAfter == hashes + DigestOf(pc)
    requires o == Retry ==> itemsAfter == items + NamesOf(pc.combo)
    requires o != Retry ==> itemsAfter == items
    ensures DayOnTrack(menu, day, profile, startHashes, startDraws,
      hashesAfter, itemsAfter, rest, slot + 1, done + [pc], doneOrigins + [o])
  {
    SlotAdvancesDay(menu, day, profile, hashes, items, ds, slot, done, doneOrigins, pc, o, hashesAfter, itemsAfter, rest);
  }

  /** After the last slot the day is what was planned, with the fingerprints and draws left. */
  lemma DayRefEnd(
    menu: Catalog, day: string, profile: Profile, hashes: set<Digest>, items: set<string>, ds: Draws,
    done: seq<PlannedCombo>, doneOrigins: seq<Origin>)
    requires Stocked(menu)
    ensures DayRef(menu, day, profile, hashes, items, ds, SlotsPerDay, done, doneOrigins) == (done, doneOrigins, hashes, ds)
  {
  }

  /**
   * combos and origins are the reference day's for day, planned against the fingerprints hashes
   * with the draws ds, and hashesAfter and rest are the fingerprints and draws it leaves.
   */
  predicate DayMatches(
    menu: Catalog, day: string, hashes: set<Digest>, ds: Draws,
    combos: seq<PlannedCombo>, origins: seq<Origin>, hashesAfter: set<Digest>, rest: Draws)
    requires Stocked(menu)
  {
    var r := DayRef(menu, day, DayProfile(day).0, hashes, {}, ds, 0, [], []);
    combos == r.0 && origins == r.1 && hashesAfter == r.2 && rest == r.3
  }

  /** A day kept on track through its last slot is the reference day. */
  lemma DayOnTrackEnd(
    menu: Catalog, day: string, startHashes: set<Digest>, startDraws: Draws,
    hashes: set<Digest>, items: set<string>, ds: Draws, done: seq<PlannedCombo>, doneOrigins: seq<Origin>)
    requires Stocked(menu)
    requires DayOnTrack(menu, day, DayProfile(day).0, startHashes, startDraws, hashes, items, ds, SlotsPerDay, done, doneOrigins)
    ensures DayMatches(menu, day, startHashes, startDraws, done, doneOrigins, hashes, ds)
  {
    DayRefEnd(menu, day, DayProfile(day).0, hashes, items, ds, done, doneOrigins);
  }

  /**
   * One day: its profile and remark, a fresh set of used item names, and three slots. The
   * fingerprints of the day's hashed combos join usedComboHashes; those the retry loop accepted
   * were new to it and are the ledger's additions.
   */
  method PlanDay(
    menu: Catalog, day: string, usedComboHashes: set<Digest>, ledger: LocalLedger, userId: string, ds: Draws)
    returns (plan: DayPlan, ghost origins: seq<Origin>, hashesAfter: set<Digest>, rest: Draws)
    requires Stocked(menu)
    modifies ledger
    ensures DayMatches(menu, day, usedComboHashes, ds, plan.combos, origins, hashesAfter, rest)
    ensures PlannedDay(plan, origins, menu, day)
    ensures FreshAgainst(plan.combos, origins, usedComboHashes)
    ensures hashesAfter == usedComboHashes + Digests(plan.combos)
    ensures ledger.stored == old(ledger.stored) + RetryDigests(plan.combos, origins)
  {
    var profileAndRemark := DayProfile(day);
    var dayProfileType := profileAndRemark.0;
    var dayCombos: seq<PlannedCombo> := [];
    origins := [];
    var usedItemsForThisDay: set<string> := {};
    hashesAfter, rest := usedComboHashes, ds;
    for slot := 0 to SlotsPerDay
      invariant |dayCombos| == slot && |origins| == slot
      invariant SlotsJustified(dayCombos, origins, menu, dayProfileType, day)
      invariant FreshAgainst(dayCombos, origins, usedComboHashes)
      invariant RetryNamesDisjoint(dayCombos, origins)
      invariant usedItemsForThisDay == RetryNames(dayCombos, origins)
      invariant hashesAfter == usedComboHashes + Digests(dayCombos)
      invariant ledger.stored == old(ledger.stored) + RetryDigests(dayCombos, origins)
      invariant DayOnTrack(menu, day, dayProfileType, usedComboHashes, ds,
        hashesAfter, usedItemsForThisDay, rest, slot, dayCombos, origins)
    {
      ghost var hashesBefore, itemsBefore, restBefore, storedBefore := hashesAfter, usedItemsForThisDay, rest, ledger.stored;
      var planned; ghost var origin;
      planned, origin, hashesAfter, usedItemsForThisDay, rest :=
        FillSlot(menu, day, slot, dayProfileType, hashesAfter, usedItemsForThisDay, ledger, userId, rest);
      SlotExtendsDay(menu, day, slot, dayProfileType, usedComboHashes, dayCombos, origins, planned, origin,
        itemsBefore, usedItemsForThisDay, hashesAfter, old(ledger.stored), storedBefore, ledger.stored);
      SlotKeepsTrack(menu, day, dayProfileType, usedComboHashes, ds,
        hashesBefore, itemsBefore, restBefore, slot, dayCombos, origins,
        planned, origin, hashesAfter, usedItemsForThisDay, rest);
      dayCombos := dayCombos + [planned];
      origins := origins + [origin];
    }
    DayOnTrackEnd(menu, day, usedComboHashes, ds, hashesAfter, usedItemsForThisDay, rest, dayCombos, origins);
    plan := DayPlan(day, profileAndRemark.1, dayCombos);
  }

  /** allWeekCombos.flatMap(dayData => dayData.combos). */
  function AllCombos(days: seq<DayPlan>): seq<PlannedCombo>
    decreases |days|
  {
    if days == [] then [] else AllCombos(days[..|days| - 1]) + days[|days| - 1].combos
  }

  function Totals(cs: seq<PlannedCombo>): seq<nat>
  {
    seq(|cs|, i requires 0 <= i < |cs| => cs[i].combo.totalCalories)
  }

  function Scores(cs: seq<PlannedCombo>): seq<nat>
  {
    seq(|cs|, i requires 0 <= i < |cs| => cs[i].combo.avgScoreTenths)
  }

  predicate IsMin(m: nat, xs: seq<nat>) { m in xs && forall x :: x in xs ==> m <= x }

  predicate IsMax(m: nat, xs: seq<nat>) { m in xs && forall x :: x in xs ==> x <= m }

  /**
   * The days planned so far, when the week starts at WeekDays[start]: the d-th is the d-th day
   * of the cycle with its remark and three combos, justified by how each slot was filled, and
   * the retry-accepted combos of a day share no item name.
   */
  predicate PlannedWeek(days: seq<DayPlan>, origins: seq<Origin>, menu: Catalog, start: nat)
    requires start < |WeekDays|
  {
    |origins| == 3 * |days|
    && forall d :: 0 <= d < |days| ==> PlannedDay(days[d], origins[3 * d..3 * d + 3], menu, DayAt(start, d))
  }

  /**
   * One planned day: the day's remark and three combos, each justified by how its slot was
   * filled, the retry-accepted ones sharing no item name.
   */
  predicate PlannedDay(plan: DayPlan, origins: seq<Origin>, menu: Catalog, day: string)
  {
    plan.day == day
    && plan.dayProfile == DayProfile(day).1
    && |plan.combos| == SlotsPerDay && |origins| == SlotsPerDay
    && RetryNamesDisjoint(plan.combos, origins)
    && forall k :: 0 <= k < SlotsPerDay ==>
      Justified(plan.combos[k], origins[k], menu, DayProfile(day).0, day, k)
  }

  lemma {:induction false} AllCombosLength(days: seq<DayPlan>)
    requires forall d :: 0 <= d < |days| ==> |days[d].combos| == SlotsPerDay
    ensures |AllCombos(days)| == 3 * |days|
    decreases |days|
  {
    if days != [] {
      AllCombosLength(days[..|days| - 1]);
    }
  }

  lemma AllCombosAppend(days: seq<DayPlan>, plan: DayPlan)
    ensures AllCombos(days + [plan]) == AllCombos(days) + plan.combos
  {
    assert (days + [plan])[..|days|] == days;
  }

  lemma {:induction false} RetryDigestsAppend(xs: seq<PlannedCombo>, xo: seq<Origin>, ys: seq<PlannedCombo>, yo: seq<Origin>)
    requires |xs| == |xo| && |ys| == |yo|
    ensures RetryDigests(xs + ys, xo + yo) == RetryDigests(xs, xo) + RetryDigests(ys, yo)
    decreases |ys|
  {
    if ys == [] {
      assert xs + ys == xs && xo + yo == xo;
    } else {
      var n := |ys| - 1;
      assert (xs + ys)[..|xs| + n] == xs + ys[..n];
      assert (xo + yo)[..|xs| + n] == xo + yo[..n];
      RetryDigestsAppend(xs, xo, ys[..n], yo[..n]);
    }
  }

  /** A day planned against the week's fingerprints keeps the week's fingerprints fresh. */
  lemma FreshAppended(xs: seq<PlannedCombo>, xo: seq<Origin>, ys: seq<PlannedCombo>, yo: seq<Origin>)
    requires |xs| == |xo| && |ys| == |yo|
    requires FreshAgainst(xs, xo, {}) && FreshAgainst(ys, yo, Digests(xs))
    ensures FreshAgainst(xs + ys, xo + yo, {})
  {
    var zs, zo := xs + ys, xo + yo;
    forall j | 0 <= j < |zs| && zo[j] == Retry
      ensures zs[j].comboId.Hashed? && zs[j].comboId.digest !in Digests(zs[..j])
    {
      if j >= |xs| {
        var k := j - |xs|;
        assert zs[..j] == xs + ys[..k];
        assert zo[j] == yo[k] && zs[j] == ys[k];
        DigestsAppend(xs, ys[..k]);
      }
    }
  }

  /** Appending a planned day keeps the week planned. */
  lemma DayAppended(
    days: seq<DayPlan>, origins: seq<Origin>, menu: Catalog, start: nat, plan: DayPlan, dayOrigins: seq<Origin>,
    d: nat)
    requires start < |WeekDays| && PlannedWeek(days, origins, menu, start) && |days| == d
    requires PlannedDay(plan, dayOrigins, menu, DayAt(start, d))
    ensures |days + [plan]| == d + 1
    ensures PlannedWeek(days + [plan], origins + dayOrigins, menu, start)
  {
    var days', origins' := days + [plan], origins + dayOrigins;
    forall d | 0 <= d < |days'|
      ensures PlannedDay(days'[d], origins'[3 * d..3 * d + 3], menu, DayAt(start, d))
    {
      if d < |days| {
        assert PlannedDay(days[d], origins[3 * d..3 * d + 3], menu, DayAt(start, d));
        assert days'[d] == days[d];
        assert origins'[3 * d..3 * d + 3] == origins[3 * d..3 * d + 3];
      } else {
        assert origins'[3 * d..3 * d + 3] == dayOrigins;
      }
    }
  }

  /**
   * What a day planned against the week's fingerprints so far adds to the week's combos: the
   * retry combos stay fresh, and the fingerprints and the ledger grow by the day's.
   */
  lemma DayExtendsWeek(
    days: seq<DayPlan>, origins: seq<Origin>, plan: DayPlan, dayOrigins: seq<Origin>,
    hashesBefore: set<Digest>, hashesAfter: set<Digest>,
    stored: set<Digest>, storedBefore: set<Digest>, storedAfter: set<Digest>)
    requires |AllCombos(days)| == |origins| && |plan.combos| == |dayOrigins|
    requires FreshAgainst(AllCombos(days), origins, {})
    requires hashesBefore == Digests(AllCombos(days))
    requires storedBefore == stored + RetryDigests(AllCombos(days), origins)
    requires FreshAgainst(plan.combos, dayOrigins, hashesBefore)
    requires hashesAfter == hashesBefore + Digests(plan.combos)
    requires storedAfter == storedBefore + RetryDigests(plan.combos, dayOrigins)
    ensures |AllCombos(days + [plan])| == |origins + dayOrigins|
    ensures FreshAgainst(AllCombos(days + [plan]), origins + dayOrigins, {})
    ensures hashesAfter == Digests(AllCombos(days + [plan]))
    ensures storedAfter == stored + RetryDigests(AllCombos(days + [plan]), origins + dayOrigins)
  {
    AllCombosAppend(days, plan);
    FreshAppended(AllCombos(days), origins, plan.combos, dayOrigins);
    DigestsAppend(AllCombos(days), plan.combos);
    RetryDigestsAppend(AllCombos(days), origins, plan.combos, dayOrigins);
  }

  /**
   * The week planned so far (done, with its origins) completed by the days from d on, round the
   * week from WeekDays[start]: each the reference day against the week's fingerprints so far,
   * with the draws the day before left. Yields the days, their origins and the draws left over.
   */
  function WeekRef(
    menu: Catalog, start: nat, hashes: set<Digest>, ds: Draws, d: nat, done: seq<DayPlan>, doneOrigins: seq<Origin>)
    : (seq<DayPlan>, seq<Origin>, Draws)
    requires Stocked(menu) && start < |WeekDays|
    decreases DaysPerWeek - d, 1
  {
    if d >= DaysPerWeek then (done, doneOrigins, ds)
    else DayThenWeek(menu, start, hashes, ds, d, done, doneOrigins)
  }

  /** Day number d planned as the reference day, under its name and remark, then the rest of the week. */
  function DayThenWeek(
    menu: Catalog, start: nat, hashes: set<Digest>, ds: Draws, d: nat, done: seq<DayPlan>, doneOrigins: seq<Origin>)
    : (seq<DayPlan>, seq<Origin>, Draws)
    requires Stocked(menu) && start < |WeekDays| && d < DaysPerWeek
    decreases DaysPerWeek - d, 0
  {
    var day := DayAt(start, d);
    var r := DayRef(menu, day, DayProfile(day).0, hashes, {}, ds, 0, [], []);
    WeekRef(menu, start, r.2, r.3, d + 1, done + [DayPlan(day, DayProfile(day).1, r.0)], doneOrigins + r.1)
  }

  /**
   * A day planned as the reference day prescribes, under its cycle position's name and remark,
   * leaves the week's outcome as it was.
   */
  lemma DayAdvancesWeek(
    menu: Catalog, start: nat, hashes: set<Digest>, ds: Draws, d: nat, done: seq<DayPlan>, doneOrigins: seq<Origin>,
    plan: DayPlan, dayOrigins: seq<Origin>, hashesAfter: set<Digest>, rest: Draws)
    requires Stocked(menu) && start < |WeekDays| && d < DaysPerWeek
    requires DayMatches(menu, DayAt(start, d), hashes, ds, plan.combos, dayOrigins, hashesAfter, rest)
    requires plan.day == DayAt(start, d) && plan.dayProfile == DayProfile(DayAt(start, d)).1
    ensures WeekRef(menu, start, hashes, ds, d, done, doneOrigins)
      == WeekRef(menu, start, hashesAfter, rest, d + 1, done + [plan], doneOrigins + dayOrigins)
  {
    assert WeekRef(menu, start, hashes, ds, d, done, doneOrigins) == DayThenWeek(menu, start, hashes, ds, d, done, doneOrigins);
    assert plan == DayPlan(DayAt(start, d), DayProfile(DayAt(start, d)).1, plan.combos);
  }

  /** After the seventh day the week is what was planned, with the draws left. */
  lemma WeekRefEnd(
    menu: Catalog, start: nat, hashes: set<Digest>, ds: Draws, done: seq<DayPlan>, doneOrigins: seq<Origin>)
    requires Stocked(menu) && start < |WeekDays|
    ensures WeekRef(menu, start, hashes, ds, DaysPerWeek, done, doneOrigins) == (done, doneOrigins, ds)
  {
  }

  /**
   * days and origins are the reference week's from WeekDays[start], planned with the draws ds,
   * and rest is the draws it leaves.
   */
  predicate WeekMatches(menu: Catalog, start: nat, ds: Draws, days: seq<DayPlan>, origins: seq<Origin>, rest: Draws)
    requires Stocked(menu) && start < |WeekDays|
  {
    var r := WeekRef(menu, start, {}, ds, 0, [], []);
    days == r.0 && origins == r.1 && rest == r.2
  }

  /**
   * The week planned so far, from the draws it started with, is on the way to the reference
   * week: completing it from the current fingerprints and draws gives the same outcome.
   */
  predicate WeekOnTrack(
    menu: Catalog, start: nat, startDraws: Draws,
    hashes: set<Digest>, ds: Draws, d: nat, done: seq<DayPlan>, doneOrigins: seq<Origin>)
    requires Stocked(menu) && start < |WeekDays|
  {
    WeekRef(menu, start, {}, startDraws, 0, [], []) == WeekRef(menu, start, hashes, ds, d, done, doneOrigins)
  }

  /** A week kept on track through its seventh day is the reference week. */
  lemma WeekOnTrackEnd(
    menu: Catalog, start: nat, startDraws: Draws,
    hashes: set<Digest>, ds: Draws, done: seq<DayPlan>, doneOrigins: seq<Origin>)
    requires Stocked(menu) && start < |WeekDays|
    requires WeekOnTrack(menu, start, startDraws, hashes, ds, DaysPerWeek, done, doneOrigins)
    ensures WeekMatches(menu, start, startDraws, done, doneOrigins, ds)
  {
    WeekRefEnd(menu, start, hashes, ds, done, doneOrigins);
  }

  /** Planning a day as the reference day prescribes keeps the week on track. */
  lemma DayKeepsTrack(
    menu: Catalog, start: nat, startDraws: Draws,
    hashes: set<Digest>, ds: Draws, d: nat, done: seq<DayPlan>, doneOrigins: seq<Origin>,
    plan: DayPlan, dayOrigins: seq<Origin>, hashesAfter: set<Digest>, rest: Draws)
    requires Stocked(menu) && start < |WeekDays| && d < DaysPerWeek
    requires WeekOnTrack(menu, start, startDraws, hashes, ds, d, done, doneOrigins)
    requires DayMatches(menu, DayAt(start, d), hashes, ds, plan.combos, dayOrigins, hashesAfter, rest)
    requires plan.day == DayAt(start, d) && plan.dayProfile == DayProfile(DayAt(start, d)).1
    ensures WeekOnTrack(menu, start, startDraws, hashesAfter, rest, d + 1, done + [plan], doneOrigins + dayOrigins)
  {
    DayAdvancesWeek(menu, start, hashes, ds, d, done, doneOrigins, plan, dayOrigins, hashesAfter, rest);
  }

  /**
   * One turn of the week loop: a day planned against the week's fingerprints so far, under its
   * cycle position's name, and pushed, keeps every fact the loop relies on.
   */
  lemma DayPushed(
    menu: Catalog, start: nat, d: nat, days: seq<DayPlan>, origins: seq<Origin>,
    hashes: set<Digest>, stored: set<Digest>, storedBefore: set<Digest>,
    plan: DayPlan, dayOrigins: seq<Origin>, hashesAfter: set<Digest>, storedAfter: set<Digest>)
    requires start < |WeekDays|
    requires |days| == d
    requires PlannedWeek(days, origins, menu, start)
    requires |AllCombos(days)| == |origins|
    requires FreshAgainst(AllCombos(days), origins, {})
    requires hashes == Digests(AllCombos(days))
    requires storedBefore == stored + RetryDigests(AllCombos(days), origins)
    requires PlannedDay(plan, dayOrigins, menu, DayAt(start, d))
    requires FreshAgainst(plan.combos, dayOrigins, hashes)
    requires hashesAfter == hashes + Digests(plan.combos)
    requires storedAfter == storedBefore + RetryDigests(plan.combos, dayOrigins)
    ensures |days + [plan]| == d + 1
    ensures PlannedWeek(days + [plan], origins + dayOrigins, menu, start)
    ensures |AllCombos(days + [plan])| == |origins + dayOrigins|
    ensures FreshAgainst(AllCombos(days + [plan]), origins + dayOrigins, {})
    ensures hashesAfter == Digests(AllCombos(days + [plan]))
    ensures storedAfter == stored + RetryDigests(AllCombos(days + [plan]), origins + dayOrigins)
  {
    DayAppended(days, origins, menu, start, plan, dayOrigins, d);
    DayExtendsWeek(days, origins, plan, dayOrigins, hashes, hashesAfter, stored, storedBefore, storedAfter);
  }

  /**
   * The handler's week loop: seven days from WeekDays[start] round the week, each planned
   * against the fingerprints of the week so far, and pushed when it has combos.
   */
  method PlanWeek(menu: Catalog, start: nat, userId: string, ledger: LocalLedger, ds: Draws)
    returns (allWeekCombos: seq<DayPlan>, ghost origins: seq<Origin>, rest: Draws)
    requires Stocked(menu) && start < |WeekDays|
    modifies ledger
    ensures |allWeekCombos| == DaysPerWeek
    ensures PlannedWeek(allWeekCombos, origins, menu, start)
    ensures |AllCombos(allWeekCombos)| == |origins|
    ensures FreshAgainst(AllCombos(allWeekCombos), origins, {})
    ensures ledger.stored == old(ledger.stored) + RetryDigests(AllCombos(allWeekCombos), origins)
    ensures WeekMatches(menu, start, ds, allWeekCombos, origins, rest)
  {
    allWeekCombos, origins, rest := [], [], ds;
    var usedComboHashes: set<Digest> := {};
    for i := 0 to DaysPerWeek
      invariant |allWeekCombos| == i
      invariant PlannedWeek(allWeekCombos, origins, menu, start)
      invariant |AllCombos(allWeekCombos)| == |origins|
      invariant FreshAgainst(AllCombos(allWeekCombos), origins, {})
      invariant usedComboHashes == Digests(AllCombos(allWeekCombos))
      invariant ledger.stored == old(ledger.stored) + RetryDigests(AllCombos(allWeekCombos), origins)
      invariant WeekOnTrack(menu, start, ds, usedComboHashes, rest, i, allWeekCombos, origins)
    {
      var currentDay := DayAt(start, i);
      var dayPlan;
      ghost var dayOrigins;
      ghost var hashesBefore, restBefore, storedBefore := usedComboHashes, rest, ledger.stored;
      dayPlan, dayOrigins, usedComboHashes, rest := PlanDay(menu, currentDay, usedComboHashes, ledger, userId, rest);
      if |dayPlan.combos| > 0 {
        DayPushed(menu, start, i, allWeekCombos, origins, hashesBefore, old(ledger.stored), storedBefore,
          dayPlan, dayOrigins, usedComboHashes, ledger.stored);
        DayKeepsTrack(menu, start, ds, hashesBefore, restBefore, i, allWeekCombos, origins,
          dayPlan, dayOrigins, usedComboHashes, rest);
        allWeekCombos := allWeekCombos + [dayPlan];
        origins := origins + dayOrigins;
      }
    }
    WeekOnTrackEnd(menu, start, ds, usedComboHashes, rest, allWeekCombos, origins);
  }

  /**
   * The response body for a planned week: the days, how many there are, how many combos they
   * hold, and the true minima and maxima of the combos' calorie totals and scores.
   */
  method Summarize(allWeekCombos: seq<DayPlan>) returns (plan: WeekPlan)
    requires |AllCombos(allWeekCombos)| > 0
    ensures plan.weekCombos == allWeekCombos
    ensures plan.totalDays == |allWeekCombos| && plan.totalCombos == |AllCombos(allWeekCombos)|
    ensures IsMin(plan.stats.minCalories, Totals(AllCombos(allWeekCombos)))
    ensures IsMax(plan.stats.maxCalories, Totals(AllCombos(allWeekCombos)))
    ensures IsMin(plan.stats.minScoreTenths, Scores(AllCombos(allWeekCombos)))
    ensures IsMax(plan.stats.maxScoreTenths, Scores(AllCombos(allWeekCombos)))
  {
    var allCombos := AllCombos(allWeekCombos);
    var totalCals := Totals(allCombos);
    var avgOps := Scores(allCombos);
    var stats := Stats(MinOf(totalCals), MaxOf(totalCals), MinOf(avgOps), MaxOf(avgOps));
    plan := WeekPlan(allWeekCombos, |allWeekCombos|, |allCombos|, stats);
  }

  /**
   * The POST /generate-combos handler. A missing, empty or unknown day is answered with 400 and
   * changes nothing. Otherwise seven days are planned, from the requested one round the week;
   * each has its profile's remark and three combos; every combo comes from the master menu and is
   * acceptable for its day's profile (the balanced one for the second fallback) or is the manual
   * combo; a combo accepted by the retry loop has a combo_id no earlier combo of the week has and
   * shares no item with the other retry-accepted combos of its day; the ledger gains exactly the
   * fingerprints of the retry-accepted combos; and the statistics are the true minima and maxima.
   */
  method GenerateCombos(day: Option<string>, userId: string, ledger: LocalLedger, ds: Draws)
    returns (response: Response, ghost origins: seq<Origin>, rest: Draws)
    modifies ledger
    ensures ValidateDay(day).Rejected? ==>
      response == BadRequest(ValidateDay(day).error) && ledger.stored == old(ledger.stored)
    ensures ValidateDay(day).Start? ==>
      response.Generated?
      && |response.plan.weekCombos| == DaysPerWeek
      && response.plan.totalDays == DaysPerWeek
      && response.plan.totalCombos == DaysPerWeek * SlotsPerDay
      && |AllCombos(response.plan.weekCombos)| == |origins| == DaysPerWeek * SlotsPerDay
      && PlannedWeek(response.plan.weekCombos, origins, MasterMenu, ValidateDay(day).index)
      && WeekMatches(MasterMenu, ValidateDay(day).index, ds, response.plan.weekCombos, origins, rest)
      && RetryIdsUnique(AllCombos(response.plan.weekCombos), origins)
      && ledger.stored == old(ledger.stored) + RetryDigests(AllCombos(response.plan.weekCombos), origins)
      && IsMin(response.plan.stats.minCalories, Totals(AllCombos(response.plan.weekCombos)))
      && IsMax(response.plan.stats.maxCalories, Totals(AllCombos(response.plan.weekCombos)))
      && IsMin(response.plan.stats.minScoreTenths, Scores(AllCombos(response.plan.weekCombos)))
      && IsMax(response.plan.stats.maxScoreTenths, Scores(AllCombos(response.plan.weekCombos)))
  {
    origins, rest := [], ds;
    if day.None? || day.value == "" {
      response := BadRequest(MissingDay);
      return;
    }
    var requested := day.value;
    var startIndex := IndexOf(WeekDays, ToLower(requested));
    if startIndex == -1 {
      response := BadRequest(InvalidDay);
      return;
    }

    MasterMenuSizes();
    var allWeekCombos;
    allWeekCombos, origins, rest := PlanWeek(MasterMenu, startIndex, userId, ledger, rest);

    if |allWeekCombos| == 0 {
      // Every planned day holds three combos, so the 500 answer is never given.
      assert false;
      response := ServerError("Unable to generate any combos for the week starting from " + requested
        + ". Please try again or contact support.");
      return;
    }

    AllCombosLength(allWeekCombos);
    FreshMeansUnique(AllCombos(allWeekCombos), origins);
    var plan := Summarize(allWeekCombos);
    response := Generated(plan);
  }
}
