/**
 * Random sampling without replacement (getRandomItems and selectSessionMenu in backend/app.js).
 *
 * The source shuffles a copy of an array by sorting it with a comparator that consults
 * Math.random, then keeps a prefix. Math.random is modelled here as an explicit stream of
 * draws: a shuffle places, one position after the other, the element whose index among the
 * remaining ones is the next draw modulo their number. Every ordering of the input is reachable
 * this way; no claim is made about the distribution. A stream that runs out reads as zeros.
 */
module Sampling {
  import opened Menu

  type Draws = seq<nat>

  function Head(ds: Draws): nat { if ds == [] then 0 else ds[0] }

  function Tail(ds: Draws): Draws { if ds == [] then [] else ds[1..] }

  /** The stream left after n draws were taken from ds. */
  function Consume(ds: Draws, n: nat): (rest: Draws)
    ensures |rest| <= |ds|
  {
    if n <= |ds| then ds[n..] else []
  }

  /** Taking a draws and then b draws takes a + b draws. */
  lemma ConsumeTwice(ds: Draws, a: nat, b: nat)
    ensures Consume(Consume(ds, a), b) == Consume(ds, a + b)
  {
    if a + b <= |ds| {
      assert ds[a..][b..] == ds[a + b..];
    }
  }

  /** Taking one full shuffle of each of three pools takes their sizes' sum of draws. */
  lemma ConsumeThrice(ds: Draws, a: nat, b: nat, c: nat)
    ensures Consume(Consume(Consume(ds, a), b), c) == Consume(ds, a + b + c)
  {
    ConsumeTwice(ds, a, b);
    ConsumeTwice(ds, a + b, c);
  }

  function Min(a: nat, b: nat): nat { if a <= b then a else b }

  /** An ordering of arr chosen by |arr| draws of ds (the copied-and-sorted array of the source). */
  function Shuffle<T>(arr: seq<T>, ds: Draws): (r: seq<T>)
    ensures |r| == |arr|
    decreases |arr|
  {
    if arr == [] then []
    else
      var j := Head(ds) % |arr|;
      [arr[j]] + Shuffle(arr[..j] + arr[j + 1..], Tail(ds))
  }

  /** A shuffle is a permutation: the same elements, each as often as in the input. */
  lemma {:induction false} ShufflePermutes<T>(arr: seq<T>, ds: Draws)
    ensures multiset(Shuffle(arr, ds)) == multiset(arr)
  {
    if arr != [] {
      var j := Head(ds) % |arr|;
      var rest := arr[..j] + arr[j + 1..];
      ShufflePermutes(rest, Tail(ds));
      assert arr == arr[..j] + [arr[j]] + arr[j + 1..];
      calc {
        multiset(arr);
        multiset(arr[..j]) + multiset{arr[j]} + multiset(arr[j + 1..]);
        multiset{arr[j]} + multiset(rest);
        multiset([arr[j]] + Shuffle(rest, Tail(ds)));
      }
    }
  }

  /** Removing the element at i removes one occurrence of it from the multiset. */
  lemma RemoveAt<T>(s: seq<T>, i: nat)
    requires i < |s|
    ensures multiset(s[..i] + s[i + 1..]) == multiset(s) - multiset{s[i]}
  {
    assert s == s[..i] + [s[i]] + s[i + 1..];
  }

  /** A draw of j below |arr| puts arr[j] first and shuffles the rest with the remaining draws. */
  lemma ShuffleStep<T>(arr: seq<T>, j: nat, tail: Draws)
    requires j < |arr|
    ensures Shuffle(arr, [j] + tail) == [arr[j]] + Shuffle(arr[..j] + arr[j + 1..], tail)
  {
    var ds := [j] + tail;
    assert Head(ds) == j && Tail(ds) == tail;
    SmallMod(j, |arr|);
  }

  /** A number below the divisor is its own remainder. */
  lemma SmallMod(j: nat, n: nat)
    requires j < n
    ensures j % n == j
  {
    assert j == 0 * n + j;
  }

  /** Every ordering of arr is some shuffle of it: the draws that pick its elements in turn. */
  lemma {:induction false} ShuffleReachesEvery<T>(arr: seq<T>, p: seq<T>) returns (ds: Draws)
    requires multiset(p) == multiset(arr)
    ensures Shuffle(arr, ds) == p
    decreases |arr|
  {
    if arr == [] {
      assert |p| == |multiset(p)| == 0;
      ds := [];
    } else {
      var j := PositionOf(arr, p);
      ghost var rest := arr[..j] + arr[j + 1..];
      assert multiset(p[1..]) == multiset(rest) by {
        RemoveAt(arr, j);
        RemoveAt(p, 0);
      }
      var tail := ShuffleReachesEvery(rest, p[1..]);
      ds := [j] + tail;
      ShuffleStep(arr, j, tail);
      assert p == [p[0]] + p[1..];
    }
  }

  /** Where in arr the first element of a rearrangement of arr sits. */
  lemma PositionOf<T>(arr: seq<T>, p: seq<T>) returns (j: nat)
    requires multiset(p) == multiset(arr) && arr != []
    ensures j < |arr| && p != [] && arr[j] == p[0]
  {
    assert |p| == |multiset(p)| == |multiset(arr)| == |arr|;
    assert p[0] in multiset(arr);
    j :| 0 <= j < |arr| && arr[j] == p[0];
  }

  /**
   * getRandomItems(arr, num): the first min(num, |arr|) elements of a shuffled copy; arr itself
   * is a value, so it is left as it was.
   */
  function GetRandomItems<T>(arr: seq<T>, num: nat, ds: Draws): (r: seq<T>)
    ensures |r| == Min(num, |arr|)
  {
    Shuffle(arr, ds)[..Min(num, |arr|)]
  }

  /** Each sampled element comes from its own position of arr: the sample is a sub-multiset of arr. */
  lemma SampledSubMultiset<T>(arr: seq<T>, num: nat, ds: Draws)
    ensures multiset(GetRandomItems(arr, num, ds)) <= multiset(arr)
  {
    var shuffled := Shuffle(arr, ds);
    ShufflePermutes(arr, ds);
    assert shuffled == shuffled[..Min(num, |arr|)] + shuffled[Min(num, |arr|)..];
  }

  /** Membership follows from the sub-multiset property. */
  lemma {:induction false} SampledFromPool<T>(arr: seq<T>, num: nat, ds: Draws, x: T)
    requires x in GetRandomItems(arr, num, ds)
    ensures x in arr
  {
    var r := GetRandomItems(arr, num, ds);
    SampledSubMultiset(arr, num, ds);
    assert multiset(r)[x] > 0;
    assert multiset(arr)[x] > 0;
  }

  /** The per-slot candidate pools: a few items of each category of the master menu. */
  datatype Pools = Pools(mains: seq<FoodItem>, sides: seq<FoodItem>, drinks: seq<FoodItem>)

  const SessionMains: nat := 8
  const SessionSides: nat := 6
  const SessionDrinks: nat := 6

  /** The draws selectSessionMenu takes: one full shuffle of each category. */
  function SessionMenuDraws(menu: Catalog): nat
  {
    |menu.mainCourses| + |menu.sideDishes| + |menu.drinks|
  }

  /**
   * selectSessionMenu: 8 mains, 6 sides and 6 drinks (fewer only if a category is shorter),
   * each category sampled without replacement. The catalog is the global masterMenu in the
   * source; it is a parameter here.
   */
  function SelectSessionMenu(menu: Catalog, ds: Draws): (p: Pools)
    ensures |p.mains| == Min(SessionMains, |menu.mainCourses|)
    ensures |p.sides| == Min(SessionSides, |menu.sideDishes|)
    ensures |p.drinks| == Min(SessionDrinks, |menu.drinks|)
  {
    Pools(
      GetRandomItems(menu.mainCourses, SessionMains, ds),
      GetRandomItems(menu.sideDishes, SessionSides, Consume(ds, |menu.mainCourses|)),
      GetRandomItems(menu.drinks, SessionDrinks, Consume(ds, |menu.mainCourses| + |menu.sideDishes|)))
  }

  /** Each category of the session menu is a sub-multiset of the catalog's. */
  lemma SessionMenuFromCatalog(menu: Catalog, ds: Draws)
    ensures multiset(SelectSessionMenu(menu, ds).mains) <= multiset(menu.mainCourses)
    ensures multiset(SelectSessionMenu(menu, ds).sides) <= multiset(menu.sideDishes)
    ensures multiset(SelectSessionMenu(menu, ds).drinks) <= multiset(menu.drinks)
  {
    var p := SelectSessionMenu(menu, ds);
    assert p.mains == GetRandomItems(menu.mainCourses, SessionMains, ds);
    SampledSubMultiset(menu.mainCourses, SessionMains, ds);
    assert p.sides == GetRandomItems(menu.sideDishes, SessionSides, Consume(ds, |menu.mainCourses|));
    SampledSubMultiset(menu.sideDishes, SessionSides, Consume(ds, |menu.mainCourses|));
    assert p.drinks == GetRandomItems(menu.drinks, SessionDrinks, Consume(ds, |menu.mainCourses| + |menu.sideDishes|));
    SampledSubMultiset(menu.drinks, SessionDrinks, Consume(ds, |menu.mainCourses| + |menu.sideDishes|));
  }

  /** Every category of the master menu holds twenty items, enough for a full session menu. */
  lemma MasterMenuSizes()
    ensures |MasterMenu.mainCourses| == 20 && |MasterMenu.sideDishes| == 20 && |MasterMenu.drinks| == 20
  {
  }
}
