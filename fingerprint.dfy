/**
 * The combo fingerprint (generateComboHash in backend/app.js): the three item names, sorted
 * with JavaScript's default string order, joined with '|' and hashed with SHA-256.
 *
 * SHA-256 itself is not modelled: the digest is the constructor Sha256 applied to the canonical
 * key, an injective function of the key. What matters is the key, which makes the fingerprint
 * independent of the order in which the items are listed.
 */
module Fingerprint {
  import opened Menu
  import opened Sampling

  /**
   * Array.prototype.sort's default order on strings: element by element, a proper prefix first.
   * The engine compares UTF-16 code units and Dafny's char is a Unicode scalar value; the two
   * orders differ only for characters above U+FFFF, which no catalog name contains.
   */
  predicate LexLeq(a: string, b: string)
    decreases |a|
  {
    a == [] || (b != [] && (a[0] < b[0] || (a[0] == b[0] && LexLeq(a[1..], b[1..]))))
  }

  lemma {:induction false} LexLeqReflexive(a: string)
    ensures LexLeq(a, a)
    decreases |a|
  {
    if a != [] {
      LexLeqReflexive(a[1..]);
    }
  }

  lemma {:induction false} LexLeqTotal(a: string, b: string)
    ensures LexLeq(a, b) || LexLeq(b, a)
    decreases |a|
  {
    if a != [] && b != [] && a[0] == b[0] {
      LexLeqTotal(a[1..], b[1..]);
    }
  }

  lemma {:induction false} LexLeqAntisymmetric(a: string, b: string)
    requires LexLeq(a, b) && LexLeq(b, a)
    ensures a == b
    decreases |a|
  {
    if a != [] && b != [] {
      LexLeqAntisymmetric(a[1..], b[1..]);
      assert a == [a[0]] + a[1..] && b == [b[0]] + b[1..];
    }
  }

  lemma {:induction false} LexLeqTransitive(a: string, b: string, c: string)
    requires LexLeq(a, b) && LexLeq(b, c)
    ensures LexLeq(a, c)
    decreases |a|
  {
    if a != [] && b != [] && c != [] && a[0] == b[0] == c[0] {
      LexLeqTransitive(a[1..], b[1..], c[1..]);
    }
  }

  predicate Sorted(s: seq<string>)
  {
    forall i, j :: 0 <= i < j < |s| ==> LexLeq(s[i], s[j])
  }

  /** A sequence whose head is below every later element and whose tail is sorted is sorted. */
  lemma SortedCons(y: string, t: seq<string>)
    requires Sorted(t)
    requires forall j :: 0 <= j < |t| ==> LexLeq(y, t[j])
    ensures Sorted([y] + t)
  {
    forall i, j | 0 <= i < j < |[y] + t|
      ensures LexLeq(([y] + t)[i], ([y] + t)[j])
    {
      if i > 0 {
        assert ([y] + t)[i] == t[i - 1];
      }
      assert ([y] + t)[j] == t[j - 1];
    }
  }

  /** The head of a sorted sequence is below everything in its tail, which is sorted too. */
  lemma SortedHead(s: seq<string>)
    requires Sorted(s) && s != []
    ensures Sorted(s[1..])
    ensures forall j :: 0 <= j < |s[1..]| ==> LexLeq(s[0], s[1..][j])
  {
    forall j | 0 <= j < |s[1..]|
      ensures LexLeq(s[0], s[1..][j])
    {
      assert s[1..][j] == s[j + 1];
    }
  }

  /** A lower bound of t that is also below x bounds every arrangement of t plus x. */
  lemma BoundCarries(y: string, x: string, t: seq<string>, r: seq<string>)
    requires forall j :: 0 <= j < |t| ==> LexLeq(y, t[j])
    requires LexLeq(y, x)
    requires multiset(r) == multiset(t) + multiset{x}
    ensures forall j :: 0 <= j < |r| ==> LexLeq(y, r[j])
  {
    forall j | 0 <= j < |r|
      ensures LexLeq(y, r[j])
    {
      assert r[j] in multiset(r);
      if r[j] != x {
        assert r[j] in multiset(t);
        var k :| 0 <= k < |t| && t[k] == r[j];
      }
    }
  }

  /** The number of characters of all the strings together. */
  function TotalLength(parts: seq<string>): nat
  {
    if parts == [] then 0 else |parts[0]| + TotalLength(parts[1..])
  }

  /** Places x before the first element it is below, or at the end: one element longer. */
  function Insert(x: string, s: seq<string>): (r: seq<string>)
    ensures |r| == |s| + 1
    ensures TotalLength(r) == TotalLength(s) + |x|
  {
    if s == [] then [x]
    else if LexLeq(x, s[0]) then
      assert ([x] + s)[1..] == s;
      [x] + s
    else
      var tail := Insert(x, s[1..]);
      assert ([s[0]] + tail)[1..] == tail;
      [s[0]] + tail
  }

  /** Inserting into a sorted sequence keeps it sorted and adds exactly the one element. */
  lemma {:induction false} InsertSorted(x: string, s: seq<string>)
    requires Sorted(s)
    ensures Sorted(Insert(x, s))
    ensures multiset(Insert(x, s)) == multiset(s) + multiset{x}
    decreases |s|
  {
    if s != [] {
      SortedHead(s);
      assert s == [s[0]] + s[1..];
      if LexLeq(x, s[0]) {
        forall j | 0 <= j < |s|
          ensures LexLeq(x, s[j])
        {
          if j > 0 {
            assert s[j] == s[1..][j - 1];
            LexLeqTransitive(x, s[0], s[j]);
          }
        }
        SortedCons(x, s);
      } else {
        var tail := Insert(x, s[1..]);
        InsertSorted(x, s[1..]);
        LexLeqTotal(x, s[0]);
        BoundCarries(s[0], x, s[1..], tail);
        SortedCons(s[0], tail);
      }
    }
  }

  /** Insertion sort (the source sorts with the engine's built-in sort); keeps length and characters. */
  function Sort(s: seq<string>): (r: seq<string>)
    ensures |r| == |s|
    ensures TotalLength(r) == TotalLength(s)
  {
    if s == [] then []
    else
      assert TotalLength(s) == |s[0]| + TotalLength(s[1..]);
      Insert(s[0], Sort(s[1..]))
  }

  /** Sort yields the sorted rearrangement of its input. */
  lemma {:induction false} SortSorted(s: seq<string>)
    ensures Sorted(Sort(s))
    ensures multiset(Sort(s)) == multiset(s)
    decreases |s|
  {
    if s != [] {
      SortSorted(s[1..]);
      InsertSorted(s[0], Sort(s[1..]));
      assert s == [s[0]] + s[1..];
    } else {
      assert Sort(s) == [];
    }
  }

  /** The head of a non-empty sorted sequence is below every element of its multiset. */
  lemma HeadIsLeast(a: seq<string>, x: string)
    requires Sorted(a) && x in multiset(a)
    ensures LexLeq(a[0], x)
  {
    var i :| 0 <= i < |a| && a[i] == x;
    if i == 0 {
      LexLeqReflexive(x);
    }
  }

  /** Dropping the head of a sequence removes one occurrence of it from the multiset. */
  lemma DropHead(a: seq<string>)
    requires a != []
    ensures multiset(a[1..]) == multiset(a) - multiset{a[0]}
  {
    assert a == [a[0]] + a[1..];
  }

  /** A multiset of strings has exactly one sorted arrangement. */
  lemma {:induction false} SortedUnique(a: seq<string>, b: seq<string>)
    requires Sorted(a) && Sorted(b)
    requires multiset(a) == multiset(b)
    ensures a == b
  {
    if a != [] {
      assert a[0] == b[0] by {
        assert a[0] in multiset(b);
        assert b[0] in multiset(a);
        HeadIsLeast(b, a[0]);
        HeadIsLeast(a, b[0]);
        LexLeqAntisymmetric(a[0], b[0]);
      }
      assert multiset(a[1..]) == multiset(b[1..]) by {
        DropHead(a);
        DropHead(b);
      }
      assert Sorted(a[1..]) && Sorted(b[1..]) by {
        SortedHead(a);
        SortedHead(b);
      }
      SortedUnique(a[1..], b[1..]);
      assert a == [a[0]] + a[1..] && b == [b[0]] + b[1..];
    } else {
      assert |multiset(b)| == 0;
    }
  }

  /** Array.prototype.join with a separator: the parts' characters and one separator between each two. */
  function Join(parts: seq<string>, sep: string): (r: string)
    ensures |parts| > 0 ==> |r| == TotalLength(parts) + (|parts| - 1) * |sep|
  {
    if |parts| == 0 then ""
    else if |parts| == 1 then parts[0]
    else parts[0] + sep + Join(parts[1..], sep)
  }

  /** The string that is hashed: sorted names joined with '|'. */
  function CanonicalKey(items: seq<FoodItem>): (key: string)
    ensures |items| > 0 ==> |key| == TotalLength(Names(items)) + |items| - 1
  {
    Join(Sort(Names(items)), "|")
  }

  /** A SHA-256 digest, standing for the hex string the source stores; injective in its key. */
  datatype Digest = Sha256(key: string)

  /** The fingerprint of a three-item combo: a key of the three names and two separator bars. */
  function ComboHash(items: seq<FoodItem>): (d: Digest)
    ensures |items| == 3 ==> |d.key| == |items[0].name| + |items[1].name| + |items[2].name| + 2
  {
    assert |items| == 3 ==> TotalLength(Names(items)) == |items[0].name| + |items[1].name| + |items[2].name| by {
      if |items| == 3 {
        var n := Names(items);
        assert n[1..][0] == n[1] && n[1..][1..][0] == n[2] && n[1..][1..][1..] == [];
        assert TotalLength(n[1..][1..]) == |n[2]| + TotalLength([]);
        assert TotalLength(n[1..]) == |n[1]| + TotalLength(n[1..][1..]);
      }
    }
    Sha256(CanonicalKey(items))
  }

  /** The fingerprint depends only on the multiset of names, not on the order of the items. */
  lemma ComboHashOrderIndependent(xs: seq<FoodItem>, ys: seq<FoodItem>)
    requires multiset(Names(xs)) == multiset(Names(ys))
    ensures ComboHash(xs) == ComboHash(ys)
  {
    SortSorted(Names(xs));
    SortSorted(Names(ys));
    SortedUnique(Sort(Names(xs)), Sort(Names(ys)));
  }

  /** Dropping the item at i drops its name at i. */
  lemma NamesRemoveAt(ys: seq<FoodItem>, i: nat)
    requires i < |ys|
    ensures multiset(Names(ys[..i] + ys[i + 1..])) == multiset(Names(ys)) - multiset{ys[i].name}
  {
    var ny := Names(ys);
    var rest := ys[..i] + ys[i + 1..];
    forall k | 0 <= k < |rest| ensures Names(rest)[k] == (ny[..i] + ny[i + 1..])[k] {
      if k < i { assert rest[k] == ys[k]; } else { assert rest[k] == ys[k + 1]; }
    }
    assert Names(rest) == ny[..i] + ny[i + 1..];
    RemoveAt(ny, i);
  }

  lemma MultisetCancel(a: multiset<string>, b: multiset<string>, n: string)
    requires n in a && n in b
    requires a - multiset{n} == b - multiset{n}
    ensures a == b
  {
    assert a == (a - multiset{n}) + multiset{n};
    assert b == (b - multiset{n}) + multiset{n};
  }

  /** One step of NamesOfRearrangement: the first item of xs sits at position i of ys. */
  lemma NamesMatchFirst(xs: seq<FoodItem>, ys: seq<FoodItem>, i: nat)
    requires xs != [] && i < |ys| && ys[i] == xs[0]
    requires multiset(Names(xs[1..])) == multiset(Names(ys[..i] + ys[i + 1..]))
    ensures multiset(Names(xs)) == multiset(Names(ys))
  {
    var x := xs[0];
    var a, b := multiset(Names(xs)), multiset(Names(ys));
    assert a - multiset{x.name} == multiset(Names(xs[1..])) && x.name in a by {
      assert Names(xs) == [x.name] + Names(xs[1..]);
    }
    assert b - multiset{x.name} == multiset(Names(ys[..i] + ys[i + 1..])) && x.name in b by {
      NamesRemoveAt(ys, i);
      assert Names(ys)[i] == x.name;
    }
    MultisetCancel(a, b, x.name);
  }

  /** Rearranging the items rearranges their names. */
  lemma {:induction false} NamesOfRearrangement(xs: seq<FoodItem>, ys: seq<FoodItem>)
    requires multiset(xs) == multiset(ys)
    ensures multiset(Names(xs)) == multiset(Names(ys))
    decreases |xs|
  {
    if xs != [] {
      var x := xs[0];
      assert x in multiset(ys);
      var i :| 0 <= i < |ys| && ys[i] == x;
      var rest := ys[..i] + ys[i + 1..];
      assert multiset(xs[1..]) == multiset(rest) by {
        RemoveAt(ys, i);
        assert xs == [x] + xs[1..];
      }
      NamesOfRearrangement(xs[1..], rest);
      NamesMatchFirst(xs, ys, i);
    } else {
      assert |multiset(ys)| == 0;
    }
  }

  /** Listing the same items in any order gives the same fingerprint. */
  lemma ComboHashOfRearrangement(xs: seq<FoodItem>, ys: seq<FoodItem>)
    requires multiset(xs) == multiset(ys)
    ensures ComboHash(xs) == ComboHash(ys)
  {
    NamesOfRearrangement(xs, ys);
    ComboHashOrderIndependent(xs, ys);
  }

  predicate SeparatorFree(s: string)
  {
    forall k :: 0 <= k < |s| ==> s[k] != '|'
  }

  /** Index of the first separator in s, or |s| when there is none. */
  function FirstSeparator(s: string): (k: nat)
    ensures k <= |s|
  {
    if s == [] || s[0] == '|' then 0 else 1 + FirstSeparator(s[1..])
  }

  lemma {:induction false} FirstSeparatorAfter(x: string, rest: string)
    requires SeparatorFree(x)
    ensures FirstSeparator(x + "|" + rest) == |x|
  {
    if x != [] {
      assert (x + "|" + rest)[1..] == x[1..] + "|" + rest;
      FirstSeparatorAfter(x[1..], rest);
    }
  }

  /** Joining the same number of separator-free parts loses nothing. */
  lemma {:induction false} JoinInjective(a: seq<string>, b: seq<string>)
    requires |a| == |b|
    requires forall k :: 0 <= k < |a| ==> SeparatorFree(a[k])
    requires forall k :: 0 <= k < |b| ==> SeparatorFree(b[k])
    requires Join(a, "|") == Join(b, "|")
    ensures a == b
  {
    if |a| >= 2 {
      var j := Join(a, "|");
      assert j == a[0] + "|" + Join(a[1..], "|") == b[0] + "|" + Join(b[1..], "|");
      FirstSeparatorAfter(a[0], Join(a[1..], "|"));
      FirstSeparatorAfter(b[0], Join(b[1..], "|"));
      assert a[0] == j[..|a[0]|] && b[0] == j[..|b[0]|];
      assert Join(a[1..], "|") == j[|a[0]| + 1..] == Join(b[1..], "|");
      JoinInjective(a[1..], b[1..]);
      assert a == [a[0]] + a[1..] && b == [b[0]] + b[1..];
    }
  }

  /**
   * Conversely, when no name contains the separator (true of every catalog name), equal
   * fingerprints of two equally long item lists mean equal multisets of names.
   */
  lemma ComboHashIdentifiesNames(xs: seq<FoodItem>, ys: seq<FoodItem>)
    requires |xs| == |ys|
    requires forall x :: x in xs ==> SeparatorFree(x.name)
    requires forall y :: y in ys ==> SeparatorFree(y.name)
    requires ComboHash(xs) == ComboHash(ys)
    ensures multiset(Names(xs)) == multiset(Names(ys))
  {
    var sx, sy := Sort(Names(xs)), Sort(Names(ys));
    SortSorted(Names(xs));
    SortSorted(Names(ys));
    forall k | 0 <= k < |sx| ensures SeparatorFree(sx[k]) {
      assert sx[k] in multiset(Names(xs));
      var i :| 0 <= i < |xs| && Names(xs)[i] == sx[k];
      assert xs[i] in xs;
    }
    forall k | 0 <= k < |sy| ensures SeparatorFree(sy[k]) {
      assert sy[k] in multiset(Names(ys));
      var i :| 0 <= i < |ys| && Names(ys)[i] == sy[k];
      assert ys[i] in ys;
    }
    JoinInjective(sx, sy);
  }
}
