/**
 * The day policy of the POST /generate-combos handler in backend/app.js: validating the
 * requested day, cycling through the week from it, the profile and remark of each weekday,
 * and the minimum and maximum the response reports.
 */
module WeekPolicy {
  import opened Menu
  import opened Synthesizer

  const WeekDays: seq<string> :=
    ["monday", "tuesday", "wednesday", "thursday", "friday", "saturday", "sunday"]

  const MissingDay: string := "Please specify a day to generate combos for."
  const InvalidDay: string := "Invalid day specified."

  function LowerChar(c: char): char
  {
    if 'A' <= c <= 'Z' then (c as int + 32) as char else c
  }

  predicate IsUpper(c: char) { 'A' <= c <= 'Z' }

  /** No ASCII capital letter occurs in s. */
  predicate NoCapitals(s: string)
  {
    forall i :: 0 <= i < |s| ==> !IsUpper(s[i])
  }

  /**
   * s and w spell the same word up to ASCII case: position by position the characters agree,
   * or the one in s is a capital letter and the one in w is its small letter, 32 code points on.
   */
  predicate SameUpToCase(s: string, w: string)
  {
    |s| == |w|
    && forall i :: 0 <= i < |s| ==> s[i] == w[i] || (IsUpper(s[i]) && w[i] as int == s[i] as int + 32)
  }

  /**
   * String.prototype.toLowerCase on ASCII letters: the result spells the input up to case and
   * holds no capital letter.
   */
  function ToLower(s: string): (r: string)
    ensures SameUpToCase(s, r)
    ensures NoCapitals(r)
  {
    seq(|s|, i requires 0 <= i < |s| => LowerChar(s[i]))
  }

  /** Lowering s gives the capital-free word w exactly when s spells w up to case. */
  lemma ToLowerMatches(s: string, w: string)
    requires NoCapitals(w)
    ensures ToLower(s) == w <==> SameUpToCase(s, w)
  {
    if SameUpToCase(s, w) {
      forall i | 0 <= i < |s|
        ensures ToLower(s)[i] == w[i]
      {
        if s[i] != w[i] {
          assert IsUpper(s[i]);
        } else {
          assert !IsUpper(w[i]);
        }
      }
    }
  }

  /** The weekday names are written in small letters. */
  lemma WeekDaysLowerCase()
    ensures forall k :: 0 <= k < |WeekDays| ==> NoCapitals(WeekDays[k])
  {
    forall k, i | 0 <= k < |WeekDays| && 0 <= i < |WeekDays[k]|
      ensures !IsUpper(WeekDays[k][i])
    {
      assert WeekDays[k][i] in "abcdefghijklmnopqrstuvwxyz";
    }
  }

  /** Lowering twice is lowering once. */
  lemma ToLowerIdempotent(s: string)
    ensures ToLower(ToLower(s)) == ToLower(s)
  {
    var once := ToLower(s);
    forall i | 0 <= i < |s|
      ensures ToLower(once)[i] == once[i]
    {
      assert once[i] == LowerChar(s[i]);
    }
  }

  /** Array.prototype.indexOf: the first position holding x, or -1 when there is none. */
  function IndexOf(xs: seq<string>, x: string): (r: int)
    ensures -1 <= r < |xs|
    ensures r == -1 <==> x !in xs
    ensures 0 <= r ==> xs[r] == x && x !in xs[..r]
    decreases |xs|
  {
    if xs == [] then -1
    else if xs[0] == x then 0
    else
      var k := IndexOf(xs[1..], x);
      assert x in xs[1..] ==> x in xs;
      assert 0 <= k ==> xs[..k + 1] == [xs[0]] + xs[1..][..k];
      if k == -1 then -1 else k + 1
  }

  /** The outcome of validating the requested day: where the week starts, or the 400 message. */
  datatype Checked = Start(index: nat) | Rejected(error: string)

  /**
   * The two checks of the handler before any generation: a day must be given and non-empty,
   * and its lower-case form must be one of the seven weekday names.
   */
  function ValidateDay(day: Option<string>): (r: Checked)
    ensures r.Start? <==> day.Some? && day.value != "" && ToLower(day.value) in WeekDays
    ensures r.Start? ==> r.index < |WeekDays| && WeekDays[r.index] == ToLower(day.value)
    ensures r.Rejected? ==> r.error == (if day.None? || day.value == "" then MissingDay else InvalidDay)
  {
    if day.None? || day.value == "" then Rejected(MissingDay)
    else
      var startIndex := IndexOf(WeekDays, ToLower(day.value));
      if startIndex == -1 then Rejected(InvalidDay) else Start(startIndex)
  }

  /**
   * A day is accepted exactly when it is non-empty and spells one of the seven weekday names
   * in any mixture of case, and the week then starts at that name.
   */
  lemma ValidateMeansWeekday(s: string)
    ensures ValidateDay(Some(s)).Start? <==>
      s != "" && exists k :: 0 <= k < |WeekDays| && SameUpToCase(s, WeekDays[k])
    ensures ValidateDay(Some(s)).Start? ==> SameUpToCase(s, WeekDays[ValidateDay(Some(s)).index])
  {
    WeekDaysLowerCase();
    if ValidateDay(Some(s)).Start? {
      var k := ValidateDay(Some(s)).index;
      ToLowerMatches(s, WeekDays[k]);
    }
    if s != "" && exists k :: 0 <= k < |WeekDays| && SameUpToCase(s, WeekDays[k]) {
      var k :| 0 <= k < |WeekDays| && SameUpToCase(s, WeekDays[k]);
      ToLowerMatches(s, WeekDays[k]);
      assert ToLower(s) in WeekDays;
    }
  }

  /** Validation does not depend on the case of the letters. */
  lemma ValidateIgnoresCase(s: string)
    ensures ValidateDay(Some(s)) == ValidateDay(Some(ToLower(s)))
  {
    ToLowerIdempotent(s);
  }

  /** The i-th day processed when the week starts at WeekDays[start]. */
  function DayAt(start: nat, i: nat): (day: string)
    requires start < |WeekDays|
    ensures day in WeekDays
  {
    WeekDays[(start + i) % 7]
  }

  /** The seven names differ: their first two letters already do. */
  lemma WeekDaysDistinct()
    ensures forall i, j :: 0 <= i < j < |WeekDays| ==> WeekDays[i] != WeekDays[j]
  {
    var w := WeekDays;
    assert w[0][..2] == "mo" && w[1][..2] == "tu" && w[2][..2] == "we" && w[3][..2] == "th";
    assert w[4][..2] == "fr" && w[5][..2] == "sa" && w[6][..2] == "su";
    forall i, j | 0 <= i < j < |w|
      ensures w[i] != w[j]
    {
      if i == 0 {
      } else if i == 1 {
      } else if i == 2 {
      } else if i == 3 {
      } else if i == 4 {
      } else {
      }
    }
  }

  /** The requested day is processed first. */
  lemma CycleStarts(start: nat)
    requires start < |WeekDays|
    ensures DayAt(start, 0) == WeekDays[start]
  {
  }

  /** Cycling from the requested day never processes a day twice. */
  lemma CycleDistinct(start: nat, i: nat, j: nat)
    requires start < |WeekDays| && i < j < 7
    ensures DayAt(start, i) != DayAt(start, j)
  {
    WeekDaysDistinct();
    assert (start + i) % 7 == if start + i < 7 then start + i else start + i - 7;
    assert (start + j) % 7 == if start + j < 7 then start + j else start + j - 7;
  }

  /** How many days after the requested one WeekDays[k] is processed. */
  function CycleOffset(start: nat, k: nat): (i: nat)
    requires start < |WeekDays| && k < |WeekDays|
    ensures i < 7
  {
    if start <= k then k - start else k + 7 - start
  }

  /** Cycling from the requested day reaches WeekDays[k] after CycleOffset(start, k) days. */
  lemma CycleReaches(start: nat, k: nat)
    requires start < |WeekDays| && k < |WeekDays|
    ensures DayAt(start, CycleOffset(start, k)) == WeekDays[k]
  {
    assert (start + CycleOffset(start, k)) % 7 == k;
  }

  /**
   * Cycling from the requested day: no day comes twice, and every weekday comes within the
   * seven days processed.
   */
  lemma WeekCycle(start: nat)
    requires start < |WeekDays|
    ensures forall i, j :: 0 <= i < j < 7 ==> DayAt(start, i) != DayAt(start, j)
    ensures forall k :: 0 <= k < 7 ==> DayAt(start, CycleOffset(start, k)) == WeekDays[k]
  {
    forall i, j | 0 <= i < j < 7
      ensures DayAt(start, i) != DayAt(start, j)
    {
      CycleDistinct(start, i, j);
    }
    forall k | 0 <= k < 7
      ensures DayAt(start, CycleOffset(start, k)) == WeekDays[k]
    {
      CycleReaches(start, k);
    }
  }

  const SweetStartRemark: string :=
    "Emphasizing a 'Very Sweet' profile to start the week, offering delightful and comforting flavors."
  const FridayRemark: string :=
    "A 'Spicy' profile to kick off the weekend, featuring bold and exciting tastes!"
  const SaturdayRemark: string :=
    "A 'Spicy' profile for the weekend, featuring bold and exciting tastes!"
  const SweetEndRemark: string :=
    "A 'Sweet' profile to end the week, offering delightful and comforting flavors."
  const MidWeekRemark: string :=
    "A 'Balanced' profile for a steady mid-week experience, ensuring a harmonious blend of flavors."
  const GeneralRemark: string :=
    "A general balanced selection, offering a satisfying variety for any day."

  /** The switch on the current day: the profile handed to the synthesizer and the day's remark. */
  function DayProfile(day: string): (p: (Profile, string))
    ensures p.0 != Unconstrained
    ensures p.0 == Sweet <==> day == "monday" || day == "sunday"
    ensures p.0 == Spicy <==> day == "friday" || day == "saturday"
    ensures p.0 == Balanced <==> day != "monday" && day != "sunday" && day != "friday" && day != "saturday"
  {
    if day == "monday" then (Sweet, SweetStartRemark)
    else if day == "friday" then (Spicy, FridayRemark)
    else if day == "saturday" then (Spicy, SaturdayRemark)
    else if day == "sunday" then (Sweet, SweetEndRemark)
    else if day == "tuesday" || day == "wednesday" || day == "thursday" then (Balanced, MidWeekRemark)
    else (Balanced, GeneralRemark)
  }

  /** Math.min over a non-empty list: a member that no member undercuts. */
  function MinOf(xs: seq<nat>): (m: nat)
    requires |xs| > 0
    ensures m in xs
    ensures forall x :: x in xs ==> m <= x
  {
    if |xs| == 1 then xs[0]
    else
      var m := MinOf(xs[1..]);
      assert forall x :: x in xs ==> x == xs[0] || x in xs[1..];
      if xs[0] <= m then xs[0] else m
  }

  /** Math.max over a non-empty list: a member that no member exceeds. */
  function MaxOf(xs: seq<nat>): (m: nat)
    requires |xs| > 0
    ensures m in xs
    ensures forall x :: x in xs ==> x <= m
  {
    if |xs| == 1 then xs[0]
    else
      var m := MaxOf(xs[1..]);
      assert forall x :: x in xs ==> x == xs[0] || x in xs[1..];
      if xs[0] >= m then xs[0] else m
  }
}
