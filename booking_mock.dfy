/**
 * The booking demo's helpers: the budget and date parsers (regular
 * expressions, written out as the scans they perform), the hotel filter with
 * its relaxed retry and its price-then-distance order, and the two effects
 * that append a linked message and step: choosing a hotel and paying.
 */
module BookingMock {
  import opened Wrappers
  import opened Js
  import opened Environment
  import opened Timeline
  import opened SessionStore

  // ---------------------------------------------------------------------
  // Scanning primitives
  // ---------------------------------------------------------------------

  predicate IsDigit(c: char) { '0' <= c <= '9' }

  /** `[a-z]` under the case-insensitive flag. */
  predicate IsLetter(c: char) { 'a' <= c <= 'z' || 'A' <= c <= 'Z' }

  /** The end of the run of digits that starts at `i` (`\d*`, greedy). */
  function DigitRun(s: string, i: nat): (j: nat)
    requires i <= |s|
    ensures i <= j <= |s| && (j == |s| || !IsDigit(s[j]))
    ensures forall k :: i <= k < j ==> IsDigit(s[k])
    decreases |s| - i
  {
    if i < |s| && IsDigit(s[i]) then DigitRun(s, i + 1) else i
  }

  /** The end of the run of letters that starts at `i` (`[a-z]*` with `/i`). */
  function LetterRun(s: string, i: nat): (j: nat)
    requires i <= |s|
    ensures i <= j <= |s| && (j == |s| || !IsLetter(s[j]))
    ensures forall k :: i <= k < j ==> IsLetter(s[k])
    decreases |s| - i
  {
    if i < |s| && IsLetter(s[i]) then LetterRun(s, i + 1) else i
  }

  /** The end of the run of white space that starts at `i` (`\s*`). */
  function SpaceRun(s: string, i: nat): (j: nat)
    requires i <= |s|
    ensures i <= j <= |s| && (j == |s| || !IsSpace(s[j]))
    ensures forall k :: i <= k < j ==> IsSpace(s[k])
    decreases |s| - i
  {
    if i < |s| && IsSpace(s[i]) then SpaceRun(s, i + 1) else i
  }

  /** The end of `\d{1,2}` at `i`: one or two digits, as many as there are. */
  function UpToTwoDigits(s: string, i: nat): (j: nat)
    requires i <= |s|
    ensures i <= j <= i + 2 && j <= DigitRun(s, i)
    ensures j == i <==> DigitRun(s, i) == i
  {
    if DigitRun(s, i) >= i + 2 then i + 2 else DigitRun(s, i)
  }

  // ---------------------------------------------------------------------
  // Amounts: \d+(?:,\d{3})*(?:\.\d+)?
  // ---------------------------------------------------------------------

  /** `,\d{3}` at `k`. */
  predicate Group(s: string, k: nat) {
    k + 4 <= |s| && s[k] == ',' && IsDigit(s[k + 1]) && IsDigit(s[k + 2]) && IsDigit(s[k + 3])
  }

  /** `(?:,\d{3})*`, greedy: whole groups from `i` on, as many as there are. */
  function GroupsEnd(s: string, i: nat): (j: nat)
    requires i <= |s|
    ensures i <= j <= |s| && (j - i) % 4 == 0
    ensures forall k :: i <= k < j && (k - i) % 4 == 0 ==> Group(s, k)
    ensures !Group(s, j)
    decreases |s| - i
  {
    if Group(s, i) then GroupsEnd(s, i + 4) else i
  }

  /** `(?:\.\d+)?`, greedy. */
  function FractionEnd(s: string, i: nat): (j: nat)
    requires i <= |s|
    ensures i <= j <= |s|
  {
    if i + 1 < |s| && s[i] == '.' && IsDigit(s[i + 1]) then DigitRun(s, i + 1) else i
  }

  /** The end of the amount that starts at digit `i`. */
  function AmountEnd(s: string, i: nat): (j: nat)
    requires i < |s| && IsDigit(s[i])
    ensures i < j <= |s|
  {
    FractionEnd(s, GroupsEnd(s, DigitRun(s, i)))
  }

  function WithoutCommas(t: string): (r: string)
    ensures ',' !in r
    ensures ',' !in t ==> r == t
  {
    if t == [] then [] else (if t[0] == ',' then [] else [t[0]]) + WithoutCommas(t[1..])
  }

  function DigitValue(c: char): nat {
    if IsDigit(c) then (c as int - '0' as int) else 0
  }

  /** The value of a run of decimal digits. */
  function DigitsValue(t: string): nat {
    if t == [] then 0 else DigitsValue(t[..|t| - 1]) * 10 + DigitValue(t[|t| - 1])
  }

  function Pow10(n: nat): nat {
    if n == 0 then 1 else 10 * Pow10(n - 1)
  }

  /** `n` digits are worth less than `10^n`. */
  lemma {:induction false} DigitsBelowPow10(t: string)
    ensures DigitsValue(t) < Pow10(|t|)
  {
    if t != [] {
      DigitsBelowPow10(t[..|t| - 1]);
    }
  }

  function FirstIndex(t: string, c: char): (k: nat)
    ensures k <= |t| && c !in t[..k]
    ensures k < |t| ==> t[k] == c
  {
    if t == [] || t[0] == c then 0 else 1 + FirstIndex(t[1..], c)
  }

  /** `Number(t)` for `t` made of digits and at most one point: the exact decimal value. */
  function DecimalValue(t: string): (r: real)
    ensures r >= 0.0
  {
    var k := FirstIndex(t, '.');
    if k == |t| then DigitsValue(t) as real
    else
      DigitsBelowPow10(t[k + 1..]);
      DigitsValue(t[..k]) as real + DigitsValue(t[k + 1..]) as real / Pow10(|t| - k - 1) as real
  }

  /** The digits after the point add less than one to the whole part before it. */
  lemma FractionBelowOne(t: string)
    ensures var k := FirstIndex(t, '.');
      && (k == |t| ==> DecimalValue(t) == DigitsValue(t) as real)
      && (k < |t| ==>
            DigitsValue(t[..k]) as real <= DecimalValue(t) < DigitsValue(t[..k]) as real + 1.0)
  {
    var k := FirstIndex(t, '.');
    if k < |t| {
      var f := t[k + 1..];
      DigitsBelowPow10(f);
      assert DecimalValue(t) == DigitsValue(t[..k]) as real + DigitsValue(f) as real / Pow10(|f|) as real;
      QuotientBelowOne(DigitsValue(f) as real, Pow10(|f|) as real);
    }
  }

  lemma QuotientBelowOne(x: real, d: real)
    requires 0.0 <= x < d
    ensures 0.0 <= x / d < 1.0
  {
  }

  /** The amount starting at `i`, thousands commas removed, as a number. */
  function AmountValue(s: string, i: nat): real
    requires i < |s| && IsDigit(s[i])
  {
    DecimalValue(WithoutCommas(s[i..AmountEnd(s, i)]))
  }

  // ---------------------------------------------------------------------
  // The patterns and their leftmost match
  // ---------------------------------------------------------------------

  datatype Pattern =
    | Dollar      // \$\s*(amount)
    | BudgetWord  // budget\s*(?:is|=|:)?\s*(amount), case-insensitive
    | IsoDate     // (\d{4}-\d{2}-\d{2})
    | UsDate      // (\d{1,2})\/(\d{1,2})(?:\/(\d{2,4}))?
    | MonthDay    // (jan|…|dec)[a-z]*\s*(\d{1,2}), case-insensitive

  const Months: seq<string> := ["jan", "feb", "mar", "apr", "may", "jun", "jul", "aug", "sep", "oct", "nov", "dec"]

  /** The 1-based month of a lowercased three-letter prefix, or 0. */
  function MonthNumber(m: string): (n: nat)
    ensures n <= 12
    ensures n > 0 <==> m in Months
    ensures n > 0 ==> Months[n - 1] == m
  {
    if m == "jan" then 1 else if m == "feb" then 2 else if m == "mar" then 3
    else if m == "apr" then 4 else if m == "may" then 5 else if m == "jun" then 6
    else if m == "jul" then 7 else if m == "aug" then 8 else if m == "sep" then 9
    else if m == "oct" then 10 else if m == "nov" then 11 else if m == "dec" then 12
    else 0
  }

  /** Where the amount starts after `budget` at `i` (spaces, an optional `is`/`=`/`:`, spaces). */
  function AfterBudgetWord(s: string, i: nat): (j: nat)
    requires i + 6 <= |s|
    ensures j <= |s|
  {
    var a := SpaceRun(s, i + 6);
    var b := if a + 2 <= |s| && Lower(s[a..a + 2]) == "is" then a + 2
             else if a < |s| && (s[a] == '=' || s[a] == ':') then a + 1
             else a;
    SpaceRun(s, b)
  }

  /** Where the day starts after the month name at `i` (further letters, then spaces). */
  function AfterMonthName(s: string, i: nat): (j: nat)
    requires i + 3 <= |s|
    ensures j <= |s|
  {
    SpaceRun(s, LetterRun(s, i + 3))
  }

  /** Does `p` match at `i`? (Each pattern's greedy reading never needs backtracking to succeed.) */
  predicate MatchesAt(p: Pattern, s: string, i: nat) {
    match p
    case Dollar =>
      i < |s| && s[i] == '$' && SpaceRun(s, i + 1) < |s| && IsDigit(s[SpaceRun(s, i + 1)])
    case BudgetWord =>
      i + 6 <= |s| && Lower(s[i..i + 6]) == "budget"
      && AfterBudgetWord(s, i) < |s| && IsDigit(s[AfterBudgetWord(s, i)])
    case IsoDate =>
      i + 10 <= |s| && IsDigit(s[i]) && IsDigit(s[i + 1]) && IsDigit(s[i + 2]) && IsDigit(s[i + 3])
      && s[i + 4] == '-' && IsDigit(s[i + 5]) && IsDigit(s[i + 6])
      && s[i + 7] == '-' && IsDigit(s[i + 8]) && IsDigit(s[i + 9])
    case UsDate =>
      i <= |s| && UpToTwoDigits(s, i) > i && UpToTwoDigits(s, i) < |s| && s[UpToTwoDigits(s, i)] == '/'
      && UpToTwoDigits(s, UpToTwoDigits(s, i) + 1) > UpToTwoDigits(s, i) + 1
    case MonthDay =>
      i + 3 <= |s| && Lower(s[i..i + 3]) in Months
      && AfterMonthName(s, i) < |s| && IsDigit(s[AfterMonthName(s, i)])
  }

  /** The leftmost match of `p` at or after `k`. */
  function FirstMatch(p: Pattern, s: string, k: nat): (r: Option<nat>)
    ensures r.Some? ==> k <= r.value && MatchesAt(p, s, r.value)
                        && forall j :: k <= j < r.value ==> !MatchesAt(p, s, j)
    ensures r.None? ==> forall j :: k <= j ==> !MatchesAt(p, s, j)
    decreases |s| + 1 - k
  {
    if k > |s| then None
    else if MatchesAt(p, s, k) then Some(k)
    else FirstMatch(p, s, k + 1)
  }

  /** The leftmost match is the only match with no match before it. */
  lemma LeftmostIsFirst(p: Pattern, s: string, i: nat)
    requires MatchesAt(p, s, i) && forall j :: 0 <= j < i ==> !MatchesAt(p, s, j)
    ensures FirstMatch(p, s, 0) == Some(i)
  {
    var r := FirstMatch(p, s, 0);
    assert r.Some?;
  }

  // ---------------------------------------------------------------------
  // parseBudget
  // ---------------------------------------------------------------------

  /** `parseBudget(text)`: the first `$` amount, else the first `budget …` amount, else nothing. */
  function ParseBudget(text: string): (r: Option<real>)
    ensures r.None? <==> (forall i :: !MatchesAt(Dollar, text, i)) && (forall i :: !MatchesAt(BudgetWord, text, i))
    ensures r.Some? ==> r.value >= 0.0
  {
    match FirstMatch(Dollar, text, 0)
    case Some(i) => Some(AmountValue(text, SpaceRun(text, i + 1)))
    case None =>
      match FirstMatch(BudgetWord, text, 0)
      case Some(i) => Some(AmountValue(text, AfterBudgetWord(text, i)))
      case None => None
  }

  /** A `$` amount wins over any `budget` amount, wherever the latter stands. */
  lemma DollarPreferred(text: string, i: nat)
    requires MatchesAt(Dollar, text, i) && forall j :: 0 <= j < i ==> !MatchesAt(Dollar, text, j)
    ensures ParseBudget(text) == Some(AmountValue(text, SpaceRun(text, i + 1)))
  {
    LeftmostIsFirst(Dollar, text, i);
  }

  /** Without a `$` amount the first `budget` amount is taken. */
  lemma BudgetWordFallback(text: string, i: nat)
    requires forall j :: !MatchesAt(Dollar, text, j)
    requires MatchesAt(BudgetWord, text, i) && forall j :: 0 <= j < i ==> !MatchesAt(BudgetWord, text, j)
    ensures ParseBudget(text) == Some(AmountValue(text, AfterBudgetWord(text, i)))
  {
    LeftmostIsFirst(BudgetWord, text, i);
  }

  // ---------------------------------------------------------------------
  // parseDate
  // ---------------------------------------------------------------------

  /** The year of `m/d/y`: a two-digit year is in the 2000s, a missing one is the current year. */
  function UsYear(yyyy: Option<string>, currentYear: nat): (r: string)
    ensures yyyy.Some? && |yyyy.value| == 2 ==> r == "20" + yyyy.value
    ensures yyyy.Some? && |yyyy.value| != 2 ==> r == yyyy.value
    ensures yyyy.None? ==> r == NatToString(currentYear)
  {
    match yyyy
    case Some(y) => if |y| == 2 then "20" + y else y
    case None => NatToString(currentYear)
  }

  /** The optional `\/(\d{2,4})` after the day that ends at `j`. */
  function UsYearDigits(s: string, j: nat): (r: Option<string>)
    requires j <= |s|
    ensures r.Some? ==> 2 <= |r.value| <= 4 && forall k :: 0 <= k < |r.value| ==> IsDigit(r.value[k])
  {
    if j < |s| && s[j] == '/' && DigitRun(s, j + 1) >= j + 3 then
      var e := if DigitRun(s, j + 1) >= j + 5 then j + 5 else DigitRun(s, j + 1);
      Some(s[j + 1..e])
    else None
  }

  /** The date an `m/d[/y]` match at `i` stands for. */
  function UsDateText(s: string, i: nat, currentYear: nat): string
    requires MatchesAt(UsDate, s, i)
  {
    var m := UpToTwoDigits(s, i);
    var d := UpToTwoDigits(s, m + 1);
    UsYear(UsYearDigits(s, d), currentYear) + "-" + PadStart2(s[i..m]) + "-" + PadStart2(s[m + 1..d])
  }

  /** The date a month-name match at `i` stands for, in the current year. */
  function MonthDayText(s: string, i: nat, currentYear: nat): string
    requires MatchesAt(MonthDay, s, i)
  {
    var k := AfterMonthName(s, i);
    NatToString(currentYear) + "-" + PadStart2(NatToString(MonthNumber(Lower(s[i..i + 3]))))
      + "-" + PadStart2(s[k..UpToTwoDigits(s, k)])
  }

  /** `parseDate(text)`, with the current year as a parameter. */
  function ParseDate(text: string, currentYear: nat): (r: Option<string>)
    ensures r.None? <==> forall i :: !MatchesAt(IsoDate, text, i) && !MatchesAt(UsDate, text, i) && !MatchesAt(MonthDay, text, i)
  {
    match FirstMatch(IsoDate, text, 0)
    case Some(i) => Some(text[i..i + 10])
    case None =>
      match FirstMatch(UsDate, text, 0)
      case Some(i) => Some(UsDateText(text, i, currentYear))
      case None =>
        match FirstMatch(MonthDay, text, 0)
        case Some(i) => Some(MonthDayText(text, i, currentYear))
        case None => None
  }

  /** The first `yyyy-mm-dd` in the text is returned verbatim, whatever else the text holds. */
  lemma IsoDateVerbatim(text: string, currentYear: nat, i: nat)
    requires MatchesAt(IsoDate, text, i) && forall j :: 0 <= j < i ==> !MatchesAt(IsoDate, text, j)
    ensures ParseDate(text, currentYear) == Some(text[i..i + 10])
    ensures var r := ParseDate(text, currentYear).value;
      |r| == 10 && r[4] == '-' && r[7] == '-'
  {
    LeftmostIsFirst(IsoDate, text, i);
  }

  /** Without an ISO date, the first `m/d[/y]` gives `year-MM-DD`, month and day padded to two digits. */
  lemma {:induction false} UsDatePadded(text: string, currentYear: nat, i: nat)
    requires forall j :: !MatchesAt(IsoDate, text, j)
    requires MatchesAt(UsDate, text, i) && forall j :: 0 <= j < i ==> !MatchesAt(UsDate, text, j)
    ensures var m := UpToTwoDigits(text, i);
      var d := UpToTwoDigits(text, m + 1);
      var y := UsYear(UsYearDigits(text, d), currentYear);
      && ParseDate(text, currentYear) == Some(y + "-" + PadStart2(text[i..m]) + "-" + PadStart2(text[m + 1..d]))
      && |PadStart2(text[i..m])| == 2 && |PadStart2(text[m + 1..d])| == 2
      && EndsWith(PadStart2(text[i..m]), text[i..m])
  {
    UsDateChosen(text, currentYear, i);
    var m := UpToTwoDigits(text, i);
    var d := UpToTwoDigits(text, m + 1);
    assert 1 <= |text[i..m]| <= 2 && 1 <= |text[m + 1..d]| <= 2;
  }

  /** Without an ISO date, the date is the text the first `m/d[/y]` match stands for. */
  lemma UsDateChosen(text: string, currentYear: nat, i: nat)
    requires forall j :: !MatchesAt(IsoDate, text, j)
    requires MatchesAt(UsDate, text, i) && forall j :: 0 <= j < i ==> !MatchesAt(UsDate, text, j)
    ensures ParseDate(text, currentYear) == Some(UsDateText(text, i, currentYear))
  {
    LeftmostIsFirst(UsDate, text, i);
  }

  /** Failing both numeric forms, a month name gives the current year, a month 01–12 and a padded day. */
  lemma {:induction false} MonthDayPadded(text: string, currentYear: nat, i: nat)
    requires forall j :: !MatchesAt(IsoDate, text, j) && !MatchesAt(UsDate, text, j)
    requires MatchesAt(MonthDay, text, i) && forall j :: 0 <= j < i ==> !MatchesAt(MonthDay, text, j)
    ensures var n := MonthNumber(Lower(text[i..i + 3]));
      && 1 <= n <= 12
      && ParseDate(text, currentYear) == Some(MonthDayText(text, i, currentYear))
      && StartsWith(MonthDayText(text, i, currentYear), NatToString(currentYear) + "-" + PadStart2(NatToString(n)) + "-")
  {
    LeftmostIsFirst(MonthDay, text, i);
    var n := MonthNumber(Lower(text[i..i + 3]));
    var k := AfterMonthName(text, i);
    var prefix := NatToString(currentYear) + "-" + PadStart2(NatToString(n)) + "-";
    assert MonthDayText(text, i, currentYear) == prefix + PadStart2(text[k..UpToTwoDigits(text, k)]);
  }

  // ---------------------------------------------------------------------
  // The hotel filter and order
  // ---------------------------------------------------------------------

  /** `h.distanceMeters! <= radius`; an absent distance compares false, as `undefined <= n` does. */
  predicate Within(h: Hotel, radius: int) {
    h.distanceMeters.Some? && h.distanceMeters.value <= radius
  }

  predicate Affordable(h: Hotel, budget: Option<real>) {
    budget.None? || h.price <= budget.value
  }

  /** `filter` by distance, then by budget when one was parsed; order kept. */
  function Eligible(hotels: seq<Hotel>, radius: int, budget: Option<real>): (r: seq<Hotel>)
    ensures forall h :: h in r <==> h in hotels && Within(h, radius) && Affordable(h, budget)
    ensures |r| <= |hotels|
  {
    if hotels == [] then []
    else
      var rest := Eligible(hotels[1..], radius, budget);
      if Within(hotels[0], radius) && Affordable(hotels[0], budget) then [hotels[0]] + rest else rest
  }

  /** The filter distributes over concatenation, so it keeps the hotels' order. */
  lemma {:induction false} EligibleConcat(a: seq<Hotel>, b: seq<Hotel>, radius: int, budget: Option<real>)
    ensures Eligible(a + b, radius, budget) == Eligible(a, radius, budget) + Eligible(b, radius, budget)
  {
    if a == [] {
      assert a + b == b;
    } else {
      assert (a + b)[0] == a[0] && (a + b)[1..] == a[1..] + b;
      EligibleConcat(a[1..], b, radius, budget);
      EligibleHead(a + b, radius, budget);
      EligibleHead(a, radius, budget);
      PrependAssoc(Eligible(a + b, radius, budget), Eligible(a, radius, budget),
                   if Within(a[0], radius) && Affordable(a[0], budget) then [a[0]] else [],
                   Eligible(a[1..], radius, budget), Eligible(b, radius, budget));
    }
  }

  lemma PrependAssoc<T>(x: seq<T>, y: seq<T>, head: seq<T>, s: seq<T>, t: seq<T>)
    requires x == head + (s + t) && y == head + s
    ensures x == y + t
  {
  }

  /** One step of the filter: the first hotel, when it qualifies, ahead of the filtered rest. */
  lemma EligibleHead(hotels: seq<Hotel>, radius: int, budget: Option<real>)
    requires hotels != []
    ensures Eligible(hotels, radius, budget)
            == (if Within(hotels[0], radius) && Affordable(hotels[0], budget) then [hotels[0]] else [])
               + Eligible(hotels[1..], radius, budget)
  {
  }

  const Radius: int := 400
  const RelaxedRadius: int := 600

  /** The hotels the search offers before ordering: within 400 m, or within 600 m when none is. */
  function Candidates(hotels: seq<Hotel>, budget: Option<real>): seq<Hotel> {
    var near := Eligible(hotels, Radius, budget);
    if near != [] then near else Eligible(hotels, RelaxedRadius, budget)
  }

  function Distance(h: Hotel): int {
    if h.distanceMeters.Some? then h.distanceMeters.value else 0
  }

  /** The comparator `(a.price - b.price) || (a.distanceMeters - b.distanceMeters)` is negative. */
  predicate StrictlyBefore(a: Hotel, b: Hotel) {
    a.price < b.price || (a.price == b.price && Distance(a) < Distance(b))
  }

  predicate SortedByPriceThenDistance(hs: seq<Hotel>) {
    forall i, j :: 0 <= i < j < |hs| ==> !StrictlyBefore(hs[j], hs[i])
  }

  /** Insert after every hotel that does not come strictly after `h`. */
  function Insert(h: Hotel, hs: seq<Hotel>): (r: seq<Hotel>)
    ensures multiset(r) == multiset(hs) + multiset{h}
  {
    if hs == [] then [h]
    else if StrictlyBefore(h, hs[0]) then [h] + hs
    else
      assert hs == [hs[0]] + hs[1..];
      [hs[0]] + Insert(h, hs[1..])
  }

  /** Insertion keeps the order. */
  lemma {:induction false} InsertSorted(h: Hotel, hs: seq<Hotel>)
    requires SortedByPriceThenDistance(hs)
    ensures SortedByPriceThenDistance(Insert(h, hs))
  {
    if hs != [] {
      if StrictlyBefore(h, hs[0]) {
        var r := [h] + hs;
        forall i, j | 0 <= i < j < |r| ensures !StrictlyBefore(r[j], r[i]) {
          if i == 0 {
            assert r[j] == hs[j - 1];
            assert j - 1 == 0 || !StrictlyBefore(hs[j - 1], hs[0]);
          }
        }
      } else {
        var rest := Insert(h, hs[1..]);
        InsertSorted(h, hs[1..]);
        var r := [hs[0]] + rest;
        forall j | 0 < j < |r| ensures !StrictlyBefore(r[j], hs[0]) {
          assert r[j] in multiset(rest);
          assert r[j] == h || r[j] in multiset(hs[1..]);
          if r[j] != h {
            var k :| 0 <= k < |hs[1..]| && hs[1..][k] == r[j];
            assert hs[k + 1] == r[j];
          }
        }
      }
    }
  }

  /** `Array.prototype.sort` with that comparator. */
  function SortHotels(hs: seq<Hotel>): (r: seq<Hotel>)
    ensures SortedByPriceThenDistance(r)
    ensures multiset(r) == multiset(hs)
  {
    if hs == [] then []
    else
      assert hs == hs[..|hs| - 1] + [hs[|hs| - 1]];
      InsertSorted(hs[|hs| - 1], SortHotels(hs[..|hs| - 1]));
      Insert(hs[|hs| - 1], SortHotels(hs[..|hs| - 1]))
  }

  /**
   * The filter and sort of `handleBookingQuery`: `filtered` is reassigned by
   * the distance and budget filters, retried at the relaxed radius when empty,
   * then sorted in place.
   */
  method SelectHotels(hotels: seq<Hotel>, budget: Option<real>) returns (filtered: seq<Hotel>)
    ensures multiset(filtered) == multiset(Candidates(hotels, budget))
    ensures SortedByPriceThenDistance(filtered)
  {
    filtered := Eligible(hotels, Radius, budget);
    if |filtered| == 0 {
      filtered := Eligible(hotels, RelaxedRadius, budget);
    }
    filtered := SortHotels(filtered);
  }

  /** Every offered hotel is within budget and within 600 m, and within 400 m unless none of them was. */
  lemma CandidatesQualify(hotels: seq<Hotel>, budget: Option<real>, h: Hotel)
    requires h in Candidates(hotels, budget)
    ensures h in hotels && Affordable(h, budget) && Within(h, RelaxedRadius)
    ensures Within(h, Radius) || forall g :: g in hotels && Affordable(g, budget) ==> !Within(g, Radius)
  {
    var near := Eligible(hotels, Radius, budget);
    if near == [] {
      forall g | g in hotels && Affordable(g, budget)
        ensures !Within(g, Radius)
      {
        assert g !in near;
      }
    }
  }

  /** Every hotel that qualifies at the radius in use is offered. */
  lemma QualifyingOffered(hotels: seq<Hotel>, budget: Option<real>, h: Hotel)
    requires h in hotels && Affordable(h, budget)
    ensures Within(h, Radius) ==> h in Candidates(hotels, budget)
    ensures Within(h, RelaxedRadius) && Eligible(hotels, Radius, budget) == [] ==> h in Candidates(hotels, budget)
  {
    if Within(h, Radius) {
      assert h in Eligible(hotels, Radius, budget);
    }
  }

  // ---------------------------------------------------------------------
  // chooseHotel and payNow
  // ---------------------------------------------------------------------

  /** `[...steps].reverse().find(s => s.kind === kind)`, as an index. */
  function LatestOfKind(steps: seq<Step>, kind: Kind): (r: Option<nat>)
    ensures r.Some? ==> r.value < |steps| && steps[r.value].Kind() == kind
                        && forall j :: r.value < j < |steps| ==> steps[j].Kind() != kind
    ensures r.None? ==> forall j :: 0 <= j < |steps| ==> steps[j].Kind() != kind
  {
    if steps == [] then None
    else if steps[|steps| - 1].Kind() == kind then Some(|steps| - 1)
    else LatestOfKind(steps[..|steps| - 1], kind)
  }

  /** `hotels.find(h => h.id === id)`, as an index. */
  function FindHotel(hotels: seq<Hotel>, id: string): (r: Option<nat>)
    ensures r.Some? ==> r.value < |hotels| && hotels[r.value].id == id
                        && forall j :: 0 <= j < r.value ==> hotels[j].id != id
    ensures r.None? ==> forall j :: 0 <= j < |hotels| ==> hotels[j].id != id
  {
    if hotels == [] then None
    else if hotels[0].id == id then Some(0)
    else match FindHotel(hotels[1..], id)
      case Some(k) => Some(k + 1)
      case None => None
  }

  /**
   * What `chooseHotel(id)` books: the hotel with that id in the latest hotel
   * selection, at the latest map card's venue; nothing without both cards or
   * without such a hotel.
   */
  function BookingChoice(steps: seq<Step>, hotelId: string): (r: Option<StepData>)
    ensures r.None? <==>
      || LatestOfKind(steps, MapCard).None?
      || LatestOfKind(steps, HotelSelection).None?
      || forall h :: h in steps[LatestOfKind(steps, HotelSelection).value].data.hotels ==> h.id != hotelId
    ensures r.Some? ==>
      && r.value.BookingSummaryData? && r.value.hotel.id == hotelId && r.value.date.None?
      && r.value.hotel in steps[LatestOfKind(steps, HotelSelection).value].data.hotels
      && r.value.venue == steps[LatestOfKind(steps, MapCard).value].data.venue
  {
    var m := LatestOfKind(steps, MapCard);
    var sel := LatestOfKind(steps, HotelSelection);
    if m.None? || sel.None? then None
    else
      var hotels := steps[sel.value].data.hotels;
      match FindHotel(hotels, hotelId)
      case None => None
      case Some(k) => Some(BookingSummaryData(steps[m.value].data.venue, hotels[k], None))
  }

  const ChoiceText := "Great choice. Here is your booking summary:"

  /**
   * `chooseHotel(id)`: no change at all when there is nothing to book;
   * otherwise one message to the active thread and one in-progress booking
   * summary linked to it.
   */
  method ChooseHotel(s: Store, hotelId: string)
    requires s.Valid()
    modifies s
    ensures s.Valid()
    ensures BookingChoice(old(s.steps), hotelId).None? ==>
              s.messages == old(s.messages) && s.steps == old(s.steps) && s.threads == old(s.threads)
              && s.nextId == old(s.nextId)
    ensures BookingChoice(old(s.steps), hotelId).Some? ==>
              && Appended(old(s.messages), s.messages, Gullie, [ChoiceText], s.activeThreadId)
              && s.steps == old(s.steps) + [Step(Issued(KindName(BookingSummary), old(s.nextId) + 1), None, InProgress,
                                                 Some(s.now), Some(Issued("m", old(s.nextId))),
                                                 BookingChoice(old(s.steps), hotelId).value)]
              && s.nextId == old(s.nextId) + 2
              && s.threads == TouchedBy(old(s.threads), s.activeThreadId, [ChoiceText], s.activeThreadId, s.now, s.host.stripHtml)
    ensures s.plan == old(s.plan) && s.timers == old(s.timers) && SameThreads(old(s.threads), s.threads)
    ensures s.activeThreadId == old(s.activeThreadId) && s.now == old(s.now)
  {
    var summary := BookingChoice(s.steps, hotelId);
    if summary.None? {
      return;
    }
    var msg := s.GullieSay(ChoiceText, None);
    TouchedByOne(old(s.threads), s.activeThreadId, ChoiceText, s.activeThreadId, s.now, s.host.stripHtml);
    var id := s.CreateStepId(BookingSummary);
    var step := Step(id, None, InProgress, None, Some(msg.id), summary.value);
    UpsertFresh(s.steps, step, s.now);
    s.UpsertStep(step);
  }

  /** A confirmation code: up to six upper-case base-36 characters. */
  predicate RefCode(code: string) {
    |code| <= 6 && forall k :: 0 <= k < |code| ==> IsDigit(code[k]) || 'A' <= code[k] <= 'Z'
  }

  /** The hotel `payNow` confirms: the latest booking summary's, or a placeholder priced at the amount. */
  function PaidHotel(steps: seq<Step>, amount: real): (h: Hotel)
    ensures LatestOfKind(steps, BookingSummary).Some? ==>
              h == steps[LatestOfKind(steps, BookingSummary).value].data.hotel
    ensures LatestOfKind(steps, BookingSummary).None? ==>
              h.id == "selected" && h.name == "Selected Hotel" && h.price == amount && h.address == ""
  {
    match LatestOfKind(steps, BookingSummary)
    case Some(k) => steps[k].data.hotel
    case None => Hotel("selected", "Selected Hotel", amount, GeoPoint(0.0, 0.0), "", None, None)
  }

  function PaymentText(code: string): string {
    "Payment successful. Confirmation: REF-" + code
  }

  /**
   * `payNow(amount)`, with the random code as a parameter: one message with
   * the reference and one completed confirmation step linked to it.
   */
  method PayNow(s: Store, amount: real, code: string)
    requires s.Valid() && RefCode(code)
    modifies s
    ensures s.Valid()
    ensures Appended(old(s.messages), s.messages, Gullie, [PaymentText(code)], s.activeThreadId)
    ensures s.steps == old(s.steps) + [Step(Issued(KindName(Confirmation), old(s.nextId) + 1), None, Completed,
                                            Some(s.now), Some(Issued("m", old(s.nextId))),
                                            ConfirmationData("REF-" + code, PaidHotel(old(s.steps), amount)))]
    ensures s.nextId == old(s.nextId) + 2
    ensures s.plan == old(s.plan) && s.timers == old(s.timers)
    ensures s.threads == TouchedBy(old(s.threads), s.activeThreadId, [PaymentText(code)], s.activeThreadId, s.now, s.host.stripHtml)
    ensures s.activeThreadId == old(s.activeThreadId) && s.now == old(s.now)
  {
    var hotel := PaidHotel(s.steps, amount);
    var reference := "REF-" + code;
    var msg := s.GullieSay(PaymentText(code), None);
    TouchedByOne(old(s.threads), s.activeThreadId, PaymentText(code), s.activeThreadId, s.now, s.host.stripHtml);
    var id := s.CreateStepId(Confirmation);
    var step := Step(id, None, Completed, None, Some(msg.id), ConfirmationData(reference, hotel));
    UpsertFresh(s.steps, step, s.now);
    s.UpsertStep(step);
  }

  /** The confirmation message names the reference the step records. */
  lemma PaymentTextNamesReference(code: string)
    ensures EndsWith(PaymentText(code), "REF-" + code)
    ensures StartsWith(PaymentText(code), "Payment successful. Confirmation: ")
  {
  }
}
