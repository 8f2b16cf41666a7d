/**
 * The analytics view (src/components/AnalyticsDisplay.tsx): the country
 * ranking with "Others" pinned last, the tooltip ranking by count alone, the
 * tooltip's render gate, budget visibility and flag attachment.
 *
 * Both rankings are `Object.entries(...).sort(cmp)`. `Array.prototype.sort`
 * is stable. A stable sort that never compares an entry with itself returns
 * the unique permutation that is ordered by the comparator and keeps every
 * class of tied entries in entry order. `Sort` below is that function,
 * written as an insertion sort; `SortPermutation`, `SortSorted`, `SortTies`
 * and `SortUnique` establish the four facts that pin it down. The country
 * comparator does not give 0 for an "Others" entry compared with itself
 * (`SelfComparison`), so the language itself leaves that order open; the
 * model takes the order such a sort produces.
 */
module AnalyticsDisplay {
  import opened Wrappers
  import opened App
  import BillingInformation

  /** The sentinel country that the main ranking pins last. */
  const Others: string := "Others"

  /** The one domain whose budget and billing sections are shown. */
  const PremiumDomain: string := "panelplayhouse.com"

  // ---------------------------------------------------------------------
  // The two comparators and the sort they drive
  // ---------------------------------------------------------------------

  /** Which comparator a ranking passes to `sort`. */
  datatype Order = CountryOrder | TooltipOrder

  /** The comparator as written: a negative result puts `a` before `b`. */
  function Compare(o: Order, a: Entry, b: Entry): int
  {
    match o
    case CountryOrder =>
      if a.0 == Others then 1
      else if b.0 == Others then -1
      else b.1 - a.1
    case TooltipOrder => b.1 - a.1
  }

  /** `a` must come strictly before `b`. */
  predicate Before(o: Order, a: Entry, b: Entry)
  {
    Compare(o, a, b) < 0
  }

  /** Neither entry must come before the other; a stable sort keeps such entries in input order. */
  predicate Tied(o: Order, a: Entry, b: Entry)
  {
    !Before(o, a, b) && !Before(o, b, a)
  }

  /**
   * The relation "must come strictly before" of both comparators is a strict
   * weak order, so a stable sort by it has exactly one result.
   */
  lemma StrictWeakOrder(o: Order, a: Entry, b: Entry, c: Entry)
    ensures !Before(o, a, a)
    ensures Before(o, a, b) ==> !Before(o, b, a)
    ensures Before(o, a, c) ==> Before(o, a, b) || Before(o, b, c)
  {
  }

  /**
   * Comparing an entry with itself gives 0, as a consistent comparator must,
   * except for the country comparator on an "Others" entry, where it gives 1.
   */
  lemma SelfComparison(o: Order, a: Entry)
    ensures Compare(o, a, a) == 0 <==> !(o == CountryOrder && a.0 == Others)
    ensures o == CountryOrder && a.0 == Others ==> Compare(o, a, a) == 1
  {
  }

  /** No later element must come before an earlier one. */
  ghost predicate Sorted(o: Order, s: seq<Entry>)
  {
    forall i, j :: 0 <= i < j < |s| ==> !Before(o, s[j], s[i])
  }

  /** Puts `x` in front of the first element that need not precede it. */
  function Insert(o: Order, x: Entry, s: seq<Entry>): (r: seq<Entry>)
    ensures |r| == |s| + 1
  {
    if s == [] || !Before(o, s[0], x) then [x] + s
    else [s[0]] + Insert(o, x, s[1..])
  }

  /** The stable sort of `s` under the comparator of `o`. */
  function Sort(o: Order, s: seq<Entry>): (r: seq<Entry>)
    ensures |r| == |s|
  {
    if s == [] then []
    else Insert(o, s[0], Sort(o, s[1..]))
  }

  lemma {:induction false} InsertPermutation(o: Order, x: Entry, s: seq<Entry>)
    ensures multiset(Insert(o, x, s)) == multiset(s) + multiset{x}
  {
    if s != [] && Before(o, s[0], x) {
      InsertPermutation(o, x, s[1..]);
      assert s == [s[0]] + s[1..];
    }
  }

  /** The sort only rearranges: nothing is added, dropped or altered. */
  lemma {:induction false} SortPermutation(o: Order, s: seq<Entry>)
    ensures multiset(Sort(o, s)) == multiset(s)
  {
    if s != [] {
      SortPermutation(o, s[1..]);
      InsertPermutation(o, s[0], Sort(o, s[1..]));
      assert s == [s[0]] + s[1..];
    }
  }

  /** The entries of `s` tied with `e`, in the order they occur in `s`. */
  function TiesOf(o: Order, s: seq<Entry>, e: Entry): seq<Entry>
  {
    if s == [] then []
    else (if Tied(o, s[0], e) then [s[0]] else []) + TiesOf(o, s[1..], e)
  }

  lemma {:induction false} InsertSorted(o: Order, x: Entry, s: seq<Entry>)
    requires Sorted(o, s)
    ensures Sorted(o, Insert(o, x, s))
  {
    var r := Insert(o, x, s);
    if s == [] || !Before(o, s[0], x) {
      forall i, j | 0 <= i < j < |r| ensures !Before(o, r[j], r[i]) {
        if i == 0 && j > 1 {
          StrictWeakOrder(o, s[j - 1], s[0], x);
        }
      }
    } else {
      var t := Insert(o, x, s[1..]);
      InsertSorted(o, x, s[1..]);
      InsertPermutation(o, x, s[1..]);
      forall j | 0 <= j < |t| ensures !Before(o, t[j], s[0]) {
        assert t[j] in multiset(t);
        if t[j] == x {
          StrictWeakOrder(o, s[0], x, x);
        } else {
          assert t[j] in multiset(s[1..]);
          var k :| 0 <= k < |s[1..]| && s[1..][k] == t[j];
          assert s[k + 1] == t[j];
        }
      }
      assert r == [s[0]] + t;
    }
  }

  /** The sort's result is ordered by the comparator. */
  lemma {:induction false} SortSorted(o: Order, s: seq<Entry>)
    ensures Sorted(o, Sort(o, s))
  {
    if s != [] {
      SortSorted(o, s[1..]);
      InsertSorted(o, s[0], Sort(o, s[1..]));
    }
  }

  lemma {:induction false} InsertTies(o: Order, x: Entry, s: seq<Entry>, e: Entry)
    ensures TiesOf(o, Insert(o, x, s), e) == (if Tied(o, x, e) then [x] else []) + TiesOf(o, s, e)
  {
    if s == [] || !Before(o, s[0], x) {
      assert ([x] + s)[1..] == s;
    } else {
      var t := Insert(o, x, s[1..]);
      InsertTies(o, x, s[1..], e);
      assert ([s[0]] + t)[1..] == t;
      if Tied(o, x, e) {
        StrictWeakOrder(o, s[0], e, x);
      }
    }
  }

  /** Stability: every class of tied entries keeps its entry order. */
  lemma {:induction false} SortTies(o: Order, s: seq<Entry>, e: Entry)
    ensures TiesOf(o, Sort(o, s), e) == TiesOf(o, s, e)
  {
    if s != [] {
      SortTies(o, s[1..], e);
      InsertTies(o, s[0], Sort(o, s[1..]), e);
    }
  }

  lemma {:induction false} TiesOfMember(o: Order, s: seq<Entry>, e: Entry, y: Entry)
    ensures y in TiesOf(o, s, e) <==> y in s && Tied(o, y, e)
  {
    if s != [] {
      TiesOfMember(o, s[1..], e, y);
      assert s == [s[0]] + s[1..];
    }
  }

  lemma {:induction false} SortedSameTies(o: Order, r1: seq<Entry>, r2: seq<Entry>)
    requires Sorted(o, r1) && Sorted(o, r2)
    requires forall e :: TiesOf(o, r1, e) == TiesOf(o, r2, e)
    ensures r1 == r2
  {
    if r1 == [] || r2 == [] {
      if r1 != [] {
        assert TiesOf(o, r1, r1[0]) != [] by { StrictWeakOrder(o, r1[0], r1[0], r1[0]); }
        assert false;
      }
      if r2 != [] {
        assert TiesOf(o, r2, r2[0]) != [] by { StrictWeakOrder(o, r2[0], r2[0], r2[0]); }
        assert false;
      }
    } else {
      var a, b := r1[0], r2[0];
      StrictWeakOrder(o, a, a, a);
      StrictWeakOrder(o, b, b, b);
      // `a` occurs in r2, so it may not be strictly before r2's head, and vice versa.
      TiesOfMember(o, r1, a, a);
      TiesOfMember(o, r2, a, a);
      TiesOfMember(o, r2, b, b);
      TiesOfMember(o, r1, b, b);
      assert !Before(o, a, b) by {
        var k :| 0 <= k < |r2| && r2[k] == a;
        if k > 0 { assert !Before(o, r2[k], r2[0]); }
      }
      assert !Before(o, b, a) by {
        var k :| 0 <= k < |r1| && r1[k] == b;
        if k > 0 { assert !Before(o, r1[k], r1[0]); }
      }
      // Tied heads open the same tie class, so they are equal.
      assert TiesOf(o, r1, a)[0] == a;
      assert TiesOf(o, r2, a)[0] == b;
      assert a == b;
      forall e ensures TiesOf(o, r1[1..], e) == TiesOf(o, r2[1..], e) {
        var head := if Tied(o, a, e) then [a] else [];
        assert TiesOf(o, r1, e) == head + TiesOf(o, r1[1..], e);
        assert TiesOf(o, r2, e) == head + TiesOf(o, r2[1..], e);
        assert TiesOf(o, r1[1..], e) == TiesOf(o, r1, e)[|head|..];
        assert TiesOf(o, r2[1..], e) == TiesOf(o, r2, e)[|head|..];
      }
      SortedSameTies(o, r1[1..], r2[1..]);
      assert r1 == [a] + r1[1..] && r2 == [a] + r2[1..];
    }
  }

  /**
   * Any sequence that is ordered by the comparator and keeps every tie class
   * of `s` in entry order is `Sort(o, s)`: the model is the only result a
   * stable sort can give.
   */
  lemma SortUnique(o: Order, s: seq<Entry>, r: seq<Entry>)
    requires Sorted(o, r)
    requires forall e :: TiesOf(o, r, e) == TiesOf(o, s, e)
    ensures r == Sort(o, s)
  {
    SortSorted(o, s);
    forall e ensures TiesOf(o, r, e) == TiesOf(o, Sort(o, s), e) {
      SortTies(o, s, e);
    }
    SortedSameTies(o, r, Sort(o, s));
  }

  /** An already ranked list comes back unchanged. */
  lemma SortOfSorted(o: Order, s: seq<Entry>)
    requires Sorted(o, s)
    ensures Sort(o, s) == s
  {
    SortUnique(o, s, s);
  }

  // ---------------------------------------------------------------------
  // Country ranking
  // ---------------------------------------------------------------------

  /** The keys of a string-keyed object are pairwise distinct. */
  predicate KeysDistinct(s: seq<Entry>)
  {
    forall i, j :: 0 <= i < j < |s| ==> s[i].0 != s[j].0
  }

  /**
   * `sortedCountries`: the entries of `clicksByCountry`, rearranged and
   * nothing else, with every entry other than "Others" in non-increasing
   * order of clicks and before every "Others" entry.
   */
  function SortedCountries(clicksByCountry: seq<Entry>): (r: seq<Entry>)
    ensures multiset(r) == multiset(clicksByCountry)
    ensures forall i, j :: 0 <= i < j < |r| && r[i].0 != Others && r[j].0 != Others ==> r[i].1 >= r[j].1
    ensures forall i, j :: 0 <= i < j < |r| && r[i].0 == Others ==> r[j].0 == Others
  {
    SortSorted(CountryOrder, clicksByCountry);
    SortPermutation(CountryOrder, clicksByCountry);
    Sort(CountryOrder, clicksByCountry)
  }

  /** Entries with equal clicks keep their entry order. */
  lemma SortedCountriesStable(clicksByCountry: seq<Entry>, e: Entry)
    ensures TiesOf(CountryOrder, SortedCountries(clicksByCountry), e) == TiesOf(CountryOrder, clicksByCountry, e)
  {
    SortTies(CountryOrder, clicksByCountry, e);
  }

  lemma {:induction false} NoTies(o: Order, s: seq<Entry>, e: Entry)
    requires forall i :: 0 <= i < |s| ==> !Tied(o, s[i], e)
    ensures TiesOf(o, s, e) == []
  {
    if s != [] {
      NoTies(o, s[1..], e);
    }
  }

  lemma {:induction false} OnlyOthersTied(s: seq<Entry>, k: int)
    requires KeysDistinct(s)
    requires 0 <= k < |s| && s[k].0 == Others
    ensures TiesOf(CountryOrder, s, s[k]) == [s[k]]
  {
    var e := s[k];
    if k == 0 {
      forall i | 0 <= i < |s[1..]| ensures !Tied(CountryOrder, s[1..][i], e) {
        assert s[1..][i] == s[i + 1];
      }
      NoTies(CountryOrder, s[1..], e);
    } else {
      assert s[1..][k - 1] == e;
      OnlyOthersTied(s[1..], k - 1);
    }
  }

  /** "Others" is the last entry of the ranking whatever its count. */
  lemma OthersLast(clicksByCountry: seq<Entry>, k: int)
    requires KeysDistinct(clicksByCountry)
    requires 0 <= k < |clicksByCountry| && clicksByCountry[k].0 == Others
    ensures var r := SortedCountries(clicksByCountry); |r| > 0 && r[|r| - 1] == clicksByCountry[k]
  {
    var e := clicksByCountry[k];
    var r := SortedCountries(clicksByCountry);
    OnlyOthersTied(clicksByCountry, k);
    SortTies(CountryOrder, clicksByCountry, e);
    assert TiesOf(CountryOrder, r, e) == [e];
    TiesOfMember(CountryOrder, r, e, e);
    var last := r[|r| - 1];
    TiesOfMember(CountryOrder, r, e, last);
  }

  // ---------------------------------------------------------------------
  // Tooltip
  // ---------------------------------------------------------------------

  /** The country rows of the tooltip: sorted by count alone, "Others" included. */
  function TooltipRows(countryClicks: seq<Entry>): (r: seq<Entry>)
    ensures multiset(r) == multiset(countryClicks)
    ensures forall i, j :: 0 <= i < j < |r| ==> r[i].1 >= r[j].1
  {
    SortSorted(TooltipOrder, countryClicks);
    SortPermutation(TooltipOrder, countryClicks);
    Sort(TooltipOrder, countryClicks)
  }

  /** Entries with equal counts keep their entry order in the tooltip. */
  lemma TooltipRowsStable(countryClicks: seq<Entry>, e: Entry)
    ensures TiesOf(TooltipOrder, TooltipRows(countryClicks), e) == TiesOf(TooltipOrder, countryClicks, e)
  {
    SortTies(TooltipOrder, countryClicks, e);
  }

  /** What the tooltip shows for the hovered point (its date title is left out). */
  datatype TooltipContent = TooltipContent(totalVisitors: int, rows: seq<Entry>)

  /** `CustomizedTooltip`: nothing unless active with a non-empty payload, else the first point's figures. */
  function CustomizedTooltip(active: bool, payload: seq<DailyClickData>): (r: Option<TooltipContent>)
    ensures r.Some? <==> active && |payload| > 0
    ensures r.Some? ==> r.value.totalVisitors == payload[0].totalVisitors
    ensures r.Some? ==> multiset(r.value.rows) == multiset(payload[0].countryClicks)
    ensures r.Some? ==> forall i, j :: 0 <= i < j < |r.value.rows| ==> r.value.rows[i].1 >= r.value.rows[j].1
  {
    if active && |payload| > 0 then
      Some(TooltipContent(payload[0].totalVisitors, TooltipRows(payload[0].countryClicks)))
    else None
  }

  // ---------------------------------------------------------------------
  // Budget and flags
  // ---------------------------------------------------------------------

  /** `showBudget`: the premium domain with a budget sub-record. */
  predicate ShowBudget(domain: string, data: AnalyticsData)
  {
    domain == PremiumDomain && data.budget.Some?
  }

  /** Through the search view, the budget shows for panelplayhouse.com and never for boroomtech.com. */
  lemma BudgetShownFor(d: AuthorizedDomain)
    ensures ShowBudget(d.Name(), Lookup(d)) <==> d == PanelPlayhouse
  {
  }

  /** Whatever record it is given, the view hides the budget for every domain but the premium one. */
  lemma BudgetOnlyForPremium(domain: string, data: AnalyticsData)
    ensures ShowBudget(domain, data) ==> domain == PremiumDomain && data.budget.Some?
    ensures !ShowBudget("boroomtech.com", data)
    ensures data.budget.Some? ==> ShowBudget(PremiumDomain, data)
  {
  }

  /** The nested billing view is guarded by the same domain test again, which `ShowBudget` already implies. */
  predicate ShowBillingInformation(domain: string, data: AnalyticsData)
    ensures ShowBillingInformation(domain, data) <==> ShowBudget(domain, data)
  {
    ShowBudget(domain, data) && domain == PremiumDomain
  }

  /** The card the billing list starts with. */
  const DefaultCard: BillingInformation.CardInfo := BillingInformation.CardInfo(
    "pphouse",
    "Mouhamadou abdoulaye illiassou nouhou",
    "47 W 13th St, New York, NY 10011, USA",
    "4084******64",
    "10/25")

  /** The masked default card could not have been entered through the form. */
  lemma DefaultCardNotEnterable()
    ensures !BillingInformation.EnteredCard(DefaultCard)
  {
    BillingInformation.CardNumberShape(DefaultCard.cardNumber);
  }

  /** The property read `countryFlags[country]`: `undefined` for a missing key. */
  function Get(countryFlags: map<string, string>, country: string): Option<string>
  {
    if country in countryFlags then Some(countryFlags[country]) else None
  }

  /** JavaScript truthiness of a string or `undefined`: only a non-empty string is truthy. */
  predicate Truthy(v: Option<string>)
  {
    v.Some? && v.value != ""
  }

  /**
   * The flag code rendered in a country's row, if any:
   * `country !== 'Others' && countryFlags[country] && <flag countryCode={countryFlags[country]}/>`.
   */
  function FlagFor(country: string, countryFlags: map<string, string>): (r: Option<string>)
    ensures r.Some? <==> country != Others && country in countryFlags && countryFlags[country] != ""
    ensures r.Some? ==> r.value == countryFlags[country]
  {
    if country != Others && Truthy(Get(countryFlags, country)) then Get(countryFlags, country)
    else None
  }

  /** One row of the "Clicks by Country" list. */
  datatype CountryRow = CountryRow(country: string, clicks: int, flag: Option<string>)

  /** The rendered list: the ranking, each row with its flag. */
  function CountryRows(data: AnalyticsData): (rows: seq<CountryRow>)
    ensures |rows| == |data.clicksByCountry|
    ensures forall i :: 0 <= i < |rows| ==>
              (rows[i].country, rows[i].clicks) == SortedCountries(data.clicksByCountry)[i] &&
              rows[i].flag == FlagFor(rows[i].country, data.countryFlags)
    ensures forall i :: 0 <= i < |rows| && rows[i].country == Others ==> rows[i].flag.None?
  {
    var sorted := SortedCountries(data.clicksByCountry);
    seq(|sorted|, i requires 0 <= i < |sorted| =>
      CountryRow(sorted[i].0, sorted[i].1, FlagFor(sorted[i].0, data.countryFlags)))
  }

  // ---------------------------------------------------------------------
  // The fixture through the view
  // ---------------------------------------------------------------------

  lemma PanelPlayhouseRanking()
    ensures SortedCountries(Lookup(PanelPlayhouse).clicksByCountry) ==
            [("Australia", 1200), ("Chile", 700), ("United States", 699), ("Others", 401)]
  {
    assert Lookup(PanelPlayhouse).clicksByCountry == PanelPlayhouseClicks;
    SortOfSorted(CountryOrder, PanelPlayhouseClicks);
  }

  /**
   * When every country other than "Others" has a non-empty code, exactly the
   * "Others" row goes without a flag, and every other row shows its own code.
   */
  lemma RowsFlagged(data: AnalyticsData)
    requires FlagsComplete(data.clicksByCountry, data.countryFlags)
    ensures var rows := CountryRows(data);
            forall i :: 0 <= i < |rows| ==>
              (rows[i].flag.Some? <==> rows[i].country != Others) &&
              (rows[i].flag.Some? ==> rows[i].country in data.countryFlags &&
                                      rows[i].flag.value == data.countryFlags[rows[i].country] &&
                                      |rows[i].flag.value| == 2)
  {
    var rows := CountryRows(data);
    var sorted := SortedCountries(data.clicksByCountry);
    forall i | 0 <= i < |rows|
      ensures rows[i].country != Others ==>
                rows[i].country in data.countryFlags && |data.countryFlags[rows[i].country]| == 2
    {
      assert (rows[i].country, rows[i].clicks) == sorted[i];
      assert sorted[i] in multiset(sorted);
      assert sorted[i] in data.clicksByCountry;
    }
  }

  /** Every country of a click list other than "Others" has a two-letter code. */
  ghost predicate FlagsComplete(clicks: seq<Entry>, countryFlags: map<string, string>)
  {
    forall e | e in clicks && e.0 != Others :: e.0 in countryFlags && |countryFlags[e.0]| == 2
  }

  /** Both fixture records give every country except "Others" a two-letter code. */
  lemma FixtureFlagsComplete(d: AuthorizedDomain)
    ensures FlagsComplete(Lookup(d).clicksByCountry, Lookup(d).countryFlags)
  {
    if d == PanelPlayhouse {
      assert FlagsComplete(PanelPlayhouseClicks, PanelPlayhouseFlags) by {}
      assert Lookup(d) == PanelPlayhouseRecord;
    } else {
      assert FlagsComplete(BoroomTechClicks, BoroomTechFlags) by {}
      assert Lookup(d) == BoroomTechRecord;
    }
  }

  /** In both fixture lists every country row shows its two-letter code and the "Others" row none. */
  lemma FixtureRowFlags(d: AuthorizedDomain)
    ensures var data := Lookup(d);
            var rows := CountryRows(data);
            forall i :: 0 <= i < |rows| ==>
              (rows[i].flag.Some? <==> rows[i].country != Others) &&
              (rows[i].flag.Some? ==> rows[i].country in data.countryFlags &&
                                      rows[i].flag.value == data.countryFlags[rows[i].country] &&
                                      |rows[i].flag.value| == 2)
  {
    FixtureFlagsComplete(d);
    RowsFlagged(Lookup(d));
  }

  /** "Others" (300) stays last although Singapore has only 90. */
  lemma BoroomTechRanking()
    ensures SortedCountries(Lookup(BoroomTech).clicksByCountry) ==
            [ ("United States", 400), ("United Kingdom", 200), ("Canada", 180),
              ("China", 130), ("Singapore", 90), ("Others", 300) ]
  {
    assert Lookup(BoroomTech).clicksByCountry == BoroomTechClicks;
    SortOfSorted(CountryOrder, BoroomTechClicks);
  }

  /** In the tooltip "Others" can sit mid-list; Chile keeps its place before the tied "Others". */
  lemma TooltipOthersMidList()
    ensures TooltipRows(PanelPlayhouseHistory[0].countryClicks) ==
            [("Australia", 800), ("Chile", 300), ("Others", 300), ("United States", 100)]
  {
    var o := TooltipOrder;
    var others, us, chile, australia := ("Others", 300), ("United States", 100), ("Chile", 300), ("Australia", 800);
    var s := [australia, chile, us, others];
    assert PanelPlayhouseHistory[0].countryClicks == s by {}
    assert Sort(o, s) == [australia, chile, others, us] by {
      assert s[1..] == [chile, us, others] && s[2..] == [us, others] && s[3..] == [others];
      assert Sort(o, [others]) == [others];
      // United States (100) sinks below the larger "Others" (300) ...
      assert Insert(o, us, []) == [us];
      assert Insert(o, us, [others]) == [others] + Insert(o, us, []);
      assert Sort(o, [us, others]) == [others, us];
      // ... while Chile, tied with "Others", stays in front of it.
      assert Insert(o, chile, [others, us]) == [chile, others, us];
      assert Sort(o, [chile, us, others]) == [chile, others, us];
      assert Insert(o, australia, [chile, others, us]) == [australia, chile, others, us];
    }
  }
}
