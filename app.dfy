/**
 * The top-level dashboard (src/App.tsx): the domain allowlist, the analytics
 * record types, the fixture that maps each authorized domain to its record,
 * and the search view's three state fields with the handlers that drive them.
 */
module App {
  import opened Wrappers

  // ---------------------------------------------------------------------
  // Domain gate
  // ---------------------------------------------------------------------

  /** The closed set of domains the dashboard will show. */
  datatype AuthorizedDomain = PanelPlayhouse | BoroomTech {
    /** The literal string of the domain. */
    function Name(): string {
      match this
      case PanelPlayhouse => "panelplayhouse.com"
      case BoroomTech => "boroomtech.com"
    }
  }

  /** The allowlist literal that `includes` searches. */
  const AllowList: seq<string> := ["panelplayhouse.com", "boroomtech.com"]

  /** Exact, case-sensitive membership test; nothing is trimmed or lowered. */
  predicate IsDomainAuthorized(domain: string)
  {
    domain in AllowList
  }

  /**
   * The type guard `domain is AuthorizedDomain` as a refinement: the
   * authorized value whose name is exactly `domain`, if there is one.
   */
  function ParseDomain(domain: string): (r: Option<AuthorizedDomain>)
    ensures r.Some? <==> IsDomainAuthorized(domain)
    ensures r.Some? ==> r.value.Name() == domain
  {
    if domain == "panelplayhouse.com" then Some(PanelPlayhouse)
    else if domain == "boroomtech.com" then Some(BoroomTech)
    else None
  }

  /** The guard accepts exactly the two literal names and nothing else. */
  lemma AuthorizedExactly(domain: string)
    ensures IsDomainAuthorized(domain) <==>
            domain == "panelplayhouse.com" || domain == "boroomtech.com"
    ensures IsDomainAuthorized(domain) <==>
            exists d: AuthorizedDomain :: d.Name() == domain
  {
    if IsDomainAuthorized(domain) {
      var d := ParseDomain(domain).value;
      assert d.Name() == domain;
    }
  }

  /** Every authorized value passes the guard and parses back to itself. */
  lemma ParseName(d: AuthorizedDomain)
    ensures IsDomainAuthorized(d.Name())
    ensures ParseDomain(d.Name()) == Some(d)
  {
  }

  /** No normalisation: near misses of an allowed name are rejected. */
  lemma NearMissesRejected()
    ensures !IsDomainAuthorized("")
    ensures !IsDomainAuthorized(" boroomtech.com")
    ensures !IsDomainAuthorized("https://boroomtech.com")
    ensures !IsDomainAuthorized("BoroomTech.com")
    ensures !IsDomainAuthorized("www.panelplayhouse.com")
    ensures !IsDomainAuthorized("unknown.com")
  {
  }

  // ---------------------------------------------------------------------
  // Analytics records
  // ---------------------------------------------------------------------

  /** One `[key, value]` pair of a string-keyed object, in the order `Object.entries` yields it. */
  type Entry = (string, int)

  /** The budget sub-record; amounts are only carried, never computed with. */
  datatype Budget = Budget(total: real, spent: real, remaining: real, dailySpend: real)

  datatype DailyClickData = DailyClickData(
    date: string,
    totalVisitors: int,
    countryClicks: seq<Entry>)

  datatype AnalyticsData = AnalyticsData(
    totalVisitors: int,
    clicksByCountry: seq<Entry>,
    countryFlags: map<string, string>,
    trackingDate: string,
    visitorHistory: seq<DailyClickData>,
    budget: Option<Budget>)

  // ---------------------------------------------------------------------
  // Fixture
  // ---------------------------------------------------------------------

  const PanelPlayhouseClicks: seq<Entry> :=
    [("Australia", 1200), ("Chile", 700), ("United States", 699), ("Others", 401)]

  const BoroomTechClicks: seq<Entry> :=
    [ ("United States", 400), ("United Kingdom", 200), ("Canada", 180),
      ("China", 130), ("Singapore", 90), ("Others", 300) ]

  const PanelPlayhouseFlags: map<string, string> :=
    map["Australia" := "AU", "Chile" := "CL", "United States" := "US"]

  const BoroomTechFlags: map<string, string> :=
    map["United States" := "US", "United Kingdom" := "GB", "Canada" := "CA",
        "China" := "CN", "Singapore" := "SG"]

  const PanelPlayhouseHistory: seq<DailyClickData> :=
    [ DailyClickData("2025-06-28", 1500, [("Australia", 800), ("Chile", 300), ("United States", 100), ("Others", 300)]),
      DailyClickData("2025-07-01", 1600, [("Australia", 850), ("Chile", 320), ("United States", 110), ("Others", 320)]),
      DailyClickData("2025-07-05", 1700, [("Australia", 900), ("Chile", 340), ("United States", 120), ("Others", 340)]),
      DailyClickData("2025-07-10", 1800, [("Australia", 950), ("Chile", 360), ("United States", 130), ("Others", 360)]),
      DailyClickData("2025-07-15", 1900, [("Australia", 1000), ("Chile", 380), ("United States", 140), ("Others", 380)]),
      DailyClickData("2025-08-20", 2100, [("Australia", 1100), ("Chile", 390), ("United States", 245), ("Others", 365)]),
      DailyClickData("2025-09-26", 2300, [("Australia", 1200), ("Chile", 400), ("United States", 350), ("Others", 350)]),
      DailyClickData("2025-10-28", 3000, [("Australia", 1200), ("Chile", 700), ("United States", 699), ("Others", 401)]) ]

  const BoroomTechHistory: seq<DailyClickData> :=
    [ DailyClickData("2025-06-28", 800, [("United States", 250), ("United Kingdom", 150), ("Canada", 120), ("China", 80), ("Singapore", 50), ("Others", 150)]),
      DailyClickData("2025-07-01", 900, [("United States", 280), ("United Kingdom", 160), ("Canada", 130), ("China", 90), ("Singapore", 60), ("Others", 180)]),
      DailyClickData("2025-07-05", 1000, [("United States", 310), ("United Kingdom", 170), ("Canada", 140), ("China", 100), ("Singapore", 70), ("Others", 210)]),
      DailyClickData("2025-07-10", 1100, [("United States", 340), ("United Kingdom", 180), ("Canada", 150), ("China", 110), ("Singapore", 75), ("Others", 245)]),
      DailyClickData("2025-07-15", 1150, [("United States", 360), ("United Kingdom", 185), ("Canada", 160), ("China", 115), ("Singapore", 80), ("Others", 250)]),
      DailyClickData("2025-07-20", 1200, [("United States", 380), ("United Kingdom", 190), ("Canada", 170), ("China", 120), ("Singapore", 85), ("Others", 255)]),
      DailyClickData("2025-07-26", 1300, [("United States", 400), ("United Kingdom", 200), ("Canada", 180), ("China", 130), ("Singapore", 90), ("Others", 300)]) ]

  const PanelPlayhouseRecord: AnalyticsData := AnalyticsData(
    3000,
    PanelPlayhouseClicks,
    PanelPlayhouseFlags,
    "2025-07-26",
    PanelPlayhouseHistory,
    Some(Budget(600.0, 600.0, 0.0, 19.64)))

  const BoroomTechRecord: AnalyticsData := AnalyticsData(
    1300,
    BoroomTechClicks,
    BoroomTechFlags,
    "2025-07-26",
    BoroomTechHistory,
    None)

  /** The fixture lookup `mockAnalytics[domain]`: total over the enumeration. */
  function Lookup(d: AuthorizedDomain): (r: AnalyticsData)
    ensures r.budget.Some? <==> d == PanelPlayhouse
    ensures r.totalVisitors == (if d == PanelPlayhouse then 3000 else 1300)
  {
    match d
    case PanelPlayhouse => PanelPlayhouseRecord
    case BoroomTech => BoroomTechRecord
  }

  /** `currentAnalytics`: the record for the typed domain, or null when it is not authorized. */
  function CurrentAnalytics(searchDomain: string): (r: Option<AnalyticsData>)
    ensures r.Some? <==> IsDomainAuthorized(searchDomain)
    ensures r.Some? ==> exists d: AuthorizedDomain :: d.Name() == searchDomain && r.value == Lookup(d)
  {
    match ParseDomain(searchDomain)
    case Some(d) => Some(Lookup(d))
    case None => None
  }

  // ---------------------------------------------------------------------
  // Search view
  // ---------------------------------------------------------------------

  /** The inline message shown for an unauthorized submit. */
  function NotAllowedMessage(domain: string): string
  {
    "You are not allowed this URL: " + domain
  }

  /** The message is never empty and names the rejected input unambiguously. */
  lemma NotAllowedMessageInjective(a: string, b: string)
    ensures NotAllowedMessage(a) != ""
    ensures NotAllowedMessage(a) == NotAllowedMessage(b) ==> a == b
  {
    var prefix := "You are not allowed this URL: ";
    if NotAllowedMessage(a) == NotAllowedMessage(b) {
      assert a == NotAllowedMessage(a)[|prefix|..];
      assert b == NotAllowedMessage(b)[|prefix|..];
    }
  }

  /** What the page shows: the input with no message, the input with a message, or the results. */
  datatype Phase = Searching | ErrorShown | ResultsShown

  /** The three `useState` fields of the dashboard and the handlers that set them. */
  class SearchView {
    var searchDomain: string
    var error: string
    var showResults: bool

    /**
     * Holds after every handler, from any state: results are only shown for
     * an authorized domain with no message, and a message is only ever the
     * rejection of the current input, with the results hidden.
     */
    ghost predicate Valid()
      reads this
    {
      && (showResults ==> IsDomainAuthorized(searchDomain) && error == "")
      && (error != "" ==>
            error == NotAllowedMessage(searchDomain) &&
            !IsDomainAuthorized(searchDomain) && !showResults)
    }

    /** Which of the three screens the fields select. */
    function CurrentPhase(): Phase
      reads this
    {
      if showResults then ResultsShown
      else if error != "" then ErrorShown
      else Searching
    }

    /** `currentAnalytics` read from the current input. */
    function Analytics(): (r: Option<AnalyticsData>)
      reads this
      ensures Valid() && showResults ==> r.Some?
    {
      CurrentAnalytics(searchDomain)
    }

    /** The Track button is disabled while the input is empty. */
    predicate TrackEnabled()
      reads this
    {
      searchDomain != ""
    }

    constructor ()
      ensures Valid()
      ensures searchDomain == "" && error == "" && !showResults
      ensures CurrentPhase() == Searching
    {
      searchDomain := "";
      error := "";
      showResults := false;
    }

    /** `handleSubmit`: reject with a message, or show the results. */
    method Submit()
      modifies this
      ensures Valid()
      ensures searchDomain == old(searchDomain)
      ensures !IsDomainAuthorized(searchDomain) ==>
                error == NotAllowedMessage(searchDomain) && !showResults && CurrentPhase() == ErrorShown
      ensures IsDomainAuthorized(searchDomain) ==>
                error == "" && showResults && CurrentPhase() == ResultsShown
    {
      if !IsDomainAuthorized(searchDomain) {
        error := NotAllowedMessage(searchDomain);
        showResults := false;
        return;
      }
      error := "";
      showResults := true;
    }

    /** The Track button: submits the form only when it is enabled. */
    method Track()
      modifies this
      ensures old(searchDomain) == "" ==>
                searchDomain == old(searchDomain) && error == old(error) && showResults == old(showResults)
      ensures old(Valid()) ==> Valid()
      ensures old(searchDomain) != "" ==>
                searchDomain == old(searchDomain) &&
                showResults == IsDomainAuthorized(searchDomain) &&
                error == (if showResults then "" else NotAllowedMessage(searchDomain))
    {
      if TrackEnabled() {
        Submit();
      }
    }

    /** `handleBack`: hide the results and clear the message, keeping the input. */
    method Back()
      modifies this
      ensures Valid()
      ensures searchDomain == old(searchDomain) && error == "" && !showResults
      ensures CurrentPhase() == Searching
    {
      showResults := false;
      error := "";
    }

    /** The input's `onChange`: store the new text, clear the message, hide the results. */
    method Edit(text: string)
      modifies this
      ensures Valid()
      ensures searchDomain == text && error == "" && !showResults
      ensures CurrentPhase() == Searching
    {
      searchDomain := text;
      error := "";
      showResults := false;
    }
  }
}
