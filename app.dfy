/**
 * The view orchestration of `App.tsx`: which page and dashboard tab is
 * shown, the dark-mode flag, the submitted farm profile, the soil report
 * generated for it, and the crop dataset.
 */
module AppState {
  import opened Wrappers
  import opened Types

  datatype Page = WelcomePage | FormPage | DashboardPage

  datatype DashboardTab = ReportTab | RecommendationsTab | InsightsTab | ChatbotTab

  /**
   * The five randomly drawn soil values, already formatted for display
   * (pH, nitrogen level, phosphorus, potassium, organic carbon).
   */
  datatype SoilReadings = SoilReadings(ph: string, nitrogen: string, phosphorus: string, potassium: string, organicCarbon: string)

  /** The indicators of every soil report, in order. */
  const SoilIndicatorNames: seq<string> := ["pH Level", "Nitrogen (N)", "Phosphorus (P)", "Potassium (K)", "Organic Carbon"]

  /** Their ideal ranges, in the same order. */
  const SoilIdealRanges: seq<string> := ["6.0-7.0", "Medium-High", "25-50 kg/ha", "180-280 kg/ha", "> 0.75%"]

  /** A list of soil indicators with the fixed names and ideal ranges. */
  predicate IsSoilReport(report: seq<SoilData>)
  {
    |report| == 5 &&
    forall i :: 0 <= i < 5 ==> report[i].name == SoilIndicatorNames[i] && report[i].ideal == SoilIdealRanges[i]
  }

  /**
   * `generateSoilReport`: a fresh five-entry report carrying the given
   * readings as its values.
   */
  function SoilReport(v: SoilReadings): (r: seq<SoilData>)
    ensures IsSoilReport(r)
    ensures [r[0].value, r[1].value, r[2].value, r[3].value, r[4].value] == [v.ph, v.nitrogen, v.phosphorus, v.potassium, v.organicCarbon]
  {
    [ SoilData("pH Level", v.ph, "fas fa-vial", "6.0-7.0", "bg-green-100 dark:bg-green-900/50", "text-green-700 dark:text-green-300"),
      SoilData("Nitrogen (N)", v.nitrogen, "fas fa-atom", "Medium-High", "bg-blue-100 dark:bg-blue-900/50", "text-blue-700 dark:text-blue-300"),
      SoilData("Phosphorus (P)", v.phosphorus, "fas fa-fire", "25-50 kg/ha", "bg-orange-100 dark:bg-orange-900/50", "text-orange-700 dark:text-orange-300"),
      SoilData("Potassium (K)", v.potassium, "fas fa-bolt", "180-280 kg/ha", "bg-yellow-100 dark:bg-yellow-900/50", "text-yellow-700 dark:text-yellow-300"),
      SoilData("Organic Carbon", v.organicCarbon, "fas fa-leaf", "> 0.75%", "bg-purple-100 dark:bg-purple-900/50", "text-purple-700 dark:text-purple-300") ]
  }

  /** Two reports differ at most in their values: everything else is fixed. */
  lemma SoilReportShape(v: SoilReadings, w: SoilReadings)
    ensures forall i :: 0 <= i < 5 ==> SoilReport(v)[i].(value := "") == SoilReport(w)[i].(value := "")
  {
  }

  /** What `renderContent` shows. */
  datatype Screen =
    | WelcomeScreen
    | FormScreen
    | DashboardScreen(tab: DashboardTab, profile: FarmData)
    | NothingShown

  class App {
    var page: Page
    var dashboardTab: DashboardTab
    var isDarkMode: bool
    var farmData: Option<FarmData>
    var soilData: seq<SoilData>
    var allCrops: seq<CropData>

    /**
     * The dashboard is only reached with a profile, and a soil report exists
     * exactly while a profile does.
     */
    ghost predicate Valid()
      reads this
    {
      (page == DashboardPage ==> farmData.Some?) &&
      (farmData.None? ==> soilData == []) &&
      (farmData.Some? ==> IsSoilReport(soilData))
    }

    /** The first render: welcome page, report tab, light mode, no profile, no report, no crops. */
    constructor ()
      ensures Valid()
      ensures page == WelcomePage && dashboardTab == ReportTab && !isDarkMode
      ensures farmData == None && soilData == [] && allCrops == []
    {
      page := WelcomePage;
      dashboardTab := ReportTab;
      isDarkMode := false;
      farmData := None;
      soilData := [];
      allCrops := [];
    }

    /**
     * The end of the dataset fetch: a parsed response replaces the crop
     * list; a failed request or parse leaves it as it was (empty at start).
     */
    method FinishCropLoad(response: Option<seq<CropData>>)
      requires Valid()
      modifies this`allCrops
      ensures Valid()
      ensures allCrops == if response.Some? then response.value else old(allCrops)
    {
      if response.Some? {
        allCrops := response.value;
      }
    }

    /** `toggleDarkMode`: only the flag flips. */
    method ToggleDarkMode()
      requires Valid()
      modifies this`isDarkMode
      ensures Valid()
      ensures isDarkMode == !old(isDarkMode)
    {
      isDarkMode := !isDarkMode;
    }

    /** The welcome screen's start action. */
    method Start()
      requires Valid()
      modifies this`page
      ensures Valid() && page == FormPage
    {
      page := FormPage;
    }

    /**
     * `handleFormSubmit`: stores the profile, replaces the soil report with a
     * freshly generated one, and opens the dashboard on the report tab.
     */
    method HandleFormSubmit(data: FarmData, readings: SoilReadings)
      modifies this`farmData, this`soilData, this`page, this`dashboardTab
      ensures Valid()
      ensures farmData == Some(data) && soilData == SoilReport(readings)
      ensures page == DashboardPage && dashboardTab == ReportTab
    {
      farmData := Some(data);
      soilData := SoilReport(readings);
      page := DashboardPage;
      dashboardTab := ReportTab;
    }

    /** The header's tab buttons: only the tab changes. */
    method ChangeTab(tab: DashboardTab)
      requires Valid()
      modifies this`dashboardTab
      ensures Valid() && dashboardTab == tab
    {
      dashboardTab := tab;
    }

    /**
     * `startOver`: drops the profile and its report and returns to the
     * welcome page; the tab and the dark-mode flag are kept.
     */
    method StartOver()
      modifies this`farmData, this`soilData, this`page
      ensures Valid()
      ensures farmData == None && soilData == [] && page == WelcomePage
    {
      farmData := None;
      soilData := [];
      page := WelcomePage;
    }

    /**
     * `renderContent`: on the dashboard without a profile it switches to the
     * form and shows nothing; a dashboard is only ever shown with the
     * current profile and tab. In a valid state the guard never fires.
     */
    method RenderContent() returns (screen: Screen)
      modifies this`page
      ensures old(page) == DashboardPage && farmData.None? ==> page == FormPage && screen == NothingShown
      ensures !(old(page) == DashboardPage && farmData.None?) ==> page == old(page)
      ensures page == DashboardPage ==> farmData.Some?
      ensures screen.DashboardScreen? <==> old(page) == DashboardPage && farmData.Some?
      ensures screen.DashboardScreen? ==> farmData == Some(screen.profile) && screen.tab == dashboardTab
      ensures old(page) == WelcomePage ==> screen == WelcomeScreen
      ensures old(page) == FormPage ==> screen == FormScreen
    {
      match page
      case WelcomePage =>
        screen := WelcomeScreen;
      case FormPage =>
        screen := FormScreen;
      case DashboardPage =>
        if farmData.None? {
          page := FormPage;
          screen := NothingShown;
        } else {
          screen := DashboardScreen(dashboardTab, farmData.value);
        }
    }
  }

  /**
   * Starting over from the dashboard and submitting again: the welcome page
   * comes back with nothing kept, and the new submission carries a report
   * of the new readings, not the discarded one.
   */
  method StartOverThenResubmit(app: App, data: FarmData, readings: SoilReadings)
    requires app.Valid() && app.page == DashboardPage
    modifies app
    ensures app.Valid() && app.page == DashboardPage && app.dashboardTab == ReportTab
    ensures app.farmData == Some(data) && app.soilData == SoilReport(readings)
    ensures app.isDarkMode == old(app.isDarkMode) && app.allCrops == old(app.allCrops)
  {
    app.StartOver();
    assert app.page == WelcomePage && app.farmData == None && app.soilData == [];
    app.Start();
    app.HandleFormSubmit(data, readings);
  }

  /** Toggling dark mode twice restores the flag and nothing else changes. */
  method ToggleTwice(app: App)
    requires app.Valid()
    modifies app
    ensures app.Valid()
    ensures app.isDarkMode == old(app.isDarkMode)
    ensures app.page == old(app.page) && app.farmData == old(app.farmData) && app.soilData == old(app.soilData)
    ensures app.dashboardTab == old(app.dashboardTab) && app.allCrops == old(app.allCrops)
  {
    app.ToggleDarkMode();
    app.ToggleDarkMode();
  }
}
