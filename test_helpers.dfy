/**
 * The in-browser self test of the visual enhancement system: a runner that
 * checks the system's state and records one result per check, and the
 * summary of those results with its rounded pass rate.
 */
module BrowserTests {
  import opened Wrappers
  import opened ConfigManager
  import VisualSystem
  import Images

  datatype Status = Pass | Fail

  /** One recorded check; the timestamp is left out. */
  datatype TestResult = TestResult(test: string, status: Status, message: string)

  // ---------------------------------------------------------------------------
  // What each check records

  function InitializationResults(initialized: bool): seq<TestResult> {
    if initialized then [TestResult("System Initialization", Pass, "System is properly initialized")]
    else [TestResult("System Initialization", Fail, "System is not initialized")]
  }

  /** Reading the configuration and toggling one key always succeed. */
  const ConfigurationResults: seq<TestResult> := [
    TestResult("Configuration Get", Pass, "Config retrieved: 6 properties"),
    TestResult("Configuration Update", Pass, "Configuration updated successfully")
  ]

  /** The managers the system exposes, in the order they are checked. */
  const ManagerNames: seq<string> :=
    ["Animation Manager", "Image Manager", "Media Player", "Interaction Controller", "Performance Controller"]

  /** Every manager is an object, so every availability check passes. */
  function Availability(name: string): TestResult {
    TestResult(name + " Availability", Pass, name + " is available and initialized")
  }

  function AvailabilityResults(): (r: seq<TestResult>)
    ensures |r| == |ManagerNames| && forall k | 0 <= k < |r| :: r[k] == Availability(ManagerNames[k])
  {
    seq(|ManagerNames|, k requires 0 <= k < |ManagerNames| => Availability(ManagerNames[k]))
  }

  function Decimal(n: nat): string {
    Images.DecimalDigits(n)
  }

  function PerformanceResults(vitals: VisualSystem.CoreWebVitals, metrics: VisualSystem.AnimationMetrics): seq<TestResult> {
    [ TestResult("Performance Monitoring", Pass,
        "Core Web Vitals measured: LCP=" + Decimal(vitals.lcp) + ", FID=" + Decimal(vitals.fid) + ", CLS=" + Decimal(vitals.cls)),
      TestResult("Animation Performance", Pass,
        "Animation metrics: FPS=" + Decimal(metrics.averageFPS) + ", Dropped=" + Decimal(metrics.droppedFrames)) ]
  }

  /** `s.substring(0, 50)`: at most the first fifty characters. */
  function Prefix50(s: string): (r: string)
    ensures |r| <= 50 && r <= s
    ensures |s| <= 50 ==> r == s
  {
    if |s| <= 50 then s else s[..50]
  }

  /**
   * The environment checks: a window, then its user agent. Reading the user
   * agent of a page without a navigator throws, which the catch reports.
   */
  function DeviceResults(window: Option<Window>): seq<TestResult> {
    if window.None? then [TestResult("Browser Environment", Fail, "Not running in browser environment")]
    else
      var browser := TestResult("Browser Environment", Pass, "Running in browser environment");
      if window.value.navigator.None? then [browser, TestResult("Device Detection", Fail, "Error: navigator is not defined")]
      else
        var userAgent := window.value.navigator.value.userAgent;
        if userAgent != "" then [browser, TestResult("User Agent Detection", Pass, "User agent detected: " + Prefix50(userAgent) + "...")]
        else [browser, TestResult("User Agent Detection", Fail, "No user agent available")]
  }

  /** The checks whose outcome does not depend on the system or the page. */
  function FixedResults(): seq<TestResult> {
    ConfigurationResults + AvailabilityResults() + PerformanceResults(VisualSystem.StubVitals, VisualSystem.StubMetrics)
  }

  /** Everything one run records, in order. */
  function RunResults(initialized: bool, window: Option<Window>): seq<TestResult> {
    InitializationResults(initialized) + ConfigurationResults + AvailabilityResults()
      + PerformanceResults(VisualSystem.StubVitals, VisualSystem.StubMetrics) + DeviceResults(window)
  }

  /** A browser with a navigator whose user agent is not empty. */
  predicate KnownBrowser(window: Option<Window>) {
    window.Some? && window.value.navigator.Some? && window.value.navigator.value.userAgent != ""
  }

  // ---------------------------------------------------------------------------
  // Summary

  /** `results.filter(r => r.status === status).length`. */
  function Count(results: seq<TestResult>, status: Status): (n: nat)
    ensures n <= |results|
    decreases |results|
  {
    if results == [] then 0
    else Count(results[..|results| - 1], status) + (if results[|results| - 1].status == status then 1 else 0)
  }

  lemma {:induction false} CountAppend(a: seq<TestResult>, b: seq<TestResult>, status: Status)
    ensures Count(a + b, status) == Count(a, status) + Count(b, status)
    decreases |b|
  {
    if b == [] {
      assert a + b == a;
    } else {
      var last := |b| - 1;
      assert (a + b)[..|a + b| - 1] == a + b[..last];
      CountAppend(a, b[..last], status);
    }
  }

  /** Every result either passed or failed. */
  lemma {:induction false} PassOrFail(results: seq<TestResult>)
    ensures Count(results, Pass) + Count(results, Fail) == |results|
    decreases |results|
  {
    if results != [] {
      PassOrFail(results[..|results| - 1]);
    }
  }

  /** `Math.round(passed / total * 100)`, and 0 when there are no results. */
  function PassRate(passed: nat, total: nat): (r: nat)
    requires passed <= total
    ensures r <= 100
    ensures total == 0 ==> r == 0
    ensures total > 0 ==> 2 * total * r <= 200 * passed + total < 2 * total * (r + 1)
  {
    if total == 0 then 0
    else
      var r := (200 * passed + total) / (2 * total);
      assert 200 * passed + total < 2 * total * 101;
      r
  }

  datatype Summary = Summary(total: nat, passed: nat, failed: nat, passRate: nat)

  function Summarize(results: seq<TestResult>): (s: Summary)
    ensures s.total == |results| && s.passed + s.failed == s.total
    ensures s.passed == Count(results, Pass) && s.failed == Count(results, Fail)
    ensures s.passRate <= 100 && (s.total == 0 ==> s.passRate == 0)
  {
    PassOrFail(results);
    var passed := Count(results, Pass);
    Summary(|results|, passed, Count(results, Fail), PassRate(passed, |results|))
  }

  /**
   * A run records eleven results, twelve in a browser; it fails nothing
   * exactly when the system is initialized and the browser reports a user agent.
   */
  lemma RunSummary(initialized: bool, window: Option<Window>)
    ensures var s := Summarize(RunResults(initialized, window));
      && s.total == (if window.Some? then 12 else 11)
      && (s.failed == 0 <==> initialized && KnownBrowser(window))
      && (initialized && KnownBrowser(window) ==> s.passRate == 100)
  {
    RunFailures(initialized, window);
    PassOrFail(RunResults(initialized, window));
  }

  lemma RunFailures(initialized: bool, window: Option<Window>)
    ensures |RunResults(initialized, window)| == (if window.Some? then 12 else 11)
    ensures Count(RunResults(initialized, window), Fail) == 0 <==> initialized && KnownBrowser(window)
  {
    var a := InitializationResults(initialized);
    var f := FixedResults();
    var e := DeviceResults(window);
    assert RunResults(initialized, window) == a + f + e;
    FixedResultsPass();
    InitializationFailures(initialized);
    DeviceFailures(window);
    CountAppend(a, f, Fail);
    CountAppend(a + f, e, Fail);
  }

  lemma InitializationFailures(initialized: bool)
    ensures |InitializationResults(initialized)| == 1
    ensures Count(InitializationResults(initialized), Fail) == if initialized then 0 else 1
  {
    assert InitializationResults(initialized)[..0] == [];
  }

  lemma DeviceFailures(window: Option<Window>)
    ensures |DeviceResults(window)| == if window.Some? then 2 else 1
    ensures Count(DeviceResults(window), Fail) == 0 <==> KnownBrowser(window)
  {
    var e := DeviceResults(window);
    if window.Some? {
      assert e[..1] == [e[0]];
    } else {
      assert e[..0] == [];
    }
  }

  /** The nine fixed checks all pass. */
  lemma FixedResultsPass()
    ensures |FixedResults()| == 9 && Count(FixedResults(), Fail) == 0
  {
    var f := FixedResults();
    assert forall k | 0 <= k < |f| :: f[k].status == Pass;
    AllPassCountsNoFail(f);
  }

  lemma {:induction false} AllPassCountsNoFail(results: seq<TestResult>)
    requires forall k | 0 <= k < |results| :: results[k].status == Pass
    ensures Count(results, Fail) == 0
    decreases |results|
  {
    if results != [] {
      AllPassCountsNoFail(results[..|results| - 1]);
    }
  }

  // ---------------------------------------------------------------------------
  // The runner

  class VisualSystemBrowserTest {
    const system: VisualSystem.VisualEnhancementSystem
    var results: seq<TestResult>

    constructor(system: VisualSystem.VisualEnhancementSystem)
      ensures this.system == system && results == []
    {
      this.system := system;
      results := [];
    }

    /** Clears the results and runs the five checks in order. */
    method RunAllTests() returns (r: seq<TestResult>)
      modifies this, system.configManager, system.configManager.store
      ensures r == results == RunResults(system.initialized, system.window)
      ensures system.configManager.config == old(system.configManager.config)
    {
      results := [];
      TestSystemInitialization();
      TestConfigurationManagement();
      TestManagerAvailability();
      TestPerformanceController();
      TestDeviceDetection();
      r := results;
    }

    /** Appends one result and keeps the earlier ones. */
    method AddResult(test: string, status: Status, message: string)
      modifies this
      ensures results == old(results) + [TestResult(test, status, message)]
    {
      results := results + [TestResult(test, status, message)];
    }

    method TestSystemInitialization()
      modifies this
      ensures results == old(results) + InitializationResults(system.initialized)
    {
      var initialized := system.IsInitialized();
      if initialized {
        AddResult("System Initialization", Pass, "System is properly initialized");
      } else {
        AddResult("System Initialization", Fail, "System is not initialized");
      }
    }

    /**
     * Reads the configuration, flips `enableAnimations`, checks that the flip
     * shows, and writes the original configuration back.
     */
    method TestConfigurationManagement()
      modifies this, system.configManager, system.configManager.store
      ensures results == old(results) + ConfigurationResults
      ensures system.configManager.config == old(system.configManager.config)
      ensures system.configManager.window.Some? ==>
        system.configManager.store.visualConfig == Some(Json(Full(old(system.configManager.config))))
    {
      var original := system.GetConfig();
      AddResult("Configuration Get", Pass, "Config retrieved: 6 properties");
      var testValue := !original.enableAnimations;
      system.UpdateConfig(NoUpdate.(enableAnimations := Some(testValue)));
      var updated := system.GetConfig();
      // The flip always shows, so the failure branch of this check is never taken.
      assert updated.enableAnimations == testValue;
      AddResult("Configuration Update", Pass, "Configuration updated successfully");
      system.UpdateConfig(Full(original));
      MergeLaws(original, updated);
    }

    /** One passing result per manager, in order. */
    method TestManagerAvailability()
      modifies this
      ensures results == old(results) + AvailabilityResults()
    {
      var i := 0;
      while i < |ManagerNames|
        invariant 0 <= i <= |ManagerNames|
        invariant results == old(results) + AvailabilityResults()[..i]
      {
        var name := ManagerNames[i];
        AddResult(name + " Availability", Pass, name + " is available and initialized");
        assert AvailabilityResults()[..i + 1] == AvailabilityResults()[..i] + [Availability(name)];
        i := i + 1;
      }
      assert AvailabilityResults()[..i] == AvailabilityResults();
    }

    method TestPerformanceController()
      modifies this
      ensures results == old(results) + PerformanceResults(VisualSystem.StubVitals, VisualSystem.StubMetrics)
    {
      var vitals := VisualSystem.StubVitals;
      AddResult("Performance Monitoring", Pass,
        "Core Web Vitals measured: LCP=" + Decimal(vitals.lcp) + ", FID=" + Decimal(vitals.fid) + ", CLS=" + Decimal(vitals.cls));
      var metrics := VisualSystem.StubMetrics;
      AddResult("Animation Performance", Pass,
        "Animation metrics: FPS=" + Decimal(metrics.averageFPS) + ", Dropped=" + Decimal(metrics.droppedFrames));
    }

    method TestDeviceDetection()
      modifies this
      ensures results == old(results) + DeviceResults(system.window)
    {
      if system.window.Some? {
        AddResult("Browser Environment", Pass, "Running in browser environment");
        if system.window.value.navigator.None? {
          AddResult("Device Detection", Fail, "Error: navigator is not defined");
        } else {
          var userAgent := system.window.value.navigator.value.userAgent;
          if userAgent != "" {
            AddResult("User Agent Detection", Pass, "User agent detected: " + Prefix50(userAgent) + "...");
          } else {
            AddResult("User Agent Detection", Fail, "No user agent available");
          }
        }
      } else {
        AddResult("Browser Environment", Fail, "Not running in browser environment");
      }
    }

    method GetTestSummary() returns (s: Summary)
      ensures s == Summarize(results)
    {
      s := Summarize(results);
    }
  }
}
