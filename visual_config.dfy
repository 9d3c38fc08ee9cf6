/**
 * The visual-enhancement configuration manager: the configuration record and
 * its partial-update merge, the device and reduced-motion overrides applied
 * when a manager is built, the reaction to a change of the reduced-motion
 * preference, and the `visualConfig` entry of local storage that updates
 * write and `loadFromStorage` reads. The browser (window, navigator, media
 * query, storage) is a parameter.
 */
module ConfigManager {
  import opened Wrappers
  import opened Text

  datatype ImageQuality = Low | Medium | High | Auto

  /** The keys of the configuration record. */
  datatype ConfigKey = AnimationsKey | ReducedMotionKey | QualityKey | LazyLoadingKey | ParallaxKey | DurationKey

  /** The value stored under one key. */
  datatype Setting = Flag(on: bool) | Quality(quality: ImageQuality) | Millis(ms: int)

  datatype VisualConfig = VisualConfig(
    enableAnimations: bool,
    respectReducedMotion: bool,
    imageQuality: ImageQuality,
    enableLazyLoading: bool,
    enableParallax: bool,
    animationDuration: int)
  {
    function Get(key: ConfigKey): Setting {
      match key
      case AnimationsKey => Flag(enableAnimations)
      case ReducedMotionKey => Flag(respectReducedMotion)
      case QualityKey => Quality(imageQuality)
      case LazyLoadingKey => Flag(enableLazyLoading)
      case ParallaxKey => Flag(enableParallax)
      case DurationKey => Millis(animationDuration)
    }
  }

  const DefaultConfig := VisualConfig(true, true, Auto, true, true, 300)

  /** A `Partial<VisualConfig>`: a key is either given a value or absent. */
  datatype ConfigUpdate = ConfigUpdate(
    enableAnimations: Option<bool>,
    respectReducedMotion: Option<bool>,
    imageQuality: Option<ImageQuality>,
    enableLazyLoading: Option<bool>,
    enableParallax: Option<bool>,
    animationDuration: Option<int>)
  {
    function Get(key: ConfigKey): Option<Setting> {
      match key
      case AnimationsKey => if enableAnimations.Some? then Some(Flag(enableAnimations.value)) else None
      case ReducedMotionKey => if respectReducedMotion.Some? then Some(Flag(respectReducedMotion.value)) else None
      case QualityKey => if imageQuality.Some? then Some(Quality(imageQuality.value)) else None
      case LazyLoadingKey => if enableLazyLoading.Some? then Some(Flag(enableLazyLoading.value)) else None
      case ParallaxKey => if enableParallax.Some? then Some(Flag(enableParallax.value)) else None
      case DurationKey => if animationDuration.Some? then Some(Millis(animationDuration.value)) else None
    }
  }

  const NoUpdate := ConfigUpdate(None, None, None, None, None, None)

  /** A whole configuration seen as an update that gives every key. */
  function Full(c: VisualConfig): (u: ConfigUpdate)
    ensures forall key :: u.Get(key) == Some(c.Get(key))
  {
    ConfigUpdate(Some(c.enableAnimations), Some(c.respectReducedMotion), Some(c.imageQuality),
      Some(c.enableLazyLoading), Some(c.enableParallax), Some(c.animationDuration))
  }

  /** Two configurations that agree on every key are the same configuration. */
  lemma SameSettingsSameConfig(c: VisualConfig, d: VisualConfig)
    requires forall key :: c.Get(key) == d.Get(key)
    ensures c == d
  {
    assert c.Get(AnimationsKey) == d.Get(AnimationsKey);
    assert c.Get(ReducedMotionKey) == d.Get(ReducedMotionKey);
    assert c.Get(QualityKey) == d.Get(QualityKey);
    assert c.Get(LazyLoadingKey) == d.Get(LazyLoadingKey);
    assert c.Get(ParallaxKey) == d.Get(ParallaxKey);
    assert c.Get(DurationKey) == d.Get(DurationKey);
  }

  /** `{ ...c, ...u }`: every key `u` gives takes its new value, every other key keeps its old one. */
  function Merge(c: VisualConfig, u: ConfigUpdate): (r: VisualConfig)
    ensures forall key :: r.Get(key) == if u.Get(key).Some? then u.Get(key).value else c.Get(key)
  {
    VisualConfig(
      u.enableAnimations.GetOr(c.enableAnimations),
      u.respectReducedMotion.GetOr(c.respectReducedMotion),
      u.imageQuality.GetOr(c.imageQuality),
      u.enableLazyLoading.GetOr(c.enableLazyLoading),
      u.enableParallax.GetOr(c.enableParallax),
      u.animationDuration.GetOr(c.animationDuration))
  }

  /** `{ ...u, ...v }`: the update that applies `u` and then `v`. */
  function Then(u: ConfigUpdate, v: ConfigUpdate): (w: ConfigUpdate)
    ensures forall key :: w.Get(key) == if v.Get(key).Some? then v.Get(key) else u.Get(key)
  {
    ConfigUpdate(
      if v.enableAnimations.Some? then v.enableAnimations else u.enableAnimations,
      if v.respectReducedMotion.Some? then v.respectReducedMotion else u.respectReducedMotion,
      if v.imageQuality.Some? then v.imageQuality else u.imageQuality,
      if v.enableLazyLoading.Some? then v.enableLazyLoading else u.enableLazyLoading,
      if v.enableParallax.Some? then v.enableParallax else u.enableParallax,
      if v.animationDuration.Some? then v.animationDuration else u.animationDuration)
  }

  /** Merging nothing keeps the configuration; merging a whole configuration yields exactly it. */
  lemma MergeLaws(c: VisualConfig, d: VisualConfig)
    ensures Merge(c, NoUpdate) == c
    ensures Merge(d, Full(c)) == c
  {
    forall key ensures Merge(c, NoUpdate).Get(key) == c.Get(key) {
    }
    SameSettingsSameConfig(Merge(c, NoUpdate), c);
    SameSettingsSameConfig(Merge(d, Full(c)), c);
  }

  /** Applying the same update twice is applying it once; two updates in a row are their combination. */
  lemma MergeComposes(c: VisualConfig, u: ConfigUpdate, v: ConfigUpdate)
    ensures Merge(Merge(c, u), u) == Merge(c, u)
    ensures Merge(Merge(c, u), v) == Merge(c, Then(u, v))
  {
    SameSettingsSameConfig(Merge(Merge(c, u), u), Merge(c, u));
    SameSettingsSameConfig(Merge(Merge(c, u), v), Merge(c, Then(u, v)));
  }

  // ---------------------------------------------------------------------------
  // The browser

  /** `navigator.connection` (or its vendor-prefixed variants), when one exists. */
  datatype Connection = Connection(effectiveType: Option<string>)

  datatype Navigator = Navigator(
    userAgent: string,
    maxTouchPoints: int,
    connection: Option<Connection>,
    deviceMemory: Option<real>)

  /**
   * The window: its navigator, whether `ontouchstart` is one of its
   * properties, and the reduced-motion media query (`None` when `matchMedia`
   * is missing, otherwise whether the query matches).
   */
  datatype Window = Window(
    navigator: Option<Navigator>,
    hasTouchEvents: bool,
    reducedMotionQuery: Option<bool>)

  datatype ConnectionSpeed = SlowConnection | MediumConnection | FastConnection

  datatype DeviceInfo = DeviceInfo(
    isMobile: bool,
    isTablet: bool,
    isDesktop: bool,
    hasTouch: bool,
    connectionSpeed: ConnectionSpeed,
    memoryGB: real)

  /** 2g and slow-2g are slow, 4g is fast; anything else, or no connection object, is medium. */
  function SpeedOf(connection: Option<Connection>): (s: ConnectionSpeed)
    ensures s == SlowConnection <==>
      connection.Some? && (connection.value.effectiveType == Some("slow-2g") || connection.value.effectiveType == Some("2g"))
    ensures s == FastConnection <==> connection.Some? && connection.value.effectiveType == Some("4g")
  {
    if connection.None? then MediumConnection
    else if connection.value.effectiveType == Some("slow-2g") || connection.value.effectiveType == Some("2g") then SlowConnection
    else if connection.value.effectiveType == Some("4g") then FastConnection
    else MediumConnection
  }

  /** `deviceMemory || 4`: a missing or zero reading counts as 4 GB. */
  function MemoryOf(deviceMemory: Option<real>): (gb: real)
    ensures deviceMemory.Some? && deviceMemory.value != 0.0 ==> gb == deviceMemory.value
    ensures deviceMemory.None? || deviceMemory.value == 0.0 ==> gb == 4.0
  {
    if deviceMemory.Some? && deviceMemory.value != 0.0 then deviceMemory.value else 4.0
  }

  /** The alternatives of the case-insensitive mobile pattern, in lower case. */
  const MobileNames: seq<string> := ["android", "webos", "iphone", "ipad", "ipod", "blackberry", "iemobile", "opera mini"]

  /** The mobile pattern finds one of its alternatives somewhere in the user agent. */
  predicate IsMobileAgent(ua: string) {
    exists n | 0 <= n < |MobileNames| :: ContainsIgnoreCase(ua, MobileNames[n])
  }

  /**
   * `\bword\b` at `j`, case-insensitively. The word starts and ends with a
   * letter, so each boundary only asks that the character outside it is not a
   * word character (or that there is none).
   */
  predicate WordAt(s: string, w: string, j: nat) {
    && OccursAtIgnoreCase(s, w, j)
    && (j == 0 || !IsWordChar(s[j - 1]))
    && (j + |w| == |s| || !IsWordChar(s[j + |w|]))
  }

  /** The lookahead `(?=.*\bword\b)` at `p`: the word occurs later on the same line. */
  predicate LaterOnLine(s: string, p: nat, w: string) {
    exists j: nat | p <= j <= |s| :: (forall k | p <= k < j :: !IsLineTerminator(s[k])) && WordAt(s, w, j)
  }

  /** The tablet pattern: "ipad" anywhere, or "android" followed on its line by the words "mobile" and "safari". */
  predicate IsTabletAgent(ua: string) {
    || ContainsIgnoreCase(ua, "ipad")
    || exists i: nat | i <= |ua| :: OccursAtIgnoreCase(ua, "android", i) && LaterOnLine(ua, i + 7, "mobile") && LaterOnLine(ua, i + 7, "safari")
  }

  /** Every user agent the tablet pattern matches, the mobile pattern matches too. */
  lemma TabletIsMobile(ua: string)
    ensures IsTabletAgent(ua) ==> IsMobileAgent(ua)
  {
    if ContainsIgnoreCase(ua, "ipad") {
      assert MobileNames[3] == "ipad";
    } else if IsTabletAgent(ua) {
      var i: nat :| i <= |ua| && OccursAtIgnoreCase(ua, "android", i) && LaterOnLine(ua, i + 7, "mobile") && LaterOnLine(ua, i + 7, "safari");
      assert OccursAtIgnoreCase(ua, MobileNames[0], i);
    }
  }

  /**
   * What `detectDeviceCapabilities` records. Since every tablet is also
   * mobile, the device counts as a desktop exactly when it is not mobile.
   */
  function Detect(w: Window, nav: Navigator): (d: DeviceInfo)
    ensures d.isMobile == IsMobileAgent(nav.userAgent) && d.isTablet == IsTabletAgent(nav.userAgent)
    ensures d.isDesktop <==> !d.isMobile && !d.isTablet
    ensures d.isDesktop <==> !d.isMobile
    ensures d.hasTouch <==> w.hasTouchEvents || nav.maxTouchPoints > 0
    ensures d.connectionSpeed == SpeedOf(nav.connection) && d.memoryGB == MemoryOf(nav.deviceMemory)
  {
    var ua := nav.userAgent;
    TabletIsMobile(ua);
    DeviceInfo(
      IsMobileAgent(ua),
      IsTabletAgent(ua),
      !IsMobileAgent(ua) && !IsTabletAgent(ua),
      w.hasTouchEvents || nav.maxTouchPoints > 0,
      SpeedOf(nav.connection),
      MemoryOf(nav.deviceMemory))
  }

  /** The device information, when there is a window with a navigator. */
  function DetectedDevice(window: Option<Window>): Option<DeviceInfo> {
    if window.Some? && window.value.navigator.Some? then Some(Detect(window.value, window.value.navigator.value)) else None
  }

  predicate NeedsLightMode(d: DeviceInfo) {
    d.isMobile || d.connectionSpeed == SlowConnection || d.memoryGB < 4.0
  }

  /** The device override: medium images, no parallax and 200 ms animations on a weak device. */
  function DeviceAdjusted(c: VisualConfig, device: Option<DeviceInfo>): VisualConfig {
    if device.Some? && NeedsLightMode(device.value)
    then c.(imageQuality := Medium, enableParallax := false, animationDuration := 200)
    else c
  }

  predicate PrefersReducedMotion(window: Option<Window>) {
    window.Some? && window.value.reducedMotionQuery == Some(true)
  }

  /** The reduced-motion override, when the user asks for it and the configuration respects it. */
  function MotionAdjusted(c: VisualConfig, window: Option<Window>): VisualConfig {
    if PrefersReducedMotion(window) && c.respectReducedMotion
    then c.(enableAnimations := false, enableParallax := false, animationDuration := 0)
    else c
  }

  /** The configuration a new manager holds: defaults, then the initial values, then the device and the motion overrides. */
  function StartConfig(initial: ConfigUpdate, window: Option<Window>): VisualConfig {
    MotionAdjusted(DeviceAdjusted(Merge(DefaultConfig, initial), DetectedDevice(window)), window)
  }

  /**
   * Field by field: lazy loading and `respectReducedMotion` are the merged
   * values; a weak device forces medium images; parallax is off on a weak
   * device or under reduced motion; and reduced motion, applied last, wins
   * the duration (0) over the device override (200).
   */
  lemma StartConfigFields(initial: ConfigUpdate, window: Option<Window>)
    ensures var base := Merge(DefaultConfig, initial);
      var light := DetectedDevice(window).Some? && NeedsLightMode(DetectedDevice(window).value);
      var reduce := PrefersReducedMotion(window) && base.respectReducedMotion;
      var c := StartConfig(initial, window);
      && c.enableAnimations == (base.enableAnimations && !reduce)
      && c.respectReducedMotion == base.respectReducedMotion
      && c.imageQuality == (if light then Medium else base.imageQuality)
      && c.enableLazyLoading == base.enableLazyLoading
      && c.enableParallax == (base.enableParallax && !light && !reduce)
      && c.animationDuration == (if reduce then 0 else if light then 200 else base.animationDuration)
  {
  }

  /** Without a window the manager holds the defaults with the initial values over them. */
  lemma NoWindowNoOverride(initial: ConfigUpdate)
    ensures StartConfig(initial, None) == Merge(DefaultConfig, initial)
    ensures StartConfig(NoUpdate, None) == DefaultConfig
  {
    MergeLaws(DefaultConfig, DefaultConfig);
  }

  /** The update the change listener applies when reduced motion turns on. */
  const ReduceMotion := NoUpdate.(enableAnimations := Some(false), enableParallax := Some(false), animationDuration := Some(0))

  /** The update the change listener applies when reduced motion turns off. */
  const RestoreMotion := NoUpdate.(enableAnimations := Some(true), enableParallax := Some(true), animationDuration := Some(DefaultConfig.animationDuration))

  /**
   * Turning reduced motion off brings parallax and the default 300 ms back
   * even on a device whose override had set them to off and 200 ms.
   */
  lemma RestoreUndoesDeviceOverride(c: VisualConfig, d: DeviceInfo)
    requires NeedsLightMode(d)
    ensures var r := Merge(DeviceAdjusted(c, Some(d)), RestoreMotion);
      r.enableParallax && r.animationDuration == 300 && r.imageQuality == Medium
  {
  }

  // ---------------------------------------------------------------------------
  // Storage

  /** What the `visualConfig` entry of local storage parses to: an object's keys, or a parse failure. */
  datatype Stored = Json(fields: ConfigUpdate) | Unparsable

  /** The browser's local storage, shared by every manager; only the `visualConfig` entry is modelled. */
  class ConfigStore {
    var visualConfig: Option<Stored>

    constructor(initial: Option<Stored>)
      ensures visualConfig == initial
    {
      visualConfig := initial;
    }
  }

  /** The initial values `loadFromStorage` hands to the new manager. */
  function Restored(window: Option<Window>, stored: Option<Stored>): (u: ConfigUpdate)
    ensures window.None? || stored.None? || stored == Some(Unparsable) ==> u == NoUpdate
  {
    if window.None? then NoUpdate
    else match stored
      case None => NoUpdate
      case Some(Unparsable) => NoUpdate
      case Some(Json(fields)) => fields
  }

  /** A configuration written by an update is read back whole: the reloaded manager starts from it. */
  lemma SavedConfigReloads(c: VisualConfig, window: Option<Window>)
    requires window.Some?
    ensures Merge(DefaultConfig, Restored(window, Some(Json(Full(c))))) == c
    ensures StartConfig(Restored(window, Some(Json(Full(c)))), window) == MotionAdjusted(DeviceAdjusted(c, DetectedDevice(window)), window)
  {
    MergeLaws(c, DefaultConfig);
  }

  class VisualConfigManager {
    var config: VisualConfig
    var deviceInfo: Option<DeviceInfo>
    /** The change listener on the reduced-motion media query is registered. */
    var listening: bool
    const window: Option<Window>
    const store: ConfigStore

    /** `{ ...DEFAULT_VISUAL_CONFIG, ...initialConfig }`, then the device and the motion overrides. */
    constructor(initial: ConfigUpdate, window: Option<Window>, store: ConfigStore)
      ensures this.window == window && this.store == store
      ensures config == StartConfig(initial, window)
      ensures deviceInfo == DetectedDevice(window)
      ensures listening <==> window.Some? && window.value.reducedMotionQuery.Some?
    {
      this.window := window;
      this.store := store;
      config := Merge(DefaultConfig, initial);
      deviceInfo := None;
      listening := false;
      new;
      DetectDeviceCapabilities();
      ApplyReducedMotionPreference();
    }

    /** Records the device information and applies the device override; without a window or navigator, does nothing. */
    method DetectDeviceCapabilities()
      modifies this
      ensures deviceInfo == if DetectedDevice(window).Some? then DetectedDevice(window) else old(deviceInfo)
      ensures config == DeviceAdjusted(old(config), DetectedDevice(window))
      ensures listening == old(listening)
    {
      if window.None? || window.value.navigator.None? {
        return;
      }
      var d := Detect(window.value, window.value.navigator.value);
      deviceInfo := Some(d);
      if d.isMobile || d.connectionSpeed == SlowConnection || d.memoryGB < 4.0 {
        config := config.(imageQuality := Medium);
        config := config.(enableParallax := false);
        config := config.(animationDuration := 200);
      }
    }

    /** Applies the reduced-motion override and registers the change listener, when `matchMedia` exists. */
    method ApplyReducedMotionPreference()
      modifies this
      ensures config == MotionAdjusted(old(config), window)
      ensures listening == (old(listening) || (window.Some? && window.value.reducedMotionQuery.Some?))
      ensures deviceInfo == old(deviceInfo)
    {
      if window.None? || window.value.reducedMotionQuery.None? {
        return;
      }
      if window.value.reducedMotionQuery.value && config.respectReducedMotion {
        config := config.(enableAnimations := false);
        config := config.(enableParallax := false);
        config := config.(animationDuration := 0);
      }
      listening := true;
    }

    /** A copy of the configuration: a value, so nothing done to it reaches the manager. */
    method GetConfig() returns (c: VisualConfig)
      ensures c == config
    {
      c := config;
    }

    /** Merges the update and, in a browser, writes the whole configuration to storage. */
    method UpdateConfig(updates: ConfigUpdate)
      modifies this, store
      ensures config == Merge(old(config), updates)
      ensures window.Some? ==> store.visualConfig == Some(Json(Full(config)))
      ensures window.None? ==> store.visualConfig == old(store.visualConfig)
      ensures deviceInfo == old(deviceInfo) && listening == old(listening)
    {
      config := Merge(config, updates);
      ApplyConfigChanges();
    }

    method ApplyConfigChanges()
      modifies store
      ensures window.Some? ==> store.visualConfig == Some(Json(Full(config)))
      ensures window.None? ==> store.visualConfig == old(store.visualConfig)
    {
      if window.Some? {
        store.visualConfig := Some(Json(Full(config)));
      }
    }

    /**
     * The media-query listener. Reduced motion turning on (and respected)
     * switches animations and parallax off with a zero duration; turning off
     * switches both on with the default duration; otherwise nothing happens.
     */
    method OnReducedMotionChange(matches: bool)
      requires listening
      modifies this, store
      ensures matches && old(config).respectReducedMotion ==>
        config == Merge(old(config), ReduceMotion) && !config.enableAnimations && !config.enableParallax && config.animationDuration == 0
      ensures !matches ==>
        config == Merge(old(config), RestoreMotion) && config.enableAnimations && config.enableParallax && config.animationDuration == 300
      ensures matches && !old(config).respectReducedMotion ==>
        config == old(config) && store.visualConfig == old(store.visualConfig)
      ensures (matches && old(config).respectReducedMotion) || !matches ==>
        && (window.Some? ==> store.visualConfig == Some(Json(Full(config))))
        && (window.None? ==> store.visualConfig == old(store.visualConfig))
      ensures deviceInfo == old(deviceInfo) && listening
    {
      if matches && config.respectReducedMotion {
        UpdateConfig(ReduceMotion);
      } else if !matches {
        UpdateConfig(RestoreMotion);
      }
    }

    /**
     * A manager built from what storage holds: no window, nothing stored, or
     * text that does not parse, all give a manager built from the defaults.
     */
    static method LoadFromStorage(window: Option<Window>, store: ConfigStore) returns (m: VisualConfigManager)
      ensures fresh(m) && m.window == window && m.store == store
      ensures m.config == StartConfig(Restored(window, store.visualConfig), window)
      ensures m.deviceInfo == DetectedDevice(window)
    {
      if window.None? {
        m := new VisualConfigManager(NoUpdate, window, store);
        return;
      }
      match store.visualConfig {
        case None =>
          m := new VisualConfigManager(NoUpdate, window, store);
        case Some(Unparsable) =>
          m := new VisualConfigManager(NoUpdate, window, store);
        case Some(Json(fields)) =>
          m := new VisualConfigManager(fields, window, store);
      }
    }
  }
}
