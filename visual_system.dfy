/**
 * The visual enhancement system: it owns a configuration manager, an
 * animation manager and an image manager, tracks whether it is initialized,
 * and reports initialization and destruction as window events. A registry
 * holds the lazily created global instance.
 */
module VisualSystem {
  import opened Wrappers
  import opened ConfigManager
  import Animations
  import Images

  /** The custom events the system dispatches on the window. */
  datatype SystemEvent = SystemInitialized | SystemDestroyed

  /** `config` applied to `c` when one is given. */
  function Updated(c: VisualConfig, config: Option<ConfigUpdate>): VisualConfig {
    if config.Some? then Merge(c, config.value) else c
  }

  /** What the placeholder performance controller measures: always the same numbers. */
  datatype CoreWebVitals = CoreWebVitals(lcp: nat, fid: nat, cls: nat)
  datatype AnimationMetrics = AnimationMetrics(averageFPS: nat, droppedFrames: nat, memoryUsage: nat)

  const StubVitals := CoreWebVitals(0, 0, 0)
  const StubMetrics := AnimationMetrics(60, 0, 0)

  class VisualEnhancementSystem {
    const configManager: VisualConfigManager
    const animationManager: Animations.AnimationManager
    const imageManager: Images.ImageManager
    /** The browser window, when there is one. */
    const window: Option<Window>
    var initialized: bool
    /** The events dispatched on the window, in order. */
    var dispatched: seq<SystemEvent>

    /**
     * Without a window no event is dispatched; with one, the last event
     * dispatched tells whether the system is initialized.
     */
    ghost predicate Valid()
      reads this
    {
      && (window.None? ==> dispatched == [])
      && (window.Some? ==> (initialized <==> |dispatched| > 0 && dispatched[|dispatched| - 1] == SystemInitialized))
    }

    /**
     * Uses the configuration manager given, or else one loaded from storage,
     * and creates the managers. A new system is not initialized.
     */
    constructor(given: Option<VisualConfigManager>, window: Option<Window>, store: ConfigStore, hasIntersectionObserver: bool, supportsWebP: bool)
      ensures Valid()
      ensures !initialized && dispatched == [] && this.window == window
      ensures given.Some? ==> configManager == given.value
      ensures given.None? ==>
        fresh(configManager) && configManager.store == store
        && configManager.config == StartConfig(Restored(window, store.visualConfig), window)
      ensures fresh(animationManager) && animationManager.Valid()
        && animationManager.scrollAnimations == map[] && animationManager.hoverAnimations == map[]
      ensures fresh(imageManager) && imageManager.Valid()
        && imageManager.observing == (window.Some? && hasIntersectionObserver)
        && imageManager.lazyImages == map[]
    {
      var manager: VisualConfigManager;
      if given.Some? {
        manager := given.value;
      } else {
        manager := VisualConfigManager.LoadFromStorage(window, store);
      }
      configManager := manager;
      animationManager := new Animations.AnimationManager();
      imageManager := new Images.ImageManager(window.Some? && hasIntersectionObserver, supportsWebP);
      this.window := window;
      initialized := false;
      dispatched := [];
    }

    /**
     * Runs the start-up steps once. An already initialized system only warns.
     * Otherwise, when the steps succeed the system becomes initialized and
     * dispatches `visualSystemInitialized` if there is a window; when a step
     * throws, the error is rethrown and the system stays uninitialized.
     */
    method Initialize(stepError: Option<string>) returns (thrown: Option<string>)
      requires Valid()
      modifies this
      ensures Valid()
      ensures old(initialized) ==> thrown.None? && initialized && dispatched == old(dispatched)
      ensures !old(initialized) && stepError.None? ==>
        thrown.None? && initialized
        && dispatched == old(dispatched) + (if window.Some? then [SystemInitialized] else [])
      ensures !old(initialized) && stepError.Some? ==>
        thrown == stepError && !initialized && dispatched == old(dispatched)
    {
      if initialized {
        return None;
      }
      if stepError.Some? {
        return stepError;
      }
      initialized := true;
      if window.Some? {
        dispatched := dispatched + [SystemInitialized];
      }
      thrown := None;
    }

    method GetConfig() returns (c: VisualConfig)
      ensures c == configManager.config
    {
      c := configManager.GetConfig();
    }

    /** Hands the update to the configuration manager; the managers are not told yet. */
    method UpdateConfig(updates: ConfigUpdate)
      modifies configManager, configManager.store
      ensures configManager.config == Merge(old(configManager.config), updates)
      ensures configManager.window.Some? ==> configManager.store.visualConfig == Some(Json(Full(configManager.config)))
      ensures configManager.window.None? ==> configManager.store.visualConfig == old(configManager.store.visualConfig)
      ensures configManager.deviceInfo == old(configManager.deviceInfo)
      ensures configManager.listening == old(configManager.listening)
    {
      configManager.UpdateConfig(updates);
    }

    method IsInitialized() returns (b: bool)
      ensures b == initialized
    {
      b := initialized;
    }

    /**
     * Cleans up the image manager (the only manager cleaned up), marks the
     * system uninitialized and dispatches `visualSystemDestroyed` if there is a window.
     */
    method Destroy()
      requires Valid()
      modifies this, imageManager
      ensures Valid()
      ensures !initialized
      ensures dispatched == old(dispatched) + (if window.Some? then [SystemDestroyed] else [])
      ensures !imageManager.observing && imageManager.lazyImages == map[] && imageManager.observed == {}
      ensures imageManager.loads == old(imageManager.loads)
    {
      imageManager.Destroy();
      initialized := false;
      if window.Some? {
        dispatched := dispatched + [SystemDestroyed];
      }
    }
  }

  /** The module-level global instance and the environment it is created in. */
  class Registry {
    var global: Option<VisualEnhancementSystem>
    const window: Option<Window>
    const store: ConfigStore
    const hasIntersectionObserver: bool
    const supportsWebP: bool

    ghost predicate Valid()
      reads this, if global.Some? then {global.value} else {}
    {
      global.Some? ==> global.value.Valid()
    }

    constructor(window: Option<Window>, store: ConfigStore, hasIntersectionObserver: bool, supportsWebP: bool)
      ensures Valid() && global.None?
      ensures this.window == window && this.store == store
    {
      global := None;
      this.window := window;
      this.store := store;
      this.hasIntersectionObserver := hasIntersectionObserver;
      this.supportsWebP := supportsWebP;
    }

    /** The global system, created from stored settings on first use and the same instance afterwards. */
    method GetVisualSystem() returns (s: VisualEnhancementSystem)
      requires Valid()
      modifies this
      ensures Valid() && global == Some(s) && s.Valid()
      ensures old(global).Some? ==> s == old(global).value
      ensures old(global).None? ==>
        fresh(s) && !s.initialized && s.dispatched == [] && s.window == window
        && fresh(s.configManager) && s.configManager.store == store
        && s.configManager.config == StartConfig(Restored(window, store.visualConfig), window)
    {
      if global.None? {
        s := new VisualEnhancementSystem(None, window, store, hasIntersectionObserver, supportsWebP);
        global := Some(s);
      } else {
        s := global.value;
      }
    }

    /**
     * Gets the global system, applies `config` to it first when one is given,
     * and initializes it unless it already is.
     */
    method InitializeVisualSystem(config: Option<ConfigUpdate>, stepError: Option<string>)
      returns (s: VisualEnhancementSystem, thrown: Option<string>)
      requires Valid()
      modifies this, store
      modifies if global.Some? then {global.value, global.value.configManager, global.value.configManager.store} else {}
      ensures Valid() && global == Some(s)
      ensures old(global).Some? ==>
        s == old(global).value
        && s.configManager.config == Updated(old(global.value.configManager.config), config)
      ensures old(global).None? ==>
        fresh(s)
        && s.configManager.config == Updated(StartConfig(Restored(window, old(store.visualConfig)), window), config)
      ensures stepError.None? ==> thrown.None? && s.initialized
      ensures thrown.Some? ==> thrown == stepError && !s.initialized
      ensures old(global).Some? && old(global.value.initialized) ==>
        thrown.None? && s.initialized && s.dispatched == old(global.value.dispatched)
      ensures old(global).Some? && !old(global.value.initialized) ==>
        && (stepError.None? ==> s.dispatched == old(global.value.dispatched) + (if s.window.Some? then [SystemInitialized] else []))
        && (stepError.Some? ==> thrown == stepError && !s.initialized && s.dispatched == old(global.value.dispatched))
      ensures old(global).None? ==>
        && (stepError.None? ==> s.dispatched == (if s.window.Some? then [SystemInitialized] else []))
        && (stepError.Some? ==> thrown == stepError && !s.initialized && s.dispatched == [])
    {
      s := GetVisualSystem();
      if config.Some? {
        s.UpdateConfig(config.value);
      }
      var ready := s.IsInitialized();
      thrown := None;
      if !ready {
        thrown := s.Initialize(stepError);
      }
    }
  }
}
