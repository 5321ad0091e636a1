/** The plugin entry object (plugin/FlowVisualizer.kt): an init-once / shutdown
    state machine in front of the tracker. Its Android side effects (starting
    and stopping the notification service, registering the automatic tracker's
    lifecycle callbacks, starting the visualiser activity) are recorded as an
    effect log; the automatic tracker's on/off switch is a field. */
module Plugin {
  import opened Text
  import opened FlowEvents
  import opened StreamTrace
  import opened Config
  import opened Tracker

  datatype Effect =
    | StartNotificationService
    | StopNotificationService
    | InitAutomaticTracking
    | StartLauncherActivity

  /** The effects `init` causes under configuration `c`. */
  function InitEffects(c: FlowVisualizerConfig): (r: seq<Effect>)
    ensures StartNotificationService in r <==> c.notificationEnabled
    ensures |r| > 0 && r[|r| - 1] == InitAutomaticTracking
  {
    (if c.notificationEnabled then [StartNotificationService] else []) + [InitAutomaticTracking]
  }

  /** The effects `shutdown` causes under configuration `c`. */
  function ShutdownEffects(c: FlowVisualizerConfig): (r: seq<Effect>)
    ensures StopNotificationService in r <==> c.notificationEnabled
    ensures |r| <= 1
  {
    if c.notificationEnabled then [StopNotificationService] else []
  }

  /** One `init` and one `shutdown` under the same configuration start and stop
      the notification service the same number of times. */
  lemma NotificationServiceBalanced(c: FlowVisualizerConfig)
    ensures multiset(InitEffects(c))[StartNotificationService] == multiset(ShutdownEffects(c))[StopNotificationService]
  {
    if c.notificationEnabled {
      assert InitEffects(c) == [StartNotificationService, InitAutomaticTracking];
    } else {
      assert InitEffects(c) == [InitAutomaticTracking];
    }
  }

  class FlowVisualizer<T> {
    const tracker: ReactiveStreamTracker<T>
    var isInitialized: bool
    var config: FlowVisualizerConfig
    /** `AutomaticFlowTracker.isEnabled`. */
    var automaticTrackingEnabled: bool
    var effects: seq<Effect>

    constructor (tracker: ReactiveStreamTracker<T>)
      ensures this.tracker == tracker
      ensures !isInitialized && config == Default() && automaticTrackingEnabled && effects == []
    {
      this.tracker := tracker;
      isInitialized := false;
      config := Default();
      automaticTrackingEnabled := true;
      effects := [];
    }

    /** `init`: ignored once initialised; otherwise stores the configuration, hands it
        to the tracker, marks the plugin initialised and causes `InitEffects`. */
    method Init(c: FlowVisualizerConfig := Default())
      modifies this`isInitialized, this`config, this`effects, tracker`config
      ensures old(isInitialized) ==>
        isInitialized && config == old(config) && effects == old(effects) && tracker.config == old(tracker.config)
      ensures !old(isInitialized) ==>
        isInitialized && config == c && tracker.config == c && effects == old(effects) + InitEffects(c)
    {
      if isInitialized {
        return;
      }
      config := c;
      tracker.SetConfig(c);
      isInitialized := true;
      if c.notificationEnabled {
        effects := effects + [StartNotificationService];
      }
      effects := effects + [InitAutomaticTracking];
    }

    /** `launch`: starts the visualiser activity, only once initialised. */
    method Launch()
      modifies this`effects
      ensures effects == old(effects) + (if isInitialized then [StartLauncherActivity] else [])
    {
      if !isInitialized {
        return;
      }
      effects := effects + [StartLauncherActivity];
    }

    /** `shutdown`: ignored unless initialised; otherwise stops the notification service
        when the stored configuration enabled it, switches automatic tracking off,
        resets the tracker and clears the initialised flag. */
    method Shutdown()
      requires tracker.Valid()
      modifies this`isInitialized, this`automaticTrackingEnabled, this`effects, tracker, tracker.liveDataObservers.Keys`observers
      ensures tracker.Valid() && !isInitialized
      ensures !old(isInitialized) ==>
        && automaticTrackingEnabled == old(automaticTrackingEnabled) && effects == old(effects)
        && unchanged(tracker) && unchanged(tracker.liveDataObservers.Keys)
      ensures old(isInitialized) ==>
        && !automaticTrackingEnabled && effects == old(effects) + ShutdownEffects(config)
        && tracker.streamCounter == 0 && tracker.liveDataObservers == map[] && tracker.mutableStateFlows == map[]
        && tracker.isTrackingEnabled == old(tracker.isTrackingEnabled) && tracker.config == old(tracker.config)
        && tracker.bus == old(tracker.bus)
      ensures old(isInitialized) ==> forall ld :: ld in old(tracker.liveDataObservers) ==>
        ld.observers == Without(old(ld.observers), old(tracker.liveDataObservers)[ld])
    {
      if !isInitialized {
        return;
      }
      if config.notificationEnabled {
        effects := effects + [StopNotificationService];
      }
      automaticTrackingEnabled := false;
      tracker.Reset();
      isInitialized := false;
    }

    /** `setTrackingEnabled`: switches both the tracker and automatic tracking. */
    method SetTrackingEnabled(enabled: bool)
      modifies tracker`isTrackingEnabled, this`automaticTrackingEnabled
      ensures tracker.isTrackingEnabled == enabled && automaticTrackingEnabled == enabled
    {
      tracker.SetTrackingEnabled(enabled);
      automaticTrackingEnabled := enabled;
    }

    /** `setAutomaticTrackingEnabled`: switches automatic tracking only. */
    method SetAutomaticTrackingEnabled(enabled: bool)
      modifies this`automaticTrackingEnabled
      ensures automaticTrackingEnabled == enabled
    {
      automaticTrackingEnabled := enabled;
    }

    /** `trackFlow`: the tracker's `trackFlow` with the same arguments. */
    method TrackFlow(flow: Flow<T>, name: string) returns (r: Flow<T>)
      modifies tracker`streamCounter
      ensures !tracker.isTrackingEnabled ==> r == flow && tracker.streamCounter == old(tracker.streamCounter)
      ensures tracker.isTrackingEnabled ==>
        && tracker.streamCounter == Inc32(old(tracker.streamCounter))
        && r == Tracked(flow, StreamName(name, "Flow", tracker.streamCounter), FLOW)
    {
      r := tracker.TrackFlow(flow, name);
    }

    /** `trackStateFlow`: the tracker's `trackStateFlow` with the same arguments. */
    method TrackStateFlow(stateFlow: StateCell<T>, name: string) returns (r: StateCell<T>)
      modifies tracker`streamCounter, tracker`bus
      ensures !tracker.isTrackingEnabled ==>
        r == stateFlow && tracker.streamCounter == old(tracker.streamCounter) && tracker.bus == old(tracker.bus)
      ensures tracker.isTrackingEnabled ==>
        && fresh(r) && r.value == stateFlow.value
        && tracker.streamCounter == Inc32(old(tracker.streamCounter))
        && var n := StreamName(name, "StateFlow", tracker.streamCounter);
           tracker.bus == old(tracker.bus)
             + tracker.StampFrom(|old(tracker.bus)|, [Started(n, STATE_FLOW), Emission(stateFlow.value, n, STATE_FLOW)])
    {
      r := tracker.TrackStateFlow(stateFlow, name);
    }
  }

  /** A second `init` keeps the first configuration, and `launch` does nothing until `init`. */
  method InitOnceScenario<T>(tracker: ReactiveStreamTracker<T>, first: FlowVisualizerConfig, second: FlowVisualizerConfig)
    returns (kept: FlowVisualizerConfig, launchedBeforeInit: bool, launchedAfterInit: bool)
    modifies tracker
    ensures kept == first && !launchedBeforeInit && launchedAfterInit
  {
    var plugin := new FlowVisualizer(tracker);
    plugin.Launch();
    launchedBeforeInit := StartLauncherActivity in plugin.effects;
    plugin.Init(first);
    plugin.Init(second);
    kept := plugin.config;
    plugin.Launch();
    launchedAfterInit := StartLauncherActivity in plugin.effects;
  }
}
