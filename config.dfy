/** The plugin configuration (plugin/FlowVisualizerConfig.kt): an immutable
    value built by a mutable `Builder` whose setters normalise non-positive
    sizes to their defaults. */
module Config {
  import opened Text

  datatype FlowVisualizerTheme = LIGHT | DARK | SYSTEM

  /** The eight recognised options. */
  datatype FlowVisualizerConfig = FlowVisualizerConfig(
    maxEvents: int32,
    enableLogging: bool,
    defaultTheme: FlowVisualizerTheme,
    notificationEnabled: bool,
    codeScannerEnabled: bool,
    scanIntervalMs: int64,
    includeThirdPartyLibraries: bool,
    debuggerIntegrationEnabled: bool)

  const DefaultMaxEvents: int32 := 100
  const DefaultScanIntervalMs: int64 := 5000

  /** `FlowVisualizerConfig.default()`: the options of a fresh builder. */
  function Default(): FlowVisualizerConfig {
    FlowVisualizerConfig(DefaultMaxEvents, false, SYSTEM, true, false, DefaultScanIntervalMs, false, true)
  }

  /** Every configuration a builder can produce has positive sizes. */
  predicate Normalised(c: FlowVisualizerConfig) {
    c.maxEvents > 0 && c.scanIntervalMs > 0
  }

  /** A requested maximum history: kept when positive, otherwise the default. */
  function NormaliseMaxEvents(max: int32): (r: int32)
    ensures r > 0
    ensures r == max || r == DefaultMaxEvents
    ensures max > 0 <==> r == max
  {
    if max > 0 then max else DefaultMaxEvents
  }

  /** A requested scan interval: kept when positive, otherwise the default. */
  function NormaliseScanInterval(intervalMs: int64): (r: int64)
    ensures r > 0
    ensures r == intervalMs || r == DefaultScanIntervalMs
    ensures intervalMs > 0 <==> r == intervalMs
  {
    if intervalMs > 0 then intervalMs else DefaultScanIntervalMs
  }

  /** Normalising twice is normalising once: a stored value is never changed again. */
  lemma NormaliseIdempotent(max: int32, intervalMs: int64)
    ensures NormaliseMaxEvents(NormaliseMaxEvents(max)) == NormaliseMaxEvents(max)
    ensures NormaliseScanInterval(NormaliseScanInterval(intervalMs)) == NormaliseScanInterval(intervalMs)
  {
  }

  /** `FlowVisualizerConfig.Builder`. Each setter assigns one field and returns the builder itself. */
  class Builder {
    var maxEvents: int32
    var enableLogging: bool
    var defaultTheme: FlowVisualizerTheme
    var notificationEnabled: bool
    var codeScannerEnabled: bool
    var scanIntervalMs: int64
    var includeThirdPartyLibraries: bool
    var debuggerIntegrationEnabled: bool

    /** The configuration `build()` would return now. */
    function Current(): FlowVisualizerConfig
      reads this
    {
      FlowVisualizerConfig(maxEvents, enableLogging, defaultTheme, notificationEnabled,
                           codeScannerEnabled, scanIntervalMs, includeThirdPartyLibraries,
                           debuggerIntegrationEnabled)
    }

    ghost predicate Valid()
      reads this
    {
      Normalised(Current())
    }

    constructor ()
      ensures Valid()
      ensures Current() == Default()
    {
      maxEvents := DefaultMaxEvents;
      enableLogging := false;
      defaultTheme := SYSTEM;
      notificationEnabled := true;
      codeScannerEnabled := false;
      scanIntervalMs := DefaultScanIntervalMs;
      includeThirdPartyLibraries := false;
      debuggerIntegrationEnabled := true;
    }

    method SetMaxEvents(max: int32) returns (b: Builder)
      requires Valid()
      modifies this
      ensures Valid() && b == this
      ensures Current() == old(Current()).(maxEvents := NormaliseMaxEvents(max))
    {
      maxEvents := NormaliseMaxEvents(max);
      b := this;
    }

    method SetEnableLogging(enabled: bool) returns (b: Builder)
      requires Valid()
      modifies this
      ensures Valid() && b == this
      ensures Current() == old(Current()).(enableLogging := enabled)
    {
      enableLogging := enabled;
      b := this;
    }

    method SetDefaultTheme(theme: FlowVisualizerTheme) returns (b: Builder)
      requires Valid()
      modifies this
      ensures Valid() && b == this
      ensures Current() == old(Current()).(defaultTheme := theme)
    {
      defaultTheme := theme;
      b := this;
    }

    method SetNotificationEnabled(enabled: bool) returns (b: Builder)
      requires Valid()
      modifies this
      ensures Valid() && b == this
      ensures Current() == old(Current()).(notificationEnabled := enabled)
    {
      notificationEnabled := enabled;
      b := this;
    }

    method SetCodeScannerEnabled(enabled: bool) returns (b: Builder)
      requires Valid()
      modifies this
      ensures Valid() && b == this
      ensures Current() == old(Current()).(codeScannerEnabled := enabled)
    {
      codeScannerEnabled := enabled;
      b := this;
    }

    method SetScanIntervalMs(intervalMs: int64) returns (b: Builder)
      requires Valid()
      modifies this
      ensures Valid() && b == this
      ensures Current() == old(Current()).(scanIntervalMs := NormaliseScanInterval(intervalMs))
    {
      scanIntervalMs := NormaliseScanInterval(intervalMs);
      b := this;
    }

    method SetIncludeThirdPartyLibraries(included: bool) returns (b: Builder)
      requires Valid()
      modifies this
      ensures Valid() && b == this
      ensures Current() == old(Current()).(includeThirdPartyLibraries := included)
    {
      includeThirdPartyLibraries := included;
      b := this;
    }

    method SetDebuggerIntegrationEnabled(enabled: bool) returns (b: Builder)
      requires Valid()
      modifies this
      ensures Valid() && b == this
      ensures Current() == old(Current()).(debuggerIntegrationEnabled := enabled)
    {
      debuggerIntegrationEnabled := enabled;
      b := this;
    }

    /** `build()`: a configuration holding the eight fields as they are, always with positive sizes. */
    method Build() returns (c: FlowVisualizerConfig)
      requires Valid()
      ensures c == Current()
      ensures Normalised(c)
    {
      c := FlowVisualizerConfig(maxEvents, enableLogging, defaultTheme, notificationEnabled,
                                codeScannerEnabled, scanIntervalMs, includeThirdPartyLibraries,
                                debuggerIntegrationEnabled);
    }
  }

  /** `FlowVisualizerConfig.default()` is `Builder().build()`. */
  method DefaultConfig() returns (c: FlowVisualizerConfig)
    ensures c == Default()
    ensures Normalised(c)
  {
    var b := new Builder();
    c := b.Build();
  }

  /** A later call to a setter overwrites an earlier one, and a non-positive size leaves the default. */
  method SettersOverwrite(first: int32, second: int32, interval: int64) returns (c: FlowVisualizerConfig)
    ensures c == Default().(maxEvents := NormaliseMaxEvents(second), scanIntervalMs := NormaliseScanInterval(interval))
    ensures second <= 0 ==> c.maxEvents == 100
    ensures interval <= 0 ==> c.scanIntervalMs == 5000
  {
    var b := new Builder();
    var b1 := b.SetMaxEvents(first);
    var b2 := b1.SetMaxEvents(second);
    var b3 := b2.SetScanIntervalMs(interval);
    c := b3.Build();
  }
}
