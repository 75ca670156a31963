/** The key analyser of one track: the gatekeeper that decides whether a
    track's musical key is (re)computed, which detection plugin computes it,
    how many samples reach that plugin, and what is written back to the track.

    The detection plugins themselves (their signal processing), the key
    factory and the track's storage are foreign: a plugin is the object
    `KeyPlugin`, which records what it is given, and its answers are
    parameters of the methods that call it. */
module Analyzer {

  /** Seconds of audio analysed when fast analysis is on. */
  const FastAnalysisSecondsToAnalyze: nat := 60
  /** Interleaved channels of the sample stream handed to an analyser. */
  const AnalysisChannels: nat := 2

  /** Keys of the extra-version-info map. */
  const VampPluginIdKey: string := "vamp_plugin_id"
  const FastAnalysisKey: string := "fast_analysis"

  type PluginId = string

  /** The key-detection preferences, as read from the user's settings. */
  datatype KeyDetectionSettings = KeyDetectionSettings(
    keyDetectionEnabled: bool,
    fastAnalysis: bool,
    reanalyzeWhenSettingsChange: bool,
    keyPluginId: PluginId)

  /** A chromatic key: 0 is INVALID, 1..24 are the twelve major and twelve
      minor keys. */
  type ChromaticKey = k: int | 0 <= k <= 24
  const INVALID: ChromaticKey := 0

  /** One key change reported by a plugin: the key from a frame onwards. */
  datatype KeyChange = KeyChange(key: ChromaticKey, frame: int)

  /** The part of a track's stored key analysis that the analyser reads. */
  datatype Keys = Keys(globalKey: ChromaticKey, version: string, subVersion: string)

  /** The key factory, left uninterpreted: the preferred analysis version,
      the preferred sub-version for an extra-version-info map, and the keys
      it builds from a plugin's key changes. */
  datatype KeyFactory = KeyFactory(
    preferredVersion: string,
    preferredSubVersion: map<string, string> -> string,
    makePreferredKeys: (seq<KeyChange>, map<string, string>, nat, int) -> Keys)

  // ---------------------------------------------------------------------
  // Plugin selection

  /** The default plugin is the first available one. */
  function DefaultPlugin(plugins: seq<PluginId>): (id: PluginId)
    requires |plugins| > 0
    ensures id in plugins && id == plugins[0]
  {
    plugins[0]
  }

  /** The plugin an analysis runs with: the configured one when it is
      available, the default otherwise. */
  function SelectPluginId(plugins: seq<PluginId>, configured: PluginId): (id: PluginId)
    requires |plugins| > 0
    ensures id in plugins
    ensures id == configured <==> configured in plugins
    ensures id != configured ==> id == DefaultPlugin(plugins)
  {
    if configured in plugins then configured else DefaultPlugin(plugins)
  }

  /** The search `initialize` runs over the available plugins. */
  method ResolvePluginId(plugins: seq<PluginId>, configured: PluginId) returns (id: PluginId)
    requires |plugins| > 0
    ensures id == SelectPluginId(plugins, configured)
  {
    id := DefaultPlugin(plugins);
    var i := 0;
    while i < |plugins|
      invariant 0 <= i <= |plugins|
      invariant configured !in plugins[..i]
      invariant id == DefaultPlugin(plugins)
    {
      if plugins[i] == configured {
        id := configured;  // configured plugin available
        break;
      }
      i := i + 1;
    }
    assert i == |plugins| ==> plugins[..i] == plugins;
  }

  /** The plugin id `shouldAnalyze` compares against: the configured one, or
      the default when none is configured. Unlike `SelectPluginId` it does
      not check that the configured plugin is available. */
  function ConfiguredPluginId(plugins: seq<PluginId>, configured: PluginId): (id: PluginId)
    requires |plugins| > 0
    ensures configured != "" ==> id == configured
    ensures configured == "" ==> id == DefaultPlugin(plugins)
  {
    if configured == "" then DefaultPlugin(plugins) else configured
  }

  /** When plugin ids are non-empty, the id `shouldAnalyze` compares against
      is the one `initialize` runs with exactly when the configured plugin
      is available or none is configured. */
  lemma ConfiguredMatchesSelected(plugins: seq<PluginId>, configured: PluginId)
    requires |plugins| > 0 && "" !in plugins
    ensures ConfiguredPluginId(plugins, configured) == SelectPluginId(plugins, configured)
            <==> configured == "" || configured in plugins
  {
    if configured != "" && configured !in plugins {
      assert SelectPluginId(plugins, configured) in plugins;
    }
  }

  // ---------------------------------------------------------------------
  // Version information

  /** The extra version information stored with a key analysis. */
  function ExtraVersionInfo(pluginId: PluginId, fastAnalysis: bool): (info: map<string, string>)
    ensures VampPluginIdKey in info && info[VampPluginIdKey] == pluginId
    ensures FastAnalysisKey in info <==> fastAnalysis
    ensures fastAnalysis ==> info[FastAnalysisKey] == "1"
    ensures info.Keys <= {VampPluginIdKey, FastAnalysisKey}
    ensures |info| == if fastAnalysis then 2 else 1
  {
    var info := map[VampPluginIdKey := pluginId];
    if fastAnalysis then
      assert info[FastAnalysisKey := "1"].Keys == {VampPluginIdKey, FastAnalysisKey};
      info[FastAnalysisKey := "1"]
    else
      assert info.Keys == {VampPluginIdKey};
      info
  }

  /** Distinct plugin/fast-analysis settings never share version information. */
  lemma ExtraVersionInfoInjective(id1: PluginId, fast1: bool, id2: PluginId, fast2: bool)
    requires ExtraVersionInfo(id1, fast1) == ExtraVersionInfo(id2, fast2)
    ensures id1 == id2 && fast1 == fast2
  {
  }

  /** Stored keys are up to date when both their version and their
      sub-version are the ones the factory prefers for these settings. */
  predicate IsCurrent(keys: Keys, factory: KeyFactory, pluginId: PluginId, fastAnalysis: bool)
  {
    && keys.version == factory.preferredVersion
    && keys.subVersion == factory.preferredSubVersion(ExtraVersionInfo(pluginId, fastAnalysis))
  }

  // ---------------------------------------------------------------------
  // The (re)analysis decision

  /** Whether a track with stored `keys` is analysed. */
  function ShouldAnalyze(settings: KeyDetectionSettings, plugins: seq<PluginId>, factory: KeyFactory,
                         keys: Keys, reanalyzeEnabled: bool): (r: bool)
    requires |plugins| > 0
    ensures r <==> keys.globalKey == INVALID
                   || (!IsCurrent(keys, factory, ConfiguredPluginId(plugins, settings.keyPluginId), settings.fastAnalysis)
                       && reanalyzeEnabled)
  {
    var pluginId := ConfiguredPluginId(plugins, settings.keyPluginId);
    if keys.globalKey != INVALID then
      var extraVersionInfo := ExtraVersionInfo(pluginId, settings.fastAnalysis);
      if keys.version == factory.preferredVersion
         && keys.subVersion == factory.preferredSubVersion(extraVersionInfo) then
        false
      else
        reanalyzeEnabled
    else
      true
  }

  /** A track whose stored keys are missing is always analysed; one with a
      valid key is analysed again only when the user asked for reanalysis. */
  lemma ValidKeysAreKeptWithoutReanalysis(settings: KeyDetectionSettings, plugins: seq<PluginId>,
                                          factory: KeyFactory, keys: Keys)
    requires |plugins| > 0
    ensures keys.globalKey == INVALID ==> ShouldAnalyze(settings, plugins, factory, keys, false)
    ensures keys.globalKey != INVALID ==> !ShouldAnalyze(settings, plugins, factory, keys, false)
  {
  }

  /** Keys written by `storeResults` under unchanged settings are not
      analysed again, provided the configured plugin is available (or none
      is configured) and the factory stamps keys with its preferred
      versions. */
  lemma StoredKeysAreCurrent(settings: KeyDetectionSettings, plugins: seq<PluginId>,
                             factory: KeyFactory, changes: seq<KeyChange>,
                             sampleRate: nat, totalSamples: int, reanalyzeEnabled: bool)
    requires |plugins| > 0 && "" !in plugins
    requires settings.keyPluginId == "" || settings.keyPluginId in plugins
    requires var extra := ExtraVersionInfo(SelectPluginId(plugins, settings.keyPluginId), settings.fastAnalysis);
             var keys := factory.makePreferredKeys(changes, extra, sampleRate, totalSamples);
             keys.globalKey != INVALID && keys.version == factory.preferredVersion
             && keys.subVersion == factory.preferredSubVersion(extra)
    ensures var extra := ExtraVersionInfo(SelectPluginId(plugins, settings.keyPluginId), settings.fastAnalysis);
            !ShouldAnalyze(settings, plugins, factory,
                           factory.makePreferredKeys(changes, extra, sampleRate, totalSamples), reanalyzeEnabled)
  {
    ConfiguredMatchesSelected(plugins, settings.keyPluginId);
  }

  /** When the configured plugin is not available, the keys just stored
      (computed with the default plugin) are compared against version
      information naming the configured one; a factory whose sub-version
      records the plugin id then reports them stale, and with reanalysis on
      the track is analysed again on every pass. */
  lemma UnavailablePluginKeysLookStale()
    ensures var plugins := ["qm"];
            var settings := KeyDetectionSettings(true, false, true, "missing");
            var factory := KeyFactory("v", (m: map<string, string>) => if VampPluginIdKey in m then m[VampPluginIdKey] else "",
                                      (c: seq<KeyChange>, m: map<string, string>, r: nat, t: int) =>
                                        Keys(1, "v", if VampPluginIdKey in m then m[VampPluginIdKey] else ""));
            var extra := ExtraVersionInfo(SelectPluginId(plugins, settings.keyPluginId), settings.fastAnalysis);
            ShouldAnalyze(settings, plugins, factory, factory.makePreferredKeys([], extra, 44100, 1000), true)
  {
    var plugins := ["qm"];
    assert "missing" !in plugins;
    assert SelectPluginId(plugins, "missing") == "qm";
    assert ExtraVersionInfo("qm", false)[VampPluginIdKey] == "qm";
    assert ExtraVersionInfo("missing", false)[VampPluginIdKey] == "missing";
  }

  // ---------------------------------------------------------------------
  // The sample budget

  /** The number of samples fed to the plugin at most: the whole track, or
      the first seconds of it in fast analysis. */
  function SampleBudget(fastAnalysis: bool, sampleRate: nat, totalSamples: int): (budget: int)
    ensures !fastAnalysis ==> budget == totalSamples
    ensures fastAnalysis ==> budget == 120 * sampleRate && budget >= 0
  {
    if fastAnalysis then FastAnalysisSecondsToAnalyze * sampleRate * AnalysisChannels else totalSamples
  }

  /** Sum of chunk lengths. */
  function Sum(lens: seq<int>): int
  {
    if lens == [] then 0 else lens[0] + Sum(lens[1..])
  }

  lemma {:induction false} SumSnoc(lens: seq<int>, x: int)
    ensures Sum(lens + [x]) == Sum(lens) + x
  {
    if lens != [] {
      assert (lens + [x])[1..] == lens[1..] + [x];
      SumSnoc(lens[1..], x);
    }
  }

  /** The chunks `processSamples` passes on to the plugin, when the counter
      starts at `counter` and the chunks of `lens` arrive in order: a chunk
      is passed on only if the counter, after adding it, is still within
      `budget`. */
  function Forwarded(counter: int, budget: int, lens: seq<int>): seq<int>
    decreases lens
  {
    if lens == [] then []
    else
      var next := counter + lens[0];
      (if next > budget then [] else [lens[0]]) + Forwarded(next, budget, lens[1..])
  }

  /** One more chunk is passed on or swallowed according to the counter
      before it. */
  lemma {:induction false} ForwardedSnoc(counter: int, budget: int, lens: seq<int>, x: int)
    decreases lens
    ensures Forwarded(counter, budget, lens + [x])
            == Forwarded(counter, budget, lens) + (if counter + Sum(lens) + x > budget then [] else [x])
  {
    if lens == [] {
      assert lens + [x] == [x];
    } else {
      assert (lens + [x])[1..] == lens[1..] + [x];
      ForwardedSnoc(counter + lens[0], budget, lens[1..], x);
    }
  }

  /** Once the counter has passed the budget, no later chunk of
      non-negative length reaches the plugin. */
  lemma {:induction false} SwallowIsPermanent(counter: int, budget: int, lens: seq<int>)
    decreases lens
    requires counter > budget
    requires forall i :: 0 <= i < |lens| ==> lens[i] >= 0
    ensures Forwarded(counter, budget, lens) == []
  {
    if lens != [] {
      SwallowIsPermanent(counter + lens[0], budget, lens[1..]);
    }
  }

  /** The plugin receives the longest prefix of the chunks whose running
      total stays within the budget: the chunk that crosses the budget is
      dropped whole, and so is everything after it. */
  lemma {:induction false} ForwardedIsLongestPrefixWithinBudget(counter: int, budget: int, lens: seq<int>)
    decreases lens
    requires forall i :: 0 <= i < |lens| ==> lens[i] >= 0
    ensures var f := Forwarded(counter, budget, lens);
            && |f| <= |lens|
            && f == lens[..|f|]
            && (f != [] ==> counter + Sum(f) <= budget)
            && (|f| < |lens| ==> counter + Sum(lens[..|f| + 1]) > budget)
  {
    if lens != [] {
      var next := counter + lens[0];
      var rest := lens[1..];
      if next > budget {
        SwallowIsPermanent(next, budget, rest);
        assert lens[..1] == [lens[0]];
        assert Sum(lens[..1]) == lens[0] + Sum(lens[..1][1..]);
        assert lens[..1][1..] == [];
      } else {
        ForwardedIsLongestPrefixWithinBudget(next, budget, rest);
        var g := Forwarded(next, budget, rest);
        var f := [lens[0]] + g;
        assert Forwarded(counter, budget, lens) == f;
        assert f[1..] == g;
        assert f == lens[..|f|];
        if |f| < |lens| {
          var p := lens[..|f| + 1];
          assert p[1..] == rest[..|g| + 1];
        }
      }
    }
  }

  // ---------------------------------------------------------------------
  // The analyser's state

  /** The track whose keys are read and written. */
  class Track {
    var keys: Keys

    constructor (keys: Keys)
      ensures this.keys == keys
    {
      this.keys := keys;
    }
  }

  /** A running key-detection plugin. Its signal processing is foreign; the
      object records the sample rate it was started with and the chunk
      lengths it has been given, and its answers are parameters. */
  class KeyPlugin {
    const id: PluginId
    var sampleRate: nat
    var forwarded: seq<int>

    constructor (id: PluginId)
      ensures this.id == id && sampleRate == 0 && forwarded == []
    {
      this.id := id;
      sampleRate := 0;
      forwarded := [];
    }

    /** Starts the plugin; `accepted` is the plugin's own answer. */
    method Initialize(sampleRate: nat, accepted: bool) returns (ok: bool)
      modifies this
      ensures ok == accepted
      ensures this.sampleRate == sampleRate && forwarded == old(forwarded)
    {
      this.sampleRate := sampleRate;
      ok := accepted;
    }

    /** Hands a chunk of `len` samples to the plugin; `accepted` is the
        plugin's own answer. */
    method ProcessSamples(len: int, accepted: bool) returns (ok: bool)
      modifies this
      ensures ok == accepted
      ensures forwarded == old(forwarded) + [len] && sampleRate == old(sampleRate)
    {
      forwarded := forwarded + [len];
      ok := accepted;
    }
  }

  /** The key analyser. `plugins` is the list of available plugins, the
      first of which is the default. */
  class AnalyzerKey {
    const settings: KeyDetectionSettings
    const plugins: seq<PluginId>
    const factory: KeyFactory

    var pluginId: PluginId
    var sampleRate: nat
    var totalSamples: int
    var maxSamplesToProcess: int
    var currentSample: int
    var keyDetectionEnabled: bool
    var fastAnalysisEnabled: bool
    var reanalyzeEnabled: bool
    var plugin: KeyPlugin?

    /** The chunk lengths `ProcessSamples` has counted since the counter was
        last reset. */
    ghost var chunks: seq<int>

    ghost predicate Valid()
      reads this, plugin
    {
      && |plugins| > 0
      && currentSample == Sum(chunks)
      && (plugin != null ==>
            && plugin.id == pluginId
            && plugin.forwarded == Forwarded(0, maxSamplesToProcess, chunks))
    }

    constructor (settings: KeyDetectionSettings, plugins: seq<PluginId>, factory: KeyFactory)
      requires |plugins| > 0
      ensures Valid()
      ensures this.settings == settings && this.plugins == plugins && this.factory == factory
      ensures pluginId == "" && sampleRate == 0 && totalSamples == 0
      ensures maxSamplesToProcess == 0 && currentSample == 0
      ensures keyDetectionEnabled && !fastAnalysisEnabled && !reanalyzeEnabled
      ensures plugin == null
    {
      this.settings := settings;
      this.plugins := plugins;
      this.factory := factory;
      pluginId := "";
      sampleRate := 0;
      totalSamples := 0;
      maxSamplesToProcess := 0;
      currentSample := 0;
      keyDetectionEnabled := true;
      fastAnalysisEnabled := false;
      reanalyzeEnabled := false;
      plugin := null;
      chunks := [];
    }

    /** Whether `track` is to be analysed, as `initialize` decides it. */
    function ShouldAnalyzeTrack(track: Track): bool
      reads this, track
      requires |plugins| > 0
    {
      ShouldAnalyze(settings, plugins, factory, track.keys, reanalyzeEnabled)
    }

    /** Prepares the analysis of `track`; `pluginAccepts` is the plugin's
        answer to being started. */
    method Initialize(track: Track, sampleRate: nat, totalSamples: int, pluginAccepts: bool)
      returns (shouldAnalyze: bool)
      requires Valid() && plugin == null
      modifies this
      ensures Valid()
      // no samples, or key detection switched off: nothing is started
      ensures totalSamples == 0 ==> !shouldAnalyze && unchanged(this)
      ensures totalSamples != 0 && !settings.keyDetectionEnabled ==>
                && !shouldAnalyze && !keyDetectionEnabled && plugin == null
                && pluginId == old(pluginId) && this.sampleRate == old(this.sampleRate)
                && this.totalSamples == old(this.totalSamples)
                && maxSamplesToProcess == old(maxSamplesToProcess)
                && currentSample == old(currentSample) && chunks == old(chunks)
                && fastAnalysisEnabled == old(fastAnalysisEnabled)
                && reanalyzeEnabled == old(reanalyzeEnabled)
      // otherwise the preferences are latched and the counter reset
      ensures totalSamples != 0 && settings.keyDetectionEnabled ==>
                && keyDetectionEnabled
                && fastAnalysisEnabled == settings.fastAnalysis
                && reanalyzeEnabled == settings.reanalyzeWhenSettingsChange
                && pluginId == SelectPluginId(plugins, settings.keyPluginId)
                && this.sampleRate == sampleRate && this.totalSamples == totalSamples
                && maxSamplesToProcess == SampleBudget(settings.fastAnalysis, sampleRate, totalSamples)
                && currentSample == 0 && chunks == []
                && shouldAnalyze == (ShouldAnalyzeTrack(track) && pluginAccepts)
      // a plugin exists exactly when the analysis goes ahead
      ensures shouldAnalyze <==> plugin != null
      ensures plugin != null ==> fresh(plugin) && plugin.sampleRate == sampleRate && plugin.forwarded == []
    {
      if totalSamples == 0 {
        return false;
      }

      keyDetectionEnabled := settings.keyDetectionEnabled;
      if !keyDetectionEnabled {
        return false;
      }

      fastAnalysisEnabled := settings.fastAnalysis;
      reanalyzeEnabled := settings.reanalyzeWhenSettingsChange;

      if |plugins| > 0 {
        pluginId := ResolvePluginId(plugins, settings.keyPluginId);
      }

      this.sampleRate := sampleRate;
      this.totalSamples := totalSamples;
      if fastAnalysisEnabled {
        maxSamplesToProcess := FastAnalysisSecondsToAnalyze * sampleRate * AnalysisChannels;
      } else {
        maxSamplesToProcess := totalSamples;
      }
      currentSample := 0;
      chunks := [];

      shouldAnalyze := ShouldAnalyzeTrack(track);
      if shouldAnalyze {
        if pluginId in plugins {
          plugin := new KeyPlugin(pluginId);
          var started := plugin.Initialize(sampleRate, pluginAccepts);
          if !started {
            plugin := null;
            shouldAnalyze := false;
          }
        } else {
          shouldAnalyze := false;
        }
      }
    }

    /** Counts a chunk of `len` samples and hands it to the plugin while the
        budget lasts; `pluginAccepts` is the plugin's answer. */
    method ProcessSamples(len: int, pluginAccepts: bool) returns (ok: bool)
      requires Valid()
      modifies this, plugin
      ensures Valid()
      ensures plugin == old(plugin) && pluginId == old(pluginId)
      ensures maxSamplesToProcess == old(maxSamplesToProcess)
      ensures sampleRate == old(sampleRate) && totalSamples == old(totalSamples)
      ensures fastAnalysisEnabled == old(fastAnalysisEnabled) && reanalyzeEnabled == old(reanalyzeEnabled)
      ensures keyDetectionEnabled == old(keyDetectionEnabled)
      // without a plugin nothing is counted
      ensures plugin == null ==> !ok && currentSample == old(currentSample) && chunks == old(chunks)
      // with one, the counter grows by exactly `len`
      ensures plugin != null ==>
                && currentSample == old(currentSample) + len
                && chunks == old(chunks) + [len]
                && plugin.sampleRate == old(plugin.sampleRate)
      // past the budget the chunk is swallowed and reported as success
      ensures plugin != null && currentSample > maxSamplesToProcess ==>
                ok && plugin.forwarded == old(plugin.forwarded)
      ensures plugin != null && currentSample <= maxSamplesToProcess ==>
                ok == pluginAccepts && plugin.forwarded == old(plugin.forwarded) + [len]
    {
      if plugin == null {
        return false;
      }

      ForwardedSnoc(0, maxSamplesToProcess, chunks, len);
      SumSnoc(chunks, len);
      currentSample := currentSample + len;
      chunks := chunks + [len];
      if currentSample > maxSamplesToProcess {
        return true;  // remaining samples are ignored
      }

      ok := plugin.ProcessSamples(len, pluginAccepts);
    }

    /** Releases the plugin. */
    method Cleanup()
      requires Valid()
      modifies this`plugin
      ensures Valid() && plugin == null
    {
      plugin := null;
    }

    /** Writes the detected keys to `track` once the plugin has finished;
        `finalized` is the plugin's answer to being finished and
        `keyChanges` the key changes it reports. */
    method StoreResults(track: Track, finalized: bool, keyChanges: seq<KeyChange>)
      requires Valid()
      modifies track
      ensures plugin != null && finalized ==>
                track.keys == factory.makePreferredKeys(keyChanges,
                                                        ExtraVersionInfo(pluginId, fastAnalysisEnabled),
                                                        sampleRate, totalSamples)
      ensures !(plugin != null && finalized) ==> track.keys == old(track.keys)
    {
      if plugin == null {
        return;
      }
      if !finalized {
        return;  // key detection failed
      }
      var extraVersionInfo := ExtraVersionInfo(pluginId, fastAnalysisEnabled);
      track.keys := factory.makePreferredKeys(keyChanges, extraVersionInfo, sampleRate, totalSamples);
    }
  }

  /** With a plugin running, the samples it has been given are always the
      longest prefix of the counted chunks that fits the budget. */
  lemma PluginSeesBudgetPrefix(a: AnalyzerKey)
    requires a.Valid() && a.plugin != null
    requires forall i :: 0 <= i < |a.chunks| ==> a.chunks[i] >= 0
    ensures var f := a.plugin.forwarded;
            && |f| <= |a.chunks|
            && f == a.chunks[..|f|]
            && (f != [] ==> Sum(f) <= a.maxSamplesToProcess)
            && (|f| < |a.chunks| ==> Sum(a.chunks[..|f| + 1]) > a.maxSamplesToProcess)
  {
    ForwardedIsLongestPrefixWithinBudget(0, a.maxSamplesToProcess, a.chunks);
  }
}
