# Key analysis gatekeeper and DDJ-SR controller mapping, in Dafny

This project models two small pieces of the Mixxx DJ software and proves
properties of them.

**The key analyser** (`src/analyzer/analyzerkey.cpp`, module `Analyzer` in
`analyzer_key.dfy`). For each track, it decides whether to compute or
recompute the musical key. It picks the detection plugin and limits how many
samples reach that plugin. When the plugin finishes, it writes the detected
keys back to the track. `AnalyzerKey` is a class with the source's mutable
fields. The plugin is a `KeyPlugin` object that records the sample rate it
was started with and the chunk lengths it was given. The plugin's answers to
initialize, processSamples and finalize are method parameters. The key
factory is a `KeyFactory` value whose preferred version, preferred
sub-version and key builder are left uninterpreted. A ghost history
`chunks` records every chunk length counted since the counter was last
reset. The class invariant ties the counter to the sum of `chunks`. It also
ties the plugin's input to `Forwarded(0, budget, chunks)`: the longest
prefix of the chunks that stays within the budget.

**The Pioneer DDJ-SR mapping** (`res/controllers/Pioneer-DDJ-SR-scripts.js`,
module `DDJSR` in `ddjsr.dfy`). It covers three things:
- the library rotary selector: the relative-encoder decode and the dispatch
  on the status byte;
- the per-deck MIDI address table for the transport buttons and the eight
  hot-cue pads;
- the assignment of every component to its deck's group.

`Deck` and `Controller` are classes. Components are objects whose `group`
is updated in place. Engine calls are `EngineCall` values returned by the
handlers.

One behaviour of the source is stated as a lemma, not as a defect.
`shouldAnalyze` compares stored keys against version information built from
the *configured* plugin id, or the default when none is configured.
`storeResults` stamps keys with the *resolved* id, which is the default when
the configured plugin is unavailable. `StoredKeysAreCurrent` proves that
freshly stored keys are not analysed again when the configured plugin is
available or none is configured. `UnavailablePluginKeysLookStale` exhibits a
factory for which keys stored with an unavailable configured plugin look
stale. With reanalysis on, such a track is analysed again on every pass.

## Model

| member | source | states |
|---|---|---|
| `Analyzer.DefaultPlugin` | src/analyzer/analyzerkey.cpp:28-32 | the default plugin is the first available plugin, and it is available |
| `Analyzer.SelectPluginId` | src/analyzer/analyzerkey.cpp:61-71 | the chosen id is always an available plugin; it equals the configured id exactly when that id is available, and is otherwise the default (first) plugin |
| `Analyzer.ResolvePluginId` | src/analyzer/analyzerkey.cpp:61-71 | the loop over the available plugins returns exactly `SelectPluginId` of the configured id |
| `Analyzer.ConfiguredPluginId` | src/analyzer/analyzerkey.cpp:123-126 | the id `shouldAnalyze` compares against is the configured id when one is set, and the default plugin's id when it is empty |
| `Analyzer.ConfiguredMatchesSelected` | src/analyzer/analyzerkey.cpp:61-126 | the id `shouldAnalyze` uses equals the id `initialize` selects exactly when no plugin is configured or the configured plugin is available |
| `Analyzer.ExtraVersionInfo` | src/analyzer/analyzerkey.cpp:190-198 | `vamp_plugin_id` always maps to the plugin id; `fast_analysis` is present (mapped to "1") iff fast analysis is on; there are no other keys, so the map has one or two entries |
| `Analyzer.ExtraVersionInfoInjective` | src/analyzer/analyzerkey.cpp:190-198 | equal version-info maps come from equal plugin ids and equal fast-analysis flags |
| `Analyzer.ShouldAnalyze` | src/analyzer/analyzerkey.cpp:121-152 | a track is analysed iff its stored global key is INVALID, or its version/sub-version are not the preferred ones for the configured (or default, when empty) plugin and reanalysis is enabled |
| `Analyzer.ValidKeysAreKeptWithoutReanalysis` | src/analyzer/analyzerkey.cpp:128-151 | with reanalysis off, a track is analysed exactly when its stored key is INVALID |
| `Analyzer.StoredKeysAreCurrent` | src/analyzer/analyzerkey.cpp:121-187 | keys stored by `storeResults` with a factory that stamps its preferred versions are not analysed again under the same settings, when the configured plugin is available or none is configured |
| `Analyzer.UnavailablePluginKeysLookStale` | src/analyzer/analyzerkey.cpp:121-138 | with an unavailable configured plugin, keys just stored under the default plugin can be judged stale and reanalysed |
| `Analyzer.SampleBudget` | src/analyzer/analyzerkey.cpp:82-86 | without fast analysis the budget is the track's total sample count; with it, 60 s x sample rate x 2 channels, never negative |
| `Analyzer.ForwardedSnoc` | src/analyzer/analyzerkey.cpp:159-164 | one more chunk reaches the plugin iff the counter after adding it is still within the budget |
| `Analyzer.SwallowIsPermanent` | src/analyzer/analyzerkey.cpp:159-162 | once the counter exceeds the budget, no later chunk of non-negative length reaches the plugin |
| `Analyzer.ForwardedIsLongestPrefixWithinBudget` | src/analyzer/analyzerkey.cpp:159-164 | the chunks the plugin receives are the longest prefix of the input whose running total stays within the budget; the chunk that crosses the budget is dropped whole |
| `Analyzer.PluginSeesBudgetPrefix` | src/analyzer/analyzerkey.cpp:154-164 | for a running analyser, the plugin's input is that longest prefix of the counted chunks that fits `maxSamplesToProcess` |
| `Analyzer.AnalyzerKey.constructor` | src/analyzer/analyzerkey.cpp:34-43 | all counters start at 0, key detection enabled, fast analysis and reanalysis off, no plugin |
| `Analyzer.AnalyzerKey.Initialize` | src/analyzer/analyzerkey.cpp:45-119 | with no samples, nothing changes and false is returned. With key detection disabled, only that flag changes and false is returned. Otherwise the preferences are latched, the plugin id is selected, the budget is all samples or 60 s x rate x 2 channels, and the counter is 0. True is returned iff the track should be analysed and the plugin starts; exactly then a fresh plugin exists |
| `Analyzer.AnalyzerKey.ProcessSamples` | src/analyzer/analyzerkey.cpp:154-165 | without a plugin: false, counter unchanged. With one: the counter grows by exactly `len`. Past the budget the chunk is swallowed and true is returned; otherwise the chunk is forwarded and the plugin's answer is returned |
| `Analyzer.AnalyzerKey.Cleanup` | src/analyzer/analyzerkey.cpp:167-169 | the plugin is released |
| `Analyzer.AnalyzerKey.StoreResults` | src/analyzer/analyzerkey.cpp:171-187 | the track's keys are replaced by the factory's keys for the plugin's key changes and this analyser's version info only when a plugin exists and finalize succeeds; otherwise the track is unchanged |
| `DDJSR.DecodeDelta` | res/controllers/Pioneer-DDJ-SR-scripts.js:52 | the decoded delta lies in [-64, 63], is negative exactly when bit 0x40 is set, and `(delta + 128) % 128` gives the data byte back |
| `DDJSR.DecodeEncode` | res/controllers/Pioneer-DDJ-SR-scripts.js:52 | every delta in [-64, 63] is decoded from its encoding (the decode is onto) |
| `DDJSR.EncodeDecode` | res/controllers/Pioneer-DDJ-SR-scripts.js:52 | encoding the decoded delta gives the data byte back (the decode is one-to-one) |
| `DDJSR.OnKnobEvent` | res/controllers/Pioneer-DDJ-SR-scripts.js:51-54 | a knob event sets `[Library] MoveVertical` to a delta in [-64, 63] whose encoding is the data byte received |
| `DDJSR.OnButtonEvent` | res/controllers/Pioneer-DDJ-SR-scripts.js:55-57 | a push toggles `[Library] MoveFocusForward` |
| `DDJSR.DecodeSelector` | res/controllers/Pioneer-DDJ-SR-scripts.js:58-68 | a message decodes iff its status is 0xB6 or 0x96. Status 0xB6 decodes to a rotation by the decoded delta of the value, status 0x96 to a push. Any other status is an `UndefinedStatus` error carrying that status |
| `DDJSR.SelectorRoundTrip` | res/controllers/Pioneer-DDJ-SR-scripts.js:58-65 | every rotate or push event, encoded as status and data bytes, decodes back to itself |
| `DDJSR.Input` | res/controllers/Pioneer-DDJ-SR-scripts.js:50-70 | status 0xB6 sets `[Library] MoveVertical` to a delta in [-64, 63] whose encoding is the value. Status 0x96 toggles `[Library] MoveFocusForward`. Any other status is refused with an error and makes no engine call. The channel is a MIDI channel 0..15 and does not affect the outcome |
| `DDJSR.TurnMovesSelection` | res/controllers/Pioneer-DDJ-SR-scripts.js:51-61 | a turn of `delta` steps sets `MoveVertical` to exactly `delta`, whatever the channel and control bytes |
| `DDJSR.Address` | res/controllers/Pioneer-DDJ-SR-scripts.js:19-32 | hot cue i sits at `[0x98+ch, i]`; every other component has status `0x90+ch`, and play, cue, sync and pfl are exactly the components at controls 0x0B, 0x0C, 0x58 and 0x54 |
| `DDJSR.AddressesAreNoteOn` | res/controllers/Pioneer-DDJ-SR-scripts.js:19-32 | on channels 0..3 every bound address is a note-on status (0x90..0x9F) with a control number below 0x80 |
| `DDJSR.PadStatusNeverTransport` | res/controllers/Pioneer-DDJ-SR-scripts.js:19-32 | for channels 0..3, a pad status byte never equals any deck's transport status byte |
| `DDJSR.AddressInjective` | res/controllers/Pioneer-DDJ-SR-scripts.js:19-32 | across the four decks, two components with the same MIDI address are the same component of the same deck |
| `DDJSR.DeckGroupsDistinct` | res/controllers/Pioneer-DDJ-SR-scripts.js:11-18 | decks 1..4 get four different `[ChannelN]` groups |
| `DDJSR.Rebound` | res/controllers/Pioneer-DDJ-SR-scripts.js:34-40 | after rebinding every component has a group: the deck's group if it had none, its own otherwise |
| `DDJSR.ReboundIdempotent` | res/controllers/Pioneer-DDJ-SR-scripts.js:34-40 | rebinding to the same deck a second time changes nothing |
| `DDJSR.ReconnectComponents` | res/controllers/Pioneer-DDJ-SR-scripts.js:34-40 | every component visited ends with `Rebound` of its old group; nothing else is modified |
| `DDJSR.Deck.constructor` | res/controllers/Pioneer-DDJ-SR-scripts.js:17-41 | the deck holds play, cue, sync and pfl at `[0x90+ch, 0x0B/0x0C/0x58/0x54]`. Hot cues 1..8 are at `[0x98+ch, i]` with number i, and index 0 is unused. All twelve components are fresh and bound to the deck's `[ChannelN]` group |
| `DDJSR.Controller.Init` | res/controllers/Pioneer-DDJ-SR-scripts.js:8-15 | exactly four decks are created; deck i has number i+1, MIDI channel i and group `[Channel(i+1)]`, and all its components are wired to that channel and group. Concretely, deck i has play, cue, sync and pfl at `[0x90+i, 0x0B/0x0C/0x58/0x54]` and hot cue k at `[0x98+i, k]`, each of the right kind |

## Left out

- The detection plugins' signal processing, the sample buffer contents and the key changes a plugin computes are foreign. A plugin's answers to initialize, processSamples and finalize, and its key changes, are parameters.
- The internals of the key factory (preferred version, sub-version, building keys from key changes) and the track's protobuf storage are left uninterpreted as fields of `KeyFactory`.
- The compile-time KeyFinder switch: the list of available plugins is a non-empty parameter whose head is the default. A plugin is creatable exactly when its id is in that list.
- The values 60 (seconds analysed in fast mode) and 2 (analysis channels) come from `analyzer/constants.h`, which is not part of this model.
- Analyzer.AnalyzerKey.Initialize: requires that no plugin is held on entry, which the source only debug-asserts. A release build that enters with a stale plugin is not modelled.
- Analyzer.AnalyzerKey.ProcessSamples: the sample counter and budget are unbounded integers; the source's 64-bit wrap-around is not modelled.
- The key-detection settings are fixed for the life of an analyser. The source reads them through a reference and could see them change between calls.
- Debug and warning logging, and debug assertions beyond their early returns.
- The controller-components library (PlayButton, CueButton, SyncButton, Button, HotcueButton, Encoder and their connect, disconnect and trigger calls) is foreign. A component is reduced to its kind, MIDI address and group. The `[ChannelN]` group name that the components library gives a deck is modelled by `DeckGroup`.
- `engine.setValue` and `script.toggleControl` are represented as `EngineCall` values. The engine's reaction to them is not modelled. The thrown `Error` is an `UndefinedStatus` failure value.
- DDJSR.DecodeDelta: the encoder value is a MIDI data byte (0..127). JavaScript's bitwise `&` on other numbers is not modelled.
- `DDJSR.shutdown` has no behaviour (its loop body is commented out). The unused `id` and `debugging` arguments of `init` are dropped.
- The mapping script has no performance-pad slicer or pad-mode coordinator, so neither is modelled.
