# NLT drill app: a verified model of its core

The NLT drill app reads numbers aloud in a chosen language. The user picks
how many number cells, how many digits, a delay and a repeat count. The app
then speaks the selected cells one after the other, pass after pass. The
repository holds several revisions of the same app side by side:

- `app/main_00.js`, `app/main.js` and `app/main_01.js` are single-file
  revisions built around an event bus and a store;
- `app/modules`, `app/controllers`, `app/services` and `app/core` hold
  one modular revision;
- `script/script_02.js`, `script/script_05.js` and `script/script_09.js`
  are global-state scripts;
- `modules/` holds another modular revision.

This Dafny project models what these revisions compute and decide. The
DOM, the Web Speech engine, timers and storage I/O are left out.

- **Playback loops.** The six variants of the playback loop are modelled:
  - `PlaybackEvents` covers the bus and store revisions of `app/main_00.js` and `app/main.js`;
  - `PlaybackShared` covers the shared-state loops of `script/script_09.js` and `modules/speech.js`;
  - `PlaybackCallback` covers the `onend`-driven loop of `script/script_05.js`;
  - `PlaybackRecursive` covers the recursive loop of `script/script_02.js`;
  - `PlaybackFlags` covers the `abort`-flag loop of `app/main_01.js`.

  Each variant has two layers:
  - A pure state record and transition functions. These cut the loop at its
    suspension points: the speech await, the delay, the wake-lock await and
    the pending timer.
  - A `class` whose fields mirror that record. It has one method per command
    and one per resumed await. Each method is proved to perform exactly its
    transition.

  Lemmas about the transitions state the routing of the toggle and the
  uninterrupted run. They show that this run follows a reference run (module
  `Sequencing`) and speaks the non-empty values pass after pass. They also
  cover what pause, resume and stop do at each suspension point, and
  termination.
- **Voices and languages.**
  - `Voices` is the first-match voice cascade.
  - `Languages` builds the language list in each revision's variant.
  - `Speaker` covers utterance parameters and the resolve-once latch of the
    speak promise.
- **UI decisions.** `Ui` holds the decision tables of `modules/ui.js`.
  `SettingsForm` is `readSettingsFromUI` of `app/main_01.js`.
- **Bus and stores.**
  - `EventBus` is the bus.
  - `Store` covers the stores of `app/main_00.js` and `app/main.js`.
  - `StateManager` and `StateService` (dotted-path `patch`) are the app
    controllers.
  - `Merge` holds both `deepMerge` variants.
- **Services and small pieces.**
  - `Storage` covers the storage service with its memory fallback.
  - `Config` is the config-service merge.
  - `WakeLock`, `Logger` and `Keyboard` are modelled as well.
  - The utilities are in `Utils`.
- **Shared definitions.** `Text` holds string helpers with ASCII case
  folding. `Json` holds JSON-like values as association lists. `Wrappers`
  holds `Option`/`Result`.

JavaScript's dynamic values are modelled as follows:
- a number that may be NaN or infinite is `Option<real>`, with `None` for
  the non-finite case;
- `undefined` is a `None` or an explicit constructor where it matters;
- `isMobileDevice()`, `navigator.language` and `window.userActivated` are
  parameters.

The model follows the code also where it behaves unexpectedly. Six such
behaviours are stated as lemmas:
- In `app/main_00.js` the finish branch leaves Playback's own state
  "playing", so the next toggle pauses: `PlaybackEvents.ToggleAfterFinish`.
- In `modules/speech.js` playback cancels speech and stalls without user
  activation:
  `PlaybackShared.StallsWithoutActivation`.
- In `app/main_01.js`, continuing after a pause starts a second loop:
  `PlaybackFlags.ContinueDuplicatesLoop`.
- `configService` cannot merge an external `DEFAULT_SETTINGS` over the raw
  configuration module: `Config.RawConfigMergeFails`.
- In `app/main_00.js` showing the page emits the application state
  `resume-visibility`, which releases the wake lock and ends a running
  loop at its next step: `PlaybackEvents.ShowingPageEndsBusLoop`.
- In `app/main.js` a change to playing requests the wake lock twice
  before either request completes, and one sentinel is never released:
  `WakeLock.DoubleRequestLeaks`.

## Model

| member | source | states |
|---|---|---|
| Utils.SafeNumber | app/modules/utils.js:5-8 | the parsed number when `Number(v)` is finite, otherwise the fallback |
| Utils.NumberOrOne | script/script_05.js:600 | never 0: the parsed integer when it is a non-zero number, 1 for NaN and for 0 |
| Utils.CollapseGaps | app/modules/utils.js:12 | no `_` or whitespace survives the replacement, and every other character comes from the input or is the dash |
| Utils.Collapse | app/modules/utils.js:12 | scanning inside or outside a run of gaps: no gap survives and every character comes from the input or is the dash |
| Utils.CollapseSplitsAt | app/modules/utils.js:12 | a non-gap character ends any run, so the replacement of `a + [c] + b` is that of a, then c, then that of b from outside a run |
| Utils.CollapseSplitsAtNonGap | app/modules/utils.js:12 | every character that is neither `_` nor whitespace is kept, in place, with the replacement applied separately on either side |
| Utils.CollapseInRun | app/modules/utils.js:12 | gaps that continue a run already replaced add nothing |
| Utils.CollapseRun | app/modules/utils.js:12 | a whole non-empty run of `_` and whitespace becomes exactly one dash |
| Utils.NormalizeString | app/modules/utils.js:9-13 | the result contains no `_`, no whitespace and no capital letter |
| Utils.NormalizeArgument | app/modules/utils.js:9 | an omitted argument normalises as the default `""` |
| Utils.CollapseWithoutGaps | app/modules/utils.js:12 | a string without `_` or whitespace passes the replacement unchanged |
| Utils.NormalizeTrimIsInert | app/modules/utils.js:9-13 | the final `trim` never removes anything: the result is the collapsed lower-case string |
| Utils.NormalizeIdempotent | app/modules/utils.js:9-13 | normalising a normalised string changes nothing |
| Utils.NormalizeLeadingSpace | modules/utils.js:10-14 | leading whitespace turns into a leading dash instead of being trimmed |
| Utils.NormalizeExample | script/script_09.js:93-97 | `" a "` normalises to `"-a-"` |
| Utils.TrimLower | app/main_00.js:49-52 | the result has no surrounding whitespace and no capital letter |
| Utils.TrimLowerIdempotent | app/main.js:61-64 | trimming and lower-casing twice equals doing it once |
| Utils.ParseBinary | app/main_00.js:139-148 | `"true"`/`"1"` in any case and `true`/`1` give true; `"false"`/`"0"` and `false`/`0` give false; every other value gives the default |
| Utils.BinaryFlag | app/main_00.js:193-194 | the flag is 1 or 0, and 1 exactly when the value parses as true |
| Utils.BinaryFlagStable | app/main_00.js:193-194 | normalising a normalised flag gives it back |
| Utils.NormalizeFormFactor | app/main_00.js:192-194 | a present `fullscreen` becomes its 1/0 flag; every other key keeps its value; an entry without the key is unchanged |
| Utils.NormalizeFormFactorIdempotent | app/main_00.js:192-194 | normalising a form factor a second time changes nothing |
| Utils.NormalizedMember | app/main_00.js:191-194 | an object member is normalised and anything else kept, so a member is absent or raises after the pass exactly when it did before |
| Utils.FullscreenStep | app/main_00.js:191-194 | one iteration raises on null settings and, on an object, exactly for a truthy non-object member, leaving the settings as they were; otherwise the member becomes its normalisation; non-object settings are untouched |
| Utils.FullscreenStepOthers | app/main_00.js:191-194 | one iteration writes only the member it visits |
| Utils.NormalizeFullscreen | app/main_00.js:191-195 | the pass raises on null `DEFAULT_SETTINGS` (for a non-empty key list), leaves other non-objects alone, and on an object ends with an object of the same kind, successful or not |
| Utils.NormalizeFullscreenSettings | app/main_00.js:191-195 | on an object the pass raises exactly when some listed member is a truthy non-object; otherwise every listed member holds `NormalizedMember` of its old value, a present `fullscreen` thus becoming its 1/0 flag, and every other key keeps its value; a failure touches no unlisted key either |
| Utils.NormalizeFullscreenConcat | app/main_00.js:191-195 | the pass over two key lists in a row is the pass over the first, then, unless it raised, over the second |
| Utils.NormalizeFullscreenStopsAtFirstBad | app/main_00.js:191-195 | the exception is raised at the first bad member, and the settings it leaves are those normalised for the keys before it |
| Utils.SafeSetSelectValue | app/modules/utils.js:26-32 | the choice is the value when it is an option, else the fallback; a missing select gives the fallback; the select is assigned the choice, and left as it is when it already shows it |
| Utils.SafeSetSelectValueIdempotent | modules/ui.js:45-51 | for any select, missing or not, a second identical call writes nothing and makes the same choice |
| Utils.SetSelectValueOrFirst | app/main_01.js:118-131 | the value when it is an option; else a non-empty fallback that is an option; else the first option; no options or no select: unchanged |
| Utils.SetSelectValueOrFirstSelects | app/main_01.js:118-131 | a select with options always ends up showing one of them |
| Utils.SetSelectValueWithFallback | script/script_05.js:150-162 | the choice is the value when it is an option, else the fallback, and it is written to the select unconditionally |
| Merge.Target | app/main.js:69 | the member merged into is the target's member when it is an object, a fresh `{}` otherwise |
| Merge.MergeInto | app/main.js:65-76 | the target stays an object of its own kind; a falsy or non-object source leaves it unchanged |
| Merge.GetMergeFrom | app/main_00.js:53-61 | after merging the source's keys from position i, a key among them holds the merge of its source member into the old target member, any other key its old value |
| Merge.MergeIntoMember | app/main.js:65-76 | every key of the result: a plain-object source member merged recursively into the target member (or into `{}`), any other source member, arrays included, overwriting, absent keys unchanged |
| Merge.MergeFromKeys | app/main_00.js:53-61 | the merged object's keys are the target's keys and the source's keys |
| Merge.UnionKeys | app/main_01.js:96 | the key set holds exactly the keys of either side |
| Merge.CopyMembers | app/main_01.js:97-113 | the copied object has exactly the listed keys, in order |
| Merge.GetCopyMembers | app/main_01.js:97-113 | each listed key reads its pairwise member merge; other keys are absent |
| Merge.MergeCopyMember | app/main_01.js:92-116 | for truthy sides the result has exactly the keys of either side, each the recursive merge when both members are plain objects, else b's member when b has one, else a's |
| EventBus.Add | app/main.js:97-98 | `Set.add`: the members are the old ones and the new handler, still without repetition |
| EventBus.Remove | app/main.js:100 | `Set.delete`: the members are the old ones except the handler, still without repetition |
| EventBus.ApplyOpsSetLike | app/main.js:94-116 | whatever handlers subscribe and unsubscribe, every event's handler list stays free of repetition |
| EventBus.Callees | app/main_01.js:52-58 | the functions an emit calls are the snapshot's handlers, with each `once` wrapper standing for its handler |
| EventBus.SubscribeTwice | app/main.js:95-99 | subscribing the same function twice gives a single subscription |
| EventBus.UnsubscribeRemoves | app/main.js:99-100 | after unsubscribe the function is no longer reached by the event and every other subscriber still is |
| EventBus.ApplyOpsKeepsOut | app/main.js:94-116 | handlers that never subscribe h to e keep h away from e |
| EventBus.OnceFiresOnce | app/main_01.js:52-58 | a `once` wrapper that fired during an emit is unsubscribed afterwards unless a handler subscribed it again, so its handler runs at most once |
| EventBus.Bus.constructor | app/main.js:95 | a bus starts with no subscriptions |
| EventBus.Bus.On | app/main.js:96-100 | `on` adds the handler to the event's set and keeps `once` wrappers as they were |
| EventBus.Bus.Off | app/main.js:100-101 | `off`: undefined for an event never subscribed to, otherwise whether the handler was subscribed; afterwards it is not |
| EventBus.Bus.OffEvent | app/main_01.js:44-51 | `off` of the later revision: false for an unknown event; without a handler the event is dropped and the answer is true; with one, whether it was subscribed |
| EventBus.Bus.Once | app/main_01.js:52-58 | `once` subscribes a fresh wrapper for the handler |
| EventBus.Bus.Emit | app/main.js:102-113 | every function subscribed when the emit began is called once, in subscription order, whatever the handlers subscribe, unsubscribe or throw |
| Store.TruncateReal | app/main_00.js:309 | truncation toward zero: the integer lies within 1 of the value on the side of 0 |
| Store.Wrap32 | app/main_00.js:309 | the result is in the signed 32-bit range, congruent to its input modulo 2^32, and equal to it when it is already in range |
| Store.IndexValue | app/main_00.js:308-314 | `Math.max(0, Number(i) \| 0)`: below 2^31; 0 for NaN or infinite values and for values in (-2^31, 1); the floor of values in [0, 2^31); values further out wrap modulo 2^32 before the `max` |
| Store.IndexValueStable | app/main_00.js:308-314 | setting the stored index again announces nothing, because the index maps to itself |
| Store.Store.constructor | app/main_00.js:280-287 | a store starts in `"init"` with settings `{pitch: 1, volume: 1}`, index 0 and nothing announced |
| Store.Store.UpdateSettings | app/main_00.js:290-295 | the guarded store ignores a falsy or non-object patch; otherwise the patch keys win, every other key keeps its value, and SETTINGS_CHANGED carries the new settings |
| Store.Store.ResetSettings | app/main.js:310-314 | the settings become a shallow copy of the defaults, key for key, and are announced |
| Store.Store.SetAppState | app/main_00.js:302-307 | the state is assigned, and APP_STATE is emitted only when it changes |
| Store.Store.SetCurrentIndex | app/main_00.js:308-314 | the index becomes `max(0, i \| 0)`, and PLAYBACK_INDEX is emitted only when that changes |
| Store.Store.LoadSettings | app/main.js:329-336 | stored settings, when truthy, are spread over the current ones and announced; otherwise nothing changes; the settings are returned |
| StateManager.SettingsOrEmpty | app/controllers/stateManager.js:18 | a truthy value: the settings when truthy, `{}` otherwise |
| StateManager.StateManager.constructor | app/controllers/stateManager.js:1-2 | the manager wraps the given state, with nothing refreshed yet |
| StateManager.StateManager.SetAppState | app/controllers/stateManager.js:9-13 | the state is assigned unconditionally, and the button and controls are refreshed when there is a UI |
| StateManager.StateManager.Is | app/controllers/stateManager.js:14-16 | true exactly when the app state is the given value |
| StateManager.StateManager.GetSettings | app/controllers/stateManager.js:17-19 | the settings when truthy, otherwise `{}` |
| StateManager.StateManager.UpdateSettings | app/controllers/stateManager.js:20-22 | the patch keys win and all other keys of the old settings (or of `{}`) are kept |
| StateManager.StateManager.ReplaceSettings | app/controllers/stateManager.js:23-25 | the settings become a shallow copy of next, key for key |
| StateManager.StateManager.ResetPlaybackState | app/controllers/stateManager.js:26-32 | empty queue, index 0, one repeat; nothing else is touched |
| StateService.Patched | app/services/stateService.js:12-23 | a successful patch leaves an object of the same kind; the only failure is a TypeError |
| StateService.DescendCons | app/services/stateService.js:16-20 | walking a path is walking its first key, then the rest |
| StateService.PatchedSucceedsIff | app/services/stateService.js:12-23 | `patch` succeeds exactly when every value the walk reaches, created `{}` included, is an object |
| StateService.PatchedThenLookup | app/services/stateService.js:12-22 | after a successful `patch(p, v)`, reading p through own properties yields v |
| StateService.PatchedUnfold | app/services/stateService.js:14-21 | a one-segment path writes a top-level key; a longer one patches the first key's child and stores it back |
| StateService.LookupCons | app/services/stateService.js:18-19 | reading a path reads the first key's own property, then the rest |
| StateService.PatchedKeepsOtherPaths | app/services/stateService.js:12-22 | a path that leaves the patched one at some position reads the same before and after |
| StateService.PatchedKeepsSiblings | app/services/stateService.js:12-22 | a path whose first key differs reads the same before and after |
| StateService.PatchedDescends | app/services/stateService.js:15-19 | below the first key, the patched record reads as the patched child |
| StateService.ChildOfEmpty | app/services/stateService.js:18 | nothing can be read below a freshly created `{}` |
| StateService.PatchedIntermediatesAreObjects | app/services/stateService.js:16-19 | every intermediate on a patched path is an object afterwards, missing ones created as `{}` |
| StateService.PatchBelowInitialSettingsFails | app/state.js:6 | the initial settings are null, so `patch("settings.x", v)` raises a TypeError |
| StateService.PatchInitialTopLevel | app/services/stateService.js:21 | `patch("currentIndex", v)` on the initial record replaces that key in place and keeps the key order |
| StateService.PatchedFailsAt | app/services/stateService.js:16-21 | reaching a non-object on the way makes the patch fail |
| StateService.PatchedStep | app/services/stateService.js:19-21 | one assignment on the way back from the leaf to the root |
| StateService.StateService.constructor | app/services/stateService.js:9 | the state starts as the record of `createState` |
| StateService.StateService.Patch | app/services/stateService.js:12-23 | the loop walks the dotted path and the assignments agree with `Patched`; on success the state is the returned value, on a TypeError it is unchanged |
| StateService.Walk | app/services/stateService.js:14-20 | the `while` loop keeps every object it passes, each the walk's value at that prefix, and stops exactly where `patch` raises a TypeError |
| StateService.Rebuild | app/services/stateService.js:14-22 | assigning the children back from the leaf to the root yields exactly the patched state |
| Text.JoinSplit | app/services/stateService.js:14 | joining the parts of `split(".")` with the separator gives back the path |
| Storage.StorageService.constructor | app/services/storageService.js:10-11 | the memory map starts empty, over the given raw storage |
| Storage.StorageService.SafeGet | app/services/storageService.js:13-23 | the raw value when the raw API answers, with an absent key mapping to the fallback; otherwise the memory entry or the fallback |
| Storage.StorageService.SafeSet | app/services/storageService.js:25-35 | the raw storage stores the value when its API answers, otherwise the memory map does; the other store is untouched |
| Storage.StorageService.SafeRemove | app/services/storageService.js:37-47 | the key disappears from the store the call reaches; other keys and the other store are untouched |
| Storage.StorageService.SafeJsonGet | app/services/storageService.js:49-54 | an absent key gives the fallback without parsing; a present one is handed to the parser |
| Storage.MemoryRoundTrip | app/services/storageService.js:13-47 | with the imported storage, which lacks the item API, a value set is read back and a removed key reads as the fallback |
| Config.CopyTypedGet | app/services/configService.js:20-25 | one typed copy changes only its own key, and only for an external value of the right type |
| Config.ExternalEntry | app/services/configService.js:31 | `external.DEFAULT_SETTINGS[formFactor] \|\| {}` is always truthy |
| Config.MergedEntry | app/services/configService.js:29-32 | the merged form factor keeps its name and is a plain object |
| Config.MergeFactors | app/services/configService.js:28-33 | every form factor of the configuration is merged with the external entry of the same name, and no factor is added |
| Config.MergeSettings | app/services/configService.js:28-35 | the result is an object; a throw leaves the configuration as it was and happens only when the current `DEFAULT_SETTINGS` is missing, null or a string |
| Config.MergeExternal | app/services/configService.js:17-39 | a falsy or non-object external changes nothing; a failure keeps the scalar overrides and happens only when the DEFAULT_SETTINGS value is missing, null or a string |
| Config.ScalarsTyped | app/services/configService.js:20-25 | DEVELOPER_MODE and USE_LOCAL_STORAGE are copied only when boolean, DEFAULT_VOICE only when a string; no other key changes |
| Config.MergedFactorEntries | app/services/configService.js:27-34 | after a merge that did not throw, each form factor holds its old entries overridden by the external entry's, and the set of factors is unchanged |
| Config.MergeExternalReachesFactors | app/services/configService.js:27-33 | with an external settings object and a form-factor object the merge rewrites the factors |
| Config.RawConfigHasNoTopLevelDefaults | app/services/configService.js:11 | the configuration copied from the raw module has no top-level DEFAULT_SETTINGS |
| Config.RawConfigMergeFails | app/services/configService.js:17-38 | so an external DEFAULT_SETTINGS object makes the merge raise a ConfigError, with the scalar overrides already applied |
| Config.ConfigService.constructor | app/services/configService.js:11 | the configuration starts as a shallow copy of the raw module's properties |
| Config.ConfigService.MergeExternalInto | app/services/configService.js:17-39 | the in-place loop over the form factors leaves the configuration `MergeExternal` describes, and fails exactly when it does |
| Config.MergeEachFactor | app/services/configService.js:28-33 | the in-place loop replaces each form factor's entry by its merge with the external one, which is `MergeFactors` |
| WakeLock.AfterRequest | modules/wakelock.js:5-16 | a held lock stays held; otherwise a lock is held exactly when the capability exists and the request is granted |
| WakeLock.AfterVisibility | modules/wakelock.js:24-32 | hiding releases; showing requests only while playing and otherwise keeps the lock as it is |
| WakeLock.HideThenShow | modules/wakelock.js:24-32 | after hiding and showing the page the lock is held only when playing and granted |
| WakeLock.WakeLock.constructor | modules/wakelock.js:4 | no lock is held at first |
| WakeLock.WakeLock.Request | modules/wakelock.js:5-16 | the lock afterwards is `AfterRequest`; the returned flag says whether a lock is held |
| WakeLock.WakeLock.Release | modules/wakelock.js:17-23 | the lock is unheld afterwards |
| WakeLock.WakeLock.OnVisibilityChange | modules/wakelock.js:25-31 | the handler leaves the lock as `AfterVisibility` says |
| WakeLock.AfterAppState | app/main.js:386-389 | the `APP_STATE` subscription releases for every state but playing, and for playing requests as `request()` does |
| WakeLock.AfterVisibilityEvent | app/main_00.js:363-373 | in app/main_00.js both showing and hiding the page leave no lock held: showing emits the `resume-visibility` state, which releases |
| WakeLock.ShowWhilePlayingDiffers | app/main_00.js:363-373 | with the capability granted, showing the page while playing holds the lock under modules/wakelock.js and app/main.js, and leaves none under app/main_00.js |
| WakeLock.WakeLock.OnAppState | app/main.js:386-389 | the subscription leaves the lock as `AfterAppState` says |
| WakeLock.WakeLock.OnVisibilityEvent | app/main_00.js:363-369 | the app/main_00.js visibility handler leaves the lock as `AfterVisibilityEvent` says |
| WakeLock.BeginRequest | app/main.js:360-363 | a call of `request()` asks the browser exactly when no sentinel is held (and, corrected, none is pending); nothing else changes before the await |
| WakeLock.CompleteRequest | app/main.js:363 | a granted request opens a new sentinel and makes it `this.wakeLock`, overwriting any earlier one |
| WakeLock.ReleaseSentinel | app/main.js:371-376 | `release()` closes only the sentinel in `this.wakeLock` and forgets it |
| WakeLock.DoubleRequestLeaks | app/main.js:1141-1145 | as written, the two requests of `setAppStateDirect("playing")` are both granted, and the release that follows leaves the first sentinel held |
| WakeLock.GuardedRequestKeepsOne | app/main.js:360-376 | with a request guarded by the pending one, at most one sentinel is ever open and a release leaves none |
| Logger.Rank | app/core/logger.js:9 | exactly the five table names have a rank, between 10 and 90 |
| Logger.SetLevel | app/core/logger.js:11-13 | with the own-name check: an accepted name becomes the level, any other name leaves it unchanged, and the level stays a table name |
| Logger.ShouldLogByRank | app/core/logger.js:15-17 | `shouldLog(l)` holds exactly when l ranks at least as high as the current level |
| Logger.DefaultLevel | app/core/logger.js:7-9 | at the default `"info"` debug output is suppressed and info, warn and error are written |
| Logger.SilentAndDebug | app/core/logger.js:9-17 | at `"silent"` none of debug/info/warn/error is written; at `"debug"` all are |
| Logger.Monotone | app/core/logger.js:15-17 | raising the level never enables a message that was suppressed before |
| Logger.InheritedNameSilencesEverything | app/core/logger.js:11-17 | as written, `setLevel("toString")` is accepted, after which nothing, not even an error, is written |
| Logger.ErrorsShowUnlessSilent | app/core/logger.js:11-17 | with the own-name check, errors are written exactly when the level is not `"silent"` |
| Logger.Logger.constructor | app/core/logger.js:7 | the level starts as `"info"` |
| Logger.Logger.SetLevelTo | app/core/logger.js:11-13 | the level afterwards is `SetLevel` of the old one, that is with the corrected own-name check rather than the `in` test as written |
| Logger.Logger.Enabled | app/core/logger.js:26-29 | a message at lvl is written exactly when `shouldLog(lvl)` holds |
| Keyboard.HandleKey | modules/keyboard.js:2-25 | preventDefault exactly when Escape is recognised or Space is recognised outside a text field; reset is clicked exactly on Escape, start/pause exactly on Space outside a text field; Escape prevents first; other keys do nothing |
| Keyboard.EscapeWhileTyping | modules/keyboard.js:6-14 | Escape resets even when a text field has focus |
| Keyboard.SpaceWhileTyping | modules/keyboard.js:15-24 | Space while typing has no effect: no preventDefault and no click |
| Keyboard.PreventDefaultPerAction | modules/keyboard.js:2-25 | preventDefault is called once for every action that fires |
| Voices.Find | app/main_00.js:397 | `all.find`: the index of the first voice passing the test, and None only when no voice passes it |
| Voices.SelectVoice | app/main_00.js:389-426 | no voice exactly when the catalogue is empty; otherwise an index into the catalogue |
| Voices.SelectVoiceCascade | app/main_00.js:389-426 | the guards never reject a test that finds a voice, so the result is the first match of the first test that finds one, else the first voice |
| Voices.Tier | app/main_01.js:504-549 | the rank of a voice is the first of the five tests it passes, 6 when it passes none |
| Voices.SelectVoiceIsFirstBest | app/main_00.js:389-426 | the cascade picks the best-ranked voice (exact trimmed name, name substring, full lang, base subtag, navigator base prefix, then `all[0]`), and every earlier voice ranks strictly worse |
| Languages.LessIrreflexive | app/main_00.js:979 | the code-unit order of `sort` is irreflexive |
| Languages.LessTransitive | app/main_00.js:979 | the code-unit order is transitive |
| Languages.LessTotal | app/main_00.js:979 | any two different strings are ordered one way or the other |
| Languages.Insert | app/main_00.js:974-979 | inserting into a strictly sorted list keeps it strictly sorted and adds exactly the new element |
| Languages.SortDistinct | app/main_00.js:974-979 | `Array.from(new Set(xs)).sort()` is strictly sorted and holds exactly the elements of xs |
| Languages.HeadIsLeast | app/main_00.js:979 | the head of a strictly sorted list precedes every other element |
| Languages.SameElementsBothEmpty | app/main_00.js:974-979 | two lists with the same elements are both empty or both non-empty |
| Languages.SortedUnique | app/main_00.js:974-979 | a strictly sorted list is determined by its elements |
| Languages.Codes | app/main_00.js:975-977 | the codes are exactly the upper-cased first segments of the voices' langs, without the empty one when the revision drops it |
| Languages.AvailableLanguagesShape | app/main.js:943-954 | the list holds "ALL" and exactly the offered codes; "ALL" heads the list (main_00, main_01) or ends it (main.js, script_09) unless already offered, or is always appended (script_05, script_02); the empty code appears only in the revisions that keep it |
| Languages.AvailableLanguages | app/main.js:943-954 | the list always holds "ALL" |
| Languages.AvailableLanguagesSorted | app/main_00.js:974-981 | when a voice offers "ALL" itself and the revision only adds it when absent, the whole list is strictly sorted; otherwise the added "ALL" heads or ends the list and the rest is strictly sorted; an always-appended "ALL" ends it after the strictly sorted codes |

| Languages.AvailableLanguagesOrderFree | app/main_01.js:443-452 | the list depends only on which codes the catalogue offers, not on the order of the voices |
| Languages.EmptyCodeKept | script/script_05.js:374-379 | a voice without a lang contributes the empty code in the revisions that keep empties |
| Ui.FirstOption | modules/ui.js:62 | after the options are replaced, the select shows the first one, or "" when there are none |
| Ui.ConfiguredBase | modules/ui.js:63-65 | the configured base code is never empty |
| Ui.LanguageSelect | modules/ui.js:52-71 | the options become the available languages; the configured base code is selected when available, else "ALL" on mobile, else the select keeps the value the new options gave it; the value is always an option or "" |
| Ui.FilterByCode | modules/ui.js:82-84 | exactly the voices whose upper-cased lang starts with the code |
| Ui.FilterByCodeConcat | modules/ui.js:82-84 | filtering keeps the order of the catalogue: the filter of two lists in a row is the filter of the first followed by that of the second |
| Ui.FilterByCodeSingle | modules/ui.js:82-84 | a single voice is kept exactly when its upper-cased lang starts with the code |
| Ui.ShownVoices | modules/ui.js:76-84 | all voices on mobile or when "ALL" (or nothing) is selected; otherwise exactly the filter by the selected code, in catalogue order |
| Ui.FindKey | modules/ui.js:100-106 | `find`: the first position holding the key, None only when no position does |
| Ui.ChooseByKey | modules/ui.js:99-108 | the first voice whose key is requested, else the first voice, else ""; the result is always one of the names when there are any |
| Ui.VoiceSelectValue | modules/ui.js:72-110 | nothing happens without voices; otherwise the select, and `settings.voiceName`, hold the voice chosen among those shown by normalised lang on mobile and normalised name on desktop |
| Ui.ChoiceIsShownVoice | modules/ui.js:107-108 | when some voice is shown, the chosen name is that of a shown voice |
| Ui.ChoiceIsFirstMatch | modules/ui.js:99-106 | the first shown voice whose key is the requested one is chosen |
| Ui.ChoiceFallsBackToFirst | modules/ui.js:107 | without a requested voice among those shown, the first shown voice is chosen |
| Ui.ControlsState | modules/ui.js:153-190 | the language and voice controls are disabled exactly while playing; count, repeat, digit length and fill-random exactly outside the initial state; reset is enabled exactly when paused and not initial |
| Ui.ResetEnabledIffPaused | modules/ui.js:156-160 | because the initial state is READY, reset is enabled exactly when paused |
| Ui.PlayingLocksEverything | modules/ui.js:153-182 | while playing every one of these controls is disabled |
| Ui.SelectedValues | modules/speech.js:17-21 | the play queue holds at most one value per cell |
| Ui.SelectedValuesConcat | modules/speech.js:17-21 | the queue of two rows of cells in a row is the queue of the first followed by that of the second, so document order is kept |
| Ui.SelectedValuesSingle | modules/speech.js:17-21 | one cell contributes its value exactly when it is `selected`, and nothing otherwise |
| Ui.SelectedValuesMembers | modules/speech.js:17-21 | every selected cell's value is in the queue, and every queue entry is the value of a selected cell |
| Ui.SelectedPrefix | modules/speech.js:17-21 | after the first n cells are marked, the play queue is the values of those cells |
| Ui.CountedCells | modules/ui.js:231-234 | cell i is below the count exactly when i is below the returned number |
| Ui.HighlightSelection | modules/ui.js:230-240 | cell i is `selected` exactly when i is below the count and `highlight` exactly when it is the current index, values untouched; the overlay shows the current cell's value or "" |
| Ui.SettingsFromUi | modules/ui.js:255-271 | each key whose control exists and is non-empty takes the control's value; every other key keeps its previous value |
| Speaker.NumberOf | app/modules/speaker.js:43 | `Number(undefined)` is NaN and `Number(null)` is 0 |
| Speaker.PositiveOrOne | app/modules/speaker.js:43-48 | the rate and pitch are the given number when it is finite and positive, else 1.0; never zero or negative |
| Speaker.UnitOrOne | app/modules/speaker.js:51-53 | the volume is the given number when it lies in [0, 1], else 1.0 |
| Speaker.ExactVoice | app/modules/speaker.js:34-37 | a voice is set only for a non-empty name and then one of the voices with exactly that name; none when no voice has it |
| Speaker.SpeakerUtterance | app/modules/speaker.js:18-55 | nothing is spoken for an empty text; otherwise the utterance carries the text, the exactly named voice, the language code when given, and the sanitised rate (rate when defined, else speed), pitch and volume |
| Speaker.RevisionUtterance | app/main.js:410-440 | nothing is spoken for an empty text; otherwise the utterance carries the text, the exactly named voice, the language code when given, the rate read as `rate ?? speed` and sanitised, and the sanitised pitch and volume |
| Speaker.RevisionMatchesSpeaker | app/main.js:410-440 | the app/main.js speaker builds the same utterance as app/modules/speaker.js, except that an explicit null rate falls back to the speed there |
| Speaker.CascadeUtterance | app/main_00.js:427-465 | nothing is spoken for an empty text; otherwise the utterance carries the text, the voice `_selectVoice` picks (none exactly when there are no voices), the voice's own lang, else the language code, and with no voice the language code when given; the rate read as `rate ?? speed`, and pitch and volume, sanitised |
| Speaker.CascadeMatchesRevision | app/main_00.js:427-465 | `speakAsync` builds the utterance of app/main.js except for its voice and lang |
| Speaker.CascadeVoiceIsFirstBest | app/main_00.js:438-443 | with voices available the utterance carries the best-ranked voice of the selection cascade, the earliest among those ranked equally |
| Speaker.RateReadingsDiffer | app/modules/speaker.js:43 | the `!== undefined` and `??` readings of the rate agree except on an explicit null rate, which speaker.js reads as 0 and so falls back to 1.0 |
| Speaker.ResolvesOnce | app/modules/speaker.js:57-85 | the speak promise resolves at most once, never after it has finished, and exactly once when an end or error event arrives |
| Speaker.SpeechCompletion.constructor | app/modules/speaker.js:58 | a new promise is not finished and has not resolved |
| Speaker.SpeechCompletion.Fire | app/modules/speaker.js:59-82 | an end or error finishes the promise; it resolves on the first such event only |
| Speaker.SpeechCompletion.FireAll | app/modules/speaker.js:59-82 | a sequence of events adds exactly the resolutions counted by the reference function |
| Speaker.Speaker.constructor | app/modules/speaker.js:18 | no utterance is held and nothing has been cancelled |
| Speaker.Speaker.Speak | app/modules/speaker.js:18-85 | an empty text changes nothing; otherwise pending speech is cancelled unless interrupt is falsy, and the utterance built is the one remembered |
| Speaker.Speaker.Stop | app/modules/speaker.js:91-94 | speech is cancelled and the remembered utterance forgotten |
| Sequencing.Spoken | app/main.js:1054 | a trace speaks at most one text per effect |
| Sequencing.SpokenConcat | app/main.js:1054 | the texts spoken by two traces in a row are those of the first followed by those of the second |
| Sequencing.NonEmpty | app/main.js:1041-1045 | only non-empty values of the queue are kept |
| Sequencing.Repeat | app/main.js:1024-1027 | n repetitions of a queue are n times its length |
| Sequencing.Passes | app/main.js:1024 | the loop plays at least one pass, and exactly r passes for a repeat count r of at least 1 |
| Sequencing.Item | app/main.js:1039-1064 | an item with a non-empty value is spoken and followed by one delay; a missing or empty item gets the delay alone |
| Sequencing.SpokenPass | app/main.js:1039-1064 | one pass from index i speaks exactly the non-empty values from i on, in order |
| Sequencing.TotalSplits | app/main.js:1022-1065 | from inside a pass, the run finishes that pass and then continues from the end of the queue |
| Sequencing.TotalWraps | app/main.js:1023-1027 | at the end of a non-empty queue with more than one repeat left, the loop starts over at index 0 with one repeat fewer |
| Sequencing.TotalAtEnd | app/main.js:1023-1036 | at the end of a non-empty queue, the rest of the run speaks the non-empty values once for every repeat left beyond the current one |
| Sequencing.TotalOfEmpty | app/main.js:1041-1045 | an empty queue speaks nothing whatever the repeat count |
| Sequencing.TotalSpeaksPasses | app/main.js:1018-1066 | a run from the start speaks the non-empty values of the queue in order, once per pass, in max(r, 1) passes |
| Sequencing.SpokenRun | app/main.js:1018-1066 | a run trace (silent opening such as the wake-lock requests, reference run, silent closing) adds the passes over the non-empty values to what was spoken before |
| Sequencing.SpokenSilent | app/main.js:1141-1145 | a trace of wake-lock, wait, cancel and finish effects speaks nothing |

| Sequencing.RepeatEmpty | app/main.js:1024-1027 | repeating an empty queue gives nothing |
| Sequencing.TotalOfEmptyWaits | app/main.js:1023-1027 | an empty queue still waits once per extra repeat and does nothing else |
| PlaybackEvents.Initial | app/main_00.js:1018-1019 | playback starts in the init state, idle, with an empty queue, an empty trace and one repeat |
| PlaybackEvents.LockFor | app/main.js:1141-1145 | the store requests the wake lock for playing and releases it for every other state |
| PlaybackEvents.DirectLocks | app/main.js:316-321 | `setAppStateDirect` makes two wake-lock calls for a new state (the `APP_STATE` subscription and its own) and one for an unchanged state, all requests for playing and releases otherwise |
| PlaybackEvents.SetDirect | app/main.js:1258 | `APP_STATE_SET` changes nothing in app/main_00.js; in app/main.js it sets the state and makes the `DirectLocks` calls |

| PlaybackEvents.Finished | app/main_00.js:1040-1048 | the finish branch resets cursor, queue and repeats to the setting and ends the loop; app/main_00.js releases and emits the finish, leaving its own state as it was; app/main.js sets ready with its `DirectLocks` releases and releases once more, three releases from playing |
| PlaybackEvents.Take | app/main_00.js:1051-1065 | a non-empty item at the cursor is spoken and the loop waits on its speech at the same cursor; a missing or empty item advances the cursor and waits one delay |
| PlaybackEvents.Top | app/main_00.js:1033-1050 | a loop that finds the state no longer playing ends and changes nothing else; every outcome keeps speech awaits on the current non-empty item |
| PlaybackEvents.Step | app/main_00.js:1072-1076 | completing an await keeps the invariant that a pending speech await is on the current non-empty item |
| PlaybackEvents.Run | app/main_00.js:1030-1077 | the uninterrupted loop always ends |
| PlaybackEvents.OnStart | app/main_00.js:1079-1090 | start begins a loop that satisfies the awaiting invariant |
| PlaybackEvents.OnResume | app/main_00.js:1091-1094 | resume begins a loop that satisfies the awaiting invariant |
| PlaybackEvents.OnPause | app/main_00.js:1095-1101 | pause cancels speech and sets paused, keeping cursor, queue, repeats and the pending await; app/main.js also makes the `DirectLocks` releases, two from playing |
| PlaybackEvents.OnStop | app/main_00.js:1102-1115 | stop cancels speech, sets ready, resets cursor, queue and repeats, and releases the wake lock: once in app/main_00.js, and in app/main.js after the `DirectLocks` releases, three times from any other state |
| PlaybackEvents.ToggleRoutes | app/main_00.js:1116-1122 | toggle pauses exactly while playing, resumes from the cursor exactly while paused (two wake-lock requests in app/main.js), and starts afresh in every other state |
| PlaybackEvents.TakeRuns | app/main_00.js:1051-1076 | taking an item while playing ends, once its awaits complete, at the top of the loop one item further with that item's effects |
| PlaybackEvents.RunFromTop | app/main_00.js:1033-1077 | an uninterrupted loop from its top produces exactly the reference run from the cursor and the repeats left, then the finish |
| PlaybackEvents.TopAdvances | app/main_00.js:1033-1075 | a loop top that does not finish continues as the loop top one item further, wrapping first at the end of the queue, and the reference run agrees |
| PlaybackEvents.UninterruptedRun | app/main.js:1070-1078 | an uninterrupted start emits the revision's opening, the reference run and the closing, ends idle with the runtime reset, and speaks the non-empty selected values in order, once per pass, in max(r, 1) passes of the repeat setting |
| PlaybackEvents.ToggleAfterFinish | app/main_00.js:1041-1047 | after a finished run a toggle pauses in app/main_00.js, because its own state is still playing, and starts afresh in app/main.js |
| PlaybackEvents.PauseThenResume | app/main_00.js:1072 | a pause while suspended ends that loop without advancing the cursor; resume re-enters at the same cursor, and speech interrupted by the pause is spoken again; in app/main.js the pause and resume emit cancel, two releases and two requests |
| PlaybackEvents.ResumeSpeaksAgain | app/main_00.js:1051-1072 | after a pause during an item's speech, resume speaks that same item and nothing else, after cancel and the revision's lock calls |
| PlaybackEvents.StopQuiesces | app/main_00.js:1102-1115 | stop resets the runtime from any state, and a loop still suspended then ends without effect |
| PlaybackEvents.Playback.constructor | app/main_00.js:1016-1019 | a new playback object is in the initial state |
| PlaybackEvents.Playback.SetDirectly | app/main.js:1141-1145 | handling `APP_STATE_SET` is the SetDirect transition |
| PlaybackEvents.OnVisibility | app/main_00.js:363-373 | hiding the page releases the lock; showing it in app/main_00.js emits `resume-visibility`, which releases and replaces the playing state; in app/main.js showing requests the lock only while playing; cursor, queue, repeats and loop are untouched |
| PlaybackEvents.ShowingPageEndsBusLoop | app/main_00.js:1124 | in app/main_00.js showing the page during playback ends the suspended loop at its next wake-up and makes the next toggle start afresh; app/main.js only requests the lock again |
| PlaybackEvents.Playback.OnVisibilityChange | app/main.js:380-385 | the visibility handler is the OnVisibility transition |

| PlaybackEvents.Playback.LoopTop | app/main_00.js:1033-1065 | one pass through the loop top is the Top transition |
| PlaybackEvents.Playback.Wake | app/main_00.js:1072-1076 | a completed await is the Step transition |
| PlaybackEvents.Playback.Start | app/main_00.js:1079-1090 | the start handler is the OnStart transition |
| PlaybackEvents.Playback.Resume | app/main_00.js:1091-1094 | the resume handler is the OnResume transition |
| PlaybackEvents.Playback.Pause | app/main_00.js:1095-1101 | the pause handler is the OnPause transition |
| PlaybackEvents.Playback.Stop | app/main_00.js:1102-1115 | the stop handler is the OnStop transition |
| PlaybackEvents.Playback.Toggle | app/main_00.js:1116-1122 | the toggle handler is the OnToggle transition |
| PlaybackEvents.Playback.OnAppState | app/main_00.js:1124 | the `APP_STATE` subscription sets the application state and nothing else |
| PlaybackEvents.Playback.OnSettings | app/main_00.js:1123 | new settings change only the repeat setting the loop reads |
| PlaybackShared.Stopped | script/script_09.js:629-642 | stopPlayback sets ready, clears cursor and queue, takes the repeats from the select, cancels speech and releases the wake lock, leaving any pending await as it is |
| PlaybackShared.Take | script/script_09.js:671-695 | a non-empty item at the cursor is spoken and awaited at the same cursor, or, in modules/speech.js without user activation, cancels speech and stalls without speaking; a missing or empty item advances the cursor and waits one delay |
| PlaybackShared.Top | script/script_09.js:656-669 | a loop that finds the state no longer playing ends and changes nothing else; with utterances spoken, the loop never stalls |
| PlaybackShared.Step | script/script_09.js:695-700 | completing an await keeps the speech-await invariant and, with utterances spoken, never stalls the loop |
| PlaybackShared.Run | script/script_09.js:651-701 | the uninterrupted loop ends whenever utterances are spoken |
| PlaybackShared.Launch | script/script_09.js:652 | calling playSequence first requests the wake lock and awaits it |
| PlaybackShared.Fresh | script/script_09.js:719-731 | a fresh start plays the selection from index 0 with the repeats of the select, starting with the wake-lock await |
| PlaybackShared.Toggle | script/script_09.js:702-732 | togglePlay pauses with a cancel while playing, resumes with a new loop while paused, and starts afresh otherwise |
| PlaybackShared.TakeRuns | script/script_09.js:671-700 | taking an item while playing ends, once its awaits complete, at the top of the loop one item further with that item's effects |
| PlaybackShared.RunFromTop | script/script_09.js:656-701 | an uninterrupted loop from its top produces exactly the reference run from the cursor and the repeats left, then stopPlayback |
| PlaybackShared.TopAdvances | script/script_09.js:656-699 | a loop top that does not stop continues as the loop top one item further, wrapping first at the end of the queue, and the reference run agrees |
| PlaybackShared.UninterruptedRun | script/script_09.js:719-731 | a fresh uninterrupted run requests the wake lock, speaks the non-empty selected values in order, once per pass, in max(r, 1) passes, and ends through stopPlayback |
| PlaybackShared.NotPlayingAfterLock | script/script_09.js:653 | the loop returns at once, changing nothing, when the state is not playing after the wake-lock await |
| PlaybackShared.PauseThenResume | script/script_09.js:697 | a pause during a spoken item ends that loop at the same cursor without advancing; toggling back speaks that item again |
| PlaybackShared.StallsWithoutActivation | modules/speech.js:39-48 | without user activation the first non-empty item cancels speech and stalls the loop for good, and nothing is spoken |
| PlaybackShared.StopQuiesces | script/script_09.js:629-642 | stopPlayback resets the runtime from any state, and a loop still suspended then ends without effect |
| PlaybackShared.Playback.constructor | script/script_09.js:623 | a new playback object is in the init state with an empty queue |
| PlaybackShared.Playback.StopPlayback | script/script_09.js:629-642 | the method is the Stopped transition |
| PlaybackShared.Playback.LoopTop | script/script_09.js:656-695 | one pass through the loop top is the Top transition |
| PlaybackShared.Playback.Wake | script/script_09.js:695-700 | a completed await is the Step transition |
| PlaybackShared.Playback.TogglePlay | script/script_09.js:702-732 | togglePlay is the Toggle transition |
| PlaybackShared.Playback.OnRepeatSelect | script/script_09.js:635-638 | a new repeat select value changes only the repeat setting |
| PlaybackCallback.Stopped | script/script_05.js:666-674 | stopPlayback cancels speech, sets ready, clears cursor and queue and takes the repeats from the select, leaving any pending callback as it is |
| PlaybackCallback.Take | script/script_05.js:625-663 | a non-empty item at the cursor is deferred to the speak timer at the same cursor; a missing or empty item advances the cursor and schedules the delay timer |
| PlaybackCallback.Sequence | script/script_05.js:611-623 | a call while not playing returns and changes nothing else; every outcome keeps a pending utterance on the current non-empty item |
| PlaybackCallback.Fire | script/script_05.js:647-663 | running the pending callback keeps the invariant that a pending utterance is the current non-empty item |
| PlaybackCallback.Run | script/script_05.js:611-664 | the callback chain left to itself always ends |
| PlaybackCallback.Fresh | script/script_05.js:599-608 | a fresh start keeps the pending-utterance invariant |
| PlaybackCallback.Toggle | script/script_05.js:584-609 | togglePlay pauses with a cancel while playing, resumes at the cursor while paused, and starts afresh otherwise |
| PlaybackCallback.TakeRuns | script/script_05.js:625-663 | taking an item while playing ends, once its callbacks run, in the next playSequence call one item further with that item's effects |
| PlaybackCallback.RunFromSequence | script/script_05.js:611-664 | callbacks left to themselves produce exactly the reference run from the cursor and the repeats left, then stopPlayback |
| PlaybackCallback.SequenceAdvances | script/script_05.js:611-664 | a call of `playSequence` that does not stop continues as the call one item further, wrapping first at the end of the queue, and the reference run agrees |
| PlaybackCallback.UninterruptedRun | script/script_05.js:599-608 | a fresh uninterrupted run speaks the non-empty selected values in order, once per pass, in max(r, 1) passes, and ends through stopPlayback |
| PlaybackCallback.PauseKeepsInterruptedItem | script/script_05.js:647-663 | the cursor advances only in `onend` while playing, so a pause leaves the current item and the toggle back schedules it again |
| PlaybackCallback.StopQuiesces | script/script_05.js:666-674 | stopPlayback resets the runtime from any state, and a pending callback then ends the chain without effect |
| PlaybackCallback.Playback.constructor | script/script_05.js:611 | a new playback state is init with an empty queue and nothing pending |
| PlaybackCallback.Playback.StopPlayback | script/script_05.js:666-674 | the function is the Stopped transition |
| PlaybackCallback.Playback.PlaySequence | script/script_05.js:611-664 | one call is the Sequence transition |
| PlaybackCallback.Playback.FireCallback | script/script_05.js:647-663 | a pending callback running is the Fire transition |
| PlaybackCallback.Playback.TogglePlay | script/script_05.js:584-609 | togglePlay is the Toggle transition |
| PlaybackCallback.Playback.OnRepeatSelect | script/script_05.js:600 | a new repeat select value changes only the repeat setting |
| PlaybackRecursive.SpokenEach | script/script_02.js:598-625 | one pass from index i speaks every queue value from i on, empty ones included |
| PlaybackRecursive.StraightSplits | script/script_02.js:579-626 | from inside a pass, the run finishes that pass and then continues from the end of the queue |
| PlaybackRecursive.StraightOfEmpty | script/script_02.js:584-595 | an empty queue does nothing whatever the repeat count, since the wrap calls itself at once |
| PlaybackRecursive.StraightAtEnd | script/script_02.js:584-593 | at the end of a non-empty queue, the rest of the run speaks the queue once for every repeat left beyond the current one |
| PlaybackRecursive.StraightSpeaksPasses | script/script_02.js:579-626 | the reference run speaks every queue value, empty ones included, once per pass, in max(r, 1) passes |
| PlaybackRecursive.Stopped | script/script_02.js:628-635 | stopPlayback sets ready, clears cursor and queue and takes the repeats from the select, and does not cancel speech |
| PlaybackRecursive.Sequence | script/script_02.js:579-626 | a call either ends the chain or leaves the speak timer pending on the current item while playing, the cursor unchanged or the repeats reduced by wrapping |
| PlaybackRecursive.Fire | script/script_02.js:612-625 | running the pending callback keeps the invariant that a pending utterance is the current item |
| PlaybackRecursive.Run | script/script_02.js:579-626 | the callback chain left to itself always ends |
| PlaybackRecursive.Toggle | script/script_02.js:561-577 | togglePlay pauses with a cancel while playing; otherwise it rebuilds the runtime only when ready, and then plays |
| PlaybackRecursive.SpeakRuns | script/script_02.js:612-625 | a deferred item while playing is spoken, followed by one delay, and the chain continues one item further |
| PlaybackRecursive.RunFromSequence | script/script_02.js:579-626 | callbacks left to themselves produce exactly this revision's reference run from the cursor, then stopPlayback |
| PlaybackRecursive.UninterruptedRun | script/script_02.js:567-576 | a run started from ready and left uninterrupted speaks every selected value, empty ones included, in order, in max(r, 1) passes, and ends ready |
| PlaybackRecursive.PauseThenResume | script/script_02.js:612-617 | a pause during a spoken item keeps the cursor there, and the toggle back speaks that item again |
| PlaybackRecursive.PauseDuringDelayStops | script/script_02.js:580-595 | a pause during the delay is lost: the timer's playSequence finds the state paused and stops playback |
| PlaybackRecursive.PauseDuringDeferralStillSpeaks | script/script_02.js:621-625 | a pause during the 100 ms deferral does not prevent the item from being spoken |
| PlaybackRecursive.StopQuiesces | script/script_02.js:628-635 | stopPlayback leaves speech alone, and a pending `onend` then ends the chain without effect |
| PlaybackRecursive.Playback.constructor | script/script_02.js:579 | a new playback state is init with an empty queue and nothing pending |
| PlaybackRecursive.Playback.StopPlayback | script/script_02.js:628-635 | the function is the Stopped transition |
| PlaybackRecursive.Playback.PlaySequence | script/script_02.js:579-626 | one call, with its recursive calls, is the Sequence transition |
| PlaybackRecursive.Playback.FireCallback | script/script_02.js:612-625 | a pending callback running is the Fire transition |
| PlaybackRecursive.Playback.TogglePlay | script/script_02.js:561-577 | togglePlay is the Toggle transition |
| PlaybackRecursive.Playback.OnRepeatSelect | script/script_02.js:568 | a new repeat select value changes only the repeat setting |
| PlaybackFlags.StartButton | app/main_01.js:952-959 | the start button pauses exactly a running sequence, continues exactly a paused one, and otherwise starts from the first input |
| PlaybackFlags.Trimmed | app/main_01.js:1014 | the loop reads each input's value trimmed |
| PlaybackFlags.Done | app/main_01.js:1027-1033 | after the loop the flags are cleared and the finish is signalled, nothing else changes |
| PlaybackFlags.Next | app/main_01.js:1011-1015 | the loop's next phrase is the first non-blank input from i on; every input skipped before it is blank, and none means all the rest are blank |
| PlaybackFlags.Enter | app/main_01.js:1011-1023 | from index i the loop either speaks the next non-blank input after setting the flags to it, or, on abort or past the last input, runs the finishing code |
| PlaybackFlags.Place | app/main_01.js:1023-1024 | a loop instance continues at its new await or is gone, the others untouched |
| PlaybackFlags.Step | app/main_01.js:1023-1025 | completing an await never changes the inputs or the abort flag |
| PlaybackFlags.Begin | app/main_01.js:1006-1011 | a new loop instance either ends at once or is added, suspended on the speech of the input the flags now point at |
| PlaybackFlags.OnPause | app/main_01.js:1046-1048 | pause only sets `isPaused` |
| PlaybackFlags.OnStop | app/main_01.js:1055-1064 | stop sets abort, clears the flags and signals the finish, leaving the live loops as they are |
| PlaybackFlags.NonBlank | app/main_01.js:1015 | only non-blank phrases are spoken |
| PlaybackFlags.SpokenSweep | app/main_01.js:1011-1025 | an uninterrupted loop from i speaks exactly the non-blank trimmed inputs from i on, in order |
| PlaybackFlags.RunOne | app/main_01.js:1006-1034 | a single loop instance left to itself always ends |
| PlaybackFlags.SweepSkips | app/main_01.js:1015 | the reference run jumps over blank inputs without a delay |
| PlaybackFlags.AfterDelay | app/main_01.js:1024-1025 | after a phrase's delay the loop carries on as a fresh entry at the next input |
| PlaybackFlags.RunFromEnter | app/main_01.js:1011-1033 | a loop entered at i and left alone produces the reference run from i, then clears the flags and signals the finish |
| PlaybackFlags.BeginAdvances | app/main_01.js:1011-1033 | a loop entered at i that finds a phrase continues as a loop entered past that phrase after its speech and delay |
| PlaybackFlags.BeginEnds | app/main_01.js:1011-1033 | a loop entered at i that finds no phrase goes straight to clearing the flags and signalling the finish |
| PlaybackFlags.UninterruptedRun | app/main_01.js:1036-1044 | start with no live loop, left alone, speaks every non-blank trimmed input from the start index on, each followed by the delay, then clears the flags and signals the finish |
| PlaybackFlags.PauseIgnored | app/main_01.js:1046-1048 | the loop never reads `isPaused`: after a pause every step speaks and waits exactly as before |
| PlaybackFlags.NextPhraseClearsPause | app/main_01.js:1017-1021 | a pause is forgotten as soon as the loop reaches its next phrase |
| PlaybackFlags.ContinueDuplicatesLoop | app/main_01.js:1050-1053 | continue after a pause during a phrase starts a second loop beside the first, which speaks the same phrase again |
| PlaybackFlags.StopEndsLoops | app/main_01.js:1012 | after stop a live loop ends at its next loop header without speaking, and signals the finish a second time |
| PlaybackFlags.ContinueAfterStop | app/main_01.js:1050-1053 | abort stays set after stop, so continue only finishes again: no loop starts and nothing is spoken |
| PlaybackFlags.Playback.constructor | app/main_01.js:1002-1004 | a new playback holds the trimmed input values, cleared flags, no abort and no loops |
| PlaybackFlags.Playback.EnterLoop | app/main_01.js:1011-1023 | the loop header and body up to the next await compute exactly Enter |
| PlaybackFlags.Playback.Wake | app/main_01.js:1023-1025 | a completed await of loop k is the Step transition |
| PlaybackFlags.Playback.PlaySequence | app/main_01.js:1006-1034 | a call adds the loop instance Spawn describes |
| PlaybackFlags.Playback.Start | app/main_01.js:1036-1044 | start is the OnStart transition |
| PlaybackFlags.Playback.Pause | app/main_01.js:1046-1048 | pause is the OnPause transition |
| PlaybackFlags.Playback.Cont | app/main_01.js:1050-1053 | cont is the OnContinue transition |
| PlaybackFlags.Playback.Stop | app/main_01.js:1055-1064 | stop is the OnStop transition |
| PlaybackFlags.Playback.ClickStartPause | app/main_01.js:952-959 | a click pauses, continues or starts from index 0 according to the flags before it |
| SettingsForm.Unsigned | app/main_01.js:817 | the part `parseInt`/`parseFloat` look at after white space and a sign is a suffix of the text |
| SettingsForm.ValueOf | app/main_01.js:797-801 | a select's value is read exactly when the select exists |
| SettingsForm.ReadSettingsFromUI | app/main_01.js:795-840 | each select's value is kept exactly when it is an allowed interface language, or parses as the field's kind of number, and is one of the select's options; otherwise, and for fullscreen, language code and voice name always, the field is the default |
| SettingsForm.OnlyOfferedValues | app/main_01.js:805-835 | a field that differs from its default holds a value its select offers, of the field's kind |
| SettingsForm.IntParsesAsFloat | app/main_01.js:817-832 | every value `parseInt` reads as a number `parseFloat` reads as one too, so the integer fields are the stricter ones |
| SettingsForm.UnofferedYieldsDefault | app/main_01.js:805-807 | a missing select, or one whose value is not among its options, yields the default |
| SettingsForm.Untrimmed | app/main_01.js:817 | a text that starts with no white space is unchanged by skipping leading white space |
| SettingsForm.IntExamples | app/main_01.js:822 | `parseInt` reads "1000" and a leading signed integer, and rejects "" and a bare fraction |
| SettingsForm.FloatExamples | app/main_01.js:817 | `parseFloat` reads ".5" and "1.25" |
| SettingsForm.InfinityExample | app/main_01.js:817 | `parseFloat` reads "Infinity", which `parseInt` rejects |
| SettingsForm.FloatRejects | app/main_01.js:817 | `parseFloat` rejects a lone point and letters |

## Left out

- Timers, promises and concurrency. This covers `setTimeout`, `utils.delay`, the 100 ms speak deferral and promise scheduling. Each becomes an explicit suspension point, and the model resumes one await at a time.
- Starting a loop while another is still suspended. The commands that start a loop require the previous loop to have ended: see `Start`, `Resume` and `TogglePlay` in the playback classes. The exception is `app/main_01.js`, where the live loop instances are kept as a sequence. This assumption is about concurrency, not a property of the app.
- The Web Speech API: `speechSynthesis.speak`, `cancel`, `getVoices`, voice loading and polling, `SPEECH_START`/`SPEECH_END`. Handing an item to speech is the `Speak` effect, and the cancel that precedes each utterance in the script revisions is folded into it; the cancel made by modules/speech.js before its activation check is a `Cancel` effect of its own.
- PlaybackCallback.Take: the `speechSynthesis.cancel()` that script/script_05.js:657 makes before arming the speak timer is recorded only through the `Speak` that follows, so a trace does not show it when the timer then finds playback stopped and speaks nothing.
- Utils.NormalizeFullscreen: a missing `DEFAULT_SETTINGS` (undefined) is not a value of the model; like null it makes `DEFAULT_SETTINGS[k]` raise.
- Utterance settings in the playback loops: voice, lang and rate of the utterances built in `script/script_02.js`, `script/script_05.js`, `script/script_09.js` and `modules/speech.js`. Only the spoken text is modelled there. The parameter rules are modelled once, in `Speaker`.
- The user-callback exceptions in `Speaker.speak`. A throwing callback is swallowed, so the model does not run user callbacks at all.
- The `/speak` fetch fallback of `speakAsync`, `ui.setActiveInput`, overlays, labels and every other piece of DOM rendering.
- PlaybackShared, PlaybackCallback, PlaybackRecursive: the play queue holds the values of the selected cells taken when playback starts, whereas script/script_09.js, modules/speech.js, script/script_05.js and script/script_02.js keep the input elements and read `.value` as each item is spoken; an edit to a cell during playback is therefore not captured.
- `isSpeaking` in `app/main_01.js`. The inputs are read once: `PlaybackFlags.Playback.constructor` takes their trimmed values, so edits during playback are not modelled.
- Repeat counts and delays are integers and are taken as given. PlaybackEvents and PlaybackShared use `safeNumber` of the repeat setting; PlaybackCallback and PlaybackRecursive use `Number(...) || 1`. Fractional repeat counts are not modelled.
- In the playback models the cursor is a natural number. The 32-bit normalisation of `setCurrentIndex` is modelled in `Store`. It is not repeated there, because the cursor stays at most one past the queue length, far below 2^31.
- Storage I/O (`localStorage`), `JSON.parse`/`stringify`, `structuredClone`, `fetch` in `Config.load`. Parsing in `safeJsonGet` is a parameter.
- Spreading a string into an object, the `__proto__` key, and the length of sparse arrays in `patch` and `deepMerge`.
- Identity of objects: `get()` returning the same object as `patch` mutates, and `configService.get()` returning the same object across calls. The model's classes hold one value each, which stands for that shared object.
- Ui.SettingsFromUi: a control whose value is empty keeps the previous value, also where the previous value was undefined (`el.value || fallback`); keys whose value would be undefined are not distinguished from absent ones.
- Unicode white space beyond the set in `Text.IsSpace` (ASCII white space, NBSP, BOM, LS, PS) for `trim`, `parseInt` and `parseFloat`, and case folding beyond ASCII.
- The NFD normalisation and diacritic stripping of `normalizeString` in `app/main_01.js`.
- Logger output formatting (`fmt`, `Date`) and console output.
- Randomness in `fillRandom` and the user-agent probe, which is the parameter `isMobile`.
- Wiring-only files: app/app.js, app/nltapp.js, modules/handlers.js, modules/config.js, app/controllers/uiController.js, app/controllers/speechController.js, app/services/speechService.js, app/core/errors.js. The error kinds of errors.js appear as the failure values of `Config` and `StateService`.

## Findings

| source | as written | input that shows it | evidently intended | confidence | as-written member | corrected member |
|---|---|---|---|---|---|---|
| app/core/logger.js:11-13 | `setLevel` accepts any name found with `in`, inherited Object.prototype names included | `setLevel("toString")`: afterwards `shouldLog` is false for every level, errors included | only the five names of the level table are accepted | not executed | Logger.InheritedNameSilencesEverything | Logger.ErrorsShowUnlessSilent |
| app/main.js:360-363, 1141-1145 | `request()` checks only `this.wakeLock` before awaiting the browser, and `setAppStateDirect("playing")` calls it twice in a row (through the `APP_STATE` subscription and directly) | a change to playing: both calls find no sentinel, both are granted, the second overwrites the first, and the next `release()` closes only the second | one screen wake lock per playing period, released on leaving it | not executed | WakeLock.DoubleRequestLeaks | WakeLock.GuardedRequestKeepsOne |
