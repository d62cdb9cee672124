# Shortcut Guide settings view model, in Dafny

This project models `ShortcutGuideViewModel`, the view model behind the
Shortcut Guide page of the PowerToys settings UI. The view model does four things:

- It caches four properties: `IsEnabled`, `ThemeIndex`, `PressTime` and `OverlayOpacity`.
- It holds the module's settings document (`ShortcutGuideSettings`) in memory.
- It reads the general settings document, which every module shares.
- It reports each change once to the UI (a property-changed notification) and once to the runner process (an IPC message).

The model has two modules:

- `SettingsModel` (settings_model.dfy) reduces the view model's collaborators to state:
  - The two documents are datatypes.
  - The settings store is a class `SettingsStore` with a map from path to document. A load fails when nothing is stored at the path, or when what is stored there is not a document of the requested kind.
  - The outward effects are `Effect` values in one ordered trace. `SentMessages` and `Notifications` project that trace onto the IPC message log and the notification log.
- `ShortcutGuideViewModels` (shortcut_guide_view_model.dfy) holds:
  - the class `ShortcutGuideViewModel`, with the source's cached fields, the in-memory module document and the trace;
  - the pure path and theme mappings.

The object invariant `Valid()` says that the cache agrees with the module
document: `pressTime` and `opacity` equal the document's values, and
`themeIndex` is the index that the stored theme tag maps to. The constructor
establishes it and every setter preserves it. No setter has the store in its
`modifies` clause, so no setter writes to the store. Only the constructor's
fallback paths save. The getters are the reading functions `IsEnabled()`,
`ThemeIndex()`, `PressTime()` and `OverlayOpacity()`. Each returns its cached field.

Behaviours the contracts make explicit:

- Every setter is a no-op, with no notification and no send, when the new value equals the cached one.
- `RaisePropertyChanged` notifies first and then sends the whole current module document.
- The `IsEnabled` setter does the opposite. It sends the re-read general document, with only the Shortcut Guide flag changed, and then notifies `"IsEnabled"`.
- The `IsEnabled` setter stores the new value in the cache before it re-reads the general document, and that read is not guarded. If the read fails, the setter stops with the cache already changed and nothing sent. The model reports this through the out-parameter `loadFailed`.
- The `ThemeIndex` setter acts only on 0, 1 and 2. Any other value changes nothing, not even the cached index. The code assigns `_themeIndex` only inside the three recognised branches.

## Model

| member | source | states |
|---|---|---|
| `SettingsModel.LoadModuleOrDefault` | src/core/Microsoft.PowerToys.Settings.UI.Lib/ViewModels/ShortcutGuideViewModel.cs:26-34 | afterwards the store holds a readable module document at the path and the page uses it; the default is used and saved exactly when the load fails; the store changes iff the default was used, and no other path changes |
| `SettingsModel.LoadGeneralOrDefault` | src/core/Microsoft.PowerToys.Settings.UI.Lib/ViewModels/ShortcutGuideViewModel.cs:36-46 | the same load-or-default-and-save guarantee for the general document at the empty path |
| `SettingsModel.SettingsStore.SaveSettings` | src/core/Microsoft.PowerToys.Settings.UI.Lib/ViewModels/ShortcutGuideViewModel.cs:33 | a save replaces the document at one path and leaves every other path alone |
| `SettingsModel.SentMessages` | src/core/Microsoft.PowerToys.Settings.UI.Lib/ViewModels/ShortcutGuideViewModel.cs:183 | the IPC message log holds exactly the messages sent in the trace and is no longer than the trace |
| `SettingsModel.Notifications` | src/core/Microsoft.PowerToys.Settings.UI.Lib/ViewModels/ShortcutGuideViewModel.cs:180 | the notification log holds exactly the property names notified in the trace and is no longer than the trace |
| `SettingsModel.SentMessagesAppend` | src/core/Microsoft.PowerToys.Settings.UI.Lib/ViewModels/ShortcutGuideViewModel.cs:183 | the message log of a trace extended by more effects is the old log followed by the new sends |
| `SettingsModel.NotificationsAppend` | src/core/Microsoft.PowerToys.Settings.UI.Lib/ViewModels/ShortcutGuideViewModel.cs:180 | the same for the notification log |
| `SettingsModel.OneNotificationOneSend` | src/core/Microsoft.PowerToys.Settings.UI.Lib/ViewModels/ShortcutGuideViewModel.cs:178-184 | a setter's notification plus send, in either order, adds exactly one entry to each log |
| `ShortcutGuideViewModels.SettingsSubPath` | src/core/Microsoft.PowerToys.Settings.UI.Lib/ViewModels/ShortcutGuideViewModel.cs:173-176 | the path is the folder, then `\Shortcut Guide`, so an empty folder gives `\Shortcut Guide`; it never equals the general document's empty path |
| `ShortcutGuideViewModels.SettingsSubPathInjective` | src/core/Microsoft.PowerToys.Settings.UI.Lib/ViewModels/ShortcutGuideViewModel.cs:173-176 | two folders give the same module path iff they are equal |
| `ShortcutGuideViewModels.ThemeIndexOf` | src/core/Microsoft.PowerToys.Settings.UI.Lib/ViewModels/ShortcutGuideViewModel.cs:55-70 | the index seeded from a stored tag is always 0, 1 or 2, and any tag other than "dark", "light" or "system" leaves it at the initial 0 |
| `ShortcutGuideViewModels.ThemeTag` | src/core/Microsoft.PowerToys.Settings.UI.Lib/ViewModels/ShortcutGuideViewModel.cs:110-132 | the setter writes a tag exactly for the indices 0, 1 and 2 |
| `ShortcutGuideViewModels.ThemeTagRoundTrip` | src/core/Microsoft.PowerToys.Settings.UI.Lib/ViewModels/ShortcutGuideViewModel.cs:110-132 | the tag written for an index maps back to that index: dark 0, light 1, system 2 |
| `ShortcutGuideViewModels.ThemeIndexRoundTrip` | src/core/Microsoft.PowerToys.Settings.UI.Lib/ViewModels/ShortcutGuideViewModel.cs:55-70 | a tag survives the trip to an index and back iff it is "dark", "light" or "system" |
| `ShortcutGuideViewModels.ConstructionLoads` | src/core/Microsoft.PowerToys.Settings.UI.Lib/ViewModels/ShortcutGuideViewModel.cs:26-46 | saving the module default never disturbs the general document; both documents are readable after construction; the store is written iff one of the loads failed |
| `ShortcutGuideViewModels.ShortcutGuideViewModel.constructor` | src/core/Microsoft.PowerToys.Settings.UI.Lib/ViewModels/ShortcutGuideViewModel.cs:21-76 | both documents come from load-or-default in the source's order; the enable flag comes from the general document; press time and opacity come from the module document; the theme index comes from the tag mapping; nothing is sent or notified |
| `ShortcutGuideViewModels.ShortcutGuideViewModel.GetSettingsSubPath` | src/core/Microsoft.PowerToys.Settings.UI.Lib/ViewModels/ShortcutGuideViewModel.cs:173-176 | the path depends only on the folder fixed at construction (no reads clause) and has the shape `SettingsSubPath` states |
| `ShortcutGuideViewModels.ShortcutGuideViewModel.IsEnabled` | src/core/Microsoft.PowerToys.Settings.UI.Lib/ViewModels/ShortcutGuideViewModel.cs:80-83 | the getter returns the cached flag; the constructor seeds it from the general document and, by the other setters' contracts, only SetIsEnabled changes it |
| `ShortcutGuideViewModels.ShortcutGuideViewModel.ThemeIndex` | src/core/Microsoft.PowerToys.Settings.UI.Lib/ViewModels/ShortcutGuideViewModel.cs:101-104 | the getter returns the cached index, which is always 0, 1 or 2 and is the index of the document's theme tag |
| `ShortcutGuideViewModels.ShortcutGuideViewModel.PressTime` | src/core/Microsoft.PowerToys.Settings.UI.Lib/ViewModels/ShortcutGuideViewModel.cs:139-142 | the getter returns the cached press time, which equals the module document's press time |
| `ShortcutGuideViewModels.ShortcutGuideViewModel.OverlayOpacity` | src/core/Microsoft.PowerToys.Settings.UI.Lib/ViewModels/ShortcutGuideViewModel.cs:157-160 | the getter returns the cached opacity, which equals the module document's overlay opacity |
| `ShortcutGuideViewModels.ShortcutGuideViewModel.RaisePropertyChanged` | src/core/Microsoft.PowerToys.Settings.UI.Lib/ViewModels/ShortcutGuideViewModel.cs:178-184 | one notification with the given name, then one send carrying the whole current module document, so each log grows by exactly that one entry; no field other than the trace changes |
| `ShortcutGuideViewModels.ShortcutGuideViewModel.SetIsEnabled` | src/core/Microsoft.PowerToys.Settings.UI.Lib/ViewModels/ShortcutGuideViewModel.cs:85-96 | a no-op on an equal value; otherwise the cache takes the value, the general document is re-read from the store with only its Shortcut Guide flag changed, and it is sent before the `IsEnabled` notification; the store and the module document are untouched; a failed read leaves the cache changed and sends nothing |
| `ShortcutGuideViewModels.ShortcutGuideViewModel.SetThemeIndex` | src/core/Microsoft.PowerToys.Settings.UI.Lib/ViewModels/ShortcutGuideViewModel.cs:106-134 | an equal value or an index outside 0..2 changes nothing; otherwise the index, the tag dark/light/system, one notification and one send of the module document; the invariant is kept |
| `ShortcutGuideViewModels.ShortcutGuideViewModel.SetPressTime` | src/core/Microsoft.PowerToys.Settings.UI.Lib/ViewModels/ShortcutGuideViewModel.cs:144-152 | a no-op on an equal value; otherwise the cache and the document's press time both take the value, followed by one `PressTime` notification and one send of the whole document; the other cached fields and the store are unchanged |
| `ShortcutGuideViewModels.ShortcutGuideViewModel.SetOverlayOpacity` | src/core/Microsoft.PowerToys.Settings.UI.Lib/ViewModels/ShortcutGuideViewModel.cs:162-170 | the same for the opacity and the `OverlayOpacity` notification |

## Left out

- File I/O and JSON parsing behind `SettingsUtils.GetSettings` / `SaveSettings`. These are an abstract map from path to document, and saving always succeeds. A failed fallback save, which would make the constructor throw, is not modelled.
- The default values of `new ShortcutGuideSettings()` and `new GeneralSettings()`. Those classes are not part of this model, so the constructor takes the two defaults as parameters (`moduleDefaults`, `generalDefaults`).
- The JSON wire format of `SndShortcutGuideSettings`, `SndModuleSettings<T>` and `OutGoingGeneralSettings`, including the module-name tag of the envelope. A sent message records only the document snapshot it carries.
- The IPC callback `Func<string, int>` and its status. The status is never inspected, so a send is just an entry in the trace.
- The `Observable` base class, its event plumbing and `[CallerMemberName]`. A notification is a property-name entry in the trace. Every call site passes its property's name, so the null default name does not arise.
- The general document's fields other than the enable flags. The other modules' flags are an opaque map that the `IsEnabled` setter carries through unchanged.
- Concurrency, including the read-modify-write race on the shared general document. The model is single-threaded. Other writers appear only as a store that may hold a different document when `SetIsEnabled` re-reads it.
- `ShortcutGuideSettings` is a reference object that the source mutates in place. The view model never shares it, so the model holds it as a value that the setters replace.
