/**
 * The Shortcut Guide settings page's view model: a cache of four properties
 * kept in step with the module document, every change reported once to the
 * UI and once over the IPC channel.
 */
module ShortcutGuideViewModels {
  import opened SettingsModel

  const ModuleName: string := "Shortcut Guide"
  const PathSeparator: string := "\\"

  /** The general document lives at the empty path. */
  const GeneralSettingsPath: string := ""

  /** The theme tags the page knows, by selector index. */
  const DarkTheme: string := "dark"
  const LightTheme: string := "light"
  const SystemTheme: string := "system"

  /** Where the module document is kept: the configured folder, a backslash,
      then the module name. The path never coincides with the general
      document's path. */
  function SettingsSubPath(folder: string): (r: string)
    ensures |r| == |folder| + |PathSeparator| + |ModuleName|
    ensures r[..|folder|] == folder
    ensures r[|folder|..] == "\\Shortcut Guide"
    ensures r != GeneralSettingsPath
  {
    folder + PathSeparator + ModuleName
  }

  /** Distinct folders give distinct module paths. */
  lemma SettingsSubPathInjective(a: string, b: string)
    ensures SettingsSubPath(a) == SettingsSubPath(b) <==> a == b
  {
  }

  /** The selector index the constructor derives from a stored theme tag; an
      unknown tag keeps the field's initial value 0. */
  function ThemeIndexOf(theme: string): (r: int)
    ensures 0 <= r <= 2
    ensures theme !in {DarkTheme, LightTheme, SystemTheme} ==> r == 0
  {
    if theme == SystemTheme then 2
    else if theme == LightTheme then 1
    else 0
  }

  /** The tag the ThemeIndex setter writes for a selector index; None for an
      index the setter ignores. */
  function ThemeTag(index: int): (r: Option<string>)
    ensures r.Some? <==> 0 <= index <= 2
  {
    if index == 0 then Some(DarkTheme)
    else if index == 1 then Some(LightTheme)
    else if index == 2 then Some(SystemTheme)
    else None
  }

  /** Writing a tag for an index and reading it back gives the index again. */
  lemma ThemeTagRoundTrip(index: int)
    ensures ThemeTag(index).Some? ==> ThemeIndexOf(ThemeTag(index).value) == index
  {
  }

  /** Reading a tag and writing it back restores exactly the recognised tags. */
  lemma ThemeIndexRoundTrip(theme: string)
    ensures ThemeTag(ThemeIndexOf(theme)) == Some(theme) <==> theme in {DarkTheme, LightTheme, SystemTheme}
  {
  }

  /** The constructor's two load-or-default steps do not interfere: saving the
      module default never disturbs the general document, both documents are
      readable afterwards, and the store is written exactly when a load fails. */
  lemma ConstructionLoads(files: map<string, Document>, folder: string,
                          moduleDefaults: ShortcutGuideSettings, generalDefaults: GeneralSettings)
    ensures var m := LoadModuleOrDefault(files, SettingsSubPath(folder), moduleDefaults);
            var g := LoadGeneralOrDefault(m.files, GeneralSettingsPath, generalDefaults);
            && GetModuleSettings(g.files, SettingsSubPath(folder)) == Some(m.doc)
            && GetGeneralSettings(g.files, GeneralSettingsPath) == Some(g.doc)
            && g.doc == LoadGeneralOrDefault(files, GeneralSettingsPath, generalDefaults).doc
            && g.usedDefault == GetGeneralSettings(files, GeneralSettingsPath).None?
            && (g.files == files <==> !m.usedDefault && !g.usedDefault)
  {
  }

  class ShortcutGuideViewModel {
    /** The shared settings store. */
    const store: SettingsStore
    /** The folder fixed at construction; only GetSettingsSubPath uses it. */
    const settingsConfigFileFolder: string

    /** The module document held in memory. */
    var settings: ShortcutGuideSettings

    /** The cached property values. */
    var isEnabled: bool
    var themeIndex: int
    var pressTime: int
    var opacity: int

    /** Notifications raised and messages sent, in order. */
    var effects: seq<Effect>

    /** The cache agrees with the module document. */
    ghost predicate Valid()
      reads this
    {
      && pressTime == settings.pressTime
      && opacity == settings.overlayOpacity
      && themeIndex == ThemeIndexOf(settings.theme)
    }

    function GetSettingsSubPath(): (r: string)
      ensures r == SettingsSubPath(settingsConfigFileFolder)
    {
      SettingsSubPath(settingsConfigFileFolder)
    }

    constructor (store: SettingsStore, configFileSubfolder: string,
                 moduleDefaults: ShortcutGuideSettings, generalDefaults: GeneralSettings)
      modifies store
      ensures this.store == store && settingsConfigFileFolder == configFileSubfolder
      ensures var m := LoadModuleOrDefault(old(store.files), SettingsSubPath(configFileSubfolder), moduleDefaults);
              var g := LoadGeneralOrDefault(m.files, GeneralSettingsPath, generalDefaults);
              && settings == m.doc
              && isEnabled == g.doc.shortcutGuideEnabled
              && store.files == g.files
      ensures pressTime == settings.pressTime && opacity == settings.overlayOpacity
      ensures themeIndex == ThemeIndexOf(settings.theme)
      ensures effects == []
      ensures Valid()
    {
      this.store := store;
      settingsConfigFileFolder := configFileSubfolder;
      isEnabled, themeIndex, pressTime, opacity := false, 0, 0, 0;
      effects := [];
      new;
      var path := GetSettingsSubPath();
      var loaded := GetModuleSettings(store.files, path);
      if loaded.Some? {
        settings := loaded.value;
      } else {
        settings := moduleDefaults;
        store.SaveSettings(ModuleDocument(settings), path);
      }

      var generalSettings: GeneralSettings;
      var loadedGeneral := GetGeneralSettings(store.files, GeneralSettingsPath);
      if loadedGeneral.Some? {
        generalSettings := loadedGeneral.value;
      } else {
        generalSettings := generalDefaults;
        store.SaveSettings(GeneralDocument(generalSettings), GeneralSettingsPath);
      }

      isEnabled := generalSettings.shortcutGuideEnabled;
      pressTime := settings.pressTime;
      opacity := settings.overlayOpacity;

      var theme := settings.theme;
      if theme == DarkTheme {
        themeIndex := 0;
      }
      if theme == LightTheme {
        themeIndex := 1;
      }
      if theme == SystemTheme {
        themeIndex := 2;
      }
    }

    /** The getters return the cached values. */
    function IsEnabled(): (r: bool)
      reads this
      ensures r == isEnabled
    {
      isEnabled
    }

    function ThemeIndex(): (r: int)
      reads this
      ensures Valid() ==> 0 <= r <= 2 && r == ThemeIndexOf(settings.theme)
    {
      themeIndex
    }

    function PressTime(): (r: int)
      reads this
      ensures Valid() ==> r == settings.pressTime
    {
      pressTime
    }

    function OverlayOpacity(): (r: int)
      reads this
      ensures Valid() ==> r == settings.overlayOpacity
    {
      opacity
    }

    /** Raise the notification for `propertyName`, then send the whole
        current module document over the IPC channel. */
    method RaisePropertyChanged(propertyName: string)
      modifies this
      ensures effects == old(effects) + [PropertyChanged(propertyName), MessageSent(ModuleSettingsMessage(settings))]
      ensures settings == old(settings) && isEnabled == old(isEnabled) && themeIndex == old(themeIndex)
      ensures pressTime == old(pressTime) && opacity == old(opacity)
      ensures SentMessages(effects) == SentMessages(old(effects)) + [ModuleSettingsMessage(settings)]
      ensures Notifications(effects) == Notifications(old(effects)) + [propertyName]
    {
      OneNotificationOneSend(effects, propertyName, ModuleSettingsMessage(settings));
      effects := effects + [PropertyChanged(propertyName)];
      effects := effects + [MessageSent(ModuleSettingsMessage(settings))];
    }

    /** The IsEnabled setter. The cache takes the new value first; then the
        general document is read fresh from the store, only its Shortcut Guide
        flag is changed, and it is sent before the notification is raised.
        Nothing is saved. If that load fails (`loadFailed`), the setter stops
        there: the cache has already changed and nothing is sent. */
    method SetIsEnabled(value: bool) returns (loadFailed: bool)
      requires Valid()
      modifies this
      ensures Valid()
      ensures unchanged(store)
      ensures settings == old(settings) && themeIndex == old(themeIndex)
      ensures pressTime == old(pressTime) && opacity == old(opacity)
      ensures isEnabled == value
      ensures loadFailed <==> value != old(isEnabled) && GetGeneralSettings(store.files, GeneralSettingsPath).None?
      ensures value == old(isEnabled) || loadFailed ==> effects == old(effects)
      ensures value != old(isEnabled) && !loadFailed ==>
                var general := GetGeneralSettings(store.files, GeneralSettingsPath).value;
                effects == old(effects) + [MessageSent(GeneralSettingsMessage(general.(shortcutGuideEnabled := value))),
                                           PropertyChanged("IsEnabled")]
      ensures value != old(isEnabled) && !loadFailed ==>
                var general := GetGeneralSettings(store.files, GeneralSettingsPath).value;
                && SentMessages(effects) == SentMessages(old(effects)) + [GeneralSettingsMessage(general.(shortcutGuideEnabled := value))]
                && Notifications(effects) == Notifications(old(effects)) + ["IsEnabled"]
    {
      loadFailed := false;
      if value != isEnabled {
        isEnabled := value;
        var loaded := GetGeneralSettings(store.files, GeneralSettingsPath);
        if loaded.None? {
          loadFailed := true;
          return;
        }
        var generalSettings := loaded.value.(shortcutGuideEnabled := value);
        OneNotificationOneSend(effects, "IsEnabled", GeneralSettingsMessage(generalSettings));
        effects := effects + [MessageSent(GeneralSettingsMessage(generalSettings))];
        effects := effects + [PropertyChanged("IsEnabled")];
      }
    }

    /** The ThemeIndex setter: only the indices 0, 1 and 2 are acted on; any
        other value leaves everything as it was. */
    method SetThemeIndex(value: int)
      requires Valid()
      modifies this
      ensures Valid()
      ensures unchanged(store)
      ensures isEnabled == old(isEnabled) && pressTime == old(pressTime) && opacity == old(opacity)
      ensures value == old(themeIndex) || ThemeTag(value).None? ==> unchanged(this)
      ensures value != old(themeIndex) && ThemeTag(value).Some? ==>
                && themeIndex == value
                && settings == old(settings).(theme := ThemeTag(value).value)
                && effects == old(effects) + [PropertyChanged("ThemeIndex"), MessageSent(ModuleSettingsMessage(settings))]
                && SentMessages(effects) == SentMessages(old(effects)) + [ModuleSettingsMessage(settings)]
                && Notifications(effects) == Notifications(old(effects)) + ["ThemeIndex"]
    {
      if themeIndex != value {
        if value == 0 {
          settings := settings.(theme := DarkTheme);
          themeIndex := value;
          RaisePropertyChanged("ThemeIndex");
        }

        if value == 1 {
          settings := settings.(theme := LightTheme);
          themeIndex := value;
          RaisePropertyChanged("ThemeIndex");
        }

        if value == 2 {
          settings := settings.(theme := SystemTheme);
          themeIndex := value;
          RaisePropertyChanged("ThemeIndex");
        }
      }
    }

    /** The PressTime setter. */
    method SetPressTime(value: int)
      requires Valid()
      modifies this
      ensures Valid()
      ensures unchanged(store)
      ensures isEnabled == old(isEnabled) && themeIndex == old(themeIndex) && opacity == old(opacity)
      ensures pressTime == value && settings == old(settings).(pressTime := value)
      ensures value == old(pressTime) ==> unchanged(this)
      ensures value != old(pressTime) ==>
                effects == old(effects) + [PropertyChanged("PressTime"), MessageSent(ModuleSettingsMessage(settings))]
      ensures value != old(pressTime) ==>
                && SentMessages(effects) == SentMessages(old(effects)) + [ModuleSettingsMessage(settings)]
                && Notifications(effects) == Notifications(old(effects)) + ["PressTime"]
    {
      if pressTime != value {
        pressTime := value;
        settings := settings.(pressTime := value);
        RaisePropertyChanged("PressTime");
      }
    }

    /** The OverlayOpacity setter. */
    method SetOverlayOpacity(value: int)
      requires Valid()
      modifies this
      ensures Valid()
      ensures unchanged(store)
      ensures isEnabled == old(isEnabled) && themeIndex == old(themeIndex) && pressTime == old(pressTime)
      ensures opacity == value && settings == old(settings).(overlayOpacity := value)
      ensures value == old(opacity) ==> unchanged(this)
      ensures value != old(opacity) ==>
                effects == old(effects) + [PropertyChanged("OverlayOpacity"), MessageSent(ModuleSettingsMessage(settings))]
      ensures value != old(opacity) ==>
                && SentMessages(effects) == SentMessages(old(effects)) + [ModuleSettingsMessage(settings)]
                && Notifications(effects) == Notifications(old(effects)) + ["OverlayOpacity"]
    {
      if opacity != value {
        opacity := value;
        settings := settings.(overlayOpacity := value);
        RaisePropertyChanged("OverlayOpacity");
      }
    }
  }
}
