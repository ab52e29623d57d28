// User customisation: the registry of themes and the current theme, a
// theme editor with a snapshot history, audio volumes, learning
// preferences, and the adaptive-difficulty adjustment computed from a
// player's performance. The clock is a parameter; the DOM, storage and the
// design tokens of a theme (colours, typography, spacing, borders, shadows,
// animations) are not modelled: a theme names its look by a palette.
module Customization {
  import opened Util

  datatype ThemeType = LightType | DarkType | HighContrastType | SepiaType | CustomType

  /** The design tokens a theme carries, named by the built-in theme they come from. */
  datatype Palette = LightPalette | DarkPalette | HighContrastPalette | SepiaPalette

  datatype Theme = Theme(
    id: string,
    name: string,
    themeType: ThemeType,
    palette: Palette,
    author: string,
    version: string,
    isBuiltIn: bool,
    isShared: bool,
    createdAt: int,
    updatedAt: int)

  /** A `Partial<CustomTheme>`: the fields it sets override a theme's. */
  datatype ThemePatch = ThemePatch(
    id: Option<string>,
    name: Option<string>,
    themeType: Option<ThemeType>,
    palette: Option<Palette>,
    author: Option<string>,
    isBuiltIn: Option<bool>,
    createdAt: Option<int>,
    updatedAt: Option<int>)

  const NoChanges := ThemePatch(None, None, None, None, None, None, None, None)

  function Pick<T>(o: Option<T>, fallback: T): (r: T)
    ensures r == if o.Some? then o.value else fallback
  {
    match o
    case Some(v) => v
    case None => fallback
  }

  /** `{ ...t, ...patch }` */
  function Patched(t: Theme, patch: ThemePatch): (r: Theme)
    ensures r.id == Pick(patch.id, t.id) && r.name == Pick(patch.name, t.name)
    ensures r.themeType == Pick(patch.themeType, t.themeType) && r.palette == Pick(patch.palette, t.palette)
    ensures r.author == Pick(patch.author, t.author) && r.isBuiltIn == Pick(patch.isBuiltIn, t.isBuiltIn)
    ensures r.createdAt == Pick(patch.createdAt, t.createdAt) && r.updatedAt == Pick(patch.updatedAt, t.updatedAt)
    ensures r.version == t.version && r.isShared == t.isShared
  {
    t.(id := Pick(patch.id, t.id), name := Pick(patch.name, t.name), themeType := Pick(patch.themeType, t.themeType),
       palette := Pick(patch.palette, t.palette), author := Pick(patch.author, t.author),
       isBuiltIn := Pick(patch.isBuiltIn, t.isBuiltIn), createdAt := Pick(patch.createdAt, t.createdAt),
       updatedAt := Pick(patch.updatedAt, t.updatedAt))
  }

  lemma PatchedNothing(t: Theme)
    ensures Patched(t, NoChanges) == t
  {
  }

  /** Applying the same patch twice is applying it once. */
  lemma PatchedIdempotent(t: Theme, patch: ThemePatch)
    ensures Patched(Patched(t, patch), patch) == Patched(t, patch)
  {
  }

  function BuiltIn(id: string, name: string, themeType: ThemeType, palette: Palette, now: int): Theme
  {
    Theme(id, name, themeType, palette, "DialectGame", "1.0", true, false, now, now)
  }

  /** The four built-in themes, light first. */
  function DefaultThemes(now: int): (r: seq<Theme>)
    ensures |r| == 4 && r[0].id == "light"
    ensures forall i :: 0 <= i < |r| ==> r[i].isBuiltIn && r[i].themeType != CustomType
  {
    [BuiltIn("light", "Thème Clair", LightType, LightPalette, now),
     BuiltIn("dark", "Thème Sombre", DarkType, DarkPalette, now),
     BuiltIn("high_contrast", "Contraste Élevé", HighContrastType, HighContrastPalette, now),
     BuiltIn("sepia", "Sépia", SepiaType, SepiaPalette, now)]
  }

  /** The registry of themes keyed by their own identifiers. */
  function Register(themes: map<string, Theme>, defaults: seq<Theme>): (r: map<string, Theme>)
    ensures forall k :: k in themes ==> k in r
    ensures forall i :: 0 <= i < |defaults| ==> defaults[i].id in r
  {
    if defaults == [] then themes
    else
      var last := defaults[|defaults| - 1];
      Register(themes, defaults[..|defaults| - 1])[last.id := last]
  }

  /** Every registered theme is stored under its own identifier. */
  predicate KeyedById(themes: map<string, Theme>)
  {
    forall k :: k in themes ==> themes[k].id == k
  }

  lemma {:induction false} RegisterKeyedById(themes: map<string, Theme>, defaults: seq<Theme>)
    requires KeyedById(themes)
    ensures KeyedById(Register(themes, defaults))
  {
    if defaults != [] {
      RegisterKeyedById(themes, defaults[..|defaults| - 1]);
    }
  }

  /** The theme createCustomTheme builds: a user theme unless the customisations say otherwise. */
  function CustomTheme(base: Theme, name: string, customizations: ThemePatch, now: int): (r: Theme)
    ensures r.id == Pick(customizations.id, "custom_" + IntToString(now))
    ensures r.name == Pick(customizations.name, name)
    ensures r.themeType == Pick(customizations.themeType, CustomType)
    ensures r.isBuiltIn == Pick(customizations.isBuiltIn, false)
    ensures r.author == Pick(customizations.author, "User")
    ensures r.palette == Pick(customizations.palette, base.palette)
    ensures r.createdAt == Pick(customizations.createdAt, now) && r.updatedAt == Pick(customizations.updatedAt, now)
    ensures r.version == base.version && r.isShared == base.isShared
  {
    Patched(base.(id := "custom_" + IntToString(now), name := name, themeType := CustomType, author := "User",
      isBuiltIn := false, createdAt := now, updatedAt := now), customizations)
  }

  // ---- audio ----------------------------------------------------------------

  datatype SoundType = CorrectAnswer | WrongAnswer | LevelUp | Achievement | ButtonClick | Notification | PowerUp
    | GameStart | GameEnd | BackgroundMusic | Ambient | Typing

  datatype AudioConfig = AudioConfig(masterVolume: real, volumes: map<SoundType, real>)

  const DefaultVolumes: map<SoundType, real> := map[
    CorrectAnswer := 0.8, WrongAnswer := 0.6, LevelUp := 0.9, Achievement := 0.9, ButtonClick := 0.5,
    Notification := 0.7, PowerUp := 0.8, GameStart := 0.8, GameEnd := 0.8, BackgroundMusic := 0.3,
    Ambient := 0.4, Typing := 0.3]

  const DefaultAudio := AudioConfig(0.7, DefaultVolumes)

  /** `Math.max(0, Math.min(1, v))` */
  function UnitVolume(v: real): (r: real)
    ensures 0.0 <= r <= 1.0
    ensures 0.0 <= v <= 1.0 ==> r == v
    ensures v < 0.0 ==> r == 0.0
    ensures v > 1.0 ==> r == 1.0
  {
    MaxReal(0.0, MinReal(1.0, v))
  }

  lemma UnitVolumeMonotone(v: real, w: real)
    requires v <= w
    ensures UnitVolume(v) <= UnitVolume(w)
  {
  }

  // ---- adaptive difficulty --------------------------------------------------

  datatype DifficultyMode = Disabled | PerformanceBased | TimeBased | StreakBased | Mixed

  datatype Factors = Factors(accuracy: real, speed: real, streak: real)

  datatype Thresholds = Thresholds(
    accuracyTooLow: real,
    accuracyTooHigh: real,
    speedTooSlow: real,
    speedTooFast: real,
    streakTarget: real,
    streakTolerance: real)

  datatype AdaptiveConfig = AdaptiveConfig(mode: DifficultyMode, sensitivity: real, factors: Factors,
    thresholds: Thresholds)

  const DefaultAdaptive := AdaptiveConfig(PerformanceBased, 0.5, Factors(0.4, 0.3, 0.2),
    Thresholds(0.6, 0.9, 15.0, 3.0, 5.0, 2.0))

  /** What the adjustment reads of a player's recent performance. */
  datatype Performance = Performance(accuracy: real, averageTime: real, currentStreak: int)

  const MaxAdjustment := 0.2

  /** Too low an accuracy pulls the difficulty down, too high pushes it up, in between nothing. */
  function AccuracyTerm(c: AdaptiveConfig, accuracy: real): (r: real)
    ensures accuracy < c.thresholds.accuracyTooLow ==> r == -(c.factors.accuracy * c.sensitivity)
    ensures c.thresholds.accuracyTooLow <= accuracy <= c.thresholds.accuracyTooHigh ==> r == 0.0
    ensures accuracy >= c.thresholds.accuracyTooLow && accuracy > c.thresholds.accuracyTooHigh ==>
      r == c.factors.accuracy * c.sensitivity
  {
    if accuracy < c.thresholds.accuracyTooLow then -(c.factors.accuracy * c.sensitivity)
    else if accuracy > c.thresholds.accuracyTooHigh then c.factors.accuracy * c.sensitivity
    else 0.0
  }

  /** Slow answers pull the difficulty down, fast ones push it up. */
  function SpeedTerm(c: AdaptiveConfig, averageTime: real): (r: real)
    ensures averageTime > c.thresholds.speedTooSlow ==> r == -(c.factors.speed * c.sensitivity)
    ensures c.thresholds.speedTooFast <= averageTime <= c.thresholds.speedTooSlow ==> r == 0.0
    ensures averageTime <= c.thresholds.speedTooSlow && averageTime < c.thresholds.speedTooFast ==>
      r == c.factors.speed * c.sensitivity
  {
    if averageTime > c.thresholds.speedTooSlow then -(c.factors.speed * c.sensitivity)
    else if averageTime < c.thresholds.speedTooFast then c.factors.speed * c.sensitivity
    else 0.0
  }

  /** A streak far enough from the target moves the difficulty in proportion to the distance. */
  function StreakTerm(c: AdaptiveConfig, streak: int): (r: real)
    ensures Abs(streak as real - c.thresholds.streakTarget) <= c.thresholds.streakTolerance ==> r == 0.0
    ensures Abs(streak as real - c.thresholds.streakTarget) > c.thresholds.streakTolerance && c.thresholds.streakTarget != 0.0 ==>
      r == (streak as real - c.thresholds.streakTarget) / c.thresholds.streakTarget * c.factors.streak * c.sensitivity
  {
    var diff := streak as real - c.thresholds.streakTarget;
    if Abs(diff) > c.thresholds.streakTolerance && c.thresholds.streakTarget != 0.0 then
      diff / c.thresholds.streakTarget * c.factors.streak * c.sensitivity
    else 0.0
  }

  function Abs(x: real): (r: real)
    ensures r >= 0.0 && (r == x || r == -x)
  {
    if x < 0.0 then -x else x
  }

  /** calculateDifficultyAdjustment: no configuration or a disabled mode gives 0; otherwise the clamped sum of the terms. */
  function DifficultyAdjustment(config: Option<AdaptiveConfig>, p: Performance): (r: real)
    ensures -MaxAdjustment <= r <= MaxAdjustment
    ensures config.None? || config.value.mode == Disabled ==> r == 0.0
  {
    match config
    case None => 0.0
    case Some(c) =>
      if c.mode == Disabled then 0.0
      else MaxReal(-MaxAdjustment, MinReal(MaxAdjustment,
        AccuracyTerm(c, p.accuracy) + SpeedTerm(c, p.averageTime) + StreakTerm(c, p.currentStreak)))
  }

  /**
   * With non-negative weights, a better accuracy never lowers the
   * adjustment, all else equal.
   */
  lemma AdjustmentMonotoneInAccuracy(c: AdaptiveConfig, p: Performance, better: real)
    requires c.factors.accuracy >= 0.0 && c.sensitivity >= 0.0
    requires c.thresholds.accuracyTooLow <= c.thresholds.accuracyTooHigh
    requires p.accuracy <= better
    ensures DifficultyAdjustment(Some(c), p) <= DifficultyAdjustment(Some(c), p.(accuracy := better))
  {
    var w := c.factors.accuracy * c.sensitivity;
    assert w >= 0.0 by { MulNonNegative(c.factors.accuracy, c.sensitivity); }
    assert AccuracyTerm(c, p.accuracy) <= AccuracyTerm(c, better);
  }

  lemma MulNonNegative(x: real, y: real)
    requires x >= 0.0 && y >= 0.0
    ensures x * y >= 0.0
  {
  }

  /** A performance inside every band leaves the difficulty as it is. */
  lemma AdjustmentZeroInsideBands(c: AdaptiveConfig, p: Performance)
    requires c.thresholds.accuracyTooLow <= p.accuracy <= c.thresholds.accuracyTooHigh
    requires c.thresholds.speedTooFast <= p.averageTime <= c.thresholds.speedTooSlow
    requires Abs(p.currentStreak as real - c.thresholds.streakTarget) <= c.thresholds.streakTolerance
    ensures DifficultyAdjustment(Some(c), p) == 0.0
  {
  }

  /** With the default configuration: low accuracy alone lowers the difficulty by 0.2, high accuracy alone raises it by 0.2. */
  lemma DefaultAdjustments()
    ensures DifficultyAdjustment(Some(DefaultAdaptive), Performance(0.5, 10.0, 5)) == -0.2
    ensures DifficultyAdjustment(Some(DefaultAdaptive), Performance(0.95, 10.0, 5)) == 0.2
    ensures DifficultyAdjustment(Some(DefaultAdaptive), Performance(0.75, 10.0, 9)) == 0.08
  {
  }

  // ---- learning preferences ---------------------------------------------------

  datatype LearningMode = Visual | Auditory | Kinesthetic | ReadingWriting

  datatype Preferences = Preferences(
    learningStyle: LearningMode,
    preferredPace: string,
    difficultyPreference: string,
    sessionLength: int,
    breakFrequency: int,
    competitiveMode: bool,
    lastUpdated: int,
    version: string)

  datatype PreferencesPatch = PreferencesPatch(
    learningStyle: Option<LearningMode>,
    preferredPace: Option<string>,
    difficultyPreference: Option<string>,
    sessionLength: Option<int>,
    breakFrequency: Option<int>,
    competitiveMode: Option<bool>,
    lastUpdated: Option<int>)

  function DefaultPreferences(now: int): Preferences
  {
    Preferences(Visual, "normal", "balanced", 30, 15, false, now, "1.0")
  }

  /** `{ ...prefs, ...updates, lastUpdated: now }`: the update's fields win, except the time stamp. */
  function UpdatedPreferences(prefs: Preferences, updates: PreferencesPatch, now: int): (r: Preferences)
    ensures r.learningStyle == Pick(updates.learningStyle, prefs.learningStyle)
    ensures r.preferredPace == Pick(updates.preferredPace, prefs.preferredPace)
    ensures r.difficultyPreference == Pick(updates.difficultyPreference, prefs.difficultyPreference)
    ensures r.sessionLength == Pick(updates.sessionLength, prefs.sessionLength)
    ensures r.breakFrequency == Pick(updates.breakFrequency, prefs.breakFrequency)
    ensures r.competitiveMode == Pick(updates.competitiveMode, prefs.competitiveMode)
    ensures r.lastUpdated == now && r.version == prefs.version
  {
    Preferences(Pick(updates.learningStyle, prefs.learningStyle), Pick(updates.preferredPace, prefs.preferredPace),
      Pick(updates.difficultyPreference, prefs.difficultyPreference), Pick(updates.sessionLength, prefs.sessionLength),
      Pick(updates.breakFrequency, prefs.breakFrequency), Pick(updates.competitiveMode, prefs.competitiveMode),
      now, prefs.version)
  }

  // ---- theme editor ------------------------------------------------------------

  datatype Snapshot = Snapshot(id: string, theme: Theme, timestamp: int)

  datatype ThemeEditor = ThemeEditor(
    currentTheme: Theme,
    originalTheme: Theme,
    hasChanges: bool,
    history: seq<Snapshot>,
    historyIndex: int,
    maxHistorySize: nat,
    previewMode: bool)

  function OpenedEditor(base: Theme): (r: ThemeEditor)
    ensures r.currentTheme == base && r.originalTheme == base && !r.hasChanges && r.history == [] && r.historyIndex == -1
  {
    ThemeEditor(base, base, false, [], -1, 50, false)
  }

  /** updateThemeInEditor: the previous theme becomes the newest snapshot, the history index points at it. */
  function EditedEditor(e: ThemeEditor, changes: ThemePatch, now: int): (r: ThemeEditor)
    ensures r.history == e.history + [Snapshot("snapshot_" + IntToString(now), e.currentTheme, now)]
    ensures r.currentTheme == Patched(e.currentTheme, changes).(updatedAt := now)
    ensures r.hasChanges && r.historyIndex == |r.history| - 1 && r.originalTheme == e.originalTheme
  {
    var history := e.history + [Snapshot("snapshot_" + IntToString(now), e.currentTheme, now)];
    e.(history := history, currentTheme := Patched(e.currentTheme, changes).(updatedAt := now), hasChanges := true,
       historyIndex := |history| - 1)
  }

  /** The history index of an editor points at its newest snapshot, or is -1 before the first edit. */
  predicate IndexAtNewest(e: ThemeEditor)
  {
    e.historyIndex == |e.history| - 1
  }

  /** Each edit adds one snapshot holding the theme it replaced, so the latest snapshot restores the previous theme. */
  lemma EditKeepsUndo(e: ThemeEditor, changes: ThemePatch, now: int)
    requires IndexAtNewest(e)
    ensures var r := EditedEditor(e, changes, now);
      IndexAtNewest(r) && |r.history| == |e.history| + 1 && r.history[r.historyIndex].theme == e.currentTheme
      && r.history[..|e.history|] == e.history
  {
  }

  const NoEditorMessage := "Aucun éditeur de thème ouvert"

  /** The message setTheme and createCustomTheme raise for an unknown theme. */
  function UnknownThemeMessage(themeId: string): string
  {
    "Thème introuvable: " + themeId
  }

  function UnknownBaseThemeMessage(themeId: string): string
  {
    "Thème de base introuvable: " + themeId
  }

  // ---- the service -------------------------------------------------------------

  class CustomizationService {
    var currentTheme: Option<Theme>
    var audio: Option<AudioConfig>
    var adaptive: Option<AdaptiveConfig>
    var preferences: Option<Preferences>
    var editor: Option<ThemeEditor>
    var themes: map<string, Theme>

    /** Themes are registered under their own identifiers, and the current theme is one of them by identifier. */
    predicate Valid()
      reads this
    {
      KeyedById(themes) && currentTheme.Some? && currentTheme.value.id in themes
    }

    /** The service as initialised with nothing stored: the built-in themes, light current, the default settings. */
    constructor(now: int)
      ensures Valid()
      ensures themes == Register(map[], DefaultThemes(now)) && currentTheme == Some(DefaultThemes(now)[0])
      ensures audio == Some(DefaultAudio) && adaptive == Some(DefaultAdaptive)
      ensures preferences == Some(DefaultPreferences(now)) && editor.None?
    {
      var defaults := DefaultThemes(now);
      RegisterKeyedById(map[], defaults);
      themes := Register(map[], defaults);
      currentTheme := Some(defaults[0]);
      audio := Some(DefaultAudio);
      adaptive := Some(DefaultAdaptive);
      preferences := Some(DefaultPreferences(now));
      editor := None;
    }

    /** setTheme: an unknown identifier is an error; otherwise that theme becomes current. */
    method SetTheme(themeId: string) returns (r: Result<()>)
      requires Valid()
      modifies this
      ensures Valid()
      ensures themeId !in old(themes) ==> r == Err(UnknownThemeMessage(themeId)) && unchanged(this)
      ensures themeId in old(themes) ==> r.Ok? && currentTheme == Some(old(themes)[themeId])
      ensures themes == old(themes) && audio == old(audio) && editor == old(editor) && preferences == old(preferences)
      ensures adaptive == old(adaptive)
    {
      if themeId !in themes {
        return Err(UnknownThemeMessage(themeId));
      }
      currentTheme := Some(themes[themeId]);
      return Ok(());
    }

    /** createCustomTheme: a theme derived from a registered base, registered under its own identifier. */
    method CreateCustomTheme(name: string, baseThemeId: string, customizations: ThemePatch, now: int)
      returns (r: Result<Theme>)
      requires Valid()
      modifies this
      ensures Valid()
      ensures baseThemeId !in old(themes) ==> r == Err(UnknownBaseThemeMessage(baseThemeId)) && unchanged(this)
      ensures baseThemeId in old(themes) ==>
        && r == Ok(CustomTheme(old(themes)[baseThemeId], name, customizations, now))
        && themes == old(themes)[r.value.id := r.value]
      ensures currentTheme == old(currentTheme) && audio == old(audio) && editor == old(editor)
      ensures preferences == old(preferences) && adaptive == old(adaptive)
    {
      if baseThemeId !in themes {
        return Err(UnknownBaseThemeMessage(baseThemeId));
      }
      var theme := CustomTheme(themes[baseThemeId], name, customizations, now);
      themes := themes[theme.id := theme];
      return Ok(theme);
    }

    /** updateSoundVolume: the clamped volume, when there is an audio configuration. */
    method UpdateSoundVolume(soundType: SoundType, volume: real)
      modifies this
      ensures old(audio).None? ==> unchanged(this)
      ensures old(audio).Some? ==>
        audio == Some(old(audio).value.(volumes := old(audio).value.volumes[soundType := UnitVolume(volume)]))
      ensures currentTheme == old(currentTheme) && themes == old(themes) && editor == old(editor)
      ensures preferences == old(preferences) && adaptive == old(adaptive)
    {
      if audio.None? {
        return;
      }
      var config := audio.value;
      audio := Some(config.(volumes := config.volumes[soundType := MaxReal(0.0, MinReal(1.0, volume))]));
    }

    /** updateMasterVolume: the clamped volume, when there is an audio configuration. */
    method UpdateMasterVolume(volume: real)
      modifies this
      ensures old(audio).None? ==> unchanged(this)
      ensures old(audio).Some? ==> audio == Some(old(audio).value.(masterVolume := UnitVolume(volume)))
      ensures currentTheme == old(currentTheme) && themes == old(themes) && editor == old(editor)
      ensures preferences == old(preferences) && adaptive == old(adaptive)
    {
      if audio.None? {
        return;
      }
      audio := Some(audio.value.(masterVolume := MaxReal(0.0, MinReal(1.0, volume))));
    }

    /** calculateDifficultyAdjustment on the service's configuration. */
    function CalculateDifficultyAdjustment(p: Performance): (r: real)
      reads this
      ensures -MaxAdjustment <= r <= MaxAdjustment
      ensures adaptive.None? ==> r == 0.0
    {
      DifficultyAdjustment(adaptive, p)
    }

    /** updateLearningPreferences: the updates over the current (or default) preferences, stamped `now`. */
    method UpdateLearningPreferences(updates: PreferencesPatch, now: int)
      modifies this
      ensures preferences == Some(UpdatedPreferences(Pick(old(preferences), DefaultPreferences(now)), updates, now))
      ensures currentTheme == old(currentTheme) && themes == old(themes) && editor == old(editor)
      ensures audio == old(audio) && adaptive == old(adaptive)
    {
      var prefs := if preferences.Some? then preferences.value else DefaultPreferences(now);
      preferences := Some(UpdatedPreferences(prefs, updates, now));
    }

    /**
     * openThemeEditor: edits a copy of the named theme, or of the current
     * theme when the identifier is missing, empty or unknown.
     */
    method OpenThemeEditor(themeId: Option<string>) returns (e: ThemeEditor)
      requires Valid()
      modifies this
      ensures Valid()
      ensures var named := themeId.Some? && themeId.value != "" && themeId.value in old(themes);
        e == OpenedEditor(if named then old(themes)[themeId.value] else old(currentTheme).value)
      ensures editor == Some(e) && IndexAtNewest(e)
      ensures currentTheme == old(currentTheme) && themes == old(themes) && audio == old(audio)
      ensures preferences == old(preferences) && adaptive == old(adaptive)
    {
      var base := currentTheme.value;
      if themeId.Some? && themeId.value != "" && themeId.value in themes {
        base := themes[themeId.value];
      }
      e := ThemeEditor(base, base, false, [], -1, 50, false);
      editor := Some(e);
    }

    /** updateThemeInEditor: nothing without an editor; otherwise the edit, with the previous theme saved. */
    method UpdateThemeInEditor(changes: ThemePatch, now: int)
      modifies this
      ensures old(editor).None? ==> unchanged(this)
      ensures old(editor).Some? ==> editor == Some(EditedEditor(old(editor).value, changes, now))
      ensures currentTheme == old(currentTheme) && themes == old(themes) && audio == old(audio)
      ensures preferences == old(preferences) && adaptive == old(adaptive)
    {
      if editor.None? {
        return;
      }
      var e := editor.value;
      var history := e.history + [Snapshot("snapshot_" + IntToString(now), e.currentTheme, now)];
      editor := Some(e.(history := history, currentTheme := Patched(e.currentTheme, changes).(updatedAt := now),
        hasChanges := true, historyIndex := |history| - 1));
    }

    /** saveThemeFromEditor: an error without an editor; otherwise the edited theme is registered under its identifier. */
    method SaveThemeFromEditor() returns (r: Result<Theme>)
      requires Valid()
      modifies this
      ensures Valid()
      ensures old(editor).None? ==> r == Err(NoEditorMessage) && unchanged(this)
      ensures old(editor).Some? ==>
        var t := old(editor).value.currentTheme;
        && r == Ok(t)
        && themes == old(themes)[t.id := t]
        && editor == Some(old(editor).value.(hasChanges := false, originalTheme := t))
      ensures currentTheme == old(currentTheme) && audio == old(audio)
      ensures preferences == old(preferences) && adaptive == old(adaptive)
    {
      if editor.None? {
        return Err(NoEditorMessage);
      }
      var e := editor.value;
      var theme := e.currentTheme;
      themes := themes[theme.id := theme];
      editor := Some(e.(hasChanges := false, originalTheme := theme));
      return Ok(theme);
    }
  }
}
