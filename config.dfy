/** The immutable configuration of the keyboard-sound player: the per-pack
    settings (a bare path or an advanced record), the global settings, and the
    pure helpers that read them (the pack path, the pack's display name and the
    effective playback parameters). */
module Config {

  datatype Option<T> = None | Some(value: T)

  /** The value if present, else the default. */
  function UnwrapOr<T>(opt: Option<T>, default: T): (r: T)
    ensures opt.Some? ==> r == opt.value
    ensures opt.None? ==> r == default
  {
    match opt
    case Some(v) => v
    case None => default
  }

  /** A configured sound pack: either a bare directory path, or a record whose
      `name` is the directory path and whose optional fields override the
      global playback parameters for this pack. Floats are modelled as reals. */
  datatype SoundPackSettings =
    | Basic(path: string)
    | Advanced(name: string,
               volume: Option<real>,
               pitchStart: Option<real>,
               pitchRange: Option<real>,
               pitchSteps: Option<real>,
               fastThreshold: Option<real>)

  /** The whole configuration. A binding is the list of key names that must be
      held, and only those, for the bound action to fire. */
  datatype Settings = Settings(
    soundPacks: seq<SoundPackSettings>,
    previousSoundPack: Option<seq<string>>,
    nextSoundPack: Option<seq<string>>,
    terminate: Option<seq<string>>,
    toggle: Option<seq<string>>,
    volume: Option<real>,
    pitchStart: Option<real>,
    pitchRange: Option<real>,
    pitchSteps: Option<real>,
    fastThreshold: Option<real>)

  // Hard-coded fallbacks used when neither the pack nor the global settings give a value.
  const DefaultVolume: real := 1.0
  const DefaultPitchStart: real := 0.5
  const DefaultPitchRange: real := 0.5
  const DefaultPitchSteps: real := 0.005
  const DefaultFastThreshold: real := 1.0

  /** The directory of a pack: the bare path, or the `name` field of the record form. */
  function GetPath(pack: SoundPackSettings): (p: string)
    ensures pack.Basic? ==> p == pack.path
    ensures pack.Advanced? ==> p == pack.name
  {
    match pack
    case Basic(path) => path
    case Advanced(name, _, _, _, _, _) => name
  }

  predicate IsSeparator(c: char) {
    c == '/' || c == '\\'
  }

  /** The number of characters after the last separator of `s`, or None when
      `s` holds no separator. */
  function RevPosition(s: string): (r: Option<nat>)
    ensures r.Some? ==> r.value < |s| && IsSeparator(s[|s| - 1 - r.value])
    ensures r.Some? ==> forall j :: |s| - r.value <= j < |s| ==> !IsSeparator(s[j])
    ensures r.None? ==> forall j :: 0 <= j < |s| ==> !IsSeparator(s[j])
  {
    if |s| == 0 then None
    else if IsSeparator(s[|s| - 1]) then Some(0)
    else
      match RevPosition(s[..|s| - 1])
      case None => None
      case Some(k) => Some(k + 1)
  }

  /** The display name of a pack: its path from the last separator on, the
      separator itself included, or the whole path when it has none. */
  function GetName(pack: SoundPackSettings): (name: string)
    ensures var p := GetPath(pack);
      |name| <= |p| && name == p[|p| - |name|..]
    ensures var p := GetPath(pack);
      (exists j :: 0 <= j < |p| && IsSeparator(p[j])) ==>
        |name| > 0 && IsSeparator(name[0]) &&
        forall j :: 1 <= j < |name| ==> !IsSeparator(name[j])
    ensures var p := GetPath(pack);
      (forall j :: 0 <= j < |p| ==> !IsSeparator(p[j])) ==> name == p
  {
    var path := GetPath(pack);
    match RevPosition(path)
    case Some(idx) => path[|path| - idx - 1..]
    case None => path
  }

  /** The effective playback parameters of a pack. */
  datatype Params = Params(volume: real, pitchStart: real, pitchRange: real,
                           pitchSteps: real, fastThreshold: real)

  /** Resolves each parameter with three levels of fallback: the pack's own value
      (advanced form only), else the global value, else the hard-coded default. */
  function ResolveParams(settings: Settings, pack: SoundPackSettings): (p: Params)
    ensures p.volume ==
      if pack.Advanced? && pack.volume.Some? then pack.volume.value
      else if settings.volume.Some? then settings.volume.value
      else DefaultVolume
    ensures p.pitchStart ==
      if pack.Advanced? && pack.pitchStart.Some? then pack.pitchStart.value
      else if settings.pitchStart.Some? then settings.pitchStart.value
      else DefaultPitchStart
    ensures p.pitchRange ==
      if pack.Advanced? && pack.pitchRange.Some? then pack.pitchRange.value
      else if settings.pitchRange.Some? then settings.pitchRange.value
      else DefaultPitchRange
    ensures p.pitchSteps ==
      if pack.Advanced? && pack.pitchSteps.Some? then pack.pitchSteps.value
      else if settings.pitchSteps.Some? then settings.pitchSteps.value
      else DefaultPitchSteps
    ensures p.fastThreshold ==
      if pack.Advanced? && pack.fastThreshold.Some? then pack.fastThreshold.value
      else if settings.fastThreshold.Some? then settings.fastThreshold.value
      else DefaultFastThreshold
  {
    match pack
    case Advanced(_, a, b, c, d, e) =>
      Params(UnwrapOr(a, UnwrapOr(settings.volume, DefaultVolume)),
             UnwrapOr(b, UnwrapOr(settings.pitchStart, DefaultPitchStart)),
             UnwrapOr(c, UnwrapOr(settings.pitchRange, DefaultPitchRange)),
             UnwrapOr(d, UnwrapOr(settings.pitchSteps, DefaultPitchSteps)),
             UnwrapOr(e, UnwrapOr(settings.fastThreshold, DefaultFastThreshold)))
    case Basic(_) =>
      Params(UnwrapOr(settings.volume, DefaultVolume),
             UnwrapOr(settings.pitchStart, DefaultPitchStart),
             UnwrapOr(settings.pitchRange, DefaultPitchRange),
             UnwrapOr(settings.pitchSteps, DefaultPitchSteps),
             UnwrapOr(settings.fastThreshold, DefaultFastThreshold))
  }

  /** The settings used when no configuration file exists: one pack `assets`,
      bindings F4 (previous), F5 (next), F2 (terminate), F3 (toggle). */
  function DefaultSettings(): (s: Settings)
    ensures s.soundPacks == [Basic("assets")]
    ensures s.previousSoundPack.Some? && s.nextSoundPack.Some? && s.terminate.Some? && s.toggle.Some?
    ensures |s.previousSoundPack.value| == |s.nextSoundPack.value| == |s.terminate.value| == |s.toggle.value| == 1
    ensures ResolveParams(s, s.soundPacks[0]) ==
      Params(DefaultVolume, DefaultPitchStart, DefaultPitchRange, DefaultPitchSteps, DefaultFastThreshold)
  {
    Settings([Basic("assets")],
             Some(["F4"]), Some(["F5"]), Some(["F2"]), Some(["F3"]),
             Some(DefaultVolume), Some(DefaultPitchStart), Some(DefaultPitchRange),
             Some(DefaultPitchSteps), Some(DefaultFastThreshold))
  }

  /** A basic pack takes every parameter from the global settings, so all basic
      packs of one configuration play alike. */
  lemma BasicPacksShareParams(settings: Settings, a: string, b: string)
    ensures ResolveParams(settings, Basic(a)) == ResolveParams(settings, Basic(b))
  {
  }

  /** Setting one override of a record-form pack changes that parameter, to
      the given value, and no other. */
  lemma OverrideChangesOnlyItsField(settings: Settings, pack: SoundPackSettings, v: real)
    requires pack.Advanced?
    ensures ResolveParams(settings, pack.(volume := Some(v))) == ResolveParams(settings, pack).(volume := v)
    ensures ResolveParams(settings, pack.(pitchStart := Some(v))) == ResolveParams(settings, pack).(pitchStart := v)
    ensures ResolveParams(settings, pack.(pitchRange := Some(v))) == ResolveParams(settings, pack).(pitchRange := v)
    ensures ResolveParams(settings, pack.(pitchSteps := Some(v))) == ResolveParams(settings, pack).(pitchSteps := v)
    ensures ResolveParams(settings, pack.(fastThreshold := Some(v))) == ResolveParams(settings, pack).(fastThreshold := v)
  {
  }

  /** A record-form pack without overrides plays exactly like the bare path
      with the same directory, and is displayed the same way. */
  lemma NoOverridesActsBasic(settings: Settings, path: string)
    ensures ResolveParams(settings, Advanced(path, None, None, None, None, None)) == ResolveParams(settings, Basic(path))
    ensures GetName(Advanced(path, None, None, None, None, None)) == GetName(Basic(path))
  {
  }

  /** The default pack is displayed by its whole path. */
  lemma DefaultPackName()
    ensures GetName(DefaultSettings().soundPacks[0]) == "assets"
  {
  }

  /** The default configuration resolves to the literal defaults. */
  lemma DefaultSettingsParams()
    ensures ResolveParams(DefaultSettings(), DefaultSettings().soundPacks[0]) ==
      Params(1.0, 0.5, 0.5, 0.005, 1.0)
  {
  }

  /** The display name keeps its leading separator: "a/b" is shown as "/b". */
  lemma GetNameKeepsSeparator()
    ensures GetName(Basic("a/b")) == "/b"
  {
    var p: string := "a/b";
    assert p[..2] == "a/" && IsSeparator(p[..2][1]);
    assert RevPosition(p[..2]) == Some(0);
    assert RevPosition(p) == Some(1);
    assert p[1..] == "/b";
  }

  /** The same holds for a backslash in the record form's path. */
  lemma GetNameKeepsBackslash()
    ensures GetName(Advanced("x\\y", None, None, None, None, None)) == "\\y"
  {
    var p: string := "x\\y";
    assert p[..2] == "x\\" && IsSeparator(p[..2][1]);
    assert RevPosition(p[..2]) == Some(0);
    assert RevPosition(p) == Some(1);
    assert p[1..] == "\\y";
  }

  /** A display name is its own display name: it starts at its only separator
      (or has none), so taking the name again changes nothing. */
  lemma GetNameIdempotent(pack: SoundPackSettings)
    ensures GetName(Basic(GetName(pack))) == GetName(pack)
  {
  }
}
