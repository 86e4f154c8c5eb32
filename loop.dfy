/** The per-tick controller of the keyboard-sound player: the state the main
    loop carries from one poll of the keyboard to the next, the specification
    of one tick as a function (`Step`), a run of ticks (`Run`), and the
    controller object whose `Tick` method performs one tick in place. */
module Loop {
  import opened Config
  import opened Bindings
  import opened PackIndex
  import opened Pitch

  /** The loop's mutable state. `toggled` and `switchedPack` latch the toggle
      and pack-switch actions until a tick with no keys held. */
  datatype LoopState = LoopState(
    active: bool,
    toggled: bool,
    switchedPack: bool,
    currentSoundPack: nat,
    previousKeyAmt: nat,
    pitch: real)

  /** What one tick asks of the outside world: end the process, play clip
      `clip` of pack `pack` at the given speed and gain, or nothing. */
  datatype Outcome =
    | Terminate
    | Play(pack: nat, clip: nat, speed: real, volume: real)
    | Nothing

  /** The inputs of one tick: the names of the keys held, whether the time
      since the previous press is below the pack's fast threshold, and the
      uniform random draw in [0, 1) that picks the clip. */
  datatype TickInput = TickInput(keys: seq<Key>, fast: bool, draw: real)

  /** The state after a tick, its outcome, and the console lines it prints. */
  datatype TickResult = TickResult(state: LoopState, outcome: Outcome, messages: seq<string>)

  const TerminatedMessage: string := "Program terminated!"
  const ToggledMessage: string := "Toggled keyboard sound effects."

  function ChangedMessage(pack: SoundPackSettings): string {
    "Changed sound pack to \"" + GetName(pack) + "\""
  }

  /** At least one pack is configured, one clip count per configured pack, and
      every pack holds at least one clip. */
  predicate ConfigOk(settings: Settings, packSizes: seq<nat>) {
    |packSizes| == |settings.soundPacks| && |packSizes| > 0 &&
    forall i :: 0 <= i < |packSizes| ==> packSizes[i] > 0
  }

  predicate StateOk(settings: Settings, packSizes: seq<nat>, s: LoopState) {
    ConfigOk(settings, packSizes) && s.currentSoundPack < |packSizes|
  }

  predicate ValidDraw(draw: real) {
    0.0 <= draw < 1.0
  }

  /** A binding is configured and the held keys match it. */
  predicate BindingHeld(binding: Option<seq<Key>>, keys: seq<Key>) {
    binding.Some? && Matches(binding.value, keys)
  }

  /** The clip index picked by a draw: the draw scaled by the pack size and
      truncated, which is always a valid index. */
  function Clip(draw: real, size: nat): (c: nat)
    requires ValidDraw(draw) && size > 0
    ensures c < size
  {
    assert draw * size as real < size as real by {
      assert (1.0 - draw) * size as real > 0.0;
    }
    (draw * size as real).Floor
  }

  /** The state before the first tick: active, nothing latched, the first pack,
      no keys counted, and the global start pitch (or 0.5). */
  function InitialState(settings: Settings): LoopState {
    LoopState(true, false, false, 0, 0, UnwrapOr(settings.pitchStart, DefaultPitchStart))
  }

  // The stages of one tick, in the loop's order.

  function ToggleStage(settings: Settings, s: LoopState, keys: seq<Key>): (LoopState, seq<string>) {
    if !s.toggled && BindingHeld(settings.toggle, keys) then
      (s.(toggled := true, active := !s.active), [ToggledMessage])
    else (s, [])
  }

  function ReleaseStage(s: LoopState, keys: seq<Key>): LoopState {
    if |keys| == 0 then s.(toggled := false, switchedPack := false) else s
  }

  function PreviousStage(settings: Settings, packSizes: seq<nat>, s: LoopState, keys: seq<Key>): (LoopState, seq<string>)
    requires StateOk(settings, packSizes, s)
  {
    if !s.switchedPack && BindingHeld(settings.previousSoundPack, keys) then
      var c := PrevPackAsWritten(s.currentSoundPack, |packSizes|);
      (s.(switchedPack := true, currentSoundPack := c), [ChangedMessage(settings.soundPacks[c])])
    else (s, [])
  }

  function NextStage(settings: Settings, packSizes: seq<nat>, s: LoopState, keys: seq<Key>): (LoopState, seq<string>)
    requires StateOk(settings, packSizes, s)
  {
    if !s.switchedPack && BindingHeld(settings.nextSoundPack, keys) then
      var c := NextPack(s.currentSoundPack, |packSizes|);
      (s.(switchedPack := true, currentSoundPack := c), [ChangedMessage(settings.soundPacks[c])])
    else (s, [])
  }

  /** A played clip comes from the current pack, at the pitch the press gives
      under that pack's resolved parameters, and at that pack's volume. */
  function PlayStage(settings: Settings, packSizes: seq<nat>, s: LoopState, input: TickInput): (r: (LoopState, Outcome))
    requires StateOk(settings, packSizes, s) && ValidDraw(input.draw)
    ensures r.0.previousKeyAmt == |input.keys|
    ensures r.1.Play? <==> |input.keys| > s.previousKeyAmt
    ensures r.1.Play? ==>
      var p := ResolveParams(settings, settings.soundPacks[s.currentSoundPack]);
      r.1.pack == s.currentSoundPack && r.1.clip < packSizes[s.currentSoundPack] &&
      r.1.volume == p.volume &&
      r.1.speed == UpdatePitch(s.pitch, p.pitchStart, p.pitchRange, p.pitchSteps, input.fast) &&
      r.0.pitch == r.1.speed
    ensures !r.1.Play? ==> r.0.pitch == s.pitch
    ensures r.0.active == s.active && r.0.currentSoundPack == s.currentSoundPack
  {
    if |input.keys| > s.previousKeyAmt then
      var pack := s.currentSoundPack;
      var p := ResolveParams(settings, settings.soundPacks[pack]);
      var pitch := UpdatePitch(s.pitch, p.pitchStart, p.pitchRange, p.pitchSteps, input.fast);
      (s.(pitch := pitch, previousKeyAmt := |input.keys|),
       Play(pack, Clip(input.draw, packSizes[pack]), pitch, p.volume))
    else (s.(previousKeyAmt := |input.keys|), Nothing)
  }

  /** One tick of the main loop. */
  function Step(settings: Settings, packSizes: seq<nat>, s: LoopState, input: TickInput): (r: TickResult)
    requires StateOk(settings, packSizes, s) && ValidDraw(input.draw)
    ensures StateOk(settings, packSizes, r.state)
    // terminate is checked first and changes nothing else
    ensures r.outcome.Terminate? <==> BindingHeld(settings.terminate, input.keys)
    ensures r.outcome.Terminate? ==> r.state == s
    // the pack index moves at most one place per tick, and only through a switch
    // that was not latched (or whose latch this tick's release cleared)
    ensures r.state.currentSoundPack == s.currentSoundPack ||
            ((!s.switchedPack || |input.keys| == 0) && r.state.switchedPack &&
             (r.state.currentSoundPack == PrevPackAsWritten(s.currentSoundPack, |packSizes|) ||
              r.state.currentSoundPack == NextPack(s.currentSoundPack, |packSizes|)))
    // an inactive tick plays nothing and leaves the key count as it was
    ensures !r.outcome.Terminate? && !r.state.active ==>
              r.outcome == Nothing && r.state.previousKeyAmt == s.previousKeyAmt
    // an active tick plays exactly when more keys are held than before, then records the count
    ensures !r.outcome.Terminate? && r.state.active ==>
              r.state.previousKeyAmt == |input.keys| &&
              (r.outcome.Play? <==> |input.keys| > s.previousKeyAmt)
    // a played clip comes from the current pack, at the new pitch
    ensures r.outcome.Play? ==>
              r.outcome.pack == r.state.currentSoundPack &&
              r.outcome.clip < packSizes[r.outcome.pack] &&
              r.outcome.speed == r.state.pitch
    ensures !r.outcome.Play? ==> r.state.pitch == s.pitch
  {
    if BindingHeld(settings.terminate, input.keys) then
      TickResult(s, Terminate, [TerminatedMessage])
    else
      var (s1, m1) := ToggleStage(settings, s, input.keys);
      var s2 := ReleaseStage(s1, input.keys);
      var (s3, m3) := PreviousStage(settings, packSizes, s2, input.keys);
      var (s4, m4) := NextStage(settings, packSizes, s3, input.keys);
      if !s4.active then
        TickResult(s4, Nothing, m1 + m3 + m4)
      else
        var (s5, outcome) := PlayStage(settings, packSizes, s4, input);
        TickResult(s5, outcome, m1 + m3 + m4)
  }

  /** A clip played by a tick carries the resolved volume of the pack it comes
      from, and the speed the pitch update gives from the pitch before the
      tick under that pack's resolved start, range and step. */
  lemma StepPlaysResolvedParams(settings: Settings, packSizes: seq<nat>, s: LoopState, input: TickInput)
    requires StateOk(settings, packSizes, s) && ValidDraw(input.draw)
    ensures var r := Step(settings, packSizes, s, input);
      r.outcome.Play? ==>
        var p := ResolveParams(settings, settings.soundPacks[r.outcome.pack]);
        r.outcome.volume == p.volume &&
        r.outcome.speed == UpdatePitch(s.pitch, p.pitchStart, p.pitchRange, p.pitchSteps, input.fast)
  {
    if !BindingHeld(settings.terminate, input.keys) {
      var (s1, m1) := ToggleStage(settings, s, input.keys);
      var s2 := ReleaseStage(s1, input.keys);
      var (s3, m3) := PreviousStage(settings, packSizes, s2, input.keys);
      var (s4, m4) := NextStage(settings, packSizes, s3, input.keys);
      assert s4.pitch == s.pitch;
      if s4.active {
        var r5 := PlayStage(settings, packSizes, s4, input);
        assert Step(settings, packSizes, s, input).outcome == r5.1;
      }
    }
  }

  predicate ValidDraws(inputs: seq<TickInput>) {
    forall i :: 0 <= i < |inputs| ==> ValidDraw(inputs[i].draw)
  }

  /** The state after a sequence of ticks; a terminating tick ends the run. */
  function Run(settings: Settings, packSizes: seq<nat>, s: LoopState, inputs: seq<TickInput>): (r: LoopState)
    requires StateOk(settings, packSizes, s) && ValidDraws(inputs)
    ensures StateOk(settings, packSizes, r)
    decreases |inputs|
  {
    if |inputs| == 0 then s
    else
      var t := Step(settings, packSizes, s, inputs[0]);
      if t.outcome.Terminate? then t.state
      else Run(settings, packSizes, t.state, inputs[1..])
  }

  /** The controller: the loop's state as fields, updated in place once per
      tick, with the immutable settings and each pack's clip count. */
  class Controller {
    const settings: Settings
    const packSizes: seq<nat>
    var active: bool
    var toggled: bool
    var switchedPack: bool
    var currentSoundPack: nat
    var previousKeyAmt: nat
    var pitch: real

    function State(): LoopState
      reads this
    {
      LoopState(active, toggled, switchedPack, currentSoundPack, previousKeyAmt, pitch)
    }

    ghost predicate Valid()
      reads this
    {
      StateOk(settings, packSizes, State())
    }

    constructor (settings: Settings, packSizes: seq<nat>)
      requires ConfigOk(settings, packSizes)
      ensures this.settings == settings && this.packSizes == packSizes
      ensures Valid() && State() == InitialState(settings)
    {
      this.settings := settings;
      this.packSizes := packSizes;
      active := true;
      previousKeyAmt := 0;
      pitch := UnwrapOr(settings.pitchStart, DefaultPitchStart);
      toggled := false;
      switchedPack := false;
      currentSoundPack := 0;
    }

    /** The toggle binding flips `active` once per press. */
    method ApplyToggle(keys: seq<Key>) returns (messages: seq<string>)
      requires Valid()
      modifies this
      ensures Valid()
      ensures (State(), messages) == ToggleStage(settings, old(State()), keys)
    {
      messages := [];
      if settings.toggle.Some? {
        var keybind := settings.toggle.value;
        if !toggled && Matches(keybind, keys) {
          toggled := true;
          active := !active;
          messages := [ToggledMessage];
        }
      }
    }

    /** Releasing every key clears both latches. */
    method ApplyRelease(keys: seq<Key>)
      requires Valid()
      modifies this
      ensures Valid()
      ensures State() == ReleaseStage(old(State()), keys)
    {
      if |keys| == 0 {
        toggled := false;
        switchedPack := false;
      }
    }

    /** The previous-pack binding steps back one pack, unless a switch is
        latched; as written, the first pack stays where it is. */
    method ApplyPrevious(keys: seq<Key>) returns (messages: seq<string>)
      requires Valid()
      modifies this
      ensures Valid()
      ensures (State(), messages) == PreviousStage(settings, packSizes, old(State()), keys)
    {
      messages := [];
      if settings.previousSoundPack.Some? {
        var keybind := settings.previousSoundPack.value;
        if !switchedPack && Matches(keybind, keys) {
          switchedPack := true;
          currentSoundPack := PrevPackAsWritten(currentSoundPack, |packSizes|);
          messages := [ChangedMessage(settings.soundPacks[currentSoundPack])];
        }
      }
    }

    /** The next-pack binding steps forward one pack, unless a switch is latched. */
    method ApplyNext(keys: seq<Key>) returns (messages: seq<string>)
      requires Valid()
      modifies this
      ensures Valid()
      ensures (State(), messages) == NextStage(settings, packSizes, old(State()), keys)
    {
      messages := [];
      if settings.nextSoundPack.Some? {
        var keybind := settings.nextSoundPack.value;
        if !switchedPack && Matches(keybind, keys) {
          switchedPack := true;
          currentSoundPack := NextPack(currentSoundPack, |packSizes|);
          messages := [ChangedMessage(settings.soundPacks[currentSoundPack])];
        }
      }
    }

    /** A rise in the number of held keys plays one clip; the count is recorded. */
    method ApplyPlay(keys: seq<Key>, fast: bool, draw: real) returns (outcome: Outcome)
      requires Valid() && ValidDraw(draw)
      modifies this
      ensures Valid()
      ensures (State(), outcome) == PlayStage(settings, packSizes, old(State()), TickInput(keys, fast, draw))
    {
      if |keys| > previousKeyAmt {
        var selection := Clip(draw, packSizes[currentSoundPack]);
        var params := ResolveParams(settings, settings.soundPacks[currentSoundPack]);
        if pitch < params.pitchStart + params.pitchRange && fast {
          pitch := pitch + params.pitchSteps;
        } else if !fast {
          pitch := params.pitchStart;
        }
        outcome := Play(currentSoundPack, selection, pitch, params.volume);
      } else {
        outcome := Nothing;
      }
      previousKeyAmt := |keys|;
    }

    /** One pass of the main loop over the keys held now. */
    method Tick(keys: seq<Key>, fast: bool, draw: real) returns (outcome: Outcome, messages: seq<string>)
      requires Valid() && ValidDraw(draw)
      modifies this
      ensures Valid()
      ensures TickResult(State(), outcome, messages) ==
              Step(settings, packSizes, old(State()), TickInput(keys, fast, draw))
    {
      if settings.terminate.Some? {
        var keybind := settings.terminate.value;
        if Matches(keybind, keys) {
          return Terminate, [TerminatedMessage];
        }
      }
      var toggleMessages := ApplyToggle(keys);
      ApplyRelease(keys);
      var previousMessages := ApplyPrevious(keys);
      var nextMessages := ApplyNext(keys);
      messages := toggleMessages + previousMessages + nextMessages;
      if !active {
        return Nothing, messages;
      }
      outcome := ApplyPlay(keys, fast, draw);
    }
  }
}
