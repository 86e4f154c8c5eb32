/** Properties of the main loop that span one or more ticks: the latches that
    make each toggle and each pack switch fire once per press, the release that
    re-arms them, and concrete scenarios with the default key bindings. */
module LoopProperties {
  import opened Config
  import opened Bindings
  import opened PackIndex
  import opened Loop

  /** Every tick of the run holds exactly the keys `keys`. */
  predicate AllHold(inputs: seq<TickInput>, keys: seq<Key>) {
    forall i :: 0 <= i < |inputs| ==> inputs[i].keys == keys
  }

  /** Every tick of the run holds at least one key. */
  predicate AllNonEmpty(inputs: seq<TickInput>) {
    forall i :: 0 <= i < |inputs| ==> |inputs[i].keys| > 0
  }

  /** No tick of the run holds the terminate binding. */
  predicate NoTerminate(settings: Settings, inputs: seq<TickInput>) {
    forall i :: 0 <= i < |inputs| ==> !BindingHeld(settings.terminate, inputs[i].keys)
  }

  /** A tick with no keys held clears the toggle latch, and leaves the switch
      latch set only when a pack-switch binding is itself the empty list (the
      release comes before the pack-switch checks). */
  lemma ReleaseClearsLatches(settings: Settings, packSizes: seq<nat>, s: LoopState, input: TickInput)
    requires StateOk(settings, packSizes, s) && ValidDraw(input.draw)
    requires input.keys == [] && !BindingHeld(settings.terminate, [])
    ensures var r := Step(settings, packSizes, s, input).state;
      !r.toggled &&
      (r.switchedPack <==> settings.previousSoundPack == Some([]) || settings.nextSoundPack == Some([]))
  {
  }

  /** While keys stay held, a set latch stays set and blocks its action: the
      active flag cannot flip again and the pack cannot change again. */
  lemma LatchesHoldWhileKeysHeld(settings: Settings, packSizes: seq<nat>, s: LoopState, input: TickInput)
    requires StateOk(settings, packSizes, s) && ValidDraw(input.draw)
    requires |input.keys| > 0
    ensures var r := Step(settings, packSizes, s, input).state;
      (s.toggled ==> r.toggled && r.active == s.active) &&
      (s.switchedPack ==> r.switchedPack && r.currentSoundPack == s.currentSoundPack)
  {
  }

  /** Over any run in which every tick holds some key, a latched toggle stays
      latched and the active flag does not change. */
  lemma {:induction false} LatchedToggleHeld(settings: Settings, packSizes: seq<nat>, s: LoopState,
                                             inputs: seq<TickInput>)
    requires StateOk(settings, packSizes, s) && ValidDraws(inputs)
    requires AllNonEmpty(inputs) && s.toggled
    ensures Run(settings, packSizes, s, inputs).active == s.active
    ensures Run(settings, packSizes, s, inputs).toggled
    decreases |inputs|
  {
    if |inputs| > 0 {
      var t := Step(settings, packSizes, s, inputs[0]);
      LatchesHoldWhileKeysHeld(settings, packSizes, s, inputs[0]);
      if !t.outcome.Terminate? {
        assert AllNonEmpty(inputs[1..]) by {
          forall i | 0 <= i < |inputs[1..]| ensures |inputs[1..][i].keys| > 0 {
            assert inputs[1..][i] == inputs[i + 1];
          }
        }
        LatchedToggleHeld(settings, packSizes, t.state, inputs[1..]);
      }
    }
  }

  /** Holding the toggle binding over any number of consecutive ticks flips the
      active flag exactly once and leaves the toggle latched. */
  lemma {:induction false} HeldToggleFlipsOnce(settings: Settings, packSizes: seq<nat>, s: LoopState,
                                               inputs: seq<TickInput>, keys: seq<Key>)
    requires StateOk(settings, packSizes, s) && ValidDraws(inputs)
    requires |keys| > 0 && AllHold(inputs, keys) && |inputs| > 0
    requires BindingHeld(settings.toggle, keys) && !BindingHeld(settings.terminate, keys)
    requires !s.toggled
    ensures Run(settings, packSizes, s, inputs).active == !s.active
    ensures Run(settings, packSizes, s, inputs).toggled
  {
    var t := Step(settings, packSizes, s, inputs[0]);
    assert inputs[0].keys == keys;
    assert t.state.active == !s.active && t.state.toggled;
    assert AllNonEmpty(inputs[1..]) by {
      forall i | 0 <= i < |inputs[1..]| ensures |inputs[1..][i].keys| > 0 {
        assert inputs[1..][i] == inputs[i + 1];
      }
    }
    LatchedToggleHeld(settings, packSizes, t.state, inputs[1..]);
  }

  /** Over any run in which every tick holds some key, a latched pack switch
      stays latched and the pack index does not change. */
  lemma {:induction false} LatchedSwitchHeld(settings: Settings, packSizes: seq<nat>, s: LoopState,
                                             inputs: seq<TickInput>)
    requires StateOk(settings, packSizes, s) && ValidDraws(inputs)
    requires AllNonEmpty(inputs) && s.switchedPack
    ensures Run(settings, packSizes, s, inputs).currentSoundPack == s.currentSoundPack
    ensures Run(settings, packSizes, s, inputs).switchedPack
    decreases |inputs|
  {
    if |inputs| > 0 {
      var t := Step(settings, packSizes, s, inputs[0]);
      LatchesHoldWhileKeysHeld(settings, packSizes, s, inputs[0]);
      if !t.outcome.Terminate? {
        assert AllNonEmpty(inputs[1..]) by {
          forall i | 0 <= i < |inputs[1..]| ensures |inputs[1..][i].keys| > 0 {
            assert inputs[1..][i] == inputs[i + 1];
          }
        }
        LatchedSwitchHeld(settings, packSizes, t.state, inputs[1..]);
      }
    }
  }

  /** Running two stretches of ticks one after the other is running their
      concatenation, when the first stretch never terminates. */
  lemma {:induction false} RunAppend(settings: Settings, packSizes: seq<nat>, s: LoopState,
                                     a: seq<TickInput>, b: seq<TickInput>)
    requires StateOk(settings, packSizes, s) && ValidDraws(a) && ValidDraws(b)
    requires NoTerminate(settings, a)
    ensures ValidDraws(a + b)
    ensures Run(settings, packSizes, s, a + b) ==
            Run(settings, packSizes, Run(settings, packSizes, s, a), b)
    decreases |a|
  {
    assert ValidDraws(a + b) by {
      forall i | 0 <= i < |a + b| ensures ValidDraw((a + b)[i].draw) {
        if i < |a| { assert (a + b)[i] == a[i]; } else { assert (a + b)[i] == b[i - |a|]; }
      }
    }
    if |a| == 0 {
      assert a + b == b;
    } else {
      assert (a + b)[0] == a[0] && (a + b)[1..] == a[1..] + b;
      var t := Step(settings, packSizes, s, a[0]);
      assert NoTerminate(settings, a[1..]) && ValidDraws(a[1..]) by {
        forall i | 0 <= i < |a[1..]|
          ensures !BindingHeld(settings.terminate, a[1..][i].keys) && ValidDraw(a[1..][i].draw)
        {
          assert a[1..][i] == a[i + 1];
        }
      }
      RunAppend(settings, packSizes, t.state, a[1..], b);
    }
  }

  /** After the toggle binding has been held for any number of ticks, one tick
      with every key released followed by one more press of the binding flips
      the active flag a second time. */
  lemma {:induction false} ToggleRearmsAfterRelease(settings: Settings, packSizes: seq<nat>, s: LoopState,
                                                    held: seq<TickInput>, release: TickInput, press: TickInput,
                                                    keys: seq<Key>)
    requires StateOk(settings, packSizes, s)
    requires ValidDraws(held) && ValidDraw(release.draw) && ValidDraw(press.draw)
    requires |keys| > 0 && AllHold(held, keys) && |held| > 0
    requires release.keys == [] && press.keys == keys
    requires BindingHeld(settings.toggle, keys)
    requires !BindingHeld(settings.terminate, keys) && !BindingHeld(settings.terminate, [])
    requires !s.toggled
    ensures ValidDraws(held + [release, press])
    ensures Run(settings, packSizes, s, held).active == !s.active
    ensures Run(settings, packSizes, s, held + [release, press]).active == s.active
  {
    HeldToggleFlipsOnce(settings, packSizes, s, held, keys);
    assert NoTerminate(settings, held) by {
      forall i | 0 <= i < |held| ensures !BindingHeld(settings.terminate, held[i].keys) {
        assert held[i].keys == keys;
      }
    }
    RunAppend(settings, packSizes, s, held, [release, press]);
    var r1 := Run(settings, packSizes, s, held);
    var t := Step(settings, packSizes, r1, release);
    ReleaseClearsLatches(settings, packSizes, r1, release);
    assert t.state.active == r1.active;
    assert [release, press][1..] == [press];
    assert Run(settings, packSizes, r1, [release, press]) == Run(settings, packSizes, t.state, [press]);
    HeldToggleFlipsOnce(settings, packSizes, t.state, [press], keys);
  }

  /** Holding the next-pack binding over any number of consecutive ticks moves
      one pack forward, once; a held previous-pack binding takes the previous
      step once (which leaves the first pack where it is), and wins when both
      bindings match the same keys. */
  lemma {:induction false} HeldSwitchMovesOnce(settings: Settings, packSizes: seq<nat>, s: LoopState,
                                               inputs: seq<TickInput>, keys: seq<Key>)
    requires StateOk(settings, packSizes, s) && ValidDraws(inputs)
    requires |keys| > 0 && AllHold(inputs, keys) && |inputs| > 0
    requires !BindingHeld(settings.terminate, keys) && !s.switchedPack
    requires BindingHeld(settings.previousSoundPack, keys) || BindingHeld(settings.nextSoundPack, keys)
    ensures var r := Run(settings, packSizes, s, inputs);
      r.switchedPack &&
      r.currentSoundPack ==
        if BindingHeld(settings.previousSoundPack, keys)
        then PrevPackAsWritten(s.currentSoundPack, |packSizes|)
        else NextPack(s.currentSoundPack, |packSizes|)
  {
    var t := Step(settings, packSizes, s, inputs[0]);
    assert inputs[0].keys == keys;
    assert AllNonEmpty(inputs[1..]) by {
      forall i | 0 <= i < |inputs[1..]| ensures |inputs[1..][i].keys| > 0 {
        assert inputs[1..][i] == inputs[i + 1];
      }
    }
    LatchedSwitchHeld(settings, packSizes, t.state, inputs[1..]);
  }

  /** The active flag changes only through an unlatched toggle binding. */
  lemma ActiveFlipsOnlyByToggle(settings: Settings, packSizes: seq<nat>, s: LoopState, input: TickInput)
    requires StateOk(settings, packSizes, s) && ValidDraw(input.draw)
    ensures var r := Step(settings, packSizes, s, input);
      r.state.active != s.active ==> !s.toggled && BindingHeld(settings.toggle, input.keys)
  {
  }

  /** A tick that changes the pack prints the name of the pack it moved to. */
  lemma SwitchNamesNewPack(settings: Settings, packSizes: seq<nat>, s: LoopState, input: TickInput)
    requires StateOk(settings, packSizes, s) && ValidDraw(input.draw)
    ensures var r := Step(settings, packSizes, s, input);
      r.state.currentSoundPack != s.currentSoundPack ==>
        ChangedMessage(settings.soundPacks[r.state.currentSoundPack]) in r.messages
  {
  }

  /** Whether a tick plays depends on how many keys are held, not on which:
      two ticks holding the same number of keys, none of them a binding, make
      the same decision. */
  lemma PlayDependsOnCountOnly(settings: Settings, packSizes: seq<nat>, s: LoopState, a: TickInput, b: TickInput)
    requires StateOk(settings, packSizes, s) && ValidDraw(a.draw) && ValidDraw(b.draw)
    requires |a.keys| == |b.keys| > 0 && s.active
    requires !BindingHeld(settings.terminate, a.keys) && !BindingHeld(settings.terminate, b.keys)
    requires !BindingHeld(settings.toggle, a.keys) && !BindingHeld(settings.toggle, b.keys)
    ensures Step(settings, packSizes, s, a).outcome.Play? <==> Step(settings, packSizes, s, b).outcome.Play?
  {
  }

  /** The default bindings (F2 terminate, F3 toggle, F4 previous, F5 next) over
      two packs "a" and "b", each with one clip. */
  function TwoPacks(): Settings {
    DefaultSettings().(soundPacks := [Basic("a"), Basic("b")])
  }

  lemma DefaultBindingsOnF5()
    ensures !BindingHeld(TwoPacks().terminate, ["F5"]) && !BindingHeld(TwoPacks().toggle, ["F5"])
    ensures !BindingHeld(TwoPacks().previousSoundPack, ["F5"]) && BindingHeld(TwoPacks().nextSoundPack, ["F5"])
  {
    assert "F2" != "F5" && "F3" != "F5" && "F4" != "F5" by {
      assert "F2"[1] != "F5"[1] && "F3"[1] != "F5"[1] && "F4"[1] != "F5"[1];
    }
    assert "F2" in ["F2"] && "F3" in ["F3"] && "F4" in ["F4"];
  }

  /** Scenario: from pack "a", pressing F5 moves to pack "b" and names it. */
  lemma NextScenarioNamesPack(s: LoopState, draw: real)
    requires StateOk(TwoPacks(), [1, 1], s) && ValidDraw(draw)
    requires s.currentSoundPack == 0 && !s.switchedPack
    ensures var t := Step(TwoPacks(), [1, 1], s, TickInput(["F5"], false, draw));
      t.state.currentSoundPack == 1 && t.state.switchedPack &&
      t.messages == ["Changed sound pack to \"b\""]
  {
    DefaultBindingsOnF5();
    var keys: seq<Key> := ["F5"];
    assert ToggleStage(TwoPacks(), s, keys) == (s, []);
    assert ReleaseStage(s, keys) == s;
    assert PreviousStage(TwoPacks(), [1, 1], s, keys) == (s, []);
    var next := NextStage(TwoPacks(), [1, 1], s, keys);
    assert next.0.currentSoundPack == 1;
    assert next.1 == [ChangedMessage(Basic("b"))];
    var t := Step(TwoPacks(), [1, 1], s, TickInput(keys, false, draw));
    assert t.messages == [] + [] + next.1;
    assert ChangedMessage(Basic("b")) == "Changed sound pack to \"b\"" by {
      assert RevPosition("b"[..0]) == None;
    }
  }

  /** Scenario: from the initial state on packs "a" and "b", pressing F4 does
      not wrap to pack "b": the index stays on pack "a", which is named as if
      it were a new pack. */
  lemma PreviousScenarioStaysOnFirstPack(draw: real)
    requires ValidDraw(draw)
    ensures var s := InitialState(TwoPacks());
      var t := Step(TwoPacks(), [1, 1], s, TickInput(["F4"], false, draw));
      t.state.currentSoundPack == 0 && t.state.switchedPack &&
      t.messages == ["Changed sound pack to \"a\""]
  {
    var s := InitialState(TwoPacks());
    var keys: seq<Key> := ["F4"];
    assert "F2" != "F4" && "F3" != "F4" && "F5" != "F4" by {
      assert "F2"[1] != "F4"[1] && "F3"[1] != "F4"[1] && "F5"[1] != "F4"[1];
    }
    assert "F2" in ["F2"] && "F3" in ["F3"] && "F4" in ["F4"];
    assert !BindingHeld(TwoPacks().terminate, keys) && !BindingHeld(TwoPacks().toggle, keys);
    assert BindingHeld(TwoPacks().previousSoundPack, keys);
    assert ToggleStage(TwoPacks(), s, keys) == (s, []);
    assert ReleaseStage(s, keys) == s;
    var prev := PreviousStage(TwoPacks(), [1, 1], s, keys);
    assert prev.0.currentSoundPack == 0 && prev.0.switchedPack;
    assert prev.1 == [ChangedMessage(Basic("a"))];
    assert NextStage(TwoPacks(), [1, 1], prev.0, keys) == (prev.0, []);
    var t := Step(TwoPacks(), [1, 1], s, TickInput(keys, false, draw));
    assert t.messages == [] + prev.1 + [];
    assert ChangedMessage(Basic("a")) == "Changed sound pack to \"a\"" by {
      assert RevPosition("a"[..0]) == None;
    }
  }

  /** Scenario: from pack "b", after a release, pressing F5 wraps to pack "a". */
  lemma NextScenarioWraps(s: LoopState, draw: real)
    requires StateOk(TwoPacks(), [1, 1], s) && ValidDraw(draw)
    requires s.currentSoundPack == 1
    ensures var t1 := Step(TwoPacks(), [1, 1], s, TickInput([], false, draw));
      var t2 := Step(TwoPacks(), [1, 1], t1.state, TickInput(["F5"], false, draw));
      t2.state.currentSoundPack == 0
  {
    DefaultBindingsOnF5();
    ReleaseClearsLatches(TwoPacks(), [1, 1], s, TickInput([], false, draw));
  }

  /** Scenario with the default configuration: F3 held for three ticks turns
      the sound effects off once; released and pressed again, they come back on. */
  lemma DefaultToggleScenario(draw: real)
    requires ValidDraw(draw)
    ensures var settings := DefaultSettings();
      var s0 := InitialState(settings);
      var press := TickInput(["F3"], false, draw);
      var release := TickInput([], false, draw);
      ValidDraws([press, press, press, release, press]) &&
      !Run(settings, [1], s0, [press, press, press]).active &&
      Run(settings, [1], s0, [press, press, press, release, press]).active
  {
    var settings := DefaultSettings();
    var press := TickInput(["F3"], false, draw);
    var release := TickInput([], false, draw);
    assert "F2" != "F3" by { assert "F2"[1] != "F3"[1]; }
    assert "F2" in ["F2"];
    assert !BindingHeld(settings.terminate, ["F3"]) && BindingHeld(settings.toggle, ["F3"]);
    assert [press, press, press] + [release, press] == [press, press, press, release, press];
    ToggleRearmsAfterRelease(settings, [1], InitialState(settings), [press, press, press], release, press, ["F3"]);
  }
}
