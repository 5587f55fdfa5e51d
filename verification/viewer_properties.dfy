/** Properties of the viewer over single presses, pairs of presses and
    arbitrary event sequences. */
module ViewerProperties {
  import opened Wrappers
  import opened Paths
  import opened Viewer

  /** What holds in every state the viewer can reach:
      - a party-variant model is only shown while the party timer is set;
      - while the timer is set the track is playing;
      - the only interval running is the party timer, so at most one runs;
      - handles are positive and fresh handles are beyond every handle used;
      - with no timer set the lights have their original colors and the
        background is unset or black;
      - the thumbnail is the shown family's base image (never `meloetta2.png`);
      - the last model load requested is the model path recorded. */
  ghost predicate Inv(s: State) {
    && (IsPartyVariant(s.modelPath) ==> s.lightInterval.Some?)
    && (s.lightInterval.Some? ==> s.audio.playing)
    && s.activeIntervals == (if s.lightInterval.Some? then {s.lightInterval.value} else {})
    && (s.lightInterval.Some? ==> 0 < s.lightInterval.value < s.nextIntervalId)
    && 0 < s.nextIntervalId
    && (s.lightInterval.None? ==>
          s.lights.colors == OriginalLightColors && s.lights.background in {None, Some(Black)})
    && s.imagePath == BaseImage(FamilyOf(s.modelPath))
    && |s.loads| > 0 && s.loads[|s.loads| - 1] == s.modelPath
  }

  /** Every event keeps the invariant. */
  lemma StepPreservesInv(s: State, e: Event)
    requires Inv(s)
    ensures Inv(Step(s, e))
  {
  }

  /** Every state reachable from the start satisfies the invariant; in
      particular at most one interval ever runs. */
  lemma {:induction false} RunSatisfiesInv(events: seq<Event>)
    ensures Inv(Run(events))
    ensures |Run(events).activeIntervals| <= 1
    decreases |events|
  {
    if events != [] {
      RunSatisfiesInv(events[..|events| - 1]);
      StepPreservesInv(Run(events[..|events| - 1]), events[|events| - 1]);
    }
    var s := Run(events);
    if s.lightInterval.Some? {
      assert s.activeIntervals == {s.lightInterval.value};
    }
  }

  /** Replays a sequence of events one at a time, as the browser delivers
      them, ending in the state `Run` describes. */
  method Replay(events: seq<Event>) returns (s: State)
    ensures s == Run(events)
  {
    s := Init;
    var i := 0;
    while i < |events|
      invariant 0 <= i <= |events|
      invariant s == Run(events[..i])
    {
      assert events[..i + 1][..i] == events[..i];
      s := Step(s, events[i]);
      i := i + 1;
    }
    assert events[..i] == events;
  }

  /** The requested loads form an append-only log: the loads of any prefix
      of an event sequence are a prefix of the loads of the whole. */
  lemma {:induction false} LoadsOnlyGrow(events: seq<Event>, n: nat)
    requires n <= |events|
    ensures Run(events[..n]).loads <= Run(events).loads
    decreases |events| - n
  {
    if n < |events| {
      var k := |events| - 1;
      assert events[..k][..n] == events[..n];
      LoadsOnlyGrow(events[..k], n);
    } else {
      assert events[..n] == events;
    }
  }

  /** A new timer is only ever created when none is set: a party press with
      a timer set never creates one, and one with no timer set creates
      exactly one, beyond every handle running before. */
  lemma PartyNeverStacksTimers(s: State)
    requires Inv(s)
    ensures s.lightInterval.Some? ==> PartyPress(s).activeIntervals == {}
    ensures s.lightInterval.None? ==> PartyPress(s).activeIntervals == {s.nextIntervalId}
  {
  }

  // ---------------------------------------------------------------------
  // Navigation

  /** Three right presses from any model land on the base model of the
      family it started in. */
  lemma RightCycle(s: State)
    ensures RightPress(RightPress(RightPress(s))).modelPath == BaseModel(FamilyOf(s.modelPath))
    ensures RightPress(RightPress(RightPress(s))).imagePath == BaseImage(FamilyOf(s.modelPath))
  {
    CycleLaws(FamilyOf(s.modelPath));
  }

  /** Left undoes right and right undoes left on the model path and image of
      a base model with its own thumbnail. */
  lemma LeftInvertsRight(s: State)
    requires !IsPartyVariant(s.modelPath)
    requires s.imagePath == BaseImage(FamilyOf(s.modelPath))
    ensures LeftPress(RightPress(s)).modelPath == s.modelPath
    ensures RightPress(LeftPress(s)).modelPath == s.modelPath
    ensures LeftPress(RightPress(s)).imagePath == s.imagePath
    ensures RightPress(LeftPress(s)).imagePath == s.imagePath
  {
    CycleLaws(FamilyOf(s.modelPath));
    ModelPathDecomposition(s.modelPath);
  }

  /** The left button never touches party mode: timer, intervals, lights
      and audio are as they were. */
  lemma LeftKeepsPartyState(s: State)
    ensures LeftPress(s).lightInterval == s.lightInterval
    ensures LeftPress(s).activeIntervals == s.activeIntervals
    ensures LeftPress(s).lights == s.lights && LeftPress(s).audio == s.audio
    ensures !IsPartyVariant(LeftPress(s).modelPath)
  {
  }

  /** Right from a Meloetta model with the timer set goes to `lucario.glb`
      and leaves party mode on: timer, lights and music are untouched. */
  lemma RightFromMeloettaKeepsParty(s: State)
    requires FamilyOf(s.modelPath) == Meloetta && s.lightInterval.Some?
    ensures RightPress(s).modelPath == LucarioGlb
    ensures RightPress(s).lightInterval == s.lightInterval
    ensures RightPress(s).lights == s.lights && RightPress(s).audio == s.audio
  {
  }

  /** Right from a Lucario model with the timer set clears the timer and
      restores the lights, but the track keeps playing where it was. */
  lemma RightFromLucarioKeepsMusic(s: State)
    requires FamilyOf(s.modelPath) == Lucario && s.lightInterval.Some?
    ensures RightPress(s).modelPath == GengarGlb
    ensures RightPress(s).lightInterval.None?
    ensures RightPress(s).activeIntervals == s.activeIntervals - {s.lightInterval.value}
    ensures RightPress(s).lights == Lights(OriginalLightColors, Some(Black))
    ensures RightPress(s).audio == s.audio
  {
  }

  // ---------------------------------------------------------------------
  // Party mode

  /** Two party presses from a base model with no timer set put back the
      model and the image, stop the timer again and leave the track paused
      at its start. */
  lemma PartyTwiceRestores(s: State)
    requires s.lightInterval.None? && !IsPartyVariant(s.modelPath)
    requires s.imagePath == BaseImage(FamilyOf(s.modelPath))
    requires s.nextIntervalId !in s.activeIntervals
    ensures PartyPress(PartyPress(s)).modelPath == s.modelPath
    ensures PartyPress(PartyPress(s)).imagePath == s.imagePath
    ensures PartyPress(PartyPress(s)).lightInterval.None?
    ensures PartyPress(PartyPress(s)).activeIntervals == s.activeIntervals
    ensures PartyPress(PartyPress(s)).audio == Audio(false, 0)
  {
    ModelPathDecomposition(s.modelPath);
  }

  /** Two party presses from a party-variant model in a reachable state
      (party mode on) switch party mode off and on again: the model and
      image are put back and a timer is set again with the track playing. */
  lemma PartyTwiceFromPartyVariant(s: State)
    requires Inv(s) && IsPartyVariant(s.modelPath)
    ensures PartyPress(PartyPress(s)).modelPath == s.modelPath
    ensures PartyPress(PartyPress(s)).imagePath == s.imagePath
    ensures PartyPress(PartyPress(s)).lightInterval.Some?
    ensures PartyPress(PartyPress(s)).audio == Audio(true, 0)
  {
    ModelPathDecomposition(s.modelPath);
  }

  /** The family and the party flag (timer set or not) of a state. */
  function Mode(s: State): (Family, bool) {
    (FamilyOf(s.modelPath), s.lightInterval.Some?)
  }

  /** In any state two party presses put back the family and the party
      flag, and one press changes the flag. */
  lemma PartyTwiceRestoresMode(s: State)
    ensures Mode(PartyPress(PartyPress(s))) == Mode(s)
    ensures Mode(PartyPress(s)) == (FamilyOf(s.modelPath), s.lightInterval.None?)
  {
  }

  // ---------------------------------------------------------------------
  // Witnesses from the start state

  /** Party then right: Meloetta's base model is shown while the party timer
      runs, so "timer set" does not imply "party-variant model". Two more
      party presses then show `meloetta2.glb`, not the model they started
      from. */
  lemma PartyModeOnBaseModel()
    ensures Run([Party, Right]).modelPath == MeloettaGlb
    ensures Run([Party, Right]).lightInterval.Some?
    ensures Run([Party, Right, Party, Party]).modelPath == Meloetta2Glb
  {
    assert [Party, Right][..1] == [Party];
    assert [Party, Right, Party][..2] == [Party, Right];
    assert [Party, Right, Party, Party][..3] == [Party, Right, Party];
  }

  /** Left, party, right: Gengar is shown with the timer cleared while the
      track plays on, so "track playing" does not imply "timer set". */
  lemma MusicOutlivesParty()
    ensures Run([Left, Party, Right]).modelPath == GengarGlb
    ensures Run([Left, Party, Right]).lightInterval.None?
    ensures Run([Left, Party, Right]).audio.playing
  {
    assert [Left, Party][..1] == [Left];
    assert [Left, Party, Right][..2] == [Left, Party];
  }

  /** Right then party: Meloetta's party model is shown with `meloetta.png`,
      the `meloetta2.png` the party handler asks for being overridden. */
  lemma MeloettaPartyImage()
    ensures Run([Right, Party]).modelPath == Meloetta2Glb
    ensures Run([Right, Party]).imagePath == MeloettaPng
  {
    assert [Right, Party][..1] == [Right];
  }

  /** From the start, party on then off: Gengar's party model with the timer
      set and the track playing, then Gengar's base model with the timer
      cleared, the track paused at 0 and the lights restored. */
  lemma GengarPartyRoundTrip()
    ensures Run([Party]).modelPath == Gengar2Glb
    ensures Run([Party]).lightInterval.Some? && Run([Party]).audio.playing
    ensures Run([Party, Party]).modelPath == GengarGlb
    ensures Run([Party, Party]).imagePath == GengarPng
    ensures Run([Party, Party]).lightInterval.None?
    ensures Run([Party, Party]).audio == Audio(false, 0)
    ensures Run([Party, Party]).lights == Lights(OriginalLightColors, Some(Black))
  {
    assert [Party, Party][..1] == [Party];
  }
}
