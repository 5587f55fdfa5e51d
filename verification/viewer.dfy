/** The viewer's button-driven state machine: the party, right and left
    click handlers and the helpers they share.

    The rendering library, the DOM and the audio element are reduced to the
    fields they expose to the handlers: the colors of the five lights and
    the scene background, whether the party track is playing and where, the
    thumbnail image path, and the model loads that have been requested. */
module Viewer {
  import opened Wrappers
  import opened Paths

  /** The colors of the ambient, hemisphere, two point and directional
      lights, as RGB integers; the host's values are not limited to 24 bits. */
  datatype LightColors = LightColors(ambient: int, hemisphere: int, point1: int, point2: int, directional: int)

  /** The colors the lights are created with and restored to. */
  const OriginalLightColors: LightColors := LightColors(0x404040, 0x444444, 0xffffff, 0xffffff, 0xffffff)

  /** The background `restoreOriginalLightColors` installs. */
  const Black: int := 0x000000

  /** Light colors plus the scene background; the background is unset
      (`None`) until something assigns it. */
  datatype Lights = Lights(colors: LightColors, background: Option<int>)

  /** The party track: whether it is playing and its playback position. */
  datatype Audio = Audio(playing: bool, position: nat)

  /** Everything the handlers read or write.
      - `lightInterval`: the handle of the party timer, if one is set;
      - `activeIntervals`: every interval this script has started and not cleared;
      - `nextIntervalId`: the handle the host's next `setInterval` returns;
      - `loads`: every model load requested so far, oldest first. */
  datatype State = State(
    modelPath: ModelPath,
    imagePath: ImagePath,
    lightInterval: Option<nat>,
    activeIntervals: set<nat>,
    nextIntervalId: nat,
    lights: Lights,
    audio: Audio,
    loads: seq<ModelPath>)

  /** The state once the script has run: Gengar shown and loaded, no timer,
      the lights at their original colors, the track paused at its start.
      Interval handles are positive, so a set handle is always truthy. */
  const Init: State := State(
    GengarGlb, GengarPng, None, {}, 1,
    Lights(OriginalLightColors, None), Audio(false, 0), [GengarGlb])

  /** `changeLightColors`: one tick of the party timer. The host's random
      colors arrive as `p`; the ambient color is reused for the background. */
  function ChangeLightColors(s: State, p: LightColors): (r: State)
    ensures r.lights.colors == p
    ensures r.lights.background == Some(r.lights.colors.ambient)
    ensures r == s.(lights := r.lights)
  {
    s.(lights := Lights(p, Some(p.ambient)))
  }

  /** `restoreOriginalLightColors`. */
  function RestoreOriginalLightColors(s: State): (r: State)
    ensures r.lights == Lights(LightColors(0x404040, 0x444444, 0xffffff, 0xffffff, 0xffffff), Some(0x000000))
    ensures r == s.(lights := r.lights)
  {
    s.(lights := Lights(OriginalLightColors, Some(Black)))
  }

  /** `clearInterval(lightInterval); lightInterval = null`. */
  function ClearLightInterval(s: State): (r: State)
    requires s.lightInterval.Some?
    ensures r.lightInterval.None?
    ensures r.activeIntervals == s.activeIntervals - {s.lightInterval.value}
    ensures r == s.(lightInterval := None, activeIntervals := r.activeIntervals)
  {
    s.(lightInterval := None, activeIntervals := s.activeIntervals - {s.lightInterval.value})
  }

  /** `lightInterval = setInterval(changeLightColors, 500)`: the host hands
      out a fresh handle and starts running it. */
  function SetLightInterval(s: State): (r: State)
    ensures r.lightInterval == Some(s.nextIntervalId)
    ensures r.activeIntervals == s.activeIntervals + {s.nextIntervalId}
    ensures r.nextIntervalId > s.nextIntervalId
    ensures r == s.(lightInterval := r.lightInterval, activeIntervals := r.activeIntervals,
                    nextIntervalId := r.nextIntervalId)
  {
    s.(lightInterval := Some(s.nextIntervalId),
       activeIntervals := s.activeIntervals + {s.nextIntervalId},
       nextIntervalId := s.nextIntervalId + 1)
  }

  /** `changeImageAndModel`: a Meloetta model always gets `meloetta.png`,
      whatever image was asked for; otherwise the requested image and model
      are stored as given. The model load is requested in either case. */
  function ChangeImageAndModel(s: State, image: ImagePath, model: ModelPath): (r: State)
    ensures r.modelPath == model
    ensures FamilyOf(model) == Meloetta ==> r.imagePath == MeloettaPng
    ensures FamilyOf(model) != Meloetta ==> r.imagePath == image
    ensures r.loads == s.loads + [model]
    ensures r == s.(modelPath := model, imagePath := r.imagePath, loads := r.loads)
  {
    var image' := if model == MeloettaGlb || model == Meloetta2Glb then MeloettaPng else image;
    s.(imagePath := image', modelPath := model, loads := s.loads + [model])
  }

  /** The party button. With a timer set it switches party mode off: the
      timer is cleared, lights and background restored, the track paused and
      rewound, and a party-variant model swapped back for its base model (a
      base model is left alone). With no timer set it switches party mode
      on: a new timer, the track playing from where it stands, and a base
      model swapped for its party variant. */
  function PartyPress(s: State): (r: State)
    // switching off
    ensures s.lightInterval.Some? ==>
      && r.lightInterval.None?
      && r.activeIntervals == s.activeIntervals - {s.lightInterval.value}
      && r.nextIntervalId == s.nextIntervalId
      && r.lights.colors == LightColors(0x404040, 0x444444, 0xffffff, 0xffffff, 0xffffff)
      && r.lights.background == Some(0x000000)
      && r.audio == Audio(false, 0)
      && r.modelPath == BaseModel(FamilyOf(s.modelPath))
    ensures s.lightInterval.Some? && IsPartyVariant(s.modelPath) ==>
      && r.imagePath == BaseImage(FamilyOf(s.modelPath))
      && r.loads == s.loads + [r.modelPath]
    ensures s.lightInterval.Some? && !IsPartyVariant(s.modelPath) ==>
      r.imagePath == s.imagePath && r.loads == s.loads
    // switching on
    ensures s.lightInterval.None? ==>
      && r.lightInterval == Some(s.nextIntervalId)
      && r.activeIntervals == s.activeIntervals + {s.nextIntervalId}
      && r.nextIntervalId == s.nextIntervalId + 1
      && r.lights == s.lights
      && r.audio == Audio(true, s.audio.position)
      && r.modelPath == PartyModel(FamilyOf(s.modelPath))
    ensures s.lightInterval.None? && !IsPartyVariant(s.modelPath) ==>
      && r.loads == s.loads + [r.modelPath]
      && r.imagePath == (if FamilyOf(s.modelPath) == Gengar then s.imagePath
                         else BaseImage(FamilyOf(s.modelPath)))
    ensures s.lightInterval.None? && IsPartyVariant(s.modelPath) ==>
      r.imagePath == s.imagePath && r.loads == s.loads
  {
    if s.lightInterval.Some? then
      var s1 := ClearLightInterval(s);
      var s2 := RestoreOriginalLightColors(s1);
      var s3 := s2.(audio := Audio(false, 0));
      if s3.modelPath == Gengar2Glb then ChangeImageAndModel(s3, GengarPng, GengarGlb)
      else if s3.modelPath == Meloetta2Glb then ChangeImageAndModel(s3, MeloettaPng, MeloettaGlb)
      else if s3.modelPath == Lucario2Glb then ChangeImageAndModel(s3, LucarioPng, LucarioGlb)
      else s3
    else
      var s1 := SetLightInterval(s);
      var s2 := s1.(audio := s1.audio.(playing := true));
      if s2.modelPath == GengarGlb then ChangeImageAndModel(s2, s2.imagePath, Gengar2Glb)
      else if s2.modelPath == MeloettaGlb then ChangeImageAndModel(s2, Meloetta2Png, Meloetta2Glb)
      else if s2.modelPath == LucarioGlb then ChangeImageAndModel(s2, LucarioPng, Lucario2Glb)
      else s2
  }

  /** The right button: the next family's base model and thumbnail. Only
      leaving Lucario touches party mode, and then only the timer and the
      lights: the track keeps playing. */
  function RightPress(s: State): (r: State)
    ensures r.modelPath == BaseModel(NextFamily(FamilyOf(s.modelPath)))
    ensures r.imagePath == BaseImage(NextFamily(FamilyOf(s.modelPath)))
    ensures r.loads == s.loads + [r.modelPath]
    ensures r.audio == s.audio && r.nextIntervalId == s.nextIntervalId
    ensures FamilyOf(s.modelPath) == Lucario && s.lightInterval.Some? ==>
      && r.lightInterval.None?
      && r.activeIntervals == s.activeIntervals - {s.lightInterval.value}
      && r.lights == Lights(OriginalLightColors, Some(Black))
    ensures FamilyOf(s.modelPath) != Lucario || s.lightInterval.None? ==>
      r.lightInterval == s.lightInterval && r.activeIntervals == s.activeIntervals && r.lights == s.lights
  {
    if s.modelPath == GengarGlb || s.modelPath == Gengar2Glb then
      ChangeImageAndModel(s, MeloettaPng, MeloettaGlb)
    else if s.modelPath == MeloettaGlb || s.modelPath == Meloetta2Glb then
      ChangeImageAndModel(s, LucarioPng, LucarioGlb)
    else
      var s1 := if s.lightInterval.Some? then RestoreOriginalLightColors(ClearLightInterval(s)) else s;
      ChangeImageAndModel(s1, GengarPng, GengarGlb)
  }

  /** The left button: the previous family's base model and thumbnail;
      nothing else changes. */
  function LeftPress(s: State): (r: State)
    ensures r.modelPath == BaseModel(PrevFamily(FamilyOf(s.modelPath)))
    ensures r.imagePath == BaseImage(PrevFamily(FamilyOf(s.modelPath)))
    ensures r == s.(modelPath := r.modelPath, imagePath := r.imagePath, loads := s.loads + [r.modelPath])
  {
    if s.modelPath == GengarGlb || s.modelPath == Gengar2Glb then
      ChangeImageAndModel(s, LucarioPng, LucarioGlb)
    else if s.modelPath == MeloettaGlb || s.modelPath == Meloetta2Glb then
      ChangeImageAndModel(s, GengarPng, GengarGlb)
    else
      ChangeImageAndModel(s, MeloettaPng, MeloettaGlb)
  }

  /** The things that can happen to the viewer: the three buttons, a tick of
      a running interval with the host's random colors, and the track
      playing on for `dt` time units. */
  datatype Event = Party | Right | Left | IntervalTick(colors: LightColors) | Elapse(dt: nat)

  /** One event. A tick only happens while some interval is running and
      re-colors the lights; playback only advances while the track is
      playing. No event forgets a requested load or requests more than one,
      and at most one new interval handle is handed out per event. */
  function Step(s: State, e: Event): (r: State)
    ensures s.loads <= r.loads && |r.loads| <= |s.loads| + 1
    ensures s.nextIntervalId <= r.nextIntervalId <= s.nextIntervalId + 1
    ensures e.IntervalTick? && s.activeIntervals == {} ==> r == s
    ensures e.IntervalTick? && s.activeIntervals != {} ==>
      r == s.(lights := Lights(e.colors, Some(e.colors.ambient)))
    ensures e.Elapse? ==>
      r == s.(audio := s.audio.(position := s.audio.position + if s.audio.playing then e.dt else 0))
  {
    match e
    case Party => PartyPress(s)
    case Right => RightPress(s)
    case Left => LeftPress(s)
    case IntervalTick(p) => if s.activeIntervals != {} then ChangeLightColors(s, p) else s
    case Elapse(dt) => if s.audio.playing then s.(audio := s.audio.(position := s.audio.position + dt)) else s
  }

  /** The state after a sequence of events from `Init`. The first load is
      always the initial `gengar.glb`, and each event adds at most one load
      and at most one interval handle. */
  function Run(events: seq<Event>): (r: State)
    ensures 1 <= |r.loads| <= |events| + 1
    ensures r.loads[0] == GengarGlb
    ensures 1 <= r.nextIntervalId <= |events| + 1
    decreases |events|
  {
    if events == [] then Init
    else Step(Run(events[..|events| - 1]), events[|events| - 1])
  }
}
