# Pokefiesta viewer: the button state machine

A Dafny model of the control logic of a browser 3D model viewer (`src/script.js`).
The viewer shows one of three characters: Gengar, Meloetta or Lucario. Each has a
base model `X.glb` and a "party" variant `X2.glb`. A thumbnail image `X.png` is
shown under the model. Three buttons drive it:

- **right** walks the families Gengar → Meloetta → Lucario → Gengar;
- **left** walks them backwards;
- **party** toggles party mode. Party mode is a 500 ms timer that re-colors the five
  lights and the background at random. It also plays a looping track and swaps in
  the party model.

All three buttons go through `changeImageAndModel`. That function stores the new image
and model and requests the model load. A Meloetta model always gets `meloetta.png`.
`loadModel` then picks a placement and an animation speed by looking for a character
name inside the path.

The model is functional. An immutable `Viewer.State` record holds the model path, the
image path, the party-timer handle, the handle the next `setInterval` returns, the set of
intervals the script has started and not cleared, the light colors, the audio state and the log of requested loads. Each button is a pure
transition function. `Viewer.Run` folds a sequence of events from the start state.

Files:

- `wrappers.dfy`: `Option`.
- `paths.dfy`: the path enumerations, their file names and the family cycle.
- `model_config.dfy`: the substring-keyed configuration in `loadModel`.
- `viewer.dfy`: state, handlers and the event step.
- `viewer_properties.dfy`: the invariant, the sequence lemmas, and the behaviour over
  pairs of presses and concrete traces.

Lengths and speeds are integer tenths: scale 0.7 is `7`, position y −0.5 is `-5`, and
`timeScale` 0.3 is `3`.

Behaviour the model pins down as the code has it, where a reader might expect otherwise:

- Right or left from a Gengar or Meloetta model leaves party mode on. Only leaving Lucario
  to the right clears the timer and restores the lights, and even then the track keeps
  playing. So "timer set" does not imply "party model shown" (`PartyModeOnBaseModel`).
  And "track playing" does not imply "timer set" (`MusicOutlivesParty`).
- The party handler asks for `meloetta2.png`, but `changeImageAndModel` overrides it with
  `meloetta.png` (`MeloettaPartyImage`). No reachable state shows `meloetta2.png`.
- Two party presses always restore the family and the party flag. In the usual cases they
  also restore the model and image: from a base model with no timer set, and from a party
  model with the timer set. From a base model with the timer set (reached through the first
  point above), they end on its party variant instead.

## Model

| member | source | states |
|---|---|---|
| Paths.ParseModelFile | src/script.js:277-285 | recognising a file name succeeds exactly for the six model files, and the result names the file it was given |
| Paths.ParseModelFileRoundTrip | src/script.js:15 | every model path parses back to itself and no two model paths share a file name, so the enumeration's equality is the handlers' `===` on file names |
| Paths.ImageFileInjective | src/script.js:221-223 | no two image paths share a file name, so the stored image path determines the `src` written to the image element |
| Paths.CycleLaws | src/script.js:275-310 | the family cycle: a forward step and a backward step undo each other, three forward steps return to the start, and no step stays put |
| ModelConfig.IncludesIff | src/script.js:156 | the substring search returns true exactly when the word occurs at some index of the path |
| ModelConfig.PlacementFor | src/script.js:156-165 | a path containing "gengar" gets y 0 and scale 0.7. Otherwise one containing "meloetta" gets y 0 and scale 1.3. Otherwise one containing "lucario" gets y −0.5 and scale 1. A path with none of the three gets no placement |
| ModelConfig.TimeScaleFor | src/script.js:173-179 | by the same precedence, animation speed 0.7 for Gengar, 0.3 for Meloetta, 0.7 for Lucario, and none for other paths |
| ModelConfig.ModelFilePlacement | src/script.js:156-165 | each of the six model files gets its family's placement: Gengar files scale 0.7 at y 0, Meloetta files scale 1.3 at y 0, Lucario files scale 1 at y −0.5 |
| ModelConfig.ModelFileTimeScale | src/script.js:173-179 | each of the six model files gets its family's animation speed: 0.7, 0.3 and 0.7 |
| ModelConfig.PartyVariantSameConfig | src/script.js:156-179 | a party variant gets the same placement and animation speed as its base model |
| Viewer.ChangeLightColors | src/script.js:192-201 | a timer tick sets the five light colors to the host's random values and the background to the same random value as the ambient light; nothing else changes |
| Viewer.RestoreOriginalLightColors | src/script.js:204-212 | the lights become exactly ambient 0x404040, hemisphere 0x444444, point1, point2 and directional 0xffffff, with a black 0x000000 background; nothing else changes |
| Viewer.ClearLightInterval | src/script.js:238-239 | clearing the party timer stops exactly its interval, leaves no timer handle, and changes nothing else |
| Viewer.SetLightInterval | src/script.js:256 | setting the party timer starts one interval under the host's next handle, records that handle, and moves the next handle on |
| Viewer.ChangeImageAndModel | src/script.js:215-231 | the model is stored and its load is requested. A Meloetta model stores `meloetta.png` whatever image was asked for; any other model stores the requested image. Nothing else changes |
| Viewer.PartyPress | src/script.js:235-271 | with the timer set: timer cleared, lights restored, track paused at 0, and the model becomes its family's base model. A party variant also loads it and gets the base image; a base model is left alone. With no timer set: a new timer, the track playing from its position, and a base model replaced by its party variant. The image is then Gengar's current image or the family's base image |
| Viewer.RightPress | src/script.js:275-294 | the next family's base model and image are shown and loaded; the track is untouched. Timer and lights are cleared and restored only when leaving Lucario with the timer set, and otherwise unchanged |
| Viewer.LeftPress | src/script.js:297-310 | the previous family's base model and image are shown and loaded; nothing else changes |
| Viewer.Step | src/script.js:235-310 | one event: every event keeps the loads already requested and adds at most one, and hands out at most one new interval handle. A tick re-colors the lights (background equal to ambient) only while an interval runs, and otherwise changes nothing. Elapsed time advances the track position only while it plays |
| Viewer.Run | src/script.js:12-313 | a sequence of events from the start state: the first requested load is always the initial `gengar.glb`, and there are at most one load and one interval handle per event beyond the start |
| ViewerProperties.StepPreservesInv | src/script.js:235-310 | every event keeps the invariant. A party variant needs the timer set, and a set timer needs the track playing. The party timer is the only running interval. Lights are original when no timer is set. The image is the family's base image, and the last load is the current model |
| ViewerProperties.RunSatisfiesInv | src/script.js:12-313 | every state reachable from the start satisfies the invariant, and at most one interval is ever running |
| ViewerProperties.Replay | src/script.js:235-313 | delivering the events one at a time, as the browser does, from the start state reaches exactly the state `Run` defines for the whole sequence |
| ViewerProperties.LoadsOnlyGrow | src/script.js:215-231 | the requested loads are an append-only log: the loads after any prefix of an event sequence are a prefix of the loads after the whole sequence |
| ViewerProperties.PartyNeverStacksTimers | src/script.js:237-256 | in a reachable state a party press with a timer set leaves no interval running, and one without creates exactly one |
| ViewerProperties.RightCycle | src/script.js:275-294 | three right presses from any model reach the base model and image of the family it started in |
| ViewerProperties.LeftInvertsRight | src/script.js:275-310 | from a base model with its own image, right then left and left then right both restore the model path and image |
| ViewerProperties.LeftKeepsPartyState | src/script.js:297-310 | the left button never changes the timer, the intervals, the lights or the audio, and always lands on a base model |
| ViewerProperties.RightFromMeloettaKeepsParty | src/script.js:281-283 | right from a Meloetta model with the timer set shows `lucario.glb` with timer, lights and audio unchanged |
| ViewerProperties.RightFromLucarioKeepsMusic | src/script.js:285-292 | right from a Lucario model with the timer set shows `gengar.glb`, clears the timer and stops exactly its interval, restores the original light colors with a black background, and leaves the audio as it was |
| ViewerProperties.PartyTwiceRestores | src/script.js:237-270 | two party presses from a base model with no timer set restore model and image, leave no timer and the same intervals, and the track paused at 0 |
| ViewerProperties.PartyTwiceFromPartyVariant | src/script.js:237-270 | in a reachable state showing a party model, two party presses restore the model and image, and leave a timer set and the track playing from 0 |
| ViewerProperties.PartyTwiceRestoresMode | src/script.js:237-270 | from any state, one party press keeps the family and turns the party flag (timer set or not) to its negation, and a second press restores both |
| ViewerProperties.PartyModeOnBaseModel | src/script.js:256-283 | party then right shows `meloetta.glb` with the timer still set; two more party presses end on `meloetta2.glb` |
| ViewerProperties.MusicOutlivesParty | src/script.js:285-292 | left, party, right shows `gengar.glb` with no timer while the track is still playing |
| ViewerProperties.MeloettaPartyImage | src/script.js:217-218 | right then party shows `meloetta2.glb` with the image `meloetta.png`, not `meloetta2.png` |
| ViewerProperties.GengarPartyRoundTrip | src/script.js:237-261 | from the start, party shows `gengar2.glb` with the timer set and the track playing. A second party press shows `gengar.glb` and `gengar.png`, with no timer, the track paused at 0 and the lights restored |

## Left out

- Scene, camera, renderer, orbit controls, the resize handler and the render loop (src/script.js:5-94): rendering plumbing over a library not modelled here.
- The asynchronous model load, the disposal of the old model's geometry and materials, the animation mixer and the material flags (src/script.js:97-153, 166-189). A load is kept only as an entry in `loads`; its completion or failure is up to the host and changes no field the handlers read.
- Whether the loaded file has animation clips (src/script.js:168): `TimeScaleFor` gives the speed every clip would get, if there are any.
- The x and z coordinates of the placement are always 0 and are not kept.
- Viewer.PartyPress: `partyAudio.play()` (src/script.js:257) is assumed to succeed. In a browser it returns a promise that the handler never checks; if the track failed to load, the call rejects and the track stays paused while line 256 has already set the timer. The invariant's "timer set implies track playing" clause holds only under this assumption.
- Viewer.ChangeLightColors: the random colors are parameters chosen by the host. The model does not restrict them to 24 bits and does not model how `Math.random() * 0xffffff` is truncated.
- Viewer.Step: the track loops, but playback position grows without wrapping, because the track's length belongs to the audio file. The 500 ms period is not modelled: a tick may happen whenever an interval is running.
- The DOM image element and the `Audio` object appear only as the fields `imagePath` and `audio`.
- The DOM elements looked up at src/script.js:222, 234, 274 and 296 are assumed to exist. A missing image element would throw at line 223, after the party handler had already changed the timer and the audio; the model has no such failure. The audio position is a `nat`, not the floating-point `currentTime` of the browser.
- `vite.config.js`: build and dev-server configuration, with no behaviour.
