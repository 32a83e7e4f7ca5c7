# DragonBallGame timeline director, modelled in Dafny

`script.js` plays a fixed cutscene of two scenes ("SCENE 1. 붕괴 직전의 정적", 8000 ms,
and "SCENE 2. 16호의 마지막 시선", 10000 ms). One object, `DragonBallGame`, owns the playback
state: the index of the active scene, the time spent in it and its progress, a dialogue
cursor, the play and pause flags, a camera (pan, zoom and a shake), and a list of dust
particles. Every animation frame calls `update(deltaTime)`. It advances the scene clock,
places the camera on the scene's path, and starts the next scene once the clock reaches
the scene's duration. Clicks, the Escape key and the renderer's effects call the other
operations.

The project has three modules:

- `Scenes` (scenes.dfy) holds the immutable scene records and the two scenes the game
  is built with. It also states what the director needs of a scene: a positive duration
  and positive zoom factors on the camera path.
- `Timeline` (timeline.dfy) holds the state as a value (`GameState`) and each operation
  as a function on it. It also holds the director's invariant `Inv` and the lemmas about
  sequences of frames and clicks. `Inv` says:
  - while playing, `currentScene` indexes a real scene;
  - the index never goes past `|scenes|`;
  - the progress is the scene's time over its duration, and lies in [0, 1) between frames;
  - the zoom stays positive.
- `Game` (game.dfy) is the class `DragonBallGame`. It has the source's fields and updates
  them in place, method by method as in the source. The one exception is `StartGame`: the
  class uses the corrected start, which only starts while a scene remains (see
  "## Findings"), and `HandleClick` calls that start. The start as written is
  `Timeline.StartGameAsWritten`. Every method ensures `State() == Timeline.F(old(State()))`
  for its matching function `F`, so the lemmas about the functions hold of the object.
  The public entry points (`Update`, `ShakeCamera`, `AddDustParticles`, `StartGame`,
  `HandleKeyPress`, `HandleClick`) require and keep `Valid()`, the invariant on the fields.
  The internal steps `UpdateCamera`, `NextScene` and `EndGame` run in the middle of
  `update`, where the invariant is temporarily broken, so they neither require nor ensure it.

Numbers are exact `real`s, not IEEE doubles. Frame times are non-negative. Each call of
`Math.random()` is a parameter in [0, 1): `ShakeDraws` for a camera update, `DustDraws`
for a dust emission. The canvas size is a parameter of the dust emitter. Whether the title
screen is still showing is a boolean parameter of the click handler.

The model follows what `script.js` does, including where it departs from the intended design
of a cutscene director:
- The shake timer drops by 16 on every camera update, whatever the frame time.
- The shake intensity is never reset, and the timer can go below zero.
- Scenes advance on time alone, even with dialogue still to show.
- A click while playing always skips to the next scene.
- Particles are never removed.
- There is no restart operation: restarting reloads the page.

One departure from the code is deliberate: the class starts the game only while a scene
remains, because the start as written breaks the invariant (see "## Findings").

## Model

| member | source | states |
|---|---|---|
| Scenes.SourceScenes | script.js:70-91 | the game is built with exactly two scenes, indexed by their ids, each with a positive duration and positive zoom factors |
| Timeline.Inv | script.js:28-44 | the director's invariant: while playing the index names a real scene, the index never passes the number of scenes, progress is time over duration and lies in [0, 1), zoom is positive; it implies that the active scene's time is below its duration |
| Timeline.Initial | script.js:28-44 | the state literal the constructor builds, which satisfies the invariant for the game's two scenes |
| Timeline.InitialInv | script.js:28-44 | the state the constructor builds satisfies the director's invariant for any well-formed scene list |
| Timeline.Lerp | script.js:178-180 | the interpolated camera coordinate is the start at progress 0, the end at progress 1, and lies between them for progress in [0, 1] |
| Timeline.ShakeOffset | script.js:185-187 | the random offset a shaking camera adds to x or y is never larger in size than the shake intensity |
| Timeline.DecayShake | script.js:183-184 | an active shake loses exactly 16 ms per camera update and keeps its intensity; an expired one is unchanged |
| Timeline.UpdateCamera | script.js:173-189 | zoom follows the path; with no active shake x and y are exactly on the path, otherwise each is within the intensity of it; the shake timer is counted down once |
| Timeline.CameraFollowsPath | script.js:178-180 | an unshaken camera sits on the path's start at progress 0 and on its end at progress 1, and its zoom stays positive for progress in [0, 1] |
| Timeline.FirstSceneCameraHalfway | script.js:75 | halfway through the first scene the camera is at x 0, y -50, zoom 0.55 |
| Timeline.ShakeCountsDown | script.js:183-184 | while the timer stays positive, n camera updates take exactly 16·n ms off it and leave the intensity alone |
| Timeline.ExpiredShakeStays | script.js:183 | once the shake timer is at or below zero, no number of camera updates changes the shake |
| Timeline.ShakeCamera | script.js:734-739 | sets the shake's intensity and duration to the arguments and changes nothing else |
| Timeline.EndGame | script.js:776-778 | stops playing and changes nothing else |
| Timeline.NextScene | script.js:758-767 | the scene index goes up by exactly 1; progress, time and dialogue index become 0; playing stops exactly when the new index reaches the number of scenes; from a valid state the invariant holds again |
| Timeline.Update | script.js:145-171 | stopped or paused: no change. Otherwise the scene's time grows by deltaTime. Below the duration, the scene stays, progress = time / duration and the game plays on. At the duration, the next scene starts with 0 counters and playing stops past the last scene. The camera follows the path at the clamped progress. The invariant is kept |
| Timeline.Run | script.js:128-142 | one `update` per animation frame keeps the invariant and never changes the pause flag or the particles |
| Timeline.RunStaysInScene | script.js:148-152 | while the time accumulated since the scene started stays below its duration, the scene stays and keeps playing, its time is the accumulated time, and the shake has been counted down once per frame |
| Timeline.SceneAdvancesAtDuration | script.js:148-167 | on the first frame at which the accumulated time reaches the duration the scene advances, and not before: the scene is unchanged if and only if the total is below the duration |
| Timeline.StoppedRunIsNoOp | script.js:146 | a stopped or paused game ignores any number of frames, so a finished game is frozen |
| Timeline.NewDust | script.js:651-659 | a new dust particle has life in [100, 200), radius in [1, 4), vy in (-0.5, 0], vx in [-0.25, 0.25) and lies within half the canvas size of the origin |
| Timeline.AddDustParticles | script.js:649-661 | appends one particle exactly when the chance draw is below 0.3 and none otherwise; the existing particles and the rest of the state are unchanged |
| Timeline.HandleKeyPress | script.js:805-816 | Escape flips the pause flag, other keys leave it alone, and nothing else changes |
| Timeline.EscapeTwiceRestores | script.js:812-814 | pressing Escape twice restores the state |
| Timeline.StartGameAsWritten | script.js:745-756 | the source's start sets the playing flag whatever the scene index, changing nothing else |
| Timeline.StartGame | script.js:745-756 | the guarded start plays exactly when already playing or a scene remains, changes nothing else, and keeps the invariant |
| Timeline.HandleClickAsWritten | script.js:818-824 | as written: a click with the title showing while stopped is exactly `StartGameAsWritten`, a click while playing is exactly `nextScene`, any other click changes nothing |
| Timeline.HandleClick | script.js:818-824 | a click while playing is exactly `NextScene` (so the index goes up by one); a click while stopped with the title showing is exactly the guarded start, and starts playing when a scene remains; a click while stopped with the title hidden changes nothing; after the last scene no click changes anything; the invariant is kept |
| Timeline.ClickAfterEndRestartsPastLastScene | script.js:818-822 | four clicks before the title is hidden end the game and then, as written, set it playing with the index past the last scene, breaking the invariant that `update` relies on at line 151 |
| Timeline.ClickAfterEndIsIgnored | script.js:818-822 | the same four clicks with the guarded start leave the finished game finished and the invariant intact |
| Game.DragonBallGame.constructor | script.js:8-44 | builds the two scenes and the initial state, and establishes the invariant |
| Game.DragonBallGame.Update | script.js:145-171 | updates the fields in place exactly as `Timeline.Update` says, keeping the invariant; stopped or paused, nothing changes |
| Game.DragonBallGame.UpdateCamera | script.js:173-189 | changes only the camera, to `Timeline.UpdateCamera` of the old camera at the current progress |
| Game.DragonBallGame.ShakeCamera | script.js:734-739 | changes only the camera's shake, as `Timeline.ShakeCamera` says, keeping the invariant |
| Game.DragonBallGame.NextScene | script.js:758-774 | changes the scene counters and the playing flag as `Timeline.NextScene` says |
| Game.DragonBallGame.EndGame | script.js:776-781 | clears only the playing flag |
| Game.DragonBallGame.AddDustParticles | script.js:649-661 | changes only the particle list, as `Timeline.AddDustParticles` says, keeping the invariant |
| Game.DragonBallGame.StartGame | script.js:745-756 | sets the playing flag only while a scene remains, keeping the invariant |
| Game.DragonBallGame.HandleKeyPress | script.js:805-816 | changes only the pause flag, as `Timeline.HandleKeyPress` says |
| Game.DragonBallGame.HandleClick | script.js:818-824 | starts or advances as `Timeline.HandleClick` says, keeping the invariant |

## Findings

| source | as written | input that shows it | evidently intended | confidence | as-written member | corrected member |
|---|---|---|---|---|---|---|
| script.js:745-746, 818-820 | `startGame` sets `isPlaying` without checking that a scene remains, and `handleClick` calls it whenever the game is stopped and the title screen lacks the `hidden` class (added 500 ms after the start) | four canvas clicks within 500 ms of the first: start, skip to scene 2, skip past it (game ends), start again. Now `isPlaying` holds with `currentScene == 2`, and the next `update` reads `scenes[2].duration` of `undefined` | the game can only start while a scene remains, so "playing implies a valid scene index" always holds | medium, not executed | Timeline.ClickAfterEndRestartsPastLastScene (over Timeline.StartGameAsWritten) | Timeline.ClickAfterEndIsIgnored (over Timeline.StartGame, used by Game.DragonBallGame.StartGame) |

## Left out

- Rendering (`render`, `applyCameraTransform`, the `renderSceneN` and `draw*` methods) is drawing on an external 2D context. The state changes some of them make are modelled only as the operations they call: `addDustParticles` and `shakeCamera`. The camera tremble added directly in `renderScene5` is left out.
- DOM and UI (`init`, `resizeCanvas`, `updateUI`, `showDialogue`, `showEndingCredits`, `updateDebugInfo`, the `classList` checks) are host effects. The title check in `handleClick` is a boolean parameter. The canvas size is a parameter of the dust emitter.
- Audio and timers (`playSceneAudio`, `playDialogueAudio`, the delayed `shakeCamera(20, 2000)`, the title fade-out) are asynchronous and outside this model. So the model never moves `dialogueIndex` off 0; only its reset in `nextScene` is modelled.
- Restarting reloads the page, a host action.
- `gameLoop` (requestAnimationFrame and the FPS counter) is not modelled; `Timeline.Run` stands for a sequence of its `update` calls.
- `updateParticles`, `updateEffects`, `updateCharacters` and `nextDialogue` are called but not defined in `script.js`. They are modelled as hooks with no effect, so the model neither prunes particles nor walks the dialogue on Space. In JavaScript a call to an undefined method throws; the model does not capture that. As written, `update` throws at line 158, before the scene-end check at line 165, and `render` throws at line 199 (`drawBackground` is not defined either) on the first frame, before line 142 requests the next one; the auto-advance the model proves happens only when these calls are read as hooks with no effect.
- The `effects`, `currentDialogue` and `characters` state is never changed by the modelled operations, so it is not modelled.
- `Math.random` becomes bounded parameters. Its distribution, and the probability 0.3 as a probability, are not modelled; only the threshold is.
- JavaScript's floating point (rounding, NaN, infinities) is replaced by exact reals.
