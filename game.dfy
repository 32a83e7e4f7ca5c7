/** The game object itself: the fields of `DragonBallGame.state` and its scene list,
    updated in place by the same methods as in the source, with the start guarded as
    `Timeline.StartGame` says. Every method is proved to move the fields exactly as the
    matching function of module Timeline says; the public entry points also keep the
    director's invariant. */
module Game {
  import opened Scenes
  import opened Timeline

  class DragonBallGame {
    const scenes: seq<Scene>

    var currentScene: nat
    var sceneProgress: real
    var isPlaying: bool
    var isPaused: bool
    var dialogueIndex: nat
    var camera: Camera
    var particles: seq<Particle>
    var time: real

    /** The fields as one value. */
    function State(): GameState
      reads this
    {
      GameState(currentScene, sceneProgress, isPlaying, isPaused, dialogueIndex, camera,
                particles, time)
    }

    ghost predicate Valid()
      reads this
    {
      Inv(scenes, State())
    }

    constructor ()
      ensures Valid()
      ensures scenes == SourceScenes() && State() == Initial()
    {
      scenes := SourceScenes();
      currentScene := 0;
      sceneProgress := 0.0;
      isPlaying := false;
      isPaused := false;
      dialogueIndex := 0;
      camera := Camera(0.0, 0.0, 1.0, Shake(0.0, 0.0));
      particles := [];
      time := 0.0;
      new;
      InitialInv(scenes);
    }

    /** One frame of `deltaTime` ms; `draws` are the two random numbers a shaking camera takes. */
    method Update(deltaTime: real, draws: ShakeDraws)
      requires Valid() && deltaTime >= 0.0 && ValidShakeDraws(draws)
      modifies this
      ensures Valid()
      ensures State() == Timeline.Update(scenes, old(State()), deltaTime, draws)
      ensures !old(isPlaying) || old(isPaused) ==> State() == old(State())
    {
      if !isPlaying || isPaused {
        return;
      }
      time := time + deltaTime;
      var scene := scenes[currentScene];
      assert WellFormedScene(scene);
      sceneProgress := Min(time / scene.duration, 1.0);
      UpdateCamera(scene, draws);
      // updateParticles, updateEffects and updateCharacters hold no state of this model
      if sceneProgress >= 1.0 {
        NextScene();
      }
    }

    method UpdateCamera(scene: Scene, draws: ShakeDraws)
      requires ValidShakeDraws(draws)
      modifies this`camera
      ensures camera == Timeline.UpdateCamera(old(camera), scene.camera, sceneProgress, draws)
    {
      var progress := sceneProgress;
      var start := scene.camera.start;
      var end := scene.camera.end;
      camera := camera.(x := Lerp(start.x, end.x, progress),
                        y := Lerp(start.y, end.y, progress),
                        zoom := Lerp(start.zoom, end.zoom, progress));
      if camera.shake.duration > 0.0 {
        camera := camera.(shake := camera.shake.(duration := camera.shake.duration - ShakeStep));
        var intensity := camera.shake.intensity;
        camera := camera.(x := camera.x + ShakeOffset(draws.dx, intensity));
        camera := camera.(y := camera.y + ShakeOffset(draws.dy, intensity));
      }
    }

    method ShakeCamera(intensity: real, duration: real)
      requires Valid()
      modifies this`camera
      ensures Valid()
      ensures State() == Timeline.ShakeCamera(old(State()), intensity, duration)
    {
      camera := camera.(shake := Shake(intensity, duration));
    }

    method NextScene()
      modifies this`currentScene, this`sceneProgress, this`time, this`dialogueIndex, this`isPlaying
      ensures State() == Timeline.NextScene(scenes, old(State()))
    {
      currentScene := currentScene + 1;
      sceneProgress := 0.0;
      time := 0.0;
      dialogueIndex := 0;
      if currentScene >= |scenes| {
        EndGame();
        return;
      }
      // playSceneAudio and hiding the dialogue box are audio and DOM effects
    }

    method EndGame()
      modifies this`isPlaying
      ensures State() == Timeline.EndGame(old(State()))
    {
      isPlaying := false;
    }

    /** One call of the dust emitter on a canvas of the given size. */
    method AddDustParticles(draws: DustDraws, width: nat, height: nat)
      requires Valid() && ValidDustDraws(draws)
      modifies this`particles
      ensures Valid()
      ensures State() == Timeline.AddDustParticles(old(State()), draws, width, height)
    {
      if draws.chance < DustChance {
        particles := particles + [NewDust(draws, width, height)];
      }
    }

    method StartGame()
      requires Valid()
      modifies this`isPlaying
      ensures Valid()
      ensures State() == Timeline.StartGame(scenes, old(State()))
    {
      if currentScene < |scenes| {
        isPlaying := true;
      }
      // fading out the title screen and playSceneAudio(0) are DOM and audio effects
    }

    method HandleKeyPress(key: Key)
      requires Valid()
      modifies this`isPaused
      ensures Valid()
      ensures State() == Timeline.HandleKeyPress(old(State()), key)
    {
      match key
      case Space =>
        // nextDialogue is a hook that holds no state of this model
      case Escape =>
        isPaused := !isPaused;
      case OtherKey =>
    }

    /** A click on the canvas; `titleVisible` is whether the title screen is not yet hidden. */
    method HandleClick(titleVisible: bool)
      requires Valid()
      modifies this`isPlaying, this`currentScene, this`sceneProgress, this`time, this`dialogueIndex
      ensures Valid()
      ensures State() == Timeline.HandleClick(scenes, old(State()), titleVisible)
    {
      if !isPlaying && titleVisible {
        StartGame();
      } else if isPlaying {
        NextScene();
      }
    }
  }
}
