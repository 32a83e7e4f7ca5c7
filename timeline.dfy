/** The state of the cutscene director as a value, and every transition of
    `DragonBallGame` as a function on that value. The class in module Game keeps
    the same state in fields and is proved to follow these functions. */
module Timeline {
  import opened Scenes

  /** Camera shake: offset amplitude and remaining time in ms. */
  datatype Shake = Shake(intensity: real, duration: real)

  datatype Camera = Camera(x: real, y: real, zoom: real, shake: Shake)

  datatype Particle = Particle(x: real, y: real, vx: real, vy: real, radius: real,
                               color: string, life: real)

  /** The mutable part of the game object (`this.state`). */
  datatype GameState = GameState(
    currentScene: nat,
    sceneProgress: real,
    isPlaying: bool,
    isPaused: bool,
    dialogueIndex: nat,
    camera: Camera,
    particles: seq<Particle>,
    time: real)

  /** Decrement of the shake timer on every camera update, whatever the frame time. */
  const ShakeStep: real := 16.0

  /** Probability with which one dust particle is emitted per call. */
  const DustChance: real := 0.3

  const DustColor: string := "rgba(200, 180, 140, 0.5)"

  /** A value returned by the host's uniform random source: a number in [0, 1). */
  predicate IsDraw(r: real) { 0.0 <= r < 1.0 }

  /** The two random draws of one camera update (x offset, y offset). */
  datatype ShakeDraws = ShakeDraws(dx: real, dy: real)

  predicate ValidShakeDraws(d: ShakeDraws) { IsDraw(d.dx) && IsDraw(d.dy) }

  /** The seven random draws of one dust emission, in the order they are taken. */
  datatype DustDraws = DustDraws(chance: real, x: real, y: real, vx: real, vy: real,
                                 radius: real, life: real)

  predicate ValidDustDraws(d: DustDraws)
  {
    IsDraw(d.chance) && IsDraw(d.x) && IsDraw(d.y) && IsDraw(d.vx) && IsDraw(d.vy)
    && IsDraw(d.radius) && IsDraw(d.life)
  }

  /** The keys the key handler distinguishes. */
  datatype Key = Space | Escape | OtherKey

  /** One animation frame as seen by `update`: its delta time and its shake draws. */
  datatype Tick = Tick(dt: real, draws: ShakeDraws)

  predicate ValidTicks(ticks: seq<Tick>)
  {
    forall i :: 0 <= i < |ticks| ==> ticks[i].dt >= 0.0 && ValidShakeDraws(ticks[i].draws)
  }

  /** The state the constructor builds; it satisfies the invariant for the game's scenes. */
  function Initial(): (s: GameState)
    ensures Inv(SourceScenes(), s)
  {
    assert WellFormedScene(SourceScenes()[0]);
    GameState(0, 0.0, false, false, 0, Camera(0.0, 0.0, 1.0, Shake(0.0, 0.0)), [], 0.0)
  }

  function Min(a: real, b: real): real { if a <= b then a else b }

  function Max(a: real, b: real): real { if a <= b then b else a }

  function Abs(a: real): real { if a < 0.0 then -a else a }

  /** The director's invariant. While playing, `currentScene` names a real scene;
      past the last scene the game is over. The progress of the active scene is its
      elapsed time over its duration, and is below 1 between updates. */
  predicate Inv(scenes: seq<Scene>, s: GameState)
    ensures Inv(scenes, s) && s.currentScene < |scenes| ==> s.time < scenes[s.currentScene].duration
  {
    ClockBelowDuration(s.time, if s.currentScene < |scenes| then scenes[s.currentScene].duration else 1.0);
    && WellFormed(scenes)
    && s.currentScene <= |scenes|
    && (s.isPlaying ==> s.currentScene < |scenes|)
    && 0.0 <= s.time
    && 0.0 <= s.sceneProgress < 1.0
    && (s.currentScene < |scenes| ==>
          && s.sceneProgress == s.time / scenes[s.currentScene].duration
          && s.dialogueIndex <= |scenes[s.currentScene].dialogue|)
    && s.camera.zoom > 0.0
  }

  lemma ClockBelowDuration(t: real, d: real)
    ensures d > 0.0 && t / d < 1.0 ==> t < d
  {
    if d > 0.0 && t / d < 1.0 {
      DivAtLeastOne(t, d);
    }
  }

  lemma InitialInv(scenes: seq<Scene>)
    requires WellFormed(scenes)
    ensures Inv(scenes, Initial())
  {
    if 0 < |scenes| {
      assert WellFormedScene(scenes[0]);
    }
  }

  // ---------------------------------------------------------------- camera

  /** `start + (end - start) * p`: the start at p = 0, the end at p = 1, and
      between the two for every p in [0, 1]. */
  function Lerp(a: real, b: real, p: real): (r: real)
    ensures p == 0.0 ==> r == a
    ensures p == 1.0 ==> r == b
    ensures 0.0 <= p <= 1.0 ==> Min(a, b) <= r <= Max(a, b)
  {
    LerpBetween(a, b, p);
    a + (b - a) * p
  }

  lemma LerpBetween(a: real, b: real, p: real)
    ensures 0.0 <= p <= 1.0 ==> Min(a, b) <= a + (b - a) * p <= Max(a, b)
  {
    if 0.0 <= p <= 1.0 {
      if a <= b {
        MulNonneg(b - a, p);
        MulNonneg(b - a, 1.0 - p);
      } else {
        MulNonneg(a - b, p);
        MulNonneg(a - b, 1.0 - p);
      }
    }
  }

  lemma MulNonneg(a: real, b: real)
    requires a >= 0.0 && b >= 0.0
    ensures a * b >= 0.0
  {
  }

  /** The offset one shaking camera update adds to an axis: `(r - 0.5) * intensity * 2`
      for a draw r, never larger in size than the intensity. */
  function ShakeOffset(r: real, intensity: real): (o: real)
    requires IsDraw(r)
    ensures Abs(o) <= Abs(intensity)
  {
    ScaledDrawBound(r, intensity);
    (r - 0.5) * intensity * 2.0
  }

  lemma ScaledDrawBound(r: real, intensity: real)
    requires IsDraw(r)
    ensures Abs((r - 0.5) * intensity * 2.0) <= Abs(intensity)
  {
    var f := (r - 0.5) * 2.0;
    var m := Abs(intensity);
    assert (r - 0.5) * intensity * 2.0 == f * intensity;
    MulNonneg(1.0 - f, m);
    MulNonneg(f + 1.0, m);
    assert f * intensity == f * m || f * intensity == -(f * m);
  }

  /** One update of the shake timer: an active shake (duration > 0) loses exactly
      ShakeStep ms, an expired one is left alone; the intensity never changes. */
  function DecayShake(sh: Shake): (r: Shake)
    ensures r.intensity == sh.intensity
    ensures sh.duration > 0.0 ==> r.duration == sh.duration - ShakeStep
    ensures sh.duration <= 0.0 ==> r == sh
  {
    if sh.duration > 0.0 then sh.(duration := sh.duration - ShakeStep) else sh
  }

  /** `updateCamera(scene)`: place the camera on the scene's path at `progress` and,
      while a shake is active, count its timer down and jitter x and y. */
  function UpdateCamera(c: Camera, path: CameraPath, progress: real, d: ShakeDraws): (r: Camera)
    requires ValidShakeDraws(d)
    ensures r.zoom == Lerp(path.start.zoom, path.end.zoom, progress)
    ensures r.shake == DecayShake(c.shake)
    ensures c.shake.duration <= 0.0 ==>
              r.x == Lerp(path.start.x, path.end.x, progress)
              && r.y == Lerp(path.start.y, path.end.y, progress)
    ensures Abs(r.x - Lerp(path.start.x, path.end.x, progress)) <= Abs(c.shake.intensity)
    ensures Abs(r.y - Lerp(path.start.y, path.end.y, progress)) <= Abs(c.shake.intensity)
  {
    var onPath := Camera(Lerp(path.start.x, path.end.x, progress),
                         Lerp(path.start.y, path.end.y, progress),
                         Lerp(path.start.zoom, path.end.zoom, progress),
                         c.shake);
    if c.shake.duration > 0.0 then
      onPath.(x := onPath.x + ShakeOffset(d.dx, c.shake.intensity),
              y := onPath.y + ShakeOffset(d.dy, c.shake.intensity),
              shake := DecayShake(c.shake))
    else
      onPath
  }

  /** At progress 0 an unshaken camera sits on the path's start, at progress 1 on its end,
      and for every progress in [0, 1] its zoom stays positive when both key zooms are. */
  lemma CameraFollowsPath(c: Camera, path: CameraPath, progress: real, d: ShakeDraws)
    requires ValidShakeDraws(d) && c.shake.duration <= 0.0
    ensures var r := UpdateCamera(c, path, progress, d);
      && (progress == 0.0 ==> r.x == path.start.x && r.y == path.start.y && r.zoom == path.start.zoom)
      && (progress == 1.0 ==> r.x == path.end.x && r.y == path.end.y && r.zoom == path.end.zoom)
      && (0.0 <= progress <= 1.0 && path.start.zoom > 0.0 && path.end.zoom > 0.0 ==> r.zoom > 0.0)
  {
  }

  /** Halfway through the first scene, an unshaken camera is halfway along its path:
      x 0, y -50 and zoom 0.55. */
  lemma FirstSceneCameraHalfway(d: ShakeDraws)
    requires ValidShakeDraws(d)
    ensures var r := UpdateCamera(Initial().camera, SourceScenes()[0].camera, 0.5, d);
      r.x == 0.0 && r.y == -50.0 && r.zoom == 0.55
  {
  }

  /** The shake timer after n camera updates. */
  function DecayN(sh: Shake, n: nat): Shake
  {
    if n == 0 then sh else DecayShake(DecayN(sh, n - 1))
  }

  /** While the timer stays positive, n updates take exactly 16 * n ms off it. */
  lemma {:induction false} ShakeCountsDown(sh: Shake, n: nat)
    requires n == 0 || sh.duration > ShakeStep * (n - 1) as real
    ensures DecayN(sh, n) == Shake(sh.intensity, sh.duration - ShakeStep * n as real)
  {
    if n > 0 {
      if n > 1 {
        ShakeCountsDown(sh, n - 1);
      }
    }
  }

  /** Once the timer is at or below zero, further updates leave the shake as it is. */
  lemma {:induction false} ExpiredShakeStays(sh: Shake, n: nat)
    requires sh.duration <= 0.0
    ensures DecayN(sh, n) == sh
  {
    if n > 0 {
      ExpiredShakeStays(sh, n - 1);
    }
  }

  /** `shakeCamera(intensity, duration)`: replace the shake and nothing else. */
  function ShakeCamera(s: GameState, intensity: real, duration: real): (r: GameState)
    ensures r.camera.shake == Shake(intensity, duration)
    ensures r.camera.(shake := s.camera.shake) == s.camera
    ensures r.(camera := s.camera) == s
  {
    s.(camera := s.camera.(shake := Shake(intensity, duration)))
  }

  // ---------------------------------------------------------------- scene flow

  /** `endGame()`: stop playing; nothing else of the state changes. */
  function EndGame(s: GameState): (r: GameState)
    ensures !r.isPlaying
    ensures r.(isPlaying := s.isPlaying) == s
  {
    s.(isPlaying := false)
  }

  /** `nextScene()`: move to the following scene with fresh per-scene counters, and end
      the game once the index has run past the last scene. */
  function NextScene(scenes: seq<Scene>, s: GameState): (r: GameState)
    ensures r.currentScene == s.currentScene + 1
    ensures r.sceneProgress == 0.0 && r.time == 0.0 && r.dialogueIndex == 0
    ensures r.isPlaying <==> s.isPlaying && r.currentScene < |scenes|
    ensures r.isPaused == s.isPaused && r.camera == s.camera && r.particles == s.particles
    ensures WellFormed(scenes) && s.currentScene < |scenes| && s.camera.zoom > 0.0 ==> Inv(scenes, r)
  {
    var advanced := s.(currentScene := s.currentScene + 1, sceneProgress := 0.0, time := 0.0,
                       dialogueIndex := 0);
    if advanced.currentScene >= |scenes| then EndGame(advanced) else advanced
  }

  lemma DivAtLeastOne(t: real, d: real)
    requires d > 0.0
    ensures t / d >= 1.0 <==> t >= d
    ensures t >= 0.0 ==> t / d >= 0.0
  {
    assert t / d * d == t;
    if t / d >= 1.0 {
      assert t / d * d >= 1.0 * d;
    }
  }

  /** `update(deltaTime)`. Paused or stopped, nothing changes. Otherwise the scene's
      clock advances by deltaTime, the camera follows the scene, and when the scene's
      clock has reached its duration the next scene starts. */
  function Update(scenes: seq<Scene>, s: GameState, dt: real, d: ShakeDraws): (r: GameState)
    requires Inv(scenes, s) && dt >= 0.0 && ValidShakeDraws(d)
    ensures Inv(scenes, r)
    ensures !s.isPlaying || s.isPaused ==> r == s
    ensures s.isPlaying && !s.isPaused ==>
              var scene := scenes[s.currentScene];
              var t := s.time + dt;
              && r.camera == UpdateCamera(s.camera, scene.camera, Min(t / scene.duration, 1.0), d)
              && (t < scene.duration ==>
                    && r.currentScene == s.currentScene && r.isPlaying
                    && r.time == t && r.sceneProgress == t / scene.duration
                    && r.dialogueIndex == s.dialogueIndex)
              && (t >= scene.duration ==>
                    && r.currentScene == s.currentScene + 1
                    && r.time == 0.0 && r.sceneProgress == 0.0 && r.dialogueIndex == 0
                    && (r.isPlaying <==> r.currentScene < |scenes|))
    ensures r.isPaused == s.isPaused && r.particles == s.particles
  {
    if !s.isPlaying || s.isPaused then s
    else
      var scene := scenes[s.currentScene];
      assert WellFormedScene(scene);
      var t := s.time + dt;
      DivAtLeastOne(t, scene.duration);
      var timed := s.(time := t, sceneProgress := Min(t / scene.duration, 1.0));
      var moved := timed.(camera := UpdateCamera(timed.camera, scene.camera, timed.sceneProgress, d));
      // updateParticles, updateEffects and updateCharacters hold no state of this model
      if moved.sceneProgress >= 1.0 then NextScene(scenes, moved) else moved
  }

  /** The total frame time of a run of ticks. */
  function Elapsed(ticks: seq<Tick>): real
  {
    if ticks == [] then 0.0 else Elapsed(ticks[..|ticks| - 1]) + ticks[|ticks| - 1].dt
  }

  /** The state after one `update` per tick, in order. */
  function Run(scenes: seq<Scene>, s: GameState, ticks: seq<Tick>): (r: GameState)
    requires Inv(scenes, s) && ValidTicks(ticks)
    ensures Inv(scenes, r)
    ensures r.isPaused == s.isPaused && r.particles == s.particles
    decreases |ticks|
  {
    if ticks == [] then s
    else
      var last := ticks[|ticks| - 1];
      ValidPrefix(ticks);
      Update(scenes, Run(scenes, s, ticks[..|ticks| - 1]), last.dt, last.draws)
  }

  lemma ValidPrefix(ticks: seq<Tick>)
    requires ValidTicks(ticks) && |ticks| > 0
    ensures ValidTicks(ticks[..|ticks| - 1])
    ensures ticks[|ticks| - 1].dt >= 0.0
  {
  }

  /** While the time accumulated since the scene started stays below its duration, the
      scene does not change: its clock is the accumulated time, the game keeps playing,
      and the shake has been counted down once per frame. */
  lemma {:induction false} RunStaysInScene(scenes: seq<Scene>, s: GameState, ticks: seq<Tick>)
    requires Inv(scenes, s) && ValidTicks(ticks) && s.isPlaying && !s.isPaused
    requires s.time + Elapsed(ticks) < scenes[s.currentScene].duration
    ensures var r := Run(scenes, s, ticks);
      && r.currentScene == s.currentScene && r.isPlaying && !r.isPaused
      && r.time == s.time + Elapsed(ticks)
      && r.camera.shake == DecayN(s.camera.shake, |ticks|)
  {
    if ticks != [] {
      var prefix := ticks[..|ticks| - 1];
      ValidPrefix(ticks);
      RunStaysInScene(scenes, s, prefix);
    }
  }

  /** The scene advances exactly on the frame at which the accumulated time reaches its
      duration: given that the earlier frames stayed below it, the last frame leaves the
      scene unchanged if and only if the total is still below the duration, and otherwise
      starts the next scene (or ends the game after the last one). */
  lemma {:induction false} SceneAdvancesAtDuration(scenes: seq<Scene>, s: GameState, ticks: seq<Tick>)
    requires Inv(scenes, s) && ValidTicks(ticks) && s.isPlaying && !s.isPaused && |ticks| > 0
    requires s.time + Elapsed(ticks[..|ticks| - 1]) < scenes[s.currentScene].duration
    ensures var r := Run(scenes, s, ticks);
      && (r.currentScene == s.currentScene <==> s.time + Elapsed(ticks) < scenes[s.currentScene].duration)
      && (s.time + Elapsed(ticks) >= scenes[s.currentScene].duration ==>
            && r.currentScene == s.currentScene + 1 && r.time == 0.0 && r.sceneProgress == 0.0
            && (r.isPlaying <==> s.currentScene + 1 < |scenes|))
  {
    ValidPrefix(ticks);
    RunStaysInScene(scenes, s, ticks[..|ticks| - 1]);
  }

  /** A stopped or paused game ignores any number of frames; in particular, once the last
      scene has ended, no update changes anything. */
  lemma {:induction false} StoppedRunIsNoOp(scenes: seq<Scene>, s: GameState, ticks: seq<Tick>)
    requires Inv(scenes, s) && ValidTicks(ticks) && (!s.isPlaying || s.isPaused)
    ensures Run(scenes, s, ticks) == s
  {
    if ticks != [] {
      ValidPrefix(ticks);
      StoppedRunIsNoOp(scenes, s, ticks[..|ticks| - 1]);
    }
  }

  // ---------------------------------------------------------------- particles

  /** The ranges the emission formulas give a fresh dust particle. */
  predicate IsFreshDust(p: Particle, width: nat, height: nat)
  {
    && 100.0 <= p.life < 200.0
    && 1.0 <= p.radius < 4.0
    && -0.5 < p.vy <= 0.0
    && -0.25 <= p.vx < 0.25
    && Abs(p.x) <= width as real / 2.0
    && Abs(p.y) <= height as real / 2.0
    && p.color == DustColor
  }

  /** The particle one successful emission creates from its draws: spread over the
      canvas around the origin, drifting sideways and upwards. */
  function NewDust(d: DustDraws, width: nat, height: nat): (p: Particle)
    requires ValidDustDraws(d)
    ensures IsFreshDust(p, width, height)
  {
    var w := width as real;
    var h := height as real;
    CenteredDrawBound(d.x, w);
    CenteredDrawBound(d.y, h);
    Particle((d.x - 0.5) * w, (d.y - 0.5) * h, (d.vx - 0.5) * 0.5, d.vy * -0.5,
             d.radius * 3.0 + 1.0, DustColor, 100.0 + d.life * 100.0)
  }

  lemma CenteredDrawBound(r: real, k: real)
    requires IsDraw(r) && k >= 0.0
    ensures Abs((r - 0.5) * k) <= k / 2.0
  {
    MulNonneg(r, k);
    MulNonneg(1.0 - r, k);
  }

  /** `addDustParticles()`: with probability DustChance append one dust particle spread
      over the canvas; never touch the particles already there, nor anything else. */
  function AddDustParticles(s: GameState, d: DustDraws, width: nat, height: nat): (r: GameState)
    requires ValidDustDraws(d)
    ensures |r.particles| == |s.particles| + (if d.chance < DustChance then 1 else 0)
    ensures r.particles[..|s.particles|] == s.particles
    ensures |r.particles| > |s.particles| ==> IsFreshDust(r.particles[|s.particles|], width, height)
    ensures r.(particles := s.particles) == s
  {
    if d.chance < DustChance then
      var p := NewDust(d, width, height);
      assert (s.particles + [p])[..|s.particles|] == s.particles;
      s.(particles := s.particles + [p])
    else
      s
  }

  // ---------------------------------------------------------------- input

  /** `handleKeyPress(e)`: Escape flips the pause flag; Space calls a dialogue hook that
      holds no state of this model; other keys do nothing. */
  function HandleKeyPress(s: GameState, key: Key): (r: GameState)
    ensures r.isPaused == (if key == Escape then !s.isPaused else s.isPaused)
    ensures r.(isPaused := s.isPaused) == s
  {
    match key
    case Escape => s.(isPaused := !s.isPaused)
    case Space => s
    case OtherKey => s
  }

  /** Pressing Escape twice restores the state. */
  lemma EscapeTwiceRestores(s: GameState)
    ensures HandleKeyPress(HandleKeyPress(s, Escape), Escape) == s
  {
  }

  /** `startGame()` as the source writes it: set the playing flag, whatever the scene. */
  function StartGameAsWritten(s: GameState): (r: GameState)
    ensures r.isPlaying
    ensures r.(isPlaying := s.isPlaying) == s
  {
    s.(isPlaying := true)
  }

  /** `startGame()` with the guard it needs: play only while a scene remains. */
  function StartGame(scenes: seq<Scene>, s: GameState): (r: GameState)
    ensures r.isPlaying <==> s.isPlaying || s.currentScene < |scenes|
    ensures r.(isPlaying := s.isPlaying) == s
    ensures Inv(scenes, s) ==> Inv(scenes, r)
  {
    if s.currentScene < |scenes| then s.(isPlaying := true) else s
  }

  /** `handleClick()` as the source writes it; `titleVisible` stands for the title screen
      not yet carrying the `hidden` class. */
  function HandleClickAsWritten(scenes: seq<Scene>, s: GameState, titleVisible: bool): (r: GameState)
    ensures !s.isPlaying && titleVisible ==> r == StartGameAsWritten(s)
    ensures s.isPlaying ==> r == NextScene(scenes, s)
    ensures !s.isPlaying && !titleVisible ==> r == s
  {
    if !s.isPlaying && titleVisible then StartGameAsWritten(s)
    else if s.isPlaying then NextScene(scenes, s)
    else s
  }

  /** `handleClick()` over the guarded start. A click while playing skips to the next
      scene; a click after the last scene has ended changes nothing; the invariant holds. */
  function HandleClick(scenes: seq<Scene>, s: GameState, titleVisible: bool): (r: GameState)
    requires Inv(scenes, s)
    ensures Inv(scenes, r)
    ensures s.isPlaying ==> r == NextScene(scenes, s)
    ensures s.isPlaying ==> r.currentScene == s.currentScene + 1 && r.time == 0.0
    ensures !s.isPlaying && titleVisible ==> r == StartGame(scenes, s)
    ensures !s.isPlaying && !titleVisible ==> r == s
    ensures !s.isPlaying ==> r.currentScene == s.currentScene
    ensures !s.isPlaying && titleVisible && s.currentScene < |scenes| ==> r.isPlaying
    ensures s.currentScene == |scenes| ==> r == s
  {
    if !s.isPlaying && titleVisible then StartGame(scenes, s)
    else if s.isPlaying then NextScene(scenes, s)
    else s
  }

  /** Four clicks while the title screen has not yet been hidden: the first starts the game,
      the next two run through both scenes and end it, and the fourth, as written, starts
      the game again with `currentScene` past the last scene, which `update` then indexes. */
  lemma ClickAfterEndRestartsPastLastScene()
    ensures var scenes := SourceScenes();
      var s1 := HandleClickAsWritten(scenes, Initial(), true);
      var s2 := HandleClickAsWritten(scenes, s1, true);
      var s3 := HandleClickAsWritten(scenes, s2, true);
      var s4 := HandleClickAsWritten(scenes, s3, true);
      && Inv(scenes, s3) && !s3.isPlaying
      && s4.isPlaying && s4.currentScene == |scenes| && !Inv(scenes, s4)
  {
    InitialInv(SourceScenes());
  }

  /** The same four clicks over the guarded start leave the finished game finished. */
  lemma ClickAfterEndIsIgnored()
    ensures var scenes := SourceScenes();
      var s1 := HandleClick(scenes, Initial(), true);
      var s2 := HandleClick(scenes, s1, true);
      var s3 := HandleClick(scenes, s2, true);
      var s4 := HandleClick(scenes, s3, true);
      && !s3.isPlaying && s4 == s3 && Inv(scenes, s4)
  {
    InitialInv(SourceScenes());
  }
}
