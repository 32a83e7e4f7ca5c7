/** The authored, immutable scene list of the cutscene player. */
module Scenes {

  /** A camera key position: pan offset and zoom factor. */
  datatype CameraKey = CameraKey(x: real, y: real, zoom: real)

  /** The camera path of one scene, interpolated by the scene's progress. */
  datatype CameraPath = CameraPath(start: CameraKey, end: CameraKey)

  /** One line of dialogue; `delay` is the time in ms the line stays on screen. */
  datatype DialogueLine = DialogueLine(speaker: string, text: string, delay: nat)

  /** One scene record: its position in the list, title, length in ms, camera path and lines. */
  datatype Scene = Scene(id: nat, title: string, duration: real, camera: CameraPath,
                         dialogue: seq<DialogueLine>)

  /** What the director relies on of every scene: a positive duration (it divides by it)
      and positive zoom factors at both ends of the camera path. */
  predicate WellFormedScene(sc: Scene)
  {
    sc.duration > 0.0 && sc.camera.start.zoom > 0.0 && sc.camera.end.zoom > 0.0
  }

  predicate WellFormed(scenes: seq<Scene>)
  {
    forall i :: 0 <= i < |scenes| ==> WellFormedScene(scenes[i])
  }

  /** The two scenes the game is constructed with. */
  function SourceScenes(): (scenes: seq<Scene>)
    ensures |scenes| == 2 && WellFormed(scenes)
    ensures forall i :: 0 <= i < |scenes| ==> scenes[i].id == i
  {
    [ Scene(0, "SCENE 1. 붕괴 직전의 정적", 8000.0,
            CameraPath(CameraKey(0.0, -200.0, 0.3), CameraKey(0.0, 100.0, 0.8)),
            []),
      Scene(1, "SCENE 2. 16호의 마지막 시선", 10000.0,
            CameraPath(CameraKey(200.0, 0.0, 1.5), CameraKey(200.0, 0.0, 2.0)),
            [ DialogueLine("안드로이드 16호", "내가 좋아했던", 1500),
              DialogueLine("안드로이드 16호", "자연과 동물들을…", 2000),
              DialogueLine("안드로이드 16호", "지.켜.주.거.라.", 2500),
              DialogueLine("안드로이드 16호", "부탁한다~", 2000) ]) ]
  }
}
