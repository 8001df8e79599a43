/** The step-by-step assembly of the creeper in createScene: boxes are created,
    their position fields overwritten, three feet instanced from the first one
    and mirrored, and the two tracks bound to their targets with playback windows. */
module CreeperScene {
  import opened Atlas
  import opened Parts
  import opened Placement
  import opened Keyframes

  datatype Material = DefaultMaterial | CreeperSkin

  datatype LoopMode = Relative | Cycle | Constant

  /** Shared box geometry: the size and the faceUV array. */
  datatype Box = Box(size: SizeTriple, faceUV: seq<UV>)

  /** A float animation of one property; its key list is set after creation. */
  class Animation {
    const name: string
    const targetProperty: string
    const framePerSecond: int
    const loopMode: LoopMode
    var keys: seq<Key>

    constructor (name: string, targetProperty: string, framePerSecond: int, loopMode: LoopMode)
      ensures this.name == name && this.targetProperty == targetProperty
      ensures this.framePerSecond == framePerSecond && this.loopMode == loopMode
      ensures keys == []
    {
      this.name := name;
      this.targetProperty := targetProperty;
      this.framePerSecond := framePerSecond;
      this.loopMode := loopMode;
      keys := [];
    }

    method SetKeys(newKeys: seq<Key>)
      modifies this
      ensures keys == newKeys
    {
      keys := newKeys;
    }
  }

  /** A mesh: a box of its own, or an instance sharing the box of its source mesh. */
  class Mesh {
    const name: string
    const box: Box
    /** The mesh this one is an instance of; null for a box of its own. */
    const source: Mesh?
    var x: real
    var y: real
    var z: real
    var material: Material
    var animations: seq<Animation>

    /** A new box sits at the origin with the default material and no animations. */
    constructor CreateBox(name: string, size: SizeTriple, faceUV: seq<UV>)
      ensures this.name == name && box == Box(size, faceUV) && source == null
      ensures x == 0.0 && y == 0.0 && z == 0.0
      ensures material == DefaultMaterial && animations == []
    {
      this.name := name;
      box := Box(size, faceUV);
      source := null;
      x, y, z := 0.0, 0.0, 0.0;
      material := DefaultMaterial;
      animations := [];
    }

    /** An instance starts as a copy of its source's position and shares its box. */
    constructor Instance(name: string, src: Mesh)
      ensures this.name == name && box == src.box && source == src
      ensures x == src.x && y == src.y && z == src.z
      ensures material == DefaultMaterial && animations == []
    {
      this.name := name;
      box := src.box;
      source := src;
      x, y, z := src.x, src.y, src.z;
      material := DefaultMaterial;
      animations := [];
    }

    function Position(): Vec3
      reads this
    {
      Vec3(x, y, z)
    }

    /** An instance draws with its source's material. */
    function EffectiveMaterial(): Material
      reads this, source
    {
      if source == null then material else source.material
    }

    /** createInstance: a fresh mesh at this mesh's position, with this mesh's
        box and material, and no animations of its own; this mesh is unchanged. */
    method CreateInstance(name: string) returns (inst: Mesh)
      ensures fresh(inst)
      ensures inst.name == name && inst.box == box && inst.source == this
      ensures inst.Position() == Position()
      ensures inst.EffectiveMaterial() == material && inst.animations == []
    {
      inst := new Mesh.Instance(name, this);
    }
  }

  /** A running animation: which mesh plays its animations over which window. */
  datatype Playback = Playback(target: Mesh, window: Window, loop: bool)

  class Scene {
    var playbacks: seq<Playback>

    constructor ()
      ensures playbacks == []
    {
      playbacks := [];
    }

    /** beginAnimation: starts the target's animations over the window [from, to]. */
    method BeginAnimation(target: Mesh, from: int, to: int, loop: bool)
      modifies this
      ensures playbacks == old(playbacks) + [Playback(target, Window(from, to), loop)]
    {
      playbacks := playbacks + [Playback(target, Window(from, to), loop)];
    }
  }

  /** The head: its box, its position on top of the body, and its sway bound
      over the whole head track. */
  method CreateHead(scene: Scene) returns (head: Mesh, headAnimation: Animation)
    modifies scene
    ensures fresh(head) && fresh(headAnimation)
    ensures head.box == Box(HeadSize, FaceUVs(HeadFaces())) && head.source == null
    ensures head.Position() == Vec3(0.0, HeadY(HeadSize, BodySize, FootSize), 0.0)
    ensures head.material == CreeperSkin && head.animations == [headAnimation]
    ensures headAnimation.targetProperty == "rotation.y" && headAnimation.framePerSecond == 30
    ensures headAnimation.loopMode == Cycle && headAnimation.keys == HeadKeys()
    ensures scene.playbacks == old(scene.playbacks) + [Playback(head, HeadWindow, true)]
  {
    head := new Mesh.CreateBox("head", HeadSize, FaceUVs(HeadFaces()));
    head.y := HeadY(HeadSize, BodySize, FootSize);
    head.material := CreeperSkin;

    headAnimation := new Animation("headAnimation", "rotation.y", 30, Cycle);
    headAnimation.SetKeys(HeadKeys());
    head.animations := [headAnimation];
    scene.BeginAnimation(head, 0, 105, true);
  }

  /** The body: its box on top of the feet. */
  method CreateBody() returns (body: Mesh)
    ensures fresh(body)
    ensures body.box == Box(BodySize, FaceUVs(BodyFaces())) && body.source == null
    ensures body.Position() == Vec3(0.0, BodyY(BodySize, FootSize), 0.0)
    ensures body.material == CreeperSkin && body.animations == []
  {
    body := new Mesh.CreateBox("body", BodySize, FaceUVs(BodyFaces()));
    body.y := BodyY(BodySize, FootSize);
    body.material := CreeperSkin;
  }

  /** The four feet: the front-left foot is placed by the formulas, the other
      three are its instances with x, z or both negated. */
  method CreateFeet() returns (leftFrontFoot: Mesh, rightFrontFoot: Mesh, leftBackFoot: Mesh, rightBackFoot: Mesh)
    ensures fresh(leftFrontFoot) && fresh(rightFrontFoot) && fresh(leftBackFoot) && fresh(rightBackFoot)
    ensures |{leftFrontFoot, rightFrontFoot, leftBackFoot, rightBackFoot}| == 4
    ensures leftFrontFoot.box == Box(FootSize, FaceUVs(FootFaces())) && leftFrontFoot.source == null
    ensures leftFrontFoot.Position()
         == Vec3(FootX(BodySize, FootSize), FootY(FootSize), FootZ(BodySize, FootSize))
    ensures [leftFrontFoot.Position(), rightFrontFoot.Position(), leftBackFoot.Position(), rightBackFoot.Position()]
         == FeetPositions(leftFrontFoot.Position())
    ensures rightFrontFoot.source == leftFrontFoot && leftBackFoot.source == leftFrontFoot
    ensures rightBackFoot.source == leftFrontFoot
    ensures rightFrontFoot.box == leftFrontFoot.box && leftBackFoot.box == leftFrontFoot.box
    ensures rightBackFoot.box == leftFrontFoot.box
    ensures leftFrontFoot.material == CreeperSkin
    ensures leftFrontFoot.animations == [] && rightFrontFoot.animations == []
    ensures leftBackFoot.animations == [] && rightBackFoot.animations == []
  {
    leftFrontFoot := new Mesh.CreateBox("leftFrontFoot", FootSize, FaceUVs(FootFaces()));
    leftFrontFoot.y := FootY(FootSize);
    leftFrontFoot.x := FootX(BodySize, FootSize);
    leftFrontFoot.z := FootZ(BodySize, FootSize);
    leftFrontFoot.material := CreeperSkin;

    rightFrontFoot := leftFrontFoot.CreateInstance("rightFrontFoot");
    rightFrontFoot.x := -leftFrontFoot.x;

    leftBackFoot := leftFrontFoot.CreateInstance("leftBackFoot");
    leftBackFoot.z := -leftFrontFoot.z;

    rightBackFoot := leftFrontFoot.CreateInstance("rightBackFoot");
    rightBackFoot.x := -leftFrontFoot.x;
    rightBackFoot.z := -leftFrontFoot.z;
  }

  /** The foot track: one animation object bound to all four feet; the
      front-left and back-right feet play window A, the other two window B. */
  method AnimateFeet(scene: Scene, leftFrontFoot: Mesh, rightFrontFoot: Mesh, leftBackFoot: Mesh, rightBackFoot: Mesh)
      returns (footAnimation: Animation)
    modifies scene, leftFrontFoot, rightFrontFoot, leftBackFoot, rightBackFoot
    ensures fresh(footAnimation)
    ensures footAnimation.targetProperty == "rotation.x" && footAnimation.framePerSecond == 30
    ensures footAnimation.loopMode == Cycle && footAnimation.keys == FootKeys()
    ensures leftFrontFoot.animations == [footAnimation] && rightFrontFoot.animations == [footAnimation]
    ensures leftBackFoot.animations == [footAnimation] && rightBackFoot.animations == [footAnimation]
    ensures unchanged(leftFrontFoot`x, leftFrontFoot`y, leftFrontFoot`z, leftFrontFoot`material)
    ensures unchanged(rightFrontFoot`x, rightFrontFoot`y, rightFrontFoot`z, rightFrontFoot`material)
    ensures unchanged(leftBackFoot`x, leftBackFoot`y, leftBackFoot`z, leftBackFoot`material)
    ensures unchanged(rightBackFoot`x, rightBackFoot`y, rightBackFoot`z, rightBackFoot`material)
    ensures scene.playbacks == old(scene.playbacks) + [
      Playback(leftFrontFoot, FootWindowA, true),
      Playback(rightFrontFoot, FootWindowB, true),
      Playback(leftBackFoot, FootWindowB, true),
      Playback(rightBackFoot, FootWindowA, true)]
  {
    // The source reuses the name 'headAnimation' for the foot track.
    footAnimation := new Animation("headAnimation", "rotation.x", 30, Cycle);
    footAnimation.SetKeys(FootKeys());
    leftFrontFoot.animations := [footAnimation];
    rightFrontFoot.animations := [footAnimation];
    leftBackFoot.animations := [footAnimation];
    rightBackFoot.animations := [footAnimation];
    scene.BeginAnimation(leftFrontFoot, 0, 25, true);
    scene.BeginAnimation(rightFrontFoot, 10, 35, true);
    scene.BeginAnimation(leftBackFoot, 10, 35, true);
    scene.BeginAnimation(rightBackFoot, 0, 25, true);
  }

  /** createScene, restricted to the creeper: every part is placed by the
      placement formulas, the feet are the mirror images of the front-left
      foot, and the two tracks are bound with their windows. */
  method CreateScene() returns (scene: Scene, head: Mesh, body: Mesh,
      leftFrontFoot: Mesh, rightFrontFoot: Mesh, leftBackFoot: Mesh, rightBackFoot: Mesh,
      headAnimation: Animation, footAnimation: Animation)
    ensures |{head, body, leftFrontFoot, rightFrontFoot, leftBackFoot, rightBackFoot}| == 6
    ensures head.box == Box(HeadSize, FaceUVs(HeadFaces()))
    ensures body.box == Box(BodySize, FaceUVs(BodyFaces()))
    ensures leftFrontFoot.box == Box(FootSize, FaceUVs(FootFaces()))
    ensures rightFrontFoot.box == leftFrontFoot.box && leftBackFoot.box == leftFrontFoot.box
    ensures rightBackFoot.box == leftFrontFoot.box
    ensures head.Position() == Vec3(0.0, HeadY(HeadSize, BodySize, FootSize), 0.0)
    ensures body.Position() == Vec3(0.0, BodyY(BodySize, FootSize), 0.0)
    ensures leftFrontFoot.Position()
         == Vec3(FootX(BodySize, FootSize), FootY(FootSize), FootZ(BodySize, FootSize))
    ensures [leftFrontFoot.Position(), rightFrontFoot.Position(), leftBackFoot.Position(), rightBackFoot.Position()]
         == FeetPositions(leftFrontFoot.Position())
    ensures head.EffectiveMaterial() == CreeperSkin && body.EffectiveMaterial() == CreeperSkin
    ensures leftFrontFoot.EffectiveMaterial() == CreeperSkin && rightFrontFoot.EffectiveMaterial() == CreeperSkin
    ensures leftBackFoot.EffectiveMaterial() == CreeperSkin && rightBackFoot.EffectiveMaterial() == CreeperSkin
    ensures rightFrontFoot.source == leftFrontFoot && leftBackFoot.source == leftFrontFoot
    ensures rightBackFoot.source == leftFrontFoot
    ensures head.source == null && body.source == null && leftFrontFoot.source == null
    ensures headAnimation != footAnimation
    ensures headAnimation.targetProperty == "rotation.y" && footAnimation.targetProperty == "rotation.x"
    ensures headAnimation.framePerSecond == 30 && footAnimation.framePerSecond == 30
    ensures headAnimation.loopMode == Cycle && footAnimation.loopMode == Cycle
    ensures headAnimation.keys == HeadKeys() && footAnimation.keys == FootKeys()
    ensures head.animations == [headAnimation] && body.animations == []
    ensures leftFrontFoot.animations == [footAnimation] && rightFrontFoot.animations == [footAnimation]
    ensures leftBackFoot.animations == [footAnimation] && rightBackFoot.animations == [footAnimation]
    ensures scene.playbacks == [
      Playback(head, HeadWindow, true),
      Playback(leftFrontFoot, FootWindowA, true),
      Playback(rightFrontFoot, FootWindowB, true),
      Playback(leftBackFoot, FootWindowB, true),
      Playback(rightBackFoot, FootWindowA, true)]
  {
    scene := new Scene();
    head, headAnimation := CreateHead(scene);
    body := CreateBody();
    leftFrontFoot, rightFrontFoot, leftBackFoot, rightBackFoot := CreateFeet();
    footAnimation := AnimateFeet(scene, leftFrontFoot, rightFrontFoot, leftBackFoot, rightBackFoot);
  }
}
