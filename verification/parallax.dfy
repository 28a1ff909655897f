/**
  The parallax background.  Each fixed frame the camera's displacement since
  the previous frame moves every parallax layer by a per-layer fraction that
  depends on the layer's depth relative to the character plane; static layers
  are placed exactly on the camera.  The two background controllers of the
  game (`Animation/ParallaxBackgroundController` and the older
  `ParalaxBackGroundController`) share this update word for word and differ
  only in where they read the camera from.
*/
module Parallax {
  import opened UnityMath

  datatype ParallaxConfig = ParallaxConfig(
    effectOffset: Vec2,
    effectDeclaration: Vec2,
    characterOffset: real,
    nearClipPlane: real,
    farClipPlane: real,
    yFactor: real)

  /** Serialized defaults of `Animation/ParallaxBackgroundController`; the unset fields are 0. */
  const DefaultConfig: ParallaxConfig :=
    ParallaxConfig(Vec2(0.1, 0.1), Vec2(0.8, 0.96), 0.0, 0.0, 50.0, 180.0 / 320.0)

  /** Serialized defaults of `ParalaxBackGroundController`, written out explicitly there. */
  const LegacyDefaultConfig: ParallaxConfig :=
    ParallaxConfig(Vec2(0.1, 0.1), Vec2(0.8, 0.96), 0.0, 0.0, 50.0, 180.0 / 320.0)

  /** The denominator: camera depth plus the far plane behind the character, the near plane in front. */
  function ClippingPlane(cfg: ParallaxConfig, cameraZ: real, layerZ: real): real {
    cameraZ + (if layerZ - cfg.characterOffset > 0.0 then cfg.farClipPlane else cfg.nearClipPlane)
  }

  /** Every layer's denominator is non-zero, so every factor is a number. */
  predicate Defined(cfg: ParallaxConfig, cameraZ: real, layers: seq<Vec3>) {
    forall i :: 0 <= i < |layers| ==> ClippingPlane(cfg, cameraZ, layers[i].z) != 0.0
  }

  function ParallaxFactor(cfg: ParallaxConfig, cameraZ: real, layerZ: real): real
    requires ClippingPlane(cfg, cameraZ, layerZ) != 0.0
  {
    Abs(layerZ - cfg.characterOffset) / ClippingPlane(cfg, cameraZ, layerZ)
  }

  function Minus(a: Vec3, b: Vec3): Vec3 {
    Vec3(a.x - b.x, a.y - b.y, a.z - b.z)
  }

  /** One layer's move: linear in the camera's displacement, vertical motion scaled by `yFactor`. */
  function ShiftLayer(cfg: ParallaxConfig, cameraZ: real, delta: Vec3, layer: Vec3): (r: Vec3)
    requires ClippingPlane(cfg, cameraZ, layer.z) != 0.0
    ensures r.z == layer.z
    ensures r.x - layer.x == delta.x * ParallaxFactor(cfg, cameraZ, layer.z)
    ensures r.y - layer.y == delta.y * ParallaxFactor(cfg, cameraZ, layer.z) * cfg.yFactor
  {
    var f := ParallaxFactor(cfg, cameraZ, layer.z);
    Vec3(layer.x + delta.x * f, layer.y + delta.y * f * cfg.yFactor, layer.z)
  }

  function ShiftAll(cfg: ParallaxConfig, cameraZ: real, delta: Vec3, layers: seq<Vec3>): (r: seq<Vec3>)
    requires Defined(cfg, cameraZ, layers)
    ensures |r| == |layers|
    ensures forall i :: 0 <= i < |layers| ==> r[i] == ShiftLayer(cfg, cameraZ, delta, layers[i])
  {
    seq(|layers|, i requires 0 <= i < |layers| => ShiftLayer(cfg, cameraZ, delta, layers[i]))
  }

  datatype Scene = Scene(parallaxLayers: seq<Vec3>, staticLayers: seq<Vec3>, lastCamera: Vec3)

  /** The frame as a function: shift the parallax layers, snap the static ones, remember the camera. */
  function Step(cfg: ParallaxConfig, s: Scene, camera: Vec3): (r: Scene)
    requires Defined(cfg, camera.z, s.parallaxLayers)
    ensures |r.parallaxLayers| == |s.parallaxLayers| && |r.staticLayers| == |s.staticLayers|
    ensures r.lastCamera == camera
    ensures forall i :: 0 <= i < |s.parallaxLayers| ==>
              r.parallaxLayers[i] == ShiftLayer(cfg, camera.z, Minus(camera, s.lastCamera), s.parallaxLayers[i])
    ensures forall i :: 0 <= i < |r.staticLayers| ==> r.staticLayers[i] == camera
  {
    Scene(ShiftAll(cfg, camera.z, Minus(camera, s.lastCamera), s.parallaxLayers),
          seq(|s.staticLayers|, _ => camera),
          camera)
  }

  function Power(b: real, n: nat): real {
    if n == 0 then 1.0 else b * Power(b, n - 1)
  }

  /**
    The `FixedUpdate` loop.  Besides the scene it returns the falloff
    multiplier, which is compounded once per parallax layer and then dropped.
  */
  method FixedUpdate(cfg: ParallaxConfig, s: Scene, camera: Vec3) returns (next: Scene, multiplier: Vec2)
    requires Defined(cfg, camera.z, s.parallaxLayers)
    ensures next == Step(cfg, s, camera)
    ensures forall i :: 0 <= i < |next.staticLayers| ==> next.staticLayers[i] == camera
    ensures multiplier == Vec2((1.0 - cfg.effectOffset.x) * Power(cfg.effectDeclaration.x, |s.parallaxLayers|),
                               (1.0 - cfg.effectOffset.y) * Power(cfg.effectDeclaration.y, |s.parallaxLayers|))
  {
    var delta := Minus(camera, s.lastCamera);
    multiplier := Vec2(1.0 - cfg.effectOffset.x, 1.0 - cfg.effectOffset.y);
    var layers := s.parallaxLayers;
    var moved: seq<Vec3> := [];
    var i := 0;
    while i < |layers|
      invariant 0 <= i <= |layers|
      invariant |moved| == i
      invariant forall k :: 0 <= k < i ==> moved[k] == ShiftLayer(cfg, camera.z, delta, layers[k])
      invariant multiplier == Vec2((1.0 - cfg.effectOffset.x) * Power(cfg.effectDeclaration.x, i),
                                   (1.0 - cfg.effectOffset.y) * Power(cfg.effectDeclaration.y, i))
    {
      moved := moved + [ShiftLayer(cfg, camera.z, delta, layers[i])];
      multiplier := Vec2(multiplier.x * cfg.effectDeclaration.x, multiplier.y * cfg.effectDeclaration.y);
      i := i + 1;
    }
    var snapped: seq<Vec3> := [];
    var j := 0;
    while j < |s.staticLayers|
      invariant 0 <= j <= |s.staticLayers|
      invariant |snapped| == j
      invariant forall k :: 0 <= k < j ==> snapped[k] == camera
    {
      snapped := snapped + [camera];
      j := j + 1;
    }
    next := Scene(moved, snapped, camera);
  }

  /** A frame in which the camera did not move leaves every parallax layer where it was. */
  lemma StillCameraLeavesLayers(cfg: ParallaxConfig, s: Scene)
    requires Defined(cfg, s.lastCamera.z, s.parallaxLayers)
    ensures Step(cfg, s, s.lastCamera).parallaxLayers == s.parallaxLayers
  {
  }

  /** A layer on the character plane has factor 0 and never moves, whatever the camera does. */
  lemma FocalLayerNeverMoves(cfg: ParallaxConfig, s: Scene, camera: Vec3, i: nat)
    requires Defined(cfg, camera.z, s.parallaxLayers)
    requires i < |s.parallaxLayers| && s.parallaxLayers[i].z == cfg.characterOffset
    ensures Step(cfg, s, camera).parallaxLayers[i] == s.parallaxLayers[i]
  {
  }

  /**
    Layers keep their depth, and at a fixed camera depth the update is linear
    in the camera's path: two frames move every layer exactly as one frame
    straight to the final camera position would.
  */
  lemma {:induction false} FramesCompose(cfg: ParallaxConfig, s: Scene, c1: Vec3, c2: Vec3)
    requires c1.z == c2.z
    requires Defined(cfg, c1.z, s.parallaxLayers)
    ensures Defined(cfg, c2.z, Step(cfg, s, c1).parallaxLayers)
    ensures forall i :: 0 <= i < |s.parallaxLayers| ==>
              Step(cfg, s, c1).parallaxLayers[i].z == s.parallaxLayers[i].z
    ensures Step(cfg, Step(cfg, s, c1), c2).parallaxLayers == Step(cfg, s, c2).parallaxLayers
  {
    var mid := Step(cfg, s, c1);
    var d1 := Minus(c1, s.lastCamera);
    var d2 := Minus(c2, c1);
    var d := Minus(c2, s.lastCamera);
    forall i | 0 <= i < |s.parallaxLayers|
      ensures mid.parallaxLayers[i].z == s.parallaxLayers[i].z
      ensures Step(cfg, mid, c2).parallaxLayers[i] == Step(cfg, s, c2).parallaxLayers[i]
    {
      var l := s.parallaxLayers[i];
      var f := ParallaxFactor(cfg, c1.z, l.z);
      var m := mid.parallaxLayers[i];
      assert m == ShiftLayer(cfg, c1.z, d1, l);
      assert m.z == l.z;
      assert ParallaxFactor(cfg, c2.z, m.z) == f;
      var twice := Step(cfg, mid, c2).parallaxLayers[i];
      var once := Step(cfg, s, c2).parallaxLayers[i];
      assert twice == ShiftLayer(cfg, c2.z, d2, m);
      assert once == ShiftLayer(cfg, c2.z, d, l);
      assert twice.x == once.x by {
        calc {
          twice.x;
          m.x + d2.x * f;
          l.x + d1.x * f + d2.x * f;
          l.x + (d1.x + d2.x) * f;
          l.x + d.x * f;
          once.x;
        }
      }
      assert twice.y == once.y by {
        calc {
          twice.y;
          m.y + d2.y * f * cfg.yFactor;
          l.y + d1.y * f * cfg.yFactor + d2.y * f * cfg.yFactor;
          l.y + (d1.y + d2.y) * f * cfg.yFactor;
          l.y + d.y * f * cfg.yFactor;
          once.y;
        }
      }
      assert twice.z == once.z;
    }
  }

  /**
    The falloff multiplier is dead: the scene a frame produces does not depend
    on `effectOffset` or `effectDeclaration`.
  */
  lemma MultiplierNeverMovesLayers(cfg: ParallaxConfig, other: ParallaxConfig, s: Scene, camera: Vec3)
    requires other == cfg.(effectOffset := other.effectOffset, effectDeclaration := other.effectDeclaration)
    requires Defined(cfg, camera.z, s.parallaxLayers)
    ensures Defined(other, camera.z, s.parallaxLayers)
    ensures Step(other, s, camera) == Step(cfg, s, camera)
  {
    assert other.characterOffset == cfg.characterOffset && other.yFactor == cfg.yFactor;
    assert other.nearClipPlane == cfg.nearClipPlane && other.farClipPlane == cfg.farClipPlane;
    var a := Step(other, s, camera).parallaxLayers;
    var b := Step(cfg, s, camera).parallaxLayers;
    var delta := Minus(camera, s.lastCamera);
    forall i | 0 <= i < |a| ensures a[i] == b[i] {
      var l := s.parallaxLayers[i];
      var f := ParallaxFactor(cfg, camera.z, l.z);
      assert ParallaxFactor(other, camera.z, l.z) == f;
      assert a[i].x == l.x + delta.x * f == b[i].x;
      assert a[i].y == l.y + delta.y * f * cfg.yFactor == b[i].y;
    }
    assert a == b;
  }

  /**
    Under either controller's defaults the near plane is 0, so a layer in front
    of (or on) the character plane is divided by the camera depth alone, and a
    camera at depth 0 leaves the update undefined for it.
  */
  lemma LegacyDefaultsDivideByCameraDepth(cameraZ: real, layerZ: real)
    ensures layerZ <= 0.0 ==> ClippingPlane(LegacyDefaultConfig, cameraZ, layerZ) == cameraZ
    ensures layerZ > 0.0 ==> ClippingPlane(LegacyDefaultConfig, cameraZ, layerZ) == cameraZ + 50.0
    ensures layerZ <= 0.0 ==> ClippingPlane(DefaultConfig, cameraZ, layerZ) == cameraZ
    ensures layerZ > 0.0 ==> ClippingPlane(DefaultConfig, cameraZ, layerZ) == cameraZ + 50.0
  {
  }
}
