// The player-size controller: a target scale that the shrink/restore
// requests set, and a horizontal position locked to an anchor captured at
// start-up.  Unity's `Vector3` is a triple of reals; no arithmetic on it is
// modelled, only assignments of whole vectors and single components.
module Players {

  /** Unity's `Vector3`, with exact reals in place of 32-bit floats. */
  datatype Vec3 = Vec3(x: real, y: real, z: real)

  /** `Vector3.one * s`: the uniform scale with every component equal to `s`. */
  function Uniform(s: real): (r: Vec3)
    ensures r.x == s && r.y == s && r.z == s
  {
    Vec3(s, s, s)
  }

  class PlayerController {
    // Inspector settings.
    var normalSize: real
    var smallSize: real

    // The engine-owned transform of the player.
    var localScale: Vec3
    var position: Vec3

    // Private state of the script.
    var targetScale: Vec3
    var lockPos: Vec3

    /** The object as the engine creates it, before `Start` runs: the private
        vectors hold C#'s default value, the zero vector. */
    constructor (normalSize: real, smallSize: real, position: Vec3, localScale: Vec3)
      ensures this.normalSize == normalSize && this.smallSize == smallSize
      ensures this.position == position && this.localScale == localScale
      ensures targetScale == Vec3(0.0, 0.0, 0.0) && lockPos == Vec3(0.0, 0.0, 0.0)
    {
      this.normalSize := normalSize;
      this.smallSize := smallSize;
      this.position := position;
      this.localScale := localScale;
      targetScale := Vec3(0.0, 0.0, 0.0);
      lockPos := Vec3(0.0, 0.0, 0.0);
    }

    /** Start: the target and the current scale become the normal size, and
        the current position is captured as the lock anchor. */
    method Start()
      modifies this`targetScale, this`localScale, this`lockPos
      ensures targetScale == Uniform(normalSize)
      ensures localScale == targetScale
      ensures lockPos == position
    {
      targetScale := Uniform(normalSize);
      localScale := targetScale;
      lockPos := position;
    }

    /** Shrink: the target becomes the small size; nothing else changes, so a
        second call changes nothing. */
    method Shrink()
      modifies this`targetScale
      ensures targetScale == Uniform(smallSize)
      ensures old(targetScale) == Uniform(smallSize) ==> targetScale == old(targetScale)
    {
      targetScale := Uniform(smallSize);
    }

    /** Grow: the target becomes the normal size; nothing else changes, so a
        second call changes nothing. */
    method Grow()
      modifies this`targetScale
      ensures targetScale == Uniform(normalSize)
      ensures old(targetScale) == Uniform(normalSize) ==> targetScale == old(targetScale)
    {
      targetScale := Uniform(normalSize);
    }

    /** The entry point the BLE dispatcher calls for command 0: exactly `Shrink`. */
    method ShrinkPlayer()
      modifies this`targetScale
      ensures targetScale == Uniform(smallSize)
    {
      Shrink();
    }

    /** The entry point the BLE dispatcher calls for command 1: exactly `Grow`. */
    method RestorePlayer()
      modifies this`targetScale
      ensures targetScale == Uniform(normalSize)
    {
      Grow();
    }

    /** `true` asks for the small size, `false` for the normal size. */
    method SetPlayerSize(makeSmall: bool)
      modifies this`targetScale
      ensures targetScale == if makeSmall then Uniform(smallSize) else Uniform(normalSize)
    {
      if makeSmall {
        Shrink();
      } else {
        Grow();
      }
    }

    /** The size keys of one frame: shrink first, then restore, so a frame in
        which both keys go down ends at the normal size. */
    method ReadInput(shrinkKeyDown: bool, normalKeyDown: bool)
      modifies this`targetScale
      ensures targetScale ==
        if normalKeyDown then Uniform(normalSize)
        else if shrinkKeyDown then Uniform(smallSize)
        else old(targetScale)
    {
      if shrinkKeyDown {
        Shrink();
      }
      if normalKeyDown {
        Grow();
      }
    }

    /** x and z of the position are overwritten with the anchor's, y is kept;
        a position already on the anchor is left as it is. */
    method LockXZPosition()
      modifies this`position
      ensures position.x == lockPos.x && position.z == lockPos.z
      ensures position.y == old(position.y)
      ensures old(position.x) == lockPos.x && old(position.z) == lockPos.z ==> position == old(position)
    {
      var p := position;
      p := p.(x := lockPos.x);
      p := p.(z := lockPos.z);
      position := p;
    }

    /** One frame: the size keys, the smoothing step and the axis lock.  The
        engine's interpolated scale, `Vector3.Lerp` of the current and the
        target scale, is supplied as `smoothedScale`. */
    method Update(shrinkKeyDown: bool, normalKeyDown: bool, smoothedScale: Vec3)
      modifies this`targetScale, this`localScale, this`position
      ensures targetScale ==
        if normalKeyDown then Uniform(normalSize)
        else if shrinkKeyDown then Uniform(smallSize)
        else old(targetScale)
      ensures localScale == smoothedScale
      ensures position == Vec3(lockPos.x, old(position.y), lockPos.z)
    {
      ReadInput(shrinkKeyDown, normalKeyDown);
      localScale := smoothedScale;
      LockXZPosition();
    }
  }
}
