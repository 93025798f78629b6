/** The perspective projector: a road depth to a screen point and a road width. */
module Projection {
  import opened Wrappers
  import opened Constants

  /** A projected road centre line point: screen x, screen y and the road's screen width there. */
  datatype Projected = Projected(x: real, y: real, width: real)

  /** Screen y of the road's vanishing line: half the canvas height, lifted by RoadLift. */
  const HorizonY: real := VirtualHeight / 2.0 - RoadLift

  /** project(z) with the camera at `position`; None for a point at or behind the camera. */
  function Project(z: real, position: real): (r: Option<Projected>)
    ensures r.None? <==> z - position <= NearLimit
    ensures r.Some? ==> r.value.x == VirtualWidth / 2.0 && r.value.y > HorizonY
    ensures r.Some? ==> r.value.width >= MinScale * RoadWidth
  {
    var dz := Max(z - position, NearLimit);
    if dz <= NearLimit then None
    else
      var scale := CameraDepth / dz;
      var x := VirtualWidth / 2.0;
      var y := VirtualHeight / 2.0 + scale * CameraHeight;
      var clampedScale := Max(scale, MinScale);
      var width := clampedScale * RoadWidth;
      Some(Projected(x, y - RoadLift, width))
  }

  /** The closed form of a visible projection, in terms of the distance to the camera. */
  lemma ProjectClosedForm(z: real, position: real)
    requires z - position > NearLimit
    ensures Project(z, position).Some?
    ensures Project(z, position).value.y == 342.0 + 32000.0 / (z - position)
    ensures Project(z, position).value.width == Max(160000.0 / (z - position), 2.0)
  {
    var dz := z - position;
    assert Max(dz, NearLimit) == dz;
    var scale := CameraDepth / dz;
    assert scale * CameraHeight == 32000.0 / dz;
    assert scale * RoadWidth == 160000.0 / dz;
    assert Max(scale, MinScale) * RoadWidth == Max(scale * RoadWidth, MinScale * RoadWidth);
  }

  /** Farther points are higher on screen and no wider: y strictly and width weakly decrease with depth. */
  lemma ProjectMonotone(z1: real, z2: real, position: real)
    requires z1 - position > NearLimit && z1 < z2
    ensures Project(z1, position).Some? && Project(z2, position).Some?
    ensures Project(z1, position).value.y > Project(z2, position).value.y
    ensures Project(z1, position).value.width >= Project(z2, position).value.width
  {
    ProjectClosedForm(z1, position);
    ProjectClosedForm(z2, position);
    DivisionAntitone(32000.0, z1 - position, z2 - position);
    DivisionAntitone(160000.0, z1 - position, z2 - position);
  }

  /** Within 80000 units of the camera the width floor is not reached: the width is exactly 160000/dz. */
  lemma ProjectWidthUnclamped(z: real, position: real)
    requires NearLimit < z - position <= 80000.0
    ensures Project(z, position).Some?
    ensures Project(z, position).value.width == 160000.0 / (z - position)
  {
    ProjectClosedForm(z, position);
    var dz := z - position;
    assert 160000.0 / dz * dz == 160000.0;
    assert 160000.0 / dz >= 2.0;
  }

  /** Only the depth relative to the camera matters: moving both by the same amount changes nothing. */
  lemma ProjectShiftInvariant(z: real, position: real, d: real)
    ensures Project(z + d, position + d) == Project(z, position)
  {
  }
}
