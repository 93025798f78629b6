/** The fixed numbers of the game: the logical canvas, the road, the camera and the car. */
module Constants {

  // Logical canvas size; the physical window is letterboxed around it.
  const VirtualWidth: real := 1280.0
  const VirtualHeight: real := 720.0

  // Road rendering.
  const SegmentLength: real := 35.0
  const RoadWidth: real := 4000.0
  const CameraDepth: real := 40.0
  const CameraHeight: real := 800.0
  /** Distance travelled per second. */
  const Speed: real := 350.0

  /** A depth difference at or below this is "at or behind the camera". */
  const NearLimit: real := 0.01
  /** Floor on the perspective scale used for the road width. */
  const MinScale: real := 0.0005
  /** The projected road line sits this far above the perspective horizon line. */
  const RoadLift: real := 18.0

  // Player car.
  const CarSpeed: real := 8.0
  const CarWidth: real := 350.0
  const CarHeight: real := 188.0

  // Roadside trees.
  const PoolSize: nat := 100
  const TreeSpacing: real := 200.0
  const TreeOffset: real := 3000.0
  const TreeRecycleDistance: real := 20000.0

  /** JavaScript's Math.max on two numbers. */
  function Max(a: real, b: real): (r: real)
    ensures r >= a && r >= b && (r == a || r == b)
  {
    if a >= b then a else b
  }

  /** JavaScript's Math.min on two numbers. */
  function Min(a: real, b: real): (r: real)
    ensures r <= a && r <= b && (r == a || r == b)
  {
    if a <= b then a else b
  }

  /** JavaScript's Math.ceil. */
  function Ceil(a: real): (r: int)
    ensures r as real >= a && (r as real) - 1.0 < a
  {
    -((-a).Floor)
  }

  /** Segments that cover the screen height, plus ten spare ones. */
  const NumSegments: int := Ceil(VirtualHeight / SegmentLength) + 10

  /** The farthest segment slot that drawRoad visits. */
  const FarthestSlot: int := NumSegments + 20

  lemma SegmentCounts()
    ensures NumSegments == 31 && FarthestSlot == 51
  {
    assert 20.0 < VirtualHeight / SegmentLength <= 21.0;
  }

  /** c/a > c/b for 0 < a < b and c > 0. */
  lemma DivisionAntitone(c: real, a: real, b: real)
    requires c > 0.0 && 0.0 < a < b
    ensures c / a > c / b
  {
    assert c / a * a == c;
    assert c / b * b == c;
    assert c / b * a < c / b * b;
  }
}
