/** drawRoad: the window of segments in front of the camera, drawn far to near. */
module Road {
  import opened Wrappers
  import opened Constants
  import opened Projection
  import opened Canvas
  import opened Segment
  import opened Sequences

  /** The depth at which segment `k` starts: segments tile the road every SegmentLength units. */
  function SegmentStart(k: int): real {
    (k as real) * SegmentLength
  }

  /** The index of the segment the camera stands on. */
  function BaseIndex(position: real): int {
    (position / SegmentLength).Floor
  }

  /** baseZ: where the camera's own segment starts. */
  function BaseZ(position: real): real {
    ((position / SegmentLength).Floor as real) * SegmentLength
  }

  /** A drawn segment: its index and its projected near (start) and far (end) edges. */
  datatype RoadSegment = RoadSegment(index: int, near: Projected, far: Projected)

  /** One pass of drawRoad's loop, slot `n` ahead of baseZ: None when an edge does not project. */
  function SegmentAt(position: real, n: int): (r: Option<RoadSegment>)
    ensures r.Some? <==> BaseZ(position) + (n as real) * SegmentLength - position > NearLimit
  {
    var baseZ := BaseZ(position);
    var z1 := baseZ + (n as real) * SegmentLength;
    var z2 := baseZ + ((n + 1) as real) * SegmentLength;
    var p1 := Project(z1, position);
    var p2 := Project(z2, position);
    if p1.Some? && p2.Some? then
      var segmentIndex := ((position + (n as real) * SegmentLength) / SegmentLength).Floor;
      Some(RoadSegment(segmentIndex, p1.value, p2.value))
    else
      None
  }

  /** The slots in the order drawRoad visits them: FarthestSlot, FarthestSlot - 1, ..., 1. */
  function Slots(position: real): seq<Option<RoadSegment>> {
    seq(FarthestSlot, i => SegmentAt(position, FarthestSlot - i))
  }

  /** The segments one frame draws, far to near. */
  function VisibleSegments(position: real): seq<RoadSegment> {
    Somes(Slots(position))
  }

  /** A segment painted in its parity colour. */
  function PaintSegment(s: RoadSegment): seq<Command> {
    SegmentCommands(s.near, s.far, SegmentColor(s.index), s.index)
  }

  /** The commands for a list of segments, in list order. */
  function Paint(segments: seq<RoadSegment>): seq<Command> {
    FlatMap(PaintSegment, segments)
  }

  /** One pass of drawRoad's loop: project both ends of slot `n`, draw the segment if both are visible. */
  method DrawSlot(position: real, baseZ: real, n: int) returns (drawn: seq<Command>)
    requires baseZ == BaseZ(position)
    ensures drawn == match SegmentAt(position, n) case Some(s) => PaintSegment(s) case None => []
  {
    var z1 := baseZ + (n as real) * SegmentLength;
    var z2 := baseZ + ((n + 1) as real) * SegmentLength;
    var p1 := Project(z1, position);
    var p2 := Project(z2, position);
    drawn := [];
    if p1.Some? && p2.Some? {
      var segmentIndex := ((position + (n as real) * SegmentLength) / SegmentLength).Floor;
      drawn := DrawSegment(p1.value, p2.value, SegmentColor(segmentIndex), segmentIndex);
    }
  }

  /** drawRoad with the camera at `position`: slots from the farthest down to the nearest. */
  method DrawRoad(position: real) returns (cmds: seq<Command>)
    ensures cmds == Paint(VisibleSegments(position))
  {
    var baseZ := BaseZ(position);
    ghost var slots := Slots(position);
    cmds := [];
    var n := NumSegments + 20;
    while n > 0
      invariant 0 <= n <= FarthestSlot
      invariant cmds == Paint(Somes(slots[..FarthestSlot - n]))
    {
      var drawn := DrawSlot(position, baseZ, n);
      ghost var k := FarthestSlot - n;
      assert slots[..k + 1] == slots[..k] + [SegmentAt(position, n)];
      FlatMapSomesSnoc(PaintSegment, slots[..k], SegmentAt(position, n));
      cmds := cmds + drawn;
      n := n - 1;
    }
    assert slots[..FarthestSlot] == slots;
  }

  /** baseZ is the largest multiple of SegmentLength not above the camera position. */
  lemma BaseZIsLargestMultiple(position: real)
    ensures BaseZ(position) == SegmentStart(BaseIndex(position))
    ensures position - SegmentLength < BaseZ(position) <= position
    ensures forall k: int :: SegmentStart(k) <= position ==> SegmentStart(k) <= BaseZ(position)
  {
    var b := BaseIndex(position);
    forall k: int | SegmentStart(k) <= position
      ensures SegmentStart(k) <= BaseZ(position)
    {
      assert (k as real) <= position / SegmentLength;
      assert k <= b;
    }
  }

  /** Segment `s` is drawn from the projections of its own start and end depths. */
  predicate EdgesProjected(position: real, s: RoadSegment) {
    Project(SegmentStart(s.index), position) == Some(s.near)
    && Project(SegmentStart(s.index + 1), position) == Some(s.far)
  }

  /**
   * Slot `n` holds segment BaseIndex + n, so the index of a drawn segment is its start depth
   * divided by SegmentLength; its edges are the projections of that start and of the next one.
   */
  lemma SegmentAtIsSegmentIndex(position: real, n: int)
    requires SegmentAt(position, n).Some?
    ensures var s := SegmentAt(position, n).value;
      && s.index == BaseIndex(position) + n
      && BaseZ(position) + (n as real) * SegmentLength == SegmentStart(s.index)
      && EdgesProjected(position, s)
  {
    var q := position / SegmentLength;
    assert (position + (n as real) * SegmentLength) / SegmentLength == q + (n as real);
    assert (q + (n as real)).Floor == q.Floor + n;
  }

  /**
   * Slots 2 and beyond always project; slot 1 is skipped exactly when the start of the next
   * segment is within NearLimit of the camera.
   */
  lemma SlotVisibility(position: real, n: int)
    requires 1 <= n
    ensures n >= 2 ==> SegmentAt(position, n).Some?
    ensures n == 1 ==> (SegmentAt(position, n).Some? <==> BaseZ(position) + SegmentLength - position > NearLimit)
  {
    BaseZIsLargestMultiple(position);
  }

  /**
   * One frame draws the consecutive segments BaseIndex + 51 down to BaseIndex + 1, each drawn from
   * the projections of its own start and end depths; only the nearest can be missing, and it is
   * missing exactly when its far edge is within NearLimit of the camera.
   */
  lemma VisibleSegmentsWindow(position: real)
    ensures var w := VisibleSegments(position);
      && (|w| == 51 || |w| == 50)
      && (|w| == 51 <==> BaseZ(position) + SegmentLength - position > NearLimit)
      && (forall j :: 0 <= j < |w| ==> w[j].index == BaseIndex(position) + 51 - j)
      && (forall j :: 0 <= j < |w| ==> EdgesProjected(position, w[j]))
  {
    SegmentCounts();
    var slots := Slots(position);
    var far := slots[..50];
    forall i | 0 <= i < 50 ensures far[i].Some? {
      SlotVisibility(position, 51 - i);
    }
    SomesAllPresent(far);
    assert slots == far + [slots[50]];
    SomesSnoc(far, slots[50]);
    SlotVisibility(position, 1);
    var w := VisibleSegments(position);
    forall j | 0 <= j < |w|
      ensures w[j].index == BaseIndex(position) + 51 - j && EdgesProjected(position, w[j])
    {
      assert w[j] == slots[j].value;
      SegmentAtIsSegmentIndex(position, 51 - j);
    }
  }

  /** Listed from the farthest, each next segment starts nearer the camera and lower on the screen. */
  lemma VisibleSegmentsFarToNear(position: real)
    ensures var w := VisibleSegments(position);
      forall j :: 0 <= j < |w| - 1 ==> w[j].near.y < w[j + 1].near.y
  {
    var w := VisibleSegments(position);
    VisibleSegmentsWindow(position);
    forall j | 0 <= j < |w| - 1
      ensures w[j].near.y < w[j + 1].near.y
    {
      assert EdgesProjected(position, w[j]) && EdgesProjected(position, w[j + 1]);
      ProjectMonotone(SegmentStart(w[j + 1].index), SegmentStart(w[j].index), position);
    }
  }

  /** A segment no farther than slot 51 is over 87 pixels wide at both of its edges. */
  lemma NearSegmentWide(position: real, s: RoadSegment)
    requires EdgesProjected(position, s)
    requires s.index <= BaseIndex(position) + 51
    ensures s.near.width > 87.0 && s.far.width > 87.0
  {
    BaseZIsLargestMultiple(position);
    var far := SegmentStart(s.index + 1);
    assert far - position <= 1820.0;
    ProjectWidthUnclamped(far, position);
    assert 160000.0 / (far - position) >= 160000.0 / 1820.0 by {
      if far - position < 1820.0 {
        DivisionAntitone(160000.0, far - position, 1820.0);
      }
    }
    ProjectMonotone(SegmentStart(s.index), far, position);
  }

  /** Every drawn edge is wide enough (over 87 pixels) for its lane dashes to stay inside the paved area. */
  lemma VisibleSegmentsWide(position: real)
    ensures var w := VisibleSegments(position);
      forall j :: 0 <= j < |w| ==> w[j].near.width > 87.0 && w[j].far.width > 87.0
  {
    var w := VisibleSegments(position);
    VisibleSegmentsWindow(position);
    forall j | 0 <= j < |w|
      ensures w[j].near.width > 87.0 && w[j].far.width > 87.0
    {
      NearSegmentWide(position, w[j]);
    }
  }

  /** On every drawn segment, both lane dashes lie strictly inside the paved area at both edges. */
  lemma VisibleDashesOnPavement(position: real, j: int, i: int)
    requires 0 <= j < |VisibleSegments(position)|
    requires i == 1 || i == 2
    ensures var s := VisibleSegments(position)[j];
      && PavedLeft(s.near) < LaneLine(s.near, i) - DashWidth(s.near) / 2.0
      && LaneLine(s.near, i) + DashWidth(s.near) / 2.0 < PavedRight(s.near)
      && PavedLeft(s.far) < LaneLine(s.far, i) - DashWidth(s.far) / 2.0
      && LaneLine(s.far, i) + DashWidth(s.far) / 2.0 < PavedRight(s.far)
  {
    var s := VisibleSegments(position)[j];
    VisibleSegmentsWide(position);
    DashInsidePavement(s.near, i);
    DashInsidePavement(s.far, i);
  }
}
