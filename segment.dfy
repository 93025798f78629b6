/** drawSegment and getSegmentColor: one road segment as a road body, two rumble strips and lane dashes. */
module Segment {
  import opened Constants
  import opened Projection
  import opened Canvas

  /** getSegmentColor: the road body colour alternates with the segment index. */
  function SegmentColor(index: int): (c: Color)
    ensures c == RoadLight || c == RoadDark
  {
    // `index % 2 === 0` tests divisibility, which truncating and Euclidean remainders agree on.
    if index % 2 == 0 then RoadLight else RoadDark
  }

  /** The rumble strip colour of a segment. */
  function RumbleColor(index: int): (c: Color)
    ensures c == Red || c == White
  {
    if index % 2 == 0 then Red else White
  }

  // Horizontal measures of one projected edge of a segment.

  function LeftEdge(p: Projected): real { p.x - p.width / 2.0 }
  function RightEdge(p: Projected): real { p.x + p.width / 2.0 }
  function RumbleWidth(p: Projected): real { p.width * 0.1 }
  function LaneWidth(p: Projected): real { (p.width - 2.0 * RumbleWidth(p)) / 3.0 }
  function DashWidth(p: Projected): real { Max(4.0, p.width * 0.01) }

  /** Where the source puts lane line `i`: past the left rumble strip, `i` lane widths in. */
  function LaneLine(p: Projected, i: int): real {
    LeftEdge(p) + RumbleWidth(p) + LaneWidth(p) * (i as real)
  }

  // The paved part of an edge is what the two rumble strips leave.

  function PavedLeft(p: Projected): real { LeftEdge(p) + p.width / 10.0 }
  function PavedRight(p: Projected): real { RightEdge(p) - p.width / 10.0 }

  function Body(p1: Projected, p2: Projected, color: Color): Command {
    Band(color, p1.y, LeftEdge(p1), RightEdge(p1), p2.y, LeftEdge(p2), RightEdge(p2))
  }

  function LeftRumble(p1: Projected, p2: Projected, index: int): Command {
    Band(RumbleColor(index),
         p1.y, LeftEdge(p1), LeftEdge(p1) + RumbleWidth(p1),
         p2.y, LeftEdge(p2), LeftEdge(p2) + RumbleWidth(p2))
  }

  function RightRumble(p1: Projected, p2: Projected, index: int): Command {
    Band(RumbleColor(index),
         p1.y, RightEdge(p1) - RumbleWidth(p1), RightEdge(p1),
         p2.y, RightEdge(p2) - RumbleWidth(p2), RightEdge(p2))
  }

  /** The dash on lane line `i`, DashWidth wide at each edge. */
  function Dash(p1: Projected, p2: Projected, i: int): Command {
    Band(White,
         p1.y, LaneLine(p1, i) - DashWidth(p1) / 2.0, LaneLine(p1, i) + DashWidth(p1) / 2.0,
         p2.y, LaneLine(p2, i) - DashWidth(p2) / 2.0, LaneLine(p2, i) + DashWidth(p2) / 2.0)
  }

  /** Every third segment carries lane dashes. */
  predicate Dashed(index: int) {
    index % 3 == 0
  }

  /** The commands drawSegment issues, in order. */
  function SegmentCommands(p1: Projected, p2: Projected, color: Color, index: int): (cmds: seq<Command>)
    ensures |cmds| == (if index % 3 == 0 then 5 else 3)
    ensures forall k :: 0 <= k < |cmds| ==> cmds[k].Quad?
    ensures cmds[0].color == color && cmds[1].color == cmds[2].color == RumbleColor(index)
    ensures forall k :: 3 <= k < |cmds| ==> cmds[k].color == White
  {
    [Body(p1, p2, color), LeftRumble(p1, p2, index), RightRumble(p1, p2, index)]
    + (if Dashed(index) then [Dash(p1, p2, 1), Dash(p1, p2, 2)] else [])
  }

  /** drawSegment(p1, p2, color, index): p1 is the near edge, p2 the far one. */
  method DrawSegment(p1: Projected, p2: Projected, color: Color, index: int) returns (cmds: seq<Command>)
    ensures cmds == SegmentCommands(p1, p2, color, index)
  {
    cmds := [Body(p1, p2, color)];
    cmds := cmds + [LeftRumble(p1, p2, index)];
    cmds := cmds + [RightRumble(p1, p2, index)];
    if index % 3 == 0 {
      for i := 1 to 3
        invariant |cmds| == i + 2
        invariant cmds[..3] == [Body(p1, p2, color), LeftRumble(p1, p2, index), RightRumble(p1, p2, index)]
        invariant forall k :: 3 <= k < |cmds| ==> cmds[k] == Dash(p1, p2, k - 2)
      {
        cmds := cmds + [Dash(p1, p2, i)];
      }
    }
  }

  /** Colour parity: light road with red rumble on even segments, dark road with white rumble on odd ones. */
  lemma ColorParity(index: int)
    ensures SegmentColor(index) == RoadLight <==> index % 2 == 0
    ensures RumbleColor(index) == Red <==> index % 2 == 0
    ensures SegmentColor(index) != SegmentColor(index + 1)
    ensures RumbleColor(index) != RumbleColor(index + 1)
    ensures SegmentColor(index) == SegmentColor(index + 2)
  {
  }

  /**
   * What a segment is made of: the body in the given colour, then the two rumble strips in the
   * rumble colour, then exactly two white dashes when the index is a multiple of three and none
   * otherwise; every shape runs from the near edge's line to the far edge's line.
   */
  lemma SegmentLayout(p1: Projected, p2: Projected, color: Color, index: int)
    ensures var cmds := SegmentCommands(p1, p2, color, index);
      && |cmds| == (if index % 3 == 0 then 5 else 3)
      && cmds[0].color == color
      && cmds[1].color == RumbleColor(index) && cmds[2].color == RumbleColor(index)
      && (forall k :: 3 <= k < |cmds| ==> cmds[k].color == White)
      && (forall k :: 0 <= k < |cmds| ==>
            cmds[k].Quad? && cmds[k].a.y == p1.y && cmds[k].b.y == p1.y
            && cmds[k].c.y == p2.y && cmds[k].d.y == p2.y)
  {
  }

  /**
   * The rumble strips each take a tenth of the road width, flush with the road's outer edges:
   * on each edge the left strip starts where the body starts and the right one ends where it ends.
   */
  lemma RumblesAtRoadEdges(p1: Projected, p2: Projected, color: Color, index: int)
    ensures var cmds := SegmentCommands(p1, p2, color, index);
      && cmds[1].a.x == cmds[0].a.x && cmds[1].b.x - cmds[1].a.x == p1.width / 10.0
      && cmds[1].d.x == cmds[0].d.x && cmds[1].c.x - cmds[1].d.x == p2.width / 10.0
      && cmds[2].b.x == cmds[0].b.x && cmds[2].b.x - cmds[2].a.x == p1.width / 10.0
      && cmds[2].c.x == cmds[0].c.x && cmds[2].c.x - cmds[2].d.x == p2.width / 10.0
      && cmds[1].b.x == PavedLeft(p1) && cmds[2].a.x == PavedRight(p1)
      && cmds[1].c.x == PavedLeft(p2) && cmds[2].d.x == PavedRight(p2)
  {
  }

  /**
   * The two lane lines cut the paved area into three equal lanes, and on a road of positive
   * width they lie strictly between the rumble strips.
   */
  lemma LaneLinesSplitPavement(p: Projected, i: int)
    requires i == 1 || i == 2
    ensures LaneLine(p, i) == PavedLeft(p) + (i as real) * (PavedRight(p) - PavedLeft(p)) / 3.0
    ensures p.width > 0.0 ==> PavedLeft(p) < LaneLine(p, 1) < LaneLine(p, 2) < PavedRight(p)
  {
  }

  /**
   * Each dash is centred on its lane line, at least four pixels and at least a hundredth of the
   * road width wide, at both edges of the segment.
   */
  lemma DashesOnLaneLines(p1: Projected, p2: Projected, color: Color, index: int, i: int)
    requires index % 3 == 0 && (i == 1 || i == 2)
    ensures var d := SegmentCommands(p1, p2, color, index)[2 + i];
      && (d.a.x + d.b.x) / 2.0 == LaneLine(p1, i)
      && (d.d.x + d.c.x) / 2.0 == LaneLine(p2, i)
      && d.b.x - d.a.x >= 4.0 && d.b.x - d.a.x >= p1.width / 100.0
      && d.c.x - d.d.x >= 4.0 && d.c.x - d.d.x >= p2.width / 100.0
      && d.b.x - d.a.x == Max(4.0, p1.width * 0.01) && d.c.x - d.d.x == Max(4.0, p2.width * 0.01)
  {
  }

  /** On an edge wider than 7.5 pixels both dashes stay inside the paved area. */
  lemma DashInsidePavement(p: Projected, i: int)
    requires i == 1 || i == 2
    requires p.width > 7.5
    ensures PavedLeft(p) < LaneLine(p, i) - DashWidth(p) / 2.0
    ensures LaneLine(p, i) + DashWidth(p) / 2.0 < PavedRight(p)
  {
    LaneLinesSplitPavement(p, i);
  }
}
