/** Roadside trees: the fixed pool, the recycling rule, the draw-order comparator and tree placement. */
module Scenery {
  import opened Wrappers
  import opened Constants
  import opened Canvas
  import opened Sequences

  /** A tree: its depth along the road and its fixed lateral offset from the road centre. */
  datatype Tree = Tree(z: real, x: real)

  /** Trees alternate sides: even positions in the pool stand left of the road, odd ones right. */
  function SideX(i: int): real {
    if i % 2 == 0 then -TreeOffset else TreeOffset
  }

  /** The tree the start-up loop pushes at position `i`. */
  function InitialTree(i: int): Tree {
    Tree((i as real) * TreeSpacing, SideX(i))
  }

  /** The pool as built at start-up. */
  function InitialPool(): (pool: seq<Tree>)
    ensures |pool| == PoolSize
    ensures forall i :: 0 <= i < |pool| ==> pool[i].z == (i as real) * TreeSpacing
    ensures forall i :: 0 <= i < |pool| ==> (pool[i].x < 0.0 <==> i % 2 == 0)
  {
    seq(PoolSize, i => InitialTree(i))
  }

  /** The pool's shape, which recycling keeps: 100 trees, sides alternating by position. */
  ghost predicate PoolShape(trees: seq<Tree>) {
    |trees| == PoolSize && forall i :: 0 <= i < |trees| ==> trees[i].x == SideX(i)
  }

  /** One step of frame's tree loop: a tree the camera has passed moves TreeRecycleDistance ahead. */
  function RecycleTree(t: Tree, position: real): (r: Tree)
    ensures r.x == t.x && r.z >= t.z
    ensures r == t <==> t.z >= position
  {
    if t.z < position then t.(z := t.z + TreeRecycleDistance) else t
  }

  /** frame's tree loop over the whole pool, with the camera at `position`. */
  function Recycle(trees: seq<Tree>, position: real): (r: seq<Tree>)
    ensures |r| == |trees|
    ensures forall i :: 0 <= i < |r| ==> r[i].x == trees[i].x && r[i].z >= trees[i].z
  {
    seq(|trees|, i requires 0 <= i < |trees| => RecycleTree(trees[i], position))
  }

  /** Every tree stands in the band [position, position + TreeRecycleDistance) ahead of the camera. */
  ghost predicate AheadOfCamera(trees: seq<Tree>, position: real) {
    forall i :: 0 <= i < |trees| ==> position <= trees[i].z < position + TreeRecycleDistance
  }

  /**
   * Recycling keeps the pool's size and every tree's side; exactly the trees behind the camera
   * move, each by exactly TreeRecycleDistance, and the others are left as they were.
   */
  lemma RecycleMovesOnlyPassedTrees(trees: seq<Tree>, position: real)
    ensures var r := Recycle(trees, position);
      && |r| == |trees|
      && (forall i :: 0 <= i < |r| ==> r[i].x == trees[i].x)
      && (forall i :: 0 <= i < |r| ==> (r[i] != trees[i] <==> trees[i].z < position))
      && (forall i :: 0 <= i < |r| && trees[i].z < position ==> r[i].z == trees[i].z + TreeRecycleDistance)
  {
  }

  /** The start-up pool has the pool shape, and all its trees lie in the band ahead of a camera at 0. */
  lemma InitialPoolShape()
    ensures PoolShape(InitialPool())
    ensures AheadOfCamera(InitialPool(), 0.0)
    ensures forall i :: 0 <= i < PoolSize ==> InitialPool()[i].z == (i as real) * TreeSpacing
  {
  }

  /** Recycling keeps the pool shape. */
  lemma RecyclePreservesShape(trees: seq<Tree>, position: real)
    requires PoolShape(trees)
    ensures PoolShape(Recycle(trees, position))
  {
  }

  /**
   * If every tree was in the band ahead of the camera and the camera then moves forward by at most
   * TreeRecycleDistance, recycling puts every tree back in the band ahead of the new position:
   * no tree is left behind the camera.
   */
  lemma RecycleKeepsTreesAhead(trees: seq<Tree>, before: real, after: real)
    requires AheadOfCamera(trees, before)
    requires before <= after <= before + TreeRecycleDistance
    ensures AheadOfCamera(Recycle(trees, after), after)
  {
    var r := Recycle(trees, after);
    forall i | 0 <= i < |r|
      ensures after <= r[i].z < after + TreeRecycleDistance
    {
      assert r[i] == RecycleTree(trees[i], after);
    }
  }

  /**
   * Recycling moves a tree forward once per frame only: after a jump of more than
   * TreeRecycleDistance a passed tree can still be behind the camera.
   */
  lemma RecycleIsOneStep()
    ensures var trees := [Tree(0.0, -TreeOffset)];
      Recycle(trees, 30000.0)[0].z < 30000.0
  {
  }

  /**
   * drawTrees' sort comparator: a negative result puts `a` first. Trees at or behind the camera
   * compare equal to everything; otherwise trees are ordered by the screen y of their base.
   */
  function CompareTrees(a: Tree, b: Tree, position: real): (r: real)
    ensures a.z - position <= 0.0 || b.z - position <= 0.0 ==> r == 0.0
    ensures a.z == b.z ==> r == 0.0
  {
    var dzA := a.z - position;
    var dzB := b.z - position;
    if dzA <= 0.0 || dzB <= 0.0 then 0.0
    else
      var scaleA := CameraDepth / dzA;
      var scaleB := CameraDepth / dzB;
      var screenYA := VirtualHeight / 2.0 + scaleA * CameraHeight;
      var screenYB := VirtualHeight / 2.0 + scaleB * CameraHeight;
      screenYA - screenYB
  }

  /**
   * For two trees ahead of the camera the farther one sorts first, trees at equal depth tie, and
   * the nearer one sorts last; a tree at or behind the camera ties with everything.
   */
  lemma CompareOrdersFartherFirst(a: Tree, b: Tree, position: real)
    ensures a.z - position <= 0.0 || b.z - position <= 0.0 ==> CompareTrees(a, b, position) == 0.0
    ensures a.z - position > 0.0 && b.z - position > 0.0 ==>
      && (CompareTrees(a, b, position) < 0.0 <==> a.z > b.z)
      && (CompareTrees(a, b, position) == 0.0 <==> a.z == b.z)
      && (CompareTrees(a, b, position) > 0.0 <==> a.z < b.z)
  {
    var dzA := a.z - position;
    var dzB := b.z - position;
    if dzA > 0.0 && dzB > 0.0 {
      if dzA < dzB {
        DivisionAntitone(CameraDepth, dzA, dzB);
      } else if dzB < dzA {
        DivisionAntitone(CameraDepth, dzB, dzA);
      }
    }
  }

  /** Swapping the arguments negates the comparator. */
  lemma CompareAntisymmetric(a: Tree, b: Tree, position: real)
    ensures CompareTrees(a, b, position) == -CompareTrees(b, a, position)
  {
  }

  /** Among trees ahead of the camera the comparator is transitive. */
  lemma CompareTransitiveAhead(a: Tree, b: Tree, c: Tree, position: real)
    requires a.z > position && b.z > position && c.z > position
    requires CompareTrees(a, b, position) <= 0.0 && CompareTrees(b, c, position) <= 0.0
    ensures CompareTrees(a, c, position) <= 0.0
  {
    CompareOrdersFartherFirst(a, b, position);
    CompareOrdersFartherFirst(b, c, position);
    CompareOrdersFartherFirst(a, c, position);
  }

  /**
   * Once a tree is at or behind the camera the comparator is no consistent order: such a tree ties
   * with two trees ahead of the camera that do not tie with each other.
   */
  lemma CompareInconsistentWithPassedTree()
    ensures var behind, near, far := Tree(0.0, -TreeOffset), Tree(200.0, TreeOffset), Tree(400.0, -TreeOffset);
      && CompareTrees(near, behind, 0.0) == 0.0
      && CompareTrees(behind, far, 0.0) == 0.0
      && CompareTrees(near, far, 0.0) != 0.0
  {
    CompareOrdersFartherFirst(Tree(200.0, TreeOffset), Tree(400.0, -TreeOffset), 0.0);
  }

  /** drawTrees' skip test as written: only trees strictly behind the camera are skipped. */
  predicate DrawnAsWritten(t: Tree, position: real) {
    !(t.z - position < 0.0)
  }

  /**
   * The guard as written lets a tree exactly at the camera through, where drawTrees divides by
   * dz == 0; on the first frame (camera at 0, dt = 0, no tree recycled) the first tree of the pool
   * is such a tree.
   */
  lemma AsWrittenDrawsTreeAtCamera()
    ensures var t := Recycle(InitialPool(), 0.0)[0];
      DrawnAsWritten(t, 0.0) && t.z - 0.0 == 0.0 && PlaceTree(t, 0.0).None?
  {
  }

  /**
   * Tree placement with the guard the comparator uses (dz <= 0 skipped): the scale is only ever
   * taken for a tree strictly in front of the camera.
   */
  function PlaceTree(t: Tree, position: real): (r: Option<Command>)
    ensures r.Some? ==> r.value.TreeImage?
    ensures r.Some? <==> t.z - position > 0.0
    ensures r.Some? ==> r.value.baseY > VirtualHeight / 2.0 && r.value.height > 0.0
  {
    var dz := t.z - position;
    if dz <= 0.0 then None
    else
      var scale := CameraDepth / dz;
      var screenX := VirtualWidth / 2.0 + scale * t.x * 1.5;
      var screenY := VirtualHeight / 2.0 + scale * CameraHeight;
      var treeHeight := scale * 3000.0;
      Some(TreeImage(screenX, screenY, treeHeight))
  }

  /** A tree ahead of the camera is drawn left of the screen's centre exactly when it stands left of the road. */
  lemma PlaceTreeKeepsSide(t: Tree, position: real)
    requires t.z > position
    ensures PlaceTree(t, position).Some?
    ensures PlaceTree(t, position).value.centerX < VirtualWidth / 2.0 <==> t.x < 0.0
  {
  }

  /**
   * A tree is placed exactly when it is in front of the camera (and then DrawnAsWritten agrees);
   * its base is below the screen's middle line, its height positive, and the comparator orders two
   * placed trees by the same base y they are drawn at.
   */
  lemma PlaceTreeAgreesWithComparator(a: Tree, b: Tree, position: real)
    ensures PlaceTree(a, position).Some? <==> a.z - position > 0.0
    ensures PlaceTree(a, position).Some? ==> DrawnAsWritten(a, position)
    ensures PlaceTree(a, position).Some? ==>
      PlaceTree(a, position).value.baseY > VirtualHeight / 2.0 && PlaceTree(a, position).value.height > 0.0
    ensures PlaceTree(a, position).Some? && PlaceTree(b, position).Some? ==>
      CompareTrees(a, b, position) == PlaceTree(a, position).value.baseY - PlaceTree(b, position).value.baseY
  {
  }

  /** Of two placed trees, the nearer one is drawn lower on the screen and taller. */
  lemma PlaceTreeNearerIsLowerAndTaller(a: Tree, b: Tree, position: real)
    requires position < a.z < b.z
    ensures PlaceTree(a, position).Some? && PlaceTree(b, position).Some?
    ensures PlaceTree(a, position).value.baseY > PlaceTree(b, position).value.baseY
    ensures PlaceTree(a, position).value.height > PlaceTree(b, position).value.height
  {
    DivisionAntitone(CameraDepth, a.z - position, b.z - position);
  }

  /** The placement of each tree of `sorted`, in that order. */
  function Placements(sorted: seq<Tree>, position: real): seq<Option<Command>> {
    seq(|sorted|, i requires 0 <= i < |sorted| => PlaceTree(sorted[i], position))
  }

  /** The tree images drawTrees issues for trees taken in the order `sorted`. */
  function TreeImages(sorted: seq<Tree>, position: real): seq<Command> {
    Somes(Placements(sorted, position))
  }

  /** drawTrees' loop over the trees in sorted order, with the corrected skip test. */
  method DrawTrees(sorted: seq<Tree>, position: real) returns (cmds: seq<Command>)
    ensures cmds == TreeImages(sorted, position)
  {
    cmds := [];
    for i := 0 to |sorted|
      invariant cmds == Somes(Placements(sorted[..i], position))
    {
      var tree := sorted[i];
      var dz := tree.z - position;
      if dz > 0.0 {
        var scale := CameraDepth / dz;
        var screenX := VirtualWidth / 2.0 + scale * tree.x * 1.5;
        var screenY := VirtualHeight / 2.0 + scale * CameraHeight;
        var treeHeight := scale * 3000.0;
        cmds := cmds + [TreeImage(screenX, screenY, treeHeight)];
        assert PlaceTree(tree, position).value.centerX == screenX;
        assert PlaceTree(tree, position).value.baseY == screenY;
        assert PlaceTree(tree, position).value.height == treeHeight;
      }
      assert Placements(sorted[..i + 1], position) == Placements(sorted[..i], position) + [PlaceTree(tree, position)];
      SomesSnoc(Placements(sorted[..i], position), PlaceTree(tree, position));
    }
    assert sorted[..|sorted|] == sorted;
  }

  /**
   * Exactly the trees in front of the camera are drawn: an image is drawn iff it is the placement
   * of such a tree, so the images drawn do not depend on the order the sort produced.
   */
  lemma TreeImagesAreTreesAhead(sorted: seq<Tree>, position: real, c: Command)
    ensures c in TreeImages(sorted, position) <==>
      exists t :: t in sorted && t.z > position && PlaceTree(t, position) == Some(c)
  {
    var placed := Placements(sorted, position);
    SomesMembership(placed, c);
    if Some(c) in placed {
      var i :| 0 <= i < |placed| && placed[i] == Some(c);
      assert sorted[i] in sorted && PlaceTree(sorted[i], position) == Some(c);
    }
    if t :| t in sorted && t.z > position && PlaceTree(t, position) == Some(c) {
      var i :| 0 <= i < |sorted| && sorted[i] == t;
      assert placed[i] == Some(c);
    }
  }

  /** Any two orders of the same trees draw the same set of images. */
  lemma TreeImagesIgnoreOrder(sorted: seq<Tree>, other: seq<Tree>, position: real)
    requires forall t :: t in sorted <==> t in other
    ensures forall c :: c in TreeImages(sorted, position) <==> c in TreeImages(other, position)
  {
    forall c ensures c in TreeImages(sorted, position) <==> c in TreeImages(other, position) {
      TreeImagesAreTreesAhead(sorted, position, c);
      TreeImagesAreTreesAhead(other, position, c);
    }
  }
}
